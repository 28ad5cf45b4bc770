/** Selection and dispatch keep the invariant, so it holds in every state of every run. */
module SchedulerRuns {
  import opened Common
  import opened SchedulerModel
  import opened SchedulerSteps
  import opened SchedulerInvariant
  import opened SchedulerPeek

  // ---------------------------------------------------------------------------
  // A selection takes exactly one queued task off its queue, or none at all

  lemma {:induction false} NoneStale(tasks: Tasks, ids: seq<TaskId>)
    requires forall i | 0 <= i < |ids| :: Live(tasks, ids[i])
    ensures DropStale(tasks, ids) == ids
  {
  }

  lemma BacklogIsQueue(tasks: Tasks, ring: Ring, tenant: TenantId)
    requires QueuesOk(tasks, ring)
    ensures Backlog(tasks, ring, tenant) == if tenant in ring.queues then ring.queues[tenant].ids else []
  {
    if tenant in ring.queues { NoneStale(tasks, ring.queues[tenant].ids); }
  }

  lemma AdvanceKeeps(ring: Ring)
    requires RingOk(ring)
    ensures RingOk(Advance(ring))
  {
    if ring.order != [] {
      AdvanceWraps(ring);
      assert ring.order[Advance(ring).cursor] in ring.order;
    }
  }

  lemma TookNoneKeeps(tasks: Tasks, ring: Ring, after: Ring)
    requires QueuesOk(tasks, ring) && TookNone(ring, after)
    ensures QueuesOk(tasks, after)
  {
    forall id | Live(tasks, id) ensures Enqueued(after, tasks[id].spec.tenant, id) {
      assert Enqueued(ring, tasks[id].spec.tenant, id);
    }
  }

  /** The outcome of a selection: a live task left its queue, or every queue is as it was. */
  ghost predicate Outcome(tasks: Tasks, ring: Ring, chosen: Option<TaskId>, after: Ring) {
    && RingOk(after)
    && (chosen.None? ==> TookNone(ring, after))
    && (chosen.Some? ==> Live(tasks, chosen.value) && Took(ring, after, tasks[chosen.value].spec.tenant, chosen.value))
  }

  lemma OutcomeLater(tasks: Tasks, ring: Ring, visited: Ring, chosen: Option<TaskId>, after: Ring)
    requires TookNone(ring, visited) && Outcome(tasks, visited, chosen, after)
    ensures Outcome(tasks, ring, chosen, after)
  {
  }

  lemma WrrSkipKeeps(tasks: Tasks, ring: Ring, tenant: TenantId)
    requires RingOk(ring) && QueuesOk(tasks, ring) && ring.order != []
    requires tenant == ring.order[ring.cursor] && Backlog(tasks, ring, tenant) == []
    ensures var visited := Advance(WrrSkip(ring, tenant));
            RingOk(visited) && QueuesOk(tasks, visited) && TookNone(ring, visited)
  {
    BacklogIsQueue(tasks, ring, tenant);
    AdvanceKeeps(WrrSkip(ring, tenant));
    TookNoneKeeps(tasks, ring, Advance(WrrSkip(ring, tenant)));
  }

  lemma WrrServeTakes(tasks: Tasks, ring: Ring, tenant: TenantId)
    requires RingOk(ring) && QueuesOk(tasks, ring) && ring.order != []
    requires tenant == ring.order[ring.cursor] && Backlog(tasks, ring, tenant) != []
    ensures var live := Backlog(tasks, ring, tenant);
            Outcome(tasks, ring, Some(live[0]), WrrServe(ring, tenant, live[1..]))
  {
    BacklogIsQueue(tasks, ring, tenant);
    AdvanceKeeps(SetIds(ring, tenant, Backlog(tasks, ring, tenant)[1..]));
  }

  lemma {:induction false} WrrTakes(tasks: Tasks, ring: Ring, attempts: nat)
    requires RingOk(ring) && QueuesOk(tasks, ring)
    ensures Outcome(tasks, ring, WrrScan(tasks, ring, attempts).0, WrrScan(tasks, ring, attempts).1)
    decreases attempts
  {
    if attempts > 0 && ring.order != [] {
      assert ring.cursor < |ring.order|;
      hide QueuesOk, RingOk, TookNone, Took, Outcome, Backlog, WrrServe, WrrSkip;
      var tenant := ring.order[ring.cursor];
      if Backlog(tasks, ring, tenant) != [] {
        WrrServeTakes(tasks, ring, tenant);
      } else {
        var visited := Advance(WrrSkip(ring, tenant));
        WrrSkipKeeps(tasks, ring, tenant);
        WrrTakes(tasks, visited, attempts - 1);
        OutcomeLater(tasks, ring, visited, WrrScan(tasks, visited, attempts - 1).0,
          WrrScan(tasks, visited, attempts - 1).1);
      }
    }
  }

  lemma DrrVisitKeeps(tasks: Tasks, ring: Ring)
    requires RingOk(ring) && QueuesOk(tasks, ring) && ring.order != []
    ensures var visited := Advance(DrrVisit(tasks, ring, ring.order[ring.cursor]));
            RingOk(visited) && QueuesOk(tasks, visited) && TookNone(ring, visited)
  {
    var tenant := ring.order[ring.cursor];
    assert tenant in ring.order;
    BacklogIsQueue(tasks, ring, tenant);
    AdvanceKeeps(DrrVisit(tasks, ring, tenant));
    TookNoneKeeps(tasks, ring, Advance(DrrVisit(tasks, ring, tenant)));
  }

  lemma DrrServeTakes(tasks: Tasks, ring: Ring, tenant: TenantId)
    requires RingOk(ring) && QueuesOk(tasks, ring) && ring.order != []
    requires tenant == ring.order[ring.cursor] && Affordable(tasks, ring, tenant)
    ensures var live := Backlog(tasks, ring, tenant);
            Outcome(tasks, ring, Some(live[0]), Advance(DrrServe(tasks, ring, tenant, live)))
  {
    BacklogIsQueue(tasks, ring, tenant);
    AdvanceKeeps(DrrServe(tasks, ring, tenant, Backlog(tasks, ring, tenant)));
  }

  lemma {:induction false} DrrTakes(tasks: Tasks, ring: Ring, attempts: nat)
    requires RingOk(ring) && QueuesOk(tasks, ring)
    ensures Outcome(tasks, ring, DrrScan(tasks, ring, attempts).0, DrrScan(tasks, ring, attempts).1)
    decreases attempts
  {
    if attempts > 0 && ring.order != [] {
      assert ring.cursor < |ring.order|;
      hide QueuesOk, RingOk, TookNone, Took, Outcome, Affordable, DrrVisit;
      var tenant := ring.order[ring.cursor];
      if Affordable(tasks, ring, tenant) {
        DrrServeTakes(tasks, ring, tenant);
      } else {
        var visited := Advance(DrrVisit(tasks, ring, tenant));
        DrrVisitKeeps(tasks, ring);
        DrrTakes(tasks, visited, attempts - 1);
        OutcomeLater(tasks, ring, visited, DrrScan(tasks, visited, attempts - 1).0,
          DrrScan(tasks, visited, attempts - 1).1);
      }
    }
  }

  lemma BestTakes(tasks: Tasks, ring: Ring, policy: Policy)
    requires RingOk(ring) && QueuesOk(tasks, ring)
    ensures Outcome(tasks, ring, TakeBest(tasks, ring, policy).0, TakeBest(tasks, ring, policy).1)
  {
    var (id, after) := TakeBest(tasks, ring, policy);
    if id.Some? {
      assert IsBest(tasks, ring, policy, id.value);
      assert Enqueued(ring, tasks[id.value].spec.tenant, id.value);
    }
  }

  lemma SelectTakes(s: State)
    requires RingOk(s.ring) && QueuesOk(s.tasks, s.ring)
    ensures var (id, ring) := Select(s.config.policy, s.tasks, s.ring);
            Outcome(s.tasks, s.ring, id, ring)
  {
    hide RingOk, QueuesOk;
    match s.config.policy
    case Fifo => BestTakes(s.tasks, s.ring, Fifo);
    case Priority => BestTakes(s.tasks, s.ring, Priority);
    case WeightedRoundRobin => WrrTakes(s.tasks, s.ring, |s.ring.order|);
    case DeficitRoundRobin => DrrTakes(s.tasks, s.ring, |s.ring.order|);
  }

  // ---------------------------------------------------------------------------
  // Dispatch

  lemma DispatchSelectedKeeps(s: State, fault: DispatchFault)
    requires Inv(s) && |s.running| < s.config.maxRunning
    ensures var (id, selected) := SelectStep(s);
            if id.None? then Inv(selected) else Inv(DispatchSelected(selected, id.value, fault).1)
  {
    hide QueuesOk, RunningOk, TasksOk, LedgerOk, RingOk, Took;
    var (id, selected) := SelectStep(s);
    SelectTakes(s);
    if id.Some? {
      Known(s, id.value);
      DequeuedKeeps(s, DispatchSelected(selected, id.value, fault).1, id.value);
    } else {
      TookNoneKeeps(s.tasks, s.ring, selected.ring);
      TasksCarried(s, selected);
    }
  }

  lemma TasksCarried(s: State, after: State)
    requires TasksOk(s) && TookNone(s.ring, after.ring) && after == s.(ring := after.ring)
    ensures TasksOk(after) && (LedgerOk(s) ==> LedgerOk(after))
  {
    forall x | x in after.tasks ensures TaskOk(after, x) { assert TaskOk(s, x); }
  }

  lemma DispatchTaskSelects(s: State, id: TaskId, fault: DispatchFault)
    requires RingOk(s.ring)
    ensures var (chosen, selected) := SelectStep(s);
            var after := DispatchTask(s, id, fault).1;
            after == s || (MayDispatch(s) && if chosen.None? then after == selected
              else after == DispatchSelected(selected, chosen.value, fault).1)
  {
    PeekRefinesSelect(s.config.policy, s.tasks, s.ring);
  }

  lemma StepKeeps(s: State, e: Event)
    requires Inv(s)
    ensures Inv(Step(s, e))
  {
    assert InRing(s.ring);
    hide QueuesOk, RunningOk, TasksOk, LedgerOk, RingOk, ReservationBlocks;
    match e
    case SubmitEvent(spec, fault) => SubmitKeeps(s, spec, fault);
    case DispatchNextEvent(fault) =>
      if MayDispatch(s) { DispatchSelectedKeeps(s, fault); }
    case DispatchTaskEvent(id, fault) =>
      DispatchTaskSelects(s, id, fault);
      if MayDispatch(s) { DispatchSelectedKeeps(s, fault); }
    case SuspendEvent(id, throws) => SuspendKeeps(s, id, throws);
    case CompleteEvent(id) => FinishKeeps(s, id, Completed);
    case FailEvent(id) => FinishKeeps(s, id, Failed);
    case CancelEvent(id) =>
      CancelQueuedKeeps(s, id);
      FinishKeeps(s, id, Cancelled);
    case CancelQueuedEvent(id) => CancelQueuedKeeps(s, id);
    case ForgetEvent(id) => ForgetKeeps(s, id);
    case ReserveSlotsEvent(slots) => SlotsKeep(s, slots);
  }

  lemma SlotsKeep(s: State, slots: nat)
    requires Inv(s)
    ensures Inv(SetReservedSlots(s, slots).1)
  {
    TasksCarried(s, s);
    forall x | x in s.tasks ensures TaskOk(SetReservedSlots(s, slots).1, x) { assert TaskOk(s, x); }
  }

  /** What a step does to the task records: parameters stay, only a dispatch changes a sequence, and an id
      that is gone, or was never given out, appears only as the next new task. */
  ghost predicate RecordsFollow(s: State, after: State, dispatched: Option<TaskId>) {
    && s.nextTask <= after.nextTask
    && after.config == s.config && after.ledger.limit == s.ledger.limit
    && forall id | id in after.tasks && id != s.nextTask ::
         && id in s.tasks && after.tasks[id].spec == s.tasks[id].spec
         && (Some(id) == dispatched || after.tasks[id].sequence == s.tasks[id].sequence)
  }

  lemma QuietRecords(s: State, e: Event)
    requires InRing(s.ring) && !e.DispatchNextEvent? && !e.DispatchTaskEvent?
    ensures RecordsFollow(s, Step(s, e), None)
  {
  }

  lemma DispatchSelectedRecords(s: State, chosen: TaskId, fault: DispatchFault)
    ensures var (d, after) := DispatchSelected(s, chosen, fault);
            RecordsFollow(s, after, if d.Some? then Some(chosen) else None) && (d.Some? ==> d.value.id == chosen)
  {
  }

  lemma DispatchRecords(s: State, e: Event)
    requires InRing(s.ring) && Distinct(s.ring.order) && (e.DispatchNextEvent? || e.DispatchTaskEvent?)
    ensures RecordsFollow(s, Step(s, e), if Dispatched(s, e).Some? then Some(Dispatched(s, e).value.id) else None)
  {
    PeekRefinesSelect(s.config.policy, s.tasks, s.ring);
    hide Peek, Select, ReservationBlocks, DispatchSelected;
    var (chosen, selected) := SelectStep(s);
    if chosen.Some? { DispatchSelectedRecords(selected, chosen.value, e.fault); }
  }

  ghost function Dispatched(s: State, e: Event): Option<Snapshot>
    requires InRing(s.ring)
  {
    match e
    case DispatchNextEvent(fault) => DispatchNext(s, fault).0
    case DispatchTaskEvent(id, fault) => DispatchTask(s, id, fault).0
    case _ => None
  }

  lemma StepRecords(s: State, e: Event)
    requires InRing(s.ring) && Distinct(s.ring.order)
    ensures RecordsFollow(s, Step(s, e), if Dispatched(s, e).Some? then Some(Dispatched(s, e).value.id) else None)
  {
    if e.DispatchNextEvent? || e.DispatchTaskEvent? {
      DispatchRecords(s, e);
    } else {
      QuietRecords(s, e);
    }
  }

  // ---------------------------------------------------------------------------
  // Runs

  /** The states of a run: trace[i] is the state before event i. */
  ghost predicate IsRun(trace: seq<State>, events: seq<Event>) {
    && |trace| == |events| + 1
    && Inv(trace[0])
    && forall i | 0 <= i < |events| :: InRing(trace[i].ring) && trace[i + 1] == Step(trace[i], events[i])
  }

  lemma {:induction false} RunKeeps(trace: seq<State>, events: seq<Event>, i: nat)
    requires IsRun(trace, events) && i < |trace|
    ensures Inv(trace[i])
  {
    if i > 0 {
      RunKeeps(trace, events, i - 1);
      StepKeeps(trace[i - 1], events[i - 1]);
    }
  }
}
