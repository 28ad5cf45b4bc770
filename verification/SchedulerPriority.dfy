/** Strict priority with reserved slots: how many low-priority tasks run, and what a retreat achieves. */
module SchedulerPriority {
  import opened Common
  import opened SchedulerModel
  import opened SchedulerSteps
  import opened SchedulerPeek
  import opened SchedulerInvariant
  import opened SchedulerRuns
  import opened SchedulerFairness
  import opened SchedulerTheorems

  // ---------------------------------------------------------------------------
  // The best candidate

  lemma BestIs(tasks: Tasks, ring: Ring, policy: Policy, id: TaskId)
    requires IsBest(tasks, ring, policy, id)
    ensures Best(tasks, ring, policy) == Some(id)
  {
    var chosen := Best(tasks, ring, policy).value;
    assert IsBest(tasks, ring, policy, chosen);
  }

  lemma PriorityPeekIsBest(s: State)
    requires s.config.policy.Priority? && InRing(s.ring) && Peek(s.config.policy, s.tasks, s.ring).Some?
    ensures var best := Peek(s.config.policy, s.tasks, s.ring).value;
            IsBest(s.tasks, s.ring, Priority, best) && Live(s.tasks, best)
  {
  }

  lemma PriorityPeekIs(tasks: Tasks, ring: Ring)
    requires InRing(ring)
    ensures Peek(Priority, tasks, ring) == Best(tasks, ring, Priority)
  {
  }

  /** A finite set of known tasks has a first one. */
  lemma {:induction false} FirstExists(tasks: Tasks, policy: Policy, ids: set<TaskId>) returns (first: TaskId)
    requires ids != {} && ids <= tasks.Keys
    ensures first in ids && forall x | x in ids :: x == first || Before(tasks, policy, first, x)
  {
    var x :| x in ids;
    if ids == {x} {
      first := x;
    } else {
      var rest := FirstExists(tasks, policy, ids - {x});
      first := if Before(tasks, policy, x, rest) then x else rest;
      assert forall y | y in ids :: y == x || y in ids - {x};
    }
  }

  /** Except for deficit rounds that only accrue, a policy finds a task whenever one is queued. */
  lemma PeekIsWorkConserving(s: State)
    requires Inv(s) && !s.config.policy.DeficitRoundRobin?
    ensures Peek(s.config.policy, s.tasks, s.ring).Some? <==> exists id :: Live(s.tasks, id)
  {
    hide Inv, Best;
    if id :| Live(s.tasks, id) {
      if s.config.policy.WeightedRoundRobin? {
        WrrFindsTask(s, id);
      } else {
        BestFindsTask(s, id, s.config.policy);
      }
    } else {
      NothingLive(s);
    }
  }

  lemma WrrFindsTask(s: State, id: TaskId)
    requires Inv(s) && Live(s.tasks, id)
    ensures WrrPeek(s.tasks, s.ring).Some?
  {
    hide TasksOk, LedgerOk, RunningOk, BoundsOk;
    assert Enqueued(s.ring, s.tasks[id].spec.tenant, id);
    WrrFindsBacklog(s, s.tasks[id].spec.tenant);
  }

  lemma BestFindsTask(s: State, id: TaskId, policy: Policy)
    requires Inv(s) && Live(s.tasks, id)
    ensures Best(s.tasks, s.ring, policy).Some?
  {
    hide TasksOk, LedgerOk, RunningOk, BoundsOk, RingOk;
    var ids := set x | x in s.tasks && Live(s.tasks, x);
    assert id in ids;
    var first := FirstExists(s.tasks, policy, ids);
    assert Candidate(s.tasks, s.ring, first) by { assert Enqueued(s.ring, s.tasks[first].spec.tenant, first); }
    BestIs(s.tasks, s.ring, policy, first);
  }

  lemma NothingLive(s: State)
    requires Inv(s) && !(exists id :: Live(s.tasks, id))
    ensures Peek(s.config.policy, s.tasks, s.ring).None?
  {
    PeekRefinesSelect(s.config.policy, s.tasks, s.ring);
    SelectTakes(s);
  }

  lemma WrrFindsBacklog(s: State, tenant: TenantId)
    requires RingOk(s.ring) && QueuesOk(s.tasks, s.ring) && tenant in s.ring.queues && s.ring.queues[tenant].ids != []
    ensures WrrPeek(s.tasks, s.ring).Some?
  {
    BacklogIsQueue(s.tasks, s.ring, tenant);
    var p :| 0 <= p < |s.ring.order| && s.ring.order[p] == tenant;
    assert TenantAt(s.ring, Gap(s.ring, p)) == tenant;
  }

  // ---------------------------------------------------------------------------
  // Low-priority running tasks

  lemma {:induction false} LowAppend(s: State, running: seq<TaskId>, id: TaskId)
    ensures LowRunning(s, running + [id]) == LowRunning(s, running) + (if IsLow(s, id) then 1 else 0)
  {
    if running != [] {
      assert (running + [id])[1..] == running[1..] + [id];
      LowAppend(s, running[1..], id);
    }
  }

  lemma {:induction false} LowWithout(s: State, running: seq<TaskId>, id: TaskId)
    requires id in running
    ensures LowRunning(s, Without(running, id)) + (if IsLow(s, id) then 1 else 0) == LowRunning(s, running)
  {
    if running[0] != id {
      LowWithout(s, running[1..], id);
      assert Without(running, id)[1..] == Without(running[1..], id);
    }
  }

  lemma {:induction false} LowSame(s: State, after: State, running: seq<TaskId>)
    requires after.config == s.config
    requires forall id | id in running :: id in s.tasks && id in after.tasks && s.tasks[id].spec == after.tasks[id].spec
    ensures LowRunning(s, running) == LowRunning(after, running)
  {
    if running != [] { LowSame(s, after, running[1..]); }
  }

  /** Low-priority tasks leave the reserved slots free. */
  ghost predicate SlotsKept(s: State) {
    s.config.policy.Priority? ==> LowRunning(s, s.running) <= s.config.maxRunning - s.reservedSlots
  }

  lemma RunningKnown(s: State)
    requires Inv(s)
    ensures forall id | id in s.running :: id in s.tasks && s.tasks[id].state == Running
  {
  }

  lemma {:induction false} LowAtMostAll(s: State, running: seq<TaskId>)
    ensures LowRunning(s, running) <= |running|
  {
    if running != [] { LowAtMostAll(s, running[1..]); }
  }

  /** A dispatched task joins the running list, and only then; the reservation is not touched. */
  lemma DispatchRuns(s: State, chosen: TaskId, fault: DispatchFault)
    ensures var (d, after) := DispatchSelected(s, chosen, fault);
            && after.config == s.config && after.reservedSlots == s.reservedSlots
            && after.running == (if d.Some? then s.running + [chosen] else s.running)
            && after.tasks.Keys == s.tasks.Keys
            && forall id | id in s.tasks :: after.tasks[id].spec == s.tasks[id].spec
  {
  }

  lemma DispatchKeepsSlots(s: State, fault: DispatchFault)
    requires Inv(s) && MayDispatch(s) && SlotsKept(s) && SelectStep(s).0.Some?
    ensures SlotsKept(DispatchSelected(SelectStep(s).1, SelectStep(s).0.value, fault).1)
  {
    var (chosen, selected) := SelectStep(s);
    PeekRefinesSelect(s.config.policy, s.tasks, s.ring);
    SelectTakes(s);
    RunningKnown(s);
    hide Inv, Select, Peek, DispatchSelected, Outcome;
    DispatchRuns(selected, chosen.value, fault);
    var (d, after) := DispatchSelected(selected, chosen.value, fault);
    LowSame(s, after, s.running);
    LowAppend(after, s.running, chosen.value);
    LowAtMostAll(s, s.running);
  }

  /** Apart from a dispatch, the running list stays, or loses the named task. */
  lemma QuietRunning(s: State, e: Event)
    requires InRing(s.ring) && !e.DispatchNextEvent? && !e.DispatchTaskEvent?
    requires e.ReserveSlotsEvent? ==> e.slots <= s.reservedSlots
    ensures var after := Step(s, e);
            && after.reservedSlots <= s.reservedSlots
            && (after.running == s.running || exists id :: id in s.running && after.running == Without(s.running, id))
            && forall id | id in s.running && id in s.tasks && s.tasks[id].state == Running :: id in after.tasks
  {
  }

  lemma DispatchStepKeepsSlots(s: State, e: Event)
    requires Inv(s) && SlotsKept(s) && (e.DispatchNextEvent? || e.DispatchTaskEvent?)
    ensures SlotsKept(Step(s, e))
  {
    var (chosen, selected) := SelectStep(s);
    LowSame(s, selected, s.running);
    hide QueuesOk, RunningOk, TasksOk, LedgerOk, BoundsOk, Select, Peek, ReservationBlocks, DispatchSelected;
    if e.DispatchTaskEvent? { DispatchTaskSelects(s, e.id, e.fault); }
    if MayDispatch(s) && chosen.Some? { DispatchKeepsSlots(s, e.fault); }
  }

  /** Every operation but one that raises the reservation keeps the reserved slots free of low tasks. */
  lemma StepKeepsSlots(s: State, e: Event)
    requires Inv(s) && SlotsKept(s)
    requires e.ReserveSlotsEvent? ==> e.slots <= s.reservedSlots
    ensures SlotsKept(Step(s, e))
  {
    if e.DispatchNextEvent? || e.DispatchTaskEvent? {
      DispatchStepKeepsSlots(s, e);
    } else {
      RunningKnown(s);
      Fresh(s);
      StepRecords(s, e);
      QuietRunning(s, e);
      hide Inv, Dispatched, Step;
      var after := Step(s, e);
      LowSame(s, after, s.running);
      if after.running != s.running {
        var id :| id in s.running && after.running == Without(s.running, id);
        LowWithout(after, s.running, id);
      }
    }
  }

  /** With a reservation that is never raised, low-priority tasks never occupy reserved slots. */
  lemma {:induction false} ReservedSlotsStayFree(limit: u64, config: Config, slots: nat, trace: seq<State>,
    events: seq<Event>, i: nat)
    requires IsRun(trace, events) && trace[0] == Initial(limit, config, slots) && i < |trace|
    requires forall j | 0 <= j < |events| && events[j].ReserveSlotsEvent? :: events[j].slots <= trace[j].reservedSlots
    ensures SlotsKept(trace[i])
  {
    hide Step, Inv;
    if i > 0 {
      ReservedSlotsStayFree(limit, config, slots, trace, events, i - 1);
      RunKeeps(trace, events, i - 1);
      StepKeepsSlots(trace[i - 1], events[i - 1]);
    }
  }

  // ---------------------------------------------------------------------------
  // Retreat

  /** The task about to be dispatched is high, or a slot outside the reservation opens when one low task stops. */
  ghost predicate RetreatHasRoom(s: State)
    requires InRing(s.ring) && Peek(s.config.policy, s.tasks, s.ring).Some?
  {
    || s.reservedSlots == 0
    || !IsLow(s, Peek(s.config.policy, s.tasks, s.ring).value)
    || LowRunning(s, s.running) - 1 < s.config.maxRunning - s.reservedSlots
  }

  lemma CandidatesAreLive(tasks: Tasks, ring: Ring, id: TaskId)
    requires QueuesOk(tasks, ring)
    ensures Candidate(tasks, ring, id) <==> Live(tasks, id)
  {
    if Live(tasks, id) { assert Enqueued(ring, tasks[id].spec.tenant, id); }
  }

  /** A newly queued task of lower priority leaves the best candidate the best. */
  lemma BestSurvives(tasks: Tasks, ring: Ring, id: TaskId, task: Task, after: Ring, best: TaskId)
    requires QueuesOk(tasks, ring) && QueuesOk(tasks[id := task], after)
    requires IsBest(tasks, ring, Priority, best) && best != id && task.spec.priority < tasks[best].spec.priority
    ensures Best(tasks[id := task], after, Priority) == Some(best)
  {
    var changed := tasks[id := task];
    CandidatesAreLive(changed, after, best);
    forall c | Candidate(changed, after, c) ensures c == best || Before(changed, Priority, best, c) {
      CandidatesAreLive(tasks, ring, c);
      CandidatesAreLive(changed, after, c);
    }
    assert IsBest(changed, after, Priority, best);
    hide QueuesOk, IsBest, Best;
    BestIs(changed, after, Priority, best);
  }

  lemma BestSurvivesSuspend(s: State, id: TaskId)
    requires Inv(s) && RetreatRequested(s, id)
    ensures Suspend(s, id, false).0
    ensures var after := Suspend(s, id, false).1;
            InRing(after.ring) && Peek(Priority, after.tasks, after.ring) == Peek(Priority, s.tasks, s.ring)
  {
    hide QueuesOk, RunningOk, LedgerOk, TasksOk, BoundsOk, IsBest, Best, Peek;
    SuspendKeeps(s, id, false);
    PriorityPeekIsBest(s);
    var after := Suspend(s, id, false).1;
    BestSurvives(s.tasks, s.ring, id, after.tasks[id], after.ring, Peek(Priority, s.tasks, s.ring).value);
    PriorityPeekIs(after.tasks, after.ring);
  }

  lemma ChargedSucceeds(s: State, id: TaskId)
    requires Live(s.tasks, id)
    requires s.tasks[id].reservation == Some(if s.tasks[id].sequence == 0 then Attached(s.tasks[id].spec.memory)
             else Detached)
    requires s.tasks[id].sequence == 0 ==> s.tasks[id].spec.memory <= s.ledger.reserved
    ensures DispatchSelected(s, id, NoDispatchFault).0 == Some(Snapshot(id, s.tasks[id].spec, Running, s.nextSequence))
  {
  }

  /** Without an allocation failure a permitted dispatch of a selected task succeeds. */
  lemma DispatchSucceeds(s: State)
    requires Inv(s) && MayDispatch(s) && Peek(s.config.policy, s.tasks, s.ring).Some?
    ensures var d := DispatchNext(s, NoDispatchFault).0;
            var id := Peek(s.config.policy, s.tasks, s.ring).value;
            d.Some? && d.value.id == id && id in s.tasks && d.value.spec == s.tasks[id].spec
  {
    PeekRefinesSelect(s.config.policy, s.tasks, s.ring);
    SelectTakes(s);
    hide QueuesOk, RunningOk, LedgerOk, Select, Peek, RingOk, Took, TookNone, ReservationBlocks, DispatchSelected;
    var (id, selected) := SelectStep(s);
    Known(s, id.value);
    ChargedSucceeds(selected, id.value);
  }

  /** A task asked to retreat can be suspended, and the next dispatch then returns a task of strictly higher
      priority exactly when the reservation leaves room for it. */
  lemma RetreatProgress(s: State, id: TaskId)
    requires Inv(s) && RetreatRequested(s, id)
    ensures Suspend(s, id, false).0 && InRing(Suspend(s, id, false).1.ring)
    ensures var d := DispatchNext(Suspend(s, id, false).1, NoDispatchFault).0;
            d.Some? && d.value.spec.priority > s.tasks[id].spec.priority <==> RetreatHasRoom(s)
  {
    hide RingOk, QueuesOk, RunningOk, LedgerOk, TasksOk, BoundsOk, Peek, DispatchNext, MayDispatch, RetreatHasRoom;
    BestSurvivesSuspend(s, id);
    SuspendKeeps(s, id, false);
    PriorityPeekIsBest(s);
    var after := Suspend(s, id, false).1;
    RoomIsPermission(s, id, Peek(Priority, s.tasks, s.ring).value);
    if MayDispatch(after) { DispatchSucceeds(after); } else { NoDispatch(after); }
  }

  lemma NoDispatch(s: State)
    requires InRing(s.ring) && !MayDispatch(s)
    ensures DispatchNext(s, NoDispatchFault).0.None?
  {
  }

  /** After the suspension dispatch is permitted exactly when there was room. */
  lemma RoomIsPermission(s: State, id: TaskId, best: TaskId)
    requires Inv(s) && RetreatRequested(s, id) && Suspend(s, id, false).0 && InRing(Suspend(s, id, false).1.ring)
    requires Peek(Priority, s.tasks, s.ring) == Some(best)
             == Peek(Priority, Suspend(s, id, false).1.tasks, Suspend(s, id, false).1.ring)
    requires Live(s.tasks, best)
    ensures MayDispatch(Suspend(s, id, false).1) <==> RetreatHasRoom(s)
  {
    SuspendedRunning(s, id);
    hide RingOk, QueuesOk, RunningOk, LedgerOk, TasksOk, Peek, Best, LowRunning;
  }

  lemma SuspendedRunning(s: State, id: TaskId)
    requires Inv(s) && Suspend(s, id, false).0
    ensures var after := Suspend(s, id, false).1;
            && |after.running| == |s.running| - 1
            && LowRunning(after, after.running) + (if IsLow(s, id) then 1 else 0) == LowRunning(s, s.running)
  {
    var after := Suspend(s, id, false).1;
    WithoutIs(s.running, id);
    LowSame(s, after, s.running);
    LowWithout(after, s.running, id);
  }

  /** With the reserved slots free of low tasks there is always room, so a retreat always makes progress. */
  lemma RetreatAlwaysHelps(s: State, id: TaskId)
    requires Inv(s) && RetreatRequested(s, id) && SlotsKept(s)
    ensures RetreatHasRoom(s)
  {
    var best := Peek(Priority, s.tasks, s.ring).value;
    Known(s, id);
    if IsLow(s, best) {
      assert IsLow(s, id);
    }
  }

  const older := TaskSpec("a", 1, 1, 1, 0)
  const newer := TaskSpec("a", 1, 1, 1, 1)
  const stallConfig := Config(Priority, 1, 0, 2)

  /** One low-priority task runs, a higher one below the threshold waits, and the only slot becomes reserved. */
  function StallState(i: nat): State
    requires i <= 4
  {
    var queue := (ids: seq<TaskId>) => Ring(map["a" := TenantQueue(1, ids, 0)], ["a"], 0, 0);
    var ran := map[1 := Task(older, Running, Some(Detached), 1)];
    var both := ran[2 := Task(newer, Queued, Some(Attached(1)), 0)];
    if i == 0 then State(stallConfig, 0, Ledger(10, 0, 0), 1, 1, map[], Ring(map[], [], 0, 0), [], 0)
    else if i == 1 then
      State(stallConfig, 0, Ledger(10, 1, 0), 2, 1, map[1 := Task(older, Queued, Some(Attached(1)), 0)], queue([1]), [],
        1)
    else if i == 2 then State(stallConfig, 0, Ledger(10, 0, 1), 2, 2, ran, queue([]), [1], 0)
    else if i == 3 then State(stallConfig, 0, Ledger(10, 1, 1), 3, 2, both, queue([2]), [1], 1)
    else State(stallConfig, 1, Ledger(10, 1, 1), 3, 2, both, queue([2]), [1], 1)
  }

  const stallEvents := [SubmitEvent(older, NoSubmitFault), DispatchNextEvent(NoDispatchFault),
                        SubmitEvent(newer, NoSubmitFault), ReserveSlotsEvent(1)]

  lemma StallDispatch()
    ensures Step(StallState(1), DispatchNextEvent(NoDispatchFault)) == StallState(2)
  {
    var s := StallState(1);
    OnlyCandidate(s.tasks, s.ring, "a", 1);
    assert Without([1], 1) == [];
    assert Remove(s.ring, "a", 1).queues == StallState(2).ring.queues;
    assert !ReservationBlocks(s);
    hide Best, LowRunning, WrrScan, DrrScan;
  }

  lemma StallSteps(i: nat)
    requires i < 4
    ensures InRing(StallState(i).ring) && Step(StallState(i), stallEvents[i]) == StallState(i + 1)
  {
    hide Best, LowRunning;
    if i == 0 {
      assert [] + [1] == [1];
    } else if i == 1 {
      StallDispatch();
    } else if i == 2 {
      assert [] + [2] == [2];
    }
  }

  /** Raising the reservation under running low-priority work can leave no room: a run in which a task is
      asked to retreat and the dispatch after its suspension returns nothing. */
  lemma RetreatCanStall()
    ensures IsRun([StallState(0), StallState(1), StallState(2), StallState(3), StallState(4)], stallEvents)
    ensures StallState(0) == Initial(10, stallConfig, 0)
    ensures RetreatRequested(StallState(4), 1) && !RetreatHasRoom(StallState(4))
    ensures DispatchNext(Suspend(StallState(4), 1, false).1, NoDispatchFault).0.None?
  {
    hide Step, Best, Inv, LowRunning;
    InitialInv(10, stallConfig, 0);
    StallBlocked();
    StallSteps(0);
    StallSteps(1);
    StallSteps(2);
    StallSteps(3);
  }

  lemma StallBlocked()
    ensures InRing(StallState(4).ring) && RetreatRequested(StallState(4), 1) && !RetreatHasRoom(StallState(4))
  {
    var s := StallState(4);
    OnlyCandidate(s.tasks, s.ring, "a", 2);
    assert LowRunning(s, [1]) == 1;
    hide Best;
  }

  lemma OnlyCandidate(tasks: Tasks, ring: Ring, tenant: TenantId, id: TaskId)
    requires tenant in ring.queues && ring.queues[tenant].ids == [id] && Live(tasks, id)
    requires forall t | t in ring.queues && t != tenant :: ring.queues[t].ids == []
    ensures Best(tasks, ring, Priority) == Some(id)
  {
    assert IsBest(tasks, ring, Priority, id);
    BestIs(tasks, ring, Priority, id);
  }
}
