/** The scheduler as the program runs it: mutable maps, queues and counters, updated step by step. Every
    method is tied to the function of SchedulerSteps that it implements. */
module Scheduler {
  import opened Common
  import opened SchedulerModel
  import opened SchedulerSteps
  import opened SchedulerPeek
  import opened SchedulerInvariant
  import opened SchedulerRuns
  import opened SchedulerPriority

  /** Reserved and committed bytes under one limit. */
  class QuotaLedger {
    const limit: u64
    var reserved: nat
    var committed: nat

    function Value(): Ledger
      reads this
    {
      Ledger(limit, reserved, committed)
    }

    constructor (limit: u64)
      ensures Value() == Ledger(limit, 0, 0)
    {
      this.limit := limit;
      reserved, committed := 0, 0;
    }

    method TryReserve(bytes: u64) returns (ok: bool)
      modifies this
      ensures (ok, Value()) == Reserve(old(Value()), bytes)
      ensures ok && old(reserved + committed) <= limit ==> reserved + committed <= limit
    {
      var used := if reserved > U64_MAX - committed then U64_MAX else reserved + committed;
      var available := if used >= limit then 0 else limit - used;
      if bytes > available {
        return false;
      }
      reserved := reserved + bytes;
      return true;
    }

    method ReleaseBytes(bytes: u64) returns (ok: bool)
      modifies this
      ensures (ok, Value()) == Release(old(Value()), bytes)
    {
      if bytes > committed {
        return false;
      }
      committed := committed - bytes;
      return true;
    }

    /** Committing detaches the handle; a handle that cannot be committed stays as it was. */
    method CommitHandle(handle: Reservation) returns (ok: bool, after: Reservation)
      modifies this
      ensures (ok, Value(), after) == Commit(old(Value()), handle)
    {
      if handle.Detached? || handle.bytes > reserved {
        return false, handle;
      }
      reserved := reserved - handle.bytes;
      committed := committed + handle.bytes;
      return true, Detached;
    }

    method CancelHandle(handle: Reservation) returns (after: Reservation)
      modifies this
      ensures (Value(), after) == Cancel(old(Value()), handle)
    {
      if handle.Detached? || handle.bytes > reserved {
        return handle;
      }
      reserved := reserved - handle.bytes;
      return Detached;
    }
  }

  class Scheduler {
    const config: Config
    const ledger: QuotaLedger
    var reservedSlots: nat
    var nextTask: u64
    var nextSequence: u64
    var tasks: Tasks
    var queues: map<TenantId, TenantQueue>
    var order: seq<TenantId>
    var cursor: nat
    var budget: u32
    var running: seq<TaskId>
    var queued: int

    function TheRing(): Ring
      reads this
    {
      Ring(queues, order, cursor, budget)
    }

    function Value(): State
      reads this, ledger
    {
      State(config, reservedSlots, ledger.Value(), nextTask, nextSequence, tasks, TheRing(), running, queued)
    }

    ghost predicate Valid()
      reads this, ledger
    {
      Inv(Value())
    }

    constructor (limit: u64, config: Config, slots: nat)
      ensures Value() == Initial(limit, config, slots)
      ensures Valid() && fresh(ledger)
    {
      var running := if config.maxRunning == 0 then 1 else config.maxRunning;
      this.config := config.(maxRunning := running);
      this.ledger := new QuotaLedger(limit);
      this.reservedSlots := if slots < running then slots else running;
      this.nextTask, this.nextSequence := 1, 1;
      this.tasks, this.queues, this.order := map[], map[], [];
      this.cursor, this.budget := 0, 0;
      this.running, this.queued := [], 0;
      new;
      InitialInv(limit, config, slots);
    }

    // -------------------------------------------------------------------------
    // Submission

    /** A submission that fails at any of its allocations undoes what it had already done. */
    method SubmitTask(spec: TaskSpec, fault: SubmitFault) returns (r: SubmitResult)
      requires Valid()
      modifies this, ledger
      ensures Valid()
      ensures (r, Value()) == Submit(old(Value()), spec, fault)
      ensures !r.status.Accepted? ==> Value() == old(Value())
    {
      ghost var before := Value();
      hide Inv, Enqueue;
      KnownFresh(before);
      SubmitKeeps(before, spec, fault);
      if spec.tenant == "" || spec.memory == 0 || spec.weight == 0 || spec.work == 0 {
        return SubmitResult(InvalidTask, 0);
      }
      if nextTask == U64_MAX {
        return SubmitResult(InternalError, 0);
      }
      if config.maxQueued != 0 && queued >= config.maxQueued {
        return SubmitResult(QueueFull, 0);
      }
      if spec.tenant in queues && queues[spec.tenant].weight != spec.weight {
        return SubmitResult(TenantWeightMismatch, 0);
      }
      if fault.ReserveThrows? {
        return SubmitResult(InternalError, 0);
      }
      var reserved := ledger.TryReserve(spec.memory);
      if !reserved {
        return SubmitResult(QuotaExceeded, 0);
      }
      var recorded := RecordTask(spec, fault);
      if !recorded {
        var handle := ledger.CancelHandle(Attached(spec.memory));
        return SubmitResult(InternalError, 0);
      }
      return SubmitResult(Accepted, nextTask - 1);
    }

    /** The tenant, then the record, then the queue entry; a throw at any of them rolls back the earlier ones. */
    method RecordTask(spec: TaskSpec, fault: SubmitFault) returns (ok: bool)
      requires spec.weight != 0 && nextTask < U64_MAX && nextTask !in tasks
      modifies this`tasks, this`queues, this`order, this`nextTask, this`queued
      ensures ok <==> !((spec.tenant !in old(queues) && (fault.TenantThrows? || fault.OrderThrows?))
                        || fault.RecordThrows? || fault.EnqueueThrows?)
      ensures !ok ==>
                tasks == old(tasks) && TheRing() == old(TheRing()) && nextTask == old(nextTask) && queued == old(queued)
      ensures ok ==>
                && tasks == old(tasks)[old(nextTask) := Task(spec, Queued, Some(Attached(spec.memory)), 0)]
                && TheRing() == Enqueue(old(TheRing()), spec.tenant, spec.weight, old(nextTask))
                && nextTask == old(nextTask) + 1 && queued == old(queued) + 1
    {
      var inserted := false;
      if spec.tenant !in queues {
        if fault.TenantThrows? {
          queues := queues - {spec.tenant};
          return false;
        }
        queues := queues[spec.tenant := TenantQueue(spec.weight, [], 0)];
        if fault.OrderThrows? {
          queues := queues - {spec.tenant};
          return false;
        }
        order := order + [spec.tenant];
        inserted := true;
      }
      var id := nextTask;
      if !fault.RecordThrows? {
        tasks := tasks[id := Task(spec, Queued, Some(Attached(spec.memory)), 0)];
      }
      if fault.RecordThrows? || fault.EnqueueThrows? {
        tasks := tasks - {id};
        if inserted {
          queues := queues - {spec.tenant};
          order := order[..|order| - 1];
        }
        return false;
      }
      queues := queues[spec.tenant := queues[spec.tenant].(ids := queues[spec.tenant].ids + [id])];
      assert [] + [id] == [id];
      assert queues == Enqueue(old(TheRing()), spec.tenant, spec.weight, id).queues;
      nextTask := nextTask + 1;
      queued := queued + 1;
      return true;
    }

    // -------------------------------------------------------------------------
    // Peeking

    /** Visits the queues in whatever order the map yields them. */
    method PeekBest(policy: Policy) returns (best: Option<TaskId>)
      ensures best == Best(tasks, TheRing(), policy)
    {
      best := None;
      var tenants := queues.Keys;
      while tenants != {}
        invariant tenants <= queues.Keys
        invariant best.Some? ==> Candidate(tasks, TheRing(), best.value)
        invariant forall t, id | t in queues && t !in tenants && id in queues[t].ids && Live(tasks, id) ::
                    best.Some? && (id == best.value || Before(tasks, policy, best.value, id))
        decreases |tenants|
      {
        var tenant :| tenant in tenants;
        tenants := tenants - {tenant};
        best := PeekQueue(policy, tenant, best);
      }
      ghost var ring := TheRing();
      if best.Some? {
        assert IsBest(tasks, ring, policy, best.value);
        BestIs(tasks, ring, policy, best.value);
      } else {
        assert forall id :: !Candidate(tasks, ring, id);
      }
    }

    method PeekQueue(policy: Policy, tenant: TenantId, sofar: Option<TaskId>) returns (best: Option<TaskId>)
      requires tenant in queues && (sofar.Some? ==> Candidate(tasks, TheRing(), sofar.value))
      ensures best.Some? ==> Candidate(tasks, TheRing(), best.value)
      ensures sofar.Some? ==> best.Some? && (best == sofar || Before(tasks, policy, best.value, sofar.value))
      ensures forall id | id in queues[tenant].ids && Live(tasks, id) ::
                best.Some? && (id == best.value || Before(tasks, policy, best.value, id))
    {
      best := sofar;
      var ids := queues[tenant].ids;
      for i := 0 to |ids|
        invariant best.Some? ==> Candidate(tasks, TheRing(), best.value)
        invariant sofar.Some? ==> best.Some? && (best == sofar || Before(tasks, policy, best.value, sofar.value))
        invariant forall j | 0 <= j < i && Live(tasks, ids[j]) ::
                    best.Some? && (ids[j] == best.value || Before(tasks, policy, best.value, ids[j]))
      {
        var id := ids[i];
        if Live(tasks, id) && (best.None? || Before(tasks, policy, id, best.value)) {
          best := Some(id);
        }
      }
    }

    method PeekWrr() returns (next: Option<TaskId>)
      requires InRing(TheRing())
      ensures next == WrrPeek(tasks, TheRing())
    {
      ghost var ring := TheRing();
      var at := cursor;
      for attempt := 0 to |order|
        invariant attempt < |order| ==> at == Wrap(cursor + attempt, |order|)
        invariant forall j | 0 <= j < attempt :: Backlog(tasks, ring, TenantAt(ring, j)) == []
      {
        var tenant := order[at];
        assert tenant == TenantAt(ring, attempt);
        if tenant in queues {
          var found := FirstLive(queues[tenant].ids);
          if found.Some? {
            assert NextBacklogged(tasks, ring, 0) == attempt;
            return found;
          }
        }
        NextWraps(at, |order|);
        at := (at + 1) % |order|;
      }
      return None;
    }

    method PeekDrr() returns (next: Option<TaskId>)
      requires InRing(TheRing())
      ensures next == DrrPeek(tasks, TheRing())
    {
      ghost var ring := TheRing();
      var at := cursor;
      for attempt := 0 to |order|
        invariant attempt < |order| ==> at == Wrap(cursor + attempt, |order|)
        invariant forall j | 0 <= j < attempt :: !Affordable(tasks, ring, TenantAt(ring, j))
      {
        var tenant := order[at];
        assert tenant == TenantAt(ring, attempt);
        if tenant in queues {
          var found := FirstLive(queues[tenant].ids);
          if found.Some? && queues[tenant].deficit >= tasks[found.value].spec.work {
            assert NextAffordable(tasks, ring, 0) == attempt;
            return found;
          }
        }
        NextWraps(at, |order|);
        at := (at + 1) % |order|;
      }
      return None;
    }

    /** The first entry whose task is still queued. */
    method FirstLive(ids: seq<TaskId>) returns (found: Option<TaskId>)
      ensures var live := DropStale(tasks, ids);
              found == if live == [] then None else Some(live[0])
    {
      for i := 0 to |ids|
        invariant DropStale(tasks, ids) == DropStale(tasks, ids[i..])
      {
        if Live(tasks, ids[i]) {
          return Some(ids[i]);
        }
        assert ids[i..][1..] == ids[i + 1..];
      }
      return None;
    }

    method PeekNext() returns (next: Option<TaskId>)
      requires InRing(TheRing())
      ensures next == Peek(config.policy, tasks, TheRing())
    {
      match config.policy
      case Fifo => next := PeekBest(Fifo);
      case Priority => next := PeekBest(Priority);
      case WeightedRoundRobin => next := PeekWrr();
      case DeficitRoundRobin => next := PeekDrr();
    }

    // -------------------------------------------------------------------------
    // Selecting

    method AdvanceTenant()
      modifies this`budget, this`cursor
      ensures TheRing() == Advance(old(TheRing()))
    {
      budget := 0;
      if order == [] {
        cursor := 0;
      } else {
        cursor := (cursor + 1) % |order|;
      }
    }

    method RemoveFromQueue(tenant: TenantId, id: TaskId)
      modifies this`queues
      ensures TheRing() == Remove(old(TheRing()), tenant, id)
    {
      if tenant in queues {
        var ids := EraseFirst(queues[tenant].ids, id);
        queues := queues[tenant := queues[tenant].(ids := ids)];
      }
    }

    static method EraseFirst(ids: seq<TaskId>, id: TaskId) returns (rest: seq<TaskId>)
      ensures rest == Without(ids, id)
    {
      rest := ids;
      for i := 0 to |ids|
        invariant Without(ids, id) == ids[..i] + Without(ids[i..], id)
        invariant rest == ids
      {
        if ids[i] == id {
          assert ids[i..][1..] == ids[i + 1..];
          return ids[..i] + ids[i + 1..];
        }
        assert ids[i..][1..] == ids[i + 1..] && ids[..i] + [ids[i]] == ids[..i + 1];
      }
      assert ids[..|ids|] == ids;
    }

    /** Selects by priority or age. */
    method SelectBest(policy: Policy) returns (chosen: Option<TaskId>)
      modifies this`queues, this`queued
      ensures (chosen, TheRing()) == TakeBest(tasks, old(TheRing()), policy)
      ensures queued == old(queued) - (if chosen.Some? then 1 else 0)
    {
      chosen := PeekBest(policy);
      if chosen.Some? {
        assert IsBest(tasks, TheRing(), policy, chosen.value);
        RemoveFromQueue(tasks[chosen.value].spec.tenant, chosen.value);
        queued := queued - 1;
      }
    }

    /** Drops stale entries at the front of the queue of `tenant`. */
    method DropStaleEntries(tenant: TenantId)
      requires tenant in queues
      modifies this`queues
      ensures TheRing() == SetIds(old(TheRing()), tenant, Backlog(tasks, old(TheRing()), tenant))
    {
      var ids := queues[tenant].ids;
      while ids != [] && !Live(tasks, ids[0])
        invariant DropStale(tasks, ids) == DropStale(tasks, queues[tenant].ids)
        decreases |ids|
      {
        ids := ids[1..];
      }
      queues := queues[tenant := queues[tenant].(ids := ids)];
    }

    /** One visit: takes the tenant's first live task, if any, and spends its budget. */
    method VisitWrr(tenant: TenantId) returns (served: Option<TaskId>)
      modifies this`queues, this`cursor, this`budget
      ensures var before := old(TheRing());
              var live := Backlog(tasks, before, tenant);
              if live == []
              then served == None && TheRing() == Advance(WrrSkip(before, tenant))
              else served == Some(live[0]) && TheRing() == WrrServe(before, tenant, live[1..])
    {
      ghost var before := TheRing();
      if tenant in queues {
        DropStaleEntries(tenant);
        var ids := queues[tenant].ids;
        if ids != [] {
          budget := if budget == 0 then queues[tenant].weight - 1 else budget - 1;
          queues := queues[tenant := queues[tenant].(ids := ids[1..])];
          assert queues == SetIds(before, tenant, ids[1..]).queues;
          if budget == 0 || queues[tenant].ids == [] {
            AdvanceTenant();
          }
          return Some(ids[0]);
        }
      }
      AdvanceTenant();
      return None;
    }

    method SelectWrr() returns (chosen: Option<TaskId>)
      modifies this`queues, this`cursor, this`budget, this`queued
      ensures (chosen, TheRing()) == WrrScan(tasks, old(TheRing()), |order|)
      ensures queued == old(queued) - (if chosen.Some? then 1 else 0)
    {
      chosen := None;
      var attempt := 0;
      while attempt < |order|
        invariant attempt <= |order| && queued == old(queued) && chosen.None?
        invariant WrrScan(tasks, old(TheRing()), |order|) == WrrScan(tasks, TheRing(), |order| - attempt)
      {
        if cursor >= |order| {
          cursor, budget := 0, 0;
        }
        chosen := VisitWrr(order[cursor]);
        if chosen.Some? {
          queued := queued - 1;
          return;
        }
        attempt := attempt + 1;
      }
    }

    /** One visit: serves the tenant's first live task if its deficit covers it, else grants a quantum. */
    method VisitDrr(tenant: TenantId) returns (served: Option<TaskId>)
      modifies this`queues
      ensures var before := old(TheRing());
              if Affordable(tasks, before, tenant)
              then
                var live := Backlog(tasks, before, tenant);
                served == Some(live[0]) && TheRing() == DrrServe(tasks, before, tenant, live)
              else served == None && TheRing() == DrrVisit(tasks, before, tenant)
    {
      ghost var before := TheRing();
      if tenant in queues {
        DropStaleEntries(tenant);
        var q := queues[tenant];
        if q.ids != [] {
          var cost := tasks[q.ids[0]].spec.work;
          if q.deficit < cost {
            queues := queues[tenant := q.(deficit := Accrue(q))];
            assert queues == DrrVisit(tasks, before, tenant).queues;
            return None;
          }
          queues := queues[tenant := q.(ids := q.ids[1..], deficit := q.deficit - cost)];
          assert queues == DrrServe(tasks, before, tenant, q.ids).queues;
          return Some(q.ids[0]);
        }
      }
      return None;
    }

    method SelectDrr() returns (chosen: Option<TaskId>)
      modifies this`queues, this`cursor, this`budget, this`queued
      ensures (chosen, TheRing()) == DrrScan(tasks, old(TheRing()), |order|)
      ensures queued == old(queued) - (if chosen.Some? then 1 else 0)
    {
      chosen := None;
      var attempt := 0;
      while attempt < |order|
        invariant attempt <= |order| && queued == old(queued) && chosen.None?
        invariant DrrScan(tasks, old(TheRing()), |order|) == DrrScan(tasks, TheRing(), |order| - attempt)
      {
        if cursor >= |order| {
          cursor := 0;
        }
        chosen := VisitDrr(order[cursor]);
        AdvanceTenant();
        if chosen.Some? {
          queued := queued - 1;
          return;
        }
        attempt := attempt + 1;
      }
    }

    method SelectNext() returns (chosen: Option<TaskId>)
      modifies this`queues, this`cursor, this`budget, this`queued
      ensures (chosen, Value()) == SelectStep(old(Value()))
    {
      match config.policy
      case Fifo => chosen := SelectBest(Fifo);
      case Priority => chosen := SelectBest(Priority);
      case WeightedRoundRobin => chosen := SelectWrr();
      case DeficitRoundRobin => chosen := SelectDrr();
    }

    // -------------------------------------------------------------------------
    // Dispatching

    /** Runs a selected task, or gives its quota back and ends it. */
    method DispatchSelectedTask(id: TaskId, fault: DispatchFault) returns (r: Option<Snapshot>)
      modifies this`tasks, this`running, this`nextSequence, ledger
      ensures (r, Value()) == DispatchSelected(old(Value()), id, fault)
    {
      if id !in tasks || tasks[id].state != Queued {
        return None;
      }
      if tasks[id].reservation.None? {
        tasks := tasks[id := tasks[id].(state := TaskState.Failed)];
        return None;
      }
      var task := tasks[id];
      var continuation := task.sequence != 0;
      if fault.SnapshotThrows? || fault.RunningThrows? {
        if continuation {
          var released := ledger.ReleaseBytes(task.spec.memory);
          tasks := tasks[id := task.(state := TaskState.Failed)];
        } else {
          var handle := ledger.CancelHandle(task.reservation.value);
          tasks := tasks[id := task.(state := TaskState.Failed, reservation := Some(handle))];
        }
        return None;
      }
      running := running + [id];
      var committed, handle := continuation, task.reservation.value;
      if !continuation && !fault.CommitThrows? {
        committed, handle := ledger.CommitHandle(handle);
      }
      if !committed {
        handle := ledger.CancelHandle(handle);
        running := running[..|running| - 1];
        tasks := tasks[id := task.(state := TaskState.Failed, reservation := Some(handle))];
        return None;
      }
      tasks := tasks[id := Task(task.spec, TaskState.Running, Some(handle), nextSequence)];
      r := Some(Snapshot(id, task.spec, TaskState.Running, nextSequence));
      if nextSequence != U64_MAX {
        nextSequence := nextSequence + 1;
      }
    }

    method CountLow() returns (low: nat)
      ensures low == LowRunning(Value(), running)
    {
      low := 0;
      var i := 0;
      while i < |running|
        invariant 0 <= i <= |running|
        invariant low + LowRunning(Value(), running[i..]) == LowRunning(Value(), running)
      {
        if running[i] in tasks && tasks[running[i]].spec.priority < config.threshold {
          low := low + 1;
        }
        assert running[i..][1..] == running[i + 1..];
        i := i + 1;
      }
    }

    method ReservationBlocksLow() returns (blocks: bool)
      requires InRing(TheRing())
      ensures blocks == ReservationBlocks(Value())
    {
      if !config.policy.Priority? || reservedSlots == 0 {
        return false;
      }
      var low := CountLow();
      if low < config.maxRunning - reservedSlots {
        return false;
      }
      var next := PeekNext();
      if next.None? || next.value !in tasks || tasks[next.value].state != Queued {
        return false;
      }
      return tasks[next.value].spec.priority < config.threshold;
    }

    method DispatchNextTask(fault: DispatchFault) returns (r: Option<Snapshot>)
      requires Valid()
      modifies this, ledger
      ensures Valid()
      ensures (r, Value()) == DispatchNext(old(Value()), fault)
    {
      ghost var before := Value();
      hide Inv, ReservationBlocks, DispatchSelected, Select, LowRunning;
      KnownRing(before);
      StepKeeps(before, DispatchNextEvent(fault));
      if |running| >= config.maxRunning {
        return None;
      }
      var blocked := ReservationBlocksLow();
      if blocked {
        return None;
      }
      var chosen := SelectNext();
      if chosen.None? {
        return None;
      }
      r := DispatchSelectedTask(chosen.value, fault);
    }

    method DispatchTaskById(id: TaskId, fault: DispatchFault) returns (r: Option<Snapshot>)
      requires Valid()
      modifies this, ledger
      ensures Valid()
      ensures (r, Value()) == DispatchTask(old(Value()), id, fault)
    {
      ghost var before := Value();
      hide Inv, ReservationBlocks, DispatchSelected, Select, Peek, LowRunning;
      KnownRing(before);
      StepKeeps(before, DispatchTaskEvent(id, fault));
      if id == 0 || |running| >= config.maxRunning {
        return None;
      }
      var blocked := ReservationBlocksLow();
      if blocked || id !in tasks || tasks[id].state != Queued {
        return None;
      }
      var next := PeekNext();
      if next.None? {
        if config.policy.DeficitRoundRobin? {
          var accrued := SelectNext();
        }
        return None;
      }
      if next.value != id {
        return None;
      }
      var chosen := SelectNext();
      if chosen != Some(id) {
        return None;
      }
      r := DispatchSelectedTask(id, fault);
    }

    // -------------------------------------------------------------------------
    // Suspension and termination

    method SuspendTask(id: TaskId, throws: bool) returns (ok: bool)
      requires Valid()
      modifies this
      ensures Valid()
      ensures (ok, Value()) == Suspend(old(Value()), id, throws)
      ensures ok <==>
                id in old(tasks) && old(tasks)[id].state == TaskState.Running && old(tasks)[id].sequence != U64_MAX
                && !throws
    {
      hide Inv, Without;
      SuspendKeeps(Value(), id, throws);
      if id !in tasks || tasks[id].state != TaskState.Running || tasks[id].sequence == U64_MAX || id !in running {
        return false;
      }
      var tenant := tasks[id].spec.tenant;
      if tenant !in queues || throws {
        return false;
      }
      queues := queues[tenant := queues[tenant].(ids := [id] + queues[tenant].ids)];
      tasks := tasks[id := tasks[id].(state := TaskState.Queued)];
      running := EraseFirst(running, id);
      queued := queued + 1;
      return true;
    }

    method IsRetreatRequested(id: TaskId) returns (requested: bool)
      requires Valid()
      ensures requested == RetreatRequested(Value(), id)
    {
      hide Inv;
      KnownRing(Value());
      if !config.policy.Priority? || id !in tasks || tasks[id].sequence == U64_MAX
        || tasks[id].state != TaskState.Running {
        return false;
      }
      var next := PeekBest(Priority);
      return next.Some? && next.value in tasks && tasks[next.value].spec.priority > tasks[id].spec.priority;
    }

    method Finish(id: TaskId, terminal: TaskState) returns (ok: bool)
      requires Valid() && Terminal(terminal)
      modifies this, ledger
      ensures Valid()
      ensures (ok, Value()) == FinishRunning(old(Value()), id, terminal)
      ensures ok <==> id in old(tasks) && old(tasks)[id].state == TaskState.Running
    {
      hide Inv;
      FinishKeeps(Value(), id, terminal);
      if id !in tasks || tasks[id].state != TaskState.Running || id !in running {
        return false;
      }
      var released := ledger.ReleaseBytes(tasks[id].spec.memory);
      if !released {
        return false;
      }
      tasks := tasks[id := tasks[id].(state := terminal)];
      running := EraseFirst(running, id);
      return true;
    }

    method CancelQueuedTask(id: TaskId) returns (ok: bool)
      requires Valid()
      modifies this, ledger
      ensures Valid()
      ensures (ok, Value()) == CancelQueued(old(Value()), id)
      ensures ok <==> Live(old(tasks), id)
    {
      hide Inv, Remove;
      CancelQueuedKeeps(Value(), id);
      if id !in tasks || tasks[id].state != TaskState.Queued || tasks[id].reservation.None? {
        return false;
      }
      var task := tasks[id];
      var handle := task.reservation.value;
      if task.sequence != 0 {
        var released := ledger.ReleaseBytes(task.spec.memory);
        if !released {
          return false;
        }
      } else {
        if handle.Detached? {
          return false;
        }
        handle := ledger.CancelHandle(handle);
        if handle.Attached? {
          return false;
        }
      }
      tasks := tasks[id := task.(state := TaskState.Cancelled, reservation := Some(handle))];
      queued := queued - 1;
      RemoveFromQueue(task.spec.tenant, id);
      return true;
    }

    method CancelById(id: TaskId) returns (ok: bool)
      requires Valid()
      modifies this, ledger
      ensures Valid()
      ensures (ok, Value()) == CancelTask(old(Value()), id)
    {
      if id in tasks && tasks[id].state == TaskState.Queued {
        ok := CancelQueuedTask(id);
      } else {
        ok := Finish(id, TaskState.Cancelled);
      }
    }

    method ForgetTask(id: TaskId) returns (ok: bool)
      requires Valid()
      modifies this, ledger
      ensures Valid()
      ensures (ok, Value()) == Forget(old(Value()), id)
    {
      hide Inv;
      ForgetKeeps(Value(), id);
      if id !in tasks || tasks[id].state == TaskState.Queued || tasks[id].state == TaskState.Running {
        return false;
      }
      if tasks[id].reservation.Some? {
        var handle := ledger.CancelHandle(tasks[id].reservation.value);
      }
      tasks := tasks - {id};
      return true;
    }

    method ReserveSlots(slots: nat) returns (ok: bool)
      requires Valid()
      modifies this`reservedSlots
      ensures Valid()
      ensures (ok, Value()) == SetReservedSlots(old(Value()), slots)
    {
      hide Inv;
      SlotsKeep(Value(), slots);
      if !config.policy.Priority? {
        return false;
      }
      reservedSlots := if slots < config.maxRunning then slots else config.maxRunning;
      return true;
    }
  }
}
