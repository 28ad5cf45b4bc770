/** What every operation keeps: the queues hold exactly the queued tasks, the running list exactly the running
    ones, and the quota ledger equals a sum over task states. */
module SchedulerInvariant {
  import opened Common
  import opened Sums
  import opened SchedulerModel
  import opened SchedulerSteps

  // ---------------------------------------------------------------------------
  // The ring of tenants and their queues

  ghost predicate RingOk(ring: Ring) {
    && InRing(ring)
    && Distinct(ring.order)
    && (forall t :: t in ring.queues <==> t in ring.order)
    && (if ring.order == [] then ring.budget == 0 else ring.budget <= ring.queues[ring.order[ring.cursor]].weight)
  }

  /** Every entry is a queued task of that tenant, once, and every queued task is an entry. */
  ghost predicate QueuesOk(tasks: Tasks, ring: Ring) {
    && (forall t, i | t in ring.queues && 0 <= i < |ring.queues[t].ids| ::
          Live(tasks, ring.queues[t].ids[i]) && tasks[ring.queues[t].ids[i]].spec.tenant == t)
    && (forall t | t in ring.queues :: Distinct(ring.queues[t].ids))
    && (forall id | Live(tasks, id) :: Enqueued(ring, tasks[id].spec.tenant, id))
  }

  ghost predicate Enqueued(ring: Ring, tenant: TenantId, id: TaskId) {
    tenant in ring.queues && id in ring.queues[tenant].ids
  }

  ghost predicate SameTenants(a: Ring, b: Ring) {
    && a.order == b.order && a.queues.Keys == b.queues.Keys
    && forall t | t in a.queues :: a.queues[t].weight == b.queues[t].weight
  }

  /** b is a after `id` left the queue of `tenant`; no other queue entry moved. */
  ghost predicate Took(a: Ring, b: Ring, tenant: TenantId, id: TaskId) {
    && SameTenants(a, b)
    && forall t | t in a.queues ::
         b.queues[t].ids == if t == tenant then Without(a.queues[t].ids, id) else a.queues[t].ids
  }

  ghost predicate TookNone(a: Ring, b: Ring) {
    SameTenants(a, b) && forall t | t in a.queues :: b.queues[t].ids == a.queues[t].ids
  }

  lemma {:induction false} WithoutIs(ids: seq<TaskId>, id: TaskId)
    requires Distinct(ids) && id in ids
    ensures Distinct(Without(ids, id)) && |Without(ids, id)| == |ids| - 1
    ensures forall x :: x in Without(ids, id) <==> x in ids && x != id
  {
    if ids[0] == id {
      assert ids == [id] + ids[1..];
    } else {
      var rest := Without(ids[1..], id);
      WithoutIs(ids[1..], id);
      assert ids == [ids[0]] + ids[1..];
      forall i, j | 0 <= i < j < |rest| + 1 ensures ([ids[0]] + rest)[i] != ([ids[0]] + rest)[j] {
        if i == 0 {
          assert rest[j - 1] in rest;
        }
      }
    }
  }

  lemma QueueDropped(tasks: Tasks, ring: Ring, after: Ring, id: TaskId, task: Task)
    requires QueuesOk(tasks, ring) && Live(tasks, id)
    requires Took(ring, after, tasks[id].spec.tenant, id)
    requires task.spec == tasks[id].spec && task.state != Queued
    ensures QueuesOk(tasks[id := task], after)
  {
    var tenant := tasks[id].spec.tenant;
    assert Enqueued(ring, tenant, id);
    WithoutIs(ring.queues[tenant].ids, id);
    var changed := tasks[id := task];
    forall t, i | t in after.queues && 0 <= i < |after.queues[t].ids|
      ensures Live(changed, after.queues[t].ids[i]) && changed[after.queues[t].ids[i]].spec.tenant == t
    {
      var x := after.queues[t].ids[i];
      assert x in after.queues[t].ids;
      assert x in ring.queues[t].ids;
      if t != tenant { assert tasks[x].spec.tenant == t; }
    }
    forall x | Live(changed, x) ensures Enqueued(after, changed[x].spec.tenant, x) {
      assert Live(tasks, x) && Enqueued(ring, tasks[x].spec.tenant, x);
    }
  }

  lemma QueueAdded(tasks: Tasks, ring: Ring, after: Ring, id: TaskId, task: Task)
    requires QueuesOk(tasks, ring) && !Live(tasks, id)
    requires task.state == Queued && task.spec.tenant in after.queues
    requires forall t | t in ring.queues :: t in after.queues
    requires forall t | t in after.queues && t != task.spec.tenant ::
               t in ring.queues && after.queues[t] == ring.queues[t]
    requires var old_ids := if task.spec.tenant in ring.queues then ring.queues[task.spec.tenant].ids else [];
             after.queues[task.spec.tenant].ids == old_ids + [id]
               || after.queues[task.spec.tenant].ids == [id] + old_ids
    ensures QueuesOk(tasks[id := task], after)
  {
    var tenant := task.spec.tenant;
    var before := if tenant in ring.queues then ring.queues[tenant].ids else [];
    var ids := after.queues[tenant].ids;
    assert id !in before;
    assert forall x :: x in ids <==> x == id || x in before;
    var changed := tasks[id := task];
    forall x | Live(changed, x) ensures Enqueued(after, changed[x].spec.tenant, x) {
      if x != id { assert Live(tasks, x) && Enqueued(ring, tasks[x].spec.tenant, x); }
    }
    forall t, i | t in after.queues && 0 <= i < |after.queues[t].ids|
      ensures Live(changed, after.queues[t].ids[i]) && changed[after.queues[t].ids[i]].spec.tenant == t
    {
      var x := after.queues[t].ids[i];
      assert x in after.queues[t].ids;
      if x != id { assert x in ring.queues[t].ids; }
    }
  }

  /** A change to a task that is queued neither before nor after leaves the queues right. */
  lemma QueueUntouched(tasks: Tasks, ring: Ring, id: TaskId, changed: Tasks)
    requires QueuesOk(tasks, ring) && !Live(tasks, id) && !Live(changed, id)
    requires forall x | x != id :: (x in tasks <==> x in changed) && (x in tasks ==> tasks[x] == changed[x])
    ensures QueuesOk(changed, ring)
  {
    forall x | Live(changed, x) ensures Enqueued(ring, changed[x].spec.tenant, x) {
      assert Live(tasks, x);
    }
  }

  // ---------------------------------------------------------------------------
  // The running list

  ghost predicate RunningOk(tasks: Tasks, running: seq<TaskId>) {
    && Distinct(running)
    && forall id :: id in running <==> id in tasks && tasks[id].state == Running
  }

  lemma RunningAdded(tasks: Tasks, running: seq<TaskId>, id: TaskId, task: Task)
    requires RunningOk(tasks, running) && id in tasks && tasks[id].state != Running && task.state == Running
    ensures RunningOk(tasks[id := task], running + [id])
  {
    assert id !in running;
    assert forall x :: x in running + [id] <==> x == id || x in running;
  }

  lemma RunningRemoved(tasks: Tasks, running: seq<TaskId>, id: TaskId, task: Task)
    requires RunningOk(tasks, running) && id in tasks && tasks[id].state == Running && task.state != Running
    ensures RunningOk(tasks[id := task], Without(running, id)) && |Without(running, id)| == |running| - 1
  {
    WithoutIs(running, id);
  }

  lemma RunningUntouched(tasks: Tasks, running: seq<TaskId>, id: TaskId, changed: Tasks)
    requires RunningOk(tasks, running)
    requires id in tasks ==> tasks[id].state != Running
    requires id in changed ==> changed[id].state != Running
    requires forall x | x != id :: (x in tasks <==> x in changed) && (x in tasks ==> tasks[x] == changed[x])
    ensures RunningOk(changed, running)
  {
  }

  // ---------------------------------------------------------------------------
  // The ledger

  datatype Kind = ReservedBytes | CommittedBytes | QueuedTasks

  /** What one task contributes: a never-dispatched queued task its reservation, a running or suspended one
      its memory. */
  function Charge(kind: Kind, task: Task): nat {
    match kind
    case ReservedBytes => if task.state == Queued && task.sequence == 0 then task.spec.memory else 0
    case CommittedBytes =>
      if task.state == Running || (task.state == Queued && task.sequence != 0) then task.spec.memory else 0
    case QueuedTasks => if task.state == Queued then 1 else 0
  }

  ghost function Charges(kind: Kind, tasks: Tasks): nat -> nat {
    id => if id in tasks then Charge(kind, tasks[id]) else 0
  }

  ghost function Total(kind: Kind, tasks: Tasks, n: nat): nat {
    Sum(n, Charges(kind, tasks))
  }

  lemma TotalMoved(kind: Kind, tasks: Tasks, n: nat, id: TaskId, task: Task)
    requires id < n && id in tasks
    ensures Total(kind, tasks[id := task], n) + Charge(kind, tasks[id]) == Total(kind, tasks, n) + Charge(kind, task)
    ensures Charge(kind, tasks[id]) <= Total(kind, tasks, n)
  {
    SumMoved(n, id, Charges(kind, tasks), Charges(kind, tasks[id := task]));
    SumTerm(n, id, Charges(kind, tasks));
  }

  lemma TotalGrown(kind: Kind, tasks: Tasks, id: TaskId, task: Task)
    ensures Total(kind, tasks[id := task], id + 1) == Total(kind, tasks, id) + Charge(kind, task)
  {
    SumSame(id, Charges(kind, tasks), Charges(kind, tasks[id := task]));
  }

  // ---------------------------------------------------------------------------
  // The invariant

  ghost predicate TaskOk(s: State, id: TaskId)
    requires id in s.tasks
  {
    var task := s.tasks[id];
    && 1 <= id < s.nextTask
    && WellFormedSpec(task.spec)
    && task.spec.tenant in s.ring.queues
    && s.ring.queues[task.spec.tenant].weight == task.spec.weight
    && task.reservation == Some(if task.state == Queued && task.sequence == 0 then Attached(task.spec.memory)
       else Detached)
    && (task.state == Running ==> task.sequence != 0)
    && (task.sequence < s.nextSequence || (task.sequence == U64_MAX && task.state != Queued))
  }

  ghost predicate TasksOk(s: State) {
    forall id | id in s.tasks :: TaskOk(s, id)
  }

  /** Replacing one record by a good one, with counters that only grow, keeps every record good. */
  lemma TasksKept(s: State, after: State, id: TaskId)
    requires TasksOk(s) && (id in after.tasks ==> TaskOk(after, id))
    requires forall x | x in after.tasks && x != id :: x in s.tasks && after.tasks[x] == s.tasks[x]
    requires s.nextTask <= after.nextTask && s.nextSequence <= after.nextSequence
    requires forall t | t in s.ring.queues ::
               t in after.ring.queues && after.ring.queues[t].weight == s.ring.queues[t].weight
    ensures TasksOk(after)
  {
    forall x | x in after.tasks ensures TaskOk(after, x) {
      if x != id { assert TaskOk(s, x); }
    }
  }

  ghost predicate LedgerOk(s: State) {
    && s.ledger.reserved == Total(ReservedBytes, s.tasks, s.nextTask)
    && s.ledger.committed == Total(CommittedBytes, s.tasks, s.nextTask)
    && s.queued == Total(QueuedTasks, s.tasks, s.nextTask)
  }

  ghost predicate BoundsOk(s: State) {
    && s.ledger.reserved + s.ledger.committed <= s.ledger.limit
    && |s.running| <= s.config.maxRunning
    && s.reservedSlots <= s.config.maxRunning
    && (s.config.maxQueued != 0 ==> s.queued + |s.running| <= s.config.maxQueued + s.config.maxRunning)
  }

  /** Counters that moved by what the changed task contributes stay equal to the sums. */
  lemma LedgerFollows(s: State, after: State, id: TaskId)
    requires LedgerOk(s)
    requires id in s.tasks && id < s.nextTask && id in after.tasks
    requires after.tasks == s.tasks[id := after.tasks[id]] && after.nextTask == s.nextTask
    requires after.ledger.reserved + Charge(ReservedBytes, s.tasks[id]) == s.ledger.reserved
             + Charge(ReservedBytes, after.tasks[id])
    requires after.ledger.committed + Charge(CommittedBytes, s.tasks[id]) == s.ledger.committed
             + Charge(CommittedBytes, after.tasks[id])
    requires after.queued + Charge(QueuedTasks, s.tasks[id]) == s.queued + Charge(QueuedTasks, after.tasks[id])
    ensures LedgerOk(after)
  {
    TotalMoved(ReservedBytes, s.tasks, s.nextTask, id, after.tasks[id]);
    TotalMoved(CommittedBytes, s.tasks, s.nextTask, id, after.tasks[id]);
    TotalMoved(QueuedTasks, s.tasks, s.nextTask, id, after.tasks[id]);
  }

  lemma LedgerGrown(s: State, after: State)
    requires LedgerOk(s) && s.nextTask in after.tasks && s.nextTask + 1 == after.nextTask
    requires after.tasks == s.tasks[s.nextTask := after.tasks[s.nextTask]]
    requires after.ledger.reserved == s.ledger.reserved + Charge(ReservedBytes, after.tasks[s.nextTask])
    requires after.ledger.committed == s.ledger.committed + Charge(CommittedBytes, after.tasks[s.nextTask])
    requires after.queued == s.queued + Charge(QueuedTasks, after.tasks[s.nextTask])
    ensures LedgerOk(after)
  {
    TotalGrown(ReservedBytes, s.tasks, s.nextTask, after.tasks[s.nextTask]);
    TotalGrown(CommittedBytes, s.tasks, s.nextTask, after.tasks[s.nextTask]);
    TotalGrown(QueuedTasks, s.tasks, s.nextTask, after.tasks[s.nextTask]);
  }

  lemma LedgerForgets(s: State, after: State, id: TaskId)
    requires LedgerOk(s) && after == s.(tasks := s.tasks - {id})
    requires id in s.tasks && Terminal(s.tasks[id].state)
    ensures LedgerOk(after)
  {
    SumSame(s.nextTask, Charges(ReservedBytes, s.tasks), Charges(ReservedBytes, after.tasks));
    SumSame(s.nextTask, Charges(CommittedBytes, s.tasks), Charges(CommittedBytes, after.tasks));
    SumSame(s.nextTask, Charges(QueuedTasks, s.tasks), Charges(QueuedTasks, after.tasks));
  }

  ghost predicate Inv(s: State) {
    && s.nextTask >= 1 && s.nextSequence >= 1
    && RingOk(s.ring)
    && QueuesOk(s.tasks, s.ring)
    && RunningOk(s.tasks, s.running)
    && TasksOk(s)
    && LedgerOk(s)
    && BoundsOk(s)
  }

  lemma InitialInv(limit: u64, config: Config, slots: nat)
    ensures Inv(Initial(limit, config, slots))
  {
    var s := Initial(limit, config, slots);
    SumZero(1, Charges(ReservedBytes, s.tasks));
    SumZero(1, Charges(CommittedBytes, s.tasks));
    SumZero(1, Charges(QueuedTasks, s.tasks));
  }

  // ---------------------------------------------------------------------------
  // Preservation, one transition of a task at a time

  /** What the invariant says about one task. */
  lemma Known(s: State, id: TaskId)
    requires Inv(s) && id in s.tasks
    ensures TaskOk(s, id)
    ensures id in s.running <==> s.tasks[id].state == Running
    ensures Charge(ReservedBytes, s.tasks[id]) <= s.ledger.reserved
    ensures Charge(CommittedBytes, s.tasks[id]) <= s.ledger.committed
  {
    TotalMoved(ReservedBytes, s.tasks, s.nextTask, id, s.tasks[id]);
    TotalMoved(CommittedBytes, s.tasks, s.nextTask, id, s.tasks[id]);
  }

  lemma Fresh(s: State)
    requires TasksOk(s)
    ensures s.nextTask !in s.tasks
  {
    assert forall id | id in s.tasks :: TaskOk(s, id) && id < s.nextTask;
  }

  lemma KnownFresh(s: State)
    requires Inv(s)
    ensures s.nextTask !in s.tasks
  {
    Fresh(s);
  }

  lemma KnownRing(s: State)
    requires Inv(s)
    ensures InRing(s.ring) && Distinct(s.ring.order)
  {
  }

  lemma SubmitRing(ring: Ring, tenant: TenantId, weight: Weight, id: TaskId)
    requires RingOk(ring)
    ensures RingOk(Enqueue(ring, tenant, weight, id))
  {
    var after := Enqueue(ring, tenant, weight, id);
    if ring.order != [] {
      assert ring.order[ring.cursor] in ring.order;
      assert after.order[after.cursor] == ring.order[ring.cursor];
    }
    assert forall t :: t in after.order <==> t in ring.order || t == tenant;
  }

  lemma SubmitQueues(tasks: Tasks, ring: Ring, id: TaskId, task: Task)
    requires QueuesOk(tasks, ring) && id !in tasks && task.state == Queued && task.spec.weight != 0
    ensures QueuesOk(tasks[id := task], Enqueue(ring, task.spec.tenant, task.spec.weight, id))
  {
    QueueAdded(tasks, ring, Enqueue(ring, task.spec.tenant, task.spec.weight, id), id, task);
  }

  lemma SubmitKeeps(s: State, spec: TaskSpec, fault: SubmitFault)
    requires Inv(s)
    ensures Inv(Submit(s, spec, fault).1)
  {
    hide QueuesOk, RunningOk, TasksOk, LedgerOk, RingOk;
    var (r, after) := Submit(s, spec, fault);
    if r.status.Accepted? {
      var id := s.nextTask;
      var task := after.tasks[id];
      Fresh(s);
      SubmitRing(s.ring, spec.tenant, spec.weight, id);
      SubmitQueues(s.tasks, s.ring, id, task);
      RunningUntouched(s.tasks, s.running, id, after.tasks);
      TasksKept(s, after, id);
      LedgerGrown(s, after);
    }
  }

  /** A queued task that has left its queue either runs or has ended, and the ledger followed. */
  ghost predicate Dequeued(s: State, after: State, id: TaskId)
    requires Live(s.tasks, id)
  {
    && id in after.tasks
    && var task := after.tasks[id];
    && after == s.(tasks := s.tasks[id := task], ring := after.ring, queued := s.queued - 1, running := after.running,
                   ledger := after.ledger, nextSequence := after.nextSequence)
    && task.spec == s.tasks[id].spec && task.state != Queued && task.reservation == Some(Detached)
    && RingOk(after.ring) && Took(s.ring, after.ring, task.spec.tenant, id)
    && s.nextSequence <= after.nextSequence
    && after.running == (if task.state == Running then s.running + [id] else s.running)
    && |after.running| <= s.config.maxRunning
    && (task.state == Running ==> task.sequence != 0)
    && (task.sequence < after.nextSequence || task.sequence == U64_MAX)
    && after.ledger.limit == s.ledger.limit
    && after.ledger.reserved == s.ledger.reserved - Charge(ReservedBytes, s.tasks[id])
    && after.ledger.committed == s.ledger.committed - Charge(CommittedBytes, s.tasks[id]) + Charge(CommittedBytes, task)
  }

  lemma DequeuedKeeps(s: State, after: State, id: TaskId)
    requires Inv(s) && Live(s.tasks, id) && Dequeued(s, after, id)
    ensures Inv(after)
  {
    hide QueuesOk, RunningOk, TasksOk, LedgerOk;
    var task := after.tasks[id];
    Known(s, id);
    QueueDropped(s.tasks, s.ring, after.ring, id, task);
    if task.state == Running {
      RunningAdded(s.tasks, s.running, id, task);
    } else {
      RunningUntouched(s.tasks, s.running, id, after.tasks);
    }
    TasksKept(s, after, id);
    LedgerFollows(s, after, id);
  }

  lemma FinishKeeps(s: State, id: TaskId, terminal: TaskState)
    requires Inv(s) && Terminal(terminal)
    ensures Inv(FinishRunning(s, id, terminal).1)
    ensures FinishRunning(s, id, terminal).0 <==> id in s.tasks && s.tasks[id].state == Running
  {
    hide QueuesOk, RunningOk, TasksOk, LedgerOk;
    if id in s.tasks && s.tasks[id].state == Running {
      var (ok, after) := FinishRunning(s, id, terminal);
      var task := s.tasks[id].(state := terminal);
      Known(s, id);
      QueueUntouched(s.tasks, s.ring, id, after.tasks);
      RunningRemoved(s.tasks, s.running, id, task);
      TasksKept(s, after, id);
      LedgerFollows(s, after, id);
    }
  }

  lemma CancelQueuedKeeps(s: State, id: TaskId)
    requires Inv(s)
    ensures Inv(CancelQueued(s, id).1)
    ensures CancelQueued(s, id).0 <==> Live(s.tasks, id)
  {
    hide QueuesOk, RunningOk, TasksOk, LedgerOk;
    if Live(s.tasks, id) {
      Known(s, id);
      DequeuedKeeps(s, CancelQueued(s, id).1, id);
    }
  }

  lemma SuspendKeeps(s: State, id: TaskId, throws: bool)
    requires Inv(s)
    ensures Inv(Suspend(s, id, throws).1)
    ensures Suspend(s, id, throws).0 <==>
              id in s.tasks && s.tasks[id].state == Running && s.tasks[id].sequence != U64_MAX && !throws
  {
    hide QueuesOk, RunningOk, TasksOk, LedgerOk;
    var (ok, after) := Suspend(s, id, throws);
    if id in s.tasks { Known(s, id); }
    if ok {
      var task := after.tasks[id];
      QueueAdded(s.tasks, s.ring, after.ring, id, task);
      RunningRemoved(s.tasks, s.running, id, task);
      TasksKept(s, after, id);
      LedgerFollows(s, after, id);
    }
  }

  lemma ForgetKeeps(s: State, id: TaskId)
    requires Inv(s)
    ensures Inv(Forget(s, id).1)
  {
    hide QueuesOk, RunningOk, TasksOk, LedgerOk;
    var (ok, after) := Forget(s, id);
    if ok {
      Known(s, id);
      QueueUntouched(s.tasks, s.ring, id, after.tasks);
      RunningUntouched(s.tasks, s.running, id, after.tasks);
      TasksKept(s, after, id);
      LedgerForgets(s, after, id);
    }
  }
}
