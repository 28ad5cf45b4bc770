/** The tracker's locked sections as they change its fields. The gate calls they owe are their results. */
module LaunchTrackerState {
  import opened Common
  import opened LaunchTrackerModel
  import opened LaunchTrackerTheorems

  class LaunchTracker {
    var pending: seq<Launch>
    var batches: map<TaskId, Batch>
    var nextIndex: nat
    var nextSequence: nat
    var stopping: bool
    /** Numbers the batches. */
    var instances: nat
    /** What the monitor thread holds between its locked sections. */
    ghost var monitor: Monitor
    ghost var log: seq<Call>
    ghost var members: map<nat, nat>
    ghost var outcomes: map<nat, bool>
    ghost var spoiled: set<nat>
    ghost var ended: set<nat>

    ghost function Value(): Tracker
      reads this
    {
      Tracker(pending, batches, nextIndex, nextSequence, stopping, monitor, instances, log, members, outcomes, spoiled,
        ended)
    }

    ghost predicate Valid()
      reads this
    {
      Sound(Value())
    }

    constructor ()
      ensures Valid() && Value() == Empty()
    {
      pending, batches, nextIndex, nextSequence, stopping, instances := [], map[], 0, 1, false, 0;
      monitor, log, members, outcomes, spoiled, ended := Resting, [], map[], map[], {}, {};
      new;
      EmptySound();
    }

    method AnyPending(task: TaskId) returns (any: bool)
      ensures any <==> HasPending(pending, task)
    {
      for i := 0 to |pending|
        invariant forall j | 0 <= j < i :: pending[j].task != task
      {
        if pending[i].task == task { return true; }
      }
      any := false;
    }

    method MarkLost(task: TaskId)
      modifies this`pending
      ensures pending == Lost(old(pending), task)
    {
      for i := 0 to |pending|
        invariant |pending| == |old(pending)|
        invariant forall j | 0 <= j < i :: pending[j] == Lost(old(pending), task)[j]
        invariant forall j | i <= j < |pending| :: pending[j] == old(pending)[j]
      {
        if pending[i].task == task { pending := pending[i := pending[i].(lost := true)]; }
      }
    }

    /** A batch for the task. */
    method OpenBatch(task: TaskId)
      modifies this`batches, this`instances
      ensures Value() == Open(old(Value()), task)
    {
      if task !in batches {
        batches := batches[task := Batch(false, false, instances)];
        instances := instances + 1;
      }
    }

    /** The batch ends and a gate call is owed. */
    method EndBatch(task: TaskId, complete: bool) returns (call: Call)
      requires task in batches
      modifies this
      ensures Value() == End(old(Value()), task, complete) && log == old(log) + [call]
    {
      var b := batches[task];
      call := Call(task, b.instance, complete);
      batches := batches - {task};
      log := log + [call];
      if b.closed { ended := ended + {b.instance}; }
    }

    /** The locked section of a launch whose event was created and recorded. */
    method TrackLaunch(task: TaskId, fault: TrackFault) returns (ok: bool)
      requires Valid()
      modifies this
      ensures Valid() && (ok, Value()) == Track(old(Value()), task, fault)
    {
      hide Sound;
      StepKeeps(Value(), TrackEvent(task, fault));
      if task == 0 || stopping { return false; }
      if task !in batches && fault.EmplaceThrows? { return false; }
      if task in batches && batches[task].failed { return false; }
      OpenBatch(task);
      var sequence := nextSequence;
      nextSequence := nextSequence + 1;
      if fault.PushThrows? { return false; }
      pending := pending + [Launch(task, sequence, false, batches[task].instance)];
      members := members[sequence := batches[task].instance];
      ok := true;
    }

    method Close(task: TaskId) returns (call: Option<Call>)
      requires Valid()
      modifies this
      ensures Valid() && (call, Value()) == CloseBatch(old(Value()), task)
    {
      hide Sound, HasPending;
      StepKeeps(Value(), CloseEvent(task));
      if task == 0 || task !in batches { return None; }
      batches := batches[task := batches[task].(closed := true)];
      var waiting := AnyPending(task);
      if waiting { return None; }
      var c := EndBatch(task, !batches[task].failed);
      call := Some(c);
    }

    method FailTask(task: TaskId, throws: bool) returns (call: Option<Call>)
      requires Valid()
      modifies this
      ensures Valid() && (call, Value()) == Fail(old(Value()), task, throws)
    {
      hide Sound, FailBatch;
      StepKeeps(Value(), FailEvent(task, throws));
      if task == 0 { return None; }
      if throws && task !in batches {
        var c := Call(task, instances, false);
        spoiled := spoiled + {instances};
        instances := instances + 1;
        log := log + [c];
        return Some(c);
      }
      OpenBatch(task);
      call := FailOpen(task);
    }

    method FailOpen(task: TaskId) returns (call: Option<Call>)
      requires task in batches
      modifies this
      ensures (call, Value()) == FailBatch(old(Value()), task)
    {
      hide HasPending;
      batches := batches[task := Batch(true, true, batches[task].instance)];
      spoiled := spoiled + {batches[task].instance};
      LostKeepsPending(pending, task, task);
      MarkLost(task);
      var waiting := AnyPending(task);
      if waiting { return None; }
      var c := EndBatch(task, false);
      call := Some(c);
    }

    /** The monitor takes a copy of the next launch. */
    method PickNext() returns (candidate: Option<Launch>)
      requires Valid() && monitor.Resting?
      modifies this
      ensures Valid() && Value() == Pick(old(Value()))
      ensures candidate.Some? <==> monitor.Polling?
      ensures candidate.Some? ==> monitor == Polling(candidate.value)
    {
      hide Sound;
      StepKeeps(Value(), PickEvent);
      if stopping || pending == [] { return None; }
      if nextIndex >= |pending| { nextIndex := 0; }
      candidate := Some(pending[nextIndex]);
      monitor := Polling(pending[nextIndex]);
      nextIndex := (nextIndex + 1) % |pending|;
    }

    /** The event of the launch that was polled is not ready: it stays where it is. */
    method LeavePending()
      requires Valid() && monitor.Polling?
      modifies this`monitor
      ensures Valid() && Value() == Unready(old(Value()))
    {
      hide Sound;
      StepKeeps(Value(), UnreadyEvent);
      monitor := Resting;
    }

    method FindPending(c: Launch) returns (found: Option<nat>)
      ensures found == FindLaunch(pending, c, 0)
    {
      for i := 0 to |pending|
        invariant FindLaunch(pending, c, 0) == FindLaunch(pending, c, i)
      {
        if pending[i].task == c.task && pending[i].sequence == c.sequence { return Some(i); }
      }
      found := None;
    }

    /** The event of the launch that was polled has ended and was destroyed, or could not be. The batch is
        always there. */
    method FinalizeLaunch(c: Launch, success: bool, destroyed: bool) returns (call: Option<Call>)
      requires Valid() && monitor == Polling(c)
      modifies this
      ensures Valid() && (call, Value()) == Finalize(old(Value()), success, destroyed)
    {
      hide Sound, RemovePolled, Settle;
      PolledHasBatch(Value());
      StepKeeps(Value(), FinalizeEvent(success, destroyed));
      RemoveLaunch(c, success && destroyed);
      call := SettleBatch(c.task, success && destroyed && !c.lost);
    }

    method SettleBatch(task: TaskId, good: bool) returns (call: Option<Call>)
      requires task in batches
      modifies this
      ensures (call, Value()) == Settle(old(Value()), task, good)
    {
      hide HasPending;
      var b := batches[task];
      if !good {
        batches := batches[task := b.(failed := true)];
        spoiled := spoiled + {b.instance};
        LostKeepsPending(pending, task, task);
        MarkLost(task);
      }
      var waiting := AnyPending(task);
      if waiting || !b.closed { return None; }
      var owed := EndBatch(task, good && !b.failed);
      call := Some(owed);
    }

    method RemoveLaunch(c: Launch, ok: bool)
      modifies this
      ensures Value() == RemovePolled(old(Value()), c, ok) && batches == old(batches)
    {
      var i := FindPending(c);
      if i.Some? {
        pending := pending[..i.value] + pending[i.value + 1..];
        nextIndex := if pending == [] then 0 else i.value % |pending|;
      }
      outcomes := outcomes[c.sequence := ok];
      monitor := Resting;
    }

    /** The monitor polls nothing more. */
    method BeginStopping()
      requires Valid()
      modifies this`stopping
      ensures Valid() && Value() == BeginStop(old(Value()))
    {
      hide Sound;
      StepKeeps(Value(), StopEvent);
      stopping := true;
    }

    /** Once the monitor has ended: the calls owed for everything that is left. */
    method SweepAll() returns (calls: seq<Call>, ghost tasks: seq<TaskId>)
      requires Valid() && stopping && monitor.Resting?
      modifies this
      ensures Valid() && Value() == Sweep(old(Value()), tasks) && log == old(log) + calls
      ensures batches == map[] && pending == []
    {
      hide Sound, FailAll, Sweep;
      ghost var t := Value();
      calls, tasks := [], [];
      pending, nextIndex := [], 0;
      ghost var cleared := Value();
      FailAllBase(cleared);
      while batches != map[]
        invariant Value() == FailAll(cleared, tasks) && log == old(log) + calls
        invariant pending == [] && forall x | x in t.batches :: x in tasks || x in batches
        decreases |batches|
      {
        var task :| task in batches;
        FailAllNext(cleared, tasks, task);
        Smaller(batches, task);
        var call := EndBatch(task, false);
        calls, tasks := calls + [call], tasks + [task];
      }
      SweepIs(t, tasks);
      StepKeeps(t, SweepEvent(tasks));
    }
  }

  lemma Smaller(batches: map<TaskId, Batch>, task: TaskId)
    requires task in batches
    ensures |batches - {task}| < |batches|
  {
    var rest := batches - {task};
    assert batches.Keys == rest.Keys + {task};
    assert |batches.Keys| == |rest.Keys| + 1;
  }

  lemma SweepIs(t: Tracker, tasks: seq<TaskId>)
    requires t.stopping && t.monitor.Resting? && forall task | task in t.batches :: task in tasks
    ensures Sweep(t, tasks) == FailAll(t.(pending := [], nextIndex := 0), tasks)
  {
  }

  lemma StepKeeps(t: Tracker, e: Event)
    requires Sound(t)
    ensures Sound(Next(t, e))
  {
    NextSound(t, e);
  }

  lemma PolledHasBatch(t: Tracker)
    requires Sound(t) && t.monitor.Polling?
    ensures t.monitor.candidate.task in t.batches
  {
    var j := PolledIsPending(t);
  }

  lemma FailAllBase(t: Tracker)
    ensures FailAll(t, []) == t
  {
  }

  lemma {:induction false} FailAllNext(t: Tracker, tasks: seq<TaskId>, task: TaskId)
    requires task in FailAll(t, tasks).batches
    ensures FailAll(t, tasks + [task]) == End(FailAll(t, tasks), task, false)
    decreases |tasks|
  {
    if tasks == [] {
      assert [task][1..] == [];
    } else {
      assert (tasks + [task])[1..] == tasks[1..] + [task];
      FailAllNext(if tasks[0] in t.batches then End(t, tasks[0], false) else t, tasks[1..], task);
    }
  }
}
