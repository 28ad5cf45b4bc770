/** Launches in flight, grouped in batches. A batch ends with one call to the gate: complete or fail. */
module LaunchTrackerModel {
  import opened Common

  type TaskId = u64

  /** `instance` tells the batches apart that one task has in turn; it is history. */
  datatype Batch = Batch(closed: bool, failed: bool, instance: nat)

  datatype Launch = Launch(task: TaskId, sequence: nat, lost: bool, instance: nat)

  datatype Call = Call(task: TaskId, instance: nat, complete: bool)

  datatype Monitor = Resting | Polling(candidate: Launch)

  /** `log`, `members`, `outcomes`, `spoiled` and `ended` are history: the gate calls owed so far, the batch of
      every launch, how its event ended, the batches that something went wrong in, and those that were
      closed when they ended. */
  datatype Tracker = Tracker(
    pending: seq<Launch>, batches: map<TaskId, Batch>, nextIndex: nat, nextSequence: nat, stopping: bool,
    monitor: Monitor, instances: nat, log: seq<Call>, members: map<nat, nat>, outcomes: map<nat, bool>,
    spoiled: set<nat>, ended: set<nat>)

  predicate HasPending(pending: seq<Launch>, task: TaskId) {
    exists i | 0 <= i < |pending| :: pending[i].task == task
  }

  /** The batch leaves the map and its gate call is owed. */
  function End(t: Tracker, task: TaskId, complete: bool): Tracker
    requires task in t.batches
  {
    var b := t.batches[task];
    t.(batches := t.batches - {task}, log := t.log + [Call(task, b.instance, complete)],
       ended := if b.closed then t.ended + {b.instance} else t.ended)
  }

  /** A batch for the task, new if there is none. */
  function Open(t: Tracker, task: TaskId): Tracker {
    if task in t.batches then t
    else t.(batches := t.batches[task := Batch(false, false, t.instances)], instances := t.instances + 1)
  }

  datatype TrackFault = NoTrackFault | EmplaceThrows | PushThrows

  /** The locked section of a launch whose event was created and recorded. */
  function Track(t: Tracker, task: TaskId, fault: TrackFault): (bool, Tracker) {
    if task == 0 || t.stopping then (false, t)
    else if task !in t.batches && fault.EmplaceThrows? then (false, t)
    else if task in t.batches && t.batches[task].failed then (false, t)
    else
      var ready := Open(t, task);
      if fault.PushThrows? then (false, ready.(nextSequence := t.nextSequence + 1))
      else
        var k := ready.batches[task].instance;
        (true, ready.(pending := t.pending + [Launch(task, t.nextSequence, false, k)],
          nextSequence := t.nextSequence + 1,
                      members := t.members[t.nextSequence := k]))
  }

  function CloseBatch(t: Tracker, task: TaskId): (Option<Call>, Tracker) {
    if task == 0 || task !in t.batches then (None, t)
    else
      var closed := t.(batches := t.batches[task := t.batches[task].(closed := true)]);
      if HasPending(t.pending, task) then (None, closed)
      else
        var after := End(closed, task, !t.batches[task].failed);
        (Some(after.log[|t.log|]), after)
  }

  function Lost(pending: seq<Launch>, task: TaskId): (after: seq<Launch>)
    ensures |after| == |pending|
  {
    seq(|pending|, i requires 0 <= i < |pending| =>
      if pending[i].task == task then pending[i].(lost := true) else pending[i])
  }

  /** The batch is closed and failed, and its launches are lost. */
  function FailBatch(t: Tracker, task: TaskId): (Option<Call>, Tracker)
    requires task in t.batches
  {
    var k := t.batches[task].instance;
    var failed := t.(batches := t.batches[task := Batch(true, true, k)], pending := Lost(t.pending, task),
      spoiled := t.spoiled + {k});
    if HasPending(t.pending, task) then (None, failed)
    else
      var after := End(failed, task, false);
      (Some(after.log[|t.log|]), after)
  }

  /** `throws`: no batch could be made; the gate is told all the same. */
  function Fail(t: Tracker, task: TaskId, throws: bool): (Option<Call>, Tracker) {
    if task == 0 then (None, t)
    else if throws && task !in t.batches then
      var call := Call(task, t.instances, false);
      (Some(call), t.(instances := t.instances + 1, log := t.log + [call], spoiled := t.spoiled + {t.instances}))
    else FailBatch(Open(t, task), task)
  }

  /** The monitor looks at the pending launches in turn. */
  function Pick(t: Tracker): Tracker {
    if !t.monitor.Resting? || t.stopping || t.pending == [] then t
    else
      var i := if t.nextIndex >= |t.pending| then 0 else t.nextIndex;
      t.(monitor := Polling(t.pending[i]), nextIndex := (i + 1) % |t.pending|)
  }

  /** The event is not ready. */
  function Unready(t: Tracker): Tracker {
    t.(monitor := Resting)
  }

  function FindLaunch(pending: seq<Launch>, c: Launch, from: nat): (found: Option<nat>)
    requires from <= |pending|
    ensures found.Some? ==>
              from <= found.value < |pending| && pending[found.value].task == c.task
              && pending[found.value].sequence == c.sequence
    ensures found.None? ==>
              forall i | from <= i < |pending| :: !(pending[i].task == c.task && pending[i].sequence == c.sequence)
    decreases |pending| - from
  {
    if from == |pending| then None
    else if pending[from].task == c.task && pending[from].sequence == c.sequence then Some(from)
    else FindLaunch(pending, c, from + 1)
  }

  function Erased(pending: seq<Launch>, i: nat): seq<Launch>
    requires i < |pending|
  {
    pending[..i] + pending[i + 1..]
  }

  /** The launch leaves the list with its outcome. */
  function RemovePolled(t: Tracker, c: Launch, ok: bool): Tracker {
    var i := FindLaunch(t.pending, c, 0);
    var rest := if i.Some? then Erased(t.pending, i.value) else t.pending;
    t.(monitor := Resting, pending := rest, outcomes := t.outcomes[c.sequence := ok],
       nextIndex := if i.None? then t.nextIndex else if rest == [] then 0 else i.value % |rest|)
  }

  /** Its batch is spoiled if it went badly, and ends if that was the last of a closed batch. */
  function Settle(t: Tracker, task: TaskId, good: bool): (Option<Call>, Tracker)
    requires task in t.batches
  {
    var b := t.batches[task];
    var judged :=
      if good then t
      else t.(batches := t.batches[task := b.(failed := true)], pending := Lost(t.pending, task),
        spoiled := t.spoiled + {b.instance});
    if !HasPending(t.pending, task) && b.closed then
      var after := End(judged, task, good && !b.failed);
      (Some(after.log[|t.log|]), after)
    else (None, judged)
  }

  /** The event has ended: `success` is what the query said, `destroyed` whether it could be destroyed. The
      last branch, a launch whose batch is gone, is the source's fallback. */
  function Finalize(t: Tracker, success: bool, destroyed: bool): (Option<Call>, Tracker) {
    if !t.monitor.Polling? then (None, t)
    else
      var c := t.monitor.candidate;
      var removed := RemovePolled(t, c, success && destroyed);
      if c.task in t.batches then Settle(removed, c.task, success && destroyed && !c.lost)
      else
        var call := Call(c.task, t.instances, false);
        (Some(call), removed.(instances := t.instances + 1, log := t.log + [call],
          spoiled := t.spoiled + {t.instances}))
  }

  /** The batches of an enumeration of the map are failed one after the other. */
  function FailAll(t: Tracker, tasks: seq<TaskId>): Tracker
    decreases |tasks|
  {
    if tasks == [] then t
    else FailAll(if tasks[0] in t.batches then End(t, tasks[0], false) else t, tasks[1..])
  }

  function BeginStop(t: Tracker): Tracker {
    t.(stopping := true)
  }

  /** Once the monitor has ended, everything left is failed. */
  function Sweep(t: Tracker, tasks: seq<TaskId>): Tracker {
    if !t.stopping || !t.monitor.Resting? || !(forall task | task in t.batches :: task in tasks) then t
    else FailAll(t.(pending := [], nextIndex := 0), tasks)
  }

  datatype Event =
    | TrackEvent(task: TaskId, fault: TrackFault)
    | CloseEvent(task: TaskId)
    | FailEvent(task: TaskId, throws: bool)
    | PickEvent
    | UnreadyEvent
    | FinalizeEvent(success: bool, destroyed: bool)
    | StopEvent
    | SweepEvent(tasks: seq<TaskId>)

  function Next(t: Tracker, e: Event): Tracker {
    match e
    case TrackEvent(task, fault) => Track(t, task, fault).1
    case CloseEvent(task) => CloseBatch(t, task).1
    case FailEvent(task, throws) => Fail(t, task, throws).1
    case PickEvent => Pick(t)
    case UnreadyEvent => Unready(t)
    case FinalizeEvent(success, destroyed) => Finalize(t, success, destroyed).1
    case StopEvent => BeginStop(t)
    case SweepEvent(tasks) => Sweep(t, tasks)
  }
}
