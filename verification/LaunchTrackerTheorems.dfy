/** Every batch is answered exactly once, and with success only if everything in it went well. */
module LaunchTrackerTheorems {
  import opened Common
  import opened LaunchTrackerModel

  // ---------------------------------------------------------------------------
  // The invariant

  /** A pending launch belongs to the batch its task has now. */
  ghost predicate LaunchOk(t: Tracker, l: Launch) {
    && l.task in t.batches && t.batches[l.task].instance == l.instance
    && l.sequence < t.nextSequence && l.sequence in t.members && t.members[l.sequence] == l.instance
    && l.sequence !in t.outcomes
    && (l.lost ==> t.batches[l.task].failed)
  }

  ghost predicate LaunchesOk(t: Tracker) {
    && (forall i | 0 <= i < |t.pending| :: LaunchOk(t, t.pending[i]))
    && (forall i, j | 0 <= i < j < |t.pending| :: t.pending[i].sequence != t.pending[j].sequence)
  }

  ghost predicate BatchOk(t: Tracker, task: TaskId)
    requires task in t.batches
  {
    && t.batches[task].instance < t.instances
    && (t.batches[task].failed <==> t.batches[task].instance in t.spoiled)
  }

  /** A closed batch still has a pending launch. */
  ghost predicate BatchesOk(t: Tracker) {
    BatchesBut(t, {})
  }

  /** No two batches are the same instance. */
  ghost predicate DistinctBatches(t: Tracker) {
    && (forall task | task in t.batches :: BatchOk(t, task))
    && (forall a, b | a in t.batches && b in t.batches && a != b :: t.batches[a].instance != t.batches[b].instance)
    && (forall k | k in t.spoiled :: k < t.instances)
  }

  ghost predicate BatchesBut(t: Tracker, exempt: set<TaskId>) {
    && DistinctBatches(t)
    && (forall task | task in t.batches && task !in exempt && t.batches[task].closed :: HasPending(t.pending, task))
  }

  ghost predicate Live(t: Tracker, k: nat) {
    exists task :: task in t.batches && t.batches[task].instance == k
  }

  ghost predicate Called(t: Tracker, k: nat) {
    exists i | 0 <= i < |t.log| :: t.log[i].instance == k
  }

  /** Every batch ever made is live or has had its one call. */
  ghost predicate LogOk(t: Tracker) {
    && (forall i, j | 0 <= i < j < |t.log| :: t.log[i].instance != t.log[j].instance)
    && (forall i | 0 <= i < |t.log| :: t.log[i].instance < t.instances && !Live(t, t.log[i].instance))
    && (forall k: nat | k < t.instances :: Live(t, k) || Called(t, k))
  }

  ghost predicate Waiting(t: Tracker, sequence: nat) {
    exists i | 0 <= i < |t.pending| :: t.pending[i].sequence == sequence
  }

  ghost predicate MemberOk(t: Tracker, s: nat)
    requires s in t.members
  {
    && s < t.nextSequence && t.members[s] < t.instances
    && (Live(t, t.members[s]) ==> s in t.outcomes || Waiting(t, s))
    && (s in t.outcomes && !t.outcomes[s] ==> t.members[s] in t.spoiled)
  }

  ghost predicate MembersOk(t: Tracker) {
    forall s | s in t.members :: MemberOk(t, s)
  }

  /** What a completing call stands for. */
  ghost predicate Earned(t: Tracker, k: nat) {
    && k in t.ended && k !in t.spoiled
    && forall s | s in t.members && t.members[s] == k :: s in t.outcomes && t.outcomes[s]
  }

  ghost predicate CallsOk(t: Tracker) {
    forall i | 0 <= i < |t.log| && t.log[i].complete :: Earned(t, t.log[i].instance)
  }

  /** The launch being polled is still pending; only its mark may be newer than the copy. */
  ghost predicate MonitorOk(t: Tracker) {
    t.monitor.Polling? ==>
      var c := t.monitor.candidate;
      exists i | 0 <= i < |t.pending| :: t.pending[i].(lost := c.lost) == c && (c.lost ==> t.pending[i].lost)
  }

  /** The invariant, except that the batches of `exempt` may be closed with nothing pending. */
  ghost predicate InvBut(t: Tracker, exempt: set<TaskId>) {
    LaunchesOk(t) && BatchesBut(t, exempt) && LogOk(t) && MembersOk(t) && CallsOk(t) && MonitorOk(t)
  }

  ghost predicate Inv(t: Tracker) {
    LaunchesOk(t) && BatchesOk(t) && LogOk(t) && MembersOk(t) && CallsOk(t) && MonitorOk(t)
  }

  // ---------------------------------------------------------------------------
  // Building blocks: opening a batch, spoiling one, ending one

  lemma OpenKeeps(t: Tracker, task: TaskId)
    requires Inv(t)
    ensures Inv(Open(t, task)) && task in Open(t, task).batches
  {
    var after := Open(t, task);
    if task !in t.batches {
      OpenLog(t, after, task);
      forall i | 0 <= i < |t.pending| ensures LaunchOk(after, after.pending[i]) { assert LaunchOk(t, t.pending[i]); }
      forall x | x in after.batches ensures BatchOk(after, x) {
        if x != task { assert BatchOk(t, x); }
      }
      forall s | s in after.members ensures MemberOk(after, s) { OpenMember(t, after, task, s); }
      forall i | 0 <= i < |t.log| && t.log[i].complete ensures Earned(after, t.log[i].instance) {
        assert Earned(t, t.log[i].instance);
      }
    }
  }

  ghost predicate Opened(t: Tracker, after: Tracker, task: TaskId) {
    && task !in t.batches && after == Open(t, task)
  }

  lemma LiveAfterOpen(t: Tracker, after: Tracker, task: TaskId, k: nat)
    requires Opened(t, after, task)
    ensures Live(after, k) <==> Live(t, k) || k == t.instances
  {
    if Live(t, k) {
      var x :| x in t.batches && t.batches[x].instance == k;
      assert x in after.batches && after.batches[x].instance == k;
    }
    if k == t.instances { assert after.batches[task].instance == k; }
  }

  lemma OpenLog(t: Tracker, after: Tracker, task: TaskId)
    requires LogOk(t) && Opened(t, after, task)
    ensures LogOk(after)
  {
    forall i | 0 <= i < |t.log| ensures t.log[i].instance < after.instances && !Live(after, t.log[i].instance) {
      LiveAfterOpen(t, after, task, t.log[i].instance);
    }
    forall k: nat | k < after.instances ensures Live(after, k) || Called(after, k) {
      LiveAfterOpen(t, after, task, k);
      if k < t.instances { assert Live(t, k) || Called(t, k); }
    }
  }

  lemma OpenMember(t: Tracker, after: Tracker, task: TaskId, s: nat)
    requires Opened(t, after, task) && s in t.members && MemberOk(t, s)
    ensures MemberOk(after, s)
  {
    LiveAfterOpen(t, after, task, t.members[s]);
  }

  /** The flags of one batch are raised, and its launches marked lost if it fails. */
  function Flag(t: Tracker, task: TaskId, close: bool, fail: bool): Tracker
    requires task in t.batches
  {
    var b := t.batches[task];
    t.(batches := t.batches[task := Batch(b.closed || close, b.failed || fail, b.instance)],
       pending := if fail then Lost(t.pending, task) else t.pending,
       spoiled := if fail then t.spoiled + {b.instance} else t.spoiled)
  }

  lemma SameLive(t: Tracker, after: Tracker, k: nat)
    requires forall x :: x in t.batches <==> x in after.batches
    requires forall x | x in t.batches :: after.batches[x].instance == t.batches[x].instance
    ensures Live(after, k) <==> Live(t, k)
  {
    if Live(t, k) {
      var x :| x in t.batches && t.batches[x].instance == k;
      assert x in after.batches && after.batches[x].instance == k;
    }
    if Live(after, k) {
      var x :| x in after.batches && after.batches[x].instance == k;
      assert x in t.batches && t.batches[x].instance == k;
    }
  }

  lemma SameLog(t: Tracker, after: Tracker)
    requires LogOk(t) && after.log == t.log && after.instances == t.instances
    requires forall x :: x in t.batches <==> x in after.batches
    requires forall x | x in t.batches :: after.batches[x].instance == t.batches[x].instance
    ensures LogOk(after)
  {
    forall k: nat ensures Live(after, k) <==> Live(t, k) { SameLive(t, after, k); }
    forall k: nat | k < t.instances ensures Live(after, k) || Called(after, k) {
      assert Live(t, k) || Called(t, k);
    }
  }

  lemma NotLive(t: Tracker, i: nat)
    requires LogOk(t) && i < |t.log|
    ensures !Live(t, t.log[i].instance)
  {
  }

  lemma FlagPending(t: Tracker, task: TaskId, close: bool, fail: bool, x: TaskId)
    requires task in t.batches
    ensures HasPending(Flag(t, task, close, fail).pending, x) <==> HasPending(t.pending, x)
  {
    var after := Flag(t, task, close, fail);
    if HasPending(t.pending, x) {
      var i :| 0 <= i < |t.pending| && t.pending[i].task == x;
      assert after.pending[i].task == x;
    }
  }

  lemma FlagBatches(t: Tracker, task: TaskId, close: bool, fail: bool)
    requires BatchesBut(t, {}) && task in t.batches
    ensures BatchesBut(Flag(t, task, close, fail), {task})
  {
    var after := Flag(t, task, close, fail);
    forall x | x in after.batches ensures BatchOk(after, x) { assert BatchOk(t, x); }
    forall x | x in after.batches && x != task && after.batches[x].closed ensures HasPending(after.pending, x) {
      FlagPending(t, task, close, fail, x);
    }
  }

  lemma FlagLaunches(t: Tracker, task: TaskId, close: bool, fail: bool)
    requires LaunchesOk(t) && MonitorOk(t) && task in t.batches
    ensures LaunchesOk(Flag(t, task, close, fail)) && MonitorOk(Flag(t, task, close, fail))
  {
    var after := Flag(t, task, close, fail);
    forall i | 0 <= i < |after.pending| ensures LaunchOk(after, after.pending[i]) { assert LaunchOk(t, t.pending[i]); }
    if t.monitor.Polling? {
      var c := t.monitor.candidate;
      var i :| 0 <= i < |t.pending| && t.pending[i].(lost := c.lost) == c && (c.lost ==> t.pending[i].lost);
      assert after.pending[i].(lost := c.lost) == c && (c.lost ==> after.pending[i].lost);
    }
  }

  lemma FlagMembers(t: Tracker, task: TaskId, close: bool, fail: bool)
    requires MembersOk(t) && task in t.batches
    ensures MembersOk(Flag(t, task, close, fail))
  {
    var after := Flag(t, task, close, fail);
    forall s | s in after.members ensures MemberOk(after, s) {
      assert MemberOk(t, s);
      SameLive(t, after, t.members[s]);
      if Waiting(t, s) {
        var i :| 0 <= i < |t.pending| && t.pending[i].sequence == s;
        assert after.pending[i].sequence == s;
      }
    }
  }

  lemma FlagCalls(t: Tracker, task: TaskId, close: bool, fail: bool)
    requires CallsOk(t) && LogOk(t) && task in t.batches
    ensures CallsOk(Flag(t, task, close, fail))
  {
    var after := Flag(t, task, close, fail);
    forall i | 0 <= i < |t.log| && t.log[i].complete ensures Earned(after, t.log[i].instance) {
      assert Earned(t, t.log[i].instance);
      NotLive(t, i);
      assert t.batches[task].instance != t.log[i].instance;
    }
  }

  lemma FlagKeeps(t: Tracker, task: TaskId, close: bool, fail: bool)
    requires Inv(t) && task in t.batches
    ensures InvBut(Flag(t, task, close, fail), {task})
    ensures HasPending(t.pending, task) || (!close && !t.batches[task].closed) ==> Inv(Flag(t, task, close, fail))
  {
    FlagBatches(t, task, close, fail);
    FlagLaunches(t, task, close, fail);
    FlagMembers(t, task, close, fail);
    FlagCalls(t, task, close, fail);
    SameLog(t, Flag(t, task, close, fail));
    FlagPending(t, task, close, fail, task);
    hide LaunchesOk, LogOk, MembersOk, CallsOk, MonitorOk, HasPending;
  }

  // Ending a batch

  lemma LiveAfterEnd(t: Tracker, task: TaskId, complete: bool, k: nat)
    requires DistinctBatches(t) && task in t.batches
    ensures Live(End(t, task, complete), k) <==> Live(t, k) && k != t.batches[task].instance
  {
    var after := End(t, task, complete);
    if Live(t, k) && k != t.batches[task].instance {
      var x :| x in t.batches && t.batches[x].instance == k;
      assert x in after.batches && after.batches[x].instance == k;
    }
  }

  lemma EndLog(t: Tracker, task: TaskId, complete: bool)
    requires LogOk(t) && DistinctBatches(t) && task in t.batches
    ensures LogOk(End(t, task, complete))
  {
    var after := End(t, task, complete);
    var n := |t.log|;
    assert Live(t, t.batches[task].instance);
    assert BatchOk(t, task);
    hide DistinctBatches, Live;
    forall i | 0 <= i < |after.log|
      ensures after.log[i].instance < after.instances && !Live(after, after.log[i].instance)
    {
      LiveAfterEnd(t, task, complete, after.log[i].instance);
    }
    forall k: nat | k < after.instances ensures Live(after, k) || Called(after, k) {
      LiveAfterEnd(t, task, complete, k);
      if k == t.batches[task].instance {
        assert after.log[n].instance == k;
      } else if Called(t, k) {
        var i :| 0 <= i < n && t.log[i].instance == k;
        assert after.log[i].instance == k;
      }
    }
  }

  lemma EndCalls(t: Tracker, task: TaskId, complete: bool)
    requires CallsOk(t) && task in t.batches && (complete ==> Earned(End(t, task, complete), t.batches[task].instance))
    ensures CallsOk(End(t, task, complete))
  {
    var after := End(t, task, complete);
    forall i | 0 <= i < |after.log| && after.log[i].complete ensures Earned(after, after.log[i].instance) {
      if i < |t.log| { assert Earned(t, t.log[i].instance); }
    }
  }

  /** A batch that completes has earned it. */
  lemma CompletionEarned(t: Tracker, task: TaskId)
    requires LaunchesOk(t) && MembersOk(t) && BatchesBut(t, {task}) && task in t.batches && !HasPending(t.pending, task)
    requires t.batches[task].closed && !t.batches[task].failed
    ensures Earned(End(t, task, true), t.batches[task].instance)
  {
    var k := t.batches[task].instance;
    assert BatchOk(t, task) && Live(t, k);
    forall s | s in t.members && t.members[s] == k ensures s in t.outcomes && t.outcomes[s] {
      assert MemberOk(t, s);
      WaitingIsPending(t, task, s);
    }
  }

  lemma WaitingIsPending(t: Tracker, task: TaskId, s: nat)
    requires LaunchesOk(t) && BatchesBut(t, {task}) && task in t.batches && s in t.members
             && t.members[s] == t.batches[task].instance
    ensures Waiting(t, s) ==> HasPending(t.pending, task)
  {
    if Waiting(t, s) {
      var i :| 0 <= i < |t.pending| && t.pending[i].sequence == s;
      assert LaunchOk(t, t.pending[i]);
      OneTask(t, t.pending[i].task, task);
    }
  }

  lemma OneTask(t: Tracker, a: TaskId, b: TaskId)
    requires BatchesBut(t, {b}) && a in t.batches && b in t.batches && t.batches[a].instance == t.batches[b].instance
    ensures a == b
  {
  }

  lemma EndBatches(t: Tracker, task: TaskId, complete: bool)
    requires BatchesBut(t, {task}) && LaunchesOk(t) && task in t.batches && !HasPending(t.pending, task)
    ensures BatchesOk(End(t, task, complete)) && LaunchesOk(End(t, task, complete))
  {
    var after := End(t, task, complete);
    forall x | x in after.batches ensures BatchOk(after, x) { assert BatchOk(t, x); }
    forall i | 0 <= i < |after.pending| ensures LaunchOk(after, after.pending[i]) { assert LaunchOk(t, t.pending[i]); }
  }

  lemma EndMembers(t: Tracker, task: TaskId, complete: bool)
    requires MembersOk(t) && BatchesBut(t, {task}) && task in t.batches
    ensures MembersOk(End(t, task, complete))
  {
    var after := End(t, task, complete);
    forall s | s in after.members ensures MemberOk(after, s) {
      assert MemberOk(t, s);
      LiveAfterEnd(t, task, complete, t.members[s]);
    }
  }

  lemma EndKeeps(t: Tracker, task: TaskId, complete: bool)
    requires InvBut(t, {task}) && task in t.batches && !HasPending(t.pending, task)
    requires complete ==> t.batches[task].closed && !t.batches[task].failed
    ensures Inv(End(t, task, complete))
  {
    hide LaunchesOk, LogOk, MembersOk, CallsOk, DistinctBatches, HasPending, Earned;
    EndLog(t, task, complete);
    if complete { CompletionEarned(t, task); }
    EndCalls(t, task, complete);
    EndBatches(t, task, complete);
    EndMembers(t, task, complete);
  }

  // ---------------------------------------------------------------------------
  // Every step

  lemma SkippedSequence(t: Tracker)
    requires Inv(t)
    ensures Inv(t.(nextSequence := t.nextSequence + 1))
  {
    var after := t.(nextSequence := t.nextSequence + 1);
    SameLog(t, after);
    forall i | 0 <= i < |t.pending| ensures LaunchOk(after, after.pending[i]) { assert LaunchOk(t, t.pending[i]); }
    forall x | x in t.batches ensures BatchOk(after, x) { assert BatchOk(t, x); }
    forall s | s in after.members ensures MemberOk(after, s) {
      assert MemberOk(t, s);
      SameLive(t, after, t.members[s]);
    }
    forall i | 0 <= i < |t.log| && t.log[i].complete ensures Earned(after, t.log[i].instance) {
      assert Earned(t, t.log[i].instance);
    }
  }

  ghost function Pushed(t: Tracker, task: TaskId): Tracker
    requires task in t.batches
  {
    t.(pending := t.pending + [Launch(task, t.nextSequence, false, t.batches[task].instance)],
      nextSequence := t.nextSequence + 1,
       members := t.members[t.nextSequence := t.batches[task].instance])
  }

  lemma PushKeeps(t: Tracker, task: TaskId)
    requires Inv(t) && task in t.batches
    requires t.nextSequence !in t.outcomes
    ensures Inv(Pushed(t, task))
  {
    var after := Pushed(t, task);
    var n := |t.pending|;
    PushLaunches(t, task);
    SameLog(t, after);
    PushMembers(t, task);
    forall x | x in t.batches ensures BatchOk(after, x) { assert BatchOk(t, x); }
    forall x | x in t.batches && t.batches[x].closed ensures HasPending(after.pending, x) {
      var i :| 0 <= i < n && t.pending[i].task == x;
      assert after.pending[i].task == x;
    }
    PushCalls(t, task);
  }

  lemma PushLaunches(t: Tracker, task: TaskId)
    requires LaunchesOk(t) && MonitorOk(t) && task in t.batches && t.nextSequence !in t.outcomes
    ensures LaunchesOk(Pushed(t, task)) && MonitorOk(Pushed(t, task))
  {
    var after := Pushed(t, task);
    forall i | 0 <= i < |after.pending| ensures LaunchOk(after, after.pending[i]) {
      if i < |t.pending| { assert LaunchOk(t, t.pending[i]); }
    }
    if t.monitor.Polling? {
      var c := t.monitor.candidate;
      var i :| 0 <= i < |t.pending| && t.pending[i].(lost := c.lost) == c && (c.lost ==> t.pending[i].lost);
      assert after.pending[i].(lost := c.lost) == c && (c.lost ==> after.pending[i].lost);
    }
  }

  lemma PushMembers(t: Tracker, task: TaskId)
    requires MembersOk(t) && task in t.batches && BatchOk(t, task) && t.nextSequence !in t.outcomes
    ensures MembersOk(Pushed(t, task))
  {
    var after := Pushed(t, task);
    forall s | s in after.members ensures MemberOk(after, s) {
      if s == t.nextSequence {
        assert after.pending[|t.pending|].sequence == s;
      } else {
        assert MemberOk(t, s);
        SameLive(t, after, t.members[s]);
        if Waiting(t, s) {
          var i :| 0 <= i < |t.pending| && t.pending[i].sequence == s;
          assert after.pending[i].sequence == s;
        }
      }
    }
  }

  lemma PushCalls(t: Tracker, task: TaskId)
    requires CallsOk(t) && LogOk(t) && task in t.batches
    ensures CallsOk(Pushed(t, task))
  {
    var after := Pushed(t, task);
    forall i | 0 <= i < |t.log| && t.log[i].complete ensures Earned(after, t.log[i].instance) {
      assert Earned(t, t.log[i].instance);
      NotLive(t, i);
      assert t.batches[task].instance != t.log[i].instance;
    }
  }

  /** Outcomes are known only for launches that were made. */
  ghost predicate OutcomesOk(t: Tracker) {
    forall s | s in t.outcomes :: s < t.nextSequence
  }

  lemma TrackKeeps(t: Tracker, task: TaskId, fault: TrackFault)
    requires Inv(t) && OutcomesOk(t)
    ensures Inv(Track(t, task, fault).1)
  {
    hide Inv;
    OpenKeeps(t, task);
    var ready := Open(t, task);
    SkippedSequence(ready);
    PushKeeps(ready, task);
  }

  lemma CloseKeeps(t: Tracker, task: TaskId)
    requires Inv(t)
    ensures Inv(CloseBatch(t, task).1)
  {
    hide Inv, InvBut, HasPending;
    if task != 0 && task in t.batches {
      FlagKeeps(t, task, true, false);
      var closed := Flag(t, task, true, false);
      if !HasPending(t.pending, task) {
        EndKeeps(closed, task, !t.batches[task].failed);
      }
    }
  }

  lemma UnmadeBatch(t: Tracker, call: Call)
    requires Inv(t) && call.instance == t.instances && !call.complete
    ensures Inv(t.(instances := t.instances + 1, log := t.log + [call], spoiled := t.spoiled + {t.instances}))
  {
    var after := t.(instances := t.instances + 1, log := t.log + [call], spoiled := t.spoiled + {t.instances});
    var n := |t.log|;
    forall k: nat ensures Live(after, k) <==> Live(t, k) { SameLive(t, after, k); }
    forall k: nat | Live(t, k) ensures k < t.instances {
      var x :| x in t.batches && t.batches[x].instance == k;
      assert BatchOk(t, x);
    }
    forall k: nat | k < after.instances ensures Live(after, k) || Called(after, k) {
      if k == t.instances {
        assert after.log[n].instance == k;
      } else if Called(t, k) {
        var i :| 0 <= i < n && t.log[i].instance == k;
        assert after.log[i].instance == k;
      }
    }
    forall i | 0 <= i < |t.pending| ensures LaunchOk(after, after.pending[i]) { assert LaunchOk(t, t.pending[i]); }
    forall x | x in t.batches ensures BatchOk(after, x) { assert BatchOk(t, x); }
    forall s | s in after.members ensures MemberOk(after, s) { assert MemberOk(t, s); }
    forall i | 0 <= i < |after.log| && after.log[i].complete ensures Earned(after, after.log[i].instance) {
      assert i < n && Earned(t, t.log[i].instance);
    }
  }

  lemma FailKeeps(t: Tracker, task: TaskId, throws: bool)
    requires Inv(t)
    ensures Inv(Fail(t, task, throws).1)
  {
    hide Inv, InvBut, HasPending;
    if task == 0 {
    } else if throws && task !in t.batches {
      UnmadeBatch(t, Call(task, t.instances, false));
    } else {
      OpenKeeps(t, task);
      var ready := Open(t, task);
      FlagKeeps(ready, task, true, true);
      var failed := Flag(ready, task, true, true);
      LostKeepsPending(t.pending, task, task);
      if !HasPending(t.pending, task) { EndKeeps(failed, task, false); }
    }
  }

  lemma LostKeepsPending(pending: seq<Launch>, task: TaskId, x: TaskId)
    ensures HasPending(Lost(pending, task), x) <==> HasPending(pending, x)
  {
    if HasPending(pending, x) {
      var i :| 0 <= i < |pending| && pending[i].task == x;
      assert Lost(pending, task)[i].task == x;
    }
  }

  lemma PickKeeps(t: Tracker)
    requires Inv(t)
    ensures Inv(Pick(t)) && Inv(Unready(t)) && Inv(BeginStop(t))
  {
    hide LaunchesOk, BatchesOk, LogOk, MembersOk, CallsOk;
    MonitorMoves(t, Pick(t));
    MonitorMoves(t, Unready(t));
    MonitorMoves(t, BeginStop(t));
    var i := if t.nextIndex >= |t.pending| then 0 else t.nextIndex;
    if t.pending != [] { assert t.pending[i].(lost := t.pending[i].lost) == t.pending[i]; }
  }

  lemma MonitorMoves(t: Tracker, after: Tracker)
    requires Inv(t) && after == t.(monitor := after.monitor, nextIndex := after.nextIndex, stopping := after.stopping)
    ensures LaunchesOk(after) && BatchesOk(after) && LogOk(after) && MembersOk(after) && CallsOk(after)
  {
    SameLog(t, after);
    forall i | 0 <= i < |t.pending| ensures LaunchOk(after, after.pending[i]) { assert LaunchOk(t, t.pending[i]); }
    forall x | x in t.batches ensures BatchOk(after, x) { assert BatchOk(t, x); }
    forall s | s in after.members ensures MemberOk(after, s) {
      assert MemberOk(t, s);
      SameLive(t, after, t.members[s]);
      assert Waiting(t, s) <==> Waiting(after, s);
    }
    forall i | 0 <= i < |t.log| && t.log[i].complete ensures Earned(after, t.log[i].instance) {
      assert Earned(t, t.log[i].instance);
    }
  }

  /** Launch j leaves the list with its outcome. */
  ghost function Removed(t: Tracker, j: nat, ok: bool, index: nat): Tracker
    requires j < |t.pending|
  {
    t.(monitor := Resting, pending := Erased(t.pending, j), outcomes := t.outcomes[t.pending[j].sequence := ok],
      nextIndex := index)
  }

  lemma ErasedAt(pending: seq<Launch>, j: nat, i: nat)
    requires j < |pending| && i < |pending| - 1
    ensures Erased(pending, j)[i] == pending[if i < j then i else i + 1]
  {
  }

  lemma StillThere(pending: seq<Launch>, j: nat, i: nat)
    requires j < |pending| && i < |pending| && i != j
    ensures exists k :: 0 <= k < |Erased(pending, j)| && Erased(pending, j)[k] == pending[i]
  {
    var k := if i < j then i else i - 1;
    assert Erased(pending, j)[k] == pending[i];
  }

  lemma RemovedPending(t: Tracker, j: nat, ok: bool, index: nat, x: TaskId)
    requires j < |t.pending| && x != t.pending[j].task && HasPending(t.pending, x)
    ensures HasPending(Removed(t, j, ok, index).pending, x)
  {
    var i :| 0 <= i < |t.pending| && t.pending[i].task == x;
    StillThere(t.pending, j, i);
  }

  lemma RemovedLaunches(t: Tracker, j: nat, ok: bool, index: nat)
    requires LaunchesOk(t) && j < |t.pending|
    ensures LaunchesOk(Removed(t, j, ok, index))
  {
    var after := Removed(t, j, ok, index);
    forall i | 0 <= i < |after.pending| ensures LaunchOk(after, after.pending[i]) {
      ErasedAt(t.pending, j, i);
      assert LaunchOk(t, t.pending[if i < j then i else i + 1]);
    }
  }

  lemma RemovedMembers(t: Tracker, j: nat, ok: bool, index: nat)
    requires MembersOk(t) && j < |t.pending| && LaunchOk(t, t.pending[j]) && BatchOk(t, t.pending[j].task)
    requires ok || t.batches[t.pending[j].task].failed
    ensures MembersOk(Removed(t, j, ok, index))
  {
    var after := Removed(t, j, ok, index);
    forall s | s in after.members ensures MemberOk(after, s) {
      assert MemberOk(t, s);
      SameLive(t, after, t.members[s]);
      if Waiting(t, s) && s != t.pending[j].sequence {
        var i :| 0 <= i < |t.pending| && t.pending[i].sequence == s;
        StillThere(t.pending, j, i);
      }
    }
  }

  lemma RemovedCalls(t: Tracker, j: nat, ok: bool, index: nat)
    requires CallsOk(t) && LogOk(t) && j < |t.pending| && LaunchOk(t, t.pending[j])
    ensures CallsOk(Removed(t, j, ok, index))
  {
    var after := Removed(t, j, ok, index);
    forall i | 0 <= i < |t.log| && t.log[i].complete ensures Earned(after, t.log[i].instance) {
      assert Earned(t, t.log[i].instance);
      NotLive(t, i);
      assert t.batches[t.pending[j].task].instance != t.log[i].instance;
    }
  }

  lemma RemoveKeeps(t: Tracker, j: nat, ok: bool, index: nat)
    requires Inv(t) && j < |t.pending|
    requires t.pending[j].task in t.batches && (ok || t.batches[t.pending[j].task].failed)
    ensures InvBut(Removed(t, j, ok, index), {t.pending[j].task})
    ensures HasPending(Erased(t.pending, j), t.pending[j].task) || !t.batches[t.pending[j].task].closed ==>
              Inv(Removed(t, j, ok, index))
  {
    hide LaunchesOk, LogOk, MembersOk, CallsOk, HasPending, BatchOk, LaunchOk;
    var after := Removed(t, j, ok, index);
    LaunchAt(t, j);
    RemovedLaunches(t, j, ok, index);
    RemovedMembers(t, j, ok, index);
    RemovedCalls(t, j, ok, index);
    SameLog(t, after);
    RemovedBatches(t, j, ok, index);
  }

  lemma LaunchAt(t: Tracker, j: nat)
    requires LaunchesOk(t) && BatchesOk(t) && j < |t.pending|
    ensures LaunchOk(t, t.pending[j]) && t.pending[j].task in t.batches && BatchOk(t, t.pending[j].task)
  {
    assert LaunchOk(t, t.pending[j]);
  }

  lemma RemovedBatches(t: Tracker, j: nat, ok: bool, index: nat)
    requires BatchesOk(t) && j < |t.pending|
    ensures BatchesBut(Removed(t, j, ok, index), {t.pending[j].task})
  {
    var after := Removed(t, j, ok, index);
    forall x | x in t.batches ensures BatchOk(after, x) { assert BatchOk(t, x); }
    forall x | x in t.batches && x != t.pending[j].task && t.batches[x].closed ensures HasPending(after.pending, x) {
      RemovedPending(t, j, ok, index, x);
    }
  }

  /** The launch polled is pending, under its own batch: the fallback for a missing batch is never taken. */
  lemma PolledIsPending(t: Tracker) returns (j: nat)
    requires Inv(t) && t.monitor.Polling?
    ensures FindLaunch(t.pending, t.monitor.candidate, 0) == Some(j) && j < |t.pending|
    ensures var c := t.monitor.candidate;
            && t.pending[j].(lost := c.lost) == c && c.task in t.batches && t.batches[c.task].instance == c.instance
            && (c.lost ==> t.batches[c.task].failed)
  {
    var c := t.monitor.candidate;
    var i :| 0 <= i < |t.pending| && t.pending[i].(lost := c.lost) == c && (c.lost ==> t.pending[i].lost);
    assert LaunchOk(t, t.pending[i]);
    j := FindLaunch(t.pending, c, 0).value;
    assert j == i;
  }

  lemma LostErased(pending: seq<Launch>, j: nat, task: TaskId)
    requires j < |pending|
    ensures Lost(Erased(pending, j), task) == Erased(Lost(pending, task), j)
  {
  }

  /** Finalizing is judging, removing and perhaps ending. */
  lemma FinalizeIs(t: Tracker, success: bool, destroyed: bool, j: nat)
    requires t.monitor.Polling? && FindLaunch(t.pending, t.monitor.candidate, 0) == Some(j)
             && t.monitor.candidate.task in t.batches
    ensures var c := t.monitor.candidate;
            var good := success && destroyed && !c.lost;
            var rest := Erased(t.pending, j);
            var judged := if good then t else Flag(t, c.task, false, true);
            var removed := Removed(judged, j, success && destroyed, if rest == [] then 0 else j % |rest|);
            Finalize(t, success, destroyed).1 ==
              if t.batches[c.task].closed && !HasPending(rest, c.task)
                then End(removed, c.task, good && !t.batches[c.task].failed) else removed
  {
    LostErased(t.pending, j, t.monitor.candidate.task);
    hide HasPending;
  }

  lemma FinalizeKeeps(t: Tracker, success: bool, destroyed: bool)
    requires Inv(t)
    ensures Inv(Finalize(t, success, destroyed).1)
  {
    hide Inv, InvBut, HasPending, Finalize;
    if t.monitor.Polling? {
      var c := t.monitor.candidate;
      var j := PolledIsPending(t);
      FinalizeIs(t, success, destroyed, j);
      var good := success && destroyed && !c.lost;
      var rest := Erased(t.pending, j);
      FlagKeepsInv(t, c.task);
      var judged := if good then t else Flag(t, c.task, false, true);
      RemoveKeeps(judged, j, success && destroyed, if rest == [] then 0 else j % |rest|);
      LostErased(t.pending, j, c.task);
      LostKeepsPending(rest, c.task, c.task);
      if t.batches[c.task].closed && !HasPending(rest, c.task) {
        EndKeeps(Removed(judged, j, success && destroyed, if rest == [] then 0 else j % |rest|), c.task,
                 good && !t.batches[c.task].failed);
      }
    } else {
      NothingPolled(t, success, destroyed);
    }
  }

  lemma NothingPolled(t: Tracker, success: bool, destroyed: bool)
    requires !t.monitor.Polling?
    ensures Finalize(t, success, destroyed).1 == t
  {
  }

  /** Failing a batch that has a pending launch. */
  lemma FlagKeepsInv(t: Tracker, task: TaskId)
    requires Inv(t) && t.monitor.Polling? && task == t.monitor.candidate.task && task in t.batches
    ensures Inv(Flag(t, task, false, true))
  {
    var j := PolledIsPending(t);
    assert HasPending(t.pending, task);
    hide Inv, InvBut;
    FlagKeeps(t, task, false, true);
  }

  // Sweeping up

  /** Between clearing the pending launches and failing the last batch. */
  ghost predicate Sweeping(t: Tracker) {
    && t.pending == [] && t.monitor.Resting? && LogOk(t) && CallsOk(t) && DistinctBatches(t)
    && forall s | s in t.members ::
         && s < t.nextSequence && t.members[s] < t.instances
         && (s in t.outcomes && !t.outcomes[s] ==> t.members[s] in t.spoiled)
  }

  lemma EndSweeping(t: Tracker, task: TaskId)
    requires Sweeping(t) && task in t.batches
    ensures Sweeping(End(t, task, false))
  {
    var after := End(t, task, false);
    EndLog(t, task, false);
    EndCalls(t, task, false);
    hide LogOk, CallsOk;
    forall x | x in after.batches ensures BatchOk(after, x) { assert BatchOk(t, x); }
  }

  lemma {:induction false} FailAllKeeps(t: Tracker, tasks: seq<TaskId>)
    requires Sweeping(t)
    ensures Sweeping(FailAll(t, tasks))
    ensures forall x | x in FailAll(t, tasks).batches :: x in t.batches && x !in tasks
    ensures FailAll(t, tasks).outcomes == t.outcomes && FailAll(t, tasks).nextSequence == t.nextSequence
    ensures FailAll(t, tasks).stopping == t.stopping
    decreases |tasks|
  {
    hide Sweeping;
    if tasks != [] {
      if tasks[0] in t.batches { EndSweeping(t, tasks[0]); }
      FailAllKeeps(if tasks[0] in t.batches then End(t, tasks[0], false) else t, tasks[1..]);
    }
  }

  lemma SweptIsInv(t: Tracker)
    requires Sweeping(t) && t.batches == map[]
    ensures Inv(t)
  {
    hide LogOk, CallsOk;
    forall s | s in t.members ensures MemberOk(t, s) {
      assert !Live(t, t.members[s]);
    }
  }

  lemma SweepBegins(t: Tracker)
    requires Inv(t) && t.monitor.Resting?
    ensures Sweeping(t.(pending := [], nextIndex := 0))
  {
    var after := t.(pending := [], nextIndex := 0);
    SameLog(t, after);
    forall x | x in t.batches ensures BatchOk(after, x) { assert BatchOk(t, x); }
    forall i | 0 <= i < |t.log| && t.log[i].complete ensures Earned(after, t.log[i].instance) {
      assert Earned(t, t.log[i].instance);
    }
    forall s | s in t.members
      ensures s < t.nextSequence && t.members[s] < t.instances
              && (s in t.outcomes && !t.outcomes[s] ==> t.members[s] in t.spoiled)
    {
      assert MemberOk(t, s);
    }
  }

  lemma SweepKeeps(t: Tracker, tasks: seq<TaskId>)
    requires Inv(t)
    ensures Inv(Sweep(t, tasks))
    ensures t.stopping && t.monitor.Resting? && (forall task | task in t.batches :: task in tasks) ==>
              Sweep(t, tasks).batches == map[]
  {
    hide Inv, Sweeping;
    if t.stopping && t.monitor.Resting? && (forall task | task in t.batches :: task in tasks) {
      SweepBegins(t);
      FailAllKeeps(t.(pending := [], nextIndex := 0), tasks);
      var after := Sweep(t, tasks);
      assert after.batches.Keys == {};
      SweptIsInv(after);
    }
  }

  // ---------------------------------------------------------------------------
  // Runs

  ghost predicate Sound(t: Tracker) {
    Inv(t) && OutcomesOk(t)
  }

  lemma NextOutcomes(t: Tracker, e: Event)
    requires Inv(t) && OutcomesOk(t)
    ensures OutcomesOk(Next(t, e))
  {
    hide Inv, Finalize, Sweep;
    match e
    case FinalizeEvent(success, destroyed) => FinalizeOutcomes(t, success, destroyed);
    case SweepEvent(tasks) => SweepOutcomes(t, tasks);
    case _ =>
  }

  lemma FinalizeOutcomes(t: Tracker, success: bool, destroyed: bool)
    requires Inv(t) && OutcomesOk(t)
    ensures OutcomesOk(Finalize(t, success, destroyed).1)
  {
    hide LaunchesOk, BatchesOk, LogOk, MembersOk, CallsOk, MonitorOk, HasPending, FindLaunch;
    if t.monitor.Polling? {
      var j := PolledIsPending(t);
      LaunchAt(t, j);
    }
  }

  lemma SweepOutcomes(t: Tracker, tasks: seq<TaskId>)
    requires Inv(t) && OutcomesOk(t)
    ensures OutcomesOk(Sweep(t, tasks))
  {
    hide Inv, FailAll, Sweeping;
    if t.monitor.Resting? {
      SweepBegins(t);
      FailAllKeeps(t.(pending := [], nextIndex := 0), tasks);
    }
  }

  lemma NextSound(t: Tracker, e: Event)
    requires Sound(t)
    ensures Sound(Next(t, e))
  {
    hide Inv, OutcomesOk, Track, CloseBatch, Fail, Pick, Unready, Finalize, BeginStop, Sweep;
    NextOutcomes(t, e);
    match e
    case TrackEvent(task, fault) => TrackKeeps(t, task, fault);
    case CloseEvent(task) => CloseKeeps(t, task);
    case FailEvent(task, throws) => FailKeeps(t, task, throws);
    case PickEvent => PickKeeps(t);
    case UnreadyEvent => PickKeeps(t);
    case FinalizeEvent(success, destroyed) => FinalizeKeeps(t, success, destroyed);
    case StopEvent => PickKeeps(t);
    case SweepEvent(tasks) => SweepKeeps(t, tasks);
  }

  ghost predicate Stepped(t: Tracker, e: Event, after: Tracker) {
    after == Next(t, e)
  }

  ghost predicate IsRun(ts: seq<Tracker>, es: seq<Event>) {
    && |ts| == |es| + 1 && Sound(ts[0])
    && forall i | 0 <= i < |es| :: Stepped(ts[i], es[i], ts[i + 1])
  }

  lemma {:induction false} RunSound(ts: seq<Tracker>, es: seq<Event>, i: nat)
    requires IsRun(ts, es) && i <= |es|
    ensures Sound(ts[i])
  {
    hide Sound, Next;
    if i > 0 {
      RunSound(ts, es, i - 1);
      assert Stepped(ts[i - 1], es[i - 1], ts[i]);
      NextSound(ts[i - 1], es[i - 1]);
    }
  }

  function Empty(): Tracker {
    Tracker([], map[], 0, 1, false, Resting, 0, [], map[], map[], {}, {})
  }

  lemma EmptySound()
    ensures Sound(Empty())
  {
  }

  /** Number of gate calls made for a batch. */
  ghost function Calls(log: seq<Call>, k: nat): nat {
    if log == [] then 0 else Calls(log[..|log| - 1], k) + (if log[|log| - 1].instance == k then 1 else 0)
  }

  lemma {:induction false} CallsCounted(log: seq<Call>, k: nat)
    requires forall i, j | 0 <= i < j < |log| :: log[i].instance != log[j].instance
    ensures Calls(log, k) == if exists i | 0 <= i < |log| :: log[i].instance == k then 1 else 0
  {
    if log != [] {
      var n := |log| - 1;
      CallsCounted(log[..n], k);
      if exists i | 0 <= i < n :: log[i].instance == k {
        var i :| 0 <= i < n && log[i].instance == k;
        assert log[..n][i].instance == k;
      }
      if log[n].instance == k { assert log[n].instance == k; }
    }
  }

  /** In every reachable state every batch ever opened is still in the map with no gate call made for it, or
      is gone and has had exactly one. */
  lemma ExactlyOneCall(ts: seq<Tracker>, es: seq<Event>, i: nat, k: nat)
    requires IsRun(ts, es) && i <= |es| && k < ts[i].instances
    ensures Calls(ts[i].log, k) == if Live(ts[i], k) then 0 else 1
  {
    RunSound(ts, es, i);
    var t := ts[i];
    hide IsRun, LaunchesOk, BatchesOk, MembersOk, CallsOk, MonitorOk;
    CallsCounted(t.log, k);
    assert Live(t, k) || Called(t, k);
  }

  /** Success is reported only for a batch that was closed, in which nothing was lost or failed, and all of
      whose events were seen to succeed and were destroyed. */
  lemma CompleteIsEarned(ts: seq<Tracker>, es: seq<Event>, i: nat, n: nat)
    requires IsRun(ts, es) && i <= |es| && n < |ts[i].log| && ts[i].log[n].complete
    ensures Earned(ts[i], ts[i].log[n].instance)
  {
    RunSound(ts, es, i);
  }

  /** A pending launch has a batch, and a closed batch in the map has a pending launch. */
  lemma PendingAndBatches(ts: seq<Tracker>, es: seq<Event>, i: nat, j: nat, task: TaskId)
    requires IsRun(ts, es) && i <= |es|
    ensures j < |ts[i].pending| ==> ts[i].pending[j].task in ts[i].batches
    ensures task in ts[i].batches && ts[i].batches[task].closed ==> HasPending(ts[i].pending, task)
  {
    RunSound(ts, es, i);
    hide IsRun;
    if j < |ts[i].pending| { assert LaunchOk(ts[i], ts[i].pending[j]); }
  }

  /** After stopping, every batch has had its call. */
  lemma StopAnswersAll(t: Tracker, tasks: seq<TaskId>, k: nat)
    requires Sound(t) && t.stopping && t.monitor.Resting? && (forall task | task in t.batches :: task in tasks)
    requires k < Sweep(t, tasks).instances
    ensures Sweep(t, tasks).batches == map[] && Sweep(t, tasks).pending == [] && Calls(Sweep(t, tasks).log, k) == 1
  {
    SweepKeeps(t, tasks);
    var after := Sweep(t, tasks);
    SweepBegins(t);
    FailAllKeeps(t.(pending := [], nextIndex := 0), tasks);
    hide LaunchesOk, BatchesOk, MembersOk, CallsOk, MonitorOk;
    CallsCounted(after.log, k);
    assert Live(after, k) || Called(after, k);
  }
}
