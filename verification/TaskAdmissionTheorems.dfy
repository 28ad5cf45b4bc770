/** Leases and task states agree in every run through the service, and only the submitter can use a lease. */
module TaskAdmissionTheorems {
  import opened Common
  import opened SchedulerModel
  import SchedulerSteps
  import opened SchedulerInvariant
  import SchedulerPeek
  import SchedulerPriority
  import SchedulerRuns
  import opened TaskAdmissionModel

  ghost function Status(s: State, id: TaskId): Option<TaskState> {
    if id in s.tasks then Some(s.tasks[id].state) else None
  }

  /** Only this task's state changed. */
  ghost predicate OneMoved(s: State, after: State, id: TaskId, from: Option<TaskState>, to: TaskState) {
    && Status(s, id) == from && Status(after, id) == Some(to)
    && forall x: TaskId | x != id :: Status(after, x) == Status(s, x)
  }

  ghost predicate NoneMoved(s: State, after: State) {
    forall x: TaskId :: Status(after, x) == Status(s, x)
  }

  // ---------------------------------------------------------------------------
  // What the scheduler's operations do to task states

  lemma SubmitMoves(s: State, spec: TaskSpec, fault: SchedulerSteps.SubmitFault)
    requires Inv(s)
    ensures var (r, after) := SchedulerSteps.Submit(s, spec, fault);
            && Inv(after)
            && (r.status == SchedulerSteps.Accepted ==> OneMoved(s, after, r.id, None, Queued))
            && (r.status != SchedulerSteps.Accepted ==> after == s)
  {
    hide Inv;
    SubmitKeeps(s, spec, fault);
    KnownFresh(s);
    hide SchedulerSteps.Reserve, SchedulerSteps.Enqueue;
  }

  lemma FinishMoves(s: State, id: TaskId, terminal: TaskState)
    requires Inv(s) && SchedulerSteps.Terminal(terminal)
    ensures var (ok, after) := SchedulerSteps.FinishRunning(s, id, terminal);
            && Inv(after) && (ok <==> Status(s, id) == Some(Running))
            && (if ok then OneMoved(s, after, id, Some(Running), terminal) else after == s)
  {
    hide Inv;
    FinishKeeps(s, id, terminal);
    hide SchedulerSteps.Release, Without;
  }

  lemma CancelQueuedMoves(s: State, id: TaskId)
    requires Inv(s)
    ensures var (ok, after) := SchedulerSteps.CancelQueued(s, id);
            && Inv(after) && (ok <==> Status(s, id) == Some(Queued))
            && (if ok then OneMoved(s, after, id, Some(Queued), Cancelled) else after == s)
  {
    hide Inv;
    CancelQueuedKeeps(s, id);
    hide SchedulerSteps.Release, SchedulerSteps.Cancel, Remove;
  }

  lemma CancelMoves(s: State, id: TaskId)
    requires Inv(s)
    ensures var (ok, after) := SchedulerSteps.CancelTask(s, id);
            && Inv(after) && (ok <==> Status(s, id) == Some(Queued) || Status(s, id) == Some(Running))
            && (if ok then OneMoved(s, after, id, Status(s, id), Cancelled) else after == s)
  {
    CancelQueuedMoves(s, id);
    FinishMoves(s, id, Cancelled);
    hide Inv, SchedulerSteps.CancelQueued, SchedulerSteps.FinishRunning, OneMoved;
  }

  /** A selected task ends Running, or Failed when an allocation fails. */
  lemma SelectedMoves(s: State, fault: SchedulerSteps.DispatchFault)
    requires Inv(s) && |s.running| < s.config.maxRunning
    ensures var (id, selected) := SchedulerSteps.SelectStep(s);
            if id.None? then Inv(selected) && NoneMoved(s, selected)
            else
              var (d, after) := SchedulerSteps.DispatchSelected(selected, id.value, fault);
              && Inv(after) && (d.Some? ==> d.value.id == id.value)
              && OneMoved(s, after, id.value, Some(Queued), if d.Some? then Running else Failed)
  {
    hide Inv, SchedulerSteps.DispatchSelected, Select, OneMoved;
    SchedulerRuns.DispatchSelectedKeeps(s, fault);
    var (id, selected) := SchedulerSteps.SelectStep(s);
    if id.Some? {
      SelectedIsLive(s);
      DispatchedStatus(selected, id.value, fault);
      MovedAsIf(s, selected, SchedulerSteps.DispatchSelected(selected, id.value, fault).1, id.value);
    }
  }

  lemma MovedAsIf(s: State, same: State, after: State, id: TaskId)
    requires same.tasks == s.tasks
    ensures forall from, to :: OneMoved(same, after, id, from, to) ==> OneMoved(s, after, id, from, to)
  {
  }

  lemma SelectedIsLive(s: State)
    requires Inv(s) && SchedulerSteps.SelectStep(s).0.Some?
    ensures var id := SchedulerSteps.SelectStep(s).0.value;
            Live(s.tasks, id) && s.tasks[id].reservation.Some?
  {
    assert RingOk(s.ring) && QueuesOk(s.tasks, s.ring);
    hide Inv, RingOk, QueuesOk, Select;
    SchedulerRuns.SelectTakes(s);
    Known(s, SchedulerSteps.SelectStep(s).0.value);
  }

  lemma DispatchedStatus(s: State, id: TaskId, fault: SchedulerSteps.DispatchFault)
    requires Live(s.tasks, id) && s.tasks[id].reservation.Some?
    ensures var (d, after) := SchedulerSteps.DispatchSelected(s, id, fault);
            (d.Some? ==> d.value.id == id) && OneMoved(s, after, id, Some(Queued), if d.Some? then Running else Failed)
  {
    hide SchedulerSteps.Commit, SchedulerSteps.Cancel, SchedulerSteps.Release;
  }

  /** The selection a dispatch goes through, if it gets that far. */
  ghost predicate Reaches(s: State, wanted: Option<TaskId>)
    requires InRing(s.ring)
  {
    SchedulerSteps.MayDispatch(s) && (wanted.Some? ==>
        wanted.value != 0 && Live(s.tasks, wanted.value) && SchedulerSteps.SelectStep(s).0 == wanted)
  }

  /** The task lost to an allocation failure. */
  ghost predicate Loses(s: State, wanted: Option<TaskId>, fault: SchedulerSteps.DispatchFault, id: TaskId)
    requires InRing(s.ring)
  {
    && Reaches(s, wanted) && SchedulerSteps.SelectStep(s).0 == Some(id)
    && SchedulerSteps.DispatchSelected(SchedulerSteps.SelectStep(s).1, id, fault).0.None?
  }

  ghost predicate DispatchMoves(s: State, wanted: Option<TaskId>, fault: SchedulerSteps.DispatchFault,
    d: Option<Snapshot>, after: State)
    requires InRing(s.ring)
  {
    && Inv(after)
    && (d.Some? ==>
          OneMoved(s, after, d.value.id, Some(Queued), Running) && (wanted.Some? ==> d.value.id == wanted.value)
                    && forall id :: !Loses(s, wanted, fault, id))
    && (d.None? ==> (NoneMoved(s, after) && forall id :: !Loses(s, wanted, fault, id))
                    || exists id :: Loses(s, wanted, fault, id) && OneMoved(s, after, id, Some(Queued), Failed))
  }

  lemma RoomToRun(s: State)
    requires InRing(s.ring) && SchedulerSteps.MayDispatch(s)
    ensures |s.running| < s.config.maxRunning
  {
  }

  lemma DispatchNextMoves(s: State, fault: SchedulerSteps.DispatchFault)
    requires Inv(s) && InRing(s.ring)
    ensures var (d, after) := SchedulerSteps.DispatchNext(s, fault);
            DispatchMoves(s, None, fault, d, after)
  {
    hide Inv, SchedulerSteps.MayDispatch, SchedulerSteps.SelectStep, SchedulerSteps.DispatchSelected, OneMoved;
    if SchedulerSteps.MayDispatch(s) {
      RoomToRun(s);
      SelectedMoves(s, fault);
      var (id, selected) := SchedulerSteps.SelectStep(s);
      if id.Some? {
        var (d, after) := SchedulerSteps.DispatchSelected(selected, id.value, fault);
        assert d.None? ==> Loses(s, None, fault, id.value);
      }
    }
  }

  /** Dispatching by id goes through with the selection exactly when it reaches it. */
  lemma DispatchTaskIs(s: State, wanted: TaskId, fault: SchedulerSteps.DispatchFault)
    requires Inv(s) && InRing(s.ring)
    ensures var (id, selected) := SchedulerSteps.SelectStep(s);
            if Reaches(s, Some(wanted)) then SchedulerSteps.DispatchTask(s, wanted, fault)
              == SchedulerSteps.DispatchSelected(selected, wanted, fault)
            else SchedulerSteps.DispatchTask(s, wanted, fault) == (None, s)
                 || (SchedulerSteps.MayDispatch(s) && id.None?
                   && SchedulerSteps.DispatchTask(s, wanted, fault) == (None, selected))
  {
    KnownRing(s);
    hide Inv, SchedulerSteps.MayDispatch, Select, Peek, SchedulerSteps.DispatchSelected, InRing;
    SchedulerPeek.PeekRefinesSelect(s.config.policy, s.tasks, s.ring);
  }

  lemma DispatchTaskMoves(s: State, wanted: TaskId, fault: SchedulerSteps.DispatchFault)
    requires Inv(s) && InRing(s.ring)
    ensures var (d, after) := SchedulerSteps.DispatchTask(s, wanted, fault);
            DispatchMoves(s, Some(wanted), fault, d, after)
  {
    hide Inv, SchedulerSteps.MayDispatch, SchedulerSteps.SelectStep, SchedulerSteps.DispatchSelected,
      SchedulerSteps.DispatchTask, OneMoved, NoneMoved, InRing;
    DispatchTaskIs(s, wanted, fault);
    StaysPut(s);
    if SchedulerSteps.MayDispatch(s) {
      RoomToRun(s);
      SelectedMoves(s, fault);
    }
    if Reaches(s, Some(wanted)) {
      var d := SchedulerSteps.DispatchTask(s, wanted, fault).0;
      assert d.None? ==> Loses(s, Some(wanted), fault, wanted);
    }
  }

  lemma StaysPut(s: State)
    ensures NoneMoved(s, s)
  {
  }

  // ---------------------------------------------------------------------------
  // The service's invariant

  /** A running task has an active lease and nothing else does; a waiting task has a pending lease, and the
      only other tasks that keep one are those a failed dispatch ended. */
  ghost predicate LeaseOk(v: Service, id: TaskId) {
    && (id in v.active <==> Status(v.scheduler, id) == Some(Running))
    && (id in v.pending <==> Status(v.scheduler, id) == Some(Queued) || id in v.lost)
    && (id in v.lost ==> Status(v.scheduler, id) == Some(Failed))
  }

  ghost predicate LeaseOwned(v: Service, id: TaskId, lease: Lease) {
    && !lease.reaping
    && (v.bound ==> id in v.submitters && lease.owner == v.submitters[id] && ValidPeer(lease.owner))
  }

  ghost predicate Owned(v: Service, id: TaskId) {
    && (id in v.pending ==> LeaseOwned(v, id, v.pending[id]))
    && (id in v.active ==> LeaseOwned(v, id, v.active[id]))
  }

  ghost predicate Agrees(v: Service) {
    if Tracks(v) then forall id: TaskId :: LeaseOk(v, id) && Owned(v, id)
    else v.pending == map[] && v.active == map[]
  }

  ghost predicate Sound(v: Service) {
    Inv(v.scheduler) && Agrees(v)
  }

  ghost predicate SameSettings(v: Service, after: Service) {
    after.bound == v.bound && after.timeout == v.timeout && after.observed == v.observed
  }

  /** Nothing about the other tasks changed. */
  ghost predicate OthersKept(v: Service, after: Service, id: TaskId) {
    forall x: TaskId | x != id ::
      && Status(after.scheduler, x) == Status(v.scheduler, x)
      && (x in after.pending <==> x in v.pending) && (x in v.pending ==> after.pending[x] == v.pending[x])
      && (x in after.active <==> x in v.active) && (x in v.active ==> after.active[x] == v.active[x])
      && (x in after.lost <==> x in v.lost)
      && (x in v.submitters ==> x in after.submitters && after.submitters[x] == v.submitters[x])
  }

  lemma OneLease(v: Service, after: Service, id: TaskId)
    requires Agrees(v) && Tracks(v) && SameSettings(v, after) && OthersKept(v, after, id) && LeaseOk(after, id)
             && Owned(after, id)
    ensures Agrees(after)
  {
    forall x: TaskId ensures LeaseOk(after, x) && Owned(after, x) {
      assert LeaseOk(v, x) && Owned(v, x);
    }
  }

  lemma LeaseAt(v: Service, id: TaskId)
    requires Agrees(v) && Tracks(v)
    ensures LeaseOk(v, id) && Owned(v, id)
  {
  }

  // ---------------------------------------------------------------------------
  // Preservation

  lemma SubmitSound(v: Service, spec: TaskSpec, registrar: Option<bool>, fault: SchedulerSteps.SubmitFault,
    recordFault: bool, peer: Option<Peer>, now: nat)
    requires Sound(v)
    ensures Sound(SubmitRequest(v, spec, registrar, fault, recordFault, peer, now).1)
  {
    hide Inv, Agrees, SchedulerSteps.Submit, SchedulerSteps.CancelTask, OneMoved, LeaseOk, Owned;
    var after := SubmitRequest(v, spec, registrar, fault, recordFault, peer, now).1;
    SubmitMoves(v.scheduler, spec, fault);
    var (r, sched) := SchedulerSteps.Submit(v.scheduler, spec, fault);
    if r.status == SchedulerSteps.Accepted {
      StatusMoved(v.scheduler, sched, r.id, None, Queued);
      CancelMoves(sched, r.id);
      if registrar.None? || (v.bound && !ValidPeer(peer)) {
      } else if !Tracks(v) {
        Untracked(v, after);
      } else if !registrar.value || recordFault || r.id in v.pending {
        LeaseAt(v, r.id);
        CancelledNew(v, sched, after, r.id);
      } else {
        LeaseAt(v, r.id);
        PendingNew(v, after, r.id);
      }
    } else {
      Untracked(v, after);
    }
  }

  lemma StatusMoved(s: State, after: State, id: TaskId, from: Option<TaskState>, to: TaskState)
    requires OneMoved(s, after, id, from, to)
    ensures Status(after, id) == Some(to)
  {
  }

  lemma CancelledNew(v: Service, sched: State, after: Service, id: TaskId)
    requires Agrees(v) && Tracks(v) && after == v.(scheduler := after.scheduler) && LeaseOk(v, id) && Owned(v, id)
    requires OneMoved(v.scheduler, sched, id, None, Queued)
             && OneMoved(sched, after.scheduler, id, Status(sched, id), Cancelled)
    ensures Agrees(after)
  {
    hide Agrees;
    OneLease(v, after, id);
  }

  lemma PendingNew(v: Service, after: Service, id: TaskId)
    requires Agrees(v) && Tracks(v) && OneMoved(v.scheduler, after.scheduler, id, None, Queued) && LeaseOk(v, id)
             && Owned(v, id)
    requires id in after.pending && id in after.submitters
    requires after == v.(scheduler := after.scheduler, pending := v.pending[id := after.pending[id]],
             submitters := v.submitters[id := after.submitters[id]])
    requires LeaseOwned(after, id, after.pending[id])
    ensures Agrees(after)
  {
    hide Agrees, LeaseOwned;
    OneLease(v, after, id);
  }

  lemma Untracked(v: Service, after: Service)
    requires Agrees(v) && SameSettings(v, after)
    requires (!Tracks(v) && after.pending == v.pending && after.active == v.active) || after == v
    ensures Agrees(after)
  {
  }

  /** A live task ends: its leases, and no others, are dropped. */
  lemma EndedSound(v: Service, after: Service, id: TaskId, to: TaskState)
    requires Agrees(v) && SchedulerSteps.Terminal(to)
             && OneMoved(v.scheduler, after.scheduler, id, Status(v.scheduler, id), to)
    requires Status(v.scheduler, id) == Some(Queued) || Status(v.scheduler, id) == Some(Running)
    requires after == v.(scheduler := after.scheduler, pending := after.pending, active := after.active)
    requires after.pending == v.pending - {id}
             || (Status(v.scheduler, id) == Some(Running) && after.pending == v.pending)
    requires after.active == v.active - {id} || (Status(v.scheduler, id) == Some(Queued) && after.active == v.active)
    ensures Agrees(after)
  {
    if Tracks(v) {
      hide Agrees;
      LeaseAt(v, id);
      OneLease(v, after, id);
    } else {
      Leaseless(v);
    }
  }

  lemma CancelSound(v: Service, id: TaskId)
    requires Sound(v)
    ensures Sound(CancelAny(v, id).1) && Sound(CancelWaiting(v, id).1)
  {
    hide Inv, Agrees, SchedulerSteps.CancelQueued, SchedulerSteps.CancelTask, OneMoved;
    CancelMoves(v.scheduler, id);
    CancelQueuedMoves(v.scheduler, id);
    if CancelAny(v, id).0 { EndedSound(v, CancelAny(v, id).1, id, Cancelled); }
    if CancelWaiting(v, id).0 { EndedSound(v, CancelWaiting(v, id).1, id, Cancelled); }
  }

  lemma Leaseless(v: Service)
    requires Agrees(v) && !Tracks(v)
    ensures v.pending == map[] && v.active == map[]
  {
  }

  lemma FinishSound(v: Service, id: TaskId, peer: Option<Peer>, terminal: TaskState)
    requires Sound(v) && SchedulerSteps.Terminal(terminal)
    ensures Sound(Finish(v, id, peer, terminal).1)
  {
    hide Inv, Agrees, SchedulerSteps.FinishRunning, OneMoved;
    FinishMoves(v.scheduler, id, terminal);
    if Finish(v, id, peer, terminal).0 { EndedSound(v, Finish(v, id, peer, terminal).1, id, terminal); }
  }

  lemma HeartbeatSound(v: Service, id: TaskId, peer: Option<Peer>, now: nat)
    requires Sound(v)
    ensures Sound(Heartbeat(v, id, peer, now).1)
  {
    hide Inv, Agrees;
    var after := Heartbeat(v, id, peer, now).1;
    if after != v {
      LeaseAt(v, id);
      OneLease(v, after, id);
    }
  }

  /** A new deadline for one lease changes nothing else. */
  lemma RenewedSound(v: Service, after: Service, id: TaskId, deadline: Option<nat>)
    requires Agrees(v)
    requires (id in v.pending && after == v.(pending := v.pending[id := v.pending[id].(deadline := deadline)]))
             || (id in v.active && after == v.(active := v.active[id := v.active[id].(deadline := deadline)]))
    ensures Agrees(after)
  {
    if Tracks(v) {
      hide Agrees;
      LeaseAt(v, id);
      OneLease(v, after, id);
    }
  }

  lemma ReapSound(v: Service, now: nat, pick: TaskId)
    requires Sound(v)
    ensures Sound(Reap(v, now, pick).1)
  {
    hide Inv, Agrees, SchedulerSteps.CancelQueued, SchedulerSteps.FinishRunning, AnyExpired, OneMoved;
    var (ok, after) := Reap(v, now, pick);
    CancelQueuedMoves(v.scheduler, pick);
    FinishMoves(v.scheduler, pick, Failed);
    if after == v {
    } else if ok {
      EndedSound(v, after, pick, if Expired(v.pending, pick, now) then Cancelled else Failed);
    } else if Expired(v.pending, pick, now) {
      RenewedSound(v, after, pick, Deadline(v, now));
    } else {
      LeaseAt(v, pick);
    }
  }

  /** Recording the lease of a task that was just dispatched. */
  lemma RecordSound(v: Service, sched: State, d: Snapshot, peer: Option<Peer>, now: nat, recordFault: bool)
    requires Sound(v) && Inv(sched) && OneMoved(v.scheduler, sched, d.id, Some(Queued), Running)
    requires v.bound ==> PendingOwnerMatches(v, d.id, peer)
    ensures Sound(RecordLease(v.(scheduler := sched), Some(d), peer, now, recordFault).1)
  {
    var after := RecordLease(v.(scheduler := sched), Some(d), peer, now, recordFault).1;
    hide Inv, Agrees, SchedulerSteps.FinishRunning;
    FinishMoves(sched, d.id, Failed);
    if Tracks(v) {
      LeaseAt(v, d.id);
      OneLease(v, after, d.id);
    } else {
      Untracked(v, after);
    }
  }

  /** A failed dispatch leaves the pending lease of the task it lost. */
  lemma LostSound(v: Service, sched: State, id: TaskId)
    requires Sound(v) && Inv(sched) && OneMoved(v.scheduler, sched, id, Some(Queued), Failed)
    ensures Sound(v.(scheduler := sched, lost := v.lost + {id}))
  {
    hide Inv, Agrees;
    var after := v.(scheduler := sched, lost := v.lost + {id});
    if Tracks(v) {
      LeaseAt(v, id);
      OneLease(v, after, id);
    } else {
      Untracked(v, after);
    }
  }

  lemma FailedStatus(s: State, after: State, x: TaskId)
    ensures x in FailedBetween(s, after) <==> Status(s, x) == Some(Queued) && Status(after, x) == Some(Failed)
  {
  }

  lemma FailedOne(s: State, after: State, id: TaskId)
    requires OneMoved(s, after, id, Some(Queued), Failed)
    ensures FailedBetween(s, after) == {id}
  {
    hide FailedBetween;
    forall x: TaskId ensures x in FailedBetween(s, after) <==> x == id {
      FailedStatus(s, after, x);
    }
  }

  lemma FailedNone(s: State, after: State)
    requires NoneMoved(s, after) || exists id :: OneMoved(s, after, id, Some(Queued), Running)
    ensures FailedBetween(s, after) == {}
  {
    hide FailedBetween;
    forall x: TaskId ensures x !in FailedBetween(s, after) {
      FailedStatus(s, after, x);
    }
  }

  lemma SameSound(v: Service, sched: State)
    requires Sound(v) && Inv(sched) && NoneMoved(v.scheduler, sched)
    ensures Sound(v.(scheduler := sched))
  {
    hide Inv;
    if Tracks(v) {
      forall x: TaskId ensures LeaseOk(v.(scheduler := sched), x) && Owned(v.(scheduler := sched), x) {
        assert LeaseOk(v, x) && Owned(v, x);
      }
    }
  }

  lemma DispatchSound(v: Service, wanted: Option<TaskId>, fault: SchedulerSteps.DispatchFault, d: Option<Snapshot>,
    sched: State, peer: Option<Peer>, now: nat, recordFault: bool)
    requires Sound(v) && InRing(v.scheduler.ring) && DispatchMoves(v.scheduler, wanted, fault, d, sched)
    requires v.bound ==> wanted.Some? && PendingOwnerMatches(v, wanted.value, peer)
    ensures Sound(RecordLease(v.(scheduler := sched, lost := v.lost + FailedBetween(v.scheduler, sched)), d, peer, now,
            recordFault).1)
  {
    hide Inv, Agrees, OneMoved, NoneMoved, PendingOwnerMatches, Loses, InRing, Sound, FailedBetween;
    if d.Some? {
      FailedNone(v.scheduler, sched);
      assert v.lost + {} == v.lost;
      assert v.(scheduler := sched, lost := v.lost) == v.(scheduler := sched);
      RecordSound(v, sched, d.value, peer, now, recordFault);
    } else if NoneMoved(v.scheduler, sched) {
      FailedNone(v.scheduler, sched);
      assert v.lost + {} == v.lost;
      SameSound(v, sched);
    } else {
      var id :| Loses(v.scheduler, wanted, fault, id) && OneMoved(v.scheduler, sched, id, Some(Queued), Failed);
      FailedOne(v.scheduler, sched, id);
      LostSound(v, sched, id);
    }
  }

  lemma ClaimSound(v: Service, e: Event)
    requires Sound(v) && (e.ClaimEvent? || e.ClaimNextEvent?) && InRing(v.scheduler.ring)
    ensures Sound(Next(v, e))
  {
    hide Inv, Agrees, SchedulerSteps.DispatchNext, SchedulerSteps.DispatchTask, RecordLease, DispatchMoves, InRing,
      PendingOwnerMatches, FailedBetween;
    if e.ClaimNextEvent? {
      if !v.bound {
        var (d, sched) := SchedulerSteps.DispatchNext(v.scheduler, e.fault);
        DispatchNextMoves(v.scheduler, e.fault);
        DispatchSound(v, None, e.fault, d, sched, e.peer, e.now, e.recordFault);
      }
    } else {
      var (d, sched) := SchedulerSteps.DispatchTask(v.scheduler, e.id, e.fault);
      DispatchTaskMoves(v.scheduler, e.id, e.fault);
      if PendingOwnerMatches(v, e.id, e.peer) {
        DispatchSound(v, Some(e.id), e.fault, d, sched, e.peer, e.now, e.recordFault);
      } else {
        assert Next(v, e) == v by { Unmatched(v, e.id, e.peer); }
      }
    }
  }

  lemma Unmatched(v: Service, id: TaskId, peer: Option<Peer>)
    ensures !PendingOwnerMatches(v, id, peer) ==> v.bound
  {
  }

  /** In every state of every run through the service, leases and task states agree. */
  lemma NextSound(v: Service, e: Event)
    requires Sound(v) && InRing(v.scheduler.ring)
    ensures Sound(Next(v, e))
  {
    hide Sound, InRing, ClaimNext, Claim, SubmitRequest, CancelAny, CancelWaiting, Heartbeat, Finish, Reap;
    match e
    case SubmitEvent(spec, registrar, fault, recordFault, peer, now) =>
      SubmitSound(v, spec, registrar, fault, recordFault, peer, now);
    case CancelEvent(id) => CancelSound(v, id);
    case CancelQueuedEvent(id) => CancelSound(v, id);
    case ClaimNextEvent(_, _, _, _) => ClaimSound(v, e);
    case ClaimEvent(_, _, _, _, _) => ClaimSound(v, e);
    case HeartbeatEvent(id, peer, now) => HeartbeatSound(v, id, peer, now);
    case CompleteEvent(id, peer) => FinishSound(v, id, peer, Completed);
    case FailEvent(id, peer) => FinishSound(v, id, peer, Failed);
    case ReapEvent(now, pick) => ReapSound(v, now, pick);
  }

  ghost predicate Stepped(v: Service, e: Event, after: Service) {
    InRing(v.scheduler.ring) && after == Next(v, e)
  }

  ghost predicate IsRun(vs: seq<Service>, es: seq<Event>) {
    && |vs| == |es| + 1 && Sound(vs[0])
    && forall i | 0 <= i < |es| :: Stepped(vs[i], es[i], vs[i + 1])
  }

  lemma {:induction false} RunSound(vs: seq<Service>, es: seq<Event>, i: nat)
    requires IsRun(vs, es) && i <= |es|
    ensures Sound(vs[i])
  {
    hide Sound, Next;
    if i > 0 {
      RunSound(vs, es, i - 1);
      assert Stepped(vs[i - 1], es[i - 1], vs[i]);
      NextSound(vs[i - 1], es[i - 1]);
    }
  }

  lemma RunLength(vs: seq<Service>, es: seq<Event>)
    requires IsRun(vs, es)
    ensures |vs| == |es| + 1
  {
    hide Sound, Next;
  }

  /** The state before any task. */
  lemma InitialSound(limit: u64, config: Config, slots: nat, bound: bool, timeout: nat, observed: bool)
    ensures Sound(Service(SchedulerSteps.Initial(limit, config, slots), map[], map[], bound, timeout, observed, map[],
            {}))
  {
    InitialInv(limit, config, slots);
    hide Inv;
  }

  /** Active leases are exactly the running tasks; pending leases are exactly the waiting tasks together with
      those lost to a failed dispatch. */
  lemma LeasesAgree(vs: seq<Service>, es: seq<Event>, i: nat, id: TaskId)
    requires IsRun(vs, es) && i <= |es| && Tracks(vs[i])
    ensures id in vs[i].active <==> Status(vs[i].scheduler, id) == Some(Running)
    ensures id in vs[i].pending <==> Status(vs[i].scheduler, id) == Some(Queued) || id in vs[i].lost
    ensures id in vs[i].lost ==> Status(vs[i].scheduler, id) == Some(Failed)
  {
    hide IsRun, Inv, Status;
    RunLength(vs, es);
    RunSound(vs, es, i);
    LeaseAt(vs[i], id);
  }

  // ---------------------------------------------------------------------------
  // Whose lease it is

  /** In process-bound mode a running task can be completed, failed or kept alive by its submitter, and by
      nobody else. */
  lemma OnlyTheSubmitter(v: Service, id: TaskId, peer: Option<Peer>, now: nat, terminal: TaskState)
    requires Sound(v) && v.bound && SchedulerSteps.Terminal(terminal)
    ensures Finish(v, id, peer, terminal).0 <==>
            Status(v.scheduler, id) == Some(Running) && id in v.submitters && peer == v.submitters[id]
    ensures Heartbeat(v, id, peer, now).0 <==>
            Status(v.scheduler, id) == Some(Running) && id in v.submitters && peer == v.submitters[id]
  {
    hide Inv, Agrees, SchedulerSteps.FinishRunning;
    LeaseAt(v, id);
    FinishMoves(v.scheduler, id, terminal);
    hide OneMoved;
  }

  /** A task reaches a peer only through a claim by its submitter, and such a claim is never undone for
      ownership: it fails a dispatched task only when the lease cannot be allocated. */
  lemma ClaimsAreOwned(v: Service, id: TaskId, peer: Option<Peer>, now: nat, fault: SchedulerSteps.DispatchFault,
    recordFault: bool)
    requires Sound(v) && v.bound && InRing(v.scheduler.ring)
    ensures Claim(v, id, peer, now, fault, recordFault).0.Some? ==> id in v.submitters && peer == v.submitters[id]
    ensures !recordFault && id in v.submitters && peer == v.submitters[id]
            && Status(v.scheduler, id) == Some(Queued) ==>
              Claim(v, id, peer, now, fault, recordFault).0 == SchedulerSteps.DispatchTask(v.scheduler, id, fault).0
  {
    hide Inv, Agrees, SchedulerSteps.DispatchTask, SchedulerSteps.FinishRunning, InRing;
    LeaseAt(v, id);
    DispatchTaskMoves(v.scheduler, id, fault);
    hide DispatchMoves;
    var (d, sched) := SchedulerSteps.DispatchTask(v.scheduler, id, fault);
    if d.Some? { DispatchedWanted(v.scheduler, id, fault, d, sched); }
    if Status(v.scheduler, id) == Some(Queued) { PositiveId(v.scheduler, id); }
  }

  lemma PositiveId(s: State, id: TaskId)
    requires Inv(s) && id in s.tasks
    ensures id != 0
  {
    Known(s, id);
  }

  lemma DispatchedWanted(s: State, wanted: TaskId, fault: SchedulerSteps.DispatchFault, d: Option<Snapshot>,
    after: State)
    requires InRing(s.ring) && DispatchMoves(s, Some(wanted), fault, d, after) && d.Some?
    ensures d.value.id == wanted
  {
  }

  /** Reaping ends what it picks: a waiting task is cancelled, a running one failed, and the lease goes. A
      lease left behind is only given a new deadline, and the call then reaps nothing else. */
  lemma ReapEnds(v: Service, now: nat, pick: TaskId)
    requires Sound(v) && v.timeout != 0
    ensures Expired(v.pending, pick, now) ==> (Reap(v, now, pick).0 <==> pick !in v.lost)
    ensures Expired(v.pending, pick, now) && pick !in v.lost ==>
              Status(Reap(v, now, pick).1.scheduler, pick) == Some(Cancelled) && pick !in Reap(v, now, pick).1.pending
    ensures Expired(v.pending, pick, now) && pick in v.lost ==>
              Reap(v, now, pick).1 == v.(pending :=
                v.pending[pick := v.pending[pick].(deadline := Some(now + v.timeout))])
    ensures Expired(v.active, pick, now) && !AnyExpired(v.pending, now) ==>
              Reap(v, now, pick).0 && Status(Reap(v, now, pick).1.scheduler, pick) == Some(Failed)
                && pick !in Reap(v, now, pick).1.active
  {
    hide Inv, Agrees, SchedulerSteps.CancelQueued, SchedulerSteps.FinishRunning;
    LeaseAt(v, pick);
    CancelQueuedMoves(v.scheduler, pick);
    FinishMoves(v.scheduler, pick, Failed);
    assert Expired(v.pending, pick, now) ==> AnyExpired(v.pending, now);
    hide AnyExpired;
  }

  // ---------------------------------------------------------------------------
  // How long a lease lasts

  predicate HasClock(e: Event) {
    e.SubmitEvent? || e.ClaimNextEvent? || e.ClaimEvent? || e.HeartbeatEvent? || e.ReapEvent?
  }

  /** An active lease is as it was, or was given a deadline a whole timeout after the event. */
  lemma NextLease(v: Service, e: Event, id: TaskId)
    requires InRing(v.scheduler.ring) && id in Next(v, e).active
    ensures || (id in v.active && Next(v, e).active[id] == v.active[id])
            || (HasClock(e) && Next(v, e).active[id].deadline == Deadline(v, e.now))
  {
    hide InRing, SchedulerSteps.Submit, SchedulerSteps.CancelTask, SchedulerSteps.CancelQueued,
      SchedulerSteps.FinishRunning, SchedulerSteps.DispatchNext, SchedulerSteps.DispatchTask, FailedBetween, AnyExpired,
      RecordLease, SubmitRequest, PendingOwnerMatches;
    if e.SubmitEvent? { SubmitLeases(v, e); }
    if e.ClaimNextEvent? {
      var (d, sched) := SchedulerSteps.DispatchNext(v.scheduler, e.fault);
      RecordLeases(v.(scheduler := sched, lost := v.lost + FailedBetween(v.scheduler, sched)), d, e.peer, e.now,
        e.recordFault, id);
    } else if e.ClaimEvent? {
      var (d, sched) := SchedulerSteps.DispatchTask(v.scheduler, e.id, e.fault);
      RecordLeases(v.(scheduler := sched, lost := v.lost + FailedBetween(v.scheduler, sched)), d, e.peer, e.now,
        e.recordFault, id);
    }
  }

  lemma SubmitLeases(v: Service, e: Event)
    requires InRing(v.scheduler.ring) && e.SubmitEvent?
    ensures Next(v, e).active == v.active
  {
    hide SchedulerSteps.Submit, SchedulerSteps.CancelTask, SchedulerSteps.CancelQueued;
  }

  lemma RecordLeases(v: Service, d: Option<Snapshot>, peer: Option<Peer>, now: nat, recordFault: bool, id: TaskId)
    ensures var after := RecordLease(v, d, peer, now, recordFault).1;
            id in after.active ==>
                (id in v.active && after.active[id] == v.active[id]) || after.active[id].deadline == Deadline(v, now)
  {
    hide SchedulerSteps.FinishRunning, PendingOwnerMatches;
  }

  lemma SameTimeout(v: Service, e: Event)
    requires InRing(v.scheduler.ring)
    ensures Next(v, e).timeout == v.timeout
  {
    hide InRing, SchedulerSteps.Submit, SchedulerSteps.CancelTask, SchedulerSteps.CancelQueued,
      SchedulerSteps.FinishRunning, SchedulerSteps.DispatchNext, SchedulerSteps.DispatchTask, FailedBetween,
      PendingOwnerMatches, AnyExpired;
  }

  /** If the task still has an active lease, its deadline is not before d. */
  ghost predicate HeldUntil(v: Service, id: TaskId, d: nat) {
    id in v.active ==> v.active[id].deadline.Some? && v.active[id].deadline.value >= d
  }

  /** Once a lease runs until d, no later step shortens it, as long as the clock does not go back. */
  lemma {:induction false} HeldOn(vs: seq<Service>, es: seq<Event>, i: nat, j: nat, id: TaskId, start: nat)
    requires IsRun(vs, es) && i <= j <= |es| && vs[i].timeout != 0 && HeldUntil(vs[i], id, start + vs[i].timeout)
    requires forall k | i <= k < j && HasClock(es[k]) :: es[k].now >= start
    ensures HeldUntil(vs[j], id, start + vs[i].timeout) && vs[j].timeout == vs[i].timeout
    decreases j
  {
    hide IsRun, Next, Sound, InRing;
    RunLength(vs, es);
    if j > i {
      HeldOn(vs, es, i, j - 1, id, start);
      RunStep(vs, es, j - 1);
      SameTimeout(vs[j - 1], es[j - 1]);
      if id in vs[j].active { NextLease(vs[j - 1], es[j - 1], id); }
    }
  }

  /** A task whose lease was granted or renewed at some time is not reaped within the timeout after it. */
  lemma NotReapedEarly(vs: seq<Service>, es: seq<Event>, i: nat, j: nat, id: TaskId)
    requires IsRun(vs, es) && i < j < |es| && vs[i].timeout != 0 && HasClock(es[i]) && es[j].ReapEvent?
    requires id in vs[i + 1].active && (id !in vs[i].active || vs[i + 1].active[id] != vs[i].active[id])
    requires forall k | i < k <= j && HasClock(es[k]) :: es[k].now >= es[i].now
    requires es[j].now < es[i].now + vs[i].timeout
    ensures !Expired(vs[j].active, id, es[j].now)
    ensures id in vs[j].active ==> id in vs[j + 1].active
  {
    hide IsRun, Next, Sound, InRing;
    RunLength(vs, es);
    RunStep(vs, es, i);
    NextLease(vs[i], es[i], id);
    SameTimeout(vs[i], es[i]);
    HeldOn(vs, es, i + 1, j, id, es[i].now);
    RunStep(vs, es, j);
    ReapSpares(vs[j], es[j], id);
  }

  lemma ReapSpares(v: Service, e: Event, id: TaskId)
    requires InRing(v.scheduler.ring) && e.ReapEvent? && !Expired(v.active, id, e.now)
    ensures id in v.active ==> id in Next(v, e).active
  {
    hide SchedulerSteps.CancelQueued, SchedulerSteps.FinishRunning, AnyExpired, InRing;
  }

  // ---------------------------------------------------------------------------
  // Leases left behind

  /** Exactly when a dispatch loses the task it selected: an allocation fails on the way. */
  lemma LosesIff(s: State, wanted: Option<TaskId>, fault: SchedulerSteps.DispatchFault, id: TaskId)
    requires Inv(s) && InRing(s.ring)
    ensures Loses(s, wanted, fault, id) <==>
            && Reaches(s, wanted) && SchedulerSteps.SelectStep(s).0 == Some(id)
            && (fault.SnapshotThrows? || fault.RunningThrows?
                || (fault.CommitThrows? && id in s.tasks && s.tasks[id].sequence == 0))
  {
    if Reaches(s, wanted) && SchedulerSteps.SelectStep(s).0 == Some(id) {
      hide Reaches, InRing, Inv, Select;
      SelectedIsLive(s);
      Known(s, id);
      hide TaskOk, Charge;
      SelectedLoses(SchedulerSteps.SelectStep(s).1, id, fault);
    }
  }

  lemma SelectedLoses(s: State, id: TaskId, fault: SchedulerSteps.DispatchFault)
    requires Live(s.tasks, id) && s.tasks[id].reservation.Some?
    requires s.tasks[id].sequence == 0 ==>
               s.tasks[id].reservation.value.Attached? && s.tasks[id].reservation.value.bytes <= s.ledger.reserved
    ensures SchedulerSteps.DispatchSelected(s, id, fault).0.None? <==>
            fault.SnapshotThrows? || fault.RunningThrows? || (fault.CommitThrows? && s.tasks[id].sequence == 0)
  {
  }

  /** The claim gets as far as dispatching. */
  ghost predicate Dispatches(v: Service, e: Event) {
    || (e.ClaimNextEvent? && !v.bound)
    || (e.ClaimEvent? && e.id != 0 && (v.bound ==> ValidPeer(e.peer)) && Status(v.scheduler, e.id) != Some(Running)
        && PendingOwnerMatches(v, e.id, e.peer))
  }

  ghost predicate LosesAt(v: Service, e: Event, id: TaskId)
    requires InRing(v.scheduler.ring)
  {
    Dispatches(v, e) && Loses(v.scheduler, if e.ClaimEvent? then Some(e.id) else None, e.fault, id)
  }

  lemma RecordKeepsLost(v: Service, d: Option<Snapshot>, peer: Option<Peer>, now: nat, recordFault: bool)
    ensures RecordLease(v, d, peer, now, recordFault).1.lost == v.lost
  {
  }

  /** A lost task is one that a dispatch selected and could not allocate for; nothing else adds to them, and
      nothing removes them. */
  lemma LostGrows(v: Service, e: Event, id: TaskId)
    requires Sound(v) && InRing(v.scheduler.ring)
    ensures id in Next(v, e).lost <==> id in v.lost || LosesAt(v, e, id)
  {
    hide Inv, Agrees, SchedulerSteps.DispatchNext, SchedulerSteps.DispatchTask, RecordLease, InRing,
      PendingOwnerMatches, SubmitRequest, CancelAny, CancelWaiting, Heartbeat, Finish, Reap, FailedBetween, Loses;
    if Dispatches(v, e) {
      var wanted := if e.ClaimEvent? then Some(e.id) else None;
      var (d, sched) := if e.ClaimEvent? then SchedulerSteps.DispatchTask(v.scheduler, e.id, e.fault)
        else SchedulerSteps.DispatchNext(v.scheduler, e.fault);
      if e.ClaimEvent? {
        DispatchTaskMoves(v.scheduler, e.id, e.fault);
      } else {
        DispatchNextMoves(v.scheduler, e.fault);
      }
      LostIsFailed(v.scheduler, wanted, e.fault, d, sched, id);
      RecordKeepsLost(v.(scheduler := sched, lost := v.lost + FailedBetween(v.scheduler, sched)), d, e.peer, e.now,
        e.recordFault);
    } else {
      OtherwiseKeepsLost(v, e);
    }
  }

  lemma OtherwiseKeepsLost(v: Service, e: Event)
    requires InRing(v.scheduler.ring) && !Dispatches(v, e)
    ensures Next(v, e).lost == v.lost
  {
    hide SchedulerSteps.DispatchNext, SchedulerSteps.DispatchTask, RecordLease, SchedulerSteps.Submit,
      SchedulerSteps.CancelTask, SchedulerSteps.CancelQueued, SchedulerSteps.FinishRunning, InRing, AnyExpired,
      FailedBetween;
    match e
    case SubmitEvent(spec, registrar, fault, recordFault, peer, now) =>
      assert SubmitRequest(v, spec, registrar, fault, recordFault, peer, now).1.lost == v.lost;
    case ReapEvent(now, pick) => assert Reap(v, now, pick).1.lost == v.lost;
    case _ =>
  }

  lemma LostIsFailed(s: State, wanted: Option<TaskId>, fault: SchedulerSteps.DispatchFault, d: Option<Snapshot>,
    after: State, id: TaskId)
    requires InRing(s.ring) && DispatchMoves(s, wanted, fault, d, after)
    ensures id in FailedBetween(s, after) <==> Loses(s, wanted, fault, id)
  {
    hide Inv, FailedBetween, Reaches, SchedulerSteps.DispatchSelected, SchedulerSteps.SelectStep, OneMoved, NoneMoved,
      InRing;
    if d.None? && exists x :: Loses(s, wanted, fault, x) {
      var x :| Loses(s, wanted, fault, x) && OneMoved(s, after, x, Some(Queued), Failed);
      FailedOne(s, after, x);
    } else {
      FailedNone(s, after);
    }
  }

  /** As long as no claim loses its task, pending leases are exactly the waiting tasks. */
  lemma {:induction false} ExactWithoutLoss(vs: seq<Service>, es: seq<Event>, i: nat)
    requires IsRun(vs, es) && i <= |es| && vs[0].lost == {}
    requires forall k | 0 <= k < i :: InRing(vs[k].scheduler.ring) && forall id :: !LosesAt(vs[k], es[k], id)
    ensures vs[i].lost == {}
    ensures Tracks(vs[i]) ==> forall id: TaskId :: id in vs[i].pending <==> Status(vs[i].scheduler, id) == Some(Queued)
  {
    hide IsRun, Next, LosesAt, Sound, InRing, Status, Tracks;
    RunLength(vs, es);
    if i > 0 {
      ExactWithoutLoss(vs, es, i - 1);
      RunStep(vs, es, i - 1);
      forall id: TaskId ensures id !in vs[i].lost {
        LostGrows(vs[i - 1], es[i - 1], id);
      }
    }
    if Tracks(vs[i]) {
      forall id: TaskId ensures id in vs[i].pending <==> Status(vs[i].scheduler, id) == Some(Queued) {
        LeasesAgree(vs, es, i, id);
      }
    }
  }

  /** A lease left behind by a failed dispatch stays: its task is over, yet no later call removes it. */
  lemma {:induction false} LeftBehindForever(vs: seq<Service>, es: seq<Event>, i: nat, j: nat, id: TaskId)
    requires IsRun(vs, es) && i < j <= |es| && InRing(vs[i].scheduler.ring) && LosesAt(vs[i], es[i], id)
    ensures id in vs[j].lost
    ensures Tracks(vs[j]) ==> id in vs[j].pending && Status(vs[j].scheduler, id) == Some(Failed)
    decreases j
  {
    hide IsRun, Next, LosesAt, Sound, InRing, Status, Tracks;
    RunStep(vs, es, j - 1);
    if j - 1 > i { LeftBehindForever(vs, es, i, j - 1, id); }
    LostGrows(vs[j - 1], es[j - 1], id);
    if Tracks(vs[j]) { LeasesAgree(vs, es, j, id); }
  }

  lemma RunStep(vs: seq<Service>, es: seq<Event>, i: nat)
    requires IsRun(vs, es) && i < |es|
    ensures |vs| == |es| + 1 && Sound(vs[i]) && InRing(vs[i].scheduler.ring) && vs[i + 1] == Next(vs[i], es[i])
  {
    hide Sound, Next, InRing;
    RunSound(vs, es, i);
    assert Stepped(vs[i], es[i], vs[i + 1]);
  }

  // A run on which it happens.

  const ONE_SPEC := TaskSpec("a", 10, 1, 1, 0)

  const ONE_AT_A_TIME := Config(Priority, 1, 0, 0)

  ghost function Before(): Service {
    Service(SchedulerSteps.Initial(100, ONE_AT_A_TIME, 0), map[], map[], false, 5, false, map[], {})
  }

  ghost function Submitted(): Service {
    Before().(scheduler := State(ONE_AT_A_TIME, 0, Ledger(100, 10, 0), 2, 1,
      map[1 := Task(ONE_SPEC, Queued, Some(Attached(10)), 0)],
                                 Ring(map["a" := TenantQueue(1, [1], 0)], ["a"], 0, 0), [], 1),
              pending := map[1 := Lease(Some(5), false, None)], submitters := map[1 := None])
  }

  const LOSING_CLAIM := ClaimNextEvent(None, 0, SchedulerSteps.SnapshotThrows, false)

  /** A submission, then a claim whose dispatch cannot allocate: the task has failed and its lease is still there. */
  lemma ALeaseCanBeLeftBehind()
    ensures InRing(Before().scheduler.ring) && InRing(Submitted().scheduler.ring)
    ensures Next(Before(), SubmitEvent(ONE_SPEC, Some(true), SchedulerSteps.NoSubmitFault, false, None, 0))
            == Submitted()
    ensures LosesAt(Submitted(), LOSING_CLAIM, 1)
    ensures var after := Next(Submitted(), LOSING_CLAIM);
            1 in after.pending && Status(after.scheduler, 1) == Some(Failed)
  {
    var v := Submitted();
    var s := v.scheduler;
    SchedulerPriority.OnlyCandidate(s.tasks, s.ring, "a", 1);
    assert SchedulerSteps.SelectStep(s).0 == Some(1);
  }
}
