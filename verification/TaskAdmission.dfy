/** The service that owns the leases, calling the scheduler. */
module TaskAdmissionState {
  import opened Common
  import opened SchedulerModel
  import SchedulerSteps
  import opened SchedulerInvariant
  import S = Scheduler
  import opened TaskAdmissionModel
  import opened TaskAdmissionTheorems

  class TaskAdmission {
    const scheduler: S.Scheduler
    const bound: bool
    const timeout: nat
    const observed: bool
    var pending: map<TaskId, Lease>
    var active: map<TaskId, Lease>
    ghost var submitters: map<TaskId, Option<Peer>>
    ghost var lost: set<TaskId>

    ghost function Value(): Service
      reads this, scheduler, scheduler.ledger
    {
      Service(scheduler.Value(), pending, active, bound, timeout, observed, submitters, lost)
    }

    ghost predicate Valid()
      reads this, scheduler, scheduler.ledger
    {
      Sound(Value())
    }

    constructor (limit: u64, config: Config, slots: nat, bind: bool, patience: nat, observes: bool)
      ensures Valid() && fresh(scheduler) && fresh(scheduler.ledger)
      ensures Value() == Service(SchedulerSteps.Initial(limit, config, slots), map[], map[], bind, patience, observes,
              map[], {})
    {
      scheduler := new S.Scheduler(limit, config, slots);
      bound, timeout, observed := bind, patience, observes;
      pending, active, submitters, lost := map[], map[], map[], {};
      new;
      InitialSound(limit, config, slots, bind, patience, observes);
    }

    function DeadlineFrom(now: nat): Option<nat> {
      if timeout == 0 then None else Some(now + timeout)
    }

    predicate Matches(lease: Lease, peer: Option<Peer>) {
      !bound || (ValidPeer(peer) && ValidPeer(lease.owner) && peer == lease.owner)
    }

    method SubmitTask(spec: TaskSpec, registrar: Option<bool>, fault: SchedulerSteps.SubmitFault, recordFault: bool,
                      peer: Option<Peer>, now: nat) returns (r: SchedulerSteps.SubmitResult)
      requires Valid()
      modifies this, scheduler, scheduler.ledger
      ensures Valid() && (r, Value()) == SubmitRequest(old(Value()), spec, registrar, fault, recordFault, peer, now)
    {
      hide Sound, SchedulerSteps.Submit, SchedulerSteps.CancelTask, Inv;
      SoundScheduler(Value());
      SubmitSound(Value(), spec, registrar, fault, recordFault, peer, now);
      if registrar.None? { return SchedulerSteps.Rejected(SchedulerSteps.InternalError); }
      if bound && !ValidPeer(peer) { return SchedulerSteps.Rejected(SchedulerSteps.InvalidTask); }
      var tracks := bound || timeout != 0 || observed;
      r := scheduler.SubmitTask(spec, fault);
      if r.status != SchedulerSteps.Accepted { return; }
      if registrar.value {
        if !tracks || (!recordFault && r.id !in pending) {
          if tracks { pending := pending[r.id := Lease(DeadlineFrom(now), false, peer)]; }
          submitters := submitters[r.id := peer];
          return;
        }
      }
      var cancelled := scheduler.CancelById(r.id);
      r := SchedulerSteps.SubmitResult(SchedulerSteps.InternalError, r.id);
    }

    method Cancel(id: TaskId) returns (ok: bool)
      requires Valid()
      modifies this, scheduler, scheduler.ledger
      ensures Valid() && (ok, Value()) == CancelAny(old(Value()), id)
    {
      hide Sound, SchedulerSteps.CancelTask, SchedulerSteps.CancelQueued, Inv;
      SoundScheduler(Value());
      CancelSound(Value(), id);
      ok := scheduler.CancelById(id);
      if ok { active, pending := active - {id}, pending - {id}; }
    }

    method CancelQueued(id: TaskId) returns (ok: bool)
      requires Valid()
      modifies this, scheduler, scheduler.ledger
      ensures Valid() && (ok, Value()) == CancelWaiting(old(Value()), id)
    {
      hide Sound, SchedulerSteps.CancelTask, SchedulerSteps.CancelQueued, Inv;
      SoundScheduler(Value());
      CancelSound(Value(), id);
      ok := scheduler.CancelQueuedTask(id);
      if ok { pending := pending - {id}; }
    }

    /** The lease of a task just dispatched. */
    method Record(d: Option<Snapshot>, peer: Option<Peer>, now: nat, recordFault: bool) returns (r: Option<Snapshot>)
      requires scheduler.Valid()
      modifies this, scheduler, scheduler.ledger
      ensures scheduler.Valid() && (r, Value()) == RecordLease(old(Value()), d, peer, now, recordFault)
    {
      hide Inv, SchedulerSteps.FinishRunning;
      if d.None? || !(bound || timeout != 0 || observed) { return d; }
      var id := d.value.id;
      var owned := !bound || (id in pending && !pending[id].reaping && Matches(pending[id], peer));
      pending := pending - {id};
      if !owned {
        var failed := scheduler.Finish(id, Failed);
        return None;
      }
      if !bound && id in active { return d; }
      if recordFault || id in active {
        var failed := scheduler.Finish(id, Failed);
        return None;
      }
      active := active[id := Lease(DeadlineFrom(now), false, peer)];
      r := d;
    }

    method ClaimAny(peer: Option<Peer>, now: nat, fault: SchedulerSteps.DispatchFault,
      recordFault: bool) returns (r: Option<Snapshot>)
      requires Valid()
      modifies this, scheduler, scheduler.ledger
      ensures Valid() && InRing(old(scheduler.Value()).ring)
              && (r, Value()) == ClaimNext(old(Value()), peer, now, fault, recordFault)
    {
      hide Sound, Inv, RecordLease, SchedulerSteps.DispatchNext, SchedulerSteps.DispatchTask, InRing, FailedBetween;
      SoundScheduler(Value());
      ClaimSound(Value(), ClaimNextEvent(peer, now, fault, recordFault));
      if bound { return None; }
      ghost var before := scheduler.Value();
      var d := scheduler.DispatchNextTask(fault);
      lost := lost + FailedBetween(before, scheduler.Value());
      r := Record(d, peer, now, recordFault);
    }

    method ClaimTask(id: TaskId, peer: Option<Peer>, now: nat, fault: SchedulerSteps.DispatchFault,
      recordFault: bool) returns (r: Option<Snapshot>)
      requires Valid()
      modifies this, scheduler, scheduler.ledger
      ensures Valid() && InRing(old(scheduler.Value()).ring)
              && (r, Value()) == Claim(old(Value()), id, peer, now, fault, recordFault)
    {
      hide Sound, Inv, RecordLease, SchedulerSteps.DispatchNext, SchedulerSteps.DispatchTask, InRing, FailedBetween;
      SoundScheduler(Value());
      ClaimSound(Value(), ClaimEvent(id, peer, now, fault, recordFault));
      if id == 0 || (bound && !ValidPeer(peer)) { return None; }
      var existing := Find(scheduler.Value(), id);
      if existing.Some? && existing.value.state == Running {
        if id in active && Matches(active[id], peer) { return existing; }
        if !bound && timeout == 0 { return existing; }
        return None;
      }
      if bound && (id !in pending || pending[id].reaping || !Matches(pending[id], peer)) { return None; }
      ghost var before := scheduler.Value();
      var d := scheduler.DispatchTaskById(id, fault);
      lost := lost + FailedBetween(before, scheduler.Value());
      r := Record(d, peer, now, recordFault);
    }

    method KeepAlive(id: TaskId, peer: Option<Peer>, now: nat) returns (ok: bool)
      requires Valid()
      modifies this
      ensures Valid() && (ok, Value()) == Heartbeat(old(Value()), id, peer, now)
    {
      hide Sound, Inv;
      HeartbeatSound(Value(), id, peer, now);
      var found := Find(scheduler.Value(), id);
      if found.None? || found.value.state != Running { return false; }
      if !bound && timeout == 0 { return true; }
      if id !in active || active[id].reaping || !Matches(active[id], peer) { return false; }
      if timeout != 0 { active := active[id := active[id].(deadline := DeadlineFrom(now))]; }
      ok := true;
    }

    method End(id: TaskId, peer: Option<Peer>, terminal: TaskState) returns (ok: bool)
      requires Valid() && SchedulerSteps.Terminal(terminal)
      modifies this, scheduler, scheduler.ledger
      ensures Valid() && (ok, Value()) == Finish(old(Value()), id, peer, terminal)
    {
      hide Sound, Inv, SchedulerSteps.FinishRunning;
      SoundScheduler(Value());
      FinishSound(Value(), id, peer, terminal);
      if bound && (id !in active || !Matches(active[id], peer)) { return false; }
      ok := scheduler.Finish(id, terminal);
      if ok { active := active - {id}; }
    }

    /** Some expired lease, in whatever order the map yields them. */
    static method FindExpired(leases: map<TaskId, Lease>, now: nat) returns (found: Option<TaskId>)
      ensures found.Some? ==> Expired(leases, found.value, now)
      ensures found.None? ==> !AnyExpired(leases, now)
    {
      var rest := leases.Keys;
      while rest != {}
        invariant rest <= leases.Keys
        invariant forall id | id in leases.Keys - rest :: !Expired(leases, id, now)
        decreases |rest|
      {
        var id :| id in rest;
        if !leases[id].reaping && leases[id].deadline.Some? && leases[id].deadline.value <= now { return Some(id); }
        rest := rest - {id};
      }
      found := None;
    }

    method ReapExpired(now: nat) returns (ok: bool, ghost pick: TaskId)
      requires Valid()
      modifies this, scheduler, scheduler.ledger
      ensures Valid() && (ok, Value()) == Reap(old(Value()), now, pick)
    {
      hide Sound, Inv, SchedulerSteps.CancelQueued, SchedulerSteps.FinishRunning, AnyExpired;
      SoundScheduler(Value());
      ok, pick := false, 0;
      ReapSound(Value(), now, 0);
      if timeout == 0 { return; }
      var waiting := FindExpired(pending, now);
      if waiting.Some? {
        pick := waiting.value;
        ok := ReapWaiting(waiting.value, now);
        return;
      }
      NoneExpired(pending, now, 0);
      var stale := FindExpired(active, now);
      if stale.None? {
        NoneExpired(active, now, 0);
        return;
      }
      NoneExpired(pending, now, stale.value);
      pick := stale.value;
      ok := ReapRunning(stale.value, now);
    }

    method ReapWaiting(id: TaskId, now: nat) returns (ok: bool)
      requires Valid() && timeout != 0 && Expired(pending, id, now)
      modifies this, scheduler, scheduler.ledger
      ensures Valid() && (ok, Value()) == Reap(old(Value()), now, id)
    {
      hide Sound, Inv, SchedulerSteps.CancelQueued, SchedulerSteps.FinishRunning, AnyExpired;
      SoundScheduler(Value());
      ReapSound(Value(), now, id);
      ok := scheduler.CancelQueuedTask(id);
      pending := if ok then pending - {id} else pending[id := pending[id].(deadline := DeadlineFrom(now))];
    }

    method ReapRunning(id: TaskId, now: nat) returns (ok: bool)
      requires Valid() && timeout != 0 && Expired(active, id, now) && !AnyExpired(pending, now)
      modifies this, scheduler, scheduler.ledger
      ensures Valid() && (ok, Value()) == Reap(old(Value()), now, id)
    {
      hide Sound, Inv, SchedulerSteps.CancelQueued, SchedulerSteps.FinishRunning, AnyExpired;
      SoundScheduler(Value());
      ReapSound(Value(), now, id);
      NoneExpired(pending, now, id);
      ok := scheduler.Finish(id, Failed);
      var found := Find(scheduler.Value(), id);
      SettleLease(id, ok || found.None? || found.value.state != Running, now);
    }

    /** The lease goes with its task, or is given another chance. */
    method SettleLease(id: TaskId, gone: bool, now: nat)
      requires id in active
      modifies this`active
      ensures active == if gone then old(active) - {id}
              else old(active)[id := old(active)[id].(deadline := DeadlineFrom(now))]
    {
      active := if gone then active - {id} else active[id := active[id].(deadline := DeadlineFrom(now))];
    }
  }

  lemma SoundScheduler(v: Service)
    requires Sound(v)
    ensures Inv(v.scheduler) && InRing(v.scheduler.ring)
  {
    KnownRing(v.scheduler);
  }

  lemma NoneExpired(leases: map<TaskId, Lease>, now: nat, id: TaskId)
    requires !AnyExpired(leases, now)
    ensures !Expired(leases, id, now)
  {
  }
}
