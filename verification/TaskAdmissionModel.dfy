/** Leases over the scheduler: a pending lease for a task that waits, an active one for a task that runs. */
module TaskAdmissionModel {
  import opened Common
  import opened SchedulerModel
  import opened SchedulerSteps
  import opened SchedulerInvariant
  import opened SchedulerRuns

  datatype Peer = Peer(pid: u32, uid: u32, start: u64)

  /** No deadline means never. */
  datatype Lease = Lease(deadline: Option<nat>, reaping: bool, owner: Option<Peer>)

  /** `submitters` and `lost` are history: who submitted each task, and which tasks a failed dispatch ended. */
  datatype Service = Service(
    scheduler: State, pending: map<TaskId, Lease>, active: map<TaskId, Lease>, bound: bool, timeout: nat,
    observed: bool, submitters: map<TaskId, Option<Peer>>, lost: set<TaskId>)

  predicate ValidPeer(peer: Option<Peer>) {
    peer.Some? && peer.value.pid != 0 && peer.value.start != 0
  }

  predicate Tracks(v: Service) {
    v.bound || v.timeout != 0 || v.observed
  }

  function Deadline(v: Service, now: nat): Option<nat> {
    if v.timeout == 0 then None else Some(now + v.timeout)
  }

  predicate OwnerMatches(v: Service, lease: Lease, peer: Option<Peer>) {
    !v.bound || (ValidPeer(peer) && ValidPeer(lease.owner) && peer == lease.owner)
  }

  predicate PendingOwnerMatches(v: Service, id: TaskId, peer: Option<Peer>) {
    !v.bound || (id in v.pending && !v.pending[id].reaping && OwnerMatches(v, v.pending[id], peer))
  }

  /** `registrar` is None when no registrar was given; `fault` and `recordFault` are allocation failures. */
  function SubmitRequest(v: Service, spec: TaskSpec, registrar: Option<bool>, fault: SubmitFault, recordFault: bool,
                         peer: Option<Peer>, now: nat): (SubmitResult, Service)
  {
    if registrar.None? then (Rejected(InternalError), v)
    else if v.bound && !ValidPeer(peer) then (Rejected(InvalidTask), v)
    else
      var (r, sched) := Submit(v.scheduler, spec, fault);
      if r.status != Accepted then (r, v.(scheduler := sched))
      else if !registrar.value || (Tracks(v) && (recordFault || r.id in v.pending)) then
        (SubmitResult(InternalError, r.id), v.(scheduler := CancelTask(sched, r.id).1))
      else
        (r, v.(scheduler := sched, submitters := v.submitters[r.id := peer],
               pending := if Tracks(v) then v.pending[r.id := Lease(Deadline(v, now), false, peer)] else v.pending))
  }

  function CancelAny(v: Service, id: TaskId): (bool, Service) {
    var (ok, sched) := CancelTask(v.scheduler, id);
    if ok then (true, v.(scheduler := sched, active := v.active - {id}, pending := v.pending - {id}))
      else (false, v.(scheduler := sched))
  }

  function CancelWaiting(v: Service, id: TaskId): (bool, Service) {
    var (ok, sched) := CancelQueued(v.scheduler, id);
    if ok then (true, v.(scheduler := sched, pending := v.pending - {id})) else (false, v.(scheduler := sched))
  }

  /** A task just dispatched gets its active lease, or is failed at once. */
  function RecordLease(v: Service, d: Option<Snapshot>, peer: Option<Peer>, now: nat,
    recordFault: bool): (Option<Snapshot>, Service) {
    if d.None? || !Tracks(v) then (d, v)
    else
      var id := d.value.id;
      var freed := v.(pending := v.pending - {id});
      if !PendingOwnerMatches(v, id, peer) then (None, freed.(scheduler := FinishRunning(v.scheduler, id, Failed).1))
      else if !v.bound && id in v.active then (d, freed)
      else if recordFault || id in v.active then (None, freed.(scheduler := FinishRunning(v.scheduler, id, Failed).1))
      else (d, freed.(active := v.active[id := Lease(Deadline(v, now), false, peer)]))
  }

  /** Tasks that went from Queued to Failed. */
  ghost function FailedBetween(before: State, after: State): set<TaskId> {
    set id | id in before.tasks && id in after.tasks && before.tasks[id].state == Queued
      && after.tasks[id].state == Failed
  }

  ghost function ClaimNext(v: Service, peer: Option<Peer>, now: nat, fault: DispatchFault,
    recordFault: bool): (Option<Snapshot>, Service)
    requires InRing(v.scheduler.ring)
  {
    if v.bound then (None, v)
    else
      var (d, sched) := DispatchNext(v.scheduler, fault);
      RecordLease(v.(scheduler := sched, lost := v.lost + FailedBetween(v.scheduler, sched)), d, peer, now, recordFault)
  }

  ghost function Claim(v: Service, id: TaskId, peer: Option<Peer>, now: nat, fault: DispatchFault,
    recordFault: bool): (Option<Snapshot>, Service)
    requires InRing(v.scheduler.ring)
  {
    if id == 0 || (v.bound && !ValidPeer(peer)) then (None, v)
    else
      var existing := Find(v.scheduler, id);
      if existing.Some? && existing.value.state == Running then
        if (id in v.active && OwnerMatches(v, v.active[id], peer)) || (!v.bound && v.timeout == 0) then (existing, v)
          else (None, v)
      else if !PendingOwnerMatches(v, id, peer) then (None, v)
      else
        var (d, sched) := DispatchTask(v.scheduler, id, fault);
        RecordLease(v.(scheduler := sched, lost := v.lost + FailedBetween(v.scheduler, sched)), d, peer, now,
          recordFault)
  }

  function Heartbeat(v: Service, id: TaskId, peer: Option<Peer>, now: nat): (bool, Service) {
    var found := Find(v.scheduler, id);
    if found.None? || found.value.state != Running then (false, v)
    else if !v.bound && v.timeout == 0 then (true, v)
    else if id !in v.active || v.active[id].reaping || !OwnerMatches(v, v.active[id], peer) then (false, v)
    else (true, if v.timeout == 0 then v else v.(active := v.active[id := v.active[id].(deadline := Deadline(v, now))]))
  }

  function Finish(v: Service, id: TaskId, peer: Option<Peer>, terminal: TaskState): (bool, Service) {
    if v.bound && (id !in v.active || !OwnerMatches(v, v.active[id], peer)) then (false, v)
    else
      var (ok, sched) := FinishRunning(v.scheduler, id, terminal);
      if ok then (true, v.(scheduler := sched, active := v.active - {id})) else (false, v.(scheduler := sched))
  }

  predicate Expired(leases: map<TaskId, Lease>, id: TaskId, now: nat) {
    id in leases && !leases[id].reaping && leases[id].deadline.Some? && leases[id].deadline.value <= now
  }

  ghost predicate AnyExpired(leases: map<TaskId, Lease>, now: nat) {
    exists id :: Expired(leases, id, now)
  }

  /** The map yields some expired lease, a pending one if there is any; `pick` is the one it yields. */
  ghost function Reap(v: Service, now: nat, pick: TaskId): (bool, Service) {
    if v.timeout == 0 then (false, v)
    else if Expired(v.pending, pick, now) then
      var (ok, sched) := CancelQueued(v.scheduler, pick);
      (ok, v.(scheduler := sched,
              pending := if ok then v.pending - {pick}
                else v.pending[pick := v.pending[pick].(deadline := Deadline(v, now))]))
    else if AnyExpired(v.pending, now) || !Expired(v.active, pick, now) then (false, v)
    else
      var (ok, sched) := FinishRunning(v.scheduler, pick, Failed);
      var found := Find(sched, pick);
      (ok, v.(scheduler := sched,
              active := if ok || found.None? || found.value.state != Running then v.active - {pick}
                        else v.active[pick := v.active[pick].(deadline := Deadline(v, now))]))
  }

  datatype Event =
    | SubmitEvent(spec: TaskSpec, registrar: Option<bool>, submitFault: SubmitFault, recordFault: bool,
      peer: Option<Peer>, now: nat)
    | CancelEvent(id: TaskId)
    | CancelQueuedEvent(id: TaskId)
    | ClaimNextEvent(peer: Option<Peer>, now: nat, fault: DispatchFault, recordFault: bool)
    | ClaimEvent(id: TaskId, peer: Option<Peer>, now: nat, fault: DispatchFault, recordFault: bool)
    | HeartbeatEvent(id: TaskId, peer: Option<Peer>, now: nat)
    | CompleteEvent(id: TaskId, peer: Option<Peer>)
    | FailEvent(id: TaskId, peer: Option<Peer>)
    | ReapEvent(now: nat, pick: TaskId)

  ghost function Next(v: Service, e: Event): Service
    requires InRing(v.scheduler.ring)
  {
    match e
    case SubmitEvent(spec, registrar, fault, recordFault, peer, now) =>
      SubmitRequest(v, spec, registrar, fault, recordFault, peer, now).1
    case CancelEvent(id) => CancelAny(v, id).1
    case CancelQueuedEvent(id) => CancelWaiting(v, id).1
    case ClaimNextEvent(peer, now, fault, recordFault) => ClaimNext(v, peer, now, fault, recordFault).1
    case ClaimEvent(id, peer, now, fault, recordFault) => Claim(v, id, peer, now, fault, recordFault).1
    case HeartbeatEvent(id, peer, now) => Heartbeat(v, id, peer, now).1
    case CompleteEvent(id, peer) => Finish(v, id, peer, Completed).1
    case FailEvent(id, peer) => Finish(v, id, peer, Failed).1
    case ReapEvent(now, pick) => Reap(v, now, pick).1
  }
}
