/** Every operation of the scheduler as a function from state to state. Each allocation that may throw is a
    fault the caller chooses, so that a run ranges over every pattern of failures. */
module SchedulerSteps {
  import opened Common
  import opened SchedulerModel

  // ---------------------------------------------------------------------------
  // Quota ledger

  function UsedBytes(l: Ledger): nat {
    if l.reserved > U64_MAX - l.committed then U64_MAX else l.reserved + l.committed
  }

  function AvailableBytes(l: Ledger): nat {
    if UsedBytes(l) >= l.limit then 0 else l.limit - UsedBytes(l)
  }

  function Reserve(l: Ledger, bytes: u64): (bool, Ledger) {
    if bytes > AvailableBytes(l) then (false, l) else (true, l.(reserved := l.reserved + bytes))
  }

  function Release(l: Ledger, bytes: u64): (bool, Ledger) {
    if bytes > l.committed then (false, l) else (true, l.(committed := l.committed - bytes))
  }

  function Commit(l: Ledger, r: Reservation): (bool, Ledger, Reservation) {
    if r.Detached? || r.bytes > l.reserved then (false, l, r)
    else (true, l.(reserved := l.reserved - r.bytes, committed := l.committed + r.bytes), Detached)
  }

  function Cancel(l: Ledger, r: Reservation): (Ledger, Reservation) {
    if r.Detached? || r.bytes > l.reserved then (l, r)
    else (l.(reserved := l.reserved - r.bytes), Detached)
  }

  // ---------------------------------------------------------------------------
  // Submission

  datatype SubmitStatus = Accepted | InvalidTask | QuotaExceeded | QueueFull | TenantWeightMismatch | InternalError

  datatype SubmitResult = SubmitResult(status: SubmitStatus, id: TaskId)

  /** The allocation that throws while a task is submitted. */
  datatype SubmitFault = NoSubmitFault | ReserveThrows | TenantThrows | OrderThrows | RecordThrows | EnqueueThrows

  function Rejected(status: SubmitStatus): SubmitResult {
    SubmitResult(status, 0)
  }

  predicate WellFormedSpec(spec: TaskSpec) {
    spec.tenant != "" && spec.memory != 0 && spec.weight != 0 && spec.work != 0
  }

  function Submit(s: State, spec: TaskSpec, fault: SubmitFault): (SubmitResult, State) {
    if !WellFormedSpec(spec) then (Rejected(InvalidTask), s)
    else if s.nextTask == U64_MAX then (Rejected(InternalError), s)
    else if s.config.maxQueued != 0 && s.queued >= s.config.maxQueued then (Rejected(QueueFull), s)
    else if spec.tenant in s.ring.queues && s.ring.queues[spec.tenant].weight != spec.weight
    then (Rejected(TenantWeightMismatch), s)
    else if fault.ReserveThrows? then (Rejected(InternalError), s)
    else if !Reserve(s.ledger, spec.memory).0 then (Rejected(QuotaExceeded), s)
    else if spec.tenant !in s.ring.queues && (fault.TenantThrows? || fault.OrderThrows?)
      then (Rejected(InternalError), s)
    else if fault.RecordThrows? || fault.EnqueueThrows? || s.nextTask in s.tasks then (Rejected(InternalError), s)
    else
      var id := s.nextTask;
      (SubmitResult(Accepted, id),
       s.(ledger := Reserve(s.ledger, spec.memory).1,
          tasks := s.tasks[id := Task(spec, Queued, Some(Attached(spec.memory)), 0)],
          ring := Enqueue(s.ring, spec.tenant, spec.weight, id),
          nextTask := s.nextTask + 1,
          queued := s.queued + 1))
  }

  function Enqueue(ring: Ring, tenant: TenantId, weight: Weight, id: TaskId): Ring {
    if tenant in ring.queues
    then SetIds(ring, tenant, ring.queues[tenant].ids + [id])
    else ring.(queues := ring.queues[tenant := TenantQueue(weight, [id], 0)], order := ring.order + [tenant])
  }

  // ---------------------------------------------------------------------------
  // Dispatch

  /** The allocation that throws while a selected task is dispatched. */
  datatype DispatchFault = NoDispatchFault | SnapshotThrows | RunningThrows | CommitThrows

  function SetTask(s: State, id: TaskId, task: Task): State {
    s.(tasks := s.tasks[id := task])
  }

  /** A selected task whose dispatch fails gives its quota back and ends Failed. */
  function AbortDispatch(s: State, id: TaskId): State
    requires id in s.tasks && s.tasks[id].reservation.Some?
  {
    var task := s.tasks[id];
    if task.sequence != 0
    then SetTask(s.(ledger := Release(s.ledger, task.spec.memory).1), id, task.(state := Failed))
    else
      var (ledger, handle) := Cancel(s.ledger, task.reservation.value);
      SetTask(s.(ledger := ledger), id, task.(state := Failed, reservation := Some(handle)))
  }

  function DispatchSelected(s: State, id: TaskId, fault: DispatchFault): (Option<Snapshot>, State) {
    if !Live(s.tasks, id) then (None, s)
    else if s.tasks[id].reservation.None? then (None, SetTask(s, id, s.tasks[id].(state := Failed)))
    else if fault.SnapshotThrows? || fault.RunningThrows? then (None, AbortDispatch(s, id))
    else
      var task := s.tasks[id];
      var continuation := task.sequence != 0;
      var (committed, ledger, handle) :=
        if continuation then (true, s.ledger, task.reservation.value) else Commit(s.ledger, task.reservation.value);
      if !continuation && (fault.CommitThrows? || !committed) then (None, AbortDispatch(s, id))
      else
        var started := Task(task.spec, Running, Some(handle), s.nextSequence);
        (Some(Snapshot(id, task.spec, Running, s.nextSequence)),
         SetTask(s.(ledger := ledger,
                    running := s.running + [id],
                    nextSequence := if s.nextSequence != U64_MAX then s.nextSequence + 1 else s.nextSequence),
                 id, started))
  }

  predicate IsLow(s: State, id: TaskId) {
    id in s.tasks && s.tasks[id].spec.priority < s.config.threshold
  }

  /** Number of running tasks below the reservation threshold. */
  function LowRunning(s: State, running: seq<TaskId>): nat {
    if running == [] then 0 else (if IsLow(s, running[0]) then 1 else 0) + LowRunning(s, running[1..])
  }

  /** Reserved capacity keeps the next task, when it is a low-priority one, from being dispatched. */
  ghost predicate ReservationBlocks(s: State)
    requires InRing(s.ring)
  {
    && s.config.policy.Priority?
    && s.reservedSlots != 0
    && LowRunning(s, s.running) >= s.config.maxRunning - s.reservedSlots
    && var next := Peek(s.config.policy, s.tasks, s.ring);
       next.Some? && Live(s.tasks, next.value) && s.tasks[next.value].spec.priority < s.config.threshold
  }

  /** A selection takes one task off its queue. */
  ghost function SelectStep(s: State): (Option<TaskId>, State) {
    var (id, ring) := Select(s.config.policy, s.tasks, s.ring);
    (id, s.(ring := ring, queued := if id.Some? then s.queued - 1 else s.queued))
  }

  ghost predicate MayDispatch(s: State)
    requires InRing(s.ring)
  {
    |s.running| < s.config.maxRunning && !ReservationBlocks(s)
  }

  ghost function DispatchNext(s: State, fault: DispatchFault): (Option<Snapshot>, State)
    requires InRing(s.ring)
  {
    if !MayDispatch(s) then (None, s)
    else
      var (id, selected) := SelectStep(s);
      if id.None? then (None, selected) else DispatchSelected(selected, id.value, fault)
  }

  ghost function DispatchTask(s: State, id: TaskId, fault: DispatchFault): (Option<Snapshot>, State)
    requires InRing(s.ring)
  {
    if id == 0 || !MayDispatch(s) || !Live(s.tasks, id) then (None, s)
    else
      var next := Peek(s.config.policy, s.tasks, s.ring);
      if next.None? then
        if s.config.policy.DeficitRoundRobin? then (None, SelectStep(s).1) else (None, s)
      else if next.value != id then (None, s)
      else
        var (chosen, selected) := SelectStep(s);
        if chosen != Some(id) then (None, selected) else DispatchSelected(selected, id, fault)
  }

  // ---------------------------------------------------------------------------
  // Suspension and termination

  function Suspend(s: State, id: TaskId, throws: bool): (bool, State) {
    if id !in s.tasks || s.tasks[id].state != Running || s.tasks[id].sequence == U64_MAX
       || id !in s.running || s.tasks[id].spec.tenant !in s.ring.queues || throws
    then (false, s)
    else
      var tenant := s.tasks[id].spec.tenant;
      (true,
       SetTask(s.(ring := SetIds(s.ring, tenant, [id] + s.ring.queues[tenant].ids),
                  running := Without(s.running, id),
                  queued := s.queued + 1), id, s.tasks[id].(state := Queued)))
  }

  ghost predicate RetreatRequested(s: State, id: TaskId)
    requires InRing(s.ring)
  {
    && s.config.policy.Priority?
    && id in s.tasks && s.tasks[id].sequence != U64_MAX && s.tasks[id].state == Running
    && var next := Peek(s.config.policy, s.tasks, s.ring);
       next.Some? && next.value in s.tasks && s.tasks[next.value].spec.priority > s.tasks[id].spec.priority
  }

  function FinishRunning(s: State, id: TaskId, terminal: TaskState): (bool, State) {
    if id !in s.tasks || s.tasks[id].state != Running || id !in s.running then (false, s)
    else
      var (released, ledger) := Release(s.ledger, s.tasks[id].spec.memory);
      if !released then (false, s)
      else (true, SetTask(s.(ledger := ledger, running := Without(s.running, id)), id, s.tasks[id].(state := terminal)))
  }

  function CancelQueued(s: State, id: TaskId): (bool, State) {
    if !Live(s.tasks, id) || s.tasks[id].reservation.None? then (false, s)
    else
      var task := s.tasks[id];
      var dequeued := s.(queued := s.queued - 1, ring := Remove(s.ring, task.spec.tenant, id));
      if task.sequence != 0 then
        var (released, ledger) := Release(s.ledger, task.spec.memory);
        if !released then (false, s)
        else (true, SetTask(dequeued.(ledger := ledger), id, task.(state := Cancelled)))
      else if task.reservation.value.Detached? then (false, s)
      else
        var (ledger, handle) := Cancel(s.ledger, task.reservation.value);
        if handle.Attached? then (false, s)
        else (true, SetTask(dequeued.(ledger := ledger), id, task.(state := Cancelled, reservation := Some(handle))))
  }

  function CancelTask(s: State, id: TaskId): (bool, State) {
    if Live(s.tasks, id) then CancelQueued(s, id) else FinishRunning(s, id, Cancelled)
  }

  predicate Terminal(state: TaskState) {
    state.Completed? || state.Cancelled? || state.Failed?
  }

  /** Forgetting a record destroys its handle, which cancels a reservation still attached. */
  function Forget(s: State, id: TaskId): (bool, State) {
    if id !in s.tasks || !Terminal(s.tasks[id].state) then (false, s)
    else
      var ledger := if s.tasks[id].reservation.Some? then Cancel(s.ledger, s.tasks[id].reservation.value).0
        else s.ledger;
      (true, s.(tasks := s.tasks - {id}, ledger := ledger))
  }

  function SetReservedSlots(s: State, slots: nat): (bool, State) {
    if !s.config.policy.Priority? then (false, s)
    else (true, s.(reservedSlots := if slots < s.config.maxRunning then slots else s.config.maxRunning))
  }

  // ---------------------------------------------------------------------------
  // Runs

  datatype Event =
    | SubmitEvent(spec: TaskSpec, submitFault: SubmitFault)
    | DispatchNextEvent(fault: DispatchFault)
    | DispatchTaskEvent(id: TaskId, fault: DispatchFault)
    | SuspendEvent(id: TaskId, throws: bool)
    | CompleteEvent(id: TaskId)
    | FailEvent(id: TaskId)
    | CancelEvent(id: TaskId)
    | CancelQueuedEvent(id: TaskId)
    | ForgetEvent(id: TaskId)
    | ReserveSlotsEvent(slots: nat)

  ghost function Step(s: State, e: Event): State
    requires InRing(s.ring)
  {
    match e
    case SubmitEvent(spec, fault) => Submit(s, spec, fault).1
    case DispatchNextEvent(fault) => DispatchNext(s, fault).1
    case DispatchTaskEvent(id, fault) => DispatchTask(s, id, fault).1
    case SuspendEvent(id, throws) => Suspend(s, id, throws).1
    case CompleteEvent(id) => FinishRunning(s, id, Completed).1
    case FailEvent(id) => FinishRunning(s, id, Failed).1
    case CancelEvent(id) => CancelTask(s, id).1
    case CancelQueuedEvent(id) => CancelQueued(s, id).1
    case ForgetEvent(id) => Forget(s, id).1
    case ReserveSlotsEvent(slots) => SetReservedSlots(s, slots).1
  }

  function Initial(limit: u64, config: Config, slots: nat): State {
    var running := if config.maxRunning == 0 then 1 else config.maxRunning;
    State(config.(maxRunning := running), if slots < running then slots else running, Ledger(limit, 0, 0),
          1, 1, map[], Ring(map[], [], 0, 0), [], 0)
  }
}
