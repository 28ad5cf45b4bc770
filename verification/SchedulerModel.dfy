/** The scheduler's state and the four selection policies, as functions of that state. */
module SchedulerModel {
  import opened Common

  type TaskId = u64
  type TenantId = string
  type Weight = x: int | 1 <= x <= 0xFFFF_FFFF witness 1

  datatype TaskSpec = TaskSpec(tenant: TenantId, memory: u64, weight: u32, work: u32, priority: u32)

  datatype TaskState = Queued | Running | Completed | Cancelled | Failed

  datatype Policy = WeightedRoundRobin | DeficitRoundRobin | Fifo | Priority

  /** A reservation handle: detached once committed or cancelled. */
  datatype Reservation = Detached | Attached(bytes: u64)

  /** `sequence` is 0 until the first dispatch. */
  datatype Task = Task(spec: TaskSpec, state: TaskState, reservation: Option<Reservation>, sequence: u64)

  datatype TenantQueue = TenantQueue(weight: Weight, ids: seq<TaskId>, deficit: u64)

  datatype Ledger = Ledger(limit: u64, reserved: nat, committed: nat)

  datatype Config = Config(policy: Policy, maxRunning: nat, maxQueued: nat, threshold: u32)

  /** The tenants in arrival order, their queues, and whose turn it is. */
  datatype Ring = Ring(queues: map<TenantId, TenantQueue>, order: seq<TenantId>, cursor: nat, budget: u32)

  type Tasks = map<TaskId, Task>

  datatype State = State(
    config: Config,
    reservedSlots: nat,
    ledger: Ledger,
    nextTask: u64,
    nextSequence: u64,
    tasks: Tasks,
    ring: Ring,
    running: seq<TaskId>,
    queued: int)

  datatype Snapshot = Snapshot(id: TaskId, spec: TaskSpec, state: TaskState, sequence: u64)

  function Find(s: State, id: TaskId): Option<Snapshot> {
    if id in s.tasks then Some(Snapshot(id, s.tasks[id].spec, s.tasks[id].state, s.tasks[id].sequence)) else None
  }

  // ---------------------------------------------------------------------------
  // Queues

  /** Queue entries whose task is gone or no longer queued are skipped by every policy. */
  predicate Live(tasks: Tasks, id: TaskId) {
    id in tasks && tasks[id].state == Queued
  }

  function DropStale(tasks: Tasks, ids: seq<TaskId>): (live: seq<TaskId>)
    ensures live != [] ==> Live(tasks, live[0])
  {
    if ids == [] || Live(tasks, ids[0]) then ids else DropStale(tasks, ids[1..])
  }

  /** The queue with the first occurrence of `id` removed. */
  function Without(ids: seq<TaskId>, id: TaskId): seq<TaskId> {
    if ids == [] then []
    else if ids[0] == id then ids[1..]
    else [ids[0]] + Without(ids[1..], id)
  }

  /** The live part of a tenant's queue. */
  function Backlog(tasks: Tasks, ring: Ring, tenant: TenantId): seq<TaskId> {
    if tenant in ring.queues then DropStale(tasks, ring.queues[tenant].ids) else []
  }

  function Remove(ring: Ring, tenant: TenantId, id: TaskId): Ring {
    if tenant in ring.queues
    then ring.(queues := ring.queues[tenant := ring.queues[tenant].(ids := Without(ring.queues[tenant].ids, id))])
    else ring
  }

  function Advance(ring: Ring): Ring {
    ring.(budget := 0, cursor := if |ring.order| == 0 then 0 else (ring.cursor + 1) % |ring.order|)
  }

  function Wrap(i: nat, n: nat): nat
    requires i < 2 * n
  {
    if i < n then i else i - n
  }

  predicate InRing(ring: Ring) {
    ring.cursor < |ring.order| || (ring.cursor == 0 && ring.order == [])
  }

  /** The k-th tenant from the cursor, cyclically. */
  function TenantAt(ring: Ring, k: nat): TenantId
    requires InRing(ring) && k < |ring.order|
  {
    ring.order[Wrap(ring.cursor + k, |ring.order|)]
  }

  // ---------------------------------------------------------------------------
  // First in, first out and strict priority: the best queued task of all queues.

  ghost predicate Candidate(tasks: Tasks, ring: Ring, id: TaskId) {
    Live(tasks, id) && exists t :: t in ring.queues && id in ring.queues[t].ids
  }

  /** a is dispatched before b: by priority when the policy has one, then by age. */
  predicate Before(tasks: Tasks, policy: Policy, a: TaskId, b: TaskId)
    requires a in tasks && b in tasks
  {
    var p, q := tasks[a].spec.priority, tasks[b].spec.priority;
    if policy.Priority? && p != q then p > q else a < b
  }

  ghost predicate IsBest(tasks: Tasks, ring: Ring, policy: Policy, id: TaskId) {
    && Candidate(tasks, ring, id)
    && forall c | Candidate(tasks, ring, c) :: c == id || Before(tasks, policy, id, c)
  }

  ghost function Best(tasks: Tasks, ring: Ring, policy: Policy): Option<TaskId> {
    if exists id :: IsBest(tasks, ring, policy, id)
    then var id :| IsBest(tasks, ring, policy, id); Some(id)
    else None
  }

  ghost function TakeBest(tasks: Tasks, ring: Ring, policy: Policy): (Option<TaskId>, Ring) {
    match Best(tasks, ring, policy)
    case None => (None, ring)
    case Some(id) => (Some(id), if id in tasks then Remove(ring, tasks[id].spec.tenant, id) else ring)
  }

  // ---------------------------------------------------------------------------
  // Weighted round robin

  function WrapCursor(ring: Ring): Ring {
    if ring.cursor >= |ring.order| then ring.(cursor := 0, budget := 0) else ring
  }

  function SetIds(ring: Ring, tenant: TenantId, ids: seq<TaskId>): Ring
    requires tenant in ring.queues
  {
    ring.(queues := ring.queues[tenant := ring.queues[tenant].(ids := ids)])
  }

  /** Up to `attempts` visits, each moving on from a tenant with nothing to run. */
  function WrrScan(tasks: Tasks, ring: Ring, attempts: nat): (Option<TaskId>, Ring)
    decreases attempts
  {
    if attempts == 0 || ring.order == [] then (None, ring)
    else
      var r := WrapCursor(ring);
      var tenant := r.order[r.cursor];
      var live := Backlog(tasks, r, tenant);
      if live == [] then WrrScan(tasks, Advance(WrrSkip(r, tenant)), attempts - 1)
      else (Some(live[0]), WrrServe(r, tenant, live[1..]))
  }

  /** A visit that finds only stale entries drops them. */
  function WrrSkip(ring: Ring, tenant: TenantId): Ring {
    if tenant in ring.queues then SetIds(ring, tenant, []) else ring
  }

  /** One unit of the tenant's budget is spent; the turn ends with the budget or the queue. */
  function WrrServe(ring: Ring, tenant: TenantId, rest: seq<TaskId>): Ring
    requires tenant in ring.queues
  {
    var budget: u32 := (if ring.budget == 0 then ring.queues[tenant].weight else ring.budget) - 1;
    var served := SetIds(ring, tenant, rest).(budget := budget);
    if budget == 0 || rest == [] then Advance(served) else served
  }

  /** The least offset from k on whose tenant has a queued task, or the ring size. */
  function NextBacklogged(tasks: Tasks, ring: Ring, k: nat): (r: nat)
    requires InRing(ring) && k <= |ring.order|
    ensures k <= r <= |ring.order|
    ensures r < |ring.order| ==> Backlog(tasks, ring, TenantAt(ring, r)) != []
    ensures forall j | k <= j < r :: Backlog(tasks, ring, TenantAt(ring, j)) == []
    decreases |ring.order| - k
  {
    if k == |ring.order| || Backlog(tasks, ring, TenantAt(ring, k)) != [] then k
    else NextBacklogged(tasks, ring, k + 1)
  }

  function WrrPeek(tasks: Tasks, ring: Ring): Option<TaskId>
    requires InRing(ring)
  {
    var k := NextBacklogged(tasks, ring, 0);
    if k == |ring.order| then None else Some(Backlog(tasks, ring, TenantAt(ring, k))[0])
  }

  // ---------------------------------------------------------------------------
  // Deficit round robin

  function Accrue(q: TenantQueue): u64 {
    if q.deficit > U64_MAX - q.weight then U64_MAX else q.deficit + q.weight
  }

  function DrrScan(tasks: Tasks, ring: Ring, attempts: nat): (Option<TaskId>, Ring)
    decreases attempts
  {
    if attempts == 0 || ring.order == [] then (None, ring)
    else
      var r := if ring.cursor >= |ring.order| then ring.(cursor := 0) else ring;
      var tenant := r.order[r.cursor];
      if Affordable(tasks, r, tenant)
      then (Some(Backlog(tasks, r, tenant)[0]), Advance(DrrServe(tasks, r, tenant, Backlog(tasks, r, tenant))))
      else DrrScan(tasks, Advance(DrrVisit(tasks, r, tenant)), attempts - 1)
  }

  /** A visit that serves nothing drops stale entries and, when a task is waiting, grants one quantum. */
  function DrrVisit(tasks: Tasks, ring: Ring, tenant: TenantId): Ring {
    if tenant !in ring.queues then ring
    else
      var q := ring.queues[tenant];
      var live := Backlog(tasks, ring, tenant);
      ring.(queues := ring.queues[tenant := q.(ids := live, deficit := if live == [] then q.deficit else Accrue(q))])
  }

  function DrrServe(tasks: Tasks, ring: Ring, tenant: TenantId, live: seq<TaskId>): Ring
    requires tenant in ring.queues && live != [] && live[0] in tasks
    requires tasks[live[0]].spec.work <= ring.queues[tenant].deficit
  {
    var q := ring.queues[tenant];
    ring.(queues := ring.queues[tenant := q.(ids := live[1..], deficit := q.deficit - tasks[live[0]].spec.work)])
  }

  /** The tenant's head task costs no more than the deficit it has accrued. */
  predicate Affordable(tasks: Tasks, ring: Ring, tenant: TenantId) {
    var live := Backlog(tasks, ring, tenant);
    live != [] && tasks[live[0]].spec.work <= ring.queues[tenant].deficit
  }

  function NextAffordable(tasks: Tasks, ring: Ring, k: nat): (r: nat)
    requires InRing(ring) && k <= |ring.order|
    ensures k <= r <= |ring.order|
    ensures r < |ring.order| ==> Affordable(tasks, ring, TenantAt(ring, r))
    ensures forall j | k <= j < r :: !Affordable(tasks, ring, TenantAt(ring, j))
    decreases |ring.order| - k
  {
    if k == |ring.order| || Affordable(tasks, ring, TenantAt(ring, k)) then k
    else NextAffordable(tasks, ring, k + 1)
  }

  function DrrPeek(tasks: Tasks, ring: Ring): Option<TaskId>
    requires InRing(ring)
  {
    var k := NextAffordable(tasks, ring, 0);
    if k == |ring.order| then None else Some(Backlog(tasks, ring, TenantAt(ring, k))[0])
  }

  // ---------------------------------------------------------------------------
  // Selection under the configured policy

  ghost function Peek(policy: Policy, tasks: Tasks, ring: Ring): Option<TaskId>
    requires InRing(ring)
  {
    match policy
    case Fifo => Best(tasks, ring, Fifo)
    case Priority => Best(tasks, ring, Priority)
    case WeightedRoundRobin => WrrPeek(tasks, ring)
    case DeficitRoundRobin => DrrPeek(tasks, ring)
  }

  ghost function Select(policy: Policy, tasks: Tasks, ring: Ring): (Option<TaskId>, Ring) {
    match policy
    case Fifo => TakeBest(tasks, ring, Fifo)
    case Priority => TakeBest(tasks, ring, Priority)
    case WeightedRoundRobin => WrrScan(tasks, ring, |ring.order|)
    case DeficitRoundRobin => DrrScan(tasks, ring, |ring.order|)
  }
}
