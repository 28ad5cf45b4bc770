/** How long a waiting tenant waits: bounded waiting for the two round-robin policies, and conservation of
    the deficit counters, over whole runs. */
module SchedulerFairness {
  import opened Common
  import opened SchedulerModel
  import opened SchedulerSteps
  import opened SchedulerPeek
  import opened SchedulerInvariant
  import opened SchedulerRuns

  /** Products are kept apart from the rest of each proof. */
  ghost function Times(a: nat, b: nat): nat {
    a * b
  }

  lemma TimesAdd(a: nat, b: nat, c: nat)
    ensures Times(a, b + c) == Times(a, b) + Times(a, c)
  {
  }

  lemma TimesUnits(a: nat)
    ensures Times(a, 0) == 0 && Times(a, 1) == a
  {
  }

  // ---------------------------------------------------------------------------
  // Selections in a run

  /** The step runs the policy's mutating selection. */
  ghost predicate Selects(s: State, e: Event)
    requires InRing(s.ring)
  {
    match e
    case DispatchNextEvent(_) => MayDispatch(s)
    case DispatchTaskEvent(id, _) =>
      && id != 0 && MayDispatch(s) && Live(s.tasks, id)
      && var next := Peek(s.config.policy, s.tasks, s.ring);
         next == Some(id) || (next.None? && s.config.policy.DeficitRoundRobin?)
    case _ => false
  }

  ghost function Chosen(s: State): Option<TaskId> {
    Select(s.config.policy, s.tasks, s.ring).0
  }

  /** The step takes a task of this tenant off its queue for dispatch. */
  ghost predicate Serves(s: State, e: Event, tenant: TenantId)
    requires InRing(s.ring)
  {
    Selects(s, e) && Chosen(s).Some? && Chosen(s).value in s.tasks && s.tasks[Chosen(s).value].spec.tenant == tenant
  }

  /** Number of selections among the first n steps. */
  ghost function Selections(trace: seq<State>, events: seq<Event>, n: nat): nat
    requires IsRun(trace, events) && n <= |events|
  {
    if n == 0 then 0 else Selections(trace, events, n - 1) + (if Selects(trace[n - 1], events[n - 1]) then 1 else 0)
  }

  /** The same tenants, in the same order, with the same turn, weights and deficits. */
  ghost predicate SameTurn(a: Ring, b: Ring) {
    && a.order == b.order && a.cursor == b.cursor && a.budget == b.budget
    && a.queues.Keys == b.queues.Keys
    && forall t | t in a.queues ::
         a.queues[t].weight == b.queues[t].weight && a.queues[t].deficit == b.queues[t].deficit
  }

  /** Only a selection moves the turn; nothing else touches weights or deficits of known tenants. */
  lemma StepTurn(s: State, e: Event)
    requires Inv(s)
    ensures Selects(s, e) ==> Step(s, e).ring == Select(s.config.policy, s.tasks, s.ring).1
    ensures !Selects(s, e) && Step(s, e).ring.order == s.ring.order ==> SameTurn(s.ring, Step(s, e).ring)
    ensures Step(s, e).config == s.config
  {
    hide QueuesOk, RunningOk, TasksOk, LedgerOk, BoundsOk, ReservationBlocks, Peek, Select;
    match e
    case DispatchTaskEvent(id, fault) =>
      PeekRefinesSelect(s.config.policy, s.tasks, s.ring);
    case SuspendEvent(id, _) =>
      if id in s.tasks { assert SameTurn(s.ring, s.ring); }
    case SubmitEvent(spec, _) =>
      assert |s.ring.order + [spec.tenant]| != |s.ring.order|;
    case _ =>
  }

  // ---------------------------------------------------------------------------
  // Weighted round robin

  ghost function WeightAt(ring: Ring, i: nat): nat
    requires i < |ring.order|
  {
    if ring.order[i] in ring.queues then ring.queues[ring.order[i]].weight else 0
  }

  /** Total weight of the tenants at positions a .. b-1. */
  ghost function Weights(ring: Ring, a: nat, b: nat): nat
    requires a <= b <= |ring.order|
    decreases b - a
  {
    if a == b then 0 else WeightAt(ring, a) + Weights(ring, a + 1, b)
  }

  lemma {:induction false} WeightsSplit(ring: Ring, a: nat, m: nat, b: nat)
    requires a <= m <= b <= |ring.order|
    ensures Weights(ring, a, b) == Weights(ring, a, m) + Weights(ring, m, b)
    decreases m - a
  {
    if a < m { WeightsSplit(ring, a + 1, m, b); }
  }

  lemma {:induction false} WeightsSame(r: Ring, q: Ring, a: nat, b: nat)
    requires a <= b <= |r.order| && SameTenants(r, q)
    ensures Weights(r, a, b) == Weights(q, a, b)
    decreases b - a
  {
    if a < b { WeightsSame(r, q, a + 1, b); }
  }

  /** What is left of the current turn. */
  ghost function TurnLeft(ring: Ring): nat
    requires ring.cursor < |ring.order|
  {
    if ring.budget == 0 then WeightAt(ring, ring.cursor) else ring.budget
  }

  /** Selections that can still go to others before the tenant at position p has its turn: the rest of the
      current turn and the weights of the tenants between. */
  ghost function Ahead(ring: Ring, p: nat): nat
    requires ring.cursor < |ring.order| && p < |ring.order|
  {
    if ring.cursor == p then 0
    else if ring.cursor < p then TurnLeft(ring) + Weights(ring, ring.cursor + 1, p)
    else TurnLeft(ring) + Weights(ring, ring.cursor + 1, |ring.order|) + Weights(ring, 0, p)
  }

  ghost function OtherWeights(ring: Ring, p: nat): nat
    requires p < |ring.order|
  {
    Weights(ring, 0, p) + Weights(ring, p + 1, |ring.order|)
  }

  lemma AheadAtMostOthers(ring: Ring, p: nat)
    requires RingOk(ring) && p < |ring.order|
    ensures Ahead(ring, p) <= OtherWeights(ring, p)
  {
    if ring.cursor < p {
      WeightsSplit(ring, 0, ring.cursor, p);
    } else if p < ring.cursor {
      WeightsSplit(ring, p + 1, ring.cursor, |ring.order|);
    }
  }

  /** Ending the current turn removes exactly what was left of it from the wait. */
  lemma AheadAdvance(ring: Ring, p: nat)
    requires RingOk(ring) && p < |ring.order| && ring.cursor != p
    ensures Ahead(Advance(ring), p) + TurnLeft(ring) == Ahead(ring, p)
    ensures TurnLeft(ring) >= 1
  {
    AdvanceWraps(ring);
    var next := Advance(ring);
    assert ring.order[ring.cursor] in ring.order;
    WeightsSame(next, ring, 0, p);
    WeightsSame(next, ring, ring.cursor + 1, |ring.order|);
    if ring.cursor < p { WeightsSame(next, ring, ring.cursor + 1, p); }
  }

  lemma AheadDepends(r: Ring, q: Ring, p: nat)
    requires SameTenants(r, q) && r.cursor == q.cursor < |r.order| && r.budget == q.budget && p < |r.order|
    ensures Ahead(r, p) == Ahead(q, p)
  {
    WeightsSame(r, q, 0, p);
    WeightsSame(r, q, r.cursor + 1, |r.order|);
    if r.cursor < p { WeightsSame(r, q, r.cursor + 1, p); }
  }

  ghost function Gap(ring: Ring, p: nat): nat
    requires ring.cursor < |ring.order| && p < |ring.order|
  {
    if ring.cursor <= p then p - ring.cursor else p + |ring.order| - ring.cursor
  }

  /** Serving the tenant at the cursor uses up one selection of the wait of every other tenant. */
  lemma WrrServeDrops(tasks: Tasks, ring: Ring, tenant: TenantId, p: nat)
    requires RingOk(ring) && QueuesOk(tasks, ring) && p < |ring.order| && ring.cursor != p
    requires tenant == ring.order[ring.cursor] && Backlog(tasks, ring, tenant) != []
    ensures var after := WrrServe(ring, tenant, Backlog(tasks, ring, tenant)[1..]);
            after.cursor < |after.order| == |ring.order| && Ahead(after, p) < Ahead(ring, p)
  {
    hide QueuesOk, Ahead;
    BacklogIsQueue(tasks, ring, tenant);
    var rest := Backlog(tasks, ring, tenant)[1..];
    hide Backlog;
    var after := WrrServe(ring, tenant, rest);
    var dropped := SetIds(ring, tenant, rest);
    AheadDepends(ring, dropped, p);
    AheadAdvance(dropped, p);
    AdvanceWraps(dropped);
    if after.cursor == ring.cursor {
      AheadOneLess(dropped, after.budget, p);
    }
  }

  lemma AheadOneLess(ring: Ring, budget: u32, p: nat)
    requires RingOk(ring) && p < |ring.order| && ring.cursor != p && 0 < budget == TurnLeft(ring) - 1
    ensures Ahead(ring.(budget := budget), p) < Ahead(ring, p)
  {
    var less := ring.(budget := budget);
    WeightsSame(less, ring, 0, p);
    WeightsSame(less, ring, ring.cursor + 1, |ring.order|);
    if ring.cursor < p { WeightsSame(less, ring, ring.cursor + 1, p); }
  }

  lemma WrrSkipDrops(tasks: Tasks, ring: Ring, tenant: TenantId, p: nat)
    requires RingOk(ring) && QueuesOk(tasks, ring) && p < |ring.order|
    requires tenant == ring.order[ring.cursor] && Backlog(tasks, ring, tenant) == []
             && Backlog(tasks, ring, ring.order[p]) != []
    ensures var visited := Advance(WrrSkip(ring, tenant));
            && visited.cursor < |visited.order| && visited.order == ring.order
            && Gap(visited, p) + 1 == Gap(ring, p) && Ahead(visited, p) < Ahead(ring, p)
            && Backlog(tasks, visited, ring.order[p]) == Backlog(tasks, ring, ring.order[p])
  {
    assert tenant in ring.order;
    BacklogIsQueue(tasks, ring, tenant);
    assert WrrSkip(ring, tenant).queues == ring.queues;
    AdvanceWraps(ring);
    AheadAdvance(ring, p);
  }

  lemma WrrServeServes(tasks: Tasks, ring: Ring, tenant: TenantId, p: nat)
    requires RingOk(ring) && QueuesOk(tasks, ring) && p < |ring.order|
    requires ring.cursor < |ring.order| && tenant == ring.order[ring.cursor] && Backlog(tasks, ring, tenant) != []
    ensures var id := Backlog(tasks, ring, tenant)[0];
            var after := WrrServe(ring, tenant, Backlog(tasks, ring, tenant)[1..]);
            && id in tasks && after.order == ring.order && after.cursor < |after.order|
            && (tasks[id].spec.tenant == ring.order[p] || Ahead(after, p) < Ahead(ring, p))
  {
    BacklogIsQueue(tasks, ring, tenant);
    WrrServeTakes(tasks, ring, tenant);
    if ring.cursor != p {
      hide QueuesOk, RingOk, Ahead, WrrServe;
      WrrServeDrops(tasks, ring, tenant, p);
    }
  }

  /** While the tenant at p is backlogged every selection serves somebody, and unless it serves that tenant
      its wait strictly falls. */
  lemma {:induction false} WrrScanDrops(tasks: Tasks, ring: Ring, attempts: nat, p: nat)
    requires RingOk(ring) && QueuesOk(tasks, ring) && p < |ring.order| && ring.cursor < |ring.order|
    requires Backlog(tasks, ring, ring.order[p]) != [] && Gap(ring, p) < attempts
    ensures var (id, after) := WrrScan(tasks, ring, attempts);
            && id.Some? && id.value in tasks && after.order == ring.order && after.cursor < |after.order|
            && (tasks[id.value].spec.tenant == ring.order[p] || Ahead(after, p) < Ahead(ring, p))
    decreases attempts
  {
    hide QueuesOk, RingOk, Ahead, WrrServe, WrrSkip, Advance, Backlog, Gap, TookNone;
    var tenant := ring.order[ring.cursor];
    if Backlog(tasks, ring, tenant) != [] {
      WrrServeServes(tasks, ring, tenant, p);
    } else {
      WrrSkipKeeps(tasks, ring, tenant);
      WrrSkipDrops(tasks, ring, tenant, p);
      WrrScanDrops(tasks, Advance(WrrSkip(ring, tenant)), attempts - 1, p);
    }
  }

  /** The tenant at position p of the first state's ring waits throughout the run, among the same tenants,
      and no selection serves it. */
  ghost predicate Waits(trace: seq<State>, events: seq<Event>, p: nat) {
    && IsRun(trace, events)
    && p < |trace[0].ring.order|
    && (forall i | 0 <= i < |trace| ::
          && trace[i].ring.order == trace[0].ring.order
          && Backlog(trace[i].tasks, trace[i].ring, trace[0].ring.order[p]) != [])
    && (forall i | 0 <= i < |events| :: InRing(trace[i].ring) && !Serves(trace[i], events[i], trace[0].ring.order[p]))
  }

  lemma WrrStepDrops(s: State, e: Event, p: nat)
    requires Inv(s) && s.config.policy == WeightedRoundRobin
    requires p < |s.ring.order| && Backlog(s.tasks, s.ring, s.ring.order[p]) != []
    requires !Serves(s, e, s.ring.order[p])
    requires Step(s, e).ring.order == s.ring.order && InRing(Step(s, e).ring)
    ensures (if Selects(s, e) then 1 else 0) + Ahead(Step(s, e).ring, p) <= Ahead(s.ring, p)
  {
    StepTurn(s, e);
    hide Step, Selects, QueuesOk, Ahead, RunningOk, TasksOk, LedgerOk, BoundsOk;
    if Selects(s, e) {
      WrrScanDrops(s.tasks, s.ring, |s.ring.order|, p);
    } else {
      AheadDepends(s.ring, Step(s, e).ring, p);
    }
  }

  lemma {:induction false} WrrWait(trace: seq<State>, events: seq<Event>, p: nat, n: nat)
    requires Waits(trace, events, p) && n <= |events| && trace[0].config.policy == WeightedRoundRobin
    ensures trace[n].config == trace[0].config && InRing(trace[n].ring) && trace[n].ring.order == trace[0].ring.order
    ensures Selections(trace, events, n) + Ahead(trace[n].ring, p) <= Ahead(trace[0].ring, p)
  {
    hide Step, Selects, Serves, Ahead, Backlog, RingOk, QueuesOk, RunningOk, TasksOk, LedgerOk, BoundsOk, InRing;
    RunInRing(trace, events, n);
    if n > 0 {
      WrrWait(trace, events, p, n - 1);
      RunKeeps(trace, events, n - 1);
      StepTurn(trace[n - 1], events[n - 1]);
      WrrStepDrops(trace[n - 1], events[n - 1], p);
    }
  }

  lemma RunInRing(trace: seq<State>, events: seq<Event>, n: nat)
    requires IsRun(trace, events) && n < |trace|
    ensures InRing(trace[n].ring)
  {
    RunKeeps(trace, events, n);
  }

  /** Weighted round robin: a backlogged tenant is passed over at most as often as the other tenants'
      weights add up to. */
  lemma WrrBoundedWaiting(trace: seq<State>, events: seq<Event>, p: nat)
    requires Waits(trace, events, p) && trace[0].config.policy == WeightedRoundRobin
    ensures Selections(trace, events, |events|) <= OtherWeights(trace[0].ring, p)
  {
    WrrWait(trace, events, p, |events|);
    AheadAtMostOthers(trace[0].ring, p);
  }

  // ---------------------------------------------------------------------------
  // Deficit round robin: bounded waiting

  /** Quanta still needed before the head task is affordable. */
  ghost function QuantaNeeded(cost: nat, deficit: nat, weight: Weight): nat
    decreases cost - deficit
  {
    if deficit >= cost then 0 else 1 + QuantaNeeded(cost, deficit + weight, weight)
  }

  /** The number of quanta needed is the shortfall divided by the weight, rounded up. */
  lemma {:induction false} QuantaNeededIsCeiling(cost: nat, deficit: nat, weight: Weight)
    ensures var needed := QuantaNeeded(cost, deficit, weight);
            && deficit + needed * weight >= cost
            && (needed > 0 ==> deficit + (needed - 1) * weight < cost)
    decreases cost - deficit
  {
    if deficit < cost {
      QuantaNeededIsCeiling(cost, deficit + weight, weight);
      var needed := QuantaNeeded(cost, deficit + weight, weight);
      assert (needed + 1) * weight == needed * weight + weight;
      if needed > 0 { assert (needed - 1) * weight + weight == needed * weight; }
    }
  }

  /** Visits still to come before the tenant's head is served: a full round for every quantum needed, and
      the way to its next visit. */
  ghost function VisitsLeft(tasks: Tasks, ring: Ring, p: nat, head: TaskId): nat
    requires ring.cursor < |ring.order| && p < |ring.order| && ring.order[p] in ring.queues && head in tasks
  {
    var q := ring.queues[ring.order[p]];
    Times(|ring.order|, QuantaNeeded(tasks[head].spec.work, q.deficit, q.weight)) + Gap(ring, p)
  }

  ghost predicate Heads(tasks: Tasks, ring: Ring, p: nat, head: TaskId) {
    && p < |ring.order| && ring.order[p] in ring.queues
    && var ids := ring.queues[ring.order[p]].ids;
       ids != [] && ids[0] == head
  }

  lemma DrrVisitDrops(tasks: Tasks, ring: Ring, p: nat, head: TaskId)
    requires RingOk(ring) && QueuesOk(tasks, ring) && Heads(tasks, ring, p, head)
    requires !Affordable(tasks, ring, ring.order[ring.cursor])
    ensures var visited := Advance(DrrVisit(tasks, ring, ring.order[ring.cursor]));
            && visited.order == ring.order && visited.cursor < |ring.order| && Heads(tasks, visited, p, head)
            && head in tasks && VisitsLeft(tasks, visited, p, head) + 1 == VisitsLeft(tasks, ring, p, head)
  {
    var tenant := ring.order[ring.cursor];
    assert tenant in ring.order && ring.order[p] in ring.order;
    BacklogIsQueue(tasks, ring, tenant);
    BacklogIsQueue(tasks, ring, ring.order[p]);
    var visited := DrrVisit(tasks, ring, tenant);
    AdvanceWraps(visited);
    if ring.cursor == p {
      var q := ring.queues[tenant];
      assert Accrue(q) == q.deficit + q.weight;
      var needed := QuantaNeeded(tasks[head].spec.work, q.deficit, q.weight);
      TimesAdd(|ring.order|, needed - 1, 1);
      TimesUnits(|ring.order|);
    } else {
      assert visited.queues[ring.order[p]] == ring.queues[ring.order[p]];
    }
  }

  lemma DrrServeDrops(tasks: Tasks, ring: Ring, p: nat, head: TaskId)
    requires RingOk(ring) && QueuesOk(tasks, ring) && Heads(tasks, ring, p, head) && ring.cursor != p
    requires Affordable(tasks, ring, ring.order[ring.cursor])
    ensures var live := Backlog(tasks, ring, ring.order[ring.cursor]);
            var served := Advance(DrrServe(tasks, ring, ring.order[ring.cursor], live));
            && served.order == ring.order && served.cursor < |ring.order| && ring.order[p] in served.queues
            && head in tasks && VisitsLeft(tasks, served, p, head) + 1 == VisitsLeft(tasks, ring, p, head)
  {
    var tenant := ring.order[ring.cursor];
    assert tenant != ring.order[p];
    AdvanceWraps(DrrServe(tasks, ring, tenant, Backlog(tasks, ring, tenant)));
  }

  /** Every visit of a round that does not serve the waiting head brings it one visit closer. */
  lemma {:induction false} DrrScanDrops(tasks: Tasks, ring: Ring, attempts: nat, p: nat, head: TaskId)
    requires RingOk(ring) && QueuesOk(tasks, ring) && Heads(tasks, ring, p, head) && head in tasks
    ensures var (id, after) := DrrScan(tasks, ring, attempts);
            id == Some(head)
            || (&& after.order == ring.order && after.cursor < |ring.order| && ring.order[p] in after.queues
                && VisitsLeft(tasks, after, p, head)
                   + (if attempts > 0 then 1 else 0) <= VisitsLeft(tasks, ring, p, head))
    decreases attempts
  {
    if attempts > 0 {
      var tenant := ring.order[ring.cursor];
      BacklogIsQueue(tasks, ring, tenant);
      if !Affordable(tasks, ring, tenant) {
        DrrVisitKeeps(tasks, ring);
        DrrVisitDrops(tasks, ring, p, head);
        hide QueuesOk, RingOk, Heads, VisitsLeft, DrrVisit, Affordable, Advance;
        DrrScanDrops(tasks, Advance(DrrVisit(tasks, ring, tenant)), attempts - 1, p, head);
      } else if ring.cursor != p {
        DrrServeDrops(tasks, ring, p, head);
      }
    }
  }

  /** The same task heads the queue of the tenant at position p throughout the run, among the same tenants,
      and no selection takes it. */
  ghost predicate HeadWaits(trace: seq<State>, events: seq<Event>, p: nat, head: TaskId) {
    && IsRun(trace, events)
    && (forall i | 0 <= i < |trace| ::
          && trace[i].ring.order == trace[0].ring.order
          && Heads(trace[i].tasks, trace[i].ring, p, head) && head in trace[i].tasks)
    && (forall i | 0 <= i < |events| ::
          InRing(trace[i].ring) && !(Selects(trace[i], events[i]) && Chosen(trace[i]) == Some(head)))
  }

  /** A task's parameters never change while it is known. */
  lemma SpecsStay(s: State, e: Event, id: TaskId)
    requires TasksOk(s) && InRing(s.ring) && Distinct(s.ring.order) && id in s.tasks && id in Step(s, e).tasks
    ensures Step(s, e).tasks[id].spec == s.tasks[id].spec
  {
    Fresh(s);
    StepRecords(s, e);
    hide TasksOk, Step, Dispatched;
  }

  lemma DrrStepDrops(s: State, e: Event, p: nat, head: TaskId)
    requires Inv(s) && s.config.policy == DeficitRoundRobin
    requires Heads(s.tasks, s.ring, p, head) && head in s.tasks && !(Selects(s, e) && Chosen(s) == Some(head))
    requires Step(s, e).ring.order == s.ring.order && InRing(Step(s, e).ring)
    requires Heads(Step(s, e).tasks, Step(s, e).ring, p, head) && head in Step(s, e).tasks
    ensures (if Selects(s, e) then 1 else 0) + VisitsLeft(Step(s, e).tasks, Step(s, e).ring, p, head)
            <= VisitsLeft(s.tasks, s.ring, p, head)
  {
    StepTurn(s, e);
    SpecsStay(s, e, head);
    hide Step, Selects, QueuesOk, RunningOk, TasksOk, LedgerOk, BoundsOk, Heads;
    if Selects(s, e) {
      DrrScanDrops(s.tasks, s.ring, |s.ring.order|, p, head);
    }
  }

  lemma {:induction false} DrrWait(trace: seq<State>, events: seq<Event>, p: nat, head: TaskId, n: nat)
    requires HeadWaits(trace, events, p, head) && n <= |events| && trace[0].config.policy == DeficitRoundRobin
    ensures trace[n].config == trace[0].config && InRing(trace[n].ring) && Heads(trace[n].tasks, trace[n].ring, p, head)
    ensures Selections(trace, events, n) + VisitsLeft(trace[n].tasks, trace[n].ring, p, head)
            <= VisitsLeft(trace[0].tasks, trace[0].ring, p, head)
  {
    hide Step, Selects, VisitsLeft, RingOk, QueuesOk, RunningOk, TasksOk, LedgerOk, BoundsOk, Select;
    RunInRing(trace, events, n);
    assert Heads(trace[n].tasks, trace[n].ring, p, head) && Heads(trace[0].tasks, trace[0].ring, p, head);
    if n > 0 {
      DrrWait(trace, events, p, head, n - 1);
      hide Heads, InRing;
      RunKeeps(trace, events, n - 1);
      StepTurn(trace[n - 1], events[n - 1]);
      DrrStepDrops(trace[n - 1], events[n - 1], p, head);
    }
  }

  /** N times one more than the quanta the head lacks, for N tenants. */
  ghost function WaitLimit(ring: Ring, p: nat, cost: nat): nat
    requires p < |ring.order| && ring.order[p] in ring.queues
  {
    var q := ring.queues[ring.order[p]];
    |ring.order| * (QuantaNeeded(cost, q.deficit, q.weight) + 1)
  }

  lemma VisitsBelowLimit(tasks: Tasks, ring: Ring, p: nat, head: TaskId)
    requires ring.cursor < |ring.order| && p < |ring.order| && ring.order[p] in ring.queues && head in tasks
    ensures VisitsLeft(tasks, ring, p, head) < WaitLimit(ring, p, tasks[head].spec.work)
  {
  }

  /** Deficit round robin: an unchanged head among N tenants is selected within N selections for every
      quantum it lacks, plus N, empty rounds counted. */
  lemma DrrBoundedWaiting(trace: seq<State>, events: seq<Event>, p: nat, head: TaskId)
    requires HeadWaits(trace, events, p, head) && trace[0].config.policy == DeficitRoundRobin
    ensures p < |trace[0].ring.order| && trace[0].ring.order[p] in trace[0].ring.queues && head in trace[0].tasks
    ensures Selections(trace, events, |events|) < WaitLimit(trace[0].ring, p, trace[0].tasks[head].spec.work)
  {
    assert Heads(trace[0].tasks, trace[0].ring, p, head) && InRing(trace[0].ring);
    hide Inv, Step, Selects, HeadWaits, WaitLimit, VisitsLeft;
    DrrWait(trace, events, p, head, |events|);
    VisitsBelowLimit(trace[0].tasks, trace[0].ring, p, head);
  }

  // ---------------------------------------------------------------------------
  // Deficit round robin: conservation

  /** Quanta a scan grants to the tenant. */
  ghost function QuantaGranted(tasks: Tasks, ring: Ring, attempts: nat, tenant: TenantId): nat
    decreases attempts
  {
    if attempts == 0 || ring.cursor >= |ring.order| then 0
    else
      var visited := ring.order[ring.cursor];
      if Affordable(tasks, ring, visited) then 0
      else (if visited == tenant && Backlog(tasks, ring, tenant) != [] then 1 else 0)
           + QuantaGranted(tasks, Advance(DrrVisit(tasks, ring, visited)), attempts - 1, tenant)
  }

  ghost function WorkOf(tasks: Tasks, chosen: Option<TaskId>, tenant: TenantId): nat {
    if chosen.Some? && chosen.value in tasks && tasks[chosen.value].spec.tenant == tenant
      then tasks[chosen.value].spec.work else 0
  }

  /** A visit that serves nothing adds exactly the quantum it grants; the saturating branch is not taken. */
  lemma DrrVisitBooks(tasks: Tasks, ring: Ring, tenant: TenantId)
    requires RingOk(ring) && QueuesOk(tasks, ring) && tenant in ring.queues && ring.order != []
    requires !Affordable(tasks, ring, ring.order[ring.cursor])
    ensures var visited := Advance(DrrVisit(tasks, ring, ring.order[ring.cursor]));
            && tenant in visited.queues && visited.queues[tenant].weight == ring.queues[tenant].weight
            && visited.queues[tenant].deficit == ring.queues[tenant].deficit
               + (if ring.order[ring.cursor] == tenant && Backlog(tasks, ring, tenant) != []
                 then ring.queues[tenant].weight else 0)
  {
    BacklogIsQueue(tasks, ring, ring.order[ring.cursor]);
  }

  lemma DrrServeBooks(tasks: Tasks, ring: Ring, current: TenantId, tenant: TenantId)
    requires RingOk(ring) && QueuesOk(tasks, ring) && tenant in ring.queues && ring.order != []
    requires current == ring.order[ring.cursor] && Affordable(tasks, ring, current)
    ensures var live := Backlog(tasks, ring, current);
            var served := Advance(DrrServe(tasks, ring, current, live));
            && tenant in served.queues && served.queues[tenant].weight == ring.queues[tenant].weight
            && served.queues[tenant].deficit + WorkOf(tasks, Some(live[0]), tenant) == ring.queues[tenant].deficit
  {
    BacklogIsQueue(tasks, ring, current);
  }

  /** How a scan and its grants unfold at the tenant visited. */
  lemma DrrScanUnfolds(tasks: Tasks, ring: Ring, attempts: nat, tenant: TenantId)
    requires 0 < attempts && ring.cursor < |ring.order|
    ensures var current := ring.order[ring.cursor];
            var live := Backlog(tasks, ring, current);
            var visited := Advance(DrrVisit(tasks, ring, current));
            if Affordable(tasks, ring, current)
            then
              && DrrScan(tasks, ring, attempts) == (Some(live[0]), Advance(DrrServe(tasks, ring, current, live)))
              && QuantaGranted(tasks, ring, attempts, tenant) == 0
            else
              && DrrScan(tasks, ring, attempts) == DrrScan(tasks, visited, attempts - 1)
              && QuantaGranted(tasks, ring, attempts, tenant)
                 == (if current == tenant && Backlog(tasks, ring, tenant) != [] then 1 else 0)
                    + QuantaGranted(tasks, visited, attempts - 1, tenant)
  {
  }

  lemma DrrScanStops(tasks: Tasks, ring: Ring, tenant: TenantId)
    ensures DrrScan(tasks, ring, 0) == (None, ring) && QuantaGranted(tasks, ring, 0, tenant) == 0
            && WorkOf(tasks, None, tenant) == 0
  {
  }

  lemma RingInhabited(ring: Ring, tenant: TenantId)
    requires RingOk(ring) && tenant in ring.queues
    ensures ring.cursor < |ring.order|
  {
    assert tenant in ring.order;
  }

  lemma {:induction false} DrrScanBooks(tasks: Tasks, ring: Ring, attempts: nat, tenant: TenantId)
    requires RingOk(ring) && QueuesOk(tasks, ring) && tenant in ring.queues
    ensures var (id, after) := DrrScan(tasks, ring, attempts);
            && tenant in after.queues && after.queues[tenant].weight == ring.queues[tenant].weight
            && after.queues[tenant].deficit + WorkOf(tasks, id, tenant)
               == ring.queues[tenant].deficit + Times(ring.queues[tenant].weight,
                 QuantaGranted(tasks, ring, attempts, tenant))
    decreases attempts
  {
    hide QueuesOk, RingOk, DrrVisit, DrrServe, Affordable, Backlog, Advance, Times, WorkOf, TookNone, DrrScan,
      QuantaGranted;
    TimesUnits(ring.queues[tenant].weight);
    if attempts == 0 {
      DrrScanStops(tasks, ring, tenant);
    } else {
      RingInhabited(ring, tenant);
      var current := ring.order[ring.cursor];
      DrrScanUnfolds(tasks, ring, attempts, tenant);
      if Affordable(tasks, ring, current) {
        DrrServeBooks(tasks, ring, current, tenant);
      } else {
        var visited := Advance(DrrVisit(tasks, ring, current));
        DrrVisitKeeps(tasks, ring);
        DrrVisitBooks(tasks, ring, tenant);
        DrrScanBooks(tasks, visited, attempts - 1, tenant);
        TimesAdd(ring.queues[tenant].weight, 1, QuantaGranted(tasks, visited, attempts - 1, tenant));
      }
    }
  }

  ghost function Quanta(trace: seq<State>, events: seq<Event>, tenant: TenantId, n: nat): nat
    requires IsRun(trace, events) && n <= |events|
  {
    if n == 0 then 0
    else
      var s := trace[n - 1];
      Quanta(trace, events, tenant, n - 1)
      + (if Selects(s, events[n - 1]) then QuantaGranted(s.tasks, s.ring, |s.ring.order|, tenant) else 0)
  }

  ghost function WorkServed(trace: seq<State>, events: seq<Event>, tenant: TenantId, n: nat): nat
    requires IsRun(trace, events) && n <= |events|
  {
    if n == 0 then 0
    else
      var s := trace[n - 1];
      WorkServed(trace, events, tenant, n - 1)
        + (if Selects(s, events[n - 1]) then WorkOf(s.tasks, Chosen(s), tenant) else 0)
  }

  ghost function Deficit(ring: Ring, tenant: TenantId): nat {
    if tenant in ring.queues then ring.queues[tenant].deficit else 0
  }

  ghost function WeightOf(ring: Ring, tenant: TenantId): nat {
    if tenant in ring.queues then ring.queues[tenant].weight else 0
  }

  /** One step: a known tenant keeps its weight and its books; an unknown one has none. */
  lemma DrrStepBooks(s: State, e: Event, tenant: TenantId)
    requires Inv(s) && s.config.policy == DeficitRoundRobin
    ensures var after := Step(s, e).ring;
            var work := if Selects(s, e) then WorkOf(s.tasks, Chosen(s), tenant) else 0;
            var quanta := if Selects(s, e) then QuantaGranted(s.tasks, s.ring, |s.ring.order|, tenant) else 0;
            if tenant in s.ring.queues
            then
              && WeightOf(after, tenant) == WeightOf(s.ring, tenant)
              && tenant in after.queues
              && Deficit(after, tenant) + work == Deficit(s.ring, tenant) + Times(WeightOf(s.ring, tenant), quanta)
            else work == 0 && quanta == 0 && Deficit(after, tenant) == 0
  {
    StepTurn(s, e);
    hide QueuesOk, RunningOk, TasksOk, LedgerOk, BoundsOk, Step, Selects;
    if Selects(s, e) {
      if tenant in s.ring.queues {
        DrrScanBooks(s.tasks, s.ring, |s.ring.order|, tenant);
      } else {
        StrangersBooks(s.tasks, s.ring, |s.ring.order|, tenant);
        SelectTakes(s);
        StrangersTask(s, tenant);
      }
    } else {
      GrowthBooks(s, e, tenant);
    }
  }

  lemma StrangersTask(s: State, tenant: TenantId)
    requires TasksOk(s) && tenant !in s.ring.queues
    ensures forall id | id in s.tasks :: s.tasks[id].spec.tenant != tenant
  {
    forall id | id in s.tasks ensures s.tasks[id].spec.tenant != tenant { assert TaskOk(s, id); }
  }

  lemma {:induction false} StrangersBooks(tasks: Tasks, ring: Ring, attempts: nat, tenant: TenantId)
    requires tenant !in ring.queues
    ensures QuantaGranted(tasks, ring, attempts, tenant) == 0
    decreases attempts
  {
    if attempts > 0 && ring.cursor < |ring.order| {
      StrangersBooks(tasks, Advance(DrrVisit(tasks, ring, ring.order[ring.cursor])), attempts - 1, tenant);
    }
  }

  /** A step without a selection leaves known tenants alone and admits new ones with an empty deficit. */
  lemma GrowthBooks(s: State, e: Event, tenant: TenantId)
    requires Inv(s) && !Selects(s, e)
    ensures var after := Step(s, e).ring;
            && (tenant in s.ring.queues ==> tenant in after.queues)
            && (tenant in s.ring.queues ==> WeightOf(after, tenant) == WeightOf(s.ring, tenant))
            && Deficit(after, tenant) == Deficit(s.ring, tenant)
  {
    StepTurn(s, e);
    hide QueuesOk, RunningOk, TasksOk, LedgerOk, BoundsOk;
    if !e.SubmitEvent? { OnlySubmitAdds(s, e); }
  }

  lemma OnlySubmitAdds(s: State, e: Event)
    requires InRing(s.ring) && Distinct(s.ring.order) && !e.SubmitEvent? && !Selects(s, e)
    ensures Step(s, e).ring.order == s.ring.order
  {
    PeekRefinesSelect(s.config.policy, s.tasks, s.ring);
    hide Peek, Select, ReservationBlocks;
  }

  lemma {:induction false} DrrBooks(trace: seq<State>, events: seq<Event>, tenant: TenantId, n: nat)
    requires IsRun(trace, events) && n <= |events| && trace[0].config.policy == DeficitRoundRobin
    ensures trace[n].config == trace[0].config
    ensures tenant !in trace[n].ring.queues ==>
              && Quanta(trace, events, tenant, n) == 0 && WorkServed(trace, events, tenant, n) == 0
              && Deficit(trace[0].ring, tenant) == 0
    ensures Deficit(trace[n].ring, tenant) + WorkServed(trace, events, tenant, n)
            == Deficit(trace[0].ring, tenant) + Times(WeightOf(trace[n].ring, tenant), Quanta(trace, events, tenant, n))
  {
    hide Inv, Step, Selects, WorkOf, QuantaGranted, Times, InRing, Select;
    TimesUnits(WeightOf(trace[n].ring, tenant));
    if n > 0 {
      var s := trace[n - 1];
      DrrBooks(trace, events, tenant, n - 1);
      RunKeeps(trace, events, n - 1);
      DrrStepBooks(s, events[n - 1], tenant);
      ConfigStays(s, events[n - 1]);
      TimesAdd(WeightOf(s.ring, tenant), Quanta(trace, events, tenant, n - 1),
               if Selects(s, events[n - 1]) then QuantaGranted(s.tasks, s.ring, |s.ring.order|, tenant) else 0);
    }
  }

  /** Deficit round robin: for every tenant, at every point of every run, the deficit plus the work selected
      equals the deficit at the start plus its weight times the quanta it was granted. */
  lemma DrrConservation(trace: seq<State>, events: seq<Event>, tenant: TenantId, n: nat)
    requires IsRun(trace, events) && n <= |events| && trace[0].config.policy == DeficitRoundRobin
    ensures Deficit(trace[n].ring, tenant) + WorkServed(trace, events, tenant, n)
            == Deficit(trace[0].ring, tenant) + WeightOf(trace[n].ring, tenant) * Quanta(trace, events, tenant, n)
  {
    hide Inv, IsRun, Quanta, WorkServed;
    DrrBooks(trace, events, tenant, n);
  }

  lemma ConfigStays(s: State, e: Event)
    requires Inv(s)
    ensures Step(s, e).config == s.config
  {
    StepTurn(s, e);
  }
}
