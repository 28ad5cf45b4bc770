/** The read-only peeks agree with the mutating selections, in every state, for all four policies. */
module SchedulerPeek {
  import opened Common
  import opened SchedulerModel

  lemma NextWraps(i: nat, n: nat)
    requires i < n
    ensures (i + 1) % n == Wrap(i + 1, n)
  {
    if i + 1 < n { assert (i + 1) % n == i + 1; } else { assert n % n == 0; }
  }

  lemma AdvanceWraps(ring: Ring)
    requires ring.cursor < |ring.order|
    ensures Advance(ring) == ring.(budget := 0, cursor := Wrap(ring.cursor + 1, |ring.order|))
  {
    NextWraps(ring.cursor, |ring.order|);
  }

  /** r is `ring` after k visits that found nothing to run. */
  lemma {:induction false} WrrScanFinds(tasks: Tasks, ring: Ring, r: Ring, k: nat)
    requires ring.cursor < |ring.order| && k <= |ring.order|
    requires r.order == ring.order && r.cursor == Wrap(ring.cursor + k, |ring.order|)
    requires forall t :: Backlog(tasks, r, t) == Backlog(tasks, ring, t)
    ensures var next := NextBacklogged(tasks, ring, k);
            WrrScan(tasks, r, |ring.order| - k).0
              == if next == |ring.order| then None else Some(Backlog(tasks, ring, TenantAt(ring, next))[0])
    decreases |ring.order| - k
  {
    if k < |ring.order| {
      var tenant := r.order[r.cursor];
      assert tenant == TenantAt(ring, k);
      if Backlog(tasks, r, tenant) == [] {
        AdvanceWraps(WrrSkip(r, tenant));
        hide Advance;
        WrrScanFinds(tasks, ring, Advance(WrrSkip(r, tenant)), k + 1);
      }
    }
  }

  /** r is `ring` after k visits; the tenants still to be visited are as they were. */
  lemma {:induction false} DrrScanFinds(tasks: Tasks, ring: Ring, r: Ring, k: nat)
    requires ring.cursor < |ring.order| && k <= |ring.order| && Distinct(ring.order)
    requires r.order == ring.order && r.cursor == Wrap(ring.cursor + k, |ring.order|)
    requires forall j | k <= j < |ring.order| :: SameQueue(ring, r, TenantAt(ring, j))
    ensures var next := NextAffordable(tasks, ring, k);
            DrrScan(tasks, r, |ring.order| - k).0
              == if next == |ring.order| then None else Some(Backlog(tasks, ring, TenantAt(ring, next))[0])
    decreases |ring.order| - k
  {
    if k < |ring.order| {
      var tenant := r.order[r.cursor];
      assert tenant == TenantAt(ring, k) && SameQueue(ring, r, tenant);
      if !Affordable(tasks, r, tenant) {
        DrrVisitLocal(tasks, ring, r, k);
        hide SameQueue, Affordable, Backlog, DrrVisit, Advance;
        DrrScanFinds(tasks, ring, Advance(DrrVisit(tasks, r, tenant)), k + 1);
      }
    }
  }

  /** A visit touches only the tenant visited. */
  lemma DrrVisitLocal(tasks: Tasks, ring: Ring, r: Ring, k: nat)
    requires ring.cursor < |ring.order| && k < |ring.order| && Distinct(ring.order)
    requires r.order == ring.order && r.cursor == Wrap(ring.cursor + k, |ring.order|)
    requires forall j | k <= j < |ring.order| :: SameQueue(ring, r, TenantAt(ring, j))
    ensures var visited := Advance(DrrVisit(tasks, r, TenantAt(ring, k)));
            && visited.order == ring.order && visited.cursor == Wrap(ring.cursor + k + 1, |ring.order|)
            && forall j | k + 1 <= j < |ring.order| :: SameQueue(ring, visited, TenantAt(ring, j))
  {
    var visited := DrrVisit(tasks, r, TenantAt(ring, k));
    AdvanceWraps(visited);
    forall j | k + 1 <= j < |ring.order| ensures SameQueue(ring, Advance(visited), TenantAt(ring, j)) {
      assert SameQueue(ring, r, TenantAt(ring, j));
    }
  }

  ghost predicate SameQueue(a: Ring, b: Ring, tenant: TenantId) {
    && (tenant in a.queues <==> tenant in b.queues)
    && (tenant in a.queues ==> a.queues[tenant] == b.queues[tenant])
  }

  /** Whatever the policy, the task the selection removes is the one the peek announced. For deficit round
      robin, the peek is empty exactly when the round only accrues. */
  lemma PeekRefinesSelect(policy: Policy, tasks: Tasks, ring: Ring)
    requires InRing(ring) && Distinct(ring.order)
    ensures Select(policy, tasks, ring).0 == Peek(policy, tasks, ring)
  {
    if ring.order != [] {
      hide WrrScan, DrrScan, NextBacklogged, NextAffordable, Backlog;
      WrrScanFinds(tasks, ring, ring, 0);
      DrrScanFinds(tasks, ring, ring, 0);
    }
  }
}
