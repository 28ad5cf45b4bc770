/** What two reclaims, a grace period apart, make of a slot: wherever its owner died, and wherever an earlier
    recovery died, the slot is emptied and each total is the sum over the survivors. */
module SharedQuotaTwoPhase {
  import opened Common
  import opened SharedQuotaModel
  import opened SharedQuotaCrash
  import opened SharedQuotaReclaim
  import opened SharedQuotaRecovery

  function ReclaimTwice(r: Region, p: nat, identity: Identity, first: u64, second: u64): Region
    requires Shaped(r) && p < |r.slots|
  {
    ReclaimSlot(ReclaimSlot(r, p, identity, first).1, p, identity, second).1
  }

  /** One of the two reclaims finds nothing committed, or the grace period over. A mark made at time 0 reads as
      no mark, so the second reclaim only marks again. */
  predicate GivenBack(s: Slot, first: u64, second: u64) {
    if s.orphanedSince == 0
    then !HoldsCommitted(s) || (first != 0 && GraceOver(s.(orphanedSince := first), second))
    else GraceOver(s, first) || GraceOver(s, second)
  }

  /** Exactly when two reclaims evict the slot; otherwise it still belongs to the same registration, with its
      committed bytes charged. */
  lemma TwoPhases(r: Region, p: nat, identity: Identity, first: u64, second: u64)
    requires Accounted(r) && p < |r.slots| && Reclaimable(r, p, identity)
    ensures Holds(r, p)
    ensures var after := ReclaimTwice(r, p, identity, first, second);
            && Accounted(after)
            && (GivenBack(r.slots[p], first, second) ==> after == Evict(r, p))
            && (!GivenBack(r.slots[p], first, second) ==>
                  Reclaimable(after, p, identity) && after.slots[p].committed == r.slots[p].committed)
  {
    hide Accounted, ReclaimSlot, Touches, Evict, Holds, Returned, HoldsCommitted;
    StillShaped(r);
    var half := ReclaimSlot(r, p, identity, first).1;
    var after := ReclaimSlot(half, p, identity, second).1;
    ReclaimSlotKeeps(r, p, identity, first);
    StillShaped(half);
    ReclaimSlotKeeps(half, p, identity, second);
    SameEviction(r, half, p);
    EvictedIsFree(r, p);
    ReturnedSlot(r, half, p, first);
    ReturnedSlot(half, after, p, second);
  }

  lemma EvictedIsFree(r: Region, p: nat)
    requires Holds(r, p)
    ensures p < |Evict(r, p).slots| && Evict(r, p).slots[p].state == FREE
  {
  }

  lemma ReturnedSlot(r: Region, after: Region, p: nat, now: u64)
    requires Shaped(r) && p < |r.slots| == |after.slots|
    ensures Returned(r, after, p, now, |r.devices|) ==>
              var s, t := r.slots[p], after.slots[p];
              && SlotIdentity(t) == SlotIdentity(s) && t.state == ORPHANED && t.orphanedSince == now
              && t.committed == s.committed && HoldsCommitted(t) == HoldsCommitted(s)
  {
  }

  /** A first reclaim at a time other than 0 and a second one the grace period later always evict. */
  lemma TwoPhasesEvict(r: Region, p: nat, identity: Identity, first: u64, second: u64)
    requires Accounted(r) && p < |r.slots| && Reclaimable(r, p, identity)
    requires first != 0 && second >= first + GRACE_MILLISECONDS && r.slots[p].orphanedSince <= first
    ensures Holds(r, p) && ReclaimTwice(r, p, identity, first, second) == Evict(r, p)
  {
    TwoPhases(r, p, identity, first, second);
  }

  /** Stores to one slot that left it cleared or with its registration, and the books right, make no difference
      to what two reclaims leave. */
  lemma CrashIsHarmless(r: Region, crashed: Region, p: nat, identity: Identity, first: u64, second: u64)
    requires Accounted(r) && Accounted(crashed) && Touches(r, crashed, p) && Reclaimable(r, p, identity)
    requires Cleared(crashed.slots[p])
             || (crashed.slots[p].state != FREE && SameRegistration(r.slots[p], crashed.slots[p]))
    requires first != 0 && second >= first + GRACE_MILLISECONDS
    requires r.slots[p].orphanedSince <= first && crashed.slots[p].orphanedSince <= first
    ensures Holds(r, p)
    ensures ReclaimTwice(crashed, p, identity, first, second) == ReclaimTwice(r, p, identity, first, second)
            == Evict(r, p)
  {
    assert SlotOk(crashed.slots[p]);
    hide Accounted, ReclaimTwice, Touches, Evict, Holds, EmptySlot;
    StillShaped(r);
    StillShaped(crashed);
    TwoPhasesEvict(r, p, identity, first, second);
    SameEviction(r, crashed, p);
    if crashed.slots[p].state == FREE {
      NothingLeft(crashed, p, identity, first, second);
    } else {
      TwoPhasesEvict(crashed, p, identity, first, second);
    }
  }

  lemma NothingLeft(r: Region, p: nat, identity: Identity, first: u64, second: u64)
    requires Holds(r, p) && Cleared(r.slots[p])
    ensures ReclaimTwice(r, p, identity, first, second) == r == Evict(r, p)
  {
    assert Evict(r, p).devices == r.devices;
    assert Evict(r, p).slots == r.slots;
  }

  /** Crash consistency: a process that dies after any number of the stores of any operation leaves a region that
      passes the check exactly in the cases of `Consistent`; if it does, two reclaims of its slot leave the region
      they would have left had it died before the operation. */
  lemma CrashConsistency(r: Region, o: Owner, op: Op, k: nat, first: u64, second: u64)
    requires Accounted(r) && Enabled(r, o, op) && k <= |StoresOf(r, o, op)|
    requires first != 0 && second >= first + GRACE_MILLISECONDS
    ensures Accounted(CrashPoint(r, o, op, k)) <==> Consistent(r, op, k)
    ensures Consistent(r, op, k) ==>
              && Holds(r, o.slot)
              && ReclaimTwice(CrashPoint(r, o, op, k), o.slot, o.identity, first, second)
                 == ReclaimTwice(r, o.slot, o.identity, first, second) == Evict(r, o.slot)
  {
    assert Shaped(r) && SlotOk(r.slots[o.slot]);
    hide Accounted, StoresOf, Evict, Consistent, Holds, ReclaimTwice, CrashPoint;
    TornOperation(r, o, op, k);
    OpTrail(r, o, op, k);
    CrashTouches(r, o, op, k);
    if Consistent(r, op, k) {
      var crashed := CrashPoint(r, o, op, k);
      assert OwnerTrail(r.slots[o.slot], crashed.slots[o.slot]);
      CrashIsHarmless(r, crashed, o.slot, o.identity, first, second);
    }
  }

  lemma CrashTouches(r: Region, o: Owner, op: Op, k: nat)
    requires Shaped(r) && Enabled(r, o, op) && k <= |StoresOf(r, o, op)|
    ensures Touches(r, CrashPoint(r, o, op, k), o.slot)
  {
    hide StoresOf, WriteAll;
    StoresConcern(r, o, op);
    WritesTouch(r, StoresOf(r, o, op)[..k], o.slot);
  }

  /** Crash consistency of recovery: if a recovering process dies after any number of the stores of a reclaim and
      the region passes the check, two later reclaims leave what they would have left without it. */
  lemma ReclaimCrashIsHarmless(r: Region, p: nat, identity: Identity, now: u64, k: nat, first: u64, second: u64)
    requires Accounted(r) && p < |r.slots| && Reclaimable(r, p, identity) && Covered(r, p)
             && k <= |ReclaimStores(r, p, now)|
    requires first != 0 && second >= first + GRACE_MILLISECONDS && r.slots[p].orphanedSince <= first && now <= first
    ensures var crashed := WriteAll(r, ReclaimStores(r, p, now)[..k]);
            Accounted(crashed) ==>
              && Holds(r, p)
              && ReclaimTwice(crashed, p, identity, first, second) == ReclaimTwice(r, p, identity, first, second)
                 == Evict(r, p)
  {
    assert Shaped(r);
    hide Accounted, ReclaimStores, Evict, Holds, ReclaimTwice, WriteAll, Covered, HoldsCommitted, GraceOver;
    var crashed := WriteAll(r, ReclaimStores(r, p, now)[..k]);
    ReclaimPrefixTrail(r, p, identity, now, k);
    ReclaimConcerns(r, p, now);
    WritesTouch(r, ReclaimStores(r, p, now)[..k], p);
    if Accounted(crashed) {
      CrashIsHarmless(r, crashed, p, identity, first, second);
    }
  }

  /** Two whole recoveries, a grace period apart, that hold the same processes dead: every slot of theirs is
      cleared, no other slot is touched, and the totals are again the sums over what is left. */
  lemma TwoRecoveries(r: Region, dead: seq<Identity>, first: u64, second: u64)
    requires Accounted(r) && |dead| == |r.slots|
    requires first != 0 && second >= first + GRACE_MILLISECONDS
    requires forall p | 0 <= p < |r.slots| :: r.slots[p].orphanedSince <= first
    ensures var after := Reclaim(Reclaim(r, dead, first, |dead|).1, dead, second, |dead|).1;
            && Accounted(after)
            && forall p | 0 <= p < |r.slots| ::
                 if Reclaimable(r, p, dead[p]) then Cleared(after.slots[p]) else after.slots[p] == r.slots[p]
  {
    StillShaped(r);
    hide Accounted, Reclaim, SlotStep, Cleared;
    var half := Reclaim(r, dead, first, |dead|).1;
    var after := Reclaim(half, dead, second, |dead|).1;
    ReclaimKeeps(r, dead, first, |dead|);
    ReclaimKeeps(half, dead, second, |dead|);
    forall p | 0 <= p < |r.slots|
      ensures if Reclaimable(r, p, dead[p]) then Cleared(after.slots[p]) else after.slots[p] == r.slots[p]
    {
      SlotIsOk(r, p);
      TwoSteps(r.slots[p], half.slots[p], after.slots[p], dead[p], first, second);
    }
  }

  lemma SlotIsOk(r: Region, p: nat)
    requires Accounted(r) && p < |r.slots|
    ensures SlotOk(r.slots[p])
  {
  }

  /** One slot through both recoveries. */
  lemma TwoSteps(s: Slot, half: Slot, after: Slot, identity: Identity, first: u64, second: u64)
    requires SlotOk(s) && s.orphanedSince <= first && first != 0 && second >= first + GRACE_MILLISECONDS
    requires SlotStep(s, half, identity, first) && SlotStep(half, after, identity, second)
    ensures if Observed(identity) && s.state != FREE && SlotIdentity(s) == identity then Cleared(after) else after == s
  {
  }
}
