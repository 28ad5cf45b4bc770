/** Reclaiming dead processes in two phases, whole or cut short by the death of the reclaiming process. */
module SharedQuotaReclaim {
  import opened Common
  import opened Sums
  import opened SharedQuotaModel
  import opened SharedQuotaCrash

  lemma ReturnsConcern(r: Region, p: nat, n: nat)
    requires Shaped(r) && p < |r.slots| && n <= |r.devices| && Covered(r, p)
    ensures forall i | 0 <= i < |ReturnReservations(r, p, n)| :: Concerns(ReturnReservations(r, p, n)[i], p)
    ensures forall i | 0 <= i < |ReturnEverything(r, p, n)| :: Concerns(ReturnEverything(r, p, n)[i], p)
  {
  }

  lemma ReclaimConcerns(r: Region, p: nat, now: u64)
    requires Shaped(r) && p < |r.slots| && Covered(r, p)
    ensures forall i | 0 <= i < |ReclaimStores(r, p, now)| :: Concerns(ReclaimStores(r, p, now)[i], p)
  {
    ReturnsConcern(r, p, |r.devices|);
    hide ReturnReservations, ReturnEverything;
  }

  /** Whatever prefix of a reclaim's stores was performed before the recovering process died, if the region
      passes the check, evicting the slot still gives the same region. */
  lemma TornReclaim(r: Region, p: nat, now: u64, k: nat)
    requires Accounted(r) && p < |r.slots| && Covered(r, p) && k <= |ReclaimStores(r, p, now)|
    ensures var crashed := WriteAll(r, ReclaimStores(r, p, now)[..k]);
            Accounted(crashed) ==> Holds(r, p) && Holds(crashed, p) && Evict(crashed, p) == Evict(r, p)
  {
    assert Shaped(r);
    hide Accounted, ReclaimStores, Evict, Holds;
    ReclaimConcerns(r, p, now);
    var crashed := WriteAll(r, ReclaimStores(r, p, now)[..k]);
    WritesTouch(r, ReclaimStores(r, p, now)[..k], p);
    if Accounted(crashed) { SameEviction(r, crashed, p); }
  }

  // ---------------------------------------------------------------------------
  // First phase

  /** The slot after the mark and after the reservations on devices 0 .. n-1 went back. */
  ghost predicate Returned(r: Region, cur: Region, p: nat, now: u64, n: nat)
    requires Shaped(r)
  {
    && Shaped(cur) && Touches(r, cur, p) && n <= |r.devices|
    && cur.slots[p] == r.slots[p].(state := ORPHANED, orphanedSince := now, reserved := cur.slots[p].reserved)
    && (forall e | 0 <= e < n :: cur.slots[p].reserved[e] == 0)
    && (forall e | n <= e < |r.devices| ::
          cur.slots[p].reserved[e] == r.slots[p].reserved[e] && cur.devices[e] == r.devices[e])
  }

  lemma MarkKeeps(r: Region, p: nat, now: u64)
    requires Accounted(r) && p < |r.slots| && r.slots[p].state != FREE
    ensures Accounted(WriteAll(r, MarkStores(p, now))) && Returned(r, WriteAll(r, MarkStores(p, now)), p, now, 0)
  {
    hide WriteAll, Balanced;
    var w := MarkStores(p, now);
    WriteTwo(r, w[0], w[1]);
    HeaderChange(r, WriteAll(r, w), p);
  }

  /** One device's reservations go back: the books agree again after the second store, and between the two
      exactly when there was nothing to return. */
  lemma ReturnOne(r: Region, cur: Region, p: nat, now: u64, d: nat)
    requires Accounted(r) && Accounted(cur) && p < |r.slots| && Covered(r, p) && d < |r.devices|
    requires Returned(r, cur, p, now, d) && r.devices[d].state == ACTIVE
    ensures var x := r.devices[d].reserved - r.slots[p].reserved[d];
            var w := [DeviceReserved(d, x), SlotReserved(p, d, 0)];
            && (Accounted(WriteAll(cur, [w[0]])) <==> r.slots[p].reserved[d] == 0)
            && Accounted(WriteAll(cur, w)) && Returned(r, WriteAll(cur, w), p, now, d + 1)
  {
    hide WriteAll, Balanced;
    var x := r.devices[d].reserved - r.slots[p].reserved[d];
    var w := [DeviceReserved(d, x), SlotReserved(p, d, 0)];
    Bounded(r, d);
    assert Shaped(cur) && Shaped(r);
    hide Accounted;
    assert w[..1] == [w[0]] && w[..2] == w;
    ReservedPair(cur, p, d, x, 0, 1);
    ReservedPair(cur, p, d, x, 0, 2);
    WriteTwo(cur, w[0], w[1]);
    ReturnedNext(r, cur, p, now, d, x);
  }

  lemma ReturnedNext(r: Region, cur: Region, p: nat, now: u64, d: nat, x: u64)
    requires Shaped(r) && d < |r.devices| && Returned(r, cur, p, now, d)
    ensures Returned(r, Write(Write(cur, DeviceReserved(d, x)), SlotReserved(p, d, 0)), p, now, d + 1)
  {
  }

  function ReturnTail(r: Region, p: nat, d: nat): seq<Store>
    requires Shaped(r) && p < |r.slots| && d < |r.devices| && Covered(r, p)
  {
    if r.devices[d].state == ACTIVE
    then [DeviceReserved(d, r.devices[d].reserved - r.slots[p].reserved[d]), SlotReserved(p, d, 0)]
    else []
  }

  lemma ReturnUnfolds(r: Region, p: nat, now: u64, d: nat)
    requires Shaped(r) && p < |r.slots| && d < |r.devices| && Covered(r, p)
    ensures MarkStores(p, now) + ReturnReservations(r, p, d + 1) == (MarkStores(p, now) + ReturnReservations(r, p, d))
            + ReturnTail(r, p, d)
  {
  }

  lemma ReturnNone(r: Region, p: nat, now: u64)
    requires Shaped(r) && p < |r.slots| && Covered(r, p)
    ensures MarkStores(p, now) + ReturnReservations(r, p, 0) == MarkStores(p, now)
  {
  }

  lemma ReturnTailKeeps(r: Region, cur: Region, p: nat, now: u64, d: nat)
    requires Accounted(r) && Accounted(cur) && p < |r.slots| && Covered(r, p) && d < |r.devices|
             && Returned(r, cur, p, now, d)
    ensures Accounted(WriteAll(cur, ReturnTail(r, p, d)))
            && Returned(r, WriteAll(cur, ReturnTail(r, p, d)), p, now, d + 1)
  {
    assert Shaped(r) && Shaped(cur);
    hide Accounted, Returned, Covered;
    if r.devices[d].state == ACTIVE {
      ReturnOne(r, cur, p, now, d);
    } else {
      NothingToReturn(r, cur, p, now, d);
    }
  }

  ghost function AfterReturns(r: Region, p: nat, now: u64, n: nat): Region
    requires Shaped(r) && p < |r.slots| && Covered(r, p) && n <= |r.devices|
  {
    WriteAll(r, MarkStores(p, now) + ReturnReservations(r, p, n))
  }

  lemma AfterReturnsUnfolds(r: Region, p: nat, now: u64, d: nat)
    requires Shaped(r) && p < |r.slots| && Covered(r, p) && d < |r.devices|
    ensures Shaped(AfterReturns(r, p, now, d))
    ensures AfterReturns(r, p, now, d + 1) == WriteAll(AfterReturns(r, p, now, d), ReturnTail(r, p, d))
  {
    hide WriteAll, Covered, ReturnTail;
    ReturnUnfolds(r, p, now, d);
    WriteAllJoins(r, MarkStores(p, now) + ReturnReservations(r, p, d), ReturnTail(r, p, d));
  }

  lemma {:induction false} ReturnReservationsKeeps(r: Region, p: nat, now: u64, n: nat)
    requires Shaped(r) && Accounted(r) && p < |r.slots| && r.slots[p].state != FREE && Covered(r, p) && n <= |r.devices|
    ensures Accounted(AfterReturns(r, p, now, n)) && Returned(r, AfterReturns(r, p, now, n), p, now, n)
  {
    hide Accounted, Returned, WriteAll, Covered, ReturnTail, AfterReturns;
    if n == 0 {
      ReturnsBegin(r, p, now);
      MarkKeeps(r, p, now);
    } else {
      ReturnReservationsKeeps(r, p, now, n - 1);
      AfterReturnsUnfolds(r, p, now, n - 1);
      ReturnTailKeeps(r, AfterReturns(r, p, now, n - 1), p, now, n - 1);
    }
  }

  lemma ReturnsBegin(r: Region, p: nat, now: u64)
    requires Shaped(r) && p < |r.slots| && Covered(r, p)
    ensures AfterReturns(r, p, now, 0) == WriteAll(r, MarkStores(p, now))
  {
    ReturnNone(r, p, now);
  }

  lemma NothingToReturn(r: Region, cur: Region, p: nat, now: u64, d: nat)
    requires Shaped(r) && p < |r.slots| && Covered(r, p) && d < |r.devices| && r.devices[d].state != ACTIVE
    requires Returned(r, cur, p, now, d)
    ensures Returned(r, cur, p, now, d + 1)
  {
  }

  // ---------------------------------------------------------------------------
  // Second phase

  lemma {:induction false} ReturnEverythingIs(r: Region, p: nat, n: nat)
    requires Holds(r, p) && Covered(r, p) && n <= |r.devices|
    ensures var cur := WriteAll(r, ReturnEverything(r, p, n));
            && cur == r.(devices := cur.devices) && |cur.devices| == |r.devices|
            && (forall e | 0 <= e < n :: cur.devices[e] == Relieved(r, p, e))
            && (forall e | n <= e < |r.devices| :: cur.devices[e] == r.devices[e])
  {
    if n > 0 {
      hide WriteAll;
      var d := n - 1;
      ReturnEverythingIs(r, p, d);
      var cur := WriteAll(r, ReturnEverything(r, p, d));
      if r.devices[d].state == ACTIVE {
        var w := [DeviceReserved(d, r.devices[d].reserved - r.slots[p].reserved[d]),
                  DeviceCommitted(d, r.devices[d].committed - r.slots[p].committed[d])];
        WriteAllJoins(r, ReturnEverything(r, p, d), w);
        WriteTwo(cur, w[0], w[1]);
      } else {
        assert ReturnEverything(r, p, n) == ReturnEverything(r, p, d);
      }
    }
  }

  lemma SecondPhaseEvicts(r: Region, p: nat)
    requires Accounted(r) && p < |r.slots| && Covered(r, p)
    ensures Holds(r, p) && WriteAll(r, ReturnEverything(r, p, |r.devices|) + [ClearSlot(p)]) == Evict(r, p)
  {
    HeldWithin(r, p);
    hide Accounted, WriteAll;
    ReturnEverythingIs(r, p, |r.devices|);
    var cur := WriteAll(r, ReturnEverything(r, p, |r.devices|));
    WriteAllJoins(r, ReturnEverything(r, p, |r.devices|), [ClearSlot(p)]);
    WriteTwo(cur, ClearSlot(p), ClearSlot(p));
    assert cur.devices == Evict(r, p).devices;
  }

  // ---------------------------------------------------------------------------
  // A slot, then all slots

  /** What reclaiming does to a slot. */
  ghost predicate SlotReclaimed(r: Region, after: Region, p: nat, identity: Identity, now: u64)
    requires Holds(r, p)
  {
    if !Reclaimable(r, p, identity) then after == r
    else if r.slots[p].orphanedSince == 0 then
      if HoldsCommitted(r.slots[p])
      then Returned(r, after, p, now, |r.devices|)
      else after == Evict(r, p)
    else if GraceOver(r.slots[p], now) then after == Evict(r, p)
    else after == r
  }

  lemma FirstPhaseClears(r: Region, cur: Region, p: nat, now: u64)
    requires Accounted(r) && Accounted(cur) && Returned(r, cur, p, now, |r.devices|) && !HoldsCommitted(r.slots[p])
    ensures Holds(r, p) && WriteAll(cur, [ClearSlot(p)]) == Evict(r, p)
  {
    EvictKeeps(r, p);
    AcceptedIff(r, cur, p);
    WriteTwo(cur, ClearSlot(p), ClearSlot(p));
    var after := WriteAll(cur, [ClearSlot(p)]);
    hide Accounted, WriteAll;
    forall d | 0 <= d < |r.devices| ensures after.devices[d] == Evict(r, p).devices[d] {
      assert r.slots[p].committed[d] == 0;
      assert cur.slots[p].reserved[d] == 0;
    }
    assert after.slots == Evict(r, p).slots;
  }

  lemma ReclaimSlotKeeps(r: Region, p: nat, identity: Identity, now: u64)
    requires Accounted(r) && p < |r.slots|
    ensures var (ok, after) := ReclaimSlot(r, p, identity, now);
            && ok && Accounted(after) && Holds(r, p) && SlotReclaimed(r, after, p, identity, now)
            && Touches(r, after, p)
  {
    HeldWithin(r, p);
    var after := ReclaimSlot(r, p, identity, now).1;
    hide Accounted, WriteAll, Returned, ReturnReservations, ReturnEverything, Evict, Covered, Touches;
    TouchesNothing(r, p);
    if Reclaimable(r, p, identity) {
      EvictKeeps(r, p);
      SecondPhaseEvicts(r, p);
      ReturnReservationsKeeps(r, p, now, |r.devices|);
      var cur := AfterReturns(r, p, now, |r.devices|);
      ReturnedTouches(r, cur, p, now);
      if r.slots[p].orphanedSince == 0 {
        if HoldsCommitted(r.slots[p]) {
          assert ReclaimStores(r, p, now) == MarkStores(p, now) + ReturnReservations(r, p, |r.devices|);
        } else {
          WriteAllJoins(r, MarkStores(p, now) + ReturnReservations(r, p, |r.devices|), [ClearSlot(p)]);
          FirstPhaseClears(r, cur, p, now);
        }
      } else if !GraceOver(r.slots[p], now) {
        WriteTwo(r, ClearSlot(p), ClearSlot(p));
      }
    }
  }

  lemma TouchesNothing(r: Region, p: nat)
    requires p < |r.slots|
    ensures Touches(r, r, p)
  {
  }

  lemma ReturnedTouches(r: Region, cur: Region, p: nat, now: u64)
    requires Shaped(r) && Returned(r, cur, p, now, |r.devices|)
    ensures Touches(r, cur, p)
  {
  }

  /** Reclaiming keeps the books and always finds them usable; a slot changes only if it carries exactly the
      identity found dead, and then only as its own phase demands. */
  lemma {:induction false} ReclaimKeeps(r: Region, dead: seq<Identity>, now: u64, n: nat)
    requires Accounted(r) && |dead| == |r.slots| && n <= |r.slots|
    ensures var (ok, after) := Reclaim(r, dead, now, n);
            && ok && Accounted(after) && after.generation == r.generation
            && (forall d | 0 <= d < |r.devices| :: SameDevice(r.devices[d], after.devices[d]))
            && (forall p | 0 <= p < |r.slots| ::
                  SlotStep(r.slots[p], after.slots[p], if p < n then dead[p] else NOBODY, now))
  {
    hide Accounted, ReclaimSlot, SlotStep, SlotReclaimed, SameDevice, Holds;
    StillShaped(r);
    if n == 0 {
      NobodyReclaimed(r, now);
    } else {
      var before := Reclaim(r, dead, now, n - 1).1;
      ReclaimKeeps(r, dead, now, n - 1);
      ReclaimSlotKeeps(before, n - 1, dead[n - 1], now);
      var after := ReclaimSlot(before, n - 1, dead[n - 1], now).1;
      SameDevices(r.devices, before.devices, after.devices);
      SkippedSlotStep(r.slots[n - 1], before.slots[n - 1], now);
      ReclaimedSlotStep(before, after, n - 1, dead[n - 1], now);
      forall p | 0 <= p < |r.slots|
        ensures SlotStep(r.slots[p], after.slots[p], if p < n then dead[p] else NOBODY, now)
      {
        assert SlotStep(r.slots[p], before.slots[p], if p < n - 1 then dead[p] else NOBODY, now);
      }
    }
  }

  lemma NobodyReclaimed(r: Region, now: u64)
    requires Accounted(r)
    ensures forall d | 0 <= d < |r.devices| :: SameDevice(r.devices[d], r.devices[d])
    ensures forall p | 0 <= p < |r.slots| :: SlotStep(r.slots[p], r.slots[p], NOBODY, now)
  {
  }

  predicate SameDevice(a: Device, b: Device) {
    a.state == b.state && a.id == b.id && a.limit == b.limit
  }

  /** One slot before and after a reclaim that holds `identity` dead at time `now`. */
  ghost predicate SlotStep(s: Slot, after: Slot, identity: Identity, now: u64) {
    if !Observed(identity) || s.state == FREE || SlotIdentity(s) != identity then after == s
    else if s.orphanedSince == 0 then
      if HoldsCommitted(s)
      then
        && after == s.(state := ORPHANED, orphanedSince := now, reserved := after.reserved)
        && forall d | 0 <= d < |after.reserved| :: after.reserved[d] == 0
      else Cleared(after)
    else if GraceOver(s, now) then Cleared(after)
    else after == s
  }

  lemma SkippedSlotStep(s: Slot, after: Slot, now: u64)
    requires SlotStep(s, after, NOBODY, now)
    ensures after == s
  {
  }

  lemma SameDevices(a: seq<Device>, b: seq<Device>, c: seq<Device>)
    requires |a| == |b| == |c|
    requires forall d | 0 <= d < |a| :: SameDevice(a[d], b[d])
    ensures (forall d | 0 <= d < |b| :: SameDevice(b[d], c[d])) ==> forall d | 0 <= d < |a| :: SameDevice(a[d], c[d])
  {
  }

  lemma ReclaimedSlotStep(r: Region, after: Region, p: nat, identity: Identity, now: u64)
    requires Accounted(r) && p < |r.slots| && Holds(r, p) && SlotReclaimed(r, after, p, identity, now)
             && Touches(r, after, p)
    ensures SlotStep(r.slots[p], after.slots[p], identity, now)
    ensures forall d | 0 <= d < |r.devices| :: SameDevice(r.devices[d], after.devices[d])
  {
    assert SlotOk(r.slots[p]);
  }
}
