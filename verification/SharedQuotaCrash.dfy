/** What a process that dies between two stores leaves behind, and what every complete operation keeps. */
module SharedQuotaCrash {
  import opened Common
  import opened Sums
  import opened SharedQuotaModel

  lemma FreshAccounted()
    ensures Accounted(FreshRegion())
  {
    var r := FreshRegion();
    forall d | 0 <= d < |r.devices|
      ensures r.devices[d].reserved == Sum(|r.slots|, ReservedOn(r.slots, d))
      ensures r.devices[d].committed == Sum(|r.slots|, CommittedOn(r.slots, d))
    {
      SumZero(|r.slots|, ReservedOn(r.slots, d));
      SumZero(|r.slots|, CommittedOn(r.slots, d));
    }
  }

  // ---------------------------------------------------------------------------
  // Stores of one operation touch one slot and the device counters

  /** Only slot q and the counters of the devices differ. */
  ghost predicate Touches(r: Region, after: Region, q: nat) {
    && q < |r.slots| && |after.slots| == |r.slots| && |after.devices| == |r.devices|
    && after.generation == r.generation
    && (forall p | 0 <= p < |r.slots| && p != q :: after.slots[p] == r.slots[p])
    && (forall d | 0 <= d < |r.devices| ::
          after.devices[d] == r.devices[d].(reserved := after.devices[d].reserved,
            committed := after.devices[d].committed))
  }

  predicate Concerns(w: Store, q: nat) {
    w.DeviceReserved? || w.DeviceCommitted? || w.p == q
  }

  lemma {:induction false} WritesTouch(r: Region, writes: seq<Store>, q: nat)
    requires Shaped(r) && q < |r.slots|
    requires forall i | 0 <= i < |writes| :: Concerns(writes[i], q)
    ensures Touches(r, WriteAll(r, writes), q)
    decreases |writes|
  {
    if writes != [] {
      var next := Write(r, writes[0]);
      assert Touches(r, next, q) by { assert Concerns(writes[0], q); }
      WritesTouch(next, writes[1..], q);
    }
  }

  lemma {:induction false} WriteAllJoins(r: Region, a: seq<Store>, b: seq<Store>)
    requires Shaped(r)
    ensures WriteAll(r, a + b) == WriteAll(WriteAll(r, a), b)
    decreases |a|
  {
    if a == [] {
      assert a + b == b;
    } else {
      assert (a + b)[1..] == a[1..] + b;
      WriteAllJoins(Write(r, a[0]), a[1..], b);
    }
  }

  lemma WriteTwo(r: Region, a: Store, b: Store)
    requires Shaped(r)
    ensures WriteAll(r, []) == r && WriteAll(r, [a]) == Write(r, a) && WriteAll(r, [a, b]) == Write(Write(r, a), b)
  {
    assert [a, b][1..] == [b] && [b][1..] == [] && [a][1..] == [];
    assert WriteAll(Write(r, a), [b]) == Write(Write(r, a), b);
  }

  // ---------------------------------------------------------------------------
  // When a touched region passes the check

  /** On every device the total moved by as much as the slot did. */
  ghost predicate MovedTogether(r: Region, after: Region, q: nat)
    requires Shaped(r) && Shaped(after) && Touches(r, after, q)
  {
    forall d | 0 <= d < |r.devices| ::
      && after.devices[d].reserved + r.slots[q].reserved[d] == r.devices[d].reserved + after.slots[q].reserved[d]
      && after.devices[d].committed + r.slots[q].committed[d] == r.devices[d].committed + after.slots[q].committed[d]
  }

  lemma SumsMoved(r: Region, after: Region, q: nat, d: nat)
    requires Shaped(r) && Shaped(after) && Touches(r, after, q) && d < |r.devices|
    ensures Sum(|r.slots|, ReservedOn(r.slots, d)) + after.slots[q].reserved[d]
            == Sum(|r.slots|, ReservedOn(after.slots, d)) + r.slots[q].reserved[d]
    ensures Sum(|r.slots|, CommittedOn(r.slots, d)) + after.slots[q].committed[d]
            == Sum(|r.slots|, CommittedOn(after.slots, d)) + r.slots[q].committed[d]
  {
    SumMoved(|r.slots|, q, ReservedOn(r.slots, d), ReservedOn(after.slots, d));
    SumMoved(|r.slots|, q, CommittedOn(r.slots, d), CommittedOn(after.slots, d));
  }

  /** A region left by stores to one slot passes the check exactly when that slot and the totals moved
      together and stayed in bounds. */
  lemma AcceptedIff(r: Region, after: Region, q: nat)
    requires Accounted(r) && Shaped(after) && Touches(r, after, q)
    ensures Accounted(after) <==>
              && MovedTogether(r, after, q)
              && SlotOk(after.slots[q])
              && forall d | 0 <= d < |r.devices| :: DeviceOk(after.devices[d])
  {
    forall d | 0 <= d < |r.devices|
      ensures Sum(|r.slots|, ReservedOn(r.slots, d)) + after.slots[q].reserved[d]
              == Sum(|r.slots|, ReservedOn(after.slots, d)) + r.slots[q].reserved[d]
      ensures Sum(|r.slots|, CommittedOn(r.slots, d)) + after.slots[q].committed[d]
              == Sum(|r.slots|, CommittedOn(after.slots, d)) + r.slots[q].committed[d]
    {
      SumsMoved(r, after, q, d);
    }
    hide Sum, SlotOk, DeviceOk;
  }

  lemma StillShaped(r: Region)
    requires Accounted(r)
    ensures Shaped(r)
  {
  }

  /** What a slot holds is within the totals, and nothing is held on a free device. */
  lemma HeldWithin(r: Region, q: nat)
    requires Accounted(r) && q < |r.slots|
    ensures Covered(r, q)
    ensures forall d | 0 <= d < |r.devices| ::
              r.slots[q].reserved[d] <= r.devices[d].reserved && r.slots[q].committed[d] <= r.devices[d].committed
  {
    forall d | 0 <= d < |r.devices|
      ensures r.slots[q].reserved[d] <= r.devices[d].reserved && r.slots[q].committed[d] <= r.devices[d].committed
    {
      SumTerm(|r.slots|, q, ReservedOn(r.slots, d));
      SumTerm(|r.slots|, q, CommittedOn(r.slots, d));
    }
    assert forall d | 0 <= d < |r.devices| :: DeviceOk(r.devices[d]);
  }

  // ---------------------------------------------------------------------------
  // Evicting a slot

  ghost predicate Holds(r: Region, q: nat) {
    && Shaped(r) && q < |r.slots|
    && forall d | 0 <= d < |r.devices| ::
         r.slots[q].reserved[d] <= r.devices[d].reserved && r.slots[q].committed[d] <= r.devices[d].committed
  }

  ghost function Relieved(r: Region, q: nat, d: nat): Device
    requires Holds(r, q) && d < |r.devices|
  {
    r.devices[d].(reserved := r.devices[d].reserved - r.slots[q].reserved[d],
                  committed := r.devices[d].committed - r.slots[q].committed[d])
  }

  /** The region once everything slot q held has been given back and the slot freed. */
  ghost function Evict(r: Region, q: nat): Region
    requires Holds(r, q)
  {
    Region(r.generation,
           seq(|r.devices|, d requires 0 <= d < |r.devices| => Relieved(r, q, d)),
           r.slots[q := EmptySlot(|r.devices|)])
  }

  lemma EvictKeeps(r: Region, q: nat)
    requires Accounted(r) && q < |r.slots|
    ensures Holds(r, q) && Accounted(Evict(r, q)) && Touches(r, Evict(r, q), q)
  {
    HeldWithin(r, q);
    var after := Evict(r, q);
    assert Touches(r, after, q);
    forall d | 0 <= d < |r.devices| ensures DeviceOk(after.devices[d]) { assert DeviceOk(r.devices[d]); }
    hide Accounted;
    AcceptedIff(r, after, q);
  }

  /** If a process dies anywhere inside an operation on slot q and the region still passes the check, evicting
      the slot gives exactly the region it would have given before the operation began: each total is the sum
      over the survivors. */
  lemma SameEviction(r: Region, crashed: Region, q: nat)
    requires Accounted(r) && Accounted(crashed) && Touches(r, crashed, q)
    ensures Holds(r, q) && Holds(crashed, q) && Evict(crashed, q) == Evict(r, q)
    ensures Accounted(Evict(crashed, q))
    ensures forall d | 0 <= d < |r.devices| ::
              && Evict(crashed, q).devices[d].reserved
                 == Sum(|r.slots|, ReservedOn(r.slots[q := EmptySlot(|r.devices|)], d))
              && Evict(crashed, q).devices[d].committed
                 == Sum(|r.slots|, CommittedOn(r.slots[q := EmptySlot(|r.devices|)], d))
  {
    EvictKeeps(r, q);
    EvictKeeps(crashed, q);
    AcceptedIff(r, crashed, q);
    hide Sum, EmptySlot;
    assert Evict(crashed, q).slots == Evict(r, q).slots;
    forall d | 0 <= d < |r.devices| ensures Evict(crashed, q).devices[d] == Evict(r, q).devices[d] {
      assert Relieved(crashed, q, d) == Relieved(r, q, d);
    }
  }

  // ---------------------------------------------------------------------------
  // The operations of a registered process

  datatype Op =
    | ReserveOp(d: nat, bytes: u64)
    | CommitOp(d: nat, bytes: u64)
    | CancelOp(d: nat, bytes: u64)
    | ReleaseOp(d: nat, bytes: u64)
    | CloseOp

  predicate Enabled(r: Region, o: Owner, op: Op)
    requires Shaped(r)
  {
    && Owns(r, o)
    && match op
       case ReserveOp(d, bytes) => d < |r.devices| && r.devices[d].state == ACTIVE && CanReserve(r, o, d, bytes)
       case CommitOp(d, bytes) => CanCommit(r, o, d, bytes)
       case CancelOp(d, bytes) => CanCancel(r, o, d, bytes)
       case ReleaseOp(d, bytes) => CanRelease(r, o, d, bytes) && r.devices[d].state == ACTIVE
       case CloseOp => true
  }

  function StoresOf(r: Region, o: Owner, op: Op): seq<Store>
    requires Shaped(r) && Enabled(r, o, op)
  {
    match op
    case ReserveOp(d, bytes) => ReserveStores(r, o, d, bytes)
    case CommitOp(d, bytes) => CommitStores(r, o, d, bytes)
    case CancelOp(d, bytes) => CancelStores(r, o, d, bytes)
    case ReleaseOp(d, bytes) => ReleaseStores(r, o, d, bytes)
    case CloseOp => CloseStores(r, o)
  }

  /** The prefixes of an operation's stores after which the region still passes the check: none of them, all
      of them, and the midpoint of a commit when the bytes counted twice still fit the limit. */
  predicate Consistent(r: Region, op: Op, k: nat)
    requires op.CommitOp? ==> op.d < |r.devices|
  {
    match op
    case CommitOp(d, bytes) =>
      k == 0 || k == 4 || bytes == 0
      || (k == 2 && r.devices[d].reserved + r.devices[d].committed + bytes <= r.devices[d].limit)
    case CloseOp => true
    case _ => k == 0 || k == 2 || op.bytes == 0
  }

  lemma StoresConcern(r: Region, o: Owner, op: Op)
    requires Shaped(r) && Enabled(r, o, op)
    ensures forall i | 0 <= i < |StoresOf(r, o, op)| :: Concerns(StoresOf(r, o, op)[i], o.slot)
  {
  }

  /** The region if the process dies after the first k stores. */
  ghost function CrashPoint(r: Region, o: Owner, op: Op, k: nat): Region
    requires Shaped(r) && Enabled(r, o, op) && k <= |StoresOf(r, o, op)|
  {
    WriteAll(r, StoresOf(r, o, op)[..k])
  }

  /** Only device d and slot q changed, and only in the counters for d. */
  ghost predicate TouchesAt(r: Region, after: Region, q: nat, d: nat) {
    && Shaped(r) && Shaped(after) && Touches(r, after, q) && d < |r.devices|
    && (forall e | 0 <= e < |r.devices| && e != d ::
          && after.devices[e] == r.devices[e]
          && after.slots[q].reserved[e] == r.slots[q].reserved[e]
          && after.slots[q].committed[e] == r.slots[q].committed[e])
    && after.slots[q] == r.slots[q].(reserved := after.slots[q].reserved, committed := after.slots[q].committed)
  }

  /** Counters of one slot on one device: the check looks at nothing else. */
  lemma AcceptedAt(r: Region, after: Region, q: nat, d: nat)
    requires Accounted(r) && TouchesAt(r, after, q, d) && r.slots[q].state != FREE && r.devices[d].state == ACTIVE
    ensures Accounted(after) <==>
              && after.devices[d].reserved + r.slots[q].reserved[d] == r.devices[d].reserved
                 + after.slots[q].reserved[d]
              && after.devices[d].committed + r.slots[q].committed[d] == r.devices[d].committed
                 + after.slots[q].committed[d]
              && after.devices[d].reserved + after.devices[d].committed <= r.devices[d].limit
  {
    AcceptedIff(r, after, q);
    assert SlotOk(r.slots[q]) && forall e | 0 <= e < |r.devices| :: DeviceOk(r.devices[e]);
    hide Balanced;
  }

  lemma ReservedPair(r: Region, q: nat, d: nat, x: u64, y: u64, k: nat)
    requires Accounted(r) && q < |r.slots| && d < |r.devices| && r.slots[q].state != FREE
             && r.devices[d].state == ACTIVE && k <= 2
    ensures Accounted(WriteAll(r, [DeviceReserved(d, x), SlotReserved(q, d, y)][..k])) <==>
              match k
              case 0 => true
              case 1 => x == r.devices[d].reserved
              case _ =>
                x + r.slots[q].reserved[d] == r.devices[d].reserved + y
                && x + r.devices[d].committed <= r.devices[d].limit
  {
    hide WriteAll, Accounted;
    StillShaped(r);
    var w := [DeviceReserved(d, x), SlotReserved(q, d, y)];
    WriteTwo(r, w[0], w[1]);
    assert w[..0] == [] && w[..1] == [w[0]] && w[..2] == w;
    Bounded(r, d);
    if k == 1 {
      AcceptedAt(r, Write(r, w[0]), q, d);
    } else if k == 2 {
      AcceptedAt(r, Write(Write(r, w[0]), w[1]), q, d);
    }
  }

  lemma CommittedPair(r: Region, q: nat, d: nat, x: u64, y: u64, k: nat)
    requires Accounted(r) && q < |r.slots| && d < |r.devices| && r.slots[q].state != FREE
             && r.devices[d].state == ACTIVE && k <= 2
    ensures Accounted(WriteAll(r, [DeviceCommitted(d, x), SlotCommitted(q, d, y)][..k])) <==>
              match k
              case 0 => true
              case 1 => x == r.devices[d].committed
              case _ =>
                x + r.slots[q].committed[d] == r.devices[d].committed + y
                && r.devices[d].reserved + x <= r.devices[d].limit
  {
    hide WriteAll, Accounted;
    StillShaped(r);
    var w := [DeviceCommitted(d, x), SlotCommitted(q, d, y)];
    WriteTwo(r, w[0], w[1]);
    assert w[..0] == [] && w[..1] == [w[0]] && w[..2] == w;
    Bounded(r, d);
    if k == 1 {
      AcceptedAt(r, Write(r, w[0]), q, d);
    } else if k == 2 {
      AcceptedAt(r, Write(Write(r, w[0]), w[1]), q, d);
    }
  }

  lemma TwoStores(r: Region, o: Owner, op: Op, k: nat)
    requires Accounted(r) && Enabled(r, o, op) && !op.CommitOp? && !op.CloseOp? && k <= 2
    ensures |StoresOf(r, o, op)| == 2
    ensures Accounted(CrashPoint(r, o, op, k)) <==> Consistent(r, op, k)
  {
    hide WriteAll;
    assert Shaped(r);
    hide Accounted;
    var d := op.d;
    Bounded(r, d);
    match op
    case ReserveOp(_, bytes) =>
      ReservedPair(r, o.slot, d, r.devices[d].reserved + bytes, r.slots[o.slot].reserved[d] + bytes, k);
    case CancelOp(_, bytes) =>
      ReservedPair(r, o.slot, d, r.devices[d].reserved - bytes, r.slots[o.slot].reserved[d] - bytes, k);
    case ReleaseOp(_, bytes) =>
      CommittedPair(r, o.slot, d, r.devices[d].committed - bytes, r.slots[o.slot].committed[d] - bytes, k);
  }

  lemma Bounded(r: Region, d: nat)
    requires Accounted(r) && d < |r.devices|
    ensures DeviceOk(r.devices[d])
  {
  }

  lemma FourStores(r: Region, o: Owner, d: nat, bytes: u64, k: nat)
    requires Accounted(r) && Enabled(r, o, CommitOp(d, bytes)) && k <= 4
    ensures Accounted(CrashPoint(r, o, CommitOp(d, bytes), k)) <==> Consistent(r, CommitOp(d, bytes), k)
  {
    hide WriteAll;
    assert Shaped(r);
    hide Accounted;
    var op := CommitOp(d, bytes);
    var w := StoresOf(r, o, op);
    var half := WriteAll(r, [w[0], w[1]]);
    WriteTwo(r, w[0], w[1]);
    WriteTwo(half, w[2], w[3]);
    WriteAllJoins(r, [w[0], w[1]], [w[2]]);
    WriteAllJoins(r, [w[0], w[1]], [w[2], w[3]]);
    assert w[..0] == [] && w[..1] == [w[0]] && w[..2] == [w[0], w[1]];
    assert w[..3] == [w[0], w[1]] + [w[2]] && w[..4] == [w[0], w[1]] + [w[2], w[3]];
    Bounded(r, d);
    AcceptedAt(r, CrashPoint(r, o, op, k), o.slot, d);
  }

  /** A slot being closed, after one store and after all. */
  lemma ClosePoints(r: Region, o: Owner, k: nat)
    requires Shaped(r) && Enabled(r, o, CloseOp) && k <= |StoresOf(r, o, CloseOp)|
    ensures var w := StoresOf(r, o, CloseOp);
            CrashPoint(r, o, CloseOp, k) == match k
            case 0 => r
            case 1 => Write(r, w[0])
            case _ => Write(Write(r, w[0]), w[1])
  {
    var w := StoresOf(r, o, CloseOp);
    hide WriteAll, Write;
    WriteTwo(r, w[0], w[|w| - 1]);
    assert w[..0] == [] && w[..1] == [w[0]] && w[..|w|] == w;
  }

  lemma CloseStore(r: Region, o: Owner, k: nat)
    requires Accounted(r) && Enabled(r, o, CloseOp) && k <= |StoresOf(r, o, CloseOp)|
    ensures Accounted(CrashPoint(r, o, CloseOp, k))
  {
    hide WriteAll, Balanced;
    ClosePoints(r, o, k);
    if k > 0 {
      HeaderChange(r, CrashPoint(r, o, CloseOp, k), o.slot);
    }
  }

  /** A slot that keeps its counters, or drops none, and stays well formed leaves the books right. */
  lemma HeaderChange(r: Region, after: Region, q: nat)
    requires Accounted(r) && Shaped(after) && Touches(r, after, q) && SlotOk(after.slots[q])
             && after.devices == r.devices
    requires forall d | 0 <= d < |r.devices| ::
               after.slots[q].reserved[d] == r.slots[q].reserved[d]
                 && after.slots[q].committed[d] == r.slots[q].committed[d]
    ensures Accounted(after)
  {
    AcceptedIff(r, after, q);
    hide Balanced, SlotOk;
  }

  /** For every operation and every prefix of its stores: whether the region passes the check is exactly
      known, and if it does, evicting the dead process's slot yields what it would have yielded before. */
  lemma TornOperation(r: Region, o: Owner, op: Op, k: nat)
    requires Accounted(r) && Enabled(r, o, op) && k <= |StoresOf(r, o, op)|
    ensures Accounted(CrashPoint(r, o, op, k)) <==> Consistent(r, op, k)
    ensures Consistent(r, op, k) ==>
              Holds(r, o.slot) && Holds(CrashPoint(r, o, op, k), o.slot)
                && Evict(CrashPoint(r, o, op, k), o.slot) == Evict(r, o.slot)
  {
    match op {
      case CommitOp(d, bytes) => FourStores(r, o, d, bytes, k);
      case CloseOp => CloseStore(r, o, k);
      case _ => TwoStores(r, o, op, k);
    }
    hide Accounted, StoresOf, Evict, Consistent, Holds;
    StoresConcern(r, o, op);
    WritesTouch(r, StoresOf(r, o, op)[..k], o.slot);
    if Consistent(r, op, k) {
      SameEviction(r, CrashPoint(r, o, op, k), o.slot);
    }
  }

  /** A complete operation keeps the books. */
  lemma OpKeeps(r: Region, o: Owner, op: Op)
    requires Accounted(r) && Enabled(r, o, op)
    ensures Accounted(WriteAll(r, StoresOf(r, o, op)))
  {
    var w := StoresOf(r, o, op);
    assert w[..|w|] == w;
    TornOperation(r, o, op, |w|);
  }
}
