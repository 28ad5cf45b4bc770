/** What becomes of a registration over a whole run: who may lose bytes, how often, and when. */
module SharedQuotaRecovery {
  import opened Common
  import opened SharedQuotaModel
  import opened SharedQuotaCrash
  import opened SharedQuotaReclaim
  import opened SharedQuotaSystem

  // ---------------------------------------------------------------------------
  // What stores can do to a slot

  predicate Quiet(w: Store, q: nat) {
    w.DeviceReserved? || w.DeviceCommitted? || ((w.SlotReserved? || w.SlotCommitted?) && w.p == q)
  }

  /** Stores that only move counters leave every slot with its registration, state and mark. */
  lemma {:induction false} QuietWrites(r: Region, writes: seq<Store>, q: nat)
    requires Shaped(r) && q < |r.slots| && forall i | 0 <= i < |writes| :: Quiet(writes[i], q)
    ensures var after := WriteAll(r, writes);
            && after.generation == r.generation
            && after.slots[q] == r.slots[q].(reserved := after.slots[q].reserved, committed := after.slots[q].committed)
            && ((forall i | 0 <= i < |writes| :: !writes[i].SlotCommitted?) ==>
                  after.slots[q].committed == r.slots[q].committed)
            && forall p | 0 <= p < |r.slots| && p != q :: after.slots[p] == r.slots[p]
    decreases |writes|
  {
    if writes != [] {
      assert Quiet(writes[0], q);
      QuietWrites(Write(r, writes[0]), writes[1..], q);
    }
  }

  /** The same registration: nothing but state, mark and counters differ. */
  predicate SameRegistration(s: Slot, t: Slot) {
    t.pid == s.pid && t.start == s.start && t.generation == s.generation
  }

  predicate OwnerTrail(s: Slot, t: Slot) {
    t == s
    || (s.state == ACTIVE
        && (Cleared(t) || (t.state != FREE && SameRegistration(s, t) && t.orphanedSince == s.orphanedSince == 0)))
  }

  /** However far an owner's operation got, only the owner's active slot is touched, and it is not marked. */
  lemma OpTrail(r: Region, o: Owner, op: Op, k: nat)
    requires Accounted(r) && Enabled(r, o, op) && k <= |StoresOf(r, o, op)|
    ensures var after := CrashPoint(r, o, op, k);
            && after.generation == r.generation && |after.slots| == |r.slots|
            && (forall p | 0 <= p < |r.slots| :: OwnerTrail(r.slots[p], after.slots[p]))
  {
    assert Shaped(r) && SlotOk(r.slots[o.slot]);
    hide Accounted, SlotOk;
    var w := StoresOf(r, o, op)[..k];
    if op.CloseOp? {
      ClosePoints(r, o, k);
    } else {
      QuietWrites(r, w, o.slot);
    }
  }

  /** A reclaim, finished or not, that holds `identity` dead at time `now`. */
  predicate ReclaimTrail(s: Slot, t: Slot, identity: Identity, now: u64) {
    t == s
    || (&& Observed(identity) && s.state != FREE && SlotIdentity(s) == identity
        && if t.state == FREE
           then Cleared(t) && (HoldsCommitted(s) ==> s.orphanedSince != 0 && GraceOver(s, now))
           else
             && SameRegistration(s, t) && t.committed == s.committed
             && (t.orphanedSince == s.orphanedSince || (s.orphanedSince == 0 && t.orphanedSince == now)))
  }

  lemma ReturnsQuiet(r: Region, p: nat, n: nat)
    requires Shaped(r) && p < |r.slots| && n <= |r.devices| && Covered(r, p)
    ensures forall i | 0 <= i < |ReturnReservations(r, p, n)| ::
              Quiet(ReturnReservations(r, p, n)[i], p) && !ReturnReservations(r, p, n)[i].SlotCommitted?
    ensures forall i | 0 <= i < |ReturnEverything(r, p, n)| ::
              Quiet(ReturnEverything(r, p, n)[i], p) && !ReturnEverything(r, p, n)[i].SlotCommitted?
  {
  }

  /** The mark, then counters. */
  lemma MarkPrefix(r: Region, p: nat, now: u64, moves: seq<Store>, k: nat)
    requires Shaped(r) && p < |r.slots| && r.slots[p].orphanedSince == 0 && k <= 2 + |moves|
    requires forall i | 0 <= i < |moves| :: Quiet(moves[i], p) && !moves[i].SlotCommitted?
    ensures var after := WriteAll(r, (MarkStores(p, now) + moves)[..k]);
            && after.generation == r.generation
            && (forall q | 0 <= q < |r.slots| && q != p :: after.slots[q] == r.slots[q])
            && var (s, t) := (r.slots[p], after.slots[p]);
               SameRegistration(s, t) && t.committed == s.committed && (t.orphanedSince == 0 || t.orphanedSince == now)
               && (t.state == s.state || t.state == ORPHANED)
  {
    hide WriteAll, Quiet;
    var all := MarkStores(p, now) + moves;
    WriteTwo(r, all[0], all[1]);
    if k <= 2 {
      assert all[..0] == [] && all[..1] == [all[0]] && all[..2] == [all[0], all[1]];
    } else {
      var rest := moves[..k - 2];
      assert all[..k] == MarkStores(p, now) + rest && MarkStores(p, now) == [all[0], all[1]];
      WriteAllJoins(r, MarkStores(p, now), rest);
      QuietWrites(WriteAll(r, MarkStores(p, now)), rest, p);
    }
  }

  lemma MarkLength(p: nat, now: u64)
    ensures |MarkStores(p, now)| == 2
  {
  }

  lemma ClearsLast(r: Region, writes: seq<Store>, p: nat)
    requires Shaped(r) && p < |r.slots|
    ensures var before := WriteAll(r, writes);
            var after := WriteAll(r, writes + [ClearSlot(p)]);
            && after.generation == before.generation && after.slots == before.slots[p := EmptySlot(|r.devices|)]
  {
    WriteAllJoins(r, writes, [ClearSlot(p)]);
    WriteTwo(WriteAll(r, writes), ClearSlot(p), ClearSlot(p));
  }

  /** The slot being reclaimed, after any prefix of the stores. */
  lemma ReclaimPrefixTrail(r: Region, p: nat, identity: Identity, now: u64, k: nat)
    requires Shaped(r) && p < |r.slots| && Covered(r, p) && k <= |ReclaimStores(r, p, now)|
             && Reclaimable(r, p, identity)
    ensures var after := WriteAll(r, ReclaimStores(r, p, now)[..k]);
            && after.generation == r.generation
            && (forall q | 0 <= q < |r.slots| && q != p :: after.slots[q] == r.slots[q])
            && ReclaimTrail(r.slots[p], after.slots[p], identity, now)
  {
    hide WriteAll, Covered, HoldsCommitted;
    ReturnsQuiet(r, p, |r.devices|);
    hide ReturnReservations, ReturnEverything, MarkStores;
    var all := ReclaimStores(r, p, now);
    WriteTwo(r, ClearSlot(p), ClearSlot(p));
    if r.slots[p].orphanedSince == 0 {
      var moves := ReturnReservations(r, p, |r.devices|);
      var marked := MarkStores(p, now) + moves;
      MarkLength(p, now);
      MarkPrefix(r, p, now, moves, if k <= |marked| then k else |marked|);
      if k <= |marked| {
        assert all[..k] == marked[..k];
      } else {
        assert all[..k] == marked + [ClearSlot(p)] && marked[..|marked|] == marked;
        ClearsLast(r, marked, p);
      }
    } else if GraceOver(r.slots[p], now) {
      var moves := ReturnEverything(r, p, |r.devices|);
      if k <= |moves| {
        assert all[..k] == moves[..k];
        QuietWrites(r, moves[..k], p);
      } else {
        assert all[..k] == moves + [ClearSlot(p)];
        QuietWrites(r, moves, p);
        ClearsLast(r, moves, p);
      }
    }
  }

  lemma ReclaimTrails(r: Region, dead: seq<Identity>, now: u64, n: nat, p: nat)
    requires Accounted(r) && |dead| == |r.slots| && n <= |r.slots| && p < |r.slots|
    ensures var after := Reclaim(r, dead, now, n).1;
            && after.generation == r.generation && ReclaimTrail(r.slots[p], after.slots[p], dead[p], now)
            && (p >= n ==> after.slots[p] == r.slots[p])
  {
    ReclaimKeeps(r, dead, now, n);
    hide Accounted, Reclaim;
    assert SlotStep(r.slots[p], Reclaim(r, dead, now, n).1.slots[p], if p < n then dead[p] else NOBODY, now);
  }

  lemma CrashedReclaimTrails(r: Region, dead: seq<Identity>, now: u64, n: nat, k: nat, p: nat)
    requires Accounted(r) && |dead| == |r.slots| && n < |r.slots| && p < |r.slots|
    ensures var after := CrashedReclaim(r, dead, now, n, k);
            && after.generation == r.generation && |after.slots| == |r.slots|
            && ReclaimTrail(r.slots[p], after.slots[p], dead[p], now)
  {
    assert Shaped(r);
    hide Accounted, WriteAll, ReclaimStores, Covered, Reclaim, HoldsCommitted, GraceOver;
    var before := Reclaim(r, dead, now, n).1;
    ReclaimTrails(r, dead, now, n, p);
    if Reclaimable(before, n, dead[n]) && Covered(before, n) && k <= |ReclaimStores(before, n, now)| {
      ReclaimPrefixTrail(before, n, dead[n], now, k);
    }
  }

  // ---------------------------------------------------------------------------
  // What a step can do to a slot

  predicate Reclaims(e: Event) {
    e.ReclaimEvent? || e.ReclaimCrashEvent?
  }

  /** The registration lives on. It is marked at most once, by a reclaim that found its process dead; from
      then on its committed bytes stay charged. */
  ghost predicate Continues(w: World, e: Event, s: Slot, t: Slot) {
    && s.state != FREE && t.state != FREE && SameRegistration(s, t)
    && (s.orphanedSince != 0 ==> t.committed == s.committed)
    && (t.orphanedSince == s.orphanedSince
        || (s.orphanedSince == 0 && Reclaims(e) && t.orphanedSince == e.now >= w.clock
          && ProcOf(SlotIdentity(s)) in w.gone))
  }

  /** A new registration takes a free slot and a generation nobody has had, and changes no other slot. */
  ghost predicate Begins(w: World, after: World, e: Event, p: nat) {
    && (e.RegisterEvent? || e.RegisterCrashEvent?) && p < |w.region.slots| && |after.region.slots| == |w.region.slots|
    && var t := after.region.slots[p];
       && w.region.slots[p].state == FREE && after.region.slots == w.region.slots[p := t]
       && t.orphanedSince == 0 && t.generation == after.region.generation > w.region.generation
       && ProcOf(SlotIdentity(t)) !in w.gone
  }

  /** A process died with its slot claimed and not yet filled in. */
  ghost predicate HalfBegun(w: World, after: World, e: Event, p: nat) {
    && e.RegisterCrashEvent? && p < |w.region.slots| && |after.region.slots| == |w.region.slots|
    && var t := after.region.slots[p];
       && w.region.slots[p].state == FREE && after.region.slots == w.region.slots[p := t]
       && t.orphanedSince == 0 && t.generation == 0
       && forall q | 0 <= q < |w.region.slots| && w.region.slots[q].state != FREE :: w.region.slots[q].generation != 0
  }

  ghost predicate Evolves(w: World, after: World, e: Event, p: nat) {
    && p < |w.region.slots| && |after.region.slots| == |w.region.slots|
    && (|| after.region.slots[p].state == FREE
        || Continues(w, e, w.region.slots[p], after.region.slots[p])
        || Begins(w, after, e, p)
        || HalfBegun(w, after, e, p))
  }

  ghost predicate AllEvolve(w: World, after: World, e: Event) {
    && |after.region.slots| == |w.region.slots| && Shaped(after.region)
    && after.gone >= w.gone && after.clock >= w.clock
    && after.region.generation >= w.region.generation
    && (Reclaims(e) && after.region != w.region ==> after.clock == e.now)
    && forall p | 0 <= p < |w.region.slots| :: Evolves(w, after, e, p)
  }

  /** Identities a recovery carries were really registered, and those it holds dead belong to dead processes. */
  ghost predicate Carries(w: World, who: nat) {
    match RecoveryOf(w, who)
    case Idle => true
    case Copied(ids) => forall p | 0 <= p < |ids| :: ids[p].generation <= w.region.generation
    case Judged(dead) => forall p | 0 <= p < |dead| ::
      dead[p].generation <= w.region.generation && (Observed(dead[p]) ==> ProcOf(dead[p]) in w.gone)
  }

  /** Generations are issued once and marks lie in the past. */
  ghost predicate Sane(w: World) {
    && Shaped(w.region)
    && (forall p | 0 <= p < |w.region.slots| && w.region.slots[p].state != FREE ::
          w.region.slots[p].generation <= w.region.generation && w.region.slots[p].orphanedSince <= w.clock)
    && (forall p, q | 0 <= p < q < |w.region.slots| && w.region.slots[p].state != FREE
        && w.region.slots[q].state != FREE ::
          w.region.slots[p].generation != w.region.slots[q].generation)
    && forall who | who in w.recoveries :: Carries(w, who)
  }

  lemma Unchanged(w: World, after: World, e: Event)
    requires Shaped(w.region) && after.region == w.region && after.gone >= w.gone && after.clock >= w.clock
    ensures AllEvolve(w, after, e)
  {
  }

  lemma OwnerEvolves(w: World, after: World, e: Event)
    requires Accounted(w.region) && Shaped(after.region) && after.clock == w.clock && after.gone >= w.gone
             && !Reclaims(e)
    requires |after.region.slots| == |w.region.slots| && after.region.generation == w.region.generation
    requires forall p | 0 <= p < |w.region.slots| :: OwnerTrail(w.region.slots[p], after.region.slots[p])
    ensures AllEvolve(w, after, e)
  {
    forall p | 0 <= p < |w.region.slots| ensures Evolves(w, after, e, p) {
      assert OwnerTrail(w.region.slots[p], after.region.slots[p]);
    }
  }

  lemma SameSlotsTrail(r: Region, after: Region)
    requires |after.slots| == |r.slots| && after.slots == r.slots
    ensures forall p | 0 <= p < |r.slots| :: OwnerTrail(r.slots[p], after.slots[p])
  {
  }

  lemma ReserveTrail(r: Region, o: Owner, device: int, limit: u64, bytes: u64)
    requires Accounted(r)
    ensures var after := ReserveBytes(r, o, device, limit, bytes).1;
            && Shaped(after) && |after.slots| == |r.slots| && after.generation == r.generation
            && (forall p | 0 <= p < |r.slots| :: OwnerTrail(r.slots[p], after.slots[p]))
  {
    if Owns(r, o) {
      var (d, ready) := OpenDevice(r, device, limit);
      OpenDeviceKeeps(r, device, limit);
      hide Accounted, OwnerTrail, WriteAll;
      SameSlotsTrail(r, ready);
      SameSlotsTrail(r, r);
      if d.Some? && CanReserve(ready, o, d.value, bytes) {
        WholeOpTrail(ready, o, ReserveOp(d.value, bytes));
      }
    } else {
      SameSlotsTrail(r, r);
    }
  }

  lemma WholeOpTrail(r: Region, o: Owner, op: Op)
    requires Accounted(r) && Enabled(r, o, op)
    ensures var after := WriteAll(r, StoresOf(r, o, op));
            && after.generation == r.generation && |after.slots| == |r.slots|
            && (forall p | 0 <= p < |r.slots| :: OwnerTrail(r.slots[p], after.slots[p]))
  {
    var all := StoresOf(r, o, op);
    assert all[..|all|] == all;
    OpTrail(r, o, op, |all|);
  }

  lemma RegisterBegins(w: World, e: Event)
    requires Accounted(w.region) && e.RegisterEvent? && w.region.generation < U64_MAX
    requires Proc(e.pid, e.start) !in w.gone
    ensures var after := w.(region := Register(w.region, e.pid, e.start, e.device, e.limit).1);
            AllEvolve(w, after, e)
  {
    var r := w.region;
    var (outcome, region) := Register(r, e.pid, e.start, e.device, e.limit);
    var after := w.(region := region);
    OpenDeviceKeeps(r, e.device, e.limit);
    hide Accounted;
    if outcome.Registered? {
      assert Begins(w, after, e, outcome.slot);
      forall p | 0 <= p < |r.slots| ensures Evolves(w, after, e, p) {
      }
    }
  }

  lemma RegisterCrashBegins(w: World, e: Event)
    requires Accounted(w.region) && e.RegisterCrashEvent? && w.region.generation < U64_MAX
    requires Proc(e.pid, e.start) !in w.gone
    ensures AllEvolve(w, w.(region := RegisterPoint(w.region, e.pid, e.start, e.device, e.limit, e.k),
                            gone := w.gone + {Proc(e.pid, e.start)}), e)
  {
    var r := w.region;
    var outcome := Register(r, e.pid, e.start, e.device, e.limit).0;
    var after := w.(region := RegisterPoint(r, e.pid, e.start, e.device, e.limit, e.k),
      gone := w.gone + {Proc(e.pid, e.start)});
    OpenDeviceKeeps(r, e.device, e.limit);
    Numbered(r);
    hide Accounted;
    if outcome.Registered? && e.k >= 3 {
      var t := PartlyRegistered(|r.devices|, e.pid, e.start, outcome.generation, e.k - 3);
      assert after.region.slots == r.slots[outcome.slot := t];
      assert e.k >= 7 ==> Begins(w, after, e, outcome.slot);
      assert 4 <= e.k < 7 ==> HalfBegun(w, after, e, outcome.slot);
      forall p | 0 <= p < |r.slots| ensures Evolves(w, after, e, p) {
      }
    }
  }

  /** A registration always has a generation. */
  lemma Numbered(r: Region)
    requires Accounted(r)
    ensures forall q | 0 <= q < |r.slots| && r.slots[q].state != FREE :: r.slots[q].generation != 0
  {
    assert forall q | 0 <= q < |r.slots| :: SlotOk(r.slots[q]);
  }

  /** Every event, at every slot. */
  lemma NextEvolves(w: World, e: Event)
    requires Sane(w) && w.region.generation < U64_MAX
    ensures AllEvolve(w, Next(w, e), e)
  {
    var r, after := w.region, Next(w, e);
    hide AllEvolve, Accounted, WriteAll, OwnerTrail;
    if after.region == r {
      Unchanged(w, after, e);
    } else if e.RegisterEvent? {
      RegisterBegins(w, e);
    } else if e.RegisterCrashEvent? {
      RegisterCrashBegins(w, e);
    } else if Reclaims(e) {
      ReclaimEvolves(w, e);
    } else {
      match e {
        case ReserveEvent(o, device, limit, bytes) => ReserveTrail(r, o, device, limit, bytes);
        case CommitEvent(o, d, bytes) => WholeOpTrail(r, o, CommitOp(d, bytes));
        case CancelEvent(o, d, bytes) => WholeOpTrail(r, o, CancelOp(d, bytes));
        case ReleaseEvent(o, device, bytes) => WholeOpTrail(r, o, ReleaseOp(FindDevice(r, device, 0).value, bytes));
        case CloseEvent(o) => WholeOpTrail(r, o, CloseOp);
        case CrashEvent(o, op, k) => OpTrail(r, o, op, k);
      }
      OwnerEvolves(w, after, e);
    }
  }

  /** The reclaim of an event that has one to do. */
  ghost predicate Reclaiming(w: World, e: Event) {
    && Accounted(w.region) && Reclaims(e) && RecoveryOf(w, e.who).Judged?
    && |RecoveryOf(w, e.who).dead| == |w.region.slots| && w.clock <= e.now
    && (e.ReclaimCrashEvent? ==> e.n < |w.region.slots|)
  }

  /** Whatever a recovering process does, and wherever it dies, slot p changes only as ReclaimTrail allows. */
  lemma ReclaimEventTrail(w: World, e: Event, p: nat)
    requires Reclaiming(w, e) && p < |w.region.slots|
    ensures var after := Next(w, e);
            && after.region.generation == w.region.generation && |after.region.slots| == |w.region.slots|
            && Shaped(after.region)
            && after.clock == e.now && after.gone == w.gone
            && ReclaimTrail(w.region.slots[p], after.region.slots[p], RecoveryOf(w, e.who).dead[p], e.now)
  {
    var dead := RecoveryOf(w, e.who).dead;
    assert Shaped(w.region);
    hide Accounted, ReclaimTrail, Reclaim;
    if e.ReclaimEvent? {
      ReclaimTrails(w.region, dead, e.now, |dead|, p);
    } else {
      CrashedReclaimTrails(w.region, dead, e.now, e.n, e.k, p);
    }
  }

  lemma NobodyToReclaim(w: World, e: Event)
    requires Reclaiming(w, e) && w.region.slots == []
    ensures Next(w, e).region == w.region
  {
  }

  lemma ReclaimEvolves(w: World, e: Event)
    requires Sane(w) && Accounted(w.region) && Reclaims(e) && Next(w, e).region != w.region
    ensures AllEvolve(w, Next(w, e), e)
  {
    assert Reclaiming(w, e);
    hide Accounted, Reclaiming, Next;
    var after := Next(w, e);
    if |w.region.slots| == 0 {
      NobodyToReclaim(w, e);
    } else {
      ReclaimEventTrail(w, e, 0);
    }
    forall p | 0 <= p < |w.region.slots| ensures Evolves(w, after, e, p) {
      ReclaimEventTrail(w, e, p);
    }
  }

  // ---------------------------------------------------------------------------
  // Whole runs

  lemma SlotsSane(w: World, after: World, e: Event)
    requires Sane(w) && AllEvolve(w, after, e)
    ensures forall p | 0 <= p < |after.region.slots| && after.region.slots[p].state != FREE ::
              after.region.slots[p].generation <= after.region.generation
                && after.region.slots[p].orphanedSince <= after.clock
    ensures forall p, q | 0 <= p < q < |after.region.slots| && after.region.slots[p].state != FREE
            && after.region.slots[q].state != FREE ::
              after.region.slots[p].generation != after.region.slots[q].generation
  {
    hide Carries;
    forall p | 0 <= p < |after.region.slots| && after.region.slots[p].state != FREE
      ensures after.region.slots[p].generation <= after.region.generation
              && after.region.slots[p].orphanedSince <= after.clock
    {
      assert Evolves(w, after, e, p);
    }
    forall p, q | 0 <= p < q < |after.region.slots| && after.region.slots[p].state != FREE
      && after.region.slots[q].state != FREE
      ensures after.region.slots[p].generation != after.region.slots[q].generation
    {
      assert Evolves(w, after, e, p) && Evolves(w, after, e, q);
    }
  }

  lemma RecoveriesSane(w: World, e: Event, who: nat)
    requires Sane(w) && Next(w, e).region.generation >= w.region.generation && who in Next(w, e).recoveries
    ensures Carries(Next(w, e), who)
  {
    var after := Next(w, e);
    hide Accounted, WriteAll, Reclaim, Register, ReserveBytes, CommitBytes, CancelBytes, ReleaseBytes, CloseSlot,
      CrashedReclaim;
    assert who in w.recoveries ==> Carries(w, who);
    if e.JudgeEvent? && e.who == who && RecoveryOf(w, who).Copied? {
      assert Carries(w, who);
    }
  }

  /** Sanity is kept by every event, crashes included. */
  lemma NextSane(w: World, e: Event)
    requires Sane(w) && w.region.generation < U64_MAX
    ensures Sane(Next(w, e))
  {
    NextEvolves(w, e);
    SlotsSane(w, Next(w, e), e);
    forall who | who in Next(w, e).recoveries ensures Carries(Next(w, e), who) {
      RecoveriesSane(w, e, who);
    }
    hide Next, Carries;
  }

  /** One step, short of the wrap-around of the generation counter. */
  ghost predicate Stepped(w: World, e: Event, after: World) {
    w.region.generation < U64_MAX && after == Next(w, e)
  }

  ghost predicate IsRun(ws: seq<World>, es: seq<Event>) {
    && |ws| == |es| + 1 && Sane(ws[0])
    && forall i | 0 <= i < |es| :: Stepped(ws[i], es[i], ws[i + 1])
  }

  function FreshWorld(clock: u64): World {
    World(FreshRegion(), {}, map[], clock)
  }

  /** A region nobody has used is where every run may start. */
  lemma InitialSane(clock: u64)
    ensures Sane(FreshWorld(clock)) && Unmarked(FreshWorld(clock)) && Accounted(FreshWorld(clock).region)
  {
    FreshAccounted();
    hide Accounted;
  }

  lemma {:induction false} RunSane(ws: seq<World>, es: seq<Event>, i: nat)
    requires IsRun(ws, es) && i <= |es|
    ensures Sane(ws[i])
    ensures i < |es| ==> AllEvolve(ws[i], ws[i + 1], es[i])
  {
    hide Sane, Next, AllEvolve;
    if i > 0 {
      RunSane(ws, es, i - 1);
      assert Stepped(ws[i - 1], es[i - 1], ws[i]);
      NextSane(ws[i - 1], es[i - 1]);
    }
    if i < |es| {
      assert Stepped(ws[i], es[i], ws[i + 1]);
      NextEvolves(ws[i], es[i]);
    }
  }

  lemma RunLength(ws: seq<World>, es: seq<Event>)
    requires IsRun(ws, es)
    ensures |ws| == |es| + 1
  {
    hide Sane, Next;
  }

  /** However the steps are interleaved between copying identities and coming back to reclaim, a reclaim
      touches a slot only if it is still held by the very registration that was found dead. */
  lemma OnlyTheDeadAreTouched(w: World, e: Event, p: nat)
    requires Sane(w) && Reclaims(e) && p < |w.region.slots|
    requires |Next(w, e).region.slots| == |w.region.slots| && Next(w, e).region.slots[p] != w.region.slots[p]
    ensures var s := w.region.slots[p];
            && Reclaiming(w, e) && s.state != FREE && SlotIdentity(s) == RecoveryOf(w, e.who).dead[p]
            && ProcOf(SlotIdentity(s)) in w.gone
  {
    assert Reclaiming(w, e);
    assert Carries(w, e.who);
    hide Next, Accounted, Reclaiming;
    ReclaimEventTrail(w, e, p);
  }

  // A registration is a slot under one generation.

  ghost predicate Registered(w: World, p: nat, g: u64) {
    p < |w.region.slots| && w.region.slots[p].state != FREE && w.region.slots[p].generation == g
  }

  lemma StaysOut(w: World, after: World, e: Event, p: nat, g: u64)
    requires Sane(w) && AllEvolve(w, after, e) && 0 < g <= w.region.generation && !Registered(w, p, g)
    ensures !Registered(after, p, g) && g <= after.region.generation
  {
    if p < |w.region.slots| {
      assert Evolves(w, after, e, p);
    }
  }

  /** Once a registration has ended no later step can bring its generation back, in any slot. */
  lemma {:induction false} NeverAgain(ws: seq<World>, es: seq<Event>, i: nat, j: nat, p: nat, g: u64)
    requires IsRun(ws, es) && i <= j <= |es| && 0 < g <= ws[i].region.generation && !Registered(ws[i], p, g)
    ensures g <= ws[j].region.generation && !Registered(ws[j], p, g)
    decreases j
  {
    hide IsRun, Sane, AllEvolve, Registered, Next;
    RunLength(ws, es);
    if j > i {
      NeverAgain(ws, es, i, j - 1, p, g);
      RunSane(ws, es, j - 1);
      StaysOut(ws[j - 1], ws[j], es[j - 1], p, g);
    }
  }

  lemma NobodyElse(w: World, p: nat, q: nat, g: u64)
    requires Sane(w) && Registered(w, p, g) && q != p
    ensures g <= w.region.generation && !Registered(w, q, g)
  {
  }

  lemma OnlyIfAccounted(w: World, e: Event)
    ensures Next(w, e).region != w.region ==> Accounted(w.region)
  {
  }

  /** What a recovery carries for slot q is dropped. */
  ghost function Forgetting(w: World, who: nat, q: nat): World
    requires RecoveryOf(w, who).Judged? && q < |RecoveryOf(w, who).dead|
  {
    w.(recoveries := w.recoveries[who := Judged(RecoveryOf(w, who).dead[q := NOBODY])])
  }

  lemma {:induction false} ReclaimSkips(r: Region, dead: seq<Identity>, now: u64, n: nat, q: nat)
    requires Accounted(r) && |dead| == |r.slots| && n <= |r.slots| && q < |r.slots| && !Reclaimable(r, q, dead[q])
    ensures Reclaim(r, dead[q := NOBODY], now, n) == Reclaim(r, dead, now, n)
  {
    assert Shaped(r);
    hide Accounted, ReclaimSlot;
    if n > 0 {
      ReclaimSkips(r, dead, now, n - 1, q);
      ReclaimTrails(r, dead, now, n - 1, q);
      NothingReclaimed(Reclaim(r, dead, now, n - 1).1, n - 1, dead[n - 1], now);
      NothingReclaimed(Reclaim(r, dead, now, n - 1).1, n - 1, NOBODY, now);
    }
  }

  lemma NothingReclaimed(r: Region, p: nat, identity: Identity, now: u64)
    requires Shaped(r) && p < |r.slots|
    ensures !Reclaimable(r, p, identity) ==> ReclaimSlot(r, p, identity, now) == (true, r)
  {
  }

  /** A reclaim, finished or not, treats a slot it cannot touch as if it carried nothing for it. */
  lemma ReclaimingSkips(w: World, e: Event, q: nat)
    requires Reclaiming(w, e) && q < |w.region.slots| && !Reclaimable(w.region, q, RecoveryOf(w, e.who).dead[q])
    ensures Next(Forgetting(w, e.who, q), e).region == Next(w, e).region
  {
    var r, dead := w.region, RecoveryOf(w, e.who).dead;
    assert Shaped(r);
    hide Accounted, Reclaim, WriteAll, ReclaimStores, Covered;
    if e.ReclaimEvent? {
      ReclaimSkips(r, dead, e.now, |dead|, q);
    } else {
      ReclaimSkips(r, dead, e.now, e.n, q);
      ReclaimTrails(r, dead, e.now, e.n, q);
    }
  }

  /** Of several recoveries that found the same process dead, one ends its registration; what the others
      still carry of it touches nothing, so no byte is given back twice: they leave the region, device totals
      included, that they would have left without it. */
  lemma RecoveredOnce(ws: seq<World>, es: seq<Event>, i: nat, j: nat, p: nat, q: nat)
    requires IsRun(ws, es) && i < j < |es| && p < |ws[i].region.slots|
    requires Registered(ws[i], p, ws[i].region.slots[p].generation)
    requires !Registered(ws[i + 1], p, ws[i].region.slots[p].generation)
    requires Reclaiming(ws[j], es[j]) && q < |ws[j].region.slots|
    requires RecoveryOf(ws[j], es[j].who).dead[q].generation == ws[i].region.slots[p].generation
    ensures |ws[j + 1].region.slots| == |ws[j].region.slots| && ws[j + 1].region.slots[q] == ws[j].region.slots[q]
    ensures ws[j + 1].region == Next(Forgetting(ws[j], es[j].who, q), es[j]).region
  {
    var g := ws[i].region.slots[p].generation;
    RunSane(ws, es, i);
    assert Stepped(ws[i], es[i], ws[i + 1]) && Stepped(ws[j], es[j], ws[j + 1]);
    hide IsRun, Sane, AllEvolve, Next, Accounted;
    OnlyIfAccounted(ws[i], es[i]);
    Numbered(ws[i].region);
    ReclaimEventTrail(ws[j], es[j], q);
    if q != p {
      NobodyElse(ws[i], p, q, g);
      NeverAgain(ws, es, i, j, q, g);
    } else {
      NobodyElse(ws[i], p, p + 1, g);
      Grows(ws[i], ws[i + 1], es[i]);
      NeverAgain(ws, es, i + 1, j, p, g);
    }
    ReclaimingSkips(ws[j], es[j], q);
  }

  lemma Grows(w: World, after: World, e: Event)
    requires AllEvolve(w, after, e)
    ensures w.region.generation <= after.region.generation && w.gone <= after.gone
            && |w.region.slots| == |after.region.slots|
  {
  }

  // The grace period

  /** Step i marked slot p: its process was dead, and the mark is the time of that reclaim. */
  ghost predicate MarkedAt(ws: seq<World>, es: seq<Event>, i: nat, p: nat, mark: u64)
    requires |ws| == |es| + 1 && i < |es|
  {
    && p < |ws[i].region.slots| == |ws[i + 1].region.slots|
    && var s, t := ws[i].region.slots[p], ws[i + 1].region.slots[p];
       && Reclaims(es[i]) && es[i].now == mark
       && s.state != FREE && s.orphanedSince == 0 && t.state != FREE && t.orphanedSince == mark
       && SameRegistration(s, t)
       && ProcOf(SlotIdentity(s)) in ws[i].gone
  }

  /** From step i + 1 to step j the slot belongs to one marked registration and its committed bytes stay charged. */
  ghost predicate Charged(ws: seq<World>, i: nat, j: nat, p: nat, mark: u64)
    requires i < j < |ws|
  {
    forall k | i < k <= j ::
      && p < |ws[k].region.slots| && p < |ws[j].region.slots| && ws[k].region.slots[p].state != FREE
      && SameRegistration(ws[k].region.slots[p], ws[j].region.slots[p])
      && ws[k].region.slots[p].orphanedSince == mark
      && ws[k].region.slots[p].committed == ws[j].region.slots[p].committed
  }

  ghost predicate Unmarked(w: World) {
    forall p | 0 <= p < |w.region.slots| && w.region.slots[p].state != FREE :: w.region.slots[p].orphanedSince == 0
  }

  /** Every mark goes back to a reclaim that found the process dead, and nothing was given back since. */
  lemma {:induction false} MarkOrigin(ws: seq<World>, es: seq<Event>, j: nat, p: nat) returns (i: nat)
    requires IsRun(ws, es) && j <= |es| && Unmarked(ws[0])
    requires p < |ws[j].region.slots| && ws[j].region.slots[p].state != FREE && ws[j].region.slots[p].orphanedSince != 0
    ensures i < j && MarkedAt(ws, es, i, p, ws[j].region.slots[p].orphanedSince)
    ensures Charged(ws, i, j, p, ws[j].region.slots[p].orphanedSince)
    decreases j
  {
    hide IsRun, Sane, AllEvolve, MarkedAt, Charged, Next, Unmarked;
    RunLength(ws, es);
    NotMarkedAtFirst(ws, j, p);
    RunSane(ws, es, j - 1);
    var s, t := MarkStep(ws, es, j - 1, p);
    if s.orphanedSince == t.orphanedSince {
      i := MarkOrigin(ws, es, j - 1, p);
      ChargedLonger(ws, i, j, p, s.orphanedSince);
    } else {
      i := j - 1;
      ChargedOnce(ws, i, p);
    }
  }

  lemma NotMarkedAtFirst(ws: seq<World>, j: nat, p: nat)
    requires j < |ws| && Unmarked(ws[0]) && p < |ws[j].region.slots|
    requires ws[j].region.slots[p].state != FREE && ws[j].region.slots[p].orphanedSince != 0
    ensures j > 0
  {
  }

  /** A marked slot was marked before the step with the same bytes, or is marked by it. */
  lemma MarkStep(ws: seq<World>, es: seq<Event>, k: nat, p: nat) returns (s: Slot, t: Slot)
    requires |ws| == |es| + 1 && k < |es| && AllEvolve(ws[k], ws[k + 1], es[k])
    requires p < |ws[k + 1].region.slots| && ws[k + 1].region.slots[p].state != FREE
             && ws[k + 1].region.slots[p].orphanedSince != 0
    ensures p < |ws[k].region.slots| && s == ws[k].region.slots[p] && t == ws[k + 1].region.slots[p]
    ensures s.orphanedSince == t.orphanedSince ==>
              s.state != FREE && SameRegistration(s, t) && s.committed == t.committed
    ensures s.orphanedSince != t.orphanedSince ==> MarkedAt(ws, es, k, p, t.orphanedSince)
  {
    assert Evolves(ws[k], ws[k + 1], es[k], p);
    s, t := ws[k].region.slots[p], ws[k + 1].region.slots[p];
  }

  lemma ChargedLonger(ws: seq<World>, i: nat, j: nat, p: nat, mark: u64)
    requires i < j - 1 && j < |ws| && Charged(ws, i, j - 1, p, mark)
    requires p < |ws[j - 1].region.slots| && p < |ws[j].region.slots|
    requires var s, t := ws[j - 1].region.slots[p], ws[j].region.slots[p];
             t.state != FREE && SameRegistration(s, t) && s.committed == t.committed && t.orphanedSince == mark
    ensures Charged(ws, i, j, p, mark)
  {
  }

  lemma ChargedOnce(ws: seq<World>, i: nat, p: nat)
    requires i + 1 < |ws| && p < |ws[i + 1].region.slots| && ws[i + 1].region.slots[p].state != FREE
    ensures Charged(ws, i, i + 1, p, ws[i + 1].region.slots[p].orphanedSince)
  {
  }

  /** Committed bytes come back to the device only from an orphan whose process was found dead and marked by
      an earlier reclaim, at least the grace period before. */
  lemma GraceIsKept(ws: seq<World>, es: seq<Event>, j: nat, p: nat) returns (i: nat)
    requires IsRun(ws, es) && j < |es| && Unmarked(ws[0]) && Reclaims(es[j])
    requires p < |ws[j].region.slots| == |ws[j + 1].region.slots|
    requires ws[j].region.slots[p].state != FREE && HoldsCommitted(ws[j].region.slots[p])
    requires ws[j + 1].region.slots[p].committed != ws[j].region.slots[p].committed
    ensures i < j && es[j].now >= ws[j].region.slots[p].orphanedSince + GRACE_MILLISECONDS
    ensures ws[j].region.slots[p].orphanedSince != 0 && MarkedAt(ws, es, i, p, ws[j].region.slots[p].orphanedSince)
    ensures Charged(ws, i, j, p, ws[j].region.slots[p].orphanedSince)
  {
    RunSane(ws, es, j);
    assert Stepped(ws[j], es[j], ws[j + 1]);
    assert Reclaiming(ws[j], es[j]);
    hide IsRun, Sane, AllEvolve, Next, Accounted, Reclaiming, MarkedAt, Charged, HoldsCommitted;
    ReclaimEventTrail(ws[j], es[j], p);
    i := MarkOrigin(ws, es, j, p);
  }

  /** Once a slot is marked, the mark stays with the registration. */
  lemma {:induction false} MarkStays(ws: seq<World>, es: seq<Event>, i: nat, j: nat, p: nat, g: u64, t: u64)
    requires IsRun(ws, es) && i <= j <= |es| && p < |ws[i].region.slots| && 0 < g <= ws[i].region.generation
    requires Registered(ws[i], p, g) ==> 0 < ws[i].region.slots[p].orphanedSince <= t
    ensures g <= ws[j].region.generation && |ws[j].region.slots| == |ws[i].region.slots|
    ensures Registered(ws[j], p, g) ==>
              && Registered(ws[i], p, g) && SlotIdentity(ws[j].region.slots[p]) == SlotIdentity(ws[i].region.slots[p])
              && 0 < ws[j].region.slots[p].orphanedSince <= t
    decreases j
  {
    hide IsRun, Sane, AllEvolve, Next;
    RunLength(ws, es);
    if j > i {
      MarkStays(ws, es, i, j - 1, p, g, t);
      RunSane(ws, es, j - 1);
      MarkStaysOnce(ws[j - 1], ws[j], es[j - 1], p, g);
    }
  }

  lemma MarkStaysOnce(w: World, after: World, e: Event, p: nat, g: u64)
    requires AllEvolve(w, after, e) && p < |w.region.slots| && 0 < g <= w.region.generation
    requires Registered(w, p, g) ==> w.region.slots[p].orphanedSince > 0
    ensures g <= after.region.generation && |after.region.slots| == |w.region.slots|
    ensures Registered(after, p, g) ==>
              && Registered(w, p, g) && SlotIdentity(after.region.slots[p]) == SlotIdentity(w.region.slots[p])
              && after.region.slots[p].orphanedSince == w.region.slots[p].orphanedSince
  {
    assert Evolves(w, after, e, p);
  }

  lemma MarkInPast(w: World, p: nat)
    requires Sane(w) && p < |w.region.slots| && w.region.slots[p].state != FREE
    ensures w.region.slots[p].orphanedSince <= w.clock && w.region.slots[p].generation <= w.region.generation
  {
    hide Carries;
  }

  lemma ReclaimEventStep(w: World, e: Event, p: nat)
    requires Reclaiming(w, e) && e.ReclaimEvent? && p < |w.region.slots|
    ensures var after := Next(w, e);
            && |after.region.slots| == |w.region.slots| && after.region.generation == w.region.generation
            && SlotOk(w.region.slots[p])
            && SlotStep(w.region.slots[p], after.region.slots[p], RecoveryOf(w, e.who).dead[p], e.now)
  {
    var dead := RecoveryOf(w, e.who).dead;
    assert SlotOk(w.region.slots[p]);
    hide Accounted, SlotOk, Reclaim, SlotStep;
    ReclaimKeeps(w.region, dead, e.now, |dead|);
  }

  /** Recovery gets done: two reclaims that hold a registration dead, the grace period apart, end it, whatever
      the other processes do and wherever they die in between. */
  lemma TwoReclaimsEnd(ws: seq<World>, es: seq<Event>, i: nat, j: nat, p: nat)
    requires IsRun(ws, es) && i < j < |es| && p < |ws[i].region.slots| && ws[i].region.slots[p].state != FREE
    requires Reclaiming(ws[i], es[i]) && es[i].ReclaimEvent? && Reclaiming(ws[j], es[j]) && es[j].ReclaimEvent?
    requires RecoveryOf(ws[i], es[i].who).dead[p] == SlotIdentity(ws[i].region.slots[p])
    requires p < |ws[j].region.slots| && RecoveryOf(ws[j], es[j].who).dead[p] == SlotIdentity(ws[i].region.slots[p])
    requires es[i].now != 0 && es[j].now >= es[i].now + GRACE_MILLISECONDS
    ensures !Registered(ws[j + 1], p, ws[i].region.slots[p].generation)
  {
    var g := ws[i].region.slots[p].generation;
    RunLength(ws, es);
    RunSane(ws, es, i);
    RunSane(ws, es, j);
    assert Stepped(ws[i], es[i], ws[i + 1]) && Stepped(ws[j], es[j], ws[j + 1]);
    hide IsRun, Sane, AllEvolve, Next, Accounted;
    MarkInPast(ws[i], p);
    ReclaimEventStep(ws[i], es[i], p);
    ReclaimEventStep(ws[j], es[j], p);
    MarkStays(ws, es, i + 1, j, p, g, es[i].now);
  }

  // ---------------------------------------------------------------------------
  // The books over a run

  /** The books are right until a process dies halfway through an operation; from the first torn region on
      nothing is ever written to it again. */
  lemma {:induction false} TornOnlyByACrash(ws: seq<World>, es: seq<Event>, j: nat)
    requires IsRun(ws, es) && j <= |es| && Accounted(ws[0].region)
    ensures Accounted(ws[j].region)
            || exists i :: 0 <= i < j && Crashes(es[i]) && Accounted(ws[i].region) && ws[i + 1].region == ws[j].region
  {
    if j > 0 {
      TornOnlyByACrash(ws, es, j - 1);
      assert Stepped(ws[j - 1], es[j - 1], ws[j]);
      if Accounted(ws[j - 1].region) {
        if !Crashes(es[j - 1]) {
          NextKeepsBooks(ws[j - 1], es[j - 1]);
        } else {
          assert ws[(j - 1) + 1].region == ws[j].region;
        }
      } else {
        var i :| 0 <= i < j - 1 && Crashes(es[i]) && Accounted(ws[i].region) && ws[i + 1].region == ws[j - 1].region;
        assert ws[i + 1].region == ws[j].region;
      }
    }
  }
}
