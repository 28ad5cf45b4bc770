/** The region several processes share: per-device totals and per-process counters that must agree. An
    operation is the list of stores it performs, so that a process can die after any of them. */
module SharedQuotaModel {
  import opened Common
  import opened Sums

  const FREE: u32 := 0
  const ACTIVE: u32 := 1
  const ORPHANED: u32 := 2
  const MAX_DEVICES: nat := 16
  const MAX_PROCESS_SLOTS: nat := 64
  const GRACE_MILLISECONDS: nat := 5000

  datatype Device = Device(state: u32, id: int, limit: u64, reserved: u64, committed: u64)

  datatype Slot = Slot(state: u32, pid: int, start: u64, generation: u64, orphanedSince: u64,
                       reserved: seq<u64>, committed: seq<u64>)

  datatype Region = Region(generation: u64, devices: seq<Device>, slots: seq<Slot>)

  datatype Identity = Identity(pid: int, start: u64, generation: u64)

  const NOBODY := Identity(0, 0, 0)

  function Zeros(n: nat): seq<u64> {
    seq(n, _ => 0)
  }

  function EmptySlot(devices: nat): Slot {
    Slot(FREE, 0, 0, 0, 0, Zeros(devices), Zeros(devices))
  }

  function EmptyDevice(): Device {
    Device(FREE, 0, 0, 0, 0)
  }

  /** A region nobody has used. */
  function FreshRegion(): Region {
    Region(1, seq(MAX_DEVICES, _ => EmptyDevice()), seq(MAX_PROCESS_SLOTS, _ => EmptySlot(MAX_DEVICES)))
  }

  predicate Shaped(r: Region) {
    forall p | 0 <= p < |r.slots| :: |r.slots[p].reserved| == |r.devices| && |r.slots[p].committed| == |r.devices|
  }

  // ---------------------------------------------------------------------------
  // Accounting

  predicate DeviceOk(d: Device) {
    if d.state == FREE then d.reserved == 0 && d.committed == 0
    else d.state == ACTIVE && d.reserved + d.committed <= d.limit
  }

  predicate SlotOk(s: Slot) {
    if s.state == FREE then Unused(s)
    else
      && (s.state == ACTIVE || s.state == ORPHANED)
      && (s.state == ACTIVE ==> s.orphanedSince == 0)
      && s.pid > 0 && s.start != 0 && s.generation != 0
  }

  /** The slot holds no bytes. */
  predicate Unused(s: Slot) {
    && (forall d | 0 <= d < |s.reserved| :: s.reserved[d] == 0)
    && (forall d | 0 <= d < |s.committed| :: s.committed[d] == 0)
  }

  /** As left by ClearSlot. */
  predicate Cleared(s: Slot) {
    s == EmptySlot(|s.reserved|)
  }

  ghost function ReservedOn(slots: seq<Slot>, d: nat): nat -> nat {
    (p: nat) => if p < |slots| && d < |slots[p].reserved| then slots[p].reserved[d] else 0
  }

  ghost function CommittedOn(slots: seq<Slot>, d: nat): nat -> nat {
    (p: nat) => if p < |slots| && d < |slots[p].committed| then slots[p].committed[d] else 0
  }

  /** Every device total is the sum of what the processes hold on it. */
  ghost predicate Balanced(r: Region) {
    forall d | 0 <= d < |r.devices| ::
      && r.devices[d].reserved == Sum(|r.slots|, ReservedOn(r.slots, d))
      && r.devices[d].committed == Sum(|r.slots|, CommittedOn(r.slots, d))
  }

  ghost predicate Accounted(r: Region) {
    && Shaped(r)
    && (forall d | 0 <= d < |r.devices| :: DeviceOk(r.devices[d]))
    && (forall p | 0 <= p < |r.slots| :: SlotOk(r.slots[p]))
    && Balanced(r)
  }

  // ---------------------------------------------------------------------------
  // Stores

  datatype Store =
    | DeviceReserved(d: nat, value: u64)
    | DeviceCommitted(d: nat, value: u64)
    | SlotReserved(p: nat, d: nat, value: u64)
    | SlotCommitted(p: nat, d: nat, value: u64)
    | SlotState(p: nat, state: u32)
    | SlotSince(p: nat, since: u64)
    | ClearSlot(p: nat)

  predicate Fits(r: Region, w: Store) {
    match w
    case DeviceReserved(d, _) => d < |r.devices|
    case DeviceCommitted(d, _) => d < |r.devices|
    case SlotReserved(p, d, _) => p < |r.slots| && d < |r.devices|
    case SlotCommitted(p, d, _) => p < |r.slots| && d < |r.devices|
    case SlotState(p, _) => p < |r.slots|
    case SlotSince(p, _) => p < |r.slots|
    case ClearSlot(p) => p < |r.slots|
  }

  /** Struct copy and memset count as one store. */
  function Write(r: Region, w: Store): (after: Region)
    requires Shaped(r)
    ensures Shaped(after) && |after.devices| == |r.devices| && |after.slots| == |r.slots|
  {
    if !Fits(r, w) then r
    else
      match w
      case DeviceReserved(d, v) => r.(devices := r.devices[d := r.devices[d].(reserved := v)])
      case DeviceCommitted(d, v) => r.(devices := r.devices[d := r.devices[d].(committed := v)])
      case SlotReserved(p, d, v) => r.(slots := r.slots[p := r.slots[p].(reserved := r.slots[p].reserved[d := v])])
      case SlotCommitted(p, d, v) => r.(slots := r.slots[p := r.slots[p].(committed := r.slots[p].committed[d := v])])
      case SlotState(p, state) => r.(slots := r.slots[p := r.slots[p].(state := state)])
      case SlotSince(p, since) => r.(slots := r.slots[p := r.slots[p].(orphanedSince := since)])
      case ClearSlot(p) => r.(slots := r.slots[p := EmptySlot(|r.devices|)])
  }

  function WriteAll(r: Region, writes: seq<Store>): (after: Region)
    requires Shaped(r)
    ensures Shaped(after) && |after.devices| == |r.devices| && |after.slots| == |r.slots|
    decreases |writes|
  {
    if writes == [] then r else WriteAll(Write(r, writes[0]), writes[1..])
  }

  // ---------------------------------------------------------------------------
  // Operations of a registered process

  /** What a process knows of its own registration. */
  datatype Owner = Owner(slot: nat, identity: Identity)

  predicate Owns(r: Region, o: Owner) {
    && o.slot < |r.slots|
    && r.slots[o.slot].state == ACTIVE
    && SlotIdentity(r.slots[o.slot]) == o.identity
  }

  function SlotIdentity(s: Slot): Identity {
    Identity(s.pid, s.start, s.generation)
  }

  function FindDevice(r: Region, id: int, from: nat): (found: Option<nat>)
    requires from <= |r.devices|
    ensures found.Some? ==>
              from <= found.value < |r.devices| && r.devices[found.value].state == ACTIVE
              && r.devices[found.value].id == id
    ensures found.None? ==>
              forall d | from <= d < |r.devices| :: !(r.devices[d].state == ACTIVE && r.devices[d].id == id)
    decreases |r.devices| - from
  {
    if from == |r.devices| then None
    else if r.devices[from].state == ACTIVE && r.devices[from].id == id then Some(from)
    else FindDevice(r, id, from + 1)
  }

  function FindFreeDevice(r: Region, from: nat): (found: Option<nat>)
    requires from <= |r.devices|
    ensures found.Some? ==> from <= found.value < |r.devices| && r.devices[found.value].state == FREE
    ensures found.None? ==> forall d | from <= d < |r.devices| :: r.devices[d].state != FREE
    decreases |r.devices| - from
  {
    if from == |r.devices| then None else if r.devices[from].state == FREE then Some(from)
      else FindFreeDevice(r, from + 1)
  }

  function FindFreeSlot(r: Region, from: nat): (found: Option<nat>)
    requires from <= |r.slots|
    ensures found.Some? ==> from <= found.value < |r.slots| && r.slots[found.value].state == FREE
    ensures found.None? ==> forall p | from <= p < |r.slots| :: r.slots[p].state != FREE
    decreases |r.slots| - from
  {
    if from == |r.slots| then None else if r.slots[from].state == FREE then Some(from) else FindFreeSlot(r, from + 1)
  }

  /** The device's record, created on first use. */
  function OpenDevice(r: Region, id: int, limit: u64): (Option<nat>, Region) {
    var known := FindDevice(r, id, 0);
    if known.Some? then (known, r)
    else
      var free := FindFreeDevice(r, 0);
      if free.None? then (None, r)
      else (free, r.(devices := r.devices[free.value := Device(ACTIVE, id, limit, 0, 0)]))
  }

  datatype RegisterResult =
    | Registered(slot: nat, generation: u64)
    | DeviceLimitMismatch
    | DeviceTableFull
    | ProcessTableFull

  function Register(r: Region, pid: int, start: u64, device: int, limit: u64): (RegisterResult, Region)
    requires Shaped(r)
  {
    var known := FindDevice(r, device, 0);
    if known.Some? && r.devices[known.value].limit != limit then (DeviceLimitMismatch, r)
    else
      var (slot, ready) := OpenDevice(r, device, limit);
      if slot.None? then (DeviceTableFull, r)
      else
        var free := FindFreeSlot(ready, 0);
        if free.None? then
          (ProcessTableFull, if known.Some? then r else r.(devices := r.devices[slot.value := EmptyDevice()]))
        else
          var generation: u64 := if r.generation == U64_MAX then 1 else r.generation + 1;
          (Registered(free.value, generation),
           ready.(generation := generation,
                  slots := r.slots[free.value :=
                    EmptySlot(|r.devices|).(state := ACTIVE, pid := pid, start := start, generation := generation)]))
  }

  /** A slot after the first k of the four fields that registration fills in a cleared slot. */
  function PartlyRegistered(devices: nat, pid: int, start: u64, generation: u64, k: nat): Slot {
    EmptySlot(devices).(state := if k >= 1 then ACTIVE else FREE, pid := if k >= 2 then pid else 0,
                        start := if k >= 3 then start else 0, generation := if k >= 4 then generation else 0)
  }

  /** The region if the process dies after the first k steps of its registration: the device's record, the
      generation counter, the cleared slot, and then the slot's fields one by one. */
  function RegisterPoint(r: Region, pid: int, start: u64, device: int, limit: u64, k: nat): Region
    requires Shaped(r)
  {
    var (outcome, after) := Register(r, pid, start, device, limit);
    var ready := OpenDevice(r, device, limit).1;
    if k == 0 || outcome.DeviceLimitMismatch? || outcome.DeviceTableFull? then r
    else if k == 1 then ready
    else if outcome.ProcessTableFull? then after
    else if k == 2 then ready.(generation := after.generation)
    else
      var slot := PartlyRegistered(|r.devices|, pid, start, outcome.generation, k - 3);
      ready.(generation := after.generation, slots := r.slots[outcome.slot := slot])
  }

  /** A reservation charges the device first, then the process. */
  function ReserveStores(r: Region, o: Owner, d: nat, bytes: u64): seq<Store>
    requires Shaped(r) && o.slot < |r.slots| && d < |r.devices|
    requires r.devices[d].reserved + bytes <= U64_MAX && r.slots[o.slot].reserved[d] + bytes <= U64_MAX
  {
    [DeviceReserved(d, r.devices[d].reserved + bytes), SlotReserved(o.slot, d, r.slots[o.slot].reserved[d] + bytes)]
  }

  predicate CanReserve(r: Region, o: Owner, d: nat, bytes: u64)
    requires Shaped(r) && o.slot < |r.slots| && d < |r.devices|
  {
    && r.devices[d].reserved + r.devices[d].committed + bytes <= U64_MAX
    && r.devices[d].reserved + r.devices[d].committed + bytes <= r.devices[d].limit
    && r.slots[o.slot].reserved[d] + bytes <= U64_MAX
  }

  /** Returns the device slot charged. */
  function ReserveBytes(r: Region, o: Owner, device: int, limit: u64, bytes: u64): (Option<nat>, Region)
    requires Shaped(r)
  {
    if device < 0 || !Owns(r, o) then (None, r)
    else
      var (d, ready) := OpenDevice(r, device, limit);
      if d.None? then (None, r)
      else if !CanReserve(ready, o, d.value, bytes) then (None, ready)
      else (d, WriteAll(ready, ReserveStores(ready, o, d.value, bytes)))
  }

  predicate CanCommit(r: Region, o: Owner, d: nat, bytes: u64)
    requires Shaped(r)
  {
    && Owns(r, o) && d < |r.devices| && r.devices[d].state == ACTIVE
    && bytes <= r.slots[o.slot].reserved[d] && bytes <= r.devices[d].reserved
    && r.devices[d].committed + bytes <= U64_MAX && r.slots[o.slot].committed[d] + bytes <= U64_MAX
  }

  /** A commit counts the bytes twice before it counts them once. */
  function CommitStores(r: Region, o: Owner, d: nat, bytes: u64): seq<Store>
    requires Shaped(r) && CanCommit(r, o, d, bytes)
  {
    [DeviceCommitted(d, r.devices[d].committed + bytes),
     SlotCommitted(o.slot, d, r.slots[o.slot].committed[d] + bytes),
     DeviceReserved(d, r.devices[d].reserved - bytes),
     SlotReserved(o.slot, d, r.slots[o.slot].reserved[d] - bytes)]
  }

  function CommitBytes(r: Region, o: Owner, d: nat, bytes: u64): (bool, Region)
    requires Shaped(r)
  {
    if CanCommit(r, o, d, bytes) then (true, WriteAll(r, CommitStores(r, o, d, bytes))) else (false, r)
  }

  predicate CanCancel(r: Region, o: Owner, d: nat, bytes: u64)
    requires Shaped(r)
  {
    && Owns(r, o) && d < |r.devices| && r.devices[d].state == ACTIVE
    && bytes <= r.slots[o.slot].reserved[d] && bytes <= r.devices[d].reserved
  }

  function CancelStores(r: Region, o: Owner, d: nat, bytes: u64): seq<Store>
    requires Shaped(r) && CanCancel(r, o, d, bytes)
  {
    [DeviceReserved(d, r.devices[d].reserved - bytes), SlotReserved(o.slot, d, r.slots[o.slot].reserved[d] - bytes)]
  }

  function CancelBytes(r: Region, o: Owner, d: nat, bytes: u64): (bool, Region)
    requires Shaped(r)
  {
    if CanCancel(r, o, d, bytes) then (true, WriteAll(r, CancelStores(r, o, d, bytes))) else (false, r)
  }

  predicate CanRelease(r: Region, o: Owner, d: nat, bytes: u64)
    requires Shaped(r)
  {
    && Owns(r, o) && d < |r.devices|
    && bytes <= r.devices[d].committed && bytes <= r.slots[o.slot].committed[d]
  }

  function ReleaseStores(r: Region, o: Owner, d: nat, bytes: u64): seq<Store>
    requires Shaped(r) && CanRelease(r, o, d, bytes)
  {
    [DeviceCommitted(d, r.devices[d].committed - bytes), SlotCommitted(o.slot, d, r.slots[o.slot].committed[d] - bytes)]
  }

  function ReleaseBytes(r: Region, o: Owner, device: int, bytes: u64): (bool, Region)
    requires Shaped(r)
  {
    var d := FindDevice(r, device, 0);
    if device >= 0 && d.Some? && CanRelease(r, o, d.value, bytes)
      then (true, WriteAll(r, ReleaseStores(r, o, d.value, bytes))) else (false, r)
  }

  /** A process that closes with bytes outstanding leaves an orphan without a mark. */
  function CloseStores(r: Region, o: Owner): seq<Store>
    requires Shaped(r) && o.slot < |r.slots|
  {
    if Unused(r.slots[o.slot]) then [ClearSlot(o.slot)] else [SlotState(o.slot, ORPHANED), SlotSince(o.slot, 0)]
  }

  function CloseSlot(r: Region, o: Owner): Region
    requires Shaped(r)
  {
    if Owns(r, o) then WriteAll(r, CloseStores(r, o)) else r
  }

  // ---------------------------------------------------------------------------
  // Reclaiming what dead processes held

  predicate Observed(identity: Identity) {
    identity.pid > 0 && identity.start != 0 && identity.generation != 0
  }

  predicate Reclaimable(r: Region, p: nat, identity: Identity)
    requires p < |r.slots|
  {
    && Observed(identity)
    && (r.slots[p].state == ACTIVE || r.slots[p].state == ORPHANED)
    && SlotIdentity(r.slots[p]) == identity
  }

  /** The devices can give back what the slot holds. */
  predicate Covered(r: Region, p: nat)
    requires Shaped(r) && p < |r.slots|
  {
    forall d | 0 <= d < |r.devices| ::
      if r.devices[d].state == ACTIVE
      then r.slots[p].reserved[d] <= r.devices[d].reserved && r.slots[p].committed[d] <= r.devices[d].committed
      else r.slots[p].reserved[d] == 0 && r.slots[p].committed[d] == 0
  }

  /** First phase, devices 0 .. n-1: reservations are returned at once. */
  function ReturnReservations(r: Region, p: nat, n: nat): seq<Store>
    requires Shaped(r) && p < |r.slots| && n <= |r.devices| && Covered(r, p)
  {
    if n == 0 then []
    else
      var d := n - 1;
      ReturnReservations(r, p, d)
      + if r.devices[d].state == ACTIVE
        then [DeviceReserved(d, r.devices[d].reserved - r.slots[p].reserved[d]), SlotReserved(p, d, 0)]
        else []
  }

  /** Second phase, devices 0 .. n-1: everything the slot still holds is returned. */
  function ReturnEverything(r: Region, p: nat, n: nat): seq<Store>
    requires Shaped(r) && p < |r.slots| && n <= |r.devices| && Covered(r, p)
  {
    if n == 0 then []
    else
      var d := n - 1;
      ReturnEverything(r, p, d)
      + if r.devices[d].state == ACTIVE
        then [DeviceReserved(d, r.devices[d].reserved - r.slots[p].reserved[d]),
              DeviceCommitted(d, r.devices[d].committed - r.slots[p].committed[d])]
        else []
  }

  predicate HoldsCommitted(s: Slot) {
    exists d | 0 <= d < |s.committed| :: s.committed[d] != 0
  }

  /** Committed bytes stay charged for a grace period after the mark. */
  predicate GraceOver(s: Slot, now: u64) {
    s.orphanedSince <= now && now - s.orphanedSince >= GRACE_MILLISECONDS
  }

  /** The slot becomes an orphan, then the time is noted. */
  function MarkStores(p: nat, now: u64): seq<Store> {
    [SlotState(p, ORPHANED), SlotSince(p, now)]
  }

  function ReclaimStores(r: Region, p: nat, now: u64): seq<Store>
    requires Shaped(r) && p < |r.slots| && Covered(r, p)
  {
    var s := r.slots[p];
    if s.orphanedSince == 0 then
      MarkStores(p, now) + ReturnReservations(r, p, |r.devices|) + (if HoldsCommitted(s) then [] else [ClearSlot(p)])
    else if GraceOver(s, now) then ReturnEverything(r, p, |r.devices|) + [ClearSlot(p)]
    else []
  }

  /** Whether the counters were usable, and the region after. */
  function ReclaimSlot(r: Region, p: nat, identity: Identity, now: u64): (res: (bool, Region))
    requires Shaped(r) && p < |r.slots|
    ensures Shaped(res.1) && |res.1.slots| == |r.slots| && |res.1.devices| == |r.devices|
  {
    if !Reclaimable(r, p, identity) then (true, r)
    else if !Covered(r, p) then (false, r)
    else (true, WriteAll(r, ReclaimStores(r, p, now)))
  }

  /** Slots 0 .. n-1 in turn. */
  function Reclaim(r: Region, dead: seq<Identity>, now: u64, n: nat): (res: (bool, Region))
    requires Shaped(r) && |dead| == |r.slots| && n <= |r.slots|
    ensures Shaped(res.1) && |res.1.slots| == |r.slots| && |res.1.devices| == |r.devices|
  {
    if n == 0 then (true, r)
    else
      var (ok, before) := Reclaim(r, dead, now, n - 1);
      var (good, after) := ReclaimSlot(before, n - 1, dead[n - 1], now);
      (ok && good, after)
  }

  /** The identities a recovering process copies under the lock. */
  function Snapshot(r: Region): (ids: seq<Identity>)
    ensures |ids| == |r.slots|
  {
    seq(|r.slots|, p requires 0 <= p < |r.slots| =>
      if r.slots[p].state == ACTIVE || r.slots[p].state == ORPHANED then SlotIdentity(r.slots[p]) else NOBODY)
  }
}
