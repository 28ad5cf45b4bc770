/** The shared region as its processes change it: arrays updated in place, one store at a time. */
module SharedRegionState {
  import opened Common
  import opened Sums
  import opened SharedQuotaModel
  import opened SharedQuotaCrash
  import opened SharedQuotaReclaim

  lemma {:induction false} SumGrows(m: nat, n: nat, f: nat -> nat)
    requires m <= n
    ensures Sum(m, f) <= Sum(n, f)
    decreases n
  {
    if m < n { SumGrows(m, n - 1, f); }
  }

  /** A process cannot hold more than its device, nor can the processes together. */
  lemma TooMuchHeld(r: Region, p: nat, d: nat)
    requires Shaped(r) && p < |r.slots| && d < |r.devices|
    requires r.slots[p].reserved[d] > r.devices[d].reserved || r.slots[p].committed[d] > r.devices[d].committed
             || Sum(p + 1, ReservedOn(r.slots, d)) > r.devices[d].reserved
             || Sum(p + 1, CommittedOn(r.slots, d)) > r.devices[d].committed
    ensures !Accounted(r)
  {
    var f, g := ReservedOn(r.slots, d), CommittedOn(r.slots, d);
    assert f(p) == r.slots[p].reserved[d] && g(p) == r.slots[p].committed[d];
    SumTerm(|r.slots|, p, f);
    SumTerm(|r.slots|, p, g);
    SumGrows(p + 1, |r.slots|, f);
    SumGrows(p + 1, |r.slots|, g);
  }

  lemma CommitInOrder(r: Region, o: Owner, d: nat, bytes: u64)
    requires Shaped(r) && CanCommit(r, o, d, bytes)
    ensures var w := CommitStores(r, o, d, bytes);
            WriteAll(r, w) == Write(Write(Write(Write(r, w[0]), w[1]), w[2]), w[3])
  {
    var w := CommitStores(r, o, d, bytes);
    hide CommitStores;
    assert w == [w[0], w[1]] + [w[2], w[3]];
    WriteAllJoins(r, [w[0], w[1]], [w[2], w[3]]);
    WriteTwo(r, w[0], w[1]);
    WriteTwo(WriteAll(r, [w[0], w[1]]), w[2], w[3]);
  }

  /** Device d's running totals after slots 0 .. p-1. */
  ghost predicate Totals(r: Region, p: nat, d: nat, reserved: u64, committed: u64)
    requires d < |r.devices|
  {
    && reserved == Sum(p, ReservedOn(r.slots, d)) && committed == Sum(p, CommittedOn(r.slots, d))
    && (r.devices[d].state != ACTIVE ==> reserved == 0 && committed == 0)
  }

  lemma TotalsUnused(r: Region, p: nat, d: nat, reserved: u64, committed: u64)
    requires Shaped(r) && p < |r.slots| && d < |r.devices| && Unused(r.slots[p]) && Totals(r, p, d, reserved, committed)
    ensures Totals(r, p + 1, d, reserved, committed)
  {
  }

  lemma TotalsAgree(r: Region, d: nat, reserved: u64, committed: u64)
    requires d < |r.devices| && DeviceOk(r.devices[d]) && Totals(r, |r.slots|, d, reserved, committed)
    ensures (r.devices[d].state == ACTIVE ==> reserved == r.devices[d].reserved && committed == r.devices[d].committed)
            <==> && r.devices[d].reserved == Sum(|r.slots|, ReservedOn(r.slots, d))
                 && r.devices[d].committed == Sum(|r.slots|, CommittedOn(r.slots, d))
  {
  }

  lemma NothingAdded(r: Region, d: nat)
    requires d < |r.devices|
    ensures Totals(r, 0, d, 0, 0)
  {
  }

  // Steps of the two reclaiming loops

  /** Devices d and above, and the slot's counters for them, are as they were. */
  ghost predicate Untouched(r: Region, cur: Region, p: nat, d: nat) {
    && |cur.devices| == |r.devices| && |cur.slots| == |r.slots| && p < |r.slots|
    && |cur.slots[p].reserved| == |r.slots[p].reserved|
    && cur.slots[p].committed == r.slots[p].committed
    && (forall e | d <= e < |r.devices| :: cur.devices[e] == r.devices[e])
    && (forall e | d <= e < |r.slots[p].reserved| :: cur.slots[p].reserved[e] == r.slots[p].reserved[e])
  }

  lemma UntouchedAt(r: Region, cur: Region, p: nat, d: nat)
    requires Shaped(r) && Shaped(cur) && Untouched(r, cur, p, d) && d < |r.devices| && p < |r.slots| && Covered(r, p)
    ensures cur.devices[d] == r.devices[d] && cur.slots[p].reserved[d] == r.slots[p].reserved[d]
    ensures cur.slots[p].committed == r.slots[p].committed
    ensures r.devices[d].state == ACTIVE ==>
              r.slots[p].reserved[d] <= r.devices[d].reserved && r.slots[p].committed[d] <= r.devices[d].committed
    ensures Untouched(r, cur, p, d + 1)
  {
  }

  lemma UntouchedNext(r: Region, cur: Region, p: nat, d: nat, x: u64)
    requires Shaped(r) && Shaped(cur) && Untouched(r, cur, p, d) && d < |r.devices|
    ensures Untouched(r, Write(Write(cur, DeviceReserved(d, x)), SlotReserved(p, d, 0)), p, d + 1)
  {
  }

  lemma UntouchedBoth(r: Region, cur: Region, p: nat, d: nat, x: u64, y: u64)
    requires Shaped(r) && Shaped(cur) && Untouched(r, cur, p, d) && d < |r.devices|
    ensures Untouched(r, Write(Write(cur, DeviceReserved(d, x)), DeviceCommitted(d, y)), p, d + 1)
  {
  }

  lemma ReturnNext(r: Region, p: nat, d: nat)
    requires Shaped(r) && p < |r.slots| && d < |r.devices| && Covered(r, p) && r.devices[d].state == ACTIVE
    ensures WriteAll(r, ReturnReservations(r, p, d + 1))
            == Write(Write(WriteAll(r, ReturnReservations(r, p, d)),
              DeviceReserved(d, r.devices[d].reserved - r.slots[p].reserved[d])),
                     SlotReserved(p, d, 0))
  {
    var a, b := DeviceReserved(d, r.devices[d].reserved - r.slots[p].reserved[d]), SlotReserved(p, d, 0);
    hide WriteAll;
    WriteAllJoins(r, ReturnReservations(r, p, d), [a, b]);
    WriteTwo(WriteAll(r, ReturnReservations(r, p, d)), a, b);
  }

  lemma ReturnSkip(r: Region, p: nat, d: nat)
    requires Shaped(r) && p < |r.slots| && d < |r.devices| && Covered(r, p) && r.devices[d].state != ACTIVE
    ensures ReturnReservations(r, p, d + 1) == ReturnReservations(r, p, d)
  {
  }

  lemma EverythingNext(r: Region, p: nat, d: nat)
    requires Shaped(r) && p < |r.slots| && d < |r.devices| && Covered(r, p) && r.devices[d].state == ACTIVE
    ensures WriteAll(r, ReturnEverything(r, p, d + 1))
            == Write(Write(WriteAll(r, ReturnEverything(r, p, d)),
              DeviceReserved(d, r.devices[d].reserved - r.slots[p].reserved[d])),
                     DeviceCommitted(d, r.devices[d].committed - r.slots[p].committed[d]))
  {
    var a := DeviceReserved(d, r.devices[d].reserved - r.slots[p].reserved[d]);
    var b := DeviceCommitted(d, r.devices[d].committed - r.slots[p].committed[d]);
    hide WriteAll;
    WriteAllJoins(r, ReturnEverything(r, p, d), [a, b]);
    WriteTwo(WriteAll(r, ReturnEverything(r, p, d)), a, b);
  }

  lemma EverythingSkip(r: Region, p: nat, d: nat)
    requires Shaped(r) && p < |r.slots| && d < |r.devices| && Covered(r, p) && r.devices[d].state != ACTIVE
    ensures ReturnEverything(r, p, d + 1) == ReturnEverything(r, p, d)
  {
  }

  /** Marking the slot does not change what it has to give back. */
  lemma {:induction false} MarkKeepsReturns(r: Region, marked: Region, p: nat, n: nat)
    requires Shaped(r) && p < |r.slots| && Covered(r, p) && n <= |r.devices|
    requires Shaped(marked) && marked.devices == r.devices && |marked.slots| == |r.slots|
    requires marked.slots[p].reserved == r.slots[p].reserved && marked.slots[p].committed == r.slots[p].committed
    ensures Covered(marked, p) && ReturnReservations(marked, p, n) == ReturnReservations(r, p, n)
    ensures HoldsCommitted(marked.slots[p]) == HoldsCommitted(r.slots[p])
  {
    if n > 0 { MarkKeepsReturns(r, marked, p, n - 1); }
  }

  lemma FirstPhaseInOrder(r: Region, marked: Region, p: nat, now: u64)
    requires Shaped(r) && p < |r.slots| && Covered(r, p) && r.slots[p].orphanedSince == 0
    requires marked == WriteAll(r, MarkStores(p, now))
    ensures var cur := WriteAll(marked, ReturnReservations(r, p, |r.devices|));
            WriteAll(r, ReclaimStores(r, p, now))
              == if HoldsCommitted(r.slots[p]) then cur else Write(cur, ClearSlot(p))
  {
    hide WriteAll, Covered, MarkStores, ReturnReservations, HoldsCommitted;
    var w := ReturnReservations(r, p, |r.devices|);
    WriteAllJoins(r, MarkStores(p, now), w);
    WriteAllJoins(r, MarkStores(p, now) + w, [ClearSlot(p)]);
    WriteTwo(WriteAll(marked, w), ClearSlot(p), ClearSlot(p));
    assert MarkStores(p, now) + w + [] == MarkStores(p, now) + w;
  }

  class SharedRegion {
    const devices: array<Device>
    const slots: array<Slot>
    var generation: u64

    ghost function Value(): Region
      reads this, devices, slots
    {
      Region(generation, devices[..], slots[..])
    }

    /** Every slot has a counter for every device. */
    ghost predicate Valid()
      reads this, devices, slots
    {
      Shaped(Value())
    }

    constructor ()
      ensures Valid() && fresh(devices) && fresh(slots)
      ensures Value() == FreshRegion() && Accounted(Value())
    {
      devices := new Device[MAX_DEVICES](_ => EmptyDevice());
      slots := new Slot[MAX_PROCESS_SLOTS](_ => EmptySlot(MAX_DEVICES));
      generation := 1;
      new;
      hide Accounted;
      FreshAccounted();
    }

    // -------------------------------------------------------------------------
    // Checking the books

    method CheckDevices() returns (ok: bool)
      ensures ok <==> forall d | 0 <= d < devices.Length :: DeviceOk(devices[d])
    {
      for d := 0 to devices.Length
        invariant forall e | 0 <= e < d :: DeviceOk(devices[e])
      {
        var device := devices[d];
        if device.state == FREE {
          if device.reserved != 0 || device.committed != 0 { return false; }
        } else {
          if device.state != ACTIVE { return false; }
          if device.committed > U64_MAX - device.reserved || device.reserved + device.committed > device.limit {
            return false;
          }
        }
      }
      ok := true;
    }

    method IsUnused(p: nat) returns (unused: bool)
      requires Valid() && p < slots.Length
      ensures unused <==> Unused(slots[p])
    {
      var s := slots[p];
      for d := 0 to devices.Length
        invariant forall e | 0 <= e < d :: s.reserved[e] == 0 && s.committed[e] == 0
      {
        if s.reserved[d] != 0 || s.committed[d] != 0 { return false; }
      }
      unused := true;
    }

    /** The slot's counters are added to the totals, unless that already shows the books are wrong. */
    method AddSlot(p: nat, reserved: array<u64>, committed: array<u64>) returns (ok: bool)
      requires Valid() && p < slots.Length && reserved != committed
      requires reserved.Length == committed.Length == devices.Length
      requires forall d | 0 <= d < devices.Length :: DeviceOk(devices[d])
      requires forall d | 0 <= d < devices.Length :: Totals(Value(), p, d, reserved[d], committed[d])
      modifies reserved, committed
      ensures ok ==> forall d | 0 <= d < devices.Length :: Totals(Value(), p + 1, d, reserved[d], committed[d])
      ensures !ok ==> !Accounted(Value())
    {
      ghost var r := Value();
      hide Accounted;
      for d := 0 to devices.Length
        invariant Value() == r
        invariant forall e | 0 <= e < d :: Totals(r, p + 1, e, reserved[e], committed[e])
        invariant forall e | d <= e < devices.Length :: Totals(r, p, e, reserved[e], committed[e])
      {
        var device, s := devices[d], slots[p];
        assert DeviceOk(r.devices[d]) && Totals(r, p, d, reserved[d], committed[d]);
        ghost var f, g := ReservedOn(r.slots, d), CommittedOn(r.slots, d);
        assert f(p) == s.reserved[d] && g(p) == s.committed[d];
        if device.state != ACTIVE {
          if s.reserved[d] != 0 || s.committed[d] != 0 {
            TooMuchHeld(r, p, d);
            return false;
          }
        } else {
          if s.reserved[d] > device.reserved || s.committed[d] > device.committed {
            TooMuchHeld(r, p, d);
            return false;
          }
          if s.reserved[d] > U64_MAX - reserved[d] || s.committed[d] > U64_MAX - committed[d] {
            TooMuchHeld(r, p, d);
            return false;
          }
          reserved[d] := reserved[d] + s.reserved[d];
          committed[d] := committed[d] + s.committed[d];
        }
      }
      ok := true;
    }

    method CheckSlots(reserved: array<u64>, committed: array<u64>) returns (ok: bool)
      requires Valid() && reserved != committed && reserved.Length == committed.Length == devices.Length
      requires forall d | 0 <= d < devices.Length :: DeviceOk(devices[d])
      requires forall d | 0 <= d < devices.Length :: reserved[d] == 0 && committed[d] == 0
      modifies reserved, committed
      ensures ok ==> forall p | 0 <= p < slots.Length :: SlotOk(slots[p])
      ensures ok ==> forall d | 0 <= d < devices.Length :: Totals(Value(), slots.Length, d, reserved[d], committed[d])
      ensures !ok ==> !Accounted(Value())
    {
      ghost var r := Value();
      forall d | 0 <= d < devices.Length ensures Totals(r, 0, d, 0, 0) {
        NothingAdded(r, d);
      }
      hide Totals;
      for p := 0 to slots.Length
        invariant Value() == r
        invariant forall q | 0 <= q < p :: SlotOk(r.slots[q])
        invariant forall d | 0 <= d < devices.Length :: Totals(r, p, d, reserved[d], committed[d])
      {
        var s := slots[p];
        assert s == r.slots[p];
        if s.state == FREE {
          var unused := IsUnused(p);
          if !unused { return false; }
          forall d | 0 <= d < devices.Length ensures Totals(r, p + 1, d, reserved[d], committed[d]) {
            TotalsUnused(r, p, d, reserved[d], committed[d]);
          }
        } else if (s.state != ACTIVE && s.state != ORPHANED) || (s.state == ACTIVE && s.orphanedSince != 0)
               || s.pid <= 0 || s.start == 0 || s.generation == 0 {
          return false;
        } else {
          var fits := AddSlot(p, reserved, committed);
          if !fits { return false; }
        }
      }
      ok := true;
    }

    /** The check that every locked section begins with decides exactly whether the books are right,
        although its own sums are of machine width. */
    method CheckAccounting() returns (ok: bool)
      requires Valid()
      ensures ok <==> Accounted(Value())
    {
      ghost var r := Value();
      var sound := CheckDevices();
      if !sound {
        assert exists d | 0 <= d < |r.devices| :: !DeviceOk(r.devices[d]);
        return false;
      }
      var reserved := new u64[devices.Length](_ => 0);
      var committed := new u64[devices.Length](_ => 0);
      sound := CheckSlots(reserved, committed);
      assert Value() == r;
      if !sound { return false; }
      hide Totals, DeviceOk, SlotOk;
      for d := 0 to devices.Length
        invariant forall e | 0 <= e < devices.Length :: Totals(r, |r.slots|, e, reserved[e], committed[e])
        invariant forall e | 0 <= e < d ::
                    && r.devices[e].reserved == Sum(|r.slots|, ReservedOn(r.slots, e))
                    && r.devices[e].committed == Sum(|r.slots|, CommittedOn(r.slots, e))
      {
        TotalsAgree(r, d, reserved[d], committed[d]);
        if devices[d].state == ACTIVE && (reserved[d] != devices[d].reserved || committed[d] != devices[d].committed) {
          return false;
        }
      }
      ok := true;
    }

    // -------------------------------------------------------------------------
    // Single stores

    method SetDeviceReserved(d: nat, value: u64)
      requires Valid() && d < devices.Length
      modifies devices
      ensures Valid() && Value() == Write(old(Value()), DeviceReserved(d, value))
    {
      devices[d] := devices[d].(reserved := value);
    }

    method SetDeviceCommitted(d: nat, value: u64)
      requires Valid() && d < devices.Length
      modifies devices
      ensures Valid() && Value() == Write(old(Value()), DeviceCommitted(d, value))
    {
      devices[d] := devices[d].(committed := value);
    }

    method SetSlotReserved(p: nat, d: nat, value: u64)
      requires Valid() && p < slots.Length && d < devices.Length
      modifies slots
      ensures Valid() && Value() == Write(old(Value()), SlotReserved(p, d, value))
    {
      slots[p] := slots[p].(reserved := slots[p].reserved[d := value]);
    }

    method SetSlotCommitted(p: nat, d: nat, value: u64)
      requires Valid() && p < slots.Length && d < devices.Length
      modifies slots
      ensures Valid() && Value() == Write(old(Value()), SlotCommitted(p, d, value))
    {
      slots[p] := slots[p].(committed := slots[p].committed[d := value]);
    }

    method SetState(p: nat, state: u32)
      requires Valid() && p < slots.Length
      modifies slots
      ensures Valid() && Value() == Write(old(Value()), SlotState(p, state))
    {
      slots[p] := slots[p].(state := state);
    }

    method SetSince(p: nat, since: u64)
      requires Valid() && p < slots.Length
      modifies slots
      ensures Valid() && Value() == Write(old(Value()), SlotSince(p, since))
    {
      slots[p] := slots[p].(orphanedSince := since);
    }

    method ClearProcessSlot(p: nat)
      requires Valid() && p < slots.Length
      modifies slots
      ensures Valid() && Value() == Write(old(Value()), ClearSlot(p))
    {
      slots[p] := EmptySlot(devices.Length);
    }

    // -------------------------------------------------------------------------
    // Searching

    method FindDeviceSlot(id: int) returns (found: Option<nat>)
      ensures found == FindDevice(Value(), id, 0)
    {
      for d := 0 to devices.Length
        invariant FindDevice(Value(), id, 0) == FindDevice(Value(), id, d)
      {
        if devices[d].state == ACTIVE && devices[d].id == id { return Some(d); }
      }
      found := None;
    }

    method FindFreeDeviceSlot() returns (found: Option<nat>)
      ensures found == FindFreeDevice(Value(), 0)
    {
      for d := 0 to devices.Length
        invariant FindFreeDevice(Value(), 0) == FindFreeDevice(Value(), d)
      {
        if devices[d].state == FREE { return Some(d); }
      }
      found := None;
    }

    method FindFreeProcessSlot() returns (found: Option<nat>)
      ensures found == FindFreeSlot(Value(), 0)
    {
      for p := 0 to slots.Length
        invariant FindFreeSlot(Value(), 0) == FindFreeSlot(Value(), p)
      {
        if slots[p].state == FREE { return Some(p); }
      }
      found := None;
    }

    /** The device's record, created on first use. */
    method OpenDeviceSlot(id: int, limit: u64) returns (found: Option<nat>)
      requires Valid()
      modifies devices
      ensures Valid() && (found, Value()) == OpenDevice(old(Value()), id, limit)
    {
      found := FindDeviceSlot(id);
      if found.None? {
        found := FindFreeDeviceSlot();
        if found.Some? {
          devices[found.value] := Device(ACTIVE, id, limit, 0, 0);
        }
      }
    }

    method IsOwner(o: Owner) returns (owner: bool)
      ensures owner <==> Owns(Value(), o)
    {
      owner := o.slot < slots.Length && slots[o.slot].state == ACTIVE && slots[o.slot].pid == o.identity.pid
               && slots[o.slot].start == o.identity.start && slots[o.slot].generation == o.identity.generation;
    }

    // -------------------------------------------------------------------------
    // Locked sections. Each begins with the check and, if the books are wrong, changes nothing.

    method RegisterProcess(pid: int, start: u64, device: int, limit: u64) returns (result: Option<RegisterResult>)
      requires Valid()
      modifies this, devices, slots
      ensures Valid()
      ensures if Accounted(old(Value())) then (result, Value())
              == (Some(Register(old(Value()), pid, start, device, limit).0),
                                                                    Register(old(Value()), pid, start, device, limit).1)
              else result.None? && Value() == old(Value())
    {
      hide Accounted, FindDevice, FindFreeDevice, FindFreeSlot;
      ghost var r := Value();
      var sound := CheckAccounting();
      if !sound { return None; }
      var known := FindDeviceSlot(device);
      if known.Some? && devices[known.value].limit != limit { return Some(DeviceLimitMismatch); }
      var d := OpenDeviceSlot(device, limit);
      if d.None? { return Some(DeviceTableFull); }
      var p := FindFreeProcessSlot();
      if p.None? {
        if known.None? {
          devices[d.value] := EmptyDevice();
        }
        assert Value() == Register(r, pid, start, device, limit).1;
        return Some(ProcessTableFull);
      }
      generation := if generation == U64_MAX then 1 else generation + 1;
      slots[p.value] := EmptySlot(devices.Length).(state := ACTIVE, pid := pid, start := start,
        generation := generation);
      result := Some(Registered(p.value, generation));
    }

    method Reserve(o: Owner, device: int, limit: u64, bytes: u64) returns (d: Option<nat>)
      requires Valid()
      modifies devices, slots
      ensures Valid()
      ensures (d, Value()) == if Accounted(old(Value())) then ReserveBytes(old(Value()), o, device, limit, bytes)
              else (None, old(Value()))
    {
      hide Accounted, WriteAll, Write, FindDevice, FindFreeDevice;
      if device < 0 { return None; }
      var sound := CheckAccounting();
      if !sound { return None; }
      var owner := IsOwner(o);
      if !owner { return None; }
      d := OpenDeviceSlot(device, limit);
      if d.None? { return; }
      ghost var r := Value();
      var record, held := devices[d.value], slots[o.slot].reserved[d.value];
      if record.committed > U64_MAX - record.reserved || bytes > U64_MAX - (record.reserved + record.committed)
         || record.reserved + record.committed + bytes > record.limit || bytes > U64_MAX - held {
        return None;
      }
      WriteTwo(r, ReserveStores(r, o, d.value, bytes)[0], ReserveStores(r, o, d.value, bytes)[1]);
      SetDeviceReserved(d.value, record.reserved + bytes);
      SetSlotReserved(o.slot, d.value, held + bytes);
    }

    method Commit(o: Owner, d: nat, bytes: u64) returns (ok: bool)
      requires Valid()
      modifies devices, slots
      ensures Valid()
      ensures (ok, Value()) == if Accounted(old(Value())) then CommitBytes(old(Value()), o, d, bytes)
              else (false, old(Value()))
    {
      hide Accounted, WriteAll, Write, FindDevice;
      var sound := CheckAccounting();
      if !sound { return false; }
      var owner := IsOwner(o);
      if !owner || d >= devices.Length { return false; }
      ghost var r := Value();
      var device, s := devices[d], slots[o.slot];
      if device.state != ACTIVE || s.reserved[d] < bytes || device.reserved < bytes
         || bytes > U64_MAX - device.committed || bytes > U64_MAX - s.committed[d] {
        return false;
      }
      MoveReserved(o, d, bytes);
      ok := true;
    }

    /** The bytes are added on both sides before they are taken off. */
    method MoveReserved(o: Owner, d: nat, bytes: u64)
      requires Valid() && CanCommit(Value(), o, d, bytes)
      modifies devices, slots
      ensures Valid() && Value() == WriteAll(old(Value()), CommitStores(old(Value()), o, d, bytes))
    {
      ghost var r := Value();
      var device, s := devices[d], slots[o.slot];
      CommitInOrder(r, o, d, bytes);
      hide WriteAll, Write, Owns;
      SetDeviceCommitted(d, device.committed + bytes);
      SetSlotCommitted(o.slot, d, s.committed[d] + bytes);
      SetDeviceReserved(d, device.reserved - bytes);
      SetSlotReserved(o.slot, d, s.reserved[d] - bytes);
    }

    method Cancel(o: Owner, d: nat, bytes: u64) returns (ok: bool)
      requires Valid()
      modifies devices, slots
      ensures Valid()
      ensures (ok, Value()) == if Accounted(old(Value())) then CancelBytes(old(Value()), o, d, bytes)
              else (false, old(Value()))
    {
      hide Accounted, WriteAll, Write, FindDevice;
      var sound := CheckAccounting();
      if !sound { return false; }
      var owner := IsOwner(o);
      if !owner || d >= devices.Length { return false; }
      ghost var r := Value();
      var device, held := devices[d], slots[o.slot].reserved[d];
      if device.state != ACTIVE || held < bytes || device.reserved < bytes { return false; }
      WriteTwo(r, CancelStores(r, o, d, bytes)[0], CancelStores(r, o, d, bytes)[1]);
      SetDeviceReserved(d, device.reserved - bytes);
      SetSlotReserved(o.slot, d, held - bytes);
      ok := true;
    }

    method Release(o: Owner, device: int, bytes: u64) returns (ok: bool)
      requires Valid()
      modifies devices, slots
      ensures Valid()
      ensures (ok, Value()) == if Accounted(old(Value())) then ReleaseBytes(old(Value()), o, device, bytes)
              else (false, old(Value()))
    {
      hide Accounted, WriteAll, Write, FindDevice;
      var sound := CheckAccounting();
      if device < 0 || !sound { return false; }
      var d := FindDeviceSlot(device);
      var owner := IsOwner(o);
      if d.None? || !owner { return false; }
      ghost var r := Value();
      var record, held := devices[d.value], slots[o.slot].committed[d.value];
      if record.committed < bytes || held < bytes { return false; }
      WriteTwo(r, ReleaseStores(r, o, d.value, bytes)[0], ReleaseStores(r, o, d.value, bytes)[1]);
      SetDeviceCommitted(d.value, record.committed - bytes);
      SetSlotCommitted(o.slot, d.value, held - bytes);
      ok := true;
    }

    method Close(o: Owner)
      requires Valid()
      modifies slots
      ensures Valid() && Value() == if Accounted(old(Value())) then CloseSlot(old(Value()), o) else old(Value())
    {
      hide Accounted, WriteAll, Write;
      var sound := CheckAccounting();
      if !sound { return; }
      var owner := IsOwner(o);
      if !owner { return; }
      ghost var w := CloseStores(Value(), o);
      WriteTwo(Value(), w[0], w[|w| - 1]);
      var unused := IsUnused(o.slot);
      if unused {
        ClearProcessSlot(o.slot);
      } else {
        SetState(o.slot, ORPHANED);
        SetSince(o.slot, 0);
      }
    }

    // -------------------------------------------------------------------------
    // Recovery

    /** The identities to be judged without the lock. */
    method SnapshotProcesses() returns (ids: seq<Identity>)
      ensures ids == Snapshot(Value())
    {
      ids := [];
      for p := 0 to slots.Length
        invariant ids == Snapshot(Value())[..p]
      {
        var s := slots[p];
        ids := ids + [if s.state == ACTIVE || s.state == ORPHANED then Identity(s.pid, s.start, s.generation)
          else NOBODY];
      }
    }

    method CheckCovered(p: nat) returns (covered: bool)
      requires Valid() && p < slots.Length
      ensures covered <==> Covered(Value(), p)
    {
      covered := true;
      for d := 0 to devices.Length
        invariant covered <==> forall e | 0 <= e < d ::
                    if devices[e].state == ACTIVE
                    then slots[p].reserved[e] <= devices[e].reserved && slots[p].committed[e] <= devices[e].committed
                    else slots[p].reserved[e] == 0 && slots[p].committed[e] == 0
      {
        var device, s := devices[d], slots[p];
        if device.state == ACTIVE {
          if device.reserved < s.reserved[d] || device.committed < s.committed[d] {
            return false;
          }
        } else if s.reserved[d] != 0 || s.committed[d] != 0 {
          covered := false;
        }
      }
    }

    method HasCommitted(p: nat) returns (found: bool)
      requires Valid() && p < slots.Length
      ensures found <==> HoldsCommitted(slots[p])
    {
      found := false;
      for d := 0 to devices.Length
        invariant found <==> exists e | 0 <= e < d :: slots[p].committed[e] != 0
      {
        found := found || slots[p].committed[d] != 0;
      }
    }

    /** First phase: the reservations of an orphan go back to their devices. */
    method ReturnAllReservations(p: nat)
      requires Valid() && p < slots.Length && Covered(Value(), p)
      modifies devices, slots
      ensures Valid() && Value() == WriteAll(old(Value()), ReturnReservations(old(Value()), p, devices.Length))
      ensures slots[p].committed == old(slots[p].committed)
    {
      ghost var r := Value();
      WriteTwo(r, ClearSlot(p), ClearSlot(p));
      hide Covered, WriteAll;
      for d := 0 to devices.Length
        invariant Valid() && Value() == WriteAll(r, ReturnReservations(r, p, d))
        invariant Untouched(r, Value(), p, d)
      {
        UntouchedAt(r, Value(), p, d);
        var device := devices[d];
        if device.state == ACTIVE {
          ReturnNext(r, p, d);
          var rest := device.reserved - slots[p].reserved[d];
          UntouchedNext(r, Value(), p, d, rest);
          SetDeviceReserved(d, rest);
          SetSlotReserved(p, d, 0);
        } else {
          ReturnSkip(r, p, d);
        }
      }
    }

    /** Second phase: everything goes back. */
    method ReturnAll(p: nat)
      requires Valid() && p < slots.Length && Covered(Value(), p)
      modifies devices
      ensures Valid() && Value() == WriteAll(old(Value()), ReturnEverything(old(Value()), p, devices.Length))
    {
      ghost var r := Value();
      WriteTwo(r, ClearSlot(p), ClearSlot(p));
      hide Covered, WriteAll;
      for d := 0 to devices.Length
        invariant Valid() && Value() == WriteAll(r, ReturnEverything(r, p, d))
        invariant Untouched(r, Value(), p, d)
      {
        UntouchedAt(r, Value(), p, d);
        var device, s := devices[d], slots[p];
        if device.state == ACTIVE {
          EverythingNext(r, p, d);
          UntouchedBoth(r, Value(), p, d, device.reserved - s.reserved[d], device.committed - s.committed[d]);
          SetDeviceReserved(d, device.reserved - s.reserved[d]);
          SetDeviceCommitted(d, device.committed - s.committed[d]);
        } else {
          EverythingSkip(r, p, d);
        }
      }
    }

    method ReclaimProcess(p: nat, identity: Identity, now: u64) returns (ok: bool)
      requires Valid() && p < slots.Length
      modifies devices, slots
      ensures Valid() && (ok, Value()) == ReclaimSlot(old(Value()), p, identity, now)
    {
      ghost var r := Value();
      var s := slots[p];
      if identity.pid <= 0 || identity.start == 0 || identity.generation == 0 { return true; }
      if (s.state != ACTIVE && s.state != ORPHANED) || s.pid != identity.pid || s.start != identity.start
         || s.generation != identity.generation {
        return true;
      }
      var covered := CheckCovered(p);
      if !covered { return false; }
      ok := true;
      if s.orphanedSince == 0 {
        MarkAndReturn(p, now);
        return;
      }
      if now < s.orphanedSince || now - s.orphanedSince < GRACE_MILLISECONDS {
        WriteTwo(r, ClearSlot(p), ClearSlot(p));
        return;
      }
      ReturnAll(p);
      ClearProcessSlot(p);
      ghost var w := ReturnEverything(r, p, |r.devices|);
      WriteAllJoins(r, w, [ClearSlot(p)]);
      WriteTwo(WriteAll(r, w), ClearSlot(p), ClearSlot(p));
    }

    method MarkAndReturn(p: nat, now: u64)
      requires Valid() && p < slots.Length && Covered(Value(), p) && slots[p].orphanedSince == 0
      modifies devices, slots
      ensures Valid() && Value() == WriteAll(old(Value()), ReclaimStores(old(Value()), p, now))
    {
      ghost var r := Value();
      SetState(p, ORPHANED);
      SetSince(p, now);
      WriteTwo(r, MarkStores(p, now)[0], MarkStores(p, now)[1]);
      ghost var marked := Value();
      MarkKeepsReturns(r, marked, p, devices.Length);
      hide WriteAll, Covered, ReturnReservations;
      ReturnAllReservations(p);
      var found := HasCommitted(p);
      assert found == HoldsCommitted(r.slots[p]);
      if !found {
        ClearProcessSlot(p);
      }
      FirstPhaseInOrder(r, marked, p, now);
    }

    /** One pass over all slots; the result says whether every dead process's counters were usable. */
    method ReclaimDeadProcesses(dead: seq<Identity>, now: u64) returns (ok: bool)
      requires Valid() && |dead| == slots.Length
      modifies devices, slots
      ensures Valid() && (ok, Value()) == Reclaim(old(Value()), dead, now, slots.Length)
    {
      ghost var r := Value();
      hide ReclaimSlot;
      ok := true;
      for p := 0 to slots.Length
        invariant Valid() && (ok, Value()) == Reclaim(r, dead, now, p)
      {
        var good := ReclaimProcess(p, dead[p], now);
        ok := ok && good;
      }
    }

    /** A locked section that finds the books right can always give back what the dead held, and leaves them right. */
    method Recover(dead: seq<Identity>, now: u64) returns (ok: bool)
      requires Valid() && |dead| == slots.Length
      modifies devices, slots
      ensures Valid() && (ok <==> Accounted(old(Value())))
      ensures if ok then Accounted(Value()) && Value() == Reclaim(old(Value()), dead, now, slots.Length).1
              else Value() == old(Value())
    {
      var sound := CheckAccounting();
      if !sound { return false; }
      ReclaimKeeps(Value(), dead, now, slots.Length);
      hide Accounted, Reclaim;
      ok := ReclaimDeadProcesses(dead, now);
    }
  }
}
