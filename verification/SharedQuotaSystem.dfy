/** Many processes on one region: every interleaving of their locked sections, their deaths at any store,
    and recoveries that look at the region, judge it without the lock, and come back. */
module SharedQuotaSystem {
  import opened Common
  import opened SharedQuotaModel
  import opened SharedQuotaCrash
  import opened SharedQuotaReclaim

  datatype Proc = Proc(pid: int, start: u64)

  /** A recovery in progress: identities copied, then those found dead. */
  datatype Recovery = Idle | Copied(ids: seq<Identity>) | Judged(dead: seq<Identity>)

  /** `gone` only grows: a process id together with its start time never names a second process. */
  datatype World = World(region: Region, gone: set<Proc>, recoveries: map<nat, Recovery>, clock: u64)

  datatype Event =
    | RegisterEvent(pid: int, start: u64, device: int, limit: u64)
    | RegisterCrashEvent(pid: int, start: u64, device: int, limit: u64, k: nat)
    | ReserveEvent(owner: Owner, device: int, limit: u64, bytes: u64)
    | CommitEvent(owner: Owner, d: nat, bytes: u64)
    | CancelEvent(owner: Owner, d: nat, bytes: u64)
    | ReleaseEvent(owner: Owner, device: int, bytes: u64)
    | CloseEvent(owner: Owner)
    | DieEvent(proc: Proc)
    | CrashEvent(owner: Owner, op: Op, k: nat)
    | CopyEvent(who: nat)
    | JudgeEvent(who: nat, verdicts: seq<bool>)
    | ReclaimEvent(who: nat, now: u64)
    | ReclaimCrashEvent(who: nat, now: u64, n: nat, k: nat)

  function ProcOf(i: Identity): Proc {
    Proc(i.pid, i.start)
  }

  /** A process is found dead only if it is. */
  function Judge(ids: seq<Identity>, verdicts: seq<bool>, gone: set<Proc>): (dead: seq<Identity>)
    ensures |dead| == |ids|
    ensures forall p | 0 <= p < |ids| ::
              dead[p] == NOBODY || (dead[p] == ids[p] && Observed(ids[p]) && ProcOf(ids[p]) in gone)
  {
    seq(|ids|, p requires 0 <= p < |ids| =>
      if p < |verdicts| && verdicts[p] && Observed(ids[p]) && ProcOf(ids[p]) in gone then ids[p] else NOBODY)
  }

  function RecoveryOf(w: World, who: nat): Recovery {
    if who in w.recoveries then w.recoveries[who] else Idle
  }

  /** The region a recovering process leaves when it dies while reclaiming slot n. */
  function CrashedReclaim(r: Region, dead: seq<Identity>, now: u64, n: nat, k: nat): Region
    requires Shaped(r) && |dead| == |r.slots| && n < |r.slots|
  {
    var before := Reclaim(r, dead, now, n).1;
    if !Reclaimable(before, n, dead[n]) || !Covered(before, n) || k > |ReclaimStores(before, n, now)| then before
    else WriteAll(before, ReclaimStores(before, n, now)[..k])
  }

  /** Taking the lock checks the books first; a region that fails the check is never touched again. */
  ghost function Next(w: World, e: Event): World {
    if e.DieEvent? then w.(gone := w.gone + {e.proc})
    else if e.JudgeEvent? then
      match RecoveryOf(w, e.who)
      case Copied(ids) => w.(recoveries := w.recoveries[e.who := Judged(Judge(ids, e.verdicts, w.gone))])
      case _ => w
    else if !Accounted(w.region) then w
    else if e.RegisterEvent? || e.RegisterCrashEvent? then
      if e.pid <= 0 || e.start == 0 || Proc(e.pid, e.start) in w.gone then w
      else if e.RegisterEvent? then w.(region := Register(w.region, e.pid, e.start, e.device, e.limit).1)
      else
        w.(region := RegisterPoint(w.region, e.pid, e.start, e.device, e.limit, e.k),
          gone := w.gone + {Proc(e.pid, e.start)})
    else if e.CopyEvent? then w.(recoveries := w.recoveries[e.who := Copied(Snapshot(w.region))])
    else if e.ReclaimEvent? || e.ReclaimCrashEvent? then
      match RecoveryOf(w, e.who)
      case Judged(dead) =>
        if |dead| != |w.region.slots| || e.now < w.clock || (e.ReclaimCrashEvent? && e.n >= |dead|) then w
        else
          World(if e.ReclaimEvent? then Reclaim(w.region, dead, e.now, |dead|).1
            else CrashedReclaim(w.region, dead, e.now, e.n, e.k),
                w.gone, w.recoveries[e.who := Idle], e.now)
      case _ => w
    else if ProcOf(e.owner.identity) in w.gone then w
    else
      match e
      case ReserveEvent(o, device, limit, bytes) => w.(region := ReserveBytes(w.region, o, device, limit, bytes).1)
      case CommitEvent(o, d, bytes) => w.(region := CommitBytes(w.region, o, d, bytes).1)
      case CancelEvent(o, d, bytes) => w.(region := CancelBytes(w.region, o, d, bytes).1)
      case ReleaseEvent(o, device, bytes) => w.(region := ReleaseBytes(w.region, o, device, bytes).1)
      case CloseEvent(o) => w.(region := CloseSlot(w.region, o))
      case CrashEvent(o, op, k) =>
        if Enabled(w.region, o, op) && k <= |StoresOf(w.region, o, op)|
        then w.(region := CrashPoint(w.region, o, op, k), gone := w.gone + {ProcOf(o.identity)})
        else w
  }

  predicate Crashes(e: Event) {
    e.RegisterCrashEvent? || e.CrashEvent? || e.ReclaimCrashEvent?
  }

  // ---------------------------------------------------------------------------
  // The books stay right

  /** Activating an unused device record changes no sum. */
  lemma OpenDeviceKeeps(r: Region, id: int, limit: u64)
    requires Accounted(r)
    ensures var (d, ready) := OpenDevice(r, id, limit);
            && Accounted(ready) && ready.slots == r.slots && ready.generation == r.generation
            && |ready.devices| == |r.devices|
            && (d.Some? ==> d.value < |r.devices| && ready.devices[d.value].state == ACTIVE)
  {
    var (d, ready) := OpenDevice(r, id, limit);
    if d.Some? {
      forall e | 0 <= e < |r.devices|
        ensures DeviceOk(ready.devices[e])
        ensures ready.devices[e].reserved == r.devices[e].reserved
                && ready.devices[e].committed == r.devices[e].committed
      {
        assert DeviceOk(r.devices[e]);
      }
    }
  }

  lemma ReserveKeeps(r: Region, o: Owner, device: int, limit: u64, bytes: u64)
    requires Accounted(r)
    ensures Accounted(ReserveBytes(r, o, device, limit, bytes).1)
  {
    if Owns(r, o) {
      var (d, ready) := OpenDevice(r, device, limit);
      OpenDeviceKeeps(r, device, limit);
      hide Accounted;
      if d.Some? && CanReserve(ready, o, d.value, bytes) {
        OpKeeps(ready, o, ReserveOp(d.value, bytes));
      }
    }
  }

  lemma ReleaseKeeps(r: Region, o: Owner, device: int, bytes: u64)
    requires Accounted(r)
    ensures Accounted(ReleaseBytes(r, o, device, bytes).1)
  {
    var d := FindDevice(r, device, 0);
    if d.Some? && CanRelease(r, o, d.value, bytes) {
      OpKeeps(r, o, ReleaseOp(d.value, bytes));
    }
  }

  lemma RegisterKeeps(r: Region, pid: int, start: u64, device: int, limit: u64)
    requires Accounted(r) && pid > 0 && start != 0
    ensures Accounted(Register(r, pid, start, device, limit).1)
  {
    var (outcome, after) := Register(r, pid, start, device, limit);
    var (d, ready) := OpenDevice(r, device, limit);
    OpenDeviceKeeps(r, device, limit);
    if outcome.ProcessTableFull? {
      FreeDeviceAgain(r, after);
    } else if outcome.Registered? {
      assert SlotOk(r.slots[outcome.slot]);
      hide Balanced;
      HeaderChange(ready, after.(generation := ready.generation), outcome.slot);
      GenerationIrrelevant(after.(generation := ready.generation), after.generation);
    }
  }

  /** A process that dies while it registers leaves a region that passes the check exactly if it had not yet
      claimed the slot, or had finished; the last point is the finished registration. */
  lemma RegistrationCrash(r: Region, pid: int, start: u64, device: int, limit: u64, k: nat)
    requires Accounted(r) && pid > 0 && start != 0
    ensures Accounted(RegisterPoint(r, pid, start, device, limit, k))
            <==> !(Register(r, pid, start, device, limit).0.Registered? && 4 <= k <= 6)
    ensures k >= 7 ==> RegisterPoint(r, pid, start, device, limit, k) == Register(r, pid, start, device, limit).1
  {
    var (outcome, whole) := Register(r, pid, start, device, limit);
    var ready := OpenDevice(r, device, limit).1;
    OpenDeviceKeeps(r, device, limit);
    RegisterKeeps(r, pid, start, device, limit);
    hide Accounted, OpenDevice;
    if outcome.Registered? && k >= 2 {
      GenerationIrrelevant(ready, whole.generation);
      if k >= 3 {
        PartlyAccounted(ready.(generation := whole.generation), outcome.slot, pid, start, whole.generation, k - 3);
      }
    }
  }

  lemma PartlyAccounted(r: Region, p: nat, pid: int, start: u64, generation: u64, k: nat)
    requires Accounted(r) && p < |r.slots| && r.slots[p].state == FREE && pid > 0 && start != 0 && generation != 0
    ensures Accounted(r.(slots := r.slots[p := PartlyRegistered(|r.devices|, pid, start, generation, k)])) <==>
              k == 0 || k >= 4
  {
    var after := r.(slots := r.slots[p := PartlyRegistered(|r.devices|, pid, start, generation, k)]);
    assert SlotOk(r.slots[p]);
    hide Balanced;
    if k == 0 || k >= 4 {
      HeaderChange(r, after, p);
    } else {
      assert !SlotOk(after.slots[p]);
    }
  }

  lemma GenerationIrrelevant(r: Region, generation: u64)
    requires Accounted(r)
    ensures Accounted(r.(generation := generation))
  {
  }

  lemma FreeDeviceAgain(r: Region, after: Region)
    requires Accounted(r) && after == r.(devices := after.devices) && |after.devices| == |r.devices|
    requires forall e | 0 <= e < |r.devices| ::
               after.devices[e] == r.devices[e] || (r.devices[e].state == FREE && after.devices[e] == EmptyDevice())
    ensures Accounted(after)
  {
    forall e | 0 <= e < |r.devices|
      ensures DeviceOk(after.devices[e])
      ensures after.devices[e].reserved == r.devices[e].reserved && after.devices[e].committed == r.devices[e].committed
    {
      assert DeviceOk(r.devices[e]);
    }
  }

  /** Whatever the processes do, in whatever order, short of dying between two stores, every device total
      stays the sum of the per-process counters and within its limit. */
  lemma NextKeepsBooks(w: World, e: Event)
    requires Accounted(w.region) && !Crashes(e)
    ensures Accounted(Next(w, e).region)
  {
    var r := w.region;
    assert Shaped(r);
    hide Accounted, WriteAll, Register, ReserveBytes, ReleaseBytes;
    match e
    case RegisterEvent(pid, start, device, limit) =>
      if pid > 0 && start != 0 { RegisterKeeps(r, pid, start, device, limit); }
    case ReserveEvent(o, device, limit, bytes) => ReserveKeeps(r, o, device, limit, bytes);
    case CommitEvent(o, d, bytes) => if CanCommit(r, o, d, bytes) { OpKeeps(r, o, CommitOp(d, bytes)); }
    case CancelEvent(o, d, bytes) => if CanCancel(r, o, d, bytes) { OpKeeps(r, o, CancelOp(d, bytes)); }
    case ReleaseEvent(o, device, bytes) => ReleaseKeeps(r, o, device, bytes);
    case CloseEvent(o) => if Owns(r, o) { OpKeeps(r, o, CloseOp); }
    case ReclaimEvent(who, now) =>
      match RecoveryOf(w, who) {
        case Judged(dead) => if |dead| == |r.slots| { ReclaimKeeps(r, dead, now, |dead|); }
        case _ =>
      }
    case _ =>
  }
}
