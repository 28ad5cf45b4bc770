/** The planners' loops, and the window as the object that keeps it. */
module ExecutionPriorityLoops {
  import opened Common
  import opened ExecutionPriorityModel

  method FindPeer(peers: seq<Peer>, session: u64) returns (found: Option<nat>)
    ensures found == FindSession(peers, session, 0)
  {
    for i := 0 to |peers|
      invariant FindSession(peers, session, 0) == FindSession(peers, session, i)
    {
      if peers[i].session == session { return Some(i); }
    }
    found := None;
  }

  method CheckUnknown(peers: seq<Peer>) returns (any: bool)
    ensures any <==> AnyUnknown(peers)
  {
    any := false;
    for i := 0 to |peers|
      invariant any <==> exists j | 0 <= j < i :: peers[j].unknown
    {
      any := any || peers[i].unknown;
    }
  }

  method CheckRunning(peers: seq<Peer>) returns (any: bool)
    ensures any <==> AnyRunning(peers)
  {
    for i := 0 to |peers|
      invariant forall j | 0 <= j < i :: !peers[j].running
    {
      if peers[i].running { return true; }
    }
    any := false;
  }

  method CheckPeer(p: Peer) returns (ok: bool)
    ensures ok <==> PhysicalOk(p) && CommandOk(p)
  {
    if p.physical.Some? && ((!p.running && !p.unknown) || p.physical.value.sequence == 0
      || p.physical.value.generation == 0
                            || p.reservationGeneration != 0) {
      return false;
    }
    if p.command.Some? {
      var c := p.command.value;
      var shared := c.memberGeneration != 0 || c.configurationEpoch != 0 || c.physicalConfigurationEpoch != 0;
      if c.sequence == 0 || c.acceptanceOrder == 0 || c.geometryEpoch == 0 || c.commandEpoch == 0 || c.controlEpoch == 0
         || (if c.isResume then c.physicalGeneration == 0 || !p.paused else c.physicalGeneration != 0 || !p.ready)
         || (shared && (c.memberGeneration == 0 || c.configurationEpoch == 0 || c.physicalConfigurationEpoch == 0)) {
        return false;
      }
    }
    ok := true;
  }

  method IsNewSession(peers: seq<Peer>, i: nat) returns (isNew: bool)
    requires i < |peers|
    ensures isNew <==> NewSession(peers, i)
  {
    for j := 0 to i
      invariant forall k | 0 <= k < j :: peers[k].session != peers[i].session
    {
      if peers[j].session == peers[i].session { return false; }
    }
    isNew := true;
  }

  ghost predicate NewSession(peers: seq<Peer>, i: nat)
    requires i < |peers|
  {
    forall k | 0 <= k < i :: peers[k].session != peers[i].session
  }

  lemma DistinctNext(peers: seq<Peer>, i: nat)
    requires i < |peers| && DistinctSessions(peers[..i])
    ensures DistinctSessions(peers[..i + 1]) <==> peers[i].session != 0 && NewSession(peers, i)
    ensures DistinctSessions(peers) ==> peers[i].session != 0 && NewSession(peers, i)
  {
    assert peers[..i + 1][i] == peers[i];
    assert forall k | 0 <= k < i :: peers[..i + 1][k] == peers[..i][k] == peers[k];
  }

  lemma DistinctEnds(peers: seq<Peer>)
    ensures DistinctSessions(peers[..0]) && peers[..|peers|] == peers
  {
  }

  lemma HighestNext(peers: seq<Peer>, mode: Mode, i: nat)
    requires i < |peers|
    ensures Highest(peers, mode, 0) == None
    ensures Highest(peers, mode, i + 1) ==
              if !Competes(mode, peers[i]) then Highest(peers, mode, i)
              else if Highest(peers, mode, i).Some? && Highest(peers, mode, i).value > peers[i].priority
                then Highest(peers, mode, i)
              else Some(peers[i].priority)
  {
  }

  /** The first pass: sessions, observations and commands, and the priority that competes. */
  method CheckPeers(peers: seq<Peer>, mode: Mode) returns (ok: bool, selected: Option<u32>)
    requires |peers| <= MAX_PEERS
    ensures ok <==>
              DistinctSessions(peers) && forall i | 0 <= i < |peers| :: PhysicalOk(peers[i]) && CommandOk(peers[i])
    ensures ok ==> selected == Highest(peers, mode, |peers|)
  {
    hide PhysicalOk, CommandOk, DistinctSessions, NewSession;
    DistinctEnds(peers);
    selected := None;
    for i := 0 to |peers|
      invariant DistinctSessions(peers[..i])
      invariant forall j | 0 <= j < i :: PhysicalOk(peers[j]) && CommandOk(peers[j])
      invariant selected == Highest(peers, mode, i)
    {
      var p := peers[i];
      DistinctNext(peers, i);
      if p.session == 0 { return false, None; }
      var isNew := IsNewSession(peers, i);
      if !isNew { return false, None; }
      var good := CheckPeer(p);
      if !good { return false, None; }
      HighestNext(peers, mode, i);
      if mode == PrioritySpaceShare || (IsPriorityMode(mode) && (p.ready || p.running || p.paused)) {
        selected := if selected.Some? && selected.value > p.priority then selected else Some(p.priority);
      }
    }
    ok := true;
  }

  /** The second pass: dependencies. */
  method CheckProgress(peers: seq<Peer>) returns (ok: bool)
    ensures ok <==> forall i | 0 <= i < |peers| :: ProgressOk(peers, peers[i])
  {
    for i := 0 to |peers|
      invariant forall j | 0 <= j < i :: ProgressOk(peers, peers[j])
    {
      var p := peers[i];
      if p.progress.Some? {
        var g := p.progress.value;
        if g.reservation == 0 || g.generation == 0 || g.cutoff == 0 || (!p.ready && !p.paused && !p.running) {
          assert !ProgressOk(peers, peers[i]);
          return false;
        }
        var owner := FindPeer(peers, g.reservation);
        if owner.None? || peers[owner.value].reservationGeneration != g.generation
           || (!peers[owner.value].running && !peers[owner.value].unknown) {
          assert !ProgressOk(peers, peers[i]);
          return false;
        }
      }
    }
    ok := true;
  }

  method CheckLowerRunning(peers: seq<Peer>, selected: Option<u32>) returns (any: bool)
    ensures any <==> LowerRunning(peers, selected)
  {
    if selected.None? { return false; }
    for i := 0 to |peers|
      invariant forall j | 0 <= j < i :: !(peers[j].priority < selected.value && peers[j].running)
    {
      if peers[i].priority < selected.value && peers[i].running { return true; }
    }
    any := false;
  }

  method FindProfilePeer(peers: seq<Peer>, mode: Mode) returns (found: Option<nat>)
    ensures found == ProfilePeer(peers, mode)
  {
    if mode != Profile { return None; }
    var running := CheckRunning(peers);
    if running { return None; }
    for i := 0 to |peers|
      invariant FirstPaused(peers, 0) == FirstPaused(peers, i)
    {
      if peers[i].paused { return Some(i); }
    }
    for i := 0 to |peers|
      invariant FirstReady(peers, 0) == FirstReady(peers, i)
    {
      if peers[i].ready { return Some(i); }
    }
    found := None;
  }

  /** The decisions, peer by peer. */
  method FillDecisions(peers: seq<Peer>, mode: Mode, selected: Option<u32>) returns (decisions: seq<Decision>)
    requires selected == Highest(peers, mode, |peers|)
    ensures decisions == seq(|peers|, i requires 0 <= i < |peers| => Decide(peers, mode, i))
  {
    var unknown := CheckUnknown(peers);
    var lower := CheckLowerRunning(peers, selected);
    var profile := FindProfilePeer(peers, mode);
    hide AnyUnknown, LowerRunning, ProfilePeer, Highest;
    decisions := [];
    for i := 0 to |peers|
      invariant |decisions| == i && forall j | 0 <= j < i :: decisions[j] == Decide(peers, mode, j)
    {
      var p := peers[i];
      var action := Idle;
      if unknown {
        action := Quarantined;
      } else if mode == Profile {
        if profile == Some(i) { action := Execute; } else if p.ready || p.running || p.paused { action := Wait; }
      } else if mode == Naive || mode == WorkloadAgnostic || mode == PrioritySpaceShare {
        if p.ready || p.paused { action := Execute; } else if p.running { action := Wait; }
      } else if selected.Some? {
        if p.priority < selected.value && p.running {
          action := RequestRetreat;
        } else if p.priority == selected.value && (p.ready || p.paused) && !lower {
          action := Execute;
        } else if p.ready || p.running || p.paused {
          action := Wait;
        }
      }
      assert action == OrdinaryAction(peers, mode, i);
      var decision := Decision(p.session, action, None, None);
      if !unknown && p.progress.Some? && action != Execute {
        decision := decision.(action := ExecuteProgress, progress := p.progress);
      }
      if decision.action == Execute { decision := decision.(command := p.command); }
      decisions := decisions + [decision];
    }
  }

  method PlanPeers(peers: seq<Peer>, mode: Mode) returns (plan: Plan)
    ensures plan == PlanPriority(peers, mode)
  {
    if |peers| > MAX_PEERS { return NO_PLAN; }
    var ok, selected := CheckPeers(peers, mode);
    if !ok { return NO_PLAN; }
    ok := CheckProgress(peers);
    if !ok { return NO_PLAN; }
    assert WellFormed(peers);
    hide WellFormed, Decide;
    var decisions := FillDecisions(peers, mode, selected);
    plan := Plan(decisions, selected, true);
  }

  /** Where the leg's peer is, if the leg is good. */
  method CheckLeg(peers: seq<Peer>, leg: PairLeg, shared: bool) returns (at: Option<nat>)
    ensures at.Some? <==> LegOk(peers, leg, shared, FindSession(peers, leg.session, 0))
    ensures at.Some? ==> at == FindSession(peers, leg.session, 0)
  {
    var found := FindPeer(peers, leg.session);
    if found.None? || peers[found.value].command != Some(leg.command) || peers[found.value].pairContext.None? {
      return None;
    }
    var context := peers[found.value].pairContext.value;
    if leg.catalogGeneration == 0 || leg.catalogGeneration != context.catalogGeneration
      || leg.workers != context.workers
       || leg.workers > INT32_MAX || (leg.command.isResume && leg.workers == 0) || (shared && leg.workers == 0) {
      return None;
    }
    at := found;
  }

  method WithholdAll(ordinary: seq<Decision>) returns (decisions: seq<Decision>)
    ensures decisions == seq(|ordinary|, i requires 0 <= i < |ordinary| => Withheld(ordinary[i]))
  {
    decisions := [];
    for i := 0 to |ordinary|
      invariant |decisions| == i && forall j | 0 <= j < i :: decisions[j] == Withheld(ordinary[j])
    {
      var d := ordinary[i];
      if d.action == Execute { d := d.(action := Wait); }
      decisions := decisions + [d.(command := None)];
    }
  }

  method PlanTwo(peers: seq<Peer>, p: PairProposal, mode: Mode) returns (plan: PairPlan)
    ensures plan == PlanPair(peers, p, mode)
  {
    if mode == Profile || mode == PrioritySpaceShare || p.firstSerial > 1 || (p.shared && p.firstSerial != 0)
       || p.first.session == 0 || p.first.session == p.second.session {
      return NO_PAIR;
    }
    var ordinary := PlanPeers(peers, mode);
    if !ordinary.valid { return NO_PAIR; }
    var a := CheckLeg(peers, p.first, p.shared);
    if a.None? { return NO_PAIR; }
    var b := CheckLeg(peers, p.second, p.shared);
    if b.None? { return NO_PAIR; }
    if p.shared && !SharedOk(peers[a.value], peers[b.value]) { return NO_PAIR; }
    assert PairOk(peers, p, mode) && |ordinary.decisions| == |peers|;
    hide PairOk, PlanPriority, GrantPair, SharedOk, LegOk;
    plan := GrantLegs(peers, p, ordinary, a.value, b.value);
  }

  method GrantLegs(peers: seq<Peer>, p: PairProposal, ordinary: Plan, a: nat, b: nat) returns (plan: PairPlan)
    requires |ordinary.decisions| == |peers| && a < |peers| && b < |peers| && a != b
    ensures plan == GrantPair(peers, p, ordinary, a, b)
  {
    var decisions := WithholdAll(ordinary.decisions);
    var running := CheckRunning(peers);
    var unknown := CheckUnknown(peers);
    hide AnyRunning, AnyUnknown;
    plan := PairPlan(ordinary.(decisions := decisions), [], true, false);
    if running || unknown { return; }
    var legs := if p.shared then [a, b] else [if p.firstSerial == 0 then a else b];
    for k := 0 to |legs|
      invariant forall j | 0 <= j < k :: CanGrant(peers, ordinary, legs[j])
    {
      var at := legs[k];
      if ordinary.decisions[at].action != Execute || peers[at].pairContext.None?
        || !peers[at].pairContext.value.materialized {
        return;
      }
    }
    assert CanGrant(peers, ordinary, legs[0]) && CanGrant(peers, ordinary, legs[|legs| - 1]);
    if p.shared {
      decisions := decisions[a := decisions[a].(action := Execute, command := Some(p.first.command))];
      decisions := decisions[b := decisions[b].(action := Execute, command := Some(p.second.command))];
      plan := PairPlan(ordinary.(decisions := decisions), [p.first, p.second], true, true);
    } else {
      decisions := decisions[legs[0] := decisions[legs[0]].(action := Execute,
        command := Some(p.Leg(p.firstSerial).command))];
      plan := PairPlan(ordinary.(decisions := decisions), [p.Leg(p.firstSerial)], true, false);
    }
  }

  /** Where the legs' peers are, if all are good and of one priority. */
  method CheckRetreatLegs(peers: seq<Peer>, legs: seq<RebalanceLeg>) returns (ok: bool)
    requires 1 <= |legs| <= 2
    ensures ok <==> && (forall k | 0 <= k < |legs| :: RetreatLegOk(peers, legs[k]))
                    && (|legs| == 2 ==>
                          legs[0].session != legs[1].session
                          && PriorityOf(peers, legs[0].session) == PriorityOf(peers, legs[1].session))
  {
    var priority: Option<u32> := None;
    for k := 0 to |legs|
      invariant forall j | 0 <= j < k :: RetreatLegOk(peers, legs[j])
      invariant k > 0 ==> priority == Some(PriorityOf(peers, legs[0].session))
      invariant k == 0 ==> priority.None?
      invariant k == 2 ==>
                  legs[0].session != legs[1].session
                  && PriorityOf(peers, legs[0].session) == PriorityOf(peers, legs[1].session)
    {
      var leg := legs[k];
      var at := FindPeer(peers, leg.session);
      if leg.session == 0 || at.None? || !peers[at.value].running || peers[at.value].physical != Some(leg.physical)
         || leg.physical.sequence == 0 || leg.physical.generation == 0
         || peers[at.value].reservationGeneration != 0 || peers[at.value].progress.Some? {
        assert !RetreatLegOk(peers, legs[k]);
        return false;
      }
      if (priority.Some? && peers[at.value].priority != priority.value) || (k > 0 && leg.session == legs[0].session) {
        return false;
      }
      priority := Some(peers[at.value].priority);
    }
    ok := true;
  }

  method CheckTrigger(peers: seq<Peer>, t: RebalanceTrigger, priority: u32, legs: seq<RebalanceLeg>) returns (ok: bool)
    ensures ok <==> TriggerOk(peers, t, priority, legs)
  {
    var at := FindPeer(peers, t.session);
    if t.session == 0 || at.None? { return false; }
    var p := peers[at.value];
    if !p.ready || p.running || p.paused || p.priority != priority || p.command != Some(t.command)
       || t.command.isResume || t.command.physicalGeneration != 0 || t.command.commandEpoch != 1 {
      return false;
    }
    for k := 0 to |legs|
      invariant forall j | 0 <= j < k :: legs[j].session != t.session
    {
      if legs[k].session == t.session { return false; }
    }
    ok := true;
  }

  method NamesLeg(p: RebalanceProposal, session: u64) returns (found: bool)
    ensures found <==> IsLeg(p, session)
  {
    for k := 0 to |p.legs|
      invariant forall j | 0 <= j < k :: p.legs[j].session != session
    {
      if p.legs[k].session == session { return true; }
    }
    found := false;
  }

  method PlanCheckpoint(peers: seq<Peer>, p: RebalanceProposal) returns (plan: Plan)
    ensures plan == PlanRebalance(peers, p)
  {
    if |p.legs| == 0 || |p.legs| > 2 { return NO_PLAN; }
    plan := PlanPeers(peers, Priority);
    if !plan.valid { return NO_PLAN; }
    var ok := CheckRetreatLegs(peers, p.legs);
    if !ok { return NO_PLAN; }
    var first := FindPeer(peers, p.legs[0].session);
    assert RetreatLegOk(peers, p.legs[0]);
    var priority := peers[first.value].priority;
    if p.trigger.Some? {
      ok := CheckTrigger(peers, p.trigger.value, priority, p.legs);
      if !ok { return NO_PLAN; }
    }
    assert RebalanceOk(peers, p);
    var unknown := CheckUnknown(peers);
    hide RebalanceOk, AnyUnknown, WellFormed, IsLeg, Decide, RetreatLegOk, TriggerOk;
    if plan.selected != Some(priority) || unknown { return; }
    var decisions := WithholdForCheckpoint(peers, p, plan.decisions);
    assert forall i | 0 <= i < |peers| :: plan.decisions[i] == Decide(peers, Priority, i);
    plan := plan.(decisions := decisions);
    assert plan.decisions == PlanRebalance(peers, p).decisions;
  }

  method WithholdForCheckpoint(peers: seq<Peer>, p: RebalanceProposal,
    ordinary: seq<Decision>) returns (decisions: seq<Decision>)
    requires |ordinary| == |peers|
    ensures |decisions| == |peers|
    ensures forall i | 0 <= i < |peers| ::
              decisions[i] == if IsLeg(p, peers[i].session) then Retreating(Checkpointed(peers[i], ordinary[i]))
                else Checkpointed(peers[i], ordinary[i])
  {
    hide IsLeg;
    decisions := [];
    for i := 0 to |peers|
      invariant |decisions| == i
      invariant forall j | 0 <= j < i ::
                  decisions[j] == if IsLeg(p, peers[j].session) then Retreating(Checkpointed(peers[j], ordinary[j]))
                    else Checkpointed(peers[j], ordinary[j])
    {
      var d := ordinary[i];
      if d.action == Execute {
        d := d.(command := None);
        if peers[i].progress.Some? {
          d := d.(action := ExecuteProgress, progress := peers[i].progress);
        } else {
          d := d.(action := Wait);
        }
      }
      var leg := NamesLeg(p, peers[i].session);
      if leg { d := d.(action := RequestRetreat, command := None); }
      decisions := decisions + [d];
    }
  }

  /** Keeps peers below a priority from starting until higher ones have been away for a while. */
  class IdleWindow {
    const config: WindowConfig
    var idleSince: Option<u64>
    var lastNow: Option<u64>
    var active: bool

    ghost function Value(): Window
      reads this
    {
      Window(config, idleSince, lastNow, active)
    }

    constructor (settings: WindowConfig)
      ensures Value() == Window(settings, None, None, false)
    {
      config, idleSince, lastNow, active := settings, None, None, false;
    }

    method Note(priority: u32)
      modifies this
      ensures Value() == NoteIssue(old(Value()), priority)
    {
      if config.priority == 0 || config.duration == 0 || priority < config.priority { return; }
      active, idleSince := true, None;
    }

    method RemainingTime(now: u64) returns (left: u64)
      ensures left == Remaining(Value(), now)
    {
      if idleSince.None? { return 0; }
      if now < idleSince.value { return config.duration; }
      var elapsed := now - idleSince.value;
      left := if elapsed < config.duration then config.duration - elapsed else 0;
    }

    method CheckMatches(peers: seq<Peer>, now: u64, plan: Plan) returns (ok: bool)
      ensures ok <==> Matches(Value(), peers, now, plan)
    {
      if |plan.decisions| != |peers| || |peers| > MAX_PEERS || (lastNow.Some? && now < lastNow.value) { return false; }
      for i := 0 to |peers|
        invariant forall j | 0 <= j < i :: plan.decisions[j].session == peers[j].session
      {
        if plan.decisions[i].session != peers[i].session { return false; }
      }
      ok := true;
    }

    /** Work on the device counts as activity. */
    method Observe(peers: seq<Peer>) returns (highWork: bool)
      requires Enabled(Value())
      modifies this
      ensures highWork <==> HighWork(config, peers)
      ensures lastNow == old(lastNow) && active == (old(active) || HighRunning(config, peers))
      ensures idleSince == if HighRunning(config, peers) then None else old(idleSince)
    {
      highWork := false;
      for i := 0 to |peers|
        invariant lastNow == old(lastNow)
        invariant highWork <==> exists j | 0 <= j < i :: peers[j].priority >= config.priority && HasWork(peers[j])
        invariant active == (old(active) || exists j | 0 <= j < i ::
                    peers[j].priority >= config.priority && peers[j].running)
        invariant idleSince == if exists j | 0 <= j < i ::
                    peers[j].priority >= config.priority && peers[j].running then None else old(idleSince)
      {
        var p := peers[i];
        if p.priority >= config.priority {
          if p.running { Note(p.priority); }
          highWork := highWork || p.ready || p.running || p.paused;
        }
      }
    }

    method ApplyTo(peers: seq<Peer>, mode: Mode, now: u64, plan: Plan) returns (out: Plan)
      modifies this
      ensures (out, Value()) == Apply(old(Value()), peers, mode, now, plan)
    {
      if config.priority == 0 || config.duration == 0 || !IsPriorityMode(mode) || !plan.valid { return plan; }
      var ok := CheckMatches(peers, now, plan);
      if !ok { return NO_PLAN; }
      lastNow := Some(now);
      var unknown := CheckUnknown(peers);
      if unknown {
        idleSince := None;
        return plan;
      }
      var highWork := Observe(peers);
      hide AnyUnknown, HighWork, HighRunning;
      if highWork {
        idleSince := None;
        return plan;
      }
      if !active { return plan; }
      if idleSince.None? { idleSince := Some(now); }
      var left := RemainingTime(now);
      if left == 0 {
        active, idleSince := false, None;
        return plan;
      }
      out := HoldBack(peers, plan);
      assert out.decisions == seq(|peers|, i requires 0 <= i < |peers| =>
        HeldBack(config, peers[i], plan.decisions[i]));
    }

    method HoldBack(peers: seq<Peer>, plan: Plan) returns (out: Plan)
      requires |plan.decisions| == |peers|
      ensures |out.decisions| == |peers| && out == plan.(decisions := out.decisions)
      ensures forall i | 0 <= i < |peers| :: out.decisions[i] == HeldBack(config, peers[i], plan.decisions[i])
    {
      var decisions: seq<Decision> := [];
      for i := 0 to |peers|
        invariant |decisions| == i && forall j | 0 <= j < i ::
                    decisions[j] == HeldBack(config, peers[j], plan.decisions[j])
      {
        var d := plan.decisions[i];
        if peers[i].priority < config.priority && d.action == Execute {
          d := d.(command := None, action := if peers[i].progress.Some? then ExecuteProgress else Wait,
                  progress := peers[i].progress);
        }
        decisions := decisions + [d];
      }
      out := plan.(decisions := decisions);
    }
  }
}
