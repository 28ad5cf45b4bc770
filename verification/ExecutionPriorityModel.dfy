/** Which peers may execute now: the ordinary plan, the plans derived from it, and the idle window. */
module ExecutionPriorityModel {
  import opened Common

  const MAX_PEERS: nat := 64
  const INT32_MAX: nat := 0x7FFF_FFFF

  datatype Mode = Priority | Naive | Profile | WorkloadAgnostic | WorkloadAware | PrioritySpaceShare

  datatype Progress = Progress(reservation: u64, generation: u64, cutoff: u64)

  datatype Command = Command(
    sequence: u64, acceptanceOrder: u64, physicalGeneration: u64, geometryEpoch: u64, commandEpoch: u64,
    controlEpoch: u64, memberGeneration: u64, configurationEpoch: u64, physicalConfigurationEpoch: u64, isResume: bool)

  datatype PairContext = PairContext(domain: u64, catalogGeneration: u64, workers: u32, materialized: bool)

  datatype Physical = Physical(sequence: u64, generation: u64)

  datatype Peer = Peer(
    session: u64, priority: u32, ready: bool, running: bool, paused: bool, unknown: bool, progress: Option<Progress>,
    reservationGeneration: u64, command: Option<Command>, pairContext: Option<PairContext>, physical: Option<Physical>)

  datatype Action = Idle | Wait | RequestRetreat | Execute | Quarantined | ExecuteProgress

  datatype Decision = Decision(session: u64, action: Action, progress: Option<Progress>, command: Option<Command>)

  datatype Plan = Plan(decisions: seq<Decision>, selected: Option<u32>, valid: bool)

  const NO_PLAN := Plan([], None, false)

  predicate IsPriorityMode(mode: Mode) {
    mode == Priority || mode == WorkloadAware
  }

  /** Work of any kind; `running` is work physically on the device. */
  predicate HasWork(p: Peer) {
    p.ready || p.running || p.paused
  }

  predicate AnyUnknown(peers: seq<Peer>) {
    exists i | 0 <= i < |peers| :: peers[i].unknown
  }

  predicate AnyRunning(peers: seq<Peer>) {
    exists i | 0 <= i < |peers| :: peers[i].running
  }

  // ---------------------------------------------------------------------------
  // Snapshots worth planning for

  predicate DistinctSessions(peers: seq<Peer>) {
    && (forall i | 0 <= i < |peers| :: peers[i].session != 0)
    && (forall i, j | 0 <= i < j < |peers| :: peers[i].session != peers[j].session)
  }

  predicate PhysicalOk(p: Peer) {
    p.physical.Some? ==>
      (p.running || p.unknown) && p.physical.value.sequence != 0 && p.physical.value.generation != 0
        && p.reservationGeneration == 0
  }

  predicate CommandOk(p: Peer) {
    p.command.Some? ==>
      var c := p.command.value;
      && c.sequence != 0 && c.acceptanceOrder != 0 && c.geometryEpoch != 0 && c.commandEpoch != 0 && c.controlEpoch != 0
      && (if c.isResume then c.physicalGeneration != 0 && p.paused else c.physicalGeneration == 0 && p.ready)
      && (c.memberGeneration != 0 || c.configurationEpoch != 0 || c.physicalConfigurationEpoch != 0
          ==> c.memberGeneration != 0 && c.configurationEpoch != 0 && c.physicalConfigurationEpoch != 0)
  }

  /** A dependency must belong to a reservation that is really held. */
  predicate ProgressOk(peers: seq<Peer>, p: Peer) {
    p.progress.Some? ==>
      var g := p.progress.value;
      && g.reservation != 0 && g.generation != 0 && g.cutoff != 0 && HasWork(p)
      && var owner := FindSession(peers, g.reservation, 0);
         owner.Some? && peers[owner.value].reservationGeneration == g.generation
           && (peers[owner.value].running || peers[owner.value].unknown)
  }

  function FindSession(peers: seq<Peer>, session: u64, from: nat): (found: Option<nat>)
    requires from <= |peers|
    ensures found.Some? ==> from <= found.value < |peers| && peers[found.value].session == session
    ensures found.None? ==> forall i | from <= i < |peers| :: peers[i].session != session
    decreases |peers| - from
  {
    if from == |peers| then None
    else if peers[from].session == session then Some(from)
    else FindSession(peers, session, from + 1)
  }

  predicate WellFormed(peers: seq<Peer>) {
    && |peers| <= MAX_PEERS && DistinctSessions(peers)
    && forall i | 0 <= i < |peers| :: PhysicalOk(peers[i]) && CommandOk(peers[i]) && ProgressOk(peers, peers[i])
  }

  // ---------------------------------------------------------------------------
  // The ordinary plan

  /** Peers whose priority competes. */
  predicate Competes(mode: Mode, p: Peer) {
    mode == PrioritySpaceShare || (IsPriorityMode(mode) && HasWork(p))
  }

  /** The highest competing priority among peers 0 .. n-1. */
  function Highest(peers: seq<Peer>, mode: Mode, n: nat): (best: Option<u32>)
    requires n <= |peers|
    ensures best.None? <==> forall i | 0 <= i < n :: !Competes(mode, peers[i])
    ensures best.Some? ==> forall i | 0 <= i < n && Competes(mode, peers[i]) :: peers[i].priority <= best.value
    ensures best.Some? ==> exists i | 0 <= i < n :: Competes(mode, peers[i]) && peers[i].priority == best.value
  {
    if n == 0 then None
    else
      var before := Highest(peers, mode, n - 1);
      if !Competes(mode, peers[n - 1]) then before
      else if before.Some? && before.value > peers[n - 1].priority then before
      else Some(peers[n - 1].priority)
  }

  predicate LowerRunning(peers: seq<Peer>, selected: Option<u32>) {
    selected.Some? && exists i | 0 <= i < |peers| :: peers[i].priority < selected.value && peers[i].running
  }

  function FirstPaused(peers: seq<Peer>, from: nat): (found: Option<nat>)
    requires from <= |peers|
    ensures found.Some? ==> from <= found.value < |peers| && peers[found.value].paused
    ensures found.None? ==> forall i | from <= i < |peers| :: !peers[i].paused
    decreases |peers| - from
  {
    if from == |peers| then None else if peers[from].paused then Some(from) else FirstPaused(peers, from + 1)
  }

  function FirstReady(peers: seq<Peer>, from: nat): (found: Option<nat>)
    requires from <= |peers|
    ensures found.Some? ==> from <= found.value < |peers| && peers[found.value].ready
    ensures found.None? ==> forall i | from <= i < |peers| :: !peers[i].ready
    decreases |peers| - from
  {
    if from == |peers| then None else if peers[from].ready then Some(from) else FirstReady(peers, from + 1)
  }

  /** In profile mode one peer runs alone, paused work first. */
  function ProfilePeer(peers: seq<Peer>, mode: Mode): (found: Option<nat>)
    ensures found.Some? ==> found.value < |peers|
  {
    if mode != Profile || AnyRunning(peers) then None
    else if FirstPaused(peers, 0).Some? then FirstPaused(peers, 0)
    else FirstReady(peers, 0)
  }

  function WaitIf(condition: bool): Action {
    if condition then Wait else Idle
  }

  /** Before dependencies are considered. */
  function OrdinaryAction(peers: seq<Peer>, mode: Mode, i: nat): Action
    requires i < |peers|
  {
    var p, selected := peers[i], Highest(peers, mode, |peers|);
    if AnyUnknown(peers) then Quarantined
    else
      match mode
      case Profile =>
        if ProfilePeer(peers, mode) == Some(i) then Execute else WaitIf(HasWork(p))
      case Naive => if p.ready || p.paused then Execute else WaitIf(p.running)
      case WorkloadAgnostic => if p.ready || p.paused then Execute else WaitIf(p.running)
      case PrioritySpaceShare => if p.ready || p.paused then Execute else WaitIf(p.running)
      case _ =>
        if selected.None? then Idle
        else if p.priority < selected.value && p.running then RequestRetreat
        else if p.priority == selected.value && (p.ready || p.paused) && !LowerRunning(peers, selected) then Execute
        else WaitIf(HasWork(p))
  }

  function Decide(peers: seq<Peer>, mode: Mode, i: nat): Decision
    requires i < |peers|
  {
    var p, action := peers[i], OrdinaryAction(peers, mode, i);
    if !AnyUnknown(peers) && p.progress.Some? && action != Execute
      then Decision(p.session, ExecuteProgress, p.progress, None)
    else Decision(p.session, action, None, if action == Execute then p.command else None)
  }

  function PlanPriority(peers: seq<Peer>, mode: Mode): (plan: Plan) {
    if !WellFormed(peers) then NO_PLAN
    else Plan(seq(|peers|, i requires 0 <= i < |peers| => Decide(peers, mode, i)), Highest(peers, mode, |peers|), true)
  }

  // ---------------------------------------------------------------------------
  // Two measured commands together, or one of them alone

  datatype PairLeg = PairLeg(session: u64, command: Command, catalogGeneration: u64, workers: u32)

  datatype PairProposal = PairProposal(first: PairLeg, second: PairLeg, shared: bool, firstSerial: nat) {
    function Leg(k: nat): PairLeg {
      if k == 0 then first else second
    }
  }

  datatype PairPlan = PairPlan(priority: Plan, grants: seq<PairLeg>, valid: bool, shared: bool)

  const NO_PAIR := PairPlan(NO_PLAN, [], false, false)

  /** The leg names the current command of a peer, with its measured configuration. */
  predicate LegOk(peers: seq<Peer>, leg: PairLeg, shared: bool, at: Option<nat>)
    requires at.Some? ==> at.value < |peers|
  {
    && at.Some? && peers[at.value].command == Some(leg.command) && peers[at.value].pairContext.Some?
    && var context := peers[at.value].pairContext.value;
       && leg.catalogGeneration != 0 && leg.catalogGeneration == context.catalogGeneration
       && leg.workers == context.workers
       && leg.workers <= INT32_MAX && !(leg.command.isResume && leg.workers == 0) && !(shared && leg.workers == 0)
  }

  /** Shared work needs two different members of one domain under one configuration. */
  predicate SharedOk(a: Peer, b: Peer) {
    && a.pairContext.Some? && b.pairContext.Some? && a.command.Some? && b.command.Some?
    && a.pairContext.value.domain != 0 && a.pairContext.value.domain == b.pairContext.value.domain
    && a.command.value.memberGeneration != 0 && b.command.value.memberGeneration != 0
    && a.command.value.memberGeneration != b.command.value.memberGeneration
    && a.command.value.physicalConfigurationEpoch == b.command.value.physicalConfigurationEpoch
  }

  predicate PairOk(peers: seq<Peer>, p: PairProposal, mode: Mode) {
    && mode != Profile && mode != PrioritySpaceShare && p.firstSerial <= 1 && !(p.shared && p.firstSerial != 0)
    && p.first.session != 0 && p.first.session != p.second.session
    && PlanPriority(peers, mode).valid
    && var a, b := FindSession(peers, p.first.session, 0), FindSession(peers, p.second.session, 0);
       && LegOk(peers, p.first, p.shared, a) && LegOk(peers, p.second, p.shared, b)
       && (p.shared ==> SharedOk(peers[a.value], peers[b.value]))
  }

  /** No ordinary permission survives. */
  function Withheld(d: Decision): Decision {
    d.(action := if d.action == Execute then Wait else d.action, command := None)
  }

  predicate CanGrant(peers: seq<Peer>, plan: Plan, at: nat) {
    at < |peers| == |plan.decisions| && plan.decisions[at].action == Execute && peers[at].pairContext.Some?
      && peers[at].pairContext.value.materialized
  }

  /** The legs at a and b, or the serial one of them, are granted if the ordinary plan let them execute. */
  function GrantPair(peers: seq<Peer>, p: PairProposal, ordinary: Plan, a: nat, b: nat): PairPlan
    requires |ordinary.decisions| == |peers| && a < |peers| && b < |peers|
  {
    var withheld := seq(|ordinary.decisions|, i requires 0 <= i < |ordinary.decisions| =>
      Withheld(ordinary.decisions[i]));
    if AnyRunning(peers) || AnyUnknown(peers) then PairPlan(ordinary.(decisions := withheld), [], true, false)
    else if p.shared then
      if !CanGrant(peers, ordinary, a) || !CanGrant(peers, ordinary, b)
        then PairPlan(ordinary.(decisions := withheld), [], true, false)
      else
        PairPlan(ordinary.(decisions := withheld[a := withheld[a].(action := Execute, command := Some(p.first.command))]
                                        [b := withheld[b].(action := Execute, command := Some(p.second.command))]),
                 [p.first, p.second], true, true)
    else
      var at := if p.firstSerial == 0 then a else b;
      if !CanGrant(peers, ordinary, at) then PairPlan(ordinary.(decisions := withheld), [], true, false)
      else
        PairPlan(ordinary.(decisions := withheld[at :=
          withheld[at].(action := Execute, command := Some(p.Leg(p.firstSerial).command))]),
                 [p.Leg(p.firstSerial)], true, false)
  }

  function PlanPair(peers: seq<Peer>, p: PairProposal, mode: Mode): PairPlan {
    if !PairOk(peers, p, mode) then NO_PAIR
    else
      GrantPair(peers, p, PlanPriority(peers, mode),
                FindSession(peers, p.first.session, 0).value, FindSession(peers, p.second.session, 0).value)
  }

  // ---------------------------------------------------------------------------
  // Stopping work of the selected priority to rebalance it

  datatype RebalanceTrigger = RebalanceTrigger(session: u64, command: Command)

  datatype RebalanceLeg = RebalanceLeg(session: u64, physical: Physical)

  datatype RebalanceProposal = RebalanceProposal(trigger: Option<RebalanceTrigger>, legs: seq<RebalanceLeg>)

  predicate RetreatLegOk(peers: seq<Peer>, leg: RebalanceLeg) {
    var at := FindSession(peers, leg.session, 0);
    && leg.session != 0 && at.Some? && peers[at.value].running && peers[at.value].physical == Some(leg.physical)
    && leg.physical.sequence != 0 && leg.physical.generation != 0
    && peers[at.value].reservationGeneration == 0 && peers[at.value].progress.None?
  }

  predicate TriggerOk(peers: seq<Peer>, t: RebalanceTrigger, priority: u32, legs: seq<RebalanceLeg>) {
    var at := FindSession(peers, t.session, 0);
    && t.session != 0 && at.Some? && peers[at.value].ready && !peers[at.value].running && !peers[at.value].paused
    && peers[at.value].priority == priority && peers[at.value].command == Some(t.command)
    && !t.command.isResume && t.command.physicalGeneration == 0 && t.command.commandEpoch == 1
    && forall k | 0 <= k < |legs| :: legs[k].session != t.session
  }

  predicate RebalanceOk(peers: seq<Peer>, p: RebalanceProposal) {
    && 1 <= |p.legs| <= 2 && PlanPriority(peers, Priority).valid
    && (forall k | 0 <= k < |p.legs| :: RetreatLegOk(peers, p.legs[k]))
    && (|p.legs| == 2 ==>
          p.legs[0].session != p.legs[1].session
          && PriorityOf(peers, p.legs[0].session) == PriorityOf(peers, p.legs[1].session))
    && (p.trigger.Some? ==> TriggerOk(peers, p.trigger.value, PriorityOf(peers, p.legs[0].session), p.legs))
  }

  function PriorityOf(peers: seq<Peer>, session: u64): u32 {
    var at := FindSession(peers, session, 0);
    if at.Some? then peers[at.value].priority else 0
  }

  function Checkpointed(p: Peer, d: Decision): Decision {
    if d.action != Execute then d
    else if p.progress.Some? then Decision(d.session, ExecuteProgress, p.progress, None)
    else d.(action := Wait, command := None)
  }

  function Retreating(d: Decision): Decision {
    d.(action := RequestRetreat, command := None)
  }

  predicate IsLeg(p: RebalanceProposal, session: u64) {
    exists k | 0 <= k < |p.legs| :: p.legs[k].session == session
  }

  function PlanRebalance(peers: seq<Peer>, p: RebalanceProposal): Plan {
    if !RebalanceOk(peers, p) then NO_PLAN
    else
      var plan := PlanPriority(peers, Priority);
      if plan.selected != Some(PriorityOf(peers, p.legs[0].session)) || AnyUnknown(peers) then plan
      else
        plan.(decisions := seq(|peers|, i requires 0 <= i < |peers| =>
          if IsLeg(p, peers[i].session) then Retreating(Checkpointed(peers[i], Decide(peers, Priority, i)))
          else Checkpointed(peers[i], Decide(peers, Priority, i))))
  }

  // ---------------------------------------------------------------------------
  // The idle window

  datatype WindowConfig = WindowConfig(priority: u32, duration: u64)

  datatype Window = Window(config: WindowConfig, idleSince: Option<u64>, lastNow: Option<u64>, active: bool)

  predicate Enabled(w: Window) {
    w.config.priority != 0 && w.config.duration != 0
  }

  function NoteIssue(w: Window, priority: u32): Window {
    if !Enabled(w) || priority < w.config.priority then w else w.(active := true, idleSince := None)
  }

  function Remaining(w: Window, now: u64): u64 {
    if w.idleSince.None? then 0
    else if now < w.idleSince.value then w.config.duration
    else if now - w.idleSince.value < w.config.duration then w.config.duration - (now - w.idleSince.value)
    else 0
  }

  predicate HighWork(config: WindowConfig, peers: seq<Peer>) {
    exists i | 0 <= i < |peers| :: peers[i].priority >= config.priority && HasWork(peers[i])
  }

  predicate HighRunning(config: WindowConfig, peers: seq<Peer>) {
    exists i | 0 <= i < |peers| :: peers[i].priority >= config.priority && peers[i].running
  }

  /** The plan was made for these peers, and time has not gone back. */
  predicate Matches(w: Window, peers: seq<Peer>, now: u64, plan: Plan) {
    && |plan.decisions| == |peers| <= MAX_PEERS && (w.lastNow.None? || w.lastNow.value <= now)
    && forall i | 0 <= i < |peers| :: plan.decisions[i].session == peers[i].session
  }

  function HeldBack(config: WindowConfig, p: Peer, d: Decision): Decision {
    if p.priority >= config.priority || d.action != Execute then d
    else Decision(d.session, if p.progress.Some? then ExecuteProgress else Wait, p.progress, None)
  }

  function Apply(w: Window, peers: seq<Peer>, mode: Mode, now: u64, plan: Plan): (Plan, Window) {
    if !Enabled(w) || !IsPriorityMode(mode) || !plan.valid then (plan, w)
    else if !Matches(w, peers, now, plan) then (NO_PLAN, w)
    else
      var seen := w.(lastNow := Some(now));
      if AnyUnknown(peers) then (plan, seen.(idleSince := None))
      else
        var active := w.active || HighRunning(w.config, peers);
        if HighWork(w.config, peers) then (plan, seen.(active := active, idleSince := None))
        else if !active then (plan, seen)
        else
          var since := if w.idleSince.None? then now else w.idleSince.value;
          var waiting := seen.(active := true, idleSince := Some(since));
          if Remaining(waiting, now) == 0 then (plan, seen.(active := false, idleSince := None))
          else
            (plan.(decisions := seq(|peers|, i requires 0 <= i < |peers| =>
              HeldBack(w.config, peers[i], plan.decisions[i]))), waiting)
  }
}
