/** What the plans guarantee, and what the idle window guarantees over whole runs. */
module ExecutionPriorityTheorems {
  import opened Common
  import opened ExecutionPriorityModel

  // ---------------------------------------------------------------------------
  // The ordinary plan

  /** In a priority mode permission to execute means nobody above has work of any kind and nobody below is
      still on the device; the command authorised is the one observed. */
  lemma ExecuteIsSafe(peers: seq<Peer>, mode: Mode, i: nat, j: nat)
    requires IsPriorityMode(mode) && PlanPriority(peers, mode).valid && i < |peers| && j < |peers|
    requires PlanPriority(peers, mode).decisions[i].action == Execute
    ensures peers[j].priority > peers[i].priority ==> !HasWork(peers[j])
    ensures peers[j].priority < peers[i].priority ==> !peers[j].running
    ensures !peers[j].unknown && (peers[i].ready || peers[i].paused)
    ensures PlanPriority(peers, mode).decisions[i] == Decision(peers[i].session, Execute, None, peers[i].command)
  {
    hide WellFormed;
    assert PlanPriority(peers, mode).decisions[i] == Decide(peers, mode, i);
    assert Competes(mode, peers[i]);
  }

  /** Work present and nothing unknown: somebody executes, or somebody is on the device. In every mode. */
  lemma NobodyStalls(peers: seq<Peer>, mode: Mode)
    requires PlanPriority(peers, mode).valid && !AnyUnknown(peers) && exists i | 0 <= i < |peers| :: HasWork(peers[i])
    ensures AnyRunning(peers) || exists i | 0 <= i < |peers| :: PlanPriority(peers, mode).decisions[i].action == Execute
  {
    hide WellFormed;
    if !AnyRunning(peers) {
      var i := Chosen(peers, mode);
      assert OrdinaryAction(peers, mode, i) == Execute;
      assert PlanPriority(peers, mode).decisions[i].action == Execute;
    }
  }

  /** A peer the plan lets execute. */
  lemma Chosen(peers: seq<Peer>, mode: Mode) returns (i: nat)
    requires !AnyUnknown(peers) && !AnyRunning(peers) && exists i | 0 <= i < |peers| :: HasWork(peers[i])
    ensures i < |peers| && OrdinaryAction(peers, mode, i) == Execute
  {
    var k :| 0 <= k < |peers| && HasWork(peers[k]);
    if mode == Profile {
      i := ProfilePeer(peers, mode).value;
    } else if IsPriorityMode(mode) {
      assert Competes(mode, peers[k]);
      var best := Highest(peers, mode, |peers|).value;
      i :| 0 <= i < |peers| && Competes(mode, peers[i]) && peers[i].priority == best;
    } else {
      i := k;
    }
  }

  /** The device is cleared for the selected priority: whoever is on it from below is asked to retreat, unless
      a held reservation depends on its progress, and nothing below executes meanwhile. */
  lemma LowerWorkRetreats(peers: seq<Peer>, mode: Mode, i: nat, j: nat)
    requires IsPriorityMode(mode) && PlanPriority(peers, mode).valid && !AnyUnknown(peers) && i < |peers| && j < |peers|
    requires peers[i].priority < peers[j].priority && HasWork(peers[j])
    ensures PlanPriority(peers, mode).decisions[i].action != Execute
    ensures peers[i].running ==>
              PlanPriority(peers, mode).decisions[i].action
                == if peers[i].progress.Some? then ExecuteProgress else RequestRetreat
  {
    hide WellFormed;
    assert Competes(mode, peers[j]);
    assert PlanPriority(peers, mode).decisions[i] == Decide(peers, mode, i);
  }

  /** One peer of unknown state stops everything. */
  lemma UnknownStopsAll(peers: seq<Peer>, mode: Mode, i: nat)
    requires PlanPriority(peers, mode).valid && AnyUnknown(peers) && i < |peers|
    ensures PlanPriority(peers, mode).decisions[i] == Decision(peers[i].session, Quarantined, None, None)
  {
    hide WellFormed;
    assert PlanPriority(peers, mode).decisions[i] == Decide(peers, mode, i);
  }

  /** Profile mode runs one peer alone. */
  lemma ProfileIsExclusive(peers: seq<Peer>, i: nat, j: nat)
    requires PlanPriority(peers, Profile).valid && i < |peers| && j < |peers|
    requires PlanPriority(peers, Profile).decisions[i].action == Execute
    ensures !peers[j].running && (PlanPriority(peers, Profile).decisions[j].action == Execute ==> j == i)
  {
    hide WellFormed;
    assert PlanPriority(peers, Profile).decisions[i] == Decide(peers, Profile, i);
    assert PlanPriority(peers, Profile).decisions[j] == Decide(peers, Profile, j);
    assert ProfilePeer(peers, Profile) == Some(i);
  }

  /** Progress is authorised only as the exact dependency of a reservation some peer in the snapshot holds. */
  lemma ProgressIsExact(peers: seq<Peer>, mode: Mode, i: nat) returns (owner: nat)
    requires PlanPriority(peers, mode).valid && i < |peers|
             && PlanPriority(peers, mode).decisions[i].action == ExecuteProgress
    ensures PlanPriority(peers, mode).decisions[i].progress == peers[i].progress && peers[i].progress.Some?
            && !AnyUnknown(peers)
    ensures owner < |peers| && peers[owner].session == peers[i].progress.value.reservation
            && peers[owner].reservationGeneration == peers[i].progress.value.generation && peers[owner].running
  {
    assert PlanPriority(peers, mode).decisions[i] == Decide(peers, mode, i);
    assert ProgressOk(peers, peers[i]);
    owner := FindSession(peers, peers[i].progress.value.reservation, 0).value;
  }

  // ---------------------------------------------------------------------------
  // Derived plans only take away

  /** `plan` lets execute only whom `ordinary` lets, under the same command, and speaks of the same sessions. */
  ghost predicate Narrows(plan: Plan, ordinary: Plan) {
    && plan.valid && |plan.decisions| == |ordinary.decisions| && plan.selected == ordinary.selected
    && forall i | 0 <= i < |plan.decisions| ::
         && plan.decisions[i].session == ordinary.decisions[i].session
         && (plan.decisions[i].action == Execute ==>
               ordinary.decisions[i].action == Execute && plan.decisions[i].command == ordinary.decisions[i].command)
         && (plan.decisions[i].command.Some? ==> plan.decisions[i].action == Execute)
  }

  lemma CommandOnlyWithExecute(peers: seq<Peer>, mode: Mode)
    requires PlanPriority(peers, mode).valid
    ensures Narrows(PlanPriority(peers, mode), PlanPriority(peers, mode))
            && |PlanPriority(peers, mode).decisions| == |peers|
    ensures forall i | 0 <= i < |peers| :: PlanPriority(peers, mode).decisions[i] == Decide(peers, mode, i)
  {
    hide WellFormed;
    forall i | 0 <= i < |peers| ensures PlanPriority(peers, mode).decisions[i] == Decide(peers, mode, i) {
    }
  }

  lemma SessionFound(peers: seq<Peer>, session: u64, i: nat)
    requires DistinctSessions(peers) && i < |peers| && peers[i].session == session
    ensures FindSession(peers, session, 0) == Some(i)
  {
  }

  /** Peer i is one of those granted. */
  ghost predicate Granted(plan: PairPlan, session: u64) {
    exists k | 0 <= k < |plan.grants| :: plan.grants[k].session == session
  }

  lemma GrantedOne(plan: PairPlan, leg: PairLeg, session: u64)
    requires plan.grants == [leg]
    ensures Granted(plan, session) <==> leg.session == session
  {
    assert plan.grants[0] == leg;
  }

  lemma GrantedTwo(plan: PairPlan, a: PairLeg, b: PairLeg, session: u64)
    requires plan.grants == [a, b]
    ensures Granted(plan, session) <==> a.session == session || b.session == session
  {
    assert plan.grants[0] == a && plan.grants[1] == b;
  }

  /** What a pair plan says of peer i. */
  lemma PairDecision(peers: seq<Peer>, p: PairProposal, mode: Mode, i: nat)
    requires PlanPair(peers, p, mode).valid && i < |peers|
    ensures var plan := PlanPair(peers, p, mode);
            && |plan.priority.decisions| == |peers| && PlanPriority(peers, mode).valid
            && plan.priority.decisions[i] == (if Granted(plan, peers[i].session) then Decide(peers, mode, i)
               else Withheld(Decide(peers, mode, i)))
            && (Granted(plan, peers[i].session) ==> Decide(peers, mode, i).action == Execute)
  {
    var plan := PlanPair(peers, p, mode);
    CommandOnlyWithExecute(peers, mode);
    assert DistinctSessions(peers);
    var a, b := FindSession(peers, p.first.session, 0).value, FindSession(peers, p.second.session, 0).value;
    var d := Decide(peers, mode, i);
    assert d.action == Execute ==> d.command == peers[i].command;
    hide WellFormed, PlanPriority, SharedOk, Decide, Granted, AnyRunning, AnyUnknown;
    if peers[i].session == p.first.session { SessionFound(peers, p.first.session, i); }
    if peers[i].session == p.second.session { SessionFound(peers, p.second.session, i); }
    assert i == a <==> peers[i].session == p.first.session;
    assert i == b <==> peers[i].session == p.second.session;
    if plan.grants == [] {
      NotGranted(plan, peers[i].session);
    } else if p.shared {
      GrantedTwo(plan, p.first, p.second, peers[i].session);
    } else {
      GrantedOne(plan, p.Leg(p.firstSerial), peers[i].session);
    }
  }

  lemma NotGranted(plan: PairPlan, session: u64)
    requires plan.grants == []
    ensures !Granted(plan, session)
  {
  }

  /** A pair plan grants nothing while anything is on the device or unknown, grants only legs of the proposal
      that the ordinary plan let execute, and lets exactly those execute. */
  lemma PairNarrows(peers: seq<Peer>, p: PairProposal, mode: Mode)
    requires PlanPair(peers, p, mode).valid
    ensures var plan, ordinary := PlanPair(peers, p, mode), PlanPriority(peers, mode);
            && Narrows(plan.priority, ordinary)
            && (plan.grants != [] ==> !AnyRunning(peers) && !AnyUnknown(peers))
            && (plan.grants == [] || plan.grants == [p.Leg(p.firstSerial)]
                || (p.shared && plan.shared && plan.grants == [p.first, p.second]))
            && forall i | 0 <= i < |peers| ::
                 plan.priority.decisions[i].action == Execute <==> Granted(plan, peers[i].session)
  {
    hide WellFormed, PlanPriority, Decide, Granted, PlanPair, AnyRunning, AnyUnknown;
    var plan := PlanPair(peers, p, mode);
    PairSelected(peers, p, mode);
    CommandOnlyWithExecute(peers, mode);
    forall i | 0 <= i < |peers|
      ensures plan.priority.decisions[i] == if Granted(plan, peers[i].session) then Decide(peers, mode, i)
              else Withheld(Decide(peers, mode, i))
      ensures Granted(plan, peers[i].session) ==> Decide(peers, mode, i).action == Execute
    {
      PairDecision(peers, p, mode, i);
    }
  }

  lemma PairSelected(peers: seq<Peer>, p: PairProposal, mode: Mode)
    requires PlanPair(peers, p, mode).valid
    ensures var plan := PlanPair(peers, p, mode);
            && PlanPriority(peers, mode).valid
            && plan.priority.valid && plan.priority.selected == PlanPriority(peers, mode).selected
            && |plan.priority.decisions| == |peers|
            && (plan.grants != [] ==> !AnyRunning(peers) && !AnyUnknown(peers))
            && (plan.grants == [] || plan.grants == [p.Leg(p.firstSerial)]
                || (p.shared && plan.shared && plan.grants == [p.first, p.second]))
  {
    hide WellFormed, Decide, SharedOk, AnyRunning, AnyUnknown;
  }

  /** A pair plan is meant to leave exact progress usable. It does, except to a peer that the ordinary plan let
      execute outright: that peer loses its progress along with its permission. */
  lemma PairKeepsProgress(peers: seq<Peer>, p: PairProposal, mode: Mode, i: nat)
    requires PlanPair(peers, p, mode).valid && i < |peers| && peers[i].progress.Some? && !AnyUnknown(peers)
    requires !Granted(PlanPair(peers, p, mode), peers[i].session)
    ensures PlanPair(peers, p, mode).priority.decisions[i]
            == Decision(peers[i].session, ExecuteProgress, peers[i].progress, None)
            <==> OrdinaryAction(peers, mode, i) != Execute
  {
    PairDecision(peers, p, mode, i);
    hide WellFormed, PlanPriority, OrdinaryAction, PlanPair, Granted;
  }

  // A snapshot on which it happens: peer 1 holds a reservation on the device that peer 2's work must finish.

  const COMMAND := Command(1, 1, 0, 1, 1, 1, 0, 0, 0, false)

  const HOLDER := Peer(1, 5, false, true, false, false, None, 9, None, None, None)

  const HELPER := Peer(2, 5, true, false, false, false, Some(Progress(1, 9, 4)), 0, Some(COMMAND),
    Some(PairContext(0, 3, 0, true)), None)

  const OTHER := Peer(3, 5, true, false, false, false, None, 0, Some(COMMAND), Some(PairContext(0, 3, 0, true)), None)

  lemma PairCanDropProgress()
    ensures var peers := [HOLDER, HELPER, OTHER];
            var p := PairProposal(PairLeg(2, COMMAND, 3, 0), PairLeg(3, COMMAND, 3, 0), false, 0);
            var plan := PlanPair(peers, p, Priority);
            && plan.valid && plan.grants == [] && peers[1].progress.Some? && plan.priority.decisions[1].action == Wait
  {
    var peers := [HOLDER, HELPER, OTHER];
    var p := PairProposal(PairLeg(2, COMMAND, 3, 0), PairLeg(3, COMMAND, 3, 0), false, 0);
    SessionFound(peers, 1, 0);
    SessionFound(peers, 2, 1);
    SessionFound(peers, 3, 2);
    forall i | 0 <= i < |peers| ensures PhysicalOk(peers[i]) && CommandOk(peers[i]) && ProgressOk(peers, peers[i]) {
    }
    assert WellFormed(peers);
    CommandOnlyWithExecute(peers, Priority);
    assert Competes(Priority, peers[1]) && Highest(peers, Priority, 3) == Some(5);
    assert Decide(peers, Priority, 1).action == Execute;
    assert peers[0].running;
    hide WellFormed, PlanPriority, Decide, Highest;
  }

  /** A rebalance asks exactly the named legs of the selected priority to retreat, beside whoever was asked
      already, and lets nobody start; otherwise it is the ordinary plan. */
  lemma RebalanceNarrows(peers: seq<Peer>, p: RebalanceProposal)
    requires PlanRebalance(peers, p).valid
    ensures PlanPriority(peers, Priority).valid && Narrows(PlanRebalance(peers, p), PlanPriority(peers, Priority))
    ensures PlanRebalance(peers, p) == PlanPriority(peers, Priority)
            || forall i | 0 <= i < |peers| ::
                 var d := PlanRebalance(peers, p).decisions[i];
                 && d.action != Execute
                 && (d.action == RequestRetreat <==>
                       IsLeg(p, peers[i].session) || Decide(peers, Priority, i).action == RequestRetreat)
                 && (peers[i].progress.Some? ==> d.action == ExecuteProgress && d.progress == peers[i].progress)
  {
    hide WellFormed, RebalanceOk, IsLeg, Decide, PlanPriority, PlanRebalance;
    RebalanceShape(peers, p);
    CommandOnlyWithExecute(peers, Priority);
    if PlanRebalance(peers, p) != PlanPriority(peers, Priority) {
      forall i | 0 <= i < |peers|
        ensures var d := PlanRebalance(peers, p).decisions[i];
                && d.session == Decide(peers, Priority, i).session && d.action != Execute && d.command.None?
                && (d.action == RequestRetreat <==>
                      IsLeg(p, peers[i].session) || Decide(peers, Priority, i).action == RequestRetreat)
                && (peers[i].progress.Some? ==> d.action == ExecuteProgress && d.progress == peers[i].progress)
      {
        RebalanceDecision(peers, p, i);
      }
    }
  }

  lemma RebalanceShape(peers: seq<Peer>, p: RebalanceProposal)
    requires PlanRebalance(peers, p).valid
    ensures PlanPriority(peers, Priority).valid
            && PlanRebalance(peers, p).selected == PlanPriority(peers, Priority).selected
    ensures |PlanRebalance(peers, p).decisions| == |peers|
  {
  }

  lemma RebalanceDecision(peers: seq<Peer>, p: RebalanceProposal, i: nat)
    requires PlanRebalance(peers, p).valid && PlanRebalance(peers, p) != PlanPriority(peers, Priority) && i < |peers|
    requires |PlanRebalance(peers, p).decisions| == |peers|
    ensures var d, was := PlanRebalance(peers, p).decisions[i], Decide(peers, Priority, i);
            && d.session == was.session && d.action != Execute && d.command.None?
            && (d.action == RequestRetreat <==> IsLeg(p, peers[i].session) || was.action == RequestRetreat)
            && (peers[i].progress.Some? ==> d.action == ExecuteProgress && d.progress == peers[i].progress)
  {
    LegsHaveNoProgress(peers, p);
    hide WellFormed, RebalanceOk, IsLeg, Highest, OrdinaryAction, PlanPriority;
  }

  lemma LegsHaveNoProgress(peers: seq<Peer>, p: RebalanceProposal)
    requires RebalanceOk(peers, p)
    ensures forall i | 0 <= i < |peers| && IsLeg(p, peers[i].session) :: peers[i].progress.None?
  {
    assert DistinctSessions(peers);
    forall i | 0 <= i < |peers| && IsLeg(p, peers[i].session) ensures peers[i].progress.None? {
      var k :| 0 <= k < |p.legs| && p.legs[k].session == peers[i].session;
      assert RetreatLegOk(peers, p.legs[k]);
      SessionFound(peers, peers[i].session, i);
    }
  }
}
