/** The idle window over whole runs, composed with the ordinary plan. */
module IdleWindowRuns {
  import opened Common
  import opened ExecutionPriorityModel
  import opened ExecutionPriorityTheorems

  /** A command is issued at some priority, or the owner takes a snapshot and plans. */
  datatype Event = Issued(priority: u32) | Round(peers: seq<Peer>, mode: Mode, now: u64)

  function Granting(w: Window, e: Event): Plan
    requires e.Round?
  {
    Apply(w, e.peers, e.mode, e.now, PlanPriority(e.peers, e.mode)).0
  }

  function Next(w: Window, e: Event): Window {
    match e
    case Issued(priority) => NoteIssue(w, priority)
    case Round(peers, mode, now) => Apply(w, peers, mode, now, PlanPriority(peers, mode)).1
  }

  /** A snapshot that counts: of the right kind, well formed and not earlier than the last. */
  predicate Observed(w: Window, e: Event) {
    && e.Round? && IsPriorityMode(e.mode) && PlanPriority(e.peers, e.mode).valid
    && (w.lastNow.None? || w.lastNow.value <= e.now)
  }

  /** High-priority activity the window takes note of: an issue, or work seen on the device in a snapshot with
      nothing unknown in it. */
  predicate Arms(w: Window, e: Event) {
    if e.Issued? then e.priority >= w.config.priority
    else Observed(w, e) && !AnyUnknown(e.peers) && HighRunning(w.config, e.peers)
  }

  /** An observation of no high-priority work and nothing unknown. */
  predicate Quiet(w: Window, e: Event) {
    Observed(w, e) && !AnyUnknown(e.peers) && !HighWork(w.config, e.peers)
  }

  /** What ends a quiet spell: activity, waiting high-priority work, or unknown state. */
  predicate Disturbs(w: Window, e: Event) {
    if e.Issued? then e.priority >= w.config.priority
    else Observed(w, e) && (AnyUnknown(e.peers) || HighWork(w.config, e.peers))
  }

  /** The window runs afterwards and counts from the beginning: activity, or a disturbance while it already runs. */
  predicate Restarts(w: Window, e: Event) {
    Arms(w, e) || (Disturbs(w, e) && w.active)
  }

  ghost predicate IsRun(ws: seq<Window>, es: seq<Event>) {
    && |ws| == |es| + 1 && Enabled(ws[0]) && ws[0].idleSince.None?
    && forall i | 0 <= i < |es| :: Follows(ws[i], es[i], ws[i + 1])
  }

  ghost predicate Follows(w: Window, e: Event, after: Window) {
    after == Next(w, e)
  }

  lemma OrdinaryMatches(w: Window, e: Event)
    requires e.Round? && PlanPriority(e.peers, e.mode).valid
    ensures Matches(w, e.peers, e.now, PlanPriority(e.peers, e.mode)) <==> w.lastNow.None? || w.lastNow.value <= e.now
    ensures |PlanPriority(e.peers, e.mode).decisions| == |e.peers|
  {
    CommandOnlyWithExecute(e.peers, e.mode);
    hide Decide;
    assert |e.peers| <= MAX_PEERS;
    forall i | 0 <= i < |e.peers| ensures PlanPriority(e.peers, e.mode).decisions[i].session == e.peers[i].session {
      DecideNames(e.peers, e.mode, i);
    }
    hide PlanPriority;
  }

  lemma DecideNames(peers: seq<Peer>, mode: Mode, i: nat)
    requires i < |peers|
    ensures Decide(peers, mode, i).session == peers[i].session
  {
    hide AnyUnknown, OrdinaryAction;
  }

  /** The window after one event, by what the event was. */
  lemma NextIs(w: Window, e: Event)
    requires Enabled(w)
    ensures var after := Next(w, e);
            && after.config == w.config
            && (Arms(w, e) ==> after.active && after.idleSince.None?)
            && (!Arms(w, e) && Disturbs(w, e) ==> after.active == w.active && after.idleSince.None?)
            && (Quiet(w, e) ==>
                  if !w.active then !after.active && after.idleSince == w.idleSince
                  else
                    var since := if w.idleSince.None? then e.now else w.idleSince.value;
                    if e.now >= since && e.now - since >= w.config.duration then !after.active && after.idleSince.None?
                    else after.active && after.idleSince == Some(since))
            && (!Arms(w, e) && !Disturbs(w, e) && !Quiet(w, e) ==> after == w)
  {
    hide PlanPriority, Matches, AnyUnknown, HighWork, HighRunning;
    if e.Round? {
      RunningIsWork(w.config, e.peers);
      if PlanPriority(e.peers, e.mode).valid { OrdinaryMatches(w, e); }
    }
  }

  lemma RunningIsWork(config: WindowConfig, peers: seq<Peer>)
    ensures HighRunning(config, peers) ==> HighWork(config, peers)
  {
    if HighRunning(config, peers) {
      var i :| 0 <= i < |peers| && peers[i].priority >= config.priority && peers[i].running;
      assert HasWork(peers[i]);
    }
  }

  /** Some peer below the threshold is allowed to execute. */
  ghost predicate GrantsLow(w: Window, e: Event) {
    && e.Round? && IsPriorityMode(e.mode) && Granting(w, e).valid && |Granting(w, e).decisions| == |e.peers|
    && exists i | 0 <= i < |e.peers| ::
         e.peers[i].priority < w.config.priority && Granting(w, e).decisions[i].action == Execute
  }

  /** While the window is running no low grant is made; otherwise grants are those of the ordinary plan, which
      makes none while high-priority work is present or anything is unknown. */
  lemma GrantsLowOnlyWhenOpen(w: Window, e: Event)
    requires Enabled(w) && GrantsLow(w, e)
    ensures Quiet(w, e) && !Next(w, e).active
  {
    hide PlanPriority, Matches, AnyUnknown, HighWork, HighRunning, Decide;
    var i :| 0 <= i < |e.peers| && e.peers[i].priority < w.config.priority
      && Granting(w, e).decisions[i].action == Execute;
    OrdinaryMatches(w, e);
    CommandOnlyWithExecute(e.peers, e.mode);
    ExecuteMeansNoHighWork(w, e, i);
    NextIs(w, e);
  }

  lemma ExecuteMeansNoHighWork(w: Window, e: Event, i: nat)
    requires e.Round? && IsPriorityMode(e.mode) && PlanPriority(e.peers, e.mode).valid && i < |e.peers|
    requires |PlanPriority(e.peers, e.mode).decisions| == |e.peers|
    requires e.peers[i].priority < w.config.priority && PlanPriority(e.peers, e.mode).decisions[i].action == Execute
    ensures !AnyUnknown(e.peers) && !HighWork(w.config, e.peers)
  {
    forall j | 0 <= j < |e.peers|
      ensures !e.peers[j].unknown && !(e.peers[j].priority >= w.config.priority && HasWork(e.peers[j]))
    {
      ExecuteIsSafe(e.peers, e.mode, i, j);
    }
  }

  // ---------------------------------------------------------------------------
  // Runs

  /** From event k to event m nothing disturbs, both observe no high-priority work, and the duration passes. */
  ghost predicate Spell(ws: seq<Window>, es: seq<Event>, k: nat, m: nat) {
    && k <= m < |es| < |ws| && Quiet(ws[k], es[k]) && Quiet(ws[m], es[m])
    && es[m].now >= es[k].now + ws[m].config.duration
    && Undisturbed(ws, es, k, m + 1)
  }

  ghost predicate Undisturbed(ws: seq<Window>, es: seq<Event>, k: nat, j: nat) {
    k <= j <= |es| < |ws| && forall n | k <= n < j :: !Disturbs(ws[n], es[n])
  }

  ghost predicate Elapsed(ws: seq<Window>, es: seq<Event>, i: nat, j: nat) {
    exists k: nat, m: nat :: i < k && m < j && Spell(ws, es, k, m)
  }

  /** The quiet spell under way began at time t, after event i. */
  ghost predicate Started(ws: seq<Window>, es: seq<Event>, i: nat, j: nat, t: u64) {
    exists k: nat :: i < k < j && Undisturbed(ws, es, k, j) && Quiet(ws[k], es[k]) && es[k].now == t
  }

  lemma {:induction false} RunEnabled(ws: seq<Window>, es: seq<Event>, i: nat)
    requires IsRun(ws, es) && i <= |es|
    ensures |ws| == |es| + 1 && Enabled(ws[i]) && ws[i].config == ws[0].config
    ensures i < |es| ==> ws[i + 1] == Next(ws[i], es[i])
  {
    hide Next;
    if i > 0 {
      RunEnabled(ws, es, i - 1);
      NextIs(ws[i - 1], es[i - 1]);
    }
    if i < |es| { assert Follows(ws[i], es[i], ws[i + 1]); }
  }

  lemma StartedLonger(ws: seq<Window>, es: seq<Event>, i: nat, j: nat, t: u64)
    requires j < |es| < |ws| && Started(ws, es, i, j, t) && !Disturbs(ws[j], es[j])
    ensures Started(ws, es, i, j + 1, t)
  {
    hide Disturbs;
    var k: nat :| i < k < j && Undisturbed(ws, es, k, j) && Quiet(ws[k], es[k]) && es[k].now == t;
    assert Undisturbed(ws, es, k, j + 1);
  }

  lemma StartsNow(ws: seq<Window>, es: seq<Event>, i: nat, j: nat)
    requires i < j < |es| < |ws| && Quiet(ws[j], es[j])
    ensures Started(ws, es, i, j + 1, es[j].now)
  {
    assert Undisturbed(ws, es, j, j + 1);
  }

  lemma SpellEnds(ws: seq<Window>, es: seq<Event>, i: nat, j: nat, t: u64)
    requires j < |es| < |ws| && Started(ws, es, i, j, t) && Quiet(ws[j], es[j])
             && es[j].now >= t + ws[j].config.duration
    ensures Elapsed(ws, es, i, j + 1)
  {
    var k: nat :| i < k < j && Undisturbed(ws, es, k, j) && Quiet(ws[k], es[k]) && es[k].now == t;
    assert !Disturbs(ws[j], es[j]);
    hide Disturbs, Quiet;
    assert Undisturbed(ws, es, k, j + 1);
    assert Spell(ws, es, k, j);
  }

  lemma ElapsedLonger(ws: seq<Window>, es: seq<Event>, i: nat, j: nat)
    requires Elapsed(ws, es, i, j)
    ensures Elapsed(ws, es, i, j + 1)
  {
    hide Spell;
    var k: nat, m: nat :| i < k && m < j && Spell(ws, es, k, m);
  }

  /** After the window was started or restarted at event i, its state remembers exactly what has happened since. */
  lemma {:induction false} WindowRemembers(ws: seq<Window>, es: seq<Event>, i: nat, j: nat)
    requires IsRun(ws, es) && i < j <= |es| && Restarts(ws[i], es[i])
    ensures !ws[j].active ==> Elapsed(ws, es, i, j)
    ensures ws[j].idleSince.Some? ==> Started(ws, es, i, j, ws[j].idleSince.value)
    decreases j
  {
    hide IsRun, Next, Elapsed, Started, Arms;
    var n := j - 1;
    RunEnabled(ws, es, n);
    NextIs(ws[n], es[n]);
    if n > i {
      WindowRemembers(ws, es, i, n);
      StepRemembers(ws, es, i, n);
    }
  }

  lemma StepRemembers(ws: seq<Window>, es: seq<Event>, i: nat, n: nat)
    requires i < n < |es| < |ws| && Enabled(ws[n]) && ws[n + 1] == Next(ws[n], es[n])
    requires !ws[n].active ==> Elapsed(ws, es, i, n)
    requires ws[n].idleSince.Some? ==> Started(ws, es, i, n, ws[n].idleSince.value)
    ensures !ws[n + 1].active ==> Elapsed(ws, es, i, n + 1)
    ensures ws[n + 1].idleSince.Some? ==> Started(ws, es, i, n + 1, ws[n + 1].idleSince.value)
  {
    var w, e := ws[n], es[n];
    NextIs(w, e);
    if Quiet(w, e) { QuietIsCalm(w, e); }
    hide Next, Elapsed, Started, Quiet, Disturbs, Arms;
    if !w.active { ElapsedLonger(ws, es, i, n); }
    if Disturbs(w, e) || Arms(w, e) {
    } else if w.idleSince.Some? {
      StartedLonger(ws, es, i, n, w.idleSince.value);
      if Quiet(w, e) && w.active && e.now >= w.idleSince.value + w.config.duration {
        SpellEnds(ws, es, i, n, w.idleSince.value);
      }
    } else if Quiet(w, e) {
      StartsNow(ws, es, i, n);
    }
  }

  lemma QuietIsCalm(w: Window, e: Event)
    requires Quiet(w, e)
    ensures !Disturbs(w, e) && !Arms(w, e)
  {
    RunningIsWork(w.config, e.peers);
  }

  /** After high-priority activity the window took note of, and after anything that disturbed it while it ran
      (waiting high-priority work or unknown state as much as new activity), no peer below the threshold is
      allowed to execute before a whole quiet spell: undisturbed observations without high-priority work, for at
      least the configured time since the first of them. */
  lemma LowGrantsWait(ws: seq<Window>, es: seq<Event>, i: nat, j: nat) returns (k: nat, m: nat)
    requires IsRun(ws, es) && i < j < |es| && Restarts(ws[i], es[i]) && GrantsLow(ws[j], es[j])
    ensures i < k <= m <= j && Spell(ws, es, k, m)
  {
    RunEnabled(ws, es, j);
    hide IsRun, Next, Spell;
    GrantsLowOnlyWhenOpen(ws[j], es[j]);
    WindowRemembers(ws, es, i, j + 1);
    k, m :| i < k && m < j + 1 && Spell(ws, es, k, m);
    SpellOrder(ws, es, k, m);
  }

  lemma SpellOrder(ws: seq<Window>, es: seq<Event>, k: nat, m: nat)
    requires Spell(ws, es, k, m)
    ensures k <= m
  {
  }

  // ---------------------------------------------------------------------------
  // Activity the window does not take note of: a snapshot with an unknown peer in it is not looked at further.

  function PeerAt(session: u64, priority: u32): Peer {
    Peer(session, priority, false, false, false, false, None, 0, None, None, None)
  }

  /** One peer, ready to start. */
  function ReadyRound(priority: u32, now: u64): Event {
    Round([PeerAt(2, priority).(ready := true)], Priority, now)
  }

  /** A window that is not running lets a peer below the threshold start when it is alone. */
  lemma LowAloneExecutes(w: Window, priority: u32, now: u64)
    requires Enabled(w) && !w.active && priority < w.config.priority && (w.lastNow.None? || w.lastNow.value <= now)
    ensures GrantsLow(w, ReadyRound(priority, now))
  {
    var peers := ReadyRound(priority, now).peers;
    assert WellFormed(peers);
    assert Highest(peers, Priority, 1) == Some(priority);
    assert Decide(peers, Priority, 0).action == Execute;
    assert Granting(w, ReadyRound(priority, now)).decisions[0].action == Execute;
  }

  /** High-priority work seen on the device, and a permission below the threshold in the next snapshot. */
  lemma ActivityCanGoUnnoticed()
    ensures var w := Window(WindowConfig(5, 100), None, None, false);
            var busy := Round([PeerAt(1, 9).(running := true), PeerAt(2, 1).(unknown := true)], Priority, 10);
            && Enabled(w) && Observed(w, busy) && HighRunning(w.config, busy.peers)
            && GrantsLow(Next(w, busy), ReadyRound(1, 11))
  {
    var w := Window(WindowConfig(5, 100), None, None, false);
    var busy := Round([PeerAt(1, 9).(running := true), PeerAt(2, 1).(unknown := true)], Priority, 10);
    assert busy.peers[0].running && busy.peers[1].unknown;
    assert WellFormed(busy.peers);
    LowAloneExecutes(Next(w, busy), 1, 11);
  }

  /** After high-priority work was seen on the device, the next snapshot can allow a peer below the threshold to
      execute exactly when the first one had an unknown peer in it and the window was not already running. */
  lemma ActivityUnnoticedIff(w: Window, a: Event)
    requires Enabled(w) && Observed(w, a) && HighRunning(w.config, a.peers)
    ensures (exists b :: GrantsLow(Next(w, a), b)) <==> AnyUnknown(a.peers) && !w.active
  {
    NextIs(w, a);
    RunningIsWork(w.config, a.peers);
    if AnyUnknown(a.peers) && !w.active { LowAloneExecutes(Next(w, a), 0, a.now); }
    forall b | GrantsLow(Next(w, a), b) ensures AnyUnknown(a.peers) && !w.active {
      GrantsLowOnlyWhenOpen(Next(w, a), b);
      NextIs(Next(w, a), b);
    }
  }

  // ---------------------------------------------------------------------------
  // The window does open again.

  /** A spell under way began no later than the last observation. */
  predicate Timely(w: Window) {
    w.idleSince.Some? ==> w.active && w.lastNow.Some? && w.idleSince.value <= w.lastNow.value
  }

  lemma NextTimely(w: Window, e: Event)
    requires Enabled(w) && Timely(w)
    ensures Timely(Next(w, e)) && (Quiet(w, e) && Next(w, e).idleSince.Some? ==> Next(w, e).idleSince.value <= e.now)
  {
    hide PlanPriority, AnyUnknown, HighWork, HighRunning, Matches;
    if e.Round? && PlanPriority(e.peers, e.mode).valid {
      OrdinaryMatches(w, e);
    }
  }

  lemma {:induction false} RunTimely(ws: seq<Window>, es: seq<Event>, i: nat)
    requires IsRun(ws, es) && i <= |es|
    ensures Timely(ws[i])
  {
    hide Next;
    if i > 0 {
      RunTimely(ws, es, i - 1);
      RunEnabled(ws, es, i - 1);
      hide IsRun;
      NextTimely(ws[i - 1], es[i - 1]);
    }
  }

  /** Through an undisturbed stretch the window stays closed since no later than its start, or is open. */
  lemma {:induction false} SpellLasts(ws: seq<Window>, es: seq<Event>, k: nat, j: nat)
    requires IsRun(ws, es) && k < j <= |es| && Quiet(ws[k], es[k]) && Undisturbed(ws, es, k, j)
    ensures !ws[j].active || (ws[j].idleSince.Some? && ws[j].idleSince.value <= es[k].now)
    decreases j
  {
    var n := j - 1;
    RunEnabled(ws, es, n);
    RunTimely(ws, es, n);
    assert !Disturbs(ws[n], es[n]) && |es| < |ws|;
    CalmDoesNotArm(ws[n], es[n]);
    hide Next, Disturbs, Arms, Quiet;
    NextIs(ws[n], es[n]);
    NextTimely(ws[n], es[n]);
    if n > k {
      assert Undisturbed(ws, es, k, n);
      SpellLasts(ws, es, k, n);
    }
  }

  lemma CalmDoesNotArm(w: Window, e: Event)
    requires !Disturbs(w, e)
    ensures !Arms(w, e)
  {
    if e.Round? { RunningIsWork(w.config, e.peers); }
  }

  /** At the end of a quiet spell the ordinary plan applies in full. */
  lemma QuietSpellReopens(ws: seq<Window>, es: seq<Event>, k: nat, m: nat)
    requires IsRun(ws, es) && Spell(ws, es, k, m)
    ensures Granting(ws[m], es[m]) == PlanPriority(es[m].peers, es[m].mode)
  {
    RunEnabled(ws, es, m);
    RunTimely(ws, es, m);
    if k < m {
      assert Undisturbed(ws, es, k, m);
      SpellLasts(ws, es, k, m);
    }
    OpensWhenElapsed(ws[m], es[m], es[k].now);
  }

  lemma OpensWhenElapsed(w: Window, e: Event, t: u64)
    requires Enabled(w) && Quiet(w, e) && e.now >= t + w.config.duration
    requires !w.active || (w.idleSince.Some? && w.idleSince.value <= t)
    ensures Granting(w, e) == PlanPriority(e.peers, e.mode)
  {
    hide PlanPriority, Matches, AnyUnknown, HighWork, HighRunning;
    OrdinaryMatches(w, e);
    QuietIsCalm(w, e);
  }

  /** Whatever plan it is applied to, the window only takes permissions away, and only from peers below the
      threshold. */
  lemma WindowNarrows(w: Window, peers: seq<Peer>, mode: Mode, now: u64, plan: Plan)
    requires plan.valid && |plan.decisions| == |peers|
    requires forall i | 0 <= i < |plan.decisions| ::
               plan.decisions[i].command.Some? ==> plan.decisions[i].action == Execute
    requires Apply(w, peers, mode, now, plan).0.valid
    ensures Narrows(Apply(w, peers, mode, now, plan).0, plan)
    ensures forall i | 0 <= i < |peers| && peers[i].priority >= w.config.priority ::
              Apply(w, peers, mode, now, plan).0.decisions[i] == plan.decisions[i]
  {
    hide AnyUnknown, HighWork, HighRunning, Matches;
  }
}
