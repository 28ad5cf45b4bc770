/** What the queue promises over whole runs. */
module SubmissionQueueTheorems {
  import opened Common
  import opened SubmissionQueueModel
  import opened SubmissionQueueRuns

  ghost predicate Stepped(s: System, ev: Event, after: System) {
    AllBacked(s.queue) && after == Step(s, ev)
  }

  ghost predicate IsRun(ss: seq<System>, es: seq<Event>) {
    && |ss| == |es| + 1 && Inv(ss[0])
    && forall i | 0 <= i < |es| :: Stepped(ss[i], es[i], ss[i + 1])
  }

  /** A new queue. */
  function Initial(identity: nat, limits: Limits, first: u64): System {
    System(Queue(identity, limits, [], 0, first, true, None, false, false), map[])
  }

  lemma InitialInv(identity: nat, limits: Limits, first: u64)
    requires first != 0
    ensures Inv(Initial(identity, limits, first))
  {
  }

  /** The invariant holds throughout: the bytes charged are those of the payloads not yet destroyed and stay
      within the limit, entries are bounded and in sequence order, at most one is at the driver, and nothing
      that is acknowledged, stopped and released is retained. */
  lemma {:induction false} RunKeeps(ss: seq<System>, es: seq<Event>, i: nat)
    requires IsRun(ss, es) && i <= |es|
    ensures Inv(ss[i])
  {
    hide Inv, Step;
    if i > 0 {
      RunKeeps(ss, es, i - 1);
      assert Stepped(ss[i - 1], es[i - 1], ss[i]);
      var c := StepKeeps(ss[i - 1], es[i - 1]);
    }
  }

  lemma RunLength(ss: seq<System>, es: seq<Event>)
    requires IsRun(ss, es)
    ensures |ss| == |es| + 1
  {
    hide Inv;
  }

  lemma RunChanges(ss: seq<System>, es: seq<Event>, i: nat) returns (c: Change)
    requires IsRun(ss, es) && i < |es|
    ensures Inv(ss[i]) && Inv(ss[i + 1]) && AllBacked(ss[i].queue) && Changed(ss[i], ss[i + 1], c)
            && ss[i + 1] == Step(ss[i], es[i])
  {
    hide Inv, Step, Changed, AllBacked;
    RunKeeps(ss, es, i);
    assert Stepped(ss[i], es[i], ss[i + 1]);
    c := StepKeeps(ss[i], es[i]);
  }

  /** What the invariant says in any state of any run: of the totals, of every two entries and of every entry. */
  lemma QueueAccounting(ss: seq<System>, es: seq<Event>, i: nat)
    requires IsRun(ss, es) && i <= |es|
    ensures var q := ss[i].queue;
            && q.parameterBytes == Charged(q.entries, ss[i].inFlight) <= q.limits.parameterBytes
            && |q.entries| <= q.limits.commands
            && (forall j, k | 0 <= j < k < |q.entries| ::
                  q.entries[j].sequence < q.entries[k].sequence && !(Active(q.entries[j]) && Active(q.entries[k])))
            && (forall j | 0 <= j < |q.entries| ::
                  var e := q.entries[j];
                  && !(e.acknowledged && e.stopped && !e.releasing)
                  && (!e.stopped ==> e.payload.Some? && e.issueBytes <= |e.payload.value|)
                  && (e.releasing && e.payload.None? <==> e.sequence in ss[i].inFlight))
  {
    RunKeeps(ss, es, i);
    hide IsRun;
    forall j | 0 <= j < |ss[i].queue.entries| ensures EntryOk(ss[i].queue.entries[j], ss[i].inFlight) {
      FoundOk(ss[i], j);
    }
  }

  /** An empty queue has nothing charged and nothing in flight, so shutting down then strands no payload. */
  lemma EmptyMeansReleased(s: System)
    requires Inv(s) && Shutdown(s.queue).0
    ensures s.queue.parameterBytes == 0 && s.inFlight == map[]
  {
    assert forall k | k in s.inFlight :: Present(s.queue.entries, k);
    assert s.inFlight.Keys == {};
  }

  // ---------------------------------------------------------------------------
  // Issuing

  function IssuedBy(s: System, ev: Event): Option<Issue>
    requires AllBacked(s.queue)
  {
    match ev
    case TakeEvent(caller, wanted) => TakeNext(s.queue, caller, wanted).0
    case ResumeEvent(caller, t) => Resume(s.queue, caller, t).0
    case _ => None
  }

  /** The generation has been reached, by a sequence already given out. */
  ghost predicate Spent(q: Queue, sequence: u64, generation: nat) {
    && Used(q, sequence)
    && forall i | 0 <= i < |q.entries| && q.entries[i].sequence == sequence :: q.entries[i].generation >= generation
  }

  lemma AppliedEntry(c: Change, entries: seq<Entry>, j: nat) returns (i: nat)
    requires Fits(c, entries) && j < |Apply(c, entries)|
    ensures if c.Append? && j == |entries| then Apply(c, entries)[j] == c.e
            else i < |entries| && Apply(c, entries)[j] == if c.Update? && c.i == i then c.e else entries[i]
  {
    i := if c.Remove? && j >= c.i then j + 1 else j;
  }

  lemma StillUsed(s: System, after: System, c: Change, sequence: u64)
    requires Changed(s, after, c) && Used(s.queue, sequence)
    ensures Used(after.queue, sequence) && (c.Append? ==> c.e.sequence != sequence)
  {
  }

  lemma SpentStays(s: System, after: System, c: Change, sequence: u64, generation: nat)
    requires Changed(s, after, c) && Spent(s.queue, sequence, generation)
    ensures Spent(after.queue, sequence, generation)
  {
    StillUsed(s, after, c, sequence);
    forall j | 0 <= j < |after.queue.entries| && after.queue.entries[j].sequence == sequence
      ensures after.queue.entries[j].generation >= generation
    {
      var i := AppliedEntry(c, s.queue.entries, j);
    }
  }

  lemma {:induction false} SpentForever(ss: seq<System>, es: seq<Event>, i: nat, j: nat, sequence: u64, generation: nat)
    requires IsRun(ss, es) && i <= j <= |es| && Spent(ss[i].queue, sequence, generation)
    ensures Spent(ss[j].queue, sequence, generation)
    decreases j
  {
    hide Inv, Changed, IsRun, Spent, Step, AllBacked;
    RunLength(ss, es);
    if j > i {
      SpentForever(ss, es, i, j - 1, sequence, generation);
      var c := RunChanges(ss, es, j - 1);
      SpentStays(ss[j - 1], ss[j], c, sequence, generation);
    }
  }

  /** An issue happens only on a healthy queue with nothing at the driver, raises its entry's generation to
      the token's, and hands out exactly the issue window of that entry. */
  lemma IssueAdvances(s: System, ev: Event) returns (i: nat)
    requires Inv(s) && AllBacked(s.queue) && IssuedBy(s, ev).Some?
    ensures !s.queue.quarantined && !IsIssuing(s.queue.entries) && i < |s.queue.entries| == |Step(s, ev).queue.entries|
    ensures var e, after, issue := s.queue.entries[i], Step(s, ev).queue.entries[i], IssuedBy(s, ev).value;
            && issue.token == Token(s.queue.identity, e.sequence, after.generation)
            && e.generation < after.generation && Active(after) && after.payload == e.payload
            && e.payload.Some? && e.issueBytes <= |e.payload.value|
            && issue.parameters == e.payload.value[..e.issueBytes]
            && issue.operation == e.operation && issue.context == e.context && issue.stream == e.stream
            && Step(s, ev).queue == Put(s.queue, i, after) && after.sequence == e.sequence
            && !e.stopped
  {
    i := if ev.TakeEvent? then Selected(s.queue, ev.wanted).value else FindIssue(s.queue, ev.token).value;
    FoundOk(s, i);
    hide Inv, AllBacked, IsIssuing, Selected, FindIssue;
  }

  lemma IssueSpends(s: System, ev: Event)
    requires Inv(s) && AllBacked(s.queue) && IssuedBy(s, ev).Some?
    ensures var t := IssuedBy(s, ev).value.token;
            && t.generation > 0 && !Spent(s.queue, t.sequence, t.generation)
            && Spent(Step(s, ev).queue, t.sequence, t.generation)
  {
    var i := IssueAdvances(s, ev);
    assert Used(s.queue, s.queue.entries[i].sequence);
    assert Ordered(s.queue.entries);
    hide Inv, Step, IssuedBy;
    var after := Step(s, ev).queue;
    forall j | 0 <= j < |after.entries| && after.entries[j].sequence == s.queue.entries[i].sequence
      ensures j == i
    {
    }
  }

  /** No token is ever issued twice. */
  lemma TokensAreUnique(ss: seq<System>, es: seq<Event>, i: nat, j: nat)
    requires IsRun(ss, es) && i < j < |es| && AllBacked(ss[i].queue) && AllBacked(ss[j].queue)
    requires IssuedBy(ss[i], es[i]).Some? && IssuedBy(ss[j], es[j]).Some?
    ensures var a, b := IssuedBy(ss[i], es[i]).value.token, IssuedBy(ss[j], es[j]).value.token;
            (a.sequence, a.generation) != (b.sequence, b.generation)
  {
    var a := IssuedBy(ss[i], es[i]).value.token;
    RunKeeps(ss, es, i);
    RunKeeps(ss, es, j);
    assert Stepped(ss[i], es[i], ss[i + 1]);
    IssueSpends(ss[i], es[i]);
    IssueSpends(ss[j], es[j]);
    hide Inv, Step, Spent, IssuedBy, IsRun;
    SpentForever(ss, es, i + 1, j, a.sequence, a.generation);
  }

  /** Steps that act through a token. */
  predicate ByToken(ev: Event) {
    TokenEvent(ev) || ev.PatchEvent?
  }

  lemma StaleTokenFindsNothing(q: Queue, t: Token)
    requires Spent(q, t.sequence, t.generation + 1)
    ensures FindIssue(q, t).None?
  {
  }

  /** A token of an earlier generation changes nothing, for the rest of the run. */
  lemma StaleTokens(ss: seq<System>, es: seq<Event>, i: nat, j: nat)
    requires IsRun(ss, es) && i < j < |es| && AllBacked(ss[i].queue) && IssuedBy(ss[i], es[i]).Some?
    requires ByToken(es[j]) && es[j].token.sequence == IssuedBy(ss[i], es[i]).value.token.sequence
    requires es[j].token.generation < IssuedBy(ss[i], es[i]).value.token.generation
    ensures ss[j + 1] == ss[j]
  {
    var t := es[j].token;
    RunKeeps(ss, es, i);
    assert Stepped(ss[i], es[i], ss[i + 1]);
    assert Stepped(ss[j], es[j], ss[j + 1]);
    IssueSpends(ss[i], es[i]);
    hide Inv, Step, IssuedBy, IsRun;
    SpentForever(ss, es, i + 1, j, t.sequence, t.generation + 1);
    StaleTokenFindsNothing(ss[j].queue, t);
    NoTargetNoEffect(ss[j], es[j]);
  }

  lemma NoTargetNoEffect(s: System, ev: Event)
    requires AllBacked(s.queue) && ByToken(ev) && FindIssue(s.queue, ev.token).None?
    ensures Step(s, ev) == s
  {
    hide AllBacked, FindIssue, IsIssuing;
  }

  // ---------------------------------------------------------------------------
  // Answers

  ghost predicate Answered(q: Queue, sequence: u64, reply: Reply) {
    && Used(q, sequence)
    && forall i | 0 <= i < |q.entries| && q.entries[i].sequence == sequence :: q.entries[i].reply == Some(reply)
  }

  /** A reply is written once; it survives pausing, resuming and everything else until its entry goes, and no
      later entry can be mistaken for that one. */
  lemma {:induction false} RepliesAreFinal(ss: seq<System>, es: seq<Event>, i: nat, j: nat, sequence: u64, reply: Reply)
    requires IsRun(ss, es) && i <= j <= |es| && Answered(ss[i].queue, sequence, reply)
    ensures Answered(ss[j].queue, sequence, reply)
    decreases j
  {
    hide Inv, IsRun, Changed, Answered, Step, AllBacked;
    RunLength(ss, es);
    if j > i {
      RepliesAreFinal(ss, es, i, j - 1, sequence, reply);
      var c := RunChanges(ss, es, j - 1);
      AnswerStays(ss[j - 1], ss[j], c, sequence, reply);
    }
  }

  lemma AnswerStays(s: System, after: System, c: Change, sequence: u64, reply: Reply)
    requires Changed(s, after, c) && Answered(s.queue, sequence, reply)
    ensures Answered(after.queue, sequence, reply)
  {
    StillUsed(s, after, c, sequence);
    forall j | 0 <= j < |after.queue.entries| && after.queue.entries[j].sequence == sequence
      ensures after.queue.entries[j].reply == Some(reply)
    {
      var i := AppliedEntry(c, s.queue.entries, j);
    }
  }

  /** What a client reads is that reply or nothing. */
  lemma ClientsSeeOneReply(ss: seq<System>, es: seq<Event>, i: nat, j: nat, r: Receipt)
    requires IsRun(ss, es) && i <= j <= |es|
    requires HostResult(ss[i].queue, r).Some?
    ensures HostResult(ss[j].queue, r).None? || HostResult(ss[j].queue, r) == HostResult(ss[i].queue, r)
  {
    var q := ss[i].queue;
    var reply := HostResult(q, r).value;
    RunKeeps(ss, es, i);
    var k := Find(q, r).value;
    assert Used(q, q.entries[k].sequence) && Ordered(q.entries);
    assert Answered(q, r.sequence, reply);
    hide Inv, IsRun;
    RepliesAreFinal(ss, es, i, j, r.sequence, reply);
  }

  // ---------------------------------------------------------------------------
  // Quarantine

  /** Quarantine is final: from then on nothing is issued, resumed or accepted. */
  lemma {:induction false} QuarantineIsFinal(ss: seq<System>, es: seq<Event>, i: nat, j: nat)
    requires IsRun(ss, es) && i <= j <= |es| && ss[i].queue.quarantined
    ensures ss[j].queue.quarantined && ss[j].queue.closing && |ss[j].queue.entries| <= |ss[i].queue.entries|
    ensures j < |es| ==> AllBacked(ss[j].queue) && IssuedBy(ss[j], es[j]).None?
    decreases j
  {
    hide Inv, IsRun, Changed, Step, AllBacked, IssuedBy;
    RunLength(ss, es);
    RunKeeps(ss, es, j);
    if j > i {
      QuarantineIsFinal(ss, es, i, j - 1);
      var c := RunChanges(ss, es, j - 1);
      QuarantineStays(ss[j - 1], ss[j], c);
    }
    Quarantining(ss[j]);
    if j < |es| {
      var c := RunChanges(ss, es, j);
      if IssuedBy(ss[j], es[j]).Some? { var k := IssueAdvances(ss[j], es[j]); }
    }
  }

  lemma QuarantineStays(s: System, after: System, c: Change)
    requires Changed(s, after, c) && s.queue.quarantined && s.queue.closing
    ensures after.queue.quarantined && |after.queue.entries| <= |s.queue.entries|
  {
  }

  // ---------------------------------------------------------------------------
  // Order and contents

  /** Left to itself the executor takes the oldest waiting command. */
  lemma OldestFirst(s: System, caller: nat, j: nat)
    requires Inv(s) && AllBacked(s.queue) && IsExecutor(s.queue, caller) && !s.queue.quarantined
             && !IsIssuing(s.queue.entries)
    requires j < |s.queue.entries| && s.queue.entries[j].phase == Queued
    ensures var issue := TakeNext(s.queue, caller, None).0;
            issue.Some? && issue.value.token.sequence <= s.queue.entries[j].sequence
  {
    var i := FirstQueued(s.queue.entries, 0).value;
    if i < j { assert s.queue.entries[i].sequence < s.queue.entries[j].sequence; }
  }

  /** The command with this sequence is the one requested, byte for byte, as long as it is not stopped. */
  ghost predicate Holding(q: Queue, sequence: u64, request: Request) {
    && Used(q, sequence)
    && forall i | 0 <= i < |q.entries| && q.entries[i].sequence == sequence ::
         var e := q.entries[i];
         && e.operation == request.operation && e.context == request.context && e.stream == request.stream
         && (!e.stopped ==> Readable(e) && e.payload.value[..e.issueBytes] == request.parameters)
  }

  /** Steps that rewrite the parameters of this command. */
  predicate Rewrites(ev: Event, sequence: u64) {
    ((ev.LimitEvent? || ev.ReplaceEvent?) && ev.receipt.sequence == sequence)
      || (ev.PatchEvent? && ev.token.sequence == sequence)
  }

  lemma WindowKept(s: System, ev: Event, c: Change)
    requires Inv(s) && AllBacked(s.queue) && Changed(s, Step(s, ev), c) && c.Update? && !c.e.stopped
    requires !Rewrites(ev, c.e.sequence)
    ensures c.e.payload == s.queue.entries[c.i].payload && c.e.issueBytes == s.queue.entries[c.i].issueBytes
  {
    hide Inv, AllBacked, IsIssuing, Changed;
    UpdatedEntry(s, Step(s, ev), c);
    FoundOk(s, c.i);
    hide EntryOk, Preparable;
    PayloadStays(s, ev, c.i);
  }

  lemma UpdatedEntry(s: System, after: System, c: Change)
    requires Changed(s, after, c) && c.Update?
    ensures c.i < |s.queue.entries| == |after.queue.entries| && after.queue.entries[c.i] == c.e
            && c.e.sequence == s.queue.entries[c.i].sequence
  {
  }

  lemma PayloadStays(s: System, ev: Event, i: nat)
    requires Inv(s) && AllBacked(s.queue) && i < |s.queue.entries| == |Step(s, ev).queue.entries|
    requires !Rewrites(ev, s.queue.entries[i].sequence)
             && s.queue.entries[i].sequence == Step(s, ev).queue.entries[i].sequence
    requires !Step(s, ev).queue.entries[i].stopped
    ensures Step(s, ev).queue.entries[i].payload == s.queue.entries[i].payload
    ensures Step(s, ev).queue.entries[i].issueBytes == s.queue.entries[i].issueBytes
  {
    hide Inv, AllBacked, IsIssuing, FindFrom;
    FoundOk(s, i);
  }

  lemma HoldingStays(s: System, ev: Event, c: Change, sequence: u64, request: Request)
    requires Inv(s) && AllBacked(s.queue) && Changed(s, Step(s, ev), c) && Holding(s.queue, sequence, request)
             && !Rewrites(ev, sequence)
    ensures Holding(Step(s, ev).queue, sequence, request)
  {
    var after := Step(s, ev);
    StillUsed(s, after, c, sequence);
    if c.Update? && !c.e.stopped && c.e.sequence == sequence { WindowKept(s, ev, c); }
    hide Step, Inv;
    forall j | 0 <= j < |after.queue.entries| && after.queue.entries[j].sequence == sequence
      ensures var e := after.queue.entries[j];
              && e.operation == request.operation && e.context == request.context && e.stream == request.stream
              && (!e.stopped ==> Readable(e) && e.payload.value[..e.issueBytes] == request.parameters)
    {
      var i := AppliedEntry(c, s.queue.entries, j);
    }
  }

  lemma {:induction false} HoldingForever(ss: seq<System>, es: seq<Event>, i: nat, j: nat, sequence: u64,
    request: Request)
    requires IsRun(ss, es) && i <= j <= |es| && Holding(ss[i].queue, sequence, request)
    requires forall k | i <= k < j :: !Rewrites(es[k], sequence)
    ensures Holding(ss[j].queue, sequence, request)
    decreases j
  {
    hide Inv, IsRun, Changed, Holding, Step, AllBacked;
    RunLength(ss, es);
    if j > i {
      HoldingForever(ss, es, i, j - 1, sequence, request);
      var c := RunChanges(ss, es, j - 1);
      HoldingStays(ss[j - 1], es[j - 1], c, sequence, request);
    }
  }

  lemma AcceptHolds(s: System, ev: Event)
    requires Inv(s) && AllBacked(s.queue) && ev.AcceptEvent?
             && Accept(s.queue, ev.sequence, ev.request, ev.gone, ev.fault).0 == Accepted
    ensures Holding(Step(s, ev).queue, ev.sequence, ev.request)
  {
    var after := Step(s, ev).queue;
    forall i | 0 <= i < |s.queue.entries| ensures s.queue.entries[i].sequence != ev.sequence {
      assert Used(s.queue, s.queue.entries[i].sequence);
    }
  }

  /** End to end: unless it was deliberately rewritten, what reaches the driver, at the first issue and at every
      resumption, is the request that was accepted under that sequence. */
  lemma IssuedAsAccepted(ss: seq<System>, es: seq<Event>, i: nat, j: nat)
    requires IsRun(ss, es) && i < j < |es| && es[i].AcceptEvent?
    requires Accept(ss[i].queue, es[i].sequence, es[i].request, es[i].gone, es[i].fault).0 == Accepted
    requires AllBacked(ss[j].queue) && IssuedBy(ss[j], es[j]).Some?
    requires IssuedBy(ss[j], es[j]).value.token.sequence == es[i].sequence
    requires forall k | i < k < j :: !Rewrites(es[k], es[i].sequence)
    ensures var issue, request := IssuedBy(ss[j], es[j]).value, es[i].request;
            && issue.parameters == request.parameters && issue.operation == request.operation
            && issue.context == request.context && issue.stream == request.stream
  {
    RunKeeps(ss, es, i);
    RunKeeps(ss, es, j);
    assert Stepped(ss[i], es[i], ss[i + 1]);
    AcceptHolds(ss[i], es[i]);
    hide Inv, Step, IssuedBy, Accept;
    HoldingForever(ss, es, i + 1, j, es[i].sequence, es[i].request);
    hide IsRun;
    var k := IssueAdvances(ss[j], es[j]);
  }
}
