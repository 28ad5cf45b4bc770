/** Every interleaving of the queue's locked sections, with the payload releases that other calls can fall
    between. */
module SubmissionQueueRuns {
  import opened Common
  import opened SubmissionQueueModel

  /** `inFlight`: payloads taken from their entries and not yet discharged, by sequence. */
  datatype System = System(queue: Queue, inFlight: map<u64, nat>)

  datatype Event =
    | BindEvent(caller: nat, gone: bool)
    | AcceptEvent(sequence: u64, request: Request, gone: bool, fault: bool)
    | AcknowledgeEvent(receipt: Receipt)
    | CloseEvent
    | QuarantineEvent
    | TakeEvent(caller: nat, wanted: Option<Receipt>)
    | LimitEvent(caller: nat, receipt: Receipt, bytes: nat)
    | ReplaceEvent(caller: nat, receipt: Receipt, input: seq<u8>)
    | PatchEvent(caller: nat, token: Token, offset: nat, input: seq<u8>)
    | PublishEvent(caller: nat, token: Token, status: int)
    | PreparationFailureEvent(caller: nat, token: Token, status: int)
    | UncertainEvent(caller: nat, token: Token, status: int)
    | PauseEvent(caller: nat, token: Token)
    | ResumeEvent(caller: nat, token: Token)
    | FinishContinuationEvent(caller: nat, token: Token)
    | RejectUnissuedEvent(caller: nat, receipt: Receipt, status: int)
    | RejectIssueEvent(caller: nat, token: Token, status: int)
    | CompleteEvent(caller: nat, token: Token)
    | TakePayloadEvent(sequence: u64)
    | DischargeEvent(sequence: u64)

  function Step(s: System, e: Event): System
    requires AllBacked(s.queue)
  {
    var q := s.queue;
    match e
    case BindEvent(caller, gone) => s.(queue := BindExecutor(q, caller, gone).1)
    case AcceptEvent(sequence, request, gone, fault) => s.(queue := Accept(q, sequence, request, gone, fault).1)
    case AcknowledgeEvent(r) => s.(queue := Acknowledge(q, r).1)
    case CloseEvent => s.(queue := Close(q))
    case QuarantineEvent => s.(queue := Lockdown(q))
    case TakeEvent(caller, wanted) => s.(queue := TakeNext(q, caller, wanted).1)
    case LimitEvent(caller, r, bytes) => s.(queue := LimitUnissued(q, caller, r, bytes).1)
    case ReplaceEvent(caller, r, input) => s.(queue := ReplaceUnissued(q, caller, r, input).1)
    case PatchEvent(caller, t, offset, input) => s.(queue := PatchIssue(q, caller, t, offset, input).1)
    case PublishEvent(caller, t, status) => s.(queue := PublishHostResult(q, caller, t, status).1)
    case PreparationFailureEvent(caller, t, status) => s.(queue := PublishPreparationFailure(q, caller, t, status).1)
    case UncertainEvent(caller, t, status) => s.(queue := FailUncertain(q, caller, t, status).1)
    case PauseEvent(caller, t) => s.(queue := Pause(q, caller, t).1)
    case ResumeEvent(caller, t) => s.(queue := Resume(q, caller, t).1)
    case FinishContinuationEvent(caller, t) => s.(queue := FinishContinuation(q, caller, t).1)
    case RejectUnissuedEvent(caller, r, status) => s.(queue := RejectUnissued(q, caller, r, status).1)
    case RejectIssueEvent(caller, t, status) => s.(queue := RejectBeforeNative(q, caller, t, status).1)
    case CompleteEvent(caller, t) => s.(queue := Complete(q, caller, t).1)
    case TakePayloadEvent(sequence) =>
      var i := FindFrom(q.entries, sequence, 0);
      if i.None? || !q.entries[i.value].releasing || q.entries[i.value].payload.None? then s
      else
        var (bytes, after) := TakePayload(q, i.value);
        System(after, s.inFlight[sequence := bytes])
    case DischargeEvent(sequence) =>
      var i := FindFrom(q.entries, sequence, 0);
      if i.None? || sequence !in s.inFlight || s.inFlight[sequence] > q.parameterBytes then s
      else System(FinishRelease(q, i.value, s.inFlight[sequence]), s.inFlight - {sequence})
  }

  // ---------------------------------------------------------------------------
  // Bytes charged

  /** A payload counts until it has been destroyed, wherever it is. */
  function Charge(e: Entry, inFlight: map<u64, nat>): nat {
    if e.payload.Some? then |e.payload.value| else if e.sequence in inFlight then inFlight[e.sequence] else 0
  }

  function Charged(entries: seq<Entry>, inFlight: map<u64, nat>): nat {
    if entries == [] then 0
    else Charged(entries[..|entries| - 1], inFlight) + Charge(entries[|entries| - 1], inFlight)
  }

  lemma {:induction false} ChargedUpdate(entries: seq<Entry>, i: nat, e: Entry, before: map<u64, nat>,
    after: map<u64, nat>)
    requires i < |entries|
    requires forall j | 0 <= j < |entries| && j != i :: Charge(entries[j], before) == Charge(entries[j], after)
    ensures Charged(entries[i := e], after) + Charge(entries[i], before) == Charged(entries, before) + Charge(e, after)
  {
    var n := |entries| - 1;
    var moved := entries[i := e];
    if i == n {
      assert moved[..n] == entries[..n];
      ChargedSame(entries[..n], before, after);
    } else {
      assert moved[..n] == entries[..n][i := e];
      ChargedUpdate(entries[..n], i, e, before, after);
    }
  }

  lemma {:induction false} ChargedSame(entries: seq<Entry>, before: map<u64, nat>, after: map<u64, nat>)
    requires forall j | 0 <= j < |entries| :: Charge(entries[j], before) == Charge(entries[j], after)
    ensures Charged(entries, before) == Charged(entries, after)
  {
    if entries != [] { ChargedSame(entries[..|entries| - 1], before, after); }
  }

  lemma {:induction false} ChargedRemove(entries: seq<Entry>, i: nat, inFlight: map<u64, nat>)
    requires i < |entries|
    ensures Charged(entries[..i] + entries[i + 1..], inFlight) + Charge(entries[i], inFlight)
            == Charged(entries, inFlight)
  {
    var n := |entries| - 1;
    var rest := entries[..i] + entries[i + 1..];
    if i == n {
      assert rest == entries[..n];
    } else {
      assert rest[..n - 1] == entries[..n][..i] + entries[..n][i + 1..];
      assert rest[n - 1] == entries[n];
      ChargedRemove(entries[..n], i, inFlight);
    }
  }

  lemma {:induction false} ChargeAtMost(entries: seq<Entry>, i: nat, inFlight: map<u64, nat>)
    requires i < |entries|
    ensures Charge(entries[i], inFlight) <= Charged(entries, inFlight)
  {
    ChargedRemove(entries, i, inFlight);
  }

  // ---------------------------------------------------------------------------
  // The invariant

  predicate EntryOk(e: Entry, inFlight: map<u64, nat>) {
    && e.sequence != 0
    && (e.releasing && e.payload.None? <==> e.sequence in inFlight)
    && (!e.stopped ==> Readable(e) && !e.releasing)
    && (e.stopped ==> e.phase == HostReturned)
    && (e.stopped && !e.releasing ==> e.payload.None? && !e.acknowledged)
    && (e.reply.None? <==> e.phase == Queued || e.phase == Issuing)
    && (e.acknowledged ==> e.reply.Some?)
    && (e.phase == Queued ==> e.generation == 0)
    && (e.phase == Issuing ==> e.generation == 1)
    && (e.phase == Resuming ==> e.generation >= 2)
    && (!e.stopped && e.phase != Queued ==> e.generation != 0)
    && (e.phase == Paused || e.phase == Resuming ==> e.reply == Some(Reply(0, NativeSdk)))
  }

  /** Sequences already given out. */
  predicate Used(q: Queue, sequence: u64) {
    sequence < q.nextSequence || (!q.hasSpace && sequence == q.nextSequence)
  }

  ghost predicate Ordered(entries: seq<Entry>) {
    forall i, j | 0 <= i < j < |entries| :: entries[i].sequence < entries[j].sequence
  }

  ghost predicate AtMostOneActive(entries: seq<Entry>) {
    forall i, j | 0 <= i < j < |entries| :: !(Active(entries[i]) && Active(entries[j]))
  }

  ghost predicate EntriesOk(s: System) {
    forall i | 0 <= i < |s.queue.entries| ::
        EntryOk(s.queue.entries[i], s.inFlight) && Used(s.queue, s.queue.entries[i].sequence)
  }

  ghost predicate Present(entries: seq<Entry>, sequence: u64) {
    exists i | 0 <= i < |entries| :: entries[i].sequence == sequence
  }

  ghost predicate Inv(s: System) {
    && |s.queue.entries| <= s.queue.limits.commands
    && s.queue.parameterBytes == Charged(s.queue.entries, s.inFlight) <= s.queue.limits.parameterBytes
    && Ordered(s.queue.entries) && AtMostOneActive(s.queue.entries) && EntriesOk(s)
    && (forall k | k in s.inFlight :: Present(s.queue.entries, k))
    && (s.queue.quarantined ==> s.queue.closing)
    && (!s.queue.hasSpace ==> s.queue.nextSequence == U64_MAX)
    && s.queue.nextSequence != 0
  }

  lemma InvBacks(s: System)
    requires EntriesOk(s)
    ensures AllBacked(s.queue)
  {
    forall i | 0 <= i < |s.queue.entries| ensures Backed(s.queue.entries[i]) {
      assert EntryOk(s.queue.entries[i], s.inFlight);
    }
  }

  // ---------------------------------------------------------------------------
  // Every step touches at most one entry

  datatype Change = Keep | Update(i: nat, e: Entry) | Append(e: Entry) | Remove(i: nat)

  predicate Fits(c: Change, entries: seq<Entry>) {
    (c.Update? || c.Remove?) ==> c.i < |entries|
  }

  function Apply(c: Change, entries: seq<Entry>): seq<Entry>
    requires Fits(c, entries)
  {
    match c
    case Keep => entries
    case Update(i, e) => entries[i := e]
    case Append(e) => entries + [e]
    case Remove(i) => entries[..i] + entries[i + 1..]
  }

  /** What may happen to an entry that stays. */
  predicate Advances(e: Entry, after: Entry) {
    && after.sequence == e.sequence && after.operation == e.operation && after.context == e.context
    && after.stream == e.stream
    && e.generation <= after.generation
    && (e.reply.Some? ==> after.reply == e.reply)
    && (e.acknowledged ==> after.acknowledged) && (e.stopped ==> after.stopped)
    && (e.phase != Queued ==> after.phase != Queued)
  }

  /** The result of a step, by the entry it touches. */
  ghost predicate Changed(s: System, after: System, c: Change) {
    && Fits(c, s.queue.entries) && after.queue.entries == Apply(c, s.queue.entries)
    && after.queue.limits == s.queue.limits && after.queue.identity == s.queue.identity
    && (s.queue.quarantined ==> after.queue.quarantined) && (s.queue.closing ==> after.queue.closing)
    && (s.queue.executor.Some? ==> after.queue.executor == s.queue.executor)
    && (if c.Append? then
          && !s.queue.closing && s.queue.hasSpace && c.e.sequence == s.queue.nextSequence && c.e.generation == 0
          && c.e.phase == Queued
          && after.queue.hasSpace == (s.queue.nextSequence != U64_MAX)
          && after.queue.nextSequence == (if s.queue.nextSequence == U64_MAX then U64_MAX else s.queue.nextSequence + 1)
        else after.queue.nextSequence == s.queue.nextSequence && after.queue.hasSpace == s.queue.hasSpace)
    && (c.Update? ==> Advances(s.queue.entries[c.i], c.e))
    && (c.Remove? ==> s.queue.entries[c.i].stopped && s.queue.entries[c.i].reply.Some?)
  }

  /** Only flags differ. */
  ghost predicate OnlyFlags(q: Queue, after: Queue) {
    && after == q.(executor := after.executor, closing := after.closing, quarantined := after.quarantined)
    && (q.quarantined ==> after.quarantined) && (q.closing ==> after.closing) && (after.quarantined ==> after.closing)
    && (q.executor.Some? ==> after.executor == q.executor)
  }

  lemma FlagsKeep(s: System, after: System)
    requires Inv(s) && after.inFlight == s.inFlight && OnlyFlags(s.queue, after.queue)
    ensures Inv(after) && Changed(s, after, Keep)
  {
  }

  /** One entry moves on where it stands. */
  lemma UpdateKeeps(s: System, after: System, i: nat, e: Entry)
    requires Inv(s) && i < |s.queue.entries| && Advances(s.queue.entries[i], e)
    requires OnlyFlags(s.queue, after.queue.(entries := s.queue.entries, parameterBytes := s.queue.parameterBytes))
    requires after.queue.entries == s.queue.entries[i := e] && EntryOk(e, after.inFlight)
    requires Active(e) ==> Active(s.queue.entries[i]) || !IsIssuing(s.queue.entries)
    requires forall k: u64 | k != e.sequence ::
               (k in s.inFlight <==> k in after.inFlight) && (k in s.inFlight ==> s.inFlight[k] == after.inFlight[k])
    requires after.queue.parameterBytes + Charge(s.queue.entries[i], s.inFlight) == s.queue.parameterBytes
             + Charge(e, after.inFlight)
    requires after.queue.parameterBytes <= s.queue.limits.parameterBytes
    ensures Inv(after) && Changed(s, after, Update(i, e))
  {
    var was, becomes := s.queue.entries, after.queue.entries;
    hide EntryOk, Used, Advances;
    forall j | 0 <= j < |was| && j != i
      ensures Charge(was[j], s.inFlight) == Charge(was[j], after.inFlight) && was[j].sequence != e.sequence
    {
      assert was[j].sequence != was[i].sequence;
      DistinctSequence(s, i, j, e);
    }
    ChargedUpdate(was, i, e, s.inFlight, after.inFlight);
    OthersStay(s, after, i, e);
  }

  lemma DistinctSequence(s: System, i: nat, j: nat, e: Entry)
    requires i < |s.queue.entries| && j < |s.queue.entries| && i != j && Ordered(s.queue.entries)
             && Advances(s.queue.entries[i], e)
    ensures s.queue.entries[j].sequence != e.sequence
  {
  }

  lemma OthersStay(s: System, after: System, i: nat, e: Entry)
    requires EntriesOk(s) && Ordered(s.queue.entries) && i < |s.queue.entries| && Advances(s.queue.entries[i], e)
    requires after.queue.entries == s.queue.entries[i := e] && EntryOk(e, after.inFlight)
    requires after.queue.nextSequence == s.queue.nextSequence && after.queue.hasSpace == s.queue.hasSpace
    requires forall k: u64 | k != e.sequence ::
               (k in s.inFlight <==> k in after.inFlight) && (k in s.inFlight ==> s.inFlight[k] == after.inFlight[k])
    requires forall k | k in s.inFlight :: Present(s.queue.entries, k)
    ensures EntriesOk(after) && Ordered(after.queue.entries)
    ensures forall k | k in after.inFlight :: Present(after.queue.entries, k)
  {
    forall j | 0 <= j < |after.queue.entries|
      ensures EntryOk(after.queue.entries[j], after.inFlight) && Used(after.queue, after.queue.entries[j].sequence)
    {
      assert EntryOk(s.queue.entries[j], s.inFlight) && Used(s.queue, s.queue.entries[j].sequence);
      if j != i { assert s.queue.entries[j].sequence != s.queue.entries[i].sequence; }
    }
    forall k | k in after.inFlight ensures Present(after.queue.entries, k) {
      if k == e.sequence {
        assert after.queue.entries[i].sequence == k;
      } else {
        var j :| 0 <= j < |s.queue.entries| && s.queue.entries[j].sequence == k;
        assert after.queue.entries[j].sequence == k;
      }
    }
  }

  /** An entry leaves, with whatever it had in flight. */
  lemma RemoveKeeps(s: System, after: System, i: nat)
    requires Inv(s) && i < |s.queue.entries|
    requires after.queue == s.queue.(entries := s.queue.entries[..i] + s.queue.entries[i + 1..],
             parameterBytes := after.queue.parameterBytes)
    requires s.queue.entries[i].stopped && s.queue.entries[i].reply.Some?
    requires after.inFlight == s.inFlight - {s.queue.entries[i].sequence}
    requires after.queue.parameterBytes + Charge(s.queue.entries[i], s.inFlight) == s.queue.parameterBytes
    ensures Inv(after) && Changed(s, after, Remove(i))
  {
    var before, rest := s.queue.entries, after.queue.entries;
    hide EntryOk, Used, Charged, Charge, Ordered, AtMostOneActive, Present;
    ChargedRemove(before, i, s.inFlight);
    RestOrdered(before, i);
    forall j | 0 <= j < |rest|
      ensures EntryOk(rest[j], after.inFlight) && Used(after.queue, rest[j].sequence)
              && Charge(rest[j], s.inFlight) == Charge(rest[j], after.inFlight)
    {
      RestOk(s, after, i, j);
    }
    ChargedSame(rest, s.inFlight, after.inFlight);
    forall k | k in after.inFlight ensures Present(rest, k) {
      RestPresent(before, i, k);
    }
  }

  lemma RestOrdered(entries: seq<Entry>, i: nat)
    requires i < |entries| && Ordered(entries) && AtMostOneActive(entries)
    ensures Ordered(entries[..i] + entries[i + 1..]) && AtMostOneActive(entries[..i] + entries[i + 1..])
  {
  }

  lemma RestPresent(entries: seq<Entry>, i: nat, k: u64)
    requires i < |entries| && Present(entries, k) && k != entries[i].sequence
    ensures Present(entries[..i] + entries[i + 1..], k)
  {
    var rest := entries[..i] + entries[i + 1..];
    var j :| 0 <= j < |entries| && entries[j].sequence == k;
    assert rest[if j < i then j else j - 1].sequence == k;
  }

  lemma RestOk(s: System, after: System, i: nat, j: nat)
    requires i < |s.queue.entries| && j < |s.queue.entries| - 1 && Ordered(s.queue.entries) && EntriesOk(s)
    requires after.queue.nextSequence == s.queue.nextSequence && after.queue.hasSpace == s.queue.hasSpace
    requires after.inFlight == s.inFlight - {s.queue.entries[i].sequence}
    ensures var e := (s.queue.entries[..i] + s.queue.entries[i + 1..])[j];
            EntryOk(e, after.inFlight) && Used(after.queue, e.sequence)
              && Charge(e, s.inFlight) == Charge(e, after.inFlight)
  {
    var before := s.queue.entries;
    var k := if j < i then j else j + 1;
    assert (before[..i] + before[i + 1..])[j] == before[k];
    assert EntryOk(before[k], s.inFlight) && Used(s.queue, before[k].sequence);
    assert before[k].sequence != before[i].sequence;
    NotInFlight(before[k], before[i].sequence, s.inFlight);
    SameUse(s.queue, after.queue, before[k].sequence);
  }

  lemma NotInFlight(e: Entry, sequence: u64, inFlight: map<u64, nat>)
    requires EntryOk(e, inFlight) && e.sequence != sequence
    ensures EntryOk(e, inFlight - {sequence})
  {
  }

  lemma SameUse(q: Queue, after: Queue, sequence: u64)
    requires Used(q, sequence) && after.nextSequence == q.nextSequence && after.hasSpace == q.hasSpace
    ensures Used(after, sequence)
  {
  }

  // ---------------------------------------------------------------------------
  // Each kind of step

  lemma FoundOk(s: System, i: nat)
    requires Inv(s) && i < |s.queue.entries|
    ensures EntryOk(s.queue.entries[i], s.inFlight)
  {
  }

  /** An update that leaves the payload's size and place alone. */
  lemma InPlace(s: System, after: System, i: nat, e: Entry)
    requires Inv(s) && i < |s.queue.entries| && Advances(s.queue.entries[i], e) && after.inFlight == s.inFlight
    requires OnlyFlags(s.queue, after.queue.(entries := s.queue.entries))
    requires after.queue.entries == s.queue.entries[i := e] && EntryOk(e, s.inFlight)
    requires Active(e) ==> Active(s.queue.entries[i]) || !IsIssuing(s.queue.entries)
    requires Charge(e, s.inFlight) == Charge(s.queue.entries[i], s.inFlight)
    ensures Inv(after) && Changed(s, after, Update(i, e))
  {
    hide EntryOk, Charge, Charged, Ordered, AtMostOneActive, EntriesOk, Advances, IsIssuing, Changed, Present;
    UpdateKeeps(s, after, i, e);
  }

  /** Nothing but flags changes, or the entry found moves on. */
  ghost predicate MovesOn(s: System, after: System, i: Option<nat>) {
    && after.inFlight == s.inFlight
    && (|| OnlyFlags(s.queue, after.queue)
        || (&& i.Some? && i.value < |s.queue.entries| == |after.queue.entries|
            && after.queue.entries == s.queue.entries[i.value := after.queue.entries[i.value]]
            && OnlyFlags(s.queue, after.queue.(entries := s.queue.entries))
            && var was, becomes := s.queue.entries[i.value], after.queue.entries[i.value];
               && Advances(was, becomes) && EntryOk(becomes, s.inFlight)
               && Charge(becomes, s.inFlight) == Charge(was, s.inFlight)
               && (Active(becomes) ==> Active(was) || !IsIssuing(s.queue.entries))))
  }

  lemma MovesOnKeeps(s: System, after: System, i: Option<nat>) returns (c: Change)
    requires Inv(s) && MovesOn(s, after, i)
    ensures Inv(after) && Changed(s, after, c)
  {
    hide Inv, Changed, EntryOk, Advances, Charge, Active, IsIssuing;
    if OnlyFlags(s.queue, after.queue) {
      FlagsKeep(s, after);
      c := Keep;
    } else {
      hide OnlyFlags;
      InPlace(s, after, i.value, after.queue.entries[i.value]);
      c := Update(i.value, after.queue.entries[i.value]);
    }
  }

  lemma Stands(s: System, i: Option<nat>)
    requires s.queue.quarantined ==> s.queue.closing
    ensures MovesOn(s, s, i) && MovesOn(s, s.(queue := Lockdown(s.queue)), i)
  {
  }

  lemma EntryMoves(s: System, i: nat, e: Entry)
    requires (s.queue.quarantined ==> s.queue.closing) && i < |s.queue.entries|
    requires Advances(s.queue.entries[i], e) && EntryOk(e, s.inFlight)
             && Charge(e, s.inFlight) == Charge(s.queue.entries[i], s.inFlight)
    requires Active(e) ==> Active(s.queue.entries[i]) || !IsIssuing(s.queue.entries)
    ensures MovesOn(s, s.(queue := Put(s.queue, i, e)), Some(i))
            && MovesOn(s, s.(queue := Lockdown(Put(s.queue, i, e))), Some(i))
  {
    hide Advances, EntryOk, Charge, Active, IsIssuing;
  }

  lemma PreparationMoves(s: System, ev: Event)
    requires Inv(s) && AllBacked(s.queue) && (ev.LimitEvent? || ev.ReplaceEvent?)
    ensures MovesOn(s, Step(s, ev), Find(s.queue, ev.receipt))
  {
    var i := Find(s.queue, ev.receipt);
    Quarantining(s);
    Stands(s, i);
    if i.Some? {
      FoundOk(s, i.value);
      hide Inv, IsIssuing, Find, AllBacked, MovesOn;
      var e := s.queue.entries[i.value];
      if ev.LimitEvent? {
        if LimitUnissued(s.queue, ev.caller, ev.receipt, ev.bytes).0 {
          EntryMoves(s, i.value, e.(issueBytes := ev.bytes));
        }
      } else if ReplaceUnissued(s.queue, ev.caller, ev.receipt, ev.input).0 {
        EntryMoves(s, i.value, e.(payload := Some(Overwritten(e.payload.value, 0, ev.input)),
          issueBytes := |ev.input|));
      }
    }
  }

  lemma PatchMoves(s: System, ev: Event)
    requires Inv(s) && AllBacked(s.queue) && ev.PatchEvent?
    ensures MovesOn(s, Step(s, ev), FindIssue(s.queue, ev.token))
  {
    var i := FindIssue(s.queue, ev.token);
    Quarantining(s);
    Stands(s, i);
    if PatchIssue(s.queue, ev.caller, ev.token, ev.offset, ev.input).0 {
      FoundOk(s, i.value);
      hide Inv, IsIssuing, FindIssue, AllBacked, MovesOn;
      var e := s.queue.entries[i.value];
      EntryMoves(s, i.value, e.(payload := Some(Overwritten(e.payload.value, ev.offset, ev.input))));
    }
  }

  lemma TakeMoves(s: System, ev: Event)
    requires Inv(s) && AllBacked(s.queue) && ev.TakeEvent?
    ensures MovesOn(s, Step(s, ev), Selected(s.queue, ev.wanted))
  {
    var i := Selected(s.queue, ev.wanted);
    Quarantining(s);
    Stands(s, i);
    if TakeNext(s.queue, ev.caller, ev.wanted).0.Some? {
      FoundOk(s, i.value);
      hide Inv, IsIssuing, Selected, AllBacked, MovesOn;
      EntryMoves(s, i.value, s.queue.entries[i.value].(phase := Issuing, generation := 1));
    }
  }

  /** Steps that carry a token. */
  predicate TokenEvent(ev: Event) {
    ev.PublishEvent? || ev.PreparationFailureEvent? || ev.UncertainEvent? || ev.PauseEvent? || ev.ResumeEvent?
    || ev.FinishContinuationEvent? || ev.RejectIssueEvent? || ev.CompleteEvent?
  }

  /** Entry e may become entry `after` without its payload moving. */
  predicate Becomes(e: Entry, after: Entry, inFlight: map<u64, nat>) {
    Advances(e, after) && EntryOk(after, inFlight) && Charge(after, inFlight) == Charge(e, inFlight)
  }

  lemma Answering(e: Entry, inFlight: map<u64, nat>, reply: Reply)
    requires EntryOk(e, inFlight) && e.phase == Issuing
    ensures var after := e.(reply := Some(reply), phase := HostReturned);
            Becomes(e, after, inFlight) && Becomes(e, Retired(after), inFlight)
  {
  }

  lemma Continuing(e: Entry, inFlight: map<u64, nat>)
    requires EntryOk(e, inFlight) && !e.stopped && e.reply.Some?
    ensures Becomes(e, e.(phase := HostReturned), inFlight)
    ensures e.phase == HostReturned ==> Becomes(e, Retired(e), inFlight)
    ensures e.phase == HostReturned && e.reply == Some(Reply(0, NativeSdk)) ==>
              Becomes(e, e.(phase := Paused), inFlight)
    ensures e.phase == Paused && e.generation < U64_MAX ==>
              Becomes(e, e.(phase := Resuming, generation := e.generation + 1), inFlight)
  {
  }

  lemma PublishMoves(s: System, i: Option<nat>, caller: nat, t: Token, reply: Reply)
    requires Inv(s) && i == FindIssue(s.queue, t)
    ensures MovesOn(s, s.(queue := Publish(s.queue, caller, t, reply).1), i)
    ensures reply.origin == RejectedBeforeIssue ==>
              MovesOn(s, s.(queue := RejectBeforeNative(s.queue, caller, t, reply.status).1), i)
  {
    Quarantining(s);
    Stands(s, i);
    if i.Some? {
      FoundOk(s, i.value);
      var e := s.queue.entries[i.value];
      hide Inv, IsIssuing, FindIssue, MovesOn, EntryOk, Advances, Charge;
      if e.phase == Issuing {
        Answering(e, s.inFlight, reply);
        EntryMoves(s, i.value, e.(reply := Some(reply), phase := HostReturned));
        EntryMoves(s, i.value, Retired(e.(reply := Some(reply), phase := HostReturned)));
      }
    }
  }

  lemma UncertainMoves(s: System, i: Option<nat>, caller: nat, t: Token, status: int)
    requires Inv(s) && i == FindIssue(s.queue, t)
    ensures MovesOn(s, s.(queue := FailUncertain(s.queue, caller, t, status).1), i)
  {
    Quarantining(s);
    Stands(s, i);
    if i.Some? {
      FoundOk(s, i.value);
      var e := s.queue.entries[i.value];
      assert (e.stopped ==> e.phase == HostReturned) && (e.reply.None? ==> e.phase == Queued || e.phase == Issuing);
      hide Inv, IsIssuing, FindIssue, MovesOn, EntryOk, Advances, Charge;
      if e.phase == Issuing {
        Answering(e, s.inFlight, Reply(status, UncertainIssue));
        EntryMoves(s, i.value, e.(reply := Some(Reply(status, UncertainIssue)), phase := HostReturned));
      } else if e.phase == Resuming {
        Continuing(e, s.inFlight);
        EntryMoves(s, i.value, e.(phase := HostReturned));
      }
    }
  }

  lemma AnswerMoves(s: System, ev: Event)
    requires Inv(s) && AllBacked(s.queue) && (ev.PublishEvent? || ev.PreparationFailureEvent? || ev.UncertainEvent?
             || ev.RejectIssueEvent?)
    ensures MovesOn(s, Step(s, ev), FindIssue(s.queue, ev.token))
  {
    var i := FindIssue(s.queue, ev.token);
    Quarantining(s);
    Stands(s, i);
    hide Inv, MovesOn, FindIssue, Publish, FailUncertain, RejectBeforeNative, AllBacked;
    PublishMoves(s, i, ev.caller, ev.token, Reply(ev.status,
      if ev.PublishEvent? then NativeSdk else RejectedBeforeIssue));
    UncertainMoves(s, i, ev.caller, ev.token, ev.status);
  }

  lemma PauseMoves(s: System, i: Option<nat>, caller: nat, t: Token)
    requires Inv(s) && i == FindIssue(s.queue, t)
    ensures MovesOn(s, s.(queue := Pause(s.queue, caller, t).1), i)
    ensures MovesOn(s, s.(queue := Complete(s.queue, caller, t).1), i)
    ensures MovesOn(s, s.(queue := FinishContinuation(s.queue, caller, t).1), i)
  {
    Quarantining(s);
    Stands(s, i);
    if i.Some? {
      FoundOk(s, i.value);
      var e := s.queue.entries[i.value];
      assert (e.stopped ==> e.phase == HostReturned) && (e.reply.None? ==> e.phase == Queued || e.phase == Issuing);
      hide Inv, IsIssuing, FindIssue, MovesOn, EntryOk, Advances, Charge;
      if !e.stopped && e.reply.Some? {
        Continuing(e, s.inFlight);
        if e.phase == Resuming { EntryMoves(s, i.value, e.(phase := HostReturned)); }
        if e.phase == HostReturned { EntryMoves(s, i.value, Retired(e)); }
        if e.phase == HostReturned && e.reply == Some(Reply(0, NativeSdk)) {
          EntryMoves(s, i.value, e.(phase := Paused));
        }
      }
    }
  }

  lemma ResumeMoves(s: System, i: Option<nat>, caller: nat, t: Token)
    requires Inv(s) && AllBacked(s.queue) && i == FindIssue(s.queue, t)
    ensures MovesOn(s, s.(queue := Resume(s.queue, caller, t).1), i)
  {
    Quarantining(s);
    Stands(s, i);
    if i.Some? {
      FoundOk(s, i.value);
      var e := s.queue.entries[i.value];
      assert (e.stopped ==> e.phase == HostReturned) && (e.reply.None? ==> e.phase == Queued || e.phase == Issuing);
      hide Inv, IsIssuing, FindIssue, MovesOn, EntryOk, Advances, Charge, AllBacked;
      if e.phase == Paused && !IsIssuing(s.queue.entries) && e.generation != U64_MAX {
        Continuing(e, s.inFlight);
        EntryMoves(s, i.value, e.(phase := Resuming, generation := e.generation + 1));
      }
    }
  }

  lemma ContinuationMoves(s: System, ev: Event)
    requires Inv(s) && AllBacked(s.queue) && (ev.PauseEvent? || ev.ResumeEvent? || ev.FinishContinuationEvent?
             || ev.CompleteEvent?)
    ensures MovesOn(s, Step(s, ev), FindIssue(s.queue, ev.token))
  {
    hide Inv, MovesOn, FindIssue, Pause, Resume, FinishContinuation, Complete, AllBacked;
    PauseMoves(s, FindIssue(s.queue, ev.token), ev.caller, ev.token);
    ResumeMoves(s, FindIssue(s.queue, ev.token), ev.caller, ev.token);
  }

  lemma TokenMoves(s: System, ev: Event)
    requires Inv(s) && AllBacked(s.queue) && TokenEvent(ev)
    ensures MovesOn(s, Step(s, ev), FindIssue(s.queue, ev.token))
  {
    hide Inv, AllBacked, MovesOn, Step;
    if ev.PauseEvent? || ev.ResumeEvent? || ev.FinishContinuationEvent? || ev.CompleteEvent? {
      ContinuationMoves(s, ev);
    } else {
      AnswerMoves(s, ev);
    }
  }

  lemma RejectMoves(s: System, ev: Event)
    requires Inv(s) && AllBacked(s.queue) && ev.RejectUnissuedEvent?
    ensures MovesOn(s, Step(s, ev), Find(s.queue, ev.receipt))
  {
    var i := Find(s.queue, ev.receipt);
    Quarantining(s);
    Stands(s, i);
    if RejectUnissued(s.queue, ev.caller, ev.receipt, ev.status).0 {
      FoundOk(s, i.value);
      hide Inv, IsIssuing, Find, AllBacked, MovesOn;
      EntryMoves(s, i.value, Retired(s.queue.entries[i.value].(reply := Some(Reply(ev.status, RejectedBeforeIssue)),
        phase := HostReturned)));
    }
  }

  lemma AcceptKeeps(s: System, ev: Event) returns (c: Change)
    requires Inv(s) && AllBacked(s.queue) && ev.AcceptEvent?
    ensures Inv(Step(s, ev)) && Changed(s, Step(s, ev), c)
  {
    var after := Step(s, ev);
    var n := |s.queue.entries|;
    if |after.queue.entries| == n {
      FlagsKeep(s, after);
      c := Keep;
    } else {
      c := Append(after.queue.entries[n]);
      NewEntry(s, ev, after);
    }
  }

  lemma NewEntry(s: System, ev: Event, after: System)
    requires Inv(s) && AllBacked(s.queue) && ev.AcceptEvent? && after == Step(s, ev)
             && |after.queue.entries| != |s.queue.entries|
    ensures Inv(after) && |after.queue.entries| == |s.queue.entries| + 1
    ensures Changed(s, after, Append(after.queue.entries[|s.queue.entries|]))
  {
    var before, entries := s.queue.entries, after.queue.entries;
    var n := |before|;
    var e := entries[n];
    assert entries[..n] == before && entries == before + [e];
    assert e.sequence !in s.inFlight by {
      assert !Used(s.queue, e.sequence);
      assert !Present(before, e.sequence);
    }
    assert EntryOk(e, after.inFlight) && Charge(e, after.inFlight) == Capacity(ev.request);
    forall j | 0 <= j < |entries|
      ensures EntryOk(entries[j], after.inFlight) && Used(after.queue, entries[j].sequence)
    {
      if j < n { assert EntryOk(before[j], s.inFlight) && Used(s.queue, before[j].sequence); }
    }
    hide EntryOk;
    forall k | k in after.inFlight ensures Present(entries, k) {
      var j :| 0 <= j < n && before[j].sequence == k;
      assert entries[j].sequence == k;
    }
    forall i, j | 0 <= i < j < |entries|
      ensures entries[i].sequence < entries[j].sequence && !(Active(entries[i]) && Active(entries[j]))
    {
      assert Used(s.queue, entries[i].sequence);
    }
  }

  lemma AcknowledgeKeeps(s: System, ev: Event) returns (c: Change)
    requires Inv(s) && AllBacked(s.queue) && ev.AcknowledgeEvent?
    ensures Inv(Step(s, ev)) && Changed(s, Step(s, ev), c)
  {
    var after := Step(s, ev);
    var i := Find(s.queue, ev.receipt);
    if !Acknowledge(s.queue, ev.receipt).0 {
      FlagsKeep(s, s);
      c := Keep;
    } else {
      FoundOk(s, i.value);
      var e := s.queue.entries[i.value];
      hide Inv, Changed;
      if e.stopped && !e.releasing {
        assert e.sequence !in s.inFlight && s.inFlight - {e.sequence} == s.inFlight;
        assert after.queue.entries == s.queue.entries[..i.value] + s.queue.entries[i.value + 1..];
        RemoveKeeps(s, after, i.value);
        c := Remove(i.value);
      } else {
        Quarantining(s);
        InPlace(s, after, i.value, e.(acknowledged := true));
        c := Update(i.value, e.(acknowledged := true));
      }
    }
  }

  lemma Quarantining(s: System)
    requires Inv(s)
    ensures s.queue.quarantined ==> s.queue.closing
  {
  }

  lemma TakePayloadKeeps(s: System, ev: Event) returns (c: Change)
    requires Inv(s) && AllBacked(s.queue) && ev.TakePayloadEvent?
    ensures Inv(Step(s, ev)) && Changed(s, Step(s, ev), c)
  {
    var after := Step(s, ev);
    var i := FindFrom(s.queue.entries, ev.sequence, 0);
    if i.None? || !s.queue.entries[i.value].releasing || s.queue.entries[i.value].payload.None? {
      FlagsKeep(s, s);
      c := Keep;
    } else {
      FoundOk(s, i.value);
      Quarantining(s);
      Within(s);
      hide Inv, Changed;
      var e := s.queue.entries[i.value].(payload := None);
      UpdateKeeps(s, after, i.value, e);
      c := Update(i.value, e);
    }
  }

  lemma Within(s: System)
    requires Inv(s)
    ensures s.queue.parameterBytes == Charged(s.queue.entries, s.inFlight) <= s.queue.limits.parameterBytes
  {
  }

  /** Bytes in flight are always still charged, so taking them off the total cannot underflow. */
  lemma InFlightIsCharged(s: System, sequence: u64) returns (i: nat)
    requires Inv(s) && sequence in s.inFlight
    ensures i < |s.queue.entries| && FindFrom(s.queue.entries, sequence, 0) == Some(i)
    ensures s.queue.entries[i].releasing && s.queue.entries[i].payload.None?
            && s.inFlight[sequence] <= s.queue.parameterBytes
  {
    assert Present(s.queue.entries, sequence);
    i := FindFrom(s.queue.entries, sequence, 0).value;
    FoundOk(s, i);
    ChargeAtMost(s.queue.entries, i, s.inFlight);
  }

  lemma DischargeKeeps(s: System, ev: Event) returns (c: Change)
    requires Inv(s) && AllBacked(s.queue) && ev.DischargeEvent?
    ensures Inv(Step(s, ev)) && Changed(s, Step(s, ev), c)
  {
    var after := Step(s, ev);
    if ev.sequence !in s.inFlight {
      FlagsKeep(s, s);
      c := Keep;
    } else {
      var i := InFlightIsCharged(s, ev.sequence);
      FoundOk(s, i);
      Quarantining(s);
      Within(s);
      hide Inv, Changed;
      var e := s.queue.entries[i];
      var done := e.(releasing := false);
      assert s.queue.entries[i := done][..i] == s.queue.entries[..i];
      assert s.queue.entries[i := done][i + 1..] == s.queue.entries[i + 1..];
      if e.acknowledged {
        RemoveKeeps(s, after, i);
        c := Remove(i);
      } else {
        UpdateKeeps(s, after, i, done);
        c := Update(i, done);
      }
    }
  }

  /** Every step keeps the invariant, and touches at most one entry in one of the ways listed. */
  lemma StepKeeps(s: System, ev: Event) returns (c: Change)
    requires Inv(s)
    ensures AllBacked(s.queue) && Inv(Step(s, ev)) && Changed(s, Step(s, ev), c)
  {
    InvBacks(s);
    Quarantining(s);
    hide Inv, Changed, MovesOn, AllBacked;
    match ev {
      case BindEvent(_, _) => FlagsKeep(s, Step(s, ev)); c := Keep;
      case CloseEvent => FlagsKeep(s, Step(s, ev)); c := Keep;
      case QuarantineEvent => FlagsKeep(s, Step(s, ev)); c := Keep;
      case AcceptEvent(_, _, _, _) => c := AcceptKeeps(s, ev);
      case AcknowledgeEvent(_) => c := AcknowledgeKeeps(s, ev);
      case TakePayloadEvent(_) => c := TakePayloadKeeps(s, ev);
      case DischargeEvent(_) => c := DischargeKeeps(s, ev);
      case TakeEvent(_, wanted) => TakeMoves(s, ev); c := MovesOnKeeps(s, Step(s, ev), Selected(s.queue, wanted));
      case LimitEvent(_, r, _) => PreparationMoves(s, ev); c := MovesOnKeeps(s, Step(s, ev), Find(s.queue, r));
      case ReplaceEvent(_, r, _) => PreparationMoves(s, ev); c := MovesOnKeeps(s, Step(s, ev), Find(s.queue, r));
      case RejectUnissuedEvent(_, r, _) => RejectMoves(s, ev); c := MovesOnKeeps(s, Step(s, ev), Find(s.queue, r));
      case PatchEvent(_, t, _, _) => PatchMoves(s, ev); c := MovesOnKeeps(s, Step(s, ev), FindIssue(s.queue, t));
      case _ => TokenMoves(s, ev); c := MovesOnKeeps(s, Step(s, ev), FindIssue(s.queue, ev.token));
    }
  }
}
