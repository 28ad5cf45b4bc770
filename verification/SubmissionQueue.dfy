/** The queue's locked sections as they change its fields. */
module SubmissionQueueState {
  import opened Common
  import opened SubmissionQueueModel
  import opened SubmissionQueueRuns
  import opened SubmissionQueueTheorems

  lemma KeepsInv(s: System, ev: Event)
    requires Inv(s) && AllBacked(s.queue)
    ensures Inv(Step(s, ev)) && AllBacked(Step(s, ev).queue)
  {
    hide Step, AllBacked, Changed;
    var c := StepKeeps(s, ev);
    InvBacks(Step(s, ev));
  }

  lemma BindStep(s: System, caller: nat, gone: bool)
    requires AllBacked(s.queue)
    ensures Step(s, BindEvent(caller, gone)) == s.(queue := BindExecutor(s.queue, caller, gone).1)
  {
  }

  lemma AcceptStep(s: System, sequence: u64, request: Request, gone: bool, fault: bool)
    requires AllBacked(s.queue)
    ensures Step(s, AcceptEvent(sequence, request, gone, fault))
            == s.(queue := Accept(s.queue, sequence, request, gone, fault).1)
  {
  }

  lemma ResumeStep(s: System, caller: nat, t: Token)
    requires AllBacked(s.queue)
    ensures Step(s, ResumeEvent(caller, t)) == s.(queue := Resume(s.queue, caller, t).1)
  {
  }

  lemma MoveStep(s: System, i: nat)
    requires Inv(s) && AllBacked(s.queue) && i < |s.queue.entries| && s.queue.entries[i].releasing
             && s.queue.entries[i].payload.Some?
    ensures var (bytes, after) := TakePayload(s.queue, i);
            var sequence := s.queue.entries[i].sequence;
            Step(s, TakePayloadEvent(sequence)) == System(after, s.inFlight[sequence := bytes])
  {
    assert Ordered(s.queue.entries);
    hide Inv;
    assert FindFrom(s.queue.entries, s.queue.entries[i].sequence, 0) == Some(i);
  }

  lemma DischargeStep(s: System, i: nat)
    requires Inv(s) && AllBacked(s.queue) && i < |s.queue.entries| && s.queue.entries[i].sequence in s.inFlight
    ensures var sequence := s.queue.entries[i].sequence;
            && s.inFlight[sequence] <= s.queue.parameterBytes
            && Step(s, DischargeEvent(sequence))
               == System(FinishRelease(s.queue, i, s.inFlight[sequence]), s.inFlight - {sequence})
  {
    assert Ordered(s.queue.entries);
    var k := InFlightIsCharged(s, s.queue.entries[i].sequence);
    hide Inv;
    assert FindFrom(s.queue.entries, s.queue.entries[i].sequence, 0) == Some(i);
  }

  class SubmissionQueue {
    const identity: nat
    const limits: Limits
    var entries: seq<Entry>
    var parameterBytes: nat
    var nextSequence: u64
    var hasSpace: bool
    var executor: Option<nat>
    var closing: bool
    var quarantined: bool
    /** Payloads taken by releasing threads. */
    ghost var inFlight: map<u64, nat>

    ghost function Value(): Queue
      reads this
    {
      Queue(identity, limits, entries, parameterBytes, nextSequence, hasSpace, executor, closing, quarantined)
    }

    ghost function Current(): System
      reads this
    {
      System(Value(), inFlight)
    }

    ghost predicate Valid()
      reads this
    {
      Inv(Current()) && AllBacked(Value())
    }

    constructor (owner: nat, bounds: Limits, first: u64)
      requires first != 0 && bounds.commands != 0 && bounds.parameterBytes != 0
      ensures Valid() && Current() == Initial(owner, bounds, first)
    {
      identity, limits, entries, parameterBytes := owner, bounds, [], 0;
      nextSequence, hasSpace, executor, closing, quarantined := first, true, None, false, false;
      inFlight := map[];
      new;
      InitialInv(owner, bounds, first);
    }

    // -------------------------------------------------------------------------
    // Searching

    method FindEntry(r: Receipt) returns (found: Option<nat>)
      ensures found == Find(Value(), r)
    {
      if r.owner != identity || r.sequence == 0 { return None; }
      for i := 0 to |entries|
        invariant FindFrom(entries, r.sequence, 0) == FindFrom(entries, r.sequence, i)
      {
        if entries[i].sequence == r.sequence { return Some(i); }
      }
      found := None;
    }

    method FindIssued(t: Token) returns (found: Option<nat>)
      ensures found == FindIssue(Value(), t)
    {
      found := FindEntry(Receipt(t.owner, t.sequence));
      if found.Some? && (entries[found.value].generation == 0 || entries[found.value].generation != t.generation) {
        found := None;
      }
    }

    method AnyIssuing() returns (issuing: bool)
      ensures issuing <==> IsIssuing(entries)
    {
      for i := 0 to |entries|
        invariant forall j | 0 <= j < i :: !Active(entries[j])
      {
        if entries[i].phase == Issuing || entries[i].phase == Resuming { return true; }
      }
      issuing := false;
    }

    method FindQueued(wanted: Option<Receipt>) returns (found: Option<nat>)
      ensures found == Selected(Value(), wanted)
    {
      if wanted.Some? {
        found := FindEntry(wanted.value);
        if found.Some? && entries[found.value].phase != Queued { found := None; }
        return;
      }
      for i := 0 to |entries|
        invariant FirstQueued(entries, 0) == FirstQueued(entries, i)
      {
        if entries[i].phase == Queued { return Some(i); }
      }
      found := None;
    }

    method CollectEntry(i: nat)
      requires i < |entries|
      modifies this`entries
      ensures Value() == Collect(old(Value()), i)
    {
      if entries[i].acknowledged && entries[i].stopped && !entries[i].releasing {
        entries := entries[..i] + entries[i + 1..];
      }
    }

    // -------------------------------------------------------------------------
    // Session side

    method Bind(caller: nat, gone: bool) returns (bound: bool)
      requires Valid()
      modifies this
      ensures Valid() && bound == BindExecutor(old(Value()), caller, gone).0
      ensures Current() == Step(old(Current()), BindEvent(caller, gone))
    {
      hide Inv, AllBacked, Step;
      KeepsInv(Current(), BindEvent(caller, gone));
      BindStep(Current(), caller, gone);
      if closing && entries == [] { return false; }
      if executor.Some? {
        if gone { quarantined, closing := true, true; }
        return executor == Some(caller) && !gone;
      }
      executor := Some(caller);
      bound := true;
    }

    method AcceptCommand(sequence: u64, request: Request, gone: bool, fault: bool) returns (status: AcceptStatus)
      requires Valid()
      modifies this
      ensures Valid() && status == Accept(old(Value()), sequence, request, gone, fault).0
      ensures Current() == Step(old(Current()), AcceptEvent(sequence, request, gone, fault))
    {
      hide Inv, AllBacked, Step, Packed;
      KeepsInv(Current(), AcceptEvent(sequence, request, gone, fault));
      AcceptStep(Current(), sequence, request, gone, fault);
      var capacity := if request.capacity != 0 then request.capacity else |request.parameters|;
      if sequence == 0 || request.operation == 0 || request.context == 0 || !request.hasLifetime
        || capacity < |request.parameters| {
        return Invalid;
      }
      if executor.Some? && gone { quarantined, closing := true, true; }
      if quarantined { return Quarantined; }
      if closing { return Closed; }
      if !hasSpace || sequence != nextSequence { return WrongSequence; }
      if capacity > limits.parameterBytes { return OutOfMemory; }
      if |entries| >= limits.commands || capacity > limits.parameterBytes - parameterBytes { return Full; }
      if fault { return OutOfMemory; }
      Append(sequence, request);
      status := Accepted;
    }

    /** The new entry at the end, its capacity charged, the next sequence or none. */
    method Append(sequence: u64, request: Request)
      requires |request.parameters| <= Capacity(request)
      modifies this
      ensures inFlight == old(inFlight)
      ensures Value() == old(Value()).(
                entries := old(entries) + [Entry(sequence, 0, request.operation, request.context, request.stream,
                  Queued, None, Some(Packed(request)), |request.parameters|, false, false, false)],
                parameterBytes := old(parameterBytes) + Capacity(request),
                hasSpace := old(hasSpace) && sequence != U64_MAX,
                nextSequence := if sequence == U64_MAX || old(nextSequence) == U64_MAX then old(nextSequence)
                  else old(nextSequence) + 1)
    {
      entries := entries + [Entry(sequence, 0, request.operation, request.context, request.stream, Queued, None,
                                  Some(Packed(request)), |request.parameters|, false, false, false)];
      parameterBytes := parameterBytes + (if request.capacity != 0 then request.capacity else |request.parameters|);
      if sequence == U64_MAX {
        hasSpace := false;
      } else if nextSequence != U64_MAX {
        nextSequence := nextSequence + 1;
      }
    }

    method ReadResult(r: Receipt) returns (reply: Option<Reply>)
      ensures reply == HostResult(Value(), r)
    {
      var i := FindEntry(r);
      reply := if i.Some? && !entries[i.value].acknowledged then entries[i.value].reply else None;
    }

    method AcknowledgeResult(r: Receipt) returns (ok: bool)
      requires Valid()
      modifies this
      ensures Valid() && ok == Acknowledge(old(Value()), r).0
      ensures Current() == Step(old(Current()), AcknowledgeEvent(r))
    {
      hide Inv, AllBacked;
      KeepsInv(Current(), AcknowledgeEvent(r));
      var i := FindEntry(r);
      if i.None? || entries[i.value].reply.None? || entries[i.value].acknowledged { return false; }
      entries := entries[i.value := entries[i.value].(acknowledged := true)];
      CollectEntry(i.value);
      ok := true;
    }

    method StopAccepting()
      requires Valid()
      modifies this
      ensures Valid() && Current() == Step(old(Current()), CloseEvent)
    {
      KeepsInv(Current(), CloseEvent);
      closing := true;
    }

    method EnterQuarantine()
      requires Valid()
      modifies this
      ensures Valid() && Current() == Step(old(Current()), QuarantineEvent)
    {
      KeepsInv(Current(), QuarantineEvent);
      closing, quarantined := true, true;
    }

    /** Success means every payload has been destroyed. */
    method ShutDown() returns (drained: bool)
      requires Valid()
      modifies this
      ensures Valid() && Current() == Step(old(Current()), CloseEvent)
      ensures drained <==> entries == []
      ensures drained ==> parameterBytes == 0 && inFlight == map[]
    {
      KeepsInv(Current(), CloseEvent);
      closing := true;
      drained := entries == [];
      if drained { EmptyMeansReleased(Current()); }
    }

    // -------------------------------------------------------------------------
    // Executor side

    method Take(caller: nat, wanted: Option<Receipt>) returns (issue: Option<Issue>)
      requires Valid()
      modifies this
      ensures Valid() && issue == TakeNext(old(Value()), caller, wanted).0
      ensures Current() == Step(old(Current()), TakeEvent(caller, wanted))
    {
      ghost var ev := TakeEvent(caller, wanted);
      KeepsInv(Current(), ev);
      if executor != Some(caller) || quarantined { return None; }
      var issuing := AnyIssuing();
      if issuing { return None; }
      var i := FindQueued(wanted);
      if i.None? { return None; }
      assert Backed(entries[i.value]);
      hide Inv, AllBacked;
      var e := entries[i.value].(phase := Issuing, generation := 1);
      entries := entries[i.value := e];
      issue := Some(Issue(Token(identity, e.sequence, 1), e.operation, e.context, e.stream,
        e.payload.value[..e.issueBytes]));
    }

    method Limit(caller: nat, r: Receipt, bytes: nat) returns (ok: bool)
      requires Valid()
      modifies this
      ensures Valid() && ok == LimitUnissued(old(Value()), caller, r, bytes).0
      ensures Current() == Step(old(Current()), LimitEvent(caller, r, bytes))
    {
      hide Inv, AllBacked;
      KeepsInv(Current(), LimitEvent(caller, r, bytes));
      var i := FindEntry(r);
      if executor != Some(caller) || quarantined || i.None? { return false; }
      var e := entries[i.value];
      if e.payload.None? || e.phase != Queued || e.generation != 0 || e.reply.Some? || e.releasing
        || bytes > e.issueBytes {
        return false;
      }
      entries := entries[i.value := e.(issueBytes := bytes)];
      ok := true;
    }

    method CopyParameters(caller: nat, r: Receipt, length: nat) returns (bytes: Option<seq<u8>>)
      requires Valid()
      ensures bytes == CopyUnissued(Value(), caller, r, length)
    {
      var i := FindEntry(r);
      if executor != Some(caller) || quarantined || i.None? { return None; }
      var e := entries[i.value];
      assert Backed(e);
      if e.payload.None? || e.phase != Queued || e.generation != 0 || e.reply.Some? || e.releasing
        || length != e.issueBytes {
        return None;
      }
      bytes := Some(e.payload.value[..length]);
    }

    method Replace(caller: nat, r: Receipt, input: seq<u8>) returns (ok: bool)
      requires Valid()
      modifies this
      ensures Valid() && ok == ReplaceUnissued(old(Value()), caller, r, input).0
      ensures Current() == Step(old(Current()), ReplaceEvent(caller, r, input))
    {
      hide Inv, AllBacked;
      KeepsInv(Current(), ReplaceEvent(caller, r, input));
      var i := FindEntry(r);
      if executor != Some(caller) || quarantined || i.None? { return false; }
      var e := entries[i.value];
      if e.payload.None? || e.phase != Queued || e.generation != 0 || e.reply.Some? || e.releasing
        || |input| > |e.payload.value| {
        return false;
      }
      entries := entries[i.value := e.(payload := Some(Overwritten(e.payload.value, 0, input)), issueBytes := |input|)];
      ok := true;
    }

    method Patch(caller: nat, t: Token, offset: nat, bytes: seq<u8>) returns (ok: bool)
      requires Valid()
      modifies this
      ensures Valid() && ok == PatchIssue(old(Value()), caller, t, offset, bytes).0
      ensures Current() == Step(old(Current()), PatchEvent(caller, t, offset, bytes))
    {
      ghost var ev := PatchEvent(caller, t, offset, bytes);
      KeepsInv(Current(), ev);
      if bytes == [] { return false; }
      var i := FindIssued(t);
      if executor != Some(caller) || quarantined || i.None? { return false; }
      var e := entries[i.value];
      assert Backed(e);
      hide Inv, AllBacked;
      if e.payload.None? || (e.phase != Issuing && e.phase != Resuming) { return false; }
      if offset > e.issueBytes || |bytes| > e.issueBytes - offset { return false; }
      entries := entries[i.value := e.(payload := Some(Overwritten(e.payload.value, offset, bytes)))];
      ok := true;
    }

    method PublishResult(caller: nat, t: Token, status: int) returns (ok: bool)
      requires Valid()
      modifies this
      ensures Valid() && ok == PublishHostResult(old(Value()), caller, t, status).0
      ensures Current() == Step(old(Current()), PublishEvent(caller, t, status))
    {
      hide Inv, AllBacked;
      KeepsInv(Current(), PublishEvent(caller, t, status));
      var i := FindIssued(t);
      if executor != Some(caller) || i.None? || entries[i.value].phase != Issuing { return false; }
      entries := entries[i.value := entries[i.value].(reply := Some(Reply(status, NativeSdk)), phase := HostReturned)];
      ok := true;
    }

    method PublishFailedPreparation(caller: nat, t: Token, status: int) returns (ok: bool)
      requires Valid()
      modifies this
      ensures Valid() && ok == PublishPreparationFailure(old(Value()), caller, t, status).0
      ensures Current() == Step(old(Current()), PreparationFailureEvent(caller, t, status))
    {
      hide Inv, AllBacked;
      KeepsInv(Current(), PreparationFailureEvent(caller, t, status));
      if status == 0 { return false; }
      var i := FindIssued(t);
      if executor != Some(caller) || i.None? || entries[i.value].phase != Issuing { return false; }
      entries := entries[i.value := entries[i.value].(reply := Some(Reply(status, RejectedBeforeIssue)),
        phase := HostReturned)];
      ok := true;
    }

    method FailUncertainIssue(caller: nat, t: Token, status: int) returns (ok: bool)
      requires Valid()
      modifies this
      ensures Valid() && ok == FailUncertain(old(Value()), caller, t, status).0
      ensures Current() == Step(old(Current()), UncertainEvent(caller, t, status))
    {
      hide Inv, AllBacked;
      KeepsInv(Current(), UncertainEvent(caller, t, status));
      if status == 0 { return false; }
      var i := FindIssued(t);
      if executor != Some(caller) || i.None? { return false; }
      var e := entries[i.value];
      if e.phase != Issuing && e.phase != Resuming { return false; }
      if e.phase == Issuing { e := e.(reply := Some(Reply(status, UncertainIssue))); }
      entries := entries[i.value := e.(phase := HostReturned)];
      quarantined, closing := true, true;
      ok := true;
    }

    method PauseStopped(caller: nat, t: Token) returns (ok: bool)
      requires Valid()
      modifies this
      ensures Valid() && ok == Pause(old(Value()), caller, t).0
      ensures Current() == Step(old(Current()), PauseEvent(caller, t))
    {
      hide Inv, AllBacked;
      KeepsInv(Current(), PauseEvent(caller, t));
      var i := FindIssued(t);
      if executor != Some(caller) || i.None? || entries[i.value].phase != HostReturned || entries[i.value].stopped {
        return false;
      }
      var reply := entries[i.value].reply;
      if reply.None? { return false; }
      if reply.value.status != 0 || reply.value.origin != NativeSdk { return false; }
      entries := entries[i.value := entries[i.value].(phase := Paused)];
      ok := true;
    }

    method ResumePaused(caller: nat, t: Token) returns (issue: Option<Issue>)
      requires Valid()
      modifies this
      ensures Valid() && issue == Resume(old(Value()), caller, t).0
      ensures Current() == Step(old(Current()), ResumeEvent(caller, t))
    {
      hide Inv, Step;
      KeepsInv(Current(), ResumeEvent(caller, t));
      ResumeStep(Current(), caller, t);
      var i := FindIssued(t);
      if executor != Some(caller) || quarantined || i.None? || entries[i.value].phase != Paused { return None; }
      assert Backed(entries[i.value]);
      hide Inv, AllBacked;
      var issuing := AnyIssuing();
      if issuing { return None; }
      if entries[i.value].generation == U64_MAX {
        quarantined, closing := true, true;
        return None;
      }
      var e := entries[i.value].(phase := Resuming, generation := entries[i.value].generation + 1);
      entries := entries[i.value := e];
      issue := Some(Issue(Token(identity, e.sequence, e.generation), e.operation, e.context, e.stream,
        e.payload.value[..e.issueBytes]));
    }

    method FinishResumed(caller: nat, t: Token) returns (ok: bool)
      requires Valid()
      modifies this
      ensures Valid() && ok == FinishContinuation(old(Value()), caller, t).0
      ensures Current() == Step(old(Current()), FinishContinuationEvent(caller, t))
    {
      hide Inv, AllBacked;
      KeepsInv(Current(), FinishContinuationEvent(caller, t));
      var i := FindIssued(t);
      if executor != Some(caller) || i.None? || entries[i.value].phase != Resuming { return false; }
      entries := entries[i.value := entries[i.value].(phase := HostReturned)];
      ok := true;
    }

    // -------------------------------------------------------------------------
    // Retiring

    method Reject(caller: nat, r: Receipt, status: int) returns (ok: bool)
      requires Valid()
      modifies this
      ensures Valid() && ok == RejectUnissued(old(Value()), caller, r, status).0
      ensures Current() == Step(old(Current()), RejectUnissuedEvent(caller, r, status))
    {
      hide Inv, AllBacked;
      KeepsInv(Current(), RejectUnissuedEvent(caller, r, status));
      if status == 0 { return false; }
      var i := FindEntry(r);
      if executor != Some(caller) || i.None? || entries[i.value].phase != Queued { return false; }
      entries := entries[i.value := entries[i.value].(reply := Some(Reply(status, RejectedBeforeIssue)),
        phase := HostReturned, stopped := true, releasing := true)];
      ok := true;
    }

    method RejectTaken(caller: nat, t: Token, status: int) returns (ok: bool)
      requires Valid()
      modifies this
      ensures Valid() && ok == RejectBeforeNative(old(Value()), caller, t, status).0
      ensures Current() == Step(old(Current()), RejectIssueEvent(caller, t, status))
    {
      hide Inv, AllBacked;
      KeepsInv(Current(), RejectIssueEvent(caller, t, status));
      if status == 0 { return false; }
      var i := FindIssued(t);
      if executor != Some(caller) || i.None? || entries[i.value].phase != Issuing { return false; }
      entries := entries[i.value := entries[i.value].(reply := Some(Reply(status, RejectedBeforeIssue)),
        phase := HostReturned, stopped := true, releasing := true)];
      ok := true;
    }

    method CompleteStopped(caller: nat, t: Token) returns (ok: bool)
      requires Valid()
      modifies this
      ensures Valid() && ok == Complete(old(Value()), caller, t).0
      ensures Current() == Step(old(Current()), CompleteEvent(caller, t))
    {
      hide Inv, AllBacked;
      KeepsInv(Current(), CompleteEvent(caller, t));
      var i := FindIssued(t);
      if executor != Some(caller) || i.None? || entries[i.value].phase != HostReturned || entries[i.value].stopped {
        return false;
      }
      entries := entries[i.value := entries[i.value].(stopped := true, releasing := true)];
      ok := true;
    }

    /** First locked section of a release: the payload is moved out of its entry. */
    method MovePayload(i: nat) returns (bytes: nat)
      requires Valid() && i < |entries| && entries[i].releasing && entries[i].payload.Some?
      modifies this
      ensures Valid() && i < |entries| && bytes == |old(entries[i].payload.value)|
              && entries[i].sequence == old(entries[i].sequence)
      ensures Current() == Step(old(Current()), TakePayloadEvent(old(entries[i].sequence)))
    {
      hide Inv, AllBacked, Step;
      KeepsInv(Current(), TakePayloadEvent(entries[i].sequence));
      MoveStep(Current(), i);
      bytes := |entries[i].payload.value|;
      inFlight := inFlight[entries[i].sequence := bytes];
      entries := entries[i := entries[i].(payload := None)];
    }

    /** Second locked section, after the payload was destroyed. The subtraction cannot underflow. */
    method DischargePayload(i: nat, bytes: nat)
      requires Valid() && i < |entries| && entries[i].sequence in inFlight && inFlight[entries[i].sequence] == bytes
      modifies this
      ensures Valid() && Current() == Step(old(Current()), DischargeEvent(old(entries[i].sequence)))
    {
      hide Inv, AllBacked, Step;
      KeepsInv(Current(), DischargeEvent(entries[i].sequence));
      DischargeStep(Current(), i);
      inFlight := inFlight - {entries[i].sequence};
      parameterBytes := parameterBytes - bytes;
      entries := entries[i := entries[i].(releasing := false)];
      CollectEntry(i);
    }
  }
}
