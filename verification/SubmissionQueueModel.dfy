/** The queue between a session and the one thread that may call the driver. Commands are accepted, issued,
    perhaps paused and issued again under a new generation, answered once, and retired once stopped. */
module SubmissionQueueModel {
  import opened Common

  datatype Phase = Queued | Issuing | HostReturned | Paused | Resuming

  datatype Origin = NativeSdk | RejectedBeforeIssue | UncertainIssue

  datatype Reply = Reply(status: int, origin: Origin)

  datatype Entry = Entry(
    sequence: u64, generation: u64, operation: u32, context: u64, stream: u64, phase: Phase, reply: Option<Reply>,
    payload: Option<seq<u8>>, issueBytes: nat, acknowledged: bool, stopped: bool, releasing: bool)

  datatype Limits = Limits(commands: nat, parameterBytes: nat)

  /** `executor` is the identity of the one thread ever bound; identities are not reused. */
  datatype Queue = Queue(
    identity: nat, limits: Limits, entries: seq<Entry>, parameterBytes: nat, nextSequence: u64, hasSpace: bool,
    executor: Option<nat>, closing: bool, quarantined: bool)

  datatype Request = Request(
    operation: u32, context: u64, stream: u64, parameters: seq<u8>, hasLifetime: bool, capacity: nat)

  /** What names a command: the queue that issued the receipt, and the sequence. */
  datatype Receipt = Receipt(owner: nat, sequence: u64)

  datatype Token = Token(owner: nat, sequence: u64, generation: u64)

  datatype Issue = Issue(token: Token, operation: u32, context: u64, stream: u64, parameters: seq<u8>)

  datatype AcceptStatus = Accepted | Invalid | WrongSequence | Full | Closed | Quarantined | OutOfMemory

  // ---------------------------------------------------------------------------
  // Looking entries up

  function FindFrom(entries: seq<Entry>, sequence: u64, from: nat): (found: Option<nat>)
    requires from <= |entries|
    ensures found.Some? ==> from <= found.value < |entries| && entries[found.value].sequence == sequence
    ensures found.None? ==> forall i | from <= i < |entries| :: entries[i].sequence != sequence
    decreases |entries| - from
  {
    if from == |entries| then None
    else if entries[from].sequence == sequence then Some(from)
    else FindFrom(entries, sequence, from + 1)
  }

  function Find(q: Queue, r: Receipt): (found: Option<nat>)
    ensures found.Some? ==>
              found.value < |q.entries| && q.entries[found.value].sequence == r.sequence && r.owner == q.identity
  {
    if r.owner != q.identity || r.sequence == 0 then None else FindFrom(q.entries, r.sequence, 0)
  }

  /** A token is good only for the generation its entry is in. */
  function FindIssue(q: Queue, t: Token): (found: Option<nat>)
    ensures found.Some? ==> found.value < |q.entries| && q.entries[found.value].sequence == t.sequence
                            && q.entries[found.value].generation == t.generation != 0
  {
    var found := Find(q, Receipt(t.owner, t.sequence));
    if found.Some? && q.entries[found.value].generation != 0 && q.entries[found.value].generation == t.generation
      then found else None
  }

  predicate Active(e: Entry) {
    e.phase == Issuing || e.phase == Resuming
  }

  predicate IsIssuing(entries: seq<Entry>) {
    exists i | 0 <= i < |entries| :: Active(entries[i])
  }

  function FirstQueued(entries: seq<Entry>, from: nat): (found: Option<nat>)
    requires from <= |entries|
    ensures found.Some? ==> from <= found.value < |entries| && entries[found.value].phase == Queued
                            && forall i | from <= i < found.value :: entries[i].phase != Queued
    ensures found.None? ==> forall i | from <= i < |entries| :: entries[i].phase != Queued
    decreases |entries| - from
  {
    if from == |entries| then None
    else if entries[from].phase == Queued then Some(from)
    else FirstQueued(entries, from + 1)
  }

  predicate IsExecutor(q: Queue, caller: nat) {
    q.executor == Some(caller)
  }

  function Put(q: Queue, i: nat, e: Entry): Queue
    requires i < |q.entries|
  {
    q.(entries := q.entries[i := e])
  }

  /** An entry goes when it is acknowledged, stopped and its payload is gone. */
  function Collect(q: Queue, i: nat): Queue
    requires i < |q.entries|
  {
    var e := q.entries[i];
    if !e.acknowledged || !e.stopped || e.releasing then q
    else q.(entries := q.entries[..i] + q.entries[i + 1..])
  }

  /** The issue window lies inside a payload that is still there; the source relies on it when it builds
      an issue or copies bytes. */
  predicate Readable(e: Entry) {
    e.payload.Some? && e.issueBytes <= |e.payload.value|
  }

  predicate Backed(e: Entry) {
    (e.phase != HostReturned ==> !e.stopped) && (!e.stopped ==> Readable(e))
  }

  predicate AllBacked(q: Queue) {
    forall i | 0 <= i < |q.entries| :: Backed(q.entries[i])
  }

  function IssueOf(q: Queue, e: Entry): Issue
    requires Readable(e)
  {
    Issue(Token(q.identity, e.sequence, e.generation), e.operation, e.context, e.stream,
      e.payload.value[..e.issueBytes])
  }

  // ---------------------------------------------------------------------------
  // Session side

  function Lockdown(q: Queue): Queue {
    q.(closing := true, quarantined := true)
  }

  /** `gone`: the bound thread has ended. */
  function BindExecutor(q: Queue, caller: nat, gone: bool): (bool, Queue) {
    if q.closing && q.entries == [] then (false, q)
    else if q.executor.Some? then
      (IsExecutor(q, caller) && !gone, if gone then Lockdown(q) else q)
    else (true, q.(executor := Some(caller)))
  }

  function Capacity(request: Request): nat {
    if request.capacity != 0 then request.capacity else |request.parameters|
  }

  /** Zero bytes fill the room reserved beyond the parameters. */
  function Packed(request: Request): (payload: seq<u8>)
    requires |request.parameters| <= Capacity(request)
    ensures |payload| == Capacity(request) && payload[..|request.parameters|] == request.parameters
  {
    request.parameters + seq(Capacity(request) - |request.parameters|, _ => 0)
  }

  /** `fault`: allocating the entry failed. */
  function Accept(q: Queue, sequence: u64, request: Request, gone: bool, fault: bool): (AcceptStatus, Queue) {
    if sequence == 0 || request.operation == 0 || request.context == 0 || !request.hasLifetime
       || Capacity(request) < |request.parameters| then (Invalid, q)
    else
      var q := if q.executor.Some? && gone then Lockdown(q) else q;
      if q.quarantined then (Quarantined, q)
      else if q.closing then (Closed, q)
      else if !q.hasSpace || sequence != q.nextSequence then (WrongSequence, q)
      else if Capacity(request) > q.limits.parameterBytes then (OutOfMemory, q)
      else if |q.entries| >= q.limits.commands || Capacity(request) > q.limits.parameterBytes - q.parameterBytes
        then (Full, q)
      else if fault then (OutOfMemory, q)
      else
        (Accepted,
         q.(entries := q.entries + [Entry(sequence, 0, request.operation, request.context, request.stream, Queued, None,
                                          Some(Packed(request)), |request.parameters|, false, false, false)],
            parameterBytes := q.parameterBytes + Capacity(request),
            hasSpace := sequence != U64_MAX,
            nextSequence := if sequence == U64_MAX then sequence else sequence + 1))
  }

  function HostResult(q: Queue, r: Receipt): Option<Reply> {
    var i := Find(q, r);
    if i.Some? && !q.entries[i.value].acknowledged then q.entries[i.value].reply else None
  }

  function Acknowledge(q: Queue, r: Receipt): (bool, Queue) {
    var i := Find(q, r);
    if i.None? || q.entries[i.value].reply.None? || q.entries[i.value].acknowledged then (false, q)
    else (true, Collect(Put(q, i.value, q.entries[i.value].(acknowledged := true)), i.value))
  }

  function Close(q: Queue): Queue {
    q.(closing := true)
  }

  function Shutdown(q: Queue): (bool, Queue) {
    (q.entries == [], q.(closing := true))
  }

  // ---------------------------------------------------------------------------
  // Executor side: issuing

  /** With a receipt only that command may be taken. */
  function Selected(q: Queue, receipt: Option<Receipt>): (found: Option<nat>)
    ensures found.Some? ==> found.value < |q.entries| && q.entries[found.value].phase == Queued
  {
    match receipt
    case None => FirstQueued(q.entries, 0)
    case Some(r) =>
      var i := Find(q, r);
      if i.Some? && q.entries[i.value].phase == Queued then i else None
  }

  function TakeNext(q: Queue, caller: nat, receipt: Option<Receipt>): (Option<Issue>, Queue)
    requires AllBacked(q)
  {
    if !IsExecutor(q, caller) || q.quarantined || IsIssuing(q.entries) then (None, q)
    else
      var i := Selected(q, receipt);
      if i.None? then (None, q)
      else
        assert Backed(q.entries[i.value]);
        var e := q.entries[i.value].(phase := Issuing, generation := 1);
        (Some(IssueOf(q, e)), Put(q, i.value, e))
  }

  /** Preparation is allowed only before the first issue. */
  predicate Preparable(q: Queue, caller: nat, i: Option<nat>)
    requires i.Some? ==> i.value < |q.entries|
  {
    && IsExecutor(q, caller) && !q.quarantined && i.Some?
    && var e := q.entries[i.value];
       e.payload.Some? && e.phase == Queued && e.generation == 0 && e.reply.None? && !e.releasing
  }

  function LimitUnissued(q: Queue, caller: nat, r: Receipt, bytes: nat): (bool, Queue) {
    var i := Find(q, r);
    if !Preparable(q, caller, i) || bytes > q.entries[i.value].issueBytes then (false, q)
    else (true, Put(q, i.value, q.entries[i.value].(issueBytes := bytes)))
  }

  function CopyUnissued(q: Queue, caller: nat, r: Receipt, length: nat): Option<seq<u8>>
    requires AllBacked(q)
  {
    var i := Find(q, r);
    if !Preparable(q, caller, i) || length != q.entries[i.value].issueBytes then None
    else
      assert Backed(q.entries[i.value]);
      Some(q.entries[i.value].payload.value[..length])
  }

  function Overwritten(bytes: seq<u8>, offset: nat, input: seq<u8>): (out: seq<u8>)
    requires offset + |input| <= |bytes|
    ensures |out| == |bytes| && out[offset..offset + |input|] == input
    ensures forall k | 0 <= k < |bytes| && !(offset <= k < offset + |input|) :: out[k] == bytes[k]
  {
    bytes[..offset] + input + bytes[offset + |input|..]
  }

  function ReplaceUnissued(q: Queue, caller: nat, r: Receipt, input: seq<u8>): (bool, Queue) {
    var i := Find(q, r);
    if !Preparable(q, caller, i) || |input| > |q.entries[i.value].payload.value| then (false, q)
    else
      var e := q.entries[i.value];
      (true, Put(q, i.value, e.(payload := Some(Overwritten(e.payload.value, 0, input)), issueBytes := |input|)))
  }

  function PatchIssue(q: Queue, caller: nat, t: Token, offset: nat, bytes: seq<u8>): (bool, Queue)
    requires AllBacked(q)
  {
    var i := FindIssue(q, t);
    if |bytes| == 0 || !IsExecutor(q, caller) || q.quarantined || i.None? || q.entries[i.value].payload.None?
       || !Active(q.entries[i.value]) then (false, q)
    else
      var e := q.entries[i.value];
      assert Backed(e);
      if offset > e.issueBytes || |bytes| > e.issueBytes - offset then (false, q)
      else (true, Put(q, i.value, e.(payload := Some(Overwritten(e.payload.value, offset, bytes)))))
  }

  /** The answer to a first issue. */
  function Publish(q: Queue, caller: nat, t: Token, reply: Reply): (bool, Queue) {
    var i := FindIssue(q, t);
    if !IsExecutor(q, caller) || i.None? || q.entries[i.value].phase != Issuing then (false, q)
    else (true, Put(q, i.value, q.entries[i.value].(reply := Some(reply), phase := HostReturned)))
  }

  function PublishHostResult(q: Queue, caller: nat, t: Token, status: int): (bool, Queue) {
    Publish(q, caller, t, Reply(status, NativeSdk))
  }

  function PublishPreparationFailure(q: Queue, caller: nat, t: Token, status: int): (bool, Queue) {
    if status == 0 then (false, q) else Publish(q, caller, t, Reply(status, RejectedBeforeIssue))
  }

  function FailUncertain(q: Queue, caller: nat, t: Token, status: int): (bool, Queue) {
    var i := FindIssue(q, t);
    if status == 0 || !IsExecutor(q, caller) || i.None? || !Active(q.entries[i.value]) then (false, q)
    else
      var e := q.entries[i.value];
      var reply := if e.phase == Issuing then Some(Reply(status, UncertainIssue)) else e.reply;
      (true, Lockdown(Put(q, i.value, e.(reply := reply, phase := HostReturned))))
  }

  function Pause(q: Queue, caller: nat, t: Token): (bool, Queue) {
    var i := FindIssue(q, t);
    if !IsExecutor(q, caller) || i.None? || q.entries[i.value].phase != HostReturned || q.entries[i.value].stopped
       || q.entries[i.value].reply != Some(Reply(0, NativeSdk)) then (false, q)
    else (true, Put(q, i.value, q.entries[i.value].(phase := Paused)))
  }

  function Resume(q: Queue, caller: nat, t: Token): (Option<Issue>, Queue)
    requires AllBacked(q)
  {
    var i := FindIssue(q, t);
    if !IsExecutor(q, caller) || q.quarantined || i.None? || q.entries[i.value].phase != Paused || IsIssuing(q.entries)
      then (None, q)
    else if q.entries[i.value].generation == U64_MAX then (None, Lockdown(q))
    else
      assert Backed(q.entries[i.value]);
      var e := q.entries[i.value].(phase := Resuming, generation := q.entries[i.value].generation + 1);
      (Some(IssueOf(q, e)), Put(q, i.value, e))
  }

  function FinishContinuation(q: Queue, caller: nat, t: Token): (bool, Queue) {
    var i := FindIssue(q, t);
    if !IsExecutor(q, caller) || i.None? || q.entries[i.value].phase != Resuming then (false, q)
    else (true, Put(q, i.value, q.entries[i.value].(phase := HostReturned)))
  }

  // ---------------------------------------------------------------------------
  // Executor side: retiring. The first locked section only marks; the payload is taken, destroyed and
  // discharged in later ones.

  function Retired(e: Entry): Entry {
    e.(stopped := true, releasing := true)
  }

  function RejectUnissued(q: Queue, caller: nat, r: Receipt, status: int): (bool, Queue) {
    var i := Find(q, r);
    if status == 0 || !IsExecutor(q, caller) || i.None? || q.entries[i.value].phase != Queued then (false, q)
    else
      (true, Put(q, i.value, Retired(q.entries[i.value].(reply := Some(Reply(status, RejectedBeforeIssue)),
        phase := HostReturned))))
  }

  function RejectBeforeNative(q: Queue, caller: nat, t: Token, status: int): (bool, Queue) {
    var i := FindIssue(q, t);
    if status == 0 || !IsExecutor(q, caller) || i.None? || q.entries[i.value].phase != Issuing then (false, q)
    else
      (true, Put(q, i.value, Retired(q.entries[i.value].(reply := Some(Reply(status, RejectedBeforeIssue)),
        phase := HostReturned))))
  }

  function Complete(q: Queue, caller: nat, t: Token): (bool, Queue) {
    var i := FindIssue(q, t);
    if !IsExecutor(q, caller) || i.None? || q.entries[i.value].phase != HostReturned || q.entries[i.value].stopped
      then (false, q)
    else (true, Put(q, i.value, Retired(q.entries[i.value])))
  }

  /** The payload leaves the entry; its bytes stay charged. */
  function TakePayload(q: Queue, i: nat): (nat, Queue)
    requires i < |q.entries| && q.entries[i].releasing && q.entries[i].payload.Some?
  {
    (|q.entries[i].payload.value|, Put(q, i, q.entries[i].(payload := None)))
  }

  /** The payload has been destroyed. */
  function FinishRelease(q: Queue, i: nat, bytes: nat): Queue
    requires i < |q.entries| && bytes <= q.parameterBytes
  {
    Collect(Put(q, i, q.entries[i].(releasing := false)).(parameterBytes := q.parameterBytes - bytes), i)
  }
}
