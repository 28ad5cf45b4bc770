/** The writer that appends to a buffer, the reader that advances through one, and the codec's loops. */
module ReplyCodec {
  import opened Common
  import opened ReplyCodecModel
  import opened ReplyCodecTheorems

  lemma {:induction false} BytesAppend(v: nat, n: nat)
    ensures Bytes(v, n + 1) == Bytes(v, n) + [(v / Power(n)) % 256]
  {
    if n > 0 {
      BytesAppend(v / 256, n - 1);
      Quotients(v, Power(n - 1));
    }
  }

  lemma Quotients(v: nat, p: nat)
    requires p > 0
    ensures 256 * p > 0 && v / (256 * p) == v / 256 / p
  {
    var q, r := v / (256 * p), v % (256 * p);
    assert v == 256 * p * q + r;
    assert v / 256 == p * q + r / 256 by {
      assert v == 256 * (p * q) + r;
    }
    assert r / 256 < p;
    Division(p, q, r / 256);
  }

  lemma Division(p: nat, q: nat, r: nat)
    requires r < p
    ensures (p * q + r) / p == q
  {
    var x := (p * q + r) / p;
    assert p * x <= p * q + r < p * x + p;
    Products(p, x, q);
    Products(p, q, x);
  }

  lemma {:induction false} Products(p: nat, a: nat, b: nat)
    ensures a < b ==> p * a + p <= p * b
    decreases b
  {
    if a < b {
      Products(p, a, b - 1);
      assert p * b == p * (b - 1) + p;
    }
  }

  lemma {:induction false} IntegerAppend(b: seq<u8>, last: u8)
    ensures Integer(b + [last]) == Integer(b) + Power(|b|) * last
    decreases |b|
  {
    if b != [] {
      assert (b + [last])[1..] == b[1..] + [last];
      IntegerAppend(b[1..], last);
    } else {
      assert ([] + [last])[1..] == [];
    }
  }

  class PayloadWriter {
    const limit: nat
    var bytes: seq<u8>

    ghost predicate Valid()
      reads this
    {
      |bytes| <= limit
    }

    constructor (bound: nat)
      ensures Valid() && limit == bound && bytes == []
    {
      limit, bytes := bound, [];
    }

    /** The low bytes of the value, lowest first. */
    method AppendInteger(value: nat, count: nat)
      modifies this
      ensures bytes == old(bytes) + Bytes(value, count)
    {
      var shift: nat := 1;
      for i := 0 to count
        invariant bytes == old(bytes) + Bytes(value, i) && shift == Power(i)
      {
        BytesAppend(value, i);
        bytes := bytes + [(value / shift) % 256];
        shift := shift * 256;
      }
    }

    method WriteWord(value: u32) returns (ok: bool)
      requires Valid()
      modifies this
      ensures Valid() && (ok <==> |old(bytes)| + 4 <= limit)
      ensures bytes == if ok then old(bytes) + Bytes(value, 4) else old(bytes)
    {
      if limit - |bytes| < 4 { return false; }
      AppendInteger(value, 4);
      ok := true;
    }

    method WriteLong(value: u64) returns (ok: bool)
      requires Valid()
      modifies this
      ensures Valid() && (ok <==> |old(bytes)| + 8 <= limit)
      ensures bytes == if ok then old(bytes) + Bytes(value, 8) else old(bytes)
    {
      if limit - |bytes| < 8 { return false; }
      AppendInteger(value, 8);
      ok := true;
    }

    method WriteBlob(blob: seq<u8>) returns (ok: bool)
      requires Valid()
      modifies this
      ensures Valid() && (ok <==> |blob| <= U32_MAX && |old(bytes)| + 4 + |blob| <= limit)
      ensures bytes == if ok then old(bytes) + Bytes(|blob|, 4) + blob else old(bytes)
    {
      if |blob| > U32_MAX || limit - |bytes| < 4 || |blob| > limit - |bytes| - 4 { return false; }
      AppendInteger(|blob|, 4);
      bytes := bytes + blob;
      ok := true;
    }
  }

  class PayloadReader {
    const bytes: seq<u8>
    var position: nat

    ghost predicate Valid()
      reads this
    {
      position <= |bytes|
    }

    constructor (b: seq<u8>)
      ensures Valid() && bytes == b && position == 0
    {
      bytes, position := b, 0;
    }

    method ReadInteger(count: nat) returns (value: nat)
      requires Valid() && position + count <= |bytes|
      ensures value == Integer(bytes[position..position + count])
    {
      value := 0;
      var shift: nat := 1;
      for i := 0 to count
        invariant value == Integer(bytes[position..position + i]) && shift == Power(i)
      {
        IntegerAppend(bytes[position..position + i], bytes[position + i]);
        assert bytes[position..position + i + 1] == bytes[position..position + i] + [bytes[position + i]];
        value := value + shift * bytes[position + i];
        shift := shift * 256;
      }
    }

    method ReadWord() returns (value: Option<u32>)
      requires Valid()
      modifies this
      ensures Valid() && (value.Some? <==> old(position) + 4 <= |bytes|)
      ensures value.Some? ==> position == old(position) + 4 && value.value == Word(bytes[old(position)..position])
      ensures value.None? ==> position == old(position)
    {
      if |bytes| - position < 4 { return None; }
      var v := ReadInteger(4);
      ghost var w := Word(bytes[position..position + 4]);
      value := Some(v);
      position := position + 4;
    }

    method ReadLong() returns (value: Option<u64>)
      requires Valid()
      modifies this
      ensures Valid() && (value.Some? <==> old(position) + 8 <= |bytes|)
      ensures value.Some? ==> position == old(position) + 8 && value.value == Long(bytes[old(position)..position])
      ensures value.None? ==> position == old(position)
    {
      if |bytes| - position < 8 { return None; }
      var v := ReadInteger(8);
      ghost var w := Long(bytes[position..position + 8]);
      value := Some(v);
      position := position + 8;
    }

    method ReadBlob() returns (blob: Option<seq<u8>>)
      requires Valid()
      modifies this
      ensures Valid()
      ensures blob.Some? <==> old(position) + 4 <= |bytes|
                              && old(position) + 4 + Word(bytes[old(position)..old(position) + 4]) <= |bytes|
      ensures blob.Some? ==>
                position == old(position) + 4 + |blob.value| && blob.value == bytes[old(position) + 4..position]
                             && |blob.value| == Word(bytes[old(position)..old(position) + 4])
    {
      var length := ReadWord();
      if length.None? || length.value > |bytes| - position { return None; }
      blob := Some(bytes[position..position + length.value]);
      position := position + length.value;
    }
  }

  // ---------------------------------------------------------------------------
  // Encoding

  lemma {:induction false} ValidArgumentsSplit(arguments: seq<Argument>, parameterBytes: u64, previousEnd: u64, i: nat)
    requires i < |arguments|
    ensures ValidArguments(arguments[i..], parameterBytes, previousEnd) <==>
            ValidArgument(arguments[i], parameterBytes, previousEnd)
            && ValidArguments(arguments[i + 1..], parameterBytes, arguments[i].offset + arguments[i].bytes)
  {
    assert arguments[i..][1..] == arguments[i + 1..];
  }

  method CheckArguments(arguments: seq<Argument>, parameterBytes: u64) returns (ok: bool)
    ensures ok <==> ValidArguments(arguments, parameterBytes, 0)
  {
    var previousEnd: u64 := 0;
    assert arguments[0..] == arguments;
    for i := 0 to |arguments|
      invariant ValidArguments(arguments, parameterBytes, 0) <==>
                  ValidArguments(arguments[i..], parameterBytes, previousEnd)
    {
      var a := arguments[i];
      ValidArgumentsSplit(arguments, parameterBytes, previousEnd, i);
      if a.bytes == 0 || a.offset < previousEnd || a.offset > parameterBytes || a.bytes > parameterBytes - a.offset {
        return false;
      }
      previousEnd := a.offset + a.bytes;
    }
    ok := true;
  }

  lemma {:induction false} ArgumentBytesAppend(arguments: seq<Argument>, a: Argument)
    ensures ArgumentBytes(arguments + [a]) == ArgumentBytes(arguments) + (Bytes(a.offset, 8) + Bytes(a.bytes, 8))
    decreases |arguments|
  {
    hide Bytes;
    if arguments == [] {
      assert ([] + [a])[1..] == [];
    } else {
      assert (arguments + [a])[1..] == arguments[1..] + [a];
      ArgumentBytesAppend(arguments[1..], a);
    }
  }

  method WriteArguments(output: PayloadWriter, arguments: seq<Argument>) returns (ok: bool)
    requires output.Valid()
    modifies output
    ensures output.Valid() && (ok <==> |old(output.bytes)| + 16 * |arguments| <= output.limit)
    ensures ok ==> output.bytes == old(output.bytes) + ArgumentBytes(arguments)
  {
    hide Bytes, ArgumentBytes;
    assert arguments[..0] == [];
    NoArguments();
    for i := 0 to |arguments|
      invariant output.Valid() && output.bytes == old(output.bytes) + ArgumentBytes(arguments[..i])
    {
      var a := arguments[i];
      assert arguments[..i + 1] == arguments[..i] + [a];
      ArgumentBytesAppend(arguments[..i], a);
      ok := output.WriteLong(a.offset);
      if !ok { return; }
      ok := output.WriteLong(a.bytes);
      if !ok { return; }
    }
    assert arguments[..|arguments|] == arguments;
    ok := true;
  }

  lemma NoArguments()
    ensures ArgumentBytes([]) == []
  {
  }

  method WriteWords(output: PayloadWriter, a: u32, b: u32, c: u32, d: u32) returns (ok: bool)
    requires output.Valid()
    modifies output
    ensures output.Valid() && (ok <==> |old(output.bytes)| + 16 <= output.limit)
    ensures ok ==> output.bytes == old(output.bytes) + Bytes(a, 4) + Bytes(b, 4) + Bytes(c, 4) + Bytes(d, 4)
  {
    hide Bytes;
    ok := output.WriteWord(a);
    if !ok { return; }
    ok := output.WriteWord(b);
    if !ok { return; }
    ok := output.WriteWord(c);
    if !ok { return; }
    ok := output.WriteWord(d);
  }

  method WriteLongs(output: PayloadWriter, a: u64, b: u64, c: u64) returns (ok: bool)
    requires output.Valid()
    modifies output
    ensures output.Valid() && (ok <==> |old(output.bytes)| + 24 <= output.limit)
    ensures ok ==> output.bytes == old(output.bytes) + Bytes(a, 8) + Bytes(b, 8) + Bytes(c, 8)
  {
    hide Bytes;
    ok := output.WriteLong(a);
    if !ok { return; }
    ok := output.WriteLong(b);
    if !ok { return; }
    ok := output.WriteLong(c);
  }

  /** Fails, at whatever field, exactly when the whole header does not fit. */
  method WriteHeader(output: PayloadWriter, r: Reply) returns (ok: bool)
    requires output.Valid() && output.bytes == [] && |r.arguments| <= MAX_ARGUMENTS
    modifies output
    ensures output.Valid() && (ok <==> HEADER_BYTES <= output.limit) && (ok ==> output.bytes == Header(r))
  {
    hide Bytes;
    ok := WriteWords(output, r.disposition, Unsigned(r.status), if r.original.Some? then 1 else 0,
                     if r.original.Some? then Unsigned(r.original.value) else 0);
    if !ok { return; }
    assert [] + Bytes(r.disposition, 4) == Bytes(r.disposition, 4);
    ok := WriteLongs(output, r.id, r.address, r.parameterBytes);
    if !ok { return; }
    ok := output.WriteWord(|r.arguments|);
  }

  method EncodeReply(r: Reply, limit: nat) returns (out: Option<seq<u8>>)
    ensures out == Encode(r, limit)
  {
    hide Bytes, ArgumentBytes, Header;
    if |r.arguments| > MAX_ARGUMENTS || r.disposition < COMPLETE || r.disposition > ADMISSION_BUSY { return None; }
    var bare := r.status == 0 && r.original.None? && r.parameterBytes == 0 && r.arguments == [] && r.data == [];
    if r.disposition == ADMISSION_BUSY && (!bare || r.id != 0 || r.address != 0) { return None; }
    if r.disposition == COMPUTE_REPLACEMENT && (r.original.Some? || r.id == 0) { return None; }
    if r.disposition == ADMISSION_ACCEPTED && (!bare || r.id == 0 || r.address == 0) { return None; }
    var valid := CheckArguments(r.arguments, r.parameterBytes);
    if !valid { return None; }
    var output := new PayloadWriter(limit);
    var ok := WriteHeader(output, r);
    if !ok { return None; }
    ok := WriteArguments(output, r.arguments);
    if !ok { return None; }
    ok := output.WriteBlob(r.data);
    if !ok { return None; }
    out := Some(output.bytes);
  }

  // ---------------------------------------------------------------------------
  // Decoding

  /** The fixed fields, if they are all there. */
  method ReadFixed(input: PayloadReader) returns (f: Option<Fixed>)
    requires input.Valid() && input.position == 0
    modifies input
    ensures input.Valid() && (f.Some? <==> |input.bytes| >= HEADER_BYTES)
    ensures f.Some? ==> f.value == DecodeFixed(input.bytes) && input.position == HEADER_BYTES
  {
    hide Word, Long;
    var disposition := input.ReadWord();
    if disposition.None? { return None; }
    var status := input.ReadWord();
    if status.None? { return None; }
    var hasOriginal := input.ReadWord();
    if hasOriginal.None? { return None; }
    var original := input.ReadWord();
    if original.None? { return None; }
    var id := input.ReadLong();
    if id.None? { return None; }
    var address := input.ReadLong();
    if address.None? { return None; }
    var parameterBytes := input.ReadLong();
    if parameterBytes.None? { return None; }
    var count := input.ReadWord();
    if count.None? { return None; }
    f := Some(Fixed(disposition.value, status.value, hasOriginal.value, original.value, id.value, address.value,
      parameterBytes.value, count.value));
  }

  lemma {:induction false} DecodeArgumentsSplit(b: seq<u8>, parameterBytes: u64, previousEnd: u64)
    requires |b| % 16 == 0 && b != []
    ensures var a := Argument(Long(b[0..8]), Long(b[8..16]));
            DecodeArguments(b, parameterBytes, previousEnd) ==
              if !ValidArgument(a, parameterBytes, previousEnd) then None
              else
                var rest := DecodeArguments(b[16..], parameterBytes, a.offset + a.bytes);
                if rest.None? then None else Some([a] + rest.value)
  {
    hide Long;
  }

  /** Arguments so far, put before those still to come. */
  ghost function Prefixed(sofar: seq<Argument>, rest: Option<seq<Argument>>): Option<seq<Argument>> {
    if rest.None? then None else Some(sofar + rest.value)
  }

  method ReadArguments(input: PayloadReader, count: nat, parameterBytes: u64) returns (arguments: Option<seq<Argument>>)
    requires input.Valid() && count <= MAX_ARGUMENTS
    modifies input
    ensures input.Valid()
    ensures var start, end := old(input.position), old(input.position) + 16 * count;
            if end <= |input.bytes| then
              arguments == DecodeArguments(input.bytes[start..end], parameterBytes, 0)
                && (arguments.Some? ==> input.position == end)
            else arguments.None?
  {
    hide Word, Long, DecodeArguments, ValidArgument;
    ghost var start, end := input.position, input.position + 16 * count;
    ghost var all := if end <= |input.bytes| then DecodeArguments(input.bytes[start..end], parameterBytes, 0) else None;
    var sofar: seq<Argument> := [];
    var previousEnd: u64 := 0;
    if end <= |input.bytes| { NothingBefore(all); }
    for i := 0 to count
      invariant input.Valid() && input.position == start + 16 * i
      invariant end <= |input.bytes| ==>
                  all == Prefixed(sofar, DecodeArguments(input.bytes[start + 16 * i..end], parameterBytes, previousEnd))
    {
      ghost var from := input.position;
      var offset := input.ReadLong();
      if offset.None? { return None; }
      var size := input.ReadLong();
      if size.None? { return None; }
      var a := Argument(offset.value, size.value);
      if end <= |input.bytes| {
        ghost var b := input.bytes[from..end];
        assert b[0..8] == input.bytes[from..from + 8] && b[8..16] == input.bytes[from + 8..from + 16]
          && b[16..] == input.bytes[from + 16..end];
        DecodeArgumentsSplit(b, parameterBytes, previousEnd);
        if ValidArgument(a, parameterBytes, previousEnd) {
          PrefixedNext(sofar, a, DecodeArguments(b[16..], parameterBytes, EndOf(a, parameterBytes, previousEnd)));
        }
      }
      var valid := Check(a, parameterBytes, previousEnd);
      if !valid { return None; }
      previousEnd := EndOf(a, parameterBytes, previousEnd);
      sofar := sofar + [a];
    }
    NothingAfter(input.bytes[end..end], sofar, parameterBytes, previousEnd);
    arguments := Some(sofar);
  }

  method Check(a: Argument, parameterBytes: u64, previousEnd: u64) returns (ok: bool)
    ensures ok <==> ValidArgument(a, parameterBytes, previousEnd)
  {
    ok := a.bytes != 0 && a.offset >= previousEnd && a.offset <= parameterBytes && a.bytes <= parameterBytes - a.offset;
  }

  /** The end of a valid argument does not wrap around. */
  function EndOf(a: Argument, parameterBytes: u64, previousEnd: u64): (end: u64)
    requires ValidArgument(a, parameterBytes, previousEnd)
    ensures previousEnd < end <= parameterBytes
  {
    a.offset + a.bytes
  }

  lemma PrefixedNext(sofar: seq<Argument>, a: Argument, rest: Option<seq<Argument>>)
    ensures Prefixed(sofar, if rest.None? then None else Some([a] + rest.value)) == Prefixed(sofar + [a], rest)
  {
    if rest.Some? { assert sofar + ([a] + rest.value) == sofar + [a] + rest.value; }
  }

  lemma NothingBefore(all: Option<seq<Argument>>)
    ensures Prefixed([], all) == all
  {
    if all.Some? { assert [] + all.value == all.value; }
  }

  lemma NothingAfter(b: seq<u8>, sofar: seq<Argument>, parameterBytes: u64, previousEnd: u64)
    requires b == []
    ensures Prefixed(sofar, DecodeArguments(b, parameterBytes, previousEnd)) == Some(sofar)
  {
    assert sofar + [] == sofar;
  }

  method DecodeReply(b: seq<u8>) returns (reply: Option<Reply>)
    ensures reply == Decode(b)
  {
    hide Word, Long, DecodeArguments, DecodeFixed;
    var input := new PayloadReader(b);
    var fixed := ReadFixed(input);
    if fixed.None? { return None; }
    var f := fixed.value;
    if f.disposition < COMPLETE || f.disposition > ADMISSION_BUSY || f.hasOriginal > 1
      || (f.hasOriginal == 0 && f.original != 0)
       || f.count > MAX_ARGUMENTS {
      return None;
    }
    if f.disposition == ADMISSION_BUSY
       && (f.status != 0 || f.hasOriginal != 0 || f.id != 0 || f.address != 0 || f.parameterBytes != 0
           || f.count != 0) {
      return None;
    }
    if f.disposition == COMPUTE_REPLACEMENT && (f.hasOriginal != 0 || f.id == 0) { return None; }
    var arguments := ReadArguments(input, f.count, f.parameterBytes);
    if arguments.None? { return None; }
    var data := input.ReadBlob();
    if data.None? || input.position != |b| { return None; }
    assert data.value == b[HEADER_BYTES + 16 * f.count + 4..];
    var r := Assemble(f, arguments.value, data.value);
    if r.disposition == ADMISSION_BUSY && r.data != [] { return None; }
    if r.disposition == ADMISSION_ACCEPTED
       && (r.status != 0 || r.original.Some? || r.id == 0 || r.address == 0 || r.parameterBytes != 0
           || r.arguments != [] || r.data != []) {
      return None;
    }
    reply := Some(r);
  }
}
