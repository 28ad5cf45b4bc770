/** Encoding and decoding are inverse in both directions. */
module ReplyCodecTheorems {
  import opened Common
  import opened ReplyCodecModel

  // ---------------------------------------------------------------------------
  // Fields

  lemma WordOf(v: u32)
    ensures Word(Bytes(v, 4)) == v
  {
    Field(v, 4);
  }

  lemma LongOf(v: u64)
    ensures Long(Bytes(v, 8)) == v
  {
    Field(v, 8);
  }

  lemma BytesOfWord(b: seq<u8>)
    requires |b| == 4
    ensures Bytes(Word(b), 4) == b
  {
    BytesOfInteger(b);
  }

  lemma BytesOfLong(b: seq<u8>)
    requires |b| == 8
    ensures Bytes(Long(b), 8) == b
  {
    BytesOfInteger(b);
  }

  lemma SignRoundTrip(x: i32, y: u32)
    ensures Signed(Unsigned(x)) == x && Unsigned(Signed(y)) == y
  {
  }

  // ---------------------------------------------------------------------------
  // The fixed part

  function FixedOf(r: Reply): Fixed
    requires |r.arguments| <= MAX_ARGUMENTS
  {
    Fixed(r.disposition, Unsigned(r.status), if r.original.Some? then 1 else 0,
          if r.original.Some? then Unsigned(r.original.value) else 0,
          r.id, r.address, r.parameterBytes, |r.arguments|)
  }

  function FixedBytes(f: Fixed): (b: seq<u8>)
    ensures |b| == HEADER_BYTES
  {
    Bytes(f.disposition, 4) + Bytes(f.status, 4) + Bytes(f.hasOriginal, 4) + Bytes(f.original, 4)
    + Bytes(f.id, 8) + Bytes(f.address, 8) + Bytes(f.parameterBytes, 8) + Bytes(f.count, 4)
  }

  lemma FixedSlices(f: Fixed, rest: seq<u8>)
    ensures var b := FixedBytes(f) + rest;
            && b[0..4] == Bytes(f.disposition, 4) && b[4..8] == Bytes(f.status, 4)
            && b[8..12] == Bytes(f.hasOriginal, 4)
            && b[12..16] == Bytes(f.original, 4) && b[16..24] == Bytes(f.id, 8) && b[24..32] == Bytes(f.address, 8)
            && b[32..40] == Bytes(f.parameterBytes, 8) && b[40..44] == Bytes(f.count, 4)
  {
    hide Bytes;
  }

  lemma FixedDecodes(f: Fixed, rest: seq<u8>)
    ensures DecodeFixed(FixedBytes(f) + rest) == f
  {
    hide Bytes, Word, Long, FixedBytes;
    FixedSlices(f, rest);
    WordOf(f.disposition);
    WordOf(f.status);
    WordOf(f.hasOriginal);
    WordOf(f.original);
    LongOf(f.id);
    LongOf(f.address);
    LongOf(f.parameterBytes);
    WordOf(f.count);
  }

  lemma FixedEncodes(b: seq<u8>)
    requires |b| >= HEADER_BYTES
    ensures FixedBytes(DecodeFixed(b)) == b[..HEADER_BYTES]
  {
    hide Bytes, Word, Long;
    BytesOfWord(b[0..4]);
    BytesOfWord(b[4..8]);
    BytesOfWord(b[8..12]);
    BytesOfWord(b[12..16]);
    BytesOfLong(b[16..24]);
    BytesOfLong(b[24..32]);
    BytesOfLong(b[32..40]);
    BytesOfWord(b[40..44]);
    assert b[..44] == b[0..4] + b[4..8] + b[8..12] + b[12..16] + b[16..24] + b[24..32] + b[32..40] + b[40..44];
  }

  // ---------------------------------------------------------------------------
  // Arguments

  lemma {:induction false} ArgumentsDecode(arguments: seq<Argument>, parameterBytes: u64, previousEnd: u64)
    requires ValidArguments(arguments, parameterBytes, previousEnd)
    ensures DecodeArguments(ArgumentBytes(arguments), parameterBytes, previousEnd) == Some(arguments)
    decreases |arguments|
  {
    if arguments != [] {
      var a, rest := arguments[0], ArgumentBytes(arguments[1..]);
      hide Bytes, Long;
      var b := ArgumentBytes(arguments);
      assert b[0..8] == Bytes(a.offset, 8) && b[8..16] == Bytes(a.bytes, 8) && b[16..] == rest;
      LongOf(a.offset);
      LongOf(a.bytes);
      ArgumentsDecode(arguments[1..], parameterBytes, a.offset + a.bytes);
      assert arguments == [a] + arguments[1..];
    }
  }

  lemma {:induction false} ArgumentsEncode(b: seq<u8>, parameterBytes: u64, previousEnd: u64)
    requires |b| % 16 == 0 && DecodeArguments(b, parameterBytes, previousEnd).Some?
    ensures var arguments := DecodeArguments(b, parameterBytes, previousEnd).value;
            && ArgumentBytes(arguments) == b && ValidArguments(arguments, parameterBytes, previousEnd)
            && |b| == 16 * |arguments|
    decreases |b|
  {
    hide Bytes, Long;
    if b != [] {
      var a := Argument(Long(b[0..8]), Long(b[8..16]));
      ArgumentsEncode(b[16..], parameterBytes, a.offset + a.bytes);
      BytesOfLong(b[0..8]);
      BytesOfLong(b[8..16]);
      var arguments := DecodeArguments(b, parameterBytes, previousEnd).value;
      assert arguments[0] == a && arguments[1..] == DecodeArguments(b[16..], parameterBytes, a.offset + a.bytes).value;
      assert b == b[0..8] + b[8..16] + b[16..];
    }
  }

  /** Accepted arguments are not empty, follow each other without overlap, and lie inside the parameter block,
      in unbounded arithmetic and so without wrap-around. */
  lemma {:induction false} ArgumentsAreDisjoint(arguments: seq<Argument>, parameterBytes: u64, previousEnd: u64, i: nat,
    j: nat)
    requires ValidArguments(arguments, parameterBytes, previousEnd) && i < |arguments| && j < |arguments|
    ensures arguments[i].bytes > 0 && previousEnd <= arguments[i].offset
            && arguments[i].offset + arguments[i].bytes <= parameterBytes
    ensures i < j ==> arguments[i].offset + arguments[i].bytes <= arguments[j].offset
    decreases |arguments|
  {
    var rest, end := arguments[1..], arguments[0].offset + arguments[0].bytes;
    if j > 0 {
      ArgumentsAreDisjoint(rest, parameterBytes, end, if i > 0 then i - 1 else 0, j - 1);
    }
    if i > 0 {
      ArgumentsAreDisjoint(rest, parameterBytes, end, i - 1, i - 1);
    }
  }

  // ---------------------------------------------------------------------------
  // Whole replies

  lemma HeaderIsFixed(r: Reply)
    requires |r.arguments| <= MAX_ARGUMENTS
    ensures Header(r) == FixedBytes(FixedOf(r))
  {
    hide Bytes;
  }

  lemma WireSlices(r: Reply)
    requires |r.arguments| <= MAX_ARGUMENTS
    ensures var b := Wire(r);
            var end := HEADER_BYTES + 16 * |r.arguments|;
            && b[HEADER_BYTES..end] == ArgumentBytes(r.arguments) && b[end..end + 4] == Bytes(|r.data|, 4)
            && b[end + 4..] == r.data
            && b == Header(r) + (ArgumentBytes(r.arguments) + Bytes(|r.data|, 4) + r.data)
  {
    hide Bytes, Header, ArgumentBytes;
  }

  /** What was encoded decodes to itself. */
  lemma DecodesWhatItEncodes(r: Reply, limit: nat)
    requires Encode(r, limit).Some?
    ensures Decode(Encode(r, limit).value) == Some(r)
  {
    hide Bytes, Word, Long, Header, FixedBytes, ArgumentBytes, DecodeArguments, DecodeFixed, Wire;
    var b := Wire(r);
    WireSlices(r);
    HeaderIsFixed(r);
    FixedDecodes(FixedOf(r), ArgumentBytes(r.arguments) + Bytes(|r.data|, 4) + r.data);
    ArgumentsDecode(r.arguments, r.parameterBytes, 0);
    WordOf(|r.data|);
    SignRoundTrip(r.status, 0);
    if r.original.Some? { SignRoundTrip(r.original.value, 0); }
  }

  /** What was decoded encodes to the very same bytes, if the limit lets them through. */
  lemma EncodesWhatItDecodes(b: seq<u8>, limit: nat)
    requires Decode(b).Some? && |b| <= limit
    ensures Encode(Decode(b).value, limit) == Some(b)
  {
    hide Bytes, Word, Long, FixedBytes, ArgumentBytes, DecodeArguments, DecodeFixed, Header;
    var r := Decode(b).value;
    var f := DecodeFixed(b);
    var end := HEADER_BYTES + 16 * f.count;
    ArgumentsEncode(b[HEADER_BYTES..end], f.parameterBytes, 0);
    SignRoundTrip(0, f.status);
    SignRoundTrip(0, f.original);
    HeaderIsFixed(r);
    FixedEncodes(b);
    BytesOfWord(b[end..end + 4]);
    assert b == b[..HEADER_BYTES] + b[HEADER_BYTES..end] + b[end..end + 4] + b[end + 4..];
  }

  /** So no two replies share a wire form, and no two wire forms a reply. */
  lemma NothingIsAmbiguous(b: seq<u8>, c: seq<u8>)
    requires Decode(b).Some? && Decode(b) == Decode(c)
    ensures b == c
  {
    hide Decode, Encode;
    EncodesWhatItDecodes(b, |b| + |c|);
    EncodesWhatItDecodes(c, |b| + |c|);
  }

  /** What a decoder's caller may rely on. */
  lemma DecodedIsValid(b: seq<u8>)
    requires Decode(b).Some?
    ensures ValidReply(Decode(b).value)
    ensures var r := Decode(b).value;
            && (forall i | 0 <= i < |r.arguments| ::
                  r.arguments[i].bytes > 0 && r.arguments[i].offset + r.arguments[i].bytes <= r.parameterBytes)
            && (forall i, j | 0 <= i < j < |r.arguments| ::
                  r.arguments[i].offset + r.arguments[i].bytes <= r.arguments[j].offset)
  {
    hide Decode;
    EncodesWhatItDecodes(b, |b|);
    var r := Decode(b).value;
    forall i, j | 0 <= i <= j < |r.arguments|
      ensures r.arguments[i].bytes > 0 && r.arguments[i].offset + r.arguments[i].bytes <= r.parameterBytes
      ensures i < j ==> r.arguments[i].offset + r.arguments[i].bytes <= r.arguments[j].offset
    {
      ArgumentsAreDisjoint(r.arguments, r.parameterBytes, 0, i, j);
    }
  }
}
