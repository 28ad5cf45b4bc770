/** The wire form of an execution reply: encoding and decoding. */
module ReplyCodecModel {
  import opened Common

  type i32 = x: int | -0x8000_0000 <= x <= 0x7FFF_FFFF

  const COMPLETE: u32 := 1
  const REJECTED: u32 := 2
  const COMPUTE_REPLACEMENT: u32 := 3
  const ADMISSION_ACCEPTED: u32 := 4
  const ADMISSION_BUSY: u32 := 5
  const MAX_ARGUMENTS: nat := 4096
  const HEADER_BYTES: nat := 44

  datatype Argument = Argument(offset: u64, bytes: u64)

  datatype Reply = Reply(
    disposition: u32, status: i32, original: Option<i32>, id: u64, address: u64, parameterBytes: u64,
    arguments: seq<Argument>, data: seq<u8>)

  // ---------------------------------------------------------------------------
  // Little-endian integers

  function Power(n: nat): (p: nat)
    ensures p > 0
  {
    if n == 0 then 1 else 256 * Power(n - 1)
  }

  /** The low n bytes of v. */
  function Bytes(v: nat, n: nat): (b: seq<u8>)
    ensures |b| == n
  {
    if n == 0 then [] else [v % 256] + Bytes(v / 256, n - 1)
  }

  function Integer(b: seq<u8>): nat
    decreases |b|
  {
    if b == [] then 0 else b[0] + 256 * Integer(b[1..])
  }

  lemma {:induction false} IntegerOfBytes(v: nat, n: nat)
    requires v < Power(n)
    ensures Integer(Bytes(v, n)) == v
  {
    if n > 0 {
      assert v / 256 < Power(n - 1);
      IntegerOfBytes(v / 256, n - 1);
      assert Bytes(v, n)[1..] == Bytes(v / 256, n - 1);
    }
  }

  lemma {:induction false} BytesOfInteger(b: seq<u8>)
    ensures Integer(b) < Power(|b|) && Bytes(Integer(b), |b|) == b
    decreases |b|
  {
    if b != [] {
      BytesOfInteger(b[1..]);
      var rest := Integer(b[1..]);
      assert Integer(b) % 256 == b[0] && Integer(b) / 256 == rest;
      assert b == [b[0]] + b[1..];
    }
  }

  lemma Powers()
    ensures Power(4) == 0x1_0000_0000 && Power(8) == 0x1_0000_0000_0000_0000
  {
    assert Power(2) == 0x1_0000;
    assert Power(4) == 256 * (256 * Power(2));
    assert Power(6) == 256 * (256 * Power(4));
  }

  /** A field of a fixed width holds its value. */
  lemma Field(v: nat, n: nat)
    requires (n == 4 && v <= U32_MAX) || (n == 8 && v <= U64_MAX)
    ensures Integer(Bytes(v, n)) == v
  {
    Powers();
    IntegerOfBytes(v, n);
  }

  function Word(b: seq<u8>): (v: u32)
    requires |b| == 4
  {
    Powers();
    BytesOfInteger(b);
    Integer(b)
  }

  function Long(b: seq<u8>): (v: u64)
    requires |b| == 8
  {
    Powers();
    BytesOfInteger(b);
    Integer(b)
  }

  /** Two's complement. */
  function Unsigned(x: i32): u32 {
    if x < 0 then x + 0x1_0000_0000 else x
  }

  function Signed(x: u32): i32 {
    if x > 0x7FFF_FFFF then x - 0x1_0000_0000 else x
  }

  // ---------------------------------------------------------------------------
  // Which replies are well formed

  predicate ValidArgument(a: Argument, parameterBytes: u64, previousEnd: u64) {
    a.bytes != 0 && a.offset >= previousEnd && a.offset <= parameterBytes && a.bytes <= parameterBytes - a.offset
  }

  predicate ValidArguments(arguments: seq<Argument>, parameterBytes: u64, previousEnd: u64)
    decreases |arguments|
  {
    arguments == []
    || (ValidArgument(arguments[0], parameterBytes, previousEnd)
        && ValidArguments(arguments[1..], parameterBytes, arguments[0].offset + arguments[0].bytes))
  }

  predicate Bare(r: Reply) {
    r.status == 0 && r.original.None? && r.parameterBytes == 0 && r.arguments == [] && r.data == []
  }

  predicate ValidReply(r: Reply) {
    && |r.arguments| <= MAX_ARGUMENTS && COMPLETE <= r.disposition <= ADMISSION_BUSY
    && (r.disposition == ADMISSION_BUSY ==> Bare(r) && r.id == 0 && r.address == 0)
    && (r.disposition == COMPUTE_REPLACEMENT ==> r.original.None? && r.id != 0)
    && (r.disposition == ADMISSION_ACCEPTED ==> Bare(r) && r.id != 0 && r.address != 0)
    && ValidArguments(r.arguments, r.parameterBytes, 0)
  }

  // ---------------------------------------------------------------------------
  // Encoding

  function ArgumentBytes(arguments: seq<Argument>): (b: seq<u8>)
    ensures |b| == 16 * |arguments|
    decreases |arguments|
  {
    if arguments == [] then []
    else Bytes(arguments[0].offset, 8) + Bytes(arguments[0].bytes, 8) + ArgumentBytes(arguments[1..])
  }

  function Header(r: Reply): (b: seq<u8>)
    ensures |b| == HEADER_BYTES
  {
    Bytes(r.disposition, 4) + Bytes(Unsigned(r.status), 4) + Bytes(if r.original.Some? then 1 else 0, 4)
    + Bytes(if r.original.Some? then Unsigned(r.original.value) else 0, 4)
    + Bytes(r.id, 8) + Bytes(r.address, 8) + Bytes(r.parameterBytes, 8) + Bytes(|r.arguments|, 4)
  }

  function Wire(r: Reply): (b: seq<u8>)
    ensures |b| == HEADER_BYTES + 16 * |r.arguments| + 4 + |r.data|
  {
    Header(r) + ArgumentBytes(r.arguments) + Bytes(|r.data|, 4) + r.data
  }

  function Encode(r: Reply, limit: nat): Option<seq<u8>> {
    if !ValidReply(r) || |r.data| > U32_MAX || |Wire(r)| > limit then None else Some(Wire(r))
  }

  // ---------------------------------------------------------------------------
  // Decoding

  function DecodeArguments(b: seq<u8>, parameterBytes: u64, previousEnd: u64): Option<seq<Argument>>
    requires |b| % 16 == 0
    decreases |b|
  {
    if b == [] then Some([])
    else
      var a := Argument(Long(b[0..8]), Long(b[8..16]));
      if !ValidArgument(a, parameterBytes, previousEnd) then None
      else
        var rest := DecodeArguments(b[16..], parameterBytes, a.offset + a.bytes);
        if rest.None? then None else Some([a] + rest.value)
  }

  /** The fixed part of a reply. */
  datatype Fixed = Fixed(disposition: u32, status: u32, hasOriginal: u32, original: u32, id: u64, address: u64,
    parameterBytes: u64, count: u32)

  function DecodeFixed(b: seq<u8>): Fixed
    requires |b| >= HEADER_BYTES
  {
    Fixed(Word(b[0..4]), Word(b[4..8]), Word(b[8..12]), Word(b[12..16]), Long(b[16..24]), Long(b[24..32]),
      Long(b[32..40]), Word(b[40..44]))
  }

  predicate ValidFixed(f: Fixed) {
    && COMPLETE <= f.disposition <= ADMISSION_BUSY && f.hasOriginal <= 1 && (f.hasOriginal == 0 ==> f.original == 0)
       && f.count <= MAX_ARGUMENTS
    && !(f.disposition == ADMISSION_BUSY
         && (f.status != 0 || f.hasOriginal != 0 || f.id != 0 || f.address != 0 || f.parameterBytes != 0
             || f.count != 0))
    && !(f.disposition == COMPUTE_REPLACEMENT && (f.hasOriginal != 0 || f.id == 0))
  }

  function Assemble(f: Fixed, arguments: seq<Argument>, data: seq<u8>): Reply {
    Reply(f.disposition, Signed(f.status),
          if f.hasOriginal == 1 then Some(Signed(f.original)) else None, f.id, f.address,
          f.parameterBytes, arguments, data)
  }

  function Decode(b: seq<u8>): Option<Reply> {
    if |b| < HEADER_BYTES then None
    else
      var f := DecodeFixed(b);
      var end := HEADER_BYTES + 16 * f.count;
      if !ValidFixed(f) || |b| < end + 4 then None
      else
        var arguments := DecodeArguments(b[HEADER_BYTES..end], f.parameterBytes, 0);
        var length := Word(b[end..end + 4]);
        if arguments.None? || end + 4 + length != |b| then None
        else
          var r := Assemble(f, arguments.value, b[end + 4..]);
          if r.disposition == ADMISSION_BUSY && r.data != [] then None
          else if r.disposition == ADMISSION_ACCEPTED && (!Bare(r) || r.id == 0 || r.address == 0) then None
          else Some(r)
  }
}
