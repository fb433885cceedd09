/** The ABI encoding of a CCTP message (primitives/src/cctp.rs) and its inverse. */
module Cctp {
  type Byte = b: nat | b < 256 witness 0
  type Bytes = seq<Byte>

  const BLOCK: nat := 32
  const U64: nat := 0x1_0000_0000_0000_0000

  // The words are always read from whole blocks, so the source's InvalidBlockSize cannot occur here.
  datatype DecodeError = InsufficientData

  /** `Panic` is a slice out of bounds or an overflow, which the source does not guard against. */
  datatype Outcome<T> = Ok(value: T) | Err(error: DecodeError) | Panic

  datatype Message = Message(attestation: Bytes, message: Bytes, extraData: Bytes)

  // --------------------------------------------------------- big-endian integers

  function Pow256(width: nat): (p: nat)
    ensures p > 0
  {
    if width == 0 then 1 else 256 * Pow256(width - 1)
  }

  function ToBigEndian(n: nat, width: nat): (s: Bytes)
    ensures |s| == width
  {
    if width == 0 then [] else ToBigEndian(n / 256, width - 1) + [n % 256]
  }

  function FromBigEndian(s: Bytes): (n: nat) {
    if s == [] then 0 else FromBigEndian(s[..|s| - 1]) * 256 + s[|s| - 1]
  }

  lemma {:induction false} BigEndianRoundTrip(n: nat, width: nat)
    requires n < Pow256(width)
    ensures FromBigEndian(ToBigEndian(n, width)) == n
  {
    if width > 0 {
      var s := ToBigEndian(n, width);
      assert s[..width - 1] == ToBigEndian(n / 256, width - 1);
      BigEndianRoundTrip(n / 256, width - 1);
    }
  }

  lemma EightBytes()
    ensures Pow256(8) == U64
  {
    assert Pow256(2) == 0x1_0000;
    assert Pow256(4) == 0x1_0000_0000;
    assert Pow256(6) == 0x1_0000_0000_0000;
  }

  // ----------------------------------------------------------------- encoding

  function Zeros(n: nat): (s: Bytes)
    ensures |s| == n && forall i :: 0 <= i < n ==> s[i] == 0
  {
    seq(n, _ => 0)
  }

  function LeftPad(s: Bytes): (block: Bytes)
    requires |s| <= BLOCK
    ensures |block| == BLOCK && block[BLOCK - |s|..] == s
  {
    Zeros(BLOCK - |s|) + s
  }

  /** A `u64` (or 64-bit `usize`) as one 32-byte block. */
  function Word(n: nat): (block: Bytes)
    ensures |block| == BLOCK
  {
    LeftPad(ToBigEndian(n, 8))
  }

  function Padding(length: nat): (p: nat)
    ensures (length + p) % BLOCK == 0 && p < BLOCK
  {
    if length % BLOCK == 0 then 0 else BLOCK - length % BLOCK
  }

  function EncodeDynamic(s: Bytes): (e: Bytes)
    ensures |e| == BLOCK + |s| + Padding(|s|)
  {
    Word(|s|) + s + Zeros(Padding(|s|))
  }

  function Head(m: Message): (h: Bytes)
    ensures |h| == 3 * BLOCK
  {
    var first := 3 * BLOCK;
    var second := first + |EncodeDynamic(m.attestation)|;
    var third := second + |EncodeDynamic(m.message)|;
    Word(first) + Word(second) + Word(third)
  }

  function Encode(m: Message): (e: Bytes) {
    Word(32) + Head(m) + EncodeDynamic(m.attestation) + EncodeDynamic(m.message) + EncodeDynamic(m.extraData)
  }

  // ----------------------------------------------------------------- decoding

  function DecodeDynamic(input: Bytes): (r: Outcome<(Bytes, nat)>) {
    if |input| < BLOCK then Err(InsufficientData)
    else
      var length := FromBigEndian(input[BLOCK - 8..BLOCK]);
      var total := BLOCK + (length + Padding(length));
      if total >= U64 then Panic
      else if |input| < total then Err(InsufficientData)
      else Ok((input[BLOCK..BLOCK + length], total))
  }

  /** Decodes the dynamic value found `offset` bytes into `input`. */
  function DecodeAt(input: Bytes, offset: nat): (r: Outcome<Bytes>) {
    if offset > |input| then Panic
    else
      match DecodeDynamic(input[offset..])
      case Ok((value, _)) => Ok(value)
      case Err(e) => Err(e)
      case Panic => Panic
  }

  function FromBytes(bytes: Bytes): (r: Outcome<Message>) {
    if |bytes| < BLOCK then Err(InsufficientData)
    else
      var input := bytes[BLOCK..];
      if |input| < 3 * BLOCK then Err(InsufficientData)
      else
        var attestation := DecodeAt(input, FromBigEndian(input[24..32]));
        if !attestation.Ok? then (if attestation.Err? then Err(attestation.error) else Panic)
        else
          var message := DecodeAt(input, FromBigEndian(input[56..64]));
          if !message.Ok? then (if message.Err? then Err(message.error) else Panic)
          else
            var extra := DecodeAt(input, FromBigEndian(input[88..96]));
            if !extra.Ok? then (if extra.Err? then Err(extra.error) else Panic)
            else Ok(Message(attestation.value, message.value, extra.value))
  }

  // --------------------------------------------------------------- round trip

  lemma WordRoundTrip(n: nat)
    requires n < U64
    ensures FromBigEndian(Word(n)[24..32]) == n
  {
    EightBytes();
    BigEndianRoundTrip(n, 8);
    assert Word(n)[24..32] == ToBigEndian(n, 8);
  }

  /** A dynamic value is read back whatever follows it. */
  lemma DynamicRoundTrip(s: Bytes, rest: Bytes)
    requires |EncodeDynamic(s)| < U64
    ensures DecodeDynamic(EncodeDynamic(s) + rest) == Ok((s, |EncodeDynamic(s)|))
  {
    var input := EncodeDynamic(s) + rest;
    assert input[BLOCK - 8..BLOCK] == Word(|s|)[24..32];
    WordRoundTrip(|s|);
    assert input[BLOCK..BLOCK + |s|] == s;
  }

  lemma DecodeAfter(before: Bytes, s: Bytes, rest: Bytes)
    requires |EncodeDynamic(s)| < U64
    ensures DecodeAt(before + EncodeDynamic(s) + rest, |before|) == Ok(s)
  {
    hide EncodeDynamic, DecodeDynamic;
    var input := before + EncodeDynamic(s) + rest;
    assert input[|before|..] == EncodeDynamic(s) + rest;
    DynamicRoundTrip(s, rest);
  }

  /** The three offsets stored in the head are the places where the three values start. */
  lemma HeadOffsets(m: Message)
    requires |Encode(m)| < U64
    ensures var h := Head(m);
            var a, b := |EncodeDynamic(m.attestation)|, |EncodeDynamic(m.message)|;
            && FromBigEndian(h[24..32]) == 96
            && FromBigEndian(h[56..64]) == 96 + a
            && FromBigEndian(h[88..96]) == 96 + a + b
  {
    hide EncodeDynamic, FromBigEndian, Word;
    var h := Head(m);
    var a, b := |EncodeDynamic(m.attestation)|, |EncodeDynamic(m.message)|;
    WordRoundTrip(96);
    WordRoundTrip(96 + a);
    WordRoundTrip(96 + a + b);
    assert h[24..32] == Word(96)[24..32];
    assert h[56..64] == Word(96 + a)[24..32];
    assert h[88..96] == Word(96 + a + b)[24..32];
  }

  /** Value i of the message is found where its offset says, counted from the start of the tuple. */
  ghost predicate FoundAt(e: Bytes, start: nat, i: nat, value: Bytes) {
    && i < 3 && start + 96 <= |e|
    && var offset := FromBigEndian(e[start + 32 * i + 24..start + 32 * i + 32]);
       start + offset <= |e| && EncodeDynamic(value) <= e[start + offset..]
  }

  /** The first word is 32, the place where the tuple starts, and from there the offsets lead to the values. */
  lemma TupleStart(m: Message)
    requires |Encode(m)| < U64
    ensures var e := Encode(m);
            && |e| >= 128 && FromBigEndian(e[24..32]) == 32
            && FoundAt(e, 32, 0, m.attestation) && FoundAt(e, 32, 1, m.message) && FoundAt(e, 32, 2, m.extraData)
  {
    hide EncodeDynamic, FromBigEndian, Word, Head;
    var a, b, c := EncodeDynamic(m.attestation), EncodeDynamic(m.message), EncodeDynamic(m.extraData);
    var e, h := Encode(m), Head(m);
    WordRoundTrip(32);
    HeadOffsets(m);
    assert e == Word(32) + h + a + b + c;
    assert e[24..32] == Word(32)[24..32];
    assert e[32 + 24..32 + 32] == h[24..32];
    assert e[32 + 32 + 24..32 + 32 + 32] == h[56..64];
    assert e[32 + 64 + 24..32 + 64 + 32] == h[88..96];
    assert e[32 + 96..] == a + b + c;
    assert e[32 + 96 + |a|..] == b + c;
    assert e[32 + 96 + |a| + |b|..] == c;
  }

  /** Numbers are padded on the left and values on the right, with zeros only. */
  lemma PaddedWithZeros(n: nat, s: Bytes)
    ensures forall i :: 0 <= i < 24 ==> Word(n)[i] == 0
    ensures forall i :: BLOCK + |s| <= i < |EncodeDynamic(s)| ==> EncodeDynamic(s)[i] == 0
  {}

  /** `from_bytes` undoes `encode` for every message that fits in the address space. */
  lemma RoundTrip(m: Message)
    requires |Encode(m)| < U64
    ensures FromBytes(Encode(m)) == Ok(m)
  {
    hide EncodeDynamic, FromBigEndian, Word, Head, DecodeAt;
    var a, b, c := EncodeDynamic(m.attestation), EncodeDynamic(m.message), EncodeDynamic(m.extraData);
    var h, e := Head(m), Encode(m);
    var input := e[BLOCK..];
    assert input == h + a + b + c;
    assert input[24..32] == h[24..32] && input[56..64] == h[56..64] && input[88..96] == h[88..96];
    HeadOffsets(m);
    assert input == h + a + (b + c);
    DecodeAfter(h, m.attestation, b + c);
    assert input == (h + a) + b + c;
    DecodeAfter(h + a, m.message, c);
    assert input == (h + a + b) + c + [];
    DecodeAfter(h + a + b, m.extraData, []);
  }

  lemma EncodeInjective(m: Message, n: Message)
    requires |Encode(m)| < U64 && Encode(m) == Encode(n)
    ensures m == n
  {
    hide Encode, FromBytes;
    RoundTrip(m);
    RoundTrip(n);
  }

  /** The encoding is a whole number of 32-byte blocks. */
  lemma EncodeAligned(m: Message)
    ensures |Encode(m)| % BLOCK == 0
  {
    hide EncodeDynamic;
    var a, b, c := EncodeDynamic(m.attestation), EncodeDynamic(m.message), EncodeDynamic(m.extraData);
    DynamicAligned(m.attestation);
    DynamicAligned(m.message);
    DynamicAligned(m.extraData);
    AlignedSum(4 * BLOCK, |a|);
    AlignedSum(4 * BLOCK + |a|, |b|);
    AlignedSum(4 * BLOCK + |a| + |b|, |c|);
  }

  lemma DynamicAligned(s: Bytes)
    ensures |EncodeDynamic(s)| % BLOCK == 0
  {
    AlignedSum(BLOCK, |s| + Padding(|s|));
  }

  lemma AlignedSum(a: nat, b: nat)
    requires a % BLOCK == 0 && b % BLOCK == 0
    ensures (a + b) % BLOCK == 0
  {}

  // --------------------------------------------------- the buffer-growing versions

  method EncodeDynamicInto(s: Bytes) returns (encoded: Bytes)
    ensures encoded == EncodeDynamic(s)
  {
    encoded := [];
    encoded := encoded + Word(|s|);
    encoded := encoded + s;
    var remainder := |s| % 32;
    var padding := if remainder == 0 then 0 else 32 - remainder;
    encoded := encoded + Zeros(padding);
  }

  method EncodeMessage(m: Message) returns (encoded: Bytes)
    ensures encoded == Encode(m)
  {
    var attestation := EncodeDynamicInto(m.attestation);
    var message := EncodeDynamicInto(m.message);
    var extraData := EncodeDynamicInto(m.extraData);
    var attestationOffset := 3 * BLOCK;
    var messageOffset := attestationOffset + |attestation|;
    var extraOffset := messageOffset + |message|;
    var tail := [];
    tail := tail + Word(attestationOffset);
    tail := tail + Word(messageOffset);
    tail := tail + Word(extraOffset);
    tail := tail + attestation;
    tail := tail + message;
    tail := tail + extraData;
    encoded := Word(32) + tail;
  }

  method DecodeMessage(bytes: Bytes) returns (r: Outcome<Message>)
    ensures r == FromBytes(bytes)
  {
    if |bytes| < BLOCK {
      return Err(InsufficientData);
    }
    var input := bytes[BLOCK..];
    if |input| < 3 * BLOCK {
      return Err(InsufficientData);
    }
    var offset := 0;
    var attestationOffset := FromBigEndian(input[offset..offset + BLOCK][24..]);
    offset := offset + BLOCK;
    var messageOffset := FromBigEndian(input[offset..offset + BLOCK][24..]);
    offset := offset + BLOCK;
    var extraOffset := FromBigEndian(input[offset..offset + BLOCK][24..]);
    assert input[0..32][24..] == input[24..32] && input[32..64][24..] == input[56..64]
        && input[64..96][24..] == input[88..96];
    var attestation := DecodeAt(input, attestationOffset);
    if !attestation.Ok? {
      return if attestation.Err? then Err(attestation.error) else Panic;
    }
    var message := DecodeAt(input, messageOffset);
    if !message.Ok? {
      return if message.Err? then Err(message.error) else Panic;
    }
    var extra := DecodeAt(input, extraOffset);
    if !extra.Ok? {
      return if extra.Err? then Err(extra.error) else Panic;
    }
    return Ok(Message(attestation.value, message.value, extra.value));
  }
}
