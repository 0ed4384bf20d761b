/** UTF-8 as Python's strict codec reads and writes it: exactly the
    well-formed byte sequences of the Unicode standard (no overlong forms, no
    surrogates, nothing above U+10FFFF). Protobuf applies the decoding when a
    string field is given bytes. */
module Utf8 {
  import opened Wrappers

  /** A byte as its integer value. */
  type Byte = x: int | 0 <= x < 0x100

  type Bytes = seq<Byte>

  /** The values of a sequence of bit-vector bytes. */
  function FromBits(b: seq<bv8>): (r: Bytes)
    ensures |r| == |b|
  {
    seq(|b|, i requires 0 <= i < |b| => b[i] as int)
  }

  /** The bit-vector bytes of a sequence of byte values. */
  function ToBits(b: Bytes): (r: seq<bv8>)
    ensures |r| == |b|
  {
    seq(|b|, i requires 0 <= i < |b| => b[i] as bv8)
  }

  /** The two byte representations convert into each other. */
  lemma BitsRoundTrip(b: Bytes)
    ensures FromBits(ToBits(b)) == b
  {
    forall i | 0 <= i < |b|
      ensures FromBits(ToBits(b))[i] == b[i]
    {
      ByteBits(b[i]);
    }
  }

  lemma ByteBits(x: Byte)
    ensures (x as bv8) as int == x
  {
  }

  predicate InRange(x: Byte, lo: int, hi: int) {
    lo <= x <= hi
  }

  /** The character a byte sequence starts with and its length in bytes, or
      `None` when the sequence does not start with a well-formed character. */
  function DecodeChar(b: Bytes): (r: Option<(char, nat)>)
    requires |b| > 0
    ensures r.Some? ==> 1 <= r.value.1 <= 4 && r.value.1 <= |b|
  {
    var b0: int := b[0];
    if b0 < 0x80 then Some((b0 as char, 1))
    else if 0xC2 <= b0 <= 0xDF && |b| >= 2 && InRange(b[1], 0x80, 0xBF) then
      Some((((b0 - 0xC0) * 64 + (b[1] as int - 0x80)) as char, 2))
    else if 0xE0 <= b0 <= 0xEF && |b| >= 3
         && InRange(b[1], if b0 == 0xE0 then 0xA0 else 0x80, if b0 == 0xED then 0x9F else 0xBF)
         && InRange(b[2], 0x80, 0xBF) then
      Some((((b0 - 0xE0) * 0x1000 + (b[1] as int - 0x80) * 64 + (b[2] as int - 0x80)) as char, 3))
    else if 0xF0 <= b0 <= 0xF4 && |b| >= 4
         && InRange(b[1], if b0 == 0xF0 then 0x90 else 0x80, if b0 == 0xF4 then 0x8F else 0xBF)
         && InRange(b[2], 0x80, 0xBF) && InRange(b[3], 0x80, 0xBF) then
      Some((((b0 - 0xF0) * 0x40000 + (b[1] as int - 0x80) * 0x1000
             + (b[2] as int - 0x80) * 64 + (b[3] as int - 0x80)) as char, 4))
    else None
  }

  /** `b.decode("utf-8")`: the characters of a well-formed sequence, or
      `None` where Python raises UnicodeDecodeError. */
  function Decode(b: Bytes): (r: Option<string>)
    ensures r.Some? ==> |r.value| <= |b|
    decreases |b|
  {
    if |b| == 0 then Some("")
    else
      match DecodeChar(b)
      case None => None
      case Some((c, n)) =>
        match Decode(b[n..])
        case None => None
        case Some(rest) => Some([c] + rest)
  }

  /** The UTF-8 form of one character: one to four bytes by its code point. */
  function EncodeChar(c: char): (r: Bytes)
    ensures 1 <= |r| <= 4
  {
    var cp := c as int;
    if cp < 0x80 then [cp]
    else if cp < 0x800 then [0xC0 + cp / 64, 0x80 + cp % 64]
    else if cp < 0x10000 then
      [0xE0 + cp / 0x1000, 0x80 + cp / 64 % 64, 0x80 + cp % 64]
    else
      [0xF0 + cp / 0x40000, 0x80 + cp / 0x1000 % 64,
       0x80 + cp / 64 % 64, 0x80 + cp % 64]
  }

  /** `s.encode("utf-8")`. */
  function Encode(s: string): (r: Bytes)
    ensures |r| >= |s|
    decreases |s|
  {
    if |s| == 0 then [] else EncodeChar(s[0]) + Encode(s[1..])
  }

  /** Decoding reads back the character an encoding starts with, whatever
      follows it. */
  lemma DecodeEncodeChar(c: char, tail: Bytes)
    ensures DecodeChar(EncodeChar(c) + tail) == Some((c, |EncodeChar(c)|))
  {
    var cp := c as int;
    if cp < 0x80 {
    } else if cp < 0x800 {
      TwoBytes(c, tail);
    } else if cp < 0x10000 {
      ThreeBytes(c, tail);
    } else {
      FourBytes(c, tail);
    }
  }

  lemma TwoBytes(c: char, tail: Bytes)
    requires 0x80 <= c as int < 0x800
    ensures DecodeChar(EncodeChar(c) + tail) == Some((c, 2))
  {
    var cp := c as int;
    var b := EncodeChar(c) + tail;
    assert b[0] == 0xC0 + cp / 64 && b[1] == 0x80 + cp % 64;
    assert (cp / 64) * 64 + cp % 64 == cp;
  }

  lemma ThreeBytes(c: char, tail: Bytes)
    requires 0x800 <= c as int < 0x10000
    ensures DecodeChar(EncodeChar(c) + tail) == Some((c, 3))
  {
    var cp := c as int;
    var b := EncodeChar(c) + tail;
    assert b[0] == 0xE0 + cp / 0x1000;
    assert b[1] == 0x80 + cp / 64 % 64 && b[2] == 0x80 + cp % 64;
    assert (cp / 0x1000) * 64 + cp / 64 % 64 == cp / 64;
    assert (cp / 64) * 64 + cp % 64 == cp;
  }

  lemma FourBytes(c: char, tail: Bytes)
    requires 0x10000 <= c as int
    ensures DecodeChar(EncodeChar(c) + tail) == Some((c, 4))
  {
    var cp := c as int;
    var b := EncodeChar(c) + tail;
    assert b[0] == 0xF0 + cp / 0x40000;
    assert b[1] == 0x80 + cp / 0x1000 % 64;
    assert b[2] == 0x80 + cp / 64 % 64 && b[3] == 0x80 + cp % 64;
    assert (cp / 0x40000) * 64 + cp / 0x1000 % 64 == cp / 0x1000;
    assert (cp / 0x1000) * 64 + cp / 64 % 64 == cp / 64;
    assert (cp / 64) * 64 + cp % 64 == cp;
  }

  /** Decoding an encoded string gives it back. */
  lemma {:induction false} RoundTrip(s: string)
    ensures Decode(Encode(s)) == Some(s)
    decreases |s|
  {
    if |s| > 0 {
      var e := EncodeChar(s[0]);
      var rest := Encode(s[1..]);
      DecodeEncodeChar(s[0], rest);
      assert (e + rest)[|e|..] == rest;
      RoundTrip(s[1..]);
      assert [s[0]] + s[1..] == s;
    }
  }

  /** Bytes below 0x80 decode one character each, to the same code point. */
  lemma {:induction false} AsciiDecodes(b: Bytes)
    requires forall i :: 0 <= i < |b| ==> b[i] < 0x80
    ensures Decode(b).Some? && |Decode(b).value| == |b|
    ensures forall i :: 0 <= i < |b| ==> Decode(b).value[i] as int == b[i]
    decreases |b|
  {
    if |b| > 0 {
      AsciiDecodes(b[1..]);
    }
  }

  /** What Python's decoder refuses: a lone continuation byte, an overlong
      form, an encoded surrogate, a truncated sequence, and a code point
      above U+10FFFF. */
  lemma Rejected()
    ensures Decode([0x80]).None?
    ensures Decode([0xC0, 0x80]).None?
    ensures Decode([0xED, 0xA0, 0x80]).None?
    ensures Decode([0xE2, 0x82]).None?
    ensures Decode([0xF4, 0x90, 0x80, 0x80]).None?
  {
  }
}
