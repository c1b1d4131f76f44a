/**
 * Well-formed UTF-8 as defined by the syntax of RFC 3629, section 4
 * (the byte ranges also given in the table of RFC 3629, section 3), which
 * is the acceptance test of Rust's `str::from_utf8`.
 *
 * The predicate `WellFormed` follows the ABNF of RFC 3629, section 4
 * directly. It is compared with the encoder of RFC 3629, section 3, from
 * Unicode scalar values to bytes. The lemmas prove that a byte string
 * is well formed exactly when it is the encoding of some sequence of scalar
 * values, with a decoder that inverts the encoder.
 */
module Utf8 {
  import opened Wrappers

  /** A Unicode scalar value: a code point that is not a surrogate. */
  type Scalar = c: int | 0 <= c <= 0x10FFFF && !(0xD800 <= c <= 0xDFFF)

  /** `UTF8-tail = %x80-BF`. */
  predicate IsTail(b: byte) {
    0x80 <= b <= 0xBF
  }

  /**
   * The number of bytes of the character that `s` starts with, when `s`
   * starts with one of UTF8-1, UTF8-2, UTF8-3 or UTF8-4; 0 when it does not.
   */
  function CharWidth(s: seq<byte>): (w: nat)
    ensures w <= 4 && w <= |s|
    ensures |s| > 0 && s[0] <= 0x7F ==> w == 1
  {
    if |s| == 0 then 0
    else
      var b0 := s[0];
      if b0 <= 0x7F then 1
      else if 0xC2 <= b0 <= 0xDF then
        if 2 <= |s| && IsTail(s[1]) then 2 else 0
      else if b0 == 0xE0 then
        if 3 <= |s| && 0xA0 <= s[1] <= 0xBF && IsTail(s[2]) then 3 else 0
      else if 0xE1 <= b0 <= 0xEC || 0xEE <= b0 <= 0xEF then
        if 3 <= |s| && IsTail(s[1]) && IsTail(s[2]) then 3 else 0
      else if b0 == 0xED then
        if 3 <= |s| && 0x80 <= s[1] <= 0x9F && IsTail(s[2]) then 3 else 0
      else if b0 == 0xF0 then
        if 4 <= |s| && 0x90 <= s[1] <= 0xBF && IsTail(s[2]) && IsTail(s[3]) then 4 else 0
      else if 0xF1 <= b0 <= 0xF3 then
        if 4 <= |s| && IsTail(s[1]) && IsTail(s[2]) && IsTail(s[3]) then 4 else 0
      else if b0 == 0xF4 then
        if 4 <= |s| && 0x80 <= s[1] <= 0x8F && IsTail(s[2]) && IsTail(s[3]) then 4 else 0
      else 0
  }

  /** `UTF8-octets = *( UTF8-char )`. */
  predicate WellFormed(s: seq<byte>)
    decreases |s|
  {
    s == [] || (CharWidth(s) > 0 && WellFormed(s[CharWidth(s)..]))
  }

  /** The encoding of one scalar value (the table of RFC 3629, section 3). */
  function EncodeScalar(c: Scalar): (r: seq<byte>)
    ensures 1 <= |r| <= 4
  {
    if c < 0x80 then
      [c as byte]
    else if c < 0x800 then
      [(0xC0 + c / 64) as byte, (0x80 + c % 64) as byte]
    else if c < 0x10000 then
      [(0xE0 + c / 4096) as byte, (0x80 + (c / 64) % 64) as byte, (0x80 + c % 64) as byte]
    else
      [(0xF0 + c / 262144) as byte, (0x80 + (c / 4096) % 64) as byte,
       (0x80 + (c / 64) % 64) as byte, (0x80 + c % 64) as byte]
  }

  /** The encoding of a sequence of scalar values. */
  function Encode(cs: seq<Scalar>): seq<byte>
  {
    if cs == [] then [] else EncodeScalar(cs[0]) + Encode(cs[1..])
  }

  /** The scalar value of the character that `s` starts with. */
  function DecodeChar(s: seq<byte>): Scalar
    requires CharWidth(s) > 0
  {
    var w := CharWidth(s);
    if w == 1 then
      s[0] as int
    else if w == 2 then
      (s[0] as int - 0xC0) * 64 + (s[1] as int - 0x80)
    else if w == 3 then
      (s[0] as int - 0xE0) * 4096 + (s[1] as int - 0x80) * 64 + (s[2] as int - 0x80)
    else
      (s[0] as int - 0xF0) * 262144 + (s[1] as int - 0x80) * 4096
        + (s[2] as int - 0x80) * 64 + (s[3] as int - 0x80)
  }

  /** The scalar values a well-formed byte string encodes. */
  function Decode(s: seq<byte>): seq<Scalar>
    requires WellFormed(s)
    decreases |s|
  {
    if s == [] then [] else [DecodeChar(s)] + Decode(s[CharWidth(s)..])
  }

  /** Division by 64 pins down quotient and remainder. */
  lemma Div64(c: int, q: int, r: int)
    requires c == q * 64 + r && 0 <= r < 64
    ensures c / 64 == q && c % 64 == r
  {
  }

  /** Division by 4096 pins down quotient and remainder. */
  lemma Div4096(c: int, q: int, r: int)
    requires c == q * 4096 + r && 0 <= r < 4096
    ensures c / 4096 == q && c % 4096 == r
  {
  }

  /** Division by 262144 pins down quotient and remainder. */
  lemma Div262144(c: int, q: int, r: int)
    requires c == q * 262144 + r && 0 <= r < 262144
    ensures c / 262144 == q && c % 262144 == r
  {
  }

  /** An encoded scalar is read back as one character of the same width and value. */
  lemma EncodeScalarIsChar(c: Scalar, rest: seq<byte>)
    ensures CharWidth(EncodeScalar(c) + rest) == |EncodeScalar(c)|
    ensures DecodeChar(EncodeScalar(c) + rest) == c
  {
    var e := EncodeScalar(c);
    var s := e + rest;
    assert s[..|e|] == e;
    if c < 0x80 {
    } else if c < 0x800 {
      Div64(c, c / 64, c % 64);
    } else if c < 0x10000 {
      var q1, r1 := c / 64, c % 64;
      var q2, r2 := q1 / 64, q1 % 64;
      assert c == q2 * 4096 + r2 * 64 + r1;
      Div4096(c, q2, r2 * 64 + r1);
      assert 0 <= q2 <= 15;
      assert q2 == 13 ==> r2 <= 0x1F;
      assert q2 == 0 ==> r2 >= 0x20;
    } else {
      var q1, r1 := c / 64, c % 64;
      var q2, r2 := q1 / 64, q1 % 64;
      var q3, r3 := q2 / 64, q2 % 64;
      assert c == q3 * 262144 + r3 * 4096 + r2 * 64 + r1;
      Div4096(c, q3 * 64 + r3, r2 * 64 + r1);
      Div262144(c, q3, r3 * 4096 + r2 * 64 + r1);
      assert 0 <= q3 <= 4;
      assert q3 == 0 ==> r3 >= 0x10;
      assert q3 == 4 ==> r3 <= 0x0F;
    }
  }

  /** A character of the input is re-encoded to exactly its own bytes. */
  lemma DecodeCharEncodes(s: seq<byte>)
    requires CharWidth(s) > 0
    ensures EncodeScalar(DecodeChar(s)) == s[..CharWidth(s)]
  {
    var w := CharWidth(s);
    if w == 2 {
      var a, b := s[0] as int - 0xC0, s[1] as int - 0x80;
      Div64(DecodeChar(s), a, b);
    } else if w == 3 {
      DecodeChar3Encodes(s);
    } else if w == 4 {
      DecodeChar4Encodes(s);
    }
  }

  /** A three-byte character is re-encoded to its own bytes. */
  lemma DecodeChar3Encodes(s: seq<byte>)
    requires CharWidth(s) == 3
    ensures EncodeScalar(DecodeChar(s)) == s[..3]
  {
    var c := DecodeChar(s);
    var a, b, d := s[0] as int - 0xE0, s[1] as int - 0x80, s[2] as int - 0x80;
    Div64(c, a * 64 + b, d);
    Div64(a * 64 + b, a, b);
    Div4096(c, a, b * 64 + d);
  }

  /** A four-byte character is re-encoded to its own bytes. */
  lemma DecodeChar4Encodes(s: seq<byte>)
    requires CharWidth(s) == 4
    ensures EncodeScalar(DecodeChar(s)) == s[..4]
  {
    var c := DecodeChar(s);
    var a, b, d, e := s[0] as int - 0xF0, s[1] as int - 0x80, s[2] as int - 0x80, s[3] as int - 0x80;
    Div64(c, a * 4096 + b * 64 + d, e);
    Div64(a * 4096 + b * 64 + d, a * 64 + b, d);
    Div4096(c, a * 64 + b, d * 64 + e);
    Div64(a * 64 + b, a, b);
    Div262144(c, a, b * 4096 + d * 64 + e);
  }

  /** Every encoding of scalar values is well formed. */
  lemma {:induction false} EncodeIsWellFormed(cs: seq<Scalar>)
    ensures WellFormed(Encode(cs))
  {
    if cs != [] {
      var e, rest := EncodeScalar(cs[0]), Encode(cs[1..]);
      EncodeScalarIsChar(cs[0], rest);
      assert (e + rest)[|e|..] == rest;
      EncodeIsWellFormed(cs[1..]);
    }
  }

  /** Decoding inverts encoding. */
  lemma {:induction false} DecodeEncode(cs: seq<Scalar>)
    ensures WellFormed(Encode(cs)) && Decode(Encode(cs)) == cs
  {
    EncodeIsWellFormed(cs);
    if cs != [] {
      var e, rest := EncodeScalar(cs[0]), Encode(cs[1..]);
      EncodeScalarIsChar(cs[0], rest);
      assert (e + rest)[|e|..] == rest;
      DecodeEncode(cs[1..]);
    }
  }

  /** Encoding a sequence that starts with `c`. */
  lemma EncodeCons(c: Scalar, cs: seq<Scalar>)
    ensures Encode([c] + cs) == EncodeScalar(c) + Encode(cs)
  {
    assert ([c] + cs)[0] == c && ([c] + cs)[1..] == cs;
  }

  /** Decoding a well-formed string that is not empty: its first character, then the rest. */
  lemma DecodeCons(s: seq<byte>)
    requires WellFormed(s) && s != []
    ensures CharWidth(s) > 0 && WellFormed(s[CharWidth(s)..])
    ensures Decode(s) == [DecodeChar(s)] + Decode(s[CharWidth(s)..])
  {
  }

  /** Encoding inverts decoding: a well-formed string is the encoding of what it decodes to. */
  lemma {:induction false} EncodeDecode(s: seq<byte>)
    requires WellFormed(s)
    ensures Encode(Decode(s)) == s
    decreases |s|
  {
    if s != [] {
      DecodeCons(s);
      var w := CharWidth(s);
      var c, rest := DecodeChar(s), Decode(s[w..]);
      DecodeCharEncodes(s);
      EncodeDecode(s[w..]);
      EncodeCons(c, rest);
      assert s[..w] + s[w..] == s;
    }
  }

  /** A byte string is well formed exactly when it encodes some sequence of scalar values. */
  lemma WellFormedIffEncoding(s: seq<byte>)
    ensures WellFormed(s) <==> exists cs: seq<Scalar> :: Encode(cs) == s
  {
    if WellFormed(s) {
      EncodeDecode(s);
    }
    if cs: seq<Scalar> :| Encode(cs) == s {
      EncodeIsWellFormed(cs);
    }
  }

  /** Text made only of bytes below 0x80 (US-ASCII, RFC 3629, section 1) is well formed. */
  lemma {:induction false} AsciiIsWellFormed(s: seq<byte>)
    requires forall i :: 0 <= i < |s| ==> s[i] <= 0x7F
    ensures WellFormed(s)
  {
    if s != [] {
      assert CharWidth(s) == 1;
      AsciiIsWellFormed(s[1..]);
    }
  }
}
