/** UTF-8, the byte encoding behind `Buffer.from(string)` in the state comparison and behind
    the percent-encoding of URL components. Characters are Unicode scalar values, so every
    string has exactly one encoding. Decoding is lossy in the way the URL parser's decoder is:
    a byte that does not start a well-formed sequence becomes U+FFFD. */
module Utf8 {

  newtype byte = x: int | 0 <= x < 256

  const Replacement: char := 0xFFFD as char

  predicate IsContinuation(b: byte) { 0x80 <= b < 0xC0 }

  /** The one-to-four-byte encoding of a single scalar value. */
  function EncodeChar(c: char): (r: seq<byte>)
    ensures 1 <= |r| <= 4
    ensures (|r| == 1) == (c as int < 0x80)
    ensures |r| == 1 ==> r[0] as int == c as int
    ensures |r| > 1 ==> r[0] >= 0xC2 && forall i :: 1 <= i < |r| ==> IsContinuation(r[i])
  {
    var cp := c as int;
    if cp < 0x80 then
      [cp as byte]
    else if cp < 0x800 then
      [(0xC0 + cp / 64) as byte, (0x80 + cp % 64) as byte]
    else if cp < 0x10000 then
      [(0xE0 + cp / 64 / 64) as byte, (0x80 + cp / 64 % 64) as byte, (0x80 + cp % 64) as byte]
    else
      [(0xF0 + cp / 64 / 64 / 64) as byte, (0x80 + cp / 64 / 64 % 64) as byte,
       (0x80 + cp / 64 % 64) as byte, (0x80 + cp % 64) as byte]
  }

  function Encode(s: string): (r: seq<byte>)
    ensures |r| >= |s|
  {
    if s == [] then [] else EncodeChar(s[0]) + Encode(s[1..])
  }

  /** Reads one character from the front of `bs` and says how many bytes it used. */
  function DecodeStep(bs: seq<byte>): (r: (char, nat))
    requires |bs| > 0
    ensures 1 <= r.1 <= |bs|
  {
    var b0 := bs[0] as int;
    if b0 < 0x80 then
      (b0 as char, 1)
    else if 0xC2 <= b0 < 0xE0 && |bs| >= 2 && IsContinuation(bs[1]) then
      var cp := (b0 - 0xC0) * 64 + (bs[1] as int - 0x80);
      (cp as char, 2)
    else if 0xE0 <= b0 < 0xF0 && |bs| >= 3 && IsContinuation(bs[1]) && IsContinuation(bs[2]) then
      var cp := ((b0 - 0xE0) * 64 + (bs[1] as int - 0x80)) * 64 + (bs[2] as int - 0x80);
      if 0x800 <= cp && !(0xD800 <= cp < 0xE000) then (cp as char, 3) else (Replacement, 1)
    else if 0xF0 <= b0 < 0xF5 && |bs| >= 4 && IsContinuation(bs[1]) && IsContinuation(bs[2])
            && IsContinuation(bs[3]) then
      var cp := (((b0 - 0xF0) * 64 + (bs[1] as int - 0x80)) * 64 + (bs[2] as int - 0x80)) * 64
                + (bs[3] as int - 0x80);
      if 0x10000 <= cp < 0x110000 then (cp as char, 4) else (Replacement, 1)
    else
      (Replacement, 1)
  }

  function Decode(bs: seq<byte>): string
    decreases |bs|
  {
    if bs == [] then "" else
      var step := DecodeStep(bs);
      [step.0] + Decode(bs[step.1..])
  }

  /** Decoding reads back exactly the character that was encoded, whatever follows it. */
  lemma DecodeStepEncodeChar(c: char, rest: seq<byte>)
    ensures DecodeStep(EncodeChar(c) + rest) == (c, |EncodeChar(c)|)
  {
    var cp := c as int;
    var bs := EncodeChar(c) + rest;
    if cp < 0x80 {
    } else if cp < 0x800 {
      assert bs[0] as int == 0xC0 + cp / 64 && bs[1] as int == 0x80 + cp % 64;
      assert (cp / 64) * 64 + cp % 64 == cp;
    } else if cp < 0x10000 {
      var q1 := cp / 64;
      assert bs[0] as int == 0xE0 + q1 / 64 && bs[1] as int == 0x80 + q1 % 64 && bs[2] as int == 0x80 + cp % 64;
      assert (q1 / 64) * 64 + q1 % 64 == q1;
      assert q1 * 64 + cp % 64 == cp;
    } else {
      var q1 := cp / 64;
      var q2 := q1 / 64;
      assert bs[0] as int == 0xF0 + q2 / 64 && bs[1] as int == 0x80 + q2 % 64;
      assert bs[2] as int == 0x80 + q1 % 64 && bs[3] as int == 0x80 + cp % 64;
      assert (q2 / 64) * 64 + q2 % 64 == q2;
      assert q2 * 64 + q1 % 64 == q1;
      assert q1 * 64 + cp % 64 == cp;
    }
  }

  lemma {:induction false} DecodeEncode(s: string)
    ensures Decode(Encode(s)) == s
  {
    if s != [] {
      var e := EncodeChar(s[0]);
      assert Encode(s) == e + Encode(s[1..]);
      DecodeStepEncodeChar(s[0], Encode(s[1..]));
      assert (e + Encode(s[1..]))[|e|..] == Encode(s[1..]);
      DecodeEncode(s[1..]);
    }
  }

  /** Two strings have the same bytes exactly when they are the same string. */
  lemma EncodeInjective(a: string, b: string)
    ensures Encode(a) == Encode(b) <==> a == b
  {
    if Encode(a) == Encode(b) {
      DecodeEncode(a);
      DecodeEncode(b);
    }
  }

  lemma {:induction false} EncodeAppend(a: string, b: string)
    ensures Encode(a + b) == Encode(a) + Encode(b)
  {
    if a != [] {
      assert (a + b)[0] == a[0] && (a + b)[1..] == a[1..] + b;
      EncodeAppend(a[1..], b);
    } else {
      assert a + b == b;
    }
  }
}
