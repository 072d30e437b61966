/**
 UTF-8 (RFC 3629, section 3) over Unicode scalar values, which is what a well-formed
 JavaScript string denotes.
 */
module Utf8 {
  import opened Wrappers

  type Byte = b: int | 0 <= b < 256

  const REPLACEMENT: char := '\U{FFFD}'

  function EncodeChar(c: char): (bs: seq<Byte>)
    ensures 1 <= |bs| <= 4
  {
    var n := c as int;
    if n < 0x80 then [n]
    else if n < 0x800 then [0xC0 + n / 0x40, 0x80 + n % 0x40]
    else if n < 0x10000 then [0xE0 + n / 0x1000, 0x80 + n / 0x40 % 0x40, 0x80 + n % 0x40]
    else [0xF0 + n / 0x40000, 0x80 + n / 0x1000 % 0x40, 0x80 + n / 0x40 % 0x40, 0x80 + n % 0x40]
  }

  function Encode(s: string): seq<Byte> {
    if s == [] then [] else EncodeChar(s[0]) + Encode(s[1..])
  }

  predicate IsScalar(n: int) {
    0 <= n < 0xD800 || 0xE000 <= n < 0x110000
  }

  /** The six payload bits of the continuation byte at `k`, if there is one. */
  function Payload(bs: seq<Byte>, k: nat): (p: Option<nat>)
    ensures p.Some? ==> p.value < 0x40
  {
    if k < |bs| && 0x80 <= bs[k] < 0xC0 then Some(bs[k] as int - 0x80) else None
  }

  /** The code point that starts a non-empty byte sequence, and its length; a byte that starts none counts as one. */
  function First(bs: seq<Byte>): (r: (Option<nat>, nat))
    requires bs != []
    ensures 1 <= r.1 <= |bs|
  {
    var b := bs[0] as int;
    var p, q, r := Payload(bs, 1), Payload(bs, 2), Payload(bs, 3);
    if b < 0x80 then (Some(b), 1)
    else if 0xC0 <= b < 0xE0 && p.Some? then
      (Some((b - 0xC0) * 0x40 + p.value), 2)
    else if 0xE0 <= b < 0xF0 && p.Some? && q.Some? then
      (Some((b - 0xE0) * 0x1000 + p.value * 0x40 + q.value), 3)
    else if 0xF0 <= b < 0xF8 && p.Some? && q.Some? && r.Some? then
      (Some((b - 0xF0) * 0x40000 + p.value * 0x1000 + q.value * 0x40 + r.value), 4)
    else (None, 1)
  }

  function Decode(bs: seq<Byte>): string {
    if bs == [] then []
    else
      var (n, width) := First(bs);
      [if n.Some? && IsScalar(n.value) then n.value as char else REPLACEMENT] + Decode(bs[width..])
  }

  /** The number that a lead byte's payload and up to three continuation payloads spell. */
  lemma Regroup(n: nat)
    ensures n / 0x40 * 0x40 + n % 0x40 == n
    ensures n / 0x1000 * 0x1000 + n / 0x40 % 0x40 * 0x40 + n % 0x40 == n
    ensures n / 0x40000 * 0x40000 + n / 0x1000 % 0x40 * 0x1000 + n / 0x40 % 0x40 * 0x40 + n % 0x40 == n
  {
    var a := n / 0x40;
    var b := a / 0x40;
    assert b == n / 0x1000 && b / 0x40 == n / 0x40000;
    assert a == b * 0x40 + a % 0x40 && b == b / 0x40 * 0x40 + b % 0x40;
  }

  lemma FirstOfShortChar(c: char, rest: seq<Byte>)
    requires c as int < 0x800
    ensures First(EncodeChar(c) + rest) == (Some(c as int), |EncodeChar(c)|)
  {
    Regroup(c as int);
    var bs := EncodeChar(c) + rest;
    assert bs[0] == EncodeChar(c)[0];
    assert 0x80 <= c as int ==> Payload(bs, 1) == Some(c as int % 0x40);
  }

  lemma FirstOfThreeByteChar(c: char, rest: seq<Byte>)
    requires 0x800 <= c as int < 0x10000
    ensures First(EncodeChar(c) + rest) == (Some(c as int), 3)
  {
    var n := c as int;
    Regroup(n);
    var bs := EncodeChar(c) + rest;
    assert bs[0] == 0xE0 + n / 0x1000;
    assert Payload(bs, 1) == Some(n / 0x40 % 0x40) && Payload(bs, 2) == Some(n % 0x40);
  }

  lemma FirstOfFourByteChar(c: char, rest: seq<Byte>)
    requires 0x10000 <= c as int
    ensures First(EncodeChar(c) + rest) == (Some(c as int), 4)
  {
    var n := c as int;
    Regroup(n);
    var bs := EncodeChar(c) + rest;
    assert bs[0] == 0xF0 + n / 0x40000;
    assert Payload(bs, 1) == Some(n / 0x1000 % 0x40);
    assert Payload(bs, 2) == Some(n / 0x40 % 0x40) && Payload(bs, 3) == Some(n % 0x40);
  }

  lemma FirstOfChar(c: char, rest: seq<Byte>)
    ensures First(EncodeChar(c) + rest) == (Some(c as int), |EncodeChar(c)|)
  {
    if c as int < 0x800 {
      FirstOfShortChar(c, rest);
    } else if c as int < 0x10000 {
      FirstOfThreeByteChar(c, rest);
    } else {
      FirstOfFourByteChar(c, rest);
    }
  }

  /** Nothing is lost by encoding, so the encoding is injective. */
  lemma {:induction false} RoundTrip(s: string)
    ensures Decode(Encode(s)) == s
  {
    if s != [] {
      var head, rest := EncodeChar(s[0]), Encode(s[1..]);
      FirstOfChar(s[0], rest);
      assert (head + rest)[|head|..] == rest;
      RoundTrip(s[1..]);
    }
  }

  /** One character of each length from the examples in section 7 of RFC 3629. */
  lemma Examples()
    ensures EncodeChar('A') == [0x41] && EncodeChar('\U{0391}') == [0xCE, 0x91]
    ensures EncodeChar('\U{2262}') == [0xE2, 0x89, 0xA2] && EncodeChar('\U{233B4}') == [0xF0, 0xA3, 0x8E, 0xB4]
  {
  }
}
