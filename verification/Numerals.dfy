/**
 Printing and reading of whole numbers.

 `Padded` is the zero-padded form used inside timestamps, identifiers and percent escapes;
 `Signed` is what JavaScript's `String(n)` gives for an integer.
 */
module Numerals {
  import opened Wrappers

  function Pow(base: nat, width: nat): nat {
    if width == 0 then 1 else base * Pow(base, width - 1)
  }

  function DigitChar(d: nat): (c: char)
    requires d < 16
    ensures DigitOf(c) == Some(d)
  {
    if d < 10 then '0' + d as char else 'a' + (d - 10) as char
  }

  /** The value of a decimal or hexadecimal digit of either case. */
  function DigitOf(c: char): Option<nat> {
    if '0' <= c <= '9' then Some(c as int - '0' as int)
    else if 'a' <= c <= 'f' then Some(c as int - 'a' as int + 10)
    else if 'A' <= c <= 'F' then Some(c as int - 'A' as int + 10)
    else None
  }

  predicate IsDigit(c: char, base: nat) {
    DigitOf(c).Some? && DigitOf(c).value < base
  }

  predicate AllDigits(s: string, base: nat) {
    forall i :: 0 <= i < |s| ==> IsDigit(s[i], base)
  }

  /** The last `width` digits of `n` in `base`, padded with zeros. */
  function Padded(n: nat, base: nat, width: nat): (s: string)
    requires 2 <= base <= 16
    ensures |s| == width && AllDigits(s, base)
  {
    if width == 0 then [] else Padded(n / base, base, width - 1) + [DigitChar(n % base)]
  }

  /** `String(n)` for a non-negative integer. */
  function Decimal(n: nat): (s: string)
    ensures |s| >= 1 && AllDigits(s, 10)
  {
    if n < 10 then [DigitChar(n)] else Decimal(n / 10) + [DigitChar(n % 10)]
  }

  /** The number a digit string spells. */
  function Value(s: string, base: nat): nat
    requires AllDigits(s, base)
  {
    if s == [] then 0
    else Value(s[..|s| - 1], base) * base + DigitOf(s[|s| - 1]).value
  }

  function Parse(s: string, base: nat): Option<nat> {
    if AllDigits(s, base) then Some(Value(s, base)) else None
  }

  lemma QuotientRemainder(n: nat, base: nat)
    requires 2 <= base
    ensures n / base * base + n % base == n
  {
  }

  lemma AppendDigit(s: string, q: nat, r: nat, base: nat)
    requires r < base <= 16 && Parse(s, base) == Some(q)
    ensures Parse(s + [DigitChar(r)], base) == Some(q * base + r)
  {
    assert (s + [DigitChar(r)])[..|s|] == s;
  }

  lemma QuotientBound(n: nat, base: nat, bound: nat)
    requires 2 <= base && n < base * bound
    ensures n / base < bound
  {
    var q, r := n / base, n % base;
    assert n == base * q + r;
    assert bound <= q ==> base * bound <= base * q;
  }

  /** Dropping the last digit of a number that fits leaves one that fits a narrower field. */
  lemma FitsNarrower(n: nat, base: nat, width: nat)
    requires 2 <= base && 0 < width && n < Pow(base, width)
    ensures 0 <= n / base < Pow(base, width - 1)
  {
    QuotientBound(n, base, Pow(base, width - 1));
  }

  lemma PadOneMore(n: nat, base: nat, width: nat)
    requires 2 <= base <= 16 && 0 < width
    requires 0 <= n / base && Parse(Padded(n / base, base, width - 1), base) == Some(n / base)
    ensures Parse(Padded(n, base, width), base) == Some(n)
  {
    AppendDigit(Padded(n / base, base, width - 1), n / base, n % base, base);
    QuotientRemainder(n, base);
  }

  /** Padding to a wide enough field loses nothing. */
  lemma {:induction false} PaddedRoundTrip(n: nat, base: nat, width: nat)
    requires 2 <= base <= 16 && n < Pow(base, width)
    ensures Parse(Padded(n, base, width), base) == Some(n)
    decreases width
  {
    if width > 0 {
      FitsNarrower(n, base, width);
      PaddedRoundTrip(n / base, base, width - 1);
      PadOneMore(n, base, width);
    }
  }

  lemma {:induction false} DecimalRoundTrip(n: nat)
    ensures Parse(Decimal(n), 10) == Some(n)
  {
    if n < 10 {
      AppendDigit([], 0, n, 10);
      assert [] + [DigitChar(n)] == Decimal(n);
    } else {
      DecimalRoundTrip(n / 10);
      AppendDigit(Decimal(n / 10), n / 10, n % 10, 10);
    }
  }

  /** `String(n)` for any integer. */
  function Signed(n: int): (s: string)
    ensures |s| >= 1
    ensures forall i :: 0 <= i < |s| ==> s[i] == '-' || IsDigit(s[i], 10)
  {
    if n < 0 then ['-'] + Decimal(-n) else Decimal(n)
  }

  /** Different integers print differently. */
  lemma SignedInjective(m: int, n: int)
    requires Signed(m) == Signed(n)
    ensures m == n
  {
    var s, t := Signed(m), Signed(n);
    assert s[0] == '-' <==> m < 0;
    assert t[0] == '-' <==> n < 0;
    if m < 0 {
      assert s[1..] == Decimal(-m) && t[1..] == Decimal(-n);
    }
    DecimalRoundTrip(if m < 0 then -m else m);
    DecimalRoundTrip(if n < 0 then -n else n);
  }
}
