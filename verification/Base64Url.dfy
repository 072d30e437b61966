/** base64url without padding (RFC 4648, section 5), with a decoder that skips what is in neither alphabet. */
module Base64Url {
  import opened Wrappers
  import Utf8

  type Sextet = d: int | 0 <= d < 64

  function SextetChar(d: Sextet): (c: char)
    ensures SextetOf(c) == Some(d)
  {
    if d < 26 then 'A' + d as char
    else if d < 52 then 'a' + (d as int - 26) as char
    else if d < 62 then '0' + (d as int - 52) as char
    else if d == 62 then '-' else '_'
  }

  function SextetOf(c: char): Option<Sextet> {
    if 'A' <= c <= 'Z' then Some(c as int - 'A' as int)
    else if 'a' <= c <= 'z' then Some(c as int - 'a' as int + 26)
    else if '0' <= c <= '9' then Some(c as int - '0' as int + 52)
    else if c == '-' || c == '+' then Some(62)
    else if c == '_' || c == '/' then Some(63)
    else None
  }

  function Sextets(bs: seq<Utf8.Byte>): seq<Sextet> {
    if bs == [] then []
    else if |bs| == 1 then [bs[0] / 4, bs[0] % 4 * 16]
    else if |bs| == 2 then [bs[0] / 4, bs[0] % 4 * 16 + bs[1] / 16, bs[1] % 16 * 4]
    else [bs[0] / 4, bs[0] % 4 * 16 + bs[1] / 16, bs[1] % 16 * 4 + bs[2] / 64, bs[2] % 64] + Sextets(bs[3..])
  }

  function Octets(ds: seq<Sextet>): seq<Utf8.Byte> {
    if |ds| < 2 then []
    else if |ds| == 2 then [ds[0] as int * 4 + ds[1] / 16]
    else if |ds| == 3 then [ds[0] as int * 4 + ds[1] / 16, ds[1] as int % 16 * 16 + ds[2] / 4]
    else
      [ ds[0] as int * 4 + ds[1] / 16,
        ds[1] as int % 16 * 16 + ds[2] / 4,
        ds[2] as int % 4 * 64 + ds[3] ] + Octets(ds[4..])
  }

  function Chars(ds: seq<Sextet>): (s: string)
    ensures |s| == |ds|
  {
    if ds == [] then [] else [SextetChar(ds[0])] + Chars(ds[1..])
  }

  function SextetsOf(s: string): seq<Sextet> {
    if s == [] then []
    else
      var rest := SextetsOf(s[1..]);
      match SextetOf(s[0])
      case Some(d) => [d] + rest
      case None => rest
  }

  function Encode(bs: seq<Utf8.Byte>): string {
    Chars(Sextets(bs))
  }

  function Decode(s: string): seq<Utf8.Byte> {
    Octets(SextetsOf(s))
  }

  lemma {:induction false} CharsRoundTrip(ds: seq<Sextet>)
    ensures SextetsOf(Chars(ds)) == ds
  {
    if ds != [] {
      CharsRoundTrip(ds[1..]);
      assert Chars(ds)[1..] == Chars(ds[1..]);
    }
  }

  lemma {:induction false} OctetsRoundTrip(bs: seq<Utf8.Byte>)
    ensures Octets(Sextets(bs)) == bs
  {
    if |bs| >= 3 {
      OctetsRoundTrip(bs[3..]);
      assert Sextets(bs)[4..] == Sextets(bs[3..]);
      assert bs == [bs[0], bs[1], bs[2]] + bs[3..];
    }
  }

  lemma RoundTrip(bs: seq<Utf8.Byte>)
    ensures Decode(Encode(bs)) == bs
  {
    CharsRoundTrip(Sextets(bs));
    OctetsRoundTrip(bs);
  }

  /** The alphabet: capital letters, small letters and digits in their order, then the two that are safe in URLs. */
  lemma Alphabet(d: Sextet)
    ensures SextetChar(0) == 'A' && SextetChar(25) == 'Z' && SextetChar(26) == 'a' && SextetChar(51) == 'z'
    ensures SextetChar(52) == '0' && SextetChar(61) == '9' && SextetChar(62) == '-' && SextetChar(63) == '_'
    ensures d < 61 && d != 25 && d != 51 ==> SextetChar(d + 1) as int == SextetChar(d) as int + 1
  {
  }

  /** Three octets and their four sextets spell the same 24 bits; a shorter group is filled up with zero bits. */
  lemma SameBits(a: Utf8.Byte, b: Utf8.Byte, c: Utf8.Byte)
    ensures var d := Sextets([a, b, c]);
      |d| == 4 && d[0] as int * 0x40000 + d[1] as int * 0x1000 + d[2] as int * 0x40 + d[3] as int
        == a as int * 0x10000 + b as int * 0x100 + c as int
    ensures Sextets([a, b]) == Sextets([a, b, 0])[..3]
    ensures Sextets([a]) == Sextets([a, 0, 0])[..2]
  {
    assert [a, b, c][3..] == [] && [a, b, 0][3..] == [] && [a, 0, 0][3..] == [];
  }

  /** Groups of three are encoded one after the other. */
  lemma GroupByGroup(group: seq<Utf8.Byte>, rest: seq<Utf8.Byte>)
    requires |group| == 3
    ensures Encode(group + rest) == Encode(group) + Encode(rest)
  {
    var bs := group + rest;
    assert bs[3..] == rest && group[3..] == [] && Sextets(group) + Sextets([]) == Sextets(group);
    assert Sextets(bs) == Sextets(group) + Sextets(rest);
    CharsJoin(Sextets(group), Sextets(rest));
  }

  lemma {:induction false} CharsJoin(a: seq<Sextet>, b: seq<Sextet>)
    ensures Chars(a + b) == Chars(a) + Chars(b)
  {
    if a == [] {
      assert a + b == b;
    } else {
      assert (a + b)[1..] == a[1..] + b;
      CharsJoin(a[1..], b);
    }
  }
}
