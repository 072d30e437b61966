/**
 `encodeURIComponent` (ECMA-262, section 19.2.6.4): the unreserved characters stand for
 themselves, the rest is escaped octet by octet.
*/
module UriComponent {
  import opened Wrappers
  import Numerals
  import Utf8

  predicate Unreserved(c: char) {
    || 'A' <= c <= 'Z' || 'a' <= c <= 'z' || '0' <= c <= '9'
    || c == '-' || c == '_' || c == '.' || c == '!' || c == '~'
    || c == '*' || c == '\'' || c == '(' || c == ')'
  }

  function HexDigit(d: nat): (c: char)
    requires d < 16
    ensures Numerals.DigitOf(c) == Some(d) && Unreserved(c)
    ensures c <= '9' || 'A' <= c <= 'F'
  {
    if d < 10 then '0' + d as char else 'A' + (d - 10) as char
  }

  /** Percent escapes, section 2.1 of RFC 3986. */
  function Triple(b: Utf8.Byte): string {
    ['%', HexDigit(b / 16), HexDigit(b % 16)]
  }

  function Escape(bs: seq<Utf8.Byte>): string {
    if bs == [] then [] else Triple(bs[0]) + Escape(bs[1..])
  }

  function EncodeChar(c: char): string {
    if Unreserved(c) then [c] else Escape(Utf8.EncodeChar(c))
  }

  function Encode(s: string): string {
    if s == [] then [] else EncodeChar(s[0]) + Encode(s[1..])
  }

  /** The octets a percent-encoded text stands for. */
  function Octets(s: string): seq<int> {
    if s == [] then []
    else if |s| >= 3 && s[0] == '%' && Numerals.DigitOf(s[1]).Some? && Numerals.DigitOf(s[2]).Some? then
      [Numerals.DigitOf(s[1]).value * 16 + Numerals.DigitOf(s[2]).value] + Octets(s[3..])
    else [s[0] as int] + Octets(s[1..])
  }

  lemma OctetsOfTriple(b: Utf8.Byte, rest: string)
    ensures Octets(Triple(b) + rest) == [b] + Octets(rest)
  {
    var s := Triple(b) + rest;
    assert s[3..] == rest;
  }

  lemma EscapeOneMore(bs: seq<Utf8.Byte>, rest: string)
    requires bs != []
    ensures Escape(bs) + rest == Triple(bs[0]) + (Escape(bs[1..]) + rest)
  {
  }

  /** The octets a text stands for begin with `bs` and go on with those of `rest`. */
  predicate Spells(text: string, bs: seq<Utf8.Byte>, rest: string) {
    Octets(text) == bs + Octets(rest)
  }

  lemma SpellOneMore(b: Utf8.Byte, text: string, bs: seq<Utf8.Byte>, rest: string)
    requires Spells(text, bs, rest)
    ensures Spells(Triple(b) + text, [b] + bs, rest)
  {
    OctetsOfTriple(b, text);
  }

  lemma {:induction false} EscapeSpells(bs: seq<Utf8.Byte>, rest: string)
    ensures Spells(Escape(bs) + rest, bs, rest)
    decreases |bs|
  {
    if bs == [] {
      assert Escape(bs) + rest == rest;
    } else {
      EscapeSpells(bs[1..], rest);
      EscapeOneMore(bs, rest);
      SpellOneMore(bs[0], Escape(bs[1..]) + rest, bs[1..], rest);
      assert [bs[0]] + bs[1..] == bs;
    }
  }

  lemma OctetsOfEscape(bs: seq<Utf8.Byte>, rest: string)
    ensures Octets(Escape(bs) + rest) == bs + Octets(rest)
  {
    EscapeSpells(bs, rest);
  }

  lemma {:induction false} OctetsOfEncode(s: string)
    ensures Octets(Encode(s)) == Utf8.Encode(s)
  {
    if s != [] {
      var rest := Encode(s[1..]);
      OctetsOfEncode(s[1..]);
      if Unreserved(s[0]) {
        assert Utf8.EncodeChar(s[0]) == [s[0] as int];
        assert ([s[0]] + rest)[1..] == rest;
      } else {
        OctetsOfEscape(Utf8.EncodeChar(s[0]), rest);
      }
    }
  }

  /** Different strings encode differently. */
  lemma EncodeInjective(s: string, t: string)
    requires Encode(s) == Encode(t)
    ensures s == t
  {
    OctetsOfEncode(s);
    OctetsOfEncode(t);
    Utf8.RoundTrip(s);
    Utf8.RoundTrip(t);
  }

  /** What needs no escape is printed as it is. */
  lemma {:induction false} UnreservedStays(s: string)
    requires forall i :: 0 <= i < |s| ==> Unreserved(s[i])
    ensures Encode(s) == s
  {
    if s != [] {
      UnreservedStays(s[1..]);
      assert s == [s[0]] + s[1..];
    }
  }

  /** Letters, digits and nine marks stay, and nothing else does. */
  lemma OnlyTheseStay(c: char)
    ensures Encode([c]) == [c] <==>
      'A' <= c <= 'Z' || 'a' <= c <= 'z' || '0' <= c <= '9' || c in "-_.!~*'()"
  {
    var marks := "-_.!~*'()";
    assert marks[0] == '-' && marks[1] == '_' && marks[2] == '.' && marks[3] == '!' && marks[4] == '~';
    assert marks[5] == '*' && marks[6] == '\'' && marks[7] == '(' && marks[8] == ')';
    EscapedUnlessUnreserved(c);
    assert Encode([c]) == EncodeChar(c);
  }

  /** Separators, the space and the escape character are escaped in capital digits. */
  lemma SeparatorsDoNot()
    ensures EncodeChar('&') == "%26" && EncodeChar('=') == "%3D" && EncodeChar('+') == "%2B"
    ensures EncodeChar(' ') == "%20" && EncodeChar('%') == "%25"
  {
  }

  /** Apart from letters, digits and the marks every character is escaped. */
  lemma EscapedUnlessUnreserved(c: char)
    ensures |EncodeChar(c)| == 1 <==> Unreserved(c)
    ensures !Unreserved(c) ==> |EncodeChar(c)| == 3 * |Utf8.EncodeChar(c)|
  {
    EscapeLength(Utf8.EncodeChar(c));
  }

  lemma {:induction false} EscapeLength(bs: seq<Utf8.Byte>)
    ensures |Escape(bs)| == 3 * |bs|
  {
    if bs != [] {
      EscapeLength(bs[1..]);
    }
  }

  predicate Safe(s: string) {
    forall i :: 0 <= i < |s| ==> s[i] == '%' || Unreserved(s[i])
  }

  lemma {:induction false} EscapeIsSafe(bs: seq<Utf8.Byte>)
    ensures Safe(Escape(bs))
  {
    if bs != [] {
      EscapeIsSafe(bs[1..]);
    }
  }

  /** No separator survives encoding. */
  lemma {:induction false} EncodeIsSafe(s: string)
    ensures Safe(Encode(s))
  {
    if s != [] {
      EscapeIsSafe(Utf8.EncodeChar(s[0]));
      EncodeIsSafe(s[1..]);
    }
  }
}

/** The cache key: nine `field=value` parts joined by `&`. */
module IdentityKey {
  import opened Contract
  import Numerals
  import UriComponent

  function PerspectiveText(p: Perspective): string {
    match p
    case P1 => "p1"
    case P2 => "p2"
  }

  /** The declared field order. */
  const FIELDS: seq<string> :=
    [ "replayId", "perspective", "searchBudgetMsPerTurn", "opponentSamples", "threads",
      "usageStatsCutoff", "usageStatsDataset", "pokeEngineTag", "seed" ]

  /** `String(identity[field])` in that order. */
  function Values(id: Identity): (values: seq<string>)
    ensures |values| == 9
  {
    [ id.replayId,
      PerspectiveText(id.perspective),
      Numerals.Signed(id.searchBudgetMsPerTurn),
      Numerals.Signed(id.opponentSamples),
      Numerals.Signed(id.threads),
      Numerals.Signed(id.usageStatsCutoff),
      id.usageStatsDataset,
      id.pokeEngineTag,
      Numerals.Signed(id.seed) ]
  }

  function Part(field: string, value: string): string {
    field + ['='] + UriComponent.Encode(value)
  }

  function Parts(fields: seq<string>, values: seq<string>): (parts: seq<string>)
    requires |fields| == |values|
    ensures |parts| == |fields|
    ensures forall i :: 0 <= i < |fields| ==> parts[i] == Part(fields[i], values[i])
  {
    if fields == [] then [] else [Part(fields[0], values[0])] + Parts(fields[1..], values[1..])
  }

  function Join(parts: seq<string>): string {
    if parts == [] then []
    else if |parts| == 1 then parts[0]
    else parts[0] + ['&'] + Join(parts[1..])
  }

  function Key(id: Identity): string {
    Join(Parts(FIELDS, Values(id)))
  }

  lemma FirstSeparatorSplits(a: string, x: string, b: string, y: string)
    requires '&' !in a && '&' !in b
    requires a + ['&'] + x == b + ['&'] + y
    ensures a == b && x == y
  {
    var s, t := a + ['&'] + x, b + ['&'] + y;
    assert s[|a|] == '&' && t[|b|] == '&';
    assert forall i :: 0 <= i < |a| ==> s[i] == a[i] && s[i] != '&';
    assert forall i :: 0 <= i < |b| ==> t[i] == b[i] && t[i] != '&';
    assert |a| == |b|;
    assert a == s[..|a|] && b == t[..|b|];
    assert x == s[|a| + 1..] && y == t[|b| + 1..];
  }

  /** Parts without the separator can be read back from the joined text. */
  lemma {:induction false} JoinInjective(ps: seq<string>, qs: seq<string>)
    requires |ps| == |qs| && Join(ps) == Join(qs)
    requires forall i :: 0 <= i < |ps| ==> '&' !in ps[i] && '&' !in qs[i]
    ensures ps == qs
  {
    if |ps| == 1 {
      assert ps == [ps[0]] && qs == [qs[0]];
    } else if |ps| > 1 {
      FirstSeparatorSplits(ps[0], Join(ps[1..]), qs[0], Join(qs[1..]));
      JoinInjective(ps[1..], qs[1..]);
      assert ps == [ps[0]] + ps[1..] && qs == [qs[0]] + qs[1..];
    }
  }

  lemma PartInjective(field: string, v: string, w: string)
    requires Part(field, v) == Part(field, w)
    ensures v == w
  {
    var n := |field| + 1;
    assert Part(field, v)[n..] == UriComponent.Encode(v);
    assert Part(field, w)[n..] == UriComponent.Encode(w);
    UriComponent.EncodeInjective(v, w);
  }

  lemma PartHasNoSeparator(field: string, value: string)
    requires '&' !in field
    ensures '&' !in Part(field, value)
  {
    UriComponent.EncodeIsSafe(value);
  }

  lemma FieldNamesHaveNoSeparator(i: nat)
    requires i < 9
    ensures |FIELDS| == 9 && '&' !in FIELDS[i]
  {
  }

  lemma {:induction false} PartsInjective(fields: seq<string>, v: seq<string>, w: seq<string>)
    requires |fields| == |v| == |w|
    requires forall i :: 0 <= i < |fields| ==> '&' !in fields[i]
    requires Join(Parts(fields, v)) == Join(Parts(fields, w))
    ensures v == w
  {
    forall i | 0 <= i < |fields|
      ensures '&' !in Parts(fields, v)[i] && '&' !in Parts(fields, w)[i]
    {
      PartHasNoSeparator(fields[i], v[i]);
      PartHasNoSeparator(fields[i], w[i]);
    }
    JoinInjective(Parts(fields, v), Parts(fields, w));
    forall i | 0 <= i < |fields|
      ensures v[i] == w[i]
    {
      assert Parts(fields, v)[i] == Parts(fields, w)[i];
      PartInjective(fields[i], v[i], w[i]);
    }
  }

  lemma ValuesInjective(x: Identity, y: Identity)
    requires Values(x) == Values(y)
    ensures x == y
  {
    var v, w := Values(x), Values(y);
    assert v[0] == w[0] && v[1] == w[1] && v[6] == w[6] && v[7] == w[7];
    assert PerspectiveText(x.perspective)[1] == PerspectiveText(y.perspective)[1];
    assert v[2] == w[2] && v[3] == w[3] && v[4] == w[4] && v[5] == w[5] && v[8] == w[8];
    Numerals.SignedInjective(x.searchBudgetMsPerTurn, y.searchBudgetMsPerTurn);
    Numerals.SignedInjective(x.opponentSamples, y.opponentSamples);
    Numerals.SignedInjective(x.threads, y.threads);
    Numerals.SignedInjective(x.usageStatsCutoff, y.usageStatsCutoff);
    Numerals.SignedInjective(x.seed, y.seed);
  }

  /** Two identities share a cache key exactly when all nine fields agree. */
  lemma KeyInjective(x: Identity, y: Identity)
    ensures Key(x) == Key(y) <==> x == y
  {
    if Key(x) == Key(y) {
      forall i | 0 <= i < 9
        ensures '&' !in FIELDS[i]
      {
        FieldNamesHaveNoSeparator(i);
      }
      PartsInjective(FIELDS, Values(x), Values(y));
      ValuesInjective(x, y);
    }
  }

  /** A number needs no escape. */
  lemma NumberStays(n: int)
    ensures UriComponent.Encode(Numerals.Signed(n)) == Numerals.Signed(n)
  {
    UriComponent.UnreservedStays(Numerals.Signed(n));
  }

  lemma PerspectiveStays(p: Perspective)
    ensures UriComponent.Encode(PerspectiveText(p)) == if p == P1 then "p1" else "p2"
  {
    UriComponent.UnreservedStays(PerspectiveText(p));
  }

  lemma JoinOneMore(first: string, rest: seq<string>)
    requires rest != []
    ensures Join([first] + rest) == first + "&" + Join(rest) && Join([first]) == first
  {
    assert ([first] + rest)[1..] == rest;
  }

  /** The key's nine parts in their order: numbers in decimal, texts percent-encoded. */
  lemma KeyText(id: Identity)
    ensures exists parts :: KeyParts(parts, id) && Key(id) == Join(parts)
  {
    TextParts(id);
    SearchParts(id);
    SampleParts(id);
    assert KeyParts(Parts(FIELDS, Values(id)), id);
  }

  predicate KeyParts(parts: seq<string>, id: Identity) {
    && |parts| == 9
    && parts[0] == "replayId=" + UriComponent.Encode(id.replayId)
    && parts[1] == "perspective=" + (if id.perspective == P1 then "p1" else "p2")
    && parts[2] == "searchBudgetMsPerTurn=" + Numerals.Signed(id.searchBudgetMsPerTurn)
    && parts[3] == "opponentSamples=" + Numerals.Signed(id.opponentSamples)
    && parts[4] == "threads=" + Numerals.Signed(id.threads)
    && parts[5] == "usageStatsCutoff=" + Numerals.Signed(id.usageStatsCutoff)
    && parts[6] == "usageStatsDataset=" + UriComponent.Encode(id.usageStatsDataset)
    && parts[7] == "pokeEngineTag=" + UriComponent.Encode(id.pokeEngineTag)
    && parts[8] == "seed=" + Numerals.Signed(id.seed)
  }

  lemma TextParts(id: Identity)
    ensures var parts := Parts(FIELDS, Values(id));
      && |parts| == 9
      && parts[0] == "replayId=" + UriComponent.Encode(id.replayId)
      && parts[1] == "perspective=" + (if id.perspective == P1 then "p1" else "p2")
      && parts[6] == "usageStatsDataset=" + UriComponent.Encode(id.usageStatsDataset)
      && parts[7] == "pokeEngineTag=" + UriComponent.Encode(id.pokeEngineTag)
  {
    PerspectiveStays(id.perspective);
    assert "replayId" + ['='] == "replayId=";
    assert "perspective" + ['='] == "perspective=";
    assert "usageStatsDataset" + ['='] == "usageStatsDataset=";
    assert "pokeEngineTag" + ['='] == "pokeEngineTag=";
  }

  lemma SearchParts(id: Identity)
    ensures var parts := Parts(FIELDS, Values(id));
      && |parts| == 9
      && parts[2] == "searchBudgetMsPerTurn=" + Numerals.Signed(id.searchBudgetMsPerTurn)
      && parts[3] == "opponentSamples=" + Numerals.Signed(id.opponentSamples)
      && parts[4] == "threads=" + Numerals.Signed(id.threads)
  {
    NumberStays(id.searchBudgetMsPerTurn);
    NumberStays(id.opponentSamples);
    NumberStays(id.threads);
    assert "searchBudgetMsPerTurn" + ['='] == "searchBudgetMsPerTurn=";
    assert "opponentSamples" + ['='] == "opponentSamples=";
    assert "threads" + ['='] == "threads=";
  }

  lemma SampleParts(id: Identity)
    ensures var parts := Parts(FIELDS, Values(id));
      && |parts| == 9
      && parts[5] == "usageStatsCutoff=" + Numerals.Signed(id.usageStatsCutoff)
      && parts[8] == "seed=" + Numerals.Signed(id.seed)
  {
    NumberStays(id.usageStatsCutoff);
    NumberStays(id.seed);
    assert "usageStatsCutoff" + ['='] == "usageStatsCutoff=";
    assert "seed" + ['='] == "seed=";
  }
}
