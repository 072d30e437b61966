/** Row identifiers, which Postgres orders by their 128 bits, and their canonical text. */
module Uuid {
  import opened Wrappers
  import opened Numerals

  predicate IsUuid(n: nat) {
    n < 0x1_0000_0000_0000_0000_0000_0000_0000_0000
  }

  lemma ThirtyTwoHexDigits()
    ensures Pow(16, 32) == 0x1_0000_0000_0000_0000_0000_0000_0000_0000
  {
    assert Pow(16, 8) == 0x1_0000_0000;
    assert Pow(16, 16) == 0x1_0000_0000_0000_0000;
    assert Pow(16, 24) == 0x1_0000_0000_0000_0000_0000_0000;
  }

  function ToText(id: nat): (s: string)
    ensures |s| == 36
  {
    Dashed(Padded(id, 16, 32))
  }

  function Dashed(h: string): (s: string)
    requires |h| == 32
    ensures |s| == 36
  {
    h[..8] + ['-'] + h[8..12] + ['-'] + h[12..16] + ['-'] + h[16..20] + ['-'] + h[20..]
  }

  function Undashed(s: string): string
    requires |s| == 36
  {
    s[..8] + s[9..13] + s[14..18] + s[19..23] + s[24..]
  }

  /** The cast from text, for the canonical form. */
  function FromText(s: string): Option<nat> {
    if |s| != 36 || s[8] != '-' || s[13] != '-' || s[18] != '-' || s[23] != '-' then None
    else Parse(Undashed(s), 16)
  }

  lemma DashesOnly(h: string)
    requires |h| == 32
    ensures var s := Dashed(h);
      Undashed(s) == h && s[8] == '-' && s[13] == '-' && s[18] == '-' && s[23] == '-'
  {
    var s := Dashed(h);
    assert s[..8] == h[..8] && s[9..13] == h[8..12] && s[14..18] == h[12..16];
    assert s[19..23] == h[16..20] && s[24..] == h[20..];
  }

  lemma RoundTrip(id: nat)
    requires IsUuid(id)
    ensures FromText(ToText(id)) == Some(id)
  {
    ThirtyTwoHexDigits();
    PaddedRoundTrip(id, 16, 32);
    DashesOnly(Padded(id, 16, 32));
  }

  /** The shape the route accepts: 36 hexadecimal digits and dashes in any arrangement. */
  predicate LooksLikeUuid(s: string) {
    |s| == 36 && forall i :: 0 <= i < |s| ==> InUuid(s[i])
  }

  predicate InUuid(c: char) {
    c == '-' || IsDigit(c, 16)
  }

  lemma UuidCharacters(c: char)
    ensures InUuid(c) <==> c in "0123456789abcdefABCDEF-"
  {
    var accepted := "0123456789abcdefABCDEF-";
    assert accepted[10] == 'a' && accepted[16] == 'A' && accepted[22] == '-';
    if InUuid(c) {
      var k := if c == '-' then 22 else if c <= '9' then c as int - '0' as int
               else if 'a' <= c then c as int - 'a' as int + 10 else c as int - 'A' as int + 16;
      assert accepted[k] == c;
    }
  }

  lemma DashedLooksLikeUuid(h: string)
    requires |h| == 32 && AllDigits(h, 16)
    ensures LooksLikeUuid(Dashed(h))
  {
    assert AllDigits(h[..8], 16) && AllDigits(h[8..12], 16) && AllDigits(h[12..16], 16);
    assert AllDigits(h[16..20], 16) && AllDigits(h[20..], 16);
  }

  lemma TextLooksLikeUuid(id: nat)
    ensures LooksLikeUuid(ToText(id))
  {
    DashedLooksLikeUuid(Padded(id, 16, 32));
  }
}

/** The opaque pagination cursor. */
module Cursor {
  import opened Wrappers
  import Base64Url
  import Utf8
  import Uuid

  datatype AnalysisCursor = AnalysisCursor(createdAt: string, id: string)

  datatype CursorError = NoSeparator | InvalidTimestamp | InvalidId

  function Joined(c: AnalysisCursor): string {
    c.createdAt + ['|'] + c.id
  }

  function EncodeCursor(c: AnalysisCursor): string {
    Base64Url.Encode(Utf8.Encode(Joined(c)))
  }

  /** Position of the first bar, or the length when there is none. */
  function BarIndex(s: string): (k: nat)
    ensures k <= |s| && '|' !in s[..k]
    ensures k < |s| ==> s[k] == '|'
  {
    if s == [] || s[0] == '|' then 0
    else
      var k := BarIndex(s[1..]) + 1;
      assert s[..k] == [s[0]] + s[1..][..k - 1];
      k
  }

  /** `parses` tells the texts that `Date.parse` reads as a date. */
  function DecodeCursor(raw: string, parses: string -> bool): Result<AnalysisCursor, CursorError> {
    var decoded := Utf8.Decode(Base64Url.Decode(raw));
    var bar := BarIndex(decoded);
    if bar == |decoded| then Err(NoSeparator)
    else
      var createdAt, id := decoded[..bar], decoded[bar + 1..];
      if !parses(createdAt) then Err(InvalidTimestamp)
      else if !Uuid.LooksLikeUuid(id) then Err(InvalidId)
      else Ok(AnalysisCursor(createdAt, id))
  }

  lemma DecodedText(c: AnalysisCursor)
    ensures Utf8.Decode(Base64Url.Decode(EncodeCursor(c))) == Joined(c)
  {
    Base64Url.RoundTrip(Utf8.Encode(Joined(c)));
    Utf8.RoundTrip(Joined(c));
  }

  lemma BarOfJoined(c: AnalysisCursor)
    ensures BarIndex(Joined(c)) < |Joined(c)|
    ensures '|' !in c.createdAt ==> BarIndex(Joined(c)) == |c.createdAt|
  {
    var s, k := Joined(c), BarIndex(Joined(c));
    assert s[|c.createdAt|] == '|';
    assert k <= |c.createdAt| by {
      assert forall i :: 0 <= i < k ==> s[..k][i] == s[i] && s[i] != '|';
    }
    if k < |c.createdAt| {
      assert s[k] == c.createdAt[k];
    }
  }

  /**
   A cursor survives the trip through the client exactly when its timestamp half is a date
   without a bar and its id half has the accepted shape: the two guards of the decoder and
   the separator it splits at.
   */
  lemma CursorRoundTrip(c: AnalysisCursor, parses: string -> bool)
    ensures DecodeCursor(EncodeCursor(c), parses) == Ok(c)
      <==> '|' !in c.createdAt && parses(c.createdAt) && Uuid.LooksLikeUuid(c.id)
  {
    DecodedText(c);
    BarOfJoined(c);
    var s := Joined(c);
    var bar := BarIndex(s);
    if '|' !in c.createdAt {
      assert s[..bar] == c.createdAt && s[bar + 1..] == c.id;
    } else {
      assert '|' !in s[..bar];
      assert s[..bar] != c.createdAt;
    }
  }

  /**
   What the decoder makes of a cursor whose text splits at its first bar into a timestamp and an
   id: it names the first half that is wrong, and never answers with less than both.
  */
  lemma DecodedCursor(raw: string, parses: string -> bool, createdAt: string, id: string)
    requires Utf8.Decode(Base64Url.Decode(raw)) == createdAt + ['|'] + id && '|' !in createdAt
    ensures DecodeCursor(raw, parses) ==
      if !parses(createdAt) then Err(InvalidTimestamp)
      else if |id| != 36 || exists i :: 0 <= i < 36 && id[i] !in "0123456789abcdefABCDEF-" then Err(InvalidId)
      else Ok(AnalysisCursor(createdAt, id))
  {
    var s := createdAt + ['|'] + id;
    BarOfJoined(AnalysisCursor(createdAt, id));
    assert Joined(AnalysisCursor(createdAt, id)) == s;
    assert s[..|createdAt|] == createdAt && s[|createdAt| + 1..] == id;
    assert Uuid.LooksLikeUuid(id) <==> |id| == 36 && forall i :: 0 <= i < 36 ==> id[i] in "0123456789abcdefABCDEF-" by {
      forall i | 0 <= i < |id|
        ensures Uuid.InUuid(id[i]) <==> id[i] in "0123456789abcdefABCDEF-"
      {
        Uuid.UuidCharacters(id[i]);
      }
    }
  }

  lemma NoBarIsRefused(raw: string, parses: string -> bool)
    requires '|' !in Utf8.Decode(Base64Url.Decode(raw))
    ensures DecodeCursor(raw, parses) == Err(NoSeparator)
  {
  }

  /** Everything the decoder lets through has both halves in the accepted form. */
  lemma DecodedIsWellFormed(raw: string, parses: string -> bool)
    requires DecodeCursor(raw, parses).Ok?
    ensures var c := DecodeCursor(raw, parses).value;
      && '|' !in c.createdAt && parses(c.createdAt) && Uuid.LooksLikeUuid(c.id)
      && DecodeCursor(EncodeCursor(c), parses) == Ok(c)
  {
    CursorRoundTrip(DecodeCursor(raw, parses).value, parses);
  }
}
