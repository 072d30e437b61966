/**
 Timestamps of the analyses table and their ISO text.

 A timestamp is held as its UTC calendar fields packed most significant first (year, month,
 day, hour, minute, second, microsecond), so comparing two packed values compares the
 instants, to the microsecond the column keeps.
 */
module IsoTime {
  import opened Wrappers
  import opened Numerals

  function Millis(t: nat): nat { t / 1000 }
  function Seconds(t: nat): nat { Millis(t) / 1000 }
  function Minutes(t: nat): nat { Seconds(t) / 60 }
  function Hours(t: nat): nat { Minutes(t) / 60 }
  function Days(t: nat): nat { Hours(t) / 24 }
  function Months(t: nat): nat { Days(t) / 32 }

  function Year(t: nat): nat { Months(t) / 13 }
  function Month(t: nat): nat { Months(t) % 13 }
  function Day(t: nat): nat { Days(t) % 32 }
  function Hour(t: nat): nat { Hours(t) % 24 }
  function Minute(t: nat): nat { Minutes(t) % 60 }
  function Second(t: nat): nat { Seconds(t) % 60 }
  function Milli(t: nat): nat { Millis(t) % 1000 }

  predicate IsInstant(t: nat) {
    1 <= Month(t) <= 12 && 1 <= Day(t) <= 31 && Year(t) <= 9999
  }

  function Pack(year: nat, month: nat, day: nat, hour: nat, minute: nat, second: nat, milli: nat): nat {
    ((((((year * 13 + month) * 32 + day) * 24 + hour) * 60 + minute) * 60 + second) * 1000 + milli) * 1000
  }

  /** What `new Date(column)` keeps: whole milliseconds. */
  function ToMilli(t: nat): nat {
    t - t % 1000
  }

  predicate WholeMilli(t: nat) {
    t % 1000 == 0
  }

  /** `toISOString`. */
  function ToIso(t: nat): (s: string)
    requires IsInstant(t)
    ensures |s| == 24
  {
    Padded(Year(t), 10, 4) + ['-'] + Padded(Month(t), 10, 2) + ['-'] + Padded(Day(t), 10, 2) + ['T']
    + Padded(Hour(t), 10, 2) + [':'] + Padded(Minute(t), 10, 2) + [':'] + Padded(Second(t), 10, 2) + ['.']
    + Padded(Milli(t), 10, 3) + ['Z']
  }

  /** Reads the ISO form back; `None` for other forms and for fields out of range. */
  function FromIso(s: string): Option<nat> {
    if |s| != 24 || s[4] != '-' || s[7] != '-' || s[10] != 'T' || s[13] != ':' || s[16] != ':'
       || s[19] != '.' || s[23] != 'Z' then None
    else
      match (Parse(s[..4], 10), Parse(s[5..7], 10), Parse(s[8..10], 10), Parse(s[11..13], 10),
             Parse(s[14..16], 10), Parse(s[17..19], 10), Parse(s[20..23], 10))
      case (Some(year), Some(month), Some(day), Some(hour), Some(minute), Some(second), Some(milli)) =>
        var t := Pack(year, month, day, hour, minute, second, milli);
        if 1 <= month <= 12 && 1 <= day <= 31 && hour < 24 && minute < 60 && second < 60 && IsInstant(t)
        then Some(t) else None
      case _ => None
  }

  lemma FieldsPack(t: nat)
    ensures Pack(Year(t), Month(t), Day(t), Hour(t), Minute(t), Second(t), Milli(t)) == ToMilli(t)
  {
    assert Year(t) * 13 + Month(t) == Months(t);
    assert Months(t) * 32 + Day(t) == Days(t);
    assert Days(t) * 24 + Hour(t) == Hours(t);
    assert Hours(t) * 60 + Minute(t) == Minutes(t);
    assert Minutes(t) * 60 + Second(t) == Seconds(t);
    assert Seconds(t) * 1000 + Milli(t) == Millis(t);
  }

  lemma ToMilliIsInstant(t: nat)
    requires IsInstant(t)
    ensures IsInstant(ToMilli(t))
  {
    assert Millis(ToMilli(t)) == Millis(t);
  }

  lemma FieldsOfIso(t: nat)
    requires IsInstant(t)
    ensures var s := ToIso(t);
      && s[..4] == Padded(Year(t), 10, 4) && s[5..7] == Padded(Month(t), 10, 2)
      && s[8..10] == Padded(Day(t), 10, 2) && s[11..13] == Padded(Hour(t), 10, 2)
      && s[14..16] == Padded(Minute(t), 10, 2) && s[17..19] == Padded(Second(t), 10, 2)
      && s[20..23] == Padded(Milli(t), 10, 3)
  {
  }

  lemma PowersOfTen()
    ensures Pow(10, 2) == 100 && Pow(10, 3) == 1000 && Pow(10, 4) == 10000
  {
    assert Pow(10, 1) == 10;
    assert Pow(10, 2) == 100;
    assert Pow(10, 3) == 1000;
  }

  /** The text keeps exactly the milliseconds. */
  lemma IsoRoundTrip(t: nat)
    requires IsInstant(t)
    ensures FromIso(ToIso(t)) == Some(ToMilli(t))
  {
    IsoForm(t);
    FieldsPack(t);
    ToMilliIsInstant(t);
  }

  lemma DigitsHaveNoBar(s: string)
    requires AllDigits(s, 10)
    ensures '|' !in s
  {
  }

  lemma IsoHasNoBar(t: nat)
    requires IsInstant(t)
    ensures '|' !in ToIso(t)
  {
    DigitsHaveNoBar(Padded(Year(t), 10, 4));
    DigitsHaveNoBar(Padded(Month(t), 10, 2));
    DigitsHaveNoBar(Padded(Day(t), 10, 2));
    DigitsHaveNoBar(Padded(Hour(t), 10, 2));
    DigitsHaveNoBar(Padded(Minute(t), 10, 2));
    DigitsHaveNoBar(Padded(Second(t), 10, 2));
    DigitsHaveNoBar(Padded(Milli(t), 10, 3));
  }

  /** Every field is at its place in the text, and between them stands what ISO 8601 puts there. */
  lemma IsoForm(t: nat)
    requires IsInstant(t)
    ensures var s := ToIso(t);
      && s[4] == '-' && s[7] == '-' && s[10] == 'T' && s[13] == ':' && s[16] == ':' && s[19] == '.' && s[23] == 'Z'
      && Parse(s[..4], 10) == Some(Year(t)) && Parse(s[5..7], 10) == Some(Month(t))
      && Parse(s[8..10], 10) == Some(Day(t)) && Parse(s[11..13], 10) == Some(Hour(t))
      && Parse(s[14..16], 10) == Some(Minute(t)) && Parse(s[17..19], 10) == Some(Second(t))
      && Parse(s[20..23], 10) == Some(Milli(t))
  {
    FieldsOfIso(t);
    PowersOfTen();
    PaddedRoundTrip(Year(t), 10, 4);
    PaddedRoundTrip(Month(t), 10, 2);
    PaddedRoundTrip(Day(t), 10, 2);
    PaddedRoundTrip(Hour(t), 10, 2);
    PaddedRoundTrip(Minute(t), 10, 2);
    PaddedRoundTrip(Second(t), 10, 2);
    PaddedRoundTrip(Milli(t), 10, 3);
  }
}
