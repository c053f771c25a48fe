/**
 * The request timestamp: `gmdate("Y-m-d\TH:i:s.000\Z")`, a UTC date and time
 * written with zero-padded fields, a literal ".000" milliseconds field and a
 * literal 'Z'.  The clock reading itself is a parameter (a DateTime).
 */
module Timestamp {
  import opened Wrappers
  import opened Decimal

  /** A UTC calendar date and time of day, as `gmdate` takes it from the clock. */
  datatype DateTime = DateTime(year: nat, month: nat, day: nat, hour: nat, minute: nat, second: nat)

  /** Leap years of the proleptic Gregorian calendar. */
  predicate IsLeapYear(y: nat) {
    y % 4 == 0 && (y % 100 != 0 || y % 400 == 0)
  }

  function DaysInMonth(y: nat, m: nat): nat
    requires 1 <= m <= 12
  {
    if m == 2 then (if IsLeapYear(y) then 29 else 28)
    else if m == 4 || m == 6 || m == 9 || m == 11 then 30
    else 31
  }

  /** A moment the clock can report. */
  predicate Valid(t: DateTime) {
    && 1 <= t.month <= 12
    && 1 <= t.day <= DaysInMonth(t.year, t.month)
    && t.hour < 24 && t.minute < 60 && t.second < 60
  }

  /** `Y`: the year with at least four digits, which read back as the year. */
  function YearText(y: nat): (s: string)
    ensures |s| >= 4 && AllDigits(s) && Read(s) == y
    ensures |s| == 4 <==> y < 10000
    ensures y >= 10000 ==> Canonical(s)
  {
    if y < 10000 then
      assert Pow10(4) == 10000;
      ReadPadded(y, 4);
      Padded(y, 4)
    else
      ReadNumeral(y);
      assert |Numeral(y)| > 4 by {
        if |Numeral(y)| <= 4 {
          PaddedRead(Numeral(y));
          MonotonePow10(|Numeral(y)|, 4);
        }
      }
      Numeral(y)
  }

  lemma {:induction false} MonotonePow10(a: nat, b: nat)
    requires a <= b
    ensures Pow10(a) <= Pow10(b)
    decreases b
  {
    if a < b {
      MonotonePow10(a, b - 1);
    }
  }

  /** The 24-character shape of a timestamp: `YYYY-MM-DDTHH:MM:SS.000Z`. */
  predicate Shaped(s: string) {
    && |s| == 24
    && AllDigits(s[0..4]) && s[4] == '-' && AllDigits(s[5..7]) && s[7] == '-' && AllDigits(s[8..10])
    && s[10] == 'T'
    && AllDigits(s[11..13]) && s[13] == ':' && AllDigits(s[14..16]) && s[16] == ':' && AllDigits(s[17..19])
    && s[19..] == ".000Z"
  }

  /** The pattern `Y-m-d\TH:i:s.000\Z` filled with six field texts. */
  function Assemble(year: string, month: string, day: string, hour: string, minute: string, second: string): string {
    year + ("-" + month + "-" + day + "T" + hour + ":" + minute + ":" + second + ".000Z")
  }

  /**
   * The timestamp of moment `t`.  Whatever the time it ends in ".000Z" with the
   * 'T' fourteen characters from the end, and it never holds a '&'; it is 24
   * characters long exactly for the years below 10000.
   */
  function Format(t: DateTime): (s: string)
    requires Valid(t)
    ensures |s| >= 24 && s[|s| - 5..] == ".000Z" && s[|s| - 14] == 'T'
    ensures |s| == 24 <==> t.year < 10000
    ensures '&' !in s
  {
    var year := YearText(t.year);
    var s := Assemble(year, Padded(t.month, 2), Padded(t.day, 2), Padded(t.hour, 2), Padded(t.minute, 2), Padded(t.second, 2));
    AssembleEnds(year, Padded(t.month, 2), Padded(t.day, 2), Padded(t.hour, 2), Padded(t.minute, 2), Padded(t.second, 2));
    s
  }

  /** Digits hold no '&'. */
  lemma DigitsAmpersandFree(s: string)
    requires AllDigits(s)
    ensures '&' !in s
  {
  }

  /** Two-character fields leave twenty characters after the year, ending in ".000Z". */
  lemma AssembleEnds(year: string, month: string, day: string, hour: string, minute: string, second: string)
    requires AllDigits(year) && AllDigits(month) && AllDigits(day) && AllDigits(hour) && AllDigits(minute) && AllDigits(second)
    requires |month| == 2 && |day| == 2 && |hour| == 2 && |minute| == 2 && |second| == 2
    ensures var s := Assemble(year, month, day, hour, minute, second);
      && |s| == |year| + 20 && s[|s| - 5..] == ".000Z" && s[|s| - 14] == 'T' && '&' !in s
  {
    var rest := "-" + month + "-" + day + "T" + hour + ":" + minute + ":" + second + ".000Z";
    var s := year + rest;
    assert rest[6] == 'T';
    assert rest[15..] == ".000Z";
    assert s[|year| + 6] == rest[6];
    assert s[|year| + 15..] == rest[15..];
    DigitsAmpersandFree(year);
    DigitsAmpersandFree(month);
    DigitsAmpersandFree(day);
    DigitsAmpersandFree(hour);
    DigitsAmpersandFree(minute);
    DigitsAmpersandFree(second);
  }

  /** With a four-digit year every field sits at its fixed position. */
  lemma AssembleFields(year: string, month: string, day: string, hour: string, minute: string, second: string)
    requires |year| == 4 && |month| == 2 && |day| == 2 && |hour| == 2 && |minute| == 2 && |second| == 2
    ensures var s := Assemble(year, month, day, hour, minute, second);
      && |s| == 24
      && s[0..4] == year && s[4] == '-' && s[5..7] == month && s[7] == '-' && s[8..10] == day
      && s[10] == 'T'
      && s[11..13] == hour && s[13] == ':' && s[14..16] == minute && s[16] == ':' && s[17..19] == second
      && s[19..] == ".000Z"
  {
  }

  /** A shaped string is the pattern filled with its own fields. */
  lemma ShapedFields(s: string)
    requires Shaped(s)
    ensures s == Assemble(s[0..4], s[5..7], s[8..10], s[11..13], s[14..16], s[17..19])
  {
    var a := Assemble(s[0..4], s[5..7], s[8..10], s[11..13], s[14..16], s[17..19]);
    AssembleFields(s[0..4], s[5..7], s[8..10], s[11..13], s[14..16], s[17..19]);
    assert forall i :: 0 <= i < 24 ==> a[i] == s[i] by {
      forall i | 0 <= i < 24 ensures a[i] == s[i] {
        if i < 4 { assert a[i] == a[0..4][i]; }
        else if 5 <= i < 7 { assert a[i] == a[5..7][i - 5]; }
        else if 8 <= i < 10 { assert a[i] == a[8..10][i - 8]; }
        else if 11 <= i < 13 { assert a[i] == a[11..13][i - 11]; }
        else if 14 <= i < 16 { assert a[i] == a[14..16][i - 14]; }
        else if 17 <= i < 19 { assert a[i] == a[17..19][i - 17]; }
        else if i >= 19 { assert a[i] == a[19..][i - 19] && s[i] == s[19..][i - 19]; }
      }
    }
  }

  /** Every timestamp of a year below 10000 has the 24-character shape. */
  lemma FormatShape(t: DateTime)
    requires Valid(t) && t.year < 10000
    ensures Shaped(Format(t))
  {
    AssembleFields(Padded(t.year, 4), Padded(t.month, 2), Padded(t.day, 2), Padded(t.hour, 2), Padded(t.minute, 2), Padded(t.second, 2));
  }

  /** How a reader of the BRI-Timestamp header recovers the moment from its text. */
  function Parse(s: string): Option<DateTime> {
    if !Shaped(s) then None
    else
      var t := DateTime(Read(s[0..4]), Read(s[5..7]), Read(s[8..10]),
                        Read(s[11..13]), Read(s[14..16]), Read(s[17..19]));
      if Valid(t) then Some(t) else None
  }

  /** Every timestamp of a year below 10000 reads back as the moment it was made from. */
  lemma ParseFormat(t: DateTime)
    requires Valid(t) && t.year < 10000
    ensures Parse(Format(t)) == Some(t)
  {
    FormatShape(t);
    AssembleFields(Padded(t.year, 4), Padded(t.month, 2), Padded(t.day, 2), Padded(t.hour, 2), Padded(t.minute, 2), Padded(t.second, 2));
    ReadPadded(t.year, 4);
    ReadPadded(t.month, 2);
    ReadPadded(t.day, 2);
    ReadPadded(t.hour, 2);
    ReadPadded(t.minute, 2);
    ReadPadded(t.second, 2);
  }

  /** Every string that reads as a moment is exactly that moment's timestamp. */
  lemma FormatParse(s: string)
    requires Parse(s).Some?
    ensures Format(Parse(s).value) == s
  {
    var t := Parse(s).value;
    PaddedRead(s[0..4]);
    PaddedRead(s[5..7]);
    PaddedRead(s[8..10]);
    PaddedRead(s[11..13]);
    PaddedRead(s[14..16]);
    PaddedRead(s[17..19]);
    ShapedFields(s);
  }
}
