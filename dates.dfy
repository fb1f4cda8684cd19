/**
 * Proleptic Gregorian calendar dates, their ISO 8601 `YYYY-MM-DD` form and `HH:MM` times,
 * as Python's `datetime` and JavaScript's `Date` compute them.
 */
module Dates {
  import opened Wrappers
  import opened Text

  /** A calendar date; `month` runs from 1 to 12. */
  datatype Date = Date(year: int, month: int, day: int)

  predicate IsLeap(y: int) {
    y % 4 == 0 && (y % 100 != 0 || y % 400 == 0)
  }

  function DaysInMonth(y: int, m: int): (r: int)
    requires 1 <= m <= 12
    ensures 28 <= r <= 31
    ensures r == 29 <==> m == 2 && IsLeap(y)
  {
    if m == 2 then (if IsLeap(y) then 29 else 28)
    else if m == 4 || m == 6 || m == 9 || m == 11 then 30
    else 31
  }

  predicate Valid(d: Date) {
    1 <= d.month <= 12 && 1 <= d.day <= DaysInMonth(d.year, d.month)
  }

  function YearLength(y: int): int {
    if IsLeap(y) then 366 else 365
  }

  /** Days from 0001-01-01 to the first of January of year `y`. */
  function DaysBeforeYear(y: int): int {
    365 * (y - 1) + (y - 1) / 4 - (y - 1) / 100 + (y - 1) / 400
  }

  /** Days from the first of January to the first of month `m`. */
  function DaysBeforeMonth(y: int, m: int): int
    requires 1 <= m <= 12
  {
    if m == 1 then 0 else DaysBeforeMonth(y, m - 1) + DaysInMonth(y, m - 1)
  }

  /** The number of days since Monday 0001-01-01. */
  function DayNumber(d: Date): int
    requires Valid(d)
  {
    DaysBeforeYear(d.year) + DaysBeforeMonth(d.year, d.month) + d.day - 1
  }

  lemma YearStep(y: int)
    ensures DaysBeforeYear(y + 1) == DaysBeforeYear(y) + YearLength(y)
  {
    assert y / 4 - (y - 1) / 4 == (if y % 4 == 0 then 1 else 0);
    assert y / 100 - (y - 1) / 100 == (if y % 100 == 0 then 1 else 0);
    assert y / 400 - (y - 1) / 400 == (if y % 400 == 0 then 1 else 0);
  }

  lemma YearSum(y: int)
    ensures DaysBeforeMonth(y, 12) + DaysInMonth(y, 12) == YearLength(y)
  {
    assert DaysBeforeMonth(y, 2) == 31;
    assert DaysBeforeMonth(y, 3) == 31 + DaysInMonth(y, 2);
    assert DaysBeforeMonth(y, 4) == 62 + DaysInMonth(y, 2);
    assert DaysBeforeMonth(y, 5) == 92 + DaysInMonth(y, 2);
    assert DaysBeforeMonth(y, 6) == 123 + DaysInMonth(y, 2);
    assert DaysBeforeMonth(y, 7) == 153 + DaysInMonth(y, 2);
    assert DaysBeforeMonth(y, 8) == 184 + DaysInMonth(y, 2);
    assert DaysBeforeMonth(y, 9) == 215 + DaysInMonth(y, 2);
    assert DaysBeforeMonth(y, 10) == 245 + DaysInMonth(y, 2);
    assert DaysBeforeMonth(y, 11) == 276 + DaysInMonth(y, 2);
    assert DaysBeforeMonth(y, 12) == 306 + DaysInMonth(y, 2);
  }

  /** The following calendar day (`date + timedelta(days=1)`), rolling over month and year. */
  function NextDay(d: Date): (r: Date)
    requires Valid(d)
    ensures Valid(r)
    ensures DayNumber(r) == DayNumber(d) + 1
  {
    if d.day < DaysInMonth(d.year, d.month) then Date(d.year, d.month, d.day + 1)
    else if d.month < 12 then Date(d.year, d.month + 1, 1)
    else
      YearStep(d.year);
      YearSum(d.year);
      Date(d.year + 1, 1, 1)
  }

  /** The preceding calendar day. */
  function PrevDay(d: Date): (r: Date)
    requires Valid(d)
    ensures Valid(r) && NextDay(r) == d
  {
    if d.day > 1 then Date(d.year, d.month, d.day - 1)
    else if d.month > 1 then Date(d.year, d.month - 1, DaysInMonth(d.year, d.month - 1))
    else Date(d.year - 1, 12, 31)
  }

  /** The day of the week as JavaScript's `getDay` numbers it: Sunday is 0. */
  function Weekday(d: Date): (r: int)
    requires Valid(d)
    ensures 0 <= r <= 6
  {
    (DayNumber(d) + 1) % 7
  }

  /** The date `k` days after `d` (before it when `k` is negative). */
  function AddDays(d: Date, k: int): (r: Date)
    requires Valid(d)
    ensures Valid(r) && DayNumber(r) == DayNumber(d) + k
    decreases if k < 0 then -k else k
  {
    if k == 0 then d
    else if k > 0 then NextDay(AddDays(d, k - 1))
    else PrevDay(AddDays(d, k + 1))
  }

  /** `YYYY-MM-DD`, as `strftime('%Y-%m-%d')` and the date part of `toISOString()` write it. */
  function Format(d: Date): (r: string)
    requires Valid(d) && 0 <= d.year <= 9999
    ensures |r| == 10 && r[4] == '-' && r[7] == '-'
  {
    Digits(d.year, 4) + "-" + Digits(d.month, 2) + "-" + Digits(d.day, 2)
  }

  /**
   * The canonical `YYYY-MM-DD` form that `date.fromisoformat` reads: a four-digit year from 1,
   * a two-digit month and a two-digit day of a real date.
   */
  function Parse(s: string): (r: Option<Date>)
    ensures r.Some? ==> Valid(r.value) && 1 <= r.value.year <= 9999
  {
    if |s| == 10 && s[4] == '-' && s[7] == '-' && AllDigits(s[..4]) && AllDigits(s[5..7]) && AllDigits(s[8..]) then
      var d := Date(DigitsValue(s[..4]), DigitsValue(s[5..7]), DigitsValue(s[8..]));
      if Valid(d) && 1 <= d.year then Some(d) else None
    else None
  }

  /** Every date Python can represent survives formatting and parsing back. */
  lemma ParseFormat(d: Date)
    requires Valid(d) && 1 <= d.year <= 9999
    ensures Parse(Format(d)) == Some(d)
  {
    var s := Format(d);
    assert s[..4] == Digits(d.year, 4);
    assert s[5..7] == Digits(d.month, 2);
    assert s[8..] == Digits(d.day, 2);
    DigitsRoundTrip(d.year, 4);
    DigitsRoundTrip(d.month, 2);
    DigitsRoundTrip(d.day, 2);
  }

  /** A string that parses is exactly the canonical form of its date. */
  lemma FormatParse(s: string)
    requires Parse(s).Some?
    ensures Format(Parse(s).value) == s
  {
    DigitsOfValue(s[..4]);
    DigitsOfValue(s[5..7]);
    DigitsOfValue(s[8..]);
    assert s == s[..4] + "-" + s[5..7] + "-" + s[8..];
  }

  // ---------------------------------------------------------------------------------------
  // strptime(s, '%Y-%m-%d')
  // ---------------------------------------------------------------------------------------

  function DigitAt(s: string, i: nat): nat
    requires i < |s| && IsDigit(s[i])
  {
    DigitValue(s[i])
  }

  /**
   * The month of `%m` at position `i`: the regex tries `1[0-2]`, `0[1-9]` and `[1-9]` in turn
   * and keeps the one the following `-` fits. Gives the month and the position of the `-`.
   */
  function MonthAt(s: string, i: nat): (r: Option<(int, nat)>)
    ensures r.Some? ==> 1 <= r.value.0 <= 12 && i < r.value.1 < |s| && s[r.value.1] == '-'
  {
    if i + 2 < |s| && s[i] == '1' && '0' <= s[i + 1] <= '2' && s[i + 2] == '-' then Some((10 + DigitAt(s, i + 1), i + 2))
    else if i + 2 < |s| && s[i] == '0' && '1' <= s[i + 1] <= '9' && s[i + 2] == '-' then Some((DigitAt(s, i + 1), i + 2))
    else if i + 1 < |s| && '1' <= s[i] <= '9' && s[i + 1] == '-' then Some((DigitAt(s, i), i + 1))
    else None
  }

  /**
   * The day of `%d` at position `j`: the first of `3[01]`, `[12]\d`, `0[1-9]`, `[1-9]` and
   * ` [1-9]` that matches, with nothing required after it. Gives the day and where it ends.
   */
  function DayAt(s: string, j: nat): (r: Option<(int, nat)>)
    ensures r.Some? ==> 1 <= r.value.0 <= 31 && j < r.value.1 <= |s|
  {
    if j + 1 < |s| && s[j] == '3' && '0' <= s[j + 1] <= '1' then Some((30 + DigitAt(s, j + 1), j + 2))
    else if j + 1 < |s| && '1' <= s[j] <= '2' && IsDigit(s[j + 1]) then Some((10 * DigitAt(s, j) + DigitAt(s, j + 1), j + 2))
    else if j + 1 < |s| && s[j] == '0' && '1' <= s[j + 1] <= '9' then Some((DigitAt(s, j + 1), j + 2))
    else if j < |s| && '1' <= s[j] <= '9' then Some((DigitAt(s, j), j + 1))
    else if j + 1 < |s| && s[j] == ' ' && '1' <= s[j + 1] <= '9' then Some((DigitAt(s, j + 1), j + 2))
    else None
  }

  /** The regex match from the start of `s`: the fields read and where the match ends. */
  function DateMatch(s: string): (r: Option<(Date, nat)>)
    ensures r.Some? ==> 1 <= r.value.0.month <= 12 && 1 <= r.value.0.day <= 31 && r.value.1 <= |s|
    ensures r.Some? ==> |s| >= 8 && AllDigits(s[..4]) && s[4] == '-' && r.value.0.year == DigitsValue(s[..4])
  {
    if |s| >= 5 && AllDigits(s[..4]) && s[4] == '-' then
      match MonthAt(s, 5)
      case Some((month, dash)) =>
        (match DayAt(s, dash + 1)
         case Some((day, end)) => Some((Date(DigitsValue(s[..4]), month, day), end))
         case None => None)
      case None => None
    else None
  }

  /**
   * `datetime.strptime(s, '%Y-%m-%d')`: no match is a ValueError naming the text and the
   * format; text after the match is "unconverted data"; then the year must be at least 1 and
   * the day must exist in its month.
   */
  function Strptime(s: string): (r: Result<Date, string>)
    ensures r.Ok? ==> Valid(r.value) && 1 <= r.value.year <= 9999
    ensures r.Ok? ==> |s| >= 8 && AllDigits(s[..4]) && s[4] == '-' && r.value.year == DigitsValue(s[..4])
    ensures DateMatch(s).None? ==> r == Err("time data " + PyRepr(s) + " does not match format '%Y-%m-%d'")
  {
    match DateMatch(s)
    case None => Err("time data " + PyRepr(s) + " does not match format '%Y-%m-%d'")
    case Some((d, end)) =>
      if end < |s| then Err("unconverted data remains: " + s[end..])
      else if d.year == 0 then Err("year 0 is out of range")
      else if !Valid(d) then Err("day is out of range for month")
      else Ok(d)
  }

  lemma MonthOfCanonical(s: string)
    requires |s| == 10 && s[7] == '-' && AllDigits(s[5..7]) && 1 <= DigitsValue(s[5..7]) <= 12
    ensures MonthAt(s, 5) == Some((DigitsValue(s[5..7]), 7))
  {
    assert DigitsValue(s[5..7]) == 10 * DigitValue(s[5]) + DigitValue(s[6]) by {
      assert s[5..7][..1] == [s[5]];
      assert DigitsValue([s[5]]) == DigitValue(s[5]) by {
        assert [s[5]][..0] == [];
      }
    }
  }

  lemma DayOfCanonical(s: string)
    requires |s| == 10 && AllDigits(s[8..]) && 1 <= DigitsValue(s[8..]) <= 31
    ensures DayAt(s, 8) == Some((DigitsValue(s[8..]), 10))
  {
    assert DigitsValue(s[8..]) == 10 * DigitValue(s[8]) + DigitValue(s[9]) by {
      assert s[8..][..1] == [s[8]];
      assert DigitsValue([s[8]]) == DigitValue(s[8]) by {
        assert [s[8]][..0] == [];
      }
    }
  }

  /** `strptime` accepts every canonical date and reads the same date from it. */
  lemma StrptimeCanonical(s: string)
    requires Parse(s).Some?
    ensures Strptime(s) == Ok(Parse(s).value)
  {
    MonthOfCanonical(s);
    DayOfCanonical(s);
  }

  /** `strptime` reads back every date `strftime('%Y-%m-%d')` writes. */
  lemma StrptimeFormat(d: Date)
    requires Valid(d) && 1 <= d.year <= 9999
    ensures Strptime(Format(d)) == Ok(d)
  {
    ParseFormat(d);
    StrptimeCanonical(Format(d));
  }

  /**
   * `strptime` is more lenient than the canonical form: a one-digit month and day are read,
   * while `fromisoformat` refuses them.
   */
  lemma StrptimeShortFields()
    ensures Strptime("2024-1-5") == Ok(Date(2024, 1, 5))
    ensures Parse("2024-1-5").None?
  {
    var s := "2024-1-5";
    assert AllDigits(s[..4]) && s[..4] == "2024";
    assert DigitsValue("2024") == 2024 by {
      assert "2024"[..3] == "202" && "202"[..2] == "20" && "20"[..1] == "2" && "2"[..0] == [];
    }
    assert MonthAt(s, 5) == Some((1, 6));
    assert DayAt(s, 7) == Some((5, 8));
  }

  /** Text after a complete match is refused, even when the day could have been longer. */
  lemma StrptimeLeftover()
    ensures Strptime("2024-01-35") == Err("unconverted data remains: 5")
  {
    var s := "2024-01-35";
    assert AllDigits(s[..4]) && s[..4] == "2024";
    assert MonthAt(s, 5) == Some((1, 7));
    assert DayAt(s, 8) == Some((3, 9));
    assert DateMatch(s) == Some((Date(DigitsValue(s[..4]), 1, 3), 9));
    assert s[9..] == "5";
    assert "unconverted data remains: " + s[9..] == "unconverted data remains: 5";
  }

  /** A time of day with minute precision. */
  datatype Time = Time(hour: int, minute: int)

  predicate ValidTime(t: Time) {
    0 <= t.hour < 24 && 0 <= t.minute < 60
  }

  /** `HH:MM`, as `strftime('%H:%M')` writes it. */
  function FormatTime(t: Time): (r: string)
    requires ValidTime(t)
    ensures |r| == 5 && r[2] == ':'
  {
    Digits(t.hour, 2) + ":" + Digits(t.minute, 2)
  }

  /** Reads a two-digit `HH:MM` time. */
  function ParseTime(s: string): (r: Option<Time>)
    ensures r.Some? ==> ValidTime(r.value)
  {
    if |s| == 5 && s[2] == ':' && AllDigits(s[..2]) && AllDigits(s[3..]) then
      var t := Time(DigitsValue(s[..2]), DigitsValue(s[3..]));
      if ValidTime(t) then Some(t) else None
    else None
  }

  lemma ParseFormatTime(t: Time)
    requires ValidTime(t)
    ensures ParseTime(FormatTime(t)) == Some(t)
  {
    var s := FormatTime(t);
    assert s[..2] == Digits(t.hour, 2);
    assert s[3..] == Digits(t.minute, 2);
    DigitsRoundTrip(t.hour, 2);
    DigitsRoundTrip(t.minute, 2);
  }

  lemma FormatParseTime(s: string)
    requires ParseTime(s).Some?
    ensures FormatTime(ParseTime(s).value) == s
  {
    DigitsOfValue(s[..2]);
    DigitsOfValue(s[3..]);
    assert s == s[..2] + ":" + s[3..];
  }
}
