/** Proleptic Gregorian dates as Python's `datetime.date` computes them, and
    the two conversions the plugin performs on them: `strftime` with the
    directives `%Y %m %d %j %A`, and `strptime(s, '%Y-%m-%d')`. */
module Calendar {
  import opened Wrappers
  import opened Errors
  import opened Text

  datatype Date = Date(year: int, month: int, day: int)

  predicate IsLeap(y: int)
  {
    y % 4 == 0 && (y % 100 != 0 || y % 400 == 0)
  }

  function DaysInMonth(y: int, m: int): int
    requires 1 <= m <= 12
  {
    if m == 2 then (if IsLeap(y) then 29 else 28)
    else if m == 4 || m == 6 || m == 9 || m == 11 then 30
    else 31
  }

  /** The dates `datetime.date` accepts: MINYEAR 1 to MAXYEAR 9999. */
  predicate Valid(d: Date)
  {
    1 <= d.year <= 9999 && 1 <= d.month <= 12 && 1 <= d.day <= DaysInMonth(d.year, d.month)
  }

  /** A date object: `date.fromtimestamp` only ever makes valid ones. */
  type ValidDate = d: Date | Valid(d) witness Date(1970, 1, 1)

  /** The error `date(year, month, day)` raises for a date it refuses. */
  function CheckDate(year: int, month: int, day: int): (r: Result<Date, PyError>)
    ensures r.Success? <==> Valid(Date(year, month, day))
    ensures r.Success? ==> r.value == Date(year, month, day)
  {
    if !(1 <= year <= 9999) then Failure(Raised("year is out of range"))
    else if !(1 <= month <= 12) then Failure(Raised("month must be in 1..12"))
    else if !(1 <= day <= DaysInMonth(year, month)) then Failure(Raised("day is out of range for month"))
    else Success(Date(year, month, day))
  }

  /** Days in the months before `m` (the `_DAYS_BEFORE_MONTH` table). */
  function DaysBeforeMonth(y: int, m: int): int
    requires 1 <= m <= 12
  {
    [0, 31, 59, 90, 120, 151, 181, 212, 243, 273, 304, 334][m - 1]
      + (if m > 2 && IsLeap(y) then 1 else 0)
  }

  /** `%j`: the day of the year, 1 on January 1st. */
  function DayOfYear(d: Date): (r: int)
    requires Valid(d)
    ensures 1 <= r <= (if IsLeap(d.year) then 366 else 365)
  {
    DaysBeforeMonth(d.year, d.month) + d.day
  }

  function DaysBeforeYear(y: int): int
  {
    var y1 := y - 1;
    y1 * 365 + y1 / 4 - y1 / 100 + y1 / 400
  }

  /** `date.toordinal()`: January 1st of year 1 is day 1. */
  function Ordinal(d: Date): int
    requires Valid(d)
  {
    DaysBeforeYear(d.year) + DayOfYear(d)
  }

  /** `date.weekday()`: Monday is 0 and Sunday is 6. */
  function Weekday(d: Date): (r: int)
    requires Valid(d)
    ensures 0 <= r < 7
  {
    (Ordinal(d) + 6) % 7
  }

  const WEEKDAY_NAMES: seq<string> :=
    ["Monday", "Tuesday", "Wednesday", "Thursday", "Friday", "Saturday", "Sunday"]

  /** `%A` in the C locale. */
  function WeekdayName(d: Date): string
    requires Valid(d)
  {
    WEEKDAY_NAMES[Weekday(d)]
  }

  /** The date after `d`. */
  function NextDay(d: Date): (r: Date)
    requires Valid(d)
  {
    if d.day < DaysInMonth(d.year, d.month) then Date(d.year, d.month, d.day + 1)
    else if d.month < 12 then Date(d.year, d.month + 1, 1)
    else Date(d.year + 1, 1, 1)
  }

  lemma DivStep(x: nat, k: nat)
    requires k == 4 || k == 100 || k == 400
    ensures (x + 1) / k == x / k + (if (x + 1) % k == 0 then 1 else 0)
  {
  }

  lemma MultipleOf100(m: int)
    ensures (100 * m) % 100 == 0
  {
  }

  lemma MultipleOf4(m: int)
    ensures (4 * m) % 4 == 0
  {
  }

  /** A multiple of 400 is a multiple of 100, and a multiple of 100 one of 4. */
  lemma DivisorChain(y: int)
    ensures y % 400 == 0 ==> y % 100 == 0
    ensures y % 100 == 0 ==> y % 4 == 0
  {
    if y % 400 == 0 {
      var q := y / 400;
      assert y == 100 * (4 * q);
      MultipleOf100(4 * q);
    }
    if y % 100 == 0 {
      var q := y / 100;
      assert y == 4 * (25 * q);
      MultipleOf4(25 * q);
    }
  }

  /** A year contributes 366 days to the ordinal count when it is a leap year. */
  lemma DaysBeforeNextYear(y: int)
    requires 1 <= y
    ensures DaysBeforeYear(y + 1) == DaysBeforeYear(y) + (if IsLeap(y) then 366 else 365)
  {
    var y1: nat := y - 1;
    var a, b, c := y1 / 4, y1 / 100, y1 / 400;
    assert DaysBeforeYear(y) == y1 * 365 + a - b + c;
    assert DaysBeforeYear(y + 1) == (y1 + 1) * 365 + (y1 + 1) / 4 - (y1 + 1) / 100 + (y1 + 1) / 400;
    DivStep(y1, 4);
    DivStep(y1, 100);
    DivStep(y1, 400);
    DivisorChain(y);
  }

  lemma DaysBeforeNextMonth(y: int, m: int)
    requires 1 <= m < 12
    ensures DaysBeforeMonth(y, m + 1) == DaysBeforeMonth(y, m) + DaysInMonth(y, m)
  {
  }

  /** The last day of a year is followed by the first day of the next one,
      one ordinal later. */
  lemma YearEndOrdinal(d: Date)
    requires Valid(d) && d.year < 9999 && d.month == 12 && d.day == 31
    ensures Valid(Date(d.year + 1, 1, 1))
    ensures Ordinal(Date(d.year + 1, 1, 1)) == Ordinal(d) + 1
  {
    DaysBeforeNextYear(d.year);
    assert DayOfYear(Date(d.year + 1, 1, 1)) == 1;
    assert DayOfYear(d) == (if IsLeap(d.year) then 366 else 365);
  }

  /** Consecutive days have consecutive ordinals. */
  lemma NextDayOrdinal(d: Date)
    requires Valid(d) && d.year < 9999
    ensures Valid(NextDay(d))
    ensures Ordinal(NextDay(d)) == Ordinal(d) + 1
  {
    var n := NextDay(d);
    if d.day < DaysInMonth(d.year, d.month) {
      assert n == Date(d.year, d.month, d.day + 1);
      assert DayOfYear(n) == DayOfYear(d) + 1;
    } else if d.month < 12 {
      assert n == Date(d.year, d.month + 1, 1);
      DaysBeforeNextMonth(d.year, d.month);
      assert DayOfYear(n) == DayOfYear(d) + 1;
    } else {
      assert n == Date(d.year + 1, 1, 1);
      YearEndOrdinal(d);
    }
  }

  lemma WeekStep(o: int)
    ensures (o + 1 + 6) % 7 == ((o + 6) % 7 + 1) % 7
  {
  }

  /** Consecutive days have consecutive weekdays, Sunday wrapping to Monday. */
  lemma NextDayWeekday(d: Date)
    requires Valid(d) && d.year < 9999
    ensures Valid(NextDay(d))
    ensures Weekday(NextDay(d)) == (Weekday(d) + 1) % 7
  {
    NextDayOrdinal(d);
    var o := Ordinal(d);
    assert Weekday(NextDay(d)) == (o + 1 + 6) % 7;
    WeekStep(o);
  }

  /** The python 2 guard every `date.strftime` call passes through. */
  function StrftimeYearCheck(d: Date): Option<PyError>
  {
    if d.year < 1900 then
      Some(Raised("year=" + IntToString(d.year) + " is before 1900; the datetime strftime() methods require year >= 1900"))
    else None
  }

  /** `d.strftime('%Y-%m-%d')` once the year check has passed. */
  function IsoText(d: Date): string
    requires Valid(d)
  {
    ZeroPad(d.year, 4) + "-" + ZeroPad(d.month, 2) + "-" + ZeroPad(d.day, 2)
  }

  // ---- strptime(s, '%Y-%m-%d') ----
  // The directive regular expressions are those of Python's _strptime:
  //   %Y  \d\d\d\d
  //   %m  1[0-2]|0[1-9]|[1-9]
  //   %d  3[01]|[12]\d|0[1-9]|[1-9]| [1-9]
  // The whole pattern is matched at the start of the text; text left over
  // after the match is an error of its own.

  predicate InRange(c: char, lo: char, hi: char)
  {
    lo <= c <= hi
  }

  /** The `%m` alternatives, first match wins: (value, characters used). */
  function MatchMonth(t: string): Option<(int, nat)>
  {
    if |t| >= 2 && t[0] == '1' && InRange(t[1], '0', '2') then Some((10 + DigitValue(t[1]), 2))
    else if |t| >= 2 && t[0] == '0' && InRange(t[1], '1', '9') then Some((DigitValue(t[1]), 2))
    else if |t| >= 1 && InRange(t[0], '1', '9') then Some((DigitValue(t[0]), 1))
    else None
  }

  /** The `%d` alternatives, first match wins: (value, characters used). */
  function MatchDay(t: string): Option<(int, nat)>
  {
    if |t| >= 2 && t[0] == '3' && InRange(t[1], '0', '1') then Some((30 + DigitValue(t[1]), 2))
    else if |t| >= 2 && InRange(t[0], '1', '2') && IsDigit(t[1]) then Some((10 * DigitValue(t[0]) + DigitValue(t[1]), 2))
    else if |t| >= 2 && t[0] == '0' && InRange(t[1], '1', '9') then Some((DigitValue(t[1]), 2))
    else if |t| >= 1 && InRange(t[0], '1', '9') then Some((DigitValue(t[0]), 1))
    else if |t| >= 2 && t[0] == ' ' && InRange(t[1], '1', '9') then Some((DigitValue(t[1]), 2))
    else None
  }

  /** The `ValueError` of `strptime` for text that does not fit the format:
      both the text and the format appear as their `repr`. */
  function Mismatch(s: string): PyError
  {
    Raised("time data " + Repr(s) + " does not match format '%Y-%m-%d'")
  }

  /** `datetime.strptime(s, '%Y-%m-%d').date()` */
  function ParseIso(s: string): (r: Result<Date, PyError>)
    ensures r.Success? ==> Valid(r.value)
  {
    if !(|s| >= 5 && AllDigits(s[..4]) && s[4] == '-') then Failure(Mismatch(s))
    else
      match MatchMonth(s[5..])
      case None => Failure(Mismatch(s))
      case Some((month, ml)) =>
        var k := 5 + ml;
        if !(k < |s| && s[k] == '-') then Failure(Mismatch(s))
        else
          match MatchDay(s[k + 1..])
          case None => Failure(Mismatch(s))
          case Some((day, dl)) =>
            var end := k + 1 + dl;
            if end < |s| then Failure(Raised("unconverted data remains: " + s[end..]))
            else CheckDate(DigitsValue(s[..4]), month, day)
  }

  /** Text that is not a date is quoted as `repr` quotes it: a text holding a
      single quote appears between double quotes. */
  lemma MismatchQuote()
    ensures ParseIso("it's") == Failure(Raised("time data " + "\"it's\"" + " does not match format '%Y-%m-%d'"))
  {
    assert !AllDigits("it's"[..4]) by {
      assert !IsDigit("it's"[0]);
    }
    assert Repr("it's") == "\"it's\"" by {
      ReprPlain("it's");
    }
  }

  lemma TwoDigits(n: nat)
    requires n < 100
    ensures ZeroPad(n, 2) == [DigitChar(n / 10), DigitChar(n % 10)]
  {
    assert n / 10 / 10 == 0 && n / 10 % 10 == n / 10;
    assert ZeroPad(n / 10 / 10, 0) == [];
  }

  /** Reading back what `strftime('%Y-%m-%d')` wrote gives the same date. */
  lemma IsoTextRoundTrip(d: Date)
    requires Valid(d) && d.year >= 1000
    ensures ParseIso(IsoText(d)) == Success(d)
  {
    var s := IsoText(d);
    ZeroPadValue(d.year, 4);
    TwoDigits(d.month);
    TwoDigits(d.day);
    assert s[..4] == ZeroPad(d.year, 4);
    assert s[4] == '-';
    var m2 := ZeroPad(d.month, 2);
    assert s[5..] == m2 + "-" + ZeroPad(d.day, 2);
    assert MatchMonth(s[5..]) == Some((d.month, 2));
    assert s[7] == '-';
    assert s[8..] == ZeroPad(d.day, 2);
    assert MatchDay(s[8..]) == Some((d.day, 2));
  }
}
