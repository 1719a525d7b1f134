/** The presentation rules of alfred_weather.py that do not touch the network:
    escaping, icon names and their file fallback, day labels, the per-day
    forecast records and their order. The icon files that exist are a set of
    paths; today's date is a parameter. */
module Presentation {
  import opened Wrappers
  import opened Errors
  import opened Json
  import opened Text
  import opened Calendar

  // ---- _clean ----

  /** Every '&' of `r` opens an "&amp;". */
  predicate AmpersandsEscaped(r: string)
  {
    forall i :: 0 <= i < |r| && r[i] == '&' ==> i + 5 <= |r| && r[i..i + 5] == "&amp;"
  }

  /** `_clean(arg)`: every '&' becomes "&amp;". */
  function Clean(s: string): (r: string)
    ensures |r| >= |s|
    ensures '&' !in s ==> r == s
    ensures AmpersandsEscaped(r)
  {
    if s == [] then []
    else
      var head := if s[0] == '&' then "&amp;" else [s[0]];
      assert AmpersandsEscaped(head);
      EscapedConcat(head, Clean(s[1..]));
      head + Clean(s[1..])
  }

  /** Escaped texts stay escaped when joined. */
  lemma EscapedConcat(a: string, b: string)
    requires AmpersandsEscaped(a) && AmpersandsEscaped(b)
    ensures AmpersandsEscaped(a + b)
  {
    var r := a + b;
    forall i | 0 <= i < |r| && r[i] == '&'
      ensures i + 5 <= |r| && r[i..i + 5] == "&amp;"
    {
      if i < |a| {
        assert a[i] == '&';
        assert r[i..i + 5] == a[i..i + 5];
      } else {
        assert b[i - |a|] == '&';
        assert r[i..i + 5] == b[i - |a|..i - |a| + 5];
      }
    }
  }

  /** Reads "&amp;" back as '&'. */
  function Unescape(s: string): string
  {
    if s == [] then []
    else if StartsWith(s, "&amp;") then "&" + Unescape(s[5..])
    else [s[0]] + Unescape(s[1..])
  }

  /** `_clean` loses nothing: the original text can be read back. */
  lemma {:induction false} CleanRoundTrip(s: string)
    ensures Unescape(Clean(s)) == s
  {
    if s != [] {
      var rest := Clean(s[1..]);
      CleanRoundTrip(s[1..]);
      if s[0] == '&' {
        assert Clean(s) == "&amp;" + rest;
        assert (Clean(s))[5..] == rest;
      } else {
        assert Clean(s) == [s[0]] + rest;
        assert !StartsWith(Clean(s), "&amp;");
        assert (Clean(s))[1..] == rest;
      }
      assert s == [s[0]] + s[1..];
    }
  }

  /** An ampersand in a URL is escaped: `_clean('a&b')` is 'a&amp;b'. */
  lemma CleanAmpersand()
    ensures Clean("a&b") == "a&amp;b"
  {
    assert Clean("b") == "b";
    assert Clean("&b") == "&amp;" + "b";
    assert Clean("a&b") == "a" + "&amp;b";
  }

  // ---- icon names ----

  /** `FIO_TO_WUND`: Forecast.io icon names with a different Weather Underground name. */
  const FIO_TO_WUND: map<string, string> := map[
    "clear-day" := "clear",
    "clear-night" := "nt_clear",
    "partly-cloudy-day" := "partlycloudy",
    "partly-cloudy-night" := "nt_partlycloudy",
    "wind" := "hazy"]

  /** `FIO_TO_WUND.get(icon, icon)` */
  function FioIcon(icon: string): (r: string)
    ensures icon in FIO_TO_WUND ==> r == FIO_TO_WUND[icon]
    ensures icon !in FIO_TO_WUND ==> r == icon
  {
    if icon in FIO_TO_WUND then FIO_TO_WUND[icon] else icon
  }

  function IconPath(iconSet: string, name: string): string
  {
    "icons/" + iconSet + "/" + name + ".png"
  }

  const ERROR_ICON := "error.png"

  /** The files `_get_icon` tries, in order: the icon, the day icon for a
      night icon ("nt_" prefix), the set's default icon. */
  function IconCandidates(iconSet: string, name: string): (c: seq<string>)
    ensures 2 <= |c| <= 3
    ensures c[0] == IconPath(iconSet, name)
    ensures c[|c| - 1] == IconPath(iconSet, "default")
    ensures |c| == 3 <==> StartsWith(name, "nt_")
    ensures |c| == 3 ==> c[1] == IconPath(iconSet, name[3..])
  {
    [IconPath(iconSet, name)]
      + (if StartsWith(name, "nt_") then [IconPath(iconSet, name[3..])] else [])
      + [IconPath(iconSet, "default")]
  }

  /** The position of the first candidate that exists, or |c| when none does. */
  function FirstExisting(c: seq<string>, existing: set<string>): (i: nat)
    ensures i <= |c|
    ensures forall k :: 0 <= k < i ==> c[k] !in existing
    ensures i < |c| ==> c[i] in existing
  {
    if c == [] then 0
    else if c[0] in existing then 0
    else 1 + FirstExisting(c[1..], existing)
  }

  /** The icon `_get_icon` settles on. */
  function ResolvedIcon(iconSet: string, name: string, existing: set<string>): string
  {
    var c := IconCandidates(iconSet, name);
    var i := FirstExisting(c, existing);
    if i < |c| then c[i] else ERROR_ICON
  }

  /** `_get_icon(settings, name)` with `settings['icons'] == iconSet`. */
  method GetIcon(iconSet: string, name: string, existing: set<string>) returns (icon: string)
    ensures icon == ResolvedIcon(iconSet, name, existing)
    ensures icon in existing || icon == ERROR_ICON
  {
    icon := IconPath(iconSet, name);
    if icon !in existing {
      if StartsWith(name, "nt_") {
        // use the day icon
        icon := IconPath(iconSet, name[3..]);
      }
    }
    if icon !in existing {
      // use the set default icon
      icon := IconPath(iconSet, "default");
    }
    if icon !in existing {
      // use the global unknown icon
      icon := ERROR_ICON;
    }
    ghost var c := IconCandidates(iconSet, name);
    assert c[0] == IconPath(iconSet, name);
    if |c| == 3 {
      assert c[1..][0] == c[1] && c[1..][1..][0] == c[2];
    } else {
      assert c[1..][0] == c[1];
    }
  }

  /** The fallback chain: the icon itself when it exists; otherwise the day
      icon of a night icon; otherwise the set's default; otherwise error.png. */
  lemma IconFallback(iconSet: string, name: string, existing: set<string>)
    ensures var icon := ResolvedIcon(iconSet, name, existing);
      && (IconPath(iconSet, name) in existing ==> icon == IconPath(iconSet, name))
      && (IconPath(iconSet, name) !in existing && StartsWith(name, "nt_") && IconPath(iconSet, name[3..]) in existing
          ==> icon == IconPath(iconSet, name[3..]))
      && (IconPath(iconSet, name) !in existing
          && (StartsWith(name, "nt_") ==> IconPath(iconSet, name[3..]) !in existing)
          && IconPath(iconSet, "default") in existing
          ==> icon == IconPath(iconSet, "default"))
      && (IconPath(iconSet, name) !in existing
          && (StartsWith(name, "nt_") ==> IconPath(iconSet, name[3..]) !in existing)
          && IconPath(iconSet, "default") !in existing
          ==> icon == ERROR_ICON)
  {
    var c := IconCandidates(iconSet, name);
    var i := FirstExisting(c, existing);
    if IconPath(iconSet, name) !in existing {
      assert i != 0;
      if StartsWith(name, "nt_") && IconPath(iconSet, name[3..]) !in existing {
        assert i != 1;
      }
    }
  }

  // ---- day labels ----

  /** The label of a forecast day: "Today", "Tomorrow" when its day of the
      month is one more than today's (whatever the months), else its weekday. */
  function DayLabel(fdate: Date, today: Date): string
    requires Valid(fdate)
  {
    if fdate == today then "Today"
    else if fdate.day - today.day == 1 then "Tomorrow"
    else WeekdayName(fdate)
  }

  lemma DayLabelCases(fdate: Date, today: Date)
    requires Valid(fdate)
    ensures DayLabel(fdate, today) == "Today" <==> fdate == today
    ensures DayLabel(fdate, today) == "Tomorrow" <==> fdate != today && fdate.day - today.day == 1
    ensures fdate != today && fdate.day - today.day != 1 ==> DayLabel(fdate, today) == WeekdayName(fdate)
  {
    assert "Today" !in WEEKDAY_NAMES && "Tomorrow" !in WEEKDAY_NAMES;
  }

  /** Within a month the next calendar day is labelled "Tomorrow". */
  lemma TomorrowWithinMonth(today: Date)
    requires Valid(today) && today.day < DaysInMonth(today.year, today.month)
    ensures DayLabel(NextDay(today), today) == "Tomorrow"
  {
  }

  /** Across a month end the next day is not "Tomorrow": 31 March 2024 to 1 April 2024. */
  lemma MonthEndIsNotTomorrow()
    ensures DayLabel(Date(2024, 4, 1), Date(2024, 3, 31)) == WeekdayName(Date(2024, 4, 1))
    ensures DayLabel(Date(2024, 4, 1), Date(2024, 3, 31)) != "Tomorrow"
  {
    assert "Tomorrow" !in WEEKDAY_NAMES;
  }

  /** A day a month and one day away is "Tomorrow": 15 March to 16 April. */
  lemma NextMonthIsTomorrow()
    ensures DayLabel(Date(2024, 4, 16), Date(2024, 3, 15)) == "Tomorrow"
  {
  }

  // ---- forecast days ----

  /** One forecast day as `get_day_info` records it; `date` is its
      'YYYY-MM-DD' text and temperatures and precipitation are the text
      they are printed as. */
  datatype DayInfo = DayInfo(
    day: string,
    date: string,
    conditions: string,
    icon: string,
    tempHi: string,
    tempLo: string,
    precip: Option<string>)

  /** A Weather Underground 'forecastday' record. */
  datatype WundDay = WundDay(
    year: int, month: int, day: int,
    conditions: string, pop: Value, icon: string,
    highF: Value, highC: Value, lowF: Value, lowC: Value)

  /** `get_day_info` of `_get_wund_weather`; `usUnits` is `settings['units'] == 'us'`. */
  function WundDayInfo(raw: WundDay, today: Date, usUnits: bool): (r: Result<DayInfo, PyError>)
    ensures r.Success? <==> Valid(Date(raw.year, raw.month, raw.day)) && raw.year >= 1900
    ensures r.Success? ==>
              && r.value.date == IsoText(Date(raw.year, raw.month, raw.day))
              && r.value.day == DayLabel(Date(raw.year, raw.month, raw.day), today)
              && r.value.tempHi == Show(if usUnits then raw.highF else raw.highC)
              && r.value.tempLo == Show(if usUnits then raw.lowF else raw.lowC)
              && r.value.conditions == raw.conditions
              && r.value.icon == raw.icon
              && r.value.precip == Some(Show(raw.pop))
  {
    match CheckDate(raw.year, raw.month, raw.day)
    case Failure(e) => Failure(e)
    case Success(fdate) =>
      match StrftimeYearCheck(fdate)
      case Some(e) => Failure(e)
      case None =>
        Success(DayInfo(
          DayLabel(fdate, today), IsoText(fdate), raw.conditions, raw.icon,
          Show(if usUnits then raw.highF else raw.highC),
          Show(if usUnits then raw.lowF else raw.lowC),
          Some(Show(raw.pop))))
  }

  /** A Forecast.io 'daily' record: its date in local time, the rounded
      temperatures and the precipitation percentage text when present. */
  datatype FioDay = FioDay(
    date: ValidDate, summary: string, icon: string,
    tempMax: int, tempMin: int, precip: Option<string>)

  /** `get_day_info` of `_get_fio_weather`: a final '.' of the summary is
      dropped and the icon is translated. */
  function FioDayInfo(raw: FioDay, today: Date): (r: Result<DayInfo, PyError>)
    ensures r.Success? <==> raw.summary != [] && raw.date.year >= 1900
    ensures r.Success? ==>
              && r.value.date == IsoText(raw.date)
              && r.value.day == DayLabel(raw.date, today)
              && r.value.icon == FioIcon(raw.icon)
              && r.value.conditions + (if raw.summary[|raw.summary| - 1] == '.' then "." else "") == raw.summary
              && r.value.tempHi == IntToString(raw.tempMax)
              && r.value.tempLo == IntToString(raw.tempMin)
              && r.value.precip == raw.precip
  {
    if raw.summary == [] then Failure(Raised("string index out of range"))
    else
      var summary := if raw.summary[|raw.summary| - 1] == '.' then raw.summary[..|raw.summary| - 1] else raw.summary;
      match StrftimeYearCheck(raw.date)
      case Some(e) => Failure(e)
      case None =>
        Success(DayInfo(
          DayLabel(raw.date, today), IsoText(raw.date), summary, FioIcon(raw.icon),
          IntToString(raw.tempMax), IntToString(raw.tempMin), raw.precip))
  }

  // ---- sorted(forecast, key=lambda d: d['date']) ----

  /** Python's string order: lexicographic on characters. */
  predicate LexLe(a: string, b: string)
  {
    a == [] || (b != [] && (a[0] < b[0] || (a[0] == b[0] && LexLe(a[1..], b[1..]))))
  }

  lemma {:induction false} LexTotal(a: string, b: string)
    ensures LexLe(a, b) || LexLe(b, a)
  {
    if a != [] && b != [] && a[0] == b[0] {
      LexTotal(a[1..], b[1..]);
    }
  }

  predicate SortedByDate(s: seq<DayInfo>)
  {
    forall i :: 0 <= i < |s| - 1 ==> LexLe(s[i].date, s[i + 1].date)
  }

  function Insert(x: DayInfo, s: seq<DayInfo>): (r: seq<DayInfo>)
    requires SortedByDate(s)
    ensures SortedByDate(r)
    ensures multiset(r) == multiset(s) + multiset{x}
    ensures r[0] == x || (s != [] && r[0] == s[0])
  {
    if s == [] then [x]
    else if LexLe(x.date, s[0].date) then [x] + s
    else
      LexTotal(x.date, s[0].date);
      var t := Insert(x, s[1..]);
      assert s == [s[0]] + s[1..];
      assert LexLe(s[0].date, t[0].date);
      [s[0]] + t
  }

  /** `sorted(forecast, key=lambda d: d['date'])`: the same days, by date text. */
  function SortByDate(s: seq<DayInfo>): (r: seq<DayInfo>)
    ensures SortedByDate(r)
    ensures multiset(r) == multiset(s)
    ensures |r| == |s|
  {
    if s == [] then []
    else
      assert s == [s[0]] + s[1..];
      var r := Insert(s[0], SortByDate(s[1..]));
      assert |r| == |multiset(r)|;
      r
  }

  /** `get_day_info` of `_get_wund_weather` as a function of a day. */
  function WundInfo(today: Date, usUnits: bool): WundDay -> Result<DayInfo, PyError>
  {
    d => WundDayInfo(d, today, usUnits)
  }

  /** `get_day_info` of `_get_fio_weather` as a function of a day. */
  function FioInfo(today: Date): FioDay -> Result<DayInfo, PyError>
  {
    d => FioDayInfo(d, today)
  }

  /** `weather['forecast']` of `_get_wund_weather`: every day's record, or
      the error of the first day that has none; the records in date order. */
  function WundForecast(days: seq<WundDay>, today: Date, usUnits: bool): (r: Result<seq<DayInfo>, PyError>)
    ensures var infos := MapResults(days, WundInfo(today, usUnits));
      && (r.Success? <==> infos.Success?)
      && (r.Failure? ==> r.error == infos.error)
      && (r.Success? ==> SortedByDate(r.value) && multiset(r.value) == multiset(infos.value))
    ensures r.Success? ==> |r.value| == |days|
  {
    match MapResults(days, WundInfo(today, usUnits))
    case Failure(e) => Failure(e)
    case Success(infos) => Success(SortByDate(infos))
  }

  /** `weather['forecast']` of `_get_fio_weather`: every day's record, or
      the error of the first day that has none; the records in date order. */
  function FioForecast(days: seq<FioDay>, today: Date): (r: Result<seq<DayInfo>, PyError>)
    ensures var infos := MapResults(days, FioInfo(today));
      && (r.Success? <==> infos.Success?)
      && (r.Failure? ==> r.error == infos.error)
      && (r.Success? ==> SortedByDate(r.value) && multiset(r.value) == multiset(infos.value))
    ensures r.Success? ==> |r.value| == |days|
  {
    match MapResults(days, FioInfo(today))
    case Failure(e) => Failure(e)
    case Success(infos) => Success(SortByDate(infos))
  }

  /** The Weather Underground forecast holds a record for every day: each
      day's record is in it, and each of its records is some day's. */
  lemma WundForecastDays(days: seq<WundDay>, today: Date, usUnits: bool)
    requires WundForecast(days, today, usUnits).Success?
    ensures forall i :: 0 <= i < |days| ==>
              WundDayInfo(days[i], today, usUnits).Success?
              && WundDayInfo(days[i], today, usUnits).value in WundForecast(days, today, usUnits).value
    ensures forall d :: d in WundForecast(days, today, usUnits).value ==>
              exists i :: 0 <= i < |days| && WundDayInfo(days[i], today, usUnits) == Success(d)
  {
    var f := WundInfo(today, usUnits);
    var infos := MapResults(days, f).value;
    var r := WundForecast(days, today, usUnits).value;
    MapResultsMeaning(days, f);
    forall i | 0 <= i < |days|
      ensures WundDayInfo(days[i], today, usUnits).Success? && WundDayInfo(days[i], today, usUnits).value in r
    {
      assert f(days[i]) == WundDayInfo(days[i], today, usUnits);
      assert infos[i] in multiset(infos);
    }
    forall d | d in r
      ensures exists i :: 0 <= i < |days| && WundDayInfo(days[i], today, usUnits) == Success(d)
    {
      assert d in multiset(r);
      assert d in multiset(infos);
      var i :| 0 <= i < |infos| && infos[i] == d;
      assert f(days[i]) == WundDayInfo(days[i], today, usUnits);
    }
  }
}
