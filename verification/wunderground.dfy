/** The Weather Underground client's two non-network parts (wunderground.py):
    the module-level API base that `set_key` rewrites, and the forecast page
    URL built for a location and an optional date. */
module Wunderground {
  import opened Wrappers
  import opened Errors
  import opened Text
  import opened Calendar

  const FORECAST_URL := "http://www.wunderground.com/cgi-bin/findweather/getForecast"
  /** `API_TEMPLATE` with its `{}` placeholder left off. */
  const API_PREFIX := "http://api.wunderground.com/api/"

  /** The module's global state: `api` is None until a key is set. */
  class Client {
    var api: Option<string>

    constructor()
      ensures api == None
    {
      api := None;
    }

    /** `set_key(key)` */
    method SetKey(key: string)
      modifies this
      ensures api == Some(API_PREFIX + key)
      ensures KeyOf(api.value) == Some(key)
    {
      api := Some(API_PREFIX + key);
    }
  }

  /** The key an API base was built from, if it was built by `set_key`. */
  function KeyOf(api: string): (k: Option<string>)
    ensures k.Some? <==> StartsWith(api, API_PREFIX)
    ensures k.Some? ==> API_PREFIX + k.value == api
  {
    if StartsWith(api, API_PREFIX) then Some(api[|API_PREFIX|..]) else None
  }

  /** The `date` argument: None, a string (falsy when empty) or a date object
      (always truthy). */
  datatype DateArg = NoDate | DateText(text: string) | DateValue(date: Date)

  function QueryUrl(location: string): string
  {
    FORECAST_URL + "?query=" + location
  }

  /** The `&hourly=1&yday=DDD&weekday=Name` suffix for a date. */
  function DateSuffix(d: Date): string
    requires Valid(d)
  {
    "&hourly=1&yday=" + ZeroPad(DayOfYear(d), 3) + "&weekday=" + WeekdayName(d)
  }

  function WithDate(location: string, d: Date): (r: Result<string, PyError>)
    requires Valid(d)
  {
    match StrftimeYearCheck(d)
    case Some(e) => Failure(e)
    case None => Success(QueryUrl(location) + DateSuffix(d))
  }

  /** `get_forecast_url(location, date)` */
  function GetForecastUrl(location: string, date: DateArg := NoDate): (r: Result<string, PyError>)
    requires date.DateValue? ==> Valid(date.date)
    ensures r.Success? ==> StartsWith(r.value, QueryUrl(location))
    ensures date == NoDate || date == DateText("") ==> r == Success(QueryUrl(location))
  {
    match date
    case NoDate => Success(QueryUrl(location))
    case DateText(s) =>
      if s == "" then Success(QueryUrl(location))
      else
        (match ParseIso(s)
         case Failure(e) => Failure(e)
         case Success(d) => WithDate(location, d))
    case DateValue(d) => WithDate(location, d)
  }

  /** A dated URL carries the three-digit day of the year (001 to 366) and the
      weekday name after the undated URL. */
  lemma DatedUrl(location: string, d: Date)
    requires Valid(d) && d.year >= 1900
    ensures GetForecastUrl(location, DateValue(d)) == Success(QueryUrl(location) + DateSuffix(d))
    ensures |ZeroPad(DayOfYear(d), 3)| == 3
    ensures 1 <= DigitsValue(ZeroPad(DayOfYear(d), 3)) <= 366
  {
    ZeroPadValue(DayOfYear(d), 3);
  }

  /** The string `'YYYY-MM-DD'` gives the same URL as the date it names. */
  lemma TextDateAgrees(location: string, d: Date)
    requires Valid(d) && d.year >= 1000
    ensures GetForecastUrl(location, DateText(IsoText(d))) == GetForecastUrl(location, DateValue(d))
  {
    IsoTextRoundTrip(d);
  }

  lemma YearExample()
    ensures ZeroPad(2024, 4) == "2024"
  {
    assert ZeroPad(2, 1) == "2";
    assert ZeroPad(20, 2) == "20";
    assert ZeroPad(202, 3) == "202";
  }

  lemma IsoTextExample()
    ensures IsoText(Date(2024, 3, 15)) == "2024-03-15"
  {
    YearExample();
    assert ZeroPad(3, 2) == "03";
    assert ZeroPad(15, 2) == "15";
  }

  lemma DateSuffixExample()
    ensures DateSuffix(Date(2024, 3, 15)) == "&hourly=1&yday=075&weekday=Friday"
  {
    var d := Date(2024, 3, 15);
    assert DayOfYear(d) == 75;
    assert ZeroPad(75, 3) == "075" by {
      assert ZeroPad(7, 2) == "07";
    }
    assert DaysBeforeYear(2024) == 738885;
    assert Weekday(d) == 4;
  }

  /** An example from a calendar: 15 March 2024 was a Friday, day 75 of a leap year. */
  lemma March15th2024(location: string)
    ensures GetForecastUrl(location, DateText("2024-03-15"))
         == Success(QueryUrl(location) + "&hourly=1&yday=075&weekday=Friday")
  {
    var d := Date(2024, 3, 15);
    IsoTextExample();
    TextDateAgrees(location, d);
    DatedUrl(location, d);
    DateSuffixExample();
  }
}
