/** The page URL of forecastio.py's `get_forecast_url`: the location's page,
    and for a day its midnight as a Unix timestamp. The timestamp comes from
    `time.mktime`, which reads the host's time zone; it is a parameter. */
module ForecastIo {
  import opened Wrappers
  import opened Errors
  import opened Text
  import opened Calendar

  const URL_TEMPLATE := "http://forecast.io/#/f"

  /** `int(time.mktime(date.timetuple()))`: the local midnight of a date, in
      seconds, or the error the platform raises for it. */
  type Mktime = Date -> Result<int, PyError>

  /** The page of a location. */
  function LocationUrl(location: string): string
  {
    URL_TEMPLATE + "/" + location
  }

  /** `get_forecast_url(location, date)` for a date given as text, as
      `tell_weather` passes it: an empty text is falsy and leaves the URL
      undated; any other text must read as 'YYYY-MM-DD'. */
  function GetForecastUrl(location: string, date: string, mktime: Mktime): (r: Result<string, PyError>)
    ensures date == "" ==> r == Success(LocationUrl(location))
    ensures date != "" ==> (r.Success? <==> ParseIso(date).Success? && mktime(ParseIso(date).value).Success?)
    ensures date != "" && ParseIso(date).Failure? ==> r == Failure(ParseIso(date).error)
    ensures r.Success? ==> StartsWith(r.value, LocationUrl(location))
  {
    if date == "" then Success(LocationUrl(location))
    else
      match ParseIso(date)
      case Failure(e) => Failure(e)
      case Success(d) =>
        match mktime(d)
        case Failure(e) => Failure(e)
        case Success(t) => Success(LocationUrl(location) + "/" + IntToString(t))
  }

  /** A day's 'YYYY-MM-DD' text links to the page of that day's timestamp. */
  lemma DatedUrl(location: string, d: Date, mktime: Mktime)
    requires Valid(d) && d.year >= 1000 && mktime(d).Success?
    ensures GetForecastUrl(location, IsoText(d), mktime)
         == Success(LocationUrl(location) + "/" + IntToString(mktime(d).value))
  {
    IsoTextRoundTrip(d);
    assert IsoText(d) != "" by {
      assert IsoText(d)[4] == '-';
    }
  }
}
