/** `tell_weather` of alfred_weather.py: the list of items shown for a
    location, built from the loaded settings and the fetched weather. The
    service call and the parsing of its answer (`_get_wund_weather` /
    `_get_fio_weather`, with their cache and network use) are a parameter up
    to the forecast days, which are turned into records and sorted here. The
    clock, `strftime` with the user's time format, `time.mktime` and the icon
    files that exist are parameters too. */
module WeatherView {
  import opened Wrappers
  import opened Errors
  import opened Json
  import opened Text
  import opened Alfred
  import opened Settings
  import opened Presentation
  import opened Calendar
  import opened Wunderground
  import ForecastIo

  /** Twenty box-drawing characters U+2500. */
  const LINE: string := "────────────────────"

  /** The two weather services of `SERVICES`. */
  datatype Service = Wund | Fio
  {
    function Name(): string
    {
      match this
      case Wund => "Weather Underground"
      case Fio => "Forecast.io"
    }

    function Url(): string
    {
      match this
      case Wund => "http://www.wunderground.com"
      case Fio => "http://forecast.io"
    }
  }

  /** `SERVICES[v]`: a `KeyError` unless `v` is 'wund' or 'fio'. A text read
      from the settings file is a unicode string, which the error shows as
      `u'...'`; a list or an object cannot be a key at all. */
  function ServiceOf(v: Value): (r: Result<Service, PyError>)
    ensures r == Success(Wund) <==> v == Str("wund")
    ensures r == Success(Fio) <==> v == Str("fio")
    ensures v.Str? && v.s != "wund" && v.s != "fio" ==> r == Failure(Raised("u" + Repr(v.s)))
    ensures v.Arr? ==> r == Failure(Raised("unhashable type: 'list'"))
    ensures v.Obj? ==> r == Failure(Raised("unhashable type: 'dict'"))
    ensures v.Null? || v.Bool? || v.Int? || v.Num? ==> r == Failure(Raised(Show(v)))
  {
    match v
    case Str(s) =>
      if s == "wund" then Success(Wund)
      else if s == "fio" then Success(Fio)
      else Failure(Raised("u" + Repr(s)))
    case Arr(_) => Failure(Raised("unhashable type: 'list'"))
    case Obj(_) => Failure(Raised("unhashable type: 'dict'"))
    case _ => Failure(Raised(Show(v)))
  }

  /** `v[key]` for a value read from the settings file. */
  function Field(v: Value, key: string): (r: Result<Value, PyError>)
    ensures r.Success? <==> v.Obj? && key in v.fields
    ensures r.Success? ==> r.value == v.fields[key]
    ensures v.Obj? && key !in v.fields ==> r == Failure(KeyError(key))
  {
    match v
    case Obj(fields) => if key in fields then Success(fields[key]) else Failure(KeyError(key))
    case Str(_) => Failure(Raised("string indices must be integers, not str"))
    case Arr(_) => Failure(Raised("list indices must be integers, not str"))
    case Int(_) => Failure(Raised("'int' object has no attribute '__getitem__'"))
    case Bool(_) => Failure(Raised("'bool' object has no attribute '__getitem__'"))
    case Num(_) => Failure(Raised("'float' object has no attribute '__getitem__'"))
    case Null => Failure(Raised("'NoneType' object has no attribute '__getitem__'"))
  }

  /** An alert as the fetch reports it; `expires` is a timestamp. */
  datatype Alert = Alert(description: string, expires: int, uri: Option<string>)

  /** Current conditions; temperature and humidity already rounded. */
  datatype Current = Current(weather: string, icon: string, temp: int, humidity: int)

  /** What `_get_wund_weather` / `_get_fio_weather` return: no 'alerts' key
      reads as no alerts; `fetchedAt` is `weather['info']['time']`. */
  datatype Weather = Weather(alerts: seq<Alert>, current: Current, forecast: seq<DayInfo>, fetchedAt: int)

  /** The forecast days as the service reports them. */
  datatype RawDays = WundDays(wund: seq<WundDay>) | FioDays(fio: seq<FioDay>)

  /** What the service call and the parsing of its answer give before the
      forecast days become records. */
  datatype Fetched = Fetched(alerts: seq<Alert>, current: Current, days: RawDays, fetchedAt: int)

  /** What the view needs from outside: the icon files that exist,
      `strftime(t, fmt)`, `time.mktime` of a date and `date.today()`. */
  datatype Env = Env(existing: set<string>, strftime: (int, Value) -> string, mktime: ForecastIo.Mktime, today: Date)

  /** The end of `_get_wund_weather` / `_get_fio_weather`: `get_day_info` of
      every day, then the records sorted by date. */
  function FetchedWeather(f: Fetched, today: Date, usUnits: bool): (r: Result<Weather, PyError>)
    ensures f.days.WundDays? ==> (r.Success? <==> WundForecast(f.days.wund, today, usUnits).Success?)
    ensures f.days.FioDays? ==> (r.Success? <==> FioForecast(f.days.fio, today).Success?)
    ensures r.Success? ==>
              && r.value.alerts == f.alerts && r.value.current == f.current && r.value.fetchedAt == f.fetchedAt
              && SortedByDate(r.value.forecast)
              && r.value.forecast == (if f.days.WundDays? then WundForecast(f.days.wund, today, usUnits).value
                                      else FioForecast(f.days.fio, today).value)
  {
    var forecast := match f.days
      case WundDays(ds) => WundForecast(ds, today, usUnits)
      case FioDays(ds) => FioForecast(ds, today);
    match forecast
    case Failure(e) => Failure(e)
    case Success(days) => Success(Weather(f.alerts, f.current, days, f.fetchedAt))
  }

  // ---- the items ----

  /** An alert's item: an error icon, and clickable iff the alert has a URI. */
  function AlertItem(a: Alert, timeFormat: Value, strftime: (int, Value) -> string): (v: ItemValue)
    ensures v.title == a.description && v.icon == Some("error.png")
    ensures v.valid <==> a.uri.Some?
    ensures v.arg.Some? <==> a.uri.Some?
    ensures a.uri.Some? ==> v.arg == Some(Clean(a.uri.value))
  {
    var item := NewItem(a.description, Some("Expires at " + strftime(a.expires, timeFormat)), icon := Some("error.png"));
    if a.uri.Some? then item.(arg := Some(Clean(a.uri.value)), valid := true) else item
  }

  function AlertItems(alerts: seq<Alert>, timeFormat: Value, strftime: (int, Value) -> string): (vs: seq<ItemValue>)
    ensures |vs| == |alerts|
    ensures forall i :: 0 <= i < |alerts| ==> vs[i] == AlertItem(alerts[i], timeFormat, strftime)
  {
    seq(|alerts|, i requires 0 <= i < |alerts| => AlertItem(alerts[i], timeFormat, strftime))
  }

  /** The temperature unit letter. */
  function UnitLetter(usUnits: bool): string
  {
    if usUnits then "F" else "C"
  }

  /** The current-conditions item. */
  function CurrentItem(shortName: Value, c: Current, usUnits: bool, icon: string): ItemValue
  {
    NewItem("Currently in " + Show(shortName) + ": " + Capitalize(c.weather),
            Some(IntToString(c.temp) + "°" + UnitLetter(usUnits) + ",  " + IntToString(c.humidity) + "% humidity"),
            icon := Some(icon))
  }

  /** A forecast day's item, linking to the day's forecast page. */
  function DayItem(d: DayInfo, usUnits: bool, url: string, icon: string): ItemValue
  {
    var tu := UnitLetter(usUnits);
    var temps := "High: " + d.tempHi + "°" + tu + ",  Low: " + d.tempLo + "°" + tu;
    var subtitle := if d.precip.Some? then temps + ",  Precip: " + d.precip.value + "%" else temps;
    NewItem(d.day + ": " + Capitalize(d.conditions), Some(subtitle), icon := Some(icon),
            arg := Some(Clean(url)), valid := true)
  }

  /** The closing item naming the service and the time of the fetch. */
  function TrailerItem(service: Service, time: string): (v: ItemValue)
    ensures v.title == LINE && v.valid && v.arg == Some(service.Url())
  {
    NewItem(LINE, Some("Fetched from " + service.Name() + " at " + time), icon := Some(""),
            arg := Some(service.Url()), valid := true)
  }

  /** `SERVICES[service]['lib'].get_forecast_url`: a function of the
      location and the day's date text. */
  function ForecastUrlFn(service: Service, env: Env): (f: (string, string) -> Result<string, PyError>)
    ensures service == Fio ==> forall location, date :: f(location, date) == ForecastIo.GetForecastUrl(location, date, env.mktime)
    ensures service == Wund ==> forall location, date :: f(location, date) == GetForecastUrl(location, DateText(date))
  {
    match service
    case Wund => (location, date) => GetForecastUrl(location, DateText(date))
    case Fio => (location, date) => ForecastIo.GetForecastUrl(location, date, env.mktime)
  }

  /** One pass of the forecast loop over values: the day's item, or the
      error of building its URL. */
  function DayEntry(getUrl: (string, string) -> Result<string, PyError>, location: string, usUnits: bool,
                    iconSet: string, existing: set<string>): DayInfo -> Result<ItemValue, PyError>
  {
    (d: DayInfo) =>
      match getUrl(location, d.date)
      case Failure(e) => Failure(e)
      case Success(url) => Success(DayItem(d, usUnits, url, ResolvedIcon(iconSet, d.icon, existing)))
  }

  /** A day whose link could be built becomes an actionable item carrying
      that link; a failed link is the day's error. */
  lemma DayEntryMeaning(getUrl: (string, string) -> Result<string, PyError>, location: string, usUnits: bool,
                        iconSet: string, existing: set<string>, d: DayInfo)
    ensures var r := DayEntry(getUrl, location, usUnits, iconSet, existing)(d);
      && (r.Success? <==> getUrl(location, d.date).Success?)
      && (r.Failure? ==> r.error == getUrl(location, d.date).error)
      && (r.Success? ==> r.value.valid && r.value.arg == Some(Clean(getUrl(location, d.date).value))
                         && r.value.title == d.day + ": " + Capitalize(d.conditions)
                         && r.value.icon == Some(ResolvedIcon(iconSet, d.icon, existing)))
  {
  }

  /** Where `days[:n]` ends in Python, for `n` possibly negative or past
      the end. */
  function SliceEnd(n: int, length: nat): (k: nat)
    ensures k <= length
    ensures 0 <= n ==> k == if n > length then length else n
    ensures n < 0 ==> k == if length + n < 0 then 0 else length + n
  {
    if n >= 0 then (if n > length then length else n)
    else if length + n < 0 then 0 else length + n
  }

  /** `settings['days']` as a slice bound: integers and booleans compare as
      numbers; other values are larger than every integer in Python 2, so
      they never cut the list. */
  function DaysLimit(v: Value): Option<int>
  {
    match v
    case Int(n) => Some(n)
    case Bool(b) => Some(if b then 1 else 0)
    case _ => None
  }

  /** `days[:limit]` if `len(days) > limit`, else `days`. */
  function Truncated(days: seq<DayInfo>, limit: Option<int>): (r: seq<DayInfo>)
    ensures r <= days
    ensures limit.Some? && limit.value >= 0 ==> |r| == if |days| > limit.value then limit.value else |days|
    ensures limit.None? ==> r == days
  {
    match limit
    case None => days
    case Some(n) => if |days| > n then days[..SliceEnd(n, |days|)] else days
  }

  /** The settings keys `tell_weather` reads without checking. */
  predicate Loaded(settings: Settings)
  {
    DEFAULTS.Keys <= settings.Keys && "service" in settings && "location" in settings
  }

  /** What `tell_weather` reads from the settings, in the order it reads
      them: the short name, the coordinates and the service entry. */
  datatype View = View(
    usUnits: bool, iconSet: string, timeFormat: Value, shortName: Value,
    coords: string, service: Service, limit: Option<int>)

  /** The settings as `tell_weather` reads them, or the first `KeyError`. */
  function ViewOf(settings: Settings): (r: Result<View, PyError>)
    requires Loaded(settings)
    ensures r.Success? <==>
              && Field(settings["location"], "short_name").Success?
              && Field(settings["location"], "latitude").Success?
              && Field(settings["location"], "longitude").Success?
              && ServiceOf(settings["service"]).Success?
    ensures r.Success? ==> r.value.limit == DaysLimit(settings["days"]) && r.value.timeFormat == settings["time_format"]
  {
    match Field(settings["location"], "short_name")
    case Failure(e) => Failure(e)
    case Success(shortName) =>
      match Field(settings["location"], "latitude")
      case Failure(e) => Failure(e)
      case Success(lat) =>
        match Field(settings["location"], "longitude")
        case Failure(e) => Failure(e)
        case Success(lon) =>
          match ServiceOf(settings["service"])
          case Failure(e) => Failure(e)
          case Success(service) =>
            Success(View(settings["units"] == Str("us"), Show(settings["icons"]), settings["time_format"],
                         shortName, Show(lat) + "," + Show(lon), service, DaysLimit(settings["days"])))
  }

  /** The forecast days shown, each as its item or the URL error. */
  function ViewDayItems(view: View, w: Weather, env: Env): Result<seq<ItemValue>, PyError>
  {
    MapResults(Truncated(w.forecast, view.limit),
               DayEntry(ForecastUrlFn(view.service, env), view.coords, view.usUnits, view.iconSet, env.existing))
  }

  /** The items of `tell_weather` in order: the alerts, the current
      conditions, the first `settings['days']` days and the trailer; or the
      error of the first day whose URL cannot be built. */
  function ViewItems(view: View, w: Weather, env: Env): (r: Result<seq<ItemValue>, PyError>)
    ensures r.Success? <==> ViewDayItems(view, w, env).Success?
  {
    match ViewDayItems(view, w, env)
    case Failure(e) => Failure(e)
    case Success(dayItems) =>
      Success(AlertItems(w.alerts, view.timeFormat, env.strftime)
              + [CurrentItem(view.shortName, w.current, view.usUnits, ResolvedIcon(view.iconSet, w.current.icon, env.existing))]
              + dayItems
              + [TrailerItem(view.service, env.strftime(w.fetchedAt, view.timeFormat))])
  }

  /** The items `tell_weather` builds from loaded settings and fetched
      weather, or the first error raised on the way. */
  function WeatherItems(settings: Settings, w: Weather, env: Env): Result<seq<ItemValue>, PyError>
    requires Loaded(settings)
  {
    match ViewOf(settings)
    case Failure(e) => Failure(e)
    case Success(view) => ViewItems(view, w, env)
  }

  /** The settings `tell_weather` works with: loaded and validated, with the
      query, when not blank, geocoded as a one-off location. */
  function WeatherSettings(stored: Option<Settings>, query: string, lookup: Lookup): (r: Result<Settings, PyError>)
    ensures r.Success? ==> Loaded(r.value)
    ensures LoadedSettings(stored, true, lookup).Failure? ==> r == Failure(LoadedSettings(stored, true, lookup).error)
    ensures LoadedSettings(stored, true, lookup).Success? && IsBlank(query) ==>
              r == Success(LoadedSettings(stored, true, lookup).value)
    ensures LoadedSettings(stored, true, lookup).Success? && !IsBlank(query) ==>
              && (r.Success? <==> lookup(Str(query)).Success?)
              && (r.Failure? ==> r.error == lookup(Str(query)).error)
              && (r.Success? ==> r.value == LoadedSettings(stored, true, lookup).value["location" := LocationOf(lookup(Str(query)).value)])
  {
    match LoadedSettings(stored, true, lookup)
    case Failure(e) => Failure(e)
    case Success(settings) =>
      if IsBlank(query) then Success(settings)
      else
        match lookup(Str(query))
        case Failure(e) => Failure(e)
        case Success(g) => Success(settings["location" := LocationOf(g)])
  }

  /** `tell_weather(query)` over values; `fetch` is the service call. */
  function TellWeatherItems(stored: Option<Settings>, query: string, lookup: Lookup,
                            fetch: Settings -> Result<Fetched, PyError>, env: Env): Result<seq<ItemValue>, PyError>
  {
    match WeatherSettings(stored, query, lookup)
    case Failure(e) => Failure(e)
    case Success(settings) =>
      match fetch(settings)
      case Failure(e) => Failure(e)
      case Success(f) =>
        match FetchedWeather(f, env.today, settings["units"] == Str("us"))
        case Failure(e) => Failure(e)
        case Success(w) => WeatherItems(settings, w, env)
  }

  /** A successful answer has one item per alert, one for the current
      conditions, one per shown day and the trailer; at most
      `settings['days']` days are shown. */
  lemma WeatherCount(view: View, w: Weather, env: Env, n: nat)
    requires ViewItems(view, w, env).Success?
    requires view.limit == Some(n)
    ensures |ViewItems(view, w, env).value| == |w.alerts| + 1 + (if |w.forecast| > n then n else |w.forecast|) + 1
  {
    var dayItems := ViewDayItems(view, w, env).value;
    assert |dayItems| == |Truncated(w.forecast, view.limit)|;
  }

  /** `items` are the items of `days`, one each and in order: clickable and
      titled with the day's label and its conditions. */
  predicate ShowsDays(items: seq<ItemValue>, days: seq<DayInfo>)
  {
    && |items| == |days|
    && forall j :: 0 <= j < |days| ==>
         && items[j].valid && items[j].arg.Some?
         && items[j].title == days[j].day + ": " + Capitalize(days[j].conditions)
  }

  /** Each shown day becomes one clickable item titled with its label and
      conditions, in the forecast's order. */
  lemma ShownDayItems(view: View, w: Weather, env: Env)
    requires ViewDayItems(view, w, env).Success?
    ensures ShowsDays(ViewDayItems(view, w, env).value, Truncated(w.forecast, view.limit))
  {
    var days := Truncated(w.forecast, view.limit);
    var getUrl := ForecastUrlFn(view.service, env);
    var entry := DayEntry(getUrl, view.coords, view.usUnits, view.iconSet, env.existing);
    var dayItems := MapResults(days, entry).value;
    MapResultsMeaning(days, entry);
    forall j | 0 <= j < |days|
      ensures dayItems[j].valid && dayItems[j].arg.Some?
      ensures dayItems[j].title == days[j].day + ": " + Capitalize(days[j].conditions)
    {
      DayEntryMeaning(getUrl, view.coords, view.usUnits, view.iconSet, env.existing, days[j]);
    }
  }

  /** The parts of a successful answer, in order. */
  lemma ViewItemsLayout(view: View, w: Weather, env: Env)
    requires ViewItems(view, w, env).Success?
    ensures ViewItems(view, w, env).value
         == AlertItems(w.alerts, view.timeFormat, env.strftime)
            + [CurrentItem(view.shortName, w.current, view.usUnits, ResolvedIcon(view.iconSet, w.current.icon, env.existing))]
            + ViewDayItems(view, w, env).value
            + [TrailerItem(view.service, env.strftime(w.fetchedAt, view.timeFormat))]
  {
  }

  /** The alerts, the current conditions and the trailer of a successful
      answer: the alerts first (clickable iff they have a URI), then the
      current conditions (not clickable), the trailer last. */
  lemma WeatherHead(view: View, w: Weather, env: Env)
    requires ViewItems(view, w, env).Success?
    ensures var items := ViewItems(view, w, env).value;
      && |items| == |w.alerts| + |Truncated(w.forecast, view.limit)| + 2
      && (forall i :: 0 <= i < |w.alerts| ==>
            items[i].title == w.alerts[i].description && (items[i].valid <==> w.alerts[i].uri.Some?))
      && StartsWith(items[|w.alerts|].title, "Currently in ")
      && !items[|w.alerts|].valid
      && items[|items| - 1].title == LINE
  {
    var items := ViewItems(view, w, env).value;
    var alertItems := AlertItems(w.alerts, view.timeFormat, env.strftime);
    var current := CurrentItem(view.shortName, w.current, view.usUnits, ResolvedIcon(view.iconSet, w.current.icon, env.existing));
    var trailer := TrailerItem(view.service, env.strftime(w.fetchedAt, view.timeFormat));
    var dayItems := ViewDayItems(view, w, env).value;
    assert items == alertItems + [current] + dayItems + [trailer];
    assert |dayItems| == |Truncated(w.forecast, view.limit)| by {
      ShownDayItems(view, w, env);
    }
    forall i | 0 <= i < |w.alerts|
      ensures items[i].title == w.alerts[i].description && (items[i].valid <==> w.alerts[i].uri.Some?)
    {
      assert items[i] == alertItems[i];
    }
    assert items[|w.alerts|] == current;
    assert StartsWith(current.title, "Currently in ");
    assert items[|items| - 1] == trailer;
  }

  /** What lies between a prefix and a last element is what was put there. */
  lemma Between<T>(pre: seq<T>, mid: seq<T>, last: T)
    ensures (pre + mid + [last])[|pre|..|pre| + |mid|] == mid
  {
  }

  /** Between the current conditions and the trailer of a successful answer
      lie the items of the shown days, in the forecast's order. */
  lemma WeatherDays(view: View, w: Weather, env: Env)
    requires ViewItems(view, w, env).Success?
    ensures var items := ViewItems(view, w, env).value;
      && |items| == |w.alerts| + |Truncated(w.forecast, view.limit)| + 2
      && ShowsDays(items[|w.alerts| + 1..|items| - 1], Truncated(w.forecast, view.limit))
  {
    var pre := AlertItems(w.alerts, view.timeFormat, env.strftime)
      + [CurrentItem(view.shortName, w.current, view.usUnits, ResolvedIcon(view.iconSet, w.current.icon, env.existing))];
    var dayItems := ViewDayItems(view, w, env).value;
    ViewItemsLayout(view, w, env);
    ShownDayItems(view, w, env);
    Between(pre, dayItems, TrailerItem(view.service, env.strftime(w.fetchedAt, view.timeFormat)));
  }

  /** The first days of a forecast sorted by date are sorted by date. */
  lemma {:induction false} ShownDaysByDate(forecast: seq<DayInfo>, limit: Option<int>)
    requires SortedByDate(forecast)
    ensures SortedByDate(Truncated(forecast, limit))
  {
    var days := Truncated(forecast, limit);
    forall i | 0 <= i < |days| - 1
      ensures LexLe(days[i].date, days[i + 1].date)
    {
      assert days[i] == forecast[i] && days[i + 1] == forecast[i + 1];
    }
  }

  /** What `tell_weather` answers: after the alerts and the current
      conditions come the first `settings['days']` forecast records, in date
      order, one item each, titled with the day's label and conditions. */
  lemma TellWeatherDays(stored: Option<Settings>, query: string, lookup: Lookup,
                        fetch: Settings -> Result<Fetched, PyError>, env: Env)
    requires TellWeatherItems(stored, query, lookup, fetch, env).Success?
    ensures var settings := WeatherSettings(stored, query, lookup).value;
      && var w := FetchedWeather(fetch(settings).value, env.today, settings["units"] == Str("us")).value;
      && var days := Truncated(w.forecast, DaysLimit(settings["days"]));
      && var items := TellWeatherItems(stored, query, lookup, fetch, env).value;
      && SortedByDate(days)
      && |items| == |w.alerts| + |days| + 2
      && ShowsDays(items[|w.alerts| + 1..|items| - 1], days)
  {
    var settings := WeatherSettings(stored, query, lookup).value;
    var w := FetchedWeather(fetch(settings).value, env.today, settings["units"] == Str("us")).value;
    var view := ViewOf(settings).value;
    assert TellWeatherItems(stored, query, lookup, fetch, env) == ViewItems(view, w, env);
    ShownDaysByDate(w.forecast, view.limit);
    WeatherDays(view, w, env);
  }

  // ---- the methods ----

  /** One pass of the alert loop of `tell_weather`: the item is constructed,
      then given the alert's link when it has one. */
  method BuildAlertItem(alert: Alert, timeFormat: Value, strftime: (int, Value) -> string) returns (item: Item)
    ensures item.Value() == AlertItem(alert, timeFormat, strftime)
  {
    item := new Item(alert.description, Some("Expires at " + strftime(alert.expires, timeFormat)),
                     icon := Some("error.png"));
    if alert.uri.Some? {
      item.arg := Some(Clean(alert.uri.value));
      item.valid := true;
    }
  }

  /** The alert loop of `tell_weather`. */
  method BuildAlertItems(alerts: seq<Alert>, timeFormat: Value, strftime: (int, Value) -> string)
    returns (items: seq<Item>)
    ensures Values(items) == AlertItems(alerts, timeFormat, strftime)
  {
    items := [];
    var i := 0;
    while i < |alerts|
      invariant 0 <= i <= |alerts|
      invariant Values(items) == AlertItems(alerts[..i], timeFormat, strftime)
    {
      var item := BuildAlertItem(alerts[i], timeFormat, strftime);
      ValuesAppend(items, [item]);
      assert Values([item]) == [item.Value()];
      assert AlertItems(alerts[..i + 1], timeFormat, strftime)
          == AlertItems(alerts[..i], timeFormat, strftime) + [AlertItem(alerts[i], timeFormat, strftime)];
      items := items + [item];
      i := i + 1;
    }
    assert alerts[..i] == alerts;
  }

  /** One pass of the forecast loop of `tell_weather`: the day's linked item,
      or the error of building its URL. */
  method BuildDayItem(day: DayInfo, getUrl: (string, string) -> Result<string, PyError>, coords: string,
                      usUnits: bool, iconSet: string, existing: set<string>)
    returns (r: Result<Item, PyError>)
    ensures var expected := DayEntry(getUrl, coords, usUnits, iconSet, existing)(day);
      && (r.Success? <==> expected.Success?)
      && (r.Failure? ==> r.error == expected.error)
      && (r.Success? ==> r.value.Value() == expected.value)
  {
    var url := getUrl(coords, day.date);
    if url.Failure? {
      return Failure(url.error);
    }
    var icon := GetIcon(iconSet, day.icon, existing);
    var tu := UnitLetter(usUnits);
    var subtitle := "High: " + day.tempHi + "°" + tu + ",  Low: " + day.tempLo + "°" + tu;
    if day.precip.Some? {
      subtitle := subtitle + ",  Precip: " + day.precip.value + "%";
    }
    assert subtitle == DayItem(day, usUnits, url.value, icon).subtitle.value;
    var item := new Item(day.day + ": " + Capitalize(day.conditions), Some(subtitle), icon := Some(icon),
                         arg := Some(Clean(url.value)), valid := true);
    r := Success(item);
  }

  /** The forecast loop of `tell_weather`: one linked item per day, or the
      error of the first day whose URL cannot be built. */
  method BuildDayItems(days: seq<DayInfo>, getUrl: (string, string) -> Result<string, PyError>, coords: string,
                       usUnits: bool, iconSet: string, existing: set<string>)
    returns (r: Result<seq<Item>, PyError>)
    ensures var expected := MapResults(days, DayEntry(getUrl, coords, usUnits, iconSet, existing));
      && (r.Success? <==> expected.Success?)
      && (r.Failure? ==> r.error == expected.error)
      && (r.Success? ==> Values(r.value) == expected.value)
  {
    ghost var entry := DayEntry(getUrl, coords, usUnits, iconSet, existing);
    var items: seq<Item> := [];
    var k := 0;
    while k < |days|
      invariant 0 <= k <= |days|
      invariant MapResults(days[..k], entry) == Success(Values(items))
    {
      var item := BuildDayItem(days[k], getUrl, coords, usUnits, iconSet, existing);
      if item.Failure? {
        assert MapResults(days, entry) == Failure(item.error) by {
          assert days[..k + 1][..k] == days[..k];
          MapResultsPrefixFailure(days, k + 1, entry);
        }
        return Failure(item.error);
      }
      assert MapResults(days[..k + 1], entry) == Success(Values(items + [item.value])) by {
        MapResultsSnoc(days, k, entry);
        ValuesAppend(items, [item.value]);
        assert Values([item.value]) == [item.value.Value()];
      }
      items := items + [item.value];
      k := k + 1;
    }
    assert days[..k] == days;
    r := Success(items);
  }

  /** The item assembly of `tell_weather` for settings already read: the
      alert items, the current conditions, the forecast days and the trailer. */
  method BuildViewItems(view: View, w: Weather, env: Env) returns (r: Result<seq<Item>, PyError>)
    ensures r.Success? <==> ViewItems(view, w, env).Success?
    ensures r.Failure? ==> r.error == ViewItems(view, w, env).error
    ensures r.Success? ==> Values(r.value) == ViewItems(view, w, env).value
  {
    var alerts := BuildAlertItems(w.alerts, view.timeFormat, env.strftime);

    var icon := GetIcon(view.iconSet, w.current.icon, env.existing);
    var current := new Item("Currently in " + Show(view.shortName) + ": " + Capitalize(w.current.weather),
                            Some(IntToString(w.current.temp) + "°" + UnitLetter(view.usUnits) + ",  "
                                 + IntToString(w.current.humidity) + "% humidity"),
                            icon := Some(icon));
    assert current.Value() == CurrentItem(view.shortName, w.current, view.usUnits, icon);

    var days := Truncated(w.forecast, view.limit);
    var dayItems := BuildDayItems(days, ForecastUrlFn(view.service, env), view.coords, view.usUnits,
                                  view.iconSet, env.existing);
    if dayItems.Failure? {
      return Failure(dayItems.error);
    }

    var time := env.strftime(w.fetchedAt, view.timeFormat);
    var trailer := new Item(LINE, Some("Fetched from " + view.service.Name() + " at " + time), icon := Some(""),
                            arg := Some(view.service.Url()), valid := true);
    assert trailer.Value() == TrailerItem(view.service, time);
    var items := alerts + [current] + dayItems.value + [trailer];
    assert Values(items) == Values(alerts) + [current.Value()] + Values(dayItems.value) + [trailer.Value()] by {
      ValuesAppend(alerts, [current]);
      ValuesAppend(alerts + [current], dayItems.value);
      ValuesAppend(alerts + [current] + dayItems.value, [trailer]);
      assert Values([current]) == [current.Value()];
      assert Values([trailer]) == [trailer.Value()];
    }
    assert ViewDayItems(view, w, env) == Success(Values(dayItems.value));
    r := Success(items);
  }

  /** `tell_weather` once the settings are loaded and the weather fetched:
      the settings are read in the order the source reads them (short name,
      latitude, longitude, service entry), then the items are built. Building
      the alert and current items before those reads, as the source does,
      changes nothing visible, since they cannot raise. */
  method BuildWeatherItems(settings: Settings, w: Weather, env: Env) returns (r: Result<seq<Item>, PyError>)
    requires Loaded(settings)
    ensures r.Success? <==> WeatherItems(settings, w, env).Success?
    ensures r.Failure? ==> r.error == WeatherItems(settings, w, env).error
    ensures r.Success? ==> Values(r.value) == WeatherItems(settings, w, env).value
  {
    var location := settings["location"];
    var shortName := Field(location, "short_name");
    if shortName.Failure? {
      return Failure(shortName.error);
    }
    var lat := Field(location, "latitude");
    if lat.Failure? {
      return Failure(lat.error);
    }
    var lon := Field(location, "longitude");
    if lon.Failure? {
      return Failure(lon.error);
    }
    var service := ServiceOf(settings["service"]);
    if service.Failure? {
      return Failure(service.error);
    }
    var view := View(settings["units"] == Str("us"), Show(settings["icons"]), settings["time_format"],
                     shortName.value, Show(lat.value) + "," + Show(lon.value), service.value,
                     DaysLimit(settings["days"]));
    assert ViewOf(settings) == Success(view);
    r := BuildViewItems(view, w, env);
  }

  /** `tell_weather(query)`: loads the settings, fetches the weather and
      builds the item objects in order, or answers the error raised. */
  method TellWeather(stored: Option<Settings>, query: string, lookup: Lookup,
                     fetch: Settings -> Result<Fetched, PyError>, env: Env)
    returns (r: Result<seq<Item>, PyError>)
    ensures r.Success? <==> TellWeatherItems(stored, query, lookup, fetch, env).Success?
    ensures r.Failure? ==> r.error == TellWeatherItems(stored, query, lookup, fetch, env).error
    ensures r.Success? ==> Values(r.value) == TellWeatherItems(stored, query, lookup, fetch, env).value
  {
    var loaded := LoadSettings(stored, true, lookup);
    if loaded.Failure? {
      return Failure(loaded.error);
    }
    var settings := loaded.value;
    if |Strip(query)| > 0 {
      var found := lookup(Str(query));
      if found.Failure? {
        return Failure(found.error);
      }
      settings := settings["location" := LocationOf(found.value)];
    }
    assert WeatherSettings(stored, query, lookup) == Success(settings);
    var fetched := fetch(settings);
    if fetched.Failure? {
      return Failure(fetched.error);
    }
    var weather := FetchedWeather(fetched.value, env.today, settings["units"] == Str("us"));
    if weather.Failure? {
      return Failure(weather.error);
    }
    r := BuildWeatherItems(settings, weather.value, env);
  }
}
