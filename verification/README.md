# jc-weather in Dafny

This project models the core of jc-weather, an Alfred 2 workflow written in
Python 2. The workflow shows weather conditions and forecasts from Weather
Underground or Forecast.io as Alfred feedback items. The model covers:

- the settings store: defaults, the one-time migration of version-1
  settings, and loading with validation;
- the response cache and its 300-second freshness test;
- icon lookup with its fallbacks;
- the per-day forecast records, their "Today"/"Tomorrow"/weekday labels,
  and their sorting by date;
- the `days`, `units` and `location` commands;
- the item list of the main weather command;
- the `tell`/`do` dispatch;
- Alfred's XML feedback format;
- the Weather Underground and Forecast.io forecast links;
- the sunrise/sunset command of `sun_phase.py`.

Each module follows one part of the program:

| module | file | models |
|---|---|---|
| `Wrappers`, `Errors` | wrappers.dfy | `Option`/`Result`; a Python exception as a value (`SetupError` or any other raised message) |
| `Text`, `Json`, `Calendar` | text.dfy, json.dfy, calendar.dfy | the `str`, JSON and `date` behaviour the program relies on: `strip`, `lower`, `capitalize`, `int()` and its error message, `repr`, `'{}'.format`, `strftime('%Y-%m-%d')`, `'%j'`, `'%A'`, `strptime` |
| `Alfred` | alfred.dfy | `alfred.py`: `Item` and the XML feedback |
| `Wunderground` | wunderground.dfy | `set_key`, `get_forecast_url` |
| `ForecastIo` | forecastio.dfy | `get_forecast_url` of `forecastio.py` |
| `Settings` | settings.dfy | `_migrate_settings`, `_load_settings`, `_save_settings` |
| `Cache` | cache.dfy | `_load_cached_data`, `_save_cached_data` |
| `Presentation` | presentation.dfy | `_clean`, `FIO_TO_WUND`, `_get_icon`, both `get_day_info`, the sorting of the forecast |
| `Commands` | commands.dfy | `tell_days`, `do_days`, `tell_units`, `do_location`, `tell`, `do` |
| `WeatherView` | weather_view.dfy | `tell_weather` |
| `SunPhase` | sun_phase.dfy | `sun_phase.py` |

Code that changes state step by step is modelled as imperative Dafny:
- item objects whose fields are set after construction;
- the settings dictionary changed in place;
- the settings and cache files;
- the loops of `to_xml`, `tell_weather` and `tell_sun`.

Each method is proved equal to a function over values, such as
`ItemValue` snapshots or settings maps, and the lemmas are about those
functions.

Everything outside the program is a parameter:
- the file system (which icon files exist, what the settings and cache files hold);
- the clock;
- `uuid4`;
- the geocoding service;
- the weather services;
- `strftime` with a user's time format.

## Model

| member | source | states |
|---|---|---|
| Wrappers.MapResultsMeaning | alfred_weather.py:290 | a list comprehension over a raising function succeeds iff every element succeeds, and then holds each element's result in order |
| Wrappers.MapResultsFirstError | alfred_weather.py:290 | when the comprehension fails, the error is the one raised by the first failing element |
| Text.BlankIffAllSpace | alfred_weather.py:419 | `len(s.strip()) == 0` holds exactly when every character of `s` is white space |
| Text.IntToStringRoundTrip | alfred_weather.py:427 | `int()` reads back the decimal text of every integer |
| Text.ParseInt | alfred_weather.py:427 | `int(s)` fails on any text holding a NUL, and otherwise reads white space, an optional sign, white space, digits and white space |
| Text.SpaceAfterSign | alfred_weather.py:427 | white space may follow the sign: `int('- n')` is -n and `int('+ n')` is n |
| Text.IntError | alfred_weather.py:427 | the `ValueError` text: the NUL message when the text before the NUL is a number, otherwise `invalid literal for int() with base 10:` and the repr of the text after its leading white space, cut to 200 characters |
| Text.IntErrorShort | alfred_weather.py:427 | for a short text without NUL that is not a number, the message shows the repr of the text after its leading white space |
| Text.IntErrorAfterSpace | alfred_weather.py:427 | `int(' x')` reports `'x'` |
| Text.IntErrorQuote | alfred_weather.py:427 | `int("it's")` reports the text in double quotes |
| Text.Repr | alfred_weather.py:427 | `repr` encloses the escaped text in the quote it picks, so the result is at least two characters longer |
| Text.ReprPlain | alfred_weather.py:427 | printable ASCII without a backslash and without both quotes is shown unchanged between the chosen quotes |
| Text.LeadingDigits | alfred_weather.py:528 | the run of digits that `\d+` matches at the start |
| Text.NatToStringValue | alfred_weather.py:421 | the decimal text of a natural number is a non-empty string of digits denoting it |
| Text.ZeroPadValue | wunderground.py:29 | a zero-padded number such as `%j`'s three digits denotes the number whenever it fits the width |
| Text.BeforeFirst | alfred_weather.py:92 | the text before the first comma is a prefix without a comma, and is the whole string when there is no comma |
| Calendar.DaysBeforeNextYear | alfred_weather.py:265 | a year adds 366 days to the ordinal count iff it is a leap year (Gregorian rules) |
| Calendar.NextDayOrdinal | alfred_weather.py:274-279 | the day after a valid date is valid and one ordinal later |
| Calendar.NextDayWeekday | alfred_weather.py:279 | the day after a date falls on the next weekday, Sunday wrapping to Monday |
| Calendar.IsoTextRoundTrip | wunderground.py:26-27 | `strptime(d.strftime('%Y-%m-%d'), '%Y-%m-%d')` gives back `d` for years from 1000 |
| Calendar.MismatchQuote | wunderground.py:25-26 | text that `strptime('%Y-%m-%d')` cannot read raises "time data %r does not match format %r": `"it's"` is shown in double quotes |
| Alfred.NewItem | alfred.py:32-39 | a new item keeps every argument, except that a missing icon becomes 'icon.png' |
| Alfred.Item.constructor | alfred.py:32-39 | the constructed object holds exactly `NewItem` of its arguments |
| Alfred.Attributes | alfred.py:42-54 | the tag's attributes, in order: a uid (`bundleid-uid`, or a fresh uuid when the uid is empty or missing), `valid="yes"` iff valid, `arg` only when there is one |
| Alfred.ItemParts | alfred.py:56-66 | the element list: the opening tag, the title, the subtitle and icon only when present, the closing tag |
| Alfred.Item.ToXml | alfred.py:41-67 | the method builds exactly the text of `ItemParts` for the item's current fields |
| Alfred.TitleVerbatim | alfred.py:58 | the title is inserted verbatim after the opening tag, and the text ends with `</item>` |
| Alfred.ToXml | alfred.py:70-79 | the message is the header, `<items>`, each item's text in order with the i-th uuid, and `</items>` |
| Alfred.FeedbackAppend | alfred.py:74-77 | appending an item adds its text just before `</items>` |
| Alfred.EmptyFeedback | alfred.py:70-79 | an empty list gives the bare wrapper |
| Wunderground.Client.SetKey | wunderground.py:18-20 | after `set_key(k)`, `api` is the API template filled with `k`, and the key can be read back from it |
| Wunderground.KeyOf | wunderground.py:8 | a key can be read from an API URL iff the URL starts with the template's prefix, and prefix + key is the URL |
| Wunderground.GetForecastUrl | wunderground.py:23-30 | every successful URL starts with `FORECAST_URL?query=location`, so the location is never altered; with no date (or an empty one) that is the whole URL |
| Wunderground.DatedUrl | wunderground.py:28-29 | with a date, the query is followed by `&hourly=1&yday=` and the three-digit day of the year (1 to 366), then `&weekday=` and the weekday name |
| Wunderground.TextDateAgrees | wunderground.py:26-27 | a 'YYYY-MM-DD' string gives the same URL as the date object it denotes |
| Wunderground.March15th2024 | wunderground.py:23-30 | 2024-03-15 gives `&hourly=1&yday=075&weekday=Friday` |
| ForecastIo.GetForecastUrl | forecastio.py:27-34 | an empty date gives the location's page; a date text must read as 'YYYY-MM-DD', and its page is followed by the day's timestamp |
| ForecastIo.DatedUrl | forecastio.py:27-34 | a day's 'YYYY-MM-DD' text links to the page of that day's `mktime` timestamp |
| Settings.MigrationRules | alfred_weather.py:78-97 | the migration raises exactly when there is a 'name' and geocoding it raises, with that error; otherwise 'US' becomes 'us' and every other unit 'si', 'key' moves to 'key.wund', the service becomes 'wund', and 'name' is replaced by its geocoded location or the location is emptied |
| Settings.MigrationKeepsTheRest | alfred_weather.py:78-97 | a successful migration keeps every other setting and adds no key other than 'key.wund', 'service' and 'location' |
| Settings.MigrationNotIdempotent | alfred_weather.py:79-83 | migrating twice is not migrating once: 'US' becomes 'us', then 'si' |
| Settings.SettingsDict.Migrate | alfred_weather.py:78-97 | the in-place migration leaves the dictionary equal to `Migrated` of its old contents; when geocoding raises, it returns the error and the rewrites made before it (`Rewritten`) stay |
| Settings.SettingsDict.Update | alfred_weather.py:115 | `settings.update(s)`: the stored entries override the defaults |
| Settings.Merged | alfred_weather.py:100-115 | the settings before validation fail exactly when an unversioned file's migration raises; otherwise they hold every default key |
| Settings.LoadedSettings | alfred_weather.py:100-126 | loading starts from the defaults; a file without 'version' is migrated first, and a migration error is the load's error; when validating, a missing service and then a missing location raise their SetupErrors |
| Settings.LoadSettings | alfred_weather.py:100-126 | the imperative load (defaults, migrate, update, validate) returns exactly `LoadedSettings` |
| Settings.LoadIsStable | alfred_weather.py:100-126 | saving what was loaded and loading again gives the same settings whatever the geocoder answers then, because the version stops a second migration |
| Settings.SettingsFile.Save | alfred_weather.py:129-135 | after saving, the file holds exactly the saved settings |
| Cache.TimedeltaSeconds | alfred_weather.py:176 | `(now - then).seconds` lies in [0, 86400) and differs from the true difference by whole days |
| Cache.WithService | alfred_weather.py:171-172 | a missing service gets an empty table, and nothing else changes |
| Cache.CachedData | alfred_weather.py:168-178 | cached data is returned iff the entry exists and its `.seconds` age is under 300, and it is the stored data |
| Cache.StoredFrame | alfred_weather.py:181-190 | saving sets exactly one entry, stamped with `now`, and leaves every other service and location as it was |
| Cache.StoreThenLoad | alfred_weather.py:168-190 | data just saved is what a load at the same moment returns |
| Cache.FreshModuloDays | alfred_weather.py:176 | an entry whole days old plus under 300 seconds still counts as fresh, because `.seconds` drops the days |
| Cache.FreshWithinADay | alfred_weather.py:176 | within a day of the request, freshness means an age under 300 seconds |
| Cache.CacheFile.LoadCachedData | alfred_weather.py:168-178 | the load returns `CachedData` and the table with the service ensured |
| Cache.CacheFile.SaveCachedData | alfred_weather.py:181-190 | the saved table is `Stored` of the old one, and it is returned |
| Presentation.Clean | alfred_weather.py:74-75 | every '&' of the result begins an '&amp;'; `_clean` never shortens its input and leaves text without '&' unchanged |
| Presentation.CleanAmpersand | alfred_weather.py:74-75 | `_clean('a&b')` is 'a&amp;b' |
| Presentation.CleanRoundTrip | alfred_weather.py:74-75 | undoing the `&amp;` escape gives back the original text |
| Presentation.FioIcon | alfred_weather.py:53-59 | `FIO_TO_WUND.get(icon, icon)`: mapped icons are translated, others pass through |
| Presentation.IconCandidates | alfred_weather.py:193-205 | the paths tried: the named icon, the day icon for an 'nt_' name, then the set's default |
| Presentation.FirstExisting | alfred_weather.py:195-202 | the first existing candidate, with every earlier one missing |
| Presentation.GetIcon | alfred_weather.py:193-205 | the imperative lookup returns `ResolvedIcon`, which is an existing file or 'error.png' |
| Presentation.IconFallback | alfred_weather.py:193-205 | each fallback step is taken exactly when the paths before it are missing |
| Presentation.DayLabelCases | alfred_weather.py:274-279 | 'Today' iff the date is today; 'Tomorrow' iff the day-of-month numbers differ by one; otherwise the weekday name |
| Presentation.TomorrowWithinMonth | alfred_weather.py:276-277 | within a month, the next day is labelled 'Tomorrow' |
| Presentation.MonthEndIsNotTomorrow | alfred_weather.py:276-277 | across a month end the next day is not 'Tomorrow' (1 April after 31 March gets its weekday name) |
| Presentation.NextMonthIsTomorrow | alfred_weather.py:276-277 | a date a month and a day ahead is labelled 'Tomorrow' |
| Presentation.WundDayInfo | alfred_weather.py:263-288 | a Weather Underground day succeeds iff its date is valid and from 1900; then it has the ISO date, the label, the conditions, the icon, the 'pop' as its precipitation, and the °F or °C temperatures per the units |
| Presentation.FioDayInfo | alfred_weather.py:332-353 | a Forecast.io day succeeds iff its summary is non-empty and its year is from 1900; one final '.' is dropped, the icon is translated, the rounded temperatures are printed and the precipitation is kept when present |
| Presentation.LexTotal | alfred_weather.py:291 | Python's string order is total |
| Presentation.Insert | alfred_weather.py:291 | inserting into a sorted list keeps it sorted and adds exactly that element |
| Presentation.SortByDate | alfred_weather.py:291 | `sorted(forecast, key=date)` is sorted by date text and a permutation of the input |
| Presentation.WundForecast | alfred_weather.py:290-291 | the forecast succeeds iff every day's record does, fails with the first day's error, and is then the same records sorted by date |
| Presentation.FioForecast | alfred_weather.py:355-356 | the forecast succeeds iff every day's record does, fails with the first day's error, and is then the same records sorted by date |
| Presentation.WundForecastDays | alfred_weather.py:290-291 | every day's record is in the forecast, and every record in it is some day's |
| Commands.DaysText | alfred_weather.py:421-423 | the length text is 'n day' exactly when the value equals 1, and 'n days' otherwise |
| Commands.TellDays | alfred_weather.py:418-436 | blank input shows 'Currently showing n day(s) of forecast' with 'Enter a new value to change' for the loaded setting (3 days without a settings file), or the load's error; otherwise `int(days)` must parse and lie in 0..10, and a valid value gives one actionable item |
| Commands.TellDaysAccepts | alfred_weather.py:427-436 | every n in 0..10 gives 'Show n day(s) of forecast' with arg n |
| Commands.TellDaysRefuses | alfred_weather.py:429-430 | every other integer raises 'Value must be between 1 and 10' |
| Commands.DoDays | alfred_weather.py:439-450 | an unparsable or out-of-range value, or a failing load, raises and leaves the file unchanged; otherwise only 'days' changes in the saved settings, and the output is 'Now showing n day(s) of forecast' |
| Commands.TellUnits | alfred_weather.py:486-502 | blank input gives both choices; otherwise US iff the input is a prefix of 'us', SI iff it is a prefix of 'metric' but not of 'us'; any other input gives 'Invalid units' |
| Commands.SiIsNotAPrefix | alfred_weather.py:495-500 | 'si' is refused; 'Met' chooses SI; 'U' chooses US |
| Commands.Find | alfred_weather.py:529 | the first occurrence of the separator |
| Commands.NumberedSeparator | alfred_weather.py:528-529 | in a numbered name, the first ' - ' directly follows the leading digits |
| Commands.ShortNameParts | alfred_weather.py:527-531 | the short name is the text before the first comma, taken after the 'N - ' prefix when there is one; it never contains a comma |
| Commands.NamedLocation | alfred_weather.py:533-538 | the stored location has exactly the keys name, short_name, latitude and longitude, from the typed name and the geocoded place |
| Commands.DoLocation | alfred_weather.py:524-543 | a failing geocode or load raises its error and leaves the file unchanged; otherwise the saved settings differ only in the location, which holds the name, the short name and the geocoded coordinates, and the output is 'Using location name' |
| Commands.TellItems | alfred_weather.py:612-631 | an unknown command gives 'Invalid action'; a SetupError gives its title and subtitle with the error icon; any other error gives its message |
| Commands.Do | alfred_weather.py:634-646 | an unknown command gives 'Invalid command'; an error gives 'Error: message'; otherwise the command's output |
| Commands.TellDaysElevenIsOneError | alfred_weather.py:429-430 | `tell days 11` shows a single error item |
| WeatherView.ServiceOf | alfred_weather.py:553-556 | 'wund' and 'fio' select their services; any other text raises a KeyError showing the unicode repr `u'...'`; a list or dictionary raises 'unhashable type'; other values raise a KeyError showing them |
| WeatherView.FetchedWeather | alfred_weather.py:290-291 | the fetched weather keeps the alerts, the current conditions and the time, and its forecast is the service's sorted records, or their first error |
| WeatherView.Field | alfred_weather.py:575 | subscripting a dictionary gives the value or a KeyError; subscripting a non-dictionary raises |
| WeatherView.AlertItem | alfred_weather.py:562-570 | an alert's item has its description and the error icon; it is actionable with the cleaned URI iff the alert has one |
| WeatherView.AlertItems | alfred_weather.py:561-570 | one item per alert, in order |
| WeatherView.TrailerItem | alfred_weather.py:603-608 | the last item is the line, actionable, linking to the service's site |
| WeatherView.ForecastUrlFn | alfred_weather.py:597-598 | the forecast link comes from the selected service's library |
| WeatherView.SliceEnd | alfred_weather.py:589-590 | Python's `days[:n]` end: never past the list, and negative `n` counting from the end |
| WeatherView.Truncated | alfred_weather.py:588-590 | the shown days are a prefix of the forecast, at most `settings['days']` of them |
| WeatherView.ViewOf | alfred_weather.py:573-585 | reading the settings fails exactly as the code's subscripts do; otherwise it carries the units, the day limit and the time format |
| WeatherView.ViewItems | alfred_weather.py:558-609 | the item list succeeds iff the day items do: alerts, current conditions and trailer cannot fail |
| WeatherView.WeatherSettings | alfred_weather.py:548-551 | the settings load with validation; a non-blank query replaces the location with the geocoded place, and a failing geocode is the error |
| WeatherView.WeatherCount | alfred_weather.py:558-609 | the list holds the alerts, one current item, min(days, limit) day items and the trailer |
| WeatherView.WeatherHead | alfred_weather.py:558-609 | alerts come first (actionable iff they have a URI); then the 'Currently in' item, which is not actionable; the line comes last; the list holds the alerts, the current item, the shown days and the trailer |
| WeatherView.WeatherDays | alfred_weather.py:588-601 | between the current item and the trailer lie exactly the shown days' items, one actionable item per day in the forecast's order, titled with its label and conditions |
| WeatherView.ShownDayItems | alfred_weather.py:591-601 | each shown day becomes one actionable item titled with its label and conditions, in order |
| WeatherView.ShownDaysByDate | alfred_weather.py:588-590 | the first days of a date-sorted forecast are date-sorted |
| WeatherView.TellWeatherDays | alfred_weather.py:546-601 | the days `tell_weather` shows are in date order and follow the alerts and the current conditions, one actionable item each titled with its label and conditions |
| WeatherView.BuildAlertItem | alfred_weather.py:563-570 | the constructed and updated alert item equals `AlertItem` |
| WeatherView.BuildAlertItems | alfred_weather.py:561-570 | the alert loop builds exactly `AlertItems` |
| WeatherView.BuildDayItem | alfred_weather.py:592-601 | a day's item equals the specified entry, or fails with the link's error |
| WeatherView.BuildDayItems | alfred_weather.py:591-601 | the forecast loop builds the day items in order, or stops at the first failing link with its error |
| WeatherView.BuildViewItems | alfred_weather.py:558-609 | the method's items equal `ViewItems`, on success and on error |
| WeatherView.BuildWeatherItems | alfred_weather.py:558-609 | the method's items equal `WeatherItems` of the settings, on success and on error |
| WeatherView.TellWeather | alfred_weather.py:546-609 | `tell_weather` returns exactly `TellWeatherItems`: the settings or geocoding error, the fetch error, the first failing day record, or the item list |
| SunPhase.HourMinute | sun_phase.py:10 | '%H:%M' is five characters: two digits, ':', two digits |
| SunPhase.HourMinuteValues | sun_phase.py:10 | for a valid time, the digits denote its hour and minute |
| SunPhase.SunPhaseDescription | sun_phase.py:13-19 | the accumulated text is 'Sunrise: HH:MM, Sunset: HH:MM' with both times, 'Sunrise: HH:MM' with only a sunrise, ', Sunset: HH:MM' with only a sunset, and '' with neither |
| SunPhase.DescriptionShape | sun_phase.py:13-19 | the description is empty iff both times are missing; it opens with the sunrise part when there is one; it ends with the sunset part when there is one |
| SunPhase.SunItem | sun_phase.py:21-24 | the item's title is `day_desc + ': ' + content`, with the given icon, not actionable, and without subtitle or arg |
| SunPhase.CreateItem | sun_phase.py:21-24 | the constructed item equals `SunItem` |
| SunPhase.SunDaysAppend | sun_phase.py:36-44 | selecting the days distributes over concatenation, so input order is kept |
| SunPhase.SunDaysMembers | sun_phase.py:41-42 | a day is kept iff it has a sunrise or a sunset |
| SunPhase.SunDaysSkip | sun_phase.py:41-42 | a day without sun data changes nothing |
| SunPhase.SunItemsSnoc | sun_phase.py:36-44 | one more day adds its item iff it has sun data |
| SunPhase.AddDay | sun_phase.py:37-44 | one loop pass appends the day's item, or nothing when its description is empty |
| SunPhase.TellSun | sun_phase.py:27-46 | the result is the alert items, then one item per day with sun data in day order, then the copyright item |
| SunPhase.TellSunLayout | sun_phase.py:32-46 | the alerts come first and the copyright item last; each middle item is a non-actionable item of a day with sun data |

## Left out

- I/O is outside the model; the contents it reads are parameters:
  - reading and writing the settings and cache files (`os.path.exists`, `json.load`, `json.dump`, `os.mkdir`);
  - `_out`;
  - the `traceback` printing when `show_exceptions` is set.
- The HTTP clients are not part of this model: `wunderground.forecast` and `autocomplete`, `forecastio.forecast`, `weather.py`, `glocation.py`, and the `geocode` module. `geocode.lookup` is a function parameter that returns a place or an error; a place is taken to hold a name, a latitude and a longitude. `tell_weather`'s fetch is a parameter returning the parsed answer (`Fetched`) or an error. The choice of fetch by `settings['service']` (Weather Underground for 'wund', Forecast.io for any other value) happens inside that parameter: nothing ties Weather Underground day records (`WundDays`) to the service 'wund'.
- The parsing of the raw service responses inside `_get_wund_weather` and `_get_fio_weather` is outside the model: alerts, current conditions, the `icon_url` split, and the `units` flag check. The model starts from the parsed alerts and current conditions and from each day's raw record; `get_day_info` and the sort are modelled.
- Clocks are parameters: `date.today()`, `datetime.now()` and `fromtimestamp` (which needs the local time zone). The cache works in whole seconds.
- Floating point is not modelled. `int(round(...))` of temperatures and humidity is taken as done by the fetch, and JSON floats are carried as their text.
- `strftime` with a user's `time_format` is a parameter. Only `%Y-%m-%d`, `%j`, `%A` and `%H:%M` are modelled.
- Case mapping (`lower`, `capitalize`) covers ASCII letters only.
- `Json.Show` writes lists and dictionaries as placeholders, not as Python's repr.
- `uuid.uuid4()` is a parameter: the uuid of the i-th item.
- These commands are not part of this model:
  - `tell_key`, `tell_service`, `tell_icons`, `tell_time_format`, `tell_location`;
  - `do_service`, `do_time_format`, `do_icons`, `do_units`.
  They only list or store a value, and `do_service` prompts the user through osascript. `import_icons.py` is not part of this model either.
- `time.mktime` in Forecast.io's `get_forecast_url` reads the host's time zone, so it is the parameter `Env.mktime`.
- The WeatherWorkflow helpers that `tell_sun` calls are not part of this model: `_get_weather`, `_show_alert_information`, `_get_days`, `_get_day_desc`, `_get_copyright_info` and `_get_icon`. `TellSun` takes their results as arguments: the alert items, the days, the copyright item, the day-description function and the icon path. The model assumes every day has a 'date'. A present sunrise or sunset is a datetime, which is always true.
- `sun_phase.py` builds `jcalfred.Item`, and `jcalfred` is not part of this model. `SunItem` and `CreateItem` take it to be `alfred.Item`, with the same constructor and defaults.
- `repr` is modelled for text as Python 2 writes it for both byte and unicode strings. A character above 0xFF, which a byte string cannot hold, is escaped as in a unicode string.
- A float stored as the service appears in the KeyError as its `str()` text, which can be shorter than its repr.
- A missing cache file reads as `{'conditions': {}, 'forecasts': {}}`. Its two keys are never service names, so the model starts from an empty table. A save then writes a file without those two empty keys.
- `tell_weather` loops over `settings['days']` as a slice bound. A float there is not modelled: any non-integer value leaves the list uncut, which is Python 2's ordering for strings, lists and dictionaries.
- `WeatherView.BuildWeatherItems` reads all the settings it needs before it builds the first item; the program interleaves the reads with the item building. The result and the errors are the same, because building an item cannot fail.
- The range check of `tell_days` and `do_days` accepts 0, although its message says 'between 1 and 10'. The model follows the code.
- The migration is documented as idempotent, but the code maps 'us' to 'si' on a second run. The model follows the code (`MigrationNotIdempotent`). What makes loading stable is the version key (`LoadIsStable`).
- The body of the `tell_sun` loop is a separate method, `AddDay`. Its early return stands for the `continue`.
