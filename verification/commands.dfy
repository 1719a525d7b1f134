/** The `tell_*` / `do_*` handlers of alfred_weather.py for days, units and
    location, and the `tell` / `do` dispatchers that turn errors into output. */
module Commands {
  import opened Wrappers
  import opened Errors
  import opened Json
  import opened Text
  import opened Alfred
  import opened Settings

  // ---- days ----

  const DAYS_RANGE_MESSAGE := "Value must be between 1 and 10"

  /** `value == 1` in Python, for a JSON value (True and 1.0 equal 1). */
  predicate EqualsOne(v: Value)
  {
    v == Int(1) || v == Bool(true) || v == Num("1.0")
  }

  /** `'{} day'.format(n)` followed by 's' unless n == 1. */
  function DaysText(n: Value): (r: string)
    ensures r == Show(n) + " day" || r == Show(n) + " days"
    ensures r == Show(n) + " day" <==> EqualsOne(n)
  {
    Show(n) + " day" + (if EqualsOne(n) then "" else "s")
  }

  /** The day counts `tell_days` and `do_days` accept: 0 to 10, although the
      message says 1 to 10. */
  predicate DaysInRange(n: int)
  {
    !(n < 0 || n > 10)
  }

  /** `tell_days(arg)` */
  function TellDays(stored: Option<Settings>, arg: string, lookup: Lookup): (r: Result<seq<ItemValue>, PyError>)
    ensures IsBlank(arg) ==> (r.Success? <==> Merged(stored, lookup).Success?)
    ensures IsBlank(arg) && r.Failure? ==> r.error == Merged(stored, lookup).error
    ensures IsBlank(arg) && r.Success? ==>
              r.value == [NewItem("Currently showing " + DaysText(Merged(stored, lookup).value["days"]) + " of forecast",
                                  Some("Enter a new value to change"))]
    ensures IsBlank(arg) && stored.None? ==>
              r == Success([NewItem("Currently showing 3 days of forecast", Some("Enter a new value to change"))])
    ensures !IsBlank(arg) ==> (r.Success? <==> ParseInt(arg).Some? && DaysInRange(ParseInt(arg).value))
    ensures !IsBlank(arg) && r.Success? ==>
              r.value == [NewItem("Show " + DaysText(Int(ParseInt(arg).value)) + " of forecast",
                                  arg := Some(IntToString(ParseInt(arg).value)), valid := true)]
    ensures !IsBlank(arg) && r.Failure? ==>
              r.error == Raised(if ParseInt(arg).None? then IntError(arg) else DAYS_RANGE_MESSAGE)
  {
    if IsBlank(arg) then
      match Merged(stored, lookup)
      case Failure(e) => Failure(e)
      case Success(settings) =>
        assert stored.None? ==> DaysText(settings["days"]) == "3 days" by {
          if stored.None? {
            assert settings["days"] == Int(3);
            assert IntToString(3) == "3";
            assert "Currently showing " + "3 days" + " of forecast" == "Currently showing 3 days of forecast";
          }
        }
        Success([NewItem("Currently showing " + DaysText(settings["days"]) + " of forecast",
                         Some("Enter a new value to change"))])
    else
      match ParseInt(arg)
      case None => Failure(Raised(IntError(arg)))
      case Some(days) =>
        if days < 0 || days > 10 then Failure(Raised(DAYS_RANGE_MESSAGE))
        else Success([NewItem("Show " + DaysText(Int(days)) + " of forecast",
                              arg := Some(IntToString(days)), valid := true)])
  }

  /** Every count from 0 to 10 typed as a number is accepted, with "day" for 1
      and "days" otherwise. */
  lemma TellDaysAccepts(stored: Option<Settings>, n: int, lookup: Lookup)
    requires 0 <= n <= 10
    ensures TellDays(stored, IntToString(n), lookup)
         == Success([NewItem("Show " + IntToString(n) + (if n == 1 then " day" else " days") + " of forecast",
                             arg := Some(IntToString(n)), valid := true)])
  {
    IntToStringRoundTrip(n);
    NatToStringValue(n);
    var s := IntToString(n);
    assert !IsSpace(s[0]);
    BlankIffAllSpace(s);
    assert !IsBlank(s);
    assert ParseInt(s) == Some(n);
    assert DaysText(Int(n)) == IntToString(n) + (if n == 1 then " day" else " days");
    assert DaysInRange(n);
    assert TellDays(stored, s, lookup).Success?;
    var unit := if n == 1 then " day" else " days";
    assert "Show " + DaysText(Int(n)) + " of forecast" == "Show " + s + unit + " of forecast";
  }

  /** Counts outside 0..10 are refused. */
  lemma TellDaysRefuses(stored: Option<Settings>, n: int, lookup: Lookup)
    requires n < 0 || n > 10
    ensures TellDays(stored, IntToString(n), lookup) == Failure(Raised(DAYS_RANGE_MESSAGE))
  {
    IntToStringRoundTrip(n);
    var s := IntToString(n);
    if n < 0 {
      assert s[0] == '-';
    } else {
      NatToStringValue(n);
    }
    assert !IsSpace(s[0]);
    BlankIffAllSpace(s);
  }

  /** `do_days(arg)`: stores the count in the settings file and returns the
      confirmation text; a refused count leaves the file alone. */
  method DoDays(file: SettingsFile, arg: string, lookup: Lookup) returns (r: Result<string, PyError>)
    modifies file
    ensures ParseInt(arg).None? ==> r == Failure(Raised(IntError(arg))) && file.stored == old(file.stored)
    ensures ParseInt(arg).Some? && !DaysInRange(ParseInt(arg).value) ==>
              r == Failure(Raised(DAYS_RANGE_MESSAGE)) && file.stored == old(file.stored)
    ensures ParseInt(arg).Some? && DaysInRange(ParseInt(arg).value) && Merged(old(file.stored), lookup).Failure? ==>
              r == Failure(Merged(old(file.stored), lookup).error) && file.stored == old(file.stored)
    ensures ParseInt(arg).Some? && DaysInRange(ParseInt(arg).value) && Merged(old(file.stored), lookup).Success? ==>
              && r == Success("Now showing " + DaysText(Int(ParseInt(arg).value)) + " of forecast")
              && file.stored == Some(Merged(old(file.stored), lookup).value["days" := Int(ParseInt(arg).value)])
  {
    var parsed := ParseInt(arg);
    if parsed.None? {
      return Failure(Raised(IntError(arg)));
    }
    var days := parsed.value;
    if days < 0 || days > 10 {
      return Failure(Raised(DAYS_RANGE_MESSAGE));
    }
    var loaded := LoadSettings(file.stored, false, lookup);
    if loaded.Failure? {
      return Failure(loaded.error);
    }
    var settings := loaded.value;
    settings := settings["days" := Int(days)];
    file.Save(settings);
    var length := IntToString(days) + " day";
    if days != 1 {
      length := length + "s";
    }
    r := Success("Now showing " + length + " of forecast");
  }

  // ---- units ----

  const US_ITEM := NewItem("US", Some("US units (°F, in, mph)"), arg := Some("us"), valid := true)
  const SI_ITEM := NewItem("SI", Some("SI units (°C, cm, kph)"), arg := Some("si"), valid := true)
  const INVALID_UNITS := NewItem("Invalid units")

  /** `tell_units(arg)`: both choices for a blank query, otherwise the choice
      whose name ('us' or 'metric') starts with the lower-cased query. */
  function TellUnits(arg: string): (r: seq<ItemValue>)
    ensures |r| == 2 <==> IsBlank(arg)
    ensures |r| == 2 ==> r == [US_ITEM, SI_ITEM]
    ensures |r| != 2 ==> |r| == 1
    ensures !IsBlank(arg) ==> (r == [US_ITEM] <==> StartsWith("us", Lower(arg)))
    ensures !IsBlank(arg) ==> (r == [SI_ITEM] <==> !StartsWith("us", Lower(arg)) && StartsWith("metric", Lower(arg)))
    ensures !IsBlank(arg) && !StartsWith("us", Lower(arg)) && !StartsWith("metric", Lower(arg)) ==> r == [INVALID_UNITS]
  {
    if IsBlank(arg) then [US_ITEM, SI_ITEM]
    else if StartsWith("us", Lower(arg)) then [US_ITEM]
    else if StartsWith("metric", Lower(arg)) then [SI_ITEM]
    else [INVALID_UNITS]
  }

  /** Typing the stored unit name "si" is not understood: only prefixes of
      "metric" select SI units. */
  lemma SiIsNotAPrefix()
    ensures TellUnits("si") == [INVALID_UNITS]
    ensures TellUnits("Met") == [SI_ITEM]
    ensures TellUnits("U") == [US_ITEM]
  {
    assert Strip("si") == "si";
    assert Strip("Met") == "Met";
    assert Strip("U") == "U";
    assert Lower("si") == "si";
    assert Lower("Met") == "met";
    assert Lower("U") == "u";
  }

  // ---- location ----

  /** `re.match('\d+ - .*', s)`: one or more digits, then " - ". */
  predicate IsNumbered(s: string)
  {
    var k := LeadingDigits(s);
    k > 0 && StartsWith(s[k..], " - ")
  }

  /** `sep` occurs in `s` at index `j`. */
  predicate OccursAt(s: string, sep: string, j: nat)
  {
    j + |sep| <= |s| && s[j..j + |sep|] == sep
  }

  /** The index of the first occurrence of `sep` in `s` at or after `from`. */
  function Find(s: string, sep: string, from: nat := 0): (i: Option<nat>)
    requires from <= |s|
    ensures i.Some? ==> from <= i.value && OccursAt(s, sep, i.value)
    ensures i.Some? ==> forall j :: from <= j < i.value ==> !OccursAt(s, sep, j)
    ensures i.None? ==> forall j :: from <= j ==> !OccursAt(s, sep, j)
    decreases |s| - from
  {
    if from + |sep| > |s| then None
    else if OccursAt(s, sep, from) then Some(from)
    else Find(s, sep, from + 1)
  }

  /** `s.partition(sep)[2]`: what follows the first `sep`, or "" without one. */
  function After(s: string, sep: string): string
  {
    match Find(s, sep)
    case Some(i) => s[i + |sep|..]
    case None => ""
  }

  /** The short name `do_location` stores: a leading "123 - " is dropped, and
      the rest is cut at its first comma. */
  function LocationShortName(name: string): string
  {
    var shortName := if IsNumbered(name) then After(name, " - ") else name;
    if ',' in shortName then BeforeFirst(shortName, ',') else shortName
  }

  /** In a numbered name the first " - " is the one after the number. */
  lemma NumberedSeparator(name: string)
    requires IsNumbered(name)
    ensures Find(name, " - ") == Some(LeadingDigits(name))
  {
    var k := LeadingDigits(name);
    assert OccursAt(name, " - ", k);
    var f := Find(name, " - ");
    if f.None? {
      assert false;
    } else if f.value < k {
      assert false;
    } else if f.value > k {
      assert false;
    }
  }

  /** The short name is the text after the leading number and " - " (or the
      whole name), up to its first comma. */
  lemma ShortNameParts(name: string)
    ensures IsNumbered(name) ==> LocationShortName(name) == BeforeFirst(name[LeadingDigits(name) + 3..], ',')
    ensures !IsNumbered(name) ==> LocationShortName(name) == BeforeFirst(name, ',')
    ensures ',' !in LocationShortName(name)
  {
    if IsNumbered(name) {
      NumberedSeparator(name);
      assert After(name, " - ") == name[LeadingDigits(name) + 3..];
    }
  }

  /** The `location` object `do_location` stores for `name` geocoded as `g`. */
  function NamedLocation(name: string, g: Geo): (v: Value)
    ensures v.Obj? && v.fields.Keys == {"name", "short_name", "latitude", "longitude"}
    ensures v.fields["name"] == Str(name) && v.fields["short_name"] == Str(LocationShortName(name))
    ensures v.fields["latitude"] == g.latitude && v.fields["longitude"] == g.longitude
  {
    Obj(map["name" := Str(name), "short_name" := Str(LocationShortName(name)),
            "latitude" := g.latitude, "longitude" := g.longitude])
  }

  /** `do_location(name)`: geocodes the name and stores it as the default
      location with its short name; the name, not the geocoded one, is kept.
      A failed geocoding or load leaves the file alone. */
  method DoLocation(file: SettingsFile, name: string, lookup: Lookup) returns (r: Result<string, PyError>)
    modifies file
    ensures lookup(Str(name)).Failure? ==> r == Failure(lookup(Str(name)).error) && file.stored == old(file.stored)
    ensures lookup(Str(name)).Success? && Merged(old(file.stored), lookup).Failure? ==>
              r == Failure(Merged(old(file.stored), lookup).error) && file.stored == old(file.stored)
    ensures lookup(Str(name)).Success? && Merged(old(file.stored), lookup).Success? ==>
              && r == Success("Using location " + name)
              && file.stored == Some(Merged(old(file.stored), lookup).value["location" := NamedLocation(name, lookup(Str(name)).value)])
  {
    var found := lookup(Str(name));
    if found.Failure? {
      return Failure(found.error);
    }
    var locationData := found.value;
    var shortName := name;
    if IsNumbered(name) {
      shortName := After(name, " - ");
    }
    if ',' in shortName {
      shortName := BeforeFirst(shortName, ',');
    }
    var location := Obj(map[
      "name" := Str(name),
      "short_name" := Str(shortName),
      "latitude" := locationData.latitude,
      "longitude" := locationData.longitude]);
    assert location == NamedLocation(name, locationData);
    var loaded := LoadSettings(file.stored, false, lookup);
    if loaded.Failure? {
      return Failure(loaded.error);
    }
    var settings := loaded.value["location" := location];
    file.Save(settings);
    r := Success("Using location " + name);
  }

  // ---- dispatch ----

  /** The names `tell_<name>` and `do_<name>` that exist. */
  const TELL_VERBS: set<string> := {"time_format", "icons", "key", "days", "service", "units", "location", "weather"}
  const DO_VERBS: set<string> := {"time_format", "icons", "days", "service", "units", "location"}

  /** The items `tell(name, query)` shows, where `run` is what calling
      `tell_<name>(query)` returns or raises. */
  function TellItems(name: string, run: Result<seq<ItemValue>, PyError>): (r: seq<ItemValue>)
    ensures name !in TELL_VERBS ==> r == [NewItem("Invalid action \"" + name + "\"")]
    ensures name in TELL_VERBS && run.Success? ==> r == run.value
    ensures name in TELL_VERBS && run.Failure? ==>
              && |r| == 1 && r[0].title == run.error.Message() && r[0].icon == Some("error.png")
              && r[0].subtitle == (if run.error.SetupError? then Some(run.error.subtitle) else None)
              && !r[0].valid
  {
    if name !in TELL_VERBS then [NewItem("Invalid action \"" + name + "\"")]
    else
      match run
      case Success(items) => items
      case Failure(SetupError(title, subtitle)) => [NewItem(title, Some(subtitle), icon := Some("error.png"))]
      case Failure(Raised(message)) => [NewItem(message, icon := Some("error.png"))]
  }

  /** `tell(name, query)`: the feedback XML it writes. */
  function Tell(name: string, run: Result<seq<ItemValue>, PyError>, bundleId: string, uuids: nat -> string): string
  {
    FeedbackXml(TellItems(name, run), bundleId, uuids)
  }

  /** `do(name, query)`: the text it writes, where `run` is what calling
      `do_<name>(query)` writes or raises. */
  function Do(name: string, run: Result<string, PyError>): (out: string)
    ensures name !in DO_VERBS ==> out == "Invalid command \"" + name + "\""
    ensures name in DO_VERBS && run.Success? ==> out == run.value
    ensures name in DO_VERBS && run.Failure? ==> out == "Error: " + run.error.Message()
  {
    if name !in DO_VERBS then "Invalid command \"" + name + "\""
    else
      match run
      case Success(text) => text
      case Failure(e) => "Error: " + e.Message()
  }

  /** `tell days 11` shows one error item carrying the range message. */
  lemma TellDaysElevenIsOneError(stored: Option<Settings>, lookup: Lookup)
    ensures TellItems("days", TellDays(stored, "11", lookup))
         == [NewItem(DAYS_RANGE_MESSAGE, icon := Some("error.png"))]
  {
    assert IntToString(11) == "11";
    TellDaysRefuses(stored, 11, lookup);
  }
}
