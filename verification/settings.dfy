/** The settings store of alfred_weather.py: defaults, the one-time migration
    of version-1 settings, loading with validation, and the settings file. */
module Settings {
  import opened Wrappers
  import opened Errors
  import opened Json
  import opened Text

  type Settings = map<string, Value>

  const DEFAULT_UNITS := "us"
  const DEFAULT_ICONS := "grzanka"
  const DEFAULT_TIME_FMT := "%Y-%m-%d %H:%M"
  const CURRENT_VERSION := 2

  /** The settings every load starts from. */
  const DEFAULTS: Settings := map[
    "units" := Str(DEFAULT_UNITS),
    "icons" := Str(DEFAULT_ICONS),
    "time_format" := Str(DEFAULT_TIME_FMT),
    "days" := Int(3),
    "version" := Int(CURRENT_VERSION)]

  /** What the geocoding service returns for a place. */
  datatype Geo = Geo(name: string, latitude: Value, longitude: Value)

  /** The short name stored with a geocoded location: the name up to its first comma. */
  function ShortName(name: string): string
  {
    BeforeFirst(name, ',')
  }

  /** The `location` object stored for a geocoded place. */
  function LocationOf(g: Geo): Value
  {
    Obj(map["name" := Str(g.name), "short_name" := Str(ShortName(g.name)),
            "latitude" := g.latitude, "longitude" := g.longitude])
  }

  /** `geocode.lookup(place)`: the geocoded place, or what it raises. */
  type Lookup = Value -> Result<Geo, PyError>

  /** The rewrites `_migrate_settings` makes before it geocodes: the units
      are normalised, 'key' moves to 'key.wund', the service becomes 'wund'
      and the location is emptied. */
  function Rewritten(s: Settings): Settings
  {
    var s1 := if "units" in s then s["units" := if s["units"] == Str("US") then Str("us") else Str("si")] else s;
    var s2 := if "key" in s1 then s1["key.wund" := s1["key"]] - {"key"} else s1;
    s2["service" := Str("wund")]["location" := Obj(map[])]
  }

  /** `_migrate_settings` as a function of the dictionary before the call:
      the migrated dictionary, or what geocoding the old 'name' raised. */
  function Migrated(s: Settings, lookup: Lookup): Result<Settings, PyError>
  {
    var s3 := Rewritten(s);
    if "name" in s3 then
      match lookup(s3["name"])
      case Failure(e) => Failure(e)
      case Success(g) => Success(s3["location" := LocationOf(g)] - {"name"})
    else Success(s3)
  }

  /** What the rewrites before the geocoding leave in the dictionary. */
  lemma RewriteRules(s: Settings)
    ensures var s3 := Rewritten(s);
      && ("units" in s3 <==> "units" in s)
      && ("units" in s ==> s3["units"] == (if s["units"] == Str("US") then Str("us") else Str("si")))
      && "key" !in s3
      && ("key" in s ==> s3["key.wund"] == s["key"])
      && ("key" !in s ==> ("key.wund" in s3 <==> "key.wund" in s))
      && ("key" !in s && "key.wund" in s ==> s3["key.wund"] == s["key.wund"])
      && s3["service"] == Str("wund")
      && s3["location"] == Obj(map[])
      && ("name" in s3 <==> "name" in s)
      && ("name" in s ==> s3["name"] == s["name"])
  {
    var s1 := if "units" in s then s["units" := if s["units"] == Str("US") then Str("us") else Str("si")] else s;
    var s2 := if "key" in s1 then s1["key.wund" := s1["key"]] - {"key"} else s1;
    assert Rewritten(s) == s2["service" := Str("wund")]["location" := Obj(map[])];
    assert "key" !in s2;
  }

  /** The rewrites the migration performs, and when it raises. */
  lemma MigrationRules(s: Settings, lookup: Lookup)
    ensures var m := Migrated(s, lookup);
      && (m.Failure? <==> "name" in s && lookup(s["name"]).Failure?)
      && (m.Failure? ==> m.error == lookup(s["name"]).error)
      && (m.Success? ==>
            && ("units" in m.value <==> "units" in s)
            && ("units" in s ==> m.value["units"] == (if s["units"] == Str("US") then Str("us") else Str("si")))
            && "key" !in m.value
            && ("key" in s ==> m.value["key.wund"] == s["key"])
            && ("key" !in s ==> ("key.wund" in m.value <==> "key.wund" in s))
            && ("key" !in s && "key.wund" in s ==> m.value["key.wund"] == s["key.wund"])
            && m.value["service"] == Str("wund")
            && "name" !in m.value
            && m.value["location"] == (if "name" in s then LocationOf(lookup(s["name"]).value) else Obj(map[])))
  {
    RewriteRules(s);
  }

  /** The migration keeps every other setting and adds no other key. */
  lemma MigrationKeepsTheRest(s: Settings, lookup: Lookup)
    ensures var m := Migrated(s, lookup);
      m.Success? ==>
        && (forall k :: k in s && k !in {"units", "key", "key.wund", "service", "location", "name"} ==> k in m.value && m.value[k] == s[k])
        && (forall k :: k in m.value ==> k in s || k in {"key.wund", "service", "location"})
  {
    var s1 := if "units" in s then s["units" := if s["units"] == Str("US") then Str("us") else Str("si")] else s;
    var s2 := if "key" in s1 then s1["key.wund" := s1["key"]] - {"key"} else s1;
    var s3 := Rewritten(s);
    assert s3 == s2["service" := Str("wund")]["location" := Obj(map[])];
    var m := Migrated(s, lookup);
    if m.Success? {
      assert m.value == if "name" in s3 then s3["location" := LocationOf(lookup(s3["name"]).value)] - {"name"} else s3;
      forall k | k in s && k !in {"units", "key", "key.wund", "service", "location", "name"}
        ensures k in m.value && m.value[k] == s[k]
      {
        assert k in s1 && s1[k] == s[k];
        assert k in s2 && s2[k] == s[k];
        assert k in s3 && s3[k] == s[k];
      }
    }
  }

  /** The migration is not idempotent: a second run turns 'us' into 'si'. It
      runs only on settings without a version, and loading adds one. */
  lemma MigrationNotIdempotent(lookup: Lookup)
    ensures var s := map["units" := Str("US")];
      && Migrated(s, lookup).Success?
      && Migrated(s, lookup).value["units"] == Str("us")
      && Migrated(Migrated(s, lookup).value, lookup).Success?
      && Migrated(Migrated(s, lookup).value, lookup).value["units"] == Str("si")
  {
    var s := map["units" := Str("US")];
    assert "name" !in Rewritten(s);
    assert "name" !in Rewritten(Rewritten(s));
  }

  /** `settings` as `_load_settings` has it before validation, or what the
      migration raised. */
  function Merged(stored: Option<Settings>, lookup: Lookup): (r: Result<Settings, PyError>)
    ensures r.Failure? <==> stored.Some? && "version" !in stored.value && Migrated(stored.value, lookup).Failure?
    ensures r.Success? ==> DEFAULTS.Keys <= r.value.Keys
  {
    match stored
    case None => Success(DEFAULTS)
    case Some(s) =>
      if "version" in s then Success(DEFAULTS + s)
      else
        match Migrated(s, lookup)
        case Failure(e) => Failure(e)
        case Success(m) => Success(DEFAULTS + m)
  }

  const NO_SERVICE := SetupError("You need to set your weather service", "Use the \"wset service\" command.")
  const NO_LOCATION := SetupError("Missing default location", "You must specify a default location with the \"wset location\" command")

  /** `_load_settings(validate)`: `stored` is the settings file's object, or
      None when there is no file. */
  function LoadedSettings(stored: Option<Settings>, validate: bool, lookup: Lookup): (r: Result<Settings, PyError>)
    ensures stored.Some? && "version" !in stored.value && Migrated(stored.value, lookup).Failure? ==>
              r == Failure(Migrated(stored.value, lookup).error)
    ensures Merged(stored, lookup).Success? ==>
              var m := Merged(stored, lookup).value;
              && (r.Failure? <==> validate && ("service" !in m || "location" !in m))
              && (r.Failure? ==> r.error == (if "service" !in m then NO_SERVICE else NO_LOCATION))
    ensures r.Success? ==> DEFAULTS.Keys <= r.value.Keys
    ensures r.Success? && stored.None? ==> r.value == DEFAULTS
    ensures r.Success? && stored.Some? && "version" in stored.value ==> r.value == DEFAULTS + stored.value
    ensures r.Success? && stored.Some? && "version" !in stored.value ==>
              Migrated(stored.value, lookup).Success? && r.value == DEFAULTS + Migrated(stored.value, lookup).value
  {
    match Merged(stored, lookup)
    case Failure(e) => Failure(e)
    case Success(settings) =>
      if validate && "service" !in settings then Failure(NO_SERVICE)
      else if validate && "location" !in settings then Failure(NO_LOCATION)
      else Success(settings)
  }

  /** Settings written back after a load are read back unchanged, whatever
      the geocoder then answers: the loaded dictionary carries a version, so
      it is not migrated again. */
  lemma {:induction false} LoadIsStable(stored: Option<Settings>, lookup: Lookup, later: Lookup)
    requires Merged(stored, lookup).Success?
    ensures var m := Merged(stored, lookup).value;
      LoadedSettings(Some(m), false, later) == Success(m)
  {
    var m := Merged(stored, lookup).value;
    assert "version" in m;
    assert DEFAULTS + m == m;
  }

  /** A settings dictionary that the plugin changes in place. */
  class SettingsDict {
    var entries: Settings

    constructor(entries: Settings)
      ensures this.entries == entries
    {
      this.entries := entries;
    }

    /** `_migrate_settings(self)`: `raised` is what geocoding the old 'name'
      raised; the rewrites made before it stay in place. */
    method Migrate(lookup: Lookup) returns (raised: Option<PyError>)
      modifies this
      ensures Migrated(old(entries), lookup).Success? ==> raised.None? && entries == Migrated(old(entries), lookup).value
      ensures Migrated(old(entries), lookup).Failure? ==>
                raised == Some(Migrated(old(entries), lookup).error) && entries == Rewritten(old(entries))
    {
      ghost var s0 := entries;
      if "units" in entries {
        if entries["units"] == Str("US") {
          entries := entries["units" := Str("us")];
        } else {
          entries := entries["units" := Str("si")];
        }
      }
      assert entries == if "units" in s0 then s0["units" := if s0["units"] == Str("US") then Str("us") else Str("si")] else s0;
      ghost var s1 := if "units" in s0 then s0["units" := if s0["units"] == Str("US") then Str("us") else Str("si")] else s0;
      if "key" in entries {
        entries := entries["key.wund" := entries["key"]];
        entries := entries - {"key"};
      }
      assert entries == if "key" in s1 then s1["key.wund" := s1["key"]] - {"key"} else s1;
      entries := entries["service" := Str("wund")];
      entries := entries["location" := Obj(map[])];
      assert entries == Rewritten(s0);
      ghost var s3 := entries;
      raised := None;
      if "name" in entries {
        var found := lookup(entries["name"]);
        if found.Failure? {
          return Some(found.error);
        }
        var location := found.value;
        var name := location.name;
        var shortName := if ',' in name then BeforeFirst(name, ',') else name;
        var loc := map[];
        loc := loc["name" := Str(name)];
        loc := loc["short_name" := Str(shortName)];
        loc := loc["latitude" := location.latitude];
        loc := loc["longitude" := location.longitude];
        assert Obj(loc) == LocationOf(location);
        entries := entries["location" := Obj(loc)];
        entries := entries - {"name"};
      }
    }

    /** `dict.update(other)` */
    method Update(other: Settings)
      modifies this
      ensures entries == old(entries) + other
    {
      entries := entries + other;
    }
  }

  /** `_load_settings(validate)` */
  method LoadSettings(stored: Option<Settings>, validate: bool, lookup: Lookup) returns (r: Result<Settings, PyError>)
    ensures r == LoadedSettings(stored, validate, lookup)
  {
    var settings := new SettingsDict(DEFAULTS);
    if stored.Some? {
      var s := new SettingsDict(stored.value);
      if "version" !in s.entries {
        var raised := s.Migrate(lookup);
        if raised.Some? {
          return Failure(raised.value);
        }
      }
      settings.Update(s.entries);
    }
    if validate {
      if "service" !in settings.entries {
        return Failure(NO_SERVICE);
      }
      if "location" !in settings.entries {
        return Failure(NO_LOCATION);
      }
    }
    return Success(settings.entries);
  }

  /** The settings file: None while it does not exist. */
  class SettingsFile {
    var stored: Option<Settings>

    constructor(stored: Option<Settings>)
      ensures this.stored == stored
    {
      this.stored := stored;
    }

    /** `_save_settings(settings)` */
    method Save(settings: Settings)
      modifies this
      ensures stored == Some(settings)
    {
      stored := Some(settings);
    }
  }
}
