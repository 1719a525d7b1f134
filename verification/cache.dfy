/** The response cache of alfred_weather.py: a table service -> 'forecasts'
    -> "lat,lon" -> {requested_at, data}, with a 300-second freshness test.
    Timestamps are whole seconds; `now` is a parameter. */
module Cache {
  import opened Wrappers
  import opened Json

  datatype Entry = Entry(requestedAt: int, data: Value)

  /** service -> location -> entry (the 'forecasts' level is implied). */
  type Table = map<string, map<string, Entry>>

  const FRESH_SECONDS := 300
  const SECONDS_PER_DAY := 86400

  /** `(now - then).seconds`: the seconds part of a timedelta, which leaves
      out whole days and is never negative. */
  function TimedeltaSeconds(now: int, earlier: int): (r: int)
    ensures 0 <= r < SECONDS_PER_DAY
    ensures (now - earlier - r) % SECONDS_PER_DAY == 0
  {
    (now - earlier) % SECONDS_PER_DAY
  }

  predicate IsFresh(e: Entry, now: int)
  {
    TimedeltaSeconds(now, e.requestedAt) < FRESH_SECONDS
  }

  /** `cache[service]`, created empty when absent. */
  function WithService(t: Table, service: string): (r: Table)
    ensures service in r
    ensures forall s :: s in t ==> s in r && r[s] == t[s]
    ensures r.Keys == t.Keys + {service}
  {
    if service in t then t else t[service := map[]]
  }

  /** The data `_load_cached_data` returns: the stored data when the entry
      exists and is fresh, None otherwise. */
  function CachedData(t: Table, service: string, location: string, now: int): (r: Option<Value>)
    ensures r.Some? <==> service in t && location in t[service] && IsFresh(t[service][location], now)
    ensures r.Some? ==> r.value == t[service][location].data
  {
    if service in t && location in t[service] && IsFresh(t[service][location], now)
    then Some(t[service][location].data) else None
  }

  /** The table `_save_cached_data` writes. */
  function Stored(t: Table, service: string, location: string, data: Value, now: int): Table
  {
    var u := WithService(t, service);
    u[service := u[service][location := Entry(now, data)]]
  }

  /** Saving sets exactly one entry and leaves every other service and location as it was. */
  lemma StoredFrame(t: Table, service: string, location: string, data: Value, now: int)
    ensures var u := Stored(t, service, location, data, now);
      && u.Keys == t.Keys + {service}
      && u[service].Keys == (if service in t then t[service].Keys else {}) + {location}
      && u[service][location] == Entry(now, data)
      && (forall s :: s in t && s != service ==> u[s] == t[s])
      && (forall l :: service in t && l in t[service] && l != location ==> u[service][l] == t[service][l])
  {
  }

  /** Data saved at `now` is what a load at the same moment returns. */
  lemma StoreThenLoad(t: Table, service: string, location: string, data: Value, now: int)
    ensures CachedData(Stored(t, service, location, data, now), service, location, now) == Some(data)
  {
  }

  /** The freshness test ignores whole days: an entry saved at `requestedAt` is fresh
      again at any whole number of days later, plus less than 300 seconds. */
  lemma {:induction false} FreshModuloDays(e: Entry, days: int, extra: int)
    requires 0 <= extra < FRESH_SECONDS
    ensures IsFresh(e, e.requestedAt + days * SECONDS_PER_DAY + extra)
  {
    var now := e.requestedAt + days * SECONDS_PER_DAY + extra;
    assert now - e.requestedAt == days * SECONDS_PER_DAY + extra;
    assert (days * SECONDS_PER_DAY + extra) % SECONDS_PER_DAY == extra;
  }

  /** Within the first day the test is the intended one: fresh exactly when
      fewer than 300 seconds have passed. */
  lemma FreshWithinADay(e: Entry, now: int)
    requires e.requestedAt <= now < e.requestedAt + SECONDS_PER_DAY
    ensures IsFresh(e, now) <==> now - e.requestedAt < FRESH_SECONDS
  {
  }

  /** The cache file's table of entries. A missing file reads as the
      default `{'conditions': {}, 'forecasts': {}}`; neither of its two keys
      is a service name, and they hold no entries, so that default is the
      empty table here. */
  class CacheFile {
    var table: Table

    constructor(table: Table)
      ensures this.table == table
    {
      this.table := table;
    }

    /** `_load_cached_data(service, location)`: the fresh data, if any, and
        the cache as loaded with the service's table created. The file is not
        written. */
    method LoadCachedData(service: string, location: string, now: int) returns (data: Option<Value>, cache: Table)
      ensures data == CachedData(table, service, location, now)
      ensures cache == WithService(table, service)
    {
      cache := table;
      data := None;
      if service !in cache {
        cache := cache[service := map[]];
      }
      if location in cache[service] {
        var lastCheck := cache[service][location].requestedAt;
        if (now - lastCheck) % SECONDS_PER_DAY < FRESH_SECONDS {
          data := Some(cache[service][location].data);
        }
      }
    }

    /** `_save_cached_data(service, location, data)`: stamps the entry with
        `now`, writes the file and returns the new cache. */
    method SaveCachedData(service: string, location: string, data: Value, now: int) returns (cache: Table)
      modifies this
      ensures table == Stored(old(table), service, location, data, now)
      ensures cache == table
    {
      cache := table;
      if service !in cache {
        cache := cache[service := map[]];
      }
      cache := cache[service := cache[service][location := Entry(now, data)]];
      table := cache;
    }
  }
}
