/** The sunrise and sunset command of sun_phase.py: one item per day that has
    sun data, between the weather alerts and the closing copyright item. The
    fetch, the alert and copyright items, the day descriptions and the icon
    lookup belong to helpers outside this file; they are parameters here. */
module SunPhase {
  import opened Wrappers
  import opened Text
  import opened Alfred

  /** The icon every sun item shows, looked up by its name. */
  const ICON_NAME := "clear"

  /** A sunrise or sunset time of day. */
  datatype Time = Time(hour: nat, minute: nat)

  predicate ValidTime(t: Time)
  {
    t.hour < 24 && t.minute < 60
  }

  /** `t.strftime('%H:%M')`. */
  function HourMinute(t: Time): (s: string)
    ensures |s| == 5 && s[2] == ':'
    ensures AllDigits(s[..2]) && AllDigits(s[3..])
  {
    var s := ZeroPad(t.hour, 2) + ":" + ZeroPad(t.minute, 2);
    assert s[..2] == ZeroPad(t.hour, 2) && s[3..] == ZeroPad(t.minute, 2);
    s
  }

  /** The clock text keeps the hour and the minute of a valid time. */
  lemma HourMinuteValues(t: Time)
    requires ValidTime(t)
    ensures DigitsValue(HourMinute(t)[..2]) == t.hour
    ensures DigitsValue(HourMinute(t)[3..]) == t.minute
  {
    var s := HourMinute(t);
    assert s[..2] == ZeroPad(t.hour, 2) && s[3..] == ZeroPad(t.minute, 2);
    ZeroPadValue(t.hour, 2);
    ZeroPadValue(t.minute, 2);
  }

  /** The day's line for each combination of present times. A missing time
      is `None`; a present one is a datetime, which is always true. */
  function Description(sunrise: Option<Time>, sunset: Option<Time>): string
  {
    match (sunrise, sunset)
    case (Some(rise), Some(dusk)) => "Sunrise: " + HourMinute(rise) + ", Sunset: " + HourMinute(dusk)
    case (Some(rise), None) => "Sunrise: " + HourMinute(rise)
    case (None, Some(dusk)) => ", Sunset: " + HourMinute(dusk)
    case (None, None) => ""
  }

  /** `_sun_phase_description(sunrise, sunset)`: the text is accumulated,
      the sunrise part first. */
  method SunPhaseDescription(sunrise: Option<Time>, sunset: Option<Time>) returns (content: string)
    ensures content == Description(sunrise, sunset)
  {
    content := "";
    if sunrise.Some? {
      content := content + ("Sunrise: " + HourMinute(sunrise.value));
    }
    if sunset.Some? {
      content := content + (", Sunset: " + HourMinute(sunset.value));
    }
    if sunrise.Some? && sunset.Some? {
      assert content == "Sunrise: " + HourMinute(sunrise.value) + ", Sunset: " + HourMinute(sunset.value);
    }
  }

  /** The description is empty exactly when the day has neither time, and
      otherwise opens with the sunrise part when there is one. */
  lemma DescriptionShape(sunrise: Option<Time>, sunset: Option<Time>)
    ensures Description(sunrise, sunset) == "" <==> sunrise.None? && sunset.None?
    ensures sunrise.Some? ==> StartsWith(Description(sunrise, sunset), "Sunrise: " + HourMinute(sunrise.value))
    ensures sunrise.None? && sunset.Some? ==> StartsWith(Description(sunrise, sunset), ", Sunset: ")
    ensures sunset.Some? ==>
              var d := Description(sunrise, sunset);
              |d| >= 15 && d[|d| - 15..] == ", Sunset: " + HourMinute(sunset.value)
  {
    var d := Description(sunrise, sunset);
    if sunrise.Some? {
      var p := "Sunrise: " + HourMinute(sunrise.value);
      if sunset.Some? {
        assert d == p + (", Sunset: " + HourMinute(sunset.value));
      }
      assert d[..|p|] == p;
    }
    if sunset.Some? {
      assert |", Sunset: " + HourMinute(sunset.value)| == 15;
    }
  }

  /** `_create_item(day_desc, content)`, with `icon` the path `_get_icon`
      returns for ICON_NAME. */
  function SunItem(dayDesc: string, content: string, icon: string): (v: ItemValue)
    ensures v.title == dayDesc + ": " + content
    ensures v.icon == Some(icon) && !v.valid
    ensures v.subtitle.None? && v.uid.None? && v.arg.None?
  {
    NewItem(dayDesc + ": " + content, icon := Some(icon), valid := false)
  }

  method CreateItem(dayDesc: string, content: string, icon: string) returns (item: Item)
    ensures fresh(item)
    ensures item.Value() == SunItem(dayDesc, content, icon)
  {
    var title := dayDesc + ": " + content;
    item := new Item(title, icon := Some(icon), valid := false);
  }

  /** A day of the forecast as `tell_sun` reads it: its date text and the
      'sunrise' and 'sunset' entries, `None` when missing. */
  datatype SunDay = SunDay(date: string, sunrise: Option<Time>, sunset: Option<Time>)

  predicate HasSun(d: SunDay)
  {
    d.sunrise.Some? || d.sunset.Some?
  }

  /** The days that get an item, in their order. */
  function SunDays(days: seq<SunDay>): (r: seq<SunDay>)
    ensures |r| <= |days|
  {
    if days == [] then []
    else
      var last := days[|days| - 1];
      SunDays(days[..|days| - 1]) + (if HasSun(last) then [last] else [])
  }

  /** The item of one day with sun data. */
  function DayItem(d: SunDay, dayDesc: string -> string, icon: string): ItemValue
  {
    SunItem(dayDesc(d.date), Description(d.sunrise, d.sunset), icon)
  }

  /** The items the loop of `tell_sun` appends, one per day with sun data. */
  function SunItems(days: seq<SunDay>, dayDesc: string -> string, icon: string): (vs: seq<ItemValue>)
    ensures |vs| == |SunDays(days)|
  {
    var sd := SunDays(days);
    seq(|sd|, i requires 0 <= i < |sd| => DayItem(sd[i], dayDesc, icon))
  }

  /** Selecting the days distributes over concatenation, so the selected
      days keep their relative order. */
  lemma {:induction false} SunDaysAppend(a: seq<SunDay>, b: seq<SunDay>)
    ensures SunDays(a + b) == SunDays(a) + SunDays(b)
    decreases |b|
  {
    if b == [] {
      assert a + b == a;
    } else {
      var last := b[|b| - 1];
      assert (a + b)[..|a + b| - 1] == a + b[..|b| - 1];
      SunDaysAppend(a, b[..|b| - 1]);
    }
  }

  /** A day is selected exactly when it has a sunrise or a sunset. */
  lemma {:induction false} SunDaysMembers(days: seq<SunDay>)
    ensures forall d :: d in SunDays(days) <==> d in days && HasSun(d)
  {
    if days != [] {
      var init := days[..|days| - 1];
      SunDaysMembers(init);
      assert days == init + [days[|days| - 1]];
    }
  }

  /** One more day adds its item when it has sun data, and nothing else. */
  lemma SunItemsSnoc(days: seq<SunDay>, d: SunDay, dayDesc: string -> string, icon: string)
    ensures SunItems(days + [d], dayDesc, icon)
         == SunItems(days, dayDesc, icon) + (if HasSun(d) then [DayItem(d, dayDesc, icon)] else [])
  {
    assert (days + [d])[..|days|] == days;
  }

  /** Days without sun data are skipped: dropping them changes nothing. */
  lemma SunDaysSkip(days: seq<SunDay>, d: SunDay)
    requires !HasSun(d)
    ensures SunDays(days + [d]) == SunDays(days)
  {
    assert (days + [d])[..|days|] == days;
  }

  /** One pass of the loop of `tell_sun`: a day whose description is empty
      is skipped, any other day appends its item. */
  method AddDay(items: seq<Item>, day: SunDay, dayDesc: string -> string, icon: string) returns (r: seq<Item>)
    ensures Values(r) == Values(items) + (if HasSun(day) then [DayItem(day, dayDesc, icon)] else [])
  {
    var desc := dayDesc(day.date);
    var content := SunPhaseDescription(day.sunrise, day.sunset);
    assert content == "" <==> !HasSun(day) by {
      DescriptionShape(day.sunrise, day.sunset);
    }
    if content == "" {
      return items;
    }
    var item := CreateItem(desc, content, icon);
    ValuesAppend(items, [item]);
    assert Values([item]) == [item.Value()];
    r := items + [item];
  }

  /** `tell_sun(location)`: `alerts` and `copyright` are the items of the
      alert and copyright helpers and `days` the helper's forecast days for
      the fetched weather, `dayDesc` the day-description helper and `icon`
      what `_get_icon(ICON_NAME)` returns. */
  method TellSun(alerts: seq<Item>, days: seq<SunDay>, dayDesc: string -> string, icon: string, copyright: Item)
    returns (items: seq<Item>)
    ensures Values(items) == Values(alerts) + SunItems(days, dayDesc, icon) + [copyright.Value()]
  {
    items := alerts;
    var k := 0;
    while k < |days|
      invariant 0 <= k <= |days|
      invariant Values(items) == Values(alerts) + SunItems(days[..k], dayDesc, icon)
    {
      items := AddDay(items, days[k], dayDesc, icon);
      assert days[..k + 1] == days[..k] + [days[k]];
      SunItemsSnoc(days[..k], days[k], dayDesc, icon);
      k := k + 1;
    }
    assert days[..k] == days;
    ValuesAppend(items, [copyright]);
    assert Values([copyright]) == [copyright.Value()];
    items := items + [copyright];
  }

  /** The command's list: the alerts first, then the sun items in day order,
      the copyright item last; its length counts only the days with sun data. */
  lemma TellSunLayout(alerts: seq<ItemValue>, days: seq<SunDay>, dayDesc: string -> string, icon: string,
                      copyright: ItemValue)
    ensures var items := alerts + SunItems(days, dayDesc, icon) + [copyright];
      && |items| == |alerts| + |SunDays(days)| + 1
      && items[..|alerts|] == alerts
      && items[|items| - 1] == copyright
      && forall i :: 0 <= i < |SunDays(days)| ==>
           var d := SunDays(days)[i];
           && HasSun(d)
           && items[|alerts| + i].title == dayDesc(d.date) + ": " + Description(d.sunrise, d.sunset)
           && !items[|alerts| + i].valid
  {
    var sd := SunDays(days);
    SunDaysMembers(days);
    forall i | 0 <= i < |sd|
      ensures HasSun(sd[i])
    {
      assert sd[i] in sd;
    }
  }
}
