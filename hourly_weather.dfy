/**
 * The hour-level extraction of weatherapi/weather_data.py.
 *
 * `get_hourly_forecast_data` walks a day's hourly entries, reads the hour out
 * of each entry's `"YYYY-MM-DD HH:MM"` time, and for an hour inside the
 * window stores fifteen fields under `hour_{h}_*` keys.
 * `get_relevant_weather_information` merges the evening of forecast day 0
 * (hours 19 to 23) with the morning of day 1 (hours 0 to 7) and the first
 * weather alert, returning what it has gathered when a `KeyError` occurs.
 */
module HourlyWeather {
  import opened Wrappers
  import opened Text
  import opened JsonValues

  /** The fifteen assignments made for an hour in the window, in program order. */
  const HourlyFields: seq<FieldCopy> := [
    FieldCopy("temp_f", Field("temp_f")),
    FieldCopy("chance_of_snow", Field("chance_of_snow")),
    FieldCopy("chance_of_rain", Field("chance_of_rain")),
    FieldCopy("wind_mph", Field("wind_mph")),
    FieldCopy("visibility_miles", Field("vis_miles")),
    FieldCopy("snow_cm", FieldOr("snow_cm", JNumber("0"))),
    FieldCopy("humidity", Field("humidity")),
    FieldCopy("cloud", Field("cloud")),
    FieldCopy("pressure_in", Field("pressure_in")),
    FieldCopy("feelslike_f", Field("feelslike_f")),
    FieldCopy("windchill_f", Field("windchill_f")),
    FieldCopy("dewpoint_f", Field("dewpoint_f")),
    FieldCopy("gust_mph", Field("gust_mph")),
    FieldCopy("uv", Field("uv")),
    FieldCopy("condition", Nested("condition", "text"))
  ]

  /** The five assignments made from the first weather alert, in program order. */
  const AlertFields: seq<FieldCopy> := [
    FieldCopy("event", Field("event")),
    FieldCopy("severity", Field("severity")),
    FieldCopy("certainty", Field("certainty")),
    FieldCopy("urgency", Field("urgency")),
    FieldCopy("desc", Field("desc"))
  ]

  const AlertPrefix: string := "weather_alert_"

  /** `f'hour_{hour_of_day}_'`, the start of every key stored for an hour. */
  function HourPrefix(h: int): string
  {
    "hour_" + IntToString(h) + "_"
  }

  /** `int(hour_time.split(' ')[1].split(':')[0])`. */
  function HourOf(time: Json): Result<int>
  {
    match time
    case JString(s) =>
      var parts := Split(s, ' ');
      if |parts| < 2 then Err(IndexError)
      else
        (match ParseInt(Split(parts[1], ':')[0])
         case None => Err(ValueError)
         case Some(h) => Ok(h))
    case _ => Err(AttributeError)  // only a `str` has `split`
  }

  /** `hour['time']` followed by the hour parse. */
  function EntryHour(entry: Json): Result<int>
  {
    var time :- Get(entry, "time");
    HourOf(time)
  }

  /** One pass of the `for hour in hourly_data` loop over `relevant_data`. */
  function AddHour(acc: map<string, Json>, entry: Json, lo: int, hi: int, fields: seq<FieldCopy>): Result<map<string, Json>>
  {
    var h :- EntryHour(entry);
    if lo <= h < hi then
      var a := AssignFields(acc, entry, HourPrefix(h), fields);
      if a.fault.Some? then Err(a.fault.value) else Ok(a.data)
    else Ok(acc)
  }

  /** `relevant_data` after the first `k` entries, or the exception one of them raised. */
  function HourlyAfter(entries: seq<Json>, k: nat, lo: int, hi: int, fields: seq<FieldCopy>): Result<map<string, Json>>
    requires k <= |entries|
  {
    if k == 0 then Ok(map[])
    else
      var acc :- HourlyAfter(entries, k - 1, lo, hi, fields);
      AddHour(acc, entries[k - 1], lo, hi, fields)
  }

  /** What `get_hourly_forecast_data(hourly_data, start_hour, end_hour)` returns, or the exception it raises. */
  function HourlyForecast(hourlyData: Json, lo: int, hi: int): Result<map<string, Json>>
  {
    var entries :- Iterate(hourlyData);
    HourlyAfter(entries, |entries|, lo, hi, HourlyFields)
  }

  /** `get_hourly_forecast_data(hourly_data, start_hour, end_hour)`. */
  method GetHourlyForecastData(hourlyData: Json, startHour: int, endHour: int) returns (r: Result<map<string, Json>>)
    ensures r == HourlyForecast(hourlyData, startHour, endHour)
  {
    var relevantData: map<string, Json> := map[];
    var entries :- Iterate(hourlyData);
    for k := 0 to |entries|
      invariant HourlyAfter(entries, k, startHour, endHour, HourlyFields) == Ok(relevantData)
    {
      var next := StoreHour(relevantData, entries[k], startHour, endHour);
      HourlyAfterNext(entries, k, startHour, endHour, HourlyFields, relevantData, next);
      if next.Err? {
        HourlyErrorSticks(entries, k + 1, |entries|, startHour, endHour, HourlyFields, next.fault);
        return Err(next.fault);
      }
      relevantData := next.value;
    }
    return Ok(relevantData);
  }

  /** One pass of the loop: read the hour of `hour['time']` and, inside the window, store its fifteen fields. */
  method StoreHour(relevantData: map<string, Json>, hour: Json, startHour: int, endHour: int) returns (r: Result<map<string, Json>>)
    ensures r == AddHour(relevantData, hour, startHour, endHour, HourlyFields)
  {
    var hourTime := Get(hour, "time");
    if hourTime.Err? {
      return Err(hourTime.fault);
    }
    var hourOfDay := HourOf(hourTime.value);
    if hourOfDay.Err? {
      return Err(hourOfDay.fault);
    }
    if startHour <= hourOfDay.value < endHour {
      var a := AssignHour(relevantData, hour, hourOfDay.value);
      if a.fault.Some? {
        return Err(a.fault.value);
      }
      return Ok(a.data);
    }
    return Ok(relevantData);
  }

  method AssignHour(relevantData: map<string, Json>, hour: Json, h: int) returns (a: Assigned)
    ensures a == AssignFields(relevantData, hour, HourPrefix(h), HourlyFields)
  {
    var prefix := HourPrefix(h);
    AssignFromSlice(relevantData, hour, prefix, HourlyFields, 0);
    assert HourlyFields[0..] == HourlyFields;
    a := AssignHourHead(relevantData, hour, prefix);
    if a.fault.Some? { return; }
    a := AssignHourMiddle(a.data, hour, prefix);
    if a.fault.Some? { return; }
    a := AssignHourTail(a.data, hour, prefix);
  }

  /**
   * Temperature, precipitation chances, wind and visibility: the first five assignments.
   * The fifteen assignments are one block in the source; the split into
   * three methods only keeps each proof small.
   */
  method AssignHourHead(relevantData: map<string, Json>, hour: Json, prefix: string) returns (a: Assigned)
    ensures a.fault.Some? ==> a == AssignFrom(relevantData, hour, prefix, HourlyFields, 0)
    ensures a.fault.None? ==> AssignFrom(a.data, hour, prefix, HourlyFields, 5) == AssignFrom(relevantData, hour, prefix, HourlyFields, 0)
  {
    var data := relevantData;
    var v: Result<Json>;
    v := Get(hour, "temp_f");
    if v.Err? { return Assigned(data, Some(v.fault)); }
    data := data[prefix + "temp_f" := v.value];
    assert AssignFrom(data, hour, prefix, HourlyFields, 1) == AssignFrom(relevantData, hour, prefix, HourlyFields, 0);
    v := Get(hour, "chance_of_snow");
    if v.Err? { return Assigned(data, Some(v.fault)); }
    data := data[prefix + "chance_of_snow" := v.value];
    assert AssignFrom(data, hour, prefix, HourlyFields, 2) == AssignFrom(relevantData, hour, prefix, HourlyFields, 0);
    v := Get(hour, "chance_of_rain");
    if v.Err? { return Assigned(data, Some(v.fault)); }
    data := data[prefix + "chance_of_rain" := v.value];
    assert AssignFrom(data, hour, prefix, HourlyFields, 3) == AssignFrom(relevantData, hour, prefix, HourlyFields, 0);
    v := Get(hour, "wind_mph");
    if v.Err? { return Assigned(data, Some(v.fault)); }
    data := data[prefix + "wind_mph" := v.value];
    assert AssignFrom(data, hour, prefix, HourlyFields, 4) == AssignFrom(relevantData, hour, prefix, HourlyFields, 0);
    v := Get(hour, "vis_miles");
    if v.Err? { return Assigned(data, Some(v.fault)); }
    data := data[prefix + "visibility_miles" := v.value];
    return Assigned(data, None);
  }

  /**
   * Snowfall, humidity, cloud, pressure and apparent temperature: the next five.
   * The fifteen assignments are one block in the source; the split into
   * three methods only keeps each proof small.
   */
  method AssignHourMiddle(relevantData: map<string, Json>, hour: Json, prefix: string) returns (a: Assigned)
    ensures a.fault.Some? ==> a == AssignFrom(relevantData, hour, prefix, HourlyFields, 5)
    ensures a.fault.None? ==> AssignFrom(a.data, hour, prefix, HourlyFields, 10) == AssignFrom(relevantData, hour, prefix, HourlyFields, 5)
  {
    var data := relevantData;
    var v: Result<Json>;
    v := GetOr(hour, "snow_cm", JNumber("0"));
    if v.Err? { return Assigned(data, Some(v.fault)); }
    data := data[prefix + "snow_cm" := v.value];
    assert AssignFrom(data, hour, prefix, HourlyFields, 6) == AssignFrom(relevantData, hour, prefix, HourlyFields, 5);
    v := Get(hour, "humidity");
    if v.Err? { return Assigned(data, Some(v.fault)); }
    data := data[prefix + "humidity" := v.value];
    assert AssignFrom(data, hour, prefix, HourlyFields, 7) == AssignFrom(relevantData, hour, prefix, HourlyFields, 5);
    v := Get(hour, "cloud");
    if v.Err? { return Assigned(data, Some(v.fault)); }
    data := data[prefix + "cloud" := v.value];
    assert AssignFrom(data, hour, prefix, HourlyFields, 8) == AssignFrom(relevantData, hour, prefix, HourlyFields, 5);
    v := Get(hour, "pressure_in");
    if v.Err? { return Assigned(data, Some(v.fault)); }
    data := data[prefix + "pressure_in" := v.value];
    assert AssignFrom(data, hour, prefix, HourlyFields, 9) == AssignFrom(relevantData, hour, prefix, HourlyFields, 5);
    v := Get(hour, "feelslike_f");
    if v.Err? { return Assigned(data, Some(v.fault)); }
    data := data[prefix + "feelslike_f" := v.value];
    return Assigned(data, None);
  }

  /**
   * Wind chill, dew point, gusts, UV index and condition text: the last five.
   * The fifteen assignments are one block in the source; the split into
   * three methods only keeps each proof small.
   */
  method AssignHourTail(relevantData: map<string, Json>, hour: Json, prefix: string) returns (a: Assigned)
    ensures a.fault.Some? ==> a == AssignFrom(relevantData, hour, prefix, HourlyFields, 10)
    ensures a.fault.None? ==> AssignFrom(a.data, hour, prefix, HourlyFields, 15) == AssignFrom(relevantData, hour, prefix, HourlyFields, 10)
  {
    var data := relevantData;
    var v: Result<Json>;
    v := Get(hour, "windchill_f");
    if v.Err? { return Assigned(data, Some(v.fault)); }
    data := data[prefix + "windchill_f" := v.value];
    assert AssignFrom(data, hour, prefix, HourlyFields, 11) == AssignFrom(relevantData, hour, prefix, HourlyFields, 10);
    v := Get(hour, "dewpoint_f");
    if v.Err? { return Assigned(data, Some(v.fault)); }
    data := data[prefix + "dewpoint_f" := v.value];
    assert AssignFrom(data, hour, prefix, HourlyFields, 12) == AssignFrom(relevantData, hour, prefix, HourlyFields, 10);
    v := Get(hour, "gust_mph");
    if v.Err? { return Assigned(data, Some(v.fault)); }
    data := data[prefix + "gust_mph" := v.value];
    assert AssignFrom(data, hour, prefix, HourlyFields, 13) == AssignFrom(relevantData, hour, prefix, HourlyFields, 10);
    v := Get(hour, "uv");
    if v.Err? { return Assigned(data, Some(v.fault)); }
    data := data[prefix + "uv" := v.value];
    assert AssignFrom(data, hour, prefix, HourlyFields, 14) == AssignFrom(relevantData, hour, prefix, HourlyFields, 10);
    var condition := Get(hour, "condition");
    assert HourlyFields[14].source == Nested("condition", "text");
    if condition.Err? { return Assigned(data, Some(condition.fault)); }
    v := Get(condition.value, "text");
    if v.Err? { return Assigned(data, Some(v.fault)); }
    assert Lookup(hour, HourlyFields[14].source) == Ok(v.value);
    data := data[prefix + "condition" := v.value];
    return Assigned(data, None);
  }

  /** One more entry: the loop goes on from the dict the first `k` entries left. */
  lemma HourlyAfterNext(entries: seq<Json>, k: nat, lo: int, hi: int, fields: seq<FieldCopy>,
                        acc: map<string, Json>, next: Result<map<string, Json>>)
    requires k < |entries| && HourlyAfter(entries, k, lo, hi, fields) == Ok(acc)
    requires next == AddHour(acc, entries[k], lo, hi, fields)
    ensures HourlyAfter(entries, k + 1, lo, hi, fields) == next
  {
  }

  /** Once an entry has raised, the loop never resumes: the exception is the function's outcome. */
  lemma {:induction false} HourlyErrorSticks(entries: seq<Json>, j: nat, k: nat, lo: int, hi: int, fields: seq<FieldCopy>, e: Fault)
    requires j <= k <= |entries|
    requires HourlyAfter(entries, j, lo, hi, fields) == Err(e)
    ensures HourlyAfter(entries, k, lo, hi, fields) == Err(e)
    decreases k - j
  {
    if j < k {
      HourlyErrorStep(entries, j, lo, hi, fields, e);
      HourlyErrorSticks(entries, j + 1, k, lo, hi, fields, e);
    }
  }

  lemma HourlyErrorStep(entries: seq<Json>, j: nat, lo: int, hi: int, fields: seq<FieldCopy>, e: Fault)
    requires j < |entries| && HourlyAfter(entries, j, lo, hi, fields) == Err(e)
    ensures HourlyAfter(entries, j + 1, lo, hi, fields) == Err(e)
  {
  }

  /** `forecast_data['forecast']['forecastday'][i]['hour']`. */
  function HourlyDay(forecast: Json, i: nat): Result<Json>
  {
    var f :- Get(forecast, "forecast");
    var days :- Get(f, "forecastday");
    var day :- At(days, i);
    Get(day, "hour")
  }

  /**
   * The alert test `'alerts' in forecast_data and len(forecast_data['alerts']['alert']) > 0`
   * followed by `forecast_data['alerts']['alert'][0]`: the first alert when
   * the test holds, `None` when it does not, or the exception raised on the way.
   */
  function FirstAlert(forecast: Json): Result<Option<Json>>
  {
    var present :- Contains(forecast, "alerts");
    if !present then Ok(None)
    else
      var alerts :- Get(forecast, "alerts");
      var list :- Get(alerts, "alert");
      var n :- Len(list);
      if n == 0 then Ok(None)
      else
        var first :- At(list, 0);
        Ok(Some(first))
  }

  /** The alert step on `data`: the five `weather_alert_*` assignments when there is a first alert. */
  function AlertStep(data: map<string, Json>, forecast: Json): Assigned
  {
    match FirstAlert(forecast)
    case Err(fault) => Assigned(data, Some(fault))
    case Ok(None) => Assigned(data, None)
    case Ok(Some(first)) => AssignFields(data, first, AlertPrefix, AlertFields)
  }

  /**
   * The body of the `try` in `get_relevant_weather_information`: `weather_data`
   * when the body ends, with the exception that ended it early, if any. Each
   * day's hours reach `weather_data` only through `update`, after
   * `get_hourly_forecast_data` has returned.
   */
  function RelevantRun(forecast: Json): Assigned
  {
    match HourlyDay(forecast, 0)
    case Err(fault) => Assigned(map[], Some(fault))
    case Ok(current) =>
      match HourlyForecast(current, 19, 24)
      case Err(fault) => Assigned(map[], Some(fault))
      case Ok(evening) =>
        var data := map[] + evening;
        match HourlyDay(forecast, 1)
        case Err(fault) => Assigned(data, Some(fault))
        case Ok(next) =>
          match HourlyForecast(next, 0, 8)
          case Err(fault) => Assigned(data, Some(fault))
          case Ok(morning) => AlertStep(data + morning, forecast)
  }

  /** What `get_relevant_weather_information(forecast_data)` returns, or the exception it raises. */
  function RelevantHourly(forecast: Json): Result<map<string, Json>>
  {
    var a := RelevantRun(forecast);
    if a.fault.Some? then Caught(a.data, a.fault.value) else Ok(a.data)
  }

  /** `get_relevant_weather_information(forecast_data)`. */
  method GetRelevantWeatherInformation(forecastData: Json) returns (r: Result<map<string, Json>>)
    ensures r == RelevantHourly(forecastData)
    ensures r.Err? ==> r.fault != KeyError
  {
    var weatherData: map<string, Json> := map[];
    var currentDay := HourlyDay(forecastData, 0);
    if currentDay.Err? {
      return Caught(weatherData, currentDay.fault);
    }
    var evening := GetHourlyForecastData(currentDay.value, 19, 24);
    if evening.Err? {
      return Caught(weatherData, evening.fault);
    }
    weatherData := weatherData + evening.value;
    var nextDay := HourlyDay(forecastData, 1);
    if nextDay.Err? {
      return Caught(weatherData, nextDay.fault);
    }
    var morning := GetHourlyForecastData(nextDay.value, 0, 8);
    if morning.Err? {
      return Caught(weatherData, morning.fault);
    }
    weatherData := weatherData + morning.value;
    // `forecast_data` is a dict by now (its subscriptions above succeeded), so
    // the membership test and `forecast_data['alerts']` after it cannot raise.
    var present := Contains(forecastData, "alerts");
    assert present.Ok?;
    if present.value {
      var alerts := Get(forecastData, "alerts");
      assert alerts.Ok?;
      var list := Get(alerts.value, "alert");
      if list.Err? {
        return Caught(weatherData, list.fault);
      }
      var n := Len(list.value);
      if n.Err? {
        return Caught(weatherData, n.fault);
      }
      if n.value > 0 {
        // The second evaluation of `forecast_data['alerts']['alert']` gives the same list.
        var first := At(list.value, 0);
        if first.Err? {
          return Caught(weatherData, first.fault);
        }
        var a := AssignAlert(weatherData, first.value);
        weatherData := a.data;
        if a.fault.Some? {
          return Caught(weatherData, a.fault.value);
        }
      }
    }
    return Ok(weatherData);
  }

  /** The five assignments `weather_data['weather_alert_...'] = weather_alert_data[...]`. */
  method AssignAlert(weatherData: map<string, Json>, alert: Json) returns (a: Assigned)
    ensures a == AssignFields(weatherData, alert, AlertPrefix, AlertFields)
  {
    AssignFromSlice(weatherData, alert, AlertPrefix, AlertFields, 0);
    assert AlertFields[0..] == AlertFields;
    var data := weatherData;
    var v := Get(alert, "event");
    if v.Err? { return Assigned(data, Some(v.fault)); }
    data := data[AlertPrefix + "event" := v.value];
    assert AssignFrom(data, alert, AlertPrefix, AlertFields, 1) == AssignFrom(weatherData, alert, AlertPrefix, AlertFields, 0);
    v := Get(alert, "severity");
    if v.Err? { return Assigned(data, Some(v.fault)); }
    data := data[AlertPrefix + "severity" := v.value];
    assert AssignFrom(data, alert, AlertPrefix, AlertFields, 2) == AssignFrom(weatherData, alert, AlertPrefix, AlertFields, 0);
    v := Get(alert, "certainty");
    if v.Err? { return Assigned(data, Some(v.fault)); }
    data := data[AlertPrefix + "certainty" := v.value];
    assert AssignFrom(data, alert, AlertPrefix, AlertFields, 3) == AssignFrom(weatherData, alert, AlertPrefix, AlertFields, 0);
    v := Get(alert, "urgency");
    if v.Err? { return Assigned(data, Some(v.fault)); }
    data := data[AlertPrefix + "urgency" := v.value];
    assert AssignFrom(data, alert, AlertPrefix, AlertFields, 4) == AssignFrom(weatherData, alert, AlertPrefix, AlertFields, 0);
    v := Get(alert, "desc");
    if v.Err? { return Assigned(data, Some(v.fault)); }
    data := data[AlertPrefix + "desc" := v.value];
    return Assigned(data, None);
  }

  // Keys

  /** A string with no `_` ends where the first `_` after it stands. */
  lemma UnderscoreSplit(a: string, b: string, c: string, d: string)
    requires '_' !in a && '_' !in b
    requires a + "_" + c == b + "_" + d
    ensures a == b && c == d
  {
    var x := a + "_" + c;
    assert x[|a|] == '_';
    assert x == b + "_" + d;
    assert x[|b|] == '_';
    assert forall k :: 0 <= k < |a| ==> x[k] == a[k];
    assert forall k :: 0 <= k < |b| ==> x[k] == b[k];
    assert |a| == |b|;
    assert a == x[..|a|] == b;
    assert c == x[|a| + 1..] == d;
  }

  /** Distinct hours, or distinct names, give distinct keys: the `_` after the hour ends it. */
  lemma HourKeyInjective(h1: int, h2: int, n1: string, n2: string)
    requires HourPrefix(h1) + n1 == HourPrefix(h2) + n2
    ensures h1 == h2 && n1 == n2
  {
    var s1 := IntToString(h1);
    var s2 := IntToString(h2);
    assert HourPrefix(h1) + n1 == "hour_" + (s1 + "_" + n1);
    assert HourPrefix(h2) + n2 == "hour_" + (s2 + "_" + n2);
    assert s1 + "_" + n1 == s2 + "_" + n2 by {
      var t1 := s1 + "_" + n1;
      var t2 := s2 + "_" + n2;
      assert t1 == ("hour_" + t1)[5..] == ("hour_" + t2)[5..] == t2;
    }
    IntToStringChars(h1);
    IntToStringChars(h2);
    assert '_' !in s1 && '_' !in s2;
    UnderscoreSplit(s1, s2, n1, n2);
    IntToStringInjective(h1, h2);
  }

  /** The hour an entry contributes: its parsed hour when that lies in `[lo, hi)`. */
  function WindowHour(entry: Json, lo: int, hi: int): Option<int>
  {
    match EntryHour(entry)
    case Ok(h) => if lo <= h < hi then Some(h) else None
    case Err(_) => None
  }

  /** The hours the first `k` entries contribute. */
  function WindowHours(entries: seq<Json>, k: nat, lo: int, hi: int): (hours: set<int>)
    requires k <= |entries|
    ensures forall h :: h in hours ==> lo <= h < hi
  {
    if k == 0 then {}
    else
      var w := WindowHour(entries[k - 1], lo, hi);
      WindowHours(entries, k - 1, lo, hi) + (if w.Some? then {w.value} else {})
  }

  /** The keys `hour_{h}_{name}` for every hour in `hours` and every name in `fields`. */
  function HourKeys(hours: set<int>, fields: seq<FieldCopy>): set<string>
  {
    set h, f | h in hours && 0 <= f < |fields| :: HourPrefix(h) + fields[f].name
  }

  lemma HourKeysAdd(hours: set<int>, h: int, fields: seq<FieldCopy>)
    ensures HourKeys(hours + {h}, fields) == HourKeys(hours, fields) + AssignedKeys(HourPrefix(h), fields, |fields|)
  {
    forall key | key in HourKeys(hours + {h}, fields)
      ensures key in HourKeys(hours, fields) + AssignedKeys(HourPrefix(h), fields, |fields|)
    {
      var g, f :| g in hours + {h} && 0 <= f < |fields| && key == HourPrefix(g) + fields[f].name;
      if g == h {
        assert key in AssignedKeys(HourPrefix(h), fields, |fields|);
      } else {
        assert key in HourKeys(hours, fields);
      }
    }
  }

  /** An entry whose hour `h` lies in `[lo, hi)` adds the fifteen keys of `h`. */
  lemma AddHourKeys(acc: map<string, Json>, entry: Json, lo: int, hi: int, fields: seq<FieldCopy>, h: int, after: map<string, Json>)
    requires WindowHour(entry, lo, hi) == Some(h) && AddHour(acc, entry, lo, hi, fields) == Ok(after)
    ensures after.Keys == acc.Keys + AssignedKeys(HourPrefix(h), fields, |fields|)
  {
    var a := AssignFields(acc, entry, HourPrefix(h), fields);
    assert a.fault.None?;
    AssignFieldsFault(acc, entry, HourPrefix(h), fields);
    AssignFieldsKeys(acc, entry, HourPrefix(h), fields);
  }

  /** An entry outside the window leaves `relevant_data` as it was. */
  lemma AddHourSkips(acc: map<string, Json>, entry: Json, lo: int, hi: int, fields: seq<FieldCopy>, after: map<string, Json>)
    requires WindowHour(entry, lo, hi).None? && AddHour(acc, entry, lo, hi, fields) == Ok(after)
    ensures after == acc
  {
  }

  /** The keys after entry `k - 1` follow from the keys before it. */
  lemma HourlyKeysStep(entries: seq<Json>, k: nat, lo: int, hi: int, fields: seq<FieldCopy>)
    requires 0 < k <= |entries| && HourlyAfter(entries, k, lo, hi, fields).Ok?
    ensures HourlyAfter(entries, k, lo, hi, fields).value.Keys == HourKeys(WindowHours(entries, k, lo, hi), fields)
    decreases k, 0
  {
    assert HourlyAfter(entries, k - 1, lo, hi, fields).Ok?;
    HourlyKeys(entries, k - 1, lo, hi, fields);
    var before := HourlyAfter(entries, k - 1, lo, hi, fields).value;
    var after := HourlyAfter(entries, k, lo, hi, fields).value;
    assert AddHour(before, entries[k - 1], lo, hi, fields) == Ok(after);
    var hours := WindowHours(entries, k - 1, lo, hi);
    var w := WindowHour(entries[k - 1], lo, hi);
    if w.Some? {
      assert WindowHours(entries, k, lo, hi) == hours + {w.value};
      AddHourKeys(before, entries[k - 1], lo, hi, fields, w.value, after);
      HourKeysAdd(hours, w.value, fields);
    } else {
      assert WindowHours(entries, k, lo, hi) == hours;
      AddHourSkips(before, entries[k - 1], lo, hi, fields, after);
    }
  }

  /**
   * On success, the keys of `relevant_data` after `k` entries are exactly the
   * `hour_{h}_*` keys of the hours in the window: an entry adds keys if and
   * only if its hour lies in `[lo, hi)`.
   */
  lemma {:induction false} HourlyKeys(entries: seq<Json>, k: nat, lo: int, hi: int, fields: seq<FieldCopy>)
    requires k <= |entries|
    ensures HourlyAfter(entries, k, lo, hi, fields).Ok? ==>
      HourlyAfter(entries, k, lo, hi, fields).value.Keys == HourKeys(WindowHours(entries, k, lo, hi), fields)
    decreases k, 1
  {
    if k > 0 && HourlyAfter(entries, k, lo, hi, fields).Ok? {
      HourlyKeysStep(entries, k, lo, hi, fields);
    }
  }

  /** The hour each entry contributes, in entry order. */
  function HoursInWindow(entries: seq<Json>, lo: int, hi: int): seq<Option<int>>
  {
    seq(|entries|, j requires 0 <= j < |entries| => WindowHour(entries[j], lo, hi))
  }

  /** The latest of the first `k` entries that contributes hour `h`, given each entry's window hour. */
  function LastWith(hours: seq<Option<int>>, k: nat, h: int): (r: Option<nat>)
    requires k <= |hours|
    ensures r.Some? ==> r.value < k
  {
    if k == 0 then None
    else if hours[k - 1] == Some(h) then Some(k - 1)
    else LastWith(hours, k - 1, h)
  }

  /** `LastWith` finds an entry with hour `h` after which none of the first `k` has it, and finds none only when none has it. */
  lemma {:induction false} LastWithLatest(hours: seq<Option<int>>, k: nat, h: int)
    requires k <= |hours|
    ensures var r := LastWith(hours, k, h);
      && (r.Some? ==> hours[r.value] == Some(h) && forall j :: r.value < j < k ==> hours[j] != Some(h))
      && (r.None? ==> forall j :: 0 <= j < k ==> hours[j] != Some(h))
  {
    if k > 0 && hours[k - 1] != Some(h) {
      LastWithLatest(hours, k - 1, h);
    }
  }

  /** A key that another hour's assignments never write. */
  lemma OtherHourKey(h: int, g: int, f: nat, fields: seq<FieldCopy>)
    requires h != g && f < |fields|
    ensures HourPrefix(h) + fields[f].name !in AssignedKeys(HourPrefix(g), fields, |fields|)
  {
    if HourPrefix(h) + fields[f].name in AssignedKeys(HourPrefix(g), fields, |fields|) {
      var i :| 0 <= i < |fields| && HourPrefix(h) + fields[f].name == HourPrefix(g) + fields[i].name;
      HourKeyInjective(h, g, fields[f].name, fields[i].name);
    }
  }

  /** An entry that contributes hour `h` stores its own lookups under `hour_{h}_*`. */
  lemma AddHourStores(acc: map<string, Json>, entry: Json, lo: int, hi: int, fields: seq<FieldCopy>, h: int, f: nat,
                      m: map<string, Json>)
    requires DistinctNames(fields) && f < |fields|
    requires WindowHour(entry, lo, hi) == Some(h) && AddHour(acc, entry, lo, hi, fields) == Ok(m)
    ensures HourPrefix(h) + fields[f].name in m
    ensures Lookup(entry, fields[f].source) == Ok(m[HourPrefix(h) + fields[f].name])
  {
    var a := AssignFields(acc, entry, HourPrefix(h), fields);
    assert a.fault.None?;
    AssignFieldsFault(acc, entry, HourPrefix(h), fields);
    AssignFieldsValues(acc, entry, HourPrefix(h), fields, f);
  }

  /** An entry that does not contribute hour `h` leaves the `hour_{h}_*` keys as they were. */
  lemma AddHourKeeps(acc: map<string, Json>, entry: Json, lo: int, hi: int, fields: seq<FieldCopy>, h: int, f: nat,
                     m: map<string, Json>)
    requires f < |fields| && HourPrefix(h) + fields[f].name in acc
    requires WindowHour(entry, lo, hi) != Some(h) && AddHour(acc, entry, lo, hi, fields) == Ok(m)
    ensures HourPrefix(h) + fields[f].name in m && m[HourPrefix(h) + fields[f].name] == acc[HourPrefix(h) + fields[f].name]
  {
    var g := EntryHour(entry).value;
    if lo <= g < hi {
      var a := AssignFields(acc, entry, HourPrefix(g), fields);
      assert a.fault.None?;
      AssignFieldsFault(acc, entry, HourPrefix(g), fields);
      OtherHourKey(h, g, f, fields);
      AssignFieldsKeeps(acc, entry, HourPrefix(g), fields, HourPrefix(h) + fields[f].name);
    }
  }

  /**
   * When several entries carry the same hour, the latest one's values are the
   * ones left in `relevant_data`: each `hour_{h}_{name}` holds what that
   * entry's lookup produced.
   */
  lemma {:induction false} HourlyLastWins(entries: seq<Json>, k: nat, lo: int, hi: int, fields: seq<FieldCopy>, h: int, f: nat,
                                          m: map<string, Json>, last: nat)
    requires k <= |entries| && DistinctNames(fields) && f < |fields|
    requires HourlyAfter(entries, k, lo, hi, fields) == Ok(m) && LastWith(HoursInWindow(entries, lo, hi), k, h) == Some(last)
    ensures HourPrefix(h) + fields[f].name in m
    ensures Lookup(entries[last], fields[f].source) == Ok(m[HourPrefix(h) + fields[f].name])
    decreases k
  {
    var before := HourlyAfter(entries, k - 1, lo, hi, fields);
    assert before.Ok?;
    var entry := entries[k - 1];
    assert AddHour(before.value, entry, lo, hi, fields) == Ok(m);
    var hours := HoursInWindow(entries, lo, hi);
    assert hours[k - 1] == WindowHour(entry, lo, hi);
    if hours[k - 1] == Some(h) {
      AddHourStores(before.value, entry, lo, hi, fields, h, f, m);
    } else {
      HourlyLastWins(entries, k - 1, lo, hi, fields, h, f, before.value, last);
      AddHourKeeps(before.value, entry, lo, hi, fields, h, f, m);
    }
  }

  // The merged result

  /** Keys of hours in disjoint sets of hours are disjoint. */
  lemma HourKeysDisjoint(a: set<int>, b: set<int>, fields: seq<FieldCopy>)
    requires a !! b
    ensures HourKeys(a, fields) !! HourKeys(b, fields)
  {
    forall key | key in HourKeys(a, fields) && key in HourKeys(b, fields)
      ensures false
    {
      var h1, f1 :| h1 in a && 0 <= f1 < |fields| && key == HourPrefix(h1) + fields[f1].name;
      var h2, f2 :| h2 in b && 0 <= f2 < |fields| && key == HourPrefix(h2) + fields[f2].name;
      HourKeyInjective(h1, h2, fields[f1].name, fields[f2].name);
    }
  }

  /** The keys `get_hourly_forecast_data` returns are those of the window's hours. */
  lemma HourlyForecastKeys(hourlyData: Json, lo: int, hi: int)
    requires HourlyForecast(hourlyData, lo, hi).Ok?
    ensures var entries := Iterate(hourlyData).value;
      HourlyForecast(hourlyData, lo, hi).value.Keys == HourKeys(WindowHours(entries, |entries|, lo, hi), HourlyFields)
  {
    var entries := Iterate(hourlyData).value;
    HourlyKeys(entries, |entries|, lo, hi, HourlyFields);
  }

  /**
   * The evening of day 0 (hours 19 to 23) and the morning of day 1 (hours 0
   * to 7) write disjoint keys, so `update` with the morning keeps every
   * evening value.
   */
  lemma EveningMorningDisjoint(current: Json, next: Json)
    requires HourlyForecast(current, 19, 24).Ok? && HourlyForecast(next, 0, 8).Ok?
    ensures var evening := HourlyForecast(current, 19, 24).value;
      var morning := HourlyForecast(next, 0, 8).value;
      && evening.Keys !! morning.Keys
      && forall key :: key in evening ==> key in evening + morning && (evening + morning)[key] == evening[key]
  {
    HourlyForecastKeys(current, 19, 24);
    HourlyForecastKeys(next, 0, 8);
    var e := Iterate(current).value;
    var m := Iterate(next).value;
    HourKeysDisjoint(WindowHours(e, |e|, 19, 24), WindowHours(m, |m|, 0, 8), HourlyFields);
  }

  /** Every hour key starts with `hour_`, so none is a `weather_alert_*` key. */
  lemma NoAlertKeyInHours(hours: set<int>, fields: seq<FieldCopy>, name: string)
    ensures AlertPrefix + name !in HourKeys(hours, fields)
  {
    forall key | key in HourKeys(hours, fields)
      ensures key != [] && key[0] == 'h'
    {
      var h, f :| h in hours && 0 <= f < |fields| && key == HourPrefix(h) + fields[f].name;
      assert key[..5] == "hour_";
    }
    assert (AlertPrefix + name)[0] == 'w';
  }

  /**
   * A `weather_alert_*` key is in the result only when `'alerts'` is present
   * and its `'alert'` list is non-empty, the first alert being the one copied.
   */
  lemma AlertKeysNeedAlert(forecast: Json, name: string)
    requires RelevantHourly(forecast).Ok? && AlertPrefix + name in RelevantHourly(forecast).value
    ensures FirstAlert(forecast).Ok? && FirstAlert(forecast).value.Some?
  {
    var key := AlertPrefix + name;
    var current := HourlyDay(forecast, 0).value;
    var evening := HourlyForecast(current, 19, 24).value;
    HourlyForecastKeys(current, 19, 24);
    var e := Iterate(current).value;
    NoAlertKeyInHours(WindowHours(e, |e|, 19, 24), HourlyFields, name);
    var next := HourlyDay(forecast, 1).value;
    var morning := HourlyForecast(next, 0, 8).value;
    HourlyForecastKeys(next, 0, 8);
    var m := Iterate(next).value;
    NoAlertKeyInHours(WindowHours(m, |m|, 0, 8), HourlyFields, name);
    assert RelevantRun(forecast) == AlertStep(map[] + evening + morning, forecast);
  }

  /**
   * With both days' hours extracted and a first alert present, each alert
   * field up to the first missing one is stored, with the alert's value.
   */
  lemma AlertValuesStored(forecast: Json, first: Json, k: nat)
    requires FirstAlert(forecast) == Ok(Some(first))
    requires k < Succeeding(first, AlertFields)
    requires HourlyDay(forecast, 0).Ok? && HourlyForecast(HourlyDay(forecast, 0).value, 19, 24).Ok?
    requires HourlyDay(forecast, 1).Ok? && HourlyForecast(HourlyDay(forecast, 1).value, 0, 8).Ok?
    ensures RelevantHourly(forecast).Ok?
    ensures var key := AlertPrefix + AlertFields[k].name;
      key in RelevantHourly(forecast).value && RelevantHourly(forecast).value[key] == Lookup(first, AlertFields[k].source).value
  {
    var evening := HourlyForecast(HourlyDay(forecast, 0).value, 19, 24).value;
    var morning := HourlyForecast(HourlyDay(forecast, 1).value, 0, 8).value;
    var data := map[] + evening + morning;
    var a := AssignFields(data, first, AlertPrefix, AlertFields);
    assert RelevantRun(forecast) == a;
    AlertAssignStores(data, first, k);
    assert RelevantHourly(forecast) == Ok(a.data);
  }

  /** Copying the alert's fields raises at most a `KeyError`, and stores field `k` when the lookups reach it. */
  lemma AlertAssignStores(data: map<string, Json>, first: Json, k: nat)
    requires k < Succeeding(first, AlertFields)
    ensures var a := AssignFields(data, first, AlertPrefix, AlertFields);
      var key := AlertPrefix + AlertFields[k].name;
      && (a.fault.Some? ==> a.fault.value == KeyError)
      && key in a.data && a.data[key] == Lookup(first, AlertFields[k].source).value
  {
    var a := AssignFields(data, first, AlertPrefix, AlertFields);
    AssignFieldsFault(data, first, AlertPrefix, AlertFields);
    assert Lookup(first, AlertFields[0].source).Ok?;
    assert first.JObject?;
    AlertFieldsDistinct();
    AssignFieldsValues(data, first, AlertPrefix, AlertFields, k);
  }

  /** The five alert names have five different lengths. */
  lemma AlertFieldsDistinct()
    ensures DistinctNames(AlertFields)
  {
    assert forall i :: 0 <= i < 5 ==> |AlertFields[i].name| == [5, 8, 9, 7, 4][i];
  }

  /** A `KeyError` while reading or extracting day 0 leaves nothing: `{}` is returned. */
  lemma EveningKeyErrorGivesEmpty(forecast: Json)
    requires HourlyDay(forecast, 0) == Err(KeyError)
      || (HourlyDay(forecast, 0).Ok? && HourlyForecast(HourlyDay(forecast, 0).value, 19, 24) == Err(KeyError))
    ensures RelevantHourly(forecast) == Ok(map[])
  {
  }

  /**
   * A `KeyError` while reading or extracting day 1 drops all of day 1's
   * hours: exactly day 0's evening is returned.
   */
  lemma MorningKeyErrorKeepsEvening(forecast: Json)
    requires HourlyDay(forecast, 0).Ok? && HourlyForecast(HourlyDay(forecast, 0).value, 19, 24).Ok?
    requires HourlyDay(forecast, 1) == Err(KeyError)
      || (HourlyDay(forecast, 1).Ok? && HourlyForecast(HourlyDay(forecast, 1).value, 0, 8) == Err(KeyError))
    ensures RelevantHourly(forecast) == Ok(HourlyForecast(HourlyDay(forecast, 0).value, 19, 24).value)
  {
    var evening := HourlyForecast(HourlyDay(forecast, 0).value, 19, 24).value;
    assert map[] + evening == evening;
  }

  // One hour

  lemma HourlyFieldsDistinct()
    ensures DistinctNames(HourlyFields) && |HourlyFields| == 15
  {
    HourlyNameShapes();
  }

  /** The name lengths, and the characters that tell apart the names of equal length. */
  lemma HourlyNameShapes()
    ensures |HourlyFields| == 15
    ensures forall i :: 0 <= i < 15 ==> |HourlyFields[i].name| == [6, 14, 14, 8, 16, 7, 8, 5, 11, 11, 11, 10, 8, 2, 9][i]
    ensures HourlyFields[1].name[10] == 's' && HourlyFields[2].name[10] == 'r'
    ensures HourlyFields[3].name[0] == 'w' && HourlyFields[6].name[0] == 'h' && HourlyFields[12].name[0] == 'g'
    ensures HourlyFields[8].name[0] == 'p' && HourlyFields[9].name[0] == 'f' && HourlyFields[10].name[0] == 'w'
  {
  }

  /** An hour in the window writes fifteen distinct `hour_{h}_*` keys. */
  lemma HourWritesFifteenKeys(h: int)
    ensures |AssignedKeys(HourPrefix(h), HourlyFields, |HourlyFields|)| == 15
  {
    HourlyFieldsDistinct();
    AssignedKeysSize(HourPrefix(h), HourlyFields, |HourlyFields|);
  }

  /**
   * Of the fourteen top-level lookups of an hour entry (a dict), only
   * `snow_cm` has a default (`0`); each other one raises `KeyError` exactly
   * when its key is missing.
   */
  lemma HourFieldLookups(entry: map<string, Json>, f: nat)
    requires f < 14
    ensures var source := HourlyFields[f].source;
      var r := Lookup(JObject(entry), source);
      && (f == 5 ==> r == Ok(if "snow_cm" in entry then entry["snow_cm"] else JNumber("0")))
      && (f != 5 ==> source.Field? && (r.Err? <==> source.key !in entry) && (r.Err? ==> r.fault == KeyError))
  {
  }
}
