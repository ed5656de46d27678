/**
 * The day-level extraction of weather_data.py: eight fields of forecast day
 * 0 and eight of forecast day 1 are copied, one assignment at a time, into
 * `weather_data`; a `KeyError` ends the copying and what was assigned so far
 * is returned, while any other exception leaves the function.
 */
module DailyWeather {
  import opened Wrappers
  import opened JsonValues

  /** The eight assignments per day, in program order: stored name and where its value comes from. */
  const DayFields: seq<FieldCopy> := [
    FieldCopy("mintemp_f", Field("mintemp_f")),
    FieldCopy("maxtemp_f", Field("maxtemp_f")),
    FieldCopy("maxwind_mph", Field("maxwind_mph")),
    FieldCopy("totalprecip_in", Field("totalprecip_in")),
    FieldCopy("daily_chance_of_snow", Field("daily_chance_of_snow")),
    FieldCopy("daily_chance_of_rain", Field("daily_chance_of_rain")),
    FieldCopy("daily_avghumidity", Field("avghumidity")),
    FieldCopy("conditions", Nested("condition", "text"))
  ]

  const CurrentPrefix: string := "current_day_"
  const NextPrefix: string := "next_day_"

  /** `forecast_data['forecast']['forecastday'][i]['day']`. */
  function ForecastDay(forecast: Json, i: nat): Result<Json>
  {
    var f :- Get(forecast, "forecast");
    var days :- Get(f, "forecastday");
    var day :- At(days, i);
    Get(day, "day")
  }

  /**
   * Two runs of the same assignments into one dict, the first under prefix
   * `p1` on `day0`, the second under `p2` on `day1`, each day being the
   * result of looking it up; the second day is consulted only when the first
   * run completed. A `KeyError` anywhere returns what was assigned so far.
   */
  function TwoDays(day0: Result<Json>, day1: Result<Json>, fields: seq<FieldCopy>, p1: string, p2: string): Result<map<string, Json>>
  {
    match day0
    case Err(fault) => Caught(map[], fault)
    case Ok(current) =>
      var a := AssignFields(map[], current, p1, fields);
      if a.fault.Some? then Caught(a.data, a.fault.value)
      else
        match day1
        case Err(fault) => Caught(a.data, fault)
        case Ok(next) =>
          var b := AssignFields(a.data, next, p2, fields);
          if b.fault.Some? then Caught(b.data, b.fault.value) else Ok(b.data)
  }

  /** What `get_relevant_weather_information` returns, or the exception it raises. */
  function RelevantDaily(forecast: Json): Result<map<string, Json>>
  {
    TwoDays(ForecastDay(forecast, 0), ForecastDay(forecast, 1), DayFields, CurrentPrefix, NextPrefix)
  }

  /** `get_relevant_weather_information(forecast_data)`. */
  method GetRelevantWeatherInformation(forecastData: Json) returns (r: Result<map<string, Json>>)
    ensures r == RelevantDaily(forecastData)
    ensures r.Err? ==> r.fault != KeyError
  {
    var weatherData: map<string, Json> := map[];
    var currentDay := ForecastDay(forecastData, 0);
    if currentDay.Err? {
      return Caught(weatherData, currentDay.fault);
    }
    var a := AssignDay(weatherData, currentDay.value, CurrentPrefix);
    weatherData := a.data;
    if a.fault.Some? {
      return Caught(weatherData, a.fault.value);
    }
    var nextDay := ForecastDay(forecastData, 1);
    if nextDay.Err? {
      return Caught(weatherData, nextDay.fault);
    }
    a := AssignDay(weatherData, nextDay.value, NextPrefix);
    weatherData := a.data;
    if a.fault.Some? {
      return Caught(weatherData, a.fault.value);
    }
    return Ok(weatherData);
  }

  /** The eight assignments for one day (`current_day = ...` or `next_day = ...`), stopping at the first that raises. */
  method AssignDay(weatherData: map<string, Json>, day: Json, prefix: string) returns (a: Assigned)
    ensures a == AssignFields(weatherData, day, prefix, DayFields)
  {
    ghost var goal := AssignFields(weatherData, day, prefix, DayFields);
    AssignFromSlice(weatherData, day, prefix, DayFields, 0);
    assert DayFields[0..] == DayFields;
    var data := weatherData;
    var v := Get(day, "mintemp_f");
    if v.Err? { return Assigned(data, Some(v.fault)); }
    data := data[prefix + "mintemp_f" := v.value];
    assert goal == AssignFrom(data, day, prefix, DayFields, 1);
    v := Get(day, "maxtemp_f");
    if v.Err? { return Assigned(data, Some(v.fault)); }
    data := data[prefix + "maxtemp_f" := v.value];
    assert goal == AssignFrom(data, day, prefix, DayFields, 2);
    v := Get(day, "maxwind_mph");
    if v.Err? { return Assigned(data, Some(v.fault)); }
    data := data[prefix + "maxwind_mph" := v.value];
    assert goal == AssignFrom(data, day, prefix, DayFields, 3);
    v := Get(day, "totalprecip_in");
    if v.Err? { return Assigned(data, Some(v.fault)); }
    data := data[prefix + "totalprecip_in" := v.value];
    assert goal == AssignFrom(data, day, prefix, DayFields, 4);
    v := Get(day, "daily_chance_of_snow");
    if v.Err? { return Assigned(data, Some(v.fault)); }
    data := data[prefix + "daily_chance_of_snow" := v.value];
    assert goal == AssignFrom(data, day, prefix, DayFields, 5);
    v := Get(day, "daily_chance_of_rain");
    if v.Err? { return Assigned(data, Some(v.fault)); }
    data := data[prefix + "daily_chance_of_rain" := v.value];
    assert goal == AssignFrom(data, day, prefix, DayFields, 6);
    v := Get(day, "avghumidity");
    if v.Err? { return Assigned(data, Some(v.fault)); }
    data := data[prefix + "daily_avghumidity" := v.value];
    assert goal == AssignFrom(data, day, prefix, DayFields, 7);
    var condition := Get(day, "condition");
    if condition.Err? { return Assigned(data, Some(condition.fault)); }
    v := Get(condition.value, "text");
    if v.Err? { return Assigned(data, Some(v.fault)); }
    data := data[prefix + "conditions" := v.value];
    assert goal == AssignFrom(data, day, prefix, DayFields, 8);
    return Assigned(data, None);
  }

  /** The keys two runs of `fields` under `p1` then `p2` write, in the order they are written. */
  function TwoRunKeys(fields: seq<FieldCopy>, p1: string, p2: string): (r: seq<string>)
    ensures |r| == 2 * |fields|
    ensures forall k :: 0 <= k < |fields| ==> r[k] == p1 + fields[k].name
    ensures forall k :: |fields| <= k < 2 * |fields| ==> r[k] == p2 + fields[k - |fields|].name
  {
    seq(2 * |fields|, k requires 0 <= k < 2 * |fields| =>
      if k < |fields| then p1 + fields[k].name else p2 + fields[k - |fields|].name)
  }

  /** How many assignments of the two runs are made before the first exception. */
  function TwoRunStored(day0: Result<Json>, day1: Result<Json>, fields: seq<FieldCopy>): (n: nat)
    ensures n <= 2 * |fields|
  {
    match day0
    case Err(_) => 0
    case Ok(current) =>
      var n0 := Succeeding(current, fields);
      if n0 < |fields| then n0
      else
        match day1
        case Err(_) => |fields|
        case Ok(next) => |fields| + Succeeding(next, fields)
  }

  /** Two prefixes that differ in their first character: no key written under one is written under the other. */
  predicate SeparatePrefixes(p1: string, p2: string)
  {
    p1 != [] && p2 != [] && p1[0] != p2[0]
  }

  lemma DayFieldsDistinct()
    ensures DistinctNames(DayFields)
  {
  }

  /** The keys two runs write are pairwise different. */
  lemma TwoRunKeysDistinct(fields: seq<FieldCopy>, p1: string, p2: string, i: nat, j: nat)
    requires DistinctNames(fields) && SeparatePrefixes(p1, p2)
    requires i < j < 2 * |fields|
    ensures TwoRunKeys(fields, p1, p2)[i] != TwoRunKeys(fields, p1, p2)[j]
  {
    var keys := TwoRunKeys(fields, p1, p2);
    var w := |fields|;
    if j < w {
      PrefixedNamesDistinct(p1, fields, i, j);
    } else if i >= w {
      PrefixedNamesDistinct(p2, fields, i - w, j - w);
    } else {
      assert keys[i][0] == p1[0] && keys[j][0] == p2[0];
    }
  }

  /**
   * `m` holds the first `n` keys of the two runs, in the order they are
   * written, each with the value copied from its day.
   */
  predicate KeysInOrder(m: map<string, Json>, n: nat, day0: Result<Json>, day1: Result<Json>,
                        fields: seq<FieldCopy>, p1: string, p2: string)
  {
    && n <= 2 * |fields|
    && m.Keys == (set k | 0 <= k < n :: TwoRunKeys(fields, p1, p2)[k])
    && (n > 0 ==> day0.Ok? && forall k :: 0 <= k < n && k < |fields| ==>
          p1 + fields[k].name in m && Lookup(day0.value, fields[k].source) == Ok(m[p1 + fields[k].name]))
    && (n > |fields| ==> day1.Ok? && forall k :: 0 <= k < n - |fields| ==>
          p2 + fields[k].name in m && Lookup(day1.value, fields[k].source) == Ok(m[p2 + fields[k].name]))
  }

  /**
   * When the two runs return, the dict holds the first `TwoRunStored` keys, in
   * the order they are written, each with the value copied from its day: what
   * is present depends only on where the first missing key was met.
   */
  lemma TwoDaysKeysInOrder(day0: Result<Json>, day1: Result<Json>, fields: seq<FieldCopy>, p1: string, p2: string)
    requires DistinctNames(fields) && SeparatePrefixes(p1, p2)
    requires TwoDays(day0, day1, fields, p1, p2).Ok?
    ensures KeysInOrder(TwoDays(day0, day1, fields, p1, p2).value, TwoRunStored(day0, day1, fields), day0, day1, fields, p1, p2)
  {
    match day0
    case Err(_) =>
      assert KeysInOrder(map[], 0, day0, day1, fields, p1, p2);
    case Ok(current) =>
      AssignFieldsFault(map[], current, p1, fields);
      var a := AssignFields(map[], current, p1, fields);
      if a.fault.Some? || day1.Err? {
        FirstRunInOrder(current, day1, fields, p1, p2);
      } else {
        BothRunsInOrder(current, day1.value, fields, p1, p2);
      }
  }

  /** The first run alone leaves its `Succeeding` keys in order. */
  lemma FirstRunInOrder(current: Json, day1: Result<Json>, fields: seq<FieldCopy>, p1: string, p2: string)
    requires DistinctNames(fields)
    ensures KeysInOrder(AssignFields(map[], current, p1, fields).data, Succeeding(current, fields), Ok(current), day1, fields, p1, p2)
  {
    FirstRunStore(current, fields, p1, p2);
  }

  /** A complete first run followed by the second leaves the keys of both in order. */
  lemma BothRunsInOrder(current: Json, next: Json, fields: seq<FieldCopy>, p1: string, p2: string)
    requires DistinctNames(fields) && SeparatePrefixes(p1, p2)
    requires AssignFields(map[], current, p1, fields).fault.None?
    ensures var a := AssignFields(map[], current, p1, fields);
      KeysInOrder(AssignFields(a.data, next, p2, fields).data, |fields| + Succeeding(next, fields), Ok(current), Ok(next), fields, p1, p2)
  {
    var a := AssignFields(map[], current, p1, fields);
    AssignFieldsFault(map[], current, p1, fields);
    FirstRunStore(current, fields, p1, p2);
    SecondRunStore(a.data, next, fields, p1, p2);
  }

  /** The first run stores the first `Succeeding` keys, with the first day's values. */
  lemma FirstRunStore(current: Json, fields: seq<FieldCopy>, p1: string, p2: string)
    requires DistinctNames(fields)
    ensures var a := AssignFields(map[], current, p1, fields);
      var n0 := Succeeding(current, fields);
      var keys := TwoRunKeys(fields, p1, p2);
      && a.data.Keys == (set k | 0 <= k < n0 :: keys[k])
      && forall k :: 0 <= k < n0 ==>
           var key := p1 + fields[k].name;
           key in a.data && a.data[key] == Lookup(current, fields[k].source).value
  {
    var n0 := Succeeding(current, fields);
    var keys := TwoRunKeys(fields, p1, p2);
    AssignFieldsKeys(map[], current, p1, fields);
    assert AssignedKeys(p1, fields, n0) == (set k | 0 <= k < n0 :: keys[k]);
    forall k | 0 <= k < n0
      ensures var key := p1 + fields[k].name;
        key in AssignFields(map[], current, p1, fields).data
        && AssignFields(map[], current, p1, fields).data[key] == Lookup(current, fields[k].source).value
    {
      AssignFieldsValues(map[], current, p1, fields, k);
    }
  }

  /** After a complete first run, the second adds its keys and keeps the first run's values. */
  lemma SecondRunStore(data: map<string, Json>, next: Json, fields: seq<FieldCopy>, p1: string, p2: string)
    requires DistinctNames(fields) && SeparatePrefixes(p1, p2)
    requires data.Keys == (set k | 0 <= k < |fields| :: TwoRunKeys(fields, p1, p2)[k])
    ensures var b := AssignFields(data, next, p2, fields);
      var n1 := Succeeding(next, fields);
      var keys := TwoRunKeys(fields, p1, p2);
      && b.data.Keys == (set k | 0 <= k < |fields| + n1 :: keys[k])
      && (forall key :: key in data ==> key in b.data && b.data[key] == data[key])
      && (forall k :: 0 <= k < n1 ==>
            var key := p2 + fields[k].name;
            key in b.data && b.data[key] == Lookup(next, fields[k].source).value)
  {
    SecondRunKeys(data, next, fields, p1, p2);
    SecondRunKeeps(data, next, fields, p1, p2);
    var b := AssignFields(data, next, p2, fields);
    forall k | 0 <= k < Succeeding(next, fields)
      ensures p2 + fields[k].name in b.data && b.data[p2 + fields[k].name] == Lookup(next, fields[k].source).value
    {
      AssignFieldsValues(data, next, p2, fields, k);
    }
  }

  lemma SecondRunKeys(data: map<string, Json>, next: Json, fields: seq<FieldCopy>, p1: string, p2: string)
    requires data.Keys == (set k | 0 <= k < |fields| :: TwoRunKeys(fields, p1, p2)[k])
    ensures AssignFields(data, next, p2, fields).data.Keys
            == (set k | 0 <= k < |fields| + Succeeding(next, fields) :: TwoRunKeys(fields, p1, p2)[k])
  {
    AssignFieldsKeys(data, next, p2, fields);
    SecondRunNames(fields, p1, p2, Succeeding(next, fields));
  }

  /** The names the second run writes are the keys after the first run's, in `TwoRunKeys`. */
  lemma SecondRunNames(fields: seq<FieldCopy>, p1: string, p2: string, n1: nat)
    requires n1 <= |fields|
    ensures var w := |fields|;
      AssignedKeys(p2, fields, n1) == (set k | w <= k < w + n1 :: TwoRunKeys(fields, p1, p2)[k])
  {
    var w := |fields|;
    var keys := TwoRunKeys(fields, p1, p2);
    forall key | key in AssignedKeys(p2, fields, n1)
      ensures key in (set k | w <= k < w + n1 :: keys[k])
    {
      var k :| 0 <= k < n1 && key == p2 + fields[k].name;
      assert key == keys[k + w];
    }
  }

  lemma SecondRunKeeps(data: map<string, Json>, next: Json, fields: seq<FieldCopy>, p1: string, p2: string)
    requires SeparatePrefixes(p1, p2)
    requires data.Keys == (set k | 0 <= k < |fields| :: TwoRunKeys(fields, p1, p2)[k])
    ensures var b := AssignFields(data, next, p2, fields);
      forall key :: key in data ==> key in b.data && b.data[key] == data[key]
  {
    var n1 := Succeeding(next, fields);
    var keys := TwoRunKeys(fields, p1, p2);
    forall key | key in data
      ensures key in AssignFields(data, next, p2, fields).data && AssignFields(data, next, p2, fields).data[key] == data[key]
    {
      var k :| 0 <= k < |fields| && key == keys[k];
      assert key[0] == p1[0];
      assert key !in AssignedKeys(p2, fields, n1);
      AssignFieldsKeeps(data, next, p2, fields, key);
    }
  }

  /** The first `n` keys of a list with no repeats make a set of `n` keys. */
  lemma {:induction false} PrefixSetSize(keys: seq<string>, n: nat)
    requires n <= |keys|
    requires forall i, j :: 0 <= i < j < |keys| ==> keys[i] != keys[j]
    ensures |set k | 0 <= k < n :: keys[k]| == n
  {
    if n > 0 {
      PrefixSetSize(keys, n - 1);
      assert (set k | 0 <= k < n :: keys[k]) == (set k | 0 <= k < n - 1 :: keys[k]) + {keys[n - 1]};
      assert keys[n - 1] !in (set k | 0 <= k < n - 1 :: keys[k]);
    }
  }

  /** The two runs leave `2 * |fields|` keys exactly when no lookup failed. */
  lemma TwoDaysComplete(day0: Result<Json>, day1: Result<Json>, fields: seq<FieldCopy>, p1: string, p2: string)
    requires fields != [] && DistinctNames(fields) && SeparatePrefixes(p1, p2)
    ensures var r := TwoDays(day0, day1, fields, p1, p2);
      TwoRunStored(day0, day1, fields) == 2 * |fields| <==> r.Ok? && |r.value| == 2 * |fields|
  {
    var keys := TwoRunKeys(fields, p1, p2);
    forall i, j | 0 <= i < j < |keys|
      ensures keys[i] != keys[j]
    {
      TwoRunKeysDistinct(fields, p1, p2, i, j);
    }
    var r := TwoDays(day0, day1, fields, p1, p2);
    var n := TwoRunStored(day0, day1, fields);
    if r.Ok? {
      TwoDaysKeysInOrder(day0, day1, fields, p1, p2);
      PrefixSetSize(keys, n);
      assert |r.value| == |r.value.Keys|;
    }
    if n == 2 * |fields| {
      match day0
      case Ok(current) =>
        AssignFieldsFault(map[], current, p1, fields);
        var a := AssignFields(map[], current, p1, fields);
        match day1
        case Ok(next) =>
          AssignFieldsFault(a.data, next, p2, fields);
    }
  }

  /** A key of the second run in the result means every key of the first run is there too. */
  lemma SecondDayImpliesFirstDay(day0: Result<Json>, day1: Result<Json>, fields: seq<FieldCopy>, p1: string, p2: string, j: nat)
    requires DistinctNames(fields) && SeparatePrefixes(p1, p2)
    requires TwoDays(day0, day1, fields, p1, p2).Ok? && j < |fields|
    requires p2 + fields[j].name in TwoDays(day0, day1, fields, p1, p2).value
    ensures forall k :: 0 <= k < |fields| ==> p1 + fields[k].name in TwoDays(day0, day1, fields, p1, p2).value
  {
    TwoDaysKeysInOrder(day0, day1, fields, p1, p2);
    var keys := TwoRunKeys(fields, p1, p2);
    var n := TwoRunStored(day0, day1, fields);
    var key := p2 + fields[j].name;
    var i :| 0 <= i < n && key == keys[i];
    assert key[0] == p2[0];
    assert i >= |fields|;
    forall k | 0 <= k < |fields|
      ensures p1 + fields[k].name in TwoDays(day0, day1, fields, p1, p2).value
    {
      assert p1 + fields[k].name == keys[k];
    }
  }

  /** On success `get_relevant_weather_information` returns exactly sixteen keys, and sixteen only when nothing was missing. */
  lemma DailySixteenKeys(forecast: Json)
    ensures var r := RelevantDaily(forecast);
      TwoRunStored(ForecastDay(forecast, 0), ForecastDay(forecast, 1), DayFields) == 16 <==> r.Ok? && |r.value| == 16
  {
    DayFieldsDistinct();
    TwoDaysComplete(ForecastDay(forecast, 0), ForecastDay(forecast, 1), DayFields, CurrentPrefix, NextPrefix);
  }

  /**
   * `get_relevant_weather_information` keeps the first keys of its sixteen
   * assignments, in program order, each with the value read for it.
   */
  lemma DailyKeysInOrder(forecast: Json)
    requires RelevantDaily(forecast).Ok?
    ensures var day0 := ForecastDay(forecast, 0); var day1 := ForecastDay(forecast, 1);
      KeysInOrder(RelevantDaily(forecast).value, TwoRunStored(day0, day1, DayFields), day0, day1, DayFields, CurrentPrefix, NextPrefix)
  {
    DayFieldsDistinct();
    TwoDaysKeysInOrder(ForecastDay(forecast, 0), ForecastDay(forecast, 1), DayFields, CurrentPrefix, NextPrefix);
  }

  /** Any `next_day_*` key in the result means all eight `current_day_*` keys are there. */
  lemma DailyNextImpliesCurrent(forecast: Json, j: nat)
    requires RelevantDaily(forecast).Ok? && j < |DayFields|
    requires NextPrefix + DayFields[j].name in RelevantDaily(forecast).value
    ensures forall k :: 0 <= k < |DayFields| ==> CurrentPrefix + DayFields[k].name in RelevantDaily(forecast).value
  {
    DayFieldsDistinct();
    SecondDayImpliesFirstDay(ForecastDay(forecast, 0), ForecastDay(forecast, 1), DayFields, CurrentPrefix, NextPrefix, j);
  }
}
