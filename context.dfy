/**
 * The weather report the route receives from the One Call service and
 * `extractRelevantWeatherData`, which cuts it down to the part an intent needs.
 *
 * Dates and times reach the model already formatted (`toLocaleDateString` and friends), and
 * numbers carry the text JavaScript renders for them; quantities the source derives with
 * floating-point arithmetic (visibility / 1000, pop * 100) are given with the report.
 */
module Context {

  import opened Wrappers
  import opened Js
  import opened Intent
  import opened Lookup

  // ---------------------------------------------------------------- the report

  /** The location object of the request, as far as the report reads it. */
  datatype Place = Place(city: Value, country: Value)

  datatype CurrentObs = CurrentObs(
    temp: Number,
    description: string,
    feelsLike: Number,
    humidity: Number,
    windSpeed: Number,
    windDeg: real,
    uvi: Option<Number>,      // `current.uvi`, absent (undefined) or a number
    aqi: Option<Number>,      // `current.aqi`
    visibilityKm: Number,     // `current.visibility / 1000`
    pressure: Number,
    dewPoint: Number,
    clouds: Number)

  datatype DailyObs = DailyObs(
    date: string,
    max: Number,
    min: Number,
    description: string,
    humidity: Number,
    windSpeed: Number,
    sunrise: string,
    sunset: string,
    moonPhase: real)

  datatype HourlyObs = HourlyObs(
    time: string,
    temp: Number,
    description: string,
    popPercent: Number)       // `hour.pop * 100`

  datatype AlertObs = AlertObs(event: string, description: string, start: string, end: string)

  /**
   * The report `POST` hands to the analysis: the One Call data plus `location`. The daily and
   * hourly forecasts are `None` when the response lacks them.
   */
  datatype Report = Report(
    current: CurrentObs,
    daily: Option<seq<DailyObs>>,
    hourly: Option<seq<HourlyObs>>,
    alerts: seq<AlertObs>,
    place: Place)

  // ---------------------------------------------------------------- details

  /**
   * The `details` object: its entries in insertion order, which is the order
   * `Object.entries` lists them in.
   */
  type Details = seq<(string, Value)>

  /** `details[key]`, `None` when the key was never set. */
  function DetailOf(ds: Details, key: string): Option<Value>
    decreases |ds|
  {
    if |ds| == 0 then None
    else if ds[0].0 == key then Some(ds[0].1)
    else DetailOf(ds[1..], key)
  }

  /** The keys of the details, in order. */
  function Keys(ds: Details): (ks: seq<string>)
    ensures |ks| == |ds|
    ensures forall i :: 0 <= i < |ds| ==> ks[i] == ds[i].0
  {
    seq(|ds|, i requires 0 <= i < |ds| => ds[i].0)
  }

  predicate DistinctKeys(ds: Details)
  {
    forall i, j :: 0 <= i < j < |ds| ==> ds[i].0 != ds[j].0
  }

  /**
   * `details[key] = v`: an existing key keeps its position and takes the new value, a new key
   * goes last.
   */
  function Put(ds: Details, key: string, v: Value): (r: Details)
    decreases |ds|
  {
    if |ds| == 0 then [(key, v)]
    else if ds[0].0 == key then [(key, v)] + ds[1..]
    else [ds[0]] + Put(ds[1..], key, v)
  }

  /** After `details[key] = v`, reading `key` gives `v`. */
  lemma {:induction false} PutThenRead(ds: Details, key: string, v: Value)
    ensures DetailOf(Put(ds, key, v), key) == Some(v)
    decreases |ds|
  {
    if |ds| > 0 && ds[0].0 != key {
      PutThenRead(ds[1..], key, v);
    }
  }

  /** Setting one key leaves every other key as it was. */
  lemma {:induction false} PutLeavesOthers(ds: Details, key: string, v: Value, other: string)
    requires other != key
    ensures DetailOf(Put(ds, key, v), other) == DetailOf(ds, other)
    decreases |ds|
  {
    if |ds| > 0 && ds[0].0 != key {
      PutLeavesOthers(ds[1..], key, v, other);
    }
  }

  /** The keys of an entry put in front of others. */
  lemma KeysCons(e: (string, Value), ds: Details)
    ensures Keys([e] + ds) == [e.0] + Keys(ds)
  {
  }

  /** The insertion order: a known key stays where it is, a new key is appended. */
  lemma {:induction false} PutKeys(ds: Details, key: string, v: Value)
    ensures Keys(Put(ds, key, v)) == if key in Keys(ds) then Keys(ds) else Keys(ds) + [key]
    decreases |ds|
  {
    if |ds| > 0 {
      assert ds == [ds[0]] + ds[1..];
      KeysCons(ds[0], ds[1..]);
      if ds[0].0 != key {
        PutKeys(ds[1..], key, v);
        KeysCons(ds[0], Put(ds[1..], key, v));
      } else {
        KeysCons((key, v), ds[1..]);
      }
    }
  }

  /** No key is ever listed twice. */
  lemma {:induction false} PutKeepsKeysDistinct(ds: Details, key: string, v: Value)
    requires DistinctKeys(ds)
    ensures DistinctKeys(Put(ds, key, v))
    decreases |ds|
  {
    if |ds| > 0 && ds[0].0 != key {
      var p := Put(ds[1..], key, v);
      PutKeepsKeysDistinct(ds[1..], key, v);
      PutKeys(ds[1..], key, v);
      assert ds[0].0 !in Keys(ds[1..]);
      assert ds[0].0 !in Keys(p);
      var r := [ds[0]] + p;
      assert Put(ds, key, v) == r;
      forall i, j | 0 <= i < j < |r|
        ensures r[i].0 != r[j].0
      {
        if i == 0 {
          assert r[j].0 == Keys(p)[j - 1];
        }
      }
    }
  }

  /** A key can be read back exactly when it is listed. */
  lemma {:induction false} ReadListed(ds: Details, key: string)
    ensures DetailOf(ds, key).Some? <==> key in Keys(ds)
    decreases |ds|
  {
    if |ds| > 0 {
      assert Keys(ds) == [ds[0].0] + Keys(ds[1..]);
      ReadListed(ds[1..], key);
    }
  }

  // ---------------------------------------------------------------- the extract

  datatype CurrentSummary = CurrentSummary(
    temperature: Number,
    conditions: string,
    feelsLike: Number,
    humidity: Number,
    windSpeed: Number,
    windDirection: real)

  /** A day of the forecast; comparison adds the humidity and the wind speed. */
  datatype DaySummary = DaySummary(
    date: string,
    tempHigh: Number,
    tempLow: Number,
    conditions: string,
    humidity: Option<Number>,
    windSpeed: Option<Number>)

  datatype HourSummary = HourSummary(time: string, temp: Number, conditions: string, precipitation: Number)

  /** An alert; travel leaves out the validity period. */
  datatype AlertSummary = AlertSummary(event: string, description: string, validity: Option<(string, string)>)

  datatype AstronomyInfo = AstronomyInfo(sunrise: string, sunset: string, moonPhase: real)

  /** The object `extractRelevantWeatherData` builds; `None` is an absent property. */
  datatype Extract = Extract(
    current: CurrentSummary,
    details: Details,
    location: string,
    uvIndex: Option<Number>,
    daily: Option<seq<DaySummary>>,
    hourly: Option<seq<HourSummary>>,
    alerts: Option<seq<AlertSummary>>,
    astronomy: Option<AstronomyInfo>)

  function Min(a: int, b: int): int
  {
    if a < b then a else b
  }

  /** `${location.city}, ${location.country}`. */
  function LocationText(p: Place): string
  {
    Show(p.city) + ", " + Show(p.country)
  }

  /** `current.uvi` as a value: the number, or `undefined`. */
  function UvValue(c: CurrentObs): Value
  {
    if c.uvi.Some? then Num(c.uvi.value) else Undefined
  }

  /** The `uvIndex` property of an extract as a value: the number, or `undefined`. */
  function UvIndexValue(e: Extract): Value
  {
    if e.uvIndex.Some? then Num(e.uvIndex.value) else Undefined
  }

  /** One summary per day, in order; the humidity and wind speed only `withExtras`. */
  function Days(ds: seq<DailyObs>, withExtras: bool): (r: seq<DaySummary>)
    ensures |r| == |ds|
    ensures forall i :: 0 <= i < |ds| ==>
      && r[i].date == ds[i].date && r[i].tempHigh == ds[i].max && r[i].tempLow == ds[i].min
      && r[i].conditions == ds[i].description
      && r[i].humidity == (if withExtras then Some(ds[i].humidity) else None)
      && r[i].windSpeed == (if withExtras then Some(ds[i].windSpeed) else None)
  {
    seq(|ds|, i requires 0 <= i < |ds| =>
      DaySummary(ds[i].date, ds[i].max, ds[i].min, ds[i].description,
                 if withExtras then Some(ds[i].humidity) else None,
                 if withExtras then Some(ds[i].windSpeed) else None))
  }

  /** One summary per hour, in order: time, temperature, conditions and chance of rain in percent. */
  function Hours(hs: seq<HourlyObs>): (r: seq<HourSummary>)
    ensures |r| == |hs|
    ensures forall i :: 0 <= i < |hs| ==>
      && r[i].time == hs[i].time && r[i].temp == hs[i].temp
      && r[i].conditions == hs[i].description && r[i].precipitation == hs[i].popPercent
  {
    seq(|hs|, i requires 0 <= i < |hs| => HourSummary(hs[i].time, hs[i].temp, hs[i].description, hs[i].popPercent))
  }

  /** One summary per alert, in order; the start and end only `withValidity`. */
  function AlertList(al: seq<AlertObs>, withValidity: bool): (r: seq<AlertSummary>)
    ensures |r| == |al|
    ensures forall i :: 0 <= i < |al| ==>
      && r[i].event == al[i].event && r[i].description == al[i].description
      && r[i].validity == (if withValidity then Some((al[i].start, al[i].end)) else None)
  {
    seq(|al|, i requires 0 <= i < |al| =>
      AlertSummary(al[i].event, al[i].description,
                   if withValidity then Some((al[i].start, al[i].end)) else None))
  }

  /** The part every intent gets: current conditions, location and the UV index when known. */
  function BaseExtract(w: Report): Extract
  {
    var c := w.current;
    Extract(
      CurrentSummary(c.temp, c.description, c.feelsLike, c.humidity, c.windSpeed, c.windDeg),
      if c.uvi.Some? then [("UV Index", Num(c.uvi.value))] else [],
      LocationText(w.place),
      c.uvi,
      None, None, None, None)
  }

  /** The "Air Quality" detail of an explanation. */
  function AirQualityDetail(c: CurrentObs): Value
  {
    if c.aqi.Some? && c.aqi.value.value != 0.0 then
      (match AqiDescription(c.aqi.value.value)
       case Some(s) => Str(s)
       case None => Undefined)
    else Str("Not available")
  }

  /** `weatherData.hourly[0].pop * 100 + "%"`; indexing a missing list or reading `pop` of a missing hour throws. */
  function RainChance(w: Report): Result<Value, string>
  {
    if w.hourly.None? then Err(UndefinedRead("0"))
    else if |w.hourly.value| == 0 then Err(UndefinedRead("pop"))
    else Ok(Str(w.hourly.value[0].popPercent.shown + "%"))
  }

  /** The `details[key] = value` assignments of an intent, in the order the source makes them. */
  function DetailUpdates(c: CurrentObs, intent: Intent, rain: Value): Details
  {
    match intent
    case CurrentConditions =>
      [("Visibility", Str(c.visibilityKm.shown + " mi")), ("Pressure", Str(c.pressure.shown + " hPa")),
       ("UV Index", UvValue(c)), ("Dew Point", Str(c.dewPoint.shown + "°F")),
       ("Cloud Cover", Str(c.clouds.shown + "%"))]
    case Clothing =>
      [("UV Index", UvValue(c)), ("Cloud Cover", Str(c.clouds.shown + "%")), ("Rain Chance", rain)]
    case Activity =>
      [("UV Index", UvValue(c)), ("Cloud Cover", Str(c.clouds.shown + "%")), ("Rain Chance", rain)]
    case Travel =>
      [("Visibility", Str(c.visibilityKm.shown + " mi")), ("Wind", Str(c.windSpeed.shown + " mph"))]
    case Explanation =>
      [("Air Quality", AirQualityDetail(c)), ("UV Index", UvValue(c))]
    case _ => []
  }

  /** A run of assignments to the details object, first to last. */
  function PutAll(ds: Details, updates: Details): Details
    decreases |updates|
  {
    if |updates| == 0 then ds else PutAll(Put(ds, updates[0].0, updates[0].1), updates[1..])
  }

  /** The value the last of the assignments gives `key`, if any does. */
  function LastAssigned(updates: Details, key: string): Option<Value>
    decreases |updates|
  {
    if |updates| == 0 then None
    else if updates[|updates| - 1].0 == key then Some(updates[|updates| - 1].1)
    else LastAssigned(updates[..|updates| - 1], key)
  }

  /** After a run of assignments a key reads as the last value assigned to it, or as before. */
  lemma {:induction false} PutAllRead(ds: Details, updates: Details, key: string)
    ensures DetailOf(PutAll(ds, updates), key) ==
      if LastAssigned(updates, key).Some? then LastAssigned(updates, key) else DetailOf(ds, key)
    decreases |updates|
  {
    if |updates| > 0 {
      var (k, v) := updates[0];
      PutAllRead(Put(ds, k, v), updates[1..], key);
      LastAssignedFirst(updates, key);
      if k == key {
        PutThenRead(ds, k, v);
      } else {
        PutLeavesOthers(ds, k, v, key);
      }
    }
  }

  /** `LastAssigned` seen from the front: a later assignment overrides the first one. */
  lemma {:induction false} LastAssignedFirst(updates: Details, key: string)
    requires |updates| > 0
    ensures LastAssigned(updates, key) ==
      if LastAssigned(updates[1..], key).Some? then LastAssigned(updates[1..], key)
      else if updates[0].0 == key then Some(updates[0].1) else None
    decreases |updates|
  {
    if |updates| > 1 {
      var n := |updates|;
      assert updates[1..][..n - 2] == updates[..n - 1][1..];
      LastAssignedFirst(updates[..n - 1], key);
    }
  }

  /** A run of assignments keeps the keys distinct. */
  lemma {:induction false} PutAllKeepsKeysDistinct(ds: Details, updates: Details)
    requires DistinctKeys(ds)
    ensures DistinctKeys(PutAll(ds, updates))
    decreases |updates|
  {
    if |updates| > 0 {
      PutKeepsKeysDistinct(ds, updates[0].0, updates[0].1);
      PutAllKeepsKeysDistinct(Put(ds, updates[0].0, updates[0].1), updates[1..]);
    }
  }

  /** `extractRelevantWeatherData(weatherData, intent)`. */
  function ExtractRelevantWeatherData(w: Report, intent: Intent): (r: Result<Extract, string>)
    ensures r.Err? <==>
      || ((intent == Clothing || intent == Activity) && (w.hourly.None? || |w.hourly.value| == 0))
      || (intent == Forecast && (w.daily.None? || w.hourly.None?))
      || (intent == Comparison && w.daily.None?)
    ensures r.Ok? ==> r.value.location == LocationText(w.place)
  {
    var b := BaseExtract(w);
    var c := w.current;
    if (intent == Clothing || intent == Activity) && RainChance(w).Err? then Err(RainChance(w).error)
    else
      var rain := if RainChance(w).Ok? then RainChance(w).value else Undefined;
      var b := b.(details := PutAll(b.details, DetailUpdates(c, intent, rain)));
      match intent
      case Forecast =>
        if w.daily.None? then Err(UndefinedRead("map"))
        else if w.hourly.None? then Err(UndefinedRead("slice"))
        else
          Ok(b.(daily := Some(Days(w.daily.value, false)),
                hourly := Some(Hours(w.hourly.value[..Min(24, |w.hourly.value|)]))))
      case Clothing =>
        Ok(b.(uvIndex := c.uvi))
      case Activity =>
        Ok(b.(hourly := Some(Hours(w.hourly.value[..Min(12, |w.hourly.value|)]))))
      case Safety =>
        Ok(b.(alerts := Some(AlertList(w.alerts, true))))
      case Astronomy =>
        if w.daily.Some? && |w.daily.value| > 0 then
          var today := w.daily.value[0];
          Ok(b.(astronomy := Some(AstronomyInfo(today.sunrise, today.sunset, today.moonPhase))))
        else Ok(b)
      case Travel =>
        if |w.alerts| > 0 then Ok(b.(alerts := Some(AlertList(w.alerts, false)))) else Ok(b)
      case Comparison =>
        if w.daily.None? then Err(UndefinedRead("slice"))
        else Ok(b.(daily := Some(Days(w.daily.value[..Min(3, |w.daily.value|)], true))))
      case Alerts =>
        Ok(b.(alerts := Some(AlertList(w.alerts, true))))
      case CurrentConditions => Ok(b)
      case Explanation => Ok(b)
  }

  /**
   * The slices each intent takes: the whole daily forecast and the first 24 hours for a
   * forecast, the first 12 hours for an activity, the first 3 days for a comparison, and every
   * alert (an empty list when there is none) for safety and alerts.
   */
  lemma ExtractSlices(w: Report, intent: Intent)
    requires ExtractRelevantWeatherData(w, intent).Ok?
    ensures var e := ExtractRelevantWeatherData(w, intent).value;
      && (intent == Forecast ==>
            e.daily == Some(Days(w.daily.value, false))
            && e.hourly == Some(Hours(w.hourly.value[..Min(24, |w.hourly.value|)])))
      && (intent == Activity ==> e.hourly == Some(Hours(w.hourly.value[..Min(12, |w.hourly.value|)])))
      && (intent == Comparison ==> e.daily == Some(Days(w.daily.value[..Min(3, |w.daily.value|)], true)))
      && ((intent == Safety || intent == Alerts) ==> e.alerts == Some(AlertList(w.alerts, true)))
      && (intent == Travel ==> e.alerts == if |w.alerts| > 0 then Some(AlertList(w.alerts, false)) else None)
      && (intent != Forecast && intent != Activity ==> e.hourly.None?)
      && (intent != Forecast && intent != Comparison ==> e.daily.None?)
  {
  }

  /**
   * The hours of a forecast or an activity extract are the first 24 or 12 hours of the report,
   * in order: hour `i` of the extract is hour `i` of the report.
   */
  lemma ExtractFirstHours(w: Report, intent: Intent)
    requires intent == Forecast || intent == Activity
    requires ExtractRelevantWeatherData(w, intent).Ok?
    ensures var e := ExtractRelevantWeatherData(w, intent).value;
      var n := if intent == Forecast then 24 else 12;
      && w.hourly.Some? && e.hourly.Some? && |e.hourly.value| == Min(n, |w.hourly.value|)
      && forall i :: 0 <= i < |e.hourly.value| ==>
           e.hourly.value[i].time == w.hourly.value[i].time && e.hourly.value[i].temp == w.hourly.value[i].temp
  {
    ExtractSlices(w, intent);
  }

  /** The days of a comparison are the first three days of the report, with humidity and wind. */
  lemma ExtractFirstDays(w: Report)
    requires ExtractRelevantWeatherData(w, Comparison).Ok?
    ensures var e := ExtractRelevantWeatherData(w, Comparison).value;
      && w.daily.Some? && e.daily.Some? && |e.daily.value| == Min(3, |w.daily.value|)
      && forall i :: 0 <= i < |e.daily.value| ==>
           e.daily.value[i].date == w.daily.value[i].date
           && e.daily.value[i].humidity == Some(w.daily.value[i].humidity)
  {
    ExtractSlices(w, Comparison);
  }


  /** The details object never lists a key twice. */
  lemma ExtractKeysDistinct(w: Report, intent: Intent)
    requires ExtractRelevantWeatherData(w, intent).Ok?
    ensures DistinctKeys(ExtractRelevantWeatherData(w, intent).value.details)
  {
    var rain := if RainChance(w).Ok? then RainChance(w).value else Undefined;
    PutAllKeepsKeysDistinct(BaseExtract(w).details, DetailUpdates(w.current, intent, rain));
  }

  /**
   * The UV index is always included when the report has one, whatever the intent; for current
   * conditions, clothing, activity and explanation the key is set even when it has none.
   */
  lemma UvIndexAlwaysIncluded(w: Report, intent: Intent)
    requires ExtractRelevantWeatherData(w, intent).Ok?
    ensures var ds := ExtractRelevantWeatherData(w, intent).value.details;
      && (w.current.uvi.Some? ==> DetailOf(ds, "UV Index") == Some(Num(w.current.uvi.value)))
      && (intent in {CurrentConditions, Clothing, Activity, Explanation} ==>
            DetailOf(ds, "UV Index") == Some(UvValue(w.current)))
  {
    var rain := if RainChance(w).Ok? then RainChance(w).value else Undefined;
    PutAllRead(BaseExtract(w).details, DetailUpdates(w.current, intent, rain), "UV Index");
    UvUpdate(w.current, intent, rain);
  }

  /** Which intents assign the UV index, and what they assign. */
  lemma UvUpdate(c: CurrentObs, intent: Intent, rain: Value)
    ensures LastAssigned(DetailUpdates(c, intent, rain), "UV Index") ==
      if intent in {CurrentConditions, Clothing, Activity, Explanation} then Some(UvValue(c)) else None
  {
    var us := DetailUpdates(c, intent, rain);
    var uv := "UV Index";
    assert "Visibility" != uv && "Pressure" != uv && "Dew Point" != uv && "Cloud Cover" != uv;
    assert "Rain Chance" != uv && "Wind" != uv && "Air Quality" != uv;
    match intent {
      case CurrentConditions =>
        assert us[..4][..3] == us[..3];
        assert LastAssigned(us, uv) == LastAssigned(us[..3], uv);
      case Clothing =>
        assert us[..2][..1] == us[..1];
        assert LastAssigned(us, uv) == LastAssigned(us[..1], uv);
      case Activity =>
        assert us[..2][..1] == us[..1];
        assert LastAssigned(us, uv) == LastAssigned(us[..1], uv);
      case Travel =>
        assert LastAssigned(us, uv) == LastAssigned(us[..1], uv);
        assert us[..1][..0] == [];
      case _ =>
    }
  }

  /**
   * The details of a current-conditions extract, in the order `Object.entries` lists them: a
   * UV index known from the start comes first, one set later takes the third place.
   */
  lemma CurrentConditionsDetailOrder(w: Report)
    ensures var ds := ExtractRelevantWeatherData(w, CurrentConditions).value.details;
      Keys(ds) == if w.current.uvi.Some?
        then ["UV Index", "Visibility", "Pressure", "Dew Point", "Cloud Cover"]
        else ["Visibility", "Pressure", "UV Index", "Dew Point", "Cloud Cover"]
  {
    var rain := if RainChance(w).Ok? then RainChance(w).value else Undefined;
    CurrentConditionsKeys(w.current, BaseExtract(w).details, rain);
  }

  /** The five assignments of the current-conditions intent, applied to the base details. */
  lemma CurrentConditionsKeys(c: CurrentObs, d0: Details, rain: Value)
    requires Keys(d0) == [] || Keys(d0) == ["UV Index"]
    ensures Keys(PutAll(d0, DetailUpdates(c, CurrentConditions, rain))) == if Keys(d0) != []
      then ["UV Index", "Visibility", "Pressure", "Dew Point", "Cloud Cover"]
      else ["Visibility", "Pressure", "UV Index", "Dew Point", "Cloud Cover"]
  {
    var us := DetailUpdates(c, CurrentConditions, rain);
    var uv, vis, pr, dew, cc := "UV Index", "Visibility", "Pressure", "Dew Point", "Cloud Cover";
    assert Keys(us) == [vis, pr, uv, dew, cc];
    assert uv != vis && uv != pr && uv != dew && uv != cc;
    assert vis != pr && vis != dew && vis != cc && pr != dew && pr != cc && dew != cc;
    if Keys(d0) == [] {
      PutAllNewKeys(d0, us);
    } else {
      var front, rest := us[..2], us[3..];
      assert us == front + ([us[2]] + rest);
      PutAllConcat(d0, front, [us[2]] + rest);
      PutAllNewKeys(d0, front);
      var d2 := PutAll(d0, front);
      assert Keys(d2) == [uv, vis, pr];
      var d3 := Put(d2, uv, us[2].1);
      PutKeys(d2, uv, us[2].1);
      assert PutAll(d2, [us[2]] + rest) == PutAll(d3, rest) by {
        assert ([us[2]] + rest)[1..] == rest;
      }
      PutAllNewKeys(d3, rest);
    }
  }

  /** A run of assignments splits at any point. */
  lemma {:induction false} PutAllConcat(ds: Details, a: Details, b: Details)
    ensures PutAll(ds, a + b) == PutAll(PutAll(ds, a), b)
    decreases |a|
  {
    if |a| == 0 {
      assert a + b == b;
    } else {
      assert (a + b)[1..] == a[1..] + b;
      PutAllConcat(Put(ds, a[0].0, a[0].1), a[1..], b);
    }
  }

  /** Assigning keys that are all new and all different lists them last, in order. */
  lemma {:induction false} PutAllNewKeys(ds: Details, us: Details)
    requires DistinctKeys(us)
    requires forall i :: 0 <= i < |us| ==> us[i].0 !in Keys(ds)
    ensures Keys(PutAll(ds, us)) == Keys(ds) + Keys(us)
    decreases |us|
  {
    if |us| > 0 {
      var d1 := Put(ds, us[0].0, us[0].1);
      var tail := us[1..];
      PutNewKey(ds, us[0].0, us[0].1);
      NewKeysTail(ds, us, d1);
      PutAllNewKeys(d1, tail);
      assert PutAll(ds, us) == PutAll(d1, tail);
      assert us == [us[0]] + tail;
      KeysCons(us[0], tail);
      AppendAssoc(Keys(ds), us[0].0, Keys(tail));
    }
  }

  /** Concatenation regroups. */
  lemma AppendAssoc(a: seq<string>, x: string, b: seq<string>)
    ensures (a + [x]) + b == a + ([x] + b)
  {
  }

  /** After the first of the new keys is assigned, the others are still new and different. */
  lemma NewKeysTail(ds: Details, us: Details, d1: Details)
    requires |us| > 0 && DistinctKeys(us)
    requires forall i :: 0 <= i < |us| ==> us[i].0 !in Keys(ds)
    requires Keys(d1) == Keys(ds) + [us[0].0]
    ensures DistinctKeys(us[1..])
    ensures forall i :: 0 <= i < |us[1..]| ==> us[1..][i].0 !in Keys(d1)
  {
    var tail := us[1..];
    forall i | 0 <= i < |tail|
      ensures tail[i].0 !in Keys(d1)
    {
      assert tail[i] == us[i + 1];
      assert us[0].0 != us[i + 1].0;
    }
    forall i, j | 0 <= i < j < |tail|
      ensures tail[i].0 != tail[j].0
    {
      assert tail[i] == us[i + 1] && tail[j] == us[j + 1];
    }
  }

  lemma PutNewKey(ds: Details, key: string, v: Value)
    requires key !in Keys(ds)
    ensures Keys(Put(ds, key, v)) == Keys(ds) + [key]
  {
    PutKeys(ds, key, v);
  }
}
