/**
 * The Android side of the Gadgetbridge broadcast: the JSON document built
 * from the app's weather data (current conditions, today's extremes, up
 * to seven forecast days after today and up to 48 hours), with Kotlin's
 * integer conversions written out.
 */
module GadgetbridgeAndroid {
  import opened Base

  const TwoTo31: int := 0x8000_0000
  const TwoTo32: int := 0x1_0000_0000

  /** The output JSON; an object is a map, which abstracts away the order of its keys. */
  datatype Json =
    | JInt(i: int)
    | JNum(x: real)
    | JStr(s: string)
    | JArr(items: seq<Json>)
    | JObj(fields: map<string, Json>)

  /** The input fields read from the current conditions; None is a missing field. */
  datatype Current = Current(
    temperature: Option<real>,
    iconId: Option<real>,
    description: Option<string>,
    relativeHumidity: Option<real>,
    windSpeed: Option<real>,
    windBearing: Option<real>,
    uvIndex: Option<real>,
    apparentTemperature: Option<real>,
    dewpoint: Option<real>,
    sealevelPressure: Option<real>,
    cloudCover: Option<real>)

  /** The input fields read from one day. */
  datatype Day = Day(
    iconId: Option<real>,
    temperatureMax: Option<real>,
    temperatureMin: Option<real>,
    relativeHumidity: Option<real>,
    windSpeed: Option<real>,
    windBearing: Option<real>,
    uvIndex: Option<real>,
    precipProbability: Option<real>,
    sunriseTime: Option<real>,
    sunsetTime: Option<real>,
    moonRise: Option<real>,
    moonSet: Option<real>,
    moonPhase: Option<real>)

  /** The input fields read from one hour. */
  datatype Hour = Hour(
    time: Option<real>,
    temperature: Option<real>,
    iconId: Option<real>,
    relativeHumidity: Option<real>,
    windSpeed: Option<real>,
    windBearing: Option<real>,
    uvIndex: Option<real>,
    precipProbability: Option<real>)

  /** The weather document; a missing daily or hourly list is empty. */
  datatype WeatherData = WeatherData(
    time: Option<real>,
    currently: Option<Current>,
    daily: seq<Day>,
    hourly: seq<Hour>)

  // ---------------------------------------------------------------------
  // Kotlin and Java number conversions
  // ---------------------------------------------------------------------

  /** Truncation towards zero, as Double.toInt and Long division do. */
  function Truncate(x: real): (n: int)
    ensures x >= 0.0 ==> n == x.Floor
    ensures (n as real) <= x < (n as real) + 1.0 || (n as real) - 1.0 < x <= (n as real)
  {
    if x >= 0.0 then x.Floor else -((-x).Floor)
  }

  /** Double.toInt clamps to the Int range. */
  function Saturate(n: int): (r: int)
    ensures -TwoTo31 <= r < TwoTo31
    ensures -TwoTo31 <= n < TwoTo31 ==> r == n
  {
    if n < -TwoTo31 then -TwoTo31 else if n >= TwoTo31 then TwoTo31 - 1 else n
  }

  /** Long.toInt keeps the low 32 bits, read as two's complement. */
  function Wrap32(n: int): (r: int)
    ensures -TwoTo31 <= r < TwoTo31
    ensures -TwoTo31 <= n < TwoTo31 ==> r == n
  {
    var m := n % TwoTo32;
    if m >= TwoTo31 then m - TwoTo32 else m
  }

  /** Long division by a positive constant truncates towards zero. */
  function LongDiv(a: int, b: int): (r: int)
    requires b > 0
    ensures a >= 0 ==> 0 <= r * b <= a < r * b + b
    ensures a < 0 ==> r * b - b < a <= r * b <= 0
  {
    var m := if a >= 0 then a else -a;
    var q := m / b;
    assert m == q * b + m % b && 0 <= m % b < b;
    assert q >= 0 && q * b >= 0;
    if a >= 0 then q else assert (-q) * b == -(q * b); -q
  }

  /** optInt(name, fallback) on a numeric field. */
  function OptInt(v: Option<real>, fallback: int): (r: int)
    ensures v.None? ==> r == fallback
    ensures v.Some? ==> -TwoTo31 <= r < TwoTo31
  {
    if v.Some? then Saturate(Truncate(v.value)) else fallback
  }

  /** optLong(name, 0) on a numeric field. */
  function OptLong(v: Option<real>): (r: int)
    ensures v.None? ==> r == 0
  {
    if v.Some? then Truncate(v.value) else 0
  }

  function OptDouble(v: Option<real>): (r: real)
    ensures v.None? ==> r == 0.0
  {
    if v.Some? then v.value else 0.0
  }

  /** (optLong(name, 0) / 1000).toInt(): milliseconds to seconds. */
  function Seconds(ms: Option<real>): (r: int)
    ensures -TwoTo31 <= r < TwoTo31
    ensures ms.None? ==> r == 0
  {
    Wrap32(LongDiv(OptLong(ms), 1000))
  }

  /** kelvinFromCelsius: (celsius + 273.15).toInt(). */
  function Kelvin(celsius: real): (r: int)
    ensures -TwoTo31 <= r < TwoTo31
  {
    Saturate(Truncate(celsius + 27315.0 / 100.0))
  }

  /** The default condition code when iconId is missing. */
  const UnknownCondition := 3200

  // ---------------------------------------------------------------------
  // The document
  // ---------------------------------------------------------------------

  function CurrentFields(c: Current): (r: map<string, Json>)
  {
    map[
      "currentTemp" := JInt(Kelvin(OptDouble(c.temperature))),
      "currentConditionCode" := JInt(OptInt(c.iconId, UnknownCondition)),
      "currentCondition" := JStr(if c.description.Some? then c.description.value else ""),
      "currentHumidity" := JInt(OptInt(c.relativeHumidity, 0)),
      "windSpeed" := JNum(OptDouble(c.windSpeed)),
      "windDirection" := JInt(OptInt(c.windBearing, 0)),
      "uvIndex" := JNum(OptDouble(c.uvIndex)),
      "feelsLikeTemp" := JInt(Kelvin(OptDouble(c.apparentTemperature))),
      "dewPoint" := JInt(Kelvin(OptDouble(c.dewpoint))),
      "pressure" := JNum(OptDouble(c.sealevelPressure)),
      "cloudCover" := JInt(OptInt(c.cloudCover, 0))]
  }

  function TodayFields(d: Day): (r: map<string, Json>)
  {
    map[
      "todayMaxTemp" := JInt(Kelvin(OptDouble(d.temperatureMax))),
      "todayMinTemp" := JInt(Kelvin(OptDouble(d.temperatureMin))),
      "precipProbability" := JInt(OptInt(d.precipProbability, 0)),
      "sunRise" := JInt(Seconds(d.sunriseTime)),
      "sunSet" := JInt(Seconds(d.sunsetTime)),
      "moonRise" := JInt(Seconds(d.moonRise)),
      "moonSet" := JInt(Seconds(d.moonSet)),
      "moonPhase" := JInt(OptInt(d.moonPhase, 0))]
  }

  function ForecastJson(d: Day): (r: Json)
  {
    JObj(map[
      "conditionCode" := JInt(OptInt(d.iconId, UnknownCondition)),
      "maxTemp" := JInt(Kelvin(OptDouble(d.temperatureMax))),
      "minTemp" := JInt(Kelvin(OptDouble(d.temperatureMin))),
      "humidity" := JInt(OptInt(d.relativeHumidity, 0)),
      "windSpeed" := JNum(OptDouble(d.windSpeed)),
      "windDirection" := JInt(OptInt(d.windBearing, 0)),
      "uvIndex" := JNum(OptDouble(d.uvIndex)),
      "precipProbability" := JInt(OptInt(d.precipProbability, 0)),
      "sunRise" := JInt(Seconds(d.sunriseTime)),
      "sunSet" := JInt(Seconds(d.sunsetTime)),
      "moonRise" := JInt(Seconds(d.moonRise)),
      "moonSet" := JInt(Seconds(d.moonSet)),
      "moonPhase" := JInt(OptInt(d.moonPhase, 0))])
  }

  function HourJson(h: Hour): (r: Json)
  {
    JObj(map[
      "timestamp" := JInt(Seconds(h.time)),
      "temp" := JInt(Kelvin(OptDouble(h.temperature))),
      "conditionCode" := JInt(OptInt(h.iconId, UnknownCondition)),
      "humidity" := JInt(OptInt(h.relativeHumidity, 0)),
      "windSpeed" := JNum(OptDouble(h.windSpeed)),
      "windDirection" := JInt(OptInt(h.windBearing, 0)),
      "uvIndex" := JNum(OptDouble(h.uvIndex)),
      "precipProbability" := JInt(OptInt(h.precipProbability, 0))])
  }

  /** The forecast window: the days after today, at most seven. */
  function Forecasts(daily: seq<Day>): (r: seq<Json>)
    requires |daily| > 1
    ensures |r| == Min(|daily|, 8) - 1 && |r| <= 7
    ensures forall k :: 0 <= k < |r| ==> r[k] == ForecastJson(daily[k + 1])
  {
    seq(Min(|daily|, 8) - 1, k requires 0 <= k < Min(|daily|, 8) - 1 => ForecastJson(daily[k + 1]))
  }

  /** The hourly window: the first hours, at most 48. */
  function HourlyForecasts(hourly: seq<Hour>): (r: seq<Json>)
    ensures |r| == Min(|hourly|, 48)
    ensures forall k :: 0 <= k < |r| ==> r[k] == HourJson(hourly[k])
  {
    seq(Min(|hourly|, 48), k requires 0 <= k < Min(|hourly|, 48) => HourJson(hourly[k]))
  }

  /** The timestamp, the location and, when present, the current conditions and today's values. */
  function Summary(w: WeatherData, locationName: Option<string>): (r: map<string, Json>)
    ensures "timestamp" in r && "location" in r
  {
    var base := map[
      "timestamp" := JInt(Seconds(w.time)),
      "location" := JStr(if locationName.Some? then locationName.value else "")];
    var withCurrent := if w.currently.Some? then base + CurrentFields(w.currently.value) else base;
    if |w.daily| > 0 then withCurrent + TodayFields(w.daily[0]) else withCurrent
  }

  /** buildGadgetbridgeData on well-formed input (no field of the wrong JSON type). */
  function GadgetbridgeData(w: WeatherData, locationName: Option<string>): (r: map<string, Json>)
    ensures ("forecasts" in r <==> |w.daily| > 1) && ("hourly" in r <==> |w.hourly| > 0)
  {
    SummaryKeys(w, locationName);
    var summary := Summary(w, locationName);
    var withForecasts := if |w.daily| > 1 then summary["forecasts" := JArr(Forecasts(w.daily))] else summary;
    if |w.hourly| > 0 then withForecasts["hourly" := JArr(HourlyForecasts(w.hourly))] else withForecasts
  }

  /** The summary never holds the two list keys. */
  lemma SummaryKeys(w: WeatherData, locationName: Option<string>)
    ensures "forecasts" !in Summary(w, locationName) && "hourly" !in Summary(w, locationName)
  {
    if w.currently.Some? {
      CurrentKeys(w.currently.value);
    }
    if |w.daily| > 0 {
      TodayKeys(w.daily[0]);
    }
  }

  lemma CurrentKeys(c: Current)
    ensures "forecasts" !in CurrentFields(c) && "hourly" !in CurrentFields(c)
  {
  }

  lemma TodayKeys(d: Day)
    ensures "forecasts" !in TodayFields(d) && "hourly" !in TodayFields(d)
  {
  }

  // ---------------------------------------------------------------------
  // The builder
  // ---------------------------------------------------------------------

  method BuildGadgetbridgeData(w: WeatherData, locationName: Option<string>) returns (result: map<string, Json>)
    ensures result == GadgetbridgeData(w, locationName)
  {
    // The scalar puts: timestamp, location, current conditions and today.
    result := Summary(w, locationName);
    if |w.daily| > 1 {
      var forecasts := CollectForecasts(w.daily);
      result := result["forecasts" := JArr(forecasts)];
    }
    if |w.hourly| > 0 {
      var hourlyForecasts := CollectHourly(w.hourly);
      result := result["hourly" := JArr(hourlyForecasts)];
    }
  }

  /** for (i in 1 until minOf(daily.length(), 8)) forecasts.put(...) */
  method CollectForecasts(daily: seq<Day>) returns (forecasts: seq<Json>)
    requires |daily| > 1
    ensures forecasts == Forecasts(daily)
  {
    var maxForecasts := Min(|daily|, 8);
    forecasts := [];
    var i := 1;
    while i < maxForecasts
      invariant 1 <= i <= maxForecasts
      invariant |forecasts| == i - 1
      invariant forall k :: 0 <= k < i - 1 ==> forecasts[k] == ForecastJson(daily[k + 1])
    {
      forecasts := forecasts + [ForecastJson(daily[i])];
      i := i + 1;
    }
  }

  /** for (i in 0 until minOf(hourly.length(), 48)) hourlyForecasts.put(...) */
  method CollectHourly(hourly: seq<Hour>) returns (hours: seq<Json>)
    ensures hours == HourlyForecasts(hourly)
  {
    hours := [];
    var i := 0;
    while i < Min(|hourly|, 48)
      invariant 0 <= i <= Min(|hourly|, 48)
      invariant |hours| == i
      invariant forall k :: 0 <= k < i ==> hours[k] == HourJson(hourly[k])
    {
      hours := hours + [HourJson(hourly[i])];
      i := i + 1;
    }
  }

  // ---------------------------------------------------------------------
  // What the document promises
  // ---------------------------------------------------------------------

  /**
   * Forecasts appear only when there is a day after today; they skip
   * today, hold at most seven days and list them in order.
   */
  lemma ForecastWindow(w: WeatherData, locationName: Option<string>, k: nat)
    ensures var doc := GadgetbridgeData(w, locationName);
      ("forecasts" in doc <==> |w.daily| > 1) &&
      (|w.daily| > 1 ==>
        doc["forecasts"].JArr? &&
        |doc["forecasts"].items| == Min(|w.daily|, 8) - 1 && |doc["forecasts"].items| <= 7 &&
        (k < |doc["forecasts"].items| ==> doc["forecasts"].items[k] == ForecastJson(w.daily[k + 1])))
  {
    SummaryKeys(w, locationName);
  }

  /** Hourly entries appear only when there are hours; at most 48, in order. */
  lemma HourlyWindow(w: WeatherData, locationName: Option<string>, k: nat)
    ensures var doc := GadgetbridgeData(w, locationName);
      ("hourly" in doc <==> |w.hourly| > 0) &&
      (|w.hourly| > 0 ==>
        doc["hourly"].JArr? && |doc["hourly"].items| == Min(|w.hourly|, 48) &&
        |doc["hourly"].items| <= 48 &&
        (k < |doc["hourly"].items| ==> doc["hourly"].items[k] == HourJson(w.hourly[k])))
  {
    SummaryKeys(w, locationName);
  }

  /** A missing iconId gives the condition code 3200 everywhere it is read. */
  lemma MissingIconDefaults(c: Current, d: Day, h: Hour)
    requires c.iconId.None? && d.iconId.None? && h.iconId.None?
    ensures CurrentFields(c)["currentConditionCode"] == JInt(3200)
    ensures ForecastJson(d).fields["conditionCode"] == JInt(3200)
    ensures HourJson(h).fields["conditionCode"] == JInt(3200)
  {
    CurrentIconDefault(c);
    ForecastIconDefault(d);
    HourIconDefault(h);
  }

  lemma CurrentIconDefault(c: Current)
    requires c.iconId.None?
    ensures CurrentFields(c)["currentConditionCode"] == JInt(3200)
  {
  }

  lemma ForecastIconDefault(d: Day)
    requires d.iconId.None?
    ensures ForecastJson(d).fields["conditionCode"] == JInt(3200)
  {
  }

  lemma HourIconDefault(h: Hour)
    requires h.iconId.None?
    ensures HourJson(h).fields["conditionCode"] == JInt(3200)
  {
  }

  /** A millisecond time within the Int range of seconds becomes whole seconds, rounded down. */
  lemma SecondsOfTime(ms: int)
    requires 0 <= ms < TwoTo31 * 1000
    ensures Seconds(Some(ms as real)) == ms / 1000
  {
    assert (ms as real).Floor == ms;
  }

  /** Kelvin is monotone in the temperature, and above absolute zero it is the floor of c + 273.15. */
  lemma KelvinProperties(c1: real, c2: real)
    ensures c1 <= c2 ==> Kelvin(c1) <= Kelvin(c2)
    ensures -27315.0 / 100.0 <= c1 && c1 + 27315.0 / 100.0 < TwoTo31 as real ==>
      Kelvin(c1) == (c1 + 27315.0 / 100.0).Floor && Kelvin(c1) >= 0
  {
    if c1 <= c2 {
      TruncateMonotone(c1 + 27315.0 / 100.0, c2 + 27315.0 / 100.0);
    }
    if -27315.0 / 100.0 <= c1 && c1 + 27315.0 / 100.0 < TwoTo31 as real {
      var x := c1 + 27315.0 / 100.0;
      assert x.Floor < TwoTo31;
    }
  }

  lemma TruncateMonotone(x: real, y: real)
    requires x <= y
    ensures Truncate(x) <= Truncate(y)
  {
    if x < 0.0 && y < 0.0 {
      assert (-y).Floor <= (-x).Floor;
    }
  }
}
