/**
 * The AccuWeather provider: its icon codes mapped to the app's, the
 * conversion of its hourly and daily records, and the API key kept in
 * the application settings.
 */
module AccuWeather {
  import opened Base
  import opened Strings

  // ---------------------------------------------------------------------
  // mapAccuWeatherIcon
  // ---------------------------------------------------------------------

  /** iconMap[accuIcon]; None where the table has no entry. */
  function IconTable(accuIcon: int): (r: Option<int>)
    ensures r.Some? <==> 1 <= accuIcon <= 44 && accuIcon !in {9, 10, 27, 28}
    ensures r.Some? ==> 200 <= r.value <= 905
  {
    match accuIcon
    case 1 => Some(800)
    case 2 => Some(800)
    case 3 => Some(801)
    case 4 => Some(802)
    case 5 => Some(802)
    case 6 => Some(803)
    case 7 => Some(804)
    case 8 => Some(804)
    case 11 => Some(701)
    case 12 => Some(500)
    case 13 => Some(500)
    case 14 => Some(500)
    case 15 => Some(200)
    case 16 => Some(200)
    case 17 => Some(200)
    case 18 => Some(501)
    case 19 => Some(600)
    case 20 => Some(600)
    case 21 => Some(600)
    case 22 => Some(601)
    case 23 => Some(601)
    case 24 => Some(612)
    case 25 => Some(611)
    case 26 => Some(511)
    case 29 => Some(616)
    case 30 => Some(503)
    case 31 => Some(903)
    case 32 => Some(905)
    case 33 => Some(800)
    case 34 => Some(800)
    case 35 => Some(801)
    case 36 => Some(802)
    case 37 => Some(701)
    case 38 => Some(803)
    case 39 => Some(520)
    case 40 => Some(520)
    case 41 => Some(211)
    case 42 => Some(211)
    case 43 => Some(600)
    case 44 => Some(601)
    case _ => None
  }

  /** iconMap[accuIcon] || 800; the day-time flag is not used. */
  function MapAccuWeatherIcon(accuIcon: int, isDayTime: bool): (r: int)
    ensures 200 <= r <= 905
    ensures IconTable(accuIcon).None? ==> r == 800
  {
    var v := IconTable(accuIcon);
    if v.Some? && v.value != 0 then v.value else 800
  }

  /** The table's codes are read as they are; every other code, 9, 10, 27 and 28 among them, is a clear sky. */
  lemma IconMapping(accuIcon: int, isDayTime: bool)
    ensures IconTable(accuIcon).Some? ==> MapAccuWeatherIcon(accuIcon, isDayTime) == IconTable(accuIcon).value
    ensures IconTable(accuIcon).None? ==> MapAccuWeatherIcon(accuIcon, isDayTime) == 800
    ensures IconTable(accuIcon).Some? <==> 1 <= accuIcon <= 44 && accuIcon !in {9, 10, 27, 28}
    ensures MapAccuWeatherIcon(accuIcon, isDayTime) == MapAccuWeatherIcon(accuIcon, !isDayTime)
    ensures 200 <= MapAccuWeatherIcon(accuIcon, isDayTime) <= 905
  {
  }

  // ---------------------------------------------------------------------
  // Hourly and daily records
  // ---------------------------------------------------------------------

  /** The fields of an hourly record that the conversion reads; None is an absent value. */
  datatype AccuHour = AccuHour(
    epochDateTime: int, isDaylight: bool, weatherIcon: int,
    windSpeed: real, windGust: Option<real>, temperature: real, realFeelTemperature: real,
    rain: Option<real>, snow: Option<real>, precipitationProbability: real,
    rainProbability: Option<real>, snowProbability: Option<real>, iceProbability: Option<real>)

  datatype Probabilities = Probabilities(rain: real, snow: real, ice: real)

  datatype Hourly = Hourly(
    time: int, isDay: bool, iconId: int, windSpeed: int, windGust: int, temperature: real,
    apparentTemperature: real, usingFeelsLike: bool, rain: real, snowfall: real,
    precipAccumulation: real, precipProbability: real, precipProbabilities: Option<Probabilities>)

  /** x?.Value || 0 */
  function OrZero(x: Option<real>): (r: real)
    ensures x.Some? && x.value != 0.0 ==> r == x.value
    ensures x.None? ==> r == 0.0
  {
    if x.Some? && x.value != 0.0 then x.value else 0.0
  }

  predicate TruthyNumber(x: Option<real>) { x.Some? && x.value != 0.0 }

  /** One hourly record in the app's form; times become milliseconds. */
  function HourlyOf(data: AccuHour, feelsLikeTemperatures: bool): (r: Hourly)
    ensures r.time == data.epochDateTime * 1000 && r.isDay == data.isDaylight
    ensures r.precipAccumulation == r.rain + r.snowfall
    ensures r.apparentTemperature == data.realFeelTemperature && r.usingFeelsLike == feelsLikeTemperatures
  {
    var rainAmount := OrZero(data.rain);
    var snowAmount := OrZero(data.snow);
    Hourly(
      data.epochDateTime * 1000,
      data.isDaylight,
      MapAccuWeatherIcon(data.weatherIcon, data.isDaylight),
      Round(data.windSpeed),
      Round(OrZero(data.windGust)),
      if feelsLikeTemperatures then data.realFeelTemperature else data.temperature,
      data.realFeelTemperature,
      feelsLikeTemperatures,
      rainAmount,
      snowAmount,
      rainAmount + snowAmount,
      data.precipitationProbability,
      if TruthyNumber(data.rainProbability) || TruthyNumber(data.snowProbability) || TruthyNumber(data.iceProbability)
      then Some(Probabilities(OrZero(data.rainProbability), OrZero(data.snowProbability), OrZero(data.iceProbability)))
      else None)
  }

  /** The hour's accumulation is its rain plus its snow, absent amounts counting as 0. */
  lemma HourlyPrecipitation(data: AccuHour, feelsLikeTemperatures: bool)
    ensures var h := HourlyOf(data, feelsLikeTemperatures);
      h.precipAccumulation == h.rain + h.snowfall &&
      (data.rain.None? && data.snow.None? ==> h.precipAccumulation == 0.0) &&
      (h.precipProbabilities.Some? <==>
        TruthyNumber(data.rainProbability) || TruthyNumber(data.snowProbability) || TruthyNumber(data.iceProbability)) &&
      h.temperature == (if feelsLikeTemperatures then data.realFeelTemperature else data.temperature)
  {
  }

  /** The end index of slice(0, end) over a list of len elements. */
  function SliceEnd(len: nat, end: int): (r: nat)
    ensures r <= len
  {
    if end < 0 then (if len + end < 0 then 0 else len + end) else Min(end, len)
  }

  /** How many hours the forecast keeps: slice(0, min(len, forecast_hours) - 1 + 1). */
  function HourlyCount(len: nat, forecastHours: int): (r: nat)
    ensures r <= len
  {
    SliceEnd(len, Min(len, forecastHours) - 1 + 1)
  }

  /** For a non-negative hour setting the forecast keeps min(len, forecast_hours) hours. */
  lemma HourlyCountIsMin(len: nat, forecastHours: int)
    requires forecastHours >= 0
    ensures HourlyCount(len, forecastHours) == Min(len, forecastHours)
  {
  }

  /** The hourly forecast: the first HourlyCount records, converted one by one. */
  function HourlyForecast(content: seq<AccuHour>, forecastHours: int, feelsLikeTemperatures: bool): (r: seq<Hourly>)
    ensures |r| == HourlyCount(|content|, forecastHours)
    ensures forall i :: 0 <= i < |r| ==> r[i] == HourlyOf(content[i], feelsLikeTemperatures)
  {
    var n := HourlyCount(|content|, forecastHours);
    seq(n, i requires 0 <= i < n => HourlyOf(content[i], feelsLikeTemperatures))
  }

  /** The fields of a daily record that the conversion reads. */
  datatype AccuDay = AccuDay(
    dayIcon: int, windSpeed: real, windGust: Option<real>, minimum: real, maximum: real,
    realFeelMaximum: real, precipitationProbability: real, cloudCover: Option<real>,
    windDegrees: real, rain: Option<real>, snow: Option<real>)

  datatype Daily = Daily(
    time: int, isDay: bool, iconId: int, windSpeed: int, windGust: int, temperatureMin: real,
    temperatureMax: real, apparentTemperature: real, precipProbability: real, cloudCover: real,
    windBearing: real, precipAccumulation: real, rain: real, snowfall: real)

  /** A daily record; startOfDay is the start of the day of EpochDate in the location's timezone. */
  function DailyOf(data: AccuDay, startOfDay: int): (r: Daily)
    ensures r.time == startOfDay && r.isDay
    ensures r.precipAccumulation == r.rain + r.snowfall
  {
    var rainAmount := OrZero(data.rain);
    var snowAmount := OrZero(data.snow);
    Daily(
      startOfDay, true, MapAccuWeatherIcon(data.dayIcon, true),
      Round(data.windSpeed), Round(OrZero(data.windGust)),
      data.minimum, data.maximum, data.realFeelMaximum, data.precipitationProbability,
      OrZero(data.cloudCover), data.windDegrees,
      rainAmount + snowAmount, rainAmount, snowAmount)
  }

  /** The day's accumulation is its rain plus its snow; it is a day record with the daytime icon. */
  lemma DailyPrecipitation(data: AccuDay, startOfDay: int)
    ensures var d := DailyOf(data, startOfDay);
      d.precipAccumulation == d.rain + d.snowfall && d.isDay &&
      d.iconId == MapAccuWeatherIcon(data.dayIcon, false) &&
      (data.cloudCover.None? ==> d.cloudCover == 0.0)
  {
  }

  // ---------------------------------------------------------------------
  // The API key
  // ---------------------------------------------------------------------

  /** readAccuWeatherApiKeySetting: what stays stored, and the key read. */
  function ReadStoredKey(stored: Option<string>, defaultKey: string): (r: (Option<string>, string))
    ensures r.0 == stored || r.0.None?
    ensures r.0.Some? ==> r.0.value != []
  {
    var key := if stored.Some? then stored.value else defaultKey;
    if key == [] then (None, Trim(defaultKey)) else (stored, Trim(key))
  }

  /** setApiKey: the new key, and what is stored. */
  function SetKey(apiKey: Option<string>): (r: (Option<string>, Option<string>))
    ensures apiKey.None? <==> r.0.None?
    ensures r.1.Some? ==> r.1 == r.0 && r.1.value != []
  {
    var k := if apiKey.Some? then Some(Trim(apiKey.value)) else None;
    if k.Some? && |k.value| > 0 then (k, k) else (k, None)
  }

  /** An empty or absent setting falls back to the default key and is removed. */
  lemma EmptyKeyFallsBack(stored: Option<string>, defaultKey: string)
    requires stored.None? || stored.value == []
    ensures ReadStoredKey(stored, defaultKey) == (None, Trim(defaultKey))
  {
  }

  /** A stored key is kept and read trimmed. */
  lemma StoredKeyRead(key: string, defaultKey: string)
    requires key != []
    ensures ReadStoredKey(Some(key), defaultKey) == (Some(key), Trim(key))
  {
  }

  /** Setting a key, then reading the setting, gives the trimmed key, or the default when it trims to nothing. */
  lemma SetThenRead(apiKey: Option<string>, defaultKey: string)
    ensures var (key, stored) := SetKey(apiKey);
      ReadStoredKey(stored, defaultKey).1 == (if key.Some? && key.value != [] then key.value else Trim(defaultKey))
    ensures var (key, stored) := SetKey(apiKey);
      stored.Some? ==> stored.value == Trim(stored.value) && stored.value != []
  {
    if apiKey.Some? {
      var k := Trim(apiKey.value);
      TrimIdempotent(apiKey.value);
      if k != [] {
        assert SetKey(apiKey) == (Some(k), Some(k));
        assert ReadStoredKey(Some(k), defaultKey) == (Some(k), Trim(k));
      } else {
        assert SetKey(apiKey) == (Some(k), None);
      }
    } else {
      assert SetKey(apiKey) == (None, None);
    }
  }

  /** The provider's static key, and the one setting it lives in. */
  class KeyStore {
    /** The ApplicationSettings entry for the key; None when it is not set. */
    var stored: Option<string>
    /** AccuWeatherProvider.accuWeatherApiKey; None is undefined. */
    var apiKey: Option<string>
    /** The key built into the app (ACCUWEATHER_DEFAULT_KEY || ''). */
    const defaultKey: string

    /** The static initialiser reads the setting. */
    constructor(stored: Option<string>, defaultKey: string)
      ensures this.defaultKey == defaultKey
      ensures this.stored == ReadStoredKey(stored, defaultKey).0
      ensures apiKey == Some(ReadStoredKey(stored, defaultKey).1)
    {
      this.defaultKey := defaultKey;
      this.stored := stored;
      new;
      var key := ReadApiKeySetting();
      apiKey := Some(key);
    }

    method ReadApiKeySetting() returns (key: string)
      modifies this`stored
      ensures (stored, key) == ReadStoredKey(old(stored), defaultKey)
    {
      key := if stored.Some? then stored.value else defaultKey;
      if key == [] {
        stored := None;
        key := defaultKey;
      }
      key := Trim(key);
    }

    method SetApiKey(k: Option<string>)
      modifies this
      ensures (apiKey, stored) == SetKey(k)
    {
      apiKey := if k.Some? then Some(Trim(k.value)) else None;
      if apiKey.Some? && |apiKey.value| > 0 {
        stored := apiKey;
      } else {
        stored := None;
      }
    }

    /** A key other than the built-in one is set. */
    function HasApiKey(): (r: bool)
      reads this
      ensures r <==> apiKey.Some? && apiKey.value != [] && apiKey.value != defaultKey
    {
      apiKey.Some? && |apiKey.value| > 0 && apiKey.value != defaultKey
    }
  }
}
