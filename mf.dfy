/**
 * The Météo-France provider: the conversion of its icon names to the
 * app's icon codes, the hourly precipitation probability picked from the
 * 3-hour and 6-hour hazard forecasts, and the aggregation of a day from
 * the hours inside it.
 */
module MeteoFrance {
  import opened Base
  import opened Strings
  import Icon

  // ---------------------------------------------------------------------
  // convertMFICon
  // ---------------------------------------------------------------------

  /** icon.replace(/^\D+/g, ''): the icon name without its leading non-digits. */
  function StripLeadingNonDigits(s: string): (r: string)
    ensures |r| <= |s| && r == s[|s| - |r|..]
    ensures r != [] ==> IsDigit(r[0])
  {
    if s == [] || IsDigit(s[0]) then s else StripLeadingNonDigits(s[1..])
  }

  /** Stripping skips any run of non-digits in front. */
  lemma {:induction false} StripPrefix(prefix: string, rest: string)
    requires forall i :: 0 <= i < |prefix| ==> !IsDigit(prefix[i])
    ensures StripLeadingNonDigits(prefix + rest) == StripLeadingNonDigits(rest)
    decreases |prefix|
  {
    if prefix != [] {
      assert (prefix + rest)[0] == prefix[0];
      assert (prefix + rest)[1..] == prefix[1..] + rest;
      StripPrefix(prefix[1..], rest);
    } else {
      assert prefix + rest == rest;
    }
  }

  /** The icon code of a parsed icon number; 1, NaN and unknown numbers are a clear sky. */
  function IconOfNumber(n: Option<int>): (r: int)
    ensures n.None? || n.value < 2 || n.value > 34 ==> r == 800
    ensures 200 <= r <= 804
  {
    if n.None? then 800
    else match n.value
      case 2 => 802
      case 3 => 804
      case 31 => 731
      case 32 => 781
      case 33 => 781
      case 34 => 781
      case 4 => 721
      case 5 => 721
      case 6 => 741
      case 7 => 741
      case 8 => 741
      case 9 => 500
      case 10 => 500
      case 11 => 500
      case 12 => 502
      case 13 => 502
      case 14 => 502
      case 15 => 504
      case 16 => 200
      case 24 => 201
      case 30 => 201
      case 25 => 202
      case 26 => 210
      case 27 => 211
      case 28 => 212
      case 29 => 221
      case 17 => 620
      case 18 => 600
      case 19 => 615
      case 20 => 616
      case 21 => 621
      case 22 => 601
      case 23 => 602
      case _ => 800
  }

  /** convertMFICon; None is an undefined or null icon name. */
  function ConvertMFIcon(icon: Option<string>): (r: int)
    ensures icon.None? || icon.value == [] ==> r == 801
  {
    if icon.None? || icon.value == [] then 801
    else IconOfNumber(Icon.ParseInt(StripLeadingNonDigits(icon.value)))
  }

  /** A prefix without digits in front of the number does not change the icon. */
  lemma PrefixIgnored(prefix: string, rest: string)
    requires forall i :: 0 <= i < |prefix| ==> !IsDigit(prefix[i])
    requires rest != [] && IsDigit(rest[0])
    ensures ConvertMFIcon(Some(prefix + rest)) == ConvertMFIcon(Some(rest))
  {
    StripPrefix(prefix, rest);
    assert StripLeadingNonDigits(rest) == rest;
  }

  /** A name with no digits at all is a clear sky. */
  lemma NoDigitsClearSky(icon: string)
    requires icon != [] && forall i :: 0 <= i < |icon| ==> !IsDigit(icon[i])
    ensures ConvertMFIcon(Some(icon)) == 800
  {
    StripPrefix(icon, []);
    assert icon + [] == icon;
  }

  /** Icon number 1 (a clear day or night, "p1j") is a clear sky too. */
  lemma IconOneClearSky(icon: string)
    requires icon == "p1j"
    ensures ConvertMFIcon(Some(icon)) == 800
  {
    StripOneDay(icon);
    var stripped := StripLeadingNonDigits(icon);
    ParseOneDay(stripped);
  }

  lemma StripOneDay(s: string)
    requires s == "p1j"
    ensures StripLeadingNonDigits(s) == "1j"
  {
    assert !IsDigit(s[0]) && s[1..] == "1j" && IsDigit(s[1]);
  }

  lemma ParseOneDay(s: string)
    requires s == "1j"
    ensures Icon.ParseInt(s) == Some(1)
  {
    ParseDigitThenLetter(s[0], s[1]);
    assert s == [s[0], s[1]];
  }

  /** A digit followed by a letter reads as that digit. */
  lemma ParseDigitThenLetter(d: char, c: char)
    requires IsDigit(d) && !IsDigit(c)
    ensures Icon.ParseInt([d, c]) == Some(DigitValue(d))
  {
    Icon.ParseIntOfDigitsThen([d], [c]);
    assert [d] + [c] == [d, c];
    assert [d][..0] == [];
  }

  // ---------------------------------------------------------------------
  // getHourlyPrecipitationProbability
  // ---------------------------------------------------------------------

  /** One probability forecast; None is a null or undefined hazard. */
  datatype ProbabilityForecast = ProbabilityForecast(
    time: int,
    rainHazard3h: Option<real>, rainHazard6h: Option<real>,
    snowHazard3h: Option<real>, snowHazard6h: Option<real>,
    freezingHazard: Option<real>)

  /** The scan's state; ice is None once an undefined freezing hazard was read. */
  datatype Probability = Probability(rain: real, snow: real, ice: Option<real>)

  const NoProbability: Probability := Probability(0.0, 0.0, Some(0.0))

  /** The forecast covers dt as a 3-hour slot: it starts at dt, or 1 or 2 hours before. */
  predicate InThreeHourSlot(f: ProbabilityForecast, dt: int)
  {
    f.time == dt || f.time - 3600 == dt || f.time - 3600 * 2 == dt
  }

  /** The forecast covers dt as the second half of a 6-hour slot: 3 to 5 hours before. */
  predicate InSixHourSlot(f: ProbabilityForecast, dt: int)
  {
    f.time - 3600 * 3 == dt || f.time - 3600 * 4 == dt || f.time - 3600 * 5 == dt
  }

  /** One iteration of the scan, before the break test. */
  function ProbabilityStep(p: Probability, f: ProbabilityForecast, dt: int): (r: Probability)
  {
    if InThreeHourSlot(f, dt) then
      Probability(
        if f.rainHazard3h.Some? then f.rainHazard3h.value
        else if f.rainHazard6h.Some? then f.rainHazard6h.value else p.rain,
        if f.snowHazard3h.Some? then f.snowHazard3h.value
        else if f.snowHazard6h.Some? then f.snowHazard6h.value else p.snow,
        f.freezingHazard)
    else if InSixHourSlot(f, dt) then
      Probability(
        if f.rainHazard6h.Some? then f.rainHazard6h.value else p.rain,
        if f.snowHazard6h.Some? then f.snowHazard6h.value else p.snow,
        f.freezingHazard)
    else p
  }

  /** The break test: rain or snow probability is truthy. */
  predicate Found(p: Probability) { p.rain != 0.0 || p.snow != 0.0 }

  /** The scan from state p over the remaining forecasts. */
  function ScanFrom(forecasts: seq<ProbabilityForecast>, dt: int, p: Probability): (r: Probability)
    decreases |forecasts|
  {
    if forecasts == [] then p
    else
      var next := ProbabilityStep(p, forecasts[0], dt);
      if Found(next) then next else ScanFrom(forecasts[1..], dt, next)
  }

  function HourlyPrecipitationProbability(forecasts: seq<ProbabilityForecast>, dt: int): (r: Probability)
  {
    ScanFrom(forecasts, dt, NoProbability)
  }

  /** Within the 3-hour slot the 3-hour hazard wins over the 6-hour one. */
  lemma ThreeHourPreferred(p: Probability, f: ProbabilityForecast, dt: int)
    requires InThreeHourSlot(f, dt)
    ensures f.rainHazard3h.Some? ==> ProbabilityStep(p, f, dt).rain == f.rainHazard3h.value
    ensures f.rainHazard3h.None? && f.rainHazard6h.Some? ==> ProbabilityStep(p, f, dt).rain == f.rainHazard6h.value
    ensures f.snowHazard3h.Some? ==> ProbabilityStep(p, f, dt).snow == f.snowHazard3h.value
    ensures ProbabilityStep(p, f, dt).ice == f.freezingHazard
  {
  }

  /** In the 6-hour part only the 6-hour hazard applies; outside both slots nothing changes. */
  lemma SixHourOnly(p: Probability, f: ProbabilityForecast, dt: int)
    ensures !InThreeHourSlot(f, dt) && InSixHourSlot(f, dt) ==>
      ProbabilityStep(p, f, dt).rain == (if f.rainHazard6h.Some? then f.rainHazard6h.value else p.rain) &&
      ProbabilityStep(p, f, dt).snow == (if f.snowHazard6h.Some? then f.snowHazard6h.value else p.snow)
    ensures !InThreeHourSlot(f, dt) && !InSixHourSlot(f, dt) ==> ProbabilityStep(p, f, dt) == p
  {
  }

  /** With no forecast covering dt, everything is 0. */
  lemma {:induction false} NoMatchAllZero(forecasts: seq<ProbabilityForecast>, dt: int, p: Probability)
    requires forall i :: 0 <= i < |forecasts| ==> !InThreeHourSlot(forecasts[i], dt) && !InSixHourSlot(forecasts[i], dt)
    requires !Found(p)
    ensures ScanFrom(forecasts, dt, p) == p
    decreases |forecasts|
  {
    if forecasts != [] {
      NoMatchAllZero(forecasts[1..], dt, p);
    }
  }

  /** The scan stops at the first nonzero rain or snow: later forecasts never matter. */
  lemma {:induction false} ScanStopsAtFirstFound(a: seq<ProbabilityForecast>, b: seq<ProbabilityForecast>, dt: int, p: Probability)
    requires !Found(p) && Found(ScanFrom(a, dt, p))
    ensures ScanFrom(a + b, dt, p) == ScanFrom(a, dt, p)
    decreases |a|
  {
    var next := ProbabilityStep(p, a[0], dt);
    assert (a + b)[0] == a[0];
    if !Found(next) {
      assert (a + b)[1..] == a[1..] + b;
      ScanStopsAtFirstFound(a[1..], b, dt, next);
    }
  }

  /** The scan ends either with nothing found after every forecast, or right at a forecast that made it nonzero. */
  lemma {:induction false} ScanResultOrigin(forecasts: seq<ProbabilityForecast>, dt: int, p: Probability)
    requires !Found(p)
    ensures var r := ScanFrom(forecasts, dt, p);
      !Found(r) || exists i :: 0 <= i < |forecasts| && r == ProbabilityStep(ScanFrom(forecasts[..i], dt, p), forecasts[i], dt)
    decreases |forecasts|
  {
    if forecasts != [] {
      var next := ProbabilityStep(p, forecasts[0], dt);
      assert ScanFrom(forecasts[..0], dt, p) == p;
      if !Found(next) {
        ScanResultOrigin(forecasts[1..], dt, next);
        var r := ScanFrom(forecasts, dt, p);
        if Found(r) {
          var i :| 0 <= i < |forecasts[1..]| &&
            r == ProbabilityStep(ScanFrom(forecasts[1..][..i], dt, next), forecasts[1..][i], dt);
          ScanPrefix(forecasts, i, dt, p);
          assert forecasts[1..][i] == forecasts[i + 1];
        }
      }
    }
  }

  /** Scanning a prefix of i + 1 forecasts that found nothing in the first one is scanning i from the next state. */
  lemma ScanPrefix(forecasts: seq<ProbabilityForecast>, i: nat, dt: int, p: Probability)
    requires i < |forecasts| - 0 && |forecasts| > 0 && !Found(ProbabilityStep(p, forecasts[0], dt))
    requires i + 1 <= |forecasts|
    ensures ScanFrom(forecasts[..i + 1], dt, p) == ScanFrom(forecasts[1..][..i], dt, ProbabilityStep(p, forecasts[0], dt))
  {
    assert forecasts[..i + 1][0] == forecasts[0];
    assert forecasts[..i + 1][1..] == forecasts[1..][..i];
  }

  /** The for-loop with its break. */
  method GetHourlyPrecipitationProbability(forecasts: seq<ProbabilityForecast>, dt: int) returns (r: Probability)
    ensures r == HourlyPrecipitationProbability(forecasts, dt)
  {
    r := NoProbability;
    var i := 0;
    while i < |forecasts|
      invariant 0 <= i <= |forecasts|
      invariant !Found(r)
      invariant ScanFrom(forecasts[i..], dt, r) == HourlyPrecipitationProbability(forecasts, dt)
    {
      assert forecasts[i..][1..] == forecasts[i + 1..];
      r := ProbabilityStep(r, forecasts[i], dt);
      if Found(r) {
        return;
      }
      i := i + 1;
    }
  }

  // ---------------------------------------------------------------------
  // getDaily
  // ---------------------------------------------------------------------

  /** The fields of an hour getDaily reads; None is undefined. */
  datatype Hour = Hour(
    time: int, snowfall: real, rain: real, precipAccumulation: Option<real>,
    precipProbability: Option<real>, rainSnowLimit: Option<real>, iso: Option<real>)

  /** The fields of an hourly forecast getDaily reads; a wind direction of -1 is no direction. */
  datatype HourForecast = HourForecast(
    time: int, totalCloudCover: real, windSpeed: Option<real>, windDirection: real, windSpeedGust: Option<real>)

  /** The fields of the daily forecast getDaily reads. */
  datatype DailyForecast = DailyForecast(
    time: int, icon: Option<string>, tMax: real, tMin: real,
    relativeHumidityMax: real, relativeHumidityMin: real, uvIndex: real, totalPrecipitation24h: real)

  /** A sum and how many values went into it. */
  datatype Total = Total(count: nat, total: real)

  /** if (x) { count++; total += x } */
  function AddIfTruthy(t: Total, x: Option<real>): (r: Total)
    ensures x.None? || x.value == 0.0 ==> r == t
    ensures x.Some? && x.value != 0.0 ==> r.count == t.count + 1 && r.total == t.total + x.value
  {
    if x.Some? && x.value != 0.0 then Total(t.count + 1, t.total + x.value) else t
  }

  datatype HourTotals = HourTotals(
    snowfall: real, rain: real, precipitation: real, precipProbability: real,
    probability: Total, rainSnowLimit: Total, iso: Total)

  const NoHourTotals: HourTotals := HourTotals(0.0, 0.0, 0.0, 0.0, Total(0, 0.0), Total(0, 0.0), Total(0, 0.0))

  /** The hour counts for the day when its shifted time falls in [startOfDay, endOfDay). */
  function AddHour(t: HourTotals, h: Hour, offset: int, startOfDay: int, endOfDay: int): (r: HourTotals)
    ensures !(startOfDay <= h.time + offset < endOfDay) ==> r == t
    ensures r.precipProbability >= t.precipProbability
    ensures r.probability.count <= t.probability.count + 1
  {
    var htime := h.time + offset;
    if startOfDay <= htime < endOfDay then
      HourTotals(
        t.snowfall + h.snowfall,
        t.rain + h.rain,
        if h.precipAccumulation.Some? && h.precipAccumulation.value != 0.0
        then t.precipitation + h.precipAccumulation.value else t.precipitation,
        if h.precipProbability.Some? && h.precipProbability.value != 0.0
        then (if t.precipProbability >= h.precipProbability.value then t.precipProbability else h.precipProbability.value)
        else t.precipProbability,
        AddIfTruthy(t.probability, h.precipProbability),
        AddIfTruthy(t.rainSnowLimit, h.rainSnowLimit),
        AddIfTruthy(t.iso, h.iso))
    else t
  }

  function HourAggregate(hours: seq<Hour>, offset: int, startOfDay: int, endOfDay: int): (r: HourTotals)
    ensures r.precipProbability >= 0.0
    ensures r.probability.count <= |hours|
  {
    if hours == [] then NoHourTotals
    else AddHour(HourAggregate(hours[..|hours| - 1], offset, startOfDay, endOfDay), hours[|hours| - 1], offset, startOfDay, endOfDay)
  }

  datatype ForecastTotals = ForecastTotals(cloudCover: Total, windSpeed: Total, windDegree: Total, windGust: Option<real>)

  const NoForecastTotals: ForecastTotals := ForecastTotals(Total(0, 0.0), Total(0, 0.0), Total(0, 0.0), None)

  function AddForecast(t: ForecastTotals, f: HourForecast, startOfDay: int, endOfDay: int): (r: ForecastTotals)
    ensures !(startOfDay <= f.time * 1000 < endOfDay) ==> r == t
    ensures r.cloudCover.count <= t.cloudCover.count + 1
    ensures r.windDegree.count - t.windDegree.count <= r.cloudCover.count - t.cloudCover.count
    ensures r.windSpeed.count - t.windSpeed.count <= r.cloudCover.count - t.cloudCover.count
  {
    var time := f.time * 1000;
    if startOfDay <= time < endOfDay then
      ForecastTotals(
        Total(t.cloudCover.count + 1, t.cloudCover.total + f.totalCloudCover),
        AddIfTruthy(t.windSpeed, f.windSpeed),
        if f.windDirection != -1.0 then Total(t.windDegree.count + 1, t.windDegree.total + f.windDirection) else t.windDegree,
        if t.windGust.None? || (f.windSpeedGust.Some? && f.windSpeedGust.value > t.windGust.value)
        then f.windSpeedGust else t.windGust)
    else t
  }

  function ForecastAggregate(forecasts: seq<HourForecast>, startOfDay: int, endOfDay: int): (r: ForecastTotals)
    ensures r.cloudCover.count <= |forecasts|
    ensures r.windDegree.count <= r.cloudCover.count && r.windSpeed.count <= r.cloudCover.count
  {
    if forecasts == [] then NoForecastTotals
    else AddForecast(ForecastAggregate(forecasts[..|forecasts| - 1], startOfDay, endOfDay), forecasts[|forecasts| - 1], startOfDay, endOfDay)
  }

  /** The day getDaily returns (the fields it computes; colours are left out). */
  datatype Daily = Daily(
    time: int, iconId: int, temperatureMax: real, temperatureMin: real, relativeHumidity: real,
    uvIndex: real, windGust: int, windSpeed: int, windBearing: int, cloudCover: int,
    precipProbability: Option<int>, precipAccumulation: Option<real>,
    rainSnowLimit: Option<int>, iso: Option<int>)

  /** Math.round(total / count) of a total known to have count > 0. */
  function Average(t: Total): (r: real)
    requires t.count > 0
    ensures r * t.count as real == t.total
  {
    t.total / t.count as real
  }

  /**
   * The day's wind bearing: the rounded mean direction scaled by 3.6, as
   * the wind speeds are; -1 unless more than one direction was read.
   */
  function WindBearing(t: Total): (r: int)
    ensures t.count <= 1 ==> r == -1
  {
    if t.count > 1 then Round(Average(t) * 3.6) else -1
  }

  /** The corrected wind bearing: the rounded mean direction in degrees. */
  function WindBearingCorrected(t: Total): (r: int)
    ensures t.count <= 1 ==> r == -1
  {
    if t.count > 1 then Round(Average(t)) else -1
  }

  /** The day's fields from the two loops' totals. */
  function DailyFrom(h: HourTotals, f: ForecastTotals, day: DailyForecast, offset: int): (d: Daily)
    ensures d.precipAccumulation.Some? <==> h.precipitation > 0.0 || day.totalPrecipitation24h > 0.0
    ensures d.precipAccumulation.Some? ==>
      d.precipAccumulation.value >= h.precipitation && d.precipAccumulation.value >= day.totalPrecipitation24h &&
      (d.precipAccumulation.value == h.precipitation || d.precipAccumulation.value == day.totalPrecipitation24h)
    ensures d.precipProbability.Some? <==> h.precipProbability > 0.0
    ensures d.rainSnowLimit.Some? <==> h.rainSnowLimit.count > 0
    ensures d.iso.Some? <==> h.iso.count > 0
    ensures f.windSpeed.count <= 1 ==> d.windSpeed == 0
    ensures f.cloudCover.count <= 1 ==> d.cloudCover == -1
    ensures f.windDegree.count <= 1 ==> d.windBearing == -1
  {
    var accumulation := if h.precipitation >= day.totalPrecipitation24h then h.precipitation else day.totalPrecipitation24h;
    Daily(
      day.time * 1000 + offset,
      ConvertMFIcon(day.icon),
      day.tMax, day.tMin,
      (day.relativeHumidityMax + day.relativeHumidityMin) / 2.0,
      day.uvIndex,
      Round((if f.windGust.Some? then f.windGust.value else 0.0) * 3.6),
      if f.windSpeed.count > 1 then Round(Average(f.windSpeed) * 3.6) else 0,
      WindBearing(f.windDegree),
      if f.cloudCover.count > 1 then Round(Average(f.cloudCover)) else -1,
      if h.precipProbability > 0.0 then Some(Round(h.precipProbability)) else None,
      if accumulation > 0.0 then Some(accumulation) else None,
      if h.rainSnowLimit.count > 0 then Some(Round(Average(h.rainSnowLimit))) else None,
      if h.iso.count > 0 then Some(Round(Average(h.iso))) else None)
  }

  /** getDaily with the day's bounds and the timezone offset in ms as parameters. */
  function DailyOf(hours: seq<Hour>, forecasts: seq<HourForecast>, day: DailyForecast,
                   offset: int, startOfDay: int, endOfDay: int): (r: Daily)
    ensures hours == [] ==> r.precipProbability.None? && r.rainSnowLimit.None? && r.iso.None?
    ensures forecasts == [] ==> r.windSpeed == 0 && r.windBearing == -1 && r.cloudCover == -1
  {
    DailyFrom(HourAggregate(hours, offset, startOfDay, endOfDay), ForecastAggregate(forecasts, startOfDay, endOfDay), day, offset)
  }

  /** Every counted direction lies in [0, 360]. */
  predicate DirectionsInRange(forecasts: seq<HourForecast>)
  {
    forall i :: 0 <= i < |forecasts| ==> forecasts[i].windDirection == -1.0 || 0.0 <= forecasts[i].windDirection <= 360.0
  }

  lemma {:induction false} WindDegreeBounds(forecasts: seq<HourForecast>, startOfDay: int, endOfDay: int)
    requires DirectionsInRange(forecasts)
    ensures var t := ForecastAggregate(forecasts, startOfDay, endOfDay).windDegree;
      0.0 <= t.total <= 360.0 * t.count as real
  {
    if forecasts != [] {
      var init := forecasts[..|forecasts| - 1];
      assert DirectionsInRange(init) by {
        forall i | 0 <= i < |init| ensures init[i] == forecasts[i] { }
      }
      WindDegreeBounds(init, startOfDay, endOfDay);
    }
  }

  lemma MeanInRange(t: Total)
    requires t.count > 0 && 0.0 <= t.total <= 360.0 * t.count as real
    ensures 0.0 <= Average(t) <= 360.0
  {
    var c := t.count as real;
    assert Average(t) * c == t.total;
  }

  /**
   * With directions in [0, 360], the day's bearing is -1 when unknown and
   * otherwise lies in [0, 1296], 3.6 times the range of a direction.
   */
  lemma WindBearingInRange(hours: seq<Hour>, forecasts: seq<HourForecast>, day: DailyForecast,
                           offset: int, startOfDay: int, endOfDay: int)
    requires DirectionsInRange(forecasts)
    ensures var b := DailyOf(hours, forecasts, day, offset, startOfDay, endOfDay).windBearing;
      b == -1 || 0 <= b <= 1296
  {
    var t := ForecastAggregate(forecasts, startOfDay, endOfDay).windDegree;
    WindDegreeBounds(forecasts, startOfDay, endOfDay);
    if t.count > 1 {
      MeanInRange(t);
    }
  }

  /** Corrected, with directions in [0, 360] the day's bearing is a direction, or -1 when unknown. */
  lemma WindBearingCorrectedInRange(forecasts: seq<HourForecast>, startOfDay: int, endOfDay: int)
    requires DirectionsInRange(forecasts)
    ensures var b := WindBearingCorrected(ForecastAggregate(forecasts, startOfDay, endOfDay).windDegree);
      b == -1 || 0 <= b <= 360
  {
    var t := ForecastAggregate(forecasts, startOfDay, endOfDay).windDegree;
    WindDegreeBounds(forecasts, startOfDay, endOfDay);
    if t.count > 1 {
      MeanInRange(t);
    }
  }

  /** As written, two readings from the south give a bearing of 648. */
  lemma AsWrittenBearingOutOfRange()
    ensures WindBearing(Total(2, 360.0)) == 648
    ensures WindBearingCorrected(Total(2, 360.0)) == 180
  {
  }

  /** The loop over the hours of getDaily. */
  method AggregateHours(hours: seq<Hour>, offset: int, startOfDay: int, endOfDay: int) returns (t: HourTotals)
    ensures t == HourAggregate(hours, offset, startOfDay, endOfDay)
  {
    t := NoHourTotals;
    var i := 0;
    while i < |hours|
      invariant 0 <= i <= |hours|
      invariant t == HourAggregate(hours[..i], offset, startOfDay, endOfDay)
    {
      assert hours[..i + 1][..i] == hours[..i];
      t := AddHour(t, hours[i], offset, startOfDay, endOfDay);
      i := i + 1;
    }
    assert hours[..i] == hours;
  }

  /** The loop over the hourly forecasts of getDaily. */
  method AggregateForecasts(forecasts: seq<HourForecast>, startOfDay: int, endOfDay: int) returns (t: ForecastTotals)
    ensures t == ForecastAggregate(forecasts, startOfDay, endOfDay)
  {
    t := NoForecastTotals;
    var i := 0;
    while i < |forecasts|
      invariant 0 <= i <= |forecasts|
      invariant t == ForecastAggregate(forecasts[..i], startOfDay, endOfDay)
    {
      assert forecasts[..i + 1][..i] == forecasts[..i];
      t := AddForecast(t, forecasts[i], startOfDay, endOfDay);
      i := i + 1;
    }
    assert forecasts[..i] == forecasts;
  }

  /**
   * getDaily: both loops, then the day's fields; the day's bounds come from
   * the locale helpers. The location's time zone offset is given as
   * timezoneOffset * 60 * 60 * 1000, its length in milliseconds, so
   * half- and quarter-hour zones (+5.5, +5.75) are whole numbers here.
   */
  method GetDaily(hours: Option<seq<Hour>>, forecasts: Option<seq<HourForecast>>, day: DailyForecast,
                  timezoneOffsetMs: int, startOfDay: int, endOfDay: int) returns (d: Daily)
    ensures d == DailyOf(if hours.Some? then hours.value else [], if forecasts.Some? then forecasts.value else [],
                         day, -timezoneOffsetMs, startOfDay, endOfDay)
  {
    var offset := -timezoneOffsetMs;
    var hs := if hours.Some? then hours.value else [];
    var fs := if forecasts.Some? then forecasts.value else [];
    var h := AggregateHours(hs, offset, startOfDay, endOfDay);
    var f := AggregateForecasts(fs, startOfDay, endOfDay);
    d := DailyFrom(h, f, day, offset);
  }
}
