/**
 * The app-side formatting of weather data for the widgets: which location
 * names stand for the current location, the bounded hourly, daily and
 * mixed forecast lists, and the path of an icon image.
 */
module WidgetDataManager {
  import opened Base

  /** isDefaultLocation: an empty or absent name, "current" or "default". */
  predicate IsDefaultLocation(locationName: Option<string>)
  {
    locationName.None? || locationName.value == [] || locationName.value == "current" || locationName.value == "default"
  }

  lemma DefaultLocationNames(name: string)
    ensures IsDefaultLocation(Some(name)) <==> name in {"", "current", "default"}
    ensures !IsDefaultLocation(Some("Paris"))
  {
  }

  /** xs.slice(start, end) for 0 <= start <= end. */
  function Slice<T>(xs: seq<T>, start: nat, end: nat): (r: seq<T>)
    requires start <= end
    ensures |r| == (if |xs| <= start then 0 else Min(end, |xs|) - start)
    ensures forall i :: 0 <= i < |r| ==> r[i] == xs[start + i]
  {
    if |xs| <= start then [] else xs[start..Min(end, |xs|)]
  }

  function Map<T, U>(xs: seq<T>, f: T -> U): (r: seq<U>)
    ensures |r| == |xs| && forall i :: 0 <= i < |xs| ==> r[i] == f(xs[i])
  {
    seq(|xs|, i requires 0 <= i < |xs| => f(xs[i]))
  }

  /** The weather data the formatting reads; None is an absent list. */
  datatype WeatherData<C, H, D> = WeatherData(currently: C, hourly: Option<seq<H>>, daily: Option<seq<D>>)

  /** The widget data: the current conditions and the three lists. */
  datatype WidgetData<CF, HF, DF, F> = WidgetData(current: CF, locationName: string, hourlyData: seq<HF>, dailyData: seq<DF>, forecastData: seq<F>)

  /** A weather location: its name and coordinates as the configuration holds them. */
  datatype WeatherLocation = WeatherLocation(name: Option<string>, lat: Option<real>, lon: Option<real>)

  /**
   * The location getWidgetWeatherData asks the weather for: the configured
   * one, or for a default name the app's selected location from the
   * settings (None when none is stored: JSON.parse('null')).
   */
  function WidgetLocation(config: WeatherLocation, selected: Option<WeatherLocation>): (r: Option<WeatherLocation>)
    ensures r == Some(config) || r == selected
  {
    if IsDefaultLocation(config.name) then selected else Some(config)
  }

  /** A named configuration is used as it is; a default one follows the selection, whatever its coordinates. */
  lemma WidgetLocationChoice(config: WeatherLocation, selected: Option<WeatherLocation>, lat: Option<real>, lon: Option<real>)
    ensures config.name.Some? && config.name.value !in {"", "current", "default"} ==> WidgetLocation(config, selected) == Some(config)
    ensures IsDefaultLocation(config.name) ==>
      WidgetLocation(config, selected) == WidgetLocation(config.(lat := lat, lon := lon), selected) == selected
  {
  }

  /** The next 24 hours, formatted; empty when there are none. */
  function HourlyData<H, HF>(hourly: Option<seq<H>>, f: H -> HF): (r: seq<HF>)
    ensures |r| <= 24
  {
    if hourly.Some? && |hourly.value| > 0 then Map(Slice(hourly.value, 0, 24), f) else []
  }

  /** The next 7 days, formatted. */
  function DailyData<D, DF>(daily: Option<seq<D>>, f: D -> DF): (r: seq<DF>)
    ensures |r| <= 7
  {
    if daily.Some? && |daily.value| > 0 then Map(Slice(daily.value, 0, 7), f) else []
  }

  /** The mixed forecast: at most 6 hours, then days 1 to 4. */
  function ForecastData<H, D, F>(hourly: Option<seq<H>>, daily: Option<seq<D>>, ofHour: H -> F, ofDay: D -> F): (r: seq<F>)
    ensures |r| <= 10
  {
    (if hourly.Some? && |hourly.value| > 0 then Map(Slice(hourly.value, 0, 6), ofHour) else []) +
    (if daily.Some? then Map(Slice(daily.value, 1, 5), ofDay) else [])
  }

  /** At most 10 entries: the first min(6, hours) hours, then the days after the first, up to the fifth. */
  lemma ForecastDataShape<H, D, F>(hourly: seq<H>, daily: seq<D>, ofHour: H -> F, ofDay: D -> F)
    ensures var r := ForecastData(Some(hourly), Some(daily), ofHour, ofDay);
      var h := Min(6, |hourly|);
      |r| <= 10 &&
      |r| == h + (if |daily| <= 1 then 0 else Min(5, |daily|) - 1) &&
      (forall i :: 0 <= i < h ==> r[i] == ofHour(hourly[i])) &&
      (forall i :: h <= i < |r| ==> r[i] == ofDay(daily[i - h + 1]))
  {
  }

  /** The forEach loops that push into forecastData. */
  method BuildForecastData<H, D, F>(hourly: Option<seq<H>>, daily: Option<seq<D>>, ofHour: H -> F, ofDay: D -> F)
    returns (forecastData: seq<F>)
    ensures forecastData == ForecastData(hourly, daily, ofHour, ofDay)
  {
    forecastData := [];
    if hourly.Some? && |hourly.value| > 0 {
      var hours := Slice(hourly.value, 0, 6);
      var i := 0;
      while i < |hours|
        invariant 0 <= i <= |hours|
        invariant forecastData == Map(hours[..i], ofHour)
      {
        forecastData := forecastData + [ofHour(hours[i])];
        i := i + 1;
      }
      assert hours[..i] == hours;
    }
    ghost var first := forecastData;
    if daily.Some? {
      var days := Slice(daily.value, 1, 5);
      var i := 0;
      while i < |days|
        invariant 0 <= i <= |days|
        invariant forecastData == first + Map(days[..i], ofDay)
      {
        forecastData := forecastData + [ofDay(days[i])];
        i := i + 1;
      }
      assert days[..i] == days;
    }
  }

  /** formatWeatherDataForWidget: None (undefined) without weather data. */
  method FormatWeatherDataForWidget<C, H, D, CF, HF, DF, F>(
    weatherData: Option<WeatherData<C, H, D>>, location: WeatherLocation,
    ofCurrent: C -> CF, ofHourly: H -> HF, ofDaily: D -> DF, ofHour: H -> F, ofDay: D -> F)
    returns (r: Option<WidgetData<CF, HF, DF, F>>)
    ensures r.None? <==> weatherData.None?
    ensures r.Some? ==>
      var w := weatherData.value;
      r.value.current == ofCurrent(w.currently) &&
      r.value.locationName == (if location.name.Some? then location.name.value else "") &&
      r.value.hourlyData == HourlyData(w.hourly, ofHourly) &&
      r.value.dailyData == DailyData(w.daily, ofDaily) &&
      r.value.forecastData == ForecastData(w.hourly, w.daily, ofHour, ofDay)
  {
    if weatherData.None? {
      return None;
    }
    var w := weatherData.value;
    var forecast := BuildForecastData(w.hourly, w.daily, ofHour, ofDay);
    var name := if location.name.Some? then location.name.value else "";
    r := Some(WidgetData(ofCurrent(w.currently), name, HourlyData(w.hourly, ofHourly), DailyData(w.daily, ofDaily), forecast));
  }

  /**
   * getWidgetWeatherData: the weather of the chosen location, formatted;
   * None when there is no location. getWeather is the parameter fetch.
   */
  method GetWidgetWeatherData<C, H, D, CF, HF, DF, F>(
    config: WeatherLocation, selected: Option<WeatherLocation>,
    fetch: WeatherLocation -> Option<WeatherData<C, H, D>>,
    ofCurrent: C -> CF, ofHourly: H -> HF, ofDaily: D -> DF, ofHour: H -> F, ofDay: D -> F)
    returns (r: Option<WidgetData<CF, HF, DF, F>>)
    ensures WidgetLocation(config, selected).None? ==> r.None?
    ensures WidgetLocation(config, selected).Some? ==>
      (r.Some? <==> fetch(WidgetLocation(config, selected).value).Some?)
    ensures r.Some? ==>
      var w := fetch(WidgetLocation(config, selected).value).value;
      r.value.forecastData == ForecastData(w.hourly, w.daily, ofHour, ofDay) &&
      r.value.hourlyData == HourlyData(w.hourly, ofHourly) && r.value.dailyData == DailyData(w.daily, ofDaily)
  {
    var location := config;
    if IsDefaultLocation(config.name) {
      if selected.None? {
        return None;
      }
      location := selected.value;
    }
    var weatherData := fetch(location);
    r := FormatWeatherDataForWidget(weatherData, location, ofCurrent, ofHourly, ofDaily, ofHour, ofDay);
  }

  /** getIconPath: "<icon themes folder>/<set>/images/<icon>.png"; getIcon's null for an undefined code prints as "null". */
  function GetIconPath(iconThemesFolder: string, iconSet: Option<string>, serviceIconSet: string, icon: Option<string>): (p: string)
    ensures |p| > 4 && p[|p| - 4..] == ".png"
    ensures iconThemesFolder + "/" <= p
  {
    var chosenSet := if iconSet.Some? && iconSet.value != [] then iconSet.value else serviceIconSet;
    iconThemesFolder + "/" + chosenSet + "/images/" + (if icon.Some? then icon.value else "null") + ".png"
  }

  /** The path is the set's folder, then images/, then the icon name (or null) and .png. */
  lemma IconPathShape(folder: string, iconSet: Option<string>, serviceIconSet: string, icon: string)
    ensures var chosenSet := if iconSet.Some? && iconSet.value != [] then iconSet.value else serviceIconSet;
      var p := GetIconPath(folder, iconSet, serviceIconSet, Some(icon));
      var dir := folder + "/" + chosenSet + "/images/";
      |p| == |dir| + |icon| + 4 && p[..|dir|] == dir && p[|dir|..|dir| + |icon|] == icon && p[|p| - 4..] == ".png"
  {
    var chosenSet := if iconSet.Some? && iconSet.value != [] then iconSet.value else serviceIconSet;
    var dir := folder + "/" + chosenSet + "/images/";
    var p := GetIconPath(folder, iconSet, serviceIconSet, Some(icon));
    assert p == dir + icon + ".png";
    PathParts(dir, icon, ".png");
  }

  /** Without an icon set of its own, the widget uses the service's set. */
  lemma IconPathDefaultSet(folder: string, serviceIconSet: string, icon: Option<string>)
    ensures GetIconPath(folder, None, serviceIconSet, icon) == GetIconPath(folder, Some(serviceIconSet), serviceIconSet, icon)
  {
  }

  /** An undefined icon prints as "null". */
  lemma IconPathNull(folder: string, iconSet: Option<string>, serviceIconSet: string)
    ensures var chosenSet := if iconSet.Some? && iconSet.value != [] then iconSet.value else serviceIconSet;
      GetIconPath(folder, iconSet, serviceIconSet, None) == folder + "/" + chosenSet + "/images/null.png"
  {
  }

  /** The three pieces of a concatenation are read back by slicing. */
  lemma PathParts(a: string, b: string, c: string)
    ensures var p := a + b + c;
      |p| == |a| + |b| + |c| && p[..|a|] == a && p[|a|..|a| + |b|] == b && p[|p| - |c|..] == c
  {
    var p := a + b + c;
    assert p[..|a|] == a;
    assert p[|a|..|a| + |b|] == b;
    assert p[|p| - |c|..] == c;
  }
}
