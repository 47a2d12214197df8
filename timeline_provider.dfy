/**
 * The iOS widget timeline: the entries a widget is given and the time of
 * its next reload, by widget kind. Dates are seconds; adding minutes or an
 * hour to a date adds that many seconds, and the next midnight is given by
 * the caller (it depends on the calendar and time zone).
 */
module TimelineProvider {
  import opened Base
  import opened Strings

  /** A timeline entry: its date and the widget data it shows (None when there is none). */
  datatype WeatherEntry<D> = WeatherEntry(date: int, weatherData: Option<D>, widgetKind: string)

  /** Timeline(entries:policy: .after(nextUpdate)). */
  datatype Timeline<D> = Timeline(entries: seq<WeatherEntry<D>>, nextUpdate: int)

  const DefaultFrequency: int := 30

  /**
   * getUpdateFrequency: the stored frequency in minutes when it is
   * positive, else 30. None is a missing app-group suite; a missing key
   * reads as 0.
   */
  function GetUpdateFrequency(stored: Option<int>): (r: int)
    ensures r > 0
    ensures stored.Some? && stored.value > 0 ==> r == stored.value
    ensures stored.None? || stored.value <= 0 ==> r == DefaultFrequency
  {
    if stored.Some? && stored.value > 0 then stored.value else DefaultFrequency
  }

  /** The entries every `minutes` minutes from now, count of them. */
  function EntriesEvery<D>(now: int, minutes: int, count: nat, data: Option<D>, kind: string): (r: seq<WeatherEntry<D>>)
    ensures |r| == count
    ensures forall i :: 0 <= i < count ==> r[i] == WeatherEntry(now + 60 * i * minutes, data, kind)
  {
    seq(count, i requires 0 <= i < count => WeatherEntry(now + 60 * i * minutes, data, kind))
  }

  lemma EntriesEveryNext<D>(now: int, minutes: int, count: nat, data: Option<D>, kind: string)
    ensures EntriesEvery(now, minutes, count + 1, data, kind) ==
      EntriesEvery(now, minutes, count, data, kind) + [WeatherEntry(now + 60 * count * minutes, data, kind)]
  {
  }

  /**
   * numberOfEntries: min(12, 360 / frequency) with integer division. At
   * most 12 entries spanning at most six hours, and none at all once the
   * frequency exceeds 360 minutes.
   */
  function EntryCount(frequency: int): (n: nat)
    requires frequency > 0
    ensures n <= 12 && n * frequency <= 360
    ensures n >= 1 <==> frequency <= 360
  {
    var q := 360 / frequency;
    assert q * frequency <= 360;
    assert frequency <= 360 ==> q >= 1;
    Min(12, q)
  }

  /** The corrected count, with at least one entry: max(1, min(12, 360 / frequency)). */
  function EntryCountCorrected(frequency: int): (n: nat)
    requires frequency > 0
    ensures 1 <= n <= 12
    ensures frequency <= 360 ==> n == EntryCount(frequency)
  {
    Max(1, EntryCount(frequency))
  }

  /** The timeline of a weather-only widget, for a given entry count. */
  function WeatherTimeline<D>(now: int, frequency: int, n: nat, data: Option<D>, kind: string): (r: Timeline<D>)
    ensures |r.entries| == n && (n > 0 ==> r.entries[0].date == now)
    ensures r.nextUpdate <= now + 7200
  {
    Timeline(EntriesEvery(now, frequency, n, data, kind), now + 60 * Min(frequency * n, 120))
  }

  /** The timeline getTimeline builds for a widget kind. */
  function TimelineFor<D>(kind: string, now: int, stored: Option<int>, nextMidnight: int, data: Option<D>): (r: Timeline<D>)
    ensures |r.entries| <= 60
    ensures Contains(kind, "Clock") || Contains(kind, "Date") ==> r.entries != [] && r.entries[0].date == now
    ensures !Contains(kind, "Clock") && !Contains(kind, "Date") ==> |r.entries| <= 12 && r.nextUpdate <= now + 7200
  {
    if Contains(kind, "Clock") then Timeline(EntriesEvery(now, 1, 60, data, kind), now + 3600)
    else if Contains(kind, "Date") then Timeline([WeatherEntry(now, data, kind)], nextMidnight)
    else
      var frequency := GetUpdateFrequency(stored);
      WeatherTimeline(now, frequency, EntryCount(frequency), data, kind)
  }

  /** getTimeline, with its loops appending the entries. */
  method GetTimeline<D>(kind: string, now: int, stored: Option<int>, nextMidnight: int, data: Option<D>) returns (t: Timeline<D>)
    ensures t == TimelineFor(kind, now, stored, nextMidnight, data)
  {
    var entries: seq<WeatherEntry<D>> := [];
    var nextUpdate: int;
    if Contains(kind, "Clock") {
      for minuteOffset := 0 to 60
        invariant entries == EntriesEvery(now, 1, minuteOffset, data, kind)
      {
        EntriesEveryNext(now, 1, minuteOffset, data, kind);
        entries := entries + [WeatherEntry(now + 60 * minuteOffset * 1, data, kind)];
      }
      nextUpdate := now + 3600;
    } else if Contains(kind, "Date") {
      entries := entries + [WeatherEntry(now, data, kind)];
      nextUpdate := nextMidnight;
    } else {
      var updateFrequency := GetUpdateFrequency(stored);
      var numberOfEntries := EntryCount(updateFrequency);
      for offset := 0 to numberOfEntries
        invariant entries == EntriesEvery(now, updateFrequency, offset, data, kind)
      {
        EntriesEveryNext(now, updateFrequency, offset, data, kind);
        entries := entries + [WeatherEntry(now + 60 * offset * updateFrequency, data, kind)];
      }
      nextUpdate := now + 60 * Min(updateFrequency * numberOfEntries, 120);
    }
    t := Timeline(entries, nextUpdate);
  }

  /** Clock widgets: 60 entries one minute apart from now, and a reload one hour later, after the last entry. */
  lemma ClockTimeline<D>(kind: string, now: int, stored: Option<int>, nextMidnight: int, data: Option<D>)
    requires Contains(kind, "Clock")
    ensures var t := TimelineFor(kind, now, stored, nextMidnight, data);
      |t.entries| == 60 && t.entries[0].date == now && t.nextUpdate == now + 3600 &&
      (forall i :: 0 < i < 60 ==> t.entries[i].date == t.entries[i - 1].date + 60) &&
      t.entries[59].date < t.nextUpdate
  {
  }

  /** Date widgets (that are not clock widgets): one entry now and a reload at the next midnight. */
  lemma DateTimeline<D>(kind: string, now: int, stored: Option<int>, nextMidnight: int, data: Option<D>)
    requires !Contains(kind, "Clock") && Contains(kind, "Date")
    ensures TimelineFor(kind, now, stored, nextMidnight, data) == Timeline([WeatherEntry(now, data, kind)], nextMidnight)
  {
  }

  lemma MulMonotone(a: int, b: int, c: nat)
    requires a <= b
    ensures a * c <= b * c
  {
  }

  lemma NextMultiple(i: int, f: int)
    ensures 60 * i * f == 60 * (i - 1) * f + 60 * f
  {
  }

  /**
   * Other widgets: at most 12 entries, frequency minutes apart from now,
   * spanning less than six hours, and a reload at most two hours later.
   * There is an entry exactly when the frequency is at most 360 minutes,
   * and the reload is then after now; without one it is now.
   */
  lemma WeatherTimelineShape<D>(now: int, f: int, data: Option<D>, kind: string)
    requires f > 0
    ensures var t := WeatherTimeline(now, f, EntryCount(f), data, kind);
      |t.entries| <= 12 && (t.entries != [] <==> f <= 360) &&
      (t.entries != [] ==> t.entries[0].date == now && (|t.entries| - 1) * f < 360 && now < t.nextUpdate) &&
      (t.entries == [] ==> t.nextUpdate == now) &&
      (forall i :: 0 < i < |t.entries| ==> t.entries[i].date == t.entries[i - 1].date + 60 * f) &&
      t.nextUpdate <= now + 7200
  {
    var n := EntryCount(f);
    var t := WeatherTimeline(now, f, n, data, kind);
    if n > 0 {
      assert (n - 1) * f == n * f - f;
      MulMonotone(1, n, f);
    }
    forall i | 0 < i < n ensures t.entries[i].date == t.entries[i - 1].date + 60 * f {
      NextMultiple(i, f);
    }
  }

  /**
   * As written, a frequency above 360 minutes (the settings allow up to
   * 1440) gives no entry at all, and a reload policy at the current time.
   */
  lemma AsWrittenEmptyTimeline<D>(now: int, data: Option<D>, kind: string)
    ensures EntryCount(720) == 0
    ensures WeatherTimeline(now, 720, EntryCount(720), data, kind) == Timeline([], now)
  {
  }

  /** With at least one entry the timeline of every frequency shows something until its reload. */
  lemma CorrectedTimelineNotEmpty<D>(now: int, frequency: int, data: Option<D>, kind: string)
    requires frequency > 0
    ensures var t := WeatherTimeline(now, frequency, EntryCountCorrected(frequency), data, kind);
      t.entries != [] && t.entries[0].date == now && t.nextUpdate > now
  {
  }
}
