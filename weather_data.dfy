/**
 * The weather data service: merging the answers of several providers
 * into the main forecast, and the rules that decide which weather
 * properties a forecast item shows.
 */
module WeatherData {
  import opened Base
  import opened JsValues

  // ---------------------------------------------------------------------
  // mergeWeatherData
  // ---------------------------------------------------------------------

  /** One entry of a time series (an hour, a day, a minute): its time and its other properties. */
  datatype Item = Item(time: int, fields: map<string, JVal>)

  /**
   * A top-level entry of a forecast: an object (currently), a time series
   * (an array, or an object whose data is the array), or any other value.
   */
  datatype Entry =
    | Fields(fields: map<string, JVal>)
    | Series(items: seq<Item>)
    | Other(value: JVal)

  /** Object.assign(a, b) on two items: b's properties overwrite a's. */
  function Assign(a: Item, b: Item): (r: Item)
    ensures r.time == a.time
    ensures r.fields.Keys == a.fields.Keys + b.fields.Keys
    ensures forall f :: f in b.fields ==> r.fields[f] == b.fields[f]
    ensures forall f :: f in a.fields && f !in b.fields ==> r.fields[f] == a.fields[f]
  {
    Item(a.time, a.fields + b.fields)
  }

  /** findIndex(d => d.time === t); None is -1. */
  function FindTime(items: seq<Item>, t: int): (r: Option<nat>)
    ensures r.Some? ==> r.value < |items| && items[r.value].time == t
    ensures r.Some? ==> forall j :: 0 <= j < r.value ==> items[j].time != t
    ensures r.None? ==> forall j :: 0 <= j < |items| ==> items[j].time != t
  {
    if items == [] then None
    else if items[0].time == t then Some(0)
    else match FindTime(items[1..], t)
      case None => None
      case Some(i) => Some(i + 1)
  }

  /**
   * Item k of the main series after pairing main index k with added
   * index k + shift: merged when that added item exists and has the same time.
   */
  function AlignedAt(main: seq<Item>, added: seq<Item>, shift: int, k: nat): (r: Item)
    requires k < |main|
    ensures r.time == main[k].time
    ensures r != main[k] ==> 0 <= k + shift < |added| && added[k + shift].time == main[k].time
  {
    if 0 <= k + shift < |added| && main[k].time == added[k + shift].time
    then Assign(main[k], added[k + shift])
    else main[k]
  }

  function Aligned(main: seq<Item>, added: seq<Item>, shift: int): (r: seq<Item>)
    ensures |r| == |main|
    ensures forall k :: 0 <= k < |main| ==> r[k] == AlignedAt(main, added, shift, k)
  {
    seq(|main|, k requires 0 <= k < |main| => AlignedAt(main, added, shift, k))
  }

  /**
   * The merge of two non-empty time series as mergeWeatherData runs it:
   * the later-starting series is located in the other by its first time,
   * and from that index on both series are read at the same index, so
   * only items that share both their index and their time are merged.
   */
  function MergedSeries(main: seq<Item>, added: seq<Item>): (r: seq<Item>)
    ensures |r| == |main|
  {
    if main == [] || added == [] then main
    else if added[0].time >= main[0].time then
      match FindTime(main, added[0].time)
      case None => main
      case Some(s) => SameIndexFrom(main, added, s)
    else
      match FindTime(added, main[0].time)
      case None => main
      case Some(s) => SameIndexFrom(main, added, s)
  }

  /** Both series read at the same index k, from index s on. */
  function SameIndexFrom(main: seq<Item>, added: seq<Item>, s: nat): (r: seq<Item>)
    ensures |r| == |main|
    ensures forall k :: 0 <= k < |main| ==>
      r[k] == (if s <= k < |added| && main[k].time == added[k].time then Assign(main[k], added[k]) else main[k])
  {
    seq(|main|, k requires 0 <= k < |main| =>
      if s <= k < |added| && main[k].time == added[k].time then Assign(main[k], added[k]) else main[k])
  }

  /**
   * The corrected merge: the two series are walked in step from where
   * they meet, main index k paired with added index k + shift.
   */
  function MergedSeriesCorrected(main: seq<Item>, added: seq<Item>): (r: seq<Item>)
    ensures |r| == |main|
  {
    if main == [] || added == [] then main
    else match MergeShift(main, added)
      case None => main
      case Some(shift) => Aligned(main, added, shift)
  }

  /** The offset from a main index to the added index it is paired with; None when the series do not meet. */
  function MergeShift(main: seq<Item>, added: seq<Item>): (r: Option<int>)
    requires main != [] && added != []
    ensures r.Some? ==> exists k :: 0 <= k < |main| && 0 <= k + r.value < |added| && main[k].time == added[k + r.value].time
  {
    if added[0].time >= main[0].time then
      match FindTime(main, added[0].time)
      case None => None
      case Some(s) =>
        assert main[s].time == added[s + -(s as int)].time;
        Some(-(s as int))
    else
      match FindTime(added, main[0].time)
      case None => None
      case Some(s) =>
        assert main[0].time == added[0 + s].time;
        Some(s as int)
  }

  /** A merge keeps the length and the times, and changes an item only by assigning the added item of the same index and time. */
  lemma MergeOnlyEqualTimes(main: seq<Item>, added: seq<Item>)
    ensures |MergedSeries(main, added)| == |main|
    ensures forall k :: 0 <= k < |main| ==> MergedSeries(main, added)[k].time == main[k].time
    ensures forall k :: 0 <= k < |main| && MergedSeries(main, added)[k] != main[k] ==>
      k < |added| && added[k].time == main[k].time && MergedSeries(main, added)[k] == Assign(main[k], added[k])
  {
  }

  /** The corrected merge also changes an item only by assigning an added item of the same time. */
  lemma MergeOnlyEqualTimesCorrected(main: seq<Item>, added: seq<Item>)
    ensures |MergedSeriesCorrected(main, added)| == |main|
    ensures forall k :: 0 <= k < |main| ==> MergedSeriesCorrected(main, added)[k].time == main[k].time
    ensures forall k :: 0 <= k < |main| && MergedSeriesCorrected(main, added)[k] != main[k] ==>
      exists j :: 0 <= j < |added| && added[j].time == main[k].time &&
        MergedSeriesCorrected(main, added)[k] == Assign(main[k], added[j])
  {
    var r := MergedSeriesCorrected(main, added);
    forall k | 0 <= k < |main| && r[k] != main[k]
      ensures exists j :: 0 <= j < |added| && added[j].time == main[k].time && r[k] == Assign(main[k], added[j])
    {
      if added[0].time >= main[0].time {
        var s := FindTime(main, added[0].time).value;
        assert added[k - s].time == main[k].time;
      } else {
        var s := FindTime(added, main[0].time).value;
        assert added[k + s].time == main[k].time;
      }
    }
  }

  /** Times strictly increase along a series. */
  predicate Increasing(items: seq<Item>)
  {
    forall i, j :: 0 <= i < j < |items| ==> items[i].time < items[j].time
  }

  /** added covers main from index s on, item for item. */
  predicate WindowOf(main: seq<Item>, added: seq<Item>, s: nat)
  {
    s + |added| <= |main| && forall j :: 0 <= j < |added| ==> added[j].time == main[s + j].time
  }

  /** Two series that start at the same time are merged at every index where their times agree. */
  lemma MergeSameStart(main: seq<Item>, added: seq<Item>)
    requires main != [] && added != [] && added[0].time == main[0].time
    ensures MergedSeries(main, added) == SameIndexFrom(main, added, 0)
  {
    assert FindTime(main, added[0].time) == Some(0);
  }

  /** An added series covering the main one from its start is merged item for item; the rest is kept. */
  lemma MergeWindowAtStart(main: seq<Item>, added: seq<Item>)
    requires added != [] && WindowOf(main, added, 0)
    ensures forall j :: 0 <= j < |added| ==> MergedSeries(main, added)[j] == Assign(main[j], added[j])
    ensures forall k :: |added| <= k < |main| ==> MergedSeries(main, added)[k] == main[k]
  {
    assert added[0].time == main[0 + 0].time;
    MergeSameStart(main, added);
  }

  /**
   * An added series that is a window of an increasing main series starting
   * after its first item is not merged at all: at every index from the
   * window's start on, the added time is that of a later main item.
   */
  lemma MergeIgnoresLaterWindow(main: seq<Item>, added: seq<Item>, s: nat)
    requires Increasing(main) && added != [] && WindowOf(main, added, s) && s > 0
    ensures MergedSeries(main, added) == main
  {
    WindowFound(main, added, s);
    var r := SameIndexFrom(main, added, s);
    forall k | 0 <= k < |main|
      ensures r[k] == main[k]
    {
      if s <= k < |added| {
        assert added[k].time == main[s + k].time;
        assert main[k].time < main[s + k].time;
      }
    }
  }

  /** The same when the added series starts first and the main series is a window of it. */
  lemma MergeIgnoresEarlierStart(main: seq<Item>, added: seq<Item>, s: nat)
    requires Increasing(added) && main != [] && WindowOf(added, main, s) && s > 0
    ensures MergedSeries(main, added) == main
  {
    assert main[0].time == added[s].time;
    assert added[0].time < added[s].time;
    assert FindTime(added, main[0].time) == Some(s);
    var r := SameIndexFrom(main, added, s);
    forall k | 0 <= k < |main|
      ensures r[k] == main[k]
    {
      if s <= k < |added| {
        assert main[k].time == added[s + k].time;
        assert added[k].time < added[s + k].time;
      }
    }
  }

  /** Corrected, an added series that is a window of the main series is merged item for item; the rest is kept. */
  lemma MergeWindowCorrected(main: seq<Item>, added: seq<Item>, s: nat)
    requires Increasing(main) && added != [] && WindowOf(main, added, s)
    ensures forall j :: 0 <= j < |added| ==> MergedSeriesCorrected(main, added)[s + j] == Assign(main[s + j], added[j])
    ensures forall k :: 0 <= k < |main| && !(s <= k < s + |added|) ==> MergedSeriesCorrected(main, added)[k] == main[k]
  {
    WindowAligned(main, added, s);
    var r := MergedSeriesCorrected(main, added);
    forall j | 0 <= j < |added|
      ensures r[s + j] == Assign(main[s + j], added[j])
    {
      assert AlignedAt(main, added, -(s as int), s + j) == Assign(main[s + j], added[j]);
    }
  }

  /** A window of an increasing main series is found where it starts, so the corrected merge pairs main index s + j with added index j. */
  lemma WindowAligned(main: seq<Item>, added: seq<Item>, s: nat)
    requires Increasing(main) && added != [] && WindowOf(main, added, s)
    ensures MergedSeriesCorrected(main, added) == Aligned(main, added, -(s as int))
  {
    WindowFound(main, added, s);
    assert MergeShift(main, added) == Some(-(s as int));
  }

  /** The search for the window's first time stops at the window's start. */
  lemma WindowFound(main: seq<Item>, added: seq<Item>, s: nat)
    requires Increasing(main) && added != [] && WindowOf(main, added, s)
    ensures added[0].time >= main[0].time && FindTime(main, added[0].time) == Some(s)
  {
    assert added[0].time == main[s].time;
    if s > 0 {
      assert main[0].time < main[s].time;
    }
    var f := FindTime(main, added[0].time);
    assert f.Some? && main[f.value].time == main[s].time;
  }

  /** Corrected, the same when the added series starts first and main is a window of it. */
  lemma MergeEarlierStartCorrected(main: seq<Item>, added: seq<Item>, s: nat)
    requires Increasing(added) && main != [] && WindowOf(added, main, s) && s > 0
    ensures forall k :: 0 <= k < |main| ==> MergedSeriesCorrected(main, added)[k] == Assign(main[k], added[s + k])
  {
    assert main[0].time == added[s].time;
    assert added[0].time < added[s].time;
    assert FindTime(added, main[0].time) == Some(s);
    assert MergeShift(main, added) == Some(s as int);
    assert MergedSeriesCorrected(main, added) == Aligned(main, added, s);
  }

  /** Three hours of main data, and an added series for the last two of them. */
  predicate LaterWindow(main: seq<Item>, added: seq<Item>)
  {
    |main| == 3 && |added| == 2 &&
    main[0].time == 0 && main[1].time == 1 && main[2].time == 2 &&
    added[0].time == 1 && added[1].time == 2
  }

  /** As written, an added series starting later than the main one is not merged at all. */
  lemma AsWrittenSkipsLaterWindow(main: seq<Item>, added: seq<Item>)
    requires LaterWindow(main, added)
    ensures MergedSeries(main, added) == main
  {
    assert FindTime(main[1..], 1) == Some(0);
    var r := SameIndexFrom(main, added, 1);
    assert r[0] == main[0];
    assert r[1] == main[1];
    assert r[2] == main[2];
  }

  /** With the series walked in step, both added hours are merged. */
  lemma CorrectedMergesLaterWindow(main: seq<Item>, added: seq<Item>)
    requires LaterWindow(main, added)
    ensures MergedSeriesCorrected(main, added) == [main[0], Assign(main[1], added[0]), Assign(main[2], added[1])]
  {
    assert WindowOf(main, added, 1);
    assert FindTime(main[1..], 1) == Some(0);
    var r := MergedSeriesCorrected(main, added);
    assert r[0] == AlignedAt(main, added, -1, 0) == main[0];
    assert r[1] == AlignedAt(main, added, -1, 1);
    assert r[2] == AlignedAt(main, added, -1, 2);
  }

  /** The merge of one key; threw means Object.assign was handed undefined or null as its target. */
  datatype KeyMerge = KeyMerge(entries: map<string, Entry>, threw: bool)

  /** The series of an entry, if it is one. */
  function SeriesOf(e: Option<Entry>): (r: Option<seq<Item>>)
  {
    if e.Some? && e.value.Series? then Some(e.value.items) else None
  }

  /**
   * One key of an added object. Two non-series values are Object-assigned
   * (the main value must be an object-coercible value); two non-empty
   * series are merged; every other combination is skipped.
   */
  function MergeKey(entries: map<string, Entry>, k: string, added: Entry): (r: KeyMerge)
    ensures r.threw <==> !added.Series? && (k !in entries || (entries[k].Other? && entries[k].value.IsNullish()))
    ensures r.entries.Keys == entries.Keys
    ensures forall other :: other in entries && other != k ==> r.entries[other] == entries[other]
  {
    var main := if k in entries then Some(entries[k]) else None;
    if !added.Series? && (main.None? || !main.value.Series?) then
      if main.None? || (main.value.Other? && main.value.value.IsNullish()) then KeyMerge(entries, true)
      else if main.value.Fields? && added.Fields? then
        KeyMerge(entries[k := Fields(main.value.fields + added.fields)], false)
      else KeyMerge(entries, false)
    else if main.Some? && main.value.Series? && added.Series? && main.value.items != [] && added.items != [] then
      KeyMerge(entries[k := Series(MergedSeries(main.value.items, added.items))], false)
    else KeyMerge(entries, false)
  }

  /** The keys of one added object, in order, until one throws. */
  function MergeObject(entries: map<string, Entry>, added: seq<(string, Entry)>): (r: KeyMerge)
    ensures r.entries.Keys == entries.Keys
    ensures added == [] ==> !r.threw
    decreases |added|
  {
    if added == [] then KeyMerge(entries, false)
    else
      var step := MergeKey(entries, added[0].0, added[0].1);
      if step.threw then step else MergeObject(step.entries, added[1..])
  }

  /** All added objects, in order, until one throws. */
  function MergeAll(entries: map<string, Entry>, addedDatas: seq<seq<(string, Entry)>>): (r: KeyMerge)
    ensures r.entries.Keys == entries.Keys
    decreases |addedDatas|
  {
    if addedDatas == [] then KeyMerge(entries, false)
    else
      var step := MergeObject(entries, addedDatas[0]);
      if step.threw then step else MergeAll(step.entries, addedDatas[1..])
  }

  /** A series keeps its length through a merge; keys are never added or removed. */
  predicate SameShape(before: map<string, Entry>, after: map<string, Entry>)
  {
    after.Keys == before.Keys &&
    forall k :: k in before && before[k].Series? ==> after[k].Series? && |after[k].items| == |before[k].items|
  }

  lemma {:induction false} MergeObjectKeepsShape(entries: map<string, Entry>, added: seq<(string, Entry)>)
    ensures SameShape(entries, MergeObject(entries, added).entries)
    decreases |added|
  {
    if added != [] {
      var step := MergeKey(entries, added[0].0, added[0].1);
      if !step.threw {
        MergeObjectKeepsShape(step.entries, added[1..]);
      }
    }
  }

  /** mergeWeatherData never changes the length of a series and adds no key. */
  lemma {:induction false} MergeAllKeepsShape(entries: map<string, Entry>, addedDatas: seq<seq<(string, Entry)>>)
    ensures SameShape(entries, MergeAll(entries, addedDatas).entries)
    decreases |addedDatas|
  {
    if addedDatas != [] {
      MergeObjectKeepsShape(entries, addedDatas[0]);
      var step := MergeObject(entries, addedDatas[0]);
      if !step.threw {
        MergeAllKeepsShape(step.entries, addedDatas[1..]);
      }
    }
  }

  /** Object entries are Object-assigned: the added properties win, the others stay. */
  lemma AssignObjects(entries: map<string, Entry>, k: string, main: map<string, JVal>, added: map<string, JVal>)
    requires k in entries && entries[k] == Fields(main)
    ensures var r := MergeKey(entries, k, Fields(added)).entries[k];
      !MergeKey(entries, k, Fields(added)).threw && r.Fields? &&
      r.fields.Keys == main.Keys + added.Keys &&
      (forall f :: f in added ==> r.fields[f] == added[f]) &&
      (forall f :: f in main && f !in added ==> r.fields[f] == main[f])
  {
  }

  class Forecast {
    /** The top-level entries of the main forecast (currently, daily, hourly, ...). */
    var entries: map<string, Entry>

    constructor (entries: map<string, Entry>)
      ensures this.entries == entries
    {
      this.entries := entries;
    }

    /**
     * mergeWeatherData(mainData, ...addedDatas): merges each added object
     * into this forecast in place; Thrown when Object.assign is handed a
     * missing or null main entry, with the keys before it already merged.
     */
    method MergeWeatherData(addedDatas: seq<seq<(string, Entry)>>) returns (r: Outcome<()>)
      modifies this
      ensures entries == MergeAll(old(entries), addedDatas).entries
      ensures r.Thrown? <==> MergeAll(old(entries), addedDatas).threw
      ensures SameShape(old(entries), entries)
    {
      MergeAllKeepsShape(entries, addedDatas);
      var index := 0;
      while index < |addedDatas|
        invariant 0 <= index <= |addedDatas|
        invariant MergeAll(entries, addedDatas[index..]) == MergeAll(old(entries), addedDatas)
      {
        var threw := MergeAddedData(addedDatas[index]);
        if threw {
          return Thrown("TypeError");
        }
        assert addedDatas[index..][1..] == addedDatas[index + 1..];
        index := index + 1;
      }
      return Ok(());
    }

    method MergeAddedData(added: seq<(string, Entry)>) returns (threw: bool)
      modifies this
      ensures MergeObject(old(entries), added) == KeyMerge(entries, threw)
    {
      var i := 0;
      while i < |added|
        invariant 0 <= i <= |added|
        invariant MergeObject(entries, added[i..]) == MergeObject(old(entries), added)
      {
        var k := added[i].0;
        var main := if k in entries then Some(entries[k]) else None;
        var addedK := added[i].1;
        if !addedK.Series? && (main.None? || !main.value.Series?) {
          if main.None? || (main.value.Other? && main.value.value.IsNullish()) {
            return true;
          }
          if main.value.Fields? && addedK.Fields? {
            entries := entries[k := Fields(main.value.fields + addedK.fields)];
          }
        } else if main.Some? && main.value.Series? && addedK.Series? && main.value.items != [] && addedK.items != [] {
          var merged := MergeSeries(main.value.items, addedK.items);
          entries := entries[k := Series(merged)];
        }
        assert added[i..][1..] == added[i + 1..];
        i := i + 1;
      }
      return false;
    }
  }

  /** The series merge: the later-starting series located in the other first, then both read at the same index. */
  method MergeSeries(main: seq<Item>, added: seq<Item>) returns (r: seq<Item>)
    requires main != [] && added != []
    ensures r == MergedSeries(main, added)
  {
    var originalFirstTime := main[0].time;
    var addedDataFirstTime := added[0].time;
    if addedDataFirstTime >= originalFirstTime {
      r := MergeIntoLater(main, added);
    } else {
      r := MergeFromEarlier(main, added);
    }
  }

  /** The branch where the added series starts no earlier than the main one. */
  method MergeIntoLater(main: seq<Item>, added: seq<Item>) returns (r: seq<Item>)
    requires main != [] && added != [] && added[0].time >= main[0].time
    ensures r == MergedSeries(main, added)
  {
    r := main;
    var found := FindTime(main, added[0].time);
    if found.Some? {
      r := WalkMain(main, added, found.value);
    }
  }

  /** The branch where the added series starts before the main one. */
  method MergeFromEarlier(main: seq<Item>, added: seq<Item>) returns (r: seq<Item>)
    requires main != [] && added != [] && added[0].time < main[0].time
    ensures r == MergedSeries(main, added)
  {
    r := main;
    var found := FindTime(added, main[0].time);
    if found.Some? {
      r := WalkAdded(main, added, found.value);
    }
  }

  /** The loop over the main series from index s, pairing main[index] with added[index]. */
  method WalkMain(main: seq<Item>, added: seq<Item>, s: nat) returns (r: seq<Item>)
    requires s <= |main|
    ensures r == SameIndexFrom(main, added, s)
  {
    r := main;
    var index := s;
    while index < |main|
      invariant s <= index <= |main| && |r| == |main|
      invariant forall k :: 0 <= k < |main| ==> r[k] == (if k < index then SameIndexFrom(main, added, s)[k] else main[k])
    {
      if index < |main| && index < |added| && r[index].time == added[index].time {
        r := r[index := Assign(r[index], added[index])];
      }
      index := index + 1;
    }
  }

  /** The loop over the added series from index s, pairing main[index] with added[index]. */
  method WalkAdded(main: seq<Item>, added: seq<Item>, s: nat) returns (r: seq<Item>)
    ensures r == SameIndexFrom(main, added, s)
  {
    r := main;
    var index := s;
    while index < |added|
      invariant s <= index && (index <= |added| || index == s) && |r| == |main|
      invariant forall k :: 0 <= k < |main| ==> r[k] == (if k < index then SameIndexFrom(main, added, s)[k] else main[k])
    {
      if index < |main| && index < |added| && r[index].time == added[index].time {
        r := r[index := Assign(r[index], added[index])];
      }
      index := index + 1;
    }
  }

  // ---------------------------------------------------------------------
  // getItemData
  // ---------------------------------------------------------------------

  /** The weather properties (enum WeatherProps). */
  datatype Prop =
    | PrecipAccumulation | PrecipProbability | CloudCover | CloudCeiling | UvIndex | WindGust
    | Moon | WindBeaufort | Temperature | TemperatureMin | TemperatureMax | SnowDepth | Snowfall
    | Iso | IconId | WindSpeed | WindBearing | RainSnowLimit | Aqi | SealevelPressure
    | RelativeHumidity | Dewpoint

  /** The property name of the enum member, as items carry it. */
  function PropName(p: Prop): (r: string)
  {
    match p
    case PrecipAccumulation => "precipAccumulation"
    case PrecipProbability => "precipProbability"
    case CloudCover => "cloudCover"
    case CloudCeiling => "cloudCeiling"
    case UvIndex => "uvIndex"
    case WindGust => "windGust"
    case Moon => "moon"
    case WindBeaufort => "windBeaufort"
    case Temperature => "temperature"
    case TemperatureMin => "temperatureMin"
    case TemperatureMax => "temperatureMax"
    case SnowDepth => "snowDepth"
    case Snowfall => "snowfall"
    case Iso => "iso"
    case IconId => "iconId"
    case WindSpeed => "windSpeed"
    case WindBearing => "windBearing"
    case RainSnowLimit => "rainSnowLimit"
    case Aqi => "aqi"
    case SealevelPressure => "sealevelPressure"
    case RelativeHumidity => "relativeHumidity"
    case Dewpoint => "dewpoint"
  }

  /** MIN_UV_INDEX, the default of the min_uv_index setting. */
  const MinUvIndex: real := 1.0

  /** A property of an item; absent properties read as undefined. */
  function Get(item: map<string, JVal>, name: string): (r: JVal)
    ensures name !in item ==> r == Undefined
    ensures name in item ==> r == item[name]
  {
    if name in item then item[name] else Undefined
  }

  /** The number a relational comparison sees; None is NaN (undefined, and values not modelled). */
  function ToNumber(v: JVal): (r: Option<real>)
    ensures r.None? <==> v.Undefined? || v.Str? || v.Arr? || v.Obj?
  {
    match v
    case Num(n) => Some(n)
    case Null => Some(0.0)
    case Bool(b) => Some(if b then 1.0 else 0.0)
    case _ => None
  }

  /** v > c, false when v is NaN. */
  predicate Above(v: JVal, c: real) { ToNumber(v).Some? && ToNumber(v).value > c }

  /** v >= c, false when v is NaN. */
  predicate AtLeast(v: JVal, c: real) { ToNumber(v).Some? && ToNumber(v).value >= c }

  /** What a shown property carries besides its value: the badge colour and text colour of a gust. */
  datatype ItemData = ItemData(key: Prop, color: Option<string>, textColor: Option<string>)

  /** The gust badge: red above 80, amber above 50. */
  function GustColors(gust: JVal): (r: (Option<string>, Option<string>))
    ensures r.1.Some?
    ensures r.0.Some? <==> Above(gust, 50.0)
  {
    if Above(gust, 80.0) then (Some("#ff0353"), Some("#ffffff"))
    else if Above(gust, 50.0) then (Some("#FFBC03"), Some("#222"))
    else (None, Some("#FFBC03"))
  }

  /** The rule that decides whether a present, non-null property is shown. */
  predicate Visible(key: Prop, item: map<string, JVal>, minUv: real)
  {
    match key
    case WindSpeed => Truthy(Get(item, "windSpeed"))
    case Temperature | RainSnowLimit | Iso | Dewpoint | RelativeHumidity | SealevelPressure | Moon => true
    case Aqi => Truthy(Get(item, "aqi"))
    case PrecipAccumulation =>
      (Get(item, "precipProbability") == Num(-1.0) || Above(Get(item, "precipProbability"), 10.0)) &&
      AtLeast(Get(item, "precipAccumulation"), 1.0)
    case CloudCover => Above(Get(item, "cloudCover"), 20.0)
    case UvIndex => AtLeast(Get(item, "uvIndex"), minUv)
    case WindGust =>
      var gust := Get(item, "windGust");
      var speed := Get(item, "windSpeed");
      Truthy(gust) &&
      (!Truthy(speed) ||
       (Above(gust, 30.0) && ToNumber(speed).Some? && Above(gust, 2.0 * ToNumber(speed).value)))
    case WindBeaufort => Truthy(Get(item, "windBeaufortIcon"))
    case _ => false
  }

  /** getItemData with the default options: None is null (or undefined). */
  function GetItemData(key: Prop, item: map<string, JVal>, minUv: real): (r: Option<ItemData>)
    ensures r.Some? ==> r.value.key == key
    ensures r.Some? <==>
      PropName(key) in item && item[PropName(key)] != Null && Visible(key, item, minUv)
  {
    if PropName(key) !in item || item[PropName(key)] == Null then None
    else if !Visible(key, item, minUv) then None
    else if key == WindGust then
      var (color, textColor) := GustColors(Get(item, "windGust"));
      Some(ItemData(key, color, textColor))
    else Some(ItemData(key, None, None))
  }

  /** A missing or null property is never shown. */
  lemma MissingNotShown(key: Prop, item: map<string, JVal>, minUv: real)
    requires PropName(key) !in item || item[PropName(key)] == Null
    ensures GetItemData(key, item, minUv).None?
  {
  }

  /** Precipitation shows iff its probability is -1 or above 10 and at least 1 of it accumulates. */
  lemma PrecipitationShown(item: map<string, JVal>, minUv: real, prob: real, acc: real)
    requires Get(item, "precipProbability") == Num(prob) && item.Keys >= {"precipAccumulation"}
    requires item["precipAccumulation"] == Num(acc)
    ensures GetItemData(PrecipAccumulation, item, minUv).Some? <==> (prob == -1.0 || prob > 10.0) && acc >= 1.0
  {
  }

  /** Cloud cover shows iff above 20, the UV index iff at least the threshold. */
  lemma CloudAndUvShown(item: map<string, JVal>, minUv: real, cloud: real, uv: real)
    requires "cloudCover" in item && item["cloudCover"] == Num(cloud)
    requires "uvIndex" in item && item["uvIndex"] == Num(uv)
    ensures GetItemData(CloudCover, item, minUv).Some? <==> cloud > 20.0
    ensures GetItemData(UvIndex, item, minUv).Some? <==> uv >= minUv
  {
  }

  /** Gusts show iff present and either there is no wind speed or they exceed 30 and twice the speed. */
  lemma GustShown(item: map<string, JVal>, minUv: real, gust: real, speed: real)
    requires "windGust" in item && item["windGust"] == Num(gust)
    requires Get(item, "windSpeed") == Num(speed)
    ensures GetItemData(WindGust, item, minUv).Some? <==>
      gust != 0.0 && (speed == 0.0 || (gust > 30.0 && gust > 2.0 * speed))
    ensures GetItemData(WindGust, item, minUv).Some? && gust > 80.0 ==>
      GetItemData(WindGust, item, minUv).value.color == Some("#ff0353")
  {
  }

  class DataService {
    /** The properties the user chose to show (setting common_data). */
    var currentWeatherData: seq<Prop>
    /** The UV threshold (setting min_uv_index). */
    var minUVIndexToShow: real

    /** The settings are parameters; None is an unset setting. */
    constructor (commonData: Option<seq<Prop>>, minUvSetting: Option<real>)
      ensures currentWeatherData ==
        (if commonData.Some? then commonData.value
         else [WindSpeed, PrecipAccumulation, CloudCover, UvIndex, WindGust, WindBeaufort, Moon])
      ensures minUVIndexToShow == (if minUvSetting.Some? then minUvSetting.value else MinUvIndex)
    {
      currentWeatherData :=
        if commonData.Some? then commonData.value
        else [WindSpeed, PrecipAccumulation, CloudCover, UvIndex, WindGust, WindBeaufort, Moon];
      minUVIndexToShow := if minUvSetting.Some? then minUvSetting.value else MinUvIndex;
    }

    /** getItemData with this service's UV threshold. */
    function ItemDataOf(key: Prop, item: map<string, JVal>): (r: Option<ItemData>)
      reads this
      ensures r == GetItemData(key, item, minUVIndexToShow)
    {
      GetItemData(key, item, minUVIndexToShow)
    }
  }

  /** keys.filter(k => filter.indexOf(k) === -1). */
  function WithoutFiltered(keys: seq<Prop>, filter: seq<Prop>): (r: seq<Prop>)
    ensures forall x :: x in r <==> x in keys && x !in filter
    ensures filter == [] ==> r == keys
  {
    if keys == [] then []
    else
      var rest := WithoutFiltered(keys[..|keys| - 1], filter);
      var last := keys[|keys| - 1];
      assert keys == keys[..|keys| - 1] + [last];
      if last in filter then rest else rest + [last]
  }

  /** The keys getIconsData considers: added before, chosen, added after, without the filtered ones. */
  function IconKeys(chosen: seq<Prop>, filter: seq<Prop>, before: seq<Prop>, after: seq<Prop>): (r: seq<Prop>)
    ensures forall p :: p in r <==> (p in before || p in chosen || p in after) && p !in filter
  {
    WithoutFiltered(before + chosen + after, filter)
  }

  /** getIconsData: the data of every considered key that shows, in order. */
  function IconsData(keys: seq<Prop>, item: map<string, JVal>, minUv: real): (r: seq<ItemData>)
    ensures |r| <= |keys|
    ensures forall i :: 0 <= i < |r| ==> r[i].key in keys && GetItemData(r[i].key, item, minUv) == Some(r[i])
  {
    if keys == [] then []
    else
      var rest := IconsData(keys[..|keys| - 1], item, minUv);
      var last := GetItemData(keys[|keys| - 1], item, minUv);
      if last.Some? then rest + [last.value] else rest
  }
}
