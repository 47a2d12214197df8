/**
 * Air quality: the index of a pollutant concentration, interpolated
 * between the level thresholds of its table, the AQI as the highest of
 * four pollutant indexes, and the day's running AQI total.
 */
module AirQuality {
  import opened Base
  import opened Strings
  import UtilsCommon

  datatype Pollutant = CO | NO | NO2 | O3 | SO2 | PM25 | PM10 | NH3

  /** POLLUTANT_LEVEL_INDEXES; None for the pollutants without a table. */
  function Thresholds(p: Pollutant): (t: Option<seq<real>>)
    ensures t.Some? ==> |t.value| == 6 && UtilsCommon.Sorted(t.value) && t.value[0] == 0.0 && t.value[5] > 0.0
  {
    match p
    case O3 => Some([0.0, 50.0, 100.0, 160.0, 240.0, 480.0])
    case NO2 => Some([0.0, 10.0, 25.0, 200.0, 400.0, 1000.0])
    case PM10 => Some([0.0, 15.0, 45.0, 80.0, 160.0, 400.0])
    case PM25 => Some([0.0, 5.0, 15.0, 30.0, 60.0, 150.0])
    case SO2 => Some([0.0, 20.0, 40.0, 270.0, 500.0, 960.0])
    case CO => Some([0.0, 2.0, 4.0, 35.0, 100.0, 230.0])
    case _ => None
  }

  /** POLLUTANT_DEFAULT_LEVEL_INDEXES: the index at each level threshold. */
  const DefaultLevelIndexes: seq<real> := [0.0, 20.0, 50.0, 100.0, 150.0, 250.0]

  /** _getIndex: the linear map of [bpLo, bpHi] onto [inLo, inHi], rounded. */
  function GetIndex(cp: real, bpLo: real, bpHi: real, inLo: real, inHi: real): (r: int)
    requires bpLo < bpHi
  {
    Round(((inHi - inLo) / (bpHi - bpLo)) * (cp - bpLo) + inLo)
  }

  /** The ends of the breakpoint range map to the ends of the index range, and the map keeps the order. */
  lemma GetIndexEnds(cp: real, cq: real, bpLo: real, bpHi: real, inLo: int, inHi: int)
    requires bpLo < bpHi && inLo <= inHi
    ensures GetIndex(bpLo, bpLo, bpHi, inLo as real, inHi as real) == inLo
    ensures GetIndex(bpHi, bpLo, bpHi, inLo as real, inHi as real) == inHi
    ensures cp <= cq ==> GetIndex(cp, bpLo, bpHi, inLo as real, inHi as real) <= GetIndex(cq, bpLo, bpHi, inLo as real, inHi as real)
  {
    var slope := (inHi - inLo) as real / (bpHi - bpLo);
    assert slope * (bpHi - bpLo) == (inHi - inLo) as real;
    assert slope >= 0.0;
    if cp <= cq {
      assert slope * (cp - bpLo) <= slope * (cq - bpLo);
    }
  }

  /** getIndexFromLevel: -1 without a table, interpolation inside it, linear extrapolation above it. */
  function GetIndexFromLevel(p: Pollutant, cp: real, level: nat): (r: int)
    ensures Thresholds(p).None? ==> r == -1
    ensures Thresholds(p).Some? && level < 5 && Thresholds(p).value[level] <= cp <= Thresholds(p).value[level + 1] ==>
      DefaultLevelIndexes[level] <= r as real <= DefaultLevelIndexes[level + 1]
  {
    var thresholds := Thresholds(p);
    if thresholds.None? then -1
    else
      var t := thresholds.value;
      if level < |t| - 1 then
        var d := DefaultLevelIndexes;
        assert d[level] == d[level].Floor as real && d[level + 1] == d[level + 1].Floor as real;
        if t[level] <= cp <= t[level + 1] then
          GetIndexEnds(t[level], cp, t[level], t[level + 1], d[level].Floor, d[level + 1].Floor);
          GetIndexEnds(cp, t[level + 1], t[level], t[level + 1], d[level].Floor, d[level + 1].Floor);
          GetIndex(cp, t[level], t[level + 1], d[level], d[level + 1])
        else
          GetIndex(cp, t[level], t[level + 1], DefaultLevelIndexes[level], DefaultLevelIndexes[level + 1])
      else
        Round((cp * DefaultLevelIndexes[|DefaultLevelIndexes| - 1]) / t[|t| - 1])
  }

  /** The three cases of getIndexFromLevel. */
  lemma IndexFromLevelCases(p: Pollutant, cp: real, level: nat)
    ensures Thresholds(p).None? ==> GetIndexFromLevel(p, cp, level) == -1
    ensures Thresholds(p).Some? && level < 5 ==>
      var t := Thresholds(p).value;
      GetIndexFromLevel(p, cp, level) == GetIndex(cp, t[level], t[level + 1], DefaultLevelIndexes[level], DefaultLevelIndexes[level + 1])
    ensures Thresholds(p).Some? && level >= 5 ==>
      GetIndexFromLevel(p, cp, level) == Round(cp * 250.0 / Thresholds(p).value[5])
  {
  }

  /** At a level threshold the index is that level's default index. */
  lemma IndexAtThreshold(p: Pollutant, level: nat)
    requires Thresholds(p).Some? && level < 5
    ensures GetIndexFromLevel(p, Thresholds(p).value[level], level) == DefaultLevelIndexes[level].Floor
  {
    var t := Thresholds(p).value;
    var d := DefaultLevelIndexes;
    assert d[level] == d[level].Floor as real && d[level + 1] == d[level + 1].Floor as real;
    assert t[level] < t[level + 1];
    GetIndexEnds(t[level], t[level], t[level], t[level + 1], d[level].Floor, d[level + 1].Floor);
  }

  /**
   * getPollutantIndex: None for a null concentration; Thrown where the
   * pollutant has no table (nearest indexes into undefined).
   */
  function GetPollutantIndex(p: Pollutant, cp: Option<real>): (r: Outcome<Option<int>>)
    ensures cp.None? ==> r == Ok(None)
    ensures r.Thrown? <==> cp.Some? && Thresholds(p).None?
  {
    if cp.None? then Ok(None)
    else if Thresholds(p).None? then Thrown("TypeError")
    else
      var low := UtilsCommon.NearestFrom(Thresholds(p).value, cp, 0);
      if low >= 0 then Ok(Some(GetIndexFromLevel(p, cp.value, low))) else Ok(None)
  }

  /** For a concentration the index is never null: low >= 0 always holds, so the null branch is dead. */
  lemma PollutantIndexOfValue(p: Pollutant, cp: real)
    requires Thresholds(p).Some?
    ensures GetPollutantIndex(p, Some(cp)).Ok? && GetPollutantIndex(p, Some(cp)).value.Some?
    ensures GetPollutantIndex(p, Some(cp)).value.value ==
      GetIndexFromLevel(p, cp, UtilsCommon.CountBelow(Thresholds(p).value[1..], cp))
  {
    UtilsCommon.NearestOnSorted(Thresholds(p).value, cp);
  }

  /** The pollutants the AQI is taken over, in the source's order. */
  const AqiPollutants: seq<Pollutant> := [O3, NO2, PM10, PM25]

  /** Math.max's view of one index: null counts as 0. */
  function MaxOperand(i: Option<int>): (r: int)
  {
    if i.Some? then i.value else 0
  }

  /** The indexes of the AQI pollutants; Thrown when one of them is missing from the record. */
  function AqiIndexes(pollutants: map<Pollutant, Option<real>>, ps: seq<Pollutant>): (r: Outcome<seq<int>>)
    requires forall i :: 0 <= i < |ps| ==> Thresholds(ps[i]).Some?
    ensures r.Ok? <==> forall i :: 0 <= i < |ps| ==> ps[i] in pollutants
    ensures r.Ok? ==> |r.value| == |ps| && forall i :: 0 <= i < |ps| ==>
      GetPollutantIndex(ps[i], pollutants[ps[i]]).Ok? &&
      r.value[i] == MaxOperand(GetPollutantIndex(ps[i], pollutants[ps[i]]).value)
  {
    if ps == [] then Ok([])
    else if ps[0] !in pollutants then Thrown("TypeError")
    else
      var rest := AqiIndexes(pollutants, ps[1..]);
      if rest.Thrown? then rest
      else Ok([MaxOperand(GetPollutantIndex(ps[0], pollutants[ps[0]]).value)] + rest.value)
  }

  function MaxOf(xs: seq<int>): (m: int)
    requires xs != []
    ensures forall i :: 0 <= i < |xs| ==> xs[i] <= m
    ensures exists i :: 0 <= i < |xs| && xs[i] == m
  {
    if |xs| == 1 then xs[0]
    else
      var rest := MaxOf(xs[1..]);
      assert forall i :: 1 <= i < |xs| ==> xs[i] == xs[1..][i - 1];
      if xs[0] >= rest then xs[0] else rest
  }

  /** getAqiFromPollutants: the highest of the O3, NO2, PM10 and PM2.5 indexes. */
  function GetAqiFromPollutants(pollutants: map<Pollutant, Option<real>>): (r: Outcome<int>)
    ensures r.Ok? <==> forall p :: p in AqiPollutants ==> p in pollutants
  {
    var indexes := AqiIndexes(pollutants, AqiPollutants);
    if indexes.Thrown? then Thrown(indexes.error) else Ok(MaxOf(indexes.value))
  }

  /** The AQI is at least each of the four indexes and equal to one of them (null counting as 0). */
  lemma AqiIsMaximum(pollutants: map<Pollutant, Option<real>>)
    requires forall p :: p in AqiPollutants ==> p in pollutants
    ensures GetAqiFromPollutants(pollutants).Ok?
    ensures var aqi := GetAqiFromPollutants(pollutants).value;
      (forall p :: p in AqiPollutants ==> MaxOperand(GetPollutantIndex(p, pollutants[p]).value) <= aqi) &&
      (exists p :: p in AqiPollutants && MaxOperand(GetPollutantIndex(p, pollutants[p]).value) == aqi)
  {
    var indexes := AqiIndexes(pollutants, AqiPollutants).value;
    var aqi := MaxOf(indexes);
    forall p | p in AqiPollutants ensures MaxOperand(GetPollutantIndex(p, pollutants[p]).value) <= aqi {
      var i :| 0 <= i < |AqiPollutants| && AqiPollutants[i] == p;
      assert indexes[i] <= aqi;
    }
    var i :| 0 <= i < |indexes| && indexes[i] == aqi;
    assert AqiPollutants[i] in AqiPollutants;
  }

  /** The running AQI total of a day (tempDatas.aqi). */
  datatype AqiTotal = AqiTotal(sum: int, count: nat)

  /** The day a record is added to. */
  class DayTotals {
    var aqi: Option<AqiTotal>
    constructor()
      ensures aqi.None?
    {
      aqi := None;
    }
  }

  /** An air-quality record: its pollutants and its AQI once prepared. */
  class AirQualityRecord {
    var pollutants: map<Pollutant, Option<real>>
    var aqi: Option<int>
    constructor(pollutants: map<Pollutant, Option<real>>)
      ensures this.pollutants == pollutants && aqi.None?
    {
      this.pollutants := pollutants;
      aqi := None;
    }
  }

  /** The day's total after one more record. */
  function AddToTotal(total: Option<AqiTotal>, aqi: int): (r: AqiTotal)
    ensures r.count == (if total.Some? then total.value.count else 0) + 1
    ensures r.sum == (if total.Some? then total.value.sum else 0) + aqi
  {
    var t := if total.Some? then total.value else AqiTotal(0, 0);
    AqiTotal(t.sum + aqi, t.count + 1)
  }

  /**
   * prepareAirQualityData: sets the record's AQI and adds it to the
   * day's sum and count; a missing pollutant throws before anything changes.
   */
  method PrepareAirQualityData(d: AirQualityRecord, lastDay: DayTotals?) returns (r: Outcome<()>)
    modifies d, lastDay
    ensures GetAqiFromPollutants(old(d.pollutants)).Thrown? ==>
      (r.Thrown? && unchanged(d) && (lastDay != null ==> unchanged(lastDay)))
    ensures GetAqiFromPollutants(old(d.pollutants)).Ok? ==>
      (r.Ok? && d.aqi == Some(GetAqiFromPollutants(old(d.pollutants)).value) && d.pollutants == old(d.pollutants) &&
       (lastDay != null ==> lastDay.aqi == Some(AddToTotal(old(lastDay.aqi), GetAqiFromPollutants(old(d.pollutants)).value))))
  {
    var aqi := GetAqiFromPollutants(d.pollutants);
    if aqi.Thrown? {
      return Thrown(aqi.error);
    }
    d.aqi := Some(aqi.value);
    if lastDay != null {
      lastDay.aqi := Some(AddToTotal(lastDay.aqi, aqi.value));
    }
    return Ok(());
  }
}
