/**
 * The Open-Meteo provider: the conversion of WMO weather codes to the
 * app's icon codes, the lookup of a model's series with its fallbacks,
 * the mixing of a model's series over the best-match one, the models
 * query parameter and the intensity of a quarter-hour of precipitation.
 */
module OpenMeteo {
  import opened Base
  import opened JsValues
  import Icon

  /** convertWeatherCodeToIcon: WMO code to icon code; None is undefined (no case matched). */
  function ConvertWeatherCodeToIcon(code: int): (r: Option<int>)
    ensures r.Some? <==> code in KnownCodes
    ensures r.Some? ==> 200 <= r.value <= 804
  {
    match code
    case 0 => Some(800)
    case 1 => Some(800)
    case 2 => Some(802)
    case 3 => Some(804)
    case 45 => Some(741)
    case 48 => Some(741)
    case 51 => Some(300)
    case 56 => Some(300)
    case 53 => Some(310)
    case 57 => Some(310)
    case 55 => Some(321)
    case 61 => Some(500)
    case 63 => Some(502)
    case 66 => Some(502)
    case 65 => Some(504)
    case 67 => Some(504)
    case 80 => Some(520)
    case 81 => Some(520)
    case 82 => Some(530)
    case 71 => Some(600)
    case 73 => Some(601)
    case 85 => Some(601)
    case 75 => Some(602)
    case 86 => Some(602)
    case 77 => Some(611)
    case 95 => Some(200)
    case 96 => Some(210)
    case 97 => Some(202)
    case 99 => Some(202)
    case _ => None
  }

  /** The WMO codes the provider knows. */
  const KnownCodes: set<int> :=
    {0, 1, 2, 3, 45, 48, 51, 53, 55, 56, 57, 61, 63, 65, 66, 67, 71, 73, 75, 77, 80, 81, 82, 85, 86, 95, 96, 97, 99}

  /** Exactly the known codes convert, to a code of the icon range; clear and cloudy skies map to 800-804. */
  lemma ConvertedCodes(code: int)
    ensures ConvertWeatherCodeToIcon(code).Some? <==> code in KnownCodes
    ensures ConvertWeatherCodeToIcon(code).Some? ==> 200 <= ConvertWeatherCodeToIcon(code).value <= 804
    ensures code == 0 || code == 1 ==> ConvertWeatherCodeToIcon(code) == Some(800)
    ensures code == 2 ==> ConvertWeatherCodeToIcon(code) == Some(802)
    ensures code == 3 ==> ConvertWeatherCodeToIcon(code) == Some(804)
  {
  }

  /**
   * Every converted code other than 530 resolves to an icon in any icon
   * set that holds the base codes; 530 has no fallback entry at all.
   */
  lemma ConvertedCodesResolve(m: map<int, int>, code: int)
    requires Icon.HasBaseCodes(Icon.AsWritten, m)
    requires ConvertWeatherCodeToIcon(code).Some? && ConvertWeatherCodeToIcon(code).value != 530
    ensures var c := ConvertWeatherCodeToIcon(code).value; Icon.Resolve(Icon.AsWritten, m, c, c).Some?
  {
    var c := ConvertWeatherCodeToIcon(code).value;
    if Icon.Next(Icon.AsWritten, c).None? {
      var k := c + 1;
      assert Icon.Next(Icon.AsWritten, k) == Some(c);
    }
    Icon.AsWrittenResolvesWithBaseCodes(m, c);
  }

  lemma NoFallbackFor530()
    ensures Icon.Next(Icon.Corrected, 530).None? && Icon.Next(Icon.AsWritten, 530).None?
    ensures ConvertWeatherCodeToIcon(82) == Some(530)
  {
  }

  /** Code 82 in an icon set without an icon for 530 is a call on which getIcon's loop never ends. */
  lemma Code82WithoutIcon530(m: map<int, int>)
    requires 530 !in m
    ensures forall fuel: nat :: Icon.Resolve(Icon.AsWritten, m, ConvertWeatherCodeToIcon(82).value, fuel) == None
  {
    NoFallbackFor530();
    Icon.AsWrittenLoopsWithoutFallback(m, 530);
  }

  /** A series object of the forecast (hourly, daily, minutely_15): arrays by key; absent keys are undefined. */
  type Series = map<string, seq<JVal>>

  const BestMatch: string := "best_match"

  /** getDataArray: the model's array, else the best-match array, else the plain key's. */
  function GetDataArray(obj: Series, key: string, model: string): (r: Option<seq<JVal>>)
    ensures r.Some? ==> r.value in obj.Values
    ensures model == BestMatch ==> r == (if key in obj then Some(obj[key]) else None)
    ensures model != BestMatch && key + "_" + model in obj ==> r == Some(obj[key + "_" + model])
  {
    if model != BestMatch then
      if key + "_" + model in obj then Some(obj[key + "_" + model])
      else if key + "_best_match" in obj then Some(obj[key + "_best_match"])
      else if key in obj then Some(obj[key])
      else None
    else if key in obj then Some(obj[key])
    else None
  }

  /** object[k]?.[index] */
  function At(obj: Series, k: string, index: nat): (r: JVal)
    ensures k !in obj ==> r == Undefined
  {
    if k in obj && index < |obj[k]| then obj[k][index] else Undefined
  }

  /** getDataArrayValue: the first non-nullish of the three arrays' entries at index. */
  function GetDataArrayValue(obj: Series, key: string, model: string, index: nat): (r: JVal)
  {
    if model != BestMatch then
      Coalesce(At(obj, key + "_" + model, index), Coalesce(At(obj, key + "_best_match", index), At(obj, key, index)))
    else At(obj, key, index)
  }

  /** The value falls back model -> best_match -> base key, entry by entry. */
  lemma DataArrayValueFallback(obj: Series, key: string, model: string, index: nat)
    requires model != BestMatch
    ensures !At(obj, key + "_" + model, index).IsNullish() ==>
      GetDataArrayValue(obj, key, model, index) == At(obj, key + "_" + model, index)
    ensures At(obj, key + "_" + model, index).IsNullish() && !At(obj, key + "_best_match", index).IsNullish() ==>
      GetDataArrayValue(obj, key, model, index) == At(obj, key + "_best_match", index)
    ensures At(obj, key + "_" + model, index).IsNullish() && At(obj, key + "_best_match", index).IsNullish() ==>
      GetDataArrayValue(obj, key, model, index) == At(obj, key, index)
  {
  }

  /** Where the array getDataArray picks has a value at index, getDataArrayValue reads that value. */
  lemma ValueAgreesWithArray(obj: Series, key: string, model: string, index: nat)
    requires GetDataArray(obj, key, model).Some?
    requires index < |GetDataArray(obj, key, model).value|
    requires !GetDataArray(obj, key, model).value[index].IsNullish()
    ensures GetDataArrayValue(obj, key, model, index) == GetDataArray(obj, key, model).value[index]
  {
  }

  /**
   * getMixedDataArray: a copy of the best-match (else plain) array with
   * the model's truthy entries laid over it; Thrown when neither exists
   * (slice of undefined).
   */
  function MixedData(obj: Series, key: string, model: string): (r: Outcome<seq<JVal>>)
    ensures r.Thrown? <==> key + "_best_match" !in obj && key !in obj
  {
    var base := if key + "_best_match" in obj then Some(obj[key + "_best_match"])
      else if key in obj then Some(obj[key]) else None;
    if base.None? then Thrown("TypeError")
    else if key + "_" + model !in obj then Ok(base.value)
    else Ok(Overlay(base.value, obj[key + "_" + model]))
  }

  /** base with over's truthy entries laid over it, where over reaches. */
  function Overlay(base: seq<JVal>, over: seq<JVal>): (r: seq<JVal>)
    ensures |r| == |base|
    ensures forall i :: 0 <= i < |base| ==>
      r[i] == (if i < |over| && Truthy(over[i]) then over[i] else base[i])
  {
    seq(|base|, i requires 0 <= i < |base| => if i < |over| && Truthy(over[i]) then over[i] else base[i])
  }

  /** The mixed array keeps the base length, takes only truthy model entries, and keeps the rest. */
  lemma MixedDataShape(obj: Series, key: string, model: string)
    requires key + "_best_match" in obj
    ensures MixedData(obj, key, model).Ok?
    ensures var r := MixedData(obj, key, model).value;
      |r| == |obj[key + "_best_match"]| &&
      forall i :: 0 <= i < |r| ==>
        (r[i] == obj[key + "_best_match"][i] ||
         (key + "_" + model in obj && i < |obj[key + "_" + model]| &&
          Truthy(obj[key + "_" + model][i]) && r[i] == obj[key + "_" + model][i]))
  {
  }

  /** Mixing the best-match series with itself changes nothing. */
  lemma MixedBestMatchIsBase(obj: Series, key: string)
    requires key + "_best_match" in obj
    ensures MixedData(obj, key, BestMatch) == Ok(obj[key + "_best_match"])
  {
    var base := obj[key + "_best_match"];
    assert key + "_" + BestMatch == key + "_best_match";
    assert Overlay(base, base) == base;
  }

  /** The copy-and-overlay loop; the object is left as it was. */
  method GetMixedDataArray(obj: Series, key: string, model: string) returns (r: Outcome<array<JVal>>)
    ensures r.Thrown? <==> MixedData(obj, key, model).Thrown?
    ensures r.Ok? ==> fresh(r.value) && r.value[..] == MixedData(obj, key, model).value
  {
    var base: seq<JVal>;
    if key + "_best_match" in obj {
      base := obj[key + "_best_match"];
    } else if key in obj {
      base := obj[key];
    } else {
      return Thrown("TypeError");
    }
    var result := new JVal[|base|](i requires 0 <= i < |base| => base[i]);
    if key + "_" + model in obj {
      var modelObj := obj[key + "_" + model];
      var index := 0;
      while index < Min(|modelObj|, result.Length)
        invariant 0 <= index <= Min(|modelObj|, result.Length)
        invariant forall i :: 0 <= i < result.Length ==>
          result[i] == (if i < index && Truthy(modelObj[i]) then modelObj[i] else base[i])
      {
        var element := modelObj[index];
        if Truthy(element) {
          result[index] := element;
        }
        index := index + 1;
      }
      assert result[..] == Overlay(base, modelObj);
    } else {
      assert result[..] == base;
    }
    return Ok(result);
  }

  /** The models query parameter of getWeather. */
  function Models(model: string, forceModel: bool): (r: string)
    ensures model == BestMatch ==> r == BestMatch
    ensures model != BestMatch && forceModel ==> r == model
    ensures model != BestMatch && !forceModel ==> r == BestMatch + "," + model
  {
    if model != BestMatch then
      if forceModel then model else BestMatch + "," + model
    else BestMatch
  }

  /** Unless a model is forced, the best match is always requested first. */
  lemma ModelsStartWithBestMatch(model: string, forceModel: bool)
    requires !forceModel || model == BestMatch
    ensures |Models(model, forceModel)| >= |BestMatch|
    ensures Models(model, forceModel)[..|BestMatch|] == BestMatch
  {
  }

  /** The number a relational comparison sees; None is NaN. */
  function ToNumber(v: JVal): (r: Option<real>)
    ensures v.Num? || v.Null? || v.Bool? <==> r.Some?
  {
    match v
    case Num(n) => Some(n)
    case Null => Some(0.0)
    case Bool(b) => Some(if b then 1.0 else 0.0)
    case _ => None
  }

  /** The intensity of one quarter-hour: minutelyPrecipitation[index] || -1, then thresholds. */
  function Intensity(precipitation: JVal): (r: nat)
    ensures r <= 3
  {
    var p := if Truthy(precipitation) then precipitation else Num(-1.0);
    var n := ToNumber(p);
    if n.Some? && n.value >= 1.5 then 3
    else if n.Some? && n.value >= 0.7 then 2
    else if n.Some? && n.value > 0.0 then 1
    else 0
  }

  /** 3 from 1.5, 2 from 0.7, 1 above 0, and 0 for none; more precipitation never lowers the intensity. */
  lemma IntensityThresholds(p: real, q: real)
    ensures Intensity(Num(p)) == (if p >= 1.5 then 3 else if p >= 0.7 then 2 else if p > 0.0 then 1 else 0)
    ensures p <= q ==> Intensity(Num(p)) <= Intensity(Num(q))
    ensures Intensity(Undefined) == 0 && Intensity(Null) == 0
  {
  }
}
