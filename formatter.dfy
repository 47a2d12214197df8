/**
 * The display formatters: values with their units, title case, the UV
 * colour scale, the Beaufort wind icon and the moon icon of a phase.
 */
module Formatter {
  import opened Base
  import opened Strings

  // ---------------------------------------------------------------------
  // convertValueToUnit / formatValueToUnit
  // ---------------------------------------------------------------------

  datatype Unit =
    | InchHg | MMHg | KPa | HPa | Inch | MM | Celcius | Farenheit
    | Duration | Date | Distance | DistanceKm | Speed

  /** The unit's enum value, the text the default case shows. */
  function UnitName(u: Unit): (r: string)
  {
    match u
    case InchHg => "InchHg"
    case MMHg => "MMHg"
    case KPa => "kPa"
    case HPa => "hPa"
    case Inch => "inch"
    case MM => "mm"
    case Celcius => "celcius"
    case Farenheit => "farenheit"
    case Duration => "duration"
    case Date => "date"
    case Distance => "m"
    case DistanceKm => "km"
    case Speed => "km/h"
  }

  /** The first element of the pair: a formatted string, or the rounded number of the Celcius case. */
  datatype Part = Text(text: string) | Number(n: real)

  /** What Array.join makes of a part. */
  function PartString(p: Part): (r: string)
    ensures p.Text? ==> r == p.text
    ensures p.Number? ==> NumeralText(r)
  {
    match p
    case Text(t) => t
    case Number(n) => NumberToString(n)
  }

  function CelciusToFahrenheit(c: real): (r: real)
    ensures (r - 32.0) * 5.0 / 9.0 == c
  {
    (9.0 * c) / 5.0 + 32.0
  }

  /**
   * convertValueToUnit; None is a null or undefined value, and formatDate
   * stands for convertTime(value, 'M/d/yy h:mm a').
   */
  function ConvertValueToUnit(value: Option<real>, unit: Unit, formatDate: real -> string): (r: (Part, string))
    ensures value.None? ==> r == (Text(""), "")
  {
    if value.None? then (Text(""), "")
    else
      var v := value.value;
      match unit
      case KPa => (Text(ToFixed(v / 10.0, 0)), "kPa")
      case HPa => (Text(ToFixed(v, 0)), "hPa")
      case MMHg => (Text(ToFixed(v * 0.750061561303, 0)), "mm Hg")
      case InchHg => (Text(ToFixed(v * 0.0295299830714, 0)), "in Hg")
      case MM => (Text(ToFixed(v, 1)), "mm")
      case Celcius => (Number(Round(v * 10.0) as real / 10.0), "")
      case Farenheit => (Text(ToFixed(CelciusToFahrenheit(v), 1)), "\U{C2}\U{B0}")
      case Date => (Text(formatDate(v)), "")
      case Distance => (Text(ToFixed(v, 0)), UnitName(unit))
      case DistanceKm =>
        if v < 1000.0 then (Text(ToFixed(v, 0)), "m")
        else if v > 100000.0 then (Text(ToFixed(v / 1000.0, 0)), UnitName(unit))
        else (Text(ToFixed(v / 1000.0, 1)), UnitName(unit))
      case Speed => (Text(ToFixed(v, 0)), UnitName(unit))
      case _ => (Text(ToFixed(v, 0)), UnitName(unit))
  }

  /** Distances: metres below 1 km, whole kilometres above 100 km, otherwise kilometres to one decimal. */
  lemma DistanceKmBranches(v: real, formatDate: real -> string)
    ensures var r := ConvertValueToUnit(Some(v), DistanceKm, formatDate);
      (v < 1000.0 ==> r == (Text(ToFixed(v, 0)), "m")) &&
      (v > 100000.0 ==> r == (Text(ToFixed(v / 1000.0, 0)), "km")) &&
      (1000.0 <= v <= 100000.0 ==> r == (Text(ToFixed(v / 1000.0, 1)), "km"))
  {
  }

  /** The Celcius value is a number rounded to a tenth, within a twentieth of the value, with no unit. */
  lemma CelciusRoundedToTenth(v: real, formatDate: real -> string)
    ensures var r := ConvertValueToUnit(Some(v), Celcius, formatDate);
      r.0.Number? && r.1 == "" &&
      (r.0.n * 10.0).Floor as real == r.0.n * 10.0 &&
      v - 0.05 < r.0.n <= v + 0.05
  {
    var n := Round(v * 10.0);
    assert v * 10.0 - 0.5 < n as real <= v * 10.0 + 0.5;
  }

  /** ${unit} wrapped in <small> as many times as unitScale says. */
  function Small(unit: string, unitScale: nat): (r: string)
    ensures |r| == |unit| + 15 * unitScale
  {
    if unitScale == 0 then unit else "<small>" + Small(unit, unitScale - 1) + "</small>"
  }

  /** The options of formatValueToUnit; None is an absent (or falsy) option. */
  datatype FormatOptions = FormatOptions(prefix: string, join: Option<string>, unitScale: nat)

  /** The join string: the option if non-empty, else '' for Celcius and ' ' for the rest. */
  function JoinWith(unit: Unit, join: Option<string>): (r: string)
    ensures unit != Celcius ==> r != []
    ensures join.Some? && join.value != [] ==> r == join.value
  {
    if join.Some? && join.value != [] then join.value
    else if unit == Celcius then "" else " "
  }

  function FormatValueToUnit(value: Option<real>, unit: Unit, options: FormatOptions, formatDate: real -> string): (r: string)
    ensures r != [] && options.prefix != [] ==> options.prefix <= r
    ensures unit != Celcius ==> r != []
  {
    var pair := ConvertValueToUnit(value, unit, formatDate);
    var result := PartString(pair.0) + JoinWith(unit, options.join) + Small(pair.1, options.unitScale);
    if options.prefix != [] && |result| > 0 then options.prefix + result else result
  }

  /** The value and unit joined, and the prefix in front exactly when it and that join are not empty. */
  lemma FormatJoinsAndPrefixes(value: Option<real>, unit: Unit, options: FormatOptions, formatDate: real -> string)
    ensures var pair := ConvertValueToUnit(value, unit, formatDate);
      var joined := PartString(pair.0) + JoinWith(unit, options.join) + Small(pair.1, options.unitScale);
      FormatValueToUnit(value, unit, options, formatDate) ==
        (if options.prefix != [] && joined != [] then options.prefix + joined else joined)
    ensures options.join.None? ==> JoinWith(unit, options.join) == (if unit == Celcius then "" else " ")
  {
  }

  /**
   * A missing value prints as the bare join string: nothing for Celcius
   * without options, but a single space (with the prefix in front) for
   * the other units.
   */
  lemma MissingValueFormat(unit: Unit, prefix: string, formatDate: real -> string)
    ensures FormatValueToUnit(None, Celcius, FormatOptions(prefix, None, 0), formatDate) == ""
    ensures unit != Celcius ==> FormatValueToUnit(None, unit, FormatOptions(prefix, None, 0), formatDate) == prefix + " "
  {
  }

  // ---------------------------------------------------------------------
  // titlecase
  // ---------------------------------------------------------------------

  /** The longest prefix without white space (the \S* of the pattern). */
  function NonSpacePrefix(s: string): (r: string)
    ensures |r| <= |s| && r == s[..|r|]
    ensures forall i :: 0 <= i < |r| ==> !IsSpace(r[i])
    ensures |r| < |s| ==> IsSpace(s[|r|])
  {
    if s == [] || IsSpace(s[0]) then [] else [s[0]] + NonSpacePrefix(s[1..])
  }

  /** titlecase: each global match of \w\S* gets its first character upper-cased and the rest lower-cased. */
  function TitleCase(s: string): (r: string)
    ensures |r| == |s|
    decreases |s|
  {
    if s == [] then []
    else if IsWordChar(s[0]) then
      var n := 1 + |NonSpacePrefix(s[1..])|;
      [UpperChar(s[0])] + Lower(s[1..n]) + TitleCase(s[n..])
    else [s[0]] + TitleCase(s[1..])
  }

  lemma UpperKeepsWordChar(c: char)
    ensures IsWordChar(c) ==> IsWordChar(UpperChar(c))
    ensures UpperChar(UpperChar(c)) == UpperChar(c)
    ensures IsSpace(UpperChar(c)) <==> IsSpace(c)
  {
  }

  lemma LowerKeepsSpace(s: string)
    ensures forall i :: 0 <= i < |s| ==> (IsSpace(Lower(s)[i]) <==> IsSpace(s[i]))
    ensures Lower(Lower(s)) == Lower(s)
  {
  }

  /** White space is left where it was, and the word boundaries with it. */
  lemma {:induction false} TitleCaseKeepsSpace(s: string)
    ensures forall i :: 0 <= i < |s| ==> (IsSpace(TitleCase(s)[i]) <==> IsSpace(s[i]))
    decreases |s|
  {
    if s != [] {
      var r := TitleCase(s);
      if IsWordChar(s[0]) {
        var n := 1 + |NonSpacePrefix(s[1..])|;
        TitleCaseKeepsSpace(s[n..]);
        LowerKeepsSpace(s[1..n]);
        UpperKeepsWordChar(s[0]);
        forall i | 0 <= i < |s| ensures IsSpace(r[i]) <==> IsSpace(s[i]) {
          if i == 0 {
          } else if i < n {
            assert r[i] == Lower(s[1..n])[i - 1];
          } else {
            assert r[i] == TitleCase(s[n..])[i - n];
          }
        }
      } else {
        TitleCaseKeepsSpace(s[1..]);
        forall i | 0 <= i < |s| ensures IsSpace(r[i]) <==> IsSpace(s[i]) {
          if i > 0 {
            assert r[i] == TitleCase(s[1..])[i - 1];
          }
        }
      }
    }
  }

  /** Two strings with white space at the same places have equally long non-space prefixes. */
  lemma {:induction false} NonSpacePrefixSameSpaces(a: string, b: string)
    requires |a| == |b| && forall i :: 0 <= i < |a| ==> (IsSpace(a[i]) <==> IsSpace(b[i]))
    ensures |NonSpacePrefix(a)| == |NonSpacePrefix(b)|
    decreases |a|
  {
    if a != [] && !IsSpace(a[0]) {
      NonSpacePrefixSameSpaces(a[1..], b[1..]);
    }
  }

  /** The word's rest after title-casing is the same non-space run. */
  lemma NonSpacePrefixOfTitled(s: string, n: nat)
    requires s != [] && IsWordChar(s[0]) && n == 1 + |NonSpacePrefix(s[1..])|
    ensures var t := TitleCase(s); 1 + |NonSpacePrefix(t[1..])| == n
  {
    var t := TitleCase(s);
    TitleCaseKeepsSpace(s);
    NonSpacePrefixSameSpaces(t[1..], s[1..]);
  }

  /** Title-casing twice is title-casing once. */
  lemma {:induction false} TitleCaseIdempotent(s: string)
    ensures TitleCase(TitleCase(s)) == TitleCase(s)
    decreases |s|
  {
    if s != [] {
      var t := TitleCase(s);
      if IsWordChar(s[0]) {
        var n := 1 + |NonSpacePrefix(s[1..])|;
        var rest := TitleCase(s[n..]);
        assert t == [UpperChar(s[0])] + Lower(s[1..n]) + rest;
        UpperKeepsWordChar(s[0]);
        NonSpacePrefixOfTitled(s, n);
        assert t[1..n] == Lower(s[1..n]);
        assert t[n..] == rest;
        LowerKeepsSpace(s[1..n]);
        TitleCaseIdempotent(s[n..]);
      } else {
        assert t == [s[0]] + TitleCase(s[1..]);
        assert t[1..] == TitleCase(s[1..]);
        TitleCaseIdempotent(s[1..]);
      }
    }
  }

  // ---------------------------------------------------------------------
  // colorForUV
  // ---------------------------------------------------------------------

  /** The band of the UV scale: 0 below 3, then from 3, 6, 8 and 11. */
  function UvBand(uvIndex: real): (b: nat)
    ensures b <= 4
  {
    if uvIndex >= 11.0 then 4
    else if uvIndex >= 8.0 then 3
    else if uvIndex >= 6.0 then 2
    else if uvIndex >= 3.0 then 1
    else 0
  }

  const UvColors: seq<string> := ["#3EA72D", "#FFF300", "#F18B00", "#E53210", "#B567A4"]

  function ColorForUV(uvIndex: real): (r: string)
    ensures r == UvColors[UvBand(uvIndex)]
  {
    if uvIndex >= 11.0 then "#B567A4"
    else if uvIndex >= 8.0 then "#E53210"
    else if uvIndex >= 6.0 then "#F18B00"
    else if uvIndex >= 3.0 then "#FFF300"
    else "#3EA72D"
  }

  /** The colour is the band's colour, and a higher index never gives a lower band. */
  lemma ColorForUVBands(a: real, b: real)
    ensures ColorForUV(a) == UvColors[UvBand(a)]
    ensures a <= b ==> UvBand(a) <= UvBand(b)
  {
  }

  // ---------------------------------------------------------------------
  // windBeaufortIcon / moonIcon
  // ---------------------------------------------------------------------

  /** The lowest wind speed (km/h) of Beaufort levels 1 to 12. */
  const BeaufortThresholds: seq<real> := [2.0, 6.0, 12.0, 20.0, 29.0, 39.0, 50.0, 62.0, 75.0, 89.0, 103.0, 118.0]

  /** The if-chain of windBeaufortIcon, from the top down. */
  function BeaufortLevel(windSpeed: real): (level: nat)
    ensures level <= 12
  {
    if windSpeed >= 118.0 then 12
    else if windSpeed >= 103.0 then 11
    else if windSpeed >= 89.0 then 10
    else if windSpeed >= 75.0 then 9
    else if windSpeed >= 62.0 then 8
    else if windSpeed >= 50.0 then 7
    else if windSpeed >= 39.0 then 6
    else if windSpeed >= 29.0 then 5
    else if windSpeed >= 20.0 then 4
    else if windSpeed >= 12.0 then 3
    else if windSpeed >= 6.0 then 2
    else if windSpeed >= 2.0 then 1
    else 0
  }

  /** How many of the thresholds the speed reaches. */
  function Reached(thresholds: seq<real>, windSpeed: real): (n: nat)
    ensures n <= |thresholds|
  {
    if thresholds == [] then 0
    else (if windSpeed >= thresholds[0] then 1 else 0) + Reached(thresholds[1..], windSpeed)
  }

  /** The level is the number of thresholds reached. */
  lemma BeaufortLevelCountsThresholds(windSpeed: real)
    ensures BeaufortLevel(windSpeed) == Reached(BeaufortThresholds, windSpeed)
  {
    var t := BeaufortThresholds;
    assert Reached(t[12..], windSpeed) == 0;
    assert t[11..][0] == 118.0 && t[11..][1..] == t[12..];
    assert Reached(t[11..], windSpeed) == (if windSpeed >= 118.0 then 1 else 0) + Reached(t[12..], windSpeed);
    assert t[10..][0] == 103.0 && t[10..][1..] == t[11..];
    assert Reached(t[10..], windSpeed) == (if windSpeed >= 103.0 then 1 else 0) + Reached(t[11..], windSpeed);
    assert t[9..][0] == 89.0 && t[9..][1..] == t[10..];
    assert Reached(t[9..], windSpeed) == (if windSpeed >= 89.0 then 1 else 0) + Reached(t[10..], windSpeed);
    assert t[8..][0] == 75.0 && t[8..][1..] == t[9..];
    assert Reached(t[8..], windSpeed) == (if windSpeed >= 75.0 then 1 else 0) + Reached(t[9..], windSpeed);
    assert t[7..][0] == 62.0 && t[7..][1..] == t[8..];
    assert Reached(t[7..], windSpeed) == (if windSpeed >= 62.0 then 1 else 0) + Reached(t[8..], windSpeed);
    assert t[6..][0] == 50.0 && t[6..][1..] == t[7..];
    assert Reached(t[6..], windSpeed) == (if windSpeed >= 50.0 then 1 else 0) + Reached(t[7..], windSpeed);
    assert t[5..][0] == 39.0 && t[5..][1..] == t[6..];
    assert Reached(t[5..], windSpeed) == (if windSpeed >= 39.0 then 1 else 0) + Reached(t[6..], windSpeed);
    assert t[4..][0] == 29.0 && t[4..][1..] == t[5..];
    assert Reached(t[4..], windSpeed) == (if windSpeed >= 29.0 then 1 else 0) + Reached(t[5..], windSpeed);
    assert t[3..][0] == 20.0 && t[3..][1..] == t[4..];
    assert Reached(t[3..], windSpeed) == (if windSpeed >= 20.0 then 1 else 0) + Reached(t[4..], windSpeed);
    assert t[2..][0] == 12.0 && t[2..][1..] == t[3..];
    assert Reached(t[2..], windSpeed) == (if windSpeed >= 12.0 then 1 else 0) + Reached(t[3..], windSpeed);
    assert t[1..][0] == 6.0 && t[1..][1..] == t[2..];
    assert Reached(t[1..], windSpeed) == (if windSpeed >= 6.0 then 1 else 0) + Reached(t[2..], windSpeed);
    assert t[0..][0] == 2.0 && t[0..][1..] == t[1..];
    assert Reached(t[0..], windSpeed) == (if windSpeed >= 2.0 then 1 else 0) + Reached(t[1..], windSpeed);
    assert t[0..] == t;
  }

  /** A stronger wind never has a lower level. */
  lemma BeaufortMonotone(a: real, b: real)
    requires a <= b
    ensures BeaufortLevel(a) <= BeaufortLevel(b)
  {
  }

  const WindIcons: seq<string> := [
    "wi-wind-beaufort-0", "wi-wind-beaufort-1", "wi-wind-beaufort-2", "wi-wind-beaufort-3",
    "wi-wind-beaufort-4", "wi-wind-beaufort-5", "wi-wind-beaufort-6", "wi-wind-beaufort-7",
    "wi-wind-beaufort-8", "wi-wind-beaufort-9", "wi-wind-beaufort-10", "wi-wind-beaufort-11",
    "wi-wind-beaufort-12"]

  function WindBeaufortIcon(windSpeed: real): (r: string)
    ensures r in WindIcons
  {
    WindIcons[BeaufortLevel(windSpeed)]
  }

  /** Calm below 2 km/h, hurricane from 118 km/h. */
  lemma BeaufortEnds(windSpeed: real)
    ensures windSpeed < 2.0 ==> WindBeaufortIcon(windSpeed) == "wi-wind-beaufort-0"
    ensures windSpeed >= 118.0 ==> WindBeaufortIcon(windSpeed) == "wi-wind-beaufort-12"
  {
  }

  const MoonIcons: seq<string> := [
    "wi-moon-new",
    "wi-moon-waxing-crescent-1", "wi-moon-waxing-crescent-2", "wi-moon-waxing-crescent-3",
    "wi-moon-waxing-crescent-4", "wi-moon-waxing-crescent-5", "wi-moon-waxing-crescent-6",
    "wi-moon-first-quarter",
    "wi-moon-waxing-gibbous-1", "wi-moon-waxing-gibbous-2", "wi-moon-waxing-gibbous-3",
    "wi-moon-waxing-gibbous-4", "wi-moon-waxing-gibbous-5", "wi-moon-waxing-gibbous-6",
    "wi-moon-full",
    "wi-moon-waning-gibbous-1", "wi-moon-waning-gibbous-2", "wi-moon-waning-gibbous-3",
    "wi-moon-waning-gibbous-4", "wi-moon-waning-gibbous-5", "wi-moon-waning-gibbous-6",
    "wi-moon-third-quarter",
    "wi-moon-waning-crescent-1", "wi-moon-waning-crescent-2", "wi-moon-waning-crescent-3",
    "wi-moon-waning-crescent-4", "wi-moon-waning-crescent-5", "wi-moon-waning-crescent-6",
    "wi-moon-new"]

  /** moonIcons[moonPhase]; None (undefined) outside the 29 phases. */
  function MoonIcon(moonPhase: int): (r: Option<string>)
    ensures r.Some? <==> 0 <= moonPhase <= 28
    ensures r.Some? ==> r.value in MoonIcons
  {
    if 0 <= moonPhase < |MoonIcons| then Some(MoonIcons[moonPhase]) else None
  }

  /** The cycle starts and ends on a new moon. */
  lemma MoonCycleNew()
    ensures MoonIcon(0) == MoonIcon(28) == Some("wi-moon-new")
  {
  }

  /** The moon is full at 14. */
  lemma MoonCycleFull()
    ensures MoonIcon(14) == Some("wi-moon-full")
  {
  }

  /** The quarters are at 7 and 21. */
  lemma MoonCycleQuarters()
    ensures MoonIcon(7) == Some("wi-moon-first-quarter") && MoonIcon(21) == Some("wi-moon-third-quarter")
  {
  }
}
