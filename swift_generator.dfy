/**
 * The string helpers of the SwiftUI widget generator: font weights,
 * stack alignments, colours, data paths and the conversion of a text
 * with `{{binding}}` placeholders into a Swift expression.
 *
 * escapeSwiftString is the same code as the expression compiler's Swift
 * escaper and getSingleBindingPath the same as getSingleBinding; both are
 * used from there.
 */
module SwiftGenerator {
  import opened Base
  import opened Strings
  import opened SharedUtils
  import ExpressionCompiler

  // ---------------------------------------------------------------------
  // Font weights
  // ---------------------------------------------------------------------

  const SwiftFontWeights: seq<(string, string)> :=
    [("normal", ".regular"), ("medium", ".medium"), ("bold", ".bold")]

  /** The alternatives of /(bold|700|800|900)/i and /(med|500|600)/i. */
  const BoldMarks: seq<string> := ["bold", "700", "800", "900"]
  const MediumMarks: seq<string> := ["med", "500", "600"]

  predicate ContainsAny(s: string, subs: seq<string>)
  {
    exists k :: 0 <= k < |subs| && Contains(s, subs[k])
  }

  /** The conditional weight emitted for a settings reference. */
  function SettingWeight(key: string): (r: string)
  {
    "(config.settings?[\"" + key + "\"] as? Bool ?? true) ? .bold : .regular"
  }

  /**
   * toSwiftFontWeight: a settings reference becomes a bold/regular
   * conditional on that setting; otherwise the lower-cased weight (or the
   * fallback) goes through the table, then the bold and medium patterns.
   */
  function ToSwiftFontWeight(weight: Option<string>, fallback: string): (r: string)
    ensures IsSettingReference(weight) ==> r == SettingWeight(GetSettingKey(weight.value))
    ensures !IsSettingReference(weight) ==>
      var key := Lower(if weight.Some? then weight.value else fallback);
      && (r == ".bold" <==> ContainsAny(key, BoldMarks))
      && (r == ".medium" <==> !ContainsAny(key, BoldMarks) && ContainsAny(key, MediumMarks))
      && (r == ".regular" <==> !ContainsAny(key, BoldMarks) && !ContainsAny(key, MediumMarks))
  {
    if IsSettingReference(weight) then SettingWeight(GetSettingKey(weight.value))
    else
      var key := Lower(if weight.Some? then weight.value else fallback);
      TableAgreesWithPatterns(key);
      match FindKey(SwiftFontWeights, key)
      case Some(token) => token
      case None =>
        if ContainsAny(key, BoldMarks) then ".bold"
        else if ContainsAny(key, MediumMarks) then ".medium"
        else ".regular"
  }

  /** The weight table gives the token the patterns would give. */
  lemma TableAgreesWithPatterns(key: string)
    ensures key == "bold" ==> ContainsAny(key, BoldMarks)
    ensures key == "medium" ==> !ContainsAny(key, BoldMarks) && ContainsAny(key, MediumMarks)
    ensures key == "normal" ==> !ContainsAny(key, BoldMarks) && !ContainsAny(key, MediumMarks)
  {
    if key == "bold" {
      assert Contains(key, BoldMarks[0]);
    } else if key == "medium" {
      assert Contains(key, MediumMarks[0]);
      MissingMarks(key, BoldMarks);
    } else if key == "normal" {
      MissingMarks(key, BoldMarks);
      MissingMarks(key, MediumMarks);
    }
  }

  /** Neither "medium" nor "normal" carries a bold mark; "normal" carries no medium mark. */
  lemma MissingMarks(key: string, marks: seq<string>)
    requires key == "medium" || key == "normal"
    requires marks == BoldMarks || (key == "normal" && marks == MediumMarks)
    ensures !ContainsAny(key, marks)
  {
    forall k | 0 <= k < |marks| ensures !Contains(key, marks[k]) {
      NotContainedWithoutPair(key, marks[k]);
    }
  }

  /** A string in which the first two characters of `sub` never occur in a row does not contain `sub`. */
  lemma {:induction false} NotContainedWithoutPair(s: string, sub: string)
    requires |sub| >= 2
    requires forall i :: 0 <= i < |s| - 1 ==> s[i] != sub[0] || s[i + 1] != sub[1]
    ensures !Contains(s, sub)
  {
    if s != [] {
      assert !(sub <= s) by {
        if |s| >= 2 { assert s[0] != sub[0] || s[1] != sub[1]; }
      }
      var rest := s[1..];
      assert forall i :: 0 <= i < |rest| ==> rest[i] == s[i + 1];
      NotContainedWithoutPair(s[1..], sub);
    }
  }

  /** A settings reference names its key in the conditional, whatever the fallback. */
  lemma SettingWeightNamesKey(key: string, fallback: string)
    ensures ToSwiftFontWeight(Some(SettingsPrefix + key), fallback)
      == "(config.settings?[\"" + key + "\"] as? Bool ?? true) ? .bold : .regular"
  {
    SettingKeyRoundTrip(key);
  }

  /** Numeric weights from 700 up are bold, 500 and 600 medium. */
  lemma NumericWeights(w: string, fallback: string)
    requires w in ["500", "600", "700", "800", "900"]
    ensures ToSwiftFontWeight(Some(w), fallback) == (if w in ["700", "800", "900"] then ".bold" else ".medium")
  {
    var key := Lower(w);
    assert key == w;
    assert !IsSettingReference(Some(w)) by { assert |w| < |SettingsPrefix|; }
    var k := if w == "500" || w == "700" then 0 else if w == "600" || w == "800" then 1 else 2;
    if w in ["700", "800", "900"] {
      assert Contains(key, BoldMarks[k + 1]);
    } else {
      assert Contains(key, MediumMarks[k + 1]);
      assert !ContainsAny(key, BoldMarks) by {
        forall j | 0 <= j < |BoldMarks| ensures !Contains(key, BoldMarks[j]) {
          NotContainedWithoutPair(key, BoldMarks[j]);
        }
      }
    }
  }

  // ---------------------------------------------------------------------
  // Alignment and colour
  // ---------------------------------------------------------------------

  /**
   * toSwiftAlignment: only the cross alignment counts (defaulting to
   * "center" when missing or empty); a column aligns horizontally, a row
   * vertically.
   */
  function ToSwiftAlignment(alignment: Option<string>, crossAlignment: Option<string>, isVertical: bool): (r: string)
    ensures var cross := if crossAlignment.None? then "" else crossAlignment.value;
      && (r == ".center" <==> cross != "start" && cross != "end")
      && (r == ".leading" <==> isVertical && cross == "start")
      && (r == ".trailing" <==> isVertical && cross == "end")
      && (r == ".top" <==> !isVertical && cross == "start")
      && (r == ".bottom" <==> !isVertical && cross == "end")
  {
    var a := if crossAlignment.None? || crossAlignment.value == "" then "center" else crossAlignment.value;
    if isVertical then
      match a
      case "start" => ".leading"
      case "center" => ".center"
      case "end" => ".trailing"
      case _ => ".center"
    else
      match a
      case "start" => ".top"
      case "center" => ".center"
      case "end" => ".bottom"
      case _ => ".center"
  }

  const OnSurface: string := "WidgetColorProvider.onSurface"

  const SwiftColors: seq<(string, string)> :=
    [("onSurface", "WidgetColorProvider.onSurface"),
     ("onSurfaceVariant", "WidgetColorProvider.onSurfaceVariant"),
     ("primary", "WidgetColorProvider.primary"),
     ("error", "WidgetColorProvider.error"),
     ("widgetBackground", "WidgetColorProvider.background"),
     ("surface", "WidgetColorProvider.surface")]

  /** Exactly the theme colours have an entry in the Swift colour table, in the provider namespace. */
  lemma SwiftColorsCoverThemes(c: string)
    ensures FindKey(SwiftColors, c).Some? <==> IsThemeColor(c)
    ensures FindKey(SwiftColors, c).Some? ==> "WidgetColorProvider." <= FindKey(SwiftColors, c).value
  {
    assert forall i :: 0 <= i < |SwiftColors| ==> SwiftColors[i].0 == ThemeColorNames[i];
    assert forall i :: 0 <= i < |SwiftColors| ==> "WidgetColorProvider." <= SwiftColors[i].1;
  }

  /**
   * toSwiftColor: a missing colour is onSurface, a '#' colour becomes
   * `Color(hex:)` verbatim, a theme name maps through the table and
   * anything else is onSurface.
   */
  function ToSwiftColor(color: Option<string>): (r: string)
    ensures color.None? || color.value == "" ==> r == OnSurface
    ensures color.Some? && color.value != "" && color.value[0] == '#' ==>
      r == "Color(hex: \"" + color.value + "\")"
    ensures color.Some? && color.value != "" && color.value[0] != '#' ==>
      (IsThemeColor(color.value) ==> "WidgetColorProvider." <= r)
      && (!IsThemeColor(color.value) ==> r == OnSurface)
  {
    if color.None? || color.value == "" then OnSurface
    else if color.value[0] == '#' then "Color(hex: \"" + color.value + "\")"
    else
      SwiftColorsCoverThemes(color.value);
      match FindKey(SwiftColors, color.value)
      case Some(token) => if token != "" then token else OnSurface
      case None => OnSurface
  }

  // ---------------------------------------------------------------------
  // Data paths and localisation
  // ---------------------------------------------------------------------

  predicate IsDataPath(p: string)
  {
    "data." <= p || "item." <= p || "size." <= p
  }

  /** normalizeDataPath: trim, keep data./item./size. paths, otherwise prefix "data.". */
  function NormalizeDataPath(raw: string): (r: string)
    ensures IsDataPath(r)
    ensures IsDataPath(Trim(raw)) ==> r == Trim(raw)
    ensures !IsDataPath(Trim(raw)) ==> r == "data." + Trim(raw)
  {
    var p := Trim(raw);
    if IsDataPath(p) then p else "data." + p
  }

  lemma NormalizeDataPathIdempotent(raw: string)
    ensures NormalizeDataPath(NormalizeDataPath(raw)) == NormalizeDataPath(raw)
  {
    var p := Trim(raw);
    TrimIdempotent(raw);
    if !IsDataPath(p) {
      DataPrefixTrimmed(p);
    }
  }

  lemma DataPrefixTrimmed(p: string)
    requires Trim(p) == p
    ensures Trim("data." + p) == "data." + p
  {
    var d := "data.";
    assert Trimmed(d) by {
      assert d[0] == 'd' && d[|d| - 1] == '.';
    }
    TrimmedIff(p);
    TrimmedConcat(d, p);
    TrimmedIff(d + p);
  }

  /** Away from config. paths, normalizeDataPath is normalizePropertyPath with the data prefix. */
  lemma NormalizeDataPathAgrees(raw: string)
    requires !("config." <= Trim(raw))
    ensures NormalizeDataPath(raw) == NormalizePropertyPath(raw, true)
  {
    var p := Trim(raw);
    assert HasKnownPrefix(p) <==> IsDataPath(p);
  }

  /**
   * shouldLocalizeText: static text of two or more characters that is not
   * a data path, holds no brace and is not a run of digits.
   */
  function ShouldLocalizeText(text: Option<string>): (r: bool)
    ensures r ==> text.Some? && |text.value| >= 2 && !IsDataPath(text.value)
    ensures r ==> forall i :: 0 <= i < |text.value| ==> text.value[i] != '{' && text.value[i] != '}'
    ensures r ==> exists i :: 0 <= i < |text.value| && !IsDigit(text.value[i])
  {
    if text.None? || text.value == "" then false
    else
      var t := text.value;
      if IsDataPath(t) then false
      else if ContainsChar(t, '{') || ContainsChar(t, '}') then false
      else if AllDigits(t) || |t| <= 1 then false
      else true
  }

  /** The resource key of a localised text: lower-cased, white space runs as '_'. */
  function LocalizationKey(text: string): (r: string)
    ensures NoSpace(r) && IsLowerCase(r)
    ensures NoSpace(text) ==> r == Lower(text)
  {
    var lowered := Lower(text);
    assert NoSpace(text) ==> NoSpace(lowered) by {
      assert forall i :: 0 <= i < |text| ==> (IsSpace(lowered[i]) <==> IsSpace(text[i]));
    }
    assert IsLowerCase(lowered) by {
      assert forall i :: 0 <= i < |text| ==> LowerChar(lowered[i]) == lowered[i];
    }
    SpaceRunsNoSpace(lowered);
    SpaceRunsKeepLower(lowered);
    SpaceRunsIdentity(lowered);
    SpaceRunsToUnderscore(lowered)
  }

  /** A key is its own key. */
  lemma LocalizationKeyIdempotent(text: string)
    ensures LocalizationKey(LocalizationKey(text)) == LocalizationKey(text)
  {
    var k := LocalizationKey(text);
    assert Lower(k) == k;
  }

  /**
   * Each run of white space in the text becomes exactly one '_' of the key,
   * with the text on either side keyed on its own, in order.
   */
  lemma LocalizationKeyJoin(a: string, w: string, b: string)
    requires a == [] || !IsSpace(a[|a| - 1])
    requires w != [] && AllSpace(w)
    requires b == [] || !IsSpace(b[0])
    ensures LocalizationKey(a + w + b) == LocalizationKey(a) + "_" + LocalizationKey(b)
  {
    var la, lw, lb := Lower(a), Lower(w), Lower(b);
    assert Lower(a + w + b) == la + lw + lb;
    assert AllSpace(lw) by {
      assert forall i :: 0 <= i < |w| ==> lw[i] == LowerChar(w[i]);
    }
    assert la == [] || !IsSpace(la[|la| - 1]);
    SpaceRunsJoin(la, lw, lb);
  }

  function Localized(key: string): (r: string)
  {
    "NSLocalizedString(\"" + key + "\", comment: \"\")"
  }

  // ---------------------------------------------------------------------
  // convertBindingToSwift
  // ---------------------------------------------------------------------

  datatype SwiftText = SwiftText(expr: string, isExpression: bool)

  function Described(path: string): (r: string)
  {
    "String(describing: " + path + ")"
  }

  /** A Swift string interpolation of the described path. */
  function Interpolated(path: string): (r: string)
  {
    "\\(" + Described(path) + ")"
  }

  /** One part of a mixed text: a binding interpolated, plain text escaped. */
  function SwiftPart(part: string): (r: string)
  {
    match WholeBinding(part)
    case Some(name) => Interpolated(NormalizeDataPath(name))
    case None => ExpressionCompiler.EscapeSwift(part)
  }

  /** The non-empty parts converted and joined with ''. */
  function SwiftBody(parts: seq<string>): (r: string)
    ensures (forall k :: 0 <= k < |parts| ==> parts[k] == "") ==> r == ""
  {
    if parts == [] then ""
    else (if parts[0] == "" then "" else SwiftPart(parts[0])) + SwiftBody(parts[1..])
  }

  /**
   * convertBindingToSwift: a localised string for static text, a bare
   * expression for a single binding, else a string literal with an
   * interpolation per binding and the plain text escaped.
   */
  function ConvertBindingToSwift(text: Option<string>): (r: SwiftText)
    ensures text.None? || text.value == "" ==> r == SwiftText("\"\"", false)
    ensures !r.isExpression ==> |r.expr| >= 2 && r.expr[0] == '"' && r.expr[|r.expr| - 1] == '"'
  {
    if text.None? || text.value == "" then SwiftText("\"\"", false)
    else ConvertTrimmed(Trim(text.value))
  }

  function ConvertTrimmed(t: string): (r: SwiftText)
    ensures !r.isExpression ==> |r.expr| >= 2 && r.expr[0] == '"' && r.expr[|r.expr| - 1] == '"'
  {
    if ShouldLocalizeText(Some(t)) then SwiftText(Localized(LocalizationKey(t)), true)
    else match WholeBinding(t)
      case Some(name) => SwiftText(Described(NormalizeDataPath(name)), true)
      case None => SwiftText(MixedLiteral(t), false)
  }

  /** Mixed content: the split parts converted, inside double quotes. */
  function MixedLiteral(t: string): (r: string)
    ensures |r| >= 2 && r[0] == '"' && r[|r| - 1] == '"'
  {
    "\"" + SwiftBody(Pieces(t, 0, 0)) + "\""
  }

  /** A single binding becomes `String(describing:)` of its normalised path. */
  lemma ConvertSingleBinding(x: string)
    requires x != [] && forall k :: 0 <= k < |x| ==> x[k] != '}'
    ensures ConvertBindingToSwift(Some("{{" + x + "}}")) == SwiftText(Described(NormalizeDataPath(x)), true)
  {
    var t := "{{" + x + "}}";
    calc {
      ConvertBindingToSwift(Some(t));
      { BracedTrimmed(t, x); ConvertTrimmedText(t); }
      ConvertTrimmed(t);
      { BracedTrimmed(t, x); WholeBindingOfBraces(x); ConvertTrimmedBinding(t, Trim(x)); }
      SwiftText(Described(NormalizeDataPath(Trim(x))), true);
      { NormalizeDataPathOfTrim(x); }
      SwiftText(Described(NormalizeDataPath(x)), true);
    }
  }

  lemma BracedTrimmed(t: string, x: string)
    requires t == "{{" + x + "}}"
    ensures t != [] && Trim(t) == t && !ShouldLocalizeText(Some(t))
  {
    assert Trimmed(t) && !ShouldLocalizeText(Some(t)) by {
      assert t[0] == '{' && t[|t| - 1] == '}';
    }
    TrimmedIff(t);
  }

  lemma ConvertTrimmedBinding(t: string, name: string)
    requires !ShouldLocalizeText(Some(t)) && WholeBinding(t) == Some(name)
    ensures ConvertTrimmed(t) == SwiftText(Described(NormalizeDataPath(name)), true)
  {
  }

  /** Text without braces that is not localised is one escaped literal, which reads back when the text has no underscore. */
  lemma ConvertPlainText(t: string)
    requires t != [] && Trim(t) == t && !ShouldLocalizeText(Some(t))
    requires forall k :: 0 <= k < |t| ==> t[k] != '{'
    ensures ConvertBindingToSwift(Some(t)) == SwiftText("\"" + ExpressionCompiler.EscapeSwift(t) + "\"", false)
    ensures !ContainsChar(t, '_') ==>
      var e := ConvertBindingToSwift(Some(t)).expr; ExpressionCompiler.UnescapeSwift(e[1..|e| - 1]) == t
  {
    var e := ExpressionCompiler.EscapeSwift(t);
    calc {
      ConvertBindingToSwift(Some(t));
      { ConvertTrimmedText(t); }
      ConvertTrimmed(t);
      { assert WholeBinding(t).None?; ConvertUnlocalised(t); }
      SwiftText(MixedLiteral(t), false);
      { PlainPieces(t); }
      SwiftText("\"" + SwiftBody([t]) + "\"", false);
      { assert [t][1..] == []; assert WholeBinding(t).None?; assert e + "" == e; }
      SwiftText("\"" + e + "\"", false);
    }
    assert ("\"" + e + "\"")[1..|e| + 1] == e;
    if !ContainsChar(t, '_') {
      ExpressionCompiler.EscapeSwiftReadsBack(t);
    }
  }

  lemma PlainPieces(t: string)
    requires forall k :: 0 <= k < |t| ==> t[k] != '{'
    ensures Pieces(t, 0, 0) == [t]
  {
    assert !BindingFrom(t, 0) by {
      BindingFromIff(t, 0);
      assert forall i, j :: !BindingSpan(t, i, j);
    }
    PiecesWithoutBinding(t, 0, 0);
  }

  /** Splitting skips positions where no binding starts. */
  lemma {:induction false} PiecesSkip(s: string, i: nat, k: nat, start: nat)
    requires start <= i <= k <= |s|
    requires forall m :: i <= m < k ==> MatchAt(s, m).None?
    ensures Pieces(s, i, start) == Pieces(s, k, start)
    decreases k - i
  {
    if i < k {
      PiecesSkip(s, i + 1, k, start);
    }
  }

  /** A text followed by one binding splits into that text, the binding and an empty tail. */
  lemma PiecesOfMixed(t: string, x: string)
    requires PlainPrefix(t) && BindingName(x)
    ensures Pieces(t + "{{" + x + "}}", 0, 0) == [t, "{{" + x + "}}", ""]
  {
    var s := t + "{{" + x + "}}";
    var j := |t| + 2 + |x|;
    NoMatchInText(t, s);
    BindingAfterText(t, x, s);
    calc {
      Pieces(s, 0, 0);
      { PiecesSkip(s, 0, |t|, 0); }
      Pieces(s, |t|, 0);
      { PiecesAtMatch(s, |t|, 0, j); }
      [s[0..|t|], s[|t|..j + 2]] + Pieces(s, j + 2, j + 2);
      { assert s[0..|t|] == t; assert s[|t|..j + 2] == "{{" + x + "}}"; assert j + 2 == |s|; }
      [t, "{{" + x + "}}", s[|s|..]];
      { assert s[|s|..] == ""; }
      [t, "{{" + x + "}}", ""];
    }
  }

  /** At a match the split emits the text before it and the match, then goes on after it. */
  lemma PiecesAtMatch(s: string, i: nat, start: nat, j: nat)
    requires start <= i < |s| && MatchAt(s, i) == Some(j)
    ensures Pieces(s, i, start) == [s[start..i], s[i..j + 2]] + Pieces(s, j + 2, j + 2)
  {
  }

  lemma NoMatchInText(t: string, s: string)
    requires t <= s && forall k :: 0 <= k < |t| ==> t[k] != '{'
    ensures forall m :: 0 <= m < |t| ==> MatchAt(s, m).None?
  {
    forall m | 0 <= m < |t| ensures MatchAt(s, m).None? {
      assert s[m] == t[m];
    }
  }

  lemma BindingAfterText(t: string, x: string, s: string)
    requires x != [] && forall k :: 0 <= k < |x| ==> x[k] != '}'
    requires s == t + "{{" + x + "}}"
    ensures MatchAt(s, |t|) == Some(|t| + 2 + |x|)
  {
    var j := |t| + 2 + |x|;
    assert BindingSpan(s, |t|, j) by {
      forall k | |t| + 2 <= k < j ensures s[k] != '}' {
        assert s[k] == x[k - |t| - 2];
      }
    }
    MatchAtComplete(s, |t|, j);
  }

  /** Text that can open a mixed template: non-empty, not starting with white space, without '{'. */
  predicate PlainPrefix(t: string)
  {
    t != [] && !IsSpace(t[0]) && forall k :: 0 <= k < |t| ==> t[k] != '{'
  }

  /** What the binding pattern accepts between the braces: non-empty, without '}'. */
  predicate BindingName(x: string)
  {
    x != [] && forall k :: 0 <= k < |x| ==> x[k] != '}'
  }

  /** "T {{x}}" becomes a literal with the escaped text then the interpolated binding. */
  lemma ConvertMixedText(t: string, x: string)
    requires PlainPrefix(t) && BindingName(x)
    ensures ConvertBindingToSwift(Some(t + "{{" + x + "}}")) == SwiftText(
      "\"" + (ExpressionCompiler.EscapeSwift(t) + Interpolated(NormalizeDataPath(x))) + "\"", false)
  {
    var s := t + "{{" + x + "}}";
    calc {
      ConvertBindingToSwift(Some(s));
      { MixedTrimmed(t, x, s); ConvertTrimmedText(s); }
      ConvertTrimmed(s);
      { MixedNotSingle(t, x, s); ConvertUnlocalised(s); }
      SwiftText(MixedLiteral(s), false);
      { PiecesOfMixed(t, x); }
      SwiftText("\"" + SwiftBody([t, "{{" + x + "}}", ""]) + "\"", false);
      { MixedParts(t, x); }
      SwiftText("\"" + (ExpressionCompiler.EscapeSwift(t) + Interpolated(NormalizeDataPath(x))) + "\"", false);
    }
  }

  /** Text that is already trimmed is converted as it stands. */
  lemma ConvertTrimmedText(s: string)
    requires s != [] && Trim(s) == s
    ensures ConvertBindingToSwift(Some(s)) == ConvertTrimmed(s)
  {
  }

  /** Text that is neither localised nor a single binding becomes a literal of its parts. */
  lemma ConvertUnlocalised(s: string)
    requires !ShouldLocalizeText(Some(s)) && WholeBinding(s).None?
    ensures ConvertTrimmed(s) == SwiftText(MixedLiteral(s), false)
  {
  }

  lemma MixedTrimmed(t: string, x: string, s: string)
    requires PlainPrefix(t) && s == t + "{{" + x + "}}"
    ensures s != [] && Trim(s) == s
  {
    assert s[0] == t[0] && s[|s| - 1] == '}';
    TrimFixed(s);
  }

  lemma MixedNotSingle(t: string, x: string, s: string)
    requires PlainPrefix(t) && x != [] && s == t + "{{" + x + "}}"
    ensures !ShouldLocalizeText(Some(s)) && WholeBinding(s).None?
  {
    assert s[0] == t[0] && s[|t|] == '{';
  }

  lemma MixedParts(t: string, x: string)
    requires PlainPrefix(t) && BindingName(x)
    ensures SwiftBody([t, "{{" + x + "}}", ""])
      == ExpressionCompiler.EscapeSwift(t) + Interpolated(NormalizeDataPath(x))
  {
    var b := "{{" + x + "}}";
    var a := ExpressionCompiler.EscapeSwift(t);
    calc {
      SwiftBody([t, b, ""]);
      { assert [t, b, ""][1..] == [b, ""]; assert WholeBinding(t).None?; }
      a + SwiftBody([b, ""]);
      { WholeBindingOfBraces(x); BindingPart(b, x); }
      a + Interpolated(NormalizeDataPath(x));
    }
  }

  lemma BindingPart(b: string, x: string)
    requires b != [] && WholeBinding(b) == Some(Trim(x))
    ensures SwiftBody([b, ""]) == Interpolated(NormalizeDataPath(x))
  {
    SinglePartBody(b);
    SwiftPartOfBinding(b, Trim(x));
    NormalizeDataPathOfTrim(x);
  }

  lemma SinglePartBody(b: string)
    requires b != []
    ensures SwiftBody([b, ""]) == SwiftPart(b)
  {
    assert [b, ""][1..] == [""];
    EmptyPartSkipped();
  }

  lemma SwiftPartOfBinding(b: string, name: string)
    requires WholeBinding(b) == Some(name)
    ensures SwiftPart(b) == Interpolated(NormalizeDataPath(name))
  {
  }

  lemma NormalizeDataPathOfTrim(x: string)
    ensures NormalizeDataPath(Trim(x)) == NormalizeDataPath(x)
  {
    TrimIdempotent(x);
  }

  lemma EmptyPartSkipped()
    ensures SwiftBody([""]) == ""
  {
    assert [""][1..] == [];
  }
}
