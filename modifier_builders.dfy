/**
 * The modifier builders shared by the widget generators: colour and
 * dimension formatting per platform, the Glance modifier chain of a
 * layout element, and the inline CSS of a style table.
 */
module ModifierBuilders {
  import opened Base
  import opened Strings
  import opened JsValues
  import opened SharedUtils
  import MapboxExpressions
  import ExpressionCompiler
  import SwiftGenerator

  type Platform = ExpressionCompiler.Platform

  // ---------------------------------------------------------------------
  // Colours
  // ---------------------------------------------------------------------

  const KotlinColors: seq<(string, string)> :=
    [("onSurface", "GlanceTheme.colors.onSurface"),
     ("onSurfaceVariant", "GlanceTheme.colors.onSurfaceVariant"),
     ("primary", "GlanceTheme.colors.primary"),
     ("error", "GlanceTheme.colors.error"),
     ("widgetBackground", "GlanceTheme.colors.background"),
     ("surface", "GlanceTheme.colors.surface")]

  const SwiftColors: seq<(string, string)> :=
    [("onSurface", "WidgetColorProvider.onSurface"),
     ("onSurfaceVariant", "WidgetColorProvider.onSurfaceVariant"),
     ("primary", "WidgetColorProvider.primary"),
     ("error", "WidgetColorProvider.error"),
     ("widgetBackground", "WidgetColorProvider.background"),
     ("surface", "WidgetColorProvider.surface")]

  /** The JavaScript and TypeScript tables are the same hex values. */
  const WebColors: seq<(string, string)> :=
    [("onSurface", "#E6E1E5"),
     ("onSurfaceVariant", "#CAC4D0"),
     ("primary", "#D0BCFF"),
     ("error", "#F2B8B5"),
     ("widgetBackground", "#1C1B1F"),
     ("surface", "#2B2930")]

  /** DEFAULT_COLOR_MAPS[platform]. */
  function DefaultColorMap(platform: Platform): (r: seq<(string, string)>)
    ensures |r| == |ThemeColorNames|
    ensures forall i :: 0 <= i < |r| ==> r[i].0 == ThemeColorNames[i] && r[i].1 != ""
  {
    match platform
    case Kotlin => KotlinColors
    case Swift => SwiftColors
    case _ => WebColors
  }

  /** The platform form of a six-digit upper-case hex colour. */
  function HexForm(platform: Platform, hex: string): (r: string)
    ensures |r| > |hex|
  {
    match platform
    case Kotlin => "Color(0xFF" + hex + ")"
    case Swift => "Color(hex: \"" + hex + "\")"
    case _ => "\"#" + hex + "\""
  }

  /**
   * formatColor: a theme colour goes through the given map (or the
   * platform default), falling back to the name when the entry is missing
   * or empty; a hex colour with or without '#' becomes the platform's
   * colour literal; anything else is returned unchanged.
   */
  function FormatColor(colorValue: string, platform: Platform, colorMap: Option<seq<(string, string)>>): (r: string)
    ensures !IsThemeColor(colorValue) && ParseHexColor(colorValue).None? ==> r == colorValue
    ensures IsThemeColor(colorValue) ==> r != ""
  {
    var table := if colorMap.Some? then colorMap.value else DefaultColorMap(platform);
    if IsThemeColor(colorValue) then
      match FindKey(table, colorValue)
      case Some(token) => if token != "" then token else colorValue
      case None => colorValue
    else
      match ParseHexColor(colorValue)
      case Some(hex) => HexForm(platform, hex)
      case None => colorValue
  }

  /** Every theme colour has a non-empty entry in every default table. */
  lemma DefaultTablesCoverThemes(platform: Platform, c: string)
    requires IsThemeColor(c)
    ensures FindKey(DefaultColorMap(platform), c).Some?
    ensures FindKey(DefaultColorMap(platform), c).value != ""
  {
    var t := DefaultColorMap(platform);
    assert forall i :: 0 <= i < |t| ==> t[i].0 == ThemeColorNames[i] && t[i].1 != "";
  }

  /**
   * Without a colour map, a theme colour becomes the platform's theme
   * token: a GlanceTheme colour on Kotlin, a WidgetColorProvider colour on
   * Swift, and on the web a '#' hex value that itself parses as a colour.
   */
  lemma ThemeColorTokens(c: string, platform: Platform)
    requires IsThemeColor(c)
    ensures var r := FormatColor(c, platform, None);
      (platform.Kotlin? ==> "GlanceTheme.colors." <= r)
      && (platform.Swift? ==> "WidgetColorProvider." <= r)
      && (!platform.Kotlin? && !platform.Swift? ==> |r| == 7 && r[0] == '#' && ParseHexColor(r) == Some(r[1..]))
  {
    var r := ThemeColorViaDefault(c, platform);
    if platform.Kotlin? {
      KotlinTokens(r);
    } else if platform.Swift? {
      SwiftTokens(r);
    } else {
      WebColorsAreHex(r);
    }
  }

  lemma KotlinTokens(r: string)
    requires exists i :: 0 <= i < |KotlinColors| && KotlinColors[i].1 == r
    ensures "GlanceTheme.colors." <= r
  {
    assert forall i :: 0 <= i < |KotlinColors| ==> "GlanceTheme.colors." <= KotlinColors[i].1;
  }

  lemma SwiftTokens(r: string)
    requires exists i :: 0 <= i < |SwiftColors| && SwiftColors[i].1 == r
    ensures "WidgetColorProvider." <= r
  {
    assert forall i :: 0 <= i < |SwiftColors| ==> "WidgetColorProvider." <= SwiftColors[i].1;
  }

  /** Without a map, a theme colour is its entry in the platform's default table. */
  lemma ThemeColorViaDefault(c: string, platform: Platform) returns (r: string)
    requires IsThemeColor(c)
    ensures r == FormatColor(c, platform, None)
    ensures exists i :: 0 <= i < |DefaultColorMap(platform)| && DefaultColorMap(platform)[i] == (c, r)
  {
    DefaultTablesCoverThemes(platform, c);
    r := FindKey(DefaultColorMap(platform), c).value;
  }

  lemma WebColorsAreHex(r: string)
    requires exists i :: 0 <= i < |WebColors| && WebColors[i].1 == r
    ensures |r| == 7 && r[0] == '#' && ParseHexColor(r) == Some(r[1..])
  {
    var i :| 0 <= i < |WebColors| && WebColors[i].1 == r;
    var h := r[1..];
    assert |h| == 6 && forall k :: 0 <= k < 6 ==> IsHexDigit(h[k]) && !('a' <= h[k] <= 'z') by {
      assert i == 0 || i == 1 || i == 2 || i == 3 || i == 4 || i == 5;
    }
    assert r == "#" + h;
    ParseHexColorAcceptsHash(h);
    UpperOfUpper(h);
  }

  lemma UpperOfUpper(h: string)
    requires forall k :: 0 <= k < |h| ==> !('a' <= h[k] <= 'z')
    ensures Upper(h) == h
  {
  }

  /** No theme name is a hex colour: none has six characters, or seven starting with '#'. */
  lemma ThemeColorsAreNotHex(c: string)
    requires IsThemeColor(c)
    ensures |c| != 6 && (|c| == 7 ==> c[0] != '#')
  {
  }

  /**
   * A six-digit hex colour, in any case and with or without a leading
   * '#', becomes the platform's colour literal of its upper-case digits,
   * whatever the colour map.
   */
  lemma HexColorForms(h: string, platform: Platform, colorMap: Option<seq<(string, string)>>)
    requires |h| == 6 && forall i :: 0 <= i < 6 ==> IsHexDigit(h[i])
    ensures FormatColor(h, platform, colorMap) == HexForm(platform, Upper(h))
    ensures FormatColor("#" + h, platform, colorMap) == HexForm(platform, Upper(h))
  {
    ParseHexColorAcceptsHash(h);
    if IsThemeColor(h) {
      ThemeColorsAreNotHex(h);
    }
    if IsThemeColor("#" + h) {
      ThemeColorsAreNotHex("#" + h);
    }
  }

  /** A custom map wins for theme colours; a missing or empty entry leaves the name. */
  lemma CustomMapLookup(c: string, platform: Platform, table: seq<(string, string)>)
    requires IsThemeColor(c)
    ensures FindKey(table, c).Some? && FindKey(table, c).value != "" ==>
      FormatColor(c, platform, Some(table)) == FindKey(table, c).value
    ensures (FindKey(table, c).None? || FindKey(table, c).value == "") ==>
      FormatColor(c, platform, Some(table)) == c
  {
  }

  /** The Swift generator's own colour table resolves theme colours the same way. */
  lemma SwiftGeneratorAgrees(c: string)
    requires IsThemeColor(c)
    ensures SwiftGenerator.ToSwiftColor(Some(c)) == FormatColor(c, ExpressionCompiler.Swift, None)
  {
    assert SwiftGenerator.SwiftColors == SwiftColors;
    assert c[0] != '#' by {
      ThemeColorsAreNotHex(c);
      assert c in ThemeColorNames;
    }
    DefaultTablesCoverThemes(ExpressionCompiler.Swift, c);
  }

  // ---------------------------------------------------------------------
  // Dimensions
  // ---------------------------------------------------------------------

  /** formatDimension: `${value}.dp`, String(value), or `"${value}px"`. */
  function FormatDimension(value: JVal, platform: Platform): (r: string)
    ensures |r| > |ToString(value)|  || platform.Swift?
  {
    match platform
    case Kotlin => ToString(value) + ".dp"
    case Swift => ToString(value)
    case _ => "\"" + ToString(value) + "px\""
  }

  /** Kotlin adds ".dp" to the Swift numeral; the web quotes it with "px". */
  lemma DimensionForms(value: JVal)
    ensures FormatDimension(value, ExpressionCompiler.Kotlin) == FormatDimension(value, ExpressionCompiler.Swift) + ".dp"
    ensures FormatDimension(value, ExpressionCompiler.JavaScript) == "\"" + FormatDimension(value, ExpressionCompiler.Swift) + "px\""
    ensures FormatDimension(value, ExpressionCompiler.TypeScript) == FormatDimension(value, ExpressionCompiler.JavaScript)
  {
  }

  // ---------------------------------------------------------------------
  // The Glance modifier chain
  // ---------------------------------------------------------------------

  /** The layout properties the Glance builder reads; Undefined is an absent property. */
  datatype LayoutElement = LayoutElement(
    fillMaxSize: JVal, fillWidth: JVal, fillHeight: JVal,
    width: JVal, height: JVal, flex: JVal,
    padding: JVal, paddingHorizontal: JVal, paddingVertical: JVal,
    margin: JVal, marginHorizontal: JVal, marginVertical: JVal,
    backgroundColor: JVal, cornerRadius: JVal)

  /** compilePropertyValue with the Kotlin value context and the dp formatter. */
  function CompileDimension(value: JVal): (r: Outcome<string>)
    ensures !value.Undefined? && !MapboxExpressions.IsExpression(value) ==> r == Ok(ToString(value) + ".dp")
  {
    ExpressionCompiler.CompilePropertyValue(value,
      ExpressionCompiler.Options(ExpressionCompiler.Kotlin, ExpressionCompiler.Value,
        Some((v: JVal) => FormatDimension(v, ExpressionCompiler.Kotlin)), true), None)
  }

  /**
   * compilePropertyValue with the colour formatter: the formatter calls
   * String.prototype.replace on its argument, so a literal that is not a
   * string throws a TypeError.
   */
  function CompileColor(value: JVal): (r: Outcome<string>)
    ensures !value.Undefined? && !MapboxExpressions.IsExpression(value) && !value.Str? ==> r.Thrown?
  {
    if !value.Undefined? && !MapboxExpressions.IsExpression(value) then
      if value.Str? then Ok(FormatColor(value.s, ExpressionCompiler.Kotlin, None))
      else Thrown("TypeError")
    else
      ExpressionCompiler.CompilePropertyValue(value,
        ExpressionCompiler.Options(ExpressionCompiler.Kotlin, ExpressionCompiler.Value, None, true), None)
  }

  /** One optional modifier: absent property or empty code gives none, else open + code + ")". */
  function Modifier(value: JVal, compiled: Outcome<string>, open: string): (r: Outcome<seq<string>>)
    ensures r.Ok? ==> |r.value| <= 1 && forall k :: 0 <= k < |r.value| ==> open <= r.value[k]
    ensures value.Undefined? ==> r == Ok([])
  {
    if value.Undefined? then Ok([])
    else match compiled
      case Thrown(e) => Thrown(e)
      case Ok(code) => Ok(if code == "" then [] else [open + code + ")"])
  }

  /** The modifiers of two consecutive steps; the first exception wins. */
  function Then(a: Outcome<seq<string>>, b: Outcome<seq<string>>): (r: Outcome<seq<string>>)
    ensures r.Ok? <==> a.Ok? && b.Ok?
    ensures r.Ok? ==> r.value == a.value + b.value
    ensures a.Thrown? ==> r == a
  {
    if a.Thrown? then a else if b.Thrown? then b else Ok(a.value + b.value)
  }

  /** The size step: fillMaxSize, or each of fillWidth/width and fillHeight/height. */
  function SizeModifiers(e: LayoutElement): (r: Outcome<seq<string>>)
    ensures r.Ok? ==> 0 <= |r.value| <= 2
  {
    if Truthy(e.fillMaxSize) then Ok(["fillMaxSize()"])
    else
      Then(
        if Truthy(e.fillWidth) then Ok(["fillMaxWidth()"]) else Modifier(e.width, CompileDimension(e.width), "width("),
        if Truthy(e.fillHeight) then Ok(["fillMaxHeight()"]) else Modifier(e.height, CompileDimension(e.height), "height("))
  }

  function FlexModifiers(e: LayoutElement): (r: Outcome<seq<string>>)
    ensures r.Ok? && |r.value| <= 1
  {
    Ok(if e.flex.Undefined? then [] else ["defaultWeight()"])
  }

  /** Padding, then the margins, which Glance also renders as padding. */
  function SpacingModifiers(e: LayoutElement): (r: Outcome<seq<string>>)
    ensures r.Ok? ==> |r.value| <= 6
  {
    Then(Modifier(e.padding, CompileDimension(e.padding), "padding("),
    Then(Modifier(e.paddingHorizontal, CompileDimension(e.paddingHorizontal), "padding(horizontal = "),
    Then(Modifier(e.paddingVertical, CompileDimension(e.paddingVertical), "padding(vertical = "),
    Then(Modifier(e.margin, CompileDimension(e.margin), "padding("),
    Then(Modifier(e.marginHorizontal, CompileDimension(e.marginHorizontal), "padding(horizontal = "),
         Modifier(e.marginVertical, CompileDimension(e.marginVertical), "padding(vertical = "))))))
  }

  function StyleModifiers(e: LayoutElement): (r: Outcome<seq<string>>)
    ensures r.Ok? ==> |r.value| <= 2
  {
    Then(Modifier(e.backgroundColor, CompileColor(e.backgroundColor), "background("),
         Modifier(e.cornerRadius, CompileDimension(e.cornerRadius), "cornerRadius("))
  }

  /** The modifier list in the order the builder pushes it. */
  function GlanceModifiers(e: LayoutElement): (r: Outcome<seq<string>>)
    ensures r.Ok? ==> |r.value| <= 11
  {
    Then(SizeModifiers(e), Then(FlexModifiers(e), Then(SpacingModifiers(e), StyleModifiers(e))))
  }

  /** buildGlanceModifier: "GlanceModifier", then ".m" for each modifier m. */
  function BuildGlanceModifier(e: LayoutElement): (r: Outcome<string>)
    ensures r.Ok? <==> GlanceModifiers(e).Ok?
    ensures r.Ok? && GlanceModifiers(e).value == [] ==> r.value == "GlanceModifier"
    ensures r.Ok? && GlanceModifiers(e).value != [] ==>
      r.value == "GlanceModifier." + Join(GlanceModifiers(e).value, ".")
  {
    match GlanceModifiers(e)
    case Thrown(err) => Thrown(err)
    case Ok(mods) => Ok(if mods == [] then "GlanceModifier" else "GlanceModifier." + Join(mods, "."))
  }

  /** The result is exactly "GlanceModifier" when, and only when, no modifier applies. */
  lemma BareModifierExactly(e: LayoutElement)
    requires GlanceModifiers(e).Ok?
    ensures BuildGlanceModifier(e) == Ok("GlanceModifier") <==> GlanceModifiers(e).value == []
  {
    var mods := GlanceModifiers(e).value;
    if mods != [] {
      var r := BuildGlanceModifier(e).value;
      assert |r| > |"GlanceModifier"|;
    }
  }

  /** An element without any layout property is the bare "GlanceModifier". */
  lemma EmptyElement()
    ensures BuildGlanceModifier(LayoutElement(Undefined, Undefined, Undefined, Undefined, Undefined,
      Undefined, Undefined, Undefined, Undefined, Undefined, Undefined, Undefined, Undefined, Undefined))
      == Ok("GlanceModifier")
  {
  }

  /** Every modifier starts with one of the given characters. */
  predicate Heads(mods: seq<string>, cs: set<char>)
  {
    forall k :: 0 <= k < |mods| ==> mods[k] != [] && mods[k][0] in cs
  }

  lemma HeadsConcat(a: seq<string>, b: seq<string>, cs: set<char>)
    requires Heads(a, cs) && Heads(b, cs)
    ensures Heads(a + b, cs)
  {
    assert forall k :: 0 <= k < |a + b| ==> (a + b)[k] == if k < |a| then a[k] else b[k - |a|];
  }

  lemma ModifierHead(value: JVal, compiled: Outcome<string>, open: string, c: char)
    requires open != [] && open[0] == c && Modifier(value, compiled, open).Ok?
    ensures Heads(Modifier(value, compiled, open).value, {c})
  {
  }

  /** Size modifiers are the fill modifiers, width( and height(. */
  lemma SizeHeads(e: LayoutElement)
    requires SizeModifiers(e).Ok?
    ensures Heads(SizeModifiers(e).value, {'f', 'w', 'h'})
  {
    if !Truthy(e.fillMaxSize) {
      var cs := {'f', 'w', 'h'};
      var w := if Truthy(e.fillWidth) then Ok(["fillMaxWidth()"]) else Modifier(e.width, CompileDimension(e.width), "width(");
      var h := if Truthy(e.fillHeight) then Ok(["fillMaxHeight()"]) else Modifier(e.height, CompileDimension(e.height), "height(");
      if !Truthy(e.fillWidth) {
        ModifierHead(e.width, CompileDimension(e.width), "width(", 'w');
      }
      if !Truthy(e.fillHeight) {
        ModifierHead(e.height, CompileDimension(e.height), "height(", 'h');
      }
      HeadsConcat(w.value, h.value, cs);
    }
  }

  /** A step whose outcome, when Ok, has the heads keeps them after Then. */
  lemma ThenHeads(a: Outcome<seq<string>>, b: Outcome<seq<string>>, cs: set<char>)
    requires a.Ok? ==> Heads(a.value, cs)
    requires b.Ok? ==> Heads(b.value, cs)
    ensures Then(a, b).Ok? ==> Heads(Then(a, b).value, cs)
  {
    if a.Ok? && b.Ok? {
      HeadsConcat(a.value, b.value, cs);
    }
  }

  /** A padding( modifier, when Ok, starts with 'p'. */
  lemma PaddingHead(value: JVal, open: string)
    requires open != [] && open[0] == 'p'
    ensures var m := Modifier(value, CompileDimension(value), open); m.Ok? ==> Heads(m.value, {'p'})
  {
    if Modifier(value, CompileDimension(value), open).Ok? {
      ModifierHead(value, CompileDimension(value), open, 'p');
    }
  }

  /** Padding and margins all render as padding(...). */
  lemma SpacingHeads(e: LayoutElement)
    requires SpacingModifiers(e).Ok?
    ensures Heads(SpacingModifiers(e).value, {'p'})
  {
    var m1 := Modifier(e.padding, CompileDimension(e.padding), "padding(");
    var m2 := Modifier(e.paddingHorizontal, CompileDimension(e.paddingHorizontal), "padding(horizontal = ");
    var m3 := Modifier(e.paddingVertical, CompileDimension(e.paddingVertical), "padding(vertical = ");
    var m4 := Modifier(e.margin, CompileDimension(e.margin), "padding(");
    var m5 := Modifier(e.marginHorizontal, CompileDimension(e.marginHorizontal), "padding(horizontal = ");
    var m6 := Modifier(e.marginVertical, CompileDimension(e.marginVertical), "padding(vertical = ");
    PaddingHead(e.padding, "padding(");
    PaddingHead(e.paddingHorizontal, "padding(horizontal = ");
    PaddingHead(e.paddingVertical, "padding(vertical = ");
    PaddingHead(e.margin, "padding(");
    PaddingHead(e.marginHorizontal, "padding(horizontal = ");
    PaddingHead(e.marginVertical, "padding(vertical = ");
    var t5 := Then(m5, m6);
    ThenHeads(m5, m6, {'p'});
    var t4 := Then(m4, t5);
    ThenHeads(m4, t5, {'p'});
    var t3 := Then(m3, t4);
    ThenHeads(m3, t4, {'p'});
    var t2 := Then(m2, t3);
    ThenHeads(m2, t3, {'p'});
    ThenHeads(m1, t2, {'p'});
    assert SpacingModifiers(e) == Then(m1, t2);
  }

  lemma StyleHeads(e: LayoutElement)
    requires StyleModifiers(e).Ok?
    ensures Heads(StyleModifiers(e).value, {'b', 'c'})
  {
    var b := Modifier(e.backgroundColor, CompileColor(e.backgroundColor), "background(");
    var c := Modifier(e.cornerRadius, CompileDimension(e.cornerRadius), "cornerRadius(");
    ModifierHead(e.backgroundColor, CompileColor(e.backgroundColor), "background(", 'b');
    ModifierHead(e.cornerRadius, CompileDimension(e.cornerRadius), "cornerRadius(", 'c');
    HeadsConcat(b.value, c.value, {'b', 'c'});
  }

  /** After the size step, every modifier starts with d, p, b or c. */
  lemma AfterSizeHeads(e: LayoutElement)
    requires GlanceModifiers(e).Ok?
    ensures GlanceModifiers(e).value ==
      SizeModifiers(e).value + (FlexModifiers(e).value + SpacingModifiers(e).value + StyleModifiers(e).value)
    ensures Heads(FlexModifiers(e).value + SpacingModifiers(e).value + StyleModifiers(e).value, {'d', 'p', 'b', 'c'})
  {
    var cs := {'d', 'p', 'b', 'c'};
    var f := FlexModifiers(e).value;
    var sp := SpacingModifiers(e).value;
    var st := StyleModifiers(e).value;
    SpacingHeads(e);
    StyleHeads(e);
    assert Heads(f, cs);
    assert Heads(sp, cs);
    assert Heads(st, cs);
    HeadsConcat(sp, st, cs);
    HeadsConcat(f, sp + st, cs);
    assert f + (sp + st) == f + sp + st;
  }

  /**
   * fillMaxSize suppresses every width and height modifier: the chain
   * starts with fillMaxSize() and holds no width(, height(,
   * fillMaxWidth() or fillMaxHeight().
   */
  lemma FillMaxSizeSuppresses(e: LayoutElement)
    requires Truthy(e.fillMaxSize) && GlanceModifiers(e).Ok?
    ensures var mods := GlanceModifiers(e).value;
      mods[0] == "fillMaxSize()"
      && forall k :: 0 <= k < |mods| ==>
        !("width(" <= mods[k]) && !("height(" <= mods[k])
        && mods[k] != "fillMaxWidth()" && mods[k] != "fillMaxHeight()"
  {
    AfterSizeHeads(e);
    var rest := FlexModifiers(e).value + SpacingModifiers(e).value + StyleModifiers(e).value;
    assert SizeModifiers(e).value == ["fillMaxSize()"];
    FillFirstList(GlanceModifiers(e).value, rest);
  }

  lemma FillFirstList(mods: seq<string>, rest: seq<string>)
    requires mods == ["fillMaxSize()"] + rest && Heads(rest, {'d', 'p', 'b', 'c'})
    ensures mods[0] == "fillMaxSize()"
    ensures forall k :: 0 <= k < |mods| ==>
      !("width(" <= mods[k]) && !("height(" <= mods[k])
      && mods[k] != "fillMaxWidth()" && mods[k] != "fillMaxHeight()"
  {
    forall k | 0 <= k < |mods|
      ensures !("width(" <= mods[k]) && !("height(" <= mods[k])
      ensures mods[k] != "fillMaxWidth()" && mods[k] != "fillMaxHeight()"
    {
      if k == 0 {
        FillMaxSizeIsNotSized(mods[k]);
      } else {
        assert mods[k] == rest[k - 1];
        NotSizeEntry(mods[k]);
      }
    }
  }

  lemma FillMaxSizeIsNotSized(m: string)
    requires m == "fillMaxSize()"
    ensures !("width(" <= m) && !("height(" <= m) && m != "fillMaxWidth()" && m != "fillMaxHeight()"
  {
    assert m[0] == 'f' && m[7] == 'S';
    assert "fillMaxWidth()"[7] == 'W' && "fillMaxHeight()"[7] == 'H';
  }

  lemma NotSizeEntry(m: string)
    requires m != [] && m[0] in {'d', 'p', 'b', 'c'}
    ensures !("width(" <= m) && !("height(" <= m) && m != "fillMaxWidth()" && m != "fillMaxHeight()"
  {
    assert "width("[0] == 'w' && "height("[0] == 'h';
    assert "fillMaxWidth()"[0] == 'f' && "fillMaxHeight()"[0] == 'f';
  }

  /** A flex property, whatever its value, adds defaultWeight(); nothing else does. */
  lemma FlexAddsDefaultWeight(e: LayoutElement)
    requires GlanceModifiers(e).Ok?
    ensures "defaultWeight()" in GlanceModifiers(e).value <==> !e.flex.Undefined?
  {
    AfterSizeHeads(e);
    SizeHeads(e);
    SpacingHeads(e);
    StyleHeads(e);
    var mods := GlanceModifiers(e).value;
    var size := SizeModifiers(e).value;
    var others := SpacingModifiers(e).value + StyleModifiers(e).value;
    HeadsConcat(SpacingModifiers(e).value, StyleModifiers(e).value, {'p', 'b', 'c'});
    assert mods == size + (FlexModifiers(e).value + others);
    assert "defaultWeight()"[0] == 'd';
    assert "defaultWeight()" !in size;
    assert "defaultWeight()" !in others;
  }

  /** A literal background colour that is not a string makes the builder throw. */
  lemma NonStringColorThrows(e: LayoutElement)
    requires !e.backgroundColor.Undefined? && !e.backgroundColor.Str?
    requires !MapboxExpressions.IsExpression(e.backgroundColor)
    ensures BuildGlanceModifier(e).Thrown?
  {
  }

  /** A literal width without fill flags becomes width(<value>.dp). */
  lemma LiteralWidth(e: LayoutElement)
    requires !Truthy(e.fillMaxSize) && !Truthy(e.fillWidth)
    requires !e.width.Undefined? && !MapboxExpressions.IsExpression(e.width)
    requires GlanceModifiers(e).Ok?
    ensures "width(" + ToString(e.width) + ".dp)" in GlanceModifiers(e).value
  {
    var w := Modifier(e.width, CompileDimension(e.width), "width(");
    assert CompileDimension(e.width) == Ok(ToString(e.width) + ".dp");
    assert w == Ok(["width(" + (ToString(e.width) + ".dp") + ")"]);
    assert "width(" + (ToString(e.width) + ".dp") + ")" == "width(" + ToString(e.width) + ".dp)";
    AfterSizeHeads(e);
  }

  // ---------------------------------------------------------------------
  // Inline CSS
  // ---------------------------------------------------------------------

  /** The "key: value" declarations of a style table, in its order. */
  function Declarations(styles: seq<(string, string)>): (r: seq<string>)
    ensures |r| == |styles|
  {
    seq(|styles|, i requires 0 <= i < |styles| => styles[i].0 + ": " + styles[i].1)
  }

  /** stylesToCss: the declarations joined with "; ". */
  function StylesToCss(styles: seq<(string, string)>): (r: string)
    ensures styles == [] ==> r == ""
  {
    Join(Declarations(styles), "; ")
  }

  /** Neither keys nor values hold ';' or ':'. */
  predicate PlainStyles(styles: seq<(string, string)>)
  {
    forall i :: 0 <= i < |styles| ==>
      !ContainsChar(styles[i].0, ';') && !ContainsChar(styles[i].0, ':')
      && !ContainsChar(styles[i].1, ';') && !ContainsChar(styles[i].1, ':')
  }

  lemma ConcatWithout(a: string, b: string, c: char)
    requires !ContainsChar(a, c) && !ContainsChar(b, c)
    ensures !ContainsChar(a + b, c)
  {
    assert forall i :: 0 <= i < |a + b| ==> (a + b)[i] == if i < |a| then a[i] else b[i - |a|];
  }

  /**
   * For plain keys and values the CSS text reads back: splitting it on
   * "; " gives the declarations, and splitting a declaration on ": " gives
   * its key and value.
   */
  lemma StylesToCssReadsBack(styles: seq<(string, string)>)
    requires styles != [] && PlainStyles(styles)
    ensures Split(StylesToCss(styles), "; ") == Declarations(styles)
    ensures forall i :: 0 <= i < |styles| ==>
      Split(Declarations(styles)[i], ": ") == [styles[i].0, styles[i].1]
  {
    var ds := Declarations(styles);
    forall i | 0 <= i < |ds|
      ensures !ContainsChar(ds[i], ';')
    {
      DeclarationWithout(styles[i].0, styles[i].1);
    }
    SplitOfJoin(ds, "; ");
    forall i | 0 <= i < |styles|
      ensures Split(ds[i], ": ") == [styles[i].0, styles[i].1]
    {
      DeclarationReadsBack(styles[i].0, styles[i].1);
    }
  }

  lemma DeclarationWithout(k: string, v: string)
    requires !ContainsChar(k, ';') && !ContainsChar(v, ';')
    ensures !ContainsChar(k + ": " + v, ';')
  {
    var sep := ": ";
    assert !ContainsChar(sep, ';') by {
      assert sep[0] == ':' && sep[1] == ' ';
    }
    ConcatWithout(k, sep, ';');
    ConcatWithout(k + sep, v, ';');
  }

  lemma DeclarationReadsBack(k: string, v: string)
    requires !ContainsChar(k, ':') && !ContainsChar(v, ':')
    ensures Split(k + ": " + v, ": ") == [k, v]
  {
    var sep := ": ";
    SplitAfterHead(k, v, sep);
    SplitWithoutSeparatorStart(v, sep);
  }
}
