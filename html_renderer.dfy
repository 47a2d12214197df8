/**
 * The HTML preview renderer of widget layouts: colour and binding
 * resolution, HTML escaping, the small condition language of layout
 * variants, CSS styles and forEach expansion.
 *
 * Layout elements and the render context are JavaScript values (JVal);
 * rendering of one element, used by forEach, is a parameter.
 */
module HtmlRenderer {
  import opened Base
  import opened Strings
  import opened JsValues
  import opened SharedUtils
  import MapboxExpressions

  const ThemeColors: seq<(string, string)> :=
    [("onSurface", "#E6E1E5"), ("onSurfaceVariant", "#CAC4D0"), ("primary", "#D0BCFF"),
     ("error", "#F2B8B5"), ("widgetBackground", "#1C1B1F"), ("surface", "#2B2930")]

  /** resolveColor: '' for a falsy colour, '#…' kept, a theme name mapped to its hex value, anything else kept. */
  function ResolveColor(color: JVal): (r: Outcome<string>)
    ensures !Truthy(color) ==> r == Ok("")
    ensures color.Str? && "#" <= color.s ==> r == Ok(color.s)
    ensures color.Str? ==> r.Ok? && (r.value == "" <==> color.s == "")
    ensures Truthy(color) && !color.Str? ==> r.Thrown?
  {
    if !Truthy(color) then Ok("")
    else if !color.Str? then Thrown("TypeError")
    else if "#" <= color.s then Ok(color.s)
    else match FindKey(ThemeColors, color.s)
      case Some(hex) => Ok(hex)
      case None => Ok(color.s)
  }

  /** Every theme colour name resolves to a '#' value. */
  lemma ThemeColorsResolveToHex(name: string)
    requires IsThemeColor(name)
    ensures ResolveColor(Str(name)).Ok? && "#" <= ResolveColor(Str(name)).value
  {
    var k :| 0 <= k < |ThemeColorNames| && ThemeColorNames[k] == name;
    assert ThemeColors[k].0 == name;
    assert name != "" && name[0] != '#';
    assert forall i :: 0 <= i < |ThemeColors| ==> "#" <= ThemeColors[i].1;
    var r := FindKey(ThemeColors, name);
    assert r.Some?;
    var i :| 0 <= i < |ThemeColors| && ThemeColors[i] == (name, r.value);
  }

  // ---------------------------------------------------------------------
  // HTML escaping
  // ---------------------------------------------------------------------

  /** escapeHtml: &, <, >, " and ' replaced in that order. */
  function EscapeHtml(s: string): (r: string)
  {
    ReplaceChar(ReplaceChar(ReplaceChar(ReplaceChar(ReplaceChar(
      s, '&', "&amp;"), '<', "&lt;"), '>', "&gt;"), '"', "&quot;"), '\'', "&#39;")
  }

  function EscapeHtmlChar(c: char): (r: string)
    ensures r == [c] <==> !IsHtmlSpecial(c) && c != '&'
    ensures r != [c] ==> |r| >= 4 && r[0] == '&' && r[|r| - 1] == ';'
  {
    if c == '&' then "&amp;" else if c == '<' then "&lt;" else if c == '>' then "&gt;"
    else if c == '"' then "&quot;" else if c == '\'' then "&#39;" else [c]
  }

  /** One replacement stage applied to a single character or to an entity without the replaced character. */
  lemma EscapeStage(s: string, c: char, x: char, rep: string)
    requires s == [c] || !ContainsChar(s, x)
    ensures ReplaceChar(s, x, rep) == if s == [c] && c == x then rep else s
  {
    if s == [c] {
      ReplaceCharSingle(c, x, rep);
    } else {
      ReplaceCharAbsent(s, x, rep);
    }
  }

  /** The entities contain none of the characters replaced after '&'. */
  lemma EntityClean(e: string)
    requires e in ["&amp;", "&lt;", "&gt;", "&quot;", "&#39;"]
    ensures !ContainsChar(e, '<') && !ContainsChar(e, '>') && !ContainsChar(e, '"') && !ContainsChar(e, '\'')
  {
    assert forall i :: 0 <= i < |e| ==> e[i] != '<' && e[i] != '>' && e[i] != '"' && e[i] != '\'';
  }

  lemma EscapeHtmlOne(c: char)
    ensures EscapeHtml([c]) == EscapeHtmlChar(c)
  {
    EntityClean("&amp;");
    EntityClean("&lt;");
    EntityClean("&gt;");
    EntityClean("&quot;");
    EntityClean("&#39;");
    EscapeStage([c], c, '&', "&amp;");
    var s1 := ReplaceChar([c], '&', "&amp;");
    EscapeStage(s1, c, '<', "&lt;");
    var s2 := ReplaceChar(s1, '<', "&lt;");
    EscapeStage(s2, c, '>', "&gt;");
    var s3 := ReplaceChar(s2, '>', "&gt;");
    EscapeStage(s3, c, '"', "&quot;");
    var s4 := ReplaceChar(s3, '"', "&quot;");
    EscapeStage(s4, c, '\'', "&#39;");
  }

  /** The five replacements act on each character independently. */
  lemma EscapeHtmlPerChar(s: string)
    ensures s != [] ==> EscapeHtml(s) == EscapeHtmlChar(s[0]) + EscapeHtml(s[1..])
  {
    if s != [] {
      var a, b := [s[0]], s[1..];
      assert s == a + b;
      ReplaceCharAppend(a, b, '&', "&amp;");
      var a1, b1 := ReplaceChar(a, '&', "&amp;"), ReplaceChar(b, '&', "&amp;");
      ReplaceCharAppend(a1, b1, '<', "&lt;");
      var a2, b2 := ReplaceChar(a1, '<', "&lt;"), ReplaceChar(b1, '<', "&lt;");
      ReplaceCharAppend(a2, b2, '>', "&gt;");
      var a3, b3 := ReplaceChar(a2, '>', "&gt;"), ReplaceChar(b2, '>', "&gt;");
      ReplaceCharAppend(a3, b3, '"', "&quot;");
      var a4, b4 := ReplaceChar(a3, '"', "&quot;"), ReplaceChar(b3, '"', "&quot;");
      ReplaceCharAppend(a4, b4, '\'', "&#39;");
      EscapeHtmlOne(s[0]);
    }
  }

  predicate IsHtmlSpecial(c: char) { c == '<' || c == '>' || c == '"' || c == '\'' }

  /** Escaped text contains no raw <, >, " or '. */
  lemma {:induction false} EscapeHtmlSafe(s: string)
    ensures forall i :: 0 <= i < |EscapeHtml(s)| ==> !IsHtmlSpecial(EscapeHtml(s)[i])
  {
    if s != [] {
      EscapeHtmlPerChar(s);
      EscapeHtmlSafe(s[1..]);
      var h, t := EscapeHtmlChar(s[0]), EscapeHtml(s[1..]);
      forall i | 0 <= i < |h + t| ensures !IsHtmlSpecial((h + t)[i]) {
        if i < |h| { assert (h + t)[i] == h[i]; } else { assert (h + t)[i] == t[i - |h|]; }
      }
    }
  }

  /** Reads the five entities back. */
  function UnescapeHtml(s: string): (r: string)
    ensures |r| <= |s|
  {
    if "&amp;" <= s then "&" + UnescapeHtml(s[5..])
    else if "&lt;" <= s then "<" + UnescapeHtml(s[4..])
    else if "&gt;" <= s then ">" + UnescapeHtml(s[4..])
    else if "&quot;" <= s then "\"" + UnescapeHtml(s[6..])
    else if "&#39;" <= s then "'" + UnescapeHtml(s[5..])
    else if s == [] then []
    else [s[0]] + UnescapeHtml(s[1..])
  }

  lemma UnescapeHead(c: char, t: string)
    ensures UnescapeHtml(EscapeHtmlChar(c) + t) == [c] + UnescapeHtml(t)
  {
    if c == '&' {
      UnescapeAmp(t);
    } else if c == '<' {
      UnescapeLt(t);
    } else if c == '>' {
      UnescapeGt(t);
    } else if c == '"' {
      UnescapeQuot(t);
    } else if c == '\'' {
      UnescapeApos(t);
    } else {
      UnescapeAfterPlain(c, t);
    }
  }

  lemma UnescapeAmp(t: string)
    ensures UnescapeHtml("&amp;" + t) == "&" + UnescapeHtml(t)
  {
    var u := "&amp;" + t;
    assert "&amp;" <= u && u[5..] == t;
  }

  lemma UnescapeLt(t: string)
    ensures UnescapeHtml("&lt;" + t) == "<" + UnescapeHtml(t)
  {
    var u := "&lt;" + t;
    assert u[1] == 'l';
    assert "&lt;" <= u && u[4..] == t;
  }

  lemma UnescapeGt(t: string)
    ensures UnescapeHtml("&gt;" + t) == ">" + UnescapeHtml(t)
  {
    var u := "&gt;" + t;
    assert u[1] == 'g' && u[2] == 't';
    assert "&gt;" <= u && u[4..] == t;
  }

  lemma UnescapeQuot(t: string)
    ensures UnescapeHtml("&quot;" + t) == "\"" + UnescapeHtml(t)
  {
    var u := "&quot;" + t;
    assert u[1] == 'q';
    assert "&quot;" <= u && u[6..] == t;
  }

  lemma UnescapeApos(t: string)
    ensures UnescapeHtml("&#39;" + t) == "'" + UnescapeHtml(t)
  {
    var u := "&#39;" + t;
    assert u[1] == '#';
    assert "&#39;" <= u && u[5..] == t;
  }

  /** Any other character at the front is copied. */
  lemma UnescapeAfterPlain(c: char, t: string)
    requires c != '&'
    ensures UnescapeHtml([c] + t) == [c] + UnescapeHtml(t)
  {
    var u := [c] + t;
    assert u[0] == c && u[1..] == t;
  }

  lemma {:induction false} UnescapeEscapeHtml(s: string)
    ensures UnescapeHtml(EscapeHtml(s)) == s
  {
    if s != [] {
      EscapeHtmlPerChar(s);
      UnescapeEscapeHtml(s[1..]);
      UnescapeHead(s[0], EscapeHtml(s[1..]));
      assert s == [s[0]] + s[1..];
    }
  }

  // ---------------------------------------------------------------------
  // Bindings
  // ---------------------------------------------------------------------

  /** value.data?.[part] */
  function DataMember(value: JVal, part: string): (r: JVal)
    requires !value.IsNullish()
    ensures Member(value, "data").IsNullish() ==> r == Undefined
  {
    var d := Member(value, "data");
    if d.IsNullish() then Undefined else Member(d, part)
  }

  /**
   * The path walk of resolveBinding and evaluateCondition: "item" reads
   * context.item when that is truthy; an object or array steps to
   * value[part] ?? value.data?.[part]; anything else stops the walk (None).
   */
  function ResolveParts(value: JVal, parts: seq<string>, ctx: JVal): (r: Option<JVal>)
    requires ctx.Obj?
    decreases parts
  {
    if parts == [] then Some(value)
    else if parts[0] == "item" && Truthy(Member(ctx, "item")) then ResolveParts(Member(ctx, "item"), parts[1..], ctx)
    else if Truthy(value) && (value.Obj? || value.Arr?) then
      ResolveParts(Coalesce(Member(value, parts[0]), DataMember(value, parts[0])), parts[1..], ctx)
    else None
  }

  /** The replacement text of one {{path}}: the escaped string form of the value, or ''. */
  function BindingText(path: string, ctx: JVal): (r: string)
    requires ctx.Obj?
    ensures forall i :: 0 <= i < |r| ==> !IsHtmlSpecial(r[i])
  {
    match ResolveParts(ctx, Split(Trim(path), "."), ctx)
    case None => ""
    case Some(v) =>
      var s := if v.IsNullish() then "" else ToString(v);
      EscapeHtmlSafe(s);
      EscapeHtml(s)
  }

  /** resolveBinding: every {{path}} replaced by its value's text. */
  function ResolveBinding(text: string, ctx: JVal): (r: string)
    requires ctx.Obj?
  {
    ReplaceBindings(text, path => BindingText(path, ctx))
  }

  /** A binding whose path cannot be resolved, or resolves to undefined or null, renders as ''. */
  lemma UnresolvableBinding(x: string, ctx: JVal)
    requires ctx.Obj?
    requires x != [] && forall k :: 0 <= k < |x| ==> x[k] != '}'
    requires var v := ResolveParts(ctx, Split(Trim(x), "."), ctx); v.None? || v.value.IsNullish()
    ensures ResolveBinding("{{" + x + "}}", ctx) == ""
  {
    var t := "{{" + x + "}}";
    assert BindingSpan(t, 0, |t| - 2);
    MatchAtComplete(t, 0, |t| - 2);
    assert t[2..|t| - 2] == x;
    var f := path => BindingText(path, ctx);
    assert ReplaceFrom(t, 0, f) == f(x) + ReplaceFrom(t, |t|, f);
  }

  /** Text without bindings renders as itself. */
  lemma ResolveBindingPlainText(text: string, ctx: JVal)
    requires ctx.Obj? && !HasTemplateBinding(Some(text))
    ensures ResolveBinding(text, ctx) == text
  {
    if text != "" {
      ReplaceWithoutBinding(text, 0, path => BindingText(path, ctx));
    }
  }

  // ---------------------------------------------------------------------
  // safeEvaluateExpression
  // ---------------------------------------------------------------------

  /** Length of the leading run of digits. */
  function DigitRun(s: string): (n: nat)
    ensures n <= |s| && AllDigits(s[..n]) && (n < |s| ==> !IsDigit(s[n]))
  {
    if s == [] || !IsDigit(s[0]) then 0
    else
      var n := 1 + DigitRun(s[1..]);
      assert s[..n] == [s[0]] + s[1..][..n - 1];
      n
  }

  /** Length of the leading run of white space (\s*). */
  function SpaceRun(s: string): (n: nat)
    ensures n <= |s| && (n < |s| ==> !IsSpace(s[n]))
  {
    if s == [] || !IsSpace(s[0]) then 0 else 1 + SpaceRun(s[1..])
  }

  /** \d+(?:\.\d+)? at the start: the parsed value and the length matched. */
  function ParseNumber(s: string): (r: Option<(real, nat)>)
    ensures r.Some? ==> 0 < r.value.1 <= |s|
  {
    var a := DigitRun(s);
    if a == 0 then None
    else
      var whole := ParseDigits(s[..a]) as real;
      if a < |s| && s[a] == '.' && DigitRun(s[a + 1..]) > 0 then
        var b := DigitRun(s[a + 1..]);
        assert s[a + 1..a + 1 + b] == s[a + 1..][..b];
        Some((whole + ParseDigits(s[a + 1..a + 1 + b]) as real / Pow10(b) as real, a + 1 + b))
      else Some((whole, a))
  }

  /** (<=|>=|<|>|==|!=) at the start, alternatives tried in that order. */
  function ParseOperator(s: string): (r: Option<string>)
    ensures r.Some? ==> r.value <= s && r.value in ["<=", ">=", "<", ">", "==", "!="]
  {
    if "<=" <= s then Some("<=")
    else if ">=" <= s then Some(">=")
    else if "<" <= s then Some("<")
    else if ">" <= s then Some(">")
    else if "==" <= s then Some("==")
    else if "!=" <= s then Some("!=")
    else None
  }

  /** /^(\d+(?:\.\d+)?)\s*(<=|>=|<|>|==|!=)\s*(\d+(?:\.\d+)?)$/ */
  function ParseComparison(s: string): (r: Option<(real, string, real)>)
    ensures r.Some? ==> r.value.1 in ["<=", ">=", "<", ">", "==", "!="]
    ensures r.Some? ==> ParseNumber(s).Some? && r.value.0 == ParseNumber(s).value.0
  {
    match ParseNumber(s)
    case None => None
    case Some((x, n)) =>
      match ParseRightSide(s[n..])
      case None => None
      case Some((op, y)) => Some((x, op, y))
  }

  /** \s*(<=|>=|<|>|==|!=)\s*(\d+(?:\.\d+)?)$ : the operator and the right operand. */
  function ParseRightSide(r1: string): (r: Option<(string, real)>)
    ensures r.Some? ==> r.value.0 in ["<=", ">=", "<", ">", "==", "!="]
  {
    var r2 := r1[SpaceRun(r1)..];
    match ParseOperator(r2)
    case None => None
    case Some(op) =>
      var r3 := r2[|op|..];
      var r4 := r3[SpaceRun(r3)..];
      match ParseNumber(r4)
      case Some((y, m)) => if m == |r4| then Some((op, y)) else None
      case None => None
  }

  function Compare(op: string, x: real, y: real): (r: bool)
  {
    if op == "<" then x < y
    else if op == ">" then x > y
    else if op == "<=" then x <= y
    else if op == ">=" then x >= y
    else if op == "==" then x == y
    else x != y
  }

  /**
   * safeEvaluateExpression. With `orFirst` false the text is split on "&&"
   * before "||", as the renderer does; with `orFirst` true it is split on
   * "||" first, which gives && its JavaScript precedence.
   */
  function SafeEvaluateWith(expr: string, orFirst: bool): (r: bool)
    decreases |expr|, 3
  {
    EvaluateTrimmed(Trim(expr), orFirst)
  }

  /** The literals, then a single comparison, then the connectives; true for anything else. */
  function EvaluateTrimmed(e: string, orFirst: bool): (r: bool)
    decreases |e|, 2
  {
    if e == "true" then true
    else if e == "false" then false
    else match ParseComparison(e)
      case Some((x, op, y)) => Compare(op, x, y)
      case None => EvaluateLogical(e, orFirst)
  }

  function EvaluateLogical(e: string, orFirst: bool): (r: bool)
    decreases |e|, 1
  {
    var first, second := if orFirst then "||" else "&&", if orFirst then "&&" else "||";
    if Contains(e, first) then
      SplitPartsShorter(e, first);
      Combine(Split(e, first), |e|, orFirst, first == "&&")
    else if Contains(e, second) then
      SplitPartsShorter(e, second);
      Combine(Split(e, second), |e|, orFirst, second == "&&")
    else true
  }

  /** parts.every(...) when `conjunction`, parts.some(...) otherwise. */
  function Combine(parts: seq<string>, bound: nat, orFirst: bool, conjunction: bool): (r: bool)
    requires forall p :: p in parts ==> |p| < bound
    decreases bound, 0, |parts|
  {
    if parts == [] then conjunction
    else
      var v := SafeEvaluateWith(parts[0], orFirst);
      if conjunction && !v then false
      else if !conjunction && v then true
      else Combine(parts[1..], bound, orFirst, conjunction)
  }

  /** The evaluator as the renderer has it: "&&" is split before "||". */
  function SafeEvaluate(expr: string): (r: bool) { SafeEvaluateWith(expr, false) }

  /** The evaluator with JavaScript precedence, where "||" binds looser than "&&". */
  function SafeEvaluateCorrected(expr: string): (r: bool) { SafeEvaluateWith(expr, true) }

  /** A trimmed text that is no literal, no comparison and has no connective evaluates to true. */
  lemma SafeEvaluateDefault(e: string, orFirst: bool)
    requires Trim(e) != "true" && Trim(e) != "false" && ParseComparison(Trim(e)).None?
    requires !Contains(Trim(e), "&&") && !Contains(Trim(e), "||")
    ensures SafeEvaluateWith(e, orFirst)
  {
  }

  /** The literals "true" and "false", with surrounding white space, give their boolean. */
  lemma SafeEvaluateLiterals(pad: string, orFirst: bool)
    requires forall i :: 0 <= i < |pad| ==> IsSpace(pad[i])
    ensures SafeEvaluateWith(pad + "true" + pad, orFirst)
    ensures !SafeEvaluateWith(pad + "false" + pad, orFirst)
  {
    TrimPadded(pad, "true");
    TrimPadded(pad, "false");
  }

  lemma {:induction false} TrimStartSpaces(pad: string, w: string)
    requires forall i :: 0 <= i < |pad| ==> IsSpace(pad[i])
    requires w == [] || !IsSpace(w[0])
    ensures TrimStart(pad + w) == w
  {
    if pad == [] {
      assert pad + w == w;
    } else {
      assert (pad + w)[0] == pad[0];
      assert (pad + w)[1..] == pad[1..] + w;
      TrimStartSpaces(pad[1..], w);
    }
  }

  lemma {:induction false} TrimEndSpaces(w: string, pad: string)
    requires forall i :: 0 <= i < |pad| ==> IsSpace(pad[i])
    requires w == [] || !IsSpace(w[|w| - 1])
    ensures TrimEnd(w + pad) == w
  {
    if pad == [] {
      assert w + pad == w;
    } else {
      var s := w + pad;
      assert s[|s| - 1] == pad[|pad| - 1];
      assert s[..|s| - 1] == w + pad[..|pad| - 1];
      TrimEndSpaces(w, pad[..|pad| - 1]);
    }
  }

  lemma TrimPadded(pad: string, w: string)
    requires forall i :: 0 <= i < |pad| ==> IsSpace(pad[i])
    requires w != [] && !IsSpace(w[0]) && !IsSpace(w[|w| - 1])
    ensures Trim(pad + w + pad) == w
  {
    assert pad + w + pad == pad + (w + pad);
    assert (w + pad)[0] == w[0];
    TrimStartSpaces(pad, w + pad);
    TrimEndSpaces(w, pad);
  }

  /** Two numbers compared by one of the six operators are compared exactly. */
  lemma SafeEvaluateComparison(x: nat, op: string, y: nat, orFirst: bool)
    requires op in ["<=", ">=", "<", ">", "==", "!="]
    ensures SafeEvaluateWith(NatToString(x) + op + NatToString(y), orFirst) == Compare(op, x as real, y as real)
  {
    var a, b := NatToString(x), NatToString(y);
    var s := a + op + b;
    assert s[0] == a[0];
    assert s[|s| - 1] == b[|b| - 1];
    assert s != "true" && s != "false" by { assert IsDigit(s[0]); }
    TrimmedStep(s, orFirst);
    ParseComparisonOf(x, op, y);
  }

  lemma TrimmedStep(e: string, orFirst: bool)
    requires e != [] && !IsSpace(e[0]) && !IsSpace(e[|e| - 1])
    ensures SafeEvaluateWith(e, orFirst) == EvaluateTrimmed(e, orFirst)
  {
    TrimFixed(e);
  }

  lemma ParseComparisonOf(x: nat, op: string, y: nat)
    requires op in ["<=", ">=", "<", ">", "==", "!="]
    ensures ParseComparison(NatToString(x) + op + NatToString(y)) == Some((x as real, op, y as real))
  {
    var a, b := NatToString(x), NatToString(y);
    var r1 := op + b;
    assert a + op + b == a + r1;
    calc {
      ParseComparison(a + op + b);
      ParseComparison(a + r1);
      { OperatorStart(op);
        assert r1[0] == op[0];
        NumberPrefix(x, r1);
        ParseRightSideOf(op, y);
        ComparisonOfParts(a, r1, x as real, op, y as real); }
      Some((x as real, op, y as real));
    }
  }

  /** A number followed by a right side parses as the comparison of the two. */
  lemma ComparisonOfParts(a: string, r1: string, x: real, op: string, y: real)
    requires ParseNumber(a + r1) == Some((x, |a|)) && ParseRightSide(r1) == Some((op, y))
    ensures ParseComparison(a + r1) == Some((x, op, y))
  {
    assert (a + r1)[|a|..] == r1;
  }

  lemma ParseRightSideOf(op: string, y: nat)
    requires op in ["<=", ">=", "<", ">", "==", "!="]
    ensures ParseRightSide(op + NatToString(y)) == Some((op, y as real))
  {
    var b := NatToString(y);
    var r1 := op + b;
    assert r1[0] == op[0];
    OperatorStart(op);
    assert SpaceRun(r1) == 0;
    assert r1[0..] == r1;
    OperatorPrefix(op, b);
    assert r1[|op|..] == b;
    assert SpaceRun(b) == 0 by { assert IsDigit(b[0]); }
    assert b[0..] == b;
    NumberPrefix(y, "");
    assert b + "" == b;
  }

  lemma OperatorStart(op: string)
    requires op in ["<=", ">=", "<", ">", "==", "!="]
    ensures op != [] && (op[0] == '<' || op[0] == '>' || op[0] == '=' || op[0] == '!')
  {
  }

  lemma OperatorPrefix(op: string, b: string)
    requires op in ["<=", ">=", "<", ">", "==", "!="] && b != [] && IsDigit(b[0])
    ensures ParseOperator(op + b) == Some(op)
  {
    var s := op + b;
    assert s[0] == op[0];
    if op == "<" { assert s[1] == b[0]; }
    else if op == ">" { assert s[1] == b[0]; }
    else { assert s[1] == op[1]; }
  }

  /** A number written in digits is read back by the number pattern, up to the next non-digit. */
  lemma NumberPrefix(x: nat, rest: string)
    requires rest == [] || (!IsDigit(rest[0]) && rest[0] != '.')
    ensures ParseNumber(NatToString(x) + rest) == Some((x as real, |NatToString(x)|))
  {
    var a := NatToString(x);
    var s := a + rest;
    assert DigitRun(s) == |a| by {
      DigitRunOfDigits(a, rest);
    }
    assert s[..|a|] == a;
    ParseNatToString(x);
  }

  lemma {:induction false} DigitRunOfDigits(a: string, rest: string)
    requires AllDigits(a) && (rest == [] || !IsDigit(rest[0]))
    ensures DigitRun(a + rest) == |a|
  {
    if a != [] {
      DigitRunOfDigits(a[1..], rest);
      assert (a + rest)[1..] == a[1..] + rest;
    } else {
      assert a + rest == rest;
    }
  }

  lemma SplitOnAnd(e: string, l: string, r: string)
    requires e == "true||false&&false" && l == "true||false" && r == "false"
    ensures Split(e, "&&") == [l, r]
  {
    assert e == l + "&&" + r;
    assert forall k :: 0 <= k < |l| ==> l[k] != '&';
    assert forall k :: 0 <= k < |r| ==> r[k] != '&';
    SplitTwo(l, r, "&&");
  }

  lemma SplitOnOr(e: string, l: string, r: string)
    requires e == "true||false&&false" && l == "true" && r == "false&&false"
    ensures Split(e, "||") == [l, r]
  {
    assert e == l + "||" + r;
    assert forall k :: 0 <= k < |l| ==> l[k] != '|';
    assert forall k :: 0 <= k < |r| ==> r[k] != '|';
    SplitTwo(l, r, "||");
  }

  /** Text around one separator, neither side holding its first character, splits in two. */
  lemma SplitTwo(h: string, t: string, sep: string)
    requires sep != [] && !ContainsChar(h, sep[0]) && !ContainsChar(t, sep[0])
    ensures Split(h + sep + t, sep) == [h, t]
  {
    SplitAfterHead(h, t, sep);
    SplitWithoutSeparatorStart(t, sep);
  }

  /** A text that is already trimmed and starts with neither a digit nor a literal goes to the connectives. */
  lemma LogicalStep(e: string, orFirst: bool)
    requires e != [] && !IsSpace(e[0]) && !IsSpace(e[|e| - 1]) && !IsDigit(e[0])
    requires e != "true" && e != "false"
    ensures SafeEvaluateWith(e, orFirst) == EvaluateLogical(e, orFirst)
  {
    TrimFixed(e);
    assert ParseNumber(e) == None;
  }

  lemma TrueValue(t: string, orFirst: bool)
    requires t == "true"
    ensures SafeEvaluateWith(t, orFirst)
  {
    TrimFixed(t);
  }

  lemma FalseValue(f: string, orFirst: bool)
    requires f == "false"
    ensures !SafeEvaluateWith(f, orFirst)
  {
    TrimFixed(f);
  }

  lemma CombineOne(p: string, bound: nat, orFirst: bool, conjunction: bool)
    requires |p| < bound
    ensures Combine([p], bound, orFirst, conjunction) == SafeEvaluateWith(p, orFirst)
  {
    assert [p][1..] == [];
  }

  /** Two parts: every part for a conjunction, some part for a disjunction. */
  lemma CombineTwo(p: string, q: string, bound: nat, orFirst: bool, conjunction: bool)
    requires |p| < bound && |q| < bound
    ensures Combine([p, q], bound, orFirst, conjunction) ==
      if conjunction then SafeEvaluateWith(p, orFirst) && SafeEvaluateWith(q, orFirst)
      else SafeEvaluateWith(p, orFirst) || SafeEvaluateWith(q, orFirst)
  {
    assert [p, q][1..] == [q];
    CombineOne(q, bound, orFirst, conjunction);
  }

  /** With "||" split first, a text containing "||" is evaluated as some of its parts. */
  lemma OrFirstSplit(e: string)
    requires Contains(e, "||")
    ensures (forall p :: p in Split(e, "||") ==> |p| < |e|)
      && EvaluateLogical(e, true) == Combine(Split(e, "||"), |e|, true, false)
  {
    SplitPartsShorter(e, "||");
  }

  /** With "&&" split first, a text containing "&&" is evaluated as every one of its parts. */
  lemma AndFirstSplit(e: string)
    requires Contains(e, "&&")
    ensures (forall p :: p in Split(e, "&&") ==> |p| < |e|)
      && EvaluateLogical(e, false) == Combine(Split(e, "&&"), |e|, false, true)
  {
    SplitPartsShorter(e, "&&");
  }

  lemma BothConnectives(e: string)
    requires e == "true||false&&false"
    ensures Contains(e, "||") && Contains(e, "&&")
    ensures e != [] && !IsSpace(e[0]) && !IsSpace(e[|e| - 1]) && !IsDigit(e[0]) && e != "true" && e != "false"
  {
    ConnectivesContained(e);
    ConnectivesShape(e);
  }

  lemma ConnectivesContained(e: string)
    requires e == "true||false&&false"
    ensures Contains(e, "||") && Contains(e, "&&")
  {
    assert e[11..13] == "&&";
    ContainsAt(e, "&&", 11);
    assert e[4..6] == "||";
    ContainsAt(e, "||", 4);
  }

  lemma ConnectivesShape(e: string)
    requires e == "true||false&&false"
    ensures e != [] && !IsSpace(e[0]) && !IsSpace(e[|e| - 1]) && !IsDigit(e[0]) && e != "true" && e != "false"
  {
    var first, last := e[0], e[|e| - 1];
    assert first == 't' && last == 'e' && |e| == 18;
    assert !IsSpace(first) && !IsSpace(last) && !IsDigit(first);
  }

  lemma AsWrittenSplitsOnAnd(e: string)
    requires e == "true||false&&false"
    ensures SafeEvaluate(e) == Combine(["true||false", "false"], |e|, false, true)
  {
    BothConnectives(e);
    LogicalStep(e, false);
    AndFirstSplit(e);
    SplitOnAnd(e, "true||false", "false");
  }

  lemma CorrectedSplitsOnOr(e: string)
    requires e == "true||false&&false"
    ensures SafeEvaluateCorrected(e) == Combine(["true", "false&&false"], |e|, true, false)
  {
    BothConnectives(e);
    LogicalStep(e, true);
    OrFirstSplit(e);
    SplitOnOr(e, "true", "false&&false");
  }

  /** JavaScript reads "true||false&&false" as true || (false && false). */
  lemma PrecedenceCounterexample(e: string)
    requires e == "true||false&&false"
    ensures !SafeEvaluate(e)
    ensures SafeEvaluateCorrected(e)
  {
    var l, r := "true||false", "false&&false";
    var t, f := "true", "false";
    AsWrittenSplitsOnAnd(e);
    CombineTwo(l, f, |e|, false, true);
    FalseValue(f, false);
    CorrectedSplitsOnOr(e);
    CombineTwo(t, r, |e|, true, false);
    TrueValue(t, true);
  }

  lemma {:induction false} NoCharNoContains(s: string, sub: string)
    requires sub != [] && !ContainsChar(s, sub[0])
    ensures !Contains(s, sub)
  {
    if s != [] {
      assert s[0] != sub[0];
      NoCharNoContains(s[1..], sub);
    }
  }

  // ---------------------------------------------------------------------
  // evaluateCondition and selectLayout
  // ---------------------------------------------------------------------

  predicate IsPathChar(c: char) { IsWordChar(c) || c == '.' }

  /** End of the run of [a-zA-Z0-9_.] starting at i. */
  function RunEnd(s: string, i: nat): (j: nat)
    requires i <= |s|
    ensures i <= j <= |s| && (j < |s| ==> !IsPathChar(s[j]))
    ensures forall k :: i <= k < j ==> IsPathChar(s[k])
    decreases |s| - i
  {
    if i == |s| || !IsPathChar(s[i]) then i else RunEnd(s, i + 1)
  }

  /** The run with its trailing dots dropped: where \b can close the match. */
  function TrimDots(s: string, i: nat, j: nat): (k: nat)
    requires i < j <= |s| && s[i] != '.'
    ensures i < k <= j && s[k - 1] != '.'
    decreases j
  {
    if s[j - 1] != '.' then j else TrimDots(s, i, j - 1)
  }

  /** What one identifier path becomes: the keywords stay, others become 'true' or 'false'. */
  function IdentifierValue(m: string, ctx: JVal): (r: string)
    requires ctx.Obj?
    ensures r == m || r == "true" || r == "false"
  {
    if m in ["true", "false", "null", "undefined"] then m
    else
      var v := match ResolveParts(ctx, Split(m, "."), ctx) case None => Undefined case Some(x) => x;
      if v.IsNullish() || v == Str("") then "false" else "true"
  }

  /** expr.replace(/\b([a-zA-Z_][a-zA-Z0-9_.]*)\b/g, ...) from position i. */
  function ReplaceIdentifiers(s: string, i: nat, ctx: JVal): (r: string)
    requires ctx.Obj?
    decreases |s| - i
  {
    if i >= |s| then ""
    else if (i == 0 || !IsWordChar(s[i - 1])) && (IsAsciiLetter(s[i]) || s[i] == '_') then
      var end := TrimDots(s, i, RunEnd(s, i));
      IdentifierValue(s[i..end], ctx) + ReplaceIdentifiers(s, end, ctx)
    else [s[i]] + ReplaceIdentifiers(s, i + 1, ctx)
  }

  /**
   * evaluateCondition: size.width and size.height replaced by the numbers,
   * identifiers replaced by their truthiness, then evaluated. Reading the
   * size of a context without one throws, and the catch answers true.
   */
  function EvaluateCondition(condition: string, ctx: JVal): (r: bool)
    requires ctx.Obj?
    ensures Member(ctx, "size").IsNullish() ==> r
  {
    match SizeTexts(ctx)
    case None => true
    case Some((w, h)) =>
      SafeEvaluate(ReplaceIdentifiers(ReplaceAll(ReplaceAll(condition, "size.width", w), "size.height", h), 0, ctx))
  }

  /** context.size.width.toString() and context.size.height.toString(), or None where reading them throws. */
  function SizeTexts(ctx: JVal): (r: Option<(string, string)>)
    requires ctx.Obj?
    ensures r.Some? ==> !Member(ctx, "size").IsNullish()
  {
    var size := Member(ctx, "size");
    if size.IsNullish() then None
    else
      var w, h := Member(size, "width"), Member(size, "height");
      if w.IsNullish() || h.IsNullish() then None
      else Some((ToString(w), ToString(h)))
  }

  /** A variant: its condition text and its layout. */
  datatype Variant = Variant(condition: string, layout: JVal)

  /** The index of the first element satisfying `holds`, or |xs| when none does. */
  function FirstIndex<T>(xs: seq<T>, holds: T -> bool): (k: nat)
    ensures k <= |xs|
    ensures forall j :: 0 <= j < k ==> !holds(xs[j])
    ensures k < |xs| ==> holds(xs[k])
  {
    if xs == [] then 0
    else if holds(xs[0]) then 0
    else
      var k := FirstIndex(xs[1..], holds);
      assert forall j :: 1 <= j < |xs| ==> xs[j] == xs[1..][j - 1];
      1 + k
  }

  /** selectLayout: the layout of the first variant whose condition holds, else the default layout. */
  function SelectLayout(variants: seq<Variant>, layout: JVal, ctx: JVal): (r: JVal)
    requires ctx.Obj?
    ensures r == layout || exists k :: 0 <= k < |variants| && r == variants[k].layout
  {
    var k := FirstIndex(variants, (v: Variant) => EvaluateCondition(v.condition, ctx));
    if k < |variants| then variants[k].layout else layout
  }

  /** The first variant whose condition holds is the one selected. */
  lemma SelectLayoutFirstMatch(variants: seq<Variant>, layout: JVal, ctx: JVal, k: nat)
    requires ctx.Obj? && k < |variants| && EvaluateCondition(variants[k].condition, ctx)
    requires forall j :: 0 <= j < k ==> !EvaluateCondition(variants[j].condition, ctx)
    ensures SelectLayout(variants, layout, ctx) == variants[k].layout
  {
    var holds := (v: Variant) => EvaluateCondition(v.condition, ctx);
    var m := FirstIndex(variants, holds);
    if m < k {
      assert false;
    } else if m > k {
      assert false;
    }
  }

  /** When no condition holds, the default layout is selected. */
  lemma SelectLayoutDefault(variants: seq<Variant>, layout: JVal, ctx: JVal)
    requires ctx.Obj? && forall j :: 0 <= j < |variants| ==> !EvaluateCondition(variants[j].condition, ctx)
    ensures SelectLayout(variants, layout, ctx) == layout
  {
    var holds := (v: Variant) => EvaluateCondition(v.condition, ctx);
    var m := FirstIndex(variants, holds);
    if m < |variants| {
      assert false;
    }
  }

  // ---------------------------------------------------------------------
  // Styles
  // ---------------------------------------------------------------------

  function Px(v: JVal): (r: string)
    ensures |r| >= 2 && r[|r| - 2..] == "px"
  {
    ToString(v) + "px"
  }

  /** One property in px when the value is defined. */
  function OptionalPx(key: string, v: JVal): (r: seq<(string, string)>)
    ensures |r| <= 1 && forall i :: 0 <= i < |r| ==> r[i] == (key, Px(v))
  {
    if v.Undefined? then [] else [(key, Px(v))]
  }

  /** Two properties with the same px value when the value is defined. */
  function PairPx(key1: string, key2: string, v: JVal): (r: seq<(string, string)>)
    ensures !v.Undefined? ==> r == [(key1, Px(v)), (key2, Px(v))]
    ensures v.Undefined? ==> r == []
  {
    if v.Undefined? then [] else [(key1, Px(v)), (key2, Px(v))]
  }

  /** The padding, margin and size part of buildStyles. */
  function BoxStyles(element: JVal): (r: seq<(string, string)>)
    requires element.Obj?
    ensures |r| <= 12
  {
    OptionalPx("padding", Member(element, "padding"))
    + (PairPx("padding-left", "padding-right", Member(element, "paddingHorizontal"))
    + AfterHorizontalPadding(element))
  }

  function AfterHorizontalPadding(element: JVal): (r: seq<(string, string)>)
    requires element.Obj?
    ensures |r| <= 9
  {
    PairPx("padding-top", "padding-bottom", Member(element, "paddingVertical"))
    + OptionalPx("margin", Member(element, "margin"))
    + PairPx("margin-left", "margin-right", Member(element, "marginHorizontal"))
    + PairPx("margin-top", "margin-bottom", Member(element, "marginVertical"))
    + SizeStyle("width", Member(element, "width"))
    + SizeStyle("height", Member(element, "height"))
  }

  /** buildStyles: the CSS properties of an element, in insertion order. */
  function BuildStyles(element: JVal): (r: Outcome<seq<(string, string)>>)
    requires element.Obj?
    ensures r.Ok? ==> BoxStyles(element) <= r.value
    ensures r.Thrown? <==>
      (Member(element, "flex").Null? || (Truthy(Member(element, "backgroundColor")) && !Member(element, "backgroundColor").Str?))
  {
    match FinishingStyles(element)
    case Thrown(t) => Thrown(t)
    case Ok(tail) => Ok(BoxStyles(element) + tail)
  }

  /** The flex, background and corner-radius part of buildStyles; flex.toString() throws on null. */
  function FinishingStyles(element: JVal): (r: Outcome<seq<(string, string)>>)
    requires element.Obj?
    ensures r.Thrown? <==>
      (Member(element, "flex").Null? || (Truthy(Member(element, "backgroundColor")) && !Member(element, "backgroundColor").Str?))
  {
    var flex := Member(element, "flex");
    var background := Member(element, "backgroundColor");
    var radius := OptionalPx("border-radius", Member(element, "cornerRadius"));
    if flex.Null? then Thrown("TypeError")
    else
      var flexStyle := if flex.Undefined? then [] else [("flex", ToString(flex))];
      if !Truthy(background) then Ok(flexStyle + radius)
      else match ResolveColor(background)
        case Thrown(t) => Thrown(t)
        case Ok(c) => Ok(flexStyle + [("background-color", c)] + radius)
  }

  /** paddingHorizontal sets padding-left and padding-right to the same value. */
  lemma PaddingHorizontalStyles(element: JVal)
    requires element.Obj? && BuildStyles(element).Ok? && !Member(element, "paddingHorizontal").Undefined?
    ensures var v := Px(Member(element, "paddingHorizontal"));
      FindKey(BuildStyles(element).value, "padding-left") == Some(v)
      && FindKey(BuildStyles(element).value, "padding-right") == Some(v)
  {
    var r := BuildStyles(element).value;
    var a := OptionalPx("padding", Member(element, "padding"));
    var h := PairPx("padding-left", "padding-right", Member(element, "paddingHorizontal"));
    var t := AfterHorizontalPadding(element);
    var box := BoxStyles(element);
    assert box == a + (h + t);
    FindKeyAppend(a, h + t, "padding-left");
    FindKeyAppend(a, h + t, "padding-right");
    FindKeyAppend(h, t, "padding-left");
    FindKeyAppend(h, t, "padding-right");
    FindKeyPrefix(box, r, "padding-left");
    FindKeyPrefix(box, r, "padding-right");
  }

  /** width/height: a number in px, 'fill' as 100%, anything else omitted. */
  function SizeStyle(key: string, v: JVal): (r: seq<(string, string)>)
    ensures |r| <= 1
  {
    if v.Num? then [(key, Px(v))]
    else if v == Str("fill") then [(key, "100%")]
    else []
  }

  /** stylesToString: "key: value" pairs joined by "; ". */
  function StylesToString(styles: seq<(string, string)>): (r: string)
    ensures |styles| == 1 ==> r == styles[0].0 + ": " + styles[0].1
  {
    Join(Declarations(styles), "; ")
  }

  function Declarations(styles: seq<(string, string)>): (r: seq<string>)
    ensures |r| == |styles| && forall i :: 0 <= i < |r| ==> r[i] == styles[i].0 + ": " + styles[i].1
  {
    if styles == [] then [] else [styles[0].0 + ": " + styles[0].1] + Declarations(styles[1..])
  }

  // ---------------------------------------------------------------------
  // forEach
  // ---------------------------------------------------------------------

  /** {...context, item, index}: existing keys keep their place, new ones are appended. */
  function SetProp(props: seq<(string, JVal)>, key: string, v: JVal): (r: seq<(string, JVal)>)
    ensures Lookup(r, key) == Some(v)
    ensures forall k :: k != key ==> Lookup(r, k) == Lookup(props, k)
  {
    if props == [] then [(key, v)]
    else if props[0].0 == key then [(key, v)] + props[1..]
    else [props[0]] + SetProp(props[1..], key, v)
  }

  function ItemContext(ctx: JVal, item: JVal, index: nat): (r: JVal)
    requires ctx.Obj?
    ensures r.Obj? && Lookup(r.props, "item") == Some(item) && Lookup(r.props, "index") == Some(Num(index as real))
    ensures forall k :: k != "item" && k != "index" ==> Lookup(r.props, k) == Lookup(ctx.props, k)
  {
    Obj(SetProp(SetProp(ctx.props, "item", item), "index", Num(index as real)))
  }

  /** items.slice(0, limit) length: a truncated limit, counted from the end when negative, clamped to the array. */
  function SliceEnd(limit: real, len: nat): (r: nat)
    ensures r <= len
    ensures limit >= 0.0 ==> r as real <= limit
  {
    var k := if limit >= 0.0 then limit.Floor else -((-limit).Floor);
    if k < 0 then (if len + k < 0 then 0 else len + k)
    else if k > len then len else k
  }

  /** The number of items rendered: element.limit || items.length, then sliced. */
  function ForEachCount(limit: JVal, len: nat): (r: nat)
    ensures r <= len
    ensures limit.Num? && limit.n > 0.0 ==> r as real <= limit.n
  {
    if Truthy(limit) && limit.Num? then SliceEnd(limit.n, len) else len
  }

  /** One item of a forEach: the template rendered with the item context, or '' without a template. */
  function RenderItem(item: JVal, index: nat, template: JVal, ctx: JVal, render: (JVal, JVal) -> string): (r: string)
    requires ctx.Obj?
    ensures !Truthy(template) ==> r == ""
  {
    if Truthy(template) then render(template, ItemContext(ctx, item, index)) else ""
  }

  /** Each of the first `count` items rendered, in order. */
  function RenderItems(items: seq<JVal>, count: nat, template: JVal, ctx: JVal,
                       render: (JVal, JVal) -> string): (r: seq<string>)
    requires ctx.Obj? && count <= |items|
    ensures |r| == count
    ensures forall i :: 0 <= i < count ==> r[i] == RenderItem(items[i], i, template, ctx, render)
  {
    seq(count, i requires 0 <= i < count => RenderItem(items[i], i, template, ctx, render))
  }

  /** renderForEach: the array at context.data.<items>, limited, each item rendered; '' for a non-array. */
  function RenderForEach(element: JVal, ctx: JVal, render: (JVal, JVal) -> string): (r: Outcome<string>)
    requires element.Obj? && ctx.Obj?
    ensures r.Thrown? <==> !Member(element, "items").Str?
  {
    match Member(element, "items")
    case Str(path) =>
      var items := MapboxExpressions.Walk(Member(ctx, "data"), Split(path, "."));
      if !items.Arr? then Ok("")
      else
        var count := ForEachCount(Member(element, "limit"), |items.items|);
        Ok(Join(RenderItems(items.items, count, Member(element, "itemTemplate"), ctx, render), ""))
    case _ => Thrown("TypeError")
  }

  /** Nothing is rendered for a non-array; otherwise at most `limit` items and at most all of them. */
  lemma ForEachBounds(element: JVal, ctx: JVal, render: (JVal, JVal) -> string)
    requires element.Obj? && ctx.Obj? && Member(element, "items").Str?
    ensures var items := MapboxExpressions.Walk(Member(ctx, "data"), Split(Member(element, "items").s, "."));
      (!items.Arr? ==> RenderForEach(element, ctx, render) == Ok(""))
      && (items.Arr? ==>
            var count := ForEachCount(Member(element, "limit"), |items.items|);
            count <= |items.items|
            && (Member(element, "limit").Num? && Member(element, "limit").n > 0.0 ==> count as real <= Member(element, "limit").n)
            && RenderForEach(element, ctx, render)
               == Ok(Join(RenderItems(items.items, count, Member(element, "itemTemplate"), ctx, render), "")))
  {
  }

  // ---------------------------------------------------------------------
  // Visibility and conditional elements
  // ---------------------------------------------------------------------

  /**
   * evaluateCondition on any value: a condition that is not a string has
   * no replace method, the call throws inside the try, and the catch
   * answers true.
   */
  predicate ConditionHolds(cond: JVal, ctx: JVal)
    requires ctx.Obj?
    ensures !cond.Str? ==> ConditionHolds(cond, ctx)
  {
    if cond.Str? then EvaluateCondition(cond.s, ctx) else true
  }

  /** renderElement's guard: visible === false, or a visibleIf condition that fails, hides the element. */
  predicate ElementVisible(element: JVal, ctx: JVal)
    requires element.Obj? && ctx.Obj?
    ensures Member(element, "visible") == Bool(false) ==> !ElementVisible(element, ctx)
  {
    var cond := Member(element, "visibleIf");
    Member(element, "visible") != Bool(false)
    && (Truthy(cond) ==> ConditionHolds(cond, ctx))
  }

  /** A visibleIf that is truthy but not a string never hides the element. */
  lemma NonStringVisibleIf(element: JVal, ctx: JVal)
    requires element.Obj? && ctx.Obj? && !Member(element, "visibleIf").Str?
    ensures ElementVisible(element, ctx) <==> Member(element, "visible") != Bool(false)
  {
  }

  /** renderConditional: the truthy branch the condition selects, or ''. */
  function RenderConditional(element: JVal, ctx: JVal, render: (JVal, JVal) -> string): (r: string)
    requires element.Obj? && ctx.Obj?
    ensures var c := ConditionHolds(Member(element, "condition"), ctx);
      (c && Truthy(Member(element, "then")) ==> r == render(Member(element, "then"), ctx))
      && (!c && Truthy(Member(element, "else")) ==> r == render(Member(element, "else"), ctx))
      && (!Truthy(Member(element, if c then "then" else "else")) ==> r == "")
    ensures !Member(element, "condition").Str? ==>
      r == if Truthy(Member(element, "then")) then render(Member(element, "then"), ctx) else ""
  {
    var c := ConditionHolds(Member(element, "condition"), ctx);
    if c && Truthy(Member(element, "then")) then render(Member(element, "then"), ctx)
    else if !c && Truthy(Member(element, "else")) then render(Member(element, "else"), ctx)
    else ""
  }
}
