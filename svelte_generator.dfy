/**
 * The NativeScript Svelte component generator: `{{binding}}` text turned
 * into Svelte expressions, bare identifiers resolved against the data
 * context, theme colour tokens turned into colour variables, Mapbox
 * expressions compiled to TypeScript, and one layout property turned into
 * one Svelte attribute. The set of colour variables the generated
 * component uses is the one piece of state; `UsedColors` holds it.
 *
 * sanitize is SharedUtils.SanitizeIdentifier and hasBinding is
 * SharedUtils.HasTemplateBinding: the generator repeats both helpers
 * word for word.
 */
module SvelteGenerator {
  import opened Base
  import opened Strings
  import opened JsValues
  import opened SharedUtils

  // ---------------------------------------------------------------------
  // Tokens and paths
  // ---------------------------------------------------------------------

  /** /^[a-zA-Z_][a-zA-Z0-9_]*$/ */
  predicate IsSimpleToken(s: string)
  {
    s != [] && (IsAsciiLetter(s[0]) || s[0] == '_') && forall i :: 0 <= i < |s| ==> IsWordChar(s[i])
  }

  /** isLikelyDataPath on a string: a path rooted in data, item or size. */
  predicate IsRootedPath(s: string)
  {
    "data." <= s || "item." <= s || "size." <= s
  }

  /** The context roots normalizeExpr never prefixes. */
  predicate IsContextRoot(s: string)
  {
    s == "item" || s == "data" || s == "size"
  }

  /** The literal words the parenthesised branch of normalizeExpr never prefixes. */
  predicate IsLiteralWord(s: string)
  {
    s == "true" || s == "false" || s == "null" || s == "undefined"
  }

  /** /^#(?:[0-9a-fA-F]{3}){1,2}$/ */
  predicate IsHexColor(s: string)
  {
    (|s| == 4 || |s| == 7) && s[0] == '#' && forall i :: 1 <= i < |s| ==> IsHexDigit(s[i])
  }

  // ---------------------------------------------------------------------
  // normalizeExpr
  // ---------------------------------------------------------------------

  /** End of the run of word characters starting at i. */
  function WordEnd(s: string, i: nat): (j: nat)
    requires i <= |s|
    ensures i <= j <= |s| && (j < |s| ==> !IsWordChar(s[j]))
    ensures forall k :: i <= k < j ==> IsWordChar(s[k])
    decreases |s| - i
  {
    if i == |s| || !IsWordChar(s[i]) then i else WordEnd(s, i + 1)
  }

  /**
   * Whether /\b[a-zA-Z_][a-zA-Z0-9_]*\b/ matches at i: a word boundary
   * before a letter or '_'. The match then runs to the end of the word,
   * where the closing boundary always holds.
   */
  predicate WordStart(s: string, i: nat)
    requires i < |s|
  {
    (i == 0 || !IsWordChar(s[i - 1])) && (IsAsciiLetter(s[i]) || s[i] == '_')
  }

  /** What one identifier of a parenthesised expression becomes. */
  function PrefixWord(m: string, prefix: string): (r: string)
    ensures r == m <==> IsLiteralWord(m) || AllDigits(m) || IsContextRoot(m)
    ensures |r| >= |m|
  {
    if IsLiteralWord(m) || AllDigits(m) || IsContextRoot(m) then m else prefix + "." + m
  }

  /**
   * The identifier replacement from position i. With `corrected`, an
   * identifier right after a '.' is a property name and is kept.
   */
  function PrefixIdentifiers(s: string, i: nat, prefix: string, corrected: bool): (r: string)
    ensures |r| >= |s| - i
    decreases |s| - i
  {
    if i >= |s| then ""
    else if WordStart(s, i) then
      var j := WordEnd(s, i);
      var m := s[i..j];
      (if corrected && i > 0 && s[i - 1] == '.' then m else PrefixWord(m, prefix))
      + PrefixIdentifiers(s, j, prefix, corrected)
    else [s[i]] + PrefixIdentifiers(s, i + 1, prefix, corrected)
  }

  predicate HasParenthesis(s: string)
  {
    ContainsChar(s, '(') || ContainsChar(s, ')')
  }

  /**
   * normalizeExpr. As written (corrected false): a parenthesised
   * expression gets every identifier prefixed, property names after a dot
   * included; a single token is prefixed unless it is a context root, the
   * literal words included; anything else is kept. Corrected: property
   * names after a dot and the literal words are kept in both branches.
   */
  function NormalizeWith(expr: string, prefix: string, corrected: bool): (r: string)
    ensures !HasParenthesis(expr) && !IsSimpleToken(expr) ==> r == expr
    ensures IsSimpleToken(expr) ==> (r == expr <==> IsContextRoot(expr) || (corrected && IsLiteralWord(expr)))
  {
    SimpleTokenNoParenthesis(expr);
    if HasParenthesis(expr) then PrefixIdentifiers(expr, 0, prefix, corrected)
    else if IsSimpleToken(expr) then
      if IsContextRoot(expr) || (corrected && IsLiteralWord(expr)) then expr else prefix + "." + expr
    else expr
  }

  /** A simple token holds no parenthesis. */
  lemma SimpleTokenNoParenthesis(t: string)
    ensures IsSimpleToken(t) ==> !HasParenthesis(t)
  {
  }

  /** normalizeExpr as the generator runs it. */
  function NormalizeExpr(expr: string, prefix: string): (r: string)
    ensures !HasParenthesis(expr) && !IsSimpleToken(expr) ==> r == expr
    ensures IsSimpleToken(expr) ==> (r == expr <==> IsContextRoot(expr))
  {
    NormalizeWith(expr, prefix, false)
  }

  /** The corrected normalisation: property names and literal words are kept. */
  function NormalizeExprCorrected(expr: string, prefix: string): (r: string)
    ensures !HasParenthesis(expr) && !IsSimpleToken(expr) ==> r == expr
    ensures IsSimpleToken(expr) ==> (r == expr <==> IsContextRoot(expr) || IsLiteralWord(expr))
  {
    NormalizeWith(expr, prefix, true)
  }

  /**
   * A bare token is prefixed unless it is a context root; the corrected
   * normalisation also keeps the literal words.
   */
  lemma NormalizeToken(t: string, prefix: string)
    requires IsSimpleToken(t)
    ensures NormalizeExpr(t, prefix) == (if IsContextRoot(t) then t else prefix + "." + t)
    ensures !IsContextRoot(t) ==> NormalizeExpr(t, prefix) != t
    ensures NormalizeExprCorrected(t, prefix) == (if IsContextRoot(t) || IsLiteralWord(t) then t else prefix + "." + t)
  {
    assert !ContainsChar(t, '(') && !ContainsChar(t, ')') by {
      forall k | 0 <= k < |t| ensures t[k] != '(' && t[k] != ')' {
        assert IsWordChar(t[k]);
      }
    }
  }

  /** A dotted path without parentheses, such as item.temp, is kept as it is. */
  lemma NormalizeKeepsDottedPath(p: string, prefix: string, corrected: bool)
    requires ContainsChar(p, '.') && !HasParenthesis(p)
    ensures NormalizeWith(p, prefix, corrected) == p
  {
    var k :| 0 <= k < |p| && p[k] == '.';
    assert !IsWordChar(p[k]);
  }

  /** Text without identifiers comes out of the replacement unchanged. */
  lemma {:induction false} PrefixIdentifiersPlain(s: string, i: nat, prefix: string, corrected: bool)
    requires i <= |s|
    requires forall k :: i <= k < |s| ==> !IsAsciiLetter(s[k]) && s[k] != '_'
    ensures PrefixIdentifiers(s, i, prefix, corrected) == s[i..]
    decreases |s| - i
  {
    if i < |s| {
      PrefixIdentifiersPlain(s, i + 1, prefix, corrected);
      assert s[i..] == [s[i]] + s[i + 1..];
    }
  }

  /** Where the replacement stands at a word that is preceded by a non-word character. */
  lemma PrefixIdentifiersWord(s: string, i: nat, j: nat, prefix: string, corrected: bool)
    requires i < j <= |s| && WordStart(s, i) && WordEnd(s, i) == j
    ensures PrefixIdentifiers(s, i, prefix, corrected)
         == (if corrected && i > 0 && s[i - 1] == '.' then s[i..j] else PrefixWord(s[i..j], prefix))
            + PrefixIdentifiers(s, j, prefix, corrected)
  {
  }

  /** One character that starts no identifier is copied. */
  lemma PrefixIdentifiersChar(s: string, i: nat, prefix: string, corrected: bool)
    requires i < |s| && !WordStart(s, i)
    ensures PrefixIdentifiers(s, i, prefix, corrected) == [s[i]] + PrefixIdentifiers(s, i + 1, prefix, corrected)
  {
  }

  lemma ItemWord(e: string)
    requires e == "(item.temp)"
    ensures WordStart(e, 1) && WordEnd(e, 1) == 5 && e[1..5] == "item"
  {
    assert WordEnd(e, 5) == 5;
    assert WordEnd(e, 1) == WordEnd(e, 2) == WordEnd(e, 3) == WordEnd(e, 4);
  }

  lemma TempWord(e: string)
    requires e == "(item.temp)"
    ensures WordStart(e, 6) && WordEnd(e, 6) == 10 && e[6..10] == "temp" && e[5] == '.'
  {
    assert WordEnd(e, 10) == 10;
    assert WordEnd(e, 6) == WordEnd(e, 7) == WordEnd(e, 8) == WordEnd(e, 9);
  }

  /** From the property name on: prefixed as written, kept when corrected. */
  lemma ItemTempTail(e: string, corrected: bool)
    requires e == "(item.temp)"
    ensures PrefixIdentifiers(e, 6, "data", corrected) == (if corrected then "temp" else "data.temp") + ")"
  {
    TempWord(e);
    assert !IsLiteralWord("temp") && !IsContextRoot("temp") && !AllDigits("temp") by {
      assert !IsDigit("temp"[0]);
    }
    PrefixIdentifiersWord(e, 6, 10, "data", corrected);
    PrefixIdentifiersPlain(e, 10, "data", corrected);
    assert e[10..] == ")";
  }

  /** Up to the property name, the context root is kept. */
  lemma ItemTempHead(e: string, corrected: bool)
    requires e == "(item.temp)"
    ensures PrefixIdentifiers(e, 0, "data", corrected)
         == "(" + ("item" + ("." + PrefixIdentifiers(e, 6, "data", corrected)))
  {
    var rest := PrefixIdentifiers(e, 6, "data", corrected);
    assert PrefixIdentifiers(e, 5, "data", corrected) == "." + rest by {
      assert !WordStart(e, 5) && e[5] == '.';
      PrefixIdentifiersChar(e, 5, "data", corrected);
    }
    assert PrefixIdentifiers(e, 1, "data", corrected) == "item" + PrefixIdentifiers(e, 5, "data", corrected) by {
      ItemWord(e);
      PrefixIdentifiersWord(e, 1, 5, "data", corrected);
      assert PrefixWord("item", "data") == "item";
    }
    assert PrefixIdentifiers(e, 0, "data", corrected) == "(" + PrefixIdentifiers(e, 1, "data", corrected) by {
      assert !WordStart(e, 0) && e[0] == '(';
      PrefixIdentifiersChar(e, 0, "data", corrected);
    }
  }

  /**
   * As written, a property name inside a parenthesised expression is
   * prefixed too: "(item.temp)" becomes "(item.data.temp)". The corrected
   * normalisation keeps it.
   */
  lemma NormalizePropertyNameCounterexample(e: string)
    requires e == "(item.temp)"
    ensures NormalizeExpr(e, "data") == "(item.data.temp)"
    ensures NormalizeExprCorrected(e, "data") == e
  {
    assert e[0] == '(';
    assert HasParenthesis(e);
    ItemTempReplaced(e, false);
    ItemTempReplaced(e, true);
  }

  /** The whole identifier replacement of "(item.temp)", as written and corrected. */
  lemma ItemTempReplaced(e: string, corrected: bool)
    requires e == "(item.temp)"
    ensures PrefixIdentifiers(e, 0, "data", corrected) == if corrected then e else "(item.data.temp)"
  {
    var tail := if corrected then "temp" else "data.temp";
    calc {
      PrefixIdentifiers(e, 0, "data", corrected);
      { ItemTempHead(e, corrected); }
      "(" + ("item" + ("." + PrefixIdentifiers(e, 6, "data", corrected)));
      { ItemTempTail(e, corrected); }
      "(" + ("item" + ("." + (tail + ")")));
      { ItemTempJoin(if corrected then e else "(item.data.temp)", tail); }
      if corrected then e else "(item.data.temp)";
    }
  }

  lemma ItemTempJoin(r: string, tail: string)
    requires tail == "temp" || tail == "data.temp"
    requires r == "(item." + tail + ")"
    ensures "(" + ("item" + ("." + (tail + ")"))) == r
  {
  }

  /**
   * As written, a bare literal word is prefixed like any token: "true"
   * becomes "data.true". The corrected normalisation keeps it, as the
   * parenthesised branch already does.
   */
  lemma NormalizeLiteralCounterexample(e: string)
    requires e == "true"
    ensures NormalizeExpr(e, "data") == "data.true"
    ensures NormalizeExprCorrected(e, "data") == e
  {
    assert IsSimpleToken(e) by {
      forall k | 0 <= k < |e| ensures IsWordChar(e[k]) {
        assert IsAsciiLetter(e[k]);
      }
    }
    assert !ContainsChar(e, '(') && !ContainsChar(e, ')') by {
      forall k | 0 <= k < |e| ensures e[k] != '(' && e[k] != ')' {
        assert IsWordChar(e[k]);
      }
    }
  }

  // ---------------------------------------------------------------------
  // convertBindingToSvelteExpr
  // ---------------------------------------------------------------------

  /** What one binding of mixed text becomes: its normalised, trimmed name inside `${…}`. */
  function Interpolation(prefix: string): (r: string -> string)
  {
    inner => "${" + NormalizeExpr(Trim(inner), prefix) + "}"
  }

  /** The body of the template literal built for mixed text and bindings. */
  function TemplateBody(raw: string, prefix: string): (r: string)
  {
    var escaped := ReplaceAll(ReplaceChar(raw, '`', "\\`"), "${", "\\${");
    ReplaceBindings(escaped, Interpolation(prefix))
  }

  /**
   * convertBindingToSvelteExpr: text without a binding becomes a JSON string
   * literal (a missing text the empty literal); one binding filling the whole
   * trimmed text becomes its normalised name; anything else becomes a
   * template literal.
   */
  function ConvertBinding(raw: Option<string>, prefix: string): (r: string)
    ensures !HasTemplateBinding(raw) ==> r == JsonQuote(if raw.None? then "" else raw.value)
  {
    if !HasTemplateBinding(raw) then
      JsonQuote(if raw.None? then "" else raw.value)
    else match GetSingleBinding(raw)
      case Some(name) => NormalizeExpr(name, prefix)
      case None => TemplateLiteral(raw.value, prefix)
  }

  /** The backtick-delimited template literal of a text holding bindings. */
  function TemplateLiteral(raw: string, prefix: string): (r: string)
  {
    "`" + TemplateBody(raw, prefix) + "`"
  }

  /** A text with a binding span that is not a single binding converts to its template literal. */
  lemma ConvertSpanned(s: string, i: nat, j: nat, prefix: string)
    requires BindingSpan(s, i, j) && GetSingleBinding(Some(s)).None?
    ensures ConvertBinding(Some(s), prefix) == TemplateLiteral(s, prefix)
  {
    SpanHasBinding(s, i, j);
  }

  lemma SpanHasBinding(s: string, i: nat, j: nat)
    requires BindingSpan(s, i, j)
    ensures HasTemplateBinding(Some(s))
  {
    HasTemplateBindingIff(s);
  }

  /** A binding filling the whole text converts to its trimmed, normalised name. */
  lemma ConvertSingleBinding(x: string, prefix: string)
    requires x != [] && forall k :: 0 <= k < |x| ==> x[k] != '}'
    ensures ConvertBinding(Some("{{" + x + "}}"), prefix) == NormalizeExpr(Trim(x), prefix)
  {
    var t := "{{" + x + "}}";
    assert BindingSpan(t, 0, |t| - 2);
    HasTemplateBindingIff(t);
    SingleBindingOfBinding(x);
  }

  /** The binding replacement copies a prefix that holds no '{'. */
  lemma {:induction false} ReplaceFromPlainPrefix(s: string, i: nat, k: nat, f: string -> string)
    requires i <= k <= |s|
    requires forall j :: i <= j < k ==> s[j] != '{'
    ensures ReplaceFrom(s, i, f) == s[i..k] + ReplaceFrom(s, k, f)
    decreases k - i
  {
    if i < k {
      assert ReplaceFrom(s, i, f) == [s[i]] + ReplaceFrom(s, i + 1, f) by {
        assert MatchAt(s, i).None?;
      }
      ReplaceFromPlainPrefix(s, i + 1, k, f);
      assert s[i..k] == [s[i]] + s[i + 1..k];
      Regroup([s[i]], s[i + 1..k], ReplaceFrom(s, k, f));
    }
  }

  lemma Regroup(a: string, b: string, c: string)
    ensures a + (b + c) == (a + b) + c
  {
  }

  /** The characters of t + "{{" + x + "}}" are those of t, the braces and those of x. */
  lemma MixedChars(t: string, x: string, c: char)
    requires c != '{' && c != '}'
    requires !ContainsChar(t, c) && !ContainsChar(x, c)
    ensures !ContainsChar(t + "{{" + x + "}}", c)
  {
    var s := t + "{{" + x + "}}";
    var n := |t|;
    forall k | 0 <= k < |s| ensures s[k] != c {
      if k < n { assert s[k] == t[k]; }
      else if n + 2 <= k < n + 2 + |x| { assert s[k] == x[k - n - 2]; }
    }
  }

  /** The template of text followed by one binding: the text, then the replaced binding. */
  lemma MixedReplacement(t: string, x: string, f: string -> string)
    requires x != [] && !ContainsChar(x, '}') && !ContainsChar(t, '{')
    ensures BindingSpan(t + "{{" + x + "}}", |t|, |t| + 2 + |x|)
    ensures ReplaceFrom(t + "{{" + x + "}}", 0, f) == t + f(x)
  {
    var s := t + "{{" + x + "}}";
    var n := |t|;
    var j := n + 2 + |x|;
    MixedSpan(t, x);
    MixedPrefix(t, x, f);
    MatchAtComplete(s, n, j);
    assert s[n + 2..j] == x;
    assert ReplaceFrom(s, n, f) == f(x) + ReplaceFrom(s, j + 2, f);
    assert ReplaceFrom(s, j + 2, f) == "";
  }

  /** The braces around x delimit a binding span. */
  lemma MixedSpan(t: string, x: string)
    requires x != [] && !ContainsChar(x, '}')
    ensures BindingSpan(t + "{{" + x + "}}", |t|, |t| + 2 + |x|)
  {
    var s := t + "{{" + x + "}}";
    var n := |t|;
    forall k | n + 2 <= k < n + 2 + |x| ensures s[k] != '}' {
      assert s[k] == x[k - n - 2];
    }
  }

  /** Text without '{' before the binding is copied unchanged. */
  lemma MixedPrefix(t: string, x: string, f: string -> string)
    requires !ContainsChar(t, '{')
    ensures ReplaceFrom(t + "{{" + x + "}}", 0, f) == t + ReplaceFrom(t + "{{" + x + "}}", |t|, f)
  {
    var s := t + "{{" + x + "}}";
    forall k | 0 <= k < |t| ensures s[k] != '{' {
      assert s[k] == t[k];
    }
    ReplaceFromPlainPrefix(s, 0, |t|, f);
    assert s[0..|t|] == t;
  }

  /**
   * Text followed by one binding becomes a template literal holding the
   * text and the normalised binding in `${…}`.
   */
  lemma ConvertMixedText(t: string, x: string, prefix: string)
    requires t != [] && !IsSpace(t[0]) && x != []
    requires !ContainsChar(t, '`') && !ContainsChar(t, '$') && !ContainsChar(t, '{') && !ContainsChar(t, '}')
    requires !ContainsChar(x, '`') && !ContainsChar(x, '$') && !ContainsChar(x, '}')
    ensures ConvertBinding(Some(t + "{{" + x + "}}"), prefix) == "`" + (t + ("${" + NormalizeExpr(Trim(x), prefix) + "}")) + "`"
  {
    var s := t + "{{" + x + "}}";
    MixedTemplateBody(t, x, prefix);
    MixedIsTemplate(t, x, prefix);
    assert TemplateBody(s, prefix) == t + Interpolation(prefix)(x);
  }

  /** Text followed by one binding is converted through the template literal. */
  lemma MixedIsTemplate(t: string, x: string, prefix: string)
    requires t != [] && !IsSpace(t[0]) && !ContainsChar(t, '{') && BindingSpan(t + "{{" + x + "}}", |t|, |t| + 2 + |x|)
    ensures ConvertBinding(Some(t + "{{" + x + "}}"), prefix) == TemplateLiteral(t + "{{" + x + "}}", prefix)
  {
    MixedNotSingle(t, x);
    ConvertSpanned(t + "{{" + x + "}}", |t|, |t| + 2 + |x|, prefix);
  }

  /** Text without backticks or '$' is left alone by the template escaping. */
  lemma EscapeMixedText(t: string, x: string)
    requires !ContainsChar(t, '`') && !ContainsChar(t, '$') && !ContainsChar(x, '`') && !ContainsChar(x, '$')
    ensures ReplaceAll(ReplaceChar(t + "{{" + x + "}}", '`', "\\`"), "${", "\\${") == t + "{{" + x + "}}"
  {
    var s := t + "{{" + x + "}}";
    MixedChars(t, x, '`');
    ReplaceCharAbsent(s, '`', "\\`");
    MixedChars(t, x, '$');
    ReplaceAllAbsent(s, "${", "\\${");
  }

  /** Text before a binding keeps it from being the single binding of the template. */
  lemma MixedNotSingle(t: string, x: string)
    requires t != [] && !IsSpace(t[0]) && t[0] != '{'
    ensures GetSingleBinding(Some(t + "{{" + x + "}}")).None?
  {
    var s := t + "{{" + x + "}}";
    assert s[0] == t[0] && s[|s| - 1] == '}';
    TrimFixed(s);
  }

  /** The escaped template of text followed by one binding is the text, then the interpolation. */
  lemma MixedTemplateBody(t: string, x: string, prefix: string)
    requires x != []
    requires !ContainsChar(t, '`') && !ContainsChar(t, '$') && !ContainsChar(t, '{') && !ContainsChar(t, '}')
    requires !ContainsChar(x, '`') && !ContainsChar(x, '$') && !ContainsChar(x, '}')
    ensures BindingSpan(t + "{{" + x + "}}", |t|, |t| + 2 + |x|)
    ensures TemplateBody(t + "{{" + x + "}}", prefix) == t + Interpolation(prefix)(x)
  {
    var s := t + "{{" + x + "}}";
    EscapeMixedText(t, x);
    TemplateBodyUnescaped(s, prefix);
    MixedReplacement(t, x, Interpolation(prefix));
  }

  /** A text the escaping leaves alone has only its bindings replaced. */
  lemma TemplateBodyUnescaped(s: string, prefix: string)
    requires ReplaceAll(ReplaceChar(s, '`', "\\`"), "${", "\\${") == s
    ensures TemplateBody(s, prefix) == ReplaceFrom(s, 0, Interpolation(prefix))
  {
  }

  /** Escaping for a template literal: every backtick left is preceded by a backslash. */
  predicate BackticksPreceded(r: string)
  {
    forall i :: 0 <= i < |r| && r[i] == '`' ==> i > 0 && r[i - 1] == '\\'
  }

  lemma {:induction false} BackticksEscaped(s: string)
    ensures BackticksPreceded(ReplaceChar(s, '`', "\\`"))
  {
    if s != [] {
      BackticksEscaped(s[1..]);
      var tail := ReplaceChar(s[1..], '`', "\\`");
      var head: string := if s[0] == '`' then "\\`" else [s[0]];
      var r := head + tail;
      assert ReplaceChar(s, '`', "\\`") == r;
      assert |head| == 1 || (|head| == 2 && head[0] == '\\' && head[1] == '`');
      forall i | 0 <= i < |r| && r[i] == '`' ensures i > 0 && r[i - 1] == '\\' {
        if i < |head| {
          assert r[i] == head[i];
          if i == 1 { assert r[0] == head[0]; }
        } else {
          var k := i - |head|;
          assert r[i] == tail[k] == '`';
          assert k > 0 && tail[k - 1] == '\\';
          assert r[i - 1] == tail[k - 1];
        }
      }
    }
  }

  // ---------------------------------------------------------------------
  // colorTokenToVar
  // ---------------------------------------------------------------------

  predicate IsAlnum(c: char) { IsAsciiLetter(c) || IsDigit(c) }

  /** token.replace(/[^a-zA-Z0-9]/g, '') */
  function AlnumOnly(s: string): (r: string)
    ensures |r| <= |s|
  {
    if s == [] then [] else (if IsAlnum(s[0]) then [s[0]] else []) + AlnumOnly(s[1..])
  }

  lemma {:induction false} AlnumOnlyAppend(a: string, b: string)
    ensures AlnumOnly(a + b) == AlnumOnly(a) + AlnumOnly(b)
  {
    if a == [] {
      assert a + b == b;
    } else {
      var h: string := if IsAlnum(a[0]) then [a[0]] else [];
      calc {
        AlnumOnly(a + b);
        { assert (a + b)[0] == a[0] && (a + b)[1..] == a[1..] + b; }
        h + AlnumOnly(a[1..] + b);
        { AlnumOnlyAppend(a[1..], b); }
        h + (AlnumOnly(a[1..]) + AlnumOnly(b));
        (h + AlnumOnly(a[1..])) + AlnumOnly(b);
        AlnumOnly(a) + AlnumOnly(b);
      }
    }
  }

  lemma {:induction false} AlnumOnlyChars(s: string)
    ensures forall i :: 0 <= i < |AlnumOnly(s)| ==> IsAlnum(AlnumOnly(s)[i])
  {
    if s != [] {
      AlnumOnlyChars(s[1..]);
      var h: string := if IsAlnum(s[0]) then [s[0]] else [];
      var t := AlnumOnly(s[1..]);
      assert AlnumOnly(s) == h + t;
      forall i | 0 <= i < |h + t| ensures IsAlnum((h + t)[i]) {
        if i >= |h| { assert (h + t)[i] == t[i - |h|]; }
      }
    }
  }

  lemma {:induction false} AlnumOnlyOfAlnum(s: string)
    requires forall i :: 0 <= i < |s| ==> IsAlnum(s[i])
    ensures AlnumOnly(s) == s
  {
    if s != [] {
      AlnumOnlyOfAlnum(s[1..]);
    }
  }

  /** colorTokenToVar: "color", then the token's letters and digits with the first one upper-cased. */
  function ColorTokenToVar(token: string): (r: string)
    ensures "color" <= r && |r| == 5 + |AlnumOnly(token)|
    ensures forall i :: 5 <= i < |r| ==> IsAlnum(r[i])
    ensures |r| > 5 ==> r[5] == UpperChar(AlnumOnly(token)[0]) && r[6..] == AlnumOnly(token)[1..]
  {
    var n := AlnumOnly(token);
    AlnumOnlyChars(token);
    if n == [] then "color" else "color" + [UpperChar(n[0])] + n[1..]
  }

  /** Separators inside a token do not change its variable: on-surface and onSurface share one. */
  lemma ColorTokenIgnoresSeparator(a: string, c: char, b: string)
    requires !IsAlnum(c)
    ensures ColorTokenToVar(a + [c] + b) == ColorTokenToVar(a + b)
  {
    calc {
      AlnumOnly(a + [c] + b);
      { AlnumOnlyAppend(a + [c], b); }
      AlnumOnly(a + [c]) + AlnumOnly(b);
      { AlnumOnlyAppend(a, [c]); assert AlnumOnly([c]) == []; assert AlnumOnly(a) + [] == AlnumOnly(a); }
      AlnumOnly(a) + AlnumOnly(b);
      { AlnumOnlyAppend(a, b); }
      AlnumOnly(a + b);
    }
  }

  /** A token made only of letters and digits keeps them all after the upper-cased first one. */
  lemma ColorTokenOfAlnum(token: string)
    requires token != [] && forall i :: 0 <= i < |token| ==> IsAlnum(token[i])
    ensures ColorTokenToVar(token) == "color" + [UpperChar(token[0])] + token[1..]
  {
    AlnumOnlyOfAlnum(token);
  }

  // ---------------------------------------------------------------------
  // evaluateMapboxExpression
  // ---------------------------------------------------------------------

  /** c0 ? v0 : c1 ? v1 : … : fallback, with the first pair outermost. */
  function Ternary(parts: seq<string>): (r: string)
    requires |parts| % 2 == 1
    decreases |parts|
  {
    if |parts| == 1 then parts[0]
    else parts[0] + " ? " + parts[1] + " : " + Ternary(parts[2..])
  }

  /** One more condition/value pair in front nests the rest as its else branch. */
  lemma TernaryStep(parts: seq<string>, i: nat)
    requires i + 2 < |parts| && |parts[i..]| % 2 == 1
    ensures Ternary(parts[i..]) == parts[i] + " ? " + parts[i + 1] + " : " + Ternary(parts[i + 2..])
  {
    assert parts[i..][2..] == parts[i + 2..];
  }

  /** The first condition comes first and the fallback last. */
  lemma {:induction false} TernaryEnds(parts: seq<string>)
    requires |parts| % 2 == 1
    ensures parts[0] <= Ternary(parts)
    ensures |parts[|parts| - 1]| <= |Ternary(parts)|
    ensures Ternary(parts)[|Ternary(parts)| - |parts[|parts| - 1]|..] == parts[|parts| - 1]
    decreases |parts|
  {
    if |parts| > 1 {
      TernaryEnds(parts[2..]);
      var rest := Ternary(parts[2..]);
      var head := parts[0] + " ? " + parts[1] + " : ";
      assert Ternary(parts) == head + rest;
      assert parts[2..][|parts[2..]| - 1] == parts[|parts| - 1];
      assert (head + rest)[|head + rest| - |parts[|parts| - 1]|..] == rest[|rest| - |parts[|parts| - 1]|..];
    }
  }

  /** The arguments with a null fallback added when none is given. */
  function WithFallback(parts: seq<string>): (r: seq<string>)
    ensures |r| % 2 == 1
  {
    if |parts| % 2 == 1 then parts else parts + ["null"]
  }

  /**
   * The 'case' loop as written: the last argument is taken as the
   * fallback and the pairs are walked backwards from it. With an even
   * number of arguments the first condition is dropped and every later
   * condition is paired with the next condition's value.
   */
  method Case(parts: seq<string>) returns (r: string)
    ensures |parts| == 0 ==> r == "null"
    ensures |parts| > 0 ==> r == Ternary(AsWrittenParts(parts))
  {
    if |parts| == 0 {
      return "null";
    }
    if |parts| == 1 {
      assert parts[0..] == parts;
      return parts[0];
    }
    r := parts[|parts| - 1];
    var i: int := |parts| - 3;
    while i >= 0
      invariant -2 <= i <= |parts| - 3
      invariant |parts[i + 2..]| % 2 == 1
      invariant r == Ternary(parts[i + 2..])
      decreases i
    {
      r := TernaryPrepend(parts, i, r);
      i := i - 2;
    }
    LoopStart(parts, i);
  }

  /** The arguments the loop as written reads: all of an odd count, all but the first of an even one. */
  function AsWrittenParts(parts: seq<string>): (r: seq<string>)
    requires parts != []
    ensures |r| % 2 == 1 && r == parts[1 - |parts| % 2..]
  {
    if |parts| % 2 == 1 then parts else parts[1..]
  }

  /** One step of the backward loop: the pair at i goes in front of the ternary of what follows it. */
  function TernaryPrepend(parts: seq<string>, i: nat, r: string): (r': string)
    requires i + 2 < |parts| && |parts[i + 2..]| % 2 == 1 && r == Ternary(parts[i + 2..])
    ensures |parts[i..]| % 2 == 1 && r' == Ternary(parts[i..])
  {
    OddPlusTwo(|parts[i + 2..]|);
    TernaryStep(parts, i);
    parts[i] + " ? " + parts[i + 1] + " : " + r
  }

  /** Where the backward loop stops: index 1 for an even count, 0 for an odd one. */
  lemma LoopStart(parts: seq<string>, i: int)
    requires parts != [] && -2 <= i <= -1 && |parts[i + 2..]| % 2 == 1
    ensures parts[i + 2..] == AsWrittenParts(parts)
  {
  }

  lemma OddPlusTwo(n: nat)
    requires n % 2 == 1
    ensures (n + 2) % 2 == 1
  {
  }

  /** The corrected 'case' loop, with the pairs taken from the start: the loop as written, run on the arguments with a null fallback added when none is given. */
  method CaseCorrected(parts: seq<string>) returns (r: string)
    ensures r == Ternary(WithFallback(parts))
  {
    var all := WithFallback(parts);
    r := Case(all);
    assert AsWrittenParts(all) == all;
  }

  /**
   * Four arguments with no fallback: as written the first condition is
   * lost; corrected, both pairs survive and the fallback is null.
   */
  lemma CaseEvenCounterexample(parts: seq<string>)
    requires parts == ["c1", "v1", "c2", "v2"]
    ensures Ternary(AsWrittenParts(parts)) == "v1" + " ? " + "c2" + " : " + "v2"
    ensures Ternary(WithFallback(parts)) == "c1" + " ? " + "v1" + " : " + ("c2" + " ? " + "v2" + " : " + "null")
  {
    var all := parts + ["null"];
    assert WithFallback(parts) == all;
    assert all[2..][2..] == ["null"];
    assert Ternary(all[2..]) == "c2" + " ? " + "v2" + " : " + "null";
    assert parts[1..][2..] == ["v2"];
  }

  const BinaryOperators: seq<string> := ["<", ">", "<=", ">=", "==", "!=", "+", "-", "*", "/"]

  /** The 'get' branch: rooted paths are kept, other strings get the context prefix. */
  function CompileGet(path: JVal, context: string): (r: string)
    ensures path.Str? && IsRootedPath(path.s) ==> r == path.s
    ensures path.Str? && !IsRootedPath(path.s) ==> r == context + "." + path.s
    ensures !path.Str? ==> r == Stringify(path)
  {
    match path
    case Str(p) => if "size." <= p || "data." <= p || "item." <= p then p else context + "." + p
    case _ => Stringify(path)
  }

  /**
   * evaluateMapboxExpression: a Mapbox expression as TypeScript text.
   * 'case' is compiled as the backward loop reads it (see Case).
   */
  function CompileMapbox(expr: JVal, context: string): (r: string)
    decreases expr, 1
  {
    match expr
    case Str(s) => if s == "get" then s else JsonQuote(s)
    case Arr(items) =>
      if items == [] then Stringify(expr)
      else
        var op := items[0];
        var args := items[1..];
        assert forall x :: x in args ==> x in items;
        if op == Str("get") then CompileGet(if args == [] then Undefined else args[0], context)
        else if op == Str("case") then
          if args == [] then "null" else Ternary(AsWrittenParts(CompileArgs(expr, args, context)))
        else if op.Str? && op.s in BinaryOperators then
          CompileOperand(expr, args, 0, context) + " " + op.s + " " + CompileOperand(expr, args, 1, context)
        else Stringify(expr)
    case _ => Stringify(expr)
  }

  /** The k-th argument compiled; a missing one is undefined. */
  function CompileOperand(parent: JVal, args: seq<JVal>, k: nat, context: string): (r: string)
    requires forall x :: x in args ==> x < parent
    decreases parent, 0
  {
    if k < |args| then
      assert args[k] in args;
      CompileMapbox(args[k], context)
    else "undefined"
  }

  function CompileArgs(parent: JVal, args: seq<JVal>, context: string): (r: seq<string>)
    requires forall x :: x in args ==> x < parent
    ensures |r| == |args|
    decreases parent, 0, |args|
  {
    if args == [] then []
    else
      assert args[0] in args;
      assert forall x :: x in args[1..] ==> x in args;
      [CompileMapbox(args[0], context)] + CompileArgs(parent, args[1..], context)
  }

  /** A comparison or arithmetic expression compiles to "left op right". */
  lemma CompileBinary(op: string, a: JVal, b: JVal, context: string)
    requires op in BinaryOperators
    ensures CompileMapbox(Arr([Str(op), a, b]), context)
         == CompileMapbox(a, context) + " " + op + " " + CompileMapbox(b, context)
  {
    var e := Arr([Str(op), a, b]);
    var args := e.items[1..];
    assert args == [a, b];
    assert op != "get" && op != "case";
    assert CompileOperand(e, args, 0, context) == CompileMapbox(a, context);
    assert CompileOperand(e, args, 1, context) == CompileMapbox(b, context);
  }

  /** 'case' compiles to nested conditionals, first condition first, ending in the fallback. */
  lemma CompileCaseShape(args: seq<JVal>, context: string)
    requires |args| % 2 == 1
    ensures var e := Arr([Str("case")] + args);
      var r := CompileMapbox(e, context);
      var parts := CompileArgs(e, args, context);
      r == Ternary(parts) && parts[0] <= r && |parts[|parts| - 1]| <= |r|
      && r[|r| - |parts[|parts| - 1]|..] == parts[|parts| - 1]
  {
    var e := Arr([Str("case")] + args);
    assert e.items[1..] == args;
    assert AsWrittenParts(CompileArgs(e, args, context)) == CompileArgs(e, args, context);
    TernaryEnds(CompileArgs(e, args, context));
  }

  /**
   * 'case' with an even, non-zero number of arguments: the first condition
   * is never compiled into the result, which nests the remaining arguments
   * from the second one on.
   */
  lemma CompileCaseEven(args: seq<JVal>, context: string)
    requires |args| > 0 && |args| % 2 == 0
    ensures var e := Arr([Str("case")] + args);
      var r := CompileMapbox(e, context);
      var parts := CompileArgs(e, args, context);
      r == Ternary(parts[1..])
  {
    var e := Arr([Str("case")] + args);
    assert e.items[1..] == args;
  }

  /** 'case' without arguments compiles to null. */
  lemma CompileCaseEmpty(context: string)
    ensures CompileMapbox(Arr([Str("case")]), context) == "null"
  {
    assert Arr([Str("case")]).items[1..] == [];
  }

  // ---------------------------------------------------------------------
  // buildAttribute
  // ---------------------------------------------------------------------

  /** The attribute names a layout property maps to. */
  function AttrNames(prop: string): (r: seq<string>)
    ensures 1 <= |r| <= 2
    ensures prop !in ["alignment", "crossAlignment", "textAlign", "paddingVertical", "spacing"] ==> r == [prop]
  {
    if prop == "alignment" then ["verticalAlignment"]
    else if prop == "crossAlignment" then ["horizontalAlignment"]
    else if prop == "textAlign" then ["textAlignment"]
    else if prop == "paddingVertical" then ["paddingTop", "paddingBottom"]
    else if prop == "spacing" then ["padding"]
    else [prop]
  }

  /** `${attrName}` in a template: an array of names prints comma-separated. */
  function AttrText(names: seq<string>): (r: string)
    ensures |names| == 1 ==> r == names[0]
  {
    Join(names, ",")
  }

  /** attrName.map(attr => `${attr}=<rhs>`).join(' ') */
  function EachAttr(names: seq<string>, rhs: string): (r: string)
    ensures |names| == 1 ==> r == names[0] + "=" + rhs
  {
    if names == [] then ""
    else if |names| == 1 then names[0] + "=" + rhs
    else names[0] + "=" + rhs + " " + EachAttr(names[1..], rhs)
  }

  function Braced(e: string): (r: string)
    ensures |r| == |e| + 2 && r[0] == '{' && r[|r| - 1] == '}' && r[1..|r| - 1] == e
  {
    "{" + e + "}"
  }

  function Quoted(v: string): (r: string)
    ensures |r| == |v| + 2 && r[0] == '"' && r[|r| - 1] == '"' && r[1..|r| - 1] == v
  {
    "\"" + v + "\""
  }

  const Hidden: string := "visibility=\"hidden\""

  function Visibility(expr: string): (r: string)
  {
    "visibility={" + expr + " ? 'visible' : 'hidden'}"
  }

  /** The icon-path template literal used for data.iconPath and {{item.iconPath}}. */
  function IconPathExpr(expr: string): (r: string)
  {
    "`${iconService.iconSetFolderPath}/images/${" + expr + "}.png`"
  }

  /** A string value as an expression: bindings are converted, other text normalised. */
  function BindingOrExpr(s: string, prefix: string): (r: string)
  {
    if HasTemplateBinding(Some(s)) then ConvertBinding(Some(s), prefix) else NormalizeExpr(s, prefix)
  }

  /** The expression a 'size' value puts into both width and height. */
  function SizeExpr(value: JVal, prefix: string): (r: string)
  {
    match value
    case Arr(_) => CompileMapbox(value, prefix)
    case Str(s) =>
      if HasTemplateBinding(Some(s)) then ConvertBinding(Some(s), prefix)
      else if IsRootedPath(s) then (if "data." <= s || "item." <= s then s else prefix + "." + s)
      else Stringify(value)
    case _ => Stringify(value)
  }

  /** The right-hand side of a colour attribute. */
  function ColorRhs(s: string): (r: string)
    ensures |r| >= 2 && ((r[0] == '{' && r[|r| - 1] == '}') || (r[0] == '"' && r[|r| - 1] == '"'))
    ensures IsHexColor(s) ==> r == Quoted(s)
  {
    if IsHexColor(s) then Quoted(s)
    else if IsRootedPath(s) then Braced(s)
    else if IsSimpleToken(s) then Braced(ColorTokenToVar(s))
    else Quoted(s)
  }

  /** The expression of an 'items' value. */
  function ItemsExpr(s: string, prefix: string): (r: string)
  {
    if IsRootedPath(s) then s
    else if IsSimpleToken(s) then prefix + "." + s
    else JsonQuote(s)
  }

  /** visibleIf: a string becomes a visibility expression; a constant true emits nothing. */
  function VisibleIfAttribute(value: JVal, prefix: string): (r: Option<string>)
    ensures value.Str? ==> r.Some?
    ensures value.Bool? ==> (r.None? <==> value.b) && (r.Some? ==> r.value == Hidden)
  {
    match value
    case Str(s) => Some(Visibility(BindingOrExpr(s, prefix)))
    case Bool(b) => if b then None else Some(Hidden)
    case _ => None
  }

  /** visible: as visibleIf, except that an expression reading "true" emits nothing. */
  function VisibleAttribute(value: JVal, prefix: string): (r: Option<string>)
    ensures value.Bool? ==> (r.None? <==> value.b) && (r.Some? ==> r.value == Hidden)
    ensures !value.Bool? && !value.Str? ==> r.None?
  {
    match value
    case Bool(b) => if b then None else Some(Hidden)
    case Str(s) =>
      var e := BindingOrExpr(s, prefix);
      if e != "true" then Some(Visibility(e)) else None
    case _ => None
  }

  /** A Mapbox expression or a bound string, on every attribute the property maps to. */
  function ExpressionAttribute(names: seq<string>, value: JVal, prefix: string): (r: string)
    requires value.Arr? || value.Str?
  {
    if value.Arr? then
      var e := CompileMapbox(value, prefix);
      EachAttr(names, Braced(if e == "data.iconPath" then IconPathExpr(e) else e))
    else
      var e := ConvertBinding(Some(value.s), prefix);
      EachAttr(names, Braced(if value.s == "{{item.iconPath}}" then IconPathExpr(e) else e))
  }

  /** items, color and backgroundColor with a string value (none of them is renamed). */
  function TokenAttribute(prop: string, s: string, prefix: string): (r: string)
    ensures prop + "=" <= r
  {
    if prop == "items" then prop + "=" + Braced(ItemsExpr(s, prefix)) else prop + "=" + ColorRhs(s)
  }

  /** Numbers, booleans and plain strings. */
  function LiteralAttribute(names: seq<string>, value: JVal): (r: Option<string>)
    ensures r.Some? <==> value.Num? || value.Bool? || value.Str?
  {
    match value
    case Num(_) => Some(EachAttr(names, Braced(Stringify(value))))
    case Bool(_) => Some(EachAttr(names, Braced(Stringify(value))))
    case Str(s) =>
      if IsRootedPath(s) then Some(AttrText(names) + "=" + Braced(s))
      else Some(EachAttr(names, Quoted(s)))
    case _ => None
  }

  /** buildAttribute: the attribute text for one property, or None when no attribute is emitted. */
  function Attribute(prop: string, value: JVal, prefix: string): (r: Option<string>)
    ensures value.IsNullish() ==> r.None?
  {
    if value.IsNullish() then None
    else if prop == "visibleIf" then VisibleIfAttribute(value, prefix)
    else if prop == "visible" then VisibleAttribute(value, prefix)
    else if prop == "size" then
      var e := SizeExpr(value, prefix);
      Some("width=" + Braced(e) + " height=" + Braced(e))
    else if value.Arr? || (value.Str? && HasTemplateBinding(Some(value.s))) then
      Some(ExpressionAttribute(AttrNames(prop), value, prefix))
    else if value.Str? && (prop == "items" || prop == "color" || prop == "backgroundColor") then
      Some(TokenAttribute(prop, value.s, prefix))
    else LiteralAttribute(AttrNames(prop), value)
  }

  /** The colour variable buildAttribute records: only for a theme token on color/backgroundColor. */
  function AttributeColors(prop: string, value: JVal): (r: set<string>)
    ensures |r| <= 1
  {
    if (prop == "color" || prop == "backgroundColor") && value.Str?
       && !HasTemplateBinding(Some(value.s)) && !IsHexColor(value.s)
       && !IsRootedPath(value.s) && IsSimpleToken(value.s)
    then {ColorTokenToVar(value.s)}
    else {}
  }

  /** A constant visibility: true emits nothing, false hides the element. */
  lemma VisibleConstant(prop: string, b: bool, prefix: string)
    requires prop == "visible" || prop == "visibleIf"
    ensures Attribute(prop, Bool(b), prefix) == if b then None else Some(Hidden)
  {
  }

  /**
   * The string "true" is normalised to a data path like any other token,
   * so the generator's check for "true" never fires and a visibility
   * binding is emitted.
   */
  lemma VisibleTrueString(prefix: string)
    ensures Attribute("visible", Str("true"), prefix) == Some(Visibility(prefix + ".true"))
  {
    var e := "true";
    assert IsSimpleToken(e) by {
      forall k | 0 <= k < |e| ensures IsWordChar(e[k]) {
        assert IsAsciiLetter(e[k]);
      }
    }
    SimpleTokenChars(e);
    NormalizeToken(e, prefix);
    assert !IsContextRoot(e);
    assert BindingOrExpr(e, prefix) == prefix + "." + e;
    assert prefix + "." + e != e by {
      assert |prefix + "." + e| > |e|;
    }
    assert prefix + "." + e == prefix + ".true";
    assert VisibleAttribute(Str(e), prefix) == Some(Visibility(prefix + ".true"));
  }

  /** 'size' emits width and height with the same expression. */
  lemma SizeEqualSides(value: JVal, prefix: string)
    requires !value.IsNullish()
    ensures exists e :: Attribute("size", value, prefix) == Some("width=" + Braced(e) + " height=" + Braced(e))
  {
    var e := SizeExpr(value, prefix);
    assert Attribute("size", value, prefix) == Some("width=" + Braced(e) + " height=" + Braced(e));
  }

  /** No character of a simple token is '{', '#' or '.'. */
  lemma SimpleTokenChars(t: string)
    requires IsSimpleToken(t)
    ensures !HasTemplateBinding(Some(t)) && !IsHexColor(t) && !IsRootedPath(t)
  {
    HasTemplateBindingIff(t);
    if |t| > 4 {
      assert IsWordChar(t[4]);
    }
  }

  /** A theme token becomes its colour variable, and that variable is recorded. */
  lemma ColorTokenAttribute(prop: string, t: string, prefix: string)
    requires prop == "color" || prop == "backgroundColor"
    requires IsSimpleToken(t)
    ensures Attribute(prop, Str(t), prefix) == Some(prop + "=" + Braced(ColorTokenToVar(t)))
    ensures AttributeColors(prop, Str(t)) == {ColorTokenToVar(t)}
  {
    SimpleTokenChars(t);
  }

  /** A hex colour is emitted as a string literal and records nothing. */
  lemma HexColorAttribute(prop: string, h: string, prefix: string)
    requires prop == "color" || prop == "backgroundColor"
    requires IsHexColor(h)
    ensures Attribute(prop, Str(h), prefix) == Some(prop + "=" + Quoted(h))
    ensures AttributeColors(prop, Str(h)) == {}
  {
    HasTemplateBindingIff(h);
  }

  /** paddingVertical sets top and bottom padding to the same value. */
  lemma PaddingVerticalBothSides(n: real, prefix: string)
    ensures Attribute("paddingVertical", Num(n), prefix)
         == Some("paddingTop" + "=" + Braced(NumberToString(n)) + " " + ("paddingBottom" + "=" + Braced(NumberToString(n))))
  {
    var names := ["paddingTop", "paddingBottom"];
    assert names[1..] == ["paddingBottom"];
    var b := Braced(NumberToString(n));
    assert AttrNames("paddingVertical") == names;
    assert Attribute("paddingVertical", Num(n), prefix) == LiteralAttribute(names, Num(n));
    assert EachAttr(names, b) == "paddingTop" + "=" + b + " " + EachAttr(["paddingBottom"], b);
  }

  // ---------------------------------------------------------------------
  // Colour collection
  // ---------------------------------------------------------------------

  /** The variable recorded for a colour-valued property: a non-empty token, not a binding, hex or data path. */
  function KeyColor(element: JVal, key: string): (r: set<string>)
    requires !element.IsNullish()
    ensures |r| <= 1
  {
    var v := Member(element, key);
    if v.Str? && v.s != "" && !HasTemplateBinding(Some(v.s)) && !IsHexColor(v.s) && !IsRootedPath(v.s)
    then {ColorTokenToVar(v.s)}
    else {}
  }

  lemma MemberSmaller(element: JVal, key: string)
    requires element.Obj?
    ensures Member(element, key) == Undefined || Member(element, key) < element
  {
    match Lookup(element.props, key)
    case None =>
    case Some(x) =>
      var i :| 0 <= i < |element.props| && element.props[i].1 == x;
      assert element.props[i] in element.props;
  }

  /** The member of an element when it is one of its parts; undefined otherwise. */
  function Part(element: JVal, key: string): (r: JVal)
    ensures r == Undefined || r < element
  {
    if element.Obj? then
      MemberSmaller(element, key);
      Member(element, key)
    else Undefined
  }

  /** The colours of the element's own color and backgroundColor properties. */
  function OwnColors(element: JVal): (r: set<string>)
    requires !element.IsNullish()
    ensures |r| <= 2
  {
    KeyColor(element, "color") + KeyColor(element, "backgroundColor")
  }

  /**
   * collectUsedColorsFromElement as a set: the element's own colours, its
   * children's, a forEach item template's and both branches of a
   * conditional.
   */
  function ElementColors(element: JVal): (r: set<string>)
    ensures !element.Obj? ==> r == {}
    ensures element.Obj? ==> OwnColors(element) <= r
    decreases element, 1
  {
    if !element.Obj? then {} else OwnColors(element) + ListColors(element) + NestedColors(element)
  }

  /** The colours of the children array, when there is one. */
  function ListColors(element: JVal): (r: set<string>)
    requires element.Obj?
    decreases element, 0
  {
    var children := Part(element, "children");
    if children.Arr? then ChildrenColors(children, children.items) else {}
  }

  /** The colours of a forEach item template and of a conditional's branches. */
  function NestedColors(element: JVal): (r: set<string>)
    requires element.Obj?
    ensures Member(element, "type") != Str("forEach") && Member(element, "type") != Str("conditional") ==> r == {}
    decreases element, 0
  {
    var kind := Member(element, "type");
    var template := Part(element, "itemTemplate");
    var thenBranch := Part(element, "then");
    var elseBranch := Part(element, "else");
    (if kind == Str("forEach") && Truthy(template) then ElementColors(template) else {})
    + (if kind == Str("conditional") && Truthy(thenBranch) then ElementColors(thenBranch) else {})
    + (if kind == Str("conditional") && Truthy(elseBranch) then ElementColors(elseBranch) else {})
  }

  function ChildrenColors(parent: JVal, items: seq<JVal>): (r: set<string>)
    requires forall x :: x in items ==> x < parent
    decreases parent, 0, |items|
  {
    if items == [] then {}
    else
      assert items[|items| - 1] in items;
      var init := items[..|items| - 1];
      assert forall x :: x in init ==> x < parent by {
        forall x | x in init ensures x < parent {
          assert x in items;
        }
      }
      ChildrenColors(parent, init) + ElementColors(items[|items| - 1])
  }

  /** A colour variable: "color" followed by letters and digits. */
  predicate IsColorVar(v: string)
  {
    "color" <= v && forall i :: 5 <= i < |v| ==> IsAlnum(v[i])
  }

  /** Every recorded colour variable is "color" followed by letters and digits. */
  lemma {:induction false} ElementColorsShape(element: JVal)
    ensures forall v :: v in ElementColors(element) ==> IsColorVar(v)
    decreases element, 1
  {
    if element.Obj? {
      var children := Part(element, "children");
      if children.Arr? {
        ChildrenColorsShape(children, children.items);
      }
      NestedColorsShape(element);
    }
  }

  lemma {:induction false} NestedColorsShape(element: JVal)
    requires element.Obj?
    ensures forall v :: v in NestedColors(element) ==> IsColorVar(v)
    decreases element, 0
  {
    var template := Part(element, "itemTemplate");
    var thenBranch := Part(element, "then");
    var elseBranch := Part(element, "else");
    if template != Undefined { ElementColorsShape(template); }
    if thenBranch != Undefined { ElementColorsShape(thenBranch); }
    if elseBranch != Undefined { ElementColorsShape(elseBranch); }
  }

  lemma {:induction false} ChildrenColorsShape(parent: JVal, items: seq<JVal>)
    requires forall x :: x in items ==> x < parent
    ensures forall v :: v in ChildrenColors(parent, items) ==> IsColorVar(v)
    decreases parent, 0, |items|
  {
    if items != [] {
      assert items[|items| - 1] in items;
      var init := items[..|items| - 1];
      assert forall x :: x in init ==> x < parent by {
        forall x | x in init ensures x < parent {
          assert x in items;
        }
      }
      ChildrenColorsShape(parent, init);
      ElementColorsShape(items[|items| - 1]);
    }
  }

  /** The background colour of the layout: no falsy check here, so '' records plain "color". */
  function BackgroundColor(layout: JVal): (r: set<string>)
    requires !layout.IsNullish()
    ensures |r| <= 1
  {
    var background := Member(layout, "background");
    var bg := if background.IsNullish() then Undefined else Member(background, "color");
    if bg.Str? && !HasTemplateBinding(Some(bg.s)) && !IsHexColor(bg.s) && !IsRootedPath(bg.s)
    then {ColorTokenToVar(bg.s)}
    else {}
  }

  /** The layouts of the variants that carry one. */
  function VariantColors(variants: seq<JVal>): (r: set<string>)
  {
    if variants == [] then {}
    else VariantColors(variants[..|variants| - 1]) + OneVariantColors(variants[|variants| - 1])
  }

  /** Every variant's colours are among those collected. */
  lemma {:induction false} VariantColorsIncludes(variants: seq<JVal>, i: nat)
    requires i < |variants|
    ensures OneVariantColors(variants[i]) <= VariantColors(variants)
    decreases |variants|
  {
    var init := variants[..|variants| - 1];
    var last := variants[|variants| - 1];
    var before, added := VariantColors(init), OneVariantColors(last);
    assert VariantColors(variants) == before + added;
    if i < |init| {
      assert init[i] == variants[i];
      VariantColorsIncludes(init, i);
      UnionIncludes(OneVariantColors(variants[i]), before, added);
    } else {
      UnionIncludes(added, added, before);
    }
  }

  lemma UnionIncludes(x: set<string>, a: set<string>, b: set<string>)
    requires x <= a
    ensures x <= a + b && x <= b + a
  {
  }

  /** The colors of one variant: those of its layout, when it has one. */
  function OneVariantColors(v: JVal): (r: set<string>)
  {
    var layout := if v.IsNullish() then Undefined else Member(v, "layout");
    if Truthy(layout) then ElementColors(layout) else {}
  }

  /** Walking one more variant adds that variant's colors. */
  lemma VariantColorsStep(variants: seq<JVal>, i: nat)
    requires i < |variants|
    ensures VariantColors(variants[..i + 1]) == VariantColors(variants[..i]) + OneVariantColors(variants[i])
  {
    assert variants[..i + 1][..i] == variants[..i];
  }

  /** collectUsedColorsFromLayout as a set. */
  function LayoutColors(layout: JVal): (r: set<string>)
    requires !layout.IsNullish()
  {
    BackgroundColor(layout) + RootColors(Member(layout, "layout")) + VariantListColors(Member(layout, "variants"))
  }

  /** The colours of the root element, visited only when it is truthy. */
  function RootColors(root: JVal): (r: set<string>)
    ensures !Truthy(root) ==> r == {}
  {
    if Truthy(root) then ElementColors(root) else {}
  }

  /** The colours of the variants, visited only when they form an array. */
  function VariantListColors(variants: JVal): (r: set<string>)
    ensures !variants.Arr? ==> r == {}
  {
    if variants.Arr? then VariantColors(variants.items) else {}
  }

  /** The colour variables a generated component declares. */
  class UsedColors {
    var names: set<string>

    constructor ()
      ensures names == {}
    {
      names := {};
    }

    /** buildAttribute, recording the colour variable a theme token needs. */
    method BuildAttribute(prop: string, value: JVal, prefix: string) returns (r: Option<string>)
      modifies this
      ensures r == Attribute(prop, value, prefix)
      ensures names == old(names) + AttributeColors(prop, value)
    {
      r := Attribute(prop, value, prefix);
      if (prop == "color" || prop == "backgroundColor") && value.Str?
         && !HasTemplateBinding(Some(value.s)) && !IsHexColor(value.s)
         && !IsRootedPath(value.s) && IsSimpleToken(value.s)
      {
        names := names + {ColorTokenToVar(value.s)};
      }
    }

    /** collectUsedColorsFromElement. */
    method CollectFromElement(element: JVal)
      modifies this
      ensures names == old(names) + ElementColors(element)
      decreases element, 1
    {
      if element.Obj? {
        names := names + KeyColor(element, "color");
        names := names + KeyColor(element, "backgroundColor");
        CollectChildren(element);
        CollectNested(element);
      }
    }

    /** The loop over element.children. */
    method CollectChildren(element: JVal)
      requires element.Obj?
      modifies this
      ensures names == old(names) + ListColors(element)
      decreases element, 0
    {
      var children := Part(element, "children");
      if children.Arr? {
        var items := children.items;
        var i := 0;
        while i < |items|
          invariant 0 <= i <= |items|
          invariant names == old(names) + ChildrenColors(children, items[..i])
        {
          assert items[i] in items;
          assert items[..i + 1][..i] == items[..i];
          CollectFromElement(items[i]);
          i := i + 1;
        }
        assert items[..i] == items;
      }
    }

    /** The forEach item template and the branches of a conditional. */
    method CollectNested(element: JVal)
      requires element.Obj?
      modifies this
      ensures names == old(names) + NestedColors(element)
      decreases element, 0
    {
      var kind := Member(element, "type");
      var template := Part(element, "itemTemplate");
      if kind == Str("forEach") && Truthy(template) {
        CollectFromElement(template);
      }
      if kind == Str("conditional") {
        var thenBranch := Part(element, "then");
        var elseBranch := Part(element, "else");
        if Truthy(thenBranch) {
          CollectFromElement(thenBranch);
        }
        if Truthy(elseBranch) {
          CollectFromElement(elseBranch);
        }
      }
    }

    /** collectUsedColorsFromLayout: the background, the root element and every variant's layout. */
    method CollectFromLayout(layout: JVal)
      requires !layout.IsNullish()
      modifies this
      ensures names == old(names) + LayoutColors(layout)
    {
      names := names + BackgroundColor(layout);
      CollectRoot(Member(layout, "layout"));
      CollectVariantList(Member(layout, "variants"));
    }

    /** The layout root, visited when it is truthy. */
    method CollectRoot(root: JVal)
      modifies this
      ensures names == old(names) + RootColors(root)
    {
      if Truthy(root) {
        CollectFromElement(root);
      }
    }

    /** The variants, visited when they form an array. */
    method CollectVariantList(variants: JVal)
      modifies this
      ensures names == old(names) + VariantListColors(variants)
    {
      if variants.Arr? {
        CollectVariants(variants.items);
      }
    }

    /** The loop over the variants. */
    method CollectVariants(variants: seq<JVal>)
      modifies this
      ensures names == old(names) + VariantColors(variants)
    {
      var i := 0;
      while i < |variants|
        invariant 0 <= i <= |variants|
        invariant names == old(names) + VariantColors(variants[..i])
      {
        var v := variants[i];
        VariantColorsStep(variants, i);
        var layout := if v.IsNullish() then Undefined else Member(v, "layout");
        if Truthy(layout) {
          CollectFromElement(layout);
        }
        i := i + 1;
      }
      assert variants[..i] == variants;
    }
  }
}
