/**
 * The compiler from Mapbox-style expressions to source text for the four
 * generator targets: Kotlin (Glance), Swift (SwiftUI), JavaScript
 * (NativeScript) and TypeScript (HTML preview).
 *
 * A `prop.startsWith` or `template.replace` on a value that is not a string
 * throws a TypeError in the original; the compiler therefore returns an
 * Outcome.
 */
module ExpressionCompiler {
  import opened Base
  import opened Strings
  import opened JsValues
  import opened SharedUtils
  import MapboxExpressions

  datatype Platform = Kotlin | Swift | JavaScript | TypeScript

  /** Where the compiled text is used: as a value, or as a condition. */
  datatype Context = Value | Condition

  /** The compilation options; `formatter` turns literal values into platform text. */
  datatype Options = Options(platform: Platform, context: Context,
                             formatter: Option<JVal -> string>, addDataPrefix: bool)

  function InValue(o: Options): (r: Options) { o.(context := Value) }

  function InCondition(o: Options): (r: Options) { o.(context := Condition, formatter := None) }

  function NullLiteral(p: Platform): (r: string)
  {
    if p == Swift then "nil" else "null"
  }

  // ---------------------------------------------------------------------
  // String escaping
  // ---------------------------------------------------------------------

  /** Kotlin and JavaScript: backslash, then quote, then newline are replaced throughout. */
  function EscapeKotlinJs(s: string): (r: string)
  {
    ReplaceChar(ReplaceChar(ReplaceChar(s, '\\', "\\\\"), '"', "\\\""), '\n', "\\n")
  }

  function EscapeKotlinJsChar(c: char): (r: string)
  {
    if c == '\\' then "\\\\" else if c == '"' then "\\\"" else if c == '\n' then "\\n" else [c]
  }

  /** One character escaped by the three replacements. */
  lemma EscapeKotlinJsOne(c: char)
    ensures EscapeKotlinJs([c]) == EscapeKotlinJsChar(c)
  {
    var s1 := ReplaceChar([c], '\\', "\\\\");
    ReplaceCharSingle(c, '\\', "\\\\");
    var s2 := ReplaceChar(s1, '"', "\\\"");
    var s3 := ReplaceChar(s2, '\n', "\\n");
    if c == '\\' {
      assert !ContainsChar(s1, '"') by { assert s1[0] == '\\' && s1[1] == '\\'; }
      ReplaceCharAbsent(s1, '"', "\\\"");
      assert !ContainsChar(s2, '\n') by { assert s2[0] == '\\' && s2[1] == '\\'; }
      ReplaceCharAbsent(s2, '\n', "\\n");
    } else if c == '"' {
      ReplaceCharSingle(c, '"', "\\\"");
      assert !ContainsChar(s2, '\n') by { assert s2[0] == '\\' && s2[1] == '"'; }
      ReplaceCharAbsent(s2, '\n', "\\n");
    } else {
      ReplaceCharSingle(c, '"', "\\\"");
      ReplaceCharSingle(c, '\n', "\\n");
    }
  }

  /** The three replacements act on each character independently. */
  lemma EscapeKotlinJsPerChar(s: string)
    ensures s != [] ==> EscapeKotlinJs(s) == EscapeKotlinJsChar(s[0]) + EscapeKotlinJs(s[1..])
  {
    if s != [] {
      var a, b := [s[0]], s[1..];
      assert s == a + b;
      ReplaceCharAppend(a, b, '\\', "\\\\");
      var a1, b1 := ReplaceChar(a, '\\', "\\\\"), ReplaceChar(b, '\\', "\\\\");
      ReplaceCharAppend(a1, b1, '"', "\\\"");
      var a2, b2 := ReplaceChar(a1, '"', "\\\""), ReplaceChar(b1, '"', "\\\"");
      ReplaceCharAppend(a2, b2, '\n', "\\n");
      EscapeKotlinJsOne(s[0]);
    }
  }

  /** Reads back a Kotlin or JavaScript string literal body. */
  function UnescapeKotlinJs(s: string): (r: string)
  {
    if |s| >= 2 && s[0] == '\\' && s[1] == '\\' then "\\" + UnescapeKotlinJs(s[2..])
    else if |s| >= 2 && s[0] == '\\' && s[1] == '"' then "\"" + UnescapeKotlinJs(s[2..])
    else if |s| >= 2 && s[0] == '\\' && s[1] == 'n' then "\n" + UnescapeKotlinJs(s[2..])
    else if s == [] then []
    else [s[0]] + UnescapeKotlinJs(s[1..])
  }

  /** The escaped literal reads back as the original text. */
  lemma {:induction false} UnescapeEscapeKotlinJs(s: string)
    ensures UnescapeKotlinJs(EscapeKotlinJs(s)) == s
  {
    if s != [] {
      EscapeKotlinJsPerChar(s);
      UnescapeEscapeKotlinJs(s[1..]);
      var t := EscapeKotlinJsChar(s[0]);
      var rest := EscapeKotlinJs(s[1..]);
      if |t| == 2 {
        assert (t + rest)[2..] == rest;
      } else {
        assert (t + rest)[1..] == rest;
      }
      assert s == [s[0]] + s[1..];
    }
  }

  /** The placeholder the Swift escaper parks "\(" in. */
  const SwiftPlaceholder: string := "__SWIFT_INTERP__"

  /** Swift, as written: park "\(", escape backslashes and quotes, restore the placeholder. */
  function EscapeSwift(s: string): (r: string)
  {
    var parked := ReplaceAll(s, "\\(", SwiftPlaceholder);
    ReplaceAll(EscapeQuoting(parked), SwiftPlaceholder, "\\(")
  }

  /** The middle pass: backslashes doubled, then quotes escaped. */
  function EscapeQuoting(t: string): (r: string)
  {
    ReplaceChar(ReplaceChar(t, '\\', "\\\\"), '"', "\\\"")
  }

  /** Swift: "\(" interpolation markers kept, other backslashes and quotes escaped. */
  function EscapeSwiftCorrected(s: string): (r: string)
  {
    if s == [] then []
    else if |s| >= 2 && s[0] == '\\' && s[1] == '(' then "\\(" + EscapeSwiftCorrected(s[2..])
    else if s[0] == '\\' then "\\\\" + EscapeSwiftCorrected(s[1..])
    else if s[0] == '"' then "\\\"" + EscapeSwiftCorrected(s[1..])
    else [s[0]] + EscapeSwiftCorrected(s[1..])
  }

  /** Reads back a Swift string literal body, leaving "\(" markers in place. */
  function UnescapeSwift(s: string): (r: string)
  {
    if |s| >= 2 && s[0] == '\\' && s[1] == '\\' then "\\" + UnescapeSwift(s[2..])
    else if |s| >= 2 && s[0] == '\\' && s[1] == '"' then "\"" + UnescapeSwift(s[2..])
    else if |s| >= 2 && s[0] == '\\' && s[1] == '(' then "\\(" + UnescapeSwift(s[2..])
    else if s == [] then []
    else [s[0]] + UnescapeSwift(s[1..])
  }

  lemma {:induction false} UnescapeEscapeSwiftCorrected(s: string)
    ensures UnescapeSwift(EscapeSwiftCorrected(s)) == s
  {
    if s == [] {
    } else if |s| >= 2 && s[0] == '\\' && s[1] == '(' {
      UnescapeEscapeSwiftCorrected(s[2..]);
      assert ("\\(" + EscapeSwiftCorrected(s[2..]))[2..] == EscapeSwiftCorrected(s[2..]);
      assert s == "\\(" + s[2..];
    } else {
      UnescapeEscapeSwiftCorrected(s[1..]);
      var rest := EscapeSwiftCorrected(s[1..]);
      if s[0] == '\\' {
        assert ("\\\\" + rest)[2..] == rest;
      } else if s[0] == '"' {
        assert ("\\\"" + rest)[2..] == rest;
      } else {
        assert ([s[0]] + rest)[1..] == rest;
      }
      assert s == [s[0]] + s[1..];
    }
  }

  /**
   * Text that happens to be the placeholder comes out as an interpolation
   * marker, and so reads back differently; the corrected escaper keeps it.
   */
  lemma EscapeSwiftPlaceholderClash(p: string)
    requires p == SwiftPlaceholder
    ensures EscapeSwift(p) == "\\("
    ensures EscapeSwiftCorrected(p) == p
    ensures UnescapeSwift(EscapeSwift(p)) != p
  {
    AsWrittenOnPlaceholder(p);
    PlaceholderKept(p);
    MarkerReadsBack();
    assert |p| != 2;
  }

  lemma PlaceholderKept(p: string)
    requires p == SwiftPlaceholder
    ensures EscapeSwiftCorrected(p) == p
  {
    PlaceholderPlain(p);
    EscapeSwiftCorrectedPlain(p);
  }

  lemma MarkerReadsBack()
    ensures UnescapeSwift("\\(") == "\\("
  {
    assert UnescapeSwift("\\(") == "\\(" + UnescapeSwift([]);
  }

  lemma AsWrittenOnPlaceholder(p: string)
    requires p == SwiftPlaceholder
    ensures EscapeSwift(p) == "\\("
  {
    PlaceholderPlain(p);
    ReplaceAllAbsent(p, "\\(", p);
    var parked := ReplaceAll(p, "\\(", p);
    assert parked == p;
    QuotingPlaceholder(p);
    ReplaceAllWhole(p, "\\(");
  }

  lemma PlaceholderPlain(p: string)
    requires p == SwiftPlaceholder
    ensures !ContainsChar(p, '\\') && !ContainsChar(p, '"')
  {
    forall i | 0 <= i < |p| ensures p[i] != '\\' && p[i] != '"' {
      assert p[i] in {'_', 'S', 'W', 'I', 'F', 'T', 'N', 'E', 'R', 'P'};
    }
  }

  lemma ReplaceAllWhole(p: string, rep: string)
    requires p != []
    ensures ReplaceAll(p, p, rep) == rep
  {
    assert p[|p|..] == [];
    assert ReplaceAll(p, p, rep) == rep + ReplaceAll([], p, rep);
  }

  /** Text without backslashes and quotes is its own Swift escape. */
  lemma {:induction false} EscapeSwiftCorrectedPlain(s: string)
    requires !ContainsChar(s, '\\') && !ContainsChar(s, '"')
    ensures EscapeSwiftCorrected(s) == s
  {
    if s != [] {
      assert s[0] != '\\' && s[0] != '"';
      EscapeSwiftCorrectedPlain(s[1..]);
      assert s == [s[0]] + s[1..];
    }
  }

  /** The placeholder has nothing the middle pass escapes. */
  lemma QuotingPlaceholder(p: string)
    requires p == SwiftPlaceholder
    ensures EscapeQuoting(p) == p
  {
    PlaceholderPlain(p);
    ReplaceCharAbsent(p, '\\', "\\\\");
    ReplaceCharAbsent(p, '"', "\\\"");
  }

  lemma QuotingAppend(a: string, b: string)
    ensures EscapeQuoting(a + b) == EscapeQuoting(a) + EscapeQuoting(b)
  {
    ReplaceCharAppend(a, b, '\\', "\\\\");
    ReplaceCharAppend(ReplaceChar(a, '\\', "\\\\"), ReplaceChar(b, '\\', "\\\\"), '"', "\\\"");
  }

  /** The middle pass on one character, which never yields an underscore from another character. */
  lemma QuotingChar(c: char)
    ensures EscapeQuoting([c]) == if c == '\\' then "\\\\" else if c == '"' then "\\\"" else [c]
    ensures c != '_' ==> !ContainsChar(EscapeQuoting([c]), '_')
  {
    ReplaceCharSingle(c, '\\', "\\\\");
    if c == '\\' {
      ReplaceCharAbsent("\\\\", '"', "\\\"");
    } else {
      ReplaceCharSingle(c, '"', "\\\"");
    }
  }

  /** A parked marker passes through the last two passes as "\(". */
  lemma RestoreParked(u: string)
    ensures ReplaceAll(EscapeQuoting(SwiftPlaceholder + u), SwiftPlaceholder, "\\(")
      == "\\(" + ReplaceAll(EscapeQuoting(u), SwiftPlaceholder, "\\(")
  {
    var p := SwiftPlaceholder;
    QuotingAppend(p, u);
    QuotingPlaceholder(p);
    var e := EscapeQuoting(u);
    assert p <= p + e;
    assert (p + e)[|p|..] == e;
  }

  /** Any other character passes through the last two passes as its own escape. */
  lemma RestoreChar(c: char, u: string)
    requires c != '_'
    ensures ReplaceAll(EscapeQuoting([c] + u), SwiftPlaceholder, "\\(")
      == EscapeQuoting([c]) + ReplaceAll(EscapeQuoting(u), SwiftPlaceholder, "\\(")
  {
    QuotingAppend([c], u);
    QuotingChar(c);
    assert SwiftPlaceholder[0] == '_';
    ReplaceAllPlainPrefix(EscapeQuoting([c]), EscapeQuoting(u), SwiftPlaceholder, "\\(");
  }

  /**
   * On text without an underscore no placeholder can appear except where
   * a marker was parked, so the escape as written is the corrected one.
   */
  lemma {:induction false} EscapeSwiftAgrees(s: string)
    requires !ContainsChar(s, '_')
    ensures EscapeSwift(s) == EscapeSwiftCorrected(s)
  {
    var marker := "\\(";
    if s == [] {
    } else if marker <= s {
      assert s[0] == '\\' && s[1] == '(';
      var rest := s[2..];
      assert ReplaceAll(s, marker, SwiftPlaceholder) == SwiftPlaceholder + ReplaceAll(rest, marker, SwiftPlaceholder);
      RestoreParked(ReplaceAll(rest, marker, SwiftPlaceholder));
      EscapeSwiftAgrees(rest);
    } else {
      var rest := s[1..];
      assert !(|s| >= 2 && s[0] == '\\' && s[1] == '(');
      assert ReplaceAll(s, marker, SwiftPlaceholder) == [s[0]] + ReplaceAll(rest, marker, SwiftPlaceholder);
      RestoreChar(s[0], ReplaceAll(rest, marker, SwiftPlaceholder));
      QuotingChar(s[0]);
      EscapeSwiftAgrees(rest);
    }
  }

  /** The escape as written reads back on text without an underscore. */
  lemma EscapeSwiftReadsBack(s: string)
    requires !ContainsChar(s, '_')
    ensures UnescapeSwift(EscapeSwift(s)) == s
  {
    EscapeSwiftAgrees(s);
    UnescapeEscapeSwiftCorrected(s);
  }

  /** Text without backslashes, quotes and underscores is its own Swift escape. */
  lemma EscapeSwiftPlain(s: string)
    requires !ContainsChar(s, '\\') && !ContainsChar(s, '"') && !ContainsChar(s, '_')
    ensures EscapeSwift(s) == s
  {
    EscapeSwiftAgrees(s);
    EscapeSwiftCorrectedPlain(s);
  }

  /** escapeString: the per-platform escaping of a string literal's body. */
  function EscapeString(s: string, p: Platform): (r: string)
  {
    if p == Swift then EscapeSwift(s) else EscapeKotlinJs(s)
  }

  /** The escaped body of a quoted literal reads back as the original text on every platform. */
  lemma EscapeStringReadsBack(s: string, p: Platform)
    ensures p == Swift && !ContainsChar(s, '_') ==> UnescapeSwift(EscapeString(s, p)) == s
    ensures p != Swift ==> UnescapeKotlinJs(EscapeString(s, p)) == s
  {
    if p == Swift {
      if !ContainsChar(s, '_') { EscapeSwiftReadsBack(s); }
    } else {
      UnescapeEscapeKotlinJs(s);
    }
  }

  // ---------------------------------------------------------------------
  // Property access
  // ---------------------------------------------------------------------

  /** compileGet: size.w per platform, item./data./config. kept, otherwise "data." when asked. */
  function CompileGet(prop: string, p: Platform, addDataPrefix: bool): (r: string)
    ensures !("size." <= prop) && (IsItemPath(prop) || "data." <= prop || "config." <= prop) ==> r == prop
    ensures !("size." <= prop) && !IsItemPath(prop) && !("data." <= prop) && !("config." <= prop) ==>
      r == (if addDataPrefix then "data." + prop else prop)
  {
    if "size." <= prop then
      var parts := Split(prop, ".");
      if |parts| == 2 && p == Kotlin then "size." + parts[1] + ".value"
      else if |parts| == 2 && p == Swift then parts[1]
      else prop
    else if IsItemPath(prop) then prop
    else if "data." <= prop || "config." <= prop then prop
    else if addDataPrefix then "data." + prop
    else prop
  }

  /** size.w becomes size.w.value in Kotlin and the bare w in Swift; JavaScript keeps it. */
  lemma CompileGetSize(w: string, addDataPrefix: bool)
    requires !ContainsChar(w, '.')
    ensures CompileGet("size." + w, Kotlin, addDataPrefix) == "size." + w + ".value"
    ensures CompileGet("size." + w, Swift, addDataPrefix) == w
    ensures CompileGet("size." + w, JavaScript, addDataPrefix) == "size." + w
  {
    var prop := "size." + w;
    assert prop == "size" + ['.'] + w;
    MapboxExpressions.SplitAfterFirst("size", w, '.');
    SplitWithoutSeparator(w);
    assert Split(prop, ".") == ["size", w];
  }

  lemma {:induction false} SplitWithoutSeparator(w: string)
    requires !ContainsChar(w, '.')
    ensures Split(w, ".") == [w]
  {
    if w != [] {
      assert !("." <= w) by { assert w[0] != '.'; }
      SplitWithoutSeparator(w[1..]);
      assert w == [w[0]] + w[1..];
    }
  }

  /** compileHas: a per-platform non-emptiness test on the compiled path. */
  function CompileHas(prop: string, p: Platform, addDataPrefix: bool): (r: string)
    ensures var path := CompileGet(prop, p, addDataPrefix);
      (p == Kotlin ==> r == path + ".isNotEmpty()")
      && (p == Swift ==> r == "!" + path + ".isEmpty")
      && (p == JavaScript || p == TypeScript ==>
            r == path + " !== undefined && " + path + " !== null && " + path + " !== ''")
  {
    var path := CompileGet(prop, p, addDataPrefix);
    match p
    case Kotlin => path + ".isNotEmpty()"
    case Swift => "!" + path + ".isEmpty"
    case _ => path + " !== undefined && " + path + " !== null && " + path + " !== ''"
  }

  // ---------------------------------------------------------------------
  // Case
  // ---------------------------------------------------------------------

  /** Swift and JavaScript: nested ternaries, the first pair outermost, ending in the fallback. */
  function TernaryCase(pairs: seq<(string, string)>, fallback: string): (r: string)
    ensures |fallback| <= |r| && r[|r| - |fallback|..] == fallback
    ensures pairs != [] ==> pairs[0].0 + " ? " <= r
  {
    if pairs == [] then fallback
    else
      var rest := TernaryCase(pairs[1..], fallback);
      var r := pairs[0].0 + " ? " + pairs[0].1 + " : " + rest;
      assert r[|r| - |rest|..] == rest;
      assert r[|r| - |fallback|..] == rest[|rest| - |fallback|..];
      r
  }

  /** The loop of compileSwiftCase/compileJavaScriptCase: wraps the result from the last pair back to the first. */
  method BuildTernary(pairs: seq<(string, string)>, fallback: string) returns (result: string)
    ensures result == TernaryCase(pairs, fallback)
  {
    result := fallback;
    var i := |pairs|;
    while i > 0
      invariant 0 <= i <= |pairs|
      invariant result == TernaryCase(pairs[i..], fallback)
    {
      i := i - 1;
      assert pairs[i..][1..] == pairs[i + 1..];
      result := pairs[i].0 + " ? " + pairs[i].1 + " : " + result;
    }
    assert pairs[0..] == pairs;
  }

  function WhenArms(pairs: seq<(string, string)>): (r: seq<string>)
    ensures |r| == |pairs|
    ensures forall k :: 0 <= k < |r| ==> r[k] == pairs[k].0 + " -> " + pairs[k].1
  {
    if pairs == [] then [] else [pairs[0].0 + " -> " + pairs[0].1] + WhenArms(pairs[1..])
  }

  /** compileKotlinCase: the fallback alone, or a `when` block of all pairs then `else`. */
  function KotlinCase(pairs: seq<(string, string)>, fallback: string): (r: string)
    ensures pairs != [] ==> "when { " <= r
  {
    if pairs == [] then fallback
    else "when { " + Join(WhenArms(pairs), "; ") + "; else -> " + fallback + " }"
  }

  function CaseFor(p: Platform, pairs: seq<(string, string)>, fallback: string): (r: string)
    ensures pairs == [] ==> r == fallback
  {
    if p == Kotlin then KotlinCase(pairs, fallback) else TernaryCase(pairs, fallback)
  }

  /** The fallback used when the argument count is even: formatter('') or "". */
  function DefaultFallback(o: Options): (r: string)
  {
    if o.formatter.Some? then o.formatter.value(Str("")) else "\"\""
  }

  // ---------------------------------------------------------------------
  // Interpolation
  // ---------------------------------------------------------------------

  function KotlinSlot(prop: string): (r: string) { "${data." + prop + "}" }

  function SwiftSlot(prop: string): (r: string) { "\\(data." + prop + ")" }

  /** compileInterpolate as written: the JavaScript template ends in " `". */
  function Interpolate(template: string, p: Platform): (r: string)
  {
    match p
    case Kotlin => "\"" + ReplaceBindings(template, KotlinSlot) + "\""
    case Swift => "\"" + ReplaceBindings(template, SwiftSlot) + "\""
    case _ => "`" + ReplaceBindings(template, KotlinSlot) + " `"
  }

  /** compileInterpolate with the template closed directly after its text. */
  function InterpolateCorrected(template: string, p: Platform): (r: string)
  {
    match p
    case Kotlin => "\"" + ReplaceBindings(template, KotlinSlot) + "\""
    case Swift => "\"" + ReplaceBindings(template, SwiftSlot) + "\""
    case _ => "`" + ReplaceBindings(template, KotlinSlot) + "`"
  }

  /** Text without bindings is quoted unchanged; the JavaScript template keeps its extra space. */
  lemma InterpolatePlainText(t: string, p: Platform)
    requires !HasTemplateBinding(Some(t))
    ensures Interpolate(t, p) == (if p == Kotlin || p == Swift then "\"" + t + "\"" else "`" + t + " `")
  {
    if t != "" {
      ReplaceWithoutBinding(t, 0, KotlinSlot);
      ReplaceWithoutBinding(t, 0, SwiftSlot);
    }
  }

  /** A lone binding becomes the platform's interpolation of data.<name>. */
  lemma InterpolateOneBinding(x: string)
    requires x != [] && forall k :: 0 <= k < |x| ==> x[k] != '}'
    ensures Interpolate("{{" + x + "}}", Kotlin) == "\"${data." + x + "}\""
    ensures Interpolate("{{" + x + "}}", Swift) == "\"\\(data." + x + ")\""
    ensures Interpolate("{{" + x + "}}", JavaScript) == "`${data." + x + "} `"
  {
    var t := "{{" + x + "}}";
    OneBindingReplaced(x, KotlinSlot);
    OneBindingReplaced(x, SwiftSlot);
    assert Interpolate(t, Kotlin) == "\"" + KotlinSlot(x) + "\"";
    assert Interpolate(t, Swift) == "\"" + SwiftSlot(x) + "\"";
    assert Interpolate(t, JavaScript) == "`" + KotlinSlot(x) + " `";
    SlotText(x);
  }

  lemma SlotText(x: string)
    ensures "\"" + KotlinSlot(x) + "\"" == "\"${data." + x + "}\""
    ensures "\"" + SwiftSlot(x) + "\"" == "\"\\(data." + x + ")\""
    ensures "`" + KotlinSlot(x) + " `" == "`${data." + x + "} `"
  {
  }

  /** The binding replacement of a lone binding is the replacement of its name. */
  lemma OneBindingReplaced(x: string, f: string -> string)
    requires x != [] && forall k :: 0 <= k < |x| ==> x[k] != '}'
    ensures ReplaceBindings("{{" + x + "}}", f) == f(x)
  {
    var t := "{{" + x + "}}";
    assert BindingSpan(t, 0, |t| - 2);
    MatchAtComplete(t, 0, |t| - 2);
    assert t[2..|t| - 2] == x;
    assert ReplaceFrom(t, |t|, f) == [];
  }

  /** Corrected, text without bindings is quoted or back-quoted exactly as it is on every platform. */
  lemma InterpolateCorrectedPlainText(t: string, p: Platform)
    requires !HasTemplateBinding(Some(t))
    ensures InterpolateCorrected(t, p) == (if p == Kotlin || p == Swift then "\"" + t + "\"" else "`" + t + "`")
    ensures p == Kotlin || p == Swift ==> InterpolateCorrected(t, p) == Interpolate(t, p)
  {
    if t != "" {
      ReplaceWithoutBinding(t, 0, KotlinSlot);
      ReplaceWithoutBinding(t, 0, SwiftSlot);
    }
  }

  /** The JavaScript output as written carries one extra space inside the template literal. */
  lemma InterpolateTrailingSpace(t: string)
    ensures Interpolate(t, JavaScript) == "`" + ReplaceBindings(t, KotlinSlot) + " `"
    ensures Interpolate("", JavaScript) == "` `" && InterpolateCorrected("", JavaScript) == "``"
  {
  }

  // ---------------------------------------------------------------------
  // compileExpression
  // ---------------------------------------------------------------------

  /** A literal that is not null, undefined or an expression. */
  function CompileLiteral(v: JVal, o: Options): (r: string)
    requires !v.IsNullish() && !MapboxExpressions.IsExpression(v)
    ensures o.formatter.None? && v.Str? && o.context == Value ==> r == "\"" + EscapeString(v.s, o.platform) + "\""
    ensures v.Str? && o.context == Condition ==> r == v.s
  {
    if o.formatter.Some? && o.context == Value then o.formatter.value(v)
    else if v.Str? && o.context == Value then "\"" + EscapeString(v.s, o.platform) + "\""
    else ToString(v)
  }

  function Compile(expr: JVal, o: Options): (r: Outcome<string>)
    ensures expr.IsNullish() ==> r == Ok(NullLiteral(o.platform))
    ensures !expr.IsNullish() && !MapboxExpressions.IsExpression(expr) ==> r == Ok(CompileLiteral(expr, o))
    decreases expr, 1
  {
    if expr.IsNullish() then Ok(NullLiteral(o.platform))
    else if !MapboxExpressions.IsExpression(expr) then Ok(CompileLiteral(expr, o))
    else
      var op := MapboxExpressions.Op(expr);
      if op == "get" || op == "has" then CompileLookup(expr, op == "get", o)
      else if op in {"+", "-", "*", "/", "<", "<=", ">", ">=", "==", "!="} then CompileBinary(expr, op, o)
      else if op == "!" then CompileNot(expr, o)
      else if op == "all" || op == "any" || op == "concat" then CompileJoined(expr, op, o)
      else if op == "case" then CompileCase(expr, o)
      else if op == "upcase" || op == "downcase" then CompileCaseChange(expr, op == "upcase", o)
      else if op == "substring" then CompileSubstring(expr, o)
      else if op == "format" then CompileFormat(expr, o)
      else if op == "interpolate" then CompileInterpolate(expr, o)
      else Ok("/* unknown op: " + op + " */")
  }

  /** `get` and `has`: the property name must be a string, else the property access throws. */
  function CompileLookup(expr: JVal, get: bool, o: Options): (r: Outcome<string>)
    requires MapboxExpressions.IsExpression(expr)
    ensures r.Thrown? <==> !MapboxExpressions.Arg(expr, 0).Str?
  {
    match MapboxExpressions.Arg(expr, 0)
    case Str(prop) =>
      Ok(if get then CompileGet(prop, o.platform, o.addDataPrefix) else CompileHas(prop, o.platform, o.addDataPrefix))
    case _ => Thrown("TypeError")
  }

  /** Arithmetic (operands as values, parenthesised) and comparisons (operands as conditions). */
  function CompileBinary(expr: JVal, op: string, o: Options): (r: Outcome<string>)
    requires MapboxExpressions.IsExpression(expr)
    decreases expr, 0, 1
  {
    var arithmetic := op in {"+", "-", "*", "/"};
    var inner := if arithmetic then InValue(o) else InCondition(o);
    match CompileArg(expr, 0, inner)
    case Thrown(t) => Thrown(t)
    case Ok(left) =>
      match CompileArg(expr, 1, inner)
      case Thrown(t) => Thrown(t)
      case Ok(right) =>
        Ok(if arithmetic then "(" + left + " " + op + " " + right + ")" else left + " " + op + " " + right)
  }

  function CompileNot(expr: JVal, o: Options): (r: Outcome<string>)
    requires MapboxExpressions.IsExpression(expr)
    ensures r.Ok? <==> CompileArg(expr, 0, InCondition(o)).Ok?
    ensures r.Ok? ==> "!(" <= r.value && r.value[|r.value| - 1] == ')'
    decreases expr, 0, 1
  {
    match CompileArg(expr, 0, InCondition(o))
    case Thrown(t) => Thrown(t)
    case Ok(c) => Ok("!(" + c + ")")
  }

  /** `all` and `any` join conditions with && and ||; `concat` joins values with +. */
  function CompileJoined(expr: JVal, op: string, o: Options): (r: Outcome<string>)
    requires MapboxExpressions.IsExpression(expr)
    decreases expr, 0, |expr.items| + 1
  {
    var inner := if op == "concat" then InValue(o) else InCondition(o);
    match CompileArgs(expr, 0, inner)
    case Thrown(t) => Thrown(t)
    case Ok(parts) =>
      Ok(if op == "all" then "(" + Join(parts, " && ") + ")"
         else if op == "any" then "(" + Join(parts, " || ") + ")"
         else Join(parts, " + "))
  }

  function CompileCaseChange(expr: JVal, upper: bool, o: Options): (r: Outcome<string>)
    requires MapboxExpressions.IsExpression(expr)
    ensures r.Ok? <==> CompileArg(expr, 0, InValue(o)).Ok?
    decreases expr, 0, 1
  {
    match CompileArg(expr, 0, InValue(o))
    case Thrown(t) => Thrown(t)
    case Ok(s) => Ok(s + CaseMethod(upper, o.platform))
  }

  function CompileFormat(expr: JVal, o: Options): (r: Outcome<string>)
    requires MapboxExpressions.IsExpression(expr)
    decreases expr, 0, 1
  {
    match CompileArg(expr, 0, InValue(o))
    case Thrown(t) => Thrown(t)
    case Ok(v) => Ok(FormatCall(v, ToString(MapboxExpressions.Arg(expr, 1)), o.platform))
  }

  /** `interpolate` takes a template string; anything else makes the string method throw. */
  function CompileInterpolate(expr: JVal, o: Options): (r: Outcome<string>)
    requires MapboxExpressions.IsExpression(expr)
    ensures r.Thrown? <==> !MapboxExpressions.Arg(expr, 0).Str?
  {
    match MapboxExpressions.Arg(expr, 0)
    case Str(template) => Ok(Interpolate(template, o.platform))
    case _ => Thrown("TypeError")
  }

  /** compileExpression(args[i], options); a missing argument compiles as undefined. */
  function CompileArg(e: JVal, i: nat, o: Options): (r: Outcome<string>)
    requires MapboxExpressions.IsExpression(e)
    decreases e, 0, 0
  {
    if i + 1 < |e.items| then Compile(e.items[i + 1], o) else Ok(NullLiteral(o.platform))
  }

  /** args[i..].map(a => compileExpression(a, options)). */
  function CompileArgs(e: JVal, i: nat, o: Options): (r: Outcome<seq<string>>)
    requires MapboxExpressions.IsExpression(e)
    ensures r.Ok? ==> |r.value| == if i + 1 < |e.items| then |e.items| - 1 - i else 0
    decreases e, 0, |e.items| - i
  {
    if i + 1 >= |e.items| then Ok([])
    else
      match Compile(e.items[i + 1], o)
      case Thrown(t) => Thrown(t)
      case Ok(s) =>
        match CompileArgs(e, i + 1, o)
        case Thrown(t) => Thrown(t)
        case Ok(rest) => Ok([s] + rest)
  }

  /** The condition/value pairs of compileCase from args[i] on: one pair per step of two while i < len - 1. */
  function CasePairs(e: JVal, i: nat, o: Options): (r: Outcome<seq<(string, string)>>)
    requires MapboxExpressions.IsExpression(e)
    ensures r.Ok? ==> |r.value| == if i < MapboxExpressions.ArgCount(e) then (MapboxExpressions.ArgCount(e) - i) / 2 else 0
    decreases e, 0, |e.items| - i
  {
    var n := MapboxExpressions.ArgCount(e);
    if i + 1 < n then
      match Compile(e.items[i + 1], InCondition(o))
      case Thrown(t) => Thrown(t)
      case Ok(c) =>
        match Compile(e.items[i + 2], o)
        case Thrown(t) => Thrown(t)
        case Ok(v) =>
          match CasePairs(e, i + 2, o)
          case Thrown(t) => Thrown(t)
          case Ok(rest) => Ok([(c, v)] + rest)
    else Ok([])
  }

  /** compileCase: pairs, then the last argument as fallback when the count is odd, else the default. */
  function CompileCase(e: JVal, o: Options): (r: Outcome<string>)
    requires MapboxExpressions.IsExpression(e)
    decreases e, 0, |e.items| + 1
  {
    var n := MapboxExpressions.ArgCount(e);
    match CasePairs(e, 0, o)
    case Thrown(t) => Thrown(t)
    case Ok(pairs) =>
      match (if n % 2 == 1 then Compile(e.items[n], o) else Ok(DefaultFallback(o)))
      case Thrown(t) => Thrown(t)
      case Ok(fallback) => Ok(CaseFor(o.platform, pairs, fallback))
  }

  function CaseMethod(upper: bool, p: Platform): (r: string)
  {
    match p
    case Kotlin => if upper then ".uppercase()" else ".lowercase()"
    case Swift => if upper then ".uppercased()" else ".lowercased()"
    case _ => if upper then ".toUpperCase()" else ".toLowerCase()"
  }

  function FormatCall(value: string, pattern: string, p: Platform): (r: string)
  {
    match p
    case Kotlin => "SimpleDateFormat(\"" + pattern + "\").format(" + value + ")"
    case Swift => "DateFormatter.format(" + value + ", pattern: \"" + pattern + "\")"
    case _ => "formatDate(" + value + ", \"" + pattern + "\")"
  }

  function CompileSubstring(e: JVal, o: Options): (r: Outcome<string>)
    requires MapboxExpressions.IsExpression(e)
    decreases e, 0, 1
  {
    match CompileArg(e, 0, InValue(o))
    case Thrown(t) => Thrown(t)
    case Ok(str) =>
      match CompileArg(e, 1, InValue(o))
      case Thrown(t) => Thrown(t)
      case Ok(start) =>
        if MapboxExpressions.ArgCount(e) > 2 then
          match CompileArg(e, 2, InValue(o))
          case Thrown(t) => Thrown(t)
          case Ok(length) =>
            Ok(if o.platform == Swift
               then "String(" + str + ".prefix(" + start + " + " + length + ").suffix(" + length + "))"
               else str + ".substring(" + start + ", " + start + " + " + length + ")")
        else
          Ok(if o.platform == Swift then "String(" + str + ".suffix(from: " + start + "))"
             else str + ".substring(" + start + ")")
  }

  /** compilePropertyValue: defaultValue || '' for undefined, the formatter on literals, else compileExpression. */
  function CompilePropertyValue(value: JVal, o: Options, defaultValue: Option<string>): (r: Outcome<string>)
    ensures value.Undefined? ==>
      r == Ok(if defaultValue.Some? && defaultValue.value != "" then defaultValue.value else "")
    ensures !value.Undefined? && !MapboxExpressions.IsExpression(value) && o.formatter.Some? ==>
      r == Ok(o.formatter.value(value))
    ensures MapboxExpressions.IsExpression(value) ==> r == Compile(value, o)
  {
    if value.Undefined? then Ok(if defaultValue.Some? && defaultValue.value != "" then defaultValue.value else "")
    else if !MapboxExpressions.IsExpression(value) && o.formatter.Some? then Ok(o.formatter.value(value))
    else Compile(value, o)
  }

  // ---------------------------------------------------------------------
  // Properties of compileExpression
  // ---------------------------------------------------------------------

  function Expr(op: string, args: seq<JVal>): (r: JVal) { Arr([Str(op)] + args) }

  /** A string literal is quoted and escaped in value context, emitted raw in a condition. */
  lemma StringLiteral(s: string, o: Options)
    ensures o.context == Condition ==> Compile(Str(s), o) == Ok(s)
    ensures o.context == Value && o.formatter.None? ==>
      Compile(Str(s), o).Ok? && var body := Compile(Str(s), o).value[1..|Compile(Str(s), o).value| - 1];
      (o.platform == Swift && !ContainsChar(s, '_') ==> UnescapeSwift(body) == s)
      && (o.platform != Swift ==> UnescapeKotlinJs(body) == s)
  {
    if o.context == Value && o.formatter.None? {
      var e := EscapeString(s, o.platform);
      var lit := "\"" + e + "\"";
      assert lit[1..|lit| - 1] == e;
      EscapeStringReadsBack(s, o.platform);
    }
  }

  /** Arithmetic is parenthesised; its operands are compiled as values. */
  lemma ArithmeticParenthesised(op: string, a: JVal, b: JVal, o: Options)
    requires op in {"+", "-", "*", "/"}
    requires Compile(a, InValue(o)).Ok? && Compile(b, InValue(o)).Ok?
    ensures Compile(Expr(op, [a, b]), o)
      == Ok("(" + Compile(a, InValue(o)).value + " " + op + " " + Compile(b, InValue(o)).value + ")")
  {
    var e := Expr(op, [a, b]);
    BinaryDispatch(op, [a, b], o);
    assert e.items[1] == a && e.items[2] == b;
    assert CompileArg(e, 0, InValue(o)) == Compile(a, InValue(o));
    assert CompileArg(e, 1, InValue(o)) == Compile(b, InValue(o));
  }

  /** Arithmetic and comparison operators go to the binary compiler. */
  lemma BinaryDispatch(op: string, args: seq<JVal>, o: Options)
    requires op in {"+", "-", "*", "/", "<", "<=", ">", ">=", "==", "!="}
    ensures Compile(Expr(op, args), o) == CompileBinary(Expr(op, args), op, o)
  {
    assert MapboxExpressions.Op(Expr(op, args)) == op;
  }

  lemma CaseDispatch(args: seq<JVal>, o: Options)
    ensures Compile(Expr("case", args), o) == CompileCase(Expr("case", args), o)
  {
    assert MapboxExpressions.Op(Expr("case", args)) == "case";
  }

  lemma GetDispatch(args: seq<JVal>, o: Options)
    ensures Compile(Expr("get", args), o) == CompileLookup(Expr("get", args), true, o)
  {
    assert MapboxExpressions.Op(Expr("get", args)) == "get";
  }

  /** A `get` of a path with a recognised prefix compiles to the path itself. */
  lemma GetKeepsPrefixedPath(prop: string, o: Options)
    requires "data." <= prop || "config." <= prop || "item." <= prop
    ensures Compile(Expr("get", [Str(prop)]), o) == Ok(prop)
  {
    var e := Expr("get", [Str(prop)]);
    GetDispatch([Str(prop)], o);
    assert MapboxExpressions.Arg(e, 0) == Str(prop);
    PrefixedPathKept(prop, o.platform, o.addDataPrefix);
  }

  lemma PrefixedPathKept(prop: string, p: Platform, addDataPrefix: bool)
    requires "data." <= prop || "config." <= prop || "item." <= prop
    ensures CompileGet(prop, p, addDataPrefix) == prop
  {
    assert !("size." <= prop) by { assert prop[0] in {'d', 'c', 'i'}; }
    if "item." <= prop && !("data." <= prop) && !("config." <= prop) {
      TrimFixedPrefix(prop);
    }
  }

  lemma TrimFixedPrefix(prop: string)
    requires "item." <= prop
    ensures IsItemPath(prop)
  {
    assert !IsSpace(prop[0]) && !IsSpace(prop[4]);
    assert TrimStart(prop) == prop;
    var r := TrimEnd(prop);
    assert |r| >= 5;
    assert r[..5] == prop[..5];
  }

  /** `case` without pairs is its fallback: the single argument, or the default for no arguments. */
  lemma CaseWithoutPairs(x: JVal, o: Options)
    ensures Compile(Expr("case", [x]), o) == Compile(x, o)
    ensures Compile(Expr("case", []), o) == Ok(DefaultFallback(o))
  {
    var e1 := Expr("case", [x]);
    assert MapboxExpressions.ArgCount(e1) == 1;
    assert e1.items[1] == x;
    assert CasePairs(e1, 0, o) == Ok([]);
    assert Compile(e1, o) == CompileCase(e1, o);
    var e0 := Expr("case", []);
    assert MapboxExpressions.ArgCount(e0) == 0;
    assert CasePairs(e0, 0, o) == Ok([]);
    assert Compile(e0, o) == CompileCase(e0, o);
  }

  /** On Swift and JavaScript, `case` is the nested ternary with the first pair outermost. */
  lemma CaseIsTernary(c: JVal, v: JVal, fb: JVal, o: Options)
    requires o.platform != Kotlin
    requires Compile(c, InCondition(o)).Ok? && Compile(v, o).Ok? && Compile(fb, o).Ok?
    ensures Compile(Expr("case", [c, v, fb]), o)
      == Ok(Compile(c, InCondition(o)).value + " ? " + Compile(v, o).value + " : " + Compile(fb, o).value)
  {
    var e := Expr("case", [c, v, fb]);
    var pc, pv, pf := Compile(c, InCondition(o)).value, Compile(v, o).value, Compile(fb, o).value;
    calc {
      Compile(e, o);
      { CaseDispatch([c, v, fb], o); }
      CompileCase(e, o);
      { OnePair(c, v, fb, o);
        assert MapboxExpressions.ArgCount(e) == 3 && e.items[3] == fb;
        CaseOfPairs(e, o, [(pc, pv)], pf); }
      Ok(CaseFor(o.platform, [(pc, pv)], pf));
      Ok(TernaryCase([(pc, pv)], pf));
      { TernaryOnePair(pc, pv, pf); }
      Ok(pc + " ? " + pv + " : " + pf);
    }
  }

  lemma TernaryOnePair(c: string, v: string, fallback: string)
    ensures TernaryCase([(c, v)], fallback) == c + " ? " + v + " : " + fallback
  {
    assert [(c, v)][1..] == [];
  }

  /** compileCase with an odd argument count: the pairs, then the last argument as fallback. */
  lemma CaseOfPairs(e: JVal, o: Options, pairs: seq<(string, string)>, fallback: string)
    requires MapboxExpressions.IsExpression(e) && MapboxExpressions.ArgCount(e) % 2 == 1
    requires CasePairs(e, 0, o) == Ok(pairs) && Compile(e.items[MapboxExpressions.ArgCount(e)], o) == Ok(fallback)
    ensures CompileCase(e, o) == Ok(CaseFor(o.platform, pairs, fallback))
  {
  }

  /** The pairs of a three-argument `case`: its condition and value. */
  lemma OnePair(c: JVal, v: JVal, fb: JVal, o: Options)
    requires Compile(c, InCondition(o)).Ok? && Compile(v, o).Ok?
    ensures CasePairs(Expr("case", [c, v, fb]), 0, o) == Ok([(Compile(c, InCondition(o)).value, Compile(v, o).value)])
  {
    var e := Expr("case", [c, v, fb]);
    assert MapboxExpressions.ArgCount(e) == 3;
    assert e.items[1] == c && e.items[2] == v;
    assert CasePairs(e, 2, o) == Ok([]);
    var pc, pv := Compile(c, InCondition(o)).value, Compile(v, o).value;
    assert [(pc, pv)] + [] == [(pc, pv)];
  }

  /** An unknown operator compiles to a comment naming it. */
  lemma UnknownOperator(op: string, args: seq<JVal>, o: Options)
    requires op !in {"get", "has", "+", "-", "*", "/", "<", "<=", ">", ">=", "==", "!=", "!", "all", "any",
                     "case", "concat", "upcase", "downcase", "substring", "format", "interpolate"}
    ensures Compile(Expr(op, args), o) == Ok("/* unknown op: " + op + " */")
  {
    assert MapboxExpressions.Op(Expr(op, args)) == op;
  }
}
