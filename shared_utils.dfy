/**
 * Helpers shared by the widget-layout code generators: template bindings
 * written `{{path}}`, settings references, property paths, identifiers,
 * theme colours, font weights and indentation.
 */
module SharedUtils {
  import opened Base
  import opened Strings

  // ---------------------------------------------------------------------
  // The binding pattern /\{\{[^}]+\}\}/
  // ---------------------------------------------------------------------

  /** Index of the first '}' at or after `from`, or |s| when there is none. */
  function FirstClose(s: string, from: nat): (j: nat)
    requires from <= |s|
    ensures from <= j <= |s|
    ensures j < |s| ==> s[j] == '}'
    ensures forall k :: from <= k < j ==> s[k] != '}'
    decreases |s| - from
  {
    if from == |s| || s[from] == '}' then from else FirstClose(s, from + 1)
  }

  /** "{{" at i, then a non-empty run without '}', then "}}" at j. */
  predicate BindingSpan(s: string, i: nat, j: nat)
  {
    i + 2 < j && j + 2 <= |s| && s[i] == '{' && s[i + 1] == '{' && s[j] == '}' && s[j + 1] == '}'
    && forall k :: i + 2 <= k < j ==> s[k] != '}'
  }

  /** The pattern tried at position i: the index of the closing "}}" when it matches there. */
  function MatchAt(s: string, i: nat): (r: Option<nat>)
    ensures r.Some? ==> BindingSpan(s, i, r.value)
  {
    if i + 2 <= |s| && s[i] == '{' && s[i + 1] == '{' then
      var j := FirstClose(s, i + 2);
      if j > i + 2 && j + 1 < |s| && s[j + 1] == '}' then Some(j) else None
    else None
  }

  /** A binding span is always the one the pattern finds at its start. */
  lemma MatchAtComplete(s: string, i: nat, j: nat)
    requires BindingSpan(s, i, j)
    ensures MatchAt(s, i) == Some(j)
  {
    var c := FirstClose(s, i + 2);
    assert c == j;
  }

  /** Whether the pattern matches somewhere at or after position i. */
  predicate BindingFrom(s: string, i: nat)
    decreases |s| - i
  {
    i < |s| && (MatchAt(s, i).Some? || BindingFrom(s, i + 1))
  }

  lemma {:induction false} BindingFromIff(s: string, i: nat)
    ensures BindingFrom(s, i) <==> exists k, j :: i <= k && BindingSpan(s, k, j)
    decreases |s| - i
  {
    if i < |s| {
      BindingFromIff(s, i + 1);
      if exists k, j :: i <= k && BindingSpan(s, k, j) {
        var k, j :| i <= k && BindingSpan(s, k, j);
        if k == i {
          MatchAtComplete(s, k, j);
        } else {
          assert i + 1 <= k;
        }
      }
      if MatchAt(s, i).Some? {
        assert BindingSpan(s, i, MatchAt(s, i).value);
      }
    }
  }

  /** hasTemplateBinding: a non-empty string in which the pattern matches. */
  predicate HasTemplateBinding(value: Option<string>)
  {
    value.Some? && value.value != "" && BindingFrom(value.value, 0)
  }

  /** hasTemplateBinding holds exactly when the string contains a `{{…}}` span. */
  lemma HasTemplateBindingIff(s: string)
    ensures HasTemplateBinding(Some(s)) <==> exists i, j :: BindingSpan(s, i, j)
  {
    BindingFromIff(s, 0);
  }

  /** Every binding span `{{inner}}` (inner non-empty, without '}') replaced by f(inner). */
  function ReplaceBindings(s: string, f: string -> string): (r: string)
  {
    ReplaceFrom(s, 0, f)
  }

  function ReplaceFrom(s: string, i: nat, f: string -> string): (r: string)
    decreases |s| - i
  {
    if i >= |s| then ""
    else match MatchAt(s, i)
      case Some(j) => f(s[i + 2..j]) + ReplaceFrom(s, j + 2, f)
      case None => [s[i]] + ReplaceFrom(s, i + 1, f)
  }

  /** Text without a binding comes out of the replacement unchanged. */
  lemma {:induction false} ReplaceWithoutBinding(s: string, i: nat, f: string -> string)
    requires i <= |s| && !BindingFrom(s, i)
    ensures ReplaceFrom(s, i, f) == s[i..]
    decreases |s| - i
  {
    if i < |s| {
      ReplaceWithoutBinding(s, i + 1, f);
      assert s[i..] == [s[i]] + s[i + 1..];
    }
  }

  /**
   * s.split(/(\{\{\s*[^}]+\s*\}\})/): the text before each match, the match
   * itself (the capture group), and the text after the last match.
   */
  function Pieces(s: string, i: nat, start: nat): (r: seq<string>)
    requires start <= i <= |s|
    ensures |r| >= 1
    decreases |s| - i
  {
    if i == |s| then [s[start..]]
    else match MatchAt(s, i)
      case Some(j) => [s[start..i], s[i..j + 2]] + Pieces(s, j + 2, j + 2)
      case None => Pieces(s, i + 1, start)
  }

  /** The pieces of a split put back together give the original text. */
  lemma {:induction false} PiecesConcat(s: string, i: nat, start: nat)
    requires start <= i <= |s|
    ensures Join(Pieces(s, i, start), "") == s[start..]
    decreases |s| - i
  {
    if i < |s| {
      match MatchAt(s, i)
      case Some(j) =>
        var a, b, rest := s[start..i], s[i..j + 2], Pieces(s, j + 2, j + 2);
        assert Pieces(s, i, start) == [a] + ([b] + rest);
        calc {
          Join([a] + ([b] + rest), "");
          { JoinCons(a, [b] + rest, ""); }
          a + "" + Join([b] + rest, "");
          { JoinCons(b, rest, ""); }
          a + "" + (b + "" + Join(rest, ""));
          { PiecesConcat(s, j + 2, j + 2); }
          a + "" + (b + "" + s[j + 2..]);
          { SliceThree(s, start, i, j + 2); }
          s[start..];
        }
      case None =>
        PiecesConcat(s, i + 1, start);
    }
  }

  lemma SliceThree(s: string, a: nat, b: nat, c: nat)
    requires a <= b <= c <= |s|
    ensures s[a..b] + "" + (s[b..c] + "" + s[c..]) == s[a..]
  {
    assert s[a..] == s[a..b] + s[b..c] + s[c..];
  }

  lemma {:induction false} PiecesWithoutBinding(s: string, i: nat, start: nat)
    requires start <= i <= |s| && !BindingFrom(s, i)
    ensures Pieces(s, i, start) == [s[start..]]
    decreases |s| - i
  {
    if i < |s| {
      PiecesWithoutBinding(s, i + 1, start);
    }
  }

  // ---------------------------------------------------------------------
  // Templates
  // ---------------------------------------------------------------------

  datatype Segment = Text(value: string) | Binding(value: string)

  /** Text segments are never empty, binding names never carry outer white space. */
  predicate WellFormedSegment(seg: Segment)
  {
    match seg
    case Text(v) => v != ""
    case Binding(v) => Trim(v) == v
  }

  /**
   * /^\{\{\s*([^}]+?)\s*\}\}$/ on a whole string: "{{", a non-empty middle
   * without '}', "}}"; the result is the trimmed middle.
   */
  function WholeBinding(p: string): (r: Option<string>)
    ensures r.Some? <==>
      (|p| >= 5 && p[0] == '{' && p[1] == '{' && p[|p| - 2] == '}' && p[|p| - 1] == '}'
       && forall k :: 2 <= k < |p| - 2 ==> p[k] != '}')
    ensures r.Some? ==> r.value == Trim(p[2..|p| - 2]) && Trim(r.value) == r.value
  {
    if |p| >= 5 && p[0] == '{' && p[1] == '{' && p[|p| - 2] == '}' && p[|p| - 1] == '}'
       && forall k :: 2 <= k < |p| - 2 ==> p[k] != '}'
    then
      TrimIdempotent(p[2..|p| - 2]);
      Some(Trim(p[2..|p| - 2]))
    else None
  }

  /** getSingleBinding: the trimmed inner name when the whole trimmed text is one binding. */
  function GetSingleBinding(template: Option<string>): (r: Option<string>)
    ensures template.None? || template.value == "" ==> r.None?
  {
    if template.None? || template.value == "" then None
    else WholeBinding(Trim(template.value))
  }

  /** A template made of exactly one binding yields its trimmed name. */
  lemma SingleBindingOfBinding(x: string)
    requires x != [] && forall k :: 0 <= k < |x| ==> x[k] != '}'
    ensures GetSingleBinding(Some("{{" + x + "}}")) == Some(Trim(x))
  {
    var t := "{{" + x + "}}";
    assert t[0] == '{' && t[|t| - 1] == '}';
    TrimFixed(t);
    WholeBindingOfBraces(x);
  }

  lemma WholeBindingOfBraces(x: string)
    requires x != [] && forall k :: 0 <= k < |x| ==> x[k] != '}'
    ensures WholeBinding("{{" + x + "}}") == Some(Trim(x))
  {
    var t := "{{" + x + "}}";
    assert t[2..|t| - 2] == x;
    assert forall k :: 2 <= k < |t| - 2 ==> t[k] == x[k - 2];
  }

  /** Text around a binding means there is no single binding. */
  lemma SingleBindingRejectsText(x: string, tail: string)
    requires x != [] && forall k :: 0 <= k < |x| ==> x[k] != '}'
    requires tail != [] && !IsSpace(tail[|tail| - 1]) && tail[|tail| - 1] != '}'
    ensures GetSingleBinding(Some("{{" + x + "}}" + tail)).None?
  {
    var t := "{{" + x + "}}" + tail;
    TrimFixed(t);
  }

  function ToSegments(parts: seq<string>): (r: seq<Segment>)
    ensures |r| <= |parts|
    ensures forall k :: 0 <= k < |r| ==> WellFormedSegment(r[k])
  {
    if parts == [] then []
    else
      var rest := ToSegments(parts[1..]);
      if parts[0] == "" then rest
      else match WholeBinding(parts[0])
        case Some(name) => [Binding(name)] + rest
        case None => [Text(parts[0])] + rest
  }

  /** parseTemplate: split around bindings, drop empty parts, classify the rest. */
  function ParseTemplate(template: string): (r: seq<Segment>)
    ensures forall k :: 0 <= k < |r| ==> WellFormedSegment(r[k])
  {
    ToSegments(Pieces(template, 0, 0))
  }

  /** Non-empty text without bindings is one text segment; empty text gives none. */
  lemma ParseTemplatePlainText(t: string)
    requires !HasTemplateBinding(Some(t))
    ensures ParseTemplate(t) == (if t == "" then [] else [Text(t)])
  {
    if t != "" {
      PiecesWithoutBinding(t, 0, 0);
      assert Pieces(t, 0, 0) == [t];
      if WholeBinding(t).Some? {
        BindingFromIff(t, 0);
        assert BindingSpan(t, 0, |t| - 2);
        assert false;
      }
    }
  }

  // ---------------------------------------------------------------------
  // Settings references and property paths
  // ---------------------------------------------------------------------

  const SettingsPrefix: string := "config.settings."

  predicate IsSettingReference(value: Option<string>)
  {
    value.Some? && SettingsPrefix <= value.value
  }

  /** getSettingKey: value.substring(16). */
  function GetSettingKey(value: string): (r: string)
    ensures |value| >= 16 ==> value == value[..16] + r
    ensures |value| < 16 ==> r == ""
  {
    if |value| >= 16 then value[16..] else ""
  }

  /** Exactly the 16-character prefix is removed from a settings reference. */
  lemma SettingKeyRoundTrip(key: string)
    ensures IsSettingReference(Some(SettingsPrefix + key))
    ensures GetSettingKey(SettingsPrefix + key) == key
  {
    assert |SettingsPrefix| == 16;
    assert (SettingsPrefix + key)[16..] == key;
  }

  predicate HasKnownPrefix(p: string)
  {
    "data." <= p || "item." <= p || "size." <= p || "config." <= p
  }

  /** normalizePropertyPath: trim; keep a recognised prefix; else optionally add "data.". */
  function NormalizePropertyPath(path: string, addDataPrefix: bool): (r: string)
    ensures HasKnownPrefix(Trim(path)) ==> r == Trim(path)
    ensures !HasKnownPrefix(Trim(path)) ==> r == (if addDataPrefix then "data." else "") + Trim(path)
  {
    var trimmed := Trim(path);
    if HasKnownPrefix(trimmed) then trimmed
    else if addDataPrefix then "data." + trimmed
    else trimmed
  }

  lemma NormalizePropertyPathIdempotent(path: string, addDataPrefix: bool)
    ensures var once := NormalizePropertyPath(path, addDataPrefix);
      NormalizePropertyPath(once, addDataPrefix) == once
  {
    var t := Trim(path);
    TrimIdempotent(path);
    if !HasKnownPrefix(t) && addDataPrefix {
      var r := "data." + t;
      TrimFixed(r);
      assert "data." <= r;
    }
  }

  /** A trimmed path with a recognised prefix is left unchanged. */
  lemma NormalizeKeepsPrefixedPath(path: string, addDataPrefix: bool)
    requires HasKnownPrefix(path) && (path == [] || !IsSpace(path[|path| - 1]))
    ensures NormalizePropertyPath(path, addDataPrefix) == path
  {
    TrimFixed(path);
  }

  /** isItemPath: the trimmed path starts with "item.". */
  predicate IsItemPath(path: string)
  {
    "item." <= Trim(path)
  }

  /** getPropertyName: the last '.'-separated segment. */
  function GetPropertyName(path: string): (r: string)
  {
    var parts := Split(path, ".");
    parts[|parts| - 1]
  }

  /** The property name is a suffix of the path and holds no '.'. */
  lemma {:induction false} PropertyNameIsLastSegment(path: string)
    ensures var r := GetPropertyName(path);
      |r| <= |path| && r == path[|path| - |r|..] && !ContainsChar(r, '.')
    decreases |path|
  {
    var r := GetPropertyName(path);
    if |path| < 1 {
    } else if "." <= path {
      PropertyNameIsLastSegment(path[1..]);
      var rest := Split(path[1..], ".");
      assert Split(path, ".") == [""] + rest;
      assert r == rest[|rest| - 1];
    } else {
      PropertyNameIsLastSegment(path[1..]);
      var rest := Split(path[1..], ".");
      assert Split(path, ".") == [[path[0]] + rest[0]] + rest[1..];
      if |rest| == 1 {
        SplitJoin(path[1..], ".");
        assert rest[0] == path[1..];
        assert r == [path[0]] + path[1..];
        assert path == [path[0]] + path[1..];
        assert path[0] != '.';
      } else {
        assert r == rest[|rest| - 1];
      }
    }
  }

  /** sanitizeIdentifier: every character outside [A-Za-z0-9_] becomes '_'. */
  function SanitizeIdentifier(s: string): (r: string)
    ensures |r| == |s|
    ensures forall i :: 0 <= i < |r| ==> IsWordChar(r[i])
    ensures forall i :: 0 <= i < |s| && IsWordChar(s[i]) ==> r[i] == s[i]
  {
    seq(|s|, i requires 0 <= i < |s| => if IsWordChar(s[i]) then s[i] else '_')
  }

  lemma SanitizeIdentifierIdempotent(s: string)
    ensures SanitizeIdentifier(SanitizeIdentifier(s)) == SanitizeIdentifier(s)
  {
  }

  // ---------------------------------------------------------------------
  // Colours, font weights, indentation
  // ---------------------------------------------------------------------

  const ThemeColorNames: seq<string> :=
    ["onSurface", "onSurfaceVariant", "primary", "error", "widgetBackground", "surface"]

  predicate IsThemeColor(color: string) { color in ThemeColorNames }

  predicate IsHexDigit(c: char) { IsDigit(c) || 'a' <= c <= 'f' || 'A' <= c <= 'F' }

  /** hexColor.replace('#', ''): only the first '#' is removed. */
  function RemoveFirstHash(s: string): (r: string)
    ensures |r| == |s| || |r| == |s| - 1
  {
    if s == [] then []
    else if s[0] == '#' then s[1..]
    else [s[0]] + RemoveFirstHash(s[1..])
  }

  /** parseHexColor: six hexadecimal digits, upper-cased, with or without '#'. */
  function ParseHexColor(color: string): (r: Option<string>)
    ensures r.Some? ==>
      |r.value| == 6 && forall i :: 0 <= i < 6 ==> IsHexDigit(r.value[i]) && !('a' <= r.value[i] <= 'z')
  {
    var cleaned := RemoveFirstHash(color);
    if |cleaned| == 6 && forall i :: 0 <= i < 6 ==> IsHexDigit(cleaned[i]) then Some(Upper(cleaned))
    else None
  }

  lemma ParseHexColorAcceptsHash(h: string)
    requires |h| == 6 && forall i :: 0 <= i < 6 ==> IsHexDigit(h[i])
    ensures ParseHexColor("#" + h) == Some(Upper(h))
    ensures ParseHexColor(h) == Some(Upper(h))
  {
    assert ("#" + h)[1..] == h;
    assert RemoveFirstHash(h) == h by {
      RemoveFirstHashNoHash(h);
    }
  }

  lemma {:induction false} RemoveFirstHashNoHash(s: string)
    requires forall i :: 0 <= i < |s| ==> s[i] != '#'
    ensures RemoveFirstHash(s) == s
  {
    if s != [] {
      RemoveFirstHashNoHash(s[1..]);
      assert s == [s[0]] + s[1..];
    }
  }

  datatype FontPlatform = Glance | SwiftUI | NativeScript | Html

  /** The value each platform uses for a normal weight. */
  function NormalWeight(platform: FontPlatform): (r: string)
  {
    match platform
    case Glance => "FontWeight.Normal"
    case SwiftUI => ".regular"
    case NativeScript => "normal"
    case Html => "400"
  }

  /** toPlatformFontWeight: 'normal' | 'medium' | 'bold' after lower-casing, per platform. */
  function ToPlatformFontWeight(weight: Option<string>, platform: FontPlatform): (r: string)
    ensures weight.None? || Lower(weight.value) !in ["medium", "bold"] ==> r == NormalWeight(platform)
    ensures weight.Some? && Lower(weight.value) == "bold" ==>
      r == (match platform
            case Glance => "FontWeight.Bold"
            case SwiftUI => ".bold"
            case NativeScript => "bold"
            case Html => "700")
  {
    var normalized := if weight.None? then "" else Lower(weight.value);
    match platform
    case Glance =>
      if normalized == "medium" then "FontWeight.Medium"
      else if normalized == "bold" then "FontWeight.Bold"
      else "FontWeight.Normal"
    case SwiftUI =>
      if normalized == "medium" then ".medium"
      else if normalized == "bold" then ".bold"
      else ".regular"
    case NativeScript =>
      if normalized == "medium" then "500"
      else if normalized == "bold" then "bold"
      else "normal"
    case Html =>
      if normalized == "medium" then "500"
      else if normalized == "bold" then "700"
      else "400"
  }

  /** ' '.repeat(count). */
  function Spaces(count: nat): (r: string)
    ensures |r| == count && forall i :: 0 <= i < |r| ==> r[i] == ' '
  {
    if count == 0 then "" else " " + Spaces(count - 1)
  }

  /** indent(level, spacesPerLevel). */
  function Indent(level: nat, spacesPerLevel: nat): (r: string)
    ensures |r| == level * spacesPerLevel && forall i :: 0 <= i < |r| ==> r[i] == ' '
  {
    Spaces(level * spacesPerLevel)
  }
}
