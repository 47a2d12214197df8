/**
 * JavaScript values as the layout engine and the services see them:
 * JSON-like data with `undefined`. Objects keep their properties in
 * insertion order, as Object.entries and JSON.stringify do.
 * Numbers are exact rationals; NaN and the infinities are not values of the model.
 */
module JsValues {
  import opened Base
  import opened Strings

  datatype JVal =
    | Undefined
    | Null
    | Bool(b: bool)
    | Num(n: real)
    | Str(s: string)
    | Arr(items: seq<JVal>)
    | Obj(props: seq<(string, JVal)>)
  {
    predicate IsNullish() { Undefined? || Null? }
  }

  /** JavaScript truthiness: undefined, null, false, 0 and '' are falsy. */
  predicate Truthy(v: JVal)
  {
    match v
    case Undefined => false
    case Null => false
    case Bool(b) => b
    case Num(n) => n != 0.0
    case Str(s) => s != []
    case _ => true
  }

  /** The value of a property list at key, or None when the key is absent (first occurrence wins). */
  function Lookup(props: seq<(string, JVal)>, key: string): (r: Option<JVal>)
    ensures r.Some? <==> exists i :: 0 <= i < |props| && props[i].0 == key
    ensures r.Some? ==> r.value in (set i | 0 <= i < |props| :: props[i].1)
  {
    if props == [] then None
    else if props[0].0 == key then Some(props[0].1)
    else
      var r := Lookup(props[1..], key);
      assert forall i :: 1 <= i < |props| ==> props[i] == props[1..][i - 1];
      assert r.Some? ==> exists i :: 0 <= i < |props[1..]| && props[1..][i].0 == key;
      r
  }

  /** The canonical array index a property key denotes, if any ("0", "1", ... without leading zeros). */
  function ArrayIndex(key: string): (r: Option<nat>)
    ensures r.Some? ==> AllDigits(key) && key != []
  {
    if key != [] && AllDigits(key) && (key == "0" || key[0] != '0') then Some(ParseDigits(key)) else None
  }

  /**
   * Property access v[key] on a value that is neither undefined nor null
   * (on those JavaScript throws a TypeError; every caller checks first).
   * Members of the Number and Boolean prototypes read as undefined.
   */
  function Member(v: JVal, key: string): (r: JVal)
    requires !v.IsNullish()
    ensures v.Obj? ==> (r == match Lookup(v.props, key) case Some(x) => x case None => Undefined)
  {
    match v
    case Obj(props) =>
      (match Lookup(props, key) case Some(x) => x case None => Undefined)
    case Arr(items) =>
      if key == "length" then Num(|items| as real)
      else (match ArrayIndex(key)
            case Some(i) => if i < |items| then items[i] else Undefined
            case None => Undefined)
    case Str(s) =>
      if key == "length" then Num(|s| as real)
      else (match ArrayIndex(key)
            case Some(i) => if i < |s| then Str([s[i]]) else Undefined
            case None => Undefined)
    case _ => Undefined
  }

  /** a ?? b */
  function Coalesce(a: JVal, b: JVal): (r: JVal)
    ensures !a.IsNullish() ==> r == a
    ensures a.IsNullish() ==> r == b
  {
    if a.IsNullish() then b else a
  }

  /** The JSON escape of one character inside a string literal. */
  function JsonChar(c: char): (r: string)
    ensures r == [c] || (|r| >= 2 && r[0] == '\\')
    ensures r == [c] ==> c != '"' && c != '\\' && c >= ' '
  {
    if c == '"' then "\\\""
    else if c == '\\' then "\\\\"
    else if c == '\n' then "\\n"
    else if c == '\r' then "\\r"
    else if c == '\t' then "\\t"
    else if c == '\U{8}' then "\\b"
    else if c == '\U{C}' then "\\f"
    else if c < ' ' then "\\u00" + [HexDigit(c as int / 16), HexDigit(c as int % 16)]
    else [c]
  }

  function HexDigit(d: nat): (r: char)
    requires d < 16
    ensures '0' <= r <= '9' || 'a' <= r <= 'f'
  {
    "0123456789abcdef"[d]
  }

  function JsonEscape(s: string): (r: string)
    ensures |r| >= |s|
    ensures r == [] <==> s == []
  {
    if s == [] then [] else JsonChar(s[0]) + JsonEscape(s[1..])
  }

  /** JSON.stringify of a string: the escaped text between double quotes. */
  function JsonQuote(s: string): (r: string)
    ensures |r| >= 2 && r[0] == '"' && r[|r| - 1] == '"'
  {
    "\"" + JsonEscape(s) + "\""
  }

  /**
   * JSON.stringify(v) as it appears when interpolated into a template
   * literal: `undefined` (for which JSON.stringify returns undefined)
   * prints as "undefined".
   */
  function Stringify(v: JVal): (r: string)
    decreases v, 1
  {
    match v
    case Undefined => "undefined"
    case Null => "null"
    case Bool(b) => if b then "true" else "false"
    case Num(n) => NumberToString(n)
    case Str(s) => JsonQuote(s)
    case Arr(items) => "[" + StringifyItems(v, items) + "]"
    case Obj(props) => "{" + StringifyProps(v, props, true) + "}"
  }

  function StringifyItems(parent: JVal, items: seq<JVal>): (r: string)
    requires forall x :: x in items ==> x < parent
    decreases parent, 0, |items|
  {
    if items == [] then []
    else
      assert items[0] in items;
      assert forall x :: x in items[1..] ==> x in items;
      var first := if items[0].Undefined? then "null" else Stringify(items[0]);
      first + (if |items| == 1 then "" else "," + StringifyItems(parent, items[1..]))
  }

  /** Properties whose value is undefined are skipped. */
  function StringifyProps(parent: JVal, props: seq<(string, JVal)>, first: bool): (r: string)
    requires forall p :: p in props ==> p.1 < parent
    decreases parent, 0, |props|
  {
    if props == [] then []
    else
      assert props[0] in props;
      assert forall p :: p in props[1..] ==> p in props;
      if props[0].1.Undefined? then StringifyProps(parent, props[1..], first)
    else
      (if first then "" else ",") + JsonQuote(props[0].0) + ":" + Stringify(props[0].1)
      + StringifyProps(parent, props[1..], false)
  }

  /** String(v) for the values of the model. */
  function ToString(v: JVal): (r: string)
  {
    match v
    case Undefined => "undefined"
    case Null => "null"
    case Bool(b) => if b then "true" else "false"
    case Num(n) => NumberToString(n)
    case Str(s) => s
    case Arr(items) => JoinItems(items)
    case Obj(_) => "[object Object]"
  }

  /** Array.prototype.toString: elements joined by ",", with undefined and null as ''. */
  function JoinItems(items: seq<JVal>): (r: string)
    decreases items
  {
    if items == [] then []
    else
      var first := if items[0].IsNullish() then "" else ToString(items[0]);
      first + (if |items| == 1 then "" else "," + JoinItems(items[1..]))
  }

  // ---------------------------------------------------------------------
  // Property lists with JavaScript assignment and delete
  // ---------------------------------------------------------------------

  /** obj[key] = v: an existing key keeps its place, a new key goes last. */
  function Put<V>(m: seq<(string, V)>, key: string, v: V): (r: seq<(string, V)>)
    ensures FindKey(m, key).Some? ==> |r| == |m|
    ensures FindKey(m, key).None? ==> r == m + [(key, v)]
  {
    if m == [] then [(key, v)]
    else if m[0].0 == key then [(key, v)] + m[1..]
    else [m[0]] + Put(m[1..], key, v)
  }

  /** delete obj[key]. */
  function Delete<V>(m: seq<(string, V)>, key: string): (r: seq<(string, V)>)
    ensures |r| <= |m|
    ensures FindKey(m, key).None? ==> r == m
  {
    if m == [] then []
    else if m[0].0 == key then Delete(m[1..], key)
    else [m[0]] + Delete(m[1..], key)
  }

  /** After an assignment the key reads back the new value and every other key is unchanged. */
  lemma {:induction false} PutReadsBack<V>(m: seq<(string, V)>, key: string, v: V, other: string)
    ensures FindKey(Put(m, key, v), key) == Some(v)
    ensures other != key ==> FindKey(Put(m, key, v), other) == FindKey(m, other)
  {
    if m != [] && m[0].0 != key {
      PutReadsBack(m[1..], key, v, other);
    }
  }

  /** After a delete the key is absent and every other key is unchanged. */
  lemma {:induction false} DeleteReadsBack<V>(m: seq<(string, V)>, key: string, other: string)
    ensures FindKey(Delete(m, key), key).None?
    ensures other != key ==> FindKey(Delete(m, key), other) == FindKey(m, other)
  {
    if m != [] {
      DeleteReadsBack(m[1..], key, other);
    }
  }
}
