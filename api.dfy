/**
 * The HTTP service layer: the URL query-string builder (and its
 * parameter lookup mode), the network-state service whose setters notify
 * listeners on change, and the guard and header defaults that every
 * request goes through.
 */
module Api {
  import opened Base
  import opened Strings
  import opened JsValues

  // ---------------------------------------------------------------------
  // encodeURIComponent
  // ---------------------------------------------------------------------

  /** The characters encodeURIComponent leaves as they are. */
  predicate UriUnreserved(c: char)
  {
    IsAsciiLetter(c) || IsDigit(c) || c in "-_.!~*'()"
  }

  /** The characters an encoded component is made of. */
  predicate UriSafe(c: char)
  {
    UriUnreserved(c) || c == '%'
  }

  /** The UTF-8 bytes of one Unicode scalar value. */
  function Utf8(c: char): (r: seq<int>)
    ensures 1 <= |r| <= 4
    ensures forall i :: 0 <= i < |r| ==> 0 <= r[i] < 256
    ensures (c as int) < 0x80 ==> r == [c as int]
  {
    var cp := c as int;
    if cp < 0x80 then [cp]
    else if cp < 0x800 then [0xC0 + cp / 64, 0x80 + cp % 64]
    else if cp < 0x10000 then [0xE0 + cp / 4096, 0x80 + (cp / 64) % 64, 0x80 + cp % 64]
    else [0xF0 + cp / 262144, 0x80 + (cp / 4096) % 64, 0x80 + (cp / 64) % 64, 0x80 + cp % 64]
  }

  function HexUpper(d: int): (c: char)
    requires 0 <= d < 16
    ensures IsHex(c) && !('a' <= c <= 'f')
  {
    if d < 10 then ('0' as int + d) as char else ('A' as int + d - 10) as char
  }

  predicate IsHex(c: char)
  {
    IsDigit(c) || 'A' <= c <= 'F' || 'a' <= c <= 'f'
  }

  function HexValue(c: char): (d: int)
    requires IsHex(c)
    ensures 0 <= d < 16
  {
    if IsDigit(c) then c as int - '0' as int
    else if 'A' <= c <= 'F' then c as int - 'A' as int + 10
    else c as int - 'a' as int + 10
  }

  /** "%XY" for each byte, with upper-case hexadecimal digits. */
  function PercentBytes(bytes: seq<int>): (r: string)
    requires forall i :: 0 <= i < |bytes| ==> 0 <= bytes[i] < 256
    ensures forall i :: 0 <= i < |r| ==> UriSafe(r[i])
  {
    if bytes == [] then []
    else ['%', HexUpper(bytes[0] / 16), HexUpper(bytes[0] % 16)] + PercentBytes(bytes[1..])
  }

  function EncodeChar(c: char): (r: string)
    ensures forall i :: 0 <= i < |r| ==> UriSafe(r[i])
  {
    if UriUnreserved(c) then [c] else PercentBytes(Utf8(c))
  }

  /** encodeURIComponent on text made of Unicode scalar values (it never throws on those). */
  function EncodeUriComponent(s: string): (r: string)
    ensures forall i :: 0 <= i < |r| ==> UriSafe(r[i])
  {
    if s == [] then [] else EncodeChar(s[0]) + EncodeUriComponent(s[1..])
  }

  /** Text made only of unreserved characters is its own encoding. */
  lemma {:induction false} EncodeUnreservedIdentity(s: string)
    requires forall i :: 0 <= i < |s| ==> UriUnreserved(s[i])
    ensures EncodeUriComponent(s) == s
  {
    if s != [] {
      EncodeUnreservedIdentity(s[1..]);
      assert s == [s[0]] + s[1..];
    }
  }

  /** An encoded component never holds the characters that delimit query parts. */
  lemma EncodedHasNoDelimiter(s: string)
    ensures !ContainsChar(EncodeUriComponent(s), '&')
    ensures !ContainsChar(EncodeUriComponent(s), '=')
    ensures !ContainsChar(EncodeUriComponent(s), '?')
    ensures !ContainsChar(EncodeUriComponent(s), '#')
  {
    var r := EncodeUriComponent(s);
    forall i | 0 <= i < |r| ensures r[i] !in "&=?#" {
      assert UriSafe(r[i]);
    }
  }

  /** The bytes of a text in UTF-8. */
  function Utf8String(s: string): (r: seq<int>)
    ensures |s| <= |r| <= 4 * |s|
    ensures forall i :: 0 <= i < |r| ==> 0 <= r[i] < 256
  {
    if s == [] then [] else Utf8(s[0]) + Utf8String(s[1..])
  }

  /** The byte layer of decodeURIComponent: "%XY" gives byte XY, any other character its own code. */
  function PercentDecode(s: string): (r: seq<int>)
    ensures |r| <= |s|
  {
    if s == [] then []
    else if s[0] == '%' && |s| >= 3 && IsHex(s[1]) && IsHex(s[2]) then
      [16 * HexValue(s[1]) + HexValue(s[2])] + PercentDecode(s[3..])
    else [s[0] as int] + PercentDecode(s[1..])
  }

  lemma HexRoundTrip(d: int)
    requires 0 <= d < 16
    ensures IsHex(HexUpper(d)) && HexValue(HexUpper(d)) == d
  {
  }

  lemma {:induction false} PercentBytesDecode(bytes: seq<int>, rest: string)
    requires forall i :: 0 <= i < |bytes| ==> 0 <= bytes[i] < 256
    ensures PercentDecode(PercentBytes(bytes) + rest) == bytes + PercentDecode(rest)
  {
    if bytes != [] {
      var b := bytes[0];
      var h, l := HexUpper(b / 16), HexUpper(b % 16);
      HexRoundTrip(b / 16);
      HexRoundTrip(b % 16);
      var t := PercentBytes(bytes[1..]) + rest;
      assert PercentBytes(bytes) + rest == ['%', h, l] + t;
      assert (['%', h, l] + t)[3..] == t;
      assert 16 * (b / 16) + b % 16 == b;
      assert PercentDecode(['%', h, l] + t) == [b] + PercentDecode(t);
      PercentBytesDecode(bytes[1..], rest);
      calc {
        PercentDecode(PercentBytes(bytes) + rest);
        [b] + PercentDecode(t);
        [b] + (bytes[1..] + PercentDecode(rest));
        { assert bytes == [b] + bytes[1..]; }
        bytes + PercentDecode(rest);
      }
    } else {
      assert PercentBytes(bytes) + rest == rest;
    }
  }

  /** Percent-decoding an encoded component gives back the UTF-8 bytes of the text. */
  lemma {:induction false} EncodeDecodeBytes(s: string)
    ensures PercentDecode(EncodeUriComponent(s)) == Utf8String(s)
  {
    if s != [] {
      var c := s[0];
      var t := EncodeUriComponent(s[1..]);
      EncodeDecodeBytes(s[1..]);
      if UriUnreserved(c) {
        assert c != '%';
        assert ([c] + t)[1..] == t;
      } else {
        PercentBytesDecode(Utf8(c), t);
      }
    }
  }

  // ---------------------------------------------------------------------
  // queryString
  // ---------------------------------------------------------------------

  predicate IsQuerySeparator(c: char) { c == '?' || c == '&' }

  /** location.split(/[?&]/). */
  function SplitQuery(s: string): (r: seq<string>)
    ensures |r| >= 1
  {
    if s == [] then [""]
    else
      var rest := SplitQuery(s[1..]);
      if IsQuerySeparator(s[0]) then [""] + rest else [[s[0]] + rest[0]] + rest[1..]
  }

  predicate NoQuerySeparator(s: string)
  {
    !ContainsChar(s, '?') && !ContainsChar(s, '&')
  }

  lemma {:induction false} SplitQueryPlain(s: string)
    requires NoQuerySeparator(s)
    ensures SplitQuery(s) == [s]
  {
    if s != [] {
      assert !IsQuerySeparator(s[0]);
      assert NoQuerySeparator(s[1..]) by {
        assert forall i :: 0 <= i < |s| - 1 ==> s[1..][i] == s[i + 1];
      }
      SplitQueryPlain(s[1..]);
      assert [s[0]] + s[1..] == s;
    }
  }

  /** The part a piece of the location contributes: "k=v", "k", or nothing when k is empty. */
  function LocationPart(piece: string): (r: Option<string>)
    ensures r.Some? ==> r.value != []
  {
    var kv := Split(piece, "=");
    if kv[0] == [] then None
    else if |kv| > 1 && kv[1] != [] then Some(kv[0] + "=" + kv[1])
    else Some(kv[0])
  }

  function LocationParts(pieces: seq<string>): (r: seq<string>)
    ensures |r| <= |pieces|
  {
    if pieces == [] then []
    else
      var prev := LocationParts(pieces[..|pieces| - 1]);
      match LocationPart(pieces[|pieces| - 1])
      case Some(p) => prev + [p]
      case None => prev
  }

  /** Element k of an array, undefined past its end. */
  function ItemAt(items: seq<JVal>, k: nat): (r: JVal)
    ensures k < |items| ==> r == items[k]
    ensures k >= |items| ==> r.Undefined?
  {
    if k < |items| then items[k] else Undefined
  }

  /** Array params: strings are pushed as they are, pairs as "a=b", anything else is skipped. */
  function ArrayParts(items: seq<JVal>): (r: seq<string>)
    ensures |r| <= |items|
  {
    if items == [] then []
    else
      var prev := ArrayParts(items[..|items| - 1]);
      match items[|items| - 1]
      case Str(s) => prev + [s]
      case Arr(d) => prev + [ToString(ItemAt(d, 0)) + "=" + ToString(ItemAt(d, 1))]
      case _ => prev
  }

  /** The encoded form of one defined value: objects, arrays and null are JSON-stringified first. */
  function EncodeValue(v: JVal): (r: string)
    ensures !ContainsChar(r, '&') && !ContainsChar(r, '=')
  {
    EncodedHasNoDelimiter(if v.Obj? || v.Arr? || v.Null? then Stringify(v) else ToString(v));
    EncodeUriComponent(if v.Obj? || v.Arr? || v.Null? then Stringify(v) else ToString(v))
  }

  /** The intermediate object: undefined values delete the key, the others are stored encoded. */
  function ObjectEntries(props: seq<(string, JVal)>): (r: seq<(string, string)>)
    ensures |r| <= |props|
  {
    if props == [] then []
    else
      var prev := ObjectEntries(props[..|props| - 1]);
      var (k, v) := props[|props| - 1];
      if v.Undefined? then Delete(prev, k) else Put(prev, k, EncodeValue(v))
  }

  /** One "key=value" part per stored entry (a stored value is a string, never the boolean true). */
  function EntryParts(entries: seq<(string, string)>): (r: seq<string>)
    ensures |r| == |entries|
  {
    if entries == [] then []
    else EntryParts(entries[..|entries| - 1]) + [entries[|entries| - 1].0 + "=" + entries[|entries| - 1].1]
  }

  /** The parts contributed by non-string params. */
  function ParamParts(params: JVal): (r: seq<string>)
    requires !params.Str?
    ensures params.Arr? ==> |r| <= |params.items|
    ensures params.Obj? ==> |r| <= |params.props|
    ensures !params.Arr? && !params.Obj? ==> r == []
  {
    match params
    case Arr(items) => ArrayParts(items)
    case Obj(props) => EntryParts(ObjectEntries(props))
    case _ => []
  }

  /** The first two parts joined by "?", then "&" and the others joined by "&". */
  function Assemble(parts: seq<string>): (r: string)
    ensures parts == [] ==> r == []
    ensures |parts| == 1 ==> r == parts[0]
  {
    if |parts| <= 2 then Join(parts, "?")
    else Join(parts[..2], "?") + "&" + Join(parts[2..], "&")
  }

  /** The text that follows a matched name: an optional '=', then everything up to the next '&'. */
  function ParamValue(t: string): (r: string)
    ensures !ContainsChar(r, '&')
    ensures r <= t || (t != [] && t[0] == '=' && r <= t[1..])
  {
    var u := if t != [] && t[0] == '=' then t[1..] else t;
    TakeUntil(u, '&')
  }

  function TakeUntil(s: string, c: char): (r: string)
    ensures r <= s
    ensures !ContainsChar(r, c)
    ensures !ContainsChar(s, c) ==> r == s
  {
    if s == [] || s[0] == c then []
    else
      assert !ContainsChar(s, c) ==> !ContainsChar(s[1..], c) by {
        if ContainsChar(s[1..], c) {
          var i :| 0 <= i < |s| - 1 && s[1..][i] == c;
          assert s[i + 1] == c;
        }
      }
      [s[0]] + TakeUntil(s[1..], c)
  }

  /**
   * The lookup mode, location.match(/[?&]name=?([^&]*)[&#$]?/): the text
   * after the leftmost '?' or '&' that is followed by the name.
   */
  function MatchParam(location: string, name: string): (r: Option<string>)
    ensures r.Some? ==> !ContainsChar(r.value, '&')
  {
    if location == [] then None
    else if IsQuerySeparator(location[0]) && name <= location[1..] then
      Some(ParamValue(location[1 + |name|..]))
    else MatchParam(location[1..], name)
  }

  /** queryString(params, location): a lookup when params is a string, otherwise the built URL. */
  function QueryStringOf(params: JVal, location: string): (r: Option<string>)
    ensures !params.Str? ==> r.Some?
    ensures params.Str? && r.Some? ==> !ContainsChar(r.value, '&')
  {
    if params.Str? then MatchParam(location, params.s)
    else Some(Assemble(LocationParts(SplitQuery(location)) + ParamParts(params)))
  }

  method QueryString(params: JVal, location: string) returns (r: Option<string>)
    ensures r == QueryStringOf(params, location)
  {
    if params.Str? {
      return MatchParam(location, params.s);
    }
    var parts := CollectLocationParts(SplitQuery(location));
    var more: seq<string> := [];
    if params.Arr? {
      more := CollectArrayParts(params.items);
    } else if params.Obj? {
      var obj := CollectObjectEntries(params.props);
      more := CollectEntryParts(obj);
    }
    return Some(Assemble(parts + more));
  }

  method CollectLocationParts(locSplit: seq<string>) returns (parts: seq<string>)
    ensures parts == LocationParts(locSplit)
  {
    parts := [];
    var i := 0;
    while i < |locSplit|
      invariant 0 <= i <= |locSplit|
      invariant parts == LocationParts(locSplit[..i])
    {
      assert locSplit[..i + 1][..i] == locSplit[..i];
      var part := LocationPart(locSplit[i]);
      if part.Some? {
        parts := parts + [part.value];
      }
      i := i + 1;
    }
    assert locSplit[..i] == locSplit;
  }

  method CollectArrayParts(items: seq<JVal>) returns (parts: seq<string>)
    ensures parts == ArrayParts(items)
  {
    parts := [];
    var i := 0;
    while i < |items|
      invariant 0 <= i <= |items|
      invariant parts == ArrayParts(items[..i])
    {
      assert items[..i + 1][..i] == items[..i];
      match items[i] {
        case Str(s) => parts := parts + [s];
        case Arr(d) => parts := parts + [ToString(ItemAt(d, 0)) + "=" + ToString(ItemAt(d, 1))];
        case _ =>
      }
      i := i + 1;
    }
    assert items[..i] == items;
  }

  method CollectObjectEntries(props: seq<(string, JVal)>) returns (obj: seq<(string, string)>)
    ensures obj == ObjectEntries(props)
  {
    obj := [];
    var i := 0;
    while i < |props|
      invariant 0 <= i <= |props|
      invariant obj == ObjectEntries(props[..i])
    {
      assert props[..i + 1][..i] == props[..i];
      var (key, value) := props[i];
      if value.Undefined? {
        obj := Delete(obj, key);
      } else {
        obj := Put(obj, key, EncodeValue(value));
      }
      i := i + 1;
    }
    assert props[..i] == props;
  }

  method CollectEntryParts(obj: seq<(string, string)>) returns (parts: seq<string>)
    ensures parts == EntryParts(obj)
  {
    parts := [];
    var j := 0;
    while j < |obj|
      invariant 0 <= j <= |obj|
      invariant parts == EntryParts(obj[..j])
    {
      assert obj[..j + 1][..j] == obj[..j];
      parts := parts + [obj[j].0 + "=" + obj[j].1];
      j := j + 1;
    }
    assert obj[..j] == obj;
  }

  // ---------------------------------------------------------------------
  // What queryString promises
  // ---------------------------------------------------------------------

  /** A JavaScript object's keys are distinct. */
  predicate DistinctKeys<V>(props: seq<(string, V)>)
  {
    forall i, j :: 0 <= i < j < |props| ==> props[i].0 != props[j].0
  }

  /** The defined params, each with its encoded value, in order. */
  function Defined(props: seq<(string, JVal)>): (r: seq<(string, string)>)
    ensures |r| <= |props|
  {
    if props == [] then []
    else
      var prev := Defined(props[..|props| - 1]);
      var (k, v) := props[|props| - 1];
      if v.Undefined? then prev else prev + [(k, EncodeValue(v))]
  }

  lemma {:induction false} DefinedKeysFrom(props: seq<(string, JVal)>, key: string)
    requires forall i :: 0 <= i < |props| ==> props[i].0 != key
    ensures FindKey(Defined(props), key).None?
  {
    if props != [] {
      var init := props[..|props| - 1];
      DefinedKeysFrom(init, key);
    }
  }

  /** Over an object, the stored entries are exactly the defined params with their values encoded. */
  lemma {:induction false} ObjectEntriesDropUndefined(props: seq<(string, JVal)>)
    requires DistinctKeys(props)
    ensures ObjectEntries(props) == Defined(props)
  {
    if props != [] {
      var init := props[..|props| - 1];
      var (k, v) := props[|props| - 1];
      assert DistinctKeys(init);
      ObjectEntriesDropUndefined(init);
      DefinedKeysFrom(init, k);
    }
  }

  /** The URL keeps its first part, then "?" and the remaining parts joined by "&". */
  lemma AssembleShape(u: string, ps: seq<string>)
    ensures Assemble([u] + ps) == if ps == [] then u else u + "?" + Join(ps, "&")
  {
    if |ps| == 1 {
      AssembleOne(u, ps[0]);
      assert [u] + ps == [u, ps[0]];
    } else if |ps| >= 2 {
      AssembleMany(u, ps);
    }
  }

  lemma AssembleOne(u: string, p: string)
    ensures Assemble([u, p]) == u + "?" + p
  {
    JoinPair(u, p, "?");
  }

  lemma JoinPair(a: string, b: string, sep: string)
    ensures Join([a, b], sep) == a + sep + b
  {
    assert [a, b][1..] == [b];
  }

  lemma AssembleMany(u: string, ps: seq<string>)
    requires |ps| >= 2
    ensures Assemble([u] + ps) == u + "?" + Join(ps, "&")
  {
    AssembleHead(u, ps);
    JoinHead(ps, "&");
    QueryConcat(u, ps[0], "&", Join(ps[1..], "&"));
  }

  lemma AssembleHead(u: string, ps: seq<string>)
    requires |ps| >= 2
    ensures Assemble([u] + ps) == u + "?" + ps[0] + "&" + Join(ps[1..], "&")
  {
    var all := [u] + ps;
    assert all[..2] == [u, ps[0]];
    assert all[2..] == ps[1..];
    JoinPair(u, ps[0], "?");
  }

  lemma JoinHead(ps: seq<string>, sep: string)
    requires |ps| >= 2
    ensures Join(ps, sep) == ps[0] + sep + Join(ps[1..], sep)
  {
  }

  /** A URL with no '?', '&' or '=' is the single part its location contributes. */
  lemma PlainLocation(url: string)
    requires url != [] && NoQuerySeparator(url) && !ContainsChar(url, '=')
    ensures LocationParts(SplitQuery(url)) == [url]
  {
    SplitQueryPlain(url);
    SplitWithoutSeparatorStart(url, "=");
    assert [url][..0] == [];
  }

  /** The pieces of an existing query: "k=v" stays, "k=" loses its '=', a third "=w" is dropped. */
  lemma LocationPartForms(k: string, v: string, w: string)
    requires k != [] && !ContainsChar(k, '=') && !ContainsChar(v, '=')
    ensures LocationPart(k) == Some(k)
    ensures LocationPart(k + "=") == Some(k)
    ensures v != [] ==> LocationPart(k + "=" + v) == Some(k + "=" + v)
    ensures v != [] ==> LocationPart(k + "=" + v + "=" + w) == Some(k + "=" + v)
  {
    SplitWithoutSeparatorStart(k, "=");
    SplitAfterHead(k, "", "=");
    assert k + "=" + "" == k + "=";
    SplitWithoutSeparatorStart("", "=");
    SplitAfterHead(k, v, "=");
    SplitWithoutSeparatorStart(v, "=");
    SplitAfterHead(k, v + "=" + w, "=");
    SplitAfterHead(v, w, "=");
    assert k + "=" + (v + "=" + w) == k + "=" + v + "=" + w;
  }

  /**
   * Object params on a plain URL: the URL, then "?" and one "key=value"
   * per defined param joined by "&"; with no defined param, the URL alone.
   */
  lemma ObjectQueryShape(url: string, props: seq<(string, JVal)>)
    requires url != [] && NoQuerySeparator(url) && !ContainsChar(url, '=')
    requires DistinctKeys(props)
    ensures QueryStringOf(Obj(props), url) ==
      Some(if Defined(props) == [] then url else url + "?" + Join(EntryParts(Defined(props)), "&"))
  {
    PlainLocation(url);
    ObjectEntriesDropUndefined(props);
    AssembleShape(url, EntryParts(Defined(props)));
  }

  /** Skipping a prefix with no '?' or '&' does not change the lookup. */
  lemma {:induction false} MatchSkipsPlain(u: string, t: string, name: string)
    requires NoQuerySeparator(u)
    ensures MatchParam(u + t, name) == MatchParam(t, name)
  {
    if u != [] {
      assert (u + t)[0] == u[0] && !IsQuerySeparator(u[0]);
      assert (u + t)[1..] == u[1..] + t;
      assert NoQuerySeparator(u[1..]) by {
        assert forall i :: 0 <= i < |u| - 1 ==> u[1..][i] == u[i + 1];
      }
      MatchSkipsPlain(u[1..], t, name);
    } else {
      assert u + t == t;
    }
  }

  /** A single defined param is appended to a plain URL as "?name=value". */
  lemma SingleParamQuery(url: string, name: string, v: JVal)
    requires url != [] && NoQuerySeparator(url) && !ContainsChar(url, '=')
    requires !v.Undefined?
    ensures QueryStringOf(Obj([(name, v)]), url) == Some(url + "?" + name + "=" + EncodeValue(v))
  {
    var props := [(name, v)];
    var e := EncodeValue(v);
    SingleParamPart(name, v);
    OneKeyDistinct(props);
    ObjectQueryShape(url, props);
    QueryConcat(url, name, "=", e);
  }

  /** Regrouping the text after "?" of a query. */
  lemma QueryConcat(url: string, name: string, sep: string, e: string)
    ensures url + "?" + (name + sep + e) == url + "?" + name + sep + e
  {
  }

  lemma OneKeyDistinct<V>(props: seq<(string, V)>)
    requires |props| == 1
    ensures DistinctKeys(props)
  {
  }

  lemma SingleParamPart(name: string, v: JVal)
    requires !v.Undefined?
    ensures Defined([(name, v)]) != []
    ensures Join(EntryParts(Defined([(name, v)])), "&") == name + "=" + EncodeValue(v)
  {
    var e := EncodeValue(v);
    assert [(name, v)][..0] == [];
    assert Defined([(name, v)]) == [(name, e)];
    assert EntryParts([(name, e)]) == [name + "=" + e];
  }

  /** The lookup finds "?name=" after a plain URL and reads up to the next '&'. */
  lemma MatchAfterPlainUrl(url: string, name: string, e: string)
    requires NoQuerySeparator(url) && !ContainsChar(e, '&')
    ensures MatchParam(url + "?" + name + "=" + e, name) == Some(e)
  {
    var t := "?" + name + "=" + e;
    assert url + "?" + name + "=" + e == url + t;
    MatchSkipsPlain(url, t, name);
    MatchAtQuestion(name, e);
  }

  lemma MatchAtQuestion(name: string, e: string)
    requires !ContainsChar(e, '&')
    ensures MatchParam("?" + name + "=" + e, name) == Some(e)
  {
    var t := "?" + name + "=" + e;
    assert t[1..] == name + "=" + e;
    assert t[1 + |name|..] == "=" + e;
    ParamValueAfterEquals(e);
  }

  lemma ParamValueAfterEquals(e: string)
    requires !ContainsChar(e, '&')
    ensures ParamValue("=" + e) == e
  {
    assert ("=" + e)[1..] == e;
  }

  /** Looking a param up in a URL built from it gives back its encoded value. */
  lemma LookupReadsBack(url: string, name: string, v: JVal)
    requires url != [] && NoQuerySeparator(url) && !ContainsChar(url, '=')
    requires !v.Undefined?
    ensures QueryStringOf(Str(name), QueryStringOf(Obj([(name, v)]), url).value) == Some(EncodeValue(v))
  {
    SingleParamQuery(url, name, v);
    MatchAfterPlainUrl(url, name, EncodeValue(v));
  }

  /** Array params made only of strings contribute those strings, in order. */
  lemma {:induction false} StringArrayParts(items: seq<JVal>)
    requires forall i :: 0 <= i < |items| ==> items[i].Str?
    ensures ArrayParts(items) == seq(|items|, i requires 0 <= i < |items| => items[i].s)
  {
    if items != [] {
      StringArrayParts(items[..|items| - 1]);
    }
  }

  // ---------------------------------------------------------------------
  // NetworkService
  // ---------------------------------------------------------------------

  /** The platform's connection types. */
  datatype ConnectionType = NoConnection | Wifi | Mobile | Ethernet | Bluetooth | Vpn

  /** What listeners are told: the connection-state event, or the 'connection' event. */
  datatype Notification =
    | ConnectionStateChanged(connected: bool, connectionType: ConnectionType)
    | ConnectionChanged(connectionType: ConnectionType, connected: bool)

  /** The observable network state; `notifications` records every notify call in order. */
  class NetworkService {
    var connectionType: ConnectionType
    var connected: bool
    var monitoring: bool
    var notifications: seq<Notification>

    /** The service is connected exactly when there is a connection. */
    predicate Consistent()
      reads this
    {
      connected == (connectionType != NoConnection)
    }

    constructor ()
      ensures connectionType == NoConnection && !connected && !monitoring && notifications == []
      ensures Consistent()
    {
      connectionType := NoConnection;
      connected := false;
      monitoring := false;
      notifications := [];
    }

    /** The `connected` setter: notifies only when the value changes. */
    method SetConnected(value: bool)
      modifies this`connected, this`notifications
      ensures connected == value
      ensures notifications == old(notifications) +
        (if old(connected) != value then [ConnectionStateChanged(value, connectionType)] else [])
    {
      if connected != value {
        connected := value;
        notifications := notifications + [ConnectionStateChanged(value, connectionType)];
      }
    }

    /**
     * The `connectionType` setter: on a change it records the type, sets
     * `connected` to whether there is a connection (which notifies when that
     * flips) and then notifies the 'connection' event; otherwise nothing happens.
     */
    method SetConnectionType(value: ConnectionType)
      modifies this`connectionType, this`connected, this`notifications
      ensures old(connectionType) == value ==>
        connectionType == old(connectionType) && connected == old(connected) && notifications == old(notifications)
      ensures old(connectionType) != value ==>
        connectionType == value && connected == (value != NoConnection) &&
        notifications == old(notifications) +
          (if old(connected) != connected then [ConnectionStateChanged(connected, value)] else []) +
          [ConnectionChanged(value, connected)]
      ensures old(Consistent()) || old(connectionType) != value ==> Consistent()
    {
      if connectionType != value {
        connectionType := value;
        SetConnected(value != NoConnection);
        notifications := notifications + [ConnectionChanged(value, connected)];
      }
    }

    /** start(): begins monitoring once and adopts the current connection type. */
    method Start(current: ConnectionType)
      modifies this`monitoring, this`connectionType, this`connected, this`notifications
      ensures monitoring
      ensures old(monitoring) ==>
        connectionType == old(connectionType) && connected == old(connected) && notifications == old(notifications)
      ensures !old(monitoring) && old(connectionType) == current ==>
        connectionType == old(connectionType) && connected == old(connected) && notifications == old(notifications)
      ensures !old(monitoring) && old(connectionType) != current ==>
        connectionType == current && connected == (current != NoConnection) &&
        notifications == old(notifications) +
          (if old(connected) != connected then [ConnectionStateChanged(connected, current)] else []) +
          [ConnectionChanged(current, connected)]
      ensures !old(monitoring) && old(Consistent()) ==> Consistent() && connectionType == current
    {
      if monitoring {
        return;
      }
      monitoring := true;
      SetConnectionType(current);
    }

    /** stop(): ends monitoring; the state is kept. */
    method Stop()
      modifies this`monitoring
      ensures !monitoring
    {
      monitoring := false;
    }
  }

  // ---------------------------------------------------------------------
  // Requests
  // ---------------------------------------------------------------------

  const ContentType := "Content-Type"
  const JsonContentType := "application/json"

  /** getRequestHeaders: the headers, or a new object, with a Content-Type when it was missing or empty. */
  function RequestHeaders(headers: Option<seq<(string, string)>>): (r: seq<(string, string)>)
    ensures FindKey(r, ContentType).Some? && FindKey(r, ContentType).value != []
  {
    var h := if headers.Some? then headers.value else [];
    var current := FindKey(h, ContentType);
    PutReadsBack(h, ContentType, JsonContentType, ContentType);
    if current.Some? && current.value != [] then h else Put(h, ContentType, JsonContentType)
  }

  /** A Content-Type that was set is kept with every other header; a missing or empty one becomes JSON. */
  lemma RequestHeadersContentType(headers: Option<seq<(string, string)>>, other: string)
    ensures var h := if headers.Some? then headers.value else [];
      var before := FindKey(h, ContentType);
      var after := FindKey(RequestHeaders(headers), ContentType);
      (before.Some? && before.value != [] ==> RequestHeaders(headers) == h) &&
      (before.None? || before.value == [] ==> after == Some(JsonContentType)) &&
      (other != ContentType ==> FindKey(RequestHeaders(headers), other) == FindKey(h, other))
  {
    var h := if headers.Some? then headers.value else [];
    PutReadsBack(h, ContentType, JsonContentType, other);
  }

  /** Applying the default twice changes nothing more. */
  lemma RequestHeadersIdempotent(headers: Option<seq<(string, string)>>)
    ensures RequestHeaders(Some(RequestHeaders(headers))) == RequestHeaders(headers)
  {
    RequestHeadersContentType(headers, ContentType);
  }

  /** The options of one request, updated in place by `request`. */
  class RequestParams {
    var url: string
    var queryParams: Option<seq<(string, JVal)>>
    var headers: Option<seq<(string, string)>>

    constructor (url: string, queryParams: Option<seq<(string, JVal)>>, headers: Option<seq<(string, string)>>)
      ensures this.url == url && this.queryParams == queryParams && this.headers == headers
    {
      this.url := url;
      this.queryParams := queryParams;
      this.headers := headers;
    }
  }

  /**
   * The synchronous part of request(): NoNetworkError when disconnected;
   * otherwise the query params are folded into the url and removed, and
   * the headers get their default. The HTTP exchange itself is not modelled.
   */
  method Request(net: NetworkService, params: RequestParams) returns (r: Outcome<()>)
    modifies params
    ensures !net.connected ==> r == Thrown("NoNetworkError") && unchanged(params)
    ensures net.connected ==> r == Ok(())
    ensures net.connected ==> params.queryParams.None? && params.headers == Some(RequestHeaders(old(params.headers)))
    ensures net.connected && old(params.queryParams).Some? ==>
      params.url == QueryStringOf(Obj(old(params.queryParams).value), old(params.url)).value
    ensures net.connected && old(params.queryParams).None? ==> params.url == old(params.url)
  {
    if !net.connected {
      return Thrown("NoNetworkError");
    }
    if params.queryParams.Some? {
      var built := QueryString(Obj(params.queryParams.value), params.url);
      params.url := built.value;
      params.queryParams := None;
    }
    params.headers := Some(RequestHeaders(params.headers));
    return Ok(());
  }
}
