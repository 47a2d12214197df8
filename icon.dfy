/**
 * The icon service: the tables of icon files an icon set provides, the
 * fallback from a specific weather code to a more general one, and the
 * cache of resolved icon names.
 */
module Icon {
  import opened Base
  import opened Strings

  /**
   * The fallback table of weather codes (WEATHER_CODE_MAPPING) as the
   * source writes it: entry 313 falls back to itself.
   */
  function AsWrittenFallback(code: int): (r: Option<int>)
    ensures r.Some? && code != 313 ==> r.value < code
  {
    match code
    case 201 => Some(200)
    case 202 => Some(200)
    case 211 => Some(210)
    case 212 => Some(210)
    case 221 => Some(212)
    case 230 => Some(200)
    case 231 => Some(201)
    case 232 => Some(202)
    case 301 => Some(300)
    case 302 => Some(300)
    case 310 => Some(300)
    case 311 => Some(310)
    case 312 => Some(311)
    case 313 => Some(313)
    case 314 => Some(313)
    case 321 => Some(301)
    case 501 => Some(500)
    case 502 => Some(501)
    case 503 => Some(502)
    case 504 => Some(503)
    case 510 => Some(500)
    case 511 => Some(501)
    case 520 => Some(500)
    case 521 => Some(501)
    case 522 => Some(503)
    case 531 => Some(503)
    case 601 => Some(600)
    case 602 => Some(601)
    case 603 => Some(602)
    case 611 => Some(601)
    case 612 => Some(600)
    case 613 => Some(601)
    case 615 => Some(600)
    case 616 => Some(601)
    case 620 => Some(600)
    case 621 => Some(601)
    case 622 => Some(602)
    case 711 => Some(701)
    case 721 => Some(701)
    case 731 => Some(701)
    case 741 => Some(701)
    case 751 => Some(731)
    case 761 => Some(731)
    case 762 => Some(731)
    case 771 => Some(701)
    case 781 => Some(771)
    case 801 => Some(800)
    case 802 => Some(801)
    case 803 => Some(802)
    case 804 => Some(803)
    case _ => None
  }

  /** The two versions of the table: as written, and with 313 falling back to 312. */
  datatype Table = AsWritten | Corrected

  /** The next code along the fallback chain; None is an undefined lookup. */
  function Next(t: Table, code: int): (r: Option<int>)
  {
    if t.Corrected? && code == 313 then Some(312) else AsWrittenFallback(code)
  }

  /** An icon set holds every code the table falls back to that has no fallback of its own. */
  ghost predicate HasBaseCodes(t: Table, m: map<int, int>)
  {
    forall k :: Next(t, k).Some? && Next(t, Next(t, k).value).None? ==> Next(t, k).value in m
  }

  // ---------------------------------------------------------------------
  // fillIconMap
  // ---------------------------------------------------------------------

  /** The leading decimal digits of s. */
  function DigitPrefix(s: string): (p: string)
    ensures |p| <= |s| && p == s[..|p|] && AllDigits(p)
    ensures |p| < |s| ==> !IsDigit(s[|p|])
  {
    if s == [] || !IsDigit(s[0]) then [] else [s[0]] + DigitPrefix(s[1..])
  }

  /** The text after an optional leading '+' or '-'. */
  function Unsigned(t: string): (u: string)
    ensures u == t || (t != [] && (t[0] == '+' || t[0] == '-') && u == t[1..])
  {
    if t != [] && (t[0] == '+' || t[0] == '-') then t[1..] else t
  }

  /** The digits parseInt reads: after the leading blanks and an optional sign. */
  function Magnitude(s: string): (r: string)
  {
    DigitPrefix(Unsigned(TrimStart(s)))
  }

  /** Whether the first character after the leading blanks is '-'. */
  predicate Negative(s: string)
  {
    var t := TrimStart(s);
    t != [] && t[0] == '-'
  }

  /**
   * parseInt(s, 10): leading white space is skipped, one sign is read,
   * then the leading decimal digits; None is NaN (no digit after them).
   */
  function ParseInt(s: string): (r: Option<int>)
    ensures r.Some? <==> Magnitude(s) != []
    ensures r.Some? ==> r.value == if Negative(s) then -(ParseDigits(Magnitude(s)) as int) else ParseDigits(Magnitude(s))
  {
    var p := Magnitude(s);
    if p == [] then None
    else if Negative(s) then Some(-(ParseDigits(p) as int))
    else Some(ParseDigits(p))
  }

  lemma DigitNotSpace(c: char)
    requires IsDigit(c)
    ensures !IsSpace(c) && c != '+' && c != '-'
  {
  }

  /** A text starting with a digit is read as its leading digits. */
  lemma ParseIntOfDigits(s: string)
    requires s != [] && IsDigit(s[0])
    ensures ParseInt(s) == Some(ParseDigits(DigitPrefix(s)))
  {
    DigitNotSpace(s[0]);
    assert TrimStart(s) == s;
    assert Unsigned(s) == s;
  }

  /** The leading digits of digits followed by a non-digit are those digits. */
  lemma {:induction false} DigitPrefixThen(digits: string, rest: string)
    requires AllDigits(digits) && (rest == [] || !IsDigit(rest[0]))
    ensures DigitPrefix(digits + rest) == digits
  {
    if digits != [] {
      assert (digits + rest)[1..] == digits[1..] + rest;
      DigitPrefixThen(digits[1..], rest);
    }
  }

  /** Digits followed by a non-digit are read as those digits. */
  lemma ParseIntOfDigitsThen(digits: string, rest: string)
    requires digits != [] && AllDigits(digits) && (rest == [] || !IsDigit(rest[0]))
    ensures ParseInt(digits + rest) == Some(ParseDigits(digits))
  {
    ParseIntOfDigits(digits + rest);
    DigitPrefixThen(digits, rest);
  }

  /** A minus sign after leading blanks negates the digits: "-12" gives -12 and " -12" too. */
  lemma ParseIntNegative(blanks: string, digits: string)
    requires AllSpace(blanks) && digits != [] && AllDigits(digits)
    ensures ParseInt(blanks + "-" + digits) == Some(-(ParseDigits(digits) as int))
  {
    var t := "-" + digits;
    var s := blanks + "-" + digits;
    assert s == blanks + t;
    assert !IsSpace(t[0]);
    TrimStartSpaces(blanks, t);
    NegativeParse(s, digits);
  }

  /** Text whose blanks are followed by '-' and digits reads as the negated digits. */
  lemma NegativeParse(s: string, digits: string)
    requires TrimStart(s) == "-" + digits && digits != [] && AllDigits(digits)
    ensures ParseInt(s) == Some(-(ParseDigits(digits) as int))
  {
    var t := "-" + digits;
    assert t[1..] == digits;
    assert Unsigned(t) == digits;
    DigitsPrefixAll(digits);
    assert Magnitude(s) == digits;
  }

  /** Leading blanks are skipped: " 7" gives 7. */
  lemma ParseIntBlanks(blanks: string, digits: string)
    requires AllSpace(blanks) && digits != [] && AllDigits(digits)
    ensures ParseInt(blanks + digits) == Some(ParseDigits(digits))
  {
    DigitNotSpace(digits[0]);
    TrimStartSpaces(blanks, digits);
    assert Unsigned(digits) == digits;
    DigitsPrefixAll(digits);
  }

  lemma {:induction false} DigitsPrefixAll(digits: string)
    requires AllDigits(digits)
    ensures DigitPrefix(digits) == digits
  {
    if digits != [] {
      DigitsPrefixAll(digits[1..]);
    }
  }

  /** s.slice(0, -n): s without its last n characters, empty when shorter. */
  function DropLast(s: string, n: nat): (r: string)
    ensures |r| == if |s| < n then 0 else |s| - n
    ensures r == s[..|r|]
  {
    if |s| < n then [] else s[..|s| - n]
  }

  /** The file name without its four-character extension. */
  function Stem(name: string): (r: string)
    ensures |name| >= 4 ==> r == name[..|name| - 4]
    ensures |name| < 4 ==> r == []
  {
    DropLast(name, 4)
  }

  /** The code a plain file name (a three-character stem) stands for. */
  function PlainCode(name: string): (r: Option<int>)
    ensures r.Some? ==> |Stem(name)| == 3
  {
    if |Stem(name)| == 3 then ParseInt(Stem(name)) else None
  }

  /** The code a day/night file name (any other stem, suffix dropped) stands for. */
  function SuffixedCode(name: string): (r: Option<int>)
    ensures r.Some? ==> |Stem(name)| != 3
  {
    if |Stem(name)| == 3 then None else ParseInt(DropLast(Stem(name), 1))
  }

  /** The code a file name stands for, either way. */
  function CodeOf(name: string): (r: Option<int>)
  {
    if |Stem(name)| == 3 then PlainCode(name) else SuffixedCode(name)
  }

  /**
   * One step of the reduction: a plain name marks its code 0 (one icon
   * for day and night), a suffixed name marks it 1 unless it is already
   * there. Names that do not parse land on the NaN key, which no lookup
   * reaches, and are not represented.
   */
  function FillStep(acc: map<int, int>, name: string): (r: map<int, int>)
    ensures acc.Keys <= r.Keys
    ensures forall k :: k in r && k !in acc ==> CodeOf(name) == Some(k)
    ensures forall k :: k in acc && k in r && r[k] != acc[k] ==> r[k] == 0
  {
    if |Stem(name)| == 3 then
      match PlainCode(name)
      case Some(id) => acc[id := 0]
      case None => acc
    else
      match SuffixedCode(name)
      case Some(id) => if id in acc then acc else acc[id := 1]
      case None => acc
  }

  /** The map fillIconMap leaves behind for the directory entries names. */
  function IconMap(names: seq<string>): (r: map<int, int>)
    ensures forall id :: id in r ==> r[id] == 0 || r[id] == 1
  {
    if names == [] then map[] else FillStep(IconMap(names[..|names| - 1]), names[|names| - 1])
  }

  /** Some directory entry stands for code id. */
  predicate NamesCode(names: seq<string>, id: int)
  {
    names != [] && (NamesCode(names[..|names| - 1], id) || CodeOf(names[|names| - 1]) == Some(id))
  }

  /** Some plain directory entry stands for code id. */
  predicate NamesPlain(names: seq<string>, id: int)
  {
    names != [] && (NamesPlain(names[..|names| - 1], id) || PlainCode(names[|names| - 1]) == Some(id))
  }

  /** A plain entry stands for its code. */
  lemma {:induction false} PlainNamesCode(names: seq<string>, id: int)
    requires NamesPlain(names, id)
    ensures NamesCode(names, id)
  {
    if PlainCode(names[|names| - 1]) != Some(id) {
      PlainNamesCode(names[..|names| - 1], id);
    }
  }

  /** The map holds the codes the names stand for; 0 marks a plain name, 1 day/night names only. */
  ghost predicate DescribesNames(m: map<int, int>, names: seq<string>)
  {
    (forall id :: id in m <==> NamesCode(names, id)) &&
    (forall id :: id in m ==> (m[id] == 0 <==> NamesPlain(names, id))) &&
    (forall id :: id in m ==> m[id] == 0 || m[id] == 1)
  }

  lemma {:induction false} IconMapKeys(names: seq<string>, id: int)
    ensures id in IconMap(names) <==> NamesCode(names, id)
  {
    if names != [] {
      IconMapKeys(names[..|names| - 1], id);
    }
  }

  lemma {:induction false} IconMapValues(names: seq<string>, id: int)
    requires id in IconMap(names)
    ensures IconMap(names)[id] == 0 || IconMap(names)[id] == 1
    ensures IconMap(names)[id] == 0 <==> NamesPlain(names, id)
  {
    var init := names[..|names| - 1];
    var last := names[|names| - 1];
    if PlainCode(last) == Some(id) {
    } else if id !in IconMap(init) {
      IconMapKeys(init, id);
      if NamesPlain(init, id) {
        PlainNamesCode(init, id);
      }
    } else {
      IconMapValues(init, id);
    }
  }

  lemma IconMapDescribesNames(names: seq<string>)
    ensures DescribesNames(IconMap(names), names)
  {
    forall id
      ensures id in IconMap(names) <==> NamesCode(names, id)
    {
      IconMapKeys(names, id);
    }
    forall id | id in IconMap(names)
      ensures IconMap(names)[id] == 0 || IconMap(names)[id] == 1
      ensures IconMap(names)[id] == 0 <==> NamesPlain(names, id)
    {
      IconMapValues(names, id);
    }
  }

  /** fillIconMap: the map is cleared, then every directory entry is folded in, in order. */
  method FillIconMap(names: seq<string>) returns (acc: map<int, int>)
    ensures acc == IconMap(names)
    ensures DescribesNames(acc, names)
  {
    acc := map[];
    var i := 0;
    while i < |names|
      invariant 0 <= i <= |names|
      invariant acc == IconMap(names[..i])
    {
      assert names[..i + 1][..i] == names[..i];
      acc := FillStep(acc, names[i]);
      i := i + 1;
    }
    assert names[..i] == names;
    IconMapDescribesNames(names);
  }

  // ---------------------------------------------------------------------
  // getIcon
  // ---------------------------------------------------------------------

  /**
   * The first code along the fallback chain from id that the icon set
   * holds, looking at most fuel steps ahead; None when the chain leaves
   * the table (where the source loops for ever on undefined) or the
   * fuel runs out.
   */
  function Resolve(t: Table, m: map<int, int>, id: int, fuel: nat): (r: Option<int>)
    ensures r.Some? ==> r.value in m
    ensures id in m ==> r == Some(id)
    decreases fuel
  {
    if id in m then Some(id)
    else if fuel == 0 || Next(t, id).None? then None
    else Resolve(t, m, Next(t, id).value, fuel - 1)
  }

  /**
   * The while loop of getIcon: from the requested code, follow the
   * fallback table until the set has an icon for the code.
   */
  method FollowFallbacks(m: map<int, int>, id: int, ghost steps: nat) returns (code: int)
    requires Resolve(AsWritten, m, id, steps).Some?
    ensures Resolve(AsWritten, m, id, steps) == Some(code) && code in m
  {
    code := id;
    ghost var fuel := steps;
    while code !in m
      invariant Resolve(AsWritten, m, code, fuel) == Resolve(AsWritten, m, id, steps)
      invariant Resolve(AsWritten, m, code, fuel).Some?
      decreases fuel
    {
      ResolveStep(AsWritten, m, code, fuel);
      code := Next(AsWritten, code).value;
      fuel := fuel - 1;
    }
  }

  /** A code without an icon that resolves does so through its fallback, one step less far. */
  lemma ResolveStep(t: Table, m: map<int, int>, id: int, fuel: nat)
    requires id !in m && Resolve(t, m, id, fuel).Some?
    ensures fuel > 0 && Next(t, id).Some?
    ensures Resolve(t, m, Next(t, id).value, fuel - 1) == Resolve(t, m, id, fuel)
  {
  }

  /** Looking further ahead finds the same code. */
  lemma {:induction false} ResolveStable(t: Table, m: map<int, int>, id: int, fuel: nat, more: nat)
    requires Resolve(t, m, id, fuel).Some? && fuel <= more
    ensures Resolve(t, m, id, more) == Resolve(t, m, id, fuel)
    decreases fuel
  {
    if id !in m {
      ResolveStable(t, m, Next(t, id).value, fuel - 1, more - 1);
    }
  }

  /** Every entry of the corrected table falls back to a smaller code. */
  lemma CorrectedDecreases(k: int)
    requires Next(Corrected, k).Some?
    ensures 200 <= Next(Corrected, k).value < k
  {
  }

  /** With the corrected table, any set holding the base codes resolves every known code. */
  lemma {:induction false} ResolvesWithBaseCodes(m: map<int, int>, id: int)
    requires HasBaseCodes(Corrected, m)
    requires id in m || Next(Corrected, id).Some?
    requires id >= 0
    ensures Resolve(Corrected, m, id, id).Some?
    decreases id
  {
    if id !in m {
      CorrectedDecreases(id);
      var next := Next(Corrected, id).value;
      if next !in m {
        ResolvesWithBaseCodes(m, next);
        ResolveStable(Corrected, m, next, next, id - 1);
      }
    }
  }

  /** Every entry of the table as written but 313's falls back to a smaller code, and only 314 falls back to 313. */
  lemma AsWrittenDecreases(k: int)
    requires Next(AsWritten, k).Some? && k != 313
    ensures 200 <= Next(AsWritten, k).value < k
    ensures Next(AsWritten, k).value == 313 <==> k == 314
    ensures Next(AsWritten, k).value != 314
  {
  }

  /**
   * With the table as written, any set holding the base codes resolves
   * every known code whose chain does not pass through 313, that is every
   * code but 313 and 314, and those two as well once the set holds 313.
   */
  lemma {:induction false} AsWrittenResolvesWithBaseCodes(m: map<int, int>, id: int)
    requires HasBaseCodes(AsWritten, m)
    requires id in m || Next(AsWritten, id).Some?
    requires 313 in m || (id != 313 && id != 314)
    requires id >= 0
    ensures Resolve(AsWritten, m, id, id).Some?
    decreases id
  {
    if id !in m {
      AsWrittenDecreases(id);
      var next := Next(AsWritten, id).value;
      if next !in m {
        AsWrittenResolvesWithBaseCodes(m, next);
        ResolveStable(AsWritten, m, next, next, id - 1);
      }
    }
  }

  /** The icon set of the base codes alone, each with a day and a night icon. */
  const BaseCodesOnly: map<int, int> :=
    map[200 := 1, 210 := 1, 300 := 1, 500 := 1, 600 := 1, 701 := 1, 800 := 1]

  /** With the table as written, code 313 never resolves unless the set holds 313 itself. */
  lemma {:induction false} AsWrittenSelfLoop(m: map<int, int>, fuel: nat)
    requires 313 !in m
    ensures Resolve(AsWritten, m, 313, fuel) == None
  {
    if fuel > 0 {
      AsWrittenSelfLoop(m, fuel - 1);
    }
  }

  /** Where the table as written ends a chain after one step, it ends on one of the seven base codes. */
  lemma AsWrittenBaseCode(k: int)
    ensures Next(AsWritten, k).Some? && Next(AsWritten, Next(AsWritten, k).value).None?
      ==> Next(AsWritten, k).value in BaseCodesOnly
  {
  }

  /** A set holding every base code of the table as written still leaves 313 unresolved. */
  lemma AsWrittenLoopsOn313()
    ensures HasBaseCodes(AsWritten, BaseCodesOnly)
    ensures Next(AsWritten, 313) == Some(313) && 313 !in BaseCodesOnly
    ensures forall fuel: nat :: Resolve(AsWritten, BaseCodesOnly, 313, fuel) == None
  {
    forall k
      ensures Next(AsWritten, k).Some? && Next(AsWritten, Next(AsWritten, k).value).None?
        ==> Next(AsWritten, k).value in BaseCodesOnly
    {
      AsWrittenBaseCode(k);
    }
    forall fuel: nat
      ensures Resolve(AsWritten, BaseCodesOnly, 313, fuel) == None
    {
      AsWrittenSelfLoop(BaseCodesOnly, fuel);
    }
  }

  /**
   * A code the set has no icon for and the table has no entry for: the
   * loop reads `WEATHER_CODE_MAPPING.get` as undefined and never reaches
   * an icon, for every bound on its steps.
   */
  lemma AsWrittenLoopsWithoutFallback(m: map<int, int>, id: int)
    requires id !in m && Next(AsWritten, id).None?
    ensures forall fuel: nat :: Resolve(AsWritten, m, id, fuel) == None
  {
    forall fuel: nat
      ensures Resolve(AsWritten, m, id, fuel) == None
    {
    }
  }

  /** `${iconId}${isDay ? 1 : 0}${animated ? 1 : 0}`. */
  function CacheKey(iconId: Option<int>, isDay: bool, animated: bool): (r: string)
    ensures |r| >= 3
    ensures r[|r| - 2] == (if isDay then '1' else '0') && r[|r| - 1] == (if animated then '1' else '0')
  {
    (match iconId case Some(id) => IntToString(id) case None => "undefined") +
    (if isDay then "1" else "0") + (if animated then "1" else "0")
  }

  /** The icon name of a resolved code: a d/n suffix when the set has day and night icons. */
  function IconName(m: map<int, int>, code: int, isDay: bool): (r: string)
    requires code in m
    ensures IntToString(code) <= r && |r| <= |IntToString(code)| + 1
  {
    IntToString(code) + (if m[code] == 1 then (if isDay then "d" else "n") else "")
  }

  lemma LastOfIntToString(i: int)
    ensures IsDigit(IntToString(i)[|IntToString(i)| - 1])
  {
    if i < 0 {
      assert IntToString(i)[|IntToString(i)| - 1] == NatToString(-i)[|NatToString(-i)| - 1];
    }
  }

  /** The name ends in d or n exactly when the icon set has separate day and night icons. */
  lemma IconNameSuffix(m: map<int, int>, code: int, isDay: bool)
    requires code in m
    ensures var s := IconName(m, code, isDay);
      s != [] &&
      (m[code] == 1 <==> s[|s| - 1] == 'd' || s[|s| - 1] == 'n') &&
      (m[code] == 1 ==> s[|s| - 1] == (if isDay then 'd' else 'n')) &&
      (m[code] != 1 ==> s == IntToString(code))
  {
    LastOfIntToString(code);
  }

  /** A cached name the lookup returns straight away (it is truthy). */
  predicate CacheHit(cache: map<string, string>, key: string)
  {
    key in cache && cache[key] != ""
  }

  /** Once a name is stored, the next lookup under the same key returns it. */
  lemma StoredNameHits(cache: map<string, string>, m: map<int, int>, iconId: int, isDay: bool, animated: bool)
    requires iconId in m
    ensures var key := CacheKey(Some(iconId), isDay, animated);
      CacheHit(cache[key := IconName(m, iconId, isDay)], key)
  {
  }

  class IconService {
    /** The chosen icon set (setting icon_set, 'meteocons' by default). */
    var iconSet: string
    /** Codes with a still image: 0 for one icon, 1 for day and night icons. */
    var images: map<int, int>
    /** Codes with an animation, in the same form. */
    var lotties: map<int, int>
    /** Resolved icon names by CacheKey. */
    var mappingCache: map<string, string>

    /** The table getIcon consults. */
    function MapIds(animated: bool): (r: map<int, int>)
      reads this
    {
      if animated then lotties else images
    }

    /** The directory listings of the set's images and lottie folders are parameters. */
    constructor (setting: Option<string>, imageNames: seq<string>, lottieNames: seq<string>)
      ensures iconSet == (if setting.Some? then setting.value else "meteocons")
      ensures images == IconMap(imageNames) && lotties == IconMap(lottieNames)
      ensures mappingCache == map[]
    {
      iconSet := if setting.Some? then setting.value else "meteocons";
      images := IconMap(imageNames);
      lotties := IconMap(lottieNames);
      mappingCache := map[];
    }

    /** load: read the setting, refill both tables from the chosen set, clear the cache. */
    method Load(setting: Option<string>, imageNames: seq<string>, lottieNames: seq<string>)
      modifies this
      ensures iconSet == (if setting.Some? then setting.value else "meteocons")
      ensures images == IconMap(imageNames) && DescribesNames(images, imageNames)
      ensures lotties == IconMap(lottieNames) && DescribesNames(lotties, lottieNames)
      ensures mappingCache == map[]
    {
      iconSet := if setting.Some? then setting.value else "meteocons";
      images := FillIconMap(imageNames);
      lotties := FillIconMap(lottieNames);
      mappingCache := map[];
    }

    /**
     * getIcon. A cached name is returned as is; an undefined code gives
     * null; otherwise the code falls back along the table until the set
     * has an icon for it, which the caller must guarantee within steps.
     */
    method GetIcon(iconId: Option<int>, isDay: bool, animated: bool, ghost steps: nat) returns (r: Option<string>)
      requires iconId.Some? && !CacheHit(mappingCache, CacheKey(iconId, isDay, animated)) ==>
        Resolve(AsWritten, MapIds(animated), iconId.value, steps).Some?
      modifies this`mappingCache
      ensures var key := CacheKey(iconId, isDay, animated);
        if CacheHit(old(mappingCache), key) then
          r == Some(old(mappingCache)[key]) && mappingCache == old(mappingCache)
        else if iconId.None? then
          r == None && mappingCache == old(mappingCache)
        else
          var code := Resolve(AsWritten, MapIds(animated), iconId.value, steps).value;
          r == Some(IconName(MapIds(animated), code, isDay)) &&
          mappingCache == old(mappingCache)[key := r.value]
      ensures r.Some? ==> CacheHit(mappingCache, CacheKey(iconId, isDay, animated))
    {
      var key := CacheKey(iconId, isDay, animated);
      if key in mappingCache && mappingCache[key] != "" {
        return Some(mappingCache[key]);
      }
      if iconId.None? {
        return None;
      }
      var mapIds := if animated then lotties else images;
      var realIconId := FollowFallbacks(mapIds, iconId.value, steps);
      var name := IconName(mapIds, realIconId, isDay);
      IconNameSuffix(mapIds, realIconId, isDay);
      mappingCache := mappingCache[key := name];
      r := Some(name);
    }
  }
}
