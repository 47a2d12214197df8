/**
 * String helpers with the semantics of the JavaScript built-ins the app uses
 * (String.prototype.trim, split, replace with a global literal pattern,
 * Array.prototype.join, Number.prototype.toString and toFixed).
 * Strings are sequences of UTF-16-agnostic characters; case mapping covers
 * ASCII letters only.
 */
module Strings {

  /** The characters JavaScript's trim() and the regular expression \s treat as white space. */
  predicate IsSpace(c: char)
  {
    c == ' ' || c == '\t' || c == '\n' || c == '\r' || c == '\U{B}' || c == '\U{C}'
    || c == '\U{A0}' || c == '\U{1680}' || ('\U{2000}' <= c <= '\U{200A}')
    || c == '\U{2028}' || c == '\U{2029}' || c == '\U{202F}' || c == '\U{205F}'
    || c == '\U{3000}' || c == '\U{FEFF}'
  }

  predicate IsDigit(c: char) { '0' <= c <= '9' }

  predicate IsAsciiLetter(c: char) { 'a' <= c <= 'z' || 'A' <= c <= 'Z' }

  /** The class [a-zA-Z0-9_] of regular expressions. */
  predicate IsWordChar(c: char) { IsAsciiLetter(c) || IsDigit(c) || c == '_' }

  predicate AllDigits(s: string) { forall i :: 0 <= i < |s| ==> IsDigit(s[i]) }

  function TrimStart(s: string): (r: string)
    ensures |r| <= |s| && r == s[|s| - |r|..]
    ensures r == [] || !IsSpace(r[0])
    ensures forall i :: 0 <= i < |s| - |r| ==> IsSpace(s[i])
  {
    if s == [] || !IsSpace(s[0]) then s else TrimStart(s[1..])
  }

  function TrimEnd(s: string): (r: string)
    ensures |r| <= |s| && r == s[..|r|]
    ensures r == [] || !IsSpace(r[|r| - 1])
    ensures forall i :: |r| <= i < |s| ==> IsSpace(s[i])
  {
    if s == [] || !IsSpace(s[|s| - 1]) then s else TrimEnd(s[..|s| - 1])
  }

  /** String.prototype.trim: the longest infix without leading or trailing white space. */
  function Trim(s: string): (r: string)
    ensures r == [] || (!IsSpace(r[0]) && !IsSpace(r[|r| - 1]))
    ensures |r| <= |s|
  {
    var t := TrimStart(s);
    TrimEnd(t)
  }

  lemma TrimIdempotent(s: string)
    ensures Trim(Trim(s)) == Trim(s)
  {
    var r := Trim(s);
    assert TrimStart(r) == r;
    assert TrimEnd(r) == r;
  }

  /** A string that neither starts nor ends with white space is its own trim. */
  lemma TrimFixed(s: string)
    requires s == [] || (!IsSpace(s[0]) && !IsSpace(s[|s| - 1]))
    ensures Trim(s) == s
  {
    assert TrimStart(s) == s;
    assert TrimEnd(s) == s;
  }

  /** Neither starts nor ends with white space. */
  predicate Trimmed(s: string)
  {
    s == [] || (!IsSpace(s[0]) && !IsSpace(s[|s| - 1]))
  }

  lemma TrimmedIff(s: string)
    ensures Trim(s) == s <==> Trimmed(s)
  {
    if Trimmed(s) {
      TrimFixed(s);
    }
  }

  /** Putting a trimmed text after a non-empty trimmed text keeps the whole trimmed. */
  lemma TrimmedConcat(a: string, p: string)
    requires a != [] && Trimmed(a) && Trimmed(p)
    ensures Trimmed(a + p)
  {
    var s := a + p;
    assert s[0] == a[0];
    if p != [] {
      assert s[|s| - 1] == p[|p| - 1];
    }
  }

  function LowerChar(c: char): (r: char)
  {
    if 'A' <= c <= 'Z' then (c as int + 32) as char else c
  }

  /** The replacement of every run of white space by one '_' (a global /\\s+/ replace). */
  function SpaceRunsToUnderscore(s: string): (r: string)
    ensures |r| <= |s|
    decreases |s|
  {
    if s == [] then []
    else if IsSpace(s[0]) then "_" + SpaceRunsToUnderscore(TrimStart(s[1..]))
    else [s[0]] + SpaceRunsToUnderscore(s[1..])
  }

  predicate NoSpace(s: string)
  {
    forall i :: 0 <= i < |s| ==> !IsSpace(s[i])
  }

  lemma NoSpaceCons(c: char, t: string)
    requires !IsSpace(c) && NoSpace(t)
    ensures NoSpace([c] + t)
  {
    var u := [c] + t;
    assert forall i :: 0 < i < |u| ==> u[i] == t[i - 1];
  }

  /** No white space is left after the replacement. */
  lemma {:induction false} SpaceRunsNoSpace(s: string)
    ensures NoSpace(SpaceRunsToUnderscore(s))
    decreases |s|
  {
    if s == [] {
    } else if IsSpace(s[0]) {
      var rest := TrimStart(s[1..]);
      SpaceRunsNoSpace(rest);
      NoSpaceCons('_', SpaceRunsToUnderscore(rest));
    } else {
      SpaceRunsNoSpace(s[1..]);
      NoSpaceCons(s[0], SpaceRunsToUnderscore(s[1..]));
    }
  }

  /** A text without white space is left as it is. */
  lemma {:induction false} SpaceRunsIdentity(s: string)
    ensures NoSpace(s) ==> SpaceRunsToUnderscore(s) == s
    decreases |s|
  {
    if s != [] && NoSpace(s) {
      var rest := s[1..];
      assert NoSpace(rest) by {
        assert forall i :: 0 <= i < |rest| ==> rest[i] == s[i + 1];
      }
      SpaceRunsIdentity(rest);
      assert s == [s[0]] + rest;
    }
  }

  predicate AllSpace(s: string)
  {
    forall i :: 0 <= i < |s| ==> IsSpace(s[i])
  }

  /** Leading white space is only looked for up to the first other character. */
  lemma {:induction false} TrimStartAppend(x: string, y: string)
    requires x != [] && !IsSpace(x[|x| - 1])
    ensures TrimStart(x + y) == TrimStart(x) + y
    decreases |x|
  {
    if IsSpace(x[0]) {
      assert (x + y)[1..] == x[1..] + y;
      TrimStartAppend(x[1..], y);
    }
  }

  lemma {:induction false} TrimStartSpaces(w: string, b: string)
    requires AllSpace(w) && (b == [] || !IsSpace(b[0]))
    ensures TrimStart(w + b) == b
    decreases |w|
  {
    if w == [] {
      assert w + b == b;
    } else {
      assert (w + b)[1..] == w[1..] + b;
      TrimStartSpaces(w[1..], b);
    }
  }

  lemma SpaceRunsSpaceHead(c: char, x: string)
    requires IsSpace(c)
    ensures SpaceRunsToUnderscore([c] + x) == "_" + SpaceRunsToUnderscore(TrimStart(x))
  {
    assert ([c] + x)[1..] == x;
  }

  lemma SpaceRunsCharHead(c: char, x: string)
    requires !IsSpace(c)
    ensures SpaceRunsToUnderscore([c] + x) == [c] + SpaceRunsToUnderscore(x)
  {
    assert ([c] + x)[1..] == x;
  }

  /**
   * One run of white space between two texts that do not touch it with white
   * space of their own becomes exactly one '_', and the texts on either side
   * are replaced on their own.
   */
  lemma {:induction false} SpaceRunsJoin(a: string, w: string, b: string)
    requires a == [] || !IsSpace(a[|a| - 1])
    requires w != [] && AllSpace(w)
    requires b == [] || !IsSpace(b[0])
    ensures SpaceRunsToUnderscore(a + w + b) == SpaceRunsToUnderscore(a) + "_" + SpaceRunsToUnderscore(b)
    decreases |a|, 1
  {
    if a == [] {
      SpaceRunsJoinAtStart(w, b);
      assert a + w + b == w + b;
      EmptyJoin(SpaceRunsToUnderscore(a), SpaceRunsToUnderscore(b));
    } else if IsSpace(a[0]) {
      SpaceRunsJoinAfterSpace(a, w, b);
    } else {
      SpaceRunsJoinAfterChar(a, w, b);
    }
  }

  lemma JoinRegroup(p: string, x: string, y: string)
    ensures p + (x + "_" + y) == (p + x) + "_" + y
  {
  }

  lemma ConcatAssoc(x: string, y: string, z: string)
    ensures x + y + z == x + (y + z)
  {
  }

  lemma ConsRegroup(x: string, y: string, z: string)
    requires x != []
    ensures x + y + z == [x[0]] + (x[1..] + (y + z))
  {
    assert x == [x[0]] + x[1..];
  }

  lemma EmptyJoin(e: string, y: string)
    requires e == []
    ensures e + "_" + y == "_" + y
  {
  }

  lemma SpaceRunsJoinAtStart(w: string, b: string)
    requires w != [] && AllSpace(w)
    requires b == [] || !IsSpace(b[0])
    ensures SpaceRunsToUnderscore(w + b) == "_" + SpaceRunsToUnderscore(b)
  {
    assert w + b == [w[0]] + (w[1..] + b);
    SpaceRunsSpaceHead(w[0], w[1..] + b);
    TrimStartSpaces(w[1..], b);
  }

  lemma TrimStartKeepsLast(x: string)
    requires x != [] && !IsSpace(x[|x| - 1])
    ensures TrimStart(x) != [] && TrimStart(x)[|TrimStart(x)| - 1] == x[|x| - 1]
  {
  }

  /** A text starting with white space: the run becomes '_' and the rest follows. */
  lemma SpaceRunsAfterLeadingSpace(a: string, rest: string)
    requires a != [] && IsSpace(a[0]) && !IsSpace(a[|a| - 1])
    ensures SpaceRunsToUnderscore(a + rest) == "_" + SpaceRunsToUnderscore(TrimStart(a[1..]) + rest)
  {
    var tail := a[1..];
    assert a + rest == [a[0]] + (tail + rest) by {
      assert a == [a[0]] + tail;
    }
    SpaceRunsSpaceHead(a[0], tail + rest);
    assert tail[|tail| - 1] == a[|a| - 1];
    TrimStartAppend(tail, rest);
  }

  lemma {:induction false} SpaceRunsJoinAfterSpace(a: string, w: string, b: string)
    requires a != [] && IsSpace(a[0]) && !IsSpace(a[|a| - 1])
    requires w != [] && AllSpace(w)
    requires b == [] || !IsSpace(b[0])
    ensures SpaceRunsToUnderscore(a + w + b) == SpaceRunsToUnderscore(a) + "_" + SpaceRunsToUnderscore(b)
    decreases |a|, 0
  {
    var tail := a[1..];
    assert tail[|tail| - 1] == a[|a| - 1];
    TrimStartKeepsLast(tail);
    var a1 := TrimStart(tail);
    ConcatAssoc(a, w, b);
    SpaceRunsAfterLeadingSpace(a, w + b);
    ConcatAssoc(a1, w, b);
    SpaceRunsJoin(a1, w, b);
    assert a + [] == a;
    SpaceRunsAfterLeadingSpace(a, []);
    assert a1 + [] == a1;
    JoinRegroup("_", SpaceRunsToUnderscore(a1), SpaceRunsToUnderscore(b));
  }

  lemma {:induction false} SpaceRunsJoinAfterChar(a: string, w: string, b: string)
    requires a != [] && !IsSpace(a[0]) && !IsSpace(a[|a| - 1])
    requires w != [] && AllSpace(w)
    requires b == [] || !IsSpace(b[0])
    ensures SpaceRunsToUnderscore(a + w + b) == SpaceRunsToUnderscore(a) + "_" + SpaceRunsToUnderscore(b)
    decreases |a|, 0
  {
    var tail := a[1..];
    assert a + w + b == [a[0]] + (tail + w + b);
    assert a == [a[0]] + tail;
    SpaceRunsCharHead(a[0], tail + w + b);
    SpaceRunsCharHead(a[0], tail);
    SpaceRunsJoin(tail, w, b);
    JoinRegroup([a[0]], SpaceRunsToUnderscore(tail), SpaceRunsToUnderscore(b));
  }

  predicate IsLowerCase(s: string)
  {
    forall i :: 0 <= i < |s| ==> LowerChar(s[i]) == s[i]
  }

  lemma LowerSuffix(s: string, k: nat)
    requires IsLowerCase(s) && k <= |s|
    ensures IsLowerCase(s[k..])
  {
    var t := s[k..];
    assert forall i :: 0 <= i < |t| ==> t[i] == s[k + i];
  }

  lemma LowerConcat(a: string, b: string)
    requires IsLowerCase(a) && IsLowerCase(b)
    ensures IsLowerCase(a + b)
  {
    var t := a + b;
    assert forall i :: 0 <= i < |t| ==> t[i] == if i < |a| then a[i] else b[i - |a|];
  }

  /** Replacing white space runs keeps text that is already lower case in lower case. */
  lemma {:induction false} SpaceRunsKeepLower(s: string)
    requires IsLowerCase(s)
    ensures IsLowerCase(SpaceRunsToUnderscore(s))
    decreases |s|
  {
    if s != [] {
      var rest := if IsSpace(s[0]) then TrimStart(s[1..]) else s[1..];
      LowerSuffix(s, |s| - |rest|);
      SpaceRunsKeepLower(rest);
      var head := if IsSpace(s[0]) then "_" else [s[0]];
      assert IsLowerCase(head) by {
        assert head[0] == '_' || head[0] == s[0];
      }
      LowerConcat(head, SpaceRunsToUnderscore(rest));
    }
  }

  function UpperChar(c: char): (r: char)
  {
    if 'a' <= c <= 'z' then (c as int - 32) as char else c
  }

  function Lower(s: string): (r: string)
    ensures |r| == |s| && forall i :: 0 <= i < |s| ==> r[i] == LowerChar(s[i])
  {
    seq(|s|, i requires 0 <= i < |s| => LowerChar(s[i]))
  }

  function Upper(s: string): (r: string)
    ensures |r| == |s| && forall i :: 0 <= i < |s| ==> r[i] == UpperChar(s[i])
  {
    seq(|s|, i requires 0 <= i < |s| => UpperChar(s[i]))
  }

  predicate Contains(s: string, sub: string)
  {
    sub <= s || (s != [] && Contains(s[1..], sub))
  }

  lemma ContainsAt(s: string, sub: string, i: nat)
    requires i <= |s| && sub <= s[i..]
    ensures Contains(s, sub)
  {
    if i > 0 {
      assert s[1..][i - 1..] == s[i..];
      ContainsAt(s[1..], sub, i - 1);
    }
  }

  predicate ContainsChar(s: string, c: char)
  {
    exists i :: 0 <= i < |s| && s[i] == c
  }

  /**
   * s.replace(/pat/g, rep) for a literal pattern: every leftmost,
   * non-overlapping occurrence of pat is replaced by rep.
   */
  function ReplaceAll(s: string, pat: string, rep: string): (r: string)
    requires pat != []
    decreases |s|
  {
    if s == [] then []
    else if pat <= s then rep + ReplaceAll(s[|pat|..], pat, rep)
    else [s[0]] + ReplaceAll(s[1..], pat, rep)
  }

  /** s.replace(/c/g, rep) for a single character. */
  function ReplaceChar(s: string, c: char, rep: string): (r: string)
  {
    if s == [] then []
    else (if s[0] == c then rep else [s[0]]) + ReplaceChar(s[1..], c, rep)
  }

  lemma ReplaceCharEqualsReplaceAll(s: string, c: char, rep: string)
    ensures ReplaceChar(s, c, rep) == ReplaceAll(s, [c], rep)
  {
  }

  lemma {:induction false} ReplaceCharFree(s: string, c: char, rep: string)
    requires !ContainsChar(rep, c)
    ensures !ContainsChar(ReplaceChar(s, c, rep), c)
  {
    if s != [] {
      ReplaceCharFree(s[1..], c, rep);
      var tail := ReplaceChar(s[1..], c, rep);
      var head: string := if s[0] == c then rep else [s[0]];
      assert ReplaceChar(s, c, rep) == head + tail;
      forall i | 0 <= i < |head + tail| ensures (head + tail)[i] != c {
        if i < |head| { assert (head + tail)[i] == head[i]; }
        else { assert (head + tail)[i] == tail[i - |head|]; }
      }
    }
  }

  lemma ReplaceCharSingle(c: char, x: char, rep: string)
    ensures ReplaceChar([c], x, rep) == if c == x then rep else [c]
  {
    assert [c][1..] == [];
    assert ReplaceChar([c], x, rep) == (if c == x then rep else [c]) + ReplaceChar([], x, rep);
  }

  /** Replacing a character distributes over concatenation. */
  lemma {:induction false} ReplaceCharAppend(a: string, b: string, c: char, rep: string)
    ensures ReplaceChar(a + b, c, rep) == ReplaceChar(a, c, rep) + ReplaceChar(b, c, rep)
  {
    if a != [] {
      ReplaceCharAppend(a[1..], b, c, rep);
      assert (a + b)[0] == a[0];
      assert (a + b)[1..] == a[1..] + b;
      var head: string := if a[0] == c then rep else [a[0]];
      assert ReplaceChar(a + b, c, rep) == head + ReplaceChar(a[1..] + b, c, rep);
      assert ReplaceChar(a, c, rep) == head + ReplaceChar(a[1..], c, rep);
    } else {
      assert a + b == b;
    }
  }

  /** A string without the character is left as it is. */
  lemma {:induction false} ReplaceCharAbsent(s: string, c: char, rep: string)
    requires !ContainsChar(s, c)
    ensures ReplaceChar(s, c, rep) == s
  {
    if s != [] {
      assert s[0] != c;
      ReplaceCharAbsent(s[1..], c, rep);
      assert s == [s[0]] + s[1..];
    }
  }

  /** A string without the pattern's first character is left as it is. */
  lemma {:induction false} ReplaceAllAbsent(s: string, pat: string, rep: string)
    requires pat != [] && !ContainsChar(s, pat[0])
    ensures ReplaceAll(s, pat, rep) == s
  {
    if s != [] {
      assert s[0] != pat[0];
      ReplaceAllAbsent(s[1..], pat, rep);
      assert s == [s[0]] + s[1..];
    }
  }

  /** Text without the pattern's first character passes through a replacement in front of the rest. */
  lemma {:induction false} ReplaceAllPlainPrefix(x: string, u: string, pat: string, rep: string)
    requires pat != [] && !ContainsChar(x, pat[0])
    ensures ReplaceAll(x + u, pat, rep) == x + ReplaceAll(u, pat, rep)
  {
    if x != [] {
      assert (x + u)[0] == x[0] != pat[0];
      assert (x + u)[1..] == x[1..] + u;
      ReplaceAllPlainPrefix(x[1..], u, pat, rep);
      assert x == [x[0]] + x[1..];
    } else {
      assert x + u == u;
    }
  }

  function Join(parts: seq<string>, sep: string): (r: string)
    ensures |parts| == 1 ==> r == parts[0]
    ensures parts == [] ==> r == []
  {
    if parts == [] then []
    else if |parts| == 1 then parts[0]
    else parts[0] + sep + Join(parts[1..], sep)
  }

  lemma JoinCons(p: string, rest: seq<string>, sep: string)
    requires rest != []
    ensures Join([p] + rest, sep) == p + sep + Join(rest, sep)
  {
    assert ([p] + rest)[1..] == rest;
  }

  /** s.split(sep) for a non-empty literal separator. */
  function Split(s: string, sep: string): (r: seq<string>)
    requires sep != []
    ensures |r| >= 1
    decreases |s|
  {
    if |s| < |sep| then [s]
    else if sep <= s then [""] + Split(s[|sep|..], sep)
    else
      var rest := Split(s[1..], sep);
      [[s[0]] + rest[0]] + rest[1..]
  }

  lemma {:induction false} SplitJoin(s: string, sep: string)
    requires sep != []
    ensures Join(Split(s, sep), sep) == s
    decreases |s|
  {
    if |s| < |sep| {
    } else if sep <= s {
      SplitJoin(s[|sep|..], sep);
      SplitJoinAtSeparator(s, sep);
    } else {
      SplitJoin(s[1..], sep);
      SplitJoinAtCharacter(s, sep);
    }
  }

  lemma SplitJoinAtSeparator(s: string, sep: string)
    requires sep != [] && |s| >= |sep| && sep <= s
    requires Join(Split(s[|sep|..], sep), sep) == s[|sep|..]
    ensures Join(Split(s, sep), sep) == s
  {
    var tail := s[|sep|..];
    calc {
      Join(Split(s, sep), sep);
      Join([""] + Split(tail, sep), sep);
      { JoinCons("", Split(tail, sep), sep); }
      "" + sep + Join(Split(tail, sep), sep);
      "" + sep + tail;
      { PrefixRest(s, sep); }
      s;
    }
  }

  lemma PrefixRest(s: string, p: string)
    requires p <= s
    ensures "" + p + s[|p|..] == s
  {
    assert s[..|p|] == p;
  }

  lemma SplitAtCharacter(s: string, sep: string)
    requires sep != [] && |s| >= |sep| && !(sep <= s)
    ensures Split(s, sep) == [[s[0]] + Split(s[1..], sep)[0]] + Split(s[1..], sep)[1..]
  {
  }

  lemma SplitJoinAtCharacter(s: string, sep: string)
    requires sep != [] && |s| >= |sep| && !(sep <= s)
    requires Join(Split(s[1..], sep), sep) == s[1..]
    ensures Join(Split(s, sep), sep) == s
  {
    SplitAtCharacter(s, sep);
    JoinRestAfterHead(s, Split(s[1..], sep), sep);
  }

  lemma JoinRestAfterHead(s: string, rest: seq<string>, sep: string)
    requires s != [] && |rest| >= 1 && Join(rest, sep) == s[1..]
    ensures Join([[s[0]] + rest[0]] + rest[1..], sep) == s
  {
    JoinExtendHead(s[0], rest, sep);
    assert [s[0]] + s[1..] == s;
  }

  /** Putting a character in front of the first part puts it in front of the joined text. */
  lemma JoinExtendHead(c: char, parts: seq<string>, sep: string)
    requires |parts| >= 1
    ensures Join([[c] + parts[0]] + parts[1..], sep) == [c] + Join(parts, sep)
  {
    if |parts| == 1 {
      assert [[c] + parts[0]] + parts[1..] == [[c] + parts[0]];
      return;
    }
    JoinCons([c] + parts[0], parts[1..], sep);
    JoinCons(parts[0], parts[1..], sep);
    assert [parts[0]] + parts[1..] == parts;
  }

  /** A string without the separator's first character does not split. */
  lemma {:induction false} SplitWithoutSeparatorStart(s: string, sep: string)
    requires sep != [] && !ContainsChar(s, sep[0])
    ensures Split(s, sep) == [s]
    decreases |s|
  {
    if |s| >= |sep| {
      assert s[0] != sep[0];
      SplitWithoutSeparatorStart(s[1..], sep);
      assert s == [s[0]] + s[1..];
    }
  }

  /** The first part of a split ends at the first separator. */
  lemma {:induction false} SplitAfterHead(head: string, rest: string, sep: string)
    requires sep != [] && !ContainsChar(head, sep[0])
    ensures Split(head + sep + rest, sep) == [head] + Split(rest, sep)
    decreases |head|
  {
    var s := head + sep + rest;
    if head == [] {
      assert s == sep + rest;
      assert sep <= s;
      assert s[|sep|..] == rest;
    } else {
      assert s[0] == head[0] && head[0] != sep[0];
      assert !(sep <= s);
      assert s[1..] == head[1..] + sep + rest;
      SplitAfterHead(head[1..], rest, sep);
      assert [head[0]] + head[1..] == head;
    }
  }

  /** Splitting a join gives the parts back when no part holds the separator's first character. */
  lemma {:induction false} SplitOfJoin(parts: seq<string>, sep: string)
    requires sep != [] && parts != []
    requires forall i :: 0 <= i < |parts| ==> !ContainsChar(parts[i], sep[0])
    ensures Split(Join(parts, sep), sep) == parts
    decreases |parts|
  {
    if |parts| == 1 {
      SplitWithoutSeparatorStart(parts[0], sep);
    } else {
      var rest := parts[1..];
      SplitOfJoin(rest, sep);
      SplitAfterHead(parts[0], Join(rest, sep), sep);
      assert [parts[0]] + rest == parts;
    }
  }

  lemma {:induction false} ContainsLength(s: string, sub: string)
    requires Contains(s, sub)
    ensures |sub| <= |s|
  {
    if !(sub <= s) {
      ContainsLength(s[1..], sub);
    }
  }

  /** A string that contains the separator splits into at least two parts. */
  lemma {:induction false} SplitWhenContains(s: string, sep: string)
    requires sep != [] && Contains(s, sep)
    ensures |Split(s, sep)| >= 2
    decreases |s|
  {
    ContainsLength(s, sep);
    if !(sep <= s) {
      SplitWhenContains(s[1..], sep);
    }
  }

  /** When there are at least two parts, each is shorter than the joined text by the separator. */
  lemma {:induction false} JoinPartsShorter(parts: seq<string>, sep: string)
    requires |parts| >= 2
    ensures forall k :: 0 <= k < |parts| ==> |parts[k]| + |sep| <= |Join(parts, sep)|
  {
    var rest := parts[1..];
    assert Join(parts, sep) == parts[0] + sep + Join(rest, sep);
    if |rest| >= 2 {
      JoinPartsShorter(rest, sep);
      forall k | 1 <= k < |parts| ensures |parts[k]| + |sep| <= |Join(parts, sep)| {
        assert parts[k] == rest[k - 1];
      }
    }
  }

  /** Every part of a split on a separator the text contains is shorter than the text. */
  lemma SplitPartsShorter(s: string, sep: string)
    requires sep != [] && Contains(s, sep)
    ensures forall p :: p in Split(s, sep) ==> |p| < |s|
  {
    SplitWhenContains(s, sep);
    SplitJoin(s, sep);
    JoinPartsShorter(Split(s, sep), sep);
  }

  function Digit(d: nat): (c: char)
    requires d < 10
    ensures IsDigit(c)
  {
    "0123456789"[d]
  }

  function DigitValue(c: char): (d: nat)
    requires IsDigit(c)
    ensures d < 10
  {
    c as int - '0' as int
  }

  /** Decimal rendering of a natural number, as Number.prototype.toString gives it. */
  function NatToString(n: nat): (s: string)
    ensures |s| >= 1 && AllDigits(s)
    ensures |s| > 1 ==> s[0] != '0'
  {
    if n < 10 then [Digit(n)] else NatToString(n / 10) + [Digit(n % 10)]
  }

  /** The value of a string of decimal digits (parseInt on digits only). */
  function ParseDigits(s: string): (n: nat)
    requires AllDigits(s)
  {
    if s == [] then 0 else 10 * ParseDigits(s[..|s| - 1]) + DigitValue(s[|s| - 1])
  }

  lemma {:induction false} ParseNatToString(n: nat)
    ensures ParseDigits(NatToString(n)) == n
  {
    if n >= 10 {
      ParseNatToString(n / 10);
      var s := NatToString(n / 10) + [Digit(n % 10)];
      assert s[..|s| - 1] == NatToString(n / 10);
    }
  }

  /** The characters a rendered number is made of: digits, a minus sign and a decimal point. */
  predicate NumeralText(s: string)
  {
    forall i :: 0 <= i < |s| ==> IsDigit(s[i]) || s[i] == '-' || s[i] == '.'
  }

  function IntToString(i: int): (s: string)
    ensures |s| >= 1
    ensures NumeralText(s)
  {
    if i < 0 then "-" + NatToString(-i) else NatToString(i)
  }

  function Pow10(k: nat): (p: nat)
    ensures p >= 1
  {
    if k == 0 then 1 else 10 * Pow10(k - 1)
  }

  /** Math.round: the nearest integer, halves rounded towards +infinity. */
  function Round(x: real): (n: int)
    ensures x - 1.0 / 2.0 < n as real <= x + 1.0 / 2.0
  {
    (x + 1.0 / 2.0).Floor
  }

  /** Left-pads a digit string with '0' up to width w. */
  function PadZeros(s: string, w: nat): (r: string)
    ensures |r| == if |s| >= w then |s| else w
    ensures r[|r| - |s|..] == s
    ensures AllDigits(s) ==> AllDigits(r)
  {
    if |s| >= w then s
    else
      var zeros := seq(w - |s|, _ => '0');
      assert (zeros + s)[|zeros|..] == s;
      zeros + s
  }

  /**
   * Number.prototype.toFixed(f) for |x| < 10^21: the integer n nearest to
   * x * 10^f (ties towards the larger n), written with f decimals; negative
   * values carry a leading '-'.
   */
  function ToFixed(x: real, f: nat): (r: string)
    ensures x >= 0.0 ==> r != [] && IsDigit(r[0])
    ensures x < 0.0 ==> r != [] && r[0] == '-'
  {
    if x < 0.0 then "-" + UnsignedFixed(-x, f) else UnsignedFixed(x, f)
  }

  function UnsignedFixed(x: real, f: nat): (r: string)
    requires x >= 0.0
    ensures r != [] && IsDigit(r[0])
  {
    var n: nat := (x * Pow10(f) as real + 1.0 / 2.0).Floor;
    var digits := PadZeros(NatToString(n), f + 1);
    if f == 0 then digits else digits[..|digits| - f] + "." + digits[|digits| - f..]
  }

  /** The digits of the fraction 0 <= x < 1, stopping when the rest is zero (at most fuel digits). */
  function FractionDigits(x: real, fuel: nat): (r: string)
    requires 0.0 <= x < 1.0
    ensures AllDigits(r)
    decreases fuel
  {
    if x == 0.0 || fuel == 0 then []
    else
      var y := x * 10.0;
      var d := y.Floor;
      [Digit(d)] + FractionDigits(y - d as real, fuel - 1)
  }

  /**
   * Number.prototype.toString for the numbers the model uses: integers exactly,
   * and other values by their decimal expansion (up to 20 fraction digits).
   */
  function NumberToString(x: real): (s: string)
    ensures x == x.Floor as real ==> s == IntToString(x.Floor)
    ensures NumeralText(s)
  {
    if x == x.Floor as real then IntToString(x.Floor)
    else if x < 0.0 then "-" + UnsignedDecimal(-x)
    else UnsignedDecimal(x)
  }

  function UnsignedDecimal(x: real): (r: string)
    requires x >= 0.0
    ensures NumeralText(r)
  {
    var ip := x.Floor;
    NatToString(ip) + "." + FractionDigits(x - ip as real, 20)
  }
}
