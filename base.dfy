/** Option and result values shared by every module of the model. */
module Base {

  datatype Option<T> = None | Some(value: T)

  /** A JavaScript/Kotlin/Java exception, identified by its class name. */
  datatype Outcome<T> = Ok(value: T) | Thrown(error: string)

  function Min(a: int, b: int): (r: int)
    ensures r <= a && r <= b && (r == a || r == b)
  {
    if a <= b then a else b
  }

  function Max(a: int, b: int): (r: int)
    ensures r >= a && r >= b && (r == a || r == b)
  {
    if a >= b then a else b
  }

  /** The value of the first entry with the given key, as a constant lookup table reads it. */
  function FindKey<V>(entries: seq<(string, V)>, key: string): (r: Option<V>)
    ensures r.None? <==> forall i :: 0 <= i < |entries| ==> entries[i].0 != key
    ensures r.Some? ==> exists i :: 0 <= i < |entries| && entries[i] == (key, r.value)
  {
    if entries == [] then None
    else if entries[0].0 == key then Some(entries[0].1)
    else
      var r := FindKey(entries[1..], key);
      assert forall i :: 1 <= i < |entries| ==> entries[i] == entries[1..][i - 1];
      r
  }

  /** Looking a key up in a concatenation looks in the second part only when the first lacks it. */
  lemma {:induction false} FindKeyAppend<V>(a: seq<(string, V)>, b: seq<(string, V)>, key: string)
    ensures FindKey(a + b, key) == if FindKey(a, key).Some? then FindKey(a, key) else FindKey(b, key)
  {
    if a == [] {
      assert a + b == b;
    } else {
      assert (a + b)[0] == a[0];
      assert (a + b)[1..] == a[1..] + b;
      FindKeyAppend(a[1..], b, key);
    }
  }

  /** A key found in a prefix is found, with the same value, in the whole sequence. */
  lemma FindKeyPrefix<V>(a: seq<(string, V)>, r: seq<(string, V)>, key: string)
    requires a <= r && FindKey(a, key).Some?
    ensures FindKey(r, key) == FindKey(a, key)
  {
    assert r == a + r[|a|..];
    FindKeyAppend(a, r[|a|..], key);
  }

  predicate NoDuplicates<T(==)>(xs: seq<T>)
  {
    forall i, j :: 0 <= i < j < |xs| ==> xs[i] != xs[j]
  }

  /** A set written out as a list (Kotlin toList, Swift Array(set), a map's keys): every element once, in some order. */
  method ListOf<T(==)>(s: set<T>) returns (xs: seq<T>)
    ensures NoDuplicates(xs) && forall x :: x in xs <==> x in s
  {
    xs := [];
    var rest := s;
    while rest != {}
      invariant NoDuplicates(xs)
      invariant forall x :: x in xs <==> x in s && x !in rest
      invariant rest <= s
      decreases |rest|
    {
      var x :| x in rest;
      xs := xs + [x];
      rest := rest - {x};
    }
  }
}
