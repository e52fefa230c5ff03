/** PHP arrays with string keys, as the provider uses them: an ordered list
    of key/value entries in which every key occurs at most once. */
module PhpArray {
  import opened Wrappers

  /** Query and header fields: string keys to string values. */
  type Fields = seq<(string, string)>

  function Keys<V>(f: seq<(string, V)>): (ks: seq<string>)
    ensures |ks| == |f|
    ensures forall i :: 0 <= i < |f| ==> ks[i] == f[i].0
  {
    seq(|f|, i requires 0 <= i < |f| => f[i].0)
  }

  /** No key occurs twice: what every PHP array satisfies. */
  predicate Distinct(ks: seq<string>) {
    forall i, j :: 0 <= i < j < |ks| ==> ks[i] != ks[j]
  }

  /** `$f[$k]`, or None where `$k` is not a key. */
  function Lookup<V>(f: seq<(string, V)>, k: string): (r: Option<V>)
    ensures r.Some? <==> k in Keys(f)
    decreases |f|
  {
    if f == [] then None
    else if f[0].0 == k then Some(f[0].1)
    else Lookup(f[1..], k)
  }

  /** In a PHP array, looking up the key of an entry gives that entry's value. */
  lemma {:induction false} LookupEntry<V>(f: seq<(string, V)>, i: nat)
    requires Distinct(Keys(f))
    requires i < |f|
    ensures Lookup(f, f[i].0) == Some(f[i].1)
    decreases i
  {
    if i > 0 {
      assert Keys(f[1..]) == Keys(f)[1..];
      assert f[1..][i - 1] == f[i];
      LookupEntry(f[1..], i - 1);
      assert Keys(f)[0] != Keys(f)[i];
    }
  }

  /** `$f[$k] = $v`: overwrites the value of an existing key where it stands,
      or appends a new entry at the end. */
  function Put<V>(f: seq<(string, V)>, k: string, v: V): seq<(string, V)>
    decreases |f|
  {
    if f == [] then [(k, v)]
    else if f[0].0 == k then [(k, v)] + f[1..]
    else [f[0]] + Put(f[1..], k, v)
  }

  /** `array_merge($a, $b)` for string keys: the entries of `b`, in order,
      are put into `a`. */
  function Merge<V>(a: seq<(string, V)>, b: seq<(string, V)>): seq<(string, V)>
    decreases |b|
  {
    if b == [] then a else Merge(Put(a, b[0].0, b[0].1), b[1..])
  }

  /** The keys of `kb` that `array_merge` appends after the keys `ka`: those
      not seen before, in their first-occurrence order. */
  function Fresh(ka: seq<string>, kb: seq<string>): seq<string>
    decreases |kb|
  {
    if kb == [] then []
    else if kb[0] in ka then Fresh(ka, kb[1..])
    else [kb[0]] + Fresh(ka + [kb[0]], kb[1..])
  }

  /** Assigning to a key keeps every existing key in place; only a new key is
      appended. */
  lemma {:induction false} PutKeys<V>(f: seq<(string, V)>, k: string, v: V)
    ensures Keys(Put(f, k, v)) == if k in Keys(f) then Keys(f) else Keys(f) + [k]
    decreases |f|
  {
    if f != [] && f[0].0 != k {
      PutKeys(f[1..], k, v);
      assert Keys(f) == [f[0].0] + Keys(f[1..]);
      assert Keys(Put(f, k, v)) == [f[0].0] + Keys(Put(f[1..], k, v));
    } else if f != [] {
      assert Keys(Put(f, k, v)) == Keys(f);
    }
  }

  /** After `$f[$k] = $v`, `$k` holds `v` and every other key what it held. */
  lemma {:induction false} PutLookup<V>(f: seq<(string, V)>, k: string, v: V, k': string)
    ensures Lookup(Put(f, k, v), k') == if k' == k then Some(v) else Lookup(f, k')
    decreases |f|
  {
    if f != [] && f[0].0 != k {
      PutLookup(f[1..], k, v, k');
      var p := Put(f, k, v);
      assert p[0] == f[0] && p[1..] == Put(f[1..], k, v);
    } else if f != [] {
      var p := Put(f, k, v);
      assert p[1..] == f[1..];
    }
  }

  /** Merging keeps the keys of `a` in their positions and appends the fresh
      keys of `b` in their order. */
  lemma {:induction false} MergeKeys<V>(a: seq<(string, V)>, b: seq<(string, V)>)
    ensures Keys(Merge(a, b)) == Keys(a) + Fresh(Keys(a), Keys(b))
    decreases |b|
  {
    if b != [] {
      var a' := Put(a, b[0].0, b[0].1);
      PutKeys(a, b[0].0, b[0].1);
      MergeKeys(a', b[1..]);
      assert Keys(b)[1..] == Keys(b[1..]);
    }
  }

  /** With the distinct keys of a PHP array, a key of `b` takes its value from
      `b`, every other key keeps its value from `a`. */
  lemma {:induction false} MergeLookup<V>(a: seq<(string, V)>, b: seq<(string, V)>, k: string)
    requires Distinct(Keys(b))
    ensures Lookup(Merge(a, b), k) == if k in Keys(b) then Lookup(b, k) else Lookup(a, k)
    decreases |b|
  {
    if b != [] {
      assert Keys(b[1..]) == Keys(b)[1..];
      assert Distinct(Keys(b[1..]));
      MergeLookup(Put(a, b[0].0, b[0].1), b[1..], k);
      PutLookup(a, b[0].0, b[0].1, k);
      if k == b[0].0 {
        assert k !in Keys(b[1..]);
      }
    }
  }

  /** A key is fresh exactly when `kb` has it and `ka` does not; fresh keys
      never repeat. */
  lemma {:induction false} FreshMembers(ka: seq<string>, kb: seq<string>)
    ensures forall k :: k in Fresh(ka, kb) <==> k in kb && k !in ka
    ensures Distinct(ka) ==> Distinct(ka + Fresh(ka, kb))
    decreases |kb|
  {
    if kb != [] {
      FreshMembers(ka, kb[1..]);
      FreshMembers(ka + [kb[0]], kb[1..]);
      if kb[0] !in ka {
        assert ka + Fresh(ka, kb) == (ka + [kb[0]]) + Fresh(ka + [kb[0]], kb[1..]);
      }
      forall k
        ensures k in Fresh(ka, kb) <==> k in kb && k !in ka
      {
        assert k in kb <==> k == kb[0] || k in kb[1..];
      }
    }
  }
}
