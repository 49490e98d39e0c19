/** Insertion-ordered dictionaries, as Python's `dict` behaves: a sequence of
    key/value pairs in insertion order. Assigning to an existing key keeps its
    position; assigning to a new key appends it. */
module Dict {
  import opened Wrappers

  function Keys<K, V>(d: seq<(K, V)>): (ks: seq<K>)
    ensures |ks| == |d|
    ensures forall i :: 0 <= i < |d| ==> ks[i] == d[i].0
  {
    if d == [] then [] else [d[0].0] + Keys(d[1..])
  }

  predicate HasKey<K(==), V>(d: seq<(K, V)>, k: K) {
    k in Keys(d)
  }

  /** No key occurs twice: every value built by `Put` keeps this. */
  predicate UniqueKeys<K(==), V>(d: seq<(K, V)>) {
    var ks := Keys(d);
    forall i, j :: 0 <= i < j < |ks| ==> ks[i] != ks[j]
  }

  /** `d.get(k)`: the value stored under the first occurrence of `k`. */
  function Lookup<K(==), V>(d: seq<(K, V)>, k: K): (r: Option<V>)
    ensures r.None? <==> !HasKey(d, k)
  {
    if d == [] then None
    else if d[0].0 == k then Some(d[0].1)
    else
      assert Keys(d) == [d[0].0] + Keys(d[1..]);
      Lookup(d[1..], k)
  }

  /** `d[k] = v`. */
  function Put<K(==), V>(d: seq<(K, V)>, k: K, v: V): (r: seq<(K, V)>)
    ensures HasKey(d, k) ==> Keys(r) == Keys(d)
    ensures !HasKey(d, k) ==> Keys(r) == Keys(d) + [k]
  {
    if d == [] then [(k, v)]
    else if d[0].0 == k then [(k, v)] + d[1..]
    else
      assert Keys(d) == [d[0].0] + Keys(d[1..]);
      var rest := Put(d[1..], k, v);
      assert Keys([d[0]] + rest) == [d[0].0] + Keys(rest);
      [d[0]] + rest
  }

  lemma {:induction false} PutLookup<K, V>(d: seq<(K, V)>, k: K, v: V, k': K)
    ensures Lookup(Put(d, k, v), k') == if k' == k then Some(v) else Lookup(d, k')
  {
    if d != [] && d[0].0 != k {
      PutLookup(d[1..], k, v, k');
    }
  }

  /** Assigning a new key appends it. */
  lemma {:induction false} PutNew<K, V>(d: seq<(K, V)>, k: K, v: V)
    requires !HasKey(d, k)
    ensures Put(d, k, v) == d + [(k, v)]
  {
    if d != [] {
      assert Keys(d) == [d[0].0] + Keys(d[1..]);
      assert d[0].0 != k && !HasKey(d[1..], k);
      PutNew(d[1..], k, v);
      assert [d[0]] + (d[1..] + [(k, v)]) == d + [(k, v)];
    }
  }

  lemma PutUnique<K, V>(d: seq<(K, V)>, k: K, v: V)
    requires UniqueKeys(d)
    ensures UniqueKeys(Put(d, k, v))
  {
    var r := Put(d, k, v);
    if !HasKey(d, k) {
      assert forall i :: 0 <= i < |d| ==> Keys(r)[i] == Keys(d)[i];
    }
  }

  /** `d.update(e)`: every entry of `e` assigned into `d` in `e`'s order. */
  function Update<K(==), V>(d: seq<(K, V)>, e: seq<(K, V)>): (r: seq<(K, V)>)
    decreases |e|
  {
    if e == [] then d else Update(Put(d, e[0].0, e[0].1), e[1..])
  }

  /** The dictionary built by assigning each entry of `e` into an empty one. */
  function FromEntries<K(==), V>(e: seq<(K, V)>): seq<(K, V)> {
    Update([], e)
  }

  /** After `d.update(e)` a key is present iff it was in `d` or in `e`; it
      holds `e`'s value if `e` has it, and `d`'s value otherwise. */
  lemma {:induction false} UpdateLookup<K, V>(d: seq<(K, V)>, e: seq<(K, V)>, k: K)
    requires UniqueKeys(e)
    ensures Lookup(Update(d, e), k) == if HasKey(e, k) then Lookup(e, k) else Lookup(d, k)
    decreases |e|
  {
    if e != [] {
      assert Keys(e) == [e[0].0] + Keys(e[1..]);
      assert UniqueKeys(e[1..]);
      UpdateLookup(Put(d, e[0].0, e[0].1), e[1..], k);
      PutLookup(d, e[0].0, e[0].1, k);
      if k == e[0].0 {
        assert !HasKey(e[1..], k);
      }
    }
  }

  /** `d.update(e)` keeps the keys of `d` in place, in order, at its front,
      and only ever adds keys of `e`. */
  lemma {:induction false} UpdateKeys<K, V>(d: seq<(K, V)>, e: seq<(K, V)>)
    ensures |Update(d, e)| >= |d|
    ensures Keys(Update(d, e))[..|d|] == Keys(d)
    ensures forall k :: k in Keys(Update(d, e)) <==> k in Keys(d) || k in Keys(e)
    decreases |e|
  {
    if e != [] {
      var d' := Put(d, e[0].0, e[0].1);
      assert Keys(e) == [e[0].0] + Keys(e[1..]);
      UpdateKeys(d', e[1..]);
      assert Keys(d')[..|d|] == Keys(d);
    }
  }

  lemma {:induction false} UpdateUnique<K, V>(d: seq<(K, V)>, e: seq<(K, V)>)
    requires UniqueKeys(d)
    ensures UniqueKeys(Update(d, e))
    decreases |e|
  {
    if e != [] {
      PutUnique(d, e[0].0, e[0].1);
      UpdateUnique(Put(d, e[0].0, e[0].1), e[1..]);
    }
  }

  /** Assigning a key the value it already has changes nothing. */
  lemma {:induction false} PutSame<K, V>(d: seq<(K, V)>, k: K, v: V)
    requires Lookup(d, k) == Some(v)
    ensures Put(d, k, v) == d
  {
    if d != [] && d[0].0 != k {
      assert Keys(d) == [d[0].0] + Keys(d[1..]);
      PutSame(d[1..], k, v);
    }
  }

  /** In a dictionary without repeated keys, each entry is what `get` finds. */
  lemma {:induction false} LookupEntry<K, V>(d: seq<(K, V)>, i: nat)
    requires UniqueKeys(d) && i < |d|
    ensures Lookup(d, d[i].0) == Some(d[i].1)
  {
    if i > 0 {
      assert Keys(d)[0] != Keys(d)[i];
      assert Keys(d) == [d[0].0] + Keys(d[1..]);
      assert UniqueKeys(d[1..]);
      LookupEntry(d[1..], i - 1);
    }
  }

  /** `get` finds the first entry under a key, whatever follows it. */
  lemma {:induction false} LookupFirst<K, V>(d: seq<(K, V)>, i: nat)
    requires i < |d| && forall j :: 0 <= j < i ==> d[j].0 != d[i].0
    ensures Lookup(d, d[i].0) == Some(d[i].1)
  {
    if i > 0 {
      assert forall j :: 0 <= j < i - 1 ==> d[1..][j] == d[j + 1];
      LookupFirst(d[1..], i - 1);
    }
  }

  /** Updating with entries `d` already holds changes nothing. */
  lemma {:induction false} UpdateHeld<K, V>(d: seq<(K, V)>, e: seq<(K, V)>)
    requires forall i :: 0 <= i < |e| ==> Lookup(d, e[i].0) == Some(e[i].1)
    ensures Update(d, e) == d
    decreases |e|
  {
    if e != [] {
      PutSame(d, e[0].0, e[0].1);
      UpdateHeld(d, e[1..]);
    }
  }

  /** `{**d, **d}` is `d`. */
  lemma UpdateSelf<K, V>(d: seq<(K, V)>)
    requires UniqueKeys(d)
    ensures Update(d, d) == d
  {
    forall i | 0 <= i < |d| ensures Lookup(d, d[i].0) == Some(d[i].1) {
      LookupEntry(d, i);
    }
    UpdateHeld(d, d);
  }

  /** A three-entry literal with distinct keys: its keys, and each key's
      value. */
  lemma LookupOfThree<K, V>(a: K, va: V, b: K, vb: V, c: K, vc: V)
    requires a != b && a != c && b != c
    ensures var d := [(a, va), (b, vb), (c, vc)];
      && Keys(d) == [a, b, c]
      && Lookup(d, a) == Some(va) && Lookup(d, b) == Some(vb) && Lookup(d, c) == Some(vc)
  {
    var d := [(a, va), (b, vb), (c, vc)];
    var d2 := [(b, vb), (c, vc)];
    var d3 := [(c, vc)];
    assert d[1..] == d2 && d2[1..] == d3 && d3[1..] == [];
    assert Keys(d3) == [c];
    assert Keys(d2) == [b, c];
    assert Keys(d) == [a, b, c];
    assert Lookup(d2, c) == Lookup(d3, c) == Some(vc);
    assert Lookup(d, b) == Lookup(d2, b) == Some(vb);
    assert Lookup(d, c) == Lookup(d2, c);
  }
}
