/** `sorted(set(xs))` on values of any type, as Python evaluates it: `set`
    raises for an unhashable value (a list or a dictionary), and `sorted`
    raises when it compares two unequal values whose types have no order.
    A comparison sort compares every pair of neighbours in its result, so it
    raises exactly when the set holds two such values. */
module PySorted {
  import opened Wrappers
  import opened Json
  import opened CveIds

  /** Lists and dictionaries cannot be put in a set. */
  predicate Hashable(j: Json) {
    !j.JList? && !j.JObj?
  }

  /** `a < b` is defined: two strings, or two numbers. */
  predicate Ordered(a: Json, b: Json) {
    (a.JStr? && b.JStr?) || (IsNumber(a) && IsNumber(b))
  }

  /** `sorted` may meet `a` and `b` in one list: they are ordered or equal. */
  predicate Comparable(a: Json, b: Json) {
    Ordered(a, b) || PyEq(a, b)
  }

  /** Python accepts `sorted(set(xs))`: every element is hashable, and any
      two unequal elements can be compared. */
  predicate Sortable(xs: seq<Json>) {
    && (forall i :: 0 <= i < |xs| ==> Hashable(xs[i]))
    && (forall i, j :: 0 <= i < |xs| && 0 <= j < |xs| ==> Comparable(xs[i], xs[j]))
  }

  predicate AllNumbers(xs: seq<Json>) {
    forall i :: 0 <= i < |xs| ==> IsNumber(xs[i])
  }

  /** Two numbers, the first of smaller value. */
  predicate NumLess(a: Json, b: Json) {
    IsNumber(a) && IsNumber(b) && NumVal(a) < NumVal(b)
  }

  /** Numbers in strictly increasing order of value. */
  predicate AscendingNumbers(xs: seq<Json>) {
    && AllNumbers(xs)
    && (forall i, j :: 0 <= i < j < |xs| ==> NumLess(xs[i], xs[j]))
  }

  /** Some element of `xs` stands for the number `v`. */
  predicate HasValue(xs: seq<Json>, v: int)
    requires AllNumbers(xs)
  {
    exists i :: 0 <= i < |xs| && NumVal(xs[i]) == v
  }

  /** Every number of `xs` is above `v`. */
  predicate Above(xs: seq<Json>, v: int)
    requires AllNumbers(xs)
  {
    forall i :: 0 <= i < |xs| ==> v < NumVal(xs[i])
  }

  lemma AscendingCons(h: Json, rest: seq<Json>)
    requires IsNumber(h) && AscendingNumbers(rest) && Above(rest, NumVal(h))
    ensures AscendingNumbers([h] + rest)
  {
    var r := [h] + rest;
    forall i, j | 0 <= i < j < |r| ensures NumLess(r[i], r[j]) {
      assert r[j] == rest[j - 1];
      if 0 < i {
        assert r[i] == rest[i - 1];
      }
    }
  }

  lemma AboveOfMultiset(xs: seq<Json>, ys: seq<Json>, v: int)
    requires AllNumbers(xs) && AllNumbers(ys) && Above(xs, v)
    requires multiset(ys) <= multiset(xs)
    ensures Above(ys, v)
  {
    forall i | 0 <= i < |ys| ensures v < NumVal(ys[i]) {
      assert ys[i] in multiset(xs);
      var k :| 0 <= k < |xs| && xs[k] == ys[i];
    }
  }

  lemma HasValueTail(xs: seq<Json>, v: int)
    requires AllNumbers(xs) && xs != [] && NumVal(xs[0]) != v
    ensures HasValue(xs, v) <==> HasValue(xs[1..], v)
  {
    if HasValue(xs, v) {
      var i :| 0 <= i < |xs| && NumVal(xs[i]) == v;
      assert xs[1..][i - 1] == xs[i];
    }
    if HasValue(xs[1..], v) {
      var i :| 0 <= i < |xs[1..]| && NumVal(xs[1..][i]) == v;
      assert xs[i + 1] == xs[1..][i];
    }
  }

  /** `x` placed into an ascending list of numbers, unless an equal number is
      there already: a set keeps the element it met first. */
  function InsertNumber(xs: seq<Json>, x: Json): (r: seq<Json>)
    requires AscendingNumbers(xs) && IsNumber(x)
    ensures AscendingNumbers(r)
    ensures HasValue(xs, NumVal(x)) ==> r == xs
    ensures !HasValue(xs, NumVal(x)) ==> multiset(r) == multiset(xs) + multiset{x}
  {
    if xs == [] then [x]
    else if NumVal(x) == NumVal(xs[0]) then
      assert HasValue(xs, NumVal(x)) by { assert NumVal(xs[0]) == NumVal(x); }
      xs
    else if NumVal(x) < NumVal(xs[0]) then
      InsertFront(xs, x);
      [x] + xs
    else
      AscendingTail(xs);
      var rest := InsertNumber(xs[1..], x);
      InsertBehind(xs, x, rest);
      [xs[0]] + rest
  }

  /** A number below the head of an ascending list is not in it, and goes
      in front. */
  lemma InsertFront(xs: seq<Json>, x: Json)
    requires AscendingNumbers(xs) && IsNumber(x) && xs != [] && NumVal(x) < NumVal(xs[0])
    ensures !HasValue(xs, NumVal(x))
    ensures AscendingNumbers([x] + xs)
  {
    assert Above(xs, NumVal(x)) by {
      forall i | 0 <= i < |xs| ensures NumVal(x) < NumVal(xs[i]) {
        if 0 < i {
          assert NumLess(xs[0], xs[i]);
        }
      }
    }
    AscendingCons(x, xs);
  }

  lemma AscendingTail(xs: seq<Json>)
    requires AscendingNumbers(xs) && xs != []
    ensures AscendingNumbers(xs[1..])
  {
    var t := xs[1..];
    forall i, j | 0 <= i < j < |t| ensures NumLess(t[i], t[j]) {
      assert t[i] == xs[i + 1] && t[j] == xs[j + 1];
    }
  }

  /** A number above the head is inserted into the tail, behind the head. */
  lemma InsertBehind(xs: seq<Json>, x: Json, rest: seq<Json>)
    requires AscendingNumbers(xs) && IsNumber(x) && xs != [] && NumVal(xs[0]) < NumVal(x)
    requires AllNumbers(xs[1..]) && AscendingNumbers(rest)
    requires HasValue(xs[1..], NumVal(x)) ==> rest == xs[1..]
    requires !HasValue(xs[1..], NumVal(x)) ==> multiset(rest) == multiset(xs[1..]) + multiset{x}
    ensures AscendingNumbers([xs[0]] + rest)
    ensures HasValue(xs, NumVal(x)) ==> [xs[0]] + rest == xs
    ensures !HasValue(xs, NumVal(x)) ==> multiset([xs[0]] + rest) == multiset(xs) + multiset{x}
  {
    var tail := xs[1..];
    assert xs == [xs[0]] + tail;
    HasValueTail(xs, NumVal(x));
    assert Above(tail + [x], NumVal(xs[0])) by {
      forall i | 0 <= i < |tail + [x]| ensures NumVal(xs[0]) < NumVal((tail + [x])[i]) {
        if i < |tail| {
          assert (tail + [x])[i] == xs[i + 1];
        }
      }
    }
    assert multiset(rest) <= multiset(tail + [x]);
    AboveOfMultiset(tail + [x], rest, NumVal(xs[0]));
    AscendingCons(xs[0], rest);
  }

  /** Every element of `ys` occurs in `xs`. */
  predicate DrawnFrom(ys: seq<Json>, xs: seq<Json>) {
    forall k :: 0 <= k < |ys| ==> ys[k] in xs
  }

  /** `xs[i]` is the first element of `xs` with its value. */
  predicate FirstOfValue(xs: seq<Json>, i: int)
    requires AllNumbers(xs) && 0 <= i < |xs|
  {
    forall m :: 0 <= m < i ==> NumVal(xs[m]) != NumVal(xs[i])
  }

  /** `sorted(set(xs))` for a list of numbers: ascending by value, drawn from
      `xs`, and holding, for every value, the first element of `xs` that
      stands for it. */
  function NumberSet(xs: seq<Json>): (r: seq<Json>)
    requires AllNumbers(xs)
    ensures AscendingNumbers(r)
    ensures DrawnFrom(r, xs)
    ensures forall i :: 0 <= i < |xs| && FirstOfValue(xs, i) ==> xs[i] in r
    decreases |xs|
  {
    if xs == [] then []
    else
      var prefix := xs[..|xs| - 1];
      var x := xs[|xs| - 1];
      assert xs == prefix + [x];
      var acc := NumberSet(prefix);
      var r := InsertNumber(acc, x);
      InsertKeeps(acc, x, r);
      NumberSetStep(prefix, x, acc, r);
      r
  }

  /** One step of `NumberSet`: `x` inserted into the set of `prefix`. */
  lemma NumberSetStep(prefix: seq<Json>, x: Json, acc: seq<Json>, r: seq<Json>)
    requires AllNumbers(prefix) && IsNumber(x)
    requires AscendingNumbers(acc) && DrawnFrom(acc, prefix)
    requires forall i :: 0 <= i < |prefix| && FirstOfValue(prefix, i) ==> prefix[i] in acc
    requires forall y :: y in acc ==> y in r
    requires forall y :: y in r ==> y in acc || y == x
    requires !HasValue(acc, NumVal(x)) ==> x in r
    ensures AllNumbers(prefix + [x])
    ensures DrawnFrom(r, prefix + [x])
    ensures forall i :: 0 <= i < |prefix + [x]| && FirstOfValue(prefix + [x], i) ==> (prefix + [x])[i] in r
  {
    var xs := prefix + [x];
    assert AllNumbers(xs) by {
      forall i | 0 <= i < |xs| ensures IsNumber(xs[i]) {
        if i < |prefix| { assert xs[i] == prefix[i]; }
      }
    }
    forall k | 0 <= k < |r| ensures r[k] in xs {
      if r[k] != x {
        assert r[k] in r;
        assert r[k] in acc;
        var j :| 0 <= j < |acc| && acc[j] == r[k];
        assert acc[j] in prefix;
        assert r[k] in xs by { var m :| 0 <= m < |prefix| && prefix[m] == r[k]; assert xs[m] == r[k]; }
      } else {
        assert xs[|prefix|] == x;
      }
    }
    forall i | 0 <= i < |xs| && FirstOfValue(xs, i) ensures xs[i] in r {
      if i < |prefix| {
        FirstOfValuePrefix(prefix, x, i);
      } else {
        FirstNotInPrefixSet(prefix, x, acc);
      }
    }
  }

  /** Being first with one's value in `prefix + [x]` means being first in `prefix`. */
  lemma FirstOfValuePrefix(prefix: seq<Json>, x: Json, i: nat)
    requires AllNumbers(prefix) && IsNumber(x) && AllNumbers(prefix + [x]) && i < |prefix|
    requires FirstOfValue(prefix + [x], i)
    ensures FirstOfValue(prefix, i) && (prefix + [x])[i] == prefix[i]
  {
    var xs := prefix + [x];
    forall m | 0 <= m < i ensures NumVal(prefix[m]) != NumVal(prefix[i]) {
      assert xs[m] == prefix[m] && xs[i] == prefix[i];
    }
  }

  /** Inserting keeps what was there and adds nothing but `x`. */
  lemma InsertKeeps(acc: seq<Json>, x: Json, r: seq<Json>)
    requires AscendingNumbers(acc) && IsNumber(x) && r == InsertNumber(acc, x)
    ensures forall y :: y in acc ==> y in r
    ensures forall y :: y in r ==> y in acc || y == x
    ensures !HasValue(acc, NumVal(x)) ==> x in r
  {
    if !HasValue(acc, NumVal(x)) {
      assert forall y :: y in r <==> y in multiset(acc) + multiset{x};
    }
  }

  /** A value first met at the end of `prefix + [x]` is not in the set of
      `prefix`. */
  lemma FirstNotInPrefixSet(prefix: seq<Json>, x: Json, acc: seq<Json>)
    requires AllNumbers(prefix) && IsNumber(x)
    requires AscendingNumbers(acc) && DrawnFrom(acc, prefix)
    requires AllNumbers(prefix + [x]) && FirstOfValue(prefix + [x], |prefix|)
    ensures !HasValue(acc, NumVal(x))
  {
    var xs := prefix + [x];
    forall k | 0 <= k < |acc| ensures NumVal(acc[k]) != NumVal(x) {
      assert acc[k] in prefix;
      var m :| 0 <= m < |prefix| && prefix[m] == acc[k];
      assert xs[m] == prefix[m] && xs[|prefix|] == x;
    }
  }

  /** `sorted(set(xs))`, or `None` where Python raises a `TypeError`. */
  function SortedSetOf(xs: seq<Json>): (r: Option<seq<Json>>)
    ensures r.Some? <==> Sortable(xs)
    ensures r.Some? && (forall i :: 0 <= i < |xs| ==> xs[i].JStr?) ==>
      && IsStringList(JList(r.value))
      && Ascending(Strings(r.value))
      && forall y :: y in Strings(r.value) <==> JStr(y) in xs
    ensures r.Some? && !(forall i :: 0 <= i < |xs| ==> xs[i].JStr?) ==> forall i :: 0 <= i < |r.value| ==> !r.value[i].JStr?
  {
    if AnyUnhashable(xs) then None
    else if AllStrings(xs) then
      var ss := SortedSet(Strings(xs));
      StringSetOk(xs, ss);
      Some(StrList(ss))
    else if AllNumbers(xs) then
      NumbersSortable(xs);
      Some(NumberSet(xs))
    else if forall i :: 0 <= i < |xs| ==> xs[i].JNull? then
      NullsSortable(xs);
      Some([JNull])
    else
      MixedUnsortable(xs);
      None
  }

  /** Some element is a list or a dictionary. */
  predicate AnyUnhashable(xs: seq<Json>) {
    exists i :: 0 <= i < |xs| && !Hashable(xs[i])
  }

  /** Every element is a string. */
  predicate AllStrings(xs: seq<Json>) {
    forall i :: 0 <= i < |xs| ==> xs[i].JStr?
  }

  /** A list of numbers sorts to its number set. */
  lemma SortedNumbers(xs: seq<Json>)
    requires AllNumbers(xs)
    ensures SortedSetOf(xs) == Some(NumberSet(xs))
  {
    assert !AnyUnhashable(xs) by {
      forall i | 0 <= i < |xs| ensures Hashable(xs[i]) {
        assert IsNumber(xs[i]);
      }
    }
    if xs != [] {
      assert !AllStrings(xs) by {
        assert IsNumber(xs[0]);
      }
    } else {
      assert StrList(SortedSet(Strings(xs))) == [];
    }
  }

  /** A list of strings sorts to the ascending list of its distinct
      strings. */
  lemma StringSetOk(xs: seq<Json>, ss: seq<string>)
    requires forall i :: 0 <= i < |xs| ==> xs[i].JStr?
    requires ss == SortedSet(Strings(xs))
    ensures Sortable(xs)
    ensures IsStringList(JList(StrList(ss))) && Ascending(Strings(StrList(ss)))
    ensures forall y :: y in Strings(StrList(ss)) <==> JStr(y) in xs
  {
    StringsSortable(xs);
    StringsOfStrList(ss);
    forall y ensures JStr(y) in xs <==> y in Strings(xs) {
      StringIn(xs, y);
    }
  }

  /** Any two strings compare. */
  lemma StringsSortable(xs: seq<Json>)
    requires forall i :: 0 <= i < |xs| ==> xs[i].JStr?
    ensures Sortable(xs)
  {
  }

  /** `JStr(y)` is in a list of strings exactly when `y` is among its
      strings. */
  lemma StringIn(xs: seq<Json>, y: string)
    requires forall i :: 0 <= i < |xs| ==> xs[i].JStr?
    ensures JStr(y) in xs <==> y in Strings(xs)
  {
    var s := Strings(xs);
    if JStr(y) in xs {
      var i :| 0 <= i < |xs| && xs[i] == JStr(y);
      assert s[i] == y;
    }
    if y in s {
      var i :| 0 <= i < |s| && s[i] == y;
      assert xs[i] == JStr(y);
    }
  }

  /** Any two numbers compare. */
  lemma NumbersSortable(xs: seq<Json>)
    requires AllNumbers(xs)
    ensures Sortable(xs)
  {
  }

  /** `None` equals `None`, so a list of them is one set element. */
  lemma NullsSortable(xs: seq<Json>)
    requires forall i :: 0 <= i < |xs| ==> xs[i].JNull?
    ensures Sortable(xs)
  {
    forall i, j | 0 <= i < |xs| && 0 <= j < |xs| ensures Comparable(xs[i], xs[j]) {
      assert xs[i] == JNull && xs[j] == JNull;
    }
  }

  /** A list that is neither all strings, all numbers nor all `None` holds
      two unequal values without an order. */
  lemma MixedUnsortable(xs: seq<Json>)
    requires !(forall i :: 0 <= i < |xs| ==> xs[i].JStr?)
    requires !AllNumbers(xs)
    requires !(forall i :: 0 <= i < |xs| ==> xs[i].JNull?)
    requires forall i :: 0 <= i < |xs| ==> Hashable(xs[i])
    ensures !Sortable(xs)
  {
    var a :| 0 <= a < |xs| && !xs[a].JStr?;
    var b :| 0 <= b < |xs| && !IsNumber(xs[b]);
    var c :| 0 <= c < |xs| && !xs[c].JNull?;
    if xs[a].JNull? {
      assert !Comparable(xs[a], xs[c]);
    } else {
      assert !Comparable(xs[a], xs[b]);
    }
  }

  /** Reading back the strings of a string list. */
  lemma StringsOfStrList(ss: seq<string>)
    ensures IsStringList(JList(StrList(ss))) && Strings(StrList(ss)) == ss
  {
    var j := StrList(ss);
    assert forall i :: 0 <= i < |ss| ==> Strings(j)[i] == ss[i];
  }

  /** Strings and anything else in one list cannot be sorted: a list of CVE
      ids extended by a number or `None` raises. */
  lemma StringsDoNotMix(xs: seq<Json>, i: nat, j: nat)
    requires i < |xs| && j < |xs| && xs[i].JStr? && !xs[j].JStr?
    ensures SortedSetOf(xs).None?
  {
    assert !Comparable(xs[i], xs[j]);
  }

  /** `1` and `True` are one element of a set: the first one met is kept. */
  lemma OneAndTrue()
    ensures SortedSetOf([JInt(1), JBool(true), JInt(0)]) == Some([JInt(0), JInt(1)])
  {
    SortedNumbers([JInt(1), JBool(true), JInt(0)]);
    OneAndTrueSet();
  }

  /** The numbers 1, `True`, 0 give the set {0, 1}, with 1 met first. */
  lemma OneAndTrueSet()
    ensures NumberSet([JInt(1), JBool(true), JInt(0)]) == [JInt(0), JInt(1)]
  {
    var xs := [JInt(1), JBool(true), JInt(0)];
    assert xs[..2] == [JInt(1), JBool(true)];
    OneThenTrue();
    assert !HasValue([JInt(1)], 0);
    assert InsertNumber([JInt(1)], JInt(0)) == [JInt(0), JInt(1)];
  }

  /** `True` after 1 adds nothing. */
  lemma OneThenTrue()
    ensures NumberSet([JInt(1), JBool(true)]) == [JInt(1)]
  {
    var xs := [JInt(1), JBool(true)];
    assert xs[..1] == [JInt(1)];
    assert NumberSet([JInt(1)]) == [JInt(1)] by {
      assert [JInt(1)][..0] == [];
    }
    assert HasValue([JInt(1)], 1) by {
      assert NumVal([JInt(1)][0]) == 1;
    }
  }
}
