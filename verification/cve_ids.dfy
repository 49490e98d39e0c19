/** CVE identifiers in free text, and sorted duplicate-free lists of them:
    `extract_cve_ids`, which is `re.findall(r'CVE-\d{4}-\d{4,}', text,
    re.IGNORECASE)` followed by `sorted(set(...))`, and the sorted union the
    state updates use. Letters and digits are ASCII. */
module CveIds {
  import opened Wrappers
  import opened Text

  /** Equality of characters ignoring ASCII case. */
  predicate SameLetter(a: char, b: char) {
    LowerChar(a) == LowerChar(b)
  }

  /** Every character of `s` from `lo` up to `hi` is a digit. */
  predicate DigitsBetween(s: string, lo: nat, hi: nat)
    requires lo <= hi <= |s|
  {
    forall k :: lo <= k < hi ==> IsDigit(s[k])
  }

  /** The fixed part of the pattern, "CVE-dddd-", starts at `i`. */
  predicate PrefixAt(s: string, i: nat) {
    && i + 9 <= |s|
    && SameLetter(s[i], 'C') && SameLetter(s[i + 1], 'V') && SameLetter(s[i + 2], 'E') && s[i + 3] == '-'
    && DigitsBetween(s, i + 4, i + 8) && s[i + 8] == '-'
  }

  /** All of `x` matches `CVE-\d{4}-\d{4,}` ignoring case. */
  predicate IsCveId(x: string) {
    |x| >= 13 && PrefixAt(x, 0) && DigitsBetween(x, 9, |x|)
  }

  /** The length of the run of digits starting at `i`. */
  function DigitRun(s: string, i: nat): (n: nat)
    requires i <= |s|
    ensures i + n <= |s| && DigitsBetween(s, i, i + n)
    ensures i + n < |s| ==> !IsDigit(s[i + n])
    decreases |s| - i
  {
    if i < |s| && IsDigit(s[i]) then 1 + DigitRun(s, i + 1) else 0
  }

  /** A digit run that ends at a non-digit, or at the end, is the whole run. */
  lemma {:induction false} DigitRunExact(s: string, lo: nat, hi: nat)
    requires lo <= hi <= |s| && DigitsBetween(s, lo, hi)
    requires hi == |s| || !IsDigit(s[hi])
    ensures DigitRun(s, lo) == hi - lo
    decreases hi - lo
  {
    if lo < hi {
      DigitRunExact(s, lo + 1, hi);
    }
  }

  /** Where the match the regex finds at position `i` ends, if there is one:
      after the fixed part, the digit quantifier is greedy. */
  function MatchAt(s: string, i: nat): (r: Option<nat>)
    ensures r.Some? ==> i + 13 <= r.value <= |s| && IsCveId(s[i..r.value])
    ensures r.Some? ==> r.value == |s| || !IsDigit(s[r.value])
  {
    if PrefixAt(s, i) then
      var n := DigitRun(s, i + 9);
      if n >= 4 then Some(i + 9 + n) else None
    else None
  }

  /** Conversely, a longest identifier starting at `i` is the match there. */
  lemma MatchAtComplete(s: string, i: nat, j: nat)
    requires i <= j <= |s| && IsCveId(s[i..j])
    requires j == |s| || !IsDigit(s[j])
    ensures MatchAt(s, i) == Some(j)
  {
    var x := s[i..j];
    assert PrefixAt(s, i) by {
      assert x[0] == s[i] && x[1] == s[i + 1] && x[2] == s[i + 2] && x[3] == s[i + 3] && x[8] == s[i + 8];
      assert forall k :: i + 4 <= k < i + 8 ==> s[k] == x[k - i];
    }
    assert DigitsBetween(s, i + 9, j) by {
      assert forall k :: i + 9 <= k < j ==> s[k] == x[k - i];
    }
    DigitRunExact(s, i + 9, j);
  }

  /** `re.findall`: scanning from `i`, the matches as (start, end) positions,
      left to right and not overlapping. */
  function Scan(s: string, i: nat): (r: seq<(nat, nat)>)
    requires i <= |s|
    ensures forall k :: 0 <= k < |r| ==> i <= r[k].0 && MatchAt(s, r[k].0) == Some(r[k].1)
    ensures forall k :: 0 <= k < |r| - 1 ==> r[k].1 <= r[k + 1].0
    decreases |s| - i
  {
    if i == |s| then []
    else
      match MatchAt(s, i)
      case Some(j) => [(i, j)] + Scan(s, j)
      case None => Scan(s, i + 1)
  }

  /** A match cannot start inside another one: no character after the first
      of an identifier is a `c`. */
  lemma NoMatchInside(s: string, i: nat, p: nat)
    requires MatchAt(s, i).Some? && i < p < MatchAt(s, i).value
    ensures MatchAt(s, p).None?
  {
    var j := MatchAt(s, i).value;
    var x := s[i..j];
    assert s[p] == x[p - i];
  }

  /** Every match the regex can find at a position the scan reaches is found. */
  lemma {:induction false} ScanComplete(s: string, i: nat, p: nat)
    requires i <= p < |s| && MatchAt(s, p).Some?
    requires forall q :: i <= q < p ==> MatchAt(s, q).None? || MatchAt(s, q).value <= p
    ensures (p, MatchAt(s, p).value) in Scan(s, i)
    decreases |s| - i
  {
    if i < p {
      match MatchAt(s, i)
      case Some(j) =>
        ScanComplete(s, j, p);
      case None =>
        ScanComplete(s, i + 1, p);
    }
  }

  /** From the start of the text, every match is found. */
  lemma FindsEveryMatch(s: string, p: nat)
    requires p < |s| && MatchAt(s, p).Some?
    ensures (p, MatchAt(s, p).value) in Scan(s, 0)
  {
    forall q | 0 <= q < p && MatchAt(s, q).Some?
      ensures MatchAt(s, q).value <= p
    {
      if MatchAt(s, q).value > p {
        NoMatchInside(s, q, p);
      }
    }
    ScanComplete(s, 0, p);
  }

  /** The matched texts, in order. */
  function Texts(s: string, ms: seq<(nat, nat)>): (r: seq<string>)
    requires forall k :: 0 <= k < |ms| ==> ms[k].0 <= ms[k].1 <= |s|
    ensures |r| == |ms| && forall k :: 0 <= k < |ms| ==> r[k] == s[ms[k].0..ms[k].1]
  {
    if ms == [] then [] else [s[ms[0].0..ms[0].1]] + Texts(s, ms[1..])
  }

  /** `re.findall(pattern, s, re.IGNORECASE)`. */
  function FindAll(s: string): (r: seq<string>)
    ensures forall k :: 0 <= k < |r| ==> IsCveId(r[k])
  {
    var ms := Scan(s, 0);
    Texts(s, ms)
  }

  /** Python's `<` on strings: lexicographic by code point. */
  predicate Below(a: string, b: string)
    decreases |a|
  {
    if a == [] then b != []
    else b != [] && (a[0] < b[0] || (a[0] == b[0] && Below(a[1..], b[1..])))
  }

  lemma {:induction false} BelowIrreflexive(a: string)
    ensures !Below(a, a)
    decreases |a|
  {
    if a != [] {
      BelowIrreflexive(a[1..]);
    }
  }

  lemma {:induction false} BelowTransitive(a: string, b: string, c: string)
    requires Below(a, b) && Below(b, c)
    ensures Below(a, c)
    decreases |a|
  {
    if a != [] && a[0] == b[0] && b[0] == c[0] {
      BelowTransitive(a[1..], b[1..], c[1..]);
    }
  }

  lemma {:induction false} BelowTotal(a: string, b: string)
    requires a != b
    ensures Below(a, b) || Below(b, a)
    decreases |a|
  {
    if a != [] && b != [] && a[0] == b[0] {
      assert a[1..] != b[1..];
      BelowTotal(a[1..], b[1..]);
    }
  }

  /** Strictly ascending: sorted and free of duplicates. */
  predicate Ascending(xs: seq<string>) {
    forall i, j :: 0 <= i < j < |xs| ==> Below(xs[i], xs[j])
  }

  /** `x` added to an ascending list, in its place, unless already present. */
  function Insert(xs: seq<string>, x: string): (r: seq<string>)
    requires Ascending(xs)
    ensures Ascending(r)
    ensures forall y :: y in r <==> y in xs || y == x
  {
    if xs == [] then [x]
    else if x == xs[0] then xs
    else if Below(x, xs[0]) then
      assert forall j :: 0 <= j < |xs| ==> Below(x, xs[j]) by {
        forall j | 0 <= j < |xs| ensures Below(x, xs[j]) {
          if j > 0 {
            BelowTransitive(x, xs[0], xs[j]);
          }
        }
      }
      [x] + xs
    else
      BelowTotal(x, xs[0]);
      var rest := Insert(xs[1..], x);
      assert forall y :: y in rest ==> Below(xs[0], y) by {
        forall y | y in rest ensures Below(xs[0], y) {
          if y != x {
            var j :| 0 <= j < |xs[1..]| && xs[1..][j] == y;
            assert xs[j + 1] == y;
          }
        }
      }
      [xs[0]] + rest
  }

  /** `sorted(set(xs))` for a list of strings. */
  function SortedSet(xs: seq<string>): (r: seq<string>)
    ensures Ascending(r)
    ensures forall y :: y in r <==> y in xs
  {
    if xs == [] then [] else Insert(SortedSet(xs[1..]), xs[0])
  }

  /** The head of an ascending list is below its other elements. */
  lemma HeadBelow(a: seq<string>, y: string)
    requires Ascending(a) && y in a && y != a[0]
    ensures Below(a[0], y)
  {
  }

  /** An ascending list is determined by its elements: the result of
      `sorted(set(...))` does not depend on where the elements came from. */
  lemma {:induction false} AscendingUnique(a: seq<string>, b: seq<string>)
    requires Ascending(a) && Ascending(b)
    requires forall y :: y in a <==> y in b
    ensures a == b
  {
    if a != [] && b != [] {
      if a[0] != b[0] {
        HeadBelow(b, a[0]);
        HeadBelow(a, b[0]);
        BelowTransitive(a[0], b[0], a[0]);
        BelowIrreflexive(a[0]);
      }
      forall y ensures y in a[1..] <==> y in b[1..] {
        BelowIrreflexive(a[0]);
        if y in a[1..] {
          HeadBelow(a, y);
        }
        if y in b[1..] {
          HeadBelow(b, y);
        }
      }
      AscendingUnique(a[1..], b[1..]);
      assert a == [a[0]] + a[1..] && b == [b[0]] + b[1..];
    } else {
      SameEmpty(a, b);
    }
  }

  lemma SameEmpty(a: seq<string>, b: seq<string>)
    requires forall y :: y in a <==> y in b
    ensures a == [] <==> b == []
  {
    if a != [] {
      assert a[0] in a;
    }
    if b != [] {
      assert b[0] in b;
    }
  }

  /** `extract_cve_ids(text)`: the identifiers `findall` returns, sorted and
      without duplicates. */
  function ExtractCveIds(text: string): (r: seq<string>)
    ensures Ascending(r)
    ensures forall x :: x in r <==> x in FindAll(text)
    ensures forall k :: 0 <= k < |r| ==> IsCveId(r[k])
  {
    var r := SortedSet(FindAll(text));
    assert forall k :: 0 <= k < |r| ==> r[k] in FindAll(text);
    r
  }

  /** Every identifier the regex matches in the text is extracted. */
  lemma ExtractsEveryMatch(text: string, p: nat)
    requires p < |text| && MatchAt(text, p).Some?
    ensures text[p..MatchAt(text, p).value] in ExtractCveIds(text)
  {
    FindsEveryMatch(text, p);
    var ms := Scan(text, 0);
    var k :| 0 <= k < |ms| && ms[k] == (p, MatchAt(text, p).value);
    assert FindAll(text)[k] == text[p..MatchAt(text, p).value];
  }

  /** Every extracted identifier is a match found in the text, at a position
      this lemma names. */
  lemma ExtractedIsMatch(text: string, x: string) returns (p: nat, j: nat)
    requires x in ExtractCveIds(text)
    ensures MatchAt(text, p) == Some(j) && text[p..j] == x
  {
    var ms := Scan(text, 0);
    var k :| 0 <= k < |FindAll(text)| && FindAll(text)[k] == x;
    p, j := ms[k].0, ms[k].1;
  }

  /** `sorted(set(current + new))`: the sorted union of two lists of ids. */
  function SortedUnion(current: seq<string>, added: seq<string>): (r: seq<string>)
    ensures Ascending(r)
    ensures forall y :: y in r <==> y in current || y in added
  {
    SortedSet(current + added)
  }
}
