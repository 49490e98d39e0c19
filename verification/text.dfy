/** The string operations of Python's `str` that the assistant relies on:
    `strip`, `upper`, `lower`, `title`, `in`, `replace`, `join` and decimal
    rendering of integers. Case mapping covers ASCII letters only. */
module Text {
  import opened Wrappers

  /** `c.isspace()`: the characters Python treats as whitespace. */
  predicate IsSpace(c: char) {
    var n := c as int;
    (9 <= n <= 13) || (28 <= n <= 32) || n == 0x85 || n == 0xA0 || n == 0x1680
    || (0x2000 <= n <= 0x200A) || n == 0x2028 || n == 0x2029 || n == 0x202F
    || n == 0x205F || n == 0x3000
  }

  predicate AllSpace(s: string) {
    forall i :: 0 <= i < |s| ==> IsSpace(s[i])
  }

  function TrimStart(s: string): (r: string)
    ensures |r| <= |s| && r == s[|s| - |r|..]
    ensures AllSpace(s[..|s| - |r|])
    ensures r != [] ==> !IsSpace(r[0])
  {
    if s != [] && IsSpace(s[0]) then TrimStart(s[1..]) else s
  }

  function TrimEnd(s: string): (r: string)
    ensures |r| <= |s| && r == s[..|r|]
    ensures AllSpace(s[|r|..])
    ensures r != [] ==> !IsSpace(r[|r| - 1])
  {
    if s != [] && IsSpace(s[|s| - 1]) then TrimEnd(s[..|s| - 1]) else s
  }

  /** `s.strip()`: `s` is the result with whitespace runs added at both ends,
      and the result starts and ends with a non-space character. */
  function Strip(s: string): (r: string)
    ensures r != [] ==> !IsSpace(r[0]) && !IsSpace(r[|r| - 1])
  {
    TrimEnd(TrimStart(s))
  }

  /** `s` is `s.strip()` with whitespace runs added at both ends. */
  lemma StripShape(s: string)
    ensures exists i, j :: 0 <= i <= j <= |s| && Strip(s) == s[i..j] && AllSpace(s[..i]) && AllSpace(s[j..])
  {
    var t := TrimStart(s);
    var u := TrimEnd(t);
    var i := |s| - |t|;
    assert u == s[i..i + |u|];
    assert s[i + |u|..] == t[|u|..];
  }

  lemma StripPadded(pre: string, body: string, post: string)
    requires AllSpace(pre) && AllSpace(post)
    requires body != [] ==> !IsSpace(body[0]) && !IsSpace(body[|body| - 1])
    ensures Strip(pre + body + post) == body
  {
    if body == [] {
      assert pre + body + post == pre + post;
      TrimStartAll(pre + post);
    } else {
      TrimStartPadded(pre, body + post);
      assert pre + body + post == pre + (body + post);
      TrimEndPadded(body, post);
    }
  }

  lemma {:induction false} TrimStartAll(s: string)
    requires AllSpace(s)
    ensures TrimStart(s) == []
  {
    if s != [] {
      TrimStartAll(s[1..]);
    }
  }

  lemma {:induction false} TrimStartPadded(pre: string, s: string)
    requires AllSpace(pre)
    requires s != [] ==> !IsSpace(s[0])
    ensures TrimStart(pre + s) == s
  {
    if pre != [] {
      assert (pre + s)[1..] == pre[1..] + s;
      TrimStartPadded(pre[1..], s);
    }
  }

  lemma {:induction false} TrimEndPadded(s: string, post: string)
    requires AllSpace(post)
    requires s != [] ==> !IsSpace(s[|s| - 1])
    ensures TrimEnd(s + post) == s
  {
    if post != [] {
      assert (s + post)[..|s + post| - 1] == s + post[..|post| - 1];
      TrimEndPadded(s, post[..|post| - 1]);
    }
  }

  /** `not s.strip()`: the text is empty or all whitespace. */
  predicate IsBlank(s: string) {
    Strip(s) == []
  }

  predicate IsAsciiLower(c: char) { 'a' <= c <= 'z' }
  predicate IsAsciiUpper(c: char) { 'A' <= c <= 'Z' }
  predicate IsAsciiLetter(c: char) { IsAsciiLower(c) || IsAsciiUpper(c) }
  predicate IsDigit(c: char) { '0' <= c <= '9' }

  function UpperChar(c: char): char {
    if IsAsciiLower(c) then (c as int - 32) as char else c
  }

  function LowerChar(c: char): char {
    if IsAsciiUpper(c) then (c as int + 32) as char else c
  }

  /** `s.upper()`. */
  function Upper(s: string): (r: string)
    ensures |r| == |s|
    ensures forall i :: 0 <= i < |s| ==> r[i] == UpperChar(s[i])
  {
    if s == [] then [] else [UpperChar(s[0])] + Upper(s[1..])
  }

  /** No lower-case ASCII letter: `s.upper()` leaves `s` alone. */
  predicate NoAsciiLower(s: string) {
    forall i :: 0 <= i < |s| ==> !IsAsciiLower(s[i])
  }

  lemma UpperNoLower(s: string)
    ensures NoAsciiLower(Upper(s))
  {
  }

  /** Text without lower-case letters is a fixed point of `upper`. */
  lemma UpperFixed(s: string)
    requires NoAsciiLower(s)
    ensures Upper(s) == s
  {
    assert forall i :: 0 <= i < |s| ==> Upper(s)[i] == s[i];
  }

  /** `s.lower()`. */
  function Lower(s: string): (r: string)
    ensures |r| == |s|
    ensures forall i :: 0 <= i < |s| ==> r[i] == LowerChar(s[i])
  {
    if s == [] then [] else [LowerChar(s[0])] + Lower(s[1..])
  }

  /** `s.title()`: a letter is upper-cased when the character before it is not
      a letter, and lower-cased otherwise. */
  function Title(s: string): string {
    TitleAfter(s, false)
  }

  function TitleAfter(s: string, afterLetter: bool): (r: string)
    ensures |r| == |s|
  {
    if s == [] then []
    else
      var c := s[0];
      var c' := if afterLetter then LowerChar(c) else UpperChar(c);
      [c'] + TitleAfter(s[1..], IsAsciiLetter(c))
  }

  /** `pattern` occurs in `s` at position `i`. */
  predicate OccursAt(s: string, pattern: string, i: nat) {
    i + |pattern| <= |s| && s[i..i + |pattern|] == pattern
  }

  lemma OccursShift(s: string, pattern: string, i: nat)
    requires 1 <= i && s != []
    ensures OccursAt(s, pattern, i) <==> OccursAt(s[1..], pattern, i - 1)
  {
    if i + |pattern| <= |s| {
      var a := s[i..i + |pattern|];
      var b := s[1..][i - 1..i - 1 + |pattern|];
      assert |a| == |b| && forall k :: 0 <= k < |a| ==> a[k] == s[i + k] == b[k];
      assert a == b;
    }
  }

  /** `s.find(pattern)`: the first position where `pattern` occurs. */
  function IndexOf(s: string, pattern: string): (r: Option<nat>)
    ensures r.Some? ==> OccursAt(s, pattern, r.value)
    ensures r.Some? ==> forall i :: 0 <= i < r.value ==> !OccursAt(s, pattern, i)
    ensures r.None? ==> forall i :: 0 <= i <= |s| ==> !OccursAt(s, pattern, i)
  {
    if |s| < |pattern| then None
    else if s[..|pattern|] == pattern then Some(0)
    else
      var rest := IndexOf(s[1..], pattern);
      assert forall i :: 1 <= i <= |s| ==> (OccursAt(s, pattern, i) <==> OccursAt(s[1..], pattern, i - 1)) by {
        forall i | 1 <= i <= |s| ensures OccursAt(s, pattern, i) <==> OccursAt(s[1..], pattern, i - 1) {
          OccursShift(s, pattern, i);
        }
      }
      match rest
      case None => None
      case Some(j) => Some(j + 1)
  }

  lemma OccursAtChars(s: string, pattern: string, i: nat)
    requires OccursAt(s, pattern, i)
    ensures forall k :: 0 <= k < |pattern| ==> s[i + k] == pattern[k]
  {
    forall k | 0 <= k < |pattern| ensures s[i + k] == pattern[k] {
      assert s[i..i + |pattern|][k] == s[i + k];
    }
  }

  /** An occurrence at `i` means `find` succeeds at `i` or earlier. */
  lemma IndexOfAtMost(s: string, pattern: string, i: nat)
    requires OccursAt(s, pattern, i)
    ensures IndexOf(s, pattern).Some? && IndexOf(s, pattern).value <= i
  {
  }

  /** `pattern in s`. */
  predicate Contains(s: string, pattern: string) {
    IndexOf(s, pattern).Some?
  }

  /** `s.replace(pattern, repl)` for a non-empty pattern: occurrences are found
      left to right and do not overlap. */
  function ReplaceAll(s: string, pattern: string, repl: string): (r: string)
    requires pattern != []
    ensures !Contains(s, pattern) ==> r == s
    decreases |s|
  {
    if |s| < |pattern| then s
    else if s[..|pattern|] == pattern then repl + ReplaceAll(s[|pattern|..], pattern, repl)
    else
      assert !Contains(s, pattern) ==> !Contains(s[1..], pattern) by {
        if Contains(s[1..], pattern) {
          var j := IndexOf(s[1..], pattern).value;
          assert OccursAt(s, pattern, j + 1) by {
            assert s[j + 1..j + 1 + |pattern|] == s[1..][j..j + |pattern|];
          }
        }
      }
      [s[0]] + ReplaceAll(s[1..], pattern, repl)
  }

  /** Every character `c` of `s` replaced by `repl`. */
  function MapChar(s: string, c: char, repl: string): (r: string)
    ensures c !in s ==> r == s
  {
    if s == [] then [] else (if s[0] == c then repl else [s[0]]) + MapChar(s[1..], c, repl)
  }

  /** The map distributes over concatenation. */
  lemma {:induction false} MapCharAppend(a: string, b: string, c: char, repl: string)
    ensures MapChar(a + b, c, repl) == MapChar(a, c, repl) + MapChar(b, c, repl)
  {
    if a != [] {
      assert (a + b)[0] == a[0] && (a + b)[1..] == a[1..] + b;
      MapCharAppend(a[1..], b, c, repl);
      var h := if a[0] == c then repl else [a[0]];
      assert MapChar(a + b, c, repl) == h + MapChar(a[1..] + b, c, repl);
      assert MapChar(a, c, repl) == h + MapChar(a[1..], c, repl);
    } else {
      assert a + b == b;
    }
  }

  /** Every character of the mapped text is a kept character of `s` other
      than `c`, or comes from `repl`. */
  lemma {:induction false} MapCharChars(s: string, c: char, repl: string)
    ensures forall x :: x in MapChar(s, c, repl) ==> (x in s && x != c) || x in repl
  {
    if s != [] {
      MapCharChars(s[1..], c, repl);
      assert MapChar(s, c, repl) == (if s[0] == c then repl else [s[0]]) + MapChar(s[1..], c, repl);
    }
  }

  /** Replacing a one-character pattern is a character-by-character map. */
  lemma {:induction false} ReplaceOneChar(s: string, c: char, repl: string)
    ensures ReplaceAll(s, [c], repl) == MapChar(s, c, repl)
  {
    if s != [] {
      ReplaceOneChar(s[1..], c, repl);
      assert s[..1] == [s[0]];
      if s[0] == c {
        assert ReplaceAll(s, [c], repl) == repl + ReplaceAll(s[1..], [c], repl);
      } else {
        assert ReplaceAll(s, [c], repl) == [s[0]] + ReplaceAll(s[1..], [c], repl);
      }
    }
  }

  /** `sep.join(parts)`. */
  function Join(parts: seq<string>, sep: string): (r: string)
    ensures parts == [] ==> r == []
    ensures |parts| == 1 ==> r == parts[0]
  {
    if parts == [] then []
    else if |parts| == 1 then parts[0]
    else parts[0] + sep + Join(parts[1..], sep)
  }

  /** `"".join(parts)`. */
  function Concat(parts: seq<string>): string {
    if parts == [] then [] else parts[0] + Concat(parts[1..])
  }

  function DigitChar(d: nat): char
    requires d < 10
  {
    ('0' as int + d) as char
  }

  /** `str(n)` for a natural number. */
  function NatToString(n: nat): (r: string)
    ensures r != []
    ensures forall i :: 0 <= i < |r| ==> IsDigit(r[i])
    ensures |r| > 1 ==> r[0] != '0'
  {
    if n < 10 then [DigitChar(n)] else NatToString(n / 10) + [DigitChar(n % 10)]
  }

  /** `str(n)` for an integer. */
  function IntToString(n: int): string {
    if n < 0 then "-" + NatToString(-n) else NatToString(n)
  }

  /** The value of a string of decimal digits. */
  function DigitsValue(s: string): nat
    requires forall i :: 0 <= i < |s| ==> IsDigit(s[i])
  {
    if s == [] then 0
    else
      assert IsDigit(s[|s| - 1]);
      DigitsValue(s[..|s| - 1]) * 10 + (s[|s| - 1] as int - '0' as int)
  }

  /** Reading back a rendered natural number gives the number. */
  lemma {:induction false} NatToStringValue(n: nat)
    ensures DigitsValue(NatToString(n)) == n
  {
    if n >= 10 {
      NatToStringValue(n / 10);
      var s := NatToString(n);
      assert s[..|s| - 1] == NatToString(n / 10);
    }
  }

  /** `s.startswith(prefix)`. */
  predicate StartsWith(s: string, prefix: string) {
    |prefix| <= |s| && s[..|prefix|] == prefix
  }

  /** `s.split(c)` for a one-character separator: the pieces between
      occurrences of `c`, so there is one more piece than there are `c`s. */
  function SplitChar(s: string, c: char): (r: seq<string>)
    ensures |r| >= 1
    ensures forall i :: 0 <= i < |r| ==> c !in r[i]
    decreases |s|
  {
    if s == [] then [[]]
    else
      var rest := SplitChar(s[1..], c);
      if s[0] == c then [[]] + rest else [[s[0]] + rest[0]] + rest[1..]
  }

  /** Splitting pieces joined by the separator gives the pieces back. */
  lemma {:induction false} SplitJoin(a: string, rest: seq<string>, c: char)
    requires c !in a && rest != [] && forall i :: 0 <= i < |rest| ==> c !in rest[i]
    ensures SplitChar(a + [c] + Join(rest, [c]), c) == [a] + SplitChar(Join(rest, [c]), c)
    decreases |a|
  {
    if a == [] {
      assert [] + [c] + Join(rest, [c]) == [c] + Join(rest, [c]);
      assert ([c] + Join(rest, [c]))[1..] == Join(rest, [c]);
    } else {
      SplitJoin(a[1..], rest, c);
      var s := a + [c] + Join(rest, [c]);
      assert s[1..] == a[1..] + [c] + Join(rest, [c]);
      assert [a[0]] + a[1..] == a;
    }
  }

  /** A piece without the separator splits into itself. */
  lemma {:induction false} SplitNone(a: string, c: char)
    requires c !in a
    ensures SplitChar(a, c) == [a]
    decreases |a|
  {
    if a != [] {
      SplitNone(a[1..], c);
      assert [a[0]] + a[1..] == a;
    }
  }

  /** `s[:n]`: at most the first `n` characters or items. */
  function Take<T>(s: seq<T>, n: nat): (r: seq<T>)
    ensures |r| == if |s| <= n then |s| else n
    ensures r == s[..|r|]
  {
    if |s| <= n then s else s[..n]
  }
}
