/** Python string behaviour the pipeline relies on: the `in` substring test,
    `str.endswith`, the code-point lexicographic order used by `sorted`, and
    the decimal rendering of an `int` inside an f-string.
 */
module Strings {

  /** `sub` occurs in `s` starting at index `i`. */
  predicate OccursAt(s: string, sub: string, i: nat)
  {
    i + |sub| <= |s| && s[i..i + |sub|] == sub
  }

  /** Python's `sub in s` for two strings. */
  predicate Contains(s: string, sub: string)
  {
    exists i: nat | i <= |s| :: OccursAt(s, sub, i)
  }

  /** Python's `s.endswith(suffix)`. */
  predicate EndsWith(s: string, suffix: string)
  {
    |suffix| <= |s| && s[|s| - |suffix|..] == suffix
  }

  /** Python's `a < b` on strings: lexicographic on code points, a proper
      prefix sorting first. */
  predicate Less(a: string, b: string)
    decreases |a|
  {
    if |a| == 0 then |b| > 0
    else if |b| == 0 then false
    else a[0] < b[0] || (a[0] == b[0] && Less(a[1..], b[1..]))
  }

  lemma {:induction false} LessIrreflexive(a: string)
    ensures !Less(a, a)
    decreases |a|
  {
    if |a| > 0 {
      LessIrreflexive(a[1..]);
    }
  }

  lemma {:induction false} LessTransitive(a: string, b: string, c: string)
    requires Less(a, b) && Less(b, c)
    ensures Less(a, c)
    decreases |a|
  {
    if |a| > 0 && a[0] == b[0] && b[0] == c[0] {
      LessTransitive(a[1..], b[1..], c[1..]);
    }
  }

  /** Any two different strings are ordered one way or the other, so
      `sorted` on distinct keys has exactly one answer. */
  lemma {:induction false} LessTotal(a: string, b: string)
    requires a != b
    ensures Less(a, b) || Less(b, a)
    decreases |a|
  {
    if |a| > 0 && |b| > 0 && a[0] == b[0] {
      assert a == [a[0]] + a[1..] && b == [b[0]] + b[1..];
      LessTotal(a[1..], b[1..]);
    }
  }

  predicate Distinct<T(==)>(s: seq<T>)
  {
    forall i, j | 0 <= i < j < |s| :: s[i] != s[j]
  }

  /** `a` can be obtained from `b` by deleting elements: it keeps `b`'s
      order. */
  predicate IsSubsequence<T(==)>(a: seq<T>, b: seq<T>)
    decreases |b|
  {
    |a| == 0 || (|b| > 0 && ((a[0] == b[0] && IsSubsequence(a[1..], b[1..])) || IsSubsequence(a, b[1..])))
  }

  /** Strictly ascending in Python's string order. */
  predicate Ascending(s: seq<string>)
  {
    forall i, j | 0 <= i < j < |s| :: Less(s[i], s[j])
  }

  /** A strictly ascending sequence repeats nothing. */
  lemma AscendingDistinct(s: seq<string>)
    requires Ascending(s)
    ensures Distinct(s)
  {
    forall i, j | 0 <= i < j < |s|
      ensures s[i] != s[j]
    {
      LessIrreflexive(s[i]);
    }
  }

  /** A sequence without repetitions whose elements come from `pool` is no
      longer than `pool`. */
  lemma {:induction false} DistinctWithin<T>(s: seq<T>, pool: set<T>)
    requires Distinct(s)
    requires forall i | 0 <= i < |s| :: s[i] in pool
    ensures |s| <= |pool|
    decreases |s|
  {
    if |s| > 0 {
      assert forall i | 0 <= i < |s| - 1 :: s[1..][i] == s[i + 1] && s[i + 1] != s[0];
      DistinctWithin(s[1..], pool - {s[0]});
    }
  }

  lemma BelowHeadBelowAll(x: string, s: seq<string>)
    requires Ascending(s) && |s| > 0 && Less(x, s[0])
    ensures forall k | 0 <= k < |s| :: Less(x, s[k])
  {
    forall k | 0 < k < |s|
      ensures Less(x, s[k])
    {
      LessTransitive(x, s[0], s[k]);
    }
  }

  lemma ConsAscending(h: string, x: string, rest: seq<string>, t: seq<string>)
    requires Ascending([h] + rest) && Less(h, x)
    requires Ascending(t) && multiset(t) == multiset(rest) + multiset{x}
    ensures Ascending([h] + t)
  {
    forall k | 0 <= k < |t|
      ensures Less(h, t[k])
    {
      assert t[k] in multiset(t);
      if t[k] != x {
        assert t[k] in multiset(rest);
        assert t[k] in rest;
        var m :| 0 <= m < |rest| && rest[m] == t[k];
        assert ([h] + rest)[0] == h && ([h] + rest)[m + 1] == t[k];
      }
    }
  }

  /** Inserts `x` into an ascending sequence that does not hold it. */
  function Insert(x: string, s: seq<string>): (r: seq<string>)
    requires Ascending(s) && x !in s
    ensures Ascending(r)
    ensures multiset(r) == multiset(s) + multiset{x}
    decreases |s|
  {
    if |s| == 0 then [x]
    else if Less(x, s[0]) then
      BelowHeadBelowAll(x, s);
      [x] + s
    else
      LessTotal(x, s[0]);
      assert s == [s[0]] + s[1..];
      var t := Insert(x, s[1..]);
      ConsAscending(s[0], x, s[1..], t);
      [s[0]] + t
  }

  /** Python's `sorted` on a list of distinct strings. */
  function Sort(s: seq<string>): (r: seq<string>)
    requires Distinct(s)
    ensures Ascending(r)
    ensures multiset(r) == multiset(s)
    decreases |s|
  {
    if |s| == 0 then []
    else
      var t := Sort(s[1..]);
      assert s[0] !in multiset(s[1..]);
      assert s == [s[0]] + s[1..];
      Insert(s[0], t)
  }

  function DigitChar(d: nat): char
    requires d < 10
  {
    "0123456789"[d]
  }

  function NatToString(n: nat): string
    decreases n
  {
    if n < 10 then [DigitChar(n)] else NatToString(n / 10) + [DigitChar(n % 10)]
  }

  /** `str(n)` for a Python `int`. */
  function IntToString(n: int): string
  {
    if n < 0 then "-" + NatToString(-n) else NatToString(n)
  }
}
