/**
 * Sequence helpers shared by the filter engine and the aggregation engine:
 * a stable filter (JavaScript's `Array.prototype.filter`), subsequences,
 * and left-to-right sums (the `reduce((sum, d) => sum + ..., 0)` pattern).
 *
 * Everything is defined by recursion on the LAST element, which mirrors the
 * left-to-right order in which `filter` and `reduce` visit an array.
 */
module Sequences {

  /** The elements of `s` that satisfy `p`, in their original order. */
  function Keep<T>(s: seq<T>, p: T -> bool): (r: seq<T>)
    ensures |r| <= |s|
    decreases |s|
  {
    if s == [] then []
    else Keep(s[..|s| - 1], p) + (if p(s[|s| - 1]) then [s[|s| - 1]] else [])
  }

  /** The conjunction of two predicates. */
  function Both<T>(p: T -> bool, q: T -> bool): T -> bool
  {
    x => p(x) && q(x)
  }

  /** `a` can be obtained from `b` by deleting elements (order is kept). */
  predicate IsSubsequence<T(==)>(a: seq<T>, b: seq<T>)
    decreases |b|
  {
    a == [] ||
    (b != [] &&
     ((a[|a| - 1] == b[|b| - 1] && IsSubsequence(a[..|a| - 1], b[..|b| - 1])) ||
      IsSubsequence(a, b[..|b| - 1])))
  }

  /** Left-to-right sum of `val` over `s`. */
  function Total<T>(s: seq<T>, val: T -> int): int
    decreases |s|
  {
    if s == [] then 0 else Total(s[..|s| - 1], val) + val(s[|s| - 1])
  }

  /** Left-to-right sum of a sequence of numbers. */
  function Sum(s: seq<int>): int
    decreases |s|
  {
    if s == [] then 0 else Sum(s[..|s| - 1]) + s[|s| - 1]
  }

  function Min(a: int, b: int): int
  {
    if a <= b then a else b
  }

  /** The prefix of length `i + 1` extends the prefix of length `i` by `s[i]`. */
  lemma PrefixExtend<T>(s: seq<T>, i: nat)
    requires i < |s|
    ensures s[..i + 1] == s[..i] + [s[i]]
  {
  }

  lemma KeepAppend<T>(s: seq<T>, x: T, p: T -> bool)
    ensures Keep(s + [x], p) == Keep(s, p) + (if p(x) then [x] else [])
  {
    assert (s + [x])[..|s|] == s;
  }

  lemma TotalAppend<T>(s: seq<T>, x: T, val: T -> int)
    ensures Total(s + [x], val) == Total(s, val) + val(x)
  {
    assert (s + [x])[..|s|] == s;
  }

  lemma {:induction false} SumConcat(a: seq<int>, b: seq<int>)
    ensures Sum(a + b) == Sum(a) + Sum(b)
    decreases |b|
  {
    if b != [] {
      var b' := b[..|b| - 1];
      assert (a + b)[..|a + b| - 1] == a + b';
      SumConcat(a, b');
    } else {
      assert a + b == a;
    }
  }

  lemma {:induction false} KeepConcat<T>(a: seq<T>, b: seq<T>, p: T -> bool)
    ensures Keep(a + b, p) == Keep(a, p) + Keep(b, p)
    decreases |b|
  {
    if b == [] {
      assert a + b == a;
    } else {
      var b' := b[..|b| - 1];
      assert a + b == (a + b') + [b[|b| - 1]];
      KeepAppend(a + b', b[|b| - 1], p);
      KeepConcat(a, b', p);
    }
  }

  /** Filtering keeps order and adds nothing: the result is a subsequence. */
  lemma {:induction false} KeepIsSubsequence<T>(s: seq<T>, p: T -> bool)
    ensures IsSubsequence(Keep(s, p), s)
    decreases |s|
  {
    if s != [] {
      var s', x := s[..|s| - 1], s[|s| - 1];
      KeepIsSubsequence(s', p);
      var k := Keep(s', p);
      if p(x) {
        assert Keep(s, p) == k + [x];
        assert (k + [x])[..|k|] == k;
      } else {
        assert Keep(s, p) == k;
      }
    }
  }

  /**
   * Filtering neither adds, drops nor duplicates a passing element: each
   * element that satisfies `p` occurs exactly as often as in `s`, every other
   * element not at all.
   */
  lemma {:induction false} KeepCount<T>(s: seq<T>, p: T -> bool, x: T)
    ensures multiset(Keep(s, p))[x] == if p(x) then multiset(s)[x] else 0
    decreases |s|
  {
    if s != [] {
      var s', y := s[..|s| - 1], s[|s| - 1];
      assert s == s' + [y];
      KeepCount(s', p, x);
    }
  }

  lemma KeepMembers<T>(s: seq<T>, p: T -> bool)
    ensures forall x :: x in Keep(s, p) <==> x in s && p(x)
  {
    forall x
      ensures x in Keep(s, p) <==> x in s && p(x)
    {
      KeepCount(s, p, x);
      assert x in Keep(s, p) <==> multiset(Keep(s, p))[x] > 0;
      assert x in s <==> multiset(s)[x] > 0;
    }
  }

  /** A filter that every element passes is the identity. */
  lemma {:induction false} KeepAllPass<T>(s: seq<T>, p: T -> bool)
    requires forall i :: 0 <= i < |s| ==> p(s[i])
    ensures Keep(s, p) == s
    decreases |s|
  {
    if s != [] {
      KeepAllPass(s[..|s| - 1], p);
    }
  }

  /** Two successive filters are one filter by the conjunction. */
  lemma {:induction false} KeepCompose<T>(s: seq<T>, p: T -> bool, q: T -> bool)
    ensures Keep(Keep(s, p), q) == Keep(s, Both(p, q))
    decreases |s|
  {
    if s != [] {
      var s', x := s[..|s| - 1], s[|s| - 1];
      KeepCompose(s', p, q);
      assert Both(p, q)(x) == (p(x) && q(x));
      if p(x) {
        assert Keep(s, p) == Keep(s', p) + [x];
        KeepAppend(Keep(s', p), x, q);
      } else {
        assert Keep(s, p) == Keep(s', p);
      }
    }
  }

  /** Filters by pointwise-equal predicates agree. */
  lemma {:induction false} KeepExt<T>(s: seq<T>, p: T -> bool, q: T -> bool)
    requires forall i :: 0 <= i < |s| ==> p(s[i]) == q(s[i])
    ensures Keep(s, p) == Keep(s, q)
    decreases |s|
  {
    if s != [] {
      KeepExt(s[..|s| - 1], p, q);
    }
  }

  /** Filtering a prefix gives a prefix of the filtered whole. */
  lemma {:induction false} KeepPrefix<T>(s: seq<T>, n: nat, p: T -> bool)
    requires n <= |s|
    ensures Keep(s[..n], p) <= Keep(s, p)
    decreases |s|
  {
    if n < |s| {
      var s' := s[..|s| - 1];
      assert s[..n] == s'[..n];
      KeepPrefix(s', n, p);
    } else {
      assert s[..n] == s;
    }
  }

  /**
   * An element that passes sits in the filtered list at the position given
   * by the number of passing elements before it.
   */
  lemma KeepAt<T>(s: seq<T>, p: T -> bool, a: nat)
    requires a < |s| && p(s[a])
    ensures |Keep(s[..a], p)| < |Keep(s, p)|
    ensures Keep(s, p)[|Keep(s[..a], p)|] == s[a]
  {
    KeepPrefix(s, a + 1, p);
    assert s[..a + 1] == s[..a] + [s[a]];
    KeepAppend(s[..a], s[a], p);
  }

  /** A passing element at `a` puts more passing elements before `b > a`. */
  lemma KeepCountLess<T>(s: seq<T>, p: T -> bool, a: nat, b: nat)
    requires a < b <= |s| && p(s[a])
    ensures |Keep(s[..a], p)| < |Keep(s[..b], p)|
  {
    assert s[..b][..a] == s[..a];
    KeepAt(s[..b], p, a);
  }

  /** Every element of the filtered list comes from some position of `s`. */
  lemma {:induction false} KeepSource<T>(s: seq<T>, p: T -> bool, i: nat) returns (a: nat)
    requires i < |Keep(s, p)|
    ensures a < |s| && s[a] == Keep(s, p)[i]
    decreases |s|
  {
    var s', z := s[..|s| - 1], s[|s| - 1];
    assert s == s' + [z];
    KeepAppend(s', z, p);
    if i < |Keep(s', p)| {
      a := KeepSource(s', p, i);
    } else {
      a := |s'|;
    }
  }

  /** Filtering keeps order: the filtered list's elements come from increasing positions. */
  lemma {:induction false} KeepBefore<T>(s: seq<T>, p: T -> bool, i: nat, j: nat) returns (a: nat, b: nat)
    requires i < j < |Keep(s, p)|
    ensures a < b < |s| && s[a] == Keep(s, p)[i] && s[b] == Keep(s, p)[j]
    decreases |s|
  {
    var s', z := s[..|s| - 1], s[|s| - 1];
    assert s == s' + [z];
    KeepAppend(s', z, p);
    if j < |Keep(s', p)| {
      a, b := KeepBefore(s', p, i, j);
    } else {
      a := KeepSource(s', p, i);
      b := |s'|;
    }
  }
}
