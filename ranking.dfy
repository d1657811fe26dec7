/**
 * The two sorts the aggregation engine performs:
 *  - the product entries (name, summed sales) sorted by descending total with
 *    a STABLE sort (entries with equal totals keep their first-seen order),
 *    of which the first five are kept;
 *  - the month keys sorted ascending.
 *
 * Both sorts are modelled by insertion sort, which is stable; the contracts
 * say what any correct sort with the same comparator returns.
 */
module Ranking {
  import opened Sequences
  import opened Records
  import opened Grouping

  /** One `[name, total]` pair of `Object.entries(productSales)`. */
  datatype Entry = Entry(name: string, total: int)

  /** How many products the pie chart shows. */
  const TopCount: nat := 5

  /** Non-increasing by total: what the comparator `(a, b) => b - a` sorts to. */
  predicate Descending(es: seq<Entry>)
  {
    forall i, j :: 0 <= i < j < |es| ==> es[i].total >= es[j].total
  }

  /** The predicate "this entry's total is `v`". */
  function TotalIs(v: int): Entry -> bool
  {
    (e: Entry) => e.total == v
  }

  /**
   * Inserts `x` into a descending sequence, before every entry whose total is
   * not larger (so before the entries that tie with it).
   */
  function InsertByTotal(x: Entry, t: seq<Entry>): (r: seq<Entry>)
    requires Descending(t)
    ensures multiset(r) == multiset(t) + multiset{x}
    ensures Descending(r)
    decreases |t|
  {
    if t == [] || x.total >= t[0].total then
      ConsDescending(x, t);
      [x] + t
    else
      DescendingTail(t);
      var rest := InsertByTotal(x, t[1..]);
      assert t == [t[0]] + t[1..];
      InsertedBelowHead(x, t, rest);
      ConsDescending(t[0], rest);
      [t[0]] + rest
  }

  lemma DescendingTail(t: seq<Entry>)
    requires Descending(t) && t != []
    ensures Descending(t[1..])
  {
    assert forall i :: 0 <= i < |t| - 1 ==> t[1..][i] == t[i + 1];
  }

  /**
   * Inserting an entry smaller than the head of `t` into its tail gives a
   * sequence that the head still bounds.
   */
  lemma InsertedBelowHead(x: Entry, t: seq<Entry>, rest: seq<Entry>)
    requires Descending(t) && t != [] && x.total < t[0].total
    requires multiset(rest) == multiset(t[1..]) + multiset{x}
    ensures rest != [] && t[0].total >= rest[0].total
  {
    assert x in multiset(rest);
    var y := rest[0];
    assert y in multiset(rest);
    if y != x {
      assert y in t[1..];
      var j :| 0 <= j < |t[1..]| && t[1..][j] == y;
      assert t[j + 1] == y;
    }
  }

  /** A sequence holding the elements of `t` and `x` holds nothing else. */
  lemma MembersOfUnion<T>(r: seq<T>, t: seq<T>, x: T)
    requires multiset(r) == multiset(t) + multiset{x}
    ensures forall y :: y in r ==> y == x || y in t
  {
    forall y | y in r ensures y == x || y in t {
      assert y in multiset(r);
    }
  }

  /** Putting an entry no smaller than all of `t` in front keeps it descending. */
  lemma ConsDescending(e: Entry, t: seq<Entry>)
    requires Descending(t)
    requires t == [] || e.total >= t[0].total
    ensures Descending([e] + t)
  {
    forall i, j | 0 <= i < j < |t| + 1
      ensures ([e] + t)[i].total >= ([e] + t)[j].total
    {
      if i == 0 && j > 1 {
        assert t[0].total >= t[j - 1].total;
      }
    }
  }

  /** Stable sort by descending total. */
  function SortByTotal(es: seq<Entry>): (r: seq<Entry>)
    ensures multiset(r) == multiset(es)
    ensures Descending(r)
    decreases |es|
  {
    if es == [] then []
    else
      assert es == [es[0]] + es[1..];
      InsertByTotal(es[0], SortByTotal(es[1..]))
  }

  /** The first `TopCount` entries of the sorted list: `.sort(...).slice(0, 5)`. */
  function TopFive(es: seq<Entry>): (r: seq<Entry>)
    ensures |r| == Min(TopCount, |es|)
  {
    var sorted := SortByTotal(es);
    assert |sorted| == |multiset(sorted)| == |es|;
    sorted[..Min(TopCount, |es|)]
  }

  lemma KeepSingle<T>(x: T, p: T -> bool)
    ensures Keep([x], p) == if p(x) then [x] else []
  {
    assert [x][..0] == [];
  }

  /** Inserting `x` places it first among the entries that tie with it. */
  lemma {:induction false} InsertByTotalStable(x: Entry, t: seq<Entry>, v: int)
    requires Descending(t)
    ensures Keep(InsertByTotal(x, t), TotalIs(v)) == Keep([x], TotalIs(v)) + Keep(t, TotalIs(v))
    decreases |t|
  {
    var p := TotalIs(v);
    if t == [] || x.total >= t[0].total {
      assert InsertByTotal(x, t) == [x] + t;
      KeepConcat([x], t, p);
    } else {
      var rest := InsertByTotal(x, t[1..]);
      assert InsertByTotal(x, t) == [t[0]] + rest;
      InsertByTotalStable(x, t[1..], v);
      KeepConcat([t[0]], rest, p);
      assert t == [t[0]] + t[1..];
      KeepConcat([t[0]], t[1..], p);
      KeepSingle(t[0], p);
      KeepSingle(x, p);
      SwapEmpty(Keep([t[0]], p), Keep([x], p), Keep(t[1..], p));
    }
  }

  /** Two sequences of which one is empty can be swapped in front of a third. */
  lemma SwapEmpty<T>(a: seq<T>, b: seq<T>, c: seq<T>)
    requires a == [] || b == []
    ensures a + (b + c) == b + (a + c)
  {
    if a == [] {
      assert a + (b + c) == b + c == b + (a + c);
    } else {
      assert a + (b + c) == a + c == b + (a + c);
    }
  }

  /**
   * Stability: for every total `v`, the entries with total `v` appear in the
   * sorted list in exactly the order they had before sorting.
   */
  lemma {:induction false} SortByTotalStable(es: seq<Entry>, v: int)
    ensures Keep(SortByTotal(es), TotalIs(v)) == Keep(es, TotalIs(v))
    decreases |es|
  {
    if es != [] {
      SortByTotalStable(es[1..], v);
      InsertByTotalStable(es[0], SortByTotal(es[1..]), v);
      assert es == [es[0]] + es[1..];
      KeepConcat([es[0]], es[1..], TotalIs(v));
    }
  }

  /** The top five are drawn from the entries: no entry is invented or repeated. */
  lemma TopFiveDrawn(es: seq<Entry>)
    ensures multiset(TopFive(es)) <= multiset(es)
    ensures forall i :: 0 <= i < |TopFive(es)| ==> TopFive(es)[i] in es
  {
    var sorted := SortByTotal(es);
    var top := TopFive(es);
    var n := |top|;
    assert top == sorted[..n];
    assert sorted == top + sorted[n..];
    assert multiset(sorted) == multiset(top) + multiset(sorted[n..]);
    forall i | 0 <= i < n
      ensures top[i] in es
    {
      assert top[i] in multiset(es);
    }
  }

  /** The top five are in non-increasing order of total. */
  lemma TopFiveDescending(es: seq<Entry>)
    ensures Descending(TopFive(es))
  {
    var sorted := SortByTotal(es);
    assert |sorted| == |multiset(sorted)| == |es|;
    assert TopFive(es) == sorted[..|TopFive(es)|];
  }

  /** No entry left out of the top five has a larger total than the last one kept. */
  lemma TopFiveOmitted(es: seq<Entry>, e: Entry)
    requires e in es && e !in TopFive(es)
    ensures |TopFive(es)| > 0 && e.total <= TopFive(es)[|TopFive(es)| - 1].total
  {
    var sorted := SortByTotal(es);
    var top := TopFive(es);
    var n := |top|;
    assert top == sorted[..n];
    assert e in multiset(sorted);
    var j :| 0 <= j < |sorted| && sorted[j] == e;
    assert j >= n;
  }

  /**
   * The top-five list: it has min(5, n) entries, is non-increasing, is drawn
   * from the input, no omitted entry beats the last kept one, and among
   * entries with equal totals the kept ones are the first-seen ones, in
   * first-seen order.
   */
  lemma TopFiveProperties(es: seq<Entry>)
    ensures |TopFive(es)| == Min(TopCount, |es|)
    ensures Descending(TopFive(es))
    ensures multiset(TopFive(es)) <= multiset(es)
    ensures forall e :: e in es && e !in TopFive(es) ==>
              |TopFive(es)| > 0 && e.total <= TopFive(es)[|TopFive(es)| - 1].total
    ensures forall v :: Keep(TopFive(es), TotalIs(v)) <= Keep(es, TotalIs(v))
  {
    TopFiveDescending(es);
    TopFiveDrawn(es);
    forall e | e in es && e !in TopFive(es)
      ensures |TopFive(es)| > 0 && e.total <= TopFive(es)[|TopFive(es)| - 1].total
    {
      TopFiveOmitted(es, e);
    }
    forall v
      ensures Keep(TopFive(es), TotalIs(v)) <= Keep(es, TotalIs(v))
    {
      TopFiveStable(es, v);
    }
  }

  /**
   * Among the entries with total `v`, the top five keep a prefix of them in
   * their original order.
   */
  lemma TopFiveStable(es: seq<Entry>, v: int)
    ensures Keep(TopFive(es), TotalIs(v)) <= Keep(es, TotalIs(v))
  {
    var sorted := SortByTotal(es);
    assert |sorted| == |multiset(sorted)| == |es|;
    assert TopFive(es) == sorted[..|TopFive(es)|];
    KeepPrefix(sorted, |TopFive(es)|, TotalIs(v));
    SortByTotalStable(es, v);
  }

  /** Every key at most the later ones (non-strict ascending). */
  predicate Ascending(ms: seq<Month>)
  {
    forall i, j :: 0 <= i < j < |ms| ==> !MonthBefore(ms[j], ms[i])
  }

  /** Strictly ascending: sorted and without duplicates. */
  predicate StrictlyAscending(ms: seq<Month>)
  {
    forall i, j :: 0 <= i < j < |ms| ==> MonthBefore(ms[i], ms[j])
  }

  function InsertMonth(m: Month, t: seq<Month>): (r: seq<Month>)
    requires Ascending(t)
    ensures multiset(r) == multiset(t) + multiset{m}
    ensures Ascending(r)
    ensures Distinct(t) && m !in t ==> Distinct(r)
    decreases |t|
  {
    if t == [] || !MonthBefore(t[0], m) then
      ConsAscending(m, t);
      [m] + t
    else
      var rest := InsertMonth(m, t[1..]);
      assert t == [t[0]] + t[1..];
      MembersOfUnion(rest, t[1..], m);
      ConsAscending(t[0], rest);
      [t[0]] + rest
  }

  /**
   * Putting a key that no key of `t` precedes in front keeps it ascending,
   * and keeps it free of duplicates when the key is new.
   */
  lemma ConsAscending(m: Month, t: seq<Month>)
    requires Ascending(t)
    requires forall y :: y in t ==> !MonthBefore(y, m)
    ensures Ascending([m] + t)
    ensures Distinct(t) && m !in t ==> Distinct([m] + t)
  {
    forall i, j | 0 <= i < j < |t| + 1
      ensures !MonthBefore(([m] + t)[j], ([m] + t)[i])
    {
      assert t[j - 1] in t;
    }
  }

  /** `Object.keys(timeData).sort()` on month keys. */
  function SortMonths(ms: seq<Month>): (r: seq<Month>)
    ensures multiset(r) == multiset(ms)
    ensures Ascending(r)
    ensures Distinct(ms) ==> StrictlyAscending(r)
    decreases |ms|
  {
    if ms == [] then []
    else
      var rest := SortMonths(ms[1..]);
      assert ms == [ms[0]] + ms[1..];
      DistinctTail(ms, rest);
      var r := InsertMonth(ms[0], rest);
      assert Distinct(r) && Ascending(r) ==> StrictlyAscending(r);
      r
  }

  /**
   * When `ms` has no duplicates, neither has its tail, and a reordering
   * `rest` of the tail does not hold the head.
   */
  lemma DistinctTail(ms: seq<Month>, rest: seq<Month>)
    requires ms != [] && multiset(rest) == multiset(ms[1..])
    ensures Distinct(ms) ==> Distinct(ms[1..]) && ms[0] !in rest
  {
    if Distinct(ms) {
      assert forall i :: 0 <= i < |ms| - 1 ==> ms[1..][i] == ms[i + 1];
      assert ms[0] !in ms[1..];
      assert ms[0] !in multiset(rest);
    }
  }
}
