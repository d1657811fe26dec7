/**
 * Group-by over records, as the dashboard's `reduce` accumulators do it:
 * a JavaScript object used as a dictionary, whose keys come out in the
 * order they were first inserted and whose values are running sums.
 *
 * This module holds the specification of that pattern: the distinct keys in
 * first-seen order (`FirstSeen`), the per-key sum (`GroupSum`, the sum over
 * the records a filter by that key keeps) and the partition property that
 * the per-key sums add up to the overall total.
 */
module Grouping {
  import opened Sequences
  import opened Records

  /** Some record of `s` has key `k`. */
  predicate HasKey<K(==)>(s: seq<Record>, key: Record -> K, k: K)
    decreases |s|
  {
    s != [] && (key(s[|s| - 1]) == k || HasKey(s[..|s| - 1], key, k))
  }

  predicate Distinct<K(==)>(ks: seq<K>)
  {
    forall i, j :: 0 <= i < j < |ks| ==> ks[i] != ks[j]
  }

  /** A sequence without duplicates holds each value at most once. */
  lemma {:induction false} DistinctCount<T>(b: seq<T>, x: T)
    requires Distinct(b)
    ensures multiset(b)[x] <= 1
    decreases |b|
  {
    if b != [] {
      var b' := b[..|b| - 1];
      assert b == b' + [b[|b| - 1]];
      assert Distinct(b');
      DistinctCount(b', x);
      if x == b[|b| - 1] {
        assert x !in b';
      }
    }
  }

  /** Part of a sequence without duplicates has no duplicates either. */
  lemma DistinctSub<T>(a: seq<T>, b: seq<T>)
    requires multiset(a) <= multiset(b)
    requires Distinct(b)
    ensures Distinct(a)
  {
    forall i, j | 0 <= i < j < |a|
      ensures a[i] != a[j]
    {
      if a[i] == a[j] {
        assert a == a[..j] + [a[j]] + a[j + 1..];
        assert a[i] in a[..j];
        assert multiset(a)[a[j]] >= 2;
        DistinctCount(b, a[j]);
        assert false;
      }
    }
  }

  /** The predicate "this record has key `k`". */
  function KeyIs<K(==)>(key: Record -> K, k: K): Record -> bool
  {
    d => key(d) == k
  }

  /** A key that no record has differs from the key of every record. */
  lemma {:induction false} NoKeyAt<K>(s: seq<Record>, key: Record -> K, k: K)
    requires !HasKey(s, key, k)
    ensures forall j :: 0 <= j < |s| ==> key(s[j]) != k
    decreases |s|
  {
    if s != [] {
      NoKeyAt(s[..|s| - 1], key, k);
      assert forall j :: 0 <= j < |s| - 1 ==> s[j] == s[..|s| - 1][j];
    }
  }

  /** Position of the first record whose key is `k`. */
  function FirstAt<K(==)>(s: seq<Record>, key: Record -> K, k: K): (i: nat)
    requires HasKey(s, key, k)
    ensures i < |s| && key(s[i]) == k
    ensures forall j :: 0 <= j < i ==> key(s[j]) != k
    decreases |s|
  {
    var s' := s[..|s| - 1];
    if HasKey(s', key, k) then
      assert forall j :: 0 <= j < |s'| ==> s[j] == s'[j];
      FirstAt(s', key, k)
    else
      NoKeyAt(s', key, k);
      assert forall j :: 0 <= j < |s'| ==> s[j] == s'[j];
      |s| - 1
  }

  /**
   * The distinct keys of `s` in the order of their first occurrence: what
   * `Object.keys` returns for an accumulator filled by one pass over `s`,
   * and what `[...new Set(s.map(key))]` returns.
   */
  function FirstSeen<K(==)>(s: seq<Record>, key: Record -> K): (r: seq<K>)
    ensures Distinct(r)
    ensures forall i :: 0 <= i < |r| ==> HasKey(s, key, r[i])
    ensures forall j :: 0 <= j < |s| ==> key(s[j]) in r
    decreases |s|
  {
    if s == [] then []
    else
      var s', k := s[..|s| - 1], key(s[|s| - 1]);
      var prev := FirstSeen(s', key);
      assert forall j :: 0 <= j < |s'| ==> s[j] == s'[j];
      if k in prev then prev else prev + [k]
  }

  /** Appending a record lists its key at the end when the key is new. */
  lemma FirstSeenStep<K>(s: seq<Record>, x: Record, key: Record -> K)
    ensures FirstSeen(s + [x], key) ==
              if key(x) in FirstSeen(s, key) then FirstSeen(s, key) else FirstSeen(s, key) + [key(x)]
  {
    assert (s + [x])[..|s|] == s;
  }

  /** A key is listed exactly when some record has it. */
  lemma FirstSeenHasKey<K>(s: seq<Record>, key: Record -> K, k: K)
    ensures k in FirstSeen(s, key) <==> HasKey(s, key, k)
  {
    if HasKey(s, key, k) {
      var j := FirstAt(s, key, k);
      assert key(s[j]) in FirstSeen(s, key);
    }
  }

  /** Records that all carry the same key `k` have the one key `k`. */
  lemma {:induction false} FirstSeenSingle<K>(s: seq<Record>, key: Record -> K, k: K)
    requires s != []
    requires forall j :: 0 <= j < |s| ==> key(s[j]) == k
    ensures FirstSeen(s, key) == [k]
    decreases |s|
  {
    var s' := s[..|s| - 1];
    if s' == [] {
      assert FirstSeen(s', key) == [];
    } else {
      assert forall j :: 0 <= j < |s'| ==> s'[j] == s[j];
      FirstSeenSingle(s', key, k);
    }
  }

  /** The records with a key that occurs form a non-empty group with that one key. */
  lemma GroupOfKey<K>(s: seq<Record>, key: Record -> K, k: K)
    requires HasKey(s, key, k)
    ensures Keep(s, KeyIs(key, k)) != []
    ensures FirstSeen(Keep(s, KeyIs(key, k)), key) == [k]
  {
    var f := Keep(s, KeyIs(key, k));
    var j := FirstAt(s, key, k);
    KeepMembers(s, KeyIs(key, k));
    assert s[j] in f;
    assert forall i :: 0 <= i < |f| ==> f[i] in f;
    FirstSeenSingle(f, key, k);
  }

  /** Appending a record does not move the first occurrence of a key already present. */
  lemma FirstAtAppend<K>(s: seq<Record>, x: Record, key: Record -> K, k: K)
    requires HasKey(s, key, k)
    ensures HasKey(s + [x], key, k)
    ensures FirstAt(s + [x], key, k) == FirstAt(s, key, k)
  {
    assert (s + [x])[..|s|] == s;
  }

  /** A key first carried by an appended record first occurs at its position. */
  lemma FirstAtNew<K>(s: seq<Record>, x: Record, key: Record -> K)
    requires !HasKey(s, key, key(x))
    ensures HasKey(s + [x], key, key(x))
    ensures FirstAt(s + [x], key, key(x)) == |s|
  {
    assert (s + [x])[..|s|] == s;
  }

  /**
   * The keys come out in the order of their first occurrence: a key listed
   * earlier first occurs at an earlier record.
   */
  lemma {:induction false} FirstSeenOrder<K>(s: seq<Record>, key: Record -> K)
    ensures forall i, j :: 0 <= i < j < |FirstSeen(s, key)| ==>
              HasKey(s, key, FirstSeen(s, key)[i]) && HasKey(s, key, FirstSeen(s, key)[j]) &&
              FirstAt(s, key, FirstSeen(s, key)[i]) < FirstAt(s, key, FirstSeen(s, key)[j])
    decreases |s|
  {
    if s != [] {
      var s', x := s[..|s| - 1], s[|s| - 1];
      assert s == s' + [x];
      var prev := FirstSeen(s', key);
      var r := FirstSeen(s, key);
      FirstSeenOrder(s', key);
      forall i | 0 <= i < |prev|
        ensures HasKey(s, key, prev[i]) && FirstAt(s, key, prev[i]) == FirstAt(s', key, prev[i]) < |s'|
      {
        FirstAtAppend(s', x, key, prev[i]);
      }
      if key(x) !in prev {
        assert r == prev + [key(x)];
        FirstSeenHasKey(s', key, key(x));
        FirstAtNew(s', x, key);
      } else {
        assert r == prev;
      }
      forall i, j | 0 <= i < j < |r|
        ensures HasKey(s, key, r[i]) && HasKey(s, key, r[j]) && FirstAt(s, key, r[i]) < FirstAt(s, key, r[j])
      {
        if j < |prev| {
          assert r[i] == prev[i] && r[j] == prev[j];
        }
      }
    } else {
      assert FirstSeen(s, key) == [];
    }
  }

  /**
   * The sum of `val` over the records whose key is `k`: the value the
   * accumulator holds for `k` after one pass over `s`.
   */
  function GroupSum<K(==)>(s: seq<Record>, key: Record -> K, val: Record -> int, k: K): int
    decreases |s|
  {
    if s == [] then 0
    else
      var x := s[|s| - 1];
      GroupSum(s[..|s| - 1], key, val, k) + (if key(x) == k then val(x) else 0)
  }

  /** The per-key sums of `s` for the keys `ks`, in that order. */
  function GroupColumn<K(==)>(ks: seq<K>, s: seq<Record>, key: Record -> K, val: Record -> int): (r: seq<int>)
    ensures |r| == |ks|
    ensures forall i :: 0 <= i < |ks| ==> r[i] == GroupSum(s, key, val, ks[i])
  {
    seq(|ks|, i requires 0 <= i < |ks| => GroupSum(s, key, val, ks[i]))
  }

  /** `GroupSumAppend` for one key. */
  lemma GroupSumAppendAt<K>(s: seq<Record>, x: Record, key: Record -> K, val: Record -> int, k: K)
    ensures GroupSum(s + [x], key, val, k) == GroupSum(s, key, val, k) + (if key(x) == k then val(x) else 0)
  {
    assert (s + [x])[..|s|] == s;
  }

  /** One more record adds its value to its own key's sum and to no other. */
  lemma GroupSumAppend<K>(s: seq<Record>, x: Record, key: Record -> K, val: Record -> int)
    ensures forall k :: GroupSum(s + [x], key, val, k) ==
                        GroupSum(s, key, val, k) + (if key(x) == k then val(x) else 0)
  {
    assert (s + [x])[..|s|] == s;
  }

  /**
   * The per-key sum is the total over the records that a filter by that key
   * keeps: grouping and then reading one group agrees with filtering first.
   */
  lemma {:induction false} GroupSumIsFilteredTotal<K>(s: seq<Record>, key: Record -> K, val: Record -> int, k: K)
    ensures GroupSum(s, key, val, k) == Total(Keep(s, KeyIs(key, k)), val)
    decreases |s|
  {
    if s != [] {
      var s', x := s[..|s| - 1], s[|s| - 1];
      var p := KeyIs(key, k);
      assert s == s' + [x];
      GroupSumIsFilteredTotal(s', key, val, k);
      KeepAppend(s', x, p);
      if key(x) == k {
        assert Keep(s, p) == Keep(s', p) + [x];
        TotalAppend(Keep(s', p), x, val);
      } else {
        assert Keep(s, p) == Keep(s', p);
      }
    }
  }

  /** A key no record carries has sum zero. */
  lemma {:induction false} GroupSumUnseen<K>(s: seq<Record>, key: Record -> K, val: Record -> int, k: K)
    requires !HasKey(s, key, k)
    ensures GroupSum(s, key, val, k) == 0
    decreases |s|
  {
    if s != [] {
      var s' := s[..|s| - 1];
      GroupSumUnseen(s', key, val, k);
      assert s == s' + [s[|s| - 1]];
      GroupSumAppend(s', s[|s| - 1], key, val);
    }
  }

  lemma GroupColumnConcat<K>(a: seq<K>, b: seq<K>, s: seq<Record>, key: Record -> K, val: Record -> int)
    ensures GroupColumn(a + b, s, key, val) == GroupColumn(a, s, key, val) + GroupColumn(b, s, key, val)
  {
  }

  /** The column sum over `ks` is the one over all but its last key plus that key's sum. */
  lemma ColumnSumLast<K>(ks: seq<K>, s: seq<Record>, key: Record -> K, val: Record -> int)
    requires ks != []
    ensures Sum(GroupColumn(ks, s, key, val)) ==
            Sum(GroupColumn(ks[..|ks| - 1], s, key, val)) + GroupSum(s, key, val, ks[|ks| - 1])
  {
    var c := GroupColumn(ks, s, key, val);
    assert c[..|c| - 1] == GroupColumn(ks[..|ks| - 1], s, key, val);
  }

  /**
   * Adding a record to `s` raises the sum of the column over distinct keys
   * `ks` by that record's value exactly when its key is among `ks`.
   */
  lemma {:induction false} ColumnSumAppend<K>(ks: seq<K>, s: seq<Record>, x: Record, key: Record -> K, val: Record -> int)
    requires Distinct(ks)
    ensures Sum(GroupColumn(ks, s + [x], key, val)) ==
            Sum(GroupColumn(ks, s, key, val)) + (if key(x) in ks then val(x) else 0)
    decreases |ks|
  {
    if ks != [] {
      var ks', k := ks[..|ks| - 1], ks[|ks| - 1];
      assert ks == ks' + [k];
      assert Distinct(ks') by {
        assert forall i :: 0 <= i < |ks'| ==> ks'[i] == ks[i];
      }
      ColumnSumLast(ks, s + [x], key, val);
      ColumnSumLast(ks, s, key, val);
      ColumnSumAppend(ks', s, x, key, val);
      GroupSumAppend(s, x, key, val);
      assert key(x) == k ==> key(x) !in ks';
    }
  }

  /**
   * An accumulator filled by the records `prefix`: its keys in insertion
   * order are the keys met so far, and each holds its key's sum.
   */
  ghost predicate Accumulated<K(!new)>(prefix: seq<Record>, key: Record -> K, val: Record -> int, keys: seq<K>, acc: map<K, int>)
  {
    && keys == FirstSeen(prefix, key)
    && KeysListed(keys, acc)
    && KeySums(prefix, key, val, acc)
  }

  /** The accumulator's keys are exactly the listed ones. */
  ghost predicate KeysListed<K(!new), V>(keys: seq<K>, acc: map<K, V>)
  {
    forall k :: k in acc <==> k in keys
  }

  /** Each entry of the accumulator holds its key's sum over `prefix`. */
  ghost predicate KeySums<K(!new)>(prefix: seq<Record>, key: Record -> K, val: Record -> int, acc: map<K, int>)
  {
    forall k :: k in acc ==> acc[k] == GroupSum(prefix, key, val, k)
  }

  /** The keyed `reduce` callback: `acc[k] = (acc[k] || 0) + v`. */
  function AddTo<K>(acc: map<K, int>, k: K, v: int): map<K, int>
  {
    acc[k := (if k in acc then acc[k] else 0) + v]
  }

  /** Adding one record's value under its key keeps the accumulator exact. */
  lemma AccumulateStep<K(!new)>(prefix: seq<Record>, d: Record, key: Record -> K, val: Record -> int, keys: seq<K>, acc: map<K, int>)
    requires Accumulated(prefix, key, val, keys, acc)
    ensures var k := key(d);
      var keys' := if k in acc then keys else keys + [k];
      Accumulated(prefix + [d], key, val, keys', AddTo(acc, k, val(d)))
  {
    var k := key(d);
    var keys' := if k in acc then keys else keys + [k];
    var acc' := AddTo(acc, k, val(d));
    FirstSeenStep(prefix, d, key);
    if k !in acc {
      FirstSeenHasKey(prefix, key, k);
    }
    assert keys' == FirstSeen(prefix + [d], key);
    assert KeysListed(keys', acc');
    assert KeySums(prefix + [d], key, val, acc') by {
      forall k' | k' in acc'
        ensures acc'[k'] == GroupSum(prefix + [d], key, val, k')
      {
        KeyEntryStep(prefix, d, key, val, acc, k');
      }
    }
  }

  /** One step of a keyed `reduce` keeps one key's entry exact. */
  lemma KeyEntryStep<K(!new)>(prefix: seq<Record>, d: Record, key: Record -> K, val: Record -> int, acc: map<K, int>, k: K)
    requires KeySums(prefix, key, val, acc)
    requires key(d) !in acc ==> !HasKey(prefix, key, key(d))
    requires k in acc || k == key(d)
    ensures AddTo(acc, key(d), val(d))[k] == GroupSum(prefix + [d], key, val, k)
  {
    GroupSumAppendAt(prefix, d, key, val, k);
    if k in acc {
      assert acc[k] == GroupSum(prefix, key, val, k);
    } else {
      GroupSumUnseen(prefix, key, val, k);
    }
  }

  /**
   * Partition: the per-key sums over the distinct keys add up to the total
   * of `val` over all records; no record is counted twice or left out.
   */
  lemma {:induction false} PartitionTotal<K>(s: seq<Record>, key: Record -> K, val: Record -> int)
    ensures Sum(GroupColumn(FirstSeen(s, key), s, key, val)) == Total(s, val)
    decreases |s|
  {
    if s != [] {
      var s', x := s[..|s| - 1], s[|s| - 1];
      assert s == s' + [x];
      var prev := FirstSeen(s', key);
      PartitionTotal(s', key, val);
      TotalAppend(s', x, val);
      ColumnSumAppend(prev, s', x, key, val);
      if key(x) !in prev {
        assert FirstSeen(s, key) == prev + [key(x)];
        FirstSeenHasKey(s', key, key(x));
        GroupColumnConcat(prev, [key(x)], s, key, val);
        SumConcat(GroupColumn(prev, s, key, val), GroupColumn([key(x)], s, key, val));
        GroupSumUnseen(s', key, val, key(x));
        GroupSumAppend(s', x, key, val);
      }
    }
  }

  /** The column sum over `b1 + [x] + b2` is the one over `b1 + b2` plus `x`'s sum. */
  lemma ColumnSumSplit<K>(b1: seq<K>, x: K, b2: seq<K>, s: seq<Record>, key: Record -> K, val: Record -> int)
    ensures Sum(GroupColumn(b1 + [x] + b2, s, key, val)) ==
            Sum(GroupColumn(b1 + b2, s, key, val)) + GroupSum(s, key, val, x)
  {
    var c1, c2 := GroupColumn(b1, s, key, val), GroupColumn(b2, s, key, val);
    var cx := GroupColumn([x], s, key, val);
    GroupColumnConcat(b1, b2, s, key, val);
    GroupColumnConcat(b1 + [x], b2, s, key, val);
    GroupColumnConcat(b1, [x], s, key, val);
    SumConcat(c1, c2);
    SumConcat(c1 + cx, c2);
    SumConcat(c1, cx);
    assert Sum(cx) == GroupSum(s, key, val, x) by {
      assert cx[..0] == [];
    }
  }

  /** Removing the element at `i` takes one copy of it out of the multiset. */
  lemma MultisetRemove<K>(b: seq<K>, i: nat)
    requires i < |b|
    ensures multiset(b[..i] + b[i + 1..]) + multiset{b[i]} == multiset(b)
  {
    assert b == b[..i] + [b[i]] + b[i + 1..];
  }

  lemma MultisetCancel<K>(m: multiset<K>, n: multiset<K>, x: K)
    requires m + multiset{x} == n + multiset{x}
    ensures m == n
  {
    forall y ensures m[y] == n[y] {
      assert (m + multiset{x})[y] == (n + multiset{x})[y];
    }
  }

  /**
   * When `a` and `b` hold the same keys with the same multiplicities, the
   * last key of `a` sits at some `i` in `b`, and the rests match again.
   */
  lemma MatchLast<K>(a: seq<K>, b: seq<K>) returns (i: nat)
    requires a != [] && multiset(a) == multiset(b)
    ensures i < |b| && b[i] == a[|a| - 1]
    ensures multiset(a[..|a| - 1]) == multiset(b[..i] + b[i + 1..])
  {
    var x := a[|a| - 1];
    assert x in multiset(a);
    i :| 0 <= i < |b| && b[i] == x;
    MultisetRemove(b, i);
    MultisetRemove(a, |a| - 1);
    assert a[..|a| - 1] + a[|a|..] == a[..|a| - 1];
    MultisetCancel(multiset(a[..|a| - 1]), multiset(b[..i] + b[i + 1..]), x);
  }

  /** Reordering the keys does not change the sum of their column. */
  lemma {:induction false} ColumnSumPermutation<K>(a: seq<K>, b: seq<K>, s: seq<Record>, key: Record -> K, val: Record -> int)
    requires multiset(a) == multiset(b)
    ensures Sum(GroupColumn(a, s, key, val)) == Sum(GroupColumn(b, s, key, val))
    decreases |a|
  {
    if a == [] {
      assert |b| == |multiset(b)| == 0;
    } else {
      var i := MatchLast(a, b);
      var b1, b2 := b[..i], b[i + 1..];
      assert b == b1 + [b[i]] + b2;
      ColumnSumPermutation(a[..|a| - 1], b1 + b2, s, key, val);
      ColumnSumLast(a, s, key, val);
      ColumnSumSplit(b1, b[i], b2, s, key, val);
    }
  }
}
