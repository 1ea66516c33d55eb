/**
 * Sequence operations behind the array idioms the application uses:
 * `filter`, `map` with a per-element choice, and the grouping of a
 * collection by a key (one bucket per key, in the order of the keys).
 * Predicates are passed as function values; KeyIs, KeyIsNot and Not build
 * the common ones so that a definition and the lemmas about it name the
 * very same predicate.
 */
module Seqs {

  /** `s.filter(p)`: the elements of `s` that satisfy `p`, in their order. */
  function Filter<T(!new)>(s: seq<T>, p: T -> bool): (r: seq<T>)
    ensures |r| <= |s|
    ensures forall x :: x in r <==> x in s && p(x)
  {
    if s == [] then []
    else if p(s[0]) then [s[0]] + Filter(s[1..], p)
    else Filter(s[1..], p)
  }

  /** `x => key(x) === k` */
  function KeyIs<T(!new), K(==)>(key: T -> K, k: K): (p: T -> bool)
    ensures forall x :: p(x) <==> key(x) == k
  {
    x => key(x) == k
  }

  /** The element itself, as the key of a collection of plain values. */
  function Id<T>(x: T): T { x }

  /** `x => key(x) !== k` */
  function KeyIsNot<T(!new), K(==)>(key: T -> K, k: K): (p: T -> bool)
    ensures forall x :: p(x) <==> key(x) != k
  {
    x => key(x) != k
  }

  function Not<T(!new)>(p: T -> bool): (q: T -> bool)
    ensures forall x :: q(x) <==> !p(x)
  {
    x => !p(x)
  }

  /** `r` is obtained from `s` by deleting elements, keeping the order of the rest. */
  ghost predicate IsSubsequence<T>(r: seq<T>, s: seq<T>)
    decreases |s|
  {
    if r == [] then true
    else if s == [] then false
    else (r[0] == s[0] && IsSubsequence(r[1..], s[1..])) || IsSubsequence(r, s[1..])
  }

  lemma {:induction false} FilterIsSubsequence<T(!new)>(s: seq<T>, p: T -> bool)
    ensures IsSubsequence(Filter(s, p), s)
  {
    if s != [] {
      FilterIsSubsequence(s[1..], p);
      var r := Filter(s, p);
      if p(s[0]) {
        assert r[0] == s[0] && r[1..] == Filter(s[1..], p);
      }
    }
  }

  lemma {:induction false} FilterConcat<T(!new)>(a: seq<T>, b: seq<T>, p: T -> bool)
    ensures Filter(a + b, p) == Filter(a, p) + Filter(b, p)
  {
    if a == [] {
      assert a + b == b;
    } else {
      assert (a + b)[0] == a[0];
      assert (a + b)[1..] == a[1..] + b;
      FilterConcat(a[1..], b, p);
    }
  }

  /** Filtering with a predicate every element satisfies changes nothing. */
  lemma {:induction false} FilterKeepsAll<T(!new)>(s: seq<T>, p: T -> bool)
    requires forall x :: x in s ==> p(x)
    ensures Filter(s, p) == s
  {
    if s != [] {
      assert s[0] in s;
      assert forall x :: x in s[1..] ==> x in s;
      FilterKeepsAll(s[1..], p);
    }
  }

  lemma FilterIdempotent<T(!new)>(s: seq<T>, p: T -> bool)
    ensures Filter(Filter(s, p), p) == Filter(s, p)
  {
    FilterKeepsAll(Filter(s, p), p);
  }

  /** Two predicates that agree everywhere select the same elements. */
  lemma {:induction false} FilterCongruent<T(!new)>(s: seq<T>, p: T -> bool, q: T -> bool)
    requires forall x :: p(x) == q(x)
    ensures Filter(s, p) == Filter(s, q)
  {
    if s != [] {
      FilterCongruent(s[1..], p, q);
    }
  }

  /** Every element is selected either by `p` or by its negation. */
  lemma {:induction false} FilterSplit<T(!new)>(s: seq<T>, p: T -> bool)
    ensures |Filter(s, p)| + |Filter(s, Not(p))| == |s|
  {
    if s != [] {
      FilterSplit(s[1..], p);
    }
  }

  /**
   * `s.map(x => key(x) === id ? f(x) : x)`: the elements whose key is `id`
   * are replaced by their image under `f`, all others stay where they are.
   */
  function MapWhere<T, K(==)>(s: seq<T>, key: T -> K, id: K, f: T -> T): (r: seq<T>)
    ensures |r| == |s|
    ensures forall i :: 0 <= i < |s| ==> r[i] == if key(s[i]) == id then f(s[i]) else s[i]
  {
    if s == [] then []
    else [if key(s[0]) == id then f(s[0]) else s[0]] + MapWhere(s[1..], key, id, f)
  }

  /** `s.map(key)` */
  function KeysOf<T, K>(s: seq<T>, key: T -> K): (r: seq<K>)
    ensures |r| == |s|
    ensures forall i :: 0 <= i < |s| ==> r[i] == key(s[i])
  {
    if s == [] then [] else [key(s[0])] + KeysOf(s[1..], key)
  }

  /** No two elements of `s` share a key. */
  ghost predicate DistinctKeys<T, K>(s: seq<T>, key: T -> K)
  {
    forall i, j :: 0 <= i < j < |s| ==> key(s[i]) != key(s[j])
  }

  ghost predicate Distinct<K>(ks: seq<K>)
  {
    forall i, j :: 0 <= i < j < |ks| ==> ks[i] != ks[j]
  }

  /** A `map` that touches no element with key `id` is the identity. */
  lemma MapWhereAbsent<T, K>(s: seq<T>, key: T -> K, id: K, f: T -> T)
    requires id !in KeysOf(s, key)
    ensures MapWhere(s, key, id, f) == s
  {
    var r := MapWhere(s, key, id, f);
    forall i | 0 <= i < |s| ensures r[i] == s[i] {
      assert KeysOf(s, key)[i] == key(s[i]);
    }
  }

  /** Appending an element whose key is new keeps the keys distinct. */
  lemma AppendFreshKeepsDistinct<T, K>(s: seq<T>, key: T -> K, x: T)
    requires DistinctKeys(s, key)
    requires key(x) !in KeysOf(s, key)
    ensures DistinctKeys(s + [x], key)
  {
    var t := s + [x];
    forall i, j | 0 <= i < j < |t| ensures key(t[i]) != key(t[j]) {
      if j == |s| {
        assert KeysOf(s, key)[i] == key(s[i]);
      }
    }
  }

  lemma {:induction false} FilterKeepsDistinct<T(!new), K>(s: seq<T>, key: T -> K, p: T -> bool)
    requires DistinctKeys(s, key)
    ensures DistinctKeys(Filter(s, p), key)
  {
    if s != [] {
      var rest := Filter(s[1..], p);
      FilterKeepsDistinct(s[1..], key, p);
      if p(s[0]) {
        var t := [s[0]] + rest;
        forall i, j | 0 <= i < j < |t| ensures key(t[i]) != key(t[j]) {
          if i == 0 {
            assert t[j] in s[1..];
            var k :| 0 <= k < |s[1..]| && s[1..][k] == t[j];
            assert s[k + 1] == t[j];
          } else {
            assert t[i] == rest[i - 1] && t[j] == rest[j - 1];
          }
        }
      }
    }
  }

  /** A map that keeps every key keeps the keys distinct. */
  lemma SameKeysKeepDistinct<T, K>(s: seq<T>, r: seq<T>, key: T -> K)
    requires DistinctKeys(s, key)
    requires KeysOf(r, key) == KeysOf(s, key)
    ensures DistinctKeys(r, key)
  {
    forall i, j | 0 <= i < j < |r| ensures key(r[i]) != key(r[j]) {
      assert KeysOf(r, key)[i] == KeysOf(s, key)[i];
      assert KeysOf(r, key)[j] == KeysOf(s, key)[j];
    }
  }

  /**
   * `ks.map(k => s.filter(x => key(x) === k))`: one bucket per key, each
   * bucket in the order of `s`.
   */
  function GroupBy<T(!new), K(==)>(s: seq<T>, key: T -> K, ks: seq<K>): (r: seq<seq<T>>)
    ensures |r| == |ks|
    ensures forall i :: 0 <= i < |ks| ==> r[i] == Filter(s, KeyIs(key, ks[i]))
  {
    if ks == [] then [] else [Filter(s, KeyIs(key, ks[0]))] + GroupBy(s, key, ks[1..])
  }

  function SumSizes<T>(groups: seq<seq<T>>): nat
  {
    if groups == [] then 0 else |groups[0]| + SumSizes(groups[1..])
  }

  /** The number of positions of `ks` that hold `k`. */
  function Occurrences<K(==)>(ks: seq<K>, k: K): nat
  {
    if ks == [] then 0 else (if ks[0] == k then 1 else 0) + Occurrences(ks[1..], k)
  }

  lemma {:induction false} OccursOnce<K>(ks: seq<K>, k: K)
    requires Distinct(ks) && k in ks
    ensures Occurrences(ks, k) == 1
  {
    if ks[0] == k {
      OccursNever(ks[1..], k);
    } else {
      OccursOnce(ks[1..], k);
    }
  }

  lemma {:induction false} OccursNever<K>(ks: seq<K>, k: K)
    requires k !in ks
    ensures Occurrences(ks, k) == 0
  {
    if ks != [] {
      OccursNever(ks[1..], k);
    }
  }

  /** Adding one element to the grouped collection adds it to as many buckets as its key has positions. */
  lemma {:induction false} GroupByCons<T(!new), K>(x: T, s: seq<T>, key: T -> K, ks: seq<K>)
    ensures SumSizes(GroupBy([x] + s, key, ks)) == Occurrences(ks, key(x)) + SumSizes(GroupBy(s, key, ks))
  {
    if ks != [] {
      assert ([x] + s)[0] == x && ([x] + s)[1..] == s;
      GroupByCons(x, s, key, ks[1..]);
    }
  }

  /**
   * When the keys are distinct and cover every element, the buckets
   * partition the collection: their sizes add up to its length.
   */
  lemma {:induction false} GroupByPartition<T(!new), K>(s: seq<T>, key: T -> K, ks: seq<K>)
    requires Distinct(ks)
    requires forall i :: 0 <= i < |s| ==> key(s[i]) in ks
    ensures SumSizes(GroupBy(s, key, ks)) == |s|
  {
    if s == [] {
      EmptyGroups(key, ks);
    } else {
      GroupByPartition(s[1..], key, ks);
      assert [s[0]] + s[1..] == s;
      GroupByCons(s[0], s[1..], key, ks);
      OccursOnce(ks, key(s[0]));
    }
  }

  lemma {:induction false} EmptyGroups<T(!new), K>(key: T -> K, ks: seq<K>)
    ensures SumSizes(GroupBy([], key, ks)) == 0
  {
    if ks != [] {
      EmptyGroups(key, ks[1..]);
    }
  }
}
