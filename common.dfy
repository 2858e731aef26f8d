/** Generic building blocks shared by the backend and frontend models:
    optional values, sums, order-preserving filters, duplicate removal,
    keyed (group-by) sums and a sort by an integer key. */
module Common {

  /** A value that may be absent (`None` for JavaScript `undefined`/`null`
      and for Python `dict.get` misses). */
  datatype Option<T> = None | Some(value: T)

  /** Sum of a sequence, accumulated from the left. */
  function Sum(xs: seq<int>): int
    decreases |xs|
  {
    if |xs| == 0 then 0 else Sum(xs[..|xs| - 1]) + xs[|xs| - 1]
  }

  lemma {:induction false} SumAppend(a: seq<int>, b: seq<int>)
    ensures Sum(a + b) == Sum(a) + Sum(b)
    decreases |b|
  {
    if |b| == 0 {
      assert a + b == a;
    } else {
      SumAppend(a, b[..|b| - 1]);
      assert (a + b)[..|a + b| - 1] == a + b[..|b| - 1];
    }
  }

  lemma {:induction false} SumUpdate(xs: seq<int>, i: nat, d: int)
    requires i < |xs|
    ensures Sum(xs[i := xs[i] + d]) == Sum(xs) + d
    decreases |xs|
  {
    var n := |xs| - 1;
    var ys := xs[i := xs[i] + d];
    if i == n {
      assert ys[..n] == xs[..n];
    } else {
      SumUpdate(xs[..n], i, d);
      assert ys[..n] == xs[..n][i := xs[i] + d];
    }
  }

  /** `a` is obtained from `b` by deleting elements and keeping the order of the rest. */
  ghost predicate IsSubsequence<T>(a: seq<T>, b: seq<T>)
    decreases |b|
  {
    |a| == 0 ||
    (|b| > 0 && ((a[0] == b[0] && IsSubsequence(a[1..], b[1..])) || IsSubsequence(a, b[1..])))
  }

  /** The elements of `xs` that satisfy `p`, in their original order. */
  function Filter<T(!new)>(xs: seq<T>, p: T -> bool): (r: seq<T>)
    ensures |r| <= |xs|
    ensures forall x :: x in r <==> x in xs && p(x)
    ensures IsSubsequence(r, xs)
    ensures forall x :: multiset(r)[x] == if p(x) then multiset(xs)[x] else 0
    decreases |xs|
  {
    if |xs| == 0 then []
    else
      assert xs == [xs[0]] + xs[1..];
      if p(xs[0]) then [xs[0]] + Filter(xs[1..], p)
      else Filter(xs[1..], p)
  }

  lemma {:induction false} FilterKeepsAll<T(!new)>(xs: seq<T>, p: T -> bool)
    requires forall i :: 0 <= i < |xs| ==> p(xs[i])
    ensures Filter(xs, p) == xs
    decreases |xs|
  {
    if |xs| > 0 {
      FilterKeepsAll(xs[1..], p);
    }
  }

  /** The first index of an element satisfying `p`. */
  function FirstIndex<T>(xs: seq<T>, p: T -> bool): (r: Option<nat>)
    ensures r.Some? ==> r.value < |xs| && p(xs[r.value]) &&
                        forall j :: 0 <= j < r.value ==> !p(xs[j])
    ensures r.None? ==> forall j :: 0 <= j < |xs| ==> !p(xs[j])
    decreases |xs|
  {
    if |xs| == 0 then None
    else if p(xs[0]) then Some(0)
    else match FirstIndex(xs[1..], p)
      case None => None
      case Some(i) => Some(i + 1)
  }

  predicate Distinct<T(==)>(xs: seq<T>) {
    forall i, j :: 0 <= i < j < |xs| ==> xs[i] != xs[j]
  }

  /** A sequence without repeats has as many elements as its set. */
  lemma {:induction false} DistinctSize<T>(xs: seq<T>)
    requires Distinct(xs)
    ensures |set x | x in xs| == |xs|
    decreases |xs|
  {
    if |xs| > 0 {
      var n := |xs| - 1;
      DistinctSize(xs[..n]);
      assert (set x | x in xs) == (set x | x in xs[..n]) + {xs[n]} by {
        assert xs == xs[..n] + [xs[n]];
      }
      assert xs[n] !in xs[..n];
    }
  }

  /** Each distinct element of `xs` once, in order of first appearance
      (JavaScript `[...new Set(xs)]`, and the key order of a dictionary
      filled from `xs`). */
  function Dedupe<T(==,!new)>(xs: seq<T>): (r: seq<T>)
    ensures forall x :: x in r <==> x in xs
    ensures Distinct(r)
    ensures |r| <= |xs|
    decreases |xs|
  {
    if |xs| == 0 then []
    else
      var d := Dedupe(xs[..|xs| - 1]);
      assert forall x :: x in xs <==> x in xs[..|xs| - 1] || x == xs[|xs| - 1] by {
        assert xs == xs[..|xs| - 1] + [xs[|xs| - 1]];
      }
      if xs[|xs| - 1] in d then d else d + [xs[|xs| - 1]]
  }

  /** Deduplicating keeps one element per distinct value. */
  lemma DedupeSize<T(!new)>(xs: seq<T>)
    ensures |Dedupe(xs)| == |set x | x in xs|
  {
    DistinctSize(Dedupe(xs));
    assert (set x | x in Dedupe(xs)) == (set x | x in xs);
  }

  /** The position of the first occurrence of `x` in `xs`. */
  function IndexOf<T(==)>(xs: seq<T>, x: T): (i: nat)
    requires x in xs
    ensures i < |xs| && xs[i] == x && x !in xs[..i]
    decreases |xs|
  {
    if xs[0] == x then 0
    else
      var k := IndexOf(xs[1..], x);
      assert xs[..k + 1] == [xs[0]] + xs[1..][..k];
      k + 1
  }

  lemma {:induction false} IndexOfInPrefix<T>(xs: seq<T>, k: nat, x: T)
    requires k <= |xs| && x in xs[..k]
    ensures IndexOf(xs, x) == IndexOf(xs[..k], x)
    decreases |xs|
  {
    if xs[0] != x {
      assert xs[..k][1..] == xs[1..][..k - 1];
      IndexOfInPrefix(xs[1..], k - 1, x);
    }
  }

  /** Dedupe lists the distinct elements in the order of their first appearance. */
  lemma {:induction false} DedupeFirstAppearance<T(!new)>(xs: seq<T>, i: nat, j: nat)
    requires i < j < |Dedupe(xs)|
    ensures IndexOf(xs, Dedupe(xs)[i]) < IndexOf(xs, Dedupe(xs)[j])
    decreases |xs|
  {
    var n := |xs| - 1;
    var init := xs[..n];
    var d := Dedupe(init);
    var r := Dedupe(xs);
    assert r[..|d|] == d;
    if j < |d| {
      DedupeFirstAppearance(init, i, j);
      IndexOfInPrefix(xs, n, d[i]);
      IndexOfInPrefix(xs, n, d[j]);
    } else {
      assert r[j] == xs[n] && xs[n] !in init;
      IndexOfInPrefix(xs, n, d[i]);
      assert xs[..n] == init;
    }
  }

  // ----- keyed sums: one bucket of a group-by-and-sum -----

  function Keys<K>(pairs: seq<(K, int)>): (ks: seq<K>)
    ensures |ks| == |pairs| && forall i :: 0 <= i < |pairs| ==> ks[i] == pairs[i].0
  {
    seq(|pairs|, i requires 0 <= i < |pairs| => pairs[i].0)
  }

  function Values<K>(pairs: seq<(K, int)>): (vs: seq<int>)
    ensures |vs| == |pairs| && forall i :: 0 <= i < |pairs| ==> vs[i] == pairs[i].1
  {
    seq(|pairs|, i requires 0 <= i < |pairs| => pairs[i].1)
  }

  /** Sum of the values paired with key `k`. */
  function KeySum<K(==)>(pairs: seq<(K, int)>, k: K): int
    decreases |pairs|
  {
    if |pairs| == 0 then 0
    else KeySum(pairs[..|pairs| - 1], k) + (if pairs[|pairs| - 1].0 == k then pairs[|pairs| - 1].1 else 0)
  }

  lemma KeySumSnoc<K>(pairs: seq<(K, int)>, p: (K, int), k: K)
    ensures KeySum(pairs + [p], k) == KeySum(pairs, k) + (if p.0 == k then p.1 else 0)
  {
    assert (pairs + [p])[..|pairs|] == pairs;
  }

  /** A key that never occurs contributes nothing. */
  lemma {:induction false} KeySumAbsent<K>(pairs: seq<(K, int)>, k: K)
    requires k !in Keys(pairs)
    ensures KeySum(pairs, k) == 0
    decreases |pairs|
  {
    if |pairs| > 0 {
      assert Keys(pairs[..|pairs| - 1]) == Keys(pairs)[..|pairs| - 1];
      KeySumAbsent(pairs[..|pairs| - 1], k);
    }
  }

  /** Total over the buckets named in `ks`. */
  function SumOver<K(==)>(ks: seq<K>, pairs: seq<(K, int)>): int
    decreases |ks|
  {
    if |ks| == 0 then 0 else SumOver(ks[..|ks| - 1], pairs) + KeySum(pairs, ks[|ks| - 1])
  }

  function Occurrences<K(==)>(ks: seq<K>, k: K): nat
    decreases |ks|
  {
    if |ks| == 0 then 0 else Occurrences(ks[..|ks| - 1], k) + (if ks[|ks| - 1] == k then 1 else 0)
  }

  lemma {:induction false} OccurrencesOfDistinct<K>(ks: seq<K>, k: K)
    requires Distinct(ks) && k in ks
    ensures Occurrences(ks, k) == 1
    decreases |ks|
  {
    var n := |ks| - 1;
    assert ks == ks[..n] + [ks[n]];
    if ks[n] == k {
      OccurrencesAbsent(ks[..n], k);
    } else {
      OccurrencesOfDistinct(ks[..n], k);
    }
  }

  lemma {:induction false} OccurrencesAbsent<K>(ks: seq<K>, k: K)
    requires k !in ks
    ensures Occurrences(ks, k) == 0
    decreases |ks|
  {
    if |ks| > 0 {
      OccurrencesAbsent(ks[..|ks| - 1], k);
    }
  }

  lemma {:induction false} SumOverSnoc<K>(ks: seq<K>, pairs: seq<(K, int)>, p: (K, int))
    ensures SumOver(ks, pairs + [p]) == SumOver(ks, pairs) + Occurrences(ks, p.0) * p.1
    decreases |ks|
  {
    if |ks| > 0 {
      SumOverSnoc(ks[..|ks| - 1], pairs, p);
      KeySumSnoc(pairs, p, ks[|ks| - 1]);
    }
  }

  /** Grouping neither loses nor double counts: summing the buckets of a
      list of distinct keys that covers every key gives the plain total. */
  lemma {:induction false} GroupedSum<K>(ks: seq<K>, pairs: seq<(K, int)>)
    requires Distinct(ks)
    requires forall i :: 0 <= i < |pairs| ==> pairs[i].0 in ks
    ensures SumOver(ks, pairs) == Sum(Values(pairs))
    decreases |pairs|
  {
    if |pairs| == 0 {
      SumOverEmpty(ks, pairs);
    } else {
      var n := |pairs| - 1;
      var init, last := pairs[..n], pairs[n];
      assert pairs == init + [last];
      GroupedSum(ks, init);
      SumOverSnoc(ks, init, last);
      OccurrencesOfDistinct(ks, last.0);
      assert Values(pairs)[..n] == Values(init);
    }
  }

  lemma {:induction false} SumOverEmpty<K>(ks: seq<K>, pairs: seq<(K, int)>)
    requires |pairs| == 0
    ensures SumOver(ks, pairs) == 0
    decreases |ks|
  {
    if |ks| > 0 {
      SumOverEmpty(ks[..|ks| - 1], pairs);
    }
  }

  /** `d[k] = d.get(k, 0) + v`: add one pair into a running group-by. */
  function Tally<K>(m: map<K, int>, p: (K, int)): map<K, int> {
    m[p.0 := (if p.0 in m then m[p.0] else 0) + p.1]
  }

  /** `m` with key order `order` is the group-by-and-sum of `pairs`: one key per
      distinct key of `pairs`, in order of first appearance, each holding its
      bucket's sum. */
  ghost predicate Tallies<K(!new)>(m: map<K, int>, order: seq<K>, pairs: seq<(K, int)>) {
    order == Dedupe(Keys(pairs)) &&
    (forall k :: k in m <==> k in order) &&
    (forall k :: k in m ==> m[k] == KeySum(pairs, k))
  }

  lemma TalliesStep<K(!new)>(m: map<K, int>, order: seq<K>, pairs: seq<(K, int)>, p: (K, int))
    requires Tallies(m, order, pairs)
    ensures Tallies(Tally(m, p), if p.0 in m then order else order + [p.0], pairs + [p])
  {
    var ks := Keys(pairs + [p]);
    assert ks[..|pairs|] == Keys(pairs);
    assert ks[|pairs|] == p.0;
    assert Dedupe(ks) == if p.0 in order then order else order + [p.0];
    forall k ensures KeySum(pairs + [p], k) == KeySum(pairs, k) + (if p.0 == k then p.1 else 0) {
      KeySumSnoc(pairs, p, k);
    }
    if p.0 !in m {
      KeySumAbsent(pairs, p.0);
    }
  }

  /** Adding one pair to a running tally: its value is added to its key's
      total, and a key not seen before goes last in the order. */
  method AddPair<K(!new)>(m: map<K, int>, order: seq<K>, ghost seen: seq<(K, int)>, p: (K, int))
    returns (m': map<K, int>, order': seq<K>)
    requires Tallies(m, order, seen)
    ensures Tallies(m', order', seen + [p])
  {
    TalliesStep(m, order, seen, p);
    order' := if p.0 in m then order else order + [p.0];
    m' := Tally(m, p);
  }

  /** The rows `[(k, m[k]) for k in order]`. */
  function Rows<K>(m: map<K, int>, order: seq<K>): (rows: seq<(K, int)>)
    requires forall i :: 0 <= i < |order| ==> order[i] in m
    ensures |rows| == |order| && forall i :: 0 <= i < |order| ==> rows[i] == (order[i], m[order[i]])
  {
    seq(|order|, i requires 0 <= i < |order| => (order[i], m[order[i]]))
  }

  lemma {:induction false} RowsSumOver<K>(m: map<K, int>, order: seq<K>, pairs: seq<(K, int)>)
    requires forall i :: 0 <= i < |order| ==> order[i] in m && m[order[i]] == KeySum(pairs, order[i])
    ensures Sum(Values(Rows(m, order))) == SumOver(order, pairs)
    decreases |order|
  {
    if |order| > 0 {
      var n := |order| - 1;
      RowsSumOver(m, order[..n], pairs);
      assert Values(Rows(m, order))[..n] == Values(Rows(m, order[..n]));
    }
  }

  /** The rows of a group-by, listed in any duplicate-free order that
      covers every key, add up to the total of what was grouped. */
  lemma RowsTotalAnyOrder<K>(m: map<K, int>, ks: seq<K>, pairs: seq<(K, int)>)
    requires Distinct(ks)
    requires forall i :: 0 <= i < |ks| ==> ks[i] in m && m[ks[i]] == KeySum(pairs, ks[i])
    requires forall i :: 0 <= i < |pairs| ==> pairs[i].0 in ks
    ensures Sum(Values(Rows(m, ks))) == Sum(Values(pairs))
  {
    RowsSumOver(m, ks, pairs);
    GroupedSum(ks, pairs);
  }

  /** The rows of a group-by add up to the total of what was grouped. */
  lemma RowsTotal<K(!new)>(m: map<K, int>, order: seq<K>, pairs: seq<(K, int)>)
    requires Tallies(m, order, pairs)
    ensures Sum(Values(Rows(m, order))) == Sum(Values(pairs))
  {
    forall i | 0 <= i < |pairs| ensures pairs[i].0 in order {
      assert Keys(pairs)[i] == pairs[i].0;
    }
    RowsTotalAnyOrder(m, order, pairs);
  }

  /** The group-by-and-sum of `pairs` as rows: each distinct key once, in
      order of first appearance, with the sum of its bucket. */
  function GroupBy<K(==,!new)>(pairs: seq<(K, int)>): (rows: seq<(K, int)>)
    ensures Keys(rows) == Dedupe(Keys(pairs))
    ensures forall i :: 0 <= i < |rows| ==> rows[i].1 == KeySum(pairs, rows[i].0)
    ensures Sum(Values(rows)) == Sum(Values(pairs))
  {
    var ks := Dedupe(Keys(pairs));
    var m := map k | k in ks :: KeySum(pairs, k);
    forall i | 0 <= i < |pairs| ensures pairs[i].0 in ks {
      assert Keys(pairs)[i] == pairs[i].0;
    }
    RowsTotalAnyOrder(m, ks, pairs);
    assert Keys(Rows(m, ks)) == ks;
    Rows(m, ks)
  }

  /** A finished running group-by lists exactly the group-by rows. */
  lemma RowsOfTallies<K(!new)>(m: map<K, int>, order: seq<K>, pairs: seq<(K, int)>)
    requires Tallies(m, order, pairs)
    ensures Rows(m, order) == GroupBy(pairs)
  {
    var g := GroupBy(pairs);
    assert Keys(g) == order;
    forall i | 0 <= i < |order| ensures Rows(m, order)[i] == g[i] {
      assert g[i].0 == Keys(g)[i];
    }
  }

  /** A sequence without duplicates is its own dedupe. */
  lemma {:induction false} DedupeOfDistinct<T(!new)>(xs: seq<T>)
    requires Distinct(xs)
    ensures Dedupe(xs) == xs
    decreases |xs|
  {
    if |xs| > 0 {
      var n := |xs| - 1;
      DedupeOfDistinct(xs[..n]);
      assert xs[n] !in xs[..n];
      assert xs == xs[..n] + [xs[n]];
    }
  }

  // ----- string-keyed objects -----

  /** A JavaScript truthiness test of `obj[k]` for a string field: present
      and not empty. */
  predicate Truthy(obj: map<string, string>, k: string) {
    k in obj && obj[k] != ""
  }

  // ----- sorting by an integer key -----

  ghost predicate SortedBy<T>(xs: seq<T>, key: T -> int) {
    forall i, j :: 0 <= i < j < |xs| ==> key(xs[i]) <= key(xs[j])
  }

  function InsertBy<T(==)>(x: T, xs: seq<T>, key: T -> int): (r: seq<T>)
    requires SortedBy(xs, key)
    ensures |r| == |xs| + 1 && (r[0] == x || (|xs| > 0 && r[0] == xs[0]))
    ensures SortedBy(r, key)
    ensures multiset(r) == multiset(xs) + multiset{x}
    decreases |xs|
  {
    if |xs| == 0 then [x]
    else if key(x) <= key(xs[0]) then [x] + xs
    else
      assert xs == [xs[0]] + xs[1..];
      [xs[0]] + InsertBy(x, xs[1..], key)
  }

  /** Insertion sort, ascending by `key`. */
  function SortBy<T(==)>(xs: seq<T>, key: T -> int): (r: seq<T>)
    ensures SortedBy(r, key)
    ensures multiset(r) == multiset(xs)
    decreases |xs|
  {
    if |xs| == 0 then []
    else
      assert xs == [xs[0]] + xs[1..];
      InsertBy(xs[0], SortBy(xs[1..], key), key)
  }

  lemma {:induction false} DistinctCountsAtMostOne<T>(xs: seq<T>, x: T)
    requires Distinct(xs)
    ensures multiset(xs)[x] <= 1
    decreases |xs|
  {
    if |xs| > 0 {
      assert xs == [xs[0]] + xs[1..];
      DistinctCountsAtMostOne(xs[1..], x);
      if xs[0] == x {
        assert x !in xs[1..];
      }
    }
  }

  /** Sorted ascending with no repeats means strictly ascending. */
  lemma SortedDistinctAscending(xs: seq<int>)
    requires SortedBy(xs, (d: int) => d) && Distinct(xs)
    ensures forall i, j :: 0 <= i < j < |xs| ==> xs[i] < xs[j]
  {
    forall i, j | 0 <= i < j < |xs| ensures xs[i] < xs[j] {
      assert ((d: int) => d)(xs[i]) <= ((d: int) => d)(xs[j]);
    }
  }

  /** A permutation holds the same elements. */
  lemma PermutationSameElements<T>(a: seq<T>, b: seq<T>)
    requires multiset(a) == multiset(b)
    ensures |a| == |b| && forall x :: x in a <==> x in b
  {
    assert |multiset(a)| == |multiset(b)|;
    forall x ensures x in a <==> x in b {
      assert x in a <==> x in multiset(a);
      assert x in b <==> x in multiset(b);
    }
  }

  /** A permutation of a duplicate-free sequence is duplicate-free. */
  lemma PermutationKeepsDistinct<T>(a: seq<T>, b: seq<T>)
    requires multiset(a) == multiset(b) && Distinct(a)
    ensures Distinct(b)
  {
    forall i, j | 0 <= i < j < |b| ensures b[i] != b[j] {
      if b[i] == b[j] {
        assert b == b[..j] + b[j..];
        assert b[i] in b[..j];
        assert b[j] in b[j..];
        assert multiset(b)[b[i]] == multiset(b[..j])[b[i]] + multiset(b[j..])[b[i]];
        DistinctCountsAtMostOne(a, b[i]);
      }
    }
  }

  /** Distinct integer keys in ascending order. */
  function SortedKeys(order: seq<int>): (ks: seq<int>)
    requires Distinct(order)
    ensures |ks| == |order| && Distinct(ks)
    ensures forall k :: k in ks <==> k in order
    ensures forall i, j :: 0 <= i < j < |ks| ==> ks[i] < ks[j]
  {
    var ks := SortBy(order, (d: int) => d);
    PermutationKeepsDistinct(order, ks);
    PermutationSameElements(order, ks);
    SortedDistinctAscending(ks);
    ks
  }
}
