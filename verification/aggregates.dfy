/**
 * Group-by over a sequence, as the client and the server both do it: walk the
 * rows in order, file each one under its key, keep running totals. The
 * definitions below recurse on the LAST element, so that a loop that has seen
 * `xs[..i]` and is about to add `xs[i]` matches one unfolding.
 */
module Aggregates {

  predicate Distinct<K(==)>(ks: seq<K>) {
    forall i, j :: 0 <= i < j < |ks| ==> ks[i] != ks[j]
  }

  /** The rows whose key is `k`, in input order. */
  function Filter<T, K(==)>(xs: seq<T>, key: T -> K, k: K): (r: seq<T>)
    ensures |r| <= |xs|
    ensures forall i :: 0 <= i < |r| ==> key(r[i]) == k
    ensures (forall i :: 0 <= i < |xs| ==> key(xs[i]) != k) <==> r == []
  {
    if xs == [] then []
    else
      var last := xs[|xs| - 1];
      Filter(xs[..|xs| - 1], key, k) + (if key(last) == k then [last] else [])
  }

  /** The sum of the weights of the rows. */
  function Sum<T>(xs: seq<T>, w: T -> real): real {
    if xs == [] then 0.0 else Sum(xs[..|xs| - 1], w) + w(xs[|xs| - 1])
  }

  /** The distinct keys of the rows, in the order in which they first occur. */
  function Keys<T, K(==)>(xs: seq<T>, key: T -> K): (ks: seq<K>)
    ensures Distinct(ks)
    ensures |ks| <= |xs|
    ensures forall i :: 0 <= i < |xs| ==> key(xs[i]) in ks
    ensures forall k :: k in ks ==> exists i :: 0 <= i < |xs| && key(xs[i]) == k
  {
    if xs == [] then []
    else
      var prefix := Keys(xs[..|xs| - 1], key);
      var last := xs[|xs| - 1];
      assert forall i :: 0 <= i < |xs| - 1 ==> xs[..|xs| - 1][i] == xs[i];
      if key(last) in prefix then prefix else prefix + [key(last)]
  }

  /** Sum over the keys `ks` of the total weight filed under each key. */
  function GroupSums<T, K(==)>(xs: seq<T>, key: T -> K, w: T -> real, ks: seq<K>): real {
    if ks == [] then 0.0
    else GroupSums(xs, key, w, ks[..|ks| - 1]) + Sum(Filter(xs, key, ks[|ks| - 1]), w)
  }

  /** Sum over the keys `ks` of the number of rows filed under each key. */
  function GroupCounts<T, K(==)>(xs: seq<T>, key: T -> K, ks: seq<K>): int {
    if ks == [] then 0
    else GroupCounts(xs, key, ks[..|ks| - 1]) + |Filter(xs, key, ks[|ks| - 1])|
  }

  /** A prefix one element longer is the shorter prefix and that element. */
  lemma TakeSnoc<T>(xs: seq<T>, i: nat)
    requires i < |xs|
    ensures xs[..i + 1] == xs[..i] + [xs[i]]
  {
  }

  lemma SumSnoc<T>(xs: seq<T>, x: T, w: T -> real)
    ensures Sum(xs + [x], w) == Sum(xs, w) + w(x)
  {
    assert (xs + [x])[..|xs|] == xs;
  }

  lemma KeysSnoc<T, K>(xs: seq<T>, x: T, key: T -> K)
    ensures Keys(xs + [x], key) == Keys(xs, key) + (if key(x) in Keys(xs, key) then [] else [key(x)])
  {
    assert (xs + [x])[..|xs|] == xs;
  }

  lemma FilterSnoc<T, K>(xs: seq<T>, x: T, key: T -> K, k: K)
    ensures Filter(xs + [x], key, k) == Filter(xs, key, k) + (if key(x) == k then [x] else [])
  {
    assert (xs + [x])[..|xs|] == xs;
  }

  lemma {:induction false} GroupSumsEmpty<T, K>(key: T -> K, w: T -> real, ks: seq<K>)
    ensures GroupSums([], key, w, ks) == 0.0
  {
    if ks != [] {
      GroupSumsEmpty(key, w, ks[..|ks| - 1]);
    }
  }

  lemma {:induction false} GroupCountsEmpty<T, K>(key: T -> K, ks: seq<K>)
    ensures GroupCounts([], key, ks) == 0
  {
    if ks != [] {
      GroupCountsEmpty(key, ks[..|ks| - 1]);
    }
  }

  /** Adding one row adds its weight to exactly the group of its key, if listed. */
  lemma {:induction false} GroupSumsSnoc<T, K>(xs: seq<T>, x: T, key: T -> K, w: T -> real, ks: seq<K>)
    requires Distinct(ks)
    ensures GroupSums(xs + [x], key, w, ks) == GroupSums(xs, key, w, ks) + (if key(x) in ks then w(x) else 0.0)
  {
    if ks != [] {
      var init, k := ks[..|ks| - 1], ks[|ks| - 1];
      assert ks == init + [k];
      GroupSumsSnoc(xs, x, key, w, init);
      FilterSnoc(xs, x, key, k);
      if key(x) == k {
        SumSnoc(Filter(xs, key, k), x, w);
        assert key(x) !in init;
      } else {
        assert Filter(xs, key, k) + [] == Filter(xs, key, k);
      }
    }
  }

  lemma {:induction false} GroupCountsSnoc<T, K>(xs: seq<T>, x: T, key: T -> K, ks: seq<K>)
    requires Distinct(ks)
    ensures GroupCounts(xs + [x], key, ks) == GroupCounts(xs, key, ks) + (if key(x) in ks then 1 else 0)
  {
    if ks != [] {
      var init, k := ks[..|ks| - 1], ks[|ks| - 1];
      assert ks == init + [k];
      GroupCountsSnoc(xs, x, key, init);
      FilterSnoc(xs, x, key, k);
      if key(x) == k {
        assert key(x) !in init;
      }
    }
  }

  /**
   * Grouping loses and duplicates nothing: when every row's key is listed
   * once, the group totals add up to the total of all rows.
   */
  lemma {:induction false} PartitionSum<T, K>(xs: seq<T>, key: T -> K, w: T -> real, ks: seq<K>)
    requires Distinct(ks)
    requires forall i :: 0 <= i < |xs| ==> key(xs[i]) in ks
    ensures GroupSums(xs, key, w, ks) == Sum(xs, w)
  {
    if xs == [] {
      GroupSumsEmpty(key, w, ks);
    } else {
      var init, x := xs[..|xs| - 1], xs[|xs| - 1];
      assert xs == init + [x];
      assert forall i :: 0 <= i < |init| ==> init[i] == xs[i];
      PartitionSum(init, key, w, ks);
      GroupSumsSnoc(init, x, key, w, ks);
    }
  }

  /** The same for counts: the group sizes add up to the number of rows. */
  lemma {:induction false} PartitionCount<T, K>(xs: seq<T>, key: T -> K, ks: seq<K>)
    requires Distinct(ks)
    requires forall i :: 0 <= i < |xs| ==> key(xs[i]) in ks
    ensures GroupCounts(xs, key, ks) == |xs|
  {
    if xs == [] {
      GroupCountsEmpty(key, ks);
    } else {
      var init, x := xs[..|xs| - 1], xs[|xs| - 1];
      assert xs == init + [x];
      assert forall i :: 0 <= i < |init| ==> init[i] == xs[i];
      PartitionCount(init, key, ks);
      GroupCountsSnoc(init, x, key, ks);
    }
  }
}
