/**
 * Tables as sequences of rows in storage order, and the query operations the
 * endpoints compose: the first matching row, a filter, OFFSET/LIMIT and a
 * stable sort by a key.
 */
module Tables {
  import opened Wrappers

  /** `.filter(p).first()`: the position of the first row satisfying `p`. */
  function FindFirst<T>(rows: seq<T>, p: T -> bool): (r: Option<nat>)
    ensures r.Some? ==> r.value < |rows| && p(rows[r.value]) && forall j :: 0 <= j < r.value ==> !p(rows[j])
    ensures r.None? <==> forall j :: 0 <= j < |rows| ==> !p(rows[j])
  {
    if rows == [] then None
    else if p(rows[0]) then Some(0)
    else
      var r := FindFirst(rows[1..], p);
      assert forall j :: 1 <= j < |rows| ==> rows[1..][j - 1] == rows[j];
      if r.Some? then Some(r.value + 1) else None
  }

  /** `.filter(p)`: the rows satisfying `p`, in storage order. */
  function Where<T(!new)>(rows: seq<T>, p: T -> bool): (r: seq<T>)
    ensures |r| <= |rows|
    ensures forall x :: x in r <==> x in rows && p(x)
  {
    if rows == [] then []
    else
      var init := rows[..|rows| - 1];
      assert rows == init + [rows[|rows| - 1]];
      Where(init, p) + if p(rows[|rows| - 1]) then [rows[|rows| - 1]] else []
  }

  /**
   * Filtering a table split in two filters each part and keeps them in
   * order: with the one-row cases of `Where`, this fixes the filtered rows
   * in storage order.
   */
  lemma {:induction false} WhereAppend<T(!new)>(a: seq<T>, b: seq<T>, p: T -> bool)
    ensures Where(a + b, p) == Where(a, p) + Where(b, p)
    decreases |b|
  {
    if b == [] {
      assert a + b == a;
    } else {
      var init, last := b[..|b| - 1], b[|b| - 1];
      var tail := if p(last) then [last] else [];
      assert (a + b)[..|a + b| - 1] == a + init;
      assert (a + b)[|a + b| - 1] == last;
      assert Where(a + b, p) == Where(a + init, p) + tail;
      assert Where(b, p) == Where(init, p) + tail;
      WhereAppend(a, init, p);
    }
  }

  /** Every row satisfying `p` is kept as often as it is stored, every other row is dropped. */
  lemma {:induction false} WhereCounts<T(!new)>(rows: seq<T>, p: T -> bool, x: T)
    ensures multiset(Where(rows, p))[x] == if p(x) then multiset(rows)[x] else 0
    decreases |rows|
  {
    if rows != [] {
      var init, last := rows[..|rows| - 1], rows[|rows| - 1];
      assert rows == init + [last];
      assert Where(rows, p) == Where(init, p) + if p(last) then [last] else [];
      WhereCounts(init, p, x);
    }
  }

  /** `.offset(skip).limit(limit)`: the rows from position `skip`, at most `limit` of them. */
  function Page<T>(rows: seq<T>, skip: nat, limit: nat): (r: seq<T>)
    ensures |r| <= limit
    ensures |r| == if skip >= |rows| then 0 else if |rows| - skip < limit then |rows| - skip else limit
    ensures forall i :: 0 <= i < |r| ==> r[i] == rows[skip + i]
  {
    if skip >= |rows| then []
    else
      var rest := rows[skip..];
      if |rest| <= limit then rest else rest[..limit]
  }

  /** `rows` with the row at position `i` deleted. */
  function RemoveAt<T>(rows: seq<T>, i: nat): (r: seq<T>)
    requires i < |rows|
    ensures |r| == |rows| - 1
    ensures forall j :: 0 <= j < i ==> r[j] == rows[j]
    ensures forall j :: i <= j < |r| ==> r[j] == rows[j + 1]
  {
    rows[..i] + rows[i + 1..]
  }

  predicate SortedBy<T>(xs: seq<T>, key: T -> real) {
    forall i, j :: 0 <= i < j < |xs| ==> key(xs[i]) <= key(xs[j])
  }

  /**
   * Places `x` into the sorted `s` in front of the first row whose key is
   * not smaller than its own, so `x` precedes the rows with an equal key.
   */
  function InsertBy<T(!new)>(x: T, s: seq<T>, key: T -> real): (r: seq<T>)
    requires SortedBy(s, key)
    ensures SortedBy(r, key)
    ensures multiset(r) == multiset(s) + multiset{x}
    ensures |r| == |s| + 1
    ensures r[0] == x || (s != [] && r[0] == s[0])
  {
    if s == [] || key(x) <= key(s[0]) then [x] + s
    else
      var rest := InsertBy(x, s[1..], key);
      assert s == [s[0]] + s[1..];
      assert key(s[0]) <= key(rest[0]);
      [s[0]] + rest
  }

  /**
   * A stable sort by `key`, as Python's `sorted` and `list.sort` are. It is
   * built by inserting each row, last to first, in front of any equal keys.
   */
  function SortBy<T(!new)>(xs: seq<T>, key: T -> real): (r: seq<T>)
    ensures SortedBy(r, key)
    ensures multiset(r) == multiset(xs)
    ensures |r| == |xs|
  {
    if xs == [] then []
    else
      assert xs == [xs[0]] + xs[1..];
      InsertBy(xs[0], SortBy(xs[1..], key), key)
  }
}
