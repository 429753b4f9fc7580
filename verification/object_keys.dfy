/**
 * The order in which `Object.entries` (and `Object.keys`) lists the own
 * string keys of an ordinary JavaScript object: keys that are array indices
 * first, in ascending numeric order, then every other key in the order it
 * was first added.
 */
module ObjectKeys {
  import opened Js
  import opened Aggregates

  predicate AllDigits(s: string) {
    forall k :: 0 <= k < |s| ==> IsDigit(s[k])
  }

  /**
   * An array index: the canonical decimal form of an integer below
   * 2^32 - 1 (no sign, no leading zero unless the key is "0").
   */
  predicate IsArrayIndex(s: string) {
    s != [] && AllDigits(s) && (|s| == 1 || s[0] != '0') && DigitsValue(s) < 0xFFFF_FFFF
  }

  function IndexValue(s: string): nat
    requires IsArrayIndex(s)
  {
    DigitsValue(s)
  }

  predicate Ascending(ks: seq<string>) {
    && (forall i :: 0 <= i < |ks| ==> IsArrayIndex(ks[i]))
    && (forall i, j :: 0 <= i < j < |ks| ==> IndexValue(ks[i]) <= IndexValue(ks[j]))
  }

  /** Places the array index `k` into the ascending run `sorted`. */
  function InsertIndex(k: string, sorted: seq<string>): (r: seq<string>)
    requires IsArrayIndex(k) && Ascending(sorted)
    ensures Ascending(r)
    ensures forall x :: x in r <==> x == k || x in sorted
  {
    if sorted == [] || IndexValue(k) <= IndexValue(sorted[0]) then [k] + sorted
    else
      var head, rest := sorted[0], InsertIndex(k, sorted[1..]);
      assert forall x :: x in rest ==> IndexValue(head) <= IndexValue(x) by {
        forall x | x in rest
          ensures IndexValue(head) <= IndexValue(x)
        {
          if x != k {
            var j :| 1 <= j < |sorted| && sorted[j] == x;
          }
        }
      }
      [head] + rest
  }

  /** The keys that are array indices, in ascending numeric order. */
  function IndexKeys(ks: seq<string>): (r: seq<string>)
    ensures Ascending(r)
    ensures forall x :: x in r <==> x in ks && IsArrayIndex(x)
  {
    if ks == [] then []
    else
      var init, last := ks[..|ks| - 1], ks[|ks| - 1];
      assert ks == init + [last];
      if IsArrayIndex(last) then InsertIndex(last, IndexKeys(init)) else IndexKeys(init)
  }

  /** The keys that are not array indices, in their original order. */
  function OtherKeys(ks: seq<string>): (r: seq<string>)
    ensures forall i :: 0 <= i < |r| ==> !IsArrayIndex(r[i])
    ensures forall x :: x in r <==> x in ks && !IsArrayIndex(x)
  {
    if ks == [] then []
    else
      var init, last := ks[..|ks| - 1], ks[|ks| - 1];
      assert ks == init + [last];
      if IsArrayIndex(last) then OtherKeys(init) else OtherKeys(init) + [last]
  }

  /** `Object.entries` order for an object whose keys were added in the order `ks`. */
  function EntryOrder(ks: seq<string>): (r: seq<string>)
    ensures forall x :: x in r <==> x in ks
  {
    IndexKeys(ks) + OtherKeys(ks)
  }

  lemma {:induction false} InsertIndexDistinct(k: string, sorted: seq<string>)
    requires IsArrayIndex(k) && Ascending(sorted)
    requires k !in sorted && Distinct(sorted)
    ensures Distinct(InsertIndex(k, sorted))
  {
    if sorted == [] || IndexValue(k) <= IndexValue(sorted[0]) {
    } else {
      InsertIndexDistinct(k, sorted[1..]);
      assert sorted[0] !in sorted[1..];
      assert InsertIndex(k, sorted) == [sorted[0]] + InsertIndex(k, sorted[1..]);
    }
  }

  lemma {:induction false} IndexKeysDistinct(ks: seq<string>)
    requires Distinct(ks)
    ensures Distinct(IndexKeys(ks))
  {
    if ks != [] {
      var init, last := ks[..|ks| - 1], ks[|ks| - 1];
      IndexKeysDistinct(init);
      if IsArrayIndex(last) {
        assert last !in init;
        InsertIndexDistinct(last, IndexKeys(init));
      }
    }
  }

  lemma {:induction false} OtherKeysDistinct(ks: seq<string>)
    requires Distinct(ks)
    ensures Distinct(OtherKeys(ks))
  {
    if ks != [] {
      var init, last := ks[..|ks| - 1], ks[|ks| - 1];
      OtherKeysDistinct(init);
      assert last !in init;
    }
  }

  /** Reordering the keys neither drops nor repeats one. */
  lemma EntryOrderDistinct(ks: seq<string>)
    requires Distinct(ks)
    ensures Distinct(EntryOrder(ks))
  {
    var front, back := IndexKeys(ks), OtherKeys(ks);
    IndexKeysDistinct(ks);
    OtherKeysDistinct(ks);
    forall i, j | 0 <= i < |front| && 0 <= j < |back|
      ensures front[i] != back[j]
    {
      assert front[i] in front && back[j] in back;
    }
  }

  /** Keys that are not array indices keep the order in which they were added. */
  lemma NamesKeepFirstSeenOrder(ks: seq<string>)
    requires forall i :: 0 <= i < |ks| ==> !IsArrayIndex(ks[i])
    ensures EntryOrder(ks) == ks
  {
    IndexKeysNone(ks);
    OtherKeysAll(ks);
  }

  lemma {:induction false} IndexKeysNone(ks: seq<string>)
    requires forall i :: 0 <= i < |ks| ==> !IsArrayIndex(ks[i])
    ensures IndexKeys(ks) == []
  {
    if ks != [] {
      IndexKeysNone(ks[..|ks| - 1]);
    }
  }

  lemma {:induction false} OtherKeysAll(ks: seq<string>)
    requires forall i :: 0 <= i < |ks| ==> !IsArrayIndex(ks[i])
    ensures OtherKeys(ks) == ks
  {
    if ks != [] {
      OtherKeysAll(ks[..|ks| - 1]);
      assert ks == ks[..|ks| - 1] + [ks[|ks| - 1]];
    }
  }
}
