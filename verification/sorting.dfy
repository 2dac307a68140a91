/**
 * A stable sort by a real-valued key: Python's `list.sort(key=...)`, and
 * pandas `sort_index` up to the order of rows with equal keys (its default
 * quicksort is not stable).
 */
module Sorting {
  predicate SortedBy<T>(s: seq<T>, key: T -> real) {
    forall i, j :: 0 <= i < j < |s| ==> key(s[i]) <= key(s[j])
  }

  /** Puts `x` in front of the first element whose key is not below its own. */
  function Insert<T>(x: T, s: seq<T>, key: T -> real): (r: seq<T>)
    ensures |r| == |s| + 1
    ensures multiset(r) == multiset(s) + multiset{x}
  {
    if s == [] || key(x) <= key(s[0]) then
      [x] + s
    else
      assert s == [s[0]] + s[1..];
      [s[0]] + Insert(x, s[1..], key)
  }

  predicate AllAtLeast<T>(s: seq<T>, key: T -> real, bound: real) {
    forall i :: 0 <= i < |s| ==> bound <= key(s[i])
  }

  /** Inserting a key not below `bound` keeps every key at least `bound`. */
  lemma {:induction false} InsertAtLeast<T>(x: T, s: seq<T>, key: T -> real, bound: real)
    requires AllAtLeast(s, key, bound) && bound <= key(x)
    ensures AllAtLeast(Insert(x, s, key), key, bound)
  {
    if s != [] && key(x) > key(s[0]) {
      InsertAtLeast(x, s[1..], key, bound);
      assert Insert(x, s, key) == [s[0]] + Insert(x, s[1..], key);
    }
  }

  /** Inserting into a sorted sequence keeps it sorted. */
  lemma {:induction false} InsertSorted<T>(x: T, s: seq<T>, key: T -> real)
    requires SortedBy(s, key)
    ensures SortedBy(Insert(x, s, key), key)
  {
    if s != [] && key(x) > key(s[0]) {
      var tail := s[1..];
      InsertSorted(x, tail, key);
      InsertAtLeast(x, tail, key, key(s[0]));
      var rest := Insert(x, tail, key);
      var r := Insert(x, s, key);
      assert r == [s[0]] + rest;
      forall i, j | 0 <= i < j < |r| ensures key(r[i]) <= key(r[j]) {
        assert r[j] == rest[j - 1];
        if i > 0 {
          assert r[i] == rest[i - 1];
        }
      }
    }
  }

  /** Insertion sort: the head is inserted into the sorted tail. */
  function SortBy<T>(s: seq<T>, key: T -> real): (r: seq<T>)
    ensures |r| == |s|
    ensures multiset(r) == multiset(s)
    ensures SortedBy(r, key)
  {
    if s == [] then []
    else
      assert s == [s[0]] + s[1..];
      var sortedTail := SortBy(s[1..], key);
      InsertSorted(s[0], sortedTail, key);
      Insert(s[0], sortedTail, key)
  }

  // Ordering (time, value) pairs with distinct times, as `ORDER BY` a time column does.

  /** No two entries share a time. */
  predicate DistinctTimes<V(==)>(entries: set<(real, V)>) {
    forall e, e' :: e in entries && e' in entries && e.0 == e'.0 ==> e == e'
  }

  /** `e` is one of `entries` with the earliest time. */
  predicate Earliest<V(==)>(e: (real, V), entries: set<(real, V)>) {
    e in entries && forall e' :: e' in entries ==> e.0 <= e'.0
  }

  /** Times strictly increase along `rows`. */
  predicate TimeAscending<V(==)>(rows: seq<(real, V)>) {
    forall i, j :: 0 <= i < j < |rows| ==> rows[i].0 < rows[j].0
  }

  /** `rows` lists every one of `entries` once, by strictly ascending time. */
  ghost predicate Listing<V>(rows: seq<(real, V)>, entries: set<(real, V)>) {
    |rows| == |entries| && TimeAscending(rows) &&
    (forall i :: 0 <= i < |rows| ==> rows[i] in entries) &&
    (forall e :: e in entries ==> e in rows)
  }

  /**
   * Part way through ordering: `rows` lists, by ascending time, the entries
   * not `remaining`, each earlier than every entry still remaining.
   */
  ghost predicate Ordering<V>(rows: seq<(real, V)>, remaining: set<(real, V)>, entries: set<(real, V)>) {
    remaining <= entries && |rows| + |remaining| == |entries| && TimeAscending(rows) &&
    (forall i :: 0 <= i < |rows| ==> rows[i] in entries) &&
    (forall e :: e in entries ==> e in remaining || e in rows) &&
    (forall i, e :: 0 <= i < |rows| && e in remaining ==> rows[i].0 < e.0)
  }

  /** A non-empty finite set of entries has one with the earliest time. */
  lemma {:induction false} EarliestExists<V>(entries: set<(real, V)>)
    requires entries != {}
    ensures exists e :: Earliest(e, entries)
    decreases |entries|
  {
    var e :| e in entries;
    if entries == {e} {
      assert Earliest(e, entries);
    } else {
      EarliestExists(entries - {e});
      var m :| Earliest(m, entries - {e});
      if e.0 < m.0 {
        assert Earliest(e, entries);
      } else {
        assert Earliest(m, entries);
      }
    }
  }

  lemma TimeAscendingAppend<V>(rows: seq<(real, V)>, e: (real, V))
    requires TimeAscending(rows) && forall i :: 0 <= i < |rows| ==> rows[i].0 < e.0
    ensures TimeAscending(rows + [e])
  {
  }

  /** Moving `e` from the remaining entries to the rows keeps every entry accounted for. */
  lemma CoverAppend<V>(rows: seq<(real, V)>, remaining: set<(real, V)>, entries: set<(real, V)>, e: (real, V))
    requires forall x :: x in entries ==> x in remaining || x in rows
    ensures forall x :: x in entries ==> x in remaining - {e} || x in rows + [e]
  {
    forall x | x in entries
      ensures x in remaining - {e} || x in rows + [e]
    {
      if x in rows {
        var i :| 0 <= i < |rows| && rows[i] == x;
        assert (rows + [e])[i] == x;
      } else if x == e {
        assert (rows + [e])[|rows|] == x;
      }
    }
  }

  /** Moving the earliest remaining entry to the end of the rows keeps the ordering. */
  lemma OrderingStep<V>(rows: seq<(real, V)>, remaining: set<(real, V)>, entries: set<(real, V)>, e: (real, V))
    requires Ordering(rows, remaining, entries) && DistinctTimes(entries) && Earliest(e, remaining)
    ensures Ordering(rows + [e], remaining - {e}, entries)
  {
    forall e' | e' in remaining - {e}
      ensures e.0 < e'.0
    {
      assert e != e';
    }
    TimeAscendingAppend(rows, e);
    CoverAppend(rows, remaining, entries, e);
  }

  /**
   * `ORDER BY` a time column: the entries by ascending time, by
   * repeatedly taking the earliest one left.
   */
  method OrderByTime<V(==)>(entries: set<(real, V)>) returns (rows: seq<(real, V)>)
    requires DistinctTimes(entries)
    ensures Listing(rows, entries)
  {
    rows := [];
    var remaining := entries;
    while remaining != {}
      invariant Ordering(rows, remaining, entries)
      decreases |remaining|
    {
      EarliestExists(remaining);
      var e :| Earliest(e, remaining);
      OrderingStep(rows, remaining, entries, e);
      rows := rows + [e];
      remaining := remaining - {e};
    }
  }

  /** The entries by ascending time, taking the earliest one first: the one order `ORDER BY` can give. */
  ghost function OrderedEntries<V>(entries: set<(real, V)>): (rows: seq<(real, V)>)
    ensures entries != {} ==>
      |rows| > 0 && Earliest(rows[0], entries) && rows[1..] == OrderedEntries(entries - {rows[0]})
    decreases |entries|
  {
    if entries == {} then []
    else
      EarliestExists(entries);
      var e :| Earliest(e, entries);
      [e] + OrderedEntries(entries - {e})
  }

  /** The first row of a listing is an earliest entry. */
  lemma ListingHeadEarliest<V>(rows: seq<(real, V)>, entries: set<(real, V)>)
    requires Listing(rows, entries) && entries != {}
    ensures Earliest(rows[0], entries)
  {
    forall e | e in entries
      ensures rows[0].0 <= e.0
    {
      var k :| 0 <= k < |rows| && rows[k] == e;
    }
  }

  /** Without its first row a listing lists the other entries. */
  lemma ListingTail<V>(rows: seq<(real, V)>, entries: set<(real, V)>)
    requires Listing(rows, entries) && entries != {}
    ensures Listing(rows[1..], entries - {rows[0]})
  {
    var rest := entries - {rows[0]};
    forall e | e in rest
      ensures e in rows[1..]
    {
      var k :| 0 <= k < |rows| && rows[k] == e;
      assert rows[1..][k - 1] == e;
    }
    forall i | 0 <= i < |rows| - 1
      ensures rows[1..][i] in rest
    {
      assert rows[i + 1].0 > rows[0].0;
    }
  }

  /** Entries with distinct times have exactly one listing by ascending time. */
  lemma {:induction false} ListingIsOrdered<V>(rows: seq<(real, V)>, entries: set<(real, V)>)
    requires DistinctTimes(entries) && Listing(rows, entries)
    ensures rows == OrderedEntries(entries)
    decreases |entries|
  {
    if entries != {} {
      var o := OrderedEntries(entries);
      ListingHeadEarliest(rows, entries);
      assert o[0].0 == rows[0].0;
      ListingTail(rows, entries);
      ListingIsOrdered(rows[1..], entries - {rows[0]});
      assert rows == [rows[0]] + rows[1..];
    }
  }
}
