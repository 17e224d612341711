/** Sorting by an order, as Python's `sorted` does: the same items, none after one it should precede. */
module Sorting {
  import opened Prelude

  ghost predicate IsOrder<T(!new)>(le: (T, T) -> bool) {
    && (forall a, b :: le(a, b) || le(b, a))
    && (forall a, b, c | le(a, b) && le(b, c) :: le(a, c))
  }

  function Insert<T>(le: (T, T) -> bool, x: T, sorted: seq<T>): seq<T> {
    if sorted == [] || le(x, sorted[0]) then [x] + sorted else [sorted[0]] + Insert(le, x, sorted[1..])
  }

  function Sort<T>(le: (T, T) -> bool, all: seq<T>): seq<T> {
    if all == [] then [] else Insert(le, all[0], Sort(le, all[1..]))
  }

  ghost predicate InOrder<T(!new)>(le: (T, T) -> bool, s: seq<T>) {
    forall i, j | 0 <= i < j < |s| :: le(s[i], s[j])
  }

  lemma PrependKeepsOrder<T(!new)>(le: (T, T) -> bool, x: T, rest: seq<T>)
    requires InOrder(le, rest) && forall y | y in rest :: le(x, y)
    ensures InOrder(le, [x] + rest)
  {
    assert forall i | 0 <= i < |rest| :: rest[i] in rest;
  }

  lemma AppendKeepsOrder<T(!new)>(le: (T, T) -> bool, front: seq<T>, x: T)
    requires InOrder(le, front) && forall y | y in front :: le(y, x)
    ensures InOrder(le, front + [x])
  {
    assert forall i | 0 <= i < |front| :: front[i] in front;
  }

  lemma AllAfterFirst<T(!new)>(le: (T, T) -> bool, x: T, sorted: seq<T>)
    requires IsOrder(le) && InOrder(le, sorted) && sorted != [] && le(x, sorted[0])
    ensures forall y | y in sorted :: le(x, y)
  {
    forall y | y in sorted ensures le(x, y) {
      var i :| 0 <= i < |sorted| && sorted[i] == y;
      assert i > 0 ==> le(sorted[0], sorted[i]);
    }
  }

  lemma {:induction false} InsertKeepsOrder<T(!new)>(le: (T, T) -> bool, x: T, sorted: seq<T>)
    requires IsOrder(le) && InOrder(le, sorted)
    ensures InOrder(le, Insert(le, x, sorted)) && multiset(Insert(le, x, sorted)) == multiset{x} + multiset(sorted)
    decreases |sorted|
  {
    if sorted == [] {
      PrependKeepsOrder(le, x, []);
    } else if le(x, sorted[0]) {
      AllAfterFirst(le, x, sorted);
      PrependKeepsOrder(le, x, sorted);
    } else {
      var rest := Insert(le, x, sorted[1..]);
      InsertKeepsOrder(le, x, sorted[1..]);
      assert sorted == [sorted[0]] + sorted[1..];
      forall y | y in rest ensures le(sorted[0], y) {
        assert y in multiset(rest);
        assert y == x || y in sorted[1..];
      }
      PrependKeepsOrder(le, sorted[0], rest);
    }
  }

  lemma {:induction false} SortSorts<T(!new)>(le: (T, T) -> bool, all: seq<T>)
    requires IsOrder(le)
    ensures InOrder(le, Sort(le, all)) && multiset(Sort(le, all)) == multiset(all)
    decreases |all|
  {
    if all != [] {
      SortSorts(le, all[1..]);
      InsertKeepsOrder(le, all[0], Sort(le, all[1..]));
      assert all == [all[0]] + all[1..];
    }
  }

  lemma SortedMembers<T(!new)>(le: (T, T) -> bool, all: seq<T>)
    requires IsOrder(le)
    ensures |Sort(le, all)| == |all| && forall x :: x in Sort(le, all) <==> x in all
  {
    SortSorts(le, all);
    var sorted := Sort(le, all);
    assert |sorted| == |multiset(sorted)| == |multiset(all)| == |all|;
    forall x ensures x in sorted <==> x in all { assert x in multiset(sorted) <==> x in multiset(all); }
  }

  /** The true top: what is returned is as much as asked for or all, in order, and nothing left out goes before it. */
  lemma TopIsTrue<T(!new)>(le: (T, T) -> bool, all: seq<T>, limit: nat) returns (left: seq<T>)
    requires IsOrder(le)
    ensures var top := FirstOf(Sort(le, all), limit);
            && |top| == (if limit < |all| then limit else |all|) && InOrder(le, top)
            && multiset(top) + multiset(left) == multiset(all)
            && forall t, u | t in top && u in left :: le(t, u)
  {
    SortSorts(le, all);
    SortedMembers(le, all);
    var sorted := Sort(le, all);
    left := if limit < |sorted| then sorted[limit..] else [];
    assert sorted == FirstOf(sorted, limit) + left;
  }

  // ---- things that differ ----

  lemma {:induction false} SortKeepsDistinct<T(!new)>(le: (T, T) -> bool, all: seq<T>)
    requires IsOrder(le) && Distinct(all)
    ensures Distinct(Sort(le, all))
    decreases |all|
  {
    if all != [] {
      SortKeepsDistinct(le, all[1..]);
      SortedMembers(le, all[1..]);
      InsertKeepsDistinct(le, all[0], Sort(le, all[1..]));
    }
  }

  lemma PrependIsDistinct<T>(x: T, rest: seq<T>)
    requires Distinct(rest) && x !in rest
    ensures Distinct([x] + rest)
  {
  }

  lemma {:induction false} InsertKeepsDistinct<T(!new)>(le: (T, T) -> bool, x: T, sorted: seq<T>)
    requires Distinct(sorted) && x !in sorted
    ensures Distinct(Insert(le, x, sorted)) && forall y :: y in Insert(le, x, sorted) <==> y == x || y in sorted
    decreases |sorted|
  {
    if sorted != [] && !le(x, sorted[0]) {
      var rest := Insert(le, x, sorted[1..]);
      InsertKeepsDistinct(le, x, sorted[1..]);
      assert sorted == [sorted[0]] + sorted[1..];
      assert sorted[0] !in sorted[1..];
      PrependIsDistinct(sorted[0], rest);
    } else {
      PrependIsDistinct(x, sorted);
    }
  }

  /** The top of things that differ, as sets: what is returned differs, and what is not in it was left out. */
  lemma TopOf<T(!new)>(le: (T, T) -> bool, all: seq<T>, limit: nat) returns (left: seq<T>)
    requires IsOrder(le) && Distinct(all)
    ensures var top := FirstOf(Sort(le, all), limit);
            && Distinct(top) && InOrder(le, top) && |top| <= limit
            && (forall x | x in top :: x in all)
            && forall x | x in all && x !in top :: |top| == limit && forall t | t in top :: le(t, x)
  {
    left := TopIsTrue(le, all, limit);
    SortKeepsDistinct(le, all);
    SortedMembers(le, all);
    var sorted, top := Sort(le, all), FirstOf(Sort(le, all), limit);
    assert forall x | x in top :: x in sorted;
    forall x | x in all && x !in top ensures x in left && |top| == limit {
      assert x in multiset(all);
      assert x in multiset(top) + multiset(left);
    }
  }

  lemma NothingIsSorted<T>(le: (T, T) -> bool)
    ensures Sort(le, []) == []
  {
  }
}
