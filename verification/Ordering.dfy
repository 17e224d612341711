/** The order in which ids are listed: by their characters, as the database and Python's `sorted` order them. */
module Ordering {

  predicate Le(a: string, b: string) {
    a == "" || (b != "" && (a[0] < b[0] || (a[0] == b[0] && Le(a[1..], b[1..]))))
  }

  lemma {:induction false} LeTotal(a: string, b: string)
    ensures Le(a, b) || Le(b, a)
  {
    if a != "" && b != "" && a[0] == b[0] { LeTotal(a[1..], b[1..]); }
  }

  lemma {:induction false} LeAntisymmetric(a: string, b: string)
    requires Le(a, b) && Le(b, a)
    ensures a == b
  {
    if a != "" && b != "" {
      LeAntisymmetric(a[1..], b[1..]);
      assert a == [a[0]] + a[1..] && b == [b[0]] + b[1..];
    }
  }

  lemma {:induction false} LeTransitive(a: string, b: string, c: string)
    requires Le(a, b) && Le(b, c)
    ensures Le(a, c)
  {
    if a != "" && a[0] == b[0] && b[0] == c[0] { LeTransitive(a[1..], b[1..], c[1..]); }
  }

  predicate IsLeast(m: string, ids: set<string>) {
    m in ids && forall x | x in ids :: Le(m, x)
  }

  lemma {:induction false} LeastExists(ids: set<string>)
    requires ids != {}
    ensures exists m :: IsLeast(m, ids)
    decreases |ids|
  {
    var x :| x in ids;
    var rest := ids - {x};
    LeTotal(x, x);
    if rest == {} {
      assert ids == {x};
      assert IsLeast(x, ids);
    } else {
      LeastExists(rest);
      var m :| IsLeast(m, rest);
      LeTotal(x, m);
      var least := if Le(x, m) then x else m;
      forall y | y in ids ensures Le(least, y) {
        if y != x {
          assert y in rest;
          if least == x { LeTransitive(x, m, y); }
        }
      }
      assert IsLeast(least, ids);
    }
  }

  function Least(ids: set<string>): (m: string)
    requires ids != {}
    ensures IsLeast(m, ids)
  {
    LeastExists(ids);
    assert forall a, b | IsLeast(a, ids) && IsLeast(b, ids) :: a == b by {
      forall a, b | IsLeast(a, ids) && IsLeast(b, ids) ensures a == b { LeAntisymmetric(a, b); }
    }
    var m :| m in ids && IsLeast(m, ids); m
  }

  /** A set of ids in ascending order. */
  function Sorted(ids: set<string>): (s: seq<string>)
    ensures |s| == |ids|
    ensures forall x :: x in s <==> x in ids
    decreases |ids|
  {
    if ids == {} then []
    else
      var m := Least(ids);
      assert ids == {m} + (ids - {m});
      [m] + Sorted(ids - {m})
  }

  ghost predicate Ascending(s: seq<string>) {
    forall i, j :: 0 <= i < j < |s| ==> Le(s[i], s[j]) && s[i] != s[j]
  }

  lemma {:induction false} SortedIsAscending(ids: set<string>)
    ensures Ascending(Sorted(ids))
    decreases |ids|
  {
    if ids != {} {
      var m := Least(ids);
      SortedIsAscending(ids - {m});
      PrependAscends(m, Sorted(ids - {m}));
    }
  }

  lemma PrependAscends(m: string, rest: seq<string>)
    requires Ascending(rest) && forall x | x in rest :: Le(m, x) && m != x
    ensures Ascending([m] + rest)
  {
    hide Le;
    assert forall i | 0 <= i < |rest| :: rest[i] in rest;
  }
}
