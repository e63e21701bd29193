/** Sorting by a total order: what the sources leave to their language's stable sort. */
module Sorting {

  predicate InOrder<T>(s: seq<T>, leq: (T, T) -> bool) {
    forall i, j :: 0 <= i < j < |s| ==> leq(s[i], s[j])
  }

  function Insert<T>(x: T, s: seq<T>, leq: (T, T) -> bool): (r: seq<T>)
    ensures multiset(r) == multiset(s) + multiset{x}
  {
    if s == [] then [x]
    else
      var front, last := s[..|s| - 1], s[|s| - 1];
      assert s == front + [last];
      if leq(last, x) then s + [x] else Insert(x, front, leq) + [last]
  }

  function Sort<T>(s: seq<T>, leq: (T, T) -> bool): (r: seq<T>)
    ensures multiset(r) == multiset(s)
  {
    if s == [] then []
    else
      var front, last := s[..|s| - 1], s[|s| - 1];
      assert s == front + [last];
      Insert(last, Sort(front, leq), leq)
  }

  /** `leq` compares any two elements and chains. */
  ghost predicate Orders<T(!new)>(leq: (T, T) -> bool) {
    && (forall a, b :: leq(a, b) || leq(b, a))
    && forall a, b, c :: leq(a, b) && leq(b, c) ==> leq(a, c)
  }

  lemma {:induction false} InsertKeepsOrder<T(!new)>(x: T, s: seq<T>, leq: (T, T) -> bool)
    requires Orders(leq) && InOrder(s, leq)
    ensures InOrder(Insert(x, s, leq), leq)
  {
    if s != [] {
      var front, last := s[..|s| - 1], s[|s| - 1];
      if leq(last, x) {
        assert forall i :: 0 <= i < |front| ==> leq(s[i], last);
      } else {
        InsertKeepsOrder(x, front, leq);
        var r := Insert(x, front, leq);
        forall y <- r ensures leq(y, last) {
          assert y in multiset(r);
          assert y in front || y == x;
        }
      }
    }
  }

  lemma {:induction false} SortOrders<T(!new)>(s: seq<T>, leq: (T, T) -> bool)
    requires Orders(leq)
    ensures InOrder(Sort(s, leq), leq)
  {
    hide Insert, InOrder, Orders;
    if s == [] {
      NothingInOrder(leq);
    } else {
      SortOrders(s[..|s| - 1], leq);
      InsertKeepsOrder(s[|s| - 1], Sort(s[..|s| - 1], leq), leq);
    }
  }

  lemma NothingInOrder<T>(leq: (T, T) -> bool)
    ensures InOrder([], leq)
  {
  }

  lemma SortMembers<T>(s: seq<T>, leq: (T, T) -> bool)
    ensures forall x :: x in Sort(s, leq) <==> x in s
  {
    var r := Sort(s, leq);
    assert forall x :: x in r <==> x in multiset(r);
    assert forall x :: x in s <==> x in multiset(s);
  }

  lemma DropLast<T>(s: seq<T>)
    requires s != []
    ensures multiset(s[..|s| - 1]) == multiset(s) - multiset{s[|s| - 1]}
    ensures s == s[..|s| - 1] + [s[|s| - 1]]
  {
    assert s == s[..|s| - 1] + [s[|s| - 1]];
  }

  lemma FrontInOrder<T>(s: seq<T>, leq: (T, T) -> bool)
    requires s != [] && InOrder(s, leq)
    ensures InOrder(s[..|s| - 1], leq)
  {
  }

  lemma SameLength<T>(a: seq<T>, b: seq<T>)
    requires multiset(a) == multiset(b)
    ensures |a| == |b|
  {
    assert |a| == |multiset(a)| == |multiset(b)| == |b|;
  }

  /** Where equals are identical, sorting has one outcome for all orders of the same elements. */
  lemma {:induction false} SortedOnce<T(!new)>(a: seq<T>, b: seq<T>, leq: (T, T) -> bool)
    requires InOrder(a, leq) && InOrder(b, leq) && multiset(a) == multiset(b)
    requires forall x, y :: leq(x, y) && leq(y, x) ==> x == y
    ensures a == b
  {
    hide InOrder;
    SameLength(a, b);
    if a != [] {
      LastIsLast(a, b, leq);
      DropLast(a);
      DropLast(b);
      FrontInOrder(a, leq);
      FrontInOrder(b, leq);
      SortedOnce(a[..|a| - 1], b[..|b| - 1], leq);
    }
  }

  lemma LastIsLast<T(!new)>(a: seq<T>, b: seq<T>, leq: (T, T) -> bool)
    requires InOrder(a, leq) && InOrder(b, leq) && multiset(a) == multiset(b) && |a| == |b| > 0
    requires forall x, y :: leq(x, y) && leq(y, x) ==> x == y
    ensures a[|a| - 1] == b[|b| - 1]
  {
    var x, y := a[|a| - 1], b[|b| - 1];
    assert x in multiset(b) && y in multiset(a);
    var i :| 0 <= i < |b| && b[i] == x;
    var j :| 0 <= j < |a| && a[j] == y;
  }
}
