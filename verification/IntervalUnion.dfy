/**
 Tool wall time inside one clock group: the sort-and-merge loop, the points it covers and the
 time it reports. An interval whose endpoints came from different clock domains may be reversed.
 */
module IntervalUnion {
  import Sorting
  import opened Sets

  type Interval = (int, int)

  predicate Before(a: Interval, b: Interval) {
    a.0 < b.0 || (a.0 == b.0 && a.1 <= b.1)
  }

  predicate Sorted(s: seq<Interval>) {
    Sorting.InOrder(s, Before)
  }

  function Ordered(intervals: seq<Interval>): seq<Interval> {
    Sorting.Sort(intervals, Before)
  }

  lemma OrderedSorts(intervals: seq<Interval>)
    ensures Sorted(Ordered(intervals))
  {
    Sorting.SortOrders(intervals, Before);
  }

  // ---------------------------------------------------------------- what is covered

  /** The unit cells `[t, t + 1)` of an interval; a reversed interval has none. */
  ghost function Cells(i: Interval): (r: set<int>)
    ensures forall t :: t in r <==> i.0 <= t < i.1
    ensures Size(r) == if i.0 <= i.1 then i.1 - i.0 else 0
    decreases i.1 - i.0
  {
    if i.0 < i.1 then Cells((i.0, i.1 - 1)) + {i.1 - 1} else {}
  }

  ghost function Covered(intervals: seq<Interval>): set<int> {
    if intervals == [] then {}
    else Covered(intervals[..|intervals| - 1]) + Cells(intervals[|intervals| - 1])
  }

  /** A cell is covered when some interval has it. */
  lemma {:induction false} CoveredIn(intervals: seq<Interval>, t: int)
    ensures t in Covered(intervals) <==> exists i <- intervals :: t in Cells(i)
  {
    hide Cells;
    if intervals != [] {
      var front, last := intervals[..|intervals| - 1], intervals[|intervals| - 1];
      CoveredIn(front, t);
      assert intervals == front + [last];
      assert forall i :: i in intervals <==> i in front || i == last;
      if t in Cells(last) {
        assert last in intervals;
      } else if t in Covered(front) {
        var i :| i in front && t in Cells(i);
        assert i in intervals;
      }
    }
  }

  /** The closed intervals' points, over the reals. */
  ghost predicate Reaches(intervals: seq<Interval>, point: real) {
    exists i <- intervals :: Holds(i, point)
  }

  predicate Holds(i: Interval, point: real) {
    i.0 as real <= point <= i.1 as real
  }

  predicate Forward(intervals: seq<Interval>) {
    forall i <- intervals :: i.0 <= i.1
  }

  /** Sorted, and each interval ends strictly before the next one starts. */
  predicate Separated(merged: seq<Interval>) {
    forall j :: 0 <= j < |merged| - 1 ==> merged[j].1 < merged[j + 1].0
  }

  function Length(intervals: seq<Interval>): int {
    if intervals == [] then 0
    else Length(intervals[..|intervals| - 1]) + intervals[|intervals| - 1].1 - intervals[|intervals| - 1].0
  }

  /** A reversed interval that no forward interval starting earlier reaches. */
  predicate Stray(i: Interval, intervals: seq<Interval>) {
    i.1 < i.0 && forall j <- intervals :: j.0 < i.0 ==> j.1 < i.0
  }

  /** How far the stray intervals of `among` run backwards. */
  function Backwards(among: seq<Interval>, intervals: seq<Interval>): (r: nat)
    ensures r == 0 <==> forall i <- among :: !Stray(i, intervals)
  {
    if among == [] then 0
    else
      var last := among[|among| - 1];
      Backwards(among[..|among| - 1], intervals) + if Stray(last, intervals) then last.0 - last.1 else 0
  }

  // ---------------------------------------------------------------- the merge

  /** One interval joins the merged list: it opens a new entry, or extends the last one. */
  function MergeOne(merged: seq<Interval>, i: Interval): seq<Interval> {
    if merged == [] || i.0 > merged[|merged| - 1].1 then merged + [i]
    else
      var last := merged[|merged| - 1];
      merged[|merged| - 1 := (last.0, if last.1 >= i.1 then last.1 else i.1)]
  }

  lemma LengthAppend(merged: seq<Interval>, i: Interval)
    ensures Length(merged + [i]) == Length(merged) + i.1 - i.0
  {
    assert (merged + [i])[..|merged|] == merged;
  }

  lemma LengthExtend(merged: seq<Interval>, e: int)
    requires merged != []
    ensures Length(merged[|merged| - 1 := (merged[|merged| - 1].0, e)])
         == Length(merged) - merged[|merged| - 1].1 + e
  {
    assert merged[|merged| - 1 := (merged[|merged| - 1].0, e)][..|merged| - 1] == merged[..|merged| - 1];
  }

  /** How the last merged entry relates to the first `n` intervals. */
  ghost predicate Front(sorted: seq<Interval>, n: nat, last: Interval)
    requires 0 < n <= |sorted|
  {
    && last.0 <= sorted[n - 1].0
    && (forall i <- sorted[..n] :: i.1 <= last.1 || i.1 < last.0)
    && (exists i <- sorted[..n] :: i.1 == last.1)
    && Cells(last) <= Covered(sorted[..n])
  }

  /** What holds once the first `n` intervals are merged. */
  ghost predicate Merged(sorted: seq<Interval>, n: nat, merged: seq<Interval>)
    requires n <= |sorted|
  {
    && (n == 0 <==> merged == [])
    && Length(merged) == Size(Covered(sorted[..n])) - Backwards(sorted[..n], sorted)
    && Separated(merged)
    && (merged != [] ==> Front(sorted, n, merged[|merged| - 1]))
  }

  lemma OneMore(sorted: seq<Interval>, n: nat)
    requires n < |sorted|
    ensures Covered(sorted[..n + 1]) == Covered(sorted[..n]) + Cells(sorted[n])
    ensures Backwards(sorted[..n + 1], sorted) ==
      Backwards(sorted[..n], sorted) + if Stray(sorted[n], sorted) then sorted[n].0 - sorted[n].1 else 0
    ensures forall i :: i in sorted[..n + 1] <==> i in sorted[..n] || i == sorted[n]
  {
    OneMoreMember(sorted, n);
    hide Stray, Cells;
    assert sorted[..n + 1][..n] == sorted[..n];
  }

  lemma OneMoreMember(sorted: seq<Interval>, n: nat)
    requires n < |sorted|
    ensures forall i :: i in sorted[..n + 1] <==> i in sorted[..n] || i == sorted[n]
  {
    assert sorted[..n + 1] == sorted[..n] + [sorted[n]];
  }

  /** An interval that starts after every earlier end opens an entry; it is stray when reversed. */
  lemma OpenStray(sorted: seq<Interval>, n: nat)
    requires Sorted(sorted) && n < |sorted|
    requires forall i <- sorted[..n] :: i.1 < sorted[n].0
    ensures Stray(sorted[n], sorted) <==> sorted[n].1 < sorted[n].0
    ensures Size(Covered(sorted[..n]) + Cells(sorted[n])) == Size(Covered(sorted[..n])) + Size(Cells(sorted[n]))
  {
    forall j <- sorted | j.0 < sorted[n].0 ensures j.1 < sorted[n].0 {
      var k :| 0 <= k < |sorted| && sorted[k] == j;
      assert k < n ==> sorted[..n][k] == j;
    }
    forall t | t in Cells(sorted[n]) ensures t !in Covered(sorted[..n]) { CoveredIn(sorted[..n], t); }
    SizeOfUnion(Covered(sorted[..n]), Cells(sorted[n]));
  }

  /** An interval that starts inside the last entry is not stray. */
  lemma ExtendNotStray(sorted: seq<Interval>, n: nat, last: Interval)
    requires Sorted(sorted) && 0 < n < |sorted| && Front(sorted, n, last) && sorted[n].0 <= last.1
    ensures last.0 <= sorted[n].0 && !Stray(sorted[n], sorted)
  {
    hide Covered, Cells;
    var j :| j in sorted[..n] && j.1 == last.1;
    var k :| 0 <= k < n && sorted[..n][k] == j;
    assert sorted[k] == j;
    assert Before(sorted[k], sorted[n]);
    assert Before(sorted[n - 1], sorted[n]);
  }

  /** It adds the cells beyond the end of that entry. */
  lemma ExtendCovers(covered: set<int>, last: Interval, i: Interval)
    requires last.0 <= i.0 <= last.1 && Cells(last) <= covered && forall t <- covered :: t < last.1
    ensures covered + Cells(i) == covered + Cells((last.1, i.1))
    ensures Size(covered + Cells(i)) == Size(covered) + Size(Cells((last.1, i.1)))
    ensures Cells((last.0, if last.1 >= i.1 then last.1 else i.1)) <= covered + Cells(i)
  {
    var beyond := Cells((last.1, i.1));
    hide Size;
    SizeOfUnion(covered, beyond);
    assert covered + Cells(i) == covered + beyond;
  }

  lemma CoveredBelow(sorted: seq<Interval>, n: nat, last: Interval)
    requires 0 < n <= |sorted| && Front(sorted, n, last) && last.0 <= last.1
    ensures forall t <- Covered(sorted[..n]) :: t < last.1
  {
    forall t <- Covered(sorted[..n]) ensures t < last.1 { CoveredIn(sorted[..n], t); }
  }

  lemma MergeStep(sorted: seq<Interval>, n: nat, merged: seq<Interval>)
    requires Sorted(sorted) && n < |sorted| && Merged(sorted, n, merged)
    ensures Merged(sorted, n + 1, MergeOne(merged, sorted[n]))
  {
    hide Size, Covered, Cells, Stray, Backwards, Length;
    if merged == [] || sorted[n].0 > merged[|merged| - 1].1 {
      OpenStep(sorted, n, merged);
    } else {
      ExtendStep(sorted, n, merged);
    }
  }

  lemma OpenStep(sorted: seq<Interval>, n: nat, merged: seq<Interval>)
    requires Sorted(sorted) && n < |sorted| && Merged(sorted, n, merged)
    requires merged != [] ==> sorted[n].0 > merged[|merged| - 1].1
    ensures Merged(sorted, n + 1, merged + [sorted[n]])
  {
    hide Size, Covered, Cells, Stray, Backwards, Length;
    OneMore(sorted, n);
    if merged != [] {
      assert Before(sorted[n - 1], sorted[n]);
    }
    OpenStray(sorted, n);
    LengthAppend(merged, sorted[n]);
    assert Front(sorted, n + 1, sorted[n]);
  }

  lemma ExtendStep(sorted: seq<Interval>, n: nat, merged: seq<Interval>)
    requires Sorted(sorted) && n < |sorted| && Merged(sorted, n, merged)
    requires merged != [] && sorted[n].0 <= merged[|merged| - 1].1
    ensures Merged(sorted, n + 1, MergeOne(merged, sorted[n]))
  {
    hide Size, Covered, Cells, Stray, Backwards, Length;
    var i, last := sorted[n], merged[|merged| - 1];
    OneMore(sorted, n);
    ExtendNotStray(sorted, n, last);
    CoveredBelow(sorted, n, last);
    ExtendCovers(Covered(sorted[..n]), last, i);
    LengthExtend(merged, if last.1 >= i.1 then last.1 else i.1);
    assert Front(sorted, n + 1, (last.0, if last.1 >= i.1 then last.1 else i.1));
  }

  /** Merging one interval adds exactly its points. */
  lemma MergeReaches(sorted: seq<Interval>, n: nat, merged: seq<Interval>, point: real)
    requires Sorted(sorted) && n < |sorted| && Merged(sorted, n, merged)
    ensures Reaches(MergeOne(merged, sorted[n]), point) <==> Reaches(merged, point) || Holds(sorted[n], point)
  {
    hide Covered, Cells, Stray, Backwards, Length, Separated;
    var i := sorted[n];
    if merged == [] || i.0 > merged[|merged| - 1].1 {
      assert forall j :: j in merged + [i] <==> j in merged || j == i;
    } else {
      var front, last := merged[..|merged| - 1], merged[|merged| - 1];
      var longer := (last.0, if last.1 >= i.1 then last.1 else i.1);
      assert MergeOne(merged, i) == front + [longer];
      assert merged == front + [last];
      assert forall j :: j in front + [longer] <==> j in front || j == longer;
      assert forall j :: j in front + [last] <==> j in front || j == last;
      assert Before(sorted[n - 1], sorted[n]);
      assert Holds(longer, point) <==> Holds(last, point) || Holds(i, point);
    }
  }

  lemma ReachesOneMore(sorted: seq<Interval>, n: nat, point: real)
    requires n < |sorted|
    ensures Reaches(sorted[..n + 1], point) <==> Reaches(sorted[..n], point) || Holds(sorted[n], point)
  {
    hide Holds;
    OneMore(sorted, n);
  }

  lemma NothingMerged(sorted: seq<Interval>)
    ensures Merged(sorted, 0, [])
    ensures forall point: real :: !Reaches([], point) && !Reaches(sorted[..0], point)
  {
    assert sorted[..0] == [];
  }

  lemma MergedAll(sorted: seq<Interval>, merged: seq<Interval>)
    requires Merged(sorted, |sorted|, merged)
    ensures Separated(merged) && Length(merged) == Size(Covered(sorted)) - Backwards(sorted, sorted)
  {
    assert sorted[..|sorted|] == sorted;
  }

  /**
   The merge loop: the entries are sorted and strictly separated, they cover exactly the points of
   the input, and the total is the number of covered cells less what stray intervals run backwards.
   */
  method WallTime(intervals: seq<Interval>) returns (merged: seq<Interval>, total: int)
    ensures Separated(merged)
    ensures forall point: real :: Reaches(merged, point) <==> Reaches(intervals, point)
    ensures total == Size(Covered(intervals)) - Backwards(Ordered(intervals), intervals)
  {
    hide Size, Covered, Backwards, Ordered, Sorted, Merged, Reaches;
    var sorted := Ordered(intervals);
    OrderedSorts(intervals);
    merged := [];
    NothingMerged(sorted);
    for n := 0 to |sorted|
      invariant Merged(sorted, n, merged)
      invariant forall point: real :: Reaches(merged, point) <==> Reaches(sorted[..n], point)
    {
      ghost var before := merged;
      MergeStep(sorted, n, merged);
      var start, end := sorted[n].0, sorted[n].1;
      if merged == [] || start > merged[|merged| - 1].1 {
        merged := merged + [(start, end)];
      } else {
        var last := merged[|merged| - 1];
        merged := merged[|merged| - 1 := (last.0, if last.1 >= end then last.1 else end)];
      }
      assert merged == MergeOne(before, sorted[n]);
      forall point: real ensures Reaches(merged, point) <==> Reaches(sorted[..n + 1], point) {
        MergeReaches(sorted, n, before, point);
        ReachesOneMore(sorted, n, point);
      }
    }
    assert sorted[..|sorted|] == sorted;
    MergedAll(sorted, merged);
    SameMembers(intervals);
    total := 0;
    for n := 0 to |merged|
      invariant total == Length(merged[..n])
    {
      assert merged[..n + 1] == merged[..n] + [merged[n]];
      total := total + (merged[n].1 - merged[n].0);
    }
    assert merged[..|merged|] == merged;
  }

  lemma SameMembers(intervals: seq<Interval>)
    ensures forall i :: i in Ordered(intervals) <==> i in intervals
    ensures Covered(Ordered(intervals)) == Covered(intervals)
    ensures forall point: real :: Reaches(Ordered(intervals), point) <==> Reaches(intervals, point)
    ensures Backwards(Ordered(intervals), Ordered(intervals)) == Backwards(Ordered(intervals), intervals)
  {
    var sorted := Ordered(intervals);
    assert forall i :: i in sorted <==> i in multiset(sorted);
    assert forall i :: i in intervals <==> i in multiset(intervals);
    BackwardsSame(sorted, sorted, intervals);
    CoveredSame(sorted, intervals);
  }

  lemma CoveredSame(a: seq<Interval>, b: seq<Interval>)
    requires forall i :: i in a <==> i in b
    ensures Covered(a) == Covered(b)
  {
    forall t ensures t in Covered(a) <==> t in Covered(b) {
      CoveredIn(a, t);
      CoveredIn(b, t);
    }
  }

  lemma {:induction false} BackwardsSame(among: seq<Interval>, a: seq<Interval>, b: seq<Interval>)
    requires forall i :: i in a <==> i in b
    ensures Backwards(among, a) == Backwards(among, b)
  {
    if among != [] { BackwardsSame(among[..|among| - 1], a, b); }
  }

  /** The total is the measure of the union exactly when no interval is stray. */
  lemma WallTimeExact(intervals: seq<Interval>, total: int)
    requires total == Size(Covered(intervals)) - Backwards(Ordered(intervals), intervals)
    ensures total == Size(Covered(intervals)) <==> forall i <- intervals :: !Stray(i, intervals)
    ensures Forward(intervals) ==> total == Size(Covered(intervals))
  {
    SameMembers(intervals);
  }

  /** The reported total does not depend on the order of the intervals, stray ones included. */
  lemma OrderDoesNotMatter(intervals: seq<Interval>, reordered: seq<Interval>)
    requires multiset(intervals) == multiset(reordered)
    ensures Size(Covered(intervals)) - Backwards(Ordered(intervals), intervals)
      == Size(Covered(reordered)) - Backwards(Ordered(reordered), reordered)
  {
    hide Covered;
    assert forall i :: i in intervals <==> i in multiset(intervals);
    assert forall i :: i in reordered <==> i in multiset(reordered);
    CoveredSame(intervals, reordered);
    OrderedSorts(intervals);
    OrderedSorts(reordered);
    Sorting.SortedOnce(Ordered(intervals), Ordered(reordered), Before);
    BackwardsSame(Ordered(intervals), intervals, reordered);
  }

  /** Wall time never exceeds the summed work. */
  lemma {:induction false} WallTimeAtMostWork(intervals: seq<Interval>)
    requires Forward(intervals)
    ensures Size(Covered(intervals)) <= Length(intervals)
  {
    if intervals != [] {
      var front, last := intervals[..|intervals| - 1], intervals[|intervals| - 1];
      WallTimeAtMostWork(front);
      SizeOfUnion(Covered(front), Cells(last));
    }
  }

  /** A single interval whose end, read on another clock, precedes its start reports negative wall time. */
  lemma ReversedInterval()
    ensures Size(Covered([(100, 50)])) - Backwards([(100, 50)], [(100, 50)]) == -50
  {
    assert Stray((100, 50), [(100, 50)]);
    assert Covered([(100, 50)]) == {};
    assert [(100, 50)][..0] == [];
  }
}
