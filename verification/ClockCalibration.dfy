/**
 Clock calibration between two domains: the affine wall map with its rounding, and the choice
 between several calibrations of one instant. Arithmetic is exact.
 */
module ClockCalibration {
  import opened Wrappers
  import Sorting

  const UINT64_MAX := 0xFFFF_FFFF_FFFF_FFFF

  datatype Relation = Relation(
    id: int,
    offset: int,
    driftPpm: Option<real>,
    reference: Option<int>,
    uncertainty: Option<nat>,
    validFrom: Option<int>,
    validTo: Option<int>)

  datatype Mapped = Coordinate(nanos: int) | Degenerate | Unrepresentable

  /** Nearest integer, ties to the even one. */
  function Round(x: real): (r: int)
    ensures -0.5 <= r as real - x <= 0.5
  {
    var f := x.Floor;
    var d := x - f as real;
    if d < 0.5 || (d == 0.5 && f % 2 == 0) then f else f + 1
  }

  function Representable(nanos: int): Mapped {
    if 0 <= nanos <= UINT64_MAX then Coordinate(nanos) else Unrepresentable
  }

  function Drift(relation: Relation): real {
    if relation.driftPpm.Some? then relation.driftPpm.value / 1000000.0 else 0.0
  }

  function Slope(relation: Relation): real {
    1.0 + Drift(relation)
  }

  function Correction(drift: real, span: int): real {
    drift * span as real
  }

  function Elapsed(span: int, slope: real): real
    requires slope != 0.0
  {
    span as real / slope
  }

  /** Without a reference the instant is its own. */
  function Anchor(relation: Relation, wall: int): int {
    if relation.reference.Some? then relation.reference.value else wall
  }

  function MapWall(relation: Relation, wall: int, forward: bool): Mapped {
    if Drift(relation) == 0.0 then
      Representable(if forward then wall + relation.offset else wall - relation.offset)
    else if Slope(relation) <= 0.0 then Degenerate
    else
      var reference := Anchor(relation, wall);
      if forward then
        Representable(wall + relation.offset + Round(Correction(Drift(relation), wall - reference)))
      else
        Representable(reference + Round(Elapsed(wall - relation.offset - reference, Slope(relation))))
  }

  predicate InWindow(relation: Relation, coordinate: int) {
    && (relation.validFrom.Some? ==> relation.validFrom.value <= coordinate)
    && (relation.validTo.Some? ==> coordinate <= relation.validTo.value)
  }

  /** `Inapplicable` says that the instant is outside the relation's validity window. */
  datatype Applied = Aligned(nanos: int, uncertainty: Option<nat>) | Refused(reason: Mapped) | Inapplicable

  function Apply(relation: Relation, wall: int, forward: bool): Applied {
    if forward && !InWindow(relation, wall) then Inapplicable
    else
      var mapped := MapWall(relation, wall, forward);
      if !mapped.Coordinate? then Refused(mapped)
      else if !forward && !InWindow(relation, mapped.nanos) then Inapplicable
      else Aligned(mapped.nanos, relation.uncertainty)
  }

  // ---------------------------------------------------------------- what the maps answer

  /** The integer nearest to a number, and the even one of two that are equally near. */
  predicate Nearest(n: int, x: real) {
    -0.5 < x - n as real < 0.5 || (n % 2 == 0 && (x - n as real == 0.5 || x - n as real == -0.5))
  }

  /** The answer is the coordinate, if it is a 64-bit one. */
  predicate Answers(mapped: Mapped, nanos: int) {
    mapped == if 0 <= nanos <= 0xFFFF_FFFF_FFFF_FFFF then Coordinate(nanos) else Unrepresentable
  }

  /** The answer is a coordinate and a rounded distance from it. */
  ghost predicate Rounded(mapped: Mapped, base: int, distance: real) {
    exists n :: Nearest(n, distance) && Answers(mapped, base + n)
  }

  /** Parts per million. */
  function Rate(relation: Relation): real {
    match relation.driftPpm case Some(ppm) => ppm / 1000000.0 case None => 0.0
  }

  /**
   Forward, an instant moves by the offset and by the drift over its distance from the reference, rounded
   to the nearest nanosecond. A clock that stands still or runs backwards maps nothing.
   */
  lemma ForwardMaps(relation: Relation, w: int)
    requires Rate(relation) != 0.0 ==> relation.reference.Some?
    ensures var mapped := MapWall(relation, w, true);
      if Rate(relation) == 0.0 then Answers(mapped, w + relation.offset)
      else if 1.0 + Rate(relation) <= 0.0 then mapped == Degenerate
      else Rounded(mapped, w + relation.offset, Rate(relation) * (w - relation.reference.value) as real)
  {
    if Rate(relation) != 0.0 && 1.0 + Rate(relation) > 0.0 {
      var n := Round(Correction(Drift(relation), w - relation.reference.value));
      RoundsTo(n, Correction(Drift(relation), w - relation.reference.value));
      assert Nearest(n, Rate(relation) * (w - relation.reference.value) as real);
    }
  }

  /** Backward, the distance from the reference is what is left of it without the offset, over the slope. */
  lemma BackwardMaps(relation: Relation, u: int)
    requires Rate(relation) != 0.0 ==> relation.reference.Some?
    ensures var mapped := MapWall(relation, u, false);
      if Rate(relation) == 0.0 then Answers(mapped, u - relation.offset)
      else if 1.0 + Rate(relation) <= 0.0 then mapped == Degenerate
      else
        Rounded(mapped, relation.reference.value,
                (u - relation.offset - relation.reference.value) as real / (1.0 + Rate(relation)))
  {
    if Rate(relation) != 0.0 && 1.0 + Rate(relation) > 0.0 {
      var x := Elapsed(u - relation.offset - relation.reference.value, Slope(relation));
      RoundsTo(Round(x), x);
      assert Nearest(Round(x), (u - relation.offset - relation.reference.value) as real / (1.0 + Rate(relation)));
    }
  }

  /** The instant on the clock the relation is valid on, both ends of the window included. */
  predicate Valid(relation: Relation, w: int) {
    && (relation.validFrom.None? || relation.validFrom.value <= w)
    && (relation.validTo.None? || w <= relation.validTo.value)
  }

  /** Applying a relation gives its mapped instant and its own bound, while the instant on its first clock is valid. */
  lemma AppliesExactly(relation: Relation, w: int, forward: bool)
    ensures var mapped, applied := MapWall(relation, w, forward), Apply(relation, w, forward);
      if forward && !Valid(relation, w) then applied == Inapplicable
      else if !mapped.Coordinate? then applied == Refused(mapped)
      else if !forward && !Valid(relation, mapped.nanos) then applied == Inapplicable
      else applied == Aligned(mapped.nanos, relation.uncertainty)
  {
    hide MapWall;
  }

  // ---------------------------------------------------------------- order and round trip

  lemma RoundMonotone(x: real, y: real)
    requires x <= y
    ensures Round(x) <= Round(y)
  {
  }

  /** Exactly the numbers within half of `n`, and the ties of an even `n`, round to it. */
  lemma RoundsTo(n: int, x: real)
    ensures Round(x) == n <==>
      -0.5 < x - n as real < 0.5 || (n % 2 == 0 && (x - n as real == 0.5 || x - n as real == -0.5))
  {
  }

  /** Moving by `n` instants cannot overtake a correction that shrinks by less than `n`. */
  lemma RoundShift(x: real, y: real, n: int)
    requires x < y + n as real
    ensures Round(x) <= Round(y) + n
  {
    hide Round;
    assert (Round(x) - Round(y) - n) as real < 1.0;
  }

  lemma Product(a: real, b: real)
    requires a > 0.0 && b > 0.0
    ensures a * b > 0.0
  {
  }

  lemma Scaled(drift: real, x: real, y: real)
    requires x < y
    ensures drift > -1.0 ==> drift * x < drift * y + (y - x)
    ensures drift > 0.0 ==> drift * x <= drift * y
  {
    assert (drift + 1.0) * (y - x) == drift * y - drift * x + (y - x);
    assert drift * (y - x) == drift * y - drift * x;
    if drift > -1.0 { Product(drift + 1.0, y - x); }
    if drift > 0.0 { Product(drift, y - x); }
  }

  lemma CorrectionShift(drift: real, a: int, b: int)
    requires -1.0 < drift && a < b
    ensures Correction(drift, a) < Correction(drift, b) + (b - a) as real
    ensures drift > 0.0 ==> Correction(drift, a) <= Correction(drift, b)
  {
    Scaled(drift, a as real, b as real);
    assert (b - a) as real == b as real - a as real;
  }

  /** The forward map never reverses two instants. */
  lemma ForwardKeepsOrder(relation: Relation, w: int, z: int)
    requires w <= z
    requires MapWall(relation, w, true).Coordinate? && MapWall(relation, z, true).Coordinate?
    ensures MapWall(relation, w, true).nanos <= MapWall(relation, z, true).nanos
  {
    hide Round, Drift, Correction;
    if w < z && Drift(relation) != 0.0 && relation.reference.Some? {
      var a, b := w - relation.reference.value, z - relation.reference.value;
      CorrectionShift(Drift(relation), a, b);
      RoundShift(Correction(Drift(relation), a), Correction(Drift(relation), b), z - w);
    } else if w < z && Drift(relation) != 0.0 {
      assert w - Anchor(relation, w) == 0 == z - Anchor(relation, z);
    }
  }

  /** With a slope of at least one it keeps them apart as well. */
  lemma ForwardSeparates(relation: Relation, w: int, z: int)
    requires w < z && Slope(relation) >= 1.0
    requires MapWall(relation, w, true).Coordinate? && MapWall(relation, z, true).Coordinate?
    ensures MapWall(relation, z, true).nanos - MapWall(relation, w, true).nanos >= z - w
  {
    hide Round, Drift, Correction;
    if Drift(relation) != 0.0 && relation.reference.Some? {
      var a, b := w - relation.reference.value, z - relation.reference.value;
      CorrectionShift(Drift(relation), a, b);
      RoundMonotone(Correction(Drift(relation), a), Correction(Drift(relation), b));
    } else if Drift(relation) != 0.0 {
      assert w - Anchor(relation, w) == 0 == z - Anchor(relation, z);
    }
  }

  lemma Quotient(n: real, s: real, e: real)
    requires s > 0.0
    ensures (s * n + e) / s == n + e / s
  {
    assert (n + e / s) * s == s * n + e;
  }

  lemma QuotientBound(e: real, s: real)
    requires s > 0.0 && -0.5 <= e <= 0.5
    ensures -1.0 / (2.0 * s) <= e / s <= 1.0 / (2.0 * s)
  {
    assert 1.0 / (2.0 * s) == 0.5 / s;
    assert -1.0 / (2.0 * s) == -0.5 / s;
    QuotientGrows(e, 0.5, s);
    QuotientGrows(-0.5, e, s);
  }

  lemma QuotientGrows(a: real, b: real, s: real)
    requires s > 0.0 && a <= b
    ensures a / s <= b / s
  {
    var x, y := a / s, b / s;
    assert x * s == a && y * s == b;
    assert (x - y) * s == x * s - y * s;
    if x > y { Product(x - y, s); }
  }

  lemma QuotientHalf(e: real, s: real)
    requires s > 0.0
    ensures e / s < 0.5 <==> e < 0.5 * s
    ensures e / s == 0.5 <==> e == 0.5 * s
    ensures -0.5 < e / s <==> -0.5 * s < e
    ensures e / s == -0.5 <==> e == -0.5 * s
  {
    var x := e / s;
    assert x * s == e;
    if x < 0.5 { Product(0.5 - x, s); }
    if x > 0.5 { Product(x - 0.5, s); }
    if x < -0.5 { Product(-0.5 - x, s); }
    if x > -0.5 { Product(x + 0.5, s); }
  }

  /** The rounding error of the forward map at an instant. */
  function Slip(relation: Relation, w: int): real {
    var c := Correction(Drift(relation), w - Anchor(relation, w));
    Round(c) as real - c
  }

  /** The forward map's rounding error is small against the slope; a tie needs an even distance from the reference. */
  predicate Recovers(relation: Relation, w: int) {
    var e, half := Slip(relation, w), 0.5 * Slope(relation);
    || Drift(relation) == 0.0
    || -half < e < half
    || ((e == half || e == -half) && (w - Anchor(relation, w)) % 2 == 0)
  }

  /** The inverse divides the slope times the true distance, plus the rounding error of the forward map. */
  lemma InverseInput(drift: real, n: int)
    requires 1.0 + drift > 0.0
    ensures var s, c := 1.0 + drift, Correction(drift, n);
      Elapsed(n + Round(c), s) - n as real == (Round(c) as real - c) / s
  {
    hide Round;
    var s, c := 1.0 + drift, Correction(drift, n);
    var e := Round(c) as real - c;
    assert (n + Round(c)) as real == s * n as real + e by {
      assert s * n as real == n as real + c;
    }
    Quotient(n as real, s, e);
  }

  /** What the inverse rounds, and exactly when it lands on the instant. */
  lemma RoundTripInput(relation: Relation, w: int)
    requires Slope(relation) > 0.0 && (Drift(relation) != 0.0 ==> relation.reference.Some?)
    requires MapWall(relation, w, true).Coordinate?
    ensures var u := MapWall(relation, w, true).nanos;
      if Drift(relation) == 0.0 then u - relation.offset == w
      else
        var r := relation.reference.value;
        var x := Elapsed(u - relation.offset - r, Slope(relation));
        && -1.0 / (2.0 * Slope(relation)) <= x - (w - r) as real <= 1.0 / (2.0 * Slope(relation))
        && (Round(x) == w - r <==> Recovers(relation, w))
  {
    hide Round, Drift, Correction, Elapsed;
    if Drift(relation) != 0.0 {
      var n, s := w - relation.reference.value, Slope(relation);
      var c := Correction(Drift(relation), n);
      InverseInput(Drift(relation), n);
      assert MapWall(relation, w, true).nanos - relation.offset - relation.reference.value == n + Round(c);
      QuotientBound(Slip(relation, w), s);
      QuotientHalf(Slip(relation, w), s);
      RoundsTo(n, Elapsed(n + Round(c), s));
    }
  }

  /**
   The round trip returns the instant if and only if the rounding error of the forward map is small against
   the slope.
   */
  lemma RoundTripExactly(relation: Relation, w: int)
    requires Slope(relation) > 0.0 && (Drift(relation) != 0.0 ==> relation.reference.Some?)
    requires MapWall(relation, w, true).Coordinate?
    requires MapWall(relation, MapWall(relation, w, true).nanos, false).Coordinate?
    ensures MapWall(relation, MapWall(relation, w, true).nanos, false).nanos == w <==> Recovers(relation, w)
  {
    hide Round, Drift, Correction, Elapsed, Slip;
    RoundTripInput(relation, w);
  }

  /** A map that does not contract recovers every instant. */
  lemma ExpandingRecovers(relation: Relation, w: int)
    requires Slope(relation) >= 1.0
    ensures Recovers(relation, w)
  {
    hide Round, Correction;
  }

  /** A round trip errs by at most half an instant of each clock, and not at all when the map does not contract. */
  lemma RoundTripBound(relation: Relation, w: int)
    requires Slope(relation) > 0.0 && (Drift(relation) != 0.0 ==> relation.reference.Some?)
    requires MapWall(relation, w, true).Coordinate?
    requires MapWall(relation, MapWall(relation, w, true).nanos, false).Coordinate?
    ensures var t := MapWall(relation, MapWall(relation, w, true).nanos, false).nanos;
      && -1.0 / (2.0 * Slope(relation)) - 0.5 <= (t - w) as real <= 1.0 / (2.0 * Slope(relation)) + 0.5
      && (Slope(relation) >= 1.0 ==> t == w)
  {
    hide Round, Drift, Correction, Elapsed, Recovers;
    RoundTripInput(relation, w);
    RoundTripExactly(relation, w);
    if Slope(relation) >= 1.0 { ExpandingRecovers(relation, w); }
    if Drift(relation) == 0.0 { QuotientBound(0.0, Slope(relation)); }
  }

  /**
   The inverse undoes an alignment, validity window and uncertainty included, if and only if the
   round trip recovers the instant and the instant can be represented. One that is recovered but
   cannot be represented is refused for that.
   */
  lemma AlignmentRoundTrip(relation: Relation, w: int)
    requires Drift(relation) != 0.0 ==> relation.reference.Some?
    requires Apply(relation, w, true).Aligned?
    ensures var back := Apply(relation, Apply(relation, w, true).nanos, false);
      && (back == Aligned(w, relation.uncertainty) <==> Recovers(relation, w) && 0 <= w <= UINT64_MAX)
      && (Recovers(relation, w) && !(0 <= w <= UINT64_MAX) ==> back == Refused(Unrepresentable))
  {
    assert Drift(relation) == 0.0 ==> Recovers(relation, w);
    hide Round, Drift, Correction, Elapsed, Slip, Recovers;
    RoundTripInput(relation, w);
  }

  /** A contracting map can lose an instant: at half speed, one past the reference comes back as two past it. */
  lemma ContractionLoses()
    ensures var relation := Relation(0, 0, Some(-500000.0), Some(1), None, None, None);
      && MapWall(relation, 2, true) == Coordinate(2)
      && MapWall(relation, 2, false) == Coordinate(3)
  {
    var relation := Relation(0, 0, Some(-500000.0), Some(1), None, None, None);
    assert Drift(relation) == -0.5;
    assert Round(-0.5) == 0;
    assert Round(2.0) == 2;
    assert 1.0 / Slope(relation) == 2.0;
  }

  // ---------------------------------------------------------------- reconciliation

  datatype Candidate = Candidate(value: int, uncertainty: Option<nat>, relation: int)

  datatype Answer = NoCandidate | Ambiguous | Chosen(value: int, uncertainty: Option<nat>)

  predicate Agree(a: Candidate, b: Candidate) {
    || a.value == b.value
    || (a.uncertainty.Some? && b.uncertainty.Some?
        && (if a.value >= b.value then a.value - b.value else b.value - a.value)
             <= a.uncertainty.value + b.uncertainty.value)
  }

  /** The values are the same, or as far apart as their known bounds allow at most. */
  predicate Overlap(a: Candidate, b: Candidate) {
    || a.value == b.value
    || (a.uncertainty.Some? && b.uncertainty.Some?
        && a.value - a.uncertainty.value <= b.value + b.uncertainty.value
        && b.value - b.uncertainty.value <= a.value + a.uncertainty.value)
  }

  lemma AgreeIs(a: Candidate, b: Candidate)
    ensures Agree(a, b) == Overlap(a, b)
  {
  }

  /** Known bounds first, then the smaller bound, the smaller value and the smaller relation identifier. */
  predicate NotAfter(a: Candidate, b: Candidate) {
    var ua, ub := Bound(a), Bound(b);
    if a.uncertainty.Some? != b.uncertainty.Some? then a.uncertainty.Some?
    else if ua != ub then ua < ub
    else if a.value != b.value then a.value < b.value
    else a.relation <= b.relation
  }

  function Bound(c: Candidate): nat {
    if c.uncertainty.Some? then c.uncertainty.value else 0
  }

  function Ordered(candidates: seq<Candidate>): seq<Candidate> {
    Sorting.Sort(candidates, NotAfter)
  }

  lemma OrderedSorts(candidates: seq<Candidate>)
    ensures Sorting.InOrder(Ordered(candidates), NotAfter)
    ensures forall x :: x in Ordered(candidates) <==> x in candidates
  {
    Sorting.SortOrders(candidates, NotAfter);
    Sorting.SortMembers(candidates, NotAfter);
  }

  function Members(candidates: seq<Candidate>): set<Candidate> {
    set c | c in candidates
  }

  ghost predicate First(c: Candidate, candidates: set<Candidate>) {
    forall d <- candidates :: NotAfter(c, d)
  }

  /** What the answer must be, from the candidates as a set. */
  ghost predicate Reconciles(candidates: set<Candidate>, answer: Answer) {
    if candidates == {} then answer == NoCandidate
    else if exists a, b :: a in candidates && b in candidates && !Agree(a, b) then answer == Ambiguous
    else exists c :: c in candidates && answer == Chosen(c.value, c.uncertainty) && First(c, candidates)
  }

  /**
   An answer is chosen exactly when there is a candidate and every pair overlaps. It is then a
   candidate's, carries the smallest known bound and the smallest value with that bound, and without a
   known bound every value is the same.
   */
  method Reconcile(candidates: seq<Candidate>) returns (answer: Answer)
    ensures Reconciles(Members(candidates), answer)
    ensures answer.NoCandidate? <==> candidates == []
    ensures answer.Chosen? <==> candidates != [] && forall a <- candidates, b <- candidates :: Overlap(a, b)
    ensures answer.Chosen? ==>
      && (exists c <- candidates :: answer == Chosen(c.value, c.uncertainty))
      && (forall c <- candidates :: c.uncertainty.Some? ==>
            answer.uncertainty.Some? && answer.uncertainty.value <= c.uncertainty.value)
      && (forall c <- candidates :: c.uncertainty == answer.uncertainty ==> answer.value <= c.value)
      && (answer.uncertainty.None? ==> forall c <- candidates :: c.value == answer.value)
  {
    hide NotAfter, Ordered;
    forall a, b { AgreeIs(a, b); }
    ghost var all := Members(candidates);
    if candidates == [] {
      return NoCandidate;
    }
    assert candidates[0] in all;
    var ordered := Ordered(candidates);
    OrderedSorts(candidates);
    for a := 0 to |ordered|
      invariant forall i, j :: 0 <= i < a && i < j < |ordered| ==> Agree(ordered[i], ordered[j])
    {
      for b := a + 1 to |ordered|
        invariant forall j :: a < j < b ==> Agree(ordered[a], ordered[j])
      {
        var separation := if ordered[a].value >= ordered[b].value
          then ordered[a].value - ordered[b].value else ordered[b].value - ordered[a].value;
        if separation == 0 {
          continue;
        }
        if ordered[a].uncertainty.None? || ordered[b].uncertainty.None? {
          assert ordered[a] in all && ordered[b] in all;
          return Ambiguous;
        }
        if separation > ordered[a].uncertainty.value + ordered[b].uncertainty.value {
          assert ordered[a] in all && ordered[b] in all;
          return Ambiguous;
        }
      }
    }
    AllAgree(candidates, ordered);
    answer := Chosen(ordered[0].value, ordered[0].uncertainty);
    ChosenBound(candidates, ordered[0], answer);
  }

  /** When every pair in order agrees, the first candidate is the answer. */
  lemma AllAgree(candidates: seq<Candidate>, ordered: seq<Candidate>)
    requires candidates != [] && Sorting.InOrder(ordered, NotAfter) && (forall x :: x in ordered <==> x in candidates)
    requires forall i, j :: 0 <= i < j < |ordered| ==> Agree(ordered[i], ordered[j])
    ensures ordered != [] && First(ordered[0], Members(candidates))
    ensures forall a <- candidates, b <- candidates :: Agree(a, b)
    ensures Reconciles(Members(candidates), Chosen(ordered[0].value, ordered[0].uncertainty))
  {
    hide Agree, NotAfter;
    var all := Members(candidates);
    assert candidates[0] in all && candidates[0] in ordered;
    forall c, d | c in all && d in all ensures Agree(c, d) {
      var i :| 0 <= i < |ordered| && ordered[i] == c;
      var j :| 0 <= j < |ordered| && ordered[j] == d;
      if i < j { assert Agree(ordered[i], ordered[j]); }
      else if j < i { assert Agree(ordered[j], ordered[i]); AgreeBack(d, c); }
      else { AgreeBack(c, c); }
    }
    forall d <- all ensures NotAfter(ordered[0], d) {
      var j :| 0 <= j < |ordered| && ordered[j] == d;
      NotAfterItself(d);
    }
    assert First(ordered[0], all);
  }

  lemma ChosenBound(candidates: seq<Candidate>, first: Candidate, answer: Answer)
    requires First(first, Members(candidates)) && answer == Chosen(first.value, first.uncertainty)
    requires forall a <- candidates, b <- candidates :: Agree(a, b)
    requires first in candidates
    ensures forall c <- candidates :: c.uncertainty.Some? ==>
      answer.uncertainty.Some? && answer.uncertainty.value <= c.uncertainty.value
    ensures forall c <- candidates :: c.uncertainty == answer.uncertainty ==> answer.value <= c.value
    ensures answer.uncertainty.None? ==> forall c <- candidates :: c.value == answer.value
  {
    forall c <- candidates ensures NotAfter(first, c) && Agree(first, c) {
      assert c in Members(candidates);
    }
  }

  lemma NotAfterItself(c: Candidate)
    ensures NotAfter(c, c)
  {
  }

  lemma AgreeBack(a: Candidate, b: Candidate)
    ensures Agree(a, a) && (Agree(a, b) ==> Agree(b, a))
  {
  }

  /** The answer depends on the candidates alone: neither their order nor repetition matters. */
  lemma ReconcileDetermined(candidates: seq<Candidate>, reordered: seq<Candidate>, answer: Answer, other: Answer)
    requires forall c :: c in candidates <==> c in reordered
    requires Reconciles(Members(candidates), answer) && Reconciles(Members(reordered), other)
    ensures answer == other
  {
    assert Members(candidates) == Members(reordered);
  }

  ghost predicate Claims(c: Candidate, instant: int) {
    c.uncertainty.Some? ==> c.value - c.uncertainty.value <= instant <= c.value + c.uncertainty.value
  }

  /** Helly on the line: when every pair agrees, one instant lies in every interval that is claimed. */
  lemma {:induction false} CommonInstant(candidates: seq<Candidate>) returns (instant: int, latest: Option<Candidate>)
    requires forall a <- candidates, b <- candidates :: Agree(a, b)
    ensures forall c <- candidates :: Claims(c, instant)
    ensures match latest
      case Some(l) => l in candidates && l.uncertainty.Some? && instant == l.value - l.uncertainty.value
      case None => forall c <- candidates :: c.uncertainty.None?
  {
    if candidates == [] {
      instant, latest := 0, None;
    } else {
      var front, last := candidates[..|candidates| - 1], candidates[|candidates| - 1];
      instant, latest := CommonInstant(front);
      if last.uncertainty.Some? && (latest.None? || instant < last.value - last.uncertainty.value) {
        forall c <- front ensures Claims(c, last.value - last.uncertainty.value) {
          assert Agree(c, last);
        }
        instant, latest := last.value - last.uncertainty.value, Some(last);
      } else if latest.Some? {
        assert Agree(latest.value, last);
        assert Claims(last, instant);
      }
      assert forall c <- candidates :: c in front || c == last;
    }
  }
}
