/**
 Segmentation of a turn's evidence into interruption episodes. Domain and event identifiers are
 represented by their rank in code-point order: only their equality and order are ever used.
 */
module Episodes {
  import opened Wrappers
  import Sorting

  datatype TimePoint = TimePoint(
    domain: Option<int>,
    monotonic: Option<int>,
    source: Option<int>,
    observed: Option<int>)

  /** An event opens an overlap, classifies one, or does neither. */
  datatype Kind = Overlap | Classification | Other

  datatype Event = Event(id: int, kind: Kind, time: TimePoint)

  /** An operation or a sampling window; an operation that has not ended ends where it starts. */
  datatype Span = Span(id: int, start: TimePoint, end: TimePoint)

  datatype Episode = Episode(
    events: seq<Event>,
    operations: seq<Span>,
    samples: seq<Span>,
    looseOperations: seq<Span>,
    looseSamples: seq<Span>,
    turnOperations: seq<Span>)

  // ---------------------------------------------------------------- comparing coordinates

  datatype Answer = Yes | No | Undecidable

  /** Whether `candidate` is at or after `reference`, where their clocks can tell. */
  function AtOrAfter(candidate: TimePoint, reference: TimePoint): Answer {
    if candidate.domain.None? || candidate.domain != reference.domain then Undecidable
    else if candidate.monotonic.Some? && reference.monotonic.Some? then
      if candidate.monotonic.value >= reference.monotonic.value then Yes else No
    else if candidate.source.Some? && reference.source.Some? then
      if candidate.source.value >= reference.source.value then Yes else No
    else Undecidable
  }

  /** The presentation order: points without a coordinate last, then domain, basis, value and identity. */
  function Key(e: Event): (int, int, int, int, int) {
    var t := e.time;
    if t.domain.None? then (1, 0, 0, 0, e.id)
    else if t.monotonic.Some? then (0, t.domain.value, 0, t.monotonic.value, e.id)
    else if t.source.Some? then (0, t.domain.value, 2, t.source.value, e.id)
    else if t.observed.Some? then (0, t.domain.value, 1, t.observed.value, e.id)
    else (1, 0, 0, 0, e.id)
  }

  predicate NotAfter(a: Event, b: Event) {
    var (a0, a1, a2, a3, a4), (b0, b1, b2, b3, b4) := Key(a), Key(b);
    a0 < b0 || (a0 == b0 && (a1 < b1 || (a1 == b1 && (a2 < b2 || (a2 == b2 && (a3 < b3 || (a3 == b3 && a4 <= b4)))))))
  }

  /** The triggers of a turn, in presentation order. */
  function Triggers(events: seq<Event>): (r: seq<Event>)
    ensures forall e :: e in r <==> e in events && e.kind != Other
  {
    if events == [] then []
    else
      var front, last := events[..|events| - 1], events[|events| - 1];
      assert events == front + [last];
      if last.kind == Other then Triggers(front)
      else
        var r := Sorting.Insert(last, Triggers(front), NotAfter);
        assert forall e :: e in r <==> e in multiset(r);
        assert forall e :: e in Triggers(front) <==> e in multiset(Triggers(front));
        r
  }

  lemma NotAfterOrders()
    ensures Sorting.Orders(NotAfter)
  {
    hide Key;
  }

  /** Sorting puts the triggers in presentation order. */
  lemma {:induction false} TriggersInOrder(events: seq<Event>)
    ensures Sorting.InOrder(Triggers(events), NotAfter)
  {
    NotAfterOrders();
    hide NotAfter, Sorting.Insert, Sorting.InOrder, Sorting.Orders;
    if events == [] {
      Sorting.NothingInOrder(NotAfter);
    } else {
      TriggersInOrder(events[..|events| - 1]);
      if events[|events| - 1].kind != Other {
        Sorting.InsertKeepsOrder(events[|events| - 1], Triggers(events[..|events| - 1]), NotAfter);
      }
    }
  }

  /** The clocks decide only within one domain: by both monotonic readings, or else by both of the source's. */
  lemma Decided(candidate: TimePoint, reference: TimePoint)
    ensures AtOrAfter(candidate, reference) != Undecidable <==>
      && candidate.domain.Some? && candidate.domain == reference.domain
      && ((candidate.monotonic.Some? && reference.monotonic.Some?)
          || (candidate.source.Some? && reference.source.Some?))
    ensures AtOrAfter(candidate, reference) == Yes && candidate.monotonic.Some? && reference.monotonic.Some? ==>
      candidate.monotonic.value >= reference.monotonic.value
    ensures AtOrAfter(candidate, reference) == Yes && !(candidate.monotonic.Some? && reference.monotonic.Some?) ==>
      candidate.source.value >= reference.source.value
    ensures AtOrAfter(candidate, reference) == No ==> AtOrAfter(reference, candidate) == Yes
  {
  }

  predicate Placed(t: TimePoint) {
    t.domain.Some? && (t.monotonic.Some? || t.observed.Some? || t.source.Some?)
  }

  predicate Sooner(at: int, id: int, otherAt: int, otherId: int) {
    at < otherAt || (at == otherAt && id <= otherId)
  }

  /**
   The presentation order: placed points before others, one domain after another, and in a domain first
   those with a monotonic reading, then those with an observed time only, then those with a source's time.
   Inside such a group the readings decide, and identities between equal ones.
   */
  lemma PresentationOrder(a: Event, b: Event)
    ensures Placed(a.time) && !Placed(b.time) ==> NotAfter(a, b) && !NotAfter(b, a)
    ensures !Placed(a.time) && !Placed(b.time) ==> (NotAfter(a, b) <==> a.id <= b.id)
    ensures Placed(a.time) && Placed(b.time) && a.time.domain != b.time.domain ==>
      (NotAfter(a, b) <==> a.time.domain.value < b.time.domain.value)
    ensures Placed(a.time) && Placed(b.time) && a.time.domain == b.time.domain ==>
      && (a.time.monotonic.Some? && b.time.monotonic.None? ==> NotAfter(a, b) && !NotAfter(b, a))
      && (a.time.monotonic.Some? && b.time.monotonic.Some? ==>
            (NotAfter(a, b) <==> Sooner(a.time.monotonic.value, a.id, b.time.monotonic.value, b.id)))
      && (a.time.monotonic.None? && b.time.monotonic.None? && a.time.source.Some? && b.time.source.Some? ==>
            (NotAfter(a, b) <==> Sooner(a.time.source.value, a.id, b.time.source.value, b.id)))
      && (a.time.monotonic.None? && b.time.monotonic.None? && a.time.source.None? && b.time.source.Some? ==>
            NotAfter(a, b) && !NotAfter(b, a))
      && (a.time.monotonic.None? && b.time.monotonic.None? && a.time.source.None? && b.time.source.None? ==>
            (NotAfter(a, b) <==> Sooner(a.time.observed.value, a.id, b.time.observed.value, b.id)))
  {
  }

  // ---------------------------------------------------------------- the specification

  /** Trigger `k` opens an episode unless it classifies the overlap just before it. */
  predicate Opens(triggers: seq<Event>, k: nat)
    requires k < |triggers|
  {
    triggers[k].kind == Overlap || k == 0 || triggers[k - 1].kind != Overlap
  }

  function Anchors(triggers: seq<Event>): seq<Event> {
    if triggers == [] then []
    else
      Anchors(triggers[..|triggers| - 1])
      + if Opens(triggers, |triggers| - 1) then [triggers[|triggers| - 1]] else []
  }

  /** Anchor `i` is the last one at or before the point, among those before the first later anchor. */
  predicate LatestIs(anchors: seq<Event>, point: TimePoint, i: nat) {
    && i < |anchors|
    && AtOrAfter(point, anchors[i].time) == Yes
    && (forall j :: 0 <= j <= i ==> AtOrAfter(point, anchors[j].time) != No)
    && (forall j :: i < j < |anchors| && AtOrAfter(point, anchors[j].time) == Yes ==>
          exists k :: i < k < j && AtOrAfter(point, anchors[k].time) == No)
  }

  /** Whether the span overlaps episode `i`, where its coordinates can tell. */
  function Within(anchors: seq<Event>, s: Span, i: nat): Answer
    requires i < |anchors|
  {
    var ends := AtOrAfter(s.end, anchors[i].time);
    var last := i + 1 == |anchors|;
    var later := if last then Undecidable else AtOrAfter(s.start, anchors[i + 1].time);
    if ends == No || later == Yes then No
    else if ends == Undecidable || (!last && later == Undecidable) then Undecidable
    else Yes
  }

  /** The span overlaps episode `i` and, beyond doubt, no other. */
  predicate LandsIn(anchors: seq<Event>, s: Span, i: nat) {
    && i < |anchors|
    && Within(anchors, s, i) == Yes
    && forall j :: 0 <= j < |anchors| && j != i ==> Within(anchors, s, j) == No
  }

  /** No single episode can be named: some membership is open, or there are two of them. */
  predicate Loose(anchors: seq<Event>, s: Span) {
    || (exists j :: 0 <= j < |anchors| && Within(anchors, s, j) == Undecidable)
    || (exists j, k :: 0 <= j < k < |anchors| && Within(anchors, s, j) == Yes && Within(anchors, s, k) == Yes)
  }

  function EventsOf(anchors: seq<Event>, events: seq<Event>, i: nat): seq<Event> {
    if events == [] then []
    else
      EventsOf(anchors, events[..|events| - 1], i)
      + if LatestIs(anchors, events[|events| - 1].time, i) then [events[|events| - 1]] else []
  }

  function SpansOf(anchors: seq<Event>, items: seq<Span>, i: nat): seq<Span> {
    if items == [] then []
    else
      SpansOf(anchors, items[..|items| - 1], i)
      + if LandsIn(anchors, items[|items| - 1], i) then [items[|items| - 1]] else []
  }

  function LooseOf(anchors: seq<Event>, items: seq<Span>): seq<Span> {
    if items == [] then []
    else
      LooseOf(anchors, items[..|items| - 1])
      + if Loose(anchors, items[|items| - 1]) then [items[|items| - 1]] else []
  }

  function Segmented(events: seq<Event>, operations: seq<Span>, samples: seq<Span>): seq<Episode> {
    var anchors := Anchors(Triggers(events));
    if anchors == [] then []
    else if |anchors| == 1 then [Episode(events, operations, samples, [], [], operations)]
    else
      seq(|anchors|, i requires 0 <= i < |anchors| => Episode(
        EventsOf(anchors, events, i), SpansOf(anchors, operations, i), SpansOf(anchors, samples, i),
        LooseOf(anchors, operations), LooseOf(anchors, samples), operations))
  }

  // ---------------------------------------------------------------- the loops

  method LatestAnchorAtOrBefore(anchors: seq<Event>, point: TimePoint) returns (latest: Option<nat>)
    ensures latest.Some? ==> LatestIs(anchors, point, latest.value)
    ensures forall i: nat :: LatestIs(anchors, point, i) ==> latest == Some(i)
  {
    latest := None;
    for index := 0 to |anchors|
      invariant forall j :: 0 <= j < index ==> AtOrAfter(point, anchors[j].time) != No
      invariant latest.Some? ==>
        latest.value < index && AtOrAfter(point, anchors[latest.value].time) == Yes
      invariant forall j :: 0 <= j < index && AtOrAfter(point, anchors[j].time) == Yes ==>
        latest.Some? && j <= latest.value
    {
      var atOrAfter := AtOrAfter(point, anchors[index].time);
      if atOrAfter == Yes {
        latest := Some(index);
      } else if atOrAfter == No {
        return;
      }
    }
  }

  method BucketIntervals(anchors: seq<Event>, items: seq<Span>) returns (buckets: seq<seq<Span>>, loose: seq<Span>)
    ensures |buckets| == |anchors|
    ensures forall i :: 0 <= i < |anchors| ==> buckets[i] == SpansOf(anchors, items, i)
    ensures loose == LooseOf(anchors, items)
  {
    buckets, loose := seq(|anchors|, _ => []), [];
    for n := 0 to |items|
      invariant |buckets| == |anchors|
      invariant forall i :: 0 <= i < |anchors| ==> buckets[i] == SpansOf(anchors, items[..n], i)
      invariant loose == LooseOf(anchors, items[..n])
    {
      assert items[..n + 1][..n] == items[..n];
      var open, count, first := Memberships(anchors, items[n]);
      if open || count > 1 {
        loose := loose + [items[n]];
      } else if count == 1 {
        buckets := buckets[first := buckets[first] + [items[n]]];
      }
    }
    assert items[..|items|] == items;
  }

  /** The membership list of one item: is any answer open, how many are `Yes`, and where is the first. */
  method Memberships(anchors: seq<Event>, item: Span) returns (open: bool, count: nat, first: nat)
    ensures open || count > 1 <==> Loose(anchors, item)
    ensures !open && count == 1 ==> LandsIn(anchors, item, first)
    ensures open || count != 1 ==> forall i: nat :: !LandsIn(anchors, item, i)
    ensures forall i: nat :: LandsIn(anchors, item, i) ==> i == first
  {
    open, count, first := false, 0, 0;
    for index := 0 to |anchors|
      invariant open <==> exists j :: 0 <= j < index && Within(anchors, item, j) == Undecidable
      invariant count == 0 <==> forall j :: 0 <= j < index ==> Within(anchors, item, j) != Yes
      invariant count > 0 ==> first < index && Within(anchors, item, first) == Yes
      invariant forall j :: 0 <= j < index && Within(anchors, item, j) == Yes ==> first <= j
      invariant count > 1 <==> exists j :: first < j < index && Within(anchors, item, j) == Yes
    {
      var within := Within(anchors, item, index);
      if within == Undecidable {
        open := true;
      } else if within == Yes {
        if count == 0 { first := index; }
        count := count + 1;
      }
    }
  }

  method OpenEpisodes(triggers: seq<Event>) returns (anchors: seq<Event>)
    requires forall t <- triggers :: t.kind != Other
    ensures anchors == Anchors(triggers)
  {
    anchors := [];
    var openIsOverlap, openHasClassification := false, false;
    for k := 0 to |triggers|
      invariant anchors == Anchors(triggers[..k])
      invariant anchors == [] <==> k == 0
      invariant k > 0 ==> (openIsOverlap && !openHasClassification <==> triggers[k - 1].kind == Overlap)
    {
      assert triggers[..k + 1][..k] == triggers[..k];
      var trigger := triggers[k];
      if trigger.kind == Overlap {
        anchors := anchors + [trigger];
        openIsOverlap, openHasClassification := true, false;
      } else if anchors != [] && openIsOverlap && !openHasClassification {
        openHasClassification := true;
      } else {
        anchors := anchors + [trigger];
        openIsOverlap, openHasClassification := false, true;
      }
    }
    assert triggers[..|triggers|] == triggers;
  }

  method SegmentInterruptionEpisodes(events: seq<Event>, operations: seq<Span>, samples: seq<Span>)
    returns (episodes: seq<Episode>)
    ensures episodes == Segmented(events, operations, samples)
  {
    var triggers := Triggers(events);
    var anchors := OpenEpisodes(triggers);
    if triggers == [] {
      return [];
    }
    AnchorsFound(triggers);
    if |anchors| == 1 {
      return [Episode(events, operations, samples, [], [], operations)];
    }
    var buckets: seq<seq<Event>> := seq(|anchors|, _ => []);
    for n := 0 to |events|
      invariant |buckets| == |anchors|
      invariant forall i :: 0 <= i < |anchors| ==> buckets[i] == EventsOf(anchors, events[..n], i)
    {
      assert events[..n + 1][..n] == events[..n];
      var latest := LatestAnchorAtOrBefore(anchors, events[n].time);
      if latest.Some? {
        buckets := buckets[latest.value := buckets[latest.value] + [events[n]]];
      }
    }
    assert events[..|events|] == events;
    var operationBuckets, looseOperations := BucketIntervals(anchors, operations);
    var sampleBuckets, looseSamples := BucketIntervals(anchors, samples);
    episodes := seq(|anchors|, i requires 0 <= i < |anchors| => Episode(
      buckets[i], operationBuckets[i], sampleBuckets[i], looseOperations, looseSamples, operations));
  }

  // ---------------------------------------------------------------- one timeline

  /** All points carry one clock's domain and the same basis: monotonic, or wall without monotonic. */
  predicate On(t: TimePoint, domain: int, monotonic: bool) {
    && t.domain == Some(domain)
    && (if monotonic then t.monotonic.Some? else t.monotonic.None? && t.source.Some?)
  }

  function At(t: TimePoint, monotonic: bool): int {
    if monotonic then (if t.monotonic.Some? then t.monotonic.value else 0)
    else if t.source.Some? then t.source.value else 0
  }

  /** Every event is on the timeline, and no two triggers share a time. */
  predicate OneTimeline(events: seq<Event>, domain: int, monotonic: bool) {
    && (forall e <- events :: On(e.time, domain, monotonic))
    && (forall i, j :: 0 <= i < j < |events| && events[i].kind != Other && events[j].kind != Other ==>
          At(events[i].time, monotonic) != At(events[j].time, monotonic))
  }

  lemma {:induction false} AnchorsFound(triggers: seq<Event>)
    ensures triggers != [] ==> Anchors(triggers) != []
    ensures forall a <- Anchors(triggers) :: exists k :: 0 <= k < |triggers| && triggers[k] == a && Opens(triggers, k)
    ensures forall k :: 0 <= k < |triggers| && Opens(triggers, k) ==> triggers[k] in Anchors(triggers)
  {
    if triggers != [] {
      var front := triggers[..|triggers| - 1];
      AnchorsFound(front);
      forall k | 0 <= k < |front| ensures Opens(front, k) == Opens(triggers, k) && front[k] == triggers[k] {}
    }
  }

  predicate Ascending(s: seq<Event>, monotonic: bool) {
    forall i, j :: 0 <= i < j < |s| ==> At(s[i].time, monotonic) < At(s[j].time, monotonic)
  }

  lemma {:induction false} AnchorsAscend(triggers: seq<Event>, monotonic: bool)
    requires Ascending(triggers, monotonic)
    ensures Ascending(Anchors(triggers), monotonic)
  {
    if triggers != [] {
      var front, last := triggers[..|triggers| - 1], triggers[|triggers| - 1];
      AnchorsAscend(front, monotonic);
      AnchorsFound(front);
      forall a <- Anchors(front) ensures At(a.time, monotonic) < At(last.time, monotonic) {
        var k :| 0 <= k < |front| && front[k] == a;
        assert triggers[k] == a;
      }
    }
  }

  lemma NotAfterIsTime(a: Event, b: Event, domain: int, monotonic: bool)
    requires On(a.time, domain, monotonic) && On(b.time, domain, monotonic)
    ensures NotAfter(a, b) ==> At(a.time, monotonic) <= At(b.time, monotonic)
    ensures !NotAfter(a, b) ==> At(b.time, monotonic) <= At(a.time, monotonic)
  {
  }

  lemma {:induction false} InsertAscends(e: Event, sorted: seq<Event>, domain: int, monotonic: bool)
    requires On(e.time, domain, monotonic) && Ascending(sorted, monotonic)
    requires forall x <- sorted :: On(x.time, domain, monotonic) && At(x.time, monotonic) != At(e.time, monotonic)
    ensures Ascending(Sorting.Insert(e, sorted, NotAfter), monotonic)
  {
    hide NotAfter, On, At;
    if sorted != [] {
      var last, front := sorted[|sorted| - 1], sorted[..|sorted| - 1];
      NotAfterIsTime(last, e, domain, monotonic);
      if NotAfter(last, e) {
        AppendAscends(sorted, e, monotonic);
      } else {
        InsertAscends(e, front, domain, monotonic);
        var r := Sorting.Insert(e, front, NotAfter);
        hide Ascending;
        forall x <- r ensures At(x.time, monotonic) < At(last.time, monotonic) {
          assert x in multiset(r);
          assert x in front || x == e;
        }
        AppendAscends(r, last, monotonic);
      }
    }
  }

  lemma AppendAscends(s: seq<Event>, last: Event, monotonic: bool)
    requires Ascending(s, monotonic) && forall x <- s :: At(x.time, monotonic) < At(last.time, monotonic)
    ensures Ascending(s + [last], monotonic)
  {
    hide At;
  }

  /** On one timeline the presentation order is the order of time. */
  lemma {:induction false} TriggersAscend(events: seq<Event>, domain: int, monotonic: bool)
    requires OneTimeline(events, domain, monotonic)
    ensures Ascending(Triggers(events), monotonic)
  {
    hide On, At, Sorting.Insert;
    if events != [] {
      var front, last := events[..|events| - 1], events[|events| - 1];
      TriggersAscend(front, domain, monotonic);
      if last.kind != Other {
        forall x <- Triggers(front)
          ensures On(x.time, domain, monotonic) && At(x.time, monotonic) != At(last.time, monotonic)
        {
          var i :| 0 <= i < |front| && front[i] == x;
          assert events[i] == x;
        }
        InsertAscends(last, Triggers(front), domain, monotonic);
      }
    }
  }

  // ---------------------------------------------------------------- the exact partition

  /** The instants of episode `i`: from its anchor up to the next one. */
  predicate Spans(anchors: seq<Event>, i: nat, instant: int, monotonic: bool) {
    && i < |anchors|
    && At(anchors[i].time, monotonic) <= instant
    && (i + 1 < |anchors| ==> instant < At(anchors[i + 1].time, monotonic))
  }

  /** Anchors of one timeline, in ascending order. */
  predicate Ruler(anchors: seq<Event>, domain: int, monotonic: bool) {
    Ascending(anchors, monotonic) && forall a <- anchors :: On(a.time, domain, monotonic)
  }

  lemma AnchorsRule(events: seq<Event>, domain: int, monotonic: bool)
    requires OneTimeline(events, domain, monotonic)
    ensures Ruler(Anchors(Triggers(events)), domain, monotonic)
    ensures forall a <- Anchors(Triggers(events)) :: a in events && a.kind != Other
  {
    hide On, At, Sorting.Insert;
    TriggersAscend(events, domain, monotonic);
    AnchorsAscend(Triggers(events), monotonic);
    AnchorsFound(Triggers(events));
  }

  lemma Comparable(t: TimePoint, u: TimePoint, domain: int, monotonic: bool)
    requires On(t, domain, monotonic) && On(u, domain, monotonic)
    ensures AtOrAfter(t, u) == if At(t, monotonic) >= At(u, monotonic) then Yes else No
  {
  }

  /** A point falls in the bucket of an episode exactly when its instant lies in the episode. */
  lemma LatestIsSpan(anchors: seq<Event>, point: TimePoint, i: nat, domain: int, monotonic: bool)
    requires Ruler(anchors, domain, monotonic) && On(point, domain, monotonic)
    ensures LatestIs(anchors, point, i) <==> Spans(anchors, i, At(point, monotonic), monotonic)
  {
    hide On, At, AtOrAfter;
    forall j | 0 <= j < |anchors|
      ensures AtOrAfter(point, anchors[j].time) ==
        if At(point, monotonic) >= At(anchors[j].time, monotonic) then Yes else No
    {
      Comparable(point, anchors[j].time, domain, monotonic);
    }
    if i < |anchors| && LatestIs(anchors, point, i) && i + 1 < |anchors| {
      assert AtOrAfter(point, anchors[i + 1].time) != Yes;
    }
  }

  /** Event bucket `i` holds exactly the events of `[anchor i, anchor i + 1)`. */
  lemma {:induction false} EventsOfEpisode(anchors: seq<Event>, events: seq<Event>, i: nat, domain: int,
          monotonic: bool)
    requires Ruler(anchors, domain, monotonic) && forall e <- events :: On(e.time, domain, monotonic)
    ensures forall e :: e in EventsOf(anchors, events, i) <==>
      e in events && Spans(anchors, i, At(e.time, monotonic), monotonic)
  {
    hide On, At, Ruler, LatestIs, Spans;
    if events != [] {
      EventsOfEpisode(anchors, events[..|events| - 1], i, domain, monotonic);
      LatestIsSpan(anchors, events[|events| - 1].time, i, domain, monotonic);
    }
  }

  /** The events from one instant up to another one, in the order they have. */
  function Between(events: seq<Event>, from: int, to: Option<int>, monotonic: bool): seq<Event> {
    if events == [] then []
    else
      var last := events[|events| - 1];
      var at := At(last.time, monotonic);
      Between(events[..|events| - 1], from, to, monotonic)
      + if from <= at && (to.Some? ==> at < to.value) then [last] else []
  }

  function NextAnchor(anchors: seq<Event>, i: nat, monotonic: bool): Option<int> {
    if i + 1 < |anchors| then Some(At(anchors[i + 1].time, monotonic)) else None
  }

  /** Event bucket `i` keeps the order of the events. */
  lemma {:induction false} EventsInOrder(anchors: seq<Event>, events: seq<Event>, i: nat, domain: int,
          monotonic: bool)
    requires Ruler(anchors, domain, monotonic) && forall e <- events :: On(e.time, domain, monotonic)
    requires i < |anchors|
    ensures EventsOf(anchors, events, i)
         == Between(events, At(anchors[i].time, monotonic), NextAnchor(anchors, i, monotonic), monotonic)
  {
    hide On, At, Ruler, LatestIs;
    if events != [] {
      EventsInOrder(anchors, events[..|events| - 1], i, domain, monotonic);
      LatestIsSpan(anchors, events[|events| - 1].time, i, domain, monotonic);
    }
  }

  /** How many events the first `n` buckets hold. */
  function Held(anchors: seq<Event>, events: seq<Event>, n: nat): nat {
    if n == 0 then 0 else Held(anchors, events, n - 1) + |EventsOf(anchors, events, n - 1)|
  }

  /** How many events come before every anchor. */
  function Early(anchors: seq<Event>, events: seq<Event>, monotonic: bool): nat {
    if events == [] then 0
    else
      Early(anchors, events[..|events| - 1], monotonic)
      + if anchors != [] && At(events[|events| - 1].time, monotonic) < At(anchors[0].time, monotonic) then 1 else 0
  }

  lemma {:induction false} HeldOneMore(anchors: seq<Event>, events: seq<Event>, n: nat, domain: int, monotonic: bool)
    requires Ruler(anchors, domain, monotonic) && events != [] && On(events[|events| - 1].time, domain, monotonic)
    requires n <= |anchors|
    ensures var x := At(events[|events| - 1].time, monotonic);
      Held(anchors, events, n) == Held(anchors, events[..|events| - 1], n)
        + if n > 0 && At(anchors[0].time, monotonic) <= x && (n < |anchors| ==> x < At(anchors[n].time, monotonic))
          then 1 else 0
  {
    hide On, At, LatestIs;
    if n > 0 {
      HeldOneMore(anchors, events, n - 1, domain, monotonic);
      LatestIsSpan(anchors, events[|events| - 1].time, n - 1, domain, monotonic);
    }
  }

  /** Every event is in exactly one bucket, or precedes the first anchor. */
  lemma {:induction false} EventsPartitioned(anchors: seq<Event>, events: seq<Event>, domain: int, monotonic: bool)
    requires Ruler(anchors, domain, monotonic) && anchors != [] && forall e <- events :: On(e.time, domain, monotonic)
    ensures Held(anchors, events, |anchors|) + Early(anchors, events, monotonic) == |events|
  {
    hide On, At, LatestIs;
    if events == [] {
      NothingHeld(anchors, |anchors|);
    } else {
      EventsPartitioned(anchors, events[..|events| - 1], domain, monotonic);
      HeldOneMore(anchors, events, |anchors|, domain, monotonic);
    }
  }

  lemma {:induction false} NothingHeld(anchors: seq<Event>, n: nat)
    ensures Held(anchors, [], n) == 0
  {
    if n > 0 { NothingHeld(anchors, n - 1); }
  }

  /** The span and episode `i` have an instant in common. */
  ghost predicate Meets(anchors: seq<Event>, i: nat, s: Span, monotonic: bool) {
    exists t :: At(s.start, monotonic) <= t <= At(s.end, monotonic) && Spans(anchors, i, t, monotonic)
  }

  lemma WithinMeets(anchors: seq<Event>, s: Span, i: nat, domain: int, monotonic: bool)
    requires Ruler(anchors, domain, monotonic) && i < |anchors|
    requires On(s.start, domain, monotonic) && On(s.end, domain, monotonic)
    requires At(s.start, monotonic) <= At(s.end, monotonic)
    ensures Within(anchors, s, i) == if Meets(anchors, i, s, monotonic) then Yes else No
  {
    hide On, At, AtOrAfter;
    Comparable(s.end, anchors[i].time, domain, monotonic);
    if i + 1 < |anchors| { Comparable(s.start, anchors[i + 1].time, domain, monotonic); }
    var t := if At(s.start, monotonic) >= At(anchors[i].time, monotonic)
      then At(s.start, monotonic) else At(anchors[i].time, monotonic);
    assert Within(anchors, s, i) == Yes ==> Spans(anchors, i, t, monotonic);
  }

  /** An interval lands in an episode iff it meets that one and no other; the straddlers are the loose ones. */
  lemma IntervalsPartitioned(anchors: seq<Event>, s: Span, domain: int, monotonic: bool)
    requires Ruler(anchors, domain, monotonic)
    requires On(s.start, domain, monotonic) && On(s.end, domain, monotonic)
    requires At(s.start, monotonic) <= At(s.end, monotonic)
    ensures forall i: nat :: LandsIn(anchors, s, i) <==>
      Meets(anchors, i, s, monotonic) && forall j: nat :: j != i ==> !Meets(anchors, j, s, monotonic)
    ensures Loose(anchors, s) <==>
      exists j: nat, k: nat :: j < k && Meets(anchors, j, s, monotonic) && Meets(anchors, k, s, monotonic)
  {
    hide On, At, Within, Ruler;
    forall i: nat | i < |anchors|
      ensures Within(anchors, s, i) == if Meets(anchors, i, s, monotonic) then Yes else No
    {
      WithinMeets(anchors, s, i, domain, monotonic);
    }
  }

  // ---------------------------------------------------------------- one chain an episode

  /** An anchor whose instant lies in episode `i` is the anchor of episode `i`. */
  lemma SpanOfAnchor(anchors: seq<Event>, i: nat, j: nat, monotonic: bool)
    requires Ascending(anchors, monotonic) && j < |anchors|
    requires Spans(anchors, i, At(anchors[j].time, monotonic), monotonic)
    ensures i == j
  {
  }

  /** A trigger of episode `i` is its anchor, or follows at once the overlap that is its anchor. */
  lemma TriggerOfEpisode(triggers: seq<Event>, k: nat, i: nat, monotonic: bool)
    requires Ascending(triggers, monotonic) && k < |triggers|
    requires Spans(Anchors(triggers), i, At(triggers[k].time, monotonic), monotonic)
    ensures i < |Anchors(triggers)|
    ensures
      || (Opens(triggers, k) && triggers[k] == Anchors(triggers)[i])
      || (triggers[k].kind != Overlap && k > 0 && triggers[k - 1] == Anchors(triggers)[i]
            && triggers[k - 1].kind == Overlap)
  {
    hide At, Anchors;
    var anchors := Anchors(triggers);
    AnchorsFound(triggers);
    AnchorsAscend(triggers, monotonic);
    if Opens(triggers, k) {
      var j :| 0 <= j < |anchors| && anchors[j] == triggers[k];
      SpanOfAnchor(anchors, i, j, monotonic);
    } else {
      assert Opens(triggers, k - 1);
      var j :| 0 <= j < |anchors| && anchors[j] == triggers[k - 1];
      assert anchors[i] in anchors;
      var m :| 0 <= m < |triggers| && triggers[m] == anchors[i] && Opens(triggers, m);
      NotLater(triggers, m, k, monotonic);
      SpanOfAnchor(anchors, i, j, monotonic);
    }
  }

  /** A trigger that opens an episode not after `k`, when `k` opens none, is not after the one before `k`. */
  lemma NotLater(triggers: seq<Event>, m: nat, k: nat, monotonic: bool)
    requires Ascending(triggers, monotonic) && m < |triggers| && 0 < k < |triggers| && m != k
    requires At(triggers[m].time, monotonic) <= At(triggers[k].time, monotonic)
    ensures At(triggers[m].time, monotonic) <= At(triggers[k - 1].time, monotonic) < At(triggers[k].time, monotonic)
  {
    hide At;
  }

  /** On one timeline every episode holds its own anchor, at most one overlap and at most one classification. */
  lemma OneChainPerEpisode(events: seq<Event>, i: nat, domain: int, monotonic: bool)
    requires OneTimeline(events, domain, monotonic) && i < |Anchors(Triggers(events))|
    ensures var anchors := Anchors(Triggers(events));
      && anchors[i] in EventsOf(anchors, events, i)
      && anchors[i].kind != Other
      && (forall e <- EventsOf(anchors, events, i), f <- EventsOf(anchors, events, i) ::
            e.kind == f.kind != Other ==> e == f)
  {
    hide At, On, Anchors, Triggers, EventsOf, Opens;
    var triggers := Triggers(events);
    var anchors := Anchors(triggers);
    AnchorsRule(events, domain, monotonic);
    TriggersAscend(events, domain, monotonic);
    EventsOfEpisode(anchors, events, i, domain, monotonic);
    forall e, f | e in EventsOf(anchors, events, i) && f in EventsOf(anchors, events, i) && e.kind == f.kind != Other
      ensures e == f
    {
      TriggersAre(events);
      var k :| 0 <= k < |triggers| && triggers[k] == e;
      var l :| 0 <= l < |triggers| && triggers[l] == f;
      TriggerOfEpisode(triggers, k, i, monotonic);
      TriggerOfEpisode(triggers, l, i, monotonic);
      TriggerOnce(triggers, k, l, anchors[i], monotonic);
    }
  }

  lemma TriggersAre(events: seq<Event>)
    ensures forall e :: e in Triggers(events) <==> e in events && e.kind != Other
  {
  }

  lemma TriggerOnce(triggers: seq<Event>, k: nat, l: nat, anchor: Event, monotonic: bool)
    requires Ascending(triggers, monotonic) && k < |triggers| && l < |triggers|
    requires triggers[k].kind == triggers[l].kind != Other
    requires triggers[k] == anchor || (triggers[k].kind != Overlap && k > 0 && triggers[k - 1] == anchor
        && anchor.kind == Overlap)
    requires triggers[l] == anchor || (triggers[l].kind != Overlap && l > 0 && triggers[l - 1] == anchor
        && anchor.kind == Overlap)
    ensures triggers[k] == triggers[l]
  {
  }

  // ---------------------------------------------------------------- the returned episodes

  lemma {:induction false} SpansAre(anchors: seq<Event>, items: seq<Span>, i: nat)
    ensures forall s :: s in SpansOf(anchors, items, i) <==> s in items && LandsIn(anchors, s, i)
    ensures forall s :: s in LooseOf(anchors, items) <==> s in items && Loose(anchors, s)
  {
    hide LandsIn, Loose;
    if items != [] {
      var front, last := items[..|items| - 1], items[|items| - 1];
      SpansAre(anchors, front, i);
      assert forall s :: s in items <==> s in front || s == last;
    }
  }

  predicate SpansOn(items: seq<Span>, domain: int, monotonic: bool) {
    forall s <- items ::
      On(s.start, domain, monotonic) && On(s.end, domain, monotonic) && At(s.start, monotonic) <= At(s.end, monotonic)
  }

  /** The span shares an instant with episode `i` and with no other. */
  ghost predicate MeetsOnly(anchors: seq<Event>, i: nat, s: Span, monotonic: bool) {
    Meets(anchors, i, s, monotonic) && forall j: nat :: j != i ==> !Meets(anchors, j, s, monotonic)
  }

  ghost predicate MeetsTwo(anchors: seq<Event>, s: Span, monotonic: bool) {
    exists j: nat, k: nat :: j < k && Meets(anchors, j, s, monotonic) && Meets(anchors, k, s, monotonic)
  }

  /** An episode's share of the intervals: what meets it alone, and beside it the straddlers of the turn. */
  ghost predicate Shares(anchors: seq<Event>, items: seq<Span>, i: nat, own: seq<Span>, loose: seq<Span>,
          monotonic: bool) {
    && (forall s :: s in own <==> s in items && MeetsOnly(anchors, i, s, monotonic))
    && forall s :: s in loose <==> s in items && MeetsTwo(anchors, s, monotonic)
  }

  lemma SharesExactly(anchors: seq<Event>, items: seq<Span>, i: nat, domain: int, monotonic: bool)
    requires Ruler(anchors, domain, monotonic) && SpansOn(items, domain, monotonic)
    ensures Shares(anchors, items, i, SpansOf(anchors, items, i), LooseOf(anchors, items), monotonic)
  {
    SpansAre(anchors, items, i);
    hide LandsIn, Loose, Ruler, On, At, Meets;
    forall s <- items
      ensures LandsIn(anchors, s, i) <==> MeetsOnly(anchors, i, s, monotonic)
      ensures Loose(anchors, s) <==> MeetsTwo(anchors, s, monotonic)
    {
      IntervalsPartitioned(anchors, s, domain, monotonic);
    }
  }

  /** At most one overlap and at most one classification, and a trigger to build the chain on. */
  predicate OneChain(events: seq<Event>) {
    && (exists e <- events :: e.kind != Other)
    && forall e <- events, f <- events :: e.kind == f.kind != Other ==> e == f
  }

  /** With a single anchor, every trigger of the turn lies in its episode. */
  lemma SingleAnchor(events: seq<Event>, domain: int, monotonic: bool)
    requires OneTimeline(events, domain, monotonic) && |Anchors(Triggers(events))| == 1
    ensures forall e <- events :: e.kind != Other ==> e in EventsOf(Anchors(Triggers(events)), events, 0)
  {
    hide At, On, Triggers, Anchors, EventsOf;
    var triggers := Triggers(events);
    var anchors := Anchors(triggers);
    AnchorsRule(events, domain, monotonic);
    TriggersAscend(events, domain, monotonic);
    AnchorsFound(triggers);
    TriggersAre(events);
    EventsOfEpisode(anchors, events, 0, domain, monotonic);
    assert anchors[0] in anchors;
    var m :| 0 <= m < |triggers| && triggers[m] == anchors[0];
    assert Opens(triggers, 0) && triggers[0] in anchors;
    forall e <- events | e.kind != Other ensures e in EventsOf(anchors, events, 0) {
      var k :| 0 <= k < |triggers| && triggers[k] == e;
      assert triggers[0] == anchors[0];
    }
  }

  lemma OneChainOf(events: seq<Event>, i: nat, domain: int, monotonic: bool)
    requires OneTimeline(events, domain, monotonic) && i < |Anchors(Triggers(events))|
    ensures OneChain(EventsOf(Anchors(Triggers(events)), events, i))
    ensures |Anchors(Triggers(events))| == 1 ==> OneChain(events)
  {
    hide At, On, Triggers, Anchors, EventsOf;
    OneChainPerEpisode(events, i, domain, monotonic);
    if |Anchors(Triggers(events))| == 1 {
      SingleAnchor(events, domain, monotonic);
      AnchorsRule(events, domain, monotonic);
    }
  }

  /**
   What segmentation returns on one timeline. There is one episode for each anchor, and each holds
   exactly one chain. With several, an episode's events are those of its half-open span, its
   intervals those that meet it alone, and the straddlers are set aside; with one it is the whole turn.
   */
  lemma SegmentedExactly(events: seq<Event>, operations: seq<Span>, samples: seq<Span>, i: nat, domain: int,
          monotonic: bool)
    requires OneTimeline(events, domain, monotonic)
    requires SpansOn(operations, domain, monotonic) && SpansOn(samples, domain, monotonic)
    requires i < |Segmented(events, operations, samples)|
    ensures var anchors := Anchors(Triggers(events)); var episodes := Segmented(events, operations, samples);
      && |episodes| == |anchors| && OneChain(episodes[i].events) && anchors[i] in episodes[i].events
      && (|anchors| == 1 ==> episodes[i] == Episode(events, operations, samples, [], [], operations))
      && (|anchors| > 1 ==>
            && (forall e :: e in episodes[i].events <==>
                  e in events && Spans(anchors, i, At(e.time, monotonic), monotonic))
            && episodes[i].events
               == Between(events, At(anchors[i].time, monotonic), NextAnchor(anchors, i, monotonic), monotonic)
            && Shares(anchors, operations, i, episodes[i].operations, episodes[i].looseOperations, monotonic)
            && Shares(anchors, samples, i, episodes[i].samples, episodes[i].looseSamples, monotonic))
  {
    hide At, On, Triggers, Anchors, EventsOf, SpansOf, LooseOf, Spans, Ruler, Shares, OneChain, SpansOn, Between,
      NextAnchor;
    AnchorsRule(events, domain, monotonic);
    OneChainOf(events, i, domain, monotonic);
    OneChainPerEpisode(events, i, domain, monotonic);
    EventsOfEpisode(Anchors(Triggers(events)), events, i, domain, monotonic);
    EventsInOrder(Anchors(Triggers(events)), events, i, domain, monotonic);
    SharesExactly(Anchors(Triggers(events)), operations, i, domain, monotonic);
    SharesExactly(Anchors(Triggers(events)), samples, i, domain, monotonic);
  }

  // ---------------------------------------------------------------- how many episodes, and who shares one

  /** The classification `c` comes after the overlap `o`, with no other trigger in between. */
  ghost predicate Follows(events: seq<Event>, o: Event, c: Event, monotonic: bool) {
    && o in events && o.kind == Overlap && c in events && c.kind == Classification
    && At(o.time, monotonic) < At(c.time, monotonic)
    && forall t <- events :: t.kind != Other ==>
         !(At(o.time, monotonic) < At(t.time, monotonic) < At(c.time, monotonic))
  }

  ghost function Overlaps(events: seq<Event>): set<Event> {
    set e <- events | e.kind == Overlap
  }

  /** The classifications whose latest earlier trigger is not an overlap. */
  ghost function Unprompted(events: seq<Event>, monotonic: bool): set<Event> {
    set c <- events | c.kind == Classification && !exists o :: Follows(events, o, c, monotonic)
  }

  /** Between two neighbours there is no trigger. */
  lemma NoneBetween(triggers: seq<Event>, k: nat, t: Event, monotonic: bool)
    requires Ascending(triggers, monotonic) && 0 < k < |triggers| && t in triggers
    ensures !(At(triggers[k - 1].time, monotonic) < At(t.time, monotonic) < At(triggers[k].time, monotonic))
  {
    hide At;
    var m :| 0 <= m < |triggers| && triggers[m] == t;
    if m < k - 1 { assert At(triggers[m].time, monotonic) < At(triggers[k - 1].time, monotonic); }
    if m > k { assert At(triggers[k].time, monotonic) < At(triggers[m].time, monotonic); }
  }

  lemma Positions(triggers: seq<Event>, m: nat, k: nat, monotonic: bool)
    requires Ascending(triggers, monotonic) && m < |triggers| && k < |triggers|
    ensures At(triggers[m].time, monotonic) < At(triggers[k].time, monotonic) <==> m < k
  {
    hide At;
  }

  /** What a trigger follows is the one just before it. */
  lemma FollowsNeighbour(events: seq<Event>, k: nat, o: Event, domain: int, monotonic: bool)
    requires OneTimeline(events, domain, monotonic) && k < |Triggers(events)|
    ensures Follows(events, o, Triggers(events)[k], monotonic) <==>
      k > 0 && o == Triggers(events)[k - 1] && o.kind == Overlap && Triggers(events)[k].kind == Classification
  {
    hide At, On, Triggers, Follows, Ascending;
    TriggersAscend(events, domain, monotonic);
    TriggersAre(events);
    var triggers := Triggers(events);
    if Follows(events, o, triggers[k], monotonic) { FollowsOnly(events, triggers, k, o, monotonic); }
    if k > 0 && o == triggers[k - 1] && o.kind == Overlap && triggers[k].kind == Classification {
      NeighbourFollows(events, triggers, k, monotonic);
    }
  }

  lemma FollowsOnly(events: seq<Event>, triggers: seq<Event>, k: nat, o: Event, monotonic: bool)
    requires Ascending(triggers, monotonic) && forall e :: e in triggers <==> e in events && e.kind != Other
    requires k < |triggers| && Follows(events, o, triggers[k], monotonic)
    ensures k > 0 && o == triggers[k - 1] && o.kind == Overlap && triggers[k].kind == Classification
  {
    hide At, Ascending;
    assert o in triggers;
    var m :| 0 <= m < |triggers| && triggers[m] == o;
    Positions(triggers, m, k, monotonic);
    if m < k - 1 {
      assert triggers[k - 1] in triggers;
      Positions(triggers, m, k - 1, monotonic);
      Positions(triggers, k - 1, k, monotonic);
    }
  }

  lemma NeighbourFollows(events: seq<Event>, triggers: seq<Event>, k: nat, monotonic: bool)
    requires Ascending(triggers, monotonic) && forall e :: e in triggers <==> e in events && e.kind != Other
    requires 0 < k < |triggers| && triggers[k - 1].kind == Overlap && triggers[k].kind == Classification
    ensures Follows(events, triggers[k - 1], triggers[k], monotonic)
  {
    hide At, Ascending;
    assert triggers[k - 1] in triggers && triggers[k] in triggers;
    Positions(triggers, k - 1, k, monotonic);
    forall t <- events | t.kind != Other
      ensures !(At(triggers[k - 1].time, monotonic) < At(t.time, monotonic) < At(triggers[k].time, monotonic))
    {
      NoneBetween(triggers, k, t, monotonic);
    }
  }

  /** The anchors are the overlaps and the unprompted classifications. */
  lemma AnchorsAre(events: seq<Event>, domain: int, monotonic: bool)
    requires OneTimeline(events, domain, monotonic)
    ensures forall e :: e in Anchors(Triggers(events)) <==> e in Overlaps(events) + Unprompted(events, monotonic)
  {
    TriggersAre(events);
    AnchorsFound(Triggers(events));
    hide At, On, Triggers, Anchors, Follows;
    var triggers := Triggers(events);
    forall e ensures e in Anchors(triggers) <==> e in Overlaps(events) + Unprompted(events, monotonic) {
      if e in triggers {
        var k :| 0 <= k < |triggers| && triggers[k] == e;
        OpensWhen(events, k, domain, monotonic);
        if e in Anchors(triggers) {
          var m :| 0 <= m < |triggers| && triggers[m] == e && Opens(triggers, m);
          OpensWhen(events, m, domain, monotonic);
        }
      }
    }
  }

  lemma OpensWhen(events: seq<Event>, k: nat, domain: int, monotonic: bool)
    requires OneTimeline(events, domain, monotonic) && k < |Triggers(events)|
    ensures Opens(Triggers(events), k) <==>
      Triggers(events)[k] in Overlaps(events) || Triggers(events)[k] in Unprompted(events, monotonic)
  {
    TriggersAre(events);
    hide At, On, Triggers, Follows;
    var triggers := Triggers(events);
    assert triggers[k] in triggers;
    if k > 0 { FollowsNeighbour(events, k, triggers[k - 1], domain, monotonic); }
    forall o ensures Follows(events, o, triggers[k], monotonic) ==> k > 0 && triggers[k - 1].kind == Overlap {
      FollowsNeighbour(events, k, o, domain, monotonic);
    }
  }

  lemma {:induction false} DistinctCount(s: seq<Event>, monotonic: bool)
    requires Ascending(s, monotonic)
    ensures |set e | e in s| == |s|
  {
    hide At;
    if s != [] {
      var front, last := s[..|s| - 1], s[|s| - 1];
      assert s == front + [last];
      DistinctCount(front, monotonic);
      assert last !in front;
      assert (set e | e in s) == (set e | e in front) + {last};
    } else {
      assert (set e | e in s) == {};
    }
  }

  /**
   On one timeline there are as many episodes as overlaps and unprompted classifications together: a
   classification opens an episode exactly when the latest trigger before it is not an overlap.
   */
  lemma EpisodesCounted(events: seq<Event>, operations: seq<Span>, samples: seq<Span>, domain: int, monotonic: bool)
    requires OneTimeline(events, domain, monotonic)
    ensures |Segmented(events, operations, samples)| == |Overlaps(events)| + |Unprompted(events, monotonic)|
  {
    AnchorsAre(events, domain, monotonic);
    AnchorsRule(events, domain, monotonic);
    var anchors := Anchors(Triggers(events));
    hide Anchors, Triggers, At, On, Follows;
    DistinctCount(anchors, monotonic);
    assert (set e | e in anchors) == Overlaps(events) + Unprompted(events, monotonic);
    assert Overlaps(events) !! Unprompted(events, monotonic);
  }

  /** Exactly one episode holds either event, and it holds both. */
  ghost predicate OneEpisodeOf(episodes: seq<Episode>, o: Event, c: Event) {
    exists i :: 0 <= i < |episodes| && o in episodes[i].events && c in episodes[i].events
      && forall j :: 0 <= j < |episodes| && (o in episodes[j].events || c in episodes[j].events) ==> j == i
  }

  /** An overlap and the classification that follows it are in the same returned episode, and in no other. */
  lemma ChainsStayTogether(events: seq<Event>, operations: seq<Span>, samples: seq<Span>, o: Event, c: Event,
                           domain: int, monotonic: bool)
    requires OneTimeline(events, domain, monotonic) && Follows(events, o, c, monotonic)
    ensures OneEpisodeOf(Segmented(events, operations, samples), o, c)
  {
    assert o in events && c in events && o in Overlaps(events);
    hide Anchors, Triggers, At, On, Follows, EventsOf, SpansOf, LooseOf, Spans, Ruler, Overlaps, Unprompted,
      OneTimeline;
    AnchorsAre(events, domain, monotonic);
    var anchors := Anchors(Triggers(events));
    assert o in Overlaps(events) + Unprompted(events, monotonic);
    assert o in anchors;
    var i :| 0 <= i < |anchors| && anchors[i] == o;
    SpansTogether(events, i, o, c, domain, monotonic);
    forall j: nat
      ensures o in EventsOf(anchors, events, j) <==> j == i
      ensures c in EventsOf(anchors, events, j) <==> j == i
    {
      BucketIs(events, j, domain, monotonic);
    }
    TogetherReturned(events, operations, samples, o, c, i);
  }

  /** What the buckets say of two events, the returned episodes say. */
  lemma TogetherReturned(events: seq<Event>, operations: seq<Span>, samples: seq<Span>, o: Event, c: Event, i: nat)
    requires o in events && c in events && i < |Anchors(Triggers(events))|
    requires forall j: nat :: o in EventsOf(Anchors(Triggers(events)), events, j) <==> j == i
    requires forall j: nat :: c in EventsOf(Anchors(Triggers(events)), events, j) <==> j == i
    ensures OneEpisodeOf(Segmented(events, operations, samples), o, c)
  {
    hide Anchors, Triggers, EventsOf, SpansOf, LooseOf;
    var episodes := Segmented(events, operations, samples);
    if |Anchors(Triggers(events))| == 1 {
      assert o in episodes[0].events && c in episodes[0].events;
    } else {
      assert o in episodes[i].events && c in episodes[i].events;
    }
  }

  lemma BucketIs(events: seq<Event>, j: nat, domain: int, monotonic: bool)
    requires OneTimeline(events, domain, monotonic)
    ensures var anchors := Anchors(Triggers(events));
      forall e :: e in EventsOf(anchors, events, j) <==>
        e in events && Spans(anchors, j, At(e.time, monotonic), monotonic)
  {
    hide Anchors, Triggers, At, On, EventsOf, Spans;
    AnchorsRule(events, domain, monotonic);
    EventsOfEpisode(Anchors(Triggers(events)), events, j, domain, monotonic);
  }

  lemma SpansOnly(anchors: seq<Event>, i: nat, instant: int, monotonic: bool)
    requires Ascending(anchors, monotonic) && Spans(anchors, i, instant, monotonic)
    ensures forall j: nat :: Spans(anchors, j, instant, monotonic) ==> j == i
  {
    hide At;
  }

  lemma SpansTogether(events: seq<Event>, i: nat, o: Event, c: Event, domain: int, monotonic: bool)
    requires OneTimeline(events, domain, monotonic) && Follows(events, o, c, monotonic)
    requires i < |Anchors(Triggers(events))| && Anchors(Triggers(events))[i] == o
    ensures forall j: nat :: Spans(Anchors(Triggers(events)), j, At(o.time, monotonic), monotonic) <==> j == i
    ensures forall j: nat :: Spans(Anchors(Triggers(events)), j, At(c.time, monotonic), monotonic) <==> j == i
  {
    hide Anchors, Triggers, At, On, Overlaps, OneTimeline;
    AnchorsRule(events, domain, monotonic);
    AnchorsAre(events, domain, monotonic);
    var anchors := Anchors(Triggers(events));
    assert c !in Overlaps(events) + Unprompted(events, monotonic) by { NotOverlap(events, c); }
    assert c !in anchors;
    if i + 1 < |anchors| {
      assert anchors[i + 1] in anchors;
      SameTime(events, anchors[i + 1], c, domain, monotonic);
    }
    SpansOnly(anchors, i, At(o.time, monotonic), monotonic);
    SpansOnly(anchors, i, At(c.time, monotonic), monotonic);
  }

  lemma NotOverlap(events: seq<Event>, c: Event)
    requires c.kind != Overlap
    ensures c !in Overlaps(events)
  {
  }

  /** No two triggers share a time. */
  lemma SameTime(events: seq<Event>, a: Event, b: Event, domain: int, monotonic: bool)
    requires OneTimeline(events, domain, monotonic) && a in events && b in events && a.kind != Other && b.kind != Other
    ensures At(a.time, monotonic) == At(b.time, monotonic) ==> a == b
  {
    hide At, On;
    var i :| 0 <= i < |events| && events[i] == a;
    var j :| 0 <= j < |events| && events[j] == b;
  }
}
