/**
 What becomes of the drains that wait, behind a retained request or not: no step forgets one, and
 only a delivery of its own can resolve one as delivered.
 */
module Blocking {
  import opened Wrappers
  import opened Capture
  import opened TransportModel
  import opened TransportShape
  import opened SilentLoss

  /** The drain loop holds the entry: it delivers it, or retries the retained request ahead of it. */
  predicate Holding(t: Transport, e: Queued) {
    t.drain.Busy? && !t.drain.purpose.IdleRetry? && t.drain.purpose.next == e
  }

  /** Between `t` and `r` the entry was resolved undelivered and its payload reported as a new loss. */
  ghost predicate GivenUp(t: Transport, r: Transport, e: Queued) {
    && (exists i :: |t.log.resolved| <= i < |r.log.resolved| && r.log.resolved[i] == Resolution(e.id, false))
    && exists i :: |t.log.losses| <= i < |r.log.losses| && r.log.losses[i].payload == e.payload
  }

  /** Nothing was forgotten on the way from `t`, with `hand` in the loop's hands, to `r`, and nothing delivered. */
  ghost predicate Keeps(t: Transport, hand: Option<Queued>, r: Transport) {
    && t.log.losses <= r.log.losses && t.log.resolved <= r.log.resolved
    && (forall i :: |t.log.resolved| <= i < |r.log.resolved| ==> !r.log.resolved[i].delivered)
    && forall e :: e in t.queue || hand == Some(e) ==> e in r.queue || Holding(r, e) || GivenUp(t, r, e)
  }

  lemma KeepsAfter(t: Transport, hand: Option<Queued>, a: Transport, other: Option<Queued>, r: Transport)
    requires Keeps(t, hand, a) && Keeps(a, other, r)
    requires forall e :: Holding(a, e) ==> other == Some(e) || Holding(r, e)
    ensures Keeps(t, hand, r)
  {
    hide Holding;
    forall e | (e in t.queue || hand == Some(e)) && e !in r.queue && !Holding(r, e) ensures GivenUp(t, r, e) {
      if GivenUp(t, a, e) {
        var i :| |t.log.resolved| <= i < |a.log.resolved| && a.log.resolved[i] == Resolution(e.id, false);
        var j :| |t.log.losses| <= j < |a.log.losses| && a.log.losses[j].payload == e.payload;
        assert r.log.resolved[i] == Resolution(e.id, false) && r.log.losses[j].payload == e.payload;
      } else {
        assert GivenUp(a, r, e);
        var i :| |a.log.resolved| <= i < |r.log.resolved| && r.log.resolved[i] == Resolution(e.id, false);
        var j :| |a.log.losses| <= j < |r.log.losses| && r.log.losses[j].payload == e.payload;
      }
    }
  }

  lemma SkipKeeps(t: Transport, next: Queued)
    ensures Keeps(t, Some(next), Skip(t, next)) && Skip(t, next).queue == t.queue && Skip(t, next).drain == t.drain
  {
    hide CanRemember, Widened;
    var r := Skip(t, next);
    assert r.log.resolved[|t.log.resolved|] == Resolution(next.id, false);
    assert r.log.losses[|t.log.losses|].payload == next.payload;
  }

  /** Starting a delivery for an entry, whatever its first attempt comes to. */
  lemma StartKeeps(t: Transport, purpose: Purpose, p: Payload, attempts: nat, auth: seq<bool>)
    ensures var r := Attempt(t, purpose, p, attempts, auth);
      && Keeps(t, if purpose.IdleRetry? then None else Some(purpose.next), r) && r.queue == t.queue
  {
    hide BlockForAuth;
    BlockResolvesNothing(t, purpose, p, attempts, true);
  }

  lemma BlockResolvesNothing(t: Transport, purpose: Purpose, p: Payload, attempts: nat, retryable: bool)
    ensures var r := BlockForAuth(t, purpose, p, attempts); r.log.resolved == t.log.resolved && r.queue == t.queue
    ensures var r := Fail(t, purpose, p, attempts, retryable); r.log.resolved == t.log.resolved && r.queue == t.queue
  {
    hide CanRemember, Widened, TransportModel.Keeps;
  }

  lemma BeginKeeps(t: Transport, purpose: Purpose, next: Queued, p: Payload, auth: seq<bool>)
    requires t.drain == Idle
    ensures Keeps(t, if purpose.IdleRetry? then None else Some(purpose.next), StartRetry(t, purpose, p, auth))
    ensures Keeps(t, Some(next), StartFresh(t, next, auth))
  {
    hide Attempt;
    var a := t.(attempted := t.attempted + {p.session}, log := t.log.(retried := t.log.retried + [p.session]));
    StartKeeps(a, purpose, p, 0, auth);
    StartKeeps(t, Fresh(next), PrepareResync(t, next.payload), 0, auth);
  }

  /** Taking the first entry off the queue puts it in hand. */
  lemma PopKeeps(t: Transport, r: Transport)
    requires t.queue != [] && Keeps(t.(queue := t.queue[1..], drain := Idle), Some(t.queue[0]), r)
    ensures Keeps(t, None, r)
  {
    hide Holding;
    var t1 := t.(queue := t.queue[1..], drain := Idle);
    assert forall e <- t.queue :: e == t.queue[0] || e in t1.queue;
    assert forall e :: GivenUp(t1, r, e) == GivenUp(t, r, e);
  }

  lemma {:induction false} PumpKeeps(t: Transport, auth: seq<bool>)
    ensures Keeps(t, None, Pump(t, auth))
    decreases |t.queue|
  {
    hide Skip, StartRetry, StartFresh, Refused, Keeps;
    if t.queue == [] {
      NothingKept(t);
    } else {
      var next, t1 := t.queue[0], t.(queue := t.queue[1..], drain := Idle);
      SkipKeeps(t1, next);
      if !Current(auth) || Refused(t1, next.payload) ||
         (next.payload.session in t1.exact && next.payload.session in t1.attempted) {
        PumpKeeps(Skip(t1, next), Later(auth));
        KeepsAfter(t1, Some(next), Skip(t1, next), None, Pump(t, auth));
      } else if next.payload.session in t1.exact {
        BeginKeeps(t1, Ahead(next), next, t1.exact[next.payload.session], Later(auth));
      } else {
        BeginKeeps(t1, Ahead(next), next, next.payload, Later(auth));
      }
      PopKeeps(t, Pump(t, auth));
    }
  }

  lemma NothingKept(t: Transport)
    requires t.queue == []
    ensures Keeps(t, None, t.(drain := Idle))
  {
  }

  lemma SkipThenPumpKeeps(t: Transport, next: Queued, auth: seq<bool>)
    requires t.drain == Idle
    ensures Keeps(t, Some(next), Pump(Skip(t, next), auth))
  {
    hide Skip, Pump, Keeps;
    SkipKeeps(t, next);
    PumpKeeps(Skip(t, next), auth);
    KeepsAfter(t, Some(next), Skip(t, next), None, Pump(Skip(t, next), auth));
  }

  lemma ContinueKeeps(t: Transport, next: Queued, auth: seq<bool>)
    requires t.drain == Idle
    ensures Keeps(t, Some(next), ContinueWith(t, next, auth))
  {
    hide Skip, Pump, Keeps, StartFresh;
    SkipThenPumpKeeps(t, next, auth);
    BeginKeeps(t, Fresh(next), next, next.payload, auth);
  }

  lemma AcceptKeeps(t: Transport, hand: Option<Queued>, p: Payload, r: Transport)
    requires Keeps(Accept(t, p), hand, r) || Keeps(Accept(t.(exact := t.exact - {p.session}), p), hand, r)
    ensures Keeps(t, hand, r)
  {
    hide Cleared, Holding;
    assert forall e :: GivenUp(Accept(t, p), r, e) == GivenUp(t, r, e);
    assert forall e :: GivenUp(Accept(t.(exact := t.exact - {p.session}), p), r, e) == GivenUp(t, r, e);
  }

  // ---- one step -----------------------------------------------------------------------------

  /** The loop is about to consume the good outcome of a fresh delivery, whose session retains nothing. */
  predicate Finishing(t: Transport, id: nat) {
    && t.drain.Busy? && t.drain.purpose.Fresh? && t.drain.delivery.at == Returned(Delivered)
    && t.drain.purpose.next.id == id && t.drain.purpose.next.payload.session !in t.exact
  }

  predicate AheadOf(t: Transport, e: Queued) {
    t.drain.Busy? && t.drain.purpose == Ahead(e)
  }

  /** What a step may do to waiting entries and to promises. */
  ghost predicate StepKeepsWaiting(t: Transport, r: Transport) {
    && t.log.resolved <= r.log.resolved && t.log.losses <= r.log.losses
    && (forall i :: |t.log.resolved| <= i < |r.log.resolved| && r.log.resolved[i].delivered ==>
          Finishing(t, r.log.resolved[i].id))
    && forall e :: e in t.queue || AheadOf(t, e) ==> e in r.queue || Holding(r, e) || GivenUp(t, r, e)
  }

  lemma KeepsIsStep(t: Transport, hand: Option<Queued>, r: Transport)
    requires Keeps(t, hand, r) && forall e :: AheadOf(t, e) ==> hand == Some(e) || Holding(r, e)
    ensures StepKeepsWaiting(t, r)
  {
    hide GivenUp, Holding;
  }

  lemma FreshKeeps(t: Transport, next: Queued, p: Payload, outcome: Outcome, auth: seq<bool>)
    requires t.drain.Busy? && t.drain.purpose == Fresh(next) && t.drain.delivery.at == Returned(outcome)
    requires outcome == Delivered ==> next.payload.session !in t.exact
    ensures StepKeepsWaiting(t, AfterFresh(t.(drain := Idle), next, p, outcome, auth))
  {
    hide Pump, Cleared, Holding;
    var a := t.(drain := Idle);
    var b := if outcome == Delivered then Accept(a, p) else a;
    var c := Resolve(b, next.id, outcome == Delivered);
    PumpKeeps(c, auth);
    var r := Pump(c, auth);
    assert c.log.resolved == t.log.resolved + [Resolution(next.id, outcome == Delivered)];
    forall e | e in t.queue && e !in r.queue && !Holding(r, e) ensures GivenUp(t, r, e) {
      assert GivenUp(c, r, e);
      var i :| |c.log.resolved| <= i < |r.log.resolved| && r.log.resolved[i] == Resolution(e.id, false);
    }
  }

  lemma AheadKeepsWaiting(t: Transport, next: Queued, p: Payload, outcome: Outcome, auth: seq<bool>)
    requires t.drain == Idle && p.session == next.payload.session
    ensures Keeps(t, Some(next), AfterAhead(t, next, p, outcome, auth))
  {
    hide Pump, Skip, ContinueWith, Keeps, Accept;
    var a := Accept(t.(exact := t.exact - {next.payload.session}), p);
    SkipThenPumpKeeps(t, next, Later(auth));
    ContinueKeeps(t, next, auth);
    AcceptIdle(t, p);
    ContinueKeeps(a, next, auth);
    AcceptKeeps(t, Some(next), p, AfterAhead(t, next, p, outcome, auth)) by {
      if outcome != Delivered { KeepsAccepting(t, Some(next), p, AfterAhead(t, next, p, outcome, auth)); }
    }
  }

  lemma AcceptIdle(t: Transport, p: Payload)
    ensures Accept(t, p).drain == t.drain && Accept(t.(exact := t.exact - {p.session}), p).drain == t.drain
  {
  }

  lemma KeepsAccepting(t: Transport, hand: Option<Queued>, p: Payload, r: Transport)
    requires Keeps(t, hand, r)
    ensures Keeps(Accept(t, p), hand, r)
  {
    hide Cleared, Holding;
    assert forall e :: GivenUp(Accept(t, p), r, e) == GivenUp(t, r, e);
  }

  lemma IdleRetryKeeps(t: Transport, rest: seq<Payload>, p: Payload, outcome: Outcome, auth: seq<bool>)
    requires t.drain == Idle
    ensures Keeps(t, None, AfterIdleRetry(t, rest, p, outcome, auth))
  {
    hide Pump, StartRetry, Keeps, Accept;
    var a := Accept(t.(exact := t.exact - {p.session}), p);
    var b := if outcome == Delivered then a else t;
    AcceptIdle(t, p);
    PumpKeeps(b, auth);
    if rest != [] { BeginKeeps(b, IdleRetry(rest[1..]), Queued(0, p), rest[0], auth); }
    if outcome == Delivered { AcceptKeeps(t, None, p, AfterIdleRetry(t, rest, p, outcome, auth)); }
  }

  lemma ReturnedKeeps(t: Transport, answer: Answer, auth: seq<bool>)
    requires Shape(t) && t.drain.Busy? && t.drain.delivery.at.Returned?
    ensures StepKeepsWaiting(t, Resume(t, answer, auth))
  {
    HoldsNow(t);
    hide Shape, Keyed, AfterFresh, AfterAhead, AfterIdleRetry, Keeps, StepKeepsWaiting, HoldsRest;
    var purpose, d := t.drain.purpose, t.drain.delivery;
    var a := t.(drain := Idle);
    match purpose {
      case Fresh(next) => FreshKeeps(t, next, d.payload, d.at.outcome, auth);
      case Ahead(next) =>
        AheadKeepsWaiting(a, next, d.payload, d.at.outcome, auth);
        SameKeeps(t, a, Some(next), Resume(t, answer, auth));
        KeepsIsStep(t, Some(next), Resume(t, answer, auth));
      case IdleRetry(rest) =>
        IdleRetryKeeps(a, rest, d.payload, d.at.outcome, auth);
        SameKeeps(t, a, None, Resume(t, answer, auth));
        KeepsIsStep(t, None, Resume(t, answer, auth));
    }
  }

  lemma SameKeeps(t: Transport, a: Transport, hand: Option<Queued>, r: Transport)
    requires a == t.(drain := a.drain) && Keeps(a, hand, r)
    ensures Keeps(t, hand, r)
  {
    hide Holding;
    assert forall e :: GivenUp(a, r, e) == GivenUp(t, r, e);
  }

  lemma PostResolves(t: Transport, purpose: Purpose, d: Delivery, answer: Answer, auth: seq<bool>)
    ensures AfterPost(t, purpose, d, answer, auth).log.resolved == t.log.resolved
    ensures BlockForAuth(t, purpose, d.payload, d.attempts).log.resolved == t.log.resolved
  {
    hide Fail, BlockForAuth;
    BlockResolvesNothing(t, purpose, d.payload, d.attempts, answer != Permanent);
  }

  lemma WaitKeeps(t: Transport, answer: Answer, auth: seq<bool>)
    requires t.drain.Busy? && !t.drain.delivery.at.Returned?
    ensures var r := Resume(t, answer, auth);
      r.log.resolved == t.log.resolved && r.queue == t.queue && r.drain.Busy? && r.drain.purpose == t.drain.purpose
  {
    hide Resume, AfterPost, BlockForAuth, Attempt;
    ResumeKeepsPurpose(t, answer, auth);
    ResumeIsWait(t, answer, auth);
    PostResolves(t, t.drain.purpose, t.drain.delivery, answer, auth);
    AttemptResolves(t, t.drain.purpose, t.drain.delivery.payload, t.drain.delivery.attempts, auth);
  }

  lemma AttemptResolves(t: Transport, purpose: Purpose, p: Payload, attempts: nat, auth: seq<bool>)
    ensures Attempt(t, purpose, p, attempts, auth).log.resolved == t.log.resolved
  {
    hide BlockForAuth;
    BlockResolvesNothing(t, purpose, p, attempts, true);
  }

  lemma ResumeKeepsWaiting(t: Transport, answer: Answer, auth: seq<bool>)
    requires Shape(t)
    ensures StepKeepsWaiting(t, Resume(t, answer, auth))
  {
    if t.drain.Busy? {
      hide Resume, Shape, GivenUp;
      if t.drain.delivery.at.Returned? {
        ReturnedKeeps(t, answer, auth);
      } else {
        WaitKeeps(t, answer, auth);
      }
    }
  }

  lemma {:induction false} EvictKeepsWaiting(t: Transport)
    ensures Keeps(t, None, Evict(t)) && Evict(t).drain == t.drain
    decreases |t.queue|
  {
    hide Keeps;
    if |t.queue| < t.limits.maxQueued || t.queue == [] {
      SelfKeeps(t);
    } else {
      OldestKeeps(t);
      EvictKeepsWaiting(AsOverflow(DropOldest(t)));
      KeepsAfter(t, None, AsOverflow(DropOldest(t)), None, Evict(t));
    }
  }

  lemma SelfKeeps(t: Transport)
    ensures Keeps(t, None, t)
  {
  }

  lemma OldestKeeps(t: Transport)
    requires t.queue != []
    ensures var a := DropOldest(t); var b := AsOverflow(a);
      && Keeps(t, None, a) && a.drain == t.drain && |a.queue| < |t.queue|
      && Keeps(t, None, b) && b.drain == t.drain && |b.queue| < |t.queue|
  {
    hide CanRemember, Widened;
    var a := DropOldest(t);
    var b := AsOverflow(a);
    assert forall e <- t.queue :: e == t.queue[0] || e in t.queue[1..];
    assert a.log.resolved[|t.log.resolved|] == Resolution(t.queue[0].id, false);
    assert a.log.losses[|t.log.losses|].payload == t.queue[0].payload;
    assert b.log.losses[|t.log.losses|].payload == t.queue[0].payload;
    assert t.log.losses <= b.log.losses;
  }

  lemma {:induction false} AbandonKeepsWaiting(t: Transport)
    ensures Keeps(t, None, Abandon(t)) && Abandon(t).drain == t.drain
    decreases |t.queue|
  {
    hide Keeps;
    if t.queue == [] {
      SelfKeeps(t);
    } else {
      OldestKeeps(t);
      AbandonKeepsWaiting(DropOldest(t));
      KeepsAfter(t, None, DropOldest(t), None, Abandon(t));
    }
  }

  lemma SameWaiting(t: Transport, a: Transport, r: Transport)
    requires a.queue == t.queue && a.drain == t.drain
    requires a.log.resolved == t.log.resolved && a.log.losses == t.log.losses
    requires Keeps(a, None, r)
    ensures Keeps(t, None, r)
  {
    hide Holding;
    assert forall e :: GivenUp(a, r, e) == GivenUp(t, r, e);
  }

  lemma RejectKeepsWaiting(t: Transport, p: Payload, track: bool)
    ensures Keeps(t, None, Reject(t, p, track)) && Reject(t, p, track).drain == t.drain
  {
    hide CanRemember, Widened;
  }

  lemma EnqueueKeepsWaiting(t: Transport, p: Payload)
    ensures Keeps(t, None, Enqueue(t, p)) && Enqueue(t, p).drain == t.drain
  {
    hide Keeps, Evict;
    var a := NoteSent(t, p);
    EvictKeepsWaiting(a);
    SameWaiting(t, a, Evict(a));
    MoreWaiting(t, Evict(a), Enqueue(t, p));
  }

  lemma MoreWaiting(t: Transport, a: Transport, r: Transport)
    requires Keeps(t, None, a) && r == a.(queue := r.queue) && forall e <- a.queue :: e in r.queue
    ensures Keeps(t, None, r)
  {
    assert forall e :: GivenUp(t, a, e) == GivenUp(t, r, e);
  }

  lemma NoHand(t: Transport, r: Transport)
    requires Keeps(t, None, r) && (t.drain.Busy? ==> r.drain == t.drain)
    ensures StepKeepsWaiting(t, r)
  {
    hide GivenUp;
    assert forall e :: AheadOf(t, e) ==> Holding(r, e);
    KeepsIsStep(t, None, r);
  }

  lemma SendKeepsWaiting(t: Transport, p: Payload, serializable: bool, auth: seq<bool>)
    requires t.queue != [] ==> t.drain != Idle
    ensures StepKeepsWaiting(t, Send(t, p, serializable, auth))
  {
    hide Keeps, StepKeepsWaiting, Reject, Enqueue, Pump, Refused;
    RejectKeepsWaiting(t, p, true);
    RejectKeepsWaiting(t, p, false);
    NoHand(t, Reject(t, p, true));
    NoHand(t, Reject(t, p, false));
    EnqueueKeepsWaiting(t, p);
    var a := Enqueue(t, p);
    if t.drain == Idle {
      var b := a.(attempted := {}, log := a.log.(retried := []));
      var c := Pump(b, Later(auth));
      PumpKeeps(b, Later(auth));
      SameWaiting(a, b, c);
      StuckKeeps(a, c);
      var r := if c.drain == Idle then c.(drain := Stuck) else c;
      KeepsAfter(t, None, a, None, r) by { NotHolding(a); }
      NoHand(t, r);
    } else {
      NoHand(t, a);
    }
  }

  lemma NotHolding(t: Transport)
    requires !t.drain.Busy?
    ensures forall e :: !Holding(t, e)
  {
  }

  lemma StuckKeeps(t: Transport, a: Transport)
    requires Keeps(t, None, a)
    ensures a.drain == Idle ==> Keeps(t, None, a.(drain := Stuck))
  {
    if a.drain == Idle { assert forall e :: GivenUp(t, a, e) == GivenUp(t, a.(drain := Stuck), e); }
  }

  lemma FlushKeepsWaiting(t: Transport, order: seq<string>, auth: seq<bool>)
    ensures StepKeepsWaiting(t, Flush(t, order, auth))
  {
    hide Keeps, StepKeepsWaiting, StartRetry, Enumerates, Requests;
    SelfKeeps(t);
    NoHand(t, t);
    if t.drain == Idle && t.exact != map[] && t.queue == [] && Enumerates(order, t.exact.Keys) {
      EnumerationIndexes(order, t.exact.Keys);
      var requests := Requests(t.exact, order);
      var a := t.(attempted := {}, log := t.log.(retried := []));
      BeginKeeps(a, IdleRetry(requests[1..]), Queued(0, requests[0]), requests[0], auth);
      SameWaiting(t, a, Flush(t, order, auth));
      NoHand(t, Flush(t, order, auth));
    }
  }

  lemma StopKeepsWaiting(t: Transport)
    ensures StepKeepsWaiting(t, Stop(t))
  {
    hide Keeps, StepKeepsWaiting, Abandon;
    SelfKeeps(t);
    NoHand(t, t);
    var a := t.(stopped := true);
    AbandonKeepsWaiting(a);
    SameWaiting(t, a, Abandon(a));
    NoHand(t, Abandon(a));
  }

  /**
   In every run, whatever the next input: an entry that leaves the queue, or that waits behind a
   retained request, is from then on in the loop's hands or was resolved undelivered with its payload
   reported lost; and only the good end of an entry's own delivery, while nothing of its session is
   retained, resolves it as delivered.
   */
  lemma BlockedBehindRetained(limits: Limits, inputs: seq<Input>, input: Input)
    requires limits.Positive()
    ensures StepKeepsWaiting(Run(limits, inputs), Step(Run(limits, inputs), input))
  {
    hide Run, Send, Resume, Flush, Stop, StepKeepsWaiting, Shape;
    var t := Run(limits, inputs);
    RunKeeps(limits, inputs);
    match input
    case Sending(p, serializable, auth) => SendKeepsWaiting(t, p, serializable, auth);
    case Resuming(answer, auth) => ResumeKeepsWaiting(t, answer, auth);
    case Flushing(order, auth) => FlushKeepsWaiting(t, order, auth);
    case Stopping => StopKeepsWaiting(t);
  }

  /**
   So a drain whose session has a retained request before and after a step, and which the step takes
   out of the queue, waits while that request is retried, was itself just retained, or is given up.
   */
  lemma TakenBehindRetained(limits: Limits, inputs: seq<Input>, input: Input, e: Queued)
    requires limits.Positive()
    requires var t, r := Run(limits, inputs), Step(Run(limits, inputs), input);
      e in t.queue && e !in r.queue && e.payload.session in r.exact
    ensures var t, r := Run(limits, inputs), Step(Run(limits, inputs), input);
      || GivenUp(t, r, e)
      || (r.drain.Busy? && r.drain.purpose == Ahead(e) && r.drain.delivery.payload.session == e.payload.session)
      || (r.drain.Busy? && r.drain.purpose == Fresh(e) && r.drain.delivery.at.Returned?)
  {
    BlockedBehindRetained(limits, inputs, input);
    RunKeeps(limits, inputs + [input]);
    assert (inputs + [input])[..|inputs|] == inputs;
    hide Step, Core, HoldsRest, GivenUp;
    assert Run(limits, inputs + [input]) == Step(Run(limits, inputs), input);
  }
}
