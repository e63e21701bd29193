/**
 The gap-free ledger with its one exception: a full recovery ledger loses no sequence silently,
 because a session it cannot remember is never delivered again. Only a `send` under another
 authorization context can leave an unexplained gap below an acknowledged sequence.
 */
module SilentLoss {
  import opened Wrappers
  import opened Capture
  import opened TransportModel
  import opened TransportShape
  import opened SessionLedger
  import opened TransportLedger
  import opened GapFree
  import opened DeliveryGuarantees
  import opened Sets

  /** A live sequence of a session. */
  predicate Live(t: Transport, hand: Option<Payload>, session: string, q: int) {
    q in Kept(t, session) || q in InHand(hand, session) || q in Waiting(t.queue, session)
  }

  /** What `r` lost beyond `t` was live, and its session is shut out of a saturated ledger. */
  ghost predicate LosesLive(t: Transport, hand: Option<Payload>, r: Transport) {
    && Sticky(t, r)
    && forall s, q :: (s, q) in r.log.untracked && (s, q) !in t.log.untracked ==>
         Live(t, hand, s, q) && r.saturated && !HasRecovery(r, s)
  }

  /** A fresh delivery just begun in a saturated transport belongs to a remembered session. */
  predicate Admitted(r: Transport) {
    r.drain.Busy? && r.saturated && Sequence(r.drain.delivery.payload) > 0
    && r.drain.delivery.at != Returned(Dropped)
    ==> HasRecovery(r, r.drain.delivery.payload.session)
  }

  lemma LosesAfter(t: Transport, hand: Option<Payload>, a: Transport, other: Option<Payload>, r: Transport)
    requires LosesLive(t, hand, a) && LosesLive(a, other, r)
    requires forall s, q :: Live(a, other, s, q) ==> Live(t, hand, s, q)
    ensures LosesLive(t, hand, r)
  {
    hide Live;
    assert forall s :: HasRecovery(a, s) <==> s in RecoverySessions(a);
    assert forall s :: HasRecovery(r, s) <==> s in RecoverySessions(r);
  }

  lemma LosesNothing(t: Transport, hand: Option<Payload>, r: Transport)
    requires r.log.untracked == t.log.untracked && r.saturated == t.saturated
    requires RecoverySessions(r) <= RecoverySessions(t)
    ensures LosesLive(t, hand, r)
  {
  }

  lemma GiveUpLoses(t: Transport, p: Payload)
    ensures LosesLive(t, Some(p), GiveUp(t, p, true))
  {
    hide Widened, Size;
    var r := GiveUp(t, p, true);
    assert r.exact == t.exact;
  }

  lemma SkipLoses(t: Transport, next: Queued)
    ensures LosesLive(t, Some(next.payload), Skip(t, next))
    ensures Skip(t, next).queue == t.queue && Skip(t, next).exact == t.exact
  {
    hide GiveUp, Live;
    GiveUpLoses(t, next.payload);
    assert GiveUp(t, next.payload, true).exact == t.exact;
    LosesNothing(GiveUp(t, next.payload, true), Some(next.payload), Skip(t, next));
    LosesAfter(t, Some(next.payload), GiveUp(t, next.payload, true), Some(next.payload), Skip(t, next)) by {
      LiveSame(t, GiveUp(t, next.payload, true), Some(next.payload));
    }
  }

  lemma LiveSame(t: Transport, r: Transport, hand: Option<Payload>)
    requires r.queue == t.queue && r.exact == t.exact
    ensures forall s, q :: Live(r, hand, s, q) ==> Live(t, hand, s, q)
  {
  }

  lemma RetainLoses(t: Transport, purpose: Purpose, p: Payload, attempts: nat)
    ensures LosesLive(t, Some(p), RetainExactRetry(t, purpose, p, attempts))
  {
    hide GiveUp, Size;
    var a := RememberExactRetry(t, p);
    var r := RetainExactRetry(t, purpose, p, attempts);
    assert LosesLive(t, Some(p), a);
    if Keeps(t, p) {
      LosesNothing(a, Some(p), r);
    } else {
      GiveUpLoses(a, p);
      var b := GiveUp(a, p, true);
      LosesNothing(b, Some(p), r);
      assert a.exact == t.exact;
      LiveSame(a, b, Some(p));
      LosesAfter(a, Some(p), b, Some(p), r);
      LiveSame(t, a, Some(p));
    }
    assert forall s, q :: Live(a, Some(p), s, q) ==> Live(t, Some(p), s, q);
    LosesAfter(t, Some(p), a, Some(p), r);
  }

  lemma FailLoses(t: Transport, purpose: Purpose, p: Payload, attempts: nat, retryable: bool)
    ensures LosesLive(t, Some(p), Fail(t, purpose, p, attempts, retryable))
    ensures LosesLive(t, Some(p), BlockForAuth(t, purpose, p, attempts))
  {
    hide GiveUp, RetainExactRetry, LosesLive, Live;
    RetainLoses(t, purpose, p, attempts);
    GiveUpLoses(t, p);
    var a := GiveUp(t, p, true);
    assert a.queue == t.queue && a.exact == t.exact;
    LiveSame(t, a, Some(p));
    var dropped := Suspend(a, purpose, p, attempts, Returned(Dropped));
    var shrunk := dropped.(exact := dropped.exact - {p.session});
    LosesNothing(a, Some(p), dropped);
    LosesNothing(a, Some(p), shrunk);
    LosesAfter(t, Some(p), a, Some(p), dropped);
    LosesAfter(t, Some(p), a, Some(p), shrunk);
  }

  lemma AttemptLoses(t: Transport, purpose: Purpose, p: Payload, attempts: nat, auth: seq<bool>)
    ensures LosesLive(t, Some(p), Attempt(t, purpose, p, attempts, auth))
    ensures Attempt(t, purpose, p, attempts, auth).log.accepted == t.log.accepted
  {
    hide BlockForAuth, LosesLive;
    FailLoses(t, purpose, p, attempts, true);
    BlockAccepts(t, purpose, p, attempts);
    var posted := t.(log := t.log.(posted := t.log.posted + [p]));
    LosesNothing(t, Some(p), Suspend(posted, purpose, p, attempts + 1, AwaitPost));
  }

  lemma BlockAccepts(t: Transport, purpose: Purpose, p: Payload, attempts: nat)
    ensures BlockForAuth(t, purpose, p, attempts).log.accepted == t.log.accepted
  {
    hide Widened, Size;
  }

  /** A delivery that may begin is admitted, whatever becomes of its first attempt. */
  lemma AttemptAdmits(t: Transport, purpose: Purpose, p: Payload, attempts: nat, auth: seq<bool>)
    requires t.saturated && Sequence(p) > 0 ==> HasRecovery(t, p.session)
    ensures Admitted(Attempt(t, purpose, p, attempts, auth))
  {
    hide GiveUp, Size;
  }

  lemma StartRetryLoses(t: Transport, purpose: Purpose, p: Payload, auth: seq<bool>)
    requires Retains(t.exact, p)
    ensures var r := StartRetry(t, purpose, p, auth);
      LosesLive(t, None, r) && Admitted(r) && r.log.accepted == t.log.accepted
  {
    hide Attempt, LosesLive, Live;
    var a := t.(attempted := t.attempted + {p.session}, log := t.log.(retried := t.log.retried + [p.session]));
    AttemptLoses(a, purpose, p, 0, auth);
    AttemptAdmits(a, purpose, p, 0, auth);
    LosesNothing(t, None, a);
    RetainedIsLive(t, a, p);
    LosesAfter(t, None, a, Some(p), Attempt(a, purpose, p, 0, auth));
  }

  lemma RetainedIsLive(t: Transport, a: Transport, p: Payload)
    requires Retains(t.exact, p) && a.exact == t.exact && a.queue == t.queue
    ensures forall s, q :: Live(a, Some(p), s, q) ==> Live(t, None, s, q)
  {
  }

  lemma StartFreshLoses(t: Transport, next: Queued, auth: seq<bool>)
    requires !Refused(t, next.payload)
    ensures var r := StartFresh(t, next, auth);
      LosesLive(t, Some(next.payload), r) && Admitted(r) && r.log.accepted == t.log.accepted
  {
    hide Attempt;
    var p := PrepareResync(t, next.payload);
    assert p.session == next.payload.session && Sequence(p) == Sequence(next.payload);
    AttemptLoses(t, Fresh(next), p, 0, auth);
    AttemptAdmits(t, Fresh(next), p, 0, auth);
    assert forall s :: InHand(Some(p), s) == InHand(Some(next.payload), s);
  }

  /** Whatever comes off the queue was live. */
  lemma PoppedIsLive(t: Transport, hand: Option<Payload>)
    requires t.queue != []
    ensures var t1 := t.(queue := t.queue[1..], drain := Idle);
      && (forall s, q :: Live(t1, Some(t.queue[0].payload), s, q) ==> Live(t, hand, s, q))
      && (forall s, q :: Live(t1, None, s, q) ==> Live(t, hand, s, q))
      && LosesLive(t, hand, t1)
  {
    hide Of;
    var t1 := t.(queue := t.queue[1..], drain := Idle);
    assert t1.queue == t.queue[1..];
    LosesNothing(t, hand, t1);
  }

  ghost predicate PumpsOn(t: Transport, hand: Option<Payload>, r: Transport) {
    LosesLive(t, hand, r) && Admitted(r) && r.log.accepted == t.log.accepted
  }

  lemma PumpsAfter(t: Transport, hand: Option<Payload>, a: Transport, other: Option<Payload>, r: Transport)
    requires LosesLive(t, hand, a) && a.log.accepted == t.log.accepted && PumpsOn(a, other, r)
    requires forall s, q :: Live(a, other, s, q) ==> Live(t, hand, s, q)
    ensures PumpsOn(t, hand, r)
  {
    hide LosesLive, Live;
    LosesAfter(t, hand, a, other, r);
  }

  lemma {:induction false} PumpLoses(t: Transport, auth: seq<bool>)
    requires Keyed(t.exact)
    ensures PumpsOn(t, None, Pump(t, auth))
    decreases |t.queue|
  {
    hide Skip, StartRetry, StartFresh, Refused, LosesLive, Live, Admitted;
    if t.queue == [] {
      LosesNothing(t, None, t.(drain := Idle));
      NotBusy(t.(drain := Idle));
    } else {
      var next, t1 := t.queue[0], t.(queue := t.queue[1..], drain := Idle);
      PoppedIsLive(t, None);
      var a := Skip(t1, next);
      SkipLoses(t1, next);
      SkipAccepts(t1, next);
      LosesAfter(t, None, t1, Some(next.payload), a);
      LiveSame(t1, a, None);
      if !Current(auth) || Refused(t1, next.payload) ||
         (next.payload.session in t1.exact && next.payload.session in t1.attempted) {
        PumpLoses(a, Later(auth));
        PumpsAfter(t, None, a, None, Pump(a, Later(auth)));
      } else if next.payload.session in t1.exact {
        StartRetryLoses(t1, Ahead(next), t1.exact[next.payload.session], Later(auth));
        PumpsAfter(t, None, t1, None, Pump(t, auth));
      } else {
        StartFreshLoses(t1, next, Later(auth));
        PumpsAfter(t, None, t1, Some(next.payload), Pump(t, auth));
      }
    }
  }

  lemma NotBusy(t: Transport)
    requires !t.drain.Busy?
    ensures Admitted(t)
  {
  }

  lemma SkipAccepts(t: Transport, next: Queued)
    ensures Skip(t, next).log.accepted == t.log.accepted
  {
  }

  lemma ContinueLoses(t: Transport, next: Queued, auth: seq<bool>)
    requires Keyed(t.exact)
    ensures PumpsOn(t, Some(next.payload), ContinueWith(t, next, auth))
    ensures PumpsOn(t, Some(next.payload), Pump(Skip(t, next), auth))
  {
    hide Skip, StartFresh, Refused, LosesLive, Live, Admitted, Pump;
    var a := Skip(t, next);
    SkipLoses(t, next);
    SkipAccepts(t, next);
    PumpLoses(a, auth);
    HandMayHelp(t, a, next.payload);
    PumpsAfter(t, Some(next.payload), a, None, Pump(a, auth));
    if !Refused(t, next.payload) { StartFreshLoses(t, next, auth); }
  }

  lemma HandMayHelp(t: Transport, a: Transport, p: Payload)
    requires a.queue == t.queue && a.exact == t.exact
    ensures forall s, q :: Live(a, None, s, q) ==> Live(t, Some(p), s, q)
  {
  }

  /** Accepting a body, retained or not, loses nothing and brings nothing to life. */
  lemma AcceptLoses(t: Transport, hand: Option<Payload>, p: Payload)
    ensures LosesLive(t, hand, Accept(t, p)) && LosesLive(t, hand, Accept(t.(exact := t.exact - {p.session}), p))
    ensures forall s, q :: Live(Accept(t, p), hand, s, q) ==> Live(t, hand, s, q)
    ensures forall s, q :: Live(Accept(t.(exact := t.exact - {p.session}), p), hand, s, q) ==> Live(t, hand, s, q)
  {
  }

  /** What the drain loop goes on with after a delivery of `p` ended. */
  predicate Took(t: Transport, p: Payload, outcome: Outcome, r: Transport) {
    r.log.accepted == if outcome == Delivered then t.log.accepted + [p] else t.log.accepted
  }

  lemma AfterDeliveryLoses(t: Transport, purpose: Purpose, p: Payload, outcome: Outcome, auth: seq<bool>)
    requires Keyed(t.exact) && t.drain == Idle && Holds(t.exact, t.attempted, purpose, p, Returned(outcome))
    ensures var r := AfterDelivery(t, purpose, p, outcome, auth);
      && LosesLive(t, if purpose.Ahead? then Some(purpose.next.payload) else None, r)
      && Admitted(r) && Took(t, p, outcome, r)
  {
    hide Pump, Skip, StartFresh, StartRetry, Refused, LosesLive, Live, Admitted, ContinueWith;
    match purpose {
      case Fresh(next) =>
        AcceptLoses(t, None, p);
        var t1 := if outcome == Delivered then Accept(t, p) else t;
        LosesNothing(t, None, t);
        var a := Resolve(t1, next.id, outcome == Delivered);
        LosesNothing(t1, None, a);
        LiveSame(t1, a, None);
        LosesAfter(t, None, t1, None, a);
        PumpLoses(a, auth);
        LosesAfter(t, None, a, None, Pump(a, auth));
      case Ahead(next) =>
        var hand := Some(next.payload);
        AcceptLoses(t, hand, p);
        LosesNothing(t, hand, t);
        var t1 := if outcome == Delivered then Accept(t.(exact := t.exact - {p.session}), p) else t;
        ContinueLoses(t1, next, auth);
        ContinueLoses(t1, next, Later(auth));
        var r := AfterAhead(t, next, p, outcome, auth);
        LosesAfter(t, hand, t1, hand, r);
      case IdleRetry(rest) =>
        AcceptLoses(t, None, p);
        LosesNothing(t, None, t);
        var t1 := if outcome == Delivered then Accept(t.(exact := t.exact - {p.session}), p) else t;
        PumpLoses(t1, auth);
        if rest != [] {
          RestRetained(t, t1, p, rest);
          StartRetryLoses(t1, IdleRetry(rest[1..]), rest[0], auth);
        }
        LosesAfter(t, None, t1, None, AfterIdleRetry(t, rest, p, outcome, auth));
    }
  }

  lemma RestRetained(t: Transport, t1: Transport, p: Payload, rest: seq<Payload>)
    requires rest != [] && HoldsRest(t.exact, t.attempted, p, rest)
    requires t1.exact == t.exact || t1.exact == t.exact - {p.session}
    ensures Retains(t1.exact, rest[0])
  {
    assert Retains(t.exact, rest[0]) && rest[0].session != p.session;
  }

  lemma {:induction false} EvictLoses(t: Transport, hand: Option<Payload>)
    ensures LosesLive(t, hand, Evict(t))
    ensures forall s, q :: Live(Evict(t), hand, s, q) ==> Live(t, hand, s, q)
    decreases |t.queue|
  {
    hide Skip, LosesLive, Live;
    LosesNothing(t, hand, t);
    if |t.queue| >= t.limits.maxQueued && t.queue != [] {
      var a := AsOverflow(DropOldest(t));
      OldestLoses(t, hand);
      EvictLoses(a, hand);
      LosesAfter(t, hand, a, hand, Evict(a));
    }
  }

  function DropOldest(t: Transport): Transport
    requires t.queue != []
  {
    Skip(t.(queue := t.queue[1..]), t.queue[0])
  }

  lemma OldestLoses(t: Transport, hand: Option<Payload>)
    requires t.queue != []
    ensures var a := DropOldest(t); var b := AsOverflow(a);
      && LosesLive(t, hand, a) && LosesLive(t, hand, b)
      && |a.queue| < |t.queue| && |b.queue| < |t.queue|
      && (forall s, q :: Live(a, hand, s, q) ==> Live(t, hand, s, q))
      && (forall s, q :: Live(b, hand, s, q) ==> Live(t, hand, s, q))
  {
    hide Skip, LosesLive;
    var next, t1 := t.queue[0], t.(queue := t.queue[1..]);
    var a := Skip(t1, next);
    SkipLoses(t1, next);
    LosesNothing(t, hand, t1);
    QueueShrinks(t, t1, hand);
    LosesAfter(t, hand, t1, Some(next.payload), a);
    LiveSame(t1, a, hand);
    LosesNothing(a, hand, AsOverflow(a));
    LiveSame(a, AsOverflow(a), hand);
    LosesAfter(t, hand, a, hand, AsOverflow(a));
  }

  lemma QueueShrinks(t: Transport, t1: Transport, hand: Option<Payload>)
    requires t.queue != [] && t1 == t.(queue := t.queue[1..])
    ensures forall s, q :: Live(t1, Some(t.queue[0].payload), s, q) ==> Live(t, hand, s, q)
    ensures forall s, q :: Live(t1, hand, s, q) ==> Live(t, hand, s, q)
  {
    hide Of;
  }

  lemma {:induction false} AbandonLoses(t: Transport, hand: Option<Payload>)
    ensures LosesLive(t, hand, Abandon(t))
    decreases |t.queue|
  {
    hide Skip, LosesLive, Live;
    LosesNothing(t, hand, t);
    if t.queue != [] {
      var a := DropOldest(t);
      OldestLoses(t, hand);
      AbandonLoses(a, hand);
      LosesAfter(t, hand, a, hand, Abandon(a));
    }
  }

  // ---- what a step does to the ledger's edges ---------------------------------------------

  /** The sequence of a session that a delivery not yet dropped may still bring in. */
  function InFlight(t: Transport, session: string): int {
    if t.drain.Busy? && t.drain.delivery.at != Returned(Dropped) && t.drain.delivery.payload.session == session
    then Sequence(t.drain.delivery.payload) else 0
  }

  /** Nothing acknowledged or in flight is beyond `q`. */
  ghost predicate Leads(t: Transport, session: string, q: int) {
    || Acknowledged(t.log.accepted, session, q)
    || (Top(t.log.accepted, session) < q && InFlight(t, session) <= q)
  }

  /** An untracked loss does no harm: it is acknowledged after all, or its session is shut out before it. */
  ghost predicate Harmless(t: Transport, session: string, q: int) {
    || Acknowledged(t.log.accepted, session, q)
    || (t.saturated && !HasRecovery(t, session) && Top(t.log.accepted, session) < q && InFlight(t, session) <= q)
  }

  predicate AcceptsInFlight(t: Transport, r: Transport) {
    || r.log.accepted == t.log.accepted
    || (t.drain.Busy? && t.drain.delivery.at == Returned(Delivered)
        && r.log.accepted == t.log.accepted + [t.drain.delivery.payload])
  }

  /** A step accepts only what was in flight, and brings into flight only what the ledger admits. */
  ghost predicate Moves(t: Transport, r: Transport) {
    Sticky(t, r) && AcceptsInFlight(t, r) && ((forall s :: InFlight(r, s) <= InFlight(t, s)) || Admitted(r))
  }

  lemma AcknowledgedAppend(accepted: seq<Payload>, p: Payload, session: string, q: int)
    ensures Acknowledged(accepted + [p], session, q) <==> Acknowledged(accepted, session, q) || Carries(p, session, q)
  {
    LastOrBefore(accepted + [p], session, q);
    assert (accepted + [p])[..|accepted|] == accepted;
  }

  lemma {:induction false} TopAcknowledged(accepted: seq<Payload>, session: string)
    requires Top(accepted, session) > 0
    ensures Acknowledged(accepted, session, Top(accepted, session))
  {
    var p := accepted[|accepted| - 1];
    LastOrBefore(accepted, session, Top(accepted, session));
    if !(p.session == session && Sequence(p) > 0) { TopAcknowledged(accepted[..|accepted| - 1], session); }
  }

  lemma LeadsOn(t: Transport, r: Transport, session: string, q: int)
    requires Leads(t, session, q) && Moves(t, r) && r.saturated && !HasRecovery(r, session)
    ensures Harmless(r, session, q)
  {
    hide Acknowledged, Carries, Sticky;
    if r.log.accepted != t.log.accepted {
      var p := t.drain.delivery.payload;
      AcknowledgedAppend(t.log.accepted, p, session, q);
      TopAppend(t.log.accepted, p, session);
      assert Sequence(p) == q && p.session == session ==> Carries(p, session, q) by { CarriesIs(p, session, q); }
    }
  }

  lemma CarriesIs(p: Payload, session: string, q: int)
    ensures Carries(p, session, q) <==> p.session == session && Sequence(p) == q
  {
  }

  lemma HarmlessOn(t: Transport, r: Transport, session: string, q: int)
    requires Harmless(t, session, q) && Moves(t, r)
    ensures Harmless(r, session, q)
  {
    hide Acknowledged;
    if Acknowledged(t.log.accepted, session, q) {
      if r.log.accepted != t.log.accepted { AcknowledgedAppend(t.log.accepted, t.drain.delivery.payload, session, q); }
    } else {
      assert HasRecovery(r, session) <==> session in RecoverySessions(r);
      LeadsOn(t, r, session, q);
    }
  }

  /** The body in flight is first in its session's line. */
  lemma InFlightFirst(t: Transport, session: string)
    requires Shape(t) && InFlight(t, session) > 0
    ensures Line(t, session, HandNow(t)) != [] && Line(t, session, HandNow(t))[0] == InFlight(t, session)
  {
    hide Core, HoldsRest, Waiting;
  }

  lemma LineIsLive(t: Transport, hand: Option<Payload>, session: string, q: int)
    ensures Live(t, hand, session, q) <==> q in Line(t, session, hand)
  {
  }

  /** What is live leads its session. */
  lemma LiveLeads(t: Transport, session: string, q: int)
    requires Shape(t) && Sound(t, session) && Live(t, HandNow(t), session, q)
    ensures Leads(t, session, q)
  {
    hide Shape, Line, Waiting, Kept, HandNow, Acknowledged;
    SoundIsLedger(t, session);
    var v, line := ViewOf(t, session), Line(t, session, HandNow(t));
    LineIsLive(t, HandNow(t), session, q);
    if InFlight(t, session) > 0 { InFlightFirst(t, session); }
    LedgerLeads(v, line, q);
    if v.top == q { TopAcknowledged(t.log.accepted, session); }
  }

  lemma LedgerLeads(v: View, line: seq<int>, q: int)
    requires Lawful(v, line) && q in line
    ensures 1 <= q && v.top <= q && line[0] <= q
  {
    var i :| 0 <= i < |line| && line[i] == q;
    assert Below(v, v.top, line[i]);
    if i > 0 { assert Below(v, line[0], line[i]); }
  }

  /** A drain sent in order leads its session as well. */
  lemma SentLeads(t: Transport, p: Payload)
    requires Shape(t) && Sound(t, p.session) && Sequence(p) > 0 && Sent(t, p.session) <= Sequence(p)
    ensures Leads(t, p.session, Sequence(p))
  {
    hide Shape, Line, Waiting, Kept, HandNow, Acknowledged;
    var session, q := p.session, Sequence(p);
    SoundIsLedger(t, session);
    var v, line := ViewOf(t, session), Line(t, session, HandNow(t));
    if InFlight(t, session) > 0 {
      InFlightFirst(t, session);
      LedgerSent(v, line);
    }
    if v.top == q { TopAcknowledged(t.log.accepted, session); }
  }

  lemma LedgerSent(v: View, line: seq<int>)
    requires Lawful(v, line) && line != []
    ensures line[0] <= v.sent
  {
  }

  // ---- every step -------------------------------------------------------------------------

  /** Every loss the ledger missed belongs to a session shut out, behind what that session may still bring in. */
  ghost predicate LosesHarmlessly(t: Transport, r: Transport) {
    && Moves(t, r)
    && forall s, q :: (s, q) in r.log.untracked && (s, q) !in t.log.untracked ==>
         Leads(t, s, q) && r.saturated && !HasRecovery(r, s)
  }

  ghost predicate AllSound(t: Transport) {
    forall session :: Sound(t, session)
  }

  lemma LiveHarmless(t: Transport, hand: Option<Payload>, r: Transport)
    requires Shape(t) && AllSound(t) && LosesLive(t, hand, r) && Moves(t, r)
    requires forall s, q :: Live(t, hand, s, q) ==> Leads(t, s, q)
    ensures LosesHarmlessly(t, r)
  {
    hide Shape, Sound, Live, Leads, Moves;
  }

  lemma AllLiveLeads(t: Transport)
    requires Shape(t) && AllSound(t)
    ensures forall s, q :: Live(t, HandNow(t), s, q) ==> Leads(t, s, q)
  {
    hide Shape, Sound, Live, Leads, HandNow;
    forall s, q | Live(t, HandNow(t), s, q) ensures Leads(t, s, q) {
      assert Sound(t, s);
      LiveLeads(t, s, q);
    }
  }

  /** A drain sent in order, and whatever is live with an empty hand, leads its session. */
  lemma SentAndLiveLead(t: Transport, p: Payload)
    requires Shape(t) && AllSound(t) && (Sequence(p) > 0 ==> Sent(t, p.session) <= Sequence(p))
    ensures forall s, q :: Live(t, Some(p), s, q) ==> Leads(t, s, q)
  {
    AllLiveLeads(t);
    forall s, q | Live(t, Some(p), s, q) ensures Leads(t, s, q) {
      if !Live(t, HandNow(t), s, q) {
        InHandIs(t, p, s, q);
        assert Sound(t, s);
        hide Shape, Sound, Live, Leads;
        SentLeads(t, p);
      }
    }
  }

  lemma InHandIs(t: Transport, p: Payload, s: string, q: int)
    requires Live(t, Some(p), s, q) && !Live(t, HandNow(t), s, q)
    ensures p.session == s && Sequence(p) == q > 0
  {
    hide HandNow, Kept, Waiting;
  }

  /** The body being delivered is the hand's, or the retained request. */
  lemma BodyIsLive(t: Transport)
    requires Shape(t) && t.drain.Busy? && !t.drain.delivery.at.Returned?
    ensures forall s, q :: Live(t, Some(t.drain.delivery.payload), s, q) ==> Live(t, HandNow(t), s, q)
  {
    hide Core, HoldsRest;
  }

  lemma ResumeWaits(t: Transport, answer: Answer, auth: seq<bool>)
    requires Shape(t) && t.drain.Busy? && !t.drain.delivery.at.Returned?
    ensures LosesLive(t, Some(t.drain.delivery.payload), Resume(t, answer, auth))
    ensures Moves(t, Resume(t, answer, auth))
  {
    hide Shape, LosesLive, Fail, BlockForAuth, Attempt;
    var purpose, d := t.drain.purpose, t.drain.delivery;
    FailLoses(t, purpose, d.payload, d.attempts, answer != Permanent);
    BodyKept(t, purpose, d.payload, d.attempts, answer != Permanent, auth);
    AttemptLoses(t, purpose, d.payload, d.attempts, auth);
    LosesNothing(t, Some(d.payload), t);
    LosesNothing(t, Some(d.payload), Suspend(t, purpose, d.payload, d.attempts, AwaitBody));
    LosesNothing(t, Some(d.payload), Suspend(t, purpose, d.payload, d.attempts, AwaitSleep));
    LosesNothing(t, Some(d.payload), Suspend(t, purpose, d.payload, d.attempts, AwaitObserver));
    LosesNothing(t, Some(d.payload), Suspend(t, purpose, d.payload, d.attempts, Returned(Delivered)));
    StickyLoses(t, Some(d.payload), Resume(t, answer, auth));
  }

  lemma StickyLoses(t: Transport, hand: Option<Payload>, r: Transport)
    requires LosesLive(t, hand, r)
    ensures Sticky(t, r)
  {
  }

  lemma BodyKept(t: Transport, purpose: Purpose, p: Payload, attempts: nat, retryable: bool, auth: seq<bool>)
    ensures var r := Fail(t, purpose, p, attempts, retryable);
      r.drain.Busy? && r.drain.delivery.payload == p && r.log.accepted == t.log.accepted
    ensures var r := BlockForAuth(t, purpose, p, attempts);
      r.drain.Busy? && r.drain.delivery.payload == p && r.log.accepted == t.log.accepted
    ensures var r := Attempt(t, purpose, p, attempts, auth);
      r.drain.Busy? && r.drain.delivery.payload == p && r.log.accepted == t.log.accepted
  {
    hide RetainExactRetry, GiveUp;
    RetainBody(t, purpose, p, attempts);
  }

  lemma RetainBody(t: Transport, purpose: Purpose, p: Payload, attempts: nat)
    ensures var r := RetainExactRetry(t, purpose, p, attempts);
      r.drain.Busy? && r.drain.delivery.payload == p && r.log.accepted == t.log.accepted
  {
    hide GiveUp, CanRemember, Keeps;
  }

  lemma ResumeHarmless(t: Transport, answer: Answer, auth: seq<bool>)
    requires Shape(t) && AllSound(t)
    ensures LosesHarmlessly(t, Resume(t, answer, auth))
  {
    hide Shape, AllSound, LosesLive, Live, Leads, AfterDelivery, Admitted;
    AllLiveLeads(t);
    if !t.drain.Busy? {
      StaysHarmless(t);
    } else if t.drain.delivery.at.Returned? {
      var purpose, d := t.drain.purpose, t.drain.delivery;
      var a := t.(drain := Idle);
      HoldsNow(t);
      AfterDeliveryLoses(a, purpose, d.payload, d.at.outcome, auth);
      var hand := if purpose.Ahead? then Some(purpose.next.payload) else None;
      LosesNothing(t, hand, a);
      LiveSame(t, a, hand);
      LosesAfter(t, hand, a, hand, Resume(t, answer, auth));
      HandHelps(t);
      StickyLoses(t, hand, Resume(t, answer, auth));
      LiveHarmless(t, hand, Resume(t, answer, auth));
    } else {
      ResumeWaits(t, answer, auth);
      BodyIsLive(t);
      LiveHarmless(t, Some(t.drain.delivery.payload), Resume(t, answer, auth));
    }
  }

  lemma HoldsNow(t: Transport)
    requires Shape(t) && t.drain.Busy?
    ensures Keyed(t.exact) && Holds(t.exact, t.attempted, t.drain.purpose, t.drain.delivery.payload,
        t.drain.delivery.at)
  {
  }

  lemma HandHelps(t: Transport)
    requires t.drain.Busy?
    ensures var hand := if t.drain.purpose.Ahead? then Some(t.drain.purpose.next.payload) else None;
      forall s, q :: Live(t, hand, s, q) ==> Live(t, HandNow(t), s, q)
  {
  }

  lemma StaysHarmless(t: Transport)
    ensures LosesHarmlessly(t, t)
  {
  }

  lemma FlushHarmless(t: Transport, order: seq<string>, auth: seq<bool>)
    requires Shape(t) && AllSound(t)
    ensures LosesHarmlessly(t, Flush(t, order, auth))
  {
    hide Shape, AllSound, LosesLive, Live, Leads, StartRetry, Admitted, Requests, Enumerates;
    StaysHarmless(t);
    if t.drain == Idle && t.exact != map[] && t.queue == [] && Enumerates(order, t.exact.Keys) {
      EnumerationIndexes(order, t.exact.Keys);
      var requests := Requests(t.exact, order);
      var a := t.(attempted := {}, log := t.log.(retried := []));
      RequestRetained(t, order);
      AllLiveLeads(t);
      StartRetryLoses(a, IdleRetry(requests[1..]), requests[0], auth);
      LosesNothing(t, None, a);
      LiveSame(t, a, None);
      LosesAfter(t, None, a, None, Flush(t, order, auth));
      StickyLoses(t, None, Flush(t, order, auth));
      LiveHarmless(t, None, Flush(t, order, auth));
    }
  }

  lemma RequestRetained(t: Transport, order: seq<string>)
    requires Shape(t) && order != [] && forall i | 0 <= i < |order| :: order[i] in t.exact
    ensures Retains(t.exact, Requests(t.exact, order)[0])
  {
    hide Holds;
  }

  lemma StopHarmless(t: Transport)
    requires Shape(t) && AllSound(t)
    ensures LosesHarmlessly(t, Stop(t))
  {
    hide Shape, AllSound, LosesLive, Live, Leads, Admitted, HandNow;
    StaysHarmless(t);
    if !t.stopped {
      var a := t.(stopped := true);
      var hand := HandNow(t);
      AllLiveLeads(t);
      AbandonLoses(a, hand);
      LosesNothing(t, hand, a);
      LiveSame(t, a, hand);
      LosesAfter(t, hand, a, hand, Stop(t));
      StickyLoses(t, hand, Stop(t));
      LiveHarmless(t, hand, Stop(t));
    }
  }

  // ---- sends, and every run ---------------------------------------------------------------

  /** `send` refuses the payload because the authorization context is not its own. */
  predicate Mismatches(t: Transport, input: Input) {
    input.Sending? && !t.stopped && !Current(input.auth) && Sequence(input.payload) > 0
  }

  lemma NoteSentLoses(t: Transport, p: Payload, hand: Option<Payload>)
    ensures LosesLive(t, hand, NoteSent(t, p))
    ensures NoteSent(t, p).queue == t.queue && NoteSent(t, p).exact == t.exact && NoteSent(t, p).drain == t.drain
    ensures NoteSent(t, p).log.accepted == t.log.accepted
  {
  }

  lemma RejectLoses(t: Transport, p: Payload)
    ensures LosesLive(t, Some(p), Reject(t, p, true))
    ensures Moves(t, Reject(t, p, true)) && Moves(t, Reject(t, p, false))
    ensures forall x <- Reject(t, p, false).log.untracked ::
      x in t.log.untracked || (x == (p.session, Sequence(p)) && Sequence(p) > 0)
  {
    hide NoteSent, GiveUp, LosesLive, Live;
    var a := NoteSent(t, p);
    NoteSentLoses(t, p, Some(p));
    LiveSame(t, a, Some(p));
    GiveUpLoses(a, p);
    var b := GiveUp(a, p, true);
    assert b.queue == a.queue && b.exact == a.exact;
    LiveSame(a, b, Some(p));
    LosesNothing(b, Some(p), Reject(t, p, true));
    LosesAfter(a, Some(p), b, Some(p), Reject(t, p, true));
    LosesAfter(t, Some(p), a, Some(p), Reject(t, p, true));
    StickyLoses(t, Some(p), Reject(t, p, true));
    RejectUntracked(t, p);
  }

  lemma RejectUntracked(t: Transport, p: Payload)
    ensures var r := Reject(t, p, false);
      && Sticky(t, r) && r.log.accepted == t.log.accepted && r.drain == t.drain
      && r.log.untracked == t.log.untracked + if Sequence(p) > 0 then {(p.session, Sequence(p))} else {}
  {
    assert RecoverySessions(Reject(t, p, false)) == RecoverySessions(t);
  }

  lemma EnqueueLoses(t: Transport, p: Payload, hand: Option<Payload>)
    ensures var r := Enqueue(t, p);
      && LosesLive(t, hand, r) && r.log.accepted == t.log.accepted && r.drain == t.drain && r.exact == t.exact
      && forall s, q :: Live(r, None, s, q) ==> Live(t, Some(p), s, q)
  {
    hide NoteSent, Evict, LosesLive;
    var a := NoteSent(t, p);
    var b := Evict(a);
    NoteSentLoses(t, p, hand);
    LiveSame(t, a, hand);
    LiveSame(t, a, None);
    EvictLoses(a, hand);
    EvictLoses(a, None);
    LosesAfter(t, hand, a, hand, b);
    LosesNothing(b, hand, Enqueue(t, p));
    NoneNew(b, hand);
    LosesAfter(t, hand, b, hand, Enqueue(t, p));
    forall s, q | Live(Enqueue(t, p), None, s, q) ensures Live(t, Some(p), s, q) {
      WaitingAppend(b.queue, Queued(t.log.issued, p), s);
      if q !in Of(s, p) {
        assert Live(b, None, s, q);
        assert Live(a, None, s, q);
        assert Live(t, None, s, q);
      }
    }
  }

  lemma NoneNew(t: Transport, hand: Option<Payload>)
    ensures forall s, q :: Live(t, hand, s, q) ==> Live(t, hand, s, q)
  {
  }

  lemma SendHarmless(t: Transport, p: Payload, serializable: bool, auth: seq<bool>)
    requires Shape(t) && AllSound(t) && (Sequence(p) > 0 ==> Sent(t, p.session) <= Sequence(p))
    requires t.stopped || Current(auth)
    ensures LosesHarmlessly(t, Send(t, p, serializable, auth))
  {
    hide Shape, AllSound, LosesLive, Live, Leads, Admitted, HandNow, Enqueue, Pump, Reject, Refused;
    var r := Send(t, p, serializable, auth);
    if t.stopped || Refused(t, p) || !serializable {
      RejectLoses(t, p);
      SentAndLiveLead(t, p);
      LiveHarmless(t, Some(p), r);
    } else if t.drain == Idle {
      EnqueueLoses(t, p, Some(p));
      var a := Enqueue(t, p);
      var b := a.(attempted := {}, log := a.log.(retried := []));
      LosesNothing(a, None, b);
      LiveSame(a, b, None);
      KeyedNow(t);
      PumpLoses(b, Later(auth));
      LosesAfter(a, None, b, None, Pump(b, Later(auth)));
      var pumped := Pump(b, Later(auth));
      NotBusy(pumped.(drain := Stuck));
      LosesSame(b, None, pumped, r);
      LosesAfter(a, None, b, None, r);
      LosesAfter(t, Some(p), a, None, r);
      StickyLoses(t, Some(p), r);
      SentAndLiveLead(t, p);
      LiveHarmless(t, Some(p), r);
    } else {
      EnqueueLoses(t, p, HandNow(t));
      StickyLoses(t, HandNow(t), r);
      AllLiveLeads(t);
      LiveHarmless(t, HandNow(t), r);
    }
  }

  lemma KeyedNow(t: Transport)
    requires Shape(t)
    ensures Keyed(t.exact)
  {
  }

  lemma LosesSame(t: Transport, hand: Option<Payload>, a: Transport, r: Transport)
    requires LosesLive(t, hand, a) && r == a.(drain := r.drain)
    ensures LosesLive(t, hand, r)
  {
  }

  /** The sequences that sends of the run lost to a mismatched authorization context. */
  function Mismatched(limits: Limits, inputs: seq<Input>): set<(string, int)> {
    if inputs == [] then {}
    else
      var before, input := inputs[..|inputs| - 1], inputs[|inputs| - 1];
      Mismatched(limits, before)
      + if Mismatches(Run(limits, before), input) then {(input.payload.session, Sequence(input.payload))} else {}
  }

  ghost predicate AllHarmless(t: Transport, excused: set<(string, int)>) {
    forall s, q :: (s, q) in t.log.untracked ==> (s, q) in excused || Harmless(t, s, q)
  }

  lemma HarmlesslyOn(t: Transport, r: Transport, excused: set<(string, int)>)
    requires AllHarmless(t, excused) && LosesHarmlessly(t, r)
    ensures AllHarmless(r, excused)
  {
    hide Harmless, Leads, Moves;
    forall s, q | (s, q) in r.log.untracked && (s, q) !in excused ensures Harmless(r, s, q) {
      if (s, q) in t.log.untracked { HarmlessOn(t, r, s, q); } else { LeadsOn(t, r, s, q); }
    }
  }

  lemma MismatchHarmless(t: Transport, p: Payload, serializable: bool, auth: seq<bool>, excused: set<(string, int)>)
    requires AllHarmless(t, excused) && !t.stopped && !Current(auth)
    ensures AllHarmless(Send(t, p, serializable, auth),
      excused + if Sequence(p) > 0 then {(p.session, Sequence(p))} else {})
  {
    hide Harmless, Moves, Reject;
    var r := Send(t, p, serializable, auth);
    RejectLoses(t, p);
    forall s, q | (s, q) in r.log.untracked && (s, q) in t.log.untracked && (s, q) !in excused
      ensures Harmless(r, s, q)
    {
      HarmlessOn(t, r, s, q);
    }
  }

  lemma StepHarmless(t: Transport, input: Input)
    requires Shape(t) && AllSound(t) && Disciplined(t, input)
    requires !(input.Sending? && !t.stopped && !Current(input.auth))
    ensures LosesHarmlessly(t, Step(t, input))
  {
    hide Shape, AllSound, LosesHarmlessly, Send, Resume, Flush, Stop;
    match input
    case Sending(p, serializable, auth) => SendHarmless(t, p, serializable, auth);
    case Resuming(answer, auth) => ResumeHarmless(t, answer, auth);
    case Flushing(order, auth) => FlushHarmless(t, order, auth);
    case Stopping => StopHarmless(t);
  }

  lemma {:induction false} RunHarmless(limits: Limits, inputs: seq<Input>)
    requires limits.Positive() && DisciplinedRun(limits, inputs)
    ensures AllHarmless(Run(limits, inputs), Mismatched(limits, inputs))
  {
    hide Shape, AllSound, AllHarmless, LosesHarmlessly, Send, Resume, Flush, Stop, Disciplined;
    if inputs == [] {
      NothingLost(limits);
    } else {
      var before, input := inputs[..|inputs| - 1], inputs[|inputs| - 1];
      var t := Run(limits, before);
      RunHarmless(limits, before);
      RunKeeps(limits, before);
      RunAllSound(limits, before);
      if input.Sending? && !t.stopped && !Current(input.auth) {
        MismatchHarmless(t, input.payload, input.serializable, input.auth, Mismatched(limits, before));
        assert Mismatches(t, input) <==> Sequence(input.payload) > 0;
      } else {
        StepHarmless(t, input);
        HarmlesslyOn(t, Step(t, input), Mismatched(limits, before));
        assert Mismatched(limits, inputs) == Mismatched(limits, before) + {};
        assert Mismatched(limits, before) + {} == Mismatched(limits, before);
      }
    }
  }

  lemma NothingLost(limits: Limits)
    ensures AllHarmless(Init(limits), {})
  {
  }

  lemma RunAllSound(limits: Limits, inputs: seq<Input>)
    requires limits.Positive() && DisciplinedRun(limits, inputs)
    ensures AllSound(Run(limits, inputs))
  {
    hide Sound, Run, DisciplinedRun;
    forall session ensures Sound(Run(limits, inputs), session) { RunSound(limits, inputs, session); }
  }

  /** How often the run sends a sequence. */
  function Copies(inputs: seq<Input>, session: string, q: int): nat {
    if inputs == [] then 0
    else
      var last := inputs[|inputs| - 1];
      Copies(inputs[..|inputs| - 1], session, q) + if last.Sending? && Carries(last.payload, session, q) then 1 else 0
  }

  /** A sequence is sent when it is the newest; only the last one of a session is ever repeated. */
  lemma {:induction false} CopiesKnown(limits: Limits, inputs: seq<Input>, session: string, q: int)
    requires DisciplinedRun(limits, inputs) && 1 <= q
    ensures var t := Run(limits, inputs);
      && (Copies(inputs, session, q) >= 1 ==> q <= Sent(t, session))
      && (Copies(inputs, session, q) >= 2 ==> Sent(t, session) == q && session in t.log.replayed)
  {
    hide Step;
    if inputs != [] {
      var before, input := inputs[..|inputs| - 1], inputs[|inputs| - 1];
      CopiesKnown(limits, before, session, q);
      StepSent(Run(limits, before), input);
    }
  }

  /** The sequence was sent once, and that `send` refused it because the authorization context was not its own. */
  predicate LostAtSend(limits: Limits, inputs: seq<Input>, session: string, q: int) {
    Copies(inputs, session, q) == 1 && (session, q) in Mismatched(limits, inputs)
  }

  lemma {:induction false} MismatchedWasSent(limits: Limits, inputs: seq<Input>, session: string, q: int)
    requires (session, q) in Mismatched(limits, inputs)
    ensures Copies(inputs, session, q) >= 1
  {
    hide Run;
    if inputs != [] {
      var before := inputs[..|inputs| - 1];
      if (session, q) in Mismatched(limits, before) { MismatchedWasSent(limits, before, session, q); }
    }
  }

  /** An unexplained loss below the newest acknowledged sequence of its session was lost at its only send. */
  lemma UntrackedExplained(limits: Limits, inputs: seq<Input>, session: string, q: int, newest: int)
    requires limits.Positive() && DisciplinedRun(limits, inputs)
        && 1 <= q < newest <= Sent(Run(limits, inputs), session)
    requires !LostAtSend(limits, inputs, session, q) && (session, q) in Run(limits, inputs).log.untracked
    ensures Harmless(Run(limits, inputs), session, q)
  {
    hide Run, Mismatched, Harmless;
    RunHarmless(limits, inputs);
    if (session, q) in Mismatched(limits, inputs) {
      MismatchedWasSent(limits, inputs, session, q);
      CopiesKnown(limits, inputs, session, q);
    }
  }

  lemma TopWasSent(t: Transport, session: string)
    requires Sound(t, session)
    ensures Top(t.log.accepted, session) <= Sent(t, session)
  {
    hide Line, InOrder, Accounted, Ready;
    SoundIsLedger(t, session);
  }

  /**
   In every disciplined run, saturated or not, each sequence up to the newest acknowledged one is
   acknowledged, or declared missing, and never both, unless its only `send` refused it because the
   authorization context was not its own.
   */
  lemma NoSilentLossButMismatch(limits: Limits, inputs: seq<Input>, session: string, q: int)
    requires limits.Positive() && DisciplinedRun(limits, inputs)
    requires 1 <= q <= Top(Run(limits, inputs).log.accepted, session)
    requires !LostAtSend(limits, inputs, session, q)
    ensures var accepted := Run(limits, inputs).log.accepted;
            Acknowledged(accepted, session, q) != DeclaredMissing(accepted, session, q)
  {
    hide Run, Acknowledged, DeclaredMissing, Mismatched, LostAtSend;
    var t := Run(limits, inputs);
    NoSilentLoss(limits, inputs, session, q);
    RunSound(limits, inputs, session);
    TopWasSent(t, session);
    if q == Top(t.log.accepted, session) {
      TopAcknowledged(t.log.accepted, session);
    } else if (session, q) in t.log.untracked {
      UntrackedExplained(limits, inputs, session, q, Top(t.log.accepted, session));
    }
  }

  /** Whether a server that applied the sequences through `applied` takes a drain `q` with this declaration. */
  predicate Takes(applied: int, q: int, resync: Option<Range>) {
    || q == applied + 1
    || (applied + 1 < q && resync.Some? && resync.value.through == q - 1 && resync.value.from <= applied + 1)
  }

  /**
   Each body in flight passes the server's gap rule, whether the server has applied just what was
   acknowledged or also later sequences whose responses were lost, as long as no sequence between the
   acknowledged one and its own was lost at its only `send`. It declares no sequence besides those.
   */
  lemma InFlightIsTaken(limits: Limits, inputs: seq<Input>, applied: int)
    requires limits.Positive() && DisciplinedRun(limits, inputs)
    requires var t := Run(limits, inputs);
             && t.drain.Busy? && !t.drain.delivery.at.Returned?
             && Top(t.log.accepted, t.drain.delivery.payload.session) <= applied < Sequence(t.drain.delivery.payload)
             && forall q |
                  Top(t.log.accepted, t.drain.delivery.payload.session) < q < Sequence(t.drain.delivery.payload) ::
                  !LostAtSend(limits, inputs, t.drain.delivery.payload.session, q)
    ensures var t := Run(limits, inputs);
            var p := t.drain.delivery.payload;
            && Takes(applied, Sequence(p), p.resync)
            && p.resync == Gap(Top(t.log.accepted, p.session), Sequence(p))
  {
    var t := Run(limits, inputs);
    var p := t.drain.delivery.payload;
    var top := Top(t.log.accepted, p.session);
    RunKeeps(limits, inputs);
    RunSound(limits, inputs, p.session);
    BodyReady(t);
    hide Run, LostAtSend, Acknowledged, Ready, Shape, Sound, Carries, HasRecovery, ViewOf;
    forall q | top < q < Sequence(p) ensures (p.session, q) !in t.log.untracked {
      if (p.session, q) in t.log.untracked {
        UntrackedExplained(limits, inputs, p.session, q, Sequence(p));
        if Acknowledged(t.log.accepted, p.session, q) { AcknowledgedWithin(t, p.session, q); }
      }
    }
    ViewIs(t, p.session);
    ReadyIsGap(ViewOf(t, p.session), p);
  }

  /** What was POSTed of a session is never ahead of the body in flight, so neither is what the server applied. */
  lemma PostedIsNotAhead(limits: Limits, inputs: seq<Input>)
    requires limits.Positive() && DisciplinedRun(limits, inputs)
    requires var t := Run(limits, inputs);
             t.drain.Busy? && !t.drain.delivery.at.Returned? && Sequence(t.drain.delivery.payload) > 0
    ensures var t := Run(limits, inputs);
            Top(t.log.posted, t.drain.delivery.payload.session) <= Sequence(t.drain.delivery.payload)
  {
    var t := Run(limits, inputs);
    RunKeeps(limits, inputs);
    RunSound(limits, inputs, t.drain.delivery.payload.session);
    BodyReady(t);
  }

  lemma ViewIs(t: Transport, session: string)
    ensures ViewOf(t, session).top == Top(t.log.accepted, session)
    ensures ViewOf(t, session).session == session && ViewOf(t, session).untracked == t.log.untracked
  {
  }

  lemma BodyReady(t: Transport)
    requires Shape(t) && t.drain.Busy? && !t.drain.delivery.at.Returned?
    requires Sound(t, t.drain.delivery.payload.session) && Sequence(t.drain.delivery.payload) > 0
    ensures var v, q := ViewOf(t, t.drain.delivery.payload.session), Sequence(t.drain.delivery.payload);
      Ready(v, t.drain.delivery.payload) && v.last <= q <= v.sent
  {
    BodyFirst(t);
    hide InOrder, Accounted, Tiled, NeverBack, Core, HoldsRest, Line;
  }

  lemma BodyFirst(t: Transport)
    requires Shape(t) && t.drain.Busy? && !t.drain.delivery.at.Returned?
    requires Sound(t, t.drain.delivery.payload.session) && Sequence(t.drain.delivery.payload) > 0
    ensures var v, q := ViewOf(t, t.drain.delivery.payload.session), Sequence(t.drain.delivery.payload);
      v.last <= q <= v.sent
  {
    hide Shape, Tiled, NeverBack, Line;
    SoundIsLedger(t, t.drain.delivery.payload.session);
    InFlightFirst(t, t.drain.delivery.payload.session);
  }

  lemma AcknowledgedWithin(t: Transport, session: string, q: int)
    requires Sound(t, session) && Acknowledged(t.log.accepted, session, q) && 1 <= q
    ensures q <= Top(t.log.accepted, session)
  {
    hide Acknowledged, DeclaredMissing, Line, Lawful;
    SoundIsLedger(t, session);
    WithinTop(t.log.accepted, session, t.log.untracked, q);
  }
}
