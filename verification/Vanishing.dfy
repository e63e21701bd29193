/**
 When a drain can end below the newest acknowledged one with no trace of it: exactly when its `send`
 finds another authorization context on a transport that will still deliver its session.
 */
module Vanishing {
  import opened Wrappers
  import opened Capture
  import opened TransportModel
  import opened TransportShape
  import opened SessionLedger
  import opened TransportLedger
  import opened GapFree
  import opened DeliveryGuarantees
  import opened Settlement
  import opened Restamping
  import opened SilentLoss
  import opened Sets

  // ---- keeping a session open -------------------------------------------------------------

  /** The transport does not refuse the session. */
  predicate Open(t: Transport, session: string) {
    !t.saturated || HasRecovery(t, session)
  }

  /** The server's answer to the body of the session is in, and it will be accepted. */
  predicate Answered(t: Transport, session: string) {
    && t.drain.Busy? && t.drain.delivery.payload.session == session && Sequence(t.drain.delivery.payload) > 0
    && (t.drain.delivery.at == AwaitObserver || t.drain.delivery.at == Returned(Delivered))
  }

  /** Something of the session is missed that is beyond `q`. */
  predicate MissedBeyond(t: Transport, session: string, q: int) {
    session in t.resync && t.resync[session].through > q
  }

  /** No acceptance still to come is bound to make a saturated transport forget the session. */
  predicate Lasting(t: Transport, session: string) {
    t.saturated && Answered(t, session) ==> MissedBeyond(t, session, Sequence(t.drain.delivery.payload))
  }

  ghost predicate Steady(t: Transport, r: Transport, session: string) {
    && (Open(t, session) ==> Open(r, session))
    && r.saturated == t.saturated && r.stopped == t.stopped
  }

  lemma SkipSteady(t: Transport, next: Queued, session: string)
    requires t.saturated || next.payload.session in t.exact
    ensures Steady(t, Skip(t, next), session)
  {
    hide Size, Widened;
  }

  lemma StartSteady(t: Transport, purpose: Purpose, next: Queued, p: Payload, session: string)
    ensures var r := StartRetry(t, purpose, p, []); Steady(t, r, session) && Lasting(r, session)
    ensures var r := StartFresh(t, next, []); Steady(t, r, session) && Lasting(r, session)
  {
    hide BlockForAuth;
  }

  lemma SteadyAfter(t: Transport, a: Transport, r: Transport, session: string)
    requires Steady(t, a, session) && Steady(a, r, session)
    ensures Steady(t, r, session)
  {
  }

  lemma {:induction false} PumpSteady(t: Transport, session: string)
    ensures Steady(t, Pump(t, []), session) && Lasting(Pump(t, []), session)
    decreases |t.queue|
  {
    hide Skip, StartRetry, StartFresh;
    if t.queue != [] {
      var next, t1 := t.queue[0], t.(queue := t.queue[1..], drain := Idle);
      assert Steady(t, t1, session);
      if Refused(t1, next.payload) || (next.payload.session in t1.exact && next.payload.session in t1.attempted) {
        SkipSteady(t1, next, session);
        SkipLoses(t1, next);
        PumpSteady(Skip(t1, next), session);
      } else if next.payload.session in t1.exact {
        StartSteady(t1, Ahead(next), next, t1.exact[next.payload.session], session);
      } else {
        StartSteady(t1, Ahead(next), next, next.payload, session);
      }
    }
  }

  lemma ContinueSteady(t: Transport, next: Queued, session: string)
    ensures var r := ContinueWith(t, next, []); Steady(t, r, session) && Lasting(r, session)
    ensures t.saturated || next.payload.session in t.exact ==>
      var r := Pump(Skip(t, next), []); Steady(t, r, session) && Lasting(r, session)
  {
    hide Skip, StartFresh, Pump, HasRecovery;
    if t.saturated || next.payload.session in t.exact {
      SkipSteady(t, next, session);
      PumpSteady(Skip(t, next), session);
      SteadyAfter(t, Skip(t, next), Pump(Skip(t, next), []), session);
    }
    StartSteady(t, Fresh(next), next, next.payload, session);
  }

  /** Accepting a body of another session, one without a sequence, or any body before saturation, shuts no one out. */
  lemma AcceptSteady(t: Transport, p: Payload, session: string)
    requires t.saturated ==> p.session != session || Sequence(p) == 0 || MissedBeyond(t, session, Sequence(p))
    ensures Steady(t, Accept(t, p), session)
    ensures Sequence(p) > 0 ==> Steady(t, Accept(t.(exact := t.exact - {p.session}), p), session)
  {
  }

  lemma AfterDeliverySteady(t: Transport, purpose: Purpose, p: Payload, outcome: Outcome, session: string)
    requires Keyed(t.exact) && Holds(t.exact, t.attempted, purpose, p, Returned(outcome))
    requires outcome == Delivered && t.saturated ==>
      p.session != session || Sequence(p) == 0 || MissedBeyond(t, session, Sequence(p))
    ensures var r := AfterDelivery(t, purpose, p, outcome, []); Steady(t, r, session) && Lasting(r, session)
  {
    hide Pump, Skip, StartFresh, StartRetry, ContinueWith, Open, HasRecovery, Accept;
    if outcome == Delivered { AcceptSteady(t, p, session); }
    match purpose {
      case Fresh(next) =>
        var a := if outcome == Delivered then Accept(t, p) else t;
        assert Steady(a, Resolve(a, next.id, outcome == Delivered), session) by {
          ResolveSteady(a, next.id, outcome == Delivered, session);
        }
        PumpSteady(Resolve(a, next.id, outcome == Delivered), session);
      case Ahead(next) =>
        ContinueSteady(t, next, session);
        if outcome == Delivered {
          assert Retains(t.exact, p) && Sequence(p) > 0;
          ContinueSteady(Accept(t.(exact := t.exact - {next.payload.session}), p), next, session);
        }
      case IdleRetry(rest) =>
        var a := if outcome == Delivered then Accept(t.(exact := t.exact - {p.session}), p) else t;
        if outcome == Delivered { assert Retains(t.exact, p) && Sequence(p) > 0; }
        PumpSteady(a, session);
        if rest != [] { StartSteady(a, IdleRetry(rest[1..]), Queued(0, p), rest[0], session); }
    }
  }

  lemma ResolveSteady(t: Transport, id: nat, delivered: bool, session: string)
    ensures Steady(t, Resolve(t, id, delivered), session)
  {
  }

  // ---- draining without a loss to the session ---------------------------------------------

  /** The answer that keeps the session open: accept its bodies before saturation, drop or retain them after. */
  function Steer(t: Transport, session: string): Continuation
    requires t.drain.Busy?
  {
    var d := t.drain.delivery;
    if t.saturated && d.payload.session == session && Sequence(d.payload) > 0
    then Continuation(Permanent, if d.at == AwaitBody then [false] else [])
    else Continuation(Ok, [])
  }

  lemma FailSteady(t: Transport, purpose: Purpose, p: Payload, attempts: nat)
    requires Sequence(p) > 0 && HasRecovery(t, p.session)
    ensures Steady(t, Fail(t, purpose, p, attempts, false), p.session)
    ensures (p.session in t.exact ==> t.exact[p.session] == p) ==>
      Steady(t, BlockForAuth(t, purpose, p, attempts), p.session)
  {
    hide Size, Widened;
  }

  /** An accepted answer moves the delivery on and touches nothing else. */
  lemma OkSteady(t: Transport, session: string)
    requires t.drain.Busy? && !t.drain.delivery.at.Returned?
    requires t.saturated ==> t.drain.delivery.payload.session != session || Sequence(t.drain.delivery.payload) == 0
    ensures var r := Resume(t, Ok, []); Steady(t, r, session) && Lasting(r, session)
  {
    hide Fail, BlockForAuth;
  }

  lemma PermanentSteady(t: Transport, session: string)
    requires t.drain.Busy? && t.drain.delivery.at in {AwaitPost, AwaitSleep, AwaitBody}
    requires t.drain.delivery.payload.session == session && Sequence(t.drain.delivery.payload) > 0
    requires HasRecovery(t, session) && (session in t.exact ==> t.exact[session] == t.drain.delivery.payload)
    ensures var r := Resume(t, Permanent, if t.drain.delivery.at == AwaitBody then [false] else []);
      Steady(t, r, session) && Lasting(r, session)
  {
    hide Fail, BlockForAuth;
    var purpose, d := t.drain.purpose, t.drain.delivery;
    FailSteady(t, purpose, d.payload, d.attempts);
    DroppedOrRetained(t, purpose, d.payload, d.attempts);
  }

  lemma ReturnedSteady(t: Transport, session: string)
    requires Shape(t) && t.drain.Busy? && t.drain.delivery.at.Returned? && Lasting(t, session)
    ensures var c := Steer(t, session); var r := Resume(t, c.answer, c.auth);
      Steady(t, r, session) && Lasting(r, session)
  {
    var purpose, d := t.drain.purpose, t.drain.delivery;
    HoldsNow(t);
    hide Shape, AfterDelivery, Holds, Keyed;
    AfterDeliverySteady(t.(drain := Idle), purpose, d.payload, d.at.outcome, session);
  }

  lemma SteerSteady(t: Transport, session: string)
    requires Shape(t) && t.drain.Busy? && Open(t, session) && Lasting(t, session)
    ensures var c := Steer(t, session); var r := Resume(t, c.answer, c.auth);
      Steady(t, r, session) && Lasting(r, session)
  {
    if t.drain.delivery.at.Returned? {
      ReturnedSteady(t, session);
    } else if t.drain.delivery.at == AwaitObserver {
      hide Shape, HasRecovery;
    } else if Steer(t, session).answer == Ok {
      hide Resume, Shape, HasRecovery;
      OkSteady(t, session);
    } else {
      RetainedIsBody(t);
      hide Resume, Shape, HasRecovery;
      PermanentSteady(t, session);
    }
  }

  /** What is retained of a session is the body of it that is being delivered. */
  lemma RetainedIsBody(t: Transport)
    requires Shape(t) && t.drain.Busy? && !t.drain.delivery.at.Returned?
    ensures var p := t.drain.delivery.payload; p.session in t.exact ==> t.exact[p.session] == p
  {
    hide Core, HoldsRest;
  }

  lemma DroppedOrRetained(t: Transport, purpose: Purpose, p: Payload, attempts: nat)
    ensures Fail(t, purpose, p, attempts, false).drain.delivery.at == Returned(Dropped)
    ensures BlockForAuth(t, purpose, p, attempts).drain.delivery.at in {Returned(Dropped), Returned(Retained)}
  {
    hide GiveUp, CanRemember, Keeps;
  }

  // ---- the ledger without the lost send ----------------------------------------------------

  /** The same transport with another record of what the caller sent. */
  function Without(t: Transport, sent: map<string, int>): Transport {
    Restamp(t, Records(sent, {}))
  }

  /** A step of the drain loop keeps the ledger as it would stand without the lost send. */
  lemma ResumeSoundWithout(t: Transport, answer: Answer, auth: seq<bool>, session: string, sent: map<string, int>)
    requires Shape(t) && Wakeful(t) && Sound(Without(t, sent), session)
    ensures Sound(Without(Resume(t, answer, auth), sent), session)
  {
    hide Shape, Wakeful, Sound, Resume;
    RestampShape(t, Records(sent, {}));
    ResumeRestamps(t, answer, auth, Records(sent, {}));
    assert Disciplined(Without(t, sent), Resuming(answer, auth));
    StepSound(Without(t, sent), Resuming(answer, auth), session);
  }

  // ---- draining to rest ---------------------------------------------------------------------

  /** Nothing of the session is waiting, retained or being delivered. */
  predicate Rid(t: Transport, session: string) {
    && session !in t.exact && t.queue == []
    && (t.drain.Busy? ==>
          t.drain.purpose.IdleRetry?
          && (t.drain.delivery.payload.session != session || t.drain.delivery.at == Returned(Dropped)))
  }

  /** Only the session of the body being delivered can become retained. */
  lemma RetainGains(t: Transport, purpose: Purpose, p: Payload, attempts: nat, session: string)
    requires p.session != session
    ensures session in RetainExactRetry(t, purpose, p, attempts).exact ==> session in t.exact
    ensures session in GiveUp(t, p, true).exact ==> session in t.exact
  {
    hide CanRemember, Widened;
  }

  lemma FailGains(t: Transport, purpose: Purpose, p: Payload, attempts: nat, retryable: bool, session: string)
    requires p.session != session
    ensures session in Fail(t, purpose, p, attempts, retryable).exact ==> session in t.exact
    ensures session in BlockForAuth(t, purpose, p, attempts).exact ==> session in t.exact
  {
    hide GiveUp, RetainExactRetry;
    RetainGains(t, purpose, p, attempts, session);
  }

  lemma AttemptRid(t: Transport, purpose: Purpose, p: Payload, attempts: nat, auth: seq<bool>, session: string)
    requires session !in t.exact && t.queue == [] && p.session != session && purpose.IdleRetry?
    ensures Rid(Attempt(t, purpose, p, attempts, auth), session)
  {
    hide Fail, BlockForAuth;
    FailGains(t, purpose, p, attempts, true, session);
    BodyKept(t, purpose, p, attempts, true, auth);
  }

  lemma AfterRid(t: Transport, rest: seq<Payload>, p: Payload, outcome: Outcome, auth: seq<bool>, session: string)
    requires session !in t.exact && t.queue == [] && HoldsRest(t.exact, t.attempted, p, rest)
    ensures Rid(AfterIdleRetry(t, rest, p, outcome, auth), session)
  {
    hide Attempt, Cleared, HoldsRest;
    var b := if outcome == Delivered then Accept(t.(exact := t.exact - {p.session}), p) else t;
    if rest != [] {
      RestRetained(t, b, p, rest);
      var c := b.(attempted := b.attempted + {rest[0].session},
                   log := b.log.(retried := b.log.retried + [rest[0].session]));
      AttemptRid(c, IdleRetry(rest[1..]), rest[0], 0, auth, session);
    }
  }

  lemma ReturnRid(t: Transport, answer: Answer, auth: seq<bool>, session: string)
    requires Shape(t) && t.drain.Busy? && t.drain.delivery.at.Returned? && Rid(t, session)
    ensures Rid(Resume(t, answer, auth), session)
  {
    HoldsNow(t);
    hide Shape, AfterIdleRetry, HoldsRest, Keyed;
    AfterRid(t.(drain := Idle), t.drain.purpose.rest, t.drain.delivery.payload, t.drain.delivery.at.outcome, auth,
        session);
  }

  lemma PostRid(t: Transport, answer: Answer, auth: seq<bool>, session: string)
    requires t.drain.Busy? && Rid(t, session) && !t.drain.delivery.at.Returned?
    ensures Rid(AfterPost(t, t.drain.purpose, t.drain.delivery, answer, auth), session)
    ensures Rid(BlockForAuth(t, t.drain.purpose, t.drain.delivery.payload, t.drain.delivery.attempts), session)
  {
    var d := t.drain.delivery;
    hide Fail, BlockForAuth;
    FailGains(t, t.drain.purpose, d.payload, d.attempts, answer != Permanent, session);
    BodyKept(t, t.drain.purpose, d.payload, d.attempts, answer != Permanent, auth);
  }

  lemma WaitRid(t: Transport, answer: Answer, auth: seq<bool>, session: string)
    requires t.drain.Busy? && !t.drain.delivery.at.Returned? && Rid(t, session)
    ensures Rid(Resume(t, answer, auth), session)
  {
    ResumeIsWait(t, answer, auth);
    hide Resume, Attempt, AfterPost, BlockForAuth;
    PostRid(t, answer, auth, session);
    AttemptRid(t, t.drain.purpose, t.drain.delivery.payload, t.drain.delivery.attempts, auth, session);
  }

  /** The retained request of the session is being retried alone, and will not come back retained. */
  predicate Leaving(t: Transport, session: string) {
    && t.queue == [] && t.drain.Busy? && t.drain.purpose.IdleRetry?
    && Retains(t.exact, t.drain.delivery.payload) && t.drain.delivery.payload.session == session
    && (if t.saturated then t.drain.delivery.at == AwaitPost
        else t.drain.delivery.at in {AwaitPost, AwaitBody, AwaitObserver, Returned(Delivered)})
  }

  lemma LeavingAccepted(t: Transport, session: string)
    requires Shape(t) && Leaving(t, session) && !t.saturated
    ensures Leaving(Resume(t, Ok, []), session) || Rid(Resume(t, Ok, []), session)
  {
    HoldsNow(t);
    if t.drain.delivery.at.Returned? {
      hide Shape, HoldsRest, Attempt, Cleared, Keyed;
      var rest, p := t.drain.purpose.rest, t.drain.delivery.payload;
      var b := Accept(t.(drain := Idle).(exact := t.exact - {p.session}), p);
      assert b.exact == t.exact - {session};
      if rest != [] {
        RestRetained(t, b, p, rest);
        var c := b.(attempted := b.attempted + {rest[0].session},
                     log := b.log.(retried := b.log.retried + [rest[0].session]));
        AttemptRid(c, IdleRetry(rest[1..]), rest[0], 0, [], session);
      }
    } else {
      hide Shape, Fail, BlockForAuth, HoldsRest, Attempt;
    }
  }

  lemma LeavingDropped(t: Transport, session: string)
    requires Leaving(t, session) && t.saturated
    ensures Rid(Resume(t, Permanent, []), session)
  {
    hide CanRemember, Widened;
  }

  lemma SteerRid(t: Transport, session: string)
    requires Shape(t) && t.drain.Busy? && (Rid(t, session) || Leaving(t, session))
    ensures var c := Steer(t, session); var r := Resume(t, c.answer, c.auth);
      Rid(r, session) || Leaving(r, session)
  {
    hide Resume, Core, Holds;
    var c := Steer(t, session);
    if Rid(t, session) {
      hide Steer;
      if t.drain.delivery.at.Returned? { ReturnRid(t, c.answer, c.auth, session); }
      else { WaitRid(t, c.answer, c.auth, session); }
    } else {
      HoldsKeyed(t);
      if t.saturated { LeavingDropped(t, session); } else { LeavingAccepted(t, session); }
    }
  }

  lemma HoldsKeyed(t: Transport)
    requires Shape(t)
    ensures forall s <- t.exact :: Sequence(t.exact[s]) > 0
  {
  }

  /** What a drained transport keeps of the one it was. */
  ghost predicate Drained(t: Transport, u: Transport, session: string, sent: map<string, int>) {
    && u.drain == Idle && u.queue == [] && !u.stopped && Open(u, session) && u.saturated == t.saturated
    && u.log.sent == t.log.sent && u.log.replayed == t.log.replayed
    && Sound(Without(u, sent), session)
    && (Rid(t, session) || Leaving(t, session) ==> session !in u.exact)
  }

  lemma RunOneMore(limits: Limits, inputs: seq<Input>, input: Input)
    ensures Run(limits, inputs + [input]) == Step(Run(limits, inputs), input)
    ensures DisciplinedRun(limits, inputs + [input]) <==>
      DisciplinedRun(limits, inputs) && Disciplined(Run(limits, inputs), input)
  {
    hide Step, Disciplined;
    assert (inputs + [input])[..|inputs|] == inputs;
  }

  /** A state from which the drain loop can be brought to rest. */
  ghost predicate Steerable(t: Transport, session: string, sent: map<string, int>) {
    && !t.stopped && t.drain != Stuck && Open(t, session) && Lasting(t, session)
    && Sound(Without(t, sent), session)
  }

  lemma SteerStep(t: Transport, session: string, sent: map<string, int>)
    requires Shape(t) && Wakeful(t) && t.drain.Busy? && Steerable(t, session, sent)
    ensures var c := Steer(t, session); var r := Resume(t, c.answer, c.auth);
      && Steerable(r, session, sent) && r.saturated == t.saturated && Work(r) < Work(t)
      && r.log.sent == t.log.sent && r.log.replayed == t.log.replayed
      && (Rid(t, session) || Leaving(t, session) ==> Rid(r, session) || Leaving(r, session))
  {
    hide Shape, Wakeful, Sound, Open, Lasting, Rid, Leaving, Resume, Work, Steer;
    var c := Steer(t, session);
    SteerSteady(t, session);
    NotStuckAfter(t, c.answer, c.auth);
    ResumeDecreases(t, c.answer, c.auth);
    ResumeSoundWithout(t, c.answer, c.auth, session, sent);
    if Rid(t, session) || Leaving(t, session) { SteerRid(t, session); }
  }

  lemma Rests(t: Transport, session: string, sent: map<string, int>)
    requires Wakeful(t) && !t.drain.Busy? && Steerable(t, session, sent)
    ensures Drained(t, t, session, sent)
  {
    hide Sound, Open;
  }

  lemma DrainedAfter(t: Transport, r: Transport, u: Transport, session: string, sent: map<string, int>)
    requires Drained(r, u, session, sent) && r.saturated == t.saturated
    requires r.log.sent == t.log.sent && r.log.replayed == t.log.replayed
    requires Rid(t, session) || Leaving(t, session) ==> Rid(r, session) || Leaving(r, session)
    ensures Drained(t, u, session, sent)
  {
    hide Sound, Open, Rid, Leaving;
  }

  /**
   From any state in which the session is open and outlasts what is pending, some answers bring the
   drain loop to rest with it open.
   */
  lemma DrainOut(limits: Limits, inputs: seq<Input>, session: string, sent: map<string, int>)
    returns (more: seq<Input>)
    requires limits.Positive() && DisciplinedRun(limits, inputs) && Steerable(Run(limits, inputs), session, sent)
    ensures DisciplinedRun(limits, inputs + more)
    ensures Drained(Run(limits, inputs), Run(limits, inputs + more), session, sent)
    ensures forall i <- more :: i.Resuming?
    decreases Work(Run(limits, inputs))
  {
    hide Shape, Wakeful, Steerable, Drained, Work, DisciplinedRun, Run, Resume, Steer, Rid, Leaving;
    var t := Run(limits, inputs);
    RunKeeps(limits, inputs);
    if !t.drain.Busy? {
      more := [];
      assert inputs + more == inputs;
      Rests(t, session, sent);
    } else {
      var c := Steer(t, session);
      var first := Resuming(c.answer, c.auth);
      RunOneMore(limits, inputs, first);
      SteerStep(t, session, sent);
      var rest := DrainOut(limits, inputs + [first], session, sent);
      more := [first] + rest;
      assert inputs + more == inputs + [first] + rest;
      DrainedAfter(t, Run(limits, inputs + [first]), Run(limits, inputs + more), session, sent);
    }
  }

  // ---- getting a later drain accepted -------------------------------------------------------

  lemma EnumerateOneMore(keys: set<string>, first: string, rest: seq<string>)
    requires first in keys && Enumerates(rest, keys - {first})
    ensures Enumerates([first] + rest, keys)
  {
    var order := [first] + rest;
    assert forall i | 0 <= i < |rest| :: rest[i] in rest;
    assert order[0] == first;
    var members := set s | s in rest;
    assert members == keys - {first};
    forall s ensures s in order <==> s in keys {
      assert s in rest <==> s in members;
      assert s in order <==> s in [first] || s in rest;
    }
    assert forall s :: s in (set x | x in order) <==> s in keys;
  }

  /** Some enumeration of a finite set, beginning with a given member. */
  lemma Enumeration(keys: set<string>, first: string) returns (order: seq<string>)
    requires first in keys
    ensures Enumerates(order, keys) && order != [] && order[0] == first
  {
    hide Enumerates;
    var rest := AnyEnumeration(keys - {first});
    order := [first] + rest;
    EnumerateOneMore(keys, first, rest);
  }

  lemma {:induction false} AnyEnumeration(keys: set<string>) returns (order: seq<string>)
    ensures Enumerates(order, keys)
  {
    if keys == {} {
      order := [];
    } else {
      hide Enumerates;
      var s :| s in keys;
      var rest := AnyEnumeration(keys - {s});
      order := [s] + rest;
      EnumerateOneMore(keys, s, rest);
    }
  }

  lemma FlushSoundWithout(t: Transport, order: seq<string>, session: string, sent: map<string, int>)
    requires Shape(t) && Wakeful(t) && Sound(Without(t, sent), session)
    ensures Sound(Without(Flush(t, order, []), sent), session)
  {
    hide Shape, Wakeful, Sound, Flush;
    FlushRestamps(t, order, [], Records(sent, {}));
    RestampShape(t, Records(sent, {}));
    assert Disciplined(Without(t, sent), Flushing(order, []));
    StepSound(Without(t, sent), Flushing(order, []), session);
  }

  /** A flush of a transport at rest retries the session's request first, and leaves it steerable. */
  lemma FlushLeaves(t: Transport, session: string, sent: map<string, int>, order: seq<string>)
    requires Shape(t) && Wakeful(t) && t.drain == Idle && t.queue == [] && Steerable(t, session, sent)
    requires Enumerates(order, t.exact.Keys) && order != [] && order[0] == session
    ensures var r := Flush(t, order, []);
      && Steerable(r, session, sent) && Leaving(r, session) && r.saturated == t.saturated
      && r.log.sent == t.log.sent && r.log.replayed == t.log.replayed
  {
    hide Shape, Wakeful, Sound, Without, StartRetry, Open, Lasting, Enumerates, Leaving;
    FlushSoundWithout(t, order, session, sent);
    EnumerationIndexes(order, t.exact.Keys);
    HoldsSessions(t);
    var requests := Requests(t.exact, order);
    assert t.exact != map[];
    var a := t.(attempted := {}, log := t.log.(retried := []));
    assert Flush(t, order, []) == StartRetry(a, IdleRetry(requests[1..]), requests[0], []);
    StartSteady(a, IdleRetry(requests[1..]), Queued(0, requests[0]), requests[0], session);
    StaysOpen(t, a, session);
    RetryLeaves(a, IdleRetry(requests[1..]), requests[0], session);
  }

  lemma RetryLeaves(t: Transport, purpose: Purpose, p: Payload, session: string)
    requires t.queue == [] && purpose.IdleRetry? && Retains(t.exact, p) && p.session == session
    ensures Leaving(StartRetry(t, purpose, p, []), session) && StartRetry(t, purpose, p, []).drain != Stuck
  {
    hide BlockForAuth;
  }

  lemma HoldsSessions(t: Transport)
    requires Shape(t)
    ensures forall s <- t.exact :: t.exact[s].session == s
  {
  }

  /** From any steerable state the session's retained request, too, can be brought to an end. */
  lemma ClearOut(limits: Limits, inputs: seq<Input>, session: string, sent: map<string, int>)
    returns (more: seq<Input>)
    requires limits.Positive() && DisciplinedRun(limits, inputs) && Steerable(Run(limits, inputs), session, sent)
    ensures DisciplinedRun(limits, inputs + more)
    ensures var t, u := Run(limits, inputs), Run(limits, inputs + more);
      && u.drain == Idle && u.queue == [] && !u.stopped && Open(u, session) && session !in u.exact
      && u.log.sent == t.log.sent && u.log.replayed == t.log.replayed && Sound(Without(u, sent), session)
    ensures forall i <- more :: !i.Sending?
  {
    hide Shape, Wakeful, Open, Sound, Work, DisciplinedRun, Run, Step, Rid, Leaving, Enumerates, Lasting;
    more := DrainOut(limits, inputs, session, sent);
    var u := Run(limits, inputs + more);
    if session in u.exact {
      RunKeeps(limits, inputs + more);
      var order := Enumeration(u.exact.Keys, session);
      RestIsSteerable(u, session, sent);
      FlushLeaves(u, session, sent, order);
      RunOneMore(limits, inputs + more, Flushing(order, []));
      StepFlush(u, order);
      NotSent(u, Flushing(order, []));
      var flushed := inputs + more + [Flushing(order, [])];
      var rest := DrainOut(limits, flushed, session, sent);
      assert flushed + rest == inputs + (more + [Flushing(order, [])] + rest);
      more := more + [Flushing(order, [])] + rest;
    }
  }

  lemma StepFlush(t: Transport, order: seq<string>)
    ensures Step(t, Flushing(order, [])) == Flush(t, order, [])
  {
  }

  lemma NotSent(t: Transport, input: Input)
    requires !input.Sending?
    ensures Disciplined(t, input)
  {
  }

  lemma RestIsSteerable(u: Transport, session: string, sent: map<string, int>)
    requires u.drain == Idle && !u.stopped && Open(u, session) && Sound(Without(u, sent), session)
    ensures Steerable(u, session, sent)
  {
    hide Open, Sound;
  }

  /** At rest, a drain of an open session with nothing retained is POSTed with what is missed before it. */
  lemma SendPosts(t: Transport, p: Payload)
    requires t.limits.Positive() && t.drain == Idle && t.queue == [] && !t.stopped
    requires Open(t, p.session) && p.session !in t.exact
    ensures var r := Send(t, p, true, []);
      && r.drain == Busy(Fresh(Queued(t.log.issued, p)), Delivery(PrepareResync(t, p), 1, AwaitPost))
      && r.queue == [] && r.log.accepted == t.log.accepted
  {
    hide Evict, NoteSent;
    assert Evict(NoteSent(t, p)) == NoteSent(t, p) by { NothingEvicted(NoteSent(t, p)); }
    var t1 := Enqueue(t, p);
    assert t1.queue == [Queued(t.log.issued, p)];
    assert t1.queue[1..] == [];
  }

  lemma NothingEvicted(t: Transport)
    requires |t.queue| < t.limits.maxQueued
    ensures Evict(t) == t
  {
  }

  /** Four good answers and the POSTed body is acknowledged. */
  lemma PostedAccepted(t: Transport, next: Queued, p: Payload)
    requires t.drain == Busy(Fresh(next), Delivery(p, 1, AwaitPost)) && t.queue == []
    ensures var r := Resume(Resume(Resume(Resume(t, Ok, []), Ok, []), Ok, []), Ok, []);
      r.log.accepted == t.log.accepted + [p]
  {
    hide Cleared, Attempt, Fail, BlockForAuth;
    var a := Resume(t, Ok, []);
    assert a == t.(drain := Busy(Fresh(next), Delivery(p, 1, AwaitBody)));
    var b := Resume(a, Ok, []);
    assert b == t.(drain := Busy(Fresh(next), Delivery(p, 1, AwaitObserver)));
    var c := Resume(b, Ok, []);
    assert c == t.(drain := Busy(Fresh(next), Delivery(p, 1, Returned(Delivered))));
  }

  /** A sequence below the newest acknowledged one of its session, neither acknowledged nor declared. */
  ghost predicate Vanished(limits: Limits, inputs: seq<Input>, session: string, q: int) {
    var accepted := Run(limits, inputs).log.accepted;
    && 1 <= q <= Top(accepted, session)
    && !Acknowledged(accepted, session, q) && !DeclaredMissing(accepted, session, q)
  }

  /** Some disciplined continuation ends with the sequence vanished. */
  ghost predicate CanVanish(limits: Limits, inputs: seq<Input>, session: string, q: int) {
    exists more :: DisciplinedRun(limits, inputs + more) && Vanished(limits, inputs + more, session, q)
  }

  /** Its own answers, appended to a run that has just POSTed a body, get the body accepted. */
  lemma AcceptPosted(limits: Limits, inputs: seq<Input>, next: Queued, p: Payload)
    requires DisciplinedRun(limits, inputs)
    requires var t := Run(limits, inputs); t.drain == Busy(Fresh(next), Delivery(p, 1, AwaitPost)) && t.queue == []
    ensures var ok := Resuming(Ok, []); var u := Run(limits, inputs + [ok] + [ok] + [ok] + [ok]);
      && u.log.accepted == Run(limits, inputs).log.accepted + [p]
      && DisciplinedRun(limits, inputs + [ok] + [ok] + [ok] + [ok])
  {
    var ok := Resuming(Ok, []);
    PostedAccepted(Run(limits, inputs), next, p);
    hide Run, DisciplinedRun, Resume;
    RunOneMore(limits, inputs, ok);
    RunOneMore(limits, inputs + [ok], ok);
    RunOneMore(limits, inputs + [ok] + [ok], ok);
    RunOneMore(limits, inputs + [ok] + [ok] + [ok], ok);
  }

  /** The body prepared for a drain beyond `q` does not declare `q` when nothing missed reaches it. */
  lemma PreparedSpares(t: Transport, p: Payload, q: int)
    requires Clean(p) && 1 <= q < Sequence(p) && (p.session in t.resync ==> t.resync[p.session].through < q)
    ensures var body := PrepareResync(t, p);
      body.session == p.session && Sequence(body) == Sequence(p) && !Covers(body.resync, q)
  {
  }

  /** With nothing about `q` acknowledged so far, accepting a later body that spares it makes it vanish. */
  lemma SparedVanishes(accepted: seq<Payload>, body: Payload, session: string, q: int)
    requires body.session == session && 1 <= q < Sequence(body) && !Covers(body.resync, q)
    requires !Acknowledged(accepted, session, q) && !DeclaredMissing(accepted, session, q)
    ensures q <= Top(accepted + [body], session)
    ensures !Acknowledged(accepted + [body], session, q) && !DeclaredMissing(accepted + [body], session, q)
  {
    TopAppend(accepted, body, session);
    LastOrBefore(accepted + [body], session, q);
    assert (accepted + [body])[..|accepted|] == accepted;
  }

  /** What the ledger without the lost send bounds, the ledger with it does as well. */
  lemma WithoutBounds(t: Transport, session: string, sent: map<string, int>, q: int)
    requires Sound(Without(t, sent), session) && (if session in sent then sent[session] else 0) == q - 1 && 1 <= q
    ensures Top(t.log.accepted, session) < q
    ensures session in t.resync ==> t.resync[session].through < q
    ensures !Acknowledged(t.log.accepted, session, q) && !DeclaredMissing(t.log.accepted, session, q)
  {
    hide Line, InOrder, Accounted, Ready, Tiled, NeverBack, Acknowledged, DeclaredMissing, Top;
    var r := Without(t, sent);
    SoundIsLedger(r, session);
    WithinTop(r.log.accepted, session, r.log.untracked, q);
  }

  // ---- exactly the mismatched sends ---------------------------------------------------------

  /** A refusal for the context changes nothing but the log. */
  lemma MismatchOnlyLogs(t: Transport, p: Payload, serializable: bool, auth: seq<bool>)
    requires !t.stopped && !Current(auth) && 0 < Sequence(p) == Sent(t, p.session) + 1
    ensures var r := Send(t, p, serializable, auth);
      && r == t.(log := r.log) && r.log.accepted == t.log.accepted && r.log.posted == t.log.posted
      && r.log.sent == t.log.sent[p.session := Sequence(p)] && r.log.replayed == t.log.replayed
      && t.log.untracked <= r.log.untracked
  {
  }

  /** The ledger stands without the lost send as it did before it. */
  lemma MismatchSound(t: Transport, r: Transport, session: string)
    requires Sound(t, session) && r == t.(log := r.log)
    requires r.log.accepted == t.log.accepted && r.log.posted == t.log.posted && r.log.replayed == t.log.replayed
    requires t.log.untracked <= r.log.untracked
    ensures Sound(Without(r, t.log.sent), session)
  {
    hide Lawful, Waiting, NeverBack, CleanQueue;
    var u := Without(r, t.log.sent);
    SoundIsLedger(t, session);
    TiledGrows(t.log.accepted, session, t.log.untracked, r.log.untracked);
    MoreUntracked(ViewOf(t, session), r.log.untracked, Line(t, session, HandNow(t)));
    assert ViewOf(u, session) == ViewOf(t, session).(untracked := r.log.untracked);
    assert Line(u, session, HandNow(u)) == Line(t, session, HandNow(t));
    SoundBeside(t, u, session);
  }

  /** The next drain of the session, with nothing in it. */
  function Successor(p: Payload): (r: Payload)
    requires 0 < Sequence(p) < MAX_SAFE_INTEGER
    ensures r.session == p.session && Sequence(r) == Sequence(p) + 1 && Clean(r)
  {
    p.(sequence := Some(Sequence(p) + 1), resync := None, end := None)
  }

  /** A fresh drain of a session whose recorder has not finished. */
  predicate NextDrain(t: Transport, p: Payload) {
    && Clean(p) && p.session !in t.log.replayed
    && 0 < Sequence(p) == Sent(t, p.session) + 1
  }

  lemma PreparedSame(t: Transport, p: Payload)
    ensures PrepareResync(t, p).session == p.session && Sequence(PrepareResync(t, p)) == Sequence(p)
  {
  }

  /** From rest, sending the successor and accepting it makes a drain vanish that nothing so far settles. */
  lemma NextAccepted(limits: Limits, inputs: seq<Input>, p: Payload)
    requires limits.Positive() && DisciplinedRun(limits, inputs) && 0 < Sequence(p) < MAX_SAFE_INTEGER
    requires var u := Run(limits, inputs);
      && u.drain == Idle && u.queue == [] && !u.stopped && Open(u, p.session) && p.session !in u.exact
      && Disciplined(u, Sending(Successor(p), true, []))
      && !Covers(PrepareResync(u, Successor(p)).resync, Sequence(p))
      && !Acknowledged(u.log.accepted, p.session, Sequence(p))
      && !DeclaredMissing(u.log.accepted, p.session, Sequence(p))
    ensures CanVanish(limits, inputs, p.session, Sequence(p))
  {
    hide Run, DisciplinedRun, Acknowledged, DeclaredMissing, Shape, Open, PrepareResync, Successor, Top, Send,
      Disciplined, Step, Covers;
    var u, q := Run(limits, inputs), Sequence(p);
    var next, ok := Successor(p), Resuming(Ok, []);
    var send := Sending(next, true, []);
    var body := PrepareResync(u, next);
    StepSend(u, next);
    RunOneMore(limits, inputs, send);
    LimitsStay(limits, inputs);
    SendPosts(u, next);
    PreparedSame(u, next);
    SparedVanishes(u.log.accepted, body, p.session, q);
    AcceptPosted(limits, inputs + [send], Queued(u.log.issued, next), body);
    var more := [send, ok, ok, ok, ok];
    assert inputs + [send] + [ok] + [ok] + [ok] + [ok] == inputs + more;
    assert Vanished(limits, inputs + more, p.session, q);
  }

  lemma StepSend(t: Transport, p: Payload)
    ensures Step(t, Sending(p, true, [])) == Send(t, p, true, [])
  {
    hide Send;
  }

  lemma SuccessorAccepted(limits: Limits, inputs: seq<Input>, p: Payload, sent: map<string, int>)
    requires limits.Positive() && DisciplinedRun(limits, inputs) && 0 < Sequence(p) < MAX_SAFE_INTEGER
    requires (if p.session in sent then sent[p.session] else 0) == Sequence(p) - 1
    requires var u := Run(limits, inputs);
      && u.drain == Idle && u.queue == [] && !u.stopped && Open(u, p.session) && p.session !in u.exact
      && Sent(u, p.session) == Sequence(p) && p.session !in u.log.replayed && Sound(Without(u, sent), p.session)
    ensures CanVanish(limits, inputs, p.session, Sequence(p))
  {
    hide Run, DisciplinedRun, Acknowledged, DeclaredMissing, Sound, Open, PrepareResync, Successor, Without,
      Disciplined, Sent;
    var u := Run(limits, inputs);
    SuccessorDisciplined(u, p);
    WithoutBounds(u, p.session, sent, Sequence(p));
    PreparedSpares(u, Successor(p), Sequence(p));
    NextAccepted(limits, inputs, p);
  }

  lemma SuccessorDisciplined(u: Transport, p: Payload)
    requires 0 < Sequence(p) < MAX_SAFE_INTEGER
    requires Sent(u, p.session) == Sequence(p) && p.session !in u.log.replayed
    ensures Disciplined(u, Sending(Successor(p), true, []))
  {
  }

  lemma LimitsStay(limits: Limits, inputs: seq<Input>)
    requires limits.Positive()
    ensures Run(limits, inputs).limits.Positive()
  {
    RunKeeps(limits, inputs);
  }

  /**
   From every reachable transport that is not stopped or stuck, does not refuse the session and will
   not forget it with an acceptance pending: a drain whose `send` finds another context can vanish.
   */
  lemma MismatchLosesSilently(limits: Limits, inputs: seq<Input>, p: Payload, serializable: bool, auth: seq<bool>)
    requires limits.Positive() && DisciplinedRun(limits, inputs)
    requires var t := Run(limits, inputs);
      && !t.stopped && t.drain != Stuck && Open(t, p.session) && Lasting(t, p.session)
      && NextDrain(t, p) && Sequence(p) < MAX_SAFE_INTEGER && !Current(auth)
    ensures CanVanish(limits, inputs + [Sending(p, serializable, auth)], p.session, Sequence(p))
  {
    hide Run, DisciplinedRun, Send, Sound, Open, Lasting, Shape, Disciplined, Step, Vanished, Without, HasRecovery;
    var t := Run(limits, inputs);
    var send := Sending(p, serializable, auth);
    var sending := inputs + [send];
    RunSound(limits, inputs, p.session);
    RunOneMore(limits, inputs, send);
    NextIsDisciplined(t, p, serializable, auth);
    MismatchOnlyLogs(t, p, serializable, auth);
    var r := Run(limits, sending);
    StaysOpen(t, r, p.session);
    MismatchSound(t, r, p.session);
    var more := ClearOut(limits, sending, p.session, t.log.sent);
    SuccessorAccepted(limits, sending + more, p, t.log.sent);
    var rest :| DisciplinedRun(limits, sending + more + rest)
        && Vanished(limits, sending + more + rest, p.session, Sequence(p));
    assert sending + more + rest == sending + (more + rest);
  }

  lemma NextIsDisciplined(t: Transport, p: Payload, serializable: bool, auth: seq<bool>)
    requires NextDrain(t, p)
    ensures Disciplined(t, Sending(p, serializable, auth))
    ensures Step(t, Sending(p, serializable, auth)) == Send(t, p, serializable, auth)
  {
    hide Send;
  }

  lemma StaysOpen(t: Transport, r: Transport, session: string)
    requires r == t.(attempted := r.attempted, log := r.log)
    ensures Open(t, session) ==> Open(r, session)
    ensures Lasting(t, session) ==> Lasting(r, session)
  {
  }

  /** Every disciplined step accepts only what was in flight and admits only what the ledger remembers. */
  lemma StepMoves(t: Transport, input: Input)
    requires Shape(t) && AllSound(t) && Disciplined(t, input)
    ensures Moves(t, Step(t, input))
  {
    hide Shape, AllSound, Moves, Reject;
    if input.Sending? && !t.stopped && !Current(input.auth) {
      hide Disciplined;
      RejectLoses(t, input.payload);
    } else {
      hide Step;
      StepHarmless(t, input);
    }
  }

  lemma RunMoves(limits: Limits, inputs: seq<Input>, input: Input)
    requires limits.Positive() && DisciplinedRun(limits, inputs + [input])
    ensures DisciplinedRun(limits, inputs) && Moves(Run(limits, inputs), Run(limits, inputs + [input]))
  {
    hide Run, DisciplinedRun, Shape, AllSound, Moves, Step, Disciplined;
    RunOneMore(limits, inputs, input);
    RunKeeps(limits, inputs);
    RunAllSound(limits, inputs);
    StepMoves(Run(limits, inputs), input);
  }

  lemma SplitLast(inputs: seq<Input>, more: seq<Input>)
    requires more != []
    ensures inputs + more == inputs + more[..|more| - 1] + [more[|more| - 1]]
  {
  }

  /** A session shut out before `q` stays shut out. */
  lemma {:induction false} HarmlessStays(limits: Limits, inputs: seq<Input>, more: seq<Input>, session: string, q: int)
    requires limits.Positive() && DisciplinedRun(limits, inputs + more)
    requires Harmless(Run(limits, inputs), session, q)
    ensures Harmless(Run(limits, inputs + more), session, q)
  {
    hide Run, DisciplinedRun, Harmless, Moves;
    if more == [] {
      assert inputs + more == inputs;
    } else {
      var before, last := more[..|more| - 1], more[|more| - 1];
      SplitLast(inputs, more);
      RunMoves(limits, inputs + before, last);
      HarmlessStays(limits, inputs, before, session, q);
      HarmlessOn(Run(limits, inputs + before), Run(limits, inputs + more), session, q);
    }
  }

  /** A stuck transport acknowledges nothing any more. */
  lemma {:induction false} StuckAcceptsNothing(limits: Limits, inputs: seq<Input>, more: seq<Input>)
    requires limits.Positive() && DisciplinedRun(limits, inputs + more) && Run(limits, inputs).drain == Stuck
    ensures Run(limits, inputs + more).drain == Stuck
    ensures Run(limits, inputs + more).log.accepted == Run(limits, inputs).log.accepted
    decreases |more|
  {
    hide Run, DisciplinedRun, Step, Disciplined, InFlight, Admitted, Sticky;
    if more == [] {
      assert inputs + more == inputs;
    } else {
      var before, last := more[..|more| - 1], more[|more| - 1];
      SplitLast(inputs, more);
      RunMoves(limits, inputs + before, last);
      RunOneMore(limits, inputs + before, last);
      StuckAcceptsNothing(limits, inputs, before);
      StuckForever(Run(limits, inputs + before), last);
    }
  }

  /** A sequence with an admitted copy is mismatched only by another copy. */
  lemma {:induction false} AdmittedCopy(limits: Limits, inputs: seq<Input>, input: Input, more: seq<Input>,
                                        session: string, q: int)
    requires input.Sending? && Carries(input.payload, session, q) && !Mismatches(Run(limits, inputs), input)
    ensures Copies(inputs + [input] + more, session, q) >= 1
    ensures (session, q) in Mismatched(limits, inputs + [input] + more) ==>
        Copies(inputs + [input] + more, session, q) >= 2
    decreases |more|
  {
    hide Run;
    var all := inputs + [input] + more;
    if more == [] {
      assert all == inputs + [input] && all[..|all| - 1] == inputs;
      if (session, q) in Mismatched(limits, inputs) { MismatchedWasSent(limits, inputs, session, q); }
    } else {
      AdmittedCopy(limits, inputs, input, more[..|more| - 1], session, q);
      assert all[..|all| - 1] == inputs + [input] + more[..|more| - 1];
    }
  }

  lemma AdmittedNeverVanishes(limits: Limits, inputs: seq<Input>, input: Input, more: seq<Input>)
    requires limits.Positive() && DisciplinedRun(limits, inputs + [input] + more)
    requires input.Sending? && !Mismatches(Run(limits, inputs), input)
    ensures !Vanished(limits, inputs + [input] + more, input.payload.session, Sequence(input.payload))
  {
    hide Run, DisciplinedRun, Mismatches, Mismatched, Acknowledged, DeclaredMissing, Copies;
    var session, q := input.payload.session, Sequence(input.payload);
    AdmittedCopy(limits, inputs, input, more, session, q);
    if 1 <= q <= Top(Run(limits, inputs + [input] + more).log.accepted, session) {
      NoSilentLossButMismatch(limits, inputs + [input] + more, session, q);
    }
  }

  lemma StuckNeverVanishes(limits: Limits, inputs: seq<Input>, more: seq<Input>, session: string, q: int)
    requires limits.Positive() && DisciplinedRun(limits, inputs + more) && DisciplinedRun(limits, inputs)
    requires Run(limits, inputs).drain == Stuck && Sent(Run(limits, inputs), session) < q
    ensures !Vanished(limits, inputs + more, session, q)
  {
    hide Run, DisciplinedRun, Acknowledged, DeclaredMissing, Sound;
    StuckAcceptsNothing(limits, inputs, more);
    RunSound(limits, inputs, session);
    TopWasSent(Run(limits, inputs), session);
  }

  lemma ShutNeverVanishes(limits: Limits, inputs: seq<Input>, more: seq<Input>, p: Payload)
    requires limits.Positive() && DisciplinedRun(limits, inputs + more) && DisciplinedRun(limits, inputs)
    requires var t := Run(limits, inputs); !Open(t, p.session) && NextDrain(t, p)
    ensures !Vanished(limits, inputs + more, p.session, Sequence(p))
  {
    hide Run, DisciplinedRun, Acknowledged, DeclaredMissing, Sound, Shape;
    var t := Run(limits, inputs);
    RunKeeps(limits, inputs);
    RunSound(limits, inputs, p.session);
    SentLeads(t, p);
    HarmlessStays(limits, inputs, more, p.session, Sequence(p));
  }

  /**
   From every reachable transport: what can vanish was refused by its `send` for its context, in a transport
   still delivering.
   */
  lemma VanishesOnlyMismatched(limits: Limits, inputs: seq<Input>, p: Payload, serializable: bool, auth: seq<bool>)
    requires limits.Positive() && DisciplinedRun(limits, inputs) && NextDrain(Run(limits, inputs), p)
    requires CanVanish(limits, inputs + [Sending(p, serializable, auth)], p.session, Sequence(p))
    ensures var t := Run(limits, inputs);
      !Current(auth) && !t.stopped && t.drain != Stuck && Open(t, p.session)
  {
    hide Run, DisciplinedRun, Vanished, Open, NextDrain;
    var t, send := Run(limits, inputs), Sending(p, serializable, auth);
    var more :| DisciplinedRun(limits, inputs + [send] + more)
        && Vanished(limits, inputs + [send] + more, p.session, Sequence(p));
    NextIsSent(t, p);
    if !Mismatches(t, send) { AdmittedNeverVanishes(limits, inputs, send, more); }
    assert inputs + [send] + more == inputs + ([send] + more);
    if t.drain == Stuck { StuckNeverVanishes(limits, inputs, [send] + more, p.session, Sequence(p)); }
    if !Open(t, p.session) { ShutNeverVanishes(limits, inputs, [send] + more, p); }
  }

  lemma NextIsSent(t: Transport, p: Payload)
    requires NextDrain(t, p)
    ensures Sent(t, p.session) < Sequence(p)
  {
  }
}
