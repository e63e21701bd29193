/**
 Every `send` promise is resolved exactly once, and every drain run ends: a measure falls with
 each continuation, so finitely many continuations settle everything that was issued.
 */
module Settlement {
  import opened Wrappers
  import opened Capture
  import opened TransportModel
  import opened TransportShape

  // ---- exactly-once resolution -----------------------------------------------------------

  function One(a: nat, b: nat): nat {
    if a == b then 1 else 0
  }

  /** How often a promise waits in the queue. */
  function Waits(queue: seq<Queued>, id: nat): nat {
    if queue == [] then 0 else One(queue[0].id, id) + Waits(queue[1..], id)
  }

  lemma WaitsAppend(queue: seq<Queued>, next: Queued, id: nat)
    ensures Waits(queue + [next], id) == Waits(queue, id) + One(next.id, id)
  {
    if queue == [] {
      assert queue + [next] == [next];
    } else {
      assert (queue + [next])[1..] == queue[1..] + [next];
      WaitsAppend(queue[1..], next, id);
    }
  }

  /** How often a promise has been resolved. */
  function Resolved(resolved: seq<Resolution>, id: nat): nat {
    if resolved == [] then 0
    else Resolved(resolved[..|resolved| - 1], id) + One(resolved[|resolved| - 1].id, id)
  }

  lemma ResolvedAppend(resolved: seq<Resolution>, r: Resolution, id: nat)
    ensures Resolved(resolved + [r], id) == Resolved(resolved, id) + One(r.id, id)
  {
    assert (resolved + [r])[..|resolved|] == resolved;
  }

  /** Whether the drain loop holds a promise. */
  function Held(drain: Drain, id: nat): nat {
    if drain.Busy? then Bound(drain.purpose, id) else 0
  }

  function Bound(purpose: Purpose, id: nat): nat {
    if purpose.IdleRetry? then 0 else One(purpose.next.id, id)
  }

  /** How often a promise exists: resolved, waiting, or in the hands of the drain loop. */
  function Tally(t: Transport, id: nat): nat {
    Resolved(t.log.resolved, id) + Waits(t.queue, id) + Held(t.drain, id)
  }

  lemma SkipTally(t: Transport, next: Queued, id: nat)
    ensures Tally(Skip(t, next), id) == Tally(t, id) + One(next.id, id)
  {
    hide GiveUp;
    ResolvedAppend(t.log.resolved, Resolution(next.id, false), id);
  }

  lemma AttemptResolvesNothing(t: Transport, purpose: Purpose, p: Payload, attempts: nat, auth: seq<bool>)
    ensures Attempt(t, purpose, p, attempts, auth).log.resolved == t.log.resolved
  {
    hide CanRemember;
  }

  lemma FailResolvesNothing(t: Transport, purpose: Purpose, p: Payload, attempts: nat, retryable: bool)
    ensures Fail(t, purpose, p, attempts, retryable).log.resolved == t.log.resolved
    ensures BlockForAuth(t, purpose, p, attempts).log.resolved == t.log.resolved
  {
    hide CanRemember;
  }

  lemma StartTally(t: Transport, purpose: Purpose, p: Payload, attempts: nat, auth: seq<bool>, id: nat)
    requires t.drain == Idle
    ensures Tally(Attempt(t, purpose, p, attempts, auth), id) == Tally(t, id) + Bound(purpose, id)
  {
    AttemptResolvesNothing(t, purpose, p, attempts, auth);
    hide Attempt;
  }

  lemma RetryTally(t: Transport, purpose: Purpose, p: Payload, auth: seq<bool>, id: nat)
    requires t.drain == Idle
    ensures Tally(StartRetry(t, purpose, p, auth), id) == Tally(t, id) + Bound(purpose, id)
  {
    hide Attempt;
    var t1 := t.(attempted := t.attempted + {p.session},
                 log := t.log.(retried := t.log.retried + [p.session]));
    StartTally(t1, purpose, p, 0, auth, id);
  }

  /** A drain run only moves promises from the queue to the loop or to resolution. */
  lemma {:induction false} PumpTally(t: Transport, auth: seq<bool>, id: nat)
    requires t.drain == Idle
    ensures Tally(Pump(t, auth), id) == Tally(t, id)
    decreases |t.queue|
  {
    hide GiveUp, Attempt, StartRetry, Resolved;
    if t.queue != [] {
      var next := t.queue[0];
      var t1 := t.(queue := t.queue[1..], drain := Idle);
      assert Tally(t, id) == Tally(t1, id) + One(next.id, id);
      hide Tally;
      if !Current(auth) || Refused(t1, next.payload)
         || (next.payload.session in t1.exact && next.payload.session in t1.attempted) {
        SkipTally(t1, next, id);
        PumpTally(Skip(t1, next), Later(auth), id);
      } else if next.payload.session in t1.exact {
        RetryTally(t1, Ahead(next), t1.exact[next.payload.session], Later(auth), id);
      } else {
        StartTally(t1, Fresh(next), PrepareResync(t1, next.payload), 0, Later(auth), id);
      }
    }
  }

  lemma ContinueTally(t: Transport, next: Queued, auth: seq<bool>, id: nat)
    requires t.drain == Idle
    ensures Tally(ContinueWith(t, next, auth), id) == Tally(t, id) + One(next.id, id)
  {
    hide GiveUp, Attempt, Pump, Tally;
    SkipTally(t, next, id);
    PumpTally(Skip(t, next), auth, id);
    StartTally(t, Fresh(next), PrepareResync(t, next.payload), 0, auth, id);
  }

  lemma AcceptTally(t: Transport, p: Payload, exact: map<string, Payload>, id: nat)
    ensures Tally(Accept(t.(exact := exact), p), id) == Tally(t, id)
  {
    hide Resolved, Waits;
  }

  lemma AfterDeliveryTally(t: Transport, purpose: Purpose, p: Payload, outcome: Outcome, auth: seq<bool>, id: nat)
    requires t.drain == Idle
    ensures Tally(AfterDelivery(t, purpose, p, outcome, auth), id) == Tally(t, id) + Bound(purpose, id)
  {
    hide GiveUp, Attempt, Pump, Tally, ContinueWith, StartRetry, Cleared;
    match purpose {
      case Fresh(next) =>
        var t1 := if outcome == Delivered then Accept(t, p) else t;
        AcceptTally(t, p, t.exact, id);
        assert t.(exact := t.exact) == t;
        ResolveTally(t1, next.id, outcome == Delivered, id);
        PumpTally(Resolve(t1, next.id, outcome == Delivered), auth, id);
      case Ahead(next) =>
        SkipTally(t, next, id);
        PumpTally(Skip(t, next), Later(auth), id);
        ContinueTally(t, next, auth, id);
        AcceptTally(t, p, t.exact - {next.payload.session}, id);
        ContinueTally(Accept(t.(exact := t.exact - {next.payload.session}), p), next, auth, id);
      case IdleRetry(rest) =>
        var t1 := if outcome == Delivered then Accept(t.(exact := t.exact - {p.session}), p) else t;
        AcceptTally(t, p, t.exact - {p.session}, id);
        PumpTally(t1, auth, id);
        if rest != [] {
          RetryTally(t1, IdleRetry(rest[1..]), rest[0], auth, id);
        }
    }
  }

  lemma ResolveTally(t: Transport, done: nat, delivered: bool, id: nat)
    ensures Tally(Resolve(t, done, delivered), id) == Tally(t, id) + One(done, id)
  {
    ResolvedAppend(t.log.resolved, Resolution(done, delivered), id);
  }

  lemma SuspendedTally(t: Transport, answer: Answer, auth: seq<bool>)
    requires t.drain.Busy? && !t.drain.delivery.at.Returned?
    ensures Resume(t, answer, auth).log.resolved == t.log.resolved
  {
    hide Fail, BlockForAuth, Attempt;
    var purpose, d := t.drain.purpose, t.drain.delivery;
    FailResolvesNothing(t, purpose, d.payload, d.attempts, answer != Permanent);
    AttemptResolvesNothing(t, purpose, d.payload, d.attempts, auth);
  }

  lemma ResumeTally(t: Transport, answer: Answer, auth: seq<bool>, id: nat)
    requires t.drain.Busy?
    ensures Tally(Resume(t, answer, auth), id) == Tally(t, id)
  {
    if t.drain.delivery.at.Returned? {
      hide AfterDelivery, Resolved, Waits;
      AfterDeliveryTally(t.(drain := Idle), t.drain.purpose, t.drain.delivery.payload,
                         t.drain.delivery.at.outcome, auth, id);
    } else {
      hide Resume, Resolved, Waits;
      ResumeKeepsPurpose(t, answer, auth);
      SuspendedTally(t, answer, auth);
    }
  }

  lemma {:induction false} EvictTally(t: Transport, id: nat)
    ensures Tally(Evict(t), id) == Tally(t, id)
    decreases |t.queue|
  {
    hide GiveUp, Resolved;
    if |t.queue| >= t.limits.maxQueued && t.queue != [] {
      SkipTally(t.(queue := t.queue[1..]), t.queue[0], id);
      EvictTally(AsOverflow(Skip(t.(queue := t.queue[1..]), t.queue[0])), id);
    }
  }

  lemma {:induction false} AbandonTally(t: Transport, id: nat)
    ensures Tally(Abandon(t), id) == Tally(t, id)
    decreases |t.queue|
  {
    hide GiveUp, Resolved;
    if t.queue != [] {
      SkipTally(t.(queue := t.queue[1..]), t.queue[0], id);
      AbandonTally(Skip(t.(queue := t.queue[1..]), t.queue[0]), id);
    }
  }

  lemma SendTally(t: Transport, p: Payload, serializable: bool, auth: seq<bool>, id: nat)
    ensures Tally(Send(t, p, serializable, auth), id) == Tally(t, id) + One(t.log.issued, id)
  {
    hide GiveUp, Evict, Pump, Refused, Resolved, Waits;
    var t1 := NoteSent(t, p);
    EvictTally(t1, id);
    WaitsAppend(Evict(t1).queue, Queued(t.log.issued, p), id);
    ResolvedAppend(t.log.resolved, Resolution(t.log.issued, false), id);
    RejectResolves(t, p);
    if t.drain == Idle {
      var t2 := Enqueue(t, p);
      PumpTally(t2.(attempted := {}, log := t2.log.(retried := [])), Later(auth), id);
    }
  }

  lemma RejectResolves(t: Transport, p: Payload)
    ensures forall track :: Reject(t, p, track).log.resolved == t.log.resolved + [Resolution(t.log.issued, false)]
  {
    hide GiveUp;
  }

  lemma FlushTally(t: Transport, order: seq<string>, auth: seq<bool>, id: nat)
    ensures Tally(Flush(t, order, auth), id) == Tally(t, id)
  {
    hide StartRetry, Resolved, Waits;
    if t.drain == Idle && t.exact != map[] && t.queue == [] && Enumerates(order, t.exact.Keys) {
      EnumerationIndexes(order, t.exact.Keys);
      assert t.exact.Keys != {};
      var requests := Requests(t.exact, order);
      RetryTally(t.(attempted := {}, log := t.log.(retried := [])), IdleRetry(requests[1..]), requests[0], auth, id);
    }
  }

  lemma StepTally(t: Transport, input: Input, id: nat)
    requires Tally(t, id) == if id < t.log.issued then 1 else 0
    ensures Tally(Step(t, input), id) == if id < Step(t, input).log.issued then 1 else 0
  {
    hide Tally, Send, Resume, Flush, Abandon;
    match input {
      case Sending(p, serializable, auth) => SendTally(t, p, serializable, auth, id);
      case Resuming(answer, auth) =>
        if t.drain.Busy? {
          ResumeTally(t, answer, auth, id);
        } else {
          ResumeStutters(t, answer, auth);
        }
      case Flushing(order, auth) => FlushTally(t, order, auth, id);
      case Stopping =>
        AbandonTally(t.(stopped := true), id);
        assert Tally(t.(stopped := true), id) == Tally(t, id) by { StoppedTally(t, id); }
    }
  }

  lemma StoppedTally(t: Transport, id: nat)
    ensures Tally(t.(stopped := true), id) == Tally(t, id)
  {
  }

  /** Over every run each promise is resolved, waiting or in hand: exactly one of them, exactly once. */
  lemma {:induction false} ResolvedExactlyOnce(limits: Limits, inputs: seq<Input>, id: nat)
    ensures Tally(Run(limits, inputs), id) == if id < Run(limits, inputs).log.issued then 1 else 0
  {
    if inputs != [] {
      ResolvedExactlyOnce(limits, inputs[..|inputs| - 1], id);
      hide Tally, Step;
      StepTally(Run(limits, inputs[..|inputs| - 1]), inputs[|inputs| - 1], id);
    }
  }

  // ---- termination -----------------------------------------------------------------------

  /** Bounds the continuations of one delivery, from its first POST on. */
  function DeliveryBound(limits: Limits): nat {
    2 * limits.maxAttempts + 2
  }

  /** Continuations a suspended delivery may still need, counting the drain loop's own. */
  function Remaining(limits: Limits, d: Delivery): nat {
    var attempts := if d.attempts <= limits.maxAttempts then limits.maxAttempts - d.attempts else 0;
    match d.at
    case AwaitPost => 2 * attempts + 4
    case AwaitSleep => 2 * attempts + 3
    case AwaitBody => 3
    case AwaitObserver => 2
    case Returned(_) => 1
  }

  function Times(n: nat, d: nat): nat {
    if n == 0 then 0 else d + Times(n - 1, d)
  }

  function DrainWork(limits: Limits, drain: Drain): nat {
    if !drain.Busy? then 0
    else
      Remaining(limits, drain.delivery) +
      match drain.purpose
      case Fresh(_) => 0
      case Ahead(_) => DeliveryBound(limits)
      case IdleRetry(rest) => Times(|rest|, DeliveryBound(limits))
  }

  /** Each queue entry may cost the retry of a retained request and its own delivery. */
  function Work(t: Transport): nat {
    Times(|t.queue|, 2 * DeliveryBound(t.limits)) + DrainWork(t.limits, t.drain)
  }

  lemma AttemptWork(t: Transport, purpose: Purpose, p: Payload, attempts: nat, auth: seq<bool>)
    requires attempts < t.limits.maxAttempts
    ensures Remaining(t.limits, Attempt(t, purpose, p, attempts, auth).drain.delivery)
         <= 2 * (t.limits.maxAttempts - attempts) + 2
  {
    BlockWork(t, purpose, p, attempts);
    hide BlockForAuth;
  }

  lemma BlockWork(t: Transport, purpose: Purpose, p: Payload, attempts: nat)
    ensures BlockForAuth(t, purpose, p, attempts).drain.delivery.at.Returned?
    ensures forall retryable :: Fail(t, purpose, p, attempts, retryable).drain.delivery.at.Returned?
  {
    hide GiveUp, RememberExactRetry, CanRemember;
  }

  lemma StartWork(t: Transport, purpose: Purpose, p: Payload, auth: seq<bool>)
    requires t.limits.Positive()
    ensures Remaining(t.limits, Attempt(t, purpose, p, 0, auth).drain.delivery) <= DeliveryBound(t.limits)
    ensures Remaining(t.limits, StartRetry(t, purpose, p, auth).drain.delivery) <= DeliveryBound(t.limits)
  {
    AttemptWork(t, purpose, p, 0, auth);
    AttemptWork(t.(attempted := t.attempted + {p.session}, log := t.log.(retried := t.log.retried + [p.session])),
                purpose, p, 0, auth);
    hide Attempt;
  }

  lemma {:induction false} PumpWork(t: Transport, auth: seq<bool>)
    requires t.limits.Positive()
    ensures Work(Pump(t, auth)) <= Times(|t.queue|, 2 * DeliveryBound(t.limits))
    decreases |t.queue|
  {
    hide GiveUp, Attempt, Remaining;
    if t.queue != [] {
      var next := t.queue[0];
      var t1 := t.(queue := t.queue[1..], drain := Idle);
      if !Current(auth) || Refused(t1, next.payload)
         || (next.payload.session in t1.exact && next.payload.session in t1.attempted) {
        PumpWork(Skip(t1, next), Later(auth));
      } else if next.payload.session in t1.exact {
        StartWork(t1, Ahead(next), t1.exact[next.payload.session], Later(auth));
      } else {
        StartWork(t1, Fresh(next), PrepareResync(t1, next.payload), Later(auth));
      }
    }
  }

  lemma ContinueWork(t: Transport, next: Queued, auth: seq<bool>)
    requires t.limits.Positive()
    ensures Work(ContinueWith(t, next, auth))
         <= Times(|t.queue|, 2 * DeliveryBound(t.limits)) + DeliveryBound(t.limits)
  {
    hide GiveUp, Attempt, Pump, Remaining, Times;
    PumpWork(Skip(t, next), auth);
    StartWork(t, Fresh(next), PrepareResync(t, next.payload), auth);
  }

  lemma AfterDeliveryWork(t: Transport, purpose: Purpose, p: Payload, outcome: Outcome, auth: seq<bool>)
    requires t.limits.Positive()
    ensures Work(AfterDelivery(t, purpose, p, outcome, auth))
         <= Times(|t.queue|, 2 * DeliveryBound(t.limits))
            + DrainWork(t.limits, Busy(purpose, Delivery(p, 0, Returned(outcome)))) - 1
  {
    hide GiveUp, Pump, ContinueWith, StartRetry, DeliveryBound;
    match purpose {
      case Fresh(next) =>
        var t1 := if outcome == Delivered then Accept(t, p) else t;
        PumpWork(Resolve(t1, next.id, outcome == Delivered), auth);
      case Ahead(next) =>
        PumpWork(Skip(t, next), Later(auth));
        ContinueWork(t, next, auth);
        ContinueWork(Accept(t.(exact := t.exact - {next.payload.session}), p), next, auth);
      case IdleRetry(rest) =>
        var t1 := if outcome == Delivered then Accept(t.(exact := t.exact - {p.session}), p) else t;
        PumpWork(t1, auth);
        if rest != [] {
          StartWork(t1, IdleRetry(rest[1..]), rest[0], auth);
          RetryFrame(t1, IdleRetry(rest[1..]), rest[0], auth);
        }
    }
  }

  lemma RetryFrame(t: Transport, purpose: Purpose, p: Payload, auth: seq<bool>)
    ensures var r := StartRetry(t, purpose, p, auth);
            r.drain.Busy? && r.drain.purpose == purpose && r.queue == t.queue && r.limits == t.limits
  {
    hide Attempt;
  }

  lemma SuspendedWork(t: Transport, answer: Answer, auth: seq<bool>)
    requires Shape(t) && t.drain.Busy? && !t.drain.delivery.at.Returned?
    ensures Remaining(t.limits, Resume(t, answer, auth).drain.delivery) < Remaining(t.limits, t.drain.delivery)
  {
    hide Core, Holds, Fail, BlockForAuth, Attempt;
    var purpose, d := t.drain.purpose, t.drain.delivery;
    BlockWork(t, purpose, d.payload, d.attempts);
    if d.at == AwaitSleep {
      AttemptWork(t, purpose, d.payload, d.attempts, auth);
    }
  }

  /** Each continuation of a drain run brings its end closer. */
  lemma ResumeDecreases(t: Transport, answer: Answer, auth: seq<bool>)
    requires Shape(t) && t.drain.Busy?
    ensures Work(Resume(t, answer, auth)) < Work(t)
  {
    if t.drain.delivery.at.Returned? {
      AfterDeliveryWork(t.(drain := Idle), t.drain.purpose, t.drain.delivery.payload,
                        t.drain.delivery.at.outcome, auth);
      hide AfterDelivery, Times, DeliveryBound;
    } else {
      SuspendedWork(t, answer, auth);
      ResumeKeepsPurpose(t, answer, auth);
      hide Resume, Remaining, Times, DeliveryBound;
    }
  }

  datatype Continuation = Continuation(answer: Answer, auth: seq<bool>)

  function Resumptions(t: Transport, continuations: seq<Continuation>): Transport
    decreases |continuations|
  {
    if continuations == [] then t
    else Resumptions(Resume(t, continuations[0].answer, continuations[0].auth), continuations[1..])
  }

  /**
   Whatever the server and the authorization context answer, finitely many continuations end the
   drain run with an empty queue and every issued promise resolved once.
   */
  lemma {:induction false} DrainRunEnds(t: Transport, continuations: seq<Continuation>, id: nat)
    requires Shape(t) && Wakeful(t) && t.drain != Stuck && |continuations| >= Work(t)
    requires Tally(t, id) == if id < t.log.issued then 1 else 0
    ensures var r := Resumptions(t, continuations);
            && r.drain == Idle && r.queue == [] && r.log.issued == t.log.issued
            && Resolved(r.log.resolved, id) == if id < t.log.issued then 1 else 0
    decreases |continuations|
  {
    hide Shape, Wakeful, Sticky, AdmitsOnlyRecovery, Resume, Resolved;
    if continuations == [] {
      assert !t.drain.Busy? && t.queue == [] by { NoWork(t); }
    } else {
      var c := continuations[0];
      var t1 := Resume(t, c.answer, c.auth);
      StepKeeps(t, Resuming(c.answer, c.auth));
      StepTally(t, Resuming(c.answer, c.auth), id);
      if t.drain.Busy? {
        ResumeDecreases(t, c.answer, c.auth);
        NotStuckAfter(t, c.answer, c.auth);
      } else {
        ResumeStutters(t, c.answer, c.auth);
        assert Work(t1) == 0 by { NoWorkWhenIdle(t); }
      }
      DrainRunEnds(t1, continuations[1..], id);
    }
  }

  lemma NotStuckAfter(t: Transport, answer: Answer, auth: seq<bool>)
    requires Shape(t) && t.drain.Busy?
    ensures Resume(t, answer, auth).drain != Stuck
  {
    hide Core, Holds, Resume;
    if t.drain.delivery.at.Returned? {
      AfterDeliveryKeeps(t, answer, auth);
    } else {
      ResumeKeepsPurpose(t, answer, auth);
    }
  }

  lemma NoWork(t: Transport)
    requires Work(t) == 0 && Wakeful(t)
    ensures !t.drain.Busy? && t.queue == []
  {
    hide Times;
    if t.queue != [] && t.drain == Stuck {
      assert Times(|t.queue|, 2 * DeliveryBound(t.limits)) == 0;
      SomeWork(|t.queue|, 2 * DeliveryBound(t.limits));
    }
  }

  lemma SomeWork(n: nat, d: nat)
    requires n > 0 && d > 0
    ensures Times(n, d) > 0
  {
  }

  lemma NoWorkWhenIdle(t: Transport)
    requires t.drain == Idle && Wakeful(t)
    ensures Work(t) == 0 && t.queue == []
  {
  }
}
