/**
 Conservation in the transport: what a payload accounts for, its observations and the losses it
 declares, is at every moment waiting, in hand, retained, accepted, or given up, and never in two
 of these places.
 */
module LossAccounting {
  import opened Wrappers
  import opened Capture
  import opened TransportModel
  import opened TransportShape
  import opened TransportLedger
  import opened GapFree
  import opened Sets

  function QueueUnits(queue: seq<Queued>): int {
    if queue == [] then 0 else Units(queue[0].payload) + QueueUnits(queue[1..])
  }

  lemma QueueUnitsAppend(queue: seq<Queued>, next: Queued)
    ensures QueueUnits(queue + [next]) == QueueUnits(queue) + Units(next.payload)
  {
    if queue == [] {
      assert queue + [next] == [next];
    } else {
      assert (queue + [next])[1..] == queue[1..] + [next];
      QueueUnitsAppend(queue[1..], next);
    }
  }

  function AcceptedUnits(accepted: seq<Payload>): int {
    if accepted == [] then 0
    else AcceptedUnits(accepted[..|accepted| - 1]) + Units(accepted[|accepted| - 1])
  }

  lemma AcceptedUnitsAppend(accepted: seq<Payload>, p: Payload)
    ensures AcceptedUnits(accepted + [p]) == AcceptedUnits(accepted) + Units(p)
  {
    assert (accepted + [p])[..|accepted|] == accepted;
  }

  function LossUnits(losses: seq<Loss>): int {
    if losses == [] then 0 else LossUnits(losses[..|losses| - 1]) + Units(losses[|losses| - 1].payload)
  }

  lemma LossUnitsAppend(losses: seq<Loss>, loss: Loss)
    ensures LossUnits(losses + [loss]) == LossUnits(losses) + Units(loss.payload)
  {
    assert (losses + [loss])[..|losses|] == losses;
  }

  ghost function ExactUnits(exact: map<string, Payload>): int {
    if exact == map[] then 0
    else
      var s :| s in exact;
      Units(exact[s]) + ExactUnits(exact - {s})
  }

  /** The sum over retained requests does not depend on the order they are taken in. */
  lemma {:induction false} ExactUnitsWithout(exact: map<string, Payload>, session: string)
    requires session in exact
    ensures ExactUnits(exact) == Units(exact[session]) + ExactUnits(exact - {session})
  {
    var s :| s in exact && ExactUnits(exact) == Units(exact[s]) + ExactUnits(exact - {s});
    if s != session {
      ExactUnitsWithout(exact - {s}, session);
      ExactUnitsWithout(exact - {session}, s);
      assert exact - {s} - {session} == exact - {session} - {s};
    }
  }

  lemma ExactUnitsWith(exact: map<string, Payload>, p: Payload)
    requires p.session !in exact
    ensures ExactUnits(exact[p.session := p]) == ExactUnits(exact) + Units(p)
  {
    ExactUnitsWithout(exact[p.session := p], p.session);
    assert exact[p.session := p] - {p.session} == exact;
  }

  function HandUnits(hand: Option<Payload>): int {
    if hand.Some? then Units(hand.value) else 0
  }

  /** Everything the transport ever accounted for, by where it is now. */
  ghost function Accounted(t: Transport, hand: Option<Payload>): int {
    QueueUnits(t.queue) + HandUnits(hand) + ExactUnits(t.exact)
    + AcceptedUnits(t.log.accepted) + LossUnits(t.log.losses)
  }

  ghost function Account(t: Transport): int {
    Accounted(t, HandNow(t))
  }

  lemma GiveUpAccount(t: Transport, p: Payload, track: bool, hand: Option<Payload>)
    ensures Accounted(GiveUp(t, p, track), hand) == Accounted(t, hand) + Units(p)
  {
    hide Units, Tracks, ExactUnits;
    LossUnitsAppend(t.log.losses, Loss(p, track && Tracks(t, p), false));
  }

  lemma SkipAccount(t: Transport, next: Queued, hand: Option<Payload>)
    ensures Accounted(Skip(t, next), hand) == Accounted(t, hand) + Units(next.payload)
  {
    GiveUpAccount(t, next.payload, true, hand);
    hide GiveUp, Units, ExactUnits;
  }

  lemma SameUnits(a: Payload, b: Payload)
    requires SameDrain(a, b)
    ensures Units(a) == Units(b)
  {
  }

  lemma PreparedUnits(t: Transport, p: Payload)
    ensures Units(PrepareResync(t, p)) == Units(p)
  {
    SameUnits(PrepareResync(t, p), p);
  }

  /** A delivery under way, with its fresh body or its waiting entry in hand. */
  lemma RetainAccount(t: Transport, purpose: Purpose, p: Payload, attempts: nat)
    requires Running(t, purpose, p, attempts)
    ensures Account(RetainExactRetry(t, purpose, p, attempts)) == Accounted(t, Hand(purpose, p))
  {
    hide Core, HoldsRest, GiveUp, Units, ExactUnits, CanRemember;
    if Keeps(t, p) {
      if p.session !in t.exact {
        ExactUnitsWith(t.exact, p);
      }
    } else {
      GiveUpAccount(RememberExactRetry(t, p), p, true, None);
    }
  }

  lemma DropAccount(t: Transport, purpose: Purpose, p: Payload, attempts: nat)
    requires Running(t, purpose, p, attempts)
    ensures Account(Fail(t, purpose, p, attempts, false)) == Accounted(t, Hand(purpose, p))
  {
    hide Core, HoldsRest, GiveUp, Units, ExactUnits;
    GiveUpAccount(t, p, true, HandNow(Fail(t, purpose, p, attempts, false)));
    if p.session in t.exact {
      ExactUnitsWithout(t.exact, p.session);
    }
  }

  lemma FailAccount(t: Transport, purpose: Purpose, p: Payload, attempts: nat, retryable: bool)
    requires Running(t, purpose, p, attempts)
    ensures Account(Fail(t, purpose, p, attempts, retryable)) == Accounted(t, Hand(purpose, p))
  {
    RetainAccount(t, purpose, p, attempts);
    DropAccount(t, purpose, p, attempts);
    hide Running, Account, Accounted, GiveUp, RetainExactRetry;
  }

  lemma BlockAccount(t: Transport, purpose: Purpose, p: Payload, attempts: nat)
    requires Running(t, purpose, p, attempts)
    ensures Account(BlockForAuth(t, purpose, p, attempts)) == Accounted(t, Hand(purpose, p))
  {
    RetainAccount(t, purpose, p, attempts);
    DropAccount(t, purpose, p, attempts);
    hide Within, RetriesOnce, HoldsRest, Account, Accounted, GiveUp, RetainExactRetry;
  }

  lemma AttemptAccount(t: Transport, purpose: Purpose, p: Payload, attempts: nat, auth: seq<bool>)
    requires Running(t, purpose, p, attempts)
    ensures Account(Attempt(t, purpose, p, attempts, auth)) == Accounted(t, Hand(purpose, p))
  {
    BlockAccount(t, purpose, p, attempts);
    hide Running, BlockForAuth, Units, ExactUnits;
  }

  lemma StartRetryAccount(t: Transport, purpose: Purpose, p: Payload, auth: seq<bool>)
    requires Core(t) && Retains(t.exact, p) && p.session !in t.attempted
    requires match purpose
             case Fresh(_) => false
             case Ahead(next) => next.payload.session == p.session
             case IdleRetry(rest) => HoldsRest(t.exact, t.attempted, p, rest)
    ensures Account(StartRetry(t, purpose, p, auth)) == Accounted(t, Hand(purpose, p))
  {
    hide Within, Attempt, Units, ExactUnits;
    var t1 := t.(attempted := t.attempted + {p.session},
                 log := t.log.(retried := t.log.retried + [p.session]));
    assert forall s :: s in t1.log.retried <==> s in t.log.retried || s == p.session;
    assert RecoverySessions(t1) == RecoverySessions(t);
    AttemptAccount(t1, purpose, p, 0, auth);
  }

  lemma StartFreshAccount(t: Transport, next: Queued, auth: seq<bool>)
    requires Core(t) && next.payload.session !in t.exact
    ensures Account(StartFresh(t, next, auth)) == Accounted(t, Some(next.payload))
  {
    var p := PrepareResync(t, next.payload);
    assert SameDrain(p, next.payload) && p.session !in t.exact;
    PreparedUnits(t, next.payload);
    hide Core, Attempt, Units, PrepareResync, ExactUnits;
    AttemptAccount(t, Fresh(next), p, 0, auth);
  }

  lemma {:induction false} PumpAccount(t: Transport, auth: seq<bool>)
    requires Core(t)
    ensures Account(Pump(t, auth)) == Accounted(t, None)
    decreases |t.queue|
  {
    hide Core, Units, GiveUp, StartFresh, StartRetry, ExactUnits;
    if t.queue != [] {
      var next := t.queue[0];
      var t1 := t.(queue := t.queue[1..], drain := Idle);
      assert Accounted(t, None) == Accounted(t1, Some(next.payload));
      PopKeeps(t);
      if !Current(auth) || Refused(t1, next.payload)
         || (next.payload.session in t1.exact && next.payload.session in t1.attempted) {
        SkipKeeps(t1, next);
        SkipAccount(t1, next, None);
        PumpAccount(Skip(t1, next), Later(auth));
      } else if next.payload.session in t1.exact {
        AheadAccount(t1, next, Later(auth));
      } else {
        StartFreshAccount(t1, next, Later(auth));
      }
    }
  }

  lemma AheadAccount(t: Transport, next: Queued, auth: seq<bool>)
    requires Core(t) && next.payload.session in t.exact && next.payload.session !in t.attempted
    ensures Account(StartRetry(t, Ahead(next), t.exact[next.payload.session], auth)) == Accounted(t, Some(next.payload))
  {
    StartRetryAccount(t, Ahead(next), t.exact[next.payload.session], auth);
  }

  lemma ContinueAccount(t: Transport, next: Queued, auth: seq<bool>)
    requires Core(t) && t.drain == Idle && next.payload.session !in t.exact
    ensures Account(ContinueWith(t, next, auth)) == Accounted(t, Some(next.payload))
  {
    hide Core, Units, GiveUp, StartFresh, Pump, ExactUnits;
    if Refused(t, next.payload) {
      SkipKeeps(t, next);
      SkipAccount(t, next, None);
      PumpAccount(Skip(t, next), auth);
    } else {
      StartFreshAccount(t, next, auth);
    }
  }

  lemma AcceptAccount(t: Transport, p: Payload, hand: Option<Payload>)
    ensures Accounted(Accept(t, p), hand) == Accounted(t, hand) + Units(p)
  {
    hide Units, ExactUnits;
    AcceptedUnitsAppend(t.log.accepted, p);
  }

  lemma ForgetAcceptAccount(t: Transport, p: Payload, hand: Option<Payload>)
    requires Retains(t.exact, p)
    ensures Accounted(Accept(t.(exact := t.exact - {p.session}), p), hand) == Accounted(t, hand)
  {
    hide Units, ExactUnits, Accept;
    ExactUnitsWithout(t.exact, p.session);
    AcceptAccount(t.(exact := t.exact - {p.session}), p, hand);
  }

  lemma AfterFreshAccount(t: Transport, next: Queued, p: Payload, outcome: Outcome, auth: seq<bool>)
    requires Core(t) && t.drain == Idle
    ensures Account(AfterFresh(t, next, p, outcome, auth))
         == Accounted(t, if outcome == Delivered then Some(p) else None)
  {
    hide Within, Keyed, RetriesOnce, Size, Units, Pump, ExactUnits;
    CoreAccept(t, p);
    AcceptAccount(t, p, None);
    var t1 := if outcome == Delivered then Accept(t, p) else t;
    assert RecoverySessions(Resolve(t1, next.id, outcome == Delivered)) == RecoverySessions(t1);
    PumpAccount(Resolve(t1, next.id, outcome == Delivered), auth);
  }

  lemma AfterAheadAccount(t: Transport, next: Queued, p: Payload, outcome: Outcome, auth: seq<bool>)
    requires Core(t) && t.drain == Idle && Holds(t.exact, t.attempted, Ahead(next), p, Returned(outcome))
    ensures Account(AfterAhead(t, next, p, outcome, auth)) == Accounted(t, Some(next.payload))
  {
    hide Within, Keyed, RetriesOnce, Size, RecoverySessions, GiveUp, Pump, ContinueWith, Units, Accounted;
    if outcome == Delivered {
      ForgetAcceptKeeps(t, p, next.payload.session);
      ForgetAcceptAccount(t, p, Some(next.payload));
      ContinueAccount(Accept(t.(exact := t.exact - {next.payload.session}), p), next, auth);
    } else if next.payload.session in t.exact || t.saturated {
      SkipKeeps(t, next);
      SkipThenPumpAccount(t, next, Later(auth));
    } else {
      ContinueAccount(t, next, auth);
    }
  }

  lemma SkipThenPumpAccount(t: Transport, next: Queued, auth: seq<bool>)
    requires Core(Skip(t, next))
    ensures Account(Pump(Skip(t, next), auth)) == Accounted(t, Some(next.payload))
  {
    hide Core, Pump, Skip, Units, ExactUnits;
    SkipAccount(t, next, None);
    PumpAccount(Skip(t, next), auth);
  }

  lemma AfterIdleAccount(t: Transport, rest: seq<Payload>, p: Payload, outcome: Outcome, auth: seq<bool>)
    requires Core(t) && t.drain == Idle && Holds(t.exact, t.attempted, IdleRetry(rest), p, Returned(outcome))
    ensures Account(AfterIdleRetry(t, rest, p, outcome, auth)) == Accounted(t, None)
  {
    hide Within, Keyed, RetriesOnce, Size, RecoverySessions, GiveUp, Pump, StartRetry, Units, Accounted;
    var t1 := t;
    if outcome == Delivered {
      ForgetAcceptKeeps(t, p, p.session);
      ForgetAcceptAccount(t, p, None);
      t1 := Accept(t.(exact := t.exact - {p.session}), p);
    }
    if rest == [] {
      PumpAccount(t1, auth);
    } else {
      StartRetryAccount(t1, IdleRetry(rest[1..]), rest[0], auth);
    }
  }

  lemma IdleAccount(t: Transport, hand: Option<Payload>)
    requires Core(t)
    ensures Core(t.(drain := Idle)) && Accounted(t.(drain := Idle), hand) == Accounted(t, hand)
  {
    hide Size, Units, ExactUnits;
    assert RecoverySessions(t.(drain := Idle)) == RecoverySessions(t);
  }

  lemma ResumeAccount(t: Transport, answer: Answer, auth: seq<bool>)
    requires Shape(t) && t.drain.Busy?
    ensures Account(Resume(t, answer, auth)) == Account(t)
  {
    hide Core, HoldsRest, RecoverySessions, Units, Accounted, AfterFresh, AfterAhead, AfterIdleRetry, Fail,
        BlockForAuth, Attempt;
    var purpose, d := t.drain.purpose, t.drain.delivery;
    var idle := t.(drain := Idle);
    match d.at {
      case Returned(outcome) =>
        IdleAccount(t, HandNow(t));
        match purpose {
          case Fresh(next) => AfterFreshAccount(idle, next, d.payload, outcome, auth);
          case Ahead(next) => AfterAheadAccount(idle, next, d.payload, outcome, auth);
          case IdleRetry(rest) => AfterIdleAccount(idle, rest, d.payload, outcome, auth);
        }
      case AwaitSleep => AttemptAccount(t, purpose, d.payload, d.attempts, auth);
      case AwaitPost =>
        FailAccount(t, purpose, d.payload, d.attempts, answer != Permanent);
        BlockAccount(t, purpose, d.payload, d.attempts);
        SuspendAccount(t, purpose, d.payload, d.attempts);
      case AwaitBody =>
        BlockAccount(t, purpose, d.payload, d.attempts);
        SuspendAccount(t, purpose, d.payload, d.attempts);
      case AwaitObserver => SuspendAccount(t, purpose, d.payload, d.attempts);
    }
  }

  lemma SuspendAccount(t: Transport, purpose: Purpose, p: Payload, attempts: nat)
    ensures forall at | at != Returned(Retained) && at != Returned(Dropped) ::
              Account(Suspend(t, purpose, p, attempts, at)) == Accounted(t, Hand(purpose, p))
  {
    hide Units, ExactUnits;
  }

  lemma OverflowAccount(t: Transport, hand: Option<Payload>)
    ensures Accounted(AsOverflow(t), hand) == Accounted(t, hand)
  {
    hide Units, ExactUnits;
    var losses := t.log.losses;
    if losses != [] {
      var marked := losses[|losses| - 1 := losses[|losses| - 1].(overflow := true)];
      assert marked[..|losses| - 1] == losses[..|losses| - 1];
    }
  }

  lemma DropFirstAccount(t: Transport, hand: Option<Payload>)
    requires t.queue != []
    ensures Accounted(Skip(t.(queue := t.queue[1..]), t.queue[0]), hand) == Accounted(t, hand)
  {
    hide Units, Skip, ExactUnits;
    SkipAccount(t.(queue := t.queue[1..]), t.queue[0], hand);
  }

  lemma {:induction false} EvictAccount(t: Transport, hand: Option<Payload>)
    ensures Accounted(Evict(t), hand) == Accounted(t, hand)
    decreases |t.queue|
  {
    hide Accounted, GiveUp;
    if |t.queue| >= t.limits.maxQueued && t.queue != [] {
      var t1 := Skip(t.(queue := t.queue[1..]), t.queue[0]);
      DropFirstAccount(t, hand);
      OverflowAccount(t1, hand);
      EvictAccount(AsOverflow(t1), hand);
    }
  }

  lemma {:induction false} AbandonAccount(t: Transport, hand: Option<Payload>)
    ensures Accounted(Abandon(t), hand) == Accounted(t, hand)
    decreases |t.queue|
  {
    hide Accounted, GiveUp;
    if t.queue != [] {
      DropFirstAccount(t, hand);
      AbandonAccount(Skip(t.(queue := t.queue[1..]), t.queue[0]), hand);
    }
  }

  lemma EnqueueAccount(t: Transport, p: Payload, hand: Option<Payload>)
    ensures Accounted(Enqueue(t, p), hand) == Accounted(t, hand) + Units(p)
  {
    hide Units, Evict, ExactUnits;
    EvictAccount(NoteSent(t, p), hand);
    QueueUnitsAppend(Evict(NoteSent(t, p)).queue, Queued(t.log.issued, p));
  }

  lemma RejectAccount(t: Transport, p: Payload, track: bool, hand: Option<Payload>)
    ensures Accounted(Reject(t, p, track), hand) == Accounted(t, hand) + Units(p)
  {
    hide Units, GiveUp, ExactUnits;
    GiveUpAccount(NoteSent(t, p), p, track, hand);
  }

  lemma StartDrainAccount(t: Transport, auth: seq<bool>)
    requires Shape(t) && t.drain == Idle
    ensures Account(StartDrain(t, auth)) == Accounted(t, None)
  {
    hide Within, Keyed, Size, Pump, Units, ExactUnits;
    var t1 := t.(attempted := {}, log := t.log.(retried := []));
    assert RecoverySessions(t1) == RecoverySessions(t);
    PumpAccount(t1, auth);
  }

  lemma SendAccount(t: Transport, p: Payload, serializable: bool, auth: seq<bool>)
    requires Shape(t) && Wakeful(t)
    ensures Account(Send(t, p, serializable, auth)) == Account(t) + Units(p)
  {
    hide Core, Holds, Units, Accounted, Reject, Enqueue, StartDrain, Refused;
    RejectAccount(t, p, true, HandNow(t));
    RejectAccount(t, p, false, HandNow(t));
    EnqueueAccount(t, p, HandNow(t));
    if Enters(t, p, serializable, auth) && t.drain == Idle {
      EnqueueKeeps(t, p);
      StartDrainAccount(Enqueue(t, p), Later(auth));
    }
  }

  lemma FlushAccount(t: Transport, order: seq<string>, auth: seq<bool>)
    requires Shape(t)
    ensures Account(Flush(t, order, auth)) == Account(t)
  {
    hide Within, Size, Keyed, HoldsRest, RetriesOnce, StartRetry, Enumerates, Units, ExactUnits;
    if t.drain == Idle && t.exact != map[] && t.queue == [] && Enumerates(order, t.exact.Keys) {
      var t1 := t.(attempted := {}, log := t.log.(retried := []));
      EnumerationIndexes(order, t.exact.Keys);
      assert t.exact.Keys != {};
      FlushHolds(t, order);
      var requests := Requests(t.exact, order);
      StartRetryAccount(t1, IdleRetry(requests[1..]), requests[0], auth);
    }
  }

  /** A step adds what a send brings and otherwise only moves units around. */
  lemma StepAccount(t: Transport, input: Input)
    requires Shape(t) && Wakeful(t)
    ensures Account(Step(t, input)) == Account(t) + (if input.Sending? then Units(input.payload) else 0)
  {
    hide Shape, Account, Send, Resume, Flush, Units;
    match input {
      case Sending(p, serializable, auth) => SendAccount(t, p, serializable, auth);
      case Resuming(answer, auth) =>
        if t.drain.Busy? {
          ResumeAccount(t, answer, auth);
        } else {
          ResumeStutters(t, answer, auth);
        }
      case Flushing(order, auth) => FlushAccount(t, order, auth);
      case Stopping => StopAccount(t);
    }
  }

  lemma StopAccount(t: Transport)
    ensures Account(Stop(t)) == Account(t)
  {
    hide Units, Abandon, ExactUnits;
    if !t.stopped {
      AbandonAccount(t.(stopped := true), HandNow(t));
    }
  }
}
