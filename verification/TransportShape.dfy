/**
 What every reachable transport looks like: the queue and the recovery ledger are within their
 bounds, the drain loop holds what its position says, each drain run retries a session at most
 once, and saturation never admits a session again.
 */
module TransportShape {
  import opened Wrappers
  import opened Capture
  import opened TransportModel
  import opened Sets

  /** The same drain up to the resync range the transport adds. */
  predicate SameDrain(a: Payload, b: Payload) {
    a.(resync := None) == b.(resync := None)
  }

  ghost predicate Within(sessions: set<string>, bound: nat) {
    Size(sessions) <= bound
  }

  ghost predicate Keyed(exact: map<string, Payload>) {
    forall s | s in exact :: exact[s].session == s && Sequence(exact[s]) > 0
  }

  /** A drain run never retries the retained request of one session twice. */
  ghost predicate RetriesOnce(attempted: set<string>, retried: seq<string>) {
    && (forall s :: s in attempted <==> s in retried)
    && forall i, j :: 0 <= i < j < |retried| ==> retried[i] != retried[j]
  }

  ghost predicate Core(t: Transport) {
    && t.limits.Positive()
    && |t.queue| <= t.limits.maxQueued
    && Within(RecoverySessions(t), t.limits.maxSessions)
    && Keyed(t.exact)
    && RetriesOnce(t.attempted, t.log.retried)
  }

  predicate Retains(exact: map<string, Payload>, p: Payload) {
    p.session in exact && exact[p.session] == p
  }

  /** The retained request being retried stays retained until it is dropped. */
  predicate HoldsRetry(exact: map<string, Payload>, attempted: set<string>, p: Payload, at: Point) {
    p.session in attempted && (if at == Returned(Dropped) then p.session !in exact else Retains(exact, p))
  }

  ghost predicate HoldsRest(exact: map<string, Payload>, attempted: set<string>, p: Payload, rest: seq<Payload>) {
    && (forall i | 0 <= i < |rest| ::
          Retains(exact, rest[i]) && rest[i].session !in attempted && rest[i].session != p.session)
    && forall i, j | 0 <= i < j < |rest| :: rest[i].session != rest[j].session
  }

  ghost predicate Holds(exact: map<string, Payload>, attempted: set<string>, purpose: Purpose, p: Payload, at: Point) {
    match purpose
    case Fresh(next) =>
      && SameDrain(p, next.payload)
      && (if at == Returned(Retained) then Retains(exact, p) else p.session !in exact)
    case Ahead(next) =>
      next.payload.session == p.session && HoldsRetry(exact, attempted, p, at)
    case IdleRetry(rest) =>
      HoldsRetry(exact, attempted, p, at) && HoldsRest(exact, attempted, p, rest)
  }

  /** A delivery POSTs at most `maxAttempts` times, and sleeps only before another attempt. */
  predicate AttemptsLeft(limits: Limits, d: Delivery) {
    d.attempts <= limits.maxAttempts && (d.at == AwaitSleep ==> d.attempts < limits.maxAttempts)
  }

  ghost predicate Shape(t: Transport) {
    && Core(t)
    && (t.drain.Busy? ==>
          && AttemptsLeft(t.limits, t.drain.delivery)
          && Holds(t.exact, t.attempted, t.drain.purpose, t.drain.delivery.payload, t.drain.delivery.at))
  }

  /** Once saturated, always saturated, and no session joins the recovery ledger. */
  ghost predicate Sticky(t: Transport, t': Transport) {
    t.saturated ==> t'.saturated && RecoverySessions(t') <= RecoverySessions(t)
  }

  lemma AddSession(sessions: set<string>, session: string)
    ensures Size(sessions + {session}) == if session in sessions then Size(sessions) else Size(sessions) + 1
  {
    if session in sessions {
      assert sessions + {session} == sessions;
    }
  }

  lemma RememberDroppedSessions(t: Transport, p: Payload)
    ensures RecoverySessions(RememberDroppedDrain(t, p))
         == RecoverySessions(t) + (if Tracks(t, p) then {p.session} else {})
  {
    hide Size, Widened;
  }

  lemma GiveUpLedger(t: Transport, p: Payload, track: bool)
    requires Within(RecoverySessions(t), t.limits.maxSessions)
    ensures Within(RecoverySessions(GiveUp(t, p, track)), t.limits.maxSessions)
    ensures Sticky(t, GiveUp(t, p, track))
  {
    hide Size;
    RememberDroppedSessions(t, p);
    AddSession(RecoverySessions(t), p.session);
    assert RecoverySessions(GiveUp(t, p, track))
        == RecoverySessions(t) + (if track && Tracks(t, p) then {p.session} else {});
  }

  lemma RetainLedger(t: Transport, p: Payload)
    requires Within(RecoverySessions(t), t.limits.maxSessions)
    ensures Within(RecoverySessions(RememberExactRetry(t, p)), t.limits.maxSessions)
    ensures Sticky(t, RememberExactRetry(t, p))
  {
    hide Size;
    AddSession(RecoverySessions(t), p.session);
    assert RecoverySessions(RememberExactRetry(t, p))
        == RecoverySessions(t) + (if p.session !in t.exact && CanRemember(t, p.session) then {p.session} else {});
  }

  /** Whatever only shrinks the ledger keeps it bounded and, once saturated, closed. */
  lemma ShrinkLedger(t: Transport, t': Transport)
    requires Within(RecoverySessions(t), t.limits.maxSessions) && t'.limits == t.limits
    requires RecoverySessions(t') <= RecoverySessions(t) && t'.saturated == t.saturated
    ensures Within(RecoverySessions(t'), t'.limits.maxSessions) && Sticky(t, t')
  {
    SizeGrows(RecoverySessions(t'), RecoverySessions(t));
  }

  // ---- the pieces of a step --------------------------------------------------------------

  lemma CoreGiveUp(t: Transport, p: Payload, track: bool)
    requires Core(t)
    ensures Core(GiveUp(t, p, track)) && Sticky(t, GiveUp(t, p, track))
  {
    hide Within, Keyed, RetriesOnce, Size, RecoverySessions;
    GiveUpLedger(t, p, track);
  }

  lemma GiveUpKeeps(t: Transport, p: Payload, track: bool)
    requires Shape(t)
    ensures Shape(GiveUp(t, p, track)) && Sticky(t, GiveUp(t, p, track))
  {
    hide Within, Keyed, RetriesOnce, Holds, Size, RecoverySessions;
    GiveUpLedger(t, p, track);
  }

  lemma CoreRetain(t: Transport, p: Payload)
    requires Core(t) && Sequence(p) > 0
    ensures Core(RememberExactRetry(t, p)) && Sticky(t, RememberExactRetry(t, p))
  {
    hide Within, RetriesOnce, Size, RecoverySessions;
    RetainLedger(t, p);
  }

  lemma CoreAccept(t: Transport, p: Payload)
    requires Core(t)
    ensures Core(Accept(t, p)) && Sticky(t, Accept(t, p))
  {
    hide Within, Keyed, RetriesOnce, Size;
    ShrinkLedger(t, Accept(t, p));
  }

  lemma CoreForget(t: Transport, session: string)
    requires Core(t)
    ensures Core(t.(exact := t.exact - {session})) && Sticky(t, t.(exact := t.exact - {session}))
  {
    hide Within, RetriesOnce, Size;
    ShrinkLedger(t, t.(exact := t.exact - {session}));
  }

  /** A delivery that may be running: it holds its request as if suspended in a POST. */
  ghost predicate Running(t: Transport, purpose: Purpose, p: Payload, attempts: nat) {
    && Core(t) && attempts <= t.limits.maxAttempts
    && Holds(t.exact, t.attempted, purpose, p, AwaitPost)
  }

  lemma RetainKeeps(t: Transport, purpose: Purpose, p: Payload, attempts: nat)
    requires Running(t, purpose, p, attempts) && Sequence(p) > 0
    ensures Shape(RetainExactRetry(t, purpose, p, attempts))
    ensures Sticky(t, RetainExactRetry(t, purpose, p, attempts))
  {
    hide Within, Keyed, RetriesOnce, HoldsRest, Size, GiveUp;
    var t1 := RememberExactRetry(t, p);
    CoreRetain(t, p);
    CoreGiveUp(t1, p, true);
  }

  lemma BlockKeeps(t: Transport, purpose: Purpose, p: Payload, attempts: nat)
    requires Running(t, purpose, p, attempts)
    ensures Shape(BlockForAuth(t, purpose, p, attempts)) && Sticky(t, BlockForAuth(t, purpose, p, attempts))
  {
    hide Within, RetriesOnce, Size, GiveUp, RetainExactRetry;
    if Sequence(p) > 0 {
      RetainKeeps(t, purpose, p, attempts);
    } else {
      CoreGiveUp(t, p, true);
    }
  }

  lemma FailKeeps(t: Transport, purpose: Purpose, p: Payload, attempts: nat, retryable: bool)
    requires Running(t, purpose, p, attempts)
    ensures Shape(Fail(t, purpose, p, attempts, retryable)) && Sticky(t, Fail(t, purpose, p, attempts, retryable))
  {
    hide Within, RetriesOnce, Size, GiveUp, RetainExactRetry;
    if retryable && Sequence(p) > 0 {
      RetainKeeps(t, purpose, p, attempts);
    } else {
      var t1 := GiveUp(t, p, true);
      CoreGiveUp(t, p, true);
      CoreForget(t1, p.session);
    }
  }

  lemma AttemptKeeps(t: Transport, purpose: Purpose, p: Payload, attempts: nat, auth: seq<bool>)
    requires Running(t, purpose, p, attempts) && attempts < t.limits.maxAttempts
    ensures Shape(Attempt(t, purpose, p, attempts, auth)) && Sticky(t, Attempt(t, purpose, p, attempts, auth))
  {
    if !Current(auth) {
      BlockKeeps(t, purpose, p, attempts);
    }
  }

  lemma StartRetryKeeps(t: Transport, purpose: Purpose, p: Payload, auth: seq<bool>)
    requires Core(t) && Retains(t.exact, p) && p.session !in t.attempted
    requires match purpose
             case Fresh(_) => false
             case Ahead(next) => next.payload.session == p.session
             case IdleRetry(rest) => HoldsRest(t.exact, t.attempted, p, rest)
    ensures Shape(StartRetry(t, purpose, p, auth)) && Sticky(t, StartRetry(t, purpose, p, auth))
  {
    var t1 := t.(attempted := t.attempted + {p.session},
                 log := t.log.(retried := t.log.retried + [p.session]));
    assert forall s :: s in t1.log.retried <==> s in t.log.retried || s == p.session;
    AttemptKeeps(t1, purpose, p, 0, auth);
  }

  lemma SkipKeeps(t: Transport, next: Queued)
    requires Shape(t)
    ensures Shape(Skip(t, next)) && Sticky(t, Skip(t, next)) && Skip(t, next).queue == t.queue
  {
    GiveUpKeeps(t, next.payload, true);
  }

  /** `t'` began delivering a queue entry that `t` was not delivering. */
  predicate BeginsFresh(t: Transport, t': Transport) {
    && t'.drain.Busy? && t'.drain.purpose.Fresh?
    && !(t.drain.Busy? && t.drain.purpose == t'.drain.purpose)
  }

  /** A saturated transport starts no tracked delivery outside its recovery ledger. */
  ghost predicate AdmitsOnlyRecovery(t: Transport, t': Transport) {
    t.saturated && t'.drain.Busy? && t'.drain.purpose.Fresh? && Sequence(t'.drain.delivery.payload) > 0
    ==> t'.drain.delivery.payload.session in RecoverySessions(t)
  }

  /** Pump's promise: it ends idle with an empty queue, or suspended in a delivery. */
  ghost predicate Pumped(t: Transport, t': Transport) {
    && Shape(t') && Sticky(t, t') && AdmitsOnlyRecovery(t, t')
    && t'.drain != Stuck && (t'.drain == Idle ==> t'.queue == [])
  }

  lemma StartFreshKeeps(t: Transport, next: Queued, auth: seq<bool>)
    requires Core(t) && next.payload.session !in t.exact && !Refused(t, next.payload)
    ensures Pumped(t, StartFresh(t, next, auth))
  {
    AttemptKeeps(t, Fresh(next), PrepareResync(t, next.payload), 0, auth);
  }

  lemma PumpedAfter(t: Transport, t1: Transport, t2: Transport)
    requires Sticky(t, t1) && Pumped(t1, t2)
    ensures Pumped(t, t2)
  {
    hide Shape, RecoverySessions;
  }

  lemma AdmitsAfter(t: Transport, t1: Transport, t2: Transport)
    requires Sticky(t, t1)
    ensures AdmitsOnlyRecovery(t1, t2) ==> AdmitsOnlyRecovery(t, t2)
  {
    hide RecoverySessions;
  }

  lemma PopKeeps(t: Transport)
    requires Core(t) && t.queue != []
    ensures Shape(t.(queue := t.queue[1..], drain := Idle))
    ensures Sticky(t, t.(queue := t.queue[1..], drain := Idle))
  {
    hide Within, Keyed, RetriesOnce, Size;
    assert RecoverySessions(t.(queue := t.queue[1..], drain := Idle)) == RecoverySessions(t);
  }

  lemma {:induction false} PumpKeeps(t: Transport, auth: seq<bool>)
    requires Core(t)
    ensures Pumped(t, Pump(t, auth))
    decreases |t.queue|
  {
    hide Within, Keyed, RetriesOnce, Holds, Size, RecoverySessions, Sticky, AdmitsOnlyRecovery, GiveUp, Attempt;
    if t.queue == [] {
      IdleKeeps(t);
    } else {
      var next := t.queue[0];
      var t1 := t.(queue := t.queue[1..], drain := Idle);
      PopKeeps(t);
      if !Current(auth) || Refused(t1, next.payload)
         || (next.payload.session in t1.exact && next.payload.session in t1.attempted) {
        SkipKeeps(t1, next);
        PumpKeeps(Skip(t1, next), Later(auth));
        PumpedAfter(t1, Skip(t1, next), Pump(Skip(t1, next), Later(auth)));
      } else if next.payload.session in t1.exact {
        AheadKeeps(t1, next, Later(auth));
      } else {
        StartFreshKeeps(t1, next, Later(auth));
      }
      PumpedAfter(t, t1, Pump(t, auth));
    }
  }

  lemma IdleKeeps(t: Transport)
    requires Core(t) && t.queue == []
    ensures Pumped(t, t.(drain := Idle))
  {
    hide Within, Keyed, RetriesOnce, Size;
    assert RecoverySessions(t.(drain := Idle)) == RecoverySessions(t);
  }

  lemma AheadKeeps(t: Transport, next: Queued, auth: seq<bool>)
    requires Core(t) && next.payload.session in t.exact && next.payload.session !in t.attempted
    ensures Pumped(t, StartRetry(t, Ahead(next), t.exact[next.payload.session], auth))
  {
    StartRetryKeeps(t, Ahead(next), t.exact[next.payload.session], auth);
  }

  // ---- whole steps and whole runs --------------------------------------------------------

  /** No lost wake-up: waiting payloads imply a drain run that will get to them. */
  ghost predicate Wakeful(t: Transport) {
    t.queue != [] ==> t.drain != Idle
  }

  lemma ContinueKeeps(t: Transport, next: Queued, auth: seq<bool>)
    requires Core(t) && t.drain == Idle && next.payload.session !in t.exact
    ensures Pumped(t, ContinueWith(t, next, auth))
  {
    hide Within, Keyed, RetriesOnce, Holds, Size, Sticky, RecoverySessions, AdmitsOnlyRecovery, GiveUp, Attempt, Pump;
    if Refused(t, next.payload) {
      SkipThenPump(t, next, auth);
    } else {
      StartFreshKeeps(t, next, auth);
    }
  }

  lemma SkipThenPump(t: Transport, next: Queued, auth: seq<bool>)
    requires Core(t) && t.drain == Idle
    ensures Pumped(t, Pump(Skip(t, next), auth))
  {
    hide Within, Keyed, RetriesOnce, Holds, Size, Sticky, RecoverySessions, AdmitsOnlyRecovery, GiveUp, Pump;
    SkipKeeps(t, next);
    PumpKeeps(Skip(t, next), auth);
    PumpedAfter(t, Skip(t, next), Pump(Skip(t, next), auth));
  }

  lemma ForgetAcceptKeeps(t: Transport, p: Payload, session: string)
    requires Core(t)
    ensures Core(Accept(t.(exact := t.exact - {session}), p))
    ensures Sticky(t, Accept(t.(exact := t.exact - {session}), p))
  {
    hide Within, Keyed, RetriesOnce, Size;
    CoreForget(t, session);
    CoreAccept(t.(exact := t.exact - {session}), p);
  }

  lemma AfterFreshKeeps(t: Transport, next: Queued, p: Payload, outcome: Outcome, auth: seq<bool>)
    requires Core(t) && t.drain == Idle
    ensures Pumped(t, AfterFresh(t, next, p, outcome, auth))
  {
    hide Within, Keyed, RetriesOnce, Holds, Size, Pump;
    CoreAccept(t, p);
    var t1 := Resolve(if outcome == Delivered then Accept(t, p) else t, next.id, outcome == Delivered);
    PumpKeeps(t1, auth);
    PumpedAfter(t, t1, Pump(t1, auth));
  }

  lemma AfterAheadKeeps(t: Transport, next: Queued, p: Payload, outcome: Outcome, auth: seq<bool>)
    requires Core(t) && t.drain == Idle
    requires Holds(t.exact, t.attempted, Ahead(next), p, Returned(outcome))
    ensures Pumped(t, AfterAhead(t, next, p, outcome, auth))
  {
    hide Within, Keyed, RetriesOnce, Size, RecoverySessions, AdmitsOnlyRecovery, GiveUp, Attempt, Pump, ContinueWith;
    if outcome == Delivered {
      ForgetAcceptKeeps(t, p, next.payload.session);
      var t1 := Accept(t.(exact := t.exact - {next.payload.session}), p);
      ContinueKeeps(t1, next, auth);
      PumpedAfter(t, t1, ContinueWith(t1, next, auth));
    } else if next.payload.session in t.exact || t.saturated {
      SkipThenPump(t, next, Later(auth));
    } else {
      ContinueKeeps(t, next, auth);
    }
  }

  lemma AfterIdleKeeps(t: Transport, rest: seq<Payload>, p: Payload, outcome: Outcome, auth: seq<bool>)
    requires Core(t) && t.drain == Idle
    requires Holds(t.exact, t.attempted, IdleRetry(rest), p, Returned(outcome))
    ensures Pumped(t, AfterIdleRetry(t, rest, p, outcome, auth))
  {
    hide Within, Keyed, RetriesOnce, Size, RecoverySessions, GiveUp, Attempt, Pump, Sticky;
    var t1 := t;
    IdleKeepsIfEmpty(t);
    if outcome == Delivered {
      ForgetAcceptKeeps(t, p, p.session);
      t1 := Accept(t.(exact := t.exact - {p.session}), p);
    }
    if rest == [] {
      PumpKeeps(t1, auth);
    } else {
      StartRetryKeeps(t1, IdleRetry(rest[1..]), rest[0], auth);
    }
    PumpedAfter(t, t1, AfterIdleRetry(t, rest, p, outcome, auth));
  }

  lemma IdleKeepsIfEmpty(t: Transport)
    ensures Sticky(t, t)
  {
  }

  /** A delivery that returned: the drain loop carries on from an idle view of the state. */
  lemma AfterDeliveryKeeps(t: Transport, answer: Answer, auth: seq<bool>)
    requires Shape(t) && t.drain.Busy? && t.drain.delivery.at.Returned?
    ensures Pumped(t, Resume(t, answer, auth))
  {
    hide Within, Keyed, RetriesOnce, Size, AfterFresh, AfterAhead, AfterIdleRetry;
    var purpose, d := t.drain.purpose, t.drain.delivery;
    var idle := t.(drain := Idle);
    assert RecoverySessions(idle) == RecoverySessions(t);
    match purpose {
      case Fresh(next) => AfterFreshKeeps(idle, next, d.payload, d.at.outcome, auth);
      case Ahead(next) => AfterAheadKeeps(idle, next, d.payload, d.at.outcome, auth);
      case IdleRetry(rest) => AfterIdleKeeps(idle, rest, d.payload, d.at.outcome, auth);
    }
    PumpedAfter(t, idle, Resume(t, answer, auth));
  }

  lemma SuspendKeeps(t: Transport, purpose: Purpose, p: Payload, attempts: nat, at: Point)
    requires Running(t, purpose, p, attempts) && AttemptsLeft(t.limits, Delivery(p, attempts, at))
    requires at != Returned(Retained) && at != Returned(Dropped)
    ensures Shape(Suspend(t, purpose, p, attempts, at)) && Sticky(t, Suspend(t, purpose, p, attempts, at))
  {
    hide Within, Keyed, RetriesOnce, Size, HoldsRest;
  }

  lemma AfterPostKeeps(t: Transport, purpose: Purpose, d: Delivery, answer: Answer, auth: seq<bool>)
    requires Running(t, purpose, d.payload, d.attempts)
    ensures Shape(AfterPost(t, purpose, d, answer, auth)) && Sticky(t, AfterPost(t, purpose, d, answer, auth))
  {
    hide Core, Holds, RecoverySessions, Fail, BlockForAuth, Suspend;
    if !Current(auth) {
      BlockKeeps(t, purpose, d.payload, d.attempts);
    } else if answer == Ok {
      SuspendKeeps(t, purpose, d.payload, d.attempts, AwaitBody);
    } else if answer == Permanent || d.attempts >= t.limits.maxAttempts {
      FailKeeps(t, purpose, d.payload, d.attempts, answer != Permanent);
    } else {
      SuspendKeeps(t, purpose, d.payload, d.attempts, AwaitSleep);
    }
  }

  lemma ResumeKeeps(t: Transport, answer: Answer, auth: seq<bool>)
    requires Shape(t) && t.drain.Busy? && !t.drain.delivery.at.Returned?
    ensures Shape(Resume(t, answer, auth)) && Sticky(t, Resume(t, answer, auth))
  {
    hide Core, HoldsRest, RecoverySessions, Sticky, AfterPost, BlockForAuth, Attempt, Suspend;
    var purpose, d := t.drain.purpose, t.drain.delivery;
    match d.at {
      case AwaitPost => AfterPostKeeps(t, purpose, d, answer, auth);
      case AwaitSleep => AttemptKeeps(t, purpose, d.payload, d.attempts, auth);
      case AwaitBody =>
        BlockKeeps(t, purpose, d.payload, d.attempts);
        SuspendKeeps(t, purpose, d.payload, d.attempts, AwaitObserver);
      case AwaitObserver => SuspendKeeps(t, purpose, d.payload, d.attempts, Returned(Delivered));
    }
  }

  /** One continuation of a delivery that has not returned. */
  function Wait(t: Transport, answer: Answer, auth: seq<bool>): Transport
    requires t.drain.Busy? && !t.drain.delivery.at.Returned?
  {
    var purpose, d := t.drain.purpose, t.drain.delivery;
    match d.at
    case AwaitPost => AfterPost(t, purpose, d, answer, auth)
    case AwaitSleep => Attempt(t, purpose, d.payload, d.attempts, auth)
    case AwaitBody =>
      if !Current(auth) then BlockForAuth(t, purpose, d.payload, d.attempts)
      else Suspend(t, purpose, d.payload, d.attempts, AwaitObserver)
    case _ => Suspend(t, purpose, d.payload, d.attempts, Returned(Delivered))
  }

  lemma ResumeIsWait(t: Transport, answer: Answer, auth: seq<bool>)
    requires t.drain.Busy? && !t.drain.delivery.at.Returned?
    ensures Resume(t, answer, auth) == Wait(t, answer, auth)
  {
    hide BlockForAuth, Attempt, AfterDelivery, AfterPost, Suspend;
  }

  lemma ResumeKeepsPurpose(t: Transport, answer: Answer, auth: seq<bool>)
    requires t.drain.Busy? && !t.drain.delivery.at.Returned?
    ensures Resume(t, answer, auth).drain.Busy? && Resume(t, answer, auth).drain.purpose == t.drain.purpose
    ensures Resume(t, answer, auth).queue == t.queue
  {
    ResumeIsWait(t, answer, auth);
    hide Resume, Fail, BlockForAuth, Attempt;
  }

  lemma DropFirstKeeps(t: Transport)
    requires Shape(t) && t.queue != []
    ensures Shape(Skip(t.(queue := t.queue[1..]), t.queue[0]))
    ensures Sticky(t, Skip(t.(queue := t.queue[1..]), t.queue[0]))
  {
    hide Within, Keyed, RetriesOnce, Holds, Size, GiveUp;
    var t1 := t.(queue := t.queue[1..]);
    assert RecoverySessions(t1) == RecoverySessions(t);
    SkipKeeps(t1, t.queue[0]);
  }

  lemma {:induction false} EvictKeeps(t: Transport)
    requires Shape(t)
    ensures Shape(Evict(t)) && Sticky(t, Evict(t)) && Evict(t).drain == t.drain
    ensures |Evict(t).queue| < t.limits.maxQueued && Evict(t).limits == t.limits
    ensures |t.queue| < t.limits.maxQueued ==> Evict(t) == t
    decreases |t.queue|
  {
    hide Within, Keyed, RetriesOnce, Holds, Size;
    if |t.queue| >= t.limits.maxQueued {
      DropFirstKeeps(t);
      EvictKeeps(Skip(t.(queue := t.queue[1..]), t.queue[0]));
    }
  }

  lemma {:induction false} AbandonKeeps(t: Transport)
    requires Shape(t)
    ensures Shape(Abandon(t)) && Sticky(t, Abandon(t)) && Abandon(t).drain == t.drain
    ensures Abandon(t).queue == []
    decreases |t.queue|
  {
    hide Within, Keyed, RetriesOnce, Holds, Size;
    if t.queue != [] {
      DropFirstKeeps(t);
      AbandonKeeps(Skip(t.(queue := t.queue[1..]), t.queue[0]));
    }
  }

  lemma StartDrainKeeps(t: Transport, auth: seq<bool>)
    requires Shape(t)
    ensures Shape(StartDrain(t, auth)) && Sticky(t, StartDrain(t, auth))
    ensures StartDrain(t, auth).drain != Idle && AdmitsOnlyRecovery(t, StartDrain(t, auth))
  {
    hide Within, Keyed, Size, Pump;
    var t1 := t.(attempted := {}, log := t.log.(retried := []));
    assert RecoverySessions(t1) == RecoverySessions(t);
    PumpKeeps(t1, auth);
    PumpedAfter(t, t1, Pump(t1, auth));
  }

  lemma RejectKeeps(t: Transport, p: Payload, track: bool, id: nat)
    requires Shape(t)
    ensures Shape(Resolve(GiveUp(t, p, track), id, false))
    ensures Sticky(t, Resolve(GiveUp(t, p, track), id, false))
  {
    hide Within, Keyed, RetriesOnce, Holds, Size;
    GiveUpKeeps(t, p, track);
  }

  lemma NoteSentKeeps(t: Transport, p: Payload)
    requires Shape(t)
    ensures Shape(NoteSent(t, p)) && Sticky(t, NoteSent(t, p))
  {
    hide Within, Keyed, RetriesOnce, Holds, Size;
  }

  lemma EnqueueKeeps(t: Transport, p: Payload)
    requires Shape(t)
    ensures Shape(Enqueue(t, p)) && Sticky(t, Enqueue(t, p)) && Enqueue(t, p).drain == t.drain
    ensures t.queue == [] ==> Enqueue(t, p) == NoteSent(t, p).(queue := [Queued(t.log.issued, p)])
  {
    hide Within, Keyed, RetriesOnce, Holds, Size, Evict;
    NoteSentKeeps(t, p);
    EvictKeeps(NoteSent(t, p));
    var evicted := Evict(NoteSent(t, p));
    assert RecoverySessions(Enqueue(t, p)) == RecoverySessions(evicted);
  }

  predicate Enters(t: Transport, p: Payload, serializable: bool, auth: seq<bool>) {
    !t.stopped && Current(auth) && !Refused(t, p) && serializable
  }

  lemma SendKeeps(t: Transport, p: Payload, serializable: bool, auth: seq<bool>)
    requires Shape(t) && Wakeful(t)
    ensures Shape(Send(t, p, serializable, auth)) && Wakeful(Send(t, p, serializable, auth))
    ensures Sticky(t, Send(t, p, serializable, auth))
    ensures t.drain != Idle || !Enters(t, p, serializable, auth) ==> Send(t, p, serializable, auth).drain == t.drain
    ensures t.drain == Idle ==> AdmitsOnlyRecovery(t, Send(t, p, serializable, auth))
  {
    hide Core, Holds, RecoverySessions, Sticky, GiveUp, StartDrain, Evict, Refused;
    if Enters(t, p, serializable, auth) {
      EnqueueKeeps(t, p);
      StartDrainKeeps(Enqueue(t, p), Later(auth));
      StickyAfter(t, Enqueue(t, p), StartDrain(Enqueue(t, p), Later(auth)));
      AdmitsAfter(t, Enqueue(t, p), StartDrain(Enqueue(t, p), Later(auth)));
    } else {
      NoteSentKeeps(t, p);
      RejectKeeps(NoteSent(t, p), p, t.stopped || Current(auth), t.log.issued);
      StickyAfter(t, NoteSent(t, p), Send(t, p, serializable, auth));
    }
  }

  lemma StickyAfter(t: Transport, t1: Transport, t2: Transport)
    requires Sticky(t, t1) && Sticky(t1, t2)
    ensures Sticky(t, t2)
  {
    hide RecoverySessions;
  }

  /** A flush retries each retained request, and the rest of its list is retained behind the first. */
  lemma FlushHolds(t: Transport, order: seq<string>)
    requires Core(t) && Enumerates(order, t.exact.Keys) && order != []
    requires forall i | 0 <= i < |order| :: order[i] in t.exact
    ensures var requests := Requests(t.exact, order);
            && Core(t.(attempted := {}, log := t.log.(retried := [])))
            && Retains(t.exact, requests[0])
            && HoldsRest(t.exact, {}, requests[0], requests[1..])
  {
    hide Size, Within;
    var t1 := t.(attempted := {}, log := t.log.(retried := []));
    assert RecoverySessions(t1) == RecoverySessions(t);
    var requests := Requests(t.exact, order);
    assert forall i | 0 <= i < |order| :: requests[i].session == order[i];
  }

  lemma FlushKeeps(t: Transport, order: seq<string>, auth: seq<bool>)
    requires Shape(t) && Wakeful(t)
    ensures Shape(Flush(t, order, auth)) && Wakeful(Flush(t, order, auth)) && Sticky(t, Flush(t, order, auth))
    ensures Flush(t, order, auth) == t || (Flush(t, order, auth).drain.Busy?
        && Flush(t, order, auth).drain.purpose.IdleRetry?)
  {
    hide Size, Within, Keyed, RetriesOnce, HoldsRest, Enumerates, StartRetry;
    if t.drain == Idle && t.exact != map[] && t.queue == [] && Enumerates(order, t.exact.Keys) {
      var t1 := t.(attempted := {}, log := t.log.(retried := []));
      EnumerationIndexes(order, t.exact.Keys);
      assert t.exact.Keys != {};
      FlushHolds(t, order);
      var requests := Requests(t.exact, order);
      StartRetryKeeps(t1, IdleRetry(requests[1..]), requests[0], auth);
      RetryRuns(t1, IdleRetry(requests[1..]), requests[0], auth);
      assert Sticky(t, t1);
      hide Core, Sticky, RecoverySessions;
      StickyAfter(t, t1, Flush(t, order, auth));
    } else {
      assert Sticky(t, t);
    }
  }

  lemma RetryRuns(t: Transport, purpose: Purpose, p: Payload, auth: seq<bool>)
    ensures StartRetry(t, purpose, p, auth).drain.Busy? && StartRetry(t, purpose, p, auth).drain.purpose == purpose
  {
    hide Attempt;
  }

  lemma StopKeeps(t: Transport)
    requires Shape(t) && Wakeful(t)
    ensures Shape(Stop(t)) && Wakeful(Stop(t)) && Sticky(t, Stop(t)) && Stop(t).drain == t.drain
  {
    hide Within, Keyed, RetriesOnce, Holds, Size, Abandon;
    var t1 := t.(stopped := true);
    assert RecoverySessions(t1) == RecoverySessions(t);
    AbandonKeeps(t1);
  }

  /** Every step keeps the shape, loses no wake-up, and respects saturation. */
  lemma StepKeeps(t: Transport, input: Input)
    requires Shape(t) && Wakeful(t)
    ensures Shape(Step(t, input)) && Wakeful(Step(t, input)) && Sticky(t, Step(t, input))
    ensures BeginsFresh(t, Step(t, input)) ==> AdmitsOnlyRecovery(t, Step(t, input))
  {
    hide Shape, Sticky, AdmitsOnlyRecovery, Send, Resume, Flush, Stop;
    match input {
      case Sending(p, serializable, auth) => SendKeeps(t, p, serializable, auth);
      case Resuming(answer, auth) =>
        if t.drain.Busy? && t.drain.delivery.at.Returned? {
          AfterDeliveryKeeps(t, answer, auth);
        } else if t.drain.Busy? {
          ResumeKeeps(t, answer, auth);
          ResumeKeepsPurpose(t, answer, auth);
        } else {
          ResumeStutters(t, answer, auth);
        }
      case Flushing(order, auth) => FlushKeeps(t, order, auth);
      case Stopping => StopKeeps(t);
    }
  }

  lemma ResumeStutters(t: Transport, answer: Answer, auth: seq<bool>)
    requires !t.drain.Busy?
    ensures Resume(t, answer, auth) == t && Sticky(t, t)
  {
  }

  /** Over every run: bounded queue and ledger, one retry per session and drain run, no lost wake-up. */
  lemma {:induction false} RunKeeps(limits: Limits, inputs: seq<Input>)
    requires limits.Positive()
    ensures Shape(Run(limits, inputs)) && Wakeful(Run(limits, inputs))
    ensures Run(limits, inputs).limits == limits
  {
    if inputs != [] {
      RunKeeps(limits, inputs[..|inputs| - 1]);
      hide Shape, Step;
      StepKeeps(Run(limits, inputs[..|inputs| - 1]), inputs[|inputs| - 1]);
    }
  }
}
