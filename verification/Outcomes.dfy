/**
 What becomes of a delivery, from every reachable transport: which answer moves it on, retains its
 request or loses it. Stated on the fields of the transport alone.
 */
module Outcomes {
  import opened Wrappers
  import opened Capture
  import opened TransportModel
  import opened TransportShape
  import opened Progress
  import opened Sets

  /** A payload is numbered when it is a continuous one with a whole number that a double holds exactly. */
  lemma NumberedExactly(p: Payload, q: int)
    ensures Sequence(p) == q && q != 0 <==> p.version == 2 && p.sequence == Some(q) && 1 <= q < 0x20_0000_0000_0000
  {
  }

  /** The host's context is still the one that the delivery belongs to. */
  predicate Same(auth: seq<bool>) {
    auth == [] || auth[0]
  }

  /** The session has state in the ledger, or there is a place left for it. */
  predicate Placed(t: Transport, session: string) {
    || session in t.resync || session in t.exact
    || (!t.saturated && |t.resync.Keys + t.exact.Keys| < t.limits.maxSessions)
  }

  /** The request is the one retained for its session, or it can be. */
  predicate Keepable(t: Transport, p: Payload) {
    if p.session in t.exact then t.exact[p.session] == p else Placed(t, p.session)
  }

  /** The request is retained as it is, nothing is lost, and the delivery has ended. */
  predicate RetainedIn(t: Transport, r: Transport)
    requires t.drain.Busy?
  {
    var p := t.drain.delivery.payload;
    r == t.(exact := t.exact[p.session := p],
            drain := t.drain.(delivery := t.drain.delivery.(at := Returned(Retained))))
  }

  /** The body is lost, and said to be: nothing of it is retained, and the delivery has ended. */
  predicate LostIn(t: Transport, r: Transport)
    requires t.drain.Busy?
  {
    var p := t.drain.delivery.payload;
    && r.drain == t.drain.(delivery := t.drain.delivery.(at := Returned(Dropped)))
    && r.exact == t.exact - {p.session}
    && LosesOne(t, r, p, Sequence(p) > 0 && Placed(t, p.session))
    && Remembers(t, r, p)
    && r.queue == t.queue && r.stopped == t.stopped && r.attempted == t.attempted && r.limits == t.limits
  }

  /** One loss is reported, and nothing else happens that the history records. */
  predicate LosesOne(t: Transport, r: Transport, p: Payload, tracked: bool) {
    && r.log.losses == t.log.losses + [Loss(p, tracked, false)]
    && r.log == t.log.(losses := r.log.losses, untracked := r.log.untracked)
  }

  /** The ledger after a loss: the missed range reaches over it if there is a place, and is full otherwise. */
  predicate Remembers(t: Transport, r: Transport, p: Payload) {
    var q := Sequence(p);
    if q == 0 then
      r.resync == t.resync && r.saturated == t.saturated && r.log.untracked == t.log.untracked
    else if Placed(t, p.session) then
      && r.resync == t.resync[p.session := Reaching(t, p)]
      && r.saturated == t.saturated && r.log.untracked == t.log.untracked
    else
      r.resync == t.resync && r.saturated && r.log.untracked == t.log.untracked + {(p.session, q)}
  }

  /** From the first to the last of what was missed already, what the body declares missed, and the body itself. */
  function Reaching(t: Transport, p: Payload): Range {
    var q := Sequence(p);
    var first := if p.resync.Some? then p.resync.value.from else q;
    if p.session !in t.resync then Range(if first < q then first else q, q)
    else
      var missed := t.resync[p.session];
      Range(if missed.from < first then missed.from else first, if missed.through > q then missed.through else q)
  }

  lemma PlaceIs(t: Transport, session: string)
    ensures Placed(t, session) == CanRemember(t, session)
  {
  }

  lemma GiveUpLoses(t: Transport, p: Payload)
    ensures var r := GiveUp(t, p, true);
      && LosesOne(t, r, p, Sequence(p) > 0 && Placed(t, p.session)) && Remembers(t, r, p)
      && r == t.(resync := r.resync, saturated := r.saturated, log := r.log)
  {
    PlaceIs(t, p.session);
    hide Placed, CanRemember;
  }

  /** Where a delivery stands: a fresh body has nothing of its session retained, any other is what is retained. */
  lemma BodyHeld(t: Transport)
    requires Shape(t) && t.drain.Busy? && !t.drain.delivery.at.Returned?
    ensures var p := t.drain.delivery.payload;
      && (p.session in t.exact ==> t.exact[p.session] == p && Sequence(p) > 0)
      && (p.session !in t.exact ==> t.drain.purpose.Fresh?)
      && t.drain.delivery.attempts <= t.limits.maxAttempts
  {
    hide HoldsRest, Within, RetriesOnce;
  }

  lemma Keeps(t: Transport, purpose: Purpose, p: Payload, attempts: nat)
    requires Keepable(t, p) && t.drain.Busy? && t.drain.purpose == purpose
    requires t.drain.delivery == Delivery(p, attempts, t.drain.delivery.at)
    ensures RetainedIn(t, RetainExactRetry(t, purpose, p, attempts))
  {
    PlaceIs(t, p.session);
    assert Placed(t, p.session);
    hide Placed, CanRemember, GiveUp;
    if p.session in t.exact { assert t.exact[p.session := p] == t.exact; }
  }

  lemma Loses(t: Transport, purpose: Purpose, p: Payload, attempts: nat)
    requires !Keepable(t, p) && p.session !in t.exact && Sequence(p) > 0
    requires t.drain.Busy? && t.drain.purpose == purpose
    requires t.drain.delivery == Delivery(p, attempts, t.drain.delivery.at)
    ensures LostIn(t, RetainExactRetry(t, purpose, p, attempts))
  {
    var full := t.(saturated := true);
    PlaceIs(t, p.session);
    PlaceIs(full, p.session);
    GiveUpLoses(full, p);
    assert !Placed(full, p.session);
    assert RememberExactRetry(t, p) == full;
    hide Placed, CanRemember, GiveUp;
    assert t.exact - {p.session} == t.exact;
  }

  lemma Drops(t: Transport, purpose: Purpose, p: Payload, attempts: nat, retryable: bool)
    requires !retryable || Sequence(p) == 0
    requires p.session in t.exact ==> t.exact[p.session] == p && Sequence(p) > 0
    requires t.drain.Busy? && t.drain.purpose == purpose
    requires t.drain.delivery == Delivery(p, attempts, t.drain.delivery.at)
    ensures LostIn(t, Fail(t, purpose, p, attempts, retryable))
    ensures Sequence(p) == 0 ==> LostIn(t, BlockForAuth(t, purpose, p, attempts))
  {
    GiveUpLoses(t, p);
    hide Placed, GiveUp;
    if p.session !in t.exact { assert t.exact - {p.session} == t.exact; }
  }

  /** The end of a delivery that may be retained: it is, exactly when it is numbered and can be kept. */
  predicate KeptOrLost(t: Transport, r: Transport)
    requires t.drain.Busy?
  {
    var p := t.drain.delivery.payload;
    if Sequence(p) > 0 && Keepable(t, p) then RetainedIn(t, r) else LostIn(t, r)
  }

  lemma EndsKeptOrLost(t: Transport)
    requires Shape(t) && t.drain.Busy? && !t.drain.delivery.at.Returned?
    ensures var purpose, d := t.drain.purpose, t.drain.delivery;
      && KeptOrLost(t, Fail(t, purpose, d.payload, d.attempts, true))
      && KeptOrLost(t, BlockForAuth(t, purpose, d.payload, d.attempts))
      && LostIn(t, Fail(t, purpose, d.payload, d.attempts, false))
  {
    var purpose, d := t.drain.purpose, t.drain.delivery;
    BodyHeld(t);
    hide Shape, RetainedIn, LostIn, RetainExactRetry, GiveUp;
    Drops(t, purpose, d.payload, d.attempts, false);
    if Sequence(d.payload) == 0 {
      Drops(t, purpose, d.payload, d.attempts, true);
    } else if Keepable(t, d.payload) {
      Keeps(t, purpose, d.payload, d.attempts);
    } else {
      Loses(t, purpose, d.payload, d.attempts);
    }
  }

  // ---- every answer ----------------------------------------------------------------------

  /**
   What an answer to a POST comes to, in every run. A good one moves on to the acknowledgement. A
   retryable or missing one leads to another attempt while there are attempts left; on the last one
   a numbered request is retained whenever it can be, and then nothing is lost. A permanent one loses
   the body, as does a last one that cannot be retained.
   */
  lemma PostAnswered(limits: Limits, inputs: seq<Input>, answer: Answer, auth: seq<bool>)
    requires limits.Positive() && Same(auth)
    requires Run(limits, inputs).drain.Busy? && Run(limits, inputs).drain.delivery.at == AwaitPost
    ensures var t := Run(limits, inputs);
      var r, d := Step(t, Resuming(answer, auth)), t.drain.delivery;
      match answer
      case Ok => r == t.(drain := t.drain.(delivery := d.(at := AwaitBody)))
      case Permanent => LostIn(t, r)
      case _ =>
        if d.attempts < limits.maxAttempts then r == t.(drain := t.drain.(delivery := d.(at := AwaitSleep)))
        else KeptOrLost(t, r)
  {
    hide *;
    RunKeeps(limits, inputs);
    LimitsKept(limits, inputs);
    AnswerEnds(Run(limits, inputs), answer, auth);
  }

  lemma AnswerEnds(t: Transport, answer: Answer, auth: seq<bool>)
    requires Shape(t) && Same(auth) && t.drain.Busy? && t.drain.delivery.at == AwaitPost
    ensures var r, d := Step(t, Resuming(answer, auth)), t.drain.delivery;
      match answer
      case Ok => r == t.(drain := t.drain.(delivery := d.(at := AwaitBody)))
      case Permanent => LostIn(t, r)
      case _ =>
        if d.attempts < t.limits.maxAttempts then r == t.(drain := t.drain.(delivery := d.(at := AwaitSleep)))
        else KeptOrLost(t, r)
  {
    EndsKeptOrLost(t);
    hide Shape, KeptOrLost, LostIn, Fail, BlockForAuth, AfterDelivery;
    ResumeIsWait(t, answer, auth);
  }

  /** So an answer to a POST loses the body exactly when it is permanent, or the last and the request cannot be kept. */
  lemma LostExactly(limits: Limits, inputs: seq<Input>, answer: Answer, auth: seq<bool>)
    requires limits.Positive() && Same(auth)
    requires Run(limits, inputs).drain.Busy? && Run(limits, inputs).drain.delivery.at == AwaitPost
    ensures var t := Run(limits, inputs);
      var r, d := Step(t, Resuming(answer, auth)), t.drain.delivery;
      r.log.losses != t.log.losses <==>
        || answer == Permanent
        || (answer != Ok && d.attempts >= limits.maxAttempts && !(Sequence(d.payload) > 0 && Keepable(t, d.payload)))
  {
    PostAnswered(limits, inputs, answer, auth);
    hide Run, Step, Placed, Keepable, Remembers;
  }

  /** A context that changed ends the delivery at any of its checks: its request is retained whenever it can be. */
  lemma ContextEnds(limits: Limits, inputs: seq<Input>, answer: Answer, auth: seq<bool>)
    requires limits.Positive() && !Same(auth)
    requires var t := Run(limits, inputs); t.drain.Busy? && t.drain.delivery.at in {AwaitPost, AwaitSleep, AwaitBody}
    ensures KeptOrLost(Run(limits, inputs), Step(Run(limits, inputs), Resuming(answer, auth)))
  {
    RunKeeps(limits, inputs);
    var t := Run(limits, inputs);
    EndsKeptOrLost(t);
    hide Run, Shape, KeptOrLost, LostIn, Fail, BlockForAuth, AfterDelivery;
    ResumeIsWait(t, answer, auth);
  }

  /** After the pause the same body is POSTed again; a read acknowledgement and the observer end in acceptance. */
  lemma GoesOn(limits: Limits, inputs: seq<Input>, answer: Answer, auth: seq<bool>)
    requires Run(limits, inputs).drain.Busy? && Same(auth)
    ensures var t := Run(limits, inputs);
      var r, d := Step(t, Resuming(answer, auth)), t.drain.delivery;
      match d.at
      case AwaitSleep =>
        r == t.(drain := t.drain.(delivery := d.(at := AwaitPost, attempts := d.attempts + 1)),
                log := t.log.(posted := t.log.posted + [d.payload]))
      case AwaitBody => r == t.(drain := t.drain.(delivery := d.(at := AwaitObserver)))
      case AwaitObserver => r == t.(drain := t.drain.(delivery := d.(at := Returned(Delivered))))
      case _ => true
  {
    var t := Run(limits, inputs);
    hide Run, Fail, BlockForAuth, AfterDelivery;
    if !t.drain.delivery.at.Returned? { ResumeIsWait(t, answer, auth); }
  }

  // ---- what the drain loop makes of it ----------------------------------------------------

  /** What happened since `t` begins with these resolutions and losses, and no retained request changed. */
  predicate Goes(t: Transport, r: Transport, resolved: seq<Resolution>, losses: seq<Loss>) {
    && t.log.resolved + resolved <= r.log.resolved && t.log.losses + losses <= r.log.losses
    && forall s <- t.exact :: s in r.exact && r.exact[s] == t.exact[s]
  }

  lemma GoesAfter(t: Transport, a: Transport, r: Transport, resolved: seq<Resolution>, losses: seq<Loss>)
    requires Goes(a, r, [], [])
    requires a.log.resolved == t.log.resolved + resolved && a.log.losses == t.log.losses + losses && a.exact == t.exact
    ensures Goes(t, r, resolved, losses)
  {
    assert a.log.resolved + [] == a.log.resolved && a.log.losses + [] == a.log.losses;
  }

  lemma GiveUpGoes(t: Transport, p: Payload)
    ensures var r := GiveUp(t, p, true);
      && r.exact == t.exact && t.log.losses <= r.log.losses && r.log.resolved == t.log.resolved
      && r.log.accepted == t.log.accepted
  {
  }

  lemma BlockGoes(t: Transport, purpose: Purpose, p: Payload)
    requires p.session in t.exact ==> t.exact[p.session] == p && Sequence(p) > 0
    ensures var r := BlockForAuth(t, purpose, p, 0); Goes(t, r, [], []) && r.log.accepted == t.log.accepted
  {
    hide CanRemember, GiveUp;
    GiveUpGoes(t, p);
    GiveUpGoes(RememberExactRetry(t, p), p);
    assert t.log.resolved + [] == t.log.resolved && t.log.losses + [] == t.log.losses;
  }

  lemma AttemptGoes(t: Transport, purpose: Purpose, p: Payload, auth: seq<bool>)
    requires p.session in t.exact ==> t.exact[p.session] == p && Sequence(p) > 0
    ensures var r := Attempt(t, purpose, p, 0, auth); Goes(t, r, [], []) && r.log.accepted == t.log.accepted
  {
    hide BlockForAuth;
    BlockGoes(t, purpose, p);
    assert t.log.resolved + [] == t.log.resolved && t.log.losses + [] == t.log.losses;
  }

  lemma StartGoes(t: Transport, purpose: Purpose, next: Queued, p: Payload, auth: seq<bool>)
    requires Keyed(t.exact)
    ensures Retains(t.exact, p) ==>
      Goes(t, StartRetry(t, purpose, p, auth), [], []) && StartRetry(t, purpose, p, auth).log.accepted == t.log.accepted
    ensures next.payload.session !in t.exact ==>
      Goes(t, StartFresh(t, next, auth), [], []) && StartFresh(t, next, auth).log.accepted == t.log.accepted
  {
    hide Attempt, Goes;
    var a := t.(attempted := t.attempted + {p.session}, log := t.log.(retried := t.log.retried + [p.session]));
    if Retains(t.exact, p) {
      AttemptGoes(a, purpose, p, auth);
      GoesAfter(t, a, Attempt(a, purpose, p, 0, auth), [], []);
    }
    if next.payload.session !in t.exact { AttemptGoes(t, Fresh(next), PrepareResync(t, next.payload), auth); }
  }

  /** An entry that is passed over is lost, and its promise resolved undelivered. */
  lemma SkipGoes(t: Transport, next: Queued)
    ensures var r := Skip(t, next);
      && r.log.resolved == t.log.resolved + [Resolution(next.id, false)]
      && r.log.losses == t.log.losses
           + [Loss(next.payload, Sequence(next.payload) > 0 && Placed(t, next.payload.session), false)]
      && r.exact == t.exact && r.queue == t.queue && r.drain == t.drain && r.log.accepted == t.log.accepted
  {
    GiveUpLoses(t, next.payload);
    hide GiveUp, Placed, Remembers;
  }

  lemma {:induction false} PumpGoes(t: Transport, auth: seq<bool>)
    requires Keyed(t.exact)
    ensures Goes(t, Pump(t, auth), [], []) && Pump(t, auth).log.accepted == t.log.accepted
    decreases |t.queue|
  {
    hide Skip, StartRetry, StartFresh, Refused;
    if t.queue != [] {
      var next, t1 := t.queue[0], t.(queue := t.queue[1..], drain := Idle);
      SkipGoes(t1, next);
      PumpGoes(Skip(t1, next), Later(auth));
      if next.payload.session in t1.exact {
        StartGoes(t1, Ahead(next), next, t1.exact[next.payload.session], Later(auth));
      } else {
        StartGoes(t1, Ahead(next), next, next.payload, Later(auth));
      }
    }
  }

  lemma ContinueGoes(t: Transport, next: Queued, auth: seq<bool>)
    requires Keyed(t.exact) && next.payload.session !in t.exact
    ensures Goes(t, ContinueWith(t, next, auth), [], []) && ContinueWith(t, next, auth).log.accepted == t.log.accepted
  {
    hide Skip, StartFresh, Refused, Pump;
    SkipGoes(t, next);
    PumpGoes(Skip(t, next), auth);
    StartGoes(t, Fresh(next), next, next.payload, auth);
  }

  /** What is settled when a delivery has ended, before the drain loop turns to anything else. */
  predicate Settles(t: Transport, r: Transport)
    requires t.drain.Busy? && t.drain.delivery.at.Returned?
  {
    var p, outcome := t.drain.delivery.payload, t.drain.delivery.at.outcome;
    && r.log.accepted == (if outcome == Delivered then t.log.accepted + [p] else t.log.accepted)
    && match t.drain.purpose
       case Fresh(next) => Goes(t, r, [Resolution(next.id, outcome == Delivered)], [])
       case Ahead(next) =>
         if outcome == Delivered then Goes(t.(exact := t.exact - {p.session}), r, [], [])
         else if outcome == Retained || t.saturated then
           Goes(t, r, [Resolution(next.id, false)],
                [Loss(next.payload, Sequence(next.payload) > 0 && Placed(t, next.payload.session), false)])
         else Goes(t, r, [], [])
       case IdleRetry(_) =>
         Goes(if outcome == Delivered then t.(exact := t.exact - {p.session}) else t, r, [], [])
  }

  lemma AcceptGoes(t: Transport, p: Payload)
    ensures Accept(t, p).exact == t.exact && Accept(t, p).queue == t.queue
    ensures Accept(t, p).log == t.log.(accepted := t.log.accepted + [p])
  {
  }

  lemma FreshSettles(t: Transport, auth: seq<bool>)
    requires Shape(t) && t.drain.Busy? && t.drain.delivery.at.Returned? && t.drain.purpose.Fresh?
    ensures Settles(t, AfterFresh(t.(drain := Idle), t.drain.purpose.next, t.drain.delivery.payload,
                                  t.drain.delivery.at.outcome, auth))
  {
    hide Pump, Goes, Accept;
    var u, p, outcome := t.(drain := Idle), t.drain.delivery.payload, t.drain.delivery.at.outcome;
    AcceptGoes(u, p);
    var a := if outcome == Delivered then Accept(u, p) else u;
    var b := Resolve(a, t.drain.purpose.next.id, outcome == Delivered);
    PumpGoes(b, auth);
    GoesAfter(t, b, Pump(b, auth), [Resolution(t.drain.purpose.next.id, outcome == Delivered)], []);
  }

  lemma AheadDelivered(t: Transport, next: Queued, p: Payload, auth: seq<bool>)
    requires Keyed(t.exact) && next.payload.session == p.session
    ensures var r := AfterAhead(t, next, p, Delivered, auth);
      Goes(t.(exact := t.exact - {p.session}), r, [], []) && r.log.accepted == t.log.accepted + [p]
  {
    hide Pump, Skip, Goes, Accept, ContinueWith;
    var b := t.(exact := t.exact - {p.session});
    AcceptGoes(b, p);
    ContinueGoes(Accept(b, p), next, auth);
    GoesAfter(b, Accept(b, p), ContinueWith(Accept(b, p), next, auth), [], []);
  }

  lemma AheadPassedOver(t: Transport, next: Queued, p: Payload, outcome: Outcome, auth: seq<bool>)
    requires Keyed(t.exact) && outcome != Delivered && (next.payload.session in t.exact || t.saturated)
    ensures var r := AfterAhead(t, next, p, outcome, auth);
      && Goes(t, r, [Resolution(next.id, false)],
              [Loss(next.payload, Sequence(next.payload) > 0 && Placed(t, next.payload.session), false)])
      && r.log.accepted == t.log.accepted
  {
    hide Pump, Skip, Goes, ContinueWith, Placed;
    SkipGoes(t, next);
    PumpGoes(Skip(t, next), Later(auth));
    GoesAfter(t, Skip(t, next), Pump(Skip(t, next), Later(auth)), [Resolution(next.id, false)],
              [Loss(next.payload, Sequence(next.payload) > 0 && Placed(t, next.payload.session), false)]);
  }

  lemma AheadGoesOn(t: Transport, next: Queued, p: Payload, outcome: Outcome, auth: seq<bool>)
    requires Keyed(t.exact) && outcome != Delivered && next.payload.session !in t.exact && !t.saturated
    ensures var r := AfterAhead(t, next, p, outcome, auth);
      Goes(t, r, [], []) && r.log.accepted == t.log.accepted
  {
    hide Pump, Skip, Goes, ContinueWith;
    ContinueGoes(t, next, auth);
  }

  /** Where the drain loop stands does not matter to what goes on. */
  lemma GoesFrom(t: Transport, u: Transport, r: Transport, resolved: seq<Resolution>, losses: seq<Loss>)
    requires u == t.(drain := u.drain) && Goes(u, r, resolved, losses)
    ensures Goes(t, r, resolved, losses)
  {
  }

  lemma AheadSettles(t: Transport, auth: seq<bool>)
    requires Shape(t) && t.drain.Busy? && t.drain.delivery.at.Returned? && t.drain.purpose.Ahead?
    ensures Settles(t, AfterAhead(t.(drain := Idle), t.drain.purpose.next, t.drain.delivery.payload,
                                  t.drain.delivery.at.outcome, auth))
  {
    var u, p, outcome := t.(drain := Idle), t.drain.delivery.payload, t.drain.delivery.at.outcome;
    var next := t.drain.purpose.next;
    HoldsThere(t);
    hide Shape, Goes, AfterAhead, Placed;
    var r := AfterAhead(u, next, p, outcome, auth);
    if outcome == Delivered {
      AheadDelivered(u, next, p, auth);
      GoesFrom(t.(exact := t.exact - {p.session}), u.(exact := u.exact - {p.session}), r, [], []);
    } else if outcome == Retained || t.saturated {
      AheadPassedOver(u, next, p, outcome, auth);
      PlaceSame(t, u, next.payload.session);
      GoesFrom(t, u, r, [Resolution(next.id, false)],
               [Loss(next.payload, Sequence(next.payload) > 0 && Placed(t, next.payload.session), false)]);
    } else {
      AheadGoesOn(u, next, p, outcome, auth);
      GoesFrom(t, u, r, [], []);
    }
  }

  lemma PlaceSame(t: Transport, u: Transport, session: string)
    requires u == t.(drain := u.drain)
    ensures Placed(u, session) == Placed(t, session)
  {
  }

  lemma HoldsThere(t: Transport)
    requires Shape(t) && t.drain.Busy?
    ensures Keyed(t.exact)
    ensures t.drain.delivery.at == Returned(Dropped) && !t.drain.purpose.Fresh? ==>
      t.drain.delivery.payload.session !in t.exact
    ensures t.drain.delivery.at == Returned(Retained) || t.drain.delivery.at == Returned(Delivered) ==>
      !t.drain.purpose.Fresh? ==> Retains(t.exact, t.drain.delivery.payload)
    ensures t.drain.purpose.Ahead? ==> t.drain.purpose.next.payload.session == t.drain.delivery.payload.session
    ensures t.drain.purpose.IdleRetry? && t.drain.purpose.rest != [] ==>
      Retains(t.exact, t.drain.purpose.rest[0]) && t.drain.purpose.rest[0].session != t.drain.delivery.payload.session
  {
    hide Within, RetriesOnce;
  }

  lemma RestGoes(a: Transport, rest: seq<Payload>, auth: seq<bool>)
    requires Keyed(a.exact) && (rest != [] ==> Retains(a.exact, rest[0]))
    ensures var r := if rest == [] then Pump(a, auth) else StartRetry(a, IdleRetry(rest[1..]), rest[0], auth);
      Goes(a, r, [], []) && r.log.accepted == a.log.accepted
  {
    hide Pump, Goes, StartRetry;
    PumpGoes(a, auth);
    if rest != [] { StartGoes(a, IdleRetry(rest[1..]), Queued(0, rest[0]), rest[0], auth); }
  }

  lemma IdleSettles(t: Transport, auth: seq<bool>)
    requires Shape(t) && t.drain.Busy? && t.drain.delivery.at.Returned? && t.drain.purpose.IdleRetry?
    ensures Settles(t, AfterIdleRetry(t.(drain := Idle), t.drain.purpose.rest, t.drain.delivery.payload,
                                      t.drain.delivery.at.outcome, auth))
  {
    var u, p, outcome := t.(drain := Idle), t.drain.delivery.payload, t.drain.delivery.at.outcome;
    var rest := t.drain.purpose.rest;
    HoldsThere(t);
    hide Shape, Pump, Goes, Accept, StartRetry;
    var r := AfterIdleRetry(u, rest, p, outcome, auth);
    if outcome == Delivered {
      var b := u.(exact := u.exact - {p.session});
      AcceptGoes(b, p);
      RestGoes(Accept(b, p), rest, auth);
      GoesAfter(t.(exact := t.exact - {p.session}), Accept(b, p), r, [], []);
    } else {
      RestGoes(u, rest, auth);
      GoesAfter(t, u, r, [], []);
    }
  }

  /**
   What the end of a delivery settles, in every run: an accepted body is acknowledged, a queued one's
   promise says whether it was delivered, a drain behind a request that stays retained is given up,
   and every other retained request stays as it is.
   */
  lemma EndSettles(limits: Limits, inputs: seq<Input>, answer: Answer, auth: seq<bool>)
    requires limits.Positive()
    requires Run(limits, inputs).drain.Busy? && Run(limits, inputs).drain.delivery.at.Returned?
    ensures Settles(Run(limits, inputs), Step(Run(limits, inputs), Resuming(answer, auth)))
  {
    hide *;
    RunKeeps(limits, inputs);
    ReturnSettles(Run(limits, inputs), answer, auth);
    ResumeIs(Run(limits, inputs), answer, auth);
  }

  lemma ResumeIs(t: Transport, answer: Answer, auth: seq<bool>)
    ensures Step(t, Resuming(answer, auth)) == Resume(t, answer, auth)
  {
    hide Resume;
  }

  lemma ReturnSettles(t: Transport, answer: Answer, auth: seq<bool>)
    requires Shape(t) && t.drain.Busy? && t.drain.delivery.at.Returned?
    ensures Settles(t, Resume(t, answer, auth))
  {
    hide Shape, Settles, AfterFresh, AfterAhead, AfterIdleRetry;
    match t.drain.purpose
    case Fresh(_) => FreshSettles(t, auth);
    case Ahead(_) => AheadSettles(t, auth);
    case IdleRetry(_) => IdleSettles(t, auth);
  }

  // ---- who is served next -----------------------------------------------------------------

  /** An entry is POSTed as it was sent, up to the range the ledger adds. */
  predicate Posts(t: Transport, r: Transport, purpose: Purpose, p: Payload) {
    && r.drain.Busy? && r.drain.purpose == purpose
    && r.drain.delivery.attempts == 1 && r.drain.delivery.at == AwaitPost
    && SameBody(r.drain.delivery.payload, p)
    && r.log.posted == t.log.posted + [r.drain.delivery.payload]
  }

  predicate SameBody(a: Payload, b: Payload) {
    a == b.(resync := a.resync)
  }

  /** The ledger does not shut the session out. */
  predicate Admits(t: Transport, p: Payload) {
    Sequence(p) == 0 || !t.saturated || p.session in t.resync || p.session in t.exact
  }

  lemma FreshPosts(t: Transport, next: Queued)
    ensures Posts(t, StartFresh(t, next, []), Fresh(next), next.payload)
    ensures StartFresh(t, next, []).queue == t.queue
  {
    hide BlockForAuth;
  }

  lemma RetryPosts(t: Transport, purpose: Purpose, p: Payload)
    ensures var r := StartRetry(t, purpose, p, []);
      Posts(t, r, purpose, p) && r.drain.delivery.payload == p && r.queue == t.queue
  {
    hide BlockForAuth;
  }

  /** The head of the queue is served first: behind the retained request of its session if there is one. */
  lemma PumpServes(t: Transport)
    requires t.queue != [] && Admits(t, t.queue[0].payload)
    ensures var r, e := Pump(t, []), t.queue[0];
      && (e.payload.session !in t.exact ==> Posts(t, r, Fresh(e), e.payload) && r.queue == t.queue[1..])
      && (e.payload.session in t.exact && e.payload.session !in t.attempted ==>
            Posts(t, r, Ahead(e), t.exact[e.payload.session]) && r.queue == t.queue[1..]
            && r.drain.delivery.payload == t.exact[e.payload.session])
  {
    hide StartFresh, StartRetry, Skip;
    var e, t1 := t.queue[0], t.(queue := t.queue[1..], drain := Idle);
    FreshPosts(t1, e);
    if e.payload.session in t.exact { RetryPosts(t1, Ahead(e), t1.exact[e.payload.session]); }
  }

  /** The ledger as the drain loop finds it once the delivery has ended. */
  predicate AdmitsAfter(t: Transport, p: Payload)
    requires t.drain.Busy? && t.drain.delivery.at.Returned?
  {
    || Sequence(p) == 0 || !t.saturated
    || (p.session != t.drain.delivery.payload.session && (p.session in t.resync || p.session in t.exact))
  }

  /**
   Who is served when a delivery has ended, in every run with a current context: the drain that waited
   for a retry that is settled, the next request of an idle flush, or the head of the queue.
   */
  lemma NextServed(limits: Limits, inputs: seq<Input>, answer: Answer)
    requires limits.Positive()
    requires Run(limits, inputs).drain.Busy? && Run(limits, inputs).drain.delivery.at.Returned?
    ensures var t := Run(limits, inputs);
      var r, outcome := Step(t, Resuming(answer, [])), t.drain.delivery.at.outcome;
      match t.drain.purpose
      case Fresh(_) =>
        if t.queue == [] then r.drain == Idle && r.queue == []
        else Serves(t, r)
      case Ahead(next) =>
        outcome == Delivered || (outcome == Dropped && !t.saturated) ==>
          (AdmitsAfter(t, next.payload) ==> Posts(t, r, Fresh(next), next.payload) && r.queue == t.queue)
      case IdleRetry(rest) =>
        if rest != [] then
          Posts(t, r, IdleRetry(rest[1..]), rest[0]) && r.drain.delivery.payload == rest[0] && r.queue == t.queue
        else t.queue == [] ==> r.drain == Idle && r.queue == []
  {
    RunKeeps(limits, inputs);
    var t := Run(limits, inputs);
    HoldsThere(t);
    hide Run, Shape, Pump, StartRetry, StartFresh, Cleared, GiveUp;
    match t.drain.purpose
    case Fresh(next) => FreshServes(t, answer);
    case Ahead(next) => AheadServes(t, answer);
    case IdleRetry(rest) => IdleServes(t, answer);
  }

  predicate Serves(t: Transport, r: Transport)
    requires t.drain.Busy? && t.drain.delivery.at.Returned? && t.queue != []
  {
    var e := t.queue[0];
    AdmitsAfter(t, e.payload) ==>
      && (e.payload.session !in t.exact ==> Posts(t, r, Fresh(e), e.payload) && r.queue == t.queue[1..])
      && (e.payload.session in t.exact && e.payload.session !in t.attempted ==>
            Posts(t, r, Ahead(e), t.exact[e.payload.session]) && r.queue == t.queue[1..]
            && r.drain.delivery.payload == t.exact[e.payload.session])
  }

  lemma NothingToServe(t: Transport)
    requires t.queue == []
    ensures Pump(t, []).drain == Idle && Pump(t, []).queue == []
  {
  }

  lemma QueueServes(t: Transport, b: Transport)
    requires t.drain.Busy? && t.drain.delivery.at.Returned? && t.queue != []
    requires b.queue == t.queue && b.exact == t.exact && b.attempted == t.attempted && b.log.posted == t.log.posted
    requires b.saturated == t.saturated
    requires forall s :: s != t.drain.delivery.payload.session ==> (s in b.resync <==> s in t.resync)
    ensures Serves(t, Pump(b, []))
  {
    if AdmitsAfter(t, t.queue[0].payload) {
      hide Pump;
      PumpServes(b);
    }
  }

  lemma FreshServes(t: Transport, answer: Answer)
    requires t.drain.Busy? && t.drain.delivery.at.Returned? && t.drain.purpose.Fresh?
    ensures var r := Resume(t, answer, []);
      if t.queue == [] then r.drain == Idle && r.queue == [] else Serves(t, r)
  {
    var u, p, outcome := t.(drain := Idle), t.drain.delivery.payload, t.drain.delivery.at.outcome;
    AcceptAdmits(u, p);
    var a := if outcome == Delivered then Accept(u, p) else u;
    var b := Resolve(a, t.drain.purpose.next.id, outcome == Delivered);
    hide Pump, Accept, Serves;
    if t.queue == [] { NothingToServe(b); } else { QueueServes(t, b); }
  }

  lemma AcceptAdmits(t: Transport, p: Payload)
    ensures var r := Accept(t, p);
      && r.queue == t.queue && r.exact == t.exact && r.attempted == t.attempted && r.log.posted == t.log.posted
      && r.saturated == t.saturated
      && forall s :: s != p.session ==> (s in r.resync <==> s in t.resync)
  {
  }

  lemma AheadServes(t: Transport, answer: Answer)
    requires t.drain.Busy? && t.drain.delivery.at.Returned? && t.drain.purpose.Ahead?
    requires t.drain.purpose.next.payload.session == t.drain.delivery.payload.session
    requires t.drain.delivery.at.outcome == Dropped ==> t.drain.delivery.payload.session !in t.exact
    ensures var r, outcome, next := Resume(t, answer, []), t.drain.delivery.at.outcome, t.drain.purpose.next;
      outcome == Delivered || (outcome == Dropped && !t.saturated) ==>
        (AdmitsAfter(t, next.payload) ==> Posts(t, r, Fresh(next), next.payload) && r.queue == t.queue)
  {
    var u, p, next := t.(drain := Idle), t.drain.delivery.payload, t.drain.purpose.next;
    var b := u.(exact := u.exact - {p.session});
    AcceptAdmits(b, p);
    FreshPosts(Accept(b, p), next);
    FreshPosts(u, next);
    hide Pump, Accept, StartFresh, Skip;
  }

  lemma RestServes(t: Transport, a: Transport, rest: seq<Payload>)
    requires a.queue == t.queue && a.log.posted == t.log.posted
    ensures if rest != [] then
        var r := StartRetry(a, IdleRetry(rest[1..]), rest[0], []);
        Posts(t, r, IdleRetry(rest[1..]), rest[0]) && r.drain.delivery.payload == rest[0] && r.queue == t.queue
      else t.queue == [] ==> Pump(a, []).drain == Idle && Pump(a, []).queue == []
  {
    hide Pump, StartRetry;
    if rest != [] { RetryPosts(a, IdleRetry(rest[1..]), rest[0]); }
    else if t.queue == [] { NothingToServe(a); }
  }

  lemma IdleServes(t: Transport, answer: Answer)
    requires t.drain.Busy? && t.drain.delivery.at.Returned? && t.drain.purpose.IdleRetry?
    ensures var r, rest := Resume(t, answer, []), t.drain.purpose.rest;
      if rest != [] then
        Posts(t, r, IdleRetry(rest[1..]), rest[0]) && r.drain.delivery.payload == rest[0] && r.queue == t.queue
      else t.queue == [] ==> r.drain == Idle && r.queue == []
  {
    hide Pump, Accept, StartRetry, Posts;
    var u, p, rest := t.(drain := Idle), t.drain.delivery.payload, t.drain.purpose.rest;
    AcceptAdmits(u.(exact := u.exact - {p.session}), p);
    var a := if t.drain.delivery.at.outcome == Delivered then Accept(u.(exact := u.exact - {p.session}), p) else u;
    RestServes(t, a, rest);
  }

  /** Under another context the drain loop gives the head of the queue up instead of serving it. */
  lemma ContextLosesNext(limits: Limits, inputs: seq<Input>, answer: Answer, auth: seq<bool>)
    requires limits.Positive() && !Same(auth)
    requires var t := Run(limits, inputs);
      t.drain.Busy? && t.drain.delivery.at.Returned? && t.drain.purpose.Fresh? && t.queue != []
    ensures var t := Run(limits, inputs);
      var r, e := Step(t, Resuming(answer, auth)), t.queue[0];
      && |r.log.resolved| >= |t.log.resolved| + 2 && |r.log.losses| >= |t.log.losses| + 1
      && r.log.resolved[|t.log.resolved| + 1] == Resolution(e.id, false)
      && r.log.losses[|t.log.losses|].payload == e.payload
  {
    hide *;
    RunKeeps(limits, inputs);
    var t := Run(limits, inputs);
    HoldsThere(t);
    ResumeIs(t, answer, auth);
    FreshContextLoses(t, answer, auth);
  }

  /** What the drain loop goes on with once a fresh delivery has ended. */
  function Rested(t: Transport): Transport
    requires t.drain.Busy? && t.drain.delivery.at.Returned? && t.drain.purpose.Fresh?
  {
    var u, outcome := t.(drain := Idle), t.drain.delivery.at.outcome;
    Resolve(if outcome == Delivered then Accept(u, t.drain.delivery.payload) else u, t.drain.purpose.next.id,
            outcome == Delivered)
  }

  lemma RestedIs(t: Transport, answer: Answer, auth: seq<bool>)
    requires t.drain.Busy? && t.drain.delivery.at.Returned? && t.drain.purpose.Fresh?
    ensures Resume(t, answer, auth) == Pump(Rested(t), auth)
    ensures var r := Rested(t);
      && r.queue == t.queue && r.exact == t.exact && r.log.losses == t.log.losses
      && |r.log.resolved| == |t.log.resolved| + 1
  {
    hide Pump, Cleared, AfterAhead, AfterIdleRetry;
  }

  lemma FreshContextLoses(t: Transport, answer: Answer, auth: seq<bool>)
    requires !Same(auth) && Keyed(t.exact)
    requires t.drain.Busy? && t.drain.delivery.at.Returned? && t.drain.purpose.Fresh? && t.queue != []
    ensures var r, e := Resume(t, answer, auth), t.queue[0];
      && |r.log.resolved| >= |t.log.resolved| + 2 && |r.log.losses| >= |t.log.losses| + 1
      && r.log.resolved[|t.log.resolved| + 1] == Resolution(e.id, false)
      && r.log.losses[|t.log.losses|].payload == e.payload
  {
    hide *;
    RestedIs(t, answer, auth);
    HeadLost(Rested(t), auth);
  }

  lemma HeadLost(t: Transport, auth: seq<bool>)
    requires !Same(auth) && Keyed(t.exact) && t.queue != []
    ensures var r, e := Pump(t, auth), t.queue[0];
      && |r.log.resolved| >= |t.log.resolved| + 1 && |r.log.losses| >= |t.log.losses| + 1
      && r.log.resolved[|t.log.resolved|] == Resolution(e.id, false)
      && r.log.losses[|t.log.losses|].payload == e.payload
      && t.log.resolved <= r.log.resolved
  {
    var e, t1 := t.queue[0], t.(queue := t.queue[1..], drain := Idle);
    hide Skip, Keyed, Placed;
    SkipGoes(t1, e);
    PumpGoes(Skip(t1, e), Later(auth));
    var s := Skip(t1, e);
    assert s.log.resolved + [] == s.log.resolved && s.log.losses + [] == s.log.losses;
    assert s.log.resolved[|t.log.resolved|] == Resolution(e.id, false);
    assert s.log.losses[|t.log.losses|].payload == e.payload;
  }
}
