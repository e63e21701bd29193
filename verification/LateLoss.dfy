/**
 A saturated transport that is about to accept a body forgets its session with it, unless a later
 sequence is missed first. Two ways to bring that about while the acceptance is pending: crowding a
 waiting drain out of the queue, and losing the next drain of a session that has nothing missed yet.
 */
module LateLoss {
  import opened Wrappers
  import opened Capture
  import opened TransportModel
  import opened TransportShape
  import opened SessionLedger
  import opened TransportLedger
  import opened GapFree
  import opened DeliveryGuarantees
  import opened Settlement
  import opened SilentLoss
  import opened Restamping
  import opened Vanishing
  import opened Sets

  // ---- crowding a waiting drain out -------------------------------------------------------

  /** A payload of the first version: the ledger does not know it, but it takes a place in the queue. */
  const FILLER := Payload(1, "", None, "", [], [], [], None, None)

  /** How many entries wait ahead of the session's first drain. */
  function Position(queue: seq<Queued>, session: string): nat {
    if queue == [] || Of(session, queue[0].payload) != [] then 0 else 1 + Position(queue[1..], session)
  }

  /** The fillers it takes to push the session's first drain out. */
  function Room(t: Transport, session: string): nat {
    Position(t.queue, session) + if |t.queue| < t.limits.maxQueued then t.limits.maxQueued - |t.queue| else 0
  }

  lemma {:induction false} PositionAppend(queue: seq<Queued>, last: Queued, session: string)
    requires Waiting(queue, session) != []
    ensures Waiting(queue + [last], session) != [] && Position(queue + [last], session) == Position(queue, session)
  {
    assert (queue + [last])[1..] == queue[1..] + [last];
    if Of(session, queue[0].payload) == [] { PositionAppend(queue[1..], last, session); }
  }

  /** The session's acceptance is pending, it is remembered, and drains of it wait behind the answered body. */
  predicate Crowdable(t: Transport, session: string) {
    && t.saturated && !t.stopped && Answered(t, session) && HasRecovery(t, session)
    && Waiting(t.queue, session) != []
    && forall w <- Waiting(t.queue, session) :: w > Sequence(t.drain.delivery.payload)
  }

  lemma EvictsOne(t: Transport)
    requires |t.queue| == t.limits.maxQueued >= 1
    ensures Evict(t) == AsOverflow(DropOldest(t))
  {
    hide GiveUp;
    var a := AsOverflow(DropOldest(t));
    assert |a.queue| < t.limits.maxQueued;
  }

  /** What a filler does to a busy transport: it takes a free place, or drops the oldest entry. */
  lemma FillerEnters(t: Transport)
    requires !t.stopped && t.drain.Busy? && |t.queue| <= t.limits.maxQueued && t.limits.maxQueued >= 1
    ensures var r := Send(t, FILLER, true, []);
      && r == t.(queue := r.queue, resync := r.resync, saturated := r.saturated, log := r.log)
      && r.log.sent == t.log.sent && r.log.replayed == t.log.replayed
      && (|t.queue| < t.limits.maxQueued ==>
            r.queue == t.queue + [Queued(t.log.issued, FILLER)] && r.resync == t.resync && r.saturated == t.saturated)
      && (|t.queue| == t.limits.maxQueued ==>
            && r.queue == t.queue[1..] + [Queued(t.log.issued, FILLER)]
            && r.resync == RememberDroppedDrain(t, t.queue[0].payload).resync
            && r.saturated == RememberDroppedDrain(t, t.queue[0].payload).saturated)
  {
    hide Size, Widened;
    var a := NoteSent(t, FILLER);
    if |t.queue| == t.limits.maxQueued { EvictsOne(a); }
    assert Send(t, FILLER, true, []) == Enqueue(t, FILLER);
  }

  lemma FillerPushesOut(t: Transport, session: string)
    requires Crowdable(t, session) && Of(session, t.queue[0].payload) != []
    ensures var r := RememberDroppedDrain(t, t.queue[0].payload);
      r.saturated && session in r.resync && r.resync[session].through > Sequence(t.drain.delivery.payload)
  {
    hide Size;
    assert Sequence(t.queue[0].payload) in Waiting(t.queue, session);
  }

  lemma OthersRemember(t: Transport, session: string, p: Payload)
    requires Of(session, p) == [] && HasRecovery(t, session)
    ensures var r := RememberDroppedDrain(t, p);
      HasRecovery(t.(resync := r.resync), session) && (t.saturated ==> r.saturated)
  {
    hide Size, Widened;
  }

  lemma FillerCrowds(t: Transport, session: string)
    requires |t.queue| <= t.limits.maxQueued && t.limits.maxQueued >= 1 && Crowdable(t, session)
    ensures var r := Send(t, FILLER, true, []);
      && r.drain == t.drain && r.saturated && !r.stopped && HasRecovery(r, session)
      && (MissedBeyond(r, session, Sequence(t.drain.delivery.payload))
          || (Crowdable(r, session) && Room(r, session) < Room(t, session)))
  {
    hide Send, RememberDroppedDrain, Of;
    FillerEnters(t);
    var last := Queued(t.log.issued, FILLER);
    assert Of(session, FILLER) == [] by { FillerUncounted(session); }
    if |t.queue| < t.limits.maxQueued {
      WaitingAppend(t.queue, last, session);
      PositionAppend(t.queue, last, session);
    } else if Of(session, t.queue[0].payload) != [] {
      FillerPushesOut(t, session);
    } else {
      OthersRemember(t, session, t.queue[0].payload);
      assert Waiting(t.queue, session) == Waiting(t.queue[1..], session);
      assert Position(t.queue, session) == 1 + Position(t.queue[1..], session);
      WaitingAppend(t.queue[1..], last, session);
      PositionAppend(t.queue[1..], last, session);
    }
  }

  lemma FillerUncounted(session: string)
    ensures Of(session, FILLER) == [] && Sequence(FILLER) == 0
  {
  }

  /** The drains that wait come after the answered body. */
  lemma WaitBehind(t: Transport, session: string, sent: map<string, int>)
    requires Shape(t) && Sound(Without(t, sent), session) && Answered(t, session) && session !in t.log.replayed
    ensures forall w <- Waiting(t.queue, session) :: w > Sequence(t.drain.delivery.payload)
  {
    var u := Without(t, sent);
    RestampShape(t, Records(sent, {}));
    SoundIsLedger(u, session);
    InFlightFirst(u, session);
    hide Shape, Sound;
    var line := Line(u, session, HandNow(u));
    assert line == (Kept(u, session) + InHand(HandNow(u), session)) + Waiting(t.queue, session);
    forall w <- Waiting(t.queue, session) ensures w > line[0] {
      var i :| 0 <= i < |Waiting(t.queue, session)| && Waiting(t.queue, session)[i] == w;
      var n := |Kept(u, session) + InHand(HandNow(u), session)|;
      assert line[n + i] == w;
      assert n > 0 by { HandOrKept(t, session); }
      assert Below(ViewOf(u, session), line[0], line[n + i]);
    }
  }

  lemma HandOrKept(t: Transport, session: string)
    requires Shape(t) && Answered(t, session)
    ensures Kept(t, session) + InHand(HandNow(t), session) != []
  {
    hide Core, HoldsRest;
  }

  lemma FillerSoundWithout(t: Transport, session: string, sent: map<string, int>)
    requires Shape(t) && Wakeful(t) && Sound(Without(t, sent), session)
    ensures Sound(Without(Send(t, FILLER, true, []), sent), session)
  {
    hide Shape, Wakeful, Sound, Send, Restamp;
    FillerUncounted(session);
    SendRestamps(t, FILLER, true, [], Records(sent, {}));
    RestampShape(t, Records(sent, {}));
    StepSend(Without(t, sent), FILLER);
    FillerDisciplined(Without(t, sent));
    StepSound(Without(t, sent), Sending(FILLER, true, []), session);
  }

  lemma FillerDisciplined(t: Transport)
    ensures Disciplined(t, Sending(FILLER, true, []))
  {
    FillerUncounted("");
  }

  /** The acceptance is pending, and a drain that waits can still be lost before it. */
  ghost predicate Crowding(t: Transport, session: string, sent: map<string, int>) {
    && t.saturated && !t.stopped && Answered(t, session) && HasRecovery(t, session)
    && Waiting(t.queue, session) != [] && session !in t.log.replayed && Sound(Without(t, sent), session)
  }

  lemma CrowdStep(t: Transport, session: string, sent: map<string, int>)
    requires Shape(t) && Wakeful(t) && Crowding(t, session, sent)
    ensures var r := Send(t, FILLER, true, []);
      && r.log.sent == t.log.sent && r.log.replayed == t.log.replayed
      && (Steerable(r, session, sent) || (Crowding(r, session, sent) && Room(r, session) < Room(t, session)))
  {
    hide Send, Sound, Without, HasRecovery;
    WaitBehind(t, session, sent);
    assert |t.queue| <= t.limits.maxQueued && t.limits.maxQueued >= 1;
    hide Shape, Wakeful;
    FillerCrowds(t, session);
    FillerEnters(t);
    FillerSoundWithout(t, session, sent);
    var r := Send(t, FILLER, true, []);
    assert Open(r, session) by { OpenWhenRemembered(r, session); }
  }

  lemma OpenWhenRemembered(t: Transport, session: string)
    requires HasRecovery(t, session)
    ensures Open(t, session)
  {
  }

  /** Enough fillers and the session will outlast the acceptance. */
  lemma CrowdOut(limits: Limits, inputs: seq<Input>, session: string, sent: map<string, int>)
    returns (more: seq<Input>)
    requires limits.Positive() && DisciplinedRun(limits, inputs) && Crowding(Run(limits, inputs), session, sent)
    ensures DisciplinedRun(limits, inputs + more)
    ensures var t, u := Run(limits, inputs), Run(limits, inputs + more);
      && Steerable(u, session, sent) && u.log.sent == t.log.sent && u.log.replayed == t.log.replayed
    decreases Room(Run(limits, inputs), session)
  {
    var t := Run(limits, inputs);
    var fill := Sending(FILLER, true, []);
    hide Run, DisciplinedRun, Send, Shape, Wakeful, Step, Disciplined, Crowding, Steerable, Room;
    RunKeeps(limits, inputs);
    CrowdStep(t, session, sent);
    FillerDisciplined(t);
    StepSend(t, FILLER);
    RunOneMore(limits, inputs, fill);
    if Steerable(Run(limits, inputs + [fill]), session, sent) {
      more := [fill];
    } else {
      var rest := CrowdOut(limits, inputs + [fill], session, sent);
      more := [fill] + rest;
      assert inputs + more == inputs + [fill] + rest;
    }
  }

  // ---- losing the next drain --------------------------------------------------------------

  /** Nothing acknowledged so far settles the sequence. */
  ghost predicate Unsettled(accepted: seq<Payload>, session: string, q: int) {
    !Acknowledged(accepted, session, q) && !DeclaredMissing(accepted, session, q)
  }

  /** Only `q + 1` is missed of the session, nothing of it is retained or waits, and `q` is settled by nothing. */
  ghost predicate Cleaned(t: Transport, session: string, q: int) {
    && 1 <= q && !t.stopped && session !in t.exact && Waiting(t.queue, session) == []
    && session in t.resync && t.resync[session] == Range(q + 1, q + 1)
    && Unsettled(t.log.accepted, session, q)
  }

  /** If it is a drain of the session, it comes before `q` and does not declare it. */
  predicate Passing(p: Payload, session: string, q: int) {
    Of(session, p) != [] ==> Sequence(p) < q && !Covers(p.resync, q)
  }

  /** The transport once the retained request being retried is delivered. */
  function Base(t: Transport): Transport {
    if t.drain.Busy? && !t.drain.purpose.Fresh?
    then t.(exact := t.exact - {t.drain.delivery.payload.session}) else t
  }

  /** Good answers bring the session to rest with `q` unsettled and `q + 1` missed. */
  ghost predicate Aside(t: Transport, session: string, q: int) {
    && Cleaned(Base(t), session, q)
    && (t.drain.Busy? ==>
          && (t.drain.delivery.at.Returned? ==> t.drain.delivery.at.outcome == Delivered)
          && Passing(t.drain.delivery.payload, session, q)
          && (t.drain.purpose.Ahead? ==> Passing(t.drain.purpose.next.payload, session, q)))
  }

  lemma SkipCleans(t: Transport, next: Queued, session: string, q: int)
    requires Cleaned(t, session, q) && Of(session, next.payload) == []
    ensures Cleaned(Skip(t, next), session, q)
  {
    hide Size, Widened, Unsettled;
  }

  lemma StartAside(t: Transport, purpose: Purpose, next: Queued, p: Payload, session: string, q: int)
    requires Cleaned(t, session, q)
    ensures Passing(next.payload, session, q) ==> Aside(StartFresh(t, next, []), session, q)
    ensures !purpose.Fresh? && p.session != session && (purpose.Ahead? ==>
        Passing(purpose.next.payload, session, q)) ==>
      Aside(StartRetry(t, purpose, p, []), session, q)
  {
    hide BlockForAuth, Unsettled, Waiting;
  }

  lemma PopCleans(t: Transport, session: string, q: int)
    requires t.queue != [] && Cleaned(t, session, q)
    ensures Cleaned(t.(queue := t.queue[1..], drain := Idle), session, q) && Of(session, t.queue[0].payload) == []
  {
    hide Unsettled;
  }

  lemma {:induction false} PumpAside(t: Transport, session: string, q: int)
    requires Cleaned(t, session, q) && Keyed(t.exact)
    ensures Aside(Pump(t, []), session, q)
    decreases |t.queue|
  {
    if t.queue != [] {
      hide Skip, StartRetry, StartFresh, Refused, Cleaned, Aside;
      var next, t1 := t.queue[0], t.(queue := t.queue[1..], drain := Idle);
      PopCleans(t, session, q);
      SkipCleans(t1, next, session, q);
      SkipLoses(t1, next);
      assert CleanedSession(t1, session) by { CleanedIs(t1, session, q); }
      if next.payload.session in t1.exact {
        StartAside(t1, Ahead(next), next, t1.exact[next.payload.session], session, q);
        if next.payload.session in t1.attempted { PumpAside(Skip(t1, next), session, q); }
      } else {
        StartAside(t1, Ahead(next), next, next.payload, session, q);
      }
      if Refused(t1, next.payload) { PumpAside(Skip(t1, next), session, q); }
    } else {
      hide Waiting, Unsettled;
    }
  }

  predicate CleanedSession(t: Transport, session: string) {
    session !in t.exact
  }

  lemma CleanedIs(t: Transport, session: string, q: int)
    requires Cleaned(t, session, q)
    ensures CleanedSession(t, session)
  {
  }

  lemma ContinueAside(t: Transport, next: Queued, session: string, q: int)
    requires Cleaned(t, session, q) && Keyed(t.exact) && Passing(next.payload, session, q)
    ensures Aside(ContinueWith(t, next, []), session, q)
  {
    StartAside(t, Ahead(next), next, next.payload, session, q);
    if Refused(t, next.payload) {
      assert Of(session, next.payload) == [];
      hide Cleaned, Aside, Skip, Pump, Refused;
      SkipCleans(t, next, session, q);
      SkipLoses(t, next);
      PumpAside(Skip(t, next), session, q);
    }
  }

  lemma AcceptCleans(t: Transport, p: Payload, session: string, q: int)
    requires Cleaned(t, session, q) && Passing(p, session, q)
    ensures Cleaned(Accept(t, p), session, q)
  {
    hide Acknowledged, DeclaredMissing, Waiting;
    LastOrBefore(t.log.accepted + [p], session, q);
    assert (t.log.accepted + [p])[..|t.log.accepted|] == t.log.accepted;
  }

  /** The drain loop after a good end of a delivery. */
  lemma ReturnAside(t: Transport, session: string, q: int)
    requires Shape(t) && t.drain.Busy? && t.drain.delivery.at == Returned(Delivered) && Aside(t, session, q)
    ensures Aside(Resume(t, Ok, []), session, q)
  {
    var purpose, p := t.drain.purpose, t.drain.delivery.payload;
    var b := Base(t).(drain := Idle);
    HoldsNow(t);
    AsideAccepts(t, session, q);
    hide Shape, Cleaned, Aside, Accept, Pump, ContinueWith, StartRetry, Passing, Base;
    match purpose {
      case Fresh(next) =>
        ResolveCleans(Accept(b, p), next.id, session, q);
        PumpAside(Resolve(Accept(b, p), next.id, true), session, q);
      case Ahead(next) =>
        ContinueAside(Accept(b, p), next, session, q);
      case IdleRetry(rest) =>
        PumpAside(Accept(b, p), session, q);
        if rest != [] { StartAside(Accept(b, p), IdleRetry(rest[1..]), Queued(0, p), rest[0], session, q); }
    }
    BaseIs(t);
  }

  lemma BaseIs(t: Transport)
    requires t.drain.Busy?
    ensures Base(t) == if t.drain.purpose.Fresh? then t
      else t.(exact := t.exact - {t.drain.delivery.payload.session})
  {
  }

  /** What the good end of a delivery leaves, before the drain loop goes on. */
  lemma AsideAccepts(t: Transport, session: string, q: int)
    requires Shape(t) && t.drain.Busy? && t.drain.delivery.at == Returned(Delivered) && Aside(t, session, q)
    ensures var a := Accept(Base(t).(drain := Idle), t.drain.delivery.payload);
      Cleaned(a, session, q) && Keyed(a.exact)
    ensures t.drain.purpose.Ahead? ==> Passing(t.drain.purpose.next.payload, session, q)
    ensures t.drain.purpose.IdleRetry? && t.drain.purpose.rest != [] ==> t.drain.purpose.rest[0].session != session
  {
    var b := Base(t).(drain := Idle);
    HoldsNow(t);
    hide Shape, Waiting, Unsettled, Passing, Accept;
    assert Cleaned(b, session, q);
    AcceptCleans(b, t.drain.delivery.payload, session, q);
    AcceptKeys(b, t.drain.delivery.payload);
  }

  lemma ResolveCleans(t: Transport, id: nat, session: string, q: int)
    requires Cleaned(t, session, q)
    ensures Cleaned(Resolve(t, id, true), session, q) && Resolve(t, id, true).exact == t.exact
  {
    hide Unsettled, Waiting;
  }

  lemma AcceptKeys(t: Transport, p: Payload)
    requires Keyed(t.exact)
    ensures Keyed(Accept(t, p).exact)
  {
  }

  lemma WaitAside(t: Transport, session: string, q: int)
    requires t.drain.Busy? && !t.drain.delivery.at.Returned? && Aside(t, session, q)
    ensures Aside(Resume(t, Ok, []), session, q)
  {
    ResumeIsWait(t, Ok, []);
    hide Resume, Fail, BlockForAuth, Waiting, Unsettled, Of;
  }

  lemma AsideStep(t: Transport, session: string, q: int)
    requires Shape(t) && Wakeful(t) && t.drain.Busy? && Aside(t, session, q)
    ensures var r := Resume(t, Ok, []); Aside(r, session, q) && r.drain != Stuck && Work(r) < Work(t)
  {
    hide Resume, Shape, Cleaned, Passing, Work;
    NotStuckAfter(t, Ok, []);
    ResumeDecreases(t, Ok, []);
    if t.drain.delivery.at.Returned? { ReturnAside(t, session, q); } else { WaitAside(t, session, q); }
  }

  /** Good answers alone bring the drain loop to rest. */
  lemma AsideRests(limits: Limits, inputs: seq<Input>, session: string, q: int) returns (more: seq<Input>)
    requires limits.Positive() && DisciplinedRun(limits, inputs)
    requires Aside(Run(limits, inputs), session, q) && Run(limits, inputs).drain != Stuck
    ensures DisciplinedRun(limits, inputs + more)
    ensures var t, u := Run(limits, inputs), Run(limits, inputs + more);
      && u.drain == Idle && u.queue == [] && Cleaned(u, session, q)
      && u.log.sent == t.log.sent && u.log.replayed == t.log.replayed
    decreases Work(Run(limits, inputs))
  {
    hide Run, DisciplinedRun, Resume, Shape, Aside, Cleaned, Work, Unsettled;
    var t, ok := Run(limits, inputs), Resuming(Ok, []);
    RunKeeps(limits, inputs);
    if t.drain.Busy? {
      AsideStep(t, session, q);
      RunOneMore(limits, inputs, ok);
      var rest := AsideRests(limits, inputs + [ok], session, q);
      more := [ok] + rest;
      assert inputs + more == inputs + [ok] + rest;
    } else {
      more := [];
      assert inputs + more == inputs;
      AsideIs(t, session, q);
    }
  }

  lemma AsideIs(t: Transport, session: string, q: int)
    requires Aside(t, session, q) && !t.drain.Busy?
    ensures Cleaned(t, session, q)
  {
  }

  /** A session with a pending acceptance, of which nothing is missed and nothing waits. */
  predicate Bare(t: Transport, session: string) {
    && t.saturated && !t.stopped && Answered(t, session)
    && session in t.exact && session !in t.resync && Waiting(t.queue, session) == []
  }

  lemma HandPasses(t: Transport, session: string, sent: map<string, int>, q: int)
    requires Shape(t) && Sound(Without(t, sent), session) && Bare(t, session)
    requires (if session in sent then sent[session] else 0) == q - 1
    ensures !t.drain.purpose.Fresh? && Passing(t.drain.delivery.payload, session, q)
    ensures t.drain.purpose.Ahead? ==> Passing(t.drain.purpose.next.payload, session, q)
  {
    var u := Without(t, sent);
    SoundIsLedger(u, session);
    hide Tiled, NeverBack, Core, HoldsRest, Waiting;
    var v, line := ViewOf(u, session), Line(u, session, HandNow(u));
    assert Retains(t.exact, t.drain.delivery.payload);
    assert Ready(v, t.drain.delivery.payload);
    assert line[0] == Sequence(t.drain.delivery.payload);
    if t.drain.purpose.Ahead? && Of(session, t.drain.purpose.next.payload) != [] {
      assert line[1] == Sequence(t.drain.purpose.next.payload);
    }
  }

  /** The next drain cannot be serialized: now it is missed, and the session stays remembered. */
  lemma NextLost(t: Transport, p: Payload, sent: map<string, int>)
    requires Shape(t) && 0 < Sequence(p) < MAX_SAFE_INTEGER && Bare(t, p.session)
    requires Sound(Without(t, sent), p.session)
    requires (if p.session in sent then sent[p.session] else 0) == Sequence(p) - 1
    requires Sent(t, p.session) == Sequence(p)
    ensures var r := Send(t, Successor(p), false, []);
      && Aside(r, p.session, Sequence(p)) && r.drain == t.drain
      && Sent(r, p.session) == Sequence(p) + 1 && r.log.replayed == t.log.replayed
  {
    var session, q := p.session, Sequence(p);
    WithoutBounds(t, session, sent, q);
    HandPasses(t, session, sent, q);
    UnserializableLost(t, p);
    hide Acknowledged, DeclaredMissing, Shape, Sound, Without, Passing, Successor, Send, Sent, Bare, Top, Aside;
    BareAside(t, Send(t, Successor(p), false, []), session, q);
  }

  lemma BareAside(t: Transport, r: Transport, session: string, q: int)
    requires Bare(t, session) && !t.drain.purpose.Fresh? && Passing(t.drain.delivery.payload, session, q)
    requires t.drain.purpose.Ahead? ==> Passing(t.drain.purpose.next.payload, session, q)
    requires 1 <= q && Unsettled(t.log.accepted, session, q) && r.log.accepted == t.log.accepted
    requires r == t.(resync := t.resync[session := Range(q + 1, q + 1)], log := r.log)
    ensures Aside(r, session, q)
  {
    hide Unsettled, Passing, Waiting;
  }

  lemma UnserializableLost(t: Transport, p: Payload)
    requires 0 < Sequence(p) < MAX_SAFE_INTEGER && Bare(t, p.session) && Sent(t, p.session) == Sequence(p)
    ensures var r, q := Send(t, Successor(p), false, []), Sequence(p);
      && r == t.(resync := t.resync[p.session := Range(q + 1, q + 1)], log := r.log)
      && r.log.accepted == t.log.accepted && r.log.replayed == t.log.replayed && Sent(r, p.session) == q + 1
  {
    hide Size, Waiting;
    assert Send(t, Successor(p), false, []) == Reject(t, Successor(p), true);
  }

  lemma SuccessorRepeats(u: Transport, p: Payload)
    requires 0 < Sequence(p) < MAX_SAFE_INTEGER && Sent(u, p.session) == Sequence(p) + 1
    ensures Disciplined(u, Sending(Successor(p), true, []))
  {
  }

  /** A repetition of the drain whose first copy was missed declares nothing. */
  lemma RepeatSpares(u: Transport, p: Payload)
    requires 0 < Sequence(p) < MAX_SAFE_INTEGER && Cleaned(u, p.session, Sequence(p))
    ensures !Covers(PrepareResync(u, Successor(p)).resync, Sequence(p))
    ensures Open(u, p.session) && !u.stopped && p.session !in u.exact
    ensures !Acknowledged(u.log.accepted, p.session, Sequence(p))
    ensures !DeclaredMissing(u.log.accepted, p.session, Sequence(p))
  {
    hide Acknowledged, DeclaredMissing;
  }

  /** With nothing missed and nothing waiting, the lost drain can still vanish behind its own successor. */
  lemma BareVanishes(limits: Limits, inputs: seq<Input>, p: Payload, sent: map<string, int>)
    requires limits.Positive() && DisciplinedRun(limits, inputs) && 0 < Sequence(p) < MAX_SAFE_INTEGER
    requires (if p.session in sent then sent[p.session] else 0) == Sequence(p) - 1
    requires var t := Run(limits, inputs);
      && Bare(t, p.session) && Sound(Without(t, sent), p.session)
      && Sent(t, p.session) == Sequence(p) && p.session !in t.log.replayed
    ensures CanVanish(limits, inputs, p.session, Sequence(p))
  {
    hide Run, DisciplinedRun, Shape, Sound, Without, Successor, Send, Aside, Cleaned, Disciplined, Sent, Vanished,
      Waiting, Covers, Acknowledged, DeclaredMissing;
    var t := Run(limits, inputs);
    var lose := Sending(Successor(p), false, []);
    RunKeeps(limits, inputs);
    NextLost(t, p, sent);
    SuccessorDisciplined(t, p);
    SameDiscipline(t, Successor(p), false, []);
    RunOneMore(limits, inputs, lose);
    var more := AsideRests(limits, inputs + [lose], p.session, Sequence(p));
    var all := inputs + [lose] + more;
    SentSame(Run(limits, inputs + [lose]), Run(limits, all), p.session);
    SuccessorRepeats(Run(limits, all), p);
    RepeatSpares(Run(limits, all), p);
    NextAccepted(limits, all, p);
    var rest :| DisciplinedRun(limits, all + rest) && Vanished(limits, all + rest, p.session, Sequence(p));
    assert all + rest == inputs + ([lose] + more + rest);
  }

  lemma SentSame(t: Transport, u: Transport, session: string)
    requires u.log.sent == t.log.sent
    ensures Sent(u, session) == Sent(t, session)
  {
  }
}
