/**
 When the recovery ledger cannot fill up: a transport that numbered drains of at most
 `maxRecoverySessions` sessions are sent to never saturates, so it never shuts a session out.
 */
module FewSessions {
  import opened Wrappers
  import opened Capture
  import opened TransportModel
  import opened TransportShape
  import opened Sets

  /** A numbered payload belongs to one of the sessions. */
  predicate In(p: Payload, sessions: set<string>) {
    Sequence(p) > 0 ==> p.session in sessions
  }

  /** The ledger is not full, and remembers only some of few sessions. */
  ghost predicate Roomy(t: Transport, sessions: set<string>) {
    !t.saturated && RecoverySessions(t) <= sessions && Size(sessions) <= t.limits.maxSessions
  }

  predicate QueueIn(queue: seq<Queued>, sessions: set<string>) {
    forall e <- queue :: In(e.payload, sessions)
  }

  predicate DrainIn(drain: Drain, sessions: set<string>) {
    drain.Busy? ==>
      && In(drain.delivery.payload, sessions)
      && (!drain.purpose.IdleRetry? ==> In(drain.purpose.next.payload, sessions))
  }

  ghost predicate Few(t: Transport, sessions: set<string>) {
    Roomy(t, sessions) && QueueIn(t.queue, sessions) && DrainIn(t.drain, sessions)
  }

  /** One of few sessions always finds a place. */
  lemma HasPlace(t: Transport, session: string, sessions: set<string>)
    requires Roomy(t, sessions) && session in sessions
    ensures CanRemember(t, session)
  {
    if session !in RecoverySessions(t) {
      assert session !in {session} * RecoverySessions(t);
      SizeOfUnion(RecoverySessions(t), {session});
      SizeGrows(RecoverySessions(t) + {session}, sessions);
    }
  }

  lemma GiveUpRoomy(t: Transport, p: Payload, track: bool, sessions: set<string>)
    requires Roomy(t, sessions) && In(p, sessions)
    ensures Roomy(GiveUp(t, p, track), sessions)
  {
    if Sequence(p) > 0 { HasPlace(t, p.session, sessions); }
    hide Size, CanRemember, Widened;
  }

  lemma SkipFew(t: Transport, next: Queued, sessions: set<string>)
    requires Roomy(t, sessions) && In(next.payload, sessions)
    ensures Roomy(Skip(t, next), sessions) && Skip(t, next).queue == t.queue && Skip(t, next).drain == t.drain
    ensures Skip(t, next).exact == t.exact
  {
    GiveUpRoomy(t, next.payload, true, sessions);
    hide GiveUp, Size;
  }

  lemma RetainRoomy(t: Transport, purpose: Purpose, p: Payload, attempts: nat, sessions: set<string>)
    requires Roomy(t, sessions) && In(p, sessions) && Sequence(p) > 0
    ensures Roomy(RetainExactRetry(t, purpose, p, attempts), sessions)
    ensures RetainExactRetry(t, purpose, p, attempts).drain.delivery.payload == p
  {
    HasPlace(t, p.session, sessions);
    var a := RememberExactRetry(t, p);
    hide Size, CanRemember;
    GiveUpRoomy(a, p, true, sessions);
    hide GiveUp;
  }

  lemma EndsRoomy(t: Transport, purpose: Purpose, p: Payload, attempts: nat, retryable: bool, sessions: set<string>)
    requires Roomy(t, sessions) && In(p, sessions)
    ensures var r := Fail(t, purpose, p, attempts, retryable);
      Roomy(r, sessions) && r.drain.delivery.payload == p
    ensures var r := BlockForAuth(t, purpose, p, attempts); Roomy(r, sessions) && r.drain.delivery.payload == p
  {
    GiveUpRoomy(t, p, true, sessions);
    if Sequence(p) > 0 { RetainRoomy(t, purpose, p, attempts, sessions); }
    hide GiveUp, RetainExactRetry, Size;
  }

  lemma AttemptFew(t: Transport, purpose: Purpose, p: Payload, attempts: nat, auth: seq<bool>, sessions: set<string>)
    requires Roomy(t, sessions) && QueueIn(t.queue, sessions) && In(p, sessions)
    requires !purpose.IdleRetry? ==> In(purpose.next.payload, sessions)
    ensures Few(Attempt(t, purpose, p, attempts, auth), sessions)
  {
    EndsRoomy(t, purpose, p, attempts, true, sessions);
    hide BlockForAuth, Size;
  }

  lemma StartFew(t: Transport, purpose: Purpose, next: Queued, p: Payload, auth: seq<bool>, sessions: set<string>)
    requires Roomy(t, sessions) && QueueIn(t.queue, sessions)
    ensures In(p, sessions) && (!purpose.IdleRetry? ==> In(purpose.next.payload, sessions)) ==>
      Few(StartRetry(t, purpose, p, auth), sessions)
    ensures In(next.payload, sessions) ==> Few(StartFresh(t, next, auth), sessions)
  {
    hide Attempt, Size;
    if In(p, sessions) && (!purpose.IdleRetry? ==> In(purpose.next.payload, sessions)) {
      var a := t.(attempted := t.attempted + {p.session}, log := t.log.(retried := t.log.retried + [p.session]));
      AttemptFew(a, purpose, p, 0, auth, sessions);
    }
    if In(next.payload, sessions) { AttemptFew(t, Fresh(next), PrepareResync(t, next.payload), 0, auth, sessions); }
  }

  /** A retained request is one of a remembered session. */
  lemma RetainedIn(t: Transport, session: string, sessions: set<string>)
    requires Roomy(t, sessions) && Keyed(t.exact) && session in t.exact
    ensures In(t.exact[session], sessions)
  {
    hide Size;
  }

  lemma {:induction false} PumpFew(t: Transport, auth: seq<bool>, sessions: set<string>)
    requires Roomy(t, sessions) && QueueIn(t.queue, sessions) && Keyed(t.exact)
    ensures Few(Pump(t, auth), sessions)
    decreases |t.queue|
  {
    hide Skip, StartRetry, StartFresh, Refused, Size, Keyed, In;
    if t.queue != [] {
      var next, t1 := t.queue[0], t.(queue := t.queue[1..], drain := Idle);
      SkipFew(t1, next, sessions);
      PumpFew(Skip(t1, next), Later(auth), sessions);
      if next.payload.session in t1.exact {
        RetainedIn(t1, next.payload.session, sessions);
        StartFew(t1, Ahead(next), next, t1.exact[next.payload.session], Later(auth), sessions);
      } else {
        StartFew(t1, Ahead(next), next, next.payload, Later(auth), sessions);
      }
    }
  }

  lemma ContinueFew(t: Transport, next: Queued, auth: seq<bool>, sessions: set<string>)
    requires Roomy(t, sessions) && QueueIn(t.queue, sessions) && Keyed(t.exact) && In(next.payload, sessions)
    ensures Few(ContinueWith(t, next, auth), sessions) && Few(Pump(Skip(t, next), auth), sessions)
  {
    hide Skip, StartFresh, Refused, Size, Keyed, In, Pump, Few;
    SkipFew(t, next, sessions);
    PumpFew(Skip(t, next), auth, sessions);
    StartFew(t, Fresh(next), next, next.payload, auth, sessions);
  }

  lemma AcceptFew(t: Transport, p: Payload, sessions: set<string>)
    requires Roomy(t, sessions) && QueueIn(t.queue, sessions) && Keyed(t.exact)
    ensures var r := Accept(t, p); Roomy(r, sessions) && r.queue == t.queue && Keyed(r.exact)
    ensures var r := Accept(t.(exact := t.exact - {p.session}), p);
      Roomy(r, sessions) && r.queue == t.queue && Keyed(r.exact)
  {
    hide Size;
  }

  lemma AfterFew(t: Transport, purpose: Purpose, p: Payload, outcome: Outcome, auth: seq<bool>, sessions: set<string>)
    requires Roomy(t, sessions) && QueueIn(t.queue, sessions) && Keyed(t.exact)
    requires Holds(t.exact, t.attempted, purpose, p, Returned(outcome))
    requires !purpose.IdleRetry? ==> In(purpose.next.payload, sessions)
    ensures Few(AfterDelivery(t, purpose, p, outcome, auth), sessions)
  {
    hide Pump, Skip, StartFresh, StartRetry, ContinueWith, Size, Keyed, In, Accept, Few;
    AcceptFew(t, p, sessions);
    match purpose {
      case Fresh(next) =>
        var a := if outcome == Delivered then Accept(t, p) else t;
        ResolveFew(a, next.id, outcome == Delivered, sessions);
        PumpFew(Resolve(a, next.id, outcome == Delivered), auth, sessions);
      case Ahead(next) =>
        ContinueFew(t, next, auth, sessions);
        ContinueFew(t, next, Later(auth), sessions);
        ContinueFew(Accept(t.(exact := t.exact - {p.session}), p), next, auth, sessions);
      case IdleRetry(rest) =>
        var a := if outcome == Delivered then Accept(t.(exact := t.exact - {p.session}), p) else t;
        PumpFew(a, auth, sessions);
        if rest != [] {
          RetainedIn(t, rest[0].session, sessions);
          StartFew(a, IdleRetry(rest[1..]), Queued(0, p), rest[0], auth, sessions);
        }
    }
  }

  lemma ResolveFew(t: Transport, id: nat, delivered: bool, sessions: set<string>)
    requires Roomy(t, sessions)
    ensures var r := Resolve(t, id, delivered);
      Roomy(r, sessions) && r.queue == t.queue && r.exact == t.exact
  {
    hide Size;
  }

  lemma EndsFew(t: Transport, purpose: Purpose, p: Payload, attempts: nat, retryable: bool, sessions: set<string>)
    requires Roomy(t, sessions) && QueueIn(t.queue, sessions) && In(p, sessions)
    requires !purpose.IdleRetry? ==> In(purpose.next.payload, sessions)
    ensures Few(Fail(t, purpose, p, attempts, retryable), sessions)
    ensures Few(BlockForAuth(t, purpose, p, attempts), sessions)
  {
    EndsRoomy(t, purpose, p, attempts, retryable, sessions);
    hide Fail, BlockForAuth, Size, In;
  }

  lemma PostFew(t: Transport, purpose: Purpose, d: Delivery, answer: Answer, auth: seq<bool>, sessions: set<string>)
    requires Few(t, sessions) && t.drain == Busy(purpose, d)
    ensures Few(AfterPost(t, purpose, d, answer, auth), sessions)
  {
    EndsFew(t, purpose, d.payload, d.attempts, answer != Permanent, sessions);
    hide Fail, BlockForAuth, Size, In;
  }

  lemma WaitFew(t: Transport, answer: Answer, auth: seq<bool>, sessions: set<string>)
    requires Few(t, sessions) && t.drain.Busy? && !t.drain.delivery.at.Returned?
    ensures Few(Resume(t, answer, auth), sessions)
  {
    var purpose, d := t.drain.purpose, t.drain.delivery;
    hide Resume, AfterPost, BlockForAuth, Attempt, Size, In;
    ResumeIsWait(t, answer, auth);
    PostFew(t, purpose, d, answer, auth, sessions);
    EndsFew(t, purpose, d.payload, d.attempts, true, sessions);
    AttemptFew(t, purpose, d.payload, d.attempts, auth, sessions);
  }

  lemma ResumeFew(t: Transport, answer: Answer, auth: seq<bool>, sessions: set<string>)
    requires Shape(t) && Few(t, sessions)
    ensures Few(Resume(t, answer, auth), sessions)
  {
    if t.drain.Busy? && t.drain.delivery.at.Returned? {
      var purpose, d := t.drain.purpose, t.drain.delivery;
      assert Keyed(t.exact) && Holds(t.exact, t.attempted, purpose, d.payload, d.at);
      hide Shape, AfterDelivery, Size, In, Keyed, Holds;
      AfterFew(t.(drain := Idle), purpose, d.payload, d.at.outcome, auth, sessions);
    } else if t.drain.Busy? {
      hide *;
      WaitFew(t, answer, auth, sessions);
    } else {
      ResumeStutters(t, answer, auth);
    }
  }

  lemma {:induction false} EvictFew(t: Transport, sessions: set<string>)
    requires Few(t, sessions)
    ensures Few(Evict(t), sessions)
    decreases |t.queue|
  {
    hide Skip, Size, In;
    if |t.queue| >= t.limits.maxQueued && t.queue != [] {
      SkipFew(t.(queue := t.queue[1..]), t.queue[0], sessions);
      EvictFew(AsOverflow(Skip(t.(queue := t.queue[1..]), t.queue[0])), sessions);
    }
  }

  lemma {:induction false} AbandonFew(t: Transport, sessions: set<string>)
    requires Few(t, sessions)
    ensures Few(Abandon(t), sessions)
    decreases |t.queue|
  {
    hide Skip, Size, In;
    if t.queue != [] {
      SkipFew(t.(queue := t.queue[1..]), t.queue[0], sessions);
      AbandonFew(Skip(t.(queue := t.queue[1..]), t.queue[0]), sessions);
    }
  }

  lemma EnqueueFew(t: Transport, p: Payload, sessions: set<string>)
    requires Few(t, sessions) && In(p, sessions)
    ensures Few(Enqueue(t, p), sessions)
  {
    hide Evict, Size, In;
    EvictFew(NoteSent(t, p), sessions);
  }

  lemma RejectFew(t: Transport, p: Payload, track: bool, sessions: set<string>)
    requires Few(t, sessions) && In(p, sessions)
    ensures Few(Reject(t, p, track), sessions)
  {
    hide GiveUp, Size, In;
    GiveUpRoomy(NoteSent(t, p), p, track, sessions);
  }

  lemma StartDrainFew(t: Transport, auth: seq<bool>, sessions: set<string>)
    requires Few(t, sessions) && Keyed(t.exact)
    ensures Few(StartDrain(t, auth), sessions)
  {
    hide Pump, Size, In, Keyed;
    PumpFew(t.(attempted := {}, log := t.log.(retried := [])), auth, sessions);
  }

  lemma SendFew(t: Transport, p: Payload, serializable: bool, auth: seq<bool>, sessions: set<string>)
    requires Shape(t) && Few(t, sessions) && In(p, sessions)
    ensures Few(Send(t, p, serializable, auth), sessions)
  {
    assert Keyed(t.exact);
    hide Shape, Reject, Enqueue, StartDrain, Size, In, Keyed, Refused, Few;
    RejectFew(t, p, true, sessions);
    RejectFew(t, p, false, sessions);
    EnqueueFew(t, p, sessions);
    EnqueueExact(t, p);
    StartDrainFew(Enqueue(t, p), Later(auth), sessions);
  }

  lemma EnqueueExact(t: Transport, p: Payload)
    ensures Enqueue(t, p).exact == t.exact
  {
  }

  lemma FlushFew(t: Transport, order: seq<string>, auth: seq<bool>, sessions: set<string>)
    requires Shape(t) && Few(t, sessions)
    ensures Few(Flush(t, order, auth), sessions)
  {
    assert Keyed(t.exact);
    hide Shape, Keyed, StartRetry, Enumerates, Size, In;
    if t.drain == Idle && t.exact != map[] && t.queue == [] && Enumerates(order, t.exact.Keys) {
      EnumerationIndexes(order, t.exact.Keys);
      assert t.exact.Keys != {};
      var requests := Requests(t.exact, order);
      RetainedIn(t, order[0], sessions);
      StartFew(t.(attempted := {}, log := t.log.(retried := [])), IdleRetry(requests[1..]), Queued(0, requests[0]),
               requests[0], auth, sessions);
    }
  }

  lemma StepFew(t: Transport, input: Input, sessions: set<string>)
    requires Shape(t) && Few(t, sessions) && (input.Sending? ==> In(input.payload, sessions))
    ensures Few(Step(t, input), sessions)
  {
    hide Shape, Few, Send, Resume, Flush, Abandon, In;
    match input
    case Sending(p, serializable, auth) => SendFew(t, p, serializable, auth, sessions);
    case Resuming(answer, auth) => ResumeFew(t, answer, auth, sessions);
    case Flushing(order, auth) => FlushFew(t, order, auth, sessions);
    case Stopping => StoppedFew(t, sessions); if !t.stopped { AbandonFew(t.(stopped := true), sessions); }
  }

  lemma StoppedFew(t: Transport, sessions: set<string>)
    requires Few(t, sessions)
    ensures Few(t.(stopped := true), sessions)
  {
    hide Size, In;
  }

  /**
   In every run whose numbered drains belong to no more sessions than the ledger has places, it never
   fills up: no session is ever shut out, and every loss of a numbered drain it is told of is remembered.
   */
  lemma {:induction false} NeverFull(limits: Limits, inputs: seq<Input>, sessions: set<string>)
    requires limits.Positive() && |sessions| <= limits.maxSessions
    requires forall i <- inputs :: i.Sending? && Sequence(i.payload) > 0 ==> i.payload.session in sessions
    ensures !Run(limits, inputs).saturated
    ensures Few(Run(limits, inputs), sessions)
  {
    hide Shape, Step;
    if inputs != [] {
      var before := inputs[..|inputs| - 1];
      NeverFull(limits, before, sessions);
      RunKeeps(limits, before);
      assert inputs[|inputs| - 1] in inputs;
      StepFew(Run(limits, before), inputs[|inputs| - 1], sessions);
    }
  }
}
