/**
 The drain loop never looks at its own history. So a transport whose records of what was sent and
 what was lost differ takes the same steps, and the ledger of a run holds for the run as it would
 look without one `send`, or with one loss more.
 */
module Restamping {
  import opened Wrappers
  import opened Capture
  import opened TransportModel
  import opened TransportShape
  import opened Sets

  /** Another record of what the caller sent, and losses beyond those recorded. */
  datatype Records = Records(sent: map<string, int>, lost: set<(string, int)>)

  function Restamp(t: Transport, other: Records): Transport {
    t.(log := t.log.(sent := other.sent, untracked := t.log.untracked + other.lost))
  }

  lemma SkipRestamps(t: Transport, next: Queued, p: Payload, other: Records)
    ensures GiveUp(Restamp(t, other), p, true) == Restamp(GiveUp(t, p, true), other)
    ensures Skip(Restamp(t, other), next) == Restamp(Skip(t, next), other)
    ensures Refused(Restamp(t, other), p) == Refused(t, p)
  {
    hide Size, Widened;
  }

  lemma RememberRestamps(t: Transport, p: Payload, other: Records)
    ensures Keeps(Restamp(t, other), p) == Keeps(t, p)
    ensures RememberExactRetry(Restamp(t, other), p) == Restamp(RememberExactRetry(t, p), other)
  {
    hide Size;
  }

  lemma RetainRestamps(t: Transport, purpose: Purpose, p: Payload, attempts: nat, other: Records)
    ensures RetainExactRetry(Restamp(t, other), purpose, p, attempts)
      == Restamp(RetainExactRetry(t, purpose, p, attempts), other)
  {
    hide GiveUp, Keeps, RememberExactRetry;
    RememberRestamps(t, p, other);
    SkipRestamps(RememberExactRetry(t, p), Queued(0, p), p, other);
  }

  lemma FailRestamps(t: Transport, purpose: Purpose, p: Payload, attempts: nat, retryable: bool, other: Records)
    ensures Fail(Restamp(t, other), purpose, p, attempts, retryable)
      == Restamp(Fail(t, purpose, p, attempts, retryable), other)
    ensures BlockForAuth(Restamp(t, other), purpose, p, attempts)
        == Restamp(BlockForAuth(t, purpose, p, attempts), other)
  {
    hide GiveUp, RetainExactRetry;
    RetainRestamps(t, purpose, p, attempts, other);
    SkipRestamps(t, Queued(0, p), p, other);
  }

  lemma AttemptRestamps(t: Transport, purpose: Purpose, p: Payload, attempts: nat, auth: seq<bool>,
                        other: Records)
    ensures Attempt(Restamp(t, other), purpose, p, attempts, auth)
        == Restamp(Attempt(t, purpose, p, attempts, auth), other)
  {
    hide BlockForAuth;
    FailRestamps(t, purpose, p, attempts, true, other);
  }

  lemma StartRestamps(t: Transport, purpose: Purpose, next: Queued, p: Payload, auth: seq<bool>, other: Records)
    ensures StartRetry(Restamp(t, other), purpose, p, auth) == Restamp(StartRetry(t, purpose, p, auth), other)
    ensures StartFresh(Restamp(t, other), next, auth) == Restamp(StartFresh(t, next, auth), other)
  {
    hide Attempt;
    AttemptRestamps(t, Fresh(next), PrepareResync(t, next.payload), 0, auth, other);
    var a := t.(attempted := t.attempted + {p.session}, log := t.log.(retried := t.log.retried + [p.session]));
    AttemptRestamps(a, purpose, p, 0, auth, other);
  }

  lemma {:induction false} PumpRestamps(t: Transport, auth: seq<bool>, other: Records)
    ensures Pump(Restamp(t, other), auth) == Restamp(Pump(t, auth), other)
    decreases |t.queue|
  {
    hide Skip, StartRetry, StartFresh, Refused;
    if t.queue != [] {
      var next, t1 := t.queue[0], t.(queue := t.queue[1..], drain := Idle);
      SkipRestamps(t1, next, next.payload, other);
      SkipQueueSame(t1, next);
      PumpRestamps(Skip(t1, next), Later(auth), other);
      if next.payload.session in t1.exact {
        StartRestamps(t1, Ahead(next), next, t1.exact[next.payload.session], Later(auth), other);
      } else {
        StartRestamps(t1, Ahead(next), next, next.payload, Later(auth), other);
      }
      assert Restamp(t, other).(queue := t.queue[1..], drain := Idle) == Restamp(t1, other);
    }
  }

  lemma SkipQueueSame(t: Transport, next: Queued)
    ensures Skip(t, next).queue == t.queue
  {
  }

  lemma ContinueRestamps(t: Transport, next: Queued, auth: seq<bool>, other: Records)
    ensures ContinueWith(Restamp(t, other), next, auth) == Restamp(ContinueWith(t, next, auth), other)
  {
    hide Skip, StartFresh, Refused, Pump;
    SkipRestamps(t, next, next.payload, other);
    PumpRestamps(Skip(t, next), auth, other);
    StartRestamps(t, Fresh(next), next, next.payload, auth, other);
  }

  lemma AfterIdleRestamps(t: Transport, rest: seq<Payload>, p: Payload, outcome: Outcome, auth: seq<bool>,
                          other: Records)
    ensures AfterIdleRetry(Restamp(t, other), rest, p, outcome, auth)
      == Restamp(AfterIdleRetry(t, rest, p, outcome, auth), other)
  {
    hide StartRetry, Pump, Cleared;
    var a := if outcome == Delivered then Accept(t.(exact := t.exact - {p.session}), p) else t;
    PumpRestamps(a, auth, other);
    if rest != [] { StartRestamps(a, IdleRetry(rest[1..]), Queued(0, p), rest[0], auth, other); }
  }

  lemma AfterDeliveryRestamps(t: Transport, purpose: Purpose, p: Payload, outcome: Outcome, auth: seq<bool>,
                              other: Records)
    ensures AfterDelivery(Restamp(t, other), purpose, p, outcome, auth)
      == Restamp(AfterDelivery(t, purpose, p, outcome, auth), other)
  {
    hide Skip, StartFresh, Refused, Pump, ContinueWith, Cleared, AfterIdleRetry;
    match purpose {
      case Fresh(next) =>
        var a := if outcome == Delivered then Accept(t, p) else t;
        PumpRestamps(Resolve(a, next.id, outcome == Delivered), auth, other);
      case Ahead(next) =>
        SkipRestamps(t, next, next.payload, other);
        PumpRestamps(Skip(t, next), Later(auth), other);
        ContinueRestamps(t, next, auth, other);
        ContinueRestamps(Accept(t.(exact := t.exact - {next.payload.session}), p), next, auth, other);
      case IdleRetry(rest) => AfterIdleRestamps(t, rest, p, outcome, auth, other);
    }
  }

  lemma PostRestamps(t: Transport, purpose: Purpose, d: Delivery, answer: Answer, auth: seq<bool>,
                     other: Records)
    ensures AfterPost(Restamp(t, other), purpose, d, answer, auth)
        == Restamp(AfterPost(t, purpose, d, answer, auth), other)
  {
    hide Fail, BlockForAuth;
    FailRestamps(t, purpose, d.payload, d.attempts, answer != Permanent, other);
  }

  lemma WaitRestamps(t: Transport, answer: Answer, auth: seq<bool>, other: Records)
    requires t.drain.Busy? && !t.drain.delivery.at.Returned?
    ensures Resume(Restamp(t, other), answer, auth) == Restamp(Resume(t, answer, auth), other)
  {
    hide BlockForAuth, Attempt, AfterPost, Resume;
    var purpose, d := t.drain.purpose, t.drain.delivery;
    ResumeIsWait(t, answer, auth);
    ResumeIsWait(Restamp(t, other), answer, auth);
    match d.at {
      case AwaitPost => PostRestamps(t, purpose, d, answer, auth, other);
      case AwaitSleep => AttemptRestamps(t, purpose, d.payload, d.attempts, auth, other);
      case AwaitBody => FailRestamps(t, purpose, d.payload, d.attempts, true, other);
      case _ =>
    }
  }

  lemma ReturnRestamps(t: Transport, answer: Answer, auth: seq<bool>, other: Records)
    requires t.drain.Busy? && t.drain.delivery.at.Returned?
    ensures Resume(Restamp(t, other), answer, auth) == Restamp(Resume(t, answer, auth), other)
  {
    hide AfterDelivery;
    var purpose, d := t.drain.purpose, t.drain.delivery;
    AfterDeliveryRestamps(t.(drain := Idle), purpose, d.payload, d.at.outcome, auth, other);
    assert Restamp(t, other).(drain := Idle) == Restamp(t.(drain := Idle), other);
  }

  /** A continuation of the drain loop takes the same step under other records. */
  lemma ResumeRestamps(t: Transport, answer: Answer, auth: seq<bool>, other: Records)
    ensures Resume(Restamp(t, other), answer, auth) == Restamp(Resume(t, answer, auth), other)
  {
    hide Restamp;
    if !t.drain.Busy? {
      IdleRestamps(t, answer, auth, other);
    } else if t.drain.delivery.at.Returned? {
      hide Resume;
      ReturnRestamps(t, answer, auth, other);
    } else {
      hide Resume;
      WaitRestamps(t, answer, auth, other);
    }
  }

  lemma IdleRestamps(t: Transport, answer: Answer, auth: seq<bool>, other: Records)
    requires !t.drain.Busy?
    ensures Resume(Restamp(t, other), answer, auth) == Restamp(Resume(t, answer, auth), other)
  {
  }

  lemma RestampShape(t: Transport, other: Records)
    ensures Shape(Restamp(t, other)) == Shape(t) && Wakeful(Restamp(t, other)) == Wakeful(t)
  {
    hide Within, Keyed, RetriesOnce, Holds, Size;
    assert RecoverySessions(Restamp(t, other)) == RecoverySessions(t);
  }

  lemma FlushRestamps(t: Transport, order: seq<string>, auth: seq<bool>, other: Records)
    ensures Flush(Restamp(t, other), order, auth) == Restamp(Flush(t, order, auth), other)
  {
    hide StartRetry, Enumerates, Requests;
    if t.drain == Idle && t.exact != map[] && t.queue == [] && Enumerates(order, t.exact.Keys) {
      EnumerationIndexes(order, t.exact.Keys);
      var requests := Requests(t.exact, order);
      StartRestamps(t.(attempted := {}, log := t.log.(retried := [])), IdleRetry(requests[1..]), Queued(0, requests[0]),
                    requests[0], auth, other);
    }
  }

  /** What the caller has sent, by either record, once it sends `p`. */
  function Noted(t: Transport, p: Payload, other: Records): Records {
    if Sequence(p) == 0 then other else other.(sent := NoteSent(t, p).log.sent)
  }

  lemma NoteSentRestamps(t: Transport, p: Payload, other: Records)
    requires Sequence(p) == 0 || other.sent == t.log.sent
    ensures NoteSent(Restamp(t, other), p) == Restamp(NoteSent(t, p), Noted(t, p, other))
  {
  }

  lemma OverflowRestamps(t: Transport, other: Records)
    ensures AsOverflow(Restamp(t, other)) == Restamp(AsOverflow(t), other)
  {
  }

  lemma {:induction false} EvictRestamps(t: Transport, other: Records)
    ensures Evict(Restamp(t, other)) == Restamp(Evict(t), other)
    decreases |t.queue|
  {
    hide Skip, AsOverflow;
    if |t.queue| >= t.limits.maxQueued && t.queue != [] {
      var a := t.(queue := t.queue[1..]);
      SkipRestamps(a, t.queue[0], t.queue[0].payload, other);
      SkipQueueSame(a, t.queue[0]);
      OverflowRestamps(Skip(a, t.queue[0]), other);
      assert Restamp(t, other).(queue := t.queue[1..]) == Restamp(a, other);
      assert AsOverflow(Skip(a, t.queue[0])).queue == a.queue by { OverflowQueue(Skip(a, t.queue[0])); }
      EvictRestamps(AsOverflow(Skip(a, t.queue[0])), other);
    }
  }

  lemma OverflowQueue(t: Transport)
    ensures AsOverflow(t).queue == t.queue
  {
  }

  lemma {:induction false} AbandonRestamps(t: Transport, other: Records)
    ensures Abandon(Restamp(t, other)) == Restamp(Abandon(t), other)
    decreases |t.queue|
  {
    hide Skip;
    if t.queue != [] {
      var a := t.(queue := t.queue[1..]);
      SkipRestamps(a, t.queue[0], t.queue[0].payload, other);
      SkipQueueSame(a, t.queue[0]);
      assert Restamp(t, other).(queue := t.queue[1..]) == Restamp(a, other);
      AbandonRestamps(Skip(a, t.queue[0]), other);
    }
  }

  lemma GiveUpRestamps(t: Transport, p: Payload, track: bool, other: Records)
    ensures GiveUp(Restamp(t, other), p, track) == Restamp(GiveUp(t, p, track), other)
  {
    hide Size, Widened;
  }

  lemma EnqueueRestamps(t: Transport, p: Payload, other: Records)
    requires Sequence(p) == 0 || other.sent == t.log.sent
    ensures Enqueue(Restamp(t, other), p) == Restamp(Enqueue(t, p), Noted(t, p, other))
  {
    hide Evict, NoteSent;
    NoteSentRestamps(t, p, other);
    EvictRestamps(NoteSent(t, p), Noted(t, p, other));
  }

  lemma RejectRestamps(t: Transport, p: Payload, track: bool, other: Records)
    requires Sequence(p) == 0 || other.sent == t.log.sent
    ensures Reject(Restamp(t, other), p, track) == Restamp(Reject(t, p, track), Noted(t, p, other))
  {
    hide GiveUp, NoteSent;
    NoteSentRestamps(t, p, other);
    GiveUpRestamps(NoteSent(t, p), p, track, Noted(t, p, other));
  }

  lemma StartDrainRestamps(t: Transport, auth: seq<bool>, other: Records)
    ensures StartDrain(Restamp(t, other), auth) == Restamp(StartDrain(t, auth), other)
  {
    hide Pump;
    PumpRestamps(t.(attempted := {}, log := t.log.(retried := [])), auth, other);
  }

  lemma SendRestamps(t: Transport, p: Payload, serializable: bool, auth: seq<bool>, other: Records)
    requires Sequence(p) == 0 || other.sent == t.log.sent
    ensures Send(Restamp(t, other), p, serializable, auth)
         == Restamp(Send(t, p, serializable, auth), Noted(t, p, other))
  {
    hide Reject, Enqueue, StartDrain, Refused, Noted;
    SkipRestamps(t, Queued(0, p), p, other);
    RejectRestamps(t, p, true, other);
    RejectRestamps(t, p, false, other);
    EnqueueRestamps(t, p, other);
    StartDrainRestamps(Enqueue(t, p), Later(auth), Noted(t, p, other));
  }

  lemma StopRestamps(t: Transport, other: Records)
    ensures Stop(Restamp(t, other)) == Restamp(Stop(t), other)
  {
    hide Abandon;
    AbandonRestamps(t.(stopped := true), other);
    assert Restamp(t, other).(stopped := true) == Restamp(t.(stopped := true), other);
  }
}
