/**
 What the calls of the transport come to, in every run: what `send` refuses, what it makes room for,
 whom a flush retries and what a stop gives up. Stated on the fields of the transport alone.
 */
module Admission {
  import opened Wrappers
  import opened Capture
  import opened TransportModel
  import opened TransportShape
  import opened Progress
  import opened Outcomes
  import opened Sets

  // ---- send --------------------------------------------------------------------------------

  /** A saturated transport does not deliver numbered drains of sessions it does not remember. */
  predicate ShutOut(t: Transport, p: Payload) {
    t.saturated && Sequence(p) > 0 && p.session !in t.resync && p.session !in t.exact
  }

  /** The payload is lost and its promise resolved; only a changed context keeps it out of the ledger. */
  predicate Turned(t: Transport, r: Transport, p: Payload, remembered: bool) {
    && r == t.(resync := r.resync, saturated := r.saturated, log := r.log)
    && r.log.posted == t.log.posted && r.log.accepted == t.log.accepted && r.log.issued == t.log.issued + 1
    && r.log.resolved == t.log.resolved + [Resolution(t.log.issued, false)]
    && r.log.losses == t.log.losses + [Loss(p, remembered && Sequence(p) > 0 && Placed(t, p.session), false)]
    && if remembered then Remembers(t, r, p)
       else
         && r.resync == t.resync && r.saturated == t.saturated
         && r.log.untracked == t.log.untracked + if Sequence(p) > 0 then {(p.session, Sequence(p))} else {}
  }

  /** The payload joins the queue; a full one loses its oldest entry for it, reported as an overflow. */
  predicate Joins(t: Transport, r: Transport, p: Payload) {
    var entry := Queued(t.log.issued, p);
    && r.drain == t.drain && r.exact == t.exact && r.stopped == t.stopped
    && r.log.posted == t.log.posted && r.log.accepted == t.log.accepted && r.log.issued == t.log.issued + 1
    && if |t.queue| < t.limits.maxQueued then
         && r.queue == t.queue + [entry]
         && r.log.losses == t.log.losses && r.log.resolved == t.log.resolved
         && r.resync == t.resync && r.saturated == t.saturated
       else
         t.queue != [] &&
         var oldest := t.queue[0];
         && r.queue == t.queue[1..] + [entry]
         && r.log.losses == t.log.losses
              + [Loss(oldest.payload, Sequence(oldest.payload) > 0 && Placed(t, oldest.payload.session), true)]
         && r.log.resolved == t.log.resolved + [Resolution(oldest.id, false)]
         && Remembers(t, r, oldest.payload)
  }

  lemma NoteSentIs(t: Transport, p: Payload)
    ensures var r := NoteSent(t, p);
      && r == t.(log := r.log) && r.log.losses == t.log.losses && r.log.resolved == t.log.resolved
      && r.log.posted == t.log.posted && r.log.accepted == t.log.accepted && r.log.untracked == t.log.untracked
      && r.log.issued == t.log.issued + 1
  {
  }

  lemma RejectTurns(t: Transport, p: Payload, track: bool)
    ensures Turned(t, Reject(t, p, track), p, track)
  {
    hide Reject, Turned;
    if track { TrackedTurns(t, p); } else { UntrackedTurns(t, p); }
  }

  lemma TrackedTurns(t: Transport, p: Payload)
    ensures Turned(t, Reject(t, p, true), p, true)
  {
    hide NoteSent, Placed, Tracks, GiveUp, Remembers;
    NoteSentIs(t, p);
    var a := NoteSent(t, p);
    PlaceNoted(t, a, p.session);
    GiveUpLoses(a, p);
    RemembersNoted(t, a, GiveUp(a, p, true), Reject(t, p, true), p);
  }

  lemma UntrackedTurns(t: Transport, p: Payload)
    ensures Turned(t, Reject(t, p, false), p, false)
  {
    hide NoteSent, Placed, Tracks, RememberDroppedDrain;
    NoteSentIs(t, p);
  }

  lemma PlaceNoted(t: Transport, a: Transport, session: string)
    requires a == t.(log := a.log)
    ensures Placed(a, session) == Placed(t, session)
  {
  }

  lemma RemembersNoted(t: Transport, a: Transport, b: Transport, r: Transport, p: Payload)
    requires a == t.(log := a.log) && a.log.untracked == t.log.untracked && Remembers(a, b, p)
    requires r.resync == b.resync && r.saturated == b.saturated && r.log.untracked == b.log.untracked
    ensures Remembers(t, r, p)
  {
    PlaceNoted(t, a, p.session);
    hide Placed;
  }

  lemma EvictsOldest(t: Transport)
    requires |t.queue| <= t.limits.maxQueued && t.limits.maxQueued >= 1
    ensures |t.queue| < t.limits.maxQueued ==> Evict(t) == t
    ensures |t.queue| == t.limits.maxQueued ==>
      Evict(t) == AsOverflow(Skip(t.(queue := t.queue[1..]), t.queue[0]))
  {
    hide GiveUp;
    if |t.queue| == t.limits.maxQueued {
      var a := AsOverflow(Skip(t.(queue := t.queue[1..]), t.queue[0]));
      assert a.queue == t.queue[1..];
    }
  }

  lemma OverflowIs(t: Transport, loss: Loss, before: seq<Loss>)
    requires t.log.losses == before + [loss]
    ensures AsOverflow(t) == t.(log := t.log.(losses := before + [loss.(overflow := true)]))
  {
  }

  lemma EnqueueJoins(t: Transport, p: Payload)
    requires |t.queue| <= t.limits.maxQueued && t.limits.maxQueued >= 1
    ensures Joins(t, Enqueue(t, p), p)
  {
    var a := NoteSent(t, p);
    NoteSentIs(t, p);
    EvictsOldest(a);
    if |t.queue| == t.limits.maxQueued { OldestLeaves(t, a); }
    hide NoteSent, Evict, Skip, Placed, Remembers, AsOverflow;
  }

  /** The oldest entry of the queue is lost, and reported as an overflow. */
  lemma OldestLeaves(t: Transport, a: Transport)
    requires t.queue != [] && a == t.(log := a.log)
    requires a.log.losses == t.log.losses && a.log.resolved == t.log.resolved && a.log.untracked == t.log.untracked
    ensures var r, oldest := AsOverflow(Skip(a.(queue := a.queue[1..]), a.queue[0])), t.queue[0];
      && r.queue == t.queue[1..] && r.drain == t.drain && r.exact == t.exact && r.stopped == t.stopped
      && r.log.losses == t.log.losses
           + [Loss(oldest.payload, Sequence(oldest.payload) > 0 && Placed(t, oldest.payload.session), true)]
      && r.log.resolved == t.log.resolved + [Resolution(oldest.id, false)]
      && r.log.posted == a.log.posted && r.log.accepted == a.log.accepted && r.log.issued == a.log.issued
      && Remembers(t, r, oldest.payload)
  {
    hide Skip, Placed, Remembers, AsOverflow;
    var oldest, b := t.queue[0], a.(queue := a.queue[1..]);
    SkipGoes(b, oldest);
    SkipRemembers(b, oldest);
    PlaceQueue(t, b, oldest.payload.session);
    OverflowIs(Skip(b, oldest), Loss(oldest.payload, Sequence(oldest.payload) > 0
        && Placed(b, oldest.payload.session), false), b.log.losses);
    RemembersQueue(t, b, Skip(b, oldest), AsOverflow(Skip(b, oldest)), oldest.payload);
  }

  lemma PlaceQueue(t: Transport, b: Transport, session: string)
    requires b == t.(log := b.log, queue := b.queue)
    ensures Placed(b, session) == Placed(t, session)
  {
  }

  lemma SkipRemembers(t: Transport, next: Queued)
    ensures Remembers(t, Skip(t, next), next.payload)
    ensures var r := Skip(t, next);
      && r == t.(resync := r.resync, saturated := r.saturated, log := r.log)
      && r.log.posted == t.log.posted && r.log.issued == t.log.issued
  {
    GiveUpLoses(t, next.payload);
    hide Placed;
  }

  lemma RemembersQueue(t: Transport, b: Transport, c: Transport, r: Transport, p: Payload)
    requires b == t.(log := b.log, queue := b.queue) && b.log.untracked == t.log.untracked && Remembers(b, c, p)
    requires r.resync == c.resync && r.saturated == c.saturated && r.log.untracked == c.log.untracked
    ensures Remembers(t, r, p)
  {
    PlaceQueue(t, b, p.session);
    hide Placed;
  }

  /**
   What `send` does, in every run. It refuses a payload exactly when the transport is stopped, the
   context is another one, the session is shut out or the payload cannot be serialized. Otherwise the
   payload waits behind a drain run under way, or is POSTed at once, behind its session's retained request.
   */
  lemma SendAnswered(limits: Limits, inputs: seq<Input>, p: Payload, serializable: bool, auth: seq<bool>)
    requires limits.Positive()
    ensures var t := Run(limits, inputs);
      var r := Step(t, Sending(p, serializable, auth));
      if t.stopped || !Same(auth) || ShutOut(t, p) || !serializable then Turned(t, r, p, t.stopped || Same(auth))
      else if t.drain != Idle then Joins(t, r, p)
      else auth == [] ==>
        && (p.session !in t.exact ==> Posts(t, r, Fresh(Queued(t.log.issued, p)), p) && r.queue == [])
        && (p.session in t.exact ==>
              Posts(t, r, Ahead(Queued(t.log.issued, p)), t.exact[p.session]) && r.queue == []
              && r.drain.delivery.payload == t.exact[p.session])
  {
    RunKeeps(limits, inputs);
    var t := Run(limits, inputs);
    RejectTurns(t, p, true);
    RejectTurns(t, p, false);
    assert |t.queue| <= t.limits.maxQueued && t.limits.maxQueued >= 1;
    EnqueueJoins(t, p);
    if t.drain == Idle && auth == [] && !ShutOut(t, p) { IdlePosts(t, p); }
    hide Run, Shape, Wakeful, Reject, Enqueue, StartDrain, Turned, Joins, Posts;
  }

  lemma IdlePosts(t: Transport, p: Payload)
    requires t.drain == Idle && t.queue == [] && t.limits.maxQueued >= 1 && !ShutOut(t, p)
    ensures var r := StartDrain(Enqueue(t, p), []);
      && (p.session !in t.exact ==> Posts(t, r, Fresh(Queued(t.log.issued, p)), p) && r.queue == [])
      && (p.session in t.exact ==>
            Posts(t, r, Ahead(Queued(t.log.issued, p)), t.exact[p.session]) && r.queue == []
            && r.drain.delivery.payload == t.exact[p.session])
  {
    EnqueueJoins(t, p);
    var a := Enqueue(t, p).(attempted := {}, log := Enqueue(t, p).log.(retried := []));
    hide Enqueue, Pump;
    assert a.queue == [Queued(t.log.issued, p)] && a.queue[1..] == [];
    PumpServes(a);
  }

  // ---- flush and stop ----------------------------------------------------------------------

  /** The order names each retained session once. */
  ghost predicate Lists(order: seq<string>, exact: map<string, Payload>) {
    && (forall s :: s in order <==> s in exact)
    && forall i, j :: 0 <= i < j < |order| ==> order[i] != order[j]
  }

  /** Every retained request is being retried, the first one first. */
  predicate RetriesAll(t: Transport, r: Transport, order: seq<string>)
    requires order != [] && forall i :: 0 <= i < |order| ==> order[i] in t.exact
  {
    && r.queue == [] && r.drain.Busy? && r.drain.purpose.IdleRetry? && |r.drain.purpose.rest| == |order| - 1
    && Posts(t, r, r.drain.purpose, t.exact[order[0]]) && r.drain.delivery.payload == t.exact[order[0]]
    && forall i :: 0 <= i < |order| - 1 ==> r.drain.purpose.rest[i] == t.exact[order[i + 1]]
  }

  lemma ListsKeys(order: seq<string>, exact: map<string, Payload>)
    requires Lists(order, exact)
    ensures Enumerates(order, exact.Keys) && (order == [] <==> exact == map[])
    ensures forall i :: 0 <= i < |order| ==> order[i] in exact
  {
    assert (set s | s in order) == exact.Keys;
    forall i | 0 <= i < |order| ensures order[i] in exact { assert order[i] in order; }
    if order != [] { assert order[0] in exact; } else { assert forall s :: s !in exact; }
  }

  /** A flush of a transport at rest retries every retained request, in the order of their map. */
  lemma FlushAnswered(limits: Limits, inputs: seq<Input>, order: seq<string>)
    requires limits.Positive() && Lists(order, Run(limits, inputs).exact)
    requires forall i :: 0 <= i < |order| ==> order[i] in Run(limits, inputs).exact
    ensures var t := Run(limits, inputs);
      var r := Step(t, Flushing(order, []));
      if t.drain == Idle && order != [] then t.queue == [] && RetriesAll(t, r, order) else r == t
  {
    RunKeeps(limits, inputs);
    var t := Run(limits, inputs);
    assert t.drain == Idle ==> t.queue == [];
    ListsKeys(order, t.exact);
    hide Run, Shape, Wakeful, StartRetry, Lists, RetriesAll, Enumerates;
    if t.drain == Idle && order != [] { FlushRetries(t, order); }
  }

  lemma FlushRetries(t: Transport, order: seq<string>)
    requires t.drain == Idle && t.queue == [] && order != [] && Enumerates(order, t.exact.Keys)
    requires forall i :: 0 <= i < |order| ==> order[i] in t.exact
    ensures RetriesAll(t, Flush(t, order, []), order)
  {
    hide StartRetry, Enumerates;
    EnumerationIndexes(order, t.exact.Keys);
    var requests := Requests(t.exact, order);
    RetryPosts(t.(attempted := {}, log := t.log.(retried := [])), IdleRetry(requests[1..]), requests[0]);
  }

  /** The queue is given up in order: each promise resolved undelivered, each payload reported lost. */
  predicate GivesUpAll(t: Transport, r: Transport) {
    && r.queue == [] && r.drain == t.drain && r.exact == t.exact
    && |r.log.resolved| == |t.log.resolved| + |t.queue| && t.log.resolved <= r.log.resolved
    && |r.log.losses| == |t.log.losses| + |t.queue| && t.log.losses <= r.log.losses
    && forall i :: 0 <= i < |t.queue| ==>
         && r.log.resolved[|t.log.resolved| + i] == Resolution(t.queue[i].id, false)
         && r.log.losses[|t.log.losses| + i].payload == t.queue[i].payload
         && !r.log.losses[|t.log.losses| + i].overflow
  }

  lemma {:induction false} AbandonGivesUp(t: Transport)
    ensures GivesUpAll(t, Abandon(t))
    decreases |t.queue|
  {
    if t.queue != [] {
      var a := t.(queue := t.queue[1..]);
      SkipGoes(a, t.queue[0]);
      hide Skip, GivesUpAll;
      AbandonGivesUp(Skip(a, t.queue[0]));
      GivesUpMore(t, Skip(a, t.queue[0]), Abandon(t));
    }
  }

  lemma GivesUpMore(t: Transport, b: Transport, r: Transport)
    requires t.queue != [] && b.queue == t.queue[1..] && b.drain == t.drain && b.exact == t.exact
    requires b.log.resolved == t.log.resolved + [Resolution(t.queue[0].id, false)]
    requires |b.log.losses| == |t.log.losses| + 1 && t.log.losses <= b.log.losses
    requires b.log.losses[|t.log.losses|].payload == t.queue[0].payload && !b.log.losses[|t.log.losses|].overflow
    requires GivesUpAll(b, r)
    ensures GivesUpAll(t, r)
  {
    forall i | 0 <= i < |t.queue|
      ensures r.log.resolved[|t.log.resolved| + i] == Resolution(t.queue[i].id, false)
      ensures r.log.losses[|t.log.losses| + i].payload == t.queue[i].payload
      ensures !r.log.losses[|t.log.losses| + i].overflow
    {
      if i > 0 {
        assert b.queue[i - 1] == t.queue[i];
        assert r.log.resolved[|b.log.resolved| + (i - 1)] == Resolution(b.queue[i - 1].id, false);
        assert r.log.losses[|b.log.losses| + (i - 1)].payload == b.queue[i - 1].payload;
      } else {
        assert r.log.resolved[|t.log.resolved|] == b.log.resolved[|t.log.resolved|];
        assert r.log.losses[|t.log.losses|] == b.log.losses[|t.log.losses|];
      }
    }
  }

  /** The first stop closes admission and gives up what waits; a delivery under way goes on. Another changes nothing. */
  lemma StopAnswered(t: Transport)
    ensures var r := Step(t, Stopping);
      && r.stopped
      && if t.stopped then r == t else GivesUpAll(t, r)
  {
    hide Abandon, GivesUpAll;
    if !t.stopped {
      var u := t.(stopped := true);
      AbandonGivesUp(u);
      StoppedStays(u);
      GivesUpSame(t, u, Abandon(u));
    }
  }

  lemma GivesUpSame(t: Transport, u: Transport, r: Transport)
    requires u == t.(stopped := u.stopped) && GivesUpAll(u, r)
    ensures GivesUpAll(t, r)
  {
    assert u.queue == t.queue && u.log == t.log;
  }

  lemma {:induction false} StoppedStays(t: Transport)
    ensures Abandon(t).stopped == t.stopped
    decreases |t.queue|
  {
    hide GiveUp;
    if t.queue != [] { StoppedStays(Skip(t.(queue := t.queue[1..]), t.queue[0])); }
  }
}
