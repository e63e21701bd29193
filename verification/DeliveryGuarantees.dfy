/**
 What the delivery protocol guarantees to the server and to the caller, stated on its histories
 for every run.
 */
module DeliveryGuarantees {
  import opened Wrappers
  import opened Capture
  import opened TransportModel
  import opened TransportShape
  import opened SessionLedger
  import opened TransportLedger
  import opened GapFree
  import opened Sets

  predicate Carries(p: Payload, session: string, q: int) {
    p.session == session && Sequence(p) == q
  }

  predicate Misses(p: Payload, session: string, q: int) {
    p.session == session && Sequence(p) > 0 && Covers(p.resync, q)
  }

  ghost predicate Acknowledged(accepted: seq<Payload>, session: string, q: int) {
    exists i | 0 <= i < |accepted| :: Carries(accepted[i], session, q)
  }

  ghost predicate DeclaredMissing(accepted: seq<Payload>, session: string, q: int) {
    exists i | 0 <= i < |accepted| :: Misses(accepted[i], session, q)
  }

  lemma LastOrBefore(accepted: seq<Payload>, session: string, q: int)
    requires accepted != []
    ensures var before, p := accepted[..|accepted| - 1], accepted[|accepted| - 1];
            && (Acknowledged(accepted, session, q) <==> Acknowledged(before, session, q) || Carries(p, session, q))
            && (DeclaredMissing(accepted, session, q) <==> DeclaredMissing(before, session, q) || Misses(p, session, q))
  {
    var before := accepted[..|accepted| - 1];
    assert forall i | 0 <= i < |before| :: accepted[i] == before[i];
  }

  /** Nothing beyond the newest acknowledged sequence is acknowledged or declared. */
  lemma {:induction false} WithinTop(accepted: seq<Payload>, session: string, untracked: set<(string, int)>, q: int)
    requires Tiled(accepted, session, untracked) && 1 <= q
    ensures Acknowledged(accepted, session, q) ==> q <= Top(accepted, session)
    ensures DeclaredMissing(accepted, session, q) ==> q < Top(accepted, session)
  {
    if accepted != [] {
      WithinTop(accepted[..|accepted| - 1], session, untracked, q);
      LastOrBefore(accepted, session, q);
    }
  }

  lemma {:induction false} TilesSettle(accepted: seq<Payload>, session: string, untracked: set<(string, int)>, q: int)
    requires Tiled(accepted, session, untracked) && 1 <= q <= Top(accepted, session)
    ensures Acknowledged(accepted, session, q) || DeclaredMissing(accepted, session, q) || (session, q) in untracked
    ensures !(Acknowledged(accepted, session, q) && DeclaredMissing(accepted, session, q))
  {
    if accepted != [] {
      var before, p := accepted[..|accepted| - 1], accepted[|accepted| - 1];
      LastOrBefore(accepted, session, q);
      WithinTop(before, session, untracked, q);
      if q <= Top(before, session) {
        TilesSettle(before, session, untracked, q);
      }
    }
  }

  lemma {:induction false} TilesDeclareOnce(accepted: seq<Payload>, session: string, untracked: set<(string, int)>,
                                            q: int, i: nat, j: nat)
    requires Tiled(accepted, session, untracked) && 1 <= q && i < j < |accepted|
    ensures !(Misses(accepted[i], session, q) && Misses(accepted[j], session, q))
  {
    var before := accepted[..|accepted| - 1];
    if j == |accepted| - 1 {
      assert before[i] == accepted[i];
      WithinTop(before, session, untracked, q);
    } else {
      TilesDeclareOnce(before, session, untracked, q, i, j);
    }
  }

  /** In every disciplined run, no two acknowledged bodies declare the same sequence missing. */
  lemma DeclaredOnce(limits: Limits, inputs: seq<Input>, session: string, q: int, i: nat, j: nat)
    requires limits.Positive() && DisciplinedRun(limits, inputs) && 1 <= q
    requires i < j < |Run(limits, inputs).log.accepted|
    ensures var accepted := Run(limits, inputs).log.accepted;
            !(Misses(accepted[i], session, q) && Misses(accepted[j], session, q))
  {
    hide Lawful, Line, Misses;
    RunSound(limits, inputs, session);
    var log := Run(limits, inputs).log;
    TilesDeclareOnce(log.accepted, session, log.untracked, q, i, j);
  }

  /**
   The gap-free ledger: in every disciplined run, whatever the interleaving, each sequence up to
   the newest acknowledged one is acknowledged or declared missing, and never both, unless its
   loss could not be tracked, which the caller was told.
   */
  lemma NoSilentLoss(limits: Limits, inputs: seq<Input>, session: string, q: int)
    requires limits.Positive() && DisciplinedRun(limits, inputs)
    requires 1 <= q <= Top(Run(limits, inputs).log.accepted, session)
    ensures var log := Run(limits, inputs).log;
            && (Acknowledged(log.accepted, session, q) || DeclaredMissing(log.accepted, session, q)
                || (session, q) in log.untracked)
            && !(Acknowledged(log.accepted, session, q) && DeclaredMissing(log.accepted, session, q))
  {
    hide Lawful, Line;
    RunSound(limits, inputs, session);
    TilesSettle(Run(limits, inputs).log.accepted, session, Run(limits, inputs).log.untracked, q);
  }

  // ---- the server's sequence rule --------------------------------------------------------

  /** The declaration of exactly the sequences between `top` and `q`. */
  function Gap(top: int, q: int): Option<Range> {
    if q - 1 > top then Some(Range(top + 1, q - 1)) else None
  }

  lemma ReadyIsGap(v: View, p: Payload)
    requires Ready(v, p) && v.top < Sequence(p)
    requires forall q | v.top < q < Sequence(p) :: (v.session, q) !in v.untracked
    ensures p.resync == Gap(v.top, Sequence(p))
  {
    if v.top + 1 < Sequence(p) {
      assert Covers(p.resync, v.top + 1) && Covers(p.resync, Sequence(p) - 1);
    }
  }

  // ---- order -----------------------------------------------------------------------------

  lemma {:induction false} TopIsNewest(bodies: seq<Payload>, session: string, i: nat)
    requires NeverBack(bodies, session) && i < |bodies| && bodies[i].session == session
    ensures Sequence(bodies[i]) <= Top(bodies, session)
  {
    if i < |bodies| - 1 {
      TopIsNewest(bodies[..|bodies| - 1], session, i);
    }
  }

  lemma {:induction false} NeverBackOrders(posted: seq<Payload>, session: string, i: nat, j: nat)
    requires NeverBack(posted, session) && i < j < |posted|
    requires posted[i].session == session && posted[j].session == session && Sequence(posted[j]) > 0
    ensures Sequence(posted[i]) <= Sequence(posted[j])
  {
    var before := posted[..|posted| - 1];
    if j == |posted| - 1 {
      assert before[i] == posted[i];
      TopIsNewest(before, session, i);
    } else {
      NeverBackOrders(before, session, i, j);
    }
  }

  /** POSTed drain sequences of one session never decrease. */
  lemma NoOvertaking(limits: Limits, inputs: seq<Input>, i: nat, j: nat)
    requires limits.Positive() && DisciplinedRun(limits, inputs)
    requires var posted := Run(limits, inputs).log.posted;
             i < j < |posted| && posted[i].session == posted[j].session && Sequence(posted[j]) > 0
    ensures Sequence(Run(limits, inputs).log.posted[i]) <= Sequence(Run(limits, inputs).log.posted[j])
  {
    hide Lawful, Line, Tiled;
    var posted := Run(limits, inputs).log.posted;
    RunSound(limits, inputs, posted[j].session);
    NeverBackOrders(posted, posted[j].session, i, j);
  }

  /**
   While a session has a retained request, the only body POSTed for it is that request, and the
   step delivers no queued drain of it.
   */
  lemma OnlyTheRetainedRequest(limits: Limits, inputs: seq<Input>, input: Input)
    requires limits.Positive()
    ensures var t := Run(limits, inputs);
            var t' := Step(t, input);
            && (t'.log.posted != t.log.posted ==>
                  var p := t'.log.posted[|t'.log.posted| - 1];
                  t'.log.posted == t.log.posted + [p] && (p.session in t'.exact ==> p == t'.exact[p.session]))
            && ((t'.drain.Busy? && t'.drain.purpose.Fresh? && !t'.drain.delivery.at.Returned?) ==>
                  t'.drain.delivery.payload.session !in t'.exact)
  {
    hide Core, HoldsRest, Step, RecoverySessions;
    var t := Run(limits, inputs);
    RunKeeps(limits, inputs);
    StepKeeps(t, input);
  }

  // ---- the wake-up, exactly --------------------------------------------------------------

  /** A drain run over a single admissible entry suspends exactly when the context is current. */
  lemma SingleEntry(t: Transport, next: Queued, auth: seq<bool>)
    requires t.queue == [next] && t.attempted == {} && !Refused(t, next.payload)
    ensures Pump(t, auth).drain == Idle <==> !Current(auth)
  {
    hide GiveUp, Attempt, HasRecovery;
    var t1 := t.(queue := [], drain := Idle);
    assert t.queue[1..] == [];
    assert Refused(t1, next.payload) == Refused(t, next.payload) by { SameRefusal(t, t1, next.payload); }
    if !Current(auth) {
      assert Pump(Skip(t1, next), Later(auth)).drain == Idle;
    }
  }

  lemma SameRefusal(t: Transport, t': Transport, p: Payload)
    requires t'.saturated == t.saturated && t'.resync == t.resync && t'.exact == t.exact
    ensures Refused(t', p) == Refused(t, p)
  {
  }

  /**
   A send leaves the drain field stuck exactly when it enters an idle transport and the
   authorization context is current for the check of `send` but no longer for the drain loop's.
   */
  lemma SticksExactly(limits: Limits, inputs: seq<Input>, p: Payload, serializable: bool, auth: seq<bool>)
    requires limits.Positive() && Run(limits, inputs).drain == Idle
    ensures var t := Run(limits, inputs);
            Send(t, p, serializable, auth).drain == Stuck
            <==> Enters(t, p, serializable, auth) && !Current(Later(auth))
  {
    hide Core, Holds, RecoverySessions, Sticky, AdmitsOnlyRecovery, GiveUp, Pump, Evict, Refused;
    var t := Run(limits, inputs);
    RunKeeps(limits, inputs);
    if Enters(t, p, serializable, auth) {
      EnqueueKeeps(t, p);
      PumpKeeps(Enqueue(t, p).(attempted := {}, log := Enqueue(t, p).log.(retried := [])), Later(auth))
        by { StartDrainCore(Enqueue(t, p)); }
      var t1 := Enqueue(t, p).(attempted := {}, log := Enqueue(t, p).log.(retried := []));
      SameRefusal(t, t1, p);
      SingleEntry(t1, Queued(t.log.issued, p), Later(auth));
    } else {
      SendKeeps(t, p, serializable, auth);
    }
  }

  lemma StartDrainCore(t: Transport)
    requires Shape(t)
    ensures Core(t.(attempted := {}, log := t.log.(retried := [])))
  {
    hide Size, Within, Keyed;
    assert RecoverySessions(t.(attempted := {}, log := t.log.(retried := []))) == RecoverySessions(t);
  }

  /**
   A stuck transport never POSTs again and never resolves what it queues, except by dropping it. A
   flush finds a drain run under way for ever: it never gets to retry a retained request.
   */
  lemma StuckForever(t: Transport, input: Input)
    requires t.drain == Stuck
    ensures Step(t, input).drain == Stuck && Step(t, input).log.posted == t.log.posted
    ensures input.Flushing? || input.Resuming? ==> Step(t, input) == t
  {
    hide GiveUp, StartDrain, Pump;
  }

  predicate SteadyInput(input: Input) {
    input.Sending? ==> Current(input.auth) == Current(Later(input.auth))
  }

  /** With a context that is steady within each `send`, waiting payloads always have a running drain. */
  lemma {:induction false} NoLostWakeUp(limits: Limits, inputs: seq<Input>)
    requires limits.Positive() && forall i | 0 <= i < |inputs| :: SteadyInput(inputs[i])
    ensures var t := Run(limits, inputs); t.drain != Stuck && (t.queue != [] ==> t.drain.Busy?)
  {
    if inputs != [] {
      var before, input := inputs[..|inputs| - 1], inputs[|inputs| - 1];
      assert forall i | 0 <= i < |before| :: inputs[i] == before[i];
      NoLostWakeUp(limits, before);
      RunKeeps(limits, before);
      RunKeeps(limits, inputs);
      hide Shape, Wakeful, Resume, Flush, Stop, Send;
      assert SteadyInput(input);
      NeverStuckStep(limits, before, input);
    }
  }

  lemma NeverStuckStep(limits: Limits, inputs: seq<Input>, input: Input)
    requires limits.Positive() && Run(limits, inputs).drain != Stuck && SteadyInput(input)
    ensures Step(Run(limits, inputs), input).drain != Stuck
  {
    hide Core, Holds, Sticky, AdmitsOnlyRecovery, RecoverySessions, Send, Resume, Flush, Stop;
    var t := Run(limits, inputs);
    RunKeeps(limits, inputs);
    match input {
      case Sending(p, serializable, auth) =>
        if t.drain == Idle {
          SticksExactly(limits, inputs, p, serializable, auth);
        } else {
          SendKeeps(t, p, serializable, auth);
        }
      case Resuming(answer, auth) =>
        if t.drain.Busy? && t.drain.delivery.at.Returned? {
          AfterDeliveryKeeps(t, answer, auth);
        } else if t.drain.Busy? {
          ResumeKeepsPurpose(t, answer, auth);
        } else {
          ResumeStutters(t, answer, auth);
        }
      case Flushing(order, auth) => FlushKeeps(t, order, auth);
      case Stopping => StopKeeps(t);
    }
  }
}
