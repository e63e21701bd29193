/**
 Exactly when a drain can be lost silently. A transport that is about to accept the last body of a
 session it remembers, with something of it missed and nothing of it waiting, is the one open
 transport in which even a mismatched `send` does no harm: either the session is forgotten with that
 acceptance, or a later loss widens the missed range over the gap.
 */
module Closing {
  import opened Wrappers
  import opened Capture
  import opened TransportModel
  import opened TransportShape
  import opened SessionLedger
  import opened TransportLedger
  import opened GapFree
  import opened DeliveryGuarantees
  import opened SilentLoss
  import opened Restamping
  import opened Vanishing
  import opened LateLoss
  import opened Sets

  // ---- one loss fewer ---------------------------------------------------------------------

  /** The ledger of a run with one untracked loss more than the transport `p` has a record of. */
  function LosingMore(t: Transport, session: string, q: int): Transport {
    Restamp(t, Records(t.log.sent, {(session, q)}))
  }

  lemma StepRestamps(t: Transport, input: Input, other: Records)
    requires other.sent == t.log.sent
    ensures Step(Restamp(t, other), input) == Restamp(Step(t, input), other.(sent := Step(t, input).log.sent))
  {
    hide Send, Resume, Flush, Stop, Restamp;
    StepSent(t, input);
    match input
    case Sending(p, serializable, auth) => SendRestamps(t, p, serializable, auth, other); SentNoted(t, p);
    case Resuming(answer, auth) => ResumeRestamps(t, answer, auth, other);
    case Flushing(order, auth) => FlushRestamps(t, order, auth, other);
    case Stopping => StopRestamps(t, other);
  }

  lemma SentNoted(t: Transport, p: Payload)
    ensures Sequence(p) == 0 ==> NoteSent(t, p).log.sent == t.log.sent
  {
  }

  /** Apart from one untracked loss, which the ledger explains otherwise, the transport has a sound ledger. */
  ghost predicate ExplainedBy(t: Transport, u: Transport, session: string, q: int) {
    && Shape(u) && Wakeful(u) && AllSound(u) && t == LosingMore(u, session, q)
    && ((session, q) in u.log.untracked ==> Harmless(u, session, q))
  }

  ghost predicate Explained(t: Transport, session: string, q: int) {
    exists u :: ExplainedBy(t, u, session, q)
  }

  lemma StepAllSound(t: Transport, input: Input)
    requires Shape(t) && Wakeful(t) && AllSound(t) && Disciplined(t, input)
    ensures AllSound(Step(t, input))
  {
    hide Shape, Wakeful, Sound, Step, Disciplined;
    forall s ensures Sound(Step(t, input), s) { StepSound(t, input, s); }
  }

  /** A step that does not send the sequence loses it only harmlessly. */
  lemma StepExcuses(t: Transport, input: Input, session: string, q: int)
    requires Shape(t) && AllSound(t) && Disciplined(t, input) && 1 <= q
    requires !(input.Sending? && Carries(input.payload, session, q))
    requires (session, q) in t.log.untracked ==> Harmless(t, session, q)
    ensures (session, q) in Step(t, input).log.untracked ==> Harmless(Step(t, input), session, q)
  {
    hide Shape, AllSound, Harmless, Leads, Moves, Step, Reject;
    var r := Step(t, input);
    if (session, q) in r.log.untracked {
      StepMoves(t, input);
      if (session, q) in t.log.untracked {
        HarmlessOn(t, r, session, q);
      } else if input.Sending? && !t.stopped && !Current(input.auth) {
        RejectLoses(t, input.payload);
        MismatchIsReject(t, input);
      } else {
        StepHarmless(t, input);
        LeadsOn(t, r, session, q);
      }
    }
  }

  lemma MismatchIsReject(t: Transport, input: Input)
    requires input.Sending? && !t.stopped && !Current(input.auth)
    ensures Step(t, input) == Reject(t, input.payload, false)
  {
    hide Reject;
  }

  lemma ExplainedOn(t: Transport, input: Input, session: string, q: int)
    requires Explained(t, session, q) && Disciplined(t, input) && 1 <= q
    requires !(input.Sending? && Carries(input.payload, session, q))
    ensures Explained(Step(t, input), session, q)
  {
    hide Shape, Wakeful, AllSound, Harmless, Step, Restamp;
    var u :| ExplainedBy(t, u, session, q);
    DisciplineSame(u, input, session, q);
    StepKeeps(u, input);
    StepAllSound(u, input);
    StepExcuses(u, input, session, q);
    StepRestamps(u, input, Records(u.log.sent, {(session, q)}));
    assert ExplainedBy(Step(t, input), Step(u, input), session, q);
  }

  lemma DisciplineSame(u: Transport, input: Input, session: string, q: int)
    ensures Disciplined(LosingMore(u, session, q), input) == Disciplined(u, input)
  {
  }

  lemma ExplainedSettles(t: Transport, session: string, q: int)
    requires Explained(t, session, q) && 1 <= q <= Top(t.log.accepted, session)
    ensures Acknowledged(t.log.accepted, session, q) || DeclaredMissing(t.log.accepted, session, q)
  {
    hide Acknowledged, DeclaredMissing, Shape, Line, Lawful;
    var u :| ExplainedBy(t, u, session, q);
    assert Sound(u, session);
    SoundIsLedger(u, session);
    TilesSettle(u.log.accepted, session, u.log.untracked, q);
  }

  lemma {:induction false} TiledFewer(accepted: seq<Payload>, session: string, untracked: set<(string, int)>, q: int)
    requires Tiled(accepted, session, untracked) && Top(accepted, session) < q
    ensures Tiled(accepted, session, untracked - {(session, q)})
  {
    if accepted != [] { TiledFewer(accepted[..|accepted| - 1], session, untracked, q); }
  }

  lemma {:induction false} TiledBeside(accepted: seq<Payload>, session: string, untracked: set<(string, int)>,
                                       other: string, q: int)
    requires Tiled(accepted, session, untracked) && session != other
    ensures Tiled(accepted, session, untracked - {(other, q)})
  {
    if accepted != [] { TiledBeside(accepted[..|accepted| - 1], session, untracked, other, q); }
  }

  /** Whether the ledger needs the untracked loss of the sequence to be lawful. */
  predicate Spare(v: View, session: string, q: int) {
    v.session == session ==> v.top < q && Covers(v.missed, q) && (v.kept.Some? ==> Sequence(v.kept.value) <= q)
  }

  lemma LawfulFewer(v: View, live: seq<int>, session: string, q: int)
    requires Lawful(v, live) && Spare(v, session, q)
    ensures Lawful(v.(untracked := v.untracked - {(session, q)}), live)
  {
    var v' := v.(untracked := v.untracked - {(session, q)});
    assert forall a, b :: Below(v, a, b) == Below(v', a, b);
  }

  lemma ReadyFewer(v: View, p: Payload, session: string, q: int)
    requires Ready(v, p) && (v.session == session ==> Sequence(p) <= q)
    ensures Ready(v.(untracked := v.untracked - {(session, q)}), p)
  {
  }

  function LosingLess(t: Transport, session: string, q: int): Transport {
    t.(log := t.log.(untracked := t.log.untracked - {(session, q)}))
  }

  lemma SoundFewer(t: Transport, s: string, session: string, q: int)
    requires Sound(t, s) && Spare(ViewOf(t, s), session, q)
    requires s == session && t.drain.Busy? && t.drain.delivery.payload.session == s ==>
      Sequence(t.drain.delivery.payload) <= q
    ensures Sound(LosingLess(t, session, q), s)
  {
    var u := LosingLess(t, session, q);
    SoundIsLedger(t, s);
    hide Lawful, Line, NeverBack, CleanQueue, Ready, Tiled;
    assert ViewOf(u, s) == ViewOf(t, s).(untracked := t.log.untracked - {(session, q)});
    if s == session { TiledFewer(t.log.accepted, s, t.log.untracked, q); }
    else { TiledBeside(t.log.accepted, s, t.log.untracked, session, q); }
    forall hand ensures Line(u, s, hand) == Line(t, s, hand) { LineLess(t, s, hand, session, q); }
    LawfulFewer(ViewOf(t, s), Line(t, s, HandNow(t)), session, q);
    if t.drain.Busy? && Ready(ViewOf(t, s), t.drain.delivery.payload)
        && t.drain.delivery.payload.session == s {
      ReadyFewer(ViewOf(t, s), t.drain.delivery.payload, session, q);
    }
  }

  lemma LineLess(t: Transport, s: string, hand: Option<Payload>, session: string, q: int)
    ensures Line(LosingLess(t, session, q), s, hand) == Line(t, s, hand)
  {
  }

  // ---- while the acceptance is pending ----------------------------------------------------

  /** The acceptance of a remembered session is pending, and what waits or was missed leaves `q` no way out. */
  ghost predicate Pending(t: Transport, session: string, q: int) {
    && t.saturated && Answered(t, session) && Sequence(t.drain.delivery.payload) < q <= Sent(t, session)
    && session in t.resync && t.resync[session].from <= Sequence(t.drain.delivery.payload)
    && (t.resync[session].through <= Sequence(t.drain.delivery.payload) || t.resync[session].through > q)
    && (forall e <- t.queue :: Beyond(e.payload, session, q))
    && (session, q) in t.log.untracked && Top(t.log.accepted, session) < q
  }

  predicate Beyond(p: Payload, session: string, q: int) {
    Of(session, p) != [] ==> Sequence(p) > q && p.resync.None?
  }

  lemma GiveUpPending(t: Transport, p: Payload, track: bool, session: string, q: int)
    requires Pending(t, session, q) && Beyond(p, session, q)
    ensures Pending(GiveUp(t, p, track), session, q)
  {
    hide Size, Top;
  }

  lemma SkipPending(t: Transport, next: Queued, session: string, q: int)
    requires Pending(t, session, q) && Beyond(next.payload, session, q)
    ensures Pending(Skip(t, next), session, q) && Pending(AsOverflow(Skip(t, next)), session, q)
    ensures Skip(t, next).queue == t.queue && AsOverflow(Skip(t, next)).queue == t.queue
  {
    GiveUpPending(t, next.payload, true, session, q);
    hide GiveUp, Top;
  }

  lemma {:induction false} EvictPending(t: Transport, session: string, q: int)
    requires Pending(t, session, q)
    ensures Pending(Evict(t), session, q)
    decreases |t.queue|
  {
    if |t.queue| >= t.limits.maxQueued && t.queue != [] {
      var a := t.(queue := t.queue[1..]);
      assert Beyond(t.queue[0].payload, session, q);
      assert Pending(a, session, q);
      hide Pending, Skip, AsOverflow, Beyond;
      SkipPending(a, t.queue[0], session, q);
      EvictPending(AsOverflow(Skip(a, t.queue[0])), session, q);
    }
  }

  lemma {:induction false} AbandonPending(t: Transport, session: string, q: int)
    requires Pending(t, session, q)
    ensures Pending(Abandon(t), session, q)
    decreases |t.queue|
  {
    if t.queue != [] {
      var a := t.(queue := t.queue[1..]);
      assert Beyond(t.queue[0].payload, session, q);
      assert Pending(a, session, q);
      hide Pending, Skip, AsOverflow, Beyond;
      SkipPending(a, t.queue[0], session, q);
      AbandonPending(Skip(a, t.queue[0]), session, q);
    }
  }

  lemma NoteSentPending(t: Transport, p: Payload, session: string, q: int)
    requires Pending(t, session, q) && (Of(session, p) != [] ==> Sequence(p) > q)
    ensures Pending(NoteSent(t, p), session, q)
  {
    hide Top, Beyond;
  }

  lemma PushPending(t: Transport, next: Queued, session: string, q: int)
    requires Pending(t, session, q) && Beyond(next.payload, session, q)
    ensures Pending(t.(queue := t.queue + [next]), session, q)
  {
    hide Top, Beyond;
  }

  lemma SentBeyond(t: Transport, input: Input, session: string, q: int)
    requires input.Sending? && Disciplined(t, input) && !Carries(input.payload, session, q) && q <= Sent(t, session)
    ensures Beyond(input.payload, session, q)
  {
  }

  lemma SendPending(t: Transport, p: Payload, serializable: bool, auth: seq<bool>, session: string, q: int)
    requires Pending(t, session, q) && Beyond(p, session, q)
    ensures Pending(Send(t, p, serializable, auth), session, q)
  {
    hide Evict, NoteSent, GiveUp, StartDrain;
    var a := NoteSent(t, p);
    NoteSentPending(t, p, session, q);
    assert t.drain.Busy?;
    hide Pending, Beyond;
    GiveUpPending(a, p, true, session, q);
    GiveUpPending(a, p, false, session, q);
    ResolvePending(GiveUp(a, p, true), t.log.issued, session, q);
    ResolvePending(GiveUp(a, p, false), t.log.issued, session, q);
    EvictPending(a, session, q);
    PushPending(Evict(a), Queued(t.log.issued, p), session, q);
  }

  lemma ResolvePending(t: Transport, id: nat, session: string, q: int)
    requires Pending(t, session, q)
    ensures Pending(Resolve(t, id, false), session, q)
  {
    hide Top, Beyond;
  }

  /** A loss beyond `q` widens the missed range over it. */
  lemma PendingExplained(t: Transport, session: string, q: int)
    requires Shape(t) && Wakeful(t) && AllSound(t) && Pending(t, session, q) && t.resync[session].through > q
    ensures Explained(t, session, q)
  {
    var u := LosingLess(t, session, q);
    hide Shape, Wakeful, Sound, Spare;
    forall s ensures Sound(u, s) {
      assert Sound(t, s);
      SparePending(t, s, session, q);
      SoundFewer(t, s, session, q);
    }
    RestampShape(u, Records(t.log.sent, {(session, q)}));
    assert u.log.untracked + {(session, q)} == t.log.untracked;
    assert LosingMore(u, session, q) == t;
    assert ExplainedBy(t, u, session, q);
  }

  lemma SparePending(t: Transport, s: string, session: string, q: int)
    requires Shape(t) && Pending(t, session, q) && t.resync[session].through > q
    ensures Spare(ViewOf(t, s), session, q)
  {
    hide Core, HoldsRest;
  }

  // ---- the pending acceptance -------------------------------------------------------------

  /** A saturated transport that has forgotten the session and goes on leaves it shut out. */
  lemma ShutAfter(a: Transport, r: Transport, session: string, q: int)
    requires a.saturated && !HasRecovery(a, session) && Top(a.log.accepted, session) < q && 0 <= q
    requires Sticky(a, r) && Admitted(r) && r.log.accepted == a.log.accepted
    ensures Harmless(r, session, q)
  {
    hide Acknowledged;
    assert HasRecovery(r, session) <==> session in RecoverySessions(r);
    assert HasRecovery(a, session) <==> session in RecoverySessions(a);
  }

  /** The acceptance takes the session out of the ledger. */
  lemma AcceptShuts(t: Transport, session: string, q: int)
    requires Shape(t) && Pending(t, session, q) && t.resync[session].through <= Sequence(t.drain.delivery.payload)
    ensures var p := t.drain.delivery.payload;
      var b := if t.drain.purpose.Fresh? then t else t.(exact := t.exact - {session});
      var a := Accept(b.(drain := Idle), p);
      p.session == session && a.saturated && !HasRecovery(a, session) && Top(a.log.accepted, session) < q
          && Keyed(a.exact)
  {
    TopAppend(t.log.accepted, t.drain.delivery.payload, session);
    hide HoldsRest, Within, RetriesOnce, Top;
  }

  lemma ReturnShuts(t: Transport, answer: Answer, auth: seq<bool>, session: string, q: int)
    requires Shape(t) && Pending(t, session, q) && t.resync[session].through <= Sequence(t.drain.delivery.payload)
    requires t.drain.delivery.at == Returned(Delivered)
    ensures Harmless(Resume(t, answer, auth), session, q)
  {
    AcceptShuts(t, session, q);
    HoldsNow(t);
    var purpose, p := t.drain.purpose, t.drain.delivery.payload;
    var b := if purpose.Fresh? then t else t.(exact := t.exact - {session});
    var a := Accept(b.(drain := Idle), p);
    var r := Resume(t, answer, auth);
    hide Shape, Harmless, Pump, ContinueWith, StartRetry, LosesLive, Admitted, Accept, Pending;
    match purpose {
      case Fresh(next) =>
        var c := Resolve(a, next.id, true);
        PumpLoses(c, auth);
        StickyLoses(c, None, r);
        ShutAfter(c, r, session, q);
      case Ahead(next) =>
        ContinueLoses(a, next, auth);
        StickyLoses(a, Some(next.payload), r);
        ShutAfter(a, r, session, q);
      case IdleRetry(rest) =>
        PumpLoses(a, auth);
        if rest != [] {
          RestRetained(t, a, p, rest) by { AcceptExact(b.(drain := Idle), p); }
          StartRetryLoses(a, IdleRetry(rest[1..]), rest[0], auth);
        }
        StickyLoses(a, None, r);
        ShutAfter(a, r, session, q);
    }
  }

  lemma AcceptExact(t: Transport, p: Payload)
    ensures Accept(t, p).exact == t.exact
  {
  }

  /** The acceptance pending is bound to forget the session, unless a later loss explains the gap. */
  ghost predicate Doomed(t: Transport, session: string, q: int) {
    Pending(t, session, q) && t.resync[session].through <= Sequence(t.drain.delivery.payload)
  }

  /** The sequence will not vanish. */
  ghost predicate Safe(t: Transport, session: string, q: int) {
    Doomed(t, session, q) || Harmless(t, session, q) || Explained(t, session, q)
  }

  lemma PendingOn(t: Transport, input: Input, session: string, q: int)
    requires Shape(t) && Disciplined(t, input) && Doomed(t, session, q)
    requires !(input.Sending? && Carries(input.payload, session, q))
    ensures Pending(Step(t, input), session, q) || Harmless(Step(t, input), session, q)
  {
    hide Shape, Disciplined, Send, Abandon, Harmless, Top, Beyond;
    match input
    case Sending(p, serializable, auth) =>
      SentBeyond(t, input, session, q);
      SendPending(t, p, serializable, auth, session, q);
    case Resuming(answer, auth) =>
      if t.drain.delivery.at.Returned? { ReturnShuts(t, answer, auth, session, q); }
      hide AfterDelivery;
    case Flushing(_, _) =>
    case Stopping => if !t.stopped { AbandonPending(t.(stopped := true), session, q); }
  }

  lemma SafeOn(t: Transport, input: Input, session: string, q: int)
    requires Shape(t) && Wakeful(t) && AllSound(t) && Disciplined(t, input) && 1 <= q && Safe(t, session, q)
    requires !(input.Sending? && Carries(input.payload, session, q))
    ensures Safe(Step(t, input), session, q)
  {
    hide Shape, Wakeful, AllSound, Disciplined, Pending, Harmless, Explained, Step, Carries, Moves;
    if Harmless(t, session, q) {
      StepMoves(t, input);
      HarmlessOn(t, Step(t, input), session, q);
    } else if Explained(t, session, q) {
      ExplainedOn(t, input, session, q);
    } else {
      PendingOn(t, input, session, q);
      StepKeeps(t, input);
      StepAllSound(t, input);
      if Pending(Step(t, input), session, q) && !Doomed(Step(t, input), session, q) {
        PendingIs(Step(t, input), session, q);
        PendingExplained(Step(t, input), session, q);
      }
    }
  }

  lemma PendingIs(t: Transport, session: string, q: int)
    requires Pending(t, session, q) && !Doomed(t, session, q)
    ensures session in t.resync && t.resync[session].through > q
  {
    hide Top, Beyond;
  }

  lemma {:induction false} SafeStays(limits: Limits, inputs: seq<Input>, more: seq<Input>, session: string, q: int)
    requires limits.Positive() && DisciplinedRun(limits, inputs + more) && 1 <= q
    requires Safe(Run(limits, inputs), session, q)
    requires forall i <- more :: !(i.Sending? && Carries(i.payload, session, q))
    ensures Safe(Run(limits, inputs + more), session, q)
  {
    hide Run, DisciplinedRun, Safe, Shape, Wakeful, AllSound, Disciplined, Step, Carries;
    if more == [] {
      assert inputs + more == inputs;
    } else {
      var before, last := more[..|more| - 1], more[|more| - 1];
      SplitLast(inputs, more);
      RunOneMore(limits, inputs + before, last);
      SafeStays(limits, inputs, before, session, q);
      RunKeeps(limits, inputs + before);
      RunAllSound(limits, inputs + before);
      SafeOn(Run(limits, inputs + before), last, session, q);
    }
  }

  lemma SafeSettles(t: Transport, session: string, q: int)
    requires Safe(t, session, q) && 1 <= q <= Top(t.log.accepted, session)
    ensures Acknowledged(t.log.accepted, session, q) || DeclaredMissing(t.log.accepted, session, q)
  {
    hide Acknowledged, DeclaredMissing, Explained, Beyond;
    if Explained(t, session, q) { ExplainedSettles(t, session, q); }
  }

  lemma {:induction false} CopiesGrow(inputs: seq<Input>, more: seq<Input>, session: string, q: int)
    ensures Copies(inputs + more, session, q) >= Copies(inputs, session, q)
    ensures (exists i <- more :: i.Sending? && Carries(i.payload, session, q)) ==>
      Copies(inputs + more, session, q) > Copies(inputs, session, q)
    decreases |more|
  {
    if more == [] {
      assert inputs + more == inputs;
    } else {
      var before := more[..|more| - 1];
      assert (inputs + more)[..|inputs + more| - 1] == inputs + before;
      assert more == before + [more[|more| - 1]];
      CopiesGrow(inputs, before, session, q);
    }
  }

  lemma {:induction false} NoneWaits(queue: seq<Queued>, session: string)
    requires Waiting(queue, session) == []
    ensures forall e <- queue :: Of(session, e.payload) == []
  {
    if queue != [] { NoneWaits(queue[1..], session); }
  }

  /** The body in flight is among what was sent, and a missed range does not run backwards. */
  lemma PendingBounds(t: Transport, session: string)
    requires Shape(t) && Sound(t, session) && Answered(t, session)
    ensures Sequence(t.drain.delivery.payload) <= Sent(t, session) && Top(t.log.accepted, session) <= Sent(t, session)
    ensures session in t.resync ==> t.resync[session].from <= t.resync[session].through
  {
    InFlightFirst(t, session);
    SoundIsLedger(t, session);
    hide Shape, Line, NeverBack, Tiled, Accounted, Ready;
  }

  /** A mismatched send on a transport that cannot outlast the pending acceptance. */
  lemma MismatchDoomed(t: Transport, p: Payload, serializable: bool, auth: seq<bool>)
    requires Shape(t) && Sound(t, p.session) && !t.stopped && !Current(auth) && NextDrain(t, p)
    requires t.saturated && Answered(t, p.session) && !CanOutlast(t, p.session)
    ensures Doomed(Send(t, p, serializable, auth), p.session, Sequence(p))
  {
    MismatchOnlyLogs(t, p, serializable, auth);
    PendingBounds(t, p.session);
    NoneWaits(t.queue, p.session);
    hide Shape, Sound, Top, Waiting;
    assert Send(t, p, serializable, auth) == Reject(t, p, false);
  }

  /**
   Whether a session that a saturated transport still remembers can outlive the acceptance pending:
   something beyond it is missed, or can still be lost before, or nothing is missed yet.
   */
  predicate CanOutlast(t: Transport, session: string) {
    Lasting(t, session) || session !in t.resync || Waiting(t.queue, session) != []
  }

  lemma OutlastsNothing(limits: Limits, inputs: seq<Input>, p: Payload, serializable: bool, auth: seq<bool>,
                        more: seq<Input>)
    requires limits.Positive() && DisciplinedRun(limits, inputs + [Sending(p, serializable, auth)] + more)
    requires DisciplinedRun(limits, inputs)
    requires var t := Run(limits, inputs);
      NextDrain(t, p) && !t.stopped && !Current(auth) && !CanOutlast(t, p.session)
    ensures !Vanished(limits, inputs + [Sending(p, serializable, auth)] + more, p.session, Sequence(p))
  {
    var t, send, q := Run(limits, inputs), Sending(p, serializable, auth), Sequence(p);
    var all := inputs + [send] + more;
    assert !Lasting(t, p.session) && NextDrain(t, p);
    hide Run, DisciplinedRun, NextDrain, CanOutlast, Shape, Sound, Safe, Mismatched, Acknowledged, DeclaredMissing,
      Doomed, Send;
    RunKeeps(limits, inputs);
    RunSound(limits, inputs, p.session);
    MismatchDoomed(t, p, serializable, auth);
    RunOneMore(limits, inputs, send);
    SentOnce(inputs, send);
    CopiesGrow(inputs + [send], more, p.session, q);
    if Vanished(limits, all, p.session, q) {
      if exists i <- more :: i.Sending? && Carries(i.payload, p.session, q) {
        NoSilentLossButMismatch(limits, all, p.session, q);
      } else {
        DoomedIsSafe(Run(limits, inputs + [send]), p.session, q);
        SafeStays(limits, inputs + [send], more, p.session, q);
        SafeSettles(Run(limits, all), p.session, q);
      }
    }
  }

  lemma SentOnce(inputs: seq<Input>, send: Input)
    requires send.Sending?
    ensures Copies(inputs + [send], send.payload.session, Sequence(send.payload)) >= 1
  {
    assert (inputs + [send])[..|inputs|] == inputs;
  }

  lemma DoomedIsSafe(t: Transport, session: string, q: int)
    requires Doomed(t, session, q)
    ensures Safe(t, session, q)
  {
    hide Doomed, Harmless, Explained;
  }

  /** The last number there is has no later drain to vanish behind. */
  lemma LastNeverVanishes(limits: Limits, inputs: seq<Input>, session: string, q: int)
    requires q >= MAX_SAFE_INTEGER
    ensures !Vanished(limits, inputs, session, q)
  {
    hide Run;
    var accepted := Run(limits, inputs).log.accepted;
    if 1 <= q <= Top(accepted, session) { TopAcknowledged(accepted, session); }
  }

  /** Fillers, or the loss of the next drain, make the session outlast the pending acceptance. */
  lemma PendingVanishes(limits: Limits, inputs: seq<Input>, p: Payload, serializable: bool, auth: seq<bool>)
    requires limits.Positive() && DisciplinedRun(limits, inputs)
    requires var t := Run(limits, inputs);
      && !t.stopped && Open(t, p.session) && NextDrain(t, p) && Sequence(p) < MAX_SAFE_INTEGER && !Current(auth)
      && !Lasting(t, p.session) && CanOutlast(t, p.session)
    ensures CanVanish(limits, inputs + [Sending(p, serializable, auth)], p.session, Sequence(p))
  {
    var t, send := Run(limits, inputs), Sending(p, serializable, auth);
    var sending := inputs + [send];
    hide Run, DisciplinedRun, Send, Sound, Shape, Disciplined, Step, Vanished, Without, Waiting, Steerable;
    RunSound(limits, inputs, p.session);
    RunOneMore(limits, inputs, send);
    NextIsDisciplined(t, p, serializable, auth);
    MismatchOnlyLogs(t, p, serializable, auth);
    var r := Run(limits, sending);
    MismatchSound(t, r, p.session);
    if Waiting(t.queue, p.session) != [] {
      var first := CrowdOut(limits, sending, p.session, t.log.sent);
      var second := ClearOut(limits, sending + first, p.session, t.log.sent);
      SuccessorAccepted(limits, sending + first + second, p, t.log.sent);
      var rest :| DisciplinedRun(limits, sending + first + second + rest)
          && Vanished(limits, sending + first + second + rest, p.session, Sequence(p));
      assert sending + first + second + rest == sending + (first + second + rest);
    } else {
      BareVanishes(limits, sending, p, t.log.sent);
    }
  }

  /**
   Exactly which sends lose silently. From every reachable transport, the next drain of a session can
   end up below the newest acknowledged one, neither acknowledged nor declared, if and only if its
   `send` finds another context, the transport is not stopped, not stuck, does not refuse the session
   and can outlast an acceptance pending, and there is a number left for a later drain.
   */
  lemma VanishesExactly(limits: Limits, inputs: seq<Input>, p: Payload, serializable: bool, auth: seq<bool>)
    requires limits.Positive() && DisciplinedRun(limits, inputs) && NextDrain(Run(limits, inputs), p)
    ensures var t := Run(limits, inputs);
      CanVanish(limits, inputs + [Sending(p, serializable, auth)], p.session, Sequence(p))
      <==> !Current(auth) && !t.stopped && t.drain != Stuck && Open(t, p.session) && CanOutlast(t, p.session)
           && Sequence(p) < MAX_SAFE_INTEGER
  {
    hide Run, DisciplinedRun, Vanished, Open, Lasting, NextDrain, CanOutlast;
    var t, send := Run(limits, inputs), Sending(p, serializable, auth);
    if !Current(auth) && !t.stopped && t.drain != Stuck && Open(t, p.session) && CanOutlast(t, p.session)
        && Sequence(p) < MAX_SAFE_INTEGER {
      if Lasting(t, p.session) {
        MismatchLosesSilently(limits, inputs, p, serializable, auth);
      } else {
        PendingVanishes(limits, inputs, p, serializable, auth);
      }
    }
    if CanVanish(limits, inputs + [send], p.session, Sequence(p)) {
      var more :| DisciplinedRun(limits, inputs + [send] + more)
          && Vanished(limits, inputs + [send] + more, p.session, Sequence(p));
      VanishesOnlyMismatched(limits, inputs, p, serializable, auth);
      if Sequence(p) >= MAX_SAFE_INTEGER {
        LastNeverVanishes(limits, inputs + [send] + more, p.session, Sequence(p));
      }
      if !CanOutlast(t, p.session) { OutlastsNothing(limits, inputs, p, serializable, auth, more); }
    }
  }
}
