/**
 No drain is lost silently and none overtakes another: the ledger of every session survives
 every step, and the histories say what the server and the caller can rely on.
 */
module GapFree {
  import opened Wrappers
  import opened Capture
  import opened TransportModel
  import opened TransportShape
  import opened SessionLedger
  import opened TransportLedger
  import opened Sets

  // ---- one delivery ----------------------------------------------------------------------

  /** A fresh body is first in line: nothing of its session is retained. */
  lemma FreshLine(t: Transport, session: string, next: Queued, p: Payload)
    requires p.session !in t.exact
    ensures Line(t, session, Some(p)) == Kept(t, session) + Of(session, p) + Waiting(t.queue, session)
    ensures Of(session, p) != [] ==> Line(t, session, Some(p)) == Of(session, p) + Waiting(t.queue, session)
  {
  }

  /** A retained body is first in line. */
  lemma RetainedLine(t: Transport, session: string, p: Payload, hand: Option<Payload>)
    requires Retains(t.exact, p) && Sequence(p) > 0
    ensures Of(session, p) != [] ==>
              Line(t, session, hand) == Of(session, p) + (InHand(hand, session) + Waiting(t.queue, session))
  {
  }

  lemma FreshDropped(t: Transport, session: string, next: Queued, p: Payload)
    requires Going(t, session, Fresh(next), p) && p.session !in t.exact
    ensures Ledger(GiveUp(t, p, true), session, None)
  {
    hide Balanced, Ready, GiveUp, Waiting;
    FreshLine(t, session, next, p);
    assert Of(session, p) != [] ==> Declares(ViewOf(t, session), p) by { DeclaresWhenReady(t, session, p); }
    GiveUpBalanced(t, p, true, session, Kept(t, session), Waiting(t.queue, session));
    assert Line(GiveUp(t, p, true), session, None) == Kept(t, session) + Waiting(t.queue, session);
  }

  lemma DeclaresWhenReady(t: Transport, session: string, p: Payload)
    ensures Ready(ViewOf(t, session), p) ==> Declares(ViewOf(t, session), p)
  {
  }

  lemma KeptReady(t: Transport, session: string, line: seq<int>)
    requires Balanced(t, session, line) && session in t.exact
    ensures Ready(ViewOf(t, session), t.exact[session])
  {
  }

  lemma ForgetBalanced(t: Transport, session: string, gone: string, line: seq<int>)
    requires Balanced(t, session, line)
    ensures Balanced(t.(exact := t.exact - {gone}), session, line)
  {
    ForgetKept(ViewOf(t, session), line);
  }

  predicate Retry(purpose: Purpose) {
    !purpose.Fresh?
  }

  lemma RetryDropped(t: Transport, session: string, purpose: Purpose, p: Payload)
    requires Going(t, session, purpose, p) && Retry(purpose)
    requires Retains(t.exact, p) && Sequence(p) > 0
    ensures var t1 := GiveUp(t, p, true); Going(t1.(exact := t1.exact - {p.session}), session, purpose, p)
  {
    hide Balanced, Ready, GiveUp, Waiting;
    var hand := Hand(purpose, p);
    var rest := InHand(hand, session) + Waiting(t.queue, session);
    var t1 := GiveUp(t, p, true);
    var t2 := t1.(exact := t1.exact - {p.session});
    RetainedLine(t, session, p, hand);
    if Of(session, p) != [] {
      KeptReady(t, session, Line(t, session, hand));
      DeclaresWhenReady(t, session, p);
      assert Line(t, session, hand) == [] + Of(session, p) + rest;
      GiveUpBalanced(t, p, true, session, [], rest);
      assert [] + rest == rest;
      assert Line(t2, session, hand) == rest;
    } else {
      assert Line(t, session, hand) == Line(t, session, hand) + Of(session, p) + [];
      GiveUpBalanced(t, p, true, session, Line(t, session, hand), []);
      assert Line(t, session, hand) + [] == Line(t, session, hand);
      assert Line(t2, session, hand) == Line(t, session, hand);
    }
    ForgetBalanced(t1, session, p.session, Line(t2, session, hand));
  }

  lemma FreshRetained(t: Transport, session: string, next: Queued, p: Payload)
    requires Going(t, session, Fresh(next), p) && p.session !in t.exact
    ensures Ledger(t.(exact := t.exact[p.session := p]), session, None) || Sequence(p) == 0
  {
    var t' := t.(exact := t.exact[p.session := p]);
    FreshLine(t, session, next, p);
    if p.session == session && Sequence(p) > 0 {
      assert Line(t', session, None) == Line(t, session, Some(p));
      assert ViewOf(t', session) == ViewOf(t, session).(kept := Some(p));
      assert Lawful(ViewOf(t', session), Line(t', session, None)) by {
        KeepReady(ViewOf(t, session), p, Line(t, session, Some(p)));
      }
    } else if Sequence(p) > 0 {
      assert Line(t', session, None) == Line(t, session, Some(p));
      assert ViewOf(t', session) == ViewOf(t, session);
    }
  }

  lemma KeepReady(v: View, p: Payload, live: seq<int>)
    requires Lawful(v, live) && Ready(v, p)
    ensures Lawful(v.(kept := Some(p)), live)
  {
    var v' := v.(kept := Some(p));
    assert forall a, b :: Below(v, a, b) == Below(v', a, b);
  }

  lemma SameLedger(t: Transport, t': Transport, session: string, hand: Option<Payload>)
    requires Ledger(t, session, hand)
    requires t'.queue == t.queue && t'.exact == t.exact && t'.resync == t.resync
    requires t'.log == t.log.(retried := t'.log.retried, resolved := t'.log.resolved, issued := t'.log.issued)
    ensures Ledger(t', session, hand)
  {
    assert ViewOf(t', session) == ViewOf(t, session);
  }

  lemma RetainSound(t: Transport, session: string, purpose: Purpose, p: Payload, attempts: nat)
    requires Running(t, purpose, p, attempts) && Sequence(p) > 0 && Going(t, session, purpose, p)
    ensures Sound(RetainExactRetry(t, purpose, p, attempts), session)
  {
    hide Balanced, Ready, GiveUp, Waiting, Core, HoldsRest;
    var r := RetainExactRetry(t, purpose, p, attempts);
    var t1 := RememberExactRetry(t, p);
    SameLedger(t, t.(saturated := t1.saturated), session, Hand(purpose, p));
    match purpose {
      case Fresh(next) =>
        if Keeps(t, p) {
          FreshRetained(t, session, next, p);
          SameLedger(t.(exact := t.exact[p.session := p]), r, session, None);
        } else {
          SameReadyIfAny(t, t1, session, p);
          FreshDropped(t1, session, next, p);
          SameLedger(GiveUp(t1, p, true), r, session, None);
        }
      case Ahead(next) => SameLedger(t, r, session, Hand(purpose, p));
      case IdleRetry(_) => SameLedger(t, r, session, Hand(purpose, p));
    }
  }

  lemma SameReadyIfAny(t: Transport, t': Transport, session: string, p: Payload)
    requires t'.log.accepted == t.log.accepted && t'.log.untracked == t.log.untracked
    ensures Ready(ViewOf(t, session), p) ==> Ready(ViewOf(t', session), p)
  {
  }

  /** The end of a delivery that drops its body. */
  lemma DropSound(t: Transport, session: string, purpose: Purpose, p: Payload, attempts: nat)
    requires Running(t, purpose, p, attempts) && Going(t, session, purpose, p)
    ensures Sound(Fail(t, purpose, p, attempts, false), session)
  {
    hide Balanced, Ready, GiveUp, Waiting, HoldsRest, Within, RetriesOnce;
    var r := Fail(t, purpose, p, attempts, false);
    var t1 := GiveUp(t, p, true);
    match purpose {
      case Fresh(next) =>
        FreshDropped(t, session, next, p);
        SameLedger(t1, r, session, None);
      case Ahead(next) =>
        RetryDropped(t, session, purpose, p);
        SameLedger(t1.(exact := t1.exact - {p.session}), r, session, Hand(purpose, p));
      case IdleRetry(_) =>
        RetryDropped(t, session, purpose, p);
        SameLedger(t1.(exact := t1.exact - {p.session}), r, session, Hand(purpose, p));
    }
  }

  lemma FailSound(t: Transport, session: string, purpose: Purpose, p: Payload, attempts: nat, retryable: bool)
    requires Running(t, purpose, p, attempts) && Going(t, session, purpose, p)
    ensures Sound(Fail(t, purpose, p, attempts, retryable), session)
  {
    hide Going, Running, RetainExactRetry, GiveUp;
    if retryable && Sequence(p) > 0 {
      RetainSound(t, session, purpose, p, attempts);
    } else {
      DropSound(t, session, purpose, p, attempts);
    }
  }

  /** A blocked body without a sequence can only be a fresh one; it is dropped like any other. */
  lemma BlockSound(t: Transport, session: string, purpose: Purpose, p: Payload, attempts: nat)
    requires Running(t, purpose, p, attempts) && Going(t, session, purpose, p)
    ensures Sound(BlockForAuth(t, purpose, p, attempts), session)
  {
    hide Going, GiveUp, RetainExactRetry, HoldsRest, Within, RetriesOnce;
    if Sequence(p) > 0 {
      RetainSound(t, session, purpose, p, attempts);
    } else {
      DropSound(t, session, purpose, p, attempts);
      assert BlockForAuth(t, purpose, p, attempts) == Fail(t, purpose, p, attempts, false);
    }
  }

  lemma AttemptSound(t: Transport, session: string, purpose: Purpose, p: Payload, attempts: nat, auth: seq<bool>)
    requires Running(t, purpose, p, attempts) && Going(t, session, purpose, p)
    ensures Sound(Attempt(t, purpose, p, attempts, auth), session)
  {
    hide Balanced, Ready, Waiting, HoldsRest, Within, RetriesOnce, BlockForAuth;
    if !Current(auth) {
      BlockSound(t, session, purpose, p, attempts);
    } else {
      var hand := Hand(purpose, p);
      if purpose.Fresh? {
        FreshLine(t, session, purpose.next, p);
      } else {
        RetainedLine(t, session, p, hand);
      }
      PostBalanced(t, p, session, Line(t, session, hand));
      assert Line(Posting(t, p), session, hand) == Line(t, session, hand);
      SameReadyIfAny(t, Attempt(t, purpose, p, attempts, auth), session, p);
      SameLedger(Posting(t, p), Attempt(t, purpose, p, attempts, auth), session, hand);
    }
  }

  lemma StartRetrySound(t: Transport, session: string, purpose: Purpose, p: Payload, auth: seq<bool>)
    requires Core(t) && Retains(t.exact, p) && p.session !in t.attempted
    requires match purpose
             case Fresh(_) => false
             case Ahead(next) => next.payload.session == p.session
             case IdleRetry(rest) => HoldsRest(t.exact, t.attempted, p, rest)
    requires Going(t, session, purpose, p)
    ensures Sound(StartRetry(t, purpose, p, auth), session)
  {
    hide Balanced, Ready, Waiting, Within, Attempt;
    var t1 := t.(attempted := t.attempted + {p.session},
                 log := t.log.(retried := t.log.retried + [p.session]));
    assert forall s :: s in t1.log.retried <==> s in t.log.retried || s == p.session;
    assert RecoverySessions(t1) == RecoverySessions(t);
    SameLedger(t, t1, session, Hand(purpose, p));
    AttemptSound(t1, session, purpose, p, 0, auth);
  }

  lemma StartFreshSound(t: Transport, session: string, next: Queued, auth: seq<bool>)
    requires Core(t) && next.payload.session !in t.exact
    requires Ledger(t, session, Some(next.payload)) && Clean(next.payload)
    ensures Sound(StartFresh(t, next, auth), session)
  {
    hide Books, Ready, Waiting, Core, Attempt;
    var p := PrepareResync(t, next.payload);
    FreshLine(t, session, next, next.payload);
    if Of(session, next.payload) != [] {
      PreparingReady(ViewOf(t, session), next.payload, Waiting(t.queue, session));
      assert p == Preparing(ViewOf(t, session), next.payload);
    }
    assert Of(session, p) == Of(session, next.payload);
    AttemptSound(t, session, Fresh(next), p, 0, auth);
  }

  // ---- the drain loop --------------------------------------------------------------------

  /** Dropping `next` from in front of the line keeps the rest balanced. */
  lemma SkipBalanced(t: Transport, session: string, next: Queued, a: seq<int>, b: seq<int>)
    requires Balanced(t, session, a + Of(session, next.payload) + b) && Clean(next.payload)
    ensures Balanced(Skip(t, next), session, a + b)
  {
    hide Lawful, GiveUp, Books;
    GiveUpBalanced(t, next.payload, true, session, a, b);
    var t1 := GiveUp(t, next.payload, true);
    assert ViewOf(Skip(t, next), session) == ViewOf(t1, session);
    assert Books(Skip(t, next), session) by { SameBooks(t1, Skip(t, next), session); }
  }

  lemma SameBooks(t: Transport, t': Transport, session: string)
    requires Books(t, session) && t'.log == t.log.(resolved := t'.log.resolved)
    ensures Books(t', session)
  {
  }

  lemma SkipInHand(t: Transport, session: string, next: Queued)
    requires Ledger(t, session, Some(next.payload)) && Clean(next.payload)
    ensures Ledger(Skip(t, next), session, None)
  {
    hide Balanced, GiveUp, Waiting;
    SkipBalanced(t, session, next, Kept(t, session), Waiting(t.queue, session));
    assert Line(Skip(t, next), session, None) == Kept(t, session) + Waiting(t.queue, session);
  }

  /** Taking the first entry off the queue puts it in hand. */
  lemma PopLedger(t: Transport, session: string)
    requires Ledger(t, session, None) && t.queue != []
    ensures Ledger(t.(queue := t.queue[1..], drain := Idle), session, Some(t.queue[0].payload))
    ensures Clean(t.queue[0].payload)
  {
    hide Lawful, Books;
    var t1 := t.(queue := t.queue[1..], drain := Idle);
    assert Line(t1, session, Some(t.queue[0].payload)) == Line(t, session, None);
    assert ViewOf(t1, session) == ViewOf(t, session);
    assert Books(t1, session) by { SameBooks(t, t1, session); }
  }

  lemma {:induction false} PumpSound(t: Transport, session: string, auth: seq<bool>)
    requires Core(t) && Ledger(t, session, None)
    ensures Sound(Pump(t, auth), session)
    decreases |t.queue|
  {
    hide Core, Balanced, Waiting, GiveUp, StartFresh, StartRetry;
    if t.queue == [] {
      SameLedger(t, t.(drain := Idle), session, None);
    } else {
      var next := t.queue[0];
      var t1 := t.(queue := t.queue[1..], drain := Idle);
      PopKeeps(t);
      PopLedger(t, session);
      if !Current(auth) || Refused(t1, next.payload)
         || (next.payload.session in t1.exact && next.payload.session in t1.attempted) {
        SkipKeeps(t1, next);
        SkipInHand(t1, session, next);
        PumpSound(Skip(t1, next), session, Later(auth));
      } else if next.payload.session in t1.exact {
        AheadSound(t1, session, next, Later(auth));
      } else {
        StartFreshSound(t1, session, next, Later(auth));
      }
    }
  }

  lemma AheadSound(t: Transport, session: string, next: Queued, auth: seq<bool>)
    requires Core(t) && next.payload.session in t.exact && next.payload.session !in t.attempted
    requires Ledger(t, session, Some(next.payload)) && Clean(next.payload)
    ensures Sound(StartRetry(t, Ahead(next), t.exact[next.payload.session], auth), session)
  {
    StartRetrySound(t, session, Ahead(next), t.exact[next.payload.session], auth);
  }

  lemma ContinueSound(t: Transport, session: string, next: Queued, auth: seq<bool>)
    requires Core(t) && t.drain == Idle && next.payload.session !in t.exact
    requires Ledger(t, session, Some(next.payload)) && Clean(next.payload)
    ensures Sound(ContinueWith(t, next, auth), session)
  {
    hide Core, Balanced, Waiting, GiveUp, StartFresh, Pump;
    if Refused(t, next.payload) {
      SkipKeeps(t, next);
      SkipInHand(t, session, next);
      PumpSound(Skip(t, next), session, auth);
    } else {
      StartFreshSound(t, session, next, auth);
    }
  }

  lemma AcceptFresh(t: Transport, session: string, next: Queued, p: Payload)
    requires Going(t, session, Fresh(next), p) && p.session !in t.exact
    ensures Ledger(Accept(t, p), session, None)
  {
    hide Balanced, Ready, Waiting, ViewOf;
    FreshLine(t, session, next, p);
    var rest := if Of(session, p) != [] then Waiting(t.queue, session)
                else Kept(t, session) + Waiting(t.queue, session);
    assert Of(session, p) + rest == Line(t, session, Some(p));
    AcceptBalanced(t, p, session, rest);
    assert Line(Accept(t, p), session, None) == rest;
  }

  lemma AcceptRetry(t: Transport, session: string, purpose: Purpose, p: Payload)
    requires Going(t, session, purpose, p) && Retry(purpose)
    requires Retains(t.exact, p) && Sequence(p) > 0
    ensures Ledger(Accept(t.(exact := t.exact - {p.session}), p), session, Hand(purpose, p))
  {
    hide Balanced, Ready, Waiting, ViewOf;
    var hand := Hand(purpose, p);
    var t1 := t.(exact := t.exact - {p.session});
    RetainedLine(t, session, p, hand);
    var rest := if Of(session, p) != [] then InHand(hand, session) + Waiting(t.queue, session)
                else Line(t, session, hand);
    assert Of(session, p) + rest == Line(t, session, hand);
    if Of(session, p) != [] {
      KeptReady(t, session, Line(t, session, hand));
      SameReadyIfAny(t, t1, session, p);
    }
    ForgetBalanced(t, session, p.session, Line(t, session, hand));
    AcceptBalanced(t1, p, session, rest);
    assert Line(Accept(t1, p), session, hand) == rest;
  }

  lemma AfterFreshSound(t: Transport, session: string, next: Queued, p: Payload, outcome: Outcome, auth: seq<bool>)
    requires Core(t) && t.drain == Idle
    requires if outcome == Delivered then Going(t, session, Fresh(next), p) && p.session !in t.exact
             else Ledger(t, session, None)
    ensures Sound(AfterFresh(t, next, p, outcome, auth), session)
  {
    hide Within, Keyed, RetriesOnce, Size, Balanced, Waiting, Pump;
    var t1 := t;
    if outcome == Delivered {
      CoreAccept(t, p);
      AcceptFresh(t, session, next, p);
      t1 := Accept(t, p);
    }
    var t2 := Resolve(t1, next.id, outcome == Delivered);
    SameLedger(t1, t2, session, None);
    assert RecoverySessions(t2) == RecoverySessions(t1);
    PumpSound(t2, session, auth);
  }

  lemma AfterAheadSound(t: Transport, session: string, next: Queued, p: Payload, outcome: Outcome, auth: seq<bool>)
    requires Core(t) && t.drain == Idle && Holds(t.exact, t.attempted, Ahead(next), p, Returned(outcome))
    requires Going(t, session, Ahead(next), p)
    ensures Sound(AfterAhead(t, next, p, outcome, auth), session)
  {
    hide Within, RetriesOnce, Size, RecoverySessions, Balanced, Waiting, GiveUp, Pump, ContinueWith;
    if outcome == Delivered {
      ForgetAcceptKeeps(t, p, next.payload.session);
      AcceptRetry(t, session, Ahead(next), p);
      ContinueSound(Accept(t.(exact := t.exact - {next.payload.session}), p), session, next, auth);
    } else if next.payload.session in t.exact || t.saturated {
      SkipKeeps(t, next);
      SkipInHand(t, session, next);
      PumpSound(Skip(t, next), session, Later(auth));
    } else {
      ContinueSound(t, session, next, auth);
    }
  }

  lemma AfterIdleSound(t: Transport, session: string, rest: seq<Payload>, p: Payload, outcome: Outcome, auth: seq<bool>)
    requires Core(t) && t.drain == Idle && Holds(t.exact, t.attempted, IdleRetry(rest), p, Returned(outcome))
    requires Going(t, session, IdleRetry(rest), p)
    ensures Sound(AfterIdleRetry(t, rest, p, outcome, auth), session)
  {
    hide Within, RetriesOnce, Size, RecoverySessions, Balanced, Waiting, GiveUp, Pump, StartRetry;
    var t1 := t;
    if outcome == Delivered {
      ForgetAcceptKeeps(t, p, p.session);
      AcceptRetry(t, session, IdleRetry(rest), p);
      t1 := Accept(t.(exact := t.exact - {p.session}), p);
    }
    if rest == [] {
      PumpSound(t1, session, auth);
    } else {
      StartRetrySound(t1, session, IdleRetry(rest[1..]), rest[0], auth);
    }
  }

  lemma IdleView(t: Transport, session: string)
    requires Core(t)
    ensures Core(t.(drain := Idle))
    ensures forall hand | Ledger(t, session, hand) :: Ledger(t.(drain := Idle), session, hand)
    ensures forall purpose, p | Going(t, session, purpose, p) :: Going(t.(drain := Idle), session, purpose, p)
  {
    hide Lawful, Ready, Tiled, NeverBack;
    var idle := t.(drain := Idle);
    assert RecoverySessions(idle) == RecoverySessions(t);
    assert ViewOf(idle, session) == ViewOf(t, session);
    assert forall hand :: Line(idle, session, hand) == Line(t, session, hand);
  }

  lemma AfterDeliverySound(t: Transport, session: string, answer: Answer, auth: seq<bool>)
    requires Shape(t) && t.drain.Busy? && t.drain.delivery.at.Returned? && Sound(t, session)
    ensures Sound(Resume(t, answer, auth), session)
  {
    hide Core, Balanced, HandReady, HoldsRest, Going, Ledger, AfterFresh, AfterAhead, AfterIdleRetry;
    var purpose, d := t.drain.purpose, t.drain.delivery;
    var idle := t.(drain := Idle);
    IdleView(t, session);
    match purpose {
      case Fresh(next) => AfterFreshSound(idle, session, next, d.payload, d.at.outcome, auth);
      case Ahead(next) => AfterAheadSound(idle, session, next, d.payload, d.at.outcome, auth);
      case IdleRetry(rest) => AfterIdleSound(idle, session, rest, d.payload, d.at.outcome, auth);
    }
  }

  lemma SuspendSound(t: Transport, session: string, purpose: Purpose, p: Payload, attempts: nat, at: Point)
    requires Going(t, session, purpose, p) && at != Returned(Retained) && at != Returned(Dropped)
    ensures Sound(Suspend(t, purpose, p, attempts, at), session)
  {
    hide Balanced, Ready;
    var t' := Suspend(t, purpose, p, attempts, at);
    SameLedger(t, t', session, Hand(purpose, p));
    SameReadyIfAny(t, t', session, p);
  }

  lemma AfterPostSound(t: Transport, session: string, purpose: Purpose, d: Delivery, answer: Answer, auth: seq<bool>)
    requires Running(t, purpose, d.payload, d.attempts) && Going(t, session, purpose, d.payload)
    ensures Sound(AfterPost(t, purpose, d, answer, auth), session)
  {
    hide Running, Going, Sound, Fail, BlockForAuth, Suspend;
    if !Current(auth) {
      BlockSound(t, session, purpose, d.payload, d.attempts);
    } else if answer == Ok {
      SuspendSound(t, session, purpose, d.payload, d.attempts, AwaitBody);
    } else if answer == Permanent || d.attempts >= t.limits.maxAttempts {
      FailSound(t, session, purpose, d.payload, d.attempts, answer != Permanent);
    } else {
      SuspendSound(t, session, purpose, d.payload, d.attempts, AwaitSleep);
    }
  }

  lemma ResumeSound(t: Transport, session: string, answer: Answer, auth: seq<bool>)
    requires Shape(t) && t.drain.Busy? && !t.drain.delivery.at.Returned? && Sound(t, session)
    ensures Sound(Resume(t, answer, auth), session)
  {
    hide Core, HoldsRest, Going, AfterPost, BlockForAuth, Attempt, Suspend;
    var purpose, d := t.drain.purpose, t.drain.delivery;
    assert Running(t, purpose, d.payload, d.attempts);
    hide Holds, Sound;
    match d.at {
      case AwaitPost => AfterPostSound(t, session, purpose, d, answer, auth);
      case AwaitSleep => AttemptSound(t, session, purpose, d.payload, d.attempts, auth);
      case AwaitBody =>
        BlockSound(t, session, purpose, d.payload, d.attempts);
        SuspendSound(t, session, purpose, d.payload, d.attempts, AwaitObserver);
      case AwaitObserver => SuspendSound(t, session, purpose, d.payload, d.attempts, Returned(Delivered));
    }
  }

  // ---- sends and stops beside a running drain --------------------------------------------

  /** What the drain loop holds between steps. */
  function HandNow(t: Transport): Option<Payload> {
    if !t.drain.Busy? then None
    else
      var purpose, d := t.drain.purpose, t.drain.delivery;
      if purpose.Fresh? && (d.at == Returned(Retained) || d.at == Returned(Dropped)) then None
      else Hand(purpose, d.payload)
  }

  lemma SoundIsLedger(t: Transport, session: string)
    ensures Sound(t, session) ==> Ledger(t, session, HandNow(t))
  {
    hide Ledger, HandReady;
  }

  /** Whatever a bystander step does, the delivery under way keeps its promise. */
  lemma SoundBeside(t: Transport, t': Transport, session: string)
    requires Sound(t, session) && t'.drain == t.drain
    requires t'.log.accepted == t.log.accepted && t.log.untracked <= t'.log.untracked
    requires Ledger(t', session, HandNow(t'))
    ensures Sound(t', session)
  {
    hide Ledger;
  }

  lemma FirstInLine(kept: seq<int>, hand: seq<int>, first: seq<int>, waiting: seq<int>, tail: seq<int>)
    ensures (kept + hand + (first + waiting)) + tail == (kept + hand) + first + (waiting + tail)
    ensures (kept + hand + waiting) + tail == (kept + hand) + (waiting + tail)
  {
  }

  lemma PopBalanced(t: Transport, session: string, line: seq<int>)
    requires t.queue != [] && Balanced(t, session, line)
    ensures Balanced(t.(queue := t.queue[1..]), session, line) && Clean(t.queue[0].payload)
  {
    assert ViewOf(t.(queue := t.queue[1..]), session) == ViewOf(t, session);
  }

  lemma DropFirst(t: Transport, session: string, hand: Option<Payload>, tail: seq<int>)
    requires t.queue != [] && Balanced(t, session, Line(t, session, hand) + tail)
    ensures var t1 := Skip(t.(queue := t.queue[1..]), t.queue[0]);
            Balanced(t1, session, Line(t1, session, hand) + tail)
  {
    hide Balanced, GiveUp, Of, Clean;
    var kept, inHand := Kept(t, session), InHand(hand, session);
    var first, waiting := Of(session, t.queue[0].payload), Waiting(t.queue[1..], session);
    FirstInLine(kept, inHand, first, waiting, tail);
    PopBalanced(t, session, Line(t, session, hand) + tail);
    SkipBalanced(t.(queue := t.queue[1..]), session, t.queue[0], kept + inHand, waiting + tail);
  }

  lemma OverflowBalanced(t: Transport, session: string, line: seq<int>)
    requires Balanced(t, session, line)
    ensures Balanced(AsOverflow(t), session, line)
  {
    assert ViewOf(AsOverflow(t), session) == ViewOf(t, session);
  }

  lemma {:induction false} EvictBalanced(t: Transport, session: string, hand: Option<Payload>, tail: seq<int>)
    requires Balanced(t, session, Line(t, session, hand) + tail)
    ensures Balanced(Evict(t), session, Line(Evict(t), session, hand) + tail)
    decreases |t.queue|
  {
    hide Balanced, Waiting, GiveUp;
    if |t.queue| >= t.limits.maxQueued && t.queue != [] {
      DropFirst(t, session, hand, tail);
      var t1 := Skip(t.(queue := t.queue[1..]), t.queue[0]);
      OverflowBalanced(t1, session, Line(t1, session, hand) + tail);
      assert Line(AsOverflow(t1), session, hand) == Line(t1, session, hand);
      EvictBalanced(AsOverflow(t1), session, hand, tail);
    }
  }

  lemma {:induction false} AbandonLedger(t: Transport, session: string, hand: Option<Payload>)
    requires Ledger(t, session, hand)
    ensures Ledger(Abandon(t), session, hand)
    decreases |t.queue|
  {
    hide Balanced, Waiting, GiveUp;
    if t.queue != [] {
      assert Line(t, session, hand) + [] == Line(t, session, hand);
      DropFirst(t, session, hand, []);
      var t1 := Skip(t.(queue := t.queue[1..]), t.queue[0]);
      assert Line(t1, session, hand) + [] == Line(t1, session, hand);
      AbandonLedger(t1, session, hand);
    }
  }

  /**
   The recorder's discipline: drains of a session are numbered 1, 2, 3, ... and, once the
   recorder has finished, only the last one is sent again. Missed ranges are the transport's.
   */
  predicate Disciplined(t: Transport, input: Input) {
    input.Sending? && Sequence(input.payload) > 0 ==>
      && Clean(input.payload)
      && (Sequence(input.payload) == Sent(t, input.payload.session)
          || (Sequence(input.payload) == Sent(t, input.payload.session) + 1
              && input.payload.session !in t.log.replayed))
  }

  lemma NoteSentView(t: Transport, p: Payload, session: string)
    ensures var v := ViewOf(t, session);
            ViewOf(NoteSent(t, p), session) ==
            if Of(session, p) != [] then v.(sent := Sequence(p), replay := v.replay || Sequence(p) == v.sent) else v
  {
    hide Top;
  }

  lemma NoteSentBalanced(t: Transport, p: Payload, session: string, line: seq<int>)
    requires Balanced(t, session, line) && Disciplined(t, Sending(p, true, []))
    ensures Balanced(NoteSent(t, p), session, line + Of(session, p))
  {
    hide Lawful, Tiled, NeverBack, CleanQueue;
    NoteSentView(t, p, session);
    if Of(session, p) != [] {
      SendingLawful(ViewOf(t, session), line, Sequence(p));
    } else {
      assert line + Of(session, p) == line;
    }
  }

  lemma PushLedger(t: Transport, next: Queued, session: string, hand: Option<Payload>)
    requires Balanced(t, session, Line(t, session, hand) + Of(session, next.payload)) && Clean(next.payload)
    ensures Ledger(t.(queue := t.queue + [next]), session, hand)
  {
    hide Lawful, Books, Waiting;
    var t' := t.(queue := t.queue + [next]);
    WaitingAppend(t.queue, next, session);
    assert Line(t', session, hand) == Line(t, session, hand) + Of(session, next.payload);
    assert ViewOf(t', session) == ViewOf(t, session);
    assert Books(t', session) by { SameBooks(t, t', session); }
  }

  lemma EnqueueSound(t: Transport, p: Payload, session: string)
    requires Sound(t, session) && Disciplined(t, Sending(p, true, []))
    ensures Sound(Enqueue(t, p), session)
  {
    hide Balanced, Waiting, Ready, Evict, Of;
    SoundIsLedger(t, session);
    var hand := HandNow(t);
    var t1 := NoteSent(t, p);
    NoteSentBalanced(t, p, session, Line(t, session, hand));
    assert Line(t1, session, hand) == Line(t, session, hand);
    EvictBalanced(t1, session, hand, Of(session, p));
    CleanWhenDisciplined(t, p);
    PushLedger(Evict(t1), Queued(t.log.issued, p), session, hand);
    SoundBeside(t, Enqueue(t, p), session);
  }

  lemma CleanWhenDisciplined(t: Transport, p: Payload)
    requires Disciplined(t, Sending(p, true, []))
    ensures Clean(p)
  {
  }

  lemma RejectSound(t: Transport, p: Payload, session: string, track: bool)
    requires Sound(t, session) && Disciplined(t, Sending(p, true, []))
    ensures Sound(Resolve(GiveUp(NoteSent(t, p), p, track), t.log.issued, false), session)
  {
    hide Balanced, Waiting, Ready, GiveUp;
    SoundIsLedger(t, session);
    var hand, t1 := HandNow(t), NoteSent(t, p);
    var line := Line(t, session, hand);
    NoteSentBalanced(t, p, session, line);
    assert line + Of(session, p) == line + Of(session, p) + [] && line + [] == line;
    GiveUpBalanced(t1, p, track, session, line, []);
    var t2 := GiveUp(t1, p, track);
    assert Line(t2, session, hand) == line;
    SameLedger(t2, Resolve(t2, t.log.issued, false), session, hand);
    SoundBeside(t, Resolve(t2, t.log.issued, false), session);
  }

  lemma StartDrainSound(t: Transport, session: string, auth: seq<bool>)
    requires Shape(t) && Ledger(t, session, None)
    ensures Sound(StartDrain(t, auth), session)
  {
    hide Within, Keyed, Balanced, Waiting, Size, Pump;
    var t1 := t.(attempted := {}, log := t.log.(retried := []));
    assert RecoverySessions(t1) == RecoverySessions(t);
    SameLedger(t, t1, session, None);
    PumpSound(t1, session, auth);
    if Pump(t1, auth).drain == Idle {
      SameLedger(Pump(t1, auth), StartDrain(t, auth), session, None);
    }
  }

  lemma SendSound(t: Transport, p: Payload, serializable: bool, auth: seq<bool>, session: string)
    requires Shape(t) && Wakeful(t) && Sound(t, session) && Disciplined(t, Sending(p, serializable, auth))
    ensures Sound(Send(t, p, serializable, auth), session)
  {
    hide Core, Holds, Ledger, HandReady, GiveUp, StartDrain, Evict, Refused, Disciplined;
    assert Disciplined(t, Sending(p, true, [])) by { SameDiscipline(t, p, serializable, auth); }
    if Enters(t, p, serializable, auth) {
      EnqueueKeeps(t, p);
      EnqueueSound(t, p, session);
      if t.drain == Idle {
        StartDrainSound(Enqueue(t, p), session, Later(auth));
      }
    } else {
      RejectSound(t, p, session, t.stopped || Current(auth));
    }
  }

  lemma SameDiscipline(t: Transport, p: Payload, serializable: bool, auth: seq<bool>)
    ensures Disciplined(t, Sending(p, serializable, auth)) == Disciplined(t, Sending(p, true, []))
  {
  }

  lemma FlushSound(t: Transport, order: seq<string>, auth: seq<bool>, session: string)
    requires Shape(t) && Sound(t, session)
    ensures Sound(Flush(t, order, auth), session)
  {
    hide Within, Size, Balanced, Waiting, StartRetry, RetriesOnce, Enumerates;
    if t.drain == Idle && t.exact != map[] && t.queue == [] && Enumerates(order, t.exact.Keys) {
      var t1 := t.(attempted := {}, log := t.log.(retried := []));
      EnumerationIndexes(order, t.exact.Keys);
      assert t.exact.Keys != {};
      FlushHolds(t, order);
      var requests := Requests(t.exact, order);
      hide Keyed, HoldsRest, Core, Line;
      SameLedger(t, t1, session, None);
      StartRetrySound(t1, session, IdleRetry(requests[1..]), requests[0], auth);
    }
  }

  lemma StopSound(t: Transport, session: string)
    requires Sound(t, session)
    ensures Sound(Stop(t), session)
  {
    hide Balanced, Waiting, Ready, Abandon;
    if !t.stopped {
      SoundIsLedger(t, session);
      var t1 := t.(stopped := true);
      SameLedger(t, t1, session, HandNow(t));
      AbandonLedger(t1, session, HandNow(t));
      SoundBeside(t, Stop(t), session);
    }
  }

  lemma StepSound(t: Transport, input: Input, session: string)
    requires Shape(t) && Wakeful(t) && Sound(t, session) && Disciplined(t, input)
    ensures Sound(Step(t, input), session)
  {
    hide Shape, Sound, Send, Flush, Stop;
    match input {
      case Sending(p, serializable, auth) => SendSound(t, p, serializable, auth, session);
      case Resuming(answer, auth) =>
        if t.drain.Busy? && t.drain.delivery.at.Returned? {
          AfterDeliverySound(t, session, answer, auth);
        } else if t.drain.Busy? {
          ResumeSound(t, session, answer, auth);
        }
      case Flushing(order, auth) => FlushSound(t, order, auth, session);
      case Stopping => StopSound(t, session);
    }
  }

  /** Only sends change what the caller has sent. */
  lemma StepSent(t: Transport, input: Input)
    ensures input.Sending? ==>
              Step(t, input).log.sent == NoteSent(t, input.payload).log.sent
              && Step(t, input).log.replayed == NoteSent(t, input.payload).log.replayed
    ensures !input.Sending? ==>
              Step(t, input).log.sent == t.log.sent && Step(t, input).log.replayed == t.log.replayed
  {
    hide GiveUp, StartDrain, Evict, Resume, Flush, Stop, Refused;
  }

  /** Every input of the run respects the recorder's discipline at its point of the run. */
  predicate DisciplinedRun(limits: Limits, inputs: seq<Input>) {
    inputs == [] ||
    (var before := inputs[..|inputs| - 1];
     DisciplinedRun(limits, before) && Disciplined(Run(limits, before), inputs[|inputs| - 1]))
  }

  /** Over every disciplined run the ledger of every session stays sound. */
  lemma {:induction false} RunSound(limits: Limits, inputs: seq<Input>, session: string)
    requires limits.Positive() && DisciplinedRun(limits, inputs)
    ensures Sound(Run(limits, inputs), session)
  {
    if inputs != [] {
      var before := inputs[..|inputs| - 1];
      RunKeeps(limits, before);
      RunSound(limits, before, session);
      hide Shape, Sound, Step, Disciplined, Wakeful;
      StepSound(Run(limits, before), inputs[|inputs| - 1], session);
    }
  }
}
