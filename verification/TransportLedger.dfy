/**
 The transport follows the laws of `SessionLedger` in every interleaving of sends, evictions,
 deliveries, retries, refusals and stops.
 */
module TransportLedger {
  import opened Wrappers
  import opened Capture
  import opened TransportModel
  import opened TransportShape
  import opened SessionLedger

  /** The sequence of the newest body of a session in a log, and 0 before the first. */
  function Top(bodies: seq<Payload>, session: string): (q: int)
    ensures 0 <= q
  {
    if bodies == [] then 0
    else
      var p := bodies[|bodies| - 1];
      if p.session == session && Sequence(p) > 0 then Sequence(p)
      else Top(bodies[..|bodies| - 1], session)
  }

  lemma TopAppend(bodies: seq<Payload>, p: Payload, session: string)
    ensures Top(bodies + [p], session)
         == if p.session == session && Sequence(p) > 0 then Sequence(p) else Top(bodies, session)
  {
    assert (bodies + [p])[..|bodies|] == bodies;
  }

  /** POSTed sequences of a session never go down. */
  ghost predicate NeverBack(posted: seq<Payload>, session: string) {
    posted == [] ||
    var p := posted[|posted| - 1];
    && NeverBack(posted[..|posted| - 1], session)
    && (p.session == session && Sequence(p) > 0 ==> Top(posted[..|posted| - 1], session) <= Sequence(p))
  }

  /** What an acknowledged body settles after the sequences acknowledged before it. */
  ghost predicate Settles(top: int, session: string, untracked: set<(string, int)>, p: Payload) {
    && top <= Sequence(p)
    && (forall q | top < q < Sequence(p) :: Covers(p.resync, q) || (session, q) in untracked)
    && (p.resync.Some? ==> top < p.resync.value.from <= p.resync.value.through < Sequence(p))
  }

  /** Acknowledged bodies and their declarations tile the session without overlap. */
  ghost predicate Tiled(accepted: seq<Payload>, session: string, untracked: set<(string, int)>) {
    accepted == [] ||
    var p := accepted[|accepted| - 1];
    && Tiled(accepted[..|accepted| - 1], session, untracked)
    && (p.session == session && Sequence(p) > 0 ==>
          Settles(Top(accepted[..|accepted| - 1], session), session, untracked, p))
  }

  function Of(session: string, p: Payload): seq<int> {
    if p.session == session && Sequence(p) > 0 then [Sequence(p)] else []
  }

  function Waiting(queue: seq<Queued>, session: string): seq<int> {
    if queue == [] then [] else Of(session, queue[0].payload) + Waiting(queue[1..], session)
  }

  lemma WaitingAppend(queue: seq<Queued>, last: Queued, session: string)
    ensures Waiting(queue + [last], session) == Waiting(queue, session) + Of(session, last.payload)
  {
    if queue == [] {
      assert queue + [last] == [last];
    } else {
      assert (queue + [last])[1..] == queue[1..] + [last];
      WaitingAppend(queue[1..], last, session);
    }
  }

  function Kept(t: Transport, session: string): seq<int> {
    if session in t.exact then Of(session, t.exact[session]) else []
  }

  function InHand(hand: Option<Payload>, session: string): seq<int> {
    if hand.Some? then Of(session, hand.value) else []
  }

  /** The live sequences of a session in the order the drain loop will reach them. */
  function Line(t: Transport, session: string, hand: Option<Payload>): seq<int> {
    Kept(t, session) + InHand(hand, session) + Waiting(t.queue, session)
  }

  function ViewOf(t: Transport, session: string): View {
    View(session, Top(t.log.accepted, session), Top(t.log.posted, session), Sent(t, session),
         session in t.log.replayed,
         if session in t.exact then Some(t.exact[session]) else None,
         if session in t.resync then Some(t.resync[session]) else None,
         t.log.untracked)
  }

  /** Only the transport declares missed ranges. */
  predicate Clean(p: Payload) {
    Sequence(p) > 0 ==> p.resync.None?
  }

  ghost predicate CleanQueue(queue: seq<Queued>) {
    forall i | 0 <= i < |queue| :: Clean(queue[i].payload)
  }

  ghost predicate Books(t: Transport, session: string) {
    NeverBack(t.log.posted, session) && Tiled(t.log.accepted, session, t.log.untracked)
  }

  /** The ledger of one session, `line` being its live sequences. */
  ghost predicate Balanced(t: Transport, session: string, line: seq<int>) {
    CleanQueue(t.queue) && Books(t, session) && Lawful(ViewOf(t, session), line)
  }

  ghost predicate Ledger(t: Transport, session: string, hand: Option<Payload>) {
    Balanced(t, session, Line(t, session, hand))
  }

  /** What the drain loop holds outside queue and ledger while it delivers. */
  function Hand(purpose: Purpose, p: Payload): Option<Payload> {
    match purpose
    case Fresh(_) => Some(p)
    case Ahead(next) => Some(next.payload)
    case IdleRetry(_) => None
  }

  ghost predicate HandReady(t: Transport, session: string, purpose: Purpose, p: Payload) {
    match purpose
    case Fresh(_) => p.session == session && Sequence(p) > 0 ==> Ready(ViewOf(t, session), p)
    case Ahead(next) => Clean(next.payload)
    case IdleRetry(_) => true
  }

  /** A delivery under way. */
  ghost predicate Going(t: Transport, session: string, purpose: Purpose, p: Payload) {
    Ledger(t, session, Hand(purpose, p)) && HandReady(t, session, purpose, p)
  }

  /** The ledger of a session in any state between two steps. */
  ghost predicate Sound(t: Transport, session: string) {
    if !t.drain.Busy? then Ledger(t, session, None)
    else
      var purpose, d := t.drain.purpose, t.drain.delivery;
      if purpose.Fresh? && (d.at == Returned(Retained) || d.at == Returned(Dropped))
      then Ledger(t, session, None)
      else Going(t, session, purpose, d.payload)
  }

  // ---- losing, accepting, posting --------------------------------------------------------

  lemma {:induction false} TiledGrows(accepted: seq<Payload>, session: string,
                                      a: set<(string, int)>, b: set<(string, int)>)
    requires Tiled(accepted, session, a) && a <= b
    ensures Tiled(accepted, session, b)
  {
    if accepted != [] {
      TiledGrows(accepted[..|accepted| - 1], session, a, b);
    }
  }

  lemma ViewAfterGiveUp(t: Transport, p: Payload, track: bool, session: string)
    ensures var v, v' := ViewOf(t, session), ViewOf(GiveUp(t, p, track), session);
            if Of(session, p) != [] then v' == Losing(v, p, track && Tracks(t, p))
            else v' == v.(untracked := v'.untracked) && v.untracked <= v'.untracked
  {
    hide Top, CanRemember;
  }

  /** Giving up `p`, wherever in line it stands, leaves the rest of the line accounted for. */
  lemma GiveUpBalanced(t: Transport, p: Payload, track: bool, session: string, a: seq<int>, b: seq<int>)
    requires Balanced(t, session, a + Of(session, p) + b)
    requires Of(session, p) != [] ==> Declares(ViewOf(t, session), p)
    ensures Balanced(GiveUp(t, p, track), session, a + b)
  {
    var v := ViewOf(t, session);
    ViewAfterGiveUp(t, p, track, session);
    TiledGrows(t.log.accepted, session, t.log.untracked, GiveUp(t, p, track).log.untracked);
    hide Lawful, Tiled, NeverBack, ViewOf, Losing;
    if Of(session, p) != [] {
      LosingLawful(v, a, p, b, track && Tracks(t, p));
    } else {
      assert a + Of(session, p) + b == a + b;
      MoreUntracked(v, GiveUp(t, p, track).log.untracked, a + b);
    }
  }

  lemma ForgetKept(v: View, live: seq<int>)
    requires Lawful(v, live)
    ensures Lawful(v.(kept := None), live)
  {
    var v' := v.(kept := None);
    assert forall a, b :: Below(v, a, b) == Below(v', a, b);
  }

  lemma AcceptView(t: Transport, p: Payload, session: string)
    requires p.session !in t.exact
    ensures ViewOf(Accept(t, p), session) ==
            if Of(session, p) != [] then AfterAccepting(ViewOf(t, session), Sequence(p)) else ViewOf(t, session)
  {
    TopAppend(t.log.accepted, p, session);
  }

  lemma AcceptTiled(t: Transport, p: Payload, session: string)
    requires Tiled(t.log.accepted, session, t.log.untracked)
    requires Of(session, p) != [] ==>
               Ready(ViewOf(t, session), p) && Top(t.log.accepted, session) <= Sequence(p)
    ensures Tiled(Accept(t, p).log.accepted, session, t.log.untracked)
  {
    assert Accept(t, p).log.accepted[..|t.log.accepted|] == t.log.accepted;
  }

  lemma AcceptBalanced(t: Transport, p: Payload, session: string, rest: seq<int>)
    requires Balanced(t, session, Of(session, p) + rest) && p.session !in t.exact
    requires Of(session, p) != [] ==> Ready(ViewOf(t, session), p)
    ensures Balanced(Accept(t, p), session, rest)
  {
    AcceptView(t, p, session);
    if Of(session, p) != [] {
      assert (Of(session, p) + rest)[0] == Sequence(p);
      AcceptingLawful(ViewOf(t, session), Sequence(p), rest);
      assert Top(t.log.accepted, session) <= Sequence(p) by { hide Accounted, Ready, Tiled, NeverBack; }
    } else {
      assert Of(session, p) + rest == rest;
    }
    hide Lawful, Ready, Tiled, NeverBack, ViewOf;
    AcceptTiled(t, p, session);
  }

  function Posting(t: Transport, p: Payload): Transport {
    t.(log := t.log.(posted := t.log.posted + [p]))
  }

  lemma PostBalanced(t: Transport, p: Payload, session: string, line: seq<int>)
    requires Balanced(t, session, line)
    requires Of(session, p) != [] ==> line != [] && line[0] == Sequence(p)
    ensures Balanced(Posting(t, p), session, line)
  {
    var v, t' := ViewOf(t, session), Posting(t, p);
    TopAppend(t.log.posted, p, session);
    assert t'.log.posted[..|t.log.posted|] == t.log.posted;
    if Of(session, p) != [] {
      PostingLawful(v, line);
      assert ViewOf(t', session) == v.(last := line[0]) by { hide Lawful, Tiled, NeverBack; }
    } else {
      assert ViewOf(t', session) == v by { hide Lawful, Tiled, NeverBack; }
    }
    hide Lawful, Tiled, ViewOf;
  }
}
