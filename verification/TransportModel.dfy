/**
 The delivery protocol of `packages/browser/src/transport.ts` as a function of its inputs:
 one step runs from one `await` to the next. What the code cannot control is an input of the
 step: each reading of the host's authorization context (a list, current once it is used up),
 the server's answer, and the enumeration order of a map.
 */
module TransportModel {
  import opened Wrappers
  import opened Capture
  import opened Sets

  datatype Limits = Limits(maxQueued: nat, maxSessions: nat, maxAttempts: nat) {
    predicate Positive() {
      maxQueued >= 1 && maxSessions >= 1 && maxAttempts >= 1
    }
  }

  /** A waiting payload with the identity of the promise its `send` returned. */
  datatype Queued = Queued(id: nat, payload: Payload)

  /** Where a delivery is suspended, or how it ended before the drain loop looks at it. */
  datatype Point = AwaitPost | AwaitSleep | AwaitBody | AwaitObserver | Returned(outcome: Outcome)

  datatype Outcome = Delivered | Retained | Dropped

  datatype Delivery = Delivery(payload: Payload, attempts: nat, at: Point)

  /** Why the drain loop is delivering: a queue entry, the retained request ahead of one, or an idle retry. */
  datatype Purpose = Fresh(next: Queued) | Ahead(next: Queued) | IdleRetry(rest: seq<Payload>)

  /** `Stuck` is a `draining` field that holds a promise which has already completed. */
  datatype Drain = Idle | Stuck | Busy(purpose: Purpose, delivery: Delivery)

  datatype Resolution = Resolution(id: nat, delivered: bool)

  datatype Loss = Loss(payload: Payload, tracked: bool, overflow: bool)

  /** What happened so far. `sent` and `replayed` describe the caller, the rest the transport. */
  datatype History = History(
    issued: nat,
    posted: seq<Payload>,
    accepted: seq<Payload>,
    losses: seq<Loss>,
    resolved: seq<Resolution>,
    retried: seq<string>,
    untracked: set<(string, int)>,
    sent: map<string, int>,
    replayed: set<string>)

  datatype Transport = Transport(
    limits: Limits,
    queue: seq<Queued>,
    resync: map<string, Range>,
    exact: map<string, Payload>,
    saturated: bool,
    stopped: bool,
    drain: Drain,
    attempted: set<string>,
    log: History)

  function Init(limits: Limits): Transport {
    Transport(limits, [], map[], map[], false, false, Idle, {},
              History(0, [], [], [], [], [], {}, map[], {}))
  }

  // ---- readings of the authorization context --------------------------------------------

  function Current(auth: seq<bool>): bool {
    auth == [] || auth[0]
  }

  function Later(auth: seq<bool>): seq<bool> {
    if auth == [] then [] else auth[1..]
  }

  // ---- the recovery ledger ---------------------------------------------------------------

  predicate HasRecovery(t: Transport, session: string) {
    session in t.resync || session in t.exact
  }

  function RecoverySessions(t: Transport): set<string> {
    t.resync.Keys + t.exact.Keys
  }

  predicate Refused(t: Transport, p: Payload) {
    t.saturated && Sequence(p) > 0 && !HasRecovery(t, p.session)
  }

  function Min(a: int, b: int): int {
    if a <= b then a else b
  }

  function Max(a: int, b: int): int {
    if a <= b then b else a
  }

  /** The missed range after losing `p`, given what was already missed. */
  function Widened(resync: map<string, Range>, p: Payload): Range {
    var q := Sequence(p);
    var declared := if p.resync.Some? then p.resync.value.from else q;
    if p.session in resync
    then Range(Min(resync[p.session].from, declared), Max(resync[p.session].through, q))
    else Range(Min(q, declared), q)
  }

  predicate CanRemember(t: Transport, session: string) {
    HasRecovery(t, session) || (!t.saturated && Size(RecoverySessions(t)) < t.limits.maxSessions)
  }

  predicate Tracks(t: Transport, p: Payload) {
    Sequence(p) > 0 && CanRemember(t, p.session)
  }

  function RememberDroppedDrain(t: Transport, p: Payload): Transport {
    t.(resync := if Tracks(t, p) then t.resync[p.session := Widened(t.resync, p)] else t.resync,
       saturated := t.saturated || (Sequence(p) > 0 && !Tracks(t, p)))
  }

  function RememberExactRetry(t: Transport, p: Payload): Transport {
    t.(exact := if p.session !in t.exact && CanRemember(t, p.session) then t.exact[p.session := p] else t.exact,
       saturated := t.saturated || !CanRemember(t, p.session))
  }

  predicate Keeps(t: Transport, p: Payload) {
    if p.session in t.exact then t.exact[p.session] == p else CanRemember(t, p.session)
  }

  function PrepareResync(t: Transport, p: Payload): Payload {
    var q := Sequence(p);
    if q == 0 || p.session !in t.resync then p
    else
      var through := Min(t.resync[p.session].through, q - 1);
      if t.resync[p.session].from > through then p
      else p.(resync := Some(Range(t.resync[p.session].from, through)))
  }

  function Cleared(resync: map<string, Range>, p: Payload): map<string, Range> {
    var q := Sequence(p);
    if q == 0 || p.session !in resync || q < resync[p.session].from then resync
    else if q >= resync[p.session].through then resync - {p.session}
    else resync[p.session := Range(q + 1, resync[p.session].through)]
  }

  // ---- giving up, retaining, accepting ---------------------------------------------------

  function GiveUp(t: Transport, p: Payload, trackRecovery: bool): (r: Transport)
    ensures t.log.losses <= r.log.losses
    ensures r == t.(resync := r.resync, saturated := r.saturated, log := r.log)
    ensures r.log == t.log.(losses := r.log.losses, untracked := r.log.untracked)
    ensures t.log.untracked <= r.log.untracked
  {
    var tracked := trackRecovery && Tracks(t, p);
    var untracked := if Sequence(p) > 0 && !tracked then {(p.session, Sequence(p))} else {};
    var remembered := RememberDroppedDrain(t, p);
    t.(resync := if trackRecovery then remembered.resync else t.resync,
       saturated := if trackRecovery then remembered.saturated else t.saturated,
       log := t.log.(losses := t.log.losses + [Loss(p, tracked, false)],
                     untracked := t.log.untracked + untracked))
  }

  function Resolve(t: Transport, id: nat, delivered: bool): Transport {
    t.(log := t.log.(resolved := t.log.resolved + [Resolution(id, delivered)]))
  }

  function Accept(t: Transport, p: Payload): Transport {
    t.(resync := Cleared(t.resync, p), log := t.log.(accepted := t.log.accepted + [p]))
  }

  function Suspend(t: Transport, purpose: Purpose, p: Payload, attempts: nat, at: Point): Transport {
    t.(drain := Busy(purpose, Delivery(p, attempts, at)))
  }

  /** Keep the request for an exact retry, or give it up when nothing can be kept. */
  function RetainExactRetry(t: Transport, purpose: Purpose, p: Payload, attempts: nat): (r: Transport)
    ensures t.log.losses <= r.log.losses
    ensures r.log.issued == t.log.issued && r.log.sent == t.log.sent && r.log.replayed == t.log.replayed
    ensures r.log.posted == t.log.posted
    ensures r.drain.Busy? && r.drain.purpose == purpose
    ensures r == t.(resync := r.resync, exact := r.exact, saturated := r.saturated, drain := r.drain, log := r.log)
  {
    if Keeps(t, p)
    then Suspend(RememberExactRetry(t, p), purpose, p, attempts, Returned(Retained))
    else Suspend(GiveUp(RememberExactRetry(t, p), p, true), purpose, p, attempts, Returned(Dropped))
  }

  function BlockForAuth(t: Transport, purpose: Purpose, p: Payload, attempts: nat): (r: Transport)
    ensures t.log.losses <= r.log.losses
    ensures r.log.issued == t.log.issued && r.log.sent == t.log.sent && r.log.replayed == t.log.replayed
    ensures r.log.posted == t.log.posted
    ensures r.drain.Busy? && r.drain.purpose == purpose
    ensures r == t.(resync := r.resync, exact := r.exact, saturated := r.saturated, drain := r.drain, log := r.log)
  {
    if Sequence(p) > 0
    then RetainExactRetry(t, purpose, p, attempts)
    else Suspend(GiveUp(t, p, true), purpose, p, attempts, Returned(Dropped))
  }

  /** The end of a delivery whose attempts are used up or whose answer is permanent. */
  function Fail(t: Transport, purpose: Purpose, p: Payload, attempts: nat, retryable: bool): (r: Transport)
    ensures t.log.losses <= r.log.losses
    ensures r.log.issued == t.log.issued && r.log.sent == t.log.sent && r.log.replayed == t.log.replayed
    ensures r.log.posted == t.log.posted
    ensures r.drain.Busy? && r.drain.purpose == purpose
    ensures r == t.(resync := r.resync, exact := r.exact, saturated := r.saturated, drain := r.drain, log := r.log)
  {
    if retryable && Sequence(p) > 0
    then RetainExactRetry(t, purpose, p, attempts)
    else
      var wasExact := p.session in t.exact && t.exact[p.session].sequence == p.sequence;
      var t1 := GiveUp(t, p, true);
      var t2 := t1.(exact := if wasExact then t1.exact - {p.session} else t1.exact);
      Suspend(t2, purpose, p, attempts, Returned(Dropped))
  }

  /** A step POSTs at most one body, and that body is then in flight. */
  predicate PostsOne(t: Transport, r: Transport) {
    r.log.posted == t.log.posted ||
    (&& r.drain.Busy? && r.drain.delivery.at == AwaitPost
     && r.log.posted == t.log.posted + [r.drain.delivery.payload])
  }

  /** The head of the attempt loop: check the context, then POST. */
  function Attempt(t: Transport, purpose: Purpose, p: Payload, attempts: nat, auth: seq<bool>): (r: Transport)
    ensures t.log.losses <= r.log.losses
    ensures r.log.issued == t.log.issued && r.log.sent == t.log.sent && r.log.replayed == t.log.replayed
    ensures PostsOne(t, r)
    ensures r.drain.Busy? && r.drain.purpose == purpose
    ensures r == t.(resync := r.resync, exact := r.exact, saturated := r.saturated, drain := r.drain, log := r.log)
  {
    if !Current(auth) then BlockForAuth(t, purpose, p, attempts)
    else
      var t1 := t.(log := t.log.(posted := t.log.posted + [p]));
      Suspend(t1, purpose, p, attempts + 1, AwaitPost)
  }

  function StartRetry(t: Transport, purpose: Purpose, p: Payload, auth: seq<bool>): (r: Transport)
    ensures t.log.losses <= r.log.losses
    ensures r.log.issued == t.log.issued && r.log.sent == t.log.sent && r.log.replayed == t.log.replayed
    ensures PostsOne(t, r)
    ensures r.limits == t.limits
  {
    var t1 := t.(attempted := t.attempted + {p.session},
                 log := t.log.(retried := t.log.retried + [p.session]));
    Attempt(t1, purpose, p, 0, auth)
  }

  // ---- the drain loop --------------------------------------------------------------------

  /** Deliver a queue entry that no retained request precedes, or refuse it. */
  function StartFresh(t: Transport, next: Queued, auth: seq<bool>): (r: Transport)
    ensures t.log.losses <= r.log.losses
    ensures r.log.issued == t.log.issued && r.log.sent == t.log.sent && r.log.replayed == t.log.replayed
    ensures PostsOne(t, r)
    ensures r.limits == t.limits
  {
    Attempt(t, Fresh(next), PrepareResync(t, next.payload), 0, auth)
  }

  function Skip(t: Transport, next: Queued): Transport {
    Resolve(GiveUp(t, next.payload, true), next.id, false)
  }

  /** Work through the queue until a delivery suspends or nothing is left. */
  function Pump(t: Transport, auth: seq<bool>): (r: Transport)
    ensures t.log.losses <= r.log.losses
    ensures r.log.issued == t.log.issued && r.log.sent == t.log.sent && r.log.replayed == t.log.replayed
    ensures PostsOne(t, r)
    ensures r.limits == t.limits
    decreases |t.queue|
  {
    if t.queue == [] then t.(drain := Idle)
    else
      var next := t.queue[0];
      var t1 := t.(queue := t.queue[1..], drain := Idle);
      if !Current(auth) || Refused(t1, next.payload) then
        Pump(Skip(t1, next), Later(auth))
      else if next.payload.session in t1.exact then
        if next.payload.session in t1.attempted
        then Pump(Skip(t1, next), Later(auth))
        else StartRetry(t1, Ahead(next), t1.exact[next.payload.session], Later(auth))
      else StartFresh(t1, next, Later(auth))
  }

  /** A fresh drain run that completes before its promise is stored leaves the field stuck. */
  function StartDrain(t: Transport, auth: seq<bool>): (r: Transport)
    ensures t.log.losses <= r.log.losses
    ensures r.log.issued == t.log.issued && r.log.sent == t.log.sent && r.log.replayed == t.log.replayed
    ensures PostsOne(t, r)
    ensures r.limits == t.limits
  {
    var t1 := Pump(t.(attempted := {}, log := t.log.(retried := [])), auth);
    if t1.drain == Idle then t1.(drain := Stuck) else t1
  }

  function AfterAhead(t: Transport, next: Queued, p: Payload, outcome: Outcome, auth: seq<bool>): (r: Transport)
    ensures t.log.losses <= r.log.losses
    ensures r.log.issued == t.log.issued && r.log.sent == t.log.sent && r.log.replayed == t.log.replayed
    ensures PostsOne(t, r)
    ensures r.limits == t.limits
  {
    if outcome == Delivered then
      var t1 := Accept(t.(exact := t.exact - {next.payload.session}), p);
      ContinueWith(t1, next, auth)
    else if next.payload.session in t.exact || t.saturated then
      Pump(Skip(t, next), Later(auth))
    else ContinueWith(t, next, auth)
  }

  function ContinueWith(t: Transport, next: Queued, auth: seq<bool>): (r: Transport)
    ensures t.log.losses <= r.log.losses
    ensures r.log.issued == t.log.issued && r.log.sent == t.log.sent && r.log.replayed == t.log.replayed
    ensures PostsOne(t, r)
    ensures r.limits == t.limits
  {
    if Refused(t, next.payload) then Pump(Skip(t, next), auth) else StartFresh(t, next, auth)
  }

  function AfterFresh(t: Transport, next: Queued, p: Payload, outcome: Outcome, auth: seq<bool>): (r: Transport)
    ensures t.log.losses <= r.log.losses
    ensures r.log.issued == t.log.issued && r.log.sent == t.log.sent && r.log.replayed == t.log.replayed
    ensures PostsOne(t, r)
    ensures r.limits == t.limits
  {
    var t1 := if outcome == Delivered then Accept(t, p) else t;
    Pump(Resolve(t1, next.id, outcome == Delivered), auth)
  }

  function AfterIdleRetry(t: Transport, rest: seq<Payload>, p: Payload, outcome: Outcome,
          auth: seq<bool>): (r: Transport)
    ensures t.log.losses <= r.log.losses
    ensures r.log.issued == t.log.issued && r.log.sent == t.log.sent && r.log.replayed == t.log.replayed
    ensures PostsOne(t, r)
    ensures r.limits == t.limits
  {
    var t1 := if outcome == Delivered then Accept(t.(exact := t.exact - {p.session}), p) else t;
    if rest == [] then Pump(t1, auth) else StartRetry(t1, IdleRetry(rest[1..]), rest[0], auth)
  }

  function AfterDelivery(t: Transport, purpose: Purpose, p: Payload, outcome: Outcome, auth: seq<bool>): (r: Transport)
    ensures t.log.losses <= r.log.losses
    ensures r.log.issued == t.log.issued && r.log.sent == t.log.sent && r.log.replayed == t.log.replayed
    ensures PostsOne(t, r)
    ensures r.limits == t.limits
  {
    match purpose
    case Fresh(next) => AfterFresh(t, next, p, outcome, auth)
    case Ahead(next) => AfterAhead(t, next, p, outcome, auth)
    case IdleRetry(rest) => AfterIdleRetry(t, rest, p, outcome, auth)
  }

  // ---- the steps -------------------------------------------------------------------------

  datatype Answer = Ok | Retryable | Permanent | Thrown

  function AfterPost(t: Transport, purpose: Purpose, d: Delivery, answer: Answer, auth: seq<bool>): (r: Transport)
    ensures t.log.losses <= r.log.losses
    ensures r.log.issued == t.log.issued && r.log.sent == t.log.sent && r.log.replayed == t.log.replayed
    ensures PostsOne(t, r)
    ensures r.limits == t.limits
  {
    if !Current(auth) then BlockForAuth(t, purpose, d.payload, d.attempts)
    else if answer == Ok then Suspend(t, purpose, d.payload, d.attempts, AwaitBody)
    else if answer == Permanent || d.attempts >= t.limits.maxAttempts
    then Fail(t, purpose, d.payload, d.attempts, answer != Permanent)
    else Suspend(t, purpose, d.payload, d.attempts, AwaitSleep)
  }

  /** Continue the suspended drain run from the `await` it is at. */
  function Resume(t: Transport, answer: Answer, auth: seq<bool>): (r: Transport)
    ensures t.log.losses <= r.log.losses
    ensures r.log.issued == t.log.issued && r.log.sent == t.log.sent && r.log.replayed == t.log.replayed
    ensures PostsOne(t, r)
    ensures r.limits == t.limits
  {
    if !t.drain.Busy? then t
    else
      var purpose, d := t.drain.purpose, t.drain.delivery;
      match d.at
      case AwaitPost => AfterPost(t, purpose, d, answer, auth)
      case AwaitSleep => Attempt(t, purpose, d.payload, d.attempts, auth)
      case AwaitBody =>
        if !Current(auth) then BlockForAuth(t, purpose, d.payload, d.attempts)
        else Suspend(t, purpose, d.payload, d.attempts, AwaitObserver)
      case AwaitObserver => Suspend(t, purpose, d.payload, d.attempts, Returned(Delivered))
      case Returned(outcome) => AfterDelivery(t.(drain := Idle), purpose, d.payload, outcome, auth)
  }

  /** The newest loss is reported as a queue overflow. */
  function AsOverflow(t: Transport): Transport {
    var losses := t.log.losses;
    if losses == [] then t
    else t.(log := t.log.(losses := losses[|losses| - 1 := losses[|losses| - 1].(overflow := true)]))
  }

  /** Overflow drops the oldest waiting payloads. */
  function Evict(t: Transport): (r: Transport)
    ensures t.log.losses <= r.log.losses
    ensures r.log.issued == t.log.issued && r.log.sent == t.log.sent && r.log.replayed == t.log.replayed
    ensures r.log.posted == t.log.posted
    ensures r.limits == t.limits
    ensures r.drain == t.drain && r.exact == t.exact
    ensures r.log.accepted == t.log.accepted && t.log.untracked <= r.log.untracked
    decreases |t.queue|
  {
    if |t.queue| < t.limits.maxQueued || t.queue == [] then t
    else Evict(AsOverflow(Skip(t.(queue := t.queue[1..]), t.queue[0])))
  }

  /** The caller's side of a send: which sequences it has sent and which it repeats. */
  function NoteSent(t: Transport, p: Payload): (r: Transport)
    ensures r == t.(log := r.log)
    ensures r.log == t.log.(issued := t.log.issued + 1, sent := r.log.sent, replayed := r.log.replayed)
  {
    var q := Sequence(p);
    var log := t.log.(issued := t.log.issued + 1);
    if q == 0 then t.(log := log)
    else if q == Sent(t, p.session) then t.(log := log.(replayed := log.replayed + {p.session}))
    else t.(log := log.(sent := log.sent[p.session := q]))
  }

  function Sent(t: Transport, session: string): int {
    if session in t.log.sent then t.log.sent[session] else 0
  }

  function Reject(t: Transport, p: Payload, trackRecovery: bool): (r: Transport)
    ensures t.log.losses <= r.log.losses
    ensures r.log.posted == t.log.posted && r.log.issued == t.log.issued + 1 && r.limits == t.limits
    ensures r.queue == t.queue && r.drain == t.drain
  {
    Resolve(GiveUp(NoteSent(t, p), p, trackRecovery), t.log.issued, false)
  }

  function Enqueue(t: Transport, p: Payload): (r: Transport)
    ensures t.log.losses <= r.log.losses
    ensures r.log.posted == t.log.posted && r.log.issued == t.log.issued + 1 && r.limits == t.limits
    ensures r.drain == t.drain
  {
    var evicted := Evict(NoteSent(t, p));
    evicted.(queue := evicted.queue + [Queued(t.log.issued, p)])
  }

  /** `auth[0]` is the reading `send` itself makes; the rest belongs to a drain run it starts. */
  function Send(t: Transport, p: Payload, serializable: bool, auth: seq<bool>): (r: Transport)
    ensures t.log.losses <= r.log.losses
    ensures PostsOne(t, r) && r.log.issued == t.log.issued + 1 && r.limits == t.limits
  {
    if t.stopped then Reject(t, p, true)
    else if !Current(auth) then Reject(t, p, false)
    else if Refused(t, p) || !serializable then Reject(t, p, true)
    else if t.drain == Idle then StartDrain(Enqueue(t, p), Later(auth))
    else Enqueue(t, p)
  }

  function Abandon(t: Transport): (r: Transport)
    ensures t.log.losses <= r.log.losses
    ensures r.log.issued == t.log.issued && r.log.sent == t.log.sent && r.log.replayed == t.log.replayed
    ensures r.log.posted == t.log.posted
    ensures r.limits == t.limits
    ensures r.drain == t.drain && r.exact == t.exact
    ensures r.log.accepted == t.log.accepted && t.log.untracked <= r.log.untracked
    decreases |t.queue|
  {
    if t.queue == [] then t else Abandon(Skip(t.(queue := t.queue[1..]), t.queue[0]))
  }

  function Stop(t: Transport): (r: Transport)
    ensures t.log.losses <= r.log.losses
    ensures r.log.issued == t.log.issued && r.log.sent == t.log.sent && r.log.replayed == t.log.replayed
    ensures PostsOne(t, r)
    ensures r.limits == t.limits
  {
    if t.stopped then t else Abandon(t.(stopped := true))
  }

  predicate Enumerates(order: seq<string>, keys: set<string>) {
    && (set s | s in order) == keys
    && forall i, j :: 0 <= i < j < |order| ==> order[i] != order[j]
  }

  /** The retained requests in a given enumeration order of their sessions. */
  function Requests(exact: map<string, Payload>, order: seq<string>): (requests: seq<Payload>)
    requires forall i | 0 <= i < |order| :: order[i] in exact
    ensures |requests| == |order| && forall i | 0 <= i < |order| :: requests[i] == exact[order[i]]
  {
    seq(|order|, i requires 0 <= i < |order| => exact[order[i]])
  }

  lemma EnumerationIndexes(order: seq<string>, keys: set<string>)
    requires Enumerates(order, keys)
    ensures forall i | 0 <= i < |order| :: order[i] in keys
    ensures keys != {} ==> order != []
  {
    forall i | 0 <= i < |order| ensures order[i] in keys {
      assert order[i] in order;
    }
    if keys != {} {
      var s :| s in keys;
      assert s in order;
    }
  }

  /** `flush` reaching its own drain run: retry every retained request once. */
  function Flush(t: Transport, order: seq<string>, auth: seq<bool>): (r: Transport)
    ensures t.log.losses <= r.log.losses
    ensures r.log.issued == t.log.issued && r.log.sent == t.log.sent && r.log.replayed == t.log.replayed
    ensures PostsOne(t, r)
    ensures r.limits == t.limits
  {
    if t.drain != Idle || t.exact == map[] || t.queue != [] || !Enumerates(order, t.exact.Keys) then t
    else
      EnumerationIndexes(order, t.exact.Keys);
      var t1 := t.(attempted := {}, log := t.log.(retried := []));
      var requests := Requests(t.exact, order);
      assert t.exact.Keys != {};
      StartRetry(t1, IdleRetry(requests[1..]), requests[0], auth)
  }

  datatype Input =
    | Sending(payload: Payload, serializable: bool, auth: seq<bool>)
    | Resuming(answer: Answer, auth: seq<bool>)
    | Flushing(order: seq<string>, auth: seq<bool>)
    | Stopping

  function Step(t: Transport, input: Input): (r: Transport)
    ensures t.log.losses <= r.log.losses
    ensures PostsOne(t, r)
    ensures r.limits == t.limits
  {
    match input
    case Sending(p, serializable, auth) => Send(t, p, serializable, auth)
    case Resuming(answer, auth) => Resume(t, answer, auth)
    case Flushing(order, auth) => Flush(t, order, auth)
    case Stopping => Stop(t)
  }

  function Run(limits: Limits, inputs: seq<Input>): Transport {
    if inputs == [] then Init(limits)
    else Step(Run(limits, inputs[..|inputs| - 1]), inputs[|inputs| - 1])
  }
}
