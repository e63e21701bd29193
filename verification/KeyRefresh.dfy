/**
 The rate-limited key refresh of the hosted token verifier, under every interleaving of its
 request threads. A step is one lock section, one clock reading or one network exchange.
 */
module KeyRefresh {
  import opened Wrappers

  const CACHE_SECONDS: real := 300.0
  const COOLDOWN_SECONDS: real := 30.0

  type Keys = map<string, string>

  /** A key set, the clock when its exchange was answered, and the clock reading that followed. */
  datatype Fetched = Fetched(keys: Keys, completed: real, stamp: real)

  datatype Outcome =
    | Key(key: string, from: Fetched, readAt: real)
    | Unavailable
    | UnknownKey(readAt: real)

  /** Where a request stands; `readAt` is the clock value it acts on. */
  datatype Phase =
    | Arrived(readAt: real)
    | Missed(readAt: real, keysAreFresh: bool)
    | Holding(readAt: real)
    | Rechecking(readAt: real)
    | Exchanging(readAt: real)
    | Received(readAt: real, keys: Keys, completed: real)
    | Stamped(readAt: real, fetched: Fetched)
    | Releasing(outcome: Outcome)
    | Settled(outcome: Outcome)

  datatype Request = Request(keyId: string, phase: Phase)

  /** `admissions` are the clock values at which a refresh was admitted, in order. */
  datatype Verifier = Verifier(
    clock: real,
    cache: Fetched,
    keysExpireAt: real,
    nextRefreshAt: real,
    refreshing: Option<int>,
    requests: map<int, Request>,
    admissions: seq<real>)

  function Init(clock: real): Verifier {
    Verifier(clock, Fetched(map[], 0.0, 0.0), 0.0, 0.0, None, map[], [])
  }

  /** The exchange answers with a key set, or fails. */
  datatype Event =
    | Begin(id: int, keyId: string)
    | Proceed(id: int, reply: Option<Keys>)
    | Elapse(seconds: real)

  /** What a lock section over the cache decides for a request. */
  datatype Decision = Hit(outcome: Outcome) | Cooling(outcome: Outcome) | Admit

  function Consult(v: Verifier, keyId: string, now: real): Decision {
    var current := now < v.keysExpireAt;
    if current && keyId in v.cache.keys then Hit(Key(v.cache.keys[keyId], v.cache, now))
    else if now < v.nextRefreshAt then Cooling(if current then UnknownKey(now) else Unavailable)
    else Admit
  }

  function SetPhase(v: Verifier, id: int, phase: Phase): Verifier
    requires id in v.requests
  {
    v.(requests := v.requests[id := v.requests[id].(phase := phase)])
  }

  /** One step of one request. */
  function Advance(v: Verifier, id: int, reply: Option<Keys>): Verifier
    requires id in v.requests
  {
    var keyId := v.requests[id].keyId;
    match v.requests[id].phase
    case Arrived(now) =>
      (match Consult(v, keyId, now)
       case Hit(outcome) => SetPhase(v, id, Settled(outcome))
       case Cooling(outcome) => SetPhase(v, id, Settled(outcome))
       case Admit => SetPhase(v, id, Missed(now, now < v.keysExpireAt)))
    case Missed(now, current) =>
      if v.refreshing.Some? then SetPhase(v, id, Settled(if current then UnknownKey(now) else Unavailable))
      else SetPhase(v, id, Holding(now)).(refreshing := Some(id))
    case Holding(_) => SetPhase(v, id, Rechecking(v.clock))
    case Rechecking(now) =>
      (match Consult(v, keyId, now)
       case Hit(outcome) => SetPhase(v, id, Releasing(outcome))
       case Cooling(outcome) => SetPhase(v, id, Releasing(outcome))
       case Admit =>
         SetPhase(v, id, Exchanging(now)).(nextRefreshAt := now + COOLDOWN_SECONDS, admissions := v.admissions + [now]))
    case Exchanging(now) =>
      SetPhase(v, id, if reply.Some? then Received(now, reply.value, v.clock) else Releasing(Unavailable))
    case Received(now, keys, completed) => SetPhase(v, id, Stamped(now, Fetched(keys, completed, v.clock)))
    case Stamped(now, fetched) =>
      SetPhase(v, id, Releasing(if keyId in fetched.keys then Key(fetched.keys[keyId], fetched,
          now) else UnknownKey(now)))
      .(cache := fetched, keysExpireAt := fetched.stamp + CACHE_SECONDS,
        nextRefreshAt := fetched.stamp + COOLDOWN_SECONDS)
    case Releasing(outcome) => SetPhase(v, id, Settled(outcome)).(refreshing := None)
    case Settled(_) => v
  }

  /** Requests begin by reading the clock, which never runs backwards. */
  function Step(v: Verifier, event: Event): Verifier {
    match event
    case Begin(id, keyId) =>
      if id in v.requests then v else v.(requests := v.requests[id := Request(keyId, Arrived(v.clock))])
    case Proceed(id, reply) => if id in v.requests then Advance(v, id, reply) else v
    case Elapse(seconds) => if seconds >= 0.0 then v.(clock := v.clock + seconds) else v
  }

  function Run(start: real, events: seq<Event>): Verifier {
    if events == [] then Init(start) else Step(Run(start, events[..|events| - 1]), events[|events| - 1])
  }

  // ---------------------------------------------------------------- the invariant

  /** The phases between taking the refresh lock and giving it back. */
  predicate Inside(phase: Phase) {
    phase.Holding? || phase.Rechecking? || phase.Exchanging? || phase.Received? || phase.Stamped? || phase.Releasing?
  }

  /** The lock's holder is the one request inside. */
  predicate Exclusive(v: Verifier) {
    && (v.refreshing.Some? ==> v.refreshing.value in v.requests)
    && forall id <- v.requests :: Inside(v.requests[id].phase) <==> v.refreshing == Some(id)
  }

  predicate Spaced(admissions: seq<real>) {
    forall i :: 0 < i < |admissions| ==> admissions[i - 1] + COOLDOWN_SECONDS <= admissions[i]
  }

  /** The cooldown covers the last admission; a refresh under way is the last one admitted. */
  predicate Cooled(v: Verifier) {
    && Spaced(v.admissions)
    && (v.admissions != [] ==> v.admissions[|v.admissions| - 1] + COOLDOWN_SECONDS <= v.nextRefreshAt)
    && forall id <- v.requests :: Admitted(v, v.requests[id].phase)
  }

  predicate Admitted(v: Verifier, phase: Phase) {
    match phase
    case Exchanging(now) => Latest(v, now)
    case Received(now, _, _) => Latest(v, now)
    case Stamped(now, fetched) => Latest(v, now) && now <= fetched.stamp
    case _ => true
  }

  predicate Latest(v: Verifier, now: real) {
    v.admissions != [] && v.admissions[|v.admissions| - 1] == now <= v.clock
  }

  predicate Fresh(outcome: Outcome, keyId: string) {
    outcome.Key? ==>
      keyId in outcome.from.keys && outcome.from.keys[keyId] == outcome.key
      && outcome.readAt < outcome.from.stamp + CACHE_SECONDS && outcome.from.completed <= outcome.from.stamp
  }

  /** Every request acts on a past clock value, and every key given out was fresh at it. */
  predicate Honest(v: Verifier, r: Request) {
    match r.phase
    case Releasing(outcome) => Fresh(outcome, r.keyId)
    case Settled(outcome) => Fresh(outcome, r.keyId)
    case Received(now, _, completed) => now <= v.clock && completed <= v.clock
    case Stamped(now, fetched) => now <= v.clock && fetched.completed <= fetched.stamp <= v.clock
    case _ => r.phase.readAt <= v.clock
  }

  predicate Sound(v: Verifier) {
    && 0.0 <= v.clock
    && (v.cache.keys != map[] ==> v.keysExpireAt == v.cache.stamp + CACHE_SECONDS)
    && v.cache.completed <= v.cache.stamp
    && forall id <- v.requests :: Honest(v, v.requests[id])
  }

  ghost predicate Invariant(v: Verifier) {
    Exclusive(v) && Cooled(v) && Sound(v)
  }

  lemma AdvanceExclusive(v: Verifier, id: int, reply: Option<Keys>)
    requires Exclusive(v) && id in v.requests
    ensures Exclusive(Advance(v, id, reply))
  {
    hide Consult;
  }

  lemma AdvanceCooled(v: Verifier, id: int, reply: Option<Keys>)
    requires Exclusive(v) && Cooled(v) && Sound(v) && id in v.requests
    ensures Cooled(Advance(v, id, reply))
  {
    hide Honest;
    var phase, r := v.requests[id].phase, Advance(v, id, reply);
    assert Admitted(v, phase) && (phase.Rechecking? ==> phase.readAt <= v.clock) by { ReadEarlier(v, id); }
    forall other <- r.requests ensures Admitted(r, r.requests[other].phase) {
      if other != id {
        assert Admitted(v, v.requests[other].phase);
        assert Inside(phase) ==> !Inside(v.requests[other].phase);
      }
    }
  }

  lemma ReadEarlier(v: Verifier, id: int)
    requires Sound(v) && id in v.requests
    ensures var phase := v.requests[id].phase; !phase.Releasing? && !phase.Settled? ==> phase.readAt <= v.clock
  {
    assert Honest(v, v.requests[id]);
  }

  lemma AdvanceSound(v: Verifier, id: int, reply: Option<Keys>)
    requires Cooled(v) && Sound(v) && id in v.requests
    ensures Sound(Advance(v, id, reply))
  {
    var phase := v.requests[id].phase;
    assert Admitted(v, phase) && Honest(v, v.requests[id]);
  }

  lemma StepKeeps(v: Verifier, event: Event)
    requires Invariant(v)
    ensures Invariant(Step(v, event))
  {
    hide Advance;
    if event.Proceed? && event.id in v.requests {
      AdvanceExclusive(v, event.id, event.reply);
      AdvanceCooled(v, event.id, event.reply);
      AdvanceSound(v, event.id, event.reply);
    } else {
      var r := Step(v, event);
      forall id <- r.requests
        ensures Admitted(r, r.requests[id].phase) && Honest(r, r.requests[id])
        ensures Inside(r.requests[id].phase) <==> r.refreshing == Some(id)
      {
        if id in v.requests {
          assert r.requests[id] == v.requests[id];
          assert Admitted(v, v.requests[id].phase) && Honest(v, v.requests[id]);
        }
      }
    }
  }

  lemma {:induction false} RunKeeps(start: real, events: seq<Event>)
    requires start >= 0.0
    ensures Invariant(Run(start, events))
  {
    hide Step;
    if events != [] {
      RunKeeps(start, events[..|events| - 1]);
      hide Invariant;
      StepKeeps(Run(start, events[..|events| - 1]), events[|events| - 1]);
    }
  }

  // ---------------------------------------------------------------- the guarantees

  /** At most one refresh is under way. */
  lemma OneRefreshAtATime(start: real, events: seq<Event>, id: int, other: int)
    requires start >= 0.0
    requires var v := Run(start, events);
      id in v.requests && other in v.requests
      && Inside(v.requests[id].phase) && Inside(v.requests[other].phase)
    ensures id == other
  {
    RunKeeps(start, events);
  }

  lemma {:induction false} SpacedSpan(admissions: seq<real>, i: nat, j: nat)
    requires Spaced(admissions) && i <= j < |admissions|
    ensures admissions[j] - admissions[i] >= COOLDOWN_SECONDS * (j - i) as real
  {
    if i < j {
      SpacedSpan(admissions, i, j - 1);
      assert (j - i) as real == (j - 1 - i) as real + 1.0;
    }
  }

  /** A window of `span` seconds admits at most one refresh for each full cooldown it holds, and one more. */
  lemma AdmissionRate(start: real, events: seq<Event>, i: nat, j: nat, span: real)
    requires start >= 0.0
    requires var a := Run(start, events).admissions; i <= j < |a| && a[j] - a[i] <= span
    ensures j - i + 1 <= (span / COOLDOWN_SECONDS).Floor + 1
  {
    RunKeeps(start, events);
    SpacedSpan(Run(start, events).admissions, i, j);
    assert (j - i) as real <= span / COOLDOWN_SECONDS;
  }

  /**
   A key that a request is given belongs to its key id, in a set whose exchange was answered less than
   300 s before the clock value the request acted on, plus the time from the answer to its stamp.
   */
  lemma ReturnedKeysAreFresh(start: real, events: seq<Event>, id: int)
    requires start >= 0.0 && id in Run(start, events).requests
    ensures var r := Run(start, events).requests[id];
      r.phase.Settled? && r.phase.outcome.Key? ==>
        var o := r.phase.outcome;
        && r.keyId in o.from.keys && o.from.keys[r.keyId] == o.key
        && o.from.completed <= o.from.stamp
        && o.readAt < o.from.completed + CACHE_SECONDS + (o.from.stamp - o.from.completed)
  {
    RunKeeps(start, events);
    assert Honest(Run(start, events), Run(start, events).requests[id]);
  }

  lemma RunSplit(start: real, events: seq<Event>, event: Event)
    ensures Run(start, events + [event]) == Step(Run(start, events), event)
  {
    assert (events + [event])[..|events|] == events;
  }

  /** Some request is given a key of the set 300 s or more after the set's exchange was answered. */
  ghost predicate AgesOut(start: real, events: seq<Event>, from: Fetched) {
    exists id :: id in Run(start, events).requests && Aged(Run(start, events).requests[id], from)
  }

  predicate Aged(r: Request, from: Fetched) {
    && r.phase.Settled? && r.phase.outcome.Key? && r.phase.outcome.from == from
    && r.phase.outcome.readAt >= from.completed + CACHE_SECONDS
  }

  /**
   From every reachable state with a usable cached key: a request can still be given a key 300 s or
   more after the fetch completed if and only if the thread was suspended between answer and stamp.
   `id` is any request not begun yet.
   */
  lemma AgesOutExactly(start: real, events: seq<Event>, keyId: string, id: int)
    requires start >= 0.0
    requires var v := Run(start, events);
      keyId in v.cache.keys && v.clock < v.keysExpireAt && id !in v.requests
    ensures (exists more :: AgesOut(start, events + more, Run(start, events).cache))
      <==> Run(start, events).cache.completed < Run(start, events).cache.stamp
  {
    var v := Run(start, events);
    RunKeeps(start, events);
    if more :| AgesOut(start, events + more, v.cache) {
      var other :| other in Run(start, events + more).requests
          && Aged(Run(start, events + more).requests[other], v.cache);
      ReturnedKeysAreFresh(start, events + more, other);
    }
    if v.cache.completed < v.cache.stamp { WaitAndAsk(start, events, keyId, id); }
  }

  /** Waiting until 300 s after the answer, and asking then. */
  lemma WaitAndAsk(start: real, events: seq<Event>, keyId: string, id: int)
    requires start >= 0.0
    requires var v := Run(start, events);
      && keyId in v.cache.keys && v.clock < v.keysExpireAt && id !in v.requests
      && v.cache.completed < v.cache.stamp && v.keysExpireAt == v.cache.stamp + CACHE_SECONDS
    ensures exists more :: AgesOut(start, events + more, Run(start, events).cache)
  {
    var v := Run(start, events);
    var due := v.cache.completed + CACHE_SECONDS;
    var wait := if v.clock < due then due - v.clock else 0.0;
    var first := events + [Elapse(wait)];
    var second := first + [Begin(id, keyId)];
    RunSplit(start, events, Elapse(wait));
    RunSplit(start, first, Begin(id, keyId));
    RunSplit(start, second, Proceed(id, None));
    assert second + [Proceed(id, None)] == events + [Elapse(wait), Begin(id, keyId), Proceed(id, None)];
    hide Run;
    assert Aged(Run(start, second + [Proceed(id, None)]).requests[id], v.cache);
    assert AgesOut(start, events + [Elapse(wait), Begin(id, keyId), Proceed(id, None)], v.cache);
  }

  /** Every refresh under way can be suspended so: its exchange answered now, its set stamped `delay` later. */
  lemma SuspensionDelaysStamp(start: real, events: seq<Event>, id: int, keys: Keys, delay: real)
    requires delay > 0.0
    requires var v := Run(start, events); id in v.requests && v.requests[id].phase.Exchanging?
    ensures var v := Run(start, events);
      var w := Run(start, events + [Proceed(id, Some(keys))] + [Elapse(delay)] + [Proceed(id, None)]
          + [Proceed(id, None)]);
      && w.cache == Fetched(keys, v.clock, v.clock + delay) && w.clock < w.keysExpireAt
      && w.requests.Keys == v.requests.Keys
  {
    var a := events + [Proceed(id, Some(keys))];
    var b := a + [Elapse(delay)];
    var c := b + [Proceed(id, None)];
    RunSplit(start, events, Proceed(id, Some(keys)));
    RunSplit(start, a, Elapse(delay));
    RunSplit(start, b, Proceed(id, None));
    RunSplit(start, c, Proceed(id, None));
  }

  /** The first request of a fresh verifier brings its refresh under way. */
  lemma FirstRefresh(start: real, keyId: string)
    requires start >= 0.0
    ensures var p := Proceed(0, None);
      var v := Run(start, [Begin(0, keyId)] + [p] + [p] + [p] + [p]);
      v.clock == start && v.requests == map[0 := Request(keyId, Exchanging(start))]
  {
    var p, a := Proceed(0, None), [Begin(0, keyId)];
    RunSplit(start, [], Begin(0, keyId));
    assert [] + [Begin(0, keyId)] == a;
    RunSplit(start, a, p);
    RunSplit(start, a + [p], p);
    RunSplit(start, a + [p] + [p], p);
    RunSplit(start, a + [p] + [p] + [p], p);
  }

  /** So from any start, and for any delay, a run gives a request a key 300 s or more after its set was answered. */
  lemma KeysAgeOut(start: real, keyId: string, keys: Keys, delay: real) returns (events: seq<Event>)
    requires start >= 0.0 && keyId in keys && delay > 0.0
    ensures AgesOut(start, events, Fetched(keys, start, start + delay))
  {
    hide Run, AgesOut;
    var p := Proceed(0, None);
    var begun := [Begin(0, keyId)] + [p] + [p] + [p] + [p];
    FirstRefresh(start, keyId);
    SuspensionDelaysStamp(start, begun, 0, keys, delay);
    var stamped := begun + [Proceed(0, Some(keys))] + [Elapse(delay)] + [p] + [p];
    AgesOutExactly(start, stamped, keyId, 1);
    var more :| AgesOut(start, stamped + more, Run(start, stamped).cache);
    events := stamped + more;
  }

  /** How many steps of its own a request still needs. */
  function Remaining(phase: Phase): nat {
    match phase
    case Arrived(_) => 8
    case Missed(_, _) => 7
    case Holding(_) => 6
    case Rechecking(_) => 5
    case Exchanging(_) => 4
    case Received(_, _, _) => 3
    case Stamped(_, _) => 2
    case Releasing(_) => 1
    case Settled(_) => 0
  }

  /**
   No request ever waits for another one: each step of its own brings it closer to settled, and others leave
   it alone.
   */
  lemma RequestsNeverWait(v: Verifier, event: Event, id: int)
    requires id in v.requests
    ensures var r := Step(v, event);
      && id in r.requests && r.requests[id].keyId == v.requests[id].keyId
      && (if event.Proceed? && event.id == id && !v.requests[id].phase.Settled?
          then Remaining(r.requests[id].phase) < Remaining(v.requests[id].phase)
          else r.requests[id] == v.requests[id])
  {
    hide Consult;
  }

  /** Other events leave a request where it is. */
  lemma {:induction false} StaysArrived(start: real, events: seq<Event>, others: seq<Event>, id: int)
    requires id in Run(start, events).requests
    requires forall e <- others :: !(e.Proceed? && e.id == id)
    ensures id in Run(start, events + others).requests
    ensures Run(start, events + others).requests[id] == Run(start, events).requests[id]
  {
    hide Step;
    if others == [] {
      assert events + others == events;
    } else {
      var n := |others| - 1;
      StaysArrived(start, events, others[..n], id);
      assert events + others == events + others[..n] + [others[n]];
      RunSplit(start, events + others[..n], others[n]);
      RequestsNeverWait(Run(start, events + others[..n]), others[n], id);
    }
  }

  /**
   A key that is fresh in the cache when its request begins is returned by the request's first step,
   whatever the other threads do in between, as long as they do not install another set.
   */
  lemma CachedKeyAtOnce(start: real, events: seq<Event>, others: seq<Event>, id: int, keyId: string,
          reply: Option<Keys>)
    requires var v := Run(start, events);
      id !in v.requests && keyId in v.cache.keys && v.clock < v.keysExpireAt
    requires forall e <- others :: !(e.Proceed? && e.id == id)
    requires var v, w := Run(start, events), Run(start, events + [Begin(id, keyId)] + others);
      w.cache == v.cache && w.keysExpireAt == v.keysExpireAt
    ensures var v := Run(start, events);
      var w := Run(start, events + [Begin(id, keyId)] + others + [Proceed(id, reply)]);
      id in w.requests
      && w.requests[id] == Request(keyId, Settled(Key(v.cache.keys[keyId], v.cache, v.clock)))
  {
    var begun := events + [Begin(id, keyId)];
    RunSplit(start, events, Begin(id, keyId));
    StaysArrived(start, begun, others, id);
    RunSplit(start, begun + others, Proceed(id, reply));
  }

  // ---------------------------------------------------------------- what a request is told

  /** A usable cached key settles a request; without one it is refused inside the cooldown and let on outside it. */
  ghost predicate Told(v: Verifier, r: Verifier, id: int, now: real, inside: bool)
    requires id in v.requests
  {
    && r.requests.Keys == v.requests.Keys
    && var keyId, phase := v.requests[id].keyId, r.requests[id].phase;
      if keyId in v.cache.keys && now < v.keysExpireAt then
        phase == Ended(Key(v.cache.keys[keyId], v.cache, now), inside) && Same(v, r)
      else if now < v.nextRefreshAt then
        phase == Ended(if now < v.keysExpireAt then UnknownKey(now) else Unavailable, inside) && Same(v, r)
      else if inside then
        phase == Exchanging(now)
        && r.admissions == v.admissions + [now] && r.nextRefreshAt == now + 30.0
        && r.cache == v.cache && r.keysExpireAt == v.keysExpireAt
      else
        phase == Missed(now, now < v.keysExpireAt) && Same(v, r)
  }

  /** Inside the refresh section a request has to give the lock back before it is settled. */
  function Ended(outcome: Outcome, inside: bool): Phase {
    if inside then Releasing(outcome) else Settled(outcome)
  }

  predicate Same(v: Verifier, r: Verifier) {
    r.cache == v.cache && r.keysExpireAt == v.keysExpireAt && r.nextRefreshAt == v.nextRefreshAt
    && r.admissions == v.admissions
  }

  /**
   What the next step of a request comes to, wherever it stands: what it finds in the cache, whether it
   gets the refresh lock, what the exchange answers and what it installs.
   */
  lemma StepTells(v: Verifier, id: int, reply: Option<Keys>)
    requires id in v.requests
    ensures var r := Step(v, Proceed(id, reply));
      r.clock == v.clock && id in r.requests &&
      var keyId, phase := v.requests[id].keyId, r.requests[id].phase;
      match v.requests[id].phase
      case Arrived(now) => Told(v, r, id, now, false) && r.refreshing == v.refreshing
      case Missed(now, current) =>
        if v.refreshing.Some? then
          phase == Settled(if current then UnknownKey(now) else Unavailable) && r.refreshing == v.refreshing
        else phase == Holding(now) && r.refreshing == Some(id)
      case Holding(_) => phase == Rechecking(v.clock)
      case Rechecking(now) => Told(v, r, id, now, true) && r.refreshing == v.refreshing
      case Exchanging(now) =>
        phase == if reply.Some? then Received(now, reply.value, v.clock) else Releasing(Unavailable)
      case Received(now, keys, completed) => phase == Stamped(now, Fetched(keys, completed, v.clock))
      case Stamped(now, fetched) =>
        && phase == Releasing(if keyId in fetched.keys then Key(fetched.keys[keyId], fetched, now) else UnknownKey(now))
        && r.cache == fetched
        && r.keysExpireAt == fetched.stamp + 300.0 && r.nextRefreshAt == fetched.stamp + 30.0
      case Releasing(outcome) => phase == Settled(outcome) && r.refreshing.None?
      case Settled(outcome) => phase == Settled(outcome) && r == v
  {
  }

  /** How many steps of its own a request takes. */
  function OwnSteps(events: seq<Event>, id: int): nat {
    if events == [] then 0
    else
      OwnSteps(events[..|events| - 1], id)
      + if events[|events| - 1].Proceed? && events[|events| - 1].id == id then 1 else 0
  }

  /** Where a request stands `steps` steps of its own after its exchange was answered. */
  predicate Underway(phase: Phase, steps: nat, keyId: string, keys: Keys, now: real, completed: real) {
    if steps == 0 then phase == Received(now, keys, completed)
    else if steps == 1 then
      phase.Stamped? && phase.readAt == now && phase.fetched.keys == keys && phase.fetched.completed == completed
    else if steps == 2 then phase.Releasing? && Answers(phase.outcome, keyId, keys, now, completed)
    else phase.Settled? && Answers(phase.outcome, keyId, keys, now, completed)
  }

  /** The key of the answered set, if it is there, and a refusal that says so if it is not. */
  predicate Answers(outcome: Outcome, keyId: string, keys: Keys, now: real, completed: real) {
    if keyId in keys then
      outcome.Key? && outcome.key == keys[keyId] && outcome.readAt == now
      && outcome.from.keys == keys && outcome.from.completed == completed
    else outcome == UnknownKey(now)
  }

  lemma {:induction false} RefreshGoesOn(start: real, events: seq<Event>, more: seq<Event>, id: int, keys: Keys,
          now: real, completed: real)
    requires var v := Run(start, events);
      id in v.requests && v.requests[id].phase == Received(now, keys, completed)
    ensures var v, w := Run(start, events), Run(start, events + more);
      && id in w.requests && w.requests[id].keyId == v.requests[id].keyId
      && Underway(w.requests[id].phase, OwnSteps(more, id), w.requests[id].keyId, keys, now, completed)
    decreases |more|
  {
    hide Step, Run;
    if more == [] {
      assert events + more == events;
    } else {
      var n := |more| - 1;
      RefreshGoesOn(start, events, more[..n], id, keys, now, completed);
      assert events + more == events + more[..n] + [more[n]];
      RunSplit(start, events + more[..n], more[n]);
      RequestsNeverWait(Run(start, events + more[..n]), more[n], id);
      if more[n].Proceed? && more[n].id == id { StepTells(Run(start, events + more[..n]), id, more[n].reply); }
    }
  }

  /**
   A refresh answers its own request: once its exchange is answered with a key set, three more steps of
   its own settle it with the key of that set if it is there, and as an unknown key exactly if it is not,
   whatever the other threads do in between. A failed exchange settles it as unavailable.
   */
  lemma RefreshAnswers(start: real, events: seq<Event>, more: seq<Event>, id: int, reply: Option<Keys>)
    requires var v := Run(start, events); id in v.requests && v.requests[id].phase.Exchanging?
    requires OwnSteps(more, id) >= if reply.Some? then 3 else 1
    ensures var v, w := Run(start, events), Run(start, events + [Proceed(id, reply)] + more);
      && id in w.requests && w.requests[id].keyId == v.requests[id].keyId && w.requests[id].phase.Settled?
      && var outcome := w.requests[id].phase.outcome;
         if reply.Some? then Answers(outcome, v.requests[id].keyId, reply.value, v.requests[id].phase.readAt, v.clock)
         else outcome == Unavailable
  {
    var v := Run(start, events);
    RunSplit(start, events, Proceed(id, reply));
    StepTells(v, id, reply);
    RequestsNeverWait(v, Proceed(id, reply), id);
    hide Step, Run;
    if reply.Some? {
      RefreshGoesOn(start, events + [Proceed(id, reply)], more, id, reply.value, v.requests[id].phase.readAt, v.clock);
    } else {
      ReleaseGoesOn(start, events + [Proceed(id, reply)], more, id, Unavailable);
    }
  }

  lemma {:induction false} ReleaseGoesOn(start: real, events: seq<Event>, more: seq<Event>, id: int, outcome: Outcome)
    requires var v := Run(start, events); id in v.requests && v.requests[id].phase == Releasing(outcome)
    ensures var v, w := Run(start, events), Run(start, events + more);
      && id in w.requests && w.requests[id].keyId == v.requests[id].keyId
      && w.requests[id].phase == if OwnSteps(more, id) == 0 then Releasing(outcome) else Settled(outcome)
    decreases |more|
  {
    hide Step, Run;
    if more == [] {
      assert events + more == events;
    } else {
      var n := |more| - 1;
      ReleaseGoesOn(start, events, more[..n], id, outcome);
      assert events + more == events + more[..n] + [more[n]];
      RunSplit(start, events + more[..n], more[n]);
      RequestsNeverWait(Run(start, events + more[..n]), more[n], id);
      if more[n].Proceed? && more[n].id == id { StepTells(Run(start, events + more[..n]), id, more[n].reply); }
    }
  }
}
