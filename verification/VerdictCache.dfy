/**
 The credential verdict cache: a bounded, expiring, least-recently-used memory, compared with a
 plain log of what was asked of it. `now` is read outside the lock, so it need not be monotonic.
 */
module VerdictCache {
  import opened Wrappers
  import opened Sets

  datatype Entry = Entry(digest: string, keyId: string, expiresAt: int)

  /** What a caller did, and for a lookup what it was told. */
  datatype Event =
    | Looked(digest: string, now: int, answer: Option<string>)
    | Remembered(digest: string, keyId: string, expiresAt: int)
    | Forgotten(digest: string)

  // ---------------------------------------------------------------- the cache

  /** The position of a digest, and the length when it is absent. */
  function Find(entries: seq<Entry>, digest: string): (i: nat)
    ensures i <= |entries|
    ensures i < |entries| ==> entries[i].digest == digest
    ensures forall j :: 0 <= j < i ==> entries[j].digest != digest
  {
    if entries == [] then 0
    else if entries[0].digest == digest then 0
    else Find(entries[1..], digest) + 1
  }

  function Without(entries: seq<Entry>, digest: string): seq<Entry> {
    var i := Find(entries, digest);
    if i == |entries| then entries else entries[..i] + entries[i + 1..]
  }

  function Lookup(entries: seq<Entry>, digest: string, now: int): (seq<Entry>, Option<string>) {
    var i := Find(entries, digest);
    if i == |entries| then (entries, None)
    else if now >= entries[i].expiresAt then (Without(entries, digest), None)
    else (Without(entries, digest) + [entries[i]], Some(entries[i].keyId))
  }

  function Trim(entries: seq<Entry>, capacity: nat): seq<Entry> {
    if |entries| > capacity then entries[|entries| - capacity..] else entries
  }

  function Insert(entries: seq<Entry>, e: Entry, capacity: nat): seq<Entry> {
    Trim(Without(entries, e.digest) + [e], capacity)
  }

  /** Dropping the oldest entry of an overfull cache does not change what trimming leaves. */
  lemma TrimOldest(entries: seq<Entry>, capacity: nat)
    requires |entries| > capacity
    ensures Trim(entries[1..], capacity) == Trim(entries, capacity)
  {
  }

  lemma TrimDone(entries: seq<Entry>, capacity: nat)
    requires |entries| <= capacity
    ensures Trim(entries, capacity) == entries
  {
  }

  class CredentialVerdictCache {
    const capacity: nat
    const ttlNano: int
    var entries: seq<Entry>

    constructor (capacity: nat, ttlNano: int)
      requires capacity >= 1
      ensures entries == [] && this.capacity == capacity && this.ttlNano == ttlNano
    {
      this.capacity := capacity;
      this.ttlNano := ttlNano;
      entries := [];
    }

    method Verdict(digest: string, now: int) returns (keyId: Option<string>)
      modifies this
      ensures (entries, keyId) == Lookup(old(entries), digest, now)
    {
      var i := Find(entries, digest);
      if i == |entries| {
        return None;
      }
      var e := entries[i];
      if now >= e.expiresAt {
        entries := entries[..i] + entries[i + 1..];
        return None;
      }
      entries := entries[..i] + entries[i + 1..] + [e];
      return Some(e.keyId);
    }

    method Remember(digest: string, keyId: string, now: int)
      modifies this
      ensures entries == Insert(old(entries), Entry(digest, keyId, now + ttlNano), capacity)
    {
      hide Trim;
      var expiresAt := now + ttlNano;
      var i := Find(entries, digest);
      if i < |entries| {
        entries := entries[..i] + entries[i + 1..];
      }
      entries := entries + [Entry(digest, keyId, expiresAt)];
      while |entries| > capacity
        invariant Trim(entries, capacity) == Insert(old(entries), Entry(digest, keyId, expiresAt), capacity)
      {
        TrimOldest(entries, capacity);
        entries := entries[1..];
      }
      TrimDone(entries, capacity);
    }

    method Forget(digest: string)
      modifies this
      ensures entries == Without(old(entries), digest)
    {
      var i := Find(entries, digest);
      if i < |entries| {
        entries := entries[..i] + entries[i + 1..];
      }
    }
  }

  // ---------------------------------------------------------------- the plain log

  /** What one event makes of a digest's standing. */
  function Amended(before: Option<Entry>, event: Event, digest: string): Option<Entry> {
    if event.digest != digest then before
    else match event
      case Looked(_, now, _) => if before.Some? && now >= before.value.expiresAt then None else before
      case Remembered(_, keyId, expiresAt) => Some(Entry(digest, keyId, expiresAt))
      case Forgotten(_) => None
  }

  /** What the log says of a digest: the last verdict remembered, unless it was forgotten or seen to have expired. */
  function Standing(log: seq<Event>, digest: string): Option<Entry> {
    if log == [] then None
    else Amended(Standing(log[..|log| - 1], digest), log[|log| - 1], digest)
  }

  predicate Touches(event: Event) {
    event.Remembered? || (event.Looked? && event.answer.Some?)
  }

  /** The other digests remembered or hit since this one last was. */
  function Others(log: seq<Event>, digest: string): set<string> {
    if log == [] then {}
    else
      var before, last := Others(log[..|log| - 1], digest), log[|log| - 1];
      if !Touches(last) then before
      else if last.digest == digest then {}
      else before + {last.digest}
  }

  // ---------------------------------------------------------------- runs

  datatype Request = Look(digest: string, now: int) | Keep(digest: string, keyId: string,
      now: int) | Drop(digest: string)

  datatype State = State(entries: seq<Entry>, log: seq<Event>)

  function Step(s: State, request: Request, capacity: nat, ttlNano: int): State {
    match request
    case Look(digest, now) =>
      var (entries, answer) := Lookup(s.entries, digest, now);
      State(entries, s.log + [Looked(digest, now, answer)])
    case Keep(digest, keyId, now) =>
      State(Insert(s.entries, Entry(digest, keyId, now + ttlNano), capacity),
            s.log + [Remembered(digest, keyId, now + ttlNano)])
    case Drop(digest) => State(Without(s.entries, digest), s.log + [Forgotten(digest)])
  }

  function Run(requests: seq<Request>, capacity: nat, ttlNano: int): State {
    if requests == [] then State([], [])
    else Step(Run(requests[..|requests| - 1], capacity, ttlNano), requests[|requests| - 1], capacity, ttlNano)
  }

  // ---------------------------------------------------------------- agreement

  predicate Unique(entries: seq<Entry>) {
    forall i, j :: 0 <= i < j < |entries| ==> entries[i].digest != entries[j].digest
  }

  function Digests(entries: seq<Entry>): set<string> {
    set e <- entries :: e.digest
  }

  /** Everything behind an entry was touched after it. */
  predicate Ranked(entries: seq<Entry>, log: seq<Event>) {
    forall i, j :: 0 <= i < j < |entries| ==> entries[j].digest in Others(log, entries[i].digest)
  }

  /** The cache holds what the log says, except what enough others have pushed out. */
  ghost predicate Agrees(s: State, capacity: nat) {
    && Unique(s.entries) && |s.entries| <= capacity
    && (forall e <- s.entries :: Standing(s.log, e.digest) == Some(e))
    && Ranked(s.entries, s.log)
    && forall d :: Explained(s, capacity, d)
  }

  lemma LogMore(log: seq<Event>, event: Event, digest: string)
    ensures Standing(log + [event], digest) == Amended(Standing(log, digest), event, digest)
    ensures Others(log + [event], digest) ==
      if !Touches(event) then Others(log, digest)
      else if event.digest == digest then {}
      else Others(log, digest) + {event.digest}
  {
    assert (log + [event])[..|log|] == log;
  }

  /** Every entry but the one at `i`, in order. */
  predicate Skips(r: seq<Entry>, entries: seq<Entry>, i: nat) {
    && i < |entries| && |r| == |entries| - 1
    && (forall j :: 0 <= j < i ==> r[j] == entries[j])
    && forall j :: i <= j < |r| ==> r[j] == entries[j + 1]
  }

  lemma SkipsMembers(r: seq<Entry>, entries: seq<Entry>, i: nat)
    requires Unique(entries) && Skips(r, entries, i)
    ensures Unique(r)
    ensures forall e <- r :: e in entries && e.digest != entries[i].digest
    ensures forall e <- entries :: e.digest != entries[i].digest ==> e in r
  {
    forall e <- entries | e.digest != entries[i].digest ensures e in r {
      var j :| 0 <= j < |entries| && entries[j] == e;
      if j < i { assert r[j] == e; } else { assert r[j - 1] == e; }
    }
  }

  lemma WithoutMembers(entries: seq<Entry>, digest: string)
    requires Unique(entries)
    ensures Unique(Without(entries, digest)) && |Without(entries, digest)| <= |entries|
    ensures forall e :: e in Without(entries, digest) <==> e in entries && e.digest != digest
  {
    hide Unique;
    var i := Find(entries, digest);
    if i < |entries| { SkipsMembers(Without(entries, digest), entries, i); }
  }

  lemma WithoutRanked(entries: seq<Entry>, log: seq<Event>, digest: string)
    requires Ranked(entries, log)
    ensures Ranked(Without(entries, digest), log)
  {
    var i, r := Find(entries, digest), Without(entries, digest);
    if i < |entries| {
      assert forall j :: 0 <= j < |r| ==> r[j] == entries[if j < i then j else j + 1];
    }
  }

  /** Adding an entry at the end, once the log says that its digest was touched. */
  lemma AppendRanked(entries: seq<Entry>, log: seq<Event>, event: Event, e: Entry)
    requires Ranked(entries, log) && Touches(event) && event.digest == e.digest
    requires forall x <- entries :: x.digest != e.digest
    ensures Ranked(entries + [e], log + [event])
  {
    hide Others;
    var r := entries + [e];
    forall i, j | 0 <= i < j < |r| ensures r[j].digest in Others(log + [event], r[i].digest) {
      assert r[i] in entries;
      LogMore(log, event, r[i].digest);
    }
  }

  lemma SameRanked(entries: seq<Entry>, log: seq<Event>, event: Event)
    requires Ranked(entries, log) && !Touches(event)
    ensures Ranked(entries, log + [event])
  {
    hide Others;
    forall i, j | 0 <= i < j < |entries| ensures entries[j].digest in Others(log + [event], entries[i].digest) {
      LogMore(log, event, entries[i].digest);
    }
  }

  lemma {:induction false} DigestsCount(entries: seq<Entry>)
    requires Unique(entries)
    ensures Size(Digests(entries)) == |entries|
  {
    if entries != [] {
      var front, last := entries[..|entries| - 1], entries[|entries| - 1];
      DigestsCount(front);
      assert entries == front + [last];
      assert Digests(entries) == Digests(front) + {last.digest};
    }
  }

  /** The entry that is pushed out has at least `capacity` other digests behind it. */
  lemma PushedOut(entries: seq<Entry>, log: seq<Event>, capacity: nat)
    requires Unique(entries) && Ranked(entries, log) && |entries| == capacity + 1
    ensures Size(Others(log, entries[0].digest)) >= capacity
    ensures Unique(entries[1..]) && Ranked(entries[1..], log)
    ensures forall e :: e in entries[1..] <==> e in entries && e != entries[0]
  {
    hide Others;
    DigestsCount(entries[1..]);
    forall d <- Digests(entries[1..]) ensures d in Others(log, entries[0].digest) {
      var e :| e in entries[1..] && e.digest == d;
      var j :| 0 <= j < |entries[1..]| && entries[1..][j] == e;
      assert entries[j + 1] == e;
    }
    SizeGrows(Digests(entries[1..]), Others(log, entries[0].digest));
    assert entries == [entries[0]] + entries[1..];
  }

  lemma {:induction false} FindExactly(entries: seq<Entry>, digest: string)
    ensures Find(entries, digest) < |entries| <==> digest in Digests(entries)
  {
  }

  /** The last clause of the agreement, for one digest. */
  ghost predicate Explained(s: State, capacity: nat, digest: string) {
    Standing(s.log, digest).Some? && digest !in Digests(s.entries) ==> Size(Others(s.log, digest)) >= capacity
  }

  lemma OthersGrow(log: seq<Event>, event: Event, digest: string)
    requires !(Touches(event) && event.digest == digest)
    ensures Size(Others(log, digest)) <= Size(Others(log + [event], digest))
  {
    LogMore(log, event, digest);
    SizeGrows(Others(log, digest), Others(log + [event], digest));
  }

  /** A step that leaves a digest alone leaves its explanation standing. */
  lemma ExplainedAlone(s: State, r: State, event: Event, capacity: nat, digest: string)
    requires Explained(s, capacity, digest) && r.log == s.log + [event] && event.digest != digest
    requires digest in Digests(s.entries) ==> digest in Digests(r.entries) || Size(Others(r.log, digest)) >= capacity
    ensures Explained(r, capacity, digest)
  {
    hide Others, Size, Standing, Digests;
    LogMore(s.log, event, digest);
    OthersGrow(s.log, event, digest);
  }

  lemma InDigests(entries: seq<Entry>, more: seq<Entry>, digest: string)
    requires forall e <- entries :: e.digest == digest ==> e in more
    ensures digest in Digests(entries) ==> digest in Digests(more)
  {
  }

  lemma LookKeeps(s: State, digest: string, now: int, capacity: nat, ttlNano: int)
    requires Agrees(s, capacity)
    ensures Agrees(Step(s, Look(digest, now), capacity, ttlNano), capacity)
  {
    hide Standing, Others, Size, Digests;
    var r := Step(s, Look(digest, now), capacity, ttlNano);
    var event := r.log[|s.log|];
    var i := Find(s.entries, digest);
    FindExactly(s.entries, digest);
    WithoutMembers(s.entries, digest);
    WithoutRanked(s.entries, s.log, digest);
    var rest := Without(s.entries, digest);
    if Touches(event) {
      AppendRanked(rest, s.log, event, s.entries[i]);
    } else {
      SameRanked(r.entries, s.log, event);
    }
    assert forall e :: e in r.entries <==>
          e in s.entries && !(e.digest == digest && event.answer.None? && i < |s.entries|);
    forall e <- r.entries ensures Standing(r.log, e.digest) == Some(e) { LogMore(s.log, event, e.digest); }
    forall d ensures Explained(r, capacity, d) {
      if d != digest {
        InDigests(s.entries, r.entries, d);
        ExplainedAlone(s, r, event, capacity, d);
      } else {
        LogMore(s.log, event, d);
        assert Explained(s, capacity, d);
        if i < |s.entries| {
          assert s.entries[i] in s.entries;
          if Touches(event) {
            InDigests([s.entries[i]], r.entries, d);
            OneDigest(s.entries[i]);
          }
        }
      }
    }
  }

  lemma DropKeeps(s: State, digest: string, capacity: nat, ttlNano: int)
    requires Agrees(s, capacity)
    ensures Agrees(Step(s, Drop(digest), capacity, ttlNano), capacity)
  {
    hide Standing, Others, Size, Digests;
    var r := Step(s, Drop(digest), capacity, ttlNano);
    var event := Forgotten(digest);
    WithoutMembers(s.entries, digest);
    WithoutRanked(s.entries, s.log, digest);
    SameRanked(r.entries, s.log, event);
    forall e <- r.entries ensures Standing(r.log, e.digest) == Some(e) { LogMore(s.log, event, e.digest); }
    forall d ensures Explained(r, capacity, d) {
      if d != digest {
        InDigests(s.entries, r.entries, d);
        ExplainedAlone(s, r, event, capacity, d);
      } else {
        LogMore(s.log, event, d);
      }
    }
  }

  lemma KeepExplains(s: State, r: State, e: Entry, capacity: nat, d: string)
    requires Explained(s, capacity, d) && r.log == s.log + [Remembered(e.digest, e.keyId, e.expiresAt)]
        && e in r.entries
    requires forall x <- s.entries :: x.digest != e.digest ==>
        x in r.entries || Size(Others(r.log, x.digest)) >= capacity
    ensures Explained(r, capacity, d)
  {
    hide Standing, Others, Size, Digests;
    if d == e.digest {
      InDigests([e], r.entries, d);
      OneDigest(e);
    } else {
      if Size(Others(r.log, d)) < capacity { InDigests(s.entries, r.entries, d); }
      ExplainedAlone(s, r, Remembered(e.digest, e.keyId, e.expiresAt), capacity, d);
    }
  }

  /** Trimming keeps the entries in rank and pushes out only what has `capacity` digests behind it. */
  lemma TrimKeeps(whole: seq<Entry>, log: seq<Event>, capacity: nat)
    requires Unique(whole) && Ranked(whole, log) && |whole| <= capacity + 1
    ensures var r := Trim(whole, capacity);
      && Unique(r) && Ranked(r, log) && |r| <= capacity
      && (forall x <- r :: x in whole)
      && (forall x <- whole :: x in r || Size(Others(log, x.digest)) >= capacity)
      && (capacity >= 1 && whole != [] ==> r != [] && r[|r| - 1] == whole[|whole| - 1])
  {
    hide Others, Size;
    if |whole| > capacity { PushedOut(whole, log, capacity); }
  }

  lemma KeepKeeps(s: State, digest: string, keyId: string, now: int, capacity: nat, ttlNano: int)
    requires Agrees(s, capacity) && capacity >= 1
    ensures Agrees(Step(s, Keep(digest, keyId, now), capacity, ttlNano), capacity)
  {
    hide Standing, Others, Size, Digests, Ranked, Trim, Without, Explained;
    var r := Step(s, Keep(digest, keyId, now), capacity, ttlNano);
    var e := Entry(digest, keyId, now + ttlNano);
    var event := Remembered(digest, keyId, now + ttlNano);
    var rest := Without(s.entries, digest);
    var whole := rest + [e];
    WithoutMembers(s.entries, digest);
    WithoutRanked(s.entries, s.log, digest);
    AppendRanked(rest, s.log, event, e);
    AppendUnique(rest, e);
    TrimKeeps(whole, r.log, capacity);
    forall x <- r.entries ensures Standing(r.log, x.digest) == Some(x) { LogMore(s.log, event, x.digest); }
    forall d ensures Explained(r, capacity, d) { KeepExplains(s, r, e, capacity, d); }
  }

  lemma AppendUnique(rest: seq<Entry>, e: Entry)
    requires Unique(rest) && forall x <- rest :: x.digest != e.digest
    ensures Unique(rest + [e])
    ensures forall x :: x in rest + [e] <==> x in rest || x == e
  {
  }

  lemma OneDigest(e: Entry)
    ensures e.digest in Digests([e])
  {
    assert e in [e];
  }

  lemma {:induction false} RunAgrees(requests: seq<Request>, capacity: nat, ttlNano: int)
    requires capacity >= 1
    ensures Agrees(Run(requests, capacity, ttlNano), capacity)
  {
    hide Step, Agrees;
    if requests == [] {
      NothingAgrees(capacity);
    } else {
      var s, last := Run(requests[..|requests| - 1], capacity, ttlNano), requests[|requests| - 1];
      RunAgrees(requests[..|requests| - 1], capacity, ttlNano);
      match last
      case Look(digest, now) => LookKeeps(s, digest, now, capacity, ttlNano);
      case Keep(digest, keyId, now) => KeepKeeps(s, digest, keyId, now, capacity, ttlNano);
      case Drop(digest) => DropKeeps(s, digest, capacity, ttlNano);
    }
  }

  lemma NothingAgrees(capacity: nat)
    ensures Agrees(State([], []), capacity)
  {
  }

  /** After any run, a hit is what the log says and has not ended; the cache is never over capacity. */
  lemma HitsAreTrue(requests: seq<Request>, capacity: nat, ttlNano: int, digest: string, now: int)
    requires capacity >= 1
    ensures var s := Run(requests, capacity, ttlNano);
      && |s.entries| <= capacity
      && var answer := Lookup(s.entries, digest, now).1;
      answer.Some? ==>
        && Standing(s.log, digest).Some?
        && Standing(s.log, digest).value.keyId == answer.value
        && now < Standing(s.log, digest).value.expiresAt
  {
    RunAgrees(requests, capacity, ttlNano);
    hide Run, Standing, Others;
  }

  /** After any run, an unexpired verdict is found unless at least `capacity` other digests were touched since. */
  lemma MissesAreExplained(requests: seq<Request>, capacity: nat, ttlNano: int, digest: string, now: int)
    requires capacity >= 1
    ensures var s := Run(requests, capacity, ttlNano);
      Standing(s.log, digest).Some? && now < Standing(s.log, digest).value.expiresAt
      && Lookup(s.entries, digest, now).1.None? ==>
        Size(Others(s.log, digest)) >= capacity
  {
    RunAgrees(requests, capacity, ttlNano);
    hide Run, Standing, Others, Size;
    var s := Run(requests, capacity, ttlNano);
    assert Explained(s, capacity, digest);
    hide Unique, Ranked;
    FindExactly(s.entries, digest);
    var i := Find(s.entries, digest);
    assert i < |s.entries| ==> s.entries[i] in s.entries;
  }

  // ---------------------------------------------------------------- requests alone

  /** The other digests that the requests look up or remember. */
  function Mentioned(requests: seq<Request>, digest: string): set<string> {
    if requests == [] then {}
    else
      var last := requests[|requests| - 1];
      Mentioned(requests[..|requests| - 1], digest)
      + if last.digest != digest && !last.Drop? then {last.digest} else {}
  }

  /** The request leaves the digest's verdict as it is, as seen at `now`. */
  predicate Spares(request: Request, digest: string, now: int) {
    request.digest == digest ==> request.Look? && request.now <= now
  }

  lemma RunMore(requests: seq<Request>, request: Request, capacity: nat, ttlNano: int)
    ensures Run(requests + [request], capacity, ttlNano)
         == Step(Run(requests, capacity, ttlNano), request, capacity, ttlNano)
  {
    assert (requests + [request])[..|requests|] == requests;
  }

  lemma StepLogs(s: State, request: Request, capacity: nat, ttlNano: int, digest: string)
    ensures var r := Step(s, request, capacity, ttlNano);
      && |r.log| == |s.log| + 1 && r.log == s.log + [r.log[|s.log|]] && r.log[|s.log|].digest == request.digest
      && Others(r.log, digest) <= Others(s.log, digest) + Mentioned([request], digest)
      && match request
         case Look(d, t) => r.log[|s.log|] == Looked(d, t, Lookup(s.entries, d, t).1)
         case Keep(d, k, t) => r.log[|s.log|] == Remembered(d, k, t + ttlNano)
         case Drop(d) => r.log[|s.log|] == Forgotten(d)
  {
    hide Lookup, Insert, Without;
    var r := Step(s, request, capacity, ttlNano);
    LogMore(s.log, r.log[|s.log|], digest);
    hide Others;
    assert [request][..0] == [];
    assert Mentioned([request][..0], digest) == {};
  }

  lemma SparedStep(s: State, request: Request, digest: string, now: int, capacity: nat, ttlNano: int)
    requires Spares(request, digest, now)
    requires Standing(s.log, digest).Some? && now < Standing(s.log, digest).value.expiresAt
    ensures var r := Step(s, request, capacity, ttlNano);
      && Standing(r.log, digest) == Standing(s.log, digest)
      && Others(r.log, digest) <= Others(s.log, digest) + Mentioned([request], digest)
  {
    hide Lookup, Insert, Without, Others, Step, Standing;
    StepLogs(s, request, capacity, ttlNano, digest);
    var r := Step(s, request, capacity, ttlNano);
    LogMore(s.log, r.log[|s.log|], digest);
  }

  lemma {:induction false} Spared(requests: seq<Request>, more: seq<Request>, digest: string, now: int, capacity: nat,
                                  ttlNano: int)
    requires forall m <- more :: Spares(m, digest, now)
    requires var s := Run(requests, capacity, ttlNano);
      Standing(s.log, digest).Some? && now < Standing(s.log, digest).value.expiresAt
    ensures var s, r := Run(requests, capacity, ttlNano), Run(requests + more, capacity, ttlNano);
      && Standing(r.log, digest) == Standing(s.log, digest)
      && Others(r.log, digest) <= Others(s.log, digest) + Mentioned(more, digest)
    decreases |more|
  {
    hide Run, Others, Step, Standing, Mentioned, Spares;
    if more == [] {
      assert requests + more == requests;
    } else {
      var n := |more| - 1;
      Spared(requests, more[..n], digest, now, capacity, ttlNano);
      assert requests + more == requests + more[..n] + [more[n]];
      RunMore(requests + more[..n], more[n], capacity, ttlNano);
      SparedStep(Run(requests + more[..n], capacity, ttlNano), more[n], digest, now, capacity, ttlNano);
      OneMentioned(more, digest);
    }
  }

  lemma OneMentioned(more: seq<Request>, digest: string)
    requires more != []
    ensures var n := |more| - 1;
      Mentioned(more, digest) == Mentioned(more[..n], digest) + Mentioned([more[n]], digest)
  {
    assert [more[|more| - 1]][..0] == [];
  }

  /** The request remembers the digest, or finds it. */
  predicate Uses(s: State, request: Request, digest: string) {
    && request.digest == digest
    && (request.Keep? || (request.Look? && Lookup(s.entries, digest, request.now).1.Some?))
  }

  /**
   Least recently used, on the requests alone. A verdict that a lookup would find right after the digest was
   remembered or found is still found later, as long as nobody replaces or forgets it, nobody looks
   it up at a later time, and fewer than `capacity` other digests are looked up or remembered meanwhile.
   */
  lemma RecentIsKept(before: seq<Request>, use: Request, more: seq<Request>, digest: string, now: int, capacity: nat,
                     ttlNano: int)
    requires capacity >= 1 && Uses(Run(before, capacity, ttlNano), use, digest)
    requires forall m <- more :: Spares(m, digest, now)
    requires Size(Mentioned(more, digest)) < capacity
    ensures var s, r := Run(before + [use], capacity, ttlNano), Run(before + [use] + more, capacity, ttlNano);
      Lookup(s.entries, digest, now).1.Some? ==>
        Lookup(r.entries, digest, now).1 == Lookup(s.entries, digest, now).1
  {
    var s0, s := Run(before, capacity, ttlNano), Run(before + [use], capacity, ttlNano);
    RunMore(before, use, capacity, ttlNano);
    if Lookup(s.entries, digest, now).1.Some? {
      HitsAreTrue(before + [use], capacity, ttlNano, digest, now);
      Spared(before + [use], more, digest, now, capacity, ttlNano);
      StepLogs(s0, use, capacity, ttlNano, digest);
      LogMore(s0.log, s.log[|s0.log|], digest);
      var r := Run(before + [use] + more, capacity, ttlNano);
      hide Run, Lookup, Others, Standing, Step;
      assert Others(s.log, digest) == {};
      SizeGrows(Others(r.log, digest), Mentioned(more, digest));
      MissesAreExplained(before + [use] + more, capacity, ttlNano, digest, now);
      HitsAreTrue(before + [use] + more, capacity, ttlNano, digest, now);
    }
  }

  /** What a lookup finds right after a verdict was remembered or forgotten, or was seen to have ended. */
  lemma AnswersAtOnce(requests: seq<Request>, digest: string, keyId: string, at: int, now: int, capacity: nat,
                      ttlNano: int)
    requires capacity >= 1
    ensures var s := Run(requests + [Keep(digest, keyId, at)], capacity, ttlNano);
      Lookup(s.entries, digest, now).1 == if now < at + ttlNano then Some(keyId) else None
    ensures Lookup(Run(requests + [Drop(digest)], capacity, ttlNano).entries, digest, now).1 == None
    ensures var s := Run(requests, capacity, ttlNano);
      Lookup(s.entries, digest, at).1 == None ==>
        Lookup(Run(requests + [Look(digest, at)], capacity, ttlNano).entries, digest, now).1 == None
  {
    var kept := requests + [Keep(digest, keyId, at)];
    var s := Run(requests, capacity, ttlNano);
    RunMore(requests, Keep(digest, keyId, at), capacity, ttlNano);
    RunMore(requests, Drop(digest), capacity, ttlNano);
    RunMore(requests, Look(digest, at), capacity, ttlNano);
    LogMore(s.log, Remembered(digest, keyId, at + ttlNano), digest);
    LogMore(s.log, Forgotten(digest), digest);
    RunAgrees(requests, capacity, ttlNano);
    assert Unique(s.entries);
    WithoutMembers(s.entries, digest);
    FindExactly(Without(s.entries, digest), digest);
    HitsAreTrue(kept, capacity, ttlNano, digest, now);
    MissesAreExplained(kept, capacity, ttlNano, digest, now);
    hide Run, Others, Standing, Unique, Agrees, Insert, Without, Trim;
    assert Size<string>({}) == 0;
    GoneIsGone(Without(s.entries, digest), digest, now);
  }

  lemma GoneIsGone(entries: seq<Entry>, digest: string, now: int)
    requires forall e <- entries :: e.digest != digest
    ensures Lookup(entries, digest, now).1 == None
  {
    FindExactly(entries, digest);
  }
}
