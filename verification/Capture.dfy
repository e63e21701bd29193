/**
 The capture payload that the browser recorder drains, the transport delivers and the
 session helper may reduce. Observations and identity metadata are opaque texts; JSON
 encoding is injective, so a serialized body is represented by the payload it encodes.
 */
module Capture {
  import opened Wrappers

  const MAX_SAFE_INTEGER := 9_007_199_254_740_991
  const CONTINUOUS_CAPTURE_VERSION := 2

  /** An explicit coverage gap; `droppedCount` is absent when the loss is not countable. */
  datatype Note = Note(signal: string, availability: string, reason: string, droppedCount: Option<int>)

  /** The sequence interval of a `resync` declaration, both ends included. */
  datatype Range = Range(from: int, through: int)

  datatype End = End(reason: string, timestampMs: int)

  /** `identity` stands for trace context, clock domain and capturer start. */
  datatype Payload = Payload(
    version: int,
    session: string,
    sequence: Option<int>,
    identity: string,
    snapshots: seq<string>,
    deviceEvents: seq<string>,
    coverage: seq<Note>,
    resync: Option<Range>,
    end: Option<End>)

  /** The usable drain sequence of a continuous payload, and 0 for every other payload. */
  function Sequence(p: Payload): (q: int)
    ensures 0 <= q <= MAX_SAFE_INTEGER
  {
    if p.version == CONTINUOUS_CAPTURE_VERSION && p.sequence.Some? && 1 <= p.sequence.value <= MAX_SAFE_INTEGER
    then p.sequence.value
    else 0
  }

  predicate Covers(resync: Option<Range>, q: int) {
    resync.Some? && resync.value.from <= q <= resync.value.through
  }

  function Observations(p: Payload): nat {
    |p.snapshots| + |p.deviceEvents|
  }

  function Count(note: Note): int {
    if note.droppedCount.Some? then note.droppedCount.value else 0
  }

  /** The losses a coverage list declares. */
  function Declared(coverage: seq<Note>): int {
    if coverage == [] then 0 else Declared(coverage[..|coverage| - 1]) + Count(coverage[|coverage| - 1])
  }

  lemma DeclaredAppend(a: seq<Note>, b: seq<Note>)
    ensures Declared(a + b) == Declared(a) + Declared(b)
  {
    if b == [] {
      assert a + b == a;
    } else {
      assert (a + b)[..|a + b| - 1] == a + b[..|b| - 1];
      DeclaredAppend(a, b[..|b| - 1]);
    }
  }

  lemma DeclaredUpdate(coverage: seq<Note>, i: nat, note: Note)
    requires i < |coverage|
    ensures Declared(coverage[i := note]) == Declared(coverage) - Count(coverage[i]) + Count(note)
  {
    var before, after := coverage[..i], coverage[i + 1..];
    assert coverage == before + ([coverage[i]] + after);
    assert coverage[i := note] == before + ([note] + after);
    DeclaredAppend(before, [coverage[i]] + after);
    DeclaredAppend(before, [note] + after);
    DeclaredAppend([coverage[i]], after);
    DeclaredAppend([note], after);
  }

  /** What a payload accounts for: the observations it carries and the losses it declares. */
  function Units(p: Payload): int {
    Observations(p) + Declared(p.coverage)
  }
}
