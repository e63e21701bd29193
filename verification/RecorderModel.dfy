/**
 The loss ledger and the sequence numbering of `packages/browser/src/recorder.ts`, as functions:
 buffered observations, counters of what was not buffered, coverage notes reported back by the
 transport, and the drains that carry all of it away.
 */
module RecorderModel {
  import opened Wrappers
  import opened Capture
  import opened RingBuffer

  const MAX_PENDING_COVERAGE := 32
  const CALL_ENDED := "call_ended"

  datatype Config = Config(version: int, session: string, identity: string, maxSnapshots: nat, maxDeviceEvents: nat)

  datatype Counters = Counters(
    droppedSnapshots: nat,
    droppedDeviceEvents: nat,
    statsErrors: nat,
    statsOverlaps: nat,
    permissionErrors: nat,
    renderTimingUnpopulated: nat,
    droppedCoverageNotes: nat)

  datatype Counter = StatsError | StatsOverlap | PermissionError | RenderTimingUnpopulated

  datatype Availability = Availability(
    sampledStats: bool,
    audioInbound: bool,
    processingDelay: bool,
    playout: bool,
    renderTimingMissing: bool)

  const ZERO_COUNTERS := Counters(0, 0, 0, 0, 0, 0, 0)
  const ZERO_AVAILABILITY := Availability(false, false, false, false, false)

  datatype Recorder = Recorder(
    config: Config,
    snapshots: seq<string>,
    deviceEvents: seq<string>,
    counters: Counters,
    availability: Availability,
    pending: seq<Note>,
    stopped: bool,
    final: Option<Payload>,
    sequence: nat)

  function Start(config: Config): Recorder {
    Recorder(config, [], [], ZERO_COUNTERS, ZERO_AVAILABILITY, [], false, None, 0)
  }

  function PushSnapshot(r: Recorder, snapshot: string): Recorder {
    r.(snapshots := Newest(r.snapshots + [snapshot], r.config.maxSnapshots),
       counters := r.counters.(droppedSnapshots := r.counters.droppedSnapshots
                                 + if |r.snapshots| == r.config.maxSnapshots then 1 else 0))
  }

  function PushDeviceEvent(r: Recorder, event: string): Recorder {
    r.(deviceEvents := Newest(r.deviceEvents + [event], r.config.maxDeviceEvents),
       counters := r.counters.(droppedDeviceEvents := r.counters.droppedDeviceEvents
                                 + if |r.deviceEvents| == r.config.maxDeviceEvents then 1 else 0))
  }

  function Bump(c: Counters, counter: Counter): Counters {
    match counter
    case StatsError => c.(statsErrors := c.statsErrors + 1)
    case StatsOverlap => c.(statsOverlaps := c.statsOverlaps + 1)
    case PermissionError => c.(permissionErrors := c.permissionErrors + 1)
    case RenderTimingUnpopulated => c.(renderTimingUnpopulated := c.renderTimingUnpopulated + 1)
  }

  // ---- coverage --------------------------------------------------------------------------

  predicate SameGap(a: Note, b: Note) {
    a.signal == b.signal && a.availability == b.availability && a.reason == b.reason
  }

  /** The index of the first note about the same gap, or the length of the list. */
  function Find(notes: seq<Note>, note: Note): (index: nat)
    ensures index <= |notes|
    ensures index < |notes| ==> SameGap(notes[index], note)
    ensures forall i | 0 <= i < index :: !SameGap(notes[i], note)
  {
    if notes == [] || SameGap(notes[0], note) then 0 else 1 + Find(notes[1..], note)
  }

  function Merged(existing: Note, note: Note): Note {
    if note.droppedCount.None? then existing
    else existing.(droppedCount := Some(Count(existing) + note.droppedCount.value))
  }

  /** A note without a signal is refused with an exception and changes nothing. */
  function RecordCoverage(r: Recorder, note: Note): Recorder {
    var at := Find(r.pending, note);
    if r.stopped || note.signal == "" then r
    else if at < |r.pending| then r.(pending := r.pending[at := Merged(r.pending[at], note)])
    else if |r.pending| >= MAX_PENDING_COVERAGE
    then r.(counters := r.counters.(droppedCoverageNotes := r.counters.droppedCoverageNotes + 1))
    else r.(pending := r.pending + [note])
  }

  function CounterNote(count: nat, signal: string, availability: string, reason: string): seq<Note> {
    if count > 0 then [Note(signal, availability, reason, Some(count))] else []
  }

  function CounterCoverage(c: Counters): seq<Note> {
    CounterNote(c.droppedSnapshots, "webrtc.snapshots", "partial", "buffer_overflow_oldest_dropped")
    + CounterNote(c.droppedDeviceEvents, "device.events", "partial", "buffer_overflow_oldest_dropped")
    + CounterNote(c.statsErrors, "webrtc.getstats", "partial", "getstats_failed")
    + CounterNote(c.statsOverlaps, "webrtc.getstats_overlap", "partial", "overlapping_sample_skipped")
    + CounterNote(c.permissionErrors, "device.permission_query", "not_observed", "permission_query_failed")
    + CounterNote(c.renderTimingUnpopulated, "audio.render_timing", "partial", "output_timestamp_unpopulated")
    + CounterNote(c.droppedCoverageNotes, "capture.coverage", "partial", "coverage_buffer_overflow")
  }

  function PlatformNote(missing: bool, signal: string, reason: string): seq<Note> {
    if missing then [Note(signal, "not_observed", reason, None)] else []
  }

  function PlatformCoverage(a: Availability): seq<Note> {
    PlatformNote(a.renderTimingMissing, "audio.render_timing", "getoutputtimestamp_unavailable")
    + PlatformNote(a.audioInbound, "webrtc.audio_decode_time", "decode_time_is_video_only_in_w3c_stats")
    + PlatformNote(a.audioInbound && !a.processingDelay, "webrtc.processing_delay", "member_not_exposed")
    + PlatformNote(a.sampledStats && !a.playout, "webrtc.playout", "media_playout_stat_not_exposed")
  }

  function BuildCoverage(r: Recorder): seq<Note> {
    CounterCoverage(r.counters) + PlatformCoverage(r.availability) + r.pending
  }

  // ---- drains ----------------------------------------------------------------------------

  function Stop(r: Recorder): Recorder {
    r.(stopped := true)
  }

  function Numbered(r: Recorder): bool {
    r.config.version == CONTINUOUS_CAPTURE_VERSION
  }

  function Drained(r: Recorder, end: Option<End>): Payload {
    Payload(r.config.version, r.config.session, if Numbered(r) then Some(r.sequence + 1) else None,
            r.config.identity, r.snapshots, r.deviceEvents, BuildCoverage(r), None,
            if Numbered(r) then end else None)
  }

  function Emptied(r: Recorder): Recorder {
    r.(snapshots := [], deviceEvents := [], counters := ZERO_COUNTERS, availability := ZERO_AVAILABILITY,
       pending := [], sequence := if Numbered(r) then r.sequence + 1 else r.sequence)
  }

  predicate Ends(end: Option<End>) {
    end.Some? && end.value.reason == CALL_ENDED
  }

  function Drain(r: Recorder, end: Option<End>): (Recorder, Payload) {
    if r.final.Some? then (r, r.final.value)
    else
      var payload := Drained(r, end);
      var emptied := Emptied(r);
      if Numbered(r) && Ends(end) then (Stop(emptied.(final := Some(payload))), payload)
      else (emptied, payload)
  }

  function EndCall(r: Recorder, timestampMs: int): (Recorder, Payload) {
    if r.final.Some? then (r, r.final.value)
    else
      var (emptied, payload) := Drain(r, Some(End(CALL_ENDED, timestampMs)));
      (Stop(emptied.(final := if emptied.final.Some? then emptied.final else Some(payload))), payload)
  }

  // ---- what the recorder still owes ------------------------------------------------------

  function Counted(c: Counters): nat {
    c.droppedSnapshots + c.droppedDeviceEvents + c.statsErrors + c.statsOverlaps
    + c.permissionErrors + c.renderTimingUnpopulated + c.droppedCoverageNotes
  }

  /** Observations buffered plus losses counted or noted, all due in the next drain. */
  function Owed(r: Recorder): int {
    |r.snapshots| + |r.deviceEvents| + Counted(r.counters) + Declared(r.pending)
  }

  /** What a note is worth to the ledger; a note that overflows the buffer is counted as one. */
  function Forgotten(r: Recorder, note: Note): int {
    if r.stopped || note.signal == "" then Count(note)
    else if Find(r.pending, note) == |r.pending| >= MAX_PENDING_COVERAGE then Count(note) - 1
    else 0
  }

  lemma PushOwes(r: Recorder, observation: string)
    requires |r.snapshots| <= r.config.maxSnapshots && |r.deviceEvents| <= r.config.maxDeviceEvents
    ensures Owed(PushSnapshot(r, observation)) == Owed(r) + 1
    ensures Owed(PushDeviceEvent(r, observation)) == Owed(r) + 1
  {
  }

  /** Merging preserves sums, and nothing else forgets a count silently. */
  lemma RecordOwes(r: Recorder, note: Note)
    ensures Owed(RecordCoverage(r, note)) == Owed(r) + Count(note) - Forgotten(r, note)
  {
    var at := Find(r.pending, note);
    if at < |r.pending| {
      DeclaredUpdate(r.pending, at, Merged(r.pending[at], note));
    } else {
      DeclaredAppend(r.pending, [note]);
      assert Declared([note]) == Count(note) by { assert [note][..0] == []; }
    }
  }

  lemma CounterNoteDeclares(count: nat, signal: string, availability: string, reason: string)
    ensures Declared(CounterNote(count, signal, availability, reason)) == count
  {
    if count > 0 {
      assert [Note(signal, availability, reason, Some(count))][..0] == [];
    }
  }

  lemma PlatformNoteDeclares(missing: bool, signal: string, reason: string)
    ensures Declared(PlatformNote(missing, signal, reason)) == 0
  {
    if missing {
      assert [Note(signal, "not_observed", reason, None)][..0] == [];
    }
  }

  lemma CounterCoverageDeclares(c: Counters)
    ensures Declared(CounterCoverage(c)) == Counted(c)
  {
    hide Declared, CounterNote;
    var a := CounterNote(c.droppedSnapshots, "webrtc.snapshots", "partial", "buffer_overflow_oldest_dropped");
    var b := CounterNote(c.droppedDeviceEvents, "device.events", "partial", "buffer_overflow_oldest_dropped");
    var d := CounterNote(c.statsErrors, "webrtc.getstats", "partial", "getstats_failed");
    var e := CounterNote(c.statsOverlaps, "webrtc.getstats_overlap", "partial", "overlapping_sample_skipped");
    var f := CounterNote(c.permissionErrors, "device.permission_query", "not_observed", "permission_query_failed");
    var g := CounterNote(c.renderTimingUnpopulated, "audio.render_timing", "partial", "output_timestamp_unpopulated");
    var h := CounterNote(c.droppedCoverageNotes, "capture.coverage", "partial", "coverage_buffer_overflow");
    CounterNoteDeclares(c.droppedSnapshots, "webrtc.snapshots", "partial", "buffer_overflow_oldest_dropped");
    CounterNoteDeclares(c.droppedDeviceEvents, "device.events", "partial", "buffer_overflow_oldest_dropped");
    CounterNoteDeclares(c.statsErrors, "webrtc.getstats", "partial", "getstats_failed");
    CounterNoteDeclares(c.statsOverlaps, "webrtc.getstats_overlap", "partial", "overlapping_sample_skipped");
    CounterNoteDeclares(c.permissionErrors, "device.permission_query", "not_observed", "permission_query_failed");
    CounterNoteDeclares(c.renderTimingUnpopulated, "audio.render_timing", "partial", "output_timestamp_unpopulated");
    CounterNoteDeclares(c.droppedCoverageNotes, "capture.coverage", "partial", "coverage_buffer_overflow");
    DeclaredAppend(a, b);
    DeclaredAppend(a + b, d);
    DeclaredAppend(a + b + d, e);
    DeclaredAppend(a + b + d + e, f);
    DeclaredAppend(a + b + d + e + f, g);
    DeclaredAppend(a + b + d + e + f + g, h);
  }

  lemma PlatformCoverageDeclares(a: Availability)
    ensures Declared(PlatformCoverage(a)) == 0
  {
    hide Declared, PlatformNote;
    var x := PlatformNote(a.renderTimingMissing, "audio.render_timing", "getoutputtimestamp_unavailable");
    var y := PlatformNote(a.audioInbound, "webrtc.audio_decode_time", "decode_time_is_video_only_in_w3c_stats");
    var z := PlatformNote(a.audioInbound && !a.processingDelay, "webrtc.processing_delay", "member_not_exposed");
    var w := PlatformNote(a.sampledStats && !a.playout, "webrtc.playout", "media_playout_stat_not_exposed");
    PlatformNoteDeclares(a.renderTimingMissing, "audio.render_timing", "getoutputtimestamp_unavailable");
    PlatformNoteDeclares(a.audioInbound, "webrtc.audio_decode_time", "decode_time_is_video_only_in_w3c_stats");
    PlatformNoteDeclares(a.audioInbound && !a.processingDelay, "webrtc.processing_delay", "member_not_exposed");
    PlatformNoteDeclares(a.sampledStats && !a.playout, "webrtc.playout", "media_playout_stat_not_exposed");
    DeclaredAppend(x, y);
    DeclaredAppend(x + y, z);
    DeclaredAppend(x + y + z, w);
  }

  /** A drain hands over everything the recorder owes, and leaves nothing behind. */
  lemma DrainSettles(r: Recorder, end: Option<End>)
    requires r.final.None?
    ensures var (r', payload) := Drain(r, end); Units(payload) == Owed(r) && Owed(r') == 0
  {
    CounterCoverageDeclares(r.counters);
    PlatformCoverageDeclares(r.availability);
    DeclaredAppend(CounterCoverage(r.counters) + PlatformCoverage(r.availability), r.pending);
    DeclaredAppend(CounterCoverage(r.counters), PlatformCoverage(r.availability));
    hide CounterCoverage, PlatformCoverage;
  }
}
