/**
 What a drain says about everything that happened to the recorder since the one before: which
 observations, in which field and order, and each line of the coverage. Stated on the history of
 calls alone.
 */
module RecorderHistory {
  import opened Wrappers
  import opened Capture
  import opened RingBuffer
  import opened RecorderModel

  datatype Act =
    | Snapshot(text: string)
    | DeviceEvent(text: string)
    | Counting(counter: Counter)
    | Probing(availability: Availability)
    | Noting(note: Note)
    | Draining(end: Option<End>)
    | Ending(timestampMs: int)
    | Stopping

  function Do(r: Recorder, act: Act): Recorder {
    match act
    case Snapshot(text) => PushSnapshot(r, text)
    case DeviceEvent(text) => PushDeviceEvent(r, text)
    case Counting(counter) => r.(counters := Bump(r.counters, counter))
    case Probing(availability) => r.(availability := availability)
    case Noting(note) => RecordCoverage(r, note)
    case Draining(end) => Drain(r, end).0
    case Ending(at) => EndCall(r, at).0
    case Stopping => Stop(r)
  }

  function Played(config: Config, acts: seq<Act>): Recorder {
    if acts == [] then Start(config) else Do(Played(config, acts[..|acts| - 1]), acts[|acts| - 1])
  }

  // ---- the history -------------------------------------------------------------------------

  /** What happened after the last drain. */
  function Since(acts: seq<Act>): seq<Act> {
    if acts == [] then []
    else
      var last := acts[|acts| - 1];
      if last.Draining? || last.Ending? then [] else Since(acts[..|acts| - 1]) + [last]
  }

  function Snapshots(acts: seq<Act>): seq<string> {
    if acts == [] then []
    else
      Snapshots(acts[..|acts| - 1])
      + match acts[|acts| - 1] case Snapshot(text) => [text] case _ => []
  }

  function DeviceEvents(acts: seq<Act>): seq<string> {
    if acts == [] then []
    else
      DeviceEvents(acts[..|acts| - 1])
      + match acts[|acts| - 1] case DeviceEvent(text) => [text] case _ => []
  }

  function Counts(acts: seq<Act>, counter: Counter): nat {
    if acts == [] then 0
    else Counts(acts[..|acts| - 1], counter) + if acts[|acts| - 1] == Counting(counter) then 1 else 0
  }

  /** What the platform was last seen to expose. */
  function Probed(acts: seq<Act>): Availability {
    if acts == [] then Availability(false, false, false, false, false)
    else match acts[|acts| - 1]
      case Probing(availability) => availability
      case _ => Probed(acts[..|acts| - 1])
  }

  function Drains(acts: seq<Act>): nat {
    if acts == [] then 0
    else
      Drains(acts[..|acts| - 1])
      + if acts[|acts| - 1].Draining? || acts[|acts| - 1].Ending? then 1 else 0
  }

  /** The notes taken after the last drain: those with a signal, while the recorder was not stopped. */
  function Notes(acts: seq<Act>): seq<Note> {
    if acts == [] then []
    else match acts[|acts| - 1]
      case Draining(_) => []
      case Ending(_) => []
      case Noting(note) =>
        Notes(acts[..|acts| - 1])
        + if note.signal != "" && Stopping !in acts[..|acts| - 1] then [note] else []
      case _ => Notes(acts[..|acts| - 1])
  }

  // ---- notes by gap ------------------------------------------------------------------------

  type Gap = (string, string, string)

  function GapOf(note: Note): Gap {
    (note.signal, note.availability, note.reason)
  }

  /** The gaps noted, in the order of their first note; only the first 32 find a place. */
  function Gaps(notes: seq<Note>): seq<Gap> {
    if notes == [] then []
    else
      var before, gap := Gaps(notes[..|notes| - 1]), GapOf(notes[|notes| - 1]);
      if gap in before || |before| >= 32 then before else before + [gap]
  }

  /** What the notes about a gap count together, and nothing when none of them counts. */
  function Total(notes: seq<Note>, gap: Gap): Option<int> {
    if notes == [] then None
    else
      var before, note := Total(notes[..|notes| - 1], gap), notes[|notes| - 1];
      if GapOf(note) != gap || note.droppedCount.None? then before
      else if before.None? then note.droppedCount
      else Some(before.value + note.droppedCount.value)
  }

  /** The notes about a gap that found no place. */
  function Overflowing(notes: seq<Note>): nat {
    if notes == [] then 0
    else
      Overflowing(notes[..|notes| - 1])
      + if GapOf(notes[|notes| - 1]) in Gaps(notes) then 0 else 1
  }

  function Summed(notes: seq<Note>): seq<Note> {
    seq(|Gaps(notes)|, i requires 0 <= i < |Gaps(notes)| =>
      Note(Gaps(notes)[i].0, Gaps(notes)[i].1, Gaps(notes)[i].2, Total(notes, Gaps(notes)[i])))
  }

  // ---- the lines of the coverage -------------------------------------------------------------

  datatype Line = Line(count: nat, signal: string, availability: string, reason: string)

  /** The lines that count something. */
  function Told(lines: seq<Line>): seq<Note> {
    if lines == [] then []
    else
      var l := lines[0];
      (if l.count > 0 then [Note(l.signal, l.availability, l.reason, Some(l.count))] else []) + Told(lines[1..])
  }

  function Missing(missing: bool, signal: string, reason: string): seq<Note> {
    if missing then [Note(signal, "not_observed", reason, None)] else []
  }

  function Beyond(n: nat, capacity: nat): nat {
    if n > capacity then n - capacity else 0
  }

  /** The lines of the losses that are counted. */
  function CountLines(config: Config, since: seq<Act>, notes: seq<Note>): seq<Line> {
    [
      Line(Beyond(|Snapshots(since)|, config.maxSnapshots), "webrtc.snapshots", "partial",
           "buffer_overflow_oldest_dropped"),
      Line(Beyond(|DeviceEvents(since)|, config.maxDeviceEvents), "device.events", "partial",
           "buffer_overflow_oldest_dropped"),
      Line(Counts(since, StatsError), "webrtc.getstats", "partial", "getstats_failed"),
      Line(Counts(since, StatsOverlap), "webrtc.getstats_overlap", "partial", "overlapping_sample_skipped"),
      Line(Counts(since, PermissionError), "device.permission_query", "not_observed", "permission_query_failed"),
      Line(Counts(since, RenderTimingUnpopulated), "audio.render_timing", "partial", "output_timestamp_unpopulated"),
      Line(Overflowing(notes), "capture.coverage", "partial", "coverage_buffer_overflow")]
  }

  /** What the platform does not expose. */
  function Unexposed(a: Availability): seq<Note> {
    Missing(a.renderTimingMissing, "audio.render_timing", "getoutputtimestamp_unavailable")
    + Missing(a.audioInbound, "webrtc.audio_decode_time", "decode_time_is_video_only_in_w3c_stats")
    + Missing(a.audioInbound && !a.processingDelay, "webrtc.processing_delay", "member_not_exposed")
    + Missing(a.sampledStats && !a.playout, "webrtc.playout", "media_playout_stat_not_exposed")
  }

  /** What was counted, then what the platform does not expose, then the notes. */
  function Coverage(config: Config, since: seq<Act>, notes: seq<Note>): seq<Note> {
    Told(CountLines(config, since, notes)) + Unexposed(Probed(since)) + Summed(notes)
  }

  // ---- agreement -----------------------------------------------------------------------------

  /** The newest items, in order. */
  predicate Last(kept: seq<string>, items: seq<string>, capacity: nat) {
    kept == if |items| > capacity then items[|items| - capacity..] else items
  }

  ghost predicate Agrees(r: Recorder, config: Config, acts: seq<Act>) {
    var since, notes := Since(acts), Notes(acts);
    && r.config == config
    && Last(r.snapshots, Snapshots(since), config.maxSnapshots)
    && Last(r.deviceEvents, DeviceEvents(since), config.maxDeviceEvents)
    && r.counters.droppedSnapshots == Beyond(|Snapshots(since)|, config.maxSnapshots)
    && r.counters.droppedDeviceEvents == Beyond(|DeviceEvents(since)|, config.maxDeviceEvents)
    && Errors(r.counters, since)
    && r.counters.droppedCoverageNotes == Overflowing(notes)
    && r.availability == Probed(since)
    && r.pending == Summed(notes)
    && (r.stopped <==> Stopping in acts)
    && r.sequence == if config.version == CONTINUOUS_CAPTURE_VERSION then Drains(acts) else 0
  }

  predicate Errors(c: Counters, since: seq<Act>) {
    && c.statsErrors == Counts(since, StatsError) && c.statsOverlaps == Counts(since, StatsOverlap)
    && c.permissionErrors == Counts(since, PermissionError)
    && c.renderTimingUnpopulated == Counts(since, RenderTimingUnpopulated)
  }

  lemma OneMore(acts: seq<Act>, act: Act)
    ensures Since(acts + [act]) == if act.Draining? || act.Ending? then [] else Since(acts) + [act]
    ensures Drains(acts + [act]) == Drains(acts) + if act.Draining? || act.Ending? then 1 else 0
    ensures Notes(acts + [act]) ==
      if act.Draining? || act.Ending? then []
      else if act.Noting? && act.note.signal != "" && Stopping !in acts then Notes(acts) + [act.note]
      else Notes(acts)
    ensures Stopping in acts + [act] <==> Stopping in acts || act == Stopping
  {
    assert (acts + [act])[..|acts|] == acts;
  }

  lemma OneMoreThere(since: seq<Act>, act: Act)
    ensures Snapshots(since + [act]) == if act.Snapshot? then Snapshots(since) + [act.text] else Snapshots(since)
    ensures DeviceEvents(since + [act])
         == if act.DeviceEvent? then DeviceEvents(since) + [act.text] else DeviceEvents(since)
    ensures forall c :: Counts(since + [act], c) == Counts(since, c) + if act == Counting(c) then 1 else 0
    ensures Probed(since + [act]) == if act.Probing? then act.availability else Probed(since)
  {
    assert (since + [act])[..|since|] == since;
  }

  lemma {:induction false} GapsDistinct(notes: seq<Note>)
    ensures |Gaps(notes)| <= 32
    ensures forall i, j :: 0 <= i < j < |Gaps(notes)| ==> Gaps(notes)[i] != Gaps(notes)[j]
  {
    if notes != [] { GapsDistinct(notes[..|notes| - 1]); }
  }

  lemma OneMoreNote(notes: seq<Note>, note: Note)
    ensures var gaps, gap := Gaps(notes), GapOf(note);
      && Gaps(notes + [note]) == (if gap in gaps || |gaps| >= 32 then gaps else gaps + [gap])
      && Overflowing(notes + [note]) == Overflowing(notes) + (if gap in Gaps(notes + [note]) then 0 else 1)
      && forall g :: Total(notes + [note], g) ==
           if GapOf(note) != g || note.droppedCount.None? then Total(notes, g)
           else if Total(notes, g).None? then note.droppedCount
           else Some(Total(notes, g).value + note.droppedCount.value)
  {
    assert (notes + [note])[..|notes|] == notes;
  }

  lemma {:induction false} GapIsNoted(notes: seq<Note>, gap: Gap)
    requires gap !in Gaps(notes) && |Gaps(notes)| < 32
    ensures Total(notes, gap).None?
  {
    if notes != [] {
      var front := notes[..|notes| - 1];
      assert Gaps(front) <= Gaps(notes);
      GapIsNoted(front, gap);
    }
  }

  lemma FindIs(notes: seq<Note>, note: Note)
    ensures var at := Find(Summed(notes), note);
      if GapOf(note) in Gaps(notes) then at < |Gaps(notes)| && Gaps(notes)[at] == GapOf(note)
      else at == |Gaps(notes)|
  {
    hide Gaps, Total;
    var gaps, at := Gaps(notes), Find(Summed(notes), note);
    if GapOf(note) in gaps {
      var i :| 0 <= i < |gaps| && gaps[i] == GapOf(note);
      assert SameGap(Summed(notes)[i], note);
    } else {
      forall i | 0 <= i < |gaps| ensures !SameGap(Summed(notes)[i], note) {
        assert gaps[i] != GapOf(note);
      }
    }
  }

  /** Recording a note adds it to the total of its gap. */
  lemma NoteAgrees(r: Recorder, notes: seq<Note>, note: Note)
    requires r.pending == Summed(notes) && !r.stopped && note.signal != ""
    ensures var r' := RecordCoverage(r, note);
      && r'.pending == Summed(notes + [note])
      && r'.counters == r.counters.(droppedCoverageNotes :=
           r.counters.droppedCoverageNotes + Overflowing(notes + [note]) - Overflowing(notes))
  {
    FindIs(notes, note);
    OneMoreNote(notes, note);
    GapsDistinct(notes);
    hide Gaps, Total, Overflowing;
    if GapOf(note) !in Gaps(notes) && |Gaps(notes)| < 32 { GapIsNoted(notes, GapOf(note)); }
    var r' := RecordCoverage(r, note);
    assert |r'.pending| == |Gaps(notes + [note])|;
    forall i | 0 <= i < |r'.pending| ensures r'.pending[i] == Summed(notes + [note])[i] {
    }
  }

  /** A push keeps the newest, and counts what it drops. */
  lemma PushAgrees(kept: seq<string>, items: seq<string>, item: string, capacity: nat)
    requires Last(kept, items, capacity)
    ensures Last(Newest(kept + [item], capacity), items + [item], capacity)
    ensures Beyond(|items + [item]|, capacity) == Beyond(|items|, capacity) + if |kept| == capacity then 1 else 0
  {
  }

  /** A drain that does not end the call leaves nothing behind. */
  lemma DrainAgrees(r: Recorder, config: Config, acts: seq<Act>, act: Act)
    requires Agrees(r, config, acts) && r.final.None? && (act.Draining? || act.Ending?) && Do(r, act).final.None?
    ensures Agrees(Do(r, act), config, acts + [act])
  {
    OneMore(acts, act);
    hide Since, Notes, Drains, BuildCoverage;
  }

  lemma NotingAgrees(r: Recorder, config: Config, acts: seq<Act>, note: Note)
    requires Agrees(r, config, acts)
    ensures Agrees(RecordCoverage(r, note), config, acts + [Noting(note)])
  {
    hide Since, Notes, Drains, Snapshots, DeviceEvents, Counts, Probed, Summed, Overflowing, Last, Beyond, Find;
    OneMore(acts, Noting(note));
    OneMoreThere(Since(acts), Noting(note));
    if !r.stopped && note.signal != "" { NoteAgrees(r, Notes(acts), note); }
  }

  lemma PushingAgrees(r: Recorder, config: Config, acts: seq<Act>, text: string)
    requires Agrees(r, config, acts)
    ensures Agrees(PushSnapshot(r, text), config, acts + [Snapshot(text)])
    ensures Agrees(PushDeviceEvent(r, text), config, acts + [DeviceEvent(text)])
  {
    hide Since, Notes, Drains, Snapshots, DeviceEvents, Counts, Probed, Summed, Overflowing, Last, Beyond, Newest;
    OneMore(acts, Snapshot(text));
    OneMore(acts, DeviceEvent(text));
    OneMoreThere(Since(acts), Snapshot(text));
    OneMoreThere(Since(acts), DeviceEvent(text));
    PushAgrees(r.snapshots, Snapshots(Since(acts)), text, config.maxSnapshots);
    PushAgrees(r.deviceEvents, DeviceEvents(Since(acts)), text, config.maxDeviceEvents);
  }

  lemma OtherAgrees(r: Recorder, config: Config, acts: seq<Act>, act: Act)
    requires Agrees(r, config, acts) && (act.Counting? || act.Probing? || act.Stopping?)
    ensures Agrees(Do(r, act), config, acts + [act])
  {
    hide Since, Notes, Drains, Snapshots, DeviceEvents, Counts, Probed, Summed, Overflowing, Last, Beyond, Drain,
      EndCall, PushSnapshot, PushDeviceEvent, RecordCoverage;
    OneMore(acts, act);
    OneMoreThere(Since(acts), act);
  }

  lemma ActAgrees(r: Recorder, config: Config, acts: seq<Act>, act: Act)
    requires Agrees(r, config, acts) && r.final.None? && !act.Draining? && !act.Ending?
    ensures Agrees(Do(r, act), config, acts + [act])
  {
    hide Agrees;
    match act {
      case Snapshot(text) => PushingAgrees(r, config, acts, text);
      case DeviceEvent(text) => PushingAgrees(r, config, acts, text);
      case Noting(note) => NotingAgrees(r, config, acts, note);
      case _ => OtherAgrees(r, config, acts, act);
    }
  }

  lemma StartAgrees(config: Config)
    ensures Agrees(Start(config), config, [])
  {
  }

  lemma FinalStays(r: Recorder, act: Act)
    requires r.final.Some?
    ensures Do(r, act).final == r.final
  {
  }

  lemma {:induction false} PlayedAgrees(config: Config, acts: seq<Act>)
    requires Played(config, acts).final.None?
    ensures Agrees(Played(config, acts), config, acts)
  {
    hide Agrees, Do;
    if acts == [] {
      StartAgrees(config);
    } else {
      var before, act := acts[..|acts| - 1], acts[|acts| - 1];
      assert acts == before + [act];
      if Played(config, before).final.Some? { FinalStays(Played(config, before), act); }
      PlayedAgrees(config, before);
      if act.Draining? || act.Ending? { DrainAgrees(Played(config, before), config, before, act); }
      else { ActAgrees(Played(config, before), config, before, act); }
    }
  }

  lemma ToldMore(l: Line, lines: seq<Line>)
    ensures Told([l] + lines) == CounterNote(l.count, l.signal, l.availability, l.reason) + Told(lines)
  {
    assert ([l] + lines)[1..] == lines;
  }

  lemma ToldSeven(a: Line, b: Line, c: Line, d: Line, e: Line, f: Line, g: Line)
    ensures Told([a, b, c, d, e, f, g]) == CounterNote(a.count, a.signal, a.availability, a.reason)
      + CounterNote(b.count, b.signal, b.availability, b.reason)
      + CounterNote(c.count, c.signal, c.availability, c.reason)
      + CounterNote(d.count, d.signal, d.availability, d.reason)
      + CounterNote(e.count, e.signal, e.availability, e.reason)
      + CounterNote(f.count, f.signal, f.availability, f.reason)
      + CounterNote(g.count, g.signal, g.availability, g.reason)
  {
    hide Told, CounterNote;
    ToldMore(a, [b, c, d, e, f, g]);
    ToldMore(b, [c, d, e, f, g]);
    ToldMore(c, [d, e, f, g]);
    ToldMore(d, [e, f, g]);
    ToldMore(e, [f, g]);
    ToldMore(f, [g]);
    ToldMore(g, []);
    assert [g] + [] == [g];
    assert Told([]) == [] by { ToldNone(); }
    assert [a] + [b, c, d, e, f, g] == [a, b, c, d, e, f, g];
    assert [b] + [c, d, e, f, g] == [b, c, d, e, f, g];
    assert [c] + [d, e, f, g] == [c, d, e, f, g];
    assert [d] + [e, f, g] == [d, e, f, g];
    assert [e] + [f, g] == [e, f, g];
    assert [f] + [g] == [f, g];
  }

  lemma ToldNone()
    ensures Told([]) == []
  {
  }

  lemma CountsAgree(r: Recorder, config: Config, acts: seq<Act>)
    requires Agrees(r, config, acts)
    ensures CounterCoverage(r.counters) == Told(CountLines(config, Since(acts), Notes(acts)))
  {
    hide Since, Notes, Snapshots, DeviceEvents, Counts, Probed, Summed, Overflowing, Drains, Beyond, Last, Told,
      CounterNote;
    var l := CountLines(config, Since(acts), Notes(acts));
    assert l == [l[0], l[1], l[2], l[3], l[4], l[5], l[6]];
    ToldSeven(l[0], l[1], l[2], l[3], l[4], l[5], l[6]);
  }

  lemma UnexposedAgrees(a: Availability)
    ensures PlatformCoverage(a) == Unexposed(a)
  {
  }

  lemma CoverageAgrees(r: Recorder, config: Config, acts: seq<Act>)
    requires Agrees(r, config, acts)
    ensures BuildCoverage(r) == Coverage(config, Since(acts), Notes(acts))
  {
    hide Since, Notes, Snapshots, DeviceEvents, Counts, Probed, Summed, Overflowing, Drains, Beyond, Last, Told,
      CounterCoverage, PlatformCoverage, CountLines, Unexposed;
    CountsAgree(r, config, acts);
    UnexposedAgrees(r.availability);
  }

  /**
   What a drain says until the call has ended: the newest snapshots and the newest device events since
   the last drain, each in its field and in order, the coverage of all that happened since, and the
   next number of a numbered recorder.
   */
  lemma DrainSays(config: Config, acts: seq<Act>, end: Option<End>)
    requires Played(config, acts).final.None?
    ensures var p, since := Drain(Played(config, acts), end).1, Since(acts);
      && Last(p.snapshots, Snapshots(since), config.maxSnapshots)
      && Last(p.deviceEvents, DeviceEvents(since), config.maxDeviceEvents)
      && p.coverage == Coverage(config, since, Notes(acts))
      && p.version == config.version && p.session == config.session && p.identity == config.identity
      && p.resync == None
      && if config.version == CONTINUOUS_CAPTURE_VERSION then p.sequence == Some(Drains(acts) + 1) && p.end == end
         else p.sequence == None && p.end == None
  {
    PlayedAgrees(config, acts);
    var r := Played(config, acts);
    CoverageAgrees(r, config, acts);
    hide Played, BuildCoverage, Coverage;
    DrainedSays(r, config, acts, end);
  }

  lemma DrainedSays(r: Recorder, config: Config, acts: seq<Act>, end: Option<End>)
    requires Agrees(r, config, acts) && r.final.None?
    ensures var p, since := Drain(r, end).1, Since(acts);
      && Last(p.snapshots, Snapshots(since), config.maxSnapshots)
      && Last(p.deviceEvents, DeviceEvents(since), config.maxDeviceEvents)
      && p.coverage == BuildCoverage(r)
      && p.version == config.version && p.session == config.session && p.identity == config.identity
      && p.resync == None
      && if config.version == CONTINUOUS_CAPTURE_VERSION then p.sequence == Some(Drains(acts) + 1) && p.end == end
         else p.sequence == None && p.end == None
  {
    hide Since, Notes, Drains, Snapshots, DeviceEvents, Counts, Probed, Summed, Overflowing, Last, Beyond,
      BuildCoverage;
  }

  /** `endCall` says the same, and ends the call. */
  lemma EndCallSays(config: Config, acts: seq<Act>, at: int)
    requires Played(config, acts).final.None?
    ensures EndCall(Played(config, acts), at).1 == Drain(Played(config, acts), Some(End("call_ended", at))).1
  {
    hide Played, BuildCoverage;
  }

  /** The call ends with `endCall`, or with a numbered drain that says so; what it returned is what stays. */
  lemma EndsExactly(config: Config, acts: seq<Act>, act: Act)
    requires Played(config, acts).final.None?
    ensures var r := Do(Played(config, acts), act);
      && (r.final.Some? <==>
            act.Ending? || (act.Draining? && config.version == CONTINUOUS_CAPTURE_VERSION && act.end.Some?
                            && act.end.value.reason == "call_ended"))
      && (r.final.Some? ==>
            r.stopped && r.final == Some(Drain(Played(config, acts),
              if act.Ending? then Some(End("call_ended", act.timestampMs)) else act.end).1))
  {
    PlayedAgrees(config, acts);
    assert Played(config, acts).config == config;
    hide Played, BuildCoverage, Agrees;
  }

  /** Once the call has ended, every drain is the final payload again, whatever happens in between. */
  lemma {:induction false} EndReplays(config: Config, acts: seq<Act>, more: seq<Act>, end: Option<End>, at: int)
    requires Played(config, acts).final.Some?
    ensures var r, final := Played(config, acts + more), Played(config, acts).final;
      r.final == final && Drain(r, end).1 == final.value && EndCall(r, at).1 == final.value
    decreases |more|
  {
    hide Do;
    if more == [] {
      assert acts + more == acts;
    } else {
      var before := more[..|more| - 1];
      assert (acts + more)[..|acts + more| - 1] == acts + before;
      EndReplays(config, acts, before, end, at);
      FinalStays(Played(config, acts + before), more[|more| - 1]);
    }
  }
}
