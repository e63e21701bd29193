/**
 What each payload of a whole call says: the recorder of a call is the recorder of its history, in
 which the losses of the transport appear as notes.
 */
module CallHistory {
  import opened Wrappers
  import opened Capture
  import opened RecorderModel
  import T = TransportModel
  import EndToEnd
  import opened RecorderHistory

  /** What a lost payload is reported as: itself, by its observations, and every note it carried. */
  function LossActs(loss: T.Loss): seq<Act> {
    [Noting(Note("capture.upload", "partial",
                 if loss.overflow then "upload_queue_overflow_oldest_dropped" else "upload_failed_payload_dropped",
                 Some(|loss.payload.snapshots| + |loss.payload.deviceEvents|)))]
    + NoteActs(loss.payload.coverage)
  }

  function NoteActs(notes: seq<Note>): seq<Act> {
    seq(|notes|, i requires 0 <= i < |notes| => Noting(notes[i]))
  }

  function LossesActs(losses: seq<T.Loss>): seq<Act> {
    if losses == [] then [] else LossesActs(losses[..|losses| - 1]) + LossActs(losses[|losses| - 1])
  }

  /** What an event does to the recorder itself. */
  function Own(event: EndToEnd.Event): seq<Act> {
    match event
    case Snapshot(x) => [Snapshot(x)]
    case DeviceEvent(x) => [DeviceEvent(x)]
    case CountedError(c) => [Counting(c)]
    case Availability(a) => [Probing(a)]
    case DrainAndSend(end, _, _) => [Draining(end)]
    case EndCallAndSend(at, _, _) => [Ending(at)]
    case StopRecorder => [Stopping]
    case Transporting(_) => []
  }

  /** The history of the recorder in a call: each event, and then the losses that the transport reported over it. */
  function History(config: Config, limits: T.Limits, events: seq<EndToEnd.Event>): seq<Act> {
    if events == [] then []
    else
      var before, after := EndToEnd.Session(config, limits, events[..|events| - 1]),
          EndToEnd.Session(config, limits, events);
      History(config, limits, events[..|events| - 1]) + Own(events[|events| - 1])
      + LossesActs(if |before.transport.log.losses| <= |after.transport.log.losses|
                   then after.transport.log.losses[|before.transport.log.losses|..] else [])
  }

  lemma {:induction false} PlayedAppend(config: Config, acts: seq<Act>, act: Act)
    ensures Played(config, acts + [act]) == Do(Played(config, acts), act)
  {
    assert (acts + [act])[..|acts|] == acts;
  }

  lemma {:induction false} RecordAllPlays(config: Config, s: EndToEnd.System, acts: seq<Act>, notes: seq<Note>)
    requires s.recorder == Played(config, acts)
    ensures EndToEnd.RecordAll(s, notes).recorder == Played(config, acts + NoteActs(notes))
    ensures EndToEnd.RecordAll(s, notes).transport == s.transport
  {
    hide RecordCoverage;
    if notes == [] {
      assert acts + NoteActs(notes) == acts;
    } else {
      var n := |notes| - 1;
      RecordAllPlays(config, s, acts, notes[..n]);
      assert acts + NoteActs(notes) == acts + NoteActs(notes[..n]) + [Noting(notes[n])];
      PlayedAppend(config, acts + NoteActs(notes[..n]), Noting(notes[n]));
    }
  }

  lemma NoteActsAppend(a: seq<Note>, b: seq<Note>)
    ensures NoteActs(a + b) == NoteActs(a) + NoteActs(b)
  {
  }

  lemma {:induction false} LossesAreNotes(losses: seq<T.Loss>)
    ensures LossesActs(losses) == NoteActs(EndToEnd.AllReported(losses))
  {
    if losses != [] {
      var n := |losses| - 1;
      LossesAreNotes(losses[..n]);
      NoteActsAppend(EndToEnd.AllReported(losses[..n]), EndToEnd.Reported(losses[n]));
      assert NoteActs(EndToEnd.Reported(losses[n])) == LossActs(losses[n]);
    }
  }

  /** A step of the transport, its losses noted. */
  lemma AdvancePlays(config: Config, s: EndToEnd.System, acts: seq<Act>, input: T.Input)
    requires s.recorder == Played(config, acts)
    ensures var r := EndToEnd.Advance(s, input);
      && r.transport == T.Step(s.transport, input)
      && r.recorder == Played(config, acts + LossesActs(EndToEnd.NewLosses(s.transport, r.transport)))
  {
    hide T.Step, EndToEnd.RecordAll, EndToEnd.AllReported, Played;
    var t' := T.Step(s.transport, input);
    LossesAreNotes(EndToEnd.NewLosses(s.transport, t'));
    RecordAllPlays(config, s.(transport := t'), acts, EndToEnd.AllReported(EndToEnd.NewLosses(s.transport, t')));
  }

  lemma NextPlays(config: Config, s: EndToEnd.System, acts: seq<Act>, event: EndToEnd.Event)
    requires s.recorder == Played(config, acts)
    ensures var r := EndToEnd.Next(s, event);
      r.recorder == Played(config, acts + Own(event) + LossesActs(EndToEnd.NewLosses(s.transport, r.transport)))
  {
    hide EndToEnd.Advance, Played, Drain, EndCall, PushSnapshot, PushDeviceEvent, Bump;
    var own := Own(event);
    if own != [] { PlayedAppend(config, acts, own[0]); assert acts + own == acts + [own[0]]; }
    else { assert acts + own == acts; }
    assert EndToEnd.NewLosses(s.transport, s.transport) == [];
    assert acts + own + LossesActs([]) == acts + own;
    match event {
      case DrainAndSend(end, serializable, auth) =>
        var drained := Drain(s.recorder, end);
        var posed := s.(recorder := drained.0,
                        repeated := s.repeated + if s.recorder.final.Some? then Units(drained.1) else 0);
        AdvancePlays(config, posed, acts + own, T.Sending(drained.1, serializable, auth));
      case EndCallAndSend(at, serializable, auth) =>
        var drained := EndCall(s.recorder, at);
        var posed := s.(recorder := drained.0,
                        repeated := s.repeated + if s.recorder.final.Some? then Units(drained.1) else 0);
        AdvancePlays(config, posed, acts + own, T.Sending(drained.1, serializable, auth));
      case Transporting(input) => if !input.Sending? { AdvancePlays(config, s, acts + own, input); }
      case _ =>
    }
  }

  /** The recorder of a call is the recorder of the call's history. */
  lemma {:induction false} SessionIsPlayed(config: Config, limits: T.Limits, events: seq<EndToEnd.Event>)
    ensures EndToEnd.Session(config, limits, events).recorder == Played(config, History(config, limits, events))
  {
    hide EndToEnd.Next, Played, LossesActs;
    if events == [] {
      assert Played(config, []) == Start(config) by { NothingPlayed(config); }
    } else {
      var front := events[..|events| - 1];
      SessionIsPlayed(config, limits, front);
      NextPlays(config, EndToEnd.Session(config, limits, front), History(config, limits, front), events[|events| - 1]);
    }
  }

  lemma NothingPlayed(config: Config)
    ensures Played(config, []) == Start(config)
  {
  }

  /**
   Every payload that a call sends before it has ended says what happened since the last drain, the
   losses of earlier payloads included, which come back as notes.
   */
  lemma SentSays(config: Config, limits: T.Limits, events: seq<EndToEnd.Event>, end: Option<End>, serializable: bool,
                 auth: seq<bool>)
    requires EndToEnd.Session(config, limits, events).recorder.final.None?
    ensures var acts := History(config, limits, events);
      var input := EndToEnd.Fed(EndToEnd.Session(config, limits, events),
                                EndToEnd.DrainAndSend(end, serializable, auth));
      && input.Some? && input.value.Sending?
      && var p, since := input.value.payload, Since(acts);
        && Last(p.snapshots, RecorderHistory.Snapshots(since), config.maxSnapshots)
        && Last(p.deviceEvents, RecorderHistory.DeviceEvents(since), config.maxDeviceEvents)
        && p.coverage == Coverage(config, since, Notes(acts))
        && p.session == config.session && p.identity == config.identity && p.version == config.version
        && (config.version == CONTINUOUS_CAPTURE_VERSION ==> p.sequence == Some(Drains(acts) + 1) && p.end == end)
  {
    SessionIsPlayed(config, limits, events);
    hide EndToEnd.Session, Played, Since, Notes, Drains, Coverage, Last, History;
    DrainSays(config, History(config, limits, events), end);
    hide Drain;
  }
}
