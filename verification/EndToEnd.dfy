/**
 Recorder and transport wired together as a capture session wires them: drains are sent, and
 every loss the transport reports is recorded for a later drain. Nothing the recorder observed
 disappears on the way, and the recorder's numbering is the discipline the transport relies on.
 */
module EndToEnd {
  import opened Wrappers
  import opened Capture
  import opened RecorderModel
  import T = TransportModel
  import opened TransportShape
  import opened TransportLedger
  import opened GapFree
  import opened LossAccounting

  /** `counted` is every observation and counted error; `repeated` what a final payload sent again accounts for. */
  datatype System = System(
    recorder: Recorder,
    transport: T.Transport,
    counted: int,
    repeated: int,
    forgotten: int)

  function Begin(config: Config, limits: T.Limits): System {
    System(Start(config), T.Init(limits), 0, 0, 0)
  }

  /** The notes a give-up hands to the coverage sink: the loss itself, then the notes it carried. */
  function Reported(loss: T.Loss): seq<Note> {
    [Note("capture.upload", "partial",
          if loss.overflow then "upload_queue_overflow_oldest_dropped" else "upload_failed_payload_dropped",
          Some(Observations(loss.payload)))]
    + loss.payload.coverage
  }

  function AllReported(losses: seq<T.Loss>): seq<Note> {
    if losses == [] then [] else AllReported(losses[..|losses| - 1]) + Reported(losses[|losses| - 1])
  }

  function RecordAll(s: System, notes: seq<Note>): System {
    if notes == [] then s
    else
      var before := RecordAll(s, notes[..|notes| - 1]);
      var note := notes[|notes| - 1];
      before.(recorder := RecordCoverage(before.recorder, note),
              forgotten := before.forgotten + Forgotten(before.recorder, note))
  }

  function NewLosses(t: T.Transport, t': T.Transport): seq<T.Loss> {
    if |t.log.losses| <= |t'.log.losses| then t'.log.losses[|t.log.losses|..] else []
  }

  /** A transport step together with the coverage it reports. */
  function Advance(s: System, input: T.Input): System {
    var t' := T.Step(s.transport, input);
    RecordAll(s.(transport := t'), AllReported(NewLosses(s.transport, t')))
  }

  datatype Event =
    | Snapshot(snapshot: string)
    | DeviceEvent(event: string)
    | CountedError(counter: Counter)
    | Availability(availability: Availability)
    | DrainAndSend(end: Option<End>, serializable: bool, auth: seq<bool>)
    | EndCallAndSend(timestampMs: int, serializable: bool, auth: seq<bool>)
    | StopRecorder
    | Transporting(input: T.Input)

  function Sent(s: System, drained: (Recorder, Payload), serializable: bool, auth: seq<bool>): System {
    var again := s.recorder.final.Some?;
    Advance(s.(recorder := drained.0, repeated := s.repeated + if again then Units(drained.1) else 0),
            T.Sending(drained.1, serializable, auth))
  }

  /** A pending permission request can still push an event after the recorder stopped; the buffers take it. */
  function Next(s: System, event: Event): System {
    match event
    case Snapshot(x) =>
      s.(recorder := PushSnapshot(s.recorder, x), counted := s.counted + 1)
    case DeviceEvent(x) =>
      s.(recorder := PushDeviceEvent(s.recorder, x), counted := s.counted + 1)
    case CountedError(c) =>
      s.(recorder := s.recorder.(counters := Bump(s.recorder.counters, c)), counted := s.counted + 1)
    case Availability(a) => s.(recorder := s.recorder.(availability := a))
    case DrainAndSend(end, serializable, auth) => Sent(s, Drain(s.recorder, end), serializable, auth)
    case EndCallAndSend(at, serializable, auth) => Sent(s, EndCall(s.recorder, at), serializable, auth)
    case StopRecorder => s.(recorder := Stop(s.recorder))
    case Transporting(input) => if input.Sending? then s else Advance(s, input)
  }

  function Session(config: Config, limits: T.Limits, events: seq<Event>): System {
    if events == [] then Begin(config, limits)
    else Next(Session(config, limits, events[..|events| - 1]), events[|events| - 1])
  }

  // ---- losses come back ------------------------------------------------------------------

  lemma ReportedUnits(loss: T.Loss)
    ensures Declared(Reported(loss)) == Units(loss.payload)
  {
    var head := Reported(loss)[..1];
    DeclaredAppend(head, loss.payload.coverage);
    assert Reported(loss) == head + loss.payload.coverage;
    assert head[..0] == [];
  }

  lemma {:induction false} AllReportedUnits(losses: seq<T.Loss>)
    ensures Declared(AllReported(losses)) == LossUnits(losses)
  {
    if losses != [] {
      AllReportedUnits(losses[..|losses| - 1]);
      ReportedUnits(losses[|losses| - 1]);
      DeclaredAppend(AllReported(losses[..|losses| - 1]), Reported(losses[|losses| - 1]));
    }
  }

  lemma {:induction false} RecordAllOwes(s: System, notes: seq<Note>)
    ensures var r := RecordAll(s, notes);
            && r.transport == s.transport && r.counted == s.counted && r.repeated == s.repeated
            && Owed(r.recorder) + r.forgotten == Owed(s.recorder) + s.forgotten + Declared(notes)
            && KeepsNumbers(s.recorder, r.recorder)
  {
    if notes != [] {
      RecordAllOwes(s, notes[..|notes| - 1]);
      RecordOwes(RecordAll(s, notes[..|notes| - 1]).recorder, notes[|notes| - 1]);
    }
  }

  /** What recording coverage never touches. */
  predicate KeepsNumbers(r: Recorder, r': Recorder) {
    && r'.config == r.config && r'.snapshots == r.snapshots && r'.deviceEvents == r.deviceEvents
    && r'.final == r.final && r'.sequence == r.sequence && r'.stopped == r.stopped
  }

  lemma LossUnitsSplit(a: seq<T.Loss>, b: seq<T.Loss>)
    ensures LossUnits(a + b) == LossUnits(a) + LossUnits(b)
  {
    if b == [] {
      assert a + b == a;
    } else {
      assert (a + b)[..|a + b| - 1] == a + b[..|b| - 1];
      LossUnitsSplit(a, b[..|b| - 1]);
    }
  }

  // ---- conservation ----------------------------------------------------------------------

  /** What the transport holds and has not handed over or given up. */
  ghost function InTransit(t: T.Transport): int {
    QueueUnits(t.queue) + HandUnits(HandNow(t)) + ExactUnits(t.exact)
  }

  ghost function Everything(s: System): int {
    Owed(s.recorder) + InTransit(s.transport) + AcceptedUnits(s.transport.log.accepted) + s.forgotten
  }

  ghost predicate Within(r: Recorder) {
    |r.snapshots| <= r.config.maxSnapshots && |r.deviceEvents| <= r.config.maxDeviceEvents
  }

  ghost predicate Good(s: System) {
    Within(s.recorder) && Shape(s.transport) && Wakeful(s.transport)
  }

  /** A transport step and its reports keep the sum, up to what is being sent. */
  lemma AdvanceConserves(s: System, input: T.Input)
    requires Good(s)
    ensures Everything(Advance(s, input)) == Everything(s) + (if input.Sending? then Units(input.payload) else 0)
    ensures Good(Advance(s, input))
    ensures Advance(s, input).counted == s.counted && Advance(s, input).repeated == s.repeated
    ensures Advance(s, input).transport == T.Step(s.transport, input)
    ensures KeepsNumbers(s.recorder, Advance(s, input).recorder)
  {
    hide Shape, Wakeful, T.Step, Owed, Units, ExactUnits, HandNow;
    var t, t' := s.transport, T.Step(s.transport, input);
    StepKeeps(t, input);
    StepAccount(t, input);
    var losses := t'.log.losses[|t.log.losses|..];
    assert t'.log.losses == t.log.losses + losses;
    LossUnitsSplit(t.log.losses, losses);
    AllReportedUnits(losses);
    RecordAllOwes(s.(transport := t'), AllReported(losses));
  }

  lemma EndCallSettles(r: Recorder, timestampMs: int)
    requires r.final.None?
    ensures var (r', payload) := EndCall(r, timestampMs); Units(payload) == Owed(r) && Owed(r') == 0
  {
    DrainSettles(r, Some(End(CALL_ENDED, timestampMs)));
    hide Units;
  }

  lemma SentConserves(s: System, drained: (Recorder, Payload), serializable: bool, auth: seq<bool>)
    requires Good(s) && Within(drained.0)
    requires if s.recorder.final.Some? then drained.0 == s.recorder
             else Units(drained.1) == Owed(s.recorder) && Owed(drained.0) == 0
    ensures var s' := Sent(s, drained, serializable, auth);
            && Good(s') && s'.counted == s.counted
            && Everything(s') - s'.repeated == Everything(s) - s.repeated
  {
    hide Shape, Wakeful, Advance, Owed, Units, InTransit, AcceptedUnits;
    var again := s.recorder.final.Some?;
    AdvanceConserves(s.(recorder := drained.0, repeated := s.repeated + if again then Units(drained.1) else 0),
                     T.Sending(drained.1, serializable, auth));
  }

  lemma NextConserves(s: System, event: Event)
    requires Good(s)
    ensures var s' := Next(s, event);
            && Good(s')
            && Everything(s') - s'.counted - s'.repeated == Everything(s) - s.counted - s.repeated
  {
    hide Shape, Wakeful, Advance, InTransit, AcceptedUnits, Sent, Units, BuildCoverage, Drain, EndCall, Everything;
    match event {
      case DrainAndSend(end, serializable, auth) =>
        DrainConserves(s, end, 0);
        SentConserves(s, Drain(s.recorder, end), serializable, auth);
      case EndCallAndSend(at, serializable, auth) =>
        DrainConserves(s, None, at);
        SentConserves(s, EndCall(s.recorder, at), serializable, auth);
      case Transporting(input) =>
        if !input.Sending? { AdvanceConserves(s, input); }
      case _ => ObservingConserves(s, event);
    }
  }

  lemma DrainConserves(s: System, end: Option<End>, at: int)
    requires Good(s)
    ensures var drained := Drain(s.recorder, end);
      Within(drained.0) && (if s.recorder.final.Some? then drained.0 == s.recorder
                            else Units(drained.1) == Owed(s.recorder) && Owed(drained.0) == 0)
    ensures var drained := EndCall(s.recorder, at);
      Within(drained.0) && (if s.recorder.final.Some? then drained.0 == s.recorder
                            else Units(drained.1) == Owed(s.recorder) && Owed(drained.0) == 0)
  {
    hide Shape, Wakeful, BuildCoverage, Units, Owed;
    if s.recorder.final.None? {
      DrainSettles(s.recorder, end);
      EndCallSettles(s.recorder, at);
    }
  }

  /** Observing, counting an error and stopping the recorder. */
  lemma ObservingConserves(s: System, event: Event)
    requires Good(s) && !event.DrainAndSend? && !event.EndCallAndSend? && !event.Transporting?
    ensures var s' := Next(s, event);
            && Good(s')
            && Everything(s') - s'.counted - s'.repeated == Everything(s) - s.counted - s.repeated
  {
    hide Shape, Wakeful, InTransit, AcceptedUnits, BuildCoverage;
    if event.Snapshot? { PushOwes(s.recorder, event.snapshot); }
    if event.DeviceEvent? { PushOwes(s.recorder, event.event); }
  }

  /**
   End-to-end conservation: in every session, whatever is delivered, retried, evicted, blocked or
   abandoned, each counted observation is due in the recorder, in transit, delivered, or has been
   forgotten by a full or closed note buffer, and in exactly one of these.
   */
  lemma {:induction false} LossIsConserved(config: Config, limits: T.Limits, events: seq<Event>)
    requires limits.Positive()
    ensures var s := Session(config, limits, events);
            && Good(s)
            && Owed(s.recorder) + InTransit(s.transport) + AcceptedUnits(s.transport.log.accepted) + s.forgotten
               == s.counted + s.repeated
  {
    if events != [] {
      LossIsConserved(config, limits, events[..|events| - 1]);
      hide Next, Good, Everything;
      NextConserves(Session(config, limits, events[..|events| - 1]), events[|events| - 1]);
      SumIsEverything(Session(config, limits, events));
      SumIsEverything(Session(config, limits, events[..|events| - 1]));
    }
  }

  lemma SumIsEverything(s: System)
    ensures Everything(s)
         == Owed(s.recorder) + InTransit(s.transport) + AcceptedUnits(s.transport.log.accepted) + s.forgotten
  {
  }

  /** The recorder takes the note: it merges it with one about the same gap, or has a slot for it. */
  predicate Fits(r: Recorder, note: Note) {
    !r.stopped && note.signal != "" && (Find(r.pending, note) < |r.pending| || |r.pending| < MAX_PENDING_COVERAGE)
  }

  predicate AllFit(s: System, notes: seq<Note>) {
    notes == [] || (
      var before := notes[..|notes| - 1];
      AllFit(s, before) && Fits(RecordAll(s, before).recorder, notes[|notes| - 1]))
  }

  lemma {:induction false} FittingForgetsNothing(s: System, notes: seq<Note>)
    requires AllFit(s, notes)
    ensures RecordAll(s, notes).forgotten == s.forgotten
  {
    if notes != [] {
      FittingForgetsNothing(s, notes[..|notes| - 1]);
    }
  }

  // ---- the recorder is disciplined -------------------------------------------------------

  /** The recorder's numbering and the transport's record of what it was sent agree. */
  ghost predicate Agreed(s: System) {
    var r, t := s.recorder, s.transport;
    Numbered(r) ==>
      && T.Sent(t, r.config.session) == T.Min(r.sequence, MAX_SAFE_INTEGER)
      && (r.config.session in t.log.replayed ==> r.final.Some?)
      && (r.final.Some? ==> Final(r, r.final.value))
  }

  predicate Final(r: Recorder, p: Payload) {
    && p.session == r.config.session && p.version == r.config.version
    && p.sequence == Some(r.sequence) && 1 <= r.sequence && p.resync.None?
  }

  /** A payload as the recorder emits it, with the recorder it leaves behind. */
  predicate Emitted(r: Recorder, drained: (Recorder, Payload)) {
    var (r', p) := drained;
    && r'.config == r.config && p.session == r.config.session && p.version == r.config.version && p.resync.None?
    && (Numbered(r) ==> p.sequence == Some(r'.sequence))
    && (if r.final.Some? then r' == r && p == r.final.value
        else (Numbered(r) ==> r'.sequence == r.sequence + 1) && (r'.final.Some? ==> r'.final.value == p))
  }

  lemma SentAgrees(s: System, drained: (Recorder, Payload), serializable: bool, auth: seq<bool>)
    requires Good(s) && Within(drained.0) && Agreed(s)
    requires Numbered(s.recorder) ==> Emitted(s.recorder, drained)
    requires drained.0.config == s.recorder.config
    requires !Numbered(s.recorder) ==> Sequence(drained.1) == 0
    ensures Disciplined(s.transport, T.Sending(drained.1, serializable, auth))
    ensures Agreed(Sent(s, drained, serializable, auth))
  {
    hide Shape, Wakeful, T.Step, Everything, Units;
    var input := T.Sending(drained.1, serializable, auth);
    StepSent(s.transport, input);
    AdvanceConserves(s.(recorder := drained.0, repeated :=
      s.repeated + if s.recorder.final.Some? then Units(drained.1) else 0), input);
    hide Advance;
  }

  predicate Unnumbered(r: Recorder) {
    !Numbered(r) && r.final.Some? ==> Sequence(r.final.value) == 0
  }

  /** The transport input an event leads to, if any. */
  function Fed(s: System, event: Event): Option<T.Input> {
    match event
    case DrainAndSend(end, serializable, auth) => Some(T.Sending(Drain(s.recorder, end).1, serializable, auth))
    case EndCallAndSend(at, serializable, auth) => Some(T.Sending(EndCall(s.recorder, at).1, serializable, auth))
    case Transporting(input) => if input.Sending? then None else Some(input)
    case _ => None
  }

  /** The system as the transport step of an event finds it: the recorder has drained. */
  function Posed(s: System, event: Event): System {
    match event
    case DrainAndSend(end, _, _) => s.(recorder := Drain(s.recorder, end).0)
    case EndCallAndSend(at, _, _) => s.(recorder := EndCall(s.recorder, at).0)
    case _ => s
  }

  /** Every note that the event's transport step reports fits the recorder. */
  predicate ReportsFit(s: System, event: Event) {
    Fed(s, event).Some? ==>
      AllFit(Posed(s, event), AllReported(NewLosses(s.transport, T.Step(s.transport, Fed(s, event).value))))
  }

  predicate SessionFits(config: Config, limits: T.Limits, events: seq<Event>) {
    events == [] || (
      var before := events[..|events| - 1];
      SessionFits(config, limits, before) && ReportsFit(Session(config, limits, before), events[|events| - 1]))
  }

  lemma FittingStep(s: System, event: Event)
    requires ReportsFit(s, event)
    ensures Next(s, event).forgotten == s.forgotten
  {
    hide T.Step, RecordAll, AllFit, AllReported, Drain, EndCall, BuildCoverage;
    if Fed(s, event).Some? {
      var t' := T.Step(s.transport, Fed(s, event).value);
      var notes := AllReported(NewLosses(s.transport, t'));
      FittingForgetsNothing(Posed(s, event), notes);
      OnlyForgotten(Posed(s, event), notes, t', s.repeated);
      match event {
        case DrainAndSend(end, _, _) =>
          OnlyForgotten(Posed(s, event), notes, t',
            s.repeated + if s.recorder.final.Some? then Units(Drain(s.recorder, end).1) else 0);
        case EndCallAndSend(at, _, _) =>
          OnlyForgotten(Posed(s, event), notes, t',
            s.repeated + if s.recorder.final.Some? then Units(EndCall(s.recorder, at).1) else 0);
        case _ =>
      }
    }
  }

  /** What is forgotten depends on the recorder and the notes alone. */
  lemma {:induction false} OnlyForgotten(s: System, notes: seq<Note>, t: T.Transport, repeated: int)
    ensures var r := RecordAll(s.(transport := t, repeated := repeated), notes);
      r.forgotten == RecordAll(s, notes).forgotten && r.recorder == RecordAll(s, notes).recorder
  {
    if notes != [] {
      OnlyForgotten(s, notes[..|notes| - 1], t, repeated);
    }
  }

  /** A recorder with room for every note of a batch takes them all, merged or not. */
  lemma {:induction false} RoomFits(s: System, notes: seq<Note>)
    requires !s.recorder.stopped && |s.recorder.pending| + |notes| <= MAX_PENDING_COVERAGE
    requires forall i | 0 <= i < |notes| :: notes[i].signal != ""
    ensures AllFit(s, notes)
    ensures |RecordAll(s, notes).recorder.pending| <= |s.recorder.pending| + |notes|
    ensures !RecordAll(s, notes).recorder.stopped
  {
    if notes != [] {
      RoomFits(s, notes[..|notes| - 1]);
    }
  }

  /** The recorder is open when the event's losses are reported, and has a slot for each of their notes. */
  predicate HasRoom(s: System, event: Event) {
    Fed(s, event).Some? ==>
      var r := Posed(s, event).recorder;
      var notes := AllReported(NewLosses(s.transport, T.Step(s.transport, Fed(s, event).value)));
      && !r.stopped && |r.pending| + |notes| <= MAX_PENDING_COVERAGE
      && forall i | 0 <= i < |notes| :: notes[i].signal != ""
  }

  /** With room at every event, merged or not, each note fits. */
  lemma {:induction false} RoomySessionFits(config: Config, limits: T.Limits, events: seq<Event>)
    requires forall i | 0 <= i < |events| :: HasRoom(Session(config, limits, events[..i]), events[i])
    ensures SessionFits(config, limits, events)
  {
    hide Session, HasRoom, ReportsFit;
    if events != [] {
      var before, event := events[..|events| - 1], events[|events| - 1];
      forall i | 0 <= i < |before| ensures HasRoom(Session(config, limits, before[..i]), before[i]) {
        assert before[..i] == events[..i] && before[i] == events[i];
      }
      RoomySessionFits(config, limits, before);
      RoomReportsFit(Session(config, limits, before), event);
    }
  }

  lemma RoomReportsFit(s: System, event: Event)
    requires HasRoom(s, event)
    ensures ReportsFit(s, event)
  {
    hide T.Step, AllFit, AllReported, NewLosses, Posed, Fed;
    if Fed(s, event).Some? {
      RoomFits(Posed(s, event), AllReported(NewLosses(s.transport, T.Step(s.transport, Fed(s, event).value))));
    }
  }

  /**
   Over a whole session: while every reported note finds an open recorder with a matching note or a
   free slot, nothing is forgotten, so each counted observation is due, in transit or delivered.
   */
  lemma {:induction false} RoomForgetsNothing(config: Config, limits: T.Limits, events: seq<Event>)
    requires limits.Positive() && SessionFits(config, limits, events)
    ensures var s := Session(config, limits, events);
            && s.forgotten == 0
            && Owed(s.recorder) + InTransit(s.transport) + AcceptedUnits(s.transport.log.accepted)
               == s.counted + s.repeated
  {
    LossIsConserved(config, limits, events);
    if events != [] {
      var before := events[..|events| - 1];
      RoomForgetsNothing(config, limits, before);
      hide Next, ReportsFit, Good, Owed, InTransit, AcceptedUnits;
      FittingStep(Session(config, limits, before), events[|events| - 1]);
    }
  }

  lemma NextAgrees(s: System, event: Event)
    requires Good(s) && Agreed(s) && Unnumbered(s.recorder)
    ensures Agreed(Next(s, event)) && Unnumbered(Next(s, event).recorder)
    ensures Fed(s, event).Some? ==> Disciplined(s.transport, Fed(s, event).value)
    ensures Next(s, event).transport
         == if Fed(s, event).Some? then T.Step(s.transport, Fed(s, event).value) else s.transport
  {
    hide Shape, Wakeful, T.Step, Everything, Units, BuildCoverage, Disciplined;
    match event {
      case DrainAndSend(end, serializable, auth) =>
        SentAgrees(s, Drain(s.recorder, end), serializable, auth);
        SentSteps(s, Drain(s.recorder, end), serializable, auth);
      case EndCallAndSend(at, serializable, auth) =>
        SentAgrees(s, EndCall(s.recorder, at), serializable, auth);
        SentSteps(s, EndCall(s.recorder, at), serializable, auth);
      case Transporting(input) =>
        if !input.Sending? {
          StepSent(s.transport, input);
          AdvanceConserves(s, input);
          NotSendingDisciplined(s.transport, input);
          hide Advance;
        }
      case _ =>
    }
  }

  lemma NotSendingDisciplined(t: T.Transport, input: T.Input)
    requires !input.Sending?
    ensures Disciplined(t, input)
  {
  }

  lemma SentSteps(s: System, drained: (Recorder, Payload), serializable: bool, auth: seq<bool>)
    requires Good(s) && Within(drained.0)
    ensures Sent(s, drained, serializable, auth).transport
        == T.Step(s.transport, T.Sending(drained.1, serializable, auth))
    ensures KeepsNumbers(drained.0, Sent(s, drained, serializable, auth).recorder)
  {
    hide Shape, Wakeful, T.Step, Everything, Units;
    AdvanceConserves(s.(recorder := drained.0, repeated :=
      s.repeated + if s.recorder.final.Some? then Units(drained.1) else 0),
      T.Sending(drained.1, serializable, auth));
    hide Advance;
  }

  /**
   The recorder's own numbering is all the discipline the transport needs: in every session the
   ledger of the recorder's drains is sound, so its guarantees hold with no assumption on the caller.
   */
  lemma {:induction false} SessionIsGapFree(config: Config, limits: T.Limits, events: seq<Event>, session: string)
    requires limits.Positive()
    ensures var s := Session(config, limits, events);
            Agreed(s) && Unnumbered(s.recorder) && Sound(s.transport, session)
  {
    if events != [] {
      var before := Session(config, limits, events[..|events| - 1]);
      SessionIsGapFree(config, limits, events[..|events| - 1], session);
      LossIsConserved(config, limits, events[..|events| - 1]);
      hide Next, Agreed, Unnumbered, Sound, Shape, Wakeful, Disciplined, Fed;
      NextAgrees(before, events[|events| - 1]);
      if Fed(before, events[|events| - 1]).Some? {
        StepSound(before.transport, Fed(before, events[|events| - 1]).value, session);
      }
    }
  }

  /** The final payload, once there is one, stays. */
  lemma FinalStays(s: System, event: Event)
    requires Good(s) && s.recorder.final.Some?
    ensures Next(s, event).recorder.final == s.recorder.final
    ensures Fed(s, event).Some? && Fed(s, event).value.Sending? ==>
        Fed(s, event).value.payload == s.recorder.final.value
  {
    hide Shape, Wakeful, T.Step, Everything, Units, BuildCoverage;
    match event {
      case DrainAndSend(end, serializable, auth) => SentSteps(s, Drain(s.recorder, end), serializable, auth);
      case EndCallAndSend(at, serializable, auth) => SentSteps(s, EndCall(s.recorder, at), serializable, auth);
      case Transporting(input) =>
        if !input.Sending? { AdvanceConserves(s, input); hide Advance; }
      case _ =>
    }
  }

  /** After the first final payload of a session, every later send carries exactly that payload. */
  lemma {:induction false} FinalIsReplayed(config: Config, limits: T.Limits, events: seq<Event>, more: seq<Event>,
          next: Event)
    requires limits.Positive() && Session(config, limits, events).recorder.final.Some?
    ensures var final := Session(config, limits, events).recorder.final;
            var s := Session(config, limits, events + more);
            && s.recorder.final == final
            && (Fed(s, next).Some? && Fed(s, next).value.Sending? ==> Fed(s, next).value.payload == final.value)
    decreases |more|
  {
    hide Next, Good, Fed;
    LossIsConserved(config, limits, events + more);
    if more == [] {
      assert events + more == events;
    } else {
      var n := |more| - 1;
      FinalIsReplayed(config, limits, events, more[..n], more[n]);
      LossIsConserved(config, limits, events + more[..n]);
      assert (events + more)[..|events + more| - 1] == events + more[..n];
      FinalStays(Session(config, limits, events + more[..n]), more[n]);
    }
    FinalStays(Session(config, limits, events + more), next);
  }
}
