/**
 `EarshotBrowserRecorder` as an object over two ring buffers: each method takes the step that
 `RecorderModel` describes.
 */
module BrowserRecorder {
  import opened Wrappers
  import opened Capture
  import opened RingBuffer
  import opened RecorderModel

  class EarshotBrowserRecorder {
    const config: Config
    const snapshots: DropOldestBuffer<string>
    const deviceEvents: DropOldestBuffer<string>
    var counters: Counters
    var availability: Availability
    var pendingCoverage: seq<Note>
    var stopped: bool
    var finalPayload: Option<Payload>
    var drainSequence: nat

    ghost function Repr(): set<object>
      reads this
    {
      {this, snapshots, snapshots.items, deviceEvents, deviceEvents.items}
    }

    ghost predicate Valid()
      reads Repr()
    {
      && snapshots != deviceEvents && snapshots.items != deviceEvents.items
      && snapshots.Valid() && deviceEvents.Valid()
      && snapshots.capacity == config.maxSnapshots && deviceEvents.capacity == config.maxDeviceEvents
    }

    ghost function Model(): Recorder
      requires Valid()
      reads Repr()
    {
      Recorder(config, snapshots.Contents(), deviceEvents.Contents(), counters, availability,
               pendingCoverage, stopped, finalPayload, drainSequence)
    }

    constructor (config: Config)
      ensures Valid() && Model() == Start(config)
    {
      this.config := config;
      snapshots := new DropOldestBuffer(config.maxSnapshots);
      deviceEvents := new DropOldestBuffer(config.maxDeviceEvents);
      counters := ZERO_COUNTERS;
      availability := ZERO_AVAILABILITY;
      pendingCoverage := [];
      stopped := false;
      finalPayload := None;
      drainSequence := 0;
    }

    method PushSnapshot(snapshot: string)
      requires Valid()
      modifies Repr()
      ensures Valid() && Model() == RecorderModel.PushSnapshot(old(Model()), snapshot)
    {
      var dropped := snapshots.Push(snapshot);
      if dropped {
        counters := counters.(droppedSnapshots := counters.droppedSnapshots + 1);
      }
    }

    method PushDeviceEvent(event: string)
      requires Valid()
      modifies Repr()
      ensures Valid() && Model() == RecorderModel.PushDeviceEvent(old(Model()), event)
    {
      var dropped := deviceEvents.Push(event);
      if dropped {
        counters := counters.(droppedDeviceEvents := counters.droppedDeviceEvents + 1);
      }
    }

    /** The search of `recordCoverage` for a note about the same gap. */
    method FindPending(note: Note) returns (at: nat)
      ensures at == Find(pendingCoverage, note)
    {
      at := 0;
      while at < |pendingCoverage| && !SameGap(pendingCoverage[at], note)
        invariant at <= |pendingCoverage|
        invariant forall i | 0 <= i < at :: !SameGap(pendingCoverage[i], note)
      {
        at := at + 1;
      }
      FindUnique(pendingCoverage, note, at);
    }

    method RecordCoverage(note: Note)
      requires Valid()
      modifies this`pendingCoverage, this`counters
      ensures Valid() && Model() == RecorderModel.RecordCoverage(old(Model()), note)
    {
      if stopped || note.signal == "" {
        return;
      }
      var at := FindPending(note);
      if at < |pendingCoverage| {
        if note.droppedCount.Some? {
          var existing := pendingCoverage[at];
          pendingCoverage := pendingCoverage[at :=
            existing.(droppedCount := Some(Count(existing) + note.droppedCount.value))];
        }
        return;
      }
      if |pendingCoverage| >= MAX_PENDING_COVERAGE {
        counters := counters.(droppedCoverageNotes := counters.droppedCoverageNotes + 1);
        return;
      }
      pendingCoverage := pendingCoverage + [note];
    }

    method Drain(end: Option<End>) returns (payload: Payload)
      requires Valid()
      modifies Repr()
      ensures Valid() && (Model(), payload) == RecorderModel.Drain(old(Model()), end)
    {
      hide CounterCoverage, PlatformCoverage;
      if finalPayload.Some? {
        return finalPayload.value;
      }
      var coverage := CounterCoverage(counters) + PlatformCoverage(availability) + pendingCoverage;
      var drainedSnapshots := snapshots.Drain();
      var drainedEvents := deviceEvents.Drain();
      payload := Payload(config.version, config.session, None, config.identity,
                         drainedSnapshots, drainedEvents, coverage, None, None);
      if config.version == CONTINUOUS_CAPTURE_VERSION {
        drainSequence := drainSequence + 1;
        payload := payload.(sequence := Some(drainSequence), end := end);
      }
      counters := ZERO_COUNTERS;
      availability := ZERO_AVAILABILITY;
      pendingCoverage := [];
      if config.version == CONTINUOUS_CAPTURE_VERSION && end.Some? && end.value.reason == CALL_ENDED {
        finalPayload := Some(payload);
        Stop();
      }
    }

    method EndCall(timestampMs: int) returns (payload: Payload)
      requires Valid()
      modifies Repr()
      ensures Valid() && (Model(), payload) == RecorderModel.EndCall(old(Model()), timestampMs)
    {
      if finalPayload.Some? {
        return finalPayload.value;
      }
      payload := Drain(Some(End(CALL_ENDED, timestampMs)));
      if finalPayload.None? {
        finalPayload := Some(payload);
      }
      Stop();
    }

    method Stop()
      requires Valid()
      modifies this`stopped
      ensures Valid() && Model() == RecorderModel.Stop(old(Model()))
    {
      stopped := true;
    }
  }

  lemma FindUnique(notes: seq<Note>, note: Note, at: nat)
    requires at <= |notes| && forall i | 0 <= i < at :: !SameGap(notes[i], note)
    requires at < |notes| ==> SameGap(notes[at], note)
    ensures Find(notes, note) == at
  {
  }
}
