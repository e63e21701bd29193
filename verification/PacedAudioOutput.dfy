/** The virtual speaker as an object: producer calls and playout steps update its fields in place. */
module PacedAudio {
  import opened Wrappers
  import opened PlayoutModel

  class PacedAudioOutput {
    var queue: seq<Item>
    var interrupt: bool
    var started: bool
    var capturing: bool
    var segmentId: nat
    var finishedId: nat
    var current: Option<Segment>
    var run: Option<Open>
    var waiting: Waiting
    ghost var pushed: seq<real>
    var finishes: seq<Finish>

    ghost function Model(): Player
      reads this
    {
      Player(queue, interrupt, started, capturing, segmentId, finishedId, current, run, waiting, pushed, finishes)
    }

    constructor ()
      ensures Model() == INITIAL
    {
      queue, interrupt, started, capturing := [], false, false, false;
      segmentId, finishedId := 0, 0;
      current, run, waiting := None, None, Idle;
      pushed, finishes := [], [];
    }

    method CaptureFrame(seconds: real)
      modifies this
      ensures Model() == Capture(old(Model()), seconds)
    {
      if !capturing {
        capturing := true;
        segmentId := segmentId + 1;
        pushed := pushed + [seconds];
      } else if 0 < segmentId <= |pushed| {
        pushed := pushed[segmentId - 1 := pushed[segmentId - 1] + seconds];
      }
      if !started {
        started := true;
      }
      queue := queue + [Frame(segmentId, seconds)];
    }

    method FlushSegment()
      modifies this
      ensures Model() == Flush(old(Model()))
    {
      if capturing {
        capturing := false;
        queue := queue + [End(segmentId)];
      }
    }

    method ClearQueue()
      modifies this
      ensures Model() == ClearBuffer(old(Model()))
    {
      while queue != []
        invariant Model() == old(Model()).(queue := queue)
        decreases |queue|
      {
        queue := queue[1..];
      }
      interrupt := true;
      queue := queue + [Clear(segmentId)];
    }

    /** One dequeued item, up to the task's next suspension. */
    method PlayoutItem(now: real, wall: real)
      modifies this
      ensures Model() == Get(old(Model()), now, wall)
    {
      hide StartFrame, Report, CutTo;
      if !started || !waiting.Idle? || queue == [] {
        return;
      }
      var item := queue[0];
      queue := queue[1..];
      if item.Clear? {
        interrupt := false;
        FinishThrough(item.segment);
        return;
      }
      if item.segment <= finishedId {
        return;
      }
      if item.End? {
        FinishSegment(item.segment, false);
        return;
      }
      BeginFrame(item.seconds, now, wall);
    }

    method BeginFrame(seconds: real, now: real, wall: real)
      modifies this
      ensures Model() == StartFrame(old(Model()), seconds, now, wall)
    {
      if current.None? {
        current := Some(Segment(0.0, 0.0, false, []));
      }
      current := Some(current.value.(captured := current.value.captured + seconds));
      if run.None? || now > run.value.start + run.value.seconds + UNDERRUN_SECONDS {
        CloseOpenRun();
        run := Some(Open(now, wall, current.value.played, 0.0));
      }
      waiting := Playing(seconds, run.value.start + run.value.seconds);
    }

    method FramePlayed()
      modifies this
      ensures Model() == Timeout(old(Model()))
    {
      if waiting.Playing? {
        AdvanceBy(waiting.seconds);
        waiting := Idle;
      }
    }

    method FrameInterrupted(now: real)
      modifies this
      ensures Model() == Interrupted(old(Model()), now)
    {
      if waiting.Playing? && interrupt {
        var elapsed := if now - waiting.start > 0.0 then now - waiting.start else 0.0;
        AdvanceBy(if elapsed < waiting.seconds then elapsed else waiting.seconds);
        waiting := Idle;
        interrupt := false;
        FinishThrough(segmentId);
      }
    }

    method FinishThrough(id: nat)
      modifies this
      ensures Model() == CutTo(old(Model()), id)
    {
      while finishedId < id
        invariant CutTo(Model(), id) == CutTo(old(Model()), id)
        decreases id - finishedId
      {
        FinishSegment(finishedId + 1, true);
      }
    }

    method AdvanceBy(seconds: real)
      modifies this
      ensures Model() == Advance(old(Model()), seconds)
    {
      if current.Some? && run.Some? {
        run := Some(run.value.(seconds := run.value.seconds + seconds));
        current := Some(current.value.(played := current.value.played + seconds));
      }
    }

    method CloseOpenRun()
      modifies this
      ensures Model() == CloseRun(old(Model()))
    {
      if run.Some? && run.value.seconds > 0.0 && current.Some? {
        var stretch := Stretch(run.value.wall, run.value.offset, run.value.seconds);
        current := Some(current.value.(runs := current.value.runs + [stretch]));
      }
      run := None;
    }

    method FinishSegment(id: nat, interrupted: bool)
      modifies this
      ensures Model() == Report(old(Model()), id, interrupted)
    {
      finishedId := id;
      if current.None? {
        finishes := finishes + [Finish(id, Segment(0.0, 0.0, true, []))];
        return;
      }
      CloseOpenRun();
      finishes := finishes + [Finish(id, current.value.(interrupted := interrupted))];
      current := None;
    }
  }
}
