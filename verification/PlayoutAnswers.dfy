/**
 What each step of the playout task reports, in every run: how long a frame played, where a run of
 audio begins and ends, and which segments end complete or cut. Stated on the fields of the player alone.
 */
module PlayoutAnswers {
  import opened Wrappers
  import opened PlayoutModel
  import opened PlayoutGuarantees

  // ---- every open segment has a frame --------------------------------------------------------

  /** A frame of the segment waits in the queue. */
  ghost predicate Waits(queue: seq<Item>, id: nat) {
    exists i :: 0 <= i < |queue| && queue[i].Frame? && queue[i].segment == id
  }

  /** Every segment opened and neither finished nor about to be cut is being played or has a frame waiting. */
  ghost predicate Present(p: Player) {
    forall id: nat :: Floor(p) < id <= p.segment ==> Waits(p.queue, id) || (id == p.finished + 1 && p.current.Some?)
  }

  lemma WaitsMore(queue: seq<Item>, item: Item, id: nat)
    ensures Waits(queue + [item], id) <==> Waits(queue, id) || (item.Frame? && item.segment == id)
  {
    var more := queue + [item];
    if Waits(queue, id) {
      var i :| 0 <= i < |queue| && queue[i].Frame? && queue[i].segment == id;
      assert more[i] == queue[i];
    }
    assert more[|queue|] == item;
  }

  lemma WaitsFirst(queue: seq<Item>, id: nat)
    requires queue != []
    ensures Waits(queue, id) <==> Waits(queue[1..], id) || (queue[0].Frame? && queue[0].segment == id)
  {
    if Waits(queue[1..], id) {
      var i :| 0 <= i < |queue[1..]| && queue[1..][i].Frame? && queue[1..][i].segment == id;
      assert queue[i + 1] == queue[1..][i];
    }
    if Waits(queue, id) {
      var i :| 0 <= i < |queue| && queue[i].Frame? && queue[i].segment == id;
      assert i > 0 ==> queue[1..][i - 1] == queue[i];
    }
  }

  lemma CapturePresent(p: Player, seconds: real)
    requires Present(p)
    ensures Present(Capture(p, seconds))
  {
    hide Waits;
    var r := Capture(p, seconds);
    forall id: nat | Floor(r) < id <= r.segment
      ensures Waits(r.queue, id) || (id == r.finished + 1 && r.current.Some?)
    {
      WaitsMore(p.queue, Frame(r.segment, seconds), id);
    }
  }

  lemma FlushPresent(p: Player)
    requires Present(p)
    ensures Present(Flush(p))
  {
    hide Waits;
    var r := Flush(p);
    forall id: nat | Floor(r) < id <= r.segment
      ensures Waits(r.queue, id) || (id == r.finished + 1 && r.current.Some?)
    {
      WaitsMore(p.queue, End(p.segment), id);
    }
  }

  lemma ClearPresent(p: Player)
    requires p.finished <= p.segment
    ensures Present(ClearBuffer(p))
  {
  }

  /** Consuming the head leaves every other segment its frames. */
  lemma GetPresent(p: Player, now: real, wall: real)
    requires Invariant(p) && Present(p) && p.queue != [] && p.waiting.Idle?
    ensures Present(Get(p, now, wall))
  {
    var r := Get(p, now, wall);
    if p.started {
      ConsumedFrame(p, now, wall);
      assert Orderly(p.queue, p.finished, p.segment);
      assert forall i :: 0 < i < |p.queue| ==> !p.queue[i].Clear?;
      hide Get, Invariant, Waits, Orderly;
      forall id: nat | Floor(r) < id <= r.segment
        ensures Waits(r.queue, id) || (id == r.finished + 1 && r.current.Some?)
      {
        WaitsFirst(p.queue, id);
        assert Waits(p.queue, id) || (id == p.finished + 1 && p.current.Some?);
        HeadIs(p);
      }
    }
  }

  lemma HeadIs(p: Player)
    requires p.queue != [] && Orderly(p.queue, p.finished, p.segment)
    ensures p.queue[0].Clear? || p.queue[0].segment <= p.finished + 1
  {
  }

  /** What consuming the head does to the numbers. */
  lemma ConsumedFrame(p: Player, now: real, wall: real)
    requires p.started && p.waiting.Idle? && p.queue != []
    ensures var r := Get(p, now, wall);
      && r.queue == p.queue[1..] && r.segment == p.segment
      && r.finished == (if p.queue[0].Frame? || p.queue[0].segment <= p.finished then p.finished
                        else p.queue[0].segment)
      && (p.queue[0].segment <= p.finished ==> r.current == p.current)
      && (p.queue[0].Frame? && p.queue[0].segment > p.finished ==> r.current.Some?)
  {
    hide CloseRun, Report, StartFrame;
    var q := p.(queue := p.queue[1..]);
    CutFrame(q.(interrupt := false), p.queue[0].segment);
    match p.queue[0]
    case Clear(_) =>
    case End(id) => ReportKeepsRest(q, id, false);
    case Frame(_, seconds) => StartKeepsRest(q, seconds, now, wall);
  }

  lemma StartKeepsRest(p: Player, seconds: real, now: real, wall: real)
    ensures var r := StartFrame(p, seconds, now, wall);
      && r.queue == p.queue && r.segment == p.segment && r.finished == p.finished && r.current.Some?
  {
  }

  lemma {:induction false} CutFrame(p: Player, id: nat)
    ensures CutTo(p, id).queue == p.queue && CutTo(p, id).segment == p.segment
    ensures CutTo(p, id).waiting == p.waiting && CutTo(p, id).interrupt == p.interrupt
    ensures CutTo(p, id).started == p.started && CutTo(p, id).capturing == p.capturing
    decreases id - p.finished
  {
    hide CloseRun;
    if p.finished < id {
      ReportKeepsRest(p, p.finished + 1, true);
      CutFrame(Report(p, p.finished + 1, true), id);
    }
  }

  lemma ReportKeepsRest(p: Player, id: nat, interrupted: bool)
    ensures var r := Report(p, id, interrupted);
      && r.queue == p.queue && r.segment == p.segment && r.waiting == p.waiting && r.interrupt == p.interrupt
      && r.started == p.started && r.capturing == p.capturing && r.finished == id
  {
  }

  lemma StepPresent(p: Player, input: Input)
    requires Invariant(p) && Present(p)
    ensures Present(Step(p, input))
  {
    hide Invariant, Present, Capture, Flush, ClearBuffer, Get, CutTo;
    match input
    case Capturing(seconds) => CapturePresent(p, seconds);
    case Flushing => FlushPresent(p);
    case Clearing => Bounded(p); ClearPresent(p);
    case Getting(now, wall) =>
      if p.waiting.Idle? && p.queue != [] { GetPresent(p, now, wall); } else { IdleGet(p, now, wall); }
    case TimingOut => TimeoutPresent(p);
    case Interrupting(now) => CutPresent(p, now);
  }

  lemma Bounded(p: Player)
    requires Invariant(p)
    ensures p.finished <= p.segment
  {
  }

  lemma IdleGet(p: Player, now: real, wall: real)
    requires !p.waiting.Idle? || p.queue == []
    ensures Get(p, now, wall) == p
  {
  }

  lemma TimeoutPresent(p: Player)
    requires Present(p)
    ensures Present(Timeout(p))
  {
  }

  lemma CutPresent(p: Player, now: real)
    requires Invariant(p) && Present(p)
    ensures Present(Interrupted(p, now))
  {
    if p.waiting.Playing? && p.interrupt {
      var elapsed := if now - p.waiting.start > 0.0 then now - p.waiting.start else 0.0;
      var heard := if elapsed < p.waiting.seconds then elapsed else p.waiting.seconds;
      var q := Advance(p, heard).(waiting := Idle, interrupt := false);
      CutFrame(q, p.segment);
      hide CutTo;
    }
  }

  lemma {:induction false} RunPresent(inputs: seq<Input>)
    requires forall i <- inputs :: Possible(i)
    ensures Present(PlayoutModel.Run(inputs))
  {
    hide Step, Invariant, Present;
    if inputs == [] {
      NothingPresent();
    } else {
      RunPresent(inputs[..|inputs| - 1]);
      RunKeeps(inputs[..|inputs| - 1]);
      StepPresent(PlayoutModel.Run(inputs[..|inputs| - 1]), inputs[|inputs| - 1]);
    }
  }

  lemma NothingPresent()
    ensures Present(INITIAL)
  {
  }

  // ---- what the producer queues --------------------------------------------------------------

  /** What each call of the producer puts in the queue; a clear leaves nothing else there. */
  lemma ProducerSays(p: Player, seconds: real)
    ensures var r := Step(p, Capturing(seconds));
      && r.segment == (if p.capturing then p.segment else p.segment + 1) && r.capturing && r.started
      && r.queue == p.queue + [Frame(r.segment, seconds)]
      && r.finishes == p.finishes && r.current == p.current && r.waiting == p.waiting && r.interrupt == p.interrupt
    ensures var r := Step(p, Flushing);
      r == if p.capturing then p.(capturing := false, queue := p.queue + [End(p.segment)]) else p
    ensures Step(p, Clearing) == p.(interrupt := true, queue := [Clear(p.segment)])
  {
  }

  // ---- what the playout task plays ------------------------------------------------------------

  /** The open run, closed: a stretch of what it played, if it played anything. */
  function Closing(runs: seq<Stretch>, run: Option<Open>, more: real): seq<Stretch> {
    if run.Some? && run.value.seconds + more > 0.0
    then runs + [Stretch(run.value.wall, run.value.offset, run.value.seconds + more)] else runs
  }

  /**
   A frame that is taken counts as captured. It goes on with the open run when it comes within 5 ms of the
   run's end, and starts at that end; after a longer gap the run is closed and another one opens now.
   */
  lemma FrameStarts(inputs: seq<Input>, now: real, wall: real)
    requires forall i <- inputs :: Possible(i)
    requires var p := PlayoutModel.Run(inputs);
      p.started && p.waiting.Idle? && p.queue != [] && p.queue[0].Frame? && p.queue[0].segment > p.finished
    ensures var p := PlayoutModel.Run(inputs);
      var r, seconds := Step(p, Getting(now, wall)), p.queue[0].seconds;
      var before := if p.current.Some? then p.current.value else Segment(0.0, 0.0, false, []);
      && r.queue == p.queue[1..] && r.finishes == p.finishes && r.finished == p.finished
      && if p.run.Some? && now <= p.run.value.start + p.run.value.seconds + 0.005 then
           && r.current == Some(before.(captured := before.captured + seconds)) && r.run == p.run
           && r.waiting == Playing(seconds, p.run.value.start + p.run.value.seconds)
         else
           && r.current == Some(before.(captured := before.captured + seconds,
                                        runs := Closing(before.runs, p.run, 0.0)))
           && r.run == Some(Open(now, wall, before.played, 0.0)) && r.waiting == Playing(seconds, now)
  {
    RunKeeps(inputs);
    var p := PlayoutModel.Run(inputs);
    assert p.current.None? ==> p.run.None?;
    hide Run, Invariant;
  }

  /** A frame that is not interrupted plays for its whole duration. */
  lemma FramePlays(inputs: seq<Input>)
    requires forall i <- inputs :: Possible(i)
    requires PlayoutModel.Run(inputs).waiting.Playing?
    ensures var p := PlayoutModel.Run(inputs);
      var r, seconds := Step(p, TimingOut), p.waiting.seconds;
      && p.current.Some? && p.run.Some?
      && r == p.(waiting := Idle,
                 current := Some(p.current.value.(played := p.current.value.played + seconds)),
                 run := Some(p.run.value.(seconds := p.run.value.seconds + seconds)))
  {
    RunKeeps(inputs);
    hide Run;
  }

  /** The segments from `from` on up to `to` are reported cut, unheard. */
  predicate CutUnheard(finishes: seq<Finish>, from: nat, to: nat) {
    && |finishes| >= to
    && forall k :: from <= k < to ==> finishes[k] == Finish(k + 1, Segment(0.0, 0.0, true, []))
  }

  /** Everything up to `id` is reported cut: the segment being played with what was heard of it, the others unheard. */
  lemma {:induction false} CutReports(p: Player, id: nat)
    requires |p.finishes| == p.finished
    ensures var r := CutTo(p, id);
      && p.finishes <= r.finishes && |r.finishes| == r.finished == (if p.finished >= id then p.finished else id)
      && (p.current.None? ==> CutUnheard(r.finishes, p.finished, r.finished))
      && (p.current.Some? && p.finished < id ==>
            && r.finishes[p.finished] == Finish(p.finished + 1, p.current.value.(interrupted := true,
                 runs := Closing(p.current.value.runs, p.run, 0.0)))
            && CutUnheard(r.finishes, p.finished + 1, r.finished))
    decreases id - p.finished
  {
    if p.finished < id {
      ReportSays(p, p.finished + 1, true);
      hide Report;
      CutReports(Report(p, p.finished + 1, true), id);
    }
  }

  lemma ReportSays(p: Player, id: nat, interrupted: bool)
    ensures var r := Report(p, id, interrupted);
      && r.finished == id && r.current.None?
      && r.finishes == p.finishes + [Finish(id,
           if p.current.None? then Segment(0.0, 0.0, true, [])
           else p.current.value.(interrupted := interrupted, runs := Closing(p.current.value.runs, p.run, 0.0)))]
  {
  }

  /**
   A clear that arrives while a frame plays: what was heard of the frame counts, never less than nothing or
   more than its duration, and its segment is reported cut, as is each later one, unheard.
   */
  lemma FrameCut(inputs: seq<Input>, now: real)
    requires forall i <- inputs :: Possible(i)
    requires var p := PlayoutModel.Run(inputs); p.waiting.Playing? && p.interrupt
    ensures var p := PlayoutModel.Run(inputs);
      var r, seconds := Step(p, Interrupting(now)), p.waiting.seconds;
      var since := now - p.waiting.start;
      var heard := if since < 0.0 then 0.0 else if since > seconds then seconds else since;
      && r.waiting.Idle? && !r.interrupt && r.queue == p.queue
      && p.finishes <= r.finishes && |r.finishes| == p.segment && p.finished < p.segment
      && p.current.Some?
      && r.finishes[p.finished] == Finish(p.finished + 1, p.current.value.(interrupted := true,
           played := p.current.value.played + heard, runs := Closing(p.current.value.runs, p.run, heard)))
      && CutUnheard(r.finishes, p.finished + 1, p.segment)
  {
    RunKeeps(inputs);
    var p := PlayoutModel.Run(inputs);
    assert p.current.Some? && p.run.Some? && p.finished < p.segment && p.waiting.seconds >= 0.0;
    assert |p.finishes| == p.finished;
    hide Run, Invariant, Interrupted;
    CutSays(p, now);
  }

  lemma CutSays(p: Player, now: real)
    requires p.waiting.Playing? && p.interrupt && p.current.Some? && p.run.Some? && p.waiting.seconds >= 0.0
    requires |p.finishes| == p.finished < p.segment
    ensures var r, seconds := Interrupted(p, now), p.waiting.seconds;
      var since := now - p.waiting.start;
      var heard := if since < 0.0 then 0.0 else if since > seconds then seconds else since;
      && r.waiting.Idle? && !r.interrupt && r.queue == p.queue
      && p.finishes <= r.finishes && |r.finishes| == p.segment
      && r.finishes[p.finished] == Finish(p.finished + 1, p.current.value.(interrupted := true,
           played := p.current.value.played + heard, runs := Closing(p.current.value.runs, p.run, heard)))
      && CutUnheard(r.finishes, p.finished + 1, p.segment)
  {
    hide CutTo;
    var since := now - p.waiting.start;
    var elapsed := if since > 0.0 then since else 0.0;
    var heard := if elapsed < p.waiting.seconds then elapsed else p.waiting.seconds;
    var q := Advance(p, heard).(waiting := Idle, interrupt := false);
    CutReports(q, p.segment);
    CutFrame(q, p.segment);
    hide CutUnheard;
  }

  /**
   Consuming a clear item lowers the flag and reports every segment up to its own cut, the one being played
   with what had played of it.
   */
  lemma ClearReports(inputs: seq<Input>, now: real, wall: real)
    requires forall i <- inputs :: Possible(i)
    requires var p := PlayoutModel.Run(inputs); p.started && p.waiting.Idle? && p.queue != [] && p.queue[0].Clear?
    ensures var p := PlayoutModel.Run(inputs);
      var r, id := Step(p, Getting(now, wall)), p.queue[0].segment;
      && !r.interrupt && r.queue == p.queue[1..]
      && p.finishes <= r.finishes && |r.finishes| == (if p.finished >= id then p.finished else id)
      && (p.current.Some? && p.finished < id ==>
            && r.finishes[p.finished] == Finish(p.finished + 1, p.current.value.(interrupted := true,
                 runs := Closing(p.current.value.runs, p.run, 0.0)))
            && CutUnheard(r.finishes, p.finished + 1, |r.finishes|))
      && (p.current.None? ==> CutUnheard(r.finishes, p.finished, |r.finishes|))
  {
    RunKeeps(inputs);
    var p := PlayoutModel.Run(inputs);
    assert |p.finishes| == p.finished;
    hide Run, Invariant, CutTo;
    var q := p.(queue := p.queue[1..], interrupt := false);
    CutReports(q, p.queue[0].segment);
    CutFrame(q, p.queue[0].segment);
  }

  /**
   Consuming the end of a segment that was not cut reports it complete: not interrupted, and all that was
   captured for it was played. What is left of a finished segment is passed over.
   */
  lemma EndReports(inputs: seq<Input>, now: real, wall: real)
    requires forall i <- inputs :: Possible(i)
    requires var p := PlayoutModel.Run(inputs); p.started && p.waiting.Idle? && p.queue != [] && !p.queue[0].Clear?
    ensures var p := PlayoutModel.Run(inputs);
      var r, id := Step(p, Getting(now, wall)), p.queue[0].segment;
      && (id <= p.finished ==> r == p.(queue := p.queue[1..]))
      && (p.queue[0].End? && id > p.finished ==>
            && id <= |p.pushed| && p.current.Some?
            && r.finishes == p.finishes + [Finish(id, p.current.value.(interrupted := false,
                 runs := Closing(p.current.value.runs, p.run, 0.0)))]
            && p.current.value.played == p.current.value.captured == p.pushed[id - 1])
  {
    RunKeeps(inputs);
    RunPresent(inputs);
    var p := PlayoutModel.Run(inputs);
    hide Run;
    if p.queue[0].End? && p.queue[0].segment > p.finished {
      EndIsComplete(p);
      EndHasSegment(p);
      var q := p.(queue := p.queue[1..]);
      ReportSays(q, p.queue[0].segment, false);
      AllPlayed(p);
      hide Report, Invariant, Present;
    }
  }

  lemma AllPlayed(p: Player)
    requires Invariant(p) && p.waiting.Idle?
    ensures p.current.Some? ==> p.current.value.played == p.current.value.captured
  {
  }

  /** The segment whose end comes next is being played. */
  lemma EndHasSegment(p: Player)
    requires Invariant(p) && Present(p) && p.queue != [] && p.queue[0].End? && p.queue[0].segment > p.finished
    ensures p.current.Some?
  {
    var id := p.queue[0].segment;
    EndIsComplete(p);
    assert Waits(p.queue, id) || p.current.Some?;
  }
}
