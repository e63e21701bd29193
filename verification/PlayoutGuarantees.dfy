/**
 What every interleaving of producer calls and playout steps keeps: each segment is reported
 finished once and in order, runs tile what was played, and a full report is complete.
 */
module PlayoutGuarantees {
  import opened Wrappers
  import opened PlayoutModel

  // ---------------------------------------------------------------- the queue's future

  /**
   The queue, read from segment `finished` on, closes segments one after another: each frame or end
   belongs to a finished segment or to the next one. `top` bounds the segments named.
   */
  predicate Orderly(queue: seq<Item>, finished: nat, top: nat) {
    if queue == [] then true
    else
      && queue[0].segment <= top
      && (queue[0].Clear? || queue[0].segment <= finished + 1)
      && Orderly(queue[1..], After(queue[0], finished), top)
  }

  /** The last finished segment once the item is consumed. */
  function After(item: Item, finished: nat): nat {
    if item.Frame? || item.segment <= finished then finished else item.segment
  }

  function Reached(queue: seq<Item>, finished: nat): nat {
    if queue == [] then finished else Reached(queue[1..], After(queue[0], finished))
  }

  lemma {:induction false} OrderlyAppend(queue: seq<Item>, item: Item, finished: nat, top: nat)
    ensures Orderly(queue + [item], finished, top) <==>
      && Orderly(queue, finished, top)
      && item.segment <= top
      && (item.Clear? || item.segment <= Reached(queue, finished) + 1)
    ensures Reached(queue + [item], finished) == After(item, Reached(queue, finished))
  {
    if queue == [] {
      assert (queue + [item])[1..] == [];
    } else {
      assert (queue + [item])[1..] == queue[1..] + [item];
      OrderlyAppend(queue[1..], item, After(queue[0], finished), top);
    }
  }

  lemma {:induction false} OrderlyHigher(queue: seq<Item>, finished: nat, top: nat, higher: nat)
    requires Orderly(queue, finished, top) && top <= higher
    ensures Orderly(queue, finished, higher)
  {
    if queue != [] { OrderlyHigher(queue[1..], After(queue[0], finished), top, higher); }
  }

  /** Cutting everything leaves a queue of late items only. */
  lemma {:induction false} OrderlyCut(queue: seq<Item>, finished: nat, top: nat)
    requires Orderly(queue, finished, top)
    ensures Orderly(queue, top, top) && Reached(queue, top) == top
  {
    if queue != [] { OrderlyCut(queue[1..], After(queue[0], finished), top); }
  }

  // ---------------------------------------------------------------- the invariant

  /** Queued seconds of one segment. */
  function Queued(queue: seq<Item>, id: nat): real {
    if queue == [] then 0.0
    else
      Queued(queue[..|queue| - 1], id)
      + if queue[|queue| - 1].Frame? && queue[|queue| - 1].segment == id then queue[|queue| - 1].seconds else 0.0
  }

  /** Segments up to this one are finished, or about to be cut. */
  function Floor(p: Player): nat {
    if p.queue != [] && p.queue[0].Clear? && p.queue[0].segment > p.finished then p.queue[0].segment else p.finished
  }

  function Taken(p: Player, id: nat): real {
    if id == p.finished + 1 && p.current.Some? then p.current.value.captured else 0.0
  }

  /** Segments close in order, and every closed one still has its end in the queue. */
  predicate Queueing(p: Player) {
    && p.finished <= p.segment == |p.pushed|
    && (p.capturing ==> 0 < p.segment)
    && Orderly(p.queue, p.finished, p.segment)
    && (Reached(p.queue, p.finished) == p.segment
        || (p.capturing && Reached(p.queue, p.finished) + 1 == p.segment))
  }

  /** A clear item heads the queue, and the flag is raised only while it is there. */
  predicate Clearly(p: Player) {
    && (forall i :: 0 < i < |p.queue| ==> !p.queue[i].Clear?)
    && (p.interrupt ==> p.queue != [] && p.queue[0].Clear?)
  }

  /** Reports are numbered 1, 2, 3, … */
  predicate Numbered(p: Player) {
    && |p.finishes| == p.finished
    && forall i :: 0 <= i < |p.finishes| ==> p.finishes[i].id == i + 1
  }

  /** The runs start at 0 and follow each other without a gap, up to `end`. */
  predicate Tiles(runs: seq<Stretch>, end: real) {
    if runs == [] then end == 0.0
    else
      var last := runs[|runs| - 1];
      last.seconds > 0.0 && last.offset + last.seconds == end && Tiles(runs[..|runs| - 1], last.offset)
  }

  /** What the segment being played looks like while a frame of `frame` seconds plays. */
  predicate Underway(s: Segment, run: Option<Open>, frame: real) {
    && 0.0 <= s.played && frame >= 0.0 && s.played + frame == s.captured
    && match run
       case None => Tiles(s.runs, s.played)
       case Some(r) => 0.0 <= r.seconds && r.offset + r.seconds == s.played && Tiles(s.runs, r.offset)
  }

  /** The segment being played has `rest` seconds of what was taken for it still to play. */
  predicate Voiced(p: Player, rest: real) {
    && (p.current.Some? ==> p.finished < p.segment && Underway(p.current.value, p.run, rest))
    && (p.current.None? ==> p.run.None?)
  }

  predicate Sounding(p: Player) {
    && Voiced(p, if p.waiting.Playing? then p.waiting.seconds else 0.0)
    && (p.waiting.Playing? ==> p.current.Some? && p.run.Some?)
  }

  /** The frames of a segment that is not to be cut are all taken or queued. */
  predicate Kept(p: Player) {
    && (forall i :: 0 <= i < |p.queue| && p.queue[i].Frame? ==> p.queue[i].seconds >= 0.0)
    && forall id :: Floor(p) < id <= |p.pushed| ==> p.pushed[id - 1] == Queued(p.queue, id) + Taken(p, id)
  }

  /** No more audio can join a segment whose end was sent. */
  predicate Closed(p: Player, id: nat) {
    0 < id <= p.segment && (id < p.segment || !p.capturing)
  }

  predicate EndsLast(p: Player) {
    && (forall i, j :: 0 <= i < j < |p.queue| && p.queue[i].End? && p.queue[j].Frame? ==>
          p.queue[i].segment < p.queue[j].segment)
    && forall i :: 0 <= i < |p.queue| && p.queue[i].End? ==> Closed(p, p.queue[i].segment)
  }

  predicate Ended(p: Player) {
    EndsLast(p) && forall i :: 0 <= i < |p.finishes| ==> Reported(p, p.finishes[i])
  }

  /** A report is truthful: it tiles what was played, and an uninterrupted one played all that was captured. */
  predicate Reported(p: Player, f: Finish) {
    && 0.0 <= f.segment.played <= f.segment.captured
    && Tiles(f.segment.runs, f.segment.played)
    && (!f.segment.interrupted ==>
          Closed(p, f.id) && f.id <= |p.pushed| && f.segment.played == p.pushed[f.id - 1])
  }

  ghost predicate Invariant(p: Player) {
    Queueing(p) && Clearly(p) && Numbered(p) && Sounding(p) && Kept(p) && Ended(p)
  }

  // ---------------------------------------------------------------- sums over the queue

  lemma {:induction false} QueuedFront(queue: seq<Item>, id: nat)
    requires queue != []
    ensures Queued(queue, id) == Queued(queue[1..], id) + Queued(queue[..1], id)
  {
    if |queue| == 1 {
      assert queue[1..] == [] && queue[..1] == queue;
    } else {
      var n := |queue| - 1;
      QueuedFront(queue[..n], id);
      assert queue[..n][1..] == queue[1..][..n - 1];
      assert queue[..n][..1] == queue[..1];
    }
  }

  lemma QueuedOne(queue: seq<Item>, id: nat)
    requires queue != []
    ensures Queued(queue[..1], id) ==
      if queue[0].Frame? && queue[0].segment == id then queue[0].seconds else 0.0
  {
    assert queue[..1][..0] == [];
  }

  lemma QueuedAppend(queue: seq<Item>, item: Item, id: nat)
    ensures Queued(queue + [item], id) ==
      Queued(queue, id) + if item.Frame? && item.segment == id then item.seconds else 0.0
  {
    assert (queue + [item])[..|queue|] == queue;
  }

  lemma {:induction false} OrderlyBounds(queue: seq<Item>, finished: nat, top: nat)
    requires Orderly(queue, finished, top)
    ensures forall i :: 0 <= i < |queue| ==> queue[i].segment <= top
  {
    if queue != [] {
      OrderlyBounds(queue[1..], After(queue[0], finished), top);
      forall i | 0 <= i < |queue| ensures queue[i].segment <= top {
        if i > 0 { assert queue[i] == queue[1..][i - 1]; }
      }
    }
  }

  lemma {:induction false} QueuedNone(queue: seq<Item>, id: nat)
    requires forall i :: 0 <= i < |queue| && queue[i].Frame? ==> queue[i].segment != id
    ensures Queued(queue, id) == 0.0
  {
    if queue != [] { QueuedNone(queue[..|queue| - 1], id); }
  }

  // ---------------------------------------------------------------- producer steps

  lemma CaptureQueues(p: Player, seconds: real)
    requires Invariant(p) && seconds >= 0.0
    ensures Queueing(Capture(p, seconds))
  {
    hide Orderly, Reached, Kept, Ended, Sounding, Numbered;
    var r := Capture(p, seconds);
    OrderlyHigher(p.queue, p.finished, p.segment, r.segment);
    OrderlyAppend(p.queue, Frame(r.segment, seconds), p.finished, r.segment);
  }

  lemma CaptureKeepsAudio(p: Player, seconds: real)
    requires Invariant(p) && seconds >= 0.0
    ensures Kept(Capture(p, seconds))
  {
    hide Orderly, Reached, Ended, Underway, Queued;
    var r := Capture(p, seconds);
    OrderlyBounds(p.queue, p.finished, p.segment);
    forall id: nat | Floor(r) < id <= |r.pushed|
      ensures r.pushed[id - 1] == Queued(r.queue, id) + Taken(r, id)
    {
      QueuedAppend(p.queue, Frame(r.segment, seconds), id);
      if id > p.segment { QueuedNone(p.queue, id); }
    }
  }

  lemma CaptureKeeps(p: Player, seconds: real)
    requires Invariant(p) && seconds >= 0.0
    ensures Invariant(Capture(p, seconds))
  {
    CaptureQueues(p, seconds);
    CaptureKeepsAudio(p, seconds);
    hide Orderly, Reached, Kept, Underway, Tiles, Queueing;
    CaptureReports(p, seconds);
  }

  lemma CaptureReports(p: Player, seconds: real)
    requires Invariant(p)
    ensures Ended(Capture(p, seconds)) && Sounding(Capture(p, seconds)) && Clearly(Capture(p, seconds))
  {
    hide Orderly, Reached, Kept, Underway, Tiles;
  }

  lemma FlushKeeps(p: Player)
    requires Invariant(p)
    ensures Invariant(Flush(p))
  {
    hide Orderly, Reached, Underway, Tiles, Queued;
    if p.capturing {
      OrderlyAppend(p.queue, End(p.segment), p.finished, p.segment);
      forall id: nat ensures Queued(Flush(p).queue, id) == Queued(p.queue, id) {
        QueuedAppend(p.queue, End(p.segment), id);
      }
    }
  }

  lemma ClearKeeps(p: Player)
    requires Invariant(p)
    ensures Invariant(ClearBuffer(p))
  {
    hide Underway, Tiles, Queued;
    var queue := [Clear(p.segment)];
    assert queue[1..] == [];
    assert Reached(queue, p.finished) == Reached([], p.segment) == p.segment;
    assert Orderly(queue, p.finished, p.segment);
  }

  // ---------------------------------------------------------------- reports

  /** The part of the invariant that reports change, while no frame plays. */
  ghost predicate Talking(p: Player, rest: real) {
    && p.waiting.Idle?
    && p.finished <= p.segment == |p.pushed|
    && Numbered(p) && Voiced(p, rest)
    && forall i :: 0 <= i < |p.finishes| ==> Reported(p, p.finishes[i])
  }

  lemma CloseTiles(s: Segment, run: Option<Open>, p: Player, rest: real)
    requires Underway(s, run, rest) && p.current == Some(s) && p.run == run
    ensures CloseRun(p).current.Some? && CloseRun(p).current.value == s.(runs := CloseRun(p).current.value.runs)
    ensures Tiles(CloseRun(p).current.value.runs, s.played)
  {
    if run.Some? && run.value.seconds > 0.0 {
      var more := s.runs + [Stretch(run.value.wall, run.value.offset, run.value.seconds)];
      assert more[..|more| - 1] == s.runs;
    }
  }

  lemma ReportTalks(p: Player, rest: real, interrupted: bool)
    requires Talking(p, rest) && p.finished < p.segment
    requires !interrupted && p.current.Some? ==>
      rest == 0.0 && Closed(p, p.finished + 1) && p.current.value.captured == p.pushed[p.finished]
    ensures var r := Report(p, p.finished + 1, interrupted);
      Talking(r, 0.0) && r.current.None?
      && r == p.(finished := r.finished, finishes := r.finishes, current := None, run := None)
  {
    hide Tiles;
    if p.current.Some? {
      CloseTiles(p.current.value, p.run, p, rest);
    } else {
      NothingTiles();
    }
  }

  lemma NothingTiles()
    ensures Tiles([], 0.0)
  {
  }

  lemma {:induction false} CutTalks(p: Player, rest: real, id: nat)
    requires Talking(p, rest) && id <= p.segment
    ensures var r := CutTo(p, id);
      Talking(r, if p.finished < id then 0.0 else rest)
      && (p.finished < id ==> r.current.None?)
      && (p.finished >= id ==> r == p)
      && r == p.(finished := r.finished, finishes := r.finishes, current := r.current, run := r.run)
    decreases id - p.finished
  {
    hide Talking, Report;
    if p.finished < id {
      TalkingBounds(p, rest);
      ReportFrame(p, p.finished + 1, true);
      ReportTalks(p, rest, true);
      CutTalks(Report(p, p.finished + 1, true), 0.0, id);
    }
  }

  lemma TalkingBounds(p: Player, rest: real)
    requires Talking(p, rest)
    ensures p.finished <= p.segment == |p.pushed|
  {
  }

  lemma ReportFrame(p: Player, id: nat, interrupted: bool)
    ensures Report(p, id, interrupted).finished == id
  {
  }

  lemma InvariantTalks(p: Player)
    requires Invariant(p) && p.waiting.Idle?
    ensures Talking(p, 0.0)
    ensures EndsLast(p)
  {
    hide Orderly, Reached, Underway, Tiles, Kept;
  }

  lemma TalkingKeeps(p: Player)
    requires Talking(p, 0.0) && Queueing(p) && Clearly(p) && Kept(p)
    requires EndsLast(p)
    ensures Invariant(p)
  {
    hide Orderly, Reached, Underway, Tiles, Kept;
  }

  // ---------------------------------------------------------------- playout steps

  /** Consuming the head keeps the queue orderly and leaves no clear item in it. */
  lemma HeadTaken(p: Player, r: Player)
    requires Invariant(p) && p.queue != [] && r.queue == p.queue[1..]
    requires r.finished == After(p.queue[0], p.finished)
    requires r.segment == p.segment && r.pushed == p.pushed && r.capturing == p.capturing
    requires r.interrupt ==> p.interrupt && !p.queue[0].Clear?
    ensures r.finished <= r.segment ==> Queueing(r)
    ensures Clearly(r) && Floor(r) == r.finished
    ensures EndsLast(r)
  {
    hide Underway, Tiles, Kept;
    assert forall i :: 0 <= i < |r.queue| ==> r.queue[i] == p.queue[i + 1];
  }

  lemma AudioTaken(p: Player, r: Player)
    requires Invariant(p) && p.queue != [] && r.queue == p.queue[1..] && r.pushed == p.pushed
    requires Floor(r) == r.finished && r.finished >= Floor(p)
    requires forall id: nat | r.finished < id <= |p.pushed| ::
      Taken(r, id) == Taken(p, id) + Queued(p.queue[..1], id)
    ensures Kept(r)
  {
    hide Orderly, Reached, Underway, Tiles, Queued, Taken;
    assert forall i :: 0 <= i < |r.queue| ==> r.queue[i] == p.queue[i + 1];
    forall id: nat | Floor(r) < id <= |r.pushed|
      ensures r.pushed[id - 1] == Queued(r.queue, id) + Taken(r, id)
    {
      QueuedFront(p.queue, id);
    }
  }

  lemma GetClearKeeps(p: Player, now: real, wall: real)
    requires Invariant(p) && p.started && p.waiting.Idle? && p.queue != [] && p.queue[0].Clear?
    ensures Invariant(Get(p, now, wall))
  {
    var id := p.queue[0].segment;
    var q := p.(queue := p.queue[1..], interrupt := false);
    var r := CutTo(q, id);
    InvariantTalks(p);
    SameTalk(p, q);
    OrderlyBounds(p.queue, p.finished, p.segment);
    CutTalks(q, 0.0, id);
    HeadTaken(p, r);
    forall k: nat | r.finished < k <= |p.pushed| ensures Taken(r, k) == Taken(p, k) + Queued(p.queue[..1], k) {
      QueuedOne(p.queue, k);
    }
    AudioTaken(p, r);
    hide Queueing, Clearly, Kept, CutTo, Talking;
    TalkingKeeps(r);
  }

  lemma SameTalk(p: Player, q: Player)
    requires Talking(p, 0.0) && q == p.(queue := q.queue, interrupt := q.interrupt)
    ensures Talking(q, 0.0)
  {
    hide Underway, Tiles;
  }

  lemma GetLateKeeps(p: Player)
    requires Invariant(p) && p.waiting.Idle? && p.queue != [] && !p.queue[0].Clear?
    requires p.queue[0].segment <= p.finished
    ensures Invariant(p.(queue := p.queue[1..]))
  {
    var q := p.(queue := p.queue[1..]);
    InvariantTalks(p);
    SameTalk(p, q);
    HeadTaken(p, q);
    forall k: nat | q.finished < k <= |p.pushed| ensures Taken(q, k) == Taken(p, k) + Queued(p.queue[..1], k) {
      QueuedOne(p.queue, k);
    }
    AudioTaken(p, q);
    hide Queueing, Clearly, Kept, Talking;
    TalkingKeeps(q);
  }

  /** The end of a segment is met only when all its audio has played. */
  lemma EndIsComplete(p: Player)
    requires Invariant(p) && p.queue != [] && p.queue[0].End? && p.queue[0].segment > p.finished
    ensures p.queue[0].segment == p.finished + 1 <= p.segment
    ensures Closed(p, p.finished + 1)
    ensures p.current.Some? ==> p.current.value.captured == p.pushed[p.finished]
  {
    hide Reached, Underway, Tiles;
    var id := p.finished + 1;
    assert p.queue[0].segment == id;
    assert p.pushed[id - 1] == Queued(p.queue, id) + Taken(p, id);
    assert forall i :: 0 < i < |p.queue| && p.queue[i].Frame? ==> p.queue[i].segment != id;
    QueuedNone(p.queue, id);
  }

  lemma GetEndKeeps(p: Player)
    requires Invariant(p) && p.waiting.Idle? && p.queue != [] && p.queue[0].End?
    requires p.queue[0].segment > p.finished
    ensures Invariant(Report(p.(queue := p.queue[1..]), p.queue[0].segment, false))
  {
    var q := p.(queue := p.queue[1..]);
    var r := Report(q, p.finished + 1, false);
    EndIsComplete(p);
    InvariantTalks(p);
    SameTalk(p, q);
    ReportTalks(q, 0.0, false);
    HeadTaken(p, r);
    forall k: nat | r.finished < k <= |p.pushed| ensures Taken(r, k) == Taken(p, k) + Queued(p.queue[..1], k) {
      QueuedOne(p.queue, k);
    }
    AudioTaken(p, r);
    hide Queueing, Clearly, Kept, Talking, Report;
    TalkingKeeps(r);
  }

  lemma OpenRunSounds(p: Player, s: Segment, rest: real, now: real, wall: real)
    requires p.current == Some(s) && Underway(s, p.run, rest)
    ensures var r := OpenRun(p, now, wall, s.played);
      && r.current.Some? && Underway(r.current.value, r.run, rest) && r.current.value.captured == s.captured
      && r == p.(current := r.current, run := r.run)
  {
    hide Tiles;
    CloseTiles(s, p.run, p, rest);
  }

  lemma StartSounds(p: Player, seconds: real, now: real, wall: real)
    requires Sounding(p) && p.waiting.Idle? && p.finished < p.segment && seconds >= 0.0
    ensures var r := StartFrame(p, seconds, now, wall);
      Sounding(r) && Taken(r, p.finished + 1) == Taken(p, p.finished + 1) + seconds
      && r == p.(current := r.current, run := r.run, waiting := r.waiting)
  {
    hide Tiles, OpenRun;
    NothingTiles();
    var current := if p.current.None? then Segment(0.0, 0.0, false, []) else p.current.value;
    var taken := current.(captured := current.captured + seconds);
    OpenRunSounds(p.(current := Some(taken)), taken, seconds, now, wall);
  }

  lemma GetFrameKeeps(p: Player, now: real, wall: real)
    requires Invariant(p) && p.waiting.Idle? && p.queue != [] && p.queue[0].Frame?
    requires p.queue[0].segment > p.finished
    ensures Invariant(StartFrame(p.(queue := p.queue[1..]), p.queue[0].seconds, now, wall))
  {
    var seconds := p.queue[0].seconds;
    var q := p.(queue := p.queue[1..]);
    var r := StartFrame(q, seconds, now, wall);
    assert p.queue[0].segment == p.finished + 1;
    StartSounds(q, seconds, now, wall);
    HeadTaken(p, r);
    forall k: nat | r.finished < k <= |p.pushed| ensures Taken(r, k) == Taken(p, k) + Queued(p.queue[..1], k) {
      QueuedOne(p.queue, k);
    }
    AudioTaken(p, r);
    hide Queueing, Clearly, Kept, StartFrame, Sounding;
  }

  lemma GetKeeps(p: Player, now: real, wall: real)
    requires Invariant(p)
    ensures Invariant(Get(p, now, wall))
  {
    hide Invariant, StartFrame, Report;
    if p.started && p.waiting.Idle? && p.queue != [] {
      if p.queue[0].Clear? {
        GetClearKeeps(p, now, wall);
      } else if p.queue[0].segment <= p.finished {
        GetLateKeeps(p);
      } else if p.queue[0].End? {
        GetEndKeeps(p);
      } else {
        GetFrameKeeps(p, now, wall);
      }
    }
  }

  lemma TimeoutKeeps(p: Player)
    requires Invariant(p)
    ensures Invariant(Timeout(p))
  {
    hide Orderly, Reached, Tiles, Queued;
  }

  lemma HeardTalks(p: Player, heard: real)
    requires Invariant(p) && p.waiting.Playing? && 0.0 <= heard <= p.waiting.seconds
    ensures Talking(Advance(p, heard).(waiting := Idle, interrupt := false), p.waiting.seconds - heard)
  {
    hide Orderly, Reached, Tiles, Queued, Kept;
  }

  lemma InterruptedKeeps(p: Player, now: real)
    requires Invariant(p)
    ensures Invariant(Interrupted(p, now))
  {
    if p.waiting.Playing? && p.interrupt {
      var elapsed := if now - p.waiting.start > 0.0 then now - p.waiting.start else 0.0;
      var heard := if elapsed < p.waiting.seconds then elapsed else p.waiting.seconds;
      var q := Advance(p, heard).(waiting := Idle, interrupt := false);
      var r := CutTo(q, q.segment);
      HeardTalks(p, heard);
      CutTalks(q, p.waiting.seconds - heard, q.segment);
      CutQueue(p, r);
      TalkingKeeps(r);
    }
  }

  lemma CutQueue(p: Player, r: Player)
    requires Invariant(p) && p.current.Some? && r.finished == p.segment == r.segment
    requires r.queue == p.queue && r.pushed == p.pushed && !r.interrupt && r.capturing == p.capturing
    ensures Queueing(r) && Clearly(r) && Kept(r) && EndsLast(r)
  {
    hide Orderly, Reached, Underway, Tiles, Queued;
    OrderlyCut(p.queue, p.finished, p.segment);
  }

  // ---------------------------------------------------------------- every run

  lemma StepKeeps(p: Player, input: Input)
    requires Invariant(p) && Possible(input)
    ensures Invariant(Step(p, input))
  {
    hide Invariant, Capture, Flush, ClearBuffer, Get, Timeout, Interrupted;
    match input
    case Capturing(seconds) => CaptureKeeps(p, seconds);
    case Flushing => FlushKeeps(p);
    case Clearing => ClearKeeps(p);
    case Getting(now, wall) => GetKeeps(p, now, wall);
    case TimingOut => TimeoutKeeps(p);
    case Interrupting(now) => InterruptedKeeps(p, now);
  }

  lemma {:induction false} RunKeeps(inputs: seq<Input>)
    requires forall i <- inputs :: Possible(i)
    ensures Invariant(PlayoutModel.Run(inputs))
  {
    hide Step;
    if inputs != [] {
      RunKeeps(inputs[..|inputs| - 1]);
      StepKeeps(PlayoutModel.Run(inputs[..|inputs| - 1]), inputs[|inputs| - 1]);
    }
  }

  /** In every run, each segment is reported finished at most once, as 1, 2, 3, …, and never before it is opened. */
  lemma FinishedOnceInOrder(inputs: seq<Input>)
    requires forall i <- inputs :: Possible(i)
    ensures var p := PlayoutModel.Run(inputs);
      |p.finishes| <= p.segment && forall i :: 0 <= i < |p.finishes| ==> p.finishes[i].id == i + 1
  {
    RunKeeps(inputs);
  }

  /** In every run, a report's runs tile what was played, which never exceeds what was captured. */
  lemma ReportsTruthful(inputs: seq<Input>)
    requires forall i <- inputs :: Possible(i)
    ensures var p := PlayoutModel.Run(inputs);
      forall i :: 0 <= i < |p.finishes| ==>
        var s := p.finishes[i].segment;
        0.0 <= s.played <= s.captured && Tiles(s.runs, s.played)
        && (!s.interrupted ==> i < |p.pushed| && s.played == p.pushed[i])
  {
    RunKeeps(inputs);
  }

  /** Whenever the queue is drained, every segment is finished but the one still being captured. */
  lemma DrainedIsFinished(inputs: seq<Input>)
    requires forall i <- inputs :: Possible(i)
    ensures var p := PlayoutModel.Run(inputs);
      p.queue == [] ==> p.finished == p.segment || (p.capturing && p.finished + 1 == p.segment)
  {
    RunKeeps(inputs);
  }

  /**
   In every run, once an end or clear item is consumed, each segment up to its own has been reported
   finished, exactly once and in order.
   */
  lemma ConsumedIsFinished(inputs: seq<Input>, now: real, wall: real)
    requires forall i <- inputs :: Possible(i)
    requires var p := PlayoutModel.Run(inputs); p.started && p.waiting.Idle? && p.queue != [] && !p.queue[0].Frame?
    ensures var p := PlayoutModel.Run(inputs);
      var q := Get(p, now, wall);
      && q.queue == p.queue[1..]
      && p.queue[0].segment <= |q.finishes|
      && forall i :: 0 <= i < |q.finishes| ==> q.finishes[i].id == i + 1
  {
    RunKeeps(inputs);
    var p := PlayoutModel.Run(inputs);
    StepKeeps(p, Getting(now, wall));
    hide Run;
    CutKeepsQueue(p.(queue := p.queue[1..], interrupt := false), p.queue[0].segment);
  }

  lemma {:induction false} CutKeepsQueue(p: Player, id: nat)
    ensures CutTo(p, id).queue == p.queue
    decreases id - p.finished
  {
    if p.finished < id { CutKeepsQueue(Report(p, p.finished + 1, true), id); }
  }

  /** A frame never starts under a raised interrupt flag: only a clear that arrives while it plays cuts it. */
  lemma FramesStartUncut(inputs: seq<Input>, now: real, wall: real)
    requires forall i <- inputs :: Possible(i)
    ensures var p := PlayoutModel.Run(inputs);
      p.waiting.Idle? && Get(p, now, wall).waiting.Playing? ==> !p.interrupt
  {
    RunKeeps(inputs);
    hide Step;
    var p := PlayoutModel.Run(inputs);
    if p.waiting.Idle? && p.started && p.queue != [] && p.queue[0].Clear? {
      var q := p.(queue := p.queue[1..], interrupt := false);
      InvariantTalks(p);
      SameTalk(p, q);
      OrderlyBounds(p.queue, p.finished, p.segment);
      CutTalks(q, 0.0, p.queue[0].segment);
    }
  }

  lemma {:induction false} CutLast(p: Player, id: nat)
    requires p.finished < id
    ensures var r := CutTo(p, id);
      && r.finishes != [] && r.finishes[|r.finishes| - 1].id == id
      && (p.current.None? || p.finished + 1 < id ==>
            r.finishes[|r.finishes| - 1].segment == Segment(0.0, 0.0, true, []))
    decreases id - p.finished
  {
    if p.finished + 1 < id { CutLast(Report(p, p.finished + 1, true), id); }
  }

  /**
   How far a cut reaches, in every run: while a frame plays under a raised flag the queue is headed by
   the clear item that raised it, and the cut finishes a segment that item did not name if and only
   if a segment was opened since.
   */
  lemma CutReachesExactly(inputs: seq<Input>, now: real)
    requires forall i <- inputs :: Possible(i)
    requires var p := PlayoutModel.Run(inputs); p.waiting.Playing? && p.interrupt
    ensures var p := PlayoutModel.Run(inputs);
      && p.queue != [] && p.queue[0].Clear?
      && (Interrupted(p, now).finished > p.queue[0].segment <==> p.segment > p.queue[0].segment)
      && Interrupted(p, now).finished == p.segment
  {
    RunKeeps(inputs);
  }

  /** Such a segment exists whenever the producer clears and captures again before the task wakes; it is cut unheard. */
  lemma CutReachesNewSegment(p: Player, seconds: real, now: real)
    requires Invariant(p) && p.waiting.Playing?
    ensures var q := Capture(ClearBuffer(Flush(p)), seconds);
      && q.queue == [Clear(p.segment), Frame(p.segment + 1, seconds)]
      && var r := Interrupted(q, now);
      && r.finished == p.segment + 1 && r.finishes != []
      && r.finishes[|r.finishes| - 1] == Finish(p.segment + 1, Segment(0.0, 0.0, true, []))
  {
    var q := Capture(ClearBuffer(Flush(p)), seconds);
    var elapsed := if now - q.waiting.start > 0.0 then now - q.waiting.start else 0.0;
    var heard := if elapsed < q.waiting.seconds then elapsed else q.waiting.seconds;
    CutLast(Advance(q, heard).(waiting := Idle, interrupt := false), q.segment);
  }
}
