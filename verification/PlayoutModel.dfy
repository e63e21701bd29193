/**
 The paced playback state machine: a producer captures, flushes and clears while a playout task
 drains the queue in real time. A step runs from one suspension point of a coroutine to the next.
 */
module PlayoutModel {
  import opened Wrappers

  const UNDERRUN_SECONDS: real := 0.005

  datatype Item = Frame(segment: nat, seconds: real) | End(segment: nat) | Clear(segment: nat)

  /** A stretch of uninterrupted playback: where it starts in the segment, and how long it is. */
  datatype Stretch = Stretch(wall: real, offset: real, seconds: real)

  datatype Segment = Segment(captured: real, played: real, interrupted: bool, runs: seq<Stretch>)

  /** The open run: its monotonic start, its wall start, its offset, and what has played of it. */
  datatype Open = Open(start: real, wall: real, offset: real, seconds: real)

  datatype Finish = Finish(id: nat, segment: Segment)

  /** The task waits for an item, or for the end of a frame that started at `start`. */
  datatype Waiting = Idle | Playing(seconds: real, start: real)

  /** `pushed[k - 1]` is all the audio captured for segment `k`; `finishes` is what was reported. */
  datatype Player = Player(
    queue: seq<Item>,
    interrupt: bool,
    started: bool,
    capturing: bool,
    segment: nat,
    finished: nat,
    current: Option<Segment>,
    run: Option<Open>,
    waiting: Waiting,
    pushed: seq<real>,
    finishes: seq<Finish>)

  const INITIAL := Player([], false, false, false, 0, 0, None, None, Idle, [], [])

  datatype Input =
    | Capturing(seconds: real)
    | Flushing
    | Clearing
    | Getting(now: real, wall: real)
    | TimingOut
    | Interrupting(now: real)

  // ---------------------------------------------------------------- the producer

  function Capture(p: Player, seconds: real): Player {
    var opens := !p.capturing;
    var id := if opens then p.segment + 1 else p.segment;
    p.(capturing := true, started := true, segment := id, queue := p.queue + [Frame(id, seconds)],
       pushed := if opens then p.pushed + [seconds]
                 else if 0 < id <= |p.pushed| then p.pushed[id - 1 := p.pushed[id - 1] + seconds]
                 else p.pushed)
  }

  function Flush(p: Player): Player {
    if p.capturing then p.(capturing := false, queue := p.queue + [End(p.segment)]) else p
  }

  function ClearBuffer(p: Player): Player {
    p.(interrupt := true, queue := [Clear(p.segment)])
  }

  // ---------------------------------------------------------------- the playout task

  function CloseRun(p: Player): Player {
    if p.run.Some? && p.run.value.seconds > 0.0 && p.current.Some? then
      var run := p.run.value;
      var runs := p.current.value.runs + [Stretch(run.wall, run.offset, run.seconds)];
      p.(current := Some(p.current.value.(runs := runs)), run := None)
    else
      p.(run := None)
  }

  function Report(p: Player, id: nat, interrupted: bool): Player {
    if p.current.None? then
      p.(finished := id, finishes := p.finishes + [Finish(id, Segment(0.0, 0.0, true, []))])
    else
      var closed := CloseRun(p);
      closed.(finished := id, current := None,
              finishes := p.finishes + [Finish(id, closed.current.value.(interrupted := interrupted))])
  }

  /** Every segment up to `id` that is not finished is reported as interrupted. */
  function CutTo(p: Player, id: nat): (r: Player)
    ensures r.finished == if p.finished >= id then p.finished else id
    decreases id - p.finished
  {
    if p.finished >= id then p else CutTo(Report(p, p.finished + 1, true), id)
  }

  function Advance(p: Player, seconds: real): Player {
    if p.current.None? || p.run.None? then p
    else
      p.(run := Some(p.run.value.(seconds := p.run.value.seconds + seconds)),
         current := Some(p.current.value.(played := p.current.value.played + seconds)))
  }

  /** After a gap the open run is closed and another one opens where the segment stands. */
  function OpenRun(p: Player, now: real, wall: real, played: real): (r: Player)
    ensures r.run.Some?
  {
    if p.run.None? || now > p.run.value.start + p.run.value.seconds + UNDERRUN_SECONDS
    then CloseRun(p).(run := Some(Open(now, wall, played, 0.0)))
    else p
  }

  /** A frame starts: it may open its segment, and it opens a run after a gap. */
  function StartFrame(p: Player, seconds: real, now: real, wall: real): Player {
    var current := if p.current.None? then Segment(0.0, 0.0, false, []) else p.current.value;
    var q := p.(current := Some(current.(captured := current.captured + seconds)));
    var r := OpenRun(q, now, wall, current.played);
    r.(waiting := Playing(seconds, r.run.value.start + r.run.value.seconds))
  }

  function Get(p: Player, now: real, wall: real): Player {
    if !p.started || !p.waiting.Idle? || p.queue == [] then p
    else
      var q := p.(queue := p.queue[1..]);
      match p.queue[0]
      case Clear(id) => CutTo(q.(interrupt := false), id)
      case End(id) => if id <= p.finished then q else Report(q, id, false)
      case Frame(id, seconds) => if id <= p.finished then q else StartFrame(q, seconds, now, wall)
  }

  function Timeout(p: Player): Player {
    if p.waiting.Idle? then p else Advance(p, p.waiting.seconds).(waiting := Idle)
  }

  /** `clear_buffer` ran while the frame played: what was heard counts, and everything open is cut. */
  function Interrupted(p: Player, now: real): Player {
    if p.waiting.Idle? || !p.interrupt then p
    else
      var elapsed := if now - p.waiting.start > 0.0 then now - p.waiting.start else 0.0;
      var heard := if elapsed < p.waiting.seconds then elapsed else p.waiting.seconds;
      CutTo(Advance(p, heard).(waiting := Idle, interrupt := false), p.segment)
  }

  function Step(p: Player, input: Input): Player {
    match input
    case Capturing(seconds) => Capture(p, seconds)
    case Flushing => Flush(p)
    case Clearing => ClearBuffer(p)
    case Getting(now, wall) => Get(p, now, wall)
    case TimingOut => Timeout(p)
    case Interrupting(now) => Interrupted(p, now)
  }

  /** Frames have a duration. */
  predicate Possible(input: Input) {
    input.Capturing? ==> input.seconds >= 0.0
  }

  function Run(inputs: seq<Input>): Player {
    if inputs == [] then INITIAL else Step(Run(inputs[..|inputs| - 1]), inputs[|inputs| - 1])
  }
}
