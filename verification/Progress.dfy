/**
 How long delivery can take: every send and flush brings a bounded amount of work, and each
 continuation of a drain run uses some of it up.
 */
module Progress {
  import opened Wrappers
  import opened Capture
  import opened TransportModel
  import opened TransportShape
  import opened Settlement
  import opened DeliveryGuarantees
  import opened Sets

  /** The continuations an input may make necessary: two deliveries for a send, one for each retained request. */
  function Brought(limits: Limits, input: Input): nat {
    match input
    case Sending(_, _, _) => 2 * DeliveryBound(limits)
    case Flushing(_, _) => Times(limits.maxSessions, DeliveryBound(limits))
    case Resuming(_, _) => 0
    case Stopping => 0
  }

  function AllBrought(limits: Limits, inputs: seq<Input>): nat {
    if inputs == [] then 0
    else AllBrought(limits, inputs[..|inputs| - 1]) + Brought(limits, inputs[|inputs| - 1])
  }

  /** The continuations that the run's drain runs have had. */
  function Continued(limits: Limits, inputs: seq<Input>): nat {
    if inputs == [] then 0
    else
      var before := inputs[..|inputs| - 1];
      Continued(limits, before)
      + if inputs[|inputs| - 1].Resuming? && Run(limits, before).drain.Busy? then 1 else 0
  }

  lemma {:induction false} TimesGrow(n: nat, m: nat, d: nat)
    requires n <= m
    ensures Times(n, d) <= Times(m, d)
  {
    if n > 0 { TimesGrow(n - 1, m - 1, d); }
  }

  lemma {:induction false} EvictShrinks(t: Transport)
    ensures |Evict(t).queue| <= |t.queue|
    decreases |t.queue|
  {
    hide GiveUp;
    if |t.queue| >= t.limits.maxQueued && t.queue != [] {
      var a := AsOverflow(Skip(t.(queue := t.queue[1..]), t.queue[0]));
      assert a.queue == t.queue[1..];
      EvictShrinks(a);
    }
  }

  lemma EnqueueWork(t: Transport, p: Payload)
    ensures |Enqueue(t, p).queue| <= |t.queue| + 1 && Enqueue(t, p).drain == t.drain
    ensures Times(|Enqueue(t, p).queue|, 2 * DeliveryBound(t.limits))
         <= Times(|t.queue|, 2 * DeliveryBound(t.limits)) + 2 * DeliveryBound(t.limits)
  {
    hide Evict, DeliveryBound;
    EvictShrinks(NoteSent(t, p));
    TimesGrow(|Enqueue(t, p).queue|, |t.queue| + 1, 2 * DeliveryBound(t.limits));
  }

  lemma SendWork(t: Transport, p: Payload, serializable: bool, auth: seq<bool>)
    requires t.limits.Positive()
    ensures Work(Send(t, p, serializable, auth)) <= Work(t) + 2 * DeliveryBound(t.limits)
  {
    hide Enqueue, Pump, DeliveryBound, Times, Refused, GiveUp, NoteSent, Remaining;
    EnqueueWork(t, p);
    var a := Enqueue(t, p).(attempted := {}, log := Enqueue(t, p).log.(retried := []));
    PumpWork(a, Later(auth));
  }

  lemma {:induction false} DistinctSize(order: seq<string>, keys: set<string>)
    requires Enumerates(order, keys)
    ensures Size(keys) == |order|
  {
    if order == [] {
      assert keys == {};
    } else {
      var front, last := order[..|order| - 1], order[|order| - 1];
      assert order == front + [last];
      assert last in order;
      forall s ensures s in front <==> s in keys - {last} {
        assert s in keys <==> s in order;
        if s in front {
          var i :| 0 <= i < |front| && front[i] == s;
          assert order[i] != last;
        }
      }
      assert (set s | s in front) == keys - {last};
      DistinctSize(front, keys - {last});
      assert keys == (keys - {last}) + {last};
    }
  }

  lemma RequestsBounded(t: Transport, order: seq<string>)
    requires Shape(t) && Enumerates(order, t.exact.Keys)
    ensures |order| <= t.limits.maxSessions
  {
    hide Size, Enumerates, Keyed, RetriesOnce, Holds;
    DistinctSize(order, t.exact.Keys);
    SizeGrows(t.exact.Keys, RecoverySessions(t));
  }

  lemma RetryWork(t: Transport, rest: seq<Payload>, p: Payload, auth: seq<bool>)
    requires t.limits.Positive() && t.queue == []
    ensures Work(StartRetry(t, IdleRetry(rest), p, auth)) <= Times(|rest| + 1, DeliveryBound(t.limits))
  {
    hide StartRetry, Remaining, DeliveryBound;
    StartWork(t, IdleRetry(rest), p, auth);
    RetryFrame(t, IdleRetry(rest), p, auth);
  }

  lemma FlushWork(t: Transport, order: seq<string>, auth: seq<bool>)
    requires Shape(t)
    ensures Work(Flush(t, order, auth)) <= Work(t) + Times(t.limits.maxSessions, DeliveryBound(t.limits))
  {
    if t.drain == Idle && t.exact != map[] && t.queue == [] && Enumerates(order, t.exact.Keys) {
      RequestsBounded(t, order);
      assert t.limits.Positive();
      hide *;
      IdleFlushWork(t, order, auth);
      TimesGrow(|order|, t.limits.maxSessions, DeliveryBound(t.limits));
    }
  }

  lemma IdleFlushWork(t: Transport, order: seq<string>, auth: seq<bool>)
    requires t.limits.Positive() && Enumerates(order, t.exact.Keys)
    requires t.drain == Idle && t.exact != map[] && t.queue == []
    ensures Work(Flush(t, order, auth)) <= Times(|order|, DeliveryBound(t.limits))
  {
    hide Enumerates, StartRetry, Work, Times, DeliveryBound;
    EnumerationIndexes(order, t.exact.Keys);
    assert t.exact.Keys != {};
    var requests := Requests(t.exact, order);
    RetryWork(t.(attempted := {}, log := t.log.(retried := [])), requests[1..], requests[0], auth);
  }

  lemma {:induction false} AbandonWork(t: Transport)
    ensures Abandon(t).queue == []
    decreases |t.queue|
  {
    hide GiveUp;
    if t.queue != [] {
      AbandonWork(Skip(t.(queue := t.queue[1..]), t.queue[0]));
    }
  }

  /** No input adds more work than it brings, and a continuation that continues something takes some away. */
  lemma StepWork(t: Transport, input: Input)
    requires Shape(t)
    ensures Work(Step(t, input)) + (if input.Resuming? && t.drain.Busy? then 1 else 0)
         <= Work(t) + Brought(t.limits, input)
  {
    match input
    case Sending(p, serializable, auth) =>
      hide Work, Send, DeliveryBound;
      SendWork(t, p, serializable, auth);
    case Resuming(answer, auth) =>
      if t.drain.Busy? {
        hide Work, Resume;
        ResumeDecreases(t, answer, auth);
      }
    case Flushing(order, auth) =>
      hide Work, Flush, Times;
      FlushWork(t, order, auth);
    case Stopping =>
      hide Abandon, DeliveryBound, Remaining;
      AbandonWork(t.(stopped := true));
  }

  /**
   In every run, however sends, flushes and stops are interleaved with it, the drain runs had no more
   continuations than the inputs brought, and what is left of that bounds those still to come.
   */
  lemma {:induction false} ContinuationsBounded(limits: Limits, inputs: seq<Input>)
    requires limits.Positive()
    ensures Continued(limits, inputs) + Work(Run(limits, inputs)) <= AllBrought(limits, inputs)
  {
    hide Work, Step, Brought, Shape;
    if inputs == [] {
      assert Work(Init(limits)) == 0 by { NoWorkWhenIdle(Init(limits)); }
    } else {
      var before := inputs[..|inputs| - 1];
      ContinuationsBounded(limits, before);
      RunKeeps(limits, before);
      LimitsKept(limits, before);
      StepWork(Run(limits, before), inputs[|inputs| - 1]);
    }
  }

  lemma {:induction false} LimitsKept(limits: Limits, inputs: seq<Input>)
    ensures Run(limits, inputs).limits == limits
  {
    hide Step;
    if inputs != [] { LimitsKept(limits, inputs[..|inputs| - 1]); }
  }

  /**
   In every run with a steady context, the continuations that its inputs brought and that it has not
   had yet bring the transport to rest: the queue is empty, and each issued promise is resolved once.
   */
  lemma RunDrains(limits: Limits, inputs: seq<Input>, continuations: seq<Continuation>, id: nat)
    requires limits.Positive() && forall i | 0 <= i < |inputs| :: SteadyInput(inputs[i])
    requires |continuations| + Continued(limits, inputs) >= AllBrought(limits, inputs)
    ensures var t := Run(limits, inputs);
            var r := Resumptions(t, continuations);
            && r.drain == Idle && r.queue == [] && r.log.issued == t.log.issued
            && Resolved(r.log.resolved, id) == if id < t.log.issued then 1 else 0
  {
    hide Run, Shape, Wakeful, Work, Tally, Resolved, Resumptions, SteadyInput;
    NoLostWakeUp(limits, inputs);
    RunKeeps(limits, inputs);
    ContinuationsBounded(limits, inputs);
    ResolvedExactlyOnce(limits, inputs, id);
    DrainRunEnds(Run(limits, inputs), continuations, id);
  }
}
