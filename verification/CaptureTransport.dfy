/**
 `EarshotCaptureTransport` as the object it is: fields updated in place by `send`, `flush`,
 `stop` and the suspended drain loop. Every method is proved to take exactly the step that
 `TransportModel` describes, so the guarantees proved there hold of this object.
 */
module CaptureTransport {
  import opened Wrappers
  import opened Capture
  import opened TransportModel
  import opened TransportShape
  import opened Sets

  class EarshotCaptureTransport {
    const limits: Limits
    var queue: seq<Queued>
    var pendingResync: map<string, Range>
    var pendingExactRetry: map<string, Payload>
    var recoverySaturated: bool
    var stopped: bool
    var draining: Drain
    var attemptedExactRetries: set<string>
    var promises: nat
    ghost var log: History

    ghost function Model(): Transport
      reads this
    {
      Transport(limits, queue, pendingResync, pendingExactRetry, recoverySaturated, stopped,
                draining, attemptedExactRetries, log)
    }

    ghost predicate Valid()
      reads this
    {
      promises == log.issued && Shape(Model()) && Wakeful(Model())
    }

    constructor (limits: Limits)
      requires limits.Positive()
      ensures Model() == Init(limits) && Valid()
    {
      this.limits := limits;
      queue := [];
      pendingResync := map[];
      pendingExactRetry := map[];
      recoverySaturated := false;
      stopped := false;
      draining := Idle;
      attemptedExactRetries := {};
      promises := 0;
      log := History(0, [], [], [], [], [], {}, map[], {});
    }

    method HasRecoveryState(session: string) returns (known: bool)
      ensures known == HasRecovery(Model(), session)
    {
      known := session in pendingResync || session in pendingExactRetry;
    }

    method RecoverySessionCount() returns (count: nat)
      ensures count == Size(RecoverySessions(Model()))
    {
      var sessions := pendingResync.Keys;
      sessions := sessions + pendingExactRetry.Keys;
      count := |sessions|;
    }

    method RememberDroppedDrain(p: Payload) returns (tracked: bool)
      modifies this`pendingResync, this`recoverySaturated
      ensures Model() == TransportModel.RememberDroppedDrain(old(Model()), p)
      ensures tracked == Tracks(old(Model()), p)
    {
      var sequence := Sequence(p);
      if sequence == 0 {
        return false;
      }
      var known := HasRecoveryState(p.session);
      if recoverySaturated && !known {
        return false;
      }
      var count := RecoverySessionCount();
      if !known && count >= limits.maxSessions {
        recoverySaturated := true;
        return false;
      }
      var from, through := sequence, sequence;
      if p.resync.Some? {
        from := p.resync.value.from;
      }
      if p.session in pendingResync {
        from := Min(pendingResync[p.session].from, from);
        through := Max(pendingResync[p.session].through, through);
      } else {
        from := Min(sequence, from);
      }
      pendingResync := pendingResync[p.session := Range(from, through)];
      return true;
    }

    method GiveUp(p: Payload, trackRecovery: bool)
      modifies this`pendingResync, this`recoverySaturated, this`log
      ensures Model() == TransportModel.GiveUp(old(Model()), p, trackRecovery)
    {
      var tracked := false;
      if trackRecovery {
        tracked := RememberDroppedDrain(p);
      }
      log := log.(losses := log.losses + [Loss(p, tracked, false)],
                  untracked := log.untracked + if Sequence(p) > 0 && !tracked then {(p.session, Sequence(p))} else {});
    }

    method Resolve(id: nat, delivered: bool)
      modifies this`log
      ensures Model() == TransportModel.Resolve(old(Model()), id, delivered)
    {
      log := log.(resolved := log.resolved + [Resolution(id, delivered)]);
    }

    method Skip(next: Queued)
      modifies this`pendingResync, this`recoverySaturated, this`log
      ensures Model() == TransportModel.Skip(old(Model()), next)
    {
      GiveUp(next.payload, true);
      Resolve(next.id, false);
    }

    method PrepareResync(p: Payload) returns (prepared: Payload)
      ensures prepared == TransportModel.PrepareResync(Model(), p)
    {
      var sequence := Sequence(p);
      if sequence == 0 || p.session !in pendingResync {
        return p;
      }
      var pending := pendingResync[p.session];
      var through := Min(pending.through, sequence - 1);
      if pending.from > through {
        return p;
      }
      return p.(resync := Some(Range(pending.from, through)));
    }

    method ClearResync(p: Payload)
      modifies this`pendingResync
      ensures pendingResync == Cleared(old(pendingResync), p)
    {
      var sequence := Sequence(p);
      if sequence == 0 || p.session !in pendingResync {
        return;
      }
      var pending := pendingResync[p.session];
      if sequence < pending.from {
        return;
      }
      if sequence >= pending.through {
        pendingResync := pendingResync - {p.session};
        return;
      }
      pendingResync := pendingResync[p.session := Range(sequence + 1, pending.through)];
    }

    method RememberExactRetry(p: Payload) returns (kept: bool)
      modifies this`pendingExactRetry, this`recoverySaturated
      ensures Model() == TransportModel.RememberExactRetry(old(Model()), p)
      ensures kept == Keeps(old(Model()), p)
    {
      if p.session in pendingExactRetry {
        return pendingExactRetry[p.session] == p;
      }
      if recoverySaturated && p.session !in pendingResync {
        return false;
      }
      var count := RecoverySessionCount();
      if p.session !in pendingResync && count >= limits.maxSessions {
        recoverySaturated := true;
        return false;
      }
      pendingExactRetry := pendingExactRetry[p.session := p];
      return true;
    }

    method RetainExactRetry(purpose: Purpose, p: Payload, attempts: nat)
      modifies this`pendingResync, this`pendingExactRetry, this`recoverySaturated, this`draining, this`log
      ensures Model() == TransportModel.RetainExactRetry(old(Model()), purpose, p, attempts)
    {
      var kept := RememberExactRetry(p);
      if kept {
        draining := Busy(purpose, Delivery(p, attempts, Returned(Retained)));
      } else {
        GiveUp(p, true);
        draining := Busy(purpose, Delivery(p, attempts, Returned(Dropped)));
      }
    }

    method BlockForAuthContextChange(purpose: Purpose, p: Payload, attempts: nat)
      modifies this`pendingResync, this`pendingExactRetry, this`recoverySaturated, this`draining, this`log
      ensures Model() == BlockForAuth(old(Model()), purpose, p, attempts)
    {
      if Sequence(p) > 0 {
        RetainExactRetry(purpose, p, attempts);
      } else {
        GiveUp(p, true);
        draining := Busy(purpose, Delivery(p, attempts, Returned(Dropped)));
      }
    }

    /** What follows the attempt loop of a delivery. */
    method FailDelivery(purpose: Purpose, p: Payload, attempts: nat, retryable: bool)
      modifies this`pendingResync, this`pendingExactRetry, this`recoverySaturated, this`draining, this`log
      ensures Model() == Fail(old(Model()), purpose, p, attempts, retryable)
    {
      if retryable && Sequence(p) > 0 {
        RetainExactRetry(purpose, p, attempts);
        return;
      }
      var wasExactRetry := p.session in pendingExactRetry && pendingExactRetry[p.session].sequence == p.sequence;
      GiveUp(p, true);
      if wasExactRetry {
        pendingExactRetry := pendingExactRetry - {p.session};
      }
      draining := Busy(purpose, Delivery(p, attempts, Returned(Dropped)));
    }

    /** The attempt loop from its head to the next `await`. */
    method Attempt(purpose: Purpose, p: Payload, attempts: nat, auth: seq<bool>)
      modifies this`pendingResync, this`pendingExactRetry, this`recoverySaturated, this`draining, this`log
      ensures Model() == TransportModel.Attempt(old(Model()), purpose, p, attempts, auth)
    {
      if !Current(auth) {
        BlockForAuthContextChange(purpose, p, attempts);
      } else {
        log := log.(posted := log.posted + [p]);
        draining := Busy(purpose, Delivery(p, attempts + 1, AwaitPost));
      }
    }

    method StartRetry(purpose: Purpose, p: Payload, auth: seq<bool>)
      modifies this`pendingResync, this`pendingExactRetry, this`recoverySaturated, this`draining,
               this`attemptedExactRetries, this`log
      ensures Model() == TransportModel.StartRetry(old(Model()), purpose, p, auth)
    {
      attemptedExactRetries := attemptedExactRetries + {p.session};
      log := log.(retried := log.retried + [p.session]);
      Attempt(purpose, p, 0, auth);
    }

    method StartFresh(next: Queued, auth: seq<bool>)
      modifies this`pendingResync, this`pendingExactRetry, this`recoverySaturated, this`draining, this`log
      ensures Model() == TransportModel.StartFresh(old(Model()), next, auth)
    {
      var prepared := PrepareResync(next.payload);
      Attempt(Fresh(next), prepared, 0, auth);
    }

    method IsRefused(p: Payload) returns (refused: bool)
      ensures refused == Refused(Model(), p)
    {
      var known := HasRecoveryState(p.session);
      refused := recoverySaturated && Sequence(p) > 0 && !known;
    }

    /** The inner loop of `drain`, up to the next `await` or the end of the queue. */
    method DrainQueue(readings: seq<bool>)
      modifies this
      ensures Model() == Pump(old(Model()), readings) && promises == old(promises)
    {
      hide TransportModel.Skip, TransportModel.StartRetry, TransportModel.StartFresh, Refused;
      var auth := readings;
      draining := Idle;
      while queue != []
        invariant draining == Idle && promises == old(promises)
        invariant Pump(Model(), auth) == Pump(old(Model()), readings)
        decreases |queue|
      {
        var next := queue[0];
        queue := queue[1..];
        var current := Current(auth);
        auth := Later(auth);
        var refused := IsRefused(next.payload);
        if !current || refused {
          Skip(next);
        } else if next.payload.session in pendingExactRetry {
          if next.payload.session in attemptedExactRetries {
            Skip(next);
          } else {
            StartRetry(Ahead(next), pendingExactRetry[next.payload.session], auth);
            return;
          }
        } else {
          StartFresh(next, auth);
          return;
        }
      }
    }

    /** Deliver `next` now that no retained request precedes it, unless it is refused. */
    method ContinueWith(next: Queued, auth: seq<bool>)
      modifies this
      ensures Model() == TransportModel.ContinueWith(old(Model()), next, auth) && promises == old(promises)
    {
      var refused := IsRefused(next.payload);
      if refused {
        Skip(next);
        DrainQueue(auth);
      } else {
        StartFresh(next, auth);
      }
    }

    method Accept(p: Payload)
      modifies this`pendingResync, this`log
      ensures Model() == TransportModel.Accept(old(Model()), p)
    {
      ClearResync(p);
      log := log.(accepted := log.accepted + [p]);
    }

    /** The drain loop after `deliver` returned. */
    method AfterDelivery(purpose: Purpose, p: Payload, outcome: Outcome, auth: seq<bool>)
      modifies this
      ensures Model() == TransportModel.AfterDelivery(old(Model()), purpose, p, outcome, auth)
      ensures promises == old(promises)
    {
      match purpose {
        case Fresh(next) =>
          if outcome == Delivered {
            Accept(p);
          }
          Resolve(next.id, outcome == Delivered);
          DrainQueue(auth);
        case Ahead(next) =>
          if outcome == Delivered {
            pendingExactRetry := pendingExactRetry - {next.payload.session};
            Accept(p);
          } else if next.payload.session in pendingExactRetry || recoverySaturated {
            Skip(next);
            DrainQueue(Later(auth));
            return;
          }
          ContinueWith(next, auth);
        case IdleRetry(rest) =>
          if outcome == Delivered {
            pendingExactRetry := pendingExactRetry - {p.session};
            Accept(p);
          }
          if rest == [] {
            DrainQueue(auth);
          } else {
            StartRetry(IdleRetry(rest[1..]), rest[0], auth);
          }
      }
    }

    /** Continue the suspended drain run with the server's answer, if one is awaited. */
    method Resume(answer: Answer, auth: seq<bool>)
      requires Valid()
      modifies this
      ensures Valid() && Model() == TransportModel.Resume(old(Model()), answer, auth)
    {
      StepKeeps(Model(), Resuming(answer, auth));
      if !draining.Busy? {
        return;
      }
      var purpose, d := draining.purpose, draining.delivery;
      match d.at {
        case AwaitPost =>
          if !Current(auth) {
            BlockForAuthContextChange(purpose, d.payload, d.attempts);
          } else if answer == Ok {
            draining := Busy(purpose, d.(at := AwaitBody));
          } else if answer == Permanent || d.attempts >= limits.maxAttempts {
            FailDelivery(purpose, d.payload, d.attempts, answer != Permanent);
          } else {
            draining := Busy(purpose, d.(at := AwaitSleep));
          }
        case AwaitSleep => Attempt(purpose, d.payload, d.attempts, auth);
        case AwaitBody =>
          if !Current(auth) {
            BlockForAuthContextChange(purpose, d.payload, d.attempts);
          } else {
            draining := Busy(purpose, d.(at := AwaitObserver));
          }
        case AwaitObserver => draining := Busy(purpose, d.(at := Returned(Delivered)));
        case Returned(outcome) =>
          draining := Idle;
          AfterDelivery(purpose, d.payload, outcome, auth);
      }
    }

    ghost method NoteSent(p: Payload)
      modifies this`log
      ensures Model() == TransportModel.NoteSent(old(Model()), p)
    {
      log := TransportModel.NoteSent(Model(), p).log;
    }

    method Reject(p: Payload, trackRecovery: bool)
      requires promises == log.issued
      modifies this
      ensures Model() == TransportModel.Reject(old(Model()), p, trackRecovery) && promises == log.issued
    {
      NoteSent(p);
      GiveUp(p, trackRecovery);
      Resolve(promises, false);
      promises := promises + 1;
    }

    /** Make room: overflow drops the oldest waiting payloads. */
    method EvictOldest()
      modifies this
      ensures Model() == Evict(old(Model())) && promises == old(promises)
    {
      while |queue| >= limits.maxQueued
        invariant promises == old(promises)
        invariant Evict(Model()) == Evict(old(Model()))
        decreases |queue|
      {
        if queue == [] {
          break;
        }
        var evicted := queue[0];
        queue := queue[1..];
        Skip(evicted);
        log := AsOverflow(Model()).log;
      }
    }

    method Push(p: Payload)
      requires promises == log.issued
      modifies this
      ensures Model() == Enqueue(old(Model()), p) && promises == log.issued
    {
      NoteSent(p);
      EvictOldest();
      queue := queue + [Queued(promises, p)];
      promises := promises + 1;
    }

    /** A drain run from its start; it must suspend before its promise is stored. */
    method StartDrain(auth: seq<bool>)
      modifies this
      ensures Model() == TransportModel.StartDrain(old(Model()), auth) && promises == old(promises)
    {
      attemptedExactRetries := {};
      log := log.(retried := []);
      DrainQueue(auth);
      if draining == Idle {
        draining := Stuck;
      }
    }

    method Send(p: Payload, serializable: bool, auth: seq<bool>) returns (id: nat)
      requires Valid()
      modifies this
      ensures Valid() && Model() == TransportModel.Send(old(Model()), p, serializable, auth)
      ensures id == old(promises)
    {
      hide Shape, Wakeful, Sticky, BeginsFresh, AdmitsOnlyRecovery, Refused, Evict;
      StepKeeps(Model(), Sending(p, serializable, auth));
      id := promises;
      if stopped {
        Reject(p, true);
        return;
      }
      if !Current(auth) {
        Reject(p, false);
        return;
      }
      var refused := IsRefused(p);
      if refused || !serializable {
        Reject(p, true);
        return;
      }
      Push(p);
      if draining == Idle {
        StartDrain(Later(auth));
      }
    }

    /** `flush` once it finds no drain run under way; `order` is the map's enumeration order. */
    method Flush(order: seq<string>, auth: seq<bool>)
      requires Valid() && Enumerates(order, pendingExactRetry.Keys)
      modifies this
      ensures Valid() && Model() == TransportModel.Flush(old(Model()), order, auth)
    {
      hide Shape, Sticky, BeginsFresh, AdmitsOnlyRecovery, Enumerates;
      StepKeeps(Model(), Flushing(order, auth));
      hide TransportModel.StartRetry, Wakeful;
      if draining != Idle || pendingExactRetry == map[] {
        return;
      }
      assert queue == [];
      assert pendingExactRetry.Keys != {};
      EnumerationIndexes(order, pendingExactRetry.Keys);
      var requests := Requests(pendingExactRetry, order);
      attemptedExactRetries := {};
      log := log.(retried := []);
      StartRetry(IdleRetry(requests[1..]), requests[0], auth);
    }

    method AbandonQueue()
      modifies this
      ensures Model() == Abandon(old(Model())) && promises == old(promises)
    {
      while queue != []
        invariant promises == old(promises)
        invariant Abandon(Model()) == Abandon(old(Model()))
        decreases |queue|
      {
        var queued := queue[0];
        queue := queue[1..];
        Skip(queued);
      }
    }

    method Stop()
      requires Valid()
      modifies this
      ensures Valid() && Model() == TransportModel.Stop(old(Model()))
    {
      hide Shape, Wakeful, Sticky, BeginsFresh, AdmitsOnlyRecovery;
      StepKeeps(Model(), Stopping);
      if stopped {
        return;
      }
      stopped := true;
      AbandonQueue();
    }
  }
}
