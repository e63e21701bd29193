/**
 One session as the recovery ledger sees it: what is acknowledged, what is still live in which
 order, what is remembered as missed, and what was given up without being remembered. The laws
 of this view carry the whole gap-free argument; `TransportLedger` shows that the transport
 follows them.
 */
module SessionLedger {
  import opened Wrappers
  import opened Capture
  import opened TransportModel

  /** `top` is the last acknowledged sequence, `last` the last POSTed, `sent` the last sent. */
  datatype View = View(
    session: string,
    top: int,
    last: int,
    sent: int,
    replay: bool,
    kept: Option<Payload>,
    missed: Option<Range>,
    untracked: set<(string, int)>)

  /** Strictly increasing, except that a finished recorder repeats its last sequence. */
  predicate Below(v: View, a: int, b: int) {
    a < b || (v.replay && a == b == v.sent)
  }

  /** Every drain between the last acknowledged one and `p` is declared by `p` or known to be untracked. */
  ghost predicate Ready(v: View, p: Payload) {
    && (forall q | v.top < q < Sequence(p) :: Covers(p.resync, q) || (v.session, q) in v.untracked)
    && Declares(v, p)
  }

  /** A declaration names only sequences after the last acknowledged one and before the body's own. */
  predicate Declares(v: View, p: Payload) {
    p.resync.Some? ==> v.top < p.resync.value.from <= p.resync.value.through < Sequence(p)
  }

  ghost predicate InOrder(v: View, live: seq<int>) {
    && (forall i | 0 <= i < |live| :: Below(v, v.top, live[i]) && v.last <= live[i] && 1 <= live[i] <= v.sent)
    && forall i, j | 0 <= i < j < |live| :: Below(v, live[i], live[j])
  }

  /** No silent loss: each sequence after the last acknowledged one is live, missed or untracked. */
  ghost predicate Accounted(v: View, live: seq<int>) {
    forall q | v.top < q <= v.sent :: q in live || Covers(v.missed, q) || (v.session, q) in v.untracked
  }

  ghost predicate Lawful(v: View, live: seq<int>) {
    && 0 <= v.top <= v.sent && 0 <= v.last <= v.sent
    && InOrder(v, live)
    && Accounted(v, live)
    && (v.missed.Some? ==>
          v.missed.value.from <= v.missed.value.through <= v.sent && Below(v, v.top, v.missed.value.from))
    && (v.kept.Some? ==> Ready(v, v.kept.value))
  }

  /** The view after losing `p`: remembered as missed, or untracked. */
  function Losing(v: View, p: Payload, tracked: bool): View {
    var q := Sequence(p);
    var declared := if p.resync.Some? then p.resync.value.from else q;
    if !tracked then v.(untracked := v.untracked + {(v.session, q)})
    else v.(missed := Some(
      if v.missed.Some? then Range(Min(v.missed.value.from, declared), Max(v.missed.value.through, q))
      else Range(Min(q, declared), q)))
  }

  lemma RemoveAt(a: seq<int>, q: int, b: seq<int>, x: int)
    requires x in a + [q] + b
    ensures x == q || x in a + b
  {
  }

  lemma RemovedInOrder(v: View, a: seq<int>, q: int, b: seq<int>)
    requires InOrder(v, a + [q] + b)
    ensures InOrder(v, a + b)
  {
    var all, left := a + [q] + b, a + b;
    forall i | 0 <= i < |left| ensures left[i] == all[if i < |a| then i else i + 1] {
    }
  }

  /** Losing a live drain keeps the ledger lawful, wherever in line the drain was. */
  lemma LosingLawful(v: View, a: seq<int>, p: Payload, b: seq<int>, tracked: bool)
    requires Lawful(v, a + [Sequence(p)] + b) && Declares(v, p)
    ensures Lawful(Losing(v, p, tracked), a + b)
  {
    var q, v' := Sequence(p), Losing(v, p, tracked);
    RemovedInOrder(v, a, q, b);
    var all := a + [q] + b;
    assert all[|a|] == q;
    assert Below(v, v.top, q);
    forall x | v'.top < x <= v'.sent
      ensures x in a + b || Covers(v'.missed, x) || (v'.session, x) in v'.untracked
    {
      if x in all {
        RemoveAt(a, q, b, x);
      }
    }
  }

  /** Untracked losses only accumulate; more of them never break the ledger. */
  lemma MoreUntracked(v: View, untracked: set<(string, int)>, live: seq<int>)
    requires Lawful(v, live) && v.untracked <= untracked
    ensures Lawful(v.(untracked := untracked), live)
  {
  }

  /** The first in line may be POSTed: sequences of one session never go down. */
  lemma PostingLawful(v: View, live: seq<int>)
    requires Lawful(v, live) && live != []
    ensures v.last <= live[0] && Lawful(v.(last := live[0]), live)
  {
    var v' := v.(last := live[0]);
    assert forall i | 0 <= i < |live| :: live[0] <= live[i];
    assert forall i, j :: Below(v, i, j) == Below(v', i, j);
  }

  function AfterAccepting(v: View, q: int): View {
    var missed :=
      if v.missed.None? || q < v.missed.value.from then v.missed
      else if q >= v.missed.value.through then None
      else Some(Range(q + 1, v.missed.value.through));
    v.(top := q, missed := missed, kept := None)
  }

  lemma AcceptedInOrder(v: View, q: int, rest: seq<int>)
    requires InOrder(v, [q] + rest)
    ensures InOrder(v.(top := q, kept := None), rest)
  {
    var v', live := v.(top := q, kept := None), [q] + rest;
    assert live[0] == q && forall i | 0 <= i < |rest| :: live[i + 1] == rest[i];
    assert forall a, b :: Below(v, a, b) == Below(v', a, b);
    forall i | 0 <= i < |rest| ensures Below(v', v'.top, rest[i]) {
      assert Below(v, live[0], live[i + 1]);
    }
    forall i, j | 0 <= i < j < |rest| ensures Below(v', rest[i], rest[j]) {
      assert Below(v, live[i + 1], live[j + 1]);
    }
  }

  /** Acknowledging the first in line settles everything up to it. */
  lemma AcceptingLawful(v: View, q: int, rest: seq<int>)
    requires Lawful(v, [q] + rest)
    ensures Lawful(AfterAccepting(v, q), rest)
  {
    var v' := AfterAccepting(v, q);
    var live := [q] + rest;
    AcceptedInOrder(v, q, rest);
    assert live[0] == q;
    assert Below(v, v.top, live[0]) && 1 <= live[0] <= v.sent;
    assert InOrder(v', rest) by {
      hide Lawful;
      SameOrder(v.(top := q, kept := None), v', rest);
    }
    hide InOrder, Ready;
    forall x | v'.top < x <= v'.sent
      ensures x in rest || Covers(v'.missed, x) || (v'.session, x) in v'.untracked
    {
      assert x in live ==> x in rest;
    }
  }

  lemma SameOrder(v: View, v': View, live: seq<int>)
    requires InOrder(v, live) && v' == v.(missed := v'.missed)
    ensures InOrder(v', live)
  {
    assert forall a, b :: Below(v, a, b) == Below(v', a, b);
  }

  /** A new drain, or a repetition of the last one, joins the end of the line. */
  lemma SendingLawful(v: View, live: seq<int>, q: int)
    requires Lawful(v, live)
    requires (q == v.sent + 1 && !v.replay) || (q == v.sent && 1 <= q)
    ensures Lawful(v.(sent := q, replay := v.replay || q == v.sent), live + [q])
  {
    var v' := v.(sent := q, replay := v.replay || q == v.sent);
    var line := live + [q];
    assert forall a, b :: Below(v, a, b) ==> Below(v', a, b);
    forall i | 0 <= i < |line|
      ensures Below(v', v'.top, line[i]) && v'.last <= line[i] && 1 <= line[i] <= v'.sent
    {
    }
    forall i, j | 0 <= i < j < |line| ensures Below(v', line[i], line[j]) {
    }
    assert line[|live|] == q;
  }

  function Preparing(v: View, p: Payload): Payload {
    if v.missed.None? then p
    else
      var through := Min(v.missed.value.through, Sequence(p) - 1);
      if v.missed.value.from > through then p else p.(resync := Some(Range(v.missed.value.from, through)))
  }

  /** When nothing is retained and `p` is first in line, the added range is exactly what is missing. */
  lemma PreparingReady(v: View, p: Payload, rest: seq<int>)
    requires Lawful(v, [Sequence(p)] + rest) && p.resync.None? && Sequence(p) > 0
    ensures Ready(v, Preparing(v, p)) && Sequence(Preparing(v, p)) == Sequence(p)
  {
    var live := [Sequence(p)] + rest;
    var prepared := Preparing(v, p);
    assert live[0] == Sequence(p);
    assert forall i | 0 <= i < |live| :: live[0] <= live[i];
    forall q | v.top < q < Sequence(p) ensures Covers(prepared.resync, q) || (v.session, q) in v.untracked {
      assert q !in live;
    }
  }
}
