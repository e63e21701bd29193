/**
 Reduction of a terminal payload that the server rejected as too large: the replacement keeps
 identity and order and declares what it removes. `size` is the encoded size of a payload.
 */
module FinalReduction {
  import opened Wrappers
  import opened Capture

  const MAX_DROPPED_COUNT := 2_147_483_647
  const UPLOAD := "capture.upload"

  datatype Refusal = NotTerminal | NotASubset | NothingRemoved | NotSmaller
  datatype Reduction = Reduced(payload: Payload) | Refused(why: Refusal)

  // ---------------------------------------------------------------- ordered subsets

  /** `picks` names, in ascending order, where each candidate item stands in the original. */
  ghost predicate Picks(picks: seq<nat>, candidate: seq<string>, original: seq<string>) {
    && |picks| == |candidate|
    && (forall i :: 0 <= i < |picks| ==> picks[i] < |original| && original[picks[i]] == candidate[i])
    && (forall i, j :: 0 <= i < j < |picks| ==> picks[i] < picks[j])
  }

  ghost predicate Subsequence(candidate: seq<string>, original: seq<string>) {
    exists picks :: Picks(picks, candidate, original)
  }

  /** Picks that use the last original item match it with the last candidate item. */
  lemma FurtherBack(candidate: seq<string>, original: seq<string>, k: nat, n: nat)
    requires k < |candidate| && n < |original|
    requires Subsequence(candidate[..k + 1], original[..n + 1])
    ensures candidate[k] != original[n] ==> Subsequence(candidate[..k + 1], original[..n])
    ensures Subsequence(candidate[..k], original[..n])
  {
    var p :| Picks(p, candidate[..k + 1], original[..n + 1]);
    assert original[..n + 1][p[k]] == candidate[..k + 1][k];
    if candidate[k] != original[n] {
      assert Picks(p, candidate[..k + 1], original[..n]);
    }
    forall i | 0 <= i < k ensures p[i] < n && original[..n][p[i]] == candidate[..k][i] {
      assert p[i] < p[k];
      assert original[..n + 1][p[i]] == candidate[..k + 1][i];
    }
    assert Picks(p[..k], candidate[..k], original[..n]);
  }

  /** If no picks reach past `k` items in `n`, none reaches past the next item in `n + 1` unless it matches. */
  lemma NoFurther(candidate: seq<string>, original: seq<string>, k: nat, n: nat)
    requires k < |candidate| && n < |original|
    requires !Subsequence(candidate[..k + 1], original[..n])
    ensures candidate[k] != original[n] ==> !Subsequence(candidate[..k + 1], original[..n + 1])
    ensures k + 1 < |candidate| ==> !Subsequence(candidate[..k + 2], original[..n + 1])
  {
    hide Subsequence;
    if Subsequence(candidate[..k + 1], original[..n + 1]) { FurtherBack(candidate, original, k, n); }
    if k + 1 < |candidate| {
      if Subsequence(candidate[..k + 2], original[..n + 1]) { FurtherBack(candidate, original, k + 1, n); }
    }
  }

  lemma OneFurther(candidate: seq<string>, original: seq<string>, k: nat, n: nat)
    requires k <= |candidate| && n < |original| && Subsequence(candidate[..k], original[..n])
    ensures Subsequence(candidate[..k], original[..n + 1])
    ensures k < |candidate| && candidate[k] == original[n] ==> Subsequence(candidate[..k + 1], original[..n + 1])
  {
    var p :| Picks(p, candidate[..k], original[..n]);
    assert Picks(p, candidate[..k], original[..n + 1]);
    if k < |candidate| && candidate[k] == original[n] {
      assert Picks(p + [n], candidate[..k + 1], original[..n + 1]);
    }
  }

  lemma PicksWiden(candidate: seq<string>, original: seq<string>, n: nat)
    requires n <= |original| && Subsequence(candidate, original[..n])
    ensures Subsequence(candidate, original)
  {
    var p :| Picks(p, candidate, original[..n]);
    assert Picks(p, candidate, original);
  }

  /** The greedy scan answers exactly whether the candidate is a subsequence. */
  method IsOrderedSubset(candidate: seq<string>, original: seq<string>) returns (answer: bool)
    ensures answer <==> Subsequence(candidate, original)
  {
    hide Picks, Subsequence;
    var k := 0;
    NothingIsSubsequence(candidate, original);
    for n := 0 to |original|
      invariant k <= |candidate|
      invariant n > 0 ==> k < |candidate|
      invariant Subsequence(candidate[..k], original[..n])
      invariant k < |candidate| ==> !Subsequence(candidate[..k + 1], original[..n])
    {
      OneFurther(candidate, original, k, n);
      if k < |candidate| { NoFurther(candidate, original, k, n); }
      if k < |candidate| && candidate[k] == original[n] {
        k := k + 1;
      }
      if k == |candidate| {
        assert candidate[..k] == candidate;
        PicksWiden(candidate, original, n + 1);
        return true;
      }
    }
    assert original[..|original|] == original;
    if k < |candidate| { WholeNeedsPrefix(candidate, original, k + 1); } else { assert candidate[..k] == candidate; }
    return k == |candidate|;
  }

  lemma NothingIsSubsequence(candidate: seq<string>, original: seq<string>)
    ensures Subsequence(candidate[..0], original[..0])
    ensures candidate != [] ==> !Subsequence(candidate[..1], original[..0])
  {
    assert Picks([], candidate[..0], original[..0]);
    if candidate != [] && Subsequence(candidate[..1], original[..0]) {
      SubsequenceLength(candidate[..1], original[..0]);
    }
  }

  lemma WholeNeedsPrefix(candidate: seq<string>, original: seq<string>, k: nat)
    requires k <= |candidate| && !Subsequence(candidate[..k], original)
    ensures !Subsequence(candidate, original)
  {
    if Subsequence(candidate, original) {
      var p :| Picks(p, candidate, original);
      assert Picks(p[..k], candidate[..k], original);
    }
  }

  lemma SubsequenceChains(a: seq<string>, b: seq<string>, c: seq<string>)
    requires Subsequence(a, b) && Subsequence(b, c)
    ensures Subsequence(a, c)
  {
    var p :| Picks(p, a, b);
    var q :| Picks(q, b, c);
    var r := seq(|p|, i requires 0 <= i < |p| => q[p[i]]);
    assert Picks(r, a, c);
  }

  lemma SubsequenceLength(a: seq<string>, b: seq<string>)
    requires Subsequence(a, b)
    ensures |a| <= |b| && (|a| == |b| ==> a == b)
  {
    var p :| Picks(p, a, b);
    if |p| > 0 { Spread(p, a, b, 0); }
    forall i | 0 <= i < |p| ensures i <= p[i] && p[i] + |p| - i <= |b| {
      Spread(p, a, b, i);
    }
  }

  lemma Spread(p: seq<nat>, a: seq<string>, b: seq<string>, i: nat)
    requires Picks(p, a, b) && i < |p|
    ensures i <= p[i] && p[i] + |p| - i <= |b|
  {
    SpreadBelow(p, a, b, i);
    SpreadAbove(p, a, b, i);
  }

  lemma {:induction false} SpreadBelow(p: seq<nat>, a: seq<string>, b: seq<string>, i: nat)
    requires Picks(p, a, b) && i < |p|
    ensures i <= p[i]
  {
    if i > 0 { SpreadBelow(p, a, b, i - 1); }
  }

  lemma {:induction false} SpreadAbove(p: seq<nat>, a: seq<string>, b: seq<string>, i: nat)
    requires Picks(p, a, b) && i < |p|
    ensures p[i] + |p| - i <= |b|
    decreases |p| - i
  {
    if i + 1 < |p| { SpreadAbove(p, a, b, i + 1); }
  }

  // ---------------------------------------------------------------- the loss note

  /** The index of the first upload note, and the length of the list when there is none. */
  function UploadNote(coverage: seq<Note>): (i: nat)
    ensures i <= |coverage|
    ensures i < |coverage| ==> coverage[i].signal == UPLOAD
    ensures forall j :: 0 <= j < i ==> coverage[j].signal != UPLOAD
  {
    if coverage == [] then 0
    else
      var i := UploadNote(coverage[..|coverage| - 1]);
      if i < |coverage| - 1 || coverage[|coverage| - 1].signal == UPLOAD then i else |coverage|
  }

  function WithLoss(coverage: seq<Note>, dropped: nat): seq<Note> {
    var i := UploadNote(coverage);
    if i == |coverage| then
      coverage + [Note(UPLOAD, "partial", "upload_failed_payload_dropped", Some(dropped))]
    else
      var prior := coverage[i].droppedCount;
      var total := if prior.Some?
          && prior.value + dropped <= MAX_DROPPED_COUNT then Some(prior.value + dropped) else None;
      coverage[i := coverage[i].(availability := "partial", reason := "upload_failed_payload_dropped",
          droppedCount := total)]
  }

  /** The loss can be added to what the payload already declares for uploads. */
  predicate Countable(coverage: seq<Note>, dropped: nat) {
    var i := UploadNote(coverage);
    i < |coverage| ==>
      coverage[i].droppedCount.Some? && coverage[i].droppedCount.value + dropped <= MAX_DROPPED_COUNT
  }

  /** The note declares exactly the loss if and only if the loss is countable. */
  lemma LossDeclared(coverage: seq<Note>, dropped: nat)
    requires dropped > 0
    ensures Declared(WithLoss(coverage, dropped)) == Declared(coverage) + dropped <==> Countable(coverage, dropped)
  {
    hide UploadNote;
    var i := UploadNote(coverage);
    if i == |coverage| {
      DeclaredAppend(coverage, [Note(UPLOAD, "partial", "upload_failed_payload_dropped", Some(dropped))]);
    } else {
      DeclaredUpdate(coverage, i, WithLoss(coverage, dropped)[i]);
    }
  }

  // ---------------------------------------------------------------- the reduction

  ghost predicate SameButForItems(replacement: Payload, original: Payload) {
    && replacement == original.(snapshots := replacement.snapshots, deviceEvents := replacement.deviceEvents)
    && Subsequence(replacement.snapshots, original.snapshots)
    && Subsequence(replacement.deviceEvents, original.deviceEvents)
  }

  function Replacement(original: Payload, candidate: Option<Payload>): Payload {
    if candidate.Some? then candidate.value else original.(snapshots := [], deviceEvents := [])
  }

  function Lost(original: Payload, replacement: Payload): int {
    Observations(original) - Observations(replacement)
  }

  ghost function Reduce(original: Payload, candidate: Option<Payload>, size: Payload -> nat): Reduction {
    var replacement := Replacement(original, candidate);
    if original.end.None? || original.version != CONTINUOUS_CAPTURE_VERSION then Refused(NotTerminal)
    else if !SameButForItems(replacement, original) then Refused(NotASubset)
    else if Lost(original, replacement) <= 0 then Refused(NothingRemoved)
    else
      var reduced := replacement.(coverage := WithLoss(replacement.coverage, Lost(original, replacement)));
      if size(reduced) >= size(original) then Refused(NotSmaller) else Reduced(reduced)
  }

  method CreateReducedFinalPayload(original: Payload, candidate: Option<Payload>, size: Payload -> nat)
    returns (reduction: Reduction)
    ensures reduction == Reduce(original, candidate, size)
  {
    if original.end.None? || original.version != CONTINUOUS_CAPTURE_VERSION {
      return Refused(NotTerminal);
    }
    var replacement := Replacement(original, candidate);
    var snapshots := IsOrderedSubset(replacement.snapshots, original.snapshots);
    var deviceEvents := IsOrderedSubset(replacement.deviceEvents, original.deviceEvents);
    if replacement.version != original.version
      || replacement.session != original.session
      || replacement.sequence != original.sequence
      || replacement.identity != original.identity
      || replacement.end != original.end
      || replacement.resync != original.resync
      || replacement.coverage != original.coverage
      || !snapshots
      || !deviceEvents
    {
      return Refused(NotASubset);
    }
    SubsequenceLength(replacement.snapshots, original.snapshots);
    SubsequenceLength(replacement.deviceEvents, original.deviceEvents);
    var lost := Lost(original, replacement);
    if lost == 0 {
      return Refused(NothingRemoved);
    }
    var reduced := replacement.(coverage := WithLoss(replacement.coverage, lost));
    if size(reduced) >= size(original) {
      return Refused(NotSmaller);
    }
    return Reduced(reduced);
  }

  /** Identity, terminal metadata and order survive; observations and encoded size strictly fall. */
  lemma ReductionKeeps(original: Payload, candidate: Option<Payload>, size: Payload -> nat)
    requires Reduce(original, candidate, size).Reduced?
    ensures var p := Reduce(original, candidate, size).payload;
      && p == original.(snapshots := p.snapshots, deviceEvents := p.deviceEvents, coverage := p.coverage)
      && Subsequence(p.snapshots, original.snapshots) && Subsequence(p.deviceEvents, original.deviceEvents)
      && Observations(p) < Observations(original)
      && size(p) < size(original)
  {
  }

  /** Kept plus declared equals the original account exactly when the loss is countable. */
  lemma ReductionConserves(original: Payload, candidate: Option<Payload>, size: Payload -> nat)
    requires Reduce(original, candidate, size).Reduced?
    ensures var p := Reduce(original, candidate, size).payload;
      Units(p) == Units(original) <==> Countable(original.coverage, Observations(original) - Observations(p))
  {
    hide Countable, WithLoss, Declared;
    var p := Reduce(original, candidate, size).payload;
    LossDeclared(original.coverage, Observations(original) - Observations(p));
  }

  /**
   The loss in the coverage: the first upload note is marked as this loss, its count raised when it has one
   and the sum fits 31 bits, and lost otherwise; without an upload note one is added at the end.
   */
  ghost predicate Noted(before: seq<Note>, after: seq<Note>, dropped: int) {
    if forall j :: 0 <= j < |before| ==> before[j].signal != "capture.upload" then
      after == before + [Note("capture.upload", "partial", "upload_failed_payload_dropped", Some(dropped))]
    else exists i :: 0 <= i < |before| && NotedAt(before, after, dropped, i)
  }

  predicate NotedAt(before: seq<Note>, after: seq<Note>, dropped: int, i: nat)
    requires i < |before|
  {
    var prior := before[i].droppedCount;
    && before[i].signal == "capture.upload" && (forall j :: 0 <= j < i ==> before[j].signal != "capture.upload")
    && after == before[i := Note("capture.upload", "partial", "upload_failed_payload_dropped",
         if prior.Some? && prior.value + dropped <= 2147483647 then Some(prior.value + dropped) else None)]
  }

  lemma LossNoted(before: seq<Note>, dropped: nat)
    ensures Noted(before, WithLoss(before, dropped), dropped)
  {
    hide UploadNote;
    var i := UploadNote(before);
    if i < |before| { assert NotedAt(before, WithLoss(before, dropped), dropped, i); }
  }

  /** Only observations may be left out, and the rest of them keep their order. */
  ghost predicate OnlyLeavesOut(kept: Payload, original: Payload) {
    && kept.version == original.version && kept.session == original.session && kept.sequence == original.sequence
    && kept.identity == original.identity && kept.coverage == original.coverage && kept.resync == original.resync
    && kept.end == original.end
    && Subsequence(kept.snapshots, original.snapshots) && Subsequence(kept.deviceEvents, original.deviceEvents)
  }

  /** How many observations `kept` has less than the original. */
  function Removed(kept: Payload, original: Payload): int {
    |original.snapshots| - |kept.snapshots| + |original.deviceEvents| - |kept.deviceEvents|
  }

  /**
   What the reduction answers. Without a candidate every observation is left out. It is refused for the
   first of these reasons: the payload is not terminal, the candidate does not just leave observations
   out, it leaves none out, or what comes out is not smaller. Otherwise it is the candidate with its loss noted.
   */
  lemma ReduceExactly(original: Payload, candidate: Option<Payload>, size: Payload -> nat)
    ensures var kept := if candidate.Some? then candidate.value else original.(snapshots := [], deviceEvents := []);
      var result := Reduce(original, candidate, size);
      if original.version != 2 || original.end.None? then result == Refused(NotTerminal)
      else if !OnlyLeavesOut(kept, original) then result == Refused(NotASubset)
      else if Removed(kept, original) == 0 then result == Refused(NothingRemoved)
      else
        exists coverage :: Noted(original.coverage, coverage, Removed(kept, original))
          && result == if size(kept.(coverage := coverage)) < size(original) then Reduced(kept.(coverage := coverage))
                       else Refused(NotSmaller)
  {
    hide Subsequence, WithLoss, Noted;
    var kept := if candidate.Some? then candidate.value else original.(snapshots := [], deviceEvents := []);
    if OnlyLeavesOut(kept, original) {
      SubsequenceLength(kept.snapshots, original.snapshots);
      SubsequenceLength(kept.deviceEvents, original.deviceEvents);
      LossNoted(original.coverage, Removed(kept, original));
    }
  }

  /** Every payload of the run is an accepted reduction of the one before it. */
  ghost predicate Run(run: seq<Payload>, size: Payload -> nat) {
    forall i :: 0 <= i < |run| - 1 ==> Step(run[i], run[i + 1], size)
  }

  ghost predicate Step(original: Payload, reduced: Payload, size: Payload -> nat) {
    exists candidate :: Reduce(original, candidate, size) == Reduced(reduced)
  }

  /** A run of reductions ends, and what is left is still an ordered part of the first payload. */
  lemma {:induction false} RunEnds(run: seq<Payload>, size: Payload -> nat)
    requires Run(run, size) && run != []
    ensures |run| + size(run[|run| - 1]) <= size(run[0]) + 1
    ensures |run| + Observations(run[|run| - 1]) <= Observations(run[0]) + 1
    ensures var first, last := run[0], run[|run| - 1];
      && last == first.(snapshots := last.snapshots, deviceEvents := last.deviceEvents, coverage := last.coverage)
      && Subsequence(last.snapshots, first.snapshots) && Subsequence(last.deviceEvents, first.deviceEvents)
  {
    hide Reduce, Subsequence;
    if |run| == 1 {
      SubsequenceSelf(run[0].snapshots);
      SubsequenceSelf(run[0].deviceEvents);
    } else {
      var n := |run| - 1;
      RunEnds(run[..n], size);
      assert Step(run[n - 1], run[n], size);
      var candidate :| Reduce(run[n - 1], candidate, size) == Reduced(run[n]);
      ReductionKeeps(run[n - 1], candidate, size);
      SubsequenceChains(run[n].snapshots, run[n - 1].snapshots, run[0].snapshots);
      SubsequenceChains(run[n].deviceEvents, run[n - 1].deviceEvents, run[0].deviceEvents);
    }
  }

  lemma SubsequenceSelf(a: seq<string>)
    ensures Subsequence(a, a)
  {
    assert Picks(seq(|a|, i => i), a, a);
  }

  /** All `n` observations can be added to what is declared for uploads. */
  predicate CanCarry(coverage: seq<Note>, n: nat) {
    n <= MAX_DROPPED_COUNT && Countable(coverage, n)
  }

  lemma CarryOn(coverage: seq<Note>, dropped: nat, kept: nat)
    requires CanCarry(coverage, dropped + kept)
    ensures Countable(coverage, dropped) && CanCarry(WithLoss(coverage, dropped), kept)
  {
    var i := UploadNote(coverage);
    var after := WithLoss(coverage, dropped);
    assert after[i].signal == UPLOAD;
    assert forall j :: 0 <= j < i ==> after[j] == coverage[j];
    assert UploadNote(after) == i;
  }

  /** While the losses fit the counter, a whole run of reductions conserves the account of the first payload. */
  lemma {:induction false} RunConserves(run: seq<Payload>, size: Payload -> nat)
    requires Run(run, size) && run != []
    requires CanCarry(run[0].coverage, Observations(run[0]))
    ensures Units(run[|run| - 1]) == Units(run[0])
    ensures CanCarry(run[|run| - 1].coverage, Observations(run[|run| - 1]))
  {
    hide Declared, CanCarry, Countable, WithLoss, Observations;
    if |run| > 1 {
      var n := |run| - 1;
      RunConserves(run[..n], size);
      assert Step(run[n - 1], run[n], size);
      var candidate :| Reduce(run[n - 1], candidate, size) == Reduced(run[n]);
      ReductionKeeps(run[n - 1], candidate, size);
      ReductionConserves(run[n - 1], candidate, size);
      var lost := Observations(run[n - 1]) - Observations(run[n]);
      CarryOn(run[n - 1].coverage, lost, Observations(run[n]));
      ReducedCoverage(run[n - 1], candidate, size);
    }
  }

  lemma ReducedCoverage(original: Payload, candidate: Option<Payload>, size: Payload -> nat)
    requires Reduce(original, candidate, size).Reduced?
    ensures var p := Reduce(original, candidate, size).payload;
      Observations(p) < Observations(original)
      && p.coverage == WithLoss(original.coverage, Observations(original) - Observations(p))
  {
  }
}
