# Earshot models

Dafny models of the parts of Earshot whose correctness emerges from several functions working
together, with proofs of the properties they are built for. Check everything with
`dafny verify dfyconfig.toml`.

**Capture delivery** (`packages/browser`). `TransportModel` is the delivery protocol as a state
machine: a step runs from one `await` to the next, and the server's answers, the readings of the
host's authorization context and the enumeration order of a map are inputs. Ghost histories record
what was POSTed, acknowledged, given up, resolved and sent. `CaptureTransport` is the class that
updates the source's fields in place; each of its methods takes exactly the model's step.
`TransportShape` keeps the bounds, `SessionLedger`, `TransportLedger` and `GapFree` the ledger of one
session. `DeliveryGuarantees`, `Blocking`, `SilentLoss`, `Settlement`, `Progress`, `FewSessions` and
`LossAccounting` state what follows for every run, and `Restamping`, `Vanishing`, `LateLoss` and
`Closing` when the ledger fails. `Outcomes` and `Admission` say, on the fields of the transport alone,
what every answer, continuation and call comes to.
`RingBuffer`, `RecorderModel` and `BrowserRecorder` are the recorder, and `RecorderHistory` what its
drains say of the calls since the last one; `EndToEnd`, `CallLedger` and `CallHistory` wire recorder and
transport together. `Sorting`, `Sets` and `Wrappers` are shared.

The main result is that no drain is lost silently. In every interleaving of sends, evictions,
retries, refusals, flushes and stops, each sequence up to the newest acknowledged one is acknowledged
or declared missing on an acknowledged body, and never both, unless it was sent only once and that
`send` found another authorization context. Such a payload leaves no trace in the recovery ledger.
A full recovery ledger, on the other hand, is harmless in this sense: the session it cannot remember
is never delivered again.

`Closing.VanishesExactly` says when the promise fails. From any reachable transport, the next drain of
a session can end up below an acknowledged one, neither acknowledged nor declared, if and only if its
`send` finds another context and the transport is not stopped, not stuck, does not refuse the session
and can outlast an acceptance that is pending, and a number is left for a later drain. The last two
conditions are corner cases. A saturated transport that has a good answer to a body of the session in
hand forgets the session with it, unless something later is missed by then; that cannot come about
when an earlier range is missed and nothing of the session waits.

The lost wake-up is exact as well: the drain field sticks if and only if the context changes between
the check of `send` and that of the drain loop inside one call. A stuck transport never POSTs again,
and no flush gets past it.

The theorems about sequences assume the recorder's discipline: drains of a session are numbered
1, 2, 3, …, and once the final one was sent only it is sent again. `CallLedger` discharges the
assumption for `EarshotBrowserRecorder`. They also assume that `sleep` does not throw and that
callbacks do not call back into the transport.

**Final reduction** (`examples/browser-voice`). `FinalReduction` is the replacement of a terminal
payload that the server called too large.

**Incident analysis** (`packages/sdk-python`). `TurnOwnership` is the memoised walk over a possibly
cyclic parent graph, `Episodes` the segmentation of a turn into interruption episodes,
`ClockCalibration` the affine clock map and the choice between calibrations, `IntervalUnion` tool wall
time.

**Paced playback** (`examples/livekit_otlp`). `PlayoutModel`, `PlayoutGuarantees`, `PlayoutAnswers` and
the class in `PacedAudio`: a producer races a playout task. A cut finishes a segment that its clear did not name
exactly when the producer opened one in between; `CutReachesNewSegment` shows that it can.

**Keys and verdicts** (`packages/sdk-python`). `KeyRefresh` interleaves request threads over two
locks and a clock. The 300 s of a key count from the stamp its set gets after the fetch, so a key can
be older than that exactly when its thread was suspended between the answer and the stamp.
`VerdictCache` compares the least-recently-used cache with a plain log.

**Source archives** (`scripts`). `TarPrescan` is the streaming prescan of a tar stream, proved to
accept exactly a grammar; `TarHeaders` says byte by byte what its headers are.

## Model

| member | source | states |
|---|---|---|
| CallLedger.EveryDrainAccountedFor | packages/browser/src/transport.ts:458-655 | In every call wired from recorder to transport, each drain up to the newest acknowledged one is acknowledged or declared missing, never both, unless it was sent once and that `send` found another authorization context. |
| CallLedger.CallIsRun | packages/browser/src/recorder.ts:459-504 | The recorder's numbering makes every call a disciplined run of the transport. |
| SilentLoss.NoSilentLossButMismatch | packages/browser/src/transport.ts:371-655 | The same for any disciplined caller, saturated or not: only a context mismatch at the only `send` of a sequence can leave it neither acknowledged nor declared. |
| Closing.VanishesExactly | packages/browser/src/transport.ts:371-393 | From every reachable transport, the next drain can end up silently lost if and only if its `send` finds another context while the transport is open to its session and stays so. |
| Closing.OutlastsNothing | packages/browser/src/transport.ts:779-793 | When the acceptance pending is bound to forget the session, even a mismatched drain is, in every continuation, declared or never passed. |
| LateLoss.BareVanishes | packages/browser/src/transport.ts:795-827 | With nothing missed and nothing waiting behind a pending acceptance, a mismatched drain can vanish behind a repetition of its successor. |
| SilentLoss.InFlightIsTaken | packages/sdk-python/src/earshot/capture/calls.py:674-687 | Each body in flight passes the server's gap rule for whatever the server has applied from the newest acknowledged sequence on, responses lost in between included, unless a sequence in the gap was lost at its only `send`; it declares exactly the sequences in between. |
| SilentLoss.PostedIsNotAhead | packages/browser/src/transport.ts:591-655 | Nothing of the session that was POSTed, and so applied, is ahead of the body in flight. |
| SilentLoss.RunHarmless | packages/browser/src/transport.ts:795-855 | A loss that the full ledger could not remember is acknowledged after all, or its session is shut out behind everything it may still bring in. |
| Vanishing.MismatchLosesSilently | packages/browser/src/transport.ts:371-397 | From every reachable transport that goes on delivering the session, a drain refused for its context has a continuation in which it is neither acknowledged nor declared although its successor is acknowledged. |
| Vanishing.VanishesOnlyMismatched | packages/browser/src/transport.ts:371-655 | A drain admitted by its `send`, or sent to a transport that is stopped, stuck or refuses its session, is never lost silently. |
| Restamping.ResumeRestamps | packages/browser/src/transport.ts:458-655 | The drain loop never looks at what was sent or lost before: under other records it takes the same step. |
| DeliveryGuarantees.NoSilentLoss | packages/browser/src/transport.ts:760-827 | Each sequence up to the newest acknowledged one is acknowledged, declared, or an untracked loss the caller was told of, and never both of the first two. |
| DeliveryGuarantees.DeclaredOnce | packages/browser/src/transport.ts:760-793 | In every disciplined run, no two acknowledged bodies declare the same sequence missing. |
| DeliveryGuarantees.NoOvertaking | packages/browser/src/transport.ts:495-551 | POSTed drain sequences of one session never decrease. |
| DeliveryGuarantees.OnlyTheRetainedRequest | packages/browser/src/transport.ts:495-551 | While a request is retained, only its identical body is POSTed for the session and no queued drain of it is delivered. |
| Blocking.BlockedBehindRetained | packages/browser/src/transport.ts:458-578 | In every run and for every input, an entry that leaves the queue is in the loop's hands or was resolved undelivered with its payload reported lost, and only the good end of its own delivery, with nothing of its session retained, resolves it as delivered. |
| Blocking.TakenBehindRetained | packages/browser/src/transport.ts:513-531 | So a drain taken from the queue while its session keeps a retained request is given up, waits while that request is retried, or was itself just retained. |
| DeliveryGuarantees.SticksExactly | packages/browser/src/transport.ts:377-577 | The drain field sticks if and only if the payload is admitted to an idle transport and the context changes between the two checks. |
| DeliveryGuarantees.StuckForever | packages/browser/src/transport.ts:422-444 | A stuck transport never POSTs again, and a flush changes nothing in it: it never reaches its retries. |
| DeliveryGuarantees.NoLostWakeUp | packages/browser/src/transport.ts:415-418 | With a context that is steady within each `send`, waiting payloads always have a running drain. |
| Outcomes.PostAnswered | packages/browser/src/transport.ts:591-655 | In every run, what an answer to a POST comes to: a good one moves on, a retryable or missing one pauses while attempts are left, and on the last one a numbered request is retained whenever its session keeps it or has a place, nothing being lost; every other end loses the body. |
| Outcomes.LostExactly | packages/browser/src/transport.ts:641-655 | So the answer reports the body lost if and only if it is permanent, or the last one for a request that is unnumbered or cannot be kept. |
| Outcomes.ContextEnds | packages/browser/src/transport.ts:967-987 | A context that changed ends the delivery at each of its checks, and the request is retained or lost by the same rule. |
| Outcomes.GoesOn | packages/browser/src/transport.ts:591-640 | After the pause the same body is POSTed again, and a read acknowledgement and its observer end in acceptance. |
| Outcomes.EndSettles | packages/browser/src/transport.ts:480-565 | What the end of a delivery settles first: the acknowledgement, the promise and whether it was delivered, or the loss of the drain behind a retained request; all other retained requests stay. |
| Outcomes.NextServed | packages/browser/src/transport.ts:466-565 | Who is POSTed next: the drain that waited for a settled retry, the next request of a flush, or the head of the queue, behind its session's retained request. |
| Outcomes.ContextLosesNext | packages/browser/src/transport.ts:471-485 | Under another context the head of the queue is given up instead. |
| Outcomes.NumberedExactly | packages/browser/src/transport.ts:857-866 | A payload is numbered iff it is of version 2 and has a safe whole number of at least 1. |
| Admission.SendAnswered | packages/browser/src/transport.ts:371-420 | `send` refuses exactly when stopped, under another context, shut out or unserializable; otherwise the payload is POSTed at once or queued, and a full queue loses its oldest entry as an overflow. |
| Admission.FlushAnswered | packages/browser/src/transport.ts:422-444 | A flush at rest retries every retained request in the order of the map, and changes nothing otherwise. |
| Admission.StopAnswered | packages/browser/src/transport.ts:446-456 | The first stop resolves and reports every queued payload in order, and leaves a delivery under way alone. |
| FewSessions.NeverFull | packages/browser/src/transport.ts:795-855 | With numbered drains of no more sessions than there are places, the recovery ledger never saturates in any run. |
| GapFree.RunSound | packages/browser/src/transport.ts:371-655 | Over every disciplined run the ledger of every session is lawful: all sequences after the acknowledged ones are live in order, remembered as missed, or untracked. |
| GapFree.StepSound | packages/browser/src/transport.ts:371-655 | Every disciplined step keeps that ledger. |
| GapFree.PumpSound | packages/browser/src/transport.ts:458-578 | One pass of the drain loop keeps it. |
| GapFree.RetainSound | packages/browser/src/transport.ts:714-758 | Retaining a request, or giving it up when nothing can be retained, keeps it. |
| TransportLedger.GiveUpBalanced | packages/browser/src/transport.ts:869-914 | Giving up a drain anywhere in line leaves the others accounted for. |
| TransportLedger.AcceptBalanced | packages/browser/src/transport.ts:779-793 | Accepting the first drain in line settles it and everything it declares, and clears exactly that from the ledger. |
| SessionLedger.LosingLawful | packages/browser/src/transport.ts:795-827 | Widening the missed range, or leaving the loss untracked, keeps the ledger lawful wherever in line the drain was. |
| SessionLedger.AcceptingLawful | packages/browser/src/transport.ts:779-793 | Clearing the missed range through an accepted sequence keeps it lawful. |
| SessionLedger.PreparingReady | packages/browser/src/transport.ts:760-777 | The declaration put on the first drain in line covers everything missed before it and nothing else. |
| TransportShape.RunKeeps | packages/browser/src/transport.ts:388-415 | In every reachable state the queue and the recovery sessions are within their bounds, each drain run retries a session at most once, and each delivery POSTs within `maxAttempts`. |
| TransportShape.StepKeeps | packages/browser/src/transport.ts:795-855 | Once saturated, the recovery sessions never gain a member and no tracked delivery begins outside them. |
| Settlement.ResolvedExactlyOnce | packages/browser/src/transport.ts:371-454 | Each `send` promise is resolved, waiting or in the drain loop's hands: exactly one of them, exactly once. |
| Settlement.ResumeDecreases | packages/browser/src/transport.ts:591-646 | Each continuation of a drain run lowers a measure of the work left. |
| Settlement.DrainRunEnds | packages/browser/src/transport.ts:458-578 | A drain run over finite input ends within that many continuations, with its promises resolved. |
| Progress.ContinuationsBounded | packages/browser/src/transport.ts:371-655 | In every run, whatever is interleaved, the continuations had plus the work left never exceed what the sends and flushes brought: two deliveries each, and one for each remembered session. |
| Progress.RunDrains | packages/browser/src/transport.ts:371-578 | In every run with a steady context, the rest of those continuations brings the transport to rest, with an empty queue and each issued promise resolved once. |
| LossAccounting.StepAccount | packages/browser/src/transport.ts:869-914 | Every step conserves observations plus carried coverage counts over queue, hand, retained requests, acknowledgements and reported losses. |
| CaptureTransport.EarshotCaptureTransport.Send | packages/browser/src/transport.ts:371-420 | The method takes exactly the model's step: refuse, evict and enqueue, start a drain run. |
| CaptureTransport.EarshotCaptureTransport.Flush | packages/browser/src/transport.ts:422-444 | An idle flush retries the retained requests in enumeration order. |
| CaptureTransport.EarshotCaptureTransport.Stop | packages/browser/src/transport.ts:446-456 | Closing admission gives up and resolves the whole queue. |
| CaptureTransport.EarshotCaptureTransport.DrainQueue | packages/browser/src/transport.ts:458-578 | The drain loop is the recursive pass of the model, readings of the context included. |
| CaptureTransport.EarshotCaptureTransport.AfterDelivery | packages/browser/src/transport.ts:480-565 | What the loop does with each outcome of each kind of delivery. |
| CaptureTransport.EarshotCaptureTransport.Resume | packages/browser/src/transport.ts:580-655 | A delivery continued after POST, sleep, acknowledgement body and observer. |
| CaptureTransport.EarshotCaptureTransport.FailDelivery | packages/browser/src/transport.ts:641-655 | A delivery that ran out of attempts is retained, a permanent one dropped. |
| CaptureTransport.EarshotCaptureTransport.RetainExactRetry | packages/browser/src/transport.ts:714-758 | The request is retained, or given up when the session already retains another one or cannot be remembered. |
| CaptureTransport.EarshotCaptureTransport.PrepareResync | packages/browser/src/transport.ts:760-777 | The body gets the missed range clipped below its own sequence. |
| CaptureTransport.EarshotCaptureTransport.ClearResync | packages/browser/src/transport.ts:779-793 | An accepted sequence removes the range or its prefix. |
| CaptureTransport.EarshotCaptureTransport.RememberDroppedDrain | packages/browser/src/transport.ts:795-827 | The missed range is widened, or the transport saturates. |
| CaptureTransport.EarshotCaptureTransport.RememberExactRetry | packages/browser/src/transport.ts:829-844 | One request per session is kept while the session can be remembered. |
| CaptureTransport.EarshotCaptureTransport.GiveUp | packages/browser/src/transport.ts:869-914 | A loss is remembered if it may be, and logged with its payload. |
| CaptureTransport.EarshotCaptureTransport.BlockForAuthContextChange | packages/browser/src/transport.ts:967-987 | A numbered body whose context changed is retained, any other one given up. |
| EndToEnd.LossIsConserved | packages/browser/src/recorder.ts:431-486 | In every session each counted observation is due in the recorder, in transit, delivered, or forgotten by a full or closed note buffer, and in exactly one of these. |
| EndToEnd.RoomForgetsNothing | packages/browser/src/recorder.ts:431-453 | Over a whole session in which every reported note finds a matching note or a free slot of an open recorder, nothing is forgotten: what was counted is due, in transit or delivered. |
| EndToEnd.RoomySessionFits | packages/browser/src/recorder.ts:431-453 | An open recorder with a slot for every note that each event reports is such a session. |
| EndToEnd.SessionIsGapFree | packages/browser/src/recorder.ts:459-504 | The recorder's numbering is all the discipline the session ledger needs. |
| EndToEnd.FinalIsReplayed | packages/browser/src/recorder.ts:459-504 | After the first final payload of a session, whatever happens, every later send carries exactly that payload. |
| RecorderModel.DrainSettles | packages/browser/src/recorder.ts:459-486 | A drain hands over all that the recorder owes, in observations and counts, and leaves nothing owed. |
| RecorderModel.RecordOwes | packages/browser/src/recorder.ts:431-453 | Merging notes preserves sums; only an overflowing or closed buffer forgets a count. |
| RecorderModel.CounterCoverageDeclares | packages/browser/src/recorder.ts:539-603 | The notes built from the counters declare exactly what was counted. |
| RecorderHistory.DrainSays | packages/browser/src/recorder.ts:459-603 | Over every history of calls, a drain carries the newest snapshots and the newest device events since the last one, each in its field and in order, the next number, and one coverage line for each kind of loss with its signal, reason and count, for each unexposed platform signal, and for each of the first 32 noted gaps with the sum of its notes. |
| RecorderHistory.EndsExactly | packages/browser/src/recorder.ts:488-504 | A call ends with `endCall` or a numbered drain that says so, and what that returned stays. |
| RecorderHistory.EndCallSays | packages/browser/src/recorder.ts:498-504 | `endCall` says what the final drain of the call would. |
| RecorderHistory.EndReplays | packages/browser/src/recorder.ts:459-504 | Every later drain returns it again, whatever happens in between. |
| CallHistory.SentSays | packages/browser/src/transport.ts:869-914 | In a whole call each sent payload says the same of the call's history, in which every lost payload reports itself by its observations and reason, and the notes it carried. |
| BrowserRecorder.EarshotBrowserRecorder.RecordCoverage | packages/browser/src/recorder.ts:431-453 | The method merges, appends or counts the overflow as the model says. |
| BrowserRecorder.EarshotBrowserRecorder.Drain | packages/browser/src/recorder.ts:459-495 | The method numbers, empties and, at the end of a call, keeps the final payload. |
| BrowserRecorder.EarshotBrowserRecorder.EndCall | packages/browser/src/recorder.ts:498-504 | A recorder of either version replays one final payload. |
| RingBuffer.DropOldestBuffer.Push | packages/browser/src/recorder.ts:160-169 | The buffer holds the newest `capacity` items in order and reports a drop exactly when it was full, capacity 0 included. |
| RingBuffer.DropOldestBuffer.Drain | packages/browser/src/recorder.ts:171-180 | The items come out in order and the buffer is empty. |
| RingBuffer.KeptPlusReported | packages/browser/src/recorder.ts:151-181 | Over any pushes and drains at any capacity, the buffer holds the newest items pushed since the last drain, each drain returned the newest since the one before, and in each case kept items plus reported drops equal the pushes. |
| RingBuffer.NothingElsePushed | packages/browser/src/recorder.ts:151-181 | Those batches, in order, are all that was pushed. |
| FinalReduction.IsOrderedSubset | examples/browser-voice/src/session.ts:84-91 | The greedy scan answers exactly whether the candidate is a subsequence. |
| FinalReduction.CreateReducedFinalPayload | examples/browser-voice/src/session.ts:131-174 | The reduction is accepted or refused, in the source's order of refusals, on the declarative subsequence condition. |
| FinalReduction.ReduceExactly | examples/browser-voice/src/session.ts:93-174 | Which payloads are refused and why, and what an accepted reduction is: the candidate, or no observations, with the first upload note raised by the loss. |
| FinalReduction.ReductionKeeps | examples/browser-voice/src/session.ts:131-174 | Identity, terminal metadata and order survive; observations and encoded size strictly fall. |
| FinalReduction.ReductionConserves | examples/browser-voice/src/session.ts:93-121 | Kept plus declared equals the original account if and only if no upload note exists yet or it has a count and the sum fits. |
| FinalReduction.RunEnds | examples/browser-voice/src/session.ts:131-174 | Repeated reductions end within the encoded size, and what is left is an ordered part of the first payload. |
| FinalReduction.RunConserves | examples/browser-voice/src/session.ts:93-121 | While the losses fit the counter, a whole run of reductions conserves the first payload's account. |
| TurnOwnership.OperationTurnIds | packages/sdk-python/src/earshot/analysis.py:1902-1934 | The memoised pass gives every operation the turn of an unmemoised walk, cycles included, and holds nothing else. |
| TurnOwnership.Resolve | packages/sdk-python/src/earshot/analysis.py:1911-1933 | One inner loop finds the turn that every member of its chain owns. |
| TurnOwnership.WalkFindsOwner | packages/sdk-python/src/earshot/analysis.py:1918-1931 | The walk finds the nearest turn up the parent links, and none exactly when there is none at any distance. |
| TurnOwnership.OwnedByPath | packages/sdk-python/src/earshot/analysis.py:1902-1934 | An operation gets a turn iff parent links through operations without one, none of them external, lead to an operation that carries it, each link naming the last operation at its address. |
| TurnOwnership.OrderDoesNotMatter | packages/sdk-python/src/earshot/analysis.py:1905-1909 | With unique span addresses the answer is independent of the order of the operations. |
| Episodes.SegmentInterruptionEpisodes | packages/sdk-python/src/earshot/analysis.py:1467-1556 | The loops compute the declarative segmentation: anchors, event buckets, interval buckets and unattributable intervals. |
| Episodes.OpenEpisodes | packages/sdk-python/src/earshot/analysis.py:1500-1514 | The flag-driven loop opens an episode exactly at each trigger that does not classify the overlap just before it. |
| Episodes.LatestAnchorAtOrBefore | packages/sdk-python/src/earshot/analysis.py:1388-1400 | The scan finds the one anchor that is latest among those before the first later one, incomparable anchors skipped. |
| Episodes.BucketIntervals | packages/sdk-python/src/earshot/analysis.py:1431-1464 | Each interval goes to the one episode it certainly overlaps, or to the unattributable rest. |
| Episodes.EventsOfEpisode | packages/sdk-python/src/earshot/analysis.py:1529-1533 | On one timeline bucket i holds exactly the events of `[anchor i, anchor i + 1)`. |
| Episodes.EventsPartitioned | packages/sdk-python/src/earshot/analysis.py:1529-1533 | Every event is in exactly one bucket or precedes the first anchor. |
| Episodes.IntervalsPartitioned | packages/sdk-python/src/earshot/analysis.py:1403-1464 | An interval lands in an episode iff it shares an instant with it and with no other; the straddlers are exactly the unattributable ones. |
| Episodes.OneChainPerEpisode | packages/sdk-python/src/earshot/analysis.py:1487-1578 | Every bucket of events holds its own anchor, at most one overlap and at most one classification. |
| Episodes.SegmentedExactly | packages/sdk-python/src/earshot/analysis.py:1467-1556 | What segmentation returns on one timeline: one episode for each anchor, each with exactly one chain; with several, the events of its half-open span and the intervals that meet it alone, with one the whole turn. |
| Episodes.EpisodesCounted | packages/sdk-python/src/earshot/analysis.py:1487-1514 | There are as many episodes as overlaps and classifications whose latest earlier trigger is not an overlap. |
| Episodes.ChainsStayTogether | packages/sdk-python/src/earshot/analysis.py:1500-1533 | A classification whose latest earlier trigger is an overlap is in the same returned episode as that overlap, and neither is in another. |
| Episodes.PresentationOrder | packages/sdk-python/src/earshot/analysis.py:63-83 | Placed points come first, by domain, kind of reading, reading and identity. |
| Episodes.Decided | packages/sdk-python/src/earshot/analysis.py:1253-1266 | Two points are comparable iff they share a domain and a kind of reading, monotonic before the source's. |
| Episodes.TriggersInOrder | packages/sdk-python/src/earshot/analysis.py:63-83 | The triggers come out in presentation order, whatever the clocks. |
| ClockCalibration.ForwardMaps | packages/sdk-python/src/earshot/analysis.py:409-450 | Forward an instant moves by the offset and the nearest whole drift over its distance from the reference; a slope that is not positive is refused, as is a result outside 64 bits. |
| ClockCalibration.BackwardMaps | packages/sdk-python/src/earshot/analysis.py:409-450 | Backward its distance from the reference is the nearest whole quotient by the slope. |
| ClockCalibration.AppliesExactly | packages/sdk-python/src/earshot/analysis.py:382-407 | A relation applies exactly inside its window, both ends included, with its own bound. |
| ClockCalibration.ForwardKeepsOrder | packages/sdk-python/src/earshot/analysis.py:409-450 | With a positive slope the rounded forward map never reverses two instants. |
| ClockCalibration.ForwardSeparates | packages/sdk-python/src/earshot/analysis.py:409-450 | With a slope of at least one it keeps them at least as far apart. |
| ClockCalibration.RoundTripExactly | packages/sdk-python/src/earshot/analysis.py:409-450 | The round trip returns the instant if and only if the rounding error of the forward map is below half the slope, or at half the slope with an even distance from the reference. |
| ClockCalibration.RoundTripBound | packages/sdk-python/src/earshot/analysis.py:409-450 | The round trip errs by at most 1/(2·slope) + 1/2 ns, and by nothing with slope at least 1. |
| ClockCalibration.AlignmentRoundTrip | packages/sdk-python/src/earshot/analysis.py:382-407 | The inverse undoes an alignment, validity window and uncertainty included, if and only if that condition holds and the instant is representable; if only the latter fails it is refused as unrepresentable. |
| ClockCalibration.ContractionLoses | packages/sdk-python/src/earshot/analysis.py:409-450 | An instant that fails the condition: a half-speed relation whose round trip is off by one. |
| ClockCalibration.Reconcile | packages/sdk-python/src/earshot/analysis.py:353-380 | The sorted pairwise scan computes the answer that the set of candidates determines: one is chosen iff there is a candidate and every pair overlaps within both bounds, and it carries the smallest known bound and the smallest value with it. |
| ClockCalibration.ReconcileDetermined | packages/sdk-python/src/earshot/analysis.py:353-380 | Neither the order nor the repetition of candidates matters. |
| ClockCalibration.CommonInstant | packages/sdk-python/src/earshot/analysis.py:367-380 | When every pair agrees, one instant lies in every interval with a known bound. |
| IntervalUnion.WallTime | packages/sdk-python/src/earshot/analysis.py:1014-1023 | The merge yields sorted, strictly separated intervals that cover exactly the input points; the total is the measure of the union less what stray reversed intervals run backwards. |
| IntervalUnion.WallTimeExact | packages/sdk-python/src/earshot/analysis.py:986-1023 | The total is the measure of the union iff no reversed interval starts beyond every interval that starts before it. |
| IntervalUnion.OrderDoesNotMatter | packages/sdk-python/src/earshot/analysis.py:1014-1023 | The reported total depends only on which intervals there are, stray reversed ones included. |
| IntervalUnion.WallTimeAtMostWork | packages/sdk-python/src/earshot/analysis.py:971-1023 | Wall time is at most the summed work. |
| IntervalUnion.ReversedInterval | packages/sdk-python/src/earshot/analysis.py:989-1011 | An operation whose endpoints come from two clocks can report negative wall time. |
| PlayoutGuarantees.FinishedOnceInOrder | examples/livekit_otlp/call_io.py:105-191 | In every interleaving segments are reported finished as 1, 2, 3, …, each at most once and only after it was opened. |
| PlayoutGuarantees.ReportsTruthful | examples/livekit_otlp/call_io.py:168-191 | The runs of a report tile what was played, which never exceeds what was captured; an uninterrupted report played all that was ever captured for its segment. |
| PlayoutGuarantees.DrainedIsFinished | examples/livekit_otlp/call_io.py:105-166 | When the queue is drained only the segment still being captured is unfinished. |
| PlayoutGuarantees.ConsumedIsFinished | examples/livekit_otlp/call_io.py:134-144 | In every run, once an end or clear item is consumed, every segment up to its own has been reported finished, exactly once and in order. |
| PlayoutGuarantees.FramesStartUncut | examples/livekit_otlp/call_io.py:120-139 | No frame starts under a stale interrupt. |
| PlayoutGuarantees.CutReachesExactly | examples/livekit_otlp/call_io.py:120-166 | In every run, while a frame plays under a raised flag the clear item heads the queue, and the cut finishes a segment that item does not name if and only if one was opened since. |
| PlayoutGuarantees.CutReachesNewSegment | examples/livekit_otlp/call_io.py:162-166 | The producer can bring that about in any state in which a frame plays; the new segment is reported finished, interrupted and unheard. |
| PlayoutGuarantees.StepKeeps | examples/livekit_otlp/call_io.py:105-191 | Every producer call and playout step keeps the queue orderly, the numbering, the tiling and the audio account. |
| PlayoutAnswers.FrameStarts | examples/livekit_otlp/call_io.py:145-155 | A frame goes on with the open run when it comes within 5 ms of its end, and otherwise closes it and opens one now. |
| PlayoutAnswers.FramePlays | examples/livekit_otlp/call_io.py:156-161 | An uninterrupted frame counts its whole duration as played. |
| PlayoutAnswers.FrameCut | examples/livekit_otlp/call_io.py:162-166 | An interrupted one counts what was heard, and its segment and all later ones are reported cut, those unheard. |
| PlayoutAnswers.ClearReports | examples/livekit_otlp/call_io.py:134-139 | A clear item reports every segment up to its own cut, the one being played with what had played. |
| PlayoutAnswers.EndReports | examples/livekit_otlp/call_io.py:140-144 | The end of a segment that was not cut reports it complete and uninterrupted, with all that was captured played. |
| PlayoutAnswers.ProducerSays | examples/livekit_otlp/call_io.py:105-124 | What each producer call queues: a frame of a segment it may open, the end of an open one, or a clear item alone with the flag raised. |
| PacedAudio.PacedAudioOutput.CaptureFrame | examples/livekit_otlp/call_io.py:105-112 | A frame opens a segment after a flush and joins the queue. |
| PacedAudio.PacedAudioOutput.FlushSegment | examples/livekit_otlp/call_io.py:114-118 | An open segment gets its end item. |
| PacedAudio.PacedAudioOutput.ClearQueue | examples/livekit_otlp/call_io.py:120-124 | The queue becomes one clear item and the flag is raised. |
| PacedAudio.PacedAudioOutput.PlayoutItem | examples/livekit_otlp/call_io.py:130-155 | One item is consumed up to the next suspension. |
| PacedAudio.PacedAudioOutput.FrameInterrupted | examples/livekit_otlp/call_io.py:162-166 | What was heard counts, and every open segment is cut. |
| KeyRefresh.OneRefreshAtATime | packages/sdk-python/src/earshot/auth.py:199-227 | At most one request is between taking and releasing the refresh lock. |
| KeyRefresh.AdmissionRate | packages/sdk-python/src/earshot/auth.py:206-213 | Any window of T seconds admits at most floor(T / 30) + 1 refreshes. |
| KeyRefresh.ReturnedKeysAreFresh | packages/sdk-python/src/earshot/auth.py:183-225 | A returned key is the requested one, from a set whose exchange was answered less than 300 s before the clock value the request acted on, plus the time from the answer to the set's stamp. |
| KeyRefresh.RefreshAnswers | packages/sdk-python/src/earshot/auth.py:215-227 | Once its exchange is answered with a key set, a request settles within three more steps of its own with the key of that set iff it is there, and as an unknown key otherwise; a failed exchange settles it as unavailable, whatever the other threads do. |
| KeyRefresh.StepTells | packages/sdk-python/src/earshot/auth.py:183-227 | What each step tells a request: a usable cached key, unknown or unavailable inside the cooldown or behind another refresh, admission outside it, and what a refresh installs. |
| KeyRefresh.AgesOutExactly | packages/sdk-python/src/earshot/auth.py:183-225 | From every reachable state with a usable cached key, some request can be given a key of that set 300 s or more after its answer if and only if its stamp is later than its answer. |
| KeyRefresh.SuspensionDelaysStamp | packages/sdk-python/src/earshot/auth.py:215-221 | Every refresh under way can be suspended between answer and stamp for any time. |
| KeyRefresh.KeysAgeOut | packages/sdk-python/src/earshot/auth.py:183-227 | So from any start, and for any delay, there is a run in which a request gets a key 300 s or more after its set was answered. |
| KeyRefresh.RequestsNeverWait | packages/sdk-python/src/earshot/auth.py:196-227 | A request's own steps settle it, whatever the other threads do. |
| KeyRefresh.CachedKeyAtOnce | packages/sdk-python/src/earshot/auth.py:183-189 | A key that is fresh when its request begins is returned by the request's first step, whatever the other threads do in between short of installing another set. |
| KeyRefresh.StepKeeps | packages/sdk-python/src/earshot/auth.py:183-227 | Every step of every thread keeps lock exclusion, cooldown and freshness. |
| VerdictCache.HitsAreTrue | packages/sdk-python/src/earshot/credential_cache.py:45-58 | A hit is the last verdict remembered and not forgotten, before its end; the cache never exceeds its capacity. |
| VerdictCache.MissesAreExplained | packages/sdk-python/src/earshot/credential_cache.py:45-72 | An unexpired verdict is missed only if at least `capacity` other digests were touched since. |
| VerdictCache.RecentIsKept | packages/sdk-python/src/earshot/credential_cache.py:45-72 | A verdict that could be found right after it was remembered or found still is while fewer than `capacity` other digests are looked up or remembered, and nobody replaces or forgets it. |
| VerdictCache.AnswersAtOnce | packages/sdk-python/src/earshot/credential_cache.py:45-72 | What a lookup finds right after a verdict was remembered, forgotten or seen to have ended. |
| VerdictCache.CredentialVerdictCache.Verdict | packages/sdk-python/src/earshot/credential_cache.py:45-58 | A lookup returns, drops or refreshes the entry. |
| VerdictCache.CredentialVerdictCache.Remember | packages/sdk-python/src/earshot/credential_cache.py:60-68 | The entry becomes the newest and the oldest ones are pushed out. |
| VerdictCache.CredentialVerdictCache.Forget | packages/sdk-python/src/earshot/credential_cache.py:70-72 | The entry goes, the others stay in order. |
| TarPrescan.AcceptsExactly | scripts/check_sdist.py:370-466 | A stream is accepted iff it is directories, files and (path header, file) pairs within the budgets, closed by aligned zeros. |
| TarPrescan.PrescanTarHeaders | scripts/check_sdist.py:370-466 | The loop with its pending path and counters computes that acceptance. |
| TarPrescan.PaxPathExactly | scripts/check_sdist.py:307-344 | The record loop accepts exactly one path record that fills its payload. |
| TarPrescan.ValidateLocalPax | scripts/check_sdist.py:307-344 | The loop always advances, and a second record is always refused. |
| TarPrescan.ReadPax | scripts/check_sdist.py:420-438 | An extended header's payload is bounded, read, validated and skipped. |
| TarPrescan.SkipFile | scripts/check_sdist.py:439-464 | A file's name, budget and padding are checked. |
| TarPrescan.ConsumeTarEnd | scripts/check_sdist.py:347-367 | The chunked reader accepts exactly the aligned zero tail within its limit. |
| TarPrescan.DiscardZeroPadding | scripts/check_sdist.py:251-259 | The chunked reader accepts exactly zero padding of the full length. |
| TarPrescan.ChecksumFits | scripts/check_sdist.py:233-238 | A header's checksum always fits six octal digits, which read back as it. |
| TarHeaders.CanonicalExactly | scripts/check_sdist.py:208-239 | A header is taken iff every field is the one that a reproducible archive writes: mode, zero ids, octal size, time, type, zeros, magic, a UTF-8 name, and six octal digits that weigh its checksum. |
| TarHeaders.ChecksumIs | scripts/check_sdist.py:233-238 | The checksum adds up every byte, those of its own field as spaces. |
| TarHeaders.ChecksumChanges | scripts/check_sdist.py:233-238 | Changing a byte changes that sum by the difference, and by nothing inside the checksum's own field. |
| TarHeaders.NameIs | scripts/check_sdist.py:274-290 | The name is what precedes the first zero byte of its field. |
| TarHeaders.SizeIs | scripts/check_sdist.py:190-205 | The size is its eleven octal digits by weight. |
| TarHeaders.PaddedIs | scripts/check_sdist.py:419 | A payload occupies the fewest whole blocks that hold it. |
| TarHeaders.Spelled | scripts/check_sdist.py:71-78 | The budgets, the names and the bound on trailing zeros, spelled out. |

## Left out

- The network: `fetch`, headers, CSRF and origin checks, credentials, back-off timing and acknowledgement parsing. The server is an input that answers ok, retryable, permanent or throws.
- Host callbacks and the `acceptedObserverFailed` flag of `flush`; callbacks are assumed not to call back into the transport.
- JSON text and UTF-8 sizes: a serialized body is represented by the payload it encodes, and the encoded size of a payload is a parameter of the reduction.
- The moment of an acknowledgement: it is logged when the drain loop consumes a delivered result, after the observer ran.
- CaptureTransport.EarshotCaptureTransport.Flush: is the moment a flush finds no drain run under way. Its wait for a running one is not a step of its own (on a stuck field it lasts for ever, see `DeliveryGuarantees.StuckForever`), and its result lists are not modelled.
- Version 1 payloads in the ledger: they carry no sequence, so only the bounds, the exactly-once resolution and the conservation of counts speak of them.
- The `TypeError` that `recordCoverage` throws for a note without a signal: the transport catches it, and the model leaves the note unrecorded.
- Listeners, scheduling and device and WebRTC event building of the recorder, and its option parsing beyond the capacity 0 it can produce.
- The finish and retry promises of `CaptureSession` around the reduction.
- Floating point in the clock map: arithmetic is exact, so overflow to infinity does not arise; non-finite drift is excluded by the contract.
- `_ClockAligner.align` around the reconciliation: the lookup of relations by domain pair and the choice between refusals.
- Grouping of tool intervals by clock and basis, and the totals and labels around the merge: the model takes one group's intervals.
- Interruption chain building from an episode, metric dictionaries, provider measurements and diagnosis rules.
- Text order of identifiers in `Episodes`: identifiers are represented by their rank.
- Wall-clock starts of finished playback segments, host notifications and `aclose`, which only ends a run.
- Token parsing, claims and signatures, TLS and the key client.
- `BrowserSessionStore`, which has the shape of the verdict cache.
- Compression and `tarfile`: the prescan starts from the decompressed stream. Which byte strings are UTF-8 and which paths are allowed are parameters, and the interpreter's limit on the digits of one decimal number is not modelled.
- Error messages of the prescan: every rejection is one outcome.
- Benchmarks, capture drivers, viewers, storage and codecs.
