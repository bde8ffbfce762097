# Rigorium: verified models of the router and its surroundings

This project models the stateful core of Rigorium and proves what it keeps over whole
runs. The code is imperative where the source is (loops, classes with fields, maps that
methods reassign); every method is proved against a specification function or a
specification of its log, and the theorems are lemmas about those. What a specification
function computes is in turn told by theorems that do not mention it: from events, results,
records and the order of operations alone.

| File | What it models |
|---|---|
| `ModelStream.dfy` | events, errors, requests and mid-stream continuation requests |
| `RouterTrace.dfy` | what a routed execution may do, as a predicate on its log of stream calls |
| `RouterExecute.dfy` | the nested loops of `execute`, with counters and the buffer of deferred events |
| `RouterTheorems.dfy`, `RouterContinuation.dfy` | output, termination bound, plan order, accounting; what a continuation knows |
| `RouterDecisions.dfy` | when a turn asks again, goes on, changes the plan or ends, told from the streams alone |
| `SessionStore.dfy`, `RouterSticky.dfy` | the least-recently-used slot store, the sticky pin and its failure count |
| `HealthTracker.dfy` | the per-provider circuit breaker |
| `ConcurrencyGate.dfy` | the per-provider gate with its queue of waiters |
| `TelemetrySender.dfy`, `TelemetryTheorems.dfy`, `TelemetryOrder.dfy` | the bounded retry queue with one batch in flight, what becomes of every event, and the order of service |
| `MemoryMaintenance.dfy` | the coalescing maintenance worker |
| `SessionRouter.dfy`, `SessionRouterTheorems.dfy`, `SessionRouterMarks.dfy`, `SessionRouterUse.dfy` | the session cache: creates and recreates that wait, idle sweeps, turn slots, dirty marks, use and renewal |
| `DashboardRecords.dfy`, `BucketSums.dfy`, `Dashboard.dfy`, `DashboardFigures.dfy` | aggregation of router records, and every figure as a plain sum over the records |
| `TurnAssignment.dfy` | splitting a request log into user turns |
| `RateLimiter.dfy`, `ToolPairSlice.dfy`, `WatchRegistry.dfy`, `NetworkFetch.dfy` | the fixed-window limiter, the tool-pair-safe slice, the two-way watch registry, bounded retries |
| `Prelude.dfy` | `Option`, sequence ends, minimum and maximum |

Everything outside a component's control (what a provider streams, whether a wait is
aborted, clocks, random numbers, results of HTTP posts, the order of calls) is a
parameter or an arbitrary sequence of operations, so each theorem holds for all of them.
An asynchronous function is cut at its `await`s: the part up to the first one is one
method, each later part another, and any other operation may come in between. Automatic
induction is switched off on every lemma; inductions are written out. `hide` keeps
definitions a proof does not need out of the solver's way.

## Where the code is not what it looks like

Each of these is a theorem with the exact condition. A concrete run stands beside it,
unless the condition itself names the input.

- A turn whose stream breaks twice loses text: the third request continues from the
  second fragment alone (`RouterContinuation.RequestKnowsShownText`,
  `SecondContinuationLosesText`).
- A turn that fails before any content delivers its framing events twice
  (`RouterTheorems.FailureRepeatsFraming`, `FramingIsRepeated`).
- The comment on half-open circuits says that no request reaches the provider once the
  probe budget is used up. The budget counts results, so any number of requests may pass
  before the first result, and the branch for an exhausted budget is never taken
  (`HealthTracker.SkipsIffOpen`, `HalfOpenLetsEveryoneThrough`, `ProbeBudgetIsExceeded`).
- The comment on open cycles says that they are forgotten on full recovery. A success
  that arrives while the circuit is still open makes it healthy and keeps them
  (`HealthTracker.OpenCyclesSurviveIff`, `LateSuccessKeepsOpenCycle`).
- The gate promises first come, first served. After back-pressure has ended a newcomer
  may overtake the queue (`ConcurrencyGate.OvertakesIff`, `NewcomerOvertakes`), and a
  halved cap does not shrink what is in flight while anybody waits (`FewerInFlightIff`,
  `HalvedCapIsExceeded`).
- A shutdown that meets a running flush leaves the batch in flight out of the file
  (`TelemetryTheorems.ShutdownSavesAllIff`, `ShutdownForgetsBatch`). The flush on switching
  the sender off posts nothing (`OneBatchAtATime`).
- `toolPairSafeSlice` throws a `TypeError` when every message it could start from holds
  results only; its clamp to 0 is never reached with a negative cut
  (`ToolPairSlice.ToolPairSafeSlice`, `ResultsOnlyHaveNoStart`). When the slice takes a call
  along, the retained count that `prepareForModel` reports is not the length of what it
  returns (`ToolPairSlice.PrepareForModel`, `ResultTakesItsCallAlong`).
- The provider breakdown of the summary cuts a provider's name at its first slash
  (`DashboardRecords.ProviderLabelIsProviderIff`).
- A session named like another session's subagent slot shares its slot
  (`SessionStore.KeysCollide`).
- Two overlapping creates of one session both succeed, and one of the two sessions is
  neither live nor ever removed. Sessions installed = removed + live holds in exactly the
  runs without such an overlap (`SessionRouterTheorems.InstalledEqualsRemovedPlusLive`,
  `LateInstallation`, `TwoCreatesOverlap`).
- A mark that lands while a session is being created or recreated is lost: the object
  asked for before the mark is handed out after it. Apart from a mark with an empty reason
  that is the only way to get an outdated session
  (`SessionRouterMarks.OutdatedIsHandedOutIff`, `LateIff`, `MissedIff`, `MarkIsLost`).

## Model

| member | source | states |
|---|---|---|
| RouterExecute.Relay | src/router/RouterRuntime.ts:746-774 | framing events are held back until the first content event; afterwards everything has been relayed in order, otherwise nothing has |
| RouterExecute.Call | src/router/RouterRuntime.ts:745-1003 | one stream call: which of the eight ways on is taken, what the consumer, the health tracker, `lastError` and `lastBuffered` get |
| RouterExecute.RunPlan | src/router/RouterRuntime.ts:739-1039 | the inner loop terminates and only appends calls that the log predicate allows; both counters, the next request and the buffers are what the log says |
| RouterExecute.Execute | src/router/RouterRuntime.ts:694-1097 | for every provider behaviour: the log is valid and complete, the output is what the log shows plus the tail of the exit, the side effects are those of the log and the exit |
| RouterExecute.Finish | src/router/RouterRuntime.ts:1000-1096 | the exit, its tail of events and its accounting |
| RouterTrace.ValidAppend | src/router/RouterRuntime.ts:739-742 | a valid log extended by a call that follows stays valid |
| RouterTheorems.ExecutionIsDetermined | src/router/RouterRuntime.ts:694-1040 | two finished executions against the same providers make the same calls and end alike: the log predicate leaves the loops no freedom |
| RouterTheorems.InnerFates | src/router/RouterRuntime.ts:804-990 | every call but the last fell back or stayed on its plan |
| RouterTheorems.OnlyContinuationsShow | src/router/RouterRuntime.ts:763-774 | calls discarded by fallback, transient retry or zero-usage retry leave no trace with the consumer |
| RouterTheorems.SuccessOutput | src/router/RouterRuntime.ts:739-1039 | on success the output is exactly the full event lists of the continued calls, in order, then that of the accepted call |
| RouterTheorems.OneStreamIffNeverContinued | src/router/RouterRuntime.ts:900-937 | a successful turn looks like one stream if and only if no call was continued mid-stream |
| RouterTheorems.FailureOutput | src/router/RouterRuntime.ts:1042-1096 | the exact output of every failed turn, also when its last stream ended without an outcome |
| RouterTheorems.FailureRepeatsFraming | src/router/RouterRuntime.ts:938-943 | on a failed call framing events come twice unless the call showed content or had errors only |
| RouterTheorems.FramingIsRepeated | src/router/RouterRuntime.ts:1088-1094 | the concrete turn: one message start, delivered twice |
| RouterTheorems.CallBound | src/router/RouterRuntime.ts:658-661 | at most plans x (zeroUsageMax + transientRetryMax) stream calls; only plans within the token budget count, and without zero-usage retry one call takes the place of zeroUsageMax |
| RouterTheorems.CallsOnPlan | src/router/RouterRuntime.ts:739-742 | per plan: the two budgets bound retries and calls |
| RouterTheorems.CallsSoFar | src/router/RouterRuntime.ts:694-700 | the calls so far fit the plans left behind |
| RouterTheorems.PlanOrder | src/router/RouterRuntime.ts:694-899 | plan indices start at 0 and never decrease; plans jumped over were skippable and not the last; a pre-content transient retry happens on the last plan only |
| RouterTheorems.LastPlanIsNeverSkipped | src/router/RouterRuntime.ts:700-706 | after a fallback some later plan is entered, at the latest the last one |
| RouterTheorems.CallsOnlyTouchHealth | src/router/RouterRuntime.ts:784-792 | stream calls report to the health tracker and to nobody else |
| RouterTheorems.Accounting | src/router/RouterRuntime.ts:1008-1087 | at most one statistics observation; failures reset exactly when plan 0 is accepted; one failure recorded exactly when the loop was left by break with a provider fault |
| RouterDecisions.BrokenAfterContent | src/router/RouterRuntime.ts:900-943 | a stream broken after content is continued if and only if the error is retryable, text was delivered and the plan has retries left; otherwise the turn fails with that error |
| RouterDecisions.FailedBeforeContent | src/router/RouterRuntime.ts:804-899 | an error before content leads to the next plan if and only if another try may help and there is one; on the last plan to a retry if and only if transient retry is on and retries are left; otherwise the turn fails with that error |
| RouterDecisions.AnsweredWithoutError | src/router/RouterRuntime.ts:945-992 | an answer is asked for again if and only if it showed no content, its outcome asks for that, and zero-usage retry is on with calls left; otherwise the turn succeeds |
| RouterDecisions.EndedWithoutVerdict | src/router/RouterRuntime.ts:776-779 | a stream without an outcome ends the turn with the latest error met on any plan, or silently without one |
| RouterDecisions.ArrivalIs | src/router/RouterRuntime.ts:694-737 | where the plan loop arrives: past skippable plans that are neither first nor last, and stopped by an abort on the way or by the token budget at the plan |
| RouterDecisions.StartsAtFirstPlan | src/router/RouterRuntime.ts:694-737 | a turn starts at the first plan, with that plan's request, or is stopped there; it ends at once exactly when there is no plan |
| RouterDecisions.TextIsDelivered | src/router/execution/errors.ts:164-172 | the partial text is non-empty if and only if some text delta is |
| RouterDecisions.RetriesAreErrors | src/router/RouterRuntime.ts:739-742 | the retry counter of a plan is the number of errors its calls have met |
| RouterDecisions.FailureDelivers | src/router/RouterRuntime.ts:1042-1096 | the output of a failed turn told from its calls: what is repeated is the latest call that had an outcome, without its errors |
| RouterDecisions.StoppedOutput | src/router/RouterRuntime.ts:700-737 | what an aborted, over-budget, silent or plan-less turn delivers |
| RouterDecisions.HealthReports | src/router/RouterRuntime.ts:784-792 | which health reports a turn makes: one failure per error met, one success for the answer |
| RouterDecisions.ExitReports | src/router/RouterRuntime.ts:1008-1087 | which statistics, resets and failures an exit reports |
| ModelStream.ContinuationReplacesContinuation | src/model/streaming/continuationRequest.ts:8-44 | continuing a continuation keeps the original messages and the latest text only |
| ModelStream.ContinuationKeepsMessages | src/model/streaming/continuationRequest.ts:8-44 | a continuation goes to the same model with all original messages, the delivered text and the instruction |
| RouterContinuation.RequestShape | src/router/RouterRuntime.ts:931-935 | the next request is the plan's own one or its continuation from the latest continued text |
| RouterContinuation.TextSplits | src/router/execution/errors.ts:164-172 | delivered text is the text before the latest continuation, then its own |
| RouterContinuation.RequestKnowsShownText | src/router/RouterRuntime.ts:900-937 | exactly when a request carries all text delivered so far: with an ordinary request, if and only if at most one call was continued, on the same plan |
| RouterContinuation.SecondContinuationLosesText | src/router/RouterRuntime.ts:931-935 | the concrete run: "ab" delivered, third request continues from "b" |
| RouterContinuation.CallBoundIsReached | src/router/RouterRuntime.ts:658-661 | a whole turn attains the bound for every list of plans and every configuration |
| SessionStore.KeysCollide | src/router/session/SessionRouterStore.ts:122-124 | exactly when two slots share a key |
| SessionStore.SeenForItsLifetime | src/router/session/SessionRouterStore.ts:30-64 | what was written is read up to the end of its lifetime and not after |
| SessionStore.SessionRouterStore.constructor | src/router/session/SessionRouterStore.ts:24-28 | an empty store with capacity and lifetime at least one |
| SessionStore.SessionRouterStore.Get | src/router/session/SessionRouterStore.ts:30-43 | a live slot is returned and becomes the newest; an expired one is dropped |
| SessionStore.SessionRouterStore.Set | src/router/session/SessionRouterStore.ts:45-64 | the new slot map and order: an update moves to the end, an insertion into a full store drops the oldest slot |
| SessionStore.SessionRouterStore.Touch | src/router/session/SessionRouterStore.ts:76-85 | a hit refreshes both clocks, not the failure count |
| SessionStore.SessionRouterStore.RecordQualityFailure | src/router/session/SessionRouterStore.ts:91-101 | the count goes up by one, or 0 is returned when there is no slot |
| SessionStore.SessionRouterStore.ResetQualityFailures | src/router/session/SessionRouterStore.ts:103-111 | the count becomes zero and nothing else changes |
| RouterSticky.StickyRouter.RecordDecision | src/router/RouterRuntime.ts:548-569 | the slot and its history are moved on by the decision, the histories of dropped slots by an expiry; nothing else changes |
| RouterSticky.StickyRouter.constructor | src/router/RouterRuntime.ts:548-569 | an empty store, empty histories |
| RouterSticky.StickyRouter.KeepAlive | src/router/RouterRuntime.ts:358-380 | a sticky hit renews the slot only |
| RouterSticky.StickyRouter.StoredCountIsTold | src/router/RouterRuntime.ts:1030-1053 | after any sequence of calls a live slot's count is the number of provider-fault turns in its history since the latest fresh start |
| RouterSticky.StickyRouter.ExecuteTurn | src/router/RouterRuntime.ts:597-1097 | a whole turn moves the slot exactly as its outcome says |
| RouterSticky.StickyRouter.Report | src/router/RouterRuntime.ts:1029-1053 | which store call a turn makes |
| RouterSticky.StickyRouter.InvalidateSticky | src/router/RouterRuntime.ts:1112-1146 | the pin is dropped unless the session orchestrates on a named tier; the previous pin is returned |
| RouterSticky.SlotFollowsHistory | src/router/RouterRuntime.ts:548-569 | the stored pin is the one a definition over the history alone gives |
| RouterSticky.FailureCount | src/router/RouterRuntime.ts:1030-1053 | over every history the stored count is the number of provider-fault turns since the latest pinned success, change of model, dropped pin or expiry |
| RouterSticky.PinReleased | src/router/policy/stickyGuard.ts:34-50 | over every history a pin is honoured if and only if pins are enabled, the history pins to a named model, the latest write is within the lifetime and that number is below the limit |
| RouterSticky.SlotIsTold | src/router/RouterRuntime.ts:548-569 | over every history the slot's time, orchestration flag, continuation count and tier are those of the latest decisions |
| RouterSticky.TurnsThatDoNotCount | src/router/RouterRuntime.ts:1022-1053 | rescued, stopped and account-level failed turns leave the slot as it was |
| HealthTracker.ProviderHealthTracker.constructor | src/router/health/ProviderHealthTracker.ts:76-95 | no records, a probe budget of at least one |
| HealthTracker.ProviderHealthTracker.RecordSuccess | src/router/health/ProviderHealthTracker.ts:113-129 | the provider's record moves by the success transition, others stay |
| HealthTracker.ProviderHealthTracker.RecordFailure | src/router/health/ProviderHealthTracker.ts:131-162 | the provider's record moves by the failure transition, others stay |
| HealthTracker.ProviderHealthTracker.GetState | src/router/health/ProviderHealthTracker.ts:164-169 | reading moves an open circuit on when its wait is over, and creates no record |
| HealthTracker.ProviderHealthTracker.ShouldSkip | src/router/health/ProviderHealthTracker.ts:176-184 | the skip decision and what asking changes |
| HealthTracker.ReplayIsSound | src/router/health/ProviderHealthTracker.ts:113-162 | over every history an unfinished probe window is half open and only a half-open circuit has one |
| HealthTracker.CountersFollowResults | src/router/health/ProviderHealthTracker.ts:113-139 | the failure count is the run of failures at the end of the results, the window their latest part |
| HealthTracker.ResultLeaves | src/router/health/ProviderHealthTracker.ts:113-162 | for all options and histories, the state a result recorded outside half-open leaves: open if and only if it was open or the run of failures has reached the threshold; degraded if and only if it was, the failure signals stress or the run has reached the lower threshold; healthy after a success |
| HealthTracker.ResultsTellState | src/router/health/ProviderHealthTracker.ts:113-162 | as long as the circuit has not been half open its state is a function of the results alone |
| HealthTracker.SkipsIffOpen | src/router/health/ProviderHealthTracker.ts:171-184 | a provider is skipped if and only if its circuit is open and the wait is not over |
| HealthTracker.HalfOpenLetsEveryoneThrough | src/router/health/ProviderHealthTracker.ts:55-59 | half open, any number of requests is let through until a result is in |
| HealthTracker.ProbeBudgetIsExceeded | src/router/health/ProviderHealthTracker.ts:55-59 | the concrete history with the default configuration: any number of requests passes |
| HealthTracker.WaitsDouble | src/router/health/ProviderHealthTracker.ts:221-229 | the wait starts at the base, doubles per open cycle, never shrinks and is capped |
| HealthTracker.StaysOpen | src/router/health/ProviderHealthTracker.ts:153-157 | failures during the wait neither restart nor prolong it |
| HealthTracker.ProbeWindowDecides | src/router/health/ProviderHealthTracker.ts:239-258 | a probe window stays half open until it is full and then decides by ratio alone |
| HealthTracker.OpenCyclesSurviveIff | src/router/health/ProviderHealthTracker.ts:126-128 | exactly when a success leaves open cycles on record |
| HealthTracker.LateSuccessKeepsOpenCycle | src/router/health/ProviderHealthTracker.ts:126-128 | the concrete history with the default configuration: healthy with one open cycle on record |
| ConcurrencyGate.ProviderConcurrencyGate.constructor | src/router/execution/providerConcurrency.ts:91-97 | an empty gate with a cap of at least one |
| ConcurrencyGate.ProviderConcurrencyGate.EffectiveCap | src/router/execution/providerConcurrency.ts:108-114 | at least half of the configured cap, and at least one |
| ConcurrencyGate.ProviderConcurrencyGate.Acquire | src/router/execution/providerConcurrency.ts:151-210 | granted, queued or aborted, and the state after it |
| ConcurrencyGate.ProviderConcurrencyGate.Cancel | src/router/execution/providerConcurrency.ts:166-177 | a waiter that times out or is aborted leaves the queue, the others keep their order |
| ConcurrencyGate.ProviderConcurrencyGate.Release | src/router/execution/providerConcurrency.ts:221-233 | the slot passes to the oldest waiter, or is freed |
| ConcurrencyGate.ProviderConcurrencyGate.RecordProviderFeedback | src/router/execution/providerConcurrency.ts:122-134 | which answers suppress a provider and until when |
| ConcurrencyGate.AlwaysSound | src/router/execution/providerConcurrency.ts:12-21 | over every run the cap is kept, idle providers keep no slot, and whoever waits has a holder to be woken by |
| ConcurrencyGate.ActiveCountsHolders | src/router/execution/providerConcurrency.ts:151-233 | requests in flight = grants - releases |
| ConcurrencyGate.AnswerIs | src/router/execution/providerConcurrency.ts:151-163 | an aborted request leaves no trace; another one is granted if and only if there is room under the cap |
| ConcurrencyGate.WaitsIff | src/router/execution/providerConcurrency.ts:151-233 | who waits after a step: the newcomer that found no room, and everyone else but the one woken or cancelled |
| ConcurrencyGate.SuppressedUntilIs | src/router/execution/providerConcurrency.ts:108-134 | which answers suppress, for how long, and the halved cap from both sides |
| ConcurrencyGate.SuppressedIff | src/router/execution/providerConcurrency.ts:108-134 | over every run a provider is suppressed exactly as long as its latest back-pressure says |
| ConcurrencyGate.ServedInOrder | src/router/execution/providerConcurrency.ts:13-13 | over every run waiters are served in order of arrival |
| ConcurrencyGate.WaitIsBounded | src/router/execution/providerConcurrency.ts:221-233 | every release moves every remaining waiter up, whatever happens in between |
| ConcurrencyGate.ServedWithin | src/router/execution/providerConcurrency.ts:221-233 | with k others before it a waiter has left the queue after k + 1 releases |
| ConcurrencyGate.OvertakesIff | src/router/execution/providerConcurrency.ts:159-163 | a newcomer overtakes the queue if and only if the cap is not suppressed now and was not refilled since |
| ConcurrencyGate.NobodyOvertakesWithoutFeedback | src/router/execution/providerConcurrency.ts:159-163 | in runs without back-pressure the cap is full while anybody waits |
| ConcurrencyGate.NewcomerOvertakes | src/router/execution/providerConcurrency.ts:159-163 | the concrete run in which a newcomer overtakes |
| ConcurrencyGate.HalvedCapIsExceeded | src/router/execution/providerConcurrency.ts:82-88 | the concrete run: a release leaves two in flight under a cap of one |
| TelemetrySender.TelemetrySender.constructor | src/telemetry/sender.ts:143-165 | the restored queue, nothing in flight |
| TelemetrySender.TelemetrySender.SetEnabled | src/telemetry/sender.ts:43-60 | only the switch changes: the flush on switching off does nothing |
| TelemetrySender.TelemetrySender.Enqueue | src/telemetry/sender.ts:62-77 | dropped, queued, or queued and flushed |
| TelemetrySender.TelemetrySender.Flush | src/telemetry/sender.ts:79-86 | the first batch is taken unless disabled, flushing or empty |
| TelemetrySender.TelemetrySender.Settle | src/telemetry/sender.ts:87-109 | after a post: the next batch, or the end; after a failure the requeued events, counters and flag |
| TelemetrySender.TelemetrySender.BeginShutdown | src/telemetry/sender.ts:111-118 | a shutdown waits for a flush of its own only, otherwise it writes the queue at once |
| TelemetrySender.TelemetrySender.EndShutdown | src/telemetry/sender.ts:116-118 | what is written after the wait |
| TelemetryTheorems.Conservation | src/telemetry/sender.ts:62-109 | over every interleaving each event is in exactly one place: sent, dropped, queued or in flight |
| TelemetryTheorems.CountersAddUp | src/telemetry/sender.ts:62-109 | offered while enabled + restored = sent + dropped + queue + in flight; the bound on queue plus batch |
| TelemetryTheorems.RequeuedInReverse | src/telemetry/sender.ts:92-99 | the survivors of a failed batch come back in reverse order, each with one more attempt |
| TelemetryOrder.FirstComeFirstPosted | src/telemetry/sender.ts:79-90 | over every interleaving without a failed post: posted events followed by the queue are all accepted events in order of arrival |
| TelemetryOrder.FailedPostRequeues | src/telemetry/sender.ts:91-102 | after a failed post the queue is the reversed survivors followed by the untouched rest |
| TelemetryOrder.FlushesRun | src/telemetry/sender.ts:79-90 | when a flush starts and how many events it takes, and that it goes on after a delivered post until the queue is empty |
| TelemetryOrder.OfferFlushesIff | src/telemetry/sender.ts:62-77 | an event is refused, queued, or starts a flush, and exactly when |
| TelemetryOrder.CountersTell | src/telemetry/sender.ts:62-109 | over every interleaving: accepted and failed are counted, and posts made = sent + retried + given up + in flight |
| TelemetryTheorems.PersistedIffNothingInFlight | src/telemetry/sender.ts:167-179 | in every reachable state the queue holds every undelivered event if and only if no batch is in flight |
| TelemetryTheorems.ShutdownSavesAllIff | src/telemetry/sender.ts:111-118 | a shutdown with its own flush saves everything; another one if and only if no other call has a batch in flight |
| TelemetryTheorems.ShutdownForgetsBatch | src/telemetry/sender.ts:111-118 | the concrete run: an empty file, one event neither delivered nor given up |
| TelemetryTheorems.BoundedPosts | src/telemetry/sender.ts:91-99 | a fresh event is posted at most maxRetries + 1 times, a restored one less often by its attempts |
| MemoryMaintenance.ProjectRuntime.ScheduleMemoryMaintenance | src/cli/createLocalGateway.ts:876-884 | a call sets the request and starts the worker if none is in flight |
| MemoryMaintenance.ProjectRuntime.RunEnded | src/cli/createLocalGateway.ts:883-913 | after a run the loop goes round again or is left |
| MemoryMaintenance.ProjectRuntime.Settled | src/cli/createLocalGateway.ts:914-920 | the `finally` callback clears the marker and schedules again if asked |
| MemoryMaintenance.AlwaysConsistent | src/cli/createLocalGateway.ts:876-921 | the invariant over every interleaving |
| MemoryMaintenance.RunsServeCalls | src/cli/createLocalGateway.ts:876-921 | at most one run at a time, runs never outnumber calls, a cleared marker means every call was followed by a run |
| MemoryMaintenance.NextWorkerStepServes | src/cli/createLocalGateway.ts:914-920 | no wake-up is lost: an unserved call is served by the worker's very next step |
| SessionRouter.SessionRouter.SweepIdle | src/gateway/SessionRouter.ts:209-221 | the loop removes the idle sessions at once |
| SessionRouter.SessionRouter.BeginGetOrCreate | src/gateway/SessionRouter.ts:68-82 | the half before the wait: sweep, merge the context, and hand the session out or wait for the factory or the recreator |
| SessionRouter.SessionRouter.ResumeGetOrCreate | src/gateway/SessionRouter.ts:75-89 | the half after the wait: install, or put the new object into the record the call holds |
| SessionRouter.SessionRouter.FailGetOrCreate | src/gateway/SessionRouter.ts:75-82 | a factory or recreator that throws changes nothing in the cache |
| SessionRouter.ResumedAtOnce | src/gateway/SessionRouter.ts:68-89 | both halves in a row are the whole call |
| SessionRouter.SessionRouter.GetOrCreate | src/gateway/SessionRouter.ts:68-89 | a call during whose wait nothing happens: sweep, then reuse, recreate or install |
| SessionRouter.SessionRouter.BeginTurn | src/gateway/SessionRouter.ts:91-98 | taken if and only if the slot was free |
| SessionRouter.SessionRouter.EndTurn | src/gateway/SessionRouter.ts:100-109 | who may free a slot |
| SessionRouter.SessionRouter.Abort | src/gateway/SessionRouter.ts:111-117 | only the last use changes |
| SessionRouter.SessionRouter.Close | src/gateway/SessionRouter.ts:119-124 | one removal, one callback |
| SessionRouter.SessionRouter.MarkDirty | src/gateway/SessionRouter.ts:126-145 | exactly the sessions of the project are marked, and the result counts them |
| SessionRouter.SessionRouter.ShutDownRouter | src/gateway/SessionRouter.ts:181-192 | every session gets one callback, then nothing is left |
| SessionRouterTheorems.InstalledIsAccountedFor | src/gateway/SessionRouter.ts:68-232 | over every interleaving installed = idle, closed and shutdown evictions + live + overwritten by a late create |
| SessionRouterTheorems.InstalledEqualsRemovedPlusLive | src/gateway/SessionRouter.ts:68-232 | installed = removed + live if and only if no create is resumed on a live key, so in every run without split calls |
| SessionRouterTheorems.LateInstallation | src/gateway/SessionRouter.ts:82-88 | over every interleaving a resumed create overwrites a session if and only if another installation took place since it began and its key has been live ever since |
| SessionRouterTheorems.TwoCreatesOverlap | src/gateway/SessionRouter.ts:82-88 | the concrete run: two installed, one live, none removed |
| SessionRouterTheorems.SweepRemovesExactlyTheIdle | src/gateway/SessionRouter.ts:209-221 | removed if and only if idle for longer than the timeout and without a turn, with one callback each; every other session stays as it is |
| SessionRouterTheorems.EvictionsTellWhy | src/gateway/SessionRouter.ts:68-232 | for every call, session and reason: a callback with this reason is made exactly when the call gives the session up for it, and once |
| SessionRouterTheorems.ShutDownIsFinal | src/gateway/SessionRouter.ts:181-192 | over every interleaving after a shutdown nothing is swept and nothing shut down again |
| SessionRouterUse.LastUseIsLatest | src/gateway/SessionRouter.ts:68-117 | over every interleaving a live session's last use is the time of the latest operation that used it |
| SessionRouterUse.UsedSessionIsHandedOut | src/gateway/SessionRouter.ts:68-89 | used within the timeout, and neither closed, shut down nor given another object since, a session is handed out again as the very same object if and only if no mark made it dirty |
| SessionRouterUse.ContextIsMerged | src/gateway/SessionRouter.ts:254-263 | over every interleaving a live session has the first project and the last channel its callers have named |
| SessionRouterUse.MarkReaches | src/gateway/SessionRouter.ts:126-145 | after every interleaving a mark reaches exactly the sessions whose first named project is its project |
| SessionRouterUse.MarksAreCounted | src/gateway/SessionRouter.ts:126-145 | the returned count is the number of such sessions |
| SessionRouterTheorems.SlotIsHeldIff | src/gateway/SessionRouter.ts:91-109 | a slot survives a call if and only if the call does not release it |
| SessionRouterTheorems.OneTurnAtATime | src/gateway/SessionRouter.ts:91-109 | over every run from a successful begin to its release, every other begin fails |
| SessionRouterTheorems.ProjectKeyStays | src/gateway/SessionRouter.ts:254-263 | over every interleaving without a new installation a live session's project key never changes once set |
| SessionRouterMarks.AlwaysFaithful | src/gateway/SessionRouter.ts:68-145 | over every interleaving the mark on a record is the latest one made since its object came in |
| SessionRouterMarks.OutdatedIsHandedOutIff | src/gateway/SessionRouter.ts:68-89 | over every interleaving an object that is handed out is outdated if and only if a mark came while it was being built, or the latest mark on its record has an empty reason |
| SessionRouterMarks.LateIff | src/gateway/SessionRouter.ts:73-82 | such objects are those brought back by a call that had missed a mark |
| SessionRouterMarks.MissedIff | src/gateway/SessionRouter.ts:126-145 | a call has missed a mark if and only if one came upon its session between its two halves |
| SessionRouterMarks.DirtySessionsAreNeverHandedOut | src/gateway/SessionRouter.ts:68-89 | with reasons in all marks, an object that was ever marked in the cache is never handed out again, however calls overlap |
| SessionRouterMarks.MarkIsLost | src/gateway/SessionRouter.ts:73-77 | the concrete run: marked, recreated, marked meanwhile, and the unmarked object is handed out |
| DashboardRecords.ProviderLabelIsProviderIff | ui/server/rigorium-bridge.js:2155-2159 | the provider label is the provider if and only if its name has no slash |
| BucketSums.SumsAreConsistent | ui/server/rigorium-bridge.js:2056-2067 | every sum has savedCost = baselineCost - estimatedCost, and requestCount counts the records that are not `::sub::` ones |
| BucketSums.SplitAddsUp | ui/server/rigorium-bridge.js:2069-2103 | the buckets of any split add up to the sum of all selected records |
| BucketSums.SplitsOneMore | ui/server/rigorium-bridge.js:2086-2102 | one more record keeps a split a split |
| BucketSums.AddsOfSessions | ui/server/rigorium-bridge.js:1998-2008 | adding two disjoint sets of sessions one after the other adds both |
| BucketSums.SplitsOfLists | ui/server/rigorium-bridge.js:2010-2018 | adding a project to a split of the projects before is a split of all |
| BucketSums.ProvidersOfModels | ui/server/rigorium-bridge.js:2155-2159 | the model buckets of one provider add up to that provider's records |
| Dashboard.Routing.MergeRecord | ui/server/rigorium-bridge.js:2069-2103 | total and four breakdowns after one record |
| Dashboard.LoadSessions | ui/server/rigorium-bridge.js:1937-1981 | one routing object per session that occurs, holding its statistics, in order of appearance |
| Dashboard.SessionsAreDescribed | ui/server/rigorium-bridge.js:1939-1981 | every session's total and four breakdowns are exact sums of its records; sessions are listed exactly when they occur |
| Dashboard.SessionConserves | ui/server/rigorium-bridge.js:2069-2103 | total = sum over byTier = over byScenario = over byRole = over byModel |
| Dashboard.MergeInto | ui/server/rigorium-bridge.js:2000-2003 | label by label addition, in whatever order the labels come |
| Dashboard.RegroupInto | ui/server/rigorium-bridge.js:2155-2159 | model buckets are added under their providers, in whatever order they come |
| Dashboard.AggregateProject | ui/server/rigorium-bridge.js:1988-2008 | project total = sum of its sessions' totals = sum of its records; its breakdowns split them |
| Dashboard.GetDashboardData | ui/server/rigorium-bridge.js:1928-2041 | every project is described; overall total, breakdowns and session count are those of all records |
| Dashboard.GetStatsSummary | ui/server/rigorium-bridge.js:2144-2171 | the lifetime scenario, provider and tier breakdowns split all records of all projects |
| Dashboard.BreakdownConserves | ui/server/rigorium-bridge.js:2144-2171 | each of them adds up to the same total, with consistent buckets |
| DashboardFigures.SumShows | ui/server/rigorium-bridge.js:2069-2103 | each figure of a sum is the plain sum of that field, with its default, over the records that belong to it |
| DashboardFigures.TotalShows | ui/server/rigorium-bridge.js:2010-2018 | the overall total, figure by figure, from the records of all sessions that are not subagents' |
| DashboardFigures.BreakdownShows | ui/server/rigorium-bridge.js:2069-2103 | each bucket of a breakdown, figure by figure, from the records with its tier, scenario, role, model or provider |
| DashboardFigures.SessionShows | ui/server/rigorium-bridge.js:2069-2103 | the same for a session's total and its breakdowns |
| DashboardFigures.LabelsAreTold | ui/server/rigorium-bridge.js:2086-2102 | the label of a record in each breakdown, from its own fields |
| DashboardFigures.SubagentSessions | ui/server/rigorium-bridge.js:1939-1941 | which sessions do not count |
| DashboardFigures.SessionsAreCounted | ui/server/rigorium-bridge.js:2021-2021 | the session count is the number of distinct sessions per project |
| Dashboard.OrderOfAppearance | ui/server/rigorium-bridge.js:1939-1981 | sessions are listed in order of appearance |
| TurnAssignment.AssignByModelCallCount | ui/server/rigorium-bridge.js:1893-1921 | every line gets what its place in the turns says, nothing else changes |
| TurnAssignment.AssignQueriesToRequestLog | ui/server/rigorium-bridge.js:1814-1830 | only main lines are assigned; their places count main lines only |
| TurnAssignment.PlaceIsPrefixSum | ui/server/rigorium-bridge.js:1893-1921 | a line's place is a prefix sum of the model-call counts plus a position |
| TurnAssignment.HeadsArePrefixSums | ui/server/rigorium-bridge.js:1901-1903 | prefix sums are heads, also when a turn without model calls swallows the rest |
| TurnAssignment.HeadIffPrefixSum | ui/server/rigorium-bridge.js:1893-1921 | a line heads a turn if and only if it is a prefix sum of the model-call counts |
| TurnAssignment.LinesOfTurn | ui/server/rigorium-bridge.js:1893-1921 | the query, role, tier and tools that line k of turn t gets, from the transcript alone |
| RateLimiter.RetryAfter | ui/server/index.js:1075 | the wait in whole seconds is the least that reaches the reset, and at least one |
| RateLimiter.RouteRateLimiter.Handle | ui/server/index.js:1059-1081 | the verdict and the buckets after a request |
| RateLimiter.BucketsDescribe | ui/server/index.js:1065-1071 | a bucket counts the requests of its window |
| RateLimiter.AtMostTheLimitPerWindow | ui/server/index.js:1070-1073 | at most max(1, maxRequests) admitted per window |
| RateLimiter.AtMostTwiceTheLimit | ui/server/index.js:1051-1082 | at most twice that in any interval of windowMs, both ends included |
| RateLimiter.TwiceIsReached | ui/server/index.js:1051-1082 | the factor two is attained for every limit |
| RateLimiter.WaitingIsEnough | ui/server/index.js:1065-1076 | waiting the advertised time lands at or past the reset and is then admitted |
| RateLimiter.WaitIsShortest | ui/server/index.js:1065-1076 | the advertised seconds are the least ones, at least one, after which the open window is over |
| RateLimiter.AdmittedIff | ui/server/index.js:1065-1076 | a request is admitted if and only if it opens a window or fewer than the limit were made in the open one; who keeps to the limit in every stretch of a window is always admitted |
| RateLimiter.BucketCounts | ui/server/index.js:1065-1071 | a bucket counts all requests of the window that is open, admitted or not |
| RateLimiter.NoWindowNoLimit | ui/server/index.js:1065-1068 | without a positive window everything is admitted |
| ToolPairSlice.ToolPairSafeSlice | src/context/NullContextRuntime.ts:45-53 | all inputs: unchanged, empty, thrown exactly when there is no start, or the latest safe suffix |
| ToolPairSlice.ResultsOnlyHaveNoStart | src/context/NullContextRuntime.ts:48-50 | the concrete conversation on which it throws |
| ToolPairSlice.ShortestSafeSuffix | src/context/NullContextRuntime.ts:41-53 | the slice is the shortest suffix of at least max messages with a safe start |
| ToolPairSlice.WhereTheSliceStarts | src/context/NullContextRuntime.ts:45-66 | the first message kept, and those between it and the plain cut, told by roles and kinds of blocks |
| ToolPairSlice.AnswersIff | src/context/NullContextRuntime.ts:55-66 | which blocks answer a call: a result, a reference to one, or media of a named call |
| ToolPairSlice.SliceKeepsCalls | src/context/NullContextRuntime.ts:41-44 | in a well-paired conversation no kept result loses its call |
| ToolPairSlice.PlainCutLosesACallIff | src/context/NullContextRuntime.ts:41-44 | the plain cut loses a call if and only if it starts on a result-only message |
| ToolPairSlice.PrepareForModel | src/context/NullContextRuntime.ts:7-38 | when truncation happens and when the reported count is the real one |
| ToolPairSlice.ResultTakesItsCallAlong | src/context/NullContextRuntime.ts:10-14 | the concrete conversation: one message reported, two retained |
| WatchRegistry.SessionWatchRegistry.Watch | ui/server/session-watch-registry.js:7-22 | adds one pair to a plain set of pairs |
| WatchRegistry.SessionWatchRegistry.Unwatch | ui/server/session-watch-registry.js:24-41 | deletes one pair |
| WatchRegistry.SessionWatchRegistry.RemoveClient | ui/server/session-watch-registry.js:43-55 | deletes precisely the client's pairs |
| WatchRegistry.SessionWatchRegistry.GetWatchers | ui/server/session-watch-registry.js:57 | the clients paired with the session |
| WatchRegistry.PairsDetermineTheMaps | ui/server/session-watch-registry.js:1-57 | the two maps hold nothing beyond the pairs |
| NetworkFetch.ResolveRetryDelay | src/network/fetch.ts:210-218 | every wait is within the cap |
| NetworkFetch.Fetch | src/network/fetch.ts:51-101 | the requests made, the waits and the result; the loop is left by return or throw only |
| NetworkFetch.BoundedRequests | src/network/fetch.ts:51-101 | at most maxRetries + 1 requests, one for an unsafe method, none after an abort or TLS failure |
| NetworkFetch.RepeatedIff | src/network/fetch.ts:51-101 | when another request follows, from the method, the budget, the status or the error |
| NetworkFetch.HeaderIsHonoured | src/network/fetch.ts:210-231 | a readable Retry-After decides the wait up to the cap |
| NetworkFetch.BackoffIs | src/network/fetch.ts:210-231 | without one the wait is the doubled base and less than a quarter more, up to the cap |
| NetworkFetch.TotalWaitIsBounded | src/network/fetch.ts:210-218 | total waiting is at most maxRetries x cap, and nothing for a negative cap |
| NetworkFetch.BackoffNeverDecreases | src/network/fetch.ts:210-218 | the backoff never gets shorter, even with jitter, if and only if the base is not negative or the cap hides it |

## Left out

- The router when it is switched off (a plain pass-through), and how `decide` picks a model: classifier, ranker, media rerouting, cache-aware switching. Only its sticky write is modelled.
- How attempt plans are built from the fallback chain; `execute` is modelled for every list of plans, with the requests they send.
- `streamAttempt` is an arbitrary script of events with an outcome. Its outcome reports exactly the events it yielded, as the source does; the concurrency gate is modelled on its own and may hold no slot twice.
- A consumer that stops reading early, and an abort while a stream call is suspended other than as a thrown call.
- Telemetry calls, bus events, console output, timers, HTTP, WebSocket, file system and JSON: steps or parameters only.
- Error messages and hints; error codes the router never compares against are one constructor.
- The continuation instruction is a distinguished text block; a user who types it verbatim is treated as a continuation, as in the source.
- Cost figures are exact reals and token counts unbounded integers: rounding, overflow and NaN are not modelled.
- Keys such as `__proto__` on plain objects used as maps.
- Buckets are values in maps. In the source they are objects updated in place, but no bucket is reachable from two maps that are both updated, so nothing is lost but the identity of the objects.
- Session objects are numbers, waiters tickets, WebSocket clients numbers: only their identity matters.
- SessionRouter.SessionRouter.GetOrCreate: the two halves in a row; `BeginGetOrCreate`, `ResumeGetOrCreate` and `FailGetOrCreate` are the call as the source makes it. The session lists, counts and snapshots of the class are left out, except for the sweep that some of them start with.
- RouterSticky.StickyRouter.RecordDecision: the read of the slot and the write are one step, while `decide` awaits classifiers in between (src/router/RouterRuntime.ts:301-550); a failure, a reset or another decision that is stored in that time is overwritten in the source and comes after or before the decision here. Likewise the pin that a turn reports on is the first attempt plan, which media support may move behind others.
- TurnAssignment.AssignQueriesToRequestLog: only the branch for logs without turn ids.
- The memory service may not schedule maintenance again synchronously from within a run, and the runtime is not invalidated while its worker lives.
- Parsing of the restored telemetry queue; the restored envelopes are arbitrary. Delivery twice of events restored after a crash. Calls that come between the end of a shutdown's own flush and its write.
- The extraction of turns from transcripts, titles, timestamps and the display form of tool names.
- `DefaultContextRuntime` and its compaction engines.
- Success rates and snapshots of the health tracker, and resetting it.
- A switched-off concurrency gate, and a fractional cap.
- The dates and number syntax of `Retry-After` (section 10.2.3 of RFC 9110): a header is a delay, a date or unreadable.
- Settings, permissions, path slugs, slash commands, adapters, command-line wiring and the user interface: string handling and plumbing that would only add easy members.
