# RouteForge, modelled in Dafny

RouteForge is a gateway in front of several LLM providers. It ranks providers,
guards each with a circuit breaker, falls back from one to the next, relays streams,
caches complete answers, accounts for tokens and money, and keeps a history of
requests. This project models that logic and proves what the parts promise together.

| file | models |
|---|---|
| `circuit.dfy` | the circuit breaker with generations, as a class and as a state machine over all interleavings |
| `dominance.dfy`, `routing.dfy`, `exploration.dfy` | price dominance order, latency and cost-latency policies, exploration shared across runtime versions |
| `outcome.dfy`, `request.dfy` | error classification; requests, attempts and what each owes its ledgers |
| `transcript.dfy`, `engine.dfy` | calls to the outside and the transcript of a walk; the fallback loops of Complete and Stream |
| `projection.dfy`, `walk.dfy` | a transcript read ledger by ledger; what every run makes of the provider order |
| `ledgers.dfy` | what a request leaves in health, telemetry, accounting and history, alone and interleaved with all others |
| `samples.dfy`, `telemetry.dfy`, `latency.dfy` | sample rings, medians, attempt counters, and the latency they lead to |
| `pricing.dfy`, `accounting.dfy` | exact money arithmetic, the saturating tracker |
| `recorder.dfy`, `history.dfy` | the asynchronous history queue, the record and the store's check of it |
| `cache.dfy` | completeness and size guards, and where a cached answer comes from |
| `paging.dfy`, `sse.dfy` | keyset pagination; frames written by the handler and read back |

How a request meets the world. Complete and Stream act on a `Surroundings` object:
every question they ask (is this provider eligible, may the attempt begin, is the
context done, what does the provider return, does the emit fail) and everything they
tell the circuits, telemetry, accounting and history is one method call, and each call
leaves one step with its answer in a transcript. The answers are arbitrary, by the number
of calls made before, except that a context that is done stays done; so the results hold
whatever other requests do to shared state in between. The contract of both is exact:
the transcript is the `Script` of a walk along the provider order. What the ledgers, the
providers and the client were told is then read off the transcript, and what requests do
together to a circuit, to a provider's telemetry or to the cache is any interleaving of
their transcripts.

Where the code does something other than one would expect:

- The median of an even number of samples subtracts in int64. It is the floor midpoint
  exactly when the middle samples are less than 2^63 nanoseconds apart
  (`Samples.MedianMeaning`, with an input that fails in `Samples.MedianCanWrap`).
- `ConfigureRouting` accepts an empty policy name and publishes it as given, unlike the
  other startup path, which normalises it. Records made under it fail the store's check
  (`History.EmptyPolicyIsRefused`).
- Ineligible providers come last only under a ranking policy with fallback. Otherwise
  the configured order is kept, and the circuit alone turns them away
  (`Routing.IneligibleLastExactly`, with an input in
  `Routing.DeterministicKeepsIneligibleFirst`).
- A provider that cannot stream ends a streaming request even when a later one could
  serve it: exactly when the walk reaches it (`Walks.UnavailableExactlyWhenReached`), and
  which positions can do so is known before the call
  (`Walks.UnavailableExactlyWithinReach`, with an input in `Walks.MuteProviderEndsStream`).

## Model

| member | source | states |
|---|---|---|
| `CircuitBreaker.ProviderHealth.Begin` | internal/gateway/circuit.go:75-110 | the mutex section of `begin`: the new fields and the issued attempt are those of one atomic `Admit` step |
| `CircuitBreaker.ProviderHealth.Eligible` | internal/gateway/circuit.go:114-131 | `eligible` answers what `begin` would decide and changes nothing |
| `CircuitBreaker.ProviderHealth.Success` | internal/gateway/circuit.go:133-154 | the mutex section of `success` is one `Settle` step; a stale generation changes nothing |
| `CircuitBreaker.ProviderHealth.Failure` | internal/gateway/circuit.go:156-179 | the mutex section of `failure` is one `Settle` step: count, and open on a probe or at the threshold |
| `CircuitBreaker.ProviderHealth.Ignore` | internal/gateway/circuit.go:197-209 | the mutex section of `ignore` is one `Settle` step: a probe frees its reservation under a new generation |
| `CircuitBreaker.HealthTracker.Begin` | internal/gateway/circuit.go:75-110 | an unknown provider is never admitted; a known one takes the step of its own circuit only |
| `CircuitBreaker.HealthTracker.Eligible` | internal/gateway/circuit.go:114-131 | an unknown provider is never eligible |
| `CircuitBreaker.EligibilityAgrees` | internal/gateway/operations.go:86 | at equal time `eligible`, the admission decision of `begin` and the snapshot formula agree in every state, and a refused `begin` changes nothing |
| `CircuitBreaker.RunKeepsInvariant` | internal/gateway/circuit.go:75-209 | over every interleaving of begins and (late, repeated, missing) reports: generations never run ahead, at most the probe carries the current generation outside closed, open means `openUntil` is the last failure plus the open duration |
| `CircuitBreaker.OnlyFourEdges` | internal/gateway/circuit.go:75-209 | only closed to open, open to half-open, half-open to closed and half-open to open ever occur |
| `CircuitBreaker.OneProbe` | internal/gateway/circuit.go:75-209 | half-open holds exactly one live attempt while a probe is in flight and none otherwise; open holds none |
| `CircuitBreaker.StaleForever` | internal/gateway/circuit.go:133-209 | once an attempt is stale, none of its reports ever changes the circuit again, however long the run goes on |
| `CircuitBreaker.ProbeSettlesOnce` | internal/gateway/circuit.go:133-209 | after the first report of a probe no later report of it has any effect |
| `CircuitBreaker.QuiescentHasNoProbe` | internal/gateway/circuit.go:75-209 | when every issued attempt has reported, no reservation is left and a half-open circuit admits |
| `CircuitBreaker.CounterIsFailuresSinceSuccess` | internal/gateway/circuit.go:133-179 | the failure counter equals the counted failures since the latest counted success, read off the whole run |
| `CircuitBreaker.ClosedCounterIsCurrent` | internal/gateway/circuit.go:133-179 | while closed, every counted failure in it belongs to the current generation |
| `CircuitBreaker.OpensAtThreshold` | internal/gateway/circuit.go:156-179 | for a threshold of at least one the closed counter stays below it, and the circuit opens exactly on reaching it |
| `CircuitBreaker.OpenAdmitsExactlyAfterCooldown` | internal/gateway/circuit.go:84-95 | from open an attempt is admitted exactly from the latest failure plus the open duration on, and then as the probe |
| `CircuitBreaker.HalfOpenEndsWithProbe` | internal/gateway/circuit.go:133-179 | from half-open the circuit closes exactly on the counted success of its probe, opens exactly on its counted failure, and otherwise stays |
| `CircuitBreaker.AdmittedExactly` | internal/gateway/circuit.go:75-110 | over any run an attempt is admitted exactly when closed, when open and cooled down since the latest counted failure, or when half-open with no live attempt out |
| `CircuitBreaker.GenerationEndsWithState` | internal/gateway/circuit.go:84-209 | the generation moves on exactly when the state changes or a half-open probe is ignored, so reports of attempts begun while closed count as long as it stays closed |
| `CircuitBreaker.TimesShown` | internal/gateway/circuit.go:133-179 | the times kept are the latest counted success and failure, and the end of the cooldown exactly while not closed |
| `PriceDominance.BuildEdges` | internal/gateway/routing.go:70-80 | the in-degree array holds, for every position, the number of its dominators; the edge lists are exactly strict dominance, in order |
| `PriceDominance.FirstFree` | internal/gateway/routing.go:84-94 | the scan always finds the first unselected position all of whose dominators are placed: the bail-out without a next position cannot happen |
| `PriceDominance.Retire` | internal/gateway/routing.go:95-99 | after a selection each in-degree again equals the number of unselected dominators |
| `PriceDominance.OrderByPriceDominance` | internal/gateway/routing.go:61-102 | a permutation of the candidates that is the lexicographically least linear extension of strict price dominance; nobody follows a provider it is cheaper than, and candidates that already stand so keep their configured order, conflicting, equal and unknown prices included |
| `PriceDominance.SomethingIsFree` | internal/gateway/routing.go:104-113 | strict dominance is acyclic: among unplaced positions one has no unplaced dominator |
| `PriceDominance.DominanceIsMoney` | internal/gateway/routing.go:104-113 | one provider dominates another exactly when both prices are known and it costs no more for any number of input and output tokens and less for some |
| `PriceDominance.CheaperIsEstimatedCheaper` | internal/gateway/routing.go:104-113 | a dominating provider is estimated whenever the dominated one is, and never dearer, for any usage |
| `PriceDominance.GreedyIsLinear` | internal/gateway/routing.go:82-101 | taking the first free position until none is left respects dominance |
| `PriceDominance.GreedyIsLeast` | internal/gateway/routing.go:82-101 | and is lexicographically at most every other linear extension |
| `Routing.CandidateMedians` | internal/gateway/routing.go:204-226 | the medians of all candidates, and the first coldest candidate exactly when some lacks samples |
| `Routing.MoveProviderToFront` | internal/gateway/routing.go:292-296 | in place: the selected provider moves first and those before it shift by one |
| `Routing.LatencyOrder` | internal/gateway/routing.go:176-202 | a permutation: cold, the coldest goes first exactly when exploration is due; warm, the first fastest goes first exactly when it is ten percent faster than the configured first |
| `Routing.SwitchMargin` | internal/gateway/routing.go:190-199 | the margin of the warm latency rule: a gain of at least a tenth of the first median, rounded down |
| `Routing.WideProduct` | internal/gateway/routing.go:275-277 | the 128-bit product in two 64-bit words |
| `Routing.WithinLatencyTolerance` | internal/gateway/routing.go:267-278 | the hi/lo word comparison decides exactly: candidate at most fastest, or fastest positive and 100 times the excess at most percent times fastest, over unbounded integers |
| `Routing.Partition` | internal/gateway/routing.go:249-257 | the acceptable and the outside block, each in configured order, decided by that tolerance |
| `Routing.CostLatencyOrder` | internal/gateway/routing.go:228-263 | warm: the acceptable block in least dominance order, then the outside block as configured; cold: the exploration rule; always a permutation |
| `Routing.FirstChoiceIsUndominated` | internal/gateway/routing.go:228-263 | the acceptable block is never empty and no acceptable provider dominates the first choice |
| `Routing.PolicyOrder` | internal/gateway/routing.go:40-52 | every policy returns a permutation ranked as that policy promises, and advances the shared counters by an exploration decision and nothing else |
| `Routing.OrderedProviders` | internal/gateway/service.go:415-453 | a permutation of the configured providers: under a ranking policy the eligible ones as it ranks them, then the ineligible ones; the exploration counters change by that ranking only |
| `Routing.SplitEligible` | internal/gateway/service.go:430-446 | the eligible and the ineligible providers, each in configured order |
| `Routing.IneligibleLastExactly` | internal/gateway/service.go:425-450 | ineligible providers come last exactly under a ranking policy with fallback, or when the configured order has them last |
| `Routing.DeterministicKeepsIneligibleFirst` | internal/gateway/service.go:425-429 | two providers, the first ineligible, walked in that order |
| `Routing.CountsAreOfEvents` | internal/gateway/routing.go:280-290 | over any requests the shared counters are those of their exploration decisions |
| `Routing.RequestsExplore` | internal/gateway/routing.go:176-202 | among K decisions of a mode, whatever versions were pinned, with intervals at most K, some request tries its coldest provider first |
| `Routing.RequestsExploreApart` | internal/gateway/routing.go:280-290 | of two requests of a mode, the first exploring and none between, the second explores exactly when its interval, in decisions, has passed |
| `Routing.RequestsKeepCadence` | internal/gateway/routing.go:280-290 | with one interval k in force, the requests of a mode explore floor(n/k) times in n decisions |
| `Exploration.ExplorationState.ExplorationDue` | internal/gateway/routing.go:280-290 | one decision: explores exactly when the counter of its mode reaches the interval, and touches no other counter |
| `Exploration.WindowExplores` | internal/gateway/routing.go:280-290 | K consecutive decisions whose intervals are all at most K contain an exploration, wherever the counter stood |
| `Exploration.SuccessiveExplorations` | internal/gateway/routing.go:280-290 | two successive explorations are at least the interval used at the second one apart, and no decision between them was due |
| `Exploration.ConstantCadence` | internal/gateway/routing.go:280-290 | with a constant interval k from zero, n decisions explore floor(n/k) times |
| `Exploration.ModesAreIndependent` | internal/gateway/runtime_routing.go:54-62 | across any interleaving of modes and published versions, a mode counts its own decisions only |
| `Exploration.NewRoutingPolicy` | internal/gateway/routing.go:132-174 | a policy is built exactly for the supported names with valid parameters |
| `Exploration.RuntimeRouting.constructor` | internal/gateway/runtime_routing.go:29-44 | the first version carries the normalised configuration, defaults filled in, and explores on a fresh shared state |
| `Exploration.RuntimeRouting.Publish` | internal/gateway/runtime_routing.go:54-62 | a published policy explores on the shared state, whose counters stay as they are |
| `Exploration.RuntimeRouting.UpdateRoutingSettings` | internal/gateway/runtime_routing.go:79-101 | accepted exactly when in range and buildable on the startup thresholds; a refused update publishes nothing |
| `Exploration.RuntimeRouting.ConfigureRouting` | internal/gateway/runtime_routing.go:65-72 | accepted exactly when buildable, and published as given |
| `Exploration.DefaultsAllowEveryPolicy` | internal/gateway/runtime_routing.go:29-44 | a service built on defaults accepts a later switch to any policy in range, cost-latency with a percentage |
| `Exploration.BoundRequestKeepsItsVersion` | internal/gateway/runtime_routing.go:105-112 | a request that binds sees the version published last before, and keeps it however many are published while it runs |
| `Exploration.RuntimeRouting.BindRouting` | internal/gateway/runtime_routing.go:105-112 | the version a request gets is the one the events so far pin it to, already bound or not |
| `Outcomes.FallbackMeansDegraded` | internal/gateway/outcome.go:23-55 | an error is worth another provider exactly when it degrades the health of the one that raised it, as long as the request is alive |
| `Outcomes.OutcomeTellsError` | internal/gateway/outcome.go:23-51 | an outcome carries the name of the provider error kind; another failure without such a kind; success exactly without error, cancellation exactly for a done context or an unclassified canceled error |
| `Outcomes.OutcomeName` | internal/gateway/outcome.go:57-76 | every outcome has a non-empty ASCII name of at most 32 characters |
| `Requests.Resolve` | internal/model/resolver.go:47-57 | resolves exactly to the mapped name, never an empty one; an unknown alias and a missing mapping are told apart |
| `Requests.ValidateRoles` | internal/gateway/service.go:593-602 | refuses exactly the requests with an unsupported role, naming the first |
| `Requests.Refuse` | internal/gateway/service.go:164-180 | the loop is reached exactly by acceptable requests, and each refusal names a fault the request has |
| `Requests.UsageIsLastReported` | internal/gateway/service.go:549-569 | the merged usage of a stream is, field by field, the last value any chunk reported, invisible chunks included |
| `Requests.EmissionsAreClean` | internal/gateway/service.go:362-369 | the client is shown every chunk that says something, in order and otherwise unchanged, and no other; never usage, or a provider model in place of the logical one |
| `Engine.ConsultCache` | internal/gateway/service.go:201-211 | the exact calls of a consultation: circuit and context asked before the lookup, and again before a value found is used |
| `Engine.AnswerFromCache` | internal/gateway/service.go:204-210 | a hit is told to the history and to nobody else, and answered |
| `Engine.AskAdmission` | internal/gateway/service.go:212-220 | the circuit is asked once; turned away, the request goes on if it may fall back and fails if not |
| `Engine.Classification` | internal/gateway/outcome.go:23-51 | the context is asked about a failure only, never about a failure of the client side |
| `Engine.SettleAttempt` | internal/gateway/service.go:228-232 | the exact calls that end an attempt: account, classify, report, stop telemetry, finish history, once each |
| `Engine.AttemptCompletion` | internal/gateway/service.go:222-234 | the exact calls of a non-streaming attempt, the provider invoked once |
| `Engine.ConcludeCompletion` | internal/gateway/service.go:235-242 | the answer under the logical model, stored exactly when a key was made and the context, asked again, is live |
| `Engine.DecideFallback` | internal/gateway/service.go:244-247 | the context is asked once more if there is a fallback; the request goes on exactly if it is live and the error worth it |
| `Engine.TryCompletion` | internal/gateway/service.go:222-249 | the exact calls of an admitted round, and what it decides |
| `Engine.CompletionRound` | internal/gateway/service.go:188-249 | the exact calls of a round of Complete and what it decides, for skipped, served, barred, invoked and unresolvable positions |
| `Engine.Complete` | internal/gateway/service.go:160-255 | whatever is answered: the calls made are exactly those of a finished walk along the order, and the result is what that walk comes to; a refused request makes none |
| `Engine.RelayChunk` | internal/gateway/service.go:362-390 | one chunk: first content marked once, a visible chunk emitted once, an invisible one swallowed |
| `Engine.Relay` | internal/gateway/service.go:332-391 | the exact calls of the inner stream loop, the merged usage, and whether anything was shown; the stream is closed once |
| `Engine.AttemptStream` | internal/gateway/service.go:309-391 | the exact calls of a streaming attempt, one stream opened |
| `Engine.AfterStream` | internal/gateway/service.go:351-361 | success, an end, or a fallback, the last only when nothing was shown and the context, asked, is live |
| `Engine.TryStream` | internal/gateway/service.go:309-391 | the exact calls of an admitted streaming round, and what it decides |
| `Engine.StreamingRound` | internal/gateway/service.go:283-391 | the exact calls of a round of Stream; a position that cannot stream gets none and ends the request |
| `Engine.Stream` | internal/gateway/service.go:259-397 | whatever is answered: the calls made are exactly those of a finished walk along the order, and the result is what that walk comes to |
| `Projections.RunInvokes` | internal/gateway/service.go:227 | over any run the providers are invoked once per attempt, in order, with its model and answer, and not otherwise |
| `Projections.RunBegins` | internal/gateway/service.go:212 | every begin call of a run belongs to one visit: one per barred position, one per attempt, whose report follows |
| `Projections.RunSettles` | internal/gateway/service.go:485-495 | the admissions a run was granted are exactly its attempts, each settled once |
| `Projections.RunMeasures` | internal/gateway/service.go:226-231 | telemetry hears of each attempt its start, at most one first content and its end, and of nothing else |
| `Projections.RunAccounts` | internal/gateway/service.go:228 | accounting hears of each attempt once, in order |
| `Projections.RunTells` | internal/gateway/service.go:223-232 | history hears of each attempt its start and end, and of a cache hit that ends the run |
| `Projections.RunEmits` | internal/gateway/service.go:332-391 | all emit calls of a run come from its last attempt: exactly the visible part of what its stream delivered |
| `Walks.ShownByLastAttempt` | internal/gateway/service.go:362-391 | over any run the client was shown, chunk by chunk, what the last stream delivered, without chunks that say nothing, without usage and under the logical model asked for |
| `Walks.AnswerIsProviders` | internal/gateway/service.go:235-242 | a delivered completion is returned field by field as the provider gave it, under the logical model if one was asked for |
| `Walks.FailureIsLatestError` | internal/gateway/service.go:244-255 | a run whose latest usable position left an error returns that very error, an open circuit or the attempt's own, unless it then came to a provider that cannot stream |
| `Walks.UnmappedFails` | internal/gateway/service.go:188-200 | a model that resolves nowhere leads to no call at all, and to the error for a missing alias, a missing mapping or no usable mapping |
| `Walks.FallsBackExactly` | internal/gateway/service.go:244-247 | a request goes on from an attempt exactly with fallback, a timeout, outage or rate limit of a live request, nothing shown, and a live context |
| `Walks.StreamedMeansEnded` | internal/gateway/service.go:341-353 | a stream succeeds exactly when the last attempt read its stream to the end |
| `Walks.EachProviderAtMostOnce` | internal/gateway/service.go:415-453 | over any run, counting every call, each configured provider is invoked at most once |
| `Walks.InvokedAsConfigured` | internal/gateway/service.go:187-227 | every invocation of a run, the last included, is of a configured provider under the name its mapping has for a logical model, and the model asked for otherwise |
| `Walks.AbandonedWereReported` | internal/gateway/service.go:485-495 | every abandoned attempt ended in timeout, unavailable or rate-limited with a live context and was reported to its circuit as a failure |
| `Walks.FallbackWasLive` | internal/gateway/service.go:609-617 | between any two invocations of a run the context was asked, was live, and had been live all along |
| `Walks.AskedPositionsStream` | internal/gateway/service.go:296-299 | only positions that can stream are asked for admission or invoked by Stream |
| `Walks.UnavailableExactlyWhenReached` | internal/gateway/service.go:296-299 | a streaming request fails for want of streaming exactly when its walk reaches a resolved position that cannot stream |
| `Walks.UnavailableExactlyWithinReach` | internal/gateway/service.go:283-299 | known before the call: some run fails for want of streaming at a position exactly when it is resolved and mute and, if not the first, there is fallback and every position before it is unmapped, or resolved and streaming |
| `Walks.MuteProviderEndsStream` | internal/gateway/service.go:296-299 | two providers, the first unable to stream: the only run fails and makes no call, though the second could serve |
| `Ledgers.RunSettlesOnce` | internal/gateway/service.go:187-255 | over any run every ledger heard exactly what the attempts owe it, and the providers were invoked once per attempt |
| `Ledgers.HealthSettledOnce` | internal/gateway/service.go:485-495 | health admits each attempt once and hears one report of it and nothing else: success exactly of a delivery, failure exactly of a timeout, outage or rate limit of a live request, ignored otherwise |
| `Ledgers.RunReportsRight` | internal/gateway/service.go:485-495 | the same of the health calls in the transcript of any run |
| `Ledgers.TelemetrySettledOnce` | internal/gateway/service.go:226-231 | telemetry begins each attempt once and ends it once, and hears of no other; the outcome is success exactly of a delivery, cancellation exactly of an attempt given up, and the provider's own kind otherwise |
| `Ledgers.AccountingSettledOnce` | internal/gateway/service.go:228 | accounting hears of each attempt once, in order, with the usage of the response or, field by field, the last the stream reported |
| `Ledgers.HistorySettledOnce` | internal/gateway/service.go:223-232 | history starts and finishes each attempt, in order, with that outcome and usage |
| `Ledgers.ProbeBelongsToRunningRequest` | internal/gateway/service.go:187-255 | over all interleavings of the begin and report calls of requests, each answered by the circuit as it was, a half-open reservation belongs to a request that has not made all its calls |
| `Ledgers.QuiescentCircuitAdmits` | internal/gateway/service.go:282-397 | when every request has returned, the circuit admits unless it is open and still cooling |
| `Ledgers.AllBalanced` | internal/gateway/telemetry.go:88-165 | however requests interleave, if each one balances its begins and ends, so does the whole |
| `Ledgers.QuiescentTelemetryBalances` | internal/gateway/telemetry.go:88-165 | when every request has returned, attempts = successes + failures + cancellations |
| `Telemetry.ProviderTelemetry.constructor` | internal/gateway/telemetry.go:70-86 | nothing counted, empty rings of the capacity |
| `Telemetry.ProviderTelemetry.Begin` | internal/gateway/telemetry.go:88-99 | counts one attempt and keeps its time |
| `Telemetry.ProviderTelemetry.RecordFirstContent` | internal/gateway/telemetry.go:101-112 | adds one first-content sample |
| `Telemetry.ProviderTelemetry.RecordOutcome` | internal/gateway/telemetry.go:140-165 | the counters and the latest times remain those of everything recorded |
| `Telemetry.ProviderTelemetry.FinishNonStreaming` | internal/gateway/telemetry.go:114-125 | tallies the outcome and adds one completion sample |
| `Telemetry.ProviderTelemetry.FinishStreaming` | internal/gateway/telemetry.go:127-138 | tallies the outcome and adds one stream duration |
| `Telemetry.ProviderTelemetry.Snapshot` | internal/gateway/telemetry.go:167-195 | the counters, the latest times and the latest samples of each series, as functions of the updates made |
| `Telemetry.EndingsSplit` | internal/gateway/telemetry.go:140-165 | every ending is a success, a cancellation or exactly one failure category |
| `Telemetry.AttemptsBalance` | internal/gateway/telemetry.go:140-165 | attempts differ from successes + failures + cancellations by those still running |
| `Telemetry.CountersCount` | internal/gateway/telemetry.go:140-165 | every counter and failure category is the number of updates of its own kind |
| `Telemetry.TimesAreLatest` | internal/gateway/telemetry.go:140-165 | the times kept are those of the latest attempt, the latest success and the latest failure, cancellations left out |
| `Telemetry.CompletionsAreSampled` | internal/gateway/telemetry.go:114-125 | one completion sample per ending that did not stream, in order, whatever its outcome |
| `Telemetry.FirstContentsAreSampled` | internal/gateway/telemetry.go:101-112 | one first-content sample per first content, in order |
| `Samples.Ring.Add` | internal/gateway/telemetry.go:207-216 | the ring refines the sequence of everything added |
| `Samples.Ring.Snapshot` | internal/gateway/telemetry.go:218-228 | the last min(n, capacity) samples in order, whatever the position |
| `Samples.RecentLatencySamples` | internal/gateway/routing.go:305-314 | exactly the samples that are fresh, in order |
| `Samples.MedianMeaning` | internal/gateway/routing.go:316-325 | the median is the floor midpoint of the two middle order statistics exactly when they are less than 2^63 apart |
| `Samples.MedianCanWrap` | internal/gateway/routing.go:316-325 | two durations at the ends of int64 whose median comes out wrong |
| `Samples.MedianIgnoresOrder` | internal/gateway/routing.go:316-325 | the median depends only on the multiset of samples |
| `Latencies.MediansFollowUpdates` | internal/gateway/operations.go:111-123 | from the updates of a provider: routing ranks by, and the console shows, the median of the fresh ones among the last samples, the midpoint of their two middle order statistics exactly when these are less than 2^63 apart |
| `Samples.ConsoleLatency` | internal/gateway/operations.go:111-123 | the console shows the same median over the same fresh samples, or none when there are too few |
| `Accounting.SaturatingAdd` | internal/accounting/tracker.go:167-175 | the capped sum, with the flag raised exactly on overflow |
| `Accounting.SaturationIsExact` | internal/accounting/tracker.go:167-175 | adding to capped sums gives the cap of the exact sums, and the overflow flag tells whether some exact sum passed the bound |
| `Accounting.RecordUsage` | internal/accounting/tracker.go:112-134 | adds the reported counts and tells whether any was reported and whether they are complete and consistent |
| `Accounting.AddAttempt` | internal/accounting/tracker.go:92-108 | the updates of an accepted call amount to one exact attempt |
| `Accounting.Tracker.constructor` | internal/accounting/tracker.go:61-67 | an empty tracker |
| `Accounting.Tracker.SetPrices` | internal/accounting/tracker.go:69-73 | replaces the prices and nothing else |
| `Accounting.Tracker.Record` | internal/accounting/tracker.go:75-110 | after any calls every aggregate is the cap of the exact sums of the accepted records of its key, keys never exceed the limit, and the call is accepted exactly when its key is known or there is room, else dropped |
| `Accounting.AttemptsSplit` | internal/accounting/tracker.go:92-108 | attempts split into with and without usage, and with and without cost |
| `Accounting.TotalsAreSums` | internal/accounting/tracker.go:92-134 | the exact totals of a key are the plain sums over its accepted calls of tokens reported, costs estimated, attempts and attempts with cost |
| `Accounting.UsageTotalsAreSums` | internal/accounting/tracker.go:112-134 | attempts with usage are those that reported some count, and partial ones those whose counts are incomplete or do not add up |
| `Accounting.EveryCallCounted` | internal/accounting/tracker.go:83-92 | every call is accepted or counted as dropped |
| `Pricing.CheckedMultiply` | internal/accounting/pricing.go:95-100 | the product exactly when it fits in 64 bits |
| `Pricing.EstimateMicroUSD` | internal/accounting/pricing.go:70-93 | available exactly when usage is complete and consistent, both rates exist and the rounded sum fits; then the half-up quotient |
| `Pricing.PadFraction` | internal/accounting/pricing.go:53-55 | the padding loop brings a fraction to six places |
| `Pricing.ParseUSDPerMillion` | internal/accounting/pricing.go:29-68 | computes `ParsePrice`, which the price lemmas characterise |
| `Pricing.WellFormedPrice` | internal/accounting/pricing.go:29-68 | a well-formed decimal of at most six places is accepted exactly when it fits in 64 bits of micro-USD, and read exactly |
| `Pricing.OnlyWellFormedPrices` | internal/accounting/pricing.go:29-68 | nothing but a well-formed price in white space is accepted |
| `Pricing.TrimStrips` | internal/accounting/pricing.go:30 | surrounding white space is removed and nothing else |
| `Pricing.PriceRoundTrip` | internal/accounting/pricing.go:29-68 | reading a six-place printed price gives it back, for every uint64 |
| `Recorder.AsyncRecorder.Submit` | internal/persistence/recorder.go:94-114 | the locked section: accepted exactly when accepting and there is room, refused as full or closed otherwise |
| `Recorder.AsyncRecorder.CloseForShutdown` | internal/persistence/recorder.go:120-125 | closes the queue once |
| `Recorder.AsyncRecorder.Receive` | internal/persistence/recorder.go:140 | the worker takes the oldest record, or leaves once the queue is closed and empty |
| `Recorder.AsyncRecorder.Leave` | internal/persistence/recorder.go:137-139 | the deferred calls in their order: cancel, close the store, signal completion |
| `Recorder.RunKeepsInvariant` | internal/persistence/recorder.go:94-157 | over all interleavings the accepted records are those settled, in hand and queued, in that order, and who is closed implies who has left |
| `Recorder.SubmissionsConserved` | internal/persistence/recorder.go:94-157 | submitted = queued + in hand + settled + queue-full observed + queue-full pending, and the queue never exceeds its capacity |
| `Recorder.SettledInOrder` | internal/persistence/recorder.go:136-157 | outcomes arrive once and first in, first out; the store is asked in the same order |
| `Recorder.OutcomesAreHonest` | internal/persistence/recorder.go:140-156 | written means the store was asked; a record is given up unasked only after cancellation |
| `Recorder.OutcomesAreResults` | internal/persistence/recorder.go:140-156 | the outcomes told of attempted records are, write by write and in order, what the store answered |
| `Recorder.AcceptedExactly` | internal/persistence/recorder.go:94-114 | a submission is accepted exactly when no shutdown has begun and the queue has room, and refused as full exactly when none has begun and it has not |
| `Recorder.CanceledExactly` | internal/persistence/recorder.go:126-139 | the write context is canceled exactly by a shutdown that gave up or by the worker leaving |
| `Recorder.GivenUpStopsWriting` | internal/persistence/recorder.go:126-145 | after a shutdown that gave up no write is begun any more |
| `Recorder.NothingAfterClose` | internal/persistence/recorder.go:116-139 | nothing is sent on the closed queue and nothing written to the closed store |
| `Recorder.NilShutdownIsComplete` | internal/persistence/recorder.go:116-134 | a nil Shutdown means every accepted record has its outcome and the store is closed |
| `Recorder.ShutdownTerminates` | internal/persistence/recorder.go:136-157 | once the queue is closed the worker settles everything and closes the store in boundedly many steps, and then every waiting shutdown returns nil |
| `History.Bounded` | internal/gateway/persistence.go:156-162 | the longest prefix of at most the maximum of runes |
| `History.NonNegativeMicroseconds` | internal/gateway/persistence.go:164-169 | zero for a negative duration, else its whole microseconds |
| `History.RequestHistory.constructor` | internal/gateway/persistence.go:27-44 | the record a request begins with |
| `History.RequestHistory.StartAttempt` | internal/gateway/persistence.go:46-63 | adds one numbered attempt; the first names the initial provider |
| `History.RequestHistory.CacheHit` | internal/gateway/persistence.go:65-75 | marks the hit and names the parties |
| `History.RequestHistory.FinishAttempt` | internal/gateway/persistence.go:77-114 | settles the attempt at an index, or nothing for an index that does not exist |
| `History.RequestHistory.Finish` | internal/gateway/persistence.go:116-136 | closes the span, counts, and names the outcome |
| `History.ValidateRecord` | internal/persistence/postgres/store.go:177-195 | accepts exactly the valid records and tells metadata faults from the rest |
| `History.ReplayTells` | internal/gateway/persistence.go:46-114 | under any clock the record mirrors the attempts of the request one to one |
| `History.RecordNamesParties` | internal/gateway/persistence.go:46-114 | over any run and clock: the initial provider is the first attempted or served, the final one is the one that answered and absent exactly on failure, the cache is named exactly for a served run |
| `History.RecordTellsSuccess` | internal/gateway/persistence.go:116-154 | the recorded outcome of any run is success exactly when its result is no failure |
| `History.RecordTellsFailure` | internal/gateway/persistence.go:116-154 | the recorded outcome of any run that failed is a cancellation exactly if its context was done, its last attempt was given up or its error says so, and otherwise what its own error says |
| `History.RecordCountsAttempts` | internal/gateway/persistence.go:116-136 | the record of any run counts the providers invoked and one fallback less, carries who asked for what, and its times are those of its own calls under any clock |
| `History.ReplayTimes` | internal/gateway/persistence.go:46-114 | each attempt record carries the times, duration, first content and cost of its own two calls, and no clock set back makes it end before it began |
| `History.SubmittedIsValid` | internal/gateway/persistence.go:116-136 | a submitted record passes the store check exactly when ID and policy are persistable and no attempted provider or model is nameless |
| `History.GatewayRecordsAreValid` | internal/persistence/postgres/store.go:177-195 | for every run of Complete or Stream: valid exactly when ID and policy are persistable and attempted providers have names |
| `History.UpdatedPolicyIsPersistable` | internal/gateway/runtime_routing.go:85-88 | every policy name a runtime update accepts is persistable |
| `History.EmptyPolicyIsRefused` | internal/gateway/runtime_routing.go:65-72 | the startup path accepts the empty policy name, and every record made under it is refused |
| `ResponseCache.CheckComplete` | internal/cache/cache.go:58-68 | accepts exactly the complete assistant answers |
| `ResponseCache.BoundedBuffer.Write` | internal/cache/cache.go:72-77 | a write past the bound is refused whole |
| `ResponseCache.Encode` | internal/cache/cache.go:79-88 | gives bytes exactly for complete answers within the size bound |
| `ResponseCache.Decode` | internal/cache/cache.go:90-104 | an answer comes out exactly when the bytes are within the bound and hold it, complete, under version 1 |
| `ResponseCache.CodecRoundTrip` | internal/cache/cache.go:79-104 | with a faithful codec, what can be stored is read back unchanged |
| `ResponseCache.LookupCompletion` | internal/gateway/cache.go:24-46 | a hit is exactly an answer that the non-empty bytes fetched hold |
| `ResponseCache.HitHasOrigin` | internal/gateway/service.go:201-242 | over any history of interleaved requests, a hit equals the answer of a successful invocation that lies earlier in the history, of the provider and model of the key, for the same request |
| `ResponseCache.ServedAnswerHasOrigin` | internal/gateway/service.go:201-211 | a request served from the cache returns the answer that a successful invocation of the served provider and model gave to the same request earlier |
| `ResponseCache.StoredWasProduced` | internal/gateway/service.go:235-242 | what a run stores is the answer of a successful invocation it made before, by the provider and model of the key, and it returns it |
| `ResponseCache.ServingLeavesNoTrace` | internal/gateway/service.go:204-210 | whoever reads circuits, telemetry, accounting or invocations in the transcript of a served run finds only what was there before the served position |
| `ResponseCache.ServingChangesNoLedger` | internal/gateway/service.go:204-210 | what circuits, telemetry and accounting heard from a served run, and whom it invoked, is what its walk before the served position told and invoked |
| `ResponseCache.ServingEmitsNothing` | internal/gateway/service.go:204-210 | a served run shows the client nothing on the way |
| `ResponseCache.ServedExactly` | internal/gateway/service.go:201-210 | a served run ends with the circuit and the context asked and allowing it, the lookup, both asked and allowing it again, and the note of the hit; it returns what the cache held |
| `ResponseCache.UsedExactlyWhenAllowed` | internal/gateway/service.go:201-210 | what the cache answered is used exactly when circuit and context allowed it before and after the lookup |
| `ResponseCache.StoredExactly` | internal/gateway/service.go:235-242 | a delivered completion is stored exactly when the request had looked it up before and the context, asked again, is live |
| `Paging.CutPage` | internal/adminapi/handler.go:49-59 | the page cut and the next-cursor choice |
| `Paging.TopExists` | internal/persistence/postgres/reader.go:26-56 | the list query has an answer for every table, bound and size |
| `Paging.WalkIsDescending` | internal/adminapi/handler.go:44-63 | a walk along next cursors shows rows by falling start time and then identifier, nothing twice, whatever is inserted or deleted between pages |
| `Paging.WalkIsComplete` | internal/adminapi/handler.go:44-63 | a walk followed to its end shows every matching row that was there throughout |
| `Paging.NothingNewerIsLeft` | internal/persistence/postgres/reader.go:56 | a matching row there throughout and not shown yet started no later than any row shown |
| `Paging.PagesAreFull` | internal/adminapi/handler.go:49-59 | every page that hands on a cursor holds exactly the limit, and none holds more |
| `Paging.ShownIsAskedFor` | internal/persistence/postgres/reader.go:26-53 | every row shown meets the conditions asked for |
| `Paging.MeetsEachCondition` | internal/persistence/postgres/reader.go:26-53 | a row meets the conditions exactly when each is either not made or true of it |
| `Paging.WalkTerminates` | internal/persistence/postgres/reader.go:26-56 | on a fixed table a walk has at most one page more than there are matching rows |
| `Paging.WalkContinues` | internal/persistence/postgres/reader.go:26-56 | a walk that has not ended has a next page |
| `ServerSentEvents.SSEReader.Next` | internal/provider/sse.go:33-73 | folds lines into the next event exactly as `NextAnswer` does, and leaves the remaining lines |
| `ServerSentEvents.BlockReads` | internal/provider/sse.go:33-67 | lines that name a kind, give data, comment or name another field, and a blank one, are read as exactly one event: the kind named last, the data values joined by line feeds, the rest left |
| `ServerSentEvents.CutBlockReads` | internal/provider/sse.go:67-73 | such lines without the blank one are no event: an unexpected end if they said anything, else the end |
| `ServerSentEvents.LargeBlockReads` | internal/provider/sse.go:50-58 | data past the size bound is refused, whatever comes behind it |
| `ServerSentEvents.EveryLineSays` | internal/provider/sse.go:42-48 | every line that is not blank is one of these |
| `ServerSentEvents.SentEventReads` | internal/provider/sse.go:33-67 | from bytes with LF or CR LF endings: one such event in front of what the rest is read as |
| `ServerSentEvents.LongLineStops` | internal/provider/sse.go:23-31 | a line past the buffer stops the reader |
| `ServerSentEvents.FramesRoundTrip` | internal/httpapi/handler.go:96-137 | reading the frames of any sendable payloads gives exactly those payloads, then the end |
| `ServerSentEvents.PartialFrame` | internal/provider/sse.go:33-67 | a frame cut anywhere yields no event |
| `ServerSentEvents.CutYieldsWholePayloads` | internal/provider/sse.go:33-67 | cutting the bytes anywhere yields exactly the payloads whose frames are whole |
| `ServerSentEvents.StreamResponse.Emit` | internal/httpapi/handler.go:97-123 | what is on the wire is a prefix of the frames sent; a chunk that does not marshal writes nothing; no frame follows [DONE] |
| `ServerSentEvents.StreamResponse.Finish` | internal/httpapi/handler.go:125-137 | [DONE] is sent exactly on success; an error becomes a body only if nothing was written |
| `ServerSentEvents.DoneMeansComplete` | internal/httpapi/handler.go:96-137 | a reader that sees [DONE] of a response is reading one that succeeded and has read every payload |

## Left out

- Provider HTTP adapters, TLS and redirect policy, the idle watchdog: a provider is a script of chunks and errors.
- Redis, pgx, SQL text, migrations, tracing and metrics: only the relational meaning of the list query and the record check are kept.
- JSON, base64 and SHA-256: a codec that reads back what it wrote, and an injective key that never fails to encode; Go strings that are not UTF-8 are outside that assumption.
- Buffering of the line scanner: lines are the bytes split at LF with one trailing CR dropped, up to the line limit.
- Configuration, command wiring, the admin console, its authentication, benchmarks and the load test.
- Wrap-around of the 64-bit generation and of the telemetry counters: both are unbounded.
- Cursor encoding and decoding, and query parsing of the list handler; a request ID stands for its rank in the collation.
- Panics of providers, endless streams and the recorder's write timer.
- Spans and metrics around each call; only calls that change or read what another part depends on are steps of a transcript.
- Time to live and eviction of cached values: a store may forget at any time, so only what a hit returns is stated, not that one happens.
- Snapshots for the operations page, beyond eligibility and latency: they copy fields.
- Recorder.RunKeepsInvariant: does not follow the summed write time, which is wall-clock time.
- Accounting.Tracker.Record: does not model the mutex; each call is one step.
