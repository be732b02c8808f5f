# HybridInference routing core and release protocols, in Dafny

HybridInference is an LLM gateway. This project models the parts of it whose correctness depends on whole runs and
on several components together, and proves what they promise:

- **Per-request routing** (`apps/backend/routing/`): circuit breakers with owned, expiring probe tokens and a
  page-mute protocol; the prefill tracker with its leases, warm-prefix hints, prompt anchors and power-of-two-choices
  selection; the fallback order with its offload route and one retry per cut-short route; the request executor, whole
  and streamed; and the hybrid layer that plans attempts across two domains.
- **The pytest sharder** (`ops/ci/partition_pytest_files.py`): longest-first greedy packing and its 4/3 − 1/(3m) bound.
- **The change classifier and the CI gate** (`ops/ci/`): a producer and a strict validator that must agree.
- **Release protocols**: the schema compatibility floor (`apps/backend/migrations/`) and the prepare/commit protocol
  that swaps a model's router (`apps/backend/routing/model_router_registry.py`).

## How the model is built

Objects whose methods update their fields are classes (`CircuitBreaker`, `EndpointHealthRegistry`,
`PrefillLoadTracker`, `FallbackOrder`, `Database`, `ModelRouterRegistry`). Each method is proved equal to a step
function on the object's abstract value, and the theorems over runs are about those step functions: `BreakerRuns`,
`PrefillRuns`, `HintHistory` and the second halves of `FallbackWalk`, `SchemaCompat` and `RouterRegistry` quantify over every finite
sequence of events. Loops over local accumulators are methods with invariants.

One lock-protected method is one atomic step. Clocks are real numbers passed in, one field per clock the source reads
(`perf`, `mono`, `wall`). Floating point is modelled with reals. Adapters and routers are identities. Upstream
behaviour is an arbitrary oracle: any chunks, any failure, any cancellation, at any time.

The executor (`Gateway`, `Selection`, `Attempts`, `Requests`, `RequestLog`, `RequestTrail`, `Executor`) threads one
`World` value: the registry and tracker state as seen by one request, plus the ordered trace of everything that request
did: each bid for a dispatch slot with the breaker's answer, each claim handed back, each lease taken and given back,
each health report, and each suspension with what other requests did during it. A world evolves into another only by
such moves, and every one of them enters the trace; so the trace cannot be claimed, only earned. At every suspension
point, and between the admission query and the claim, an arbitrary sequence of other requests' steps runs. What became
of each candidate is one log entry: dispatched, refused a claim, or passed over as too narrow; `Disciplined` says why
each entry is right given the entries before it, and `DeedsOf` says what the request did for it. `chat_completion` and
`stream_chat_completion` share selection, fallback walk, window skip, refusal stop and unwinding, so one method,
`Executor.Execute`, covers both; the trace of every execution is exactly `DeedsOf` of its log. `RequestDeeds` reads off
that trace what it means to act on one's own account only, `GatewayRuns` shows every breaker and the tracker going
through exactly the run these moves are to it, and `HybridExecution` runs the hybrid plan through `Execute`.

Where the code and its own documentation disagree, the model follows the code:

- `_select_adapter`'s documentation says a preferred target outranks affinity. An admissible pin is returned before a
  target that is not required is looked at (`Selection.PinBeatsPreference`, `Selection.PreferenceHonouredIff`).
- The prompt units are documented as keeping message boundaries from being forged. Between prompts whose texts avoid
  the boundary mark they do (`PromptAnchors.BoundariesAreDetermined`). Against every prompt, only the empty prompt and a
  single message that cannot be split are safe: any two messages also read as one (`PromptAnchors.DeterminedIff`,
  `PromptAnchors.MarkInTextForgesBoundary`).
- The anchor is documented as proof of an identical prefix. It is, exactly for prompts without lone surrogates, which
  are dropped before hashing (`PromptAnchors.ExactIffSurrogateFree`).
- The elephant limit is read at selection and at acquisition on two clock readings. Saturation aside, the limit is
  exceeded exactly when the endpoint is at its limit and a hint that made an elephant look small lapses in between
  (`PrefillRuns.ElephantLimitHolds`, `PrefillRuns.LapsedHintBreaksLimit`).
- The router registry keeps its promises exactly when canonical ids are idempotent and no canonical id is an alias of
  another (`RouterRegistry.ProtocolHoldsIffCoherent`).

`dafny verify dfyconfig.toml` checks everything. No proof rests on automatic induction: `dafny verify
--manual-lemma-induction dfyconfig.toml` checks everything too.

## Model

| member | source | states |
|---|---|---|
| `Sharding.P75IsNearestRank` | ops/ci/partition_pytest_files.py:180-185 | the percentile is one of the values, at least three quarters of the values are no higher, fewer than three quarters are strictly lower |
| `Sharding.UnknownWeightPositive` | ops/ci/partition_pytest_files.py:188-200 | files without history get a positive weight whenever the history is positive |
| `Sharding.PartitionTestFiles` | ops/ci/partition_pytest_files.py:223-259 | each rejection in its order, otherwise the greedy partition of the files in (heaviest, name) order |
| `Sharding.PartitionedIff` | ops/ci/partition_pytest_files.py:230-240 | a partition is made exactly of a positive number of shards, no more than there are files, of distinct files, with a positive default; each error is reported in exactly its own case |
| `Sharding.LightestShard` | ops/ci/partition_pytest_files.py:250-250 | the lowest index among the lightest totals |
| `Sharding.Distribute` | ops/ci/partition_pytest_files.py:246-252 | the per-shard lists and totals, filled in place, are those of greedy packing |
| `Sharding.PackInPlace` | ops/ci/partition_pytest_files.py:246-257 | the shards built from those lists, each sorted by name, with its total |
| `Packing.GreedyBound` | ops/ci/partition_pytest_files.py:249-252 | with weights in descending order, no greedy load exceeds 4/3 − 1/(3m) times the heaviest load of any other assignment |
| `Packing.GreedyBoundIsTight` | ops/ci/partition_pytest_files.py:249-252 | the factor is attained on two shards with weights 3 3 2 2 2 |
| `Packing.GreedyOpensShards` | ops/ci/partition_pytest_files.py:249-252 | with positive weights the first m items open m different shards |
| `Sharding.PartitionIsBalanced` | ops/ci/partition_pytest_files.py:223-259 | no shard's estimate exceeds 4/3 − 1/(3m) times the heaviest shard of any other assignment of the same files |
| `Sharding.PartitionIsExactCover` | ops/ci/partition_pytest_files.py:203-220 | every partition passes validation: nothing twice, missing or unexpected |
| `Sharding.EstimateIsSumOfFiles` | ops/ci/partition_pytest_files.py:249-257 | a shard's estimate is the sum of its own files' weights |
| `Sharding.NoShardIsEmpty` | ops/ci/partition_pytest_files.py:223-259 | with positive durations every shard has a file and a positive estimate |
| `Sharding.PartitionIgnoresInputOrder` | ops/ci/partition_pytest_files.py:249-259 | reordering the input files changes nothing |
| `CircuitBreaker.CircuitBreaker.constructor` | apps/backend/routing/endpoint_health.py:506-587 | a new breaker is closed, with no probe, no mute and token 1 next |
| `CircuitBreaker.CircuitBreaker.AllowRequest` | apps/backend/routing/endpoint_health.py:590-617 | the pure query answers what claiming would answer at the same instant |
| `CircuitBreaker.CircuitBreaker.BeginDispatch` | apps/backend/routing/endpoint_health.py:619-664 | admission per state; an elapsed cooldown or an expired probe issues the next token for one cooldown |
| `CircuitBreaker.CircuitBreaker.EndDispatch` | apps/backend/routing/endpoint_health.py:625-639 | frees the probe slot only for the token that holds it |
| `CircuitBreaker.CircuitBreaker.OnSuccess` | apps/backend/routing/endpoint_health.py:666-691 | clears the streak and the mute, starts a new recovery generation, closes the circuit and drops the probe |
| `CircuitBreaker.CircuitBreaker.OnFailure` | apps/backend/routing/endpoint_health.py:762-1019 | streak, trip, reopening, and which trips hold a page back, stamp, mute or schedule one |
| `CircuitBreaker.CircuitBreaker.OnPageDone` | apps/backend/routing/endpoint_health.py:1054-1064 | a finished page releases only its own generation's guard and mutes only its own generation |
| `EndpointHealth.ProviderHealth.RecordOutcome` | apps/backend/routing/endpoint_health.py:416-431 | both exponentially weighted counters move by the same factor |
| `EndpointHealth.EndpointHealthRegistry.BeginDispatch` | apps/backend/routing/endpoint_health.py:1121-1136 | the claim names its endpoint and carries that breaker's token; no other endpoint changes |
| `EndpointHealth.EndpointHealthRegistry.EndDispatch` | apps/backend/routing/endpoint_health.py:1138-1151 | hands a token back to its own endpoint's breaker, and nothing for a claim without one |
| `EndpointHealth.EndpointHealthRegistry.AllowRequest` | apps/backend/routing/endpoint_health.py:1110-1119 | the admission query of the endpoint's breaker, without claiming |
| `EndpointHealth.EndpointHealthRegistry.OnSuccess` | apps/backend/routing/endpoint_health.py:1153-1167 | availability and breaker of that endpoint both see the success |
| `EndpointHealth.EndpointHealthRegistry.OnFailure` | apps/backend/routing/endpoint_health.py:1169-1233 | only a charged failure reaches availability and breaker, and the breaker sees the availability after it |
| `BreakerRuns.ProbesAreACooldownApart` | apps/backend/routing/endpoint_health.py:604-664 | over every run, two probe tokens are issued at least one cooldown apart unless the earlier holder handed its claim back |
| `BreakerRuns.TokensGrow` | apps/backend/routing/endpoint_health.py:619-623 | over every run, tokens only grow, so none is issued twice |
| `BreakerRuns.LateReturnFreesNothing` | apps/backend/routing/endpoint_health.py:629-639 | over every run, a late return by an old holder changes nothing once a newer probe was issued |
| `BreakerRuns.NotClosedIsJustified` | apps/backend/routing/endpoint_health.py:744-819 | in every reachable state that is not closed the streak is at its threshold or availability is under its floor |
| `BreakerRuns.ChargedFailureRestartsCooldown` | apps/backend/routing/endpoint_health.py:771-819 | over every run, a charged failure while open or half-open reopens the circuit and refuses everyone for a full cooldown |
| `BreakerRuns.RecoveryIsOffered` | apps/backend/routing/endpoint_health.py:539-617 | in every reachable state a claim is admitted at any time at least one cooldown after the last opening and the last probe |
| `BreakerRuns.CountersAreHistory` | apps/backend/routing/endpoint_health.py:416-431 | over every run the streak is the number of charged failures since the last success, and availability is the weighted success rate of the run |
| `BreakerRuns.ChargedFailureOpensIff` | apps/backend/routing/endpoint_health.py:744-819 | over every run, a charged failure leaves the circuit open, stamped then, exactly if the streak has reached its threshold or the success rate is under its floor |
| `BreakerRuns.ClosedStreakIsShort` | apps/backend/routing/endpoint_health.py:744-819 | in every reachable state a closed circuit's streak is under a positive threshold |
| `BreakerRuns.BreakerIsWellFormed` | apps/backend/routing/endpoint_health.py:590-691 | in every reachable state a probe has a token and a deadline or neither, a closed circuit has no probe and no opening time, one that is not closed has an opening time; and every success closes the circuit |
| `BreakerRuns.GenerationCountsSuccesses` | apps/backend/routing/endpoint_health.py:666-677 | over every run the recovery generation is the number of successes |
| `BreakerRuns.SuccessRearms` | apps/backend/routing/endpoint_health.py:670-677 | right after any success no mute stands and no page in flight guards the next outage |
| `BreakerRuns.AlertsAreHistory` | apps/backend/routing/endpoint_health.py:846-908 | over every run, the mute, the plan-usage stamp and the in-flight guard are what the run's successes, usage-limit trips and delivered pages say they are |
| `BreakerRuns.FailurePagesIff` | apps/backend/routing/endpoint_health.py:819-1019 | over every run, a failure pages exactly if it opens a circuit that was not open, the page can be scheduled, and neither the policy, a page in flight for this outage, a standing mute nor the page rate holds it back; the page names this outage |
| `BreakerRuns.FreshOutagePages` | apps/backend/routing/endpoint_health.py:670-677 | over every run, with alerting and usage paging on, a trip for another failure pages whenever no usage limit has tripped the circuit since the last success |
| `BreakerRuns.MutesBelongToTheOutage` | apps/backend/routing/endpoint_health.py:893-908 | over every run, a standing mute was recorded in the current recovery generation, and usage-limit pages in flight have distinct generations |
| `BreakerRuns.StalePageIsHarmless` | apps/backend/routing/endpoint_health.py:1054-1064 | a page that finishes after recovery neither mutes nor unguards a later outage |
| `BreakerRuns.OnePageInFlight` | apps/backend/routing/endpoint_health.py:846-847 | while a usage-limit page of the current outage is in flight no trip schedules another page |
| `PrefillLoad.PrefillLoadTracker.Acquire` | apps/backend/routing/prefill_load.py:795-864 | the lease charges the endpoint, the caller's share and the elephant count with the uncached estimate |
| `PrefillLoad.PrefillLoadTracker.Release` | apps/backend/routing/prefill_load.py:916-967 | takes the same amounts back once, remembers the prompt only when prefill was confirmed; a second release does nothing |
| `PrefillLoad.PrefillLoadTracker.RememberPrompt` | apps/backend/routing/prefill_load.py:866-892 | the newest hint replaces the pair's old one and the oldest are evicted down to the bound, index included |
| `PrefillLoad.PrefillLoadTracker.ForgetEndpoint` | apps/backend/routing/prefill_load.py:893-914 | drops the endpoint's indexed hints and its index entry |
| `PrefillLoad.PrefillLoadTracker.ShouldKeepAffinity` | apps/backend/routing/prefill_load.py:969-1007 | compares the endpoint's load without the caller's own share with the ceiling |
| `PrefillLoad.ThresholdsArePositive` | apps/backend/routing/prefill_load.py:768-783 | the elephant size and limit are as configured and at least one |
| `PrefillLoad.PrefillLoadTracker.SelectIndex` | apps/backend/routing/prefill_load.py:1009-1112 | the index two weighted draws and the load tie-break give among the eligible candidates; never the endpoint to avoid while any other candidate exists |
| `PrefillLoad.EligibleIs` | apps/backend/routing/prefill_load.py:1066-1097 | exactly the candidates other than the endpoint to avoid, or all when every one is, without the saturated ones unless all are; each once, in order |
| `PrefillLoad.PreferIsLighter` | apps/backend/routing/prefill_load.py:1100-1112 | once either draw carries enough to matter the lighter of the two is chosen, the first among equals; otherwise the first |
| `PrefillLoad.WeightedPick` | apps/backend/routing/prefill_load.py:1126-1151 | the candidate whose cumulative weight bucket the draw falls in, or the last one when nothing has weight |
| `PrefillLoad.DrawnByWeight` | apps/backend/routing/prefill_load.py:1126-1151 | a draw above zero, when anything has weight, picks a candidate with positive weight, whose bucket is as wide as its weight and holds the draw |
| `PrefillRuns.LoadIsOutstandingLeases` | apps/backend/routing/prefill_load.py:827-967 | over every interleaving, backlog, elephant count and caller share are exactly the sums over outstanding leases |
| `PrefillRuns.AffinityComparesForeignLoad` | apps/backend/routing/prefill_load.py:1000-1007 | over every run, the affinity check compares exactly the other callers' outstanding load with the ceiling |
| `PrefillRuns.ForgetRemovesExactly` | apps/backend/routing/prefill_load.py:893-914 | forgetting an endpoint removes all of its hints and no other |
| `PrefillRuns.HintMapIsCoherent` | apps/backend/routing/prefill_load.py:866-914 | over every run, one hint per pair, the reverse index holds exactly the map's keys, and the bound holds |
| `PrefillRuns.HintsAreEvidence` | apps/backend/routing/prefill_load.py:935-949 | over every run, a hint exists only if a lease of that pair was released with prefill confirmed after the endpoint was last forgotten |
| `HintHistory.HintIsLastEvidence` | apps/backend/routing/prefill_load.py:866-949 | over every run, a hint is that of the pair's last confirmed release since its endpoint was forgotten, and it is there unless the map has filled up with newer ones |
| `HintHistory.HintIsOfPrompt` | apps/backend/routing/prefill_load.py:935-949 | a hint tells the tokens, conversation and anchor that its lease was acquired with, for one lifetime from the release |
| `HintHistory.ColdAcquireChargesAll` | apps/backend/routing/prefill_load.py:752-864 | over every run, an acquire whose caller has no live evidence on the endpoint charges its whole prompt |
| `HintHistory.WarmAcquireChargesRest` | apps/backend/routing/prefill_load.py:752-864 | over every run, an acquire with live evidence charges what its prompt has beyond the remembered one, and is an elephant by that only for the same conversation |
| `PrefillRuns.ElephantLimitHolds` | apps/backend/routing/prefill_load.py:1063-1112 | select then acquire exceeds the elephant limit exactly when every candidate other than the endpoint to avoid (every candidate, when all are that endpoint) was saturated, or a hint that made an elephant look small on an endpoint at its limit lapsed between the two clock readings |
| `PrefillRuns.ExceedsIff` | apps/backend/routing/prefill_load.py:827-852 | the same for any one endpoint: acquiring exceeds its limit exactly when it was saturated at selection or the clock broke the limit there |
| `PrefillRuns.LapsedHintBreaksLimit` | apps/backend/routing/prefill_load.py:827-852 | a run of acquires and releases reaches a state where such a lapse does break the limit while another candidate was free |
| `PromptAnchors.PromptAnchor` | apps/backend/routing/prefill_load.py:368-393 | hashing unit by unit gives the anchor of the concatenated text |
| `PromptAnchors.AnchorHolds` | apps/backend/routing/prefill_load.py:397-411 | checking unit by unit, however the text is split, equals checking the text's first `length` characters |
| `PromptAnchors.NoAnchorHoldsOutside` | apps/backend/routing/prefill_load.py:397-411 | an anchor of no text, or of more text than there is, never holds |
| `PromptAnchors.AnchorIsExact` | apps/backend/routing/prefill_load.py:397-411 | without lone surrogates, the anchor holds on a later text if and only if the remembered text is a prefix of it |
| `PromptAnchors.ExactIffSurrogateFree` | apps/backend/routing/prefill_load.py:368-411 | that exactness holds for precisely the texts without lone surrogates |
| `PromptAnchors.AppendingKeepsAnchor` | apps/backend/routing/prefill_load.py:316-411 | appending messages always keeps the anchor, whatever the text holds |
| `PromptAnchors.EditingBreaksAnchor` | apps/backend/routing/prefill_load.py:316-411 | changing any character of a surrogate-free remembered text breaks it |
| `PromptAnchors.BoundariesAreDetermined` | apps/backend/routing/prefill_load.py:316-366 | between two prompts none of whose texts contains the boundary mark, equal text means as many messages with the same text after each opening mark |
| `PromptAnchors.DeterminedIff` | apps/backend/routing/prefill_load.py:316-366 | a prompt's text fixes its boundaries against every other prompt exactly when the prompt is empty, or one message whose text has no role end, later mark, later role end |
| `PromptAnchors.MarkInTextForgesBoundary` | apps/backend/routing/prefill_load.py:316-366 | with the mark inside a text, one message reads as two, for every role and pair of texts |
| `Failures.FaultsAreToldApart` | apps/backend/routing/endpoint_health.py:204-335 | a fault is charged unless its status is a client error other than 401, 407, 408 and 429; one that describes the request charges nobody and forgets nothing; a lost cache is charged or a queued model |
| `Failures.Surfaced` | apps/backend/routing/routers.py:384-400 | the first error that describes the request, else the primary's |
| `FallbackWalk.FallbackOrder.constructor` | apps/backend/routing/offload.py:222-234 | the order starts with the route's other adapters, the offload route apart |
| `FallbackWalk.FallbackOrder.RecordFailure` | apps/backend/routing/offload.py:240-256 | queues a cut-short route once, and puts a pending offload route next after a too-long wait |
| `FallbackWalk.FallbackOrder.Next` | apps/backend/routing/offload.py:258-275 | offload when due or nothing ordinary is left, then ordinary routes, then retries |
| `FallbackWalk.WalkKeepsOrder` | apps/backend/routing/offload.py:222-275 | over any walk, ordinary routes come once each in the given order; the offload route at most once, directly after a reported too-long wait or else after every ordinary route; a route again exactly if it was cut short, once, after everything else and in the order of the cuts |
| `FallbackWalk.OffloadFollowsLongWait` | apps/backend/routing/offload.py:240-275 | after a too-long wait the next candidate is the pending offload route |
| `FallbackWalk.RepeatIsRetry` | apps/backend/routing/offload.py:222-275 | a route handed out twice is handed out the second time as a retry, and never a third time |
| `FallbackWalk.StepConsumes` | apps/backend/routing/offload.py:240-275 | asking uses up one unit of the measure, reporting never adds one |
| `FallbackWalk.WalkIsBounded` | apps/backend/routing/offload.py:222-275 | whatever is reported, a walk hands out no more than its routes plus one retry each |
| `Selection.SelectIsSound` | apps/backend/routing/routers.py:2028-2143 | a chosen route is weighted, not excluded and admitted; nothing is chosen only when no route can be had, or the required target cannot |
| `Selection.SelectHonoursWishes` | apps/backend/routing/routers.py:2071-2143 | the offload route is chosen only as the last one standing and for a prompt it takes; a required target is met; a live pin, else a reachable preference, is honoured |
| `Selection.PreferenceHonouredIff` | apps/backend/routing/routers.py:2095-2143 | a reachable preference is honoured exactly when it is required or no live pin points elsewhere within reach |
| `Selection.PinBeatsPreference` | apps/backend/routing/routers.py:2095-2143 | with two healthy routes the pinned one is chosen over the preferred one |
| `Selection.SelectAndClaim` | apps/backend/routing/routers.py:2273-2391 | the request's trace gains exactly its refused bids, one per endpoint and each after a suspension, and the claim it was placed with; a placement is on a route that refused nothing, with a live probe's token if it has one; giving up means every route refused or is out of reach; a required target is met or reported unavailable; a reachable preference that competes with no pin is asked first; and unless a target is required a pin in reach is what is asked next, at first and after any refusals |
| `Selection.TryPreferred` | apps/backend/routing/routers.py:2337-2364 | the preferred endpoint is asked once and first; a refusal ends the request only when the target is required |
| `Selection.Reselect` | apps/backend/routing/routers.py:2366-2391 | each pass enters one more refusal in the trace, so the loop ends placed or with every route refused or out of reach |
| `Gateway.InterferenceEvolves` | apps/backend/routing/routers.py:2480-3196 | whatever other requests do while this one is suspended is one move, which the trace holds with all their actions |
| `Gateway.EvolvesKeeps` | apps/backend/routing/endpoint_health.py:604-664 | over any moves of this request and of others, nothing handed back is taken again, no issued token is re-issued, leases keep their endpoint, and the load counters stay balanced |
| `Gateway.RefusalIsReal` | apps/backend/routing/endpoint_health.py:641-664 | a bid is refused exactly when the breaker does not admit at that instant |
| `Gateway.LostCacheIsForgotten` | apps/backend/routing/routers.py:926-958 | after a report of a failure that may have lost the endpoint's cache no caller has a hint on that endpoint |
| `Gateway.EvolvesFrees` | apps/backend/routing/prefill_load.py:916-967 | a lease given back between two points of a request shows in its trace: as its own release, or as another's while it was suspended |
| `Gateway.EvolvesTakesNew` | apps/backend/routing/prefill_load.py:827-864 | a lease a request takes is a new one, never one granted before |
| `GatewayRuns.EndpointsAreRuns` | apps/backend/routing/endpoint_health.py:1121-1233 | whatever one request and all others do, every endpoint's breaker has gone through exactly the run of claims, returns and outcomes that their steps are to it, so what holds over every run holds of it |
| `GatewayRuns.TrackerIsRun` | apps/backend/routing/prefill_load.py:795-967 | and the tracker through exactly the run of their leases, releases and forgets |
| `GatewayRuns.InterferenceIsPlayed` | apps/backend/routing/endpoint_health.py:1121-1233 | others' steps while a request is suspended move each breaker by exactly the events they are to it, in order |
| `Attempts.Hold` | apps/backend/routing/routers.py:1270-1331 | a watched stream holds chunks back exactly while they carry no output and stay under the buffer limit |
| `Attempts.Relay` | apps/backend/routing/routers.py:2946-2963 | the client gets a prefix of this stream, all of it when it ends, nothing when it breaks while held back; the state afterwards is the one where the first output chunk alone reported success and confirmed prefill |
| `Attempts.WholeEvolves` | apps/backend/routing/routers.py:2602-2610 | waiting for a whole response gives the lease back however it ends, with prefill confirmed exactly for a returned response, and reports one outcome, none for a cancellation |
| `RequestLog.WindowsWiden` | apps/backend/routing/routers.py:596-663 | no attempt goes to a known window that is no wider than one that refused the prompt |
| `RequestLog.RepeatsAreRetries` | apps/backend/routing/routers.py:2683-2793 | a route has two entries at most, the second as its retry |
| `RequestLog.OrdinariesKeepOrder` | apps/backend/routing/routers.py:1152-1185 | in every execution the ordinary fallbacks, dispatched, turned away or passed over, come in the order of `routes` |
| `RequestLog.RetriesFollowCuts` | apps/backend/routing/routers.py:2683-2793 | every retry repeats an earlier attempt that was cut short |
| `RequestLog.OnlyOrdinaryIsArmed` | apps/backend/routing/routers.py:2729-2738 | only an ordinary attempt runs under a deadline |
| `RequestLog.ArmedIff` | apps/backend/routing/routers.py:2729-2738 | an attempt runs under a deadline exactly if it may fall back, is not the offload route, and that route is weighted, takes the prompt, is not the primary, was not used yet, has a window wider than any that refused, serves this caller and is admitted now |
| `RequestLog.OversizeIsNotOffloaded` | apps/backend/routing/routers.py:1163-1185 | a prompt over the offload route's max input is never sent there as a fallback |
| `RequestLog.FailedAltogether` | apps/backend/routing/routers.py:2781-2793 | a request that failed altogether has only failed attempts and showed nothing |
| `RequestTrail.EndedSawAll` | apps/backend/routing/routers.py:2683-2801 | a walk that ran out has an entry for every route that may serve, and a retry entry for every route cut short; each entry is a dispatch, a refused claim or a window too narrow |
| `Requests.PlanHoldsRoutes` | apps/backend/routing/routers.py:1145-1185 | the fallback order holds exactly the weighted routes in range other than the primary, without an offload route too small for the prompt |
| `Requests.PlanKeepsOrder` | apps/backend/routing/routers.py:1145-1185 | what the walk starts with names the routes in the order they are declared in |
| `Executor.Place` | apps/backend/routing/routers.py:2532-2569 | the primary is the pin's or a placement of selection's, on the required target if there is one; the request has then done exactly its selection and taken one lease of its own on that endpoint; a refusal leaves nothing out and says why |
| `Executor.RunPrimary` | apps/backend/routing/routers.py:2889-2980 | the primary's lease is back and its outcome reported when the attempt ends, whole or streamed, cancelled or abandoned; it did exactly that and still holds its claim |
| `Executor.TryCandidate` | apps/backend/routing/routers.py:2690-2793 | a candidate bids first and runs only under a granted claim on its endpoint, which goes back after its attempt's last deed; a deadline is armed exactly while an offload route could still take the request; the primary's retry first returns the primary's claim |
| `Executor.Dispatch` | apps/backend/routing/routers.py:2571-2793 | the primary is armed by the same condition; the walk follows only a failure that showed nothing and may fall back; every entry is justified by those before it; and failing means two malformed verdicts or nothing left |
| `Executor.Execute` | apps/backend/routing/routers.py:2480-3196 | for every upstream behaviour, cancellation and disconnect included: no claim or lease of the request stays out; what it did is exactly its selection, then each logged candidate's deeds in order, then the primary's claim back; every decision is justified and ordinary fallbacks keep route order; the client's chunks are a prefix of the last attempt's stream; a reachable preference that competes with no pin is bid for first, and a pin in reach is bid for next at every pass; and a request that dispatched nothing says why |
| `RequestDeeds.RequestsActRightfully` | apps/backend/routing/routers.py:2793-2801 | over every execution, each claim goes back once, by the attempt it was granted to; an attempt waits, leases and reports only while it holds its claim on that endpoint; only leases the request took are given back; at the end no claim and no lease is left |
| `RequestDeeds.NothingFollowsReturn` | apps/backend/routing/routers.py:2793-2801 | once an attempt has handed its claim back it is not on the wire again, and the claim is not handed back again |
| `RequestDeeds.FreesOnlyOwn` | apps/backend/routing/prefill_load.py:916-967 | a lease a request gives back is one it took |
| `RequestDeeds.RequestsReportWhatHappened` | apps/backend/routing/prefill_load.py:916-949 | over every execution, prefill is confirmed and success reported exactly for the attempts that proved their endpoint up, failure exactly for those that broke and with their error; every lease is for the request's own tokens, caller, conversation and anchor |
| `RequestDeeds.RequestLeavesNoLoad` | apps/backend/routing/routers.py:3174-3196 | after any execution every load counter is the sum over the other requests' leases alone; the request's own leases are all new, and each other lease given back meanwhile was given back by another request |
| `Surfacing.ReportedAttempts` | apps/backend/routing/routers.py:423-449 | each cut-short attempt gives its place to its retry |
| `Surfacing.ReportIsOneAnswerPerRoute` | apps/backend/routing/routers.py:423-449 | when retries follow cuts, the report is one entry per route, in first-tried order, with that route's last error |
| `Surfacing.DisciplinedIsRetriedOnce` | apps/backend/routing/routers.py:423-449 | the errors of every log the executor leaves are reported as one answer per route |
| `HybridPlan.FallbackAttempts` | apps/backend/routing/policies.py:203-250 | the declared candidates after the primary that take the request's media, in route order |
| `HybridPlan.AttemptsAreCandidates` | apps/backend/routing/policies.py:226-247 | the policy's attempts are exactly the other candidates that take the media and are in a declared range, each under the domain that owns it |
| `HybridPlan.AttemptPlan` | apps/backend/routing/hybrid.py:432-510 | the primary first, then each fallback its domain's backend serves and reaches |
| `HybridPlan.PlanIsOwned` | apps/backend/routing/hybrid.py:432-510 | the plan after its primary holds exactly those of them whose own backend serves the model and resolves their endpoint |
| `HybridPlan.LocalIffOwned` | apps/backend/routing/policies.py:252-256 | with distinct endpoints, an attempt or plan entry for a candidate is local if and only if the local range names its endpoint or provider |
| `HybridPlan.PlanCoversRoute` | apps/backend/routing/hybrid.py:432-510 | with distinct endpoints, each in a declared range and reached by the backend that owns it, the plan is the primary and then every other eligible candidate once, in route order across both domains |
| `HybridPlan.ChatCompletion` | apps/backend/routing/hybrid.py:303-406 | walks the plan, skipping endpoints that already ran and stopping after two refusals |
| `HybridWalk.WalkEndsAtFirst` | apps/backend/routing/hybrid.py:325-404 | a walk is decided by the first tried attempt that answers, is interrupted or mismatched, or is the second to call the request malformed; it has run exactly the tried attempts' endpoints |
| `HybridWalk.WalkRunsOut` | apps/backend/routing/hybrid.py:325-404 | with no such attempt it surfaces the failures of all tried attempts, else the first refusal, else that nothing was attempted |
| `HybridPlan.NoEndpointRunsTwice` | apps/backend/routing/hybrid.py:1021-1039 | no endpoint runs twice when a substituting primary names on its error the endpoint that ran |
| `HybridPlan.RunsOnceIff` | apps/backend/routing/hybrid.py:1021-1039 | whatever the first attempt did: no endpoint runs twice, however the later attempts go, exactly if the walk remembers the endpoint the first one failed on or no later attempt names it |
| `HybridExecution.InnerRunIsHonest` | apps/backend/routing/hybrid.py:903-945 | an exact attempt, run by the inner router with its target required and no fallback, runs the endpoint it names, and an error names the endpoint that ran |
| `HybridExecution.FollowPlan` | apps/backend/routing/hybrid.py:325-404 | an attempt is skipped exactly if its endpoint already ran, else it is a whole execution by the inner router on the attempt's own terms, from where the last one ended; the walk stops short only on an answer, a cancellation, a mismatch or a second refusal, and is the one the plan determines for those executions' results; the endpoints run are those of the logged dispatches, in order, and none runs twice |
| `HybridPlan.UnreportedSubstituteRunsAgain` | apps/backend/routing/hybrid.py:1021-1039 | an instance where that condition fails, hypothetical for the fixed router, whose errors always name the endpoint that ran: a substitute that is not named runs twice |
| `HybridPlan.FailureExhaustsPlan` | apps/backend/routing/hybrid.py:329-392 | a walk that fails without the refusal stop passed over an answering attempt only because its endpoint had already run |
| `HybridStream.TagKeepsContent` | apps/backend/routing/hybrid_stream_frames.py:51-107 | tagging a chunk with its backend keeps its visibility and everything but the routing entry |
| `HybridStream.VisibleIff` | apps/backend/routing/hybrid_stream_frames.py:51-81 | the client sees every chunk but a routing frame with neither choices nor usage |
| `HybridStream.TagNamesBackend` | apps/backend/routing/hybrid_stream_frames.py:83-110 | tagging names the backend in a routing entry that names none, and changes nothing else |
| `HybridStream.HistoryIsInvisible` | apps/backend/routing/hybrid_attempt_history.py:99-111 | the attempt history is a routing frame with the number of failed attempts, which no client sees |
| `HybridStream.Forward` | apps/backend/routing/hybrid.py:795-850 | what one attempt forwards is the attempt history and then its own chunks under its backend's name, up to where the client leaves; whether the client has seen anything is whether any of it was visible |
| `HybridStream.FallbackStream` | apps/backend/routing/hybrid.py:773-900 | whatever fails and when, the visible chunks emitted are a prefix of one stream's, everything emitted is a prefix of what the plan's streams send, whole unless the client left, and the outcome is the one they determine unless the client left at its last chunk |
| `StreamWalk.StreamEndsAtFirst` | apps/backend/routing/hybrid.py:795-900 | a streamed walk is decided by the first tried attempt that shows the client something, completes, is cancelled or mismatched, or is the second to call the request malformed; it sends each tried attempt's own chunks up to that one's, after the number of failures before it |
| `StreamWalk.StreamRunsOut` | apps/backend/routing/hybrid.py:795-900 | with no such attempt everything failed, and it sends just those parts |
| `HybridStream.FirstVisibleAttemptAnswers` | apps/backend/routing/hybrid.py:795-900 | every attempt before the answering one showed nothing, or was skipped because its endpoint had run |
| `HybridStream.FailureExhaustsStreams` | apps/backend/routing/hybrid.py:795-900 | a walk that fails without the refusal stop passed over an attempt that would have answered only because its endpoint had already run |
| `HybridStream.StopMeansTwoRefusals` | apps/backend/routing/hybrid.py:1042-1060 | the early stop means two different attempts failed calling the request malformed |
| `ChangeClassifier.Classify` | ops/ci/classify_changes.py:212-343 | the outputs are the union of what each path selects, full when there is no diff, security_only when nothing else is selected |
| `ChangeClassifier.ApplyRules` | ops/ci/classify_changes.py:241-279 | one path adds exactly its own categories and images |
| `ChangeClassifier.ApplyNarrowRules` | ops/ci/classify_changes.py:280-315 | the narrow buckets, and full for a path none of them recognises |
| `ChangeClassifier.SelectedIffSomePath` | ops/ci/classify_changes.py:241-315 | a category or image is selected if and only if some single path selects it |
| `ChangeClassifier.ClassificationIsMonotone` | ops/ci/classify_changes.py:212-343 | growing a non-empty diff switches off no output but security_only and drops no image |
| `ChangeClassifier.SecurityOnlyIffAllDocs` | ops/ci/classify_changes.py:317-330 | application checks are skipped exactly when every path is documentation and nothing else |
| `PathOutcomes.FrontendFiles` | ops/ci/classify_changes.py:280-284 | every file under `apps/frontend/` but Markdown selects exactly the frontend, its containers, the tutorial run and the frontend image |
| `PathOutcomes.BackendFiles` | ops/ci/classify_changes.py:285-292 | every file under `apps/backend/` but Markdown selects exactly the backend, the Python tests, the tutorial run and the backend image |
| `PathOutcomes.TestFiles` | ops/ci/classify_changes.py:285-292 | every file under `tests/` but Markdown selects exactly the backend and the Python tests, and no image |
| `PathOutcomes.SiteUiFiles` | ops/ci/classify_changes.py:280-284 | every file under `deploy/docker/site-ui/` but Markdown selects what a frontend file does |
| `PathOutcomes.FullFiles` | ops/ci/classify_changes.py:247-252 | the build inputs, the workflows and `config/` run everything, and the Makefile the tutorial too |
| `PathOutcomes.DistributionFiles` | ops/ci/classify_changes.py:247-252 | a distribution's file runs everything unless it is documentation content of that distribution, which runs nothing |
| `PathOutcomes.ExampleFiles` | ops/ci/classify_changes.py:257-270 | every file of the runnable example selects backend, tests, containers, tutorial and backend image, and its frontend part the frontend too |
| `PathOutcomes.TutorialPage` | ops/ci/classify_changes.py:257-270 | the router tutorial selects the backend, the tests, its own run, the docs build and the backend image |
| `PathOutcomes.DocumentationFiles` | ops/ci/classify_changes.py:271-279 | any other documentation file selects the docs build if it is Sphinx source, and nothing otherwise |
| `PathOutcomes.DockerignoreFile` | ops/ci/classify_changes.py:293-300 | `.dockerignore` selects the shared container checks, the tests, the site containers and the tutorial |
| `PathOutcomes.ComposeFile` | ops/ci/classify_changes.py:293-300 | the compose file selects the shared container checks, the tests and the tutorial |
| `PathOutcomes.ImageFiles` | ops/ci/classify_changes.py:301-309 | an image's own Dockerfile selects that image's checks and builds it |
| `PathOutcomes.UnknownFiles` | ops/ci/classify_changes.py:310-315 | a file no rule names runs everything |
| `CiGate.ParseClassification` | ops/ci/verify_ci_gate.py:75-150 | accepts exactly the payloads with all flags, canonical images and consistent categories, and reads them back |
| `CiGate.ExpectedResults` | ops/ci/verify_ci_gate.py:176-195 | one wanted result for each required job |
| `CiGate.VerifyGate` | ops/ci/verify_ci_gate.py:169-202 | accepts exactly when the event is supported, the classification valid for it, and every job has its wanted result |
| `CiGate.WriteRoundTrip` | ops/ci/verify_ci_gate.py:57-62 | canonical outputs read back to what was written |
| `CiGate.EveryClassificationIsAccepted` | ops/ci/classify_changes.py:159-171 | every diff's classification, a missing or empty diff included, passes the validator unchanged |
| `CiGate.GateAcceptsExactlyOne` | ops/ci/verify_ci_gate.py:176-202 | per event and valid classification exactly one vector of job results is accepted |
| `CiGate.ScheduledChecksEverything` | ops/ci/verify_ci_gate.py:169-202 | a scheduled or manual run is accepted exactly with a full classification that builds both images and every job successful |
| `CiGate.PushChecksEverything` | ops/ci/verify_ci_gate.py:169-202 | an accepted push has run every check and built no image, and no unsupported event is accepted |
| `CiGate.AcceptedChecksEveryFile` | ops/ci/verify_ci_gate.py:177-202 | on an accepted pull request every job that any one changed file would have required has succeeded |
| `PathOutcomes.AcceptedBackendChange` | ops/ci/verify_ci_gate.py:177-202 | a pull request that changed a backend source file is accepted only with backend quality, tests, tutorial and image build all successful |
| `PathOutcomes.AcceptedFrontendChange` | ops/ci/verify_ci_gate.py:177-202 | and one that changed a frontend source file only with frontend quality, site containers, tutorial and image build |
| `SchemaCompat.Database.RaiseCompatFloor` | apps/backend/migrations/compat.py:73-108 | refuses a floor that is not before the declaring revision, otherwise keeps the higher of the two floors |
| `SchemaCompat.Database.ApplyNext` | apps/backend/migrations/__main__.py:80-112 | the next revision the image knows commits with all its floor declarations, or not at all |
| `SchemaCompat.Database.RequireSchema` | apps/backend/migrations/compat.py:195-214 | accepts exactly the current and the newer-compatible verdict |
| `SchemaCompat.RunReaches` | apps/backend/migrations/__main__.py:80-147 | every run by any mix of images leaves the database after some number of revisions, with the highest floor those declare |
| `SchemaCompat.AppliesIff` | apps/backend/migrations/__main__.py:80-112 | an image applies the next revision exactly if it knows it and every floor the revision declares is an earlier revision |
| `SchemaCompat.MigrationAdvances` | apps/backend/migrations/__main__.py:80-147 | in a well-declared history, after as many steps by images that know n revisions all n are in, over every run |
| `SchemaCompat.FloorStaysBelowRevision` | apps/backend/migrations/compat.py:90-108 | over every run the floor is strictly before the database revision |
| `SchemaCompat.FloorNeverFalls` | apps/backend/migrations/compat.py:90-108 | over every run the floor never falls |
| `SchemaCompat.StartsIffFloorAllows` | apps/backend/migrations/compat.py:154-164 | a start is accepted exactly when the head is at or before the revision and at or after the floor |
| `SchemaCompat.StartsIffSupported` | apps/backend/migrations/compat.py:154-214 | over every run, exactly when the database has reached the head and no applied revision declared a floor beyond it |
| `RouterRegistry.ModelRouterRegistry.GetRouter` | apps/backend/routing/model_router_registry.py:162-179 | returns and caches the canonical id's router, under the requested id too; a failed build changes nothing |
| `RouterRegistry.ModelRouterRegistry.PrepareRouterStrategyChange` | apps/backend/routing/model_router_registry.py:290-334 | the token records override, router and revision as they are, and only the lookup changes the registry |
| `RouterRegistry.ModelRouterRegistry.CommitRouterStrategyChange` | apps/backend/routing/model_router_registry.py:336-359 | a fresh token replaces override and router and moves the revision; a stale or foreign one changes nothing |
| `RouterRegistry.ModelRouterRegistry.ClearRouterOverride` | apps/backend/routing/model_router_registry.py:277-288 | drops the override and the cached entries and moves the revision |
| `RouterRegistry.ModelRouterRegistry.InvalidateRouterCache` | apps/backend/routing/model_router_registry.py:386-391 | evicts the canonical id and exactly the aliases whose target it is |
| `RouterRegistry.ProtocolHoldsIffCoherent` | apps/backend/routing/model_router_registry.py:386-405 | over all honest runs, committed routers serve until the next commit or clear, and commits replace what they were prepared against, each for exactly the coherent configurations |
| `RouterRegistry.CommitsRise` | apps/backend/routing/model_router_registry.py:336-359 | over every run, successful commits of one model carry strictly rising revisions, so at most one change prepared at a revision commits |
| `RouterRegistry.CommitReplacesItsPreparation` | apps/backend/routing/model_router_registry.py:290-359 | over every run of a coherent configuration, a committing change replaces exactly the router it was prepared against; `ProtocolHoldsIffCoherent` gives the converse |
| `RouterRegistry.CommittedRouterServes` | apps/backend/routing/model_router_registry.py:162-179 | over every run of a coherent configuration, until the model's next commit or clear every lookup, by its id or any alias, gives the committed router; `ProtocolHoldsIffCoherent` gives the converse |
| `RouterRegistry.CommittedStrategyRules` | apps/backend/routing/model_router_registry.py:250-359 | over every run, a proposed strategy that commits is in force under the id it was proposed for until the model's next commit or clear; proposing none brings back the configured one |
| `RouterRegistry.ClearedStrategyIsConfigured` | apps/backend/routing/model_router_registry.py:277-288 | over every run, after a clear the configured strategy is in force until the next commit |
| `RouterRegistry.UnchangedStrategyKeepsRouter` | apps/backend/routing/model_router_registry.py:305-325 | a change to the strategy already in force keeps the model's router, any other one brings the new router |

## Left out

- Heap objects inside the executor: `Executor`, `Selection` and `Attempts` work on the value of the shared state; the classes are proved to take the same steps, but aliasing between the executor's objects is not modelled.
- Fallback binding failures: building the execution adapter of a fallback candidate is total here.
- Missing or unpublished routes: an unpinned request without a route appears as one with no admissible route.
- The affinity table: a kept, unexpired pin is a parameter of selection, the same at every pass; writing, expiring and dropping pins is not modelled.
- The weighted draw inside the executor's selection: an arbitrary pick from the same candidates; the draw itself is `PrefillLoad.PrefillLoadTracker.SelectIndex`.
- PrefillLoad.WeightedPick: does not model rounding of the cumulative sum, because weights are reals; the fallback for a sum that falls short of the draw is then unreachable.
- PromptAnchors.AnchorIsExact: takes the digest to be injective on texts.
- ChangeClassifier.Classify: takes paths already normalised; the reason text and the per-category match lists are not modelled.
- CiGate.ParseClassification: starts from decoded JSON; rejection messages are not modelled.
- Request priority, engine hold, dispatch watch timing, HTTP, SSE bytes, key pools and the upstream limiter: I/O, represented by outcomes and chunks.
- Alert card text, affected callers, usage-limit text parsing, credential-rejection paging, context-window wording: carried as fields of a failure.
- Token estimation, conversation fingerprints and JSON serialisation: opaque parameters.
- RouteWise and other strategies, feedback attribution in the hybrid layer, the hybrid factory and route-table refresh: separate subsystems.
- SQL, Alembic and advisory locks: one revision commits atomically and one migration runs at a time.
- Discovery of test files, duration history files, workflow output files and the command lines: thin I/O.
