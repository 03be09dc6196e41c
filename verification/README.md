# Rollouts, campaigns and framing of the computer-use agent

This project models four durable state machines of the agent in Dafny and proves
what they keep over whole runs.

- **Adaptive canary rollout** (`adaptive_*.dfy`, from `adaptive_routing.py`). A
  rollout alternates routes and outcomes under compare-and-swap. The constraints of
  its constructor are not inductive; a stronger invariant is, and with it every
  request is accepted exactly when its guards pass. The counters are counts of the
  log of accepted requests, the canary fraction holds at every prefix of every log,
  and the stored file is at every point the encoding of that rollout.
- **Batch coordinator and its runtimes** (`campaign.dfy`, `campaign_store.dfy`,
  `batching.dfy`, `batch_coordinator.dfy`, `coordinator*.dfy`, `batch_*.dfy`,
  `plan_order.dfy`, `head_item.dfy`, `application_*.dfy`, `boss_*.dfy`). Items move from
  discovery to commit through batches owned by runs with heartbeats. The theorems cover
  every interleaving of coordinator operations by any number of runs from the creation
  of a campaign on, the life of one batch, the agreement of the preflight ladders, the
  sessions rebuilt after a restart, a whole application campaign from preparation to
  completion, and a whole BOSS campaign from discovery to its end.
- **Newline framing** (`bounded_stdio.dfy`, from `bounded_stdio.py`; the stdio
  transport of the Model Context Protocol specification, Transports section). The
  reader with its capped buffer refines one recursive function of the byte stream.
- **Discovery with crashes** (`discovery.dfy`, `discovery_runs.dfy`). Items are
  appended before the pass that counts them; replay converges, and the difference
  between the two counts is exactly what crashes left behind.

Code that works on values is modelled by functions. Code that updates something
step by step is modelled by methods: `CampaignStore`, `Coordinator` and `Store` are
classes with the fields of the original objects, and each of their methods is proved
against the function of the same operation on the record the object holds.

## Findings

Each of these is a theorem below. Where the code does not meet a property, the exact
condition under which it does is proved for all inputs, and an input that fails is shown.

- The constructor of a rollout accepts states that its own transitions then refuse
  (`ConstructorNotInductive`). Of all states it accepts, an outcome whose guards pass is
  refused exactly when it is a verified success of an arm whose successes already equal
  its selections (`RecordIff`); a route is never refused (`RouteIff`). No created rollout
  reaches such a state (`CreatedRunsAreSound`).
- The test `candidate_selections < max_canary_runs` never decides a route
  (`RoomForCandidate`).
- A batch with more eligible items than its item limit drifts after its first commit
  and can then neither continue nor, unless a limit is reached, finish
  (`ContinuesIff`, `DriftBlocks`): `plan_batch` is asked again for as many items as at
  the opening. Every batch with a limit above one and below its eligible items runs into
  this when it is driven through its first item (`CutBatchSticks`), three items planned
  two at a time for example (`ThreeItemsStick`). A batch whose limit cuts nothing is not
  affected.
- `docs/LONG_RUNNING_TASKS.md:138-140` calls an interrupted discovery pass repairable
  by observing the same source again. The item ledger is repaired (`ReplayConverges`),
  the counts are not: the difference never decreases, so `_start_boss_batch`
  refuses the campaign from then on (`InterruptedDiscoveryBlocksStart`; one crash is
  enough, `OneCrashBlocks`). A discovery that meets the other checks of the start is
  accepted if and only if no crash has persisted an item (`StartIffUninterrupted`).
- A BOSS campaign with nothing left to do is never completed. Driven through its rounds
  it commits ordinals 1, 2, 3, ... in order; the restart after the last one fails, having
  taken the heartbeat, and from then on every start, identity execution and restart is refused
  (`BossCampaignStrands`; from one discovered job, `OneJobStrands`).
- An application claim that is not executed within its lease leaves its batch open for
  good: the runtime has no call that closes it, and releasing the lease does not help
  (`ExpiredClaimStalls`).
- A stored rollout re-encodes to exactly itself if and only if its booleans are JSON
  booleans and no number is a float except the three versions `to_payload` echoes
  (`EnvelopeReencodesIff`); Python's `==` also accepts 0 for false (`ZeroAccepted`), 1.0 in
  the canary fraction (`FloatFractionAccepted`) and as the version of the store
  (`FloatStoreVersionAccepted`).

## Reading the model

Timestamps are integers (seconds), the source compares parsed timestamps. `now` is
the caller's time, `clock` the wall clock a record is written with; a handoff is
readable when its clock is not behind the manifest. A digest is the value it was taken
of, hence injective; batch ids and run ids are related injectively. A record's
sequence number is its position in its ledger. Results of calls into the desktop or a
provider are parameters. A JSON float is a real number, compared with integers exactly as
Python does.

Where the code and its documents differ, the model follows the code. `next_ordinal`
is the least ordinal that is not committed, or one past the number of items
(`src/computer_use_agent/campaign.py:514-520`).

## Model

| member | source | states |
|---|---|---|
| AdaptiveInvariant.ConstructorNotInductive | src/computer_use_agent/adaptive_routing.py:521-609 | a rollout the constructor accepts, with a pending canary, whose verified success the constructor then refuses |
| AdaptiveInvariant.RecordIff | src/computer_use_agent/adaptive_routing.py:967-1022 | of all rollouts the constructor accepts, an outcome whose guards pass is refused if and only if it is a verified success of an arm whose successes already equal its selections |
| AdaptiveInvariant.RouteIff | src/computer_use_agent/adaptive_routing.py:876-964 | on every rollout the constructor accepts, a route is accepted if and only if its guards pass |
| AdaptiveInvariant.CreateEstablishes | src/computer_use_agent/adaptive_routing.py:738-829 | every created rollout satisfies the inductive invariant, in warmup at revision 0 |
| AdaptiveInvariant.RoomForCandidate | src/computer_use_agent/adaptive_routing.py:946-956 | an idle active rollout always has room for one more candidate, so the limit test never decides; it is in warmup exactly below the warmup count |
| AdaptiveInvariant.SlotKeepsFraction | src/computer_use_agent/adaptive_routing.py:559-563 | one more candidate in a canary slot keeps the fraction bound net of the warmup |
| AdaptiveInvariant.RouteKeeps | src/computer_use_agent/adaptive_routing.py:876-964 | a route whose guards pass is accepted by both constructors and keeps the invariant |
| AdaptiveInvariant.RecordKeeps | src/computer_use_agent/adaptive_routing.py:967-1022 | an outcome whose guards pass is accepted by the constructor and keeps the invariant |
| AdaptiveHistory.AcceptedIffGuards | src/computer_use_agent/adaptive_routing.py:832-1022 | on invariant states a request is accepted if and only if its guards pass |
| AdaptiveHistory.RouteEffect | src/computer_use_agent/adaptive_routing.py:832-873 | what an accepted route changes: one counter by one, the next sequence number, the pending decision |
| AdaptiveHistory.RecordEffect | src/computer_use_agent/adaptive_routing.py:967-1022 | what an accepted outcome changes: one success counter for a verified low-risk success, rollback on anything else |
| AdaptiveHistory.RouteIssues | src/computer_use_agent/adaptive_routing.py:895-964 | an accepted route issues the choice and the status its ladder selected |
| AdaptiveHistory.RouteSelects | src/computer_use_agent/adaptive_routing.py:930-964 | the selected choice as a rule on the log: rollback on expiry or drift, else the candidate exactly at multiples of the interval after the warmup, with no limit test |
| AdaptiveHistory.StepSound | src/computer_use_agent/adaptive_routing.py:876-1022 | one request keeps the whole soundness statement: invariant, alternation, counters as counts of the log, exact canary count |
| AdaptiveHistory.RunSound | src/computer_use_agent/adaptive_routing.py:876-1022 | every run of requests from a fresh rollout is sound at its end |
| AdaptiveTheorems.CreatedRunsAreSound | src/computer_use_agent/adaptive_routing.py:738-1022 | from a created rollout, after any requests by any clients, the state is accepted by the constructor and the next request is accepted exactly when its guards pass |
| AdaptiveTheorems.RunExtends | src/computer_use_agent/adaptive_routing.py:876-1022 | runs only extend the log and keep the identity |
| AdaptiveTheorems.PrefixSafeFraction | src/computer_use_agent/adaptive_routing.py:559-563 | at every prefix of every log, candidates times interval is at most the low-risk routes |
| AdaptiveTheorems.CanaryCount | src/computer_use_agent/adaptive_routing.py:946-956 | after any run of a fresh rollout, the exact number of selected candidates from the low-risk routes and the length of the warmup, and the fraction bound net of the warmup |
| AdaptiveTheorems.CompletionLength | src/computer_use_agent/adaptive_routing.py:1002-1012 | a complete rollout has routed exactly interval times (runs plus warmup intervals) low-risk decisions |
| AdaptiveTheorems.StaleClientRefused | src/computer_use_agent/adaptive_routing.py:895-905 | a request whose expected revision was consumed is refused in every continuation |
| AdaptiveTheorems.DecisionConsumedOnce | src/computer_use_agent/adaptive_routing.py:980-1001 | no two outcomes of a log answer the same decision |
| AdaptiveTheorems.StoppedForGood | src/computer_use_agent/adaptive_routing.py:899-936 | after a regression, a drift or an expiry nothing is selected any more, and at most one outcome is consumed |
| AdaptiveRoundTrip.PolicyDecodes | src/computer_use_agent/adaptive_routing.py:1163-1194 | decoding the payload of a policy returns it |
| AdaptiveRoundTrip.ContextDecodes | src/computer_use_agent/adaptive_routing.py:1212-1258 | decoding the payload of a valid context returns it, preconditions, risks and digests included |
| AdaptiveRoundTrip.DecisionDecodes | src/computer_use_agent/adaptive_routing.py:1261-1304 | decoding the payload of a decision returns it |
| AdaptiveRoundTrip.RolloutDecodes | src/computer_use_agent/adaptive_routing.py:1307-1378 | decoding the payload of a rollout returns it |
| AdaptiveRoundTrip.EnvelopeRoundTrip | src/computer_use_agent/adaptive_routing.py:1381-1411 | decoding the envelope of a rollout returns it |
| AdaptiveRoundTrip.ReencodesIff | src/computer_use_agent/adaptive_routing.py:1372-1378 | an accepted payload equals its re-encoding by Python's `==`, and is its re-encoding if and only if booleans stand exactly where the format has them and floats at most in the three echoed versions |
| AdaptiveRoundTrip.EnvelopeReencodesIff | src/computer_use_agent/adaptive_routing.py:1381-1411 | the same for a whole stored envelope |
| AdaptiveRoundTrip.ZeroAccepted | src/computer_use_agent/adaptive_routing.py:1372-1378 | a payload with 0 in place of false is accepted and is not its own re-encoding |
| AdaptiveRoundTrip.FloatFractionAccepted | src/computer_use_agent/adaptive_routing.py:1163-1194 | a payload with floats in the canary fraction is accepted and is not its own re-encoding |
| AdaptiveRoundTrip.FloatStoreVersionAccepted | src/computer_use_agent/adaptive_routing.py:1390-1411 | an envelope with store version 1.0 and the digest taken accordingly is accepted and is not its own re-encoding |
| AdaptiveStore.Store.Read | src/computer_use_agent/adaptive_routing.py:1459-1474 | reads the rollout of the file, under the lock, with the right id |
| AdaptiveStore.Store.Write | src/computer_use_agent/adaptive_routing.py:1476-1524 | stores the envelope of a rollout that decodes, and nothing on an error |
| AdaptiveStore.Store.Create | src/computer_use_agent/adaptive_routing.py:1538-1546 | creates the file from an initial rollout, once |
| AdaptiveStore.Store.RouteStored | src/computer_use_agent/adaptive_routing.py:1552-1578 | one compare-and-swap route: the new file and the decision, or an unchanged file |
| AdaptiveStore.Store.RecordStored | src/computer_use_agent/adaptive_routing.py:1580-1599 | one compare-and-swap outcome: the new file and the rollout it decodes to, or an unchanged file |
| AdaptiveStore.SwapIsStep | src/computer_use_agent/adaptive_routing.py:1526-1599 | a request on the file is a step of the rollout when its digest is current, and nothing otherwise |
| AdaptiveStore.StoreRefines | src/computer_use_agent/adaptive_routing.py:1552-1599 | under any interleaving of clients the file always decodes to the rollout of a sound run |
| AdaptiveStore.CreatedIsHeld | src/computer_use_agent/adaptive_routing.py:1538-1546 | creating the store from a created rollout succeeds and establishes the refinement |
| BoundedStdio.ReadChunk | src/computer_use_agent/bounded_stdio.py:96-123 | the inner loop consumes exactly what one chunk contributes, with a buffer within the limit |
| BoundedStdio.ReadFrames | src/computer_use_agent/bounded_stdio.py:83-126 | the reader delivers what the recursive specification says of the whole stream, with a buffer within the limit |
| BoundedStdio.FaultIsLast | src/computer_use_agent/bounded_stdio.py:98-126 | at most one error, and it is last |
| BoundedStdio.EmptyChunkEnds | src/computer_use_agent/bounded_stdio.py:94-95 | bytes after an empty chunk are never read |
| BoundedStdio.ChunkingIndependent | src/computer_use_agent/bounded_stdio.py:83-126 | two ways of cutting one stream into non-empty chunks deliver the same |
| BoundedStdio.WriteFrames | src/computer_use_agent/bounded_stdio.py:128-143 | the writer sends each message with its newline and stops at the first over-long one |
| BoundedStdio.RoundTrip | src/computer_use_agent/bounded_stdio.py:83-143 | sendable messages read back under any chunking arrive exactly and without error if and only if none contains a newline |
| Campaign.ReduceItemLedger | src/computer_use_agent/campaign.py:559-596 | the loop over the item ledger computes the projection, or the error of the first refused transition |
| Campaign.ReduceBatchLedger | src/computer_use_agent/campaign.py:599-620 | the loop over the batch ledger accepts it if and only if every transition is admitted, and finds the active batch |
| Campaign.LeastUnique | src/computer_use_agent/batching.py:120-132 | the least item in (ordinal, key) order is unique |
| CampaignStores.CampaignStore.Append | src/computer_use_agent/campaign.py:1355-1382 | appends a transition the reducer accepts, and nothing otherwise |
| CampaignStores.CampaignStore.AppendBatch | src/computer_use_agent/campaign.py:1402-1424 | appends a batch transition the reducer accepts, and nothing otherwise |
| CampaignStores.CampaignStore.WriteHeartbeat | src/computer_use_agent/campaign.py:1169-1196 | replaces the heartbeat of the same run only, forward in time |
| CampaignStores.CampaignStore.RecoverStaleHeartbeat | src/computer_use_agent/campaign.py:1198-1249 | replaces a proven stale owner only |
| CampaignStores.CampaignStore.ReplaceHeartbeatOwner | src/computer_use_agent/campaign.py:1251-1289 | replaces exactly the named owner |
| CampaignStores.CampaignStore.WriteHandoff | src/computer_use_agent/campaign.py:1470-1499 | stores the handoff derived from the current state |
| CampaignStores.CampaignStore.CompleteCampaign | src/computer_use_agent/campaign.py:1118-1147 | completes a running campaign |
| CampaignStores.CampaignStore.RemoveCompletedHeartbeat | src/computer_use_agent/campaign.py:1291-1335 | removes the heartbeat of a completed campaign for its final run only |
| Batching.FirstReached | src/computer_use_agent/batching.py:90-111 | the first reached limit of the fixed order, if any is reached |
| Batching.SortedUnique | src/computer_use_agent/batching.py:120-132 | a sorted listing of a set of items is unique, whatever order the set came in |
| Batching.PlanIsLeast | src/computer_use_agent/batching.py:114-132 | a plan lists the least eligible items in order, as many as the limit allows, and stops exactly when there are none |
| BatchCoordinator.PrefixLength | src/computer_use_agent/batch_coordinator.py:219-239 | the longest head of the plan committed by the run |
| Coordinators.CommittedPlanPrefix | src/computer_use_agent/batch_coordinator.py:219-239 | the loop counts that head and collects everything the run committed |
| Coordinators.Coordinator.InspectOwnership | src/computer_use_agent/batch_coordinator.py:181-216 | the ownership ladder |
| Coordinators.Coordinator.OpenBatch | src/computer_use_agent/batch_coordinator.py:356-380 | opens a nonempty plan when no batch is active, and writes nothing otherwise |
| Coordinators.Coordinator.InspectContinuation | src/computer_use_agent/batch_coordinator.py:609-690 | the continuation ladder on the record the store holds |
| Coordinators.Coordinator.ClaimNextItem | src/computer_use_agent/batch_coordinator.py:692-745 | claims the next planned item under a lease, and writes nothing otherwise |
| Coordinators.Coordinator.RecordNextClaimedItemObserved | src/computer_use_agent/batch_coordinator.py:452-479 | records the observation of the claimed item, and writes nothing otherwise |
| Coordinators.Coordinator.RecordNextObservedItemExtracted | src/computer_use_agent/batch_coordinator.py:514-539 | records the extraction of the observed item, and writes nothing otherwise |
| Coordinators.Coordinator.RecordNextExtractedItemCommitted | src/computer_use_agent/batch_coordinator.py:574-607 | records the commit of the extracted item, and writes nothing otherwise |
| Coordinators.Coordinator.FinishContinuedBatch | src/computer_use_agent/batch_coordinator.py:747-790 | finishes the batch with the code of its preflight, and writes nothing otherwise |
| Coordinators.Coordinator.InspectFinishedHandoff | src/computer_use_agent/batch_coordinator.py:792-894 | the handoff ladder on the record the store holds |
| Coordinators.Coordinator.WriteFinishedHandoff | src/computer_use_agent/batch_coordinator.py:896-919 | writes the handoff once, and nothing otherwise |
| Coordinators.Coordinator.ReplaceFinishedRunHeartbeatOwner | src/computer_use_agent/batch_coordinator.py:968-993 | transfers the heartbeat of a finished run, and writes nothing otherwise |
| Coordinators.Coordinator.OpenResumedBatch | src/computer_use_agent/batch_coordinator.py:382-417 | opens a ready nonempty resume plan, and writes nothing otherwise |
| Coordinators.Coordinator.OpenTransferredResumedBatch | src/computer_use_agent/batch_coordinator.py:1282-1314 | opens the plan the transfer preflight named, and writes nothing otherwise |
| Coordinators.SamePlan | src/computer_use_agent/batch_coordinator.py:1303-1313 | the plan opened is always the plan the preflight named, so the drift error never arises |
| Coordinators.Coordinator.CompleteExhaustedCampaign | src/computer_use_agent/batch_coordinator.py:1087-1110 | completes an exhausted campaign, and writes nothing otherwise |
| Coordinators.Coordinator.WriteCompletedCampaignHandoff | src/computer_use_agent/batch_coordinator.py:1167-1194 | writes the terminal handoff once, and nothing otherwise |
| Coordinators.Coordinator.RemoveCompletedCampaignHeartbeat | src/computer_use_agent/batch_coordinator.py:1251-1280 | retires the heartbeat of the final run, and writes nothing otherwise |
| CoordinatorGuards.OwnershipIff | src/computer_use_agent/batch_coordinator.py:181-216 | ownership is ready if and only if the run owns the active batch of a running campaign with a fresh heartbeat; an ownership check never reports a completed plan |
| CoordinatorGuards.ClaimIff | src/computer_use_agent/batch_coordinator.py:692-745 | the exact condition for a claim; the ledger never refuses it |
| CoordinatorGuards.ObserveIff | src/computer_use_agent/batch_coordinator.py:419-479 | the exact condition for an observation; the ledger never refuses it |
| CoordinatorGuards.ExtractIff | src/computer_use_agent/batch_coordinator.py:481-539 | the exact condition for an extraction; the ledger never refuses it |
| CoordinatorGuards.CommitIff | src/computer_use_agent/batch_coordinator.py:541-607 | the exact condition for a commit; the ledger never refuses it |
| CoordinatorGuards.FinishIff | src/computer_use_agent/batch_coordinator.py:747-790 | the exact condition for a finish; the ledger never refuses it |
| CoordinatorSafety.ClaimEffect | src/computer_use_agent/batch_coordinator.py:692-745 | an accepted claim takes the least eligible item, the first uncommitted planned key, for the run of the active batch, with nothing else in flight |
| CoordinatorSafety.ObserveEffect | src/computer_use_agent/batch_coordinator.py:452-479 | an accepted observation advances the claimed item of the same run, the first uncommitted planned key |
| CoordinatorSafety.ExtractEffect | src/computer_use_agent/batch_coordinator.py:514-539 | the same for an extraction |
| CoordinatorSafety.CommitEffect | src/computer_use_agent/batch_coordinator.py:574-607 | the same for a commit |
| CoordinatorSafety.ReleaseEffect | src/computer_use_agent/lease_recovery.py:24-61 | a release makes an expired claim retryable |
| CoordinatorSafety.TerminalizeEffect | src/computer_use_agent/boss_semantic_item_runtime.py:365-399 | a terminalization ends an observed item only |
| CoordinatorSafety.FinishEffect | src/computer_use_agent/batch_coordinator.py:747-790 | an accepted finish appends one record, with nothing in flight |
| CoordinatorSafety.ApplyEffect | src/computer_use_agent/batch_coordinator.py:348-1314 | every operation is one permitted effect on one ledger, or none |
| CoordinatorSafety.StepSafe | src/computer_use_agent/campaign.py:559-620 | every permitted effect keeps the safety invariant |
| CoordinatorSafety.ExecuteSafe | src/computer_use_agent/batch_coordinator.py:181-216 | under every interleaving at most one item is in flight, for the run of the active batch, none without one; no item is committed twice; both ledgers read back |
| CoordinatorSafety.CampaignSafe | src/computer_use_agent/batch_coordinator.py:181-216 | the same from the creation of a campaign on, whatever is discovered |
| PlanOrder.StepFollows | src/computer_use_agent/batch_coordinator.py:219-239 | one operation of any run keeps the commits of a run equal to a head of its plan, which grows by at most one |
| PlanOrder.ExecuteFollows | src/computer_use_agent/batch_coordinator.py:419-607 | over a whole campaign, with new items, challenges and other runs, the commits of a run are a head of its plan |
| BatchProgress.RemainingSorted | src/computer_use_agent/batching.py:120-132 | after k commits the eligible items sort to the rest of the opening order |
| BatchProgress.StepKeepsProgress | src/computer_use_agent/batch_coordinator.py:692-745 | in an active batch every transition acts on the k-th key of the order, and only a commit moves k |
| BatchProgress.ActiveBatchProgress | src/computer_use_agent/batch_coordinator.py:609-745 | from opening to finish, under any ordinary operations of any sessions, the run has committed exactly the first k keys of the order |
| BatchOutcome.ContinuesIff | src/computer_use_agent/batch_coordinator.py:656-679 | with E eligible items at opening, limit M, k commits and no limit reached, the batch continues with the k-th key if and only if k = 0 or E <= M, and has drifted otherwise |
| BatchOutcome.DriftBlocks | src/computer_use_agent/batch_coordinator.py:692-790 | a drifted batch can neither claim nor finish |
| BatchOutcome.FinishesWhenComplete | src/computer_use_agent/batch_coordinator.py:747-790 | with the whole plan committed and matching usage finishing always succeeds, with the first reached limit or plan completion |
| BatchOutcome.FinishAndHandoffAgree | src/computer_use_agent/batch_coordinator.py:747-894 | after a finish the handoff ladder is ready for the same session, usage and time and recomputes the same code |
| BatchOutcome.HandoffNeedsSameUsage | src/computer_use_agent/batch_coordinator.py:826-892 | no other usage passes the handoff ladder |
| BatchOutcome.OpeningIsHonest | src/computer_use_agent/batch_coordinator.py:356-380 | a batch opened by a fresh run starts at the beginning of the order its plan is a head of |
| BatchOutcome.OpenedBatchRun | src/computer_use_agent/batch_coordinator.py:356-745 | the life of a batch from its opening: safe, and with exactly k commits in order |
| HeadItem.HeadWorks | src/computer_use_agent/batch_coordinator.py:419-607 | observing, extracting and committing the first planned item within its lease succeeds, whatever else is planned, and leaves it the only commit of the run with nothing in flight |
| HeadItem.HeadProgress | src/computer_use_agent/batch_coordinator.py:574-607 | that commit moves the batch on by exactly the first item of its order |
| BatchDrift.FirstItemCommits | src/computer_use_agent/batch_coordinator.py:356-607 | a fresh run that opens a batch commits the first item of the order by its four calls |
| BatchDrift.CutBatchSticks | src/computer_use_agent/batch_coordinator.py:656-679 | if the item limit is above one and below the eligible items, the batch so driven can then neither claim nor, below its limits, finish |
| BatchDrift.ThreeItemsStick | src/computer_use_agent/batch_coordinator.py:656-679 | a prepared campaign of three items, two at a time, sticks after its first commit |
| ApplicationCampaign.MeasureUsage | src/computer_use_agent/application_campaign_runtime.py:400-426 | the loop over the event log computes the usage, field by field |
| ApplicationRounds.StartWorks | src/computer_use_agent/application_campaign_runtime.py:221-323 | starting a startable campaign claims its least item |
| ApplicationRounds.RebuildsClaim | src/computer_use_agent/application_campaign_runtime.py:326-370 | the session rebuilt after a claim names the claimed item |
| ApplicationRounds.ExecuteWorks | src/computer_use_agent/application_campaign_runtime.py:443-583 | executing a claim within its lease commits it, finishes at the item limit and hands off |
| ApplicationRounds.LateWorkRefused | src/computer_use_agent/application_campaign_runtime.py:443-583 | an execution outside the lease is refused and changes nothing |
| ApplicationStall.ExpiredClaimStalls | src/computer_use_agent/application_campaign_runtime.py:221-811 | once the lease of a claim has passed, under any later calls and lease releases, the batch stays open, nothing more is committed, and every start, execution and resume is refused without a write |
| ApplicationResume.RebuildsFinished | src/computer_use_agent/application_campaign_runtime.py:586-643 | the session rebuilt after a handoff is the finished one |
| ApplicationResume.TakesOver | src/computer_use_agent/application_campaign_runtime.py:680-707 | the replacement run gets the heartbeat, whether the old one is fresh or stale |
| ApplicationResume.ResumeClaims | src/computer_use_agent/application_campaign_runtime.py:646-811 | with items left a resume claims the next ordinal for the replacement run |
| ApplicationResume.ResumeCompletes | src/computer_use_agent/application_campaign_runtime.py:714-763 | with nothing left a resume completes the campaign, with a terminal handoff and no heartbeat |
| ApplicationTheorem.ContinueCompletes | src/computer_use_agent/application_campaign_runtime.py:443-811 | from a claim on, as many rounds as items run without blocking, commit in order and complete |
| ApplicationTheorem.CampaignCompletes | src/computer_use_agent/application_campaign_runtime.py:221-811 | every startable campaign of n items, driven through n timely rounds, commits each item once in order and completes |
| ApplicationRuntime.Prepare | src/computer_use_agent/application_campaign_runtime.py:127-218 | the loop of appends creates the ledger with ordinals 1..n in the order of the keys, or refuses the input |
| ApplicationRuntime.PreparedSafe | src/computer_use_agent/application_campaign_runtime.py:127-218 | a prepared record meets the hypothesis of the safety theorem |
| ApplicationRuntime.PreparedOrder | src/computer_use_agent/application_campaign_runtime.py:193-205 | sorting a prepared ledger gives back the keys |
| ApplicationRuntime.StartBatch | src/computer_use_agent/application_campaign_runtime.py:221-323 | the ordered writes of a start, kept up to the first error |
| ApplicationRuntime.ExecuteClaimedItem | src/computer_use_agent/application_campaign_runtime.py:443-583 | the ordered writes of an execution, kept up to the first error |
| ApplicationRuntime.TakeOverHeartbeat | src/computer_use_agent/application_campaign_runtime.py:680-707 | recovery or transfer, by the state of the old heartbeat |
| ApplicationRuntime.CompleteCampaign | src/computer_use_agent/application_campaign_runtime.py:714-763 | the three terminal writes, kept up to the first error |
| ApplicationRuntime.ResumeBatch | src/computer_use_agent/application_campaign_runtime.py:646-811 | the ordered writes of a resume, kept up to the first error |
| ApplicationRuntime.PreparedCampaignCompletes | src/computer_use_agent/application_campaign_runtime.py:127-811 | a prepared campaign commits exactly its keys in the given order and completes |
| BossSessions.TailIsOrder | src/computer_use_agent/boss_campaign_item_runtime.py:104-118 | sorting the ledger tail from the first item gives the opening order |
| BossSessions.ClaimRebuildsSession | src/computer_use_agent/boss_campaign_item_runtime.py:85-151 | the session rebuilt after a claim is the one that was opened, plan included |
| BossSessions.StartBossWorks | src/computer_use_agent/boss_campaign_batch_runtime.py:87-204 | a start whose checks pass always succeeds and claims ordinal 1 |
| BossSessions.StartThenRebuild | src/computer_use_agent/boss_campaign_item_runtime.py:85-151 | right after a start the rebuilt session is the opened one |
| BossSessions.FinishRebuildsSession | src/computer_use_agent/boss_campaign_restart_runtime.py:92-204 | after one commit and a finish the rebuilt session is the opened one if and only if the usage reached a limit and fits the policy |
| BossSessions.FinishThenRebuild | src/computer_use_agent/boss_campaign_restart_runtime.py:92-204 | the same, from the finish and the handoff the coordinator wrote |
| BossSessions.RestartNeverCompletes | src/computer_use_agent/boss_campaign_restart_runtime.py:246-292 | with nothing eligible every restart fails, and has replaced the heartbeat exactly when the session was rebuilt and the takeover passed |
| BossSessions.StrandedForGood | src/computer_use_agent/boss_campaign_restart_runtime.py:155-187 | once the heartbeat belongs to another run than the last finished one, with nothing in flight, every sequence of starts, identity executions and restarts is refused and changes nothing |
| BossSessions.InterruptedDiscoveryBlocksStart | src/computer_use_agent/boss_campaign_batch_runtime.py:133-138 | once a crash persisted an item, no later observation lets the batch start |
| BossRestart.RebuiltReady | src/computer_use_agent/batch_coordinator.py:792-894 | a rebuilt session passes the handoff ladder whenever nothing is in flight and the heartbeat is fresh |
| BossRestart.RestartClaims | src/computer_use_agent/boss_campaign_restart_runtime.py:207-336 | with items left a restart claims the next ordinal for the fresh run |
| BossRestart.RestartThenRebuild | src/computer_use_agent/boss_campaign_restart_runtime.py:207-336 | the session rebuilt from that claim is the one the restart opened |
| BossRestart.RestartStrands | src/computer_use_agent/boss_campaign_restart_runtime.py:246-292 | with nothing left, the restart of a rebuilt session by another run takes the heartbeat, fails, and strands the campaign |
| BossRounds.BossStartWorks | src/computer_use_agent/boss_campaign_batch_runtime.py:87-204 | an accepted start claims ordinal 1 and leaves the batch working on the whole ledger in ordinal order |
| BossRounds.BossExecuteWorks | src/computer_use_agent/boss_campaign_item_runtime.py:200-363 | executing a claim within its lease commits it, finishes at the tool call limit and hands off with the next ordinal |
| BossRounds.BossExecutedRests | src/computer_use_agent/boss_campaign_item_runtime.py:284-345 | the record it leaves rebuilds to the session that was opened, with the rest of the order to do |
| BossRounds.BossRestartWorks | src/computer_use_agent/boss_campaign_restart_runtime.py:207-336 | with items left the restart claims the next ordinal and the batch works again |
| BossTheorem.BossRoundsReach | src/computer_use_agent/boss_campaign_item_runtime.py:200-363 | each round commits the next key of the order and claims the one after it; the round that commits the last key strands the campaign |
| BossTheorem.BossCampaignStrands | src/computer_use_agent/boss_campaign_restart_runtime.py:207-336 | any accepted BOSS campaign of n items has committed exactly ordinals 1..m in order after m timely rounds, and after n is fully committed, still running, and refuses every further start, identity execution and restart |
| BossDiscovery.StartIffUninterrupted | src/computer_use_agent/boss_campaign_batch_runtime.py:117-145 | a discovered campaign that meets the other checks is accepted if and only if no crash has persisted an item |
| BossDiscovery.CrashPersists | src/computer_use_agent/boss_campaign_discovery.py:315-328 | a crash after the first append of an accepted observation persists an item |
| BossDiscovery.OneCrashBlocks | src/computer_use_agent/boss_campaign_batch_runtime.py:133-138 | one crashed observation of one job, and no later observation lets a batch start |
| BossDiscovery.OneJobStrands | src/computer_use_agent/boss_campaign_restart_runtime.py:207-336 | one job seen twice, driven through one round, is committed and stranded for good |
| BossDiscovery.DiscoveredSafe | src/computer_use_agent/boss_campaign_discovery.py:278-351 | a discovered record meets the hypothesis of the safety theorem |
| BossRuntime.StartBossBatch | src/computer_use_agent/boss_campaign_batch_runtime.py:87-204 | the ordered writes of a start, kept up to the first error |
| BossRuntime.ExecuteBossItem | src/computer_use_agent/boss_campaign_item_runtime.py:200-363 | the ordered writes of an execution, kept up to the first error |
| BossRuntime.ResumeBossBatch | src/computer_use_agent/boss_campaign_restart_runtime.py:207-336 | the ordered writes of a restart, kept up to the first error |
| Discovery.FirstIds | src/computer_use_agent/boss_campaign_discovery.py:190-205 | the distinct public ids of a snapshot |
| Discovery.ParseIdentities | src/computer_use_agent/boss_campaign_discovery.py:184-205 | the loop collects the first occurrences in order, up to the limit, or refuses |
| Discovery.IdentitiesAccepted | src/computer_use_agent/boss_campaign_discovery.py:190-205 | parsed keys are distinct, at least one and at most fifty |
| Discovery.MaxOrdinal | src/computer_use_agent/boss_campaign_discovery.py:311-314 | the greatest ordinal of the ledger, zero for none |
| Discovery.RecordDiscoveries | src/computer_use_agent/boss_campaign_discovery.py:278-351 | the loop of appends and the pass record; a refused recording writes nothing |
| DiscoveryRuns.InterruptedWorks | src/computer_use_agent/boss_campaign_discovery.py:315-328 | a crash after some appends leaves exactly that many new keys behind |
| DiscoveryRuns.RecordWorks | src/computer_use_agent/application_campaign_discovery.py:187-255 | a recording whose checks pass appends every new key and its pass, and never fails half-way |
| DiscoveryRuns.PlayTidy | src/computer_use_agent/boss_campaign_discovery.py:231-351 | after any passes and crashes: ordinals 1..n in append order, every bound kept, the keys those contributed, the deficit the items crashes persisted |
| DiscoveryRuns.DiscoveryFromScratch | src/computer_use_agent/boss_campaign_discovery.py:246-268 | from an empty campaign, the counts of items and passes agree if and only if no crash has persisted an item |
| DiscoveryRuns.DeficitGrows | src/computer_use_agent/boss_campaign_discovery.py:246-250 | the deficit never decreases |
| DiscoveryRuns.ReplayAccepted | src/computer_use_agent/boss_campaign_discovery.py:297-314 | after a crash the same snapshot is accepted again and offers exactly the keys still missing |
| DiscoveryRuns.ReplayConverges | src/computer_use_agent/application_campaign_discovery.py:151-255 | however often a recording crashes, its replay is accepted and gives the ledger of the uninterrupted recording |

## Left out

- Files, locks, atomic replacement, path checks, size limits in bytes and JSON text: stores hold values, and each write is atomic.
- Syntax of identifiers, keys, digests and timestamps, and the campaign id carried by every record.
- JSON's infinities and NaN, which equal no number, and the sign of a float zero.
- `created_at`, `expires_at` and `issued_at` are stored as strings and compared as times; the model stores the times.
- `bind_adaptive_h7_plan`, and how evidence and comparisons are computed; their fields are inputs.
- URL parsing and text matching of snapshots: links arrive parsed; for the generic adapter the marker test and the candidate rules of `discovery_adapters.py` are not distinguished from those of BOSS.
- The desktop, provider and presence calls of the item runtimes; what a run reports is an input, and the semantic BOSS item runtime is modelled only in the sessions that are rebuilt from its records and the terminalization of an observed item.
- Run recorders and their check that a run id has left no checkpoint or trace; that run ids are fresh is a hypothesis of the theorems.
- Cancellation, process start and stop, and the memory streams of `bounded_stdio_client`; a receive is a chunk, a send is an event.
- The legacy `finish_batch`, which skips the ownership and in-flight checks of `finish_continued_batch`; the safety theorem does not cover it.
- Crashes inside start, execute and resume: a round runs to its end or to its first error. `ApplicationCampaign` keeps the writes made before an error.
- The boundary and code texts of item transitions beyond the ones the reducer tests, and attempt limits.
- The fixed synthetic campaign (`campaign_observation_runtime.py`), approval, evaluation, user interface and Win32 code.
