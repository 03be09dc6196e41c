/** The BOSS start, execution and restart as they act on a store. */
module BossRuntime {
  import opened Wrappers
  import opened Campaign
  import opened CampaignStores
  import opened Batching
  import opened BatchCoordinator
  import opened Coordinators
  import opened ApplicationCampaign
  import opened ApplicationRuntime
  import opened BossCampaign
  import Discovery

  /** `_start_boss_batch` on a store. */
  method StartBossBatch(store: CampaignStore, c: Discovery.Contract, policy: Policy, runId: RunId, now: int, clock: int)
    returns (r: Result<Item, RuntimeError>)
    requires store.Valid()
    modifies store
    ensures store.Valid()
    ensures Attempt(store.Snapshot(), r) == StartBoss(old(store.Snapshot()), c, policy, runId, now, clock)
  {
    hide BatchCoordinator.OpenBatch, ClaimNext, StartAccepted, Campaign.WriteHeartbeat, FoldItems, ReduceItems, BatchesAccepted;
    var s := store.Read();
    if !StartAccepted(s, c, now) {
      return Err(StateInvalid);
    }
    var beaten := store.WriteHeartbeat(LeasedHeartbeat(runId, now));
    if beaten.Err? {
      return Err(StateInvalid);
    }
    var coordinator := new Coordinator(store);
    var batch := coordinator.OpenBatch(StartedBatchId(runId), runId, policy, clock);
    if batch.Err? {
      return Err(StateInvalid);
    }
    if batch.value.Err? {
      var plan := batch.value.error;
      return Err(if plan.stop.Some? then StartBlocked(plan.stop.value) else StartInvalid);
    }
    var session := batch.value.value;
    var claimed := coordinator.ClaimNextItem(session, NO_USAGE, now, ITEM_LEASE_SECONDS);
    if claimed.Err? {
      return Err(StateInvalid);
    }
    if || session.plan.keys == [] || !ClaimedAs(Some(claimed.value), session.plan.keys[0], runId)
       || claimed.value.ordinal != 1 {
      return Err(ClaimInvalid);
    }
    r := Ok(claimed.value);
  }

  /** `_execute_prepared_claimed_boss_identity` on a store; `work` is what the observation reported. */
  method ExecuteBossItem(store: CampaignStore, c: Discovery.Contract, runId: RunId, now: int, clock: int, work: BossWork)
    returns (r: Result<StopCode, RuntimeError>)
    requires store.Valid()
    modifies store
    ensures store.Valid()
    ensures Attempt(store.Snapshot(), r) == ExecuteBoss(old(store.Snapshot()), c, runId, now, clock, work)
  {
    hide RecordObserved, RecordExtracted, RecordCommitted, FinishBatch, BatchCoordinator.WriteFinishedHandoff,
      ClaimedBossSession, InspectNextClaimed, CountStatus, FoldItems, ReduceItems, BatchesAccepted;
    var s := store.Read();
    var claim := ClaimedBossSession(s, c, runId);
    if claim.Err? {
      return Err(claim.error);
    }
    var session := claim.value.session;
    var preflight := InspectNextClaimed(s, session, NO_USAGE, now);
    if preflight.Err? {
      return Err(CommitFailed);
    }
    if preflight.value.0 != Ready || preflight.value.1 != claim.value.key {
      return Err(ClaimDrift);
    }
    if work.BossLost? {
      return Err(RunFailed(work.code));
    }
    var coordinator := new Coordinator(store);
    var observed := coordinator.RecordNextClaimedItemObserved(session, NO_USAGE, now, true, true);
    if observed.Err? {
      return Err(CommitFailed);
    }
    var extracted := coordinator.RecordNextObservedItemExtracted(session, NO_USAGE, now, true);
    if extracted.Err? {
      return Err(CommitFailed);
    }
    var committed := coordinator.RecordNextExtractedItemCommitted(session, NO_USAGE, now, true, work.content);
    if committed.Err? {
      return Err(CommitFailed);
    }
    if committed.value.status != Committed || committed.value.content != Some(work.content) {
      return Err(CommitInvalid);
    }
    var usage := BossUsage(work);
    var code := coordinator.FinishContinuedBatch(session, usage, now);
    if code.Err? {
      return Err(CommitFailed);
    }
    var handoff := coordinator.WriteFinishedHandoff(session, usage, now, clock);
    if handoff.Err? {
      return Err(CommitFailed);
    }
    s := store.Read();
    if || code.value != Stopped(ToolCallLimit) || handoff.value.lastRunId != session.runId
       || handoff.value.completed != CountStatus(s.items, Committed) || handoff.value.nextOrdinal != claim.value.ordinal + 1 {
      return Err(RuntimeError.HandoffInvalid);
    }
    r := Ok(code.value);
  }

  /** `_resume_finished_boss_batch_after_restart` on a store. */
  method ResumeBossBatch(store: CampaignStore, c: Discovery.Contract, policy: Policy, semantic: bool, runId: RunId, now: int)
    returns (r: Result<Item, RuntimeError>)
    requires store.Valid()
    modifies store
    ensures store.Valid()
    ensures Attempt(store.Snapshot(), r) == ResumeBoss(old(store.Snapshot()), c, policy, semantic, runId, now)
  {
    hide FinishedBossSession, TakeOver, InspectTransferred, OpenTransferred, ClaimNext, FoldItems, ReduceItems, BatchesAccepted;
    var s := store.Read();
    var rebuilt := FinishedBossSession(s, c, policy, semantic);
    if rebuilt.Err? {
      return Err(rebuilt.error);
    }
    var finished := rebuilt.value;
    var replacement := LeasedHeartbeat(runId, now);
    var coordinator := new Coordinator(store);
    var heartbeat := TakeOverHeartbeat(coordinator, finished.session, finished.usage, now, replacement);
    if heartbeat.Err? {
      return Err(heartbeat.error);
    }
    s := store.Read();
    var resume := InspectTransferred(s, finished.session, runId, now, policy);
    if resume.Err? {
      return Err(ResumeFailed);
    }
    if || s.heartbeat != Some(replacement) || resume.value.state != Ready || resume.value.keys == []
       || resume.value.nextOrdinal != finished.nextOrdinal {
      return Err(ResumeEvidenceInvalid);
    }
    var batch := coordinator.OpenTransferredResumedBatch(finished.session, ResumedBatchId(runId), runId, now, policy);
    if batch.Err? {
      return Err(ResumeFailed);
    }
    var claimed := coordinator.ClaimNextItem(batch.value, NO_USAGE, now, ITEM_LEASE_SECONDS);
    if claimed.Err? {
      return Err(ResumeFailed);
    }
    if !ClaimedAs(Some(claimed.value), resume.value.keys[0], runId) || claimed.value.ordinal != finished.nextOrdinal {
      return Err(ClaimInvalid);
    }
    r := Ok(claimed.value);
  }
}
