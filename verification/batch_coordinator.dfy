/**
  The preflight ladders and the durable steps of batch_coordinator.py, as functions
  of the campaign record.  `Coordinator` in coordinator.dfy performs them on a store.
*/
module BatchCoordinator {
  import opened Wrappers
  import opened Campaign
  import opened Batching

  datatype Session = Session(batchId: string, runId: RunId, policy: Policy, plan: Plan)

  /** The named outcomes of the preflights. */
  datatype Verdict =
    | Ready | CampaignNotRunning | BatchNotActive | BatchOwnerMismatch
    | HeartbeatMissing | HeartbeatStale | HeartbeatOwnerMismatch
    | ItemsInFlight | PlanDrift | UsageMismatch | LimitReached | PlanCompleted
    | BatchStillActive | FinishRecordMissing | FinishRecordMismatch | FinishReasonMismatch
    | ItemNotClaimed | ClaimSetMismatch | ClaimOwnerMismatch | ClaimLeaseStale
    | ItemStatusMismatch | InFlightSetMismatch | ItemOwnerMismatch
    | FinishedHandoffNotReady | HandoffRunMismatch | HandoffStateMismatch
    | ReplacementRunReused | ReplacementTimeMismatch
    | HandoffNotResumable | ActiveBatchRemains | ClaimsRemain
    | ResumeNotReady | NoEligible | ResumeNotExhausted
    | CampaignNotCompleted | ItemsNotComplete | TerminalHandoffNotReady

  datatype CoordinatorError =
    | AlreadyActive | LeaseInvalid | ClockDrift | StateDrift | NextItemInvalid
    | AttestationRequired | Blocked(verdict: Verdict) | ResumedPlanDrift | StoreFailed(error: StoreError)

  type Outcome<+T> = Result<T, CoordinatorError>

  function Lift<T>(r: Result<T, StoreError>): Outcome<T> {
    match r case Ok(v) => Ok(v) case Err(e) => Err(StoreFailed(e))
  }

  // ---------- shared guards ----------

  /** `_inspect_batch_ownership`; `Ready` is its OK. */
  function Ownership(s: Control, batchId: string, runId: RunId, now: int): Outcome<Verdict> {
    var active := ActiveBatch(s.batches);
    var freshness :- Lift(InspectHeartbeat(s.heartbeat, now));
    Ok(if s.manifest.status != Running then CampaignNotRunning
       else if active.None? then BatchNotActive
       else if active.value.batchId != batchId || active.value.runId != runId then BatchOwnerMismatch
       else if freshness == Missing then HeartbeatMissing
       else if s.heartbeat.value.runId != runId then HeartbeatOwnerMismatch
       else if freshness == Stale then HeartbeatStale
       else Ready)
  }

  predicate CommittedBy(items: Items, key: Key, runId: RunId) {
    key in items && items[key].status == Committed && items[key].runId == Some(runId)
  }

  function PrefixLength(items: Items, keys: seq<Key>, runId: RunId): (n: nat)
    ensures n <= |keys|
    ensures forall i | 0 <= i < n :: CommittedBy(items, keys[i], runId)
    ensures n < |keys| ==> !CommittedBy(items, keys[n], runId)
  {
    if keys == [] || !CommittedBy(items, keys[0], runId) then 0
    else 1 + PrefixLength(items, keys[1..], runId)
  }

  function CommittedByRun(items: Items, runId: RunId): set<Key> {
    set k | k in items && CommittedBy(items, k, runId)
  }

  /** The first planned key the run of the session has not committed. */
  function NextPlanned(items: Items, session: Session): Option<Key> {
    var n := PrefixLength(items, session.plan.keys, session.runId);
    if n < |session.plan.keys| then Some(session.plan.keys[n]) else None
  }

  // ---------- open ----------

  datatype Opening = Opened(control: Control, session: Session) | NotOpened(plan: Plan)

  /** `open_batch`, at the coordinator's own clock. */
  function OpenBatch(s: Control, batchId: string, runId: RunId, policy: Policy, clock: int): Outcome<Opening> {
    if ActiveBatch(s.batches).Some? then Err(AlreadyActive)
    else
      var plan := PlanBatch(s.items, policy, NO_USAGE);
      if plan.stop.Some? then Ok(NotOpened(plan))
      else
        var next :- Lift(AppendBatch(s, Started(batchId, runId, clock)));
        Ok(Opened(next, Session(batchId, runId, policy, plan)))
  }

  // ---------- continuation and claim ----------

  datatype Continuation = Continuation(state: Verdict, completed: nat, nextKey: Option<Key>, stop: Option<StopReason>)

  /** `inspect_continuation`. */
  function InspectContinuation(s: Control, session: Session, usage: Usage, now: int): Outcome<Continuation> {
    var verdict :- Ownership(s, session.batchId, session.runId, now);
    var planned := session.plan.keys;
    var completed := PrefixLength(s.items, planned, session.runId);
    var reason := StopOf(session.policy, usage);
    Ok(if verdict != Ready then Continuation(verdict, completed, None, None)
       else if InFlightKeys(s.items) != {} then Continuation(ItemsInFlight, completed, None, None)
       else if planned == [] || session.plan.stop.Some? then Continuation(PlanDrift, completed, None, None)
       else if CommittedByRun(s.items, session.runId) != KeySet(planned[..completed]) then
         Continuation(PlanDrift, completed, None, None)
       else if usage.itemsCompleted != completed then Continuation(UsageMismatch, completed, None, None)
       else if reason.Some? then Continuation(LimitReached, completed, None, reason)
       else if completed == |planned| then
         Continuation(if PlanBatch(s.items, session.policy, usage).stop == Some(NoEligibleItems) then PlanCompleted
                      else PlanDrift, completed, None, None)
       else
         var key := planned[completed];
         if && key in s.items && Eligible(s.items[key])
            && PlanBatch(s.items, session.policy, usage).keys == planned[completed..] then
           Continuation(Ready, completed, Some(key), None)
         else Continuation(PlanDrift, completed, None, None))
  }

  /** `claim_next_item`. */
  function ClaimNext(s: Control, session: Session, usage: Usage, now: int, lease: int): Outcome<Control> {
    if !(0 < lease <= MAX_ITEM_LEASE_SECONDS) then Err(LeaseInvalid)
    else
      var preflight :- InspectContinuation(s, session, usage, now);
      if preflight.state != Ready then Err(Blocked(preflight.state))
      else if preflight.nextKey.None? || preflight.nextKey.value !in s.items then Err(StateDrift)
      else
        var selected := s.items[preflight.nextKey.value];
        if !Eligible(selected) then Err(StateDrift)
        else if selected.at > now then Err(ClockDrift)
        else Lift(Append(s, ClaimOf(selected, session.runId, now, lease)))
  }

  function ClaimOf(selected: Item, runId: RunId, now: int, lease: int): Item
    requires 0 < lease <= MAX_ITEM_LEASE_SECONDS
  {
    ItemData(selected.ordinal, selected.key, Claimed, selected.attempt + 1, now,
             Some(runId), Some(now + lease), Some(ClaimBoundary), None)
  }

  // ---------- observe, extract, commit ----------

  /** `inspect_claimed_item`. */
  function InspectClaimed(s: Control, session: Session, key: Key, now: int): Outcome<Verdict> {
    var verdict :- Ownership(s, session.batchId, session.runId, now);
    Ok(if verdict != Ready then verdict
       else if key !in s.items || s.items[key].status != Claimed then ItemNotClaimed
       else if |Claims(s.items)| != 1 then ClaimSetMismatch
       else if s.items[key].runId != Some(session.runId) then ClaimOwnerMismatch
       else if LeaseStale(s.items[key], now) then ClaimLeaseStale
       else Ready)
  }

  /** `inspect_observed_item` and `inspect_extracted_item`. */
  function InspectProgressed(s: Control, session: Session, key: Key, status: ItemStatus, now: int): Outcome<Verdict> {
    var verdict :- Ownership(s, session.batchId, session.runId, now);
    Ok(if verdict != Ready then verdict
       else if key !in s.items || s.items[key].status != status then ItemStatusMismatch
       else if InFlightKeys(s.items) != {key} then InFlightSetMismatch
       else if s.items[key].runId != Some(session.runId) then ItemOwnerMismatch
       else Ready)
  }

  /** The exact continued plan item, when the usage agrees with the committed prefix. */
  function NextItem(s: Control, session: Session, usage: Usage): Outcome<Key> {
    var completed := PrefixLength(s.items, session.plan.keys, session.runId);
    if usage.itemsCompleted != completed || completed >= |session.plan.keys| then Err(NextItemInvalid)
    else Ok(session.plan.keys[completed])
  }

  /** The three steps of `campaign_item_progress`. */
  function Progressed(i: Item, status: ItemStatus, runId: RunId, now: int, boundary: Boundary, content: Option<Hash>): Item
    requires status in {Observed, Extracted, Committed} && (status == Committed <==> content.Some?)
  {
    ItemData(i.ordinal, i.key, status, i.attempt, now, Some(runId), None, Some(boundary), content)
  }

  /** `record_next_claimed_item_observed`. */
  function RecordObserved(s: Control, session: Session, usage: Usage, now: int, attested: bool): Outcome<Control> {
    if !attested then Err(AttestationRequired)
    else
      var key :- NextItem(s, session, usage);
      var verdict :- InspectClaimed(s, session, key, now);
      if verdict != Ready then Err(Blocked(verdict))
      else if key !in s.items || s.items[key].status != Claimed then Err(StateDrift)
      else if s.items[key].at > now then Err(ClockDrift)
      else Lift(Append(s, Progressed(s.items[key], Observed, session.runId, now, Reobserved, None)))
  }

  /** `record_next_observed_item_extracted`. */
  function RecordExtracted(s: Control, session: Session, usage: Usage, now: int, attested: bool): Outcome<Control> {
    if !attested then Err(AttestationRequired)
    else
      var key :- NextItem(s, session, usage);
      var verdict :- InspectProgressed(s, session, key, Observed, now);
      if verdict != Ready then Err(Blocked(verdict))
      else if key !in s.items || s.items[key].status != Observed then Err(StateDrift)
      else if s.items[key].at > now then Err(ClockDrift)
      else Lift(Append(s, Progressed(s.items[key], Extracted, session.runId, now, ExtractionDone, None)))
  }

  /** `record_next_extracted_item_committed`. */
  function RecordCommitted(s: Control, session: Session, usage: Usage, now: int, attested: bool, content: Hash): Outcome<Control> {
    if !attested then Err(AttestationRequired)
    else
      var key :- NextItem(s, session, usage);
      var verdict :- InspectProgressed(s, session, key, Extracted, now);
      if verdict != Ready then Err(Blocked(verdict))
      else if key !in s.items || s.items[key].status != Extracted then Err(StateDrift)
      else if s.items[key].at > now then Err(ClockDrift)
      else Lift(Append(s, Progressed(s.items[key], Committed, session.runId, now, ResultVerified, Some(content))))
  }

  // ---------- finish and handoff ----------

  /** The code `finish_continued_batch` persists, or the state that blocks it. */
  function FinishCode(preflight: Continuation): Outcome<StopCode> {
    if preflight.state == LimitReached then
      if preflight.stop.None? then Err(StateDrift) else Ok(Stopped(preflight.stop.value))
    else if preflight.state == PlanCompleted then
      if preflight.stop.Some? then Err(StateDrift) else Ok(PlanComplete)
    else Err(Blocked(preflight.state))
  }

  /** `finish_continued_batch`. */
  function FinishBatch(s: Control, session: Session, usage: Usage, now: int): Outcome<(Control, StopCode)> {
    var preflight :- InspectContinuation(s, session, usage, now);
    var code :- FinishCode(preflight);
    var next :- Lift(AppendBatch(s, Finished(session.batchId, session.runId, now, code, usage)));
    Ok((next, code))
  }

  function LastBatch(s: Control): Option<BatchTransition> {
    if s.batches == [] then None else Some(s.batches[|s.batches| - 1])
  }

  /** The code the finish record must carry, recomputed from the current state. */
  function ExpectedCode(s: Control, session: Session, usage: Usage): Option<StopCode> {
    var reason := StopOf(session.policy, usage);
    if reason.Some? then Some(Stopped(reason.value))
    else if && PrefixLength(s.items, session.plan.keys, session.runId) == |session.plan.keys|
            && PlanBatch(s.items, session.policy, usage).stop == Some(NoEligibleItems) then Some(PlanComplete)
    else None
  }

  /** `inspect_finished_handoff`. */
  function InspectFinished(s: Control, session: Session, usage: Usage, now: int): Outcome<Verdict> {
    var freshness :- Lift(InspectHeartbeat(s.heartbeat, now));
    var last := LastBatch(s);
    var planned := session.plan.keys;
    var completed := PrefixLength(s.items, planned, session.runId);
    Ok(if s.manifest.status != Running then CampaignNotRunning
       else if ActiveBatch(s.batches).Some? then BatchStillActive
       else if last.None? || !last.value.Finished? then FinishRecordMissing
       else if last.value.batchId != session.batchId || last.value.runId != session.runId then BatchOwnerMismatch
       else if freshness == Missing then HeartbeatMissing
       else if s.heartbeat.value.runId != session.runId then HeartbeatOwnerMismatch
       else if freshness == Stale then HeartbeatStale
       else if InFlightKeys(s.items) != {} then ItemsInFlight
       else if planned == [] || session.plan.stop.Some? then PlanDrift
       else if CommittedByRun(s.items, session.runId) != KeySet(planned[..completed]) then PlanDrift
       else if usage.itemsCompleted != completed then UsageMismatch
       else if last.value.usage != usage then FinishRecordMismatch
       else if ExpectedCode(s, session, usage) != Some(last.value.code) then FinishReasonMismatch
       else Ready)
  }

  /** `write_finished_handoff`, at the store's own clock. */
  function WriteFinishedHandoff(s: Control, session: Session, usage: Usage, now: int, clock: int): Outcome<Control> {
    var verdict :- InspectFinished(s, session, usage, now);
    if verdict != Ready then Err(Blocked(verdict))
    else
      var existing := ReadHandoff(s);
      if existing.Ok? && existing.value.lastRunId == session.runId then Ok(s)
      else Ok(WriteHandoff(s, session.runId, clock))
  }

  // ---------- transfer and resume ----------

  /** `inspect_finished_run_transfer`. */
  function InspectTransfer(s: Control, session: Session, usage: Usage, now: int, replacement: Heartbeat): Outcome<Verdict> {
    var finished :- InspectFinished(s, session, usage, now);
    var handoff :- Lift(ReadHandoff(s));
    Ok(if finished != Ready then FinishedHandoffNotReady
       else if handoff.lastRunId != session.runId then HandoffRunMismatch
       else if handoff.nextOrdinal != NextOrdinal(s.items) then HandoffStateMismatch
       else if s.heartbeat.None? || s.heartbeat.value.runId != session.runId then HeartbeatOwnerMismatch
       else if replacement.runId == session.runId then ReplacementRunReused
       else if replacement.startedAt != now || replacement.heartbeatAt != now then ReplacementTimeMismatch
       else Ready)
  }

  /** `replace_finished_run_heartbeat_owner`. */
  function TransferOwner(s: Control, session: Session, usage: Usage, now: int, replacement: Heartbeat): Outcome<Control> {
    var verdict :- InspectTransfer(s, session, usage, now, replacement);
    if verdict != Ready then Err(Blocked(verdict))
    else Lift(ReplaceOwner(s, session.runId, replacement, now))
  }

  /** `inspect_campaign_resume` (campaign_resume.py). */
  function InspectResume(s: Control, runId: RunId, now: int): Outcome<Verdict> {
    var handoff :- Lift(ReadHandoff(s));
    var freshness :- Lift(InspectHeartbeat(s.heartbeat, now));
    Ok(if handoff.directive != Running then HandoffNotResumable
       else if freshness == Missing then HeartbeatMissing
       else if s.heartbeat.value.runId != runId then HeartbeatOwnerMismatch
       else if freshness == Stale then HeartbeatStale
       else if ActiveBatch(s.batches).Some? then ActiveBatchRemains
       else if Claims(s.items) != {} then ClaimsRemain
       else if InFlightKeys(s.items) != {} then ItemsInFlight
       else Ready)
  }

  datatype ResumePlan = ResumePlan(preflight: Verdict, batch: Option<Plan>)

  /** `plan_campaign_resume` (campaign_resume_planning.py). */
  function PlanResume(s: Control, runId: RunId, now: int, policy: Policy): Outcome<ResumePlan> {
    var preflight :- InspectResume(s, runId, now);
    Ok(ResumePlan(preflight, if preflight != Ready then None else Some(PlanBatch(s.items, policy, NO_USAGE))))
  }

  predicate NonemptyPlan(r: ResumePlan) {
    r.preflight == Ready && r.batch.Some? && r.batch.value.keys != [] && r.batch.value.stop.None?
  }

  /** `open_resumed_batch`. */
  function OpenResumed(s: Control, batchId: string, runId: RunId, now: int, policy: Policy): Outcome<Option<(Control, Session)>> {
    var resume :- PlanResume(s, runId, now, policy);
    if !NonemptyPlan(resume) then Ok(None)
    else
      var next :- Lift(AppendBatch(s, Started(batchId, runId, now)));
      Ok(Some((next, Session(batchId, runId, policy, resume.batch.value))))
  }

  datatype TransferredResume = TransferredResume(state: Verdict, nextOrdinal: int, keys: seq<Key>)

  /** `inspect_transferred_run_resume`. */
  function InspectTransferred(s: Control, session: Session, replacement: RunId, now: int, policy: Policy): Outcome<TransferredResume> {
    var resume :- PlanResume(s, replacement, now, policy);
    var handoff :- Lift(ReadHandoff(s));
    var last := LastBatch(s);
    var state :=
      if last.None? || !last.value.Finished? || last.value.batchId != session.batchId || last.value.runId != session.runId then
        FinishRecordMismatch
      else if handoff.lastRunId != session.runId then HandoffRunMismatch
      else if resume.preflight != Ready then ResumeNotReady
      else if !NonemptyPlan(resume) then NoEligible
      else Ready;
    Ok(TransferredResume(state, handoff.nextOrdinal, if resume.batch.None? then [] else resume.batch.value.keys))
  }

  /** `open_transferred_resumed_batch`. */
  function OpenTransferred(s: Control, session: Session, batchId: string, replacement: RunId, now: int, policy: Policy): Outcome<(Control, Session)> {
    var preflight :- InspectTransferred(s, session, replacement, now, policy);
    if preflight.state != Ready then Err(Blocked(preflight.state))
    else
      var resumed :- OpenResumed(s, batchId, replacement, now, policy);
      if resumed.None? || resumed.value.1.plan.keys != preflight.keys then Err(ResumedPlanDrift)
      else Ok(resumed.value)
  }

  // ---------- completion ----------

  /** `inspect_exhausted_campaign_completion`. */
  function InspectExhausted(s: Control, session: Session, replacement: RunId, now: int, policy: Policy): Outcome<Verdict> {
    if s.manifest.status != Running then Ok(CampaignNotRunning)
    else
      var resume :- InspectTransferred(s, session, replacement, now, policy);
      Ok(if resume.state != NoEligible then ResumeNotExhausted else Ready)
  }

  /** `complete_exhausted_campaign`. */
  function CompleteExhausted(s: Control, session: Session, replacement: RunId, now: int, policy: Policy): Outcome<Control> {
    var verdict :- InspectExhausted(s, session, replacement, now, policy);
    if verdict != Ready then Err(Blocked(verdict)) else Lift(CompleteCampaign(s, now))
  }

  predicate FinishedBy(s: Control, session: Session) {
    var last := LastBatch(s);
    last.Some? && last.value.Finished? && last.value.batchId == session.batchId && last.value.runId == session.runId
  }

  /** `inspect_completed_campaign_handoff`. */
  function InspectCompletedHandoff(s: Control, session: Session, replacement: RunId, now: int): Outcome<Verdict> {
    var freshness :- Lift(InspectHeartbeat(s.heartbeat, now));
    Ok(if s.manifest.status != Completed then CampaignNotCompleted
       else if !FinishedBy(s, session) then FinishRecordMismatch
       else if freshness == Missing then HeartbeatMissing
       else if s.heartbeat.value.runId != replacement then HeartbeatOwnerMismatch
       else if freshness == Stale then HeartbeatStale
       else if s.items == map[] || IncompleteItems(s.items) != {} then ItemsNotComplete
       else Ready)
  }

  /** `write_completed_campaign_handoff`. */
  function WriteCompletedHandoff(s: Control, session: Session, replacement: RunId, now: int, clock: int): Outcome<Control> {
    var verdict :- InspectCompletedHandoff(s, session, replacement, now);
    if verdict != Ready then Err(Blocked(verdict))
    else
      var existing := ReadHandoff(s);
      if existing.Ok? && existing.value.lastRunId == replacement then Ok(s)
      else Ok(WriteHandoff(s, replacement, clock))
  }

  /** `inspect_completed_campaign_heartbeat_retirement`. */
  function InspectRetirement(s: Control, session: Session, replacement: RunId): Verdict {
    if s.manifest.status != Completed then CampaignNotCompleted
    else if !FinishedBy(s, session) then FinishRecordMismatch
    else if ReadHandoff(s).Err? then TerminalHandoffNotReady
    else if ReadHandoff(s).value.lastRunId != replacement then HandoffRunMismatch
    else if s.heartbeat.None? then HeartbeatMissing
    else if s.heartbeat.value.runId != replacement then HeartbeatOwnerMismatch
    else if s.items == map[] || IncompleteItems(s.items) != {} then ItemsNotComplete
    else Ready
  }

  /** `remove_completed_campaign_heartbeat`. */
  function RetireHeartbeat(s: Control, session: Session, replacement: RunId): Outcome<Control> {
    var verdict := InspectRetirement(s, session, replacement);
    if verdict in {Ready, HeartbeatMissing} then Lift(RemoveHeartbeat(s, replacement)) else Err(Blocked(verdict))
  }
}
