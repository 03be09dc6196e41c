/**
  `BatchCoordinator` as the object it is: ladders of early returns over a store, and
  the writes that follow them.  Every method is specified by the function of module
  `BatchCoordinator` on the record the store holds; a refused call writes nothing.
*/
module Coordinators {
  import opened Wrappers
  import opened Campaign
  import opened CampaignStores
  import opened Batching
  import B = BatchCoordinator
  import opened BatchCoordinator

  /** The call did what the function on records says, and nothing on an error. */
  predicate Performed<T>(before: Control, after: Control, r: Outcome<T>, spec: Outcome<Control>) {
    match spec
    case Ok(next) => r.Ok? && after == next
    case Err(e) => r == Err(e) && after == before
  }

  /** `_committed_plan_prefix`: count the committed head of the plan, and collect what the run committed. */
  method CommittedPlanPrefix(items: Items, keys: seq<Key>, runId: RunId) returns (completed: nat, committed: set<Key>)
    ensures completed == PrefixLength(items, keys, runId)
    ensures committed == CommittedByRun(items, runId)
  {
    completed := 0;
    assert keys[0..] == keys;
    while completed < |keys|
      invariant completed <= |keys|
      invariant PrefixLength(items, keys, runId) == completed + PrefixLength(items, keys[completed..], runId)
    {
      if keys[completed] !in items {
        break;
      }
      var item := items[keys[completed]];
      if item.status != Committed || item.runId != Some(runId) {
        break;
      }
      assert keys[completed..][1..] == keys[completed + 1..];
      completed := completed + 1;
    }
    committed := set k | k in items && items[k].status == Committed && items[k].runId == Some(runId);
  }

  class Coordinator {
    const store: CampaignStore

    constructor (store: CampaignStore)
      ensures this.store == store
    {
      this.store := store;
    }

    method InspectOwnership(s: Control, batchId: string, runId: RunId, now: int) returns (r: Outcome<Verdict>)
      ensures r == Ownership(s, batchId, runId, now)
    {
      var active := ActiveBatch(s.batches);
      var freshness := InspectHeartbeat(s.heartbeat, now);
      if freshness.Err? {
        return Err(StoreFailed(freshness.error));
      }
      if s.manifest.status != Running {
        return Ok(CampaignNotRunning);
      }
      if active.None? {
        return Ok(BatchNotActive);
      }
      if active.value.batchId != batchId || active.value.runId != runId {
        return Ok(BatchOwnerMismatch);
      }
      if freshness.value == Missing {
        return Ok(HeartbeatMissing);
      }
      if s.heartbeat.value.runId != runId {
        return Ok(HeartbeatOwnerMismatch);
      }
      r := Ok(if freshness.value == Stale then HeartbeatStale else Ready);
    }

    method OpenBatch(batchId: string, runId: RunId, policy: Policy, clock: int) returns (r: Outcome<Result<Session, Plan>>)
      requires store.Valid()
      modifies store
      ensures store.Valid()
      ensures match B.OpenBatch(old(store.Snapshot()), batchId, runId, policy, clock)
              case Ok(Opened(next, session)) => r == Ok(Ok(session)) && store.Snapshot() == next
              case Ok(NotOpened(plan)) => r == Ok(Err(plan)) && store.Snapshot() == old(store.Snapshot())
              case Err(e) => r == Err(e) && store.Snapshot() == old(store.Snapshot())
    {
      var batches := store.ReadBatches();
      if batches.active.Some? {
        return Err(AlreadyActive);
      }
      var items := store.ReadLedger();
      var plan := PlanBatch(items, policy, NO_USAGE);
      if plan.stop.Some? {
        return Ok(Err(plan));
      }
      var started := store.AppendBatch(Started(batchId, runId, clock));
      if started.Err? {
        return Err(StoreFailed(started.error));
      }
      r := Ok(Ok(Session(batchId, runId, policy, plan)));
    }

    method InspectContinuation(session: Session, usage: Usage, now: int) returns (r: Outcome<Continuation>)
      requires store.Valid()
      ensures r == B.InspectContinuation(store.Snapshot(), session, usage, now)
    {
      var s := store.Read();
      var ownership := InspectOwnership(s, session.batchId, session.runId, now);
      if ownership.Err? {
        return Err(ownership.error);
      }
      var planned := session.plan.keys;
      var completed, committed := CommittedPlanPrefix(s.items, planned, session.runId);
      var reason := StopOf(session.policy, usage);
      hide PrefixLength, CommittedByRun, Ownership, StopOf, PlanBatch;
      if ownership.value != Ready {
        return Ok(Continuation(ownership.value, completed, None, None));
      }
      if InFlightKeys(s.items) != {} {
        return Ok(Continuation(ItemsInFlight, completed, None, None));
      }
      if planned == [] || session.plan.stop.Some? || committed != KeySet(planned[..completed]) {
        return Ok(Continuation(PlanDrift, completed, None, None));
      }
      if usage.itemsCompleted != completed {
        return Ok(Continuation(UsageMismatch, completed, None, None));
      }
      if reason.Some? {
        return Ok(Continuation(LimitReached, completed, None, reason));
      }
      var plan := PlanBatch(s.items, session.policy, usage);
      if completed == |planned| {
        return Ok(Continuation(if plan.stop == Some(NoEligibleItems) then PlanCompleted else PlanDrift, completed, None, None));
      }
      var key := planned[completed];
      if key !in s.items || !Eligible(s.items[key]) || plan.keys != planned[completed..] {
        return Ok(Continuation(PlanDrift, completed, None, None));
      }
      r := Ok(Continuation(Ready, completed, Some(key), None));
    }

    method ClaimNextItem(session: Session, usage: Usage, now: int, lease: int) returns (r: Outcome<Item>)
      requires store.Valid()
      modifies store
      ensures store.Valid()
      ensures Performed(old(store.Snapshot()), store.Snapshot(), r, ClaimNext(old(store.Snapshot()), session, usage, now, lease))
      ensures r.Ok? ==> store.Snapshot().history == old(store.Snapshot()).history + [r.value]
    {
      hide B.InspectContinuation, FoldItems, ReduceItems, BatchesAccepted;
      if !(0 < lease <= MAX_ITEM_LEASE_SECONDS) {
        return Err(LeaseInvalid);
      }
      var preflight := InspectContinuation(session, usage, now);
      if preflight.Err? {
        return Err(preflight.error);
      }
      if preflight.value.state != Ready {
        return Err(Blocked(preflight.value.state));
      }
      var items := store.ReadLedger();
      if preflight.value.nextKey.None? || preflight.value.nextKey.value !in items {
        return Err(StateDrift);
      }
      var selected := items[preflight.value.nextKey.value];
      if !Eligible(selected) {
        return Err(StateDrift);
      }
      if selected.at > now {
        return Err(ClockDrift);
      }
      var claimed := store.Append(ClaimOf(selected, session.runId, now, lease));
      if claimed.Err? {
        return Err(StoreFailed(claimed.error));
      }
      r := Ok(claimed.value);
    }

    /** The planned key an advance acts on. */
    method NextPlannedItem(items: Items, session: Session, usage: Usage) returns (r: Outcome<Key>)
      ensures forall s: Control | s.items == items :: r == NextItem(s, session, usage)
    {
      var completed, _ := CommittedPlanPrefix(items, session.plan.keys, session.runId);
      if usage.itemsCompleted != completed || completed >= |session.plan.keys| {
        return Err(NextItemInvalid);
      }
      r := Ok(session.plan.keys[completed]);
    }

    method RecordNextClaimedItemObserved(session: Session, usage: Usage, now: int, applicationVerified: bool, identityVerified: bool)
      returns (r: Outcome<Item>)
      requires store.Valid()
      modifies store
      ensures store.Valid()
      ensures Performed(old(store.Snapshot()), store.Snapshot(), r,
                        RecordObserved(old(store.Snapshot()), session, usage, now, applicationVerified && identityVerified))
      ensures r.Ok? ==> store.Snapshot().history == old(store.Snapshot()).history + [r.value]
    {
      hide NextItem, InspectClaimed, FoldItems, ReduceItems, BatchesAccepted;
      if !applicationVerified || !identityVerified {
        return Err(AttestationRequired);
      }
      var s := store.Read();
      var key := NextPlannedItem(s.items, session, usage);
      if key.Err? {
        return Err(key.error);
      }
      var preflight := InspectClaimed(s, session, key.value, now);
      if preflight.Err? {
        return Err(preflight.error);
      }
      if preflight.value != Ready {
        return Err(Blocked(preflight.value));
      }
      r := Advance(s, key.value, Claimed, Observed, session.runId, now, Reobserved, None);
    }

    method RecordNextObservedItemExtracted(session: Session, usage: Usage, now: int, extractionCompleted: bool) returns (r: Outcome<Item>)
      requires store.Valid()
      modifies store
      ensures store.Valid()
      ensures Performed(old(store.Snapshot()), store.Snapshot(), r,
                        RecordExtracted(old(store.Snapshot()), session, usage, now, extractionCompleted))
      ensures r.Ok? ==> store.Snapshot().history == old(store.Snapshot()).history + [r.value]
    {
      hide NextItem, InspectProgressed, FoldItems, ReduceItems, BatchesAccepted;
      if !extractionCompleted {
        return Err(AttestationRequired);
      }
      var s := store.Read();
      var key := NextPlannedItem(s.items, session, usage);
      if key.Err? {
        return Err(key.error);
      }
      var preflight := InspectProgressed(s, session, key.value, Observed, now);
      if preflight.Err? {
        return Err(preflight.error);
      }
      if preflight.value != Ready {
        return Err(Blocked(preflight.value));
      }
      r := Advance(s, key.value, Observed, Extracted, session.runId, now, ExtractionDone, None);
    }

    method RecordNextExtractedItemCommitted(session: Session, usage: Usage, now: int, resultVerified: bool, content: Hash)
      returns (r: Outcome<Item>)
      requires store.Valid()
      modifies store
      ensures store.Valid()
      ensures Performed(old(store.Snapshot()), store.Snapshot(), r,
                        RecordCommitted(old(store.Snapshot()), session, usage, now, resultVerified, content))
      ensures r.Ok? ==> store.Snapshot().history == old(store.Snapshot()).history + [r.value]
    {
      hide NextItem, InspectProgressed, FoldItems, ReduceItems, BatchesAccepted;
      if !resultVerified {
        return Err(AttestationRequired);
      }
      var s := store.Read();
      var key := NextPlannedItem(s.items, session, usage);
      if key.Err? {
        return Err(key.error);
      }
      var preflight := InspectProgressed(s, session, key.value, Extracted, now);
      if preflight.Err? {
        return Err(preflight.error);
      }
      if preflight.value != Ready {
        return Err(Blocked(preflight.value));
      }
      r := Advance(s, key.value, Extracted, Committed, session.runId, now, ResultVerified, Some(content));
    }

    /** One step of `campaign_item_progress`. */
    method Advance(s: Control, key: Key, from: ItemStatus, status: ItemStatus, runId: RunId, now: int, boundary: Boundary, content: Option<Hash>)
      returns (r: Outcome<Item>)
      requires store.Valid() && s == store.Snapshot()
      requires status in {Observed, Extracted, Committed} && (status == Committed <==> content.Some?)
      modifies store
      ensures store.Valid()
      ensures Performed(s, store.Snapshot(), r,
                if key !in s.items || s.items[key].status != from then Err(StateDrift)
                else if s.items[key].at > now then Err(ClockDrift)
                else Lift(Campaign.Append(s, Progressed(s.items[key], status, runId, now, boundary, content))))
      ensures r.Ok? ==> store.Snapshot().history == s.history + [r.value]
    {
      if key !in s.items || s.items[key].status != from {
        return Err(StateDrift);
      }
      if s.items[key].at > now {
        return Err(ClockDrift);
      }
      var advanced := store.Append(Progressed(s.items[key], status, runId, now, boundary, content));
      if advanced.Err? {
        return Err(StoreFailed(advanced.error));
      }
      r := Ok(advanced.value);
    }

    method FinishContinuedBatch(session: Session, usage: Usage, now: int) returns (r: Outcome<StopCode>)
      requires store.Valid()
      modifies store
      ensures store.Valid()
      ensures match FinishBatch(old(store.Snapshot()), session, usage, now)
              case Ok((next, code)) => r == Ok(code) && store.Snapshot() == next
              case Err(e) => r == Err(e) && store.Snapshot() == old(store.Snapshot())
    {
      hide B.InspectContinuation, FoldItems, ReduceItems, BatchesAccepted;
      var preflight := InspectContinuation(session, usage, now);
      if preflight.Err? {
        return Err(preflight.error);
      }
      var code: StopCode;
      if preflight.value.state == LimitReached {
        if preflight.value.stop.None? {
          return Err(StateDrift);
        }
        code := Stopped(preflight.value.stop.value);
      } else if preflight.value.state == PlanCompleted {
        if preflight.value.stop.Some? {
          return Err(StateDrift);
        }
        code := PlanComplete;
      } else {
        return Err(Blocked(preflight.value.state));
      }
      var finished := store.AppendBatch(Finished(session.batchId, session.runId, now, code, usage));
      if finished.Err? {
        return Err(StoreFailed(finished.error));
      }
      r := Ok(code);
    }

    method InspectFinishedHandoff(session: Session, usage: Usage, now: int) returns (r: Outcome<Verdict>)
      requires store.Valid()
      ensures r == InspectFinished(store.Snapshot(), session, usage, now)
    {
      var s := store.Read();
      var freshness := InspectHeartbeat(s.heartbeat, now);
      if freshness.Err? {
        return Err(StoreFailed(freshness.error));
      }
      var planned := session.plan.keys;
      var completed, committed := CommittedPlanPrefix(s.items, planned, session.runId);
      hide PrefixLength, CommittedByRun, StopOf, PlanBatch, InFlightKeys;
      if s.manifest.status != Running {
        return Ok(CampaignNotRunning);
      }
      if ActiveBatch(s.batches).Some? {
        return Ok(BatchStillActive);
      }
      if s.batches == [] || !s.batches[|s.batches| - 1].Finished? {
        return Ok(FinishRecordMissing);
      }
      var finished := s.batches[|s.batches| - 1];
      if finished.batchId != session.batchId || finished.runId != session.runId {
        return Ok(BatchOwnerMismatch);
      }
      if freshness.value == Missing {
        return Ok(HeartbeatMissing);
      }
      if s.heartbeat.value.runId != session.runId {
        return Ok(HeartbeatOwnerMismatch);
      }
      if freshness.value == Stale {
        return Ok(HeartbeatStale);
      }
      if InFlightKeys(s.items) != {} {
        return Ok(ItemsInFlight);
      }
      if planned == [] || session.plan.stop.Some? || committed != KeySet(planned[..completed]) {
        return Ok(PlanDrift);
      }
      if usage.itemsCompleted != completed {
        return Ok(UsageMismatch);
      }
      if finished.usage != usage {
        return Ok(FinishRecordMismatch);
      }
      var expected: Option<StopCode> := None;
      var reason := StopOf(session.policy, usage);
      if reason.Some? {
        expected := Some(Stopped(reason.value));
      } else if completed == |planned| && PlanBatch(s.items, session.policy, usage).stop == Some(NoEligibleItems) {
        expected := Some(PlanComplete);
      }
      r := Ok(if expected != Some(finished.code) then FinishReasonMismatch else Ready);
    }

    method WriteFinishedHandoff(session: Session, usage: Usage, now: int, clock: int) returns (r: Outcome<Handoff>)
      requires store.Valid()
      modifies store
      ensures store.Valid()
      ensures Performed(old(store.Snapshot()), store.Snapshot(), r,
                        B.WriteFinishedHandoff(old(store.Snapshot()), session, usage, now, clock))
      ensures r.Ok? ==> store.Snapshot().handoff == Some(r.value)
    {
      hide InspectFinished, NextOrdinal, CountStatus, FoldItems, ReduceItems, BatchesAccepted;
      var preflight := InspectFinishedHandoff(session, usage, now);
      if preflight.Err? {
        return Err(preflight.error);
      }
      if preflight.value != Ready {
        return Err(Blocked(preflight.value));
      }
      var s := store.Read();
      var existing := ReadHandoff(s);
      if existing.Ok? && existing.value.lastRunId == session.runId {
        return Ok(existing.value);
      }
      store.WriteHandoff(session.runId, clock);
      r := Ok(store.handoff.value);
    }

    method ReplaceFinishedRunHeartbeatOwner(session: Session, usage: Usage, now: int, replacement: Heartbeat) returns (r: Outcome<Heartbeat>)
      requires store.Valid()
      modifies store
      ensures store.Valid()
      ensures Performed(old(store.Snapshot()), store.Snapshot(), r,
                        TransferOwner(old(store.Snapshot()), session, usage, now, replacement))
      ensures r.Ok? ==> r.value == replacement
    {
      hide InspectTransfer, FoldItems, ReduceItems, BatchesAccepted;
      var s := store.Read();
      var preflight := InspectTransfer(s, session, usage, now, replacement);
      if preflight.Err? {
        return Err(preflight.error);
      }
      if preflight.value != Ready {
        return Err(Blocked(preflight.value));
      }
      var replaced := store.ReplaceHeartbeatOwner(session.runId, replacement, now);
      if replaced.Err? {
        return Err(StoreFailed(replaced.error));
      }
      r := Ok(replaced.value);
    }

    method OpenResumedBatch(batchId: string, runId: RunId, now: int, policy: Policy) returns (r: Outcome<Option<Session>>)
      requires store.Valid()
      modifies store
      ensures store.Valid()
      ensures match OpenResumed(old(store.Snapshot()), batchId, runId, now, policy)
              case Ok(Some((next, session))) => r == Ok(Some(session)) && store.Snapshot() == next
              case Ok(None) => r == Ok(None) && store.Snapshot() == old(store.Snapshot())
              case Err(e) => r == Err(e) && store.Snapshot() == old(store.Snapshot())
    {
      hide PlanResume, FoldItems, ReduceItems, BatchesAccepted;
      var s := store.Read();
      var resume := PlanResume(s, runId, now, policy);
      if resume.Err? {
        return Err(resume.error);
      }
      if !NonemptyPlan(resume.value) {
        return Ok(None);
      }
      var started := store.AppendBatch(Started(batchId, runId, now));
      if started.Err? {
        return Err(StoreFailed(started.error));
      }
      r := Ok(Some(Session(batchId, runId, policy, resume.value.batch.value)));
    }

    method OpenTransferredResumedBatch(session: Session, batchId: string, replacement: RunId, now: int, policy: Policy)
      returns (r: Outcome<Session>)
      requires store.Valid()
      modifies store
      ensures store.Valid()
      ensures match OpenTransferred(old(store.Snapshot()), session, batchId, replacement, now, policy)
              case Ok((next, resumed)) => r == Ok(resumed) && store.Snapshot() == next
              case Err(e) => r == Err(e) && store.Snapshot() == old(store.Snapshot())
    {
      var s := store.Read();
      var preflight := InspectTransferred(s, session, replacement, now, policy);
      hide InspectTransferred, OpenResumed, FoldItems, ReduceItems, BatchesAccepted;
      if preflight.Err? {
        return Err(preflight.error);
      }
      if preflight.value.state != Ready {
        return Err(Blocked(preflight.value.state));
      }
      SamePlan(s, session, batchId, replacement, now, policy);
      var resumed := OpenResumedBatch(batchId, replacement, now, policy);
      if resumed.Err? {
        return Err(resumed.error);
      }
      if resumed.value.None? || resumed.value.value.plan.keys != preflight.value.keys {
        return Err(ResumedPlanDrift);
      }
      r := Ok(resumed.value.value);
    }

    method CompleteExhaustedCampaign(session: Session, replacement: RunId, now: int, policy: Policy) returns (r: Outcome<Manifest>)
      requires store.Valid()
      modifies store
      ensures store.Valid()
      ensures Performed(old(store.Snapshot()), store.Snapshot(), r,
                        CompleteExhausted(old(store.Snapshot()), session, replacement, now, policy))
      ensures r.Ok? ==> store.Snapshot().manifest == r.value
    {
      hide InspectExhausted, FoldItems, ReduceItems, BatchesAccepted;
      var s := store.Read();
      var preflight := InspectExhausted(s, session, replacement, now, policy);
      if preflight.Err? {
        return Err(preflight.error);
      }
      if preflight.value != Ready {
        return Err(Blocked(preflight.value));
      }
      var completed := store.CompleteCampaign(now);
      if completed.Err? {
        return Err(StoreFailed(completed.error));
      }
      r := Ok(completed.value);
    }

    method WriteCompletedCampaignHandoff(session: Session, replacement: RunId, now: int, clock: int) returns (r: Outcome<Handoff>)
      requires store.Valid()
      modifies store
      ensures store.Valid()
      ensures Performed(old(store.Snapshot()), store.Snapshot(), r,
                        WriteCompletedHandoff(old(store.Snapshot()), session, replacement, now, clock))
      ensures r.Ok? ==> store.Snapshot().handoff == Some(r.value)
    {
      hide InspectCompletedHandoff, NextOrdinal, CountStatus, FoldItems, ReduceItems, BatchesAccepted;
      var s := store.Read();
      var preflight := InspectCompletedHandoff(s, session, replacement, now);
      if preflight.Err? {
        return Err(preflight.error);
      }
      if preflight.value != Ready {
        return Err(Blocked(preflight.value));
      }
      var existing := ReadHandoff(s);
      if existing.Ok? && existing.value.lastRunId == replacement {
        return Ok(existing.value);
      }
      store.WriteHandoff(replacement, clock);
      r := Ok(store.handoff.value);
    }

    method RemoveCompletedCampaignHeartbeat(session: Session, replacement: RunId) returns (r: Outcome<Option<Heartbeat>>)
      requires store.Valid()
      modifies store
      ensures store.Valid()
      ensures Performed(old(store.Snapshot()), store.Snapshot(), r, RetireHeartbeat(old(store.Snapshot()), session, replacement))
      ensures r.Ok? ==> r.value == old(store.heartbeat)
    {
      hide InspectRetirement, RemoveHeartbeat, FoldItems, ReduceItems, BatchesAccepted;
      var s := store.Read();
      var preflight := InspectRetirement(s, session, replacement);
      if preflight !in {Ready, HeartbeatMissing} {
        return Err(Blocked(preflight));
      }
      var removed := store.RemoveCompletedHeartbeat(replacement);
      if removed.Err? {
        return Err(StoreFailed(removed.error));
      }
      r := Ok(removed.value);
    }
  }

  /** The plan is asked for twice, and is the same both times: nothing was written in between. */
  lemma SamePlan(s: Control, session: Session, batchId: string, replacement: RunId, now: int, policy: Policy)
    requires InspectTransferred(s, session, replacement, now, policy).Ok?
    requires InspectTransferred(s, session, replacement, now, policy).value.state == Ready
    ensures OpenResumed(s, batchId, replacement, now, policy).Ok? ==>
              && OpenResumed(s, batchId, replacement, now, policy).value.Some?
              && OpenResumed(s, batchId, replacement, now, policy).value.value.1.plan.keys
                 == InspectTransferred(s, session, replacement, now, policy).value.keys
  {
    hide PlanBatch, ReadHandoff;
  }
}
