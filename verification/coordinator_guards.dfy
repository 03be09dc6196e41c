/**
  When the coordinator's operations are accepted: the ladders of early returns as one
  condition each.  Once the condition holds the ledgers never refuse the write.
*/
module CoordinatorGuards {
  import opened Wrappers
  import opened Campaign
  import opened Batching
  import opened BatchCoordinator

  /** The run of the session owns the active batch of a running campaign, with a fresh heartbeat. */
  predicate Owner(s: Control, session: Session, now: int) {
    && s.manifest.status == Running
    && ActiveBatch(s.batches).Some?
    && ActiveBatch(s.batches).value.batchId == session.batchId && ActiveBatch(s.batches).value.runId == session.runId
    && s.heartbeat.Some? && s.heartbeat.value.runId == session.runId
    && s.heartbeat.value.heartbeatAt <= now < s.heartbeat.value.freshUntil
  }

  lemma OwnershipIff(s: Control, session: Session, now: int)
    ensures Ownership(s, session.batchId, session.runId, now) == Ok(Ready) <==> Owner(s, session, now)
    ensures Ownership(s, session.batchId, session.runId, now) != Ok(PlanCompleted)
  {
  }

  /** The run has committed exactly the first `k` planned keys, and the usage says so. */
  predicate Reached(s: Control, session: Session, usage: Usage, k: nat) {
    && k <= |session.plan.keys| && usage.itemsCompleted == k
    && (forall i | 0 <= i < k :: CommittedBy(s.items, session.plan.keys[i], session.runId))
    && (k < |session.plan.keys| ==> !CommittedBy(s.items, session.plan.keys[k], session.runId))
  }

  lemma ReachedIff(s: Control, session: Session, usage: Usage)
    ensures usage.itemsCompleted == PrefixLength(s.items, session.plan.keys, session.runId)
            <==> Reached(s, session, usage, usage.itemsCompleted)
  {
  }

  /** The commits of the run are the reached head of a plan worth continuing. */
  predicate OnPlan(s: Control, session: Session, usage: Usage) {
    var k := usage.itemsCompleted;
    && session.plan.keys != [] && session.plan.stop.None?
    && Reached(s, session, usage, k) && CommittedByRun(s.items, session.runId) == KeySet(session.plan.keys[..k])
  }

  /** A claim is accepted exactly for the next planned key, unchanged by a new planning. */
  lemma ClaimIff(s: Control, session: Session, usage: Usage, now: int, lease: int)
    requires |s.items| <= MAX_CAMPAIGN_ITEMS
    ensures ClaimNext(s, session, usage, now, lease).Ok? <==>
              var k := usage.itemsCompleted;
              && 0 < lease <= MAX_ITEM_LEASE_SECONDS
              && Owner(s, session, now) && InFlightKeys(s.items) == {} && OnPlan(s, session, usage)
              && StopOf(session.policy, usage).None?
              && k < |session.plan.keys|
              && session.plan.keys[k] in s.items && Eligible(s.items[session.plan.keys[k]])
              && s.items[session.plan.keys[k]].at <= now
              && PlanBatch(s.items, session.policy, usage).keys == session.plan.keys[k..]
  {
    OwnershipIff(s, session, now);
    ReachedIff(s, session, usage);
    hide Ownership, Owner, PlanBatch, StopOf, CommittedByRun, InFlightKeys, KeySet, CommittedBy;
  }

  /** An observation is accepted exactly for the one claim in force, within its lease. */
  lemma ObserveIff(s: Control, session: Session, usage: Usage, now: int, attested: bool)
    requires |s.items| <= MAX_CAMPAIGN_ITEMS
    ensures RecordObserved(s, session, usage, now, attested).Ok? <==>
              var k := usage.itemsCompleted;
              && attested && Owner(s, session, now) && Reached(s, session, usage, k) && k < |session.plan.keys|
              && session.plan.keys[k] in s.items
              && var i := s.items[session.plan.keys[k]];
                 && i.status == Claimed && i.runId == Some(session.runId) && |Claims(s.items)| == 1
                 && i.at <= now < i.leaseExpires.value
  {
    OwnershipIff(s, session, now);
    ReachedIff(s, session, usage);
    hide Ownership, Owner, Claims, CommittedBy;
  }

  /** A commit is accepted exactly for the one item in flight, extracted by the same run. */
  lemma CommitIff(s: Control, session: Session, usage: Usage, now: int, attested: bool, content: Hash)
    requires |s.items| <= MAX_CAMPAIGN_ITEMS
    ensures RecordCommitted(s, session, usage, now, attested, content).Ok? <==>
              var k := usage.itemsCompleted;
              && attested && Owner(s, session, now) && Reached(s, session, usage, k) && k < |session.plan.keys|
              && InFlightKeys(s.items) == {session.plan.keys[k]} && session.plan.keys[k] in s.items
              && var i := s.items[session.plan.keys[k]];
                 i.status == Extracted && i.runId == Some(session.runId) && i.at <= now
  {
    OwnershipIff(s, session, now);
    ReachedIff(s, session, usage);
    hide Ownership, Owner, InFlightKeys, CommittedBy;
  }

  /** An extraction likewise, for the observed item. */
  lemma ExtractIff(s: Control, session: Session, usage: Usage, now: int, attested: bool)
    requires |s.items| <= MAX_CAMPAIGN_ITEMS
    ensures RecordExtracted(s, session, usage, now, attested).Ok? <==>
              var k := usage.itemsCompleted;
              && attested && Owner(s, session, now) && Reached(s, session, usage, k) && k < |session.plan.keys|
              && InFlightKeys(s.items) == {session.plan.keys[k]} && session.plan.keys[k] in s.items
              && var i := s.items[session.plan.keys[k]];
                 i.status == Observed && i.runId == Some(session.runId) && i.at <= now
  {
    OwnershipIff(s, session, now);
    ReachedIff(s, session, usage);
    hide Ownership, Owner, InFlightKeys, CommittedBy;
  }

  /** A batch finishes exactly at rest, at a limit or with its plan and the eligible items exhausted. */
  lemma FinishIff(s: Control, session: Session, usage: Usage, now: int)
    ensures FinishBatch(s, session, usage, now).Ok? <==>
              && Owner(s, session, now) && InFlightKeys(s.items) == {} && OnPlan(s, session, usage)
              && (StopOf(session.policy, usage).Some?
                  || (usage.itemsCompleted == |session.plan.keys| && EligibleItems(s.items) == {}))
  {
    EndIff(s, session, usage, now);
    hide Ownership, Owner, OnPlan, InspectContinuation, StopOf, InFlightKeys, EligibleItems, AdmitsBatch;
    if Owner(s, session, now) {
      OwnerAdmits(s, session, now);
    }
  }

  /** The batch is over: at a limit, or with the plan and the eligible items exhausted. */
  lemma EndIff(s: Control, session: Session, usage: Usage, now: int)
    ensures var c := InspectContinuation(s, session, usage, now);
            (c.Ok? && FinishCode(c.value).Ok?) <==>
              && Owner(s, session, now) && InFlightKeys(s.items) == {} && OnPlan(s, session, usage)
              && (StopOf(session.policy, usage).Some?
                  || (usage.itemsCompleted == |session.plan.keys| && EligibleItems(s.items) == {}))
  {
    hide Ownership, Owner, PlanBatch, StopOf, CommittedByRun, InFlightKeys, KeySet, CommittedBy, EligibleItems, Reached, PrefixLength;
    OwnershipIff(s, session, now);
    ReachedIff(s, session, usage);
    if StopOf(session.policy, usage).None? {
      PlanStops(s.items, session.policy, usage);
    }
  }

  /** Below every limit, planning stops exactly when nothing is eligible. */
  lemma PlanStops(items: Items, p: Policy, u: Usage)
    requires StopOf(p, u).None?
    ensures PlanBatch(items, p, u).stop == Some(NoEligibleItems) <==> EligibleItems(items) == {}
  {
    PlanIsLeast(items, p, u);
    hide Sorted, EligibleItems;
  }

  lemma OwnerAdmits(s: Control, session: Session, now: int)
    requires Owner(s, session, now)
    ensures forall at, code, usage :: AdmitsBatch(s.batches, Finished(session.batchId, session.runId, at, code, usage))
  {
  }
}
