/**
  The application runtime as it acts on a store: prepare, start, execute and resume,
  each an ordered sequence of writes that stops at its first error and keeps what it
  had written.  A campaign that is prepared and driven to its end commits the
  prepared keys in the given order.
*/
module ApplicationRuntime {
  import opened Wrappers
  import opened Campaign
  import opened CampaignStores
  import opened Batching
  import opened BatchCoordinator
  import opened Coordinators
  import opened ApplicationCampaign
  import opened ApplicationRounds
  import opened ApplicationTheorem
  import CoordinatorSafety

  const MAX_APPLICATION_ITEMS := 500

  // ---------- prepare ----------

  /** The ledger of a prepared campaign: ordinals 1..n in the order of the keys. */
  function NewItems(keys: seq<Key>, at: int): (log: seq<Item>)
    ensures |log| == |keys| && forall i | 0 <= i < |keys| :: log[i] == NewItem(i + 1, keys[i], at)
  {
    if keys == [] then []
    else NewItems(keys[..|keys| - 1], at) + [NewItem(|keys|, keys[|keys| - 1], at)]
  }

  /** Its projection. */
  function PreparedItems(keys: seq<Key>, at: int): (items: map<Key, Item>)
    ensures items.Keys == set k | k in keys
    decreases |keys|
  {
    if keys == [] then map[]
    else
      var n := |keys| - 1;
      assert keys == keys[..n] + [keys[n]];
      PreparedItems(keys[..n], at)[keys[n] := NewItem(n + 1, keys[n], at)]
  }

  lemma {:induction false} PreparedAt(keys: seq<Key>, at: int, i: nat)
    requires Distinct(keys) && i < |keys|
    ensures keys[i] in PreparedItems(keys, at) && PreparedItems(keys, at)[keys[i]] == NewItem(i + 1, keys[i], at)
    decreases |keys|
  {
    var n := |keys| - 1;
    assert keys[i] in keys;
    if i < n {
      PreparedAt(keys[..n], at, i);
      assert keys[..n][i] == keys[i] != keys[n];
    }
  }

  lemma {:induction false} PreparedCount(keys: seq<Key>, at: int)
    requires Distinct(keys)
    ensures |PreparedItems(keys, at)| == |keys|
    decreases |keys|
  {
    hide Distinct;
    if keys != [] {
      var n := |keys| - 1;
      DistinctFront(keys);
      PreparedCount(keys[..n], at);
      var before := PreparedItems(keys[..n], at);
      assert keys[n] !in before;
      assert |before[keys[n] := NewItem(n + 1, keys[n], at)]| == |before| + 1;
    }
  }

  lemma DistinctFront(keys: seq<Key>)
    requires Distinct(keys) && keys != []
    ensures Distinct(keys[..|keys| - 1]) && keys[|keys| - 1] !in keys[..|keys| - 1]
  {
  }

  lemma PreparedItem(keys: seq<Key>, at: int, k: Key) returns (i: nat)
    requires Distinct(keys) && k in PreparedItems(keys, at)
    ensures i < |keys| && keys[i] == k && PreparedItems(keys, at)[k] == NewItem(i + 1, k, at)
  {
    i :| 0 <= i < |keys| && keys[i] == k;
    PreparedAt(keys, at, i);
  }

  lemma PreparedWellKept(keys: seq<Key>, at: int)
    requires Distinct(keys)
    ensures WellKept(PreparedItems(keys, at))
  {
    var items := PreparedItems(keys, at);
    forall k | k in items
      ensures items[k].key == k
    {
      var i := PreparedItem(keys, at, k);
    }
    forall k, l | k in items && l in items && items[k].ordinal == items[l].ordinal
      ensures k == l
    {
      var i := PreparedItem(keys, at, k);
      var j := PreparedItem(keys, at, l);
    }
  }

  /** The record of a campaign prepared from distinct keys. */
  function PreparedRecord(spec: Spec, keys: seq<Key>, at: int): Control
    requires Distinct(keys)
  {
    PreparedWellKept(keys, at);
    Control(Manifest(spec.kind, spec.policyDigest, spec.schemaDigest, at, Running),
            PreparedItems(keys, at), NewItems(keys, at), [], [], None, None)
  }

  lemma PreparedRoom(keys: seq<Key>, n: nat, at: int, items: Items)
    requires Distinct(keys) && n < |keys| && items == PreparedItems(keys[..n], at)
    ensures Admits(items, NewItem(n + 1, keys[n], at))
  {
    assert keys[n] !in keys[..n];
    forall k | k in items
      ensures items[k].ordinal <= n
    {
      var i := PreparedItem(keys[..n], at, k);
    }
  }

  lemma PreparedAppend(spec: Spec, keys: seq<Key>, n: nat, at: int)
    requires Distinct(keys) && n < |keys| <= MAX_APPLICATION_ITEMS
    ensures Append(PreparedRecord(spec, keys[..n], at), NewItem(n + 1, keys[n], at)) == Ok(PreparedRecord(spec, keys[..n + 1], at))
  {
    assert keys[..n + 1][..n] == keys[..n];
    PreparedCount(keys[..n + 1], at);
    PreparedRoom(keys, n, at, PreparedRecord(spec, keys[..n], at).items);
    hide Admits, Distinct;
  }

  /** `prepare_application_campaign`. */
  method Prepare(spec: Spec, keys: seq<Key>, now: int) returns (r: Result<CampaignStore, RuntimeError>)
    ensures r.Ok? <==> keys != [] && |keys| <= MAX_APPLICATION_ITEMS && Distinct(keys) && "" !in keys
    ensures r.Ok? ==> fresh(r.value) && r.value.Valid() && r.value.Snapshot() == PreparedRecord(spec, keys, now)
    ensures r.Err? ==> r.error == InputInvalid
  {
    if keys == [] || |keys| > MAX_APPLICATION_ITEMS || !Distinct(keys) || "" in keys {
      return Err(InputInvalid);
    }
    hide PreparedRecord, PreparedItems, NewItems, Append;
    var store := new CampaignStore(Manifest(spec.kind, spec.policyDigest, spec.schemaDigest, now, Running));
    PreparedNothing(spec, now);
    assert keys[..0] == [];
    for n := 0 to |keys|
      invariant fresh(store) && store.Valid()
      invariant store.Snapshot() == PreparedRecord(spec, keys[..n], now)
    {
      PreparedAppend(spec, keys, n, now);
      var appended := store.Append(NewItem(n + 1, keys[n], now));
    }
    assert keys[..|keys|] == keys;
    r := Ok(store);
  }

  lemma PreparedNothing(spec: Spec, at: int)
    ensures PreparedRecord(spec, [], at) ==
            Control(Manifest(spec.kind, spec.policyDigest, spec.schemaDigest, at, Running), map[], [], [], [], None, None)
  {
  }

  /** A prepared record is one from which the safety theorem starts. */
  lemma {:induction false} PreparedFolds(keys: seq<Key>, at: int)
    requires Distinct(keys)
    ensures FoldItems(NewItems(keys, at)) == Ok(PreparedItems(keys, at))
    decreases |keys|
  {
    if keys != [] {
      var n := |keys| - 1;
      assert keys[..n + 1] == keys;
      PreparedFolds(keys[..n], at);
      PreparedWellKept(keys[..n], at);
      PreparedRoom(keys, n, at, PreparedItems(keys[..n], at));
      FoldAppend(NewItems(keys[..n], at), NewItem(n + 1, keys[n], at));
    }
  }

  lemma PreparedSafe(spec: Spec, keys: seq<Key>, at: int)
    requires Distinct(keys)
    ensures CoordinatorSafety.Safe(PreparedRecord(spec, keys, at))
  {
    PreparedFolds(keys, at);
    var s := PreparedRecord(spec, keys, at);
    forall k | k in s.items
      ensures s.items[k].status == Discovered
    {
      var i := PreparedItem(keys, at, k);
    }
    hide FoldItems, CoordinatorSafety.Safe, PreparedItems;
    CoordinatorSafety.UnstartedSafe(s);
  }

  lemma PreparedEligible(keys: seq<Key>, at: int, items: Items)
    requires Distinct(keys) && items == PreparedItems(keys, at)
    ensures forall x :: x in NewItems(keys, at) <==> x in EligibleItems(items)
  {
    var q := NewItems(keys, at);
    forall x
      ensures x in q <==> x in EligibleItems(items)
    {
      if x in q {
        var i :| 0 <= i < |q| && q[i] == x;
        PreparedAt(keys, at, i);
        assert items[keys[i]] == x;
      }
      if x in EligibleItems(items) {
        var i := PreparedItem(keys, at, x.key);
        assert q[i] == x;
      }
    }
  }

  /** Sorting a prepared ledger gives back the keys it was prepared from. */
  lemma PreparedOrder(keys: seq<Key>, at: int, items: Items)
    requires Distinct(keys) && items == PreparedItems(keys, at)
    ensures Keys(Sorted(EligibleItems(items))) == keys
  {
    hide EligibleItems, Sorted, NewItems, PreparedItems, Distinct, IsSorted, Before;
    PreparedEligible(keys, at, items);
    PreparedSorted(keys, at);
    SortedUnique(EligibleItems(items), NewItems(keys, at));
    assert Keys(NewItems(keys, at)) == keys;
  }

  lemma PreparedSorted(keys: seq<Key>, at: int)
    ensures IsSorted(NewItems(keys, at))
  {
    hide NewItems;
  }

  // ---------- start ----------

  /** `start_application_campaign_batch` on a store. */
  method StartBatch(store: CampaignStore, spec: Spec, runId: RunId, now: int, clock: int) returns (r: Result<Item, RuntimeError>)
    requires store.Valid()
    modifies store
    ensures store.Valid()
    ensures Attempt(store.Snapshot(), r) == Start(old(store.Snapshot()), spec, runId, now, clock)
  {
    hide BatchCoordinator.OpenBatch, ClaimNext, Startable, Campaign.WriteHeartbeat, FoldItems, ReduceItems, BatchesAccepted;
    var s := store.Read();
    if !Startable(s, spec) {
      return Err(StateInvalid);
    }
    var beaten := store.WriteHeartbeat(LeasedHeartbeat(runId, now));
    if beaten.Err? {
      return Err(StartFailed);
    }
    var coordinator := new Coordinator(store);
    var batch := coordinator.OpenBatch(BatchId(runId), runId, ONE_ITEM_POLICY, clock);
    if batch.Err? {
      return Err(StartFailed);
    }
    if batch.value.Err? {
      var plan := batch.value.error;
      return Err(if plan.stop.Some? then StartBlocked(plan.stop.value) else StartInvalid);
    }
    var session := batch.value.value;
    var claimed := coordinator.ClaimNextItem(session, NO_USAGE, now, ITEM_LEASE_SECONDS);
    if claimed.Err? {
      return Err(StartFailed);
    }
    if session.plan.keys == [] || !ClaimedAs(Some(claimed.value), session.plan.keys[0], runId) {
      return Err(ClaimInvalid);
    }
    r := Ok(claimed.value);
  }

  // ---------- execute ----------

  /** `execute_claimed_application_item` on a store; `work` is what the run reported. */
  method ExecuteClaimedItem(store: CampaignStore, spec: Spec, runId: RunId, now: int, clock: int, work: Work)
    returns (r: Result<StopCode, RuntimeError>)
    requires store.Valid()
    modifies store
    ensures store.Valid()
    ensures Attempt(store.Snapshot(), r) == Execute(old(store.Snapshot()), spec, runId, now, clock, work)
  {
    hide RecordObserved, RecordExtracted, RecordCommitted, FinishBatch, BatchCoordinator.WriteFinishedHandoff,
      ClaimedApplicationSession, UsageOf, FoldItems, ReduceItems, BatchesAccepted;
    var s := store.Read();
    var claim := ClaimedApplicationSession(s, spec, runId);
    if claim.Err? {
      return Err(claim.error);
    }
    if work.Failed? {
      return Err(RunFailed(work.code));
    }
    var usage := MeasureUsage(work.report);
    var current := ClaimedApplicationSession(s, spec, runId);
    if current.value.ordinal != claim.value.ordinal || current.value.key != claim.value.key {
      return Err(ClaimDrift);
    }
    var session := current.value.session;
    var coordinator := new Coordinator(store);
    var observed := coordinator.RecordNextClaimedItemObserved(session, NO_USAGE, now, work.applicationVerified, work.identityVerified);
    if observed.Err? {
      return Err(CommitFailed);
    }
    var extracted := coordinator.RecordNextObservedItemExtracted(session, NO_USAGE, now, true);
    if extracted.Err? {
      return Err(CommitFailed);
    }
    var committed := coordinator.RecordNextExtractedItemCommitted(session, NO_USAGE, now, true, work.content);
    if committed.Err? {
      return Err(CommitFailed);
    }
    if committed.value.status != Committed || committed.value.content != Some(work.content) {
      return Err(CommitInvalid);
    }
    var code := coordinator.FinishContinuedBatch(session, usage, now);
    if code.Err? {
      return Err(CommitFailed);
    }
    var handoff := coordinator.WriteFinishedHandoff(session, usage, now, clock);
    if handoff.Err? {
      return Err(CommitFailed);
    }
    if code.value != Stopped(ItemLimit) || handoff.value.lastRunId != runId {
      return Err(RuntimeError.HandoffInvalid);
    }
    r := Ok(code.value);
  }

  // ---------- resume ----------

  /** The change of owner of `resume_application_campaign_batch`. */
  method TakeOverHeartbeat(coordinator: Coordinator, session: Session, usage: Usage, now: int, replacement: Heartbeat)
    returns (r: Result<Heartbeat, RuntimeError>)
    requires coordinator.store.Valid()
    modifies coordinator.store
    ensures coordinator.store.Valid()
    ensures match TakeOver(old(coordinator.store.Snapshot()), session, usage, now, replacement)
            case Ok(next) => r == Ok(replacement) && coordinator.store.Snapshot() == next
            case Err(e) => r == Err(e) && coordinator.store.Snapshot() == old(coordinator.store.Snapshot())
  {
    hide InspectStaleRun, RecoverStale, TransferOwner, FoldItems, ReduceItems, BatchesAccepted;
    var store := coordinator.store;
    var s := store.Read();
    var stale := InspectStaleRun(s, now);
    if stale.Err? {
      return Err(ResumeFailed);
    }
    if stale.value == StaleOwner {
      var recovered := store.RecoverStaleHeartbeat(session.runId, replacement, now);
      if recovered.Err? {
        return Err(ResumeFailed);
      }
      return Ok(recovered.value);
    }
    if stale.value == FreshHeartbeat {
      var replaced := coordinator.ReplaceFinishedRunHeartbeatOwner(session, usage, now, replacement);
      if replaced.Err? {
        return Err(ResumeFailed);
      }
      return Ok(replaced.value);
    }
    r := Err(ResumeHeartbeatInvalid);
  }

  /** The terminal calls of `resume_application_campaign_batch`. */
  method CompleteCampaign(coordinator: Coordinator, session: Session, replacement: Heartbeat, now: int, clock: int)
    returns (r: Result<Option<Item>, RuntimeError>)
    requires coordinator.store.Valid()
    modifies coordinator.store
    ensures coordinator.store.Valid()
    ensures Attempt(coordinator.store.Snapshot(), r) == CompleteAll(old(coordinator.store.Snapshot()), session, replacement, now, clock)
  {
    hide CompleteExhausted, WriteCompletedHandoff, RetireHeartbeat, FoldItems, ReduceItems, BatchesAccepted;
    var store := coordinator.store;
    var completed := coordinator.CompleteExhaustedCampaign(session, replacement.runId, now, ONE_ITEM_POLICY);
    if completed.Err? {
      return Err(ResumeFailed);
    }
    var handoff := coordinator.WriteCompletedCampaignHandoff(session, replacement.runId, now, clock);
    if handoff.Err? {
      return Err(ResumeFailed);
    }
    KeepsStatus(store.Snapshot(), session, replacement.runId);
    var retired := coordinator.RemoveCompletedCampaignHeartbeat(session, replacement.runId);
    if retired.Err? {
      return Err(ResumeFailed);
    }
    if || store.manifest.status != Completed
       || handoff.value.lastRunId != replacement.runId || handoff.value.directive != Completed
       || retired.value != Some(replacement) || store.heartbeat.Some? {
      return Err(CompletionEvidenceInvalid);
    }
    r := Ok(None);
  }

  lemma KeepsStatus(s: Control, session: Session, runId: RunId)
    ensures var r := RetireHeartbeat(s, session, runId);
      r.Ok? ==> r.value.manifest == s.manifest && r.value.handoff == s.handoff
  {
    hide InspectRetirement, ReadHandoff;
  }

  /** `resume_application_campaign_batch` on a store. */
  method ResumeBatch(store: CampaignStore, spec: Spec, runId: RunId, now: int, clock: int) returns (r: Result<Option<Item>, RuntimeError>)
    requires store.Valid()
    modifies store
    ensures store.Valid()
    ensures Attempt(store.Snapshot(), r) == Resume(old(store.Snapshot()), spec, runId, now, clock)
  {
    hide FinishedApplicationSession, TakeOver, InspectTransferred, CompleteAll, OpenTransferred, ClaimNext,
      FoldItems, ReduceItems, BatchesAccepted;
    var s := store.Read();
    var rebuilt := FinishedApplicationSession(s, spec);
    if rebuilt.Err? {
      return Err(rebuilt.error);
    }
    var finished := rebuilt.value;
    var replacement := LeasedHeartbeat(runId, now);
    var coordinator := new Coordinator(store);
    var heartbeat := TakeOverHeartbeat(coordinator, finished.session, finished.usage, now, replacement);
    if heartbeat.Err? {
      return Err(heartbeat.error);
    }
    s := store.Read();
    var resume := InspectTransferred(s, finished.session, runId, now, ONE_ITEM_POLICY);
    if resume.Err? {
      return Err(ResumeFailed);
    }
    if resume.value.state == NoEligible {
      r := CompleteCampaign(coordinator, finished.session, replacement, now, clock);
      return;
    }
    if || s.heartbeat != Some(replacement) || resume.value.state != Ready || resume.value.keys == []
       || resume.value.nextOrdinal != finished.nextOrdinal {
      return Err(ResumeEvidenceInvalid);
    }
    var batch := coordinator.OpenTransferredResumedBatch(finished.session, BatchId(runId), runId, now, ONE_ITEM_POLICY);
    if batch.Err? {
      return Err(ResumeFailed);
    }
    var claimed := coordinator.ClaimNextItem(batch.value, NO_USAGE, now, ITEM_LEASE_SECONDS);
    if claimed.Err? {
      return Err(ResumeFailed);
    }
    if !ClaimedAs(Some(claimed.value), resume.value.keys[0], runId) || claimed.value.ordinal != finished.nextOrdinal {
      return Err(ClaimInvalid);
    }
    r := Ok(Some(claimed.value));
  }

  // ---------- the whole campaign ----------

  lemma {:induction false} NothingCommittedYet(history: seq<Item>)
    requires forall i | 0 <= i < |history| :: history[i].status != Committed
    ensures CommitLog(history) == []
  {
    if history != [] {
      NothingCommittedYet(history[..|history| - 1]);
    }
  }

  lemma PreparedStartable(spec: Spec, keys: seq<Key>, at: int)
    requires keys != [] && |keys| <= MAX_APPLICATION_ITEMS && Distinct(keys)
    ensures var s := PreparedRecord(spec, keys, at);
      && Startable(s, spec) && |s.items| == |keys| && s.manifest.updatedAt == at
      && (forall k | k in s.items :: s.items[k].at == at)
      && CommitLog(s.history) == [] && Keys(Sorted(EligibleItems(s.items))) == keys
  {
    hide CommitLog, Sorted, EligibleItems;
    var s := PreparedRecord(spec, keys, at);
    PreparedCount(keys, at);
    forall k | k in s.items
      ensures Eligible(s.items[k]) && s.items[k].at == at
    {
      var i := PreparedItem(keys, at, k);
    }
    assert keys[0] in s.items;
    NothingCommittedYet(s.history);
    PreparedOrder(keys, at, s.items);
  }

  /** A prepared campaign of n items completes after n timely rounds and commits its keys in the given order. */
  lemma PreparedCampaignCompletes(spec: Spec, keys: seq<Key>, at: int, run: RunId, now: int, clock: int, rounds: seq<Round>)
    requires keys != [] && |keys| <= MAX_APPLICATION_ITEMS && Distinct(keys)
    requires at <= now && |rounds| == |keys| && Timely({run}, now, rounds)
    ensures var done := RunToEnd(PreparedRecord(spec, keys, at), spec, run, now, clock, rounds);
      && done.Ok?
      && CampaignCompleted(done.value, rounds[|rounds| - 1].next)
      && CommitLog(done.value.history) == keys
  {
    hide RunToEnd, CampaignCompleted, CommitLog, Startable, EligibleItems, Sorted, Timely, PreparedRecord;
    PreparedStartable(spec, keys, at);
    CampaignCompletes(PreparedRecord(spec, keys, at), spec, run, now, clock, rounds);
  }
}
