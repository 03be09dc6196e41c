/**
  One round of an application campaign never blocks: the states between the calls,
  and what each of start, execute and resume does to them.
*/
module ApplicationRounds {
  import opened Wrappers
  import opened Campaign
  import opened Batching
  import opened BatchCoordinator
  import opened BatchProgress
  import opened BatchOutcome
  import opened ApplicationCampaign

  // ---------- states between the calls ----------

  predicate Settled(i: Item) {
    i.status in {Discovered, Retryable, Committed}
  }

  /** What holds at every point: `used` are the run ids that have appeared, `at` bounds all times. */
  ghost predicate Orderly(s: Control, spec: Spec, used: set<RunId>, at: int) {
    && SpecMatches(s.manifest, spec) && s.manifest.status == Running && s.manifest.updatedAt <= at
    && |s.items| <= MAX_CAMPAIGN_ITEMS
    && (forall k | k in s.items :: s.items[k].at <= at)
    && (forall k | k in s.items && s.items[k].status == Committed :: s.items[k].runId.value in used)
    && (forall i | 0 <= i < |s.batches| && s.batches[i].Started? ::
          s.batches[i].runId in used && s.batches[i].batchId == BatchId(s.batches[i].runId))
    && (s.handoff.Some? ==> s.handoff.value.lastRunId in used)
  }

  /** A claim of `run` made at `since` is waiting to be executed. */
  ghost predicate Working(s: Control, spec: Spec, used: set<RunId>, run: RunId, key: Key, since: int) {
    && run !in used && Orderly(s, spec, used + {run}, since)
    && s.heartbeat == Some(LeasedHeartbeat(run, since))
    && ActiveBatch(s.batches).Some? && ActiveBatch(s.batches).value.runId == run
    && key in s.items && s.items[key].status == Claimed && s.items[key].runId == Some(run)
    && s.items[key].leaseExpires == Some(since + ITEM_LEASE_SECONDS)
    && (forall k | k in s.items && k != key :: Settled(s.items[k]))
    && CommittedByRun(s.items, run) == {}
    && (s.handoff.Some? ==> s.handoff.value.lastRunId != run)
  }

  /** `run`, which claimed at `since`, has committed `key` and handed off by `at`. */
  ghost predicate HandedOff(s: Control, spec: Spec, used: set<RunId>, run: RunId, key: Key, since: int, at: int) {
    var n := |s.batches|;
    && since <= at && run in used && Orderly(s, spec, used, at)
    && s.heartbeat == Some(LeasedHeartbeat(run, since))
    && n >= 2 && s.batches[n - 2].Started? && s.batches[n - 1].Finished?
    && s.batches[n - 2].runId == s.batches[n - 1].runId == run
    && s.batches[n - 2].batchId == s.batches[n - 1].batchId
    && s.batches[n - 1].code == Stopped(ItemLimit) && s.batches[n - 1].usage.itemsCompleted == 1
    && (forall k | k in s.items :: Settled(s.items[k]))
    && CommittedByRun(s.items, run) == {key}
    && s.handoff.Some? && s.handoff == Some(DerivedHandoff(s, run, s.handoff.value.updatedAt))
    && s.handoff.value.updatedAt >= s.manifest.updatedAt
  }

  /** The record after one appended transition. */
  function Put(s: Control, t: Item): Control
    requires Admits(s.items, t)
  {
    s.(items := Admit(s.items, t), history := s.history + [t])
  }

  // ---------- limits ----------

  lemma ItemLimitFirst(p: Policy, u: Usage)
    requires u.itemsCompleted >= p.maxItems
    ensures StopOf(p, u) == Some(ItemLimit)
  {
  }

  lemma NoUsageNoLimit(p: Policy)
    ensures StopOf(p, NO_USAGE).None?
  {
  }

  // ---------- claiming ----------

  /** A freshly opened session can continue, with the least eligible item. */
  lemma FirstContinuation(s: Control, session: Session, now: int)
    requires Ownership(s, session.batchId, session.runId, now) == Ok(Ready)
    requires InFlightKeys(s.items) == {} && CommittedByRun(s.items, session.runId) == {}
    requires session.plan == PlanBatch(s.items, session.policy, NO_USAGE) && session.plan.stop.None?
    ensures EligibleItems(s.items) != {} && session.plan.keys != []
    ensures session.plan.keys[0] == Least(EligibleItems(s.items)).key
    ensures InspectContinuation(s, session, NO_USAGE, now) ==
            Ok(Continuation(Ready, 0, Some(Least(EligibleItems(s.items)).key), None))
  {
    hide InspectContinuation, Ownership, Progress, Sorted, Least, EligibleItems, InFlightKeys, StopOf, CommittedByRun;
    NoUsageNoLimit(session.policy);
    var order := EligibleOrder(s.items);
    OpeningStarts(s.items, session.runId);
    OpenedPlan(s.items, session.policy, NO_USAGE);
    assert order != [];
    hide PlanBatch, Keys;
    ContinuesIff(s, session, NO_USAGE, now, order, 0);
    ClaimIsNext(s.items, order, session.runId, 0);
  }

  /** The claim of a freshly opened session takes the least eligible item. */
  lemma FirstClaim(s: Control, session: Session, now: int, m: Item)
    requires InspectContinuation(s, session, NO_USAGE, now) == Ok(Continuation(Ready, 0, Some(m.key), None))
    requires m.key in s.items && s.items[m.key] == m && Eligible(m)
    requires |s.items| <= MAX_CAMPAIGN_ITEMS && m.at <= now
    ensures var t := ClaimOf(m, session.runId, now, ITEM_LEASE_SECONDS);
      Admits(s.items, t) && ClaimNext(s, session, NO_USAGE, now, ITEM_LEASE_SECONDS) == Ok(Put(s, t))
  {
    hide InspectContinuation;
  }

  /** A one-item batch has just been opened for the fresh run, and nothing is claimed yet. */
  ghost predicate Poised(s: Control, spec: Spec, used: set<RunId>, run: RunId, now: int) {
    && run !in used && Orderly(s, spec, used + {run}, now)
    && s.heartbeat == Some(LeasedHeartbeat(run, now))
    && ActiveBatch(s.batches).Some? && ActiveBatch(s.batches).value.runId == run
    && (forall k | k in s.items :: Settled(s.items[k]))
    && CommittedByRun(s.items, run) == {}
    && (s.handoff.Some? ==> s.handoff.value.lastRunId != run)
  }

  lemma NothingInFlight(items: Items)
    requires forall k | k in items :: Settled(items[k])
    ensures InFlightKeys(items) == {} && Claims(items) == {}
  {
  }

  lemma ClaimLeavesWorking(s: Control, t: Item, spec: Spec, used: set<RunId>, run: RunId, now: int)
    requires Poised(s, spec, used, run, now)
    requires t.key in s.items && Eligible(s.items[t.key]) && t == ClaimOf(s.items[t.key], run, now, ITEM_LEASE_SECONDS)
    ensures Admits(s.items, t) && Working(Put(s, t), spec, used, run, t.key, now)
  {
    assert CommittedByRun(Put(s, t).items, run) == CommittedByRun(s.items, run);
  }

  lemma ClaimLeavesEligible(items: Items, t: Item)
    requires t.key in items && Eligible(items[t.key]) && t.status == Claimed && Admits(items, t)
    ensures EligibleItems(Admit(items, t)) == EligibleItems(items) - {items[t.key]}
  {
    var next := Admit(items, t);
    forall i
      ensures i in EligibleItems(next) <==> i in EligibleItems(items) - {items[t.key]}
    {
      if i in EligibleItems(items) && i != items[t.key] {
        assert i.key != t.key && next[i.key] == i;
      }
      if i in EligibleItems(next) {
        assert i.key != t.key && items[i.key] == i;
      }
    }
  }

  function OneItemOpening(s: Control, run: RunId, now: int, clock: int): Control {
    s.(heartbeat := Some(LeasedHeartbeat(run, now)), batches := s.batches + [Started(BatchId(run), run, clock)])
  }

  function OneItemSession(items: Items, run: RunId): Session {
    Session(BatchId(run), run, ONE_ITEM_POLICY, PlanBatch(items, ONE_ITEM_POLICY, NO_USAGE))
  }

  lemma SomethingPlanned(items: Items, p: Policy)
    requires EligibleItems(items) != {}
    ensures PlanBatch(items, p, NO_USAGE).stop.None?
  {
    NoUsageNoLimit(p);
    PlanIsLeast(items, p, NO_USAGE);
  }

  /** The claim that follows the opening of a one-item batch for a fresh run. */
  lemma OpenedClaim(s: Control, spec: Spec, used: set<RunId>, run: RunId, now: int) returns (t: Item)
    requires Poised(s, spec, used, run, now) && EligibleItems(s.items) != {}
    requires ActiveBatch(s.batches).value.batchId == BatchId(run)
    ensures t == ClaimOf(Least(EligibleItems(s.items)), run, now, ITEM_LEASE_SECONDS)
    ensures Admits(s.items, t)
    ensures OneItemSession(s.items, run).plan.keys != [] && OneItemSession(s.items, run).plan.keys[0] == t.key
    ensures ClaimNext(s, OneItemSession(s.items, run), NO_USAGE, now, ITEM_LEASE_SECONDS) == Ok(Put(s, t))
    ensures Working(Put(s, t), spec, used, run, t.key, now)
    ensures EligibleItems(Put(s, t).items) == EligibleItems(s.items) - {Least(EligibleItems(s.items))}
  {
    hide ClaimNext, InspectContinuation, Working, PlanBatch, Least;
    var m := Least(EligibleItems(s.items));
    t := ClaimOf(m, run, now, ITEM_LEASE_SECONDS);
    SomethingPlanned(s.items, ONE_ITEM_POLICY);
    NothingInFlight(s.items);
    FirstContinuation(s, OneItemSession(s.items, run), now);
    FirstClaim(s, OneItemSession(s.items, run), now, m);
    ClaimLeavesWorking(s, t, spec, used, run, now);
    ClaimLeavesEligible(s.items, t);
  }

  // ---------- start ----------

  lemma StartOpens(s: Control, spec: Spec, run: RunId, now: int, clock: int)
    requires Startable(s, spec)
    ensures var s1 := s.(heartbeat := Some(LeasedHeartbeat(run, now)));
      && WriteHeartbeat(s, LeasedHeartbeat(run, now)) == Ok(s1)
      && OpenBatch(s1, BatchId(run), run, ONE_ITEM_POLICY, clock) ==
         Ok(Opened(OneItemOpening(s, run, now, clock), OneItemSession(s.items, run)))
      && EligibleItems(s.items) != {}
  {
    var k :| k in s.items;
    assert s.items[k] in EligibleItems(s.items);
    SomethingPlanned(s.items, ONE_ITEM_POLICY);
  }

  lemma StartPoises(s: Control, spec: Spec, run: RunId, now: int, clock: int)
    requires Startable(s, spec) && s.manifest.updatedAt <= now && |s.items| <= MAX_CAMPAIGN_ITEMS
    requires forall k | k in s.items :: s.items[k].at <= now
    ensures Poised(OneItemOpening(s, run, now, clock), spec, {}, run, now)
  {
  }

  /** Start claims the least item of any startable campaign. */
  lemma StartWorks(s: Control, spec: Spec, run: RunId, now: int, clock: int) returns (t: Item)
    requires Startable(s, spec) && s.manifest.updatedAt <= now && |s.items| <= MAX_CAMPAIGN_ITEMS
    requires forall k | k in s.items :: s.items[k].at <= now
    ensures EligibleItems(s.items) != {}
    ensures t == ClaimOf(Least(EligibleItems(s.items)), run, now, ITEM_LEASE_SECONDS)
    ensures var a := Start(s, spec, run, now, clock);
      && a.result == Ok(t)
      && Working(a.control, spec, {}, run, t.key, now)
      && a.control.history == s.history + [t]
      && EligibleItems(a.control.items) == EligibleItems(s.items) - {Least(EligibleItems(s.items))}
  {
    hide ClaimNext, OpenBatch, WriteHeartbeat, Poised, Working, PlanBatch, Least, EligibleItems;
    StartOpens(s, spec, run, now, clock);
    StartPoises(s, spec, run, now, clock);
    t := OpenedClaim(OneItemOpening(s, run, now, clock), spec, {}, run, now);
  }

  // ---------- execute ----------

  /** The session the runtime rebuilds while `key` is in flight. */
  function WorkSession(s: Control, run: RunId, key: Key): Session
    requires ActiveBatch(s.batches).Some?
  {
    Session(ActiveBatch(s.batches).value.batchId, run, ONE_ITEM_POLICY, Plan([key], None))
  }

  /** `key` is the one item in flight, at `status`, for the run that owns the active batch. */
  ghost predicate Carrying(s: Control, run: RunId, key: Key, status: ItemStatus, now: int) {
    && ActiveBatch(s.batches).Some?
    && Ownership(s, ActiveBatch(s.batches).value.batchId, run, now) == Ok(Ready)
    && |s.items| <= MAX_CAMPAIGN_ITEMS
    && key in s.items && s.items[key].status == status && s.items[key].runId == Some(run) && s.items[key].at <= now
    && InFlightKeys(s.items) == {key}
    && CommittedByRun(s.items, run) == {}
  }

  lemma NothingCommitted(items: Items, key: Key, run: RunId)
    requires CommittedByRun(items, run) == {}
    ensures PrefixLength(items, [key], run) == 0
  {
    assert key in CommittedByRun(items, run) <==> CommittedBy(items, key, run);
  }

  lemma OneCommitted(items: Items, key: Key, run: RunId)
    requires CommittedByRun(items, run) == {key}
    ensures PrefixLength(items, [key], run) == 1
  {
    assert key in CommittedByRun(items, run);
  }

  /** Rebuilding the session finds the claim. */
  lemma RebuildsClaim(s: Control, spec: Spec, used: set<RunId>, run: RunId, key: Key, since: int)
    requires Working(s, spec, used, run, key, since)
    ensures ClaimedApplicationSession(s, spec, run) == Ok(ClaimedSession(WorkSession(s, run, key), s.items[key].ordinal, key))
  {
    assert ClaimsBy(s.items, run) == {key};
    assert |ClaimsBy(s.items, run)| == 1 && TheOnly(ClaimsBy(s.items, run)) in {key};
  }

  lemma WorkingCarries(s: Control, spec: Spec, used: set<RunId>, run: RunId, key: Key, since: int, now: int)
    requires Working(s, spec, used, run, key, since) && since <= now < since + ITEM_LEASE_SECONDS
    ensures Carrying(s, run, key, Claimed, now)
    ensures Claims(s.items) == {s.items[key]} && !LeaseStale(s.items[key], now)
  {
    assert s.items[key] in Claims(s.items);
  }

  /** An advance of the carried item: observed, extracted, or committed. */
  lemma AdvanceCarries(s: Control, run: RunId, key: Key, status: ItemStatus, t: Item, now: int)
    requires Carrying(s, run, key, status, now) && t.key == key && Admits(s.items, t)
    requires t.status in {Observed, Extracted} && t.runId == Some(run) && t.at == now
    ensures Carrying(Put(s, t), run, key, t.status, now)
  {
    assert CommittedByRun(Put(s, t).items, run) == CommittedByRun(s.items, run);
    assert InFlightKeys(Put(s, t).items) == InFlightKeys(s.items);
  }

  lemma ObserveWorks(s: Control, run: RunId, key: Key, now: int) returns (t: Item)
    requires Carrying(s, run, key, Claimed, now)
    requires Claims(s.items) == {s.items[key]} && !LeaseStale(s.items[key], now)
    ensures t == Progressed(s.items[key], Observed, run, now, Reobserved, None) && Admits(s.items, t) && t.key == key
    ensures RecordObserved(s, WorkSession(s, run, key), NO_USAGE, now, true) == Ok(Put(s, t))
    ensures Carrying(Put(s, t), run, key, Observed, now)
  {
    NothingCommitted(s.items, key, run);
    t := Progressed(s.items[key], Observed, run, now, Reobserved, None);
    AdvanceCarries(s, run, key, Claimed, t, now);
    hide Carrying, PlanBatch;
  }

  lemma ExtractWorks(s: Control, run: RunId, key: Key, now: int) returns (t: Item)
    requires Carrying(s, run, key, Observed, now)
    ensures t == Progressed(s.items[key], Extracted, run, now, ExtractionDone, None) && Admits(s.items, t) && t.key == key
    ensures RecordExtracted(s, WorkSession(s, run, key), NO_USAGE, now, true) == Ok(Put(s, t))
    ensures Carrying(Put(s, t), run, key, Extracted, now)
  {
    NothingCommitted(s.items, key, run);
    t := Progressed(s.items[key], Extracted, run, now, ExtractionDone, None);
    AdvanceCarries(s, run, key, Observed, t, now);
  }

  lemma CommitWorks(s: Control, run: RunId, key: Key, now: int, content: Hash) returns (t: Item)
    requires Carrying(s, run, key, Extracted, now)
    ensures t == Progressed(s.items[key], Committed, run, now, ResultVerified, Some(content)) && Admits(s.items, t) && t.key == key
    ensures RecordCommitted(s, WorkSession(s, run, key), NO_USAGE, now, true, content) == Ok(Put(s, t))
    ensures CommittedByRun(Put(s, t).items, run) == {key} && InFlightKeys(Put(s, t).items) == {}
  {
    NothingCommitted(s.items, key, run);
    t := Progressed(s.items[key], Committed, run, now, ResultVerified, Some(content));
    assert CommittedByRun(Put(s, t).items, run) == CommittedByRun(s.items, run) + {key};
    forall k | k in s.items && k != key
      ensures !InFlight(s.items[k])
    {
      assert k !in InFlightKeys(s.items);
    }
  }

  /** A one-item batch whose item is committed finishes at the item limit, whatever else was used. */
  lemma FinishWorks(s: Control, run: RunId, key: Key, now: int, usage: Usage)
    requires ActiveBatch(s.batches).Some?
    requires Ownership(s, ActiveBatch(s.batches).value.batchId, run, now) == Ok(Ready)
    requires CommittedByRun(s.items, run) == {key} && InFlightKeys(s.items) == {}
    requires usage.itemsCompleted == 1
    ensures var session := WorkSession(s, run, key);
      FinishBatch(s, session, usage, now) ==
      Ok((s.(batches := s.batches + [Finished(session.batchId, run, now, Stopped(ItemLimit), usage)]), Stopped(ItemLimit)))
  {
    OneCommitted(s.items, key, run);
    ItemLimitFirst(ONE_ITEM_POLICY, usage);
    assert KeySet([key][..1]) == {key};
    hide PlanBatch;
  }

  /** The record after the three advances of `key`. */
  function Worked(s: Control, run: RunId, key: Key, now: int, content: Hash): Control
    requires key in s.items && s.items[key].status == Claimed
  {
    var t1 := Progressed(s.items[key], Observed, run, now, Reobserved, None);
    var t2 := Progressed(t1, Extracted, run, now, ExtractionDone, None);
    var t3 := Progressed(t2, Committed, run, now, ResultVerified, Some(content));
    s.(items := s.items[key := t3], history := s.history + [t1, t2, t3])
  }

  lemma ThreePuts(s: Control, t1: Item, t2: Item, t3: Item)
    requires Admits(s.items, t1)
    requires Admits(Put(s, t1).items, t2)
    requires Admits(Put(Put(s, t1), t2).items, t3)
    requires t1.key == t2.key == t3.key
    ensures Put(Put(Put(s, t1), t2), t3) == s.(items := s.items[t3.key := t3], history := s.history + [t1, t2, t3])
  {
    assert s.items[t1.key := t1][t2.key := t2][t3.key := t3] == s.items[t3.key := t3];
    assert s.history + [t1] + [t2] + [t3] == s.history + [t1, t2, t3];
  }

  /** The three advances succeed, and hand over to the finish. */
  lemma CommitWorkWorks(s: Control, spec: Spec, used: set<RunId>, run: RunId, key: Key, since: int, now: int, clock: int, work: Work)
    requires Working(s, spec, used, run, key, since) && since <= now < since + ITEM_LEASE_SECONDS
    requires work.Extraction? && work.applicationVerified && work.identityVerified
    ensures var s3 := Worked(s, run, key, now, work.content);
      && Execute(s, spec, run, now, clock, work) ==
         HandOffWork(s3, WorkSession(s, run, key), UsageOf(work.report), now, clock, run, work.content)
      && CommittedByRun(s3.items, run) == {key} && InFlightKeys(s3.items) == {}
  {
    hide Carrying, RecordObserved, RecordExtracted, RecordCommitted, HandOffWork, ClaimedApplicationSession, LeaseStale, Claims, UsageOf;
    RebuildsClaim(s, spec, used, run, key, since);
    WorkingCarries(s, spec, used, run, key, since, now);
    hide Working;
    var t1 := ObserveWorks(s, run, key, now);
    var t2 := ExtractWorks(Put(s, t1), run, key, now);
    var t3 := CommitWorks(Put(Put(s, t1), t2), run, key, now, work.content);
    ThreePuts(s, t1, t2, t3);
  }

  /** Finish and handoff succeed once the item is committed. */
  lemma HandOffWorks(s: Control, session: Session, usage: Usage, now: int, clock: int, run: RunId, key: Key, content: Hash)
    requires ActiveBatch(s.batches).Some? && session == WorkSession(s, run, key)
    requires Ownership(s, session.batchId, run, now) == Ok(Ready)
    requires CommittedByRun(s.items, run) == {key} && InFlightKeys(s.items) == {} && usage.itemsCompleted == 1
    requires LastItem(s).Some? && LastItem(s).value.status == Committed && LastItem(s).value.content == Some(content)
    requires s.handoff.Some? ==> s.handoff.value.lastRunId != run
    ensures var s1 := s.(batches := s.batches + [Finished(session.batchId, run, now, Stopped(ItemLimit), usage)]);
      HandOffWork(s, session, usage, now, clock, run, content) == Attempt(WriteHandoff(s1, run, clock), Ok(Stopped(ItemLimit)))
  {
    hide FinishBatch, InspectFinished, Ownership, CommittedByRun, InFlightKeys, NextOrdinal, CountStatus;
    FinishWorks(s, run, key, now, usage);
    FinishAndHandoffAgree(s, session, usage, now);
  }

  lemma SameEligible(items: Items, next: Items, key: Key)
    requires next.Keys == items.Keys && key in items && !Eligible(items[key]) && !Eligible(next[key])
    requires forall k | k in items && k != key :: next[k] == items[k]
    ensures EligibleItems(next) == EligibleItems(items)
  {
    forall i
      ensures i in EligibleItems(next) <==> i in EligibleItems(items)
    {
      if i in EligibleItems(items) {
        assert next[i.key] == i;
      }
      if i in EligibleItems(next) {
        assert items[i.key] == i;
      }
    }
  }

  /** The record after a whole execution. */
  function Executed(s: Control, run: RunId, key: Key, now: int, clock: int, content: Hash, usage: Usage): Control
    requires key in s.items && s.items[key].status == Claimed && ActiveBatch(s.batches).Some?
  {
    var s3 := Worked(s, run, key, now, content);
    WriteHandoff(s3.(batches := s3.batches + [Finished(ActiveBatch(s.batches).value.batchId, run, now, Stopped(ItemLimit), usage)]), run, clock)
  }

  lemma WorkedFrame(s: Control, run: RunId, key: Key, now: int, content: Hash)
    requires key in s.items && s.items[key].status == Claimed
    ensures var s3 := Worked(s, run, key, now, content);
      && s3 == s.(items := s3.items, history := s3.history) && s3.items.Keys == s.items.Keys
      && EligibleItems(s3.items) == EligibleItems(s.items)
  {
    SameEligible(s.items, Worked(s, run, key, now, content).items, key);
    hide EligibleItems;
  }

  lemma WorkingParts(s: Control, spec: Spec, used: set<RunId>, run: RunId, key: Key, since: int)
    requires Working(s, spec, used, run, key, since)
    ensures s.heartbeat == Some(LeasedHeartbeat(run, since)) && key in s.items && s.items[key].status == Claimed
    ensures ActiveBatch(s.batches).Some? && ActiveBatch(s.batches).value.runId == run
  {
  }

  lemma WorkedOrderly(s: Control, spec: Spec, used: set<RunId>, run: RunId, key: Key, since: int, now: int, content: Hash)
    requires Working(s, spec, used, run, key, since) && since <= now
    ensures Orderly(Worked(s, run, key, now, content), spec, used + {run}, now)
    ensures forall k | k in s.items :: Settled(Worked(s, run, key, now, content).items[k])
  {
    hide CommittedByRun;
  }

  /** A finish record and a handoff do not disturb the order. */
  lemma FinishOrderly(s: Control, spec: Spec, used: set<RunId>, run: RunId, now: int, clock: int, b: BatchTransition)
    requires Orderly(s, spec, used, now) && b.Finished? && run in used
    ensures Orderly(WriteHandoff(s.(batches := s.batches + [b]), run, clock), spec, used, now)
  {
    hide NextOrdinal, CountStatus;
  }

  /** The record after finish and handoff, from the one after the three advances. */
  lemma FinishHandsOff(s: Control, spec: Spec, used: set<RunId>, run: RunId, key: Key, since: int, now: int, clock: int, b: BatchTransition)
    requires Orderly(s, spec, used, now) && run in used && since <= now && clock >= s.manifest.updatedAt
    requires s.heartbeat == Some(LeasedHeartbeat(run, since)) && CommittedByRun(s.items, run) == {key}
    requires forall k | k in s.items :: Settled(s.items[k])
    requires ActiveBatch(s.batches).Some? && ActiveBatch(s.batches).value.runId == run
    requires b.Finished? && b.batchId == ActiveBatch(s.batches).value.batchId && b.runId == run
    requires b.code == Stopped(ItemLimit) && b.usage.itemsCompleted == 1
    ensures HandedOff(WriteHandoff(s.(batches := s.batches + [b]), run, clock), spec, used, run, key, since, now)
  {
    hide NextOrdinal, CountStatus, CommittedByRun, Orderly, Settled;
    FinishOrderly(s, spec, used, run, now, clock, b);
  }

  lemma ExecutedHandsOff(s: Control, spec: Spec, used: set<RunId>, run: RunId, key: Key, since: int, now: int, clock: int,
                         content: Hash, usage: Usage)
    requires Working(s, spec, used, run, key, since) && since <= now && clock >= s.manifest.updatedAt && usage.itemsCompleted == 1
    requires CommittedByRun(Worked(s, run, key, now, content).items, run) == {key}
    ensures HandedOff(Executed(s, run, key, now, clock, content, usage), spec, used + {run}, run, key, since, now)
    ensures EligibleItems(Executed(s, run, key, now, clock, content, usage).items) == EligibleItems(s.items)
  {
    hide EligibleItems, CommittedByRun, Orderly, Settled, Working, Worked, HandedOff, DerivedHandoff;
    WorkingParts(s, spec, used, run, key, since);
    var s3 := Worked(s, run, key, now, content);
    var b := Finished(ActiveBatch(s.batches).value.batchId, run, now, Stopped(ItemLimit), usage);
    WorkedFrame(s, run, key, now, content);
    WorkedOrderly(s, spec, used, run, key, since, now, content);
    FinishHandsOff(s3, spec, used + {run}, run, key, since, now, clock, b);
  }

  /** Executing a claim within its lease commits it, finishes the batch and hands off. */
  lemma ExecuteWorks(s: Control, spec: Spec, used: set<RunId>, run: RunId, key: Key, since: int, now: int, clock: int, work: Work)
    requires Working(s, spec, used, run, key, since) && since <= now < since + ITEM_LEASE_SECONDS
    requires clock >= s.manifest.updatedAt
    requires work.Extraction? && work.applicationVerified && work.identityVerified
    ensures Execute(s, spec, run, now, clock, work) ==
            Attempt(Executed(s, run, key, now, clock, work.content, UsageOf(work.report)), Ok(Stopped(ItemLimit)))
    ensures HandedOff(Executed(s, run, key, now, clock, work.content, UsageOf(work.report)), spec, used + {run}, run, key, since, now)
    ensures EligibleItems(Executed(s, run, key, now, clock, work.content, UsageOf(work.report)).items) == EligibleItems(s.items)
  {
    hide HandedOff, HandOffWork, Execute, EligibleItems, DerivedHandoff, CommittedByRun, InFlightKeys;
    CommitWorkWorks(s, spec, used, run, key, since, now, clock, work);
    WorkingCarries(s, spec, used, run, key, since, now);
    HandOffWorks(Worked(s, run, key, now, work.content), WorkSession(s, run, key), UsageOf(work.report), now, clock, run, key, work.content);
    ExecutedHandsOff(s, spec, used, run, key, since, now, clock, work.content, UsageOf(work.report));
  }

  /** Outside the lease of its claim an execution is refused, and changes nothing. */
  lemma LateWorkRefused(s: Control, spec: Spec, used: set<RunId>, run: RunId, key: Key, since: int, now: int, clock: int, work: Work)
    requires Working(s, spec, used, run, key, since) && !(since <= now < since + ITEM_LEASE_SECONDS) && work.Extraction?
    ensures Execute(s, spec, run, now, clock, work) == Attempt(s, Err(CommitFailed))
  {
    RebuildsClaim(s, spec, used, run, key, since);
    NothingCommitted(s.items, key, run);
    hide PrefixLength, CommittedByRun, HandOffWork, RecordExtracted, RecordCommitted, ClaimedApplicationSession;
  }
}
