/**
  One round of a BOSS campaign with the identity policy never blocks: the states
  between the calls, and what each of start, execute and restart does to them.
*/
module BossRounds {
  import opened Wrappers
  import opened Campaign
  import opened Batching
  import opened BatchCoordinator
  import opened CoordinatorSafety
  import opened BatchProgress
  import opened BatchOutcome
  import opened ApplicationCampaign
  import opened ApplicationRounds
  import opened ApplicationResume
  import opened ApplicationTheorem
  import opened HeadItem
  import opened BossCampaign
  import opened BossSessions
  import opened BossRestart
  import Discovery

  // ---------- states between the calls ----------

  /** What holds at every point: `used` are the run ids that have appeared, `at` bounds all times. */
  ghost predicate BossOrderly(s: Control, c: Discovery.Contract, used: set<RunId>, at: int) {
    && ContractMatches(s.manifest, c) && s.manifest.status == Running && s.manifest.updatedAt <= at
    && |s.items| <= MAX_CAMPAIGN_ITEMS
    && (forall k | k in s.items :: s.items[k].at <= at)
    && (forall k | k in s.items && s.items[k].status == Committed :: s.items[k].runId.value in used)
    && (forall i | 0 <= i < |s.batches| && s.batches[i].Started? ::
          s.batches[i].runId in used && s.batches[i].batchId in {StartedBatchId(s.batches[i].runId), ResumedBatchId(s.batches[i].runId)})
    && (s.handoff.Some? ==> s.handoff.value.lastRunId in used)
  }

  /** The order lists the last ordinals of the ledger, one by one. */
  predicate Numbered(items: Items, order: seq<Key>) {
    forall i | 0 <= i < |order| :: order[i] in items && items[order[i]].ordinal == |items| - |order| + 1 + i
  }

  /** The session's batch is open, and its run's claim on the first key of the order waits to be executed. */
  ghost predicate BossWorking(s: Control, c: Discovery.Contract, used: set<RunId>, session: Session, order: seq<Key>, since: int) {
    var run := session.runId;
    && run !in used && BossOrderly(s, c, used + {run}, since)
    && s.heartbeat == Some(LeasedHeartbeat(run, since))
    && ActiveBatch(s.batches).Some? && ActiveBatch(s.batches).value.batchId == session.batchId
    && ActiveBatch(s.batches).value.runId == run
    && session.policy == BOSS_BATCH_POLICY && Honest(session, order, run) && Numbered(s.items, order)
    && Progress(s.items, order, run, 0) && InFlightKeys(s.items) == {order[0]}
    && s.items[order[0]].status == Claimed && s.items[order[0]].leaseExpires == Some(since + ITEM_LEASE_SECONDS)
    && (forall k | k in s.items && k != order[0] :: Settled(s.items[k]))
    && (s.handoff.Some? ==> s.handoff.value.lastRunId != run)
  }

  /** A batch has been finished and handed off, and can be rebuilt as `done`. */
  ghost predicate BossRested(s: Control, c: Discovery.Contract, used: set<RunId>, done: FinishedSession, at: int) {
    && done.session.runId in used && BossOrderly(s, c, used, at)
    && FinishedBossSession(s, c, BOSS_BATCH_POLICY, false) == Ok(done)
    && s.heartbeat.Some? && s.heartbeat.value.heartbeatAt <= at
    && (forall k | k in s.items :: Settled(s.items[k]))
    && Numbered(s.items, EligibleOrder(s.items))
  }

  // ---------- execute ----------

  /** What the observation must report: the item, one tool call, no provider turn, within the wall time. */
  predicate IdentitySeen(work: BossWork) {
    work.BossSeen? && work.toolCalls == 1 && work.providerTurns == 0 && work.elapsed < BOSS_BATCH_POLICY.maxElapsedSeconds
  }

  lemma IdentityUsage(work: BossWork)
    requires IdentitySeen(work)
    ensures StopOf(BOSS_BATCH_POLICY, BossUsage(work)) == Some(ToolCallLimit)
    ensures UsageFits(BossUsage(work), BOSS_BATCH_POLICY, false) && BossUsage(work).itemsCompleted == 1
  {
    var q := Checks(BOSS_BATCH_POLICY, BossUsage(work));
    assert q[0] == Check(1, 20, ItemLimit) && q[1] == Check(work.elapsed, BOSS_BATCH_POLICY.maxElapsedSeconds, WallTimeLimit);
    assert q[2] == Check(0, 12, ProviderTurnLimit) && q[3] == Check(1, 1, ToolCallLimit);
    hide FirstReached, Checks;
    var i :| 0 <= i < |q| && q[i].reason == FirstReached(q).value && q[i].used >= q[i].maximum
             && forall j | 0 <= j < i :: q[j].used < q[j].maximum;
    assert i == 3;
  }

  lemma WorkingHead(s: Control, c: Discovery.Contract, used: set<RunId>, session: Session, order: seq<Key>, since: int, now: int)
    requires BossWorking(s, c, used, session, order, since) && since <= now < since + ITEM_LEASE_SECONDS
    ensures order != [] && order[0] in s.items && s.items[order[0]].status == Claimed
    ensures Carrying(s, session.runId, order[0], Claimed, now) && Heads(s, session, session.runId, order[0])
    ensures Claims(s.items) == {s.items[order[0]]} && !LeaseStale(s.items[order[0]], now)
  {
    assert CommittedByRun(s.items, session.runId) == KeySet(order[..0]) == {};
    assert order[0] in InFlightKeys(s.items);
    hide Ascending, Before, CommittedByRun;
  }

  lemma WorkingRebuilds(s: Control, c: Discovery.Contract, used: set<RunId>, session: Session, order: seq<Key>, since: int)
    requires BossWorking(s, c, used, session, order, since)
    ensures order != [] && order[0] in s.items
    ensures ClaimedBossSession(s, c, session.runId) == Ok(ClaimedSession(session, s.items[order[0]].ordinal, order[0]))
  {
    assert order[0] in InFlightKeys(s.items);
    hide Progress, InFlightKeys, ClaimedBossSession, Honest;
    ClaimRebuildsSession(s, c, session, order);
  }

  lemma HeadInspected(s: Control, session: Session, run: RunId, key: Key, now: int)
    requires Carrying(s, run, key, Claimed, now) && Heads(s, session, run, key)
    requires Claims(s.items) == {s.items[key]} && !LeaseStale(s.items[key], now)
    ensures InspectNextClaimed(s, session, NO_USAGE, now) == Ok((Ready, key))
  {
    assert key in CommittedByRun(s.items, run) <==> CommittedBy(s.items, key, run);
    assert PrefixLength(s.items, session.plan.keys, run) == 0;
    hide PrefixLength, CommittedByRun, InFlightKeys;
  }

  /** The three advances succeed, and hand over to the finish. */
  lemma BossAdvances(s: Control, c: Discovery.Contract, used: set<RunId>, session: Session, order: seq<Key>, since: int, now: int, clock: int,
                     work: BossWork)
    requires BossWorking(s, c, used, session, order, since) && since <= now < since + ITEM_LEASE_SECONDS && work.BossSeen?
    ensures order != [] && order[0] in s.items && s.items[order[0]].status == Claimed
    ensures ExecuteBoss(s, c, session.runId, now, clock, work) ==
            HandOffBoss(Worked(s, session.runId, order[0], now, work.content), session, BossUsage(work), now, clock,
                        s.items[order[0]].ordinal, work.content)
  {
    WorkingRebuilds(s, c, used, session, order, since);
    WorkingHead(s, c, used, session, order, since, now);
    hide BossWorking, Carrying, Heads, Claims, LeaseStale, ClaimedBossSession, InspectNextClaimed, RecordObserved, RecordExtracted,
      RecordCommitted, HandOffBoss, BossUsage, Worked;
    HeadInspected(s, session, session.runId, order[0], now);
    var s1, s2 := HeadWorks(s, session, session.runId, order[0], now, work.content);
  }

  /** The next ordinal once the head is committed. */
  lemma NextAfter(items: Items, order: seq<Key>, run: RunId)
    requires Progress(items, order, run, 1) && InFlightKeys(items) == {} && Numbered(items, order)
    requires forall k | k in items :: Settled(items[k])
    ensures NextOrdinal(items) == items[order[0]].ordinal + 1
    ensures EligibleOrder(items) == order[1..] && Numbered(items, order[1..])
  {
    OrderRest(items, order, run);
    hide Sorted, EligibleItems, Least, Progress, InFlightKeys, NextOrdinal, EligibleOrder, Settled;
    forall i | 0 <= i < |order[1..]|
      ensures order[1..][i] in items && items[order[1..][i]].ordinal == |items| - |order[1..]| + 1 + i
    {
      assert order[1..][i] == order[i + 1];
    }
    LastTaken(items, order, run);
    OrderEmpty(items);
    if EligibleItems(items) == {} {
      SettledIncomplete(items);
      NoneIncomplete(items);
    } else {
      NextIsLeast(items);
      LeastIsItem(items);
      OrderStart(items);
    }
  }

  lemma OrderRest(items: Items, order: seq<Key>, run: RunId)
    requires Progress(items, order, run, 1) && InFlightKeys(items) == {}
    ensures order != [] && EligibleOrder(items) == order[1..]
  {
    hide Sorted, EligibleItems, InFlightKeys;
    RemainingSorted(items, order, run, 1);
  }

  lemma LastTaken(items: Items, order: seq<Key>, run: RunId)
    requires Progress(items, order, run, 1)
    ensures order != [] && order[0] in items
  {
  }

  lemma OrderEmpty(items: Items)
    ensures EligibleOrder(items) == [] <==> EligibleItems(items) == {}
  {
    assert |EligibleOrder(items)| == |EligibleItems(items)|;
  }

  lemma NoneIncomplete(items: Items)
    requires IncompleteItems(items) == {}
    ensures NextOrdinal(items) == |items| + 1
  {
  }

  lemma OrderStart(items: Items)
    requires EligibleItems(items) != {}
    ensures EligibleOrder(items) != [] && EligibleOrder(items)[0] == Least(EligibleItems(items)).key
  {
    hide Least;
    SortedCons(EligibleItems(items));
  }

  function BossFinish(session: Session, now: int, work: BossWork): BatchTransition
    requires work.BossSeen?
  {
    Finished(session.batchId, session.runId, now, Stopped(ToolCallLimit), BossUsage(work))
  }

  /** The record after a whole execution. */
  function BossExecuted(s: Control, session: Session, key: Key, now: int, clock: int, work: BossWork): Control
    requires key in s.items && s.items[key].status == Claimed && work.BossSeen?
  {
    var s3 := Worked(s, session.runId, key, now, work.content);
    WriteHandoff(s3.(batches := s3.batches + [BossFinish(session, now, work)]), session.runId, clock)
  }

  /** With the head committed and the tool call limit reached, the batch finishes with that limit. */
  lemma BossFinishes(s: Control, session: Session, order: seq<Key>, now: int, work: BossWork)
    requires Ownership(s, session.batchId, session.runId, now) == Ok(Ready) && InFlightKeys(s.items) == {}
    requires Progress(s.items, order, session.runId, 1) && Honest(session, order, session.runId)
    requires session.policy == BOSS_BATCH_POLICY && IdentitySeen(work)
    ensures FinishBatch(s, session, BossUsage(work), now) ==
            Ok((s.(batches := s.batches + [BossFinish(session, now, work)]), Stopped(ToolCallLimit)))
  {
    IdentityUsage(work);
    assert session.plan.keys == order[..|session.plan.keys|] && session.plan.keys != [];
    PrefixIsProgress(s.items, order, session.runId, 1, |session.plan.keys|);
    hide StopOf, PlanBatch, PrefixLength, CommittedByRun, InFlightKeys, Progress, BossUsage;
  }

  lemma BossHandsOff(s: Control, session: Session, order: seq<Key>, now: int, clock: int, work: BossWork, ordinal: int)
    requires Ownership(s, session.batchId, session.runId, now) == Ok(Ready) && InFlightKeys(s.items) == {}
    requires Progress(s.items, order, session.runId, 1) && Honest(session, order, session.runId)
    requires session.policy == BOSS_BATCH_POLICY && IdentitySeen(work)
    requires LastItem(s).Some? && LastItem(s).value.status == Committed && LastItem(s).value.content == Some(work.content)
    requires s.handoff.Some? ==> s.handoff.value.lastRunId != session.runId
    requires NextOrdinal(s.items) == ordinal + 1
    ensures var s1 := s.(batches := s.batches + [BossFinish(session, now, work)]);
      HandOffBoss(s, session, BossUsage(work), now, clock, ordinal, work.content) ==
      Attempt(WriteHandoff(s1, session.runId, clock), Ok(Stopped(ToolCallLimit)))
  {
    assert work.BossSeen?;
    hide *;
    BossFinishes(s, session, order, now, work);
    FinishAndHandoffAgree(s, session, BossUsage(work), now);
    FinishedHandsOff(s, session, now, clock, work, ordinal);
  }

  lemma FinishedHandsOff(s: Control, session: Session, now: int, clock: int, work: BossWork, ordinal: int)
    requires work.BossSeen? && LastItem(s).Some?
    requires LastItem(s).value.status == Committed && LastItem(s).value.content == Some(work.content)
    requires s.handoff.Some? ==> s.handoff.value.lastRunId != session.runId
    requires NextOrdinal(s.items) == ordinal + 1
    requires var s1 := s.(batches := s.batches + [BossFinish(session, now, work)]);
      && FinishBatch(s, session, BossUsage(work), now) == Ok((s1, Stopped(ToolCallLimit)))
      && InspectFinished(s1, session, BossUsage(work), now) == Ok(Ready)
    ensures var s1 := s.(batches := s.batches + [BossFinish(session, now, work)]);
      HandOffBoss(s, session, BossUsage(work), now, clock, ordinal, work.content) ==
      Attempt(WriteHandoff(s1, session.runId, clock), Ok(Stopped(ToolCallLimit)))
  {
    hide FinishBatch, InspectFinished, NextOrdinal, CountStatus, BossUsage, BossFinish;
  }

  lemma WorkedRests(s: Control, c: Discovery.Contract, used: set<RunId>, session: Session, order: seq<Key>, since: int, now: int, content: Hash)
    requires BossWorking(s, c, used, session, order, since) && since <= now < since + ITEM_LEASE_SECONDS
    ensures order != [] && order[0] in s.items && s.items[order[0]].status == Claimed
    ensures var s3 := Worked(s, session.runId, order[0], now, content);
      && Ownership(s3, session.batchId, session.runId, now) == Ok(Ready) && InFlightKeys(s3.items) == {}
      && Progress(s3.items, order, session.runId, 1) && Honest(session, order, session.runId)
      && (forall k | k in s3.items :: Settled(s3.items[k])) && Numbered(s3.items, order)
      && BossOrderly(s3, c, used + {session.runId}, now)
      && s3.items[order[0]].ordinal == s.items[order[0]].ordinal
      && LastItem(s3).Some? && LastItem(s3).value.status == Committed && LastItem(s3).value.content == Some(content)
      && s3.handoff == s.handoff && s3.heartbeat == s.heartbeat && s3.manifest == s.manifest && s3.batches == s.batches
      && s3.items.Keys == s.items.Keys
  {
    WorkingHead(s, c, used, session, order, since, now);
    HeadProgress(s, order, session.runId, now, content);
    hide Progress, InFlightKeys, Carrying, Heads, Claims, Honest, BossOrderly, Numbered;
    WorkedOrdered(s, c, used + {session.runId}, session.runId, order, since, now, content);
  }

  lemma WorkedOrdered(s: Control, c: Discovery.Contract, used: set<RunId>, run: RunId, order: seq<Key>, since: int, now: int, content: Hash)
    requires BossOrderly(s, c, used, since) && since <= now && run in used && Numbered(s.items, order)
    requires order != [] && order[0] in s.items && s.items[order[0]].status == Claimed
    ensures var s3 := Worked(s, run, order[0], now, content);
      && BossOrderly(s3, c, used, now) && Numbered(s3.items, order) && s3.items.Keys == s.items.Keys
  {
    var s3 := Worked(s, run, order[0], now, content);
    assert s3.items.Keys == s.items.Keys;
    SameSize(s, s3);
    hide ContractMatches;
  }

  /** Executing a claim within its lease commits it, finishes at the tool call limit and hands off. */
  lemma BossExecuteWorks(s: Control, c: Discovery.Contract, used: set<RunId>, session: Session, order: seq<Key>, since: int, now: int, clock: int,
                         work: BossWork)
    requires BossWorking(s, c, used, session, order, since) && since <= now < since + ITEM_LEASE_SECONDS
    requires clock >= s.manifest.updatedAt && IdentitySeen(work)
    ensures order != [] && order[0] in s.items && s.items[order[0]].status == Claimed
    ensures ExecuteBoss(s, c, session.runId, now, clock, work) ==
            Attempt(BossExecuted(s, session, order[0], now, clock, work), Ok(Stopped(ToolCallLimit)))
  {
    WorkedRests(s, c, used, session, order, since, now, work.content);
    BossAdvances(s, c, used, session, order, since, now, clock, work);
    var s3 := Worked(s, session.runId, order[0], now, work.content);
    NextAfter(s3.items, order, session.runId);
    WorkingPolicy(s, c, used, session, order, since);
    hide BossWorking, Progress, InFlightKeys, Ownership, Honest, HandOffBoss, ExecuteBoss, NextOrdinal, Worked, BossOrderly, IdentitySeen,
      BossUsage, Numbered;
    BossHandsOff(s3, session, order, now, clock, work, s.items[order[0]].ordinal);
  }

  lemma WorkingPolicy(s: Control, c: Discovery.Contract, used: set<RunId>, session: Session, order: seq<Key>, since: int)
    requires BossWorking(s, c, used, session, order, since)
    ensures session.policy == BOSS_BATCH_POLICY && ContractMatches(s.manifest, c)
    ensures s.handoff.Some? ==> s.handoff.value.lastRunId != session.runId
    ensures s.heartbeat == Some(LeasedHeartbeat(session.runId, since))
    ensures ActiveBatch(s.batches).Some? && s.batches != []
  {
  }

  /** And leaves a record that can be rebuilt, with the rest of the order to do. */
  lemma BossExecutedRests(s: Control, c: Discovery.Contract, used: set<RunId>, session: Session, order: seq<Key>, since: int, now: int, clock: int,
                          work: BossWork) returns (done: FinishedSession)
    requires BossWorking(s, c, used, session, order, since) && since <= now < since + ITEM_LEASE_SECONDS
    requires clock >= s.manifest.updatedAt && IdentitySeen(work)
    ensures order != [] && order[0] in s.items && s.items[order[0]].status == Claimed
    ensures var next := BossExecuted(s, session, order[0], now, clock, work);
      && done.session == session && BossRested(next, c, used + {session.runId}, done, now)
      && EligibleOrder(next.items) == order[1..] && |next.items| == |s.items|
      && CommitLog(next.history) == CommitLog(s.history) + [order[0]]
  {
    WorkedRests(s, c, used, session, order, since, now, work.content);
    WorkingPolicy(s, c, used, session, order, since);
    var key := order[0];
    var s3 := Worked(s, session.runId, key, now, work.content);
    var next := BossExecuted(s, session, key, now, clock, work);
    hide *;
    CommitLogExecuted(s, session.runId, key, now, work.content);
    NextAfter(s3.items, order, session.runId);
    IdentityUsage(work);
    BossFinishes(s3, session, order, now, work);
    FinishThenRebuild(s3, c, session, BossUsage(work), now, clock, order, false);
    ExecutedIs(s, session, key, now, clock, work);
    done := FinishedBossSession(next, c, BOSS_BATCH_POLICY, false).value;
    RestsOrderly(s3, c, used + {session.runId}, session, now, clock, work);
    RestedBy(next, c, used + {session.runId}, done, since, now);
    SameSize(s, s3);
  }

  lemma SameSize(s: Control, next: Control)
    requires next.items.Keys == s.items.Keys
    ensures |next.items| == |s.items|
  {
    assert |next.items| == |next.items.Keys|;
  }

  lemma ExecutedIs(s: Control, session: Session, key: Key, now: int, clock: int, work: BossWork)
    requires key in s.items && s.items[key].status == Claimed && work.BossSeen?
    ensures var s3, next := Worked(s, session.runId, key, now, work.content), BossExecuted(s, session, key, now, clock, work);
      && next == WriteHandoff(s3.(batches := s3.batches + [BossFinish(session, now, work)]), session.runId, clock)
      && next.items == s3.items && next.history == s3.history && next.heartbeat == s3.heartbeat
  {
    hide Worked, NextOrdinal, CountStatus;
  }

  lemma RestsOrderly(s: Control, c: Discovery.Contract, used: set<RunId>, session: Session, now: int, clock: int, work: BossWork)
    requires BossOrderly(s, c, used, now) && session.runId in used && work.BossSeen?
    ensures BossOrderly(WriteHandoff(s.(batches := s.batches + [BossFinish(session, now, work)]), session.runId, clock), c, used, now)
  {
    hide NextOrdinal, CountStatus, ContractMatches, BossUsage;
  }

  lemma RestedBy(s: Control, c: Discovery.Contract, used: set<RunId>, done: FinishedSession, since: int, at: int)
    requires done.session.runId in used && BossOrderly(s, c, used, at)
    requires FinishedBossSession(s, c, BOSS_BATCH_POLICY, false) == Ok(done)
    requires s.heartbeat == Some(LeasedHeartbeat(done.session.runId, since)) && since <= at
    requires (forall k | k in s.items :: Settled(s.items[k])) && Numbered(s.items, EligibleOrder(s.items))
    ensures BossRested(s, c, used, done, at)
  {
    hide BossOrderly, FinishedBossSession, Numbered, EligibleOrder;
  }

  // ---------- start and restart ----------

  lemma BatchIdsApart(a: RunId, b: RunId)
    requires ResumedBatchId(a) in {StartedBatchId(b), ResumedBatchId(b)}
    ensures a == b
  {
    assert ResumedBatchId(a)[5] == 'r' && StartedBatchId(b)[5] == 'b';
    assert ResumedBatchId(a)[12..] == a && ResumedBatchId(b)[12..] == b;
  }

  lemma RestedQuiet(s: Control, c: Discovery.Contract, used: set<RunId>, done: FinishedSession, at: int, now: int, next: RunId)
    requires BossRested(s, c, used, done, at) && at <= now && next !in used
    ensures Quiet(s, now) && FreshRun(s, next) && next != done.session.runId
    ensures FinishedBossSession(s, c, BOSS_BATCH_POLICY, false) == Ok(done)
  {
    hide FinishedBossSession, Numbered, EligibleOrder;
    forall i | 0 <= i < |s.batches| && s.batches[i].Started?
      ensures s.batches[i].batchId != ResumedBatchId(next)
    {
      if s.batches[i].batchId == ResumedBatchId(next) {
        BatchIdsApart(next, s.batches[i].runId);
      }
    }
  }

  /** A claim on the least eligible item right after an opening leaves the batch working. */
  lemma ClaimLeavesBossWorking(s: Control, c: Discovery.Contract, used: set<RunId>, session: Session, now: int, t: Item)
    requires session.runId !in used && BossOrderly(s, c, used + {session.runId}, now)
    requires s.heartbeat == Some(LeasedHeartbeat(session.runId, now))
    requires ActiveBatch(s.batches).Some? && ActiveBatch(s.batches).value.batchId == session.batchId
    requires ActiveBatch(s.batches).value.runId == session.runId
    requires session.policy == BOSS_BATCH_POLICY && Honest(session, EligibleOrder(s.items), session.runId)
    requires Numbered(s.items, EligibleOrder(s.items)) && (forall k | k in s.items :: Settled(s.items[k]))
    requires CommittedByRun(s.items, session.runId) == {} && EligibleItems(s.items) != {}
    requires t == ClaimOf(Least(EligibleItems(s.items)), session.runId, now, ITEM_LEASE_SECONDS) && Admits(s.items, t)
    requires s.handoff.Some? ==> s.handoff.value.lastRunId != session.runId
    ensures BossWorking(Put(s, t), c, used, session, EligibleOrder(s.items), now)
    ensures EligibleOrder(s.items)[0] == t.key
  {
    var order := EligibleOrder(s.items);
    hide EligibleOrder, Least, EligibleItems, Progress, InFlightKeys, CommittedByRun;
    NothingInFlight(s.items);
    OpeningStarts(s.items, session.runId);
    LeastIsItem(s.items);
    FirstClaimProgress(s, t, order, session.runId, now);
    ClaimOrderly(s, c, used, session.runId, now, t);
    ClaimNumbered(s.items, order, t);
    hide BossOrderly, Numbered, Honest, Admits;
  }

  lemma ClaimOrderly(s: Control, c: Discovery.Contract, used: set<RunId>, run: RunId, now: int, t: Item)
    requires BossOrderly(s, c, used + {run}, now) && Admits(s.items, t) && t.key in s.items && t.at == now && t.status == Claimed
    ensures BossOrderly(Put(s, t), c, used + {run}, now)
    ensures Put(s, t).items[t.key] == t && forall k | k in s.items && k != t.key :: Put(s, t).items[k] == s.items[k]
  {
    assert Put(s, t).items.Keys == s.items.Keys;
    SameSize(s, Put(s, t));
    hide ContractMatches, Admits;
  }

  lemma ClaimNumbered(items: Items, order: seq<Key>, t: Item)
    requires Numbered(items, order) && Admits(items, t) && t.key in items
    ensures Numbered(Admit(items, t), order)
  {
    var next := Admit(items, t);
    assert next.Keys == items.Keys;
    assert |next| == |next.Keys| && |items| == |items.Keys|;
  }

  /** The restart of a rested campaign with items left claims the next ordinal, and works again. */
  lemma BossRestartWorks(s: Control, c: Discovery.Contract, used: set<RunId>, done: FinishedSession, at: int, next: RunId, now: int)
    returns (t: Item, session: Session)
    requires BossRested(s, c, used, done, at) && at <= now && next !in used && EligibleItems(s.items) != {}
    ensures Admits(s.items, t)
    ensures ResumeBoss(s, c, BOSS_BATCH_POLICY, false, next, now) == Attempt(Put(RestartOpening(s, next, now), t), Ok(t))
    ensures session.runId == next && BossWorking(Put(RestartOpening(s, next, now), t), c, used, session, EligibleOrder(s.items), now)
    ensures EligibleOrder(s.items) != [] && t.key == EligibleOrder(s.items)[0] && t.status == Claimed && t.key in s.items
    ensures t.ordinal == |s.items| - |EligibleOrder(s.items)| + 1
  {
    hide *;
    session := RestartSession(s.items, BOSS_BATCH_POLICY, next);
    RestedQuiet(s, c, used, done, at, now, next);
    QuietParts(s, now, next);
    t := RestartClaims(s, c, BOSS_BATCH_POLICY, false, done, next, now);
    ClaimParts(Least(EligibleItems(s.items)), next, now);
    RestartOpens(s, c, BOSS_BATCH_POLICY, false, done, next, now);
    RestartFrame(s, c, used, done, at, next, now);
    RestartIs(s.items, next);
    RestartHonest(s.items, EligibleOrder(s.items), next);
    ClaimLeavesBossWorking(RestartOpening(s, next, now), c, used, session, now, t);
    HonestNonempty(session, EligibleOrder(s.items), next);
    FirstOrdinal(s.items, t);
    LeastIsItem(s.items);
  }

  lemma RestartIs(items: Items, next: RunId)
    ensures var session := RestartSession(items, BOSS_BATCH_POLICY, next);
      && session.runId == next && session.batchId == ResumedBatchId(next) && session.policy == BOSS_BATCH_POLICY
      && session.plan == PlanBatch(items, BOSS_BATCH_POLICY, NO_USAGE)
  {
    hide PlanBatch;
  }

  lemma HonestNonempty(session: Session, order: seq<Key>, run: RunId)
    requires Honest(session, order, run)
    ensures order != []
  {
  }

  lemma FirstOrdinal(items: Items, t: Item)
    requires EligibleItems(items) != {} && Numbered(items, EligibleOrder(items))
    requires EligibleOrder(items) != [] && t.key == EligibleOrder(items)[0] && t.ordinal == Least(EligibleItems(items)).ordinal
    requires t.key == Least(EligibleItems(items)).key
    ensures t.ordinal == |items| - |EligibleOrder(items)| + 1
  {
    LeastIsItem(items);
    hide EligibleOrder, Least, EligibleItems;
  }

  lemma RestartFrame(s: Control, c: Discovery.Contract, used: set<RunId>, done: FinishedSession, at: int, next: RunId, now: int)
    requires BossRested(s, c, used, done, at) && at <= now && next !in used
    ensures var s2 := RestartOpening(s, next, now);
      && s2.items == s.items && s2.history == s.history && s2.heartbeat == Some(LeasedHeartbeat(next, now))
      && BossOrderly(s2, c, used + {next}, now) && (s2.handoff.Some? ==> s2.handoff.value.lastRunId != next)
      && ActiveBatch(s2.batches) == Some(Started(ResumedBatchId(next), next, now))
      && Numbered(s2.items, EligibleOrder(s2.items))
  {
    hide FinishedBossSession, Numbered, EligibleOrder, ContractMatches;
  }

  /** With nothing left the restart strands the campaign. */
  lemma BossRestartStrands(s: Control, c: Discovery.Contract, used: set<RunId>, done: FinishedSession, at: int, next: RunId, now: int)
    requires BossRested(s, c, used, done, at) && at <= now && next !in used && EligibleItems(s.items) == {}
    ensures var taken := s.(heartbeat := Some(LeasedHeartbeat(next, now)));
      && ResumeBoss(s, c, BOSS_BATCH_POLICY, false, next, now) == Attempt(taken, Err(ResumeEvidenceInvalid))
      && Stranded(taken) && IncompleteItems(taken.items) == {} && taken.manifest.status == Running
  {
    RestedSettled(s, c, used, done, at);
    hide *;
    RestedQuiet(s, c, used, done, at, now, next);
    RestartStrands(s, c, BOSS_BATCH_POLICY, false, done, next, now);
    SettledIncomplete(s.items);
  }

  lemma RestedSettled(s: Control, c: Discovery.Contract, used: set<RunId>, done: FinishedSession, at: int)
    requires BossRested(s, c, used, done, at)
    ensures (forall k | k in s.items :: Settled(s.items[k])) && s.manifest.status == Running
  {
    hide FinishedBossSession, Numbered, EligibleOrder, ContractMatches;
  }

  /** A start whose checks pass leaves the batch working on the whole ledger. */
  lemma BossStartWorks(s: Control, c: Discovery.Contract, run: RunId, now: int, clock: int) returns (t: Item, session: Session)
    requires |s.items| <= MAX_CAMPAIGN_ITEMS && StartAccepted(s, c, now)
    ensures Admits(s.items, t)
    ensures var order := EligibleOrder(s.items);
      && StartBoss(s, c, BOSS_BATCH_POLICY, run, now, clock) == Attempt(Put(BossOpening(s, run, now, clock), t), Ok(t))
      && session.runId == run && BossWorking(Put(BossOpening(s, run, now, clock), t), c, {}, session, order, now)
      && order != [] && t.key == order[0] && t.ordinal == 1 && t.status == Claimed && |order| == |s.items|
  {
    hide *;
    session := BossSession(s.items, BOSS_BATCH_POLICY, run);
    StartFacts(s, c, now);
    AllEligible(s.items);
    t := StartBossWorks(s, c, BOSS_BATCH_POLICY, run, now, clock);
    ClaimParts(Least(EligibleItems(s.items)), run, now);
    StartOpensBoss(s, c, BOSS_BATCH_POLICY, run, now, clock);
    StartedHonest(s.items, EligibleOrder(s.items), run);
    StartNumbered(s.items);
    StartFrame(s, c, run, now, clock);
    ClaimLeavesBossWorking(BossOpening(s, run, now, clock), c, {}, session, now, t);
    HonestNonempty(session, EligibleOrder(s.items), run);
  }

  lemma StartNumbered(items: Items)
    requires EligibleItems(items) == AllItems(items)
    requires forall i | 0 <= i < |Sorted(AllItems(items))| :: Sorted(AllItems(items))[i].ordinal == i + 1
    ensures Numbered(items, EligibleOrder(items)) && |EligibleOrder(items)| == |items|
  {
    var q, order := Sorted(EligibleItems(items)), EligibleOrder(items);
    AllCount(items);
    forall i | 0 <= i < |order|
      ensures order[i] in items && items[order[i]] == q[i]
    {
      assert q[i] in q;
    }
    hide Sorted;
  }

  function KeysOf(s: set<Item>): set<Key> {
    set i | i in s :: i.key
  }

  lemma AllCount(items: Items)
    ensures |AllItems(items)| == |items|
  {
    assert KeysOf(AllItems(items)) == items.Keys by {
      forall k | k in items
        ensures k in KeysOf(AllItems(items))
      {
        assert items[k] in AllItems(items);
      }
    }
    KeyedCount(AllItems(items));
  }

  lemma {:induction false} KeyedCount(s: set<Item>)
    requires DistinctKeys(s)
    ensures |KeysOf(s)| == |s|
    decreases |s|
  {
    if s == {} {
      assert KeysOf(s) == {};
    } else {
      var x :| x in s;
      KeyedCount(s - {x});
      assert x.key !in KeysOf(s - {x});
      assert KeysOf(s) == KeysOf(s - {x}) + {x.key};
    }
  }

  lemma StartFrame(s: Control, c: Discovery.Contract, run: RunId, now: int, clock: int)
    requires StartAccepted(s, c, now) && |s.items| <= MAX_CAMPAIGN_ITEMS
    ensures var s2 := BossOpening(s, run, now, clock);
      && s2.items == s.items && s2.history == s.history && s2.heartbeat == Some(LeasedHeartbeat(run, now))
      && BossOrderly(s2, c, {} + {run}, now) && s2.handoff.None?
      && ActiveBatch(s2.batches) == Some(Started(StartedBatchId(run), run, clock))
      && (forall k | k in s2.items :: Settled(s2.items[k]))
    ensures var session := BossSession(s.items, BOSS_BATCH_POLICY, run);
      session.runId == run && session.batchId == StartedBatchId(run) && session.policy == BOSS_BATCH_POLICY
  {
    hide Sorted, Discovery.TotalNew, PlanBatch;
  }
}
