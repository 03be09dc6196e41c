/**
  The sessions the BOSS runtimes rebuild are the ones that were opened, and what the
  restart cannot do: a campaign with nothing left is never completed, and an
  interrupted discovery blocks the start for good.
*/
module BossSessions {
  import opened Wrappers
  import opened Campaign
  import opened Batching
  import opened BatchCoordinator
  import opened CoordinatorSafety
  import opened BatchProgress
  import opened BatchOutcome
  import opened ApplicationCampaign
  import opened ApplicationRounds
  import opened ApplicationResume
  import opened BossCampaign
  import opened HeadItem
  import Discovery
  import DiscoveryRuns

  // ---------- the rebuilt plan ----------

  lemma TailMembers(items: Items, order: seq<Key>, x: Item)
    requires order != [] && Ascending(items, order)
    requires forall k :: k in order[1..] <==> k in items && Eligible(items[k])
    requires !Eligible(items[order[0]])
    ensures x in Lookup(items, order) <==> x in Tail(items, items[order[0]])
  {
    var selected, q := items[order[0]], Lookup(items, order);
    if x in q {
      var i :| 0 <= i < |q| && q[i] == x;
      assert i > 0 ==> order[i] == order[1..][i - 1];
    }
    if x in Tail(items, selected) {
      if x == selected {
        assert q[0] == x;
      } else {
        var i :| 0 <= i < |order[1..]| && order[1..][i] == x.key;
        assert q[i + 1] == x;
      }
    }
  }

  /** The tail from the first item of the order is the order itself. */
  lemma TailIsOrder(items: Items, order: seq<Key>)
    requires order != [] && Ascending(items, order)
    requires forall k :: k in order[1..] <==> k in items && Eligible(items[k])
    requires !Eligible(items[order[0]])
    ensures Keys(Sorted(Tail(items, items[order[0]]))) == order
  {
    hide Sorted, Tail, Eligible, Before;
    var q := Lookup(items, order);
    forall x
      ensures x in q <==> x in Tail(items, items[order[0]])
    {
      TailMembers(items, order, x);
    }
    SortedUnique(Tail(items, items[order[0]]), q);
    assert Keys(q) == order;
  }

  lemma TailPlanIsPlan(items: Items, order: seq<Key>, policy: Policy)
    requires order != [] && Ascending(items, order)
    requires forall k :: k in order[1..] <==> k in items && Eligible(items[k])
    requires !Eligible(items[order[0]])
    ensures TailPlan(items, items[order[0]], policy) == Take(order, policy.maxItems)
  {
    hide Sorted, Tail, Keys, Take;
    TailIsOrder(items, order);
    KeysOfTake(Sorted(Tail(items, items[order[0]])), policy.maxItems);
  }

  /** While the first item is in flight, the eligible items are the rest of the order. */
  lemma RestEligible(items: Items, order: seq<Key>, run: RunId)
    requires Progress(items, order, run, 0) && order != [] && InFlightKeys(items) == {order[0]}
    ensures Ascending(items, order) && !Eligible(items[order[0]])
    ensures forall k :: k in order[1..] <==> k in items && Eligible(items[k])
  {
    assert order[0..] == order;
    assert order[0] in InFlightKeys(items);
    forall k
      ensures k in order[1..] <==> k in items && Eligible(items[k])
    {
      if k in order[1..] {
        var i :| 0 <= i < |order[1..]| && order[1..][i] == k;
        assert order[i + 1] == k && k in KeySet(order);
        if k == order[0] {
          AscendingDistinct(items, order, 0, i + 1);
        }
        assert k in EligibleKeys(items);
      }
      if k in items && Eligible(items[k]) {
        assert k in EligibleKeys(items) && k in KeySet(order);
        var i :| 0 <= i < |order| && order[i] == k;
        assert i > 0 ==> order[1..][i - 1] == k;
      }
    }
  }

  /** After the first commit the eligible items are the rest of the order. */
  lemma RestAfterCommit(items: Items, order: seq<Key>, run: RunId)
    requires Progress(items, order, run, 1) && InFlightKeys(items) == {}
    ensures Ascending(items, order) && !Eligible(items[order[0]])
    ensures forall k :: k in order[1..] <==> k in items && Eligible(items[k])
    ensures CommittedByRun(items, run) == {order[0]}
  {
    assert KeySet(order[..1]) == {order[0]};
    assert order[0] in CommittedByRun(items, run);
    assert forall k :: k in order[1..] <==> k in KeySet(order[1..]);
    assert forall k :: k in EligibleKeys(items) <==> k in items && Eligible(items[k]);
  }

  /** After a claim the rebuilt session is the one that was opened: same ids, policy and plan. */
  lemma ClaimRebuildsSession(s: Control, c: Discovery.Contract, session: Session, order: seq<Key>)
    requires Honest(session, order, session.runId) && session.policy == BOSS_BATCH_POLICY
    requires Progress(s.items, order, session.runId, 0)
    requires InFlightKeys(s.items) == {order[0]} && s.items[order[0]].status == Claimed
    requires ContractMatches(s.manifest, c) && s.manifest.status == Running
    requires ActiveBatch(s.batches).Some? && ActiveBatch(s.batches).value.runId == session.runId
    requires ActiveBatch(s.batches).value.batchId == session.batchId
    requires s.heartbeat.Some? && s.heartbeat.value.runId == session.runId
    ensures ClaimedBossSession(s, c, session.runId) == Ok(ClaimedSession(session, s.items[order[0]].ordinal, order[0]))
  {
    RestEligible(s.items, order, session.runId);
    TailPlanIsPlan(s.items, order, BOSS_BATCH_POLICY);
    assert order[0] in InFlightKeys(s.items);
    OnlyClaim(s.items, session.runId, order[0]);
    hide TailPlan, Progress, InFlightKeys, ClaimsBy, Ascending;
  }

  // ---------- start ----------

  function BossSession(items: Items, policy: Policy, run: RunId): Session {
    Session(StartedBatchId(run), run, policy, PlanBatch(items, policy, NO_USAGE))
  }

  function BossOpening(s: Control, run: RunId, now: int, clock: int): Control {
    s.(heartbeat := Some(LeasedHeartbeat(run, now)), batches := [Started(StartedBatchId(run), run, clock)])
  }

  lemma StartFacts(s: Control, c: Discovery.Contract, now: int)
    requires StartAccepted(s, c, now)
    ensures ContractMatches(s.manifest, c) && s.manifest.status == Running
    ensures s.batches == [] && s.heartbeat.None? && s.handoff.None? && s.items != map[]
    ensures forall k | k in s.items :: s.items[k].status == Discovered && s.items[k].at <= now
    ensures forall i | 0 <= i < |Sorted(AllItems(s.items))| :: Sorted(AllItems(s.items))[i].ordinal == i + 1
  {
    hide Sorted, Discovery.TotalNew;
  }

  lemma AllEligible(items: Items)
    requires forall k | k in items :: items[k].status == Discovered
    ensures EligibleItems(items) == AllItems(items)
    ensures InFlightKeys(items) == {} && forall run :: CommittedByRun(items, run) == {}
    ensures items != map[] ==> EligibleItems(items) != {}
  {
    if items != map[] {
      var k :| k in items;
      assert items[k] in EligibleItems(items);
    }
  }

  lemma StartOpensBoss(s: Control, c: Discovery.Contract, policy: Policy, run: RunId, now: int, clock: int)
    requires StartAccepted(s, c, now) && EligibleItems(s.items) != {}
    ensures var s1 := s.(heartbeat := Some(LeasedHeartbeat(run, now)));
      && WriteHeartbeat(s, LeasedHeartbeat(run, now)) == Ok(s1)
      && OpenBatch(s1, StartedBatchId(run), run, policy, clock) == Ok(Opened(BossOpening(s, run, now, clock), BossSession(s.items, policy, run)))
      && BossSession(s.items, policy, run).plan.stop.None?
  {
    SomethingPlanned(s.items, policy);
    hide Sorted, PlanBatch, EligibleItems, Discovery.Inspect;
    var started := Started(StartedBatchId(run), run, clock);
    assert s.batches + [started] == [started];
  }

  lemma LeastIsFirst(items: Items)
    requires EligibleItems(items) != {} && EligibleItems(items) == AllItems(items)
    requires forall i | 0 <= i < |Sorted(AllItems(items))| :: Sorted(AllItems(items))[i].ordinal == i + 1
    ensures Least(EligibleItems(items)).ordinal == 1
  {
    assert Sorted(EligibleItems(items))[0] == Least(EligibleItems(items));
    hide Least;
  }

  /** A start is accepted exactly when its checks pass; it claims ordinal 1 of the plan of the whole ledger. */
  lemma StartBossWorks(s: Control, c: Discovery.Contract, policy: Policy, run: RunId, now: int, clock: int) returns (t: Item)
    requires |s.items| <= MAX_CAMPAIGN_ITEMS && StartAccepted(s, c, now)
    ensures EligibleItems(s.items) != {}
    ensures t == ClaimOf(Least(EligibleItems(s.items)), run, now, ITEM_LEASE_SECONDS) && t.ordinal == 1
    ensures Admits(s.items, t)
    ensures StartBoss(s, c, policy, run, now, clock) == Attempt(Put(BossOpening(s, run, now, clock), t), Ok(t))
  {
    hide Sorted, PlanBatch, EligibleItems, Least, InFlightKeys, CommittedByRun, ClaimNext, OpenBatch, WriteHeartbeat,
      BatchCoordinator.InspectContinuation, StartAccepted, IsLeast, StartBoss, AllItems;
    StartFacts(s, c, now);
    AllEligible(s.items);
    StartOpensBoss(s, c, policy, run, now, clock);
    var s2, session, m := BossOpening(s, run, now, clock), BossSession(s.items, policy, run), Least(EligibleItems(s.items));
    LeastIsFirst(s.items);
    FirstContinuation(s2, session, now);
    LeastIsItem(s.items);
    FirstClaim(s2, session, now, m);
    t := ClaimOf(m, run, now, ITEM_LEASE_SECONDS);
    StartUnfolds(s, c, policy, run, now, clock, t);
  }

  lemma StartUnfolds(s: Control, c: Discovery.Contract, policy: Policy, run: RunId, now: int, clock: int, t: Item)
    requires StartAccepted(s, c, now) && Admits(s.items, t)
    requires var s1 := s.(heartbeat := Some(LeasedHeartbeat(run, now)));
      && WriteHeartbeat(s, LeasedHeartbeat(run, now)) == Ok(s1)
      && OpenBatch(s1, StartedBatchId(run), run, policy, clock) == Ok(Opened(BossOpening(s, run, now, clock), BossSession(s.items, policy, run)))
    requires ClaimNext(BossOpening(s, run, now, clock), BossSession(s.items, policy, run), NO_USAGE, now, ITEM_LEASE_SECONDS)
             == Ok(Put(BossOpening(s, run, now, clock), t))
    requires BossSession(s.items, policy, run).plan.keys != [] && BossSession(s.items, policy, run).plan.keys[0] == t.key
    requires t.status == Claimed && t.runId == Some(run) && t.ordinal == 1
    ensures StartBoss(s, c, policy, run, now, clock) == Attempt(Put(BossOpening(s, run, now, clock), t), Ok(t))
  {
    hide StartAccepted, WriteHeartbeat, OpenBatch, ClaimNext, PlanBatch, Admits;
  }

  /** Right after a start, the session rebuilt from the records is the session the start opened. */
  lemma StartThenRebuild(s: Control, c: Discovery.Contract, run: RunId, now: int, clock: int)
    requires |s.items| <= MAX_CAMPAIGN_ITEMS && StartAccepted(s, c, now)
    ensures var a := StartBoss(s, c, BOSS_BATCH_POLICY, run, now, clock);
      && a.result.Ok? && a.result.value.ordinal == 1
      && ClaimedBossSession(a.control, c, run) ==
         Ok(ClaimedSession(BossSession(s.items, BOSS_BATCH_POLICY, run), 1, a.result.value.key))
  {
    hide Sorted, PlanBatch, EligibleItems, Least, CommittedByRun, ClaimedBossSession, StartAccepted, IsLeast, StartBoss, AllItems,
      Progress, Keys, EligibleOrder, Take;
    var t := StartBossWorks(s, c, BOSS_BATCH_POLICY, run, now, clock);
    StartFacts(s, c, now);
    AllEligible(s.items);
    StartOpensBoss(s, c, BOSS_BATCH_POLICY, run, now, clock);
    var s2 := BossOpening(s, run, now, clock);
    var order := EligibleOrder(s.items);
    LeastIsItem(s.items);
    StartedHonest(s.items, order, run);
    OpeningStarts(s.items, run);
    FirstClaimProgress(s2, t, order, run, now);
    ClaimRebuildsSession(Put(s2, t), c, BossSession(s.items, BOSS_BATCH_POLICY, run), order);
  }

  lemma StartedHonest(items: Items, order: seq<Key>, run: RunId)
    requires order == EligibleOrder(items) && BossSession(items, BOSS_BATCH_POLICY, run).plan.stop.None?
    ensures Honest(BossSession(items, BOSS_BATCH_POLICY, run), order, run)
  {
    OpenedPlan(items, BOSS_BATCH_POLICY, NO_USAGE);
    SomethingOrdered(items, BOSS_BATCH_POLICY);
    hide EligibleOrder, PlanBatch;
  }

  lemma SomethingOrdered(items: Items, policy: Policy)
    requires PlanBatch(items, policy, NO_USAGE).stop.None?
    ensures EligibleOrder(items) != []
  {
  }

  // ---------- uniqueness ----------

  lemma OnlyClaim(items: Items, run: RunId, key: Key)
    requires InFlightKeys(items) == {key} && key in items && items[key].status == Claimed && items[key].runId == Some(run)
    ensures ClaimsBy(items, run) == {key} && |ClaimsBy(items, run)| == 1 && TheOnly(ClaimsBy(items, run)) == key
  {
    forall k | k in ClaimsBy(items, run)
      ensures k == key
    {
      assert k in InFlightKeys(items);
    }
    assert ClaimsBy(items, run) == {key};
    assert TheOnly(ClaimsBy(items, run)) in {key};
  }

  lemma OnlyCommit(items: Items, run: RunId, key: Key)
    requires CommittedByRun(items, run) == {key}
    ensures |CommittedByRun(items, run)| == 1 && TheOnly(CommittedByRun(items, run)) == key && key in items
  {
    assert key in CommittedByRun(items, run);
    assert TheOnly(CommittedByRun(items, run)) in {key};
  }

  lemma HandoffIs(s: Control)
    requires ReadHandoff(s).Ok?
    ensures var h := ReadHandoff(s).value;
      h.completed == CountStatus(s.items, Committed) && h.nextOrdinal == NextOrdinal(s.items) && h.directive == s.manifest.status
  {
    hide CountStatus, NextOrdinal;
  }

  lemma StopCodeIs(s: Control, session: Session, usage: Usage, code: StopCode)
    requires ExpectedCode(s, session, usage) == Some(code)
    ensures StopOf(session.policy, usage).Some? ==> code == Stopped(StopOf(session.policy, usage).value)
  {
    hide PlanBatch, PrefixLength;
  }

  /** The last two batch records are the life of the session's batch. */
  predicate FinishedLife(s: Control, session: Session) {
    var n := |s.batches|;
    && n >= 2 && s.batches[n - 2].Started? && s.batches[n - 1].Finished?
    && s.batches[n - 2].batchId == s.batches[n - 1].batchId == session.batchId
    && s.batches[n - 2].runId == s.batches[n - 1].runId == session.runId
  }

  /** The guards of the rebuilt session, all but the plan. */
  lemma FinishedUnfolds(s: Control, c: Discovery.Contract, session: Session, order: seq<Key>, semantic: bool)
    requires FinishedLife(s, session) && Honest(session, order, session.runId)
    requires var last := s.batches[|s.batches| - 1];
      StopOf(session.policy, last.usage).Some? ==> last.code == Stopped(StopOf(session.policy, last.usage).value)
    requires CommittedByRun(s.items, session.runId) == {order[0]} && |CommittedByRun(s.items, session.runId)| == 1
    requires TheOnly(CommittedByRun(s.items, session.runId)) == order[0] && order[0] in s.items
    requires TailPlan(s.items, s.items[order[0]], session.policy) == Take(order, session.policy.maxItems)
    requires ContractMatches(s.manifest, c) && s.manifest.status == Running
    requires ReadHandoff(s).Ok? && ReadHandoff(s).value.lastRunId == session.runId
    requires var h := ReadHandoff(s).value;
      h.completed == CountStatus(s.items, Committed) && h.nextOrdinal == NextOrdinal(s.items) && h.directive == Running
    requires s.heartbeat.Some? && s.heartbeat.value.runId == session.runId
    ensures var usage := s.batches[|s.batches| - 1].usage;
      FinishedBossSession(s, c, session.policy, semantic) ==
      if StopOf(session.policy, usage).Some? && UsageFits(usage, session.policy, semantic) then
        Ok(FinishedSession(session, usage, ReadHandoff(s).value, NextOrdinal(s.items)))
      else Err(ResumeStateInvalid)
  {
    hide TailPlan, CommittedByRun, NextOrdinal, CountStatus, StopOf, UsageFits, ReadHandoff, TheOnly, ContractMatches;
  }

  /**
    After one commit, a finish and its handoff, the rebuilt session is the one that
    was opened, if and only if the usage reached a limit and fits the policy; a batch
    that finished because its plan was complete cannot be restarted.
  */
  lemma FinishRebuildsSession(s: Control, c: Discovery.Contract, session: Session, order: seq<Key>, semantic: bool)
    requires FinishedLife(s, session) && Honest(session, order, session.runId)
    requires var last := s.batches[|s.batches| - 1]; ExpectedCode(s, session, last.usage) == Some(last.code)
    requires Progress(s.items, order, session.runId, 1) && InFlightKeys(s.items) == {}
    requires ContractMatches(s.manifest, c) && s.manifest.status == Running
    requires ReadHandoff(s).Ok? && ReadHandoff(s).value.lastRunId == session.runId
    requires s.heartbeat.Some? && s.heartbeat.value.runId == session.runId
    ensures var usage := s.batches[|s.batches| - 1].usage;
      FinishedBossSession(s, c, session.policy, semantic) ==
      if StopOf(session.policy, usage).Some? && UsageFits(usage, session.policy, semantic) then
        Ok(FinishedSession(session, usage, ReadHandoff(s).value, NextOrdinal(s.items)))
      else Err(ResumeStateInvalid)
  {
    hide Progress, InFlightKeys, CommittedByRun, Ascending, NextOrdinal, CountStatus, StopOf, UsageFits, PlanBatch, TailPlan,
      FinishedBossSession, ExpectedCode, ReadHandoff, TheOnly, Eligible, Take;
    RestAfterCommit(s.items, order, session.runId);
    TailPlanIsPlan(s.items, order, session.policy);
    OnlyCommit(s.items, session.runId, order[0]);
    HandoffIs(s);
    StopCodeIs(s, session, s.batches[|s.batches| - 1].usage, s.batches[|s.batches| - 1].code);
    FinishedUnfolds(s, c, session, order, semantic);
  }

  lemma HandoffWritten(s: Control, run: RunId, clock: int)
    requires clock >= s.manifest.updatedAt
    ensures var w := WriteHandoff(s, run, clock);
      && ReadHandoff(w).Ok? && ReadHandoff(w).value.lastRunId == run
      && w == s.(handoff := w.handoff)
  {
    NextOrdinalPositive(s.items);
    hide NextOrdinal, CountStatus;
  }

  lemma FinishedLifeOf(s: Control, session: Session, usage: Usage, now: int)
    requires FinishBatch(s, session, usage, now).Ok?
    ensures FinishedLife(FinishBatch(s, session, usage, now).value.0, session)
    ensures s.manifest.status == Running && s.heartbeat.Some? && s.heartbeat.value.runId == session.runId
    ensures InFlightKeys(s.items) == {}
    ensures FinishBatch(s, session, usage, now).value.0.manifest == s.manifest
  {
    hide InFlightKeys, PrefixLength, CommittedByRun, PlanBatch, StopOf;
  }

  lemma ExpectedCodeAside(s: Control, session: Session, usage: Usage, h: Option<Handoff>)
    ensures ExpectedCode(s.(handoff := h), session, usage) == ExpectedCode(s, session, usage)
  {
    hide PlanBatch, PrefixLength, StopOf;
  }

  /** The finish of a batch with one commit, followed by its handoff, is rebuilt exactly when its usage allows it. */
  lemma FinishThenRebuild(s: Control, c: Discovery.Contract, session: Session, usage: Usage, now: int, clock: int,
                          order: seq<Key>, semantic: bool)
    requires Honest(session, order, session.runId) && Progress(s.items, order, session.runId, 1)
    requires FinishBatch(s, session, usage, now).Ok?
    requires ContractMatches(s.manifest, c) && clock >= s.manifest.updatedAt
    ensures var w := WriteHandoff(FinishBatch(s, session, usage, now).value.0, session.runId, clock);
      && ReadHandoff(w).Ok?
      && FinishedBossSession(w, c, session.policy, semantic) ==
         if StopOf(session.policy, usage).Some? && UsageFits(usage, session.policy, semantic) then
           Ok(FinishedSession(session, usage, ReadHandoff(w).value, NextOrdinal(w.items)))
         else Err(ResumeStateInvalid)
  {
    hide FinishBatch, InspectFinished, ExpectedCode, Progress, InFlightKeys, NextOrdinal, CountStatus, StopOf, UsageFits, ReadHandoff,
      FinishedBossSession, ContractMatches, WriteHandoff, Honest;
    FinishAndHandoffAgree(s, session, usage, now);
    FinishedLifeOf(s, session, usage, now);
    var next := FinishBatch(s, session, usage, now).value.0;
    assert next.batches[|next.batches| - 1].usage == usage;
    HandoffWritten(next, session.runId, clock);
    var w := WriteHandoff(next, session.runId, clock);
    ExpectedCodeAside(next, session, usage, w.handoff);
    FinishRebuildsSession(w, c, session, order, semantic);
  }

  // ---------- what a restart cannot do ----------

  lemma TakeOverIsHeartbeat(s: Control, session: Session, usage: Usage, now: int, replacement: Heartbeat)
    ensures var r := TakeOver(s, session, usage, now, replacement);
      r.Ok? ==> r.value == s.(heartbeat := Some(replacement))
  {
    hide InspectStaleRun, InspectTransfer;
  }

  lemma TransferNeedsItems(s: Control, session: Session, runId: RunId, now: int, policy: Policy)
    requires EligibleItems(s.items) == {}
    ensures var r := InspectTransferred(s, session, runId, now, policy);
      r.Ok? ==> r.value.state != Ready
  {
    NoUsageNoLimit(policy);
    PlanIsLeast(s.items, policy, NO_USAGE);
    hide ReadHandoff, InspectResume;
  }

  /** With nothing eligible a restart always fails, and has taken the heartbeat exactly when its takeover passed. */
  lemma RestartNeverCompletes(s: Control, c: Discovery.Contract, policy: Policy, semantic: bool, runId: RunId, now: int)
    requires EligibleItems(s.items) == {}
    ensures var a, done := ResumeBoss(s, c, policy, semantic, runId, now), FinishedBossSession(s, c, policy, semantic);
      && a.result.Err?
      && a.control ==
         if done.Ok? && TakeOver(s, done.value.session, done.value.usage, now, LeasedHeartbeat(runId, now)).Ok? then
           s.(heartbeat := Some(LeasedHeartbeat(runId, now)))
         else s
  {
    if FinishedBossSession(s, c, policy, semantic).Ok? {
      var finished := FinishedBossSession(s, c, policy, semantic).value;
      TakeOverIsHeartbeat(s, finished.session, finished.usage, now, LeasedHeartbeat(runId, now));
      TransferNeedsItems(s.(heartbeat := Some(LeasedHeartbeat(runId, now))), finished.session, runId, now, policy);
    }
    hide FinishedBossSession, TakeOver, InspectTransferred, OpenTransferred, ClaimNext, EligibleItems;
  }

  /** The last batch is finished, nothing is in flight, and the heartbeat belongs to another run. */
  predicate Stranded(s: Control) {
    && s.batches != [] && s.batches[|s.batches| - 1].Finished? && InFlightKeys(s.items) == {}
    && s.heartbeat.Some? && s.heartbeat.value.runId != s.batches[|s.batches| - 1].runId
  }

  /** The calls of the BOSS runtimes. */
  datatype Call =
    | StartCall(policy: Policy, run: RunId, now: int, clock: int)
    | ExecuteCall(run: RunId, now: int, clock: int, work: BossWork)
    | RestartCall(policy: Policy, semantic: bool, run: RunId, now: int)

  function Serve(s: Control, c: Discovery.Contract, call: Call): Control {
    match call
    case StartCall(policy, run, now, clock) => StartBoss(s, c, policy, run, now, clock).control
    case ExecuteCall(run, now, clock, work) => ExecuteBoss(s, c, run, now, clock, work).control
    case RestartCall(policy, semantic, run, now) => ResumeBoss(s, c, policy, semantic, run, now).control
  }

  predicate Refused(s: Control, c: Discovery.Contract, call: Call) {
    match call
    case StartCall(policy, run, now, clock) => StartBoss(s, c, policy, run, now, clock).result.Err?
    case ExecuteCall(run, now, clock, work) => ExecuteBoss(s, c, run, now, clock, work).result.Err?
    case RestartCall(policy, semantic, run, now) => ResumeBoss(s, c, policy, semantic, run, now).result.Err?
  }

  function ServeAll(s: Control, c: Discovery.Contract, calls: seq<Call>): Control
    decreases |calls|
  {
    if calls == [] then s else Serve(ServeAll(s, c, calls[..|calls| - 1]), c, calls[|calls| - 1])
  }

  lemma StrandedStep(s: Control, c: Discovery.Contract, call: Call)
    requires Stranded(s)
    ensures Refused(s, c, call) && Serve(s, c, call) == s
  {
    match call
    case StartCall(policy, run, now, clock) =>
      hide Discovery.Inspect, Sorted;
    case ExecuteCall(run, now, clock, work) =>
      NoClaimToRebuild(s, c, run);
      hide ClaimedBossSession;
    case RestartCall(policy, semantic, run, now) =>
      hide TailPlan, CommittedByRun, NextOrdinal, CountStatus, StopOf, UsageFits, ReadHandoff;
  }

  lemma NoClaimToRebuild(s: Control, c: Discovery.Contract, run: RunId)
    requires InFlightKeys(s.items) == {}
    ensures ClaimedBossSession(s, c, run) == Err(ClaimInvalid)
  {
    forall k | k in s.items
      ensures s.items[k].status != Claimed
    {
      assert k !in InFlightKeys(s.items);
    }
    assert ClaimsBy(s.items, run) == {};
    hide TailPlan;
  }

  /** Once stranded, every call of any BOSS runtime is refused and changes nothing, whatever was called before. */
  lemma {:induction false} StrandedForGood(s: Control, c: Discovery.Contract, calls: seq<Call>, call: Call)
    requires Stranded(s)
    ensures ServeAll(s, c, calls) == s && Refused(s, c, call) && Serve(s, c, call) == s
    decreases |calls|
  {
    hide Stranded, Refused, Serve;
    if calls != [] {
      var n := |calls| - 1;
      StrandedForGood(s, c, calls[..n], calls[n]);
    }
    StrandedStep(s, c, call);
  }

  /** An interrupted pass that persisted an item blocks the start of any batch, whatever is observed afterwards. */
  lemma InterruptedDiscoveryBlocksStart(c: Discovery.Contract, m: Manifest, events: seq<DiscoveryRuns.Event>, later: seq<DiscoveryRuns.Event>,
                                        policy: Policy, runId: RunId, now: int, clock: int)
    requires DiscoveryRuns.AllPersisted(Empty(m), c, events) > 0
    ensures var s := DiscoveryRuns.Play(DiscoveryRuns.Play(Empty(m), c, events), c, later);
      StartBoss(s, c, policy, runId, now, clock) == Attempt(s, Err(StateInvalid))
  {
    hide *;
    DiscoveryRuns.DiscoveryFromScratch(c, m, events);
    var s := DiscoveryRuns.Play(Empty(m), c, events);
    DiscoveryRuns.DeficitGrows(s, c, later);
    DiscoveryRuns.DeficitIs(s);
    DiscoveryRuns.DeficitIs(DiscoveryRuns.Play(s, c, later));
    DeficitRefused(DiscoveryRuns.Play(s, c, later), c, policy, runId, now, clock);
  }

  lemma DeficitRefused(s: Control, c: Discovery.Contract, policy: Policy, runId: RunId, now: int, clock: int)
    requires |s.items| != Discovery.TotalNew(s.passes)
    ensures StartBoss(s, c, policy, runId, now, clock) == Attempt(s, Err(StateInvalid))
  {
    hide Discovery.DiscoveryOnly, Sorted, Discovery.TotalNew;
  }
}
