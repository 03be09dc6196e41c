/**
  The BOSS restart with work left: a rebuilt session passes every later ladder, the
  next item in order is claimed for the fresh run, and the session rebuilt from that
  claim is again the one that was opened.
*/
module BossRestart {
  import opened Wrappers
  import opened Campaign
  import opened Batching
  import opened BatchCoordinator
  import opened BatchProgress
  import opened BatchOutcome
  import opened ApplicationCampaign
  import opened ApplicationRounds
  import opened ApplicationResume
  import opened BossCampaign
  import opened HeadItem
  import opened BossSessions
  import Discovery

  /** A record between batches: nothing in flight, everything within the caller's time. */
  ghost predicate Quiet(s: Control, now: int) {
    && (forall k | k in s.items :: Settled(s.items[k]) && s.items[k].at <= now)
    && |s.items| <= MAX_CAMPAIGN_ITEMS
    && s.heartbeat.Some? && s.heartbeat.value.heartbeatAt <= now
  }

  /** A run id that has left no trace. */
  ghost predicate FreshRun(s: Control, next: RunId) {
    CommittedByRun(s.items, next) == {} && !BatchIdUsed(s.batches, ResumedBatchId(next))
  }

  /** What the guards of a rebuilt finished session have established. */
  lemma RebuiltFacts(s: Control, c: Discovery.Contract, policy: Policy, semantic: bool, done: FinishedSession) returns (selected: Item)
    requires FinishedBossSession(s, c, policy, semantic) == Ok(done)
    ensures ContractMatches(s.manifest, c) && s.manifest.status == Running && ActiveBatch(s.batches).None?
    ensures ReadHandoff(s) == Ok(done.handoff) && done.handoff.lastRunId == done.session.runId
    ensures done.handoff.directive == Running && done.handoff.nextOrdinal == done.nextOrdinal == NextOrdinal(s.items)
    ensures s.heartbeat.Some? && s.heartbeat.value.runId == done.session.runId
    ensures FinishedBy(s, done.session) && LastBatch(s).value.usage == done.usage && done.usage.itemsCompleted == 1
    ensures StopOf(policy, done.usage).Some? && LastBatch(s).value.code == Stopped(StopOf(policy, done.usage).value)
    ensures CommittedByRun(s.items, done.session.runId) == {selected.key}
    ensures selected.key in s.items && s.items[selected.key] == selected
    ensures done.session.policy == policy && done.session.plan == Plan(TailPlan(s.items, selected, policy), None)
    ensures done.session.plan.keys != [] && done.session.plan.keys[0] == selected.key
  {
    hide TailPlan, CommittedByRun, NextOrdinal, CountStatus, StopOf, ReadHandoff, ContractMatches;
    var committed := CommittedByRun(s.items, s.batches[|s.batches| - 1].runId);
    CommittedKeyed(s.items, s.batches[|s.batches| - 1].runId, TheOnly(committed));
    selected := s.items[TheOnly(committed)];
  }

  lemma CommittedKeyed(items: Items, run: RunId, key: Key)
    requires CommittedByRun(items, run) == {key}
    ensures key in items && items[key].key == key
  {
    assert key in CommittedByRun(items, run);
  }

  /** A tail lists distinct keys. */
  lemma TailDistinct(items: Items, selected: Item, policy: Policy, i: nat, j: nat)
    requires i < j < |TailPlan(items, selected, policy)|
    ensures TailPlan(items, selected, policy)[i] != TailPlan(items, selected, policy)[j]
  {
    var q := Sorted(Tail(items, selected));
    SortedIsSorted(Tail(items, selected));
    assert q[i] in q && q[j] in q && Before(q[i], q[j]);
    BeforeTotal(q[i], q[j]);
    hide Sorted, Tail;
  }

  /** Of a plan that starts with the only commit of the run, exactly the first key counts as committed. */
  lemma OnePrefix(items: Items, keys: seq<Key>, run: RunId)
    requires keys != [] && CommittedByRun(items, run) == {keys[0]}
    requires forall j | 0 < j < |keys| :: keys[j] != keys[0]
    ensures PrefixLength(items, keys, run) == 1
  {
    assert forall k :: k in CommittedByRun(items, run) <==> CommittedBy(items, k, run);
    assert CommittedBy(items, keys[0], run);
  }

  /** A rebuilt session is ready for its handoff whenever nothing is in flight and the heartbeat is fresh. */
  lemma RebuiltReady(s: Control, c: Discovery.Contract, policy: Policy, semantic: bool, done: FinishedSession, now: int)
    requires FinishedBossSession(s, c, policy, semantic) == Ok(done)
    requires InFlightKeys(s.items) == {} && InspectHeartbeat(s.heartbeat, now) == Ok(Fresh)
    ensures InspectFinished(s, done.session, done.usage, now) == Ok(Ready)
  {
    hide FinishedBossSession, TailPlan, CommittedByRun, NextOrdinal, StopOf, ReadHandoff, ContractMatches, InFlightKeys, PrefixLength, PlanBatch;
    var selected := RebuiltFacts(s, c, policy, semantic, done);
    var keys := done.session.plan.keys;
    forall j | 0 < j < |keys|
      ensures keys[j] != keys[0]
    {
      TailDistinct(s.items, selected, policy, 0, j);
    }
    OnePrefix(s.items, keys, done.session.runId);
    assert KeySet(keys[..1]) == {keys[0]};
  }

  /** The fresh run takes the heartbeat over, fresh or stale. */
  lemma RestartTakesOver(s: Control, c: Discovery.Contract, policy: Policy, semantic: bool, done: FinishedSession, next: RunId, now: int)
    requires FinishedBossSession(s, c, policy, semantic) == Ok(done) && Quiet(s, now) && next != done.session.runId
    ensures TakeOver(s, done.session, done.usage, now, LeasedHeartbeat(next, now)) ==
            Ok(s.(heartbeat := Some(LeasedHeartbeat(next, now))))
  {
    NothingInFlight(s.items);
    hide FinishedBossSession, InspectFinished, ReadHandoff, NextOrdinal, CommittedByRun, InFlightKeys, InspectStaleRun, Claims, TakeOver,
      TailPlan, StopOf;
    var selected := RebuiltFacts(s, c, policy, semantic, done);
    StaleState(s, done.session.runId, now);
    if now < s.heartbeat.value.freshUntil {
      RebuiltReady(s, c, policy, semantic, done, now);
      TakesOverFresh(s, done, done.session.runId, now, LeasedHeartbeat(next, now));
    } else {
      StaleTakesOver(s, done.session, done.usage, done.session.runId, now, LeasedHeartbeat(next, now));
    }
  }

  function RestartSession(items: Items, policy: Policy, next: RunId): Session {
    Session(ResumedBatchId(next), next, policy, PlanBatch(items, policy, NO_USAGE))
  }

  function RestartOpening(s: Control, next: RunId, now: int): Control {
    s.(heartbeat := Some(LeasedHeartbeat(next, now)), batches := s.batches + [Started(ResumedBatchId(next), next, now)])
  }

  /** The transferred run finds a ready resume and opens the plan of all eligible items. */
  lemma RestartOpens(s: Control, c: Discovery.Contract, policy: Policy, semantic: bool, done: FinishedSession, next: RunId, now: int)
    requires FinishedBossSession(s, c, policy, semantic) == Ok(done) && Quiet(s, now) && FreshRun(s, next)
    requires EligibleItems(s.items) != {}
    ensures var s1 := s.(heartbeat := Some(LeasedHeartbeat(next, now)));
      var plan := PlanBatch(s.items, policy, NO_USAGE);
      && plan.stop.None? && plan.keys != []
      && InspectTransferred(s1, done.session, next, now, policy) == Ok(TransferredResume(Ready, NextOrdinal(s.items), plan.keys))
      && OpenTransferred(s1, done.session, ResumedBatchId(next), next, now, policy) ==
         Ok((RestartOpening(s, next, now), RestartSession(s.items, policy, next)))
  {
    hide FinishedBossSession, PlanBatch, ReadHandoff, NextOrdinal, CommittedByRun, EligibleItems, InFlightKeys, Claims, PlanResume,
      InspectTransferred, TailPlan, StopOf, BatchIdUsed, OpenTransferred;
    NothingInFlight(s.items);
    var selected := RebuiltFacts(s, c, policy, semantic, done);
    var s1 := s.(heartbeat := Some(LeasedHeartbeat(next, now)));
    HeartbeatAside(s, s1.heartbeat);
    ResumePlanned(s1, next, now, policy);
    PlanOfRest(s.items, policy);
    var plan := PlanBatch(s.items, policy, NO_USAGE);
    TransferInspected(s1, done.session, done.handoff, next, now, policy, plan);
    OpensPlan(s1, done.session, next, now, policy, plan, NextOrdinal(s.items));
  }

  lemma OpensPlan(s: Control, session: Session, next: RunId, now: int, policy: Policy, plan: Plan, ordinal: int)
    requires plan == PlanBatch(s.items, policy, NO_USAGE) && plan.keys != [] && plan.stop.None?
    requires PlanResume(s, next, now, policy) == Ok(ResumePlan(Ready, Some(plan)))
    requires InspectTransferred(s, session, next, now, policy) == Ok(TransferredResume(Ready, ordinal, plan.keys))
    requires ActiveBatch(s.batches).None? && !BatchIdUsed(s.batches, ResumedBatchId(next))
    ensures OpenTransferred(s, session, ResumedBatchId(next), next, now, policy) ==
            Ok((s.(batches := s.batches + [Started(ResumedBatchId(next), next, now)]), RestartSession(s.items, policy, next)))
  {
    hide PlanResume, InspectTransferred, PlanBatch, BatchIdUsed;
  }

  lemma RestartUnfolds(s: Control, c: Discovery.Contract, policy: Policy, semantic: bool, done: FinishedSession, next: RunId, now: int,
                       keys: seq<Key>, t: Item)
    requires FinishedBossSession(s, c, policy, semantic) == Ok(done) && keys != []
    requires var s1 := s.(heartbeat := Some(LeasedHeartbeat(next, now)));
      && TakeOver(s, done.session, done.usage, now, LeasedHeartbeat(next, now)) == Ok(s1)
      && InspectTransferred(s1, done.session, next, now, policy) == Ok(TransferredResume(Ready, done.nextOrdinal, keys))
      && OpenTransferred(s1, done.session, ResumedBatchId(next), next, now, policy) ==
         Ok((RestartOpening(s, next, now), RestartSession(s.items, policy, next)))
    requires Admits(s.items, t)
    requires ClaimNext(RestartOpening(s, next, now), RestartSession(s.items, policy, next), NO_USAGE, now, ITEM_LEASE_SECONDS) ==
             Ok(Put(RestartOpening(s, next, now), t))
    requires keys[0] == t.key && t.status == Claimed && t.runId == Some(next) && t.ordinal == done.nextOrdinal
    ensures ResumeBoss(s, c, policy, semantic, next, now) == Attempt(Put(RestartOpening(s, next, now), t), Ok(t))
  {
    hide FinishedBossSession, TakeOver, InspectTransferred, OpenTransferred, ClaimNext, PlanBatch, Admits;
  }

  lemma RestartOwns(s: Control, next: RunId, now: int)
    requires s.manifest.status == Running
    ensures Ownership(RestartOpening(s, next, now), ResumedBatchId(next), next, now) == Ok(Ready)
    ensures ActiveBatch(RestartOpening(s, next, now).batches) == Some(Started(ResumedBatchId(next), next, now))
  {
  }

  lemma QuietParts(s: Control, now: int, next: RunId)
    requires Quiet(s, now) && FreshRun(s, next) && EligibleItems(s.items) != {}
    ensures forall k | k in s.items :: Settled(s.items[k])
    ensures |s.items| <= MAX_CAMPAIGN_ITEMS && CommittedByRun(s.items, next) == {}
    ensures Least(EligibleItems(s.items)).at <= now
  {
    LeastIsItem(s.items);
    hide Least, EligibleItems, CommittedByRun;
  }

  lemma ClaimParts(m: Item, next: RunId, now: int)
    ensures var t := ClaimOf(m, next, now, ITEM_LEASE_SECONDS);
      t.key == m.key && t.ordinal == m.ordinal && t.status == Claimed && t.runId == Some(next)
  {
  }

  /** The restart claims the least eligible item, the next in order, for the fresh run. */
  lemma RestartClaims(s: Control, c: Discovery.Contract, policy: Policy, semantic: bool, done: FinishedSession, next: RunId, now: int)
    returns (t: Item)
    requires FinishedBossSession(s, c, policy, semantic) == Ok(done) && Quiet(s, now) && FreshRun(s, next)
    requires next != done.session.runId && EligibleItems(s.items) != {}
    ensures t == ClaimOf(Least(EligibleItems(s.items)), next, now, ITEM_LEASE_SECONDS) && t.ordinal == NextOrdinal(s.items)
    ensures Admits(s.items, t)
    ensures ResumeBoss(s, c, policy, semantic, next, now) == Attempt(Put(RestartOpening(s, next, now), t), Ok(t))
  {
    var m, s2, session := Least(EligibleItems(s.items)), RestartOpening(s, next, now), RestartSession(s.items, policy, next);
    assert s2.items == s.items && session.plan == PlanBatch(s.items, policy, NO_USAGE) && session.policy == policy;
    assert session.batchId == ResumedBatchId(next) && session.runId == next;
    hide *;
    QuietParts(s, now, next);
    NothingInFlight(s.items);
    NextIsLeast(s.items);
    LeastIsItem(s.items);
    var selected := RebuiltFacts(s, c, policy, semantic, done);
    RestartTakesOver(s, c, policy, semantic, done, next, now);
    RestartOpens(s, c, policy, semantic, done, next, now);
    RestartOwns(s, next, now);
    FirstContinuation(s2, session, now);
    FirstClaim(s2, session, now, m);
    ClaimParts(m, next, now);
    t := ClaimOf(m, next, now, ITEM_LEASE_SECONDS);
    RestartUnfolds(s, c, policy, semantic, done, next, now, session.plan.keys, t);
  }

  /** With nothing left, the restart takes the heartbeat, fails, and leaves the campaign stranded. */
  lemma RestartStrands(s: Control, c: Discovery.Contract, policy: Policy, semantic: bool, done: FinishedSession, next: RunId, now: int)
    requires FinishedBossSession(s, c, policy, semantic) == Ok(done) && Quiet(s, now)
    requires next != done.session.runId && EligibleItems(s.items) == {}
    ensures var taken := s.(heartbeat := Some(LeasedHeartbeat(next, now)));
      ResumeBoss(s, c, policy, semantic, next, now) == Attempt(taken, Err(ResumeEvidenceInvalid)) && Stranded(taken)
  {
    hide *;
    QuietSettled(s, now);
    NothingInFlight(s.items);
    var selected := RebuiltFacts(s, c, policy, semantic, done);
    RestartTakesOver(s, c, policy, semantic, done, next, now);
    var s1 := s.(heartbeat := Some(LeasedHeartbeat(next, now)));
    HeartbeatAside(s, s1.heartbeat);
    LeasedIsFresh(next, now);
    ResumePlanned(s1, next, now, policy);
    PlanOfRest(s.items, policy);
    FinishedAside(s, s1.heartbeat, done.session);
    TransferInspected(s1, done.session, done.handoff, next, now, policy, PlanBatch(s.items, policy, NO_USAGE));
    RestartFails(s, c, policy, semantic, done, next, now, InspectTransferred(s1, done.session, next, now, policy).value);
    StrandedBy(s1, done.session, next);
  }

  lemma LeasedIsFresh(next: RunId, now: int)
    ensures LeasedHeartbeat(next, now).runId == next && InspectHeartbeat(Some(LeasedHeartbeat(next, now)), now) == Ok(Fresh)
  {
  }

  lemma FinishedAside(s: Control, h: Option<Heartbeat>, session: Session)
    requires FinishedBy(s, session)
    ensures FinishedBy(s.(heartbeat := h), session)
  {
  }

  lemma RestartFails(s: Control, c: Discovery.Contract, policy: Policy, semantic: bool, done: FinishedSession, next: RunId, now: int,
                     resume: TransferredResume)
    requires FinishedBossSession(s, c, policy, semantic) == Ok(done) && resume.state != Ready
    requires var s1 := s.(heartbeat := Some(LeasedHeartbeat(next, now)));
      && TakeOver(s, done.session, done.usage, now, LeasedHeartbeat(next, now)) == Ok(s1)
      && InspectTransferred(s1, done.session, next, now, policy) == Ok(resume)
    ensures ResumeBoss(s, c, policy, semantic, next, now) ==
            Attempt(s.(heartbeat := Some(LeasedHeartbeat(next, now))), Err(ResumeEvidenceInvalid))
  {
    hide FinishedBossSession, TakeOver, InspectTransferred, OpenTransferred, ClaimNext;
  }

  lemma StrandedBy(s: Control, session: Session, next: RunId)
    requires FinishedBy(s, session) && InFlightKeys(s.items) == {}
    requires s.heartbeat.Some? && s.heartbeat.value.runId == next != session.runId
    ensures Stranded(s)
  {
    hide InFlightKeys;
  }

  lemma QuietSettled(s: Control, now: int)
    requires Quiet(s, now)
    ensures forall k | k in s.items :: Settled(s.items[k])
  {
  }

  /** After a restart the session rebuilt from the claim is the session the restart opened. */
  lemma RestartThenRebuild(s: Control, c: Discovery.Contract, semantic: bool, done: FinishedSession, next: RunId, now: int)
    requires FinishedBossSession(s, c, BOSS_BATCH_POLICY, semantic) == Ok(done) && Quiet(s, now) && FreshRun(s, next)
    requires next != done.session.runId && EligibleItems(s.items) != {}
    ensures var a := ResumeBoss(s, c, BOSS_BATCH_POLICY, semantic, next, now);
      && a.result.Ok?
      && ClaimedBossSession(a.control, c, next) ==
         Ok(ClaimedSession(RestartSession(s.items, BOSS_BATCH_POLICY, next), NextOrdinal(s.items), a.result.value.key))
  {
    var s2, order, session := RestartOpening(s, next, now), EligibleOrder(s.items), RestartSession(s.items, BOSS_BATCH_POLICY, next);
    assert s2.items == s.items && s2.manifest == s.manifest && s2.heartbeat == Some(LeasedHeartbeat(next, now));
    assert session.batchId == ResumedBatchId(next) && session.runId == next && session.policy == BOSS_BATCH_POLICY;
    assert session.plan == PlanBatch(s.items, BOSS_BATCH_POLICY, NO_USAGE);
    assert LeasedHeartbeat(next, now).runId == next;
    hide *;
    QuietParts(s, now, next);
    NothingInFlight(s.items);
    var t := RestartClaims(s, c, BOSS_BATCH_POLICY, semantic, done, next, now);
    var selected := RebuiltFacts(s, c, BOSS_BATCH_POLICY, semantic, done);
    RestartOpens(s, c, BOSS_BATCH_POLICY, semantic, done, next, now);
    RestartOwns(s, next, now);
    RestartHonest(s.items, order, next);
    OpeningStarts(s.items, next);
    FirstClaimProgress(s2, t, order, next, now);
    PutFrame(s2, t);
    ClaimRebuildsSession(Put(s2, t), c, session, order);
  }

  lemma PutFrame(s: Control, t: Item)
    requires Admits(s.items, t)
    ensures var p := Put(s, t);
      && p.items == Admit(s.items, t) && t.key in p.items && p.items[t.key] == t
      && p.manifest == s.manifest && p.batches == s.batches && p.heartbeat == s.heartbeat
  {
  }

  lemma RestartHonest(items: Items, order: seq<Key>, next: RunId)
    requires order == EligibleOrder(items) && RestartSession(items, BOSS_BATCH_POLICY, next).plan.stop.None?
    ensures Honest(RestartSession(items, BOSS_BATCH_POLICY, next), order, next)
  {
    OpenedPlan(items, BOSS_BATCH_POLICY, NO_USAGE);
    SomethingOrdered(items, BOSS_BATCH_POLICY);
    hide EligibleOrder, PlanBatch;
  }
}
