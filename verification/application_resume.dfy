/** Resuming an application campaign never blocks: it claims the next item or completes. */
module ApplicationResume {
  import opened Wrappers
  import opened Campaign
  import opened Batching
  import opened BatchCoordinator
  import opened BatchProgress
  import opened ApplicationCampaign
  import opened ApplicationRounds

  /** The finished session the runtime rebuilds after a handoff. */
  ghost predicate Rebuilt(s: Control, done: FinishedSession, run: RunId, key: Key) {
    && s.batches != [] && s.batches[|s.batches| - 1].Finished? && s.handoff.Some?
    && var last := s.batches[|s.batches| - 1];
       done == FinishedSession(Session(last.batchId, run, ONE_ITEM_POLICY, Plan([key], None)), last.usage,
                               s.handoff.value, NextOrdinal(s.items))
  }

  lemma HandoffReadable(s: Control, spec: Spec, used: set<RunId>, run: RunId, key: Key, since: int, at: int)
    requires HandedOff(s, spec, used, run, key, since, at)
    ensures ReadHandoff(s) == Ok(s.handoff.value)
  {
    hide CountStatus, IsLeast, Claims, CommittedByRun;
    NextOrdinalPositive(s.items);
  }

  lemma NextOrdinalPositive(items: Items)
    ensures NextOrdinal(items) > 0
  {
    var incomplete := IncompleteItems(items);
    if incomplete != {} {
      assert IsLeast(Least(incomplete), incomplete);
    }
  }

  /** Rebuilding finds exactly the session that was finished. */
  lemma RebuildsFinished(s: Control, spec: Spec, used: set<RunId>, run: RunId, key: Key, since: int, at: int)
    returns (done: FinishedSession)
    requires HandedOff(s, spec, used, run, key, since, at)
    ensures FinishedApplicationSession(s, spec) == Ok(done) && Rebuilt(s, done, run, key)
  {
    HandoffReadable(s, spec, used, run, key, since, at);
    assert key in CommittedByRun(s.items, run);
    assert |CommittedByRun(s.items, run)| == 1 && TheOnly(CommittedByRun(s.items, run)) in {key};
    hide ReadHandoff, CountStatus, NextOrdinal;
    done := FinishedApplicationSession(s, spec).value;
  }

  /** The handoff preflight of the rebuilt session is ready while the heartbeat is fresh. */
  lemma FinishedReady(s: Control, done: FinishedSession, run: RunId, key: Key, now: int)
    requires Rebuilt(s, done, run, key) && s.batches[|s.batches| - 1].runId == run
    requires s.batches[|s.batches| - 1].code == Stopped(ItemLimit) && done.usage.itemsCompleted == 1
    requires s.manifest.status == Running && InFlightKeys(s.items) == {} && CommittedByRun(s.items, run) == {key}
    requires s.heartbeat.Some? && s.heartbeat.value.runId == run && InspectHeartbeat(s.heartbeat, now) == Ok(Fresh)
    ensures InspectFinished(s, done.session, done.usage, now) == Ok(Ready)
  {
    OneCommitted(s.items, key, run);
    ItemLimitFirst(ONE_ITEM_POLICY, done.usage);
    assert KeySet([key][..1]) == {key};
    hide PlanBatch, StopOf, NextOrdinal, CommittedByRun, InFlightKeys, PrefixLength;
  }

  /** The new owner gets a fresh heartbeat. */
  lemma TakesOverFresh(s: Control, done: FinishedSession, run: RunId, now: int, replacement: Heartbeat)
    requires ReadHandoff(s) == Ok(done.handoff) && done.session.runId == run && done.handoff.lastRunId == run
    requires done.handoff.nextOrdinal == NextOrdinal(s.items)
    requires InspectFinished(s, done.session, done.usage, now) == Ok(Ready)
    requires s.heartbeat.Some? && s.heartbeat.value.runId == run
    requires InspectStaleRun(s, now) == Ok(FreshHeartbeat)
    requires replacement.runId != run && replacement.startedAt == replacement.heartbeatAt == now
    ensures TakeOver(s, done.session, done.usage, now, replacement) == Ok(s.(heartbeat := Some(replacement)))
  {
    hide InspectFinished, ReadHandoff, NextOrdinal, InspectStaleRun;
  }

  lemma StaleState(s: Control, run: RunId, now: int)
    requires s.manifest.status == Running && Claims(s.items) == {} && s.heartbeat.Some?
    requires s.heartbeat.value.heartbeatAt <= now
    ensures InspectStaleRun(s, now) == Ok(if now < s.heartbeat.value.freshUntil then FreshHeartbeat else StaleOwner)
    ensures now < s.heartbeat.value.freshUntil ==> InspectHeartbeat(s.heartbeat, now) == Ok(Fresh)
  {
  }

  /** What `HandedOff` says about the owner. */
  lemma OwnerParts(s: Control, spec: Spec, used: set<RunId>, run: RunId, key: Key, since: int, at: int, done: FinishedSession)
    requires HandedOff(s, spec, used, run, key, since, at) && Rebuilt(s, done, run, key)
    ensures s.manifest.status == Running && s.heartbeat == Some(LeasedHeartbeat(run, since)) && run in used && since <= at
    ensures s.batches[|s.batches| - 1].runId == run && s.batches[|s.batches| - 1].code == Stopped(ItemLimit)
    ensures done.usage.itemsCompleted == 1 && done.handoff.lastRunId == run && done.handoff.nextOrdinal == NextOrdinal(s.items)
    ensures done.session.runId == run && s.handoff == Some(done.handoff) && done.handoff.directive == Running
    ensures CommittedByRun(s.items, run) == {key} && InFlightKeys(s.items) == {} && Claims(s.items) == {}
    ensures ActiveBatch(s.batches).None?
  {
    NothingInFlight(s.items);
    hide NextOrdinal, CountStatus, CommittedByRun, InFlightKeys, Claims;
  }

  lemma StaleTakesOver(s: Control, session: Session, usage: Usage, run: RunId, now: int, replacement: Heartbeat)
    requires InspectStaleRun(s, now) == Ok(StaleOwner) && Claims(s.items) == {} && session.runId == run
    requires s.heartbeat.Some? && s.heartbeat.value.runId == run && replacement.runId != run
    requires replacement.startedAt == replacement.heartbeatAt == now
    ensures TakeOver(s, session, usage, now, replacement) == Ok(s.(heartbeat := Some(replacement)))
  {
    hide InspectStaleRun;
  }

  /** The new owner gets the heartbeat, whether the old one is fresh or stale. */
  lemma TakesOver(s: Control, spec: Spec, used: set<RunId>, run: RunId, key: Key, since: int, at: int, now: int, next: RunId, done: FinishedSession)
    requires HandedOff(s, spec, used, run, key, since, at) && at <= now && next !in used && Rebuilt(s, done, run, key)
    ensures TakeOver(s, done.session, done.usage, now, LeasedHeartbeat(next, now)) ==
            Ok(s.(heartbeat := Some(LeasedHeartbeat(next, now))))
  {
    hide HandedOff, InspectFinished, ReadHandoff, NextOrdinal, CountStatus, CommittedByRun, InFlightKeys, InspectStaleRun, Claims, TakeOver, Rebuilt;
    HandoffReadable(s, spec, used, run, key, since, at);
    OwnerParts(s, spec, used, run, key, since, at, done);
    StaleState(s, run, now);
    if now < since + ITEM_LEASE_SECONDS {
      FinishedReady(s, done, run, key, now);
      TakesOverFresh(s, done, run, now, LeasedHeartbeat(next, now));
    } else {
      StaleTakesOver(s, done.session, done.usage, run, now, LeasedHeartbeat(next, now));
    }
  }

  lemma PlanOfRest(items: Items, policy: Policy)
    ensures var plan := PlanBatch(items, policy, NO_USAGE);
      && (plan.stop.None? <==> EligibleItems(items) != {})
      && (plan.keys != [] <==> EligibleItems(items) != {})
  {
    NoUsageNoLimit(policy);
    PlanIsLeast(items, policy, NO_USAGE);
  }

  /** The resume preflight of the new owner is ready. */
  lemma ResumePlanned(s: Control, run: RunId, now: int, policy: Policy)
    requires ReadHandoff(s).Ok? && ReadHandoff(s).value.directive == Running
    requires InspectHeartbeat(s.heartbeat, now) == Ok(Fresh) && s.heartbeat.value.runId == run
    requires ActiveBatch(s.batches).None? && Claims(s.items) == {} && InFlightKeys(s.items) == {}
    ensures PlanResume(s, run, now, policy) == Ok(ResumePlan(Ready, Some(PlanBatch(s.items, policy, NO_USAGE))))
  {
    hide PlanBatch, ReadHandoff, Claims, InFlightKeys;
  }

  lemma HeartbeatAside(s: Control, h: Option<Heartbeat>)
    ensures ReadHandoff(s.(heartbeat := h)) == ReadHandoff(s)
  {
    hide NextOrdinal, CountStatus;
  }

  lemma TransferInspected(s: Control, session: Session, handoff: Handoff, next: RunId, now: int, policy: Policy, plan: Plan)
    requires FinishedBy(s, session) && handoff.lastRunId == session.runId
    requires ReadHandoff(s) == Ok(handoff)
    requires PlanResume(s, next, now, policy) == Ok(ResumePlan(Ready, Some(plan)))
    requires plan.stop.None? <==> plan.keys != []
    ensures InspectTransferred(s, session, next, now, policy) ==
            Ok(TransferredResume(if plan.keys == [] then NoEligible else Ready, handoff.nextOrdinal, plan.keys))
  {
    hide PlanResume, ReadHandoff;
  }

  /** What a resumed run finds: every preflight ready, the plan of the eligible items. */
  lemma ResumeInspected(s: Control, spec: Spec, used: set<RunId>, run: RunId, key: Key, since: int, at: int, now: int, next: RunId, done: FinishedSession)
    requires HandedOff(s, spec, used, run, key, since, at) && at <= now && next !in used && Rebuilt(s, done, run, key)
    ensures var s1 := s.(heartbeat := Some(LeasedHeartbeat(next, now)));
      var plan := PlanBatch(s.items, ONE_ITEM_POLICY, NO_USAGE);
      && PlanResume(s1, next, now, ONE_ITEM_POLICY) == Ok(ResumePlan(Ready, Some(plan)))
      && InspectTransferred(s1, done.session, next, now, ONE_ITEM_POLICY) ==
         Ok(TransferredResume(if EligibleItems(s.items) == {} then NoEligible else Ready, NextOrdinal(s.items), plan.keys))
  {
    hide HandedOff, PlanBatch, ReadHandoff, NextOrdinal, CountStatus, CommittedByRun, EligibleItems, InFlightKeys, Claims, PlanResume, InspectTransferred;
    var s1 := s.(heartbeat := Some(LeasedHeartbeat(next, now)));
    HandoffReadable(s, spec, used, run, key, since, at);
    HeartbeatAside(s, s1.heartbeat);
    OwnerParts(s, spec, used, run, key, since, at, done);
    ResumePlanned(s1, next, now, ONE_ITEM_POLICY);
    PlanOfRest(s.items, ONE_ITEM_POLICY);
    TransferInspected(s1, done.session, done.handoff, next, now, ONE_ITEM_POLICY, PlanBatch(s.items, ONE_ITEM_POLICY, NO_USAGE));
  }

  // ---------- work left: the next claim ----------

  lemma BatchIdInjective(a: RunId, b: RunId)
    requires BatchId(a) == BatchId(b)
    ensures a == b
  {
    assert BatchId(a)[10..] == a && BatchId(b)[10..] == b;
  }

  lemma BatchIdFresh(s: Control, spec: Spec, used: set<RunId>, at: int, next: RunId)
    requires Orderly(s, spec, used, at) && next !in used
    ensures !BatchIdUsed(s.batches, BatchId(next))
  {
    forall i | 0 <= i < |s.batches| && s.batches[i].Started?
      ensures s.batches[i].batchId != BatchId(next)
    {
      if s.batches[i].batchId == BatchId(next) {
        BatchIdInjective(s.batches[i].runId, next);
      }
    }
  }

  lemma SettledIncomplete(items: Items)
    requires forall k | k in items :: Settled(items[k])
    ensures IncompleteItems(items) == EligibleItems(items)
  {
  }

  /** The record after the transfer and the opening for `next`. */
  function Reopened(s: Control, next: RunId, now: int): Control {
    OneItemOpening(s, next, now, now)
  }

  lemma Reopens(s: Control, done: FinishedSession, next: RunId, now: int, plan: Plan, ordinal: int)
    requires plan == PlanBatch(s.items, ONE_ITEM_POLICY, NO_USAGE) && plan.keys != [] && plan.stop.None?
    requires PlanResume(s, next, now, ONE_ITEM_POLICY) == Ok(ResumePlan(Ready, Some(plan)))
    requires InspectTransferred(s, done.session, next, now, ONE_ITEM_POLICY) == Ok(TransferredResume(Ready, ordinal, plan.keys))
    requires ActiveBatch(s.batches).None? && !BatchIdUsed(s.batches, BatchId(next))
    requires s.heartbeat == Some(LeasedHeartbeat(next, now))
    ensures OpenTransferred(s, done.session, BatchId(next), next, now, ONE_ITEM_POLICY) ==
            Ok((Reopened(s, next, now), OneItemSession(s.items, next)))
  {
    hide PlanResume, InspectTransferred, PlanBatch, BatchIdUsed;
  }

  lemma ReopenedPoised(s: Control, spec: Spec, used: set<RunId>, run: RunId, key: Key, since: int, at: int, now: int, next: RunId)
    requires HandedOff(s, spec, used, run, key, since, at) && at <= now && next !in used
    ensures Poised(Reopened(s, next, now), spec, used, next, now)
  {
    hide NextOrdinal, CountStatus;
    var s2 := Reopened(s, next, now);
    assert forall i | 0 <= i < |s.batches| :: s2.batches[i] == s.batches[i];
  }

  lemma ResumeUnfolds(s: Control, spec: Spec, done: FinishedSession, next: RunId, now: int, clock: int, ordinal: int, keys: seq<Key>)
    requires FinishedApplicationSession(s, spec) == Ok(done)
    requires TakeOver(s, done.session, done.usage, now, LeasedHeartbeat(next, now)) == Ok(s.(heartbeat := Some(LeasedHeartbeat(next, now))))
    requires InspectTransferred(s.(heartbeat := Some(LeasedHeartbeat(next, now))), done.session, next, now, ONE_ITEM_POLICY) ==
             Ok(TransferredResume(if keys == [] then NoEligible else Ready, done.nextOrdinal, keys))
    ensures var s1 := s.(heartbeat := Some(LeasedHeartbeat(next, now)));
      Resume(s, spec, next, now, clock) ==
      if keys == [] then CompleteAll(s1, done.session, LeasedHeartbeat(next, now), now, clock)
      else ClaimResumed(s1, done, TransferredResume(Ready, done.nextOrdinal, keys), next, now)
  {
    hide FinishedApplicationSession, TakeOver, InspectTransferred, CompleteAll, ClaimResumed;
  }

  lemma ClaimResumedWorks(s: Control, done: FinishedSession, resume: TransferredResume, next: RunId, now: int, t: Item)
    requires OpenTransferred(s, done.session, BatchId(next), next, now, ONE_ITEM_POLICY) ==
             Ok((Reopened(s, next, now), OneItemSession(s.items, next)))
    requires Admits(s.items, t)
    requires ClaimNext(Reopened(s, next, now), OneItemSession(s.items, next), NO_USAGE, now, ITEM_LEASE_SECONDS) ==
             Ok(Put(Reopened(s, next, now), t))
    requires resume.keys != [] && resume.keys[0] == t.key && t.ordinal == done.nextOrdinal
    requires t.status == Claimed && t.runId == Some(next)
    ensures ClaimResumed(s, done, resume, next, now) == Attempt(Put(Reopened(s, next, now), t), Ok(Some(t)))
  {
    hide OpenTransferred, ClaimNext, Admits;
  }

  /** With eligible items left, resuming claims the least of them for the fresh run. */
  lemma ResumeClaims(s: Control, spec: Spec, used: set<RunId>, run: RunId, key: Key, since: int, at: int, now: int, clock: int, next: RunId)
    returns (t: Item)
    requires HandedOff(s, spec, used, run, key, since, at) && at <= now && next !in used
    requires EligibleItems(s.items) != {}
    ensures t == ClaimOf(Least(EligibleItems(s.items)), next, now, ITEM_LEASE_SECONDS) && t.ordinal == NextOrdinal(s.items)
    ensures var a := Resume(s, spec, next, now, clock);
      && a.result == Ok(Some(t)) && a.control.history == s.history + [t] && a.control.manifest == s.manifest
      && Working(a.control, spec, used, next, t.key, now)
      && EligibleItems(a.control.items) == EligibleItems(s.items) - {Least(EligibleItems(s.items))}
  {
    hide HandedOff, Working, Poised, OpenTransferred, PlanResume, InspectTransferred, FinishedApplicationSession, TakeOver,
      ClaimNext, ClaimResumed, Resume, Least, Sorted, PlanBatch, NextOrdinal, EligibleItems, Rebuilt, BatchIdUsed;
    ResumeParts(s, spec, used, run, key, since, at, now, next);
    var s1 := s.(heartbeat := Some(LeasedHeartbeat(next, now)));
    var done := RebuildsFinished(s, spec, used, run, key, since, at);
    RebuiltParts(s, done, run, key);
    TakesOver(s, spec, used, run, key, since, at, now, next, done);
    ResumeInspected(s, spec, used, run, key, since, at, now, next, done);
    PlanOfRest(s.items, ONE_ITEM_POLICY);
    var plan := PlanBatch(s.items, ONE_ITEM_POLICY, NO_USAGE);
    Reopens(s1, done, next, now, plan, NextOrdinal(s.items));
    ReopenedPoised(s, spec, used, run, key, since, at, now, next);
    t := OpenedClaim(Reopened(s, next, now), spec, used, next, now);
    NextIsLeast(s.items);
    ResumeUnfolds(s, spec, done, next, now, clock, NextOrdinal(s.items), plan.keys);
    ClaimResumedWorks(s1, done, TransferredResume(Ready, done.nextOrdinal, plan.keys), next, now, t);
  }

  lemma NextIsLeast(items: Items)
    requires forall k | k in items :: Settled(items[k])
    requires EligibleItems(items) != {}
    ensures NextOrdinal(items) == Least(EligibleItems(items)).ordinal
  {
    SettledIncomplete(items);
  }

  /** The parts of `HandedOff` a resume needs. */
  lemma ResumeParts(s: Control, spec: Spec, used: set<RunId>, run: RunId, key: Key, since: int, at: int, now: int, next: RunId)
    requires HandedOff(s, spec, used, run, key, since, at) && next !in used
    ensures ActiveBatch(s.batches).None? && !BatchIdUsed(s.batches, BatchId(next))
    ensures forall k | k in s.items :: Settled(s.items[k])
  {
    hide NextOrdinal, CountStatus, CommittedByRun, BatchIdUsed;
    BatchIdFresh(s, spec, used, at, next);
  }

  lemma RebuiltParts(s: Control, done: FinishedSession, run: RunId, key: Key)
    requires Rebuilt(s, done, run, key)
    ensures done.nextOrdinal == NextOrdinal(s.items) && s.handoff == Some(done.handoff)
  {
  }

  // ---------- nothing left: completion ----------

  /** The record of a completed campaign. */
  function Closed(s: Control, next: RunId, now: int, clock: int): Control {
    var done := s.(manifest := s.manifest.(updatedAt := now, status := Completed), heartbeat := None);
    done.(handoff := Some(DerivedHandoff(done, next, clock)))
  }

  lemma CompleteAllWorks(s: Control, session: Session, replacement: Heartbeat, now: int, clock: int)
    requires InspectTransferred(s, session, replacement.runId, now, ONE_ITEM_POLICY).Ok?
    requires InspectTransferred(s, session, replacement.runId, now, ONE_ITEM_POLICY).value.state == NoEligible
    requires s.manifest.status == Running && s.manifest.updatedAt <= now <= clock
    requires FinishedBy(s, session) && s.heartbeat == Some(replacement)
    requires InspectHeartbeat(s.heartbeat, now) == Ok(Fresh)
    requires s.items != map[] && IncompleteItems(s.items) == {}
    requires s.handoff.Some? && s.handoff.value.directive == Running
    ensures CompleteAll(s, session, replacement, now, clock) == Attempt(Closed(s, replacement.runId, now, clock), Ok(None))
  {
    NextOrdinalPositive(s.items);
    hide InspectTransferred, NextOrdinal, CountStatus, IncompleteItems;
  }

  /** With nothing left, resuming completes the campaign: terminal handoff, no heartbeat. */
  lemma ResumeCompletes(s: Control, spec: Spec, used: set<RunId>, run: RunId, key: Key, since: int, at: int, now: int, clock: int, next: RunId)
    requires HandedOff(s, spec, used, run, key, since, at) && at <= now <= clock && next !in used
    requires EligibleItems(s.items) == {}
    ensures Resume(s, spec, next, now, clock) == Attempt(Closed(s, next, now, clock), Ok(None))
    ensures IncompleteItems(s.items) == {}
  {
    hide OpenTransferred, PlanResume, InspectTransferred, FinishedApplicationSession, TakeOver, CompleteAll, Resume,
      PlanBatch, NextOrdinal, EligibleItems, IncompleteItems, CommittedByRun, CountStatus, Closed, HandedOff, InFlightKeys, Claims;
    var s1 := s.(heartbeat := Some(LeasedHeartbeat(next, now)));
    var done := RebuildsFinished(s, spec, used, run, key, since, at);
    OwnerParts(s, spec, used, run, key, since, at, done);
    ResumeParts(s, spec, used, run, key, since, at, now, next);
    UpdatedBefore(s, spec, used, run, key, since, at);
    TakesOver(s, spec, used, run, key, since, at, now, next, done);
    ResumeInspected(s, spec, used, run, key, since, at, now, next, done);
    PlanOfRest(s.items, ONE_ITEM_POLICY);
    SettledIncomplete(s.items);
    ResumeUnfolds(s, spec, done, next, now, clock, NextOrdinal(s.items), PlanBatch(s.items, ONE_ITEM_POLICY, NO_USAGE).keys);
    CommittedExists(s, spec, used, run, key, since, at);
    CompleteAllWorks(s1, done.session, LeasedHeartbeat(next, now), now, clock);
    ClosedSame(s, s1.heartbeat, next, now, clock);
  }

  lemma UpdatedBefore(s: Control, spec: Spec, used: set<RunId>, run: RunId, key: Key, since: int, at: int)
    requires HandedOff(s, spec, used, run, key, since, at)
    ensures s.manifest.updatedAt <= at
  {
    hide NextOrdinal, CountStatus, CommittedByRun;
  }

  lemma CommittedExists(s: Control, spec: Spec, used: set<RunId>, run: RunId, key: Key, since: int, at: int)
    requires HandedOff(s, spec, used, run, key, since, at)
    ensures key in s.items
  {
    assert key in CommittedByRun(s.items, run);
  }

  lemma ClosedSame(s: Control, h: Option<Heartbeat>, next: RunId, now: int, clock: int)
    ensures Closed(s.(heartbeat := h), next, now, clock) == Closed(s, next, now, clock)
  {
    hide NextOrdinal, CountStatus;
  }
}
