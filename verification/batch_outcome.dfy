/**
  What the preflight ladders answer at each point of a batch: the exact condition
  under which a batch can continue, when it can finish, and that the finish and the
  handoff ladders agree on the code.
*/
module BatchOutcome {
  import opened Wrappers
  import opened Campaign
  import opened Batching
  import opened BatchCoordinator
  import opened CoordinatorSafety
  import opened BatchProgress

  function Min(a: int, b: int): int {
    if a < b then a else b
  }

  /** A session whose plan is the one `plan_batch` returned for that order. */
  predicate Honest(session: Session, order: seq<Key>, run: RunId) {
    && session.runId == run
    && order != []
    && session.plan == Plan(Take(order, session.policy.maxItems), None)
  }

  /** The counted prefix of the plan is the number of commits. */
  lemma PrefixIsProgress(items: Items, order: seq<Key>, run: RunId, k: nat, n: nat)
    requires Progress(items, order, run, k) && k <= n <= |order|
    ensures PrefixLength(items, order[..n], run) == k
    ensures CommittedByRun(items, run) == KeySet(order[..n][..k])
  {
    var p := PrefixLength(items, order[..n], run);
    assert order[..n][..k] == order[..k];
    assert forall i | 0 <= i < k :: order[..k][i] in KeySet(order[..k]);
    if p > k {
      assert CommittedBy(items, order[..n][k], run);
      assert order[k] in KeySet(order[..k]);
      var j :| 0 <= j < k && order[..k][j] == order[k];
      AscendingDistinct(items, order, j, k);
    }
  }

  /** Everything `inspect_continuation` checks before the limits and the plan. */
  predicate AtRest(s: Control, session: Session, usage: Usage, now: int, k: nat) {
    && Ownership(s, session.batchId, session.runId, now) == Ok(Ready)
    && InFlightKeys(s.items) == {}
    && usage.itemsCompleted == k
  }

  /** The plan the code asks for again after `k` commits: it is not reduced by them. */
  lemma Replanned(s: Control, session: Session, usage: Usage, order: seq<Key>, k: nat)
    requires Progress(s.items, order, session.runId, k) && InFlightKeys(s.items) == {}
    requires StopOf(session.policy, usage).None?
    ensures PlanBatch(s.items, session.policy, usage) ==
            Plan(Take(order[k..], session.policy.maxItems), if k == |order| then Some(NoEligibleItems) else None)
  {
    RemainingSorted(s.items, order, session.runId, k);
    KeysOfTake(Sorted(EligibleItems(s.items)), session.policy.maxItems);
    hide StopOf, Progress, InFlightKeys, Sorted, EligibleItems;
  }

  lemma KeysOfTake(q: seq<Item>, m: nat)
    ensures Keys(Take(q, m)) == Take(Keys(q), m)
  {
  }

  /** The head of the rest is the rest of the head exactly at the start or when the limit cuts nothing. */
  lemma HeadOfRest(order: seq<Key>, m: int, k: nat)
    requires m > 0 && k < |Take(order, m)|
    ensures Take(order[k..], m) == Take(order, m)[k..] <==> k == 0 || |order| <= m
    ensures Take(order, m)[k] == order[k]
  {
    if k == 0 {
      assert order[0..] == order && Take(order, m)[0..] == Take(order, m);
    } else if |order| > m {
      assert |Take(order[k..], m)| != |Take(order, m)[k..]|;
    }
  }

  /**
    The exact condition for continuing: with E eligible items at the opening and an
    item limit M, after k commits of the plan, matching usage and no limit reached,
    the batch names order[k] if and only if k = 0 or E <= M; otherwise the plan has
    drifted, because the replanning does not subtract the completed items.
  */
  lemma ContinuesIff(s: Control, session: Session, usage: Usage, now: int, order: seq<Key>, k: nat)
    requires Progress(s.items, order, session.runId, k) && Honest(session, order, session.runId)
    requires AtRest(s, session, usage, now, k) && StopOf(session.policy, usage).None?
    requires k < |session.plan.keys|
    ensures InspectContinuation(s, session, usage, now) ==
            Ok(if k == 0 || |order| <= session.policy.maxItems then Continuation(Ready, k, Some(order[k]), None)
               else Continuation(PlanDrift, k, None, None))
  {
    var m, planned := session.policy.maxItems, session.plan.keys;
    assert planned == order[..|planned|];
    PrefixIsProgress(s.items, order, session.runId, k, |planned|);
    Replanned(s, session, usage, order, k);
    HeadOfRest(order, m, k);
    assert order[k..][0] == order[k];
    assert order[k] in KeySet(order[k..]);
  }

  /** In the drifted case neither the next claim nor the end of the batch is reachable. */
  lemma DriftBlocks(s: Control, session: Session, usage: Usage, now: int, lease: int, order: seq<Key>, k: nat)
    requires Progress(s.items, order, session.runId, k) && Honest(session, order, session.runId)
    requires AtRest(s, session, usage, now, k) && StopOf(session.policy, usage).None?
    requires 0 < k < |session.plan.keys| && |order| > session.policy.maxItems && 0 < lease <= MAX_ITEM_LEASE_SECONDS
    ensures ClaimNext(s, session, usage, now, lease) == Err(Blocked(PlanDrift))
    ensures FinishBatch(s, session, usage, now) == Err(Blocked(PlanDrift))
  {
    ContinuesIff(s, session, usage, now, order, k);
  }

  /** With the whole plan committed and matching usage, finishing always succeeds. */
  lemma FinishesWhenComplete(s: Control, session: Session, usage: Usage, now: int, order: seq<Key>)
    requires Progress(s.items, order, session.runId, |session.plan.keys|) && Honest(session, order, session.runId)
    requires AtRest(s, session, usage, now, |session.plan.keys|)
    ensures var r := FinishBatch(s, session, usage, now);
      && r.Ok?
      && r.value.1 == (if StopOf(session.policy, usage).Some? then Stopped(StopOf(session.policy, usage).value) else PlanComplete)
      && (r.value.1 == PlanComplete ==> |order| < session.policy.maxItems)
  {
    var n := |session.plan.keys|;
    assert session.plan.keys == order[..n];
    PrefixIsProgress(s.items, order, session.runId, n, n);
    assert Checks(session.policy, usage)[0] == Check(n, session.policy.maxItems, ItemLimit);
    if StopOf(session.policy, usage).None? {
      Replanned(s, session, usage, order, n);
    }
  }

  /**
    Whenever a batch finishes with a code, the handoff preflight for the same session,
    usage and time is ready and recomputes the same code over all nine counters.
  */
  lemma FinishAndHandoffAgree(s: Control, session: Session, usage: Usage, now: int)
    requires FinishBatch(s, session, usage, now).Ok?
    ensures var (next, code) := FinishBatch(s, session, usage, now).value;
      && InspectFinished(next, session, usage, now) == Ok(Ready)
      && ExpectedCode(next, session, usage) == Some(code)
      && LastBatch(next) == Some(Finished(session.batchId, session.runId, now, code, usage))
      && (next.items, next.history, next.heartbeat) == (s.items, s.history, s.heartbeat)
  {
    hide PlanBatch, StopOf, InFlightKeys, CommittedByRun, PrefixLength;
    var (next, code) := FinishBatch(s, session, usage, now).value;
    var b := Finished(session.batchId, session.runId, now, code, usage);
    assert next.batches == s.batches + [b];
    assert ExpectedCode(next, session, usage) == ExpectedCode(s, session, usage);
  }

  /** No other usage is accepted for the handoff: all nine counters are compared. */
  lemma HandoffNeedsSameUsage(s: Control, session: Session, usage: Usage, now: int, other: Usage)
    requires FinishBatch(s, session, usage, now).Ok? && other != usage
    ensures InspectFinished(FinishBatch(s, session, usage, now).value.0, session, other, now) in
            {Ok(UsageMismatch), Ok(FinishRecordMismatch)}
  {
    FinishAndHandoffAgree(s, session, usage, now);
  }

  lemma IdleWithoutBatch(s: Control)
    requires OneInFlight(s) && ActiveBatch(s.batches).None?
    ensures InFlightKeys(s.items) == {}
  {
    assert forall x | x in InFlightKeys(s.items) :: ActiveBatch(s.batches).Some?;
  }

  lemma OpeningUnfolds(s: Control, batchId: string, runId: RunId, policy: Policy, clock: int)
    requires OpenBatch(s, batchId, runId, policy, clock).Ok? && OpenBatch(s, batchId, runId, policy, clock).value.Opened?
    ensures var opening := OpenBatch(s, batchId, runId, policy, clock).value;
      && opening.control == s.(batches := s.batches + [Started(batchId, runId, clock)])
      && opening.session == Session(batchId, runId, policy, PlanBatch(s.items, policy, NO_USAGE))
      && opening.session.plan.stop.None?
      && ActiveBatch(s.batches).None?
      && opening.control == Apply(s, Open(batchId, runId, policy, clock))
  {
    hide PlanBatch, AdmitsBatch;
  }

  lemma PlannedIsHonest(items: Items, policy: Policy, batchId: string, runId: RunId)
    requires PlanBatch(items, policy, NO_USAGE).stop.None?
    ensures Honest(Session(batchId, runId, policy, PlanBatch(items, policy, NO_USAGE)), EligibleOrder(items), runId)
  {
    OpenedPlan(items, policy, NO_USAGE);
    assert PlanBatch(items, policy, NO_USAGE).keys != [];
    hide EligibleOrder, PlanBatch;
  }

  /** An opening by a fresh run starts an honest session at the beginning of its plan. */
  lemma OpeningIsHonest(s: Control, batchId: string, runId: RunId, policy: Policy, clock: int)
    requires Safe(s) && CommittedByRun(s.items, runId) == {}
    requires OpenBatch(s, batchId, runId, policy, clock).Ok? && OpenBatch(s, batchId, runId, policy, clock).value.Opened?
    ensures var opening := OpenBatch(s, batchId, runId, policy, clock).value;
      && Safe(opening.control)
      && Honest(opening.session, EligibleOrder(s.items), runId)
      && Progress(opening.control.items, EligibleOrder(s.items), runId, 0)
      && ActiveBatch(opening.control.batches) == Some(Started(batchId, runId, clock))
  {
    hide OneInFlight, CommittedOnce, Replayable, Progress, CommittedByRun, InFlightKeys, EligibleOrder, HasEffect, Permitted, PlanBatch;
    OpeningUnfolds(s, batchId, runId, policy, clock);
    IdleWithoutBatch(s);
    OpeningStarts(s.items, runId);
    PlannedIsHonest(s.items, policy, batchId, runId);
    var e := ApplyEffect(s, Open(batchId, runId, policy, clock));
    StepSafe(s, Apply(s, Open(batchId, runId, policy, clock)), e);
  }

  /**
    From the opening of a batch by a fresh run until it finishes, under any ordinary
    operations of any sessions: its run has committed exactly the first k planned
    keys, at most one item is in flight, and it is the next planned one.
  */
  lemma OpenedBatchRun(s: Control, batchId: string, runId: RunId, policy: Policy, clock: int, ops: seq<Op>)
    returns (order: seq<Key>, k: nat)
    requires Safe(s) && CommittedByRun(s.items, runId) == {}
    requires OpenBatch(s, batchId, runId, policy, clock).Ok? && OpenBatch(s, batchId, runId, policy, clock).value.Opened?
    requires forall i | 0 <= i < |ops| :: Ordinary(ops[i])
    requires Execute(OpenBatch(s, batchId, runId, policy, clock).value.control, ops).batches
             == OpenBatch(s, batchId, runId, policy, clock).value.control.batches
    ensures order == EligibleOrder(s.items)
    ensures var opening := OpenBatch(s, batchId, runId, policy, clock).value;
      && Honest(opening.session, order, runId)
      && Safe(Execute(opening.control, ops))
      && Progress(Execute(opening.control, ops).items, order, runId, k)
  {
    order := EligibleOrder(s.items);
    OpeningIsHonest(s, batchId, runId, policy, clock);
    var opening := OpenBatch(s, batchId, runId, policy, clock).value;
    ExecuteSafe(opening.control, ops);
    k := ActiveBatchProgress(opening.control, ops, order, runId, 0);
  }
}
