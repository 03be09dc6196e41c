/**
  A batch whose item limit cuts its plan, driven through its first item: every call
  succeeds, and then the batch can neither go on nor, below its limits, finish.
*/
module BatchDrift {
  import opened Wrappers
  import opened Campaign
  import opened Batching
  import opened BatchCoordinator
  import opened CoordinatorSafety
  import opened BatchProgress
  import opened BatchOutcome
  import opened ApplicationCampaign
  import opened ApplicationRounds
  import opened HeadItem
  import ApplicationRuntime

  /** The four calls that claim and commit the first item of a session. */
  function FirstItem(session: Session, now: int, content: Hash): seq<Op> {
    [ Claim(session, NO_USAGE, now, ITEM_LEASE_SECONDS), Observe(session, NO_USAGE, now, true),
      Extract(session, NO_USAGE, now, true), Commit(session, NO_USAGE, now, true, content) ]
  }

  lemma FirstItemUnfolds(s: Control, session: Session, now: int, content: Hash, s1: Control, s2: Control, s3: Control, s4: Control)
    requires ClaimNext(s, session, NO_USAGE, now, ITEM_LEASE_SECONDS) == Ok(s1)
    requires RecordObserved(s1, session, NO_USAGE, now, true) == Ok(s2)
    requires RecordExtracted(s2, session, NO_USAGE, now, true) == Ok(s3)
    requires RecordCommitted(s3, session, NO_USAGE, now, true, content) == Ok(s4)
    ensures CoordinatorSafety.Execute(s, FirstItem(session, now, content)) == s4
  {
    hide Apply, CoordinatorSafety.Execute, ClaimNext, RecordObserved, RecordExtracted, RecordCommitted;
    ApplyKeeps(s, session, now, content);
    ApplyKeeps(s1, session, now, content);
    ApplyKeeps(s2, session, now, content);
    ApplyKeeps(s3, session, now, content);
    ExecuteFour(s, Claim(session, NO_USAGE, now, ITEM_LEASE_SECONDS), Observe(session, NO_USAGE, now, true),
                Extract(session, NO_USAGE, now, true), Commit(session, NO_USAGE, now, true, content));
  }

  lemma ExecuteFour(s: Control, a: Op, b: Op, c: Op, d: Op)
    ensures CoordinatorSafety.Execute(s, [a, b, c, d]) == Apply(Apply(Apply(Apply(s, a), b), c), d)
  {
    hide *;
    ExecuteNone(s);
    ExecuteMore(s, [], a);
    ExecuteMore(s, [a], b);
    ExecuteMore(s, [a, b], c);
    ExecuteMore(s, [a, b, c], d);
    assert [] + [a] == [a] && [a] + [b] == [a, b] && [a, b] + [c] == [a, b, c] && [a, b, c] + [d] == [a, b, c, d];
  }

  /** An operation whose ladder passes is applied. */
  lemma ApplyKeeps(s: Control, session: Session, now: int, content: Hash)
    ensures var r := ClaimNext(s, session, NO_USAGE, now, ITEM_LEASE_SECONDS);
      r.Ok? ==> Apply(s, Claim(session, NO_USAGE, now, ITEM_LEASE_SECONDS)) == r.value
    ensures var r := RecordObserved(s, session, NO_USAGE, now, true); r.Ok? ==> Apply(s, Observe(session, NO_USAGE, now, true)) == r.value
    ensures var r := RecordExtracted(s, session, NO_USAGE, now, true); r.Ok? ==> Apply(s, Extract(session, NO_USAGE, now, true)) == r.value
    ensures var r := RecordCommitted(s, session, NO_USAGE, now, true, content);
      r.Ok? ==> Apply(s, Commit(session, NO_USAGE, now, true, content)) == r.value
  {
    hide ClaimNext, RecordObserved, RecordExtracted, RecordCommitted;
  }

  lemma ExecuteNone(s: Control)
    ensures CoordinatorSafety.Execute(s, []) == s
  {
  }

  lemma ExecuteMore(s: Control, ops: seq<Op>, op: Op)
    ensures CoordinatorSafety.Execute(s, ops + [op]) == Apply(CoordinatorSafety.Execute(s, ops), op)
  {
    assert (ops + [op])[..|ops|] == ops;
    hide Apply;
  }

  /** A run that may open a batch and work in it at `now`. */
  predicate MayWork(s: Control, runId: RunId, now: int) {
    && s.manifest.status == Running && |s.items| <= MAX_CAMPAIGN_ITEMS
    && s.heartbeat.Some? && s.heartbeat.value.runId == runId
    && s.heartbeat.value.heartbeatAt <= now < s.heartbeat.value.freshUntil
    && (forall k | k in s.items :: s.items[k].at <= now)
    && CommittedByRun(s.items, runId) == {}
  }

  lemma OpenedOwns(s: Control, batchId: string, runId: RunId, policy: Policy, clock: int, now: int)
    requires MayWork(s, runId, now) && OpenBatch(s, batchId, runId, policy, clock).Ok?
    requires OpenBatch(s, batchId, runId, policy, clock).value.Opened?
    ensures Ownership(OpenBatch(s, batchId, runId, policy, clock).value.control, batchId, runId, now) == Ok(Ready)
  {
    hide PlanBatch, CommittedByRun;
  }

  lemma ClaimCarries(s: Control, t: Item, order: seq<Key>, run: RunId, now: int)
    requires ActiveBatch(s.batches).Some? && Ownership(s, ActiveBatch(s.batches).value.batchId, run, now) == Ok(Ready)
    requires Admits(s.items, t) && t.key in s.items && |s.items| <= MAX_CAMPAIGN_ITEMS
    requires order != [] && order[0] == t.key && t.status == Claimed && t.runId == Some(run)
    requires t.at == now && t.leaseExpires == Some(now + ITEM_LEASE_SECONDS)
    requires Progress(Put(s, t).items, order, run, 0) && InFlightKeys(Put(s, t).items) == {order[0]}
    ensures Carrying(Put(s, t), run, t.key, Claimed, now)
    ensures Claims(Put(s, t).items) == {t} && !LeaseStale(t, now)
    ensures Put(s, t).items[t.key] == t
  {
    var items := Put(s, t).items;
    assert CommittedByRun(items, run) == KeySet(order[..0]) == {};
    forall k | k in items && items[k].status == Claimed
      ensures k == t.key
    {
      assert k in InFlightKeys(items);
    }
    hide Progress, Ascending, InFlightKeys, CommittedByRun, KeySet;
  }

  /** The first item of a freshly opened batch is committed by the four calls. */
  lemma FirstItemCommits(s: Control, batchId: string, runId: RunId, policy: Policy, clock: int, now: int, content: Hash)
    returns (next: Control)
    requires Safe(s) && MayWork(s, runId, now)
    requires OpenBatch(s, batchId, runId, policy, clock).Ok? && OpenBatch(s, batchId, runId, policy, clock).value.Opened?
    ensures var opening := OpenBatch(s, batchId, runId, policy, clock).value;
      && next == CoordinatorSafety.Execute(opening.control, FirstItem(opening.session, now, content))
      && Honest(opening.session, EligibleOrder(s.items), runId) && opening.session.policy == policy
      && opening.session.batchId == batchId
      && Ownership(next, batchId, runId, now) == Ok(Ready) && InFlightKeys(next.items) == {}
      && Progress(next.items, EligibleOrder(s.items), runId, 1)
  {
    var opening := OpenBatch(s, batchId, runId, policy, clock).value;
    var s0, session, order := opening.control, opening.session, EligibleOrder(s.items);
    hide MayWork, Safe, Honest, Progress, Ownership, OpenBatch, PlanBatch, EligibleOrder, FirstItem, Worked;
    WorkParts(s, runId, now);
    OpenedOwns(s, batchId, runId, policy, clock, now);
    OpeningUnfolds(s, batchId, runId, policy, clock);
    OpeningIsHonest(s, batchId, runId, policy, clock);
    assert s0.items == s.items && session.plan == PlanBatch(s.items, policy, NO_USAGE);
    hide *;
    SafeIdle(s);
    HonestHead(session, order, runId);
    FirstContinuation(s0, session, now);
    var m := Least(EligibleItems(s.items));
    LeastIsItem(s.items);
    FirstClaim(s0, session, now, m);
    var t := ClaimOf(m, runId, now, ITEM_LEASE_SECONDS);
    ClaimLeaf(m, runId, now);
    FirstClaimProgress(s0, t, order, runId, now);
    ClaimCarries(s0, t, order, runId, now);
    var s1 := Put(s0, t);
    PutAside(s0, t);
    HeadsOf(s1, session, runId, t.key);
    var s2, s3 := HeadWorks(s1, session, runId, t.key, now, content);
    HeadProgress(s1, order, runId, now, content);
    next := Worked(s1, runId, t.key, now, content);
    WorkedOwns(s0, s1, runId, t.key, now, content, batchId);
    FirstItemUnfolds(s0, session, now, content, s1, s2, s3, next);
  }

  lemma SafeIdle(s: Control)
    requires Safe(s) && ActiveBatch(s.batches).None?
    ensures InFlightKeys(s.items) == {}
  {
    IdleWithoutBatch(s);
  }

  lemma HonestHead(session: Session, order: seq<Key>, run: RunId)
    requires Honest(session, order, run)
    ensures order != [] && session.plan.keys != [] && session.plan.keys[0] == order[0] && session.runId == run
  {
  }

  lemma WorkParts(s: Control, runId: RunId, now: int)
    requires MayWork(s, runId, now)
    ensures |s.items| <= MAX_CAMPAIGN_ITEMS && CommittedByRun(s.items, runId) == {}
    ensures forall i | i in EligibleItems(s.items) :: i.at <= now
  {
    hide CommittedByRun;
  }

  lemma ClaimLeaf(m: Item, run: RunId, now: int)
    ensures var t := ClaimOf(m, run, now, ITEM_LEASE_SECONDS);
      && t.key == m.key && t.status == Claimed && t.runId == Some(run) && t.at == now
      && t.leaseExpires == Some(now + ITEM_LEASE_SECONDS)
  {
  }

  lemma PutAside(s: Control, t: Item)
    requires Admits(s.items, t)
    ensures Put(s, t).batches == s.batches && Put(s, t).heartbeat == s.heartbeat && Put(s, t).manifest == s.manifest
    ensures t.key in Put(s, t).items && Put(s, t).items[t.key] == t
  {
  }

  lemma HeadsOf(s: Control, session: Session, run: RunId, key: Key)
    requires ActiveBatch(s.batches).Some? && session.batchId == ActiveBatch(s.batches).value.batchId && session.runId == run
    requires session.plan.keys != [] && session.plan.keys[0] == key
    ensures Heads(s, session, run, key)
  {
  }

  lemma WorkedOwns(s0: Control, s1: Control, run: RunId, key: Key, now: int, content: Hash, batchId: string)
    requires s1.batches == s0.batches && s1.heartbeat == s0.heartbeat && s1.manifest == s0.manifest
    requires Ownership(s0, batchId, run, now) == Ok(Ready) && key in s1.items && s1.items[key].status == Claimed
    ensures Ownership(Worked(s1, run, key, now, content), batchId, run, now) == Ok(Ready)
  {
  }

  /**
    Any run that opens a batch over more eligible items than its item limit admits,
    with a limit above one, commits its first item and is then stuck below its limits.
  */
  lemma CutBatchSticks(s: Control, batchId: string, runId: RunId, policy: Policy, clock: int, now: int, content: Hash,
                       usage: Usage, lease: int)
    requires Safe(s) && MayWork(s, runId, now)
    requires OpenBatch(s, batchId, runId, policy, clock).Ok? && OpenBatch(s, batchId, runId, policy, clock).value.Opened?
    requires 1 < policy.maxItems < |EligibleItems(s.items)|
    requires usage.itemsCompleted == 1 && StopOf(policy, usage).None? && 0 < lease <= MAX_ITEM_LEASE_SECONDS
    ensures var opening := OpenBatch(s, batchId, runId, policy, clock).value;
      var next := CoordinatorSafety.Execute(opening.control, FirstItem(opening.session, now, content));
      && CommittedByRun(next.items, runId) == {opening.session.plan.keys[0]}
      && ClaimNext(next, opening.session, usage, now, lease) == Err(Blocked(PlanDrift))
      && FinishBatch(next, opening.session, usage, now) == Err(Blocked(PlanDrift))
  {
    hide *;
    var next := FirstItemCommits(s, batchId, runId, policy, clock, now, content);
    var session, order := OpenBatch(s, batchId, runId, policy, clock).value.session, EligibleOrder(s.items);
    OrderLength(s.items);
    HonestCut(session, order, runId);
    CommittedOne(next.items, order, runId);
    RestsAt(next, session, usage, now);
    DriftBlocks(next, session, usage, now, lease, order, 1);
  }

  lemma OrderLength(items: Items)
    ensures |EligibleOrder(items)| == |EligibleItems(items)|
  {
  }

  lemma HonestCut(session: Session, order: seq<Key>, run: RunId)
    requires Honest(session, order, run) && 1 < session.policy.maxItems < |order|
    ensures session.runId == run && 1 < |session.plan.keys| && session.plan.keys[0] == order[0]
  {
  }

  lemma CommittedOne(items: Items, order: seq<Key>, run: RunId)
    requires Progress(items, order, run, 1)
    ensures order != [] && CommittedByRun(items, run) == {order[0]}
  {
    assert KeySet(order[..1]) == {order[0]};
  }

  lemma RestsAt(s: Control, session: Session, usage: Usage, now: int)
    requires Ownership(s, session.batchId, session.runId, now) == Ok(Ready) && InFlightKeys(s.items) == {}
    requires usage.itemsCompleted == 1
    ensures AtRest(s, session, usage, now, 1)
  {
  }

  // ---------- three items, two at a time ----------

  const THREE: seq<Key> := ["a", "b", "c"]
  const TWO_AT_A_TIME: Policy := DEFAULT_POLICY.(maxItems := 2)

  lemma ThreeDistinct()
    ensures Distinct(THREE) && THREE != []
  {
    assert "a"[0] == 'a' && "b"[0] == 'b' && "c"[0] == 'c';
  }

  /** A prepared campaign of three items whose run holds a fresh heartbeat. */
  function ThreeItems(): Control {
    ThreeDistinct();
    ApplicationRuntime.PreparedRecord(Spec("kind", "policy", "schema"), THREE, 0).(heartbeat := Some(LeasedHeartbeat("run", 0)))
  }

  lemma ThreeMayWork()
    ensures Safe(ThreeItems()) && MayWork(ThreeItems(), "run", 1)
    ensures EligibleOrder(ThreeItems().items) == THREE && |EligibleItems(ThreeItems().items)| == 3
    ensures ThreeItems().batches == []
  {
    ThreeDistinct();
    PreparedWorks(Spec("kind", "policy", "schema"), THREE, 0, "run", 1);
  }

  /** The run that takes the heartbeat of a prepared campaign may work at once. */
  lemma PreparedWorks(spec: Spec, keys: seq<Key>, at: int, run: RunId, now: int)
    requires Distinct(keys) && |keys| <= MAX_CAMPAIGN_ITEMS && at <= now < at + ITEM_LEASE_SECONDS
    ensures var s := ApplicationRuntime.PreparedRecord(spec, keys, at).(heartbeat := Some(LeasedHeartbeat(run, at)));
      Safe(s) && MayWork(s, run, now) && EligibleOrder(s.items) == keys && |EligibleItems(s.items)| == |keys|
      && s.batches == []
  {
    hide *;
    var p := ApplicationRuntime.PreparedRecord(spec, keys, at);
    PreparedFresh(spec, keys, at, now);
    ApplicationRuntime.PreparedSafe(spec, keys, at);
    SafeBeside(p, Some(LeasedHeartbeat(run, at)));
    ApplicationRuntime.PreparedOrder(keys, at, p.items);
    OrderIs(p.items);
    OrderLength(p.items);
    BeatMayWork(p, run, at, now);
  }

  lemma OrderIs(items: Items)
    ensures EligibleOrder(items) == Keys(Sorted(EligibleItems(items)))
  {
  }

  lemma PreparedFresh(spec: Spec, keys: seq<Key>, at: int, now: int)
    requires Distinct(keys) && at <= now
    ensures var p := ApplicationRuntime.PreparedRecord(spec, keys, at);
      && p.items == ApplicationRuntime.PreparedItems(keys, at) && |p.items| == |keys|
      && p.manifest.status == Running && p.batches == []
      && forall k | k in p.items :: p.items[k].at <= now && p.items[k].status == Discovered
  {
    ApplicationRuntime.PreparedCount(keys, at);
    var p := ApplicationRuntime.PreparedRecord(spec, keys, at);
    forall k | k in p.items
      ensures p.items[k].at <= now && p.items[k].status == Discovered
    {
      var i := ApplicationRuntime.PreparedItem(keys, at, k);
    }
    hide ApplicationRuntime.PreparedItems, ApplicationRuntime.NewItems;
  }

  lemma BeatMayWork(p: Control, run: RunId, at: int, now: int)
    requires p.manifest.status == Running && |p.items| <= MAX_CAMPAIGN_ITEMS && at <= now < at + ITEM_LEASE_SECONDS
    requires forall k | k in p.items :: p.items[k].at <= now && p.items[k].status == Discovered
    ensures MayWork(p.(heartbeat := Some(LeasedHeartbeat(run, at))), run, now)
  {
    assert forall k | k in p.items :: !CommittedBy(p.items, k, run);
  }

  lemma SafeBeside(s: Control, h: Option<Heartbeat>)
    requires Safe(s)
    ensures Safe(s.(heartbeat := h))
  {
    hide FoldItems, BatchesAccepted;
  }

  /** A concrete batch that sticks: three items planned two at a time, stuck after the first commit. */
  lemma ThreeItemsStick(content: Hash, usage: Usage)
    requires usage == NO_USAGE.(itemsCompleted := 1)
    ensures OpenBatch(ThreeItems(), "batch", "run", TWO_AT_A_TIME, 0).Ok?
    ensures OpenBatch(ThreeItems(), "batch", "run", TWO_AT_A_TIME, 0).value.Opened?
    ensures var opening := OpenBatch(ThreeItems(), "batch", "run", TWO_AT_A_TIME, 0).value;
      var next := CoordinatorSafety.Execute(opening.control, FirstItem(opening.session, 1, content));
      && opening.session.plan.keys == ["a", "b"] && CommittedByRun(next.items, "run") == {"a"}
      && ClaimNext(next, opening.session, usage, 1, ITEM_LEASE_SECONDS) == Err(Blocked(PlanDrift))
      && FinishBatch(next, opening.session, usage, 1) == Err(Blocked(PlanDrift))
  {
    ThreeMayWork();
    BelowLimits(usage);
    ThreeOpens();
    hide *;
    CutBatchSticks(ThreeItems(), "batch", "run", TWO_AT_A_TIME, 0, 1, content, usage, ITEM_LEASE_SECONDS);
  }

  lemma BelowLimits(usage: Usage)
    requires usage == NO_USAGE.(itemsCompleted := 1)
    ensures StopOf(TWO_AT_A_TIME, usage).None? && usage.itemsCompleted == 1
    ensures TWO_AT_A_TIME.maxItems == 2 && 0 < ITEM_LEASE_SECONDS <= MAX_ITEM_LEASE_SECONDS
  {
  }

  lemma ThreeOpens()
    ensures var r := OpenBatch(ThreeItems(), "batch", "run", TWO_AT_A_TIME, 0);
      r.Ok? && r.value.Opened? && r.value.session.plan.keys == ["a", "b"]
  {
    ThreeMayWork();
    hide ThreeItems, EligibleItems, PlanBatch, EligibleOrder, Safe;
    var items := ThreeItems().items;
    SomethingPlanned(items, TWO_AT_A_TIME);
    OpenedPlan(items, TWO_AT_A_TIME, NO_USAGE);
    assert Take(THREE, 2) == ["a", "b"];
  }
}
