/** The work on the first item of a plan, whatever else the plan holds. */
module HeadItem {
  import opened Wrappers
  import opened Campaign
  import opened Batching
  import opened BatchCoordinator
  import opened CoordinatorSafety
  import opened BatchProgress
  import opened ApplicationCampaign
  import opened ApplicationRounds

  lemma ClaimInFlight(items: Items, t: Item)
    requires InFlightKeys(items) == {} && t.key in items && t.status == Claimed && Admits(items, t)
    ensures InFlightKeys(Admit(items, t)) == {t.key}
  {
    forall k | k in items
      ensures !InFlight(items[k])
    {
      assert k !in InFlightKeys(items);
    }
  }

  /** After the first claim of a fresh run, the claimed item is the head of the order and the only one in flight. */
  lemma FirstClaimProgress(s: Control, t: Item, order: seq<Key>, run: RunId, now: int)
    requires Progress(s.items, order, run, 0) && InFlightKeys(s.items) == {} && EligibleItems(s.items) != {}
    requires ActiveBatch(s.batches).Some? && ActiveBatch(s.batches).value.runId == run
    requires t == ClaimOf(Least(EligibleItems(s.items)), run, now, ITEM_LEASE_SECONDS) && Admits(s.items, t)
    ensures order != [] && order[0] == t.key && t.status == Claimed
    ensures Progress(Put(s, t).items, order, run, 0) && InFlightKeys(Put(s, t).items) == {order[0]}
  {
    hide Progress, InFlightKeys, EligibleItems, Least, Admits;
    LeastIsItem(s.items);
    ClaimIsNext(s.items, order, run, 0);
    ClaimKeeps(s, Put(s, t), t, order, run, 0);
    ClaimInFlight(s.items, t);
  }

  /** The session of the run that owns the active batch, with `key` first in its plan. */
  predicate Heads(s: Control, session: Session, run: RunId, key: Key) {
    && ActiveBatch(s.batches).Some? && session.batchId == ActiveBatch(s.batches).value.batchId && session.runId == run
    && session.plan.keys != [] && session.plan.keys[0] == key
  }

  /** While the run has committed nothing, the rest of the plan plays no part. */
  lemma HeadAlone(s: Control, session: Session, run: RunId, key: Key, now: int, content: Hash)
    requires Heads(s, session, run, key) && CommittedByRun(s.items, run) == {}
    ensures RecordObserved(s, session, NO_USAGE, now, true) == RecordObserved(s, WorkSession(s, run, key), NO_USAGE, now, true)
    ensures RecordExtracted(s, session, NO_USAGE, now, true) == RecordExtracted(s, WorkSession(s, run, key), NO_USAGE, now, true)
    ensures RecordCommitted(s, session, NO_USAGE, now, true, content) ==
            RecordCommitted(s, WorkSession(s, run, key), NO_USAGE, now, true, content)
  {
    HeadIsNext(s, session, run, key);
    HeadIsNext(s, WorkSession(s, run, key), run, key);
    hide NextItem, CommittedByRun, InspectClaimed, InspectProgressed, Append;
    SameOwner(s, session, WorkSession(s, run, key), key, now);
  }

  lemma HeadIsNext(s: Control, session: Session, run: RunId, key: Key)
    requires Heads(s, session, run, key) && CommittedByRun(s.items, run) == {}
    ensures NextItem(s, session, NO_USAGE) == Ok(key)
  {
    assert key in CommittedByRun(s.items, run) <==> CommittedBy(s.items, key, run);
    assert PrefixLength(s.items, session.plan.keys, run) == 0;
  }

  lemma SameOwner(s: Control, a: Session, b: Session, key: Key, now: int)
    requires a.batchId == b.batchId && a.runId == b.runId
    ensures InspectClaimed(s, a, key, now) == InspectClaimed(s, b, key, now)
    ensures forall status :: InspectProgressed(s, a, key, status, now) == InspectProgressed(s, b, key, status, now)
  {
  }

  /** Observing, extracting and committing the head succeeds, and commits it alone. */
  lemma HeadWorks(s: Control, session: Session, run: RunId, key: Key, now: int, content: Hash) returns (s1: Control, s2: Control)
    requires Carrying(s, run, key, Claimed, now) && Heads(s, session, run, key)
    requires Claims(s.items) == {s.items[key]} && !LeaseStale(s.items[key], now)
    ensures RecordObserved(s, session, NO_USAGE, now, true) == Ok(s1)
    ensures RecordExtracted(s1, session, NO_USAGE, now, true) == Ok(s2)
    ensures RecordCommitted(s2, session, NO_USAGE, now, true, content) == Ok(Worked(s, run, key, now, content))
    ensures CommittedByRun(Worked(s, run, key, now, content).items, run) == {key}
    ensures InFlightKeys(Worked(s, run, key, now, content).items) == {}
  {
    CarryingParts(s, run, key, Claimed, now);
    hide Carrying, RecordObserved, RecordExtracted, RecordCommitted, LeaseStale, Claims, CommittedByRun, InFlightKeys;
    HeadAlone(s, session, run, key, now, content);
    var t1 := ObserveWorks(s, run, key, now);
    s1 := Put(s, t1);
    CarryingParts(s1, run, key, Observed, now);
    HeadAlone(s1, session, run, key, now, content);
    var t2 := ExtractWorks(s1, run, key, now);
    s2 := Put(s1, t2);
    CarryingParts(s2, run, key, Extracted, now);
    HeadAlone(s2, session, run, key, now, content);
    var t3 := CommitWorks(s2, run, key, now, content);
    ThreePuts(s, t1, t2, t3);
  }

  lemma CarryingParts(s: Control, run: RunId, key: Key, status: ItemStatus, now: int)
    requires Carrying(s, run, key, status, now)
    ensures CommittedByRun(s.items, run) == {} && key in s.items && s.items[key].status == status
  {
  }

  /** Which moves the batch on by exactly one item of its order. */
  lemma HeadProgress(s: Control, order: seq<Key>, run: RunId, now: int, content: Hash)
    requires Progress(s.items, order, run, 0) && order != [] && InFlightKeys(s.items) == {order[0]}
    requires order[0] in s.items && s.items[order[0]].status == Claimed
    ensures Progress(Worked(s, run, order[0], now, content).items, order, run, 1)
    ensures InFlightKeys(Worked(s, run, order[0], now, content).items) == {}
  {
    var next := Worked(s, run, order[0], now, content).items;
    var t := next[order[0]];
    assert next == s.items[t.key := t];
    OneItemCommits(s.items, next, t, run);
    SameOrder(s.items, next, t, order);
    NextTail(s.items, order, 0);
    hide Ascending, EligibleKeys, CommittedByRun, InFlightKeys, KeySet;
  }
}
