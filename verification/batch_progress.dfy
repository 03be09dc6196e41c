/**
  The life of one batch.  While it is active, under any interleaving of operations
  that neither add items nor challenge one, the items of the plan are worked on
  strictly in order, and the outcome of every preflight is determined by how many
  were committed.
*/
module BatchProgress {
  import opened Wrappers
  import opened Campaign
  import opened Batching
  import opened BatchCoordinator
  import opened CoordinatorSafety

  // ---------- the invariant of an active batch ----------

  /** The keys are items in strictly increasing (ordinal, key) order. */
  predicate Ascending(items: Items, order: seq<Key>) {
    && (forall i | 0 <= i < |order| :: order[i] in items)
    && (forall i, j | 0 <= i < j < |order| :: Before(items[order[i]], items[order[j]]))
  }

  function EligibleKeys(items: Items): set<Key> {
    set k | k in items && Eligible(items[k])
  }

  /**
    `order` lists the items that were eligible when the batch opened: the first `k`
    are what its run has committed, the rest is still to do, and only `order[k]`
    may be in flight, for that run.
  */
  ghost predicate Progress(items: Items, order: seq<Key>, run: RunId, k: nat) {
    && k <= |order|
    && Ascending(items, order)
    && CommittedByRun(items, run) == KeySet(order[..k])
    && EligibleKeys(items) + InFlightKeys(items) == KeySet(order[k..])
    && (forall x | x in InFlightKeys(items) :: k < |order| && x == order[k] && items[x].runId == Some(run))
  }

  lemma AscendingDistinct(items: Items, order: seq<Key>, i: nat, j: nat)
    requires Ascending(items, order) && i < |order| && j < |order| && order[i] == order[j]
    ensures i == j
  {
    BeforeTotal(items[order[i]], items[order[i]]);
  }

  function Lookup(items: Items, keys: seq<Key>): (q: seq<Item>)
    requires forall i | 0 <= i < |keys| :: keys[i] in items
    ensures |q| == |keys| && forall i | 0 <= i < |keys| :: q[i] == items[keys[i]]
  {
    seq(|keys|, i requires 0 <= i < |keys| => items[keys[i]])
  }

  /** What is left of the order are the eligible items. */
  lemma RemainingKeys(items: Items, order: seq<Key>, run: RunId, k: nat)
    requires Progress(items, order, run, k) && InFlightKeys(items) == {}
    ensures k <= |order| && EligibleKeys(items) == KeySet(order[k..]) && Ascending(items, order[k..])
  {
    hide Before, CommittedByRun, InFlightKeys;
  }

  lemma ListsEligible(items: Items, rest: seq<Key>, x: Item)
    requires EligibleKeys(items) == KeySet(rest) && forall i | 0 <= i < |rest| :: rest[i] in items
    ensures x in Lookup(items, rest) <==> x in EligibleItems(items)
  {
    var q := Lookup(items, rest);
    if x in q {
      var i :| 0 <= i < |q| && q[i] == x;
      assert rest[i] in KeySet(rest) && rest[i] in EligibleKeys(items);
    }
    if x in EligibleItems(items) {
      assert x.key in EligibleKeys(items) && x.key in KeySet(rest);
      var i :| 0 <= i < |rest| && rest[i] == x.key;
      assert q[i] == x;
    }
  }

  /** Sorting the eligible items yields the remaining keys, in the original order. */
  lemma RemainingSorted(items: Items, order: seq<Key>, run: RunId, k: nat)
    requires Progress(items, order, run, k) && InFlightKeys(items) == {}
    ensures Keys(Sorted(EligibleItems(items))) == order[k..]
  {
    hide Progress, InFlightKeys, EligibleItems, EligibleKeys, KeySet, Sorted, Before;
    RemainingKeys(items, order, run, k);
    var rest := order[k..];
    var q := Lookup(items, rest);
    forall x
      ensures x in q <==> x in EligibleItems(items)
    {
      ListsEligible(items, rest, x);
    }
    SortedUnique(EligibleItems(items), q);
    assert Keys(q) == rest;
  }

  // ---------- opening establishes it ----------

  function EligibleOrder(items: Items): seq<Key> {
    Keys(Sorted(EligibleItems(items)))
  }

  lemma SortedAscending(items: Items)
    ensures Ascending(items, EligibleOrder(items))
  {
    var q, order := Sorted(EligibleItems(items)), EligibleOrder(items);
    SortedIsSorted(EligibleItems(items));
    forall i | 0 <= i < |order|
      ensures order[i] in items && items[order[i]] == q[i]
    {
      assert q[i] in q;
    }
  }

  lemma EligibleOrderKeys(items: Items)
    ensures KeySet(EligibleOrder(items)) == EligibleKeys(items)
  {
    var q, order := Sorted(EligibleItems(items)), EligibleOrder(items);
    forall x
      ensures x in KeySet(order) <==> x in EligibleKeys(items)
    {
      if x in order {
        var i :| 0 <= i < |order| && order[i] == x;
        assert q[i] in q && q[i].key == x;
      }
      if x in EligibleKeys(items) {
        assert items[x] in EligibleItems(items) && items[x] in q;
        var i :| 0 <= i < |q| && q[i] == items[x];
        assert order[i] == x;
      }
    }
  }

  /** A run that has committed nothing, opening with nothing in flight, starts at zero. */
  lemma OpeningStarts(items: Items, run: RunId)
    requires CommittedByRun(items, run) == {} && InFlightKeys(items) == {}
    ensures Progress(items, EligibleOrder(items), run, 0)
  {
    SortedAscending(items);
    EligibleOrderKeys(items);
    assert EligibleOrder(items)[0..] == EligibleOrder(items);
  }

  /** The plan of an opened batch is the head of that order, cut at the item limit. */
  lemma OpenedPlan(items: Items, policy: Policy, usage: Usage)
    requires PlanBatch(items, policy, usage).stop.None?
    ensures PlanBatch(items, policy, usage).keys == Take(EligibleOrder(items), policy.maxItems)
  {
  }

  // ---------- every step keeps it ----------

  /** The least eligible item is the next of the order. */
  lemma ClaimIsNext(items: Items, order: seq<Key>, run: RunId, k: nat)
    requires Progress(items, order, run, k) && InFlightKeys(items) == {} && EligibleItems(items) != {}
    ensures k < |order| && Least(EligibleItems(items)).key == order[k]
  {
    RemainingSorted(items, order, run, k);
    assert Sorted(EligibleItems(items))[0] == Least(EligibleItems(items));
    assert Keys(Sorted(EligibleItems(items)))[0] == order[k..][0];
  }

  /** A change of one item that is not committed by the run moves keys between "eligible" and "in flight" at most. */
  lemma OneItemChanges(items: Items, next: Items, t: Item, run: RunId)
    requires t.key in items && next == items[t.key := t]
    requires Eligible(items[t.key]) || InFlight(items[t.key])
    requires Eligible(t) || InFlight(t)
    ensures EligibleKeys(next) + InFlightKeys(next) == EligibleKeys(items) + InFlightKeys(items)
    ensures CommittedByRun(next, run) == CommittedByRun(items, run)
    ensures InFlightKeys(next) == if InFlight(t) then InFlightKeys(items) + {t.key} else InFlightKeys(items) - {t.key}
  {
  }

  lemma SameOrder(items: Items, next: Items, t: Item, order: seq<Key>)
    requires Ascending(items, order) && t.key in items && next == items[t.key := t] && t.ordinal == items[t.key].ordinal
    ensures Ascending(next, order)
  {
  }

  lemma ClaimKeeps(s: Control, next: Control, t: Item, order: seq<Key>, run: RunId, k: nat)
    requires Progress(s.items, order, run, k)
    requires HasEffect(s, next, OneItem(t)) && Permitted(s, OneItem(t)) && t.status == Claimed
    requires ActiveBatch(s.batches).Some? && ActiveBatch(s.batches).value.runId == run
    requires k < |order| && t.key == order[k]
    ensures Progress(next.items, order, run, k)
  {
    assert t.key in KeySet(order[k..]) by {
      assert order[k..][0] == t.key;
    }
    assert t.key in EligibleKeys(s.items);
    OneItemChanges(s.items, next.items, t, run);
    SameOrder(s.items, next.items, t, order);
    hide Ascending, EligibleKeys, CommittedByRun, InFlightKeys, EligibleItems, Least;
  }

  lemma AdvanceKeeps(s: Control, next: Control, t: Item, order: seq<Key>, run: RunId, k: nat)
    requires Progress(s.items, order, run, k)
    requires HasEffect(s, next, OneItem(t)) && Permitted(s, OneItem(t)) && t.status in {Observed, Extracted, Retryable}
    ensures k < |order| && t.key == order[k] && Progress(next.items, order, run, k)
  {
    assert t.key in InFlightKeys(s.items);
    OneItemChanges(s.items, next.items, t, run);
    SameOrder(s.items, next.items, t, order);
    hide Ascending, EligibleKeys, CommittedByRun, InFlightKeys, EligibleItems, Least;
  }

  lemma OneItemCommits(items: Items, next: Items, t: Item, run: RunId)
    requires t.key in items && next == items[t.key := t] && InFlight(items[t.key])
    requires t.status == Committed && t.runId == Some(run)
    ensures EligibleKeys(next) + InFlightKeys(next) == EligibleKeys(items) + InFlightKeys(items) - {t.key}
    ensures CommittedByRun(next, run) == CommittedByRun(items, run) + {t.key}
    ensures InFlightKeys(next) == InFlightKeys(items) - {t.key}
  {
  }

  lemma NextTail(items: Items, order: seq<Key>, k: nat)
    requires Ascending(items, order) && k < |order|
    ensures KeySet(order[..k + 1]) == KeySet(order[..k]) + {order[k]}
    ensures KeySet(order[k + 1..]) == KeySet(order[k..]) - {order[k]}
  {
    assert order[..k + 1] == order[..k] + [order[k]];
    assert order[k..] == [order[k]] + order[k + 1..];
    forall i | k + 1 <= i < |order|
      ensures order[i] != order[k]
    {
      if order[i] == order[k] {
        AscendingDistinct(items, order, i, k);
      }
    }
    hide Ascending;
  }

  lemma CommitKeeps(s: Control, next: Control, t: Item, order: seq<Key>, run: RunId, k: nat)
    requires Progress(s.items, order, run, k)
    requires HasEffect(s, next, OneItem(t)) && Permitted(s, OneItem(t)) && t.status == Committed
    ensures k < |order| && t.key == order[k] && Progress(next.items, order, run, k + 1)
  {
    assert t.key in InFlightKeys(s.items);
    OneItemCommits(s.items, next.items, t, run);
    SameOrder(s.items, next.items, t, order);
    NextTail(s.items, order, k);
    hide Ascending, EligibleKeys, CommittedByRun, InFlightKeys, EligibleItems, Least, KeySet;
  }

  /** One step of any session: the item it touches is `order[k]`, and only a commit moves `k`, by one. */
  lemma StepKeepsProgress(s: Control, next: Control, e: Effect, order: seq<Key>, run: RunId, k: nat) returns (k': nat)
    requires Progress(s.items, order, run, k)
    requires HasEffect(s, next, e) && Permitted(s, e) && WithinPlan(e)
    requires ActiveBatch(s.batches).Some? && ActiveBatch(s.batches).value.runId == run
    ensures Progress(next.items, order, run, k')
    ensures e.OneItem? ==> k < |order| && e.t.key == order[k]
    ensures k' == if e.OneItem? && e.t.status == Committed then k + 1 else k
  {
    k' := k;
    match e
    case OneItem(t) =>
      match t.status {
        case Claimed =>
          ClaimIsNext(s.items, order, run, k);
          ClaimKeeps(s, next, t, order, run, k);
        case Committed =>
          CommitKeeps(s, next, t, order, run, k);
          k' := k + 1;
        case _ => AdvanceKeeps(s, next, t, order, run, k);
      }
    case _ =>
  }

  lemma BatchesGrow(s: Control, ops: seq<Op>)
    ensures |s.batches| <= |Execute(s, ops).batches|
    ensures s.batches <= Execute(s, ops).batches
    decreases |ops|
  {
    if ops != [] {
      BatchesGrow(s, ops[..|ops| - 1]);
      var e := ApplyEffect(Execute(s, ops[..|ops| - 1]), ops[|ops| - 1]);
    }
  }

  /**
    From the opening of a batch until it finishes, whatever any session attempts:
    its run has committed exactly the first `k'` keys of the order, nothing else.
  */
  lemma {:induction false} ActiveBatchProgress(s: Control, ops: seq<Op>, order: seq<Key>, run: RunId, k: nat) returns (k': nat)
    requires Progress(s.items, order, run, k)
    requires ActiveBatch(s.batches).Some? && ActiveBatch(s.batches).value.runId == run
    requires forall i | 0 <= i < |ops| :: Ordinary(ops[i])
    requires Execute(s, ops).batches == s.batches
    ensures k <= k' && Progress(Execute(s, ops).items, order, run, k')
    decreases |ops|
  {
    k' := k;
    if ops != [] {
      var front, op := ops[..|ops| - 1], ops[|ops| - 1];
      var m := Execute(s, front);
      var e := ApplyEffect(m, op);
      BatchesGrow(s, front);
      assert m.batches == s.batches;
      k' := ActiveBatchProgress(s, front, order, run, k);
      k' := StepKeepsProgress(m, Execute(s, ops), e, order, run, k');
    }
  }
}
