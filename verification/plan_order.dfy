/**
  The items a run commits are always exactly the first planned keys, in plan order.
  Unlike the theorems about a single active batch this one holds over a whole
  campaign: new items may appear, items may be challenged, other runs may work.
*/
module PlanOrder {
  import opened Wrappers
  import opened Campaign
  import opened Batching
  import opened BatchCoordinator
  import opened CoordinatorSafety

  ghost predicate Follows(items: Items, plan: seq<Key>, run: RunId) {
    var k := PrefixLength(items, plan, run);
    && CommittedByRun(items, run) == KeySet(plan[..k])
    && (forall x | x in InFlightKeys(items) && items[x].runId == Some(run) :: k < |plan| && x == plan[k])
  }

  /** Sessions that speak for the run carry its plan. */
  predicate Speaks(op: Op, plan: seq<Key>, run: RunId) {
    Advances(op) && op.session.runId == run ==> op.session.plan.keys == plan
  }

  /** `n` is the prefix length if it bounds a committed prefix. */
  lemma PrefixIs(items: Items, plan: seq<Key>, run: RunId, n: nat)
    requires Distinct(plan) && n <= |plan| && CommittedByRun(items, run) == KeySet(plan[..n])
    ensures PrefixLength(items, plan, run) == n
  {
    assert n < |plan| ==> plan[n] !in plan[..n];
    assert n < |plan| ==> plan[n] !in CommittedByRun(items, run);
    PrefixCommitted(items, plan, run, n);
  }

  lemma PrefixCommitted(items: Items, plan: seq<Key>, run: RunId, n: nat)
    requires n <= |plan| && KeySet(plan[..n]) <= CommittedByRun(items, run)
    ensures PrefixLength(items, plan, run) >= n
  {
    forall i | 0 <= i < n
      ensures CommittedBy(items, plan[i], run)
    {
      assert plan[..n][i] in KeySet(plan[..n]);
    }
  }

  lemma StartsEmpty(items: Items, plan: seq<Key>, run: RunId)
    requires Distinct(plan) && CommittedByRun(items, run) == {}
    requires forall x | x in InFlightKeys(items) :: items[x].runId != Some(run)
    ensures Follows(items, plan, run) && PrefixLength(items, plan, run) == 0
  {
    PrefixIs(items, plan, run, 0);
  }

  lemma CommitFollows(s: Control, next: Control, t: Item, plan: seq<Key>, run: RunId)
    requires Distinct(plan) && Follows(s.items, plan, run)
    requires HasEffect(s, next, OneItem(t)) && Permitted(s, OneItem(t))
    requires t.status == Committed && t.runId == Some(run)
    requires PrefixLength(s.items, plan, run) < |plan| && t.key == plan[PrefixLength(s.items, plan, run)]
    ensures Follows(next.items, plan, run) && PrefixLength(next.items, plan, run) == PrefixLength(s.items, plan, run) + 1
  {
    var k := PrefixLength(s.items, plan, run);
    assert plan[..k + 1] == plan[..k] + [t.key];
    assert CommittedByRun(next.items, run) == CommittedByRun(s.items, run) + {t.key};
    assert forall x | x in InFlightKeys(next.items) :: x in InFlightKeys(s.items) && x != t.key && next.items[x] == s.items[x];
    hide CommittedByRun, PrefixLength, InFlightKeys, Distinct;
    PrefixIs(next.items, plan, run, k + 1);
  }

  lemma OtherFollows(s: Control, next: Control, t: Item, plan: seq<Key>, run: RunId)
    requires Distinct(plan) && Follows(s.items, plan, run)
    requires HasEffect(s, next, OneItem(t)) && Permitted(s, OneItem(t))
    requires t.runId == Some(run) && Advancing(OneItem(t)) ==>
               && t.status != Committed
               && PrefixLength(s.items, plan, run) < |plan| && t.key == plan[PrefixLength(s.items, plan, run)]
    ensures Follows(next.items, plan, run) && PrefixLength(next.items, plan, run) == PrefixLength(s.items, plan, run)
  {
    var k := PrefixLength(s.items, plan, run);
    assert CommittedByRun(next.items, run) == CommittedByRun(s.items, run) by {
      assert t.key in s.items ==> s.items[t.key].status != Committed;
    }
    PrefixIs(next.items, plan, run, k);
    assert forall x | x in InFlightKeys(next.items) && x != t.key :: x in InFlightKeys(s.items);
  }

  lemma StepFollows(s: Control, op: Op, plan: seq<Key>, run: RunId)
    requires Distinct(plan) && Follows(s.items, plan, run) && Speaks(op, plan, run)
    ensures Follows(Apply(s, op).items, plan, run)
    ensures PrefixLength(s.items, plan, run) <= PrefixLength(Apply(s, op).items, plan, run) <= PrefixLength(s.items, plan, run) + 1
  {
    var e := ApplyEffect(s, op);
    if e.OneItem? {
      if Advancing(e) && e.t.runId == Some(run) {
        assert NextPlanned(s.items, op.session) == Some(e.t.key);
      }
      if e.t.status == Committed && e.t.runId == Some(run) {
        CommitFollows(s, Apply(s, op), e.t, plan, run);
      } else {
        OtherFollows(s, Apply(s, op), e.t, plan, run);
      }
    }
  }

  /** Over any run of operations by any number of runs, the commits of one run are a prefix of its plan. */
  lemma {:induction false} ExecuteFollows(s: Control, ops: seq<Op>, plan: seq<Key>, run: RunId)
    requires Distinct(plan) && Follows(s.items, plan, run)
    requires forall i | 0 <= i < |ops| :: Speaks(ops[i], plan, run)
    ensures Follows(Execute(s, ops).items, plan, run)
    ensures PrefixLength(s.items, plan, run) <= PrefixLength(Execute(s, ops).items, plan, run)
    decreases |ops|
  {
    if ops != [] {
      ExecuteFollows(s, ops[..|ops| - 1], plan, run);
      StepFollows(Execute(s, ops[..|ops| - 1]), ops[|ops| - 1], plan, run);
    }
  }
}
