/** Pure bounded batch selection (batching.py). */
module Batching {
  import opened Wrappers
  import opened Campaign

  datatype PolicyLimits = PolicyLimits(
    maxItems: int, maxElapsedSeconds: int, maxProviderTurns: int, maxToolCalls: int, maxInputTokens: int,
    maxOutputTokens: int, maxScreenshots: int, maxOcrRegions: int, maxConsecutiveFailures: int)

  predicate AllPositive(p: PolicyLimits) {
    && p.maxItems > 0 && p.maxElapsedSeconds > 0 && p.maxProviderTurns > 0 && p.maxToolCalls > 0
    && p.maxInputTokens > 0 && p.maxOutputTokens > 0 && p.maxScreenshots > 0 && p.maxOcrRegions > 0
    && p.maxConsecutiveFailures > 0
  }

  type Policy = p: PolicyLimits | AllPositive(p) witness PolicyLimits(20, 20 * 60, 12, 32, 100_000, 25_000, 40, 40, 3)

  const DEFAULT_POLICY: Policy := PolicyLimits(20, 20 * 60, 12, 32, 100_000, 25_000, 40, 40, 3)

  datatype Check = Check(used: int, maximum: int, reason: StopReason)

  function Checks(p: Policy, u: Usage): seq<Check> {
    [ Check(u.itemsCompleted, p.maxItems, ItemLimit),
      Check(u.elapsedSeconds, p.maxElapsedSeconds, WallTimeLimit),
      Check(u.providerTurns, p.maxProviderTurns, ProviderTurnLimit),
      Check(u.toolCalls, p.maxToolCalls, ToolCallLimit),
      Check(u.inputTokens, p.maxInputTokens, InputTokenLimit),
      Check(u.outputTokens, p.maxOutputTokens, OutputTokenLimit),
      Check(u.screenshots, p.maxScreenshots, ScreenshotLimit),
      Check(u.ocrRegions, p.maxOcrRegions, OcrRegionLimit),
      Check(u.consecutiveFailures, p.maxConsecutiveFailures, ConsecutiveFailureLimit) ]
  }

  function FirstReached(checks: seq<Check>): (r: Option<StopReason>)
    ensures r.None? <==> forall i | 0 <= i < |checks| :: checks[i].used < checks[i].maximum
    ensures r.Some? ==> exists i | 0 <= i < |checks| ::
              && checks[i].reason == r.value && checks[i].used >= checks[i].maximum
              && forall j | 0 <= j < i :: checks[j].used < checks[j].maximum
  {
    if checks == [] then None
    else if checks[0].used >= checks[0].maximum then Some(checks[0].reason)
    else
      var rest := FirstReached(checks[1..]);
      assert forall i | 0 < i < |checks| :: checks[i] == checks[1..][i - 1];
      rest
  }

  /** `batch_stop_reason`: the first reached limit of the fixed order. */
  function StopOf(p: Policy, u: Usage): Option<StopReason> {
    FirstReached(Checks(p, u))
  }

  datatype Plan = Plan(keys: seq<Key>, stop: Option<StopReason>)

  function Take<T>(q: seq<T>, n: int): seq<T>
    requires n >= 0
  {
    if n < |q| then q[..n] else q
  }

  /** `plan_batch`. */
  function PlanBatch(items: Items, p: Policy, u: Usage): Plan {
    var reason := StopOf(p, u);
    if reason.Some? then Plan([], reason)
    else
      var keys := Keys(Take(Sorted(EligibleItems(items)), p.maxItems));
      Plan(keys, if keys == [] then Some(NoEligibleItems) else None)
  }

  // ---------- facts about sorting ----------

  predicate IsSorted(q: seq<Item>) {
    forall i, j | 0 <= i < j < |q| :: Before(q[i], q[j])
  }

  lemma {:induction false} SortedIsSorted(s: set<Item>)
    requires DistinctKeys(s)
    ensures IsSorted(Sorted(s))
    decreases |s|
  {
    if s != {} {
      var m := Least(s);
      SortedIsSorted(s - {m});
      var rest := Sorted(s - {m});
      assert Sorted(s) == [m] + rest;
      forall x | x in rest
        ensures Before(m, x)
      {
        assert x in s - {m};
      }
      hide Sorted, Before, Least;
      ConsSorted(m, rest);
    }
  }

  lemma ConsSorted(m: Item, rest: seq<Item>)
    requires IsSorted(rest) && forall x | x in rest :: Before(m, x)
    ensures IsSorted([m] + rest)
  {
    hide Before;
    var q := [m] + rest;
    forall i, j | 0 <= i < j < |q|
      ensures Before(q[i], q[j])
    {
      assert q[j] == rest[j - 1] && q[j] in rest;
      assert i > 0 ==> q[i] == rest[i - 1];
    }
  }

  /** Sorting does not depend on any order of the input: it is the only sorted listing of the set. */
  lemma {:induction false} SortedUnique(s: set<Item>, q: seq<Item>)
    requires DistinctKeys(s) && IsSorted(q) && forall x :: x in q <==> x in s
    ensures q == Sorted(s)
    decreases |s|
  {
    if q == [] {
      assert s == {};
    } else {
      assert q[0] in q;
      assert IsLeast(q[0], s);
      LeastUnique(s, q[0], Least(s));
      var rest := s - {q[0]};
      forall y
        ensures y in q[1..] <==> y in rest
      {
        if y in q[1..] {
          var i :| 1 <= i < |q| && q[i] == y;
          BeforeTotal(q[0], q[i]);
        }
        if y in rest {
          assert y in q;
        }
      }
      SortedUnique(rest, q[1..]);
    }
  }

  /** Where a planned key stands in the sorted list of eligible items. */
  lemma PlannedAt(items: Items, p: Policy, u: Usage, k: Key) returns (i: nat)
    requires StopOf(p, u).None? && k in PlanBatch(items, p, u).keys
    ensures i < |Take(Sorted(EligibleItems(items)), p.maxItems)|
    ensures Sorted(EligibleItems(items))[i].key == k && k in items && items[k] == Sorted(EligibleItems(items))[i] && Eligible(items[k])
  {
    hide StopOf;
    var all := Sorted(EligibleItems(items));
    i :| 0 <= i < |Take(all, p.maxItems)| && Keys(Take(all, p.maxItems))[i] == k;
    assert all[i] in all;
  }

  /** An eligible item that is not planned stands behind every planned one. */
  lemma UnplannedAt(items: Items, p: Policy, u: Usage, l: Key) returns (j: nat)
    requires StopOf(p, u).None? && l in items && Eligible(items[l]) && l !in PlanBatch(items, p, u).keys
    ensures |Take(Sorted(EligibleItems(items)), p.maxItems)| <= j < |Sorted(EligibleItems(items))|
    ensures Sorted(EligibleItems(items))[j] == items[l]
  {
    hide StopOf;
    var all := Sorted(EligibleItems(items));
    assert items[l] in EligibleItems(items) && items[l] in all;
    j :| 0 <= j < |all| && all[j] == items[l];
    var keys := Keys(Take(all, p.maxItems));
    assert forall i | 0 <= i < |keys| :: keys[i] in keys && keys[i] == all[i].key;
  }

  /**
    `plan_batch` selects the `maxItems` least eligible items, in order: every
    planned item precedes every eligible item left out.
  */
  lemma PlanIsLeast(items: Items, p: Policy, u: Usage)
    requires StopOf(p, u).None?
    ensures var plan, all := PlanBatch(items, p, u), Sorted(EligibleItems(items));
      && plan.keys == Keys(Take(all, p.maxItems)) && IsSorted(all)
      && |plan.keys| == (if |EligibleItems(items)| < p.maxItems then |EligibleItems(items)| else p.maxItems)
      && (plan.stop.None? <==> EligibleItems(items) != {})
      && (forall k | k in plan.keys :: k in items && Eligible(items[k]))
      && (forall k, l | k in plan.keys && l in items && Eligible(items[l]) && l !in plan.keys ::
            k in items && Before(items[k], items[l]))
  {
    SortedIsSorted(EligibleItems(items));
    hide Sorted, EligibleItems, StopOf, Before;
    forall k | k in PlanBatch(items, p, u).keys
      ensures k in items && Eligible(items[k])
    {
      var i := PlannedAt(items, p, u, k);
    }
    forall k, l | k in PlanBatch(items, p, u).keys && l in items && Eligible(items[l]) && l !in PlanBatch(items, p, u).keys
      ensures k in items && Before(items[k], items[l])
    {
      var i := PlannedAt(items, p, u, k);
      var j := UnplannedAt(items, p, u, l);
    }
  }
}
