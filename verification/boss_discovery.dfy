/**
  Which discoveries a BOSS start accepts: of all histories of passes and crashes that
  its other checks admit, exactly those in which no crash has persisted an item.
*/
module BossDiscovery {
  import opened Wrappers
  import opened Campaign
  import opened Batching
  import opened BatchCoordinator
  import opened CoordinatorSafety
  import opened BatchProgress
  import opened ApplicationCampaign
  import opened ApplicationRounds
  import opened BossCampaign
  import opened BossSessions
  import opened BossRounds
  import opened BossTheorem
  import D = Discovery
  import R = DiscoveryRuns

  // ---------- what discovery leaves alone ----------

  /** Everything but the two ledgers discovery writes. */
  predicate SameOtherwise(s: Control, next: Control) {
    next == s.(items := next.items, history := next.history, passes := next.passes)
  }

  lemma {:induction false} AppendsAside(s: Control, keys: seq<Key>, first: int, at: int)
    requires first > 0
    ensures D.AppendAll(s, keys, first, at).Ok? ==> SameOtherwise(s, D.AppendAll(s, keys, first, at).value)
    decreases |keys|
  {
    if keys != [] {
      AppendsAside(s, keys[..|keys| - 1], first, at);
      hide Admits;
    }
  }

  lemma StepAside(s: Control, c: D.Contract, e: R.Event)
    ensures SameOtherwise(s, R.Step(s, c, e))
  {
    hide D.RecordGuards, D.AppendAll, D.MaxOrdinal, D.PassesAccepted;
    var guards := D.RecordGuards(s, c, e.x, e.at);
    if guards.Ok? {
      AppendsAside(s, guards.value, 1 + D.MaxOrdinal(s.items), e.at);
      if e.Crash? && e.count < |guards.value| {
        AppendsAside(s, guards.value[..e.count], 1 + D.MaxOrdinal(s.items), e.at);
      }
    }
  }

  lemma {:induction false} PlayAside(s: Control, c: D.Contract, events: seq<R.Event>)
    ensures SameOtherwise(s, R.Play(s, c, events))
    decreases |events|
  {
    hide R.Step;
    if events != [] {
      var n := |events| - 1;
      PlayAside(s, c, events[..n]);
      StepAside(R.Play(s, c, events[..n]), c, events[n]);
    }
  }

  // ---------- the ledger in ordinal order ----------

  lemma ListedIsSorted(s: Control)
    requires R.Listed(s)
    ensures Sorted(AllItems(s.items)) == s.history
    ensures forall k | k in s.items :: s.items[k].status == Discovered
  {
    hide FoldItems, Sorted;
    var q := s.history;
    forall x
      ensures x in q <==> x in AllItems(s.items)
    {
      if x in q {
        ListedItem(s, x);
      }
    }
    SortedUnique(AllItems(s.items), q);
  }

  /** Every record of the ledger is the current state of its item. */
  lemma ListedItem(s: Control, x: Item)
    requires R.Listed(s) && x in s.history
    ensures x in AllItems(s.items)
  {
    hide FoldItems;
    var i :| 0 <= i < |s.history| && s.history[i] == x;
    OrdinalsCover(s, i + 1);
    var k :| k in s.items && s.items[k].ordinal == i + 1;
    assert s.items[k] == x;
  }

  /** As many items as records, under distinct ordinals within 1..n: every ordinal is taken. */
  lemma OrdinalsCover(s: Control, o: int)
    requires R.Listed(s) && 1 <= o <= |s.history|
    ensures exists k :: k in s.items && s.items[k].ordinal == o
  {
    hide FoldItems;
    OrdinalCount(s.items);
    assert Ordinals(s.items) <= Upto(|s.history|);
    SubsetFull(Ordinals(s.items), Upto(|s.history|));
    assert o in Ordinals(s.items);
  }

  /** The ordinals 1..n. */
  function Upto(n: nat): (r: set<int>)
    ensures |r| == n && forall i :: i in r <==> 1 <= i <= n
  {
    if n == 0 then {} else Upto(n - 1) + {n}
  }

  lemma SubsetFull<T>(a: set<T>, b: set<T>)
    requires a <= b && |a| == |b|
    ensures a == b
  {
    assert |b - a| == |b| - |a|;
  }

  lemma OrdinalCount(items: Items)
    ensures |Ordinals(items)| == |items|
  {
    KeyedByOrdinal(items, items.Keys);
    assert Ordinals(items) == set k | k in items.Keys :: items[k].ordinal;
    assert |items| == |items.Keys|;
  }

  lemma {:induction false} KeyedByOrdinal(items: Items, keys: set<Key>)
    requires keys <= items.Keys
    ensures |set k | k in keys :: items[k].ordinal| == |keys|
    decreases |keys|
  {
    var ordinals := set k | k in keys :: items[k].ordinal;
    if keys == {} {
      assert ordinals == {};
    } else {
      var x :| x in keys;
      KeyedByOrdinal(items, keys - {x});
      var rest := set k | k in keys - {x} :: items[k].ordinal;
      assert ordinals == rest + {items[x].ordinal};
      assert items[x].ordinal !in rest;
    }
  }

  /** A discovered campaign is one from which the safety theorem starts. */
  lemma DiscoveredSafe(c: D.Contract, m: Manifest, events: seq<R.Event>)
    ensures Safe(R.Play(Empty(m), c, events))
  {
    var s := R.Play(Empty(m), c, events);
    R.DiscoveryFromScratch(c, m, events);
    PlayAside(Empty(m), c, events);
    hide R.Play, Safe, FoldItems;
    UnstartedSafe(s);
  }

  // ---------- the exact condition ----------

  /** What a start demands of a discovery besides complete counts. */
  predicate Presentable(s: Control, c: D.Contract, now: int) {
    && ContractMatches(s.manifest, c) && s.manifest.status == Running && s.manifest.updatedAt <= now
    && |s.passes| >= MIN_DISCOVERY_PASSES && s.passes[|s.passes| - 1].at <= now
    && s.items != map[]
    && (forall k | k in s.items :: s.items[k].at <= now && KEY_PREFIX <= k)
  }

  lemma StartAcceptedUnfolds(s: Control, c: D.Contract, now: int)
    requires Presentable(s, c, now) && D.TotalNew(s.passes) <= |s.items|
    requires s.batches == [] && s.heartbeat.None? && s.handoff.None?
    requires forall i | 0 <= i < |Sorted(AllItems(s.items))| :: Sorted(AllItems(s.items))[i].ordinal == i + 1
    requires forall k | k in s.items :: s.items[k].status == Discovered
    ensures StartAccepted(s, c, now) <==> D.TotalNew(s.passes) == |s.items|
  {
    hide Sorted, D.TotalNew;
  }

  /** A start is accepted if and only if no crash of the discovery has persisted an item. */
  lemma StartIffUninterrupted(c: D.Contract, m: Manifest, events: seq<R.Event>, now: int)
    requires Presentable(R.Play(Empty(m), c, events), c, now)
    ensures StartAccepted(R.Play(Empty(m), c, events), c, now) <==> R.AllPersisted(Empty(m), c, events) == 0
  {
    hide *;
    var s := R.Play(Empty(m), c, events);
    R.DiscoveryFromScratch(c, m, events);
    TidyFacts(s);
    PlayAside(Empty(m), c, events);
    AsideFacts(m, s);
    ListedIsSorted(s);
    ListedOrdinals(s);
    StartAcceptedUnfolds(s, c, now);
  }

  lemma TidyFacts(s: Control)
    requires R.Tidy(s)
    ensures R.Listed(s) && D.TotalNew(s.passes) <= |s.items|
  {
  }

  lemma ListedOrdinals(s: Control)
    requires R.Listed(s)
    ensures forall i | 0 <= i < |s.history| :: s.history[i].ordinal == i + 1
  {
    hide FoldItems;
  }

  lemma AsideFacts(m: Manifest, s: Control)
    requires SameOtherwise(Empty(m), s)
    ensures s.manifest == m && s.batches == [] && s.heartbeat.None? && s.handoff.None?
  {
  }

  // ---------- two concrete histories ----------

  /** Any crash that comes after its first append persists an item. */
  lemma CrashPersists(m: Manifest, c: D.Contract, x: D.Snapshot, at: int, count: nat)
    requires D.RecordGuards(Empty(m), c, x, at).Ok? && count > 0
    ensures R.AllPersisted(Empty(m), c, [R.Crash(x, at, count)]) > 0
  {
    var e := R.Crash(x, at, count);
    assert [e][..0] == [];
    assert x.keys[0] in x.keys && x.keys[0] !in Empty(m).items;
    assert x.keys[0] in D.RecordGuards(Empty(m), c, x, at).value;
    hide D.RecordGuards, R.Step;
    assert R.Play(Empty(m), c, []) == Empty(m) && R.AllPersisted(Empty(m), c, []) == 0;
    assert R.Persisted(Empty(m), c, e) > 0;
  }

  const CONTRACT := D.Contract("kind", "policy", "schema", false)
  const MANIFEST := Manifest("kind", "policy", "schema", 0, Running)

  function OneJob(digest: Hash): D.Snapshot {
    D.SnapshotData(["boss:job:a"], digest)
  }

  lemma OneJobAccepted()
    ensures D.RecordGuards(Empty(MANIFEST), CONTRACT, OneJob("d"), 0) == Ok(["boss:job:a"])
  {
    var s, key := Empty(MANIFEST), "boss:job:a";
    assert OneJob("d").keys == [key] && [key][1..] == [];
    assert D.NewKeys(s.items, []) == [];
    assert D.NewKeys(s.items, [key]) == [key] + D.NewKeys(s.items, []) == [key];
    assert D.TotalNew(s.passes) == 0 && |s.items| == 0 && D.DiscoveryOnly(s, CONTRACT, 0);
    assert D.Inspect(s, CONTRACT, 0) == Ok(D.Preflight(0, 0, None));
  }

  /** One crashed observation of one job, and no batch can ever be started, whatever is observed later. */
  lemma OneCrashBlocks(later: seq<R.Event>, policy: Policy, run: RunId, now: int, clock: int)
    ensures var s := R.Play(R.Play(Empty(MANIFEST), CONTRACT, [R.Crash(OneJob("d"), 0, 1)]), CONTRACT, later);
      StartBoss(s, CONTRACT, policy, run, now, clock) == Attempt(s, Err(StateInvalid))
  {
    OneJobAccepted();
    hide *;
    CrashPersists(MANIFEST, CONTRACT, OneJob("d"), 0, 1);
    InterruptedDiscoveryBlocksStart(CONTRACT, MANIFEST, [R.Crash(OneJob("d"), 0, 1)], later, policy, run, now, clock);
  }

  /** The ledger with that one job. */
  function OneJobItems(): Items {
    map["boss:job:a" := NewItem(1, "boss:job:a", 0)]
  }

  function OneJobSeen(): Control {
    Control(MANIFEST, OneJobItems(), [NewItem(1, "boss:job:a", 0)], [], [DiscoveryPass(0, "d", 1, 1)], None, None)
  }

  function OneJobSeenTwice(): Control {
    OneJobSeen().(passes := [DiscoveryPass(0, "d", 1, 1), DiscoveryPass(1, "e", 1, 0)])
  }

  lemma FirstSight()
    ensures D.Record(Empty(MANIFEST), CONTRACT, OneJob("d"), 0) == Ok(OneJobSeen())
  {
    OneJobAccepted();
    hide D.RecordGuards;
    var s, t := Empty(MANIFEST), NewItem(1, "boss:job:a", 0);
    assert ["boss:job:a"][..0] == [];
    assert D.AppendAll(s, [], 1, 0) == Ok(s);
    assert Admits(s.items, t) && Admit(s.items, t) == OneJobItems() && |OneJobItems()| == 1;
    assert D.AppendAll(s, ["boss:job:a"], 1, 0) == Append(s, t);
    assert D.MaxOrdinal(s.items) == 0 && OneJob("d").keys == ["boss:job:a"];
    var s1 := s.(items := OneJobItems(), history := [t]);
    assert s.history + [t] == [t] && Append(s, t) == Ok(s1);
    assert s1.passes + [DiscoveryPass(0, "d", 1, 1)] == [DiscoveryPass(0, "d", 1, 1)];
    assert D.AppendPass(s1, DiscoveryPass(0, "d", 1, 1)) == Ok(OneJobSeen());
  }

  lemma SecondSight()
    ensures D.Record(OneJobSeen(), CONTRACT, OneJob("e"), 1) == Ok(OneJobSeenTwice())
  {
    var s := OneJobSeen();
    assert "boss:job:a" in s.items;
    assert ["boss:job:a"][1..] == [] && D.NewKeys(s.items, []) == [];
    assert D.NewKeys(s.items, ["boss:job:a"]) == [];
    assert s.passes[..0] == [] && D.TotalNew(s.passes) == 1;
    assert "d"[0] == 'd' && "e"[0] == 'e';
    assert D.RecordGuards(s, CONTRACT, OneJob("e"), 1) == Ok([]);
    hide D.RecordGuards;
    assert D.AppendAll(s, [], 1 + D.MaxOrdinal(s.items), 1) == Ok(s);
    assert s.passes + [DiscoveryPass(1, "e", 1, 0)] == OneJobSeenTwice().passes;
  }

  const TWO_SIGHTS := [R.Pass(OneJob("d"), 0), R.Pass(OneJob("e"), 1)]

  lemma TwoSights()
    ensures R.Play(Empty(MANIFEST), CONTRACT, TWO_SIGHTS) == OneJobSeenTwice()
  {
    FirstSight();
    SecondSight();
    var events := TWO_SIGHTS;
    assert events[..1][..0] == [] && events[..1] == [events[0]];
    hide D.Record, OneJobSeenTwice, OneJobSeen;
    assert R.Play(Empty(MANIFEST), CONTRACT, []) == Empty(MANIFEST);
    assert R.Play(Empty(MANIFEST), CONTRACT, events[..1]) == OneJobSeen();
  }

  /** One job seen twice can be started; its one round commits it, and leaves the campaign stranded for good. */
  lemma OneJobStrands(calls: seq<Call>, call: Call)
    ensures var s := R.Play(Empty(MANIFEST), CONTRACT, TWO_SIGHTS);
      var a := RunBoss(s, CONTRACT, "run", 1, 1, [BossRound(1, 1, BossSeen("content", 0, 0, 1, 0), "next", 1)]);
      && StartAccepted(s, CONTRACT, 1) && |s.items| == 1
      && a.result == Err(ResumeEvidenceInvalid) && Stranded(a.control) && IncompleteItems(a.control.items) == {}
      && ServeAll(a.control, CONTRACT, calls) == a.control && Refused(a.control, CONTRACT, call)
  {
    var s := R.Play(Empty(MANIFEST), CONTRACT, TWO_SIGHTS);
    var rounds := [BossRound(1, 1, BossSeen("content", 0, 0, 1, 0), "next", 1)];
    TwoSights();
    SeenPresentable();
    OneRoundTimely(rounds);
    hide *;
    StartIffUninterrupted(CONTRACT, MANIFEST, TWO_SIGHTS, 1);
    R.DiscoveryFromScratch(CONTRACT, MANIFEST, TWO_SIGHTS);
    BossCampaignStrands(s, CONTRACT, "run", 1, 1, rounds, calls, call);
    ReachesStranded(s, EligibleOrder(s.items), RunBoss(s, CONTRACT, "run", 1, 1, rounds));
  }

  lemma SeenPresentable()
    ensures var s := OneJobSeenTwice();
      Presentable(s, CONTRACT, 1) && |s.items| == 1 && D.TotalNew(s.passes) == 1 && |s.items| <= MAX_CAMPAIGN_ITEMS
  {
    var s := OneJobSeenTwice();
    assert s.passes[..1] == [DiscoveryPass(0, "d", 1, 1)] && s.passes[..1][..0] == [];
    assert KEY_PREFIX <= "boss:job:a" && "boss:job:a" in s.items;
    assert |s.items.Keys| == 1;
  }

  lemma OneRoundTimely(rounds: seq<BossRound>)
    requires rounds == [BossRound(1, 1, BossSeen("content", 0, 0, 1, 0), "next", 1)]
    ensures BossTimely({"run"}, 1, rounds)
  {
    assert "run"[0] == 'r' && "next"[0] == 'n';
    assert rounds[1..] == [];
  }

  lemma ReachesStranded(s: Control, order: seq<Key>, a: Attempt<Item>)
    requires Reaches(s, order, a, |order|)
    ensures a.result == Err(ResumeEvidenceInvalid) && Stranded(a.control) && IncompleteItems(a.control.items) == {}
  {
  }
}
