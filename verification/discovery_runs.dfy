/**
  Whole discovery histories with crashes: what every reachable state keeps, that
  replaying an interrupted snapshot converges, and what the deficit between items
  and counted items means.
*/
module DiscoveryRuns {
  import opened Wrappers
  import opened Campaign
  import opened CampaignStores
  import opened Discovery

  // ---------- the invariant of the ledger ----------

  /** The ledger lists its items once each, with ordinals 1..n in append order. */
  ghost predicate Listed(s: Control) {
    && FoldItems(s.history) == Ok(s.items)
    && |s.items| == |s.history|
    && (forall i | 0 <= i < |s.history| :: s.history[i].status == Discovered && s.history[i].ordinal == i + 1)
    && (forall k | k in s.items ::
          0 < s.items[k].ordinal <= |s.history| && s.history[s.items[k].ordinal - 1] == s.items[k])
  }

  lemma ListedMax(s: Control)
    requires Listed(s)
    ensures MaxOrdinal(s.items) == |s.history|
  {
    if s.history != [] {
      LastListed(s.history, s.items);
    }
  }

  /** The last appended item is in the projection. */
  lemma LastListed(history: seq<Item>, items: Items)
    requires history != [] && FoldItems(history) == Ok(items)
    ensures history[|history| - 1].key in items && items[history[|history| - 1].key] == history[|history| - 1]
  {
  }

  lemma NewAdmitted(s: Control, key: Key, at: int)
    requires Listed(s) && key !in s.items
    ensures Admits(s.items, NewItem(|s.history| + 1, key, at))
  {
    assert !OrdinalTaken(s.items, |s.history| + 1);
    hide FoldItems;
  }

  lemma FoldPlus(s: Control, t: Item)
    requires Listed(s) && Admits(s.items, t) && t.key !in s.items
    ensures FoldItems(s.history + [t]) == Ok(Admit(s.items, t)) && |Admit(s.items, t)| == |s.history + [t]|
  {
    FoldAppend(s.history, t);
    hide FoldItems, Admits;
  }

  lemma HistoryPlus(s: Control, t: Item, i: nat)
    requires Listed(s) && t.status == Discovered && t.ordinal == |s.history| + 1 && i <= |s.history|
    ensures (s.history + [t])[i].status == Discovered && (s.history + [t])[i].ordinal == i + 1
  {
    hide FoldItems;
  }

  lemma ItemsPlus(s: Control, t: Item, k: Key)
    requires Listed(s) && t.ordinal == |s.history| + 1 && k in s.items[t.key := t]
    ensures var i := s.items[t.key := t][k].ordinal;
      0 < i <= |s.history| + 1 && (s.history + [t])[i - 1] == s.items[t.key := t][k]
  {
    hide FoldItems;
  }

  lemma ListedPlus(s: Control, t: Item)
    requires Listed(s) && t.key !in s.items && t.status == Discovered && t.ordinal == |s.history| + 1 && Admits(s.items, t)
    ensures Listed(s.(items := Admit(s.items, t), history := s.history + [t]))
  {
    FoldPlus(s, t);
    forall i | 0 <= i < |s.history + [t]|
      ensures (s.history + [t])[i].status == Discovered && (s.history + [t])[i].ordinal == i + 1
    {
      HistoryPlus(s, t, i);
    }
    var next := s.items[t.key := t];
    forall k | k in next
      ensures var i := next[k].ordinal;
        0 < i <= |s.history| + 1 && (s.history + [t])[i - 1] == next[k]
    {
      ItemsPlus(s, t, k);
    }
    hide FoldItems, Admits;
  }

  /** Appending a new key with the next ordinal is always accepted below the limit. */
  lemma ListedAppend(s: Control, key: Key, at: int)
    requires Listed(s) && key !in s.items && |s.items| < MAX_CAMPAIGN_ITEMS
    ensures var t := NewItem(|s.history| + 1, key, at);
      var next := Append(s, t);
      && next == Ok(s.(items := s.items[key := t], history := s.history + [t]))
      && Listed(next.value)
  {
    hide Listed, Admits;
    NewAdmitted(s, key, at);
    ListedPlus(s, NewItem(|s.history| + 1, key, at));
  }

  predicate NewAndDistinct(items: Items, keys: seq<Key>) {
    && (forall i | 0 <= i < |keys| :: keys[i] !in items)
    && (forall i, j | 0 <= i < j < |keys| :: keys[i] != keys[j])
  }

  /** `next` is `s` with these keys appended as new items, in this order. */
  ghost predicate Extends(s: Control, next: Control, keys: seq<Key>, at: int) {
    && Listed(next)
    && next == s.(items := next.items, history := next.history)
    && |next.history| == |s.history| + |keys|
    && (forall k | k in next.items :: k in s.items || k in keys)
    && (forall k | k in s.items :: k in next.items && next.items[k] == s.items[k])
    && (forall i | 0 <= i < |keys| ::
          keys[i] in next.items && next.items[keys[i]] == NewItem(|s.history| + 1 + i, keys[i], at))
  }

  lemma ExtendsOne(s: Control, before: Control, keys: seq<Key>, key: Key, at: int, t: Item)
    requires Extends(s, before, keys, at) && key !in before.items
    requires t == NewItem(|before.history| + 1, key, at)
    requires var next := before.(items := before.items[key := t], history := before.history + [t]); Listed(next)
    ensures Extends(s, before.(items := before.items[key := t], history := before.history + [t]), keys + [key], at)
  {
    hide Listed;
  }

  lemma NotYet(s: Control, before: Control, keys: seq<Key>, at: int, key: Key)
    requires Extends(s, before, keys, at) && key !in s.items && key !in keys
    ensures key !in before.items
  {
  }

  lemma HeadIsNew(items: Items, keys: seq<Key>, n: nat)
    requires NewAndDistinct(items, keys) && n < |keys|
    ensures NewAndDistinct(items, keys[..n]) && keys[n] !in items && keys[n] !in keys[..n]
    ensures keys[..n] + [keys[n]] == keys[..n + 1]
  {
  }

  lemma AppendAllUnfolds(s: Control, keys: seq<Key>, first: int, at: int, n: nat, before: Control)
    requires first > 0 && n < |keys| && AppendAll(s, keys[..n], first, at) == Ok(before)
    ensures AppendAll(s, keys[..n + 1], first, at) == Append(before, NewItem(first + n, keys[n], at))
  {
    hide Append;
    var longer := keys[..n + 1];
    assert longer[..n] == keys[..n] && longer[n] == keys[n] && |longer| - 1 == n;
  }

  /** Appending new keys with the next ordinals is always accepted below the limit. */
  lemma {:induction false} AppendAllWorks(s: Control, keys: seq<Key>, n: nat, at: int) returns (next: Control)
    requires Listed(s) && NewAndDistinct(s.items, keys) && n <= |keys| && |s.items| + n <= MAX_CAMPAIGN_ITEMS
    ensures AppendAll(s, keys[..n], |s.history| + 1, at) == Ok(next) && Extends(s, next, keys[..n], at)
    decreases n
  {
    hide *;
    if n == 0 {
      next := s;
      AppendNone(s, at);
      assert keys[..0] == [];
    } else {
      var m := n - 1;
      var before := AppendAllWorks(s, keys, m, at);
      HeadIsNew(s.items, keys, m);
      NotYet(s, before, keys[..m], at, keys[m]);
      ListedCount(s, before, keys[..m], at);
      ListedParts(s, before, keys[..m], at);
      ListedAppend(before, keys[m], at);
      AppendAllUnfolds(s, keys, |s.history| + 1, at, m, before);
      var t := NewItem(|before.history| + 1, keys[m], at);
      ExtendsOne(s, before, keys[..m], keys[m], at, t);
      next := before.(items := before.items[keys[m] := t], history := before.history + [t]);
    }
  }

  lemma AppendNone(s: Control, at: int)
    requires Listed(s)
    ensures AppendAll(s, [], |s.history| + 1, at) == Ok(s) && Extends(s, s, [], at)
  {
  }

  lemma ListedParts(s: Control, next: Control, keys: seq<Key>, at: int)
    requires Extends(s, next, keys, at)
    ensures Listed(next) && |next.history| == |s.history| + |keys|
  {
  }

  lemma ListedCount(s: Control, next: Control, keys: seq<Key>, at: int)
    requires Listed(s) && Extends(s, next, keys, at)
    ensures |next.items| == |next.history| == |s.items| + |keys|
  {
  }

  // ---------- one recording, whole or interrupted ----------

  function Upto<T>(q: seq<T>, n: nat): (r: seq<T>)
    ensures |r| == if n < |q| then n else |q|
  {
    if n < |q| then q[..n] else q
  }

  lemma {:induction false} NewKeysDistinct(items: Items, keys: seq<Key>)
    requires forall i, j | 0 <= i < j < |keys| :: keys[i] != keys[j]
    ensures NewAndDistinct(items, NewKeys(items, keys))
  {
    if keys != [] {
      NewKeysDistinct(items, keys[1..]);
      assert keys[0] !in keys[1..];
    }
  }

  /** What the guards of a recording promise about the new keys. */
  lemma GuardedKeys(s: Control, c: Contract, x: Snapshot, at: int)
    requires RecordGuards(s, c, x, at).Ok?
    ensures var added := RecordGuards(s, c, x, at).value;
      && added == NewKeys(s.items, x.keys) && NewAndDistinct(s.items, added)
      && |added| <= |x.keys| && |s.items| + |added| <= MAX_DISCOVERED_ITEMS
      && TotalNew(s.passes) <= |s.items| && |s.passes| < MAX_DISCOVERY_PASSES
      && (s.passes != [] ==> s.passes[|s.passes| - 1].sourceDigest != x.digest && s.passes[|s.passes| - 1].at <= at)
      && DiscoveryOnly(s, c, at)
  {
    NewKeysDistinct(s.items, x.keys);
    hide DiscoveryOnly, NewAndDistinct, NewKeys;
  }

  lemma GuardedNew(s: Control, c: Contract, x: Snapshot, at: int)
    requires RecordGuards(s, c, x, at).Ok?
    ensures var added := RecordGuards(s, c, x, at).value;
      NewAndDistinct(s.items, added) && |s.items| + |added| <= MAX_CAMPAIGN_ITEMS
  {
    NewKeysDistinct(s.items, x.keys);
    hide DiscoveryOnly, NewAndDistinct, NewKeys;
  }

  lemma InterruptedUnfolds(s: Control, c: Contract, x: Snapshot, at: int, count: nat, added: seq<Key>, next: Control)
    requires RecordGuards(s, c, x, at) == Ok(added)
    requires AppendAll(s, Upto(added, count), 1 + MaxOrdinal(s.items), at) == Ok(next)
    ensures Interrupted(s, c, x, at, count) == next
  {
    hide RecordGuards, AppendAll, MaxOrdinal;
  }

  lemma UptoIs<T>(q: seq<T>, count: nat)
    ensures |Upto(q, count)| <= |q| && Upto(q, count) == q[..|Upto(q, count)|]
  {
  }

  /** A crash after `count` appends leaves exactly the first `count` new keys behind. */
  lemma InterruptedWorks(s: Control, c: Contract, x: Snapshot, at: int, count: nat)
    requires Listed(s) && RecordGuards(s, c, x, at).Ok?
    ensures var added := RecordGuards(s, c, x, at).value;
      Extends(s, Interrupted(s, c, x, at, count), Upto(added, count), at)
  {
    hide *;
    GuardedNew(s, c, x, at);
    ListedMax(s);
    var added := RecordGuards(s, c, x, at).value;
    var n := |Upto(added, count)|;
    UptoIs(added, count);
    var next := AppendAllWorks(s, added, n, at);
    InterruptedUnfolds(s, c, x, at, count, added, next);
  }

  lemma RecordUnfolds(s: Control, c: Contract, x: Snapshot, at: int, added: seq<Key>, mid: Control)
    requires RecordGuards(s, c, x, at) == Ok(added) && |added| <= |x.keys|
    requires AppendAll(s, added, 1 + MaxOrdinal(s.items), at) == Ok(mid)
    requires PassesAccepted(mid.passes + [DiscoveryPass(at, x.digest, |x.keys|, |added|)])
    ensures Record(s, c, x, at) == Ok(mid.(passes := mid.passes + [DiscoveryPass(at, x.digest, |x.keys|, |added|)]))
  {
    hide RecordGuards, AppendAll, MaxOrdinal, PassesAccepted;
  }

  lemma PassAccepted(passes: seq<DiscoveryPass>, p: DiscoveryPass)
    requires PassesAccepted(passes) && |passes| < MAX_DISCOVERY_PASSES
    requires passes != [] ==> passes[|passes| - 1].sourceDigest != p.sourceDigest && passes[|passes| - 1].at <= p.at
    ensures PassesAccepted(passes + [p])
  {
  }

  /** A recording whose guards pass appends every new key and its pass; it never fails half-way. */
  lemma RecordWorks(s: Control, c: Contract, x: Snapshot, at: int) returns (mid: Control)
    requires Listed(s) && PassesAccepted(s.passes) && RecordGuards(s, c, x, at).Ok?
    ensures var added := RecordGuards(s, c, x, at).value;
      && Extends(s, mid, added, at)
      && Record(s, c, x, at) == Ok(mid.(passes := s.passes + [DiscoveryPass(at, x.digest, |x.keys|, |added|)]))
      && PassesAccepted(s.passes + [DiscoveryPass(at, x.digest, |x.keys|, |added|)])
  {
    hide *;
    GuardedKeys(s, c, x, at);
    GuardedNew(s, c, x, at);
    ListedMax(s);
    var added := RecordGuards(s, c, x, at).value;
    assert added[..|added|] == added;
    mid := AppendAllWorks(s, added, |added|, at);
    ExtendsFrame(s, mid, added, at);
    PassAccepted(s.passes, DiscoveryPass(at, x.digest, |x.keys|, |added|));
    RecordUnfolds(s, c, x, at, added, mid);
  }

  lemma ExtendsFrame(s: Control, next: Control, keys: seq<Key>, at: int)
    requires Extends(s, next, keys, at)
    ensures next == s.(items := next.items, history := next.history)
    ensures next.items.Keys == s.items.Keys + KeySet(keys)
  {
  }

  // ---------- whole histories ----------

  datatype Event = Pass(x: Snapshot, at: int) | Crash(x: Snapshot, at: int, count: nat)

  function Step(s: Control, c: Contract, e: Event): Control {
    match e
    case Pass(x, at) => (match Record(s, c, x, at) case Ok(next) => next case Err(_) => s)
    case Crash(x, at, count) => Interrupted(s, c, x, at, count)
  }

  function Play(s: Control, c: Contract, events: seq<Event>): Control
    decreases |events|
  {
    if events == [] then s else Step(Play(s, c, events[..|events| - 1]), c, events[|events| - 1])
  }

  /** What every reachable discovery state keeps. */
  ghost predicate Tidy(s: Control) {
    && Listed(s)
    && |s.items| <= MAX_DISCOVERED_ITEMS && |s.passes| <= MAX_DISCOVERY_PASSES
    && PassesAccepted(s.passes)
    && TotalNew(s.passes) <= |s.items|
  }

  /** The keys an event contributes: the whole snapshot, or the persisted prefix of its new keys. */
  function Contributed(s: Control, c: Contract, e: Event): set<Key> {
    match RecordGuards(s, c, e.x, e.at)
    case Err(_) => {}
    case Ok(added) => if e.Pass? then KeySet(e.x.keys) else KeySet(Upto(added, e.count))
  }

  /** The items an interrupted pass leaves behind. */
  function Persisted(s: Control, c: Contract, e: Event): nat {
    match RecordGuards(s, c, e.x, e.at)
    case Err(_) => 0
    case Ok(added) => if e.Pass? then 0 else |Upto(added, e.count)|
  }

  function Deficit(s: Control): int {
    |s.items| - TotalNew(s.passes)
  }

  lemma TotalNewAppend(passes: seq<DiscoveryPass>, p: DiscoveryPass)
    ensures TotalNew(passes + [p]) == TotalNew(passes) + p.newCount
  {
    assert (passes + [p])[..|passes|] == passes;
  }

  lemma StepUnfolds(s: Control, c: Contract, e: Event)
    ensures e.Crash? ==> Step(s, c, e) == Interrupted(s, c, e.x, e.at, e.count)
    ensures e.Pass? && Record(s, c, e.x, e.at).Ok? ==> Step(s, c, e) == Record(s, c, e.x, e.at).value
    ensures RecordGuards(s, c, e.x, e.at).Ok? ==>
              var added := RecordGuards(s, c, e.x, e.at).value;
              && Contributed(s, c, e) == (if e.Pass? then KeySet(e.x.keys) else KeySet(Upto(added, e.count)))
              && Persisted(s, c, e) == (if e.Pass? then 0 else |Upto(added, e.count)|)
  {
    hide Record, Interrupted, RecordGuards;
  }

  lemma CrashStep(s: Control, c: Contract, e: Event)
    requires Tidy(s) && e.Crash? && RecordGuards(s, c, e.x, e.at).Ok?
    ensures Tidy(Step(s, c, e))
    ensures Step(s, c, e).items.Keys == s.items.Keys + Contributed(s, c, e)
    ensures Deficit(Step(s, c, e)) == Deficit(s) + Persisted(s, c, e)
    ensures Step(s, c, e) == s.(items := Step(s, c, e).items, history := Step(s, c, e).history)
  {
    hide Listed, Extends, RecordGuards, Interrupted, NewAndDistinct, DiscoveryOnly, PassesAccepted, Step, Contributed, Persisted, NewKeys;
    GuardedKeys(s, c, e.x, e.at);
    InterruptedWorks(s, c, e.x, e.at, e.count);
    var added := RecordGuards(s, c, e.x, e.at).value;
    var next := Interrupted(s, c, e.x, e.at, e.count);
    StepUnfolds(s, c, e);
    ExtendsFrame(s, next, Upto(added, e.count), e.at);
    ListedCount(s, next, Upto(added, e.count), e.at);
    ListedParts(s, next, Upto(added, e.count), e.at);
  }

  lemma PassStep(s: Control, c: Contract, e: Event)
    requires Tidy(s) && e.Pass? && RecordGuards(s, c, e.x, e.at).Ok?
    ensures Tidy(Step(s, c, e))
    ensures Step(s, c, e).items.Keys == s.items.Keys + Contributed(s, c, e)
    ensures Deficit(Step(s, c, e)) == Deficit(s)
    ensures |Step(s, c, e).passes| == |s.passes| + 1
  {
    hide Listed, Extends, RecordGuards, Record, NewAndDistinct, DiscoveryOnly, PassesAccepted, NewKeys, Step, Contributed, Persisted;
    GuardedKeys(s, c, e.x, e.at);
    var mid := RecordWorks(s, c, e.x, e.at);
    var added := RecordGuards(s, c, e.x, e.at).value;
    StepUnfolds(s, c, e);
    ExtendsFrame(s, mid, added, e.at);
    ListedCount(s, mid, added, e.at);
    ListedParts(s, mid, added, e.at);
    TotalNewAppend(s.passes, DiscoveryPass(e.at, e.x.digest, |e.x.keys|, |added|));
    NewKeysUnion(s.items, e.x.keys);
    ListedPasses(mid, s.passes + [DiscoveryPass(e.at, e.x.digest, |e.x.keys|, |added|)]);
  }

  lemma NewKeysUnion(items: Items, keys: seq<Key>)
    ensures items.Keys + KeySet(NewKeys(items, keys)) == items.Keys + KeySet(keys)
  {
  }

  lemma ListedPasses(s: Control, passes: seq<DiscoveryPass>)
    requires Listed(s)
    ensures Listed(s.(passes := passes))
  {
  }

  lemma RefusedStep(s: Control, c: Contract, e: Event)
    requires RecordGuards(s, c, e.x, e.at).Err?
    ensures Step(s, c, e) == s && Contributed(s, c, e) == {} && Persisted(s, c, e) == 0
  {
  }

  lemma StepTidy(s: Control, c: Contract, e: Event)
    requires Tidy(s)
    ensures Tidy(Step(s, c, e))
    ensures Step(s, c, e).items.Keys == s.items.Keys + Contributed(s, c, e)
    ensures Deficit(Step(s, c, e)) == Deficit(s) + Persisted(s, c, e)
  {
    hide Tidy, Step, Deficit;
    if RecordGuards(s, c, e.x, e.at).Err? {
      RefusedStep(s, c, e);
    } else if e.Crash? {
      CrashStep(s, c, e);
    } else {
      PassStep(s, c, e);
    }
  }

  function AllContributed(s: Control, c: Contract, events: seq<Event>): set<Key>
    decreases |events|
  {
    if events == [] then {}
    else
      var n := |events| - 1;
      AllContributed(s, c, events[..n]) + Contributed(Play(s, c, events[..n]), c, events[n])
  }

  function AllPersisted(s: Control, c: Contract, events: seq<Event>): nat
    decreases |events|
  {
    if events == [] then 0
    else
      var n := |events| - 1;
      AllPersisted(s, c, events[..n]) + Persisted(Play(s, c, events[..n]), c, events[n])
  }

  /**
    After any sequence of passes and crashes the ledger is tidy, its keys are those
    the accepted snapshots and the interrupted prefixes contributed, and the deficit
    counts exactly the items interrupted passes have persisted.
  */
  lemma {:induction false} PlayTidy(s: Control, c: Contract, events: seq<Event>)
    requires Tidy(s)
    ensures Tidy(Play(s, c, events))
    ensures Play(s, c, events).items.Keys == s.items.Keys + AllContributed(s, c, events)
    ensures Deficit(Play(s, c, events)) == Deficit(s) + AllPersisted(s, c, events)
    decreases |events|
  {
    hide Tidy, Deficit, Step, Contributed, Persisted;
    if events != [] {
      var n := |events| - 1;
      PlayTidy(s, c, events[..n]);
      StepTidy(Play(s, c, events[..n]), c, events[n]);
    }
  }

  /** The deficit never decreases. */
  lemma DeficitGrows(s: Control, c: Contract, events: seq<Event>)
    requires Tidy(s)
    ensures Deficit(s) <= Deficit(Play(s, c, events))
  {
    PlayTidy(s, c, events);
  }

  lemma EmptyTidy(m: Manifest)
    ensures Tidy(Empty(m)) && Deficit(Empty(m)) == 0 && Empty(m).items.Keys == {}
  {
  }

  /**
    From an empty campaign: distinct keys under ordinals 1..n, every bound kept, and
    the counts of items and passes agree if and only if no crash has persisted an item.
  */
  lemma DiscoveryFromScratch(c: Contract, m: Manifest, events: seq<Event>)
    ensures var s := Play(Empty(m), c, events);
      && Tidy(s)
      && s.items.Keys == AllContributed(Empty(m), c, events)
      && |s.items| - TotalNew(s.passes) == AllPersisted(Empty(m), c, events)
      && (TotalNew(s.passes) == |s.items| <==> AllPersisted(Empty(m), c, events) == 0)
  {
    hide *;
    EmptyTidy(m);
    PlayTidy(Empty(m), c, events);
    DeficitIs(Play(Empty(m), c, events));
  }

  lemma DeficitIs(s: Control)
    ensures Deficit(s) == |s.items| - TotalNew(s.passes)
  {
  }

  // ---------- convergence ----------

  /** The same keys under the same ordinals. */
  predicate SameLedger(a: Items, b: Items) {
    a.Keys == b.Keys && forall k | k in a :: a[k].ordinal == b[k].ordinal
  }

  lemma NewKeysCons(items: Items, keys: seq<Key>)
    requires keys != []
    ensures NewKeys(items, keys) ==
            if keys[0] in items then NewKeys(items, keys[1..]) else [keys[0]] + NewKeys(items, keys[1..])
  {
    assert [] + NewKeys(items, keys[1..]) == NewKeys(items, keys[1..]);
  }

  lemma PrefixTail(head: Key, tail: seq<Key>, done: seq<Key>)
    requires done != [] && done <= [head] + tail
    ensures done[0] == head && done[1..] <= tail && done == [head] + done[1..]
  {
  }

  /** Once the first `done` of the new keys are items, the new keys are the others. */
  lemma {:induction false} NewKeysAfter(items: Items, later: Items, keys: seq<Key>, done: seq<Key>)
    requires forall a, b | 0 <= a < b < |keys| :: keys[a] != keys[b]
    requires done <= NewKeys(items, keys)
    requires forall k | k in keys :: k in later <==> k in items || k in done
    ensures NewKeys(items, keys) == done + NewKeys(later, keys)
  {
    hide NewKeys;
    if keys == [] {
      NewKeysNil(items);
      NewKeysNil(later);
    } else {
      var head, rest := keys[0], keys[1..];
      assert head !in rest && head in keys && forall k | k in rest :: k in keys;
      NewKeysCons(items, keys);
      NewKeysCons(later, keys);
      if head in items {
        NewKeysAfter(items, later, rest, done);
      } else if done == [] {
        NewKeysAfter(items, later, rest, done);
      } else {
        PrefixTail(head, NewKeys(items, rest), done);
        NewKeysAfter(items, later, rest, done[1..]);
        Associate([head], done[1..], NewKeys(later, rest));
      }
    }
  }

  lemma NewKeysNil(items: Items)
    ensures NewKeys(items, []) == []
  {
  }

  lemma Associate<T>(a: seq<T>, b: seq<T>, c: seq<T>)
    ensures a + (b + c) == (a + b) + c
  {
  }

  lemma StillMissing(items: Items, later: Items, keys: seq<Key>, j: nat)
    requires forall a, b | 0 <= a < b < |keys| :: keys[a] != keys[b]
    requires j <= |NewKeys(items, keys)| && later.Keys == items.Keys + KeySet(NewKeys(items, keys)[..j])
    ensures NewKeys(later, keys) == NewKeys(items, keys)[j..]
  {
    hide NewKeys;
    var done := NewKeys(items, keys)[..j];
    assert forall k :: k in done <==> k in KeySet(done);
    NewKeysAfter(items, later, keys, done);
    assert (done + NewKeys(later, keys))[j..] == NewKeys(later, keys);
  }

  lemma GuardsUnfold(s: Control, c: Contract, x: Snapshot, at: int)
    requires DiscoveryOnly(s, c, at) && TotalNew(s.passes) <= |s.items| && |s.passes| < MAX_DISCOVERY_PASSES
    requires s.passes != [] ==> s.passes[|s.passes| - 1].sourceDigest != x.digest && s.passes[|s.passes| - 1].at <= at
    requires |s.items| + |NewKeys(s.items, x.keys)| <= MAX_DISCOVERED_ITEMS
    ensures RecordGuards(s, c, x, at) == Ok(NewKeys(s.items, x.keys))
  {
    hide DiscoveryOnly, NewKeys, TotalNew;
  }

  lemma SnapshotDistinct(x: Snapshot)
    ensures forall a, b | 0 <= a < b < |x.keys| :: x.keys[a] != x.keys[b]
  {
  }

  /** The guards of a replay, for a record extended by the first `n` new keys. */
  lemma ReplayGuards(s: Control, c: Contract, x: Snapshot, at: int, next: Control, n: nat, later: int)
    requires Listed(s) && RecordGuards(s, c, x, at).Ok? && at <= later && n <= |RecordGuards(s, c, x, at).value|
    requires Extends(s, next, RecordGuards(s, c, x, at).value[..n], at)
    ensures RecordGuards(next, c, x, later) == Ok(RecordGuards(s, c, x, at).value[n..])
  {
    hide *;
    GuardedKeys(s, c, x, at);
    var done := RecordGuards(s, c, x, at).value[..n];
    ExtendsFrame(s, next, done, at);
    ListedCount(s, next, done, at);
    InterruptedTimes(s, next, done, c, at, later);
    SnapshotDistinct(x);
    StillMissing(s.items, next.items, x.keys, n);
    GuardsUnfold(next, c, x, later);
  }

  /** After a crash the same snapshot is accepted again, and offers exactly the keys still missing. */
  lemma ReplayAccepted(s: Control, c: Contract, x: Snapshot, at: int, count: nat, later: int)
    requires Tidy(s) && RecordGuards(s, c, x, at).Ok? && at <= later
    ensures var added := RecordGuards(s, c, x, at).value;
      && Tidy(Interrupted(s, c, x, at, count))
      && RecordGuards(Interrupted(s, c, x, at, count), c, x, later) == Ok(added[|Upto(added, count)|..])
  {
    hide *;
    TidyParts(s);
    CrashStep(s, c, Crash(x, at, count));
    StepUnfolds(s, c, Crash(x, at, count));
    InterruptedWorks(s, c, x, at, count);
    UptoIs(RecordGuards(s, c, x, at).value, count);
    ReplayGuards(s, c, x, at, Interrupted(s, c, x, at, count), |Upto(RecordGuards(s, c, x, at).value, count)|, later);
  }

  lemma InterruptedTimes(s: Control, next: Control, keys: seq<Key>, c: Contract, at: int, later: int)
    requires Extends(s, next, keys, at) && DiscoveryOnly(s, c, at) && at <= later
    ensures DiscoveryOnly(next, c, later)
  {
    forall k | k in next.items
      ensures next.items[k].status == Discovered && next.items[k].at <= later
    {
      if k !in s.items {
        var i :| 0 <= i < |keys| && keys[i] == k;
      }
    }
  }

  lemma AddedOrdinal(s: Control, next: Control, keys: seq<Key>, at: int, i: nat)
    requires Extends(s, next, keys, at) && i < |keys|
    ensures keys[i] in next.items && next.items[keys[i]].ordinal == |s.history| + 1 + i
  {
    hide Listed;
  }

  lemma KeptOrdinal(s: Control, next: Control, keys: seq<Key>, at: int, k: Key)
    requires Extends(s, next, keys, at) && k in s.items
    ensures k in next.items && next.items[k].ordinal == s.items[k].ordinal
  {
    hide Listed;
  }

  lemma StageOrdinal(s: Control, whole: Control, first: Control, second: Control, added: seq<Key>, j: nat, at: int, later: int, k: Key)
    requires j <= |added|
    requires Extends(s, whole, added, at)
    requires Extends(s, first, added[..j], at) && Extends(first, second, added[j..], later)
    requires k in s.items || k in KeySet(added)
    ensures k in whole.items && k in second.items && second.items[k].ordinal == whole.items[k].ordinal
  {
    hide *;
    if k in s.items {
      KeptOrdinal(s, whole, added, at, k);
      KeptOrdinal(s, first, added[..j], at, k);
      KeptOrdinal(first, second, added[j..], later, k);
    } else {
      var i := IndexOf(added, k);
      AddedOrdinal(s, whole, added, at, i);
      if i < j {
        AddedOrdinal(s, first, added[..j], at, i);
        KeptOrdinal(first, second, added[j..], later, k);
      } else {
        ListedParts(s, first, added[..j], at);
        AddedOrdinal(first, second, added[j..], later, i - j);
      }
    }
  }

  /** The two stages of an interrupted recording number the keys like the whole one. */
  lemma StagesAgree(s: Control, whole: Control, first: Control, second: Control, added: seq<Key>, j: nat, at: int, later: int)
    requires j <= |added|
    requires Extends(s, whole, added, at)
    requires Extends(s, first, added[..j], at) && Extends(first, second, added[j..], later)
    ensures SameLedger(second.items, whole.items)
  {
    hide *;
    ExtendsFrame(s, whole, added, at);
    ExtendsFrame(s, first, added[..j], at);
    ExtendsFrame(first, second, added[j..], later);
    StagesKeys(added, j);
    assert second.items.Keys == whole.items.Keys;
    forall k | k in second.items
      ensures k in whole.items && second.items[k].ordinal == whole.items[k].ordinal
    {
      StageOrdinal(s, whole, first, second, added, j, at, later, k);
    }
    SameOrdinals(second.items, whole.items);
  }

  lemma SameOrdinals(a: Items, b: Items)
    requires a.Keys == b.Keys && forall k | k in a :: k in b && a[k].ordinal == b[k].ordinal
    ensures SameLedger(a, b)
  {
  }

  lemma StagesKeys(added: seq<Key>, j: nat)
    requires j <= |added|
    ensures KeySet(added[..j]) + KeySet(added[j..]) == KeySet(added)
  {
    assert added == added[..j] + added[j..];
  }

  lemma IndexOf(keys: seq<Key>, k: Key) returns (i: nat)
    requires k in KeySet(keys)
    ensures i < |keys| && keys[i] == k
  {
    i :| 0 <= i < |keys| && keys[i] == k;
  }

  /** One crash and one replay give the ledger of the uninterrupted recording. */
  lemma OneCrashConverges(s: Control, c: Contract, x: Snapshot, at: int, count: nat, later: int)
    requires Tidy(s) && RecordGuards(s, c, x, at).Ok? && at <= later
    ensures Record(s, c, x, at).Ok? && Record(Interrupted(s, c, x, at, count), c, x, later).Ok?
    ensures SameLedger(Record(Interrupted(s, c, x, at, count), c, x, later).value.items, Record(s, c, x, at).value.items)
  {
    hide *;
    GuardedKeys(s, c, x, at);
    TidyParts(s);
    ReplayAccepted(s, c, x, at, count, later);
    InterruptedWorks(s, c, x, at, count);
    var added := RecordGuards(s, c, x, at).value;
    var first := Interrupted(s, c, x, at, count);
    TidyParts(first);
    var whole := RecordWorks(s, c, x, at);
    var second := RecordWorks(first, c, x, later);
    UptoIs(added, count);
    StagesAgree(s, whole, first, second, added, |Upto(added, count)|, at, later);
  }

  lemma TidyParts(s: Control)
    requires Tidy(s)
    ensures Listed(s) && PassesAccepted(s.passes)
  {
  }

  /** The same snapshot tried again and again, each try crashing. */
  function Retries(s: Control, c: Contract, x: Snapshot, crashes: seq<(int, nat)>): Control
    decreases |crashes|
  {
    if crashes == [] then s
    else Retries(Interrupted(s, c, x, crashes[0].0, crashes[0].1), c, x, crashes[1..])
  }

  predicate Forward(at: int, crashes: seq<(int, nat)>, later: int)
    decreases |crashes|
  {
    if crashes == [] then at <= later else at <= crashes[0].0 && Forward(crashes[0].0, crashes[1..], later)
  }

  /** However often a recording crashes, replaying its snapshot is accepted and ends in the same ledger. */
  lemma {:induction false} ReplayConverges(s: Control, c: Contract, x: Snapshot, at: int, crashes: seq<(int, nat)>, later: int)
    requires Tidy(s) && RecordGuards(s, c, x, at).Ok? && Forward(at, crashes, later)
    ensures Record(s, c, x, at).Ok? && Record(Retries(s, c, x, crashes), c, x, later).Ok?
    ensures SameLedger(Record(Retries(s, c, x, crashes), c, x, later).value.items, Record(s, c, x, at).value.items)
    decreases |crashes|
  {
    LaterAccepted(s, c, x, at, later, crashes);
    var when := if crashes == [] then later else crashes[0].0;
    OneCrashConverges(s, c, x, at, 0, when);
    InterruptedNothing(s, c, x, at);
    hide Tidy, RecordGuards, Record, Interrupted;
    if crashes != [] {
      var next := Interrupted(s, c, x, when, crashes[0].1);
      ReplayAccepted(s, c, x, when, crashes[0].1, when);
      OneCrashConverges(s, c, x, when, crashes[0].1, when);
      ReplayConverges(next, c, x, when, crashes[1..], later);
    }
  }

  lemma InterruptedNothing(s: Control, c: Contract, x: Snapshot, at: int)
    ensures Interrupted(s, c, x, at, 0) == s
  {
    if RecordGuards(s, c, x, at).Ok? {
      assert RecordGuards(s, c, x, at).value[..0] == [];
      hide RecordGuards;
    }
  }

  lemma LaterAccepted(s: Control, c: Contract, x: Snapshot, at: int, later: int, crashes: seq<(int, nat)>)
    requires Tidy(s) && RecordGuards(s, c, x, at).Ok? && Forward(at, crashes, later)
    ensures var when := if crashes == [] then later else crashes[0].0;
      at <= when && RecordGuards(s, c, x, when).Ok?
  {
    var when := if crashes == [] then later else crashes[0].0;
    ReplayAccepted(s, c, x, at, 0, when);
    InterruptedNothing(s, c, x, at);
  }
}
