/**
  Identity discovery (boss_campaign_discovery.py and its generic counterpart
  application_campaign_discovery.py): items are appended one by one before the pass
  that accounts for them, so a crash can leave items no pass has counted.

  A snapshot enters as the list of links already parsed out of its text.
*/
module Discovery {
  import opened Wrappers
  import opened Campaign
  import opened CampaignStores

  const MAX_IDENTITIES_PER_SNAPSHOT := 50
  const MAX_DISCOVERED_ITEMS := 200
  const MAX_DISCOVERY_PASSES := 20

  datatype DiscoveryError =
    | NoIdentities | TooManyIdentities | LedgerTorn | StateInvalid | SourceUnchanged | PassLimit | CampaignLimit | WriteFailed

  // ---------- the identities of one snapshot ----------

  /** A link of the reviewed host: whether it carries the source marker, and its public id. */
  datatype Link = Link(marker: bool, publicId: Option<string>)

  predicate Marked(links: seq<Link>) {
    exists i | 0 <= i < |links| :: links[i].marker
  }

  /** Public ids in order of their first occurrence. */
  function FirstIds(links: seq<Link>): (ids: seq<string>)
    ensures forall i, j | 0 <= i < j < |ids| :: ids[i] != ids[j]
    ensures forall x :: x in ids <==> exists i | 0 <= i < |links| :: links[i].publicId == Some(x)
  {
    if links == [] then []
    else
      var n := |links| - 1;
      var before := FirstIds(links[..n]);
      assert forall i | 0 <= i < n :: links[..n][i] == links[i];
      if links[n].publicId.None? || links[n].publicId.value in before then before
      else before + [links[n].publicId.value]
  }

  function Prefixed(prefix: string, ids: seq<string>): (keys: seq<Key>)
    ensures |keys| == |ids| && forall i | 0 <= i < |ids| :: keys[i] == prefix + ids[i]
  {
    seq(|ids|, i requires 0 <= i < |ids| => prefix + ids[i])
  }

  function Identities(prefix: string, links: seq<Link>): Result<seq<Key>, DiscoveryError> {
    var ids := FirstIds(links);
    if !Marked(links) then Err(NoIdentities)
    else if |ids| > MAX_IDENTITIES_PER_SNAPSHOT then Err(TooManyIdentities)
    else if ids == [] then Err(NoIdentities)
    else Ok(Prefixed(prefix, ids))
  }

  lemma {:induction false} FirstIdsGrow(links: seq<Link>, n: nat)
    requires n <= |links|
    ensures FirstIds(links[..n]) <= FirstIds(links)
    decreases |links| - n
  {
    if n == |links| {
      assert links[..n] == links;
    } else {
      assert links[..n + 1][..n] == links[..n];
      FirstIdsGrow(links, n + 1);
    }
  }

  /** The loop of `parse_boss_job_identities`: it stops at the first identity over the limit. */
  method ParseIdentities(prefix: string, links: seq<Link>) returns (r: Result<seq<Key>, DiscoveryError>)
    ensures r == Identities(prefix, links)
  {
    if !Marked(links) {
      return Err(NoIdentities);
    }
    var identities: seq<Key> := [];
    var seen: set<string> := {};
    for n := 0 to |links|
      invariant identities == Prefixed(prefix, FirstIds(links[..n]))
      invariant seen == set x | x in FirstIds(links[..n])
      invariant |identities| <= MAX_IDENTITIES_PER_SNAPSHOT
    {
      assert links[..n + 1][..n] == links[..n];
      if links[n].publicId.None? {
        continue;
      }
      var publicId := links[n].publicId.value;
      if publicId in seen {
        continue;
      }
      seen := seen + {publicId};
      identities := identities + [prefix + publicId];
      if |identities| > MAX_IDENTITIES_PER_SNAPSHOT {
        FirstIdsGrow(links, n + 1);
        return Err(TooManyIdentities);
      }
    }
    assert links[..|links|] == links;
    r := if identities == [] then Err(NoIdentities) else Ok(identities);
  }

  /** What one observation offers: distinct keys, and the digest of its source text. */
  datatype SnapshotData = SnapshotData(keys: seq<Key>, digest: Hash)

  predicate SnapshotAccepted(x: SnapshotData) {
    && 0 < |x.keys| <= MAX_IDENTITIES_PER_SNAPSHOT
    && forall i, j | 0 <= i < j < |x.keys| :: x.keys[i] != x.keys[j]
  }

  type Snapshot = x: SnapshotData | SnapshotAccepted(x) witness SnapshotData(["k"], "d")

  /** Every parsed link list is a snapshot: the keys are distinct and within the limit. */
  lemma IdentitiesAccepted(prefix: string, links: seq<Link>, digest: Hash)
    requires Identities(prefix, links).Ok?
    ensures SnapshotAccepted(SnapshotData(Identities(prefix, links).value, digest))
  {
    var ids := FirstIds(links);
    forall i, j | 0 <= i < j < |ids|
      ensures prefix + ids[i] != prefix + ids[j]
    {
      assert (prefix + ids[i])[|prefix|..] == ids[i] && (prefix + ids[j])[|prefix|..] == ids[j];
    }
  }

  // ---------- passes ----------

  function TotalNew(passes: seq<DiscoveryPass>): nat {
    if passes == [] then 0 else TotalNew(passes[..|passes| - 1]) + passes[|passes| - 1].newCount
  }

  /** A pass ledger `reduce_discovery_passes` accepts. */
  predicate PassesAccepted(passes: seq<DiscoveryPass>) {
    && (forall i | 0 < i < |passes| ::
          passes[i].sourceDigest != passes[i - 1].sourceDigest && passes[i - 1].at <= passes[i].at)
    && |passes| <= MAX_CAMPAIGN_DISCOVERY_PASSES
  }

  /** `append_discovery_pass`. */
  function AppendPass(s: Control, p: DiscoveryPass): Result<Control, StoreError> {
    if p.observedCount == 0 || p.newCount > p.observedCount || !PassesAccepted(s.passes + [p]) then Err(DiscoveryLedgerInvalid)
    else Ok(s.(passes := s.passes + [p]))
  }

  // ---------- inspection ----------

  /** The two discovery boundaries; the generic one also refuses a heartbeat or a handoff. */
  datatype Contract = Contract(kind: string, policyDigest: Hash, schemaDigest: Hash, generic: bool)

  predicate DiscoveryOnly(s: Control, c: Contract, now: int) {
    && s.manifest.kind == c.kind && s.manifest.status == Running
    && s.manifest.policyDigest == c.policyDigest && s.manifest.schemaDigest == c.schemaDigest
    && s.batches == []
    && (c.generic ==> s.heartbeat.None? && s.handoff.None?)
    && (forall k | k in s.items :: s.items[k].status == Discovered && s.items[k].at <= now)
    && s.manifest.updatedAt <= now
  }

  datatype Preflight = Preflight(discovered: nat, passes: nat, lastDigest: Option<Hash>)

  /** `inspect_boss_discovery_campaign` and `inspect_application_discovery_campaign`. */
  function Inspect(s: Control, c: Contract, now: int): Result<Preflight, DiscoveryError> {
    var n := |s.passes|;
    if |s.items| < TotalNew(s.passes) then Err(LedgerTorn)
    else if n > 0 && now < s.passes[n - 1].at then Err(StateInvalid)
    else if !DiscoveryOnly(s, c, now) then Err(StateInvalid)
    else Ok(Preflight(|s.items|, n, if n == 0 then None else Some(s.passes[n - 1].sourceDigest)))
  }

  // ---------- recording ----------

  /** The keys of a snapshot that are not items yet, in its order. */
  function NewKeys(items: Items, keys: seq<Key>): (added: seq<Key>)
    ensures forall x :: x in added <==> x in keys && x !in items
    ensures |added| <= |keys|
  {
    if keys == [] then []
    else (if keys[0] in items then [] else [keys[0]]) + NewKeys(items, keys[1..])
  }

  lemma {:induction false} MaxExists(items: map<Key, Item>) returns (k: Key)
    requires items != map[]
    ensures k in items && forall l | l in items :: items[l].ordinal <= items[k].ordinal
    decreases |items|
  {
    k :| k in items;
    var rest := items - {k};
    assert forall l | l in items && l != k :: l in rest && rest[l] == items[l];
    if rest != map[] {
      var m := MaxExists(rest);
      k := if items[k].ordinal < items[m].ordinal then m else k;
    }
  }

  predicate IsMax(items: Items, m: int) {
    m in Ordinals(items) && forall l | l in items :: items[l].ordinal <= m
  }

  lemma MaxOrdinalExists(items: Items)
    requires items != map[]
    ensures exists m :: IsMax(items, m)
  {
    var k := MaxExists(items);
    assert items[k].ordinal in Ordinals(items);
    assert IsMax(items, items[k].ordinal);
  }

  /** `max(ordinals, default=0)`. */
  function MaxOrdinal(items: Items): (m: int)
    ensures m >= 0
    ensures items == map[] ==> m == 0
    ensures items != map[] ==> IsMax(items, m)
  {
    if items == map[] then 0
    else
      MaxOrdinalExists(items);
      assert forall m, n | IsMax(items, m) && IsMax(items, n) :: m == n;
      var m :| m in Ordinals(items) && IsMax(items, m);
      m
  }

  /** Append these keys as new items with consecutive ordinals. */
  function AppendAll(s: Control, keys: seq<Key>, first: int, at: int): Result<Control, StoreError>
    requires first > 0
  {
    if keys == [] then Ok(s)
    else
      var n := |keys| - 1;
      var before :- AppendAll(s, keys[..n], first, at);
      Append(before, NewItem(first + n, keys[n], at))
  }

  /** The checks of a recording, before its first write; `Ok` carries the new keys. */
  function RecordGuards(s: Control, c: Contract, x: Snapshot, now: int): Result<seq<Key>, DiscoveryError> {
    var preflight :- Inspect(s, c, now);
    if preflight.lastDigest == Some(x.digest) then Err(SourceUnchanged)
    else if preflight.passes >= MAX_DISCOVERY_PASSES then Err(PassLimit)
    else
      var added := NewKeys(s.items, x.keys);
      if preflight.discovered + |added| > MAX_DISCOVERED_ITEMS then Err(CampaignLimit) else Ok(added)
  }

  /** `record_boss_snapshot_discoveries` and `record_application_snapshot_discoveries`. */
  function Record(s: Control, c: Contract, x: Snapshot, now: int): Result<Control, DiscoveryError> {
    var added :- RecordGuards(s, c, x, now);
    match AppendAll(s, added, 1 + MaxOrdinal(s.items), now)
    case Err(_) => Err(WriteFailed)
    case Ok(s1) =>
      match AppendPass(s1, DiscoveryPass(now, x.digest, |x.keys|, |added|))
      case Err(_) => Err(WriteFailed)
      case Ok(s2) => Ok(s2)
  }

  /** A recording that crashes after `count` appends: the new items stay, no pass counts them. */
  function Interrupted(s: Control, c: Contract, x: Snapshot, now: int, count: nat): Control {
    match RecordGuards(s, c, x, now)
    case Err(_) => s
    case Ok(added) =>
      match AppendAll(s, if count < |added| then added[..count] else added, 1 + MaxOrdinal(s.items), now)
      case Err(_) => s
      case Ok(s1) => s1
  }

  // ---------- the recording on a store ----------

  /**
    The recording as a loop of appends followed by the pass.  The loop invariant
    names the state a crash at that point leaves behind.
  */
  method RecordDiscoveries(store: CampaignStore, c: Contract, x: Snapshot, now: int) returns (r: Result<seq<Key>, DiscoveryError>)
    requires store.Valid()
    modifies store
    ensures store.Valid()
    ensures match Record(old(store.Snapshot()), c, x, now)
            case Ok(next) => r == Ok(NewKeys(old(store.Snapshot()).items, x.keys)) && store.Snapshot() == next
            case Err(e) => r == Err(e)
    ensures RecordGuards(old(store.Snapshot()), c, x, now).Err? ==> store.Snapshot() == old(store.Snapshot())
  {
    hide Inspect, NewKeys, Append, PassesAccepted, FoldItems, ReduceItems;
    var s := store.Read();
    var checked := RecordGuards(s, c, x, now);
    if checked.Err? {
      return Err(checked.error);
    }
    var added := checked.value;
    var first := 1 + MaxOrdinal(s.items);
    assert added[..0] == [];
    for n := 0 to |added|
      invariant store.Valid()
      invariant AppendAll(s, added[..n], first, now) == Ok(store.Snapshot())
    {
      assert added[..n + 1][..n] == added[..n];
      var appended := store.Append(NewItem(first + n, added[n], now));
      if appended.Err? {
        AppendAllFails(s, added, first, now, n + 1);
        return Err(WriteFailed);
      }
    }
    assert added[..|added|] == added;
    var p := DiscoveryPass(now, x.digest, |x.keys|, |added|);
    if p.observedCount == 0 || p.newCount > p.observedCount || !PassesAccepted(store.passes + [p]) {
      return Err(WriteFailed);
    }
    store.passes := store.passes + [p];
    r := Ok(added);
  }

  lemma {:induction false} AppendAllFails(s: Control, keys: seq<Key>, first: int, at: int, n: nat)
    requires first > 0 && n <= |keys| && AppendAll(s, keys[..n], first, at).Err?
    ensures AppendAll(s, keys, first, at).Err?
    decreases |keys| - n
  {
    if n == |keys| {
      assert keys[..n] == keys;
    } else {
      assert keys[..n + 1][..n] == keys[..n];
      AppendAllFails(s, keys, first, at, n + 1);
    }
  }
}
