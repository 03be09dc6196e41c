/**
  The durable records of one campaign (campaign.py): manifest, item ledger, batch
  ledger, discovery passes, heartbeat and handoff.  Timestamps are integers
  (seconds); identifier syntax, the campaign id and file sizes are not modelled.
  A record's sequence number is its position in its ledger.
*/
module Campaign {
  import opened Wrappers
  import opened Ordering

  const MAX_CAMPAIGN_ITEMS := 10_000
  const MAX_CAMPAIGN_DISCOVERY_PASSES := 100
  const MAX_HEARTBEAT_FRESHNESS_SECONDS := 5 * 60
  const MAX_ITEM_LEASE_SECONDS := 60 * 60

  type Key = string
  type RunId = string
  type Hash = string

  datatype StoreError =
    | LedgerInvalid | LedgerTooLarge | BatchLedgerInvalid
    | DiscoveryLedgerInvalid | DiscoveryLedgerTooLarge
    | CompletionInvalid | HeartbeatConflict | RecoveryInvalid | RecoveryBlocked
    | TransferInvalid | TransferConflict | RetirementInvalid | RetirementBlocked | RetirementConflict
    | HandoffReadFailed | HandoffInvalid | ClockInvalid

  datatype CampaignStatus = Running | Paused | ChallengeHold | Completed | Failed

  datatype Manifest = Manifest(kind: string, policyDigest: Hash, schemaDigest: Hash, updatedAt: int, status: CampaignStatus)

  // ---------- items ----------

  datatype ItemStatus =
    Discovered | Claimed | Observed | Extracted | Committed | Retryable | Skipped | Challenge | Uncertain

  /** The boundary of a transition; its code is determined by it. */
  datatype Boundary = ClaimBoundary | Reobserved | ExtractionDone | ResultVerified | LeaseExpired | OtherBoundary

  datatype ItemData = ItemData(
    ordinal: int, key: Key, status: ItemStatus, attempt: int, at: int,
    runId: Option<RunId>, leaseExpires: Option<int>, boundary: Option<Boundary>, content: Option<Hash>)

  /** What the constructor of `ItemTransition` accepts. */
  predicate ItemAccepted(t: ItemData) {
    && t.ordinal > 0 && t.attempt >= 0
    && (if t.status == Discovered then t.runId.None? && t.boundary.None? && t.attempt == 0
        else t.runId.Some? && t.boundary.Some?)
    && (if t.status == Claimed then t.leaseExpires.Some? && 0 < t.leaseExpires.value - t.at <= MAX_ITEM_LEASE_SECONDS
        else t.leaseExpires.None?)
    && (t.status == Committed <==> t.content.Some?)
  }

  type Item = t: ItemData | ItemAccepted(t) witness ItemData(1, "k", Discovered, 0, 0, None, None, None, None)

  /** An item as it is first appended. */
  function NewItem(ordinal: int, key: Key, at: int): Item
    requires ordinal > 0
  {
    ItemData(ordinal, key, Discovered, 0, at, None, None, None, None)
  }

  predicate Distinct(keys: seq<Key>) {
    forall i, j | 0 <= i < j < |keys| :: keys[i] != keys[j]
  }

  function KeySet(keys: seq<Key>): set<Key> {
    set k | k in keys
  }

  predicate Allowed(before: ItemStatus, after: ItemStatus) {
    match before
    case Discovered => after == Claimed
    case Claimed => after in {Observed, Retryable}
    case Observed => after in {Extracted, Retryable, Challenge, Uncertain}
    case Extracted => after in {Committed, Skipped, Retryable, Challenge, Uncertain}
    case Retryable => after == Claimed
    case _ => false
  }

  /** Every item sits under its own key, and ordinals are distinct. */
  ghost predicate WellKept(items: map<Key, Item>) {
    && (forall k | k in items :: items[k].key == k)
    && (forall k, l | k in items && l in items && items[k].ordinal == items[l].ordinal :: k == l)
  }

  /** A projection: the latest transition of every item of a valid ledger. */
  type Items = m: map<Key, Item> | WellKept(m) witness map[]

  predicate OrdinalTaken(items: Items, ordinal: int) {
    exists k | k in items :: items[k].ordinal == ordinal
  }

  /** The step of `reduce_item_ledger` for one transition. */
  predicate Admits(items: Items, t: Item) {
    if t.key !in items then t.status == Discovered && !OrdinalTaken(items, t.ordinal)
    else
      var previous := items[t.key];
      && t.ordinal == previous.ordinal
      && Allowed(previous.status, t.status)
      && (previous.status == Claimed && t.status == Retryable ==>
            t.boundary == Some(LeaseExpired) && previous.leaseExpires.Some? && t.at >= previous.leaseExpires.value)
      && t.attempt == previous.attempt + (if t.status == Claimed then 1 else 0)
  }

  function FoldItems(log: seq<Item>): Result<Items, StoreError> {
    if log == [] then Ok(map[])
    else
      var items :- FoldItems(log[..|log| - 1]);
      var t := log[|log| - 1];
      if Admits(items, t) then Ok(Admit(items, t)) else Err(LedgerInvalid)
  }

  /** The projection after one admitted transition. */
  function Admit(items: Items, t: Item): (next: Items)
    requires Admits(items, t)
    ensures next == items[t.key := t]
  {
    items[t.key := t]
  }

  function ReduceItems(log: seq<Item>): Result<Items, StoreError> {
    var items :- FoldItems(log);
    if |items| > MAX_CAMPAIGN_ITEMS then Err(LedgerTooLarge) else Ok(items)
  }

  lemma {:induction false} FoldFails(log: seq<Item>, n: nat)
    requires n <= |log| && FoldItems(log[..n]).Err?
    ensures FoldItems(log) == Err(LedgerInvalid)
    decreases |log| - n
  {
    if n == |log| {
      assert log[..n] == log;
      FoldError(log);
    } else {
      assert log[..n + 1][..n] == log[..n];
      FoldFails(log, n + 1);
    }
  }

  lemma FoldError(log: seq<Item>)
    requires FoldItems(log).Err?
    ensures FoldItems(log) == Err(LedgerInvalid)
  {
  }

  function Ordinals(items: Items): set<int> {
    set k | k in items :: items[k].ordinal
  }

  lemma AdmitOrdinals(items: Items, t: Item)
    requires Admits(items, t)
    ensures Ordinals(Admit(items, t)) == Ordinals(items) + {t.ordinal}
  {
    var next := Admit(items, t);
    assert next[t.key].ordinal == t.ordinal;
    forall o | o in Ordinals(items)
      ensures o in Ordinals(next)
    {
      var k :| k in items && items[k].ordinal == o;
      assert next[k].ordinal == o;
    }
  }

  lemma FoldStep(log: seq<Item>, n: nat)
    requires n < |log| && FoldItems(log[..n]).Ok?
    ensures var items := FoldItems(log[..n]).value;
      FoldItems(log[..n + 1]) == if Admits(items, log[n]) then Ok(Admit(items, log[n])) else Err(LedgerInvalid)
  {
    assert log[..n + 1][..n] == log[..n];
    hide Admits;
  }

  lemma TakenIsOrdinal(items: Items, ordinal: int)
    ensures OrdinalTaken(items, ordinal) <==> ordinal in Ordinals(items)
  {
  }

  /** `reduce_item_ledger`. */
  method ReduceItemLedger(log: seq<Item>) returns (r: Result<Items, StoreError>)
    ensures r == ReduceItems(log)
  {
    var items: Items := map[];
    var ordinals: set<int> := {};
    var n := 0;
    assert log[..0] == [] && FoldItems([]) == Ok(items) && ordinals == Ordinals(items);
    hide FoldItems, Ordinals, OrdinalTaken, Allowed;
    while n < |log|
      invariant 0 <= n <= |log|
      invariant FoldItems(log[..n]) == Ok(items)
      invariant ordinals == Ordinals(items)
    {
      var t := log[n];
      FoldStep(log, n);
      TakenIsOrdinal(items, t.ordinal);
      if t.key !in items {
        if t.status != Discovered || t.ordinal in ordinals {
          FoldFails(log, n + 1);
          return Err(LedgerInvalid);
        }
      } else if !Admits(items, t) {
        FoldFails(log, n + 1);
        return Err(LedgerInvalid);
      }
      AdmitOrdinals(items, t);
      ordinals := ordinals + {t.ordinal};
      items := Admit(items, t);
      n := n + 1;
    }
    assert log[..n] == log;
    r := if |items| > MAX_CAMPAIGN_ITEMS then Err(LedgerTooLarge) else Ok(items);
  }

  // ---------- selections over the projection ----------

  predicate InFlight(i: Item) {
    i.status in {Claimed, Observed, Extracted}
  }

  predicate Eligible(i: Item) {
    i.status in {Discovered, Retryable}
  }

  function EligibleItems(items: Items): (s: set<Item>)
    ensures DistinctKeys(s)
    ensures forall i | i in s :: i.key in items && items[i.key] == i
  {
    set k | k in items && Eligible(items[k]) :: items[k]
  }

  function InFlightKeys(items: Items): set<Key> {
    set k | k in items && InFlight(items[k])
  }

  function IncompleteItems(items: Items): (s: set<Item>)
    ensures DistinctKeys(s)
  {
    set k | k in items && items[k].status != Committed :: items[k]
  }

  function CountStatus(items: Items, status: ItemStatus): nat {
    |set k | k in items && items[k].status == status|
  }

  // ---------- the (ordinal, key) order ----------

  predicate Before(a: Item, b: Item) {
    a.ordinal < b.ordinal || (a.ordinal == b.ordinal && StringLess(a.key, b.key))
  }

  predicate IsLeast(m: Item, s: set<Item>) {
    m in s && forall x | x in s :: x == m || Before(m, x)
  }

  /** Distinct items of a projection differ in their key. */
  predicate DistinctKeys(s: set<Item>) {
    forall a, b | a in s && b in s && a.key == b.key :: a == b
  }

  lemma BeforeTotal(a: Item, b: Item)
    ensures a.key != b.key ==> Before(a, b) || Before(b, a)
    ensures !(Before(a, b) && Before(b, a))
  {
    StringLessTotal(a.key, b.key);
  }

  lemma BeforeTransitive(a: Item, b: Item, c: Item)
    requires Before(a, b) && Before(b, c)
    ensures Before(a, c)
  {
    if a.ordinal == b.ordinal == c.ordinal {
      StringLessTransitive(a.key, b.key, c.key);
    }
  }

  lemma {:induction false} LeastExists(s: set<Item>)
    requires s != {} && DistinctKeys(s)
    ensures exists m :: IsLeast(m, s)
  {
    var x :| x in s;
    if s == {x} {
      assert IsLeast(x, s);
    } else {
      var rest := s - {x};
      LeastExists(rest);
      var m :| IsLeast(m, rest);
      BeforeTotal(x, m);
      if Before(m, x) {
        assert IsLeast(m, s);
      } else {
        forall y | y in s
          ensures y == x || Before(x, y)
        {
          if y != x && y != m {
            BeforeTransitive(x, m, y);
          }
        }
        assert IsLeast(x, s);
      }
    }
  }

  lemma LeastUnique(s: set<Item>, a: Item, b: Item)
    requires IsLeast(a, s) && IsLeast(b, s)
    ensures a == b
  {
    BeforeTotal(a, b);
  }

  function Least(s: set<Item>): (m: Item)
    requires s != {} && DistinctKeys(s)
    ensures IsLeast(m, s)
  {
    LeastExists(s);
    assert forall a, b | IsLeast(a, s) && IsLeast(b, s) :: a == b by {
      forall a, b | IsLeast(a, s) && IsLeast(b, s)
        ensures a == b
      {
        LeastUnique(s, a, b);
      }
    }
    var m :| m in s && IsLeast(m, s);
    m
  }

  lemma LeastIsItem(items: Items)
    requires EligibleItems(items) != {}
    ensures var m := Least(EligibleItems(items)); m.key in items && items[m.key] == m && Eligible(m)
  {
    hide Least;
    assert IsLeast(Least(EligibleItems(items)), EligibleItems(items));
  }

  /** `sorted(..., key=lambda item: (item.ordinal, item.item_key))`. */
  function Sorted(s: set<Item>): (q: seq<Item>)
    requires DistinctKeys(s)
    ensures |q| == |s|
    ensures forall x :: x in q <==> x in s
    decreases |s|
  {
    if s == {} then [] else
      var m := Least(s);
      [m] + Sorted(s - {m})
  }

  function Keys(q: seq<Item>): (keys: seq<Key>)
    ensures |keys| == |q| && forall i | 0 <= i < |q| :: keys[i] == q[i].key
  {
    seq(|q|, i requires 0 <= i < |q| => q[i].key)
  }

  /** The lowest ordinal that is not committed, or one past the number of items. */
  function NextOrdinal(items: Items): int {
    var incomplete := IncompleteItems(items);
    if incomplete == {} then |items| + 1 else Least(incomplete).ordinal
  }

  // ---------- batches ----------

  datatype Usage = Usage(
    itemsCompleted: nat, elapsedSeconds: nat, providerTurns: nat, toolCalls: nat, inputTokens: nat,
    outputTokens: nat, screenshots: nat, ocrRegions: nat, consecutiveFailures: nat)

  const NO_USAGE := Usage(0, 0, 0, 0, 0, 0, 0, 0, 0)

  datatype StopReason =
    | NoEligibleItems | ItemLimit | WallTimeLimit | ProviderTurnLimit | ToolCallLimit | InputTokenLimit
    | OutputTokenLimit | ScreenshotLimit | OcrRegionLimit | ConsecutiveFailureLimit

  /** The code a batch is finished with. */
  datatype StopCode = Stopped(reason: StopReason) | PlanComplete

  datatype BatchTransition =
    | Started(batchId: string, runId: RunId, at: int)
    | Finished(batchId: string, runId: RunId, at: int, code: StopCode, usage: Usage)

  function ActiveBatch(log: seq<BatchTransition>): Option<BatchTransition> {
    if log != [] && log[|log| - 1].Started? then Some(log[|log| - 1]) else None
  }

  predicate BatchIdUsed(log: seq<BatchTransition>, batchId: string) {
    exists i | 0 <= i < |log| :: log[i].Started? && log[i].batchId == batchId
  }

  /** The step of `reduce_batch_ledger` for one transition. */
  predicate AdmitsBatch(log: seq<BatchTransition>, t: BatchTransition) {
    var active := ActiveBatch(log);
    match t
    case Started(batchId, _, _) => active.None? && !BatchIdUsed(log, batchId)
    case Finished(batchId, runId, _, _, _) =>
      active.Some? && active.value.batchId == batchId && active.value.runId == runId
  }

  /** A batch ledger `reduce_batch_ledger` accepts. */
  predicate BatchesAccepted(log: seq<BatchTransition>) {
    log == [] || (BatchesAccepted(log[..|log| - 1]) && AdmitsBatch(log[..|log| - 1], log[|log| - 1]))
  }

  function FinishedCount(log: seq<BatchTransition>): nat {
    if log == [] then 0 else FinishedCount(log[..|log| - 1]) + (if log[|log| - 1].Finished? then 1 else 0)
  }

  lemma {:induction false} RejectedPrefix(log: seq<BatchTransition>, n: nat)
    requires n <= |log| && !BatchesAccepted(log[..n])
    ensures !BatchesAccepted(log)
    decreases |log| - n
  {
    if n == |log| {
      assert log[..n] == log;
    } else {
      assert log[..n + 1][..n] == log[..n];
      RejectedPrefix(log, n + 1);
    }
  }

  datatype BatchProjection = BatchProjection(active: Option<BatchTransition>, finishedCount: nat)

  /** `reduce_batch_ledger`. */
  method ReduceBatchLedger(log: seq<BatchTransition>) returns (r: Result<BatchProjection, StoreError>)
    ensures r.Ok? <==> BatchesAccepted(log)
    ensures r.Ok? ==> r.value == BatchProjection(ActiveBatch(log), FinishedCount(log))
  {
    var active: Option<BatchTransition> := None;
    var finishedCount := 0;
    var batchIds: set<string> := {};
    var n := 0;
    while n < |log|
      invariant 0 <= n <= |log|
      invariant BatchesAccepted(log[..n])
      invariant active == ActiveBatch(log[..n]) && finishedCount == FinishedCount(log[..n])
      invariant forall b :: b in batchIds <==> BatchIdUsed(log[..n], b)
    {
      var t := log[n];
      assert log[..n + 1][..n] == log[..n];
      ghost var prefix := log[..n + 1];
      match t {
        case Started(batchId, _, _) =>
          if active.Some? || batchId in batchIds {
            RejectedPrefix(log, n + 1);
            return Err(BatchLedgerInvalid);
          }
          batchIds := batchIds + {batchId};
          active := Some(t);
          assert prefix[n].Started?;
        case Finished(batchId, runId, _, _, _) =>
          if active.None? || batchId != active.value.batchId || runId != active.value.runId {
            RejectedPrefix(log, n + 1);
            return Err(BatchLedgerInvalid);
          }
          active := None;
          finishedCount := finishedCount + 1;
      }
      forall b
        ensures b in batchIds <==> BatchIdUsed(prefix, b)
      {
        if BatchIdUsed(log[..n], b) {
          var i :| 0 <= i < n && log[..n][i].Started? && log[..n][i].batchId == b;
          assert prefix[i].Started?;
        }
        if BatchIdUsed(prefix, b) {
          var i :| 0 <= i < |prefix| && prefix[i].Started? && prefix[i].batchId == b;
          assert i < n ==> log[..n][i] == prefix[i];
        }
      }
      n := n + 1;
    }
    assert log[..n] == log;
    r := Ok(BatchProjection(active, finishedCount));
  }

  // ---------- heartbeat, handoff, the whole record ----------

  datatype Heartbeat = Heartbeat(runId: RunId, startedAt: int, heartbeatAt: int, freshUntil: int)

  predicate HeartbeatAccepted(h: Heartbeat) {
    h.startedAt <= h.heartbeatAt < h.freshUntil <= h.heartbeatAt + MAX_HEARTBEAT_FRESHNESS_SECONDS
  }

  datatype Freshness = Missing | Fresh | Stale

  /** `inspect_heartbeat`: an error when the clock precedes the record. */
  function InspectHeartbeat(h: Option<Heartbeat>, now: int): Result<Freshness, StoreError> {
    if h.None? then Ok(Missing)
    else if now < h.value.heartbeatAt then Err(ClockInvalid)
    else if h.value.freshUntil <= now then Ok(Stale)
    else Ok(Fresh)
  }

  /** `directive` is the status that determines next_action and required_observation. */
  datatype Handoff = Handoff(
    nextOrdinal: int, completed: nat, retryable: nat, uncertain: nat,
    lastRunId: RunId, directive: CampaignStatus, updatedAt: int)

  datatype DiscoveryPass = DiscoveryPass(at: int, sourceDigest: Hash, observedCount: nat, newCount: nat)

  datatype Control = Control(
    manifest: Manifest, items: Items, history: seq<Item>, batches: seq<BatchTransition>,
    passes: seq<DiscoveryPass>, heartbeat: Option<Heartbeat>, handoff: Option<Handoff>)

  /** A campaign just created. */
  function Empty(m: Manifest): Control {
    Control(m, map[], [], [], [], None, None)
  }

  /** `store.append`. */
  function Append(s: Control, t: Item): Result<Control, StoreError> {
    if !Admits(s.items, t) then Err(LedgerInvalid)
    else if |Admit(s.items, t)| > MAX_CAMPAIGN_ITEMS then Err(LedgerTooLarge)
    else Ok(s.(items := Admit(s.items, t), history := s.history + [t]))
  }

  /** `store.append_batch`. */
  function AppendBatch(s: Control, t: BatchTransition): Result<Control, StoreError> {
    if AdmitsBatch(s.batches, t) then Ok(s.(batches := s.batches + [t])) else Err(BatchLedgerInvalid)
  }

  function DerivedHandoff(s: Control, runId: RunId, clock: int): Handoff {
    Handoff(NextOrdinal(s.items), CountStatus(s.items, Committed), CountStatus(s.items, Retryable),
            CountStatus(s.items, Uncertain), runId, s.manifest.status, clock)
  }

  /** `store.write_handoff`, at the store's own clock. */
  function WriteHandoff(s: Control, runId: RunId, clock: int): Control {
    s.(handoff := Some(DerivedHandoff(s, runId, clock)))
  }

  /** `store.read_handoff`: the record must still agree with the current state. */
  function ReadHandoff(s: Control): Result<Handoff, StoreError> {
    if s.handoff.None? then Err(HandoffReadFailed)
    else
      var h := s.handoff.value;
      if h == DerivedHandoff(s, h.lastRunId, h.updatedAt) && h.nextOrdinal > 0 && h.updatedAt >= s.manifest.updatedAt then
        Ok(h)
      else Err(HandoffInvalid)
  }

  /** `store.complete_campaign`. */
  function CompleteCampaign(s: Control, at: int): Result<Control, StoreError> {
    if s.manifest.status != Running || at < s.manifest.updatedAt then Err(CompletionInvalid)
    else Ok(s.(manifest := s.manifest.(updatedAt := at, status := Completed)))
  }

  /** `store.write_heartbeat`. */
  function WriteHeartbeat(s: Control, h: Heartbeat): Result<Control, StoreError> {
    if s.heartbeat.Some? &&
       (var c := s.heartbeat.value;
        h.runId != c.runId || h.startedAt != c.startedAt || h.heartbeatAt < c.heartbeatAt
        || (h.heartbeatAt == c.heartbeatAt && h != c)) then Err(HeartbeatConflict)
    else Ok(s.(heartbeat := Some(h)))
  }

  /** `store.replace_heartbeat_owner`. */
  function ReplaceOwner(s: Control, current: RunId, replacement: Heartbeat, now: int): Result<Control, StoreError> {
    if replacement.runId == current then Err(TransferInvalid)
    else if s.heartbeat.None? || s.heartbeat.value.runId != current then Err(TransferConflict)
    else if replacement.startedAt != now || replacement.heartbeatAt != now then Err(TransferInvalid)
    else Ok(s.(heartbeat := Some(replacement)))
  }

  // ---------- leases and stale runs ----------

  function Claims(items: Items): set<Item> {
    set k | k in items && items[k].status == Claimed :: items[k]
  }

  predicate LeaseStale(i: Item, now: int)
    requires i.status == Claimed
  {
    i.leaseExpires.value <= now
  }

  datatype StaleRun = PausedRun | NotRunning | MissingHeartbeat | FreshHeartbeat | ActiveLease | InconsistentOwner | StaleOwner

  /** `inspect_stale_run`. */
  function InspectStaleRun(s: Control, now: int): Result<StaleRun, StoreError> {
    var freshness :- InspectHeartbeat(s.heartbeat, now);
    Ok(if s.manifest.status == Paused then PausedRun
       else if s.manifest.status != Running then NotRunning
       else if freshness == Missing then MissingHeartbeat
       else if exists c | c in Claims(s.items) :: c.runId != Some(s.heartbeat.value.runId) then InconsistentOwner
       else if freshness == Fresh then FreshHeartbeat
       else if exists c | c in Claims(s.items) :: !LeaseStale(c, now) then ActiveLease
       else StaleOwner)
  }

  /** `release_stale_claim` (lease_recovery.py): an expired claim becomes retryable. */
  function ReleaseStaleClaim(s: Control, key: Key, runId: RunId, now: int): Result<Control, StoreError> {
    if key !in s.items || s.items[key].status != Claimed || !LeaseStale(s.items[key], now) then Err(RecoveryBlocked)
    else
      var i := s.items[key];
      Append(s, ItemData(i.ordinal, i.key, Retryable, i.attempt, now, Some(runId), None, Some(LeaseExpired), None))
  }

  /** `store.transition_pause_state`. */
  function SetPaused(s: Control, status: CampaignStatus, at: int): Result<Control, StoreError> {
    if status !in {Running, Paused} || at < s.manifest.updatedAt then Err(CompletionInvalid)
    else if s.manifest.status == status then Ok(s)
    else if s.manifest.status !in {Running, Paused} then Err(CompletionInvalid)
    else Ok(s.(manifest := s.manifest.(updatedAt := at, status := status)))
  }

  /** `store.recover_stale_heartbeat`. */
  function RecoverStale(s: Control, stale: RunId, replacement: Heartbeat, now: int): Result<Control, StoreError> {
    if replacement.runId == stale then Err(RecoveryInvalid)
    else
      var run := InspectStaleRun(s, now);
      if run.Err? then Err(RecoveryInvalid)
      else if run.value != StaleOwner || (exists c | c in Claims(s.items) :: LeaseStale(c, now))
              || s.heartbeat.None? || s.heartbeat.value.runId != stale then Err(RecoveryBlocked)
      else if replacement.startedAt != now || replacement.heartbeatAt != now then Err(RecoveryInvalid)
      else Ok(s.(heartbeat := Some(replacement)))
  }

  /** `store.remove_completed_heartbeat`. */
  function RemoveHeartbeat(s: Control, runId: RunId): Result<Control, StoreError> {
    var handoff := ReadHandoff(s);
    if handoff.Err? then Err(RetirementInvalid)
    else if || s.manifest.status != Completed || s.items == map[] || IncompleteItems(s.items) != {}
            || handoff.value.lastRunId != runId || handoff.value.directive != Completed then Err(RetirementBlocked)
    else if s.heartbeat.None? then Ok(s)
    else if s.heartbeat.value.runId != runId then Err(RetirementConflict)
    else Ok(s.(heartbeat := None))
  }
}
