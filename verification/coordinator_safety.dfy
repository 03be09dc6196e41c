/**
  Safety of a campaign under every interleaving of coordinator operations, issued
  by any number of runs with any session value, honest or not.
*/
module CoordinatorSafety {
  import opened Wrappers
  import opened Campaign
  import opened Batching
  import opened BatchCoordinator

  datatype Op =
    | Open(batchId: string, runId: RunId, policy: Policy, clock: int)
    | Reopen(batchId: string, runId: RunId, now: int, policy: Policy)
    | ReopenTransferred(session: Session, batchId: string, runId: RunId, now: int, policy: Policy)
    | Claim(session: Session, usage: Usage, now: int, lease: int)
    | Observe(session: Session, usage: Usage, now: int, attested: bool)
    | Extract(session: Session, usage: Usage, now: int, attested: bool)
    | Commit(session: Session, usage: Usage, now: int, attested: bool, content: Hash)
    | Terminalize(session: Session, ending: ItemStatus, now: int)
    | Release(key: Key, runId: RunId, now: int)
    | Discover(item: Item)
    | Finish(session: Session, usage: Usage, now: int)
    | HandOff(session: Session, usage: Usage, now: int, clock: int)
    | Beat(heartbeat: Heartbeat)
    | Transfer(session: Session, usage: Usage, now: int, heartbeat: Heartbeat)
    | Recover(runId: RunId, heartbeat: Heartbeat, now: int)
    | Pause(status: CampaignStatus, now: int)
    | Complete(session: Session, runId: RunId, now: int, policy: Policy)
    | HandOffCompleted(session: Session, runId: RunId, now: int, clock: int)
    | Retire(session: Session, runId: RunId)

  function Keep<E>(s: Control, r: Result<Control, E>): Control {
    match r case Ok(next) => next case Err(_) => s
  }

  /** `_terminalize_item` (boss_semantic_item_runtime.py): give up the observed first item of a session. */
  function Terminalized(s: Control, session: Session, status: ItemStatus, now: int): Result<Control, StoreError> {
    if session.plan.keys == [] || status !in {Challenge, Retryable} then Err(LedgerInvalid)
    else
      var key := session.plan.keys[0];
      if key !in s.items || s.items[key].status != Observed then Err(LedgerInvalid)
      else
        var i := s.items[key];
        Append(s, ItemData(i.ordinal, i.key, status, i.attempt, now, Some(session.runId), None, Some(OtherBoundary), None))
  }

  /** A discovery append: a new item, never a change of an old one. */
  function NewlyFound(s: Control, item: Item): Result<Control, StoreError> {
    if item.status != Discovered then Err(LedgerInvalid) else Append(s, item)
  }

  /** The record after one operation; a refused operation changes nothing. */
  function Apply(s: Control, op: Op): Control {
    match op
    case Open(batchId, runId, policy, clock) =>
      (match OpenBatch(s, batchId, runId, policy, clock) case Ok(Opened(next, _)) => next case _ => s)
    case Reopen(batchId, runId, now, policy) =>
      (match OpenResumed(s, batchId, runId, now, policy) case Ok(Some((next, _))) => next case _ => s)
    case ReopenTransferred(session, batchId, runId, now, policy) =>
      (match OpenTransferred(s, session, batchId, runId, now, policy) case Ok((next, _)) => next case _ => s)
    case Claim(session, usage, now, lease) => Keep(s, ClaimNext(s, session, usage, now, lease))
    case Observe(session, usage, now, attested) => Keep(s, RecordObserved(s, session, usage, now, attested))
    case Extract(session, usage, now, attested) => Keep(s, RecordExtracted(s, session, usage, now, attested))
    case Commit(session, usage, now, attested, content) =>
      Keep(s, RecordCommitted(s, session, usage, now, attested, content))
    case Terminalize(session, status, now) => Keep(s, Terminalized(s, session, status, now))
    case Release(key, runId, now) => Keep(s, ReleaseStaleClaim(s, key, runId, now))
    case Discover(item) => Keep(s, NewlyFound(s, item))
    case Finish(session, usage, now) =>
      (match FinishBatch(s, session, usage, now) case Ok((next, _)) => next case _ => s)
    case HandOff(session, usage, now, clock) => Keep(s, WriteFinishedHandoff(s, session, usage, now, clock))
    case Beat(heartbeat) => Keep(s, WriteHeartbeat(s, heartbeat))
    case Transfer(session, usage, now, heartbeat) => Keep(s, TransferOwner(s, session, usage, now, heartbeat))
    case Recover(runId, heartbeat, now) => Keep(s, RecoverStale(s, runId, heartbeat, now))
    case Pause(status, now) => Keep(s, SetPaused(s, status, now))
    case Complete(session, runId, now, policy) => Keep(s, CompleteExhausted(s, session, runId, now, policy))
    case HandOffCompleted(session, runId, now, clock) => Keep(s, WriteCompletedHandoff(s, session, runId, now, clock))
    case Retire(session, runId) => Keep(s, RetireHeartbeat(s, session, runId))
  }

  function Execute(s: Control, ops: seq<Op>): Control
    decreases |ops|
  {
    if ops == [] then s else Apply(Execute(s, ops[..|ops| - 1]), ops[|ops| - 1])
  }

  // ---------- what one operation can do to the ledgers ----------

  /** A step leaves both ledgers alone, or appends one transition to one of them. */
  datatype Effect = Aside | OneItem(t: Item) | OneBatch(b: BatchTransition)

  ghost predicate HasEffect(s: Control, next: Control, e: Effect) {
    match e
    case Aside => next.items == s.items && next.history == s.history && next.batches == s.batches
    case OneItem(t) =>
      && Admits(s.items, t) && next.items == Admit(s.items, t) && next.history == s.history + [t]
      && next.batches == s.batches
    case OneBatch(b) =>
      && next.items == s.items && next.history == s.history
      && AdmitsBatch(s.batches, b) && next.batches == s.batches + [b]
  }

  /**
    The permission under which a transition is taken.  Only the least eligible item
    is claimed, for the run of the active batch and with nothing else in flight; an
    item advances one status at a time; a batch finishes with nothing in flight.
  */
  ghost predicate Permitted(s: Control, e: Effect) {
    match e
    case Aside => true
    case OneBatch(b) => b.Finished? ==> InFlightKeys(s.items) == {}
    case OneItem(t) =>
      match t.status
      case Discovered => t.key !in s.items
      case Claimed =>
        && InFlightKeys(s.items) == {}
        && ActiveBatch(s.batches).Some? && t.runId == Some(ActiveBatch(s.batches).value.runId)
        && EligibleItems(s.items) != {} && t.key == Least(EligibleItems(s.items)).key
      case Observed => t.key in s.items && s.items[t.key].status == Claimed && t.runId == s.items[t.key].runId
      case Extracted => t.key in s.items && s.items[t.key].status == Observed && t.runId == s.items[t.key].runId
      case Committed => t.key in s.items && s.items[t.key].status == Extracted && t.runId == s.items[t.key].runId
      case Retryable => t.key in s.items && s.items[t.key].status in {Claimed, Observed}
      case Challenge => t.key in s.items && s.items[t.key].status == Observed
      case _ => false
  }

  /** The transition is the session's own, on its first planned key that is not committed. */
  predicate Targets(s: Control, session: Session, t: Item) {
    NextPlanned(s.items, session) == Some(t.key) && t.runId == Some(session.runId)
  }

  predicate Advances(op: Op) {
    op.Claim? || op.Observe? || op.Extract? || op.Commit?
  }

  predicate Advancing(e: Effect) {
    e.OneItem? && e.t.status in {Claimed, Observed, Extracted, Committed}
  }

  lemma PlanHead(items: Items, p: Policy, u: Usage)
    requires PlanBatch(items, p, u).keys != []
    ensures EligibleItems(items) != {} && PlanBatch(items, p, u).keys[0] == Least(EligibleItems(items)).key
  {
  }

  /** What a ready continuation has established. */
  lemma ReadyMeans(s: Control, session: Session, usage: Usage, now: int)
    requires InspectContinuation(s, session, usage, now).Ok?
    requires InspectContinuation(s, session, usage, now).value.state == Ready
    ensures var c := InspectContinuation(s, session, usage, now).value;
      && c.nextKey.Some? && NextPlanned(s.items, session) == c.nextKey
      && InFlightKeys(s.items) == {}
      && ActiveBatch(s.batches).Some? && ActiveBatch(s.batches).value.runId == session.runId
      && PlanBatch(s.items, session.policy, usage).keys != []
      && PlanBatch(s.items, session.policy, usage).keys[0] == c.nextKey.value
  {
    hide PlanBatch, StopOf, InFlightKeys, CommittedByRun, PrefixLength;
    var c := InspectContinuation(s, session, usage, now).value;
    var n := PrefixLength(s.items, session.plan.keys, session.runId);
    assert session.plan.keys[n..][0] == session.plan.keys[n];
  }

  lemma ClaimEffect(s: Control, session: Session, usage: Usage, now: int, lease: int) returns (t: Item)
    requires ClaimNext(s, session, usage, now, lease).Ok?
    ensures HasEffect(s, ClaimNext(s, session, usage, now, lease).value, OneItem(t))
    ensures Permitted(s, OneItem(t)) && t.status == Claimed && Targets(s, session, t)
  {
    hide InspectContinuation, PlanBatch, InFlightKeys, EligibleItems, Least, NextPlanned;
    ReadyMeans(s, session, usage, now);
    PlanHead(s.items, session.policy, usage);
    var key := InspectContinuation(s, session, usage, now).value.nextKey.value;
    t := ClaimOf(s.items[key], session.runId, now, lease);
  }

  lemma ObserveEffect(s: Control, session: Session, usage: Usage, now: int, attested: bool) returns (t: Item)
    requires RecordObserved(s, session, usage, now, attested).Ok?
    ensures HasEffect(s, RecordObserved(s, session, usage, now, attested).value, OneItem(t))
    ensures Permitted(s, OneItem(t)) && t.status == Observed && Targets(s, session, t)
  {
    var key := NextItem(s, session, usage).value;
    t := Progressed(s.items[key], Observed, session.runId, now, Reobserved, None);
  }

  lemma ExtractEffect(s: Control, session: Session, usage: Usage, now: int, attested: bool) returns (t: Item)
    requires RecordExtracted(s, session, usage, now, attested).Ok?
    ensures HasEffect(s, RecordExtracted(s, session, usage, now, attested).value, OneItem(t))
    ensures Permitted(s, OneItem(t)) && t.status == Extracted && Targets(s, session, t)
  {
    var key := NextItem(s, session, usage).value;
    t := Progressed(s.items[key], Extracted, session.runId, now, ExtractionDone, None);
  }

  lemma CommitEffect(s: Control, session: Session, usage: Usage, now: int, attested: bool, content: Hash) returns (t: Item)
    requires RecordCommitted(s, session, usage, now, attested, content).Ok?
    ensures HasEffect(s, RecordCommitted(s, session, usage, now, attested, content).value, OneItem(t))
    ensures Permitted(s, OneItem(t)) && t.status == Committed && Targets(s, session, t)
  {
    var key := NextItem(s, session, usage).value;
    t := Progressed(s.items[key], Committed, session.runId, now, ResultVerified, Some(content));
  }

  lemma TerminalizeEffect(s: Control, session: Session, status: ItemStatus, now: int) returns (t: Item)
    requires Terminalized(s, session, status, now).Ok?
    ensures HasEffect(s, Terminalized(s, session, status, now).value, OneItem(t))
    ensures Permitted(s, OneItem(t)) && t.status == status
  {
    var i := s.items[session.plan.keys[0]];
    t := ItemData(i.ordinal, i.key, status, i.attempt, now, Some(session.runId), None, Some(OtherBoundary), None);
  }

  lemma ReleaseEffect(s: Control, key: Key, runId: RunId, now: int) returns (t: Item)
    requires ReleaseStaleClaim(s, key, runId, now).Ok?
    ensures HasEffect(s, ReleaseStaleClaim(s, key, runId, now).value, OneItem(t))
    ensures Permitted(s, OneItem(t)) && t.status == Retryable
  {
    var i := s.items[key];
    t := ItemData(i.ordinal, i.key, Retryable, i.attempt, now, Some(runId), None, Some(LeaseExpired), None);
  }

  lemma FinishEffect(s: Control, session: Session, usage: Usage, now: int)
    requires FinishBatch(s, session, usage, now).Ok?
    ensures var (next, code) := FinishBatch(s, session, usage, now).value;
      var b := Finished(session.batchId, session.runId, now, code, usage);
      HasEffect(s, next, OneBatch(b)) && Permitted(s, OneBatch(b))
  {
    hide PlanBatch, StopOf, InFlightKeys, CommittedByRun, PrefixLength;
  }

  lemma OpenEffect(s: Control, batchId: string, runId: RunId, policy: Policy, clock: int)
    ensures var next := Apply(s, Open(batchId, runId, policy, clock));
      next == s || HasEffect(s, next, OneBatch(Started(batchId, runId, clock)))
  {
    hide PlanBatch;
  }

  lemma ReopenEffect(s: Control, batchId: string, runId: RunId, now: int, policy: Policy)
    ensures var next := OpenResumed(s, batchId, runId, now, policy);
      next.Ok? && next.value.Some? ==> HasEffect(s, next.value.value.0, OneBatch(Started(batchId, runId, now)))
  {
    hide PlanResume;
  }

  lemma ReopenTransferredEffect(s: Control, session: Session, batchId: string, runId: RunId, now: int, policy: Policy)
    ensures var next := OpenTransferred(s, session, batchId, runId, now, policy);
      next.Ok? ==> HasEffect(s, next.value.0, OneBatch(Started(batchId, runId, now)))
  {
    hide InspectTransferred, OpenResumed, HasEffect;
    ReopenEffect(s, batchId, runId, now, policy);
  }

  /** Operations on the manifest, the heartbeat and the handoff. */
  predicate Sideways(op: Op) {
    op.HandOff? || op.Beat? || op.Transfer? || op.Recover? || op.Pause? || op.Complete? || op.HandOffCompleted? || op.Retire?
  }

  lemma SidewaysEffect(s: Control, op: Op)
    requires Sideways(op)
    ensures HasEffect(s, Apply(s, op), Aside)
  {
    hide InspectFinished, InspectTransfer, InspectExhausted, InspectCompletedHandoff, InspectRetirement, InspectStaleRun,
      ReadHandoff, DerivedHandoff, IncompleteItems, Claims;
  }

  /** No new item, and no item lost to a challenge. */
  predicate WithinPlan(e: Effect) {
    e.OneItem? ==> e.t.status !in {Discovered, Challenge}
  }

  predicate Ordinary(op: Op) {
    !op.Discover? && (op.Terminalize? ==> op.ending != Challenge)
  }

  lemma AsideEffect(s: Control)
    ensures HasEffect(s, s, Aside) && Permitted(s, Aside)
  {
  }

  lemma StartedPermitted(s: Control, batchId: string, runId: RunId, at: int)
    ensures Permitted(s, OneBatch(Started(batchId, runId, at)))
  {
  }

  /** Whatever an operation does, it is one permitted effect. */
  lemma ApplyEffect(s: Control, op: Op) returns (e: Effect)
    ensures HasEffect(s, Apply(s, op), e) && Permitted(s, e)
    ensures Ordinary(op) ==> WithinPlan(e)
    ensures Advancing(e) ==> Advances(op) && Targets(s, op.session, e.t)
  {
    if Advances(op) {
      e := AdvanceEffect(s, op);
    } else if op.Open? || op.Reopen? || op.ReopenTransferred? {
      e := OpeningEffect(s, op);
    } else {
      e := OtherEffect(s, op);
    }
  }

  lemma AdvanceEffect(s: Control, op: Op) returns (e: Effect)
    requires Advances(op)
    ensures HasEffect(s, Apply(s, op), e) && Permitted(s, e) && WithinPlan(e)
    ensures Advancing(e) ==> Targets(s, op.session, e.t)
  {
    hide ClaimNext, RecordObserved, RecordExtracted, RecordCommitted, HasEffect, Permitted, Targets;
    AsideEffect(s);
    e := Aside;
    match op
    case Claim(session, usage, now, lease) =>
      if ClaimNext(s, session, usage, now, lease).Ok? {
        var t := ClaimEffect(s, session, usage, now, lease);
        e := OneItem(t);
      }
    case Observe(session, usage, now, attested) =>
      if RecordObserved(s, session, usage, now, attested).Ok? {
        var t := ObserveEffect(s, session, usage, now, attested);
        e := OneItem(t);
      }
    case Extract(session, usage, now, attested) =>
      if RecordExtracted(s, session, usage, now, attested).Ok? {
        var t := ExtractEffect(s, session, usage, now, attested);
        e := OneItem(t);
      }
    case Commit(session, usage, now, attested, content) =>
      if RecordCommitted(s, session, usage, now, attested, content).Ok? {
        var t := CommitEffect(s, session, usage, now, attested, content);
        e := OneItem(t);
      }
  }

  lemma OpeningEffect(s: Control, op: Op) returns (e: Effect)
    requires op.Open? || op.Reopen? || op.ReopenTransferred?
    ensures HasEffect(s, Apply(s, op), e) && Permitted(s, e) && !e.OneItem?
  {
    hide OpenResumed, OpenTransferred, HasEffect, Permitted;
    AsideEffect(s);
    e := Aside;
    match op
    case Open(batchId, runId, policy, clock) =>
      OpenEffect(s, batchId, runId, policy, clock);
      StartedPermitted(s, batchId, runId, clock);
      if Apply(s, op) != s {
        e := OneBatch(Started(batchId, runId, clock));
      }
    case Reopen(batchId, runId, now, policy) =>
      ReopenEffect(s, batchId, runId, now, policy);
      StartedPermitted(s, batchId, runId, now);
      if Apply(s, op) != s {
        e := OneBatch(Started(batchId, runId, now));
      }
    case ReopenTransferred(session, batchId, runId, now, policy) =>
      ReopenTransferredEffect(s, session, batchId, runId, now, policy);
      StartedPermitted(s, batchId, runId, now);
      if Apply(s, op) != s {
        e := OneBatch(Started(batchId, runId, now));
      }
  }

  lemma DiscoverEffect(s: Control, item: Item)
    requires NewlyFound(s, item).Ok?
    ensures HasEffect(s, NewlyFound(s, item).value, OneItem(item))
    ensures Permitted(s, OneItem(item)) && item.status == Discovered
  {
  }

  lemma OtherEffect(s: Control, op: Op) returns (e: Effect)
    requires !Advances(op) && !(op.Open? || op.Reopen? || op.ReopenTransferred?)
    ensures HasEffect(s, Apply(s, op), e) && Permitted(s, e)
    ensures Ordinary(op) ==> WithinPlan(e)
    ensures !Advancing(e)
  {
    hide Terminalized, ReleaseStaleClaim, NewlyFound, FinishBatch, HasEffect, Permitted;
    AsideEffect(s);
    e := Aside;
    match op
    case Terminalize(session, status, now) =>
      if Terminalized(s, session, status, now).Ok? {
        TerminalStatus(s, session, status, now);
        var t := TerminalizeEffect(s, session, status, now);
        e := OneItem(t);
      }
    case Release(key, runId, now) =>
      if ReleaseStaleClaim(s, key, runId, now).Ok? {
        var t := ReleaseEffect(s, key, runId, now);
        e := OneItem(t);
      }
    case Discover(item) =>
      if NewlyFound(s, item).Ok? {
        DiscoverEffect(s, item);
        e := OneItem(item);
      }
    case Finish(session, usage, now) =>
      if FinishBatch(s, session, usage, now).Ok? {
        FinishEffect(s, session, usage, now);
        e := OneBatch(Finished(session.batchId, session.runId, now, FinishBatch(s, session, usage, now).value.1, usage));
      }
    case _ =>
      hide Apply;
      SidewaysEffect(s, op);
  }

  lemma TerminalStatus(s: Control, session: Session, status: ItemStatus, now: int)
    requires Terminalized(s, session, status, now).Ok?
    ensures status in {Challenge, Retryable}
  {
    hide Append;
  }

  // ---------- the invariant ----------

  /** At most one item is in flight; it belongs to the run of the active batch. */
  ghost predicate OneInFlight(s: Control) {
    && (forall k, l | k in InFlightKeys(s.items) && l in InFlightKeys(s.items) :: k == l)
    && (forall k | k in InFlightKeys(s.items) ::
          ActiveBatch(s.batches).Some? && s.items[k].runId == Some(ActiveBatch(s.batches).value.runId))
  }

  /** A committed item stays committed, and the ledger commits it once. */
  ghost predicate CommittedOnce(s: Control) {
    && (forall i | 0 <= i < |s.history| && s.history[i].status == Committed ::
          s.history[i].key in s.items && s.items[s.history[i].key] == s.history[i])
    && (forall i, j | 0 <= i < j < |s.history| && s.history[i].status == Committed && s.history[j].status == Committed ::
          s.history[i].key != s.history[j].key)
  }

  /** Reading both ledgers back yields the projections the operations work on. */
  ghost predicate Replayable(s: Control) {
    FoldItems(s.history) == Ok(s.items) && BatchesAccepted(s.batches)
  }

  ghost predicate Safe(s: Control) {
    OneInFlight(s) && CommittedOnce(s) && Replayable(s)
  }

  lemma ItemStepInFlight(s: Control, next: Control, t: Item)
    requires OneInFlight(s) && HasEffect(s, next, OneItem(t)) && Permitted(s, OneItem(t))
    ensures OneInFlight(next)
  {
    assert forall k | k in InFlightKeys(next.items) && k != t.key :: k in InFlightKeys(s.items);
    if t.status in {Observed, Extracted, Committed, Retryable} {
      assert t.key in InFlightKeys(s.items);
    }
  }

  lemma ItemStepCommitted(s: Control, next: Control, t: Item)
    requires CommittedOnce(s) && HasEffect(s, next, OneItem(t)) && Permitted(s, OneItem(t))
    ensures CommittedOnce(next)
  {
    assert next.history[|s.history|] == t;
  }

  lemma ItemStepReplayable(s: Control, next: Control, t: Item)
    requires Replayable(s) && HasEffect(s, next, OneItem(t))
    ensures Replayable(next)
  {
    assert next.history[..|next.history| - 1] == s.history;
  }

  lemma BatchStepSafe(s: Control, next: Control, b: BatchTransition)
    requires Safe(s) && HasEffect(s, next, OneBatch(b)) && Permitted(s, OneBatch(b))
    ensures Safe(next)
  {
    assert next.batches[..|next.batches| - 1] == s.batches;
  }

  lemma StepSafe(s: Control, next: Control, e: Effect)
    requires Safe(s) && HasEffect(s, next, e) && Permitted(s, e)
    ensures Safe(next)
  {
    match e
    case Aside =>
    case OneBatch(b) => BatchStepSafe(s, next, b);
    case OneItem(t) =>
      ItemStepInFlight(s, next, t);
      ItemStepCommitted(s, next, t);
      ItemStepReplayable(s, next, t);
  }

  /** At every point of every interleaving the invariant holds; `ApplyEffect` says which step may follow. */
  lemma {:induction false} ExecuteSafe(s: Control, ops: seq<Op>)
    requires Safe(s)
    ensures Safe(Execute(s, ops))
    decreases |ops|
  {
    if ops != [] {
      var front := ops[..|ops| - 1];
      ExecuteSafe(s, front);
      var e := ApplyEffect(Execute(s, front), ops[|ops| - 1]);
      StepSafe(Execute(s, front), Execute(s, ops), e);
    }
  }

  // ---------- where runs start ----------

  /** A ledger of discoveries only, before any batch, is safe. */
  lemma UnstartedSafe(s: Control)
    requires s.batches == [] && FoldItems(s.history) == Ok(s.items)
    requires forall i | 0 <= i < |s.history| :: s.history[i].status == Discovered
    requires forall k | k in s.items :: s.items[k].status == Discovered
    ensures Safe(s)
  {
    hide FoldItems;
  }

  /** From the creation of a campaign on, whatever is discovered and whoever operates. */
  lemma CampaignSafe(m: Manifest, ops: seq<Op>)
    ensures Safe(Execute(Empty(m), ops))
  {
    UnstartedSafe(Empty(m));
    hide Safe;
    ExecuteSafe(Empty(m), ops);
  }
}
