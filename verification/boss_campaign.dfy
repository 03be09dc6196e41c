/**
  The BOSS runtimes: the start of a batch from discovery state
  (boss_campaign_batch_runtime.py), the sessions rebuilt from durable records after
  a claim (boss_campaign_item_runtime.py) and after a finish
  (boss_campaign_restart_runtime.py), the execution of a claimed identity, and the
  restart.

  The error names of the application runtime are shared; a batch id stands for a
  digest of the run id and is taken to be injective.
*/
module BossCampaign {
  import opened Wrappers
  import opened Campaign
  import opened Batching
  import opened BatchCoordinator
  import opened ApplicationCampaign
  import Discovery

  const BOSS_BATCH_POLICY: Policy := DEFAULT_POLICY.(maxItems := 20, maxToolCalls := 1)
  const BOSS_SEMANTIC_POLICY: Policy := DEFAULT_POLICY.(
    maxItems := 1, maxProviderTurns := 5, maxToolCalls := 5, maxScreenshots := 2, maxOcrRegions := 1,
    maxConsecutiveFailures := 1)
  const MIN_DISCOVERY_PASSES := 2
  const KEY_PREFIX := "boss:job:"

  function StartedBatchId(runId: RunId): string {
    "boss_batch_" + runId
  }

  function ResumedBatchId(runId: RunId): string {
    "boss_resume_" + runId
  }

  predicate ContractMatches(m: Manifest, c: Discovery.Contract) {
    m.kind == c.kind && m.policyDigest == c.policyDigest && m.schemaDigest == c.schemaDigest
  }

  // ---------- start ----------

  function AllItems(items: Items): (s: set<Item>)
    ensures DistinctKeys(s)
  {
    set k | k in items :: items[k]
  }

  /** Everything `_start_boss_batch` checks before its first write. */
  predicate StartAccepted(s: Control, c: Discovery.Contract, now: int) {
    var inspected := Discovery.Inspect(s, c, now);
    var ordered := Sorted(AllItems(s.items));
    && inspected.Ok?
    && inspected.value.passes >= MIN_DISCOVERY_PASSES && inspected.value.discovered > 0
    && Discovery.TotalNew(s.passes) == inspected.value.discovered
    && (forall i | 0 <= i < |ordered| :: ordered[i].ordinal == i + 1)
    && (forall k | k in s.items :: s.items[k].status == Discovered && KEY_PREFIX <= k)
    && s.batches == [] && s.heartbeat.None? && s.handoff.None?
  }

  /** `_start_boss_batch`; the result is the claim. */
  function StartBoss(s: Control, c: Discovery.Contract, policy: Policy, runId: RunId, now: int, clock: int): Attempt<Item> {
    if !StartAccepted(s, c, now) then Attempt(s, Err(StateInvalid))
    else
      match WriteHeartbeat(s, LeasedHeartbeat(runId, now))
      case Err(_) => Attempt(s, Err(StateInvalid))
      case Ok(s1) =>
        match OpenBatch(s1, StartedBatchId(runId), runId, policy, clock)
        case Err(_) => Attempt(s1, Err(StateInvalid))
        case Ok(NotOpened(plan)) => Attempt(s1, Err(if plan.stop.Some? then StartBlocked(plan.stop.value) else StartInvalid))
        case Ok(Opened(s2, session)) =>
          match ClaimNext(s2, session, NO_USAGE, now, ITEM_LEASE_SECONDS)
          case Err(_) => Attempt(s2, Err(StateInvalid))
          case Ok(s3) =>
            var claimed := LastItem(s3);
            if session.plan.keys != [] && ClaimedAs(claimed, session.plan.keys[0], runId) && claimed.value.ordinal == 1 then
              Attempt(s3, Ok(claimed.value))
            else Attempt(s3, Err(ClaimInvalid))
  }

  // ---------- sessions rebuilt from durable records ----------

  /** The selected item and the eligible items not before it. */
  function Tail(items: Items, selected: Item): (s: set<Item>)
    ensures DistinctKeys(s)
  {
    set k | k in items && items[k].ordinal >= selected.ordinal && (items[k] == selected || Eligible(items[k])) :: items[k]
  }

  function TailPlan(items: Items, selected: Item, policy: Policy): seq<Key> {
    Keys(Take(Sorted(Tail(items, selected)), policy.maxItems))
  }

  /** `_claimed_boss_session`. */
  function ClaimedBossSession(s: Control, c: Discovery.Contract, runId: RunId): Result<ClaimedSession, RuntimeError> {
    var active := ActiveBatch(s.batches);
    var claimed := ClaimsBy(s.items, runId);
    if |claimed| != 1 then Err(ClaimInvalid)
    else
      var selected := s.items[TheOnly(claimed)];
      var tail := TailPlan(s.items, selected, BOSS_BATCH_POLICY);
      if || !ContractMatches(s.manifest, c) || s.manifest.status != Running
         || active.None? || active.value.runId != runId
         || s.heartbeat.None? || s.heartbeat.value.runId != runId
         || tail == [] || tail[0] != selected.key then Err(ClaimInvalid)
      else Ok(ClaimedSession(Session(active.value.batchId, runId, BOSS_BATCH_POLICY, Plan(tail, None)),
                             selected.ordinal, selected.key))
  }

  /** The usage a finished batch must show, for the identity and for the semantic policy. */
  predicate UsageFits(u: Usage, policy: Policy, semantic: bool) {
    && u.itemsCompleted == 1
    && (if semantic then
          && 1 <= u.toolCalls <= policy.maxToolCalls && 1 <= u.providerTurns <= policy.maxProviderTurns
          && u.screenshots <= policy.maxScreenshots && u.ocrRegions <= policy.maxOcrRegions
        else u.toolCalls == 1 && u.providerTurns == 0)
  }

  /** `_finished_boss_session`. */
  function FinishedBossSession(s: Control, c: Discovery.Contract, policy: Policy, semantic: bool): Result<FinishedSession, RuntimeError> {
    var n := |s.batches|;
    var handoff := ReadHandoff(s);
    if handoff.Err? then Err(ResumeStateInvalid)
    else if || !ContractMatches(s.manifest, c) || s.manifest.status != Running
            || ActiveBatch(s.batches).Some? || n < 2
            || !s.batches[n - 2].Started? || !s.batches[n - 1].Finished? then Err(ResumeStateInvalid)
    else
      var started, finished := s.batches[n - 2], s.batches[n - 1];
      var committed := CommittedByRun(s.items, finished.runId);
      var stop := StopOf(policy, finished.usage);
      if || started.batchId != finished.batchId || started.runId != finished.runId
         || stop.None? || finished.code != Stopped(stop.value)
         || !UsageFits(finished.usage, policy, semantic)
         || |committed| != 1
         || handoff.value.lastRunId != finished.runId
         || handoff.value.completed != CountStatus(s.items, Committed)
         || handoff.value.nextOrdinal != NextOrdinal(s.items)
         || handoff.value.directive != Running
         || s.heartbeat.None? || s.heartbeat.value.runId != finished.runId then Err(ResumeStateInvalid)
      else
        var selected := s.items[TheOnly(committed)];
        var tail := TailPlan(s.items, selected, policy);
        if tail == [] || tail[0] != selected.key then Err(ResumeStateInvalid)
        else Ok(FinishedSession(Session(finished.batchId, finished.runId, policy, Plan(tail, None)),
                                finished.usage, handoff.value, NextOrdinal(s.items)))
  }

  // ---------- execute ----------

  /** What the observation of a claimed identity reports: a failure, or the presence of the item and the budgets used. */
  datatype BossWork =
    | BossLost(code: string)
    | BossSeen(content: Hash, elapsed: nat, providerTurns: nat, toolCalls: nat, inputTokens: nat)

  function BossUsage(work: BossWork): Usage
    requires work.BossSeen?
  {
    Usage(1, work.elapsed, work.providerTurns, work.toolCalls, work.inputTokens, 0, 0, 0, 0)
  }

  /** `inspect_next_claimed_item`. */
  function InspectNextClaimed(s: Control, session: Session, usage: Usage, now: int): Outcome<(Verdict, Key)> {
    var key :- NextItem(s, session, usage);
    var verdict :- InspectClaimed(s, session, key, now);
    Ok((verdict, key))
  }

  /** Finish and handoff of `_execute_prepared_claimed_boss_identity`, with its closing checks. */
  function HandOffBoss(s: Control, session: Session, usage: Usage, now: int, clock: int, ordinal: int, content: Hash): Attempt<StopCode> {
    var committed := LastItem(s);
    if committed.None? || committed.value.status != Committed || committed.value.content != Some(content) then Attempt(s, Err(CommitInvalid))
    else
      match FinishBatch(s, session, usage, now)
      case Err(_) => Attempt(s, Err(CommitFailed))
      case Ok((s1, code)) =>
        match WriteFinishedHandoff(s1, session, usage, now, clock)
        case Err(_) => Attempt(s1, Err(CommitFailed))
        case Ok(s2) =>
          if || code != Stopped(ToolCallLimit) || s2.handoff.None? || s2.handoff.value.lastRunId != session.runId
             || s2.handoff.value.completed != CountStatus(s2.items, Committed)
             || s2.handoff.value.nextOrdinal != ordinal + 1 then Attempt(s2, Err(RuntimeError.HandoffInvalid))
          else Attempt(s2, Ok(code))
  }

  /** `_execute_prepared_claimed_boss_identity`, with nothing else writing while it observes. */
  function ExecuteBoss(s: Control, c: Discovery.Contract, runId: RunId, now: int, clock: int, work: BossWork): Attempt<StopCode> {
    match ClaimedBossSession(s, c, runId)
    case Err(error) => Attempt(s, Err(error))
    case Ok(claim) =>
      match InspectNextClaimed(s, claim.session, NO_USAGE, now)
      case Err(_) => Attempt(s, Err(CommitFailed))
      case Ok((verdict, key)) =>
        if verdict != Ready || key != claim.key then Attempt(s, Err(ClaimDrift))
        else if work.BossLost? then Attempt(s, Err(RunFailed(work.code)))
        else
          match RecordObserved(s, claim.session, NO_USAGE, now, true)
          case Err(_) => Attempt(s, Err(CommitFailed))
          case Ok(s1) =>
            match RecordExtracted(s1, claim.session, NO_USAGE, now, true)
            case Err(_) => Attempt(s1, Err(CommitFailed))
            case Ok(s2) =>
              match RecordCommitted(s2, claim.session, NO_USAGE, now, true, work.content)
              case Err(_) => Attempt(s2, Err(CommitFailed))
              case Ok(s3) => HandOffBoss(s3, claim.session, BossUsage(work), now, clock, claim.ordinal, work.content)
  }

  // ---------- restart ----------

  /** `_resume_finished_boss_batch_after_restart`; there is no completion path. */
  function ResumeBoss(s: Control, c: Discovery.Contract, policy: Policy, semantic: bool, runId: RunId, now: int): Attempt<Item> {
    match FinishedBossSession(s, c, policy, semantic)
    case Err(error) => Attempt(s, Err(error))
    case Ok(finished) =>
      var replacement := LeasedHeartbeat(runId, now);
      match TakeOver(s, finished.session, finished.usage, now, replacement)
      case Err(error) => Attempt(s, Err(error))
      case Ok(s1) =>
        match InspectTransferred(s1, finished.session, runId, now, policy)
        case Err(_) => Attempt(s1, Err(ResumeFailed))
        case Ok(resume) =>
          if || s1.heartbeat != Some(replacement) || resume.state != Ready || resume.keys == []
             || resume.nextOrdinal != finished.nextOrdinal then Attempt(s1, Err(ResumeEvidenceInvalid))
          else
            match OpenTransferred(s1, finished.session, ResumedBatchId(runId), runId, now, policy)
            case Err(_) => Attempt(s1, Err(ResumeFailed))
            case Ok((s2, session)) =>
              match ClaimNext(s2, session, NO_USAGE, now, ITEM_LEASE_SECONDS)
              case Err(_) => Attempt(s2, Err(ResumeFailed))
              case Ok(s3) =>
                var claimed := LastItem(s3);
                if ClaimedAs(claimed, resume.keys[0], runId) && claimed.value.ordinal == finished.nextOrdinal then
                  Attempt(s3, Ok(claimed.value))
                else Attempt(s3, Err(ClaimInvalid))
  }
}
