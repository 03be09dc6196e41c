/**
  The rounds of application_campaign_runtime.py with the one-item policy, as
  functions of the campaign record.  Each round stops at its first error and keeps
  what it had written until then.

  The application run itself is a parameter (`Work`); `now` is the caller's time and
  `clock` the time the store writes records with.  `BatchId` stands for a digest of
  scenario and run and is taken to be injective.
*/
module ApplicationCampaign {
  import opened Wrappers
  import opened Campaign
  import opened Batching
  import opened BatchCoordinator

  const ITEM_LEASE_SECONDS := 5 * 60
  const ONE_ITEM_POLICY: Policy := DEFAULT_POLICY.(maxItems := 1)

  /** A reviewed worker: what its manifest must carry. */
  datatype Spec = Spec(kind: string, policyDigest: Hash, schemaDigest: Hash)

  datatype RuntimeError =
    | InputInvalid | StateInvalid | StartBlocked(reason: StopReason) | StartInvalid | StartFailed
    | ClaimInvalid | ClaimDrift | RunFailed(code: string)
    | CommitInvalid | HandoffInvalid | CommitFailed
    | ResumeStateInvalid | ResumeHeartbeatInvalid | CompletionEvidenceInvalid
    | ResumeEvidenceInvalid | ResumeFailed

  datatype Attempt<+T> = Attempt(control: Control, result: Result<T, RuntimeError>)

  function BatchId(runId: RunId): string {
    "app_batch_" + runId
  }

  predicate SpecMatches(m: Manifest, spec: Spec) {
    m.kind == spec.kind && m.policyDigest == spec.policyDigest && m.schemaDigest == spec.schemaDigest
  }

  function LeasedHeartbeat(runId: RunId, now: int): Heartbeat {
    Heartbeat(runId, now, now, now + ITEM_LEASE_SECONDS)
  }

  /** The claim a coordinator method has just appended. */
  function LastItem(s: Control): Option<Item> {
    if s.history == [] then None else Some(s.history[|s.history| - 1])
  }

  predicate ClaimedAs(t: Option<Item>, key: Key, runId: RunId) {
    t.Some? && t.value.status == Claimed && t.value.key == key && t.value.runId == Some(runId) && t.value.leaseExpires.Some?
  }

  // ---------- start ----------

  predicate Startable(s: Control, spec: Spec) {
    && SpecMatches(s.manifest, spec) && s.manifest.status == Running
    && s.items != map[] && (forall k | k in s.items :: Eligible(s.items[k]))
    && s.batches == [] && s.heartbeat.None? && s.handoff.None?
  }

  /** `start_application_campaign_batch`; the result is the claim. */
  function Start(s: Control, spec: Spec, runId: RunId, now: int, clock: int): Attempt<Item> {
    if !Startable(s, spec) then Attempt(s, Err(StateInvalid))
    else
      match WriteHeartbeat(s, LeasedHeartbeat(runId, now))
      case Err(_) => Attempt(s, Err(StartFailed))
      case Ok(s1) =>
        match OpenBatch(s1, BatchId(runId), runId, ONE_ITEM_POLICY, clock)
        case Err(_) => Attempt(s1, Err(StartFailed))
        case Ok(NotOpened(plan)) => Attempt(s1, Err(if plan.stop.Some? then StartBlocked(plan.stop.value) else StartInvalid))
        case Ok(Opened(s2, session)) =>
          match ClaimNext(s2, session, NO_USAGE, now, ITEM_LEASE_SECONDS)
          case Err(_) => Attempt(s2, Err(StartFailed))
          case Ok(s3) =>
            var claimed := LastItem(s3);
            if session.plan.keys != [] && ClaimedAs(claimed, session.plan.keys[0], runId) then Attempt(s3, Ok(claimed.value))
            else Attempt(s3, Err(ClaimInvalid))
  }

  // ---------- execute ----------

  datatype Event = ModelTurn(outputTokens: Option<int>) | ToolCall(tool: Option<string>) | OtherEvent

  /** What a run reports: its event log and the budgets it used. */
  datatype Report = Report(events: seq<Event>, elapsed: nat, modelTurns: nat, toolCalls: nat, inputTokens: nat)

  function OutputTokens(events: seq<Event>): nat {
    if events == [] then 0
    else
      var e := events[|events| - 1];
      OutputTokens(events[..|events| - 1]) + (if e.ModelTurn? && e.outputTokens.Some? && e.outputTokens.value >= 0 then e.outputTokens.value else 0)
  }

  function CallsOf(events: seq<Event>, tools: set<string>): nat {
    if events == [] then 0
    else
      var e := events[|events| - 1];
      CallsOf(events[..|events| - 1], tools) + (if e.ToolCall? && e.tool.Some? && e.tool.value in tools then 1 else 0)
  }

  const SCREENSHOT_TOOLS := {"screenshot", "capture_region"}
  const OCR_TOOLS := {"ocr"}

  function UsageOf(report: Report): Usage {
    Usage(1, report.elapsed, report.modelTurns, report.toolCalls, report.inputTokens,
          OutputTokens(report.events), CallsOf(report.events, SCREENSHOT_TOOLS), CallsOf(report.events, OCR_TOOLS), 0)
  }

  /** `_measured_usage`. */
  method MeasureUsage(report: Report) returns (usage: Usage)
    ensures usage == UsageOf(report)
  {
    var outputTokens, screenshots, ocrRegions: nat := 0, 0, 0;
    for i := 0 to |report.events|
      invariant outputTokens == OutputTokens(report.events[..i])
      invariant screenshots == CallsOf(report.events[..i], SCREENSHOT_TOOLS)
      invariant ocrRegions == CallsOf(report.events[..i], OCR_TOOLS)
    {
      assert report.events[..i + 1][..i] == report.events[..i];
      match report.events[i]
      case ModelTurn(Some(tokens)) =>
        if tokens >= 0 {
          outputTokens := outputTokens + tokens;
        }
      case ToolCall(Some(tool)) =>
        if tool in SCREENSHOT_TOOLS {
          screenshots := screenshots + 1;
        } else if tool in OCR_TOOLS {
          ocrRegions := ocrRegions + 1;
        }
      case _ =>
    }
    assert report.events[..|report.events|] == report.events;
    usage := Usage(1, report.elapsed, report.modelTurns, report.toolCalls, report.inputTokens,
                   outputTokens, screenshots, ocrRegions, 0);
  }

  datatype Work =
    | Failed(code: string)
    | Extraction(applicationVerified: bool, identityVerified: bool, content: Hash, report: Report)

  datatype ClaimedSession = ClaimedSession(session: Session, ordinal: int, key: Key)

  function ClaimsBy(items: Items, runId: RunId): set<Key> {
    set k | k in items && items[k].status == Claimed && items[k].runId == Some(runId)
  }

  /** `_claimed_application_session`: the session, rebuilt from the durable records. */
  function ClaimedApplicationSession(s: Control, spec: Spec, runId: RunId): Result<ClaimedSession, RuntimeError> {
    var active := ActiveBatch(s.batches);
    var claimed := ClaimsBy(s.items, runId);
    if || !SpecMatches(s.manifest, spec) || s.manifest.status != Running
       || active.None? || active.value.runId != runId
       || s.heartbeat.None? || s.heartbeat.value.runId != runId
       || |claimed| != 1 then Err(ClaimInvalid)
    else
      var selected := s.items[TheOnly(claimed)];
      Ok(ClaimedSession(Session(active.value.batchId, runId, ONE_ITEM_POLICY, Plan([selected.key], None)),
                        selected.ordinal, selected.key))
  }

  lemma SingletonUnique<T>(s: set<T>, x: T, y: T)
    requires |s| == 1 && x in s && y in s
    ensures x == y
  {
    var rest := s - {x};
    assert |rest| == 0;
    assert y !in rest;
  }

  function TheOnly<T(!new)>(s: set<T>): (x: T)
    requires |s| == 1
    ensures s == {x}
  {
    assert forall x, y | x in s && y in s :: x == y by {
      forall x, y | x in s && y in s
        ensures x == y
      {
        SingletonUnique(s, x, y);
      }
    }
    assert s != {};
    var x :| x in s;
    x
  }

  /** The durable half of `execute_claimed_application_item`, after the run has reported. */
  function CommitWork(s: Control, spec: Spec, runId: RunId, now: int, clock: int, ordinal: int, key: Key, work: Work): Attempt<StopCode>
    requires work.Extraction?
  {
    var usage := UsageOf(work.report);
    match ClaimedApplicationSession(s, spec, runId)
    case Err(error) => Attempt(s, Err(error))
    case Ok(current) =>
      if current.ordinal != ordinal || current.key != key then Attempt(s, Err(ClaimDrift))
      else
        match RecordObserved(s, current.session, NO_USAGE, now, work.applicationVerified && work.identityVerified)
        case Err(_) => Attempt(s, Err(CommitFailed))
        case Ok(s1) =>
          match RecordExtracted(s1, current.session, NO_USAGE, now, true)
          case Err(_) => Attempt(s1, Err(CommitFailed))
          case Ok(s2) =>
            match RecordCommitted(s2, current.session, NO_USAGE, now, true, work.content)
            case Err(_) => Attempt(s2, Err(CommitFailed))
            case Ok(s3) => HandOffWork(s3, current.session, usage, now, clock, runId, work.content)
  }

  function HandOffWork(s: Control, session: Session, usage: Usage, now: int, clock: int, runId: RunId, content: Hash): Attempt<StopCode> {
    var committed := LastItem(s);
    if committed.None? || committed.value.status != Committed || committed.value.content != Some(content) then Attempt(s, Err(CommitInvalid))
    else
      match FinishBatch(s, session, usage, now)
      case Err(_) => Attempt(s, Err(CommitFailed))
      case Ok((s1, code)) =>
        match WriteFinishedHandoff(s1, session, usage, now, clock)
        case Err(_) => Attempt(s1, Err(CommitFailed))
        case Ok(s2) =>
          if code != Stopped(ItemLimit) || s2.handoff.None? || s2.handoff.value.lastRunId != runId then Attempt(s2, Err(RuntimeError.HandoffInvalid))
          else Attempt(s2, Ok(code))
  }

  /** `execute_claimed_application_item`, with nothing else writing while the run works. */
  function Execute(s: Control, spec: Spec, runId: RunId, now: int, clock: int, work: Work): Attempt<StopCode> {
    match ClaimedApplicationSession(s, spec, runId)
    case Err(error) => Attempt(s, Err(error))
    case Ok(claim) =>
      if work.Failed? then Attempt(s, Err(RunFailed(work.code)))
      else CommitWork(s, spec, runId, now, clock, claim.ordinal, claim.key, work)
  }

  // ---------- resume ----------

  datatype FinishedSession = FinishedSession(session: Session, usage: Usage, handoff: Handoff, nextOrdinal: int)

  /** `_finished_application_session`: the finished session, rebuilt from the durable records. */
  function FinishedApplicationSession(s: Control, spec: Spec): Result<FinishedSession, RuntimeError> {
    var n := |s.batches|;
    var handoff := ReadHandoff(s);
    if handoff.Err? then Err(ResumeFailed)
    else if || !SpecMatches(s.manifest, spec) || s.manifest.status != Running
            || ActiveBatch(s.batches).Some? || n < 2
            || !s.batches[n - 2].Started? || !s.batches[n - 1].Finished? then Err(ResumeStateInvalid)
    else
      var started, finished := s.batches[n - 2], s.batches[n - 1];
      var committed := CommittedByRun(s.items, finished.runId);
      if || started.batchId != finished.batchId || started.runId != finished.runId
         || finished.code != Stopped(ItemLimit) || finished.usage.itemsCompleted != 1
         || |committed| != 1
         || handoff.value.lastRunId != finished.runId
         || handoff.value.completed != CountStatus(s.items, Committed)
         || handoff.value.nextOrdinal != NextOrdinal(s.items)
         || handoff.value.directive != Running
         || s.heartbeat.None? || s.heartbeat.value.runId != finished.runId then Err(ResumeStateInvalid)
      else
        var selected := s.items[TheOnly(committed)];
        Ok(FinishedSession(Session(finished.batchId, finished.runId, ONE_ITEM_POLICY, Plan([selected.key], None)),
                           finished.usage, handoff.value, NextOrdinal(s.items)))
  }

  /** The change of owner: recovery of a stale heartbeat, or transfer of a fresh one. */
  function TakeOver(s: Control, session: Session, usage: Usage, now: int, replacement: Heartbeat): Result<Control, RuntimeError> {
    match InspectStaleRun(s, now)
    case Ok(StaleOwner) =>
      (match RecoverStale(s, session.runId, replacement, now) case Ok(next) => Ok(next) case Err(_) => Err(ResumeFailed))
    case Ok(FreshHeartbeat) =>
      (match TransferOwner(s, session, usage, now, replacement) case Ok(next) => Ok(next) case Err(_) => Err(ResumeFailed))
    case Ok(_) => Err(ResumeHeartbeatInvalid)
    case Err(_) => Err(ResumeFailed)
  }

  /** The three terminal calls of a resume that finds nothing left to do. */
  function CompleteAll(s: Control, session: Session, replacement: Heartbeat, now: int, clock: int): Attempt<Option<Item>> {
    match CompleteExhausted(s, session, replacement.runId, now, ONE_ITEM_POLICY)
    case Err(_) => Attempt(s, Err(ResumeFailed))
    case Ok(s1) =>
      match WriteCompletedHandoff(s1, session, replacement.runId, now, clock)
      case Err(_) => Attempt(s1, Err(ResumeFailed))
      case Ok(s2) =>
        match RetireHeartbeat(s2, session, replacement.runId)
        case Err(_) => Attempt(s2, Err(ResumeFailed))
        case Ok(s3) =>
          if || s3.manifest.status != Completed
             || s3.handoff.None? || s3.handoff.value.lastRunId != replacement.runId || s3.handoff.value.directive != Completed
             || s2.heartbeat != Some(replacement) || s3.heartbeat.Some? then Attempt(s3, Err(CompletionEvidenceInvalid))
          else Attempt(s3, Ok(None))
  }

  /** The claim of a resume that has work left. */
  function ClaimResumed(s: Control, finished: FinishedSession, resume: TransferredResume, runId: RunId, now: int): Attempt<Option<Item>> {
    match OpenTransferred(s, finished.session, BatchId(runId), runId, now, ONE_ITEM_POLICY)
    case Err(_) => Attempt(s, Err(ResumeFailed))
    case Ok((s1, session)) =>
      match ClaimNext(s1, session, NO_USAGE, now, ITEM_LEASE_SECONDS)
      case Err(_) => Attempt(s1, Err(ResumeFailed))
      case Ok(s2) =>
        var claimed := LastItem(s2);
        if resume.keys != [] && ClaimedAs(claimed, resume.keys[0], runId) && claimed.value.ordinal == finished.nextOrdinal then
          Attempt(s2, Ok(claimed))
        else Attempt(s2, Err(ClaimInvalid))
  }

  /** `resume_application_campaign_batch`: the next claim, or `None` when the campaign completed. */
  function Resume(s: Control, spec: Spec, runId: RunId, now: int, clock: int): Attempt<Option<Item>> {
    match FinishedApplicationSession(s, spec)
    case Err(error) => Attempt(s, Err(error))
    case Ok(finished) =>
      var replacement := LeasedHeartbeat(runId, now);
      match TakeOver(s, finished.session, finished.usage, now, replacement)
      case Err(error) => Attempt(s, Err(error))
      case Ok(s1) =>
        match InspectTransferred(s1, finished.session, runId, now, ONE_ITEM_POLICY)
        case Err(_) => Attempt(s1, Err(ResumeFailed))
        case Ok(resume) =>
          if resume.state == NoEligible then CompleteAll(s1, finished.session, replacement, now, clock)
          else if || s1.heartbeat != Some(replacement) || resume.state != Ready || resume.keys == []
                  || resume.nextOrdinal != finished.nextOrdinal then Attempt(s1, Err(ResumeEvidenceInvalid))
          else ClaimResumed(s1, finished, resume, runId, now)
  }
}
