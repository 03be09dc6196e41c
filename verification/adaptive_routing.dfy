/** The rollout constructor and the create, route and record transitions of adaptive_routing.py. */
module AdaptiveRouting {
  import opened Wrappers
  import opened AdaptiveTypes
  import Payload

  type Checked<+T> = Result<T, RoutingError>

  function Count(b: bool): int {
    if b then 1 else 0
  }

  // ---------- the constructor ----------

  function Total(r: Rollout): int {
    r.activeSelections + r.candidateSelections
  }

  predicate IdMatches(id: Payload.Digest, d: Identity) {
    id == Payload.Sha(IdentityPayload(d))
  }

  predicate CountersAccepted(r: Rollout) {
    var completed := Total(r) - Count(r.pending.Some?);
    && r.revision >= 0 && r.lowRisk >= 0
    && 0 <= r.activeSuccesses <= r.activeSelections
    && 0 <= r.candidateSuccesses <= r.candidateSelections <= r.identity.policy.maxRuns
    && r.lowRisk <= Total(r)
    && r.candidateSelections <= r.lowRisk / r.identity.policy.interval
    && r.revision == 2 * Total(r) - Count(r.pending.Some?)
    && completed >= 0
    && ((completed == 0) <==> r.lastOutcome.None?)
  }

  predicate IdentityAccepted(d: Identity) {
    && d.baseline != d.candidate
    && d.createdAt < d.expiresAt <= d.createdAt + MAX_ROLLOUT_LIFETIME_SECONDS
  }

  predicate StatusAccepted(r: Rollout) {
    var p := r.identity.policy;
    && (r.status == RolledBack <==> r.rollbackReason.Some?)
    && (r.status == Complete ==> r.candidateSuccesses == p.maxRuns && r.pending.None?)
    && (r.status != Complete ==> r.candidateSuccesses != p.maxRuns)
    && (r.status == Warmup ==> r.activeSuccesses < p.warmup && r.candidateSelections == 0)
    && (r.status in {Canary, Complete} ==> r.activeSuccesses >= p.warmup)
    && (r.status == RolledBack && r.pending.Some? ==> r.pending.value.choice == RollbackChoice)
  }

  /** `AdaptiveRoutingRollout.__post_init__`. */
  function CheckRollout(r: Rollout): Checked<Rollout> {
    if !IdentityAccepted(r.identity) || !CountersAccepted(r) then Err(RolloutInvalid)
    else if r.pending.Some? && (r.pending.value.rolloutId != r.rolloutId || r.pending.value.sequence != Total(r)) then
      Err(RolloutInvalid)
    else if !StatusAccepted(r) then Err(RolloutInvalid)
    else if !IdMatches(r.rolloutId, r.identity) then Err(RolloutIdMismatch)
    else Ok(r)
  }

  // ---------- evidence ----------

  datatype ProcedureStatus = ActiveProcedure | ShadowProcedure

  datatype Definition = Definition(
    taskScope: string, applicationScope: string, applicationVersion: string,
    registry: Payload.Digest, policy: Payload.Digest, preconditions: seq<Fact>, actionCount: nat)

  datatype Evidence = Evidence(
    pin: ProcedurePin, status: ProcedureStatus, digest: Payload.Digest,
    equivalence: Payload.Digest, fixtureSuite: Payload.Digest,
    updatedAt: int, expiresAt: int, rollbackTarget: Option<ProcedurePin>,
    enteredShadow: bool, reviewed: bool, definition: Definition)

  /** `_require_current_evidence`: an error about the baseline, or the drift reason of the candidate. */
  function CurrentEvidence(r: Rollout, active: Evidence, candidate: Evidence, now: int): Checked<Option<string>> {
    var d := r.identity;
    if active.pin != d.baseline || active.status != ActiveProcedure || active.digest != d.baselineEvidence then
      Err(ActiveEvidenceDrift)
    else if now < active.updatedAt || now >= active.expiresAt then Err(ActiveEvidenceExpired)
    else if || candidate.pin != d.candidate || candidate.status != ShadowProcedure
            || candidate.digest != d.candidateEvidence
            || candidate.equivalence != d.equivalence || active.equivalence != d.equivalence
            || candidate.fixtureSuite != d.fixtureSuite || active.fixtureSuite != d.fixtureSuite then
      Ok(Some("CANDIDATE_EVIDENCE_DRIFT"))
    else if now < candidate.updatedAt || now >= candidate.expiresAt then Ok(Some("CANDIDATE_EVIDENCE_EXPIRED"))
    else if candidate.rollbackTarget != Some(d.baseline) then Ok(Some("CANDIDATE_ROLLBACK_TARGET_DRIFT"))
    else Ok(None)
  }

  predicate ContextMatches(c: RoutingContext, d: Definition) {
    && c.taskScope == d.taskScope && c.applicationScope == d.applicationScope
    && c.applicationVersion == d.applicationVersion && c.registry == d.registry
    && c.policy == d.policy && c.preconditions == d.preconditions
    && |c.risks| == d.actionCount
  }

  // ---------- creation ----------

  datatype Comparison = Comparison(
    digest: Payload.Digest, recommendsShadow: bool, strictImprovement: bool,
    baseline: ProcedurePin, recommended: ProcedurePin,
    equivalence: Payload.Digest, fixtureSuite: Payload.Digest,
    scores: map<ProcedurePin, Payload.Digest>, evaluatedAt: int)

  predicate DistinctPins(evidence: seq<Evidence>) {
    forall i, j | 0 <= i < j < |evidence| :: evidence[i].pin != evidence[j].pin
  }

  function FindEvidence(evidence: seq<Evidence>, pin: ProcedurePin): Option<Evidence> {
    if evidence == [] then None
    else if evidence[0].pin == pin then Some(evidence[0])
    else FindEvidence(evidence[1..], pin)
  }

  predicate EvidenceSupports(c: Comparison, active: Evidence, candidate: Evidence) {
    && active.pin in c.scores && c.scores[active.pin] == active.digest
    && candidate.pin in c.scores && c.scores[candidate.pin] == candidate.digest
    && candidate.rollbackTarget == Some(active.pin)
    && candidate.enteredShadow && candidate.reviewed
    && active.equivalence == c.equivalence && candidate.equivalence == c.equivalence
    && active.fixtureSuite == c.fixtureSuite && candidate.fixtureSuite == c.fixtureSuite
  }

  predicate EvidenceCovers(e: Evidence, now: int, expiresAt: int) {
    e.updatedAt <= now < e.expiresAt && expiresAt <= e.expiresAt
  }

  /** `create_adaptive_rollout`. */
  function Create(c: Comparison, evidence: seq<Evidence>, policy: Policy, now: int, expiresAt: int): Checked<Rollout> {
    if !c.recommendsShadow || !c.strictImprovement || c.recommended == c.baseline then
      Err(ComparisonIneligible)
    else if expiresAt <= now || expiresAt > now + MAX_ROLLOUT_LIFETIME_SECONDS then Err(ExpiryInvalid)
    else if !DistinctPins(evidence) then Err(EvidenceDuplicate)
    else
      var active := FindEvidence(evidence, c.baseline);
      var candidate := FindEvidence(evidence, c.recommended);
      if active.None? || candidate.None? then Err(EvidenceMissing)
      else CreateFrom(c, active.value, candidate.value, policy, now, expiresAt)
  }

  function CreateFrom(c: Comparison, active: Evidence, candidate: Evidence, policy: Policy, now: int, expiresAt: int): Checked<Rollout> {
    if active.status != ActiveProcedure || candidate.status != ShadowProcedure then Err(EvidenceStatusInvalid)
    else if !EvidenceSupports(c, active, candidate) then Err(EvidenceInvalid)
    else if now < c.evaluatedAt then Err(TimeInvalid)
    else if !EvidenceCovers(active, now, expiresAt) || !EvidenceCovers(candidate, now, expiresAt) then
      Err(EvidenceExpired)
    else
      var d := Identity(policy, c.digest, c.equivalence, c.fixtureSuite, active.pin, candidate.pin,
                        active.digest, candidate.digest, now, expiresAt);
      CheckRollout(Rollout(Payload.Sha(IdentityPayload(d)), d, Warmup, 0, 0, 0, 0, 0, 0, None, None, None))
  }

  // ---------- route ----------

  datatype Transition = Transition(rollout: Rollout, decision: Decision)

  /** `_issue_decision`: build the decision, then the next rollout; both constructors may refuse. */
  function Issue(r: Rollout, context: RoutingContext, now: int, chosen: Selection): Checked<Transition> {
    var isCandidate := chosen.choice == CandidateChoice;
    var d :- CheckDecision(Decision(
      r.rolloutId, Total(r) + 1, chosen.choice,
      if isCandidate then r.identity.candidate else r.identity.baseline,
      if isCandidate then r.identity.candidateEvidence else r.identity.baselineEvidence,
      r.identity.baseline, r.identity.candidate, context, now, chosen.reason));
    var next :- CheckRollout(r.(
      status := chosen.status,
      revision := r.revision + 1,
      lowRisk := r.lowRisk + Count(context.LowRisk()),
      activeSelections := r.activeSelections + Count(!isCandidate),
      candidateSelections := r.candidateSelections + Count(isCandidate),
      pending := Some(d),
      rollbackReason := chosen.rollback));
    Ok(Transition(next, d))
  }

  /** The guards `route_adaptive_procedure` applies before it selects; `Ok` carries the drift reason. */
  function RouteGuards(r: Rollout, active: Evidence, candidate: Evidence, context: RoutingContext,
                       expectedRevision: int, now: int): Checked<Option<string>>
  {
    if expectedRevision < 0 then Err(IntegerInvalid)
    else if r.revision != expectedRevision then Err(RevisionConflict)
    else if r.pending.Some? then Err(OutcomeRequired)
    else if r.status in {Complete, RolledBack} then Err(RolloutInactive)
    else if now < r.identity.createdAt then Err(TimeInvalid)
    else
      var drift :- CurrentEvidence(r, active, candidate, now);
      if ContextMatches(context, active.definition) && ContextMatches(context, candidate.definition) then Ok(drift)
      else Err(ContextMismatch)
  }

  datatype Selection = Selection(choice: RouteChoice, reason: string, status: RolloutStatus, rollback: Option<string>)

  /** The ladder of `route_adaptive_procedure` below its guards. */
  function Select(r: Rollout, drift: Option<string>, lowRisk: bool, now: int): Selection {
    var p := r.identity.policy;
    if now >= r.identity.expiresAt then
      Selection(RollbackChoice, "ROLLOUT_EXPIRED", RolledBack, Some("ROLLOUT_EXPIRED"))
    else if drift.Some? then Selection(RollbackChoice, drift.value, RolledBack, drift)
    else if !lowRisk then Selection(BaselineChoice, "NON_LOW_RISK_BASELINE_ONLY", r.status, None)
    else if r.activeSuccesses < p.warmup then Selection(BaselineChoice, "BASELINE_WARMUP", r.status, None)
    else if (r.lowRisk + 1) % p.interval == 0 && r.candidateSelections < p.maxRuns then
      Selection(CandidateChoice, "CANARY_SLOT", Canary, None)
    else Selection(BaselineChoice, "CANARY_LIMIT_BASELINE", Canary, None)
  }

  /** `route_adaptive_procedure`. */
  function Route(r: Rollout, active: Evidence, candidate: Evidence, context: RoutingContext,
                 expectedRevision: int, now: int): Checked<Transition>
  {
    var drift :- RouteGuards(r, active, candidate, context, expectedRevision, now);
    Issue(r, context, now, Select(r, drift, context.LowRisk(), now))
  }

  // ---------- record ----------

  predicate OutcomeMatches(o: Outcome, d: Decision) {
    o.decision == d.Digest() && o.selected == d.selected && o.context == d.context.Digest()
  }

  /** The rollout `record_adaptive_outcome` hands to the constructor. */
  function Recorded(r: Rollout, d: Decision, o: Outcome): Rollout {
    var p := r.identity.policy;
    var base := r.(revision := r.revision + 1, pending := None, lastOutcome := Some(o.Digest()));
    if !o.VerifiedSuccess() then
      base.(status := RolledBack,
            rollbackReason := Some(if d.choice == CandidateChoice then "CANDIDATE_OUTCOME_REGRESSION"
                                   else "BASELINE_OUTCOME_REGRESSION"))
    else if d.choice == CandidateChoice then
      base.(candidateSuccesses := r.candidateSuccesses + 1,
            status := if r.candidateSuccesses + 1 == p.maxRuns then Complete else r.status)
    else if d.context.LowRisk() then
      base.(activeSuccesses := r.activeSuccesses + 1,
            status := if r.status == Warmup && r.activeSuccesses + 1 >= p.warmup then Canary else r.status)
    else base
  }

  /** The guards of `record_adaptive_outcome`; `Ok` carries the pending decision. */
  function RecordGuards(r: Rollout, o: Outcome, expectedRevision: int): Checked<Decision> {
    if expectedRevision < 0 then Err(IntegerInvalid)
    else if r.revision != expectedRevision then Err(RevisionConflict)
    else if r.pending.None? then Err(DecisionRequired)
    else if !OutcomeMatches(o, r.pending.value) then Err(OutcomeMismatch)
    else Ok(r.pending.value)
  }

  /** `record_adaptive_outcome`. */
  function Record(r: Rollout, o: Outcome, expectedRevision: int): Checked<Rollout> {
    var d :- RecordGuards(r, o, expectedRevision);
    CheckRollout(Recorded(r, d, o))
  }
}
