/**
  The frozen dataclasses of adaptive_routing.py and their JSON payloads.
  Timestamps are integers (seconds); identifier syntax is not modelled.
*/
module AdaptiveTypes {
  import opened Ordering
  import opened Wrappers
  import P = Payload
  import opened Payload

  const MIN_CANARY_INTERVAL := 10
  const MAX_CANARY_INTERVAL := 1_000
  const MAX_CANARY_RUNS := 32
  const MAX_BASELINE_WARMUP_SUCCESSES := 1_000
  const MAX_ROLLOUT_LIFETIME_SECONDS := 30 * 24 * 3_600
  const MAX_FACT_VALUE := 9_007_199_254_740_991
  /** The digest of the reviewed tool registry; a context must carry exactly this one. */
  const REVIEWED_REGISTRY: P.Digest := Given(0)

  datatype RoutingError =
    | IntegerInvalid | TimeInvalid | PolicyInvalid | ContextInvalid | DecisionInvalid
    | LowRiskRequired | RolloutInvalid | RolloutIdMismatch | RevisionConflict
    | OutcomeRequired | RolloutInactive | ActiveEvidenceDrift | ActiveEvidenceExpired
    | ContextMismatch | DecisionRequired | OutcomeMismatch | ComparisonIneligible
    | ExpiryInvalid | EvidenceDuplicate | EvidenceMissing | EvidenceStatusInvalid
    | EvidenceInvalid | EvidenceExpired | FactInvalid

  datatype ProcedurePin = ProcedurePin(procedureId: string, version: int, definition: Digest)

  datatype FactValue = BoolFact(b: bool) | IntFact(n: int)
  datatype Fact = Fact(factId: string, value: FactValue)
  datatype RiskTier = LowTier | HighTier | UnknownTier
  datatype RolloutStatus = Warmup | Canary | Complete | RolledBack
  datatype RouteChoice = BaselineChoice | CandidateChoice | RollbackChoice

  /** A contract version: the constructors ask for a number equal to 1 that is no boolean, and keep its spelling. */
  datatype VersionOne = IntOne | FloatOne

  datatype PolicyData = PolicyData(
    policyId: string, version: int, warmup: int, interval: int, maxRuns: int, contract: VersionOne := IntOne)

  predicate ValidPin(p: ProcedurePin) {
    p.version > 0
  }

  predicate ValidFact(f: Fact) {
    f.value.IntFact? ==> -MAX_FACT_VALUE <= f.value.n <= MAX_FACT_VALUE
  }

  predicate ValidPolicy(p: PolicyData) {
    && p.version > 0
    && 1 <= p.warmup <= MAX_BASELINE_WARMUP_SUCCESSES
    && MIN_CANARY_INTERVAL <= p.interval <= MAX_CANARY_INTERVAL
    && 1 <= p.maxRuns <= MAX_CANARY_RUNS
  }

  /** A policy object exists only once its constructor has accepted it. */
  type Policy = p: PolicyData | ValidPolicy(p) witness PolicyData("p", 1, 1, MIN_CANARY_INTERVAL, 1)

  datatype RoutingContext = RoutingContext(
    taskScope: string, applicationScope: string, applicationVersion: string,
    task: Digest, registry: Digest, policy: Digest,
    preconditions: seq<Fact>, risks: seq<RiskTier>, callDigests: seq<Digest>)
  {
    predicate LowRisk() {
      forall i | 0 <= i < |risks| :: risks[i] == LowTier
    }

    function Digest(): Digest {
      Sha(ContextPayload(this))
    }
  }

  /** Preconditions are strictly increasing by identifier, risks and call digests pair up. */
  predicate ValidContext(c: RoutingContext) {
    && c.registry == REVIEWED_REGISTRY
    && c.preconditions != []
    && (forall i | 0 <= i < |c.preconditions| :: ValidFact(c.preconditions[i]))
    && (forall i, j | 0 <= i < j < |c.preconditions| ::
          StringLess(c.preconditions[i].factId, c.preconditions[j].factId))
    && c.risks != []
    && |c.callDigests| == |c.risks|
  }

  datatype Decision = Decision(
    rolloutId: Digest, sequence: int, choice: RouteChoice, selected: ProcedurePin,
    selectedEvidence: Digest, baseline: ProcedurePin, candidate: ProcedurePin,
    context: RoutingContext, issuedAt: int, reason: string, version: VersionOne := IntOne)
  {
    function Digest(): Digest {
      Sha(DecisionPayload(this))
    }
  }

  /** What `AdaptiveRouteDecision.__post_init__` accepts, and the error it raises otherwise. */
  function CheckDecision(d: Decision): Result<Decision, RoutingError> {
    if d.sequence <= 0 then Err(IntegerInvalid)
    else if d.baseline == d.candidate then Err(DecisionInvalid)
    else if d.selected != (if d.choice == CandidateChoice then d.candidate else d.baseline) then
      Err(DecisionInvalid)
    else if d.choice == CandidateChoice && !d.context.LowRisk() then Err(LowRiskRequired)
    else Ok(d)
  }

  datatype Terminal = VerifiedSuccessLabel | OtherLabel(code: string)

  datatype Outcome = Outcome(
    decision: Digest, selected: ProcedurePin, context: Digest, episode: Digest,
    terminal: Terminal, safetyEscapes: nat, authorityRegressions: nat,
    approvalGateUnchanged: bool, authorityGateUnchanged: bool,
    knownSideEffect: bool, verifiedPostcondition: bool, version: VersionOne := IntOne)
  {
    predicate VerifiedSuccess() {
      && terminal == VerifiedSuccessLabel
      && safetyEscapes == 0
      && authorityRegressions == 0
      && approvalGateUnchanged
      && authorityGateUnchanged
      && knownSideEffect
      && verifiedPostcondition
    }

    function Digest(): Digest {
      Sha(OutcomePayload(this))
    }
  }

  /** The fields a rollout keeps from creation to the end; they determine its id. */
  datatype Identity = Identity(
    policy: Policy, comparison: Digest, equivalence: Digest, fixtureSuite: Digest,
    baseline: ProcedurePin, candidate: ProcedurePin,
    baselineEvidence: Digest, candidateEvidence: Digest, createdAt: int, expiresAt: int)

  datatype Rollout = Rollout(
    rolloutId: Digest, identity: Identity, status: RolloutStatus, revision: int,
    lowRisk: int, activeSelections: int, activeSuccesses: int,
    candidateSelections: int, candidateSuccesses: int,
    pending: Option<Decision>, lastOutcome: Option<Digest>, rollbackReason: Option<string>,
    version: VersionOne := IntOne)
  {
    function Digest(): Digest {
      Sha(RolloutPayload(this))
    }
  }

  // ---------- payloads ----------

  function VersionPayload(v: VersionOne): Json {
    match v case IntOne => Int(1) case FloatOne => Float(1.0)
  }

  function PinPayload(p: ProcedurePin): Json {
    Obj(map[ProcedureId := Text(p.procedureId), ProcedureVersion := Int(p.version),
            DefinitionDigest := Hex(p.definition)])
  }

  function FactPayload(f: Fact): Json {
    match f.value
    case BoolFact(b) =>
      Obj(map[FactId := Text(f.factId), FactType := Text("boolean"), P.FactValue := Bool(b)])
    case IntFact(n) =>
      Obj(map[FactId := Text(f.factId), FactType := Text("integer"), P.FactValue := Int(n)])
  }

  const ELIGIBILITY := Obj(map[
    L2Status := Text("shadow"), Flag(L3StrictImprovement) := Bool(true), HostActionRisk := Text("low"),
    Flag(ExactContext) := Bool(true), Flag(ExactAuthorityProfile) := Bool(true)])

  const ROLLBACK_RULES := Obj(map[
    Flag(FirstNonSuccess) := Bool(true), Flag(UnknownOutcome) := Bool(true), Flag(SafetyEscape) := Bool(true),
    Flag(AuthorityRegression) := Bool(true), Flag(ApprovalGateChange) := Bool(true),
    Flag(AuthorityGateChange) := Bool(true), Flag(EvidenceDrift) := Bool(true),
    Flag(AutomaticCandidateRetry) := Bool(false), Flag(AutomaticPromotion) := Bool(false)])

  function FractionPayload(interval: int): Json {
    Obj(map[Numerator := Int(1), Denominator := Int(interval)])
  }

  function PolicyPayload(p: Policy): Json {
    Obj(map[
      PolicyContractVersion := VersionPayload(p.contract), PolicyId := Text(p.policyId), PolicyVersion := Int(p.version),
      BaselineWarmupSuccesses := Int(p.warmup), CanaryInterval := Int(p.interval),
      MaximumCanaryFraction := FractionPayload(p.interval), MaxCanaryRuns := Int(p.maxRuns),
      CandidateEligibility := ELIGIBILITY, Rollback := ROLLBACK_RULES,
      Flag(RuntimeSelection) := Bool(true)])
  }

  function TierText(t: RiskTier): string {
    match t case LowTier => "low" case HighTier => "high" case UnknownTier => "unknown"
  }

  function ContextPayload(c: RoutingContext): Json {
    Obj(map[
      TaskScope := Text(c.taskScope), ApplicationScope := Text(c.applicationScope),
      ApplicationVersion := Text(c.applicationVersion), TaskDigest := Hex(c.task),
      RegistryDigest := Hex(c.registry), PolicyDigest := Hex(c.policy),
      Preconditions := List(seq(|c.preconditions|, i requires 0 <= i < |c.preconditions| => FactPayload(c.preconditions[i]))),
      ActionRisks := List(seq(|c.risks|, i requires 0 <= i < |c.risks| => Text(TierText(c.risks[i])))),
      ActionCallDigests := List(seq(|c.callDigests|, i requires 0 <= i < |c.callDigests| => Hex(c.callDigests[i]))),
      Flag(P.LowRisk) := Bool(c.LowRisk())])
  }

  function ChoiceText(c: RouteChoice): string {
    match c
    case BaselineChoice => "active_baseline"
    case CandidateChoice => "canary_candidate"
    case RollbackChoice => "rollback_baseline"
  }

  function StatusText(s: RolloutStatus): string {
    match s
    case Warmup => "warmup"
    case Canary => "canary"
    case Complete => "complete"
    case RolledBack => "rolled_back"
  }

  const DATA_CLASS := Text("private_adaptive_procedure_routing")
  const USE := Text("bounded_runtime_selection_only")

  const CAPABILITIES := Obj(map[
    Flag(Authorize) := Bool(false), Flag(Approve) := Bool(false), Flag(Dispatch) := Bool(false), Flag(Execute) := Bool(false),
    Flag(Retry) := Bool(false), Flag(Replay) := Bool(false), Flag(InjectMemory) := Bool(false),
    Flag(PromoteProcedure) := Bool(false), Flag(Train) := Bool(false)])

  const RUNTIME_GATES := Obj(map[
    Flag(FreshObservation) := Bool(true), Flag(HostPolicy) := Bool(true), Flag(HostApproval) := Bool(true),
    Flag(Grounding) := Bool(true), Flag(WriteAheadLog) := Bool(true), Flag(PostActionVerification) := Bool(true),
    Flag(SoleRunnerDispatch) := Bool(true)])

  function DecisionPart(d: Decision): map<Field, Json> {
    map[
      DecisionVersion := VersionPayload(d.version), RolloutId := Hex(d.rolloutId), DecisionSequence := Int(d.sequence),
      Choice := Text(ChoiceText(d.choice)), SelectedProcedure := PinPayload(d.selected),
      SelectedEvidenceDigest := Hex(d.selectedEvidence), ActiveBaseline := PinPayload(d.baseline),
      Candidate := PinPayload(d.candidate), Context := ContextPayload(d.context),
      IssuedAt := Int(d.issuedAt), Reason := Text(d.reason)]
  }

  function DecisionFixed(d: Decision): map<Field, Json> {
    map[
      ContextDigest := Hex(d.context.Digest()), DataClass := DATA_CLASS, Use := USE,
      Flag(RuntimeSelection) := Bool(true), Capabilities := CAPABILITIES, RequiredRuntimeGates := RUNTIME_GATES]
  }

  function DecisionPayload(d: Decision): Json {
    Obj(DecisionPart(d) + DecisionFixed(d))
  }

  function OutcomePayload(o: Outcome): Json {
    Obj(map[
      OutcomeVersion := VersionPayload(o.version), DecisionDigest := Hex(o.decision),
      SelectedProcedure := PinPayload(o.selected), ContextDigest := Hex(o.context),
      SourceEpisodeDigest := Hex(o.episode),
      Terminal := Text(if o.terminal.OtherLabel? then o.terminal.code else "VERIFIED_SUCCESS"),
      SafetyEscapes := Int(o.safetyEscapes), AuthorityRegressions := Int(o.authorityRegressions),
      Flag(ApprovalGateUnchanged) := Bool(o.approvalGateUnchanged),
      Flag(AuthorityGateUnchanged) := Bool(o.authorityGateUnchanged),
      Flag(KnownSideEffectOutcome) := Bool(o.knownSideEffect),
      Flag(VerifiedPostcondition) := Bool(o.verifiedPostcondition),
      Flag(P.VerifiedSuccess) := Bool(o.VerifiedSuccess()),
      Flag(ContainsRawTask) := Bool(false), Flag(ContainsModelProse) := Bool(false),
      Flag(ContainsToolResult) := Bool(false), Flag(ContainsArguments) := Bool(false),
      Flag(ContainsApproval) := Bool(false)])
  }

  function IdentityPayload(d: Identity): Json {
    Obj(map[
      PolicyDigest := Hex(Sha(PolicyPayload(d.policy))), ComparisonDigest := Hex(d.comparison),
      EquivalenceDigest := Hex(d.equivalence), FixtureSuiteDigest := Hex(d.fixtureSuite),
      ActiveBaseline := PinPayload(d.baseline), Candidate := PinPayload(d.candidate),
      ActiveEvidenceDigest := Hex(d.baselineEvidence),
      CandidateEvidenceDigest := Hex(d.candidateEvidence),
      CreatedAt := Int(d.createdAt), ExpiresAt := Int(d.expiresAt)])
  }

  /** What identifies a rollout, what its state is, and what the format repeats or fixes. */
  function IdentityPart(d: Identity): map<Field, Json> {
    map[
      RolloutPolicy := PolicyPayload(d.policy), ComparisonDigest := Hex(d.comparison),
      EquivalenceDigest := Hex(d.equivalence), FixtureSuiteDigest := Hex(d.fixtureSuite),
      ActiveBaseline := PinPayload(d.baseline), Candidate := PinPayload(d.candidate),
      ActiveEvidenceDigest := Hex(d.baselineEvidence), CandidateEvidenceDigest := Hex(d.candidateEvidence),
      CreatedAt := Int(d.createdAt), ExpiresAt := Int(d.expiresAt)]
  }

  function StatePart(r: Rollout): map<Field, Json> {
    map[
      RolloutVersion := VersionPayload(r.version), RolloutId := Hex(r.rolloutId),
      Status := Text(StatusText(r.status)), Revision := Int(r.revision),
      LowRiskDecisions := Int(r.lowRisk), ActiveSelections := Int(r.activeSelections),
      ActiveSuccesses := Int(r.activeSuccesses), CandidateSelections := Int(r.candidateSelections),
      CandidateSuccesses := Int(r.candidateSuccesses),
      PendingDecision := (if r.pending.None? then Null else DecisionPayload(r.pending.value)),
      LastOutcomeDigest := (if r.lastOutcome.None? then Null else Hex(r.lastOutcome.value)),
      RollbackReason := (if r.rollbackReason.None? then Null else Text(r.rollbackReason.value))]
  }

  function FixedPart(d: Identity): map<Field, Json> {
    map[
      PolicyDigest := Hex(Sha(PolicyPayload(d.policy))), FallbackProcedure := PinPayload(d.baseline),
      Flag(AutomaticCandidateRetry) := Bool(false), Flag(AutomaticPromotion) := Bool(false),
      DataClass := DATA_CLASS, Use := USE]
  }

  function RolloutPayload(r: Rollout): Json {
    Obj(IdentityPart(r.identity) + StatePart(r) + FixedPart(r.identity))
  }
}
