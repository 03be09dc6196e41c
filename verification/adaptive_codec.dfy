/**
  The decoders of the adaptive routing store (adaptive_routing.py): strict field
  sets, typed leaves, the constructors' own checks, and the comparison of the
  re-encoding with the input by Python's `==`.
*/
module AdaptiveCodec {
  import opened Wrappers
  import opened AdaptiveTypes
  import opened AdaptiveRouting
  import P = Payload
  import opened Payload

  datatype StoreError =
    | Invalid | VersionUnsupported | DigestMismatch | LockRequired | ReadFailed | IdMismatch
    | AlreadyExists | InitialStateInvalid | StoreConflict | Refused(error: RoutingError)

  // ---------- decoders ----------

  /** `_strict_mapping`: an object with exactly these fields. */
  predicate Strict(j: Json, fields: set<Field>) {
    j.Obj? && j.fields.Keys == fields
  }

  /** What the constructors demand of a version: equal to 1 by Python's `==`, and no boolean. */
  function DecodeVersion(j: Json): Option<VersionOne> {
    if j == Int(1) then Some(IntOne) else if j == Float(1.0) then Some(FloatOne) else None
  }

  const PIN_FIELDS := {ProcedureId, ProcedureVersion, DefinitionDigest}

  function DecodePin(j: Json): Option<ProcedurePin> {
    if !Strict(j, PIN_FIELDS) then None
    else
      var f := j.fields;
      if !(f[ProcedureId].Text? && f[ProcedureVersion].Int? && f[DefinitionDigest].Hex?) then None
      else
        var p := ProcedurePin(f[ProcedureId].s, f[ProcedureVersion].n, f[DefinitionDigest].d);
        if ValidPin(p) && PyEq(PinPayload(p), j) then Some(p) else None
  }

  const FACT_FIELDS := {FactId, FactType, P.FactValue}

  function DecodeFact(j: Json): Option<Fact> {
    if !Strict(j, FACT_FIELDS) then None
    else
      var f := j.fields;
      if !f[FactId].Text? then None
      else if f[FactType] == Text("boolean") && f[P.FactValue].Bool? then
        var fact := Fact(f[FactId].s, BoolFact(f[P.FactValue].b));
        if PyEq(FactPayload(fact), j) then Some(fact) else None
      else if f[FactType] == Text("integer") && f[P.FactValue].Int? then
        var fact := Fact(f[FactId].s, IntFact(f[P.FactValue].n));
        if ValidFact(fact) && PyEq(FactPayload(fact), j) then Some(fact) else None
      else None
  }

  const POLICY_FIELDS := {
    PolicyContractVersion, PolicyId, PolicyVersion, BaselineWarmupSuccesses, CanaryInterval,
    MaximumCanaryFraction, MaxCanaryRuns, CandidateEligibility, Rollback, Flag(RuntimeSelection)}

  function DecodePolicy(j: Json): Option<Policy> {
    if !Strict(j, POLICY_FIELDS) then None
    else
      var f := j.fields;
      if !(f[PolicyId].Text? && f[PolicyVersion].Int? && f[BaselineWarmupSuccesses].Int? && f[CanaryInterval].Int?
           && f[MaxCanaryRuns].Int? && DecodeVersion(f[PolicyContractVersion]).Some?) then None
      else
        var p := PolicyData(f[PolicyId].s, f[PolicyVersion].n, f[BaselineWarmupSuccesses].n, f[CanaryInterval].n, f[MaxCanaryRuns].n,
                            DecodeVersion(f[PolicyContractVersion]).value);
        if ValidPolicy(p) && PyEq(PolicyPayload(p), j) then Some(p) else None
  }

  const CONTEXT_FIELDS := {
    TaskScope, ApplicationScope, ApplicationVersion, TaskDigest, RegistryDigest, PolicyDigest,
    Preconditions, ActionRisks, ActionCallDigests, Flag(P.LowRisk)}

  function DecodeFacts(items: seq<Json>): Option<seq<Fact>> {
    if items == [] then Some([])
    else
      var head, tail := DecodeFact(items[0]), DecodeFacts(items[1..]);
      if head.None? || tail.None? then None else Some([head.value] + tail.value)
  }

  function DecodeTier(j: Json): Option<RiskTier> {
    if j == Text("low") then Some(LowTier)
    else if j == Text("high") then Some(HighTier)
    else if j == Text("unknown") then Some(UnknownTier)
    else None
  }

  function DecodeTiers(items: seq<Json>): Option<seq<RiskTier>> {
    if items == [] then Some([])
    else
      var head, tail := DecodeTier(items[0]), DecodeTiers(items[1..]);
      if head.None? || tail.None? then None else Some([head.value] + tail.value)
  }

  function DecodeDigests(items: seq<Json>): Option<seq<Digest>> {
    if items == [] then Some([])
    else
      var tail := DecodeDigests(items[1..]);
      if !items[0].Hex? || tail.None? then None else Some([items[0].d] + tail.value)
  }

  function DecodeContext(j: Json): Option<RoutingContext> {
    if !Strict(j, CONTEXT_FIELDS) then None
    else
      var f := j.fields;
      if !(f[TaskScope].Text? && f[ApplicationScope].Text? && f[ApplicationVersion].Text? && f[TaskDigest].Hex?
           && f[RegistryDigest].Hex? && f[PolicyDigest].Hex?
           && f[Preconditions].List? && f[ActionRisks].List? && f[ActionCallDigests].List?) then None
      else
        var facts, tiers := DecodeFacts(f[Preconditions].items), DecodeTiers(f[ActionRisks].items);
        var calls := DecodeDigests(f[ActionCallDigests].items);
        if facts.None? || tiers.None? || calls.None? then None
        else
          var c := RoutingContext(f[TaskScope].s, f[ApplicationScope].s, f[ApplicationVersion].s, f[TaskDigest].d,
                                  f[RegistryDigest].d, f[PolicyDigest].d, facts.value, tiers.value, calls.value);
          if ValidContext(c) && PyEq(ContextPayload(c), j) then Some(c) else None
  }

  const DECISION_PART_FIELDS := {
    DecisionVersion, RolloutId, DecisionSequence, Choice, SelectedProcedure, SelectedEvidenceDigest,
    ActiveBaseline, Candidate, Context, IssuedAt, Reason}

  const DECISION_FIXED_FIELDS := {
    ContextDigest, DataClass, Use, Flag(RuntimeSelection), Capabilities, RequiredRuntimeGates}

  const DECISION_FIELDS := DECISION_PART_FIELDS + DECISION_FIXED_FIELDS

  function DecodeChoice(j: Json): Option<RouteChoice> {
    if j == Text("active_baseline") then Some(BaselineChoice)
    else if j == Text("canary_candidate") then Some(CandidateChoice)
    else if j == Text("rollback_baseline") then Some(RollbackChoice)
    else None
  }

  function DecodeDecision(j: Json): Option<Decision> {
    if !Strict(j, DECISION_FIELDS) then None
    else
      var f := j.fields;
      if !(f[RolloutId].Hex? && f[DecisionSequence].Int? && f[SelectedEvidenceDigest].Hex? && f[IssuedAt].Int?
           && f[Reason].Text? && DecodeVersion(f[DecisionVersion]).Some?) then None
      else
        var choice, selected := DecodeChoice(f[Choice]), DecodePin(f[SelectedProcedure]);
        var baseline, candidate := DecodePin(f[ActiveBaseline]), DecodePin(f[Candidate]);
        var context := DecodeContext(f[Context]);
        if choice.None? || selected.None? || baseline.None? || candidate.None? || context.None? then None
        else
          var d := Decision(f[RolloutId].d, f[DecisionSequence].n, choice.value, selected.value, f[SelectedEvidenceDigest].d,
                            baseline.value, candidate.value, context.value, f[IssuedAt].n, f[Reason].s,
                            DecodeVersion(f[DecisionVersion]).value);
          if CheckDecision(d).Ok? && PyEq(DecisionPayload(d), j) then Some(d) else None
  }

  /** The fields that identify a rollout, those that carry its state, and those that repeat or fix something. */
  const IDENTITY_FIELDS := {
    RolloutPolicy, ComparisonDigest, EquivalenceDigest, FixtureSuiteDigest, ActiveBaseline, Candidate,
    ActiveEvidenceDigest, CandidateEvidenceDigest, CreatedAt, ExpiresAt}

  const STATE_FIELDS := {
    RolloutVersion, RolloutId, Status, Revision, LowRiskDecisions, ActiveSelections, ActiveSuccesses,
    CandidateSelections, CandidateSuccesses, PendingDecision, LastOutcomeDigest, RollbackReason}

  const FIXED_FIELDS := {
    PolicyDigest, FallbackProcedure, Flag(AutomaticCandidateRetry), Flag(AutomaticPromotion), DataClass, Use}

  const ROLLOUT_FIELDS := IDENTITY_FIELDS + STATE_FIELDS + FIXED_FIELDS

  function DecodeStatus(j: Json): Option<RolloutStatus> {
    if j == Text("warmup") then Some(Warmup)
    else if j == Text("canary") then Some(Canary)
    else if j == Text("complete") then Some(Complete)
    else if j == Text("rolled_back") then Some(RolledBack)
    else None
  }

  /** An optional leaf: null, or the value. */
  function DecodePending(j: Json): Option<Option<Decision>> {
    if j.Null? then Some(None)
    else
      var d := DecodeDecision(j);
      if d.None? then None else Some(d)
  }

  function DecodeOutcome(j: Json): Option<Option<Digest>> {
    if j.Null? then Some(None) else if j.Hex? then Some(Some(j.d)) else None
  }

  function DecodeReason(j: Json): Option<Option<string>> {
    if j.Null? then Some(None) else if j.Text? then Some(Some(j.s)) else None
  }

  predicate IdentityLeaves(f: map<Field, Json>)
    requires f.Keys == ROLLOUT_FIELDS
  {
    && f[ComparisonDigest].Hex? && f[EquivalenceDigest].Hex? && f[FixtureSuiteDigest].Hex?
    && f[ActiveEvidenceDigest].Hex? && f[CandidateEvidenceDigest].Hex?
    && f[CreatedAt].Int? && f[ExpiresAt].Int?
  }

  function DecodeIdentity(f: map<Field, Json>): Option<Identity>
    requires f.Keys == ROLLOUT_FIELDS
  {
    var policy, baseline, candidate := DecodePolicy(f[RolloutPolicy]), DecodePin(f[ActiveBaseline]), DecodePin(f[Candidate]);
    if !IdentityLeaves(f) || policy.None? || baseline.None? || candidate.None? then None
    else Some(Identity(policy.value, f[ComparisonDigest].d, f[EquivalenceDigest].d, f[FixtureSuiteDigest].d,
                       baseline.value, candidate.value, f[ActiveEvidenceDigest].d, f[CandidateEvidenceDigest].d,
                       f[CreatedAt].n, f[ExpiresAt].n))
  }

  predicate CounterLeaves(f: map<Field, Json>)
    requires f.Keys == ROLLOUT_FIELDS
  {
    && f[RolloutId].Hex? && DecodeVersion(f[RolloutVersion]).Some?
    && f[Revision].Int? && f[LowRiskDecisions].Int? && f[ActiveSelections].Int? && f[ActiveSuccesses].Int?
    && f[CandidateSelections].Int? && f[CandidateSuccesses].Int?
  }

  /** `_decode_rollout`. */
  function DecodeRollout(j: Json): Option<Rollout> {
    if !Strict(j, ROLLOUT_FIELDS) then None
    else
      var f := j.fields;
      var identity, status := DecodeIdentity(f), DecodeStatus(f[Status]);
      var pending, last, reason := DecodePending(f[PendingDecision]), DecodeOutcome(f[LastOutcomeDigest]), DecodeReason(f[RollbackReason]);
      if !CounterLeaves(f) || identity.None? || status.None? || pending.None? || last.None? || reason.None? then None
      else
        var r := Rollout(f[RolloutId].d, identity.value, status.value, f[Revision].n, f[LowRiskDecisions].n,
                         f[ActiveSelections].n, f[ActiveSuccesses].n, f[CandidateSelections].n, f[CandidateSuccesses].n,
                         pending.value, last.value, reason.value, DecodeVersion(f[RolloutVersion]).value);
        if CheckRollout(r).Ok? && PyEq(RolloutPayload(r), j) then Some(r) else None
  }

  // ---------- the envelope ----------

  const ENVELOPE_FIELDS := {StoreVersion, StoredRollout, RolloutDigest, EnvelopeDigest}

  function Unsigned(r: Rollout): map<Field, Json> {
    map[StoreVersion := Int(1), StoredRollout := RolloutPayload(r), RolloutDigest := Hex(r.Digest())]
  }

  function Signed(unsigned: map<Field, Json>): Json {
    Obj(unsigned[EnvelopeDigest := Hex(Sha(Obj(unsigned)))])
  }

  /** `_store_envelope`. */
  function Envelope(r: Rollout): Json {
    Signed(Unsigned(r))
  }

  /** `_decode_store_envelope`. */
  function DecodeEnvelope(j: Json): Result<Rollout, StoreError> {
    if !Strict(j, ENVELOPE_FIELDS) then Err(Invalid)
    else if !PyEq(Int(1), j.fields[StoreVersion]) then Err(VersionUnsupported)
    else
      var r := DecodeRollout(j.fields[StoredRollout]);
      if r.None? then Err(Invalid)
      else
        var unsigned := j.fields - {EnvelopeDigest};
        if j.fields[RolloutDigest] != Hex(r.value.Digest()) || j.fields[EnvelopeDigest] != Hex(Sha(Obj(unsigned))) then
          Err(DigestMismatch)
        else Ok(r.value)
  }
}
