/**
  JSON payloads and digests, as far as adaptive_routing.py uses them.

  Field names are an enumeration rather than strings.  A digest is the
  constructor `Sha` applied to the payload it was taken of, so it is injective
  by construction; `Given` stands for digests computed outside the model.
  The leaf `Hex` is a JSON string of 64 hexadecimal digits, `Text` any other
  string, and `Float` a number written with a fraction or an exponent.
*/
module Payload {
  import opened Wrappers

  datatype Digest = Given(id: nat) | Sha(payload: Json)

  datatype Json =
    | Null
    | Bool(b: bool)
    | Int(n: int)
    | Float(x: real)
    | Text(s: string)
    | Hex(d: Digest)
    | List(items: seq<Json>)
    | Obj(fields: map<Field, Json>)

  /** Field names; the fields whose values are booleans are flags. */
  datatype Field =
    | Flag(name: FlagName)
    // pins and facts
    | ProcedureId | ProcedureVersion | DefinitionDigest
    | FactId | FactType | FactValue
    // policy
    | PolicyContractVersion | PolicyId | PolicyVersion | BaselineWarmupSuccesses
    | CanaryInterval | MaximumCanaryFraction | Numerator | Denominator | MaxCanaryRuns
    | CandidateEligibility | L2Status | HostActionRisk | Rollback
    // context
    | TaskScope | ApplicationScope | ApplicationVersion | TaskDigest | RegistryDigest
    | PolicyDigest | Preconditions | ActionRisks | ActionCallDigests
    // decision
    | DecisionVersion | RolloutId | DecisionSequence | Choice | SelectedProcedure
    | SelectedEvidenceDigest | ActiveBaseline | Candidate | Context | ContextDigest
    | IssuedAt | Reason | DataClass | Use | Capabilities | RequiredRuntimeGates
    // outcome
    | OutcomeVersion | DecisionDigest | SourceEpisodeDigest | Terminal | SafetyEscapes
    | AuthorityRegressions
    // rollout and envelope
    | RolloutVersion | RolloutPolicy | ComparisonDigest | EquivalenceDigest
    | FixtureSuiteDigest | ActiveEvidenceDigest | CandidateEvidenceDigest | CreatedAt
    | ExpiresAt | Status | Revision | LowRiskDecisions | ActiveSelections
    | ActiveSuccesses | CandidateSelections | CandidateSuccesses | PendingDecision
    | LastOutcomeDigest | RollbackReason | FallbackProcedure
    | StoreVersion | StoredRollout | RolloutDigest | EnvelopeDigest

  datatype FlagName =
    // policy
    | L3StrictImprovement | ExactContext | ExactAuthorityProfile
    | FirstNonSuccess | UnknownOutcome | SafetyEscape | AuthorityRegression
    | ApprovalGateChange | AuthorityGateChange | EvidenceDrift
    | AutomaticCandidateRetry | AutomaticPromotion | RuntimeSelection
    // context and decision
    | LowRisk | Authorize | Approve | Dispatch | Execute | Retry | Replay | InjectMemory
    | PromoteProcedure | Train
    | FreshObservation | HostPolicy | HostApproval | Grounding | WriteAheadLog
    | PostActionVerification | SoleRunnerDispatch
    // outcome
    | ApprovalGateUnchanged | AuthorityGateUnchanged | KnownSideEffectOutcome
    | VerifiedPostcondition | VerifiedSuccess | ContainsRawTask | ContainsModelProse
    | ContainsToolResult | ContainsArguments | ContainsApproval

  /** The number a Python bool, int or float compares as: True == 1 == 1.0. */
  function Number(j: Json): Option<real> {
    match j
    case Bool(b) => Some(if b then 1.0 else 0.0)
    case Int(n) => Some(n as real)
    case Float(x) => Some(x)
    case _ => None
  }

  /** Python's `==` on decoded JSON, which does not tell booleans, integers and floats apart. */
  predicate PyEq(a: Json, b: Json)
    decreases a
  {
    match a
    case Bool(_) => Number(a) == Number(b)
    case Int(_) => Number(a) == Number(b)
    case Float(_) => Number(a) == Number(b)
    case List(x) => b.List? && |x| == |b.items| && forall i | 0 <= i < |x| :: PyEq(x[i], b.items[i])
    case Obj(x) => b.Obj? && x.Keys == b.fields.Keys && forall k | k in x :: PyEq(x[k], b.fields[k])
    case _ => a == b
  }
}
