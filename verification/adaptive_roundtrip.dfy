/**
  What the store's format guarantees: decoding the envelope of a rollout gives the
  rollout back; a payload the decoders accept equals its re-encoding by Python's
  `==`, and is literally its re-encoding if and only if its booleans stand exactly
  where the format has booleans and its floats only where a version is echoed back.
*/
module AdaptiveRoundTrip {
  import opened Wrappers
  import opened AdaptiveTypes
  import opened AdaptiveRouting
  import opened AdaptiveCodec
  import P = Payload
  import opened Payload

  // ---------- Python equality ----------

  lemma {:induction false} PyEqReflexive(j: Json)
    ensures PyEq(j, j)
    decreases j
  {
    match j
    case List(x) =>
      forall i | 0 <= i < |x|
        ensures PyEq(x[i], x[i])
      {
        PyEqReflexive(x[i]);
      }
    case Obj(x) =>
      forall k | k in x
        ensures PyEq(x[k], x[k])
      {
        PyEqReflexive(x[k]);
      }
    case _ =>
  }

  // ---------- decoding an encoding ----------

  /** What Python's constructors have checked of a rollout that exists. */
  predicate WellFormed(r: Rollout) {
    && CheckRollout(r) == Ok(r)
    && ValidPin(r.identity.baseline) && ValidPin(r.identity.candidate)
    && (r.pending.Some? ==> DecisionFormed(r.pending.value))
  }

  predicate DecisionFormed(d: Decision) {
    && CheckDecision(d) == Ok(d) && ValidContext(d.context)
    && ValidPin(d.selected) && ValidPin(d.baseline) && ValidPin(d.candidate)
  }

  lemma PinDecodes(p: ProcedurePin)
    requires ValidPin(p)
    ensures DecodePin(PinPayload(p)) == Some(p)
  {
    PyEqReflexive(PinPayload(p));
  }

  lemma FactDecodes(f: Fact)
    requires ValidFact(f)
    ensures DecodeFact(FactPayload(f)) == Some(f)
  {
    PyEqReflexive(FactPayload(f));
  }

  lemma PolicyDecodes(p: Policy)
    ensures DecodePolicy(PolicyPayload(p)) == Some(p)
  {
    PyEqReflexive(PolicyPayload(p));
    hide PyEq;
  }

  lemma {:induction false} FactsDecode(facts: seq<Fact>, items: seq<Json>)
    requires |items| == |facts| && forall i | 0 <= i < |facts| :: ValidFact(facts[i]) && items[i] == FactPayload(facts[i])
    ensures DecodeFacts(items) == Some(facts)
  {
    if facts != [] {
      FactDecodes(facts[0]);
      FactsDecode(facts[1..], items[1..]);
      assert facts == [facts[0]] + facts[1..];
    }
  }

  lemma {:induction false} TiersDecode(tiers: seq<RiskTier>, items: seq<Json>)
    requires |items| == |tiers| && forall i | 0 <= i < |tiers| :: items[i] == Text(TierText(tiers[i]))
    ensures DecodeTiers(items) == Some(tiers)
  {
    if tiers != [] {
      TierDecodes(tiers[0]);
      TiersDecode(tiers[1..], items[1..]);
      assert tiers == [tiers[0]] + tiers[1..];
    }
  }

  lemma TierDecodes(t: RiskTier)
    ensures DecodeTier(Text(TierText(t))) == Some(t)
  {
    assert "low"[0] == 'l' && "high"[0] == 'h' && "unknown"[0] == 'u';
  }

  lemma {:induction false} DigestsDecode(digests: seq<Digest>, items: seq<Json>)
    requires |items| == |digests| && forall i | 0 <= i < |digests| :: items[i] == Hex(digests[i])
    ensures DecodeDigests(items) == Some(digests)
  {
    if digests != [] {
      DigestsDecode(digests[1..], items[1..]);
      assert digests == [digests[0]] + digests[1..];
    }
  }

  lemma ContextFields(c: RoutingContext)
    ensures Strict(ContextPayload(c), CONTEXT_FIELDS)
  {
  }

  predicate ContextLeaves(f: map<Field, Json>, c: RoutingContext)
    requires f.Keys == CONTEXT_FIELDS
  {
    && f[TaskScope] == Text(c.taskScope) && f[ApplicationScope] == Text(c.applicationScope)
    && f[ApplicationVersion] == Text(c.applicationVersion) && f[TaskDigest] == Hex(c.task)
    && f[RegistryDigest] == Hex(c.registry) && f[PolicyDigest] == Hex(c.policy)
    && f[Preconditions].List? && f[ActionRisks].List? && f[ActionCallDigests].List?
    && |f[Preconditions].items| == |c.preconditions|
    && (forall i | 0 <= i < |c.preconditions| :: f[Preconditions].items[i] == FactPayload(c.preconditions[i]))
    && |f[ActionRisks].items| == |c.risks|
    && (forall i | 0 <= i < |c.risks| :: f[ActionRisks].items[i] == Text(TierText(c.risks[i])))
    && |f[ActionCallDigests].items| == |c.callDigests|
    && (forall i | 0 <= i < |c.callDigests| :: f[ActionCallDigests].items[i] == Hex(c.callDigests[i]))
  }

  lemma ContextHasLeaves(c: RoutingContext)
    ensures Strict(ContextPayload(c), CONTEXT_FIELDS)
    ensures ContextLeaves(ContextPayload(c).fields, c)
  {
    ContextFields(c);
    hide Strict, FactPayload, TierText;
  }

  lemma ContextDecodes(c: RoutingContext)
    requires ValidContext(c)
    ensures DecodeContext(ContextPayload(c)) == Some(c)
  {
    ContextHasLeaves(c);
    var f := ContextPayload(c).fields;
    ContextFactsValid(c);
    hide PyEq, DecodeFacts, DecodeTiers, DecodeDigests, ValidContext, ContextPayload, FactPayload, TierText;
    FactsDecode(c.preconditions, f[Preconditions].items);
    TiersDecode(c.risks, f[ActionRisks].items);
    DigestsDecode(c.callDigests, f[ActionCallDigests].items);
    PyEqReflexive(ContextPayload(c));
  }

  lemma ContextFactsValid(c: RoutingContext)
    requires ValidContext(c)
    ensures forall i | 0 <= i < |c.preconditions| :: ValidFact(c.preconditions[i])
  {
  }

  lemma ChoiceDecodes(c: RouteChoice)
    ensures DecodeChoice(Text(ChoiceText(c))) == Some(c)
  {
    assert "active_baseline"[0] == 'a' && "canary_candidate"[0] == 'c' && "rollback_baseline"[0] == 'r';
  }

  lemma DecisionParts(d: Decision)
    ensures DecisionPart(d).Keys == DECISION_PART_FIELDS && DecisionFixed(d).Keys == DECISION_FIXED_FIELDS
  {
    hide ContextPayload, PinPayload, ChoiceText;
  }

  lemma DecisionPartsDisjoint()
    ensures DECISION_PART_FIELDS !! DECISION_FIXED_FIELDS
  {
  }

  lemma DecisionFields(d: Decision)
    ensures Strict(DecisionPayload(d), DECISION_FIELDS)
    ensures forall k | k in DECISION_PART_FIELDS :: DecisionPayload(d).fields[k] == DecisionPart(d)[k]
  {
    DecisionParts(d);
    DecisionPartsDisjoint();
    hide DecisionPart, DecisionFixed, DECISION_PART_FIELDS, DECISION_FIXED_FIELDS;
  }

  predicate DecisionLeaves(f: map<Field, Json>, d: Decision)
    requires DECISION_PART_FIELDS <= f.Keys
  {
    && f[DecisionVersion] == VersionPayload(d.version) && f[RolloutId] == Hex(d.rolloutId) && f[DecisionSequence] == Int(d.sequence)
    && f[Choice] == Text(ChoiceText(d.choice)) && f[SelectedProcedure] == PinPayload(d.selected)
    && f[SelectedEvidenceDigest] == Hex(d.selectedEvidence) && f[ActiveBaseline] == PinPayload(d.baseline)
    && f[Candidate] == PinPayload(d.candidate) && f[Context] == ContextPayload(d.context)
    && f[IssuedAt] == Int(d.issuedAt) && f[Reason] == Text(d.reason)
  }

  lemma DecisionPartLeaves(d: Decision)
    ensures DECISION_PART_FIELDS <= DecisionPart(d).Keys && DecisionLeaves(DecisionPart(d), d)
  {
    hide ContextPayload, PinPayload, ChoiceText;
  }

  lemma SameDecisionLeaves(f: map<Field, Json>, g: map<Field, Json>, d: Decision)
    requires DECISION_PART_FIELDS <= f.Keys && DECISION_PART_FIELDS <= g.Keys && forall k | k in DECISION_PART_FIELDS :: f[k] == g[k]
    requires DecisionLeaves(g, d)
    ensures DecisionLeaves(f, d)
  {
    hide ContextPayload, PinPayload, ChoiceText;
  }

  lemma DecisionHasLeaves(d: Decision)
    ensures Strict(DecisionPayload(d), DECISION_FIELDS)
    ensures DecisionLeaves(DecisionPayload(d).fields, d)
  {
    hide DecisionPayload, DecisionPart, DecisionFixed, DECISION_PART_FIELDS, DECISION_FIXED_FIELDS, DecisionLeaves;
    DecisionFields(d);
    DecisionPartLeaves(d);
    SameDecisionLeaves(DecisionPayload(d).fields, DecisionPart(d), d);
  }

  lemma DecisionDecodes(d: Decision)
    requires DecisionFormed(d)
    ensures DecodeDecision(DecisionPayload(d)) == Some(d)
  {
    DecisionHasLeaves(d);
    hide PyEq, DecodeContext, DecodePin, DecodeChoice, ContextPayload, PinPayload, ValidContext, DecisionPayload, CheckDecision, ChoiceText, ValidPin;
    ChoiceDecodes(d.choice);
    PinDecodes(d.selected);
    PinDecodes(d.baseline);
    PinDecodes(d.candidate);
    ContextDecodes(d.context);
    PyEqReflexive(DecisionPayload(d));
  }

  lemma StatusDecodes(s: RolloutStatus)
    ensures DecodeStatus(Text(StatusText(s))) == Some(s)
  {
    assert "warmup"[0] == 'w' && "canary"[1] == 'a' && "complete"[1] == 'o' && "rolled_back"[0] == 'r';
    assert "canary"[0] == 'c';
  }

  lemma PartFields(r: Rollout)
    ensures IdentityPart(r.identity).Keys == IDENTITY_FIELDS
    ensures StatePart(r).Keys == STATE_FIELDS
    ensures FixedPart(r.identity).Keys == FIXED_FIELDS
  {
    hide DecisionPayload, PinPayload, PolicyPayload, StatusText;
  }

  lemma PartsDisjoint()
    ensures IDENTITY_FIELDS !! STATE_FIELDS && IDENTITY_FIELDS !! FIXED_FIELDS && STATE_FIELDS !! FIXED_FIELDS
  {
  }

  /** A payload is looked up in its parts. */
  lemma RolloutFields(r: Rollout)
    ensures Strict(RolloutPayload(r), ROLLOUT_FIELDS)
    ensures var f := RolloutPayload(r).fields;
      && (forall k | k in IDENTITY_FIELDS :: f[k] == IdentityPart(r.identity)[k])
      && (forall k | k in STATE_FIELDS :: f[k] == StatePart(r)[k])
      && (forall k | k in FIXED_FIELDS :: f[k] == FixedPart(r.identity)[k])
  {
    PartFields(r);
    PartsDisjoint();
    hide IdentityPart, StatePart, FixedPart, IDENTITY_FIELDS, STATE_FIELDS, FIXED_FIELDS;
  }

  /** The leaves of a rollout payload that its decoder reads. */
  predicate IdentityLeavesOf(f: map<Field, Json>, d: Identity)
    requires IDENTITY_FIELDS <= f.Keys
  {
    && DecodePolicy(f[RolloutPolicy]) == Some(d.policy)
    && f[ComparisonDigest] == Hex(d.comparison) && f[EquivalenceDigest] == Hex(d.equivalence)
    && f[FixtureSuiteDigest] == Hex(d.fixtureSuite)
    && f[ActiveBaseline] == PinPayload(d.baseline) && f[Candidate] == PinPayload(d.candidate)
    && f[ActiveEvidenceDigest] == Hex(d.baselineEvidence) && f[CandidateEvidenceDigest] == Hex(d.candidateEvidence)
    && f[CreatedAt] == Int(d.createdAt) && f[ExpiresAt] == Int(d.expiresAt)
  }

  predicate StateLeavesOf(f: map<Field, Json>, r: Rollout)
    requires STATE_FIELDS <= f.Keys
  {
    && f[RolloutVersion] == VersionPayload(r.version) && f[RolloutId] == Hex(r.rolloutId)
    && f[Status] == Text(StatusText(r.status)) && f[Revision] == Int(r.revision)
    && f[LowRiskDecisions] == Int(r.lowRisk)
    && f[ActiveSelections] == Int(r.activeSelections) && f[ActiveSuccesses] == Int(r.activeSuccesses)
    && f[CandidateSelections] == Int(r.candidateSelections) && f[CandidateSuccesses] == Int(r.candidateSuccesses)
    && f[PendingDecision] == (if r.pending.None? then Null else DecisionPayload(r.pending.value))
    && f[LastOutcomeDigest] == (if r.lastOutcome.None? then Null else Hex(r.lastOutcome.value))
    && f[RollbackReason] == (if r.rollbackReason.None? then Null else Text(r.rollbackReason.value))
  }

  predicate RolloutLeaves(f: map<Field, Json>, r: Rollout)
    requires f.Keys == ROLLOUT_FIELDS
  {
    IdentityLeavesOf(f, r.identity) && StateLeavesOf(f, r)
  }

  lemma IdentityPartLeaves(d: Identity)
    ensures IDENTITY_FIELDS <= IdentityPart(d).Keys && IdentityLeavesOf(IdentityPart(d), d)
  {
    PolicyDecodes(d.policy);
    hide PinPayload, PolicyPayload, DecodePolicy;
  }

  lemma StatePartLeaves(r: Rollout)
    ensures STATE_FIELDS <= StatePart(r).Keys && StateLeavesOf(StatePart(r), r)
  {
    hide DecisionPayload, StatusText;
  }

  lemma FixedPartLeaves(d: Identity)
    ensures FIXED_FIELDS <= FixedPart(d).Keys && FixedLeavesOf(FixedPart(d), d)
  {
    hide PinPayload, PolicyPayload;
  }

  lemma SameIdentityLeaves(f: map<Field, Json>, g: map<Field, Json>, d: Identity)
    requires IDENTITY_FIELDS <= f.Keys && IDENTITY_FIELDS <= g.Keys && forall k | k in IDENTITY_FIELDS :: f[k] == g[k]
    requires IdentityLeavesOf(g, d)
    ensures IdentityLeavesOf(f, d)
  {
    hide PinPayload, DecodePolicy;
  }

  lemma SameStateLeaves(f: map<Field, Json>, g: map<Field, Json>, r: Rollout)
    requires STATE_FIELDS <= f.Keys && STATE_FIELDS <= g.Keys && forall k | k in STATE_FIELDS :: f[k] == g[k]
    requires StateLeavesOf(g, r)
    ensures StateLeavesOf(f, r)
  {
    hide DecisionPayload, StatusText;
  }

  lemma RolloutHasLeaves(r: Rollout)
    ensures Strict(RolloutPayload(r), ROLLOUT_FIELDS) && RolloutLeaves(RolloutPayload(r).fields, r)
  {
    hide IdentityLeavesOf, StateLeavesOf, RolloutPayload, IdentityPart, StatePart, FixedPart, IDENTITY_FIELDS, STATE_FIELDS, FIXED_FIELDS;
    RolloutFields(r);
    IdentityPartLeaves(r.identity);
    StatePartLeaves(r);
    SameIdentityLeaves(RolloutPayload(r).fields, IdentityPart(r.identity), r.identity);
    SameStateLeaves(RolloutPayload(r).fields, StatePart(r), r);
  }

  lemma IdentityDecodes(f: map<Field, Json>, r: Rollout)
    requires f.Keys == ROLLOUT_FIELDS && RolloutLeaves(f, r)
    requires ValidPin(r.identity.baseline) && ValidPin(r.identity.candidate)
    ensures DecodeIdentity(f) == Some(r.identity)
  {
    PinDecodes(r.identity.baseline);
    PinDecodes(r.identity.candidate);
    hide DecodePolicy, DecodePin, PolicyPayload, PinPayload, StateLeavesOf;
  }

  lemma DecisionIsObject(d: Decision)
    ensures DecisionPayload(d).Obj?
  {
    hide PinPayload, ContextPayload, ChoiceText;
  }

  lemma OptionalsDecode(r: Rollout)
    requires r.pending.Some? ==> DecisionFormed(r.pending.value)
    ensures DecodePending(if r.pending.None? then Null else DecisionPayload(r.pending.value)) == Some(r.pending)
    ensures DecodeOutcome(if r.lastOutcome.None? then Null else Hex(r.lastOutcome.value)) == Some(r.lastOutcome)
    ensures DecodeReason(if r.rollbackReason.None? then Null else Text(r.rollbackReason.value)) == Some(r.rollbackReason)
  {
    hide DecodeDecision, DecisionPayload, DecisionFormed, Strict;
    if r.pending.Some? {
      DecisionDecodes(r.pending.value);
      DecisionIsObject(r.pending.value);
    }
  }

  lemma LeavesDecode(j: Json, r: Rollout)
    requires Strict(j, ROLLOUT_FIELDS) && RolloutLeaves(j.fields, r)
    requires DecodeIdentity(j.fields) == Some(r.identity)
    requires DecodeStatus(j.fields[Status]) == Some(r.status)
    requires DecodePending(j.fields[PendingDecision]) == Some(r.pending)
    requires DecodeOutcome(j.fields[LastOutcomeDigest]) == Some(r.lastOutcome)
    requires DecodeReason(j.fields[RollbackReason]) == Some(r.rollbackReason)
    requires CheckRollout(r).Ok? && PyEq(RolloutPayload(r), j)
    ensures DecodeRollout(j) == Some(r)
  {
    CountersFit(j.fields, r);
    hide PyEq, DecodeIdentity, DecodeStatus, DecodePending, DecodeOutcome, DecodeReason, IdentityLeavesOf, StateLeavesOf,
      CheckRollout, RolloutPayload, CounterLeaves, DecodeVersion;
  }

  lemma VersionDecodes(v: VersionOne)
    ensures DecodeVersion(VersionPayload(v)) == Some(v)
  {
  }

  lemma CountersFit(f: map<Field, Json>, r: Rollout)
    requires f.Keys == ROLLOUT_FIELDS && StateLeavesOf(f, r)
    ensures CounterLeaves(f) && DecodeVersion(f[RolloutVersion]) == Some(r.version)
    ensures f[RolloutId].d == r.rolloutId && f[Revision].n == r.revision && f[LowRiskDecisions].n == r.lowRisk
    ensures f[ActiveSelections].n == r.activeSelections && f[ActiveSuccesses].n == r.activeSuccesses
    ensures f[CandidateSelections].n == r.candidateSelections && f[CandidateSuccesses].n == r.candidateSuccesses
  {
    VersionDecodes(r.version);
    hide DecisionPayload, StatusText, DecodeVersion, VersionPayload;
  }

  /** Any payload with the leaves of a rollout that equals its encoding by `==` decodes to it. */
  lemma SpellingDecodes(j: Json, r: Rollout)
    requires WellFormed(r) && Strict(j, ROLLOUT_FIELDS) && RolloutLeaves(j.fields, r) && PyEq(RolloutPayload(r), j)
    ensures DecodeRollout(j) == Some(r)
  {
    hide PyEq, DecodeIdentity, DecodeStatus, DecodePending, DecodeOutcome, DecodeReason, IdentityLeavesOf,
      DecisionPayload, CheckRollout, RolloutPayload, StatusText, DecodeRollout, DecisionFormed;
    IdentityDecodes(j.fields, r);
    StatusDecodes(r.status);
    OptionalsDecode(r);
    LeavesDecode(j, r);
  }

  lemma RolloutDecodes(r: Rollout)
    requires WellFormed(r)
    ensures DecodeRollout(RolloutPayload(r)) == Some(r)
  {
    hide RolloutLeaves, PyEq, WellFormed, RolloutPayload, DecodeRollout;
    RolloutHasLeaves(r);
    PyEqReflexive(RolloutPayload(r));
    SpellingDecodes(RolloutPayload(r), r);
  }

  /** Store round trip: decoding the envelope of a rollout returns that rollout. */
  lemma EnvelopeRoundTrip(r: Rollout)
    requires WellFormed(r)
    ensures DecodeEnvelope(Envelope(r)) == Ok(r)
  {
    hide DecodeRollout, RolloutPayload, WellFormed;
    RolloutDecodes(r);
    EnvelopeFields(r);
    hide Unsigned;
  }

  lemma EnvelopeFields(r: Rollout)
    ensures Strict(Envelope(r), ENVELOPE_FIELDS)
    ensures var f := Envelope(r).fields;
      && f[StoreVersion] == Int(1) && f[StoredRollout] == RolloutPayload(r) && f[RolloutDigest] == Hex(r.Digest())
      && f[EnvelopeDigest] == Hex(Sha(Obj(Unsigned(r)))) && f - {EnvelopeDigest} == Unsigned(r)
  {
    hide RolloutPayload;
  }

  // ---------- re-encoding an accepted payload ----------

  /** Flags are booleans; the value of a fact is one if its type says so. */
  predicate BooleanExpected(f: map<Field, Json>, k: Field) {
    if k == P.FactValue then FactType in f && f[FactType] == Text("boolean") else k.Flag?
  }

  /** The versions that `to_payload` writes back as they were read. */
  const ECHOED := {PolicyContractVersion, DecisionVersion, RolloutVersion}

  /** Booleans stand exactly where the format has booleans, floats at most where a version is echoed. */
  predicate InPlace(j: Json)
    decreases j
  {
    match j
    case Obj(f) =>
      forall k | k in f :: (f[k].Bool? <==> BooleanExpected(f, k)) && (f[k].Float? ==> k in ECHOED) && InPlace(f[k])
    case List(x) => forall i | 0 <= i < |x| :: !x[i].Bool? && !x[i].Float? && InPlace(x[i])
    case _ => true
  }

  /** No echoed version anywhere inside. */
  predicate Versionless(j: Json)
    decreases j
  {
    match j
    case Obj(f) => forall k | k in f :: k !in ECHOED && Versionless(f[k])
    case List(x) => forall i | 0 <= i < |x| :: Versionless(x[i])
    case _ => true
  }

  lemma SameExpectation(x: map<Field, Json>, y: map<Field, Json>, k: Field)
    requires x.Keys == y.Keys && forall l | l in x :: PyEq(x[l], y[l])
    ensures BooleanExpected(x, k) == BooleanExpected(y, k)
  {
    if k == P.FactValue && FactType in x {
      assert PyEq(x[FactType], y[FactType]);
    }
  }

  /** Where leaves are in place and no version is echoed, Python's equality is equality. */
  lemma {:induction false} PyEqExact(a: Json, b: Json)
    requires PyEq(a, b) && InPlace(a) && InPlace(b) && Versionless(a)
    requires a.Bool? == b.Bool? && !a.Float? && !b.Float?
    ensures a == b
    decreases a
  {
    match a
    case List(x) =>
      forall i | 0 <= i < |x|
        ensures x[i] == b.items[i]
      {
        PyEqExact(x[i], b.items[i]);
      }
    case Obj(x) =>
      forall k | k in x
        ensures x[k] == b.fields[k]
      {
        SameExpectation(x, b.fields, k);
        PyEqExact(x[k], b.fields[k]);
      }
      assert x == b.fields;
    case _ =>
  }

  /** Outside these fields nothing is echoed. */
  predicate Plain(f: map<Field, Json>, decoded: set<Field>) {
    forall k | k in f :: k in decoded || (k !in ECHOED && Versionless(f[k]))
  }

  lemma ObjectExact(x: map<Field, Json>, y: map<Field, Json>, decoded: set<Field>)
    requires PyEq(Obj(x), Obj(y)) && InPlace(Obj(x)) && InPlace(Obj(y)) && Plain(x, decoded)
    requires forall k | k in decoded && k in x && k in y :: x[k] == y[k]
    ensures x == y
  {
    forall k | k in x
      ensures x[k] == y[k]
    {
      if k !in decoded {
        SameExpectation(x, y, k);
        PyEqExact(x[k], y[k]);
      }
    }
  }

  lemma PlainTogether(f: map<Field, Json>, g: map<Field, Json>, decoded: set<Field>)
    requires Plain(f, decoded) && Plain(g, decoded)
    ensures Plain(f + g, decoded)
  {
    hide Versionless;
  }

  /** Leaves of the right kinds, under no echoed name. */
  predicate FlatFields(f: map<Field, Json>) {
    KindsRight(f) && forall k | k in f :: k !in ECHOED && !f[k].Obj? && !f[k].List?
  }

  lemma FlatInPlace(f: map<Field, Json>)
    requires FlatFields(f)
    ensures InPlace(Obj(f)) && Versionless(Obj(f))
  {
  }

  lemma PinFlat(p: ProcedurePin)
    ensures PinPayload(p).Obj? && FlatFields(PinPayload(p).fields)
  {
  }

  lemma PinInPlace(p: ProcedurePin)
    ensures InPlace(PinPayload(p)) && Versionless(PinPayload(p)) && PinPayload(p).Obj?
  {
    hide PinPayload, FlatFields;
    PinFlat(p);
    FlatInPlace(PinPayload(p).fields);
  }

  lemma FactFlags(f: Fact)
    ensures FactPayload(f).Obj?
    ensures forall k | k in FactPayload(f).fields ::
              && (FactPayload(f).fields[k].Bool? <==> BooleanExpected(FactPayload(f).fields, k))
              && k !in ECHOED && !FactPayload(f).fields[k].Float? && !FactPayload(f).fields[k].Obj? && !FactPayload(f).fields[k].List?
  {
    assert "boolean"[0] == 'b' && "integer"[0] == 'i';
  }

  lemma FactInPlace(f: Fact)
    ensures InPlace(FactPayload(f)) && Versionless(FactPayload(f)) && FactPayload(f).Obj?
  {
    hide FactPayload, BooleanExpected, ECHOED;
    FactFlags(f);
  }

  /** Every field that is not the value of a fact has the kind its name says. */
  predicate KindsRight(f: map<Field, Json>) {
    P.FactValue !in f && forall k | k in f :: (f[k].Bool? <==> k.Flag?) && (f[k].Float? ==> k in ECHOED)
  }

  predicate PartsInPlace(f: map<Field, Json>) {
    forall k | k in f :: InPlace(f[k])
  }

  lemma ObjInPlace(f: map<Field, Json>)
    requires KindsRight(f) && PartsInPlace(f)
    ensures InPlace(Obj(f))
  {
  }

  lemma AllFlags(f: map<Field, Json>)
    requires forall k | k in f :: f[k].Bool? && k.Flag?
    ensures InPlace(Obj(f)) && Versionless(Obj(f))
  {
  }

  lemma EligibilityFlat()
    ensures ELIGIBILITY.Obj? && FlatFields(ELIGIBILITY.fields)
  {
  }

  lemma EligibilityInPlace()
    ensures InPlace(ELIGIBILITY) && Versionless(ELIGIBILITY) && ELIGIBILITY.Obj?
  {
    EligibilityFlat();
    hide ELIGIBILITY;
    FlatInPlace(ELIGIBILITY.fields);
  }

  lemma RollbackInPlace()
    ensures InPlace(ROLLBACK_RULES) && Versionless(ROLLBACK_RULES) && ROLLBACK_RULES.Obj?
  {
    hide InPlace;
    AllFlags(ROLLBACK_RULES.fields);
  }

  lemma CapabilitiesInPlace()
    ensures InPlace(CAPABILITIES) && Versionless(CAPABILITIES) && CAPABILITIES.Obj?
  {
    hide InPlace;
    AllFlags(CAPABILITIES.fields);
  }

  lemma GatesInPlace()
    ensures InPlace(RUNTIME_GATES) && Versionless(RUNTIME_GATES) && RUNTIME_GATES.Obj?
  {
    hide InPlace;
    AllFlags(RUNTIME_GATES.fields);
  }

  lemma PolicyKinds(p: Policy)
    ensures PolicyPayload(p).Obj? && KindsRight(PolicyPayload(p).fields)
  {
    assert ELIGIBILITY.Obj? && ROLLBACK_RULES.Obj? && FractionPayload(p.interval).Obj?;
    hide ELIGIBILITY, ROLLBACK_RULES, FractionPayload;
  }

  lemma FractionInPlace(interval: int)
    ensures InPlace(FractionPayload(interval)) && Versionless(FractionPayload(interval)) && FractionPayload(interval).Obj?
  {
  }

  lemma PolicyInPlace(p: Policy)
    ensures InPlace(PolicyPayload(p)) && PolicyPayload(p).Obj?
  {
    hide KindsRight, ELIGIBILITY, ROLLBACK_RULES, FractionPayload;
    PolicyKinds(p);
    EligibilityInPlace();
    RollbackInPlace();
    FractionInPlace(p.interval);
    assert PartsInPlace(PolicyPayload(p).fields);
    ObjInPlace(PolicyPayload(p).fields);
  }

  lemma ContextLists(c: RoutingContext)
    ensures ContextPayload(c).Obj? && {Preconditions, ActionRisks, ActionCallDigests} <= ContextPayload(c).fields.Keys
    ensures var f := ContextPayload(c).fields;
      InPlace(f[Preconditions]) && InPlace(f[ActionRisks]) && InPlace(f[ActionCallDigests])
  {
    var f := ContextPayload(c).fields;
    forall i | 0 <= i < |c.preconditions|
      ensures InPlace(f[Preconditions].items[i]) && f[Preconditions].items[i].Obj?
    {
      FactInPlace(c.preconditions[i]);
    }
    hide FactPayload, TierText;
    assert forall i | 0 <= i < |c.preconditions| :: !f[Preconditions].items[i].Bool?;
  }

  lemma ContextKinds(c: RoutingContext)
    ensures ContextPayload(c).Obj? && KindsRight(ContextPayload(c).fields)
  {
    hide FactPayload, TierText;
  }

  lemma ContextInPlace(c: RoutingContext)
    ensures InPlace(ContextPayload(c)) && ContextPayload(c).Obj?
  {
    hide KindsRight, FactPayload, TierText;
    ContextLists(c);
    ContextKinds(c);
    assert PartsInPlace(ContextPayload(c).fields);
    ObjInPlace(ContextPayload(c).fields);
  }

  lemma DecisionPartKinds(d: Decision)
    ensures KindsRight(DecisionPart(d))
  {
    assert PinPayload(d.selected).Obj? && PinPayload(d.baseline).Obj? && PinPayload(d.candidate).Obj? && ContextPayload(d.context).Obj?;
    hide PinPayload, ContextPayload, ChoiceText;
  }

  lemma DecisionFixedInPlace(d: Decision)
    ensures KindsRight(DecisionFixed(d)) && PartsInPlace(DecisionFixed(d))
  {
    CapabilitiesInPlace();
    GatesInPlace();
    hide CAPABILITIES, RUNTIME_GATES, ContextPayload;
  }

  lemma DecisionInPlace(d: Decision)
    ensures InPlace(DecisionPayload(d)) && DecisionPayload(d).Obj?
  {
    hide KindsRight, PinPayload, ContextPayload, ChoiceText, DecisionFixed;
    PinInPlace(d.selected);
    PinInPlace(d.baseline);
    PinInPlace(d.candidate);
    ContextInPlace(d.context);
    assert PartsInPlace(DecisionPart(d));
    DecisionPartKinds(d);
    DecisionFixedInPlace(d);
    hide DecisionPart, PartsInPlace;
    InPlaceTogether(DecisionPart(d), DecisionFixed(d));
    ObjInPlace(DecisionPayload(d).fields);
  }

  /** The leaves of a rollout payload that its decoder does not read. */
  predicate FixedLeavesOf(f: map<Field, Json>, d: Identity)
    requires FIXED_FIELDS <= f.Keys
  {
    && f[PolicyDigest] == Hex(Sha(PolicyPayload(d.policy))) && f[FallbackProcedure] == PinPayload(d.baseline)
    && f[Flag(AutomaticCandidateRetry)] == Bool(false) && f[Flag(AutomaticPromotion)] == Bool(false)
    && f[DataClass] == DATA_CLASS && f[Use] == USE
  }

  lemma IdentityKinds(d: Identity)
    ensures KindsRight(IdentityPart(d))
  {
    assert PinPayload(d.baseline).Obj? && PinPayload(d.candidate).Obj? && PolicyPayload(d.policy).Obj?;
    hide PinPayload, PolicyPayload;
  }

  lemma StateLeafKinds(f: map<Field, Json>, r: Rollout)
    requires f.Keys == STATE_FIELDS && StateLeavesOf(f, r)
    requires r.pending.Some? ==> DecisionPayload(r.pending.value).Obj?
    ensures KindsRight(f)
  {
    hide DecisionPayload, StatusText;
  }

  lemma StateKinds(r: Rollout)
    ensures KindsRight(StatePart(r))
  {
    hide StatePart, DecisionPayload, StatusText, KindsRight;
    StatePartLeaves(r);
    PartFields(r);
    if r.pending.Some? {
      DecisionIsObject(r.pending.value);
    }
    StateLeafKinds(StatePart(r), r);
  }

  lemma FixedKinds(d: Identity)
    ensures KindsRight(FixedPart(d)) && PartsInPlace(FixedPart(d))
  {
    PinInPlace(d.baseline);
    hide PinPayload, PolicyPayload;
  }

  lemma InPlaceTogether(f: map<Field, Json>, g: map<Field, Json>)
    requires KindsRight(f) && KindsRight(g) && PartsInPlace(f) && PartsInPlace(g)
    ensures KindsRight(f + g) && PartsInPlace(f + g)
  {
    hide InPlace;
  }

  lemma RolloutInPlace(r: Rollout)
    ensures InPlace(RolloutPayload(r)) && RolloutPayload(r).Obj?
  {
    hide KindsRight, PinPayload, PolicyPayload, DecisionPayload, StatusText, FixedPart;
    PinInPlace(r.identity.baseline);
    PinInPlace(r.identity.candidate);
    PolicyInPlace(r.identity.policy);
    if r.pending.Some? {
      DecisionInPlace(r.pending.value);
    }
    assert PartsInPlace(IdentityPart(r.identity)) && PartsInPlace(StatePart(r));
    IdentityKinds(r.identity);
    StateKinds(r);
    FixedKinds(r.identity);
    hide IdentityPart, StatePart, PartsInPlace;
    InPlaceTogether(IdentityPart(r.identity), StatePart(r));
    InPlaceTogether(IdentityPart(r.identity) + StatePart(r), FixedPart(r.identity));
    ObjInPlace(RolloutPayload(r).fields);
  }

  // ---------- which accepted payloads are their own re-encoding ----------

  lemma PolicyPlain(p: Policy)
    ensures PolicyPayload(p).Obj? && Plain(PolicyPayload(p).fields, {PolicyContractVersion})
  {
    EligibilityInPlace();
    RollbackInPlace();
    FractionInPlace(p.interval);
    hide InPlace, ELIGIBILITY, ROLLBACK_RULES, FractionPayload;
  }

  lemma AcceptedPolicy(j: Json)
    requires DecodePolicy(j).Some?
    ensures var p := DecodePolicy(j).value;
      && PyEq(PolicyPayload(p), j) && j.Obj? && PolicyPayload(p).Obj?
      && PolicyContractVersion in j.fields && PolicyContractVersion in PolicyPayload(p).fields
      && PolicyPayload(p).fields[PolicyContractVersion] == j.fields[PolicyContractVersion]
  {
    hide PyEq, ELIGIBILITY, ROLLBACK_RULES, FractionPayload;
  }

  lemma PolicyExact(j: Json)
    requires DecodePolicy(j).Some? && InPlace(j)
    ensures PolicyPayload(DecodePolicy(j).value) == j
  {
    hide DecodePolicy, PolicyPayload, PyEq, InPlace, Plain;
    var p := DecodePolicy(j).value;
    AcceptedPolicy(j);
    PolicyInPlace(p);
    PolicyPlain(p);
    ObjectExact(PolicyPayload(p).fields, j.fields, {PolicyContractVersion});
  }

  lemma ContextVersionless(c: RoutingContext)
    ensures Versionless(ContextPayload(c))
  {
    var f := ContextPayload(c).fields;
    forall i | 0 <= i < |c.preconditions|
      ensures Versionless(f[Preconditions].items[i])
    {
      FactInPlace(c.preconditions[i]);
    }
    hide FactPayload, TierText, InPlace;
    assert Versionless(f[Preconditions]) && Versionless(f[ActionRisks]) && Versionless(f[ActionCallDigests]);
  }

  lemma DecisionPartPlain(d: Decision)
    ensures Plain(DecisionPart(d), {DecisionVersion})
  {
    PinInPlace(d.selected);
    PinInPlace(d.baseline);
    PinInPlace(d.candidate);
    ContextVersionless(d.context);
    hide InPlace, PinPayload, ContextPayload, ChoiceText;
  }

  lemma DecisionFixedPlain(d: Decision)
    ensures Plain(DecisionFixed(d), {DecisionVersion})
  {
    CapabilitiesInPlace();
    GatesInPlace();
    hide InPlace, ContextPayload, CAPABILITIES, RUNTIME_GATES;
  }

  lemma DecisionPlain(d: Decision)
    ensures DecisionPayload(d).Obj? && Plain(DecisionPayload(d).fields, {DecisionVersion})
  {
    hide Plain, DecisionPart, DecisionFixed;
    DecisionPartPlain(d);
    DecisionFixedPlain(d);
    PlainTogether(DecisionPart(d), DecisionFixed(d), {DecisionVersion});
  }

  lemma AcceptedDecision(j: Json)
    requires DecodeDecision(j).Some?
    ensures var d := DecodeDecision(j).value;
      PyEq(DecisionPayload(d), j) && j.Obj? && DecisionVersion in j.fields && VersionPayload(d.version) == j.fields[DecisionVersion]
  {
    hide PyEq, DecodePin, DecodeContext, DecodeChoice, CheckDecision, DecisionPayload;
  }

  lemma DecisionExact(j: Json)
    requires DecodeDecision(j).Some? && InPlace(j)
    ensures DecisionPayload(DecodeDecision(j).value) == j
  {
    hide DecodeDecision, DecisionPayload, PyEq, InPlace, Plain;
    var d := DecodeDecision(j).value;
    AcceptedDecision(j);
    DecisionInPlace(d);
    DecisionPlain(d);
    DecisionVersionLeaf(d);
    ObjectExact(DecisionPayload(d).fields, j.fields, {DecisionVersion});
  }

  lemma DecisionVersionLeaf(d: Decision)
    ensures DecisionPayload(d).Obj? && DecisionVersion in DecisionPayload(d).fields
    ensures DecisionPayload(d).fields[DecisionVersion] == VersionPayload(d.version)
  {
    DecisionHasLeaves(d);
    hide DecisionPayload;
  }

  /** The fields of a rollout payload that are decoded on their own. */
  const DECODED := {RolloutVersion, RolloutPolicy, PendingDecision}

  lemma IdentityPlain(d: Identity)
    ensures Plain(IdentityPart(d), DECODED)
  {
    PinInPlace(d.baseline);
    PinInPlace(d.candidate);
    hide InPlace, PinPayload, PolicyPayload;
  }

  lemma StatePlain(r: Rollout)
    ensures Plain(StatePart(r), DECODED)
  {
    hide InPlace, DecisionPayload, StatusText;
  }

  lemma FixedPlain(d: Identity)
    ensures Plain(FixedPart(d), DECODED)
  {
    PinInPlace(d.baseline);
    hide InPlace, PinPayload, PolicyPayload;
  }

  lemma RolloutPlain(r: Rollout)
    ensures RolloutPayload(r).Obj? && Plain(RolloutPayload(r).fields, DECODED)
  {
    hide Plain, IdentityPart, StatePart, FixedPart;
    IdentityPlain(r.identity);
    StatePlain(r);
    FixedPlain(r.identity);
    PlainTogether(IdentityPart(r.identity), StatePart(r), DECODED);
    PlainTogether(IdentityPart(r.identity) + StatePart(r), FixedPart(r.identity), DECODED);
  }

  lemma AcceptedRollout(j: Json)
    requires DecodeRollout(j).Some?
    ensures var r := DecodeRollout(j).value;
      && PyEq(RolloutPayload(r), j) && Strict(j, ROLLOUT_FIELDS)
      && VersionPayload(r.version) == j.fields[RolloutVersion]
      && DecodePolicy(j.fields[RolloutPolicy]) == Some(r.identity.policy)
      && DecodePending(j.fields[PendingDecision]) == Some(r.pending)
  {
    hide PyEq, CheckRollout, DecodePolicy, DecodePin, DecodeStatus, DecodePending, DecodeOutcome, DecodeReason, RolloutPayload;
  }

  lemma PolicyLeaf(r: Rollout)
    ensures RolloutPolicy in IDENTITY_FIELDS && RolloutPolicy in IdentityPart(r.identity)
    ensures IdentityPart(r.identity)[RolloutPolicy] == PolicyPayload(r.identity.policy)
  {
    hide PolicyPayload, PinPayload;
  }

  lemma RolloutDecodedLeaves(r: Rollout)
    ensures RolloutPayload(r).Obj? && DECODED <= RolloutPayload(r).fields.Keys
    ensures var f := RolloutPayload(r).fields;
      && f[RolloutVersion] == VersionPayload(r.version) && f[RolloutPolicy] == PolicyPayload(r.identity.policy)
      && f[PendingDecision] == (if r.pending.None? then Null else DecisionPayload(r.pending.value))
  {
    RolloutHasLeaves(r);
    RolloutFields(r);
    PolicyLeaf(r);
    hide RolloutPayload, PolicyPayload, DecisionPayload, IdentityPart, StatePart, FixedPart, IDENTITY_FIELDS, FIXED_FIELDS, IdentityLeavesOf;
  }

  lemma PendingExact(j: Json)
    requires DecodePending(j).Some? && InPlace(j)
    ensures var d := DecodePending(j).value; j == if d.None? then Null else DecisionPayload(d.value)
  {
    hide DecodeDecision, DecisionPayload, InPlace;
    if !j.Null? {
      DecisionExact(j);
    }
  }

  lemma InPlaceField(j: Json, k: Field)
    requires j.Obj? && k in j.fields && InPlace(j)
    ensures InPlace(j.fields[k])
  {
  }

  lemma RolloutExact(j: Json)
    requires DecodeRollout(j).Some? && InPlace(j)
    ensures RolloutPayload(DecodeRollout(j).value) == j
  {
    hide DecodeRollout, RolloutPayload, PolicyPayload, DecisionPayload, PyEq, InPlace, Plain, DecodePolicy, DecodePending;
    var r := DecodeRollout(j).value;
    AcceptedRollout(j);
    RolloutInPlace(r);
    RolloutPlain(r);
    RolloutDecodedLeaves(r);
    InPlaceField(j, RolloutPolicy);
    InPlaceField(j, PendingDecision);
    PolicyExact(j.fields[RolloutPolicy]);
    PendingExact(j.fields[PendingDecision]);
    ObjectExact(RolloutPayload(r).fields, j.fields, DECODED);
  }

  /**
    A payload the decoder accepts equals its re-encoding by Python's `==`, and is
    exactly its re-encoding if and only if its booleans and floats are in place.
  */
  lemma ReencodesIff(j: Json)
    requires DecodeRollout(j).Some?
    ensures PyEq(RolloutPayload(DecodeRollout(j).value), j)
    ensures RolloutPayload(DecodeRollout(j).value) == j <==> InPlace(j)
  {
    hide DecodeRollout, RolloutPayload, PyEq, InPlace;
    AcceptedRollout(j);
    RolloutInPlace(DecodeRollout(j).value);
    if InPlace(j) {
      RolloutExact(j);
    }
  }

  /** The same for a whole stored envelope. */
  lemma EnvelopeReencodesIff(j: Json)
    requires DecodeEnvelope(j).Ok?
    ensures Envelope(DecodeEnvelope(j).value) == j <==> InPlace(j)
  {
    hide RolloutPayload, DecodeRollout, PyEq, Envelope, DecodeEnvelope;
    var r := DecodeEnvelope(j).value;
    EnvelopeInPlace(r);
    StoredAccepted(j);
    if InPlace(j) {
      PartsOf(j);
      ReencodesIff(j.fields[StoredRollout]);
      EnvelopeExact(j, r);
    }
  }

  lemma PartsOf(j: Json)
    requires Strict(j, ENVELOPE_FIELDS) && InPlace(j)
    ensures InPlace(j.fields[StoredRollout]) && !j.fields[StoreVersion].Bool? && !j.fields[StoreVersion].Float?
  {
  }

  lemma StoredAccepted(j: Json)
    requires DecodeEnvelope(j).Ok?
    ensures Strict(j, ENVELOPE_FIELDS) && DecodeRollout(j.fields[StoredRollout]) == Some(DecodeEnvelope(j).value)
  {
    hide DecodeRollout, PyEq;
  }

  lemma UnsignedKinds(f: map<Field, Json>)
    requires f.Keys == {StoreVersion, StoredRollout, RolloutDigest}
    requires f[StoreVersion].Int? && f[StoredRollout].Obj? && f[RolloutDigest].Hex?
    ensures KindsRight(f)
  {
  }

  lemma SignedKinds(f: map<Field, Json>, d: Json)
    requires KindsRight(f) && d.Hex?
    ensures KindsRight(f[EnvelopeDigest := d])
  {
  }

  lemma PayloadIsObject(r: Rollout)
    ensures RolloutPayload(r).Obj?
  {
    hide IdentityPart, StatePart, FixedPart;
  }

  lemma EnvelopeIs(r: Rollout)
    ensures Envelope(r) == Obj(Unsigned(r)[EnvelopeDigest := Hex(Sha(Obj(Unsigned(r))))])
  {
    hide Unsigned;
  }

  lemma EnvelopeKinds(r: Rollout)
    ensures Envelope(r).Obj? && KindsRight(Envelope(r).fields)
  {
    hide *;
    PayloadIsObject(r);
    UnsignedParts(r);
    UnsignedKinds(Unsigned(r));
    SignedKinds(Unsigned(r), Hex(Sha(Obj(Unsigned(r)))));
    EnvelopeIs(r);
  }

  lemma EnvelopeInPlace(r: Rollout)
    ensures InPlace(Envelope(r))
  {
    hide RolloutPayload, Unsigned, KindsRight, Envelope;
    RolloutInPlace(r);
    EnvelopeFields(r);
    EnvelopeKinds(r);
    assert PartsInPlace(Envelope(r).fields);
    ObjInPlace(Envelope(r).fields);
  }

  lemma EnvelopeExact(j: Json, r: Rollout)
    requires DecodeEnvelope(j) == Ok(r) && RolloutPayload(r) == j.fields[StoredRollout]
    requires !j.fields[StoreVersion].Bool? && !j.fields[StoreVersion].Float?
    ensures Envelope(r) == j
  {
    hide DecodeRollout, RolloutPayload;
    var f := j.fields;
    assert f[StoreVersion] == Int(1);
    assert f - {EnvelopeDigest} == Unsigned(r);
    assert f == Unsigned(r)[EnvelopeDigest := Hex(Sha(Obj(Unsigned(r))))];
  }

  // ---------- accepted payloads that are rewritten ----------

  lemma PyEqUpdate(f: map<Field, Json>, k: Field, v: Json)
    requires k in f && PyEq(f[k], v)
    ensures PyEq(Obj(f), Obj(f[k := v]))
  {
    forall l | l in f
      ensures PyEq(f[l], f[k := v][l])
    {
      PyEqReflexive(f[l]);
    }
    hide PyEq;
    PyEqFields(f, f[k := v]);
  }

  lemma PyEqFields(x: map<Field, Json>, y: map<Field, Json>)
    requires x.Keys == y.Keys && forall k | k in x :: PyEq(x[k], y[k])
    ensures PyEq(Obj(x), Obj(y))
  {
  }

  lemma PromotionLeaf(r: Rollout)
    ensures RolloutPayload(r).Obj? && Flag(AutomaticPromotion) in RolloutPayload(r).fields
    ensures RolloutPayload(r).fields[Flag(AutomaticPromotion)] == Bool(false)
  {
    FixedPartLeaves(r.identity);
    RolloutFields(r);
    hide RolloutPayload, PolicyPayload, PinPayload, IdentityPart, StatePart;
  }

  lemma LeavesAside(f: map<Field, Json>, r: Rollout, v: Json)
    requires f.Keys == ROLLOUT_FIELDS && RolloutLeaves(f, r)
    ensures f[Flag(AutomaticPromotion) := v].Keys == ROLLOUT_FIELDS && RolloutLeaves(f[Flag(AutomaticPromotion) := v], r)
  {
    hide PolicyPayload, PinPayload, DecisionPayload, StatusText;
  }

  /** Not every accepted payload is in place: 0 stands for false everywhere, and is accepted. */
  lemma ZeroAccepted(r: Rollout)
    requires WellFormed(r)
    ensures RolloutPayload(r).Obj?
    ensures var j := Obj(RolloutPayload(r).fields[Flag(AutomaticPromotion) := Int(0)]);
      DecodeRollout(j) == Some(r) && RolloutPayload(r) != j
  {
    PromotionLeaf(r);
    assert PyEq(Bool(false), Int(0));
    hide RolloutPayload, RolloutLeaves, PyEq, WellFormed, DecodeRollout;
    var f := RolloutPayload(r).fields;
    var j := Obj(f[Flag(AutomaticPromotion) := Int(0)]);
    RolloutHasLeaves(r);
    LeavesAside(f, r, Int(0));
    PyEqUpdate(f, Flag(AutomaticPromotion), Int(0));
    SpellingDecodes(j, r);
    assert j.fields[Flag(AutomaticPromotion)] == Int(0);
  }

  /** The policy payload with its fraction spelled in floats. */
  function FloatFraction(p: Policy): Json {
    Obj(PolicyPayload(p).fields[
      MaximumCanaryFraction := Obj(map[Numerator := Float(1.0), Denominator := Float(p.interval as real)])])
  }

  lemma FractionLeaf(p: Policy)
    ensures MaximumCanaryFraction in PolicyPayload(p).fields
    ensures var x, v := PolicyPayload(p).fields[MaximumCanaryFraction], FloatFraction(p).fields[MaximumCanaryFraction];
      PyEq(x, v) && x != v
    ensures FloatFraction(p) == Obj(PolicyPayload(p).fields[MaximumCanaryFraction := FloatFraction(p).fields[MaximumCanaryFraction]])
  {
    assert PolicyPayload(p).fields[MaximumCanaryFraction] == FractionPayload(p.interval);
    hide ELIGIBILITY, ROLLBACK_RULES, PolicyPayload;
    var v := FloatFraction(p).fields[MaximumCanaryFraction];
    assert FractionPayload(p.interval).fields[Numerator] == Int(1) && v.fields[Numerator] == Float(1.0);
  }

  /** The leaves the policy decoder reads. */
  lemma PolicySpelling(p: Policy, v: Json)
    ensures Strict(PolicyPayload(p), POLICY_FIELDS)
    ensures var f := PolicyPayload(p).fields[MaximumCanaryFraction := v];
      && f.Keys == POLICY_FIELDS
      && f[PolicyId] == Text(p.policyId) && f[PolicyVersion] == Int(p.version) && f[BaselineWarmupSuccesses] == Int(p.warmup)
      && f[CanaryInterval] == Int(p.interval) && f[MaxCanaryRuns] == Int(p.maxRuns)
      && DecodeVersion(f[PolicyContractVersion]) == Some(p.contract)
  {
    hide ELIGIBILITY, ROLLBACK_RULES, FractionPayload;
  }

  lemma FloatFractionDecodes(p: Policy)
    ensures DecodePolicy(FloatFraction(p)) == Some(p)
    ensures PyEq(PolicyPayload(p), FloatFraction(p)) && PolicyPayload(p) != FloatFraction(p)
  {
    FractionLeaf(p);
    var v := FloatFraction(p).fields[MaximumCanaryFraction];
    PolicySpelling(p, v);
    hide PyEq, PolicyPayload, FloatFraction, POLICY_FIELDS, DecodeVersion;
    PyEqUpdate(PolicyPayload(p).fields, MaximumCanaryFraction, v);
    assert FloatFraction(p).fields[MaximumCanaryFraction] == v;
  }

  lemma FractionAside(f: map<Field, Json>, r: Rollout, v: Json)
    requires f.Keys == ROLLOUT_FIELDS && RolloutLeaves(f, r) && DecodePolicy(v) == Some(r.identity.policy)
    ensures f[RolloutPolicy := v].Keys == ROLLOUT_FIELDS && RolloutLeaves(f[RolloutPolicy := v], r)
  {
    hide DecodePolicy, PinPayload, DecisionPayload, StatusText;
  }

  /** Floats in the canary fraction are accepted, and rewritten as integers. */
  lemma FloatFractionAccepted(r: Rollout)
    requires WellFormed(r)
    ensures RolloutPayload(r).Obj?
    ensures var j := Obj(RolloutPayload(r).fields[RolloutPolicy := FloatFraction(r.identity.policy)]);
      DecodeRollout(j) == Some(r) && RolloutPayload(r) != j
  {
    hide RolloutPayload, RolloutLeaves, PyEq, WellFormed, DecodeRollout, DecodePolicy, FloatFraction, PolicyPayload, DecisionPayload;
    RolloutDecodedLeaves(r);
    RolloutHasLeaves(r);
    var f, v := RolloutPayload(r).fields, FloatFraction(r.identity.policy);
    var j := Obj(f[RolloutPolicy := v]);
    FloatFractionDecodes(r.identity.policy);
    FractionAside(f, r, v);
    PyEqUpdate(f, RolloutPolicy, v);
    SpellingDecodes(j, r);
    assert j.fields[RolloutPolicy] == v;
  }

  lemma UnsignedParts(r: Rollout)
    ensures var f := Unsigned(r);
      && f.Keys == {StoreVersion, StoredRollout, RolloutDigest} && f[StoreVersion] == Int(1)
      && f[StoredRollout] == RolloutPayload(r) && f[RolloutDigest] == Hex(r.Digest())
  {
    hide RolloutPayload;
  }

  lemma SignedVersion(unsigned: map<Field, Json>)
    requires StoreVersion in unsigned
    ensures Signed(unsigned).fields[StoreVersion] == unsigned[StoreVersion]
  {
  }

  lemma SignedDecodes(unsigned: map<Field, Json>, r: Rollout)
    requires unsigned.Keys == {StoreVersion, StoredRollout, RolloutDigest}
    requires PyEq(Int(1), unsigned[StoreVersion]) && DecodeRollout(unsigned[StoredRollout]) == Some(r)
    requires unsigned[RolloutDigest] == Hex(r.Digest())
    ensures DecodeEnvelope(Signed(unsigned)) == Ok(r)
  {
    hide PyEq, DecodeRollout, RolloutPayload;
    var f := unsigned[EnvelopeDigest := Hex(Sha(Obj(unsigned)))];
    assert f - {EnvelopeDigest} == unsigned;
  }

  lemma OneIsFloat()
    ensures PyEq(Int(1), Float(1.0))
  {
  }

  /** So is a float in place of the version of the store, with the digest taken accordingly. */
  lemma FloatStoreVersionAccepted(r: Rollout)
    requires WellFormed(r)
    ensures var j := Signed(Unsigned(r)[StoreVersion := Float(1.0)]);
      DecodeEnvelope(j) == Ok(r) && Envelope(r) != j
  {
    hide *;
    OneIsFloat();
    RolloutDecodes(r);
    UnsignedParts(r);
    EnvelopeFields(r);
    var unsigned := Unsigned(r)[StoreVersion := Float(1.0)];
    SignedDecodes(unsigned, r);
    SignedVersion(unsigned);
  }
}
