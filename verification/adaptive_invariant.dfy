/**
  The inductive invariant of an adaptive rollout.  The constraints of the
  constructor are not inductive on their own; `Inductive` strengthens them so
  that every accepted guard leads to a state the constructor accepts.
*/
module AdaptiveInvariant {
  import opened Wrappers
  import opened AdaptiveTypes
  import opened AdaptiveRouting
  import opened Arithmetic

  predicate PendingCandidate(r: Rollout) {
    r.pending.Some? && r.pending.value.choice == CandidateChoice
  }

  predicate PendingBaseline(r: Rollout) {
    r.pending.Some? && r.pending.value.choice != CandidateChoice
  }

  predicate PendingLowRiskBaseline(r: Rollout) {
    PendingBaseline(r) && r.pending.value.context.LowRisk()
  }

  /** The pending decision was issued by this rollout. */
  predicate PendingIsOwn(r: Rollout) {
    r.pending.Some? ==>
      var d := r.pending.value;
      && CheckDecision(d) == Ok(d)
      && d.baseline == r.identity.baseline && d.candidate == r.identity.candidate
      && (d.choice == RollbackChoice <==> r.status == RolledBack)
  }

  ghost predicate Inductive(r: Rollout) {
    var p := r.identity.policy;
    && CheckRollout(r) == Ok(r)
    && PendingIsOwn(r)
    && (r.status != RolledBack ==>
          r.candidateSuccesses == r.candidateSelections - Count(PendingCandidate(r)))
    && r.activeSuccesses <= r.activeSelections - Count(PendingBaseline(r))
    && r.activeSuccesses + r.candidateSelections + Count(PendingLowRiskBaseline(r)) <= r.lowRisk
    && (PendingCandidate(r) ==> r.status == Canary && r.lowRisk % p.interval == 0)
    && (r.status == Complete ==> r.lowRisk % p.interval == 0)
    && (r.candidateSelections > 0 ==>
          r.activeSuccesses >= p.warmup
          && r.candidateSelections <= r.lowRisk / p.interval - p.warmup / p.interval)
  }

  /** The constructors return what they accept. */
  lemma AcceptedUnchanged(r: Rollout)
    ensures CheckRollout(r).Ok? ==> CheckRollout(r).value == r
  {
    hide CountersAccepted, IdentityAccepted, StatusAccepted, IdMatches;
  }

  lemma DecisionUnchanged(d: Decision)
    ensures CheckDecision(d).Ok? ==> CheckDecision(d).value == d
  {
  }

  /** The constructor's constraints alone do not survive a successful outcome. */
  lemma ConstructorNotInductive() returns (r: Rollout, o: Outcome)
    ensures CheckRollout(r) == Ok(r) && PendingCandidate(r)
    ensures r.candidateSuccesses == r.candidateSelections
    ensures RecordGuards(r, o, r.revision).Ok? && o.VerifiedSuccess()
    ensures Record(r, o, r.revision) == Err(RolloutInvalid)
  {
    var ext := P.Given(1);
    var base, cand := ProcedurePin("a", 1, ext), ProcedurePin("b", 1, ext);
    var policy: Policy := PolicyData("p", 1, 1, 10, 2);
    var id := Identity(policy, ext, ext, ext, base, cand, ext, ext, 0, 1);
    var rid := P.Sha(IdentityPayload(id));
    var c := RoutingContext("t", "a", "v", ext, REVIEWED_REGISTRY, ext, [Fact("f", BoolFact(true))], [LowTier], [ext]);
    var d := Decision(rid, 11, CandidateChoice, cand, ext, base, cand, c, 0, "CANARY_SLOT");
    r := Rollout(rid, id, Canary, 21, 10, 10, 9, 1, 1, Some(d), Some(ext), None);
    o := Outcome(d.Digest(), cand, c.Digest(), ext, VerifiedSuccessLabel, 0, 0, true, true, true, true);
  }

  /** The success an outcome would add exceeds the selections of its arm. */
  predicate Overcounts(r: Rollout, o: Outcome)
    requires r.pending.Some?
  {
    var d := r.pending.value;
    && o.VerifiedSuccess()
    && (if d.choice == CandidateChoice then r.candidateSuccesses == r.candidateSelections
        else d.context.LowRisk() && r.activeSuccesses == r.activeSelections)
  }

  /**
    The exact failing family: of all rollouts the constructor accepts, an outcome whose
    guards pass is refused if and only if it is a verified success of an arm whose
    successes already equal its selections.
  */
  lemma RecordIff(r: Rollout, o: Outcome, expectedRevision: int)
    requires CheckRollout(r) == Ok(r) && RecordGuards(r, o, expectedRevision).Ok?
    ensures Record(r, o, expectedRevision).Ok? <==> !Overcounts(r, o)
    ensures Overcounts(r, o) ==> Record(r, o, expectedRevision) == Err(RolloutInvalid)
  {
    hide IdMatches, IdentityAccepted, OutcomeMatches;
  }

  lemma CreateEstablishes(c: Comparison, evidence: seq<Evidence>, policy: Policy, now: int, expiresAt: int)
    requires Create(c, evidence, policy, now, expiresAt).Ok?
    ensures var r := Create(c, evidence, policy, now, expiresAt).value;
      Inductive(r) && r.status == Warmup && r.revision == 0 && r.pending.None? && r.identity.policy == policy
  {
  }

  // ---------- preservation ----------

  /** An idle active rollout has room for one more candidate: the limit test never decides. */
  lemma RoomForCandidate(r: Rollout)
    requires Inductive(r) && r.pending.None? && r.status in {Warmup, Canary}
    ensures r.candidateSelections < r.identity.policy.maxRuns
    ensures r.status == Warmup <==> r.activeSuccesses < r.identity.policy.warmup
  {
  }

  /** A candidate slot keeps both fraction bounds: the plain one and the one net of warmup. */
  lemma SlotKeepsFraction(r: Rollout)
    requires Inductive(r) && r.pending.None? && r.status in {Warmup, Canary}
    requires r.activeSuccesses >= r.identity.policy.warmup
    requires (r.lowRisk + 1) % r.identity.policy.interval == 0
    ensures var k := r.identity.policy.interval;
      r.candidateSelections + 1 <= (r.lowRisk + 1) / k - r.identity.policy.warmup / k
  {
    var p := r.identity.policy;
    NextMultiple(r.lowRisk, p.interval);
    DivMonotone(p.warmup, r.lowRisk + 1, p.interval);
  }

  lemma LowRiskGrows(r: Rollout, more: int)
    requires 0 <= more
    ensures r.lowRisk / r.identity.policy.interval <= (r.lowRisk + more) / r.identity.policy.interval
  {
    DivMonotone(r.lowRisk, r.lowRisk + more, r.identity.policy.interval);
  }

  /** What the ladder may select, and the constructors then accept. */
  predicate Selectable(r: Rollout, lowRisk: bool, chosen: Selection) {
    match chosen.choice
    case RollbackChoice => chosen.status == RolledBack && chosen.rollback.Some?
    case BaselineChoice => chosen.status == r.status && chosen.rollback.None?
    case CandidateChoice =>
      && lowRisk && r.status == Canary && chosen.status == Canary && chosen.rollback.None?
      && (r.lowRisk + 1) % r.identity.policy.interval == 0 && r.candidateSelections < r.identity.policy.maxRuns
  }

  lemma SelectSelectable(r: Rollout, drift: Option<string>, lowRisk: bool, now: int)
    requires CheckRollout(r) == Ok(r) && r.status in {Warmup, Canary}
    ensures Selectable(r, lowRisk, Select(r, drift, lowRisk, now))
  {
    hide IdMatches, IdentityAccepted, CountersAccepted;
  }

  lemma IssueAccepted(r: Rollout, context: RoutingContext, now: int, chosen: Selection)
    requires CheckRollout(r) == Ok(r) && r.pending.None? && r.status in {Warmup, Canary}
    requires Selectable(r, context.LowRisk(), chosen)
    ensures Issue(r, context, now, chosen).Ok?
  {
    LowRiskGrows(r, Count(context.LowRisk()));
    NextMultiple(r.lowRisk, r.identity.policy.interval);
    hide IdMatches;
  }

  /** A route never runs into the constructors: its guards alone decide, on every rollout they accept. */
  lemma RouteIff(r: Rollout, active: Evidence, candidate: Evidence, context: RoutingContext, expectedRevision: int, now: int)
    requires CheckRollout(r) == Ok(r)
    ensures Route(r, active, candidate, context, expectedRevision, now).Ok?
            <==> RouteGuards(r, active, candidate, context, expectedRevision, now).Ok?
  {
    hide CheckRollout, Issue, Select, Selectable, CurrentEvidence, ContextMatches;
    var guards := RouteGuards(r, active, candidate, context, expectedRevision, now);
    if guards.Ok? {
      assert r.status.Warmup? || r.status.Canary?;
      SelectSelectable(r, guards.value, context.LowRisk(), now);
      IssueAccepted(r, context, now, Select(r, guards.value, context.LowRisk(), now));
    }
  }

  lemma BaselineKeeps(r: Rollout, context: RoutingContext, now: int, chosen: Selection)
    requires Inductive(r) && r.pending.None? && r.status in {Warmup, Canary}
    requires chosen.choice == BaselineChoice && chosen.rollback.None?
    requires chosen.status == r.status || (chosen.status == Canary && r.activeSuccesses >= r.identity.policy.warmup)
    ensures var t := Issue(r, context, now, chosen); t.Ok? && Inductive(t.value.rollout)
  {
    LowRiskGrows(r, Count(context.LowRisk()));
    DivNonnegative(r.lowRisk + Count(context.LowRisk()), r.identity.policy.interval);
  }

  lemma RollbackKeeps(r: Rollout, context: RoutingContext, now: int, chosen: Selection)
    requires Inductive(r) && r.pending.None? && r.status in {Warmup, Canary}
    requires chosen.choice == RollbackChoice && chosen.status == RolledBack && chosen.rollback.Some?
    ensures var t := Issue(r, context, now, chosen); t.Ok? && Inductive(t.value.rollout)
  {
    LowRiskGrows(r, Count(context.LowRisk()));
    DivNonnegative(r.lowRisk + Count(context.LowRisk()), r.identity.policy.interval);
  }

  lemma CandidateKeeps(r: Rollout, context: RoutingContext, now: int, chosen: Selection)
    requires Inductive(r) && r.pending.None? && r.status in {Warmup, Canary}
    requires context.LowRisk() && r.activeSuccesses >= r.identity.policy.warmup
    requires (r.lowRisk + 1) % r.identity.policy.interval == 0
    requires chosen.choice == CandidateChoice && chosen.status == Canary && chosen.rollback.None?
    ensures var t := Issue(r, context, now, chosen); t.Ok? && Inductive(t.value.rollout)
  {
    RoomForCandidate(r);
    SlotKeepsFraction(r);
    DivNonnegative(r.identity.policy.warmup, r.identity.policy.interval);
  }

  /** A route that passes its guards is accepted by both constructors and keeps the invariant. */
  lemma RouteKeeps(r: Rollout, active: Evidence, candidate: Evidence, context: RoutingContext, expectedRevision: int, now: int)
    requires Inductive(r)
    requires RouteGuards(r, active, candidate, context, expectedRevision, now).Ok?
    ensures var t := Route(r, active, candidate, context, expectedRevision, now);
      t.Ok? && Inductive(t.value.rollout)
  {
    var drift := RouteGuards(r, active, candidate, context, expectedRevision, now).value;
    var chosen := Select(r, drift, context.LowRisk(), now);
    match chosen.choice
    case BaselineChoice => BaselineKeeps(r, context, now, chosen);
    case RollbackChoice => RollbackKeeps(r, context, now, chosen);
    case CandidateChoice => CandidateKeeps(r, context, now, chosen);
  }

  /** An outcome that passes its guards is accepted by the constructor and keeps the invariant. */
  lemma RecordKeeps(r: Rollout, o: Outcome, expectedRevision: int)
    requires Inductive(r)
    requires RecordGuards(r, o, expectedRevision).Ok?
    ensures Record(r, o, expectedRevision).Ok? && Inductive(Record(r, o, expectedRevision).value)
  {
  }
}
