/**
  Whole runs of a rollout: any sequence of requests from any number of clients,
  each carrying the revision it expects.  Refused requests change nothing;
  accepted ones are appended to a log.  The rollout's counters are functions of
  that log, and the log has the shape the rollout promises.
*/
module AdaptiveHistory {
  import opened Wrappers
  import opened Arithmetic
  import opened AdaptiveTypes
  import opened AdaptiveRouting
  import opened AdaptiveInvariant
  import Payload

  datatype Request =
    | RouteRequest(active: Evidence, candidate: Evidence, context: RoutingContext, expectedRevision: int, now: int)
    | OutcomeRequest(outcome: Outcome, expectedRevision: int)

  datatype Entry = Routed(decision: Decision) | Consumed(outcome: Outcome)

  datatype Trace = Trace(rollout: Rollout, log: seq<Entry>)

  /** One request: the next rollout and the log entry of an accepted one, or the error. */
  function Respond(r: Rollout, q: Request): Checked<(Rollout, Entry)> {
    match q
    case RouteRequest(active, candidate, context, expectedRevision, now) =>
      var t :- Route(r, active, candidate, context, expectedRevision, now);
      Ok((t.rollout, Routed(t.decision)))
    case OutcomeRequest(outcome, expectedRevision) =>
      var next :- Record(r, outcome, expectedRevision);
      Ok((next, Consumed(outcome)))
  }

  predicate GuardsPass(r: Rollout, q: Request) {
    match q
    case RouteRequest(active, candidate, context, expectedRevision, now) =>
      RouteGuards(r, active, candidate, context, expectedRevision, now).Ok?
    case OutcomeRequest(outcome, expectedRevision) => RecordGuards(r, outcome, expectedRevision).Ok?
  }

  function Step(t: Trace, q: Request): Trace {
    match Respond(t.rollout, q)
    case Ok((next, entry)) => Trace(next, t.log + [entry])
    case Err(_) => t
  }

  function Run(t: Trace, qs: seq<Request>): Trace {
    if qs == [] then t else Step(Run(t, qs[..|qs| - 1]), qs[|qs| - 1])
  }

  // ---------- counts over the log ----------

  function Last<T>(s: seq<T>): T
    requires s != []
  {
    s[|s| - 1]
  }

  function Front<T>(s: seq<T>): seq<T>
    requires s != []
  {
    s[..|s| - 1]
  }

  function LowRiskRoutes(log: seq<Entry>): nat {
    if log == [] then 0
    else LowRiskRoutes(Front(log)) +
         (if Last(log).Routed? && Last(log).decision.context.LowRisk() then 1 else 0)
  }

  function Selections(log: seq<Entry>, candidate: bool): nat {
    if log == [] then 0
    else Selections(Front(log), candidate) +
         (if Last(log).Routed? && (Last(log).decision.choice == CandidateChoice) == candidate then 1 else 0)
  }

  /** The last entry is a verified success of the low-risk decision before it. */
  predicate EndsInSuccess(log: seq<Entry>, candidate: bool) {
    && |log| >= 2
    && Last(log).Consumed? && Last(log).outcome.VerifiedSuccess()
    && Last(Front(log)).Routed?
    && Last(Front(log)).decision.context.LowRisk()
    && (Last(Front(log)).decision.choice == CandidateChoice) == candidate
  }

  function Successes(log: seq<Entry>, candidate: bool): nat {
    if log == [] then 0
    else Successes(Front(log), candidate) + (if EndsInSuccess(log, candidate) then 1 else 0)
  }

  /** The number of low-risk routes up to the entry that completed the warmup. */
  function WarmupLength(log: seq<Entry>, warmup: int): nat {
    if log == [] then 0
    else if Successes(Front(log), false) >= warmup then WarmupLength(Front(log), warmup)
    else LowRiskRoutes(log)
  }

  /** A regression, a drift or an expiry. */
  predicate Stops(e: Entry) {
    match e
    case Routed(d) => d.choice == RollbackChoice
    case Consumed(o) => !o.VerifiedSuccess()
  }

  predicate Stopped(log: seq<Entry>) {
    exists i | 0 <= i < |log| :: Stops(log[i])
  }

  // ---------- what every trace keeps ----------

  /** Routes and outcomes alternate, sequences count 1, 2, 3, ..., each outcome answers its decision. */
  predicate WellShaped(log: seq<Entry>) {
    && (forall i | 0 <= i < |log| :: log[i].Routed? <==> i % 2 == 0)
    && (forall i | 0 <= i < |log| && i % 2 == 0 :: log[i].decision.sequence == i / 2 + 1)
    && (forall i | 0 < i < |log| && i % 2 == 1 :: OutcomeMatches(log[i].outcome, log[i - 1].decision))
    && (forall i, j | 0 <= i < j < |log| :: Stops(log[i]) ==> log[j].Consumed?)
  }

  /** The state is the count of the log. */
  predicate Refines(t: Trace) {
    var r := t.rollout;
    && r.revision == |t.log|
    && r.lowRisk == LowRiskRoutes(t.log)
    && r.activeSelections == Selections(t.log, false)
    && r.candidateSelections == Selections(t.log, true)
    && r.activeSuccesses == Successes(t.log, false)
    && r.candidateSuccesses == Successes(t.log, true)
    && r.pending == (if t.log != [] && Last(t.log).Routed? then Some(Last(t.log).decision) else None)
    && (r.status == RolledBack <==> Stopped(t.log))
  }

  /** The exact canary count: one candidate for every interval passed since the warmup ended. */
  predicate ExactFraction(t: Trace) {
    var r, k, w := t.rollout, t.rollout.identity.policy.interval, t.rollout.identity.policy.warmup;
    r.status in {Canary, Complete} ==>
      && w <= WarmupLength(t.log, w) <= r.lowRisk
      && r.candidateSelections == r.lowRisk / k - WarmupLength(t.log, w) / k
  }

  ghost predicate Sound(t: Trace) {
    Inductive(t.rollout) && WellShaped(t.log) && Refines(t) && ExactFraction(t)
  }

  // ---------- one step ----------

  /** A request is accepted exactly when its guards pass; the constructors never refuse. */
  lemma AcceptedIffGuards(r: Rollout, q: Request)
    requires Inductive(r)
    ensures Respond(r, q).Ok? <==> GuardsPass(r, q)
    ensures Respond(r, q).Ok? ==> Inductive(Respond(r, q).value.0)
  {
    if GuardsPass(r, q) {
      match q
      case RouteRequest(active, candidate, context, expectedRevision, now) =>
        RouteKeeps(r, active, candidate, context, expectedRevision, now);
      case OutcomeRequest(outcome, expectedRevision) =>
        RecordKeeps(r, outcome, expectedRevision);
    }
  }

  /** What one accepted entry does to the rollout, as an observer of the log sees it. */
  predicate Effect(r: Rollout, next: Rollout, e: Entry) {
    && next.identity == r.identity && next.rolloutId == r.rolloutId && next.revision == r.revision + 1
    && match e
       case Routed(d) =>
         && r.pending.None? && r.status in {Warmup, Canary}
         && d.sequence == Total(r) + 1
         && (d.choice == CandidateChoice ==> d.context.LowRisk())
         && next.pending == Some(d)
         && next.lowRisk == r.lowRisk + Count(d.context.LowRisk())
         && next.activeSelections == r.activeSelections + Count(d.choice != CandidateChoice)
         && next.candidateSelections == r.candidateSelections + Count(d.choice == CandidateChoice)
         && next.activeSuccesses == r.activeSuccesses && next.candidateSuccesses == r.candidateSuccesses
         && (next.status == RolledBack <==> d.choice == RollbackChoice)
       case Consumed(o) =>
         && r.pending.Some? && OutcomeMatches(o, r.pending.value)
         && next.pending.None?
         && next.lowRisk == r.lowRisk && next.activeSelections == r.activeSelections
         && next.candidateSelections == r.candidateSelections
         && (var counted := o.VerifiedSuccess() && r.pending.value.context.LowRisk();
             && next.activeSuccesses == r.activeSuccesses + Count(counted && r.pending.value.choice != CandidateChoice)
             && next.candidateSuccesses == r.candidateSuccesses + Count(counted && r.pending.value.choice == CandidateChoice))
         && (next.status == RolledBack <==> r.status == RolledBack || !o.VerifiedSuccess())
  }

  lemma IssueEffect(r: Rollout, context: RoutingContext, now: int, chosen: Selection)
    requires r.pending.None? && r.status in {Warmup, Canary}
    requires chosen.status == RolledBack <==> chosen.choice == RollbackChoice
    ensures var t := Issue(r, context, now, chosen);
      t.Ok? ==> Effect(r, t.value.rollout, Routed(t.value.decision))
  {
  }

  lemma RouteEffect(r: Rollout, q: Request)
    requires q.RouteRequest? && Respond(r, q).Ok?
    ensures Effect(r, Respond(r, q).value.0, Respond(r, q).value.1)
  {
    var RouteRequest(active, candidate, context, expectedRevision, now) := q;
    var drift := RouteGuards(r, active, candidate, context, expectedRevision, now).value;
    assert r.status.Warmup? || r.status.Canary?;
    IssueEffect(r, context, now, Select(r, drift, context.LowRisk(), now));
  }

  lemma RecordEffect(r: Rollout, q: Request)
    requires Inductive(r) && q.OutcomeRequest? && Respond(r, q).Ok?
    ensures Effect(r, Respond(r, q).value.0, Respond(r, q).value.1)
  {
  }

  /** An entry that continues the alternation, the numbering and the answers, and does not follow a stop. */
  predicate Fits(log: seq<Entry>, e: Entry) {
    && (e.Routed? <==> |log| % 2 == 0)
    && (e.Routed? ==> e.decision.sequence == |log| / 2 + 1 && !Stopped(log))
    && (e.Consumed? ==> log != [] && Last(log).Routed? && OutcomeMatches(e.outcome, Last(log).decision))
  }

  lemma FitsShape(log: seq<Entry>, e: Entry)
    requires WellShaped(log) && Fits(log, e)
    ensures WellShaped(log + [e])
  {
    hide OutcomeMatches, Stops;
    var log' := log + [e];
    forall i, j | 0 <= i < j < |log'| && Stops(log'[i])
      ensures log'[j].Consumed?
    {
      assert Stops(log[i]);
    }
  }

  lemma AppendKeepsShape(r: Rollout, log: seq<Entry>, next: Rollout, e: Entry)
    requires WellShaped(log) && Refines(Trace(r, log)) && Effect(r, next, e)
    requires r.revision == 2 * Total(r) - Count(r.pending.Some?)
    ensures WellShaped(log + [e])
  {
    EffectFits(r, log, next, e);
    hide WellShaped, Refines, Effect, Fits;
    FitsShape(log, e);
  }

  lemma EffectFits(r: Rollout, log: seq<Entry>, next: Rollout, e: Entry)
    requires Refines(Trace(r, log)) && Effect(r, next, e)
    requires r.revision == 2 * Total(r) - Count(r.pending.Some?)
    ensures Fits(log, e)
  {
    hide LowRiskRoutes, Selections, Successes, Stopped, OutcomeMatches;
  }

  lemma AppendStops(log: seq<Entry>, e: Entry)
    ensures Stopped(log + [e]) <==> Stopped(log) || Stops(e)
  {
    var log' := log + [e];
    if Stopped(log) {
      var i :| 0 <= i < |log| && Stops(log[i]);
      assert Stops(log'[i]);
    }
    if Stops(e) {
      assert Stops(log'[|log|]);
    }
    if Stopped(log') {
      var i :| 0 <= i < |log'| && Stops(log'[i]);
      assert i == |log| || Stops(log[i]);
    }
  }

  lemma AppendCount(log: seq<Entry>, e: Entry, candidate: bool)
    ensures LowRiskRoutes(log + [e]) == LowRiskRoutes(log) + Count(e.Routed? && e.decision.context.LowRisk())
    ensures Selections(log + [e], candidate) ==
            Selections(log, candidate) + Count(e.Routed? && (e.decision.choice == CandidateChoice) == candidate)
    ensures Successes(log + [e], candidate) == Successes(log, candidate) + Count(EndsInSuccess(log + [e], candidate))
  {
    assert Front(log + [e]) == log;
  }

  lemma AppendKeepsCounts(r: Rollout, log: seq<Entry>, next: Rollout, e: Entry)
    requires Refines(Trace(r, log)) && Effect(r, next, e)
    ensures Refines(Trace(next, log + [e]))
  {
    AppendStops(log, e);
    AppendCount(log, e, false);
    AppendCount(log, e, true);
    var log' := log + [e];
    assert Front(log') == log && Last(log') == e;
    if e.Consumed? {
      assert Last(log) == Routed(r.pending.value);
    }
  }

  /** The warmup length is frozen by the entry that completes the warmup. */
  lemma AppendWarmup(log: seq<Entry>, e: Entry, warmup: int)
    ensures WarmupLength(log + [e], warmup) ==
            if Successes(log, false) >= warmup then WarmupLength(log, warmup) else LowRiskRoutes(log + [e])
  {
    assert Front(log + [e]) == log;
  }

  // ---------- which decision is selected ----------

  /** The selection rule as a reader of the log would state it; there is no limit test. */
  function ExpectedChoice(log: seq<Entry>, p: Policy, expired: bool, drifted: bool, lowRisk: bool): RouteChoice {
    if expired || drifted then RollbackChoice
    else if lowRisk && Successes(log, false) >= p.warmup && (LowRiskRoutes(log) + 1) % p.interval == 0 then
      CandidateChoice
    else BaselineChoice
  }

  /** What an accepted route issues is what the ladder selected. */
  lemma RouteIssues(r: Rollout, q: Request)
    requires q.RouteRequest? && Respond(r, q).Ok?
    ensures CurrentEvidence(r, q.active, q.candidate, q.now).Ok?
    ensures r.pending.None? && (r.status.Warmup? || r.status.Canary?)
    ensures var chosen := Select(r, CurrentEvidence(r, q.active, q.candidate, q.now).value, q.context.LowRisk(), q.now);
      var (next, e) := Respond(r, q).value;
      e.Routed? && e.decision.choice == chosen.choice && e.decision.context == q.context && next.status == chosen.status
  {
    hide CheckRollout, CheckDecision, CurrentEvidence, ContextMatches, Select;
    var drift := CurrentEvidence(r, q.active, q.candidate, q.now).value;
    var chosen := Select(r, drift, q.context.LowRisk(), q.now);
    var t := Issue(r, q.context, q.now, chosen).value;
    DecisionUnchanged(t.decision);
    IssuedAs(r, q.context, q.now, chosen);
  }

  lemma IssuedAs(r: Rollout, context: RoutingContext, now: int, chosen: Selection)
    requires Issue(r, context, now, chosen).Ok?
    ensures var t := Issue(r, context, now, chosen).value;
      t.decision.choice == chosen.choice && t.decision.context == context && t.rollout.status == chosen.status
  {
    var isCandidate := chosen.choice == CandidateChoice;
    var d := Decision(
      r.rolloutId, Total(r) + 1, chosen.choice,
      if isCandidate then r.identity.candidate else r.identity.baseline,
      if isCandidate then r.identity.candidateEvidence else r.identity.baselineEvidence,
      r.identity.baseline, r.identity.candidate, context, now, chosen.reason);
    DecisionUnchanged(d);
    AcceptedUnchanged(r.(
      status := chosen.status,
      revision := r.revision + 1,
      lowRisk := r.lowRisk + Count(context.LowRisk()),
      activeSelections := r.activeSelections + Count(!isCandidate),
      candidateSelections := r.candidateSelections + Count(isCandidate),
      pending := Some(d),
      rollbackReason := chosen.rollback));
    hide CheckRollout, CheckDecision;
  }

  /** Every accepted route selects by that rule, and leaves the warmup only by an outcome. */
  lemma RouteSelects(t: Trace, q: Request)
    requires Sound(t) && q.RouteRequest? && Respond(t.rollout, q).Ok?
    ensures var drift := CurrentEvidence(t.rollout, q.active, q.candidate, q.now);
      var d := Respond(t.rollout, q).value.1.decision;
      && drift.Ok?
      && d.choice == ExpectedChoice(t.log, t.rollout.identity.policy, q.now >= t.rollout.identity.expiresAt,
                                    drift.value.Some?, q.context.LowRisk())
      && d.context == q.context
      && Respond(t.rollout, q).value.0.status == (if d.choice == RollbackChoice then RolledBack else t.rollout.status)
  {
    hide Inductive, WellShaped, ExactFraction, Respond, CurrentEvidence;
    RouteIssues(t.rollout, q);
    RoomForCandidate(t.rollout);
  }

  lemma RouteKeepsFraction(t: Trace, q: Request)
    requires Sound(t) && q.RouteRequest? && Respond(t.rollout, q).Ok?
    ensures ExactFraction(Step(t, q))
  {
    hide Inductive, WellShaped, Respond, CurrentEvidence;
    RouteSelects(t, q);
    RouteEffect(t.rollout, q);
    RouteIssues(t.rollout, q);
    LowRiskNonnegative(t.rollout);
    var p, e := t.rollout.identity.policy, Respond(t.rollout, q).value.1;
    AppendWarmup(t.log, e, p.warmup);
    NextMultiple(t.rollout.lowRisk, p.interval);
  }

  lemma LowRiskNonnegative(r: Rollout)
    requires Inductive(r)
    ensures r.lowRisk >= 0
    ensures r.status in {Canary, Complete} ==> r.activeSuccesses >= r.identity.policy.warmup
    ensures r.status == Warmup ==> r.activeSuccesses < r.identity.policy.warmup && r.candidateSelections == 0
    ensures r.activeSuccesses <= r.lowRisk
  {
  }

  lemma OutcomeKeepsFraction(t: Trace, q: Request)
    requires Sound(t) && q.OutcomeRequest? && Respond(t.rollout, q).Ok?
    ensures ExactFraction(Step(t, q))
  {
    hide Inductive, WellShaped, Respond, GuardsPass;
    AcceptedIffGuards(t.rollout, q);
    RecordEffect(t.rollout, q);
    LowRiskNonnegative(t.rollout);
    LowRiskNonnegative(Respond(t.rollout, q).value.0);
    OutcomeStatus(t.rollout, q);
    var p, e := t.rollout.identity.policy, Respond(t.rollout, q).value.1;
    AppendWarmup(t.log, e, p.warmup);
    AppendCount(t.log, e, false);
  }

  /** An outcome completes the warmup before any candidate was selected, or leaves the stage as it was. */
  lemma OutcomeStatus(r: Rollout, q: Request)
    requires Inductive(r) && q.OutcomeRequest? && Respond(r, q).Ok?
    ensures Respond(r, q).value.1.Consumed?
    ensures var next := Respond(r, q).value.0;
      next.status in {Canary, Complete} && r.status !in {Canary, Complete} ==>
        r.status == Warmup && next.candidateSelections == 0
  {
    hide OutcomeMatches;
  }

  // ---------- whole runs ----------

  lemma StepSound(t: Trace, q: Request)
    requires Sound(t)
    ensures Sound(Step(t, q))
  {
    if Respond(t.rollout, q).Ok? {
      AcceptedIffGuards(t.rollout, q);
      var (next, e) := Respond(t.rollout, q).value;
      if q.RouteRequest? {
        RouteEffect(t.rollout, q);
        RouteKeepsFraction(t, q);
      } else {
        RecordEffect(t.rollout, q);
        OutcomeKeepsFraction(t, q);
      }
      AppendKeepsShape(t.rollout, t.log, next, e);
      AppendKeepsCounts(t.rollout, t.log, next, e);
    }
  }

  /** Every run from a created rollout, whatever its clients request, is sound at every point. */
  lemma {:induction false} RunSound(r: Rollout, qs: seq<Request>)
    requires Inductive(r) && r.status == Warmup && r.revision == 0
    ensures Sound(Run(Trace(r, []), qs))
  {
    if qs == [] {
      assert Total(r) == 0;
      assert !Stopped([]);
    } else {
      RunSound(r, qs[..|qs| - 1]);
      StepSound(Run(Trace(r, []), qs[..|qs| - 1]), qs[|qs| - 1]);
    }
  }
}
