/** What the runs of an adaptive rollout guarantee to a reader who only sees requests and the log. */
module AdaptiveTheorems {
  import opened Wrappers
  import opened Arithmetic
  import opened AdaptiveTypes
  import opened AdaptiveRouting
  import opened AdaptiveInvariant
  import opened AdaptiveHistory
  import opened Payload

  /** No request of any run from a created rollout is refused by a constructor, and the state counts the log. */
  lemma CreatedRunsAreSound(c: Comparison, evidence: seq<Evidence>, policy: Policy, now: int, expiresAt: int,
                            qs: seq<Request>, q: Request)
    requires Create(c, evidence, policy, now, expiresAt).Ok?
    ensures var t := Run(Trace(Create(c, evidence, policy, now, expiresAt).value, []), qs);
      && Sound(t)
      && CheckRollout(t.rollout) == Ok(t.rollout)
      && (Respond(t.rollout, q).Ok? <==> GuardsPass(t.rollout, q))
  {
    var r := Create(c, evidence, policy, now, expiresAt).value;
    CreateEstablishes(c, evidence, policy, now, expiresAt);
    RunSound(r, qs);
    AcceptedIffGuards(Run(Trace(r, []), qs).rollout, q);
  }

  /** Runs compose, and the log only grows. */
  lemma {:induction false} RunExtends(t: Trace, qs: seq<Request>)
    requires Sound(t)
    ensures Sound(Run(t, qs)) && t.log <= Run(t, qs).log
    ensures Run(t, qs).rollout.identity == t.rollout.identity
  {
    if qs != [] {
      var front := qs[..|qs| - 1];
      RunExtends(t, front);
      StepSound(Run(t, front), qs[|qs| - 1]);
      var r, q := Run(t, front).rollout, qs[|qs| - 1];
      if Respond(r, q).Ok? {
        if q.RouteRequest? {
          RouteEffect(r, q);
        } else {
          RecordEffect(r, q);
        }
      }
    }
  }

  // ---------- the canary fraction ----------

  lemma FractionOfState(t: Trace)
    requires Sound(t)
    ensures Selections(t.log, true) * t.rollout.identity.policy.interval <= LowRiskRoutes(t.log)
  {
    var r, k := t.rollout, t.rollout.identity.policy.interval;
    DivMod(r.lowRisk, k);
    if r.candidateSelections < r.lowRisk / k {
      MulGap(r.candidateSelections, r.lowRisk / k, k);
    }
  }

  /** Prefix-safe canary fraction: at every prefix of every log, candidates * interval <= low-risk routes. */
  lemma {:induction false} PrefixSafeFraction(r: Rollout, qs: seq<Request>, n: nat)
    requires Inductive(r) && r.status == Warmup && r.revision == 0
    requires n <= |Run(Trace(r, []), qs).log|
    ensures Selections(Run(Trace(r, []), qs).log[..n], true) * r.identity.policy.interval
            <= LowRiskRoutes(Run(Trace(r, []), qs).log[..n])
    decreases |qs|
  {
    var t := Run(Trace(r, []), qs);
    RunSound(r, qs);
    RunSound(r, []);
    RunExtends(Trace(r, []), qs);
    if n == |t.log| {
      assert t.log[..n] == t.log;
      FractionOfState(t);
    } else {
      var front := Run(Trace(r, []), qs[..|qs| - 1]);
      assert n <= |front.log| && t.log[..n] == front.log[..n];
      PrefixSafeFraction(r, qs[..|qs| - 1], n);
    }
  }

  /**
    The exact count behind the fraction, in every run of a fresh rollout: one candidate
    for every interval passed since the warmup ended, and none before.
  */
  lemma CanaryCount(r: Rollout, qs: seq<Request>)
    requires Inductive(r) && r.status == Warmup && r.revision == 0
    ensures var t, p := Run(Trace(r, []), qs), r.identity.policy;
      && (t.rollout.status in {Canary, Complete} ==>
            Selections(t.log, true) == LowRiskRoutes(t.log) / p.interval - WarmupLength(t.log, p.warmup) / p.interval)
      && (Selections(t.log, true) > 0 ==>
            Selections(t.log, true) <= LowRiskRoutes(t.log) / p.interval - p.warmup / p.interval)
  {
    RunSound(r, []);
    RunExtends(Trace(r, []), qs);
  }

  lemma CompleteCounts(r: Rollout)
    requires Inductive(r) && r.status == Complete
    ensures r.candidateSelections == r.candidateSuccesses == r.identity.policy.maxRuns
    ensures r.lowRisk % r.identity.policy.interval == 0 && r.lowRisk >= 0
  {
  }

  /** A complete rollout has routed exactly the low-risk decisions its canary runs took. */
  lemma CompletionLength(t: Trace)
    requires Sound(t) && t.rollout.status == Complete
    ensures var p := t.rollout.identity.policy;
      && t.rollout.lowRisk == p.interval * (p.maxRuns + WarmupLength(t.log, p.warmup) / p.interval)
      && t.rollout.lowRisk >= p.interval * (p.maxRuns + p.warmup / p.interval)
      && t.rollout.candidateSelections == t.rollout.candidateSuccesses == p.maxRuns
  {
    hide CheckRollout, WellShaped, Refines, PendingIsOwn;
    CompleteCounts(t.rollout);
    var r, p := t.rollout, t.rollout.identity.policy;
    var runs := p.maxRuns + WarmupLength(t.log, p.warmup) / p.interval;
    assert r.lowRisk / p.interval == runs && r.lowRisk % p.interval == 0;
    ExactMultiple(r.lowRisk, p.interval, runs);
    DivMonotone(p.warmup, WarmupLength(t.log, p.warmup), p.interval);
    MulMonotone(p.maxRuns + p.warmup / p.interval, runs, p.interval);
  }

  // ---------- clients ----------

  /** A request whose expected revision has been passed is refused, in every continuation. */
  lemma StaleClientRefused(t: Trace, qs: seq<Request>, first: Request, second: Request)
    requires Sound(t) && Respond(t.rollout, first).Ok?
    requires second.expectedRevision == first.expectedRevision
    ensures Respond(Run(Step(t, first), qs).rollout, second) == Err(RevisionConflict)
  {
    RevisionIsLength(t);
    AcceptedRevision(t, first);
    StepSound(t, first);
    RunExtends(Step(t, first), qs);
    RevisionIsLength(Run(Step(t, first), qs));
    hide Sound, Run, Step;
  }

  lemma RevisionIsLength(t: Trace)
    requires Sound(t)
    ensures t.rollout.revision == |t.log|
  {
  }

  /** An accepted request carried the current revision, and lengthened the log. */
  lemma AcceptedRevision(t: Trace, q: Request)
    requires Respond(t.rollout, q).Ok?
    ensures q.expectedRevision == t.rollout.revision >= 0 && |Step(t, q).log| == |t.log| + 1
  {
    hide CheckRollout, Issue, CurrentEvidence, ContextMatches, Select;
  }

  lemma SequenceInPayload(d: Decision)
    ensures DecisionPayload(d).Obj? && DecisionSequence in DecisionPayload(d).fields
    ensures DecisionPayload(d).fields[DecisionSequence] == Int(d.sequence)
  {
    assert DecisionSequence !in DecisionFixed(d);
    assert DecisionPart(d)[DecisionSequence] == Int(d.sequence);
    hide DecisionPart, DecisionFixed;
  }

  /** Each decision is consumed by at most one outcome. */
  lemma DecisionConsumedOnce(log: seq<Entry>, i: nat, j: nat)
    requires WellShaped(log) && i < j < |log| && log[i].Consumed? && log[j].Consumed?
    ensures log[i].outcome.decision != log[j].outcome.decision
  {
    var d, e := log[i - 1].decision, log[j - 1].decision;
    assert d.sequence == (i - 1) / 2 + 1 && e.sequence == (j - 1) / 2 + 1;
    SequenceInPayload(d);
    SequenceInPayload(e);
    hide DecisionPayload;
  }

  lemma StoppedStep(t: Trace, q: Request)
    requires Sound(t) && Stopped(t.log) && Respond(t.rollout, q).Ok?
    ensures q.OutcomeRequest? && t.rollout.pending.Some? && Step(t, q).rollout.pending.None?
    ensures Step(t, q).rollout.candidateSelections == t.rollout.candidateSelections
    ensures Step(t, q).rollout.activeSelections == t.rollout.activeSelections
    ensures |Step(t, q).log| == |t.log| + 1
  {
  }

  lemma StoppedPrefix(log: seq<Entry>, longer: seq<Entry>)
    requires Stopped(log) && log <= longer
    ensures Stopped(longer)
  {
    var i :| 0 <= i < |log| && Stops(log[i]);
    assert Stops(longer[i]);
  }

  /** After a regression, a drift or an expiry nothing is routed, ever; at most one outcome is still consumed. */
  lemma {:induction false} StoppedForGood(t: Trace, qs: seq<Request>)
    requires Sound(t) && Stopped(t.log)
    ensures Sound(Run(t, qs)) && Stopped(Run(t, qs).log)
    ensures Run(t, qs).rollout.status == RolledBack
    ensures Run(t, qs).rollout.candidateSelections == t.rollout.candidateSelections
    ensures Run(t, qs).rollout.activeSelections == t.rollout.activeSelections
    ensures |Run(t, qs).log| + Count(Run(t, qs).rollout.pending.Some?) <= |t.log| + Count(t.rollout.pending.Some?)
  {
    RunExtends(t, qs);
    StoppedPrefix(t.log, Run(t, qs).log);
    if qs != [] {
      StoppedForGood(t, qs[..|qs| - 1]);
      var m, q := Run(t, qs[..|qs| - 1]), qs[|qs| - 1];
      if Respond(m.rollout, q).Ok? {
        StoppedStep(m, q);
      }
    }
  }
}
