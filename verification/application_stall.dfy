/**
  An application claim that is not executed within its lease.  The batch stays open,
  and the runtime has no call that closes it: every later start, execution and resume
  is refused, before and after the lease is released.
*/
module ApplicationStall {
  import opened Wrappers
  import opened Campaign
  import opened Batching
  import opened BatchCoordinator
  import opened ApplicationCampaign
  import opened ApplicationRounds
  import opened ApplicationTheorem

  /** The calls of the application runtime, and the release of an expired lease. */
  datatype Call =
    | StartCall(run: RunId, now: int, clock: int)
    | ExecuteCall(run: RunId, now: int, clock: int, work: Work)
    | ResumeCall(run: RunId, now: int, clock: int)
    | ReleaseCall(key: Key, run: RunId, now: int)

  function Serve(s: Control, spec: Spec, call: Call): Control {
    match call
    case StartCall(run, now, clock) => Start(s, spec, run, now, clock).control
    case ExecuteCall(run, now, clock, work) => Execute(s, spec, run, now, clock, work).control
    case ResumeCall(run, now, clock) => Resume(s, spec, run, now, clock).control
    case ReleaseCall(key, run, now) => (match ReleaseStaleClaim(s, key, run, now) case Ok(next) => next case Err(_) => s)
  }

  predicate Refused(s: Control, spec: Spec, call: Call) {
    match call
    case StartCall(run, now, clock) => Start(s, spec, run, now, clock).result.Err?
    case ExecuteCall(run, now, clock, work) => Execute(s, spec, run, now, clock, work).result.Err?
    case ResumeCall(run, now, clock) => Resume(s, spec, run, now, clock).result.Err?
    case ReleaseCall(key, run, now) => ReleaseStaleClaim(s, key, run, now).Err?
  }

  function ServeAll(s: Control, spec: Spec, calls: seq<Call>): Control
    decreases |calls|
  {
    if calls == [] then s else Serve(ServeAll(s, spec, calls[..|calls| - 1]), spec, calls[|calls| - 1])
  }

  /** The batch of `run` is open, its heartbeat and its claim have expired, nothing else is claimed. */
  ghost predicate Lapsed(s: Control, run: RunId, key: Key, expiry: int) {
    && ActiveBatch(s.batches).Some? && ActiveBatch(s.batches).value.runId == run
    && s.heartbeat.Some? && s.heartbeat.value.runId == run && s.heartbeat.value.freshUntil <= expiry
    && key in s.items && s.items[key].status in {Claimed, Retryable}
    && (s.items[key].status == Claimed ==> s.items[key].leaseExpires.value <= expiry)
    && (forall k | k in s.items && k != key :: Settled(s.items[k]))
  }

  lemma StaleBlocks(s: Control, session: Session, now: int, attested: bool)
    requires s.heartbeat.Some? && s.heartbeat.value.freshUntil <= now
    ensures RecordObserved(s, session, NO_USAGE, now, attested).Err?
  {
    hide PrefixLength;
  }

  lemma LapsedExecution(s: Control, spec: Spec, run: RunId, key: Key, expiry: int, call: Call)
    requires Lapsed(s, run, key, expiry) && call.ExecuteCall? && expiry <= call.now
    ensures Refused(s, spec, call) && Serve(s, spec, call) == s
  {
    if ClaimedApplicationSession(s, spec, call.run).Ok? && call.work.Extraction? {
      var session := ClaimedApplicationSession(s, spec, call.run).value.session;
      StaleBlocks(s, session, call.now, call.work.applicationVerified && call.work.identityVerified);
    }
    hide ClaimedApplicationSession, RecordObserved, RecordExtracted, RecordCommitted, HandOffWork;
  }

  lemma OpenBatchBlocks(s: Control, spec: Spec, call: Call)
    requires ActiveBatch(s.batches).Some? && (call.StartCall? || call.ResumeCall?)
    ensures Refused(s, spec, call) && Serve(s, spec, call) == s
  {
    hide ReadHandoff, CommittedByRun, NextOrdinal, CountStatus;
  }

  lemma LapsedRelease(s: Control, spec: Spec, run: RunId, key: Key, expiry: int, call: Call)
    requires Lapsed(s, run, key, expiry) && call.ReleaseCall?
    ensures Lapsed(Serve(s, spec, call), run, key, expiry)
    ensures var next := Serve(s, spec, call);
      && next.batches == s.batches && next.manifest == s.manifest && CommitLog(next.history) == CommitLog(s.history)
  {
    if ReleaseStaleClaim(s, call.key, call.run, call.now).Ok? {
      var i := s.items[call.key];
      CommitLogAppend(s.history, ItemData(i.ordinal, i.key, Retryable, i.attempt, call.now, Some(call.run), None, Some(LeaseExpired), None));
    }
  }

  lemma LapsedStep(s: Control, spec: Spec, run: RunId, key: Key, expiry: int, call: Call)
    requires Lapsed(s, run, key, expiry) && expiry <= call.now
    ensures Lapsed(Serve(s, spec, call), run, key, expiry)
    ensures !call.ReleaseCall? ==> Refused(s, spec, call) && Serve(s, spec, call) == s
    ensures var next := Serve(s, spec, call);
      && next.batches == s.batches && next.manifest == s.manifest && CommitLog(next.history) == CommitLog(s.history)
  {
    hide Serve, Refused, CommitLog;
    match call
    case ReleaseCall(_, _, _) => LapsedRelease(s, spec, run, key, expiry, call);
    case ExecuteCall(_, _, _, _) => LapsedExecution(s, spec, run, key, expiry, call);
    case _ => OpenBatchBlocks(s, spec, call);
  }

  /**
    Once the lease of a claim has passed, whatever is called from then on: the batch
    stays open, nothing more is ever committed, and every start, execution and resume
    is refused without a write.
  */
  lemma {:induction false} ExpiredClaimStalls(s: Control, spec: Spec, used: set<RunId>, run: RunId, key: Key, since: int,
                                              calls: seq<Call>, call: Call)
    requires Working(s, spec, used, run, key, since)
    requires forall i | 0 <= i < |calls| :: since + ITEM_LEASE_SECONDS <= calls[i].now
    requires since + ITEM_LEASE_SECONDS <= call.now
    ensures var later := ServeAll(s, spec, calls);
      && Lapsed(later, run, key, since + ITEM_LEASE_SECONDS)
      && later.batches == s.batches && later.manifest == s.manifest && CommitLog(later.history) == CommitLog(s.history)
      && (!call.ReleaseCall? ==> Refused(later, spec, call) && Serve(later, spec, call) == later)
    decreases |calls|
  {
    WorkingLapses(s, spec, used, run, key, since);
    hide Lapsed, Serve, Refused, Working, CommitLog;
    if calls != [] {
      var n := |calls| - 1;
      ExpiredClaimStalls(s, spec, used, run, key, since, calls[..n], calls[n]);
      LapsedStep(ServeAll(s, spec, calls[..n]), spec, run, key, since + ITEM_LEASE_SECONDS, calls[n]);
    }
    LapsedStep(ServeAll(s, spec, calls), spec, run, key, since + ITEM_LEASE_SECONDS, call);
  }

  lemma WorkingLapses(s: Control, spec: Spec, used: set<RunId>, run: RunId, key: Key, since: int)
    requires Working(s, spec, used, run, key, since)
    ensures Lapsed(s, run, key, since + ITEM_LEASE_SECONDS)
  {
  }
}
