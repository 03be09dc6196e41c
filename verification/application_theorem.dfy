/** A whole application campaign: every item committed once, in ordinal order, and then completed. */
module ApplicationTheorem {
  import opened Wrappers
  import opened Campaign
  import opened Batching
  import opened BatchCoordinator
  import opened ApplicationCampaign
  import opened ApplicationRounds
  import opened ApplicationResume

  /** The execution of one claim and the resume that follows it for run `next`. */
  datatype Round = Round(executeAt: int, executeClock: int, work: Work, next: RunId, resumeAt: int, resumeClock: int)

  /** Rounds after `run` has claimed; `None` stands for a completed campaign, which ends the rounds. */
  function Continue(s: Control, spec: Spec, run: RunId, rounds: seq<Round>): Result<Control, RuntimeError>
    decreases |rounds|
  {
    if rounds == [] then Ok(s)
    else
      var r := rounds[0];
      var executed := Execute(s, spec, run, r.executeAt, r.executeClock, r.work);
      var code :- executed.result;
      var resumed := Resume(executed.control, spec, r.next, r.resumeAt, r.resumeClock);
      var claim :- resumed.result;
      if claim.None? then Ok(resumed.control) else Continue(resumed.control, spec, r.next, rounds[1..])
  }

  /** A campaign from its start. */
  function RunToEnd(s: Control, spec: Spec, run: RunId, now: int, clock: int, rounds: seq<Round>): Result<Control, RuntimeError> {
    var started := Start(s, spec, run, now, clock);
    var claim :- started.result;
    Continue(started.control, spec, run, rounds)
  }

  /**
    What the callers owe: fresh run ids, each execution within the lease of its
    claim, times that do not run backwards, record clocks not behind them, and
    application runs that extract what they were asked to.
  */
  predicate Timely(used: set<RunId>, since: int, rounds: seq<Round>)
    decreases |rounds|
  {
    rounds == [] ||
    var r := rounds[0];
    && since <= r.executeAt < since + ITEM_LEASE_SECONDS
    && r.executeAt <= r.executeClock
    && r.work.Extraction? && r.work.applicationVerified && r.work.identityVerified
    && r.executeAt <= r.resumeAt <= r.resumeClock
    && r.next !in used
    && Timely(used + {r.next}, r.resumeAt, rounds[1..])
  }

  /** The keys a ledger commits, in the order it commits them. */
  function CommitLog(history: seq<Item>): seq<Key> {
    if history == [] then []
    else
      var t := history[|history| - 1];
      CommitLog(history[..|history| - 1]) + (if t.status == Committed then [t.key] else [])
  }

  lemma CommitLogAppend(history: seq<Item>, t: Item)
    ensures CommitLog(history + [t]) == CommitLog(history) + (if t.status == Committed then [t.key] else [])
  {
    assert (history + [t])[..|history|] == history;
  }

  lemma CommitLogExecuted(s: Control, run: RunId, key: Key, now: int, content: Hash)
    requires key in s.items && s.items[key].status == Claimed
    ensures CommitLog(Worked(s, run, key, now, content).history) == CommitLog(s.history) + [key]
  {
    var t1 := Progressed(s.items[key], Observed, run, now, Reobserved, None);
    var t2 := Progressed(t1, Extracted, run, now, ExtractionDone, None);
    var t3 := Progressed(t2, Committed, run, now, ResultVerified, Some(content));
    CommitLogAppend(s.history, t1);
    CommitLogAppend(s.history + [t1], t2);
    CommitLogAppend(s.history + [t1] + [t2], t3);
    assert s.history + [t1] + [t2] + [t3] == s.history + [t1, t2, t3];
  }

  /** A completed campaign: everything committed, a terminal handoff that still reads back, no heartbeat. */
  ghost predicate CampaignCompleted(s: Control, lastRun: RunId) {
    && s.manifest.status == Completed
    && IncompleteItems(s.items) == {}
    && s.heartbeat.None?
    && ReadHandoff(s).Ok? && ReadHandoff(s).value.lastRunId == lastRun
    && ReadHandoff(s).value.directive == Completed
    && ReadHandoff(s).value.nextOrdinal == |s.items| + 1
  }

  lemma ClosedCompletes(s: Control, next: RunId, now: int, clock: int)
    requires IncompleteItems(s.items) == {} && now <= clock
    ensures CampaignCompleted(Closed(s, next, now, clock), next)
    ensures Closed(s, next, now, clock).history == s.history
  {
    hide CountStatus;
  }

  lemma KeysCons(m: Item, q: seq<Item>)
    ensures Keys([m] + q) == [m.key] + Keys(q)
  {
  }

  lemma SortedCons(eligible: set<Item>)
    requires eligible != {} && DistinctKeys(eligible)
    ensures Sorted(eligible) == [Least(eligible)] + Sorted(eligible - {Least(eligible)})
  {
    hide Least, IsLeast;
  }

  /** Sorting peels off its least element. */
  lemma SortedPeels(items: Items, rest: Items)
    requires EligibleItems(items) != {}
    requires EligibleItems(rest) == EligibleItems(items) - {Least(EligibleItems(items))}
    ensures Keys(Sorted(EligibleItems(items))) == [Least(EligibleItems(items)).key] + Keys(Sorted(EligibleItems(rest)))
    ensures |EligibleItems(items)| == |EligibleItems(rest)| + 1
  {
    hide EligibleItems, Sorted, Least, Keys;
    SortedCons(EligibleItems(items));
    KeysCons(Least(EligibleItems(items)), Sorted(EligibleItems(rest)));
  }

  lemma NothingSorted(items: Items)
    requires EligibleItems(items) == {}
    ensures Keys(Sorted(EligibleItems(items))) == []
  {
  }

  /** One round that ends the campaign, and one that goes on. */
  lemma RoundUnfolds(s: Control, spec: Spec, run: RunId, rounds: seq<Round>, s1: Control, code: StopCode, s2: Control, claim: Option<Item>)
    requires rounds != []
    requires Execute(s, spec, run, rounds[0].executeAt, rounds[0].executeClock, rounds[0].work) == Attempt(s1, Ok(code))
    requires Resume(s1, spec, rounds[0].next, rounds[0].resumeAt, rounds[0].resumeClock) == Attempt(s2, Ok(claim))
    ensures Continue(s, spec, run, rounds) == if claim.None? then Ok(s2) else Continue(s2, spec, rounds[0].next, rounds[1..])
  {
    hide Execute, Resume;
  }

  /** The execution of a claim, as the log sees it. */
  lemma ExecuteRound(s: Control, spec: Spec, used: set<RunId>, run: RunId, key: Key, since: int, r: Round) returns (s1: Control)
    requires Working(s, spec, used, run, key, since) && Timely(used + {run}, since, [r])
    ensures Execute(s, spec, run, r.executeAt, r.executeClock, r.work) == Attempt(s1, Ok(Stopped(ItemLimit)))
    ensures HandedOff(s1, spec, used + {run}, run, key, since, r.executeAt)
    ensures EligibleItems(s1.items) == EligibleItems(s.items)
    ensures CommitLog(s1.history) == CommitLog(s.history) + [key]
  {
    WorkingClaims(s, spec, used, run, key, since);
    hide Working, HandedOff, EligibleItems, Execute, CommitLog;
    ExecuteWorks(s, spec, used, run, key, since, r.executeAt, r.executeClock, r.work);
    s1 := Executed(s, run, key, r.executeAt, r.executeClock, r.work.content, UsageOf(r.work.report));
    ExecutedLog(s, run, key, r.executeAt, r.executeClock, r.work.content, UsageOf(r.work.report));
  }

  /** The last round: nothing is left, the campaign completes. */
  lemma LastRound(s: Control, spec: Spec, used: set<RunId>, run: RunId, key: Key, since: int, rounds: seq<Round>)
    requires Working(s, spec, used, run, key, since) && EligibleItems(s.items) == {}
    requires |rounds| == 1 && Timely(used + {run}, since, rounds)
    ensures Continue(s, spec, run, rounds).Ok?
    ensures CampaignCompleted(Continue(s, spec, run, rounds).value, rounds[0].next)
    ensures CommitLog(Continue(s, spec, run, rounds).value.history) == CommitLog(s.history) + [key]
  {
    var r := rounds[0];
    assert rounds == [r];
    TimelyUnfolds(used + {run}, since, rounds);
    hide *;
    var s1 := ExecuteRound(s, spec, used, run, key, since, r);
    ResumeCompletes(s1, spec, used + {run}, run, key, since, r.executeAt, r.resumeAt, r.resumeClock, r.next);
    ClosedCompletes(s1, r.next, r.resumeAt, r.resumeClock);
    RoundUnfolds(s, spec, run, rounds, s1, Stopped(ItemLimit), Closed(s1, r.next, r.resumeAt, r.resumeClock), None);
  }

  /** Any other round: the least item left is claimed for the next run. */
  lemma MiddleRound(s: Control, spec: Spec, used: set<RunId>, run: RunId, key: Key, since: int, rounds: seq<Round>)
    returns (s2: Control, t: Item)
    requires Working(s, spec, used, run, key, since) && EligibleItems(s.items) != {}
    requires rounds != [] && Timely(used + {run}, since, rounds)
    ensures t.key == Least(EligibleItems(s.items)).key
    ensures EligibleItems(s2.items) == EligibleItems(s.items) - {Least(EligibleItems(s.items))}
    ensures Working(s2, spec, used + {run}, rounds[0].next, t.key, rounds[0].resumeAt)
    ensures Continue(s, spec, run, rounds) == Continue(s2, spec, rounds[0].next, rounds[1..])
    ensures CommitLog(s2.history) == CommitLog(s.history) + [key]
  {
    var r := rounds[0];
    TimelyUnfolds(used + {run}, since, rounds);
    TimelyOne(used + {run}, since, rounds);
    hide *;
    var s1 := ExecuteRound(s, spec, used, run, key, since, r);
    t := ResumeClaims(s1, spec, used + {run}, run, key, since, r.executeAt, r.resumeAt, r.resumeClock, r.next);
    s2 := Resume(s1, spec, r.next, r.resumeAt, r.resumeClock).control;
    ClaimIsClaim(Least(EligibleItems(s1.items)), r.next, r.resumeAt);
    CommitLogAppend(s1.history, t);
    RoundUnfolds(s, spec, run, rounds, s1, Stopped(ItemLimit), s2, Some(t));
  }

  /**
    From a claim on: as many rounds as there are items left run without blocking,
    commit the claimed item and then every eligible one in order, and complete.
  */
  lemma {:induction false} ContinueCompletes(s: Control, spec: Spec, used: set<RunId>, run: RunId, key: Key, since: int, rounds: seq<Round>)
    requires Working(s, spec, used, run, key, since)
    requires |rounds| == |EligibleItems(s.items)| + 1
    requires Timely(used + {run}, since, rounds)
    ensures Continue(s, spec, run, rounds).Ok?
    ensures var done := Continue(s, spec, run, rounds).value;
      && CampaignCompleted(done, rounds[|rounds| - 1].next)
      && CommitLog(done.history) == CommitLog(s.history) + [key] + Keys(Sorted(EligibleItems(s.items)))
    decreases |rounds|
  {
    hide *;
    if EligibleItems(s.items) == {} {
      LastRound(s, spec, used, run, key, since, rounds);
      NothingSorted(s.items);
    } else {
      TimelyUnfolds(used + {run}, since, rounds);
      var s2, t := MiddleRound(s, spec, used, run, key, since, rounds);
      SortedPeels(s.items, s2.items);
      ContinueCompletes(s2, spec, used + {run}, rounds[0].next, t.key, rounds[0].resumeAt, rounds[1..]);
      ghost var rest := Keys(Sorted(EligibleItems(s2.items)));
      assert CommitLog(s.history) + [key] + [t.key] + rest == CommitLog(s.history) + [key] + ([t.key] + rest);
    }
  }

  lemma TimelyOne(used: set<RunId>, since: int, rounds: seq<Round>)
    requires rounds != [] && Timely(used, since, rounds)
    ensures Timely(used, since, [rounds[0]])
  {
  }

  lemma TimelyUnfolds(used: set<RunId>, since: int, rounds: seq<Round>)
    requires rounds != [] && Timely(used, since, rounds)
    ensures var r := rounds[0];
      && since <= r.executeAt < since + ITEM_LEASE_SECONDS && r.executeAt <= r.executeClock
      && r.work.Extraction? && r.work.applicationVerified && r.work.identityVerified
      && r.executeAt <= r.resumeAt <= r.resumeClock && r.next !in used
      && Timely(used + {r.next}, r.resumeAt, rounds[1..])
  {
  }

  lemma ExecutedLog(s: Control, run: RunId, key: Key, now: int, clock: int, content: Hash, usage: Usage)
    requires key in s.items && s.items[key].status == Claimed && ActiveBatch(s.batches).Some?
    ensures CommitLog(Executed(s, run, key, now, clock, content, usage).history) == CommitLog(s.history) + [key]
  {
    hide CommitLog;
    CommitLogExecuted(s, run, key, now, content);
  }

  lemma WorkingClaims(s: Control, spec: Spec, used: set<RunId>, run: RunId, key: Key, since: int)
    requires Working(s, spec, used, run, key, since)
    ensures key in s.items && s.items[key].status == Claimed && s.manifest.updatedAt <= since && ActiveBatch(s.batches).Some?
  {
  }

  lemma StartUnfolds(s: Control, spec: Spec, run: RunId, now: int, clock: int, rounds: seq<Round>, s1: Control, t: Item)
    requires Start(s, spec, run, now, clock) == Attempt(s1, Ok(t)) && t.status == Claimed && s1.history == s.history + [t]
    ensures RunToEnd(s, spec, run, now, clock, rounds) == Continue(s1, spec, run, rounds)
    ensures CommitLog(s1.history) == CommitLog(s.history)
  {
    hide Start, Continue;
    CommitLogAppend(s.history, t);
  }

  lemma ClaimIsClaim(m: Item, run: RunId, now: int)
    ensures ClaimOf(m, run, now, ITEM_LEASE_SECONDS).status == Claimed
    ensures ClaimOf(m, run, now, ITEM_LEASE_SECONDS).key == m.key
  {
  }

  /** Any startable campaign, driven to its end, commits every eligible item once, in order. */
  lemma CampaignCompletes(s: Control, spec: Spec, run: RunId, now: int, clock: int, rounds: seq<Round>)
    requires Startable(s, spec) && s.manifest.updatedAt <= now && |s.items| <= MAX_CAMPAIGN_ITEMS
    requires forall k | k in s.items :: s.items[k].at <= now
    requires |rounds| == |EligibleItems(s.items)| && Timely({run}, now, rounds)
    ensures RunToEnd(s, spec, run, now, clock, rounds).Ok?
    ensures var done := RunToEnd(s, spec, run, now, clock, rounds).value;
      && rounds != [] && CampaignCompleted(done, rounds[|rounds| - 1].next)
      && CommitLog(done.history) == CommitLog(s.history) + Keys(Sorted(EligibleItems(s.items)))
  {
    hide *;
    var t := StartWorks(s, spec, run, now, clock);
    ClaimIsClaim(Least(EligibleItems(s.items)), run, now);
    var s1 := Start(s, spec, run, now, clock).control;
    SortedPeels(s.items, s1.items);
    StartUnfolds(s, spec, run, now, clock, rounds, s1, t);
    assert {} + {run} == {run};
    ContinueCompletes(s1, spec, {}, run, t.key, now, rounds);
  }
}
