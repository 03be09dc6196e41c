/**
  A whole BOSS campaign: driven from its start through one execution and one restart
  per item it commits ordinals 1, 2, 3, ... in order; the restart after the last item
  fails, and from then on every call of any BOSS runtime is refused.
*/
module BossTheorem {
  import opened Wrappers
  import opened Campaign
  import opened BatchCoordinator
  import opened BatchProgress
  import opened ApplicationCampaign
  import opened ApplicationRounds
  import opened ApplicationTheorem
  import opened BossCampaign
  import opened BossSessions
  import opened BossRestart
  import opened BossRounds
  import Discovery

  /** The execution of one claim and the restart that follows it for run `next`. */
  datatype BossRound = BossRound(executeAt: int, executeClock: int, work: BossWork, next: RunId, restartAt: int)

  /** Rounds after `run` has claimed, up to the first error; the result is the last claim. */
  function ContinueBoss(s: Control, c: Discovery.Contract, run: RunId, claim: Item, rounds: seq<BossRound>): Attempt<Item>
    decreases |rounds|
  {
    if rounds == [] then Attempt(s, Ok(claim))
    else
      var r := rounds[0];
      var executed := ExecuteBoss(s, c, run, r.executeAt, r.executeClock, r.work);
      match executed.result
      case Err(error) => Attempt(executed.control, Err(error))
      case Ok(_) =>
        var restarted := ResumeBoss(executed.control, c, BOSS_BATCH_POLICY, false, r.next, r.restartAt);
        match restarted.result
        case Err(error) => restarted
        case Ok(next) => ContinueBoss(restarted.control, c, r.next, next, rounds[1..])
  }

  /** A campaign from its start. */
  function RunBoss(s: Control, c: Discovery.Contract, run: RunId, now: int, clock: int, rounds: seq<BossRound>): Attempt<Item> {
    var started := StartBoss(s, c, BOSS_BATCH_POLICY, run, now, clock);
    match started.result
    case Err(error) => started
    case Ok(claim) => ContinueBoss(started.control, c, run, claim, rounds)
  }

  /**
    What the callers owe: fresh run ids, each execution within the lease of its claim,
    times that do not run backwards, record clocks not behind them, and observations
    that see the claimed item with one tool call.
  */
  predicate BossTimely(used: set<RunId>, since: int, rounds: seq<BossRound>)
    decreases |rounds|
  {
    rounds == [] ||
    var r := rounds[0];
    && since <= r.executeAt < since + ITEM_LEASE_SECONDS && r.executeAt <= r.executeClock
    && IdentitySeen(r.work)
    && r.executeAt <= r.restartAt && r.next !in used
    && BossTimely(used + {r.next}, r.restartAt, rounds[1..])
  }

  lemma BossTimelyUnfolds(used: set<RunId>, since: int, rounds: seq<BossRound>)
    requires rounds != [] && BossTimely(used, since, rounds)
    ensures var r := rounds[0];
      && since <= r.executeAt < since + ITEM_LEASE_SECONDS && r.executeAt <= r.executeClock && IdentitySeen(r.work)
      && r.executeAt <= r.restartAt && r.next !in used && BossTimely(used + {r.next}, r.restartAt, rounds[1..])
  {
  }

  lemma RoundUnfolds(s: Control, c: Discovery.Contract, run: RunId, claim: Item, rounds: seq<BossRound>, s1: Control, code: StopCode)
    requires rounds != []
    requires ExecuteBoss(s, c, run, rounds[0].executeAt, rounds[0].executeClock, rounds[0].work) == Attempt(s1, Ok(code))
    ensures var restarted := ResumeBoss(s1, c, BOSS_BATCH_POLICY, false, rounds[0].next, rounds[0].restartAt);
      ContinueBoss(s, c, run, claim, rounds) ==
      if restarted.result.Ok? then ContinueBoss(restarted.control, c, rounds[0].next, restarted.result.value, rounds[1..]) else restarted
  {
    hide ExecuteBoss, ResumeBoss;
  }

  lemma WorkingTimes(s: Control, c: Discovery.Contract, used: set<RunId>, session: Session, order: seq<Key>, since: int)
    requires BossWorking(s, c, used, session, order, since)
    ensures s.manifest.updatedAt <= since && order != [] && session.runId !in used
  {
  }

  /** What a campaign looks like after `m` rounds on an order of `n` items, and after the last one. */
  ghost predicate Reaches(before: Control, order: seq<Key>, a: Attempt<Item>, m: nat)
    requires m <= |order|
  {
    && CommitLog(a.control.history) == CommitLog(before.history) + order[..m]
    && (m < |order| ==> a.result.Ok? && a.result.value.key == order[m]
                        && a.result.value.ordinal == |before.items| - |order| + 1 + m)
    && (m == |order| ==> a.result == Err(ResumeEvidenceInvalid) && Stranded(a.control)
                         && IncompleteItems(a.control.items) == {} && a.control.manifest.status == Running)
  }

  lemma NoRounds(s: Control, c: Discovery.Contract, run: RunId, claim: Item, order: seq<Key>)
    requires order != [] && claim.key == order[0] && claim.ordinal == |s.items| - |order| + 1
    ensures Reaches(s, order, ContinueBoss(s, c, run, claim, []), 0)
  {
    assert CommitLog(s.history) + order[..0] == CommitLog(s.history);
  }

  lemma LastReaches(s: Control, order: seq<Key>, s1: Control, taken: Control)
    requires |order| == 1 && CommitLog(s1.history) == CommitLog(s.history) + [order[0]] && taken.history == s1.history
    requires Stranded(taken) && IncompleteItems(taken.items) == {} && taken.manifest.status == Running
    ensures Reaches(s, order, Attempt(taken, Err(ResumeEvidenceInvalid)), 1)
  {
    assert order[..1] == [order[0]];
    hide CommitLog;
  }

  lemma RestReaches(s: Control, order: seq<Key>, s2: Control, a: Attempt<Item>, m: nat)
    requires order != [] && m <= |order[1..]| && Reaches(s2, order[1..], a, m) && |s2.items| == |s.items|
    requires CommitLog(s2.history) == CommitLog(s.history) + [order[0]]
    ensures Reaches(s, order, a, m + 1)
  {
    hide CommitLog, Stranded;
    OrderHead(CommitLog(s.history), order, m);
  }

  lemma OrderHead(log: seq<Key>, order: seq<Key>, m: nat)
    requires order != [] && m <= |order[1..]|
    ensures log + [order[0]] + order[1..][..m] == log + order[..m + 1]
    ensures m < |order[1..]| ==> order[1..][m] == order[m + 1]
  {
    assert order[..m + 1] == [order[0]] + order[1..][..m];
  }

  lemma RestartedLog(s: Control, next: RunId, now: int, t: Item)
    requires Admits(s.items, t) && t.key in s.items && t.status == Claimed
    ensures var s2 := Put(RestartOpening(s, next, now), t);
      CommitLog(s2.history) == CommitLog(s.history) && |s2.items| == |s.items|
  {
    hide CommitLog, Admits;
    CommitLogAppend(s.history, t);
    var s2 := Put(RestartOpening(s, next, now), t);
    assert s2.items.Keys == s.items.Keys;
    SameSize(s, s2);
  }

  lemma OrderTail(order: seq<Key>, items: Items)
    requires order != [] && EligibleOrder(items) == order[1..]
    ensures EligibleItems(items) == {} <==> |order| == 1
    ensures |order| > 1 ==> order[1] in items
  {
    if |order| > 1 {
      var q := Sorted(EligibleItems(items));
      assert q[0] in q && order[1..][0] == q[0].key;
    }
  }

  /**
    Each round commits the next key of the order and claims the one after it; the round
    that commits the last key strands the campaign.
  */
  lemma {:induction false} BossRoundsReach(s: Control, c: Discovery.Contract, used: set<RunId>, session: Session, order: seq<Key>, since: int,
                                           claim: Item, rounds: seq<BossRound>)
    requires BossWorking(s, c, used, session, order, since)
    requires order != [] && claim.key == order[0] && claim.ordinal == |s.items| - |order| + 1
    requires BossTimely(used + {session.runId}, since, rounds) && |rounds| <= |order|
    ensures Reaches(s, order, ContinueBoss(s, c, session.runId, claim, rounds), |rounds|)
    decreases |rounds|
  {
    hide *;
    if rounds == [] {
      NoRounds(s, c, session.runId, claim, order);
    } else {
      var r := rounds[0];
      WorkingTimes(s, c, used, session, order, since);
      BossTimelyUnfolds(used + {session.runId}, since, rounds);
      BossExecuteWorks(s, c, used, session, order, since, r.executeAt, r.executeClock, r.work);
      SeenWork(r.work);
      var s1 := BossExecuted(s, session, order[0], r.executeAt, r.executeClock, r.work);
      var done := BossExecutedRests(s, c, used, session, order, since, r.executeAt, r.executeClock, r.work);
      RoundUnfolds(s, c, session.runId, claim, rounds, s1, Stopped(ToolCallLimit));
      OrderTail(order, s1.items);
      if |order| == 1 {
        BossRestartStrands(s1, c, used + {session.runId}, done, r.executeAt, r.next, r.restartAt);
        LastReaches(s, order, s1, s1.(heartbeat := Some(LeasedHeartbeat(r.next, r.restartAt))));
      } else {
        var t, following := BossRestartWorks(s1, c, used + {session.runId}, done, r.executeAt, r.next, r.restartAt);
        RestartFrame(s1, c, used + {session.runId}, done, r.executeAt, r.next, r.restartAt);
        var s2 := Put(RestartOpening(s1, r.next, r.restartAt), t);
        RestartedLog(s1, r.next, r.restartAt, t);
        BossRoundsReach(s2, c, used + {session.runId}, following, order[1..], r.restartAt, t, rounds[1..]);
        RestReaches(s, order, s2, ContinueBoss(s2, c, r.next, t, rounds[1..]), |rounds| - 1);
      }
    }
  }

  lemma SeenWork(work: BossWork)
    requires IdentitySeen(work)
    ensures work.BossSeen?
  {
  }

  lemma StartUnfolds(s: Control, c: Discovery.Contract, run: RunId, now: int, clock: int, rounds: seq<BossRound>, s1: Control, t: Item)
    requires StartBoss(s, c, BOSS_BATCH_POLICY, run, now, clock) == Attempt(s1, Ok(t))
    ensures RunBoss(s, c, run, now, clock, rounds) == ContinueBoss(s1, c, run, t, rounds)
  {
    hide StartBoss, ContinueBoss;
  }

  lemma OpenedLog(s: Control, run: RunId, now: int, clock: int, t: Item)
    requires Admits(s.items, t) && t.key in s.items && t.status == Claimed
    ensures var s1 := Put(BossOpening(s, run, now, clock), t);
      CommitLog(s1.history) == CommitLog(s.history) && |s1.items| == |s.items|
  {
    hide CommitLog, Admits;
    CommitLogAppend(s.history, t);
    var s1 := Put(BossOpening(s, run, now, clock), t);
    assert s1.items.Keys == s.items.Keys;
    SameSize(s, s1);
  }

  lemma ReachesFrom(s: Control, s1: Control, order: seq<Key>, a: Attempt<Item>, m: nat)
    requires m <= |order| && Reaches(s1, order, a, m)
    requires CommitLog(s1.history) == CommitLog(s.history) && |s1.items| == |s.items|
    ensures Reaches(s, order, a, m)
  {
    hide CommitLog, Stranded;
  }

  /**
    Any BOSS campaign whose start is accepted, with the items ordered 1..n: after m < n
    rounds it has committed exactly ordinals 1..m, in order, and claimed ordinal m + 1;
    after n rounds everything is committed, the campaign is still running, and whatever
    the BOSS runtimes are asked from then on is refused and changes nothing.
  */
  lemma BossCampaignStrands(s: Control, c: Discovery.Contract, run: RunId, now: int, clock: int, rounds: seq<BossRound>,
                            calls: seq<Call>, call: Call)
    requires |s.items| <= MAX_CAMPAIGN_ITEMS && StartAccepted(s, c, now)
    requires |rounds| <= |s.items| && BossTimely({run}, now, rounds)
    ensures var order, a := EligibleOrder(s.items), RunBoss(s, c, run, now, clock, rounds);
      && |order| == |s.items| && Numbered(s.items, order)
      && Reaches(s, order, a, |rounds|)
      && (|rounds| == |s.items| ==>
            ServeAll(a.control, c, calls) == a.control && Refused(a.control, c, call) && Serve(a.control, c, call) == a.control)
  {
    hide *;
    var order := EligibleOrder(s.items);
    StartFacts(s, c, now);
    AllEligible(s.items);
    StartNumbered(s.items);
    StartFrame(s, c, run, now, clock);
    var t, session := BossStartWorks(s, c, run, now, clock);
    OrderedKey(s.items, order, 0);
    var s2 := Put(BossOpening(s, run, now, clock), t);
    OpenedLog(s, run, now, clock, t);
    assert {} + {run} == {run};
    BossRoundsReach(s2, c, {}, session, order, now, t, rounds);
    StartUnfolds(s, c, run, now, clock, rounds, s2, t);
    ReachesFrom(s, s2, order, ContinueBoss(s2, c, run, t, rounds), |rounds|);
    if |rounds| == |s.items| {
      ReachesEnd(s, order, RunBoss(s, c, run, now, clock, rounds));
      StrandedForGood(RunBoss(s, c, run, now, clock, rounds).control, c, calls, call);
    }
  }

  lemma OrderedKey(items: Items, order: seq<Key>, i: nat)
    requires Numbered(items, order) && i < |order|
    ensures order[i] in items
  {
  }

  lemma ReachesEnd(s: Control, order: seq<Key>, a: Attempt<Item>)
    requires Reaches(s, order, a, |order|)
    ensures Stranded(a.control)
  {
  }
}
