/**
  The campaign store of campaign.py as an object: append-only ledgers and
  replaceable records.  Every method reads the ledgers back before it writes, and
  is specified by the function of the same name in module `Campaign` on the
  record the store holds.
*/
module CampaignStores {
  import opened Wrappers
  import C = Campaign
  import opened Campaign

  lemma FoldAppend(log: seq<Item>, t: Item)
    requires FoldItems(log).Ok?
    ensures FoldItems(log + [t]) ==
            if Admits(FoldItems(log).value, t) then Ok(Admit(FoldItems(log).value, t)) else Err(LedgerInvalid)
  {
    assert (log + [t])[..|log|] == log;
  }

  lemma BatchesAppend(log: seq<BatchTransition>, t: BatchTransition)
    requires BatchesAccepted(log)
    ensures BatchesAccepted(log + [t]) <==> AdmitsBatch(log, t)
  {
    assert (log + [t])[..|log|] == log;
  }

  class CampaignStore {
    var manifest: Manifest
    var itemLog: seq<Item>
    var batchLog: seq<BatchTransition>
    var passes: seq<DiscoveryPass>
    var heartbeat: Option<Heartbeat>
    var handoff: Option<Handoff>

    ghost predicate Valid()
      reads this
    {
      ReduceItems(itemLog).Ok? && BatchesAccepted(batchLog)
    }

    /** The record the store holds. */
    ghost function Snapshot(): Control
      requires Valid()
      reads this
    {
      Control(manifest, ReduceItems(itemLog).value, itemLog, batchLog, passes, heartbeat, handoff)
    }

    /** `create`. */
    constructor (m: Manifest)
      ensures Valid() && Snapshot() == Control(m, map[], [], [], [], None, None)
    {
      manifest, itemLog, batchLog, passes, heartbeat, handoff := m, [], [], [], None, None;
    }

    method ReadLedger() returns (items: Items)
      requires Valid()
      ensures items == Snapshot().items
    {
      var r := ReduceItemLedger(itemLog);
      items := r.value;
    }

    method ReadBatches() returns (batches: BatchProjection)
      requires Valid()
      ensures batches == BatchProjection(ActiveBatch(batchLog), FinishedCount(batchLog))
    {
      var r := ReduceBatchLedger(batchLog);
      batches := r.value;
    }

    /** The record, read back from the ledgers. */
    method Read() returns (s: Control)
      requires Valid()
      ensures s == Snapshot()
    {
      var items := ReadLedger();
      s := Control(manifest, items, itemLog, batchLog, passes, heartbeat, handoff);
    }

    method Append(t: Item) returns (r: Result<Item, StoreError>)
      requires Valid()
      modifies this`itemLog
      ensures Valid()
      ensures match C.Append(old(Snapshot()), t)
              case Ok(next) => r == Ok(t) && Snapshot() == next
              case Err(e) => r == Err(e) && Snapshot() == old(Snapshot())
    {
      FoldAppend(itemLog, t);
      var updated := ReduceItemLedger(itemLog + [t]);
      if updated.Err? {
        return Err(updated.error);
      }
      itemLog := itemLog + [t];
      r := Ok(t);
    }

    method AppendBatch(t: BatchTransition) returns (r: Result<BatchTransition, StoreError>)
      requires Valid()
      modifies this`batchLog
      ensures Valid()
      ensures match C.AppendBatch(old(Snapshot()), t)
              case Ok(next) => r == Ok(t) && Snapshot() == next
              case Err(e) => r == Err(e) && Snapshot() == old(Snapshot())
    {
      BatchesAppend(batchLog, t);
      var updated := ReduceBatchLedger(batchLog + [t]);
      if updated.Err? {
        return Err(BatchLedgerInvalid);
      }
      batchLog := batchLog + [t];
      r := Ok(t);
    }

    method WriteHeartbeat(h: Heartbeat) returns (r: Result<Heartbeat, StoreError>)
      requires Valid()
      modifies this`heartbeat
      ensures Valid()
      ensures match C.WriteHeartbeat(old(Snapshot()), h)
              case Ok(next) => r == Ok(h) && Snapshot() == next
              case Err(e) => r == Err(e) && Snapshot() == old(Snapshot())
    {
      if heartbeat.Some? {
        var current := heartbeat.value;
        if h.runId != current.runId || h.startedAt != current.startedAt || h.heartbeatAt < current.heartbeatAt {
          return Err(HeartbeatConflict);
        }
        if h.heartbeatAt == current.heartbeatAt && h != current {
          return Err(HeartbeatConflict);
        }
      }
      heartbeat := Some(h);
      r := Ok(h);
    }

    method ReplaceHeartbeatOwner(current: RunId, replacement: Heartbeat, now: int) returns (r: Result<Heartbeat, StoreError>)
      requires Valid()
      modifies this`heartbeat
      ensures Valid()
      ensures match C.ReplaceOwner(old(Snapshot()), current, replacement, now)
              case Ok(next) => r == Ok(replacement) && Snapshot() == next
              case Err(e) => r == Err(e) && Snapshot() == old(Snapshot())
    {
      if replacement.runId == current {
        return Err(TransferInvalid);
      }
      if heartbeat.None? || heartbeat.value.runId != current {
        return Err(TransferConflict);
      }
      if replacement.startedAt != now || replacement.heartbeatAt != now {
        return Err(TransferInvalid);
      }
      heartbeat := Some(replacement);
      r := Ok(replacement);
    }

    method RecoverStaleHeartbeat(stale: RunId, replacement: Heartbeat, now: int) returns (r: Result<Heartbeat, StoreError>)
      requires Valid()
      modifies this`heartbeat
      ensures Valid()
      ensures match C.RecoverStale(old(Snapshot()), stale, replacement, now)
              case Ok(next) => r == Ok(replacement) && Snapshot() == next
              case Err(e) => r == Err(e) && Snapshot() == old(Snapshot())
    {
      if replacement.runId == stale {
        return Err(RecoveryInvalid);
      }
      hide FoldItems, ReduceItems, BatchesAccepted, InspectStaleRun, Claims;
      var s := Read();
      var inspection := InspectStaleRun(s, now);
      if inspection.Err? {
        return Err(RecoveryInvalid);
      }
      if inspection.value != StaleOwner || (exists c | c in Claims(s.items) :: LeaseStale(c, now)) {
        return Err(RecoveryBlocked);
      }
      if heartbeat.None? || heartbeat.value.runId != stale {
        return Err(RecoveryBlocked);
      }
      if replacement.startedAt != now || replacement.heartbeatAt != now {
        return Err(RecoveryInvalid);
      }
      heartbeat := Some(replacement);
      r := Ok(replacement);
    }

    method WriteHandoff(lastRun: RunId, clock: int)
      requires Valid()
      modifies this`handoff
      ensures Valid() && Snapshot() == C.WriteHandoff(old(Snapshot()), lastRun, clock)
    {
      var items := ReadLedger();
      handoff := Some(Handoff(NextOrdinal(items), CountStatus(items, Committed), CountStatus(items, Retryable),
                              CountStatus(items, Uncertain), lastRun, manifest.status, clock));
    }

    method CompleteCampaign(at: int) returns (r: Result<Manifest, StoreError>)
      requires Valid()
      modifies this`manifest
      ensures Valid()
      ensures match C.CompleteCampaign(old(Snapshot()), at)
              case Ok(next) => r == Ok(manifest) && Snapshot() == next
              case Err(e) => r == Err(e) && Snapshot() == old(Snapshot())
    {
      if manifest.status != Running || at < manifest.updatedAt {
        return Err(CompletionInvalid);
      }
      manifest := manifest.(updatedAt := at, status := Completed);
      r := Ok(manifest);
    }

    method RemoveCompletedHeartbeat(runId: RunId) returns (r: Result<Option<Heartbeat>, StoreError>)
      requires Valid()
      modifies this`heartbeat
      ensures Valid()
      ensures match C.RemoveHeartbeat(old(Snapshot()), runId)
              case Ok(next) => r == Ok(old(heartbeat)) && Snapshot() == next
              case Err(e) => r == Err(e) && Snapshot() == old(Snapshot())
    {
      hide FoldItems, ReduceItems, BatchesAccepted, DerivedHandoff, IncompleteItems, NextOrdinal, CountStatus;
      var s := Read();
      var current := ReadHandoff(s);
      if current.Err? {
        return Err(RetirementInvalid);
      }
      if manifest.status != Completed || s.items == map[] || IncompleteItems(s.items) != {} {
        return Err(RetirementBlocked);
      }
      if current.value.lastRunId != runId || current.value.directive != Completed {
        return Err(RetirementBlocked);
      }
      if heartbeat.Some? && heartbeat.value.runId != runId {
        return Err(RetirementConflict);
      }
      r := Ok(heartbeat);
      heartbeat := None;
    }
  }
}
