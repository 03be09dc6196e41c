/**
  The private rollout store of adaptive_routing.py: one file, compare-and-swap on
  revision and digest.  Paths, sizes and atomic replacement are not modelled; the
  file holds a JSON payload or nothing.
*/
module AdaptiveStore {
  import opened Wrappers
  import opened AdaptiveTypes
  import opened AdaptiveRouting
  import opened AdaptiveInvariant
  import opened AdaptiveHistory
  import opened AdaptiveCodec
  import opened AdaptiveRoundTrip
  import P = Payload

  // ---------- the operations, as functions of the file ----------

  type File = Option<P.Json>

  /** `_read`. */
  function ReadFile(file: File, id: P.Digest): Result<Rollout, StoreError> {
    if file.None? then Err(ReadFailed)
    else
      var r :- DecodeEnvelope(file.value);
      if r.rolloutId != id then Err(IdMismatch) else Ok(r)
  }

  /** `_write`: the envelope must decode before it is stored, and the decoded rollout is returned. */
  function WriteFile(file: File, id: P.Digest, r: Rollout, create: bool): Result<(File, Rollout), StoreError> {
    if r.rolloutId != id then Err(IdMismatch)
    else
      var validated :- DecodeEnvelope(Envelope(r));
      if create && file.Some? then Err(AlreadyExists) else Ok((Some(Envelope(r)), validated))
  }

  /** `_require_cas`. */
  function CheckSwap(current: Rollout, revision: int, digest: P.Digest): Result<(), StoreError> {
    if revision < 0 then Err(Refused(IntegerInvalid))
    else if current.revision != revision || current.Digest() != digest then Err(StoreConflict)
    else Ok(())
  }

  function Refuse<T>(r: Checked<T>): Result<T, StoreError> {
    match r case Ok(v) => Ok(v) case Err(e) => Err(Refused(e))
  }

  /** A client's request, with the digest it expects. */
  datatype SwapRequest = SwapRequest(request: Request, digest: P.Digest)

  function Revision(q: Request): int {
    q.expectedRevision
  }

  /** `route` and `record_outcome` on a file: the new file and the log entry, or the error. */
  function Swap(file: File, id: P.Digest, q: SwapRequest): Result<(File, Entry), StoreError> {
    var current :- ReadFile(file, id);
    var checked :- CheckSwap(current, Revision(q.request), q.digest);
    var (next, entry) :- Refuse(Respond(current, q.request));
    var written :- WriteFile(file, id, next, false);
    Ok((written.0, entry))
  }

  /** `create`. */
  function CreateFile(file: File, id: P.Digest, r: Rollout): Result<(File, Rollout), StoreError> {
    if r.revision != 0 || r.pending.Some? then Err(InitialStateInvalid) else WriteFile(file, id, r, true)
  }

  // ---------- the store ----------

  class Store {
    const id: P.Digest
    var file: File
    var locked: bool

    constructor (id: P.Digest)
      ensures this.id == id && file.None? && !locked
    {
      this.id := id;
      file, locked := None, false;
    }

    method Read() returns (r: Result<Rollout, StoreError>)
      ensures r == if locked then ReadFile(file, id) else Err(LockRequired)
    {
      if !locked {
        return Err(LockRequired);
      }
      if file.None? {
        return Err(ReadFailed);
      }
      var decoded := DecodeEnvelope(file.value);
      if decoded.Err? {
        return Err(decoded.error);
      }
      if decoded.value.rolloutId != id {
        return Err(IdMismatch);
      }
      r := decoded;
    }

    method Write(r: Rollout, create: bool) returns (w: Result<Rollout, StoreError>)
      modifies this`file
      ensures match WriteFile(old(file), id, r, create)
              case Ok((next, validated)) => w == Ok(validated) && file == next
              case Err(e) => w == Err(e) && file == old(file)
    {
      hide DecodeEnvelope, Envelope;
      if r.rolloutId != id {
        return Err(IdMismatch);
      }
      var payload := Envelope(r);
      var validated := DecodeEnvelope(payload);
      if validated.Err? {
        return Err(validated.error);
      }
      if create && file.Some? {
        return Err(AlreadyExists);
      }
      file := Some(payload);
      w := validated;
    }

    method Create(r: Rollout) returns (w: Result<Rollout, StoreError>)
      modifies this`file
      ensures match if locked then CreateFile(old(file), id, r) else Err(LockRequired)
              case Ok((next, validated)) => w == Ok(validated) && file == next
              case Err(e) => w == Err(e) && file == old(file)
    {
      hide WriteFile;
      if !locked {
        return Err(LockRequired);
      }
      if r.revision != 0 || r.pending.Some? {
        return Err(InitialStateInvalid);
      }
      w := Write(r, true);
    }

    /** `route`. */
    method RouteStored(active: Evidence, candidate: Evidence, context: RoutingContext, revision: int, digest: P.Digest, now: int)
      returns (t: Result<Decision, StoreError>)
      modifies this`file
      ensures var q := SwapRequest(RouteRequest(active, candidate, context, revision, now), digest);
        match if locked then Swap(old(file), id, q) else Err(LockRequired)
        case Ok((next, entry)) => t.Ok? && entry == Routed(t.value) && file == next
        case Err(e) => t == Err(e) && file == old(file)
    {
      hide ReadFile, Route, WriteFile;
      var current := Read();
      if current.Err? {
        return Err(current.error);
      }
      var swap := CheckSwap(current.value, revision, digest);
      if swap.Err? {
        return Err(swap.error);
      }
      var transition := Route(current.value, active, candidate, context, revision, now);
      if transition.Err? {
        return Err(Refused(transition.error));
      }
      var persisted := Write(transition.value.rollout, false);
      if persisted.Err? {
        return Err(persisted.error);
      }
      t := Ok(transition.value.decision);
    }

    /** `record_outcome`. */
    method RecordStored(outcome: Outcome, revision: int, digest: P.Digest) returns (t: Result<Rollout, StoreError>)
      modifies this`file
      ensures var q := SwapRequest(OutcomeRequest(outcome, revision), digest);
        match if locked then Swap(old(file), id, q) else Err(LockRequired)
        case Ok((next, entry)) =>
          t.Ok? && entry == Consumed(outcome) && file == next && next.Some? && DecodeEnvelope(next.value) == Ok(t.value)
        case Err(e) => t == Err(e) && file == old(file)
    {
      hide ReadFile, Record, DecodeEnvelope, Envelope;
      var current := Read();
      if current.Err? {
        return Err(current.error);
      }
      var swap := CheckSwap(current.value, revision, digest);
      if swap.Err? {
        return Err(swap.error);
      }
      var updated := Record(current.value, outcome, revision);
      if updated.Err? {
        return Err(Refused(updated.error));
      }
      var persisted := Write(updated.value, false);
      if persisted.Err? {
        return Err(persisted.error);
      }
      t := Ok(persisted.value);
    }
  }

  // ---------- runs of the store refine runs of the rollout ----------

  /** What the constructors of a request's parts have checked. */
  predicate RequestFormed(q: Request) {
    q.RouteRequest? ==> ValidContext(q.context)
  }

  /** The file holds exactly this rollout. */
  predicate Holds(file: File, id: P.Digest, r: Rollout) {
    file == Some(Envelope(r)) && r.rolloutId == id && WellFormed(r)
  }

  function SwapStep(file: File, id: P.Digest, q: SwapRequest): File {
    match Swap(file, id, q) case Ok((next, _)) => next case Err(_) => file
  }

  function SwapRun(file: File, id: P.Digest, qs: seq<SwapRequest>): File
    decreases |qs|
  {
    if qs == [] then file else SwapStep(SwapRun(file, id, qs[..|qs| - 1]), id, qs[|qs| - 1])
  }

  /** The trace of the same run: requests whose digest is not current are dropped. */
  function Follow(t: Trace, qs: seq<SwapRequest>): Trace
    decreases |qs|
  {
    if qs == [] then t
    else
      var before := Follow(t, qs[..|qs| - 1]);
      var q := qs[|qs| - 1];
      if q.digest == before.rollout.Digest() then AdaptiveHistory.Step(before, q.request) else before
  }

  lemma ReadsBack(file: File, id: P.Digest, r: Rollout)
    requires Holds(file, id, r)
    ensures ReadFile(file, id) == Ok(r)
  {
    hide DecodeEnvelope, Envelope, WellFormed;
    EnvelopeRoundTrip(r);
  }

  lemma Writes(file: File, id: P.Digest, r: Rollout)
    requires WellFormed(r) && r.rolloutId == id
    ensures WriteFile(file, id, r, false) == Ok((Some(Envelope(r)), r))
    ensures file.None? ==> WriteFile(file, id, r, true) == Ok((Some(Envelope(r)), r))
  {
    hide DecodeEnvelope, Envelope, WellFormed;
    EnvelopeRoundTrip(r);
  }

  /** An accepted request leads from a rollout that exists to one that exists. */
  lemma RespondFormed(r: Rollout, q: Request)
    requires WellFormed(r) && RequestFormed(q) && Respond(r, q).Ok?
    ensures WellFormed(Respond(r, q).value.0) && Respond(r, q).value.0.rolloutId == r.rolloutId
  {
    var next := Respond(r, q).value.0;
    match q
    case RouteRequest(active, candidate, context, expectedRevision, now) =>
      RouteFormed(r, active, candidate, context, expectedRevision, now);
    case OutcomeRequest(outcome, expectedRevision) =>
      RecordFormed(r, outcome, expectedRevision);
  }

  lemma RouteFormed(r: Rollout, active: Evidence, candidate: Evidence, context: RoutingContext, expectedRevision: int, now: int)
    requires WellFormed(r) && ValidContext(context) && Route(r, active, candidate, context, expectedRevision, now).Ok?
    ensures var t := Route(r, active, candidate, context, expectedRevision, now).value;
      WellFormed(t.rollout) && t.rollout.rolloutId == r.rolloutId
  {
    hide RouteGuards, ValidContext, CountersAccepted, StatusAccepted, IdentityAccepted, IdMatches, Select;
    var drift := RouteGuards(r, active, candidate, context, expectedRevision, now).value;
    var t := Issue(r, context, now, Select(r, drift, context.LowRisk(), now)).value;
    DecisionUnchanged(t.decision);
    AcceptedUnchanged(t.rollout);
  }

  lemma RecordFormed(r: Rollout, o: Outcome, expectedRevision: int)
    requires WellFormed(r) && Record(r, o, expectedRevision).Ok?
    ensures var next := Record(r, o, expectedRevision).value;
      WellFormed(next) && next.rolloutId == r.rolloutId
  {
    hide CountersAccepted, StatusAccepted, IdentityAccepted, IdMatches, RecordGuards;
    AcceptedUnchanged(Recorded(r, RecordGuards(r, o, expectedRevision).value, o));
  }

  /** One request on the file is one step of the rollout when its digest is current, and nothing otherwise. */
  lemma SwapIsStep(file: File, id: P.Digest, t: Trace, q: SwapRequest)
    requires Holds(file, id, t.rollout) && RequestFormed(q.request)
    ensures var next := if q.digest == t.rollout.Digest() then AdaptiveHistory.Step(t, q.request) else t;
      Holds(SwapStep(file, id, q), id, next.rollout)
  {
    hide ReadFile, WriteFile, Respond, WellFormed, Envelope;
    ReadsBack(file, id, t.rollout);
    if Respond(t.rollout, q.request).Ok? {
      RespondFormed(t.rollout, q.request);
      Writes(file, id, Respond(t.rollout, q.request).value.0);
      RevisionCurrent(t.rollout, q.request);
    }
  }

  /** An accepted request carried the current revision. */
  lemma RevisionCurrent(r: Rollout, q: Request)
    requires Respond(r, q).Ok?
    ensures r.revision == Revision(q) >= 0
  {
    hide CheckRollout, Issue, CurrentEvidence, ContextMatches, Select;
  }

  /**
    Under any interleaving of clients, the file at every point holds exactly the
    rollout of the trace, so everything proved of traces holds of the file.
  */
  lemma {:induction false} StoreRefines(file: File, id: P.Digest, t: Trace, qs: seq<SwapRequest>)
    requires Holds(file, id, t.rollout) && Sound(t)
    requires forall i | 0 <= i < |qs| :: RequestFormed(qs[i].request)
    ensures Sound(Follow(t, qs))
    ensures Holds(SwapRun(file, id, qs), id, Follow(t, qs).rollout)
    ensures ReadFile(SwapRun(file, id, qs), id) == Ok(Follow(t, qs).rollout)
    decreases |qs|
  {
    hide Holds, Sound, SwapStep, ReadFile, RequestFormed, AdaptiveHistory.Step;
    if qs != [] {
      var n := |qs| - 1;
      StoreRefines(file, id, t, qs[..n]);
      SwapIsStep(SwapRun(file, id, qs[..n]), id, Follow(t, qs[..n]), qs[n]);
      StepSound(Follow(t, qs[..n]), qs[n].request);
    }
    ReadsBack(SwapRun(file, id, qs), id, Follow(t, qs).rollout);
  }

  /** A created rollout, stored in an empty store, is held there. */
  lemma CreatedIsHeld(c: Comparison, evidence: seq<Evidence>, policy: Policy, now: int, expiresAt: int)
    requires AdaptiveRouting.Create(c, evidence, policy, now, expiresAt).Ok?
    requires forall i | 0 <= i < |evidence| :: ValidPin(evidence[i].pin)
    ensures var r := AdaptiveRouting.Create(c, evidence, policy, now, expiresAt).value;
      && CreateFile(None, r.rolloutId, r) == Ok((Some(Envelope(r)), r))
      && Holds(Some(Envelope(r)), r.rolloutId, r)
      && Sound(Trace(r, []))
  {
    var r := AdaptiveRouting.Create(c, evidence, policy, now, expiresAt).value;
    CreateEstablishes(c, evidence, policy, now, expiresAt);
    RunSound(r, []);
    CreatedPins(c, evidence, policy, now, expiresAt);
    Writes(None, r.rolloutId, r);
    hide AdaptiveRouting.Create, Envelope, WriteFile, CheckRollout;
  }

  lemma {:induction false} FoundPin(evidence: seq<Evidence>, pin: ProcedurePin)
    requires forall i | 0 <= i < |evidence| :: ValidPin(evidence[i].pin)
    ensures FindEvidence(evidence, pin).Some? ==> ValidPin(FindEvidence(evidence, pin).value.pin)
  {
    if evidence != [] {
      FoundPin(evidence[1..], pin);
    }
  }

  lemma CreatedPins(c: Comparison, evidence: seq<Evidence>, policy: Policy, now: int, expiresAt: int)
    requires AdaptiveRouting.Create(c, evidence, policy, now, expiresAt).Ok?
    requires forall i | 0 <= i < |evidence| :: ValidPin(evidence[i].pin)
    ensures var r := AdaptiveRouting.Create(c, evidence, policy, now, expiresAt).value;
      ValidPin(r.identity.baseline) && ValidPin(r.identity.candidate)
  {
    FoundPin(evidence, c.baseline);
    FoundPin(evidence, c.recommended);
    hide ValidPin, FindEvidence, EvidenceSupports, EvidenceCovers, DistinctPins;
  }
}
