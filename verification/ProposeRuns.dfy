/**
 Any number of propose calls interleaved at single store operations. A crash is a call that takes
 no further step, so what holds in every reachable state holds at every crash point.
 */
module ProposeRuns {
  import opened Wrappers
  import opened Jcs
  import opened Capability
  import opened ProposalRecords
  import opened Proposals

  datatype World = World(kv: Kv, calls: map<nat, ProposeCall>)

  /** How the service is deployed: its hash, whether a Message-ID is demanded, and the proposals' time to live. */
  datatype Deployment = Deployment(sha256Hex: Bytes -> string, requireMessageId: bool, ttl: int)

  /** A request as `propose` receives it, with what minting, clock and id factory give. */
  datatype Request = Request(params: Json, minting: Minting, now: int, proposalId: string)

  datatype Event =
    | Start(id: nat, request: Request)
    | Advance(id: nat)
    | SetStatus(proposalId: string, status: ProposalStatus)

  function KeyOf(dep: Deployment, r: Request): Result<Option<string>, ProposeError>
  {
    AdmitKey(r.params, r.minting, dep.requireMessageId)
  }

  /** What an admitted request has ready before its first store access. */
  function DraftOf(dep: Deployment, r: Request): Draft
    requires KeyOf(dep, r).Ok?
  {
    Draft(KeyOf(dep, r).value, r.proposalId, r.now,
          Prepare(dep.sha256Hex, r.params, r.minting, dep.requireMessageId, r.now, dep.ttl))
  }

  /** The id factory gives ids never used before and outside the index namespace. */
  ghost predicate FreshId(w: World, pid: string)
  {
    && !(INDEX_PREFIX <= pid)
    && pid !in w.kv.records && pid !in w.kv.payloads
    && forall id | id in w.calls :: w.calls[id].draft.proposalId != pid
  }

  /** The canonical bytes of the payload hash to this digest. */
  predicate HashesTo(dep: Deployment, payload: Json, digest: string)
  {
    Digest(dep.sha256Hex, payload) == Ok(digest)
  }

  predicate PreparesTo(dep: Deployment, r: Request, prepared: Prepared)
  {
    Prepare(dep.sha256Hex, r.params, r.minting, dep.requireMessageId, r.now, dep.ttl) == Ok(prepared)
  }

  /** Some request is prepared to this payload and digest. */
  ghost predicate Proposed(dep: Deployment, payload: Json, digest: string)
  {
    exists r, expiresAt :: PreparesTo(dep, r, Prepared(payload, digest, expiresAt))
  }

  lemma ProposedHashes(dep: Deployment, payload: Json, digest: string)
    requires Proposed(dep, payload, digest)
    ensures HashesTo(dep, payload, digest)
  {
  }

  /** What is to be stored is what a request was prepared to. */
  ghost predicate Fits(dep: Deployment, draft: Draft)
  {
    draft.prepared.Ok? ==> Proposed(dep, draft.prepared.value.canonical, draft.prepared.value.digest)
  }

  lemma PreparedFits(dep: Deployment, r: Request)
    requires KeyOf(dep, r).Ok?
    ensures Fits(dep, DraftOf(dep, r))
  {
    var prepared := DraftOf(dep, r).prepared;
    if prepared.Ok? {
      assert PreparesTo(dep, r, Prepared(prepared.value.canonical, prepared.value.digest, prepared.value.expiresAt));
    }
  }

  /** Some call has returned this id, so that a later `set_status` can name it. */
  ghost predicate Known(w: World, pid: string)
  {
    exists id :: id in w.calls && w.calls[id].Returned? && w.calls[id].ids.proposalId == pid
  }

  ghost predicate Enabled(dep: Deployment, w: World, e: Event)
  {
    match e
    case Start(id, r) => id !in w.calls && FreshId(w, r.proposalId) && KeyOf(dep, r).Ok?
    case Advance(id) => id in w.calls
    case SetStatus(pid, _) => Known(w, pid) && pid in w.kv.records && w.kv.records[pid].RecordRow?
  }

  ghost function Step(dep: Deployment, w: World, e: Event): World
    requires Enabled(dep, w, e)
  {
    match e
    case Start(id, r) => w.(calls := w.calls[id := Begin(DraftOf(dep, r))])
    case Advance(id) =>
      var (call, kv) := CallStep(w.calls[id], w.kv);
      World(kv, w.calls[id := call])
    case SetStatus(pid, status) =>
      var p := w.kv.records[pid].proposal;
      w.(kv := w.kv.(records := w.kv.records[pid := RecordRow(p.(status := status))]))
  }

  /** The states reachable from an empty pair of stores. */
  ghost predicate Reachable(dep: Deployment, w: World, events: seq<Event>)
    decreases |events|
  {
    if events == [] then w == World(Kv(map[], map[]), map[])
    else
      exists before, e :: StepsTo(dep, before, e, w) && e == events[|events| - 1] &&
                          Reachable(dep, before, events[..|events| - 1])
  }

  ghost predicate StepsTo(dep: Deployment, before: World, e: Event, after: World)
  {
    Enabled(dep, before, e) && after == Step(dep, before, e)
  }

  // ----- invariants -------------------------------------------------------------------

  ghost predicate HasPayload(dep: Deployment, kv: Kv, pid: string, digest: string)
  {
    pid in kv.payloads && Proposed(dep, kv.payloads[pid], digest)
  }

  ghost predicate Gone(kv: Kv, pid: string)
  {
    pid !in kv.records && pid !in kv.payloads
  }

  ghost predicate Claimed(kv: Kv, key: string, winner: string)
  {
    IndexKey(key) in kv.records && kv.records[IndexKey(key)] == IndexRow(winner)
  }

  /** The record of this draft is stored, up to its status. */
  ghost predicate HasRecord(kv: Kv, draft: Draft)
  {
    && draft.prepared.Ok? && draft.proposalId in kv.records && kv.records[draft.proposalId].RecordRow?
    && kv.records[draft.proposalId].proposal == RecordOf(draft).(status := kv.records[draft.proposalId].proposal.status)
  }

  /** What a stage says about the stores. */
  ghost predicate CallOk(dep: Deployment, kv: Kv, call: ProposeCall)
  {
    var d := call.draft;
    && !(INDEX_PREFIX <= d.proposalId) && Fits(dep, d)
    && match call
       case FindIndex(_) => d.key.Some? && Gone(kv, d.proposalId)
       case FindRecord(_, winner) => d.key.Some? && Gone(kv, d.proposalId) && Claimed(kv, d.key.value, winner)
       case PutPayload(_) => d.prepared.Ok? && Gone(kv, d.proposalId)
       case CheckId(_) => WithPayload(dep, kv, d) && d.proposalId !in kv.records
       case PutRecord(_) => WithPayload(dep, kv, d) && d.proposalId !in kv.records
       case ClaimKey(_) => d.key.Some? && WithPayload(dep, kv, d) && HasRecord(kv, d)
       case DropRecord(_) => d.key.Some? && WithPayload(dep, kv, d) && HasRecord(kv, d) && Lost(kv, d)
       case DropPayload(_) => d.key.Some? && d.proposalId !in kv.records && Lost(kv, d)
       case RefindIndex(_) => d.key.Some? && Gone(kv, d.proposalId) && Lost(kv, d)
       case RefindRecord(_, winner) => d.key.Some? && Gone(kv, d.proposalId) && Claimed(kv, d.key.value, winner)
       case Returned(_, ids) =>
         && (d.key.Some? ==> Claimed(kv, d.key.value, ids.proposalId))
         && (d.key.None? ==> ids.proposalId == d.proposalId)
         && (if ids.proposalId == d.proposalId then WithPayload(dep, kv, d) &&
             HasRecord(kv, d) else Gone(kv, d.proposalId))
       case Raised(_, error) => Gone(kv, d.proposalId) && d.prepared == Err(error)
  }

  ghost predicate WithPayload(dep: Deployment, kv: Kv, d: Draft)
  {
    d.prepared.Ok? && HasPayload(dep, kv, d.proposalId, d.prepared.value.digest)
  }

  /** Another proposal holds this draft's key. */
  ghost predicate Lost(kv: Kv, d: Draft)
    requires d.key.Some?
  {
    exists winner :: Claimed(kv, d.key.value, winner) && winner != d.proposalId
  }

  /** The winner of a key is the own id of a call that returned it. */
  ghost predicate WonBy(w: World, id: nat, key: string, winner: string)
  {
    && id in w.calls && w.calls[id].Returned? && w.calls[id].ids.proposalId == winner
    && w.calls[id].draft.proposalId == winner && w.calls[id].draft.key == Some(key)
  }

  ghost predicate CallsOk(dep: Deployment, w: World)
  {
    forall id | id in w.calls :: CallOk(dep, w.kv, w.calls[id])
  }

  ghost predicate DistinctIds(w: World)
  {
    forall a, b | a in w.calls && b in w.calls && a != b ::
      w.calls[a].draft.proposalId != w.calls[b].draft.proposalId
  }

  ghost predicate ClaimWon(w: World, key: string)
    requires IndexKey(key) in w.kv.records
  {
    var row := w.kv.records[IndexKey(key)];
    row.IndexRow? && exists id :: WonBy(w, id, key, row.proposalId)
  }

  ghost predicate ClaimsWon(w: World)
  {
    forall key | IndexKey(key) in w.kv.records :: ClaimWon(w, key)
  }

  /** The record is stored under its own id, with the payload it commits to. */
  ghost predicate RecordBacked(dep: Deployment, kv: Kv, pid: string)
    requires pid in kv.records && kv.records[pid].RecordRow?
  {
    kv.records[pid].proposal.proposalId == pid && HasPayload(dep, kv, pid, kv.records[pid].proposal.payloadDigest)
  }

  ghost predicate RecordsBacked(dep: Deployment, kv: Kv)
  {
    forall pid | pid in kv.records && kv.records[pid].RecordRow? :: RecordBacked(dep, kv, pid)
  }

  ghost predicate Inv(dep: Deployment, w: World)
  {
    CallsOk(dep, w) && DistinctIds(w) && ClaimsWon(w) && RecordsBacked(dep, w.kv)
  }

  // ----- preservation -----------------------------------------------------------------

  /** What a step of one call may touch: its own id, and an index entry that was absent. */
  ghost predicate Frame(kv: Kv, kv': Kv, draft: Draft)
  {
    && (forall pid | pid != draft.proposalId :: pid in kv.payloads <==> pid in kv'.payloads)
    && (forall pid | pid != draft.proposalId && pid in kv.payloads :: kv'.payloads[pid] == kv.payloads[pid])
    && (forall s | s != draft.proposalId && s in kv.records :: s in kv'.records && kv'.records[s] == kv.records[s])
    && (forall s | s != draft.proposalId && s in kv'.records && s !in kv.records :: INDEX_PREFIX <= s)
  }

  lemma IndexIsPrefixed(key: string)
    ensures INDEX_PREFIX <= IndexKey(key)
  {
  }

  lemma StepFrame(call: ProposeCall, kv: Kv)
    ensures Frame(kv, CallStep(call, kv).1, call.draft)
  {
    if call.draft.key.Some? {
      IndexIsPrefixed(call.draft.key.value);
    }
  }

  /** Another call's stage survives a step within the frame. */
  lemma FrameKeeps(dep: Deployment, kv: Kv, kv': Kv, draft: Draft, other: ProposeCall)
    requires Frame(kv, kv', draft) && CallOk(dep, kv, other)
    requires other.draft.proposalId != draft.proposalId && !(INDEX_PREFIX <= draft.proposalId)
    ensures CallOk(dep, kv', other)
  {
    if other.draft.key.Some? {
      var key := other.draft.key.value;
      IndexIsPrefixed(key);
      forall winner | Claimed(kv, key, winner) ensures Claimed(kv', key, winner) {
      }
    }
  }

  lemma StepOwn(dep: Deployment, call: ProposeCall, kv: Kv)
    requires CallOk(dep, kv, call)
    requires forall key | IndexKey(key) in kv.records :: kv.records[IndexKey(key)].IndexRow?
    requires call.draft.key.Some? ==> ClaimHolds(kv, call.draft)
    requires call.ClaimKey? ==> !Claimed(kv, call.draft.key.value, call.draft.proposalId)
    ensures CallOk(dep, CallStep(call, kv).1, CallStep(call, kv).0)
  {
    var d := call.draft;
    var (call', kv') := CallStep(call, kv);
    if d.key.Some? {
      var key := d.key.value;
      IndexIsPrefixed(key);
      match call
      case ClaimKey(_) =>
        if call'.DropRecord? {
          assert Claimed(kv, key, kv.records[IndexKey(key)].proposalId);
        }
      case DropRecord(_) =>
        var winner :| Claimed(kv, key, winner) && winner != d.proposalId;
        assert Claimed(kv', key, winner);
      case DropPayload(_) =>
        var winner :| Claimed(kv, key, winner) && winner != d.proposalId;
        assert Claimed(kv', key, winner);
      case _ =>
    }
  }

  /** The winner of the draft's key, if any, has its record. */
  ghost predicate ClaimHolds(kv: Kv, d: Draft)
    requires d.key.Some?
  {
    forall winner | Claimed(kv, d.key.value, winner) ::
      winner in kv.records && kv.records[winner].RecordRow? && kv.records[winner].proposal.proposalId == winner
  }

  /** A claim leads to a call that returned its own id, and so to that id's record. */
  lemma WinnerHasRecord(dep: Deployment, w: World, key: string, winner: string) returns (id: nat)
    requires Inv(dep, w) && Claimed(w.kv, key, winner)
    ensures WonBy(w, id, key, winner) && HasRecord(w.kv, w.calls[id].draft)
    ensures HasPayload(dep, w.kv, winner, w.kv.records[winner].proposal.payloadDigest)
  {
    assert ClaimWon(w, key);
    id :| WonBy(w, id, key, winner);
    assert CallOk(dep, w.kv, w.calls[id]);
  }

  lemma StepCallsOk(dep: Deployment, w: World, e: Event)
    requires Inv(dep, w) && Enabled(dep, w, e)
    ensures CallsOk(dep, Step(dep, w, e))
  {
    var w' := Step(dep, w, e);
    match e
    case Start(id, r) =>
      PreparedFits(dep, r);
    case Advance(id) =>
      var call := w.calls[id];
      assert CallOk(dep, w.kv, call);
      StepFrame(call, w.kv);
      forall other | other in w.calls && other != id ensures CallOk(dep, w'.kv, w'.calls[other]) {
        FrameKeeps(dep, w.kv, w'.kv, call.draft, w.calls[other]);
      }
      if call.draft.key.Some? {
        forall winner | Claimed(w.kv, call.draft.key.value, winner)
          ensures winner in w.kv.records && w.kv.records[winner].RecordRow? &&
                  w.kv.records[winner].proposal.proposalId == winner
          ensures call.ClaimKey? ==> winner != call.draft.proposalId
        {
          var owner := WinnerHasRecord(dep, w, call.draft.key.value, winner);
        }
      }
      StepOwn(dep, call, w.kv);
    case SetStatus(pid, status) =>
      forall id | id in w.calls ensures CallOk(dep, w'.kv, w'.calls[id]) {
        StatusKeeps(dep, w.kv, pid, status, w.calls[id]);
      }
  }

  /** Rewriting a status disturbs no call. */
  lemma StatusKeeps(dep: Deployment, kv: Kv, pid: string, status: ProposalStatus, call: ProposeCall)
    requires pid in kv.records && kv.records[pid].RecordRow? && CallOk(dep, kv, call)
    ensures CallOk(dep, kv.(records := kv.records[pid := RecordRow(kv.records[pid].proposal.(status := status))]), call)
  {
    var kv' := kv.(records := kv.records[pid := RecordRow(kv.records[pid].proposal.(status := status))]);
    if call.draft.key.Some? {
      var key := call.draft.key.value;
      forall winner | Claimed(kv, key, winner) ensures Claimed(kv', key, winner) {
      }
    }
  }

  lemma ClaimStaysWon(w: World, w': World, key: string)
    requires IndexKey(key) in w.kv.records && ClaimWon(w, key)
    requires IndexKey(key) in w'.kv.records && w'.kv.records[IndexKey(key)] == w.kv.records[IndexKey(key)]
    requires forall id | id in w.calls && w.calls[id].Returned? :: id in w'.calls && w'.calls[id] == w.calls[id]
    ensures ClaimWon(w', key)
  {
    var winner := w.kv.records[IndexKey(key)].proposalId;
    var id :| WonBy(w, id, key, winner);
    assert WonBy(w', id, key, winner);
  }

  lemma NewClaimIsWon(dep: Deployment, w: World, id: nat, key: string)
    requires id in w.calls && CallOk(dep, w.kv, w.calls[id]) && IndexKey(key) !in w.kv.records
    requires IndexKey(key) in Step(dep, w, Advance(id)).kv.records
    ensures ClaimWon(Step(dep, w, Advance(id)), key)
  {
    var call := w.calls[id];
    IndexIsPrefixed(key);
    assert call.ClaimKey?;
    IndexKeyInjective(key, call.draft.key.value);
    assert WonBy(Step(dep, w, Advance(id)), id, key, call.draft.proposalId);
  }

  lemma OldClaimStaysWon(dep: Deployment, w: World, e: Event, key: string)
    requires Enabled(dep, w, e) && IndexKey(key) in w.kv.records && ClaimWon(w, key)
    requires e.Advance? ==> IndexKey(key) != w.calls[e.id].draft.proposalId
    ensures IndexKey(key) in Step(dep, w, e).kv.records && ClaimWon(Step(dep, w, e), key)
  {
    if e.Advance? {
      StepFrame(w.calls[e.id], w.kv);
    }
    ClaimStaysWon(w, Step(dep, w, e), key);
  }

  lemma StepClaimsWon(dep: Deployment, w: World, e: Event)
    requires CallsOk(dep, w) && ClaimsWon(w) && Enabled(dep, w, e)
    ensures ClaimsWon(Step(dep, w, e))
  {
    forall key | IndexKey(key) in Step(dep, w, e).kv.records ensures ClaimWon(Step(dep, w, e), key) {
      assert e.Advance? ==> CallOk(dep, w.kv, w.calls[e.id]);
      if IndexKey(key) in w.kv.records {
        IndexIsPrefixed(key);
        OldClaimStaysWon(dep, w, e, key);
      } else {
        NewClaimIsWon(dep, w, e.id, key);
      }
    }
  }

  /** The record of the moving call's own id, if it has one after the step. */
  lemma OwnRecordBacked(dep: Deployment, call: ProposeCall, kv: Kv)
    requires CallOk(dep, kv, call) && RecordsBacked(dep, kv)
    ensures var kv', pid := CallStep(call, kv).1, call.draft.proposalId;
            pid in kv'.records && kv'.records[pid].RecordRow? ==> RecordBacked(dep, kv', pid)
  {
  }

  lemma StepRecordsBacked(dep: Deployment, w: World, e: Event)
    requires CallsOk(dep, w) && RecordsBacked(dep, w.kv) && Enabled(dep, w, e)
    ensures RecordsBacked(dep, Step(dep, w, e).kv)
  {
    var w' := Step(dep, w, e);
    if e.Advance? {
      assert CallOk(dep, w.kv, w.calls[e.id]);
      OwnRecordBacked(dep, w.calls[e.id], w.kv);
      StepFrame(w.calls[e.id], w.kv);
      OthersBacked(dep, w.kv, w'.kv, w.calls[e.id].draft);
    }
  }

  lemma OthersBacked(dep: Deployment, kv: Kv, kv': Kv, draft: Draft)
    requires RecordsBacked(dep, kv) && Frame(kv, kv', draft)
    ensures forall pid | pid != draft.proposalId && pid in kv.records && kv.records[pid].RecordRow? ::
              RecordBacked(dep, kv', pid)
  {
    forall pid | pid != draft.proposalId && pid in kv.records && kv.records[pid].RecordRow?
      ensures RecordBacked(dep, kv', pid)
    {
      assert RecordBacked(dep, kv, pid);
    }
  }

  lemma StepDistinctIds(dep: Deployment, w: World, e: Event)
    requires DistinctIds(w) && Enabled(dep, w, e)
    ensures DistinctIds(Step(dep, w, e))
  {
    if e.Advance? {
      StepKeepsDraft(w.calls[e.id], w.kv);
    }
  }

  lemma StepKeepsDraft(call: ProposeCall, kv: Kv)
    ensures CallStep(call, kv).0.draft == call.draft
  {
  }

  lemma StepInv(dep: Deployment, w: World, e: Event)
    requires Inv(dep, w) && Enabled(dep, w, e)
    ensures Inv(dep, Step(dep, w, e))
  {
    StepCallsOk(dep, w, e);
    StepDistinctIds(dep, w, e);
    StepClaimsWon(dep, w, e);
    StepRecordsBacked(dep, w, e);
  }

  lemma {:induction false} ReachableInv(dep: Deployment, w: World, events: seq<Event>)
    requires Reachable(dep, w, events)
    ensures Inv(dep, w)
    decreases |events|
  {
    if events != [] {
      var before, e :| StepsTo(dep, before, e, w) && e == events[|events| - 1] &&
                       Reachable(dep, before, events[..|events| - 1]);
      ReachableInv(dep, before, events[..|events| - 1]);
      StepInv(dep, before, e);
    }
  }

  // ----- the theorems -----------------------------------------------------------------

  /** At every step and every crash point: a claim implies its record, and a record implies its payload and digest. */
  lemma NoDanglingClaim(dep: Deployment, w: World, events: seq<Event>)
    requires Reachable(dep, w, events)
    ensures forall key | IndexKey(key) in w.kv.records ::
              var row := w.kv.records[IndexKey(key)];
              && row.IndexRow? && row.proposalId in w.kv.records && w.kv.records[row.proposalId].RecordRow?
              && w.kv.records[row.proposalId].proposal.idempotencyKey == Some(key)
    ensures forall pid | pid in w.kv.records && w.kv.records[pid].RecordRow? ::
              pid in w.kv.payloads && HashesTo(dep, w.kv.payloads[pid], w.kv.records[pid].proposal.payloadDigest)
  {
    ReachableInv(dep, w, events);
    forall key | IndexKey(key) in w.kv.records
      ensures var row := w.kv.records[IndexKey(key)];
              && row.IndexRow? && row.proposalId in w.kv.records && w.kv.records[row.proposalId].RecordRow?
              && w.kv.records[row.proposalId].proposal.idempotencyKey == Some(key)
    {
      var id := WinnerHasRecord(dep, w, key, w.kv.records[IndexKey(key)].proposalId);
    }
    forall pid | pid in w.kv.records && w.kv.records[pid].RecordRow?
      ensures pid in w.kv.payloads && HashesTo(dep, w.kv.payloads[pid], w.kv.records[pid].proposal.payloadDigest)
    {
      assert RecordBacked(dep, w.kv, pid);
      ProposedHashes(dep, w.kv.payloads[pid], w.kv.records[pid].proposal.payloadDigest);
    }
  }

  /** Of any number of interleaved calls with one key, all that return give the same proposal id. */
  lemma OneProposalPerKey(dep: Deployment, w: World, events: seq<Event>, a: nat, b: nat)
    requires Reachable(dep, w, events)
    requires a in w.calls && b in w.calls && w.calls[a].Returned? && w.calls[b].Returned?
    requires w.calls[a].draft.key.Some? && w.calls[a].draft.key == w.calls[b].draft.key
    ensures w.calls[a].ids.proposalId == w.calls[b].ids.proposalId
  {
    ReachableInv(dep, w, events);
    assert CallOk(dep, w.kv, w.calls[a]) && CallOk(dep, w.kv, w.calls[b]);
  }

  /**
   A call ends in one of three ways: it returns its own id, stored with its payload; it returns the
   winner's id and has left neither record nor payload; or it fails in preparation, before any write.
   No call finds a dangling index entry or loses its key.
   */
  lemma EndsClean(dep: Deployment, w: World, events: seq<Event>, id: nat)
    requires Reachable(dep, w, events) && id in w.calls && w.calls[id].Ended()
    ensures var call := w.calls[id];
            var own := call.draft.proposalId;
            if call.Returned? && call.ids.proposalId == own then
              own in w.kv.payloads && own in w.kv.records && w.kv.records[own].RecordRow?
            else
              own !in w.kv.payloads && own !in w.kv.records &&
              (call.Returned? ==> call.draft.key.Some?) && (call.Raised? ==> call.draft.prepared == Err(call.error))
  {
    ReachableInv(dep, w, events);
    assert CallOk(dep, w.kv, w.calls[id]);
  }
}
