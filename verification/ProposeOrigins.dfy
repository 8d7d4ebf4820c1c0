/** Where everything in the proposal store comes from: the requests that were made, field by field. */
module ProposeOrigins {
  import opened Wrappers
  import opened Jcs
  import opened Capability
  import opened ProposalRecords
  import opened Proposals
  import opened Preparation
  import opened ProposeRuns
  import Persistence

  // ----- the request behind a draft ---------------------------------------------------

  /** The draft is what this request was admitted and prepared to. */
  ghost predicate DraftedFrom(dep: Deployment, draft: Draft, r: Request)
  {
    KeyOf(dep, r).Ok? && draft == DraftOf(dep, r)
  }

  ghost predicate HasRequest(dep: Deployment, draft: Draft)
  {
    exists r :: DraftedFrom(dep, draft, r)
  }

  /** The payload is this draft's. */
  ghost predicate OwnsPayload(w: World, id: nat, pid: string)
    requires pid in w.kv.payloads
  {
    && id in w.calls && w.calls[id].draft.proposalId == pid && w.calls[id].draft.prepared.Ok?
    && w.kv.payloads[pid] == w.calls[id].draft.prepared.value.canonical
  }

  /** The record is this draft's, up to its status, and its payload is there. */
  ghost predicate OwnsRecord(w: World, id: nat, pid: string)
  {
    && id in w.calls && w.calls[id].draft.proposalId == pid && HasRecord(w.kv, w.calls[id].draft)
    && pid in w.kv.payloads && w.kv.payloads[pid] == w.calls[id].draft.prepared.value.canonical
  }

  ghost predicate PayloadOwned(w: World, pid: string)
    requires pid in w.kv.payloads
  {
    exists id :: OwnsPayload(w, id, pid)
  }

  ghost predicate RecordOwned(w: World, pid: string)
  {
    exists id :: OwnsRecord(w, id, pid)
  }

  ghost predicate Origins(dep: Deployment, w: World)
  {
    && (forall id | id in w.calls :: HasRequest(dep, w.calls[id].draft))
    && (forall pid | pid in w.kv.payloads :: PayloadOwned(w, pid))
    && (forall pid | pid in w.kv.records && w.kv.records[pid].RecordRow? :: RecordOwned(w, pid))
  }

  // ----- preservation -----------------------------------------------------------------

  lemma StepHasRequests(dep: Deployment, w: World, e: Event)
    requires Origins(dep, w) && Enabled(dep, w, e)
    ensures forall id | id in Step(dep, w, e).calls :: HasRequest(dep, Step(dep, w, e).calls[id].draft)
  {
    match e
    case Start(_, r) => assert DraftedFrom(dep, DraftOf(dep, r), r);
    case Advance(id) => StepKeepsDraft(w.calls[id], w.kv);
    case SetStatus(_, _) =>
  }

  /** Every payload after a step was there before, or is the moving draft's. */
  ghost predicate PayloadsFrom(kv: Kv, kv': Kv, draft: Draft)
  {
    forall pid | pid in kv'.payloads ::
      || (pid in kv.payloads && kv'.payloads[pid] == kv.payloads[pid])
      || (pid == draft.proposalId && draft.prepared.Ok? && kv'.payloads[pid] == draft.prepared.value.canonical)
  }

  lemma StepPayloadsFrom(call: ProposeCall, kv: Kv)
    ensures PayloadsFrom(kv, CallStep(call, kv).1, call.draft)
  {
  }

  /** The calls after a step carry the drafts they carried before. */
  ghost predicate SameDrafts(w: World, w': World)
  {
    forall id | id in w.calls :: id in w'.calls && w'.calls[id].draft == w.calls[id].draft
  }

  lemma StepSameDrafts(dep: Deployment, w: World, e: Event)
    requires Enabled(dep, w, e)
    ensures SameDrafts(w, Step(dep, w, e))
  {
  }

  lemma PayloadStaysOwned(w: World, w': World, id: nat, pid: string)
    requires id in w.calls && SameDrafts(w, w') && PayloadsFrom(w.kv, w'.kv, w.calls[id].draft)
    requires pid in w.kv.payloads ==> PayloadOwned(w, pid)
    requires pid in w'.kv.payloads
    ensures PayloadOwned(w', pid)
  {
    if pid in w.kv.payloads && w'.kv.payloads[pid] == w.kv.payloads[pid] {
      var owner :| OwnsPayload(w, owner, pid);
      assert OwnsPayload(w', owner, pid);
    } else {
      assert OwnsPayload(w', id, pid);
    }
  }

  lemma StepPayloads(dep: Deployment, w: World, e: Event)
    requires Origins(dep, w) && Enabled(dep, w, e)
    ensures forall pid | pid in Step(dep, w, e).kv.payloads :: PayloadOwned(Step(dep, w, e), pid)
  {
    var w' := Step(dep, w, e);
    StepSameDrafts(dep, w, e);
    forall pid | pid in w'.kv.payloads ensures PayloadOwned(w', pid) {
      if e.Advance? {
        StepPayloadsFrom(w.calls[e.id], w.kv);
        PayloadStaysOwned(w, w', e.id, pid);
      } else {
        var owner :| OwnsPayload(w, owner, pid);
        assert OwnsPayload(w', owner, pid);
      }
    }
  }

  /** The record under the moving call's own id, if there is one afterwards, is its draft's. */
  lemma OwnRecordStep(dep: Deployment, call: ProposeCall, kv: Kv)
    requires CallOk(dep, kv, call)
    ensures var kv', d := CallStep(call, kv).1, call.draft;
            d.proposalId in kv'.records && kv'.records[d.proposalId].RecordRow? ==>
              HasRecord(kv', d) && d.proposalId in kv'.payloads
  {
    if call.draft.key.Some? {
      IndexIsPrefixed(call.draft.key.value);
    }
  }

  lemma OwnPayloadIsOwn(w: World, id: nat, pid: string)
    requires DistinctIds(w) && id in w.calls && w.calls[id].draft.proposalId == pid
    requires pid in w.kv.payloads && PayloadOwned(w, pid)
    ensures OwnsPayload(w, id, pid)
  {
    var owner :| OwnsPayload(w, owner, pid);
  }

  lemma RecordStaysOwned(w: World, w': World, draft: Draft, pid: string)
    requires SameDrafts(w, w') && Frame(w.kv, w'.kv, draft) && pid != draft.proposalId && RecordOwned(w, pid)
    ensures RecordOwned(w', pid)
  {
    var owner :| OwnsRecord(w, owner, pid);
    assert OwnsRecord(w', owner, pid);
  }

  lemma StepRecordOwned(dep: Deployment, w: World, id: nat, pid: string)
    requires Inv(dep, w) && Origins(dep, w) && id in w.calls
    requires var kv' := Step(dep, w, Advance(id)).kv; pid in kv'.records && kv'.records[pid].RecordRow?
    requires pid == w.calls[id].draft.proposalId
    ensures RecordOwned(Step(dep, w, Advance(id)), pid)
  {
    var w' := Step(dep, w, Advance(id));
    assert CallOk(dep, w.kv, w.calls[id]);
    OwnRecordStep(dep, w.calls[id], w.kv);
    StepSameDrafts(dep, w, Advance(id));
    StepDistinctIds(dep, w, Advance(id));
    StepPayloads(dep, w, Advance(id));
    OwnPayloadIsOwn(w', id, pid);
    assert OwnsRecord(w', id, pid);
  }

  lemma AdvanceRecord(dep: Deployment, w: World, id: nat, pid: string)
    requires Inv(dep, w) && Origins(dep, w) && id in w.calls
    requires var kv' := Step(dep, w, Advance(id)).kv; pid in kv'.records && kv'.records[pid].RecordRow?
    ensures RecordOwned(Step(dep, w, Advance(id)), pid)
  {
    var w' := Step(dep, w, Advance(id));
    if pid == w.calls[id].draft.proposalId {
      StepRecordOwned(dep, w, id, pid);
    } else {
      StepSameDrafts(dep, w, Advance(id));
      StepFrame(w.calls[id], w.kv);
      OldRecord(dep, w, id, pid);
      RecordStaysOwned(w, w', w.calls[id].draft, pid);
    }
  }

  /** A record of another id was there before the step. */
  lemma OldRecord(dep: Deployment, w: World, id: nat, pid: string)
    requires id in w.calls && pid != w.calls[id].draft.proposalId
    requires var kv' := Step(dep, w, Advance(id)).kv; pid in kv'.records && kv'.records[pid].RecordRow?
    ensures pid in w.kv.records && w.kv.records[pid].RecordRow?
  {
  }

  lemma StatusKeepsOwned(dep: Deployment, w: World, w': World, e: Event, pid: string)
    requires e.SetStatus? && Enabled(dep, w, e) && w' == Step(dep, w, e) && RecordOwned(w, pid)
    ensures RecordOwned(w', pid)
  {
    var owner :| OwnsRecord(w, owner, pid);
    assert OwnsRecord(w', owner, pid);
  }

  lemma StartKeepsOwned(w: World, w': World, pid: string)
    requires SameDrafts(w, w') && w'.kv == w.kv && RecordOwned(w, pid)
    ensures RecordOwned(w', pid)
  {
    var owner :| OwnsRecord(w, owner, pid);
    assert OwnsRecord(w', owner, pid);
  }

  lemma StepRecords(dep: Deployment, w: World, e: Event)
    requires Inv(dep, w) && Origins(dep, w) && Enabled(dep, w, e)
    ensures var w' := Step(dep, w, e);
            forall pid | pid in w'.kv.records && w'.kv.records[pid].RecordRow? :: RecordOwned(w', pid)
  {
    var w' := Step(dep, w, e);
    StepSameDrafts(dep, w, e);
    forall pid | pid in w'.kv.records && w'.kv.records[pid].RecordRow? ensures RecordOwned(w', pid) {
      match e
      case Start(_, _) => StartKeepsOwned(w, w', pid);
      case Advance(id) => AdvanceRecord(dep, w, id, pid);
      case SetStatus(_, _) => StatusKeepsOwned(dep, w, w', e, pid);
    }
  }

  lemma StepOrigins(dep: Deployment, w: World, e: Event)
    requires Inv(dep, w) && Origins(dep, w) && Enabled(dep, w, e)
    ensures Origins(dep, Step(dep, w, e))
  {
    StepHasRequests(dep, w, e);
    StepPayloads(dep, w, e);
    StepRecords(dep, w, e);
  }

  lemma {:induction false} ReachableOrigins(dep: Deployment, w: World, events: seq<Event>)
    requires Reachable(dep, w, events)
    ensures Origins(dep, w)
    decreases |events|
  {
    if events != [] {
      var before, e :| StepsTo(dep, before, e, w) && e == events[|events| - 1] &&
                       Reachable(dep, before, events[..|events| - 1]);
      ReachableOrigins(dep, before, events[..|events| - 1]);
      ReachableInv(dep, before, events[..|events| - 1]);
      StepOrigins(dep, before, e);
    }
  }

  // ----- the theorems -----------------------------------------------------------------

  /** A request that may become a proposal, and the payload that says what it says. */
  ghost predicate AsksFor(dep: Deployment, r: Request, payload: Json)
  {
    && Preparable(r.params, r.minting, dep.requireMessageId, r.now, dep.ttl)
    && Carries(payload, r.params, MessageId(r.minting)) && IsPlainMail(payload)
  }

  /** The record of a request: its id, the digest of its payload, its times and its key. */
  ghost predicate RecordsRequest(dep: Deployment, r: Request, payload: Json, p: Proposal)
    requires r.params.Obj?
  {
    && p.proposalId == r.proposalId && Canonicalize(payload).Ok?
    && p.payloadDigest == dep.sha256Hex(Canonicalize(payload).value)
    && p.createdAt == r.now && p.expiresAt == r.now + dep.ttl
    && (match p.idempotencyKey
        case Some(key) => Get(r.params.members, "idempotency_key") == Str(key)
        case None => Get(r.params.members, "idempotency_key") == Null)
  }

  lemma DraftAsks(dep: Deployment, draft: Draft, r: Request)
    requires DraftedFrom(dep, draft, r) && draft.prepared.Ok?
    ensures AsksFor(dep, r, draft.prepared.value.canonical)
    ensures RecordsRequest(dep, r, draft.prepared.value.canonical, RecordOf(draft)) && RecordOf(draft).status == Pending
  {
    PrepareIff(dep.sha256Hex, r.params, r.minting, dep.requireMessageId, r.now, dep.ttl);
    if draft.key.Some? {
      AdmitKeyIff(r.params, r.minting, dep.requireMessageId, draft.key.value);
    } else {
      AdmitKeyIff(r.params, r.minting, dep.requireMessageId, "");
    }
  }

  /** What a request was prepared to is the plain mail it asks for. */
  lemma ProposedIsAsked(dep: Deployment, payload: Json, digest: string)
    requires Proposed(dep, payload, digest)
    ensures exists r :: AsksFor(dep, r, payload)
    ensures Canonicalize(payload).Ok? && digest == dep.sha256Hex(Canonicalize(payload).value)
  {
    var r, expiresAt :| PreparesTo(dep, r, Prepared(payload, digest, expiresAt));
    PrepareIff(dep.sha256Hex, r.params, r.minting, dep.requireMessageId, r.now, dep.ttl);
    assert AsksFor(dep, r, payload);
  }

  /** At every step and crash point, every payload in the store is the plain mail some request asked for. */
  lemma PayloadsAreRequested(dep: Deployment, w: World, events: seq<Event>, pid: string)
    requires Reachable(dep, w, events) && pid in w.kv.payloads
    ensures exists r :: AsksFor(dep, r, w.kv.payloads[pid])
  {
    ReachableOrigins(dep, w, events);
    assert PayloadOwned(w, pid);
    var id :| OwnsPayload(w, id, pid);
    assert HasRequest(dep, w.calls[id].draft);
    var r :| DraftedFrom(dep, w.calls[id].draft, r);
    DraftAsks(dep, w.calls[id].draft, r);
  }

  /** This request asked for what is stored under the id, and the record says so. */
  ghost predicate StoredFor(dep: Deployment, kv: Kv, pid: string, r: Request)
  {
    && pid in kv.records && kv.records[pid].RecordRow? && pid in kv.payloads
    && AsksFor(dep, r, kv.payloads[pid]) && RecordsRequest(dep, r, kv.payloads[pid], kv.records[pid].proposal)
  }

  lemma RecordFieldsOf(dep: Deployment, w: World, id: nat, pid: string, r: Request)
    requires OwnsRecord(w, id, pid) && DraftedFrom(dep, w.calls[id].draft, r)
    ensures StoredFor(dep, w.kv, pid, r)
  {
    DraftAsks(dep, w.calls[id].draft, r);
  }

  /** And every record is that of one request, field by field, with the payload that request asked for. */
  lemma RecordsAreRequested(dep: Deployment, w: World, events: seq<Event>, pid: string)
    requires Reachable(dep, w, events) && pid in w.kv.records && w.kv.records[pid].RecordRow?
    ensures exists r :: StoredFor(dep, w.kv, pid, r)
  {
    ReachableOrigins(dep, w, events);
    assert RecordOwned(w, pid);
    var id :| OwnsRecord(w, id, pid);
    assert HasRequest(dep, w.calls[id].draft);
    var r :| DraftedFrom(dep, w.calls[id].draft, r);
    RecordFieldsOf(dep, w, id, pid, r);
  }

  // ----- ids handed out ---------------------------------------------------------------

  /** The payload is stored and the same. */
  ghost predicate Frozen(kv: Kv, kv': Kv, pid: string)
  {
    pid in kv.payloads && pid in kv'.payloads && kv'.payloads[pid] == kv.payloads[pid]
  }

  predicate IsRecord(kv: Kv, pid: string)
  {
    pid in kv.records && kv.records[pid].RecordRow?
  }

  /** Whose id is known has ended, and so touches its record no more. */
  lemma KnownHasEnded(dep: Deployment, w: World, id: nat, pid: string)
    requires Inv(dep, w) && Known(w, pid)
    requires id in w.calls && w.calls[id].draft.proposalId == pid
    ensures w.calls[id].Ended()
  {
    var other :| other in w.calls && w.calls[other].Returned? && w.calls[other].ids.proposalId == pid;
    assert CallOk(dep, w.kv, w.calls[other]);
    if w.calls[other].draft.key.Some? {
      var owner := WinnerHasRecord(dep, w, w.calls[other].draft.key.value, pid);
    }
  }

  /** A step of a propose call leaves a known proposal as it is, record and payload. */
  lemma ProposeKeeps(dep: Deployment, w: World, e: Event, pid: string)
    requires Inv(dep, w) && Enabled(dep, w, e) && !e.SetStatus?
    requires Known(w, pid) && IsRecord(w.kv, pid)
    ensures var kv' := Step(dep, w, e).kv;
            && IsRecord(kv', pid) && kv'.records[pid] == w.kv.records[pid]
            && (pid in w.kv.payloads ==> Frozen(w.kv, kv', pid))
  {
    if e.Advance? {
      var call := w.calls[e.id];
      assert CallOk(dep, w.kv, call);
      if call.draft.proposalId == pid {
        KnownHasEnded(dep, w, e.id, pid);
      } else {
        StepFrame(call, w.kv);
      }
    }
  }

  lemma StaysKnown(w: World, w': World, pid: string)
    requires Known(w, pid)
    requires forall id | id in w.calls && w.calls[id].Returned? :: id in w'.calls && w'.calls[id] == w.calls[id]
    ensures Known(w', pid)
  {
    var id :| id in w.calls && w.calls[id].Returned? && w.calls[id].ids.proposalId == pid;
    assert w'.calls[id] == w.calls[id];
  }

  /** A propose step leaves every call that has returned as it is. */
  lemma ReturnedStays(dep: Deployment, w: World, e: Event)
    requires Enabled(dep, w, e)
    ensures forall id | id in w.calls && w.calls[id].Returned? ::
              id in Step(dep, w, e).calls && Step(dep, w, e).calls[id] == w.calls[id]
  {
  }

  /** What a call returned is what the record under that id says. */
  ghost predicate NamesRecord(kv: Kv, ids: Identifiers)
  {
    && IsRecord(kv, ids.proposalId) && kv.records[ids.proposalId].proposal.payloadDigest == ids.payloadDigest
    && kv.records[ids.proposalId].proposal.expiresAt == ids.expiresAt
  }

  ghost predicate AllNamed(w: World)
  {
    forall id | id in w.calls && w.calls[id].Returned? :: NamesRecord(w.kv, w.calls[id].ids)
  }

  /** A call that returns in this step returns what the record says. */
  lemma ReturnNames(dep: Deployment, call: ProposeCall, kv: Kv)
    requires CallOk(dep, kv, call) && !call.Returned? && CallStep(call, kv).0.Returned?
    requires RecordsBacked(dep, kv)
    ensures NamesRecord(CallStep(call, kv).1, CallStep(call, kv).0.ids)
  {
    if call.draft.key.Some? {
      IndexIsPrefixed(call.draft.key.value);
    }
    if call.FindRecord? || call.RefindRecord? {
      assert RecordBacked(dep, kv, call.winner);
    }
  }

  lemma StepNames(dep: Deployment, w: World, e: Event)
    requires Inv(dep, w) && AllNamed(w) && Enabled(dep, w, e)
    ensures AllNamed(Step(dep, w, e))
  {
    var w' := Step(dep, w, e);
    forall id | id in w'.calls && w'.calls[id].Returned? ensures NamesRecord(w'.kv, w'.calls[id].ids) {
      if id in w.calls && w.calls[id].Returned? {
        ReturnedStays(dep, w, e);
        StaysNamed(dep, w, e, id);
      } else {
        assert CallOk(dep, w.kv, w.calls[id]);
        ReturnNames(dep, w.calls[id], w.kv);
      }
    }
  }

  lemma StaysNamed(dep: Deployment, w: World, e: Event, id: nat)
    requires Inv(dep, w) && Enabled(dep, w, e) && id in w.calls && w.calls[id].Returned?
    requires NamesRecord(w.kv, w.calls[id].ids)
    ensures NamesRecord(Step(dep, w, e).kv, w.calls[id].ids)
  {
    if !e.SetStatus? {
      assert Known(w, w.calls[id].ids.proposalId);
      ProposeKeeps(dep, w, e, w.calls[id].ids.proposalId);
    }
  }

  lemma {:induction false} ReachableNames(dep: Deployment, w: World, events: seq<Event>)
    requires Reachable(dep, w, events)
    ensures AllNamed(w)
    decreases |events|
  {
    if events != [] {
      var before, e :| StepsTo(dep, before, e, w) && e == events[|events| - 1] &&
                       Reachable(dep, before, events[..|events| - 1]);
      ReachableNames(dep, before, events[..|events| - 1]);
      ReachableInv(dep, before, events[..|events| - 1]);
      StepNames(dep, before, e);
    }
  }

  /**
   What a caller holds is good from then on: the id it was given names a record with the digest and the
   expiry it was told, made by one request, whose plain mail is stored beside it.
   */
  lemma ReturnedIsStored(dep: Deployment, w: World, events: seq<Event>, id: nat)
    requires Reachable(dep, w, events) && id in w.calls && w.calls[id].Returned?
    ensures NamesRecord(w.kv, w.calls[id].ids) && exists r :: StoredFor(dep, w.kv, w.calls[id].ids.proposalId, r)
  {
    ReachableNames(dep, w, events);
    RecordsAreRequested(dep, w, events, w.calls[id].ids.proposalId);
  }

  // ----- one store call per step ------------------------------------------------------

  /** The call of the record store that a stage makes, besides reads. */
  function RecordCall(call: ProposeCall): Option<Persistence.KvOp<Row>>
  {
    var d := call.draft;
    match call
    case PutRecord(_) =>
      if d.prepared.Ok? then Some(Persistence.PutOp(d.proposalId, RecordRow(RecordOf(d)))) else None
    case ClaimKey(_) =>
      if d.key.Some? && d.prepared.Ok? then Some(Persistence.ClaimOp(IndexKey(d.key.value), IndexRow(d.proposalId)))
      else None
    case DropRecord(_) => Some(Persistence.DeleteOp(d.proposalId))
    case _ => None
  }

  function PayloadCall(call: ProposeCall): Option<Persistence.KvOp<Json>>
  {
    var d := call.draft;
    match call
    case PutPayload(_) =>
      if d.prepared.Ok? then Some(Persistence.PutOp(d.proposalId, d.prepared.value.canonical)) else None
    case DropPayload(_) => Some(Persistence.DeleteOp(d.proposalId))
    case _ => None
  }

  /** A table after a call of the keyed store that returns, or none. */
  function AfterCall<V>(table: map<string, V>, op: Option<Persistence.KvOp<V>>): map<string, V>
  {
    if op.None? then table else Persistence.ApplyEffect(Persistence.EffectOf(op.value), table)
  }

  /** Each step of a propose call is one call of one keyed store, with that store's effect. */
  lemma StepIsStoreCall(call: ProposeCall, kv: Kv)
    ensures CallStep(call, kv).1 ==
            Kv(AfterCall(kv.records, RecordCall(call)), AfterCall(kv.payloads, PayloadCall(call)))
    ensures RecordCall(call).None? || PayloadCall(call).None?
  {
  }
}
