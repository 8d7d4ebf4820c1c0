/**
 From request to sender: any number of propose calls and of `authorize_and_send` calls over one
 proposal store, interleaved at single operations.
 */
module EndToEnd {
  import opened Wrappers
  import opened Jcs
  import opened Gate
  import opened GateMachine
  import GateRuns
  import opened ProposalRecords
  import opened Proposals
  import ProposeRuns
  import opened Preparation
  import opened ProposeOrigins
  import opened SendFsm
  import Orchestrator
  import OrchestratorRuns
  import Attribution
  import DistinctSends

  type Store = ProposeRuns.World
  type Sending = Orchestrator.World

  /** `send.fsm.proposals` is what the send machine sees of the records: those whose ids callers know. */
  datatype Joint = Joint(store: Store, send: Sending)

  datatype Event =
    | Propose(step: ProposeRuns.Event)
    | Learn(proposalId: string)
    | Send(event: Orchestrator.Event)

  /** `logic` is the gate's; that of every configuration is sound (`GateMachine.LogicIsSound`). */
  datatype System = System(dep: ProposeRuns.Deployment, logic: GateLogic, mode: SwitchMode)

  /** A caller learns an id when a propose call has returned it; statuses are written by the send machine alone. */
  ghost predicate Allowed(sys: System, j: Joint, e: Event)
  {
    match e
    case Propose(pe) => !pe.SetStatus? && ProposeRuns.Enabled(sys.dep, j.store, pe)
    case Learn(pid) => ProposeRuns.Known(j.store, pid) && IsRecord(j.store.kv, pid)
    case Send(oe) => !oe.Create?
  }

  /** The status a stage of confirm or dispatch writes. */
  function StatusWritten(pc: FsmPc): Option<ProposalStatus>
  {
    match pc
    case ConfirmWrite(_, _, _) => Some(Confirmed)
    case Settling(_, _, result) => Some(SettledStatus(result))
    case ExpireWrite(_, _) => Some(Failed)
    case _ => None
  }

  /** The `set_status` that the step makes on the shared store, if any. */
  function Write(w: Sending, e: Orchestrator.Event): Option<ProposeRuns.Event>
  {
    if !e.Advance? || e.id !in w.calls then None
    else
      match w.calls[e.id].phase
      case Confirming(pc) => WriteAt(w.calls[e.id].proposalId, StatusWritten(pc))
      case Dispatching(pc, _) => WriteAt(w.calls[e.id].proposalId, StatusWritten(pc))
      case _ => None
  }

  function WriteAt(pid: string, status: Option<ProposalStatus>): Option<ProposeRuns.Event>
  {
    if status.Some? then Some(ProposeRuns.SetStatus(pid, status.value)) else None
  }

  ghost function Written(dep: ProposeRuns.Deployment, store: Store, write: Option<ProposeRuns.Event>): Store
  {
    if write.Some? && ProposeRuns.Enabled(dep, store, write.value) then ProposeRuns.Step(dep, store, write.value)
    else store
  }

  function SendStep(sys: System, w: Sending, e: Orchestrator.Event): Sending
  {
    Orchestrator.Step(sys.logic, sys.mode, w, e)
  }

  /** What the step does to the store. */
  ghost function StoreStep(dep: ProposeRuns.Deployment, store: Store, w: Sending, e: Event): Store
    requires e.Propose? ==> ProposeRuns.Enabled(dep, store, e.step)
  {
    match e
    case Propose(pe) => ProposeRuns.Step(dep, store, pe)
    case Learn(_) => store
    case Send(oe) => Written(dep, store, Write(w, oe))
  }

  /** What the step does to the sending side. */
  function SendingStep(sys: System, kv: Kv, w: Sending, e: Event): Sending
    requires e.Learn? ==> IsRecord(kv, e.proposalId)
  {
    match e
    case Propose(_) => w
    case Learn(pid) => SendStep(sys, w, Orchestrator.Create(kv.records[pid].proposal))
    case Send(oe) => SendStep(sys, w, oe)
  }

  ghost function Step(sys: System, j: Joint, e: Event): Joint
  {
    if !Allowed(sys, j, e) then j
    else Joint(StoreStep(sys.dep, j.store, j.send, e), SendingStep(sys, j.store.kv, j.send, e))
  }

  ghost function Run(sys: System, j: Joint, events: seq<Event>): Joint
  {
    if events == [] then j else Step(sys, Run(sys, j, events[..|events| - 1]), events[|events| - 1])
  }

  ghost predicate Initial(j: Joint)
  {
    j.store == ProposeRuns.World(Kv(map[], map[]), map[]) && Orchestrator.Initial(j.send)
  }

  // ----- invariants -------------------------------------------------------------------

  /** The proposal has an id handed out and its record as the send machine sees it. */
  ghost predicate Stored(store: Store, pid: string, p: Proposal)
  {
    ProposeRuns.Known(store, pid) && IsRecord(store.kv, pid) && store.kv.records[pid].proposal == p
  }

  /** Send machine and proposal store agree on every record, status included. */
  ghost predicate Shared(store: Store, st: FsmState)
  {
    forall pid | pid in st.proposals :: Stored(store, pid, st.proposals[pid])
  }

  ghost predicate Inv(sys: System, j: Joint)
  {
    && Sound(sys.logic) && ProposeRuns.Inv(sys.dep, j.store) && OrchestratorRuns.Inv(sys.logic, j.send)
    && Shared(j.store, j.send.fsm)
  }

  lemma ProposeKeepsStored(dep: ProposeRuns.Deployment, w: Store, e: ProposeRuns.Event, pid: string, p: Proposal)
    requires ProposeRuns.Inv(dep, w) && ProposeRuns.Enabled(dep, w, e) && !e.SetStatus? && Stored(w, pid, p)
    ensures Stored(ProposeRuns.Step(dep, w, e), pid, p)
  {
    ProposeKeeps(dep, w, e, pid);
    ReturnedStays(dep, w, e);
    StaysKnown(w, ProposeRuns.Step(dep, w, e), pid);
  }

  lemma ProposeKeepsShared(dep: ProposeRuns.Deployment, w: Store, e: ProposeRuns.Event, st: FsmState)
    requires ProposeRuns.Inv(dep, w) && ProposeRuns.Enabled(dep, w, e) && !e.SetStatus? && Shared(w, st)
    ensures Shared(ProposeRuns.Step(dep, w, e), st)
  {
    forall pid | pid in st.proposals ensures Stored(ProposeRuns.Step(dep, w, e), pid, st.proposals[pid]) {
      ProposeKeepsStored(dep, w, e, pid, st.proposals[pid]);
    }
  }

  lemma LearnKeepsShared(w: Store, st: FsmState, st': FsmState, pid: string)
    requires Shared(w, st) && ProposeRuns.Known(w, pid) && IsRecord(w.kv, pid)
    requires st'.proposals == st.proposals || st'.proposals == st.proposals[pid := w.kv.records[pid].proposal]
    ensures Shared(w, st')
  {
    forall q | q in st'.proposals ensures Stored(w, q, st'.proposals[q]) {
      assert q in st.proposals ==> Stored(w, q, st.proposals[q]);
    }
  }

  /** The send machine's view after this write. */
  ghost predicate Follows(st: FsmState, write: Option<ProposeRuns.Event>, st': FsmState)
  {
    match write
    case None => st'.proposals == st.proposals
    case Some(e) => e.SetStatus? && st'.proposals == WithStatus(st, e.proposalId, e.status).proposals
  }

  lemma FsmStepWrites(mode: SwitchMode, pc: FsmPc, st: FsmState, result: SendResult)
    ensures Follows(st, WriteAt(pc.pid, StatusWritten(pc)), FsmStep(mode, pc, st, result).1)
  {
  }

  lemma SendWrites(sys: System, w: Sending, e: Orchestrator.Event)
    requires OrchestratorRuns.Rest(w) && !e.Create?
    ensures Follows(w.fsm, Write(w, e), SendStep(sys, w, e).fsm)
  {
    if e.Advance? && e.id in w.calls {
      assert OrchestratorRuns.CallOk(w, e.id);
      var phase := w.calls[e.id].phase;
      if phase.Confirming? || phase.Dispatching? {
        FsmStepWrites(sys.mode, phase.pc, w.fsm, e.result);
      }
    }
  }

  lemma WriteKeepsShared(dep: ProposeRuns.Deployment, w: Store, pid: string, status: ProposalStatus, st: FsmState,
                         st': FsmState)
    requires Shared(w, st) && Follows(st, Some(ProposeRuns.SetStatus(pid, status)), st')
    ensures Shared(Written(dep, w, Some(ProposeRuns.SetStatus(pid, status))), st')
  {
    var w' := Written(dep, w, Some(ProposeRuns.SetStatus(pid, status)));
    if pid in st.proposals {
      assert Stored(w, pid, st.proposals[pid]);
    }
    forall q | q in st'.proposals ensures Stored(w', q, st'.proposals[q]) {
      assert Stored(w, q, st.proposals[q]);
      StaysKnown(w, w', q);
    }
  }

  lemma WriteKeepsInv(dep: ProposeRuns.Deployment, w: Store, write: Option<ProposeRuns.Event>, st: FsmState,
                      st': FsmState)
    requires ProposeRuns.Inv(dep, w) && Shared(w, st) && Follows(st, write, st')
    ensures ProposeRuns.Inv(dep, Written(dep, w, write)) && Shared(Written(dep, w, write), st')
  {
    if write.Some? {
      if ProposeRuns.Enabled(dep, w, write.value) {
        ProposeRuns.StepInv(dep, w, write.value);
      }
      WriteKeepsShared(dep, w, write.value.proposalId, write.value.status, st, st');
    }
  }

  lemma LearnStep(sys: System, w: Sending, p: Proposal)
    ensures var st' := SendStep(sys, w, Orchestrator.Create(p)).fsm;
            st'.proposals == if p.proposalId in w.fsm.proposals then w.fsm.proposals else w.fsm.proposals[p.proposalId := p]
  {
  }

  lemma StepInv(sys: System, j: Joint, e: Event)
    requires Inv(sys, j)
    ensures Inv(sys, Step(sys, j, e))
  {
    if Allowed(sys, j, e) {
      match e
      case Propose(pe) =>
        ProposeRuns.StepInv(sys.dep, j.store, pe);
        ProposeKeepsShared(sys.dep, j.store, pe, j.send.fsm);
      case Learn(pid) =>
        var p := j.store.kv.records[pid].proposal;
        assert ProposeRuns.RecordBacked(sys.dep, j.store.kv, pid);
        OrchestratorRuns.StepInv(sys.logic, sys.mode, j.send, Orchestrator.Create(p));
        LearnStep(sys, j.send, p);
        LearnKeepsShared(j.store, j.send.fsm, SendStep(sys, j.send, Orchestrator.Create(p)).fsm, pid);
      case Send(oe) =>
        OrchestratorRuns.StepInv(sys.logic, sys.mode, j.send, oe);
        SendWrites(sys, j.send, oe);
        WriteKeepsInv(sys.dep, j.store, Write(j.send, oe), j.send.fsm, SendStep(sys, j.send, oe).fsm);
    }
  }

  lemma {:induction false} RunInv(sys: System, j: Joint, events: seq<Event>)
    requires Inv(sys, j)
    ensures Inv(sys, Run(sys, j, events))
  {
    if events != [] {
      RunInv(sys, j, events[..|events| - 1]);
      StepInv(sys, Run(sys, j, events[..|events| - 1]), events[|events| - 1]);
    }
  }

  lemma InitialInv(sys: System, j: Joint)
    requires Sound(sys.logic) && Initial(j)
    ensures Inv(sys, j)
  {
    OrchestratorRuns.InitialInv(sys.logic, j.send);
  }

  // ----- the theorems -----------------------------------------------------------------

  /** Whatever is interleaved, the send machine's view of a proposal is its stored record, status included. */
  lemma StatusIsStored(sys: System, j0: Joint, events: seq<Event>, pid: string)
    requires Sound(sys.logic) && Initial(j0) && pid in Run(sys, j0, events).send.fsm.proposals
    ensures var j := Run(sys, j0, events);
            IsRecord(j.store.kv, pid) && j.store.kv.records[pid].proposal == j.send.fsm.proposals[pid]
  {
    InitialInv(sys, j0);
    RunInv(sys, j0, events);
    var j := Run(sys, j0, events);
    assert Stored(j.store, pid, j.send.fsm.proposals[pid]);
  }

  /** The payload sent is the plain mail of some request, under the digest that was authorized. */
  ghost predicate SentAsAuthorized(sys: System, j: Joint, s: Orchestrator.SenderCall)
  {
    && Attribution.CallerAuthorized(j.send, s) && Attribution.AuthorizationLogged(j.send, s)
    && s.proposalId in j.store.kv.payloads
    && var payload, digest := j.store.kv.payloads[s.proposalId], Attribution.ExpectedRecord(j.send, s).actionDigest;
       && Canonicalize(payload).Ok? && digest == sys.dep.sha256Hex(Canonicalize(payload).value)
       && exists r :: AsksFor(sys.dep, r, payload)
  }

  lemma StoredHasPayload(sys: System, j: Joint, pid: string)
    requires Inv(sys, j) && pid in j.send.fsm.proposals
    ensures ProposeRuns.HasPayload(sys.dep, j.store.kv, pid, j.send.fsm.proposals[pid].payloadDigest)
  {
    assert Stored(j.store, pid, j.send.fsm.proposals[pid]);
    assert ProposeRuns.RecordBacked(sys.dep, j.store.kv, pid);
  }

  /**
   From request to sender: the payload stored for a sent proposal is the plain mail some request asked for,
   and its canonical bytes hash to the digest in the `authorized` row logged before the sender was called.
   */
  lemma SentPayloadIsAuthorized(sys: System, j0: Joint, events: seq<Event>, i: nat)
    requires Sound(sys.logic) && Initial(j0) && i < |Run(sys, j0, events).send.sends|
    ensures SentAsAuthorized(sys, Run(sys, j0, events), Run(sys, j0, events).send.sends[i])
  {
    var j := Run(sys, j0, events);
    var s := j.send.sends[i];
    InitialInv(sys, j0);
    RunInv(sys, j0, events);
    Attribution.CallerIsAuthorized(j.send, i);
    Attribution.AuthorizationIsLogged(j.send, i);
    StoredHasPayload(sys, j, s.proposalId);
    var digest := j.send.fsm.proposals[s.proposalId].payloadDigest;
    ProposedIsAsked(sys.dep, j.store.kv.payloads[s.proposalId], digest);
  }

  lemma WrittenKeepsPayloads(dep: ProposeRuns.Deployment, w: Store, write: Option<ProposeRuns.Event>)
    requires write.Some? ==> write.value.SetStatus?
    ensures Written(dep, w, write).kv.payloads == w.kv.payloads
  {
  }

  lemma SendKeepsProposals(sys: System, w: Sending, e: Orchestrator.Event)
    requires OrchestratorRuns.Rest(w) && !e.Create?
    ensures SendStep(sys, w, e).fsm.proposals.Keys == w.fsm.proposals.Keys
  {
    SendWrites(sys, w, e);
  }

  /** No proposal leaves the send machine's view. */
  lemma StepKeepsProposals(sys: System, j: Joint, e: Event)
    requires Inv(sys, j)
    ensures forall pid | pid in j.send.fsm.proposals :: pid in Step(sys, j, e).send.fsm.proposals
  {
    if Allowed(sys, j, e) {
      match e
      case Propose(_) =>
      case Learn(q) => LearnStep(sys, j.send, j.store.kv.records[q].proposal);
      case Send(oe) => SendKeepsProposals(sys, j.send, oe);
    }
  }

  lemma StoreStepFreezes(dep: ProposeRuns.Deployment, store: Store, w: Sending, e: Event, pid: string)
    requires e.Propose? ==> ProposeRuns.Enabled(dep, store, e.step) && !e.step.SetStatus?
    requires ProposeRuns.Inv(dep, store) && ProposeRuns.Known(store, pid) && IsRecord(store.kv, pid)
    requires pid in store.kv.payloads
    ensures Frozen(store.kv, StoreStep(dep, store, w, e).kv, pid)
  {
    match e
    case Propose(pe) => ProposeKeeps(dep, store, pe, pid);
    case Learn(_) =>
    case Send(oe) => WrittenKeepsPayloads(dep, store, Write(w, oe));
  }

  lemma StepFreezes(sys: System, j: Joint, e: Event, pid: string)
    requires Inv(sys, j) && pid in j.send.fsm.proposals
    ensures Frozen(j.store.kv, Step(sys, j, e).store.kv, pid)
  {
    StoredHasPayload(sys, j, pid);
    assert Stored(j.store, pid, j.send.fsm.proposals[pid]);
    if Allowed(sys, j, e) {
      StoreStepFreezes(sys.dep, j.store, j.send, e, pid);
    }
  }

  lemma {:induction false} RunFreezes(sys: System, j: Joint, events: seq<Event>, pid: string)
    requires Inv(sys, j) && pid in j.send.fsm.proposals
    ensures pid in Run(sys, j, events).send.fsm.proposals && Frozen(j.store.kv, Run(sys, j, events).store.kv, pid)
  {
    if events == [] {
      StoredHasPayload(sys, j, pid);
    } else {
      var init, e := events[..|events| - 1], events[|events| - 1];
      RunFreezes(sys, j, init, pid);
      RunInv(sys, j, init);
      StepKeepsProposals(sys, Run(sys, j, init), e);
      StepFreezes(sys, Run(sys, j, init), e, pid);
    }
  }

  /** Once a caller knows a proposal, nothing that follows changes its payload. */
  lemma PayloadIsFrozen(sys: System, j0: Joint, before: seq<Event>, after: seq<Event>, pid: string)
    requires Sound(sys.logic) && Initial(j0) && pid in Run(sys, j0, before).send.fsm.proposals
    ensures var j := Run(sys, j0, before); Frozen(j.store.kv, Run(sys, j, after).store.kv, pid)
  {
    InitialInv(sys, j0);
    RunInv(sys, j0, before);
    RunFreezes(sys, Run(sys, j0, before), after, pid);
  }

  // ----- one send per idempotency key -------------------------------------------------

  ghost predicate UndisputedRun(sys: System, j: Joint, events: seq<Event>)
  {
    events == [] ||
    (UndisputedRun(sys, j, events[..|events| - 1]) &&
     var e := events[|events| - 1];
     e.Send? ==> DistinctSends.Undisputed(Run(sys, j, events[..|events| - 1]).send, e.event))
  }

  lemma StepOnce(sys: System, j: Joint, e: Event)
    requires Inv(sys, j) && DistinctSends.Once(j.send) && (e.Send? ==> DistinctSends.Undisputed(j.send, e.event))
    ensures DistinctSends.Once(Step(sys, j, e).send)
  {
    if Allowed(sys, j, e) {
      match e
      case Propose(_) =>
      case Learn(pid) =>
        DistinctSends.StepOnce(sys.logic, sys.mode, j.send, Orchestrator.Create(j.store.kv.records[pid].proposal));
      case Send(oe) => DistinctSends.StepOnce(sys.logic, sys.mode, j.send, oe);
    }
  }

  lemma {:induction false} RunOnce(sys: System, j: Joint, events: seq<Event>)
    requires Inv(sys, j) && DistinctSends.Once(j.send) && UndisputedRun(sys, j, events)
    ensures DistinctSends.Once(Run(sys, j, events).send)
  {
    if events != [] {
      var init := events[..|events| - 1];
      RunOnce(sys, j, init);
      RunInv(sys, j, init);
      StepOnce(sys, Run(sys, j, init), events[|events| - 1]);
    }
  }

  /** A proposal a caller knows holds the claim of its key. */
  lemma KnownHoldsKey(dep: ProposeRuns.Deployment, w: Store, pid: string)
    requires ProposeRuns.Inv(dep, w) && ProposeRuns.Known(w, pid) && IsRecord(w.kv, pid)
    ensures var key := w.kv.records[pid].proposal.idempotencyKey;
            key.Some? ==> ProposeRuns.Claimed(w.kv, key.value, pid)
  {
    var id :| id in w.calls && w.calls[id].Returned? && w.calls[id].ids.proposalId == pid;
    assert ProposeRuns.CallOk(dep, w.kv, w.calls[id]);
    if w.calls[id].draft.key.Some? {
      var owner := ProposeRuns.WinnerHasRecord(dep, w, w.calls[id].draft.key.value, pid);
    }
  }

  ghost predicate DifferentKeys(j: Joint, s: Orchestrator.SenderCall, t: Orchestrator.SenderCall)
  {
    && IsRecord(j.store.kv, s.proposalId) && IsRecord(j.store.kv, t.proposalId)
    && var a, b := j.store.kv.records[s.proposalId].proposal, j.store.kv.records[t.proposalId].proposal;
       a.idempotencyKey.None? || a.idempotencyKey != b.idempotencyKey
  }

  lemma SameKeySameProposal(sys: System, j: Joint, s: Orchestrator.SenderCall, t: Orchestrator.SenderCall)
    requires Inv(sys, j) && s.proposalId in j.send.fsm.proposals && t.proposalId in j.send.fsm.proposals
    requires s.proposalId != t.proposalId
    ensures DifferentKeys(j, s, t)
  {
    assert Stored(j.store, s.proposalId, j.send.fsm.proposals[s.proposalId]);
    assert Stored(j.store, t.proposalId, j.send.fsm.proposals[t.proposalId]);
    KnownHoldsKey(sys.dep, j.store, s.proposalId);
    KnownHoldsKey(sys.dep, j.store, t.proposalId);
  }

  /**
   A retried request is mailed once: however many propose calls carry one idempotency key and however
   many sends follow, in any interleaving whose writes of CONFIRMED are undisputed the sender is called
   at most once for the key.
   */
  lemma OneSendPerKey(sys: System, j0: Joint, events: seq<Event>, i: nat, k: nat)
    requires Sound(sys.logic) && Initial(j0) && UndisputedRun(sys, j0, events)
    requires i < k < |Run(sys, j0, events).send.sends|
    ensures var j := Run(sys, j0, events); DifferentKeys(j, j.send.sends[i], j.send.sends[k])
  {
    var j := Run(sys, j0, events);
    InitialInv(sys, j0);
    RunInv(sys, j0, events);
    DistinctSends.InitialOnce(j0.send);
    RunOnce(sys, j0, events);
    DistinctSends.OnceIsNotTwice(j.send, j.send.sends[i].proposalId);
    Attribution.CallerIsAuthorized(j.send, i);
    Attribution.CallerIsAuthorized(j.send, k);
    SameKeySameProposal(sys, j, j.send.sends[i], j.send.sends[k]);
  }
}
