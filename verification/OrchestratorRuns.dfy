/** What every step of `authorize_and_send` keeps, whatever is interleaved. */
module OrchestratorRuns {
  import opened Wrappers
  import opened Capability
  import opened Service
  import opened Gate
  import opened GateMachine
  import GateRuns
  import opened ProposalRecords
  import opened SendFsm
  import opened Orchestrator

  // ----- invariants -------------------------------------------------------------------

  /** Past the gate: an authorization in auto mode for exactly this call's proposal. */
  ghost predicate Cleared(w: World, id: nat)
    requires id in w.calls
  {
    id in w.gate.calls && w.gate.calls[id].Authorized? && w.gate.calls[id].grant.approvalMode.Auto?
  }

  ghost predicate HasStarted(w: World, id: nat, commitStart: int)
    requires id in w.calls && Cleared(w, id)
  {
    var gate := w.gate.calls[id];
    Started(BindingOf(w.calls[id], gate), gate.received, commitStart) in w.records
  }

  ghost predicate BothRows(w: World, id: nat, status: ProposalStatus)
    requires id in w.calls && Cleared(w, id)
  {
    var gate, b := w.gate.calls[id], BindingOf(w.calls[id], w.gate.calls[id]);
    exists start, complete ::
      Started(b, gate.received, start) in w.records && Completed(b, gate.received, start, complete, status) in w.records
  }

  ghost predicate PhaseOk(w: World, id: nat)
    requires id in w.calls
  {
    var call := w.calls[id];
    match call.phase
    case InGate => id in w.gate.calls && !w.gate.calls[id].Ended()
    case Confirming(pc) => Cleared(w, id) && ConfirmStage(pc) && pc.pid == call.proposalId
    case WritingStarted(now) => Cleared(w, id)
    case Dispatching(pc, start) =>
      Cleared(w, id) && HasStarted(w, id, start) && DispatchStage(pc) && pc.pid == call.proposalId
    case WritingCompleted(_, start) => Cleared(w, id) && HasStarted(w, id, start)
    case Finished(outcome) => outcome.Reported? ==> Cleared(w, id) && BothRows(w, id, outcome.status)
  }

  ghost predicate CallOk(w: World, id: nat)
    requires id in w.calls
  {
    var call := w.calls[id];
    && id in w.gate.calls && w.gate.calls[id].ctx.actionDigest == call.digest
    && call.proposalId in w.fsm.proposals && w.fsm.proposals[call.proposalId].payloadDigest == call.digest
    && PhaseOk(w, id)
  }

  ghost predicate CallsOk(w: World)
  {
    forall id | id in w.calls :: CallOk(w, id)
  }

  ghost predicate StartedFor(row: DispatchRow, b: Binding, received: int)
  {
    row.Started? && row.binding == b && row.received == received
  }

  /** The call wrote an audit row before the log reached this length. */
  ghost predicate AuditedBefore(w: World, id: nat, length: nat)
  {
    exists i :: 0 <= i < length <= |w.gate.owners| && w.gate.owners[i] == id
  }

  /** The call wrote its started row before the record log reached this length. */
  ghost predicate RecordedBefore(w: World, id: nat, length: nat)
    requires id in w.calls && Cleared(w, id)
  {
    exists i :: 0 <= i < length <= |w.records| &&
                StartedFor(w.records[i], BindingOf(w.calls[id], w.gate.calls[id]), w.gate.calls[id].received)
  }

  /** Everything a sender call must be preceded by. */
  ghost predicate Attributed(w: World, s: SenderCall)
  {
    && s.id in w.calls && w.calls[s.id].proposalId == s.proposalId && Cleared(w, s.id)
    && AuditedBefore(w, s.id, s.auditLength) && RecordedBefore(w, s.id, s.recordLength)
  }

  ghost predicate SendsAttributed(w: World)
  {
    forall i | 0 <= i < |w.sends| :: Attributed(w, w.sends[i])
  }

  /** The call has called the sender or can no longer do so. */
  ghost predicate PastSending(phase: Phase)
  {
    || phase.WritingCompleted? || phase.Finished?
    || (phase.Dispatching? && (phase.pc.Settling? || phase.pc.SettleLog?))
  }

  ghost predicate SendersDone(w: World)
  {
    forall i | 0 <= i < |w.sends| :: w.sends[i].id in w.calls && PastSending(w.calls[w.sends[i].id].phase)
  }

  ghost predicate SendsDistinct(w: World)
  {
    forall i, j | 0 <= i < j < |w.sends| :: w.sends[i].id != w.sends[j].id
  }

  /** Each completed row follows a started row with the same binding and readings. */
  ghost predicate RecordsPaired(rows: seq<DispatchRow>)
  {
    forall i | 0 <= i < |rows| && rows[i].Completed? ::
      exists j :: 0 <= j < i && rows[j] == Started(rows[i].binding, rows[i].received, rows[i].commitStart)
  }

  /** What the steps keep, apart from the gate's own invariant. */
  ghost predicate Rest(w: World)
  {
    CallsOk(w) && SendsAttributed(w) && SendersDone(w) && SendsDistinct(w) && RecordsPaired(w.records)
  }

  ghost predicate Inv(logic: GateLogic, w: World)
  {
    GateRuns.Inv(logic, w.gate) && Rest(w)
  }

  // ----- what a step may change -------------------------------------------------------

  /** Verdicts and the owners of audit rows only accumulate. */
  ghost predicate GateMoves(g: GateRuns.World, g': GateRuns.World, id: nat)
  {
    && g.owners <= g'.owners && g'.calls.Keys == g.calls.Keys + {id}
    && (forall k | k in g.calls :: g'.calls[k].ctx == g.calls[k].ctx)
    && (forall k | k in g.calls && (k != id || g.calls[k].Ended()) :: g'.calls[k] == g.calls[k])
  }

  /** Proposals keep their digests. */
  ghost predicate FsmMoves(st: FsmState, st': FsmState)
  {
    forall pid | pid in st.proposals ::
      pid in st'.proposals && st'.proposals[pid].payloadDigest == st.proposals[pid].payloadDigest
  }

  /** Only call `id` moved. */
  ghost predicate Moves(w: World, w': World, id: nat)
  {
    && GateMoves(w.gate, w'.gate, id) && FsmMoves(w.fsm, w'.fsm) && w.records <= w'.records
    && w'.calls.Keys == w.calls.Keys + {id}
    && (forall k | k in w.calls ::
          w'.calls[k].proposalId == w.calls[k].proposalId && w'.calls[k].digest == w.calls[k].digest)
    && (forall k | k in w.calls && k != id :: w'.calls[k] == w.calls[k])
  }

  lemma GateStepMoves(logic: GateLogic, g: GateRuns.World, e: GateRuns.Event)
    requires e.Advance? ==> e.id in g.calls
    ensures GateMoves(g, GateRuns.Step(logic, g, e), e.id)
  {
  }

  lemma FsmStepMoves(mode: SwitchMode, pc: FsmPc, st: FsmState, result: SendResult)
    ensures FsmMoves(st, FsmStep(mode, pc, st, result).1)
  {
  }

  // ----- one lemma for each conjunct --------------------------------------------------

  lemma RowsPersist(w: World, w': World, id: nat, status: ProposalStatus)
    requires id in w.calls && Cleared(w, id) && BothRows(w, id, status) && w.records <= w'.records
    requires id in w'.calls && w'.calls[id] == w.calls[id] && id in w'.gate.calls && w'.gate.calls[id] == w.gate.calls[id]
    ensures BothRows(w', id, status)
  {
    var gate, b := w.gate.calls[id], BindingOf(w.calls[id], w.gate.calls[id]);
    var start, complete :|
      Started(b, gate.received, start) in w.records && Completed(b, gate.received, start, complete, status) in w.records;
    assert Started(b, gate.received, start) in w'.records;
    assert Completed(b, gate.received, start, complete, status) in w'.records;
  }

  /** A call that did not move stays as good as it was. */
  lemma IdleCallOk(w: World, w': World, id: nat, mover: nat)
    requires Moves(w, w', mover) && id in w.calls && CallOk(w, id)
    requires w'.calls[id] == w.calls[id] && w'.gate.calls[id] == w.gate.calls[id]
    ensures CallOk(w', id)
  {
    var phase := w.calls[id].phase;
    if phase.Finished? && phase.outcome.Reported? {
      RowsPersist(w, w', id, phase.outcome.status);
    }
  }

  lemma CallsStayOk(w: World, w': World, id: nat)
    requires Moves(w, w', id) && CallsOk(w) && CallOk(w', id)
    ensures CallsOk(w')
  {
    forall k | k in w'.calls ensures CallOk(w', k) {
      if k != id {
        assert CallOk(w, k);
        IdleCallOk(w, w', k, id);
      }
    }
  }

  lemma StaysAudited(w: World, w': World, id: nat, length: nat)
    requires AuditedBefore(w, id, length) && w.gate.owners <= w'.gate.owners
    ensures AuditedBefore(w', id, length)
  {
    var i :| 0 <= i < length <= |w.gate.owners| && w.gate.owners[i] == id;
    assert w'.gate.owners[i] == id;
  }

  lemma StaysRecorded(w: World, w': World, id: nat, length: nat)
    requires id in w.calls && Cleared(w, id) && RecordedBefore(w, id, length) && w.records <= w'.records
    requires id in w'.calls && id in w'.gate.calls && w'.gate.calls[id] == w.gate.calls[id]
    requires w'.calls[id].proposalId == w.calls[id].proposalId && w'.calls[id].digest == w.calls[id].digest
    ensures RecordedBefore(w', id, length)
  {
    var gate := w.gate.calls[id];
    var i :| 0 <= i < length <= |w.records| && StartedFor(w.records[i], BindingOf(w.calls[id], gate), gate.received);
    assert BindingOf(w'.calls[id], gate) == BindingOf(w.calls[id], gate);
    assert w'.records[i] == w.records[i];
  }

  lemma StaysAttributed(w: World, w': World, id: nat, s: SenderCall)
    requires Moves(w, w', id) && Attributed(w, s)
    ensures Attributed(w', s)
  {
    assert w'.gate.calls[s.id] == w.gate.calls[s.id];
    StaysAudited(w, w', s.id, s.auditLength);
    StaysRecorded(w, w', s.id, s.recordLength);
  }

  lemma SendsStayAttributed(w: World, w': World, id: nat)
    requires Moves(w, w', id) && SendsAttributed(w)
    requires w'.sends == w.sends ||
             (id in w.calls && w'.sends == w.sends + [SendNow(w, id)] && Attributed(w, SendNow(w, id)))
    ensures SendsAttributed(w')
  {
    forall i | 0 <= i < |w'.sends| ensures Attributed(w', w'.sends[i]) {
      StaysAttributed(w, w', id, w'.sends[i]);
    }
  }

  lemma SendersStayDone(w: World, w': World, id: nat)
    requires Moves(w, w', id) && SendersDone(w)
    requires id in w.calls && PastSending(w.calls[id].phase) ==> PastSending(w'.calls[id].phase)
    requires w'.sends == w.sends ||
             (id in w.calls && w'.sends == w.sends + [SendNow(w, id)] && PastSending(w'.calls[id].phase))
    ensures SendersDone(w')
  {
    forall i | 0 <= i < |w'.sends| ensures w'.sends[i].id in w'.calls && PastSending(w'.calls[w'.sends[i].id].phase) {
      if i < |w.sends| {
        assert w'.sends[i] == w.sends[i];
      }
    }
  }

  lemma SendsStayDistinct(w: World, w': World, id: nat)
    requires SendersDone(w) && SendsDistinct(w) && id in w.calls
    requires w'.sends == w.sends || (w'.sends == w.sends + [SendNow(w, id)] && !PastSending(w.calls[id].phase))
    ensures SendsDistinct(w')
  {
    forall i, j | 0 <= i < j < |w'.sends| ensures w'.sends[i].id != w'.sends[j].id {
      assert w'.sends[i] == w.sends[i];
    }
  }

  lemma PairedAppend(rows: seq<DispatchRow>, row: DispatchRow)
    requires RecordsPaired(rows) && (row.Completed? ==> Started(row.binding, row.received, row.commitStart) in rows)
    ensures RecordsPaired(rows + [row])
  {
    var rows' := rows + [row];
    forall i | 0 <= i < |rows'| && rows'[i].Completed?
      ensures exists j :: 0 <= j < i && rows'[j] == Started(rows'[i].binding, rows'[i].received, rows'[i].commitStart)
    {
      var start := Started(rows'[i].binding, rows'[i].received, rows'[i].commitStart);
      if i < |rows| {
        assert rows[i] == rows'[i];
        var j :| 0 <= j < i && rows[j] == start;
        assert rows'[j] == start;
      } else {
        var j :| 0 <= j < |rows| && rows[j] == start;
        assert rows'[j] == start;
      }
    }
  }

  /** A step of one call that calls no sender. */
  lemma QuietMove(w: World, w': World, id: nat)
    requires Rest(w) && Moves(w, w', id) && CallOk(w', id) && RecordsPaired(w'.records) && w'.sends == w.sends
    requires id in w.calls && PastSending(w.calls[id].phase) ==> PastSending(w'.calls[id].phase)
    ensures Rest(w')
  {
    CallsStayOk(w, w', id);
    SendsStayAttributed(w, w', id);
    SendersStayDone(w, w', id);
  }

  // ----- the steps --------------------------------------------------------------------

  /** An authorization that does not ask for approval comes from a verified grant in auto mode. */
  lemma AuthorizedIsAuto(logic: GateLogic, g: GateRuns.World, id: nat)
    requires Sound(logic) && GateRuns.CallsJustified(logic, g) && id in g.calls && g.calls[id].Authorized?
    ensures g.calls[id].decision.disposition != NEEDS_APPROVAL ==> g.calls[id].grant.approvalMode.Auto?
  {
    assert GateRuns.Justified(logic, g.calls[id]);
    GateRuns.AuthorizedMeans(logic, g.calls[id]);
  }

  /** An authorization in auto mode, or one that asks for approval. */
  ghost predicate ModeFits(gate: GateCall)
  {
    gate.Authorized? && gate.decision.disposition != NEEDS_APPROVAL ==> gate.grant.approvalMode.Auto?
  }

  lemma GateStepCallOk(w: World, id: nat, now: int, g': GateRuns.World)
    requires id in w.calls && w.calls[id].phase.InGate? && CallOk(w, id)
    requires GateMoves(w.gate, g', id) && ModeFits(g'.calls[id])
    ensures Moves(w, AfterGateStep(w, id, now, g'), id) && CallOk(AfterGateStep(w, id, now, g'), id)
  {
  }

  lemma GateStepRest(w: World, id: nat, now: int, g': GateRuns.World)
    requires Rest(w) && id in w.calls && w.calls[id].phase.InGate?
    requires GateMoves(w.gate, g', id) && ModeFits(g'.calls[id])
    ensures Rest(AfterGateStep(w, id, now, g'))
  {
    assert CallOk(w, id);
    GateStepCallOk(w, id, now, g');
    QuietMove(w, AfterGateStep(w, id, now, g'), id);
  }

  lemma ConfirmStepRest(w: World, id: nat, pc': FsmPc, fsm': FsmState)
    requires Rest(w) && id in w.calls && w.calls[id].phase.Confirming?
    requires FsmMoves(w.fsm, fsm') && pc'.pid == w.calls[id].proposalId
    requires ConfirmStage(pc') || pc'.ConfirmDone? || pc'.Raised?
    ensures Rest(AfterConfirmStep(w, id, pc', fsm'))
  {
    var w' := AfterConfirmStep(w, id, pc', fsm');
    assert CallOk(w, id);
    assert Moves(w, w', id);
    assert CallOk(w', id);
    QuietMove(w, w', id);
  }

  lemma StartedRest(w: World, id: nat, now: int, clock: int, fails: bool)
    requires Rest(w) && id in w.calls && w.calls[id].phase.WritingStarted? && HasAuthorization(w, id)
    ensures Rest(AfterStarted(w, id, w.gate.calls[id], now, clock, fails))
  {
    var w' := AfterStarted(w, id, w.gate.calls[id], now, clock, fails);
    assert CallOk(w, id);
    assert Moves(w, w', id);
    if !fails {
      var row := Started(BindingOf(w.calls[id], w.gate.calls[id]), w.gate.calls[id].received, clock);
      assert w'.records[|w.records|] == row;
      assert BindingOf(w'.calls[id], w'.gate.calls[id]) == row.binding;
      PairedAppend(w.records, row);
    }
    assert CallOk(w', id);
    QuietMove(w, w', id);
  }

  lemma CompletedRest(w: World, id: nat, status: ProposalStatus, start: int, clock: int, fails: bool)
    requires Rest(w) && id in w.calls && w.calls[id].phase == WritingCompleted(status, start) && HasAuthorization(w, id)
    ensures Rest(AfterCompleted(w, id, w.gate.calls[id], status, start, clock, fails))
  {
    var w' := AfterCompleted(w, id, w.gate.calls[id], status, start, clock, fails);
    assert CallOk(w, id);
    assert Moves(w, w', id);
    if !fails {
      var b, received := BindingOf(w.calls[id], w.gate.calls[id]), w.gate.calls[id].received;
      assert w'.records[|w.records|] == Completed(b, received, start, clock, status);
      PairedAppend(w.records, w'.records[|w.records|]);
      assert BindingOf(w'.calls[id], w'.gate.calls[id]) == b;
      assert Started(b, received, start) in w'.records && Completed(b, received, start, clock, status) in w'.records;
      assert BothRows(w', id, status);
    }
    assert CallOk(w', id);
    QuietMove(w, w', id);
  }

  /** An authorized call has its row in the audit log. */
  lemma AuthorizedIsAudited(g: GateRuns.World, id: nat)
    requires GateRuns.OneRowPerVerdict(g) && id in g.calls && g.calls[id].Authorized?
    ensures id in g.owners && |g.owners| == |g.st.audit|
  {
    assert GateRuns.Verdict(g.calls[id]);
  }

  /** A call about to call the sender has all that attribution asks for. */
  lemma SendingIsAttributed(w: World, id: nat)
    requires id in w.calls && CallOk(w, id) && w.calls[id].phase.Dispatching?
    requires id in w.gate.owners && |w.gate.owners| == |w.gate.st.audit|
    ensures Attributed(w, SendNow(w, id))
  {
    var gate := w.gate.calls[id];
    var row := Started(BindingOf(w.calls[id], gate), gate.received, w.calls[id].phase.commitStart);
    var k :| 0 <= k < |w.records| && w.records[k] == row;
    assert StartedFor(w.records[k], BindingOf(w.calls[id], gate), gate.received);
  }

  /** How `dispatch` goes on. */
  ghost predicate DispatchMoves(pc: FsmPc, pc': FsmPc)
  {
    && pc'.pid == pc.pid && (DispatchStage(pc') || pc'.Settled? || pc'.Raised?)
    && (pc.Sending? ==> pc'.Settling?) && (pc.Settling? ==> pc'.SettleLog?)
    && (pc.SettleLog? ==> pc'.Settled? || pc'.Raised?)
  }

  lemma DispatchStepRest(w: World, id: nat, pc: FsmPc, start: int, pc': FsmPc, fsm': FsmState)
    requires Rest(w) && id in w.calls && w.calls[id].phase == Dispatching(pc, start)
    requires FsmMoves(w.fsm, fsm') && DispatchMoves(pc, pc') && (pc.Sending? ==> Attributed(w, SendNow(w, id)))
    ensures Rest(AfterDispatchStep(w, id, start, pc', fsm', pc.Sending?))
  {
    var w' := AfterDispatchStep(w, id, start, pc', fsm', pc.Sending?);
    assert CallOk(w, id);
    DispatchedCallOk(w, w', id, pc, start, pc');
    CallsStayOk(w, w', id);
    SendsStayAttributed(w, w', id);
    SendersStayDone(w, w', id);
    SendsStayDistinct(w, w', id);
  }

  lemma DispatchedCallOk(w: World, w': World, id: nat, pc: FsmPc, start: int, pc': FsmPc)
    requires id in w.calls && CallOk(w, id) && w.calls[id].phase == Dispatching(pc, start)
    requires FsmMoves(w.fsm, w'.fsm) && DispatchMoves(pc, pc')
    requires w' == WithPhase(w, id, AfterDispatch(pc', start)).(fsm := w'.fsm, sends := w'.sends)
    ensures Moves(w, w', id) && CallOk(w', id)
    ensures PastSending(w.calls[id].phase) || pc.Sending? ==> PastSending(w'.calls[id].phase)
    ensures pc.Sending? ==> !PastSending(w.calls[id].phase)
  {
  }

  lemma FsmStepStages(mode: SwitchMode, pc: FsmPc, st: FsmState, result: SendResult)
    ensures var pc' := FsmStep(mode, pc, st, result).0;
            && (ConfirmStage(pc) ==> ConfirmStage(pc') || pc'.ConfirmDone? || pc'.Raised?)
            && (DispatchStage(pc) ==> DispatchMoves(pc, pc'))
  {
  }

  lemma BeginRest(w: World, id: nat, call: OrchCall, g': GateRuns.World)
    requires Rest(w) && id !in w.calls && GateMoves(w.gate, g', id)
    requires call.phase.InGate? && !g'.calls[id].Ended() && g'.calls[id].ctx.actionDigest == call.digest
    requires call.proposalId in w.fsm.proposals && w.fsm.proposals[call.proposalId].payloadDigest == call.digest
    ensures Rest(w.(gate := g', calls := w.calls[id := call], latest := Some(id)))
  {
    var w' := w.(gate := g', calls := w.calls[id := call], latest := Some(id));
    assert Moves(w, w', id);
    QuietMove(w, w', id);
  }

  lemma StopRest(w: World, id: nat)
    requires Rest(w) && id in w.calls
    ensures Rest(WithPhase(w, id, Finished(Lost)))
  {
    var w' := WithPhase(w, id, Finished(Lost));
    assert CallOk(w, id);
    assert Moves(w, w', id);
    QuietMove(w, w', id);
  }

  /** The clock and the creation of a proposal touch nothing the invariant speaks of. */
  lemma AsideRest(w: World, w': World)
    requires Rest(w) && FsmMoves(w.fsm, w'.fsm) && w' == w.(fsm := w'.fsm, clock := w'.clock)
    ensures Rest(w')
  {
    forall k | k in w'.calls ensures CallOk(w', k) {
      assert CallOk(w, k);
      assert Moves(w, w', k);
      IdleCallOk(w, w', k, k);
    }
    forall i | 0 <= i < |w'.sends| ensures Attributed(w', w'.sends[i]) {
      assert Attributed(w, w.sends[i]);
      assert Moves(w, w', w.sends[i].id);
      StaysAttributed(w, w', w.sends[i].id, w.sends[i]);
    }
  }

  // ----- the machine's steps ----------------------------------------------------------

  lemma AdvanceInGate(logic: GateLogic, mode: SwitchMode, w: World, e: Event)
    requires Sound(logic) && GateRuns.Inv(logic, w.gate) && Rest(w)
    requires e.Advance? && e.id in w.calls && w.calls[e.id].phase.InGate?
    ensures Rest(AdvanceCall(logic, mode, w, e))
  {
    assert CallOk(w, e.id);
    var ge := GateRuns.Advance(e.id, e.input);
    var g' := GateRuns.Step(logic, w.gate, ge);
    GateRuns.StepInv(logic, w.gate, ge);
    GateStepMoves(logic, w.gate, ge);
    ModeFitsAfter(logic, g', e.id);
    GateStepRest(w, e.id, e.now, g');
  }

  lemma ModeFitsAfter(logic: GateLogic, g: GateRuns.World, id: nat)
    requires Sound(logic) && GateRuns.Inv(logic, g) && id in g.calls
    ensures ModeFits(g.calls[id])
  {
    if g.calls[id].Authorized? {
      AuthorizedIsAuto(logic, g, id);
    }
  }

  lemma AdvanceConfirming(logic: GateLogic, mode: SwitchMode, w: World, e: Event)
    requires Rest(w) && e.Advance? && e.id in w.calls && w.calls[e.id].phase.Confirming?
    ensures Rest(AdvanceCall(logic, mode, w, e))
  {
    assert CallOk(w, e.id);
    var pc := w.calls[e.id].phase.pc;
    FsmStepMoves(mode, pc, w.fsm, e.result);
    FsmStepStages(mode, pc, w.fsm, e.result);
    var (pc', fsm') := FsmStep(mode, pc, w.fsm, e.result);
    ConfirmStepRest(w, e.id, pc', fsm');
  }

  lemma AdvanceDispatching(logic: GateLogic, mode: SwitchMode, w: World, e: Event)
    requires GateRuns.OneRowPerVerdict(w.gate) && Rest(w)
    requires e.Advance? && e.id in w.calls && w.calls[e.id].phase.Dispatching?
    ensures Rest(AdvanceCall(logic, mode, w, e))
  {
    assert CallOk(w, e.id);
    var pc, start := w.calls[e.id].phase.pc, w.calls[e.id].phase.commitStart;
    FsmStepMoves(mode, pc, w.fsm, e.result);
    FsmStepStages(mode, pc, w.fsm, e.result);
    AuthorizedIsAudited(w.gate, e.id);
    SendingIsAttributed(w, e.id);
    var (pc', fsm') := FsmStep(mode, pc, w.fsm, e.result);
    DispatchStepRest(w, e.id, pc, start, pc', fsm');
  }

  lemma AdvanceRecords(logic: GateLogic, mode: SwitchMode, w: World, e: Event)
    requires Rest(w) && e.Advance? && e.id in w.calls
    requires w.calls[e.id].phase.WritingStarted? || w.calls[e.id].phase.WritingCompleted?
    ensures Rest(AdvanceCall(logic, mode, w, e))
  {
    var phase := w.calls[e.id].phase;
    if HasAuthorization(w, e.id) {
      if phase.WritingStarted? {
        StartedRest(w, e.id, phase.now, e.clock, e.appendFails);
      } else {
        CompletedRest(w, e.id, phase.status, phase.commitStart, e.clock, e.appendFails);
      }
    }
  }

  lemma AdvanceRest(logic: GateLogic, mode: SwitchMode, w: World, e: Event)
    requires Sound(logic) && Inv(logic, w) && e.Advance? && e.id in w.calls
    ensures Rest(AdvanceCall(logic, mode, w, e))
  {
    var phase := w.calls[e.id].phase;
    if phase.InGate? {
      AdvanceInGate(logic, mode, w, e);
    } else if phase.Confirming? {
      AdvanceConfirming(logic, mode, w, e);
    } else if phase.Dispatching? {
      AdvanceDispatching(logic, mode, w, e);
    } else if !phase.Finished? {
      AdvanceRecords(logic, mode, w, e);
    }
  }

  ghost predicate IsGateStep(logic: GateLogic, g: GateRuns.World, e: GateRuns.Event, g': GateRuns.World)
  {
    g' == GateRuns.Step(logic, g, e)
  }

  /** Each step is one step of the gate or leaves it alone. */
  lemma StepGateIs(logic: GateLogic, mode: SwitchMode, w: World, e: Event)
    ensures var g' := Step(logic, mode, w, e).gate; g' == w.gate || exists ge :: IsGateStep(logic, w.gate, ge, g')
  {
    var w' := Step(logic, mode, w, e);
    match e
    case Begin(id, pid, request, now) =>
      if w' != w {
        var ge := GateRuns.Start(id, CallContext(request, w.fsm.proposals[pid].payloadDigest, now));
        assert IsGateStep(logic, w.gate, ge, w'.gate);
      }
    case Advance(id, input, _, _, _, _) =>
      if id in w.calls && w.calls[id].phase.InGate? && id in w.gate.calls {
        assert IsGateStep(logic, w.gate, GateRuns.Advance(id, input), w'.gate);
      }
    case _ =>
  }

  lemma StepGate(logic: GateLogic, w: World, g': GateRuns.World)
    requires Sound(logic) && GateRuns.Inv(logic, w.gate)
    requires g' == w.gate || exists ge :: IsGateStep(logic, w.gate, ge, g')
    ensures GateRuns.Inv(logic, g')
  {
    if g' != w.gate {
      var ge :| IsGateStep(logic, w.gate, ge, g');
      GateRuns.StepInv(logic, w.gate, ge);
    }
  }

  lemma StepBegin(logic: GateLogic, mode: SwitchMode, w: World, e: Event)
    requires Rest(w) && e.Begin?
    ensures Rest(Step(logic, mode, w, e))
  {
    if e.id !in w.calls && e.id !in w.gate.calls && e.proposalId in w.fsm.proposals {
      var digest := w.fsm.proposals[e.proposalId].payloadDigest;
      var ge := GateRuns.Start(e.id, CallContext(e.request, digest, e.now));
      GateStepMoves(logic, w.gate, ge);
      BeginRest(w, e.id, OrchCall(e.proposalId, digest, InGate), GateRuns.Step(logic, w.gate, ge));
    }
  }

  lemma StepRest(logic: GateLogic, mode: SwitchMode, w: World, e: Event)
    requires Sound(logic) && Inv(logic, w)
    ensures Rest(Step(logic, mode, w, e))
  {
    match e
    case Create(p) => AsideRest(w, Step(logic, mode, w, e));
    case Begin(_, _, _, _) => StepBegin(logic, mode, w, e);
    case Stop(id) =>
      if id in w.calls {
        StopRest(w, id);
      }
    case Advance(id, _, _, _, _, _) =>
      if id in w.calls {
        AdvanceRest(logic, mode, w, e);
        AsideRest(AdvanceCall(logic, mode, w, e), Step(logic, mode, w, e));
      }
  }

  lemma StepInv(logic: GateLogic, mode: SwitchMode, w: World, e: Event)
    requires Sound(logic) && Inv(logic, w)
    ensures Inv(logic, Step(logic, mode, w, e))
  {
    StepGateIs(logic, mode, w, e);
    StepGate(logic, w, Step(logic, mode, w, e).gate);
    StepRest(logic, mode, w, e);
  }

  lemma {:induction false} RunInv(logic: GateLogic, mode: SwitchMode, w: World, events: seq<Event>)
    requires Sound(logic) && Inv(logic, w)
    ensures Inv(logic, Run(logic, mode, w, events))
  {
    if events != [] {
      RunInv(logic, mode, w, events[..|events| - 1]);
      StepInv(logic, mode, Run(logic, mode, w, events[..|events| - 1]), events[|events| - 1]);
    }
  }

  lemma InitialInv(logic: GateLogic, w: World)
    requires Initial(w)
    ensures Inv(logic, w)
  {
  }

  lemma ReachableInv(logic: GateLogic, mode: SwitchMode, w0: World, events: seq<Event>)
    requires Sound(logic) && Initial(w0)
    ensures Inv(logic, Run(logic, mode, w0, events))
  {
    InitialInv(logic, w0);
    RunInv(logic, mode, w0, events);
  }
}
