/**
 `AuthorizedGmailSend.authorize_and_send` (authz/orchestrator.py) with the two-phase dispatch record
 (authz/dispatch_record.py): gate, send machine and record log, one atomic step at a time, any number
 of calls interleaved, each of them free to stop anywhere.
 */
module Orchestrator {
  import opened Wrappers
  import opened Capability
  import opened Service
  import opened AuthzState
  import opened DecisionPolicy
  import opened Gate
  import opened GateMachine
  import GateRuns
  import opened ProposalRecords
  import opened SendFsm
  import SendRuns

  // ----- the dispatch record ----------------------------------------------------------

  /** What binds a record to one send: the decision, the request, the proposal and the payload. */
  datatype Binding = Binding(decisionId: string, requestId: string, proposalId: string, actionDigest: string)

  datatype DispatchRow =
    | Started(binding: Binding, received: int, commitStart: int)
    | Completed(binding: Binding, received: int, commitStart: int, responseComplete: int, terminal: ProposalStatus)

  /** The row binds to this proposal, request and payload. */
  predicate Binds(row: DispatchRow, pid: string, requestId: string, digest: string)
  {
    row.binding.proposalId == pid && row.binding.requestId == requestId && row.binding.actionDigest == digest
  }

  predicate NoBlank(pid: string, requestId: string, digest: string)
  {
    pid != "" && requestId != "" && digest != ""
  }

  /** `find`: the rows that bind, in order; a blank key finds nothing. */
  function Find(rows: seq<DispatchRow>, pid: string, requestId: string, digest: string): seq<DispatchRow>
  {
    if !NoBlank(pid, requestId, digest) || rows == [] then []
    else
      var rest, last := Find(rows[..|rows| - 1], pid, requestId, digest), rows[|rows| - 1];
      if Binds(last, pid, requestId, digest) then rest + [last] else rest
  }

  // ----- one call ---------------------------------------------------------------------

  datatype Outcome =
    | RefusedSend
    | PendingApproval
    | RecordUnavailable
    | Unattested(status: ProposalStatus)
    | Reported(status: ProposalStatus)
    | Errored
    | Lost

  datatype Phase =
    | InGate
    | Confirming(pc: FsmPc)
    | WritingStarted(now: int)
    | Dispatching(pc: FsmPc, commitStart: int)
    | WritingCompleted(status: ProposalStatus, commitStart: int)
    | Finished(outcome: Outcome)

  datatype OrchCall = OrchCall(proposalId: string, digest: string, phase: Phase)

  /** A call of the sender, with how long the audit and record logs were at that moment. */
  datatype SenderCall = SenderCall(id: nat, proposalId: string, auditLength: nat, recordLength: nat)

  /** `latest` is the call started last, `clock` the last reading of the shared continuous clock. */
  datatype World = World(
    gate: GateRuns.World,
    fsm: FsmState,
    records: seq<DispatchRow>,
    calls: map<nat, OrchCall>,
    sends: seq<SenderCall>,
    latest: Option<nat>,
    clock: int)

  datatype Event =
    | Create(proposal: Proposal)
    | Begin(id: nat, proposalId: string, request: AuthorizationRequest, now: int)
    | Advance(id: nat, input: Input, now: int, result: SendResult, clock: int, appendFails: bool)
    | Stop(id: nat)

  function BindingOf(call: OrchCall, gate: GateCall): Binding
    requires gate.Authorized?
  {
    Binding(gate.decision.decisionId, gate.ctx.request.requestId, call.proposalId, call.digest)
  }

  /** Where the call goes once the gate has given its verdict. */
  function AfterGate(call: OrchCall, gate: GateCall, now: int): Phase
  {
    match gate
    case Authorized(_, _, _, decision, _) =>
      if decision.disposition == NEEDS_APPROVAL then Finished(PendingApproval)
      else Confirming(ConfirmCheck(call.proposalId, now, Human, None))
    case Denied(_) => Finished(RefusedSend)
    case Unrecorded(_, _, _, _, _) => Finished(Errored)
    case Faulted(_) => Finished(Errored)
    case _ => InGate
  }

  function AfterConfirm(pc: FsmPc): Phase
  {
    match pc
    case ConfirmDone(_, now) => WritingStarted(now)
    case Raised(_, _, _) => Finished(Errored)
    case _ => Confirming(pc)
  }

  function AfterDispatch(pc: FsmPc, commitStart: int): Phase
  {
    match pc
    case Settled(_, _, status) => WritingCompleted(status, commitStart)
    case Raised(_, _, _) => Finished(Errored)
    case _ => Dispatching(pc, commitStart)
  }

  function WithPhase(w: World, id: nat, phase: Phase): World
    requires id in w.calls
  {
    w.(calls := w.calls[id := w.calls[id].(phase := phase)])
  }

  /** The gate has moved to `gate`. */
  function AfterGateStep(w: World, id: nat, now: int, gate: GateRuns.World): World
    requires id in w.calls && id in gate.calls
  {
    WithPhase(w, id, AfterGate(w.calls[id], gate.calls[id], now)).(gate := gate)
  }

  /** `confirm` has moved to `pc` and `fsm`. */
  function AfterConfirmStep(w: World, id: nat, pc: FsmPc, fsm: FsmState): World
    requires id in w.calls
  {
    WithPhase(w, id, AfterConfirm(pc)).(fsm := fsm)
  }

  /** `dispatch` has moved to `pc` and `fsm`, having called the sender or not. */
  function AfterDispatchStep(w: World, id: nat, commitStart: int, pc: FsmPc, fsm: FsmState, sent: bool): World
    requires id in w.calls
  {
    WithPhase(w, id, AfterDispatch(pc, commitStart))
    .(fsm := fsm,
      sends := if sent then w.sends + [SendNow(w, id)] else w.sends)
  }

  /** The call of the sender that `id` would make at this point. */
  function SendNow(w: World, id: nat): SenderCall
    requires id in w.calls
  {
    SenderCall(id, w.calls[id].proposalId, |w.gate.st.audit|, |w.records|)
  }

  /** `record_started`; a failing append refuses the send. */
  function AfterStarted(w: World, id: nat, gate: GateCall, now: int, clock: int, fails: bool): World
    requires id in w.calls && gate.Authorized?
  {
    if fails then WithPhase(w, id, Finished(RecordUnavailable))
    else
      WithPhase(w, id, Dispatching(DispatchCheck(w.calls[id].proposalId, now), clock))
      .(records := w.records + [Started(BindingOf(w.calls[id], gate), gate.received, clock)])
  }

  /** `record_completed`; a failing append leaves the started row alone and reports no clean outcome. */
  function AfterCompleted(w: World, id: nat, gate: GateCall, status: ProposalStatus, start: int, clock: int,
                          fails: bool): World
    requires id in w.calls && gate.Authorized?
  {
    if fails then WithPhase(w, id, Finished(Unattested(status)))
    else
      WithPhase(w, id, Finished(Reported(status)))
      .(records := w.records + [Completed(BindingOf(w.calls[id], gate), gate.received, start, clock, status)])
  }

  predicate HasAuthorization(w: World, id: nat)
  {
    id in w.gate.calls && w.gate.calls[id].Authorized?
  }

  function AdvanceCall(logic: GateLogic, mode: SwitchMode, w: World, e: Event): World
    requires e.Advance? && e.id in w.calls
  {
    match w.calls[e.id].phase
    case InGate =>
      if e.id !in w.gate.calls then w
      else AfterGateStep(w, e.id, e.now, GateRuns.Step(logic, w.gate, GateRuns.Advance(e.id, e.input)))
    case Confirming(pc) =>
      var (pc', fsm) := FsmStep(mode, pc, w.fsm, e.result);
      AfterConfirmStep(w, e.id, pc', fsm)
    case WritingStarted(now) =>
      if HasAuthorization(w, e.id) then AfterStarted(w, e.id, w.gate.calls[e.id], now, e.clock, e.appendFails) else w
    case Dispatching(pc, commitStart) =>
      var (pc', fsm) := FsmStep(mode, pc, w.fsm, e.result);
      AfterDispatchStep(w, e.id, commitStart, pc', fsm, pc.Sending?)
    case WritingCompleted(status, commitStart) =>
      if HasAuthorization(w, e.id) then
        AfterCompleted(w, e.id, w.gate.calls[e.id], status, commitStart, e.clock, e.appendFails)
      else w
    case Finished(_) => w
  }

  function Step(logic: GateLogic, mode: SwitchMode, w: World, e: Event): World
  {
    match e
    case Create(p) =>
      if p.proposalId in w.fsm.proposals then w
      else w.(fsm := w.fsm.(proposals := w.fsm.proposals[p.proposalId := p]))
    case Begin(id, pid, request, now) =>
      if id in w.calls || id in w.gate.calls || pid !in w.fsm.proposals then w
      else
        var digest := w.fsm.proposals[pid].payloadDigest;
        w.(gate := GateRuns.Step(logic, w.gate, GateRuns.Start(id, CallContext(request, digest, now))),
           calls := w.calls[id := OrchCall(pid, digest, InGate)],
           latest := Some(id))
    case Advance(id, _, _, _, clock, _) =>
      if id !in w.calls then w else AdvanceCall(logic, mode, w, e).(clock := clock)
    case Stop(id) => if id !in w.calls then w else WithPhase(w, id, Finished(Lost))
  }

  function Run(logic: GateLogic, mode: SwitchMode, w: World, events: seq<Event>): World
  {
    if events == [] then w else Step(logic, mode, Run(logic, mode, w, events[..|events| - 1]), events[|events| - 1])
  }

  ghost predicate Initial(w: World)
  {
    GateRuns.Initial(w.gate) && w.fsm == FsmState(map[], [], []) && w.records == [] && w.calls == map[] && w.sends == [] &&
    w.latest == None
  }
}
