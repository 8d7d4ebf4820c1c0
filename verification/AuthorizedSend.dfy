/** `AuthorizedGmailSend` and `DispatchRecordLog` as objects: what one uninterrupted call does. */
module AuthorizedSend {
  import opened Wrappers
  import opened Capability
  import opened Service
  import opened Gate
  import opened GateMachine
  import opened GateService
  import opened ProposalRecords
  import opened SendFsm
  import SendRuns
  import opened Orchestrator

  // ----- one call, uninterrupted ------------------------------------------------------

  /** What the environment contributes to one call. */
  datatype Env = Env(
    input: Input,
    gateNow: int,
    sendNow: int,
    commitStart: int,
    startedFails: bool,
    result: SendResult,
    responseComplete: int,
    completedFails: bool)

  datatype Stores = Stores(gate: GateState, fsm: FsmState, records: seq<DispatchRow>)

  function SendSolo(logic: GateLogic, mode: SwitchMode, s: Stores, pid: string, request: AuthorizationRequest, env: Env)
    : (Outcome, Stores)
  {
    if pid !in s.fsm.proposals then (Errored, s)
    else
      var call := OrchCall(pid, s.fsm.proposals[pid].payloadDigest, InGate);
      var start := Syncing(CallContext(request, call.digest, env.gateNow));
      var (verdict, gate) := GateMachine.Complete(logic, start, s.gate, env.input);
      if verdict.Denied? then (RefusedSend, s.(gate := gate))
      else if !verdict.Authorized? then (Errored, s.(gate := gate))
      else if verdict.decision.disposition == NEEDS_APPROVAL then (PendingApproval, s.(gate := gate))
      else SendCleared(mode, s.(gate := gate), call, verdict, env)
  }

  /** From an authorization in auto mode on. */
  function SendCleared(mode: SwitchMode, s: Stores, call: OrchCall, verdict: GateCall, env: Env): (Outcome, Stores)
    requires verdict.Authorized?
  {
    var check := ConfirmCheck(call.proposalId, env.sendNow, Human, None);
    var (confirmed, fsm) := SendFsm.Complete(mode, check, s.fsm, Accepted);
    if !confirmed.ConfirmDone? then (Errored, s.(fsm := fsm))
    else if env.startedFails then (RecordUnavailable, s.(fsm := fsm))
    else
      var row := Started(BindingOf(call, verdict), verdict.received, env.commitStart);
      SendStarted(mode, s.(fsm := fsm, records := s.records + [row]), call, verdict, env)
  }

  /** From the started row on. */
  function SendStarted(mode: SwitchMode, s: Stores, call: OrchCall, verdict: GateCall, env: Env): (Outcome, Stores)
    requires verdict.Authorized?
  {
    var (settled, fsm) := SendFsm.Complete(mode, DispatchCheck(call.proposalId, env.sendNow), s.fsm, env.result);
    if !settled.Settled? then (Errored, s.(fsm := fsm))
    else if env.completedFails then (Unattested(settled.status), s.(fsm := fsm))
    else
      var row := Completed(BindingOf(call, verdict), verdict.received, env.commitStart, env.responseComplete,
                           settled.status);
      (Reported(settled.status), s.(fsm := fsm, records := s.records + [row]))
  }

  // ----- what one call comes to -------------------------------------------------------

  /** The gate lets the call go on: an authorization that does not wait for approval. */
  predicate GoesOn(verdict: GateCall)
  {
    verdict.Authorized? && verdict.decision.disposition != "needs_approval"
  }

  /** What the caller is told of a verdict that ends the call. */
  function GateOutcome(verdict: GateCall): Outcome
  {
    if verdict.Denied? then RefusedSend else if verdict.Authorized? then PendingApproval else Errored
  }

  /** The proposal can be confirmed now. */
  predicate Sendable(st: FsmState, pid: string, now: int)
  {
    pid in st.proposals && st.proposals[pid].status.Pending? && 0 <= now < st.proposals[pid].expiresAt
  }

  /** After the confirmation of a sendable proposal. */
  function ConfirmedState(st: FsmState, pid: string, now: int): FsmState
    requires pid in st.proposals
  {
    var p := st.proposals[pid];
    FsmState(st.proposals[pid := p.(status := Confirmed)],
             st.ledger + [LedgerEvent(ProposalConfirmed, now, pid, Some(p.payloadDigest))], st.sends)
  }

  /** After the send as well: attempt row, sender call, settled status and its row. */
  function SentState(st: FsmState, pid: string, now: int, result: SendResult): FsmState
    requires pid in st.proposals
  {
    var p, confirmed := st.proposals[pid], ConfirmedState(st, pid, now);
    var (status, event) := SendRuns.Settlement(result);
    FsmState(confirmed.proposals[pid := p.(status := status)],
             confirmed.ledger + [LedgerEvent(SendAttempted, now, pid, Some(p.payloadDigest))] +
             [LedgerEvent(event, now, pid, None)],
             st.sends + [pid])
  }

  /** The rows bind decision, request, proposal and digest. */
  function SendBinding(s: Stores, pid: string, request: AuthorizationRequest, verdict: GateCall): Binding
    requires verdict.Authorized? && pid in s.fsm.proposals
  {
    Binding(verdict.decision.decisionId, request.requestId, pid, s.fsm.proposals[pid].payloadDigest)
  }

  /** From the authorization on: nothing is sent without its started row, and every send has one. */
  function AfterGoAhead(s: Stores, pid: string, request: AuthorizationRequest, verdict: GateCall, env: Env)
    : (Outcome, Stores)
    requires verdict.Authorized? && pid in s.fsm.proposals
  {
    if !Sendable(s.fsm, pid, env.sendNow) then (Errored, s)
    else if env.startedFails then (RecordUnavailable, s.(fsm := ConfirmedState(s.fsm, pid, env.sendNow)))
    else
      var b, status := SendBinding(s, pid, request, verdict), SendRuns.Settlement(env.result).0;
      var started := Started(b, verdict.received, env.commitStart);
      var completed := Completed(b, verdict.received, env.commitStart, env.responseComplete, status);
      var sent := s.(fsm := SentState(s.fsm, pid, env.sendNow, env.result));
      if env.completedFails then (Unattested(status), sent.(records := s.records + [started]))
      else (Reported(status), sent.(records := s.records + [started] + [completed]))
  }

  lemma ClearedIs(mode: SwitchMode, s: Stores, pid: string, request: AuthorizationRequest, verdict: GateCall, env: Env)
    requires verdict.Authorized? && verdict.ctx.request == request && pid in s.fsm.proposals
    ensures SendCleared(mode, s, OrchCall(pid, s.fsm.proposals[pid].payloadDigest, InGate), verdict, env) ==
            AfterGoAhead(s, pid, request, verdict, env)
  {
    SendRuns.ConfirmOutcome(mode, s.fsm, pid, env.sendNow, Human, None);
    if Sendable(s.fsm, pid, env.sendNow) {
      SendRuns.DispatchOutcome(mode, ConfirmedState(s.fsm, pid, env.sendNow), pid, env.sendNow, env.result);
    }
  }

  /**
   An uninterrupted `authorize_and_send`, exactly: it sends if and only if the proposal exists, the gate
   authorizes its digest without asking for approval, the proposal is pending and not expired, and the
   started row is written; and it leaves the status, ledger and records that say so.
   */
  lemma SoloOutcome(logic: GateLogic, mode: SwitchMode, s: Stores, pid: string, request: AuthorizationRequest, env: Env)
    ensures SendSolo(logic, mode, s, pid, request, env) ==
            if pid !in s.fsm.proposals then (Errored, s)
            else
              var ctx := CallContext(request, s.fsm.proposals[pid].payloadDigest, env.gateNow);
              var (verdict, gate) := GateMachine.Complete(logic, Syncing(ctx), s.gate, env.input);
              if GoesOn(verdict) then AfterGoAhead(s.(gate := gate), pid, request, verdict, env)
              else (GateOutcome(verdict), s.(gate := gate))
  {
    if pid in s.fsm.proposals {
      var ctx := CallContext(request, s.fsm.proposals[pid].payloadDigest, env.gateNow);
      var (verdict, gate) := GateMachine.Complete(logic, Syncing(ctx), s.gate, env.input);
      if GoesOn(verdict) {
        ClearedIs(mode, s.(gate := gate), pid, request, verdict, env);
      }
    }
  }

  // ----- the objects ------------------------------------------------------------------

  class DispatchRecordLog {
    var rows: seq<DispatchRow>

    constructor ()
      ensures rows == []
    {
      rows := [];
    }

    method RecordStarted(b: Binding, received: int, commitStart: int, fails: bool) returns (ok: bool)
      modifies this
      ensures ok == !fails && rows == if ok then old(rows) + [Started(b, received, commitStart)] else old(rows)
    {
      if fails {
        return false;
      }
      rows := rows + [Started(b, received, commitStart)];
      return true;
    }

    method RecordCompleted(b: Binding, received: int, commitStart: int, responseComplete: int, terminal: ProposalStatus,
                           fails: bool)
      returns (ok: bool)
      modifies this
      ensures ok == !fails
      ensures rows == if ok then old(rows) + [Completed(b, received, commitStart, responseComplete, terminal)]
                      else old(rows)
    {
      if fails {
        return false;
      }
      rows := rows + [Completed(b, received, commitStart, responseComplete, terminal)];
      return true;
    }
  }

  class AuthorizedGmailSend {
    const gate: AuthorizationGate
    const fsm: SendFSM
    const records: DispatchRecordLog

    constructor (gate: AuthorizationGate, fsm: SendFSM, records: DispatchRecordLog)
      ensures this.gate == gate && this.fsm == fsm && this.records == records
    {
      this.gate, this.fsm, this.records := gate, fsm, records;
    }

    ghost function State(): Stores
      reads gate, gate.requestConsumer, gate.decisionConsumer, gate.highWater, fsm, records
    {
      Stores(gate.State(), fsm.State(), records.rows)
    }

    /** `authorize_and_send`. */
    method AuthorizeAndSend(pid: string, request: AuthorizationRequest, env: Env) returns (r: Outcome)
      requires gate.Valid()
      modifies gate, gate.requestConsumer, gate.decisionConsumer, gate.highWater, fsm, records
      ensures (r, State()) == SendSolo(LogicOf(gate.cfg), fsm.mode, old(State()), pid, request, env)
    {
      if pid !in fsm.proposals {
        return Errored;
      }
      var digest := fsm.proposals[pid].payloadDigest;
      var verdict := gate.Authorize(request, digest, env.gateNow, env.input);
      if verdict.Denied? {
        return RefusedSend;
      }
      if !verdict.Authorized? {
        return Errored;
      }
      if verdict.decision.disposition == NEEDS_APPROVAL {
        return PendingApproval;
      }
      r := ConfirmAndRecord(OrchCall(pid, digest, InGate), verdict, env);
    }

    method ConfirmAndRecord(call: OrchCall, verdict: GateCall, env: Env) returns (r: Outcome)
      requires verdict.Authorized?
      modifies fsm, records
      ensures (r, State()) == SendCleared(fsm.mode, old(State()), call, verdict, env)
    {
      var confirmed := fsm.Confirm(call.proposalId, Human, env.sendNow, None);
      if !confirmed.ConfirmDone? {
        return Errored;
      }
      var b := BindingOf(call, verdict);
      var started := records.RecordStarted(b, verdict.received, env.commitStart, env.startedFails);
      if !started {
        return RecordUnavailable;
      }
      var settled := fsm.Dispatch(call.proposalId, env.sendNow, env.result);
      if !settled.Settled? {
        return Errored;
      }
      var completed := records.RecordCompleted(b, verdict.received, env.commitStart, env.responseComplete,
                                               settled.status,
                                               env.completedFails);
      return if completed then Reported(settled.status) else Unattested(settled.status);
    }
  }

  // ----- find -------------------------------------------------------------------------

  /** `find` returns exactly the rows that bind, as often as they were written; with a blank key, none. */
  lemma {:induction false} FindIsExact(rows: seq<DispatchRow>, pid: string, requestId: string, digest: string,
                                       row: DispatchRow)
    ensures multiset(Find(rows, pid, requestId, digest))[row] ==
            if pid != "" && requestId != "" && digest != "" && row.binding.proposalId == pid &&
               row.binding.requestId == requestId && row.binding.actionDigest == digest
            then multiset(rows)[row] else 0
  {
    if NoBlank(pid, requestId, digest) && rows != [] {
      var init, last := rows[..|rows| - 1], rows[|rows| - 1];
      FindIsExact(init, pid, requestId, digest, row);
      assert rows == init + [last];
      assert multiset(rows) == multiset(init) + multiset{last};
      var rest := Find(init, pid, requestId, digest);
      assert multiset(rest + [last]) == multiset(rest) + multiset{last};
    }
  }

  /** `find` keeps the order in which rows were written. */
  lemma {:induction false} FindKeepsOrder(a: seq<DispatchRow>, b: seq<DispatchRow>, pid: string, requestId: string,
                                          digest: string)
    ensures Find(a + b, pid, requestId, digest) == Find(a, pid, requestId, digest) + Find(b, pid, requestId, digest)
  {
    if b == [] {
      assert a + b == a;
    } else {
      var init := b[..|b| - 1];
      FindKeepsOrder(a, init, pid, requestId, digest);
      assert (a + b)[..|a + b| - 1] == a + init && (a + b)[|a + b| - 1] == b[|b| - 1];
    }
  }
}
