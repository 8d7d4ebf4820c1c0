/**
 The send state machine of sendfsm/fsm.py, one store or ledger write (or the sender call) per step,
 and `ConfirmDispatcher` of gateway/send_path.py on top of it.
 */
module SendFsm {
  import opened Wrappers
  import opened ProposalRecords

  datatype Actor = Human | AutoUnreachable

  datatype SwitchMode = ConfirmThenSend | AutoSendWhenAgentUnreachable

  /** What the sender reports, or that it raised. */
  datatype SendResult = Accepted | Rejected | Indeterminate | SenderRaised

  datatype EventType =
    | ProposalConfirmed | ProposalExpired | SendAttempted | SendSucceeded | SendFailed | SendOutcomeUnknown

  datatype LedgerEvent = LedgerEvent(event: EventType, at: int, proposalId: string, payloadDigest: Option<string>)

  datatype FsmError =
    | NotFound | BadClock | ProposalExpiredError | IllegalTransition | AutoSendNotEnabled | AgentUnreachableRequired
    | NoAutoRetry | AlreadySettled | LedgerRefused

  /** `sends` logs the calls of the sender. */
  datatype FsmState = FsmState(proposals: map<string, Proposal>, ledger: seq<LedgerEvent>, sends: seq<string>)

  datatype FsmPc =
    | ConfirmCheck(pid: string, now: int, actor: Actor, agentReachable: Option<bool>)
    | ConfirmWrite(pid: string, now: int, digest: string)
    | ConfirmLog(pid: string, now: int, digest: string)
    | ConfirmDone(pid: string, now: int)
    | DispatchCheck(pid: string, now: int)
    | Attempting(pid: string, now: int, digest: string)
    | Sending(pid: string, now: int)
    | Settling(pid: string, now: int, result: SendResult)
    | SettleLog(pid: string, now: int, result: SendResult)
    | Settled(pid: string, now: int, status: ProposalStatus)
    | ExpireCheck(pid: string, now: int)
    | ExpireWrite(pid: string, now: int)
    | ExpireLog(pid: string, now: int)
    | Raised(pid: string, now: int, error: FsmError)
  {
    predicate Ended() { ConfirmDone? || Settled? || Raised? }

    function Rank(): nat
    {
      match this
      case DispatchCheck(_, _) => 5
      case Attempting(_, _, _) => 4
      case ConfirmCheck(_, _, _, _) => 3
      case Sending(_, _) => 3
      case ExpireCheck(_, _) => 3
      case ConfirmWrite(_, _, _) => 2
      case Settling(_, _, _) => 2
      case ExpireWrite(_, _) => 2
      case ConfirmLog(_, _, _) => 1
      case SettleLog(_, _, _) => 1
      case ExpireLog(_, _) => 1
      case _ => 0
    }
  }

  /** The stages of `confirm`. */
  predicate ConfirmStage(pc: FsmPc)
  {
    pc.ConfirmCheck? || pc.ConfirmWrite? || pc.ConfirmLog?
  }

  /** The stages of `dispatch`. */
  predicate DispatchStage(pc: FsmPc)
  {
    pc.DispatchCheck? || pc.Attempting? || pc.Sending? || pc.Settling? || pc.SettleLog?
  }

  function SettledStatus(r: SendResult): ProposalStatus
  {
    match r
    case Accepted => Sent
    case Rejected => Failed
    case _ => OutcomeUnknown
  }

  function SettledEvent(r: SendResult): EventType
  {
    match r
    case Accepted => SendSucceeded
    case Rejected => SendFailed
    case _ => SendOutcomeUnknown
  }

  /** `set_status`. */
  function WithStatus(st: FsmState, pid: string, status: ProposalStatus): FsmState
  {
    if pid in st.proposals then st.(proposals := st.proposals[pid := st.proposals[pid].(status := status)]) else st
  }

  function CheckConfirm(mode: SwitchMode, st: FsmState, pid: string, now: int, actor: Actor,
                        reachable: Option<bool>): FsmPc
  {
    if pid !in st.proposals then Raised(pid, now, NotFound)
    else
      var p := st.proposals[pid];
      if now < 0 then Raised(pid, now, BadClock)
      else if !IsLive(p, now) then Raised(pid, now, ProposalExpiredError)
      else if !p.status.Pending? then Raised(pid, now, IllegalTransition)
      else if actor.AutoUnreachable? && !mode.AutoSendWhenAgentUnreachable? then Raised(pid, now, AutoSendNotEnabled)
      else if actor.AutoUnreachable? && reachable != Some(false) then Raised(pid, now, AgentUnreachableRequired)
      else ConfirmWrite(pid, now, p.payloadDigest)
  }

  function CheckDispatch(st: FsmState, pid: string, now: int): FsmPc
  {
    if pid !in st.proposals then Raised(pid, now, NotFound)
    else
      var p := st.proposals[pid];
      match p.status
      case OutcomeUnknown => Raised(pid, now, NoAutoRetry)
      case Sent => Raised(pid, now, AlreadySettled)
      case Failed => Raised(pid, now, AlreadySettled)
      case Pending => Raised(pid, now, IllegalTransition)
      case Confirmed => Attempting(pid, now, p.payloadDigest)
  }

  function CheckExpire(st: FsmState, pid: string, now: int): FsmPc
  {
    if pid !in st.proposals then Raised(pid, now, NotFound)
    else if !st.proposals[pid].status.Pending? || now < st.proposals[pid].expiresAt then
      Raised(pid, now, IllegalTransition)
    else ExpireWrite(pid, now)
  }

  /** `ledger.record`, and where the call goes once the row is in. */
  function Record(st: FsmState, e: LedgerEvent, next: FsmPc): (FsmPc, FsmState)
  {
    if e.at < 0 then (Raised(next.pid, next.now, LedgerRefused), st)
    else (next, st.(ledger := st.ledger + [e]))
  }

  function FsmStep(mode: SwitchMode, pc: FsmPc, st: FsmState, result: SendResult): (r: (FsmPc, FsmState))
    ensures r.0.pid == pc.pid
    ensures !pc.Ended() ==> r.0.Rank() < pc.Rank()
  {
    match pc
    case ConfirmCheck(pid, now, actor, reachable) => (CheckConfirm(mode, st, pid, now, actor, reachable), st)
    case ConfirmWrite(pid, now, digest) => (ConfirmLog(pid, now, digest), WithStatus(st, pid, Confirmed))
    case ConfirmLog(pid, now, digest) =>
      Record(st, LedgerEvent(ProposalConfirmed, now, pid, Some(digest)), ConfirmDone(pid, now))
    case DispatchCheck(pid, now) => (CheckDispatch(st, pid, now), st)
    case Attempting(pid, now, digest) =>
      Record(st, LedgerEvent(SendAttempted, now, pid, Some(digest)), Sending(pid, now))
    case Sending(pid, now) => (Settling(pid, now, result), st.(sends := st.sends + [pid]))
    case Settling(pid, now, outcome) => (SettleLog(pid, now, outcome), WithStatus(st, pid, SettledStatus(outcome)))
    case SettleLog(pid, now, outcome) =>
      Record(st, LedgerEvent(SettledEvent(outcome), now, pid, None), Settled(pid, now, SettledStatus(outcome)))
    case ExpireCheck(pid, now) => (CheckExpire(st, pid, now), st)
    case ExpireWrite(pid, now) => (ExpireLog(pid, now), WithStatus(st, pid, Failed))
    case ExpireLog(pid, now) => Record(st, LedgerEvent(ProposalExpired, now, pid, None), Settled(pid, now, Failed))
    case _ => (pc, st)
  }

  function Complete(mode: SwitchMode, pc: FsmPc, st: FsmState, result: SendResult): (r: (FsmPc, FsmState))
    ensures r.0.Ended()
    decreases pc.Rank()
  {
    if pc.Ended() then (pc, st)
    else
      var (pc', st') := FsmStep(mode, pc, st, result);
      Complete(mode, pc', st', result)
  }

  lemma StepFirst(mode: SwitchMode, pc: FsmPc, st: FsmState, result: SendResult)
    requires !pc.Ended()
    ensures var (pc', st') := FsmStep(mode, pc, st, result);
            Complete(mode, pc, st, result) == Complete(mode, pc', st', result)
  {
  }

  // ----- the class --------------------------------------------------------------------

  class SendFSM {
    const mode: SwitchMode
    var proposals: map<string, Proposal>
    var ledger: seq<LedgerEvent>
    ghost var sends: seq<string>

    ghost function State(): FsmState
      reads this
    {
      FsmState(proposals, ledger, sends)
    }

    constructor (mode: SwitchMode, proposals: map<string, Proposal>)
      ensures this.mode == mode && State() == FsmState(proposals, [], [])
    {
      this.mode, this.proposals, ledger, sends := mode, proposals, [], [];
    }

    /** `set_status`: false is the ProposalNotFoundError of a missing proposal. */
    method SetStatus(pid: string, status: ProposalStatus) returns (ok: bool)
      modifies this
      ensures ok == (pid in old(proposals))
      ensures State() == WithStatus(old(State()), pid, status)
    {
      if pid !in proposals {
        return false;
      }
      proposals := proposals[pid := proposals[pid].(status := status)];
      return true;
    }

    method RecordEvent(event: EventType, at: int, pid: string, digest: Option<string>) returns (ok: bool)
      modifies this
      ensures ok == (at >= 0)
      ensures State() == if ok then old(State()).(ledger := old(ledger) + [LedgerEvent(event, at, pid, digest)])
                         else old(State())
    {
      if at < 0 {
        return false;
      }
      ledger := ledger + [LedgerEvent(event, at, pid, digest)];
      return true;
    }

    /** `confirm`: PENDING to CONFIRMED, by a human or on the auto-unreachable path. */
    method Confirm(pid: string, actor: Actor, now: int, agentReachable: Option<bool>) returns (r: FsmPc)
      modifies this
      ensures (r, State()) == Complete(mode, ConfirmCheck(pid, now, actor, agentReachable), old(State()), Accepted)
    {
      StepFirst(mode, ConfirmCheck(pid, now, actor, agentReachable), State(), Accepted);
      if pid !in proposals {
        return Raised(pid, now, NotFound);
      }
      var p := proposals[pid];
      if now < 0 {
        return Raised(pid, now, BadClock);
      }
      if !IsLive(p, now) {
        return Raised(pid, now, ProposalExpiredError);
      }
      if !p.status.Pending? {
        return Raised(pid, now, IllegalTransition);
      }
      if actor.AutoUnreachable? {
        if !mode.AutoSendWhenAgentUnreachable? {
          return Raised(pid, now, AutoSendNotEnabled);
        }
        if agentReachable != Some(false) {
          return Raised(pid, now, AgentUnreachableRequired);
        }
      }
      StepFirst(mode, ConfirmWrite(pid, now, p.payloadDigest), State(), Accepted);
      var _ := SetStatus(pid, Confirmed);
      StepFirst(mode, ConfirmLog(pid, now, p.payloadDigest), State(), Accepted);
      var ok := RecordEvent(ProposalConfirmed, now, pid, Some(p.payloadDigest));
      return if ok then ConfirmDone(pid, now) else Raised(pid, now, LedgerRefused);
    }

    /** `dispatch`: CONFIRMED to a settled status; `result` is what the sender will report. */
    method Dispatch(pid: string, now: int, result: SendResult) returns (r: FsmPc)
      modifies this
      ensures (r, State()) == Complete(mode, DispatchCheck(pid, now), old(State()), result)
    {
      StepFirst(mode, DispatchCheck(pid, now), State(), result);
      if pid !in proposals {
        return Raised(pid, now, NotFound);
      }
      var p := proposals[pid];
      if p.status.OutcomeUnknown? {
        return Raised(pid, now, NoAutoRetry);
      }
      if p.status.Sent? || p.status.Failed? {
        return Raised(pid, now, AlreadySettled);
      }
      if !p.status.Confirmed? {
        return Raised(pid, now, IllegalTransition);
      }
      StepFirst(mode, Attempting(pid, now, p.payloadDigest), State(), result);
      var attempted := RecordEvent(SendAttempted, now, pid, Some(p.payloadDigest));
      if !attempted {
        return Raised(pid, now, LedgerRefused);
      }
      StepFirst(mode, Sending(pid, now), State(), result);
      sends := sends + [pid];
      if result.SenderRaised? || result.Indeterminate? {
        r := SettleUnknown(pid, now, result);
      } else {
        r := SettleReported(pid, now, result);
      }
    }

    /** The sender reported acceptance or rejection. */
    method SettleReported(pid: string, now: int, result: SendResult) returns (r: FsmPc)
      requires result.Accepted? || result.Rejected?
      modifies this
      ensures (r, State()) == Complete(mode, Settling(pid, now, result), old(State()), result)
    {
      StepFirst(mode, Settling(pid, now, result), State(), result);
      var status := if result.Accepted? then Sent else Failed;
      var _ := SetStatus(pid, status);
      StepFirst(mode, SettleLog(pid, now, result), State(), result);
      var ok := RecordEvent(if result.Accepted? then SendSucceeded else SendFailed, now, pid, None);
      return if ok then Settled(pid, now, status) else Raised(pid, now, LedgerRefused);
    }

    method SettleUnknown(pid: string, now: int, result: SendResult) returns (r: FsmPc)
      requires result.SenderRaised? || result.Indeterminate?
      modifies this
      ensures (r, State()) == Complete(mode, Settling(pid, now, result), old(State()), result)
    {
      StepFirst(mode, Settling(pid, now, result), State(), result);
      var _ := SetStatus(pid, OutcomeUnknown);
      StepFirst(mode, SettleLog(pid, now, result), State(), result);
      var ok := RecordEvent(SendOutcomeUnknown, now, pid, None);
      return if ok then Settled(pid, now, OutcomeUnknown) else Raised(pid, now, LedgerRefused);
    }

    /** `expire`: a PENDING proposal past its expiry becomes FAILED. */
    method Expire(pid: string, now: int) returns (r: FsmPc)
      modifies this
      ensures (r, State()) == Complete(mode, ExpireCheck(pid, now), old(State()), Accepted)
    {
      StepFirst(mode, ExpireCheck(pid, now), State(), Accepted);
      if pid !in proposals {
        return Raised(pid, now, NotFound);
      }
      if !proposals[pid].status.Pending? || now < proposals[pid].expiresAt {
        return Raised(pid, now, IllegalTransition);
      }
      StepFirst(mode, ExpireWrite(pid, now), State(), Accepted);
      var _ := SetStatus(pid, Failed);
      StepFirst(mode, ExpireLog(pid, now), State(), Accepted);
      var ok := RecordEvent(ProposalExpired, now, pid, None);
      return if ok then Settled(pid, now, Failed) else Raised(pid, now, LedgerRefused);
    }

    /** `ConfirmDispatcher.confirm_and_dispatch`. */
    method ConfirmAndDispatch(pid: string, now: int, result: SendResult) returns (r: FsmPc)
      modifies this
      ensures var (confirmed, st) := Complete(mode, ConfirmCheck(pid, now, Human, None), old(State()), Accepted);
              (r, State()) ==
              if confirmed.ConfirmDone? then Complete(mode, DispatchCheck(pid, now), st, result) else (confirmed, st)
    {
      r := Confirm(pid, Human, now, None);
      if r.ConfirmDone? {
        r := Dispatch(pid, now, result);
      }
    }
  }
}
