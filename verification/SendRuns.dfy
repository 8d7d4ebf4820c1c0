/** Runs of the send machine: at-most-once sending across crashes, and a status that replays from the ledger. */
module SendRuns {
  import opened Wrappers
  import opened ProposalRecords
  import opened SendFsm

  // ----- confirm_and_dispatch, cut short anywhere -------------------------------------

  /** One step of `confirm_and_dispatch`: once confirmed, go on to dispatch. */
  function DriveStep(mode: SwitchMode, pc: FsmPc, st: FsmState, result: SendResult): (FsmPc, FsmState)
  {
    if pc.ConfirmDone? then (DispatchCheck(pc.pid, pc.now), st) else FsmStep(mode, pc, st, result)
  }

  function Iterate<S>(step: S -> S, s: S, n: nat): S
  {
    if n == 0 then s else step(Iterate(step, s, n - 1))
  }

  lemma {:induction false} IterateAdds<S>(step: S -> S, s: S, m: nat, n: nat)
    ensures Iterate(step, s, m + n) == Iterate(step, Iterate(step, s, m), n)
  {
    if n > 0 {
      IterateAdds(step, s, m, n - 1);
    }
  }

  function Driver(mode: SwitchMode, result: SendResult): ((FsmPc, FsmState)) -> (FsmPc, FsmState)
  {
    (c: (FsmPc, FsmState)) => DriveStep(mode, c.0, c.1, result)
  }

  /** The first `n` steps of a call; a crash is a call cut at some `n`. */
  function Cut(mode: SwitchMode, pc: FsmPc, st: FsmState, result: SendResult, n: nat): (FsmPc, FsmState)
  {
    Iterate(Driver(mode, result), (pc, st), n)
  }

  lemma CutNext(mode: SwitchMode, pc: FsmPc, st: FsmState, result: SendResult, n: nat)
    ensures Cut(mode, pc, st, result, 0) == (pc, st)
    ensures var (pc', st') := Cut(mode, pc, st, result, n);
            Cut(mode, pc, st, result, n + 1) == DriveStep(mode, pc', st', result)
  {
  }

  datatype Drive =
    | ConfirmAndDispatch(pid: string, now: int, result: SendResult, steps: nat)
    | Expire(pid: string, now: int, steps: nat)
    | Create(proposal: Proposal)

  function DriveCall(mode: SwitchMode, st: FsmState, call: Drive): FsmState
  {
    match call
    case ConfirmAndDispatch(pid, now, result, steps) =>
      Cut(mode, ConfirmCheck(pid, now, Human, None), st, result, steps).1
    case Expire(pid, now, steps) => Cut(mode, ExpireCheck(pid, now), st, Accepted, steps).1
    case Create(p) => if p.proposalId in st.proposals then st else st.(proposals := st.proposals[p.proposalId := p])
  }

  function DriveAll(mode: SwitchMode, st: FsmState, calls: seq<Drive>): FsmState
  {
    if calls == [] then st else DriveCall(mode, DriveAll(mode, st, calls[..|calls| - 1]), calls[|calls| - 1])
  }

  function SendCount(st: FsmState, pid: string): nat
  {
    multiset(st.sends)[pid]
  }

  /** PENDING is never re-entered, and only the sending step calls the sender. */
  lemma StepEffect(mode: SwitchMode, pc: FsmPc, st: FsmState, result: SendResult)
    ensures var st' := DriveStep(mode, pc, st, result).1;
            && st'.sends == (if pc.Sending? then st.sends + [pc.pid] else st.sends)
            && st'.proposals.Keys == st.proposals.Keys
            && (forall pid | pid in st.proposals &&
                st'.proposals[pid].status.Pending? :: st.proposals[pid].status.Pending?)
  {
  }

  lemma CountAppended(sends: seq<string>, sent: string, pid: string)
    ensures multiset(sends + [sent])[pid] == multiset(sends)[pid] + if pid == sent then 1 else 0
  {
    assert multiset(sends + [sent]) == multiset(sends) + multiset{sent};
  }

  /**
   The bound is the driver's, not `dispatch`'s: after a crash between the sender call and the status
   write, a bare `dispatch` sends again. It sends exactly when it finds the proposal CONFIRMED.
   */
  lemma BareDispatchResends(mode: SwitchMode, st: FsmState, pid: string, now: int, result: SendResult)
    requires pid in st.proposals && st.proposals[pid].status.Confirmed? && now >= 0
    ensures var crashed := Cut(mode, DispatchCheck(pid, now), st, result, 3).1;
            SendCount(Complete(mode, DispatchCheck(pid, now), crashed, result).1, pid) == SendCount(st, pid) + 2
  {
    var digest := st.proposals[pid].payloadDigest;
    var logged := st.(ledger := st.ledger + [LedgerEvent(SendAttempted, now, pid, Some(digest))]);
    var crashed := logged.(sends := st.sends + [pid]);
    CutNext(mode, DispatchCheck(pid, now), st, result, 0);
    assert Cut(mode, DispatchCheck(pid, now), st, result, 1) == (Attempting(pid, now, digest), st);
    CutNext(mode, DispatchCheck(pid, now), st, result, 1);
    assert Cut(mode, DispatchCheck(pid, now), st, result, 2) == (Sending(pid, now), logged);
    CutNext(mode, DispatchCheck(pid, now), st, result, 2);
    assert Cut(mode, DispatchCheck(pid, now), st, result, 3) == (Settling(pid, now, result), crashed);
    DispatchSendsIffConfirmed(mode, crashed, pid, now, result);
  }

  lemma DispatchSendsIffConfirmed(mode: SwitchMode, st: FsmState, pid: string, now: int, result: SendResult)
    requires now >= 0
    ensures var sends := Complete(mode, DispatchCheck(pid, now), st, result).1.sends;
            sends == if pid in st.proposals && st.proposals[pid].status.Confirmed? then st.sends + [pid] else st.sends
  {
    DispatchOutcome(mode, st, pid, now, result);
  }

  // ----- an uncut call ----------------------------------------------------------------

  lemma CutThenCut(mode: SwitchMode, pc: FsmPc, st: FsmState, result: SendResult, m: nat, mid: (FsmPc, FsmState), n: nat)
    requires Cut(mode, pc, st, result, m) == mid
    ensures Cut(mode, pc, st, result, m + n) == Cut(mode, mid.0, mid.1, result, n)
  {
    IterateAdds(Driver(mode, result), (pc, st), m, n);
  }

  lemma StepThenCut(mode: SwitchMode, pc: FsmPc, st: FsmState, result: SendResult, next: (FsmPc, FsmState), n: nat)
    requires DriveStep(mode, pc, st, result) == next
    ensures Cut(mode, pc, st, result, 1 + n) == Cut(mode, next.0, next.1, result, n)
  {
    CutNext(mode, pc, st, result, 0);
    CutThenCut(mode, pc, st, result, 1, next, n);
  }

  lemma {:induction false} CutCompletes(mode: SwitchMode, pc: FsmPc, st: FsmState, result: SendResult) returns (n: nat)
    ensures Cut(mode, pc, st, result, n) == Complete(mode, pc, st, result)
    decreases pc.Rank()
  {
    if pc.Ended() {
      n := 0;
    } else {
      var next := FsmStep(mode, pc, st, result);
      StepFirst(mode, pc, st, result);
      var k := CutCompletes(mode, next.0, next.1, result);
      StepThenCut(mode, pc, st, result, next, k);
      n := 1 + k;
    }
  }

  lemma ConfirmIgnoresSender(mode: SwitchMode, st: FsmState, pid: string, now: int, result: SendResult)
    ensures Complete(mode, ConfirmCheck(pid, now, Human, None), st, result) ==
            Complete(mode, ConfirmCheck(pid, now, Human, None), st, Accepted)
  {
    StepFirst(mode, ConfirmCheck(pid, now, Human, None), st, result);
    StepFirst(mode, ConfirmCheck(pid, now, Human, None), st, Accepted);
    var pc := CheckConfirm(mode, st, pid, now, Human, None);
    if pc.ConfirmWrite? {
      var _ := ConfirmWrites(mode, st, pc, result);
      var _ := ConfirmWrites(mode, st, pc, Accepted);
    }
  }

  /** What `ConfirmAndDispatch` does to the state is a drive that is not cut short. */
  lemma WholeCallIsADrive(mode: SwitchMode, st: FsmState, pid: string, now: int, result: SendResult) returns (n: nat)
    ensures var (confirmed, st') := Complete(mode, ConfirmCheck(pid, now, Human, None), st, Accepted);
            DriveCall(mode, st, ConfirmAndDispatch(pid, now, result, n)) ==
            if confirmed.ConfirmDone? then Complete(mode, DispatchCheck(pid, now), st', result).1 else st'
  {
    var start := ConfirmCheck(pid, now, Human, None);
    ConfirmIgnoresSender(mode, st, pid, now, result);
    ConfirmOutcome(mode, st, pid, now, Human, None);
    var (confirmed, st') := Complete(mode, start, st, Accepted);
    n := CutCompletes(mode, start, st, result);
    if confirmed.ConfirmDone? {
      n := DispatchFollows(mode, start, st, result, n, pid, now, st');
    }
  }

  lemma DispatchFollows(mode: SwitchMode, pc: FsmPc, st: FsmState, result: SendResult, m: nat, pid: string, now: int,
                        st': FsmState)
    returns (n: nat)
    requires Cut(mode, pc, st, result, m) == (ConfirmDone(pid, now), st')
    ensures Cut(mode, pc, st, result, n) == Complete(mode, DispatchCheck(pid, now), st', result)
  {
    var k := CutCompletes(mode, DispatchCheck(pid, now), st', result);
    StepThenCut(mode, ConfirmDone(pid, now), st', result, (DispatchCheck(pid, now), st'), k);
    CutThenCut(mode, pc, st, result, m, (ConfirmDone(pid, now), st'), 1 + k);
    n := m + (1 + k);
  }

  // ----- what a completed call does ---------------------------------------------------

  function Logged(st: FsmState, e: LedgerEvent): FsmState
  {
    st.(ledger := st.ledger + [e])
  }

  /** The same state but for the status of this proposal. */
  function Restatused(st: FsmState, pid: string, status: ProposalStatus): FsmState
    requires pid in st.proposals
  {
    st.(proposals := st.proposals[pid := st.proposals[pid].(status := status)])
  }

  /** Confirmation is due: a pending proposal before its expiry, by a human or on the path of an unreachable agent. */
  predicate Confirmable(mode: SwitchMode, st: FsmState, pid: string, now: int, actor: Actor, reachable: Option<bool>)
  {
    && pid in st.proposals && st.proposals[pid].status.Pending? && 0 <= now < st.proposals[pid].expiresAt
    && (actor.AutoUnreachable? ==> mode.AutoSendWhenAgentUnreachable? && reachable == Some(false))
  }

  /** Why a confirm is refused, in the order of the checks. */
  function ConfirmError(mode: SwitchMode, st: FsmState, pid: string, now: int, actor: Actor): FsmError
  {
    if pid !in st.proposals then NotFound
    else if now < 0 then BadClock
    else if st.proposals[pid].status in {Pending, Confirmed} && now >= st.proposals[pid].expiresAt
    then ProposalExpiredError
    else if st.proposals[pid].status != Pending then IllegalTransition
    else if actor == AutoUnreachable && mode != AutoSendWhenAgentUnreachable then AutoSendNotEnabled
    else AgentUnreachableRequired
  }

  /** A confirm succeeds exactly when it is due, and then writes the status and a row; otherwise it changes nothing. */
  lemma ConfirmOutcome(mode: SwitchMode, st: FsmState, pid: string, now: int, actor: Actor, reachable: Option<bool>)
    ensures var (pc, st') := Complete(mode, ConfirmCheck(pid, now, actor, reachable), st, Accepted);
            if Confirmable(mode, st, pid, now, actor, reachable) then
              && pc == ConfirmDone(pid, now)
              && st' == Logged(Restatused(st, pid, Confirmed),
                               LedgerEvent(ProposalConfirmed, now, pid, Some(st.proposals[pid].payloadDigest)))
            else pc == Raised(pid, now, ConfirmError(mode, st, pid, now, actor)) && st' == st
  {
    StepFirst(mode, ConfirmCheck(pid, now, actor, reachable), st, Accepted);
    var pc := CheckConfirm(mode, st, pid, now, actor, reachable);
    if pc.ConfirmWrite? {
      StepFirst(mode, pc, st, Accepted);
      var st1 := WithStatus(st, pid, Confirmed);
      StepFirst(mode, ConfirmLog(pid, now, pc.digest), st1, Accepted);
    }
  }

  lemma SettlingOutcome(mode: SwitchMode, st: FsmState, pid: string, now: int, result: SendResult)
    requires now >= 0
    ensures Complete(mode, Settling(pid, now, result), st, result) ==
            (Settled(pid, now, SettledStatus(result)),
             Logged(WithStatus(st, pid, SettledStatus(result)), LedgerEvent(SettledEvent(result), now, pid, None)))
  {
    StepFirst(mode, Settling(pid, now, result), st, result);
    StepFirst(mode, SettleLog(pid, now, result), WithStatus(st, pid, SettledStatus(result)), result);
  }

  lemma AttemptingOutcome(mode: SwitchMode, st: FsmState, pid: string, now: int, digest: string, result: SendResult)
    requires now >= 0
    ensures var attempted := Logged(st, LedgerEvent(SendAttempted, now, pid, Some(digest)));
            Complete(mode, Attempting(pid, now, digest), st, result) ==
            Complete(mode, Settling(pid, now, result), attempted.(sends := st.sends + [pid]), result)
  {
    StepFirst(mode, Attempting(pid, now, digest), st, result);
    StepFirst(mode, Sending(pid, now), Logged(st, LedgerEvent(SendAttempted, now, pid, Some(digest))), result);
  }

  /** What a report of the sender is settled as, and the row that says so. */
  function Settlement(result: SendResult): (ProposalStatus, EventType)
  {
    match result
    case Accepted => (Sent, SendSucceeded)
    case Rejected => (Failed, SendFailed)
    case Indeterminate => (OutcomeUnknown, SendOutcomeUnknown)
    case SenderRaised => (OutcomeUnknown, SendOutcomeUnknown)
  }

  /** The state a dispatch leaves that called the sender: an attempt row, the call, the status and the outcome row. */
  function AfterSend(st: FsmState, pid: string, now: int, digest: string, result: SendResult): FsmState
    requires pid in st.proposals
  {
    var (status, event) := Settlement(result);
    Restatused(st, pid, status).(
      sends := st.sends + [pid],
      ledger := st.ledger + [LedgerEvent(SendAttempted, now, pid, Some(digest))] + [LedgerEvent(event, now, pid, None)])
  }

  /** Why a dispatch is refused. */
  function DispatchError(st: FsmState, pid: string): FsmError
  {
    if pid !in st.proposals then NotFound
    else
      match st.proposals[pid].status
      case OutcomeUnknown => NoAutoRetry
      case Sent => AlreadySettled
      case Failed => AlreadySettled
      case Pending => IllegalTransition
      case Confirmed => LedgerRefused
  }

  /** A dispatch sends exactly a confirmed proposal, and settles it as reported; otherwise it changes nothing. */
  lemma DispatchOutcome(mode: SwitchMode, st: FsmState, pid: string, now: int, result: SendResult)
    ensures var (pc, st') := Complete(mode, DispatchCheck(pid, now), st, result);
            if now >= 0 && pid in st.proposals && st.proposals[pid].status.Confirmed? then
              && pc == Settled(pid, now, Settlement(result).0)
              && st' == AfterSend(st, pid, now, st.proposals[pid].payloadDigest, result)
            else pc == Raised(pid, now, DispatchError(st, pid)) && st' == st
  {
    StepFirst(mode, DispatchCheck(pid, now), st, result);
    var pc := CheckDispatch(st, pid, now);
    if pc.Attempting? {
      var attempted := Logged(st, LedgerEvent(SendAttempted, now, pid, Some(pc.digest)));
      if now >= 0 {
        AttemptingOutcome(mode, st, pid, now, pc.digest, result);
        SettlingOutcome(mode, attempted.(sends := st.sends + [pid]), pid, now, result);
      } else {
        StepFirst(mode, pc, st, result);
      }
    }
  }

  /** A pending proposal past its expiry fails, with its row; any other expire changes nothing. */
  lemma ExpireOutcome(mode: SwitchMode, st: FsmState, pid: string, now: int)
    requires pid in st.proposals ==> st.proposals[pid].expiresAt > 0
    ensures var (pc, st') := Complete(mode, ExpireCheck(pid, now), st, Accepted);
            if pid in st.proposals && st.proposals[pid].status.Pending? && now >= st.proposals[pid].expiresAt then
              && pc == Settled(pid, now, Failed)
              && st' == Logged(Restatused(st, pid, Failed), LedgerEvent(ProposalExpired, now, pid, None))
            else pc == Raised(pid, now, if pid in st.proposals then IllegalTransition else NotFound) && st' == st
  {
    StepFirst(mode, ExpireCheck(pid, now), st, Accepted);
    var pc := CheckExpire(st, pid, now);
    if pc.ExpireWrite? {
      StepFirst(mode, pc, st, Accepted);
      StepFirst(mode, ExpireLog(pid, now), WithStatus(st, pid, Failed), Accepted);
    }
  }

  lemma ConfirmWrites(mode: SwitchMode, st: FsmState, pc: FsmPc, result: SendResult) returns (st': FsmState)
    requires pc.ConfirmWrite? && pc.now >= 0 && pc.pid in st.proposals
    ensures st' == Logged(WithStatus(st, pc.pid, Confirmed),
                          LedgerEvent(ProposalConfirmed, pc.now, pc.pid, Some(pc.digest)))
    ensures Complete(mode, pc, st, result) == (ConfirmDone(pc.pid, pc.now), st')
  {
    StepFirst(mode, pc, st, result);
    StepFirst(mode, ConfirmLog(pc.pid, pc.now, pc.digest), WithStatus(st, pc.pid, Confirmed), result);
    st' := Logged(WithStatus(st, pc.pid, Confirmed), LedgerEvent(ProposalConfirmed, pc.now, pc.pid, Some(pc.digest)));
  }

  // ----- status and ledger ------------------------------------------------------------

  datatype FsmCall =
    | CallConfirm(pid: string, now: int, actor: Actor, agentReachable: Option<bool>)
    | CallDispatch(pid: string, now: int, result: SendResult)
    | CallExpire(pid: string, now: int)
    | CallCreate(proposal: Proposal)

  /** `create` validates timestamps and writes a PENDING record under a new id. */
  predicate ValidNew(st: FsmState, p: Proposal)
  {
    p.proposalId !in st.proposals && p.status.Pending? && 0 <= p.createdAt < p.expiresAt
  }

  /** A completed call, whether it returned or raised. */
  function FsmApply(mode: SwitchMode, st: FsmState, call: FsmCall): FsmState
  {
    match call
    case CallConfirm(pid, now, actor, reachable) =>
      Complete(mode, ConfirmCheck(pid, now, actor, reachable), st, Accepted).1
    case CallDispatch(pid, now, result) => Complete(mode, DispatchCheck(pid, now), st, result).1
    case CallExpire(pid, now) => Complete(mode, ExpireCheck(pid, now), st, Accepted).1
    case CallCreate(p) => if ValidNew(st, p) then st.(proposals := st.proposals[p.proposalId := p]) else st
  }

  function FsmRun(mode: SwitchMode, calls: seq<FsmCall>): FsmState
  {
    if calls == [] then FsmState(map[], [], [])
    else FsmApply(mode, FsmRun(mode, calls[..|calls| - 1]), calls[|calls| - 1])
  }

  /** The ledger rows of one proposal, in order. */
  function Trace(ledger: seq<LedgerEvent>, pid: string): seq<LedgerEvent>
  {
    if ledger == [] then []
    else
      var rest, last := Trace(ledger[..|ledger| - 1], pid), ledger[|ledger| - 1];
      if last.proposalId == pid then rest + [last] else rest
  }

  lemma TraceLogged(ledger: seq<LedgerEvent>, e: LedgerEvent, pid: string)
    ensures Trace(ledger + [e], pid) == if e.proposalId == pid then Trace(ledger, pid) + [e] else Trace(ledger, pid)
  {
    assert (ledger + [e])[..|ledger|] == ledger;
  }

  /** The status a reader of the ledger would reconstruct. */
  function Replay(trace: seq<LedgerEvent>): ProposalStatus
  {
    if trace == [] then Pending
    else
      match trace[|trace| - 1].event
      case ProposalConfirmed => Confirmed
      case SendAttempted => Confirmed
      case SendSucceeded => Sent
      case SendOutcomeUnknown => OutcomeUnknown
      case SendFailed => Failed
      case ProposalExpired => Failed
  }

  predicate IsOutcome(e: EventType)
  {
    e.SendSucceeded? || e.SendFailed? || e.SendOutcomeUnknown?
  }

  /** One of the four complete histories, with confirmation before expiry and expiry not before it. */
  ghost predicate LegalTrace(p: Proposal, trace: seq<LedgerEvent>)
  {
    || trace == []
    || (|trace| == 1 && trace[0].event.ProposalConfirmed? && trace[0].at < p.expiresAt)
    || (|trace| == 3 && trace[0].event.ProposalConfirmed? && trace[0].at < p.expiresAt &&
        trace[1].event.SendAttempted? && IsOutcome(trace[2].event))
    || (|trace| == 1 && trace[0].event.ProposalExpired? && trace[0].at >= p.expiresAt)
  }

  ghost predicate Consistent(st: FsmState)
  {
    && (forall pid | pid in st.proposals :: ConsistentAt(st, pid))
    && (forall pid | pid !in st.proposals :: Trace(st.ledger, pid) == [])
  }

  ghost predicate ConsistentAt(st: FsmState, pid: string)
    requires pid in st.proposals
  {
    var p, trace := st.proposals[pid], Trace(st.ledger, pid);
    p.expiresAt > 0 && LegalTrace(p, trace) && p.status == Replay(trace)
  }

  lemma ConfirmConsistent(mode: SwitchMode, st: FsmState, pid: string, now: int, actor: Actor, reachable: Option<bool>)
    requires Consistent(st)
    ensures Consistent(Complete(mode, ConfirmCheck(pid, now, actor, reachable), st, Accepted).1)
  {
    var (pc, st') := Complete(mode, ConfirmCheck(pid, now, actor, reachable), st, Accepted);
    ConfirmOutcome(mode, st, pid, now, actor, reachable);
    if pc.ConfirmDone? {
      var e := LedgerEvent(ProposalConfirmed, now, pid, Some(st.proposals[pid].payloadDigest));
      assert ConsistentAt(st, pid);
      TraceOne(st.ledger, e);
      OthersKept(st, st', pid);
    }
  }

  lemma DispatchConsistent(mode: SwitchMode, st: FsmState, pid: string, now: int, result: SendResult)
    requires Consistent(st)
    ensures Consistent(Complete(mode, DispatchCheck(pid, now), st, result).1)
  {
    var (pc, st') := Complete(mode, DispatchCheck(pid, now), st, result);
    DispatchOutcome(mode, st, pid, now, result);
    if !pc.Raised? {
      var e1 := LedgerEvent(SendAttempted, now, pid, Some(st.proposals[pid].payloadDigest));
      var e2 := LedgerEvent(SettledEvent(result), now, pid, None);
      assert ConsistentAt(st, pid);
      TraceOne(st.ledger, e1);
      TraceOne(st.ledger + [e1], e2);
      assert st'.ledger == st.ledger + [e1] + [e2];
      OthersKept(st, st', pid);
    }
  }

  lemma ExpiredConsistent(st: FsmState, pid: string, now: int)
    requires Consistent(st) && pid in st.proposals && st.proposals[pid].status.Pending? &&
             now >= st.proposals[pid].expiresAt
    ensures Consistent(Logged(WithStatus(st, pid, Failed), LedgerEvent(ProposalExpired, now, pid, None)))
  {
    var e := LedgerEvent(ProposalExpired, now, pid, None);
    var st' := Logged(WithStatus(st, pid, Failed), e);
    assert ConsistentAt(st, pid);
    TraceOne(st.ledger, e);
    OthersKept(st, st', pid);
  }

  lemma ExpireConsistent(mode: SwitchMode, st: FsmState, pid: string, now: int)
    requires Consistent(st)
    ensures Consistent(Complete(mode, ExpireCheck(pid, now), st, Accepted).1)
  {
    assert pid in st.proposals ==> ConsistentAt(st, pid);
    ExpireOutcome(mode, st, pid, now);
    if Complete(mode, ExpireCheck(pid, now), st, Accepted).0.Settled? {
      ExpiredConsistent(st, pid, now);
    }
  }

  lemma TraceOne(ledger: seq<LedgerEvent>, e: LedgerEvent)
    ensures Trace(ledger + [e], e.proposalId) == Trace(ledger, e.proposalId) + [e]
    ensures forall other | other != e.proposalId :: Trace(ledger + [e], other) == Trace(ledger, other)
  {
    TraceLogged(ledger, e, e.proposalId);
    forall other | other != e.proposalId ensures Trace(ledger + [e], other) == Trace(ledger, other) {
      TraceLogged(ledger, e, other);
    }
  }

  lemma ApplyConsistent(mode: SwitchMode, st: FsmState, call: FsmCall)
    requires Consistent(st)
    ensures Consistent(FsmApply(mode, st, call))
  {
    match call
    case CallConfirm(pid, now, actor, reachable) => ConfirmConsistent(mode, st, pid, now, actor, reachable);
    case CallDispatch(pid, now, result) => DispatchConsistent(mode, st, pid, now, result);
    case CallExpire(pid, now) => ExpireConsistent(mode, st, pid, now);
    case CallCreate(p) =>
      if ValidNew(st, p) {
        OthersKept(st, FsmApply(mode, st, call), p.proposalId);
      }
  }

  lemma OthersKept(st: FsmState, st': FsmState, pid: string)
    requires Consistent(st) && pid in st'.proposals && ConsistentAt(st', pid)
    requires forall other | other != pid :: Trace(st'.ledger, other) == Trace(st.ledger, other)
    requires forall other | other != pid :: other in st'.proposals <==> other in st.proposals
    requires forall other | other != pid && other in st.proposals :: st'.proposals[other] == st.proposals[other]
    ensures Consistent(st')
  {
    forall other | other in st'.proposals ensures ConsistentAt(st', other) {
      if other != pid {
        assert ConsistentAt(st, other);
      }
    }
  }

  /**
   In every run of completed calls: each proposal's ledger rows form one of the four legal histories,
   the stored status is their replay, and it was confirmed before it expired.
   */
  lemma {:induction false} StatusAgreesWithLedger(mode: SwitchMode, calls: seq<FsmCall>)
    ensures Consistent(FsmRun(mode, calls))
  {
    if calls != [] {
      StatusAgreesWithLedger(mode, calls[..|calls| - 1]);
      ApplyConsistent(mode, FsmRun(mode, calls[..|calls| - 1]), calls[|calls| - 1]);
    }
  }
}
