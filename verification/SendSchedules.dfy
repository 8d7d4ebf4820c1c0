/**
 Any number of `confirm_and_dispatch` and `expire` calls on any proposals, interleaved at single
 writes, each free to stop anywhere. A second send of a proposal needs one thing: a call that writes
 CONFIRMED although another call is already on its way to the sender, or has been there.
 */
module SendSchedules {
  import opened Wrappers
  import opened ProposalRecords
  import opened SendFsm
  import opened SendRuns

  datatype Desk = Desk(fsm: FsmState, calls: map<nat, FsmPc>)

  datatype DeskEvent =
    | Create(proposal: Proposal)
    | StartConfirm(id: nat, pid: string, now: int, actor: Actor, agentReachable: Option<bool>)
    | StartExpire(id: nat, pid: string, now: int)
    | Move(id: nat, result: SendResult)
    | Stop(id: nat)

  predicate Over(pc: FsmPc)
  {
    pc.Settled? || pc.Raised?
  }

  /** A call that is over, or whose process stops, leaves the desk. */
  function Placed(calls: map<nat, FsmPc>, id: nat, pc: FsmPc): map<nat, FsmPc>
  {
    if Over(pc) then calls - {id} else calls[id := pc]
  }

  function Step(mode: SwitchMode, s: Desk, e: DeskEvent): Desk
  {
    match e
    case Create(p) =>
      if p.proposalId in s.fsm.proposals then s
      else s.(fsm := s.fsm.(proposals := s.fsm.proposals[p.proposalId := p]))
    case StartConfirm(id, pid, now, actor, reachable) =>
      if id in s.calls then s else s.(calls := s.calls[id := ConfirmCheck(pid, now, actor, reachable)])
    case StartExpire(id, pid, now) =>
      if id in s.calls then s else s.(calls := s.calls[id := ExpireCheck(pid, now)])
    case Move(id, result) =>
      if id !in s.calls then s
      else
        var (pc, fsm) := DriveStep(mode, s.calls[id], s.fsm, result);
        Desk(fsm, Placed(s.calls, id, pc))
    case Stop(id) => s.(calls := s.calls - {id})
  }

  function Run(mode: SwitchMode, s: Desk, events: seq<DeskEvent>): Desk
  {
    if events == [] then s else Step(mode, Run(mode, s, events[..|events| - 1]), events[|events| - 1])
  }

  const EMPTY := Desk(FsmState(map[], [], []), map[])

  // ----- on the way to the sender -----------------------------------------------------

  /** The call has written CONFIRMED and has not called the sender yet. */
  predicate Armed(pc: FsmPc)
  {
    pc.ConfirmLog? || pc.ConfirmDone? || pc.DispatchCheck? || pc.Attempting? || pc.Sending?
  }

  /** The call has passed the check of `confirm`; `ConfirmWrite` is the window between check and write. */
  predicate OnWay(pc: FsmPc)
  {
    pc.ConfirmWrite? || Armed(pc)
  }

  predicate ArmedFor(s: Desk, id: nat, pid: string)
  {
    id in s.calls && s.calls[id].pid == pid && Armed(s.calls[id])
  }

  predicate InWindow(s: Desk, id: nat, pid: string)
  {
    id in s.calls && s.calls[id].pid == pid && s.calls[id].ConfirmWrite?
  }

  predicate OnWayFor(s: Desk, id: nat, pid: string)
  {
    id in s.calls && s.calls[id].pid == pid && OnWay(s.calls[id])
  }

  /** Nothing has been sent, and no call but `id` is armed. */
  ghost predicate Unclaimed(s: Desk, id: nat, pid: string)
  {
    SendCount(s.fsm, pid) == 0 && forall a | ArmedFor(s, a, pid) :: a == id
  }

  /** A write of CONFIRMED finds the proposal unclaimed. */
  ghost predicate Undisputed(s: Desk, e: DeskEvent)
  {
    e.Move? && e.id in s.calls && s.calls[e.id].ConfirmWrite? ==> Unclaimed(s, e.id, s.calls[e.id].pid)
  }

  ghost predicate UndisputedRun(mode: SwitchMode, s: Desk, events: seq<DeskEvent>)
  {
    events == [] ||
    (UndisputedRun(mode, s, events[..|events| - 1]) &&
     Undisputed(Run(mode, s, events[..|events| - 1]), events[|events| - 1]))
  }

  /** One send or one armed call, not both, and neither while the proposal is PENDING. */
  ghost predicate OnceAt(s: Desk, pid: string)
  {
    && SendCount(s.fsm, pid) <= 1
    && (forall a | ArmedFor(s, a, pid) :: Committed(s.fsm, pid) && SendCount(s.fsm, pid) == 0)
    && (forall a, b | ArmedFor(s, a, pid) && ArmedFor(s, b, pid) :: a == b)
    && (!Committed(s.fsm, pid) ==> SendCount(s.fsm, pid) == 0)
  }

  /** The proposal exists and has left PENDING. */
  predicate Committed(st: FsmState, pid: string)
  {
    pid in st.proposals && !st.proposals[pid].status.Pending?
  }

  /** What a move of call `id` does to the sends and to the other calls. */
  lemma MoveEffect(mode: SwitchMode, s: Desk, id: nat, result: SendResult, pid: string)
    requires id in s.calls
    ensures var s' := Step(mode, s, Move(id, result));
            && SendCount(s'.fsm, pid) == SendCount(s.fsm, pid) +
               (if s.calls[id].Sending? && s.calls[id].pid == pid then 1 else 0)
            && (Committed(s.fsm, pid) ==> Committed(s'.fsm, pid))
            && (pid in s.fsm.proposals <==> pid in s'.fsm.proposals)
            && (forall k | k != id :: (k in s'.calls <==> k in s.calls) && (k in s.calls ==> s'.calls[k] == s.calls[k]))
  {
    StepEffect(mode, s.calls[id], s.fsm, result);
    CountAppended(s.fsm.sends, s.calls[id].pid, pid);
  }

  /** Where call `id` itself goes. */
  lemma MoveStages(mode: SwitchMode, s: Desk, id: nat, result: SendResult)
    requires id in s.calls
    ensures var s' := Step(mode, s, Move(id, result));
            var pc := s.calls[id];
            && (id in s'.calls ==> s'.calls[id].pid == pc.pid)
            && (id in s'.calls && Armed(s'.calls[id]) ==> (Armed(pc) && !pc.Sending?) || pc.ConfirmWrite?)
            && (id in s'.calls && s'.calls[id].ConfirmWrite? ==>
                  pc.ConfirmCheck? && pc.pid in s.fsm.proposals && !Committed(s.fsm, pc.pid) && s'.fsm == s.fsm)
            && (pc.ConfirmWrite? && pc.pid in s.fsm.proposals ==> Committed(s'.fsm, pc.pid))
  {
  }

  /** Every call on its way is for a stored proposal, at a time the ledger accepts. */
  ghost predicate Timed(s: Desk)
  {
    forall id | id in s.calls && OnWay(s.calls[id]) :: s.calls[id].now >= 0 && s.calls[id].pid in s.fsm.proposals
  }

  lemma StepTimed(mode: SwitchMode, s: Desk, e: DeskEvent)
    requires Timed(s)
    ensures Timed(Step(mode, s, e))
  {
    if e.Move? && e.id in s.calls {
      MoveTimed(mode, s.calls[e.id], s.fsm, e.result);
      StepEffect(mode, s.calls[e.id], s.fsm, e.result);
    }
  }

  lemma MoveTimed(mode: SwitchMode, pc: FsmPc, st: FsmState, result: SendResult)
    requires OnWay(pc) ==> pc.now >= 0 && pc.pid in st.proposals
    ensures var pc' := DriveStep(mode, pc, st, result).0; OnWay(pc') ==> pc'.now >= 0 && pc'.pid in st.proposals
  {
  }

  lemma StepOnce(mode: SwitchMode, s: Desk, e: DeskEvent, pid: string)
    requires Timed(s) && OnceAt(s, pid) && Undisputed(s, e)
    ensures OnceAt(Step(mode, s, e), pid)
  {
    if e.Move? && e.id in s.calls {
      MoveOnce(mode, s, e.id, e.result, pid);
    } else {
      var s' := Step(mode, s, e);
      assert forall a | ArmedFor(s', a, pid) :: ArmedFor(s, a, pid);
    }
  }

  lemma MoveOnce(mode: SwitchMode, s: Desk, id: nat, result: SendResult, pid: string)
    requires Timed(s) && OnceAt(s, pid) && id in s.calls && Undisputed(s, Move(id, result))
    ensures OnceAt(Step(mode, s, Move(id, result)), pid)
  {
    var s' := Step(mode, s, Move(id, result));
    MoveEffect(mode, s, id, result, pid);
    MoveStages(mode, s, id, result);
    forall a | ArmedFor(s', a, pid) ensures ArmedFor(s, a, pid) || (a == id && InWindow(s, id, pid)) {
    }
    assert s.calls[id].Sending? && s.calls[id].pid == pid ==> ArmedFor(s, id, pid);
  }

  lemma {:induction false} RunOnce(mode: SwitchMode, s: Desk, events: seq<DeskEvent>, pid: string)
    requires Timed(s) && OnceAt(s, pid) && UndisputedRun(mode, s, events)
    ensures Timed(Run(mode, s, events)) && OnceAt(Run(mode, s, events), pid)
  {
    if events != [] {
      var before, e := Run(mode, s, events[..|events| - 1]), events[|events| - 1];
      RunOnce(mode, s, events[..|events| - 1], pid);
      StepTimed(mode, before, e);
      StepOnce(mode, before, e, pid);
    }
  }

  /**
   Under every interleaving, wherever calls stop: if each write of CONFIRMED finds its proposal
   unclaimed, the sender runs at most once per proposal.
   */
  lemma AtMostOncePerProposal(mode: SwitchMode, events: seq<DeskEvent>, pid: string)
    requires UndisputedRun(mode, EMPTY, events)
    ensures SendCount(Run(mode, EMPTY, events).fsm, pid) <= 1
  {
    RunOnce(mode, EMPTY, events, pid);
  }

  // ----- ways to meet the condition ---------------------------------------------------

  /** A write that finds the proposal still PENDING, as its check did, is undisputed. */
  lemma PendingIsUnclaimed(s: Desk, id: nat, pid: string)
    requires OnceAt(s, pid) && !Committed(s.fsm, pid)
    ensures Unclaimed(s, id, pid)
  {
  }

  /** A write of CONFIRMED finds its proposal PENDING: what a compare-and-set would enforce. */
  predicate FindsPending(s: Desk, e: DeskEvent)
  {
    e.Move? && e.id in s.calls && s.calls[e.id].ConfirmWrite? ==> !Committed(s.fsm, s.calls[e.id].pid)
  }

  predicate PendingRun(mode: SwitchMode, s: Desk, events: seq<DeskEvent>)
  {
    events == [] ||
    (PendingRun(mode, s, events[..|events| - 1]) &&
     FindsPending(Run(mode, s, events[..|events| - 1]), events[|events| - 1]))
  }

  lemma PendingIsUndisputed(s: Desk, e: DeskEvent)
    requires FindsPending(s, e) && forall pid :: OnceAt(s, pid)
    ensures Undisputed(s, e)
  {
    if e.Move? && e.id in s.calls && s.calls[e.id].ConfirmWrite? {
      PendingIsUnclaimed(s, e.id, s.calls[e.id].pid);
    }
  }

  lemma {:induction false} PendingRunIsUndisputed(mode: SwitchMode, s: Desk, events: seq<DeskEvent>)
    requires Timed(s) && (forall pid :: OnceAt(s, pid)) && PendingRun(mode, s, events)
    ensures UndisputedRun(mode, s, events)
  {
    if events != [] {
      var init := events[..|events| - 1];
      PendingRunIsUndisputed(mode, s, init);
      forall pid ensures OnceAt(Run(mode, s, init), pid) {
        RunOnce(mode, s, init, pid);
      }
      PendingIsUndisputed(Run(mode, s, init), events[|events| - 1]);
    }
  }

  /** At most once under every interleaving in which each write of CONFIRMED finds its proposal PENDING. */
  lemma AtMostOnceByCompareAndSet(mode: SwitchMode, events: seq<DeskEvent>, pid: string)
    requires PendingRun(mode, EMPTY, events)
    ensures SendCount(Run(mode, EMPTY, events).fsm, pid) <= 1
  {
    PendingRunIsUndisputed(mode, EMPTY, events);
    AtMostOncePerProposal(mode, events, pid);
  }

  /** `e` is the check of a confirm on `pid`. */
  predicate ChecksOn(s: Desk, e: DeskEvent, pid: string)
  {
    e.Move? && e.id in s.calls && s.calls[e.id].ConfirmCheck? && s.calls[e.id].pid == pid
  }

  /** No call checks a proposal while another is between its check and its write of CONFIRMED. */
  ghost predicate WindowsApart(s: Desk, e: DeskEvent)
  {
    forall pid, a | ChecksOn(s, e, pid) :: !InWindow(s, a, pid)
  }

  ghost predicate ApartRun(mode: SwitchMode, s: Desk, events: seq<DeskEvent>)
  {
    events == [] ||
    (ApartRun(mode, s, events[..|events| - 1]) &&
     WindowsApart(Run(mode, s, events[..|events| - 1]), events[|events| - 1]))
  }

  /** The one call in the window has the proposal to itself. */
  ghost predicate ApartAt(s: Desk, pid: string)
  {
    && (forall a | InWindow(s, a, pid) :: Unclaimed(s, a, pid))
    && (forall a, b | InWindow(s, a, pid) && InWindow(s, b, pid) :: a == b)
  }

  lemma ApartIsUndisputed(s: Desk, e: DeskEvent)
    requires forall pid :: ApartAt(s, pid)
    ensures Undisputed(s, e)
  {
    if e.Move? && e.id in s.calls && s.calls[e.id].ConfirmWrite? {
      assert ApartAt(s, s.calls[e.id].pid) && InWindow(s, e.id, s.calls[e.id].pid);
    }
  }

  lemma StepApart(mode: SwitchMode, s: Desk, e: DeskEvent, pid: string)
    requires OnceAt(s, pid) && ApartAt(s, pid) && WindowsApart(s, e)
    ensures ApartAt(Step(mode, s, e), pid)
  {
    var s' := Step(mode, s, e);
    if e.Move? && e.id in s.calls {
      forall a | InWindow(s', a, pid) ensures Unclaimed(s', a, pid) {
        MoveUnclaimed(mode, s, e, a, pid);
      }
      MoveWindows(mode, s, e, pid);
    } else {
      assert forall a | InWindow(s', a, pid) :: InWindow(s, a, pid);
      assert forall a | ArmedFor(s', a, pid) :: ArmedFor(s, a, pid);
    }
  }

  lemma MoveUnclaimed(mode: SwitchMode, s: Desk, e: DeskEvent, a: nat, pid: string)
    requires OnceAt(s, pid) && ApartAt(s, pid) && e.Move? && e.id in s.calls && InWindow(Step(mode, s, e), a, pid)
    ensures Unclaimed(Step(mode, s, e), a, pid)
  {
    var s' := Step(mode, s, e);
    MoveEffect(mode, s, e.id, e.result, pid);
    MoveStages(mode, s, e.id, e.result);
    if a == e.id {
      PendingIsUnclaimed(s, a, pid);
    } else {
      assert InWindow(s, a, pid) && Unclaimed(s, a, pid);
      assert !ArmedFor(s, e.id, pid) && !InWindow(s, e.id, pid);
    }
    forall x | ArmedFor(s', x, pid) ensures ArmedFor(s, x, pid) {
    }
  }

  lemma MoveWindows(mode: SwitchMode, s: Desk, e: DeskEvent, pid: string)
    requires ApartAt(s, pid) && e.Move? && e.id in s.calls && WindowsApart(s, e)
    ensures forall a, b | InWindow(Step(mode, s, e), a, pid) && InWindow(Step(mode, s, e), b, pid) :: a == b
  {
    var s' := Step(mode, s, e);
    MoveEffect(mode, s, e.id, e.result, pid);
    MoveStages(mode, s, e.id, e.result);
    forall a, b | InWindow(s', a, pid) && InWindow(s', b, pid) ensures a == b {
      assert a != e.id ==> InWindow(s, a, pid);
      assert b != e.id ==> InWindow(s, b, pid);
      assert a == e.id || b == e.id ==> ChecksOn(s, e, pid);
    }
  }

  lemma {:induction false} ApartRunIsUndisputed(mode: SwitchMode, s: Desk, events: seq<DeskEvent>)
    requires Timed(s) && (forall pid :: OnceAt(s, pid) && ApartAt(s, pid)) && ApartRun(mode, s, events)
    ensures UndisputedRun(mode, s, events)
    ensures forall pid :: ApartAt(Run(mode, s, events), pid)
  {
    if events != [] {
      var init, e := events[..|events| - 1], events[|events| - 1];
      var before := Run(mode, s, init);
      ApartRunIsUndisputed(mode, s, init);
      ApartIsUndisputed(before, e);
      forall pid ensures ApartAt(Step(mode, before, e), pid) {
        RunOnce(mode, s, init, pid);
        StepApart(mode, before, e, pid);
      }
    }
  }

  /** At most once under every interleaving in which no two windows on one proposal overlap. */
  lemma AtMostOnceWithWindowsApart(mode: SwitchMode, events: seq<DeskEvent>, pid: string)
    requires ApartRun(mode, EMPTY, events)
    ensures SendCount(Run(mode, EMPTY, events).fsm, pid) <= 1
  {
    ApartRunIsUndisputed(mode, EMPTY, events);
    AtMostOncePerProposal(mode, events, pid);
  }

  // ----- the write-ahead row ----------------------------------------------------------

  /** The SEND_ATTEMPTED rows of a proposal. */
  function Attempts(ledger: seq<LedgerEvent>, pid: string): nat
  {
    if ledger == [] then 0
    else
      var last := ledger[|ledger| - 1];
      Attempts(ledger[..|ledger| - 1], pid) + if last.event.SendAttempted? && last.proposalId == pid then 1 else 0
  }

  lemma AttemptsLogged(ledger: seq<LedgerEvent>, e: LedgerEvent, pid: string)
    ensures Attempts(ledger + [e], pid) ==
            Attempts(ledger, pid) + if e.event.SendAttempted? && e.proposalId == pid then 1 else 0
  {
    assert (ledger + [e])[..|ledger|] == ledger;
  }

  /** The calls that have written their row and not yet called the sender. */
  function AtSender(calls: map<nat, FsmPc>, pid: string): set<nat>
  {
    set id | id in calls && IsAtSender(calls[id], pid)
  }

  predicate IsAtSender(pc: FsmPc, pid: string)
  {
    pc.Sending? && pc.pid == pid
  }

  lemma PlacedAtSender(calls: map<nat, FsmPc>, id: nat, pc: FsmPc, pid: string)
    requires id in calls
    ensures |AtSender(Placed(calls, id, pc), pid)| ==
            |AtSender(calls, pid)| - (if IsAtSender(calls[id], pid) then 1 else 0) + (if IsAtSender(pc, pid) then 1 else 0)
  {
    var others := AtSender(calls, pid) - {id};
    assert AtSender(calls, pid) == if IsAtSender(calls[id], pid) then others + {id} else others;
    assert AtSender(Placed(calls, id, pc), pid) == if IsAtSender(pc, pid) then others + {id} else others;
  }

  /** Each sender call, and each call about to make one, has a row of its own. */
  ghost predicate AheadAt(s: Desk, pid: string)
  {
    Attempts(s.fsm.ledger, pid) >= SendCount(s.fsm, pid) + |AtSender(s.calls, pid)|
  }

  /** What a move does to the ledger, in terms of where the call goes. */
  lemma MoveLedger(mode: SwitchMode, pc: FsmPc, st: FsmState, result: SendResult, pid: string)
    ensures var (pc', st') := DriveStep(mode, pc, st, result);
            && Attempts(st'.ledger, pid) >= Attempts(st.ledger, pid)
            && (pc'.Sending? ==> pc.Attempting? && pc'.pid == pc.pid)
            && (pc'.Sending? && pc'.pid == pid ==> Attempts(st'.ledger, pid) == Attempts(st.ledger, pid) + 1)
  {
    var st' := DriveStep(mode, pc, st, result).1;
    if st'.ledger != st.ledger {
      AttemptsLogged(st.ledger, st'.ledger[|st.ledger|], pid);
      assert st'.ledger == st.ledger + [st'.ledger[|st.ledger|]];
    }
  }

  lemma MoveAhead(mode: SwitchMode, s: Desk, id: nat, result: SendResult, pid: string)
    requires AheadAt(s, pid) && id in s.calls
    ensures AheadAt(Step(mode, s, Move(id, result)), pid)
  {
    MoveLedger(mode, s.calls[id], s.fsm, result, pid);
    MoveEffect(mode, s, id, result, pid);
    PlacedAtSender(s.calls, id, DriveStep(mode, s.calls[id], s.fsm, result).0, pid);
  }

  lemma StepAhead(mode: SwitchMode, s: Desk, e: DeskEvent, pid: string)
    requires AheadAt(s, pid)
    ensures AheadAt(Step(mode, s, e), pid)
  {
    var s' := Step(mode, s, e);
    if e.Move? && e.id in s.calls {
      MoveAhead(mode, s, e.id, e.result, pid);
    } else {
      assert AtSender(s'.calls, pid) <= AtSender(s.calls, pid);
      SmallerSet(AtSender(s'.calls, pid), AtSender(s.calls, pid));
    }
  }

  lemma {:induction false} SmallerSet(a: set<nat>, b: set<nat>)
    requires a <= b
    ensures |a| <= |b|
  {
    if a != {} {
      var x :| x in a;
      SmallerSet(a - {x}, b - {x});
    }
  }

  lemma {:induction false} RunAhead(mode: SwitchMode, s: Desk, events: seq<DeskEvent>, pid: string)
    requires AheadAt(s, pid)
    ensures AheadAt(Run(mode, s, events), pid)
  {
    if events != [] {
      RunAhead(mode, s, events[..|events| - 1], pid);
      StepAhead(mode, Run(mode, s, events[..|events| - 1]), events[|events| - 1], pid);
    }
  }

  /**
   Write-ahead, at every interleaving and every crash point, disputed windows included: the ledger holds
   at least as many SEND_ATTEMPTED rows of a proposal as the sender has been called for it.
   */
  lemma SendsAreWrittenAhead(mode: SwitchMode, events: seq<DeskEvent>, pid: string)
    ensures var st := Run(mode, EMPTY, events).fsm; SendCount(st, pid) <= Attempts(st.ledger, pid)
  {
    assert AtSender(EMPTY.calls, pid) == {};
    RunAhead(mode, EMPTY, events, pid);
  }

  // ----- calls one after the other ----------------------------------------------------

  ghost predicate ApartLeads(mode: SwitchMode, events: seq<DeskEvent>, s: Desk)
  {
    ApartRun(mode, EMPTY, events) && Run(mode, EMPTY, events) == s
  }

  lemma ApartMore(mode: SwitchMode, events: seq<DeskEvent>, s: Desk, e: DeskEvent)
    requires ApartLeads(mode, events, s) && WindowsApart(s, e)
    ensures ApartLeads(mode, events + [e], Step(mode, s, e))
  {
    assert (events + [e])[..|events|] == events;
  }

  function Alone(st: FsmState, pc: FsmPc): Desk
  {
    Desk(st, Placed(map[], 0, pc))
  }

  /** A call cut after `n` steps is a call alone at the desk that moves `n` times. */
  lemma {:induction false} CutIsMoves(mode: SwitchMode, prefix: seq<DeskEvent>, st: FsmState, pc: FsmPc, result: SendResult,
                                      n: nat)
    returns (events: seq<DeskEvent>)
    requires ApartLeads(mode, prefix, Alone(st, pc))
    ensures var (pc', st') := Cut(mode, pc, st, result, n); ApartLeads(mode, events, Alone(st', pc'))
  {
    CutNext(mode, pc, st, result, 0);
    events := prefix;
    if n > 0 {
      var before := CutIsMoves(mode, prefix, st, pc, result, n - 1);
      var (pc1, st1) := Cut(mode, pc, st, result, n - 1);
      CutNext(mode, pc, st, result, n - 1);
      ApartMore(mode, before, Alone(st1, pc1), Move(0, result));
      events := before + [Move(0, result)];
      MoveAlone(mode, st1, pc1, result);
    }
  }

  lemma MoveAlone(mode: SwitchMode, st: FsmState, pc: FsmPc, result: SendResult)
    ensures var (pc', st') := DriveStep(mode, pc, st, result); Step(mode, Alone(st, pc), Move(0, result)) == Alone(st', pc')
  {
  }

  lemma DriveIsSchedule(mode: SwitchMode, prefix: seq<DeskEvent>, st: FsmState, call: Drive) returns (events: seq<DeskEvent>)
    requires ApartLeads(mode, prefix, Desk(st, map[]))
    ensures ApartLeads(mode, events, Desk(DriveCall(mode, st, call), map[]))
  {
    match call
    case Create(p) =>
      ApartMore(mode, prefix, Desk(st, map[]), DeskEvent.Create(p));
      events := prefix + [DeskEvent.Create(p)];
    case ConfirmAndDispatch(pid, now, result, steps) =>
      var start, pc := StartConfirm(0, pid, now, Human, None), ConfirmCheck(pid, now, Human, None);
      events := StartMoveStop(mode, prefix, st, start, pc, result, steps);
    case Expire(pid, now, steps) =>
      events := StartMoveStop(mode, prefix, st, StartExpire(0, pid, now), ExpireCheck(pid, now), Accepted, steps);
  }

  lemma StartMoveStop(mode: SwitchMode, prefix: seq<DeskEvent>, st: FsmState, start: DeskEvent, pc: FsmPc,
                      result: SendResult, steps: nat)
    returns (events: seq<DeskEvent>)
    requires ApartLeads(mode, prefix, Desk(st, map[])) && !start.Move?
    requires Step(mode, Desk(st, map[]), start) == Alone(st, pc)
    ensures ApartLeads(mode, events, Desk(Cut(mode, pc, st, result, steps).1, map[]))
  {
    ApartMore(mode, prefix, Desk(st, map[]), start);
    var moved := CutIsMoves(mode, prefix + [start], st, pc, result, steps);
    var (pc', st') := Cut(mode, pc, st, result, steps);
    ApartMore(mode, moved, Alone(st', pc'), Stop(0));
    events := moved + [Stop(0)];
    assert Step(mode, Alone(st', pc'), Stop(0)) == Desk(st', map[]);
  }

  lemma {:induction false} DriveAllIsSchedule(mode: SwitchMode, calls: seq<Drive>) returns (events: seq<DeskEvent>)
    ensures ApartLeads(mode, events, Desk(DriveAll(mode, EMPTY.fsm, calls), map[]))
  {
    events := [];
    if calls != [] {
      var init := calls[..|calls| - 1];
      var before := DriveAllIsSchedule(mode, init);
      events := DriveIsSchedule(mode, before, DriveAll(mode, EMPTY.fsm, init), calls[|calls| - 1]);
    }
  }

  /** For every sequence of calls, each cut short after any step, the sender runs at most once per proposal. */
  lemma AtMostOnceAcrossCrashes(mode: SwitchMode, calls: seq<Drive>, pid: string)
    ensures SendCount(DriveAll(mode, EMPTY.fsm, calls), pid) <= 1
  {
    var events := DriveAllIsSchedule(mode, calls);
    AtMostOnceWithWindowsApart(mode, events, pid);
  }

  // ----- when the condition fails -----------------------------------------------------

  /** A run of calls that are on their way, and of nothing else. */
  ghost predicate OnlyOnWay(mode: SwitchMode, s: Desk, events: seq<DeskEvent>)
  {
    events == [] ||
    (OnlyOnWay(mode, s, events[..|events| - 1]) &&
     var before, e := Run(mode, s, events[..|events| - 1]), events[|events| - 1];
     e.Move? && e.id in before.calls && OnWay(before.calls[e.id]))
  }

  ghost predicate LeadsTo(mode: SwitchMode, s: Desk, events: seq<DeskEvent>, s': Desk)
  {
    OnlyOnWay(mode, s, events) && Run(mode, s, events) == s'
  }

  lemma OneMore(mode: SwitchMode, s: Desk, events: seq<DeskEvent>, s1: Desk, e: DeskEvent)
    requires LeadsTo(mode, s, events, s1) && e.Move? && e.id in s1.calls && OnWay(s1.calls[e.id])
    ensures LeadsTo(mode, s, events + [e], Step(mode, s1, e))
  {
    assert (events + [e])[..|events|] == events;
  }

  /** Stages up to the sender call, as a count of the moves left. */
  function Distance(pc: FsmPc): nat
    requires OnWay(pc)
  {
    match pc
    case ConfirmWrite(_, _, _) => 5
    case ConfirmLog(_, _, _) => 4
    case ConfirmDone(_, _) => 3
    case DispatchCheck(_, _) => 2
    case Attempting(_, _, _) => 1
    case _ => 0
  }

  predicate IsConfirmed(st: FsmState, pid: string)
  {
    pid in st.proposals && st.proposals[pid].status.Confirmed?
  }

  lemma NextStage(mode: SwitchMode, pc: FsmPc, st: FsmState)
    requires OnWay(pc) && !pc.Sending? && pc.now >= 0 && pc.pid in st.proposals
    requires pc.ConfirmWrite? || IsConfirmed(st, pc.pid)
    ensures var (pc', st') := DriveStep(mode, pc, st, Accepted);
            && OnWay(pc') && Distance(pc') < Distance(pc) && pc'.pid == pc.pid && pc'.now == pc.now
            && !pc'.ConfirmWrite? && IsConfirmed(st', pc.pid) && st'.sends == st.sends
  {
  }

  /** A call that writes CONFIRMED, or finds it, can go on to the point of calling the sender. */
  lemma {:induction false} ReachSender(mode: SwitchMode, s0: Desk, prefix: seq<DeskEvent>, s: Desk, id: nat, pid: string)
    returns (events: seq<DeskEvent>, s': Desk)
    requires LeadsTo(mode, s0, prefix, s) && OnWayFor(s, id, pid) && s.calls[id].now >= 0 && pid in s.fsm.proposals
    requires s.calls[id].ConfirmWrite? || IsConfirmed(s.fsm, pid)
    ensures LeadsTo(mode, s0, events, s')
    ensures id in s'.calls && s'.calls == s.calls[id := s'.calls[id]] && s'.fsm.sends == s.fsm.sends
    ensures s'.calls[id].Sending? && s'.calls[id].pid == pid && IsConfirmed(s'.fsm, pid)
    decreases Distance(s.calls[id])
  {
    if s.calls[id].Sending? {
      events, s' := prefix, s;
    } else {
      NextStage(mode, s.calls[id], s.fsm);
      OneMore(mode, s0, prefix, s, Move(id, Accepted));
      var s1 := Step(mode, s, Move(id, Accepted));
      events, s' := ReachSender(mode, s0, prefix + [Move(id, Accepted)], s1, id, pid);
    }
  }

  lemma CallSender(mode: SwitchMode, s0: Desk, prefix: seq<DeskEvent>, s: Desk, id: nat, pid: string)
    requires LeadsTo(mode, s0, prefix, s) && id in s.calls && s.calls[id].Sending? && s.calls[id].pid == pid
    ensures var s' := Step(mode, s, Move(id, Accepted));
            && LeadsTo(mode, s0, prefix + [Move(id, Accepted)], s')
            && SendCount(s'.fsm, pid) == SendCount(s.fsm, pid) + 1
            && (forall k | k != id :: k in s'.calls <==> k in s.calls)
            && (forall k | k != id && k in s.calls :: s'.calls[k] == s.calls[k])
  {
    OneMore(mode, s0, prefix, s, Move(id, Accepted));
    MoveEffect(mode, s, id, Accepted, pid);
  }

  /** A call in the window, while another is on its way or the proposal has been sent. */
  ghost predicate Disputed(s: Desk, id: nat, pid: string)
  {
    InWindow(s, id, pid) && (SendCount(s.fsm, pid) >= 1 || exists a :: a != id && OnWayFor(s, a, pid))
  }

  /** From a disputed window, calls that are on their way and nothing else make the sends two. */
  lemma DisputedSendsTwice(mode: SwitchMode, s: Desk, id: nat, pid: string) returns (events: seq<DeskEvent>)
    requires Timed(s) && Disputed(s, id, pid)
    ensures OnlyOnWay(mode, s, events) && SendCount(Run(mode, s, events).fsm, pid) >= 2
  {
    assert OnWayFor(s, id, pid);
    var e1, s1 := ReachSender(mode, s, [], s, id, pid);
    if SendCount(s.fsm, pid) >= 1 {
      CallSender(mode, s, e1, s1, id, pid);
      events := e1 + [Move(id, Accepted)];
    } else {
      var other :| other != id && OnWayFor(s, other, pid);
      var e2, s2 := ReachSender(mode, s, e1, s1, other, pid);
      CallSender(mode, s, e2, s2, id, pid);
      CallSender(mode, s, e2 + [Move(id, Accepted)], Step(mode, s2, Move(id, Accepted)), other, pid);
      events := e2 + [Move(id, Accepted)] + [Move(other, Accepted)];
    }
  }

  /** One send or one call on its way, not both. */
  ghost predicate SingleAt(s: Desk, pid: string)
  {
    && SendCount(s.fsm, pid) <= 1
    && (forall a | OnWayFor(s, a, pid) :: SendCount(s.fsm, pid) == 0)
    && (forall a, b | OnWayFor(s, a, pid) && OnWayFor(s, b, pid) :: a == b)
  }

  /** No further call checks the proposal. */
  ghost predicate NoChecks(mode: SwitchMode, s: Desk, events: seq<DeskEvent>, pid: string)
  {
    events == [] ||
    (NoChecks(mode, s, events[..|events| - 1], pid) &&
     !ChecksOn(Run(mode, s, events[..|events| - 1]), events[|events| - 1], pid))
  }

  lemma {:induction false} OnlyOnWayChecksNothing(mode: SwitchMode, s: Desk, events: seq<DeskEvent>, pid: string)
    requires OnlyOnWay(mode, s, events)
    ensures NoChecks(mode, s, events, pid)
  {
    if events != [] {
      OnlyOnWayChecksNothing(mode, s, events[..|events| - 1], pid);
    }
  }

  lemma StepSingle(mode: SwitchMode, s: Desk, e: DeskEvent, pid: string)
    requires SingleAt(s, pid) && !ChecksOn(s, e, pid)
    ensures SingleAt(Step(mode, s, e), pid)
  {
    var s' := Step(mode, s, e);
    if e.Move? && e.id in s.calls {
      MoveEffect(mode, s, e.id, e.result, pid);
      MoveStages(mode, s, e.id, e.result);
      assert s.calls[e.id].Sending? && s.calls[e.id].pid == pid ==> OnWayFor(s, e.id, pid);
    }
    forall a | OnWayFor(s', a, pid) ensures OnWayFor(s, a, pid) {
    }
  }

  lemma {:induction false} SingleStays(mode: SwitchMode, s: Desk, events: seq<DeskEvent>, pid: string)
    requires SingleAt(s, pid) && NoChecks(mode, s, events, pid)
    ensures SingleAt(Run(mode, s, events), pid)
  {
    if events != [] {
      SingleStays(mode, s, events[..|events| - 1], pid);
      StepSingle(mode, Run(mode, s, events[..|events| - 1]), events[|events| - 1], pid);
    }
  }

  ghost predicate CanSendTwice(mode: SwitchMode, s: Desk, pid: string)
  {
    exists events :: NoChecks(mode, s, events, pid) && SendCount(Run(mode, s, events).fsm, pid) >= 2
  }

  /**
   The exact condition. In any state that undisputed writes have led to, the calls that have passed
   the check of `confirm` can send a proposal twice exactly when one of them is still in its window
   while another is on its way or the proposal has been sent.
   */
  lemma DoubleSendIff(mode: SwitchMode, s: Desk, pid: string)
    requires Timed(s) && OnceAt(s, pid)
    ensures CanSendTwice(mode, s, pid) <==> exists id :: Disputed(s, id, pid)
  {
    if id :| Disputed(s, id, pid) {
      var events := DisputedSendsTwice(mode, s, id, pid);
      OnlyOnWayChecksNothing(mode, s, events, pid);
    } else {
      UndisputedIsSingle(s, pid);
      forall events | NoChecks(mode, s, events, pid) ensures SendCount(Run(mode, s, events).fsm, pid) < 2 {
        SingleStays(mode, s, events, pid);
      }
    }
  }

  lemma UndisputedIsSingle(s: Desk, pid: string)
    requires OnceAt(s, pid) && !exists id :: Disputed(s, id, pid)
    ensures SingleAt(s, pid)
  {
    forall a | OnWayFor(s, a, pid) ensures SendCount(s.fsm, pid) == 0 {
      assert InWindow(s, a, pid) || ArmedFor(s, a, pid);
      assert !Disputed(s, a, pid);
    }
    forall a, b | OnWayFor(s, a, pid) && OnWayFor(s, b, pid) ensures a == b {
      assert !Disputed(s, a, pid) && !Disputed(s, b, pid);
      if a != b {
        assert !InWindow(s, a, pid) && !InWindow(s, b, pid);
        assert ArmedFor(s, a, pid) && ArmedFor(s, b, pid);
      }
    }
  }

  /** Two calls that find one proposal PENDING, before either has written CONFIRMED, both send it. */
  lemma OverlappingConfirmsResend(mode: SwitchMode, s: Desk, a: nat, b: nat, pid: string) returns (events: seq<DeskEvent>)
    requires Timed(s) && a != b && a in s.calls && b in s.calls
    requires FsmStep(mode, s.calls[a], s.fsm, Accepted).0.ConfirmWrite? && s.calls[a].pid == pid
    requires FsmStep(mode, s.calls[b], s.fsm, Accepted).0.ConfirmWrite? && s.calls[b].pid == pid
    ensures SendCount(Run(mode, s, events).fsm, pid) >= 2
  {
    var checks := [Move(a, Accepted), Move(b, Accepted)];
    var s1 := Step(mode, s, Move(a, Accepted));
    var s2 := Step(mode, s1, Move(b, Accepted));
    TwoSteps(mode, s, checks[0], checks[1]);
    StepTimed(mode, s, checks[0]);
    StepTimed(mode, s1, checks[1]);
    assert OnWayFor(s2, b, pid) && Disputed(s2, a, pid);
    var more := DisputedSendsTwice(mode, s2, a, pid);
    RunConcat(mode, s, checks, more);
    events := checks + more;
  }

  /** Two overlapping calls on one live proposal: from an empty store there is a run that sends it twice. */
  lemma OverlapFromEmpty(mode: SwitchMode, p: Proposal, now: int) returns (events: seq<DeskEvent>)
    requires p.status.Pending? && 0 <= now < p.expiresAt
    ensures SendCount(Run(mode, EMPTY, events).fsm, p.proposalId) >= 2
  {
    var pid := p.proposalId;
    var first, second := StartConfirm(0, pid, now, Human, None), StartConfirm(1, pid, now, Human, None);
    var s1 := Step(mode, EMPTY, DeskEvent.Create(p));
    TwoSteps(mode, s1, first, second);
    var started := [DeskEvent.Create(p)] + [first, second];
    RunConcat(mode, EMPTY, [DeskEvent.Create(p)], [first, second]);
    OneStep(mode, EMPTY, DeskEvent.Create(p));
    var more := OverlappingConfirmsResend(mode, Run(mode, EMPTY, started), 0, 1, pid);
    RunConcat(mode, EMPTY, started, more);
    events := started + more;
  }

  lemma OneStep(mode: SwitchMode, s: Desk, e: DeskEvent)
    ensures Run(mode, s, [e]) == Step(mode, s, e)
  {
    assert [e][..0] == [];
    assert Run(mode, s, []) == s;
  }

  lemma TwoSteps(mode: SwitchMode, s: Desk, e1: DeskEvent, e2: DeskEvent)
    ensures Run(mode, s, [e1, e2]) == Step(mode, Step(mode, s, e1), e2)
  {
    assert [e1, e2][..1] == [e1];
    OneStep(mode, s, e1);
  }

  lemma {:induction false} RunConcat(mode: SwitchMode, s: Desk, a: seq<DeskEvent>, b: seq<DeskEvent>)
    ensures Run(mode, s, a + b) == Run(mode, Run(mode, s, a), b)
  {
    if b == [] {
      assert a + b == a;
    } else {
      RunConcat(mode, s, a, b[..|b| - 1]);
      assert (a + b)[..|a + b| - 1] == a + b[..|b| - 1];
    }
  }
}
