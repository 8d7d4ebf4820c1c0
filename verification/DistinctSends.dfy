/**
 When distinct sender calls of `authorize_and_send` are for distinct proposals. The send machine's part
 of a run is a run of the desk of `SendSchedules`, and every run of calls at the desk is part of one.
 */
module DistinctSends {
  import opened Wrappers
  import opened Service
  import opened Gate
  import opened GateMachine
  import GateRuns
  import opened ProposalRecords
  import opened SendFsm
  import SendRuns
  import SendSchedules
  import opened Orchestrator
  import opened OrchestratorRuns
  import opened AuthorizedSend
  import opened SoloRuns

  type Desk = SendSchedules.Desk
  type DeskEvent = SendSchedules.DeskEvent

  // ----- the desk of a world ----------------------------------------------------------

  /** Where the call is in confirm and dispatch, if it is there. */
  function PcOf(call: OrchCall): Option<FsmPc>
  {
    match call.phase
    case Confirming(pc) => Some(pc)
    case WritingStarted(now) => Some(ConfirmDone(call.proposalId, now))
    case Dispatching(pc, _) => Some(pc)
    case _ => None
  }

  function DeskOf(w: World): Desk
  {
    SendSchedules.Desk(w.fsm, map id | id in w.calls && PcOf(w.calls[id]).Some? :: PcOf(w.calls[id]).value)
  }

  /** Call `id` alone has changed, and is now at `pc` or not at the desk. */
  function Reseated(calls: map<nat, FsmPc>, id: nat, pc: Option<FsmPc>): map<nat, FsmPc>
  {
    if pc.Some? then calls[id := pc.value] else calls - {id}
  }

  lemma DeskChange(w: World, w': World, id: nat)
    requires w'.calls.Keys == w.calls.Keys + {id} && forall k | k in w.calls && k != id :: w'.calls[k] == w.calls[k]
    ensures DeskOf(w') == SendSchedules.Desk(w'.fsm, Reseated(DeskOf(w).calls, id, PcOf(w'.calls[id])))
  {
  }

  /** One event at the desk, or none. */
  ghost predicate Follows(mode: SwitchMode, d: Desk, e: Option<DeskEvent>, d': Desk)
  {
    d' == if e.Some? then SendSchedules.Step(mode, d, e.value) else d
  }

  lemma GateStepFollows(mode: SwitchMode, w: World, id: nat, now: int, g': GateRuns.World) returns (e: Option<DeskEvent>)
    requires id in w.calls && id in g'.calls && w.calls[id].phase.InGate?
    ensures Follows(mode, DeskOf(w), e, DeskOf(AfterGateStep(w, id, now, g'))) && (e.Some? ==> e.value.StartConfirm?)
  {
    var w' := AfterGateStep(w, id, now, g');
    DeskChange(w, w', id);
    e := if PcOf(w'.calls[id]).Some? then Some(SendSchedules.StartConfirm(id, w.calls[id].proposalId, now, Human, None))
         else None;
  }

  lemma ConfirmFollows(mode: SwitchMode, w: World, id: nat, pc: FsmPc, result: SendResult)
    requires id in w.calls && w.calls[id].phase == Confirming(pc) && ConfirmStage(pc) && pc.pid == w.calls[id].proposalId
    ensures var (pc', fsm) := FsmStep(mode, pc, w.fsm, result);
            DeskOf(AfterConfirmStep(w, id, pc', fsm)) ==
            SendSchedules.Step(mode, DeskOf(w), SendSchedules.Move(id, result))
  {
    var (pc', fsm) := FsmStep(mode, pc, w.fsm, result);
    FsmStepStages(mode, pc, w.fsm, result);
    DeskChange(w, AfterConfirmStep(w, id, pc', fsm), id);
  }

  lemma StartedFollows(mode: SwitchMode, w: World, id: nat, gate: GateCall, now: int, clock: int, fails: bool,
                       result: SendResult)
    requires id in w.calls && w.calls[id].phase == WritingStarted(now) && gate.Authorized?
    ensures DeskOf(AfterStarted(w, id, gate, now, clock, fails)) ==
            SendSchedules.Step(mode, DeskOf(w), if fails then SendSchedules.Stop(id) else SendSchedules.Move(id, result))
  {
    DeskChange(w, AfterStarted(w, id, gate, now, clock, fails), id);
  }

  lemma DispatchFollows(mode: SwitchMode, w: World, id: nat, pc: FsmPc, start: int, result: SendResult)
    requires id in w.calls && w.calls[id].phase == Dispatching(pc, start) && DispatchStage(pc)
    ensures var (pc', fsm) := FsmStep(mode, pc, w.fsm, result);
            DeskOf(AfterDispatchStep(w, id, start, pc', fsm, pc.Sending?)) ==
            SendSchedules.Step(mode, DeskOf(w), SendSchedules.Move(id, result))
  {
    var (pc', fsm) := FsmStep(mode, pc, w.fsm, result);
    FsmStepStages(mode, pc, w.fsm, result);
    DeskChange(w, AfterDispatchStep(w, id, start, pc', fsm, pc.Sending?), id);
  }

  lemma CompletedFollows(w: World, id: nat, gate: GateCall, status: ProposalStatus, start: int, clock: int, fails: bool)
    requires id in w.calls && w.calls[id].phase == WritingCompleted(status, start) && gate.Authorized?
    ensures DeskOf(AfterCompleted(w, id, gate, status, start, clock, fails)) == DeskOf(w)
  {
    DeskChange(w, AfterCompleted(w, id, gate, status, start, clock, fails), id);
  }

  /** An advance moves the same call at the desk, lets it in, or leaves the desk alone. */
  ghost predicate SameMove(e: Event, de: Option<DeskEvent>)
  {
    de.Some? && de.value.Move? ==> e.Advance? && de.value == SendSchedules.Move(e.id, e.result)
  }

  lemma AdvanceFollows(logic: GateLogic, mode: SwitchMode, w: World, e: Event) returns (de: Option<DeskEvent>)
    requires Rest(w) && e.Advance? && e.id in w.calls
    ensures Follows(mode, DeskOf(w), de, DeskOf(AdvanceCall(logic, mode, w, e))) && SameMove(e, de)
  {
    assert CallOk(w, e.id);
    de := None;
    match w.calls[e.id].phase
    case InGate =>
      de := GateStepFollows(mode, w, e.id, e.now, GateRuns.Step(logic, w.gate, GateRuns.Advance(e.id, e.input)));
    case Confirming(pc) =>
      ConfirmFollows(mode, w, e.id, pc, e.result);
      de := Some(SendSchedules.Move(e.id, e.result));
    case WritingStarted(now) =>
      StartedFollows(mode, w, e.id, w.gate.calls[e.id], now, e.clock, e.appendFails, e.result);
      de := Some(if e.appendFails then SendSchedules.Stop(e.id) else SendSchedules.Move(e.id, e.result));
    case Dispatching(pc, start) =>
      DispatchFollows(mode, w, e.id, pc, start, e.result);
      de := Some(SendSchedules.Move(e.id, e.result));
    case WritingCompleted(status, start) =>
      CompletedFollows(w, e.id, w.gate.calls[e.id], status, start, e.clock, e.appendFails);
    case Finished(_) =>
  }

  lemma BeginFollows(logic: GateLogic, mode: SwitchMode, w: World, e: Event)
    requires e.Begin?
    ensures DeskOf(Step(logic, mode, w, e)) == DeskOf(w)
  {
    if Step(logic, mode, w, e) != w {
      DeskChange(w, Step(logic, mode, w, e), e.id);
    }
  }

  lemma StopFollows(mode: SwitchMode, w: World, id: nat)
    requires id in w.calls
    ensures DeskOf(WithPhase(w, id, Finished(Lost))) == SendSchedules.Step(mode, DeskOf(w), SendSchedules.Stop(id))
  {
    DeskChange(w, WithPhase(w, id, Finished(Lost)), id);
  }

  lemma SameDesk(w: World, w': World)
    requires w'.calls == w.calls && w'.fsm == w.fsm
    ensures DeskOf(w') == DeskOf(w)
  {
  }

  /** Each step is one event at the desk or leaves it alone. */
  lemma StepFollows(logic: GateLogic, mode: SwitchMode, w: World, e: Event) returns (de: Option<DeskEvent>)
    requires Rest(w)
    ensures Follows(mode, DeskOf(w), de, DeskOf(Step(logic, mode, w, e))) && SameMove(e, de)
  {
    de := None;
    match e
    case Create(p) => de := Some(SendSchedules.Create(p));
    case Begin(_, _, _, _) => BeginFollows(logic, mode, w, e);
    case Stop(id) =>
      if id in w.calls {
        StopFollows(mode, w, id);
        de := Some(SendSchedules.Stop(id));
      }
    case Advance(id, _, _, _, _, _) =>
      if id in w.calls {
        de := AdvanceFollows(logic, mode, w, e);
        SameDesk(AdvanceCall(logic, mode, w, e), Step(logic, mode, w, e));
      }
  }

  // ----- the sender's log -------------------------------------------------------------

  /** The machine's log of sender calls is the log kept here. */
  ghost predicate LogsAgree(w: World)
  {
    |w.fsm.sends| == |w.sends| && forall i | 0 <= i < |w.sends| :: w.fsm.sends[i] == w.sends[i].proposalId
  }

  ghost predicate SentTwice(w: World, pid: string)
  {
    exists i, j :: 0 <= i < j < |w.sends| && w.sends[i].proposalId == pid && w.sends[j].proposalId == pid
  }

  lemma FsmStepSends(mode: SwitchMode, pc: FsmPc, st: FsmState, result: SendResult)
    ensures FsmStep(mode, pc, st, result).1.sends == if pc.Sending? then st.sends + [pc.pid] else st.sends
  {
  }

  lemma AdvanceLogs(logic: GateLogic, mode: SwitchMode, w: World, e: Event)
    requires Rest(w) && LogsAgree(w) && e.Advance? && e.id in w.calls
    ensures LogsAgree(AdvanceCall(logic, mode, w, e))
  {
    assert CallOk(w, e.id);
    var phase := w.calls[e.id].phase;
    if phase.Confirming? || phase.Dispatching? {
      FsmStepSends(mode, phase.pc, w.fsm, e.result);
    }
  }

  lemma StepLogs(logic: GateLogic, mode: SwitchMode, w: World, e: Event)
    requires Rest(w) && LogsAgree(w)
    ensures LogsAgree(Step(logic, mode, w, e))
  {
    if e.Advance? && e.id in w.calls {
      AdvanceLogs(logic, mode, w, e);
    }
  }

  lemma {:induction false} CountedTwice(s: seq<string>, x: string)
    ensures multiset(s)[x] >= 2 <==> exists i, j :: 0 <= i < j < |s| && s[i] == x && s[j] == x
  {
    if s != [] {
      var init, last := s[..|s| - 1], s[|s| - 1];
      CountedTwice(init, x);
      assert s == init + [last];
      assert multiset(s) == multiset(init) + multiset{last};
      if last == x && multiset(init)[x] >= 1 {
        assert x in init;
        var i :| 0 <= i < |init| && init[i] == x;
        assert s[i] == x && s[|init|] == x;
      }
      if multiset(init)[x] >= 2 {
        var i, j :| 0 <= i < j < |init| && init[i] == x && init[j] == x;
        assert s[i] == x && s[j] == x;
      }
      if i, j :| 0 <= i < j < |s| && s[i] == x && s[j] == x {
        assert init[i] == x && x in multiset(init);
        assert j < |init| ==> init[j] == x;
      }
    }
  }

  lemma SentTwiceIsCounted(w: World, pid: string)
    requires LogsAgree(w)
    ensures SentTwice(w, pid) <==> SendRuns.SendCount(w.fsm, pid) >= 2
  {
    CountedTwice(w.fsm.sends, pid);
    if SentTwice(w, pid) {
      var i, j :| 0 <= i < j < |w.sends| && w.sends[i].proposalId == pid && w.sends[j].proposalId == pid;
      assert w.fsm.sends[i] == pid && w.fsm.sends[j] == pid;
    }
    if i, j :| 0 <= i < j < |w.fsm.sends| && w.fsm.sends[i] == pid && w.fsm.sends[j] == pid {
      assert w.sends[i].proposalId == pid && w.sends[j].proposalId == pid;
    }
  }

  // ----- distinct proposals -----------------------------------------------------------

  /** A write of CONFIRMED finds that no other call on its way has confirmed the proposal, and that it is unsent. */
  ghost predicate Undisputed(w: World, e: Event)
  {
    e.Advance? ==> SendSchedules.Undisputed(DeskOf(w), SendSchedules.Move(e.id, e.result))
  }

  ghost predicate UndisputedRun(logic: GateLogic, mode: SwitchMode, w: World, events: seq<Event>)
  {
    events == [] ||
    (UndisputedRun(logic, mode, w, events[..|events| - 1]) &&
     Undisputed(Run(logic, mode, w, events[..|events| - 1]), events[|events| - 1]))
  }

  /** What undisputed writes keep. */
  ghost predicate Once(w: World)
  {
    LogsAgree(w) && SendSchedules.Timed(DeskOf(w)) && forall pid :: SendSchedules.OnceAt(DeskOf(w), pid)
  }

  lemma FollowsOnce(mode: SwitchMode, d: Desk, e: Option<DeskEvent>, d': Desk)
    requires Follows(mode, d, e, d') && SendSchedules.Timed(d)
    requires forall pid :: SendSchedules.OnceAt(d, pid)
    requires e.Some? ==> SendSchedules.Undisputed(d, e.value)
    ensures SendSchedules.Timed(d') && forall pid :: SendSchedules.OnceAt(d', pid)
  {
    if e.Some? {
      SendSchedules.StepTimed(mode, d, e.value);
      forall pid ensures SendSchedules.OnceAt(d', pid) {
        SendSchedules.StepOnce(mode, d, e.value, pid);
      }
    }
  }

  lemma StepOnce(logic: GateLogic, mode: SwitchMode, w: World, e: Event)
    requires Rest(w) && Once(w) && Undisputed(w, e)
    ensures Once(Step(logic, mode, w, e))
  {
    StepLogs(logic, mode, w, e);
    var de := StepFollows(logic, mode, w, e);
    FollowsOnce(mode, DeskOf(w), de, DeskOf(Step(logic, mode, w, e)));
  }

  lemma {:induction false} RunOnce(logic: GateLogic, mode: SwitchMode, w: World, events: seq<Event>)
    requires Sound(logic) && Inv(logic, w) && Once(w) && UndisputedRun(logic, mode, w, events)
    ensures Once(Run(logic, mode, w, events))
  {
    if events != [] {
      var init := events[..|events| - 1];
      RunOnce(logic, mode, w, init);
      RunInv(logic, mode, w, init);
      StepOnce(logic, mode, Run(logic, mode, w, init), events[|events| - 1]);
    }
  }

  lemma InitialOnce(w: World)
    requires Initial(w)
    ensures Once(w)
  {
    assert DeskOf(w).calls == map[];
  }

  lemma UndisputedReachesOnce(logic: GateLogic, mode: SwitchMode, w0: World, events: seq<Event>)
    requires Sound(logic) && Initial(w0) && UndisputedRun(logic, mode, w0, events)
    ensures Once(Run(logic, mode, w0, events))
  {
    InitialInv(logic, w0);
    InitialOnce(w0);
    RunOnce(logic, mode, w0, events);
  }

  lemma OnceIsNotTwice(w: World, pid: string)
    requires Once(w)
    ensures !SentTwice(w, pid)
  {
    SentTwiceIsCounted(w, pid);
    assert SendSchedules.OnceAt(DeskOf(w), pid);
  }

  /**
   Any number of calls, on any proposals, interleaved in any order and stopping anywhere: if each write
   of CONFIRMED is undisputed, distinct sender calls are for distinct proposals.
   */
  lemma SenderCallsHaveDistinctProposals(cfg: GateConfig, mode: SwitchMode, w0: World, events: seq<Event>, i: nat, j: nat)
    requires Initial(w0) && UndisputedRun(LogicOf(cfg), mode, w0, events)
    requires i < j < |Run(LogicOf(cfg), mode, w0, events).sends|
    ensures var sends := Run(LogicOf(cfg), mode, w0, events).sends; sends[i].proposalId != sends[j].proposalId
  {
    var w := Run(LogicOf(cfg), mode, w0, events);
    LogicIsSound(cfg);
    UndisputedReachesOnce(LogicOf(cfg), mode, w0, events);
    OnceIsNotTwice(w, w.sends[i].proposalId);
  }

  // ----- ways to meet the condition ---------------------------------------------------

  /** No call checks a proposal while another call on it is between its check and its write of CONFIRMED. */
  ghost predicate WindowsApart(w: World, e: Event)
  {
    e.Advance? ==> SendSchedules.WindowsApart(DeskOf(w), SendSchedules.Move(e.id, e.result))
  }

  ghost predicate ApartRun(logic: GateLogic, mode: SwitchMode, w: World, events: seq<Event>)
  {
    events == [] ||
    (ApartRun(logic, mode, w, events[..|events| - 1]) &&
     WindowsApart(Run(logic, mode, w, events[..|events| - 1]), events[|events| - 1]))
  }

  ghost predicate Apart(w: World)
  {
    forall pid :: SendSchedules.ApartAt(DeskOf(w), pid)
  }

  lemma StepStaysApart(logic: GateLogic, mode: SwitchMode, w: World, e: Event)
    requires Rest(w) && Once(w) && Apart(w) && WindowsApart(w, e)
    ensures Apart(Step(logic, mode, w, e))
  {
    var de := StepFollows(logic, mode, w, e);
    if de.Some? {
      assert SendSchedules.WindowsApart(DeskOf(w), de.value);
      forall pid ensures SendSchedules.ApartAt(DeskOf(Step(logic, mode, w, e)), pid) {
        SendSchedules.StepApart(mode, DeskOf(w), de.value, pid);
      }
    }
  }

  lemma ApartIsUndisputed(w: World, e: Event)
    requires Apart(w)
    ensures Undisputed(w, e)
  {
    if e.Advance? {
      SendSchedules.ApartIsUndisputed(DeskOf(w), SendSchedules.Move(e.id, e.result));
    }
  }

  lemma {:induction false} ApartRunIsUndisputed(logic: GateLogic, mode: SwitchMode, w: World, events: seq<Event>)
    requires Sound(logic) && Inv(logic, w) && Once(w) && Apart(w) && ApartRun(logic, mode, w, events)
    ensures UndisputedRun(logic, mode, w, events) && Apart(Run(logic, mode, w, events))
  {
    if events != [] {
      var init, e := events[..|events| - 1], events[|events| - 1];
      ApartRunIsUndisputed(logic, mode, w, init);
      RunInv(logic, mode, w, init);
      RunOnce(logic, mode, w, init);
      ApartIsUndisputed(Run(logic, mode, w, init), e);
      StepStaysApart(logic, mode, Run(logic, mode, w, init), e);
    }
  }

  lemma ApartFromStart(logic: GateLogic, mode: SwitchMode, w0: World, events: seq<Event>)
    requires Sound(logic) && Initial(w0) && ApartRun(logic, mode, w0, events)
    ensures UndisputedRun(logic, mode, w0, events)
  {
    InitialInv(logic, w0);
    InitialOnce(w0);
    ApartRunIsUndisputed(logic, mode, w0, events);
  }

  /** It is enough that the windows on one proposal do not overlap; calls may overlap in every other way. */
  lemma ApartCallsHaveDistinctProposals(cfg: GateConfig, mode: SwitchMode, w0: World, events: seq<Event>, i: nat, j: nat)
    requires Initial(w0) && ApartRun(LogicOf(cfg), mode, w0, events)
    requires i < j < |Run(LogicOf(cfg), mode, w0, events).sends|
    ensures var sends := Run(LogicOf(cfg), mode, w0, events).sends; sends[i].proposalId != sends[j].proposalId
  {
    LogicIsSound(cfg);
    ApartFromStart(LogicOf(cfg), mode, w0, events);
    SenderCallsHaveDistinctProposals(cfg, mode, w0, events, i, j);
  }

  /** A write of CONFIRMED finds its proposal PENDING, as a compare-and-set would enforce. */
  predicate FindsPending(w: World, e: Event)
  {
    e.Advance? ==> SendSchedules.FindsPending(DeskOf(w), SendSchedules.Move(e.id, e.result))
  }

  predicate PendingRun(logic: GateLogic, mode: SwitchMode, w: World, events: seq<Event>)
  {
    events == [] ||
    (PendingRun(logic, mode, w, events[..|events| - 1]) &&
     FindsPending(Run(logic, mode, w, events[..|events| - 1]), events[|events| - 1]))
  }

  lemma {:induction false} PendingRunIsUndisputed(logic: GateLogic, mode: SwitchMode, w: World, events: seq<Event>)
    requires Sound(logic) && Inv(logic, w) && Once(w) && PendingRun(logic, mode, w, events)
    ensures UndisputedRun(logic, mode, w, events)
  {
    if events != [] {
      var init, e := events[..|events| - 1], events[|events| - 1];
      PendingRunIsUndisputed(logic, mode, w, init);
      RunOnce(logic, mode, w, init);
      if e.Advance? {
        SendSchedules.PendingIsUndisputed(DeskOf(Run(logic, mode, w, init)), SendSchedules.Move(e.id, e.result));
      }
    }
  }

  /** It is enough that each write of CONFIRMED finds its proposal PENDING. */
  lemma CompareAndSetGivesDistinctProposals(cfg: GateConfig, mode: SwitchMode, w0: World, events: seq<Event>, i: nat, j: nat)
    requires Initial(w0) && PendingRun(LogicOf(cfg), mode, w0, events)
    requires i < j < |Run(LogicOf(cfg), mode, w0, events).sends|
    ensures var sends := Run(LogicOf(cfg), mode, w0, events).sends; sends[i].proposalId != sends[j].proposalId
  {
    LogicIsSound(cfg);
    InitialInv(LogicOf(cfg), w0);
    InitialOnce(w0);
    PendingRunIsUndisputed(LogicOf(cfg), mode, w0, events);
    SenderCallsHaveDistinctProposals(cfg, mode, w0, events, i, j);
  }

  /** Only the call begun last moves. */
  predicate SequentialRun(logic: GateLogic, mode: SwitchMode, w: World, events: seq<Event>)
  {
    events == [] ||
    (SequentialRun(logic, mode, w, events[..|events| - 1]) &&
     var e := events[|events| - 1];
     e.Advance? ==> Run(logic, mode, w, events[..|events| - 1]).latest == Some(e.id))
  }

  /** Between the check and the write of the latest call, its proposal stays PENDING. */
  ghost predicate LatestPending(w: World)
  {
    w.latest.Some? ==>
      forall pid | SendSchedules.InWindow(DeskOf(w), w.latest.value, pid) :: !SendSchedules.Committed(w.fsm, pid)
  }

  lemma OnlyBeginsAreLatest(logic: GateLogic, mode: SwitchMode, w: World, e: Event)
    ensures !e.Begin? ==> Step(logic, mode, w, e).latest == w.latest
    ensures e.Begin? ==> Step(logic, mode, w, e) == w || e.id !in DeskOf(Step(logic, mode, w, e)).calls
    ensures e.Begin? && Step(logic, mode, w, e) != w ==> Step(logic, mode, w, e).latest == Some(e.id)
  {
  }

  lemma StepLatest(logic: GateLogic, mode: SwitchMode, w: World, e: Event)
    requires Rest(w) && Once(w) && LatestPending(w) && (e.Advance? ==> w.latest == Some(e.id))
    ensures LatestPending(Step(logic, mode, w, e))
  {
    var d, w' := DeskOf(w), Step(logic, mode, w, e);
    OnlyBeginsAreLatest(logic, mode, w, e);
    if !e.Begin? && w.latest.Some? {
      var de := StepFollows(logic, mode, w, e);
      DeskLatest(mode, d, de, DeskOf(w'), w.latest.value);
    }
  }

  lemma DeskLatest(mode: SwitchMode, d: Desk, de: Option<DeskEvent>, d': Desk, id: nat)
    requires Follows(mode, d, de, d') && SendSchedules.Timed(d) && (de.Some? && de.value.Move? ==> de.value.id == id)
    requires forall pid | SendSchedules.InWindow(d, id, pid) :: !SendSchedules.Committed(d.fsm, pid)
    ensures forall pid | SendSchedules.InWindow(d', id, pid) :: !SendSchedules.Committed(d'.fsm, pid)
  {
    if de.Some? && de.value.Move? && id in d.calls {
      SendSchedules.MoveStages(mode, d, id, de.value.result);
    } else {
      forall pid | SendSchedules.InWindow(d', id, pid) ensures !SendSchedules.Committed(d'.fsm, pid) {
        assert SendSchedules.InWindow(d, id, pid) && SendSchedules.OnWay(d.calls[id]);
      }
    }
  }

  lemma {:induction false} SequentialRunIsUndisputed(logic: GateLogic, mode: SwitchMode, w: World, events: seq<Event>)
    requires Sound(logic) && Inv(logic, w) && Once(w) && LatestPending(w) && SequentialRun(logic, mode, w, events)
    ensures UndisputedRun(logic, mode, w, events) && LatestPending(Run(logic, mode, w, events))
  {
    if events != [] {
      var init, e := events[..|events| - 1], events[|events| - 1];
      var before := Run(logic, mode, w, init);
      SequentialRunIsUndisputed(logic, mode, w, init);
      RunInv(logic, mode, w, init);
      RunOnce(logic, mode, w, init);
      LatestIsUndisputed(before, e);
      StepLatest(logic, mode, before, e);
    }
  }

  lemma LatestIsUndisputed(w: World, e: Event)
    requires Once(w) && LatestPending(w) && (e.Advance? ==> w.latest == Some(e.id))
    ensures Undisputed(w, e)
  {
    var d := DeskOf(w);
    if e.Advance? && e.id in d.calls && d.calls[e.id].ConfirmWrite? {
      assert SendSchedules.InWindow(d, e.id, d.calls[e.id].pid);
      SendSchedules.PendingIsUnclaimed(d, e.id, d.calls[e.id].pid);
    }
  }

  lemma SequentialFromStart(logic: GateLogic, mode: SwitchMode, w0: World, events: seq<Event>)
    requires Sound(logic) && Initial(w0) && SequentialRun(logic, mode, w0, events)
    ensures UndisputedRun(logic, mode, w0, events)
  {
    InitialInv(logic, w0);
    InitialOnce(w0);
    SequentialRunIsUndisputed(logic, mode, w0, events);
  }

  /** Calls one after the other, each stopping anywhere: distinct sender calls are for distinct proposals. */
  lemma SequentialCallsHaveDistinctProposals(cfg: GateConfig, mode: SwitchMode, w0: World, events: seq<Event>,
                                             i: nat, j: nat)
    requires Initial(w0) && SequentialRun(LogicOf(cfg), mode, w0, events)
    requires i < j < |Run(LogicOf(cfg), mode, w0, events).sends|
    ensures var sends := Run(LogicOf(cfg), mode, w0, events).sends; sends[i].proposalId != sends[j].proposalId
  {
    LogicIsSound(cfg);
    SequentialFromStart(LogicOf(cfg), mode, w0, events);
    SenderCallsHaveDistinctProposals(cfg, mode, w0, events, i, j);
  }

  // ----- the write-ahead row ----------------------------------------------------------

  lemma {:induction false} RunAhead(logic: GateLogic, mode: SwitchMode, w: World, events: seq<Event>, pid: string)
    requires Sound(logic) && Inv(logic, w) && SendSchedules.AheadAt(DeskOf(w), pid)
    ensures SendSchedules.AheadAt(DeskOf(Run(logic, mode, w, events)), pid)
  {
    if events != [] {
      var init, e := events[..|events| - 1], events[|events| - 1];
      var before := Run(logic, mode, w, init);
      RunAhead(logic, mode, w, init, pid);
      RunInv(logic, mode, w, init);
      var de := StepFollows(logic, mode, before, e);
      if de.Some? {
        SendSchedules.StepAhead(mode, DeskOf(before), de.value, pid);
      }
    }
  }

  /** At every interleaving and crash point the ledger is ahead of the sender, on every proposal. */
  lemma SendsAreWrittenAhead(cfg: GateConfig, mode: SwitchMode, w0: World, events: seq<Event>, pid: string)
    requires Initial(w0)
    ensures var st := Run(LogicOf(cfg), mode, w0, events).fsm;
            SendRuns.SendCount(st, pid) <= SendSchedules.Attempts(st.ledger, pid)
  {
    LogicIsSound(cfg);
    InitialInv(LogicOf(cfg), w0);
    assert SendSchedules.AtSender(DeskOf(w0).calls, pid) == {};
    RunAhead(LogicOf(cfg), mode, w0, events, pid);
  }

  // ----- when the condition fails -----------------------------------------------------

  const QUIET_INPUT := Input(Unreachable, false, false, PeerError, false, 0, ServiceUnreachable, 0, 0, 0, false, false)

  /** A step of a call at the desk, with every append succeeding. */
  function DeskStep(id: nat, result: SendResult): Event
  {
    Advance(id, QUIET_INPUT, 0, result, 0, false)
  }

  /** Whatever a call can do at the desk, it can do in the world. */
  lemma LiftMove(logic: GateLogic, mode: SwitchMode, w: World, id: nat, result: SendResult)
    requires Rest(w) && id in DeskOf(w).calls
    ensures DeskOf(Step(logic, mode, w, DeskStep(id, result))) ==
            SendSchedules.Step(mode, DeskOf(w), SendSchedules.Move(id, result))
  {
    var e := DeskStep(id, result);
    assert CallOk(w, id);
    match w.calls[id].phase
    case Confirming(pc) => ConfirmFollows(mode, w, id, pc, result);
    case WritingStarted(now) => StartedFollows(mode, w, id, w.gate.calls[id], now, 0, false, result);
    case Dispatching(pc, start) => DispatchFollows(mode, w, id, pc, start, result);
    assert DeskOf(Step(logic, mode, w, e)) == DeskOf(AdvanceCall(logic, mode, w, e));
  }

  /** No further call checks the proposal. */
  ghost predicate NoChecks(logic: GateLogic, mode: SwitchMode, w: World, events: seq<Event>, pid: string)
  {
    events == [] ||
    (NoChecks(logic, mode, w, events[..|events| - 1], pid) &&
     var before, e := Run(logic, mode, w, events[..|events| - 1]), events[|events| - 1];
     e.Advance? ==> !SendSchedules.ChecksOn(DeskOf(before), SendSchedules.Move(e.id, e.result), pid))
  }

  lemma LiftStep(logic: GateLogic, mode: SwitchMode, w: World, id: nat, result: SendResult, pid: string)
    requires Rest(w) && LogsAgree(w) && id in DeskOf(w).calls && SendSchedules.OnWay(DeskOf(w).calls[id])
    ensures var e, de := DeskStep(id, result), SendSchedules.Move(id, result);
            && LogsAgree(Step(logic, mode, w, e))
            && DeskOf(Step(logic, mode, w, e)) == SendSchedules.Step(mode, DeskOf(w), de)
            && !SendSchedules.ChecksOn(DeskOf(w), de, pid)
  {
    LiftMove(logic, mode, w, id, result);
    StepLogs(logic, mode, w, DeskStep(id, result));
  }

  lemma NoChecksMore(logic: GateLogic, mode: SwitchMode, w: World, events: seq<Event>, e: Event, pid: string)
    requires NoChecks(logic, mode, w, events, pid) && e.Advance?
    requires !SendSchedules.ChecksOn(DeskOf(Run(logic, mode, w, events)), SendSchedules.Move(e.id, e.result), pid)
    ensures NoChecks(logic, mode, w, events + [e], pid)
    ensures Run(logic, mode, w, events + [e]) == Step(logic, mode, Run(logic, mode, w, events), e)
  {
    assert (events + [e])[..|events|] == events;
  }

  lemma {:induction false} LiftRun(logic: GateLogic, mode: SwitchMode, w: World, des: seq<DeskEvent>, pid: string)
    returns (events: seq<Event>)
    requires Sound(logic) && Inv(logic, w) && LogsAgree(w) && SendSchedules.OnlyOnWay(mode, DeskOf(w), des)
    ensures DeskOf(Run(logic, mode, w, events)) == SendSchedules.Run(mode, DeskOf(w), des)
    ensures NoChecks(logic, mode, w, events, pid) && LogsAgree(Run(logic, mode, w, events))
  {
    events := [];
    if des != [] {
      var last := des[|des| - 1];
      var init := LiftRun(logic, mode, w, des[..|des| - 1], pid);
      RunInv(logic, mode, w, init);
      LiftStep(logic, mode, Run(logic, mode, w, init), last.id, last.result, pid);
      NoChecksMore(logic, mode, w, init, DeskStep(last.id, last.result), pid);
      events := init + [DeskStep(last.id, last.result)];
    }
  }

  ghost predicate CanSendTwice(logic: GateLogic, mode: SwitchMode, w: World, pid: string)
  {
    exists events :: NoChecks(logic, mode, w, events, pid) && SentTwice(Run(logic, mode, w, events), pid)
  }

  lemma DisputedSendsTwice(logic: GateLogic, mode: SwitchMode, w: World, id: nat, pid: string) returns (events: seq<Event>)
    requires Sound(logic) && Inv(logic, w) && LogsAgree(w) && SendSchedules.Timed(DeskOf(w))
    requires SendSchedules.Disputed(DeskOf(w), id, pid)
    ensures NoChecks(logic, mode, w, events, pid) && SentTwice(Run(logic, mode, w, events), pid)
  {
    var des := SendSchedules.DisputedSendsTwice(mode, DeskOf(w), id, pid);
    events := LiftRun(logic, mode, w, des, pid);
    SentTwiceIsCounted(Run(logic, mode, w, events), pid);
  }

  lemma {:induction false} SingleStays(logic: GateLogic, mode: SwitchMode, w: World, events: seq<Event>, pid: string)
    requires Sound(logic) && Inv(logic, w) && LogsAgree(w) && SendSchedules.SingleAt(DeskOf(w), pid)
    requires NoChecks(logic, mode, w, events, pid)
    ensures LogsAgree(Run(logic, mode, w, events)) && SendSchedules.SingleAt(DeskOf(Run(logic, mode, w, events)), pid)
  {
    if events != [] {
      var init, e := events[..|events| - 1], events[|events| - 1];
      var before := Run(logic, mode, w, init);
      SingleStays(logic, mode, w, init, pid);
      RunInv(logic, mode, w, init);
      StepLogs(logic, mode, before, e);
      var de := StepFollows(logic, mode, before, e);
      if de.Some? {
        SendSchedules.StepSingle(mode, DeskOf(before), de.value, pid);
      }
    }
  }

  /**
   The exact condition. In any world that undisputed writes have led to, the calls that have passed the
   check of `confirm` can send a proposal twice exactly when one of them is still between its check and
   its write while another is on its way to the sender or the proposal has been sent.
   */
  lemma DoubleSendIff(cfg: GateConfig, mode: SwitchMode, w0: World, events: seq<Event>, pid: string)
    requires Initial(w0) && UndisputedRun(LogicOf(cfg), mode, w0, events)
    ensures var w := Run(LogicOf(cfg), mode, w0, events);
            CanSendTwice(LogicOf(cfg), mode, w, pid) <==> exists id :: SendSchedules.Disputed(DeskOf(w), id, pid)
  {
    LogicIsSound(cfg);
    ReachableInv(LogicOf(cfg), mode, w0, events);
    UndisputedReachesOnce(LogicOf(cfg), mode, w0, events);
    DoubleSendIffFrom(LogicOf(cfg), mode, Run(LogicOf(cfg), mode, w0, events), pid);
  }

  lemma DoubleSendIffFrom(logic: GateLogic, mode: SwitchMode, w: World, pid: string)
    requires Sound(logic) && Inv(logic, w) && Once(w)
    ensures CanSendTwice(logic, mode, w, pid) <==> exists id :: SendSchedules.Disputed(DeskOf(w), id, pid)
  {
    if id :| SendSchedules.Disputed(DeskOf(w), id, pid) {
      var events := DisputedSendsTwice(logic, mode, w, id, pid);
    } else {
      assert SendSchedules.OnceAt(DeskOf(w), pid);
      SendSchedules.UndisputedIsSingle(DeskOf(w), pid);
      forall events | NoChecks(logic, mode, w, events, pid) ensures !SentTwice(Run(logic, mode, w, events), pid) {
        SingleStays(logic, mode, w, events, pid);
        SentTwiceIsCounted(Run(logic, mode, w, events), pid);
      }
    }
  }

  // ----- a failing run ----------------------------------------------------------------

  /** An uninterrupted pass through the gate would authorize this request without asking for approval. */
  ghost predicate WouldAuthorize(logic: GateLogic, w: World, gate: GateState, pid: string, request: AuthorizationRequest,
                                 env: Env)
    requires pid in w.fsm.proposals
  {
    var verdict := GateMachine.Complete(logic, BeginView(w, pid, request, env.gateNow).verdict, gate, env.input).0;
    verdict.Authorized? && verdict.decision.disposition != NEEDS_APPROVAL
  }

  function GateAfter(logic: GateLogic, w: World, pid: string, request: AuthorizationRequest, env: Env): GateState
    requires pid in w.fsm.proposals
  {
    GateMachine.Complete(logic, BeginView(w, pid, request, env.gateNow).verdict, w.gate.st, env.input).1
  }

  /** The call stands before the check of `confirm`. */
  predicate AtCheck(w: World, id: nat, pid: string, now: int)
  {
    id in w.calls && w.calls[id].proposalId == pid && w.calls[id].phase == Confirming(ConfirmCheck(pid, now, Human, None))
  }

  lemma EntersConfirm(logic: GateLogic, mode: SwitchMode, w: World, id: nat, pid: string, request: AuthorizationRequest,
                      env: Env)
    returns (w': World)
    requires id !in w.calls && id !in w.gate.calls && pid in w.fsm.proposals
    requires WouldAuthorize(logic, w, w.gate.st, pid, request, env)
    ensures Reaches(logic, mode, w, w') && KeepsOthers(w, w', id) && w'.fsm == w.fsm
    ensures w'.gate.st == GateAfter(logic, w, pid, request, env) && AtCheck(w', id, pid, env.sendNow)
  {
    w' := PassesGate(logic, mode, w, id, pid, request, env);
  }

  lemma AtCheckOnDesk(w: World, id: nat, pid: string, now: int)
    requires AtCheck(w, id, pid, now)
    ensures id in DeskOf(w).calls && DeskOf(w).calls[id] == ConfirmCheck(pid, now, Human, None)
  {
  }

  lemma DeskOpensWindow(mode: SwitchMode, d: Desk, id: nat, pid: string, now: int)
    requires id in d.calls && d.calls[id] == ConfirmCheck(pid, now, Human, None)
    requires CheckConfirm(mode, d.fsm, pid, now, Human, None).ConfirmWrite?
    ensures var d' := SendSchedules.Step(mode, d, SendSchedules.Move(id, Accepted));
            d'.fsm == d.fsm && SendSchedules.InWindow(d', id, pid)
  {
  }

  lemma AdvanceTouchesOne(logic: GateLogic, mode: SwitchMode, w: World, id: nat)
    requires id in w.calls && w.calls[id].phase.Confirming?
    ensures var w' := Step(logic, mode, w, DeskStep(id, Accepted));
            forall k | k in w.calls && k != id :: k in w'.calls && w'.calls[k] == w.calls[k]
  {
  }

  /** The check finds the proposal PENDING and opens the window. */
  lemma OpensWindow(logic: GateLogic, mode: SwitchMode, w: World, id: nat, pid: string, now: int)
    requires Rest(w) && AtCheck(w, id, pid, now) && CheckConfirm(mode, w.fsm, pid, now, Human, None).ConfirmWrite?
    ensures var w' := Step(logic, mode, w, DeskStep(id, Accepted));
            && DeskOf(w') == SendSchedules.Step(mode, DeskOf(w), SendSchedules.Move(id, Accepted))
            && DeskOf(w').fsm == w.fsm && SendSchedules.InWindow(DeskOf(w'), id, pid)
  {
    AtCheckOnDesk(w, id, pid, now);
    LiftMove(logic, mode, w, id, Accepted);
    DeskOpensWindow(mode, DeskOf(w), id, pid, now);
  }

  /** What a step of a call at the desk keeps. */
  lemma DeskStepKeeps(logic: GateLogic, mode: SwitchMode, w: World, id: nat)
    requires Sound(logic) && Inv(logic, w) && LogsAgree(w) && SendSchedules.Timed(DeskOf(w)) && id in DeskOf(w).calls
    ensures var w' := Step(logic, mode, w, DeskStep(id, Accepted));
            Inv(logic, w') && LogsAgree(w') && SendSchedules.Timed(DeskOf(w'))
  {
    StepInv(logic, mode, w, DeskStep(id, Accepted));
    StepLogs(logic, mode, w, DeskStep(id, Accepted));
    LiftMove(logic, mode, w, id, Accepted);
    SendSchedules.StepTimed(mode, DeskOf(w), SendSchedules.Move(id, Accepted));
  }

  /** Both calls stand before the check of one PENDING, live proposal: both send it. */
  lemma TwoChecksSendTwice(logic: GateLogic, mode: SwitchMode, w: World, a: nat, b: nat, pid: string, nowA: int, nowB: int)
    returns (events: seq<Event>)
    requires Sound(logic) && Inv(logic, w) && LogsAgree(w) && SendSchedules.Timed(DeskOf(w)) && a != b
    requires AtCheck(w, a, pid, nowA) && CheckConfirm(mode, w.fsm, pid, nowA, Human, None).ConfirmWrite?
    requires AtCheck(w, b, pid, nowB) && CheckConfirm(mode, w.fsm, pid, nowB, Human, None).ConfirmWrite?
    ensures SentTwice(Run(logic, mode, w, events), pid)
  {
    var w1 := Step(logic, mode, w, DeskStep(a, Accepted));
    AtCheckOnDesk(w, a, pid, nowA);
    OpensWindow(logic, mode, w, a, pid, nowA);
    DeskStepKeeps(logic, mode, w, a);
    AdvanceTouchesOne(logic, mode, w, a);
    var w2 := OtherOpensWindow(logic, mode, w1, a, b, pid, nowB);
    var more := DisputedSendsTwice(logic, mode, w2, b, pid);
    var checks := [DeskStep(a, Accepted), DeskStep(b, Accepted)];
    TwoSteps(logic, mode, w, checks[0], checks[1]);
    RunConcat(logic, mode, w, checks, more);
    events := checks + more;
  }

  lemma OtherOpensWindow(logic: GateLogic, mode: SwitchMode, w: World, a: nat, b: nat, pid: string, now: int)
    returns (w': World)
    requires Sound(logic) && Inv(logic, w) && LogsAgree(w) && SendSchedules.Timed(DeskOf(w)) && a != b
    requires AtCheck(w, b, pid, now) && CheckConfirm(mode, DeskOf(w).fsm, pid, now, Human, None).ConfirmWrite?
    requires a in w.calls && SendSchedules.InWindow(DeskOf(w), a, pid)
    ensures w' == Step(logic, mode, w, DeskStep(b, Accepted)) && Inv(logic, w') && LogsAgree(w')
    ensures SendSchedules.Timed(DeskOf(w')) && SendSchedules.Disputed(DeskOf(w'), b, pid)
  {
    w' := Step(logic, mode, w, DeskStep(b, Accepted));
    AtCheckOnDesk(w, b, pid, now);
    OpensWindow(logic, mode, w, b, pid, now);
    DeskStepKeeps(logic, mode, w, b);
    AdvanceTouchesOne(logic, mode, w, b);
    StillInWindow(w, w', a, pid);
    assert SendSchedules.OnWayFor(DeskOf(w'), a, pid);
  }

  lemma StillInWindow(w: World, w': World, id: nat, pid: string)
    requires SendSchedules.InWindow(DeskOf(w), id, pid) && id in w.calls && id in w'.calls && w'.calls[id] == w.calls[id]
    ensures SendSchedules.InWindow(DeskOf(w'), id, pid)
  {
  }

  lemma TwoSteps(logic: GateLogic, mode: SwitchMode, w: World, e1: Event, e2: Event)
    ensures Run(logic, mode, w, [e1, e2]) == Step(logic, mode, Step(logic, mode, w, e1), e2)
  {
    assert [e1, e2][..1] == [e1] && [e1][..0] == [];
    assert Run(logic, mode, w, [e1]) == Step(logic, mode, Run(logic, mode, w, []), e1);
  }

  /**
   The failing family is reachable: from any world that undisputed writes have led to, two requests for
   one PENDING, live proposal that the gate would authorize one after the other have a run that sends it twice.
   */
  lemma OverlappingCallsSendTwice(logic: GateLogic, mode: SwitchMode, w: World, a: nat, b: nat, pid: string,
                                  ra: AuthorizationRequest, rb: AuthorizationRequest, ea: Env, eb: Env)
    returns (events: seq<Event>)
    requires Sound(logic) && Inv(logic, w) && Once(w) && a != b && pid in w.fsm.proposals
    requires a !in w.calls && a !in w.gate.calls && b !in w.calls && b !in w.gate.calls
    requires CheckConfirm(mode, w.fsm, pid, ea.sendNow, Human, None).ConfirmWrite?
    requires CheckConfirm(mode, w.fsm, pid, eb.sendNow, Human, None).ConfirmWrite?
    requires WouldAuthorize(logic, w, w.gate.st, pid, ra, ea)
    requires WouldAuthorize(logic, w, GateAfter(logic, w, pid, ra, ea), pid, rb, eb)
    ensures SentTwice(Run(logic, mode, w, events), pid)
  {
    var w1 := EntersConfirm(logic, mode, w, a, pid, ra, ea);
    var w2 := EntersConfirm(logic, mode, w1, b, pid, rb, eb);
    ReachesOn(logic, mode, w, w1, w2);
    var entered :| Run(logic, mode, w, entered) == w2;
    RunInv(logic, mode, w, entered);
    ChecksAreTimed(w, w1, a, pid, ea.sendNow);
    ChecksAreTimed(w1, w2, b, pid, eb.sendNow);
    var more := TwoChecksSendTwice(logic, mode, w2, a, b, pid, ea.sendNow, eb.sendNow);
    RunConcat(logic, mode, w, entered, more);
    events := entered + more;
  }

  /** A call that only came as far as the check has changed nothing these speak of. */
  lemma ChecksAreTimed(w: World, w': World, id: nat, pid: string, now: int)
    requires SendSchedules.Timed(DeskOf(w)) && LogsAgree(w) && w'.fsm == w.fsm
    requires KeepsOthers(w, w', id) && AtCheck(w', id, pid, now)
    ensures SendSchedules.Timed(DeskOf(w')) && LogsAgree(w')
  {
    var d, d' := DeskOf(w), DeskOf(w');
    AtCheckOnDesk(w', id, pid, now);
    DeskChange(w, w', id);
    forall k | k in d'.calls && SendSchedules.OnWay(d'.calls[k])
      ensures d'.calls[k].now >= 0 && d'.calls[k].pid in d'.fsm.proposals
    {
      assert k in d.calls && SendSchedules.OnWay(d.calls[k]);
    }
  }
}
