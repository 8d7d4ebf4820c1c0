/** An uninterrupted call of `authorize_and_send` is a run of the interleaved machine. */
module SoloRuns {
  import opened Wrappers
  import opened Capability
  import opened Service
  import opened Gate
  import opened GateMachine
  import GateRuns
  import opened ProposalRecords
  import opened SendFsm
  import opened Orchestrator
  import opened AuthorizedSend

  // ----- reaching a world -------------------------------------------------------------

  ghost predicate Reaches(logic: GateLogic, mode: SwitchMode, w: World, w': World)
  {
    exists events :: Run(logic, mode, w, events) == w'
  }

  lemma {:induction false} RunConcat(logic: GateLogic, mode: SwitchMode, w: World, a: seq<Event>, b: seq<Event>)
    ensures Run(logic, mode, w, a + b) == Run(logic, mode, Run(logic, mode, w, a), b)
  {
    if b == [] {
      assert a + b == a;
    } else {
      RunConcat(logic, mode, w, a, b[..|b| - 1]);
      assert (a + b)[..|a + b| - 1] == a + b[..|b| - 1];
    }
  }

  lemma StepReaches(logic: GateLogic, mode: SwitchMode, w: World, e: Event)
    ensures Reaches(logic, mode, w, Step(logic, mode, w, e))
  {
    assert [e][..0] == [];
    assert Run(logic, mode, w, [e]) == Step(logic, mode, Run(logic, mode, w, []), e);
  }

  lemma ReachesOn(logic: GateLogic, mode: SwitchMode, w: World, w1: World, w2: World)
    requires Reaches(logic, mode, w, w1) && Reaches(logic, mode, w1, w2)
    ensures Reaches(logic, mode, w, w2)
  {
    var a :| Run(logic, mode, w, a) == w1;
    var b :| Run(logic, mode, w1, b) == w2;
    RunConcat(logic, mode, w, a, b);
  }

  // ----- what a call shows ------------------------------------------------------------

  /** The stores, the call and its part in the gate. */
  datatype View = View(stores: Stores, call: OrchCall, verdict: GateCall)

  ghost predicate Shows(w: World, id: nat, v: View, phase: Phase)
  {
    && id in w.calls && w.calls[id] == v.call.(phase := phase) && id in w.gate.calls && w.gate.calls[id] == v.verdict
    && w.gate.st == v.stores.gate && w.fsm == v.stores.fsm && w.records == v.stores.records
  }

  /** Nothing but call `id` has changed among the calls, and no sender was called. */
  ghost predicate KeepsOthers(w: World, w': World, id: nat)
  {
    && w'.calls.Keys == w.calls.Keys + {id} && w'.gate.calls.Keys == w.gate.calls.Keys + {id} && w'.sends == w.sends
    && forall k | k in w.calls && k != id :: w'.calls[k] == w.calls[k]
  }

  // ----- the gate ---------------------------------------------------------------------

  lemma GateAdvances(logic: GateLogic, mode: SwitchMode, w: World, e: Event, v: View)
    requires e.Advance? && Shows(w, e.id, v, InGate)
    ensures var (verdict, gate) := GateStep(logic, v.verdict, v.stores.gate, e.input);
            var v' := v.(stores := v.stores.(gate := gate), verdict := verdict);
            Shows(Step(logic, mode, w, e), e.id, v', AfterGate(v.call, verdict, e.now))
    ensures KeepsOthers(w, Step(logic, mode, w, e), e.id)
  {
  }

  lemma {:induction false} GateReaches(logic: GateLogic, mode: SwitchMode, w: World, e: Event, v: View)
    returns (w': World)
    requires e.Advance? && Shows(w, e.id, v, InGate) && !v.verdict.Ended()
    ensures Reaches(logic, mode, w, w') && KeepsOthers(w, w', e.id)
    ensures var (verdict, gate) := GateMachine.Complete(logic, v.verdict, v.stores.gate, e.input);
            var v' := v.(stores := v.stores.(gate := gate), verdict := verdict);
            Shows(w', e.id, v', AfterGate(v.call, verdict, e.now))
    decreases v.verdict.Rank()
  {
    var w1 := Step(logic, mode, w, e);
    var (verdict1, gate1) := GateStep(logic, v.verdict, v.stores.gate, e.input);
    StepReaches(logic, mode, w, e);
    GateAdvances(logic, mode, w, e, v);
    GateMachine.StepFirst(logic, v.verdict, v.stores.gate, e.input);
    if verdict1.Ended() {
      w' := w1;
    } else {
      w' := GateReaches(logic, mode, w1, e, v.(stores := v.stores.(gate := gate1), verdict := verdict1));
      ReachesOn(logic, mode, w, w1, w');
    }
  }

  lemma StepBegins(logic: GateLogic, mode: SwitchMode, w: World, id: nat, pid: string, request: AuthorizationRequest,
                   now: int)
    requires id !in w.calls && id !in w.gate.calls && pid in w.fsm.proposals
    ensures var w', v := Step(logic, mode, w, Begin(id, pid, request, now)), BeginView(w, pid, request, now);
            Shows(w', id, v, InGate) && KeepsOthers(w, w', id)
  {
  }

  /** What a call shows when it has just begun. */
  function BeginView(w: World, pid: string, request: AuthorizationRequest, now: int): View
    requires pid in w.fsm.proposals
  {
    var digest := w.fsm.proposals[pid].payloadDigest;
    View(Stores(w.gate.st, w.fsm, w.records), OrchCall(pid, digest, InGate), Syncing(CallContext(request, digest, now)))
  }

  /** A call begun and taken through the gate without interruption. */
  lemma PassesGate(logic: GateLogic, mode: SwitchMode, w: World, id: nat, pid: string, request: AuthorizationRequest,
                   env: Env)
    returns (w': World)
    requires id !in w.calls && id !in w.gate.calls && pid in w.fsm.proposals
    ensures Reaches(logic, mode, w, w') && KeepsOthers(w, w', id)
    ensures var v := BeginView(w, pid, request, env.gateNow);
            var (verdict, gate) := GateMachine.Complete(logic, v.verdict, v.stores.gate, env.input);
            var v' := v.(stores := v.stores.(gate := gate), verdict := verdict);
            Shows(w', id, v', AfterGate(v.call, verdict, env.sendNow))
  {
    var begin, v := Begin(id, pid, request, env.gateNow), BeginView(w, pid, request, env.gateNow);
    var w1 := Step(logic, mode, w, begin);
    StepReaches(logic, mode, w, begin);
    StepBegins(logic, mode, w, id, pid, request, env.gateNow);
    w' := GateReaches(logic, mode, w1, UpToCommit(id, env), v);
    ReachesOn(logic, mode, w, w1, w');
  }

  // ----- confirm, dispatch and the records --------------------------------------------

  /** The step of a call up to and including its started row. */
  function UpToCommit(id: nat, env: Env): Event
  {
    Advance(id, env.input, env.sendNow, Accepted, env.commitStart, env.startedFails)
  }

  /** The step of a call from there on. */
  function FromCommit(id: nat, env: Env): Event
  {
    Advance(id, env.input, env.sendNow, env.result, env.responseComplete, env.completedFails)
  }

  function WithFsm(v: View, fsm: FsmState): View
  {
    v.(stores := v.stores.(fsm := fsm))
  }

  lemma ConfirmAdvances(logic: GateLogic, mode: SwitchMode, w: World, e: Event, v: View, pc: FsmPc)
    requires e.Advance? && Shows(w, e.id, v, Confirming(pc))
    ensures var (pc', fsm) := FsmStep(mode, pc, v.stores.fsm, e.result);
            Shows(Step(logic, mode, w, e), e.id, WithFsm(v, fsm), AfterConfirm(pc'))
  {
  }

  lemma {:induction false} ConfirmReaches(logic: GateLogic, mode: SwitchMode, w: World, e: Event, v: View, pc: FsmPc)
    returns (w': World)
    requires e.Advance? && Shows(w, e.id, v, Confirming(pc)) && ConfirmStage(pc)
    ensures Reaches(logic, mode, w, w')
    ensures var (pc', fsm) := SendFsm.Complete(mode, pc, v.stores.fsm, e.result);
            Shows(w', e.id, WithFsm(v, fsm), AfterConfirm(pc'))
    decreases pc.Rank()
  {
    var (pc1, fsm1) := FsmStep(mode, pc, v.stores.fsm, e.result);
    StepReaches(logic, mode, w, e);
    ConfirmAdvances(logic, mode, w, e, v, pc);
    SendFsm.StepFirst(mode, pc, v.stores.fsm, e.result);
    w' := Step(logic, mode, w, e);
    if ConfirmStage(pc1) {
      var w1 := w';
      w' := ConfirmReaches(logic, mode, w1, e, WithFsm(v, fsm1), pc1);
      ReachesOn(logic, mode, w, w1, w');
    } else {
      assert pc1.Ended();
    }
  }

  lemma DispatchAdvances(logic: GateLogic, mode: SwitchMode, w: World, e: Event, v: View, pc: FsmPc, start: int)
    requires e.Advance? && Shows(w, e.id, v, Dispatching(pc, start))
    ensures var (pc', fsm) := FsmStep(mode, pc, v.stores.fsm, e.result);
            Shows(Step(logic, mode, w, e), e.id, WithFsm(v, fsm), AfterDispatch(pc', start))
  {
  }

  lemma {:induction false} DispatchReaches(logic: GateLogic, mode: SwitchMode, w: World, e: Event, v: View, pc: FsmPc,
                                           start: int)
    returns (w': World)
    requires e.Advance? && Shows(w, e.id, v, Dispatching(pc, start)) && DispatchStage(pc)
    ensures Reaches(logic, mode, w, w')
    ensures var (pc', fsm) := SendFsm.Complete(mode, pc, v.stores.fsm, e.result);
            Shows(w', e.id, WithFsm(v, fsm), AfterDispatch(pc', start))
    decreases pc.Rank()
  {
    var (pc1, fsm1) := FsmStep(mode, pc, v.stores.fsm, e.result);
    StepReaches(logic, mode, w, e);
    DispatchAdvances(logic, mode, w, e, v, pc, start);
    SendFsm.StepFirst(mode, pc, v.stores.fsm, e.result);
    w' := Step(logic, mode, w, e);
    if DispatchStage(pc1) {
      var w1 := w';
      w' := DispatchReaches(logic, mode, w1, e, WithFsm(v, fsm1), pc1, start);
      ReachesOn(logic, mode, w, w1, w');
    } else {
      assert pc1.Ended();
    }
  }

  lemma {:induction false} DispatchEnds(mode: SwitchMode, pc: FsmPc, st: FsmState, result: SendResult)
    requires DispatchStage(pc)
    ensures var pc' := SendFsm.Complete(mode, pc, st, result).0; pc'.Settled? || pc'.Raised?
    decreases pc.Rank()
  {
    var (pc1, st1) := FsmStep(mode, pc, st, result);
    SendFsm.StepFirst(mode, pc, st, result);
    if DispatchStage(pc1) {
      DispatchEnds(mode, pc1, st1, result);
    }
  }

  lemma {:induction false} ConfirmEnds(mode: SwitchMode, pc: FsmPc, st: FsmState, result: SendResult)
    requires ConfirmStage(pc)
    ensures var pc' := SendFsm.Complete(mode, pc, st, result).0; pc'.Raised? || pc' == ConfirmDone(pc.pid, pc.now)
    decreases pc.Rank()
  {
    var (pc1, st1) := FsmStep(mode, pc, st, result);
    SendFsm.StepFirst(mode, pc, st, result);
    if ConfirmStage(pc1) {
      ConfirmEnds(mode, pc1, st1, result);
    }
  }

  /** The end of `v` is `outcome` with these stores. */
  ghost predicate EndsWith(w: World, id: nat, v: View, end: (Outcome, Stores))
  {
    Shows(w, id, v.(stores := end.1), Finished(end.0))
  }

  lemma CompletedAdvances(logic: GateLogic, mode: SwitchMode, w: World, id: nat, v: View, status: ProposalStatus, env: Env)
    requires v.verdict.Authorized? && Shows(w, id, v, WritingCompleted(status, env.commitStart))
    ensures var row := Completed(BindingOf(v.call, v.verdict), v.verdict.received, env.commitStart,
                                 env.responseComplete, status);
            var end := if env.completedFails then (Unattested(status), v.stores)
                       else (Reported(status), v.stores.(records := v.stores.records + [row]));
            EndsWith(Step(logic, mode, w, FromCommit(id, env)), id, v, end)
  {
  }

  lemma StartedReaches(logic: GateLogic, mode: SwitchMode, w: World, id: nat, v: View, env: Env) returns (w': World)
    requires v.verdict.Authorized?
    requires Shows(w, id, v, Dispatching(DispatchCheck(v.call.proposalId, env.sendNow), env.commitStart))
    ensures Reaches(logic, mode, w, w') && EndsWith(w', id, v, SendStarted(mode, v.stores, v.call, v.verdict, env))
  {
    var e, pc := FromCommit(id, env), DispatchCheck(v.call.proposalId, env.sendNow);
    DispatchEnds(mode, pc, v.stores.fsm, env.result);
    w' := DispatchReaches(logic, mode, w, e, v, pc, env.commitStart);
    var (settled, fsm) := SendFsm.Complete(mode, pc, v.stores.fsm, env.result);
    if settled.Settled? {
      var w1 := w';
      CompletedAdvances(logic, mode, w1, id, WithFsm(v, fsm), settled.status, env);
      w' := Step(logic, mode, w1, e);
      StepReaches(logic, mode, w1, e);
      ReachesOn(logic, mode, w, w1, w');
    }
  }

  lemma StartedAdvances(logic: GateLogic, mode: SwitchMode, w: World, id: nat, v: View, env: Env)
    requires v.verdict.Authorized? && Shows(w, id, v, WritingStarted(env.sendNow))
    ensures var w' := Step(logic, mode, w, UpToCommit(id, env));
            var row := Started(BindingOf(v.call, v.verdict), v.verdict.received, env.commitStart);
            if env.startedFails then EndsWith(w', id, v, (RecordUnavailable, v.stores))
            else
              Shows(w', id, v.(stores := v.stores.(records := v.stores.records + [row])),
                    Dispatching(DispatchCheck(v.call.proposalId, env.sendNow), env.commitStart))
  {
  }

  lemma ClearedReaches(logic: GateLogic, mode: SwitchMode, w: World, id: nat, v: View, env: Env) returns (w': World)
    requires v.verdict.Authorized?
    requires Shows(w, id, v, Confirming(ConfirmCheck(v.call.proposalId, env.sendNow, Human, None)))
    ensures Reaches(logic, mode, w, w') && EndsWith(w', id, v, SendCleared(mode, v.stores, v.call, v.verdict, env))
  {
    var e, pc := UpToCommit(id, env), ConfirmCheck(v.call.proposalId, env.sendNow, Human, None);
    ConfirmEnds(mode, pc, v.stores.fsm, Accepted);
    w' := ConfirmReaches(logic, mode, w, e, v, pc);
    var (confirmed, fsm) := SendFsm.Complete(mode, pc, v.stores.fsm, Accepted);
    if confirmed.ConfirmDone? {
      var w1 := w';
      StartedAdvances(logic, mode, w1, id, WithFsm(v, fsm), env);
      w' := Step(logic, mode, w1, e);
      StepReaches(logic, mode, w1, e);
      ReachesOn(logic, mode, w, w1, w');
      if !env.startedFails {
        var w2, row := w', Started(BindingOf(v.call, v.verdict), v.verdict.received, env.commitStart);
        w' := StartedReaches(logic, mode, w2, id, v.(stores := Stores(v.stores.gate, fsm, v.stores.records + [row])), env);
        ReachesOn(logic, mode, w, w2, w');
      }
    }
  }

  /** From any state, an uninterrupted call is a run of the interleaved machine with the same outcome and stores. */
  lemma SoloIsRun(logic: GateLogic, mode: SwitchMode, w: World, id: nat, pid: string, request: AuthorizationRequest,
                  env: Env)
    returns (w': World)
    requires id !in w.calls && id !in w.gate.calls && pid in w.fsm.proposals
    ensures Reaches(logic, mode, w, w')
    ensures var (outcome, s) := SendSolo(logic, mode, Stores(w.gate.st, w.fsm, w.records), pid, request, env);
            && id in w'.calls && w'.calls[id].phase == Finished(outcome)
            && w'.gate.st == s.gate && w'.fsm == s.fsm && w'.records == s.records
  {
    var v := BeginView(w, pid, request, env.gateNow);
    var (verdict, gate) := GateMachine.Complete(logic, v.verdict, v.stores.gate, env.input);
    w' := PassesGate(logic, mode, w, id, pid, request, env);
    if verdict.Authorized? && verdict.decision.disposition != NEEDS_APPROVAL {
      var w1 := w';
      w' := ClearedReaches(logic, mode, w1, id, v.(stores := v.stores.(gate := gate), verdict := verdict), env);
      ReachesOn(logic, mode, w, w1, w');
    }
  }
}
