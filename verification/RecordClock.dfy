/** The order of the three clock readings in the dispatch record. */
module RecordClock {
  import opened Wrappers
  import opened Capability
  import opened Service
  import opened Gate
  import opened GateMachine
  import GateRuns
  import opened ProposalRecords
  import opened SendFsm
  import opened Orchestrator
  import opened OrchestratorRuns

  // ----- the shared clock -------------------------------------------------------------

  /** The clock never runs backwards, within a step or between steps. */
  predicate ClockOk(w: World, e: Event)
  {
    e.Advance? ==> w.clock <= e.input.received <= e.clock
  }

  predicate MonotoneRun(logic: GateLogic, mode: SwitchMode, w: World, events: seq<Event>)
  {
    events == [] ||
    (MonotoneRun(logic, mode, w, events[..|events| - 1]) &&
     ClockOk(Run(logic, mode, w, events[..|events| - 1]), events[|events| - 1]))
  }

  ghost predicate RowOrdered(row: DispatchRow)
  {
    row.received <= row.commitStart && (row.Completed? ==> row.commitStart <= row.responseComplete)
  }

  predicate Received(call: GateCall)
  {
    call.ConsumingDecision? || GateRuns.HoldsDecision(call)
  }

  ghost predicate GateClock(g: GateRuns.World, clock: int)
  {
    forall id | id in g.calls && Received(g.calls[id]) :: g.calls[id].received <= clock
  }

  ghost predicate StartOrdered(w: World, id: nat, start: int)
  {
    start <= w.clock && (HasAuthorization(w, id) ==> w.gate.calls[id].received <= start)
  }

  ghost predicate PhaseClock(w: World, id: nat)
    requires id in w.calls
  {
    match w.calls[id].phase
    case Dispatching(_, start) => HasAuthorization(w, id) && StartOrdered(w, id, start)
    case WritingCompleted(_, start) => HasAuthorization(w, id) && StartOrdered(w, id, start)
    case _ => true
  }

  ghost predicate Ordered(w: World)
  {
    && GateClock(w.gate, w.clock) && (forall id | id in w.calls :: PhaseClock(w, id))
    && (forall i | 0 <= i < |w.records| :: RowOrdered(w.records[i]))
  }

  lemma GateStepClock(logic: GateLogic, g: GateRuns.World, id: nat, input: Input, before: int, after: int)
    requires GateClock(g, before) && before <= input.received <= after
    ensures GateClock(GateRuns.Step(logic, g, GateRuns.Advance(id, input)), after)
  {
  }

  lemma CallsStayOrdered(w: World, w': World)
    requires Ordered(w) && w.clock <= w'.clock
    requires forall k | k in w.gate.calls && w.gate.calls[k].Authorized? ::
               k in w'.gate.calls && w'.gate.calls[k] == w.gate.calls[k]
    requires forall k | k in w'.calls :: PhaseClock(w', k) || (k in w.calls && w'.calls[k] == w.calls[k])
    ensures forall k | k in w'.calls :: PhaseClock(w', k)
  {
    forall k | k in w'.calls ensures PhaseClock(w', k) {
      assert k in w.calls ==> PhaseClock(w, k);
    }
  }

  lemma GateStepOrdered(w: World, id: nat, now: int, g': GateRuns.World, clock: int)
    requires Ordered(w) && id in w.calls && w.calls[id].phase.InGate? && w.clock <= clock
    requires GateMoves(w.gate, g', id) && GateClock(g', clock)
    ensures Ordered(AfterGateStep(w, id, now, g').(clock := clock))
  {
    var w' := AfterGateStep(w, id, now, g').(clock := clock);
    assert PhaseClock(w', id);
    CallsStayOrdered(w, w');
  }

  lemma ConfirmStepOrdered(w: World, id: nat, pc: FsmPc, fsm: FsmState, clock: int)
    requires Ordered(w) && id in w.calls && w.clock <= clock
    ensures Ordered(AfterConfirmStep(w, id, pc, fsm).(clock := clock))
  {
    var w' := AfterConfirmStep(w, id, pc, fsm).(clock := clock);
    assert PhaseClock(w', id);
    CallsStayOrdered(w, w');
  }

  lemma DispatchStepOrdered(w: World, id: nat, start: int, pc: FsmPc, fsm: FsmState, sent: bool, clock: int)
    requires Ordered(w) && id in w.calls && w.clock <= clock && HasAuthorization(w, id) && StartOrdered(w, id, start)
    ensures Ordered(AfterDispatchStep(w, id, start, pc, fsm, sent).(clock := clock))
  {
    var w' := AfterDispatchStep(w, id, start, pc, fsm, sent).(clock := clock);
    assert PhaseClock(w', id);
    CallsStayOrdered(w, w');
  }

  lemma RecordOrdered(w: World, w': World, id: nat, row: DispatchRow)
    requires Ordered(w) && w'.gate == w.gate && w.clock <= w'.clock && RowOrdered(row)
    requires w'.records == w.records || w'.records == w.records + [row]
    requires id in w'.calls && PhaseClock(w', id)
    requires forall k | k in w'.calls && k != id :: k in w.calls && w'.calls[k] == w.calls[k]
    ensures Ordered(w')
  {
    CallsStayOrdered(w, w');
  }

  lemma AdvanceRecordsOrdered(logic: GateLogic, mode: SwitchMode, w: World, e: Event)
    requires Ordered(w) && e.Advance? && e.id in w.calls && w.clock <= e.clock
    requires w.calls[e.id].phase.WritingStarted? || w.calls[e.id].phase.WritingCompleted?
    ensures Ordered(AdvanceCall(logic, mode, w, e).(clock := e.clock))
  {
    assert PhaseClock(w, e.id);
    var w' := AdvanceCall(logic, mode, w, e).(clock := e.clock);
    if HasAuthorization(w, e.id) {
      var phase, gate := w.calls[e.id].phase, w.gate.calls[e.id];
      var b := BindingOf(w.calls[e.id], gate);
      var row := if phase.WritingStarted? then Started(b, gate.received, e.clock)
                 else Completed(b, gate.received, phase.commitStart, e.clock, phase.status);
      assert PhaseClock(w', e.id);
      RecordOrdered(w, w', e.id, row);
    } else {
      CallsStayOrdered(w, w');
    }
  }

  lemma AdvanceOrdered(logic: GateLogic, mode: SwitchMode, w: World, e: Event)
    requires Ordered(w) && e.Advance? && e.id in w.calls && !w.calls[e.id].phase.InGate? && w.clock <= e.clock
    ensures Ordered(AdvanceCall(logic, mode, w, e).(clock := e.clock))
  {
    assert PhaseClock(w, e.id);
    var phase := w.calls[e.id].phase;
    if phase.Confirming? {
      var (pc, fsm) := FsmStep(mode, phase.pc, w.fsm, e.result);
      ConfirmStepOrdered(w, e.id, pc, fsm, e.clock);
    } else if phase.Dispatching? {
      var (pc, fsm) := FsmStep(mode, phase.pc, w.fsm, e.result);
      DispatchStepOrdered(w, e.id, phase.commitStart, pc, fsm, phase.pc.Sending?, e.clock);
    } else if phase.Finished? {
      CallsStayOrdered(w, w.(clock := e.clock));
    } else {
      AdvanceRecordsOrdered(logic, mode, w, e);
    }
  }

  lemma AdvanceGateOrdered(logic: GateLogic, mode: SwitchMode, w: World, e: Event)
    requires Ordered(w) && e.Advance? && e.id in w.calls && w.calls[e.id].phase.InGate? && ClockOk(w, e)
    ensures Ordered(AdvanceCall(logic, mode, w, e).(clock := e.clock))
  {
    if e.id in w.gate.calls {
      var ge := GateRuns.Advance(e.id, e.input);
      GateStepClock(logic, w.gate, e.id, e.input, w.clock, e.clock);
      GateStepMoves(logic, w.gate, ge);
      GateStepOrdered(w, e.id, e.now, GateRuns.Step(logic, w.gate, ge), e.clock);
    } else {
      CallsStayOrdered(w, w.(clock := e.clock));
    }
  }

  lemma StepOrdered(logic: GateLogic, mode: SwitchMode, w: World, e: Event)
    requires Ordered(w) && ClockOk(w, e)
    ensures Ordered(Step(logic, mode, w, e))
  {
    if e.Advance? {
      if e.id in w.calls {
        if w.calls[e.id].phase.InGate? {
          AdvanceGateOrdered(logic, mode, w, e);
        } else {
          AdvanceOrdered(logic, mode, w, e);
        }
      }
    } else {
      CallsStayOrdered(w, Step(logic, mode, w, e));
    }
  }

  lemma {:induction false} RunOrdered(logic: GateLogic, mode: SwitchMode, w: World, events: seq<Event>)
    requires Ordered(w) && MonotoneRun(logic, mode, w, events)
    ensures Ordered(Run(logic, mode, w, events))
  {
    if events != [] {
      RunOrdered(logic, mode, w, events[..|events| - 1]);
      StepOrdered(logic, mode, Run(logic, mode, w, events[..|events| - 1]), events[|events| - 1]);
    }
  }

  /** On a monotone clock the offsets of every row are in the order of the events they stamp. */
  lemma OffsetsNeverDecrease(logic: GateLogic, mode: SwitchMode, w0: World, events: seq<Event>)
    requires Initial(w0) && MonotoneRun(logic, mode, w0, events)
    ensures forall row | row in Run(logic, mode, w0, events).records :: RowOrdered(row)
  {
    RunOrdered(logic, mode, w0, events);
  }
}
