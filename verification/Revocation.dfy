/** Revocation end to end: from the control plane, through an untrusted relay and the gate, to the sender. */
module Revocation {
  import opened Wrappers
  import AuthzState
  import opened Gate
  import opened GateMachine
  import GateRuns
  import AntiRollback
  import HeadOrder
  import opened SendFsm
  import opened Orchestrator
  import opened OrchestratorRuns

  lemma {:induction false} RunFloor(logic: GateLogic, mode: SwitchMode, w: World, events: seq<Event>, id: nat, r: int)
    requires HeadOrder.Floor(w.gate, id, r)
    ensures HeadOrder.Floor(Run(logic, mode, w, events).gate, id, r)
  {
    if events != [] {
      var before, e := Run(logic, mode, w, events[..|events| - 1]), events[|events| - 1];
      RunFloor(logic, mode, w, events[..|events| - 1], id, r);
      StepGateIs(logic, mode, before, e);
      StepFloor(logic, before.gate, Step(logic, mode, before, e).gate, id, r);
    }
  }

  lemma StepFloor(logic: GateLogic, g: GateRuns.World, g': GateRuns.World, id: nat, r: int)
    requires HeadOrder.Floor(g, id, r) && (g' == g || exists ge :: IsGateStep(logic, g, ge, g'))
    ensures HeadOrder.Floor(g', id, r)
  {
    if g' != g {
      var ge :| IsGateStep(logic, g, ge, g');
      HeadOrder.FloorStep(logic, g, ge, id, r);
    }
  }

  lemma SentAboveFloor(logic: GateLogic, ref: AuthzState.GrantRef, r: int, w: World, i: nat)
    requires AntiRollback.HeadsExclude(logic, ref, r) && Sound(logic) && Inv(logic, w)
    requires i < |w.sends| && HeadOrder.Floor(w.gate, w.sends[i].id, r)
    ensures var id := w.sends[i].id;
            && id in w.gate.calls && w.gate.calls[id].Authorized?
            && (w.gate.calls[id].grant.grantId, w.gate.calls[id].grant.grantVersion) != ref
  {
    assert Attributed(w, w.sends[i]);
    AntiRollback.AuthorizedAboveFloor(logic, ref, r, w.gate, w.sends[i].id);
  }

  lemma UnreadIsAboveFloor(g: GateRuns.World, id: nat, r: int)
    requires HeadOrder.MarkUnread(g, id) && g.st.mark >= r
    ensures HeadOrder.Floor(g, id, r)
  {
  }

  /**
   Once the mark has reached `r`, no call that reads it from then on sends under a grant that is
   inactive at every version from `r` on, whatever the relay replays, withholds or drops and whatever
   is interleaved.
   */
  lemma RevokedNeverSends(cfg: GateConfig, cp: AuthzState.ControlPlane, ops: seq<AuthzState.ControlOp>,
                          ref: AuthzState.GrantRef, r: int, mode: SwitchMode, w0: World, before: seq<Event>,
                          after: seq<Event>, i: nat)
    requires AuthzState.Unforgeable(cfg.lib, cfg.rootKey, cp, ops) && AntiRollback.InactiveFrom(cp, ops, ref, r)
    requires Initial(w0) && Run(LogicOf(cfg), mode, w0, before).gate.st.mark >= r
    requires var w := Run(LogicOf(cfg), mode, w0, before);
             var w' := Run(LogicOf(cfg), mode, w, after);
             i < |w'.sends| && HeadOrder.MarkUnread(w.gate, w'.sends[i].id)
    ensures var w' := Run(LogicOf(cfg), mode, Run(LogicOf(cfg), mode, w0, before), after);
            var id := w'.sends[i].id;
            && id in w'.gate.calls && w'.gate.calls[id].Authorized?
            && (w'.gate.calls[id].grant.grantId, w'.gate.calls[id].grant.grantVersion) != ref
  {
    var logic := LogicOf(cfg);
    var w := Run(logic, mode, w0, before);
    var w' := Run(logic, mode, w, after);
    LogicIsSound(cfg);
    ReachableInv(logic, mode, w0, before);
    RunInv(logic, mode, w, after);
    UnreadIsAboveFloor(w.gate, w'.sends[i].id, r);
    RunFloor(logic, mode, w, after, w'.sends[i].id, r);
    AntiRollback.HeadsExcludeInactive(cfg, cp, ops, ref, r);
    SentAboveFloor(logic, ref, r, w', i);
  }
}
