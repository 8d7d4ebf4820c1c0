/** Every sender call is attributed, and every outcome recorded, in runs of any number of `authorize_and_send` calls. */
module Attribution {
  import opened Wrappers
  import opened Capability
  import opened Service
  import opened DecisionPolicy
  import opened Gate
  import opened GateMachine
  import GateRuns
  import opened ProposalRecords
  import opened SendFsm
  import opened Orchestrator
  import opened OrchestratorRuns
  import opened AuthorizedSend

  /** An `authorized` row for this decision, request and payload. */
  ghost predicate AuthorizedRow(row: AuditRow, grant: Grant, b: Binding)
  {
    && row.code == AUTHORIZED && row.requestId == b.requestId && row.decisionId == Some(b.decisionId)
    && row.actionDigest == Some(b.actionDigest) && row.grantId == Some(grant.grantId) && row.grantIdVerified
  }

  /** What the binding of a call's records must be: its decision and request, its proposal and that proposal's digest. */
  function ExpectedRecord(w: World, s: SenderCall): Binding
    requires s.id in w.gate.calls && w.gate.calls[s.id].Authorized? && s.proposalId in w.fsm.proposals
  {
    var gate := w.gate.calls[s.id];
    Binding(gate.decision.decisionId, gate.ctx.request.requestId, s.proposalId, w.fsm.proposals[s.proposalId].payloadDigest)
  }

  ghost predicate CallerAuthorized(w: World, s: SenderCall)
  {
    s.id in w.gate.calls && w.gate.calls[s.id].Authorized? && s.proposalId in w.fsm.proposals
  }

  /** The log of authorizations held the row before the sender was called. */
  ghost predicate AuthorizationLogged(w: World, s: SenderCall)
    requires CallerAuthorized(w, s)
  {
    exists k :: 0 <= k < s.auditLength <= |w.gate.st.audit| &&
                AuthorizedRow(w.gate.st.audit[k], w.gate.calls[s.id].grant, ExpectedRecord(w, s))
  }

  /** The record log held the started row before the sender was called. */
  ghost predicate StartLogged(w: World, s: SenderCall)
    requires CallerAuthorized(w, s)
  {
    exists k :: 0 <= k < s.recordLength <= |w.records| &&
                StartedFor(w.records[k], ExpectedRecord(w, s), w.gate.calls[s.id].received)
  }

  lemma CallerIsAuthorized(w: World, i: nat)
    requires Rest(w) && i < |w.sends|
    ensures CallerAuthorized(w, w.sends[i]) && w.gate.calls[w.sends[i].id].grant.approvalMode.Auto?
    ensures var s := w.sends[i];
            s.id in w.calls && Attributed(w, s) && BindingOf(w.calls[s.id], w.gate.calls[s.id]) == ExpectedRecord(w, s)
  {
    assert Attributed(w, w.sends[i]);
    assert CallOk(w, w.sends[i].id);
  }

  lemma StartIsLogged(w: World, i: nat)
    requires Rest(w) && i < |w.sends| && CallerAuthorized(w, w.sends[i])
    ensures StartLogged(w, w.sends[i])
  {
    CallerIsAuthorized(w, i);
  }

  lemma AuthorizationIsLogged(w: World, i: nat)
    requires GateRuns.OneRowPerVerdict(w.gate) && Rest(w) && i < |w.sends| && CallerAuthorized(w, w.sends[i])
    ensures AuthorizationLogged(w, w.sends[i])
  {
    var s, g := w.sends[i], w.gate;
    CallerIsAuthorized(w, i);
    assert CallOk(w, s.id);
    var k :| 0 <= k < s.auditLength <= |g.owners| && g.owners[k] == s.id;
    AuthorizedRowFits(g, s.id, k, ExpectedRecord(w, s));
  }

  lemma AuthorizedRowFits(g: GateRuns.World, id: nat, k: nat, b: Binding)
    requires GateRuns.OneRowPerVerdict(g) && k < |g.owners| && g.owners[k] == id
    requires id in g.calls && g.calls[id].Authorized? && g.calls[id].grant.approvalMode.Auto?
    requires b.decisionId == g.calls[id].decision.decisionId && b.requestId == g.calls[id].ctx.request.requestId
    requires b.actionDigest == g.calls[id].ctx.actionDigest
    ensures AuthorizedRow(g.st.audit[k], g.calls[id].grant, b)
  {
    assert GateRuns.OwnerFits(g, k);
  }

  /** The grant presented verified, and the decision was about this request and this payload. */
  lemma CallerIsVerified(logic: GateLogic, w: World, i: nat)
    requires Sound(logic) && GateRuns.CallsJustified(logic, w.gate) && Rest(w)
    requires i < |w.sends| && CallerAuthorized(w, w.sends[i])
    ensures var gate, b := w.gate.calls[w.sends[i].id], ExpectedRecord(w, w.sends[i]);
            && logic.verifyGrant(gate.ctx.request) == Passed(gate.grant)
            && gate.decision.actionDigest == b.actionDigest && gate.decision.requestId == b.requestId
  {
    var gate := w.gate.calls[w.sends[i].id];
    CallerIsAuthorized(w, i);
    assert CallOk(w, w.sends[i].id);
    assert GateRuns.Justified(logic, gate);
    GateRuns.AuthorizedMeans(logic, gate);
  }

  /**
   Whatever is interleaved and wherever calls stop: before the sender was called for a proposal, the
   audit log held an `authorized` row for that proposal's digest, the record log held a started row
   for the same decision, request, proposal and digest, and the grant presented had verified in auto mode.
   */
  lemma SenderCallsAreAttributed(cfg: GateConfig, mode: SwitchMode, w0: World, events: seq<Event>, i: nat)
    requires Initial(w0) && i < |Run(LogicOf(cfg), mode, w0, events).sends|
    ensures var w := Run(LogicOf(cfg), mode, w0, events);
            var s := w.sends[i];
            && CallerAuthorized(w, s)
            && var gate, b := w.gate.calls[s.id], ExpectedRecord(w, s);
               && VerifyGrant(cfg, gate.ctx.request) == Passed(gate.grant) && gate.grant.approvalMode.Auto?
               && gate.decision.actionDigest == b.actionDigest && gate.decision.requestId == b.requestId
               && AuthorizationLogged(w, s) && StartLogged(w, s)
  {
    var logic := LogicOf(cfg);
    var w := Run(logic, mode, w0, events);
    LogicIsSound(cfg);
    ReachableInv(logic, mode, w0, events);
    CallerIsAuthorized(w, i);
    CallerIsVerified(logic, w, i);
    AuthorizationIsLogged(w, i);
    StartIsLogged(w, i);
    assert logic.verifyGrant(w.gate.calls[w.sends[i].id].ctx.request) == Passed(w.gate.calls[w.sends[i].id].grant);
  }

  ghost predicate DistinctDecisions(w: World, s: SenderCall, t: SenderCall)
  {
    && CallerAuthorized(w, s) && CallerAuthorized(w, t) && s.id != t.id
    && w.gate.calls[s.id].decision.decisionId != w.gate.calls[t.id].decision.decisionId
  }

  lemma DecisionsDiffer(w: World, i: nat, j: nat)
    requires GateRuns.DecisionsSingleUse(w.gate) && Rest(w) && i < j < |w.sends|
    ensures DistinctDecisions(w, w.sends[i], w.sends[j])
  {
    CallerIsAuthorized(w, i);
    CallerIsAuthorized(w, j);
    assert GateRuns.HoldsDecision(w.gate.calls[w.sends[i].id]) && GateRuns.HoldsDecision(w.gate.calls[w.sends[j].id]);
  }

  /** No two sender calls come from one call or rest on one decision. */
  lemma SenderCallsHaveDistinctDecisions(cfg: GateConfig, mode: SwitchMode, w0: World, events: seq<Event>, i: nat, j: nat)
    requires Initial(w0) && i < j < |Run(LogicOf(cfg), mode, w0, events).sends|
    ensures var w := Run(LogicOf(cfg), mode, w0, events); DistinctDecisions(w, w.sends[i], w.sends[j])
  {
    LogicIsSound(cfg);
    ReachableInv(LogicOf(cfg), mode, w0, events);
    DecisionsDiffer(Run(LogicOf(cfg), mode, w0, events), i, j);
  }

  /** A reported outcome belongs to a call with both rows. */
  ghost predicate ReportedHasRows(w: World, id: nat)
  {
    id in w.calls && w.calls[id].phase.Finished? && w.calls[id].phase.outcome.Reported? ==>
      Cleared(w, id) && BothRows(w, id, w.calls[id].phase.outcome.status)
  }

  /** A completed row has its started row before it; a reported outcome has both, so a lone started row is never reported. */
  lemma TwoPhaseRecords(cfg: GateConfig, mode: SwitchMode, w0: World, events: seq<Event>)
    requires Initial(w0)
    ensures RecordsPaired(Run(LogicOf(cfg), mode, w0, events).records)
    ensures forall id :: ReportedHasRows(Run(LogicOf(cfg), mode, w0, events), id)
  {
    LogicIsSound(cfg);
    ReachableInv(LogicOf(cfg), mode, w0, events);
    ReportsHaveRows(Run(LogicOf(cfg), mode, w0, events));
  }

  lemma ReportsHaveRows(w: World)
    requires CallsOk(w)
    ensures forall id :: ReportedHasRows(w, id)
  {
    forall id ensures ReportedHasRows(w, id) {
      assert id in w.calls ==> CallOk(w, id);
    }
  }

  // ----- what `find` says about a reported outcome ------------------------------------

  /** The two rows are found, the first before the second. */
  ghost predicate FoundBefore(found: seq<DispatchRow>, first: DispatchRow, second: DispatchRow)
  {
    exists a, b :: 0 <= a < b < |found| && found[a] == first && found[b] == second
  }

  lemma IsFound(rows: seq<DispatchRow>, row: DispatchRow, pid: string, requestId: string, digest: string)
    requires row in rows && NoBlank(pid, requestId, digest) && Binds(row, pid, requestId, digest)
    ensures row in Find(rows, pid, requestId, digest)
  {
    FindIsExact(rows, pid, requestId, digest, row);
    assert row in multiset(rows);
    assert row in multiset(Find(rows, pid, requestId, digest));
  }

  /** Rows that bind are found in the order in which they were written. */
  lemma FoundInOrder(rows: seq<DispatchRow>, i: nat, j: nat, pid: string, requestId: string, digest: string)
    requires i < j < |rows| && NoBlank(pid, requestId, digest)
    requires Binds(rows[i], pid, requestId, digest) && Binds(rows[j], pid, requestId, digest)
    ensures FoundBefore(Find(rows, pid, requestId, digest), rows[i], rows[j])
  {
    assert rows == rows[..j] + rows[j..];
    FindKeepsOrder(rows[..j], rows[j..], pid, requestId, digest);
    assert rows[..j][i] == rows[i] && rows[j..][0] == rows[j];
    IsFound(rows[..j], rows[i], pid, requestId, digest);
    IsFound(rows[j..], rows[j], pid, requestId, digest);
    var before, after := Find(rows[..j], pid, requestId, digest), Find(rows[j..], pid, requestId, digest);
    var a :| 0 <= a < |before| && before[a] == rows[i];
    var b :| 0 <= b < |after| && after[b] == rows[j];
    assert (before + after)[a] == rows[i] && (before + after)[|before| + b] == rows[j];
  }

  /** `find` yields the call's started row and, after it, the row with its outcome. */
  ghost predicate OutcomeIsFound(found: seq<DispatchRow>, b: Binding, status: ProposalStatus)
  {
    exists received, start, complete ::
      FoundBefore(found, Started(b, received, start), Completed(b, received, start, complete, status))
  }

  /**
   An outcome handed back is found under its proposal, request and digest, its started row before its
   completed one, exactly when none of the three is blank.
   */
  lemma ReportedIsFound(cfg: GateConfig, mode: SwitchMode, w0: World, events: seq<Event>, id: nat)
    requires Initial(w0) && id in Run(LogicOf(cfg), mode, w0, events).calls
    requires var phase := Run(LogicOf(cfg), mode, w0, events).calls[id].phase; phase.Finished? && phase.outcome.Reported?
    ensures var w := Run(LogicOf(cfg), mode, w0, events);
            && Cleared(w, id)
            && var b := BindingOf(w.calls[id], w.gate.calls[id]);
               var found := Find(w.records, b.proposalId, b.requestId, b.actionDigest);
               OutcomeIsFound(found, b, w.calls[id].phase.outcome.status)
               <==> NoBlank(b.proposalId, b.requestId, b.actionDigest)
  {
    var w := Run(LogicOf(cfg), mode, w0, events);
    TwoPhaseRecords(cfg, mode, w0, events);
    assert ReportedHasRows(w, id);
    var b, status := BindingOf(w.calls[id], w.gate.calls[id]), w.calls[id].phase.outcome.status;
    if NoBlank(b.proposalId, b.requestId, b.actionDigest) {
      CompletedIsFound(w, id, status);
    }
  }

  lemma CompletedIsFound(w: World, id: nat, status: ProposalStatus)
    requires RecordsPaired(w.records) && id in w.calls && Cleared(w, id) && BothRows(w, id, status)
    requires var b := BindingOf(w.calls[id], w.gate.calls[id]); NoBlank(b.proposalId, b.requestId, b.actionDigest)
    ensures var b := BindingOf(w.calls[id], w.gate.calls[id]);
            OutcomeIsFound(Find(w.records, b.proposalId, b.requestId, b.actionDigest), b, status)
  {
    var b, received := BindingOf(w.calls[id], w.gate.calls[id]), w.gate.calls[id].received;
    var start, complete :| Started(b, received, start) in w.records &&
                           Completed(b, received, start, complete, status) in w.records;
    var j :| 0 <= j < |w.records| && w.records[j] == Completed(b, received, start, complete, status);
    var i :| 0 <= i < j && w.records[i] == Started(b, received, start);
    FoundInOrder(w.records, i, j, b.proposalId, b.requestId, b.actionDigest);
  }
}
