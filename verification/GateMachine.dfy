/**
 A gate call as a machine over its atomic operations.

 A call moves through the stages of `GateCall`. Between two stages it touches shared state at
 most once: reading or raising the mark, consuming a request or a decision, appending one audit
 row. Whatever the environment decides (the relay's and the service's replies, clock readings,
 failing local state) comes in as an `Input`.
 */
module GateMachine {
  import opened Wrappers
  import opened Jcs
  import opened Capability
  import opened Service
  import opened AuthzState
  import opened DecisionPolicy
  import opened Gate

  /** The gate's pure checks, so that the machine is stated apart from how they are computed. */
  datatype GateLogic = GateLogic(
    acceptEnvelope: Json -> Checked<VerifiedHead>,
    verifyGrant: AuthorizationRequest -> Checked<Grant>,
    localDecisions: (AuthorizationRequest, int, VerifiedHead, Grant, PeerReply) -> Checked<()>,
    verifyResponse: (CallContext, VerifiedHead, Grant, Decision, int, int) -> Checked<()>,
    denialRow: (CallContext, DenialReason, Option<string>, Option<Grant>) -> AuditRow)

  // The checks of a configured gate, one by one.

  function AcceptEnvelopeOf(cfg: GateConfig): Json -> Checked<VerifiedHead>
  {
    env => AcceptEnvelope(cfg, env)
  }

  function VerifyGrantOf(cfg: GateConfig): AuthorizationRequest -> Checked<Grant>
  {
    request => VerifyGrant(cfg, request)
  }

  function LocalDecisionsOf(cfg: GateConfig)
    : (AuthorizationRequest, int, VerifiedHead, Grant, PeerReply) -> Checked<()>
  {
    (request, now, head, grant, peer) => LocalDecisions(cfg, request, now, head, grant, peer)
  }

  function VerifyResponseOf(cfg: GateConfig): (CallContext, VerifiedHead, Grant, Decision, int, int) -> Checked<()>
  {
    (ctx, head, grant, decision, wall, elapsed) => VerifyResponse(cfg, ctx, head, grant, decision, wall, elapsed)
  }

  function DenialRowOf(cfg: GateConfig): (CallContext, DenialReason, Option<string>, Option<Grant>) -> AuditRow
  {
    (ctx, reason, detail, known) => DenialRow(cfg.lib, ctx, reason, detail, known)
  }

  function LogicOf(cfg: GateConfig): GateLogic
  {
    GateLogic(AcceptEnvelopeOf(cfg), VerifyGrantOf(cfg), LocalDecisionsOf(cfg), VerifyResponseOf(cfg), DenialRowOf(cfg))
  }

  predicate IsSuccess(row: AuditRow)
  {
    row.code == AUTHORIZED || row.code == NEEDS_APPROVAL
  }

  /** What the machine relies on: what passing a check means. */
  ghost predicate Sound(logic: GateLogic)
  {
    && (forall request, now, head, grant, peer | logic.localDecisions(request, now, head, grant, peer).Passed? ::
          MembershipOf(head, grant.grantId, grant.grantVersion).Active?)
    && (forall ctx, head, grant, decision, wall, elapsed
          | logic.verifyResponse(ctx, head, grant, decision, wall, elapsed).Passed? ::
          AgreesOn(decision, ExpectedBindingOf(ctx.request, grant, head, ctx.actionDigest)))
    && (forall ctx, reason, detail, known ::
          var row := logic.denialRow(ctx, reason, detail, known);
          !IsSuccess(row) && row.requestId == ctx.request.requestId)
  }

  lemma DenialCodes(reason: DenialReason)
    ensures ReasonCode(reason) != AUTHORIZED && ReasonCode(reason) != NEEDS_APPROVAL
  {
    assert ReasonCode(reason)[0] == 'd' && AUTHORIZED[0] == 'a' && NEEDS_APPROVAL[0] == 'n';
  }

  lemma LogicIsSound(cfg: GateConfig)
    ensures Sound(LogicOf(cfg))
  {
    var logic := LogicOf(cfg);
    forall ctx, reason, detail, known
      ensures var row := logic.denialRow(ctx, reason, detail, known);
              !IsSuccess(row) && row.requestId == ctx.request.requestId
    {
      DenialCodes(reason);
    }
  }

  datatype GateCall =
    | Syncing(ctx: CallContext)
    | CheckingMark(ctx: CallContext, head: VerifiedHead)
    | RaisingMark(ctx: CallContext, head: VerifiedHead)
    | ConsumingRequest(ctx: CallContext, head: VerifiedHead, grant: Grant)
    | Deciding(ctx: CallContext, head: VerifiedHead, grant: Grant)
    | ConsumingDecision(ctx: CallContext, head: VerifiedHead, grant: Grant, decision: Decision, received: int)
    | Recording(ctx: CallContext, head: VerifiedHead, grant: Grant, decision: Decision, received: int)
    | Denying(ctx: CallContext, reason: DenialReason, detail: Option<string>, known: Option<Grant>)
    // Ends: an Authorization, the coarse denial, an audit row that could not be written, any other error.
    | Authorized(ctx: CallContext, head: VerifiedHead, grant: Grant, decision: Decision, received: int)
    | Denied(ctx: CallContext)
    | Unrecorded(ctx: CallContext, head: VerifiedHead, grant: Grant, decision: Decision, received: int)
    | Faulted(ctx: CallContext)
  {
    predicate Ended()
    {
      Authorized? || Denied? || Unrecorded? || Faulted?
    }

    /** Steps still possible, at most. */
    function Rank(): nat
    {
      match this
      case Syncing(_) => 8
      case CheckingMark(_, _) => 7
      case RaisingMark(_, _) => 6
      case ConsumingRequest(_, _, _) => 5
      case Deciding(_, _, _) => 4
      case ConsumingDecision(_, _, _, _, _) => 3
      case Recording(_, _, _, _, _) => 2
      case Denying(_, _, _, _) => 1
      case _ => 0
    }
  }

  datatype RelayReply = Delivered(env: Json) | Unreachable | RelayError

  datatype DecideReply =
    | Decided(decision: Decision)
    | ServiceUnreachable
    | ServiceMalformed(detail: Option<string>)
    | ServiceRefused(reason: DenialReason, detail: Option<string>)
    | ServiceError

  datatype Input = Input(
    relay: RelayReply,
    markUnreadable: bool,
    raiseFails: bool,
    peer: PeerReply,
    requestConsumerFails: bool,
    sent: int,
    decide: DecideReply,
    received: int,
    wallVerified: int,
    verified: int,
    decisionConsumerFails: bool,
    auditFails: bool)

  /** What the checks make of what the relay delivered. */
  function Opened(logic: GateLogic, env: Json): Checked<VerifiedHead>
  {
    logic.acceptEnvelope(env)
  }

  function AfterOpen(ctx: CallContext, checked: Checked<VerifiedHead>): GateCall
  {
    match checked
    case Refused(reason, detail) => Denying(ctx, reason, detail, None)
    case Fault => Faulted(ctx)
    case Passed(head) => CheckingMark(ctx, head)
  }

  function AfterSync(logic: GateLogic, ctx: CallContext, relay: RelayReply): GateCall
  {
    match relay
    case Unreachable => Denying(ctx, CloudUnreachable, None, None)
    case RelayError => Faulted(ctx)
    case Delivered(env) => AfterOpen(ctx, Opened(logic, env))
  }

  function AfterAccept(logic: GateLogic, ctx: CallContext, head: VerifiedHead, peer: PeerReply): GateCall
  {
    match Granted(logic, ctx.request)
    case Refused(reason, detail) => Denying(ctx, reason, detail, None)
    case Fault => Faulted(ctx)
    case Passed(grant) =>
      match Localized(logic, ctx, head, grant, peer)
      case Refused(reason, detail) => Denying(ctx, reason, detail, Some(grant))
      case Fault => Faulted(ctx)
      case Passed(_) => ConsumingRequest(ctx, head, grant)
  }

  /** What the checks make of the grant presented. */
  function Granted(logic: GateLogic, request: AuthorizationRequest): Checked<Grant>
  {
    logic.verifyGrant(request)
  }

  /** What the local decisions come to. */
  function Localized(logic: GateLogic, ctx: CallContext, head: VerifiedHead, grant: Grant, peer: PeerReply): Checked<()>
  {
    logic.localDecisions(ctx.request, ctx.now, head, grant, peer)
  }

  /** The end of a call whose `decide` gave no decision. */
  function AfterNoDecision(ctx: CallContext, grant: Grant, reply: DecideReply): GateCall
    requires !reply.Decided?
  {
    match reply
    case ServiceUnreachable => Denying(ctx, CloudUnreachable, None, Some(grant))
    case ServiceMalformed(detail) => Denying(ctx, InvalidArtifact, detail, Some(grant))
    case ServiceRefused(reason, detail) => Denying(ctx, reason, detail, Some(grant))
    case ServiceError => Denying(ctx, InternalError, None, Some(grant))
  }

  function AfterDecide(logic: GateLogic, ctx: CallContext, head: VerifiedHead, grant: Grant, input: Input): GateCall
  {
    if !input.decide.Decided? then AfterNoDecision(ctx, grant, input.decide)
    else
      var decision := input.decide.decision;
      AfterVerify(ctx, head, grant, decision, input.received,
                  Judged(logic, ctx, head, grant, decision, input.wallVerified, Elapsed(input)))
  }

  /** From sending the request to having verified the decision, on the continuous clock. */
  function Elapsed(input: Input): int
  {
    input.verified - input.sent
  }

  /** What the checks make of a decision. */
  function Judged(logic: GateLogic, ctx: CallContext, head: VerifiedHead, grant: Grant, decision: Decision, wall: int,
                  elapsed: int): Checked<()>
  {
    logic.verifyResponse(ctx, head, grant, decision, wall, elapsed)
  }

  function AfterVerify(ctx: CallContext, head: VerifiedHead, grant: Grant, decision: Decision, received: int,
                       verified: Checked<()>): GateCall
  {
    match verified
    case Refused(reason, detail) => Denying(ctx, reason, detail, Some(grant))
    case Fault => Faulted(ctx)
    case Passed(_) => ConsumingDecision(ctx, head, grant, decision, received)
  }

  /** One atomic step of one call. */
  function GateStep(logic: GateLogic, call: GateCall, st: GateState, input: Input): (r: (GateCall, GateState))
    ensures r.0.ctx == call.ctx
    ensures !call.Ended() ==> r.0.Rank() < call.Rank()
    ensures call.Ended() ==> r == (call, st)
  {
    match call
    case Syncing(ctx) => (AfterSync(logic, ctx, input.relay), st)
    case CheckingMark(ctx, head) =>
      if input.markUnreadable then (Denying(ctx, StateUnavailable, None, None), st)
      else if head.content.version < st.mark then (Denying(ctx, VersionRegress, None, None), st)
      else (RaisingMark(ctx, head), st)
    case RaisingMark(ctx, head) =>
      if input.raiseFails then (Denying(ctx, StateUnavailable, None, None), st)
      else (AfterAccept(logic, ctx, head, input.peer), st.(mark := Max(st.mark, head.content.version)))
    case ConsumingRequest(ctx, head, grant) =>
      var key := RequestKey(grant.grantId, ctx.request.requestId);
      if input.requestConsumerFails then (Denying(ctx, StateUnavailable, None, Some(grant)), st)
      else if key in st.requests then (Denying(ctx, Replay, Some("request_id_reused"), Some(grant)), st)
      else (Deciding(ctx, head, grant), st.(requests := st.requests[key := ctx.actionDigest]))
    case Deciding(ctx, head, grant) => (AfterDecide(logic, ctx, head, grant, input), st)
    case ConsumingDecision(ctx, head, grant, decision, received) =>
      if input.decisionConsumerFails then (Denying(ctx, StateUnavailable, None, Some(grant)), st)
      else if decision.decisionId in st.decisions then
        (Denying(ctx, Replay, Some("decision_reused"), Some(grant)), st)
      else
        (Recording(ctx, head, grant, decision, received),
         st.(decisions := st.decisions[decision.decisionId := ctx.actionDigest]))
    case Recording(ctx, head, grant, decision, received) =>
      if input.auditFails then (Unrecorded(ctx, head, grant, decision, received), st)
      else
        (Authorized(ctx, head, grant, decision, received),
         st.(audit := st.audit + [SuccessRow(ctx, head, grant, decision)]))
    case Denying(ctx, reason, detail, known) =>
      if input.auditFails then (Faulted(ctx), st)
      else (Denied(ctx), st.(audit := st.audit + [logic.denialRow(ctx, reason, detail, known)]))
    case _ => (call, st)
  }

  /** A call run to its end with nothing interleaved. */
  function Complete(logic: GateLogic, call: GateCall, st: GateState, input: Input): (r: (GateCall, GateState))
    ensures r.0.Ended() && r.0.ctx == call.ctx
    decreases call.Rank()
  {
    if call.Ended() then (call, st)
    else
      var (call', st') := GateStep(logic, call, st, input);
      Complete(logic, call', st', input)
  }

  lemma StepFirst(logic: GateLogic, call: GateCall, st: GateState, input: Input)
    requires !call.Ended()
    ensures var (call', st') := GateStep(logic, call, st, input);
            Complete(logic, call, st, input) == Complete(logic, call', st', input)
  {
  }

  /** How a call goes on from the relay's reply. */
  lemma SyncingRuns(logic: GateLogic, ctx: CallContext, st: GateState, input: Input)
    ensures Complete(logic, Syncing(ctx), st, input) == Complete(logic, AfterSync(logic, ctx, input.relay), st, input)
  {
    StepFirst(logic, Syncing(ctx), st, input);
  }

  lemma LogicOpens(cfg: GateConfig, env: Json)
    ensures Opened(LogicOf(cfg), env) == AcceptEnvelope(cfg, env)
  {
  }

  /** How a call goes on from reading the mark. */
  lemma CheckingRuns(logic: GateLogic, ctx: CallContext, head: VerifiedHead, st: GateState, input: Input)
    ensures Complete(logic, CheckingMark(ctx, head), st, input) ==
            if input.markUnreadable then Complete(logic, Denying(ctx, StateUnavailable, None, None), st, input)
            else if head.content.version < st.mark then
              Complete(logic, Denying(ctx, VersionRegress, None, None), st, input)
            else if input.raiseFails then Complete(logic, Denying(ctx, StateUnavailable, None, None), st, input)
            else
              Complete(logic, AfterAccept(logic, ctx, head, input.peer),
                       st.(mark := Max(st.mark, head.content.version)), input)
  {
    StepFirst(logic, CheckingMark(ctx, head), st, input);
    StepFirst(logic, RaisingMark(ctx, head), st, input);
  }

  /** How a call goes on from the decision consumer. */
  lemma ConsumingRuns(logic: GateLogic, ctx: CallContext, head: VerifiedHead, grant: Grant, decision: Decision,
                      received: int, st: GateState, input: Input)
    ensures Complete(logic, ConsumingDecision(ctx, head, grant, decision, received), st, input) ==
            if input.decisionConsumerFails then
              Complete(logic, Denying(ctx, StateUnavailable, None, Some(grant)), st, input)
            else if decision.decisionId in st.decisions then
              Complete(logic, Denying(ctx, Replay, Some("decision_reused"), Some(grant)), st, input)
            else
              Complete(logic, Recording(ctx, head, grant, decision, received),
                       st.(decisions := st.decisions[decision.decisionId := ctx.actionDigest]), input)
  {
    StepFirst(logic, ConsumingDecision(ctx, head, grant, decision, received), st, input);
  }

  /** How a call goes on from the reply of `decide`. */
  lemma DecidingRuns(logic: GateLogic, ctx: CallContext, head: VerifiedHead, grant: Grant, st: GateState, input: Input)
    ensures Complete(logic, Deciding(ctx, head, grant), st, input) ==
            Complete(logic, AfterDecide(logic, ctx, head, grant, input), st, input)
  {
    StepFirst(logic, Deciding(ctx, head, grant), st, input);
  }

  lemma LogicVerifies(cfg: GateConfig, ctx: CallContext, head: VerifiedHead, grant: Grant, decision: Decision, wall: int,
                      elapsed: int)
    ensures Judged(LogicOf(cfg), ctx, head, grant, decision, wall, elapsed) ==
            VerifyResponse(cfg, ctx, head, grant, decision, wall, elapsed)
  {
  }

  /** What a gate makes of a decision that its checks judge `verified`. */
  lemma AfterDecideIs(logic: GateLogic, ctx: CallContext, head: VerifiedHead, grant: Grant, verified: Checked<()>,
                      input: Input)
    requires input.decide.Decided?
    requires verified == Judged(logic, ctx, head, grant, input.decide.decision, input.wallVerified,
                                Elapsed(input))
    ensures AfterDecide(logic, ctx, head, grant, input) ==
            AfterVerify(ctx, head, grant, input.decide.decision, input.received, verified)
  {
  }
}
