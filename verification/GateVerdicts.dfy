/** When a gate call reaches a verdict: exactly when no stage it consults faults, and then with its one audit row. */
module GateVerdicts {
  import opened Wrappers
  import opened Jcs
  import opened Capability
  import opened Service
  import opened AuthzState
  import opened Gate
  import opened GateMachine
  import GateRuns
  import opened GateFaults

  // ----- one step ---------------------------------------------------------------------

  lemma LogicGrants(cfg: GateConfig, request: AuthorizationRequest)
    ensures Granted(LogicOf(cfg), request) == VerifyGrant(cfg, request)
  {
  }

  lemma LogicLocalizes(cfg: GateConfig, ctx: CallContext, head: VerifiedHead, grant: Grant, peer: PeerReply)
    ensures Localized(LogicOf(cfg), ctx, head, grant, peer) == LocalDecisions(cfg, ctx.request, ctx.now, head, grant, peer)
  {
  }

  /** After the head is accepted: the grant faults, or it passes and the local decisions fault. */
  ghost predicate AcceptFaults(cfg: GateConfig, ctx: CallContext, head: VerifiedHead, peer: PeerReply)
  {
    || GrantFaults(cfg, ctx.request)
    || (VerifyGrant(cfg, ctx.request).Passed? && LocalFaults(cfg, ctx, head, VerifyGrant(cfg, ctx.request).value, peer))
  }

  ghost predicate DecideFaults(reply: DecideReply)
  {
    reply.Decided? && !SafeInteger(reply.decision.decidedAt)
  }

  /** What makes the next step of a call end it without a verdict. */
  ghost predicate StageFaults(cfg: GateConfig, call: GateCall, input: Input)
  {
    match call
    case Syncing(_) => input.relay.RelayError? || (input.relay.Delivered? && RelayFaults(cfg, input.relay.env))
    case RaisingMark(ctx, head) => !input.raiseFails && AcceptFaults(cfg, ctx, head, input.peer)
    case Deciding(_, _, _) => DecideFaults(input.decide)
    case Denying(_, _, _, _) => input.auditFails
    case _ => false
  }

  lemma AfterAcceptFaults(logic: GateLogic, ctx: CallContext, head: VerifiedHead, peer: PeerReply)
    ensures AfterAccept(logic, ctx, head, peer).Faulted? <==>
            var granted := Granted(logic, ctx.request);
            granted.Fault? || (granted.Passed? && Localized(logic, ctx, head, granted.value, peer).Fault?)
  {
  }

  lemma GrantedFaultIff(cfg: GateConfig, request: AuthorizationRequest)
    ensures var granted := Granted(LogicOf(cfg), request);
            && (granted.Fault? <==> GrantFaults(cfg, request)) && (granted.Passed? <==> VerifyGrant(cfg, request).Passed?)
            && (granted.Passed? ==> granted.value == VerifyGrant(cfg, request).value)
  {
    LogicGrants(cfg, request);
    GrantFaultIff(cfg, request);
  }

  lemma LocalizedFaultIff(cfg: GateConfig, ctx: CallContext, head: VerifiedHead, grant: Grant, peer: PeerReply)
    ensures Localized(LogicOf(cfg), ctx, head, grant, peer).Fault? <==> LocalFaults(cfg, ctx, head, grant, peer)
  {
    LogicLocalizes(cfg, ctx, head, grant, peer);
    LocalFaultIff(cfg, ctx, head, grant, peer);
  }

  lemma AcceptFaultsIff(cfg: GateConfig, ctx: CallContext, head: VerifiedHead, peer: PeerReply)
    ensures AfterAccept(LogicOf(cfg), ctx, head, peer).Faulted? <==> AcceptFaults(cfg, ctx, head, peer)
  {
    AfterAcceptFaults(LogicOf(cfg), ctx, head, peer);
    GrantedFaultIff(cfg, ctx.request);
    var granted := Granted(LogicOf(cfg), ctx.request);
    if granted.Passed? {
      LocalizedFaultIff(cfg, ctx, head, granted.value, peer);
    }
  }

  lemma DecideFaultsIff(cfg: GateConfig, ctx: CallContext, head: VerifiedHead, grant: Grant, input: Input)
    ensures AfterDecide(LogicOf(cfg), ctx, head, grant, input).Faulted? <==> DecideFaults(input.decide)
  {
    if input.decide.Decided? {
      LogicVerifies(cfg, ctx, head, grant, input.decide.decision, input.wallVerified, Elapsed(input));
      DecisionFaultIff(cfg, ctx, head, grant, input.decide.decision, input.wallVerified, Elapsed(input));
    }
  }

  lemma OpenedFaultIff(cfg: GateConfig, env: Json)
    ensures var head := Opened(LogicOf(cfg), env);
            && (head.Fault? <==> RelayFaults(cfg, env)) && (head.Passed? <==> AcceptEnvelope(cfg, env).Passed?)
            && (head.Passed? ==> head.value == AcceptEnvelope(cfg, env).value)
  {
    LogicOpens(cfg, env);
    RelayFaultIff(cfg, env);
  }

  lemma AfterSyncFaults(logic: GateLogic, ctx: CallContext, relay: RelayReply)
    ensures AfterSync(logic, ctx, relay).Faulted? <==>
            relay.RelayError? || (relay.Delivered? && Opened(logic, relay.env).Fault?)
  {
  }

  lemma SyncFaultsIff(cfg: GateConfig, ctx: CallContext, relay: RelayReply)
    ensures AfterSync(LogicOf(cfg), ctx, relay).Faulted? <==>
            relay.RelayError? || (relay.Delivered? && RelayFaults(cfg, relay.env))
  {
    AfterSyncFaults(LogicOf(cfg), ctx, relay);
    if relay.Delivered? {
      OpenedFaultIff(cfg, relay.env);
    }
  }

  /** The exact condition, whatever is interleaved: a step ends a call without a verdict exactly when its stage faults. */
  lemma StepFaultsIff(cfg: GateConfig, call: GateCall, st: GateState, input: Input)
    requires !call.Ended()
    ensures GateStep(LogicOf(cfg), call, st, input).0.Faulted? <==> StageFaults(cfg, call, input)
  {
    match call
    case Syncing(ctx) => SyncFaultsIff(cfg, ctx, input.relay);
    case RaisingMark(ctx, head) => AcceptFaultsIff(cfg, ctx, head, input.peer);
    case Deciding(ctx, head, grant) => DecideFaultsIff(cfg, ctx, head, grant, input);
    case _ =>
  }

  // ----- a whole call -----------------------------------------------------------------

  /** A verdict, with one row of its own. */
  ghost predicate WithVerdict(st: GateState, end: (GateCall, GateState))
  {
    && GateRuns.Verdict(end.0) && |end.1.audit| == |st.audit| + 1 && st.audit <= end.1.audit
    && GateRuns.RowFits(end.0, end.1.audit[|st.audit|])
  }

  /** No verdict and no row. */
  ghost predicate Unjudged(st: GateState, end: (GateCall, GateState))
  {
    end.0.Faulted? && end.1.audit == st.audit
  }

  ghost predicate EndsBy(faults: bool, st: GateState, end: (GateCall, GateState))
  {
    if faults then Unjudged(st, end) else WithVerdict(st, end)
  }

  lemma FromDenying(logic: GateLogic, call: GateCall, st: GateState, input: Input)
    requires Sound(logic) && call.Denying? && !input.auditFails
    ensures EndsBy(false, st, Complete(logic, call, st, input))
  {
    StepFirst(logic, call, st, input);
  }

  lemma FromRecording(logic: GateLogic, call: GateCall, st: GateState, input: Input)
    requires call.Recording? && !input.auditFails
    ensures EndsBy(false, st, Complete(logic, call, st, input))
  {
    StepFirst(logic, call, st, input);
  }

  lemma FromConsumingDecision(logic: GateLogic, call: GateCall, st: GateState, input: Input)
    requires Sound(logic) && call.ConsumingDecision? && !input.auditFails
    ensures EndsBy(false, st, Complete(logic, call, st, input))
  {
    StepFirst(logic, call, st, input);
    var (call', st') := GateStep(logic, call, st, input);
    if call'.Denying? {
      FromDenying(logic, call', st', input);
    } else {
      FromRecording(logic, call', st', input);
    }
  }

  /** `AfterDecide` ends, denies or goes on to the decision consumer. */
  lemma FromDeciding(logic: GateLogic, call: GateCall, st: GateState, input: Input, faults: bool)
    requires Sound(logic) && call.Deciding? && !input.auditFails
    requires faults <==> AfterDecide(logic, call.ctx, call.head, call.grant, input).Faulted?
    ensures EndsBy(faults, st, Complete(logic, call, st, input))
  {
    var next := AfterDecide(logic, call.ctx, call.head, call.grant, input);
    DecidingRuns(logic, call.ctx, call.head, call.grant, st, input);
    if next.Denying? {
      FromDenying(logic, next, st, input);
    } else if next.ConsumingDecision? {
      FromConsumingDecision(logic, next, st, input);
    }
  }

  /** The request is consumed, and then the decision faults. */
  ghost predicate RequestFaults(ctx: CallContext, grant: Grant, st: GateState, input: Input)
  {
    && !input.requestConsumerFails && RequestKey(grant.grantId, ctx.request.requestId) !in st.requests
    && DecideFaults(input.decide)
  }

  lemma FromRequest(cfg: GateConfig, call: GateCall, st: GateState, input: Input)
    requires Sound(LogicOf(cfg)) && call.ConsumingRequest? && !input.auditFails
    ensures EndsBy(RequestFaults(call.ctx, call.grant, st, input), st, Complete(LogicOf(cfg), call, st, input))
  {
    var logic := LogicOf(cfg);
    StepFirst(logic, call, st, input);
    var (call', st') := GateStep(logic, call, st, input);
    if call'.Denying? {
      FromDenying(logic, call', st', input);
    } else {
      DecideFaultsIff(cfg, call.ctx, call.head, call.grant, input);
      FromDeciding(logic, call', st', input, DecideFaults(input.decide));
    }
  }

  /** From the accepted head on: its checks fault, or they pass and the rest faults. */
  ghost predicate HeadOnFaults(cfg: GateConfig, ctx: CallContext, head: VerifiedHead, st: GateState, input: Input)
  {
    || AcceptFaults(cfg, ctx, head, input.peer)
    || (VerifyGrant(cfg, ctx.request).Passed? &&
        var grant := VerifyGrant(cfg, ctx.request).value;
        LocalDecisions(cfg, ctx.request, ctx.now, head, grant, input.peer).Passed? && RequestFaults(ctx, grant, st, input))
  }

  lemma AfterAcceptIs(logic: GateLogic, ctx: CallContext, head: VerifiedHead, peer: PeerReply)
    ensures var next, granted := AfterAccept(logic, ctx, head, peer), Granted(logic, ctx.request);
            && (next.Denying? || next.Faulted? || next.ConsumingRequest?)
            && (next.ConsumingRequest? <==> granted.Passed? && Localized(logic, ctx, head, granted.value, peer).Passed?)
            && (next.ConsumingRequest? ==> next == ConsumingRequest(ctx, head, granted.value))
  {
  }

  lemma LocalizedPasses(cfg: GateConfig, ctx: CallContext, head: VerifiedHead, grant: Grant, peer: PeerReply)
    ensures Localized(LogicOf(cfg), ctx, head, grant, peer).Passed? <==>
            LocalDecisions(cfg, ctx.request, ctx.now, head, grant, peer).Passed?
  {
    LogicLocalizes(cfg, ctx, head, grant, peer);
  }

  lemma AfterAcceptPasses(cfg: GateConfig, ctx: CallContext, head: VerifiedHead, peer: PeerReply)
    ensures var next := AfterAccept(LogicOf(cfg), ctx, head, peer);
            && (next.Denying? || next.Faulted? || next.ConsumingRequest?)
            && (next.ConsumingRequest? <==>
                  VerifyGrant(cfg, ctx.request).Passed? &&
                  LocalDecisions(cfg, ctx.request, ctx.now, head, VerifyGrant(cfg, ctx.request).value, peer).Passed?)
            && (next.ConsumingRequest? ==> next == ConsumingRequest(ctx, head, VerifyGrant(cfg, ctx.request).value))
  {
    AfterAcceptIs(LogicOf(cfg), ctx, head, peer);
    GrantedFaultIff(cfg, ctx.request);
    var granted := Granted(LogicOf(cfg), ctx.request);
    if granted.Passed? {
      LocalizedPasses(cfg, ctx, head, granted.value, peer);
    }
  }

  lemma FromAccepted(cfg: GateConfig, ctx: CallContext, head: VerifiedHead, st: GateState, input: Input)
    requires Sound(LogicOf(cfg)) && !input.auditFails
    ensures EndsBy(HeadOnFaults(cfg, ctx, head, st, input), st,
                   Complete(LogicOf(cfg), AfterAccept(LogicOf(cfg), ctx, head, input.peer), st, input))
  {
    var next := AfterAccept(LogicOf(cfg), ctx, head, input.peer);
    AfterAcceptPasses(cfg, ctx, head, input.peer);
    AcceptFaultsIff(cfg, ctx, head, input.peer);
    if next.Denying? {
      FromDenying(LogicOf(cfg), next, st, input);
    } else if next.ConsumingRequest? {
      FromRequest(cfg, next, st, input);
    }
  }

  /** The mark lets the head through, and then a check faults. */
  ghost predicate MarkOnFaults(cfg: GateConfig, ctx: CallContext, head: VerifiedHead, st: GateState, input: Input)
  {
    && !input.markUnreadable && head.content.version >= st.mark && !input.raiseFails
    && HeadOnFaults(cfg, ctx, head, st, input)
  }

  lemma FromChecking(cfg: GateConfig, ctx: CallContext, head: VerifiedHead, st: GateState, input: Input)
    requires Sound(LogicOf(cfg)) && !input.auditFails
    ensures EndsBy(MarkOnFaults(cfg, ctx, head, st, input), st, Complete(LogicOf(cfg), CheckingMark(ctx, head), st, input))
  {
    var logic := LogicOf(cfg);
    CheckingRuns(logic, ctx, head, st, input);
    if input.markUnreadable || input.raiseFails {
      FromDenying(logic, Denying(ctx, StateUnavailable, None, None), st, input);
    }
    if head.content.version < st.mark {
      FromDenying(logic, Denying(ctx, VersionRegress, None, None), st, input);
    }
    FromAccepted(cfg, ctx, head, st.(mark := Max(st.mark, head.content.version)), input);
  }

  /**
   Something the call consults faults: the relay or what it delivered, the grant presented, the subject check or
   the decision, each only if everything before it has passed.
   */
  ghost predicate CallFaults(cfg: GateConfig, ctx: CallContext, st: GateState, input: Input)
  {
    || input.relay.RelayError?
    || (input.relay.Delivered? &&
        (|| RelayFaults(cfg, input.relay.env)
         || (AcceptEnvelope(cfg, input.relay.env).Passed? &&
             MarkOnFaults(cfg, ctx, AcceptEnvelope(cfg, input.relay.env).value, st, input))))
  }

  lemma FromOpened(cfg: GateConfig, ctx: CallContext, checked: Checked<VerifiedHead>, st: GateState, input: Input)
    requires Sound(LogicOf(cfg)) && !input.auditFails
    ensures EndsBy(checked.Fault? || (checked.Passed? && MarkOnFaults(cfg, ctx, checked.value, st, input)), st,
                   Complete(LogicOf(cfg), AfterOpen(ctx, checked), st, input))
  {
    match checked
    case Refused(reason, detail) => FromDenying(LogicOf(cfg), AfterOpen(ctx, checked), st, input);
    case Fault =>
    case Passed(head) => FromChecking(cfg, ctx, head, st, input);
  }

  lemma FromSyncing(cfg: GateConfig, ctx: CallContext, st: GateState, input: Input)
    requires Sound(LogicOf(cfg)) && !input.auditFails
    ensures EndsBy(CallFaults(cfg, ctx, st, input), st, Complete(LogicOf(cfg), Syncing(ctx), st, input))
  {
    SyncingRuns(LogicOf(cfg), ctx, st, input);
    if input.relay.Delivered? {
      OpenedFaultIff(cfg, input.relay.env);
      FromOpened(cfg, ctx, Opened(LogicOf(cfg), input.relay.env), st, input);
    } else if !input.relay.RelayError? {
      FromDenying(LogicOf(cfg), AfterSync(LogicOf(cfg), ctx, input.relay), st, input);
    }
  }

  /**
   With a working log, a call ends in a verdict with its one row exactly when nothing it consults faults;
   otherwise it leaves neither.
   */
  lemma VerdictIff(cfg: GateConfig, ctx: CallContext, st: GateState, input: Input)
    requires !input.auditFails
    ensures var end := Complete(LogicOf(cfg), Syncing(ctx), st, input);
            && (WithVerdict(st, end) <==> !CallFaults(cfg, ctx, st, input))
            && (Unjudged(st, end) <==> CallFaults(cfg, ctx, st, input))
  {
    LogicIsSound(cfg);
    FromSyncing(cfg, ctx, st, input);
  }
}
