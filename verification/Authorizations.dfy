/** What a verdict and its row stand for, from the bytes that came in to the fields that are written. */
module Authorizations {
  import opened Wrappers
  import opened Jcs
  import opened Capability
  import opened Service
  import opened AuthzState
  import opened DecisionPolicy
  import opened Gate
  import opened GateChecks
  import opened GateMachine
  import opened GateDelivery
  import GateRuns

  // ----- the grant --------------------------------------------------------------------

  /** The request presents this grant: signed by the user root, every field said in its body, of the pinned issuer. */
  predicate Presents(cfg: GateConfig, request: AuthorizationRequest, g: Grant)
  {
    && SignedAs(cfg, request.grantEnvelope, "grant") && SaysGrant(cfg.lib, BodyOf(request.grantEnvelope), g)
    && g.issuerFp == cfg.pinnedIssuer
  }

  lemma PresentsIff(cfg: GateConfig, request: AuthorizationRequest, g: Grant)
    ensures VerifyGrant(cfg, request) == Passed(g) <==> Presents(cfg, request, g)
  {
    var env := request.grantEnvelope;
    SignedIff(cfg, env, "grant");
    if ParseEnvelope(cfg.lib, env).Ok? {
      var artifact := ParseEnvelope(cfg.lib, env).value;
      GrantArtifactIff(cfg, artifact);
      GrantIsRead(cfg.lib, artifact.body, g);
    }
  }

  // ----- an authorization -------------------------------------------------------------

  /** The head lists the grant and counts it as not revoked, and it is in its interval, within policy and for this account. */
  predicate InForce(cfg: GateConfig, ctx: CallContext, head: VerifiedHead, g: Grant)
  {
    && (g.grantId, g.grantVersion) in head.content.active && g.grantId !in head.seenRevocations
    && g.validFrom - 300 <= ctx.now <= g.validUntil + 300 && g.validUntil - g.validFrom <= 604_800
    && g.fromAccount == cfg.account
  }

  /** A signed decision that says what the gate derives itself, in its window and before the deadline. */
  predicate Decides(cfg: GateConfig, ctx: CallContext, head: VerifiedHead, g: Grant, d: Decision, wall: int, elapsed: int)
  {
    && DecisionSigningInput(d).Ok? && cfg.lib.verify(cfg.decisionKey, DecisionSigningInput(d).value, d.sig)
    && AgreesWithGate(d, ctx, head, g) && ctx.now - 300 <= d.decidedAt <= wall + 300 && elapsed <= 5_000_000_000
  }

  ghost predicate HeadDelivered(cfg: GateConfig, head: VerifiedHead)
  {
    exists env :: Delivers(cfg, env, head)
  }

  ghost predicate SubjectSeen(cfg: GateConfig, ctx: CallContext, g: Grant)
  {
    exists peer :: SubjectProven(cfg, ctx.request, ctx.now, g, peer)
  }

  ghost predicate DecisionSeen(cfg: GateConfig, ctx: CallContext, head: VerifiedHead, g: Grant, d: Decision)
  {
    exists wall, elapsed :: Decides(cfg, ctx, head, g, d, wall, elapsed)
  }

  lemma GenuineIsDelivered(cfg: GateConfig, head: VerifiedHead)
    requires GateRuns.Genuine(LogicOf(cfg), head)
    ensures HeadDelivered(cfg, head)
  {
    var env :| LogicOf(cfg).acceptEnvelope(env) == Passed(head);
    AcceptedIff(cfg, env, head);
    assert Delivers(cfg, env, head);
  }

  lemma LocalIsInForce(cfg: GateConfig, ctx: CallContext, head: VerifiedHead, g: Grant)
    requires exists peer :: LogicOf(cfg).localDecisions(ctx.request, ctx.now, head, g, peer).Passed?
    ensures InForce(cfg, ctx, head, g) && SubjectSeen(cfg, ctx, g)
  {
    var peer :| LogicOf(cfg).localDecisions(ctx.request, ctx.now, head, g, peer).Passed?;
    LocalDecisionsIff(cfg, ctx.request, ctx.now, head, g, peer);
    assert SubjectProven(cfg, ctx.request, ctx.now, g, peer);
  }

  lemma ResponseDecides(cfg: GateConfig, ctx: CallContext, head: VerifiedHead, g: Grant, d: Decision)
    requires exists wall, elapsed :: LogicOf(cfg).verifyResponse(ctx, head, g, d, wall, elapsed).Passed?
    ensures DecisionSeen(cfg, ctx, head, g, d)
  {
    var wall, elapsed :| LogicOf(cfg).verifyResponse(ctx, head, g, d, wall, elapsed).Passed?;
    ResponseIff(cfg, ctx, head, g, d, wall, elapsed);
    assert Decides(cfg, ctx, head, g, d, wall, elapsed);
  }

  /** Everything an authorization stands on, on the bytes and fields that came in. */
  ghost predicate StandsOn(cfg: GateConfig, ctx: CallContext, head: VerifiedHead, g: Grant, d: Decision)
  {
    && HeadDelivered(cfg, head) && Presents(cfg, ctx.request, g) && InForce(cfg, ctx, head, g)
    && SubjectSeen(cfg, ctx, g) && DecisionSeen(cfg, ctx, head, g, d)
  }

  lemma PassedStandsOn(cfg: GateConfig, ctx: CallContext, head: VerifiedHead, g: Grant, d: Decision)
    requires GateRuns.PassedAll(LogicOf(cfg), ctx, head, g, d)
    ensures StandsOn(cfg, ctx, head, g, d)
  {
    GenuineIsDelivered(cfg, head);
    PresentsIff(cfg, ctx.request, g);
    LocalIsInForce(cfg, ctx, head, g);
    ResponseDecides(cfg, ctx, head, g, d);
  }

  /**
   What an authorization means, whatever is interleaved: the relay delivered a signed head that lists the
   grant and no revocation of it; the grant presented is signed, read in full, of the pinned issuer, in
   its interval, within policy and for this account; its subject was proven; and a signed, timely decision
   agrees with the gate on every bound field.
   */
  lemma AuthorizationMeans(cfg: GateConfig, w0: GateRuns.World, events: seq<GateRuns.Event>, id: nat)
    requires GateRuns.Initial(w0) && id in GateRuns.Run(LogicOf(cfg), w0, events).calls
    requires GateRuns.Run(LogicOf(cfg), w0, events).calls[id].Authorized?
    ensures var call := GateRuns.Run(LogicOf(cfg), w0, events).calls[id];
            StandsOn(cfg, call.ctx, call.head, call.grant, call.decision)
  {
    var w := GateRuns.Run(LogicOf(cfg), w0, events);
    LogicIsSound(cfg);
    GateRuns.ReachableInv(LogicOf(cfg), w0, events);
    assert GateRuns.Justified(LogicOf(cfg), w.calls[id]);
    PassedStandsOn(cfg, w.calls[id].ctx, w.calls[id].head, w.calls[id].grant, w.calls[id].decision);
  }

  // ----- when an uninterrupted call authorizes ----------------------------------------

  /** The call ends in this authorization, and leaves this state. */
  ghost predicate EndsAuthorized(end: (GateCall, GateState), ctx: CallContext, head: VerifiedHead, g: Grant, input: Input,
                                 st': GateState)
  {
    input.decide.Decided? && end == (Authorized(ctx, head, g, input.decide.decision, input.received), st')
  }

  lemma DenyingEnds(logic: GateLogic, call: GateCall, st: GateState, input: Input)
    requires call.Denying?
    ensures !Complete(logic, call, st, input).0.Authorized?
  {
    StepFirst(logic, call, st, input);
  }

  /** From the decision consumer on. */
  lemma FromConsumingDecision(logic: GateLogic, ctx: CallContext, head: VerifiedHead, g: Grant, d: Decision, st: GateState,
                              input: Input)
    requires input.decide == Decided(d)
    ensures var end := Complete(logic, ConsumingDecision(ctx, head, g, d, input.received), st, input);
            var goes := !input.decisionConsumerFails && d.decisionId !in st.decisions && !input.auditFails;
            && (end.0.Authorized? <==> goes)
            && (goes ==> EndsAuthorized(end, ctx, head, g, input,
                                        st.(decisions := st.decisions[d.decisionId := ctx.actionDigest],
                                            audit := st.audit + [SuccessRow(ctx, head, g, d)])))
  {
    ConsumingRuns(logic, ctx, head, g, d, input.received, st, input);
    if input.decisionConsumerFails {
      DenyingEnds(logic, Denying(ctx, StateUnavailable, None, Some(g)), st, input);
    } else if d.decisionId in st.decisions {
      DenyingEnds(logic, Denying(ctx, Replay, Some("decision_reused"), Some(g)), st, input);
    } else {
      var st1 := st.(decisions := st.decisions[d.decisionId := ctx.actionDigest]);
      StepFirst(logic, Recording(ctx, head, g, d, input.received), st1, input);
    }
  }

  /** The reply is a decision that passes and was not used before, and local state works. */
  ghost predicate DecisionGoes(logic: GateLogic, ctx: CallContext, head: VerifiedHead, g: Grant, st: GateState, input: Input)
  {
    && input.decide.Decided?
    && Judged(logic, ctx, head, g, input.decide.decision, input.wallVerified, Elapsed(input)).Passed?
    && !input.decisionConsumerFails && input.decide.decision.decisionId !in st.decisions && !input.auditFails
  }

  lemma FromVerified(logic: GateLogic, ctx: CallContext, head: VerifiedHead, g: Grant, d: Decision, verified: Checked<()>,
                     st: GateState, input: Input)
    requires input.decide == Decided(d)
    ensures var end := Complete(logic, AfterVerify(ctx, head, g, d, input.received, verified), st, input);
            var goes := verified.Passed? && !input.decisionConsumerFails && d.decisionId !in st.decisions &&
                        !input.auditFails;
            && (end.0.Authorized? <==> goes)
            && (goes ==> EndsAuthorized(end, ctx, head, g, input,
                                        st.(decisions := st.decisions[d.decisionId := ctx.actionDigest],
                                            audit := st.audit + [SuccessRow(ctx, head, g, d)])))
  {
    match verified
    case Refused(reason, detail) => DenyingEnds(logic, Denying(ctx, reason, detail, Some(g)), st, input);
    case Fault =>
    case Passed(_) => FromConsumingDecision(logic, ctx, head, g, d, st, input);
  }

  lemma FromDeciding(logic: GateLogic, ctx: CallContext, head: VerifiedHead, g: Grant, st: GateState, input: Input)
    ensures var end := Complete(logic, Deciding(ctx, head, g), st, input);
            && (end.0.Authorized? <==> DecisionGoes(logic, ctx, head, g, st, input))
            && (DecisionGoes(logic, ctx, head, g, st, input) ==>
                  var d := input.decide.decision;
                  EndsAuthorized(end, ctx, head, g, input,
                                 st.(decisions := st.decisions[d.decisionId := ctx.actionDigest],
                                     audit := st.audit + [SuccessRow(ctx, head, g, d)])))
  {
    DecidingRuns(logic, ctx, head, g, st, input);
    if input.decide.Decided? {
      var verified := Judged(logic, ctx, head, g, input.decide.decision, input.wallVerified, Elapsed(input));
      AfterDecideIs(logic, ctx, head, g, verified, input);
      FromVerified(logic, ctx, head, g, input.decide.decision, verified, st, input);
    } else {
      DenyingEnds(logic, AfterNoDecision(ctx, g, input.decide), st, input);
    }
  }

  /** The request is new too. */
  ghost predicate RequestGoes(logic: GateLogic, ctx: CallContext, head: VerifiedHead, g: Grant, st: GateState, input: Input)
  {
    && !input.requestConsumerFails && g.grantId + "\0" + ctx.request.requestId !in st.requests
    && DecisionGoes(logic, ctx, head, g, st, input)
  }

  /** The state after an authorization: both ids consumed for this payload, and one row. */
  function StateAfter(ctx: CallContext, head: VerifiedHead, g: Grant, d: Decision, st: GateState): GateState
  {
    st.(requests := st.requests[g.grantId + "\0" + ctx.request.requestId := ctx.actionDigest],
        decisions := st.decisions[d.decisionId := ctx.actionDigest],
        audit := st.audit + [GateRuns.RowWritten(ctx, head, g, d)])
  }

  lemma FromRequest(logic: GateLogic, ctx: CallContext, head: VerifiedHead, g: Grant, st: GateState, input: Input)
    ensures var end := Complete(logic, ConsumingRequest(ctx, head, g), st, input);
            && (end.0.Authorized? <==> RequestGoes(logic, ctx, head, g, st, input))
            && (RequestGoes(logic, ctx, head, g, st, input) ==>
                  EndsAuthorized(end, ctx, head, g, input, StateAfter(ctx, head, g, input.decide.decision, st)))
  {
    var key := RequestKey(g.grantId, ctx.request.requestId);
    StepFirst(logic, ConsumingRequest(ctx, head, g), st, input);
    if input.requestConsumerFails {
      DenyingEnds(logic, Denying(ctx, StateUnavailable, None, Some(g)), st, input);
    } else if key in st.requests {
      DenyingEnds(logic, Denying(ctx, Replay, Some("request_id_reused"), Some(g)), st, input);
    } else {
      if input.decide.Decided? {
        GateRuns.SuccessRowIsWritten(ctx, head, g, input.decide.decision);
      }
      FromDeciding(logic, ctx, head, g, st.(requests := st.requests[key := ctx.actionDigest]), input);
    }
  }

  /** The grant and the local decisions pass too. */
  ghost predicate GrantGoes(logic: GateLogic, ctx: CallContext, head: VerifiedHead, g: Grant, st: GateState, input: Input)
  {
    && Granted(logic, ctx.request) == Passed(g) && Localized(logic, ctx, head, g, input.peer).Passed?
    && RequestGoes(logic, ctx, head, g, st, input)
  }

  lemma FromAccepted(logic: GateLogic, ctx: CallContext, head: VerifiedHead, st: GateState, input: Input)
    ensures var end := Complete(logic, AfterAccept(logic, ctx, head, input.peer), st, input);
            && (end.0.Authorized? <==> exists g :: GrantGoes(logic, ctx, head, g, st, input))
            && forall g | GrantGoes(logic, ctx, head, g, st, input) ::
                 EndsAuthorized(end, ctx, head, g, input, StateAfter(ctx, head, g, input.decide.decision, st))
  {
    var granted := Granted(logic, ctx.request);
    if granted.Passed? {
      FromRequest(logic, ctx, head, granted.value, st, input);
      assert GrantGoes(logic, ctx, head, granted.value, st, input) <==>
             Localized(logic, ctx, head, granted.value, input.peer).Passed? &&
             RequestGoes(logic, ctx, head, granted.value, st, input);
    }
    var next := AfterAccept(logic, ctx, head, input.peer);
    if next.Denying? {
      DenyingEnds(logic, next, st, input);
    }
  }

  /** The head is not behind the mark, and local state works. */
  ghost predicate HeadGoes(logic: GateLogic, ctx: CallContext, head: VerifiedHead, g: Grant, st: GateState, input: Input)
  {
    && !input.markUnreadable && head.content.version >= st.mark && !input.raiseFails
    && GrantGoes(logic, ctx, head, g, st, input)
  }

  /** The mark moves up to the head. */
  function Raised(st: GateState, head: VerifiedHead): GateState
  {
    st.(mark := if head.content.version > st.mark then head.content.version else st.mark)
  }

  lemma FromChecking(logic: GateLogic, ctx: CallContext, head: VerifiedHead, st: GateState, input: Input)
    ensures var end := Complete(logic, CheckingMark(ctx, head), st, input);
            && (end.0.Authorized? <==> exists g :: HeadGoes(logic, ctx, head, g, st, input))
            && forall g | HeadGoes(logic, ctx, head, g, st, input) ::
                 EndsAuthorized(end, ctx, head, g, input,
                                StateAfter(ctx, head, g, input.decide.decision, Raised(st, head)))
  {
    CheckingRuns(logic, ctx, head, st, input);
    if input.markUnreadable || input.raiseFails {
      DenyingEnds(logic, Denying(ctx, StateUnavailable, None, None), st, input);
    }
    if head.content.version < st.mark {
      DenyingEnds(logic, Denying(ctx, VersionRegress, None, None), st, input);
    }
    FromAccepted(logic, ctx, head, Raised(st, head), input);
    if g :| GrantGoes(logic, ctx, head, g, Raised(st, head), input) {
      assert GrantGoes(logic, ctx, head, g, st, input);
      assert !input.markUnreadable && head.content.version >= st.mark && !input.raiseFails ==>
        HeadGoes(logic, ctx, head, g, st, input);
    }
    if g :| HeadGoes(logic, ctx, head, g, st, input) {
      assert GrantGoes(logic, ctx, head, g, Raised(st, head), input);
    }
    forall g | HeadGoes(logic, ctx, head, g, st, input) ensures GrantGoes(logic, ctx, head, g, Raised(st, head), input) {
    }
  }

  /** The delivery opens to this head too. */
  ghost predicate DeliveryGoes(logic: GateLogic, ctx: CallContext, head: VerifiedHead, g: Grant, st: GateState, input: Input)
  {
    input.relay.Delivered? && Opened(logic, input.relay.env) == Passed(head) && HeadGoes(logic, ctx, head, g, st, input)
  }

  lemma FromSyncing(logic: GateLogic, ctx: CallContext, st: GateState, input: Input)
    ensures var end := Complete(logic, Syncing(ctx), st, input);
            && (end.0.Authorized? <==> exists head, g :: DeliveryGoes(logic, ctx, head, g, st, input))
            && forall head, g | DeliveryGoes(logic, ctx, head, g, st, input) ::
                 EndsAuthorized(end, ctx, head, g, input,
                                StateAfter(ctx, head, g, input.decide.decision, Raised(st, head)))
  {
    SyncingRuns(logic, ctx, st, input);
    var next := AfterSync(logic, ctx, input.relay);
    if next.Denying? {
      DenyingEnds(logic, next, st, input);
    } else if next.CheckingMark? {
      FromChecking(logic, ctx, next.head, st, input);
      if g :| HeadGoes(logic, ctx, next.head, g, st, input) {
        assert DeliveryGoes(logic, ctx, next.head, g, st, input);
      }
    }
  }

  /** Everything that lets a call end in this authorization, on what came in. */
  ghost predicate Authorizes(cfg: GateConfig, ctx: CallContext, head: VerifiedHead, g: Grant, st: GateState, input: Input)
  {
    && input.relay.Delivered? && Delivers(cfg, input.relay.env, head)
    && !input.markUnreadable && head.content.version >= st.mark && !input.raiseFails
    && Presents(cfg, ctx.request, g) && InForce(cfg, ctx, head, g)
    && SubjectProven(cfg, ctx.request, ctx.now, g, input.peer)
    && !input.requestConsumerFails && g.grantId + "\0" + ctx.request.requestId !in st.requests
    && input.decide.Decided?
    && Decides(cfg, ctx, head, g, input.decide.decision, input.wallVerified, input.verified - input.sent)
    && !input.decisionConsumerFails && input.decide.decision.decisionId !in st.decisions && !input.auditFails
  }

  lemma LogicLocalizes(cfg: GateConfig, ctx: CallContext, head: VerifiedHead, g: Grant, peer: PeerReply)
    ensures Localized(LogicOf(cfg), ctx, head, g, peer).Passed? <==>
            InForce(cfg, ctx, head, g) && SubjectProven(cfg, ctx.request, ctx.now, g, peer)
  {
    LocalDecisionsIff(cfg, ctx.request, ctx.now, head, g, peer);
  }

  lemma LogicGrants(cfg: GateConfig, request: AuthorizationRequest, g: Grant)
    ensures Granted(LogicOf(cfg), request) == Passed(g) <==> Presents(cfg, request, g)
  {
    PresentsIff(cfg, request, g);
  }

  lemma LogicJudges(cfg: GateConfig, ctx: CallContext, head: VerifiedHead, g: Grant, d: Decision, wall: int, elapsed: int)
    ensures Judged(LogicOf(cfg), ctx, head, g, d, wall, elapsed).Passed? <==> Decides(cfg, ctx, head, g, d, wall, elapsed)
  {
    LogicVerifies(cfg, ctx, head, g, d, wall, elapsed);
    ResponseIff(cfg, ctx, head, g, d, wall, elapsed);
  }

  lemma LogicDecides(cfg: GateConfig, ctx: CallContext, head: VerifiedHead, g: Grant, st: GateState, input: Input)
    ensures DecisionGoes(LogicOf(cfg), ctx, head, g, st, input) <==>
            && input.decide.Decided?
            && Decides(cfg, ctx, head, g, input.decide.decision, input.wallVerified, input.verified - input.sent)
            && !input.decisionConsumerFails && input.decide.decision.decisionId !in st.decisions && !input.auditFails
  {
    if input.decide.Decided? {
      LogicJudges(cfg, ctx, head, g, input.decide.decision, input.wallVerified, Elapsed(input));
    }
  }

  lemma LogicDelivers(cfg: GateConfig, env: Json, head: VerifiedHead)
    ensures Opened(LogicOf(cfg), env) == Passed(head) <==> Delivers(cfg, env, head)
  {
    LogicOpens(cfg, env);
    AcceptedIff(cfg, env, head);
  }

  lemma AuthorizesGoes(cfg: GateConfig, ctx: CallContext, head: VerifiedHead, g: Grant, st: GateState, input: Input)
    ensures DeliveryGoes(LogicOf(cfg), ctx, head, g, st, input) <==> Authorizes(cfg, ctx, head, g, st, input)
  {
    if input.relay.Delivered? {
      LogicDelivers(cfg, input.relay.env, head);
    }
    LogicGrants(cfg, ctx.request, g);
    LogicLocalizes(cfg, ctx, head, g, input.peer);
    LogicDecides(cfg, ctx, head, g, st, input);
  }

  /**
   The gate, exactly: an uninterrupted call ends in an authorization if and only if everything it asks for
   is there.
   */
  lemma AuthorizesIff(cfg: GateConfig, ctx: CallContext, st: GateState, input: Input)
    ensures Complete(LogicOf(cfg), Syncing(ctx), st, input).0.Authorized? <==>
            exists head, g :: Authorizes(cfg, ctx, head, g, st, input)
  {
    FromSyncing(LogicOf(cfg), ctx, st, input);
    if head, g :| DeliveryGoes(LogicOf(cfg), ctx, head, g, st, input) {
      AuthorizesGoes(cfg, ctx, head, g, st, input);
    }
    if head, g :| Authorizes(cfg, ctx, head, g, st, input) {
      AuthorizesGoes(cfg, ctx, head, g, st, input);
    }
  }

  /**
   What it leaves: the decision with the time it arrived is returned, the mark is raised to the head,
   request and decision are consumed for this payload, and there is one more row, the gate's own derivation.
   */
  lemma AuthorizationLeaves(cfg: GateConfig, ctx: CallContext, head: VerifiedHead, g: Grant, st: GateState, input: Input)
    requires Authorizes(cfg, ctx, head, g, st, input)
    ensures EndsAuthorized(Complete(LogicOf(cfg), Syncing(ctx), st, input), ctx, head, g, input,
                           StateAfter(ctx, head, g, input.decide.decision, Raised(st, head)))
  {
    FromSyncing(LogicOf(cfg), ctx, st, input);
    AuthorizesGoes(cfg, ctx, head, g, st, input);
  }
}
