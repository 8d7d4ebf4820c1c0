/** `AuthorizationGate` itself: one call, run without interleaving, does what the machine does. */
module GateService {
  import opened Wrappers
  import opened Jcs
  import opened Capability
  import opened Service
  import opened AuthzState
  import opened DecisionPolicy
  import opened Gate
  import opened GateMachine

  class AuthorizationGate {
    const cfg: GateConfig
    const requestConsumer: LockedConsumer
    const decisionConsumer: LockedConsumer
    const highWater: HighWaterMark
    var audit: seq<AuditRow>

    ghost predicate Valid()
    {
      requestConsumer != decisionConsumer
    }

    ghost function State(): GateState
      reads this, requestConsumer, decisionConsumer, highWater
    {
      GateState(highWater.mark, requestConsumer.consumed, decisionConsumer.consumed, audit)
    }

    constructor (cfg: GateConfig)
      ensures Valid() && this.cfg == cfg && State() == GateState(0, map[], map[], [])
      ensures fresh(requestConsumer) && fresh(decisionConsumer) && fresh(highWater)
    {
      this.cfg := cfg;
      requestConsumer := new LockedConsumer();
      decisionConsumer := new LockedConsumer();
      highWater := new HighWaterMark(0);
      audit := [];
    }

    method Deny(ctx: CallContext, reason: DenialReason, detail: Option<string>, known: Option<Grant>, input: Input)
      returns (r: GateCall)
      requires Valid()
      modifies this
      ensures (r, State()) == Complete(LogicOf(cfg), Denying(ctx, reason, detail, known), old(State()), input)
    {
      if input.auditFails {
        return Faulted(ctx);
      }
      audit := audit + [DenialRow(cfg.lib, ctx, reason, detail, known)];
      return Denied(ctx);
    }

    /** `_sync_and_accept`: the accepted head, or the end of the call. */
    method SyncAndAccept(ctx: CallContext, input: Input) returns (head: Option<VerifiedHead>, ended: GateCall)
      requires Valid()
      modifies this, highWater
      ensures head.None? ==> (ended, State()) == Complete(LogicOf(cfg), Syncing(ctx), old(State()), input)
      ensures head.Some? ==>
                Complete(LogicOf(cfg), Syncing(ctx), old(State()), input) ==
                Complete(LogicOf(cfg), AfterAccept(LogicOf(cfg), ctx, head.value, input.peer), State(), input)
    {
      SyncingRuns(LogicOf(cfg), ctx, State(), input);
      head := None;
      if input.relay.Unreachable? {
        ended := Deny(ctx, CloudUnreachable, None, None, input);
        return;
      }
      if input.relay.RelayError? {
        ended := Faulted(ctx);
        return;
      }
      var checked := Accept(input.relay.env);
      head, ended := Proceed(ctx, checked, input);
    }

    method Proceed(ctx: CallContext, checked: Checked<VerifiedHead>, input: Input)
      returns (head: Option<VerifiedHead>, ended: GateCall)
      requires Valid()
      modifies this, highWater
      ensures head.None? ==> (ended, State()) == Complete(LogicOf(cfg), AfterOpen(ctx, checked), old(State()), input)
      ensures head.Some? ==>
                Complete(LogicOf(cfg), AfterOpen(ctx, checked), old(State()), input) ==
                Complete(LogicOf(cfg), AfterAccept(LogicOf(cfg), ctx, head.value, input.peer), State(), input)
    {
      head := None;
      match checked {
        case Refused(reason, detail) =>
          ended := Deny(ctx, reason, detail, None, input);
        case Fault =>
          ended := Faulted(ctx);
        case Passed(parsed) =>
          head, ended := CheckMark(ctx, parsed, input);
      }
    }

    method CheckMark(ctx: CallContext, parsed: VerifiedHead, input: Input)
      returns (head: Option<VerifiedHead>, ended: GateCall)
      requires Valid()
      modifies this, highWater
      ensures head.None? ==> (ended, State()) == Complete(LogicOf(cfg), CheckingMark(ctx, parsed), old(State()), input)
      ensures head.Some? ==>
                head.value == parsed &&
                Complete(LogicOf(cfg), CheckingMark(ctx, parsed), old(State()), input) ==
                Complete(LogicOf(cfg), AfterAccept(LogicOf(cfg), ctx, parsed, input.peer), State(), input)
    {
      CheckingRuns(LogicOf(cfg), ctx, parsed, State(), input);
      head, ended := None, Faulted(ctx);
      if input.markUnreadable {
        ended := Deny(ctx, StateUnavailable, None, None, input);
      } else if parsed.content.version < highWater.mark {
        ended := Deny(ctx, VersionRegress, None, None, input);
      } else if input.raiseFails {
        ended := Deny(ctx, StateUnavailable, None, None, input);
      } else {
        highWater.RaiseTo(parsed.content.version);
        head := Some(parsed);
      }
    }

    /** The parsing and verification part of `_sync_and_accept`. */
    method Accept(env: Json) returns (r: Checked<VerifiedHead>)
      ensures r == Opened(LogicOf(cfg), env)
    {
      LogicOpens(cfg, env);
      var delivered := Unwrap(cfg.lib, env);
      if delivered.Err? {
        return Refusal(delivered.error);
      }
      r := AcceptArtifact(delivered.value.0, delivered.value.1);
    }

    method AcceptArtifact(artifact: Artifact, revocationEnvs: seq<Json>) returns (r: Checked<VerifiedHead>)
      ensures r == AcceptHead(cfg, artifact, revocationEnvs)
    {
      var seen := CollectRevocations(cfg, revocationEnvs);
      r := JoinHead(VerifyHead(cfg, artifact), seen, BodyDigest(cfg.lib, artifact.body));
    }

    /** `authorize`: the new state and the verdict are those of the machine's uninterrupted run. */
    method Authorize(request: AuthorizationRequest, expectedActionDigest: string, now: int, input: Input)
      returns (r: GateCall)
      requires Valid()
      modifies this, requestConsumer, decisionConsumer, highWater
      ensures (r, State()) ==
              Complete(LogicOf(cfg), Syncing(CallContext(request, expectedActionDigest, now)), old(State()), input)
    {
      var ctx := CallContext(request, expectedActionDigest, now);

      var accepted, ended := SyncAndAccept(ctx, input);
      if accepted.None? {
        return ended;
      }
      var head := accepted.value;

      var verified := VerifyGrant(cfg, request);
      if verified.Refused? {
        r := Deny(ctx, verified.reason, verified.detail, None, input);
        return;
      }
      if verified.Fault? {
        return Faulted(ctx);
      }
      var grant := verified.value;
      var decided := LocalDecisions(cfg, request, now, head, grant, input.peer);
      if decided.Refused? {
        r := Deny(ctx, decided.reason, decided.detail, Some(grant), input);
        return;
      }
      if decided.Fault? {
        return Faulted(ctx);
      }
      r := ConsumeAndDecide(ctx, head, grant, input);
    }

    /** The second half of `authorize`, from the request consumer on. */
    method ConsumeAndDecide(ctx: CallContext, head: VerifiedHead, grant: Grant, input: Input) returns (r: GateCall)
      requires Valid()
      modifies this, requestConsumer, decisionConsumer
      ensures (r, State()) == Complete(LogicOf(cfg), ConsumingRequest(ctx, head, grant), old(State()), input)
    {
      if input.requestConsumerFails {
        r := Deny(ctx, StateUnavailable, None, Some(grant), input);
        return;
      }
      var first := requestConsumer.ConsumeOnce(RequestKey(grant.grantId, ctx.request.requestId), ctx.actionDigest);
      if !first {
        r := Deny(ctx, Replay, Some("request_id_reused"), Some(grant), input);
        return;
      }
      StepFirst(LogicOf(cfg), ConsumingRequest(ctx, head, grant), old(State()), input);
      r := DecideAndRecord(ctx, head, grant, input);
    }

    /** From `decide` to the decision consumer: the service's reply, and its verification. */
    method DecideAndRecord(ctx: CallContext, head: VerifiedHead, grant: Grant, input: Input) returns (r: GateCall)
      requires Valid()
      modifies this, decisionConsumer
      ensures (r, State()) == Complete(LogicOf(cfg), Deciding(ctx, head, grant), old(State()), input)
    {
      DecidingRuns(LogicOf(cfg), ctx, head, grant, State(), input);
      if input.decide.Decided? {
        var verified := VerifyDecision(ctx, head, grant, input.decide.decision, input.wallVerified, Elapsed(input));
        AfterDecideIs(LogicOf(cfg), ctx, head, grant, verified, input);
        r := Conclude(ctx, head, grant, input.decide.decision, verified, input);
      } else {
        r := DenyReply(ctx, grant, input.decide, input);
      }
    }

    /** The service gave no decision. */
    method DenyReply(ctx: CallContext, grant: Grant, reply: DecideReply, input: Input)
      returns (r: GateCall)
      requires Valid() && !reply.Decided?
      modifies this
      ensures (r, State()) == Complete(LogicOf(cfg), AfterNoDecision(ctx, grant, reply), old(State()), input)
    {
      match reply {
        case ServiceUnreachable =>
          r := Deny(ctx, CloudUnreachable, None, Some(grant), input);
        case ServiceMalformed(detail) =>
          r := Deny(ctx, InvalidArtifact, detail, Some(grant), input);
        case ServiceRefused(reason, detail) =>
          r := Deny(ctx, reason, detail, Some(grant), input);
        case ServiceError =>
          r := Deny(ctx, InternalError, None, Some(grant), input);
      }
    }

    method Conclude(ctx: CallContext, head: VerifiedHead, grant: Grant, decision: Decision, verified: Checked<()>,
                    input: Input)
      returns (r: GateCall)
      requires Valid()
      modifies this, decisionConsumer
      ensures (r, State()) ==
              Complete(LogicOf(cfg), AfterVerify(ctx, head, grant, decision, input.received, verified), old(State()), input)
    {
      match verified {
        case Refused(reason, detail) =>
          r := Deny(ctx, reason, detail, Some(grant), input);
        case Fault =>
          r := Faulted(ctx);
        case Passed(_) =>
          r := ConsumeDecision(ctx, head, grant, decision, input.received, input);
      }
    }

    /** Signature, binding, hygiene window and deadline, in that order. */
    method VerifyDecision(ctx: CallContext, head: VerifiedHead, grant: Grant, decision: Decision, wallVerified: int,
                          elapsed: int)
      returns (r: Checked<()>)
      ensures r == Judged(LogicOf(cfg), ctx, head, grant, decision, wallVerified, elapsed)
    {
      LogicVerifies(cfg, ctx, head, grant, decision, wallVerified, elapsed);
      var message := DecisionSigningInput(decision);
      if message.Err? {
        return Fault;
      }
      if !cfg.lib.verify(cfg.decisionKey, message.value, decision.sig) {
        return Refused(InvalidArtifact, Some("decision_sig_invalid"));
      }
      var mismatch := ScanPolicy(decision, ExpectedBindingOf(ctx.request, grant, head, ctx.actionDigest));
      if mismatch.Some? {
        return Refused(InvalidArtifact, mismatch);
      }
      if !InHygieneWindow(decision.decidedAt, ctx.now, wallVerified) {
        return Refused(InvalidArtifact, Some("decided_at_out_of_window"));
      }
      if elapsed > RESPONSE_DEADLINE_NS {
        return Refused(CloudUnreachable, None);
      }
      return Passed(());
    }

    method ConsumeDecision(ctx: CallContext, head: VerifiedHead, grant: Grant, decision: Decision, received: int,
                           input: Input)
      returns (r: GateCall)
      requires Valid()
      modifies this, decisionConsumer
      ensures (r, State()) ==
              Complete(LogicOf(cfg), ConsumingDecision(ctx, head, grant, decision, received), old(State()), input)
    {
      ConsumingRuns(LogicOf(cfg), ctx, head, grant, decision, received, State(), input);
      if input.decisionConsumerFails {
        r := Deny(ctx, StateUnavailable, None, Some(grant), input);
        return;
      }
      var first := decisionConsumer.ConsumeOnce(decision.decisionId, ctx.actionDigest);
      if !first {
        r := Deny(ctx, Replay, Some("decision_reused"), Some(grant), input);
        return;
      }
      r := RecordSuccess(ctx, head, grant, decision, received, input);
    }

    method RecordSuccess(ctx: CallContext, head: VerifiedHead, grant: Grant, decision: Decision, received: int,
                         input: Input)
      returns (r: GateCall)
      modifies this
      ensures (r, State()) ==
              Complete(LogicOf(cfg), Recording(ctx, head, grant, decision, received), old(State()), input)
    {
      StepFirst(LogicOf(cfg), Recording(ctx, head, grant, decision, received), State(), input);
      if input.auditFails {
        return Unrecorded(ctx, head, grant, decision, received);
      }
      audit := audit + [SuccessRow(ctx, head, grant, decision)];
      return Authorized(ctx, head, grant, decision, received);
    }
  }
}
