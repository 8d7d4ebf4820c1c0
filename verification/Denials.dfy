/** What a denial says: the code and detail of the check that failed, and whose grant the row names. */
module Denials {
  import opened Wrappers
  import opened Jcs
  import opened Capability
  import opened Service
  import opened AuthzState
  import opened Gate
  import opened GateChecks
  import opened GateMachine
  import opened GateDelivery
  import opened Authorizations
  import opened GateFaults

  /** Code and detail of a row, and the grant it names as verified. */
  datatype Denial = Denial(code: string, detail: Option<string>, known: Option<Grant>)

  // ----- the relay and the grant ------------------------------------------------------

  lemma EnvelopeError(lib: Library, env: Json)
    ensures ParseEnvelope(lib, env).Err? ==> ParseEnvelope(lib, env).error == CertificateError(None)
  {
  }

  lemma SyncEnvelopeError(env: Json)
    ensures ParseSyncEnvelope(env).Err? ==> ParseSyncEnvelope(env).error == CertificateError(None)
  {
  }

  lemma {:induction false} EntriesError(entries: seq<Json>)
    ensures ParseEntries(entries).Err? ==> ParseEntries(entries).error == CertificateError(None)
  {
    if entries != [] {
      EntriesError(entries[..|entries| - 1]);
    }
  }

  lemma HeadBodyError(lib: Library, body: Json)
    ensures var r := ParseHeadBody(lib, body); r.Err? && !r.error.NumeralTooLong? ==> r.error == CertificateError(None)
  {
    if body.Obj? && Get(body.members, "active_grants").Arr? {
      EntriesError(Get(body.members, "active_grants").items);
    }
  }

  /** Refused as an invalid artifact, without a detail. */
  predicate PlainRefusal<T>(r: Checked<T>)
  {
    r.Refused? ==> r.reason.InvalidArtifact? && r.detail.None?
  }

  lemma ThenPlain<T>(verified: Checked<Json>, parsed: Result<T, CertificateError>)
    requires PlainRefusal(verified)
    requires parsed.Err? && !parsed.error.NumeralTooLong? ==> parsed.error == CertificateError(None)
    ensures PlainRefusal(Then(verified, parsed))
  {
  }

  lemma ArtifactPlain(cfg: GateConfig, kind: string, a: Artifact)
    ensures PlainRefusal(VerifyArtifact(cfg, kind, a))
  {
  }

  lemma RevocationBodyError(body: Json)
    ensures ParseRevocationBody(body).Err? ==> ParseRevocationBody(body).error == CertificateError(None)
  {
  }

  lemma RevocationArtifactPlain(cfg: GateConfig, a: Artifact)
    ensures PlainRefusal(Then(VerifyArtifact(cfg, REVOCATION_ARTIFACT_TYPE, a), ParseRevocationBody(a.body)))
  {
    ArtifactPlain(cfg, REVOCATION_ARTIFACT_TYPE, a);
    RevocationBodyError(a.body);
    ThenPlain(VerifyArtifact(cfg, REVOCATION_ARTIFACT_TYPE, a), ParseRevocationBody(a.body));
  }

  lemma RevocationPlain(cfg: GateConfig, env: Json)
    ensures PlainRefusal(VerifyRevocation(cfg, env))
  {
    EnvelopeError(cfg.lib, env);
    if ParseEnvelope(cfg.lib, env).Ok? {
      RevocationArtifactPlain(cfg, ParseEnvelope(cfg.lib, env).value);
    }
  }

  lemma {:induction false} RevocationsPlain(cfg: GateConfig, envs: seq<Json>)
    ensures PlainRefusal(VerifyRevocations(cfg, envs))
  {
    if envs != [] {
      RevocationsPlain(cfg, envs[..|envs| - 1]);
      RevocationPlain(cfg, envs[|envs| - 1]);
    }
  }

  lemma JoinPlain(content: Checked<HeadContent>, seen: Checked<set<string>>, digest: string)
    requires PlainRefusal(content) && PlainRefusal(seen)
    ensures PlainRefusal(JoinHead(content, seen, digest))
  {
  }

  lemma AcceptHeadPlain(cfg: GateConfig, a: Artifact, revocations: seq<Json>)
    ensures PlainRefusal(AcceptHead(cfg, a, revocations))
  {
    ArtifactPlain(cfg, HEAD_ARTIFACT_TYPE, a);
    HeadBodyError(cfg.lib, a.body);
    ThenPlain(VerifyArtifact(cfg, HEAD_ARTIFACT_TYPE, a), ParseHeadBody(cfg.lib, a.body));
    RevocationsPlain(cfg, revocations);
    JoinPlain(VerifyHead(cfg, a), VerifyRevocations(cfg, revocations), BodyDigest(cfg.lib, a.body));
  }

  lemma DeliveryPlain(cfg: GateConfig, env: Json)
    ensures PlainRefusal(AcceptEnvelope(cfg, env))
  {
    SyncEnvelopeError(env);
    if ParseSyncEnvelope(env).Ok? {
      EnvelopeError(cfg.lib, ParseSyncEnvelope(env).value.0);
    }
    if Unwrap(cfg.lib, env).Ok? {
      AcceptHeadPlain(cfg, Unwrap(cfg.lib, env).value.0, Unwrap(cfg.lib, env).value.1);
    }
  }

  /** All up to the mode is read, and there is no mode. */
  predicate LacksMode(lib: Library, body: Json)
    requires body.Obj?
  {
    && body.members.Keys <= {"grant_id", "grant_version", "state_version", "issuer_fp", "subject", "tool", "action",
                             "scope", "valid_from", "valid_until"}
    && ParseIdentity(lib, body.members).Ok?
    && Get(body.members, "tool") == Str("gmail") && Get(body.members, "action") == Str("send")
    && ParseScope(Get(body.members, "scope")).Ok? && ParseSubject(Get(body.members, "subject")).Ok?
  }

  /** The error is malformed, too long, or the missing mode. */
  ghost predicate BodyError<T>(r: Result<T, CertificateError>, lacksMode: bool)
  {
    r.Err? ==>
      (r.error == CertificateError(Some("missing_approval_mode")) <==> lacksMode) &&
      (r.error in {CertificateError(None), NumeralTooLong, CertificateError(Some("missing_approval_mode"))})
  }

  lemma IdentityError(lib: Library, m: map<string, Json>)
    ensures BodyError(ParseIdentity(lib, m), false)
  {
  }

  lemma ScopeSubjectErrors(scope: Json, subject: Json)
    ensures BodyError(ParseScope(scope), false) && BodyError(ParseSubject(subject), false)
  {
  }

  lemma TermsError(m: map<string, Json>)
    ensures var r := ParseTerms(m);
            BodyError(r, && Get(m, "tool") == Str("gmail") && Get(m, "action") == Str("send")
                         && ParseScope(Get(m, "scope")).Ok? && ParseSubject(Get(m, "subject")).Ok?
                         && "approval_mode" !in m)
    ensures "approval_mode" !in m ==> ParseTerms(m).Err?
  {
    ScopeSubjectErrors(Get(m, "scope"), Get(m, "subject"));
  }

  lemma IntervalError(lib: Library, m: map<string, Json>)
    ensures BodyError(ParseInterval(lib, m), false)
  {
  }

  /** The error of a body is that of the first part that has one. */
  lemma BodyFromParts(lib: Library, body: Json)
    requires body.Obj?
    ensures var m, r := body.members, ParseGrantBody(lib, body);
            if !(m.Keys <= GRANT_BODY_KEYS) then r == Err(CertificateError(None))
            else if ParseIdentity(lib, m).Err? then r == Err(ParseIdentity(lib, m).error)
            else if ParseTerms(m).Err? then r == Err(ParseTerms(m).error)
            else if ParseInterval(lib, m).Err? then r == Err(ParseInterval(lib, m).error)
            else r.Ok?
  {
  }

  lemma KeysWithoutMode(keys: set<string>)
    ensures keys <= {"grant_id", "grant_version", "state_version", "issuer_fp", "subject", "tool", "action", "scope",
                     "valid_from", "valid_until"}
       <==> keys <= GRANT_BODY_KEYS && "approval_mode" !in keys
  {
  }

  lemma GrantBodyError(lib: Library, body: Json)
    requires body.Obj?
    ensures BodyError(ParseGrantBody(lib, body), LacksMode(lib, body))
    ensures LacksMode(lib, body) ==> ParseGrantBody(lib, body).Err?
  {
    BodyFromParts(lib, body);
    KeysWithoutMode(body.members.Keys);
    IdentityError(lib, body.members);
    TermsError(body.members);
    IntervalError(lib, body.members);
  }

  /** The detail of a grant that is refused. */
  function GrantDetail(cfg: GateConfig, env: Json): Option<string>
  {
    if !SignedAs(cfg, env, "grant") then None
    else if LacksMode(cfg.lib, BodyOf(env)) then Some("missing_approval_mode")
    else if ParseGrantBody(cfg.lib, BodyOf(env)).Ok? then Some("untrusted_issuer")
    else None
  }

  lemma PinRefused(cfg: GateConfig, verified: Checked<Json>, parsed: Result<Grant, CertificateError>, lacksMode: bool)
    requires PlainRefusal(verified) && BodyError(parsed, lacksMode) && (lacksMode ==> parsed.Err?)
    ensures var r := PinIssuer(cfg, Then(verified, parsed));
            r.Refused? ==>
              && r.reason.InvalidArtifact?
              && r.detail == if !verified.Passed? then None
                             else if lacksMode then Some("missing_approval_mode")
                             else if parsed.Ok? then Some("untrusted_issuer") else None
  {
  }

  lemma GrantArtifactRefused(cfg: GateConfig, a: Artifact)
    requires a.body.Obj?
    ensures var r, verified := VerifyGrantArtifact(cfg, a), VerifyArtifact(cfg, "grant", a);
            r.Refused? ==>
              && r.reason.InvalidArtifact?
              && r.detail == if !verified.Passed? then None
                             else if LacksMode(cfg.lib, a.body) then Some("missing_approval_mode")
                             else if ParseGrantBody(cfg.lib, a.body).Ok? then Some("untrusted_issuer") else None
  {
    ArtifactPlain(cfg, "grant", a);
    GrantBodyError(cfg.lib, a.body);
    PinRefused(cfg, VerifyArtifact(cfg, "grant", a), ParseGrantBody(cfg.lib, a.body), LacksMode(cfg.lib, a.body));
  }

  lemma GrantRefused(cfg: GateConfig, request: AuthorizationRequest)
    ensures var r := VerifyGrant(cfg, request);
            r.Refused? ==> r.reason.InvalidArtifact? && r.detail == GrantDetail(cfg, request.grantEnvelope)
  {
    var env := request.grantEnvelope;
    EnvelopeError(cfg.lib, env);
    SignedIff(cfg, env, "grant");
    if ParseEnvelope(cfg.lib, env).Ok? {
      GrantArtifactRefused(cfg, ParseEnvelope(cfg.lib, env).value);
    }
  }

  // ----- stage by stage ---------------------------------------------------------------

  function Of(codeAndDetail: (string, Option<string>), known: Option<Grant>): Denial
  {
    Denial(codeAndDetail.0, codeAndDetail.1, known)
  }

  /** What a refused reply of the service comes to. */
  function ReplyDenial(reply: DecideReply): (string, Option<string>)
    requires !reply.Decided?
  {
    match reply
    case ServiceUnreachable => ("denied_cloud_unreachable", None)
    case ServiceMalformed(detail) => ("denied_invalid_artifact", detail)
    case ServiceRefused(reason, detail) => (ReasonCode(reason), detail)
    case ServiceError => ("denied_internal", None)
  }

  /** The denial of a call that is denied at this stage. */
  ghost predicate DenialAt(cfg: GateConfig, call: GateCall, input: Input, denial: Denial)
  {
    match call
    case Syncing(_) =>
      denial == Denial(if input.relay.Unreachable? then "denied_cloud_unreachable" else "denied_invalid_artifact", None,
                       None)
    case CheckingMark(_, _) =>
      denial == Denial(if input.markUnreadable then "denied_state_unavailable" else "denied_version_regress", None,
                       None)
    case RaisingMark(ctx, head) =>
      if input.raiseFails then denial == Denial("denied_state_unavailable", None, None)
      else if denial.known.None? then
        (forall g :: !Presents(cfg, ctx.request, g)) &&
        denial == Denial("denied_invalid_artifact", GrantDetail(cfg, ctx.request.grantEnvelope), None)
      else
        Presents(cfg, ctx.request, denial.known.value) &&
        denial == Of(LocalDenial(cfg, ctx.request, ctx.now, head, denial.known.value), denial.known)
    case ConsumingRequest(_, _, grant) =>
      denial == Of(if input.requestConsumerFails then ("denied_state_unavailable", None)
                   else ("denied_replay", Some("request_id_reused")), Some(grant))
    case Deciding(ctx, head, grant) =>
      if !input.decide.Decided? then denial == Of(ReplyDenial(input.decide), Some(grant))
      else
        var d := input.decide.decision;
        && DecisionSigningInput(d).Ok?
        && denial == Of(ResponseDenial(cfg, DecisionSigningInput(d).value, DifferenceFromGate(d, ctx, head, grant),
                                       ctx.now, d, input.wallVerified), Some(grant))
    case ConsumingDecision(_, _, grant, _, _) =>
      denial == Of(if input.decisionConsumerFails then ("denied_state_unavailable", None)
                   else ("denied_replay", Some("decision_reused")), Some(grant))
    case _ => false
  }

  function DenialOf(call: GateCall): Denial
    requires call.Denying?
  {
    Denial(ReasonCode(call.reason), call.detail, call.known)
  }

  lemma SyncDenial(cfg: GateConfig, ctx: CallContext, input: Input)
    ensures var next := AfterSync(LogicOf(cfg), ctx, input.relay);
            next.Denying? ==> DenialAt(cfg, Syncing(ctx), input, DenialOf(next))
  {
    if input.relay.Delivered? {
      LogicOpens(cfg, input.relay.env);
      DeliveryPlain(cfg, input.relay.env);
    }
  }

  /** Where a denial after the mark comes from. */
  lemma AcceptRefused(logic: GateLogic, ctx: CallContext, head: VerifiedHead, peer: PeerReply)
    ensures var next, granted := AfterAccept(logic, ctx, head, peer), Granted(logic, ctx.request);
            next.Denying? ==>
              if granted.Refused? then next == Denying(ctx, granted.reason, granted.detail, None)
              else
                && granted.Passed? && Localized(logic, ctx, head, granted.value, peer).Refused?
                && var local := Localized(logic, ctx, head, granted.value, peer);
                   next == Denying(ctx, local.reason, local.detail, Some(granted.value))
  {
  }

  lemma GrantDenied(cfg: GateConfig, ctx: CallContext, head: VerifiedHead, input: Input, reason: DenialReason,
                    detail: Option<string>)
    requires !input.raiseFails && Granted(LogicOf(cfg), ctx.request) == Refused(reason, detail)
    ensures DenialAt(cfg, RaisingMark(ctx, head), input, Denial(ReasonCode(reason), detail, None))
  {
    assert VerifyGrant(cfg, ctx.request) == Refused(reason, detail);
    GrantRefused(cfg, ctx.request);
    forall g ensures !Presents(cfg, ctx.request, g) {
      PresentsIff(cfg, ctx.request, g);
    }
  }

  lemma LocalDenied(cfg: GateConfig, ctx: CallContext, head: VerifiedHead, input: Input, g: Grant, reason: DenialReason,
                    detail: Option<string>)
    requires !input.raiseFails && Granted(LogicOf(cfg), ctx.request) == Passed(g)
    requires Localized(LogicOf(cfg), ctx, head, g, input.peer) == Refused(reason, detail)
    ensures DenialAt(cfg, RaisingMark(ctx, head), input, Denial(ReasonCode(reason), detail, Some(g)))
  {
    LogicGrants(cfg, ctx.request, g);
    assert LocalDecisions(cfg, ctx.request, ctx.now, head, g, input.peer) == Refused(reason, detail);
    LocalDenials(cfg, ctx.request, ctx.now, head, g, input.peer);
  }

  lemma AcceptDenial(cfg: GateConfig, ctx: CallContext, head: VerifiedHead, input: Input)
    requires !input.raiseFails
    ensures var next := AfterAccept(LogicOf(cfg), ctx, head, input.peer);
            next.Denying? ==> DenialAt(cfg, RaisingMark(ctx, head), input, DenialOf(next))
  {
    var next, granted := AfterAccept(LogicOf(cfg), ctx, head, input.peer), Granted(LogicOf(cfg), ctx.request);
    AcceptRefused(LogicOf(cfg), ctx, head, input.peer);
    if next.Denying? {
      if granted.Refused? {
        GrantDenied(cfg, ctx, head, input, granted.reason, granted.detail);
      } else {
        LocalDenied(cfg, ctx, head, input, granted.value, next.reason, next.detail);
      }
    }
  }

  lemma VerifyDenial(ctx: CallContext, head: VerifiedHead, grant: Grant, d: Decision, received: int,
                     verified: Checked<()>)
    ensures var next := AfterVerify(ctx, head, grant, d, received, verified);
            next.Denying? ==> verified.Refused? && next == Denying(ctx, verified.reason, verified.detail, Some(grant))
  {
  }

  /** The response of the service was a decision, and it is refused. */
  lemma ResponseDenied(cfg: GateConfig, ctx: CallContext, head: VerifiedHead, grant: Grant, d: Decision, input: Input,
                       verified: Checked<()>)
    requires input.decide == Decided(d) && verified.Refused?
    requires verified == VerifyResponse(cfg, ctx, head, grant, d, input.wallVerified, Elapsed(input))
    ensures DenialAt(cfg, Deciding(ctx, head, grant), input,
                     Of((ReasonCode(verified.reason), verified.detail), Some(grant)))
  {
    ResponseDenials(cfg, ctx, head, grant, d, input.wallVerified, Elapsed(input));
  }

  lemma DecideDenial(cfg: GateConfig, ctx: CallContext, head: VerifiedHead, grant: Grant, input: Input)
    ensures var next := AfterDecide(LogicOf(cfg), ctx, head, grant, input);
            next.Denying? ==> DenialAt(cfg, Deciding(ctx, head, grant), input, DenialOf(next))
  {
    if input.decide.Decided? {
      var d := input.decide.decision;
      var verified := VerifyResponse(cfg, ctx, head, grant, d, input.wallVerified, Elapsed(input));
      LogicVerifies(cfg, ctx, head, grant, d, input.wallVerified, Elapsed(input));
      AfterDecideIs(LogicOf(cfg), ctx, head, grant, verified, input);
      VerifyDenial(ctx, head, grant, d, input.received, verified);
      if verified.Refused? {
        ResponseDenied(cfg, ctx, head, grant, d, input, verified);
      }
    }
  }

  /** A step that denies a call does so with code and detail of the check that failed, and names the verified grant. */
  lemma StepDenials(cfg: GateConfig, call: GateCall, st: GateState, input: Input)
    requires !call.Denying?
    ensures var next := GateStep(LogicOf(cfg), call, st, input).0;
            next.Denying? ==> DenialAt(cfg, call, input, DenialOf(next))
  {
    match call
    case Syncing(ctx) => SyncDenial(cfg, ctx, input);
    case RaisingMark(ctx, head) =>
      if !input.raiseFails {
        AcceptDenial(cfg, ctx, head, input);
      }
    case Deciding(ctx, head, grant) => DecideDenial(cfg, ctx, head, grant, input);
    case _ =>
  }

  // ----- the row ----------------------------------------------------------------------

  /** The ids a row may name when no grant verified: what the envelope's bytes claim. */
  function Claimed(lib: Library, env: Json): (Option<string>, Option<string>)
  {
    if ParseEnvelope(lib, env).Ok? && ParseGrantBody(lib, BodyOf(env)).Ok? then
      var g := ParseGrantBody(lib, BodyOf(env)).value;
      (Some(g.grantId), Some(if g.subject.OsAccount? then "os_account" else "agent_key"))
    else if env.Obj? && BodyOf(env).Obj? && Get(BodyOf(env).members, "grant_id").Str? then
      (Some(Get(BodyOf(env).members, "grant_id").s), None)
    else (None, None)
  }

  /** The row of a denial: the verified grant or the claimed ids, the code and detail, and nothing of any decision. */
  function DeniedRow(lib: Library, ctx: CallContext, denial: Denial): AuditRow
  {
    var (id, kind) :=
      match denial.known
      case Some(g) => (Some(g.grantId), Some(if g.subject.OsAccount? then "os_account" else "agent_key"))
      case None => Claimed(lib, ctx.request.grantEnvelope);
    AuditRow(ctx.now, ctx.request.requestId, denial.code, id, denial.known.Some?, kind, denial.detail, None, None, None,
             None, None)
  }

  lemma PeekedIsClaimed(lib: Library, request: AuthorizationRequest)
    ensures PeekIdentifiers(lib, request) == Claimed(lib, request.grantEnvelope)
  {
    EnvelopeIff(lib, request.grantEnvelope);
  }

  lemma DenialRowIs(lib: Library, call: GateCall)
    requires call.Denying?
    ensures DenialRow(lib, call.ctx, call.reason, call.detail, call.known) == DeniedRow(lib, call.ctx, DenialOf(call))
  {
    PeekedIsClaimed(lib, call.ctx.request);
  }

  /** A denied call writes that row and nothing else. */
  lemma DenialIsWritten(cfg: GateConfig, call: GateCall, st: GateState, input: Input)
    requires call.Denying?
    ensures GateStep(LogicOf(cfg), call, st, input) ==
            if input.auditFails then (Faulted(call.ctx), st)
            else (Denied(call.ctx), st.(audit := st.audit + [DeniedRow(cfg.lib, call.ctx, DenialOf(call))]))
  {
    DenialRowIs(cfg.lib, call);
    assert LogicOf(cfg).denialRow(call.ctx, call.reason, call.detail, call.known) ==
           DenialRow(cfg.lib, call.ctx, call.reason, call.detail, call.known);
  }
}
