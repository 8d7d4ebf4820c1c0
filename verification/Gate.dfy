/** The checks of the authorization gate (authz/gate.py) and the audit rows it writes. */
module Gate {
  import opened Wrappers
  import opened Encodings
  import opened Jcs
  import opened Capability
  import opened Service
  import opened AuthzState
  import opened DecisionPolicy

  datatype GateConfig = GateConfig(
    lib: Library,
    rootKey: PublicKey,
    decisionKey: PublicKey,
    pinnedIssuer: string,
    account: string,
    challenge: string)

  datatype DenialReason =
    | InvalidArtifact | CloudUnreachable | GrantRevoked | GrantUnknown | Expired | GrantSuperseded
    | ValidityExceedsPolicy | ModeMismatch | ScopeMismatch | Replay | VersionRegress | StateUnavailable
    | InternalError

  function ReasonCode(r: DenialReason): string
  {
    match r
    case InvalidArtifact => "denied_invalid_artifact"
    case CloudUnreachable => "denied_cloud_unreachable"
    case GrantRevoked => "denied_revoked"
    case GrantUnknown => "denied_no_grant"
    case Expired => "denied_expired"
    case GrantSuperseded => "denied_superseded"
    case ValidityExceedsPolicy => "denied_validity_exceeds_policy"
    case ModeMismatch => "denied_mode_mismatch"
    case ScopeMismatch => "denied_scope"
    case Replay => "denied_replay"
    case VersionRegress => "denied_version_regress"
    case StateUnavailable => "denied_state_unavailable"
    case InternalError => "denied_internal"
  }

  datatype AuditRow = AuditRow(
    at: int,
    requestId: string,
    code: string,
    grantId: Option<string>,
    grantIdVerified: bool,
    subjectKind: Option<string>,
    detail: Option<string>,
    approvalMode: Option<string>,
    decisionId: Option<string>,
    stateVersion: Option<string>,
    authzStateDigest: Option<string>,
    actionDigest: Option<string>)

  datatype GateState = GateState(
    mark: int,
    requests: map<string, string>,
    decisions: map<string, string>,
    audit: seq<AuditRow>)

  // ----- what a stage computes --------------------------------------------------------

  // A value outside the serializer's domain, a numeral beyond the interpreter's digit limit and a
  // failing peer resolver raise errors that no handler of the gate catches; `Fault` stands for a
  // call that ends that way, without a verdict.
  datatype Checked<+T> = Passed(value: T) | Refused(reason: DenialReason, detail: Option<string>) | Fault

  /** What a parser's error comes to: a denial for a `CertificateError`, and nothing that catches any other. */
  function Refusal<T>(e: CertificateError): (r: Checked<T>)
    ensures !r.Passed?
  {
    match e
    case CertificateError(detail) => Refused(InvalidArtifact, detail)
    case NumeralTooLong => Fault
  }

  /** The body of an artifact of this type that verifies under the user root. */
  function VerifyArtifact(cfg: GateConfig, kind: string, artifact: Artifact): (r: Checked<Json>)
    ensures r.Passed? <==>
            artifact.kind == kind && SigningInput(kind, artifact.body).Ok? &&
            cfg.lib.verify(cfg.rootKey, SigningInput(kind, artifact.body).value, artifact.sig)
    ensures r.Passed? ==> r.value == artifact.body
    ensures r.Fault? <==> artifact.kind == kind && SigningInput(kind, artifact.body).Err?
  {
    if artifact.kind != kind then Refused(InvalidArtifact, None)
    else
      match SigningInput(kind, artifact.body)
      case Err(_) => Fault
      case Ok(message) =>
        if cfg.lib.verify(cfg.rootKey, message, artifact.sig) then Passed(artifact.body)
        else Refused(InvalidArtifact, None)
  }

  /** What was read from the body of an artifact, given what verifying the artifact came to. */
  function Then<T>(verified: Checked<Json>, parsed: Result<T, CertificateError>): (r: Checked<T>)
    ensures r.Passed? <==> verified.Passed? && parsed.Ok?
    ensures r.Passed? ==> r.value == parsed.value
    ensures r.Fault? <==> verified.Fault? || (verified.Passed? && parsed.Err? && parsed.error.NumeralTooLong?)
  {
    match verified
    case Refused(r, d) => Refused(r, d)
    case Fault => Fault
    case Passed(_) =>
      match parsed
      case Err(e) => Refusal(e)
      case Ok(value) => Passed(value)
  }

  function VerifyRevocation(cfg: GateConfig, env: Json): Checked<string>
  {
    match ParseEnvelope(cfg.lib, env)
    case Err(e) => Refusal(e)
    case Ok(artifact) =>
      Then(VerifyArtifact(cfg, REVOCATION_ARTIFACT_TYPE, artifact), ParseRevocationBody(artifact.body))
  }

  /** One more revocation on top of those seen so far. */
  function SeenToo(seen: Checked<set<string>>, next: Checked<string>): (r: Checked<set<string>>)
    ensures r.Passed? <==> seen.Passed? && next.Passed?
    ensures r.Passed? ==> r.value == seen.value + {next.value}
    ensures r.Fault? <==> seen.Fault? || (seen.Passed? && next.Fault?)
  {
    match seen
    case Refused(r, d) => Refused(r, d)
    case Fault => Fault
    case Passed(revoked) =>
      match next
      case Refused(r, d) => Refused(r, d)
      case Fault => Fault
      case Passed(id) => Passed(revoked + {id})
  }

  function VerifyRevocations(cfg: GateConfig, envs: seq<Json>): Checked<set<string>>
  {
    if envs == [] then Passed({})
    else SeenToo(VerifyRevocations(cfg, envs[..|envs| - 1]), VerifyRevocation(cfg, envs[|envs| - 1]))
  }

  lemma NextSeen(cfg: GateConfig, envs: seq<Json>, init: seq<Json>, last: Json)
    requires envs == init + [last]
    ensures VerifyRevocations(cfg, envs) == SeenToo(VerifyRevocations(cfg, init), VerifyRevocation(cfg, last))
  {
    assert envs[..|envs| - 1] == init && envs[|envs| - 1] == last;
  }

  lemma PrefixSeen(cfg: GateConfig, envs: seq<Json>, i: nat, n: nat)
    requires i < |envs| && n == i + 1
    ensures VerifyRevocations(cfg, envs[..n]) == SeenToo(VerifyRevocations(cfg, envs[..i]), VerifyRevocation(cfg, envs[i]))
  {
    assert envs[..n] == envs[..i] + [envs[i]];
    NextSeen(cfg, envs[..n], envs[..i], envs[i]);
  }

  /** The loop of `_verify_revocations`. */
  method CollectRevocations(cfg: GateConfig, envs: seq<Json>) returns (r: Checked<set<string>>)
    ensures r == VerifyRevocations(cfg, envs)
  {
    var revoked: set<string> := {};
    for i := 0 to |envs|
      invariant VerifyRevocations(cfg, envs[..i]) == Passed(revoked)
    {
      var verified := VerifyRevocation(cfg, envs[i]);
      PrefixSeen(cfg, envs, i, i + 1);
      if !verified.Passed? {
        PrefixDecides(cfg, envs, i + 1);
        r := SeenToo(Passed(revoked), verified);
        return;
      }
      revoked := revoked + {verified.value};
    }
    assert envs[..|envs|] == envs;
    r := Passed(revoked);
  }

  lemma {:induction false} PrefixDecides(cfg: GateConfig, envs: seq<Json>, n: nat)
    requires n <= |envs| && !VerifyRevocations(cfg, envs[..n]).Passed?
    ensures VerifyRevocations(cfg, envs) == VerifyRevocations(cfg, envs[..n])
    decreases |envs| - n
  {
    if n == |envs| {
      assert envs[..n] == envs;
    } else {
      assert envs[..n + 1][..n] == envs[..n];
      PrefixDecides(cfg, envs, n + 1);
    }
  }

  /** The head artifact and the revocation envelopes the relay delivered. */
  function Unwrap(lib: Library, env: Json): Result<(Artifact, seq<Json>), CertificateError>
  {
    var (headEnv, revocationEnvs) :- ParseSyncEnvelope(env);
    var artifact :- ParseEnvelope(lib, headEnv);
    Ok((artifact, revocationEnvs))
  }

  /** Parsing and verifying what the relay delivered, before the mark is consulted. */
  function AcceptEnvelope(cfg: GateConfig, env: Json): Checked<VerifiedHead>
  {
    match Unwrap(cfg.lib, env)
    case Err(e) => Refusal(e)
    case Ok((artifact, revocationEnvs)) => AcceptHead(cfg, artifact, revocationEnvs)
  }

  function VerifyHead(cfg: GateConfig, artifact: Artifact): Checked<HeadContent>
  {
    Then(VerifyArtifact(cfg, HEAD_ARTIFACT_TYPE, artifact), ParseHeadBody(cfg.lib, artifact.body))
  }

  function BodyDigest(lib: Library, body: Json): string
  {
    match Canonicalize(body)
    case Ok(canonical) => lib.sha256Hex(canonical)
    case Err(_) => ""
  }

  function JoinHead(content: Checked<HeadContent>, seen: Checked<set<string>>, digest: string)
    : (r: Checked<VerifiedHead>)
    ensures r.Passed? ==> content == Passed(r.value.content) && seen == Passed(r.value.seenRevocations)
    ensures r.Fault? <==> content.Fault? || (content.Passed? && seen.Fault?)
  {
    match content
    case Refused(r, d) => Refused(r, d)
    case Fault => Fault
    case Passed(c) =>
      match seen
      case Refused(r, d) => Refused(r, d)
      case Fault => Fault
      case Passed(s) => Passed(VerifiedHead(c, digest, s))
  }

  function AcceptHead(cfg: GateConfig, artifact: Artifact, revocationEnvs: seq<Json>): Checked<VerifiedHead>
  {
    JoinHead(VerifyHead(cfg, artifact), VerifyRevocations(cfg, revocationEnvs), BodyDigest(cfg.lib, artifact.body))
  }

  /** `_verify_grant`. */
  function VerifyGrant(cfg: GateConfig, request: AuthorizationRequest): (r: Checked<Grant>)
    ensures r.Passed? ==> MatchesGrantId(r.value.grantId) && r.value.issuerFp == cfg.pinnedIssuer
  {
    match ParseEnvelope(cfg.lib, request.grantEnvelope)
    case Err(e) => Refusal(e)
    case Ok(artifact) => VerifyGrantArtifact(cfg, artifact)
  }

  function VerifyGrantArtifact(cfg: GateConfig, artifact: Artifact): (r: Checked<Grant>)
    requires artifact.body.Obj?
    ensures r.Passed? ==> MatchesGrantId(r.value.grantId) && r.value.issuerFp == cfg.pinnedIssuer
  {
    PinIssuer(cfg, Then(VerifyArtifact(cfg, "grant", artifact), ParseGrantBody(cfg.lib, artifact.body)))
  }

  /** A verified grant is good if it names the pinned issuer. */
  function PinIssuer(cfg: GateConfig, grant: Checked<Grant>): (r: Checked<Grant>)
    ensures r.Passed? <==> grant.Passed? && grant.value.issuerFp == cfg.pinnedIssuer
    ensures r.Passed? ==> r.value == grant.value
    ensures r.Fault? <==> grant.Fault?
  {
    if grant.Passed? && grant.value.issuerFp != cfg.pinnedIssuer then Refused(InvalidArtifact, Some("untrusted_issuer"))
    else grant
  }

  function Abs(n: int): nat
  {
    if n < 0 then -n else n
  }

  function CheckSubject(cfg: GateConfig, request: AuthorizationRequest, now: int, grant: Grant,
                        peer: PeerReply): Checked<()>
  {
    match grant.subject
    case OsAccount(machineId, account) =>
      if peer.PeerError? then Fault
      else if peer.identity == Some(PeerIdentity(machineId, account)) then Passed(())
      else Refused(ModeMismatch, Some("subject_identity_mismatch"))
    case AgentKey(pubkeyHex, _) =>
      if request.agentSig.None? || cfg.lib.loadKey(pubkeyHex).None? then Refused(ModeMismatch, None)
      else
        match RequestBinding(grant.grantId, request.requestId, request.actionDigest, request.issuedAt,
                             request.channelBinding)
        case Err(_) => Fault
        case Ok(binding) =>
          if !cfg.lib.verify(cfg.lib.loadKey(pubkeyHex).value, binding, request.agentSig.value) then
            Refused(ModeMismatch, None)
          else if Abs(now - request.issuedAt) > REQUEST_FRESHNESS_SECONDS then
            Refused(InvalidArtifact, Some("issued_at_out_of_window"))
          else if request.channelBinding != cfg.challenge then
            Refused(InvalidArtifact, Some("channel_binding_mismatch"))
          else Passed(())
  }

  /** `_local_decisions`. */
  function LocalDecisions(cfg: GateConfig, request: AuthorizationRequest, now: int, head: VerifiedHead, grant: Grant,
                          peer: PeerReply): (r: Checked<()>)
    ensures r.Passed? ==> MembershipOf(head, grant.grantId, grant.grantVersion).Active?
    ensures r.Passed? ==> grant.validFrom - CLOCK_SKEW_SECONDS <= now <= grant.validUntil + CLOCK_SKEW_SECONDS
    ensures r.Passed? ==> grant.validUntil - grant.validFrom <= VALIDITY_CAP_SECONDS && grant.fromAccount == cfg.account
  {
    match MembershipOf(head, grant.grantId, grant.grantVersion)
    case Revoked => Refused(GrantRevoked, None)
    case Superseded => Refused(GrantSuperseded, None)
    case NoGrant => Refused(GrantUnknown, Some("inactive_in_verified_head"))
    case Active =>
      if now < grant.validFrom - CLOCK_SKEW_SECONDS then Refused(Expired, Some("not_yet_valid"))
      else if now > grant.validUntil + CLOCK_SKEW_SECONDS then Refused(Expired, None)
      else if grant.validUntil - grant.validFrom > VALIDITY_CAP_SECONDS then Refused(ValidityExceedsPolicy, None)
      else if grant.fromAccount != cfg.account then Refused(ScopeMismatch, None)
      else CheckSubject(cfg, request, now, grant, peer)
  }

  function ExpectedBindingOf(request: AuthorizationRequest, grant: Grant, head: VerifiedHead,
                             actionDigest: string): ExpectedBinding
  {
    ExpectedBinding(request.requestId, actionDigest, head.digest, head.content.stateVersion, grant.grantId,
                    grant.grantVersion, ApprovalModeName(grant.approvalMode), SubjectKindName(grant.subject),
                    if grant.approvalMode.Auto? then AUTHORIZED else NEEDS_APPROVAL)
  }

  predicate InHygieneWindow(decidedAt: int, requestNow: int, wallVerified: int)
  {
    requestNow - DECIDED_AT_SLACK_SECONDS <= decidedAt <= wallVerified + DECIDED_AT_SLACK_SECONDS
  }

  datatype CallContext = CallContext(request: AuthorizationRequest, actionDigest: string, now: int)

  /**
   Signature, binding, hygiene window and deadline, in that order, given the bytes that are signed and
   the first mismatching field.
   */
  function JudgeDecision(cfg: GateConfig, signed: Result<Bytes, JcsError>, mismatch: Option<string>, now: int,
                         decision: Decision, wallVerified: int, elapsed: int): (r: Checked<()>)
    ensures r.Passed? ==> mismatch.None? && elapsed <= RESPONSE_DEADLINE_NS
    ensures r.Fault? <==> signed.Err?
  {
    match signed
    case Err(_) => Fault
    case Ok(message) =>
      if !cfg.lib.verify(cfg.decisionKey, message, decision.sig) then
        Refused(InvalidArtifact, Some("decision_sig_invalid"))
      else if mismatch.Some? then Refused(InvalidArtifact, mismatch)
      else if !InHygieneWindow(decision.decidedAt, now, wallVerified) then
        Refused(InvalidArtifact, Some("decided_at_out_of_window"))
      else if elapsed > RESPONSE_DEADLINE_NS then Refused(CloudUnreachable, None)
      else Passed(())
  }

  /** The service's decision against the gate's own derivation. */
  function VerifyAgainst(cfg: GateConfig, expected: ExpectedBinding, now: int, decision: Decision, wallVerified: int,
                         elapsed: int): (r: Checked<()>)
    ensures r.Passed? ==> AgreesOn(decision, expected) && elapsed <= RESPONSE_DEADLINE_NS
    ensures r.Fault? <==> DecisionSigningInput(decision).Err?
  {
    BindingIffAgrees(decision, expected);
    JudgeDecision(cfg, DecisionSigningInput(decision), CheckBinding(decision, expected), now, decision, wallVerified,
                  elapsed)
  }

  function VerifyResponse(cfg: GateConfig, ctx: CallContext, head: VerifiedHead, grant: Grant, decision: Decision,
                          wallVerified: int, elapsed: int): (r: Checked<()>)
    ensures r.Passed? ==> AgreesOn(decision, ExpectedBindingOf(ctx.request, grant, head, ctx.actionDigest))
    ensures r.Passed? ==> elapsed <= RESPONSE_DEADLINE_NS
    ensures r.Fault? <==> DecisionSigningInput(decision).Err?
  {
    VerifyAgainst(cfg, ExpectedBindingOf(ctx.request, grant, head, ctx.actionDigest), ctx.now, decision, wallVerified,
                  elapsed)
  }

  /** `_peek_identifiers`: unverified ids for a denial row. */
  function PeekIdentifiers(lib: Library, request: AuthorizationRequest): (Option<string>, Option<string>)
  {
    var env := request.grantEnvelope;
    var grant := match ParseEnvelope(lib, env)
                 case Err(e) => Err(e)
                 case Ok(artifact) => ParseGrantBody(lib, artifact.body);
    if grant.Ok? then (Some(grant.value.grantId), Some(SubjectKindName(grant.value.subject)))
    else if env.Obj? && Get(env.members, "body").Obj? && Get(Get(env.members, "body").members, "grant_id").Str? then
      (Some(Get(Get(env.members, "body").members, "grant_id").s), None)
    else (None, None)
  }

  function DenialRow(lib: Library, ctx: CallContext, reason: DenialReason, detail: Option<string>,
                     grant: Option<Grant>): AuditRow
  {
    var (id, kind) := if grant.Some? then (Some(grant.value.grantId), Some(SubjectKindName(grant.value.subject)))
                      else PeekIdentifiers(lib, ctx.request);
    AuditRow(ctx.now, ctx.request.requestId, ReasonCode(reason), id, grant.Some?, kind, detail,
             None, None, None, None, None)
  }

  function SuccessRow(ctx: CallContext, head: VerifiedHead, grant: Grant, decision: Decision): AuditRow
  {
    AuditRow(ctx.now, ctx.request.requestId, if grant.approvalMode.Auto? then AUTHORIZED else NEEDS_APPROVAL,
             Some(grant.grantId), true, Some(SubjectKindName(grant.subject)), None,
             Some(ApprovalModeName(grant.approvalMode)), Some(decision.decisionId),
             Some(head.content.stateVersion), Some(head.digest), Some(ctx.actionDigest))
  }

  /** The request consumer's key: `grant_id NUL request_id`. */
  function RequestKey(grantId: string, requestId: string): string
  {
    grantId + "\0" + requestId
  }
}
