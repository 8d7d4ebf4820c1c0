/** What it takes to pass the gate's checks, each stated as an exact condition. */
module GateChecks {
  import opened Wrappers
  import opened Encodings
  import opened Jcs
  import opened Capability
  import opened Service
  import opened AuthzState
  import opened DecisionPolicy
  import opened Gate

  // ----- envelope and grant -----------------------------------------------------------

  /** An envelope is accepted exactly when it has the closed version-1 shape and a signature in hex. */
  lemma EnvelopeIff(lib: Library, env: Json)
    ensures ParseEnvelope(lib, env).Ok? <==>
            && env.Obj? && env.members.Keys <= {"v", "type", "body", "sig"} && EqualsOne(Get(env.members, "v"))
            && Get(env.members, "type").Str? && Get(env.members, "type").s != "" && Get(env.members, "body").Obj?
            && Get(env.members, "sig").Str? && lib.fromHex(Get(env.members, "sig").s).Some?
    ensures ParseEnvelope(lib, env).Ok? ==>
              var a := ParseEnvelope(lib, env).value;
              Get(env.members, "type") == Str(a.kind) && Get(env.members, "body") == a.body &&
              lib.fromHex(Get(env.members, "sig").s) == Some(a.sig)
  {
  }

  function SubjectBody(s: Subject): Json
  {
    match s
    case OsAccount(machine, account) =>
      Obj(map["kind" := Str("os_account"), "machine_id" := Str(machine), "account" := Str(account)])
    case AgentKey(pubkey, slug) =>
      Obj(map["kind" := Str("agent_key"), "agent_pubkey" := Str(pubkey), "agent_slug" := Str(slug)])
  }

  predicate NoBlankIn(s: Subject)
  {
    match s
    case OsAccount(machine, account) => machine != "" && account != ""
    case AgentKey(pubkey, slug) => pubkey != "" && slug != ""
  }

  function ScopeBody(account: string): Json
  {
    Obj(map["from_account" := Str(account)])
  }

  lemma SubjectIff(s: Json, subject: Subject)
    ensures ParseSubject(s) == Ok(subject) <==> s == SubjectBody(subject) && NoBlankIn(subject)
  {
    if ParseSubject(s) == Ok(subject) {
      assert s.members == SubjectBody(subject).members;
    }
  }

  lemma ScopeIff(scope: Json, account: string)
    ensures ParseScope(scope) == Ok(account) <==> scope == ScopeBody(account) && account != ""
  {
    if ParseScope(scope) == Ok(account) {
      assert scope.members == ScopeBody(account).members;
    }
  }

  /** The body says `value` under `key`, a string that is not blank. */
  predicate Says(m: map<string, Json>, key: string, value: string)
  {
    Get(m, key) == Str(value) && value != ""
  }

  /** A version the gate can read. */
  predicate SaysVersion(lib: Library, m: map<string, Json>, key: string, value: string)
  {
    Says(m, key, value) && MatchesDecimal(value) && lib.intReads(value)
  }

  predicate SaysTime(lib: Library, m: map<string, Json>, key: string, t: int)
  {
    Get(m, key).Str? && Get(m, key).s != "" && lib.rfc3339(Get(m, key).s) == Some(t)
  }

  predicate SaysIdentity(lib: Library, m: map<string, Json>, i: GrantIdentity)
  {
    && Says(m, "grant_id", i.grantId) && MatchesGrantId(i.grantId) && Says(m, "issuer_fp", i.issuerFp)
    && SaysVersion(lib, m, "grant_version", i.grantVersion) && SaysVersion(lib, m, "state_version", i.stateVersion)
  }

  predicate SaysTerms(m: map<string, Json>, t: GrantTerms)
  {
    && Get(m, "tool") == Str("gmail") && Get(m, "action") == Str("send")
    && Get(m, "scope") == ScopeBody(t.account) && t.account != ""
    && Get(m, "subject") == SubjectBody(t.subject) && NoBlankIn(t.subject)
    && Get(m, "approval_mode") == Str(if t.mode.Auto? then "auto" else "per_call")
  }

  lemma IdentityIff(lib: Library, m: map<string, Json>, i: GrantIdentity)
    ensures ParseIdentity(lib, m) == Ok(i) <==> SaysIdentity(lib, m, i)
  {
  }

  lemma TermsIff(m: map<string, Json>, t: GrantTerms)
    ensures ParseTerms(m) == Ok(t) <==> SaysTerms(m, t)
  {
    ScopeIff(Get(m, "scope"), t.account);
    SubjectIff(Get(m, "subject"), t.subject);
  }

  lemma IntervalIff(lib: Library, m: map<string, Json>, from: int, until: int)
    ensures ParseInterval(lib, m) == Ok((from, until)) <==>
            SaysTime(lib, m, "valid_from", from) && SaysTime(lib, m, "valid_until", until) && from < until
  {
  }

  function IdentityOf(g: Grant): GrantIdentity
  {
    GrantIdentity(g.grantId, g.grantVersion, g.issuerFp, g.stateVersion)
  }

  function TermsOf(g: Grant): GrantTerms
  {
    GrantTerms(g.fromAccount, g.subject, g.approvalMode)
  }

  /** Every field of the grant is what the body says, and the body says nothing else. */
  predicate SaysGrant(lib: Library, body: Json, g: Grant)
    requires body.Obj?
  {
    && body.members.Keys == {"grant_id", "grant_version", "state_version", "issuer_fp", "subject", "tool", "action",
                             "scope", "approval_mode", "valid_from", "valid_until"}
    && SaysIdentity(lib, body.members, IdentityOf(g)) && SaysTerms(body.members, TermsOf(g))
    && SaysTime(lib, body.members, "valid_from", g.validFrom) && SaysTime(lib, body.members, "valid_until", g.validUntil)
    && g.validFrom < g.validUntil
  }

  lemma SaidKeysPresent(lib: Library, body: Json, i: GrantIdentity, t: GrantTerms, from: int, until: int)
    requires body.Obj? && SaysIdentity(lib, body.members, i) && SaysTerms(body.members, t)
    requires SaysTime(lib, body.members, "valid_from", from) && SaysTime(lib, body.members, "valid_until", until)
    ensures {"grant_id", "grant_version", "state_version", "issuer_fp", "subject", "tool", "action", "scope",
             "approval_mode", "valid_from", "valid_until"} <= body.members.Keys
  {
  }

  /** A grant is joined from its parts. */
  lemma PartsOfGrant(g: Grant, i: GrantIdentity, t: GrantTerms, from: int, until: int)
    ensures Grant(i.grantId, i.grantVersion, i.issuerFp, t.subject, t.account, t.mode, from, until, i.stateVersion) == g
       <==> IdentityOf(g) == i && TermsOf(g) == t && g.validFrom == from && g.validUntil == until
  {
  }

  /**
   A grant body is read to a grant exactly when it says every field of it, each in its form, and nothing
   else: a signature over it covers nothing the gate does not know.
   */
  lemma GrantIsRead(lib: Library, body: Json, g: Grant)
    requires body.Obj?
    ensures ParseGrantBody(lib, body) == Ok(g) <==> SaysGrant(lib, body, g)
  {
    var m := body.members;
    IdentityIff(lib, m, IdentityOf(g));
    TermsIff(m, TermsOf(g));
    IntervalIff(lib, m, g.validFrom, g.validUntil);
    var identity, terms, interval := ParseIdentity(lib, m), ParseTerms(m), ParseInterval(lib, m);
    if identity.Ok? && terms.Ok? && interval.Ok? {
      PartsOfGrant(g, identity.value, terms.value, interval.value.0, interval.value.1);
    }
    if SaysGrant(lib, body, g) {
      assert m.Keys <= GRANT_BODY_KEYS;
    } else if ParseGrantBody(lib, body) == Ok(g) {
      SaidKeysPresent(lib, body, IdentityOf(g), TermsOf(g), g.validFrom, g.validUntil);
    }
  }

  /** A grant artifact passes exactly when it verifies under the user root and its body names the pinned issuer. */
  lemma GrantArtifactIff(cfg: GateConfig, a: Artifact)
    requires a.body.Obj?
    ensures VerifyGrantArtifact(cfg, a).Passed? <==>
            && VerifyArtifact(cfg, "grant", a).Passed?
            && ParseGrantBody(cfg.lib, a.body).Ok?
            && ParseGrantBody(cfg.lib, a.body).value.issuerFp == cfg.pinnedIssuer
    ensures VerifyGrantArtifact(cfg, a).Passed? ==>
              VerifyGrantArtifact(cfg, a).value == ParseGrantBody(cfg.lib, a.body).value
  {
  }

  // ----- local decisions --------------------------------------------------------------

  /** The caller is the grant's subject: the peer account, or the holder of the key, freshly and on this channel. */
  ghost predicate SubjectProven(cfg: GateConfig, request: AuthorizationRequest, now: int, grant: Grant,
                                peer: PeerReply)
  {
    match grant.subject
    case OsAccount(machineId, account) => peer == Resolved(Some(PeerIdentity(machineId, account)))
    case AgentKey(pubkeyHex, _) =>
      var binding := Canonicalize(Obj(map[
        "grant_id" := Str(grant.grantId), "request_id" := Str(request.requestId),
        "action_digest" := Str(request.actionDigest), "issued_at" := Num(request.issuedAt),
        "channel_binding" := Str(request.channelBinding)]));
      && request.agentSig.Some? && cfg.lib.loadKey(pubkeyHex).Some? && binding.Ok?
      && cfg.lib.verify(cfg.lib.loadKey(pubkeyHex).value, binding.value, request.agentSig.value)
      && -300 <= now - request.issuedAt <= 300
      && request.channelBinding == cfg.challenge
  }

  lemma SubjectProvenIff(cfg: GateConfig, request: AuthorizationRequest, now: int, grant: Grant, peer: PeerReply)
    ensures CheckSubject(cfg, request, now, grant, peer).Passed? <==> SubjectProven(cfg, request, now, grant, peer)
  {
  }

  /** The local decisions pass exactly for an active grant, in time, within policy, for this account and subject. */
  lemma LocalDecisionsIff(cfg: GateConfig, request: AuthorizationRequest, now: int, head: VerifiedHead, grant: Grant,
                          peer: PeerReply)
    ensures LocalDecisions(cfg, request, now, head, grant, peer).Passed? <==>
            && (grant.grantId, grant.grantVersion) in head.content.active && grant.grantId !in head.seenRevocations
            && grant.validFrom - 300 <= now <= grant.validUntil + 300
            && grant.validUntil - grant.validFrom <= 604_800 && grant.fromAccount == cfg.account
            && SubjectProven(cfg, request, now, grant, peer)
  {
    SubjectProvenIff(cfg, request, now, grant, peer);
  }

  /** The code and detail of the row for a subject that is not proven. */
  function SubjectDenial(cfg: GateConfig, request: AuthorizationRequest, now: int, grant: Grant): (string, Option<string>)
  {
    match grant.subject
    case OsAccount(_, _) => ("denied_mode_mismatch", Some("subject_identity_mismatch"))
    case AgentKey(pubkeyHex, _) =>
      var binding := Canonicalize(Obj(map[
        "grant_id" := Str(grant.grantId), "request_id" := Str(request.requestId),
        "action_digest" := Str(request.actionDigest), "issued_at" := Num(request.issuedAt),
        "channel_binding" := Str(request.channelBinding)]));
      if request.agentSig.None? || cfg.lib.loadKey(pubkeyHex).None? || binding.Err? ||
         !cfg.lib.verify(cfg.lib.loadKey(pubkeyHex).value, binding.value, request.agentSig.value)
      then ("denied_mode_mismatch", None)
      else if now - request.issuedAt < -300 || now - request.issuedAt > 300
      then ("denied_invalid_artifact", Some("issued_at_out_of_window"))
      else ("denied_invalid_artifact", Some("channel_binding_mismatch"))
  }

  lemma SubjectDenials(cfg: GateConfig, request: AuthorizationRequest, now: int, grant: Grant, peer: PeerReply)
    ensures var r := CheckSubject(cfg, request, now, grant, peer);
            r.Refused? ==> (ReasonCode(r.reason), r.detail) == SubjectDenial(cfg, request, now, grant)
  {
  }

  /** The code and detail of the row for the first local decision that fails: membership, time, policy, account, subject. */
  function LocalDenial(cfg: GateConfig, request: AuthorizationRequest, now: int, head: VerifiedHead, grant: Grant)
    : (string, Option<string>)
  {
    if grant.grantId in head.seenRevocations then ("denied_revoked", None)
    else if (grant.grantId, grant.grantVersion) !in head.content.active then
      if exists ref | ref in head.content.active :: ref.0 == grant.grantId then ("denied_superseded", None)
      else ("denied_no_grant", Some("inactive_in_verified_head"))
    else if now < grant.validFrom - 300 then ("denied_expired", Some("not_yet_valid"))
    else if now > grant.validUntil + 300 then ("denied_expired", None)
    else if grant.validUntil - grant.validFrom > 604_800 then ("denied_validity_exceeds_policy", None)
    else if grant.fromAccount != cfg.account then ("denied_scope", None)
    else SubjectDenial(cfg, request, now, grant)
  }

  lemma LocalDenials(cfg: GateConfig, request: AuthorizationRequest, now: int, head: VerifiedHead, grant: Grant,
                     peer: PeerReply)
    ensures var r := LocalDecisions(cfg, request, now, head, grant, peer);
            r.Refused? ==> (ReasonCode(r.reason), r.detail) == LocalDenial(cfg, request, now, head, grant)
  {
    SubjectDenials(cfg, request, now, grant, peer);
  }

  // ----- the decision -----------------------------------------------------------------

  /** The decision says what the gate derives itself, each field from its own source. */
  predicate AgreesWithGate(d: Decision, ctx: CallContext, head: VerifiedHead, grant: Grant)
  {
    && d.requestId == ctx.request.requestId && d.actionDigest == ctx.actionDigest
    && d.authzStateDigest == head.digest && d.stateVersion == head.content.stateVersion
    && d.grantId == grant.grantId && d.grantVersion == grant.grantVersion
    && d.approvalMode == (if grant.approvalMode.Auto? then "auto" else "per_call")
    && d.subjectKind == (if grant.subject.OsAccount? then "os_account" else "agent_key")
    && d.disposition == (if grant.approvalMode.Auto? then "authorized" else "needs_approval")
  }

  lemma ExpectedIsDerived(d: Decision, ctx: CallContext, head: VerifiedHead, grant: Grant)
    ensures var expected := ExpectedBindingOf(ctx.request, grant, head, ctx.actionDigest);
            ClosedEnums(expected) && (AgreesOn(d, expected) <==> AgreesWithGate(d, ctx, head, grant))
  {
  }

  lemma JudgedIff(cfg: GateConfig, signed: Result<Bytes, JcsError>, mismatch: Option<string>, now: int,
                  decision: Decision, wallVerified: int, elapsed: int)
    ensures JudgeDecision(cfg, signed, mismatch, now, decision, wallVerified, elapsed).Passed? <==>
            && signed.Ok? && mismatch.None? && cfg.lib.verify(cfg.decisionKey, signed.value, decision.sig)
            && now - 300 <= decision.decidedAt <= wallVerified + 300 && elapsed <= 5_000_000_000
  {
  }

  /** A decision passes exactly when it is signed, agrees on all nine fields, has a plausible time and is not late. */
  lemma ResponseIff(cfg: GateConfig, ctx: CallContext, head: VerifiedHead, grant: Grant, decision: Decision,
                    wallVerified: int, elapsed: int)
    ensures VerifyResponse(cfg, ctx, head, grant, decision, wallVerified, elapsed).Passed? <==>
            && DecisionSigningInput(decision).Ok?
            && cfg.lib.verify(cfg.decisionKey, DecisionSigningInput(decision).value, decision.sig)
            && AgreesWithGate(decision, ctx, head, grant)
            && ctx.now - 300 <= decision.decidedAt <= wallVerified + 300
            && elapsed <= 5_000_000_000
  {
    var expected := ExpectedBindingOf(ctx.request, grant, head, ctx.actionDigest);
    ExpectedIsDerived(decision, ctx, head, grant);
    BindingIffAgrees(decision, expected);
    JudgedIff(cfg, DecisionSigningInput(decision), CheckBinding(decision, expected), ctx.now, decision, wallVerified,
              elapsed);
  }

  /** The code and detail of the row for a decision: signature before fields, fields before window, the deadline last. */
  function ResponseDenial(cfg: GateConfig, signed: Bytes, difference: Option<string>, now: int, decision: Decision,
                          wallVerified: int): (string, Option<string>)
  {
    if !cfg.lib.verify(cfg.decisionKey, signed, decision.sig)
    then ("denied_invalid_artifact", Some("decision_sig_invalid"))
    else if difference.Some? then ("denied_invalid_artifact", difference)
    else if decision.decidedAt < now - 300 || decision.decidedAt > wallVerified + 300
    then ("denied_invalid_artifact", Some("decided_at_out_of_window"))
    else ("denied_cloud_unreachable", None)
  }

  lemma JudgeDenials(cfg: GateConfig, signed: Result<Bytes, JcsError>, mismatch: Option<string>, now: int,
                     decision: Decision, wallVerified: int, elapsed: int)
    requires signed.Ok?
    ensures var r := JudgeDecision(cfg, signed, mismatch, now, decision, wallVerified, elapsed);
            r.Refused? ==>
              (ReasonCode(r.reason), r.detail) == ResponseDenial(cfg, signed.value, mismatch, now, decision, wallVerified)
  {
  }

  /** The first difference between a decision and the gate's own derivation. */
  function DifferenceFromGate(d: Decision, ctx: CallContext, head: VerifiedHead, g: Grant): Option<string>
  {
    FirstDifference(d, ExpectedBinding(ctx.request.requestId, ctx.actionDigest, head.digest, head.content.stateVersion,
                                       g.grantId, g.grantVersion, if g.approvalMode.Auto? then "auto" else "per_call",
                                       if g.subject.OsAccount? then "os_account" else "agent_key",
                                       if g.approvalMode.Auto? then "authorized" else "needs_approval"))
  }

  lemma ResponseDenials(cfg: GateConfig, ctx: CallContext, head: VerifiedHead, grant: Grant, decision: Decision,
                        wallVerified: int, elapsed: int)
    requires DecisionSigningInput(decision).Ok?
    ensures var r := VerifyResponse(cfg, ctx, head, grant, decision, wallVerified, elapsed);
            r.Refused? ==>
              (ReasonCode(r.reason), r.detail) ==
              ResponseDenial(cfg, DecisionSigningInput(decision).value, DifferenceFromGate(decision, ctx, head, grant),
                             ctx.now, decision, wallVerified)
  {
    var expected := ExpectedBindingOf(ctx.request, grant, head, ctx.actionDigest);
    MismatchIsFirstDifference(decision, expected);
    JudgeDenials(cfg, DecisionSigningInput(decision), CheckBinding(decision, expected), ctx.now, decision, wallVerified,
                 elapsed);
  }
}
