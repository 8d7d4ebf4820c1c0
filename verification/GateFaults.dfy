/**
 When a gate call ends with neither an authorization nor an audited denial: the errors that no handler
 of the gate catches, stage by stage, and what a call comes to otherwise.
 */
module GateFaults {
  import opened Wrappers
  import opened Encodings
  import opened Jcs
  import opened JcsParser
  import opened Capability
  import opened Service
  import opened AuthzState
  import opened DecisionPolicy
  import opened Gate
  import opened GateMachine
  import GateRuns

  // ----- the serializer's domain ------------------------------------------------------

  lemma SigningInputDomain(t: string, body: Json)
    ensures SigningInput(t, body).Ok? <==> InDomain(body)
  {
    SerializeDomain(body);
  }

  predicate SafeInteger(n: int)
  {
    -MAX_SAFE_INTEGER <= n <= MAX_SAFE_INTEGER
  }

  /** An object of strings and one number. */
  ghost predicate FlatBody(body: Json, key: string, n: int)
  {
    body.Obj? && key in body.members && body.members[key] == Num(n) &&
    forall k | k in body.members && k != key :: body.members[k].Str?
  }

  lemma FlatDomain(body: Json, key: string, n: int)
    requires FlatBody(body, key, n)
    ensures Canonicalize(body).Ok? <==> SafeInteger(n)
  {
    SerializeDomain(body);
    assert InDomain(body) ==> InDomain(body.members[key]);
  }

  lemma RequestBodyIsFlat(g: string, r: string, a: string, issuedAt: int, c: string)
    ensures FlatBody(RequestBindingBody(g, r, a, issuedAt, c), "issued_at", issuedAt)
  {
  }

  lemma RequestBindingDomain(g: string, r: string, a: string, issuedAt: int, c: string)
    ensures RequestBinding(g, r, a, issuedAt, c).Ok? <==> SafeInteger(issuedAt)
  {
    RequestBodyIsFlat(g, r, a, issuedAt, c);
    FlatDomain(RequestBindingBody(g, r, a, issuedAt, c), "issued_at", issuedAt);
  }

  lemma DecisionBodyIsFlat(d: Decision)
    ensures FlatBody(DecisionBody(d), "decided_at", d.decidedAt)
  {
  }

  lemma DecisionDomain(d: Decision)
    ensures DecisionSigningInput(d).Ok? <==> SafeInteger(d.decidedAt)
  {
    DecisionBodyIsFlat(d);
    FlatDomain(DecisionBody(d), "decided_at", d.decidedAt);
  }

  // ----- the exact condition of each fault --------------------------------------------

  /** The artifact has the type asked for, and a body that no signing input exists for; its signature is not looked at. */
  ghost predicate ArtifactFaults(kind: string, a: Artifact)
  {
    a.kind == kind && !InDomain(a.body)
  }

  lemma ArtifactFaultIff(cfg: GateConfig, kind: string, a: Artifact)
    ensures VerifyArtifact(cfg, kind, a).Fault? <==> ArtifactFaults(kind, a)
  {
    SigningInputDomain(kind, a.body);
  }

  ghost predicate TooLong<T>(r: Result<T, CertificateError>)
  {
    r.Err? && r.error.NumeralTooLong?
  }

  ghost predicate HeadFaults(cfg: GateConfig, a: Artifact)
  {
    || ArtifactFaults(HEAD_ARTIFACT_TYPE, a)
    || (VerifyArtifact(cfg, HEAD_ARTIFACT_TYPE, a).Passed? && TooLong(ParseHeadBody(cfg.lib, a.body)))
  }

  lemma HeadFaultIff(cfg: GateConfig, a: Artifact)
    ensures VerifyHead(cfg, a).Fault? <==> HeadFaults(cfg, a)
  {
    ArtifactFaultIff(cfg, HEAD_ARTIFACT_TYPE, a);
  }

  lemma EnvelopeNeverTooLong(lib: Library, env: Json)
    ensures !TooLong(ParseEnvelope(lib, env))
  {
  }

  lemma RevocationNeverTooLong(body: Json)
    ensures !TooLong(ParseRevocationBody(body))
  {
  }

  ghost predicate RevocationFaults(cfg: GateConfig, env: Json)
  {
    ParseEnvelope(cfg.lib, env).Ok? && ArtifactFaults(REVOCATION_ARTIFACT_TYPE, ParseEnvelope(cfg.lib, env).value)
  }

  lemma RevocationFaultIff(cfg: GateConfig, env: Json)
    ensures VerifyRevocation(cfg, env).Fault? <==> RevocationFaults(cfg, env)
  {
    EnvelopeNeverTooLong(cfg.lib, env);
    if ParseEnvelope(cfg.lib, env).Ok? {
      var a := ParseEnvelope(cfg.lib, env).value;
      ArtifactFaultIff(cfg, REVOCATION_ARTIFACT_TYPE, a);
      RevocationNeverTooLong(a.body);
    }
  }

  /** The first revocation that does not pass faults. */
  ghost predicate FirstFaults(cfg: GateConfig, envs: seq<Json>, i: nat)
  {
    i < |envs| && RevocationFaults(cfg, envs[i]) && AllPass(cfg, envs[..i])
  }

  /** The verification of one revocation passes. */
  function PassesOf(cfg: GateConfig): Json -> bool
  {
    env => VerifyRevocation(cfg, env).Passed?
  }

  ghost predicate AllPass(cfg: GateConfig, envs: seq<Json>)
  {
    AllHold(PassesOf(cfg), envs)
  }

  ghost predicate AllHold(p: Json -> bool, envs: seq<Json>)
  {
    forall j | 0 <= j < |envs| :: p(envs[j])
  }

  lemma LastHolds(p: Json -> bool, envs: seq<Json>, init: seq<Json>, last: Json)
    requires envs == init + [last]
    ensures AllHold(p, envs) <==> AllHold(p, init) && p(last)
  {
    assert envs[|init|] == last && forall j | 0 <= j < |init| :: envs[j] == init[j];
  }

  /** Some revocation faults, and all before it pass. */
  ghost predicate SomeFaults(cfg: GateConfig, envs: seq<Json>)
  {
    exists i: nat :: FirstFaults(cfg, envs, i)
  }

  /** The scan of the revocations, by its last step. */
  lemma LastRevocation(cfg: GateConfig, envs: seq<Json>, init: seq<Json>, last: Json)
    requires envs == init + [last]
    ensures VerifyRevocations(cfg, envs).Passed? <==>
            VerifyRevocations(cfg, init).Passed? && VerifyRevocation(cfg, last).Passed?
    ensures VerifyRevocations(cfg, envs).Fault? <==>
            VerifyRevocations(cfg, init).Fault? ||
            (VerifyRevocations(cfg, init).Passed? && VerifyRevocation(cfg, last).Fault?)
  {
    assert envs[..|envs| - 1] == init;
  }

  lemma LastPasses(cfg: GateConfig, envs: seq<Json>, init: seq<Json>, last: Json)
    requires envs == init + [last]
    ensures AllPass(cfg, envs) <==> AllPass(cfg, init) && VerifyRevocation(cfg, last).Passed?
  {
    LastHolds(PassesOf(cfg), envs, init, last);
  }

  lemma {:induction false} RevocationsPassIff(cfg: GateConfig, envs: seq<Json>)
    ensures VerifyRevocations(cfg, envs).Passed? <==> AllPass(cfg, envs)
  {
    if envs != [] {
      var init, last := envs[..|envs| - 1], envs[|envs| - 1];
      RevocationsPassIff(cfg, init);
      LastRevocation(cfg, envs, init, last);
      LastPasses(cfg, envs, init, last);
    }
  }

  lemma LastFaults(cfg: GateConfig, envs: seq<Json>, init: seq<Json>, last: Json)
    requires envs == init + [last]
    ensures SomeFaults(cfg, envs) <==> SomeFaults(cfg, init) || (RevocationFaults(cfg, last) && AllPass(cfg, init))
  {
    assert envs[|init|] == last && envs[..|init|] == init;
    assert forall i: nat | i < |init| :: envs[i] == init[i] && envs[..i] == init[..i];
    if SomeFaults(cfg, init) {
      var i: nat :| FirstFaults(cfg, init, i);
      assert FirstFaults(cfg, envs, i);
    } else if RevocationFaults(cfg, last) && AllPass(cfg, init) {
      assert FirstFaults(cfg, envs, |init|);
    } else if SomeFaults(cfg, envs) {
      var i: nat :| FirstFaults(cfg, envs, i);
      assert i < |init| ==> FirstFaults(cfg, init, i);
      assert false;
    }
  }

  lemma {:induction false} RevocationsFaultIff(cfg: GateConfig, envs: seq<Json>)
    ensures VerifyRevocations(cfg, envs).Fault? <==> SomeFaults(cfg, envs)
  {
    if envs != [] {
      var init, last := envs[..|envs| - 1], envs[|envs| - 1];
      RevocationsFaultIff(cfg, init);
      RevocationsPassIff(cfg, init);
      RevocationFaultIff(cfg, last);
      LastRevocation(cfg, envs, init, last);
      LastFaults(cfg, envs, init, last);
    }
  }

  ghost predicate DeliveryFaults(cfg: GateConfig, a: Artifact, revocations: seq<Json>)
  {
    HeadFaults(cfg, a) || (VerifyHead(cfg, a).Passed? && SomeFaults(cfg, revocations))
  }

  lemma DeliveryFaultIff(cfg: GateConfig, a: Artifact, revocations: seq<Json>)
    ensures AcceptHead(cfg, a, revocations).Fault? <==> DeliveryFaults(cfg, a, revocations)
  {
    HeadFaultIff(cfg, a);
    RevocationsFaultIff(cfg, revocations);
  }

  /** What the relay delivers unwraps, and its head or a revocation faults. */
  ghost predicate RelayFaults(cfg: GateConfig, env: Json)
  {
    Unwrap(cfg.lib, env).Ok? && DeliveryFaults(cfg, Unwrap(cfg.lib, env).value.0, Unwrap(cfg.lib, env).value.1)
  }

  lemma UnwrapNeverTooLong(lib: Library, env: Json)
    ensures !TooLong(Unwrap(lib, env))
  {
    if ParseSyncEnvelope(env).Ok? {
      EnvelopeNeverTooLong(lib, ParseSyncEnvelope(env).value.0);
    }
  }

  lemma RelayFaultIff(cfg: GateConfig, env: Json)
    ensures AcceptEnvelope(cfg, env).Fault? <==> RelayFaults(cfg, env)
  {
    UnwrapNeverTooLong(cfg.lib, env);
    if Unwrap(cfg.lib, env).Ok? {
      DeliveryFaultIff(cfg, Unwrap(cfg.lib, env).value.0, Unwrap(cfg.lib, env).value.1);
    }
  }

  ghost predicate GrantFaults(cfg: GateConfig, request: AuthorizationRequest)
  {
    && ParseEnvelope(cfg.lib, request.grantEnvelope).Ok?
    && var a := ParseEnvelope(cfg.lib, request.grantEnvelope).value;
       || ArtifactFaults("grant", a)
       || (VerifyArtifact(cfg, "grant", a).Passed? && TooLong(ParseGrantBody(cfg.lib, a.body)))
  }

  lemma GrantFaultIff(cfg: GateConfig, request: AuthorizationRequest)
    ensures VerifyGrant(cfg, request).Fault? <==> GrantFaults(cfg, request)
  {
    EnvelopeNeverTooLong(cfg.lib, request.grantEnvelope);
    if ParseEnvelope(cfg.lib, request.grantEnvelope).Ok? {
      ArtifactFaultIff(cfg, "grant", ParseEnvelope(cfg.lib, request.grantEnvelope).value);
    }
  }

  /** The peer resolver raises, or the agent's signature would be over an unsafe time. */
  ghost predicate SubjectFaults(cfg: GateConfig, request: AuthorizationRequest, grant: Grant, peer: PeerReply)
  {
    match grant.subject
    case OsAccount(_, _) => peer.PeerError?
    case AgentKey(pubkeyHex, _) =>
      request.agentSig.Some? && cfg.lib.loadKey(pubkeyHex).Some? && !SafeInteger(request.issuedAt)
  }

  lemma SubjectFaultIff(cfg: GateConfig, request: AuthorizationRequest, now: int, grant: Grant, peer: PeerReply)
    ensures CheckSubject(cfg, request, now, grant, peer).Fault? <==> SubjectFaults(cfg, request, grant, peer)
  {
    RequestBindingDomain(grant.grantId, request.requestId, request.actionDigest, request.issuedAt, request.channelBinding);
  }

  /** The grant is active, in time, within policy and for this account, and then the subject check faults. */
  ghost predicate LocalFaults(cfg: GateConfig, ctx: CallContext, head: VerifiedHead, grant: Grant, peer: PeerReply)
  {
    && MembershipOf(head, grant.grantId, grant.grantVersion).Active?
    && grant.validFrom - CLOCK_SKEW_SECONDS <= ctx.now <= grant.validUntil + CLOCK_SKEW_SECONDS
    && grant.validUntil - grant.validFrom <= VALIDITY_CAP_SECONDS && grant.fromAccount == cfg.account
    && SubjectFaults(cfg, ctx.request, grant, peer)
  }

  lemma LocalFaultIff(cfg: GateConfig, ctx: CallContext, head: VerifiedHead, grant: Grant, peer: PeerReply)
    ensures LocalDecisions(cfg, ctx.request, ctx.now, head, grant, peer).Fault? <==> LocalFaults(cfg, ctx, head, grant, peer)
  {
    SubjectFaultIff(cfg, ctx.request, ctx.now, grant, peer);
  }

  lemma DecisionFaultIff(cfg: GateConfig, ctx: CallContext, head: VerifiedHead, grant: Grant, decision: Decision, wall: int,
                         elapsed: int)
    ensures VerifyResponse(cfg, ctx, head, grant, decision, wall, elapsed).Fault? <==> !SafeInteger(decision.decidedAt)
  {
    DecisionDomain(decision);
  }

  // ----- an input that faults ---------------------------------------------------------

  const BAD_BODY := Obj(map["x" := Float(1.5)])

  /** A head nobody signed, with a number the serializer does not take. */
  const BAD_HEAD := Obj(map["v" := Num(1), "type" := Str("authz_state"), "body" := BAD_BODY, "sig" := Str("00")])

  const BAD_DELIVERY := Obj(map["head" := BAD_HEAD])

  lemma BadHeadParses(lib: Library)
    requires lib.fromHex("00").Some?
    ensures ParseEnvelope(lib, BAD_HEAD) == Ok(Artifact("authz_state", BAD_BODY, lib.fromHex("00").value))
  {
    var m := BAD_HEAD.members;
    assert Get(m, "v") == Num(1) && Get(m, "type") == Str("authz_state");
    assert Get(m, "body") == BAD_BODY && Get(m, "sig") == Str("00");
  }

  lemma BadDeliveryUnwraps(lib: Library)
    requires lib.fromHex("00").Some?
    ensures Unwrap(lib, BAD_DELIVERY) == Ok((Artifact("authz_state", BAD_BODY, lib.fromHex("00").value), []))
  {
    BadHeadParses(lib);
    assert ParseSyncEnvelope(BAD_DELIVERY) == Ok((BAD_HEAD, []));
  }

  lemma BadBodyIsOutOfDomain()
    ensures !InDomain(BAD_BODY)
  {
    assert !InDomain(BAD_BODY.members["x"]);
  }

  lemma BadDeliveryFaults(cfg: GateConfig)
    requires cfg.lib.fromHex("00").Some?
    ensures AcceptEnvelope(cfg, BAD_DELIVERY).Fault?
  {
    BadDeliveryUnwraps(cfg.lib);
    BadBodyIsOutOfDomain();
    RelayFaultIff(cfg, BAD_DELIVERY);
  }

  lemma FaultedDelivery(logic: GateLogic, ctx: CallContext, st: GateState, input: Input, env: Json)
    requires input.relay == Delivered(env) && Opened(logic, env).Fault?
    ensures Complete(logic, Syncing(ctx), st, input) == (Faulted(ctx), st)
  {
    SyncingRuns(logic, ctx, st, input);
  }

  /** No signature is needed: the relay alone can make any call end without a verdict and without an audit row. */
  lemma UnsignedHeadFaults(cfg: GateConfig, ctx: CallContext, st: GateState, input: Input)
    requires cfg.lib.fromHex("00").Some? && input.relay == Delivered(BAD_DELIVERY)
    ensures Complete(LogicOf(cfg), Syncing(ctx), st, input) == (Faulted(ctx), st)
  {
    BadDeliveryFaults(cfg);
    LogicOpens(cfg, BAD_DELIVERY);
    FaultedDelivery(LogicOf(cfg), ctx, st, input, BAD_DELIVERY);
  }
}
