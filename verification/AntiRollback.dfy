/** Anti-rollback: what a revocation is worth against a relay that replays, withholds or drops what was signed. */
module AntiRollback {
  import opened Wrappers
  import opened Jcs
  import opened Capability
  import opened Service
  import opened AuthzState
  import opened Gate
  import opened GateMachine
  import GateRuns
  import opened HeadOrder

  lemma GenuineIsPublished(cfg: GateConfig, cp: ControlPlane, ops: seq<ControlOp>, head: VerifiedHead)
    requires Unforgeable(cfg.lib, cfg.rootKey, cp, ops) && GateRuns.Genuine(LogicOf(cfg), head)
    ensures PublishedActive(cp, ops, head.content.version, head.content.active)
  {
    var env :| LogicOf(cfg).acceptEnvelope(env) == Passed(head);
    AcceptedEnvelopeHead(cfg, env, head);
    var artifact :| HeadArtifact(cfg, artifact, head);
    VerifiedArtifactIsPublished(cfg, cp, ops, artifact, head);
  }

  ghost predicate HeadArtifact(cfg: GateConfig, artifact: Artifact, head: VerifiedHead)
  {
    VerifyHead(cfg, artifact) == Passed(head.content)
  }

  lemma AcceptedEnvelopeHead(cfg: GateConfig, env: Json, head: VerifiedHead)
    requires AcceptEnvelope(cfg, env) == Passed(head)
    ensures exists artifact :: HeadArtifact(cfg, artifact, head)
  {
    var (artifact, revocationEnvs) := Unwrap(cfg.lib, env).value;
    AcceptedHeadArtifact(cfg, artifact, revocationEnvs, head);
  }

  lemma AcceptedHeadArtifact(cfg: GateConfig, artifact: Artifact, revocationEnvs: seq<Json>, head: VerifiedHead)
    requires AcceptHead(cfg, artifact, revocationEnvs) == Passed(head)
    ensures HeadArtifact(cfg, artifact, head)
  {
    var content, seen := VerifyHead(cfg, artifact), VerifyRevocations(cfg, revocationEnvs);
    assert JoinHead(content, seen, BodyDigest(cfg.lib, artifact.body)) == Passed(head);
  }

  lemma VerifiedArtifactIsPublished(cfg: GateConfig, cp: ControlPlane, ops: seq<ControlOp>, artifact: Artifact,
                                    head: VerifiedHead)
    requires Unforgeable(cfg.lib, cfg.rootKey, cp, ops) && HeadArtifact(cfg, artifact, head)
    ensures PublishedActive(cp, ops, head.content.version, head.content.active)
  {
    var message := SigningInput(HEAD_ARTIFACT_TYPE, artifact.body).value;
    VerifiedHeadIsPublished(cfg.lib, cfg.rootKey, cp, ops, artifact.body, message, artifact.sig);
  }

  /** The grant is in no published active set from version `r` on. */
  ghost predicate InactiveFrom(cp: ControlPlane, ops: seq<ControlOp>, ref: GrantRef, r: int)
  {
    forall v, active | v >= r && PublishedActive(cp, ops, v, active) :: ref !in active
  }

  /**
   Anti-rollback against a relay that may replay, withhold or drop anything the control plane ever
   signed: once the mark has reached `r`, a call that reads it from then on never authorizes a grant
   that is inactive at every version from `r` on.
   */
  lemma RevokedNeverAuthorized(cfg: GateConfig, cp: ControlPlane, ops: seq<ControlOp>, ref: GrantRef, r: int,
                               w: GateRuns.World, id: nat, events: seq<GateRuns.Event>)
    requires Unforgeable(cfg.lib, cfg.rootKey, cp, ops) && InactiveFrom(cp, ops, ref, r)
    requires GateRuns.Inv(LogicOf(cfg), w) && w.st.mark >= r && MarkUnread(w, id)
    ensures var w' := GateRuns.Run(LogicOf(cfg), w, events);
            id in w'.calls && w'.calls[id].Authorized? ==>
              (w'.calls[id].grant.grantId, w'.calls[id].grant.grantVersion) != ref
  {
    LogicIsSound(cfg);
    HeadsExcludeInactive(cfg, cp, ops, ref, r);
    ExcludedNeverAuthorized(LogicOf(cfg), ref, r, w, id, events);
  }

  lemma ExcludedNeverAuthorized(logic: GateLogic, ref: GrantRef, r: int, w: GateRuns.World, id: nat,
                                events: seq<GateRuns.Event>)
    requires HeadsExclude(logic, ref, r) && Sound(logic) && GateRuns.Inv(logic, w) && w.st.mark >= r && MarkUnread(w, id)
    ensures var w' := GateRuns.Run(logic, w, events);
            id in w'.calls && w'.calls[id].Authorized? ==>
              (w'.calls[id].grant.grantId, w'.calls[id].grant.grantVersion) != ref
  {
    var w' := GateRuns.Run(logic, w, events);
    GateRuns.RunInv(logic, w, events);
    FloorHolds(logic, w, events, id, r);
    if id in w'.calls && w'.calls[id].Authorized? {
      AuthorizedAboveFloor(logic, ref, r, w', id);
    }
  }

  /** No head that passes verification at version `r` or above lists the grant. */
  ghost predicate HeadsExclude(logic: GateLogic, ref: GrantRef, r: int)
  {
    forall head | GateRuns.Genuine(logic, head) && head.content.version >= r :: ref !in head.content.active
  }

  lemma HeadsExcludeInactive(cfg: GateConfig, cp: ControlPlane, ops: seq<ControlOp>, ref: GrantRef, r: int)
    requires Unforgeable(cfg.lib, cfg.rootKey, cp, ops) && InactiveFrom(cp, ops, ref, r)
    ensures HeadsExclude(LogicOf(cfg), ref, r)
  {
    forall head | GateRuns.Genuine(LogicOf(cfg), head) && head.content.version >= r ensures ref !in head.content.active {
      GenuineIsPublished(cfg, cp, ops, head);
    }
  }

  lemma AuthorizedAboveFloor(logic: GateLogic, ref: GrantRef, r: int, w: GateRuns.World, id: nat)
    requires HeadsExclude(logic, ref, r) && Sound(logic) && GateRuns.Inv(logic, w)
    requires Floor(w, id, r) && id in w.calls && w.calls[id].Authorized?
    ensures (w.calls[id].grant.grantId, w.calls[id].grant.grantVersion) != ref
  {
    AuthorizedIsActive(logic, w, id);
  }

  lemma AuthorizedIsActive(logic: GateLogic, w: GateRuns.World, id: nat)
    requires Sound(logic) && GateRuns.Inv(logic, w) && id in w.calls && w.calls[id].Authorized?
    ensures var call := w.calls[id];
            GateRuns.Genuine(logic, call.head) && (call.grant.grantId, call.grant.grantVersion) in call.head.content.active
  {
    assert GateRuns.Justified(logic, w.calls[id]);
    GateRuns.AuthorizedMeans(logic, w.calls[id]);
  }

  /** A revoked grant version is inactive from there on exactly when no later operation lists that version. */
  lemma RevocationIsInactiveIff(cp: ControlPlane, ops: seq<ControlOp>, i: nat, ref: GrantRef)
    requires i < |ops| && ops[i] == Revoke(ref.0)
    ensures InactiveFrom(cp, ops, ref, cp.version + i + 1) <==>
            forall j | i < j < |ops| && Relists(ops[j], ref.0) :: ListedVersion(ops[j]) != ref.1
  {
    if forall j | i < j < |ops| && Relists(ops[j], ref.0) :: ListedVersion(ops[j]) != ref.1 {
      forall v, active | v >= cp.version + i + 1 && PublishedActive(cp, ops, v, active) ensures ref !in active {
        VersionAfterRevocation(cp, ops, i, v - cp.version, ref);
      }
    } else {
      var j :| i < j < |ops| && Relists(ops[j], ref.0) && ListedVersion(ops[j]) == ref.1;
      assert ListedAs(ops, j, j + 1, ref);
      VersionAfterRevocation(cp, ops, i, j + 1, ref);
      assert PublishedActive(cp, ops, cp.version + j + 1, ActiveRefs(Run(cp, ops[..j + 1])));
    }
  }
}
