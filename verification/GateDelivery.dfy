/**
 From the relay's JSON to the accepted head: exactly which deliveries pass, which grants count as
 revoked then, and that none of those is authorized.
 */
module GateDelivery {
  import opened Wrappers
  import opened Encodings
  import opened Decimals
  import opened Jcs
  import opened Capability
  import opened Service
  import opened AuthzState
  import opened Gate
  import opened GateChecks
  import opened GateMachine
  import GateRuns

  // ----- signed artifacts -------------------------------------------------------------

  function BodyOf(env: Json): Json
    requires env.Obj?
  {
    Get(env.members, "body")
  }

  /** A closed version-1 envelope of this type whose signature verifies under the user root. */
  predicate SignedAs(cfg: GateConfig, env: Json, kind: string)
  {
    && env.Obj? && env.members.Keys <= {"v", "type", "body", "sig"}
    && Get(env.members, "v") in {Num(1), Bool(true), Float(1.0)}
    && Get(env.members, "type") == Str(kind) && BodyOf(env).Obj?
    && Get(env.members, "sig").Str? && cfg.lib.fromHex(Get(env.members, "sig").s).Some?
    && SigningInput(kind, BodyOf(env)).Ok?
    && cfg.lib.verify(cfg.rootKey, SigningInput(kind, BodyOf(env)).value,
                      cfg.lib.fromHex(Get(env.members, "sig").s).value)
  }

  lemma SignedIff(cfg: GateConfig, env: Json, kind: string)
    requires kind != ""
    ensures SignedAs(cfg, env, kind) <==>
            ParseEnvelope(cfg.lib, env).Ok? && VerifyArtifact(cfg, kind, ParseEnvelope(cfg.lib, env).value).Passed?
    ensures SignedAs(cfg, env, kind) ==> ParseEnvelope(cfg.lib, env).value.body == BodyOf(env)
  {
    EnvelopeIff(cfg.lib, env);
  }

  // ----- lists of things that each name one grant -------------------------------------

  ghost predicate NamesOne<T(!new)>(names: (Json, T) -> bool, item: Json)
  {
    exists grant :: names(item, grant)
  }

  /** Some element names this grant. */
  ghost predicate NamedIn<T>(names: (Json, T) -> bool, items: seq<Json>, grant: T)
  {
    exists i :: 0 <= i < |items| && names(items[i], grant)
  }

  /** Every element names a grant, and these are the grants named. */
  ghost predicate NameExactly<T(!new)>(names: (Json, T) -> bool, items: seq<Json>, grants: set<T>)
  {
    && (forall i | 0 <= i < |items| :: NamesOne(names, items[i]))
    && (forall grant :: grant in grants <==> NamedIn(names, items, grant))
  }

  /** A loop that reads one grant from each element and stops at the first that has none. */
  function Collected<T(==)>(read: Json -> Option<T>, items: seq<Json>): Option<set<T>>
  {
    if items == [] then Some({})
    else
      var init :- Collected(read, items[..|items| - 1]);
      var last :- read(items[|items| - 1]);
      Some(init + {last})
  }

  /** `names` says what `read` reads. */
  ghost predicate ReadsWhatIsNamed<T(!new)>(read: Json -> Option<T>, names: (Json, T) -> bool)
  {
    forall item, grant :: names(item, grant) <==> read(item) == Some(grant)
  }

  lemma NamesOneIff<T(!new)>(read: Json -> Option<T>, names: (Json, T) -> bool, item: Json)
    requires ReadsWhatIsNamed(read, names)
    ensures NamesOne(names, item) <==> read(item).Some?
    ensures read(item).Some? ==> names(item, read(item).value)
  {
    if read(item).Some? {
      assert names(item, read(item).value);
    }
    if NamesOne(names, item) {
      var grant :| names(item, grant);
    }
  }

  lemma NamedByLast<T>(names: (Json, T) -> bool, items: seq<Json>, init: seq<Json>, grant: T)
    requires items != [] && init == items[..|items| - 1]
    ensures NamedIn(names, items, grant) <==> NamedIn(names, init, grant) || names(items[|init|], grant)
  {
    if i :| 0 <= i < |init| && names(init[i], grant) {
      assert names(items[i], grant);
    }
    if i :| 0 <= i < |items| && names(items[i], grant) {
      assert i < |init| ==> names(init[i], grant);
    }
  }

  lemma {:induction false} CollectedNames<T(!new)>(read: Json -> Option<T>, names: (Json, T) -> bool, items: seq<Json>)
    requires ReadsWhatIsNamed(read, names)
    ensures Collected(read, items).Some? <==> forall i | 0 <= i < |items| :: NamesOne(names, items[i])
    ensures Collected(read, items).Some? ==>
              forall grant :: grant in Collected(read, items).value <==> NamedIn(names, items, grant)
  {
    if items != [] {
      var init, last := items[..|items| - 1], items[|items| - 1];
      CollectedNames(read, names, init);
      NamesOneIff(read, names, last);
      assert forall i | 0 <= i < |init| :: items[i] == init[i];
      if Collected(read, items).Some? {
        forall grant ensures grant in Collected(read, items).value <==> NamedIn(names, items, grant) {
          NamedByLast(names, items, init, grant);
        }
      }
    }
  }

  /** The loop ends with exactly these grants when every element names a grant and these are the grants named. */
  lemma CollectedIff<T(!new)>(read: Json -> Option<T>, names: (Json, T) -> bool, items: seq<Json>, grants: set<T>)
    requires ReadsWhatIsNamed(read, names)
    ensures Collected(read, items) == Some(grants) <==> NameExactly(names, items, grants)
  {
    CollectedNames(read, names, items);
    if NameExactly(names, items, grants) {
      assert Collected(read, items).Some?;
      assert forall grant :: grant in grants <==> grant in Collected(read, items).value;
      assert grants == Collected(read, items).value;
    }
  }

  // ----- revocations ------------------------------------------------------------------

  predicate SaysRevocation(body: Json, grantId: string)
  {
    && body.Obj? && body.members.Keys == {"grant_id", "state_version"}
    && body.members["grant_id"] == Str(grantId) && MatchesGrantId(grantId)
    && body.members["state_version"].Str? && MatchesDecimal(body.members["state_version"].s)
  }

  lemma RevocationBodyIff(body: Json, grantId: string)
    ensures ParseRevocationBody(body) == Ok(grantId) <==> SaysRevocation(body, grantId)
  {
  }

  /** A revocation of this grant, signed by the user root. */
  predicate Revokes(cfg: GateConfig, env: Json, grantId: string)
  {
    SignedAs(cfg, env, "authz_revocation") && SaysRevocation(BodyOf(env), grantId)
  }

  lemma RevokesIff(cfg: GateConfig, env: Json, grantId: string)
    ensures VerifyRevocation(cfg, env) == Passed(grantId) <==> Revokes(cfg, env, grantId)
  {
    SignedIff(cfg, env, "authz_revocation");
    if SignedAs(cfg, env, "authz_revocation") {
      RevocationBodyIff(BodyOf(env), grantId);
    }
  }

  function RevokesOf(cfg: GateConfig): (Json, string) -> bool
  {
    (env, grantId) => Revokes(cfg, env, grantId)
  }

  function IfPassed<T>(r: Checked<T>): Option<T>
  {
    if r.Passed? then Some(r.value) else None
  }

  function RevocationRead(cfg: GateConfig): Json -> Option<string>
  {
    env => IfPassed(VerifyRevocation(cfg, env))
  }

  lemma {:induction false} RevocationsCollected(cfg: GateConfig, envs: seq<Json>)
    ensures IfPassed(VerifyRevocations(cfg, envs)) == Collected(RevocationRead(cfg), envs)
  {
    if envs != [] {
      RevocationsCollected(cfg, envs[..|envs| - 1]);
    }
  }

  lemma RevocationsAreRead(cfg: GateConfig)
    ensures ReadsWhatIsNamed(RevocationRead(cfg), RevokesOf(cfg))
  {
    forall env, id ensures RevokesOf(cfg)(env, id) <==> RevocationRead(cfg)(env) == Some(id) {
      RevokesIff(cfg, env, id);
    }
  }

  /** The revocations delivered pass exactly when each is signed, and the grants they name are then revoked. */
  lemma RevocationsIff(cfg: GateConfig, envs: seq<Json>, revoked: set<string>)
    ensures VerifyRevocations(cfg, envs) == Passed(revoked) <==> NameExactly(RevokesOf(cfg), envs, revoked)
  {
    RevocationsCollected(cfg, envs);
    RevocationsAreRead(cfg);
    CollectedIff(RevocationRead(cfg), RevokesOf(cfg), envs, revoked);
  }

  // ----- the head ---------------------------------------------------------------------

  predicate SaysEntry(entry: Json, ref: GrantRef)
  {
    && entry.Obj? && entry.members.Keys == {"grant_id", "grant_version"}
    && entry.members["grant_id"] == Str(ref.0) && MatchesGrantId(ref.0)
    && entry.members["grant_version"] == Str(ref.1) && MatchesDecimal(ref.1)
  }

  lemma EntryIff(entry: Json, ref: GrantRef)
    ensures ParseEntry(entry) == Ok(ref) <==> SaysEntry(entry, ref)
  {
  }

  function SaysEntryOf(): (Json, GrantRef) -> bool
  {
    (entry, ref) => SaysEntry(entry, ref)
  }

  function IfOk<T, E>(r: Result<T, E>): Option<T>
  {
    if r.Ok? then Some(r.value) else None
  }

  function EntryRead(): Json -> Option<GrantRef>
  {
    entry => IfOk(ParseEntry(entry))
  }

  lemma {:induction false} EntriesCollected(entries: seq<Json>)
    ensures IfOk(ParseEntries(entries)) == Collected(EntryRead(), entries)
  {
    if entries != [] {
      EntriesCollected(entries[..|entries| - 1]);
    }
  }

  lemma EntriesAreRead()
    ensures ReadsWhatIsNamed(EntryRead(), SaysEntryOf())
  {
    forall entry, ref ensures SaysEntryOf()(entry, ref) <==> EntryRead()(entry) == Some(ref) {
      EntryIff(entry, ref);
    }
  }

  lemma ListedIff(entries: seq<Json>, active: set<GrantRef>)
    ensures ParseEntries(entries) == Ok(active) <==> NameExactly(SaysEntryOf(), entries, active)
  {
    EntriesCollected(entries);
    EntriesAreRead();
    CollectedIff(EntryRead(), SaysEntryOf(), entries, active);
  }

  /** The body says this version and lists exactly these grants. */
  ghost predicate SaysHead(lib: Library, body: Json, content: HeadContent)
  {
    && body.Obj? && body.members.Keys == {"state_version", "active_grants"}
    && body.members["state_version"] == Str(content.stateVersion) && MatchesDecimal(content.stateVersion)
    && lib.intReads(content.stateVersion) && content.version == DecimalValue(content.stateVersion)
    && body.members["active_grants"].Arr?
    && NameExactly(SaysEntryOf(), body.members["active_grants"].items, content.active)
  }

  lemma HeadBodyIff(lib: Library, body: Json, content: HeadContent)
    ensures ParseHeadBody(lib, body) == Ok(content) <==> SaysHead(lib, body, content)
  {
    if body.Obj? && Get(body.members, "active_grants").Arr? {
      ListedIff(Get(body.members, "active_grants").items, content.active);
    }
  }

  // ----- the delivery -----------------------------------------------------------------

  /** The revocation artifacts delivered, none if the relay sends no list. */
  function RevocationsOf(env: Json): seq<Json>
    requires env.Obj?
  {
    if Get(env.members, "revocations").Arr? then Get(env.members, "revocations").items else []
  }

  function HeadOf(env: Json): Json
    requires env.Obj?
  {
    Get(env.members, "head")
  }

  /** A closed wrapper of an object and, if anything more, a list. */
  predicate IsDelivery(env: Json)
  {
    && env.Obj? && env.members.Keys <= {"head", "revocations"} && HeadOf(env).Obj?
    && ("revocations" in env.members ==> env.members["revocations"].Arr?)
  }

  lemma DeliveryIff(env: Json, head: Json, revocations: seq<Json>)
    ensures ParseSyncEnvelope(env) == Ok((head, revocations)) <==>
            IsDelivery(env) && head == HeadOf(env) && revocations == RevocationsOf(env)
  {
  }

  /**
   What the relay delivered is this head: signed by the user root as a head, its body saying this version
   and these grants, its digest that of the canonical body, and with it signed revocations of exactly
   the grants counted as revoked.
   */
  ghost predicate Delivers(cfg: GateConfig, env: Json, head: VerifiedHead)
  {
    && IsDelivery(env) && SignedAs(cfg, HeadOf(env), "authz_state")
    && SaysHead(cfg.lib, BodyOf(HeadOf(env)), head.content)
    && Canonicalize(BodyOf(HeadOf(env))).Ok?
    && head.digest == cfg.lib.sha256Hex(Canonicalize(BodyOf(HeadOf(env))).value)
    && NameExactly(RevokesOf(cfg), RevocationsOf(env), head.seenRevocations)
  }

  lemma VerifiedHeadIff(cfg: GateConfig, artifact: Artifact, content: HeadContent)
    ensures VerifyHead(cfg, artifact) == Passed(content) <==>
            VerifyArtifact(cfg, "authz_state", artifact).Passed? && SaysHead(cfg.lib, artifact.body, content)
  {
    HeadBodyIff(cfg.lib, artifact.body, content);
  }

  lemma JoinIff(content: Checked<HeadContent>, seen: Checked<set<string>>, digest: string, head: VerifiedHead)
    ensures JoinHead(content, seen, digest) == Passed(head) <==>
            content == Passed(head.content) && seen == Passed(head.seenRevocations) && digest == head.digest
  {
  }

  /** The head that comes out of an artifact and a list of revocations. */
  lemma AcceptHeadIff(cfg: GateConfig, artifact: Artifact, revocations: seq<Json>, head: VerifiedHead)
    ensures AcceptHead(cfg, artifact, revocations) == Passed(head) <==>
            && VerifyArtifact(cfg, "authz_state", artifact).Passed? && SaysHead(cfg.lib, artifact.body, head.content)
            && NameExactly(RevokesOf(cfg), revocations, head.seenRevocations)
            && head.digest == BodyDigest(cfg.lib, artifact.body)
  {
    JoinIff(VerifyHead(cfg, artifact), VerifyRevocations(cfg, revocations), BodyDigest(cfg.lib, artifact.body), head);
    VerifiedHeadIff(cfg, artifact, head.content);
    RevocationsIff(cfg, revocations, head.seenRevocations);
  }

  lemma UnwrapIff(lib: Library, env: Json)
    ensures Unwrap(lib, env).Ok? <==> IsDelivery(env) && ParseEnvelope(lib, HeadOf(env)).Ok?
    ensures Unwrap(lib, env).Ok? ==>
              Unwrap(lib, env).value == (ParseEnvelope(lib, HeadOf(env)).value, RevocationsOf(env))
  {
    if IsDelivery(env) {
      DeliveryIff(env, HeadOf(env), RevocationsOf(env));
    }
    if ParseSyncEnvelope(env).Ok? {
      DeliveryIff(env, ParseSyncEnvelope(env).value.0, ParseSyncEnvelope(env).value.1);
    }
  }

  /** A delivery passes with a head exactly when it delivers that head. */
  lemma AcceptedIff(cfg: GateConfig, env: Json, head: VerifiedHead)
    ensures AcceptEnvelope(cfg, env) == Passed(head) <==> Delivers(cfg, env, head)
  {
    UnwrapIff(cfg.lib, env);
    if IsDelivery(env) {
      SignedIff(cfg, HeadOf(env), "authz_state");
      if ParseEnvelope(cfg.lib, HeadOf(env)).Ok? {
        AcceptHeadIff(cfg, ParseEnvelope(cfg.lib, HeadOf(env)).value, RevocationsOf(env), head);
      }
    }
  }

  // ----- a delivered revocation denies ------------------------------------------------

  /** The delivery holds a revocation of this grant signed by the user root. */
  ghost predicate HoldsRevocation(cfg: GateConfig, env: Json, grantId: string)
  {
    env.Obj? && exists i :: 0 <= i < |RevocationsOf(env)| && Revokes(cfg, RevocationsOf(env)[i], grantId)
  }

  /** A head that comes out of such a delivery counts the grant as revoked. */
  lemma RevocationIsSeen(cfg: GateConfig, env: Json, grantId: string, head: VerifiedHead)
    requires HoldsRevocation(cfg, env, grantId) && AcceptEnvelope(cfg, env) == Passed(head)
    ensures grantId in head.seenRevocations
  {
    AcceptedIff(cfg, env, head);
    var i :| 0 <= i < |RevocationsOf(env)| && Revokes(cfg, RevocationsOf(env)[i], grantId);
    assert RevokesOf(cfg)(RevocationsOf(env)[i], grantId);
    assert NamedIn(RevokesOf(cfg), RevocationsOf(env), grantId);
  }

  /** What a call that took a delivery holding a revocation can be at. */
  ghost predicate Marked(call: GateCall, grantId: string)
  {
    !call.Syncing? &&
    (call.CheckingMark? || call.RaisingMark? || GateRuns.Accepted(call) ==> grantId in call.head.seenRevocations)
  }

  lemma StepStaysMarked(logic: GateLogic, call: GateCall, st: GateState, input: Input, grantId: string)
    requires Marked(call, grantId)
    ensures Marked(GateStep(logic, call, st, input).0, grantId)
  {
  }

  lemma OpenMarks(ctx: CallContext, checked: Checked<VerifiedHead>, grantId: string)
    requires checked.Passed? ==> grantId in checked.value.seenRevocations
    ensures Marked(AfterOpen(ctx, checked), grantId)
  {
  }

  lemma OpenedSees(cfg: GateConfig, env: Json, grantId: string)
    requires HoldsRevocation(cfg, env, grantId)
    ensures Opened(LogicOf(cfg), env).Passed? ==> grantId in Opened(LogicOf(cfg), env).value.seenRevocations
  {
    LogicOpens(cfg, env);
    if AcceptEnvelope(cfg, env).Passed? {
      RevocationIsSeen(cfg, env, grantId, AcceptEnvelope(cfg, env).value);
    }
  }

  lemma SyncStep(logic: GateLogic, ctx: CallContext, st: GateState, input: Input)
    requires input.relay.Delivered?
    ensures GateStep(logic, Syncing(ctx), st, input).0 == AfterOpen(ctx, Opened(logic, input.relay.env))
  {
  }

  lemma SyncMarks(cfg: GateConfig, ctx: CallContext, st: GateState, input: Input, grantId: string)
    requires input.relay.Delivered? && HoldsRevocation(cfg, input.relay.env, grantId)
    ensures Marked(GateStep(LogicOf(cfg), Syncing(ctx), st, input).0, grantId)
  {
    OpenedSees(cfg, input.relay.env, grantId);
    OpenMarks(ctx, Opened(LogicOf(cfg), input.relay.env), grantId);
    SyncStep(LogicOf(cfg), ctx, st, input);
  }

  lemma {:induction false} RunStaysMarked(logic: GateLogic, w: GateRuns.World, events: seq<GateRuns.Event>, id: nat,
                                          grantId: string)
    requires id in w.calls && Marked(w.calls[id], grantId)
    ensures var w' := GateRuns.Run(logic, w, events); id in w'.calls && Marked(w'.calls[id], grantId)
  {
    if events != [] {
      var before, e := GateRuns.Run(logic, w, events[..|events| - 1]), events[|events| - 1];
      RunStaysMarked(logic, w, events[..|events| - 1], id, grantId);
      if e.Advance? && e.id == id {
        StepStaysMarked(logic, before.calls[id], before.st, e.input, grantId);
      }
    }
  }

  /**
   A call to which the relay delivers a revocation signed by the user root, next to whatever head, never
   authorizes that grant at any version, whatever is interleaved.
   */
  lemma DeliveredRevocationDenies(cfg: GateConfig, w0: GateRuns.World, before: seq<GateRuns.Event>, id: nat,
                                  input: Input, after: seq<GateRuns.Event>, grantId: string)
    requires GateRuns.Initial(w0)
    requires var w := GateRuns.Run(LogicOf(cfg), w0, before); id in w.calls && w.calls[id].Syncing?
    requires input.relay.Delivered? && HoldsRevocation(cfg, input.relay.env, grantId)
    ensures var w := GateRuns.Run(LogicOf(cfg), w0, before);
            var w' := GateRuns.Run(LogicOf(cfg), GateRuns.Step(LogicOf(cfg), w, GateRuns.Advance(id, input)), after);
            id in w'.calls && (w'.calls[id].Authorized? ==> w'.calls[id].grant.grantId != grantId)
  {
    var logic := LogicOf(cfg);
    var w := GateRuns.Run(logic, w0, before);
    var w1 := GateRuns.Step(logic, w, GateRuns.Advance(id, input));
    LogicIsSound(cfg);
    GateRuns.ReachableInv(logic, w0, before);
    GateRuns.StepInv(logic, w, GateRuns.Advance(id, input));
    GateRuns.RunInv(logic, w1, after);
    SyncMarks(cfg, w.calls[id].ctx, w.st, input, grantId);
    RunStaysMarked(logic, w1, after, id, grantId);
    MarkedNeverAuthorizes(logic, GateRuns.Run(logic, w1, after), id, grantId);
  }

  lemma MarkedNeverAuthorizes(logic: GateLogic, w: GateRuns.World, id: nat, grantId: string)
    requires Sound(logic) && GateRuns.CallsJustified(logic, w) && id in w.calls && Marked(w.calls[id], grantId)
    ensures w.calls[id].Authorized? ==> w.calls[id].grant.grantId != grantId
  {
    assert GateRuns.Justified(logic, w.calls[id]);
    if w.calls[id].Authorized? {
      PassedIsActive(logic, w.calls[id]);
    }
  }

  lemma PassedIsActive(logic: GateLogic, call: GateCall)
    requires Sound(logic) && GateRuns.Justified(logic, call) && call.Authorized?
    ensures MembershipOf(call.head, call.grant.grantId, call.grant.grantVersion).Active?
  {
  }

  // ----- what the control plane publishes ---------------------------------------------

  /** An envelope as the signer writes it. */
  function Envelope(kind: string, body: Json, sig: string): Json
  {
    Obj(map["v" := Num(1), "type" := Str(kind), "body" := body, "sig" := Str(sig)])
  }

  function RevocationBody(grantId: string, stateVersion: string): Json
  {
    Obj(map["grant_id" := Str(grantId), "state_version" := Str(stateVersion)])
  }

  function Delivery(head: Json, revocations: seq<Json>): Json
  {
    Obj(map["head" := head, "revocations" := Arr(revocations)])
  }

  /** `sig` is a hex signature of the user root on this body. */
  predicate Signs(cfg: GateConfig, kind: string, body: Json, sig: string)
  {
    && cfg.lib.fromHex(sig).Some? && SigningInput(kind, body).Ok?
    && cfg.lib.verify(cfg.rootKey, SigningInput(kind, body).value, cfg.lib.fromHex(sig).value)
  }

  lemma EnvelopeFields(kind: string, body: Json, sig: string)
    ensures var m := Envelope(kind, body, sig).members;
            && m.Keys == {"v", "type", "body", "sig"} && Get(m, "v") == Num(1) && Get(m, "type") == Str(kind)
            && Get(m, "body") == body && Get(m, "sig") == Str(sig)
  {
  }

  lemma EnvelopeIsSigned(cfg: GateConfig, env: Json, kind: string, body: Json, sig: string)
    requires env == Envelope(kind, body, sig) && body.Obj? && Signs(cfg, kind, body, sig)
    ensures SignedAs(cfg, env, kind) && BodyOf(env) == body
  {
    EnvelopeFields(kind, body, sig);
  }

  /** A head the control plane can publish: its version and its entries are in the form the parser reads. */
  ghost predicate Publishable(lib: Library, cp: ControlPlane)
  {
    cp.version >= 0 && lib.intReads(Decimal(cp.version)) && forall ref | ref in ActiveRefs(cp) :: WellFormedRef(ref)
  }

  lemma DeliveryParts(head: Json, revocations: seq<Json>)
    requires head.Obj?
    ensures IsDelivery(Delivery(head, revocations)) && HeadOf(Delivery(head, revocations)) == head
    ensures RevocationsOf(Delivery(head, revocations)) == revocations
  {
    var m := Delivery(head, revocations).members;
    assert Get(m, "head") == head && Get(m, "revocations") == Arr(revocations);
  }

  /** A published head, signed and delivered with signed revocations, is accepted as the control plane meant it. */
  lemma PublishedIsAccepted(cfg: GateConfig, cp: ControlPlane, sig: string, revocations: seq<Json>,
                            revoked: set<string>)
    requires Publishable(cfg.lib, cp) && Signs(cfg, "authz_state", HeadBodyOf(cp), sig)
    requires NameExactly(RevokesOf(cfg), revocations, revoked)
    ensures AcceptEnvelope(cfg, Delivery(Envelope("authz_state", HeadBodyOf(cp), sig), revocations)) ==
            Passed(DeliveredHead(cp, BodyDigest(cfg.lib, HeadBodyOf(cp)), revoked))
  {
    var body := HeadBodyOf(cp);
    var env := Envelope("authz_state", body, sig);
    var head := DeliveredHead(cp, BodyDigest(cfg.lib, body), revoked);
    EnvelopeIsSigned(cfg, env, "authz_state", body, sig);
    DeliveryParts(env, revocations);
    HeadRoundTrip(cfg.lib, cp.version, ActiveRefs(cp));
    HeadBodyIff(cfg.lib, body, head.content);
    AcceptedIff(cfg, Delivery(env, revocations), head);
  }

  lemma OneNames<T(!new)>(names: (Json, T) -> bool, item: Json, grant: T)
    requires names(item, grant) && forall other | names(item, other) :: other == grant
    ensures NameExactly(names, [item], {grant})
  {
    assert [item][0] == item && NamesOne(names, item);
    forall other ensures NamedIn(names, [item], other) <==> other == grant {
    }
  }

  lemma OneRevocation(cfg: GateConfig, env: Json, grantId: string)
    requires Revokes(cfg, env, grantId)
    ensures NameExactly(RevokesOf(cfg), [env], {grantId})
  {
    assert RevokesOf(cfg)(env, grantId);
    forall other | RevokesOf(cfg)(env, other) ensures other == grantId {
      RevokesIff(cfg, env, other);
      RevokesIff(cfg, env, grantId);
    }
    OneNames(RevokesOf(cfg), env, grantId);
  }

  lemma RevocationBodySays(grantId: string, version: int)
    requires MatchesGrantId(grantId) && version >= 0
    ensures SaysRevocation(RevocationBody(grantId, Decimal(version)), grantId)
  {
    DecimalMatches(version);
  }

  /** The revocation artifact of the control plane, signed by the user root, revokes the grant. */
  lemma SignedRevocationRevokes(cfg: GateConfig, env: Json, body: Json, grantId: string, sig: string)
    requires env == Envelope("authz_revocation", body, sig) && SaysRevocation(body, grantId)
    requires Signs(cfg, "authz_revocation", body, sig)
    ensures Revokes(cfg, env, grantId)
  {
    EnvelopeIsSigned(cfg, env, "authz_revocation", body, sig);
  }

  /** The control plane after adding, revoking and superseding one grant. */
  function Superseded(grantId: string, grantVersion: string, newVersion: int): ControlPlane
  {
    Run(ControlPlane(map[], 0, map[]), [Add(grantId, grantVersion), Revoke(grantId), Supersede(grantId, newVersion)])
  }

  lemma SupersededRevocation(grantId: string, grantVersion: string, newVersion: int)
    ensures Superseded(grantId, grantVersion, newVersion).revocations == map[grantId := 2]
  {
    var start, added := ControlPlane(map[], 0, map[]), [Add(grantId, grantVersion)];
    var revoked := added + [Revoke(grantId)];
    assert added[..0] == [] && Run(start, added) == Apply(start, added[0]);
    assert revoked[..1] == added && Run(start, revoked) == Apply(Run(start, added), revoked[1]);
    assert [Add(grantId, grantVersion), Revoke(grantId), Supersede(grantId, newVersion)][..2] == revoked;
  }

  /**
   The same head, as the control plane signed it after adding, revoking and superseding a grant: with the
   revocation it signed beside it the gate counts the grant revoked, and without it active.
   */
  lemma DroppedRevocationAdmits(cfg: GateConfig, grantId: string, grantVersion: string, newVersion: int, headSig: string,
                                revocationSig: string)
    requires var cp := Superseded(grantId, grantVersion, newVersion);
             Publishable(cfg.lib, cp) && Signs(cfg, "authz_state", HeadBodyOf(cp), headSig)
    requires MatchesGrantId(grantId)
    requires Signs(cfg, "authz_revocation", RevocationBody(grantId, "2"), revocationSig)
    ensures var cp := Superseded(grantId, grantVersion, newVersion);
            var head := Envelope("authz_state", HeadBodyOf(cp), headSig);
            var revocation := Envelope("authz_revocation", RevocationBody(grantId, "2"), revocationSig);
            var kept := AcceptEnvelope(cfg, Delivery(head, [revocation]));
            var dropped := AcceptEnvelope(cfg, Delivery(head, []));
            && kept.Passed? && MembershipOf(kept.value, grantId, Decimal(newVersion)).Revoked?
            && dropped.Passed? && MembershipOf(dropped.value, grantId, Decimal(newVersion)).Active?
  {
    var cp := Superseded(grantId, grantVersion, newVersion);
    var revocation := Envelope("authz_revocation", RevocationBody(grantId, "2"), revocationSig);
    SupersededRevocation(grantId, grantVersion, newVersion);
    assert Decimal(2) == "2";
    RevocationBodySays(grantId, 2);
    SignedRevocationRevokes(cfg, revocation, RevocationBody(grantId, "2"), grantId, revocationSig);
    OneRevocation(cfg, revocation, grantId);
    PublishedIsAccepted(cfg, cp, headSig, [revocation], {grantId});
    RevocationsIff(cfg, [], {});
    PublishedIsAccepted(cfg, cp, headSig, [], {});
    SupersedeRelistsRevoked(grantId, grantVersion, newVersion, BodyDigest(cfg.lib, HeadBodyOf(cp)));
  }
}
