/** The authoritative head of authz/state.py: its body, its parser, and the control plane that advances it. */
module AuthzState {
  import opened Wrappers
  import opened Encodings
  import opened Ordering
  import opened Decimals
  import opened Jcs
  import opened JcsParser
  import opened Capability

  type GrantRef = (string, string)

  const HEAD_ARTIFACT_TYPE := "authz_state"
  const REVOCATION_ARTIFACT_TYPE := "authz_revocation"

  // ----- the order of head entries ----------------------------------------------------

  function Codes(s: string): (r: seq<int>)
    ensures |r| == |s| && forall i | 0 <= i < |s| :: r[i] == s[i] as int
  {
    seq(|s|, i requires 0 <= i < |s| => s[i] as int)
  }

  /** Python's order on `str`, by code point. */
  predicate StrLess(a: string, b: string)
  {
    LexLess(Codes(a), Codes(b))
  }

  /** Python's order on pairs of `str`. */
  predicate RefLess(p: GrantRef, q: GrantRef)
  {
    StrLess(p.0, q.0) || (p.0 == q.0 && StrLess(p.1, q.1))
  }

  lemma StrTotal(a: string, b: string)
    ensures a == b || StrLess(a, b) || StrLess(b, a)
  {
    LexTotal(Codes(a), Codes(b));
    if Codes(a) == Codes(b) {
      assert forall i | 0 <= i < |a| :: a[i] as int == Codes(b)[i];
    }
  }

  lemma RefTransitive(p: GrantRef, q: GrantRef, r: GrantRef)
    requires RefLess(p, q) && RefLess(q, r)
    ensures RefLess(p, r)
  {
    if StrLess(p.0, q.0) && StrLess(q.0, r.0) {
      LexTransitive(Codes(p.0), Codes(q.0), Codes(r.0));
    } else if p.0 == q.0 && q.0 == r.0 {
      if StrLess(p.1, q.1) && StrLess(q.1, r.1) {
        LexTransitive(Codes(p.1), Codes(q.1), Codes(r.1));
      } else {
        LexIrreflexive(Codes(p.0));
      }
    }
  }

  lemma RefOrderStrictTotal()
    ensures StrictTotal(RefLess)
  {
    forall p ensures !RefLess(p, p) {
      LexIrreflexive(Codes(p.0));
      LexIrreflexive(Codes(p.1));
    }
    forall p, q, r | RefLess(p, q) && RefLess(q, r) ensures RefLess(p, r) {
      RefTransitive(p, q, r);
    }
    forall p, q ensures p == q || RefLess(p, q) || RefLess(q, p) {
      StrTotal(p.0, q.0);
      StrTotal(p.1, q.1);
    }
  }

  // ----- head body and parser ---------------------------------------------------------

  function Entry(ref: GrantRef): Json
  {
    Obj(map["grant_id" := Str(ref.0), "grant_version" := Str(ref.1)])
  }

  function Entries(refs: seq<GrantRef>): (r: seq<Json>)
    ensures |r| == |refs| && forall i | 0 <= i < |refs| :: r[i] == Entry(refs[i])
  {
    seq(|refs|, i requires 0 <= i < |refs| => Entry(refs[i]))
  }

  /** `head_body`: the entries are emitted sorted, without repetition. */
  function HeadBody(stateVersion: string, active: set<GrantRef>): Json
  {
    RefOrderStrictTotal();
    Obj(map["state_version" := Str(stateVersion), "active_grants" := Arr(Entries(Enumerate(RefLess, active)))])
  }

  function ParseEntry(entry: Json): Result<GrantRef, CertificateError>
  {
    var _ :- Check(entry.Obj? && entry.members.Keys == {"grant_id", "grant_version"}, MALFORMED);
    var id, version := entry.members["grant_id"], entry.members["grant_version"];
    var _ :- Check(id.Str? && MatchesGrantId(id.s), MALFORMED);
    var _ :- Check(version.Str? && MatchesDecimal(version.s), MALFORMED);
    Ok((id.s, version.s))
  }

  function ParseEntries(entries: seq<Json>): Result<set<GrantRef>, CertificateError>
  {
    if entries == [] then Ok({})
    else
      var rest :- ParseEntries(entries[..|entries| - 1]);
      var last :- ParseEntry(entries[|entries| - 1]);
      Ok(rest + {last})
  }

  /** The entry loop of `parse_head_body`. */
  method CollectEntries(entries: seq<Json>) returns (r: Result<set<GrantRef>, CertificateError>)
    ensures r == ParseEntries(entries)
  {
    var pairs: set<GrantRef> := {};
    for i := 0 to |entries|
      invariant ParseEntries(entries[..i]) == Ok(pairs)
    {
      var entry := ParseEntry(entries[i]);
      assert entries[..i + 1][..i] == entries[..i];
      if entry.Err? {
        PrefixFails(entries, i + 1);
        return Err(entry.error);
      }
      pairs := pairs + {entry.value};
    }
    assert entries[..|entries|] == entries;
    r := Ok(pairs);
  }

  lemma {:induction false} PrefixFails(entries: seq<Json>, n: nat)
    requires n <= |entries| && ParseEntries(entries[..n]).Err?
    ensures ParseEntries(entries) == ParseEntries(entries[..n])
    decreases |entries| - n
  {
    if n == |entries| {
      assert entries[..n] == entries;
    } else {
      assert entries[..n + 1][..n] == entries[..n];
      PrefixFails(entries, n + 1);
    }
  }

  datatype HeadContent = HeadContent(stateVersion: string, version: int, active: set<GrantRef>)

  function ParseHeadBody(lib: Library, body: Json): Result<HeadContent, CertificateError>
  {
    var _ :- Check(body.Obj? && body.members.Keys <= {"state_version", "active_grants"}, MALFORMED);
    var version, active := Get(body.members, "state_version"), Get(body.members, "active_grants");
    var _ :- Check(version.Str? && MatchesDecimal(version.s), MALFORMED);
    var _ :- Check(active.Arr?, MALFORMED);
    var refs :- ParseEntries(active.items);
    var _ :- Check(lib.intReads(version.s), NumeralTooLong);
    Ok(HeadContent(version.s, DecimalValue(version.s), refs))
  }

  function ParseRevocationBody(body: Json): Result<string, CertificateError>
  {
    var _ :- Check(body.Obj? && body.members.Keys == {"grant_id", "state_version"}, MALFORMED);
    var id, version := body.members["grant_id"], body.members["state_version"];
    var _ :- Check(id.Str? && MatchesGrantId(id.s), MALFORMED);
    var _ :- Check(version.Str? && MatchesDecimal(version.s), MALFORMED);
    Ok(id.s)
  }

  function ParseSyncEnvelope(env: Json): Result<(Json, seq<Json>), CertificateError>
  {
    var _ :- Check(env.Obj? && env.members.Keys <= {"head", "revocations"}, MALFORMED);
    var _ :- Check(Get(env.members, "head").Obj?, MALFORMED);
    var revocations := if "revocations" in env.members then env.members["revocations"] else Arr([]);
    var _ :- Check(revocations.Arr?, MALFORMED);
    Ok((env.members["head"], revocations.items))
  }

  // ----- round trip -------------------------------------------------------------------

  ghost predicate WellFormedRef(ref: GrantRef)
  {
    MatchesGrantId(ref.0) && MatchesDecimal(ref.1)
  }

  lemma ParseEntryOf(ref: GrantRef)
    ensures ParseEntry(Entry(ref)) == if WellFormedRef(ref) then Ok(ref) else Err(MALFORMED)
  {
    assert Entry(ref).members.Keys == {"grant_id", "grant_version"};
  }

  lemma {:induction false} ParseEntriesOf(refs: seq<GrantRef>)
    ensures ParseEntries(Entries(refs)).Ok? <==> forall ref | ref in refs :: WellFormedRef(ref)
    ensures ParseEntries(Entries(refs)).Ok? ==> ParseEntries(Entries(refs)).value == set ref | ref in refs
  {
    if refs != [] {
      var front, last := refs[..|refs| - 1], refs[|refs| - 1];
      assert refs == front + [last];
      ParseEntriesOf(front);
      ParseEntryOf(last);
      assert Entries(refs)[..|refs| - 1] == Entries(front);
    }
  }

  lemma DecimalMatches(n: int)
    ensures MatchesDecimal(Decimal(n)) <==> n >= 0
    ensures n >= 0 ==> DecimalValue(Decimal(n)) == n
  {
    if n >= 0 {
      DigitsAreCanonical(n);
      DigitsRoundTrip(n);
      assert DropNewline(Digits(n)) == Digits(n);
    } else {
      assert Decimal(n)[0] == '-';
    }
  }

  lemma HeadBodyFields(stateVersion: string, active: set<GrantRef>)
    ensures var m := HeadBody(stateVersion, active).members;
            && m.Keys == {"state_version", "active_grants"}
            && StrictTotal(RefLess)
            && Get(m, "state_version") == Str(stateVersion)
            && Get(m, "active_grants") == Arr(Entries(Enumerate(RefLess, active)))
  {
    RefOrderStrictTotal();
  }

  /** What the parser makes of a body with these two fields. */
  lemma HeadFromFields(lib: Library, body: Json, version: string, entries: seq<Json>)
    requires body.Obj? && body.members.Keys == {"state_version", "active_grants"}
    requires Get(body.members, "state_version") == Str(version) && Get(body.members, "active_grants") == Arr(entries)
    ensures var parsed := ParseHeadBody(lib, body);
            && (parsed.Ok? <==> MatchesDecimal(version) && lib.intReads(version) && ParseEntries(entries).Ok?)
            && (parsed.Ok? ==> parsed.value == HeadContent(version, DecimalValue(version), ParseEntries(entries).value))
  {
  }

  /** A head body parses back to its version and active set, exactly when both are in canonical form. */
  lemma HeadRoundTrip(lib: Library, version: int, active: set<GrantRef>)
    ensures var parsed := ParseHeadBody(lib, HeadBody(Decimal(version), active));
            && (parsed.Ok? <==> version >= 0 && lib.intReads(Decimal(version)) &&
                                forall ref | ref in active :: WellFormedRef(ref))
            && (parsed.Ok? ==> parsed.value == HeadContent(Decimal(version), version, active))
  {
    HeadBodyFields(Decimal(version), active);
    DecimalMatches(version);
    var refs := Enumerate(RefLess, active);
    HeadFromFields(lib, HeadBody(Decimal(version), active), Decimal(version), Entries(refs));
    ParseEntriesOf(refs);
    assert (set ref | ref in refs) == active;
  }

  lemma EntryInjective(p: GrantRef, q: GrantRef)
    requires Entry(p) == Entry(q)
    ensures p == q
  {
    assert Entry(p).members["grant_id"] == Entry(q).members["grant_id"];
    assert Entry(p).members["grant_version"] == Entry(q).members["grant_version"];
  }

  lemma EntriesInjective(s: seq<GrantRef>, t: seq<GrantRef>)
    requires Entries(s) == Entries(t)
    ensures s == t
  {
    forall i | 0 <= i < |s| ensures s[i] == t[i] {
      assert Entries(s)[i] == Entries(t)[i];
      EntryInjective(s[i], t[i]);
    }
  }

  lemma HeadBodyInjective(v: string, active: set<GrantRef>, v': string, active': set<GrantRef>)
    requires HeadBody(v, active) == HeadBody(v', active')
    ensures v == v' && active == active'
  {
    HeadBodyFields(v, active);
    HeadBodyFields(v', active');
    EntriesInjective(Enumerate(RefLess, active), Enumerate(RefLess, active'));
    forall ref ensures ref in active <==> ref in active' {
      assert ref in Enumerate(RefLess, active) <==> ref in Enumerate(RefLess, active');
    }
  }

  // ----- membership -------------------------------------------------------------------

  datatype VerifiedHead = VerifiedHead(content: HeadContent, digest: string, seenRevocations: set<string>)

  datatype Membership = Active | Superseded | Revoked | NoGrant

  /** Some version of the grant is listed. */
  predicate Lists(active: set<GrantRef>, grantId: string)
    ensures Lists(active, grantId) <==> exists version :: (grantId, version) in active
  {
    var listed := exists ref | ref in active :: ref.0 == grantId;
    assert listed ==> exists version :: (grantId, version) in active by {
      if listed {
        var ref :| ref in active && ref.0 == grantId;
        assert (grantId, ref.1) in active;
      }
    }
    listed
  }

  function MembershipOf(head: VerifiedHead, grantId: string, grantVersion: string): (m: Membership)
    ensures m.Active? <==> (grantId, grantVersion) in head.content.active && grantId !in head.seenRevocations
    ensures m.Revoked? <==> grantId in head.seenRevocations
    ensures m.Superseded? <==>
            && grantId !in head.seenRevocations && (grantId, grantVersion) !in head.content.active
            && exists version :: (grantId, version) in head.content.active
  {
    if grantId in head.seenRevocations then Revoked
    else if (grantId, grantVersion) in head.content.active then Active
    else if Lists(head.content.active, grantId) then Superseded
    else NoGrant
  }

  // ----- the control plane ------------------------------------------------------------

  datatype ControlPlane = ControlPlane(active: map<string, string>, version: int, revocations: map<string, int>)

  datatype ControlOp =
    | Revoke(grantId: string)
    | Supersede(grantId: string, newVersion: int)
    | Add(grantId: string, grantVersion: string)

  function Apply(cp: ControlPlane, op: ControlOp): ControlPlane
  {
    var version := cp.version + 1;
    match op
    case Revoke(id) => ControlPlane(cp.active - {id}, version, cp.revocations[id := version])
    case Supersede(id, v) => ControlPlane(cp.active[id := Decimal(v)], version, cp.revocations)
    case Add(id, v) => ControlPlane(cp.active[id := v], version, cp.revocations - {id})
  }

  function Run(cp: ControlPlane, ops: seq<ControlOp>): (r: ControlPlane)
    ensures r.version == cp.version + |ops|
  {
    if ops == [] then cp else Apply(Run(cp, ops[..|ops| - 1]), ops[|ops| - 1])
  }

  function ActiveRefs(cp: ControlPlane): set<GrantRef>
  {
    set id | id in cp.active :: (id, cp.active[id])
  }

  function HeadBodyOf(cp: ControlPlane): Json
  {
    HeadBody(Decimal(cp.version), ActiveRefs(cp))
  }

  /** The control plane as the source holds it. */
  class HeadState {
    var active: map<string, string>
    var version: int
    var revocations: map<string, int>

    function View(): ControlPlane
      reads this
    {
      ControlPlane(active, version, revocations)
    }

    constructor (activeGrants: map<string, string>, stateVersion: int)
      ensures View() == ControlPlane(activeGrants, stateVersion, map[])
    {
      active, version, revocations := activeGrants, stateVersion, map[];
    }

    method RevokeGrant(grantId: string)
      modifies this
      ensures View() == Apply(old(View()), Revoke(grantId))
      ensures active == old(active) - {grantId} && version == old(version) + 1
      ensures revocations == old(revocations)[grantId := version]
    {
      active := active - {grantId};
      version := version + 1;
      revocations := revocations[grantId := version];
    }

    method SupersedeGrant(grantId: string, newVersion: int)
      modifies this
      ensures View() == Apply(old(View()), Supersede(grantId, newVersion))
      ensures active == old(active)[grantId := Decimal(newVersion)] && version == old(version) + 1
      ensures revocations == old(revocations)
    {
      active := active[grantId := Decimal(newVersion)];
      version := version + 1;
    }

    method AddGrant(grantId: string, grantVersion: string)
      modifies this
      ensures View() == Apply(old(View()), Add(grantId, grantVersion))
      ensures active == old(active)[grantId := grantVersion] && version == old(version) + 1
      ensures revocations == old(revocations) - {grantId}
    {
      active := active[grantId := grantVersion];
      version := version + 1;
      revocations := revocations - {grantId};
    }

    /** The bytes `signed_head` signs. */
    method HeadSigningInput() returns (r: Result<Bytes, JcsError>)
      ensures r == SigningInput(HEAD_ARTIFACT_TYPE, HeadBodyOf(View()))
    {
      var refs := set id | id in active :: (id, active[id]);
      r := SigningInput(HEAD_ARTIFACT_TYPE, HeadBody(Decimal(version), refs));
    }
  }

  lemma ActiveRefsInjective(a: ControlPlane, b: ControlPlane)
    requires ActiveRefs(a) == ActiveRefs(b)
    ensures a.active == b.active
  {
    forall id ensures id in a.active <==> id in b.active {
      if id in a.active { assert (id, a.active[id]) in ActiveRefs(b); }
      if id in b.active { assert (id, b.active[id]) in ActiveRefs(a); }
    }
    forall id | id in a.active ensures a.active[id] == b.active[id] {
      assert (id, a.active[id]) in ActiveRefs(b);
    }
  }

  /** A head digest preimage pins one version and one membership relation. */
  lemma HeadBytesPinMembership(a: ControlPlane, b: ControlPlane)
    requires Canonicalize(HeadBodyOf(a)).Ok? && Canonicalize(HeadBodyOf(a)) == Canonicalize(HeadBodyOf(b))
    ensures a.version == b.version && a.active == b.active
  {
    CanonicalInjective(HeadBodyOf(a), HeadBodyOf(b));
    HeadBodyInjective(Decimal(a.version), ActiveRefs(a), Decimal(b.version), ActiveRefs(b));
    DecimalInjective(a.version, b.version);
    ActiveRefsInjective(a, b);
  }

  ghost predicate Relists(op: ControlOp, grantId: string)
  {
    !op.Revoke? && op.grantId == grantId
  }

  // ----- how long a revocation lasts --------------------------------------------------

  /** Operation `j` lists the grant, and no later one before `k` revokes it. */
  ghost predicate ListedFrom(ops: seq<ControlOp>, j: nat, k: nat, grantId: string)
  {
    j < k <= |ops| && Relists(ops[j], grantId) && forall m | j < m < k :: ops[m] != Revoke(grantId)
  }

  lemma ListedStep(ops: seq<ControlOp>, i: nat, k: nat, n: nat, grantId: string)
    requires i < k < |ops| && n == k + 1
    ensures (exists j :: i < j && ListedFrom(ops, j, n, grantId)) <==>
            Relists(ops[k], grantId) ||
            (ops[k] != Revoke(grantId) && exists j :: i < j && ListedFrom(ops, j, k, grantId))
  {
    if j :| i < j && ListedFrom(ops, j, n, grantId) {
      assert j < k ==> ListedFrom(ops, j, k, grantId);
    }
    if Relists(ops[k], grantId) {
      assert ListedFrom(ops, k, n, grantId);
    } else if ops[k] != Revoke(grantId) {
      if j :| i < j && ListedFrom(ops, j, k, grantId) {
        assert ListedFrom(ops, j, n, grantId);
      }
    }
  }

  /**
   The exact duration of a revocation: after it, a head lists the grant exactly when some later
   operation has listed it and none since has revoked it again.
   */
  lemma {:induction false} RevokedUntilRelisted(cp: ControlPlane, ops: seq<ControlOp>, i: nat, k: nat, grantId: string)
    requires i < k <= |ops| && ops[i] == Revoke(grantId)
    ensures grantId in Run(cp, ops[..k]).active <==> exists j :: i < j && ListedFrom(ops, j, k, grantId)
  {
    assert ops[..k][..k - 1] == ops[..k - 1];
    if k > i + 1 {
      RevokedUntilRelisted(cp, ops, i, k - 1, grantId);
      ListedStep(ops, i, k - 1, k, grantId);
    }
  }

  /** The version an operation lists. */
  function ListedVersion(op: ControlOp): string
    requires !op.Revoke?
  {
    match op
    case Supersede(_, v) => Decimal(v)
    case Add(_, v) => v
  }

  /** Operation `j` lists this very grant version, and no later one before `k` touches the grant. */
  ghost predicate ListedAs(ops: seq<ControlOp>, j: nat, k: nat, ref: GrantRef)
  {
    j < k <= |ops| && Relists(ops[j], ref.0) && ListedVersion(ops[j]) == ref.1 &&
    forall m | j < m < k :: ops[m].grantId != ref.0
  }

  lemma ListedAsStep(ops: seq<ControlOp>, i: nat, k: nat, n: nat, ref: GrantRef)
    requires i < k < |ops| && n == k + 1
    ensures (exists j :: i < j && ListedAs(ops, j, n, ref)) <==>
            if ops[k].grantId == ref.0 then Relists(ops[k], ref.0) && ListedVersion(ops[k]) == ref.1
            else exists j :: i < j && ListedAs(ops, j, k, ref)
  {
    if j :| i < j && ListedAs(ops, j, n, ref) {
      assert j < k ==> ListedAs(ops, j, k, ref);
    }
    if ops[k].grantId == ref.0 {
      assert Relists(ops[k], ref.0) && ListedVersion(ops[k]) == ref.1 ==> ListedAs(ops, k, n, ref);
    } else if j :| i < j && ListedAs(ops, j, k, ref) {
      assert ListedAs(ops, j, n, ref);
    }
  }

  /** Which version a head after a revocation lists: the one listed last, if nothing has touched the grant since. */
  lemma {:induction false} VersionAfterRevocation(cp: ControlPlane, ops: seq<ControlOp>, i: nat, k: nat, ref: GrantRef)
    requires i < k <= |ops| && ops[i] == Revoke(ref.0)
    ensures ref in ActiveRefs(Run(cp, ops[..k])) <==> exists j :: i < j && ListedAs(ops, j, k, ref)
  {
    var at := Run(cp, ops[..k]);
    assert ref in ActiveRefs(at) <==> ref.0 in at.active && at.active[ref.0] == ref.1;
    assert ops[..k][..k - 1] == ops[..k - 1];
    if k > i + 1 {
      var before := Run(cp, ops[..k - 1]);
      assert ref in ActiveRefs(before) <==> ref.0 in before.active && before.active[ref.0] == ref.1;
      VersionAfterRevocation(cp, ops, i, k - 1, ref);
      ListedAsStep(ops, i, k - 1, k, ref);
    }
  }

  /** Operation `j` adds the grant, which lifts its revocation, and no later one before `k` revokes it. */
  ghost predicate LiftedFrom(ops: seq<ControlOp>, j: nat, k: nat, grantId: string)
  {
    ListedFrom(ops, j, k, grantId) && ops[j].Add?
  }

  lemma LiftedStep(ops: seq<ControlOp>, i: nat, k: nat, n: nat, grantId: string)
    requires i < k < |ops| && n == k + 1
    ensures (exists j :: i < j && LiftedFrom(ops, j, n, grantId)) <==>
            (ops[k].Add? && ops[k].grantId == grantId) ||
            (ops[k] != Revoke(grantId) && exists j :: i < j && LiftedFrom(ops, j, k, grantId))
  {
    if j :| i < j && LiftedFrom(ops, j, n, grantId) {
      assert j < k ==> LiftedFrom(ops, j, k, grantId);
    }
    if ops[k].Add? && ops[k].grantId == grantId {
      assert LiftedFrom(ops, k, n, grantId);
    } else if ops[k] != Revoke(grantId) {
      if j :| i < j && LiftedFrom(ops, j, k, grantId) {
        assert LiftedFrom(ops, j, n, grantId);
      }
    }
  }

  /** The revocation artifact itself stands exactly until an `Add`; a `Supersede` does not lift it. */
  lemma {:induction false} RevocationStandsUntilAdded(cp: ControlPlane, ops: seq<ControlOp>, i: nat, k: nat, grantId: string)
    requires i < k <= |ops| && ops[i] == Revoke(grantId)
    ensures grantId in Run(cp, ops[..k]).revocations <==> !exists j :: i < j && LiftedFrom(ops, j, k, grantId)
  {
    assert ops[..k][..k - 1] == ops[..k - 1];
    if k > i + 1 {
      RevocationStandsUntilAdded(cp, ops, i, k - 1, grantId);
      LiftedStep(ops, i, k - 1, k, grantId);
    }
  }

  /** The head of a control plane, as a relay delivers it with these revocation artifacts. */
  function DeliveredHead(cp: ControlPlane, digest: string, seen: set<string>): VerifiedHead
  {
    VerifiedHead(HeadContent(Decimal(cp.version), cp.version, ActiveRefs(cp)), digest, seen)
  }

  /**
   What a revocation is worth at a later head. Delivered without its artifact, the grant is active exactly
   when it was listed last at this version; delivered with every artifact, it must also have been added since.
   */
  lemma ActiveAfterRevocationIff(cp: ControlPlane, ops: seq<ControlOp>, i: nat, k: nat, ref: GrantRef, digest: string)
    requires i < k <= |ops| && ops[i] == Revoke(ref.0)
    ensures var at := Run(cp, ops[..k]);
            var listed := exists j :: i < j && ListedAs(ops, j, k, ref);
            var lifted := exists j :: i < j && LiftedFrom(ops, j, k, ref.0);
            && (MembershipOf(DeliveredHead(at, digest, {}), ref.0, ref.1).Active? <==> listed)
            && (MembershipOf(DeliveredHead(at, digest, at.revocations.Keys), ref.0, ref.1).Active? <==> listed && lifted)
  {
    VersionAfterRevocation(cp, ops, i, k, ref);
    RevocationStandsUntilAdded(cp, ops, i, k, ref.0);
  }

  /**
   A run that undoes a revocation: added, revoked and superseded, the grant is denied by its standing
   revocation artifact and admitted by a head delivered without it.
   */
  lemma SupersedeRelistsRevoked(grantId: string, grantVersion: string, newVersion: int, digest: string)
    ensures var at := Run(ControlPlane(map[], 0, map[]),
                          [Add(grantId, grantVersion), Revoke(grantId), Supersede(grantId, newVersion)]);
            && MembershipOf(DeliveredHead(at, digest, at.revocations.Keys), grantId, Decimal(newVersion)).Revoked?
            && MembershipOf(DeliveredHead(at, digest, {}), grantId, Decimal(newVersion)).Active?
  {
    var ops := [Add(grantId, grantVersion), Revoke(grantId), Supersede(grantId, newVersion)];
    assert ops[..3] == ops;
    assert ListedAs(ops, 2, 3, (grantId, Decimal(newVersion)));
    ActiveAfterRevocationIff(ControlPlane(map[], 0, map[]), ops, 1, 3, (grantId, Decimal(newVersion)), digest);
    RevocationStandsUntilAdded(ControlPlane(map[], 0, map[]), ops, 1, 3, grantId);
  }

  // ----- what the user root signs -----------------------------------------------------

  /** Everything ever signed by the user root: the heads of one control plane, and artifacts of other types. */
  ghost predicate SignedByRoot(message: Bytes, cp: ControlPlane, ops: seq<ControlOp>)
  {
    || (exists k :: 0 <= k <= |ops| && Ok(message) == SigningInput(HEAD_ARTIFACT_TYPE, HeadBodyOf(Run(cp, ops[..k]))))
    || (exists t: string, body: Json :: t != HEAD_ARTIFACT_TYPE && Ok(message) == SigningInput(t, body))
  }

  /** Ideal signatures: whatever verifies was signed. */
  ghost predicate Unforgeable(lib: Library, root: PublicKey, cp: ControlPlane, ops: seq<ControlOp>)
  {
    forall message, sig :: lib.verify(root, message, sig) ==> SignedByRoot(message, cp, ops)
  }

  /** The active set at a version, if the control plane ever published it. */
  ghost predicate PublishedActive(cp: ControlPlane, ops: seq<ControlOp>, version: int, active: set<GrantRef>)
  {
    cp.version <= version <= cp.version + |ops| && active == ActiveRefs(Run(cp, ops[..version - cp.version]))
  }

  lemma PublishedBody(lib: Library, cp: ControlPlane, ops: seq<ControlOp>, k: nat, body: Json)
    requires k <= |ops| && body == HeadBodyOf(Run(cp, ops[..k])) && ParseHeadBody(lib, body).Ok?
    ensures PublishedActive(cp, ops, ParseHeadBody(lib, body).value.version, ParseHeadBody(lib, body).value.active)
  {
    var at := Run(cp, ops[..k]);
    HeadRoundTrip(lib, at.version, ActiveRefs(at));
    assert at.version - cp.version == k;
  }

  lemma SignedHeadIsPublished(cp: ControlPlane, ops: seq<ControlOp>, body: Json, message: Bytes) returns (k: nat)
    requires SignedByRoot(message, cp, ops)
    requires SigningInput(HEAD_ARTIFACT_TYPE, body) == Ok(message)
    ensures k <= |ops| && body == HeadBodyOf(Run(cp, ops[..k]))
  {
    if j :| 0 <= j <= |ops| && Ok(message) == SigningInput(HEAD_ARTIFACT_TYPE, HeadBodyOf(Run(cp, ops[..j]))) {
      k := j;
      SigningInputInjective(HEAD_ARTIFACT_TYPE, body, HEAD_ARTIFACT_TYPE, HeadBodyOf(Run(cp, ops[..k])));
    } else {
      var t: string, other: Json :| t != HEAD_ARTIFACT_TYPE && Ok(message) == SigningInput(t, other);
      SigningInputInjective(HEAD_ARTIFACT_TYPE, body, t, other);
      assert false;
    }
  }

  /** A verified head body is a published one: no artifact of another type stands in for it. */
  lemma VerifiedHeadIsPublished(lib: Library, root: PublicKey, cp: ControlPlane, ops: seq<ControlOp>,
                                body: Json, message: Bytes, sig: Bytes)
    requires Unforgeable(lib, root, cp, ops)
    requires SigningInput(HEAD_ARTIFACT_TYPE, body) == Ok(message) && lib.verify(root, message, sig)
    requires ParseHeadBody(lib, body).Ok?
    ensures PublishedActive(cp, ops, ParseHeadBody(lib, body).value.version, ParseHeadBody(lib, body).value.active)
  {
    var k := SignedHeadIsPublished(cp, ops, body, message);
    PublishedBody(lib, cp, ops, k, body);
  }
}
