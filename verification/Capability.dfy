/**
 Signed artifacts of authz/capability.py: the domain-separated signing input, the envelope and
 the grant body. Cryptography, hex, hashing and RFC 3339 parsing are library calls of the
 source; they come in as the function fields of a `Library` and nothing is assumed of them.
 */
module Capability {
  import opened Wrappers
  import opened Encodings
  import opened Decimals
  import opened Jcs
  import opened JcsParser

  type Bytes = seq<Byte>
  type PublicKey = Bytes

  datatype Library = Library(
    fromHex: string -> Option<Bytes>,
    loadKey: string -> Option<PublicKey>,
    verify: (PublicKey, Bytes, Bytes) -> bool,
    sha256Hex: Bytes -> string,
    rfc3339: string -> Option<int>,
    intReads: string -> bool)

  // ----- signing input ----------------------------------------------------------------

  const DOMAIN_PREFIX := "puffo-authz/"

  function DomainTag(artifactType: string): Bytes
  {
    Utf8(DOMAIN_PREFIX) + Utf8(artifactType) + Utf8("/v1\0")
  }

  /** Canonical bytes behind a tag. */
  function Tagged(tag: Bytes, body: Json): Result<Bytes, JcsError>
  {
    var canonical :- Canonicalize(body);
    Ok(tag + canonical)
  }

  function SigningInput(artifactType: string, body: Json): Result<Bytes, JcsError>
  {
    Tagged(DomainTag(artifactType), body)
  }

  lemma TagText(artifactType: string)
    ensures DomainTag(artifactType) == Utf8(TagOf(artifactType) + "\0")
  {
    Utf8Concat(DOMAIN_PREFIX, artifactType);
    Utf8Concat(DOMAIN_PREFIX + artifactType, "/v1\0");
    assert DOMAIN_PREFIX + artifactType + "/v1\0" == DOMAIN_PREFIX + artifactType + "/v1" + "\0";
  }

  /** A signing input is the encoding of one text, with the tag and the body separated by the last NUL. */
  lemma SigningText(artifactType: string, body: Json)
    requires Canonicalize(body).Ok?
    ensures SigningInput(artifactType, body) == Ok(Utf8(TagOf(artifactType) + "\0" + Serialize(body).value))
  {
    TagText(artifactType);
    Utf8Concat(TagOf(artifactType) + "\0", Serialize(body).value);
  }

  lemma LastNulSplits(x: string, a: string, y: string, b: string)
    requires x + "\0" + a == y + "\0" + b
    requires Printable(a) && Printable(b)
    ensures x == y && a == b
  {
    var s := x + "\0" + a;
    assert s[|x|] == '\0' && s[|y|] == '\0';
    assert s[..|x|] == x && s[..|y|] == y;
    assert s[|x| + 1..] == a && s[|y| + 1..] == b;
  }

  function TagOf(artifactType: string): string
  {
    DOMAIN_PREFIX + artifactType + "/v1"
  }

  lemma TagDeterminesType(t: string, t': string)
    requires TagOf(t) == TagOf(t')
    ensures t == t'
  {
    var tag, tag' := TagOf(t), TagOf(t');
    assert tag[|DOMAIN_PREFIX|..|tag| - 3] == t && tag'[|DOMAIN_PREFIX|..|tag'| - 3] == t';
  }

  lemma SigningTextSplits(tag: string, text: string, tag': string, text': string)
    requires Printable(text) && Printable(text') && Utf8(tag + "\0" + text) == Utf8(tag' + "\0" + text')
    ensures tag == tag' && text == text'
  {
    Utf8Injective(tag + "\0" + text, tag' + "\0" + text');
    LastNulSplits(tag, text, tag', text');
  }

  /** Equal signing inputs come from the same artifact type and the same body, for every type string. */
  lemma SigningInputInjective(t: string, body: Json, t': string, body': Json)
    requires SigningInput(t, body).Ok? && SigningInput(t, body) == SigningInput(t', body')
    ensures t == t' && body == body'
  {
    SigningText(t, body);
    SigningText(t', body');
    SerializePrintable(body);
    SerializePrintable(body');
    SigningTextSplits(TagOf(t), Serialize(body).value, TagOf(t'), Serialize(body').value);
    TagDeterminesType(t, t');
    SameTextSameBody(body, body');
  }

  lemma SameTextSameBody(body: Json, body': Json)
    requires Serialize(body).Ok? && Serialize(body) == Serialize(body')
    ensures body == body'
  {
    CanonicalInjective(body, body');
  }

  /** Untagged canonical bytes are never a signing input: they hold no NUL. */
  lemma UntaggedIsNotSigningInput(v: Json, t: string, body: Json)
    requires Canonicalize(v).Ok? && SigningInput(t, body).Ok?
    ensures Canonicalize(v).value != SigningInput(t, body).value
  {
    SigningText(t, body);
    SerializePrintable(v);
    var tag := TagOf(t);
    var text := tag + "\0" + Serialize(body).value;
    assert text[|tag|] == '\0';
    if Canonicalize(v).value == SigningInput(t, body).value {
      Utf8Injective(Serialize(v).value, text);
      assert false;
    }
  }

  // ----- envelope ---------------------------------------------------------------------

  /**
   `CertificateError`, of which only the optional audit detail matters, and the `ValueError` of `int` on
   a numeral with more digits than the interpreter converts, which is no `CertificateError`.
   */
  datatype CertificateError = CertificateError(detail: Option<string>) | NumeralTooLong

  const MALFORMED := CertificateError(None)

  /** `dict.get`. */
  function Get(members: map<string, Json>, key: string): Json
  {
    if key in members then members[key] else Null
  }

  function Check(condition: bool, error: CertificateError): Result<(), CertificateError>
  {
    if condition then Ok(()) else Err(error)
  }

  /** `v == 1` as Python compares numbers. */
  predicate EqualsOne(v: Json)
  {
    v == Num(1) || v == Bool(true) || v == Float(1.0)
  }

  datatype Artifact = Artifact(kind: string, body: Json, sig: Bytes)

  function ParseEnvelope(lib: Library, env: Json): (r: Result<Artifact, CertificateError>)
    ensures r.Ok? ==> r.value.body.Obj? && env.Obj? && Get(env.members, "body") == r.value.body
  {
    var _ :- Check(env.Obj? && env.members.Keys <= {"v", "type", "body", "sig"}, MALFORMED);
    var m := env.members;
    var _ :- Check(EqualsOne(Get(m, "v")), MALFORMED);
    var _ :- Check(Get(m, "type").Str? && Get(m, "type").s != "", MALFORMED);
    var _ :- Check(Get(m, "body").Obj?, MALFORMED);
    var _ :- Check(Get(m, "sig").Str?, MALFORMED);
    match lib.fromHex(Get(m, "sig").s)
    case None => Err(MALFORMED)
    case Some(sig) => Ok(Artifact(Get(m, "type").s, Get(m, "body"), sig))
  }

  // ----- patterns ---------------------------------------------------------------------

  // Both patterns end in `$`, which in Python also matches before one trailing newline.
  function DropNewline(s: string): string
  {
    if s != "" && s[|s| - 1] == '\n' then s[..|s| - 1] else s
  }

  predicate MatchesDecimal(s: string)
  {
    CanonicalDigits(DropNewline(s))
  }

  /** `int(s)` of a matching string; `int` ignores the trailing newline. */
  function DecimalValue(s: string): nat
    requires MatchesDecimal(s)
  {
    DigitsValue(DropNewline(s))
  }

  predicate IsLowerHex(c: char)
  {
    '0' <= c <= '9' || 'a' <= c <= 'f'
  }

  predicate MatchesGrantId(s: string)
  {
    var id := DropNewline(s);
    |id| == 32 && forall i | 0 <= i < 32 :: IsLowerHex(id[i])
  }

  /** Thirty-two lower-case hexadecimal digits. */
  predicate IsHex32(s: string)
  {
    |s| == 32 && forall i | 0 <= i < 32 :: s[i] in "0123456789abcdef"
  }

  lemma LowerHexDigits(c: char)
    ensures IsLowerHex(c) <==> c in "0123456789abcdef"
  {
    if '0' <= c <= '9' {
      assert "0123456789abcdef"[c as int - '0' as int] == c;
    } else if 'a' <= c <= 'f' {
      assert "0123456789abcdef"[c as int - 'a' as int + 10] == c;
    }
  }

  /** A grant id is 32 hexadecimal digits, and the pattern lets one newline follow. */
  lemma GrantIdPattern(s: string)
    ensures MatchesGrantId(s) <==> IsHex32(s) || (|s| == 33 && s[32] == '\n' && IsHex32(s[..32]))
  {
    forall c: char ensures IsLowerHex(c) <==> c in "0123456789abcdef" {
      LowerHexDigits(c);
    }
    if |s| == 33 && s[32] == '\n' {
      assert DropNewline(s) == s[..32];
    } else if IsHex32(s) {
      assert s[31] in "0123456789abcdef" && DropNewline(s) == s;
    }
  }

  /** A version is a printed natural number, and the pattern lets one newline follow. */
  lemma DecimalPattern(s: string)
    ensures MatchesDecimal(s) <==> exists n: nat :: s == Digits(n) || s == Digits(n) + "\n"
    ensures MatchesDecimal(s) ==> s == Digits(DecimalValue(s)) || s == Digits(DecimalValue(s)) + "\n"
  {
    if MatchesDecimal(s) {
      CanonicalIsPrinted(DropNewline(s));
      assert s == DropNewline(s) || s == DropNewline(s) + "\n";
    }
    if n: nat :| s == Digits(n) || s == Digits(n) + "\n" {
      DigitsAreCanonical(n);
      assert IsDigit(Digits(n)[|Digits(n)| - 1]);
      assert DropNewline(s) == Digits(n);
    }
  }

  // ----- grant body -------------------------------------------------------------------

  datatype Subject = OsAccount(machineId: string, account: string) | AgentKey(pubkeyHex: string, slug: string)

  datatype ApprovalMode = Auto | PerCall

  datatype Grant = Grant(
    grantId: string,
    grantVersion: string,
    issuerFp: string,
    subject: Subject,
    fromAccount: string,
    approvalMode: ApprovalMode,
    validFrom: int,
    validUntil: int,
    stateVersion: string)

  const MISSING_APPROVAL_MODE := "missing_approval_mode"

  const GRANT_BODY_KEYS := {
    "grant_id", "grant_version", "state_version", "issuer_fp", "subject",
    "tool", "action", "scope", "approval_mode", "valid_from", "valid_until"}

  function RequireStr(m: map<string, Json>, key: string): (r: Result<string, CertificateError>)
    ensures r.Ok? ==> Get(m, key) == Str(r.value) && r.value != ""
  {
    match Get(m, key)
    case Str(s) => if s != "" then Ok(s) else Err(MALFORMED)
    case _ => Err(MALFORMED)
  }

  function RequireDecimal(lib: Library, m: map<string, Json>, key: string): (r: Result<string, CertificateError>)
    ensures r.Ok? ==> MatchesDecimal(r.value)
  {
    var s :- RequireStr(m, key);
    var _ :- Check(MatchesDecimal(s), MALFORMED);
    var _ :- Check(lib.intReads(s), NumeralTooLong);
    Ok(s)
  }

  function RequireTime(lib: Library, m: map<string, Json>, key: string): Result<int, CertificateError>
  {
    var s :- RequireStr(m, key);
    match lib.rfc3339(s)
    case None => Err(MALFORMED)
    case Some(t) => Ok(t)
  }

  function ParseScope(scope: Json): Result<string, CertificateError>
  {
    var _ :- Check(scope.Obj?, MALFORMED);
    var account :- RequireStr(scope.members, "from_account");
    var _ :- Check(scope.members.Keys <= {"from_account"}, MALFORMED);
    Ok(account)
  }

  function ParseSubject(s: Json): Result<Subject, CertificateError>
  {
    var _ :- Check(s.Obj?, MALFORMED);
    match Get(s.members, "kind")
    case Str(kind) =>
      if kind == "os_account" then
        var _ :- Check(s.members.Keys <= {"kind", "machine_id", "account"}, MALFORMED);
        var machine :- RequireStr(s.members, "machine_id");
        var account :- RequireStr(s.members, "account");
        Ok(OsAccount(machine, account))
      else if kind == "agent_key" then
        var _ :- Check(s.members.Keys <= {"kind", "agent_pubkey", "agent_slug"}, MALFORMED);
        var pubkey :- RequireStr(s.members, "agent_pubkey");
        var slug :- RequireStr(s.members, "agent_slug");
        Ok(AgentKey(pubkey, slug))
      else Err(MALFORMED)
    case _ => Err(MALFORMED)
  }

  function ParseApprovalMode(m: map<string, Json>): Result<ApprovalMode, CertificateError>
  {
    if "approval_mode" !in m then Err(CertificateError(Some(MISSING_APPROVAL_MODE)))
    else if m["approval_mode"] == Str("auto") then Ok(Auto)
    else if m["approval_mode"] == Str("per_call") then Ok(PerCall)
    else Err(MALFORMED)
  }

  /** Which grant of which issuer, in the order the fields are read. */
  datatype GrantIdentity = GrantIdentity(grantId: string, grantVersion: string, issuerFp: string, stateVersion: string)

  function ParseIdentity(lib: Library, m: map<string, Json>): (r: Result<GrantIdentity, CertificateError>)
    ensures r.Ok? ==> MatchesGrantId(r.value.grantId) && MatchesDecimal(r.value.grantVersion)
  {
    var grantId :- RequireStr(m, "grant_id");
    var _ :- Check(MatchesGrantId(grantId), MALFORMED);
    var grantVersion :- RequireDecimal(lib, m, "grant_version");
    var issuerFp :- RequireStr(m, "issuer_fp");
    var stateVersion :- RequireDecimal(lib, m, "state_version");
    Ok(GrantIdentity(grantId, grantVersion, issuerFp, stateVersion))
  }

  /** What is granted to whom: the account, the subject and the mode. */
  datatype GrantTerms = GrantTerms(account: string, subject: Subject, mode: ApprovalMode)

  function ParseTerms(m: map<string, Json>): Result<GrantTerms, CertificateError>
  {
    var tool :- RequireStr(m, "tool");
    var action :- RequireStr(m, "action");
    var _ :- Check(tool == "gmail" && action == "send", MALFORMED);
    var account :- ParseScope(Get(m, "scope"));
    var subject :- ParseSubject(Get(m, "subject"));
    var mode :- ParseApprovalMode(m);
    Ok(GrantTerms(account, subject, mode))
  }

  function ParseInterval(lib: Library, m: map<string, Json>): (r: Result<(int, int), CertificateError>)
    ensures r.Ok? ==> r.value.0 < r.value.1
  {
    var validFrom :- RequireTime(lib, m, "valid_from");
    var validUntil :- RequireTime(lib, m, "valid_until");
    var _ :- Check(validUntil > validFrom, MALFORMED);
    Ok((validFrom, validUntil))
  }

  function ParseGrantBody(lib: Library, body: Json): (r: Result<Grant, CertificateError>)
    requires body.Obj?
    ensures r.Ok? ==> MatchesGrantId(r.value.grantId) && MatchesDecimal(r.value.grantVersion)
    ensures r.Ok? ==> r.value.validFrom < r.value.validUntil
  {
    var m := body.members;
    var _ :- Check(m.Keys <= GRANT_BODY_KEYS, MALFORMED);
    var identity :- ParseIdentity(lib, m);
    var terms :- ParseTerms(m);
    var (validFrom, validUntil) :- ParseInterval(lib, m);
    Ok(Grant(identity.grantId, identity.grantVersion, identity.issuerFp, terms.subject, terms.account, terms.mode,
             validFrom, validUntil, identity.stateVersion))
  }

  function SubjectKindName(s: Subject): string
  {
    if s.OsAccount? then "os_account" else "agent_key"
  }

  function ApprovalModeName(m: ApprovalMode): string
  {
    if m.Auto? then "auto" else "per_call"
  }
}
