/** When a request is prepared, and what it is prepared to, on the fields of the request. */
module Preparation {
  import opened Wrappers
  import opened Encodings
  import opened Jcs
  import opened JcsParser
  import opened Capability
  import opened Payload
  import opened Proposals

  // ----- the schema, field by field ---------------------------------------------------

  /** What Python takes for false. */
  predicate Blank(v: Json)
  {
    v in {Null, Bool(false), Num(0), Float(0.0), Str(""), Arr([]), Obj(map[])}
  }

  predicate IsStringList(v: Json)
  {
    v.Arr? && forall i | 0 <= i < |v.items| :: v.items[i].Str?
  }

  predicate IsAttachment(a: Json)
  {
    && a.Obj? && a.members.Keys == {"name", "media_type", "content_ref", "sha256", "size"}
    && a.members["name"].Str? && a.members["media_type"].Str? && a.members["content_ref"].Str?
    && a.members["sha256"].Str? && a.members["size"].Num? && a.members["size"].n >= 0
  }

  predicate AreAttachments(v: Json)
  {
    v.Arr? && forall i | 0 <= i < |v.items| :: IsAttachment(v.items[i])
  }

  predicate IsBody(v: Json)
  {
    v.Obj? && v.members.Keys == {"format", "content"} && v.members["format"].Str? && v.members["content"].Str?
  }

  /** The closed PrepareEmail schema. */
  predicate InSchema(params: Json)
  {
    && params.Obj?
    && params.members.Keys <= {"account_handle", "to", "cc", "bcc", "subject", "body", "attachments", "idempotency_key"}
    && Get(params.members, "account_handle").Str? && Get(params.members, "subject").Str?
    && IsBody(Get(params.members, "body")) && IsStringList(Get(params.members, "to"))
    && (Blank(Get(params.members, "cc")) || IsStringList(Get(params.members, "cc")))
    && (Blank(Get(params.members, "bcc")) || IsStringList(Get(params.members, "bcc")))
    && (Blank(Get(params.members, "attachments")) || AreAttachments(Get(params.members, "attachments")))
  }

  lemma BlankIsFalse(v: Json)
    ensures Blank(v) <==> !Truthy(v)
  {
  }

  lemma AttachmentIff(a: Json)
    ensures NormalizeAttachment(a).Ok? <==> IsAttachment(a)
  {
    if NormalizeAttachment(a).Ok? {
      assert {"name", "media_type", "content_ref", "sha256", "size"} <= a.members.Keys;
    }
  }

  lemma {:induction false} AttachmentsIff(items: seq<Json>)
    ensures NormalizeAttachments(items).Ok? <==> forall i | 0 <= i < |items| :: IsAttachment(items[i])
  {
    if items != [] {
      AttachmentIff(items[0]);
      AttachmentsIff(items[1..]);
      assert forall i | 0 < i < |items| :: items[i] == items[1..][i - 1];
      if forall i | 0 <= i < |items| :: IsAttachment(items[i]) {
        assert forall i | 0 <= i < |items[1..]| :: items[1..][i] == items[i + 1];
      }
    }
  }

  lemma BodyIff(v: Json)
    ensures NormalizeBody(v).Ok? <==> IsBody(v)
  {
    if NormalizeBody(v).Ok? {
      assert {"format", "content"} <= v.members.Keys;
    }
  }

  lemma {:induction false} AttachmentErrors(items: seq<Json>)
    ensures NormalizeAttachments(items).Err? ==> NormalizeAttachments(items).error == SchemaError
  {
    if items != [] {
      AttachmentErrors(items[1..]);
    }
  }

  /** The payload is built exactly from a request in the schema; otherwise the schema error. */
  lemma BuildIff(params: Json, messageId: Option<string>)
    ensures var r := BuildCanonicalPayload(params, messageId);
            && (r.Ok? <==> InSchema(params) && messageId != Some(""))
            && (r.Err? ==> r.error == SchemaError)
  {
    if params.Obj? {
      var m := params.members;
      BodyIff(Get(m, "body"));
      BlankIsFalse(Get(m, "cc"));
      BlankIsFalse(Get(m, "bcc"));
      BlankIsFalse(Get(m, "attachments"));
      if Get(m, "attachments").Arr? {
        AttachmentsIff(Get(m, "attachments").items);
        AttachmentErrors(Get(m, "attachments").items);
      }
    }
  }

  // ----- what a request is prepared to ------------------------------------------------

  function OrNone(v: Json): Json
  {
    if Blank(v) then Arr([]) else v
  }

  /** The payload says what the request says, field by field, and nothing else. */
  ghost predicate Carries(payload: Json, params: Json, messageId: Option<string>)
    requires params.Obj?
  {
    && payload.Obj?
    && payload.members.Keys == {"account_handle", "to", "cc", "bcc", "subject", "body", "attachments"} +
                               (if messageId.Some? then {"message_id"} else {})
    && payload.members["account_handle"] == Get(params.members, "account_handle")
    && payload.members["to"] == Get(params.members, "to")
    && payload.members["cc"] == OrNone(Get(params.members, "cc"))
    && payload.members["bcc"] == OrNone(Get(params.members, "bcc"))
    && payload.members["subject"] == Get(params.members, "subject")
    && payload.members["body"] == Get(params.members, "body")
    && payload.members["attachments"] == OrNone(Get(params.members, "attachments"))
    && (messageId.Some? ==> payload.members["message_id"] == Str(messageId.value))
  }

  lemma BuiltCarries(params: Json, messageId: Option<string>)
    requires BuildCanonicalPayload(params, messageId).Ok?
    ensures params.Obj? && Carries(BuildCanonicalPayload(params, messageId).value, params, messageId)
  {
    AcceptedIsApproved(params, messageId);
    var payload := BuildCanonicalPayload(params, messageId).value;
    BlankIsFalse(Get(params.members, "cc"));
    BlankIsFalse(Get(params.members, "bcc"));
    BlankIsFalse(Get(params.members, "attachments"));
    assert payload.members.Keys == {"account_handle", "to", "cc", "bcc", "subject", "body", "attachments"} +
                                   (if messageId.Some? then {"message_id"} else {});
  }

  /** A text mail without attachments. */
  ghost predicate IsPlainMail(payload: Json)
  {
    && payload.Obj? && Get(payload.members, "attachments") == Arr([])
    && Get(payload.members, "body").Obj? && Get(Get(payload.members, "body").members, "format") == Str("text")
  }

  /** A mail without attachments holds no number. */
  lemma PlainMailIsInDomain(payload: Json, params: Json, messageId: Option<string>)
    requires InSchema(params) && Carries(payload, params, messageId) && payload.members["attachments"] == Arr([])
    ensures InDomain(payload)
  {
    var m := payload.members;
    forall k | k in m ensures InDomain(m[k]) {
      if k == "to" || k == "cc" || k == "bcc" {
        assert forall i | 0 <= i < |m[k].items| :: InDomain(m[k].items[i]);
      } else if k == "body" {
        assert forall f | f in m[k].members :: InDomain(m[k].members[f]);
      }
    }
  }

  /** The minted id, if a factory is configured. */
  function MessageId(minting: Minting): Option<string>
  {
    match minting
    case NoFactory => None
    case Factory(minted) => minted
  }

  /** An id is demanded and there is none. */
  predicate LacksId(minting: Minting, requireMessageId: bool)
  {
    requireMessageId && MessageId(minting) in {None, Some("")}
  }

  lemma BlankList(v: Json)
    requires Blank(v) || AreAttachments(v)
    ensures Truthy(OrNone(v)) <==> !Blank(v)
  {
  }

  /** Why the send policy refuses a request in the schema, if it does. */
  function PolicyError(params: Json): Option<PayloadError>
    requires InSchema(params)
  {
    if !Blank(Get(params.members, "attachments")) then Some(AttachmentsNotSupported)
    else if Get(Get(params.members, "body").members, "format") != Str("text") then Some(SchemaError)
    else None
  }

  lemma PolicyIff(params: Json, messageId: Option<string>, payload: Json)
    requires InSchema(params) && Carries(payload, params, messageId)
    ensures EnforceV1SendPolicy(payload) ==
            match PolicyError(params) case None => Ok(()) case Some(e) => Err(e)
    ensures PolicyError(params).None? <==> IsPlainMail(payload)
  {
    BlankList(Get(params.members, "attachments"));
    assert Get(payload.members, "attachments") == OrNone(Get(params.members, "attachments"));
    assert Get(payload.members, "body") == Get(params.members, "body");
  }

  /** A request that is prepared: well-formed, configured, on a sane clock, in the schema, plain text, no attachments. */
  predicate Preparable(params: Json, minting: Minting, requireMessageId: bool, now: int, ttl: int)
  {
    && !LacksId(minting, requireMessageId) && now >= 0 && ttl > 0
    && InSchema(params) && MessageId(minting) != Some("") && PolicyError(params).None?
  }

  /** The error of a request that is not, in the order of the checks. */
  function PreparationError(params: Json, minting: Minting, requireMessageId: bool, now: int, ttl: int): ProposeError
    requires !Preparable(params, minting, requireMessageId, now, ttl)
  {
    if LacksId(minting, requireMessageId) then MessageIdNotConfigured
    else if now < 0 || ttl <= 0 then InvalidClock
    else if !InSchema(params) || MessageId(minting) == Some("") then InvalidPayload(SchemaError)
    else InvalidPayload(PolicyError(params).value)
  }

  /** What a preparable request is prepared to. */
  ghost predicate PreparedFrom(sha256Hex: Bytes -> string, params: Json, minting: Minting, now: int, ttl: int, p: Prepared)
    requires params.Obj?
  {
    && Carries(p.canonical, params, MessageId(minting)) && IsPlainMail(p.canonical)
    && Canonicalize(p.canonical).Ok? && p.digest == sha256Hex(Canonicalize(p.canonical).value)
    && p.expiresAt == now + ttl
  }

  /**
   A request is prepared exactly when it is well configured, on a sane clock, in the closed schema, in
   plain text and without attachments, and then to a payload that says what it says; otherwise it is
   refused with the error of the first check that fails. Nothing that passes is out of the serializer's domain.
   */
  lemma PrepareIff(sha256Hex: Bytes -> string, params: Json, minting: Minting, requireMessageId: bool, now: int, ttl: int)
    ensures var r := Prepare(sha256Hex, params, minting, requireMessageId, now, ttl);
            if Preparable(params, minting, requireMessageId, now, ttl) then
              r.Ok? && PreparedFrom(sha256Hex, params, minting, now, ttl, r.value)
            else r == Err(PreparationError(params, minting, requireMessageId, now, ttl))
  {
    var messageId := MessageId(minting);
    BuildIff(params, messageId);
    if InSchema(params) && messageId != Some("") {
      var payload := BuildCanonicalPayload(params, messageId).value;
      BuiltCarries(params, messageId);
      PolicyIff(params, messageId, payload);
      if PolicyError(params).None? {
        PlainMailIsInDomain(payload, params, messageId);
        SerializeDomain(payload);
      }
    }
  }

  /** The idempotency key of a request is its string of that name, and none if it is absent or null. */
  lemma AdmitKeyIff(params: Json, minting: Minting, requireMessageId: bool, key: string)
    ensures var r := AdmitKey(params, minting, requireMessageId);
            var configured := !requireMessageId || minting.Factory?;
            && (r == Ok(Some(key)) <==> configured && params.Obj? && Get(params.members, "idempotency_key") == Str(key))
            && (r == Ok(None) <==> configured && params.Obj? && Get(params.members, "idempotency_key") == Null)
            && (r.Err? ==> r.error == if configured then InvalidPayload(SchemaError) else MessageIdNotConfigured)
  {
  }
}
