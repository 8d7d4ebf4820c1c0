/** The closed PrepareEmail schema and the payload a user approves, from canonicalizer/payload.py. */
module Payload {
  import opened Wrappers
  import opened Encodings
  import opened Jcs
  import opened JcsParser
  import opened Capability

  datatype PayloadError = SchemaError | AttachmentsNotSupported

  const TOP_LEVEL_ALLOWED := {
    "account_handle", "to", "cc", "bcc", "subject", "body", "attachments", "idempotency_key"}
  const BODY_KEYS := {"format", "content"}
  const ATTACHMENT_KEYS := {"name", "media_type", "content_ref", "sha256", "size"}

  /** Python truth value. */
  predicate Truthy(v: Json)
  {
    match v
    case Null => false
    case Bool(b) => b
    case Num(n) => n != 0
    case Float(x) => x != 0.0
    case Str(s) => s != ""
    case Arr(items) => items != []
    case Obj(members) => members != map[]
  }

  function Need(condition: bool): Result<(), PayloadError>
  {
    if condition then Ok(()) else Err(SchemaError)
  }

  function Require(m: map<string, Json>, key: string): Result<Json, PayloadError>
  {
    if key in m then Ok(m[key]) else Err(SchemaError)
  }

  function StrList(v: Json): (r: Result<Json, PayloadError>)
    ensures r.Ok? ==> r.value == v && v.Arr?
  {
    if v.Arr? && forall i | 0 <= i < |v.items| :: v.items[i].Str? then Ok(v) else Err(SchemaError)
  }

  function NormalizeAttachment(a: Json): Result<Json, PayloadError>
  {
    var _ :- Need(a.Obj? && a.members.Keys <= ATTACHMENT_KEYS);
    var m := a.members;
    var name :- Require(m, "name");
    var _ :- Need(name.Str?);
    var mediaType :- Require(m, "media_type");
    var _ :- Need(mediaType.Str?);
    var contentRef :- Require(m, "content_ref");
    var _ :- Need(contentRef.Str?);
    var sha256 :- Require(m, "sha256");
    var _ :- Need(sha256.Str?);
    var size :- Require(m, "size");
    var _ :- Need(size.Num? && size.n >= 0);
    Ok(Obj(map["content_ref" := contentRef, "media_type" := mediaType, "name" := name, "sha256" := sha256,
               "size" := size]))
  }

  function NormalizeAttachments(items: seq<Json>): Result<seq<Json>, PayloadError>
  {
    if items == [] then Ok([])
    else
      var first :- NormalizeAttachment(items[0]);
      var rest :- NormalizeAttachments(items[1..]);
      Ok([first] + rest)
  }

  function NormalizeBody(body: Json): Result<Json, PayloadError>
  {
    var _ :- Need(body.Obj? && body.members.Keys <= BODY_KEYS);
    var format :- Require(body.members, "format");
    var content :- Require(body.members, "content");
    var _ :- Need(format.Str? && content.Str?);
    Ok(Obj(map["format" := format, "content" := content]))
  }

  function BuildCanonicalPayload(prepare: Json, messageId: Option<string>): Result<Json, PayloadError>
  {
    var _ :- Need(prepare.Obj?);
    var m := prepare.members;
    var _ :- Need(m.Keys <= TOP_LEVEL_ALLOWED);
    var _ :- Need(messageId.Some? ==> messageId.value != "");
    var account :- Require(m, "account_handle");
    var _ :- Need(account.Str?);
    var subject :- Require(m, "subject");
    var _ :- Need(subject.Str?);
    var bodyIn :- Require(m, "body");
    var body :- NormalizeBody(bodyIn);
    var toIn :- Require(m, "to");
    var to :- StrList(toIn);
    var cc :- if Truthy(Get(m, "cc")) then StrList(m["cc"]) else Ok(Arr([]));
    var bcc :- if Truthy(Get(m, "bcc")) then StrList(m["bcc"]) else Ok(Arr([]));
    var attachmentsIn := if Truthy(Get(m, "attachments")) then m["attachments"] else Arr([]);
    var _ :- Need(attachmentsIn.Arr?);
    var attachments :- NormalizeAttachments(attachmentsIn.items);
    Ok(CanonicalPayload(account, to, cc, bcc, subject, body, Arr(attachments), messageId))
  }

  function CanonicalPayload(account: Json, to: Json, cc: Json, bcc: Json, subject: Json, body: Json,
                            attachments: Json, messageId: Option<string>): Json
  {
    var canonical := map["account_handle" := account, "to" := to, "cc" := cc, "bcc" := bcc,
                         "subject" := subject, "body" := body, "attachments" := attachments];
    Obj(if messageId.Some? then canonical["message_id" := Str(messageId.value)] else canonical)
  }

  /** v1 sends only a text body without attachments. */
  function EnforceV1SendPolicy(canonical: Json): Result<(), PayloadError>
    requires canonical.Obj? && Get(canonical.members, "body").Obj?
  {
    if Truthy(Get(canonical.members, "attachments")) then Err(AttachmentsNotSupported)
    else Need(Get(Get(canonical.members, "body").members, "format") == Str("text"))
  }

  // ----- what normalization keeps -----------------------------------------------------

  lemma AttachmentUnchanged(a: Json)
    requires NormalizeAttachment(a).Ok?
    ensures NormalizeAttachment(a).value == a
  {
    assert NormalizeAttachment(a).value.members == a.members;
  }

  lemma {:induction false} AttachmentsUnchanged(items: seq<Json>)
    requires NormalizeAttachments(items).Ok?
    ensures NormalizeAttachments(items).value == items
  {
    if items != [] {
      AttachmentUnchanged(items[0]);
      AttachmentsUnchanged(items[1..]);
    }
  }

  lemma BodyUnchanged(body: Json)
    requires NormalizeBody(body).Ok?
    ensures NormalizeBody(body).value == body
  {
    assert NormalizeBody(body).value.members == body.members;
  }

  /** An omitted or empty list field counts as `[]`. */
  function OrEmpty(v: Json): Json
  {
    if Truthy(v) then v else Arr([])
  }

  /** The canonical payload read off the input: every field as given, the optional lists defaulted. */
  function Approved(m: map<string, Json>, messageId: Option<string>): Json
  {
    CanonicalPayload(Get(m, "account_handle"), Get(m, "to"), OrEmpty(Get(m, "cc")), OrEmpty(Get(m, "bcc")),
                     Get(m, "subject"), Get(m, "body"), OrEmpty(Get(m, "attachments")), messageId)
  }

  /** Accepting an input changes nothing in it beyond defaulting the optional lists. */
  lemma AcceptedIsApproved(prepare: Json, messageId: Option<string>)
    requires BuildCanonicalPayload(prepare, messageId).Ok?
    ensures prepare.Obj? && BuildCanonicalPayload(prepare, messageId).value == Approved(prepare.members, messageId)
  {
    var m := prepare.members;
    BodyUnchanged(m["body"]);
    AttachmentsUnchanged(OrEmpty(Get(m, "attachments")).items);
  }

  /** Two inputs ask for the same mail. */
  ghost predicate SameContent(m: map<string, Json>, id: Option<string>, n: map<string, Json>, id': Option<string>)
  {
    && Get(m, "account_handle") == Get(n, "account_handle")
    && Get(m, "to") == Get(n, "to")
    && OrEmpty(Get(m, "cc")) == OrEmpty(Get(n, "cc"))
    && OrEmpty(Get(m, "bcc")) == OrEmpty(Get(n, "bcc"))
    && Get(m, "subject") == Get(n, "subject")
    && Get(m, "body") == Get(n, "body")
    && OrEmpty(Get(m, "attachments")) == OrEmpty(Get(n, "attachments"))
    && id == id'
  }

  lemma ApprovedFields(m: map<string, Json>, id: Option<string>)
    ensures var c := Approved(m, id).members;
            && Get(c, "account_handle") == Get(m, "account_handle")
            && Get(c, "to") == Get(m, "to")
            && Get(c, "cc") == OrEmpty(Get(m, "cc"))
            && Get(c, "bcc") == OrEmpty(Get(m, "bcc"))
            && Get(c, "subject") == Get(m, "subject")
            && Get(c, "body") == Get(m, "body")
            && Get(c, "attachments") == OrEmpty(Get(m, "attachments"))
            && Get(c, "message_id") == (if id.Some? then Str(id.value) else Null)
            && ("message_id" in c <==> id.Some?)
  {
  }

  /** Two accepted inputs have the same approved bytes exactly when they ask for the same mail. */
  lemma ApprovedContentEquivalence(p: Json, id: Option<string>, q: Json, id': Option<string>)
    requires BuildCanonicalPayload(p, id).Ok? && BuildCanonicalPayload(q, id').Ok?
    requires Canonicalize(BuildCanonicalPayload(p, id).value).Ok?
    requires Canonicalize(BuildCanonicalPayload(q, id').value).Ok?
    ensures p.Obj? && q.Obj?
    ensures Canonicalize(BuildCanonicalPayload(p, id).value) == Canonicalize(BuildCanonicalPayload(q, id').value)
       <==> SameContent(p.members, id, q.members, id')
  {
    var c, d := BuildCanonicalPayload(p, id).value, BuildCanonicalPayload(q, id').value;
    AcceptedIsApproved(p, id);
    AcceptedIsApproved(q, id');
    if Canonicalize(c) == Canonicalize(d) {
      CanonicalInjective(c, d);
      ApprovedFields(p.members, id);
      ApprovedFields(q.members, id');
    }
  }

  /** The idempotency key is accepted and leaves no trace in what is approved. */
  lemma IdempotencyKeyIrrelevant(prepare: Json, key: Json, messageId: Option<string>)
    requires prepare.Obj?
    ensures BuildCanonicalPayload(Obj(prepare.members["idempotency_key" := key]), messageId)
         == BuildCanonicalPayload(Obj(prepare.members - {"idempotency_key"}), messageId)
  {
    var m := prepare.members - {"idempotency_key"};
    var n := prepare.members["idempotency_key" := key];
    assert n.Keys == m.Keys + {"idempotency_key"};
    assert m.Keys <= TOP_LEVEL_ALLOWED <==> n.Keys <= TOP_LEVEL_ALLOWED;
    SameFields(m, n, messageId);
  }

  lemma SameFields(m: map<string, Json>, n: map<string, Json>, messageId: Option<string>)
    requires m.Keys <= TOP_LEVEL_ALLOWED <==> n.Keys <= TOP_LEVEL_ALLOWED
    requires forall k | k != "idempotency_key" :: (k in m <==> k in n) && (k in m ==> m[k] == n[k])
    ensures BuildCanonicalPayload(Obj(m), messageId) == BuildCanonicalPayload(Obj(n), messageId)
  {
    assert Require(m, "account_handle") == Require(n, "account_handle");
    assert Require(m, "subject") == Require(n, "subject");
    assert Require(m, "body") == Require(n, "body");
    assert Require(m, "to") == Require(n, "to");
    assert Get(m, "cc") == Get(n, "cc") && Get(m, "bcc") == Get(n, "bcc");
    assert Get(m, "attachments") == Get(n, "attachments");
  }

  /** Normalizing a canonical payload again is accepted exactly when no message id was injected, and changes nothing. */
  lemma NormalizationIdempotent(prepare: Json, messageId: Option<string>)
    requires BuildCanonicalPayload(prepare, messageId).Ok?
    ensures var canonical := BuildCanonicalPayload(prepare, messageId).value;
            BuildCanonicalPayload(canonical, None) == if messageId.None? then Ok(canonical) else Err(SchemaError)
  {
    var canonical := BuildCanonicalPayload(prepare, messageId).value;
    AcceptedIsApproved(prepare, messageId);
    ApprovedFields(prepare.members, messageId);
    if messageId.Some? {
      assert "message_id" in canonical.members.Keys && "message_id" !in TOP_LEVEL_ALLOWED;
    } else {
      AcceptCanonical(prepare, canonical);
    }
  }

  lemma AcceptCanonical(prepare: Json, canonical: Json)
    requires BuildCanonicalPayload(prepare, None) == Ok(canonical)
    requires prepare.Obj? && canonical == Approved(prepare.members, None)
    ensures BuildCanonicalPayload(canonical, None) == Ok(canonical)
  {
    var m, c := prepare.members, canonical.members;
    ApprovedFields(m, None);
    assert c.Keys <= TOP_LEVEL_ALLOWED;
    assert "account_handle" in c && "subject" in c && "body" in c && "to" in c;
    assert OrEmpty(OrEmpty(Get(m, "cc"))) == OrEmpty(Get(m, "cc"));
    assert OrEmpty(OrEmpty(Get(m, "bcc"))) == OrEmpty(Get(m, "bcc"));
    assert OrEmpty(OrEmpty(Get(m, "attachments"))) == OrEmpty(Get(m, "attachments"));
    assert BuildCanonicalPayload(canonical, None).Ok?;
    AcceptedIsApproved(canonical, None);
    assert Approved(c, None) == canonical;
  }
}
