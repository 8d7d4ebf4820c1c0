/** Requests, decisions and the gate's local safety state, from authz/service.py. */
module Service {
  import opened Wrappers
  import opened Encodings
  import opened Jcs
  import opened JcsParser
  import opened Capability

  datatype PeerIdentity = PeerIdentity(machineId: string, account: string)

  /** What the peer resolver does: an identity or none, or an error of its own. */
  datatype PeerReply = Resolved(identity: Option<PeerIdentity>) | PeerError

  datatype AuthorizationRequest = AuthorizationRequest(
    grantEnvelope: Json,
    requestId: string,
    actionDigest: string,
    issuedAt: int,
    channelBinding: string,
    agentSig: Option<Bytes>)

  datatype Decision = Decision(
    decisionId: string,
    grantId: string,
    grantVersion: string,
    stateVersion: string,
    authzStateDigest: string,
    requestId: string,
    actionDigest: string,
    decidedAt: int,
    disposition: string,
    approvalMode: string,
    subjectKind: string,
    sig: Bytes)

  const AUTHORIZED := "authorized"
  const NEEDS_APPROVAL := "needs_approval"

  const VALIDITY_CAP_SECONDS := 7 * 24 * 3600
  const CLOCK_SKEW_SECONDS := 300
  const REQUEST_FRESHNESS_SECONDS := 300
  const DECIDED_AT_SLACK_SECONDS := 300
  const RESPONSE_DEADLINE_NS := 5_000_000_000

  // ----- signed bodies ----------------------------------------------------------------

  function RequestBindingBody(grantId: string, requestId: string, actionDigest: string,
                              issuedAt: int, channelBinding: string): Json
  {
    Obj(map["grant_id" := Str(grantId), "request_id" := Str(requestId), "action_digest" := Str(actionDigest),
            "issued_at" := Num(issuedAt), "channel_binding" := Str(channelBinding)])
  }

  function RequestBinding(grantId: string, requestId: string, actionDigest: string,
                          issuedAt: int, channelBinding: string): Result<Bytes, JcsError>
  {
    Canonicalize(RequestBindingBody(grantId, requestId, actionDigest, issuedAt, channelBinding))
  }

  function DecisionBody(d: Decision): Json
  {
    Obj(map["decision_id" := Str(d.decisionId), "grant_id" := Str(d.grantId),
            "grant_version" := Str(d.grantVersion), "state_version" := Str(d.stateVersion),
            "authz_state_digest" := Str(d.authzStateDigest), "request_id" := Str(d.requestId),
            "action_digest" := Str(d.actionDigest), "decided_at" := Num(d.decidedAt),
            "disposition" := Str(d.disposition), "approval_mode" := Str(d.approvalMode),
            "subject_kind" := Str(d.subjectKind)])
  }

  const DECISION_DOMAIN := "puffo-authz/decision/v1\0"

  function DecisionSigningInput(d: Decision): Result<Bytes, JcsError>
  {
    Tagged(Utf8(DECISION_DOMAIN), DecisionBody(d))
  }

  lemma DecisionDomainText()
    ensures DECISION_DOMAIN == TagOf("decision") + "\0"
  {
  }

  lemma DecisionDomainIsTag()
    ensures Utf8(DECISION_DOMAIN) == DomainTag("decision")
  {
    DecisionDomainText();
    TagText("decision");
  }

  lemma DecisionIsTagged(d: Decision)
    ensures DecisionSigningInput(d) == SigningInput("decision", DecisionBody(d))
  {
    DecisionDomainIsTag();
  }

  /** What the service signs: the eleven fields, each under its own name, and nothing else. */
  lemma DecisionFields(d: Decision)
    ensures DecisionBody(d).members.Keys == {
              "decision_id", "grant_id", "grant_version", "state_version", "authz_state_digest", "request_id",
              "action_digest", "decided_at", "disposition", "approval_mode", "subject_kind"}
    ensures var m := DecisionBody(d).members;
            && Get(m, "decision_id") == Str(d.decisionId) && Get(m, "grant_id") == Str(d.grantId)
            && Get(m, "grant_version") == Str(d.grantVersion) && Get(m, "state_version") == Str(d.stateVersion)
            && Get(m, "authz_state_digest") == Str(d.authzStateDigest) && Get(m, "request_id") == Str(d.requestId)
            && Get(m, "action_digest") == Str(d.actionDigest) && Get(m, "decided_at") == Num(d.decidedAt)
            && Get(m, "disposition") == Str(d.disposition) && Get(m, "approval_mode") == Str(d.approvalMode)
            && Get(m, "subject_kind") == Str(d.subjectKind)
  {
  }

  lemma DecisionBodyInjective(d: Decision, e: Decision)
    requires DecisionBody(d) == DecisionBody(e)
    ensures d == e.(sig := d.sig)
  {
    DecisionFields(d);
    DecisionFields(e);
  }

  /**
   A decision's signed bytes stand for that decision alone: they coincide with a user artifact
   only under the type `decision`, with another decision only if every signed field agrees, and
   with a request binding never.
   */
  lemma DecisionInputSeparate(d: Decision, e: Decision, t: string, body: Json, v: Json)
    requires DecisionSigningInput(d).Ok?
    ensures DecisionSigningInput(d) == SigningInput(t, body) ==> t == "decision" && body == DecisionBody(d)
    ensures DecisionSigningInput(d) == DecisionSigningInput(e) ==> d == e.(sig := d.sig)
    ensures DecisionSigningInput(d) != Canonicalize(v)
  {
    DecisionIsTagged(d);
    DecisionIsTagged(e);
    if DecisionSigningInput(d) == SigningInput(t, body) {
      SigningInputInjective("decision", DecisionBody(d), t, body);
    }
    if DecisionSigningInput(d) == DecisionSigningInput(e) {
      SigningInputInjective("decision", DecisionBody(d), "decision", DecisionBody(e));
      DecisionBodyInjective(d, e);
    }
    if Canonicalize(v).Ok? {
      UntaggedIsNotSigningInput(v, "decision", DecisionBody(d));
    }
  }

  /** What an agent signs: these five values, each under its own name, and nothing else. */
  lemma RequestFields(g: string, r: string, a: string, i: int, c: string)
    ensures var m := RequestBindingBody(g, r, a, i, c).members;
            && m.Keys == {"grant_id", "request_id", "action_digest", "issued_at", "channel_binding"}
            && Get(m, "grant_id") == Str(g) && Get(m, "request_id") == Str(r) && Get(m, "action_digest") == Str(a)
            && Get(m, "issued_at") == Num(i) && Get(m, "channel_binding") == Str(c)
  {
  }

  /** An agent signature over a request binding cannot be moved to another grant, request or payload. */
  lemma RequestBindingInjective(g: string, r: string, a: string, i: int, c: string,
                                g': string, r': string, a': string, i': int, c': string)
    requires RequestBinding(g, r, a, i, c).Ok? && RequestBinding(g, r, a, i, c) == RequestBinding(g', r', a', i', c')
    ensures (g, r, a, i, c) == (g', r', a', i', c')
  {
    CanonicalInjective(RequestBindingBody(g, r, a, i, c), RequestBindingBody(g', r', a', i', c'));
    RequestFields(g, r, a, i, c);
    RequestFields(g', r', a', i', c');
  }

  // ----- local safety state -----------------------------------------------------------

  /** The single-use consumer: check and write as one step. */
  class LockedConsumer {
    var consumed: map<string, string>

    constructor ()
      ensures consumed == map[]
    {
      consumed := map[];
    }

    method ConsumeOnce(key: string, actionDigest: string) returns (first: bool)
      modifies this
      ensures first <==> key !in old(consumed)
      ensures consumed == if first then old(consumed)[key := actionDigest] else old(consumed)
    {
      if key in consumed {
        return false;
      }
      consumed := consumed[key := actionDigest];
      return true;
    }
  }

  /** The highest accepted head version. */
  class HighWaterMark {
    var mark: int

    constructor (initial: int)
      ensures mark == initial
    {
      mark := initial;
    }

    method RaiseTo(version: int)
      modifies this
      ensures mark == if version > old(mark) then version else old(mark)
    {
      if version > mark {
        mark := version;
      }
    }
  }
}
