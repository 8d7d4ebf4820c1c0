/** The per-field binding policy of authz/decision_policy.py. */
module DecisionPolicy {
  import opened Wrappers
  import opened Capability
  import opened Service

  datatype ExpectedBinding = ExpectedBinding(
    requestId: string,
    actionDigest: string,
    authzStateDigest: string,
    stateVersion: string,
    grantId: string,
    grantVersion: string,
    approvalMode: string,
    subjectKind: string,
    disposition: string)

  datatype Field =
    | RequestIdField | ActionDigestField | StateDigestField | GrantIdField | GrantVersionField
    | StateVersionField | DecisionIdField | ApprovalModeField | SubjectKindField | DispositionField
    | DecidedAtField

  /** The order in which fields are checked, and so which mismatch is reported first. */
  const POLICY: seq<Field> := [
    RequestIdField, ActionDigestField, StateDigestField, GrantIdField, GrantVersionField, StateVersionField,
    DecisionIdField, ApprovalModeField, SubjectKindField, DispositionField, DecidedAtField]

  function Unless(ok: bool, detail: string): Option<string>
  {
    if ok then None else Some(detail)
  }

  function CheckField(f: Field, d: Decision, e: ExpectedBinding): Option<string>
  {
    match f
    case RequestIdField => Unless(d.requestId == e.requestId, "decision_request_mismatch")
    case ActionDigestField => Unless(d.actionDigest == e.actionDigest, "action_digest_mismatch")
    case StateDigestField => Unless(d.authzStateDigest == e.authzStateDigest, "decision_head_mismatch")
    case GrantIdField => Unless(d.grantId == e.grantId, "decision_grant_id_mismatch")
    case GrantVersionField => Unless(d.grantVersion == e.grantVersion, "decision_grant_version_mismatch")
    case StateVersionField => Unless(d.stateVersion == e.stateVersion, "decision_version_mismatch")
    case ApprovalModeField =>
      Unless(d.approvalMode in {"auto", "per_call"} && d.approvalMode == e.approvalMode,
             "decision_approval_mode_mismatch")
    case SubjectKindField =>
      Unless(d.subjectKind in {"os_account", "agent_key"} && d.subjectKind == e.subjectKind,
             "decision_subject_kind_mismatch")
    case DispositionField =>
      Unless(d.disposition in {AUTHORIZED, NEEDS_APPROVAL} && d.disposition == e.disposition,
             "decision_disposition_mismatch")
    // Consumed and time-checked by the gate, not compared here.
    case DecisionIdField => None
    case DecidedAtField => None
  }

  /** The first mismatch in the order of `fields`. */
  function FirstMismatch(fields: seq<Field>, d: Decision, e: ExpectedBinding): Option<string>
  {
    if fields == [] then None
    else
      match CheckField(fields[0], d, e)
      case Some(detail) => Some(detail)
      case None => FirstMismatch(fields[1..], d, e)
  }

  function CheckBinding(d: Decision, e: ExpectedBinding): Option<string>
  {
    FirstMismatch(POLICY, d, e)
  }

  /** The nine comparison-bound fields. */
  predicate AgreesOn(d: Decision, e: ExpectedBinding)
  {
    && d.requestId == e.requestId && d.actionDigest == e.actionDigest
    && d.authzStateDigest == e.authzStateDigest && d.stateVersion == e.stateVersion
    && d.grantId == e.grantId && d.grantVersion == e.grantVersion
    && d.approvalMode == e.approvalMode && d.subjectKind == e.subjectKind && d.disposition == e.disposition
  }

  predicate ClosedEnums(e: ExpectedBinding)
  {
    && e.approvalMode in {"auto", "per_call"} && e.subjectKind in {"os_account", "agent_key"}
    && e.disposition in {AUTHORIZED, NEEDS_APPROVAL}
  }

  lemma {:induction false} FirstMismatchIsFirst(fields: seq<Field>, d: Decision, e: ExpectedBinding)
    ensures FirstMismatch(fields, d, e).None? <==> forall j | 0 <= j < |fields| :: CheckField(fields[j], d, e).None?
    ensures FirstMismatch(fields, d, e).Some? ==>
              exists j :: 0 <= j < |fields| && CheckField(fields[j], d, e) == FirstMismatch(fields, d, e) &&
                          forall k | 0 <= k < j :: CheckField(fields[k], d, e).None?
  {
    if fields != [] {
      var rest := fields[1..];
      FirstMismatchIsFirst(rest, d, e);
      assert forall j | 0 < j < |fields| :: fields[j] == rest[j - 1];
      if CheckField(fields[0], d, e).None? && FirstMismatch(rest, d, e).Some? {
        var j :| 0 <= j < |rest| && CheckField(rest[j], d, e) == FirstMismatch(rest, d, e) &&
                 forall k | 0 <= k < j :: CheckField(rest[k], d, e).None?;
        assert CheckField(fields[j + 1], d, e) == FirstMismatch(fields, d, e);
      }
    }
  }

  /** The check passes exactly when all nine fields agree with a derivation in the closed enumerations. */
  lemma BindingIffAgrees(d: Decision, e: ExpectedBinding)
    ensures CheckBinding(d, e).None? <==> AgreesOn(d, e) && ClosedEnums(e)
  {
    FirstMismatchIsFirst(POLICY, d, e);
    var ok := forall j | 0 <= j < |POLICY| :: CheckField(POLICY[j], d, e).None?;
    if ok {
      assert CheckField(POLICY[0], d, e).None? && CheckField(POLICY[1], d, e).None?;
      assert CheckField(POLICY[2], d, e).None? && CheckField(POLICY[3], d, e).None?;
      assert CheckField(POLICY[4], d, e).None? && CheckField(POLICY[5], d, e).None?;
      assert CheckField(POLICY[7], d, e).None? && CheckField(POLICY[8], d, e).None?;
      assert CheckField(POLICY[9], d, e).None?;
    }
  }

  /** The first field that differs, in the order of the policy; a value outside its enumeration differs. */
  function FirstDifference(d: Decision, e: ExpectedBinding): Option<string>
  {
    if d.requestId != e.requestId then Some("decision_request_mismatch")
    else if d.actionDigest != e.actionDigest then Some("action_digest_mismatch")
    else if d.authzStateDigest != e.authzStateDigest then Some("decision_head_mismatch")
    else if d.grantId != e.grantId then Some("decision_grant_id_mismatch")
    else if d.grantVersion != e.grantVersion then Some("decision_grant_version_mismatch")
    else if d.stateVersion != e.stateVersion then Some("decision_version_mismatch")
    else EnumDifference(d, e)
  }

  function EnumDifference(d: Decision, e: ExpectedBinding): Option<string>
  {
    if !(d.approvalMode in {"auto", "per_call"} && d.approvalMode == e.approvalMode)
    then Some("decision_approval_mode_mismatch")
    else SubjectDifference(d, e)
  }

  function SubjectDifference(d: Decision, e: ExpectedBinding): Option<string>
  {
    if !(d.subjectKind in {"os_account", "agent_key"} && d.subjectKind == e.subjectKind)
    then Some("decision_subject_kind_mismatch")
    else if !(d.disposition in {"authorized", "needs_approval"} && d.disposition == e.disposition)
    then Some("decision_disposition_mismatch")
    else None
  }

  lemma MismatchStep(d: Decision, e: ExpectedBinding, k: nat, n: nat, f: Field)
    requires n == k + 1 && n <= |POLICY| && POLICY[k] == f
    ensures FirstMismatch(POLICY[k..], d, e) ==
            if CheckField(f, d, e).Some? then CheckField(f, d, e) else FirstMismatch(POLICY[n..], d, e)
  {
    assert POLICY[k..][1..] == POLICY[n..];
  }

  lemma DispositionMismatch(d: Decision, e: ExpectedBinding)
    ensures FirstMismatch(POLICY[9..], d, e) == CheckField(DispositionField, d, e)
  {
    MismatchStep(d, e, 9, 10, DispositionField);
    MismatchStep(d, e, 10, 11, DecidedAtField);
  }

  lemma SubjectMismatch(d: Decision, e: ExpectedBinding)
    ensures FirstMismatch(POLICY[8..], d, e) == SubjectDifference(d, e)
  {
    MismatchStep(d, e, 8, 9, SubjectKindField);
    DispositionMismatch(d, e);
  }

  lemma EnumMismatch(d: Decision, e: ExpectedBinding)
    ensures FirstMismatch(POLICY[6..], d, e) == EnumDifference(d, e)
  {
    MismatchStep(d, e, 6, 7, DecisionIdField);
    MismatchStep(d, e, 7, 8, ApprovalModeField);
    SubjectMismatch(d, e);
  }

  lemma VersionMismatch(d: Decision, e: ExpectedBinding)
    ensures FirstMismatch(POLICY[4..], d, e) ==
            if d.grantVersion != e.grantVersion then Some("decision_grant_version_mismatch")
            else if d.stateVersion != e.stateVersion then Some("decision_version_mismatch")
            else EnumDifference(d, e)
  {
    MismatchStep(d, e, 4, 5, GrantVersionField);
    MismatchStep(d, e, 5, 6, StateVersionField);
    EnumMismatch(d, e);
  }

  lemma HeadMismatch(d: Decision, e: ExpectedBinding)
    ensures FirstMismatch(POLICY[2..], d, e) ==
            if d.authzStateDigest != e.authzStateDigest then Some("decision_head_mismatch")
            else if d.grantId != e.grantId then Some("decision_grant_id_mismatch")
            else FirstMismatch(POLICY[4..], d, e)
  {
    MismatchStep(d, e, 2, 3, StateDigestField);
    MismatchStep(d, e, 3, 4, GrantIdField);
  }

  /** The table-driven check reports that difference. */
  lemma MismatchIsFirstDifference(d: Decision, e: ExpectedBinding)
    ensures CheckBinding(d, e) == FirstDifference(d, e)
  {
    assert POLICY[0..] == POLICY;
    MismatchStep(d, e, 0, 1, RequestIdField);
    MismatchStep(d, e, 1, 2, ActionDigestField);
    HeadMismatch(d, e);
    VersionMismatch(d, e);
  }

  /** The scan of `check_binding`. */
  method ScanPolicy(d: Decision, e: ExpectedBinding) returns (mismatch: Option<string>)
    ensures mismatch == CheckBinding(d, e)
  {
    for i := 0 to |POLICY|
      invariant FirstMismatch(POLICY[i..], d, e) == CheckBinding(d, e)
    {
      mismatch := CheckField(POLICY[i], d, e);
      if mismatch.Some? {
        return;
      }
      assert POLICY[i..][1..] == POLICY[i + 1..];
    }
    mismatch := None;
  }
}
