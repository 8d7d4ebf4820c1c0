# Verified model of the send gateway

The gateway sends a mail only after a chain of decisions: the payload is put into canonical bytes and
proposed, a user-signed grant is checked against an authoritative head that an untrusted relay
delivers, a decision service answers for exactly those bytes, the send machine confirms and
dispatches, and a two-phase record attributes the send to the decision. This project models that chain
and proves what it is meant to guarantee.

| file | models |
|---|---|
| `Encodings`, `Ordering`, `Decimals` | UTF-8, UTF-16 and member order, decimal numerals |
| `Jcs`, `JcsOrder`, `JcsParser`, `JcsText` | the RFC 8785 serializer, its independence of insertion order, an inverse parser, and canonical text as a relation |
| `Capability`, `Service`, `Payload` | signing inputs, envelopes, grants, decisions, single-use state, the approved payload |
| `AuthzState` | the signed head, its parser, the control plane that advances it, ideal root signatures |
| `DecisionPolicy`, `Gate`, `GateChecks` | the gate's checks, and the exact condition of each |
| `GateMachine`, `AuthorizationGate` | one gate call in atomic steps, and the class |
| `GateFaults`, `GateVerdicts` | the errors no handler of the gate catches: when each stage raises one, and when a call reaches a verdict |
| `GateDelivery`, `Authorizations`, `Denials` | from the bytes that come in to the verdict and its row: which deliveries pass, exactly when a call authorizes, and what a denial says |
| `GateRuns`, `HeadOrder`, `AntiRollback` | any number of interleaved gate calls: single use and audit, the order of accepted heads, revocation |
| `ProposalRecords`, `Proposals`, `Preparation` | proposal creation, and on which requests it succeeds |
| `ProposeRuns`, `ProposeOrigins` | runs interleaved at single store operations, and the requests everything in the store comes from |
| `Persistence`, `TokenStore` | the SQLite spine on a failing connection, and the token store on top of it |
| `SendFsm`, `SendRuns`, `SendSchedules` | the send machine, its ledger, and any number of its calls interleaved at single writes |
| `Orchestrator`, `AuthorizedSend`, `SoloRuns` | `authorize_and_send` over gate, send machine and record log: the interleaved machine, the class, and their agreement |
| `OrchestratorRuns`, `Attribution`, `RecordClock`, `DistinctSends` | what its runs keep: attribution and records, clock order, one send per proposal |
| `Revocation` | revocation from the control plane through the relay and the gate to the sender |
| `EndToEnd` | propose calls and sends over one proposal store: what is sent is what was proposed and authorized |

How concurrency and crashes are modelled. A protocol is a machine whose steps are the source's atomic
operations: one store operation, one `consume_once`, one read or raise of the mark, one append, one
sender call. A run is any sequence of steps of any number of calls, in any order; a crash is a call
that takes no further step, so a property of every reachable state is a property of every crash
point. Everything the environment decides (replies of relay, decision service and sender, clock
readings, failing local state, failing appends) is an input of the step, unconstrained unless a lemma says so.
The classes are the source's objects; each method is proved to do what the machine does when nothing is
interleaved (`Complete`), and `SoloRuns.SoloIsRun` and `SendRuns.WholeCallIsADrive` show that
such a call is one of the runs the theorems range over.

How definitions are pinned. A method is tied to a function of its inputs or of the old state, and each such
function to a statement that does not name it: the text of RFC 8785 character by character, the fields of
a JSON body key by key, the row of a table by the calls made on it, a record by the request behind it, a
verdict by everything it takes. The numbers and strings in those statements are written out.

What is assumed. SHA-256, hex decoding, key loading, signature verification, RFC 3339 parsing and which
numerals Python's `int` reads (it has a digit limit) are function fields of `Capability.Library` about
which nothing is assumed, except where a lemma names `AuthzState.Unforgeable`: whatever verifies under the user root was signed, either as a head of one
control plane or as an artifact of another type. Digest properties are stated at the preimage. A
Python `str` is a Dafny `string`, which excludes lone surrogates.

What the code does not give, each with the exact condition under which it does:

- Accepted head versions can decrease between overlapping gate calls, because reading and raising the
  mark are two steps (`HeadOrder.OverlapCanRegress`, from a gate just constructed). Once the mark has
  reached a version, a call can still accept an older head exactly when it has already read the mark
  with that head and is about to raise it (`HeadOrder.AcceptedOrderIff`).
- A proposal can be sent twice by overlapping calls, because `confirm` checks the status and writes it
  in two steps (`SendSchedules.OverlapFromEmpty`, `DistinctSends.OverlappingCallsSendTwice`). Every
  interleaving of any number of calls is at most once per proposal if each write of CONFIRMED is
  undisputed: the proposal is unsent, and no other call has confirmed it and not yet sent it
  (`SendSchedules.AtMostOncePerProposal`, `DistinctSends.SenderCallsHaveDistinctProposals`). Every
  write of a run is undisputed if each finds its proposal still PENDING, which a compare-and-set would
  enforce (`SendSchedules.AtMostOnceByCompareAndSet`), or if no call checks a proposal while another is
  between check and write; calls may overlap in every other way, and a stopped call leaves its window.
  The condition is exact (`SendSchedules.DoubleSendIff`, `DistinctSends.DoubleSendIff`): from a disputed
  window, calls already past the check can send twice, and without one they cannot.
- `dispatch` alone sends again after a crash between the sender call and the status write
  (`SendRuns.BareDispatchResends`); it sends exactly when it finds the proposal CONFIRMED
  (`SendRuns.DispatchSendsIffConfirmed`).
- A revocation is not permanent. `supersede` on a revoked grant lists it again and leaves the revocation
  standing, so a relay that drops the revocation artifact gets it admitted:
  `AuthzState.SupersedeRelistsRevoked` is the run `add`, `revoke`, `supersede` from an empty control
  plane. After a revocation a head lists the grant exactly when a later operation has listed it and none
  since has revoked it (`AuthzState.RevokedUntilRelisted`), and the revocation stands exactly until an
  `add` (`AuthzState.RevocationStandsUntilAdded`). A head delivered without the artifact makes the grant
  active exactly when it was listed last at that version, one delivered with it exactly when an `add` has
  also lifted the revocation (`AuthzState.ActiveAfterRevocationIff`); the grant version is inactive for
  good exactly when no later operation lists that version (`AntiRollback.RevocationIsInactiveIff`).
- A body that `HeadState` builds parses back exactly when its version is not negative and short enough for
  `int` to read, and its entries are well formed (`AuthzState.HeadRoundTrip`); the parser's patterns also admit one trailing newline.
- The docstring of `find` (authz/dispatch_record.py:148-157) calls the binding a quadruple; the code
  compares proposal, request and digest and not the decision id. The model follows the code.
- A gate call can end with neither an authorization nor an audit row, because some errors are not among
  those its handlers catch. No signature is needed: `signing_input` runs before `verify`, so a relay that
  delivers an unsigned head whose body holds the number 1.5 ends any call that way, the state unchanged
  (`GateFaults.UnsignedHeadFaults`). A stage raises such an error exactly when the body of an artifact of
  the type asked for is outside the serializer's domain, a signed numeral is too long for `int`, the
  subject's `issued_at` or the decision's `decided_at` is beyond the safe integers, the peer resolver or
  the relay raises something else, or the audit log refuses a denial (`GateVerdicts.StepFaultsIff`, for
  every interleaving). With a working log a call ends in a verdict with its one row exactly when nothing
  it consults raises such an error, each thing consulted only if all before it passed
  (`GateVerdicts.VerdictIff`).

## Model

| member | source | states |
|---|---|---|
| `Encodings.Utf8RoundTrip` | canonicalizer/jcs.py:120-122 | decoding undoes the final UTF-8 encoding, for every string |
| `Encodings.Utf8Layout` | canonicalizer/jcs.py:120-122 | each character takes the bytes of its shortest form, lead byte and continuation bytes |
| `Ordering.AscendingUnique` | canonicalizer/jcs.py:108-116 | a set has one ascending enumeration under a strict total order, so a sort depends on the members alone |
| `Ordering.KeyOrderIsUnitOrder` | canonicalizer/jcs.py:82-90 | UTF-16-BE byte order is UTF-16 code-unit order, and it orders any two distinct keys one way only |
| `Ordering.KeyOrderStrictTotal` | canonicalizer/jcs.py:82-90 | the member order is irreflexive, transitive and total |
| `Ordering.UnitOrderIsNotCodePointOrder` | canonicalizer/jcs.py:82-90 | there are keys that code-unit order and code-point order put in opposite order |
| `Jcs.SerializeString` | canonicalizer/jcs.py:49-64 | the loop writes the one text RFC 8785 allows: a quote, for each character its two-character escape if it is one of the seven, `\u00` and two lower-case hex digits if it is another control character, and itself otherwise, and a quote |
| `JcsOrder.SortAscending` | canonicalizer/jcs.py:108-116 | the members come out strictly ascending by their UTF-16-BE keys |
| `JcsOrder.InsertionOrderIrrelevant` | canonicalizer/jcs.py:93-117 | at every depth, a dict serializes as the map it denotes, whatever its insertion order |
| `JcsParser.ParseQuoted` | canonicalizer/jcs.py:49-64 | a quoted string followed by anything parses back to the string and the rest |
| `JcsParser.ParseDecimal` | canonicalizer/jcs.py:67-79 | a printed integer followed by a delimiter parses back to it |
| `JcsParser.RoundTripValue` | canonicalizer/jcs.py:93-117 | a serialized value of any depth, followed by anything a value can be followed by, parses back to it and the rest |
| `JcsParser.CanonicalRoundTrip` | canonicalizer/jcs.py:120-122 | parsing the canonical bytes of a value gives the value |
| `JcsParser.CanonicalInjective` | canonicalizer/jcs.py:120-122 | equal canonical bytes, equal values |
| `JcsParser.SerializeDomain` | canonicalizer/jcs.py:67-117 | a value serializes exactly when no float and no unsafe integer occurs in it at any depth |
| `JcsParser.CanonicalEquality` | canonicalizer/jcs.py:93-122 | Python values get equal bytes exactly when they denote the same JSON value, and bytes at all exactly when that value is in the domain |
| `JcsText.SerializesCanonicalText` | canonicalizer/jcs.py:49-122 | a Python value of any depth is serialized to a text exactly when that text is its canonical text, stated as a relation: characters as above, integers in the safe range without leading zero or negative zero, lists and objects with single commas and colons and no blank, members by UTF-16 code units |
| `Decimals.IntegerIsWritten` | canonicalizer/jcs.py:67-79 | the printed integer is the one numeral of that value without a leading zero, signed exactly if negative |
| `JcsText.MemberOrderIsSorted` | canonicalizer/jcs.py:82-90 | the sorted keys are the one sequence of all keys in which the first differing UTF-16 unit, or a proper prefix, decides |
| `JcsParser.SerializePrintable` | canonicalizer/jcs.py:49-64 | canonical text holds no control character, so no zero byte |
| `Capability.SigningInputInjective` | authz/capability.py:39-45 | equal signing inputs have equal artifact types and equal bodies, for every type string |
| `Capability.UntaggedIsNotSigningInput` | authz/capability.py:39-45 | canonical bytes without a tag are never a signing input |
| `Capability.GrantIdPattern` | authz/capability.py:123-138 | a grant id matches exactly if it is 32 lower-case hex digits, with one newline allowed after them |
| `Capability.DecimalPattern` | authz/capability.py:118-145 | a version matches exactly if it is a printed natural number, with one newline allowed after it, and is read as that number |
| `GateChecks.GrantIsRead` | authz/capability.py:127-233 | a grant body is read to a grant exactly when it has the eleven keys and no other, says each field as the grant does and in its form, for `gmail` `send`, and ends after it begins: a signature over it covers nothing the gate does not know |
| `Service.DecisionIsTagged` | authz/service.py:154-155 | a decision's signing input is the tagged input of type `decision` |
| `Service.DecisionInputSeparate` | authz/service.py:135-155 | it coincides with another artifact's only under type `decision` and its own body, with another decision's only if every signed field agrees, with untagged bytes never |
| `Service.RequestBindingInjective` | authz/service.py:121-132 | equal request bindings have equal grant, request, digest, time and channel |
| `Service.RequestFields` | authz/service.py:121-132 | an agent signs grant id, request id, payload digest, time and channel, each under its own key, and nothing else |
| `Service.LockedConsumer.ConsumeOnce` | authz/service.py:181-193 | true exactly for a key not consumed before; the first digest stands |
| `Service.HighWaterMark.RaiseTo` | authz/service.py:196-215 | the mark becomes the larger of the two |
| `Payload.AcceptedIsApproved` | canonicalizer/payload.py:80-167 | an accepted input is changed in nothing but the defaulting of its optional lists |
| `Payload.ApprovedContentEquivalence` | canonicalizer/payload.py:103-172 | accepted inputs have equal canonical bytes exactly when account, recipients, subject, body, attachments and message id agree |
| `Payload.IdempotencyKeyIrrelevant` | canonicalizer/payload.py:103-167 | with or without any idempotency key, the result is the same |
| `Payload.NormalizationIdempotent` | canonicalizer/payload.py:103-167 | a canonical payload normalizes to itself without a message id and is rejected with one |
| `Preparation.BuildIff` | canonicalizer/payload.py:103-167 | the payload is built exactly from a request in the closed schema, stated field by field, with no empty message id; otherwise the error is the schema error |
| `Preparation.PrepareIff` | actionset/prepare.py:34-69 | a request is prepared exactly when an id is there if demanded, clock and time to live are sane, it is in the closed schema, has no attachments and a text body; then to a payload that carries its fields, the digest of its canonical bytes and `now + ttl`; otherwise with the error of the first check that fails, for attachments the one that says so |
| `Preparation.AdmitKeyIff` | gateway/proposal_api.py:150-158 | the idempotency key is the string of that name, none if absent or null, and anything else is refused |
| `AuthzState.CollectEntries` | authz/state.py:121-148 | the entry loop yields the set of parsed pairs, or the first entry's error |
| `AuthzState.HeadRoundTrip` | authz/state.py:109-148 | a head body parses exactly when version and entries are canonical and `int` reads the version, and then to its version and active set |
| `AuthzState.HeadBytesPinMembership` | authz/state.py:246-267 | heads with equal canonical bytes have the same version and the same active grants |
| `AuthzState.MembershipOf` | authz/state.py:76-97 | revoked exactly when seen revoked; otherwise active exactly when listed at that version, superseded exactly when listed only at another |
| `AuthzState.HeadState.RevokeGrant` | authz/state.py:232-235 | drops the grant, advances the version, notes the revocation at the new version |
| `AuthzState.HeadState.SupersedeGrant` | authz/state.py:237-239 | lists the new version and advances the head, revocations untouched |
| `AuthzState.HeadState.AddGrant` | authz/state.py:241-244 | lists the grant, clears its revocation and advances the head |
| `AuthzState.HeadState.HeadSigningInput` | authz/state.py:246-250 | signs the tagged body of the current version and active set |
| `AuthzState.RevokedUntilRelisted` | authz/state.py:232-244 | at every later version, a revoked grant is listed exactly when some operation since has listed it and none after that has revoked it |
| `AuthzState.VersionAfterRevocation` | authz/state.py:232-244 | and it is listed at a version exactly when the last operation on it since listed that version |
| `AuthzState.RevocationStandsUntilAdded` | authz/state.py:232-244 | the revocation itself stands exactly until an `add` that no later revocation undoes; `supersede` does not lift it |
| `AuthzState.ActiveAfterRevocationIff` | authz/state.py:76-97 | after a revocation, a head delivered without the artifact makes the grant active exactly when it was listed last at that version; one delivered with it, exactly when an `add` has also lifted it |
| `AuthzState.SupersedeRelistsRevoked` | authz/state.py:237-239 | the run `add`, `revoke`, `supersede` from an empty control plane ends with the grant revoked in a head delivered with the revocation, and active in one delivered without it |
| `GateDelivery.PublishedIsAccepted` | authz/state.py:166-193 | a head the control plane publishes, signed and delivered with signed revocations, is accepted with its version, its grants and exactly those revocations |
| `GateDelivery.DroppedRevocationAdmits` | authz/state.py:237-267 | on the delivered JSON: after add, revoke and supersede the same signed head counts the grant revoked with its signed revocation beside it, and active without |
| `AuthzState.VerifiedHeadIsPublished` | authz/state.py:121-148 | under ideal signatures a head that verifies and parses is one the control plane published, with its version and active set |
| `DecisionPolicy.FirstMismatchIsFirst` | authz/decision_policy.py:160-171 | the scan reports the first failing field in order, and nothing exactly when none fails |
| `DecisionPolicy.BindingIffAgrees` | authz/decision_policy.py:84-171 | the check passes exactly when all nine bound fields agree with a derivation inside the closed enumerations |
| `Gate.CollectRevocations` | authz/gate.py:336-353 | the loop yields the set of verified revoked ids, or stops at the first artifact that does not verify |
| `GateChecks.LocalDecisionsIff` | authz/gate.py:357-426 | the local decisions pass exactly for a listed, unrevoked grant, in its interval with skew, within the validity cap, for the bound account and a proven subject: the peer account, or a fresh signature on this channel |
| `GateChecks.LocalDenials` | authz/gate.py:357-426 | a refused local decision carries code and detail of the first that failed, in the order membership, time, policy, account, subject |
| `DecisionPolicy.ScanPolicy` | authz/decision_policy.py:160-171 | the loop returns the first mismatch of the policy order |
| `DecisionPolicy.MismatchIsFirstDifference` | authz/decision_policy.py:84-171 | the table-driven check reports the detail of the first field that differs or lies outside its enumeration, in the order of the policy |
| `GateChecks.ResponseIff` | authz/gate.py:230-260 | a decision passes exactly when its signature verifies, each of its nine fields equals the request, payload, head or grant it is about, its time lies within 300 seconds of the call, and at most five seconds passed |
| `GateChecks.ResponseDenials` | authz/gate.py:230-264 | a refused decision carries code and detail of the first that failed: signature, fields, window, deadline |
| `GateService.AuthorizationGate.Authorize` | authz/gate.py:170-288 | verdict, mark, both consumers and audit log are those of the machine's uninterrupted run |
| `GateService.AuthorizationGate.SyncAndAccept` | authz/gate.py:292-334 | ends the call as the machine does, or hands on the accepted head with the mark raised |
| `GateDelivery.RevocationsIff` | authz/gate.py:336-353 | the revocations delivered pass exactly when each is a closed envelope signed as `authz_revocation` with a well-formed body, and count as revoked exactly the grants they name |
| `GateDelivery.HeadBodyIff` | authz/state.py:121-148 | a head body is read exactly when it has the two keys, a readable version and well-formed entries, to that version and the set of its entries |
| `GateDelivery.AcceptedIff` | authz/gate.py:302-334 | what the relay delivers is accepted with a head exactly when it is a closed wrapper, the head is signed as `authz_state`, its body says that version and those grants, the digest is that of its canonical bytes, and the revocations delivered name exactly the grants counted as revoked |
| `GateDelivery.DeliveredRevocationDenies` | authz/gate.py:302-373 | a call to which the relay delivers a signed revocation of a grant, beside whatever head, never authorizes that grant, whatever is interleaved |
| `Authorizations.PresentsIff` | authz/gate.py:430-451 | a grant passes exactly when its envelope is closed and signed as `grant`, its body says every field of it, and it names the pinned issuer |
| `Authorizations.AuthorizesIff` | authz/gate.py:170-288 | an uninterrupted call authorizes if and only if the delivery, the mark, the grant, the local decisions, the consumers, the decision and the log all allow it, each stated on what came in |
| `Authorizations.AuthorizationLeaves` | authz/gate.py:170-288 | and then it returns that decision with its arrival time, has raised the mark to the head, consumed request and decision for this payload, and written one row of the gate's own derivation |
| `Authorizations.AuthorizationMeans` | authz/gate.py:170-288 | under every interleaving an authorization stands on a signed delivered head that lists the grant unrevoked, a signed grant read in full and in force, a proven subject, and a signed timely decision agreeing on all nine fields |
| `Denials.StepDenials` | authz/gate.py:181-288 | under every interleaving a call is denied with the code and detail of the check that failed, and with the grant exactly if it had verified |
| `Denials.DenialIsWritten` | authz/gate.py:468-488 | a denial row names the verified grant, or what the envelope claims marked as unverified, and nothing of any decision |
| `GateRuns.RequestKeyInjective` | authz/gate.py:197-199 | the consumer key determines grant and request for well-formed grant ids |
| `GateRuns.SingleUse` | authz/gate.py:197-275 | under every interleaving: `decide` at most once per grant and request, one authorization per decision id, a decision id consumed only by a call that passed every other check |
| `GateRuns.AuditFidelity` | authz/gate.py:265-288 | under every interleaving: a call has a row exactly when it reached a verdict, then exactly one; a success row exactly for an authorization, every field of it from request, head and grant and only the decision id from the service; and the decision agrees with the gate on all nine fields |
| `GateFaults.UnsignedHeadFaults` | authz/gate.py:302-316 | an unsigned relay payload makes any call in any state end with no verdict, no row and no change of state |
| `GateFaults.HeadFaultIff` | authz/gate.py:302-316 | verifying the head raises an uncaught error exactly when its body is outside the domain, or it verifies and its version numeral is too long |
| `GateFaults.RevocationsFaultIff` | authz/gate.py:336-353 | scanning the revocations raises one exactly when the first that does not pass has a body outside the domain |
| `GateFaults.RelayFaultIff` | authz/gate.py:302-316 | opening what the relay delivered raises one exactly when it unwraps and its head faults, or its head passes and its revocations fault |
| `GateFaults.GrantFaultIff` | authz/gate.py:430-451 | verifying the grant raises one exactly when its envelope parses and its body is outside the domain, or it verifies and a numeral is too long |
| `GateFaults.SubjectFaultIff` | authz/gate.py:392-426 | the subject check raises one exactly when the peer resolver raises, or a presented agent signature under a loadable key would cover an unsafe time |
| `GateFaults.DecisionFaultIff` | authz/gate.py:230-260 | judging a decision raises one exactly when its time is beyond the safe integers, whatever its signature and fields |
| `GateVerdicts.StepFaultsIff` | authz/gate.py:170-334 | at every step of every interleaving a call ends without a verdict exactly when the stage it is in faults |
| `GateVerdicts.VerdictIff` | authz/gate.py:170-288 | with a working log a call ends in a verdict with exactly one fitting row exactly when nothing it consults faults, and otherwise leaves neither |
| `HeadOrder.AcceptedVersionsNeverDecrease` | authz/gate.py:318-334 | a call that reads the mark after another raised it raises it only to heads at least as new, whatever the relay delivers, whatever is interleaved, and however either call then ends |
| `HeadOrder.AcceptedOrderIff` | authz/gate.py:318-334 | once the mark has reached v, every continuation makes a call accept only heads from v on exactly when that call has not already read the mark with an older one |
| `HeadOrder.OverlapCanRegress` | authz/gate.py:318-334 | from a gate just constructed there is a run in which one call accepts a head and then another accepts an older one |
| `AntiRollback.RevokedNeverAuthorized` | authz/gate.py:292-373 | once the mark has reached r, no call that reads it from then on authorizes a grant inactive at every version from r, against a relay that may replay, withhold or drop anything |
| `AntiRollback.RevocationIsInactiveIff` | authz/state.py:232-244 | a revoked grant version is inactive at every version from the revocation on exactly when no later operation lists that version |
| `Proposals.Prepare` | gateway/proposal_api.py:170-197 | what is about to be stored hashes to the digest handed out, expires in the future, and the digest tripwire never fires |
| `Proposals.ProposalService.FindByIdempotency` | store/proposals.py:124-134 | the winner's record, nothing without an index entry, an error for a dangling or malformed one |
| `Proposals.ProposalService.Create` | store/proposals.py:91-122 | record first, claim last, record rolled back when the claim is lost, nothing written for bad timestamps or a duplicate id |
| `Proposals.ProposalService.Propose` | gateway/proposal_api.py:141-220 | outcome and both stores are those of the machine's uninterrupted run |
| `ProposeRuns.NoDanglingClaim` | gateway/proposal_api.py:199-220 | at every step and crash point of any number of calls on any requests a claim implies its record with that key, and a record implies its payload, whose canonical bytes hash to the digest in the record |
| `ProposeRuns.OneProposalPerKey` | gateway/proposal_api.py:159-220 | of any number of interleaved calls with one key, all that return give the same proposal id |
| `ProposeRuns.EndsClean` | gateway/proposal_api.py:209-219 | a call returns its own stored id, or the winner's id with neither record nor payload left, or fails before any write |
| `ProposeOrigins.PayloadsAreRequested` | gateway/proposal_api.py:159-220 | at every step and crash point every payload in the store is a text mail without attachments that carries the fields of some preparable request |
| `ProposeOrigins.RecordsAreRequested` | gateway/proposal_api.py:199-208 | every record is that of one request: its id, the digest of the payload stored beside it, its time, its expiry and its key |
| `ProposeOrigins.ReturnedIsStored` | gateway/proposal_api.py:199-220 | the identifiers a call returned are, from then on, those of a stored record and payload that one request asked for |
| `ProposeOrigins.StepIsStoreCall` | store/proposals.py:91-122 | each step of a propose call is a single put, claim or delete of one of the two keyed stores, with that call's effect |
| `Persistence.SqliteKV.Get` | gateway/persistence.py:135-140 | returns exactly on a live connection whose SELECT does not fail, and then the row of the key or none |
| `Persistence.SqliteKV.Put` | gateway/persistence.py:142-157 | returns exactly if execute and commit succeed, and then the durable table is the old one with the key at the value; otherwise the table is as it was |
| `Persistence.SqliteKV.Claim` | gateway/persistence.py:159-185 | won exactly if the key was absent, and then the key holds the value; a lost or failing claim leaves every row as it was |
| `Persistence.SqliteKV.Delete` | gateway/persistence.py:187-195 | removes exactly the key if it returns, and nothing otherwise |
| `Persistence.SqliteKV.Update` | gateway/persistence.py:197-235 | writes exactly the row the transform decides on for the row it read; nothing on ABORT or failure |
| `Persistence.SqliteAppendLog.Append` | gateway/persistence.py:269-282 | appends exactly the entry if it returns, and nothing otherwise |
| `Persistence.SqliteAppendLog.Entries` | gateway/persistence.py:284-289 | the entries as this connection sees them, exactly if it is live and the SELECT does not fail |
| `Persistence.FaultRefinement` | gateway/persistence.py:100-235 | under every pattern of failing selects, executes, commits and rollbacks a live connection has nothing pending between calls, and what is durable is the fold of exactly the calls that returned |
| `Persistence.EvictedForever` | gateway/persistence.py:100-119 | after a failed rollback every later call raises `ConnectionEvicted` and changes nothing |
| `Persistence.KvStepTable` | gateway/persistence.py:135-235 | under every fault a returned call changes its own key alone, a claim only if the key was free, and a failing call changes nothing |
| `Persistence.FirstClaimStands` | gateway/persistence.py:159-185 | in every run with any faults, a free key that is written only by claims holds the value of the first claim that returned, and none while no claim has |
| `Persistence.AppendLogFidelity` | gateway/persistence.py:269-289 | the log holds, in order, exactly the entries whose append returned |
| `TokenStore.SealedTokenStore.ReserveGeneration` | gateway/sealed_token_store.py:106-127 | the reserved number is one above the larger of the last one and the barrier, it is stored, and nothing else changes |
| `TokenStore.SealedTokenStore.VoidGeneration` | gateway/sealed_token_store.py:133-141 | the barrier becomes the larger of the two, and nothing else changes |
| `TokenStore.SealedTokenStore.SaveCommit` | gateway/sealed_token_store.py:143-200 | lands exactly when neither scope voids it; the commit stored and returned has each argument under its own field and is not invalidated, the sealed bytes are stored with it, and nothing else changes; a refusal writes nothing |
| `TokenStore.SealedTokenStore.MarkAckConfirmed` | gateway/sealed_token_store.py:212-235 | true exactly when operation, result and version name the stored commit, and then only its pending flag is cleared |
| `TokenStore.SealedTokenStore.InvalidateCommit` | gateway/sealed_token_store.py:237-257 | adds the operation to the void list once in every case; true exactly when the stored commit is its own, and then marks it |
| `TokenStore.SealedTokenStore.ClearCredentials` | gateway/sealed_token_store.py:259-279 | removes the sealed bytes and nothing else |
| `TokenStore.BitMatchesVoidsAlways` | gateway/sealed_token_store.py:163-257 | in every run the commit's invalidated bit is membership of its operation in the void set |
| `TokenStore.DeadForever` | gateway/sealed_token_store.py:133-279 | a void at either scope outlives every later call, failing calls and clearing included |
| `TokenStore.VoidedGenerationNeverCommits` | gateway/sealed_token_store.py:133-200 | after `void_generation(g)` a save with generation at most g is refused and changes nothing |
| `TokenStore.InvalidatedOperationNeverCommits` | gateway/sealed_token_store.py:163-257 | after `invalidate_commit(op)` a save for op is refused and changes nothing, even if nothing was committed then |
| `TokenStore.NeverRecoverableAgain` | gateway/sealed_token_store.py:237-279 | a commit that is not recoverable never is again |
| `TokenStore.SealedBelongsToCommit` | gateway/sealed_token_store.py:163-200 | sealed bytes and commit are those of one call, the last save that landed |
| `TokenStore.ReservedGenerationsAreFresh` | gateway/sealed_token_store.py:106-127 | a reserved generation exceeds the barrier in force and every earlier reservation |
| `TokenStore.PendingClearedOnlyByMatch` | gateway/sealed_token_store.py:212-235 | only an acknowledgement of the stored commit clears its pending flag; a stale one changes nothing |
| `TokenStore.PendingUntilAcknowledged` | gateway/sealed_token_store.py:143-235 | in every run the last save that landed is stored under its arguments, pending exactly if it asked for it and no acknowledgement since has named it |
| `TokenStore.AcknowledgementAnswers` | gateway/sealed_token_store.py:212-235 | the acknowledgement that names the last landed save answers true and clears its flag; any other answers false and changes nothing |
| `SendFsm.SendFSM.Confirm` | sendfsm/fsm.py:85-117 | result, status and ledger are those of the machine's uninterrupted confirm |
| `SendFsm.SendFSM.Dispatch` | sendfsm/fsm.py:119-164 | attempt row, sender call, status and outcome row as the machine runs them |
| `SendFsm.SendFSM.Expire` | sendfsm/fsm.py:178-191 | a pending proposal past its expiry fails, with its row |
| `SendFsm.SendFSM.ConfirmAndDispatch` | gateway/send_path.py:156-169 | confirm, and dispatch exactly when that succeeded |
| `SendFsm.SendFSM.SetStatus` | store/proposals.py:150-154 | rewrites the status of one proposal and nothing else; a missing proposal is reported and nothing written |
| `SendRuns.ConfirmOutcome` | sendfsm/fsm.py:85-117 | a confirm succeeds exactly on a pending proposal before its expiry, by a human or on the enabled path of an unreachable agent, and then changes status and ledger by one row; otherwise it raises the error of the first check that fails and changes nothing |
| `SendRuns.DispatchOutcome` | sendfsm/fsm.py:119-176 | a dispatch sends exactly a confirmed proposal, leaving attempt row, sender call, the status for the report and its outcome row; otherwise it raises the error for the status it found and changes nothing |
| `SendRuns.ExpireOutcome` | sendfsm/fsm.py:178-191 | an expire fails exactly a pending proposal past its expiry, with its row, and otherwise changes nothing |
| `SendRuns.WholeCallIsADrive` | gateway/send_path.py:156-169 | the class method is a drive that is not cut short |
| `SendSchedules.AtMostOncePerProposal` | gateway/send_path.py:156-169 | for any number of confirm-and-dispatch and expire calls on any proposals, interleaved at single writes and stopping anywhere: if each write of CONFIRMED finds its proposal unsent and not confirmed by another call that has yet to send it, the sender runs at most once per proposal |
| `SendSchedules.AtMostOnceByCompareAndSet` | sendfsm/fsm.py:94-112 | at most once per proposal under every interleaving in which each write of CONFIRMED finds its proposal still PENDING |
| `SendSchedules.AtMostOnceWithWindowsApart` | sendfsm/fsm.py:94-112 | so do all writes of a run in which no call checks a proposal while another is between its check and its write |
| `SendSchedules.AtMostOnceAcrossCrashes` | gateway/send_path.py:156-169 | so do calls one after the other, each cut after any step |
| `SendSchedules.DoubleSendIff` | sendfsm/fsm.py:94-164 | the condition is exact: the calls that have passed the check can send a proposal twice exactly when one is still before its write while another is on its way or the proposal has been sent |
| `SendSchedules.OverlapFromEmpty` | sendfsm/fsm.py:94-112 | two overlapping calls on one live proposal have a run from an empty store that sends it twice |
| `SendSchedules.SendsAreWrittenAhead` | sendfsm/fsm.py:132-138 | write-ahead: at every interleaving and crash point the ledger holds at least as many SEND_ATTEMPTED rows of a proposal as the sender has been called for it, every dispatch writing its own row first |
| `SendRuns.BareDispatchResends` | sendfsm/fsm.py:119-164 | after a crash between sender call and status write, `dispatch` sends a second time |
| `SendRuns.DispatchSendsIffConfirmed` | sendfsm/fsm.py:119-164 | `dispatch` calls the sender exactly when it finds the proposal confirmed |
| `SendRuns.StatusAgreesWithLedger` | sendfsm/fsm.py:85-191 | in every run of completed calls each ledger trace is one of the four legal histories, the status is its replay, and confirmation preceded expiry |
| `Attribution.SenderCallsAreAttributed` | authz/orchestrator.py:69-133 | whatever is interleaved and wherever calls stop, each sender call is preceded by an `authorized` row for that proposal's digest, a started row for the same decision, request, proposal and digest, and a verified auto-mode grant |
| `Attribution.SenderCallsHaveDistinctDecisions` | authz/orchestrator.py:69-133 | distinct sender calls come from distinct calls and rest on distinct decision ids |
| `DistinctSends.SenderCallsHaveDistinctProposals` | authz/orchestrator.py:88-113 | for any number of calls interleaved in any way: if each write of CONFIRMED is undisputed, distinct sender calls are for distinct proposals |
| `DistinctSends.CompareAndSetGivesDistinctProposals` | sendfsm/fsm.py:94-112 | the same if each write of CONFIRMED finds its proposal still PENDING |
| `DistinctSends.ApartCallsHaveDistinctProposals` | authz/orchestrator.py:88-113 | the same for every run in which the windows between check and write on one proposal do not overlap |
| `DistinctSends.SequentialCallsHaveDistinctProposals` | authz/orchestrator.py:88-113 | the same for calls one after the other, each stopping anywhere |
| `DistinctSends.DoubleSendIff` | authz/orchestrator.py:88-113 | the condition is exact in every world undisputed writes lead to: the calls past the check can send a proposal twice exactly when one is before its write while another is on its way or the proposal has been sent |
| `DistinctSends.OverlappingCallsSendTwice` | authz/orchestrator.py:69-113 | two requests for one live proposal that the gate would authorize one after the other have a run that sends it twice |
| `DistinctSends.SendsAreWrittenAhead` | sendfsm/fsm.py:132-138 | the ledger stays ahead of the sender in every run of `authorize_and_send` calls |
| `Revocation.RevokedNeverSends` | authz/orchestrator.py:69-113 | once the mark has reached r, no call that reads it from then on calls the sender under a grant inactive at every version from r, against a relay that may replay, withhold or drop anything |
| `EndToEnd.SentPayloadIsAuthorized` | authz/orchestrator.py:69-113 | over any number of propose calls and sends: the payload stored for a sent proposal is a text mail without attachments carrying the fields of some request, and its canonical bytes hash to the digest of the `authorized` row logged before the sender was called |
| `EndToEnd.PayloadIsFrozen` | gateway/proposal_api.py:199-220 | once a propose call has handed out an id, nothing that follows changes the payload stored under it |
| `EndToEnd.StatusIsStored` | store/proposals.py:150-154 | the send machine and the propose calls agree on every record at every step, status included |
| `EndToEnd.OneSendPerKey` | gateway/proposal_api.py:159-220 | however many propose calls carry one idempotency key and however many sends follow, undisputed writes give at most one sender call per key |
| `Attribution.TwoPhaseRecords` | authz/orchestrator.py:91-133 | each completed row has an earlier started row with the same binding and readings, and a reported outcome has both |
| `Attribution.ReportedIsFound` | authz/dispatch_record.py:148-162 | an outcome handed back is found under its proposal, request and digest, started row before completed row, exactly when none of the three is blank |
| `RecordClock.OffsetsNeverDecrease` | authz/orchestrator.py:91-133 | on a monotone clock, received, commit start and response complete never decrease in any row |
| `AuthorizedSend.AuthorizedGmailSend.AuthorizeAndSend` | authz/orchestrator.py:69-133 | outcome, gate, send machine and records are those of the uninterrupted sequence |
| `AuthorizedSend.SoloOutcome` | authz/orchestrator.py:69-133 | an uninterrupted call sends if and only if the proposal exists, the gate authorizes its digest without asking for approval, the proposal is pending and not expired and the started row is written; and outcome, status, ledger and records are exactly those of that case |
| `SoloRuns.SoloIsRun` | authz/orchestrator.py:69-133 | from any state an uninterrupted call is a run of the interleaved machine with the same outcome and stores |
| `AuthorizedSend.FindIsExact` | authz/dispatch_record.py:148-162 | exactly the rows that bind to proposal, request and digest, as often as written; none for a blank key |

## Left out

- HTTP handlers, listeners, supervisor, entrypoint, command lines, desktop shell, path layout: process plumbing.
- Cryptography, hashing, keyring, base64, MIME rendering, Message-ID minting and RFC 3339 parsing: library calls, taken as functions or inputs.
- Mail API status classification, egress allow-list, PKCE and redirect checks, revocation of OAuth tokens: short branch tables.
- Token refresh and the older sealed store of gateway/send_path.py: field preservation around one library call.
- The manifest printer of treepin: the injectivity argument of the canonical serializer, in an easier form.
- `load_credentials`, `get_status`, `load_payload`, `get_live`, `to_dict` and `from_dict`: lookups and field copies that add no property.
- Durability set-up and closing of SQLite connections: a commit that returns is durable by assumption, and a restart reopens the durable content.
- `StubSyncSource` and `StubDecisionService`: the relay and the service are unconstrained inputs, so every behaviour of the stubs is included.
- Ledger fields beyond event, time, proposal and digest (error codes, response hashes, hosts): they influence no transition. A ledger append that fails ends the call where it stands, which is a call cut at that step.
- Timing, constant-time comparison and log silencing: not functional properties.
- The control plane's `signed_revocations` list: revocation artifacts reach the gate as arbitrary relay input and count only if they verify.
- ProposeRuns.NoDanglingClaim: assumes fresh proposal ids outside the `idem:` namespace, because records and index share one namespace and the payload is written before the duplicate-id check.
- Proposals.ProposalService.Propose: a request that is not an object is reported as a schema error, where the source raises an attribute error; both happen before any store access.
- Payload.ApprovedContentEquivalence: speaks of accepted inputs whose payload the serializer takes; an unsafe attachment size is refused later, by the serializer.
- GateVerdicts.VerdictIff: speaks of calls whose audit appends succeed, and of clocks that return a reading; a clock that raises is not modelled.
- EndToEnd.OneSendPerKey: proposals are learnt from the ids that propose calls return, statuses are written by `authorize_and_send` calls alone; expiry and direct `confirm_and_dispatch` calls are interleaved in `SendSchedules`, not there.
