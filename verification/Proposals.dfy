/**
 Creating proposals: `ProposalStore` (store/proposals.py) and `ProposalService.propose`
 (gateway/proposal_api.py) as a machine whose steps are single operations of the two keyed stores.
 */
module Proposals {
  import opened Wrappers
  import opened Encodings
  import opened Jcs
  import opened Capability
  import opened Payload
  import opened ProposalRecords

  /** What one key of the proposal backend holds: a record, or an entry of the idempotency index. */
  datatype Row = RecordRow(proposal: Proposal) | IndexRow(proposalId: string)

  const INDEX_PREFIX := "idem:"

  function IndexKey(key: string): string
  {
    INDEX_PREFIX + key
  }

  lemma IndexKeyInjective(k: string, k': string)
    requires IndexKey(k) == IndexKey(k')
    ensures k == k'
  {
    assert IndexKey(k)[|INDEX_PREFIX|..] == k && IndexKey(k')[|INDEX_PREFIX|..] == k';
  }

  // ----- the pure part of propose -----------------------------------------------------

  datatype ProposeError =
    | InvalidPayload(payload: PayloadError)
    | MessageIdNotConfigured
    | InvalidClock
    | OutOfDomain
    | DigestMismatch
    | DuplicateProposalId
    | ProposalNotFound
    | MalformedRecord
    | DuplicateIdempotency

  /** The configured Message-ID factory and what it yields, if there is one. */
  datatype Minting = NoFactory | Factory(minted: Option<string>)

  datatype Prepared = Prepared(canonical: Json, digest: string, expiresAt: int)

  /** The idempotency key of a request, after the checks that precede every store access. */
  function AdmitKey(params: Json, minting: Minting, requireMessageId: bool): Result<Option<string>, ProposeError>
  {
    if requireMessageId && minting.NoFactory? then Err(MessageIdNotConfigured)
    else if !params.Obj? then Err(InvalidPayload(SchemaError))
    else
      match Get(params.members, "idempotency_key")
      case Null => Ok(None)
      case Str(key) => Ok(Some(key))
      case _ => Err(InvalidPayload(SchemaError))
  }

  function Digest(sha256Hex: Bytes -> string, canonical: Json): Result<string, ProposeError>
  {
    match Canonicalize(canonical)
    case Ok(bytes) => Ok(sha256Hex(bytes))
    case Err(_) => Err(OutOfDomain)
  }

  /** `prepare_email`, the second derivation and the digest tripwire: everything before the first write. */
  function Prepare(sha256Hex: Bytes -> string, params: Json, minting: Minting, requireMessageId: bool, now: int,
                   ttl: int)
    : (r: Result<Prepared, ProposeError>)
    ensures r.Ok? ==> Digest(sha256Hex, r.value.canonical) == Ok(r.value.digest) && now < r.value.expiresAt && now >= 0
    ensures r != Err(DigestMismatch)
  {
    var messageId := if minting.Factory? then minting.minted else None;
    if requireMessageId && (messageId.None? || messageId.value == "") then Err(MessageIdNotConfigured)
    else if now < 0 || ttl <= 0 then Err(InvalidClock)
    else
      match BuildCanonicalPayload(params, messageId)
      case Err(e) => Err(InvalidPayload(e))
      case Ok(canonical) =>
        AcceptedIsApproved(params, messageId);
        ApprovedFields(params.members, messageId);
        match EnforceV1SendPolicy(canonical)
        case Err(e) => Err(InvalidPayload(e))
        case Ok(_) =>
          var digest :- Digest(sha256Hex, canonical);
          // The tripwire derives the canonical payload and its digest a second time.
          var again := BuildCanonicalPayload(params, messageId).value;
          if Digest(sha256Hex, again) != Ok(digest) then Err(DigestMismatch)
          else Ok(Prepared(again, digest, now + ttl))
  }

  // ----- one call, one store operation at a time --------------------------------------

  /** A propose call after the key is known: its own fresh id, and what preparing it gives. */
  datatype Draft = Draft(key: Option<string>, proposalId: string, now: int, prepared: Result<Prepared, ProposeError>)

  datatype Identifiers = Identifiers(proposalId: string, payloadDigest: string, expiresAt: int)

  datatype ProposeCall =
    | FindIndex(draft: Draft)
    | FindRecord(draft: Draft, winner: string)
    | PutPayload(draft: Draft)
    | CheckId(draft: Draft)
    | PutRecord(draft: Draft)
    | ClaimKey(draft: Draft)
    | DropRecord(draft: Draft)
    | DropPayload(draft: Draft)
    | RefindIndex(draft: Draft)
    | RefindRecord(draft: Draft, winner: string)
    | Returned(draft: Draft, ids: Identifiers)
    | Raised(draft: Draft, error: ProposeError)
  {
    predicate Ended() { Returned? || Raised? }

    function Rank(): nat
    {
      match this
      case FindIndex(_) => 10
      case FindRecord(_, _) => 9
      case PutPayload(_) => 8
      case CheckId(_) => 7
      case PutRecord(_) => 6
      case ClaimKey(_) => 5
      case DropRecord(_) => 4
      case DropPayload(_) => 3
      case RefindIndex(_) => 2
      case RefindRecord(_, _) => 1
      case _ => 0
    }
  }

  datatype Kv = Kv(records: map<string, Row>, payloads: map<string, Json>)

  function BeginWrites(draft: Draft): ProposeCall
  {
    match draft.prepared
    case Err(e) => Raised(draft, e)
    case Ok(_) => PutPayload(draft)
  }

  function Begin(draft: Draft): ProposeCall
  {
    if draft.key.Some? then FindIndex(draft) else BeginWrites(draft)
  }

  function IdentifiersOf(p: Proposal): Identifiers
  {
    Identifiers(p.proposalId, p.payloadDigest, p.expiresAt)
  }

  function RecordOf(draft: Draft): Proposal
    requires draft.prepared.Ok?
  {
    Proposal(draft.proposalId, draft.prepared.value.digest, draft.prepared.value.expiresAt, draft.now, Pending,
             draft.key)
  }

  /** `self.get(idx["proposal_id"])` and the identifiers of what it found. */
  function ReadWinner(draft: Draft, winner: string, kv: Kv): ProposeCall
  {
    if winner !in kv.records then Raised(draft, ProposalNotFound)
    else
      match kv.records[winner]
      case RecordRow(p) => Returned(draft, IdentifiersOf(p))
      case IndexRow(_) => Raised(draft, MalformedRecord)
  }

  function WinnerOf(row: Row): string
  {
    match row
    case RecordRow(p) => p.proposalId
    case IndexRow(id) => id
  }

  function CallStep(call: ProposeCall, kv: Kv): (r: (ProposeCall, Kv))
    ensures r.0.draft == call.draft
    ensures !call.Ended() ==> r.0.Rank() < call.Rank()
    ensures call.Ended() ==> r == (call, kv)
  {
    var d := call.draft;
    var pid := d.proposalId;
    match call
    case FindIndex(_) =>
      if d.key.None? then (BeginWrites(d), kv)
      else if IndexKey(d.key.value) in kv.records then (FindRecord(d, WinnerOf(kv.records[IndexKey(d.key.value)])), kv)
      else (BeginWrites(d), kv)
    case FindRecord(_, winner) => (ReadWinner(d, winner, kv), kv)
    case PutPayload(_) =>
      if d.prepared.Err? then (Raised(d, d.prepared.error), kv)
      else (CheckId(d), kv.(payloads := kv.payloads[pid := d.prepared.value.canonical]))
    case CheckId(_) => (if pid in kv.records then Raised(d, DuplicateProposalId) else PutRecord(d), kv)
    case PutRecord(_) =>
      if d.prepared.Err? then (Raised(d, d.prepared.error), kv)
      else
        (if d.key.Some? then ClaimKey(d) else Returned(d, IdentifiersOf(RecordOf(d))),
         kv.(records := kv.records[pid := RecordRow(RecordOf(d))]))
    case ClaimKey(_) =>
      if d.key.None? || d.prepared.Err? then (Raised(d, DuplicateIdempotency), kv)
      else if IndexKey(d.key.value) in kv.records then (DropRecord(d), kv)
      else
        (Returned(d, IdentifiersOf(RecordOf(d))),
         kv.(records := kv.records[IndexKey(d.key.value) := IndexRow(pid)]))
    case DropRecord(_) => (DropPayload(d), kv.(records := kv.records - {pid}))
    case DropPayload(_) => (RefindIndex(d), kv.(payloads := kv.payloads - {pid}))
    case RefindIndex(_) =>
      if d.key.None? || IndexKey(d.key.value) !in kv.records then (Raised(d, DuplicateIdempotency), kv)
      else (RefindRecord(d, WinnerOf(kv.records[IndexKey(d.key.value)])), kv)
    case RefindRecord(_, winner) => (ReadWinner(d, winner, kv), kv)
    case _ => (call, kv)
  }

  /** A call run to its end with nothing interleaved. */
  function Complete(call: ProposeCall, kv: Kv): (ProposeCall, Kv)
    decreases call.Rank()
  {
    if call.Ended() then (call, kv)
    else
      var (call', kv') := CallStep(call, kv);
      Complete(call', kv')
  }

  lemma StepFirst(call: ProposeCall, kv: Kv)
    requires !call.Ended()
    ensures var (call', kv') := CallStep(call, kv); Complete(call, kv) == Complete(call', kv')
  {
  }

  /** What `create` demands of a record's timestamps. */
  predicate ValidTimes(p: Proposal)
  {
    0 <= p.createdAt < p.expiresAt
  }

  // ----- the service ------------------------------------------------------------------

  /** `ProposalStore` and `ProposalService` over their two stores. */
  class ProposalService {
    var records: map<string, Row>
    var payloads: map<string, Json>
    const sha256Hex: Bytes -> string
    const requireMessageId: bool

    function State(): Kv
      reads this
    {
      Kv(records, payloads)
    }

    constructor (sha256Hex: Bytes -> string, requireMessageId: bool)
      ensures State() == Kv(map[], map[])
    {
      records, payloads := map[], map[];
      this.sha256Hex, this.requireMessageId := sha256Hex, requireMessageId;
    }

    method FindByIdempotency(key: string) returns (r: Result<Option<Proposal>, ProposeError>)
      ensures IndexKey(key) !in records ==> r == Ok(None)
      ensures IndexKey(key) in records ==>
                var winner := WinnerOf(records[IndexKey(key)]);
                r == if winner !in records then Err(ProposalNotFound)
                     else if records[winner].RecordRow? then Ok(Some(records[winner].proposal)) else Err(MalformedRecord)
    {
      if IndexKey(key) !in records {
        return Ok(None);
      }
      var winner := WinnerOf(records[IndexKey(key)]);
      if winner !in records {
        return Err(ProposalNotFound);
      }
      if records[winner].RecordRow? {
        return Ok(Some(records[winner].proposal));
      }
      return Err(MalformedRecord);
    }

    /** `ProposalStore.create`: the record first, the claim last, rolled back when the claim is lost. */
    method Create(p: Proposal) returns (r: Result<(), ProposeError>)
      modifies this
      ensures payloads == old(payloads)
      ensures !ValidTimes(p) ==> r == Err(InvalidClock) && records == old(records)
      ensures ValidTimes(p) && p.proposalId in old(records) ==> r == Err(DuplicateProposalId) && records == old(records)
      ensures ValidTimes(p) && p.proposalId !in old(records) && p.idempotencyKey.None? ==>
                r == Ok(()) && records == old(records)[p.proposalId := RecordRow(p)]
      ensures ValidTimes(p) && p.proposalId !in old(records) && p.idempotencyKey.Some? ==>
                var with := old(records)[p.proposalId := RecordRow(p)];
                var index := IndexKey(p.idempotencyKey.value);
                if index in with then r == Err(DuplicateIdempotency) && records == with - {p.proposalId}
                else r == Ok(()) && records == with[index := IndexRow(p.proposalId)]
    {
      if p.expiresAt < 0 || p.createdAt < 0 || p.expiresAt <= p.createdAt {
        return Err(InvalidClock);
      }
      if p.proposalId in records {
        return Err(DuplicateProposalId);
      }
      records := records[p.proposalId := RecordRow(p)];
      if p.idempotencyKey.Some? {
        var index := IndexKey(p.idempotencyKey.value);
        if index in records {
          records := records - {p.proposalId};
          return Err(DuplicateIdempotency);
        }
        records := records[index := IndexRow(p.proposalId)];
      }
      return Ok(());
    }

    /** `propose`: the outcome and both stores are those of the machine's uninterrupted run. */
    method Propose(params: Json, minting: Minting, now: int, ttl: int, proposalId: string)
      returns (r: Result<Identifiers, ProposeError>)
      modifies this
      ensures var admitted := AdmitKey(params, minting, requireMessageId);
              if admitted.Err? then r == Err(admitted.error) && State() == old(State())
              else
                var prepared := Prepare(sha256Hex, params, minting, requireMessageId, now, ttl);
                var draft := Draft(admitted.value, proposalId, now, prepared);
                var (call, kv) := Complete(Begin(draft), old(State()));
                State() == kv && call == if r.Ok? then Returned(draft, r.value) else Raised(draft, r.error)
    {
      var admitted := AdmitKey(params, minting, requireMessageId);
      if admitted.Err? {
        return Err(admitted.error);
      }
      var key := admitted.value;
      ghost var prepared := Prepare(sha256Hex, params, minting, requireMessageId, now, ttl);
      ghost var draft := Draft(key, proposalId, now, prepared);
      if key.Some? {
        StepFirst(FindIndex(draft), State());
        var existing := FindByIdempotency(key.value);
        if existing.Err? {
          return Err(existing.error);
        }
        if existing.value.Some? {
          return Ok(IdentifiersOf(existing.value.value));
        }
      }
      var ready := Prepare(sha256Hex, params, minting, requireMessageId, now, ttl);
      if ready.Err? {
        return Err(ready.error);
      }
      r := Persist(Draft(key, proposalId, now, ready));
    }

    /** The writes of `propose`, and the recovery from a lost claim. */
    method Persist(draft: Draft) returns (r: Result<Identifiers, ProposeError>)
      requires draft.prepared.Ok? && 0 <= draft.now < draft.prepared.value.expiresAt
      modifies this
      ensures var (call, kv) := Complete(PutPayload(draft), old(State()));
              State() == kv && call == if r.Ok? then Returned(draft, r.value) else Raised(draft, r.error)
    {
      StepFirst(PutPayload(draft), State());
      payloads := payloads[draft.proposalId := draft.prepared.value.canonical];
      ghost var kv1 := State();
      StepFirst(CheckId(draft), kv1);
      StepFirst(PutRecord(draft), kv1);
      ghost var kv2 := kv1.(records := kv1.records[draft.proposalId := RecordRow(RecordOf(draft))]);
      StepFirst(ClaimKey(draft), kv2);
      var created := Create(RecordOf(draft));
      if created.Ok? {
        return Ok(IdentifiersOf(RecordOf(draft)));
      }
      if created.error != DuplicateIdempotency {
        return Err(created.error);
      }
      StepFirst(DropRecord(draft), kv2);
      r := YieldToWinner(draft);
    }

    /** The claim was lost: drop the payload and answer with the winner's identifiers. */
    method YieldToWinner(draft: Draft) returns (r: Result<Identifiers, ProposeError>)
      requires draft.key.Some?
      modifies this
      ensures var (call, kv) := Complete(DropPayload(draft), old(State()));
              State() == kv && call == if r.Ok? then Returned(draft, r.value) else Raised(draft, r.error)
    {
      StepFirst(DropPayload(draft), State());
      payloads := payloads - {draft.proposalId};
      StepFirst(RefindIndex(draft), State());
      var existing := FindByIdempotency(draft.key.value);
      if existing.Err? {
        return Err(existing.error);
      }
      if existing.value.Some? {
        return Ok(IdentifiersOf(existing.value.value));
      }
      return Err(DuplicateIdempotency);
    }
  }
}
