/** The proposal record of store/proposals.py. */
module ProposalRecords {
  import opened Wrappers

  datatype ProposalStatus = Pending | Confirmed | Sent | Failed | OutcomeUnknown

  datatype Proposal = Proposal(
    proposalId: string,
    payloadDigest: string,
    expiresAt: int,
    createdAt: int,
    status: ProposalStatus,
    idempotencyKey: Option<string>)

  predicate IsTerminal(s: ProposalStatus)
  {
    s.Sent? || s.Failed? || s.OutcomeUnknown?
  }

  /** `is_live` past the timestamp check: settled, or not yet expired. */
  predicate IsLive(p: Proposal, now: int)
  {
    IsTerminal(p.status) || now < p.expiresAt
  }
}
