/** `ProposalStatus` and `RespondToProposalUseCase`: answering a proposal
    writes one status name through the trade repository. */
module Respond {
  import opened Wrappers

  datatype ProposalStatus = PENDING | ACCEPTED | REJECTED

  /** The enum constant's `name`. */
  function StatusName(s: ProposalStatus): string {
    match s
    case PENDING => "PENDING"
    case ACCEPTED => "ACCEPTED"
    case REJECTED => "REJECTED"
  }

  /** `ProposalStatus.valueOf(n)`, with None where it would throw. */
  function ParseStatus(n: string): (r: Option<ProposalStatus>)
    ensures r.Some? ==> StatusName(r.value) == n
  {
    if n == "PENDING" then Some(PENDING)
    else if n == "ACCEPTED" then Some(ACCEPTED)
    else if n == "REJECTED" then Some(REJECTED)
    else None
  }

  /** Every status name reads back as its status. */
  lemma StatusNameRoundTrip(s: ProposalStatus)
    ensures ParseStatus(StatusName(s)) == Some(s)
  {
  }

  /** Distinct statuses have distinct names, so the stored name identifies the
      status `valueOf` recovers. */
  lemma StatusNamesDistinct(s: ProposalStatus, t: ProposalStatus)
    ensures StatusName(s) == StatusName(t) <==> s == t
  {
    StatusNameRoundTrip(s);
    StatusNameRoundTrip(t);
  }

  /** `updateProposalStatus(proposalId, newStatus)`. */
  datatype StatusUpdate = StatusUpdate(proposalId: string, newStatus: string)

  /** The use case: the repository calls it makes, in order. Whatever the
      repository answers is dropped, so the calls are its whole effect. */
  function RespondToProposal(proposalId: string, accepted: bool): (calls: seq<StatusUpdate>)
    ensures |calls| == 1 && calls[0].proposalId == proposalId
    ensures ParseStatus(calls[0].newStatus) == Some(if accepted then ACCEPTED else REJECTED)
    ensures calls[0].newStatus != StatusName(PENDING)
  {
    var status := if accepted then ACCEPTED else REJECTED;
    StatusNameRoundTrip(status);
    [StatusUpdate(proposalId, StatusName(status))]
  }
}
