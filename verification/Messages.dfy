/**
  What consensus nodes say to each other.
 */
module Messages {
  import opened Model

  /** The proposal a timeout certificate forces on the next leader, if any. */
  datatype TcKind = TcNil | TcPrepareQc(qc: AggregateSignature, proposal: ConsensusProposal)

  /** The justification for opening a round. */
  datatype Ticket =
    | Genesis
    | CommitQc(qc: AggregateSignature)
    | TimeoutQc(tc: AggregateSignature, kind: TcKind)
    | ForcedCommitQc

  datatype Prepare = Prepare(sender: Pubkey, proposal: ConsensusProposal, ticket: Ticket, view: View)

  datatype TimeoutMeta = TimeoutMeta(slot: Slot, view: View, parent: ProposalHash)

  datatype TimeoutKind =
    | NilProposal(inner: Signed<TimeoutMeta>)
    | PrepareQcKind(qc: AggregateSignature, proposal: ConsensusProposal)

  datatype ConsensusTimeout = ConsensusTimeout(signed: Signed<TimeoutMeta>, kind: TimeoutKind)

  datatype NetMessage =
    | PrepareMsg(proposal: ConsensusProposal, ticket: Ticket, view: View)
    | PrepareVoteMsg(vote: Signed<ProposalHash>)
    | ConfirmMsg(prepareQc: AggregateSignature, hash: ProposalHash)
    | ConfirmAckMsg(ack: Signed<ProposalHash>)
    | CommitMsg(commitQc: AggregateSignature, hash: ProposalHash)
    | TimeoutMsg(timeout: ConsensusTimeout)
    | TimeoutCertificateMsg(tc: AggregateSignature, kind: TcKind, slot: Slot, view: View)
    | CandidacyMsg(candidacy: Signed<string>)
    | SyncRequestMsg(hash: ProposalHash)
    | SyncReplyMsg(prepare: Prepare)

  function MetaBytes(m: TimeoutMeta): Message {
    TimeoutBytes(m.slot, m.view, m.parent)
  }

  function SignVote(me: Pubkey, hash: ProposalHash): Signed<ProposalHash> {
    Signed(hash, Share(me, VoteBytes(hash)), me)
  }

  function SignTimeout(me: Pubkey, m: TimeoutMeta): Signed<TimeoutMeta> {
    Signed(m, Share(me, MetaBytes(m)), me)
  }

  function SignCandidacy(me: Pubkey, address: string): Signed<string> {
    Signed(address, Share(me, CandidacyBytes(address)), me)
  }
}
