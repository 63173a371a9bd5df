/**
  Which events make a node lose the fit between the prepare certificate it has recorded for the
  slot and its current proposal, so that its peers refuse its timeouts: exactly which, one by one.
 */
module FitEvents {
  import opened Model
  import opened Staking
  import opened Messages
  import opened PrepareBuffer
  import opened Round
  import opened Safety
  import opened Runs
  import opened ViewChange

  /** The recorded certificate is not of a slot to come; from genesis on that always holds. */
  predicate NotAhead(s: Node) {
    s.highestQc.Some? ==> s.highestQc.value.slot <= s.slot
  }

  /** Same slot, certificate, proposal and registry. */
  predicate SameFit(s: Node, s': Node) {
    s'.highestQc == s.highestQc && s'.slot == s.slot && s'.staking == s.staking && s'.current == s.current
  }

  /** A new slot, with nothing recorded for it. */
  ghost predicate Moved(s: Node, s': Node) {
    s'.slot > s.slot && s'.highestQc == s.highestQc
  }

  ghost predicate Fitting(s: Node) {
    Fits(s) && NotAhead(s)
  }

  lemma SameFitKeeps(s: Node, s': Node)
    requires Fitting(s) && (SameFit(s, s') || Moved(s, s'))
    ensures Fitting(s')
  {}

  /** In every run from genesis. */
  lemma NeverAhead(c: Config, boot: seq<Committed>, s: Node, events: seq<Event>)
    requires Started(c, boot, s) && boot != []
    ensures NotAhead(Run(c, s, events))
  {
    StartedInv(c, boot, s);
    RunKeeps(c, boot, s, events);
  }

  //  Steps

  lemma CommitMoves(c: Config, s: Node, certificate: AggregateSignature, ticket: Ticket, now: Timestamp)
    requires !s.tag.Joining? && (ticket.CommitQc? || ticket.ForcedCommitQc?)
    ensures Moved(s, CommitCurrent(c, s, certificate, ticket, now).0)
  {
    CommitAdvance(c, s, certificate, ticket, now);
  }

  lemma TimeoutSameFit(c: Config, s: Node, ticket: Ticket, now: Timestamp)
    requires ticket.TimeoutQc?
    ensures SameFit(s, AdvanceRound(c, s, ticket, now).0)
  {}

  /** The current proposal is `p`, with a certificate for it. */
  ghost predicate Adopted(s: Node, p: ConsensusProposal, s': Node) {
    s'.slot == s.slot && s'.staking == s.staking && s'.current == p && Fitting(s')
  }

  lemma VerifyTcFits(s: Node, tc: AggregateSignature, kind: TcKind, view: View)
    requires NotAhead(s)
    ensures var (s', ok) := VerifyTc(s, tc, kind, s.slot, view);
            if ok && kind.TcPrepareQc? then Adopted(s, kind.proposal, s') else SameFit(s, s')
  {}

  lemma AdoptTimeoutFits(s: Node, t: ConsensusTimeout)
    requires Fitting(s) && t.signed.msg.slot == s.slot
    ensures Fitting(AdoptTimeout(s, t).0)
  {}

  //  Prepares

  /** The certificate recorded for the slot, if any, is not one for `p`. */
  predicate Conflicts(s: Node, p: ConsensusProposal) {
    HasPrepareQcFor(s, s.slot) && !VerifyQc(s.staking, VoteBytes(Hash(p)), s.highestQc.value.qc)
  }

  /** The prepare brings a proposal of the slot that the recorded certificate is not for, and brings no certificate. */
  predicate Displaces(s: Node, p: Prepare) {
    p.proposal.slot == s.slot && Conflicts(s, p.proposal) && !(p.ticket.TimeoutQc? && p.ticket.kind.TcPrepareQc?)
  }

  /** While the certificate fits, that is any proposal of the slot but the current one. */
  lemma DisplacesOther(s: Node, p: Prepare)
    requires Fits(s) && HasPrepareQcFor(s, s.slot) && p.proposal.slot == s.slot
    ensures Conflicts(s, p.proposal) <==> Hash(p.proposal) != Hash(s.current)
  {
    OneHashPerCertificate(s.staking, Hash(s.current), Hash(p.proposal), s.highestQc.value.qc);
  }

  /** The ticket brings a certificate for the proposal of this slot that verifies. */
  predicate Adopts(s: Node, p: Prepare) {
    && p.ticket.TimeoutQc? && p.ticket.kind.TcPrepareQc? && p.ticket.kind.proposal == p.proposal && p.proposal.slot == s.slot
    && VerifyTc(s, p.ticket.tc, p.ticket.kind, s.slot, WrappingPred(p.view)).1
  }

  ghost predicate TicketLeaves(s: Node, p: Prepare, s': Node, outcome: TicketOutcome) {
    && NotAhead(s')
    && (Fits(s') <==> Fits(s) || s'.slot > s.slot || Adopts(s, p))
    && (outcome.Processed? && p.proposal.slot == s'.slot ==> (Conflicts(s', p.proposal) <==> Displaces(s, p)))
  }

  lemma CommitTicketLeaves(c: Config, s: Node, p: Prepare, now: Timestamp)
    requires NotAhead(s) && !s.tag.Joining? && p.ticket.CommitQc?
    ensures var (s', outcome) := ProcessTicket(c, s, p, now); TicketLeaves(s, p, s', outcome)
  {
    CommitMoves(c, s, p.ticket.qc, p.ticket, now);
  }

  lemma ForceCommitMoves(c: Config, s: Node, p: ConsensusProposal, now: Timestamp)
    requires NotAhead(s) && !s.tag.Joining?
    ensures var s' := ForceCommit(c, s, p, now).0;
            s' == s || (Moved(s, s') && Fitting(s') && !HasPrepareQcFor(s', s'.slot) && p.slot != s.slot)
  {
    CommitMoves(c, s, EMPTY_SIGNATURE, ForcedCommitQc, now);
  }

  lemma TcHereLeaves(c: Config, s: Node, p: Prepare, now: Timestamp)
    requires NotAhead(s) && !s.tag.Joining? && p.ticket.TimeoutQc? && p.proposal.slot == s.slot
    ensures var (s', outcome) := ProcessTicket(c, s, p, now); TicketLeaves(s, p, s', outcome)
  {
    var s1 := VerifyTc(s, p.ticket.tc, p.ticket.kind, s.slot, WrappingPred(p.view)).0;
    assert ForceCommit(c, s, p.proposal, now) == (s, true);
    VerifyTcFits(s, p.ticket.tc, p.ticket.kind, WrappingPred(p.view));
    TimeoutSameFit(c, s1, p.ticket, now);
  }

  /** In a slot nothing is recorded for, what a timeout ticket records is for the proposal it comes with. */
  lemma FirstRecorded(s: Node, p: Prepare)
    requires NotAhead(s) && p.ticket.TimeoutQc? && p.proposal.slot == s.slot && !HasPrepareQcFor(s, s.slot)
    requires p.ticket.kind.TcPrepareQc? ==> p.ticket.kind.proposal == p.proposal
    ensures var s' := VerifyTc(s, p.ticket.tc, p.ticket.kind, s.slot, WrappingPred(p.view)).0;
            s'.slot == s.slot && Fitting(s') && !Conflicts(s', p.proposal)
  {
    VerifyTcFits(s, p.ticket.tc, p.ticket.kind, WrappingPred(p.view));
  }

  lemma TcAheadLeaves(c: Config, s: Node, p: Prepare, now: Timestamp)
    requires NotAhead(s) && !s.tag.Joining? && p.ticket.TimeoutQc? && p.proposal.slot != s.slot
    ensures var (s', outcome) := ProcessTicket(c, s, p, now); TicketLeaves(s, p, s', outcome)
  {
    var s' := ProcessTicket(c, s, p, now).0;
    var s1 := ForceCommit(c, s, p.proposal, now).0;
    ForceCommitMoves(c, s, p.proposal, now);
    if s' != s && s' != s1 {
      FirstRecorded(s1, p);
      TimeoutSameFit(c, VerifyTc(s1, p.ticket.tc, p.ticket.kind, s1.slot, WrappingPred(p.view)).0, p.ticket, now);
    }
  }

  lemma WhatTicketLeaves(c: Config, s: Node, p: Prepare, now: Timestamp)
    requires NotAhead(s) && !s.tag.Joining?
    ensures var (s', outcome) := ProcessTicket(c, s, p, now); TicketLeaves(s, p, s', outcome)
  {
    match p.ticket
    case CommitQc(_) => CommitTicketLeaves(c, s, p, now);
    case TimeoutQc(_, _) =>
      if p.proposal.slot == s.slot {
        TcHereLeaves(c, s, p, now);
      } else {
        TcAheadLeaves(c, s, p, now);
      }
    case _ =>
  }

  lemma AfterTicketLeaves(c: Config, s: Node, p: Prepare, now: Timestamp)
    requires NotAhead(s)
    ensures var (s', outcome) := AfterTicket(c, s, p, now); TicketLeaves(s, p, s', outcome)
  {
    var s0 := if s.tag.Joining? then s.(tag := Follower) else s;
    WhatTicketLeaves(c, s0, p, now);
    assert SameFit(s, s0) && s0.parentHash == s.parentHash;
  }

  predicate Accepts(c: Config, s: Node, p: Prepare, now: Timestamp) {
    TakesUp(c, s, p, now) && AcceptProposal(c, AfterTicket(c, s, p, now).0, p).1
  }

  /** The node once it has accepted `p`, before it votes or goes on to a buffered prepare. */
  function Accepted(c: Config, s: Node, p: Prepare, now: Timestamp): Node {
    AcceptProposal(c, AfterTicket(c, s, p, now).0, p).0
  }

  function BufferedNext(c: Config, s: Node, p: Prepare, now: Timestamp): Option<Prepare> {
    if Accepts(c, s, p, now) then NextPrepare(Accepted(c, s, p, now).buffer, Hash(p.proposal)) else None
  }

  lemma AcceptFitsIff(c: Config, s: Node, p: Prepare)
    requires NotAhead(s) && AcceptProposal(c, s, p).1
    ensures var s' := AcceptProposal(c, s, p).0; NotAhead(s') && (Fits(s') <==> !Conflicts(s, p.proposal))
  {}

  lemma AcceptedFitsIff(c: Config, s: Node, p: Prepare, now: Timestamp)
    requires NotAhead(s) && Accepts(c, s, p, now)
    ensures var s' := Accepted(c, s, p, now); NotAhead(s') && (Fits(s') <==> !Displaces(s, p))
  {
    AfterTicketLeaves(c, s, p, now);
    AcceptFitsIff(c, AfterTicket(c, s, p, now).0, p);
  }

  /** A prepare that is not accepted leaves what its ticket leaves, if it gets that far. */
  ghost predicate FitsWithout(c: Config, s: Node, p: Prepare, now: Timestamp) {
    || Fits(s)
    || ((s.tag.Joining? ==> ExitsJoining(s, p)) && p.proposal.slot >= s.slot
        && (AfterTicket(c, s, p, now).0.slot > s.slot || Adopts(s, p)))
  }

  lemma RefusedFitsIff(c: Config, s: Node, p: Prepare, ask: Destination, now: Timestamp)
    requires NotAhead(s) && !Accepts(c, s, p, now)
    ensures Fits(OnPrepare(c, s, p, ask, now).0) <==> FitsWithout(c, s, p, now)
  {
    var s1 := AfterTicket(c, s, p, now).0;
    AfterTicketLeaves(c, s, p, now);
    if TakesUp(c, s, p, now) {
      TakenUp(c, s, p, ask, now);
      assert SameFit(s1, AcceptProposal(c, s1, p).0);
    } else {
      AsideSameFit(c, s, p, ask, now);
    }
  }

  lemma AsideSameFit(c: Config, s: Node, p: Prepare, ask: Destination, now: Timestamp)
    requires !TakesUp(c, s, p, now)
    ensures var s' := OnPrepare(c, s, p, ask, now).0;
            if (s.tag.Joining? ==> ExitsJoining(s, p)) && p.proposal.slot >= s.slot
            then SameFit(AfterTicket(c, s, p, now).0, s') else SameFit(s, s')
  {
    FetchSameFit(c, AfterTicket(c, s, p, now).0, p, ask);
  }

  lemma FetchSameFit(c: Config, s: Node, p: Prepare, ask: Destination)
    ensures SameFit(s, BufferAndFetch(c, s, p, ask))
  {}

  lemma GoesOn(c: Config, s: Node, p: Prepare, ask: Destination, now: Timestamp)
    requires BufferedNext(c, s, p, now).Some?
    ensures OnPrepare(c, s, p, ask, now) == OnPrepare(c, Accepted(c, s, p, now), BufferedNext(c, s, p, now).value, ask, now)
  {
    TakenUp(c, s, p, ask, now);
  }

  lemma StopsHere(c: Config, s: Node, p: Prepare, ask: Destination, now: Timestamp)
    requires Accepts(c, s, p, now) && BufferedNext(c, s, p, now).None?
    ensures SameFit(Accepted(c, s, p, now), OnPrepare(c, s, p, ask, now).0)
  {
    TakenUp(c, s, p, ask, now);
  }

  /** Going on to a buffered prepare is the same as receiving it next. */
  lemma FastForwardIsReceive(c: Config, s: Node, p: Prepare, ask: Destination, now: Timestamp)
    requires BufferedNext(c, s, p, now).Some?
    ensures var next := BufferedNext(c, s, p, now).value;
            OnPrepare(c, s, p, ask, now) ==
              Handle(c, Accepted(c, s, p, now), Receive(next.sender, PrepareMsg(next.proposal, next.ticket, next.view), ask), now)
  {
    GoesOn(c, s, p, ask, now);
    var next := BufferedNext(c, s, p, now).value;
    assert next == Prepare(next.sender, next.proposal, next.ticket, next.view);
  }

  /** The last prepare that is accepted decides; what comes after it and is not accepted still brings its ticket. */
  ghost predicate FitsAfter(c: Config, s: Node, p: Prepare, now: Timestamp)
    decreases |Deeper(s.buffer, Hash(p.proposal))|
  {
    if !Accepts(c, s, p, now) then FitsWithout(c, s, p, now)
    else
      match BufferedNext(c, s, p, now)
      case None => !Displaces(s, p)
      case Some(next) =>
        DeeperShrinks(s.buffer, p, next);
        FitsAfter(c, Accepted(c, s, p, now), next, now)
  }

  /** Whether or not the certificate fitted before, and however many buffered prepares follow. */
  lemma {:induction false} PrepareFitsIff(c: Config, s: Node, p: Prepare, ask: Destination, now: Timestamp)
    requires NotAhead(s)
    ensures Fits(OnPrepare(c, s, p, ask, now).0) <==> FitsAfter(c, s, p, now)
    decreases |Deeper(s.buffer, Hash(p.proposal))|
  {
    if Accepts(c, s, p, now) {
      var next := BufferedNext(c, s, p, now);
      AcceptedFitsIff(c, s, p, now);
      if next.Some? {
        GoesOn(c, s, p, ask, now);
        DeeperShrinks(s.buffer, p, next.value);
        PrepareFitsIff(c, Accepted(c, s, p, now), next.value, ask, now);
      } else {
        StopsHere(c, s, p, ask, now);
      }
    } else {
      RefusedFitsIff(c, s, p, ask, now);
    }
  }

  /** Without buffered ones: a prepare loses the fit exactly when it is accepted and displaces the certified proposal. */
  lemma PrepareKeepsFitIff(c: Config, s: Node, p: Prepare, ask: Destination, now: Timestamp)
    requires Fitting(s) && BufferedNext(c, s, p, now).None?
    ensures Fits(OnPrepare(c, s, p, ask, now).0) <==> !(Accepts(c, s, p, now) && Displaces(s, p))
  {
    PrepareFitsIff(c, s, p, ask, now);
  }

  //  The other events

  /** The certificate of a confirm is recorded for the slot although the proposal is of an earlier one. */
  predicate RecordsStale(s: Node, qc: AggregateSignature, hash: ProposalHash) {
    s.tag.Follower? && hash == Hash(s.current) && VerifyQc(s.staking, VoteBytes(hash), qc) && !CurrentSlotPrepareIsPresent(s)
  }

  lemma OnConfirmFitIff(c: Config, s: Node, qc: AggregateSignature, hash: ProposalHash)
    requires Fitting(s)
    ensures Fits(OnConfirm(c, s, qc, hash).0) <==> !RecordsStale(s, qc, hash)
  {}

  /** A joining node takes over the proposal of a commit before it looks at the certificate. */
  predicate TakesUnchecked(s: Node, qc: AggregateSignature, hash: ProposalHash) {
    && s.tag.Joining? && hash in s.buffer.prepares
    && var p := s.buffer.prepares[hash].proposal;
       && s.slot < p.slot <= s.stakingUpdatedTo + 1
       && !VerifyQc(s.staking, VoteBytes(Hash(p)), qc)
  }

  lemma OnCommitFitIff(c: Config, s: Node, qc: AggregateSignature, hash: ProposalHash, now: Timestamp)
    requires Fitting(s)
    ensures Fits(OnCommit(c, s, qc, hash, now).0) <==> !(TakesUnchecked(s, qc, hash) && HasPrepareQcFor(s, s.slot))
  {
    if s.tag.Follower? {
      CommitMoves(c, s, qc, CommitQc(qc), now);
    } else if s.tag.Joining? && hash in s.buffer.prepares {
      CommitMoves(c, FollowCurrent(s.(current := s.buffer.prepares[hash].proposal)), qc, CommitQc(qc), now);
    }
  }

  lemma OnConfirmAckFits(c: Config, s: Node, ack: Signed<ProposalHash>, now: Timestamp)
    requires Fitting(s)
    ensures Fits(OnConfirmAck(c, s, ack, now).0)
  {
    OnConfirmAckMoves(c, s, ack, now);
    SameFitKeeps(s, OnConfirmAck(c, s, ack, now).0);
  }

  lemma OnConfirmAckMoves(c: Config, s: Node, ack: Signed<ProposalHash>, now: Timestamp)
    ensures var s' := OnConfirmAck(c, s, ack, now).0; SameFit(s, s') || Moved(s, s')
  {
    var s1 := s.(leader := s.leader.(confirmAcks := s.leader.confirmAcks + {ack}));
    var cert := SignAggregate(c.me, ack.msg, VoteBytes(ack.msg), s1.leader.confirmAcks);
    if s.tag.Leader? && cert.Some? {
      CommitMoves(c, Send(s1, Everyone, CommitMsg(cert.value, ack.msg)), cert.value, CommitQc(cert.value), now);
    }
  }

  lemma CertifySameFit(c: Config, s: Node, now: Timestamp)
    ensures SameFit(s, CertifyTimeout(c, s, now).0)
  {
    var ticket, s1 := TimeoutTicket(c, s), ScheduleTimeout(c, s, now);
    if ticket.Some? && NextViewLeader(s1).Some? {
      TimeoutSameFit(c, PassTicket(c, s1, ticket.value, NextViewLeader(s1).value), ticket.value, now);
    }
  }

  lemma CountSameFit(c: Config, s: Node, now: Timestamp)
    ensures SameFit(s, CountTimeout(c, s, now).0)
  {
    CertifySameFit(c, JoinMutiny(c, s, now).0, now);
  }

  lemma OnTimeoutFits(c: Config, s: Node, t: ConsensusTimeout, now: Timestamp)
    requires Fitting(s)
    ensures Fits(OnTimeout(c, s, t, now).0)
  {
    if t.signed.msg == TimeoutMeta(s.slot, s.view, s.parentHash) {
      var s1 := AdoptTimeout(s, t).0;
      AdoptTimeoutFits(s, t);
      CountSameFit(c, s1.(requests := s1.requests + {t}), now);
    }
  }

  lemma OnTimeoutCertificateFits(c: Config, s: Node, tc: AggregateSignature, kind: TcKind, slot: Slot, view: View, now: Timestamp)
    requires Fitting(s)
    ensures Fits(OnTimeoutCertificate(c, s, tc, kind, slot, view, now).0)
  {
    if slot == s.slot && view == s.view {
      var s1 := VerifyTc(s, tc, kind, slot, view).0;
      VerifyTcFits(s, tc, kind, view);
      TimeoutSameFit(c, s1, TimeoutQc(tc, kind), now);
      TimeoutSameFit(c, s1.(tag := Leader), TimeoutQc(tc, kind), now);
    }
  }

  //  Executed blocks

  lemma {:induction false} BondedStay(r: Registry, vs: seq<Pubkey>, v: Pubkey)
    requires v in r.bonded
    ensures v in BondAll(r, vs).0.bonded
    decreases |vs|
  {
    if vs != [] {
      var (r1, ok) := BondValidator(r, vs[0]);
      if ok {
        InsertSortedMembers(r.bonded, vs[0], v);
        BondedStay(r1, vs[1..], v);
      }
    }
  }

  /** Under the registry after the block, the signers of the recorded certificate no longer hold more than 2f. */
  predicate Outweighs(s: Node, actions: seq<BlockAction>, newBonded: seq<Pubkey>) {
    && HasPrepareQcFor(s, s.slot)
    && var r := ProcessBlock(s.staking, actions, newBonded).0;
       Power(r, s.highestQc.value.qc.validators) <= 2 * F(r)
  }

  /** While joining, the block moves the node. */
  predicate Skips(s: Node, height: Slot, actions: seq<BlockAction>, newBonded: seq<Pubkey>) {
    s.tag.Joining? && s.stakingUpdatedTo < height && ProcessBlock(s.staking, actions, newBonded).1
  }

  lemma SignersStay(s: Node, actions: seq<BlockAction>, newBonded: seq<Pubkey>, qc: AggregateSignature, msg: Message)
    requires VerifyQc(s.staking, msg, qc)
    ensures var r := ProcessBlock(s.staking, actions, newBonded).0;
            VerifyQc(r, msg, qc) <==> Power(r, qc.validators) > 2 * F(r)
  {
    forall v | v in qc.validators ensures v in ProcessBlock(s.staking, actions, newBonded).0.bonded {
      BondedStay(ApplyBlockActions(s.staking, actions).0, newBonded, v);
    }
  }

  lemma OnNewBlockFitIff(s: Node, height: Slot, hash: ProposalHash, actions: seq<BlockAction>, newBonded: seq<Pubkey>)
    requires Fitting(s)
    ensures Fits(OnNewBlock(s, height, hash, actions, newBonded).0) <==>
            if Skips(s, height, actions, newBonded) then !HasPrepareQcFor(s, height + 1) else !Outweighs(s, actions, newBonded)
  {
    if HasPrepareQcFor(s, s.slot) {
      SignersStay(s, actions, newBonded, s.highestQc.value.qc, VoteBytes(Hash(s.current)));
    }
  }

  //  All events

  /** The prepare an event delivers, if it does. */
  function Delivered(input: Input): Option<Prepare> {
    if !input.Receive? then None
    else
      match input.msg
      case PrepareMsg(p, ticket, view) => Some(Prepare(input.sender, p, ticket, view))
      case SyncReplyMsg(p) => Some(p)
      case _ => None
  }

  ghost predicate LosesFit(c: Config, s: Node, input: Input, now: Timestamp) {
    match input
    case NewBlock(height, hash, actions, newBonded) =>
      if Skips(s, height, actions, newBonded) then HasPrepareQcFor(s, height + 1) else Outweighs(s, actions, newBonded)
    case Receive(_, msg, _) =>
      (match msg
       case ConfirmMsg(qc, hash) => RecordsStale(s, qc, hash)
       case CommitMsg(qc, hash) => TakesUnchecked(s, qc, hash) && HasPrepareQcFor(s, s.slot)
       case _ => Delivered(input).Some? && !FitsAfter(c, s, Delivered(input).value, now))
    case _ => false
  }

  lemma OnMessageFitIff(c: Config, s: Node, input: Input, now: Timestamp)
    requires Fitting(s) && input.Receive?
    ensures Fits(Handle(c, s, input, now).0) <==> !LosesFit(c, s, input, now)
  {
    if Delivered(input).Some? {
      PrepareFitsIff(c, s, Delivered(input).value, input.ask, now);
    } else {
      match input.msg
      case ConfirmMsg(qc, hash) => OnConfirmFitIff(c, s, qc, hash);
      case ConfirmAckMsg(ack) => OnConfirmAckFits(c, s, ack, now);
      case CommitMsg(qc, hash) => OnCommitFitIff(c, s, qc, hash, now);
      case TimeoutMsg(t) => OnTimeoutFits(c, s, t, now);
      case TimeoutCertificateMsg(tc, kind, slot, view) => OnTimeoutCertificateFits(c, s, tc, kind, slot, view, now);
      case _ =>
    }
  }

  /**
    Event by event: the fit is lost exactly by a prepare after which the last accepted proposal has
    displaced the certified one, a confirm for a stale proposal, a refused commit while joining, and
    a block that outweighs the certificate's signers or moves a joining node to the slot it is for.
   */
  lemma HandleKeepsFitIff(c: Config, s: Node, input: Input, now: Timestamp)
    requires Fitting(s)
    ensures Fits(Handle(c, s, input, now).0) <==> !LosesFit(c, s, input, now)
  {
    match input
    case Receive(_, _, _) => OnMessageFitIff(c, s, input, now);
    case TimeoutTick => OnTimeoutFits(c, s, TimeoutMessage(c, s), now);
    case StartSlot(mayDelay, answer) =>
    case NewBlock(height, hash, actions, newBonded) => OnNewBlockFitIff(s, height, hash, actions, newBonded);
  }
}
