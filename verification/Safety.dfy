/**
  What every handler keeps, for any messages in any order, and what follows for whole runs.
 */
module Safety {
  import opened Model
  import opened Staking
  import opened Messages
  import opened PrepareBuffer
  import opened Round

  //  The invariant

  predicate IsPrepare(o: Output) { o.Network? && o.msg.PrepareMsg? }
  predicate IsConfirm(o: Output) { o.Network? && o.msg.ConfirmMsg? }
  predicate IsAck(o: Output) { o.Network? && o.msg.ConfirmAckMsg? }
  predicate IsTimeout(o: Output) { o.Network? && o.msg.TimeoutMsg? }

  predicate IsKey(o: Output) {
    IsPrepare(o) || IsConfirm(o) || IsAck(o) || IsTimeout(o)
  }

  predicate RoundLess(slot: Slot, view: View, slot': Slot, view': View) {
    slot < slot' || (slot == slot' && view < view')
  }

  predicate RoundLeq(slot: Slot, view: View, slot': Slot, view': View) {
    RoundLess(slot, view, slot', view') || (slot == slot' && view == view')
  }

  /** The certificate of a commit event: 2f+1 signatures on its proposal, or none when it was forced. */
  predicate CertifiedOrForced(e: Committed) {
    e.certificate == EMPTY_SIGNATURE || VerifyQc(e.staking, VoteBytes(Hash(e.proposal)), e.certificate)
  }

  /** `boot` are the commit events emitted before the first handler ran. */
  ghost predicate CommitLog(boot: seq<Committed>, s: Node) {
    && boot <= s.commits
    && (forall i :: 0 < i < |s.commits| ==> s.commits[i].proposal.slot == s.commits[i - 1].proposal.slot + 1)
    && (forall i :: |boot| <= i < |s.commits| ==> CertifiedOrForced(s.commits[i]))
    && (s.commits != [] ==>
          && s.slot == s.commits[|s.commits| - 1].proposal.slot + 1
          && s.parentHash == Hash(s.commits[|s.commits| - 1].proposal))
  }

  /** Prepares and confirms sent so far belong to earlier rounds, or to the step this round has reached. */
  ghost predicate SentLog(s: Node) {
    && (forall i :: 0 <= i < |s.sent| && IsPrepare(s.sent[i]) ==>
          && s.sent[i].msg.proposal.slot == s.sent[i].slot && s.sent[i].msg.view == s.sent[i].view
          && (|| RoundLess(s.sent[i].slot, s.sent[i].view, s.slot, s.view)
              || (s.sent[i].slot == s.slot && s.sent[i].view == s.view && !s.leader.step.StartNewSlot?)))
    && (forall i :: 0 <= i < |s.sent| && IsConfirm(s.sent[i]) ==>
          || RoundLess(s.sent[i].slot, s.sent[i].view, s.slot, s.view)
          || (s.sent[i].slot == s.slot && s.sent[i].view == s.view && s.leader.step.ConfirmAck?))
  }

  ghost predicate OncePerRound(sent: seq<Output>) {
    forall i, j :: 0 <= i < j < |sent| &&
      ((IsPrepare(sent[i]) && IsPrepare(sent[j])) || (IsConfirm(sent[i]) && IsConfirm(sent[j])))
      ==> !(sent[i].slot == sent[j].slot && sent[i].view == sent[j].view)
  }

  predicate HasPrepareQcFor(s: Node, slot: Slot) {
    s.highestQc.Some? && s.highestQc.value.slot == slot
  }

  /** An ack for the current slot is remembered, and later timeouts of that slot carry it. */
  ghost predicate AckLog(s: Node) {
    && (s.highestQc.Some? ==> s.highestQc.value.slot <= s.slot)
    && (forall i :: 0 <= i < |s.sent| && IsAck(s.sent[i]) ==>
          s.sent[i].slot <= s.slot && (s.sent[i].slot == s.slot ==> HasPrepareQcFor(s, s.slot)))
    && AckedTimeouts(s.sent)
  }

  ghost predicate AckedTimeouts(sent: seq<Output>) {
    forall i, j :: 0 <= i < j < |sent| && IsAck(sent[i]) && IsTimeout(sent[j])
      && sent[j].msg.timeout.signed.msg.slot == sent[i].slot
      ==> sent[j].msg.timeout.kind.PrepareQcKind?
  }

  ghost predicate Log(boot: seq<Committed>, s: Node) {
    && CommitLog(boot, s)
    && SentLog(s)
    && OncePerRound(s.sent)
    && (boot != [] ==> AckLog(s))
    && (s.tag.Joining? ==> s.commits == [] && forall i :: 0 <= i < |s.sent| ==> !IsKey(s.sent[i]) || IsTimeout(s.sent[i]))
  }

  /** A leader that has opened its round has a proposal for the slot. */
  predicate LeaderReady(s: Node) {
    s.tag.Leader? && !s.leader.step.StartNewSlot? ==> s.current.slot == s.slot
  }

  ghost predicate Inv(boot: seq<Committed>, s: Node) {
    Log(boot, s) && LeaderReady(s)
  }

  /** Time only moves forward for a node that takes part. */
  ghost predicate Forward(s: Node, s': Node) {
    && s.commits <= s'.commits
    && s.sent <= s'.sent
    && (!s.tag.Joining? ==> !s'.tag.Joining? && RoundLeq(s.slot, s.view, s'.slot, s'.view))
  }

  //  Steps that leave the round alone

  /** A timeout of this slot that owns up to the prepare certificate the node has for it. */
  predicate HonestTimeout(s: Node, o: Output) {
    && IsTimeout(o) && o.msg.timeout.signed.msg.slot == s.slot
    && (HasPrepareQcFor(s, s.slot) ==> o.msg.timeout.kind.PrepareQcKind?)
  }

  ghost predicate Calm(s: Node, s': Node) {
    && s'.slot == s.slot && s'.view == s.view && s'.parentHash == s.parentHash && s'.commits == s.commits
    && s'.tag == s.tag && s'.leader.step == s.leader.step
    && (s'.current == s.current || s'.current.slot == s.slot)
    && (s'.highestQc == s.highestQc || (s'.highestQc.Some? && s'.highestQc.value.slot == s.slot))
    && s.sent <= s'.sent
    && (forall i :: |s.sent| <= i < |s'.sent| ==> !IsKey(s'.sent[i]) || HonestTimeout(s, s'.sent[i]))
  }

  lemma ForwardTransitive(s: Node, s': Node, s'': Node)
    requires Forward(s, s') && Forward(s', s'')
    ensures Forward(s, s'')
  {}

  lemma CalmKeeps(boot: seq<Committed>, s: Node, s': Node)
    requires Calm(s, s')
    ensures Log(boot, s) ==> Log(boot, s')
    ensures Inv(boot, s) ==> Inv(boot, s')
    ensures Forward(s, s')
  {
    assert forall i :: 0 <= i < |s.sent| ==> s'.sent[i] == s.sent[i];
    assert forall i :: |s.sent| <= i < |s'.sent| ==>
      !IsPrepare(s'.sent[i]) && !IsConfirm(s'.sent[i]) && !IsAck(s'.sent[i]);
  }

  //  Steps that change the round

  ghost predicate Advanced(s: Node, s': Node) {
    && s'.leader.step == StartNewSlot
    && !s'.tag.Joining?
    && s'.highestQc == s.highestQc
    && s.sent <= s'.sent
    && (forall i :: |s.sent| <= i < |s'.sent| ==> !IsKey(s'.sent[i]))
  }

  lemma ElectFrame(c: Config, s: Node, now: Timestamp)
    requires !s.tag.Joining?
    ensures var s' := Elect(c, s, now).0;
            !s'.tag.Joining? && s' == s.(tag := s'.tag, timeoutState := s'.timeoutState)
  {}

  lemma CommitAdvance(c: Config, s: Node, certificate: AggregateSignature, ticket: Ticket, now: Timestamp)
    requires !s.tag.Joining?
    requires ticket.CommitQc? || ticket.ForcedCommitQc?
    ensures var s' := CommitCurrent(c, s, certificate, ticket, now).0;
            && Advanced(s, s')
            && s'.slot == s.slot + 1 && s'.view == 0 && s'.parentHash == Hash(s.current)
            && s'.commits == s.commits + [Committed(s.staking, s.current, certificate)]
  {
    var e := EmitCommit(s, certificate);
    var qc := if ticket.CommitQc? then Some(ticket.qc) else None;
    ElectFrame(c, CloseSlot(ResetRound(e), qc).0, now);
  }

  lemma TimeoutAdvance(c: Config, s: Node, ticket: Ticket, now: Timestamp)
    requires !s.tag.Joining? && ticket.TimeoutQc?
    ensures var s' := AdvanceRound(c, s, ticket, now).0;
            && Advanced(s, s')
            && s'.slot == s.slot && s'.view == s.view + 1
            && s'.parentHash == s.parentHash && s'.commits == s.commits
  {
    ElectFrame(c, NextView(ResetRound(s)), now);
  }

  lemma AdvancedKeeps(boot: seq<Committed>, s: Node, s': Node)
    requires Log(boot, s) && Advanced(s, s')
    requires RoundLess(s.slot, s.view, s'.slot, s'.view)
    requires CommitLog(boot, s')
    ensures Inv(boot, s')
  {
    assert forall i :: 0 <= i < |s'.sent| && IsKey(s'.sent[i]) ==> i < |s.sent| && s'.sent[i] == s.sent[i];
  }

  lemma CommittedKeeps(boot: seq<Committed>, s: Node, s': Node, e: Committed)
    requires Log(boot, s) && !s.tag.Joining? && Advanced(s, s')
    requires s'.slot == s.slot + 1 && s'.view == 0 && s'.commits == s.commits + [e]
    requires e.proposal.slot == s.slot && s'.parentHash == Hash(e.proposal) && CertifiedOrForced(e)
    ensures Inv(boot, s') && Forward(s, s')
  {
    AdvancedKeeps(boot, s, s');
  }

  /** Whatever ends a slot: the proposal emitted is the slot's own, with its certificate. */
  lemma CommitKeeps(boot: seq<Committed>, c: Config, s: Node, certificate: AggregateSignature, ticket: Ticket, now: Timestamp)
    requires Log(boot, s) && !s.tag.Joining? && s.current.slot == s.slot
    requires ticket.CommitQc? || ticket.ForcedCommitQc?
    requires certificate == EMPTY_SIGNATURE || VerifyQc(s.staking, VoteBytes(Hash(s.current)), certificate)
    ensures Inv(boot, CommitCurrent(c, s, certificate, ticket, now).0)
    ensures Forward(s, CommitCurrent(c, s, certificate, ticket, now).0)
  {
    CommitAdvance(c, s, certificate, ticket, now);
    CommittedKeeps(boot, s, CommitCurrent(c, s, certificate, ticket, now).0, Committed(s.staking, s.current, certificate));
  }

  lemma TimeoutKeeps(boot: seq<Committed>, c: Config, s: Node, ticket: Ticket, now: Timestamp)
    requires Log(boot, s) && !s.tag.Joining? && ticket.TimeoutQc?
    ensures Inv(boot, AdvanceRound(c, s, ticket, now).0)
    ensures Forward(s, AdvanceRound(c, s, ticket, now).0)
  {
    TimeoutAdvance(c, s, ticket, now);
    AdvancedKeeps(boot, s, AdvanceRound(c, s, ticket, now).0);
  }

  //  Leader

  /** The leader's two broadcasts: each moves its step on, so neither can be repeated in the round. */
  ghost predicate OpensOrConfirms(s: Node, s': Node, o: Output) {
    && s.tag.Leader? && s'.tag.Leader?
    && s'.slot == s.slot && s'.view == s.view && s'.parentHash == s.parentHash && s'.commits == s.commits
    && s'.highestQc == s.highestQc
    && s'.sent == s.sent + [o]
    && o.Network? && o.slot == s.slot && o.view == s.view
    && s'.current.slot == s.slot
    && (|| (IsPrepare(o) && s.leader.step.StartNewSlot? && s'.leader.step.PrepareVote?
            && o.msg.proposal.slot == s.slot && o.msg.view == s.view)
        || (IsConfirm(o) && s.leader.step.PrepareVote? && s'.leader.step.ConfirmAck?))
  }

  lemma OpensOrConfirmsOnce(s: Node, s': Node, o: Output)
    requires SentLog(s) && OncePerRound(s.sent) && OpensOrConfirms(s, s', o)
    ensures SentLog(s') && OncePerRound(s'.sent)
  {
    assert forall i :: 0 <= i < |s.sent| ==> s'.sent[i] == s.sent[i];
  }

  lemma OpensOrConfirmsAcks(s: Node, s': Node, o: Output)
    requires AckLog(s) && OpensOrConfirms(s, s', o)
    ensures AckLog(s')
  {
    assert forall i :: 0 <= i < |s.sent| ==> s'.sent[i] == s.sent[i];
  }

  lemma OpensOrConfirmsKeeps(boot: seq<Committed>, s: Node, s': Node, o: Output)
    requires Inv(boot, s) && OpensOrConfirms(s, s', o)
    ensures Inv(boot, s') && Forward(s, s')
  {
    OpensOrConfirmsOnce(s, s', o);
    if boot != [] {
      OpensOrConfirmsAcks(s, s', o);
    }
  }

  lemma StartRoundKeeps(boot: seq<Committed>, c: Config, s: Node, now: Timestamp, mayDelay: Option<Timestamp>, answer: CutAnswer)
    requires Inv(boot, s)
    ensures var s' := StartRound(c, s, now, mayDelay, answer).0; Inv(boot, s') && Forward(s, s')
  {
    var s' := StartRound(c, s, now, mayDelay, answer).0;
    if s'.leader.step == s.leader.step {
      CalmKeeps(boot, s, s');
    } else {
      OpensOrConfirmsKeeps(boot, s, s', s'.sent[|s.sent|]);
    }
  }

  lemma OnPrepareVoteKeeps(boot: seq<Committed>, c: Config, s: Node, vote: Signed<ProposalHash>)
    requires Inv(boot, s)
    ensures var s' := OnPrepareVote(c, s, vote).0; Inv(boot, s') && Forward(s, s')
  {
    var s' := OnPrepareVote(c, s, vote).0;
    if s'.leader.step == s.leader.step {
      CalmKeeps(boot, s, s');
    } else {
      OpensOrConfirmsKeeps(boot, s, s', s'.sent[|s.sent|]);
    }
  }

  lemma CommitSentKeeps(boot: seq<Committed>, c: Config, s: Node, qc: AggregateSignature, now: Timestamp)
    requires Inv(boot, s) && !s.tag.Joining? && s.current.slot == s.slot
    requires VerifyQc(s.staking, VoteBytes(Hash(s.current)), qc)
    ensures var s' := CommitCurrent(c, Send(s, Everyone, CommitMsg(qc, Hash(s.current))), qc, CommitQc(qc), now).0;
            Inv(boot, s') && Forward(s, s')
  {
    var s1 := Send(s, Everyone, CommitMsg(qc, Hash(s.current)));
    CalmKeeps(boot, s, s1);
    CommitKeeps(boot, c, s1, qc, CommitQc(qc), now);
    ForwardTransitive(s, s1, CommitCurrent(c, s1, qc, CommitQc(qc), now).0);
  }

  lemma OnConfirmAckKeeps(boot: seq<Committed>, c: Config, s: Node, ack: Signed<ProposalHash>, now: Timestamp)
    requires Inv(boot, s)
    ensures var s' := OnConfirmAck(c, s, ack, now).0; Inv(boot, s') && Forward(s, s')
  {
    if s.tag.Leader? && s.leader.step.ConfirmAck? && ack.msg == Hash(s.current) && ack !in s.leader.confirmAcks {
      var acks := s.leader.confirmAcks + {ack};
      var s1 := s.(leader := s.leader.(confirmAcks := acks));
      CalmKeeps(boot, s, s1);
      match SignAggregate(c.me, ack.msg, VoteBytes(ack.msg), acks)
      case None =>
      case Some(qc) =>
        if VerifyQc(s.staking, VoteBytes(Hash(s.current)), qc) {
          CommitSentKeeps(boot, c, s1, qc, now);
        } else {
          CalmKeeps(boot, s, Send(s1, Everyone, CommitMsg(qc, ack.msg)));
        }
    }
  }

  //  Follower

  lemma {:induction false} CheckStakingActionsSends(r: Registry, cut: Cut, actions: seq<StakingAction>, candidates: seq<Signed<string>>, sent: seq<Output>)
    ensures var sent' := CheckStakingActions(r, cut, actions, candidates, sent).1;
            sent <= sent' && forall i :: |sent| <= i < |sent'| ==> !IsKey(sent'[i])
    decreases |actions|
  {
    if actions != [] {
      match actions[0]
      case Bond(candidate) =>
        var more := sent + [ConnectTo(candidate.msg)];
        CheckStakingActionsSends(r, cut, actions[1..], DropCandidate(candidates, candidate.validator), more);
      case PayFeesForDaDi(lane, size) =>
        CheckStakingActionsSends(r, cut, actions[1..], candidates, sent);
    }
  }

  lemma AcceptProposalCalm(c: Config, s: Node, p: Prepare)
    ensures Calm(s, AcceptProposal(c, s, p).0)
  {
    CheckStakingActionsSends(s.staking, p.proposal.cut, p.proposal.stakingActions, s.candidates, s.sent);
  }

  lemma VerifyTcCalm(s: Node, tc: AggregateSignature, kind: TcKind, view: View)
    ensures Calm(s, VerifyTc(s, tc, kind, s.slot, view).0)
  {}

  lemma ProcessCommitTicketKeeps(boot: seq<Committed>, c: Config, s: Node, p: ConsensusProposal, qc: AggregateSignature, now: Timestamp)
    requires Inv(boot, s) && !s.tag.Joining?
    ensures var s' := ProcessCommitTicket(c, s, p, qc, now).0; Inv(boot, s') && Forward(s, s')
  {
    if CurrentSlotPrepareIsPresent(s) && VerifyQc(s.staking, VoteBytes(Hash(s.current)), qc) {
      CommitKeeps(boot, c, s, qc, CommitQc(qc), now);
    }
  }

  lemma ForceCommitKeeps(boot: seq<Committed>, c: Config, s: Node, p: ConsensusProposal, now: Timestamp)
    requires Inv(boot, s) && !s.tag.Joining?
    ensures var s' := ForceCommit(c, s, p, now).0; Inv(boot, s') && Forward(s, s')
  {
    if CurrentSlotPrepareIsPresent(s) {
      CommitKeeps(boot, c, s, EMPTY_SIGNATURE, ForcedCommitQc, now);
    }
  }

  lemma TcKeeps(boot: seq<Committed>, c: Config, s: Node, tc: AggregateSignature, kind: TcKind, view: View, now: Timestamp)
    requires Inv(boot, s) && !s.tag.Joining?
    ensures var s1 := VerifyTc(s, tc, kind, s.slot, view).0;
            var s2 := AdvanceRound(c, s1, TimeoutQc(tc, kind), now).0;
            Inv(boot, s1) && Inv(boot, s2) && Forward(s, s1) && Forward(s, s2)
  {
    var s1 := VerifyTc(s, tc, kind, s.slot, view).0;
    VerifyTcCalm(s, tc, kind, view);
    CalmKeeps(boot, s, s1);
    TimeoutKeeps(boot, c, s1, TimeoutQc(tc, kind), now);
    ForwardTransitive(s, s1, AdvanceRound(c, s1, TimeoutQc(tc, kind), now).0);
  }

  lemma ProcessTcTicketKeeps(boot: seq<Committed>, c: Config, s: Node, tc: AggregateSignature, kind: TcKind, p: ConsensusProposal, view: View, now: Timestamp)
    requires Inv(boot, s) && !s.tag.Joining?
    ensures var s' := ProcessTcTicket(c, s, tc, kind, p, view, now).0; Inv(boot, s') && Forward(s, s')
  {
    var s' := ProcessTcTicket(c, s, tc, kind, p, view, now).0;
    var s1 := ForceCommit(c, s, p, now).0;
    if s' != s {
      ForceCommitKeeps(boot, c, s, p, now);
      if s' != s1 {
        TcKeeps(boot, c, s1, tc, kind, WrappingPred(view), now);
        ForwardTransitive(s, s1, s');
      }
    }
  }

  lemma ProcessTicketKeeps(boot: seq<Committed>, c: Config, s: Node, p: Prepare, now: Timestamp)
    requires Inv(boot, s) && !s.tag.Joining?
    ensures var s' := ProcessTicket(c, s, p, now).0; Inv(boot, s') && Forward(s, s')
  {
    match p.ticket
    case CommitQc(qc) => ProcessCommitTicketKeeps(boot, c, s, p.proposal, qc, now);
    case TimeoutQc(tc, kind) => ProcessTcTicketKeeps(boot, c, s, tc, kind, p.proposal, p.view, now);
    case _ =>
  }

  /** Where the ticket leaves a node that does not put the prepare aside. */
  function AfterTicket(c: Config, s: Node, p: Prepare, now: Timestamp): (Node, TicketOutcome) {
    ProcessTicket(c, if s.tag.Joining? then s.(tag := Follower) else s, p, now)
  }

  predicate TakesUp(c: Config, s: Node, p: Prepare, now: Timestamp) {
    && (s.tag.Joining? ==> ExitsJoining(s, p))
    && p.proposal.slot >= s.slot && AfterTicket(c, s, p, now).1.Processed?
  }

  lemma TakenUp(c: Config, s: Node, p: Prepare, ask: Destination, now: Timestamp)
    requires TakesUp(c, s, p, now)
    ensures OnPrepare(c, s, p, ask, now) == OnTicketProcessed(c, AfterTicket(c, s, p, now).0, p, ask, now)
  {}

  lemma BufferAndFetchCalm(c: Config, s: Node, p: Prepare, ask: Destination)
    ensures Calm(s, BufferAndFetch(c, s, p, ask))
  {}

  lemma AcceptedKeeps(boot: seq<Committed>, c: Config, s: Node, p: Prepare)
    requires Inv(boot, s)
    ensures var s1 := AcceptProposal(c, s, p).0;
            Inv(boot, s1) && Forward(s, s1) && Inv(boot, Vote(c, s1, p)) && Forward(s, Vote(c, s1, p))
  {
    var s1 := AcceptProposal(c, s, p).0;
    AcceptProposalCalm(c, s, p);
    CalmKeeps(boot, s, s1);
    CalmKeeps(boot, s1, Vote(c, s1, p));
    ForwardTransitive(s, s1, Vote(c, s1, p));
  }

  lemma {:induction false} OnPrepareKeeps(boot: seq<Committed>, c: Config, s: Node, p: Prepare, ask: Destination, now: Timestamp)
    requires Inv(boot, s)
    ensures var s' := OnPrepare(c, s, p, ask, now).0; Inv(boot, s') && Forward(s, s')
    decreases |Deeper(s.buffer, Hash(p.proposal))|, 1
  {
    var s' := OnPrepare(c, s, p, ask, now).0;
    if s.tag.Joining? && !ExitsJoining(s, p) {
      CalmKeeps(boot, s, s');
    } else {
      var s1 := if s.tag.Joining? then s.(tag := Follower) else s;
      if p.proposal.slot >= s1.slot {
        ProcessTicketKeeps(boot, c, s1, p, now);
        var (s2, outcome) := ProcessTicket(c, s1, p, now);
        ForwardTransitive(s, s1, s2);
        if outcome.NotProcessed? {
          BufferAndFetchCalm(c, s2, p, ask);
          CalmKeeps(boot, s2, s');
          ForwardTransitive(s, s2, s');
        } else if outcome.Processed? {
          OnTicketProcessedKeeps(boot, c, s2, p, ask, now);
          ForwardTransitive(s, s2, s');
        }
      }
    }
  }

  lemma {:induction false} OnTicketProcessedKeeps(boot: seq<Committed>, c: Config, s: Node, p: Prepare, ask: Destination, now: Timestamp)
    requires Inv(boot, s)
    ensures var s' := OnTicketProcessed(c, s, p, ask, now).0; Inv(boot, s') && Forward(s, s')
    decreases |Deeper(s.buffer, Hash(p.proposal))|, 0
  {
    AcceptedKeeps(boot, c, s, p);
    var (s1, accepted) := AcceptProposal(c, s, p);
    if accepted && NextPrepare(s1.buffer, Hash(p.proposal)).Some? {
      var next := NextPrepare(s1.buffer, Hash(p.proposal)).value;
      DeeperShrinks(s.buffer, p, next);
      OnPrepareKeeps(boot, c, s1, next, ask, now);
      ForwardTransitive(s, s1, OnTicketProcessed(c, s, p, ask, now).0);
    }
  }

  /** The node acknowledges in a round whose prepare certificate it now holds. */
  lemma AckKeeps(boot: seq<Committed>, s: Node, to: Destination, ack: Signed<ProposalHash>)
    requires Inv(boot, s) && !s.tag.Joining? && (boot != [] ==> HasPrepareQcFor(s, s.slot))
    ensures var s' := Send(s, to, ConfirmAckMsg(ack)); Inv(boot, s') && Forward(s, s')
  {
    var s' := Send(s, to, ConfirmAckMsg(ack));
    assert forall i :: 0 <= i < |s.sent| ==> s'.sent[i] == s.sent[i];
  }

  lemma OnConfirmKeeps(boot: seq<Committed>, c: Config, s: Node, qc: AggregateSignature, hash: ProposalHash)
    requires Inv(boot, s)
    ensures var s' := OnConfirm(c, s, qc, hash).0; Inv(boot, s') && Forward(s, s')
  {
    var s' := OnConfirm(c, s, qc, hash).0;
    var s1 := UpdateHighestQc(s, s.slot, qc).0;
    if s' != s {
      CalmKeeps(boot, s, s1);
      if s' != s1 {
        AckKeeps(boot, s1, To(RoundLeader(s1).value), SignVote(c.me, hash));
        ForwardTransitive(s, s1, s');
      }
    }
  }

  lemma OnCommitWhileJoiningKeeps(boot: seq<Committed>, c: Config, s: Node, qc: AggregateSignature, hash: ProposalHash, now: Timestamp)
    requires Inv(boot, s) && s.tag.Joining?
    ensures var s' := OnCommitWhileJoining(c, s, qc, hash, now).0; Inv(boot, s') && Forward(s, s')
  {
    if hash in s.buffer.prepares {
      var p := s.buffer.prepares[hash].proposal;
      if p.slot > s.slot && VerifyQc(s.staking, VoteBytes(Hash(p)), qc) {
        CommitKeeps(boot, c, FollowCurrent(s.(current := p)), qc, CommitQc(qc), now);
      }
    }
  }

  lemma OnCommitKeeps(boot: seq<Committed>, c: Config, s: Node, qc: AggregateSignature, hash: ProposalHash, now: Timestamp)
    requires Inv(boot, s)
    ensures var s' := OnCommit(c, s, qc, hash, now).0; Inv(boot, s') && Forward(s, s')
  {
    if s.tag.Joining? {
      OnCommitWhileJoiningKeeps(boot, c, s, qc, hash, now);
    } else if s.tag.Follower? && CurrentSlotPrepareIsPresent(s) && VerifyQc(s.staking, VoteBytes(Hash(s.current)), qc) {
      CommitKeeps(boot, c, s, qc, CommitQc(qc), now);
    }
  }

  //  Timeouts

  lemma JoinMutinyCalm(c: Config, s: Node, now: Timestamp)
    ensures Calm(s, JoinMutiny(c, s, now).0)
  {}

  lemma CertifyTimeoutKeeps(boot: seq<Committed>, c: Config, s: Node, now: Timestamp)
    requires Inv(boot, s)
    ensures var s' := CertifyTimeout(c, s, now).0;
            Inv(boot, s') && Forward(s, s') && s'.slot == s.slot && s'.highestQc == s.highestQc
  {
    match TimeoutTicket(c, s)
    case None =>
    case Some(ticket) =>
      var s1 := ScheduleTimeout(c, s, now);
      CalmKeeps(boot, s, s1);
      match NextViewLeader(s1)
      case None =>
      case Some(leader) =>
        if leader == c.me {
          var s2 := if s1.tag.Joining? then s1.(tag := Leader) else s1;
          TimeoutKeeps(boot, c, s2, ticket, now);
          TimeoutAdvance(c, s2, ticket, now);
        } else {
          var s2 := Send(s1, Everyone, TimeoutCertificateMsg(ticket.tc, ticket.kind, s1.slot, s1.view))
                    .(timeoutState := CertificateEmitted);
          CalmKeeps(boot, s1, s2);
          if !s2.tag.Joining? {
            TimeoutKeeps(boot, c, s2, ticket, now);
            TimeoutAdvance(c, s2, ticket, now);
          }
        }
  }

  lemma CountTimeoutKeeps(boot: seq<Committed>, c: Config, s: Node, now: Timestamp)
    requires Inv(boot, s)
    ensures var s' := CountTimeout(c, s, now).0;
            Inv(boot, s') && Forward(s, s') && s'.slot == s.slot && s'.highestQc == s.highestQc
  {
    var (s1, power) := JoinMutiny(c, s, now);
    JoinMutinyCalm(c, s, now);
    CalmKeeps(boot, s, s1);
    if power > 2 * F(s1.staking) && !s1.timeoutState.CertificateEmitted? {
      CertifyTimeoutKeeps(boot, c, s1, now);
      ForwardTransitive(s, s1, CertifyTimeout(c, s1, now).0);
    }
  }

  lemma OnTimeoutKeeps(boot: seq<Committed>, c: Config, s: Node, t: ConsensusTimeout, now: Timestamp)
    requires Inv(boot, s)
    ensures var s' := OnTimeout(c, s, t, now).0;
            && Inv(boot, s') && Forward(s, s') && s'.slot == s.slot
            && (t.kind.NilProposal? ==> s'.highestQc == s.highestQc)
  {
    if IsBonded(s.staking, c.me) && t.signed.msg == TimeoutMeta(s.slot, s.view, s.parentHash) {
      var (s1, ok) := AdoptTimeout(s, t);
      CalmKeeps(boot, s, s1);
      if ok && t !in s1.requests {
        var s2 := s1.(requests := s1.requests + {t});
        CalmKeeps(boot, s, s2);
        CountTimeoutKeeps(boot, c, s2, now);
        ForwardTransitive(s, s2, CountTimeout(c, s2, now).0);
      }
    }
  }

  lemma OnTimeoutTickKeeps(boot: seq<Committed>, c: Config, s: Node, now: Timestamp)
    requires Inv(boot, s)
    ensures var s' := OnTimeoutTick(c, s, now).0; Inv(boot, s') && Forward(s, s')
  {
    if s.timeoutState.Scheduled? && now >= s.timeoutState.timestamp {
      var own := TimeoutMessage(c, s);
      OnTimeoutKeeps(boot, c, s, own, now);
      var (s1, ok) := OnTimeout(c, s, own, now);
      if ok {
        CalmKeeps(boot, s1, ScheduleTimeout(c, Send(s1, Everyone, TimeoutMsg(own)), now));
      }
    }
  }

  lemma OnTimeoutCertificateKeeps(boot: seq<Committed>, c: Config, s: Node, tc: AggregateSignature, kind: TcKind, slot: Slot, view: View, now: Timestamp)
    requires Inv(boot, s)
    ensures var s' := OnTimeoutCertificate(c, s, tc, kind, slot, view, now).0; Inv(boot, s') && Forward(s, s')
  {
    if slot == s.slot && view == s.view {
      var (s1, ok) := VerifyTc(s, tc, kind, slot, view);
      VerifyTcCalm(s, tc, kind, view);
      CalmKeeps(boot, s, s1);
      var s2 := if s1.tag.Joining? && NextViewLeader(s1) != Some(c.me) then s1.(tag := Leader) else s1;
      if !s2.tag.Joining? {
        TimeoutKeeps(boot, c, s2, TimeoutQc(tc, kind), now);
      }
    }
  }

  //  Runs

  lemma OnNewBlockKeeps(boot: seq<Committed>, s: Node, height: Slot, hash: ProposalHash, actions: seq<BlockAction>, newBonded: seq<Pubkey>)
    requires Inv(boot, s)
    ensures var s' := OnNewBlock(s, height, hash, actions, newBonded).0; Inv(boot, s') && Forward(s, s')
  {}

  predicate OfTheRound(msg: NetMessage) {
    msg.PrepareMsg? || msg.PrepareVoteMsg? || msg.ConfirmMsg? || msg.ConfirmAckMsg? || msg.CommitMsg?
  }

  lemma RoundMessageKeeps(boot: seq<Committed>, c: Config, s: Node, sender: Pubkey, msg: NetMessage, ask: Destination, now: Timestamp)
    requires Inv(boot, s) && OfTheRound(msg)
    ensures var s' := OnMessage(c, s, sender, msg, ask, now).0; Inv(boot, s') && Forward(s, s')
  {
    match msg
    case PrepareMsg(p, ticket, view) => OnPrepareKeeps(boot, c, s, Prepare(sender, p, ticket, view), ask, now);
    case PrepareVoteMsg(vote) => OnPrepareVoteKeeps(boot, c, s, vote);
    case ConfirmMsg(qc, hash) => OnConfirmKeeps(boot, c, s, qc, hash);
    case ConfirmAckMsg(ack) => OnConfirmAckKeeps(boot, c, s, ack, now);
    case CommitMsg(qc, hash) => OnCommitKeeps(boot, c, s, qc, hash, now);
  }

  lemma OnMessageKeeps(boot: seq<Committed>, c: Config, s: Node, sender: Pubkey, msg: NetMessage, ask: Destination, now: Timestamp)
    requires Inv(boot, s)
    ensures var s' := OnMessage(c, s, sender, msg, ask, now).0; Inv(boot, s') && Forward(s, s')
  {
    match msg
    case TimeoutMsg(t) => OnTimeoutKeeps(boot, c, s, t, now);
    case TimeoutCertificateMsg(tc, kind, slot, view) => OnTimeoutCertificateKeeps(boot, c, s, tc, kind, slot, view, now);
    case CandidacyMsg(candidacy) => CalmKeeps(boot, s, OnCandidacy(s, candidacy).0);
    case SyncRequestMsg(hash) => CalmKeeps(boot, s, OnSyncRequest(s, sender, hash));
    case SyncReplyMsg(p) => OnPrepareKeeps(boot, c, s, p, ask, now);
    case _ => RoundMessageKeeps(boot, c, s, sender, msg, ask, now);
  }

  lemma HandleKeeps(boot: seq<Committed>, c: Config, s: Node, input: Input, now: Timestamp)
    requires Inv(boot, s)
    ensures var s' := Handle(c, s, input, now).0; Inv(boot, s') && Forward(s, s')
  {
    match input
    case Receive(sender, msg, ask) => OnMessageKeeps(boot, c, s, sender, msg, ask, now);
    case TimeoutTick => OnTimeoutTickKeeps(boot, c, s, now);
    case StartSlot(mayDelay, answer) => StartRoundKeeps(boot, c, s, now, mayDelay, answer);
    case NewBlock(height, hash, actions, newBonded) => OnNewBlockKeeps(boot, s, height, hash, actions, newBonded);
  }

}
