/**
  The cached total bond over whole runs: only executed blocks make it fall behind, so exactly the
  runs in which none of them raises a bonded stake stay in sync.
 */
module StakingRuns {
  import opened Model
  import opened Staking
  import opened BondTotal
  import opened Messages
  import opened PrepareBuffer
  import opened Round
  import opened Safety
  import opened Runs
  import opened Accountability

  /** The total is as far behind as it was, and every commit in between says so. */
  ghost predicate Steady(s: Node, s': Node) {
    && Slack(s'.staking) == Slack(s.staking)
    && s.commits <= s'.commits
    && (forall i :: |s.commits| <= i < |s'.commits| ==> Slack(s'.commits[i].staking) == Slack(s.staking))
  }

  predicate Untouched(s: Node, s': Node) {
    s'.staking == s.staking && s'.commits == s.commits
  }

  lemma SteadyTransitive(s: Node, s': Node, s'': Node)
    requires Steady(s, s') && Steady(s', s'')
    ensures Steady(s, s'')
  {
    forall i | |s.commits| <= i < |s''.commits| ensures Slack(s''.commits[i].staking) == Slack(s.staking) {
      assert i < |s'.commits| ==> s''.commits[i] == s'.commits[i];
    }
  }

  /** Nothing happened to the registry, or one proposal was committed under it and settled. */
  ghost predicate CommitsAtMostOne(s: Node, s': Node) {
    || Untouched(s, s')
    || (var n := |s.commits|;
        && |s'.commits| == n + 1 && s.commits <= s'.commits && s'.commits[n].staking == s.staking
        && s'.staking == SettleStaking(s.staking, s'.commits[n].proposal.stakingActions).0)
  }

  lemma OneCommitIsSteady(s: Node, s': Node)
    requires CommitsAtMostOne(s, s')
    ensures Steady(s, s')
  {
    if !Untouched(s, s') {
      SettleKeepsSlack(s.staking, s'.commits[|s.commits|].proposal.stakingActions);
    }
  }

  //  Steps

  lemma TimeoutUntouched(c: Config, s: Node, ticket: Ticket, now: Timestamp)
    requires ticket.TimeoutQc?
    ensures Untouched(s, AdvanceRound(c, s, ticket, now).0)
  {}

  lemma CommitIsOne(c: Config, s: Node, certificate: AggregateSignature, ticket: Ticket, now: Timestamp)
    requires !s.tag.Joining? && (ticket.CommitQc? || ticket.ForcedCommitQc?)
    ensures CommitsAtMostOne(s, CommitCurrent(c, s, certificate, ticket, now).0)
  {
    CommitAdvance(c, s, certificate, ticket, now);
  }

  lemma VerifyTcUntouched(s: Node, tc: AggregateSignature, kind: TcKind, slot: Slot, view: View)
    ensures Untouched(s, VerifyTc(s, tc, kind, slot, view).0)
  {}

  lemma ForceCommitIsOne(c: Config, s: Node, p: ConsensusProposal, now: Timestamp)
    requires !s.tag.Joining?
    ensures CommitsAtMostOne(s, ForceCommit(c, s, p, now).0)
  {
    CommitIsOne(c, s, EMPTY_SIGNATURE, ForcedCommitQc, now);
  }

  lemma TcTicketIsOne(c: Config, s: Node, tc: AggregateSignature, kind: TcKind, p: ConsensusProposal, view: View, now: Timestamp)
    requires !s.tag.Joining?
    ensures CommitsAtMostOne(s, ProcessTcTicket(c, s, tc, kind, p, view, now).0)
  {
    var s1 := ForceCommit(c, s, p, now).0;
    var s2 := VerifyTc(s1, tc, kind, s1.slot, WrappingPred(view)).0;
    ForceCommitIsOne(c, s, p, now);
    VerifyTcUntouched(s1, tc, kind, s1.slot, WrappingPred(view));
    TimeoutUntouched(c, s2, TimeoutQc(tc, kind), now);
  }

  lemma TicketIsOne(c: Config, s: Node, p: Prepare, now: Timestamp)
    requires !s.tag.Joining?
    ensures CommitsAtMostOne(s, ProcessTicket(c, s, p, now).0)
  {
    match p.ticket
    case CommitQc(qc) => CommitIsOne(c, s, qc, CommitQc(qc), now);
    case TimeoutQc(tc, kind) => TcTicketIsOne(c, s, tc, kind, p.proposal, p.view, now);
    case _ =>
  }

  lemma AcceptUntouched(c: Config, s: Node, p: Prepare)
    ensures Untouched(s, AcceptProposal(c, s, p).0)
  {}

  lemma PutAside(c: Config, s: Node, p: Prepare, ask: Destination, now: Timestamp)
    requires !TakesUp(c, s, p, now)
    ensures var s' := OnPrepare(c, s, p, ask, now).0;
            Untouched(s, s') || Untouched(AfterTicket(c, s, p, now).0, s')
  {}

  lemma {:induction false} OnPrepareSteady(c: Config, s: Node, p: Prepare, ask: Destination, now: Timestamp)
    ensures Steady(s, OnPrepare(c, s, p, ask, now).0)
    decreases |Deeper(s.buffer, Hash(p.proposal))|, 1
  {
    var s1 := AfterTicket(c, s, p, now).0;
    TicketIsOne(c, if s.tag.Joining? then s.(tag := Follower) else s, p, now);
    OneCommitIsSteady(s, s1);
    if TakesUp(c, s, p, now) {
      TakenUp(c, s, p, ask, now);
      OnTicketProcessedSteady(c, s1, p, ask, now);
      SteadyTransitive(s, s1, OnTicketProcessed(c, s1, p, ask, now).0);
    } else {
      PutAside(c, s, p, ask, now);
    }
  }

  lemma {:induction false} OnTicketProcessedSteady(c: Config, s: Node, p: Prepare, ask: Destination, now: Timestamp)
    ensures Steady(s, OnTicketProcessed(c, s, p, ask, now).0)
    decreases |Deeper(s.buffer, Hash(p.proposal))|, 0
  {
    var (s1, accepted) := AcceptProposal(c, s, p);
    AcceptUntouched(c, s, p);
    if accepted && NextPrepare(s1.buffer, Hash(p.proposal)).Some? {
      var next := NextPrepare(s1.buffer, Hash(p.proposal)).value;
      DeeperShrinks(s.buffer, p, next);
      OnPrepareSteady(c, s1, next, ask, now);
    }
  }

  lemma OnConfirmAckIsOne(c: Config, s: Node, ack: Signed<ProposalHash>, now: Timestamp)
    ensures CommitsAtMostOne(s, OnConfirmAck(c, s, ack, now).0)
  {
    var s1 := s.(leader := s.leader.(confirmAcks := s.leader.confirmAcks + {ack}));
    var cert := SignAggregate(c.me, ack.msg, VoteBytes(ack.msg), s1.leader.confirmAcks);
    if s.tag.Leader? && cert.Some? {
      CommitIsOne(c, Send(s1, Everyone, CommitMsg(cert.value, ack.msg)), cert.value, CommitQc(cert.value), now);
    }
  }

  lemma OnCommitIsOne(c: Config, s: Node, qc: AggregateSignature, hash: ProposalHash, now: Timestamp)
    ensures CommitsAtMostOne(s, OnCommit(c, s, qc, hash, now).0)
  {
    if s.tag.Follower? {
      CommitIsOne(c, s, qc, CommitQc(qc), now);
    } else if s.tag.Joining? && hash in s.buffer.prepares {
      CommitIsOne(c, FollowCurrent(s.(current := s.buffer.prepares[hash].proposal)), qc, CommitQc(qc), now);
    }
  }

  lemma CertifyUntouched(c: Config, s: Node, now: Timestamp)
    ensures Untouched(s, CertifyTimeout(c, s, now).0)
  {
    var ticket, s1 := TimeoutTicket(c, s), ScheduleTimeout(c, s, now);
    if ticket.Some? && NextViewLeader(s1).Some? {
      TimeoutUntouched(c, PassTicket(c, s1, ticket.value, NextViewLeader(s1).value), ticket.value, now);
    }
  }

  lemma CountUntouched(c: Config, s: Node, now: Timestamp)
    ensures Untouched(s, CountTimeout(c, s, now).0)
  {
    CertifyUntouched(c, JoinMutiny(c, s, now).0, now);
  }

  lemma OnTimeoutUntouched(c: Config, s: Node, t: ConsensusTimeout, now: Timestamp)
    ensures Untouched(s, OnTimeout(c, s, t, now).0)
  {
    var s1 := AdoptTimeout(s, t).0;
    CountUntouched(c, s1.(requests := s1.requests + {t}), now);
  }

  lemma OnTimeoutCertificateUntouched(c: Config, s: Node, tc: AggregateSignature, kind: TcKind, slot: Slot, view: View, now: Timestamp)
    ensures Untouched(s, OnTimeoutCertificate(c, s, tc, kind, slot, view, now).0)
  {
    var s1 := VerifyTc(s, tc, kind, slot, view).0;
    VerifyTcUntouched(s, tc, kind, slot, view);
    TimeoutUntouched(c, s1, TimeoutQc(tc, kind), now);
    TimeoutUntouched(c, s1.(tag := Leader), TimeoutQc(tc, kind), now);
  }

  lemma OnMessageSteady(c: Config, s: Node, sender: Pubkey, msg: NetMessage, ask: Destination, now: Timestamp)
    ensures Steady(s, OnMessage(c, s, sender, msg, ask, now).0)
  {
    match msg
    case PrepareMsg(p, ticket, view) => OnPrepareSteady(c, s, Prepare(sender, p, ticket, view), ask, now);
    case SyncReplyMsg(p) => OnPrepareSteady(c, s, p, ask, now);
    case _ =>
      OtherMessageIsOne(c, s, sender, msg, ask, now);
      OneCommitIsSteady(s, OnMessage(c, s, sender, msg, ask, now).0);
  }

  lemma OtherMessageIsOne(c: Config, s: Node, sender: Pubkey, msg: NetMessage, ask: Destination, now: Timestamp)
    requires !msg.PrepareMsg? && !msg.SyncReplyMsg?
    ensures CommitsAtMostOne(s, OnMessage(c, s, sender, msg, ask, now).0)
  {
    match msg
    case ConfirmAckMsg(ack) => OnConfirmAckIsOne(c, s, ack, now);
    case CommitMsg(qc, hash) => OnCommitIsOne(c, s, qc, hash, now);
    case TimeoutMsg(t) => OnTimeoutUntouched(c, s, t, now);
    case TimeoutCertificateMsg(tc, kind, slot, view) => OnTimeoutCertificateUntouched(c, s, tc, kind, slot, view, now);
    case _ =>
  }

  /** Everything but an executed block leaves the total as far behind as it was. */
  lemma HandleSteady(c: Config, s: Node, input: Input, now: Timestamp)
    requires !input.NewBlock?
    ensures Steady(s, Handle(c, s, input, now).0)
  {
    match input
    case Receive(sender, msg, ask) => OnMessageSteady(c, s, sender, msg, ask, now);
    case TimeoutTick => OnTimeoutUntouched(c, s, TimeoutMessage(c, s), now);
    case StartSlot(mayDelay, answer) =>
  }

  predicate Raises(s: Node, input: Input) {
    input.NewBlock? && BlockRaisesBonded(s.staking, input.actions)
  }

  /** An executed block does exactly when it raises the stake of a bonded validator. */
  lemma HandleKeepsSlackIff(c: Config, s: Node, input: Input, now: Timestamp)
    ensures var s' := Handle(c, s, input, now).0;
            && Slack(s'.staking) >= Slack(s.staking)
            && (Slack(s'.staking) == Slack(s.staking) <==> !Raises(s, input))
            && (!Raises(s, input) ==> Steady(s, s'))
  {
    if input.NewBlock? {
      ActionsKeepSlackIff(s.staking, input.actions);
      BondAllKeepsSlack(ApplyBlockActions(s.staking, input.actions).0, input.newBonded);
    } else {
      HandleSteady(c, s, input, now);
    }
  }

  //  Runs

  /** Some block of the run raises the stake of a validator that is bonded by then. */
  predicate Raised(c: Config, s: Node, events: seq<Event>)
    decreases |events|
  {
    events != [] &&
    (Raises(s, events[0].input) || Raised(c, Handle(c, s, events[0].input, events[0].now).0, events[1..]))
  }

  lemma {:induction false} RunKeepsSlackIff(c: Config, s: Node, events: seq<Event>)
    ensures var s' := Run(c, s, events);
            && Slack(s'.staking) >= Slack(s.staking)
            && (Slack(s'.staking) == Slack(s.staking) <==> !Raised(c, s, events))
            && (!Raised(c, s, events) ==> Steady(s, s'))
    decreases |events|
  {
    if events != [] {
      var s1 := Handle(c, s, events[0].input, events[0].now).0;
      HandleKeepsSlackIff(c, s, events[0].input, events[0].now);
      RunKeepsSlackIff(c, s1, events[1..]);
      if !Raised(c, s, events) {
        SteadyTransitive(s, s1, Run(c, s, events));
      }
    }
  }

  const EMPTY_REGISTRY := Registry(map[], map[], [], 0, Fees([], map[]))

  lemma {:induction false} NobodyIsRaised(r: Registry, actions: seq<BlockAction>)
    requires r.bonded == []
    ensures !BlockRaisesBonded(r, actions)
    decreases |actions|
  {
    if actions != [] {
      NobodyIsRaised(ApplyBlockAction(r, actions[0]).0, actions[1..]);
    }
  }

  /** Whatever the genesis block stakes, delegates and bonds, its registry is in sync. */
  lemma GenesisInSync(actions: seq<BlockAction>, newBonded: seq<Pubkey>)
    ensures InSync(ProcessBlock(EMPTY_REGISTRY, actions, newBonded).0)
  {
    NobodyIsRaised(EMPTY_REGISTRY, actions);
    BlockKeepsInSyncIff(EMPTY_REGISTRY, actions, newBonded);
  }

  /** From genesis on, the registry is in sync exactly as long as no executed block raises a bonded stake. */
  lemma StaysInSyncIff(c: Config, actions: seq<BlockAction>, newBonded: seq<Pubkey>, genesis: ConsensusProposal,
                       certificate: AggregateSignature, events: seq<Event>)
    requires ProcessBlock(EMPTY_REGISTRY, actions, newBonded).0.bonded != []
    ensures var s := GenesisNode(c, ProcessBlock(EMPTY_REGISTRY, actions, newBonded).0, genesis, certificate);
            InSync(Run(c, s, events).staking) <==> !Raised(c, s, events)
  {
    GenesisInSync(actions, newBonded);
    RunKeepsSlackIff(c, GenesisNode(c, ProcessBlock(EMPTY_REGISTRY, actions, newBonded).0, genesis, certificate), events);
  }

  /**
    Forks in runs, with the bound: if one of the two nodes started in sync and saw no block that
    raises a bonded stake, those to blame hold at least f, and more than f unless the total bond
    leaves remainder 2 modulo 3.
   */
  lemma ForksInSyncedRuns(c: Config, boot: seq<Committed>, s: Node, events: seq<Event>, i: nat,
                          c': Config, boot': seq<Committed>, s': Node, events': seq<Event>, i': nat)
    requires Started(c, boot, s) && |boot| <= i < |Run(c, s, events).commits|
    requires Started(c', boot', s') && |boot'| <= i' < |Run(c', s', events').commits|
    requires Run(c, s, events).commits[i].staking == Run(c', s', events').commits[i'].staking
    requires Run(c, s, events).commits[i].proposal.slot == Run(c', s', events').commits[i'].proposal.slot
    requires InSync(s.staking) && !Raised(c, s, events)
    ensures var e := Run(c, s, events).commits[i];
            var e' := Run(c', s', events').commits[i'];
            || Hash(e.proposal) == Hash(e'.proposal)
            || e.certificate == EMPTY_SIGNATURE || e'.certificate == EMPTY_SIGNATURE
            || (&& Blamed(e.staking, e, e')
                && Power(e.staking, DoubleSigners(e, e')) >= F(e.staking)
                && (e.staking.totalBond % 3 != 2 ==> Power(e.staking, DoubleSigners(e, e')) > F(e.staking)))
  {
    ForksInRuns(c, boot, s, events, i, c', boot', s', events', i');
    RunKeepsSlackIff(c, s, events);
    BootIsBefore(c, boot, s);
    assert Slack(Run(c, s, events).commits[i].staking) == Slack(s.staking);
  }

  lemma BootIsBefore(c: Config, boot: seq<Committed>, s: Node)
    requires Started(c, boot, s)
    ensures boot == s.commits
  {}
}
