/**
  The consensus module as the program has it: one object whose handlers update its fields.
  Every handler is proved to do what its function in `Round` says, no more and no less, and
  whatever the object handles keeps the invariant of `Safety`.
 */
module ConsensusNode {
  import opened Model
  import opened Staking
  import opened Messages
  import opened PrepareBuffer
  import opened Round
  import opened Safety
  import opened Runs

  class Consensus {
    const conf: Config
    /** The commit events from before the first handler ran. */
    ghost const boot: seq<Committed>

    var staking: Registry
    var slot: Slot
    var view: View
    var parentHash: ProposalHash
    var parentTimestamp: Timestamp
    var parentCut: Cut
    var current: ConsensusProposal
    var leader: LeaderState
    var bufferedQc: Option<AggregateSignature>
    const buffered: BufferedPrepares
    var requests: set<ConsensusTimeout>
    var timeoutState: TimeoutState
    var highestQc: Option<PrepareQcAt>
    var stakingUpdatedTo: Slot
    var tag: StateTag
    var candidates: seq<Signed<string>>
    var commits: seq<Committed>
    var sent: seq<Output>

    ghost predicate Intact()
      reads this, buffered
    {
      buffered.Valid()
    }

    ghost function State(): Node
      requires Intact()
      reads this, buffered
    {
      Node(staking, slot, view, parentHash, parentTimestamp, parentCut, current, leader, bufferedQc,
           buffered.Contents(), requests, timeoutState, highestQc, stakingUpdatedTo, tag, candidates,
           commits, sent)
    }

    ghost predicate Valid()
      reads this, buffered
    {
      Intact() && (boot != [] ==> boot[0].proposal.slot == 0) && Inv(boot, State())
    }

    /** Starts from the genesis block; the staking registry already holds its validators. */
    constructor (conf: Config, staking: Registry, genesis: ConsensusProposal, certificate: AggregateSignature)
      requires genesis.slot == 0 && staking.bonded != []
      ensures Valid() && this.conf == conf && fresh(buffered)
      ensures State() == GenesisNode(conf, staking, genesis, certificate) && boot == State().commits
    {
      this.conf := conf;
      this.staking := staking;
      slot, view := 1, 0;
      parentHash, parentTimestamp, parentCut := Hash(genesis), 0, [];
      current := DEFAULT_PROPOSAL;
      bufferedQc, requests, timeoutState, highestQc := None, {}, Inactive, None;
      stakingUpdatedTo, candidates := 0, [];
      commits := [Committed(staking, genesis, certificate)];
      boot := [Committed(staking, genesis, certificate)];
      var buffer := new BufferedPrepares();
      buffered := buffer;
      if LeaderAt(staking.bonded, 1, 0) == Some(conf.me) {
        tag, leader, sent := Leader, FRESH_LEADER.(pendingTicket := Some(Genesis)), [Enqueue];
      } else {
        tag, leader, sent := Follower, FRESH_LEADER, [];
      }
    }

    /** Starts again from what was saved, to catch up. */
    constructor Restart(conf: Config, saved: Node)
      requires Rejoining(saved)
      ensures Valid() && this.conf == conf && fresh(buffered)
      ensures State() == saved && boot == []
    {
      this.conf := conf;
      boot := [];
      staking, slot, view := saved.staking, saved.slot, saved.view;
      parentHash, parentTimestamp, parentCut := saved.parentHash, saved.parentTimestamp, saved.parentCut;
      current, leader, bufferedQc := saved.current, saved.leader, saved.bufferedQc;
      requests, timeoutState, highestQc := saved.requests, saved.timeoutState, saved.highestQc;
      stakingUpdatedTo, tag, candidates := saved.stakingUpdatedTo, saved.tag, saved.candidates;
      commits, sent := saved.commits, saved.sent;
      var buffer := new BufferedPrepares.From(saved.buffer);
      buffered := buffer;
    }

    //  Bus

    method Send(to: Destination, msg: NetMessage)
      requires Intact()
      modifies this`sent
      ensures Intact() && State() == Round.Send(old(State()), to, msg)
    {
      sent := sent + [Network(slot, view, to, msg)];
    }

    method EmitCommitEvent(certificate: AggregateSignature)
      requires Intact()
      modifies this`commits
      ensures Intact() && State() == Round.EmitCommit(old(State()), certificate)
    {
      commits := commits + [Committed(staking, current, certificate)];
    }

    //  Rounds

    method RoundLeader() returns (key: Option<Pubkey>)
      requires Intact()
      ensures key == Round.RoundLeader(State())
    {
      if |staking.bonded| == 0 {
        return None;
      }
      var index := WrappingPred(slot + view) % |staking.bonded|;
      key := Some(staking.bonded[index]);
    }

    /** Looks one view ahead by moving there and back. */
    method NextViewLeader() returns (key: Option<Pubkey>)
      requires Intact()
      modifies this`view
      ensures Intact() && State() == old(State())
      ensures key == Round.NextViewLeader(State())
    {
      view := view + 1;
      key := RoundLeader();
      view := view - 1;
    }

    method ApplyStakingActions(actions: seq<StakingAction>) returns (ok: bool)
      modifies this`staking
      ensures (staking, ok) == Round.ApplyStakingActions(old(staking), actions)
    {
      var i := 0;
      while i < |actions|
        invariant 0 <= i <= |actions|
        invariant Round.ApplyStakingActions(old(staking), actions) == Round.ApplyStakingActions(staking, actions[i..])
      {
        assert actions[i..][1..] == actions[i + 1..];
        match actions[i] {
          case Bond(candidate) =>
            var (r, bonded) := BondValidator(staking, candidate.validator);
            staking := r;
            if !bonded {
              return false;
            }
          case PayFeesForDaDi(lane, size) =>
            staking := PayForDaDi(staking, lane, size);
        }
        i := i + 1;
      }
      ok := true;
    }

    method SettleStaking(actions: seq<StakingAction>) returns (ok: bool)
      modifies this`staking
      ensures (staking, ok) == Round.SettleStaking(old(staking), actions)
    {
      ok := ApplyStakingActions(actions);
      if ok {
        var (r, distributed) := Distribute(staking);
        staking := r;
        ok := distributed;
      }
    }

    method ScheduleTimeout(now: Timestamp)
      requires Intact()
      modifies this`timeoutState
      ensures Intact() && State() == Round.ScheduleTimeout(conf, old(State()), now)
    {
      timeoutState := Scheduled(now + conf.timeoutAfter);
    }

    method BuildOnCurrent()
      requires Intact()
      modifies this`parentHash, this`parentTimestamp, this`parentCut
      ensures Intact() && State() == Round.BuildOnCurrent(old(State()))
    {
      parentHash, parentTimestamp, parentCut := Hash(current), current.timestamp, current.cut;
    }

    method NextSlot(qc: Option<AggregateSignature>)
      requires Intact()
      modifies this
      ensures Intact() && State() == Round.NextSlot(old(State()), qc)
    {
      BuildOnCurrent();
      slot, view := slot + 1, 0;
      bufferedQc := qc;
      current := current.(stakingActions := []);
    }

    method CloseSlot(qc: Option<AggregateSignature>) returns (ok: bool)
      requires Intact()
      modifies this
      ensures Intact() && (State(), ok) == Round.CloseSlot(old(State()), qc)
    {
      var actions := current.stakingActions;
      NextSlot(qc);
      ok := SettleStaking(actions);
    }

    method Elect(now: Timestamp) returns (ok: bool)
      requires Intact()
      modifies this
      ensures Intact() && (State(), ok) == Round.Elect(conf, old(State()), now)
    {
      var key := RoundLeader();
      if key.None? {
        return false;
      }
      if key.value == conf.me {
        tag := Leader;
      } else {
        tag := Follower;
        ScheduleTimeout(now);
      }
      ok := true;
    }

    method EndRound(ticket: Ticket) returns (ok: bool)
      requires Intact()
      modifies this
      ensures Intact() && (State(), ok) == Round.EndRound(old(State()), ticket)
    {
      match ticket {
        case CommitQc(qc) =>
          ok := CloseSlot(Some(qc));
        case ForcedCommitQc =>
          ok := CloseSlot(None);
        case TimeoutQc(_, _) =>
          view := view + 1;
          bufferedQc := None;
          ok := true;
        case Genesis =>
          ok := false;
      }
    }

    method ApplyTicket(ticket: Ticket, now: Timestamp) returns (ok: bool)
      requires Intact()
      modifies this
      ensures Intact() && (State(), ok) == Round.ApplyTicket(conf, old(State()), ticket, now)
    {
      if tag.Joining? {
        return false;
      }
      leader, requests := FRESH_LEADER, {};
      ok := EndRound(ticket);
      if ok {
        ok := Elect(now);
      }
    }

    method AdvanceRound(ticket: Ticket, now: Timestamp) returns (ok: bool)
      requires Intact()
      modifies this
      ensures Intact() && (State(), ok) == Round.AdvanceRound(conf, old(State()), ticket, now)
    {
      ok := ApplyTicket(ticket, now);
      if !ok {
        return;
      }
      var child := buffered.Next(Hash(current));
      if tag.Leader? && child.None? && !ticket.ForcedCommitQc? {
        leader := leader.(pendingTicket := Some(ticket));
        sent := sent + [Enqueue];
      } else if IsBonded(staking, conf.me) {
      } else if Stake(staking, conf.me) > MIN_STAKE {
        Send(Everyone, CandidacyMsg(SignCandidacy(conf.me, conf.address)));
      }
    }

    method CommitCurrent(certificate: AggregateSignature, ticket: Ticket, now: Timestamp) returns (ok: bool)
      requires Intact()
      modifies this
      ensures Intact() && (State(), ok) == Round.CommitCurrent(conf, old(State()), certificate, ticket, now)
    {
      EmitCommitEvent(certificate);
      ok := AdvanceRound(ticket, now);
    }

    //  Leader

    method Propose(now: Timestamp, cut: Cut)
      requires Intact()
      modifies this`current, this`candidates
      ensures Intact()
      ensures State() == old(State()).(current := NewProposal(old(State()), now, cut), candidates := [])
    {
      var bonds := BondsFor(staking, candidates);
      candidates := [];
      current := ConsensusProposal(slot, parentHash, cut, bonds + FeesFor(cut), now);
    }

    method OpenRound(ticket: Ticket)
      requires Intact()
      modifies this`leader, this`sent, buffered
      ensures Intact() && State() == Round.OpenRound(conf, old(State()), ticket)
    {
      leader := leader.(step := PrepareVote);
      buffered.AddPrepare(Prepare(conf.me, current, ticket, view));
      Send(Everyone, PrepareMsg(current, ticket, view));
    }

    method StartRound(now: Timestamp, mayDelay: Option<Timestamp>, answer: CutAnswer) returns (ok: bool)
      requires Intact()
      modifies this, buffered
      ensures Intact() && (State(), ok) == Round.StartRound(conf, old(State()), now, mayDelay, answer)
    {
      if !leader.step.StartNewSlot? {
        return false;
      }
      if !tag.Leader? {
        return false;
      }
      if leader.pendingTicket.None? {
        return false;
      }
      var ticket := leader.pendingTicket.value;
      leader := leader.(pendingTicket := None);
      if current.slot != slot {
        var cut := parentCut;
        if answer.Some? {
          if (mayDelay.None? || mayDelay.value > now) && !ticket.TimeoutQc? && answer.value == parentCut {
            leader := leader.(pendingTicket := Some(ticket));
            sent := sent + [EnqueueLater(mayDelay.GetOr(now + conf.slotDuration))];
            return true;
          }
          cut := answer.value;
        }
        Propose(now, cut);
      }
      OpenRound(ticket);
      ok := true;
    }

    method OnPrepareVote(vote: Signed<ProposalHash>) returns (ok: bool)
      requires Intact()
      modifies this
      ensures Intact() && (State(), ok) == Round.OnPrepareVote(conf, old(State()), vote)
    {
      if !tag.Leader? || !leader.step.PrepareVote? {
        return true;
      }
      var hash := Hash(current);
      if vote.msg != hash {
        return false;
      }
      leader := leader.(prepareVotes := leader.prepareVotes + {vote});
      var power := Power(staking, Validators(leader.prepareVotes)) + OwnPower(conf, staking);
      if power > 2 * F(staking) {
        var qc := SignAggregate(conf.me, hash, VoteBytes(hash), leader.prepareVotes);
        if qc.None? {
          return false;
        }
        leader := leader.(step := ConfirmAck);
        Send(Everyone, ConfirmMsg(qc.value, hash));
      }
      ok := true;
    }

    method OnConfirmAck(ack: Signed<ProposalHash>, now: Timestamp) returns (ok: bool)
      requires Intact()
      modifies this
      ensures Intact() && (State(), ok) == Round.OnConfirmAck(conf, old(State()), ack, now)
    {
      if !tag.Leader? || !leader.step.ConfirmAck? {
        return true;
      }
      var hash := Hash(current);
      if ack.msg != hash {
        return false;
      }
      if ack in leader.confirmAcks {
        return true;
      }
      leader := leader.(confirmAcks := leader.confirmAcks + {ack});
      var power := Power(staking, Validators(leader.confirmAcks)) + OwnPower(conf, staking);
      if power > 2 * F(staking) {
        var qc := SignAggregate(conf.me, hash, VoteBytes(hash), leader.confirmAcks);
        if qc.None? {
          return false;
        }
        Send(Everyone, CommitMsg(qc.value, ack.msg));
        if !VerifyQc(staking, VoteBytes(hash), qc.value) {
          return false;
        }
        ok := CommitCurrent(qc.value, CommitQc(qc.value), now);
        return;
      }
      ok := true;
    }

    //  Follower

    method VerifyPoda(cut: Cut) returns (ok: bool)
      ensures ok == Round.VerifyPoda(staking, parentCut, cut)
    {
      var i := 0;
      while i < |parentCut|
        invariant 0 <= i <= |parentCut|
        invariant forall k :: 0 <= k < i ==> FindLane(cut, parentCut[k].lane).Some?
      {
        if FindLane(cut, parentCut[i].lane).None? {
          return false;
        }
        i := i + 1;
      }
      i := 0;
      while i < |cut|
        invariant 0 <= i <= |cut|
        invariant forall k :: 0 <= k < i ==> VerifyPodaEntry(staking, parentCut, cut[k])
      {
        var e := cut[i];
        var power := Power(staking, e.poda.validators);
        if !IsKnown(staking, e.lane) {
          return false;
        }
        var previous := FindLane(parentCut, e.lane);
        if previous.Some? && previous.value.dp == e.dp {
          i := i + 1;
          continue;
        }
        if previous.Some? && e.cumulSize <= previous.value.cumulSize {
          return false;
        }
        if power < F(staking) + 1 {
          return false;
        }
        if !VerifyAggregate(DataVoteBytes(e.dp, e.cumulSize), e.poda) {
          return false;
        }
        i := i + 1;
      }
      ok := true;
    }

    method CheckStakingActions(p: ConsensusProposal) returns (ok: bool)
      modifies this`candidates, this`sent
      ensures (candidates, sent, ok) ==
              Round.CheckStakingActions(staking, p.cut, p.stakingActions, old(candidates), old(sent))
    {
      var i := 0;
      while i < |p.stakingActions|
        invariant 0 <= i <= |p.stakingActions|
        invariant Round.CheckStakingActions(staking, p.cut, p.stakingActions, old(candidates), old(sent))
               == Round.CheckStakingActions(staking, p.cut, p.stakingActions[i..], candidates, sent)
      {
        assert p.stakingActions[i..][1..] == p.stakingActions[i + 1..];
        match p.stakingActions[i] {
          case Bond(candidate) =>
            if !CanBond(staking, candidate) {
              return false;
            }
            candidates := DropCandidate(candidates, candidate.validator);
            sent := sent + [ConnectTo(candidate.msg)];
          case PayFeesForDaDi(lane, size) =>
            if !VerifyDaDiFees(p.cut, lane, size) {
              return false;
            }
        }
        i := i + 1;
      }
      ok := true;
    }

    method ProcessCommitTicket(p: ConsensusProposal, qc: AggregateSignature, now: Timestamp) returns (outcome: TicketOutcome)
      requires Intact()
      modifies this
      ensures Intact() && (State(), outcome) == Round.ProcessCommitTicket(conf, old(State()), p, qc, now)
    {
      if !(p.slot == slot || (p.slot == slot + 1 && current.slot == slot)) {
        return NotProcessed;
      }
      if bufferedQc == Some(qc) {
        return Processed;
      }
      if current.slot != slot {
        if VerifyQc(staking, VoteBytes(parentHash), qc) {
          return Processed;
        }
        return Failed;
      }
      if !VerifyQc(staking, VoteBytes(Hash(current)), qc) {
        return Failed;
      }
      var ok := CommitCurrent(qc, CommitQc(qc), now);
      outcome := if ok then Processed else Failed;
    }

    method AdoptPrepareQc(qcSlot: Slot, qc: AggregateSignature, p: ConsensusProposal)
      requires Intact()
      modifies this`highestQc, this`current
      ensures Intact() && State() == Round.AdoptPrepareQc(old(State()), qcSlot, qc, p)
    {
      if highestQc.Some? && qcSlot < highestQc.value.slot {
        return;
      }
      highestQc := Some(PrepareQcAt(qcSlot, qc));
      current := p;
    }

    method VerifyTc(tc: AggregateSignature, kind: TcKind, tcSlot: Slot, tcView: View) returns (ok: bool)
      requires Intact()
      modifies this`highestQc, this`current
      ensures Intact() && (State(), ok) == Round.VerifyTc(old(State()), tc, kind, tcSlot, tcView)
    {
      if !VerifyQc(staking, TimeoutBytes(tcSlot, tcView, parentHash), tc) {
        return false;
      }
      match kind {
        case TcNil =>
        case TcPrepareQc(qc, p) =>
          if p.slot != tcSlot || !VerifyQc(staking, VoteBytes(Hash(p)), qc) {
            return false;
          }
          AdoptPrepareQc(tcSlot, qc, p);
      }
      ok := true;
    }

    method ForceCommit(p: ConsensusProposal, now: Timestamp) returns (ok: bool)
      requires Intact()
      modifies this
      ensures Intact() && (State(), ok) == Round.ForceCommit(conf, old(State()), p, now)
    {
      if !(p.slot == slot + 1 && current.slot == slot && p.parentHash == Hash(current)) {
        return true;
      }
      if ChangesVotingPower(current) {
        return false;
      }
      ok := CommitCurrent(EMPTY_SIGNATURE, ForcedCommitQc, now);
    }

    method ProcessTcTicket(tc: AggregateSignature, kind: TcKind, p: ConsensusProposal, prepareView: View, now: Timestamp)
      returns (outcome: TicketOutcome)
      requires Intact()
      modifies this
      ensures Intact() && (State(), outcome) == Round.ProcessTcTicket(conf, old(State()), tc, kind, p, prepareView, now)
    {
      if !(p.slot == slot || (p.slot == slot + 1 && current.slot == slot)) {
        return NotProcessed;
      }
      if kind.TcPrepareQc? && kind.proposal != p {
        return Failed;
      }
      var ok := ForceCommit(p, now);
      if !ok || p.slot != slot {
        return Failed;
      }
      ok := VerifyTc(tc, kind, slot, WrappingPred(prepareView));
      if !ok {
        return Failed;
      }
      if prepareView == view + 1 {
        ok := AdvanceRound(TimeoutQc(tc, kind), now);
        if !ok {
          return Failed;
        }
      }
      outcome := Processed;
    }

    method ProcessTicket(p: Prepare, now: Timestamp) returns (outcome: TicketOutcome)
      requires Intact()
      modifies this
      ensures Intact() && (State(), outcome) == Round.ProcessTicket(conf, old(State()), p, now)
    {
      match p.ticket
      case Genesis =>
        outcome := if slot == 1 then Processed else Failed;
      case CommitQc(qc) =>
        outcome := ProcessCommitTicket(p.proposal, qc, now);
      case TimeoutQc(tc, kind) =>
        outcome := ProcessTcTicket(tc, kind, p.proposal, p.view, now);
      case ForcedCommitQc =>
        outcome := Failed;
    }

    method BufferAndFetch(p: Prepare, ask: Destination)
      requires Intact()
      modifies this`sent, buffered
      ensures Intact() && State() == Round.BufferAndFetch(conf, old(State()), p, ask)
    {
      if Hash(p.proposal) !in buffered.prepares {
        buffered.AddPrepare(p);
      }
      var missing := buffered.FindMissing(p.proposal.parentHash, Hash(current));
      if missing.Some? {
        Send(ask, SyncRequestMsg(missing.value));
      }
    }

    method AcceptProposal(p: Prepare) returns (ok: bool)
      requires Intact()
      modifies this, buffered
      ensures Intact() && (State(), ok) == Round.AcceptProposal(conf, old(State()), p)
    {
      if p.proposal.slot != slot || p.view != view {
        return false;
      }
      var key := RoundLeader();
      if key != Some(p.sender) {
        return false;
      }
      ok := VerifyPoda(p.proposal.cut);
      if !ok {
        return;
      }
      ok := CheckStakingActions(p.proposal);
      if !ok {
        return;
      }
      ok := VerifyTimestamp(conf, view, parentTimestamp, p.proposal.timestamp);
      if !ok {
        return;
      }
      current := p.proposal;
      buffered.AddPrepare(p);
    }

    method Vote(p: Prepare)
      requires Intact()
      modifies this`sent
      ensures Intact() && State() == Round.Vote(conf, old(State()), p)
    {
      if IsBonded(staking, conf.me) {
        Send(To(p.sender), PrepareVoteMsg(SignVote(conf.me, Hash(p.proposal))));
      }
    }

    method OnPrepare(p: Prepare, ask: Destination, now: Timestamp) returns (ok: bool)
      requires Intact()
      modifies this, buffered
      ensures Intact() && (State(), ok) == Round.OnPrepare(conf, old(State()), p, ask, now)
      decreases |Deeper(buffered.Contents(), Hash(p.proposal))|, 1
    {
      if tag.Joining? {
        if (p.proposal.slot == slot && current.slot != slot)
           || (current.slot == slot
               && (p.proposal.slot == slot + 1 || (p.proposal.slot == slot && p.view > view))) {
          tag := Follower;
        } else {
          buffered.AddPrepare(p);
          return true;
        }
      }
      if p.proposal.slot < slot {
        return true;
      }
      var outcome := ProcessTicket(p, now);
      if outcome.Failed? {
        return false;
      }
      if outcome.NotProcessed? {
        BufferAndFetch(p, ask);
        return true;
      }
      ok := OnTicketProcessed(p, ask, now);
    }

    method OnTicketProcessed(p: Prepare, ask: Destination, now: Timestamp) returns (ok: bool)
      requires Intact()
      modifies this, buffered
      ensures Intact() && (State(), ok) == Round.OnTicketProcessed(conf, old(State()), p, ask, now)
      decreases |Deeper(buffered.Contents(), Hash(p.proposal))|, 0
    {
      ok := AcceptProposal(p);
      if !ok {
        return;
      }
      var next := buffered.Next(Hash(p.proposal));
      if next.Some? {
        DeeperShrinks(old(buffered.Contents()), p, next.value);
        ok := OnPrepare(next.value, ask, now);
      } else {
        Vote(p);
      }
    }

    method OnConfirm(qc: AggregateSignature, hash: ProposalHash) returns (ok: bool)
      requires Intact()
      modifies this
      ensures Intact() && (State(), ok) == Round.OnConfirm(conf, old(State()), qc, hash)
    {
      if !tag.Follower? || hash != Hash(current) {
        return true;
      }
      if !VerifyQc(staking, VoteBytes(hash), qc) {
        return false;
      }
      if highestQc.None? || slot >= highestQc.value.slot {
        highestQc := Some(PrepareQcAt(slot, qc));
      }
      if IsBonded(staking, conf.me) {
        var key := RoundLeader();
        if key.None? {
          return false;
        }
        Send(To(key.value), ConfirmAckMsg(SignVote(conf.me, hash)));
      }
      ok := true;
    }

    method FollowCurrent()
      requires Intact()
      modifies this`slot, this`view, this`tag
      ensures Intact() && State() == Round.FollowCurrent(old(State()))
    {
      slot, view, tag := current.slot, 0, Follower;
    }

    method OnCommitWhileJoining(qc: AggregateSignature, hash: ProposalHash, now: Timestamp) returns (ok: bool)
      requires Intact()
      modifies this
      ensures Intact() && (State(), ok) == Round.OnCommitWhileJoining(conf, old(State()), qc, hash, now)
    {
      if hash !in buffered.prepares {
        return true;
      }
      var p := buffered.prepares[hash].proposal;
      if p.slot <= slot || stakingUpdatedTo + 1 < p.slot {
        return true;
      }
      current := p;
      if !VerifyQc(staking, VoteBytes(Hash(p)), qc) {
        return false;
      }
      FollowCurrent();
      ok := CommitCurrent(qc, CommitQc(qc), now);
    }

    method OnCommit(qc: AggregateSignature, hash: ProposalHash, now: Timestamp) returns (ok: bool)
      requires Intact()
      modifies this
      ensures Intact() && (State(), ok) == Round.OnCommit(conf, old(State()), qc, hash, now)
    {
      if !tag.Joining? && current.slot != slot {
        return true;
      }
      match tag {
        case Follower =>
          if Hash(current) != hash {
            return true;
          }
          if !VerifyQc(staking, VoteBytes(Hash(current)), qc) {
            return false;
          }
          ok := CommitCurrent(qc, CommitQc(qc), now);
        case Joining =>
          ok := OnCommitWhileJoining(qc, hash, now);
        case Leader =>
          ok := true;
      }
    }

    //  Timeouts

    method TimeoutMessage() returns (t: ConsensusTimeout)
      requires Intact()
      ensures t == Round.TimeoutMessage(conf, State())
    {
      var meta := SignTimeout(conf.me, TimeoutMeta(slot, view, parentHash));
      if highestQc.Some? && highestQc.value.slot == slot {
        t := ConsensusTimeout(meta, PrepareQcKind(highestQc.value.qc, current));
      } else {
        t := ConsensusTimeout(meta, NilProposal(SignTimeout(conf.me, TimeoutMeta(slot, view, parentHash))));
      }
    }

    method AdoptTimeout(t: ConsensusTimeout) returns (ok: bool)
      requires Intact()
      modifies this`highestQc, this`current
      ensures Intact() && (State(), ok) == Round.AdoptTimeout(old(State()), t)
    {
      match t.kind {
        case NilProposal(_) =>
        case PrepareQcKind(qc, p) =>
          if p.slot != t.signed.msg.slot {
            return false;
          }
          if !VerifyQc(staking, VoteBytes(Hash(p)), qc) {
            return false;
          }
          AdoptPrepareQc(t.signed.msg.slot, qc, p);
      }
      ok := true;
    }

    method JoinMutiny(now: Timestamp) returns (power: nat)
      requires Intact()
      modifies this
      ensures Intact() && (State(), power) == Round.JoinMutiny(conf, old(State()), now)
    {
      var voters := TimeoutValidators(requests);
      power := Power(staking, voters);
      if power > F(staking) && conf.me !in voters {
        var own := TimeoutMessage();
        requests := requests + {own};
        Send(Everyone, TimeoutMsg(own));
        power := power + OwnPower(conf, staking);
        ScheduleTimeout(now);
      }
    }

    method TimeoutTicket() returns (ticket: Option<Ticket>)
      requires Intact()
      ensures ticket == Round.TimeoutTicket(conf, State())
    {
      var meta := TimeoutMeta(slot, view, parentHash);
      if highestQc.Some? && highestQc.value.slot == slot {
        var signed := set t | t in requests :: t.signed;
        var tc := SignAggregate(conf.me, meta, MetaBytes(meta), signed);
        ticket := if tc.None? then None else Some(TimeoutQc(tc.value, TcPrepareQc(highestQc.value.qc, current)));
      } else if exists t :: t in requests && !t.kind.NilProposal? {
        ticket := None;
      } else {
        var signed := set t | t in requests && t.kind.NilProposal? :: t.kind.inner;
        var tc := SignAggregate(conf.me, meta, MetaBytes(meta), signed);
        ticket := if tc.None? then None else Some(TimeoutQc(tc.value, TcNil));
      }
    }

    method CertifyTimeout(now: Timestamp) returns (ok: bool)
      requires Intact()
      modifies this
      ensures Intact() && (State(), ok) == Round.CertifyTimeout(conf, old(State()), now)
    {
      var ticket := TimeoutTicket();
      if ticket.None? {
        return false;
      }
      ScheduleTimeout(now);
      var key := NextViewLeader();
      if key.None? {
        return false;
      }
      if key.value == conf.me {
        if tag.Joining? {
          tag := Leader;
        }
      } else {
        Send(Everyone, TimeoutCertificateMsg(ticket.value.tc, ticket.value.kind, slot, view));
        timeoutState := CertificateEmitted;
      }
      ok := AdvanceRound(ticket.value, now);
    }

    method OnTimeout(t: ConsensusTimeout, now: Timestamp) returns (ok: bool)
      requires Intact()
      modifies this
      ensures Intact() && (State(), ok) == Round.OnTimeout(conf, old(State()), t, now)
    {
      if !IsBonded(staking, conf.me) {
        return true;
      }
      if t.signed.msg.parent != parentHash || t.signed.msg.slot != slot || t.signed.msg.view != view {
        return true;
      }
      ok := AdoptTimeout(t);
      if !ok {
        return;
      }
      if t in requests {
        return true;
      }
      requests := requests + {t};
      var power := JoinMutiny(now);
      if power > 2 * F(staking) && !timeoutState.CertificateEmitted? {
        ok := CertifyTimeout(now);
      }
    }

    method OnTimeoutTick(now: Timestamp) returns (ok: bool)
      requires Intact()
      modifies this
      ensures Intact() && (State(), ok) == Round.OnTimeoutTick(conf, old(State()), now)
    {
      if !timeoutState.Scheduled? || now < timeoutState.timestamp {
        return true;
      }
      var own := TimeoutMessage();
      ok := OnTimeout(own, now);
      if ok {
        Send(Everyone, TimeoutMsg(own));
        ScheduleTimeout(now);
      }
    }

    method OnTimeoutCertificate(tc: AggregateSignature, kind: TcKind, tcSlot: Slot, tcView: View, now: Timestamp) returns (ok: bool)
      requires Intact()
      modifies this
      ensures Intact() && (State(), ok) == Round.OnTimeoutCertificate(conf, old(State()), tc, kind, tcSlot, tcView, now)
    {
      if tcSlot < slot || (tcSlot == slot && tcView < view) {
        return true;
      }
      if tcSlot > slot || tcView > view {
        return true;
      }
      ok := VerifyTc(tc, kind, tcSlot, tcView);
      if !ok {
        return;
      }
      var key := NextViewLeader();
      if key.None? {
        return false;
      }
      if key.value != conf.me && tag.Joining? {
        tag := Leader;
      }
      ok := AdvanceRound(TimeoutQc(tc, kind), now);
    }

    //  Everything else

    method OnCandidacy(candidacy: Signed<string>) returns (ok: bool)
      requires Intact()
      modifies this`candidates
      ensures Intact() && (State(), ok) == Round.OnCandidacy(old(State()), candidacy)
    {
      if IsBonded(staking, candidacy.validator) {
        return true;
      }
      var stake := GetStake(staking, candidacy.validator);
      if stake.None? || stake.value < MIN_STAKE {
        return false;
      }
      candidates := candidates + [candidacy];
      ok := true;
    }

    method OnSyncRequest(sender: Pubkey, hash: ProposalHash)
      requires Intact()
      modifies this`sent
      ensures Intact() && State() == Round.OnSyncRequest(old(State()), sender, hash)
    {
      if hash in buffered.prepares {
        Send(To(sender), SyncReplyMsg(buffered.prepares[hash]));
      }
    }

    method ApplyBlockActions(actions: seq<BlockAction>) returns (ok: bool)
      modifies this`staking
      ensures (staking, ok) == Staking.ApplyBlockActions(old(staking), actions)
    {
      var i := 0;
      while i < |actions|
        invariant 0 <= i <= |actions|
        invariant Staking.ApplyBlockActions(old(staking), actions) == Staking.ApplyBlockActions(staking, actions[i..])
      {
        assert actions[i..][1..] == actions[i + 1..];
        var (r, applied) := ApplyBlockAction(staking, actions[i]);
        staking := r;
        if !applied {
          return false;
        }
        i := i + 1;
      }
      ok := true;
    }

    method BondAll(validators: seq<Pubkey>) returns (ok: bool)
      modifies this`staking
      ensures (staking, ok) == Staking.BondAll(old(staking), validators)
    {
      var i := 0;
      while i < |validators|
        invariant 0 <= i <= |validators|
        invariant Staking.BondAll(old(staking), validators) == Staking.BondAll(staking, validators[i..])
      {
        assert validators[i..][1..] == validators[i + 1..];
        var (r, bonded) := BondValidator(staking, validators[i]);
        staking := r;
        if !bonded {
          return false;
        }
        i := i + 1;
      }
      ok := true;
    }

    /** The block's staking actions in order, then its newly bonded validators. */
    method ProcessBlock(actions: seq<BlockAction>, newBonded: seq<Pubkey>) returns (ok: bool)
      modifies this`staking
      ensures (staking, ok) == Staking.ProcessBlock(old(staking), actions, newBonded)
      ensures StrictlySorted(old(staking).bonded) ==> StrictlySorted(staking.bonded)
    {
      ok := ApplyBlockActions(actions);
      if ok {
        ok := BondAll(newBonded);
      }
    }

    method BuildOn(slot: Slot, parentHash: ProposalHash)
      requires Intact()
      modifies this
      ensures Intact() && State() == Round.BuildOn(old(State()), slot, parentHash)
    {
      this.slot, view, this.parentHash := slot, 0, parentHash;
    }

    method SkipTo(height: Slot, hash: ProposalHash)
      requires Intact()
      modifies this
      ensures Intact() && State() == Round.SkipTo(old(State()), height, hash)
    {
      BuildOn(height + 1, hash);
      stakingUpdatedTo := height;
      current := DEFAULT_PROPOSAL.(slot := height);
      requests := {};
    }

    method OnNewBlock(height: Slot, hash: ProposalHash, actions: seq<BlockAction>, newBonded: seq<Pubkey>) returns (ok: bool)
      requires Intact()
      modifies this
      ensures Intact() && (State(), ok) == Round.OnNewBlock(old(State()), height, hash, actions, newBonded)
    {
      ok := ProcessBlock(actions, newBonded);
      if !ok {
        return;
      }
      if tag.Joining? && stakingUpdatedTo < height {
        SkipTo(height, hash);
      }
    }

    method OnMessage(sender: Pubkey, msg: NetMessage, ask: Destination, now: Timestamp) returns (ok: bool)
      requires Intact()
      modifies this, buffered
      ensures Intact() && (State(), ok) == Round.OnMessage(conf, old(State()), sender, msg, ask, now)
    {
      match msg {
        case PrepareMsg(p, ticket, v) => ok := OnPrepare(Prepare(sender, p, ticket, v), ask, now);
        case PrepareVoteMsg(vote) => ok := OnPrepareVote(vote);
        case ConfirmMsg(qc, hash) => ok := OnConfirm(qc, hash);
        case ConfirmAckMsg(ack) => ok := OnConfirmAck(ack, now);
        case CommitMsg(qc, hash) => ok := OnCommit(qc, hash, now);
        case TimeoutMsg(t) => ok := OnTimeout(t, now);
        case TimeoutCertificateMsg(tc, kind, s, v) => ok := OnTimeoutCertificate(tc, kind, s, v, now);
        case CandidacyMsg(candidacy) => ok := OnCandidacy(candidacy);
        case SyncRequestMsg(hash) =>
          OnSyncRequest(sender, hash);
          ok := true;
        case SyncReplyMsg(p) => ok := OnPrepare(p, ask, now);
      }
    }

    method Dispatch(input: Input, now: Timestamp) returns (ok: bool)
      requires Intact()
      modifies this, buffered
      ensures Intact() && (State(), ok) == Round.Handle(conf, old(State()), input, now)
    {
      match input {
        case Receive(sender, msg, ask) => ok := OnMessage(sender, msg, ask, now);
        case TimeoutTick => ok := OnTimeoutTick(now);
        case StartSlot(mayDelay, answer) => ok := StartRound(now, mayDelay, answer);
        case NewBlock(height, hash, actions, newBonded) => ok := OnNewBlock(height, hash, actions, newBonded);
      }
    }

    /**
      The node's event loop body: errors are logged and the loop goes on. Whatever comes in, and
      whether or not it is an error, nothing said before is taken back and the log stays safe.
     */
    method Handle(input: Input, now: Timestamp) returns (ok: bool)
      requires Valid()
      modifies this, buffered
      ensures Valid() && (State(), ok) == Round.Handle(conf, old(State()), input, now)
      ensures Forward(old(State()), State()) && Safe(boot, State())
    {
      ghost var before := State();
      ok := Dispatch(input, now);
      HandleKeeps(boot, conf, before, input, now);
      InvIsSafe(boot, State());
    }

    /**
      Any run of the object is a run of the functions. Its commits are consecutive and certified, it
      proposes and confirms once a round, it never times out empty-handed where it has acknowledged.
     */
    method HandleAll(events: seq<Event>)
      requires Valid()
      modifies this, buffered
      ensures Valid() && State() == Run(conf, old(State()), events)
      ensures Forward(old(State()), State()) && Safe(boot, State())
    {
      var i := 0;
      while i < |events|
        invariant 0 <= i <= |events|
        invariant Valid() && Run(conf, old(State()), events) == Run(conf, State(), events[i..])
        invariant Forward(old(State()), State())
      {
        assert events[i..][1..] == events[i + 1..];
        ghost var before := State();
        var ok := Handle(events[i].input, events[i].now);
        ForwardTransitive(old(State()), before, State());
        i := i + 1;
      }
      InvIsSafe(boot, State());
    }
  }
}
