/**
  Whole runs of one node: any inputs, in any order, at any times.
 */
module Runs {
  import opened Model
  import opened Staking
  import opened Messages
  import opened PrepareBuffer
  import opened Round
  import opened Safety

  datatype Event = Event(input: Input, now: Timestamp)

  function Run(c: Config, s: Node, events: seq<Event>): Node
    decreases |events|
  {
    if events == [] then s else Run(c, Handle(c, s, events[0].input, events[0].now).0, events[1..])
  }

  //  Where runs start

  /** A node that has just processed the genesis block, and has announced it as slot 0. */
  function GenesisNode(c: Config, staking: Registry, genesis: ConsensusProposal, certificate: AggregateSignature): Node
    requires staking.bonded != []
  {
    var leads := LeaderAt(staking.bonded, 1, 0) == Some(c.me);
    Node(staking, 1, 0, Hash(genesis), 0, [], DEFAULT_PROPOSAL,
         if leads then FRESH_LEADER.(pendingTicket := Some(Genesis)) else FRESH_LEADER,
         None, BufferOf([]), {}, Inactive, None, 0,
         if leads then Leader else Follower, [],
         [Committed(staking, genesis, certificate)], if leads then [Enqueue] else [])
  }

  /** A restarted node has to catch up, from whatever state it had saved. */
  predicate Rejoining(s: Node) {
    s.tag.Joining? && s.commits == [] && s.sent == []
  }

  ghost predicate Started(c: Config, boot: seq<Committed>, s: Node) {
    || (boot == [] && Rejoining(s))
    || (exists staking: Registry, genesis: ConsensusProposal, certificate: AggregateSignature ::
          genesis.slot == 0 && staking.bonded != [] && s == GenesisNode(c, staking, genesis, certificate) && boot == s.commits)
  }

  lemma StartedInv(c: Config, boot: seq<Committed>, s: Node)
    requires Started(c, boot, s)
    ensures Inv(boot, s)
  {}

  //  Runs

  lemma {:induction false} RunKeeps(c: Config, boot: seq<Committed>, s: Node, events: seq<Event>)
    requires Inv(boot, s)
    ensures Inv(boot, Run(c, s, events)) && Forward(s, Run(c, s, events))
    decreases |events|
  {
    if events != [] {
      var s1 := Handle(c, s, events[0].input, events[0].now).0;
      HandleKeeps(boot, c, s, events[0].input, events[0].now);
      RunKeeps(c, boot, s1, events[1..]);
      ForwardTransitive(s, s1, Run(c, s, events));
    }
  }

  lemma RunOne(c: Config, s: Node, x: Event, rest: seq<Event>)
    ensures Run(c, s, [x] + rest) == Run(c, Handle(c, s, x.input, x.now).0, rest)
  {
    assert ([x] + rest)[1..] == rest;
  }

  lemma {:induction false} RunSplits(c: Config, s: Node, events: seq<Event>, i: nat)
    requires i <= |events|
    ensures Run(c, s, events) == Run(c, Run(c, s, events[..i]), events[i..])
    decreases i
  {
    if i == 0 {
      assert events[..0] == [] && events[0..] == events;
    } else {
      var first, rest := events[0], events[1..];
      RunSplits(c, Handle(c, s, first.input, first.now).0, rest, i - 1);
      RunOne(c, s, first, rest);
      RunOne(c, s, first, rest[..i - 1]);
      assert events == [first] + rest && events[..i] == [first] + rest[..i - 1] && rest[i - 1..] == events[i..];
    }
  }

  /** Once a node has left Joining it stays out, its round never moves back, and nothing it emitted is taken back. */
  lemma RoundsNeverGoBack(c: Config, boot: seq<Committed>, s: Node, events: seq<Event>, i: nat)
    requires Started(c, boot, s) && i <= |events| && !Run(c, s, events[..i]).tag.Joining?
    ensures var before := Run(c, s, events[..i]);
            var after := Run(c, s, events);
            && !after.tag.Joining?
            && RoundLeq(before.slot, before.view, after.slot, after.view)
            && before.commits <= after.commits && before.sent <= after.sent
  {
    StartedInv(c, boot, s);
    RunKeeps(c, boot, s, events[..i]);
    RunSplits(c, s, events, i);
    RunKeeps(c, boot, Run(c, s, events[..i]), events[i..]);
  }

  /** Slots without gap or repetition, from 0 on after genesis; the round builds on the last of them. */
  ghost predicate ConsecutiveCommits(boot: seq<Committed>, s: Node) {
    && (forall i, j :: 0 <= i <= j < |s.commits| ==> s.commits[j].proposal.slot == s.commits[i].proposal.slot + (j - i))
    && (boot != [] ==> forall i :: 0 <= i < |s.commits| ==> s.commits[i].proposal.slot == i)
    && (s.commits != [] ==>
          && s.slot == s.commits[|s.commits| - 1].proposal.slot + 1
          && s.parentHash == Hash(s.commits[|s.commits| - 1].proposal))
  }

  lemma LogIsConsecutive(boot: seq<Committed>, s: Node)
    requires CommitLog(boot, s) && (boot != [] ==> boot[0].proposal.slot == 0)
    ensures ConsecutiveCommits(boot, s)
  {
    forall i, j | 0 <= i <= j < |s.commits|
      ensures s.commits[j].proposal.slot == s.commits[i].proposal.slot + (j - i)
    {
      SlotsAddUp(s.commits, i, j);
    }
    if boot != [] {
      assert s.commits[0] == boot[0];
      assert forall i :: 0 <= i < |s.commits| ==> s.commits[i].proposal.slot == s.commits[0].proposal.slot + (i - 0);
    }
  }

  /** In every run the commit events are consecutive, and the next round builds on the last of them. */
  lemma CommitsAreConsecutive(c: Config, boot: seq<Committed>, s: Node, events: seq<Event>)
    requires Started(c, boot, s)
    ensures ConsecutiveCommits(boot, Run(c, s, events))
  {
    StartedInv(c, boot, s);
    RunKeeps(c, boot, s, events);
    LogIsConsecutive(boot, Run(c, s, events));
  }

  lemma {:induction false} SlotsAddUp(commits: seq<Committed>, i: nat, j: nat)
    requires i <= j < |commits|
    requires forall k :: 0 < k < |commits| ==> commits[k].proposal.slot == commits[k - 1].proposal.slot + 1
    ensures commits[j].proposal.slot == commits[i].proposal.slot + (j - i)
  {
    if i < j {
      SlotsAddUp(commits, i, j - 1);
    }
  }

  /** What a run has told the rest of the program and the network. */
  ghost predicate Safe(boot: seq<Committed>, s: Node) {
    && ConsecutiveCommits(boot, s)
    && (forall i :: |boot| <= i < |s.commits| ==> CertifiedOrForced(s.commits[i]))
    && OncePerRound(s.sent)
    && (boot != [] ==> AckedTimeouts(s.sent))
  }

  lemma InvIsSafe(boot: seq<Committed>, s: Node)
    requires Inv(boot, s) && (boot != [] ==> boot[0].proposal.slot == 0)
    ensures Safe(boot, s)
  {
    LogIsConsecutive(boot, s);
  }

  /** Apart from the genesis event, a commit is certified by 2f+1 of the staking it carries, or was forced without a certificate. */
  lemma CommitsAreCertified(c: Config, boot: seq<Committed>, s: Node, events: seq<Event>, i: nat)
    requires Started(c, boot, s) && |boot| <= i < |Run(c, s, events).commits|
    ensures var e := Run(c, s, events).commits[i];
            if e.certificate.validators == {} then e.certificate == EMPTY_SIGNATURE
            else VerifyQc(e.staking, VoteBytes(Hash(e.proposal)), e.certificate)
  {
    StartedInv(c, boot, s);
    RunKeeps(c, boot, s, events);
  }

  /** However often it is told to start, a node sends one Prepare and one Confirm per slot and view. */
  lemma OneProposalPerRound(c: Config, boot: seq<Committed>, s: Node, events: seq<Event>, i: nat, j: nat)
    requires Started(c, boot, s) && i < |Run(c, s, events).sent| && j < |Run(c, s, events).sent|
    ensures var sent := Run(c, s, events).sent;
            && (IsPrepare(sent[i]) && IsPrepare(sent[j])
                && sent[i].msg.proposal.slot == sent[j].msg.proposal.slot && sent[i].msg.view == sent[j].msg.view
                ==> i == j)
            && (IsConfirm(sent[i]) && IsConfirm(sent[j])
                && sent[i].slot == sent[j].slot && sent[i].view == sent[j].view
                ==> i == j)
  {
    StartedInv(c, boot, s);
    RunKeeps(c, boot, s, events);
  }

  /** From genesis on, a node that has acknowledged in a slot never again times out empty-handed in it. */
  lemma AckedSlotNeverTimesOutNil(c: Config, boot: seq<Committed>, s: Node, events: seq<Event>, i: nat, j: nat)
    requires Started(c, boot, s) && boot != []
    requires i < j < |Run(c, s, events).sent|
    requires var sent := Run(c, s, events).sent;
             IsAck(sent[i]) && IsTimeout(sent[j]) && sent[j].msg.timeout.signed.msg.slot == sent[i].slot
    ensures Run(c, s, events).sent[j].msg.timeout.kind.PrepareQcKind?
  {
    StartedInv(c, boot, s);
    RunKeeps(c, boot, s, events);
  }
}
