/**
  A run from genesis after which a node's own timeout is one its peers refuse.
 */
module Misfits {
  import opened Model
  import opened Staking
  import opened Messages
  import opened Round
  import opened Runs
  import opened Accountability
  import HappyRound
  import ViewChange

  function EmptyProposal(genesis: ConsensusProposal, timestamp: Timestamp): ConsensusProposal {
    ConsensusProposal(1, Hash(genesis), [], [], timestamp)
  }

  function FromLeader(leader: Pubkey, msg: NetMessage, now: Timestamp): Event {
    Event(Receive(leader, msg, Everyone), now)
  }

  /** The leader's messages of the first round, the last two in the wrong order. */
  function CommitBeforeConfirm(leader: Pubkey, p: ConsensusProposal, qc: AggregateSignature, now: Timestamp): seq<Event> {
    [FromLeader(leader, PrepareMsg(p, Genesis, 0), now),
     FromLeader(leader, CommitMsg(qc, Hash(p)), now),
     FromLeader(leader, ConfirmMsg(qc, Hash(p)), now)]
  }

  lemma RunThree(c: Config, s: Node, x: Event, y: Event, z: Event, s1: Node, s2: Node)
    requires s1 == Handle(c, s, x.input, x.now).0 && s2 == Handle(c, s1, y.input, y.now).0
    ensures Run(c, s, [x, y, z]) == Handle(c, s2, z.input, z.now).0
  {
    RunOne(c, s, x, [y, z]);
    RunOne(c, s1, y, [z]);
    RunOne(c, s2, z, []);
    assert [x, y, z] == [x] + [y, z] && [y, z] == [y] + [z] && [z] == [z] + [];
  }

  predicate Bystander(c: Config, staking: Registry, leader: Pubkey) {
    && IsBonded(staking, c.me) && staking.fees.pending == []
    && leader != c.me && LeaderAt(staking.bonded, 1, 0) == Some(leader) && LeaderAt(staking.bonded, 2, 0) != Some(c.me)
  }

  /** The node follows the first proposal. */
  ghost predicate Follows(c: Config, staking: Registry, p: ConsensusProposal, s: Node) {
    && s.tag.Follower? && s.staking == staking && s.slot == 1 && s.current == p
    && |s.commits| == 1 && (s.highestQc.Some? ==> s.highestQc.value.slot <= s.slot)
  }

  lemma FirstVote(c: Config, staking: Registry, genesis: ConsensusProposal, certificate: AggregateSignature, leader: Pubkey, now: Timestamp)
    requires Bystander(c, staking, leader)
    ensures var p := EmptyProposal(genesis, now);
            Follows(c, staking, p, OnPrepare(c, GenesisNode(c, staking, genesis, certificate), Prepare(leader, p, Genesis, 0), Everyone, now).0)
  {
    var s := GenesisNode(c, staking, genesis, certificate);
    var p := Prepare(leader, EmptyProposal(genesis, now), Genesis, 0);
    assert HappyRound.Acceptable(c, s, p);
    HappyRound.FollowerVotes(c, s, p, Everyone, now);
  }

  lemma WrongOrder(c: Config, staking: Registry, leader: Pubkey, p: ConsensusProposal, s: Node, qc: AggregateSignature, now: Timestamp)
    requires Bystander(c, staking, leader) && Follows(c, staking, p, s) && p.slot == 1 && p.stakingActions == []
    requires VerifyQc(staking, VoteBytes(Hash(p)), qc)
    ensures var s1 := OnCommit(c, s, qc, Hash(p), now).0;
            var s2 := OnConfirm(c, s1, qc, Hash(p)).0;
            s2.slot == 2 && |s2.commits| == 2 && s2.commits[1].proposal == p && !ViewChange.Fits(s2)
  {
    ViewChange.StaleConfirmSpoilsFit(c, s, qc, now);
    HappyRound.CommitDetermines(c, s, qc, now);
  }

  /** Of any bonded node that leads neither the first slot nor the second: it commits, and its certificate no longer fits. */
  lemma StaleConfirmRun(c: Config, staking: Registry, genesis: ConsensusProposal, certificate: AggregateSignature,
                        leader: Pubkey, qc: AggregateSignature, now: Timestamp)
    requires Bystander(c, staking, leader) && VerifyQc(staking, VoteBytes(Hash(EmptyProposal(genesis, now))), qc)
    ensures var p := EmptyProposal(genesis, now);
            var s := Run(c, GenesisNode(c, staking, genesis, certificate), CommitBeforeConfirm(leader, p, qc, now));
            s.slot == 2 && |s.commits| == 2 && s.commits[1].proposal == p && !ViewChange.Fits(s)
  {
    var s := GenesisNode(c, staking, genesis, certificate);
    var p := EmptyProposal(genesis, now);
    var s1 := OnPrepare(c, s, Prepare(leader, p, Genesis, 0), Everyone, now).0;
    var s2 := OnCommit(c, s1, qc, Hash(p), now).0;
    var events := CommitBeforeConfirm(leader, p, qc, now);
    FirstVote(c, staking, genesis, certificate, leader, now);
    WrongOrder(c, staking, leader, p, s1, qc, now);
    RunThree(c, s, events[0], events[1], events[2], s1, s2);
  }

  function BothSign(a: Pubkey, b: Pubkey, msg: Message): AggregateSignature {
    AggregateSignature({Share(a, msg), Share(b, msg)}, {a, b})
  }

  lemma BothSignVerifies(a: Pubkey, b: Pubkey, msg: Message)
    ensures VerifyAggregate(msg, BothSign(a, b, msg))
  {
    var both := {a, b};
    assert a in both && (set v | v in both :: Share(v, msg)) == {Share(a, msg), Share(b, msg)};
  }

  lemma ThirdStandsBy(c: Config, f: nat)
    requires c.me == 3
    ensures Bystander(c, ThreeBonded(f), 1)
  {
    var r := ThreeBonded(f);
    assert LeaderAt(r.bonded, 1, 0) == Some(1) && LeaderAt(r.bonded, 2, 0) == Some(2);
  }

  lemma TwoSuffice(f: nat, msg: Message)
    ensures VerifyQc(ThreeBonded(f), msg, BothSign(1, 2, msg))
  {
    BothSignVerifies(1, 2, msg);
    ThreeOverlap(f);
  }

  /** The third of three bonded validators, whatever the stakes, the genesis block and the configuration. */
  lemma StaleConfirmHappens(f: nat, genesis: ConsensusProposal, certificate: AggregateSignature, c: Config, now: Timestamp)
    requires c.me == 3
    ensures var p := EmptyProposal(genesis, now);
            var qc := BothSign(1, 2, VoteBytes(Hash(p)));
            var s := Run(c, GenesisNode(c, ThreeBonded(f), genesis, certificate), CommitBeforeConfirm(1, p, qc, now));
            |s.commits| == 2 && !ViewChange.Fits(s)
  {
    var bytes := VoteBytes(Hash(EmptyProposal(genesis, now)));
    ThirdStandsBy(c, f);
    TwoSuffice(f, bytes);
    StaleConfirmRun(c, ThreeBonded(f), genesis, certificate, 1, BothSign(1, 2, bytes), now);
  }
}
