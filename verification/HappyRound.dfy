/**
  A round in which enough messages get through: exactly when the leader's certificates form and
  pass, and that whoever takes part then ends up in the next slot with the same proposal committed.
 */
module HappyRound {
  import opened Model
  import Aggregation
  import opened Staking
  import opened Messages
  import opened PrepareBuffer
  import opened Round
  import opened Safety
  import ViewChange

  type Ballot = Signed<ProposalHash>

  //  Certificates

  /** The votes on `hash` among all that came in, honest or not. */
  function Collected(hash: ProposalHash, votes: seq<Ballot>): set<Ballot> {
    set v | v in votes && v.msg == hash
  }

  function CertificateOf(c: Config, hash: ProposalHash, votes: set<Ballot>): Option<AggregateSignature> {
    SignAggregate(c.me, hash, VoteBytes(hash), votes)
  }

  /** Somebody has voted, the voters and the leader hold more than 2f, and the signatures aggregate. */
  predicate Certifies(c: Config, r: Registry, hash: ProposalHash, votes: set<Ballot>) {
    votes != {} && Power(r, Validators(votes)) + OwnPower(c, r) > 2 * F(r) && CertificateOf(c, hash, votes).Some?
  }

  predicate Forms(c: Config, r: Registry, hash: ProposalHash, votes: seq<Ballot>) {
    Certifies(c, r, hash, Collected(hash, votes))
  }

  function Certificate(c: Config, r: Registry, hash: ProposalHash, votes: seq<Ballot>): AggregateSignature
    requires Forms(c, r, hash, votes)
  {
    CertificateOf(c, hash, Collected(hash, votes)).value
  }

  /** A certificate that formed passes the followers exactly when its voters may vote and suffice without double counting. */
  lemma CertificatePassesIff(c: Config, r: Registry, hash: ProposalHash, votes: seq<Ballot>)
    requires Forms(c, r, hash, votes) && IsBonded(r, c.me)
    ensures VerifyQc(r, VoteBytes(hash), Certificate(c, r, hash, votes)) <==> Passes(c, r, hash, votes)
  {
    ViewChange.AggregatePassesIff(c, r, hash, VoteBytes(hash), Collected(hash, votes));
  }

  predicate Passes(c: Config, r: Registry, hash: ProposalHash, votes: seq<Ballot>) {
    var voters := Validators(Collected(hash, votes));
    (forall v :: v in voters ==> IsBonded(r, v)) && Power(r, voters + {c.me}) > 2 * F(r)
  }

  //  Honest votes

  function ToSet(s: seq<Pubkey>): set<Pubkey> {
    set v | v in s
  }

  function VotesBy(voters: seq<Pubkey>, hash: ProposalHash): seq<Ballot> {
    seq(|voters|, i requires 0 <= i < |voters| => SignVote(voters[i], hash))
  }

  /** The validators of `voters` may vote, and none of them is the leader. */
  predicate Eligible(c: Config, r: Registry, voters: seq<Pubkey>) {
    forall i :: 0 <= i < |voters| ==> IsBonded(r, voters[i]) && voters[i] != c.me
  }

  lemma HonestVoters(voters: seq<Pubkey>, hash: ProposalHash)
    ensures Collected(hash, VotesBy(voters, hash)) == set v | v in ToSet(voters) :: SignVote(v, hash)
    ensures Validators(Collected(hash, VotesBy(voters, hash))) == ToSet(voters)
  {
    var votes := VotesBy(voters, hash);
    forall v | v in ToSet(voters) ensures SignVote(v, hash) in Collected(hash, votes) {
      var i :| 0 <= i < |voters| && voters[i] == v;
      assert votes[i] == SignVote(v, hash);
    }
  }

  /** Honest votes of eligible voters form a certificate, and one that passes, exactly when there are enough. */
  lemma HonestVotesFormIff(c: Config, r: Registry, hash: ProposalHash, voters: seq<Pubkey>)
    requires IsBonded(r, c.me) && Eligible(c, r, voters)
    ensures Forms(c, r, hash, VotesBy(voters, hash)) <==> voters != [] && Power(r, ToSet(voters)) + Stake(r, c.me) > 2 * F(r)
    ensures Forms(c, r, hash, VotesBy(voters, hash)) ==> Passes(c, r, hash, VotesBy(voters, hash))
  {
    var all := Collected(hash, VotesBy(voters, hash));
    HonestVoters(voters, hash);
    assert voters != [] ==> voters[0] in ToSet(voters) && SignVote(voters[0], hash) in all;
    ViewChange.AggregatesIffForgedCancel(c, hash, VoteBytes(hash), all);
    assert Aggregation.Forged(all, VoteBytes(hash)) == {};
    PowerAdd(r, ToSet(voters), c.me);
  }

  //  The leader collects votes

  function CollectVotes(c: Config, s: Node, votes: seq<Ballot>): Node {
    if votes == [] then s
    else OnPrepareVote(c, CollectVotes(c, s, votes[..|votes| - 1]), votes[|votes| - 1]).0
  }

  function Adding(hash: ProposalHash, all: set<Ballot>, vote: Ballot): set<Ballot> {
    if vote.msg == hash then all + {vote} else all
  }

  lemma CollectedSplit(hash: ProposalHash, votes: seq<Ballot>)
    requires votes != []
    ensures Collected(hash, votes) == Adding(hash, Collected(hash, votes[..|votes| - 1]), votes[|votes| - 1])
  {
    assert votes == votes[..|votes| - 1] + [votes[|votes| - 1]];
  }

  /** `k` is the length of the shortest prefix that passes `test`; past the end when none does. */
  ghost predicate First(test: seq<Ballot> -> bool, votes: seq<Ballot>, k: nat) {
    && k <= |votes| + 1
    && (k <= |votes| ==> test(votes[..k]))
    && (forall j :: 0 <= j < k && j <= |votes| ==> !test(votes[..j]))
  }

  lemma FirstSplit(test: seq<Ballot> -> bool, votes: seq<Ballot>, k: nat)
    requires votes != [] && First(test, votes[..|votes| - 1], k)
    ensures k < |votes| ==> First(test, votes, k) && votes[..|votes| - 1][..k] == votes[..k]
    ensures k == |votes| ==> First(test, votes, if test(votes) then k else k + 1)
  {
    var n := |votes| - 1;
    assert forall j :: 0 <= j <= n ==> votes[..n][..j] == votes[..j];
    assert votes[..|votes|] == votes;
  }

  lemma FirstIsUnique(test: seq<Ballot> -> bool, votes: seq<Ballot>, k: nat, k': nat)
    requires First(test, votes, k) && First(test, votes, k')
    ensures k == k'
  {}

  function Forming(c: Config, r: Registry, hash: ProposalHash): seq<Ballot> -> bool {
    votes => Forms(c, r, hash, votes)
  }

  function Confirmed(s: Node, all: set<Ballot>, qc: AggregateSignature): Node {
    Send(s.(leader := s.leader.(step := ConfirmAck, prepareVotes := all)), Everyone, ConfirmMsg(qc, Hash(s.current)))
  }

  function Holding(s: Node, all: set<Ballot>): Node {
    s.(leader := s.leader.(prepareVotes := all))
  }

  /** Where the leader is after `votes`. */
  ghost predicate VotesCollected(c: Config, s: Node, votes: seq<Ballot>, k: nat, s': Node) {
    var hash := Hash(s.current);
    && First(Forming(c, s.staking, hash), votes, k)
    && if k > |votes| then s' == Holding(s, Collected(hash, votes))
       else s' == Confirmed(s, Collected(hash, votes[..k]), Certificate(c, s.staking, hash, votes[..k]))
  }

  /** One more vote of any kind, when those before do not certify. */
  lemma OneVote(c: Config, s: Node, all: set<Ballot>, vote: Ballot)
    requires s.tag.Leader? && s.leader.step.PrepareVote? && !Certifies(c, s.staking, Hash(s.current), all)
    ensures var hash := Hash(s.current);
            var more := Adding(hash, all, vote);
            OnPrepareVote(c, Holding(s, all), vote).0 ==
              if Certifies(c, s.staking, hash, more) then Confirmed(s, more, CertificateOf(c, hash, more).value) else Holding(s, more)
  {}

  lemma NextVote(c: Config, s: Node, votes: seq<Ballot>, s1: Node)
    requires s.tag.Leader? && s.leader.step.PrepareVote? && votes != []
    requires VotesCollected(c, s, votes[..|votes| - 1], |votes|, s1)
    ensures var s' := OnPrepareVote(c, s1, votes[|votes| - 1]).0;
            VotesCollected(c, s, votes, if Forms(c, s.staking, Hash(s.current), votes) then |votes| else |votes| + 1, s')
  {
    var hash, n := Hash(s.current), |votes| - 1;
    CollectedSplit(hash, votes);
    FirstSplit(Forming(c, s.staking, hash), votes, |votes|);
    assert votes[..|votes|] == votes && votes[..n][..n] == votes[..n];
    assert !Forming(c, s.staking, hash)(votes[..n][..n]);
    OneVote(c, s, Collected(hash, votes[..n]), votes[n]);
  }

  /**
    Whatever votes come in: Confirm goes out with the first prefix of them that forms a certificate,
    with that certificate, and never without one; votes after it make no difference.
   */
  lemma {:induction false} VotesReachConfirmIff(c: Config, s: Node, votes: seq<Ballot>) returns (k: nat)
    requires s.tag.Leader? && s.leader.step.PrepareVote? && s.leader.prepareVotes == {}
    ensures VotesCollected(c, s, votes, k, CollectVotes(c, s, votes))
  {
    var hash := Hash(s.current);
    if votes == [] {
      k := 1;
      assert Collected(hash, votes) == {} && votes[..0] == votes;
    } else {
      var n := |votes| - 1;
      k := VotesReachConfirmIff(c, s, votes[..n]);
      if k <= n {
        FirstSplit(Forming(c, s.staking, hash), votes, k);
      } else {
        NextVote(c, s, votes, CollectVotes(c, s, votes[..n]));
        k := if Forms(c, s.staking, hash, votes) then |votes| else |votes| + 1;
      }
    }
  }

  //  The leader collects acknowledgements

  datatype Acked = Acked(ack: Ballot, now: Timestamp)

  function AcksOf(acked: seq<Acked>): seq<Ballot> {
    seq(|acked|, i requires 0 <= i < |acked| => acked[i].ack)
  }

  function CollectAcks(c: Config, s: Node, acked: seq<Acked>): Node {
    if acked == [] then s
    else
      var n := |acked| - 1;
      OnConfirmAck(c, CollectAcks(c, s, acked[..n]), acked[n].ack, acked[n].now).0
  }

  /** The leader checks its own commit certificate before it commits. */
  predicate Verifies(c: Config, r: Registry, hash: ProposalHash, acks: set<Ballot>) {
    Certifies(c, r, hash, acks) && VerifyQc(r, VoteBytes(hash), CertificateOf(c, hash, acks).value)
  }

  predicate Commits(c: Config, r: Registry, hash: ProposalHash, acks: seq<Ballot>) {
    Verifies(c, r, hash, Collected(hash, acks))
  }

  function Committing(c: Config, r: Registry, hash: ProposalHash): seq<Ballot> -> bool {
    acks => Commits(c, r, hash, acks)
  }

  lemma AcksSplit(acked: seq<Acked>)
    requires acked != []
    ensures AcksOf(acked)[..|acked| - 1] == AcksOf(acked[..|acked| - 1])
  {}

  /** What went out meanwhile: commit messages whose certificates the leader itself then refused. */
  ghost predicate Refused(s: Node, sent: seq<Output>) {
    && s.sent <= sent
    && forall i :: |s.sent| <= i < |sent| ==> RefusedCommit(s, sent[i])
  }

  predicate RefusedCommit(s: Node, o: Output) {
    && o.Network? && o.slot == s.slot && o.view == s.view && o.to == Everyone
    && o.msg.CommitMsg? && o.msg.hash == Hash(s.current) && !VerifyQc(s.staking, VoteBytes(Hash(s.current)), o.msg.commitQc)
  }

  function Announcing(s: Node, sent: seq<Output>, qc: AggregateSignature): Node {
    Send(s.(sent := sent), Everyone, CommitMsg(qc, Hash(s.current)))
  }

  function Waiting(s: Node, all: set<Ballot>, sent: seq<Output>): Node {
    s.(leader := s.leader.(confirmAcks := all), sent := sent)
  }

  ghost predicate AcksCollected(c: Config, s: Node, acked: seq<Acked>, k: nat, sent: seq<Output>, s': Node) {
    var hash, acks := Hash(s.current), AcksOf(acked);
    && First(Committing(c, s.staking, hash), acks, k) && Refused(s, sent)
    && if k > |acked| then s' == Waiting(s, Collected(hash, acks), sent)
       else
         && k > 0
         && var qc := Certificate(c, s.staking, hash, acks[..k]);
            s' == CommitCurrent(c, Announcing(s, sent, qc), qc, CommitQc(qc), acked[k - 1].now).0
  }

  lemma CommitForgetsLeaderState(c: Config, s: Node, leader: LeaderState, qc: AggregateSignature, now: Timestamp)
    requires !s.tag.Joining?
    ensures CommitCurrent(c, s.(leader := leader), qc, CommitQc(qc), now) == CommitCurrent(c, s, qc, CommitQc(qc), now)
  {
    assert ResetRound(EmitCommit(s.(leader := leader), qc)) == ResetRound(EmitCommit(s, qc));
  }

  /** One more ack of any kind, when those before do not commit the slot. */
  lemma OneAck(c: Config, s: Node, all: set<Ballot>, sent: seq<Output>, ack: Ballot, now: Timestamp) returns (sent': seq<Output>)
    requires s.tag.Leader? && s.leader.step.ConfirmAck? && Refused(s, sent) && !Verifies(c, s.staking, Hash(s.current), all)
    ensures Refused(s, sent')
    ensures var hash := Hash(s.current);
            var more := Adding(hash, all, ack);
            OnConfirmAck(c, Waiting(s, all, sent), ack, now).0 ==
              if Verifies(c, s.staking, hash, more)
              then
                var qc := CertificateOf(c, hash, more).value;
                CommitCurrent(c, Announcing(s, sent', qc), qc, CommitQc(qc), now).0
              else Waiting(s, more, sent')
  {
    var hash, more := Hash(s.current), Adding(Hash(s.current), all, ack);
    sent' := sent;
    if ack.msg == hash && ack !in all && Certifies(c, s.staking, hash, more) {
      var qc := CertificateOf(c, hash, more).value;
      if Verifies(c, s.staking, hash, more) {
        CommitForgetsLeaderState(c, Announcing(s, sent, qc), s.leader.(confirmAcks := more), qc, now);
      } else {
        sent' := sent + [Network(s.slot, s.view, Everyone, CommitMsg(qc, hash))];
      }
    } else {
      assert ack.msg == hash && ack in all ==> more == all;
    }
  }

  lemma NextAck(c: Config, s: Node, acked: seq<Acked>, sent: seq<Output>, s1: Node) returns (sent': seq<Output>)
    requires s.tag.Leader? && s.leader.step.ConfirmAck? && acked != []
    requires AcksCollected(c, s, acked[..|acked| - 1], |acked|, sent, s1)
    ensures var last := acked[|acked| - 1];
            var k := if Commits(c, s.staking, Hash(s.current), AcksOf(acked)) then |acked| else |acked| + 1;
            AcksCollected(c, s, acked, k, sent', OnConfirmAck(c, s1, last.ack, last.now).0)
  {
    var hash, acks, n := Hash(s.current), AcksOf(acked), |acked| - 1;
    AcksSplit(acked);
    FirstSplit(Committing(c, s.staking, hash), acks, |acked|);
    CollectedSplit(hash, acks);
    assert acks[..|acks|] == acks && acks[..n][..n] == acks[..n];
    assert !Committing(c, s.staking, hash)(acks[..n][..n]);
    sent' := OneAck(c, s, Collected(hash, acks[..n]), sent, acked[n].ack, acked[n].now);
  }

  lemma LateAck(c: Config, s: Node, acked: seq<Acked>, k: nat, sent: seq<Output>, s1: Node)
    requires s.tag.Leader? && s.leader.step.ConfirmAck? && acked != [] && k < |acked|
    requires AcksCollected(c, s, acked[..|acked| - 1], k, sent, s1)
    ensures var last := acked[|acked| - 1];
            AcksCollected(c, s, acked, k, sent, OnConfirmAck(c, s1, last.ack, last.now).0)
  {
    var hash, acks, last := Hash(s.current), AcksOf(acked), acked[|acked| - 1];
    AcksSplit(acked);
    FirstSplit(Committing(c, s.staking, hash), acks, k);
    var qc := Certificate(c, s.staking, hash, acks[..k]);
    CommitAdvance(c, Announcing(s, sent, qc), qc, CommitQc(qc), acked[k - 1].now);
    assert OnConfirmAck(c, s1, last.ack, last.now).0 == s1;
  }

  /**
    Whatever acks come in, repeated ones included: the slot is committed with the first prefix of
    them that forms a certificate that verifies, with that certificate, and never without one.
   */
  lemma {:induction false} AcksReachCommitIff(c: Config, s: Node, acked: seq<Acked>) returns (k: nat, sent: seq<Output>)
    requires s.tag.Leader? && s.leader.step.ConfirmAck? && s.leader.confirmAcks == {}
    ensures AcksCollected(c, s, acked, k, sent, CollectAcks(c, s, acked))
  {
    var hash := Hash(s.current);
    if acked == [] {
      k, sent := 1, s.sent;
      assert Collected(hash, AcksOf(acked)) == {} && AcksOf(acked)[..0] == AcksOf(acked);
    } else {
      var n := |acked| - 1;
      k, sent := AcksReachCommitIff(c, s, acked[..n]);
      if k <= n {
        LateAck(c, s, acked, k, sent, CollectAcks(c, s, acked[..n]));
      } else {
        sent := NextAck(c, s, acked, sent, CollectAcks(c, s, acked[..n]));
        k := if Commits(c, s.staking, hash, AcksOf(acked)) then |acked| else |acked| + 1;
      }
    }
  }

  //  The leader's own proposal passes the staking checks

  predicate ActionFine(r: Registry, cut: Cut, a: StakingAction) {
    match a
    case Bond(candidate) => CanBond(r, candidate)
    case PayFeesForDaDi(lane, size) => VerifyDaDiFees(cut, lane, size)
  }

  predicate AllFine(r: Registry, cut: Cut, actions: seq<StakingAction>) {
    forall i :: 0 <= i < |actions| ==> ActionFine(r, cut, actions[i])
  }

  lemma AllFineSplit(r: Registry, cut: Cut, a: StakingAction, rest: seq<StakingAction>)
    ensures AllFine(r, cut, [a] + rest) <==> ActionFine(r, cut, a) && AllFine(r, cut, rest)
  {
    var all := [a] + rest;
    assert all[0] == a && forall i :: 0 <= i < |rest| ==> all[i + 1] == rest[i];
  }

  lemma {:induction false} ActionsPassIff(r: Registry, cut: Cut, actions: seq<StakingAction>, candidates: seq<Signed<string>>, sent: seq<Output>)
    ensures CheckStakingActions(r, cut, actions, candidates, sent).2 <==> AllFine(r, cut, actions)
    decreases |actions|
  {
    if actions != [] {
      assert actions == [actions[0]] + actions[1..];
      AllFineSplit(r, cut, actions[0], actions[1..]);
      match actions[0]
      case Bond(candidate) =>
        ActionsPassIff(r, cut, actions[1..], DropCandidate(candidates, candidate.validator), sent + [ConnectTo(candidate.msg)]);
      case PayFeesForDaDi(lane, size) =>
        ActionsPassIff(r, cut, actions[1..], candidates, sent);
    }
  }

  predicate Bondable(r: Registry, v: Pubkey) {
    Stake(r, v) > MIN_STAKE && !IsBonded(r, v)
  }

  /** The candidacies a leader puts forward are signed by their candidates. */
  predicate GenuineCandidates(r: Registry, candidates: seq<Signed<string>>) {
    forall i :: 0 <= i < |candidates| && Bondable(r, candidates[i].validator) ==>
      Genuine(candidates[i], CandidacyBytes(candidates[i].msg))
  }

  lemma GenuineSplit(r: Registry, candidates: seq<Signed<string>>)
    requires candidates != []
    ensures GenuineCandidates(r, candidates) <==>
            && (Bondable(r, candidates[0].validator) ==> Genuine(candidates[0], CandidacyBytes(candidates[0].msg)))
            && GenuineCandidates(r, candidates[1..])
  {
    var rest := candidates[1..];
    assert forall i :: 0 <= i < |rest| ==> rest[i] == candidates[i + 1];
    assert forall i :: 0 < i < |candidates| ==> candidates[i] == rest[i - 1];
  }

  lemma {:induction false} BondsFineIff(r: Registry, cut: Cut, candidates: seq<Signed<string>>)
    ensures AllFine(r, cut, BondsFor(r, candidates)) <==> GenuineCandidates(r, candidates)
  {
    if candidates != [] {
      BondsFineIff(r, cut, candidates[1..]);
      GenuineSplit(r, candidates);
      if Bondable(r, candidates[0].validator) {
        AllFineSplit(r, cut, Bond(candidates[0]), BondsFor(r, candidates[1..]));
      }
    }
  }

  /**
    Followers accept the staking actions of a leader's new proposal exactly when the candidacies
    in it are genuine: the fees derived from its cut always pass.
   */
  lemma LeaderActionsPassIff(s: Node, now: Timestamp, cut: Cut, candidates: seq<Signed<string>>, sent: seq<Output>)
    ensures CheckStakingActions(s.staking, cut, NewProposal(s, now, cut).stakingActions, candidates, sent).2
            <==> GenuineCandidates(s.staking, s.candidates)
  {
    var bonds := BondsFor(s.staking, s.candidates);
    var fees := FeesFor(cut);
    ActionsPassIff(s.staking, cut, bonds + fees, candidates, sent);
    BondsFineIff(s.staking, cut, s.candidates);
    forall i | 0 <= i < |fees| ensures ActionFine(s.staking, cut, fees[i]) {
      assert cut[i].lane == fees[i].lane && cut[i].cumulSize == fees[i].cumulSize;
    }
    assert forall i :: 0 <= i < |bonds| ==> (bonds + fees)[i] == bonds[i];
    assert forall i :: |bonds| <= i < |bonds + fees| ==> (bonds + fees)[i] == fees[i - |bonds|];
  }

  //  The follower's side

  /** Two nodes that build on the same slot. */
  predicate SameSlot(a: Node, b: Node) {
    && a.staking == b.staking && a.slot == b.slot
    && a.parentHash == b.parentHash && a.parentTimestamp == b.parentTimestamp && a.parentCut == b.parentCut
  }

  predicate SameRound(a: Node, b: Node) {
    SameSlot(a, b) && a.view == b.view
  }

  /**
    The round is justified: by genesis, by a commit the follower has seen, or by a certified timeout
    of the view before, which names the proposal if it carries a prepare certificate.
   */
  predicate KnowsTicket(s: Node, p: Prepare) {
    match p.ticket
    case Genesis => s.slot == 1 && p.view == s.view
    case CommitQc(qc) => s.bufferedQc == Some(qc) && p.view == s.view
    case TimeoutQc(tc, kind) =>
      && p.view > 0 && (p.view == s.view || p.view == s.view + 1)
      && VerifyQc(s.staking, TimeoutBytes(s.slot, p.view - 1, s.parentHash), tc)
      && (kind.TcPrepareQc? ==> kind.proposal == p.proposal && VerifyQc(s.staking, VoteBytes(Hash(p.proposal)), kind.qc))
    case ForcedCommitQc => false
  }

  predicate Acceptable(c: Config, s: Node, p: Prepare) {
    && p.proposal.slot == s.slot && LeaderAt(s.staking.bonded, s.slot, p.view) == Some(p.sender) && p.sender != c.me
    && KnowsTicket(s, p)
    && VerifyPoda(s.staking, s.parentCut, p.proposal.cut)
    && AllFine(s.staking, p.proposal.cut, p.proposal.stakingActions)
    && VerifyTimestamp(c, p.view, s.parentTimestamp, p.proposal.timestamp)
    && Hash(p.proposal) !in s.buffer.children
  }

  /** In the round of `p`, with nothing of the slot changed. */
  ghost predicate Ready(s: Node, p: Prepare, s1: Node) {
    s1.tag.Follower? && SameSlot(s, s1) && s1.view == p.view && s1.commits == s.commits && s1.buffer == s.buffer
  }

  lemma TimeoutVerifies(s: Node, p: Prepare)
    requires p.ticket.TimeoutQc? && p.proposal.slot == s.slot && KnowsTicket(s, p)
    ensures var (s1, ok) := VerifyTc(s, p.ticket.tc, p.ticket.kind, s.slot, p.view - 1);
            ok && SameRound(s, s1) && s1.tag == s.tag && s1.commits == s.commits && s1.buffer == s.buffer
  {}

  lemma TimeoutReadies(c: Config, s: Node, p: Prepare, now: Timestamp)
    requires s.tag.Follower? && Acceptable(c, s, p) && p.ticket.TimeoutQc?
    ensures var (s1, outcome) := ProcessTcTicket(c, s, p.ticket.tc, p.ticket.kind, p.proposal, p.view, now);
            outcome.Processed? && Ready(s, p, s1)
  {
    TimeoutVerifies(s, p);
    assert ForceCommit(c, s, p.proposal, now) == (s, true) && WrappingPred(p.view) == p.view - 1;
    if p.view == s.view + 1 {
      ViewChange.AdvanceSteps(c, VerifyTc(s, p.ticket.tc, p.ticket.kind, s.slot, p.view - 1).0, p.ticket, now);
    }
  }

  /** The ticket brings a follower that is a view behind into the round, and leaves one that is there alone. */
  lemma TicketReadies(c: Config, s: Node, p: Prepare, now: Timestamp)
    requires s.tag.Follower? && Acceptable(c, s, p)
    ensures var (s1, outcome) := ProcessTicket(c, s, p, now);
            outcome.Processed? && Ready(s, p, s1)
  {
    if p.ticket.TimeoutQc? {
      TimeoutReadies(c, s, p, now);
    }
  }

  /** A follower votes for an acceptable proposal, whoever else does. */
  lemma FollowerVotes(c: Config, s: Node, p: Prepare, ask: Destination, now: Timestamp)
    requires s.tag.Follower? && IsBonded(s.staking, c.me) && Acceptable(c, s, p)
    ensures var (s1, ok) := OnPrepare(c, s, p, ask, now);
            && ok && s1.tag.Follower? && SameSlot(s, s1) && s1.view == p.view
            && s1.current == p.proposal && s1.commits == s.commits && s1.sent != []
            && s1.sent[|s1.sent| - 1] == Network(s.slot, p.view, To(p.sender), PrepareVoteMsg(SignVote(c.me, Hash(p.proposal))))
  {
    var hash := Hash(p.proposal);
    TicketReadies(c, s, p, now);
    var s1 := ProcessTicket(c, s, p, now).0;
    ActionsPassIff(s1.staking, p.proposal.cut, p.proposal.stakingActions, s1.candidates, s1.sent);
    assert Depth(p.proposal.parentHash) < Depth(hash);
    assert NextPrepare(Push(s1.buffer, p), hash).None?;
  }

  lemma FollowerAcks(c: Config, s: Node, qc: AggregateSignature)
    requires s.tag.Follower? && IsBonded(s.staking, c.me) && VerifyQc(s.staking, VoteBytes(Hash(s.current)), qc)
    ensures var (s1, ok) := OnConfirm(c, s, qc, Hash(s.current));
            && ok && s1.tag.Follower? && SameRound(s, s1) && s1.current == s.current && s1.commits == s.commits
            && s1.sent == s.sent + [Network(s.slot, s.view, To(RoundLeader(s).value), ConfirmAckMsg(SignVote(c.me, Hash(s.current))))]
  {}

  /** Everything the next round starts from is determined by the proposal and the registry. */
  lemma CommitDetermines(c: Config, s: Node, qc: AggregateSignature, now: Timestamp)
    requires !s.tag.Joining?
    ensures var s' := CommitCurrent(c, s, qc, CommitQc(qc), now).0;
            && s'.slot == s.slot + 1 && s'.view == 0 && s'.parentHash == Hash(s.current)
            && s'.parentTimestamp == s.current.timestamp && s'.parentCut == s.current.cut
            && s'.staking == SettleStaking(s.staking, s.current.stakingActions).0
            && s'.bufferedQc == Some(qc)
            && s'.commits == s.commits + [Committed(s.staking, s.current, qc)]
  {
    ElectFrame(c, CloseSlot(ResetRound(EmitCommit(s, qc)), Some(qc)).0, now);
  }

  //  Leader and follower together

  /** One follower's view of the round, given the leader's two certificates. */
  function FollowRound(c: Config, s: Node, p: Prepare, confirm: AggregateSignature, commit: AggregateSignature, ask: Destination, now: Timestamp): Node {
    var s1 := OnPrepare(c, s, p, ask, now).0;
    var s2 := OnConfirm(c, s1, confirm, Hash(p.proposal)).0;
    OnCommit(c, s2, commit, Hash(p.proposal), now).0
  }

  /** The leader's view of the round: it proposes, collects votes, then collects acknowledgements. */
  function LeadRound(c: Config, l: Node, cut: Cut, votes: seq<Ballot>, acked: seq<Acked>, now: Timestamp): Node {
    var l1 := StartRound(c, l, now, Some(now), Some(cut)).0;
    CollectAcks(c, CollectVotes(c, l1, votes), acked)
  }

  predicate ReadyToLead(c: Config, l: Node) {
    && l.tag.Leader? && l.leader == FRESH_LEADER.(pendingTicket := l.leader.pendingTicket) && l.leader.pendingTicket.Some?
    && RoundLeader(l) == Some(c.me)
  }

  /** A proposal of the slot that is already there is proposed again; otherwise a new one is made. */
  function Proposal(l: Node, now: Timestamp, cut: Cut): ConsensusProposal {
    if CurrentSlotPrepareIsPresent(l) then l.current else NewProposal(l, now, cut)
  }

  function PrepareOf(c: Config, l: Node, now: Timestamp, cut: Cut): Prepare
    requires l.leader.pendingTicket.Some?
  {
    Prepare(c.me, Proposal(l, now, cut), l.leader.pendingTicket.value, l.view)
  }

  /** The leader told everyone, in this round, what a follower has to hear. */
  ghost predicate Announced(l: Node, l': Node, p: ConsensusProposal, confirm: AggregateSignature, commit: AggregateSignature)
    requires l.leader.pendingTicket.Some?
  {
    && Network(l.slot, l.view, Everyone, PrepareMsg(p, l.leader.pendingTicket.value, l.view)) in l'.sent
    && Network(l.slot, l.view, Everyone, ConfirmMsg(confirm, Hash(p))) in l'.sent
    && Network(l.slot, l.view, Everyone, CommitMsg(commit, Hash(p))) in l'.sent
  }

  ghost predicate Proposed(l: Node, l1: Node, p: ConsensusProposal)
    requires l.leader.pendingTicket.Some?
  {
    && l1.tag.Leader? && l1.leader == FRESH_LEADER.(step := PrepareVote) && l1.current == p
    && SameRound(l, l1) && l1.commits == l.commits
    && l1.sent == l.sent + [Network(l.slot, l.view, Everyone, PrepareMsg(p, l.leader.pendingTicket.value, l.view))]
  }

  lemma LeaderProposes(c: Config, l: Node, cut: Cut, now: Timestamp)
    requires ReadyToLead(c, l)
    ensures Proposed(l, StartRound(c, l, now, Some(now), Some(cut)).0, Proposal(l, now, cut))
    ensures IsBonded(l.staking, c.me)
  {}

  lemma StillSent(before: seq<Output>, after: seq<Output>, i: nat)
    requires before <= after && i < |before|
    ensures before[i] in after
  {
    assert after[i] == before[i];
  }

  lemma AllStillSent(l: Node, l1: Node, l2: Node, l3: Node, l': Node, p: ConsensusProposal, confirm: AggregateSignature, commit: AggregateSignature)
    requires l.leader.pendingTicket.Some? && Proposed(l, l1, p)
    requires l2.sent == l1.sent + [Network(l.slot, l.view, Everyone, ConfirmMsg(confirm, Hash(p)))]
    requires l2.sent < l3.sent && l3.sent[|l3.sent| - 1] == Network(l.slot, l.view, Everyone, CommitMsg(commit, Hash(p)))
    requires l3.sent <= l'.sent
    ensures Announced(l, l', p, confirm, commit)
  {
    StillSent(l1.sent, l'.sent, |l.sent|);
    StillSent(l2.sent, l'.sent, |l1.sent|);
    StillSent(l3.sent, l'.sent, |l3.sent| - 1);
  }

  /** The slot after the commit of `p` with `commit`, for whoever was in the slot of `s`. */
  ghost predicate Next(s: Node, p: ConsensusProposal, commit: AggregateSignature, s': Node) {
    && s'.slot == s.slot + 1 && s'.view == 0 && s'.parentHash == Hash(p)
    && s'.parentTimestamp == p.timestamp && s'.parentCut == p.cut
    && s'.staking == SettleStaking(s.staking, p.stakingActions).0
    && s'.commits == s.commits + [Committed(s.staking, p, commit)]
  }

  /** The leader's half: votes and acks of any kind, as long as some prefix of each is enough. */
  lemma LeaderRound(c: Config, l: Node, cut: Cut, votes: seq<Ballot>, i: nat, acked: seq<Acked>, j: nat, now: Timestamp)
    requires ReadyToLead(c, l)
    requires i <= |votes| && First(Forming(c, l.staking, Hash(Proposal(l, now, cut))), votes, i)
    requires j <= |acked| && First(Committing(c, l.staking, Hash(Proposal(l, now, cut))), AcksOf(acked), j)
    ensures var p := Proposal(l, now, cut);
            var l' := LeadRound(c, l, cut, votes, acked, now);
            var confirm := Certificate(c, l.staking, Hash(p), votes[..i]);
            var commit := Certificate(c, l.staking, Hash(p), AcksOf(acked)[..j]);
            Announced(l, l', p, confirm, commit) && Next(l, p, commit, l')
  {
    var p := Proposal(l, now, cut);
    var hash := Hash(p);
    var l1 := StartRound(c, l, now, Some(now), Some(cut)).0;
    LeaderProposes(c, l, cut, now);
    var i' := VotesReachConfirmIff(c, l1, votes);
    FirstIsUnique(Forming(c, l.staking, hash), votes, i, i');
    var l2 := CollectVotes(c, l1, votes);
    LeaderCommits(c, l, p, l1, votes, i, l2, acked, j);
  }

  lemma LeaderCommits(c: Config, l: Node, p: ConsensusProposal, l1: Node, votes: seq<Ballot>, i: nat, l2: Node, acked: seq<Acked>, j: nat)
    requires l.leader.pendingTicket.Some? && Proposed(l, l1, p)
    requires i <= |votes| && VotesCollected(c, l1, votes, i, l2)
    requires j <= |acked| && First(Committing(c, l.staking, Hash(p)), AcksOf(acked), j)
    ensures var l' := CollectAcks(c, l2, acked);
            var confirm := Certificate(c, l.staking, Hash(p), votes[..i]);
            var commit := Certificate(c, l.staking, Hash(p), AcksOf(acked)[..j]);
            Announced(l, l', p, confirm, commit) && Next(l, p, commit, l')
  {
    var confirm := Certificate(c, l.staking, Hash(p), votes[..i]);
    var j', sent := AcksReachCommitIff(c, l2, acked);
    FirstIsUnique(Committing(c, l.staking, Hash(p)), AcksOf(acked), j, j');
    var commit := Certificate(c, l.staking, Hash(p), AcksOf(acked)[..j]);
    var l3 := Announcing(l2, sent, commit);
    CommitDetermines(c, l3, commit, acked[j - 1].now);
    CommitAdvance(c, l3, commit, CommitQc(commit), acked[j - 1].now);
    AllStillSent(l, l1, l2, l3, CollectAcks(c, l2, acked), p, confirm, commit);
  }

  lemma FollowerRound(c: Config, s: Node, p: Prepare, confirm: AggregateSignature, commit: AggregateSignature, ask: Destination, now: Timestamp)
    requires s.tag.Follower? && IsBonded(s.staking, c.me) && Acceptable(c, s, p)
    requires VerifyQc(s.staking, VoteBytes(Hash(p.proposal)), confirm)
    requires VerifyQc(s.staking, VoteBytes(Hash(p.proposal)), commit)
    ensures Next(s, p.proposal, commit, FollowRound(c, s, p, confirm, commit, ask, now))
  {
    FollowerVotes(c, s, p, ask, now);
    var s1 := OnPrepare(c, s, p, ask, now).0;
    FollowerAcks(c, s1, confirm);
    var s2 := OnConfirm(c, s1, confirm, Hash(p.proposal)).0;
    CommitDetermines(c, s2, commit, now);
  }

  /** The leader's certificates form, and the first one passes. */
  ghost predicate Succeeds(c: Config, r: Registry, hash: ProposalHash, votes: seq<Ballot>, i: nat, acks: seq<Ballot>, j: nat) {
    && i <= |votes| && First(Forming(c, r, hash), votes, i) && Passes(c, r, hash, votes[..i])
    && j <= |acks| && First(Committing(c, r, hash), acks, j)
  }

  lemma CertificatesVerify(c: Config, r: Registry, hash: ProposalHash, votes: seq<Ballot>, i: nat, acks: seq<Ballot>, j: nat)
    requires IsBonded(r, c.me) && Succeeds(c, r, hash, votes, i, acks, j)
    ensures VerifyQc(r, VoteBytes(hash), Certificate(c, r, hash, votes[..i]))
    ensures VerifyQc(r, VoteBytes(hash), Certificate(c, r, hash, acks[..j]))
  {
    CertificatePassesIff(c, r, hash, votes[..i]);
  }

  lemma SameNext(l: Node, s: Node, p: ConsensusProposal, commit: AggregateSignature, l': Node, s': Node)
    requires SameSlot(l, s) && Next(l, p, commit, l') && Next(s, p, commit, s')
    ensures SameRound(l', s')
  {}

  /**
    Agreement of a completed round, opened by genesis, a commit or a timeout, with a new proposal or
    an old one. Whatever votes and acks the leader gets, if its certificates form and the first one
    passes, then it and every follower that builds on the same slot and receives its three messages
    commit the same proposal with the same certificate, and share the next round.
   */
  lemma RoundCompletes(c: Config, l: Node, cut: Cut, votes: seq<Ballot>, i: nat, acked: seq<Acked>, j: nat,
                       c': Config, s: Node, ask: Destination, now: Timestamp)
    requires ReadyToLead(c, l) && Succeeds(c, l.staking, Hash(Proposal(l, now, cut)), votes, i, AcksOf(acked), j)
    requires SameSlot(l, s) && s.tag.Follower? && IsBonded(s.staking, c'.me) && Acceptable(c', s, PrepareOf(c, l, now, cut))
    ensures var p := Proposal(l, now, cut);
            var confirm := Certificate(c, l.staking, Hash(p), votes[..i]);
            var commit := Certificate(c, l.staking, Hash(p), AcksOf(acked)[..j]);
            var l' := LeadRound(c, l, cut, votes, acked, now);
            var s' := FollowRound(c', s, PrepareOf(c, l, now, cut), confirm, commit, ask, now);
            && Announced(l, l', p, confirm, commit) && CertifiedOrForced(Committed(l.staking, p, commit))
            && Next(l, p, commit, l') && Next(s, p, commit, s') && SameRound(l', s')
  {
    var p := PrepareOf(c, l, now, cut);
    var hash := Hash(p.proposal);
    LeaderProposes(c, l, cut, now);
    LeaderRound(c, l, cut, votes, i, acked, j, now);
    CertificatesVerify(c, l.staking, hash, votes, i, AcksOf(acked), j);
    var confirm := Certificate(c, l.staking, hash, votes[..i]);
    var commit := Certificate(c, l.staking, hash, AcksOf(acked)[..j]);
    FollowerRound(c', s, p, confirm, commit, ask, now);
    SameNext(l, s, p.proposal, commit, LeadRound(c, l, cut, votes, acked, now), FollowRound(c', s, p, confirm, commit, ask, now));
  }
}
