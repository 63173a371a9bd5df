/**
  What two certificates of the same registry have in common, and what that says about forks.
 */
module Accountability {
  import opened Model
  import opened Staking
  import opened Round
  import opened Safety
  import opened Runs
  import opened BondTotal

  /** A set of bonded validators heavy enough for a certificate. */
  predicate Quorum(r: Registry, vs: set<Pubkey>) {
    vs <= BondedSet(r) && Power(r, vs) >= 2 * F(r) + 1
  }

  lemma QuorumsOverlap(r: Registry, a: set<Pubkey>, b: set<Pubkey>)
    requires Quorum(r, a) && Quorum(r, b)
    ensures Power(r, a * b) + Power(r, BondedSet(r)) >= 4 * F(r) + 2
  {
    PowerUnion(r, a, b);
    PowerMonotone(r, a + b, BondedSet(r));
  }

  /** Two conflicting commits of one slot: who signed both. */
  function DoubleSigners(e: Committed, e': Committed): set<Pubkey> {
    e.certificate.validators * e'.certificate.validators
  }

  /**
    The validators in both certificates signed both proposals. Their power is at least 4f + 2 minus
    the bonded power: at least f when the registry is in sync, and more than f unless the total
    bond leaves remainder 2 modulo 3.
   */
  ghost predicate Blamed(r: Registry, e: Committed, e': Committed) {
    var both := DoubleSigners(e, e');
    && (forall v :: v in both ==>
          && Share(v, VoteBytes(Hash(e.proposal))) in e.certificate.shares
          && Share(v, VoteBytes(Hash(e'.proposal))) in e'.certificate.shares)
    && Power(r, both) + Power(r, BondedSet(r)) >= 4 * F(r) + 2
    && (InSync(r) ==> Power(r, both) >= F(r))
    && (InSync(r) && r.totalBond % 3 != 2 ==> Power(r, both) > F(r))
  }

  /** Two nodes with equal staking that commit different proposals by certificate leave behind who is to blame. */
  lemma ForkAccountability(e: Committed, e': Committed)
    requires e.staking == e'.staking && e.certificate.validators != {} && e'.certificate.validators != {}
    requires CertifiedOrForced(e) && CertifiedOrForced(e') && Hash(e.proposal) != Hash(e'.proposal)
    ensures Blamed(e.staking, e, e')
  {
    QuorumsOverlap(e.staking, e.certificate.validators, e'.certificate.validators);
  }

  /**
    The same over whole runs: two nodes that started anywhere, went through any events and emitted
    commits of one slot under equal staking either agree, or one of the commits was forced, or
    there is somebody to blame.
   */
  lemma ForksInRuns(c: Config, boot: seq<Committed>, s: Node, events: seq<Event>, i: nat,
                    c': Config, boot': seq<Committed>, s': Node, events': seq<Event>, i': nat)
    requires Started(c, boot, s) && |boot| <= i < |Run(c, s, events).commits|
    requires Started(c', boot', s') && |boot'| <= i' < |Run(c', s', events').commits|
    requires Run(c, s, events).commits[i].staking == Run(c', s', events').commits[i'].staking
    requires Run(c, s, events).commits[i].proposal.slot == Run(c', s', events').commits[i'].proposal.slot
    ensures var e := Run(c, s, events).commits[i];
            var e' := Run(c', s', events').commits[i'];
            || Hash(e.proposal) == Hash(e'.proposal)
            || e.certificate == EMPTY_SIGNATURE || e'.certificate == EMPTY_SIGNATURE
            || Blamed(e.staking, e, e')
  {
    CommitsAreCertified(c, boot, s, events, i);
    CommitsAreCertified(c', boot', s', events', i');
    var e := Run(c, s, events).commits[i];
    var e' := Run(c', s', events').commits[i'];
    if Hash(e.proposal) != Hash(e'.proposal) && e.certificate != EMPTY_SIGNATURE && e'.certificate != EMPTY_SIGNATURE {
      ForkAccountability(e, e');
    }
  }

  //  Committing leaves the total as it is

  lemma OnlyFees(r: Registry, r': Registry)
    requires r' == r.(fees := r'.fees)
    ensures Slack(r') == Slack(r)
  {
    forall v ensures Stake(r, v) == Stake(r', v) {
      SameStakes(r, r', v);
    }
    SamePower(r, r', BondedSet(r));
  }

  lemma {:induction false} ApplyKeepsSlack(r: Registry, actions: seq<StakingAction>)
    ensures Slack(ApplyStakingActions(r, actions).0) == Slack(r)
    decreases |actions|
  {
    if actions != [] {
      match actions[0]
      case Bond(candidate) =>
        BondKeepsSlack(r, candidate.validator);
        ApplyKeepsSlack(BondValidator(r, candidate.validator).0, actions[1..]);
      case PayFeesForDaDi(lane, size) =>
        OnlyFees(r, PayForDaDi(r, lane, size));
        ApplyKeepsSlack(PayForDaDi(r, lane, size), actions[1..]);
    }
  }

  /** Whatever a committed proposal bonds and charges, and whether or not it can: only blocks make the total fall behind. */
  lemma SettleKeepsSlack(r: Registry, actions: seq<StakingAction>)
    ensures Slack(SettleStaking(r, actions).0) == Slack(r)
  {
    ApplyKeepsSlack(r, actions);
    OnlyFees(ApplyStakingActions(r, actions).0, SettleStaking(r, actions).0);
  }

  //  Exactly when the overlap exceeds f

  /** Three staked validators with stakes f, f + 1 and f + 1. */
  function ThreeStaked(f: nat): Registry {
    Registry(map[1 := f, 2 := f + 1, 3 := f + 1], map[1 := [1], 2 := [2], 3 := [3]], [], 0, Fees([], map[]))
  }

  function ThreeBonded(f: nat): Registry {
    ThreeStaked(f).(bonded := [1, 2, 3], totalBond := 3 * f + 2)
  }

  lemma ThreeStakes(r: Registry, f: nat)
    requires r.stakes == ThreeStaked(f).stakes && r.delegations == ThreeStaked(f).delegations
    ensures Stake(r, 1) == f && Stake(r, 2) == f + 1 && Stake(r, 3) == f + 1
  {
    SumOfOne(r, 1);
    SumOfOne(r, 2);
    SumOfOne(r, 3);
  }

  lemma SumOfOne(r: Registry, d: Identity)
    ensures SumStakes(r, [d]) == if d in r.stakes then r.stakes[d] else 0
  {
    var one := [d];
    assert one[1..] == [];
  }

  /** With enough stake, this registry is what bonding the three one after the other gives. */
  lemma ThreeBondedIs(f: nat)
    requires f >= MIN_STAKE
    ensures BondThree(ThreeStaked(f), 1, 2, 3) == ThreeBonded(f)
  {
    ThreeStakes(ThreeStaked(f), f);
    BondThreeIs(ThreeStaked(f), 1, 2, 3);
  }

  lemma ThreePowers(r: Registry, f: nat)
    requires r == ThreeBonded(f)
    ensures Power(r, {1}) == f && Power(r, {1, 2}) == 2 * f + 1 && Power(r, {1, 3}) == 2 * f + 1
    ensures Power(r, {1, 2, 3}) == 3 * f + 2
  {
    ThreeStakes(r, f);
    PowerAdd(r, {}, 1);
    PowerAdd(r, {1}, 2);
    PowerAdd(r, {1}, 3);
    PowerAdd(r, {1, 2}, 3);
    assert {} + {1} == {1} && {1} + {2} == {1, 2} && {1} + {3} == {1, 3} && {1, 2} + {3} == {1, 2, 3};
  }

  lemma ThreeOverlap(f: nat)
    ensures var r := ThreeBonded(f);
            && InSync(r) && r.totalBond == 3 * f + 2 && F(r) == f
            && Quorum(r, {1, 2}) && Quorum(r, {1, 3}) && Power(r, {1, 2} * {1, 3}) == f
  {
    var r := ThreeBonded(f);
    ThreePowers(r, f);
    assert BondedSet(r) == {1, 2, 3};
    var a: set<Pubkey>, b: set<Pubkey> := {1, 2}, {1, 3};
    assert a * b == {1};
  }

  /** Any two quorums of any registry in sync with this total share more than f. */
  ghost predicate OverlapExceedsF(total: nat) {
    forall r: Registry, a: set<Pubkey>, b: set<Pubkey> ::
      r.totalBond == total && InSync(r) && Quorum(r, a) && Quorum(r, b) ==> Power(r, a * b) > F(r)
  }

  /** The share of two quorums exceeds f for every total but those with remainder 2 modulo 3. */
  lemma OverlapExceedsFIff(total: nat)
    ensures OverlapExceedsF(total) <==> total % 3 != 2
  {
    if total % 3 != 2 {
      forall r: Registry, a: set<Pubkey>, b: set<Pubkey> |
        r.totalBond == total && InSync(r) && Quorum(r, a) && Quorum(r, b)
        ensures Power(r, a * b) > F(r)
      {
        QuorumsOverlap(r, a, b);
      }
    } else {
      var f := total / 3;
      ThreeOverlap(f);
      var r := ThreeBonded(f);
      assert Quorum(r, {1, 2}) && Quorum(r, {1, 3});
    }
  }
}
