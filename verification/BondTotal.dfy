/**
  The cached total bond: it is computed when a validator bonds and never again, so it can fall
  behind the power the bonded validators really have.
 */
module BondTotal {
  import opened Model
  import opened Staking

  function BondedSet(r: Registry): set<Pubkey> {
    set v | v in r.bonded
  }

  /** The cached total is the power the bonded validators really have. */
  predicate InSync(r: Registry) {
    r.totalBond == Power(r, BondedSet(r))
  }

  /** How far the cached total is behind. */
  function Slack(r: Registry): int {
    Power(r, BondedSet(r)) - r.totalBond
  }

  //  Sums and powers

  lemma {:induction false} SameSums(r: Registry, r': Registry, ds: seq<Identity>)
    requires r.stakes == r'.stakes
    ensures SumStakes(r, ds) == SumStakes(r', ds)
  {
    if ds != [] {
      SameSums(r, r', ds[1..]);
    }
  }

  lemma {:induction false} SumStakesAppend(r: Registry, ds: seq<Identity>, d: Identity)
    ensures SumStakes(r, ds + [d]) == SumStakes(r, ds) + (if d in r.stakes then r.stakes[d] else 0)
  {
    if ds != [] {
      SumStakesAppend(r, ds[1..], d);
      assert (ds + [d])[1..] == ds[1..] + [d];
    } else {
      assert ([] + [d])[1..] == [];
    }
  }

  lemma {:induction false} SamePower(r: Registry, r': Registry, vs: set<Pubkey>)
    requires forall v :: v in vs ==> Stake(r, v) == Stake(r', v)
    ensures Power(r, vs) == Power(r', vs)
  {
    if vs != {} {
      var v :| v in vs;
      PowerWithout(r, vs, v);
      PowerWithout(r', vs, v);
      SamePower(r, r', vs - {v});
    }
  }

  /** When stakes only grow, the power stays the same exactly when none of them grew. */
  lemma {:induction false} RaisedPowerIff(r: Registry, r': Registry, vs: set<Pubkey>)
    requires forall v :: v in vs ==> Stake(r, v) <= Stake(r', v)
    ensures Power(r, vs) <= Power(r', vs)
    ensures Power(r, vs) == Power(r', vs) <==> forall v :: v in vs ==> Stake(r, v) == Stake(r', v)
  {
    if vs != {} {
      var v :| v in vs;
      PowerWithout(r, vs, v);
      PowerWithout(r', vs, v);
      RaisedPowerIff(r, r', vs - {v});
    }
  }

  //  Bonding

  lemma BondNext(r: Registry, v: Pubkey)
    requires Stake(r, v) >= MIN_STAKE && forall i :: 0 <= i < |r.bonded| ==> r.bonded[i] < v
    ensures BondValidator(r, v) == (r.(bonded := r.bonded + [v], totalBond := r.totalBond + Stake(r, v)), true)
  {
    InsertLast(r.bonded, v);
  }

  lemma SameStakes(r: Registry, r': Registry, v: Pubkey)
    requires r.stakes == r'.stakes && r.delegations == r'.delegations
    ensures Stake(r, v) == Stake(r', v)
  {
    if v in r.delegations {
      SameSums(r, r', r.delegations[v]);
    }
  }

  function BondThree(r: Registry, x: Pubkey, y: Pubkey, z: Pubkey): Registry {
    BondValidator(BondValidator(BondValidator(r, x).0, y).0, z).0
  }

  lemma BondThreeIs(r: Registry, x: Pubkey, y: Pubkey, z: Pubkey)
    requires r.bonded == [] && x < y < z
    requires Stake(r, x) >= MIN_STAKE && Stake(r, y) >= MIN_STAKE && Stake(r, z) >= MIN_STAKE
    ensures BondThree(r, x, y, z) == r.(bonded := [x, y, z], totalBond := r.totalBond + Stake(r, x) + Stake(r, y) + Stake(r, z))
  {
    var r1 := r.(bonded := r.bonded + [x], totalBond := r.totalBond + Stake(r, x));
    var r2 := r1.(bonded := r1.bonded + [y], totalBond := r1.totalBond + Stake(r1, y));
    SameStakes(r, r1, y);
    SameStakes(r, r2, z);
    BondNext(r, x);
    BondNext(r1, y);
    BondNext(r2, z);
    assert r2.bonded + [z] == [x, y, z];
  }

  /** Bonding adds to the total exactly what it adds to the power. */
  lemma BondKeepsSlack(r: Registry, v: Pubkey)
    ensures Slack(BondValidator(r, v).0) == Slack(r)
  {
    var (r', ok) := BondValidator(r, v);
    if ok {
      forall y ensures y in BondedSet(r') <==> y in BondedSet(r) + {v} {
        InsertSortedMembers(r.bonded, v, y);
      }
      assert BondedSet(r') == BondedSet(r) + {v};
      forall w ensures Stake(r, w) == Stake(r', w) {
        SameStakes(r, r', w);
      }
      SamePower(r, r', BondedSet(r'));
      PowerAdd(r, BondedSet(r), v);
    }
  }

  lemma {:induction false} BondAllKeepsSlack(r: Registry, vs: seq<Pubkey>)
    ensures Slack(BondAll(r, vs).0) == Slack(r)
    decreases |vs|
  {
    if vs != [] {
      BondKeepsSlack(r, vs[0]);
      BondAllKeepsSlack(BondValidator(r, vs[0]).0, vs[1..]);
    }
  }

  //  The actions of a block

  predicate DelegatesTo(r: Registry, identity: Identity, v: Pubkey) {
    v in r.delegations && identity in r.delegations[v]
  }

  /** The action raises the stake of a validator that is already bonded. */
  predicate RaisesBonded(r: Registry, a: BlockAction) {
    match a
    case StakeTokens(identity, amount) =>
      identity !in r.stakes && amount > 0 && exists v :: v in r.bonded && DelegatesTo(r, identity, v)
    case Delegate(identity, v) =>
      DelegateTo(r, identity, v).1 && v in r.bonded && identity in r.stakes && r.stakes[identity] > 0
    case DepositForFees(_, _) => false
  }

  lemma {:induction false} NewStakeRaises(r: Registry, identity: Identity, amount: nat, ds: seq<Identity>)
    requires identity !in r.stakes
    ensures var r' := StakeTokensOf(r, identity, amount).0;
            && SumStakes(r, ds) <= SumStakes(r', ds)
            && (SumStakes(r, ds) == SumStakes(r', ds) <==> amount == 0 || identity !in ds)
  {
    if ds != [] {
      NewStakeRaises(r, identity, amount, ds[1..]);
      assert ds == [ds[0]] + ds[1..];
    }
  }

  lemma StakeRaises(r: Registry, identity: Identity, amount: nat, v: Pubkey)
    requires identity !in r.stakes
    ensures var r' := StakeTokensOf(r, identity, amount).0;
            && Stake(r, v) <= Stake(r', v)
            && (Stake(r, v) == Stake(r', v) <==> amount == 0 || !DelegatesTo(r, identity, v))
  {
    if v in r.delegations {
      NewStakeRaises(r, identity, amount, r.delegations[v]);
    }
  }

  /** Staking moves the total out of sync exactly when the staker has delegated to a bonded validator before. */
  lemma StakeKeepsSlackIff(r: Registry, identity: Identity, amount: nat)
    ensures var r' := StakeTokensOf(r, identity, amount).0;
            Slack(r') >= Slack(r) && (Slack(r') == Slack(r) <==> !RaisesBonded(r, StakeTokens(identity, amount)))
  {
    var (r', ok) := StakeTokensOf(r, identity, amount);
    if ok {
      assert BondedSet(r') == BondedSet(r);
      forall v ensures Stake(r, v) <= Stake(r', v) && (Stake(r, v) == Stake(r', v) <==> amount == 0 || !DelegatesTo(r, identity, v)) {
        StakeRaises(r, identity, amount, v);
      }
      RaisedPowerIff(r, r', BondedSet(r));
    }
  }

  /** A delegation that goes through adds the delegator's stake to one validator. */
  lemma DelegateRaisesStake(r: Registry, identity: Identity, to: Pubkey, v: Pubkey)
    requires DelegateTo(r, identity, to).1
    ensures Stake(DelegateTo(r, identity, to).0, v) ==
            Stake(r, v) + (if v == to && identity in r.stakes then r.stakes[identity] else 0)
  {
    var r' := DelegateTo(r, identity, to).0;
    var before := if to in r.delegations then r.delegations[to] else [];
    SumStakesAppend(r', before, identity);
    SameSums(r, r', before);
    if v in r.delegations {
      SameSums(r, r', r.delegations[v]);
    }
  }

  /** A delegation does so exactly when it gives tokens to a bonded validator. */
  lemma DelegateKeepsSlackIff(r: Registry, identity: Identity, to: Pubkey)
    ensures var r' := DelegateTo(r, identity, to).0;
            Slack(r') >= Slack(r) && (Slack(r') == Slack(r) <==> !RaisesBonded(r, Delegate(identity, to)))
  {
    var (r', ok) := DelegateTo(r, identity, to);
    if ok {
      assert BondedSet(r') == BondedSet(r);
      forall v ensures Stake(r', v) == Stake(r, v) + (if v == to && identity in r.stakes then r.stakes[identity] else 0) {
        DelegateRaisesStake(r, identity, to, v);
      }
      RaisedPowerIff(r, r', BondedSet(r));
      assert to in r.bonded <==> to in BondedSet(r);
      DelegateRaisesStake(r, identity, to, to);
    }
  }

  lemma ActionKeepsSlackIff(r: Registry, a: BlockAction)
    ensures var r' := ApplyBlockAction(r, a).0;
            Slack(r') >= Slack(r) && (Slack(r') == Slack(r) <==> !RaisesBonded(r, a))
  {
    match a
    case StakeTokens(identity, amount) => StakeKeepsSlackIff(r, identity, amount);
    case Delegate(identity, v) => DelegateKeepsSlackIff(r, identity, v);
    case DepositForFees(holder, amount) =>
      var r' := Deposit(r, holder, amount);
      assert BondedSet(r') == BondedSet(r);
      forall v ensures Stake(r, v) == Stake(r', v) {
        SameStakes(r, r', v);
      }
      SamePower(r, r', BondedSet(r));
  }

  /** Some action of the block, up to the first that fails, raises the stake of a bonded validator. */
  predicate BlockRaisesBonded(r: Registry, actions: seq<BlockAction>)
    decreases |actions|
  {
    actions != [] &&
    (|| RaisesBonded(r, actions[0])
     || (ApplyBlockAction(r, actions[0]).1 && BlockRaisesBonded(ApplyBlockAction(r, actions[0]).0, actions[1..])))
  }

  lemma {:induction false} ActionsKeepSlackIff(r: Registry, actions: seq<BlockAction>)
    ensures var r' := ApplyBlockActions(r, actions).0;
            Slack(r') >= Slack(r) && (Slack(r') == Slack(r) <==> !BlockRaisesBonded(r, actions))
    decreases |actions|
  {
    if actions != [] {
      var (r1, ok) := ApplyBlockAction(r, actions[0]);
      ActionKeepsSlackIff(r, actions[0]);
      if ok {
        ActionsKeepSlackIff(r1, actions[1..]);
      }
    }
  }

  /**
    A block leaves the total in sync exactly when none of its actions raises the stake of a bonded
    validator; a total that has fallen behind never catches up.
   */
  lemma BlockKeepsInSyncIff(r: Registry, actions: seq<BlockAction>, newBonded: seq<Pubkey>)
    ensures var r' := ProcessBlock(r, actions, newBonded).0;
            && Slack(r') >= Slack(r)
            && (InSync(r) ==> (InSync(r') <==> !BlockRaisesBonded(r, actions)))
  {
    ActionsKeepSlackIff(r, actions);
    BondAllKeepsSlack(ApplyBlockActions(r, actions).0, newBonded);
  }

  /** The failing case of two steps: a delegation of nothing yet to a bonded validator, and a stake after it. */
  lemma LateStakeBreaksSync(r: Registry, identity: Identity, v: Pubkey, amount: nat)
    requires InSync(r) && DelegateTo(r, identity, v).1 && v in r.bonded && identity !in r.stakes && amount > 0
    ensures InSync(DelegateTo(r, identity, v).0)
    ensures !InSync(ApplyBlockActions(r, [Delegate(identity, v), StakeTokens(identity, amount)]).0)
  {
    var two := [Delegate(identity, v), StakeTokens(identity, amount)];
    var one := [StakeTokens(identity, amount)];
    var r1 := DelegateTo(r, identity, v).0;
    DelegateKeepsSlackIff(r, identity, v);
    StakeKeepsSlackIff(r1, identity, amount);
    assert DelegatesTo(r1, identity, v);
    assert two[1..] == one && one[1..] == [];
    assert ApplyBlockActions(r1, one).0 == StakeTokensOf(r1, identity, amount).0;
    assert ApplyBlockActions(r, two) == ApplyBlockActions(r1, one);
  }
}
