/**
  The staking registry: who may vote, with which weight, and what the lanes owe.
 */
module Staking {
  import opened Model

  type Identity = nat

  const MIN_STAKE := 32

  datatype FeeState = FeeState(balance: int, paidCumulSize: nat)
  datatype Fees = Fees(pending: seq<(Pubkey, nat)>, balances: map<Pubkey, FeeState>)

  datatype Registry = Registry(
    stakes: map<Identity, nat>,
    delegations: map<Pubkey, seq<Identity>>,
    bonded: seq<Pubkey>,
    totalBond: nat,
    fees: Fees
  )

  //  Voting power

  function SumStakes(r: Registry, delegators: seq<Identity>): nat {
    if delegators == [] then 0
    else (if delegators[0] in r.stakes then r.stakes[delegators[0]] else 0) + SumStakes(r, delegators[1..])
  }

  predicate IsKnown(r: Registry, v: Pubkey) {
    v in r.delegations
  }

  predicate IsBonded(r: Registry, v: Pubkey) {
    v in r.bonded
  }

  function GetStake(r: Registry, v: Pubkey): Option<nat> {
    if v in r.delegations then Some(SumStakes(r, r.delegations[v])) else None
  }

  function Stake(r: Registry, v: Pubkey): nat {
    GetStake(r, v).GetOr(0)
  }

  lemma MinExists(s: set<nat>)
    requires s != {}
    ensures exists m :: m in s && forall x :: x in s ==> m <= x
  {
    var x :| x in s;
    var rest := s - {x};
    if rest == {} {
      assert s == {x};
    } else {
      MinExists(rest);
      var m :| m in rest && forall y :: y in rest ==> m <= y;
      assert forall y :: y in s ==> y == x || y in rest;
      var least := if x <= m then x else m;
      assert least in s && forall y :: y in s ==> least <= y;
    }
  }

  function Least(s: set<nat>): (m: nat)
    requires s != {}
    ensures m in s && forall x :: x in s ==> m <= x
  {
    MinExists(s);
    var m :| m in s && forall x :: x in s ==> m <= x;
    m
  }

  /** Stakes of the sorted, deduplicated validators, added up. */
  function Power(r: Registry, vs: set<Pubkey>): nat {
    if vs == {} then 0 else Stake(r, Least(vs)) + Power(r, vs - {Least(vs)})
  }

  /** Largest weight of faulty validators the thresholds are meant for. */
  function F(r: Registry): nat {
    r.totalBond / 3
  }

  lemma LeastWithout(vs: set<Pubkey>, v: Pubkey)
    requires v in vs && v != Least(vs)
    ensures Least(vs) in vs - {v} && Least(vs - {v}) == Least(vs)
    ensures vs - {Least(vs)} - {v} == vs - {v} - {Least(vs)}
  {}

  /** Power does not depend on the order in which it is added up. */
  lemma {:induction false} PowerWithout(r: Registry, vs: set<Pubkey>, v: Pubkey)
    requires v in vs
    ensures Power(r, vs) == Stake(r, v) + Power(r, vs - {v})
  {
    if v != Least(vs) {
      LeastWithout(vs, v);
      PowerWithout(r, vs - {Least(vs)}, v);
    }
  }

  lemma PowerAdd(r: Registry, vs: set<Pubkey>, v: Pubkey)
    ensures Power(r, vs + {v}) == Power(r, vs) + (if v in vs then 0 else Stake(r, v))
  {
    if v in vs {
      assert vs + {v} == vs;
    } else {
      PowerWithout(r, vs + {v}, v);
      assert vs + {v} - {v} == vs;
    }
  }

  lemma {:induction false} PowerUnion(r: Registry, a: set<Pubkey>, b: set<Pubkey>)
    ensures Power(r, a + b) + Power(r, a * b) == Power(r, a) + Power(r, b)
    decreases a
  {
    if a == {} {
      assert a + b == b && a * b == {};
    } else {
      var v :| v in a;
      PowerUnion(r, a - {v}, b);
      PowerWithout(r, a, v);
      assert a - {v} + b + {v} == a + b;
      PowerAdd(r, a - {v} + b, v);
      PowerAdd(r, (a - {v}) * b, v);
      if v in b {
        assert a * b == (a - {v}) * b + {v};
      } else {
        assert a * b == (a - {v}) * b;
      }
    }
  }

  lemma PowerMonotone(r: Registry, a: set<Pubkey>, b: set<Pubkey>)
    requires a <= b
    ensures Power(r, a) <= Power(r, b)
  {
    PowerUnion(r, a, b - a);
    assert a + (b - a) == b && a * (b - a) == {};
  }

  //  Bonding

  predicate StrictlySorted(s: seq<nat>) {
    forall i, j :: 0 <= i < j < |s| ==> s[i] < s[j]
  }

  /** A pushed key, moved to its place by the sort that follows. */
  function InsertSorted(s: seq<nat>, x: nat): seq<nat> {
    if s == [] || x <= s[0] then [x] + s else [s[0]] + InsertSorted(s[1..], x)
  }

  lemma {:induction false} InsertSortedMembers(s: seq<nat>, x: nat, y: nat)
    ensures y in InsertSorted(s, x) <==> y in s || y == x
  {
    if s != [] && x > s[0] {
      InsertSortedMembers(s[1..], x, y);
      assert s == [s[0]] + s[1..];
    }
  }

  lemma {:induction false} InsertSortedKeepsOrder(s: seq<nat>, x: nat)
    requires StrictlySorted(s) && x !in s
    ensures StrictlySorted(InsertSorted(s, x))
  {
    if s != [] && x > s[0] {
      InsertSortedKeepsOrder(s[1..], x);
      var t := InsertSorted(s[1..], x);
      forall i | 0 <= i < |t| ensures s[0] < t[i] {
        InsertSortedMembers(s[1..], x, t[i]);
      }
    }
  }

  lemma {:induction false} InsertLast(s: seq<nat>, x: nat)
    requires forall i :: 0 <= i < |s| ==> s[i] < x
    ensures InsertSorted(s, x) == s + [x]
  {
    if s != [] {
      InsertLast(s[1..], x);
      assert s == [s[0]] + s[1..];
    }
  }

  function BondValidator(r: Registry, v: Pubkey): (res: (Registry, bool))
    ensures StrictlySorted(r.bonded) ==> StrictlySorted(res.0.bonded)
  {
    if IsBonded(r, v) || Stake(r, v) < MIN_STAKE then (r, false)
    else
      assert StrictlySorted(r.bonded) ==> StrictlySorted(InsertSorted(r.bonded, v)) by {
        if StrictlySorted(r.bonded) {
          InsertSortedKeepsOrder(r.bonded, v);
        }
      }
      (r.(bonded := InsertSorted(r.bonded, v), totalBond := r.totalBond + Stake(r, v)), true)
  }

  //  Fees

  function PayForDaDi(r: Registry, lane: LaneId, cumulSize: nat): Registry {
    r.(fees := r.fees.(pending := r.fees.pending + [(lane, cumulSize)]))
  }

  function Credit(balances: map<Pubkey, FeeState>, vs: seq<Pubkey>, amount: int): map<Pubkey, FeeState>
    decreases |vs|
  {
    if vs == [] then balances
    else
      var before := if vs[0] in balances then balances[vs[0]] else FeeState(0, 0);
      Credit(balances[vs[0] := before.(balance := before.balance + amount)], vs[1..], amount)
  }

  /** One lane after the other; a failure, or nobody to share with, leaves the earlier lanes settled. */
  function Settle(pending: seq<(Pubkey, nat)>, balances: map<Pubkey, FeeState>, bonded: seq<Pubkey>)
    : (map<Pubkey, FeeState>, bool)
  {
    if pending == [] then (balances, true)
    else
      var (lane, cumulSize) := pending[0];
      if lane !in balances || cumulSize < balances[lane].paidCumulSize then (balances, false)
      else
        var fee := cumulSize - balances[lane].paidCumulSize;
        var paid := balances[lane := FeeState(balances[lane].balance - fee, cumulSize)];
        if bonded == [] then (paid, false)
        else Settle(pending[1..], Credit(paid, bonded, fee / |bonded|), bonded)
  }

  /** The pending list is drained whether or not settling succeeds. */
  function Distribute(r: Registry): (Registry, bool) {
    var (balances, ok) := Settle(r.fees.pending, r.fees.balances, r.bonded);
    (r.(fees := Fees([], balances)), ok)
  }

  //  Blocks

  datatype BlockAction =
    | StakeTokens(identity: Identity, amount: nat)
    | Delegate(identity: Identity, validator: Pubkey)
    | DepositForFees(holder: Pubkey, amount: nat)

  function StakeTokensOf(r: Registry, identity: Identity, amount: nat): (Registry, bool) {
    if identity in r.stakes then (r, false) else (r.(stakes := r.stakes[identity := amount]), true)
  }

  function DelegateTo(r: Registry, identity: Identity, v: Pubkey): (Registry, bool) {
    if exists k :: k in r.delegations && identity in r.delegations[k] then (r, false)
    else
      var before := if v in r.delegations then r.delegations[v] else [];
      (r.(delegations := r.delegations[v := before + [identity]]), true)
  }

  function Deposit(r: Registry, holder: Pubkey, amount: nat): Registry {
    r.(fees := r.fees.(balances := Credit(r.fees.balances, [holder], amount)))
  }

  function ApplyBlockAction(r: Registry, a: BlockAction): (res: (Registry, bool))
    ensures res.0.bonded == r.bonded
  {
    match a
    case StakeTokens(identity, amount) => StakeTokensOf(r, identity, amount)
    case Delegate(identity, v) => DelegateTo(r, identity, v)
    case DepositForFees(holder, amount) => (Deposit(r, holder, amount), true)
  }

  function ApplyBlockActions(r: Registry, actions: seq<BlockAction>): (res: (Registry, bool))
    ensures res.0.bonded == r.bonded
    decreases |actions|
  {
    if actions == [] then (r, true)
    else
      var (r1, ok) := ApplyBlockAction(r, actions[0]);
      if !ok then (r1, false) else ApplyBlockActions(r1, actions[1..])
  }

  function BondAll(r: Registry, vs: seq<Pubkey>): (res: (Registry, bool))
    ensures StrictlySorted(r.bonded) ==> StrictlySorted(res.0.bonded)
    decreases |vs|
  {
    if vs == [] then (r, true)
    else
      var (r1, ok) := BondValidator(r, vs[0]);
      if !ok then (r1, false) else BondAll(r1, vs[1..])
  }

  function ProcessBlock(r: Registry, actions: seq<BlockAction>, newBonded: seq<Pubkey>): (res: (Registry, bool))
    ensures StrictlySorted(r.bonded) ==> StrictlySorted(res.0.bonded)
  {
    var (r1, ok) := ApplyBlockActions(r, actions);
    if !ok then (r1, false) else BondAll(r1, newBonded)
  }
}
