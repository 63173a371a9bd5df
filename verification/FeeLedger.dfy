/**
  What settling the dissemination fees of a block does to the balances: who pays, whether it goes
  through, and how much is lost to rounding.
 */
module FeeLedger {
  import opened Model
  import opened Staking

  type Ledger = map<Pubkey, FeeState>

  function Total(b: Ledger): int
    decreases |b|
  {
    if b == map[] then 0
    else
      assert b.Keys != {};
      var k := Least(b.Keys);
      assert (b - {k}).Keys == b.Keys - {k};
      b[k].balance + Total(b - {k})
  }

  function Paid(b: Ledger, k: Pubkey): nat {
    if k in b then b[k].paidCumulSize else 0
  }

  function BalanceOf(b: Ledger, k: Pubkey): int {
    if k in b then b[k].balance else 0
  }

  lemma {:induction false} TotalWithout(b: Ledger, k: Pubkey)
    requires k in b
    ensures Total(b) == b[k].balance + Total(b - {k})
    decreases |b|
  {
    assert b.Keys != {};
    var m := Least(b.Keys);
    assert (b - {m}).Keys == b.Keys - {m} && (b - {k}).Keys == b.Keys - {k};
    if k != m {
      TotalWithout(b - {m}, k);
      LeastWithout(b.Keys, k);
      assert b - {m} - {k} == b - {k} - {m};
    }
  }

  lemma TotalPut(b: Ledger, k: Pubkey, st: FeeState)
    ensures Total(b[k := st]) == Total(b) - BalanceOf(b, k) + st.balance
  {
    TotalWithout(b[k := st], k);
    assert b[k := st] - {k} == b - {k};
    if k in b {
      TotalWithout(b, k);
    } else {
      assert b - {k} == b;
    }
  }

  lemma OneMore(n: nat, amount: int)
    ensures (n + 1) * amount == n * amount + amount
  {}

  lemma {:induction false} CreditTotal(b: Ledger, vs: seq<Pubkey>, amount: int)
    ensures Total(Credit(b, vs, amount)) == Total(b) + |vs| * amount
    decreases |vs|
  {
    if vs != [] {
      var before := if vs[0] in b then b[vs[0]] else FeeState(0, 0);
      var after := before.(balance := before.balance + amount);
      TotalPut(b, vs[0], after);
      CreditTotal(b[vs[0] := after], vs[1..], amount);
      OneMore(|vs[1..]|, amount);
    }
  }

  lemma {:induction false} CreditKeepsPaid(b: Ledger, vs: seq<Pubkey>, amount: int, k: Pubkey)
    ensures Paid(Credit(b, vs, amount), k) == Paid(b, k)
    ensures k in Credit(b, vs, amount) <==> k in b || k in vs
    decreases |vs|
  {
    if vs != [] {
      var before := if vs[0] in b then b[vs[0]] else FeeState(0, 0);
      CreditKeepsPaid(b[vs[0] := before.(balance := before.balance + amount)], vs[1..], amount, k);
      assert vs == [vs[0]] + vs[1..];
    }
  }

  /** What a lane has paid for by its balance and the first `k` pending fees. */
  function PaidUpTo(b: Ledger, pending: seq<(Pubkey, nat)>, k: nat, lane: Pubkey): nat
    requires k <= |pending|
  {
    if k == 0 then Paid(b, lane)
    else if pending[k - 1].0 == lane then pending[k - 1].1
    else PaidUpTo(b, pending, k - 1, lane)
  }

  /** The fee due when the `i`-th pending size is settled. */
  function Due(b: Ledger, pending: seq<(Pubkey, nat)>, i: nat): int
    requires i < |pending|
  {
    pending[i].1 - PaidUpTo(b, pending, i, pending[i].0)
  }

  /** What equal shares among `n` leave over of the first `k` fees. */
  function Rounding(b: Ledger, pending: seq<(Pubkey, nat)>, k: nat, n: nat): nat
    requires k <= |pending| && n > 0
  {
    if k == 0 then 0 else Rounding(b, pending, k - 1, n) + Due(b, pending, k - 1) % n
  }

  /** The lane can be charged: it has a balance, if only from an earlier share, and its size did not shrink. */
  predicate Chargeable(b: Ledger, bonded: seq<Pubkey>, pending: seq<(Pubkey, nat)>, i: nat)
    requires i < |pending|
  {
    (pending[i].0 in b || (i > 0 && pending[i].0 in bonded)) && Due(b, pending, i) >= 0
  }

  //  One lane

  /** The ledger after the first lane has paid. */
  function ChargeOne(b: Ledger, bonded: seq<Pubkey>, p: (Pubkey, nat)): Ledger
    requires p.0 in b && p.1 >= b[p.0].paidCumulSize && bonded != []
  {
    var fee := p.1 - b[p.0].paidCumulSize;
    Credit(b[p.0 := FeeState(b[p.0].balance - fee, p.1)], bonded, fee / |bonded|)
  }

  lemma EqualShares(fee: nat, n: nat)
    requires n > 0
    ensures n * (fee / n) == fee - fee % n
  {}

  lemma ChargeOneTotal(b: Ledger, bonded: seq<Pubkey>, p: (Pubkey, nat))
    requires p.0 in b && p.1 >= b[p.0].paidCumulSize && bonded != []
    ensures Total(ChargeOne(b, bonded, p)) == Total(b) - (p.1 - b[p.0].paidCumulSize) % |bonded|
  {
    var fee := p.1 - b[p.0].paidCumulSize;
    TotalPut(b, p.0, FeeState(b[p.0].balance - fee, p.1));
    CreditTotal(b[p.0 := FeeState(b[p.0].balance - fee, p.1)], bonded, fee / |bonded|);
    EqualShares(fee, |bonded|);
  }

  lemma ChargeOnePaid(b: Ledger, bonded: seq<Pubkey>, p: (Pubkey, nat), k: Pubkey)
    requires p.0 in b && p.1 >= b[p.0].paidCumulSize && bonded != []
    ensures Paid(ChargeOne(b, bonded, p), k) == if k == p.0 then p.1 else Paid(b, k)
    ensures k in ChargeOne(b, bonded, p) <==> k in b || k in bonded
  {
    var fee := p.1 - b[p.0].paidCumulSize;
    CreditKeepsPaid(b[p.0 := FeeState(b[p.0].balance - fee, p.1)], bonded, fee / |bonded|, k);
  }

  /** Fees due after the first lane has paid are those that were due behind it. */
  lemma {:induction false} PaidShift(b: Ledger, b1: Ledger, pending: seq<(Pubkey, nat)>, k: nat, lane: Pubkey)
    requires k < |pending|
    requires Paid(b1, lane) == if lane == pending[0].0 then pending[0].1 else Paid(b, lane)
    ensures PaidUpTo(b1, pending[1..], k, lane) == PaidUpTo(b, pending, k + 1, lane)
  {
    if k > 0 {
      PaidShift(b, b1, pending, k - 1, lane);
      assert pending[1..][k - 1] == pending[k];
    }
  }

  lemma DueShift(b: Ledger, bonded: seq<Pubkey>, pending: seq<(Pubkey, nat)>, i: nat)
    requires pending != [] && bonded != [] && pending[0].0 in b && Due(b, pending, 0) >= 0 && i + 1 < |pending|
    ensures Due(ChargeOne(b, bonded, pending[0]), pending[1..], i) == Due(b, pending, i + 1)
    ensures pending[i + 1].0 in ChargeOne(b, bonded, pending[0]) <==> pending[i + 1].0 in b || pending[i + 1].0 in bonded
  {
    assert pending[1..][i] == pending[i + 1];
    ChargeOnePaid(b, bonded, pending[0], pending[i + 1].0);
    PaidShift(b, ChargeOne(b, bonded, pending[0]), pending, i, pending[i + 1].0);
  }

  lemma {:induction false} RoundingShift(b: Ledger, bonded: seq<Pubkey>, pending: seq<(Pubkey, nat)>, k: nat)
    requires pending != [] && bonded != [] && pending[0].0 in b && Due(b, pending, 0) >= 0 && k < |pending|
    ensures Rounding(b, pending, k + 1, |bonded|) ==
            Due(b, pending, 0) % |bonded| + Rounding(ChargeOne(b, bonded, pending[0]), pending[1..], k, |bonded|)
  {
    if k > 0 {
      RoundingShift(b, bonded, pending, k - 1);
      DueShift(b, bonded, pending, k - 1);
    }
  }

  //  All lanes

  /**
    Settling changes the sum of all balances by exactly the remainders of sharing each fee equally,
    whatever lanes the pending fees name and however often.
   */
  lemma {:induction false} SettleLosesRounding(b: Ledger, pending: seq<(Pubkey, nat)>, bonded: seq<Pubkey>)
    requires bonded != [] && Settle(pending, b, bonded).1
    ensures Total(Settle(pending, b, bonded).0) == Total(b) - Rounding(b, pending, |pending|, |bonded|)
    decreases |pending|
  {
    if pending != [] {
      var b1 := ChargeOne(b, bonded, pending[0]);
      ChargeOneTotal(b, bonded, pending[0]);
      RoundingShift(b, bonded, pending, |pending| - 1);
      SettleLosesRounding(b1, pending[1..], bonded);
    }
  }

  /** Settling goes through exactly when every lane can be charged and there is somebody to share with. */
  lemma {:induction false} SettleSucceedsIff(b: Ledger, pending: seq<(Pubkey, nat)>, bonded: seq<Pubkey>)
    ensures Settle(pending, b, bonded).1 <==>
            pending == [] || (bonded != [] && forall i :: 0 <= i < |pending| ==> Chargeable(b, bonded, pending, i))
    decreases |pending|
  {
    if pending != [] && bonded != [] {
      assert PaidUpTo(b, pending, 0, pending[0].0) == Paid(b, pending[0].0);
      if Chargeable(b, bonded, pending, 0) {
        var b1, rest := ChargeOne(b, bonded, pending[0]), pending[1..];
        SettleSucceedsIff(b1, rest, bonded);
        forall i | 0 <= i < |rest| ensures Chargeable(b1, bonded, rest, i) <==> Chargeable(b, bonded, pending, i + 1) {
          DueShift(b, bonded, pending, i);
          assert rest[i] == pending[i + 1];
        }
        assert forall i :: 0 < i < |pending| ==> (Chargeable(b, bonded, pending, i) <==> Chargeable(b1, bonded, rest, i - 1));
      }
    }
  }
}
