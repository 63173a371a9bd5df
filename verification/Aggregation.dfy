/**
  When signatures aggregate: exactly when the forged ones among them make up for each other.
 */
module Aggregation {
  import opened Model

  function Forged<T(==)>(votes: set<Signed<T>>, bytes: Message): set<Signed<T>> {
    set v | v in votes && !Genuine(v, bytes)
  }

  lemma BalancedEverywhere<T>(votes: set<Signed<T>>, bytes: Message, x: Share)
    requires Balanced(votes, bytes)
    ensures |Signing(votes, x)| == |Claiming(votes, bytes, x)|
  {
    if v :| v in Signing(votes, x) {
      assert v in votes && v.signature == x;
    } else if v :| v in Claiming(votes, bytes, x) {
      assert v in votes && Share(v.validator, bytes) == x;
    }
  }

  /** What was aggregated verifies. */
  lemma BalancedVerifies<T>(votes: set<Signed<T>>, bytes: Message)
    requires votes != {} && Balanced(votes, bytes)
    ensures VerifyAggregate(bytes, Combine(votes))
  {
    var sig := Combine(votes);
    var claimed := set v | v in sig.validators :: Share(v, bytes);
    forall x | x in sig.shares ensures x in claimed {
      var v :| v in votes && v.signature == x;
      assert v in Signing(votes, x);
      var u :| u in Claiming(votes, bytes, x);
      assert u.validator in sig.validators;
    }
    forall x | x in claimed ensures x in sig.shares {
      var u :| u in votes && Share(u.validator, bytes) == x;
      assert u in Claiming(votes, bytes, x);
      var v :| v in Signing(votes, x);
      assert v in votes;
    }
    var v :| v in votes;
    assert v.validator in sig.validators;
  }

  /** The genuine votes with signature `x`. */
  function Honest<T(==)>(votes: set<Signed<T>>, bytes: Message, x: Share): set<Signed<T>> {
    set v | v in votes && Genuine(v, bytes) && v.signature == x
  }

  lemma SizeOfParts<T>(whole: set<T>, a: set<T>, b: set<T>)
    requires whole == a + b && a !! b
    ensures |whole| == |a| + |b|
  {}

  lemma SigningParts<T>(votes: set<Signed<T>>, bytes: Message, x: Share)
    ensures |Signing(votes, x)| == |Honest(votes, bytes, x)| + |Signing(Forged(votes, bytes), x)|
  {
    SizeOfParts(Signing(votes, x), Honest(votes, bytes, x), Signing(Forged(votes, bytes), x));
  }

  lemma ClaimingParts<T>(votes: set<Signed<T>>, bytes: Message, x: Share)
    ensures |Claiming(votes, bytes, x)| == |Honest(votes, bytes, x)| + |Claiming(Forged(votes, bytes), bytes, x)|
  {
    SizeOfParts(Claiming(votes, bytes, x), Honest(votes, bytes, x), Claiming(Forged(votes, bytes), bytes, x));
  }

  /** Only the forged votes decide. */
  lemma ForgedDecide<T>(votes: set<Signed<T>>, bytes: Message)
    ensures Balanced(votes, bytes) <==> Balanced(Forged(votes, bytes), bytes)
  {
    var forged := Forged(votes, bytes);
    if Balanced(votes, bytes) {
      forall x ensures |Signing(forged, x)| == |Claiming(forged, bytes, x)| {
        BalancedEverywhere(votes, bytes, x);
        SigningParts(votes, bytes, x);
        ClaimingParts(votes, bytes, x);
      }
    }
    if Balanced(forged, bytes) {
      forall x ensures |Signing(votes, x)| == |Claiming(votes, bytes, x)| {
        BalancedEverywhere(forged, bytes, x);
        SigningParts(votes, bytes, x);
        ClaimingParts(votes, bytes, x);
      }
    }
  }

  /** Whatever else is there, a single forged vote spoils the aggregate. */
  lemma OneForgedVoteSpoils<T>(votes: set<Signed<T>>, bytes: Message, u: Signed<T>)
    requires |votes| > 1 && Forged(votes, bytes) == {u}
    ensures Aggregate(votes, bytes).None?
  {
    var one := {u};
    ForgedDecide(votes, bytes);
    assert u in Signing(one, u.signature);
    assert u in Forged(votes, bytes) && Claiming(one, bytes, u.signature) == {};
  }
}
