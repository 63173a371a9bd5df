/**
  Leader rotation: round-robin over the bonded validators.
 */
module Rotation {
  import opened Model
  import opened Staking
  import opened Messages
  import opened Round

  ghost predicate LeadsOnce(bonded: seq<Pubkey>, slot: Slot, view: View, who: Pubkey, at: View) {
    && view <= at < view + |bonded|
    && LeaderAt(bonded, slot, at) == Some(who)
    && forall w :: view <= w < view + |bonded| && LeaderAt(bonded, slot, w) == Some(who) ==> w == at
  }

  lemma MulMonotone(n: nat, a: int, b: int)
    requires a <= b
    ensures n * a <= n * b
  {}

  lemma RemainderUnique(x: int, n: nat, q: int, r: int)
    requires n > 0 && 0 <= r < n && x == n * q + r
    ensures x % n == r
  {
    var q' := x / n;
    assert x == n * q' + x % n;
    if q < q' {
      MulMonotone(n, q + 1, q');
    } else if q > q' {
      MulMonotone(n, q' + 1, q);
    }
  }

  lemma ModShift(a: nat, b: nat, n: nat)
    requires n > 0 && a <= b && b - a < n && a % n == b % n
    ensures a == b
  {
    var r := a % n;
    var d := if r + (b - a) < n then r + (b - a) else r + (b - a) - n;
    var q := if r + (b - a) < n then a / n else a / n + 1;
    assert n * (a / n + 1) == n * (a / n) + n;
    RemainderUnique(b, n, q, d);
  }

  lemma ModReaches(base: nat, i: nat, n: nat) returns (k: nat)
    requires i < n
    ensures k < n && (base + k) % n == i
  {
    var r := base % n;
    k := if i >= r then i - r else i + n - r;
    var q := if i >= r then base / n else base / n + 1;
    assert n * (base / n + 1) == n * (base / n) + n;
    RemainderUnique(base + k, n, q, i);
  }

  /** Any n successive views of a slot are led by each of the n bonded validators exactly once. */
  lemma LeaderRotation(bonded: seq<Pubkey>, slot: Slot, view: View, who: Pubkey) returns (at: View)
    requires StrictlySorted(bonded) && who in bonded && slot + view >= 1
    ensures LeadsOnce(bonded, slot, view, who, at)
  {
    var n := |bonded|;
    var i :| 0 <= i < n && bonded[i] == who;
    var base := slot + view - 1;
    var k := ModReaches(base, i, n);
    at := view + k;
    forall w | view <= w < view + n && LeaderAt(bonded, slot, w) == Some(who)
      ensures w == at
    {
      assert (slot + w - 1) % n == i;
      if w <= at {
        ModShift(slot + w - 1, slot + at - 1, n);
      } else {
        ModShift(slot + at - 1, slot + w - 1, n);
      }
    }
  }

  /** At slot 0, view 0 the subtraction wraps: the rotation is complete exactly when n divides 2^64. */
  lemma RotationFromZero(bonded: seq<Pubkey>)
    requires StrictlySorted(bonded) && bonded != []
    ensures (forall who :: who in bonded ==> exists k :: 0 <= k < |bonded| && LeaderAt(bonded, 0, k) == Some(who))
            <==> U64_MAX % |bonded| == |bonded| - 1
  {
    var n := |bonded|;
    var wrapped := U64_MAX % n;
    forall k | 1 <= k < n ensures LeaderAt(bonded, 0, k) == Some(bonded[k - 1]) {
      RemainderUnique(k - 1, n, 0, k - 1);
    }
    assert LeaderAt(bonded, 0, 0) == Some(bonded[wrapped]);
    if wrapped == n - 1 {
      forall who | who in bonded
        ensures exists k :: 0 <= k < n && LeaderAt(bonded, 0, k) == Some(who)
      {
        var i :| 0 <= i < n && bonded[i] == who;
        var k := if i == n - 1 then 0 else i + 1;
        assert LeaderAt(bonded, 0, k) == Some(who);
      }
    } else {
      var last := bonded[n - 1];
      forall k | 0 <= k < n ensures LeaderAt(bonded, 0, k) != Some(last) {
        if k == 0 {
          assert bonded[wrapped] < last;
        } else {
          assert bonded[k - 1] < last;
        }
      }
    }
  }

  /** The next view's leader is the node a timeout ticket turns into the leader, and asking for it changes nothing. */
  lemma TimeoutElectsNextViewLeader(c: Config, s: Node, tc: AggregateSignature, kind: TcKind, now: Timestamp)
    requires !s.tag.Joining?
    ensures var (s', ok) := ApplyTicket(c, s, TimeoutQc(tc, kind), now);
            && (ok <==> NextViewLeader(s).Some?)
            && (ok ==> (s'.tag.Leader? <==> NextViewLeader(s) == Some(c.me)))
            && RoundLeader(s') == NextViewLeader(s)
  {}
}
