/**
  The votes of a lane entry: a list kept strictly sorted by signature, fed by incoming votes.
 */
module DataVotes {
  import opened Model
  import opened Lanes

  /** Rank of a validator's signature in the byte order the program compares by. */
  type Order = (Share, Pubkey) -> nat

  /** Different signatures have different positions. */
  ghost predicate Injective(order: Order) {
    forall a: Share, v: Pubkey, b: Share, w: Pubkey :: order(a, v) == order(b, w) ==> a == b && v == w
  }

  function Rank(order: Order, v: DataVote): nat {
    order(v.signature, v.validator)
  }

  predicate Sorted(order: Order, votes: seq<DataVote>) {
    forall i, j :: 0 <= i < j < |votes| ==> Rank(order, votes[i]) < Rank(order, votes[j])
  }

  predicate Matches(entry: LaneVote, votes: seq<DataVote>) {
    forall i :: 0 <= i < |votes| ==> votes[i].msg == entry
  }

  /** An entry's votes are strictly sorted and are all about that entry. */
  predicate InPlace(order: Order, h: DpHash, md: Metadata) {
    Sorted(order, md.signatures) && Matches(LaneVote(h, md.cumulSize), md.signatures)
  }

  /** Position of the first vote that does not come before `v`. */
  function PositionOf(order: Order, votes: seq<DataVote>, v: DataVote): (p: nat)
    ensures p <= |votes|
    ensures forall i :: 0 <= i < p ==> Rank(order, votes[i]) < Rank(order, v)
    ensures p < |votes| ==> Rank(order, votes[p]) >= Rank(order, v)
  {
    if votes == [] || Rank(order, votes[0]) >= Rank(order, v) then 0
    else
      var p := 1 + PositionOf(order, votes[1..], v);
      assert forall i :: 1 <= i < p ==> votes[i] == votes[1..][i - 1];
      p
  }

  /** A vote for something else is dropped, and so is one whose signature is already there. */
  function Insert(order: Order, entry: LaneVote, votes: seq<DataVote>, v: DataVote): seq<DataVote> {
    var p := PositionOf(order, votes, v);
    if v.msg != entry || (p < |votes| && Rank(order, votes[p]) == Rank(order, v)) then votes
    else votes[..p] + [v] + votes[p..]
  }

  function InsertAll(order: Order, entry: LaneVote, votes: seq<DataVote>, incoming: seq<DataVote>): seq<DataVote>
    decreases |incoming|
  {
    if incoming == [] then votes
    else InsertAll(order, entry, Insert(order, entry, votes, incoming[0]), incoming[1..])
  }

  function SetOf(votes: seq<DataVote>): set<DataVote> {
    set v | v in votes
  }

  function Relevant(entry: LaneVote, votes: seq<DataVote>): set<DataVote> {
    set v | v in votes && v.msg == entry
  }

  lemma SameSignature(order: Order, a: DataVote, b: DataVote)
    requires Injective(order) && Rank(order, a) == Rank(order, b) && a.msg == b.msg
    ensures a == b
  {}

  lemma InsertNew(order: Order, entry: LaneVote, votes: seq<DataVote>, v: DataVote)
    requires Sorted(order, votes) && Matches(entry, votes) && v.msg == entry
    requires var p := PositionOf(order, votes, v); p < |votes| ==> Rank(order, votes[p]) != Rank(order, v)
    ensures var votes' := Insert(order, entry, votes, v);
            Sorted(order, votes') && Matches(entry, votes') && SetOf(votes') == SetOf(votes) + {v}
  {
    var p := PositionOf(order, votes, v);
    InsertedMembers(votes, v, p);
    InsertedSorted(order, votes, v, p);
    InsertedMatches(entry, votes, v, p);
  }

  lemma InsertAddsOne(order: Order, entry: LaneVote, votes: seq<DataVote>, v: DataVote)
    requires Injective(order) && Sorted(order, votes) && Matches(entry, votes)
    ensures var votes' := Insert(order, entry, votes, v);
            && Sorted(order, votes') && Matches(entry, votes')
            && SetOf(votes') == SetOf(votes) + Relevant(entry, [v])
  {
    var p := PositionOf(order, votes, v);
    assert Relevant(entry, [v]) == if v.msg == entry then {v} else {};
    if v.msg == entry {
      if p < |votes| && Rank(order, votes[p]) == Rank(order, v) {
        SameSignature(order, votes[p], v);
      } else {
        InsertNew(order, entry, votes, v);
      }
    }
  }

  lemma InsertedMembers(votes: seq<DataVote>, v: DataVote, p: nat)
    requires p <= |votes|
    ensures SetOf(votes[..p] + [v] + votes[p..]) == SetOf(votes) + {v}
  {
    var all := votes[..p] + [v] + votes[p..];
    assert all[p] == v;
    forall x | x in votes ensures x in all {
      var i :| 0 <= i < |votes| && votes[i] == x;
      assert all[if i < p then i else i + 1] == x;
    }
    forall x | x in all && x != v ensures x in votes {
      var i :| 0 <= i < |all| && all[i] == x;
      assert votes[if i < p then i else i - 1] == x;
    }
  }

  lemma InsertedMatches(entry: LaneVote, votes: seq<DataVote>, v: DataVote, p: nat)
    requires p <= |votes| && Matches(entry, votes) && v.msg == entry
    ensures Matches(entry, votes[..p] + [v] + votes[p..])
  {}

  lemma InsertedSorted(order: Order, votes: seq<DataVote>, v: DataVote, p: nat)
    requires Sorted(order, votes) && p <= |votes|
    requires forall i :: 0 <= i < p ==> Rank(order, votes[i]) < Rank(order, v)
    requires p < |votes| ==> Rank(order, votes[p]) > Rank(order, v)
    ensures Sorted(order, votes[..p] + [v] + votes[p..])
  {
    var all := votes[..p] + [v] + votes[p..];
    forall i, j | 0 <= i < j < |all| ensures Rank(order, all[i]) < Rank(order, all[j]) {
      assert j > p ==> all[j] == votes[j - 1];
      assert i > p ==> all[i] == votes[i - 1];
    }
  }

  /** Adding votes is set union with the votes that are about this entry. */
  lemma {:induction false} AddingIsUnion(order: Order, entry: LaneVote, votes: seq<DataVote>, incoming: seq<DataVote>)
    requires Injective(order) && Sorted(order, votes) && Matches(entry, votes)
    ensures var votes' := InsertAll(order, entry, votes, incoming);
            && Sorted(order, votes') && Matches(entry, votes')
            && SetOf(votes') == SetOf(votes) + Relevant(entry, incoming)
    decreases |incoming|
  {
    if incoming == [] {
      assert Relevant(entry, incoming) == {};
    } else {
      InsertAddsOne(order, entry, votes, incoming[0]);
      AddingIsUnion(order, entry, Insert(order, entry, votes, incoming[0]), incoming[1..]);
      assert incoming == [incoming[0]] + incoming[1..];
      assert Relevant(entry, incoming) == Relevant(entry, [incoming[0]]) + Relevant(entry, incoming[1..]);
    }
  }

  /** Two sorted lists with the same votes are the same list. */
  lemma {:induction false} SortedUnique(order: Order, a: seq<DataVote>, b: seq<DataVote>)
    requires Sorted(order, a) && Sorted(order, b) && SetOf(a) == SetOf(b)
    ensures a == b
  {
    assert a == [] <==> SetOf(a) == {} by {
      assert a != [] ==> a[0] in SetOf(a);
    }
    assert b == [] <==> SetOf(b) == {} by {
      assert b != [] ==> b[0] in SetOf(b);
    }
    if a != [] {
      assert a[0] in SetOf(a) && b[0] in SetOf(b);
      FirstIsLeast(order, a, b[0]);
      FirstIsLeast(order, b, a[0]);
      TailSet(order, a);
      TailSet(order, b);
      SortedUnique(order, a[1..], b[1..]);
      assert a == [a[0]] + a[1..] && b == [b[0]] + b[1..];
    }
  }

  lemma FirstIsLeast(order: Order, a: seq<DataVote>, v: DataVote)
    requires Sorted(order, a) && v in a
    ensures a != [] && (v == a[0] || Rank(order, a[0]) < Rank(order, v))
  {
    var i :| 0 <= i < |a| && a[i] == v;
  }

  lemma TailSet(order: Order, a: seq<DataVote>)
    requires Sorted(order, a) && a != []
    ensures SetOf(a[1..]) == SetOf(a) - {a[0]}
  {
    assert a == [a[0]] + a[1..];
    assert a[0] !in a[1..];
  }

  /** The result depends on which relevant votes came in, not on their order, repetition or batching. */
  lemma AddingIgnoresOrder(order: Order, entry: LaneVote, votes: seq<DataVote>, first: seq<DataVote>, second: seq<DataVote>)
    requires Injective(order) && Sorted(order, votes) && Matches(entry, votes)
    requires Relevant(entry, first) == Relevant(entry, second)
    ensures InsertAll(order, entry, votes, first) == InsertAll(order, entry, votes, second)
    ensures InsertAll(order, entry, InsertAll(order, entry, votes, first), second) == InsertAll(order, entry, votes, first)
  {
    AddingIsUnion(order, entry, votes, first);
    AddingIsUnion(order, entry, votes, second);
    var once := InsertAll(order, entry, votes, first);
    SortedUnique(order, once, InsertAll(order, entry, votes, second));
    AddingIsUnion(order, entry, once, second);
    SortedUnique(order, InsertAll(order, entry, once, second), once);
  }

  //  The program's loops

  /** Binary search for the place of a vote; what it finds in an unsorted list is some place. */
  method FindPosition(order: Order, votes: seq<DataVote>, v: DataVote) returns (p: nat)
    ensures p <= |votes|
    ensures Sorted(order, votes) ==> p == PositionOf(order, votes, v)
  {
    var low, high := 0, |votes|;
    while low < high
      invariant 0 <= low <= high <= |votes|
      invariant Sorted(order, votes) ==> forall i :: 0 <= i < low ==> Rank(order, votes[i]) < Rank(order, v)
      invariant Sorted(order, votes) ==> forall i :: high <= i < |votes| ==> Rank(order, votes[i]) >= Rank(order, v)
    {
      var mid := (low + high) / 2;
      if Rank(order, votes[mid]) < Rank(order, v) {
        low := mid + 1;
      } else {
        high := mid;
      }
    }
    p := low;
    ghost var q := PositionOf(order, votes, v);
    assert Sorted(order, votes) && p < |votes| ==> Rank(order, votes[p]) >= Rank(order, v);
    assert Sorted(order, votes) ==> q == p;
  }

  /** One step of the loop: the vote is put at its place, unless it is about something else or already there. */
  method AddVote(order: Order, entry: LaneVote, votes: seq<DataVote>, v: DataVote) returns (signatures: seq<DataVote>)
    ensures SetOf(votes) <= SetOf(signatures) <= SetOf(votes) + Relevant(entry, [v])
    ensures Sorted(order, votes) ==> signatures == Insert(order, entry, votes, v)
  {
    signatures := votes;
    if v.msg != entry {
      return;
    }
    var p := FindPosition(order, votes, v);
    if p == |votes| || Rank(order, votes[p]) != Rank(order, v) {
      signatures := votes[..p] + [v] + votes[p..];
      InsertedMembers(votes, v, p);
      assert v in Relevant(entry, [v]);
    }
  }

  /**
    Takes the incoming votes one after the other. Whatever the list is like, nothing is lost and
    only votes about the entry come in; a sorted list about the entry becomes the sorted union.
   */
  method AddVotes(order: Order, entry: LaneVote, votes: seq<DataVote>, incoming: seq<DataVote>) returns (signatures: seq<DataVote>)
    ensures SetOf(votes) <= SetOf(signatures) <= SetOf(votes) + Relevant(entry, incoming)
    ensures Injective(order) && Sorted(order, votes) && Matches(entry, votes) ==>
      && signatures == InsertAll(order, entry, votes, incoming)
      && Sorted(order, signatures) && Matches(entry, signatures)
      && SetOf(signatures) == SetOf(votes) + Relevant(entry, incoming)
  {
    signatures := votes;
    ghost var good := Injective(order) && Sorted(order, votes) && Matches(entry, votes);
    var i := 0;
    while i < |incoming|
      invariant 0 <= i <= |incoming|
      invariant SetOf(votes) <= SetOf(signatures) <= SetOf(votes) + Relevant(entry, incoming)
      invariant good ==> Sorted(order, signatures) && Matches(entry, signatures)
      invariant good ==> InsertAll(order, entry, votes, incoming) == InsertAll(order, entry, signatures, incoming[i..])
    {
      var v := incoming[i];
      assert incoming[i..][1..] == incoming[i + 1..];
      RelevantMember(entry, incoming, i);
      if good {
        InsertAddsOne(order, entry, signatures, v);
      }
      signatures := AddVote(order, entry, signatures, v);
      i := i + 1;
    }
    if good {
      AddingIsUnion(order, entry, votes, incoming);
    }
  }

  lemma RelevantMember(entry: LaneVote, incoming: seq<DataVote>, i: nat)
    requires i < |incoming|
    ensures Relevant(entry, [incoming[i]]) <= Relevant(entry, incoming)
  {}
}
