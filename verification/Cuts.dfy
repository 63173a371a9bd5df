/**
  The cut a leader takes of the lanes, and why the other validators accept it.
 */
module Cuts {
  import opened Model
  import Aggregation
  import opened Staking
  import opened Lanes
  import Round

  /** The elements of a set in ascending order, as a sorted map yields its keys. */
  function Ascending(s: set<nat>): (r: seq<nat>)
    ensures forall x :: x in r <==> x in s
    ensures StrictlySorted(r)
  {
    if s == {} then []
    else
      [Least(s)] + Ascending(s - {Least(s)})
  }

  /** The newest certified entry of a lane, or else what the previous cut had. */
  function EntryFor(s: Store, r: Registry, previousCut: Cut, lane: LaneId): Option<CutEntry> {
    var previous := FindLane(previousCut, lane);
    match LatestCar(s, lane, r, previous)
    case Some(car) => Some(CutEntry(lane, car.dp, car.cumulSize, car.poda))
    case None => previous
  }

  function CutOver(s: Store, r: Registry, previousCut: Cut, lanes: seq<LaneId>): Cut {
    if lanes == [] then []
    else
      var rest := CutOver(s, r, previousCut, lanes[1..]);
      match EntryFor(s, r, previousCut, lanes[0])
      case Some(e) => [e] + rest
      case None => rest
  }

  function NewCut(s: Store, r: Registry, previousCut: Cut): Cut {
    CutOver(s, r, previousCut, Ascending(s.tips.Keys))
  }

  lemma {:induction false} CutOverEntries(s: Store, r: Registry, previousCut: Cut, lanes: seq<LaneId>, e: CutEntry)
    ensures e in CutOver(s, r, previousCut, lanes) <==>
            exists i :: 0 <= i < |lanes| && EntryFor(s, r, previousCut, lanes[i]) == Some(e)
  {
    if lanes != [] {
      var rest := lanes[1..];
      CutOverEntries(s, r, previousCut, rest, e);
      assert forall i :: 0 <= i < |rest| ==> rest[i] == lanes[i + 1];
      assert forall i :: 0 < i < |lanes| ==> lanes[i] == rest[i - 1];
    }
  }

  lemma NewCutEntries(s: Store, r: Registry, previousCut: Cut, e: CutEntry)
    ensures e in NewCut(s, r, previousCut) <==> e.lane in s.tips && EntryFor(s, r, previousCut, e.lane) == Some(e)
  {
    var lanes := Ascending(s.tips.Keys);
    CutOverEntries(s, r, previousCut, lanes, e);
    if e.lane in s.tips {
      var i :| 0 <= i < |lanes| && lanes[i] == e.lane;
    }
  }

  predicate LanesAscend(cut: Cut) {
    forall i, j :: 0 <= i < j < |cut| ==> cut[i].lane < cut[j].lane
  }

  lemma AscendOnto(e: CutEntry, cut: Cut)
    requires LanesAscend(cut) && forall i :: 0 <= i < |cut| ==> e.lane < cut[i].lane
    ensures LanesAscend([e] + cut)
  {}

  lemma {:induction false} CutOverAscends(s: Store, r: Registry, previousCut: Cut, lanes: seq<LaneId>)
    requires StrictlySorted(lanes)
    ensures LanesAscend(CutOver(s, r, previousCut, lanes))
  {
    if lanes != [] {
      var rest := lanes[1..];
      assert forall i :: 0 <= i < |rest| ==> rest[i] == lanes[i + 1];
      CutOverAscends(s, r, previousCut, rest);
      var tail := CutOver(s, r, previousCut, rest);
      forall j | 0 <= j < |tail| ensures lanes[0] < tail[j].lane {
        CutOverEntries(s, r, previousCut, rest, tail[j]);
        var k :| 0 <= k < |rest| && EntryFor(s, r, previousCut, rest[k]) == Some(tail[j]);
        assert tail[j].lane == rest[k] == lanes[k + 1];
      }
      if EntryFor(s, r, previousCut, lanes[0]).Some? {
        AscendOnto(EntryFor(s, r, previousCut, lanes[0]).value, tail);
      }
    }
  }

  /** A leader's cut names every lane once. */
  lemma NewCutNamesLanesOnce(s: Store, r: Registry, previousCut: Cut)
    ensures LanesAscend(NewCut(s, r, previousCut))
  {
    CutOverAscends(s, r, previousCut, Ascending(s.tips.Keys));
  }

  //  What the leader's storage looks like

  /** From the tip down to the committed entry there is no hole, and every entry made the lane larger. */
  ghost predicate Continues(s: Store, lane: LaneId, previous: CutEntry, n: nat) {
    && lane in s.tips
    && (forall k :: 0 <= k <= n ==> Stored(s, lane, DpAncestor(s.tips[lane].hash, k)))
    && (forall k :: 0 <= k < n ==>
          SizeAt(s, lane, DpAncestor(s.tips[lane].hash, k)) > SizeAt(s, lane, DpAncestor(s.tips[lane].hash, n)))
    && DpAncestor(s.tips[lane].hash, n) == Some(previous.dp)
  }

  function SizeAt(s: Store, lane: LaneId, h: Option<DpHash>): nat {
    if Stored(s, lane, h) then s.metadata[(lane, h.value)].cumulSize else 0
  }

  ghost predicate ContinuesPrevious(s: Store, previousCut: Cut, lane: LaneId) {
    var previous := FindLane(previousCut, lane);
    previous.Some? ==> exists n :: Continues(s, lane, previous.value, n)
  }

  /** The previous cut did not record the lane as larger than it was. Nothing makes followers check that. */
  predicate RecordedAtMost(s: Store, previousCut: Cut, lane: LaneId) {
    var previous := FindLane(previousCut, lane);
    previous.Some? ==> previous.value.cumulSize <= SizeAt(s, lane, Some(previous.value.dp))
  }

  //  Acceptance

  /** Two or more votes are checked when they are aggregated; a vote that stands alone has to be genuine. */
  ghost predicate VotesSound(s: Store, r: Registry, lane: LaneId, h: DpHash)
    requires (lane, h) in s.metadata
  {
    var md := s.metadata[(lane, h)];
    forall v: DataVote :: BondedVotes(r, md) == {v} ==> Genuine(v, DataVoteBytes(h, md.cumulSize))
  }

  /** The entry is the committed one again, or its votes are sound. */
  ghost predicate EntrySound(s: Store, r: Registry, previousCut: Cut, e: CutEntry) {
    || IsCommitted(FindLane(previousCut, e.lane), e.dp)
    || ((e.lane, e.dp) in s.metadata && VotesSound(s, r, e.lane, e.dp))
  }

  lemma Singleton<T>(s: set<T>) returns (x: T)
    requires |s| == 1
    ensures s == {x}
  {
    x :| x in s;
    assert |s - {x}| == 0;
  }

  lemma PodaPassesIff(s: Store, r: Registry, lane: LaneId, h: DpHash, poda: AggregateSignature)
    requires (lane, h) in s.metadata && HasPoda(r, s.metadata[(lane, h)])
    requires var md := s.metadata[(lane, h)]; Aggregate(BondedVotes(r, md), DataVoteBytes(h, md.cumulSize)) == Some(poda)
    ensures Power(r, poda.validators) >= F(r) + 1
    ensures VerifyAggregate(DataVoteBytes(h, s.metadata[(lane, h)].cumulSize), poda) <==> VotesSound(s, r, lane, h)
  {
    var votes := BondedVotes(r, s.metadata[(lane, h)]);
    assert poda.validators == Validators(votes);
    if |votes| == 1 {
      var v := Singleton(votes);
      assert poda == AggregateSignature({v.signature}, {v.validator});
    } else {
      assert forall v: DataVote :: votes != {v};
      Aggregation.BalancedVerifies(votes, DataVoteBytes(h, s.metadata[(lane, h)].cumulSize));
    }
  }

  /** The entry is the committed one again, or recorded as larger. */
  predicate Advances(previous: Option<CutEntry>, e: CutEntry) {
    IsCommitted(previous, e.dp) || (previous.Some? ==> previous.value.cumulSize < e.cumulSize)
  }

  ghost predicate Acceptable(s: Store, r: Registry, previousCut: Cut, e: CutEntry) {
    IsKnown(r, e.lane) && EntrySound(s, r, previousCut, e) && Advances(FindLane(previousCut, e.lane), e)
  }

  /**
    Whatever the storage looks like, followers accept what a lane offers exactly when its lane is
    registered, no forged vote stands alone for it, and the previous cut recorded less, unless it
    has the same hash.
   */
  lemma EntryAcceptedIff(s: Store, r: Registry, previousCut: Cut, lane: LaneId, e: CutEntry)
    requires EntryFor(s, r, previousCut, lane) == Some(e)
    ensures e.lane == lane
    ensures Round.VerifyPodaEntry(r, previousCut, e) <==> Acceptable(s, r, previousCut, e)
  {
    var previous := FindLane(previousCut, lane);
    if LatestCar(s, lane, r, previous).Some? {
      var tip := s.tips[lane].hash;
      var n := WalkFindsNewest(s, lane, r, previous, tip);
      var at := DpAncestor(tip, n);
      if !IsCommitted(previous, at.value) {
        PodaPassesIff(s, r, lane, at.value, e.poda);
      }
    }
  }

  /** The previous entry again, or a larger one that f + 1 vouch for. */
  predicate SameOrLarger(r: Registry, previous: Option<CutEntry>, e: CutEntry) {
    || (previous.Some? && previous.value.dp == e.dp)
    || ((previous.Some? ==> e.cumulSize > previous.value.cumulSize) && Power(r, e.poda.validators) >= F(r) + 1)
  }

  /**
    Over a lane without holes, the previous entry is on the line of what the lane offers; and if its
    size was not exaggerated, that is the previous entry again or a larger, certified one.
   */
  lemma EntryNeverMovesBack(s: Store, r: Registry, previousCut: Cut, lane: LaneId, e: CutEntry)
    requires EntryFor(s, r, previousCut, lane) == Some(e) && ContinuesPrevious(s, previousCut, lane)
    ensures FindLane(previousCut, lane).Some? ==> FindLane(previousCut, lane).value.dp in Line(e.dp)
    ensures RecordedAtMost(s, previousCut, lane) ==>
            SameOrLarger(r, FindLane(previousCut, lane), e) && Advances(FindLane(previousCut, lane), e)
  {
    var previous := FindLane(previousCut, lane);
    if LatestCar(s, lane, r, previous).Some? && !IsCommitted(previous, e.dp) {
      var n := WalkFindsNewest(s, lane, r, previous, s.tips[lane].hash);
      PodaPassesIff(s, r, lane, e.dp, e.poda);
      if previous.Some? {
        NewestIsLarger(s, r, lane, previous.value, n);
      }
    } else if previous.Some? {
      assert DpAncestor(e.dp, 0) == Some(e.dp);
      AncestorInLine(e.dp, 0);
    }
  }

  /** An entry found before the committed one is larger than it is stored, and descends from it. */
  lemma NewestIsLarger(s: Store, r: Registry, lane: LaneId, previous: CutEntry, n: nat)
    requires lane in s.tips && exists m :: Continues(s, lane, previous, m)
    requires PassedOver(s, lane, r, Some(previous), s.tips[lane].hash, n)
    requires Stored(s, lane, DpAncestor(s.tips[lane].hash, n)) && DpAncestor(s.tips[lane].hash, n) != Some(previous.dp)
    ensures var at := DpAncestor(s.tips[lane].hash, n);
            SizeAt(s, lane, at) > SizeAt(s, lane, Some(previous.dp)) && previous.dp in Line(at.value)
  {
    var tip := s.tips[lane].hash;
    var m: nat :| Continues(s, lane, previous, m);
    assert IsCommitted(Some(previous), DpAncestor(tip, m).value);
    assert n < m;
    assert SizeAt(s, lane, DpAncestor(tip, n)) > SizeAt(s, lane, DpAncestor(tip, m));
    AncestorSplits(tip, n, m - n);
    AncestorInLine(DpAncestor(tip, n).value, m - n);
  }

  lemma NewCutKeepsLaneIff(s: Store, r: Registry, previousCut: Cut, lane: LaneId)
    requires FindLane(previousCut, lane).Some?
    ensures FindLane(NewCut(s, r, previousCut), lane).Some? <==> lane in s.tips
  {
    var cut := NewCut(s, r, previousCut);
    if lane in s.tips {
      var e := EntryFor(s, r, previousCut, lane).value;
      NewCutEntries(s, r, previousCut, e);
      var k :| 0 <= k < |cut| && cut[k] == e;
    } else if FindLane(cut, lane).Some? {
      NewCutEntries(s, r, previousCut, FindLane(cut, lane).value);
    }
  }

  /**
    Followers with the same staking and previous cut accept a leader's cut, over any storage, exactly
    when the leader has a tip for every previous lane and each entry is acceptable.
   */
  lemma NewCutAcceptedIff(s: Store, r: Registry, previousCut: Cut)
    ensures var cut := NewCut(s, r, previousCut);
            Round.VerifyPoda(r, previousCut, cut) <==>
              && (forall i :: 0 <= i < |previousCut| ==> previousCut[i].lane in s.tips)
              && (forall i :: 0 <= i < |cut| ==> Acceptable(s, r, previousCut, cut[i]))
  {
    var cut := NewCut(s, r, previousCut);
    forall i | 0 <= i < |previousCut|
      ensures FindLane(cut, previousCut[i].lane).Some? <==> previousCut[i].lane in s.tips
    {
      NewCutKeepsLaneIff(s, r, previousCut, previousCut[i].lane);
    }
    forall i | 0 <= i < |cut|
      ensures Round.VerifyPodaEntry(r, previousCut, cut[i]) <==> Acceptable(s, r, previousCut, cut[i])
    {
      NewCutEntries(s, r, previousCut, cut[i]);
      EntryAcceptedIff(s, r, previousCut, cut[i].lane, cut[i]);
    }
  }

  /** A storage with a tip for every previous lane, no holes down to the previous cut, and sizes that were not exaggerated. */
  ghost predicate Upholds(s: Store, previousCut: Cut) {
    && (forall i :: 0 <= i < |previousCut| ==> previousCut[i].lane in s.tips)
    && (forall lane :: lane in s.tips ==> ContinuesPrevious(s, previousCut, lane) && RecordedAtMost(s, previousCut, lane))
  }

  /** Over such a storage only unregistered lanes and lone forged votes are refused, and the next cut exaggerates nothing either. */
  lemma UpheldCutAcceptedIff(s: Store, r: Registry, previousCut: Cut)
    requires Upholds(s, previousCut)
    ensures var cut := NewCut(s, r, previousCut);
            && (Round.VerifyPoda(r, previousCut, cut) <==>
                forall i :: 0 <= i < |cut| ==> IsKnown(r, cut[i].lane) && EntrySound(s, r, previousCut, cut[i]))
            && forall lane :: RecordedAtMost(s, cut, lane)
  {
    var cut := NewCut(s, r, previousCut);
    NewCutAcceptedIff(s, r, previousCut);
    forall i | 0 <= i < |cut| ensures Advances(FindLane(previousCut, cut[i].lane), cut[i]) {
      NewCutEntries(s, r, previousCut, cut[i]);
      EntryNeverMovesBack(s, r, previousCut, cut[i].lane, cut[i]);
    }
    forall lane ensures RecordedAtMost(s, cut, lane) {
      NewCutRecords(s, r, previousCut, lane);
    }
  }

  lemma NewCutRecords(s: Store, r: Registry, previousCut: Cut, lane: LaneId)
    requires lane in s.tips ==> RecordedAtMost(s, previousCut, lane)
    ensures RecordedAtMost(s, NewCut(s, r, previousCut), lane)
  {
    var entry, previous := FindLane(NewCut(s, r, previousCut), lane), FindLane(previousCut, lane);
    if entry.Some? {
      NewCutEntries(s, r, previousCut, entry.value);
      if LatestCar(s, lane, r, previous).Some? {
        var n := WalkFindsNewest(s, lane, r, previous, s.tips[lane].hash);
      }
    }
  }

  //  Sizes that nobody checks

  /** Once its hash is the committed one, an entry is accepted with any size and any proof. */
  lemma RepeatedHashAcceptedIff(r: Registry, parentCut: Cut, e: CutEntry)
    requires IsCommitted(FindLane(parentCut, e.lane), e.dp)
    ensures Round.VerifyPodaEntry(r, parentCut, e) <==> IsKnown(r, e.lane)
  {}

  lemma {:induction false} WalkIgnoresSize(s: Store, lane: LaneId, r: Registry, p: CutEntry, size: nat, h: DpHash)
    ensures WalkToCar(s, lane, r, Some(p.(cumulSize := size)), h) == WalkToCar(s, lane, r, Some(p), h)
    decreases h
  {
    if (lane, h) in s.metadata && s.metadata[(lane, h)].parent.Some? {
      WalkIgnoresSize(s, lane, r, p, size, s.metadata[(lane, h)].parent.value);
    }
  }

  /**
    So a lane can be held up: a cut that repeats its entry with an exaggerated size is accepted, and
    then the entry that would have been accepted next is still offered and refused.
   */
  lemma ExaggeratedSizeStalls(s: Store, r: Registry, p: CutEntry, e: CutEntry, size: nat)
    requires EntryFor(s, r, [p], p.lane) == Some(e) && e.dp != p.dp && Round.VerifyPodaEntry(r, [p], e)
    requires size >= e.cumulSize
    ensures var exaggerated := [p.(cumulSize := size)];
            && Round.VerifyPoda(r, [p], exaggerated)
            && EntryFor(s, r, exaggerated, p.lane) == Some(e) && e in NewCut(s, r, exaggerated)
            && !Round.VerifyPodaEntry(r, exaggerated, e) && !Round.VerifyPoda(r, exaggerated, NewCut(s, r, exaggerated))
  {
    var exaggerated := [p.(cumulSize := size)];
    assert FindLane([p], p.lane) == Some(p) && FindLane(exaggerated, p.lane) == Some(exaggerated[0]);
    EntryAcceptedIff(s, r, [p], p.lane, e);
    WalkIgnoresSize(s, p.lane, r, p, size, s.tips[p.lane].hash);
    NewCutEntries(s, r, exaggerated, e);
    var cut := NewCut(s, r, exaggerated);
    var k :| 0 <= k < |cut| && cut[k] == e;
    assert !Round.VerifyPodaEntry(r, exaggerated, cut[k]);
  }

  //  Lanes that were only ever stored to

  lemma {:induction false} ChainDescends(s: Store, lane: LaneId, h: DpHash, size: nat, p: DpHash) returns (n: nat)
    requires SizesAddUp(s, lane, h, size) && p in Line(h)
    requires forall k :: k in s.data ==> EstimateSize(s.data[k]) > 0
    ensures DpAncestor(h, n) == Some(p)
    ensures forall k :: 0 <= k <= n ==> Stored(s, lane, DpAncestor(h, k))
    ensures forall k :: 0 <= k < n ==> SizeAt(s, lane, DpAncestor(h, k)) > SizeAt(s, lane, Some(p))
    decreases h
  {
    n := 0;
    assert DpAncestor(h, 0) == Some(h);
    if p != h {
      var own := EstimateSize(s.data[(lane, h)]);
      var m := ChainDescends(s, lane, h.parent.value, size - own, p);
      n := m + 1;
      assert DpAncestor(h.parent.value, 0) == h.parent;
      assert SizeAt(s, lane, h.parent) >= SizeAt(s, lane, Some(p));
      forall k | 0 < k <= n ensures DpAncestor(h, k) == DpAncestor(h.parent.value, k - 1) {}
    }
  }

  /** A lane that was only stored to, with non-empty data proposals, continues every entry of its line. */
  lemma SingleChainContinues(s: Store, lane: LaneId, previous: CutEntry)
    requires SingleChain(s, lane) && lane in s.tips && previous.dp in Line(s.tips[lane].hash)
    requires forall k :: k in s.data ==> EstimateSize(s.data[k]) > 0
    ensures exists n :: Continues(s, lane, previous, n)
  {
    var n := ChainDescends(s, lane, s.tips[lane].hash, s.tips[lane].size, previous.dp);
    assert Continues(s, lane, previous, n);
  }
}
