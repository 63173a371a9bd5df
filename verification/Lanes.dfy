/**
  Lanes of data proposals: hash-linked lists with a tip, as the persistent storage keeps them.
 */
module Lanes {
  import opened Model
  import opened Aggregation
  import opened Staking

  datatype Tx = Tx(hash: nat, size: nat)
  datatype DataProposal = DataProposal(parent: Option<DpHash>, txs: seq<Tx>)

  function DpHashOf(dp: DataProposal): DpHash {
    DpDigest(dp.parent, seq(|dp.txs|, i requires 0 <= i < |dp.txs| => dp.txs[i].hash))
  }

  function SumSizes(txs: seq<Tx>): nat {
    if txs == [] then 0 else txs[0].size + SumSizes(txs[1..])
  }

  function EstimateSize(dp: DataProposal): nat {
    SumSizes(dp.txs)
  }

  /** What a validator that stores a data proposal signs: its hash and the lane's size with it. */
  datatype LaneVote = LaneVote(dp: DpHash, cumulSize: nat)
  type DataVote = Signed<LaneVote>

  function LaneVoteBytes(v: LaneVote): Message {
    DataVoteBytes(v.dp, v.cumulSize)
  }

  datatype Metadata = Metadata(parent: Option<DpHash>, cumulSize: nat, signatures: seq<DataVote>)

  datatype Tip = Tip(hash: DpHash, size: nat)
  type Key = (LaneId, DpHash)

  datatype RawStore = RawStore(tips: map<LaneId, Tip>, metadata: map<Key, Metadata>, data: map<Key, DataProposal>)

  /** Entries are filed under their own hash and name the parent their hash names. */
  ghost predicate Linked(s: RawStore) {
    && (forall k :: k in s.metadata ==> k.1.DpDigest? && s.metadata[k].parent == k.1.parent)
    && (forall k :: k in s.data ==> DpHashOf(s.data[k]) == k.1)
  }

  type Store = s: RawStore | Linked(s) witness RawStore(map[], map[], map[])

  function TipHash(s: Store, lane: LaneId): Option<DpHash> {
    if lane in s.tips then Some(s.tips[lane].hash) else None
  }

  function TipSize(s: Store, lane: LaneId): nat {
    if lane in s.tips then s.tips[lane].size else 0
  }

  predicate Contains(s: Store, lane: LaneId, h: DpHash) {
    (lane, h) in s.metadata
  }

  function Put(s: Store, lane: LaneId, md: Metadata, dp: DataProposal): Store
    requires md.parent == dp.parent
  {
    var k := (lane, DpHashOf(dp));
    RawStore(s.tips, s.metadata[k := md], s.data[k := dp])
  }

  function SetTip(s: Store, lane: LaneId, h: DpHash, size: nat): Store {
    RawStore(s.tips[lane := Tip(h, size)], s.metadata, s.data)
  }

  function WithSignatures(s: Store, lane: LaneId, h: DpHash, signatures: seq<DataVote>): Store
    requires (lane, h) in s.metadata
  {
    RawStore(s.tips, s.metadata[(lane, h) := s.metadata[(lane, h)].(signatures := signatures)], s.data)
  }

  //  The newest certified entry

  /** The votes of an entry that come from bonded validators. */
  function BondedVotes(r: Registry, md: Metadata): set<DataVote> {
    set v | v in md.signatures && IsBonded(r, v.validator)
  }

  predicate HasPoda(r: Registry, md: Metadata) {
    Power(r, Validators(BondedVotes(r, md))) >= F(r) + 1
  }

  datatype Car = Car(dp: DpHash, cumulSize: nat, poda: AggregateSignature)

  function IsCommitted(previous: Option<CutEntry>, h: DpHash): bool {
    previous.Some? && previous.value.dp == h
  }

  function CarAt(r: Registry, previous: Option<CutEntry>, h: DpHash, md: Metadata): Option<Car> {
    if IsCommitted(previous, h) then Some(Car(h, md.cumulSize, previous.value.poda))
    else
      match Aggregate(BondedVotes(r, md), DataVoteBytes(h, md.cumulSize))
      case None => None
      case Some(poda) => Some(Car(h, md.cumulSize, poda))
  }

  /** One vote is taken as it is; among more, the forged ones have to make up for each other. */
  predicate Aggregates(votes: set<DataVote>, bytes: Message) {
    votes != {} && (|votes| == 1 || Balanced(Forged(votes, bytes), bytes))
  }

  lemma CarIffAggregates(r: Registry, previous: Option<CutEntry>, h: DpHash, md: Metadata)
    ensures CarAt(r, previous, h, md).Some? <==>
            IsCommitted(previous, h) || Aggregates(BondedVotes(r, md), DataVoteBytes(h, md.cumulSize))
  {
    ForgedDecide(BondedVotes(r, md), DataVoteBytes(h, md.cumulSize));
  }

  function WalkToCar(s: Store, lane: LaneId, r: Registry, previous: Option<CutEntry>, h: DpHash): Option<Car>
    decreases h
  {
    if (lane, h) !in s.metadata then None
    else
      var md := s.metadata[(lane, h)];
      if IsCommitted(previous, h) || HasPoda(r, md) then CarAt(r, previous, h, md)
      else if md.parent.None? then None
      else WalkToCar(s, lane, r, previous, md.parent.value)
  }

  function LatestCar(s: Store, lane: LaneId, r: Registry, previous: Option<CutEntry>): Option<Car> {
    match TipHash(s, lane)
    case None => None
    case Some(tip) => WalkToCar(s, lane, r, previous, tip)
  }

  //  Ancestors

  /** The `n`-th ancestor of a data proposal, as its hash tells. */
  function DpAncestor(h: DpHash, n: nat): Option<DpHash> {
    if n == 0 then Some(h)
    else if h.DpName? || h.parent.None? then None
    else DpAncestor(h.parent.value, n - 1)
  }

  predicate Stored(s: Store, lane: LaneId, h: Option<DpHash>) {
    h.Some? && (lane, h.value) in s.metadata
  }

  predicate Stops(s: Store, lane: LaneId, r: Registry, previous: Option<CutEntry>, h: DpHash)
    requires (lane, h) in s.metadata
  {
    IsCommitted(previous, h) || HasPoda(r, s.metadata[(lane, h)])
  }

  /** Everything nearer to `h` than its `n`-th ancestor is stored, uncertified and not the committed entry. */
  ghost predicate PassedOver(s: Store, lane: LaneId, r: Registry, previous: Option<CutEntry>, h: DpHash, n: nat) {
    forall k {:trigger DpAncestor(h, k)} :: 0 <= k < n ==>
      Stored(s, lane, DpAncestor(h, k)) && !Stops(s, lane, r, previous, DpAncestor(h, k).value)
  }

  /**
    The walk ends at the newest ancestor of the tip that is the committed one or holds f + 1, and
    takes it, unless its votes do not aggregate; otherwise it ran into a missing entry or past the
    lane's first one.
   */
  lemma {:induction false} WalkFindsNewest(s: Store, lane: LaneId, r: Registry, previous: Option<CutEntry>, h: DpHash) returns (n: nat)
    ensures PassedOver(s, lane, r, previous, h, n)
    ensures var at := DpAncestor(h, n);
            if Stored(s, lane, at) then
              var md := s.metadata[(lane, at.value)];
              && Stops(s, lane, r, previous, at.value)
              && WalkToCar(s, lane, r, previous, h) == CarAt(r, previous, at.value, md)
              && (WalkToCar(s, lane, r, previous, h).Some? <==>
                    IsCommitted(previous, at.value) || Aggregates(BondedVotes(r, md), DataVoteBytes(at.value, md.cumulSize)))
            else WalkToCar(s, lane, r, previous, h).None?
    decreases h
  {
    n := 0;
    if (lane, h) in s.metadata {
      CarIffAggregates(r, previous, h, s.metadata[(lane, h)]);
    }
    if (lane, h) in s.metadata && !Stops(s, lane, r, previous, h) {
      var md := s.metadata[(lane, h)];
      if md.parent.None? {
        n := 1;
      } else {
        var m := WalkFindsNewest(s, lane, r, previous, h.parent.value);
        n := m + 1;
        forall k | 0 < k <= n ensures DpAncestor(h, k) == DpAncestor(h.parent.value, k - 1) {}
      }
    }
  }

  //  Storing

  /** Grows the lane by one entry, or fills in the entry a commit has already made the tip. */
  function StoreDp(s: Store, me: Pubkey, lane: LaneId, dp: DataProposal): (Store, Option<Tip>) {
    var h := DpHashOf(dp);
    if Contains(s, lane, h) then (s, None)
    else if dp.parent == TipHash(s, lane) then
      var size := TipSize(s, lane) + EstimateSize(dp);
      (SetTip(Put(s, lane, OwnEntry(me, dp, size), dp), lane, h, size), Some(Tip(h, size)))
    else if TipHash(s, lane) == Some(h) then
      var size := TipSize(s, lane);
      (Put(s, lane, OwnEntry(me, dp, size), dp), Some(Tip(h, size)))
    else (s, None)
  }

  function SignLaneVote(me: Pubkey, v: LaneVote): DataVote {
    Signed(v, Share(me, LaneVoteBytes(v)), me)
  }

  function OwnEntry(me: Pubkey, dp: DataProposal, size: nat): Metadata {
    Metadata(dp.parent, size, [SignLaneVote(me, LaneVote(DpHashOf(dp), size))])
  }

  function StoreAll(s: Store, me: Pubkey, lane: LaneId, dps: seq<DataProposal>): Store
    decreases |dps|
  {
    if dps == [] then s else StoreAll(StoreDp(s, me, lane, dps[0]).0, me, lane, dps[1..])
  }

  /** The ancestors of `h`, oldest first, and `h` itself. */
  function Line(h: DpHash): seq<DpHash> {
    if h.DpDigest? && h.parent.Some? then Line(h.parent.value) + [h] else [h]
  }

  /** The whole line of `h` is stored, with sizes that add up along it. */
  ghost predicate SizesAddUp(s: Store, lane: LaneId, h: DpHash, size: nat) {
    && (lane, h) in s.metadata && (lane, h) in s.data
    && s.metadata[(lane, h)].cumulSize == size
    && var own := EstimateSize(s.data[(lane, h)]);
       if h.parent.None? then size == own
       else size >= own && SizesAddUp(s, lane, h.parent.value, size - own)
  }

  /** A lane is one parent chain from its tip to its root and nothing else. */
  ghost predicate SingleChain(s: Store, lane: LaneId) {
    match TipHash(s, lane)
    case None => forall k: DpHash :: (lane, k) !in s.metadata && (lane, k) !in s.data
    case Some(tip) =>
      && SizesAddUp(s, lane, tip, TipSize(s, lane))
      && forall k: DpHash :: ((lane, k) in s.metadata <==> k in Line(tip)) && ((lane, k) in s.data <==> k in Line(tip))
  }

  lemma {:induction false} SizesKept(s: Store, s': Store, lane: LaneId, h: DpHash, size: nat)
    requires SizesAddUp(s, lane, h, size)
    requires forall k :: k in s.metadata ==> k in s'.metadata && s'.metadata[k] == s.metadata[k]
    requires forall k :: k in s.data ==> k in s'.data && s'.data[k] == s.data[k]
    ensures SizesAddUp(s', lane, h, size)
    decreases h
  {
    var own := EstimateSize(s.data[(lane, h)]);
    if h.parent.Some? {
      SizesKept(s, s', lane, h.parent.value, size - own);
    }
  }

  /** On a single chain, storing succeeds exactly on a new child of the tip, and leaves a single chain. */
  lemma StoreKeepsSingleChain(s: Store, me: Pubkey, lane: LaneId, dp: DataProposal)
    requires SingleChain(s, lane)
    ensures var (s', stored) := StoreDp(s, me, lane, dp);
            && SingleChain(s', lane)
            && (stored.Some? <==> dp.parent == TipHash(s, lane) && !Contains(s, lane, DpHashOf(dp)))
            && (stored.Some? ==> TipHash(s', lane) == Some(DpHashOf(dp)))
            && (stored.None? ==> s' == s)
  {
    var h := DpHashOf(dp);
    var (s', stored) := StoreDp(s, me, lane, dp);
    if stored.Some? && dp.parent == TipHash(s, lane) {
      assert (lane, h) !in s.metadata && (lane, h) !in s.data;
      if dp.parent.Some? {
        SizesKept(s, s', lane, dp.parent.value, TipSize(s, lane));
        assert Line(h) == Line(dp.parent.value) + [h];
      }
      assert SizesAddUp(s', lane, h, TipSize(s, lane) + EstimateSize(dp));
    }
  }

  /** Whatever is stored, in whatever order, a lane that starts empty stays a single chain. */
  lemma {:induction false} LanesAreSingleChains(s: Store, me: Pubkey, lane: LaneId, dps: seq<DataProposal>)
    requires SingleChain(s, lane)
    ensures SingleChain(StoreAll(s, me, lane, dps), lane)
    decreases |dps|
  {
    if dps != [] {
      StoreKeepsSingleChain(s, me, lane, dps[0]);
      LanesAreSingleChains(StoreDp(s, me, lane, dps[0]).0, me, lane, dps[1..]);
    }
  }

  //  Popping and cleaning

  datatype Popped = Entry(hash: DpHash, metadata: Metadata, dp: DataProposal) | Nothing | Broken

  /** Removes the tip's entry, but the tip itself stays where it was. */
  function Pop(s: Store, lane: LaneId): (r: (Store, Popped))
    ensures r.1.Entry? ==> r.1.metadata.parent == r.1.dp.parent && |r.0.metadata| < |s.metadata|
  {
    if lane !in s.tips || (lane, s.tips[lane].hash) !in s.metadata then (s, Nothing)
    else
      var h := s.tips[lane].hash;
      var md := s.metadata[(lane, h)];
      var metadata := s.metadata - {(lane, h)};
      if (lane, h) !in s.data then (RawStore(s.tips, metadata, s.data), Broken)
      else
        assert s.metadata.Keys == metadata.Keys + {(lane, h)};
        var dp := s.data[(lane, h)];
        assert DpHashOf(dp) == h;
        (RawStore(s.tips[lane := Tip(h, md.cumulSize)], metadata, s.data - {(lane, h)}), Entry(h, md, dp))
  }

  function PopUntil(s: Store, lane: LaneId, previous: Option<DpHash>): (Store, bool)
    decreases |s.metadata|
  {
    match Pop(s, lane)
    case (s1, Nothing) => (s1, true)
    case (s1, Broken) => (s1, false)
    case (s1, Entry(h, md, dp)) =>
      if previous == Some(h) then (Put(s1, lane, md, dp), true) else PopUntil(s1, lane, previous)
  }

  function CleanAndUpdate(s: Store, lane: LaneId, previous: Option<DpHash>, h: DpHash, size: nat): (Store, bool) {
    var tip := TipHash(s, lane);
    var (s1, ok) := if tip != previous && tip != Some(h) then PopUntil(s, lane, previous) else (s, true);
    if ok then (SetTip(s1, lane, h, size), true) else (s1, false)
  }

  /** The one entry a clean-up takes out, if any: that of a tip the new cut does not continue. */
  function Discarded(s: Store, lane: LaneId, previous: Option<DpHash>, h: DpHash): Option<Key> {
    var tip := TipHash(s, lane);
    if tip.None? || tip == previous || tip == Some(h) || (lane, tip.value) !in s.metadata then None
    else Some((lane, tip.value))
  }

  function Without(s: Store, key: Key): Store {
    RawStore(s.tips, s.metadata - {key}, s.data - {key})
  }

  /** After one entry the tip has none left, so the loop stops; it never gets to put an entry back. */
  lemma PopUntilPopsOnce(s: Store, lane: LaneId, previous: Option<DpHash>)
    requires TipHash(s, lane) != previous
    ensures PopUntil(s, lane, previous) == (Pop(s, lane).0, !Pop(s, lane).1.Broken?)
  {
    var (s1, popped) := Pop(s, lane);
    if popped.Entry? {
      assert Pop(s1, lane) == (s1, Nothing);
    }
  }

  lemma PopTakesOutTip(s: Store, lane: LaneId, h: DpHash, size: nat)
    requires lane in s.tips && (lane, s.tips[lane].hash) in s.metadata && (lane, s.tips[lane].hash) in s.data
    ensures Pop(s, lane).1.Entry?
    ensures SetTip(Pop(s, lane).0, lane, h, size) == SetTip(Without(s, (lane, s.tips[lane].hash)), lane, h, size)
  {
    assert Pop(s, lane).0.tips[lane := Tip(h, size)] == s.tips[lane := Tip(h, size)];
  }

  /**
    Cleaning sets the new tip and takes out at most the old tip's entry, so the previous cut's
    entry stays. It fails exactly when that entry's data is missing.
   */
  lemma CleanTakesOutOneEntry(s: Store, lane: LaneId, previous: Option<DpHash>, h: DpHash, size: nat)
    ensures var (s', ok) := CleanAndUpdate(s, lane, previous, h, size);
            match Discarded(s, lane, previous, h)
            case None => ok && s' == SetTip(s, lane, h, size)
            case Some(key) =>
              && (ok <==> key in s.data)
              && (ok ==> s' == SetTip(Without(s, key), lane, h, size))
              && s'.metadata == s.metadata - {key}
              && previous != Some(key.1)
  {
    if TipHash(s, lane) != previous && TipHash(s, lane) != Some(h) {
      PopUntilPopsOnce(s, lane, previous);
      if lane in s.tips && (lane, s.tips[lane].hash) in s.metadata && (lane, s.tips[lane].hash) in s.data {
        PopTakesOutTip(s, lane, h, size);
      }
    }
  }

  /** The documented purpose, to remove everything after the previous cut, is met exactly when that is at most one entry. */
  lemma CleanRemovesPendingIff(s: Store, lane: LaneId, previous: DpHash, h: DpHash, size: nat, n: nat)
    requires lane in s.tips && s.tips[lane].hash != h
    requires forall k :: 0 <= k < n ==> Stored(s, lane, DpAncestor(s.tips[lane].hash, k))
    requires DpAncestor(s.tips[lane].hash, n) == Some(previous)
    ensures var s' := CleanAndUpdate(s, lane, Some(previous), h, size).0;
            (forall k :: 0 <= k < n ==> !Stored(s', lane, DpAncestor(s.tips[lane].hash, k))) <==> n <= 1
  {
    var tip := s.tips[lane].hash;
    var s' := CleanAndUpdate(s, lane, Some(previous), h, size).0;
    CleanTakesOutOneEntry(s, lane, Some(previous), h, size);
    if n >= 1 {
      AncestorsDiffer(tip, n);
      assert DpAncestor(tip, 0) == Some(tip);
    }
    if n > 1 {
      AncestorsDiffer(tip, 1);
      assert Stored(s', lane, DpAncestor(tip, 1));
    }
  }

  lemma AncestorsDiffer(h: DpHash, n: nat)
    requires n > 0 && DpAncestor(h, n).Some?
    ensures DpAncestor(h, n) != Some(h)
  {
    AncestorShorter(h, n);
  }

  function Height(h: DpHash): nat {
    if h.DpDigest? && h.parent.Some? then 1 + Height(h.parent.value) else 0
  }

  lemma {:induction false} AncestorSplits(h: DpHash, n: nat, k: nat)
    requires DpAncestor(h, n).Some?
    ensures DpAncestor(h, n + k) == DpAncestor(DpAncestor(h, n).value, k)
  {
    if n > 0 {
      AncestorSplits(h.parent.value, n - 1, k);
    }
  }

  lemma {:induction false} AncestorInLine(h: DpHash, n: nat)
    requires DpAncestor(h, n).Some?
    ensures DpAncestor(h, n).value in Line(h)
  {
    if n > 0 {
      AncestorInLine(h.parent.value, n - 1);
    }
  }

  lemma {:induction false} AncestorShorter(h: DpHash, n: nat)
    requires DpAncestor(h, n).Some?
    ensures Height(DpAncestor(h, n).value) + n == Height(h)
  {
    if n > 0 {
      AncestorShorter(h.parent.value, n - 1);
    }
  }
}
