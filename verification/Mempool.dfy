/**
  The mempool as the program runs it: a lane storage and a builder, updated in place. Every method
  is proved against the function of the same operation in `Lanes`, `Cuts` and `Blocks`.
 */
module MempoolNode {
  import opened Model
  import opened Staking
  import opened Lanes
  import opened Blocks
  import Round
  import Cuts
  import DataVotes

  class LanesStorage {
    var tips: map<LaneId, Tip>
    var metadata: map<Key, Metadata>
    var data: map<Key, DataProposal>

    ghost predicate Valid()
      reads this
    {
      Linked(RawStore(tips, metadata, data))
    }

    ghost function State(): Store
      requires Valid()
      reads this
    {
      RawStore(tips, metadata, data)
    }

    constructor ()
      ensures Valid() && State() == RawStore(map[], map[], map[])
      ensures forall lane :: SingleChain(State(), lane)
    {
      tips, metadata, data := map[], map[], map[];
    }

    /** Walks from the tip towards the root until an entry is the committed one or certified. */
    method GetLatestCar(lane: LaneId, r: Registry, previous: Option<CutEntry>) returns (car: Option<Car>)
      requires Valid()
      ensures car == LatestCar(State(), lane, r, previous)
    {
      if lane !in tips {
        return None;
      }
      var h := tips[lane].hash;
      while (lane, h) in metadata
        invariant WalkToCar(State(), lane, r, previous, h) == LatestCar(State(), lane, r, previous)
        decreases h
      {
        var md := metadata[(lane, h)];
        if previous.Some? && previous.value.dp == h {
          return Some(Car(h, md.cumulSize, previous.value.poda));
        }
        var votes := BondedVotes(r, md);
        if Power(r, Validators(votes)) < F(r) + 1 {
          if md.parent.None? {
            return None;
          }
          h := md.parent.value;
          continue;
        }
        var poda := Aggregate(votes, DataVoteBytes(h, md.cumulSize));
        if poda.None? {
          return None;
        }
        return Some(Car(h, md.cumulSize, poda.value));
      }
      car := None;
    }

    /** Files any entry; the storage stays linked exactly when the entry names the parent its data names. */
    method PutNoVerification(lane: LaneId, md: Metadata, dp: DataProposal)
      modifies this
      ensures var k := (lane, DpHashOf(dp));
              tips == old(tips) && metadata == old(metadata)[k := md] && data == old(data)[k := dp]
      ensures old(Valid()) ==> (Valid() <==> md.parent == dp.parent)
      ensures old(Valid()) && md.parent == dp.parent ==> State() == Put(old(State()), lane, md, dp)
    {
      ghost var linked := Valid() && md.parent == dp.parent;
      ghost var target := if linked then Put(State(), lane, md, dp) else RawStore(map[], map[], map[]);
      metadata := metadata[(lane, DpHashOf(dp)) := md];
      data := data[(lane, DpHashOf(dp)) := dp];
      if linked {
        assert RawStore(tips, metadata, data) == target;
      } else {
        assert metadata[(lane, DpHashOf(dp))] == md;
      }
    }

    method UpdateLaneTip(lane: LaneId, h: DpHash, size: nat)
      requires Valid()
      modifies this
      ensures Valid() && State() == SetTip(old(State()), lane, h, size)
    {
      tips := tips[lane := Tip(h, size)];
    }

    /** A new child of the tip becomes the tip; the tip itself may still be filled in. */
    method StoreDataProposal(me: Pubkey, lane: LaneId, dp: DataProposal) returns (stored: Option<Tip>)
      requires Valid()
      modifies this
      ensures Valid() && (State(), stored) == StoreDp(old(State()), me, lane, dp)
      ensures old(SingleChain(State(), lane)) ==> SingleChain(State(), lane)
    {
      StoreKeepsChain(State(), me, lane, dp);
      var h := DpHashOf(dp);
      if (lane, h) in metadata {
        return None;
      }
      var tip := if lane in tips then Some(tips[lane].hash) else None;
      var laneSize := if lane in tips then tips[lane].size else 0;
      if dp.parent == tip {
        var size := laneSize + EstimateSize(dp);
        PutNoVerification(lane, OwnEntry(me, dp, size), dp);
        UpdateLaneTip(lane, h, size);
        stored := Some(Tip(h, size));
      } else if tip == Some(h) {
        PutNoVerification(lane, OwnEntry(me, dp, laneSize), dp);
        stored := Some(Tip(h, laneSize));
      } else {
        stored := None;
      }
    }

    method Pop(lane: LaneId) returns (popped: Popped)
      requires Valid()
      modifies this
      ensures Valid() && (State(), popped) == Lanes.Pop(old(State()), lane)
    {
      if lane !in tips || (lane, tips[lane].hash) !in metadata {
        return Nothing;
      }
      var h := tips[lane].hash;
      var md := metadata[(lane, h)];
      metadata := metadata - {(lane, h)};
      if (lane, h) !in data {
        return Broken;
      }
      var dp := data[(lane, h)];
      data := data - {(lane, h)};
      UpdateLaneTip(lane, h, md.cumulSize);
      popped := Entry(h, md, dp);
    }

    method CleanAndUpdateLane(lane: LaneId, previous: Option<DpHash>, h: DpHash, size: nat) returns (ok: bool)
      requires Valid()
      modifies this
      ensures Valid() && (State(), ok) == CleanAndUpdate(old(State()), lane, previous, h, size)
    {
      var tip := if lane in tips then Some(tips[lane].hash) else None;
      if tip != previous && tip != Some(h) {
        ghost var target := PopUntil(State(), lane, previous);
        while true
          invariant Valid() && PopUntil(State(), lane, previous) == target
          decreases |metadata|
        {
          ghost var before := State();
          var popped := Pop(lane);
          match popped {
            case Nothing => break;
            case Broken => return false;
            case Entry(popHash, md, dp) =>
              if previous == Some(popHash) {
                PutNoVerification(lane, md, dp);
                break;
              }
          }
        }
        assert (State(), true) == target;
      }
      UpdateLaneTip(lane, h, size);
      ok := true;
    }

    /**
      Adds the votes about this entry to its list; an unknown entry is an error. Votes already there
      stay, and a list that is in place, as every list is that was only added to, stays in place.
     */
    method AddSignatures(order: DataVotes.Order, lane: LaneId, h: DpHash, votes: seq<DataVote>) returns (r: Option<seq<DataVote>>)
      requires Valid()
      modifies this`metadata
      ensures Valid()
      ensures (lane, h) !in old(metadata) ==> r == None && metadata == old(metadata)
      ensures (lane, h) in old(metadata) ==>
        var md := old(metadata)[(lane, h)];
        var entry := LaneVote(h, md.cumulSize);
        && r.Some? && metadata == old(metadata)[(lane, h) := md.(signatures := r.value)]
        && DataVotes.SetOf(md.signatures) <= DataVotes.SetOf(r.value) <= DataVotes.SetOf(md.signatures) + DataVotes.Relevant(entry, votes)
        && (DataVotes.Injective(order) && DataVotes.InPlace(order, h, md) ==>
              && r.value == DataVotes.InsertAll(order, entry, md.signatures, votes)
              && DataVotes.InPlace(order, h, metadata[(lane, h)]))
    {
      if (lane, h) !in metadata {
        return None;
      }
      var md := metadata[(lane, h)];
      var signatures := DataVotes.AddVotes(order, LaneVote(h, md.cumulSize), md.signatures, votes);
      ghost var target := WithSignatures(State(), lane, h, signatures);
      metadata := metadata[(lane, h) := md.(signatures := signatures)];
      assert RawStore(tips, metadata, data) == target;
      r := Some(signatures);
    }

    /** Walks from `h` down to `from`, inserting at the front; the first missing piece ends the walk. */
    method GetEntriesBetweenHashes(lane: LaneId, from: Option<DpHash>, h: DpHash) returns (r: Segment)
      requires Valid()
      ensures r == SegmentOf(State(), lane, from, h)
    {
      var dps := [];
      var at := h;
      while from != Some(at)
        invariant SegmentOf(State(), lane, from, h) == Onto(SegmentOf(State(), lane, from, at), dps)
        decreases at
      {
        if (lane, at) !in metadata || (lane, at) !in data {
          return Missing(at);
        }
        ghost var below := dps;
        dps := [data[(lane, at)]] + dps;
        var md := metadata[(lane, at)];
        if md.parent.None? {
          return Complete(dps);
        }
        OntoStep(State(), lane, from, at, below);
        at := md.parent.value;
      }
      assert [] + dps == dps;
      r := Complete(dps);
    }
  }

  lemma StoreKeepsChain(s: Store, me: Pubkey, lane: LaneId, dp: DataProposal)
    ensures SingleChain(s, lane) ==> SingleChain(StoreDp(s, me, lane, dp).0, lane)
  {
    if SingleChain(s, lane) {
      StoreKeepsSingleChain(s, me, lane, dp);
    }
  }

  function Onto(below: Segment, above: seq<DataProposal>): Segment {
    match below
    case Missing(m) => Missing(m)
    case Complete(dps) => Complete(dps + above)
  }

  lemma OntoStep(s: Store, lane: LaneId, from: Option<DpHash>, h: DpHash, above: seq<DataProposal>)
    requires from != Some(h) && (lane, h) in s.metadata && (lane, h) in s.data && s.metadata[(lane, h)].parent.Some?
    ensures Onto(SegmentOf(s, lane, from, h), above) ==
            Onto(SegmentOf(s, lane, from, s.metadata[(lane, h)].parent.value), [s.data[(lane, h)]] + above)
  {
    var below := SegmentOf(s, lane, from, s.metadata[(lane, h)].parent.value);
    if below.Complete? {
      assert below.dps + [s.data[(lane, h)]] + above == below.dps + ([s.data[(lane, h)]] + above);
    }
  }

  class Mempool {
    const lanes: LanesStorage
    var staking: Registry
    var lastCcp: Option<Round.Committed>
    var queue: seq<Buc>
    var startHeight: Option<Slot>
    var built: seq<Built>
    var syncs: seq<SyncRequest>
    ghost var created: seq<Buc>

    ghost function State(): Builder
      reads this
    {
      Builder(lastCcp, queue, startHeight, built, syncs, created)
    }

    constructor (lanes: LanesStorage, staking: Registry)
      ensures this.lanes == lanes && this.staking == staking && State() == EMPTY_BUILDER
    {
      this.lanes, this.staking := lanes, staking;
      lastCcp, queue, startHeight, built, syncs, created := None, [], None, [], [], [];
    }

    /** The newest certified entry of a lane, or else what the previous cut had. */
    method LatestEntry(r: Registry, previousCut: Cut, lane: LaneId) returns (e: Option<CutEntry>)
      requires lanes.Valid()
      ensures e == Cuts.EntryFor(lanes.State(), r, previousCut, lane)
    {
      var previous := FindLane(previousCut, lane);
      var car := lanes.GetLatestCar(lane, r, previous);
      e := if car.Some? then Some(CutEntry(lane, car.value.dp, car.value.cumulSize, car.value.poda)) else previous;
    }

    /** One entry for each lane that has one, in the order of the lanes. */
    method CutOver(r: Registry, previousCut: Cut, ids: seq<LaneId>) returns (cut: Cut)
      requires lanes.Valid()
      ensures cut == Cuts.CutOver(lanes.State(), r, previousCut, ids)
    {
      cut := [];
      ghost var s := lanes.State();
      ghost var whole := Cuts.CutOver(s, r, previousCut, ids);
      var i := 0;
      while i < |ids|
        invariant 0 <= i <= |ids|
        invariant whole == cut + Cuts.CutOver(s, r, previousCut, ids[i..])
      {
        var e := LatestEntry(r, previousCut, ids[i]);
        CutOverStep(s, r, previousCut, ids, i, cut);
        if e.Some? {
          cut := cut + [e.value];
        }
        i := i + 1;
      }
      assert cut + [] == cut;
    }

    method HandleQueryNewCut(r: Registry) returns (cut: Cut)
      requires lanes.Valid()
      ensures cut == Cuts.NewCut(lanes.State(), r, if lastCcp.Some? then lastCcp.value.proposal.cut else [])
    {
      var previousCut := if lastCcp.Some? then lastCcp.value.proposal.cut else [];
      cut := CutOver(r, previousCut, Cuts.Ascending(lanes.tips.Keys));
    }

    /** Gathers the data of a block lane by lane, and asks for the first piece that is missing. */
    method TryGetFullData(buc: Buc) returns (r: Option<BlockData>)
      requires lanes.Valid()
      modifies this`syncs
      ensures var all := DataOf(lanes.State(), buc.from, buc.ccp.proposal.cut);
              match all
              case Gathered(data) => r == Some(data) && syncs == old(syncs)
              case Lacking(lane, from, missing) => r == None && syncs == old(syncs) + [SyncRequest(lane, from, missing)]
    {
      var cut := buc.ccp.proposal.cut;
      var result := [];
      var i := 0;
      while i < |cut|
        invariant 0 <= i <= |cut| && syncs == old(syncs)
        invariant DataOf(lanes.State(), buc.from, cut) == After(result, DataOf(lanes.State(), buc.from, cut[i..]))
      {
        var e := cut[i];
        var from := FromHash(buc.from, e.lane);
        var segment := lanes.GetEntriesBetweenHashes(e.lane, from, e.dp);
        if segment.Missing? {
          syncs := syncs + [SyncRequest(e.lane, from, segment.hash)];
          return None;
        }
        assert cut[i..][1..] == cut[i + 1..];
        AfterStep(result, (e.lane, segment.dps), DataOf(lanes.State(), buc.from, cut[i + 1..]));
        result := result + [(e.lane, segment.dps)];
        i := i + 1;
      }
      assert result + [] == result;
      r := Some(result);
    }

    /** Goes once through the queue: what can be built is sent, what cannot goes to the back. */
    method TryToSendFullSignedBlocks()
      requires lanes.Valid()
      modifies this`queue, this`built, this`syncs
      ensures State() == SendPass(lanes.State(), old(State()))
    {
      var n: nat := |queue|;
      while n > 0
        invariant SendSome(lanes.State(), State(), n) == SendPass(lanes.State(), old(State()))
      {
        if queue != [] {
          var buc := queue[0];
          queue := queue[1..];
          var data := TryGetFullData(buc);
          if data.Some? {
            built := built + [Built(buc, data.value)];
          } else {
            queue := queue + [buc];
          }
        }
        n := n - 1;
      }
    }

    method SetBuildStartHeight(slot: Slot)
      modifies this`startHeight
      ensures startHeight == if old(startHeight).None? then Some(slot) else old(startHeight)
    {
      if startHeight.None? {
        startHeight := Some(slot);
      }
    }

    method TryCreateBlockUnderConstruction(ccp: Round.Committed)
      modifies this`lastCcp, this`startHeight, this`queue, this`created
      ensures State() == CreateBuc(old(State()), ccp)
    {
      if lastCcp.Some? {
        var last := lastCcp.value;
        if last.proposal.slot >= ccp.proposal.slot {
          return;
        }
        lastCcp := Some(ccp);
        if last.proposal.slot == ccp.proposal.slot - 1 {
          SetBuildStartHeight(ccp.proposal.slot);
          queue := queue + [Buc(Some(last.proposal.cut), ccp)];
          created := created + [Buc(Some(last.proposal.cut), ccp)];
        }
      } else {
        lastCcp := Some(ccp);
        if ccp.proposal.slot == 1 {
          SetBuildStartHeight(ccp.proposal.slot);
          queue := queue + [Buc(None, ccp)];
          created := created + [Buc(None, ccp)];
        }
      }
    }

    method CleanAndUpdateLanes(cut: Cut, previousCut: Option<Cut>) returns (ok: bool)
      requires lanes.Valid()
      modifies this`syncs, lanes
      ensures lanes.Valid()
      ensures Cleaned(lanes.State(), syncs, ok) == CleanLanes(old(lanes.State()), old(syncs), previousCut, cut)
    {
      var i := 0;
      while i < |cut|
        invariant 0 <= i <= |cut| && lanes.Valid()
        invariant CleanLanes(lanes.State(), syncs, previousCut, cut[i..]) == CleanLanes(old(lanes.State()), old(syncs), previousCut, cut)
      {
        var e := cut[i];
        assert cut[i..][1..] == cut[i + 1..];
        i := i + 1;
        if (e.lane, e.dp) !in lanes.metadata {
          var from := FromHash(previousCut, e.lane);
          if from == Some(e.dp) {
            continue;
          }
          var cleaned := lanes.CleanAndUpdateLane(e.lane, from, e.dp, e.cumulSize);
          if !cleaned {
            return false;
          }
          syncs := syncs + [SyncRequest(e.lane, from, e.dp)];
        }
      }
      ok := true;
    }

    /** A commit: a block is opened, the queue is tried, and the lanes move to the new cut. */
    method HandleConsensusEvent(ccp: Round.Committed) returns (ok: bool)
      requires lanes.Valid()
      modifies this, lanes
      ensures lanes.Valid() && staking == ccp.staking
      ensures State() == OnQueueEvent(old(State()), Commit(ccp, old(lanes.State())))
      ensures var passed := SendPass(old(lanes.State()), CreateBuc(old(State()), ccp));
              var cleaned := CleanLanes(old(lanes.State()), passed.syncs, LastCut(old(State())), ccp.proposal.cut);
              lanes.State() == cleaned.store && ok == cleaned.ok
    {
      staking := ccp.staking;
      var previousCut := if lastCcp.Some? then Some(lastCcp.value.proposal.cut) else None;
      TryCreateBlockUnderConstruction(ccp);
      TryToSendFullSignedBlocks();
      ok := CleanAndUpdateLanes(ccp.proposal.cut, previousCut);
    }
  }

  lemma CutOverStep(s: Store, r: Registry, previousCut: Cut, ids: seq<LaneId>, i: nat, cut: Cut)
    requires i < |ids|
    ensures cut + Cuts.CutOver(s, r, previousCut, ids[i..]) ==
            (match Cuts.EntryFor(s, r, previousCut, ids[i]) case Some(e) => cut + [e] case None => cut)
            + Cuts.CutOver(s, r, previousCut, ids[i + 1..])
  {
    assert ids[i..][1..] == ids[i + 1..];
  }

  function After(first: BlockData, rest: CutData): CutData {
    match rest
    case Gathered(data) => Gathered(first + data)
    case Lacking(lane, from, missing) => Lacking(lane, from, missing)
  }

  lemma AfterStep(first: BlockData, next: (LaneId, seq<DataProposal>), rest: CutData)
    ensures After(first + [next], rest) == After(first, After([next], rest))
  {
    if rest.Gathered? {
      assert first + [next] + rest.data == first + ([next] + rest.data);
    }
  }
}
