/**
  Blocks: what each lane added between two consecutive cuts, built when the data is there and
  retried from a queue until then.
 */
module Blocks {
  import opened Model
  import opened Lanes
  import Cuts
  import opened Round
  import opened Staking

  //  A lane between two cuts

  datatype Segment = Complete(dps: seq<DataProposal>) | Missing(hash: DpHash)

  /** The data proposals after `from` up to `h`, oldest first, unless one of them is missing. */
  function SegmentOf(s: Store, lane: LaneId, from: Option<DpHash>, h: DpHash): Segment
    decreases h
  {
    if from == Some(h) then Complete([])
    else if (lane, h) !in s.metadata || (lane, h) !in s.data then Missing(h)
    else
      match s.metadata[(lane, h)].parent
      case None => Complete([s.data[(lane, h)]])
      case Some(parent) =>
        match SegmentOf(s, lane, from, parent)
        case Missing(m) => Missing(m)
        case Complete(dps) => Complete(dps + [s.data[(lane, h)]])
  }

  /** The line of `h` after `from`, as hashes alone tell. */
  function Between(from: Option<DpHash>, h: DpHash): seq<DpHash> {
    if from == Some(h) then []
    else if h.DpDigest? && h.parent.Some? then Between(from, h.parent.value) + [h]
    else [h]
  }

  function Hashes(dps: seq<DataProposal>): seq<DpHash> {
    seq(|dps|, i requires 0 <= i < |dps| => DpHashOf(dps[i]))
  }

  lemma {:induction false} SegmentIsBetween(s: Store, lane: LaneId, from: Option<DpHash>, h: DpHash)
    requires SegmentOf(s, lane, from, h).Complete?
    ensures Hashes(SegmentOf(s, lane, from, h).dps) == Between(from, h)
    decreases h
  {
    if from != Some(h) {
      var dp := s.data[(lane, h)];
      assert DpHashOf(dp) == h;
      if h.parent.Some? {
        SegmentIsBetween(s, lane, from, h.parent.value);
      }
    }
  }

  lemma {:induction false} BetweenIsSuffix(from: Option<DpHash>, h: DpHash)
    ensures |Between(from, h)| <= |Line(h)|
    ensures from.Some? && from.value !in Line(h) ==> Between(from, h) == Line(h)
    ensures from.Some? && from.value in Line(h) ==>
      |Line(from.value)| <= |Line(h)| && Between(from, h) == Line(h)[|Line(from.value)|..]
    ensures from.None? ==> Between(from, h) == Line(h)
  {
    if from == Some(h) {
    } else if h.DpDigest? && h.parent.Some? {
      BetweenIsSuffix(from, h.parent.value);
    }
  }

  lemma {:induction false} LineShrinks(a: DpHash, h: DpHash)
    requires a in Line(h)
    ensures |Line(a)| <= |Line(h)| && (|Line(a)| == |Line(h)| ==> a == h)
  {
    if a != h {
      LineShrinks(a, h.parent.value);
    }
  }

  /**
    Two successive segments join without loss or repetition exactly when the later cut's entry
    descends from the earlier one's (or the earlier segment was empty).
   */
  lemma {:induction false} SegmentsJoinIff(a: Option<DpHash>, b: DpHash, c: DpHash)
    requires a.None? || a.value in Line(b)
    ensures Between(a, b) + Between(Some(b), c) == Between(a, c) <==> b in Line(c) || a == Some(b)
    decreases c
  {
    BetweenIsSuffix(a, b);
    BetweenIsSuffix(Some(b), c);
    BetweenIsSuffix(a, c);
    if a.Some? {
      LineShrinks(a.value, b);
    }
    if b in Line(c) {
      LineShrinks(b, c);
      if b != c {
        SegmentsJoinIff(a, b, c.parent.value);
        assert a != Some(c);
        assert Between(a, b) + Between(Some(b), c) == Between(a, b) + Between(Some(b), c.parent.value) + [c];
      }
    } else if a == Some(b) {
      assert Between(a, b) == [];
    } else {
      assert |Between(a, b)| > 0;
      assert |Between(a, b) + Between(Some(b), c)| > |Between(a, c)|;
    }
  }

  //  A block's data

  type BlockData = seq<(LaneId, seq<DataProposal>)>

  datatype CutData = Gathered(data: BlockData) | Lacking(lane: LaneId, from: Option<DpHash>, missing: DpHash)

  function FromHash(from: Option<Cut>, lane: LaneId): Option<DpHash> {
    if from.None? then None
    else
      match FindLane(from.value, lane)
      case None => None
      case Some(e) => Some(e.dp)
  }

  /** Lane by lane in the order of the cut; the first missing data proposal ends it. */
  function DataOf(s: Store, from: Option<Cut>, cut: Cut): CutData {
    if cut == [] then Gathered([])
    else
      var e := cut[0];
      match SegmentOf(s, e.lane, FromHash(from, e.lane), e.dp)
      case Missing(m) => Lacking(e.lane, FromHash(from, e.lane), m)
      case Complete(dps) =>
        match DataOf(s, from, cut[1..])
        case Lacking(l, f, m) => Lacking(l, f, m)
        case Gathered(rest) => Gathered([(e.lane, dps)] + rest)
  }

  /** All data proposals a block holds for a lane, in the order of its pairs. */
  function LaneData(data: BlockData, lane: LaneId): seq<DataProposal> {
    if data == [] then []
    else (if data[0].0 == lane then data[0].1 else []) + LaneData(data[1..], lane)
  }

  /** The entries of a cut for one lane. */
  function EntriesOf(cut: Cut, lane: LaneId): seq<DpHash> {
    if cut == [] then []
    else (if cut[0].lane == lane then [cut[0].dp] else []) + EntriesOf(cut[1..], lane)
  }

  lemma {:induction false} FirstEntry(cut: Cut, lane: LaneId)
    ensures EntriesOf(cut, lane) == [] <==> FindLane(cut, lane).None?
    ensures FindLane(cut, lane).Some? ==> EntriesOf(cut, lane)[0] == FindLane(cut, lane).value.dp
  {
    if cut != [] {
      FirstEntry(cut[1..], lane);
    }
  }

  /** One line after the other, all from the same start. */
  function BetweenAll(from: Option<DpHash>, hashes: seq<DpHash>): seq<DpHash> {
    if hashes == [] then [] else Between(from, hashes[0]) + BetweenAll(from, hashes[1..])
  }

  lemma HashesSplit(a: seq<DataProposal>, b: seq<DataProposal>)
    ensures Hashes(a + b) == Hashes(a) + Hashes(b)
  {}

  /** A block holds, for each entry of the lane, the line from the previous cut up to it. */
  lemma {:induction false} LaneDataIsSegments(s: Store, from: Option<Cut>, cut: Cut, lane: LaneId)
    requires DataOf(s, from, cut).Gathered?
    ensures Hashes(LaneData(DataOf(s, from, cut).data, lane)) == BetweenAll(FromHash(from, lane), EntriesOf(cut, lane))
  {
    if cut != [] {
      LaneDataIsSegments(s, from, cut[1..], lane);
      var e, data := cut[0], DataOf(s, from, cut).data;
      assert data[1..] == DataOf(s, from, cut[1..]).data;
      if e.lane == lane {
        SegmentIsBetween(s, lane, FromHash(from, lane), e.dp);
        HashesSplit(data[0].1, LaneData(data[1..], lane));
        assert EntriesOf(cut, lane)[1..] == EntriesOf(cut[1..], lane);
      } else {
        assert LaneData(data, lane) == LaneData(data[1..], lane);
        assert EntriesOf(cut, lane) == EntriesOf(cut[1..], lane);
      }
    }
  }

  lemma {:induction false} BetweenAllEmptyIff(from: Option<DpHash>, hashes: seq<DpHash>)
    ensures BetweenAll(from, hashes) == [] <==> forall i :: 0 <= i < |hashes| ==> from == Some(hashes[i])
  {
    if hashes != [] {
      BetweenAllEmptyIff(from, hashes[1..]);
      assert forall i :: 0 < i < |hashes| ==> hashes[i] == hashes[1..][i - 1];
      assert forall i :: 0 <= i < |hashes[1..]| ==> hashes[1..][i] == hashes[i + 1];
    }
  }

  //  Lane history

  datatype Buc = Buc(from: Option<Cut>, ccp: Committed)
  datatype Built = Built(buc: Buc, data: BlockData)

  function CutOf(b: Built): Cut {
    b.buc.ccp.proposal.cut
  }

  /** A block built from whatever the storage held at the time. */
  ghost predicate BuiltFrom(b: Built, s: Store) {
    DataOf(s, b.buc.from, CutOf(b)) == Gathered(b.data)
  }

  /** Blocks of consecutive slots: each starts at the cut of the one before. */
  ghost predicate Consecutive(blocks: seq<Built>) {
    forall i :: 0 < i < |blocks| ==> blocks[i].buc.from == Some(CutOf(blocks[i - 1]))
  }

  /** The lane is in the block's cut, on the line of its entry in the cut before. */
  predicate KeepsOn(buc: Buc, lane: LaneId) {
    var entry := FindLane(buc.ccp.proposal.cut, lane);
    var from := FromHash(buc.from, lane);
    entry.Some? && (from.Some? ==> from.value in Line(entry.value.dp))
  }

  /** The lane is in every cut, and never leaves its own line. */
  ghost predicate LaneContinues(blocks: seq<Built>, lane: LaneId) {
    forall i :: 0 <= i < |blocks| ==> KeepsOn(blocks[i].buc, lane)
  }

  /** The entries of the lane after its first add nothing: they repeat the entry of the cut before. */
  predicate AddsOnce(buc: Buc, lane: LaneId) {
    var entries := EntriesOf(buc.ccp.proposal.cut, lane);
    forall i :: 0 < i < |entries| ==> FromHash(buc.from, lane) == Some(entries[i])
  }

  /** A lane's data proposals over a run of blocks, one block after the other. */
  function History(blocks: seq<Built>, lane: LaneId): seq<DpHash> {
    if blocks == [] then []
    else History(blocks[..|blocks| - 1], lane) + Hashes(LaneData(blocks[|blocks| - 1].data, lane))
  }

  /** A block holds the line up to the lane's first entry, and what the other entries add after it. */
  lemma BlockHoldsLine(b: Built, s: Store, lane: LaneId) returns (extra: seq<DpHash>)
    requires BuiltFrom(b, s) && FindLane(CutOf(b), lane).Some?
    ensures Hashes(LaneData(b.data, lane)) == Between(FromHash(b.buc.from, lane), FindLane(CutOf(b), lane).value.dp) + extra
    ensures extra == [] <==> AddsOnce(b.buc, lane)
  {
    var entries, from := EntriesOf(CutOf(b), lane), FromHash(b.buc.from, lane);
    LaneDataIsSegments(s, b.buc.from, CutOf(b), lane);
    FirstEntry(CutOf(b), lane);
    extra := BetweenAll(from, entries[1..]);
    BetweenAllEmptyIff(from, entries[1..]);
    assert forall i :: 0 < i < |entries| ==> entries[i] == entries[1..][i - 1];
    assert forall i :: 0 <= i < |entries[1..]| ==> entries[1..][i] == entries[i + 1];
  }

  ghost predicate AllAddOnce(blocks: seq<Built>, lane: LaneId) {
    forall i :: 0 <= i < |blocks| ==> AddsOnce(blocks[i].buc, lane)
  }

  /** `part` in order, at the places `at` of `whole`. */
  predicate Placed(part: seq<DpHash>, whole: seq<DpHash>, at: seq<nat>) {
    && |at| == |part|
    && (forall i :: 0 <= i < |at| ==> at[i] < |whole| && whole[at[i]] == part[i])
    && (forall i, j :: 0 <= i < j < |at| ==> at[i] < at[j])
  }

  /** All of `part` is in `whole`, in this order. */
  ghost predicate Within(part: seq<DpHash>, whole: seq<DpHash>) {
    exists at: seq<nat> :: Placed(part, whole, at)
  }

  lemma {:induction false} PlacedFits(part: seq<DpHash>, whole: seq<DpHash>, at: seq<nat>, i: nat)
    requires Placed(part, whole, at) && i < |at|
    ensures i <= at[i]
  {
    if i > 0 {
      PlacedFits(part, whole, at, i - 1);
    }
  }

  lemma WithinIsShorter(part: seq<DpHash>, whole: seq<DpHash>)
    requires Within(part, whole)
    ensures |part| <= |whole|
  {
    var at: seq<nat> :| Placed(part, whole, at);
    if at != [] {
      PlacedFits(part, whole, at, |at| - 1);
    }
  }

  lemma WithinGrows(before: seq<DpHash>, history: seq<DpHash>, step: seq<DpHash>, extra: seq<DpHash>)
    requires Within(before, history)
    ensures Within(before + step, history + (step + extra))
  {
    var at: seq<nat> :| Placed(before, history, at);
    var n, whole := |at|, history + (step + extra);
    var all: seq<nat> := seq(n + |step|, i requires 0 <= i < n + |step| => if i < n then at[i] else |history| + (i - n));
    forall i | 0 <= i < |all| ensures all[i] < |whole| && whole[all[i]] == (before + step)[i] {
      assert i >= n ==> whole[all[i]] == (step + extra)[i - n];
    }
    assert Placed(before + step, whole, all);
  }

  /** `before`, then `step`, is all within, and there is nothing else exactly when there was nothing else before and no extras. */
  lemma JoinedIff(history: seq<DpHash>, before: seq<DpHash>, step: seq<DpHash>, extra: seq<DpHash>)
    requires Within(before, history)
    ensures Within(before + step, history + (step + extra))
    ensures history + (step + extra) == before + step <==> history == before && extra == []
  {
    var whole := history + (step + extra);
    WithinGrows(before, history, step, extra);
    WithinIsShorter(before, history);
    if whole == before + step {
      assert |history| == |before| && extra == [];
      assert history == whole[..|history|] && before == whole[..|before|];
    }
    assert step + [] == step;
  }

  function StartOf(blocks: seq<Built>, lane: LaneId): Option<DpHash>
    requires blocks != []
  {
    FromHash(blocks[0].buc.from, lane)
  }

  function EndOf(b: Built, lane: LaneId): DpHash
    requires FindLane(CutOf(b), lane).Some?
  {
    FindLane(CutOf(b), lane).value.dp
  }

  /** The history is the line from the cut before the first block to the cut of the last. */
  ghost predicate Conserved(blocks: seq<Built>, lane: LaneId)
    requires blocks != [] && KeepsOn(blocks[|blocks| - 1].buc, lane)
  {
    History(blocks, lane) == Between(StartOf(blocks, lane), EndOf(blocks[|blocks| - 1], lane))
  }

  /** The history holds the line from start to end, in order, and is exactly it when every block adds once. */
  ghost predicate FollowsLine(blocks: seq<Built>, lane: LaneId)
    requires blocks != [] && KeepsOn(blocks[|blocks| - 1].buc, lane)
  {
    var first, last := StartOf(blocks, lane), EndOf(blocks[|blocks| - 1], lane);
    && (Conserved(blocks, lane) <==> AllAddOnce(blocks, lane))
    && Within(Between(first, last), History(blocks, lane))
    && (first.Some? ==> first.value in Line(last))
  }

  lemma AllAddOnceSplit(blocks: seq<Built>, lane: LaneId)
    requires blocks != []
    ensures var n := |blocks| - 1;
            AllAddOnce(blocks, lane) <==> AllAddOnce(blocks[..n], lane) && AddsOnce(blocks[n].buc, lane)
  {
    var n := |blocks| - 1;
    assert forall i :: 0 <= i < n ==> blocks[..n][i] == blocks[i];
  }

  lemma FirstFollowsLine(blocks: seq<Built>, s: Store, lane: LaneId)
    requires |blocks| == 1 && BuiltFrom(blocks[0], s) && KeepsOn(blocks[0].buc, lane)
    ensures FollowsLine(blocks, lane)
  {
    var extra := BlockHoldsLine(blocks[0], s, lane);
    var line := Between(StartOf(blocks, lane), EndOf(blocks[0], lane));
    assert blocks[..0] == [] && History(blocks[..0], lane) == [];
    AllAddOnceSplit(blocks, lane);
    assert Placed([], [], []);
    JoinedIff([], [], line, extra);
    assert [] + line == line;
  }

  lemma NextFollowsLine(blocks: seq<Built>, s: Store, lane: LaneId)
    requires |blocks| > 1 && BuiltFrom(blocks[|blocks| - 1], s)
    requires KeepsOn(blocks[|blocks| - 1].buc, lane) && KeepsOn(blocks[|blocks| - 2].buc, lane)
    requires blocks[|blocks| - 1].buc.from == Some(CutOf(blocks[|blocks| - 2]))
    requires FollowsLine(blocks[..|blocks| - 1], lane)
    ensures FollowsLine(blocks, lane)
  {
    var n := |blocks| - 1;
    var before := blocks[..n];
    var first, middle, last := StartOf(before, lane), EndOf(blocks[n - 1], lane), EndOf(blocks[n], lane);
    var extra := BlockHoldsLine(blocks[n], s, lane);
    AllAddOnceSplit(blocks, lane);
    SegmentsJoinIff(first, middle, last);
    JoinedIff(History(before, lane), Between(first, middle), Between(Some(middle), last), extra);
    if first.Some? {
      LineTransitive(first.value, middle, last);
    }
  }

  /**
    Over consecutive blocks, built from the storage of any moments, a lane's data proposals are its
    line from the first cut (exclusive) to the last, oldest first, each once, exactly when no cut
    names the lane a second time with something to add. They always hold all of that line in order.
   */
  lemma {:induction false} HistoryIsConservedIff(blocks: seq<Built>, stores: seq<Store>, lane: LaneId)
    requires blocks != [] && |stores| == |blocks|
    requires forall i :: 0 <= i < |blocks| ==> BuiltFrom(blocks[i], stores[i])
    requires Consecutive(blocks) && LaneContinues(blocks, lane)
    ensures FollowsLine(blocks, lane)
    decreases |blocks|
  {
    var n := |blocks| - 1;
    if n == 0 {
      FirstFollowsLine(blocks, stores[0], lane);
    } else {
      var before := blocks[..n];
      assert forall i :: 0 <= i < n ==> before[i] == blocks[i] && stores[..n][i] == stores[i];
      HistoryIsConservedIff(before, stores[..n], lane);
      NextFollowsLine(blocks, stores[n], lane);
    }
  }

  predicate DistinctLanes(cut: Cut) {
    forall i, j :: 0 <= i < j < |cut| ==> cut[i].lane != cut[j].lane
  }

  lemma {:induction false} DistinctAddsOnce(cut: Cut, lane: LaneId)
    requires DistinctLanes(cut)
    ensures |EntriesOf(cut, lane)| <= 1
  {
    if cut != [] {
      var rest := cut[1..];
      assert forall i :: 0 <= i < |rest| ==> rest[i] == cut[i + 1];
      DistinctAddsOnce(rest, lane);
      if cut[0].lane == lane {
        FirstEntry(rest, lane);
      }
    }
  }

  /** A cut that names each lane once adds once. */
  lemma OneEntryAddsOnce(buc: Buc, lane: LaneId)
    requires DistinctLanes(buc.ccp.proposal.cut)
    ensures AddsOnce(buc, lane)
  {
    DistinctAddsOnce(buc.ccp.proposal.cut, lane);
  }

  /** The block is of a cut that some leader took of its lanes. */
  ghost predicate OfLeadersCut(buc: Buc) {
    exists s: Store, r: Registry, previousCut: Cut :: buc.ccp.proposal.cut == Cuts.NewCut(s, r, previousCut)
  }

  lemma LeadersCutAddsOnce(buc: Buc, lane: LaneId)
    requires OfLeadersCut(buc)
    ensures AddsOnce(buc, lane)
  {
    var s: Store, r: Registry, previousCut: Cut :| buc.ccp.proposal.cut == Cuts.NewCut(s, r, previousCut);
    Cuts.NewCutNamesLanesOnce(s, r, previousCut);
    OneEntryAddsOnce(buc, lane);
  }

  /** Followers do not mind an entry that comes again. */
  lemma FollowersAcceptRepeats(r: Registry, parentCut: Cut, cut: Cut, e: CutEntry)
    requires VerifyPoda(r, parentCut, cut) && e in cut
    ensures VerifyPoda(r, parentCut, cut + [e])
  {
    var more := cut + [e];
    forall i | 0 <= i < |parentCut| ensures FindLane(more, parentCut[i].lane).Some? {
      assert FindLane(cut, parentCut[i].lane).Some?;
      var k :| 0 <= k < |cut| && cut[k].lane == parentCut[i].lane;
      assert more[k].lane == parentCut[i].lane;
    }
    var k :| 0 <= k < |cut| && cut[k] == e;
    assert VerifyPodaEntry(r, parentCut, cut[k]);
  }

  /** And a block of such a cut holds the lane's data twice. */
  lemma RepeatedEntryRepeatsData(s: Store, from: Option<Cut>, e: CutEntry)
    requires DataOf(s, from, [e]).Gathered?
    ensures var once := LaneData(DataOf(s, from, [e]).data, e.lane);
            var twice := DataOf(s, from, [e, e]);
            twice.Gathered? && LaneData(twice.data, e.lane) == once + once
  {
    var one, two := [e], [e, e];
    assert two[1..] == one && one[1..] == [];
    var data := DataOf(s, from, two).data;
    assert data[1..] == DataOf(s, from, one).data;
    var first := DataOf(s, from, one).data;
    assert first[1..] == [];
  }

  /** No data proposal comes twice. */
  lemma {:induction false} BetweenNeverRepeats(from: Option<DpHash>, h: DpHash, i: nat, j: nat)
    requires i < j < |Between(from, h)|
    ensures Between(from, h)[i] != Between(from, h)[j]
    decreases h
  {
    var parent := h.parent.value;
    if j < |Between(from, parent)| {
      BetweenNeverRepeats(from, parent, i, j);
    } else {
      var other := Between(from, parent)[i];
      BetweenIsSuffix(from, parent);
      assert other in Line(parent);
      LineShrinks(other, parent);
    }
  }

  lemma {:induction false} LineTransitive(a: DpHash, b: DpHash, c: DpHash)
    requires a in Line(b) && b in Line(c)
    ensures a in Line(c)
  {
    if b != c {
      LineTransitive(a, b, c.parent.value);
    }
  }

  //  The queue

  datatype SyncRequest = SyncRequest(lane: LaneId, from: Option<DpHash>, to: DpHash)

  datatype Builder = Builder(
    lastCcp: Option<Committed>,
    queue: seq<Buc>,
    startHeight: Option<Slot>,
    built: seq<Built>,
    syncs: seq<SyncRequest>,
    created: seq<Buc>
  )

  function Enlist(b: Builder, buc: Buc): Builder {
    b.(queue := b.queue + [buc], created := b.created + [buc],
       startHeight := if b.startHeight.None? then Some(buc.ccp.proposal.slot) else b.startHeight)
  }

  /** A committed proposal opens a block when it is the first slot or follows the last one. */
  function CreateBuc(b: Builder, ccp: Committed): Builder {
    match b.lastCcp
    case None =>
      var b1 := b.(lastCcp := Some(ccp));
      if ccp.proposal.slot == 1 then Enlist(b1, Buc(None, ccp)) else b1
    case Some(last) =>
      if last.proposal.slot >= ccp.proposal.slot then b
      else
        var b1 := b.(lastCcp := Some(ccp));
        if last.proposal.slot + 1 == ccp.proposal.slot then Enlist(b1, Buc(Some(last.proposal.cut), ccp)) else b1
  }

  /** Takes the block at the front of the queue: it is built, or goes to the back. */
  function SendOne(s: Store, b: Builder): Builder
    requires b.queue != []
  {
    var buc := b.queue[0];
    match DataOf(s, buc.from, buc.ccp.proposal.cut)
    case Gathered(data) => b.(queue := b.queue[1..], built := b.built + [Built(buc, data)])
    case Lacking(lane, from, missing) =>
      b.(queue := b.queue[1..] + [buc], syncs := b.syncs + [SyncRequest(lane, from, missing)])
  }

  function SendSome(s: Store, b: Builder, n: nat): Builder
    decreases n
  {
    if n == 0 || b.queue == [] then b else SendSome(s, SendOne(s, b), n - 1)
  }

  function SendPass(s: Store, b: Builder): Builder {
    SendSome(s, b, |b.queue|)
  }

  predicate Buildable(s: Store, buc: Buc) {
    DataOf(s, buc.from, buc.ccp.proposal.cut).Gathered?
  }

  function Filter(keep: Buc -> bool, queue: seq<Buc>): seq<Buc> {
    if queue == [] then []
    else if keep(queue[0]) then [queue[0]] + Filter(keep, queue[1..])
    else Filter(keep, queue[1..])
  }

  function Ready(s: Store): Buc -> bool {
    buc => Buildable(s, buc)
  }

  function NotReady(s: Store): Buc -> bool {
    buc => !Buildable(s, buc)
  }

  function Build(s: Store, buc: Buc): Built {
    match DataOf(s, buc.from, buc.ccp.proposal.cut)
    case Gathered(data) => Built(buc, data)
    case Lacking(_, _, _) => Built(buc, [])
  }

  function BuildAll(s: Store, queue: seq<Buc>): seq<Built> {
    seq(|queue|, i requires 0 <= i < |queue| => Build(s, queue[i]))
  }

  lemma SendOneIs(s: Store, b: Builder)
    requires b.queue != []
    ensures var b' := SendOne(s, b);
            && b'.lastCcp == b.lastCcp && b'.created == b.created
            && (if Buildable(s, b.queue[0])
                then b'.queue == b.queue[1..] && b'.built == b.built + [Build(s, b.queue[0])]
                else b'.queue == b.queue[1..] + [b.queue[0]] && b'.built == b.built)
  {}

  /** The queue `todo + done`, from which `left` stays behind and `ready` is built. */
  ghost predicate Splits(s: Store, b: Builder, done: seq<Buc>, left: seq<Buc>, ready: seq<Buc>, b': Builder) {
    && b'.queue == done + left
    && b'.built == b.built + BuildAll(s, ready)
    && b'.lastCcp == b.lastCcp && b'.created == b.created
  }

  lemma SplitsStep(s: Store, b: Builder, b1: Builder, b': Builder, x: Buc, done: seq<Buc>, left: seq<Buc>, ready: seq<Buc>)
    requires b1.lastCcp == b.lastCcp && b1.created == b.created
    ensures b1.built == b.built && Splits(s, b1, done + [x], left, ready, b') ==> Splits(s, b, done, [x] + left, ready, b')
    ensures b1.built == b.built + [Build(s, x)] && Splits(s, b1, done, left, ready, b') ==> Splits(s, b, done, left, [x] + ready, b')
  {
    assert done + [x] + left == done + ([x] + left);
    assert BuildAll(s, [x] + ready) == [Build(s, x)] + BuildAll(s, ready);
    assert b.built + [Build(s, x)] + BuildAll(s, ready) == b.built + ([Build(s, x)] + BuildAll(s, ready));
  }

  lemma TailOfSum(todo: seq<Buc>, done: seq<Buc>)
    requires todo != []
    ensures (todo + done)[0] == todo[0] && (todo + done)[1..] == todo[1..] + done
  {}

  lemma {:induction false} SendSomeSplits(s: Store, b: Builder, todo: seq<Buc>, done: seq<Buc>)
    requires b.queue == todo + done
    ensures Splits(s, b, done, Filter(NotReady(s), todo), Filter(Ready(s), todo), SendSome(s, b, |todo|))
    decreases |todo|
  {
    if todo == [] {
      assert b.built + BuildAll(s, []) == b.built;
    } else {
      var x, rest := todo[0], todo[1..];
      var b1 := SendOne(s, b);
      SendOneIs(s, b);
      TailOfSum(todo, done);
      assert rest + done + [x] == rest + (done + [x]);
      var done1 := if Buildable(s, x) then done else done + [x];
      SendSomeSplits(s, b1, rest, done1);
      SplitsStep(s, b, b1, SendSome(s, b1, |rest|), x, done, Filter(NotReady(s), rest), Filter(Ready(s), rest));
    }
  }

  /** A pass builds, in order, exactly the blocks whose data is there, and leaves the others in order. */
  lemma PassSplitsQueue(s: Store, b: Builder)
    ensures SendPass(s, b).queue == Filter(NotReady(s), b.queue)
    ensures SendPass(s, b).built == b.built + BuildAll(s, Filter(Ready(s), b.queue))
    ensures SendPass(s, b).lastCcp == b.lastCcp && SendPass(s, b).created == b.created
  {
    assert b.queue == b.queue + [];
    SendSomeSplits(s, b, b.queue, []);
  }

  //  Runs of the queue

  /** A commit arrives, or a missing piece does; each time the storage is what it is by then. */
  datatype QueueEvent = Commit(ccp: Committed, store: Store) | Retry(store: Store)

  function OnQueueEvent(b: Builder, e: QueueEvent): Builder {
    match e
    case Commit(ccp, store) =>
      var b1 := SendPass(store, CreateBuc(b, ccp));
      b1.(syncs := CleanLanes(store, b1.syncs, LastCut(b), ccp.proposal.cut).syncs)
    case Retry(store) => SendPass(store, b)
  }

  function LastCut(b: Builder): Option<Cut> {
    if b.lastCcp.Some? then Some(b.lastCcp.value.proposal.cut) else None
  }

  function RunQueue(b: Builder, events: seq<QueueEvent>): Builder
    decreases |events|
  {
    if events == [] then b else RunQueue(OnQueueEvent(b, events[0]), events[1..])
  }

  const EMPTY_BUILDER := Builder(None, [], None, [], [], [])

  function Commits(events: seq<QueueEvent>): seq<Committed> {
    if events == [] then []
    else (if events[0].Commit? then [events[0].ccp] else []) + Commits(events[1..])
  }

  function BucsOf(built: seq<Built>): seq<Buc> {
    seq(|built|, i requires 0 <= i < |built| => built[i].buc)
  }

  /** The block starts at the cut committed one slot before it, or is the first. */
  predicate FollowsCommit(commits: seq<Committed>, buc: Buc) {
    var slot := buc.ccp.proposal.slot;
    && buc.ccp in commits
    && (|| (buc.from.None? && slot == 1)
        || (exists i :: 0 <= i < |commits| && commits[i].proposal.slot + 1 == slot && buc.from == Some(commits[i].proposal.cut)))
  }

  predicate Ascends(queue: seq<Buc>) {
    forall i, j :: 0 <= i < j < |queue| ==> queue[i].ccp.proposal.slot < queue[j].ccp.proposal.slot
  }

  function LastSlot(b: Builder): int {
    if b.lastCcp.Some? then b.lastCcp.value.proposal.slot else -1
  }

  /** The queue is in slot order, and ends no later than the last commit. */
  ghost predicate InOrder(b: Builder) {
    && Ascends(b.queue)
    && (forall i :: 0 <= i < |b.queue| ==> b.queue[i].ccp.proposal.slot <= LastSlot(b))
  }

  /** Every block opened, and the last commit, come from the commits seen. */
  ghost predicate FromCommits(commits: seq<Committed>, b: Builder) {
    && (b.lastCcp.Some? ==> b.lastCcp.value in commits)
    && (forall i :: 0 <= i < |b.created| ==> FollowsCommit(commits, b.created[i]))
  }

  /** Every block opened is built or queued, and only once. */
  ghost predicate Accounted(b: Builder) {
    multiset(b.created) == multiset(BucsOf(b.built) + b.queue)
  }

  /** A block that follows another by a slot starts at its cut. */
  ghost predicate StartsAtCuts(created: seq<Buc>) {
    forall i :: 0 < i < |created| && created[i].ccp.proposal.slot == created[i - 1].ccp.proposal.slot + 1 ==>
      created[i].from == Some(created[i - 1].ccp.proposal.cut)
  }

  /** Blocks are opened in slot order up to the last commit, each at the cut of the slot before. */
  ghost predicate Chained(b: Builder) {
    && Ascends(b.created)
    && StartsAtCuts(b.created)
    && (forall i :: 0 <= i < |b.created| ==>
          && b.created[i].ccp.proposal.slot <= LastSlot(b)
          && (b.created[i].ccp.proposal.slot == LastSlot(b) ==> b.lastCcp == Some(b.created[i].ccp)))
  }

  /** What was built came out of the storage of some moment. */
  ghost predicate Sourced(built: seq<Built>) {
    forall i :: 0 <= i < |built| ==> HasSource(built[i])
  }

  ghost predicate HasSource(x: Built) {
    exists s: Store :: BuiltFrom(x, s)
  }

  ghost predicate QueueInv(commits: seq<Committed>, b: Builder) {
    InOrder(b) && FromCommits(commits, b) && Accounted(b)
  }

  lemma MoreCommits(commits: seq<Committed>, ccp: Committed, buc: Buc)
    requires FollowsCommit(commits, buc)
    ensures FollowsCommit(commits + [ccp], buc)
  {
    var more := commits + [ccp];
    assert forall i :: 0 <= i < |commits| ==> more[i] == commits[i];
  }

  lemma CreatedFollows(commits: seq<Committed>, b: Builder, ccp: Committed)
    requires FromCommits(commits, b)
    ensures FromCommits(commits + [ccp], CreateBuc(b, ccp))
  {
    var more := commits + [ccp];
    assert more[|commits|] == ccp;
    var b' := CreateBuc(b, ccp);
    forall i | 0 <= i < |b.created| ensures FollowsCommit(more, b.created[i]) {
      MoreCommits(commits, ccp, b.created[i]);
    }
    if b.lastCcp.Some? {
      var k :| 0 <= k < |commits| && commits[k] == b.lastCcp.value;
      assert more[k] == b.lastCcp.value;
    }
  }

  lemma AppendAscends(queue: seq<Buc>, x: Buc)
    requires Ascends(queue) && forall i :: 0 <= i < |queue| ==> queue[i].ccp.proposal.slot < x.ccp.proposal.slot
    ensures Ascends(queue + [x])
  {}

  lemma AppendStartsAtCuts(created: seq<Buc>, x: Buc)
    requires StartsAtCuts(created)
    requires created != [] && x.ccp.proposal.slot == created[|created| - 1].ccp.proposal.slot + 1 ==>
      x.from == Some(created[|created| - 1].ccp.proposal.cut)
    ensures StartsAtCuts(created + [x])
  {}

  lemma CreateChains(b: Builder, ccp: Committed)
    requires Chained(b)
    ensures Chained(CreateBuc(b, ccp))
  {
    var b' := CreateBuc(b, ccp);
    if b'.created != b.created {
      var x := b'.created[|b.created|];
      assert b'.created == b.created + [x];
      AppendAscends(b.created, x);
      AppendStartsAtCuts(b.created, x);
    }
  }

  lemma CreateInOrder(b: Builder, ccp: Committed)
    requires InOrder(b)
    ensures InOrder(CreateBuc(b, ccp))
  {
    var b' := CreateBuc(b, ccp);
    if b'.queue != b.queue {
      AppendAscends(b.queue, b'.queue[|b.queue|]);
    }
  }

  lemma CreateAccounted(b: Builder, ccp: Committed)
    requires Accounted(b)
    ensures Accounted(CreateBuc(b, ccp))
  {
    var b' := CreateBuc(b, ccp);
    if b'.queue != b.queue {
      var buc := b'.queue[|b.queue|];
      assert BucsOf(b'.built) + b'.queue == BucsOf(b.built) + b.queue + [buc];
    }
  }

  lemma CreateKeeps(commits: seq<Committed>, b: Builder, ccp: Committed)
    requires QueueInv(commits, b)
    ensures QueueInv(commits + [ccp], CreateBuc(b, ccp))
  {
    CreatedFollows(commits, b, ccp);
    CreateInOrder(b, ccp);
    CreateAccounted(b, ccp);
  }

  lemma {:induction false} FilterMembers(keep: Buc -> bool, queue: seq<Buc>, i: nat)
    requires i < |Filter(keep, queue)|
    ensures Filter(keep, queue)[i] in queue
  {
    var rest := queue[1..];
    if !keep(queue[0]) {
      FilterMembers(keep, rest, i);
    } else if i > 0 {
      FilterMembers(keep, rest, i - 1);
    }
  }

  lemma FirstIsLowest(queue: seq<Buc>, x: Buc)
    requires Ascends(queue) && queue != [] && x in queue[1..]
    ensures queue[0].ccp.proposal.slot < x.ccp.proposal.slot
  {
    var k :| 0 <= k < |queue[1..]| && queue[1..][k] == x;
    assert queue[k + 1] == x;
  }

  lemma {:induction false} FilterKeepsOrder(keep: Buc -> bool, queue: seq<Buc>)
    requires Ascends(queue)
    ensures Ascends(Filter(keep, queue))
  {
    if queue != [] {
      var rest := queue[1..];
      assert forall i :: 0 <= i < |rest| ==> rest[i] == queue[i + 1];
      FilterKeepsOrder(keep, rest);
      var left := Filter(keep, rest);
      forall i | 0 <= i < |left| ensures queue[0].ccp.proposal.slot < left[i].ccp.proposal.slot {
        FilterMembers(keep, rest, i);
        FirstIsLowest(queue, left[i]);
      }
    }
  }

  lemma {:induction false} FilterSplits(keep: Buc -> bool, drop: Buc -> bool, queue: seq<Buc>)
    requires forall x :: x in queue ==> keep(x) == !drop(x)
    ensures multiset(queue) == multiset(Filter(keep, queue)) + multiset(Filter(drop, queue))
  {
    if queue != [] {
      assert queue == [queue[0]] + queue[1..];
      FilterSplits(keep, drop, queue[1..]);
    }
  }

  lemma PassInOrder(s: Store, b: Builder)
    requires InOrder(b)
    ensures InOrder(SendPass(s, b))
  {
    var b' := SendPass(s, b);
    PassSplitsQueue(s, b);
    FilterKeepsOrder(NotReady(s), b.queue);
    forall i | 0 <= i < |b'.queue|
      ensures b'.queue[i].ccp.proposal.slot <= LastSlot(b)
    {
      FilterMembers(NotReady(s), b.queue, i);
      var k :| 0 <= k < |b.queue| && b.queue[k] == b'.queue[i];
    }
  }

  lemma PassAccounted(s: Store, b: Builder)
    requires Accounted(b)
    ensures Accounted(SendPass(s, b))
  {
    var b' := SendPass(s, b);
    PassSplitsQueue(s, b);
    FilterSplits(Ready(s), NotReady(s), b.queue);
    var ready, left := Filter(Ready(s), b.queue), Filter(NotReady(s), b.queue);
    assert BucsOf(b'.built) == BucsOf(b.built) + ready;
  }

  lemma {:induction false} FilterKept(keep: Buc -> bool, queue: seq<Buc>, i: nat)
    requires i < |Filter(keep, queue)|
    ensures keep(Filter(keep, queue)[i])
  {
    if !keep(queue[0]) {
      FilterKept(keep, queue[1..], i);
    } else if i > 0 {
      FilterKept(keep, queue[1..], i - 1);
    }
  }

  lemma PassSourced(s: Store, b: Builder)
    requires Sourced(b.built)
    ensures Sourced(SendPass(s, b).built)
  {
    PassSplitsQueue(s, b);
    var ready := Filter(Ready(s), b.queue);
    var built := SendPass(s, b).built;
    forall i | 0 <= i < |built| ensures HasSource(built[i]) {
      if i < |b.built| {
        assert built[i] == b.built[i];
      } else {
        var k := i - |b.built|;
        FilterKept(Ready(s), b.queue, k);
        assert built[i] == Build(s, ready[k]) && BuiltFrom(built[i], s);
      }
    }
  }

  lemma PassKeeps(commits: seq<Committed>, s: Store, b: Builder)
    requires QueueInv(commits, b)
    ensures QueueInv(commits, SendPass(s, b))
  {
    PassInOrder(s, b);
    PassAccounted(s, b);
    PassSplitsQueue(s, b);
  }

  lemma SyncsDoNotMatter(commits: seq<Committed>, b: Builder, syncs: seq<SyncRequest>)
    requires QueueInv(commits, b)
    ensures QueueInv(commits, b.(syncs := syncs))
  {
    var b' := b.(syncs := syncs);
    assert LastSlot(b') == LastSlot(b);
  }

  lemma EventKeeps(commits: seq<Committed>, b: Builder, e: QueueEvent)
    requires QueueInv(commits, b)
    ensures QueueInv(commits + Commits([e]), OnQueueEvent(b, e))
  {
    assert [e][1..] == [];
    match e
    case Commit(ccp, store) =>
      assert Commits([e]) == [ccp];
      CreateKeeps(commits, b, ccp);
      PassKeeps(commits + [ccp], store, CreateBuc(b, ccp));
      SyncsDoNotMatter(commits + [ccp], SendPass(store, CreateBuc(b, ccp)), OnQueueEvent(b, e).syncs);
    case Retry(store) =>
      assert commits + Commits([e]) == commits;
      PassKeeps(commits, store, b);
  }

  lemma {:induction false} QueueRunKeeps(commits: seq<Committed>, b: Builder, events: seq<QueueEvent>)
    requires QueueInv(commits, b)
    ensures QueueInv(commits + Commits(events), RunQueue(b, events))
    decreases |events|
  {
    if events == [] {
      assert commits + Commits(events) == commits;
    } else {
      var seen := commits + Commits([events[0]]);
      EventKeeps(commits, b, events[0]);
      QueueRunKeeps(seen, OnQueueEvent(b, events[0]), events[1..]);
      var one := [events[0]];
      assert one[1..] == [] && Commits(one) + Commits(events[1..]) == Commits(events);
      assert seen + Commits(events[1..]) == commits + (Commits(one) + Commits(events[1..]));
    }
  }

  /**
    Over any run the queue is in slot order, every block opened starts at the cut of the slot
    before it, and every block opened is either built, once, or still queued.
   */
  lemma NothingIsLost(events: seq<QueueEvent>)
    ensures var b := RunQueue(EMPTY_BUILDER, events);
            && Ascends(b.queue)
            && (forall i :: 0 <= i < |b.created| ==> FollowsCommit(Commits(events), b.created[i]))
            && multiset(b.created) == multiset(BucsOf(b.built)) + multiset(b.queue)
  {
    QueueRunKeeps([], EMPTY_BUILDER, events);
    assert [] + Commits(events) == Commits(events);
  }

  //  Lane history over a run

  /** The blocks built for `bucs`, in that order. */
  ghost predicate BuiltFor(built: seq<Built>, bucs: seq<Buc>, blocks: seq<Built>) {
    && |blocks| == |bucs|
    && forall i :: 0 <= i < |bucs| ==> blocks[i] in built && blocks[i].buc == bucs[i]
  }

  lemma {:induction false} FindSources(blocks: seq<Built>) returns (stores: seq<Store>)
    requires forall i :: 0 <= i < |blocks| ==> HasSource(blocks[i])
    ensures |stores| == |blocks| && forall i :: 0 <= i < |blocks| ==> BuiltFrom(blocks[i], stores[i])
  {
    if blocks == [] {
      stores := [];
    } else {
      var n := |blocks| - 1;
      var before := FindSources(blocks[..n]);
      var s: Store :| BuiltFrom(blocks[n], s);
      stores := before + [s];
    }
  }

  lemma EventChains(b: Builder, e: QueueEvent)
    requires Chained(b) && Sourced(b.built)
    ensures Chained(OnQueueEvent(b, e)) && Sourced(OnQueueEvent(b, e).built)
  {
    var b1 := if e.Commit? then CreateBuc(b, e.ccp) else b;
    if e.Commit? {
      CreateChains(b, e.ccp);
    }
    PassSplitsQueue(e.store, b1);
    PassSourced(e.store, b1);
  }

  lemma {:induction false} RunChains(b: Builder, events: seq<QueueEvent>)
    requires Chained(b) && Sourced(b.built)
    ensures Chained(RunQueue(b, events)) && Sourced(RunQueue(b, events).built)
    decreases |events|
  {
    if events != [] {
      EventChains(b, events[0]);
      RunChains(OnQueueEvent(b, events[0]), events[1..]);
    }
  }

  /** Blocks opened for consecutive slots, in which the lane keeps on. */
  ghost predicate InSequence(bucs: seq<Buc>, lane: LaneId) {
    && (forall k :: 0 <= k < |bucs| ==> KeepsOn(bucs[k], lane))
    && (forall k :: 0 < k < |bucs| ==> bucs[k].ccp.proposal.slot == bucs[k - 1].ccp.proposal.slot + 1)
  }

  lemma BuiltHaveSources(built: seq<Built>, bucs: seq<Buc>, blocks: seq<Built>)
    requires Sourced(built) && BuiltFor(built, bucs, blocks)
    ensures forall k :: 0 <= k < |blocks| ==> HasSource(blocks[k])
  {
    forall k | 0 <= k < |blocks| ensures HasSource(blocks[k]) {
      var m :| 0 <= m < |built| && built[m] == blocks[k];
    }
  }

  lemma BuiltInSequence(b: Builder, i: nat, j: nat, lane: LaneId, blocks: seq<Built>)
    requires Chained(b) && i < j <= |b.created|
    requires InSequence(b.created[i..j], lane) && BuiltFor(b.built, b.created[i..j], blocks)
    ensures Consecutive(blocks) && LaneContinues(blocks, lane)
  {
    var bucs := b.created[i..j];
    forall k | 0 < k < |blocks| ensures blocks[k].buc.from == Some(CutOf(blocks[k - 1])) {
      assert bucs[k] == b.created[i + k] && bucs[k - 1] == b.created[i + k - 1];
    }
  }

  lemma BuiltAddOnce(created: seq<Buc>, i: nat, j: nat, lane: LaneId, blocks: seq<Built>)
    requires i < j <= |created| && |blocks| == j - i && forall k :: 0 <= k < j - i ==> blocks[k].buc == created[i..j][k]
    ensures AllAddOnce(blocks, lane) <==> forall k :: i <= k < j ==> AddsOnce(created[k], lane)
  {
    assert forall k :: 0 <= k < |blocks| ==> blocks[k].buc == created[i + k];
    assert forall k :: i <= k < j ==> created[k] == blocks[k - i].buc;
  }

  lemma HistoryOf(b: Builder, i: nat, j: nat, lane: LaneId, blocks: seq<Built>)
    requires Chained(b) && Sourced(b.built) && i < j <= |b.created|
    requires InSequence(b.created[i..j], lane) && BuiltFor(b.built, b.created[i..j], blocks)
    ensures blocks != [] && KeepsOn(blocks[|blocks| - 1].buc, lane)
    ensures Conserved(blocks, lane) <==> forall k :: i <= k < j ==> AddsOnce(b.created[k], lane)
  {
    BuiltHaveSources(b.built, b.created[i..j], blocks);
    BuiltInSequence(b, i, j, lane, blocks);
    BuiltAddOnce(b.created, i, j, lane, blocks);
    var stores := FindSources(blocks);
    HistoryIsConservedIff(blocks, stores, lane);
  }

  /**
    Over any run of the mempool, whatever was missing and for how long: the blocks of consecutive
    slots, once all are built, hold for each lane exactly its line from the cut before the first
    slot (exclusive) to the cut of the last, oldest first, nothing lost and nothing twice, exactly
    when no cut of theirs names the lane a second time with something to add.
   */
  lemma RunConservesHistoryIff(events: seq<QueueEvent>, i: nat, j: nat, lane: LaneId, blocks: seq<Built>)
    requires i < j <= |RunQueue(EMPTY_BUILDER, events).created|
    requires InSequence(RunQueue(EMPTY_BUILDER, events).created[i..j], lane)
    requires BuiltFor(RunQueue(EMPTY_BUILDER, events).built, RunQueue(EMPTY_BUILDER, events).created[i..j], blocks)
    ensures blocks != [] && KeepsOn(blocks[|blocks| - 1].buc, lane)
    ensures Conserved(blocks, lane) <==>
            forall k :: i <= k < j ==> AddsOnce(RunQueue(EMPTY_BUILDER, events).created[k], lane)
  {
    RunChains(EMPTY_BUILDER, events);
    HistoryOf(RunQueue(EMPTY_BUILDER, events), i, j, lane, blocks);
  }

  /** So over cuts that leaders took of their lanes, whatever the lanes held, every lane's history is conserved. */
  lemma LeadersCutsConserve(events: seq<QueueEvent>, i: nat, j: nat, lane: LaneId, blocks: seq<Built>)
    requires i < j <= |RunQueue(EMPTY_BUILDER, events).created|
    requires InSequence(RunQueue(EMPTY_BUILDER, events).created[i..j], lane)
    requires BuiltFor(RunQueue(EMPTY_BUILDER, events).built, RunQueue(EMPTY_BUILDER, events).created[i..j], blocks)
    requires forall k :: i <= k < j ==> OfLeadersCut(RunQueue(EMPTY_BUILDER, events).created[k])
    ensures blocks != [] && KeepsOn(blocks[|blocks| - 1].buc, lane) && Conserved(blocks, lane)
  {
    var created := RunQueue(EMPTY_BUILDER, events).created;
    RunConservesHistoryIff(events, i, j, lane, blocks);
    forall k | i <= k < j ensures AddsOnce(created[k], lane) {
      LeadersCutAddsOnce(created[k], lane);
    }
  }

  //  Lanes after a commit

  /** An entry the storage does not know, and that the previous cut did not already have. */
  predicate Unknown(s: Store, previousCut: Option<Cut>, e: CutEntry) {
    !Contains(s, e.lane, e.dp) && FromHash(previousCut, e.lane) != Some(e.dp)
  }

  datatype Cleaned = Cleaned(store: Store, syncs: seq<SyncRequest>, ok: bool)

  /** Moves each lane whose committed entry is unknown to that entry, and asks for what lies between. */
  function CleanLanes(s: Store, syncs: seq<SyncRequest>, previousCut: Option<Cut>, cut: Cut): Cleaned
    decreases |cut|
  {
    if cut == [] then Cleaned(s, syncs, true)
    else
      var e := cut[0];
      var from := FromHash(previousCut, e.lane);
      if !Unknown(s, previousCut, e) then CleanLanes(s, syncs, previousCut, cut[1..])
      else
        var (s1, ok) := CleanAndUpdate(s, e.lane, from, e.dp, e.cumulSize);
        if ok then CleanLanes(s1, syncs + [SyncRequest(e.lane, from, e.dp)], previousCut, cut[1..])
        else Cleaned(s1, syncs, false)
  }

  /** Cleaning up after a commit never drops an entry of the previous cut, even when it fails half way. */
  lemma {:induction false} CleaningKeepsCommitted(s: Store, syncs: seq<SyncRequest>, previousCut: Option<Cut>, cut: Cut, key: Key)
    requires key in s.metadata && FromHash(previousCut, key.0) == Some(key.1)
    ensures key in CleanLanes(s, syncs, previousCut, cut).store.metadata
    decreases |cut|
  {
    if cut != [] {
      var e := cut[0];
      var from := FromHash(previousCut, e.lane);
      if Unknown(s, previousCut, e) {
        CleanTakesOutOneEntry(s, e.lane, from, e.dp, e.cumulSize);
        var (s1, ok) := CleanAndUpdate(s, e.lane, from, e.dp, e.cumulSize);
        assert key in s1.metadata;
        if ok {
          CleaningKeepsCommitted(s1, syncs + [SyncRequest(e.lane, from, e.dp)], previousCut, cut[1..], key);
        }
      } else {
        CleaningKeepsCommitted(s, syncs, previousCut, cut[1..], key);
      }
    }
  }

  ghost predicate SameLane(s: Store, s': Store, lane: LaneId) {
    && TipHash(s', lane) == TipHash(s, lane)
    && TipSize(s', lane) == TipSize(s, lane)
    && forall h: DpHash :: Contains(s', lane, h) <==> Contains(s, lane, h)
  }

  lemma CleanIsLocal(s: Store, e: CutEntry, from: Option<DpHash>, lane: LaneId)
    requires e.lane != lane
    ensures SameLane(s, CleanAndUpdate(s, e.lane, from, e.dp, e.cumulSize).0, lane)
  {
    var (s1, ok) := CleanAndUpdate(s, e.lane, from, e.dp, e.cumulSize);
    CleanTakesOutOneEntry(s, e.lane, from, e.dp, e.cumulSize);
    if TipHash(s, e.lane) != from {
      PopUntilPopsOnce(s, e.lane, from);
    }
  }

  /** A lane is not touched by cuts that do not name it. */
  lemma {:induction false} CleaningIsLocal(s: Store, syncs: seq<SyncRequest>, previousCut: Option<Cut>, cut: Cut, lane: LaneId)
    requires FindLane(cut, lane).None?
    ensures SameLane(s, CleanLanes(s, syncs, previousCut, cut).store, lane)
    decreases |cut|
  {
    if cut != [] {
      var e := cut[0];
      var from := FromHash(previousCut, e.lane);
      if Unknown(s, previousCut, e) {
        CleanIsLocal(s, e, from, lane);
        var (s1, ok) := CleanAndUpdate(s, e.lane, from, e.dp, e.cumulSize);
        if ok {
          CleaningIsLocal(s1, syncs + [SyncRequest(e.lane, from, e.dp)], previousCut, cut[1..], lane);
        }
      } else {
        CleaningIsLocal(s, syncs, previousCut, cut[1..], lane);
      }
    }
  }

  /** A committed entry is stored, or is what the lane will grow from, or was committed before. */
  predicate Caught(s: Store, previousCut: Option<Cut>, e: CutEntry) {
    Contains(s, e.lane, e.dp) || TipHash(s, e.lane) == Some(e.dp) || FromHash(previousCut, e.lane) == Some(e.dp)
  }

  /** What an entry of the cut does to its own lane: nothing, or it becomes the tip. */
  lemma {:induction false} CleaningMovesOrKeeps(s: Store, syncs: seq<SyncRequest>, previousCut: Option<Cut>, cut: Cut, lane: LaneId)
    requires CleanLanes(s, syncs, previousCut, cut).ok
    ensures var s' := CleanLanes(s, syncs, previousCut, cut).store;
            SameLane(s, s', lane) || TipIsOf(s', cut, lane)
    decreases |cut|
  {
    if cut != [] {
      var e, rest := cut[0], cut[1..];
      assert forall k :: 0 <= k < |rest| ==> rest[k] == cut[k + 1];
      var from := FromHash(previousCut, e.lane);
      if Unknown(s, previousCut, e) {
        var s1 := CleanAndUpdate(s, e.lane, from, e.dp, e.cumulSize).0;
        var syncs1 := syncs + [SyncRequest(e.lane, from, e.dp)];
        CleaningMovesOrKeeps(s1, syncs1, previousCut, rest, lane);
        if e.lane == lane {
          CleanTakesOutOneEntry(s, e.lane, from, e.dp, e.cumulSize);
          assert TipHash(s1, lane) == Some(cut[0].dp);
        } else {
          CleanIsLocal(s, e, from, lane);
        }
      } else {
        CleaningMovesOrKeeps(s, syncs, previousCut, rest, lane);
      }
    }
  }

  predicate TipIsOf(s: Store, cut: Cut, lane: LaneId) {
    exists k :: 0 <= k < |cut| && cut[k].lane == lane && TipHash(s, lane) == Some(cut[k].dp)
  }

  /** After a commit every entry of its cut is caught up with, or the lane is at a later entry of the same cut. */
  lemma {:induction false} CleaningCatchesUp(s: Store, syncs: seq<SyncRequest>, previousCut: Option<Cut>, cut: Cut, i: nat)
    requires i < |cut| && CleanLanes(s, syncs, previousCut, cut).ok
    ensures var s' := CleanLanes(s, syncs, previousCut, cut).store;
            Caught(s', previousCut, cut[i]) || TipIsOf(s', cut[i + 1..], cut[i].lane)
    decreases |cut|
  {
    var e, rest := cut[0], cut[1..];
    var from := FromHash(previousCut, e.lane);
    var (s1, syncs1) :=
      if Unknown(s, previousCut, e)
      then (CleanAndUpdate(s, e.lane, from, e.dp, e.cumulSize).0, syncs + [SyncRequest(e.lane, from, e.dp)])
      else (s, syncs);
    if i > 0 {
      CleaningCatchesUp(s1, syncs1, previousCut, rest, i - 1);
      assert rest[i - 1] == cut[i] && rest[i..] == cut[i + 1..];
    } else {
      CleaningMovesOrKeeps(s1, syncs1, previousCut, rest, e.lane);
      CleanTakesOutOneEntry(s, e.lane, from, e.dp, e.cumulSize);
    }
  }
}
