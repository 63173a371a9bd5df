/**
  The data availability reorder buffer: blocks arrive in any order and leave parent first, once.
 */
module DataAvailability {
  import opened Model
  import opened Staking
  import opened Blocks

  datatype SignedBlock = SignedBlock(data: BlockData, proposal: ConsensusProposal, certificate: AggregateSignature) {
    function Id(): (id: ProposalHash)
      ensures id.Digest? && id.slot == Height() && id.parent == Parent()
    {
      Hash(proposal)
    }

    function Parent(): ProposalHash {
      proposal.parentHash
    }

    function Height(): nat {
      proposal.slot
    }
  }

  /** Blocks in the buffer are compared by height alone, so it holds one block for each height. */
  type Buffer = m: map<nat, SignedBlock> | forall h :: h in m ==> m[h].Height() == h

  datatype Da = Da(blocks: map<ProposalHash, SignedBlock>, buffer: Buffer, emitted: seq<SignedBlock>)

  const EMPTY_DA := Da(map[], map[], [])

  /** A block whose height is already there is not inserted. */
  function Insert(buffer: Buffer, b: SignedBlock): Buffer {
    if b.Height() in buffer then buffer else buffer[b.Height() := b]
  }

  function Lowest(buffer: Buffer): (h: nat)
    requires buffer != map[]
    ensures h in buffer && forall k :: k in buffer ==> h <= k
  {
    assert buffer.Keys != {};
    Least(buffer.Keys)
  }

  function AddProcessed(da: Da, b: SignedBlock): Da {
    var blocks := if b.Id() in da.blocks then da.blocks else da.blocks[b.Id() := b];
    Da(blocks, da.buffer, da.emitted + [b])
  }

  function TakeLowest(da: Da): Da
    requires da.buffer != map[]
  {
    var h := Lowest(da.buffer);
    AddProcessed(da.(buffer := da.buffer - {h}), da.buffer[h])
  }

  function Highest(a: Option<nat>, b: Option<nat>): Option<nat> {
    if a.None? then b
    else if b.None? then a
    else Some(if a.value < b.value then b.value else a.value)
  }

  /** Takes blocks from the low end of the buffer as long as each is the child of the one before. */
  function PopBuffer(da: Da, last: ProposalHash): (Da, Option<nat>)
    decreases |da.buffer|
  {
    if da.buffer == map[] || da.buffer[Lowest(da.buffer)].Parent() != last then (da, None)
    else
      var b := da.buffer[Lowest(da.buffer)];
      assert (da.buffer - {b.Height()}).Keys == da.buffer.Keys - {b.Height()};
      var (da', rest) := PopBuffer(TakeLowest(da), b.Id());
      (da', Highest(Some(b.Height()), rest))
  }

  lemma PopStep(da: Da, last: ProposalHash, top: Option<nat>)
    requires da.buffer != map[] && da.buffer[Lowest(da.buffer)].Parent() == last
    ensures var b := da.buffer[Lowest(da.buffer)];
            var next := PopBuffer(TakeLowest(da), b.Id());
            && PopBuffer(da, last).0 == next.0
            && Highest(top, PopBuffer(da, last).1) == Highest(Highest(top, Some(b.Height())), next.1)
            && |TakeLowest(da).buffer| < |da.buffer|
  {
    var h := Lowest(da.buffer);
    assert (da.buffer - {h}).Keys == da.buffer.Keys - {h};
  }

  /** A block is known, or waits for its parent (or for genesis), or is processed with what follows it. */
  function Handle(da: Da, b: SignedBlock): (Da, Option<nat>) {
    if b.Id() in da.blocks then (da, None)
    else if (if da.blocks != map[] then b.Parent() !in da.blocks else b.Height() != 0) then
      (da.(buffer := Insert(da.buffer, b)), None)
    else
      var (da', rest) := PopBuffer(AddProcessed(da, b), b.Id());
      (da', Some(rest.GetOr(b.Height())))
  }

  function HandleAll(da: Da, arrivals: seq<SignedBlock>): Da
    decreases |arrivals|
  {
    if arrivals == [] then da else HandleAll(Handle(da, arrivals[0]).0, arrivals[1..])
  }

  //  Any blocks at all

  /** Each hash once, and every block but the first after its parent. */
  ghost predicate ParentFirst(emitted: seq<SignedBlock>) {
    && (forall i, j :: 0 <= i < j < |emitted| ==> emitted[i].Id() != emitted[j].Id())
    && (forall j :: 0 < j < |emitted| ==> HasId(emitted[..j], emitted[j].Parent()))
  }

  ghost predicate HasId(blocks: seq<SignedBlock>, id: ProposalHash) {
    exists i :: 0 <= i < |blocks| && blocks[i].Id() == id
  }

  ghost predicate DaInv(da: Da) {
    && ParentFirst(da.emitted)
    && (forall id :: id in da.blocks <==> HasId(da.emitted, id))
    && (da.emitted != [] ==> da.emitted[0].Height() == 0)
    && (forall h :: h in da.buffer ==> if da.emitted == [] then h != 0 else da.buffer[h].Id() != da.emitted[0].Id())
  }

  lemma AddKeepsParentFirst(emitted: seq<SignedBlock>, b: SignedBlock)
    requires ParentFirst(emitted) && !HasId(emitted, b.Id())
    requires emitted != [] ==> HasId(emitted, b.Parent())
    ensures ParentFirst(emitted + [b])
    ensures forall id :: HasId(emitted + [b], id) <==> HasId(emitted, id) || id == b.Id()
  {
    var more := emitted + [b];
    assert forall j :: 0 <= j < |emitted| ==> more[..j] == emitted[..j] && more[j] == emitted[j];
    assert more[..|emitted|] == emitted;
    forall id | HasId(emitted, id) || id == b.Id() ensures HasId(more, id) {
      assert more[|emitted|] == b;
      if HasId(emitted, id) {
        var i :| 0 <= i < |emitted| && emitted[i].Id() == id;
        assert more[i].Id() == id;
      }
    }
  }

  lemma AddKeeps(da: Da, b: SignedBlock)
    requires DaInv(da) && b.Id() !in da.blocks
    requires if da.emitted == [] then b.Height() == 0 else b.Parent() in da.blocks
    ensures DaInv(AddProcessed(da, b))
  {
    AddKeepsParentFirst(da.emitted, b);
  }

  /** A buffered child of the block processed last was never processed itself. */
  lemma PoppedIsNew(da: Da, b: SignedBlock)
    requires DaInv(da) && da.emitted != []
    requires b.Id() != da.emitted[0].Id() && b.Parent() == da.emitted[|da.emitted| - 1].Id()
    ensures b.Id() !in da.blocks && b.Parent() in da.blocks
  {
    var n := |da.emitted| - 1;
    assert HasId(da.emitted, da.emitted[n].Id());
    forall j | 0 <= j <= n ensures da.emitted[j].Id() != b.Id() {
      if j > 0 {
        assert HasId(da.emitted[..j], da.emitted[j].Parent());
        var i :| 0 <= i < j && da.emitted[..j][i].Id() == da.emitted[j].Parent();
        assert da.emitted[i].Id() != da.emitted[n].Id();
      }
    }
  }

  lemma {:induction false} PopKeeps(da: Da, last: ProposalHash)
    requires DaInv(da) && da.emitted != [] && da.emitted[|da.emitted| - 1].Id() == last
    ensures DaInv(PopBuffer(da, last).0) && da.emitted <= PopBuffer(da, last).0.emitted
    decreases |da.buffer|
  {
    if da.buffer != map[] && da.buffer[Lowest(da.buffer)].Parent() == last {
      var b := da.buffer[Lowest(da.buffer)];
      PoppedIsNew(da, b);
      var rest := da.(buffer := da.buffer - {b.Height()});
      assert rest.buffer.Keys == da.buffer.Keys - {b.Height()};
      AddKeeps(rest, b);
      PopKeeps(TakeLowest(da), b.Id());
    }
  }

  lemma HandleKeeps(da: Da, b: SignedBlock)
    requires DaInv(da)
    ensures DaInv(Handle(da, b).0) && da.emitted <= Handle(da, b).0.emitted
  {
    assert da.blocks == map[] <==> da.emitted == [] by {
      if da.emitted != [] {
        assert HasId(da.emitted, da.emitted[0].Id());
      }
    }
    if b.Id() !in da.blocks {
      if if da.blocks != map[] then b.Parent() !in da.blocks else b.Height() != 0 {
        if da.emitted != [] {
          assert HasId(da.emitted, da.emitted[0].Id());
        }
      } else {
        AddKeeps(da, b);
        PopKeeps(AddProcessed(da, b), b.Id());
      }
    }
  }

  lemma {:induction false} HandleAllKeeps(da: Da, arrivals: seq<SignedBlock>)
    requires DaInv(da)
    ensures DaInv(HandleAll(da, arrivals)) && da.emitted <= HandleAll(da, arrivals).emitted
    decreases |arrivals|
  {
    if arrivals != [] {
      HandleKeeps(da, arrivals[0]);
      HandleAllKeeps(Handle(da, arrivals[0]).0, arrivals[1..]);
    }
  }

  /**
    Whatever arrives, forks, holes and repeats included: each block leaves at most once and after
    its parent, the first being a genesis, and what is stored is what has left.
   */
  lemma EmittedOnceParentFirst(arrivals: seq<SignedBlock>)
    ensures var da := HandleAll(EMPTY_DA, arrivals);
            && ParentFirst(da.emitted)
            && (da.emitted != [] ==> da.emitted[0].Height() == 0)
            && (forall id :: id in da.blocks <==> HasId(da.emitted, id))
  {
    HandleAllKeeps(EMPTY_DA, arrivals);
  }

  //  What forks cost

  /** What leaves together with a block is a chain that starts at it. */
  lemma {:induction false} PoppedInChain(da: Da, last: ProposalHash, i: nat)
    requires |da.emitted| <= i < |PopBuffer(da, last).0.emitted|
    ensures da.emitted <= PopBuffer(da, last).0.emitted
    ensures var emitted := PopBuffer(da, last).0.emitted;
            emitted[i].Parent() == if i == |da.emitted| then last else emitted[i - 1].Id()
    decreases |da.buffer|
  {
    var b := da.buffer[Lowest(da.buffer)];
    PopStep(da, last, None);
    var da1 := TakeLowest(da);
    assert da1.emitted == da.emitted + [b];
    PoppedGrows(da1, b.Id());
    if i > |da.emitted| {
      PoppedInChain(da1, b.Id(), i);
    }
  }

  lemma {:induction false} PoppedGrows(da: Da, last: ProposalHash)
    ensures da.emitted <= PopBuffer(da, last).0.emitted
    decreases |da.buffer|
  {
    if da.buffer != map[] && da.buffer[Lowest(da.buffer)].Parent() == last {
      PopStep(da, last, None);
      PoppedGrows(TakeLowest(da), da.buffer[Lowest(da.buffer)].Id());
    }
  }

  lemma LowestChildLeaves(da: Da, last: ProposalHash)
    requires DaInv(da) && da.emitted != [] && da.emitted[|da.emitted| - 1].Id() == last
    requires da.buffer != map[] && da.buffer[Lowest(da.buffer)].Parent() == last
    ensures da.buffer[Lowest(da.buffer)].Id() in PopBuffer(da, last).0.blocks
  {
    var c, da' := da.buffer[Lowest(da.buffer)], PopBuffer(da, last).0;
    PopStep(da, last, None);
    PoppedGrows(TakeLowest(da), c.Id());
    assert da'.emitted[|da.emitted|] == c;
    PopKeeps(da, last);
    assert HasId(da'.emitted, c.Id());
  }

  lemma HigherChildStays(da: Da, last: ProposalHash, c: SignedBlock)
    requires DaInv(da) && da.emitted != [] && da.emitted[|da.emitted| - 1].Id() == last
    requires c.Height() in da.buffer && da.buffer[c.Height()] == c && c.Parent() == last && Lowest(da.buffer) != c.Height()
    ensures c.Id() !in PopBuffer(da, last).0.blocks
  {
    var emitted := PopBuffer(da, last).0.emitted;
    var n := |da.emitted|;
    PopKeeps(da, last);
    PoppedIsNew(da, c);
    forall i | 0 <= i < |emitted| ensures emitted[i].Id() != c.Id() {
      if i < n {
        assert emitted[i] == da.emitted[i] && HasId(da.emitted, emitted[i].Id());
      } else {
        NotTheChild(da, last, c, i);
      }
    }
  }

  lemma NotTheChild(da: Da, last: ProposalHash, c: SignedBlock, i: nat)
    requires da.emitted != [] && da.emitted[|da.emitted| - 1].Id() == last && ParentFirst(PopBuffer(da, last).0.emitted)
    requires da.buffer != map[] && c.Parent() == last && Lowest(da.buffer) != c.Height()
    requires |da.emitted| <= i < |PopBuffer(da, last).0.emitted|
    ensures PopBuffer(da, last).0.emitted[i].Id() != c.Id()
  {
    PoppedInChain(da, last, i);
    FirstPoppedIsLowest(da, last);
  }

  /** A buffered child of the block just processed leaves with it exactly when nothing lower is buffered. */
  lemma ChildLeavesIff(da: Da, last: ProposalHash, h: nat)
    requires DaInv(da) && da.emitted != [] && da.emitted[|da.emitted| - 1].Id() == last
    requires h in da.buffer && da.buffer[h].Parent() == last
    ensures da.buffer[h].Id() in PopBuffer(da, last).0.blocks <==> Lowest(da.buffer) == h
  {
    if Lowest(da.buffer) == h {
      LowestChildLeaves(da, last);
    } else {
      HigherChildStays(da, last, da.buffer[h]);
    }
  }

  lemma FirstPoppedIsLowest(da: Da, last: ProposalHash)
    requires |PopBuffer(da, last).0.emitted| > |da.emitted|
    ensures da.buffer != map[] && PopBuffer(da, last).0.emitted[|da.emitted|] == da.buffer[Lowest(da.buffer)]
  {
    PopStep(da, last, None);
    PoppedGrows(TakeLowest(da), da.buffer[Lowest(da.buffer)].Id());
  }

  /** A block that has to wait is kept exactly when its height is free (or it is there already); otherwise it is dropped. */
  lemma EarlyKeptIff(da: Da, b: SignedBlock)
    requires b.Id() !in da.blocks && if da.blocks != map[] then b.Parent() !in da.blocks else b.Height() != 0
    ensures var da' := Handle(da, b).0;
            && (da'.buffer[b.Height()] == b <==> b.Height() !in da.buffer || da.buffer[b.Height()] == b)
            && (b.Height() in da.buffer ==> Handle(da, b) == (da, None))
  {}

  /**
    So one stray block can cost a genuine one: a block of the same height that came first keeps the
    genuine one out of the buffer, and the chain stops below it although all its blocks arrived.
   */
  lemma StrayCostsBlock(g: SignedBlock, a: SignedBlock, b: SignedBlock, x: SignedBlock)
    requires g.Height() == 0 && a.Height() == 1 && b.Height() == 2 && x.Height() == 2
    requires a.Parent() == g.Id() && b.Parent() == a.Id() && x.Parent() != a.Id() && x.Parent() != g.Id()
    ensures HandleAll(EMPTY_DA, [x, b, g, a]) == Da(map[g.Id() := g, a.Id() := a], map[2 := x], [g, a])
    ensures b.Id() !in HandleAll(EMPTY_DA, [x, b, g, a]).blocks
  {
    var waiting: Buffer := map[2 := x];
    var da1 := Da(map[], waiting, []);
    var da2 := Da(map[g.Id() := g], waiting, [g]);
    var da3 := Da(map[g.Id() := g, a.Id() := a], waiting, [g, a]);
    assert Lowest(waiting) == 2;
    assert Handle(EMPTY_DA, x).0 == da1 && Handle(da1, b).0 == da1;
    assert AddProcessed(da1, g) == da2 && PopBuffer(da2, g.Id()) == (da2, None);
    assert AddProcessed(da2, a) == da3 && PopBuffer(da3, a.Id()) == (da3, None);
    HandleFour(EMPTY_DA, x, b, g, a);
  }

  lemma HandleFour(da: Da, w: SignedBlock, x: SignedBlock, y: SignedBlock, z: SignedBlock)
    ensures HandleAll(da, [w, x, y, z]) == Handle(Handle(Handle(Handle(da, w).0, x).0, y).0, z).0
  {
    var four, three, two, one := [w, x, y, z], [x, y, z], [y, z], [z];
    assert four[1..] == three && three[1..] == two && two[1..] == one && one[1..] == [];
    var da1 := Handle(da, w).0;
    var da2 := Handle(da1, x).0;
    var da3 := Handle(da2, y).0;
    assert HandleAll(da, four) == HandleAll(da1, three);
    assert HandleAll(da1, three) == HandleAll(da2, two);
    assert HandleAll(da2, two) == HandleAll(da3, one);
    assert HandleAll(da3, one) == HandleAll(Handle(da3, z).0, []);
  }

  //  The blocks of one chain

  /** The hashes of a chain of blocks, genesis first. */
  ghost predicate Chain(c: seq<ProposalHash>) {
    forall i :: 0 <= i < |c| ==> c[i].Digest? && c[i].slot == i && (i > 0 ==> c[i].parent == c[i - 1])
  }

  /** A block of the chain; its data and certificate may differ between peers. */
  ghost predicate OnChain(c: seq<ProposalHash>, b: SignedBlock) {
    b.Height() < |c| && b.Id() == c[b.Height()]
  }

  /** The blocks below `k` are stored, and those above `k` wait. `seen` are the heights that arrived. */
  ghost predicate Reached(c: seq<ProposalHash>, seen: set<nat>, k: nat, da: Da) {
    && k <= |c| && |da.emitted| == k
    && (forall i :: 0 <= i < k ==> i in seen && OnChain(c, da.emitted[i]) && da.emitted[i].Height() == i)
    && (forall i :: 0 <= i < |c| ==> (c[i] in da.blocks <==> i < k))
    && (da.blocks == map[] <==> k == 0)
    && (forall h :: h in da.buffer ==> OnChain(c, da.buffer[h]))
    && (forall h :: h in da.buffer <==> h in seen && h >= k)
  }

  lemma AddReaches(c: seq<ProposalHash>, seen: set<nat>, k: nat, da: Da, b: SignedBlock)
    requires Chain(c) && Reached(c, seen, k, da) && k !in da.buffer
    requires OnChain(c, b) && b.Height() == k
    ensures Reached(c, seen + {k}, k + 1, AddProcessed(da, b))
  {
    assert b.Id() !in da.blocks;
    assert forall i :: 0 <= i < |c| && i != k ==> c[i] != b.Id();
  }

  lemma PopOne(c: seq<ProposalHash>, seen: set<nat>, k: nat, da: Da, b: SignedBlock)
    requires Chain(c) && Reached(c, seen, k, da) && k in da.buffer && b == da.buffer[k]
    ensures Reached(c, seen, k + 1, AddProcessed(da.(buffer := da.buffer - {k}), b))
  {
    var rest := da.(buffer := da.buffer - {k});
    var without := seen - {k};
    assert Reached(c, without, k, rest);
    AddReaches(c, without, k, rest, b);
    assert without + {k} == seen;
  }

  lemma PopStopsAtGap(c: seq<ProposalHash>, seen: set<nat>, k: nat, da: Da)
    requires Chain(c) && Reached(c, seen, k, da) && k > 0 && k !in seen
    ensures PopBuffer(da, c[k - 1]) == (da, None)
  {
    if da.buffer != map[] {
      var h := Lowest(da.buffer);
      assert OnChain(c, da.buffer[h]) && h > k;
      assert c[h - 1] != c[k - 1];
    }
  }

  lemma PopTakesNext(c: seq<ProposalHash>, seen: set<nat>, k: nat, da: Da)
    requires Chain(c) && Reached(c, seen, k, da) && k > 0 && k in seen
    ensures k < |c| && da.buffer != map[] && Reached(c, seen, k + 1, TakeLowest(da)) && |TakeLowest(da).buffer| < |da.buffer|
    ensures var next := PopBuffer(TakeLowest(da), c[k]);
            PopBuffer(da, c[k - 1]) == (next.0, Highest(Some(k), next.1))
  {
    assert k in da.buffer && Lowest(da.buffer) == k && OnChain(c, da.buffer[k]);
    PopOne(c, seen, k, da, da.buffer[k]);
    PopStep(da, c[k - 1], None);
  }

  /** The highest height processed when the reached height moves from `k` to `k'`. */
  predicate Topped(top: Option<nat>, k: nat, k': nat) {
    if k' > k then top == Some(k' - 1) else top == None
  }

  lemma ToppedStep(top: Option<nat>, k: nat, k': nat)
    requires Topped(top, k + 1, k') && k' > k
    ensures Topped(Highest(Some(k), top), k, k') && Topped(Some(top.GetOr(k)), k, k')
  {}

  lemma {:induction false} PopReaches(c: seq<ProposalHash>, seen: set<nat>, k: nat, da: Da) returns (k': nat)
    requires Chain(c) && Reached(c, seen, k, da) && k > 0
    ensures k' >= k && k' !in seen && Reached(c, seen, k', PopBuffer(da, c[k - 1]).0)
    ensures Topped(PopBuffer(da, c[k - 1]).1, k, k')
    decreases |da.buffer|
  {
    if k in seen {
      PopTakesNext(c, seen, k, da);
      k' := PopReaches(c, seen, k + 1, TakeLowest(da));
      ToppedStep(PopBuffer(TakeLowest(da), c[k]).1, k, k');
    } else {
      PopStopsAtGap(c, seen, k, da);
      k' := k;
    }
  }

  lemma KnownChangesNothing(c: seq<ProposalHash>, seen: set<nat>, k: nat, da: Da, b: SignedBlock)
    requires Chain(c) && Reached(c, seen, k, da) && OnChain(c, b) && b.Height() < k
    ensures Handle(da, b) == (da, None) && seen + {b.Height()} == seen
  {}

  lemma EarlyWaits(c: seq<ProposalHash>, seen: set<nat>, k: nat, da: Da, b: SignedBlock)
    requires Chain(c) && Reached(c, seen, k, da) && k !in seen && OnChain(c, b) && b.Height() > k
    ensures Handle(da, b) == (da.(buffer := Insert(da.buffer, b)), None)
    ensures Reached(c, seen + {b.Height()}, k, Handle(da, b).0)
  {
    assert b.Parent() == c[b.Height() - 1];
  }

  lemma NextIsProcessed(c: seq<ProposalHash>, seen: set<nat>, k: nat, da: Da, b: SignedBlock)
    requires Chain(c) && Reached(c, seen, k, da) && k !in seen && OnChain(c, b) && b.Height() == k
    ensures var (da', rest) := PopBuffer(AddProcessed(da, b), c[k]);
            Handle(da, b) == (da', Some(rest.GetOr(k)))
  {
    assert k > 0 ==> b.Parent() == c[k - 1];
  }

  /** One arrival: the reached height moves exactly past what is now contiguous, and is returned. */
  lemma HandleReaches(c: seq<ProposalHash>, seen: set<nat>, k: nat, da: Da, b: SignedBlock) returns (k': nat)
    requires Chain(c) && Reached(c, seen, k, da) && k !in seen && OnChain(c, b)
    ensures k' >= k && k' !in seen + {b.Height()} && Reached(c, seen + {b.Height()}, k', Handle(da, b).0)
    ensures Topped(Handle(da, b).1, k, k')
  {
    var h := b.Height();
    k' := k;
    if h < k {
      KnownChangesNothing(c, seen, k, da, b);
    } else if h > k {
      EarlyWaits(c, seen, k, da, b);
    } else {
      AddReaches(c, seen, k, da, b);
      NextIsProcessed(c, seen, k, da, b);
      k' := PopReaches(c, seen + {k}, k + 1, AddProcessed(da, b));
      ToppedStep(PopBuffer(AddProcessed(da, b), c[k]).1, k, k');
    }
  }

  function Heights(arrivals: seq<SignedBlock>): set<nat> {
    set i | 0 <= i < |arrivals| :: arrivals[i].Height()
  }

  lemma {:induction false} RunReaches(c: seq<ProposalHash>, seen: set<nat>, k: nat, da: Da, arrivals: seq<SignedBlock>)
    returns (k': nat)
    requires Chain(c) && Reached(c, seen, k, da) && k !in seen
    requires forall i :: 0 <= i < |arrivals| ==> OnChain(c, arrivals[i])
    ensures k' !in seen + Heights(arrivals) && Reached(c, seen + Heights(arrivals), k', HandleAll(da, arrivals))
    decreases |arrivals|
  {
    if arrivals == [] {
      k' := k;
      assert seen + Heights(arrivals) == seen;
    } else {
      var h := arrivals[0].Height();
      var next := HandleReaches(c, seen, k, da, arrivals[0]);
      k' := RunReaches(c, seen + {h}, next, Handle(da, arrivals[0]).0, arrivals[1..]);
      HeightsSplit(arrivals);
      assert seen + {h} + Heights(arrivals[1..]) == seen + Heights(arrivals);
    }
  }

  lemma HeightsSplit(arrivals: seq<SignedBlock>)
    requires arrivals != []
    ensures Heights(arrivals) == {arrivals[0].Height()} + Heights(arrivals[1..])
  {
    var rest := arrivals[1..];
    assert forall i :: 0 <= i < |rest| ==> rest[i] == arrivals[i + 1];
    forall h | h in Heights(arrivals) ensures h == arrivals[0].Height() || h in Heights(rest) {
      var i :| 0 <= i < |arrivals| && arrivals[i].Height() == h;
      assert i > 0 ==> rest[i - 1].Height() == h;
    }
    forall h | h in Heights(rest) ensures h in Heights(arrivals) {
      var i :| 0 <= i < |rest| && rest[i].Height() == h;
      assert arrivals[i + 1].Height() == h;
    }
  }

  /**
    For every order and repetition of the blocks of one chain, what leaves is the chain up to the
    first height that did not arrive, in order; exactly that is stored, and the rest waits.
   */
  lemma ChainLeavesInOrder(c: seq<ProposalHash>, arrivals: seq<SignedBlock>)
    requires Chain(c) && forall i :: 0 <= i < |arrivals| ==> OnChain(c, arrivals[i])
    ensures var da := HandleAll(EMPTY_DA, arrivals);
            var k := |da.emitted|;
            && k <= |c| && k !in Heights(arrivals)
            && (forall i :: 0 <= i < k ==> i in Heights(arrivals) && da.emitted[i].Id() == c[i])
            && (forall i :: 0 <= i < |c| ==> (c[i] in da.blocks <==> i < k))
            && (forall h :: h in da.buffer <==> h in Heights(arrivals) && h > k)
  {
    var k := RunReaches(c, {}, 0, EMPTY_DA, arrivals);
    assert {} + Heights(arrivals) == Heights(arrivals);
  }

  /** Once all blocks have arrived, all have left and the buffer is empty. */
  lemma CompleteChainLeaves(c: seq<ProposalHash>, arrivals: seq<SignedBlock>)
    requires Chain(c) && forall i :: 0 <= i < |arrivals| ==> OnChain(c, arrivals[i])
    requires forall h :: 0 <= h < |c| ==> h in Heights(arrivals)
    ensures var da := HandleAll(EMPTY_DA, arrivals);
            && |da.emitted| == |c| && da.buffer == map[]
            && forall i :: 0 <= i < |c| ==> da.emitted[i].Id() == c[i]
  {
    ChainLeavesInOrder(c, arrivals);
    forall h | h in Heights(arrivals) ensures h < |c| {
      var i :| 0 <= i < |arrivals| && arrivals[i].Height() == h;
      assert OnChain(c, arrivals[i]);
    }
  }

  //  The node

  class DaNode {
    var blocks: map<ProposalHash, SignedBlock>
    var buffer: Buffer
    var emitted: seq<SignedBlock>

    ghost function State(): Da
      reads this
    {
      Da(blocks, buffer, emitted)
    }

    constructor ()
      ensures State() == EMPTY_DA
    {
      blocks, buffer, emitted := map[], map[], [];
    }

    method AddProcessedBlock(b: SignedBlock)
      modifies this`blocks, this`emitted
      ensures State() == AddProcessed(old(State()), b)
    {
      if b.Id() !in blocks {
        blocks := blocks[b.Id() := b];
      }
      emitted := emitted + [b];
    }

    method Pop(hash: ProposalHash) returns (top: Option<nat>)
      modifies this
      ensures (State(), top) == PopBuffer(old(State()), hash)
    {
      top := None;
      var last := hash;
      while buffer != map[]
        invariant PopBuffer(old(State()), hash) == (PopBuffer(State(), last).0, Highest(top, PopBuffer(State(), last).1))
        decreases |buffer|
      {
        var h := Lowest(buffer);
        var b := buffer[h];
        if b.Parent() != last {
          break;
        }
        PopStep(State(), last, top);
        buffer := buffer - {h};
        AddProcessedBlock(b);
        last := b.Id();
        top := Highest(top, Some(h));
      }
    }

    /** The height up to which blocks were processed by this one, if any was. */
    method HandleSignedBlock(b: SignedBlock) returns (top: Option<nat>)
      modifies this
      ensures (State(), top) == Handle(old(State()), b)
      ensures old(DaInv(State())) ==> DaInv(State())
    {
      KeepsInv(State(), b);
      if b.Id() in blocks {
        return None;
      }
      if blocks != map[] {
        if b.Parent() !in blocks {
          buffer := Insert(buffer, b);
          return None;
        }
      } else if b.Height() != 0 {
        buffer := Insert(buffer, b);
        return None;
      }
      AddProcessedBlock(b);
      var rest := Pop(b.Id());
      top := Some(rest.GetOr(b.Height()));
    }
  }

  lemma KeepsInv(da: Da, b: SignedBlock)
    ensures DaInv(da) ==> DaInv(Handle(da, b).0)
  {
    if DaInv(da) {
      HandleKeeps(da, b);
    }
  }
}
