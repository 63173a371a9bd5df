/**
  The prepares a node has seen: the history it can replay to a peer, and the future prepares it
  will fast-forward through.
 */
module PrepareBuffer {
  import opened Model
  import opened Messages

  datatype RawBuffer = RawBuffer(prepares: map<ProposalHash, Prepare>, children: map<ProposalHash, ProposalHash>)

  /** Prepares are filed under their own hash, and a child entry points at a filed child. */
  ghost predicate Filed(b: RawBuffer) {
    && (forall h :: h in b.prepares ==> Hash(b.prepares[h].proposal) == h)
    && (forall h :: h in b.children ==>
          && b.children[h] in b.prepares
          && b.prepares[b.children[h]].proposal.parentHash == h)
  }

  type Buffer = b: RawBuffer | Filed(b) witness RawBuffer(map[], map[])

  function Push(b: Buffer, p: Prepare): (r: Buffer)
    ensures r.prepares.Keys == b.prepares.Keys + {Hash(p.proposal)}
  {
    var h := Hash(p.proposal);
    var r := RawBuffer(b.prepares[h := p], b.children[p.proposal.parentHash := h]);
    assert forall k :: k in b.children && b.children[k] == h ==> Hash(b.prepares[h].proposal).parent == k;
    r
  }

  function NextPrepare(b: Buffer, h: ProposalHash): (r: Option<Prepare>)
    ensures r.Some? ==> r.value.proposal.parentHash == h && Hash(r.value.proposal) in b.prepares
  {
    if h in b.children then Some(b.prepares[b.children[h]]) else None
  }

  //  The push history

  function BufferOf(history: seq<Prepare>): Buffer {
    if history == [] then RawBuffer(map[], map[])
    else Push(BufferOf(history[..|history| - 1]), history[|history| - 1])
  }

  /** The last push of the history whose proposal has parent `h`. */
  function LastChild(history: seq<Prepare>, h: ProposalHash): Option<Prepare> {
    if history == [] then None
    else
      var last := history[|history| - 1];
      if last.proposal.parentHash == h then Some(last) else LastChild(history[..|history| - 1], h)
  }

  function LastPush(history: seq<Prepare>, h: ProposalHash): Option<Prepare> {
    if history == [] then None
    else
      var last := history[|history| - 1];
      if Hash(last.proposal) == h then Some(last) else LastPush(history[..|history| - 1], h)
  }

  lemma {:induction false} BufferAgreesWithHistory(history: seq<Prepare>, h: ProposalHash)
    ensures NextPrepare(BufferOf(history), h) == LastChild(history, h)
    ensures LastPush(history, h) ==
            if h in BufferOf(history).prepares then Some(BufferOf(history).prepares[h]) else None
  {
    if history != [] {
      var before := history[..|history| - 1];
      var last := history[|history| - 1];
      BufferAgreesWithHistory(before, h);
      assert BufferOf(history) == Push(BufferOf(before), last);
    }
  }

  //  The missing-parent walk

  /** Nearest ancestor, starting with `h` itself, that is not buffered; none if `known` comes first. */
  function FirstMissing(b: Buffer, h: ProposalHash, known: ProposalHash): Option<ProposalHash>
    decreases h
  {
    if h !in b.prepares then Some(h)
    else if h == known then None
    else
      assert Hash(b.prepares[h].proposal) == h;
      FirstMissing(b, b.prepares[h].proposal.parentHash, known)
  }

  /** The `n`-th ancestor of `h`, as far as hashes alone tell. */
  function Ancestor(h: ProposalHash, n: nat): Option<ProposalHash> {
    if n == 0 then Some(h)
    else if h.Named? then None
    else Ancestor(h.parent, n - 1)
  }

  ghost predicate FirstOutside(b: Buffer, h: ProposalHash, n: nat) {
    && Ancestor(h, n).Some?
    && Ancestor(h, n).value !in b.prepares
    && forall k :: 0 <= k < n ==> Ancestor(h, k).Some? && Ancestor(h, k).value in b.prepares
  }

  /**
    A walk that asks for a hash asks for the first ancestor that is not buffered, with `known`
    nowhere on the way; a walk that asks for nothing reached `known` through buffered ancestors.
   */
  lemma {:induction false} WalkFindsFirstMissing(b: Buffer, h: ProposalHash, known: ProposalHash) returns (n: nat)
    ensures forall k :: 0 <= k < n ==>
      Ancestor(h, k).Some? && Ancestor(h, k).value in b.prepares && Ancestor(h, k).value != known
    ensures match FirstMissing(b, h, known)
            case Some(m) => FirstOutside(b, h, n) && Ancestor(h, n) == Some(m)
            case None => Ancestor(h, n) == Some(known) && known in b.prepares
    decreases h
  {
    if h !in b.prepares || h == known {
      n := 0;
    } else {
      assert Hash(b.prepares[h].proposal) == h;
      var m := WalkFindsFirstMissing(b, h.parent, known);
      n := m + 1;
      forall k | 0 <= k < n
        ensures Ancestor(h, k).Some? && Ancestor(h, k).value in b.prepares && Ancestor(h, k).value != known
      {
        if k > 0 {
          assert Ancestor(h, k) == Ancestor(h.parent, k - 1);
        }
      }
    }
  }

  //  The program's object

  class BufferedPrepares {
    var prepares: map<ProposalHash, Prepare>
    var children: map<ProposalHash, ProposalHash>

    ghost predicate Valid() reads this {
      Filed(RawBuffer(prepares, children))
    }

    ghost function Contents(): Buffer
      requires Valid()
      reads this
    {
      RawBuffer(prepares, children)
    }

    constructor ()
      ensures Valid() && Contents() == BufferOf([])
    {
      prepares, children := map[], map[];
    }

    constructor From(saved: Buffer)
      ensures Valid() && Contents() == saved
    {
      prepares, children := saved.prepares, saved.children;
    }

    method AddPrepare(p: Prepare)
      requires Valid()
      modifies this
      ensures Valid() && Contents() == Push(old(Contents()), p)
    {
      ghost var after := Push(Contents(), p);
      var hash := Hash(p.proposal);
      children := children[p.proposal.parentHash := hash];
      prepares := prepares[hash := p];
      assert RawBuffer(prepares, children) == after;
    }

    method Next(h: ProposalHash) returns (p: Option<Prepare>)
      requires Valid()
      ensures p == NextPrepare(Contents(), h)
    {
      p := if h in children then Some(prepares[children[h]]) else None;
    }

    /** Walks from `start` through buffered parents towards `known`. */
    method FindMissing(start: ProposalHash, known: ProposalHash) returns (missing: Option<ProposalHash>)
      requires Valid()
      ensures missing == FirstMissing(Contents(), start, known)
    {
      var h := start;
      while h in prepares
        invariant FirstMissing(Contents(), start, known) == FirstMissing(Contents(), h, known)
        decreases h
      {
        if h == known {
          return None;
        }
        assert Hash(prepares[h].proposal) == h;
        h := prepares[h].proposal.parentHash;
      }
      missing := Some(h);
    }
  }

}
