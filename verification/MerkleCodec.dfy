/**
  The byte format of Merkle proofs: counts as little-endian u32, hashes of 32 bytes, and a marker
  byte before each step of the path.
 */
module MerkleCodec {

  type Byte = b: nat | b < 256
  type Hash32 = h: seq<Byte> | |h| == 32 witness seq(32, _ => 0)

  datatype MergeValue = Value(hash: Hash32) | MergeWithZero(baseNode: Hash32, zeroBits: Hash32, zeroCount: Byte)
  datatype MerkleProof = MerkleProof(leaves: seq<Hash32>, path: seq<MergeValue>)

  const TWO_TO_32: nat := 0x1_0000_0000

  datatype Error = UnexpectedEnd | InvalidMarker

  /** A value read from the front of the input and what follows it, or why there is none. */
  datatype Parsed<+T> = Done(value: T, rest: seq<Byte>) | Fail(error: Error)

  //  Counts

  const U32_BYTES: nat := 4

  function Power256(width: nat): nat {
    if width == 0 then 1 else 256 * Power256(width - 1)
  }

  /** The lowest `width` bytes of a number, lowest first. */
  function EncodeLe(width: nat, n: nat): (bytes: seq<Byte>)
    ensures |bytes| == width
  {
    if width == 0 then [] else [n % 256] + EncodeLe(width - 1, n / 256)
  }

  function DecodeLe(bytes: seq<Byte>): nat {
    if bytes == [] then 0 else bytes[0] + 256 * DecodeLe(bytes[1..])
  }

  lemma {:induction false} LeRoundTrip(width: nat, n: nat)
    requires n < Power256(width)
    ensures DecodeLe(EncodeLe(width, n)) == n
  {
    if width > 0 {
      LeRoundTrip(width - 1, n / 256);
      assert EncodeLe(width, n)[1..] == EncodeLe(width - 1, n / 256);
    }
  }

  lemma {:induction false} LeCanonical(bytes: seq<Byte>)
    ensures DecodeLe(bytes) < Power256(|bytes|) && EncodeLe(|bytes|, DecodeLe(bytes)) == bytes
  {
    if bytes != [] {
      LeCanonical(bytes[1..]);
      assert DecodeLe(bytes) % 256 == bytes[0] && DecodeLe(bytes) / 256 == DecodeLe(bytes[1..]);
    }
  }

  lemma U32Range()
    ensures Power256(U32_BYTES) == TWO_TO_32
  {
    assert Power256(3) == 256 * Power256(2) == 0x100_0000;
  }

  /** A count is truncated to 32 bits before it is written. */
  function EncodeU32(count: nat): seq<Byte> {
    EncodeLe(U32_BYTES, count % TWO_TO_32)
  }

  function DecodeU32(bytes: seq<Byte>): Parsed<nat> {
    if |bytes| < U32_BYTES then Fail(UnexpectedEnd)
    else Done(DecodeLe(bytes[..U32_BYTES]), bytes[U32_BYTES..])
  }

  lemma U32RoundTrip(n: nat, rest: seq<Byte>)
    ensures DecodeU32(EncodeU32(n) + rest) == Done(n % TWO_TO_32, rest)
  {
    U32Range();
    LeRoundTrip(U32_BYTES, n % TWO_TO_32);
    var bytes := EncodeU32(n) + rest;
    assert bytes[..U32_BYTES] == EncodeU32(n) && bytes[U32_BYTES..] == rest;
  }

  lemma U32Canonical(bytes: seq<Byte>)
    requires |bytes| >= U32_BYTES
    ensures var r := DecodeU32(bytes); r.Done? && r.value < TWO_TO_32 && bytes == EncodeU32(r.value) + r.rest
  {
    U32Range();
    LeCanonical(bytes[..U32_BYTES]);
    assert bytes == bytes[..U32_BYTES] + bytes[U32_BYTES..];
  }

  //  Repetition

  /** Adds what was read before to what is read next. */
  function Onto<T>(before: seq<T>, next: Parsed<seq<T>>): Parsed<seq<T>> {
    match next
    case Done(more, rest) => Done(before + more, rest)
    case Fail(e) => Fail(e)
  }

  lemma OntoStep<T>(before: seq<T>, x: T, next: Parsed<seq<T>>)
    ensures Onto(before + [x], next) == Onto(before, Onto([x], next))
  {
    if next.Done? {
      assert before + [x] + next.value == before + ([x] + next.value);
    }
  }

  lemma OntoNothing<T>(next: Parsed<seq<T>>)
    ensures Onto([], next) == next
  {
    if next.Done? {
      assert [] + next.value == next.value;
    }
  }

  lemma Reassociate(a: seq<Byte>, b: seq<Byte>, c: seq<Byte>)
    ensures a + b + c == a + (b + c)
  {}

  //  Leaves

  function EncodeLeaves(leaves: seq<Hash32>): seq<Byte> {
    if leaves == [] then [] else leaves[0] + EncodeLeaves(leaves[1..])
  }

  function DecodeLeaves(n: nat, bytes: seq<Byte>): Parsed<seq<Hash32>>
    decreases n
  {
    if n == 0 then Done([], bytes)
    else if |bytes| < 32 then Fail(UnexpectedEnd)
    else
      var leaf: Hash32 := bytes[..32];
      Onto([leaf], DecodeLeaves(n - 1, bytes[32..]))
  }

  lemma {:induction false} LeavesRoundTrip(leaves: seq<Hash32>, rest: seq<Byte>)
    ensures DecodeLeaves(|leaves|, EncodeLeaves(leaves) + rest) == Done(leaves, rest)
  {
    if leaves == [] {
      assert EncodeLeaves(leaves) + rest == rest;
    } else {
      var bytes := EncodeLeaves(leaves) + rest;
      assert bytes[..32] == leaves[0] && bytes[32..] == EncodeLeaves(leaves[1..]) + rest;
      LeavesRoundTrip(leaves[1..], rest);
      assert leaves == [leaves[0]] + leaves[1..];
    }
  }

  lemma {:induction false} LeavesCanonical(n: nat, bytes: seq<Byte>)
    requires DecodeLeaves(n, bytes).Done?
    ensures var r := DecodeLeaves(n, bytes); |r.value| == n && bytes == EncodeLeaves(r.value) + r.rest
  {
    if n > 0 {
      LeavesCanonical(n - 1, bytes[32..]);
      var r := DecodeLeaves(n, bytes);
      assert r.value[1..] == DecodeLeaves(n - 1, bytes[32..]).value;
      assert bytes == bytes[..32] + bytes[32..];
    }
  }

  //  Path

  function EncodeItem(item: MergeValue): seq<Byte> {
    match item
    case Value(h) => [0] + h
    case MergeWithZero(base, bits, count) => [1] + base + bits + [count]
  }

  function DecodeItem(bytes: seq<Byte>): Parsed<MergeValue> {
    if bytes == [] then Fail(UnexpectedEnd)
    else if bytes[0] == 0 then
      if |bytes| < 33 then Fail(UnexpectedEnd) else Done(Value(bytes[1..33]), bytes[33..])
    else if bytes[0] == 1 then
      if |bytes| < 66 then Fail(UnexpectedEnd)
      else Done(MergeWithZero(bytes[1..33], bytes[33..65], bytes[65]), bytes[66..])
    else Fail(InvalidMarker)
  }

  function EncodePath(path: seq<MergeValue>): seq<Byte> {
    if path == [] then [] else EncodeItem(path[0]) + EncodePath(path[1..])
  }

  function DecodePath(n: nat, bytes: seq<Byte>): Parsed<seq<MergeValue>>
    decreases n
  {
    if n == 0 then Done([], bytes)
    else
      match DecodeItem(bytes)
      case Fail(e) => Fail(e)
      case Done(item, rest) => Onto([item], DecodePath(n - 1, rest))
  }

  lemma ItemRoundTrip(item: MergeValue, rest: seq<Byte>)
    ensures DecodeItem(EncodeItem(item) + rest) == Done(item, rest)
  {
    var bytes := EncodeItem(item) + rest;
    match item
    case Value(h) =>
      assert bytes[1..33] == h && bytes[33..] == rest;
    case MergeWithZero(base, bits, count) =>
      assert bytes[1..33] == base && bytes[33..65] == bits && bytes[66..] == rest;
  }

  lemma ItemCanonical(bytes: seq<Byte>)
    requires DecodeItem(bytes).Done?
    ensures bytes == EncodeItem(DecodeItem(bytes).value) + DecodeItem(bytes).rest
  {}

  lemma {:induction false} PathRoundTrip(path: seq<MergeValue>, rest: seq<Byte>)
    ensures DecodePath(|path|, EncodePath(path) + rest) == Done(path, rest)
  {
    if path == [] {
      assert EncodePath(path) + rest == rest;
    } else {
      var item, tail := EncodeItem(path[0]), EncodePath(path[1..]);
      Reassociate(item, tail, rest);
      ItemRoundTrip(path[0], tail + rest);
      PathRoundTrip(path[1..], rest);
      assert path == [path[0]] + path[1..];
    }
  }

  lemma {:induction false} PathCanonical(n: nat, bytes: seq<Byte>)
    requires DecodePath(n, bytes).Done?
    ensures var r := DecodePath(n, bytes); |r.value| == n && bytes == EncodePath(r.value) + r.rest
    decreases n
  {
    if n > 0 {
      ItemCanonical(bytes);
      var item := DecodeItem(bytes);
      PathCanonical(n - 1, item.rest);
      var r := DecodePath(n, bytes);
      assert r.value[1..] == DecodePath(n - 1, item.rest).value;
      Reassociate(EncodeItem(item.value), EncodePath(r.value[1..]), r.rest);
    }
  }

  //  Proofs

  function EncodeTail(path: seq<MergeValue>): seq<Byte> {
    EncodeU32(|path|) + EncodePath(path)
  }

  function Encode(p: MerkleProof): seq<Byte> {
    EncodeU32(|p.leaves|) + EncodeLeaves(p.leaves) + EncodeTail(p.path)
  }

  function DecodeTail(leaves: seq<Hash32>, bytes: seq<Byte>): Parsed<MerkleProof> {
    match DecodeU32(bytes)
    case Fail(e) => Fail(e)
    case Done(pathLen, rest) =>
      match DecodePath(pathLen, rest)
      case Fail(e) => Fail(e)
      case Done(path, rest) => Done(MerkleProof(leaves, path), rest)
  }

  function Decode(bytes: seq<Byte>): Parsed<MerkleProof> {
    match DecodeU32(bytes)
    case Fail(e) => Fail(e)
    case Done(leafCount, rest) =>
      match DecodeLeaves(leafCount, rest)
      case Fail(e) => Fail(e)
      case Done(leaves, rest) => DecodeTail(leaves, rest)
  }

  predicate Fits(p: MerkleProof) {
    |p.leaves| < TWO_TO_32 && |p.path| < TWO_TO_32
  }

  lemma CountRoundTrip(n: nat, bytes: seq<Byte>, rest: seq<Byte>)
    requires n < TWO_TO_32 && bytes == EncodeU32(n) + rest
    ensures DecodeU32(bytes) == Done(n, rest)
  {
    U32RoundTrip(n, rest);
  }

  lemma TailRoundTrip(p: MerkleProof, suffix: seq<Byte>)
    requires Fits(p)
    ensures DecodeTail(p.leaves, EncodeTail(p.path) + suffix) == Done(p, suffix)
  {
    var bytes, body := EncodeTail(p.path) + suffix, EncodePath(p.path) + suffix;
    Reassociate(EncodeU32(|p.path|), EncodePath(p.path), suffix);
    CountRoundTrip(|p.path|, bytes, body);
    PathRoundTrip(p.path, suffix);
  }

  lemma Layout(p: MerkleProof, suffix: seq<Byte>)
    ensures Encode(p) + suffix == EncodeU32(|p.leaves|) + (EncodeLeaves(p.leaves) + (EncodeTail(p.path) + suffix))
  {
    var count := EncodeU32(|p.leaves|);
    Reassociate(count + EncodeLeaves(p.leaves), EncodeTail(p.path), suffix);
    Reassociate(count, EncodeLeaves(p.leaves), EncodeTail(p.path) + suffix);
  }

  lemma EncodedThenDecoded(p: MerkleProof, suffix: seq<Byte>)
    requires Fits(p)
    ensures Decode(Encode(p) + suffix) == Done(p, suffix)
  {
    var bytes := Encode(p) + suffix;
    var tail := EncodeTail(p.path) + suffix;
    Layout(p, suffix);
    CountRoundTrip(|p.leaves|, bytes, EncodeLeaves(p.leaves) + tail);
    LeavesRoundTrip(p.leaves, tail);
    TailRoundTrip(p, suffix);
  }

  lemma TailCanonical(leaves: seq<Hash32>, bytes: seq<Byte>)
    requires DecodeTail(leaves, bytes).Done?
    ensures var r := DecodeTail(leaves, bytes);
            r.value.leaves == leaves && |r.value.path| < TWO_TO_32 && bytes == EncodeTail(r.value.path) + r.rest
  {
    var len := DecodeU32(bytes);
    U32Canonical(bytes);
    PathCanonical(len.value, len.rest);
    var path := DecodePath(len.value, len.rest);
    Reassociate(EncodeU32(len.value), EncodePath(path.value), path.rest);
  }

  /** A successful decoding has consumed exactly the encoding of what it returns. */
  lemma DecodedThenEncoded(bytes: seq<Byte>)
    requires Decode(bytes).Done?
    ensures Fits(Decode(bytes).value) && bytes == Encode(Decode(bytes).value) + Decode(bytes).rest
  {
    var count := DecodeU32(bytes);
    U32Canonical(bytes);
    LeavesCanonical(count.value, count.rest);
    var leaves := DecodeLeaves(count.value, count.rest);
    TailCanonical(leaves.value, leaves.rest);
    var r := Decode(bytes);
    Reassociate(EncodeU32(count.value), EncodeLeaves(leaves.value), leaves.rest);
    Reassociate(EncodeU32(count.value) + EncodeLeaves(leaves.value), EncodeTail(r.value.path), r.rest);
  }

  /** A proof survives the trip, in front of any suffix, exactly when its counts fit in 32 bits. */
  lemma RoundTripIff(p: MerkleProof, suffix: seq<Byte>)
    ensures Decode(Encode(p) + suffix) == Done(p, suffix) <==> Fits(p)
  {
    if Fits(p) {
      EncodedThenDecoded(p, suffix);
    } else if Decode(Encode(p) + suffix).Done? {
      DecodedThenEncoded(Encode(p) + suffix);
    }
  }

  //  The program's loops

  class Writer {
    var out: seq<Byte>

    constructor ()
      ensures out == []
    {
      out := [];
    }

    method WriteAll(bytes: seq<Byte>)
      modifies this
      ensures out == old(out) + bytes
    {
      out := out + bytes;
    }

    method SerializeItem(item: MergeValue)
      modifies this
      ensures out == old(out) + EncodeItem(item)
    {
      match item {
        case Value(h) =>
          WriteAll([0]);
          WriteAll(h);
        case MergeWithZero(base, bits, count) =>
          WriteAll([1]);
          WriteAll(base);
          WriteAll(bits);
          WriteAll([count]);
      }
    }

    method SerializeLeaves(leaves: seq<Hash32>)
      modifies this
      ensures out == old(out) + EncodeLeaves(leaves)
    {
      var i := 0;
      while i < |leaves|
        invariant 0 <= i <= |leaves|
        invariant out + EncodeLeaves(leaves[i..]) == old(out) + EncodeLeaves(leaves)
      {
        assert leaves[i..][1..] == leaves[i + 1..];
        Reassociate(out, leaves[i], EncodeLeaves(leaves[i + 1..]));
        WriteAll(leaves[i]);
        i := i + 1;
      }
    }

    method SerializePath(path: seq<MergeValue>)
      modifies this
      ensures out == old(out) + EncodePath(path)
    {
      var i := 0;
      while i < |path|
        invariant 0 <= i <= |path|
        invariant out + EncodePath(path[i..]) == old(out) + EncodePath(path)
      {
        assert path[i..][1..] == path[i + 1..];
        Reassociate(out, EncodeItem(path[i]), EncodePath(path[i + 1..]));
        SerializeItem(path[i]);
        i := i + 1;
      }
    }

    method Serialize(p: MerkleProof)
      modifies this
      ensures out == old(out) + Encode(p)
    {
      ghost var before, count, len := out, EncodeU32(|p.leaves|), EncodeU32(|p.path|);
      WriteAll(EncodeU32(|p.leaves|));
      SerializeLeaves(p.leaves);
      WriteAll(EncodeU32(|p.path|));
      SerializePath(p.path);
      Reassociate(before, count, EncodeLeaves(p.leaves));
      Reassociate(before + (count + EncodeLeaves(p.leaves)), len, EncodePath(p.path));
      Reassociate(before, count + EncodeLeaves(p.leaves), EncodeTail(p.path));
    }
  }

  class Reader {
    var input: seq<Byte>

    constructor (input: seq<Byte>)
      ensures this.input == input
    {
      this.input := input;
    }

    method ReadExact(n: nat) returns (r: Parsed<seq<Byte>>)
      modifies this
      ensures |old(input)| >= n ==> r == Done(old(input)[..n], old(input)[n..]) && input == old(input)[n..]
      ensures |old(input)| < n ==> r == Fail(UnexpectedEnd)
    {
      if |input| < n {
        return Fail(UnexpectedEnd);
      }
      var bytes := input[..n];
      input := input[n..];
      r := Done(bytes, input);
    }

    method ReadU32() returns (r: Parsed<nat>)
      modifies this
      ensures r == DecodeU32(old(input))
      ensures r.Done? ==> input == r.rest
    {
      var b := ReadExact(U32_BYTES);
      if b.Fail? {
        return Fail(b.error);
      }
      r := Done(DecodeLe(b.value), input);
    }

    method ReadMergeWithZero() returns (r: Parsed<MergeValue>)
      modifies this
      ensures |old(input)| < 65 ==> r == Fail(UnexpectedEnd)
      ensures |old(input)| >= 65 ==>
        && r == Done(MergeWithZero(old(input)[..32], old(input)[32..64], old(input)[64]), old(input)[65..])
        && input == r.rest
    {
      ghost var all := input;
      var base := ReadExact(32);
      if base.Fail? {
        return Fail(base.error);
      }
      var bits := ReadExact(32);
      if bits.Fail? {
        return Fail(bits.error);
      }
      var count := ReadExact(1);
      if count.Fail? {
        return Fail(count.error);
      }
      assert all[32..][..32] == all[32..64] && all[32..][32..] == all[64..] && all[64..][1..] == all[65..];
      r := Done(MergeWithZero(base.value, bits.value, count.value[0]), input);
    }

    method ReadItem() returns (r: Parsed<MergeValue>)
      modifies this
      ensures r == DecodeItem(old(input))
      ensures r.Done? ==> input == r.rest
    {
      ghost var all := input;
      var marker := ReadExact(1);
      if marker.Fail? {
        return Fail(marker.error);
      }
      if marker.value[0] == 0 {
        var h := ReadExact(32);
        if h.Fail? {
          return Fail(h.error);
        }
        assert all[1..][..32] == all[1..33] && all[1..][32..] == all[33..];
        r := Done(Value(h.value), input);
      } else if marker.value[0] == 1 {
        r := ReadMergeWithZero();
        if r.Done? {
          assert all[1..][..32] == all[1..33] && all[1..][32..64] == all[33..65] && all[1..][65..] == all[66..];
        }
      } else {
        r := Fail(InvalidMarker);
      }
    }

    method ReadLeaves(n: nat) returns (r: Parsed<seq<Hash32>>)
      modifies this
      ensures r == DecodeLeaves(n, old(input))
      ensures r.Done? ==> input == r.rest
    {
      var leaves: seq<Hash32> := [];
      var i := 0;
      OntoNothing(DecodeLeaves(n, input));
      while i < n
        invariant 0 <= i <= n
        invariant DecodeLeaves(n, old(input)) == Onto(leaves, DecodeLeaves(n - i, input))
      {
        var leaf := ReadExact(32);
        if leaf.Fail? {
          return Fail(leaf.error);
        }
        OntoStep(leaves, leaf.value, DecodeLeaves(n - i - 1, input));
        leaves := leaves + [leaf.value];
        i := i + 1;
      }
      assert leaves + [] == leaves;
      r := Done(leaves, input);
    }

    method ReadPath(n: nat) returns (r: Parsed<seq<MergeValue>>)
      modifies this
      ensures r == DecodePath(n, old(input))
      ensures r.Done? ==> input == r.rest
    {
      var path: seq<MergeValue> := [];
      var i := 0;
      OntoNothing(DecodePath(n, input));
      while i < n
        invariant 0 <= i <= n
        invariant DecodePath(n, old(input)) == Onto(path, DecodePath(n - i, input))
      {
        var item := ReadItem();
        if item.Fail? {
          return Fail(item.error);
        }
        OntoStep(path, item.value, DecodePath(n - i - 1, input));
        path := path + [item.value];
        i := i + 1;
      }
      assert path + [] == path;
      r := Done(path, input);
    }

    /** Reads a proof; on success what was consumed is exactly its encoding. */
    method Deserialize() returns (r: Parsed<MerkleProof>)
      modifies this
      ensures r == Decode(old(input))
      ensures r.Done? ==> input == r.rest && old(input) == Encode(r.value) + input
    {
      ghost var bytes := input;
      var count := ReadU32();
      if count.Fail? {
        return Fail(count.error);
      }
      var leaves := ReadLeaves(count.value);
      if leaves.Fail? {
        return Fail(leaves.error);
      }
      var len := ReadU32();
      if len.Fail? {
        return Fail(len.error);
      }
      var path := ReadPath(len.value);
      if path.Fail? {
        return Fail(path.error);
      }
      r := Done(MerkleProof(leaves.value, path.value), path.rest);
      DecodedThenEncoded(bytes);
    }
  }
}
