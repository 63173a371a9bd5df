/**
  The vocabulary shared by the consensus, the mempool and the data availability layer:
  keys, hashes, signatures, cuts and proposals.

  Hashes are ideal. A digest is the tuple of the fields the program feeds to the hasher, so two
  values have the same hash exactly when those fields agree, and a value can never contain its
  own hash. Signatures are ideal too: a `Share(v, m)` exists only because `v` signed `m`.
 */
module Model {

  datatype Option<+T> = None | Some(value: T) {
    function GetOr(default: T): T {
      match this
      case Some(v) => v
      case None => default
    }
  }

  type Pubkey = nat
  type LaneId = Pubkey
  type Slot = nat
  type View = nat
  type Timestamp = nat

  /** `DpDigest` is the hash of a data proposal; `DpName` is any other string used as a hash. */
  datatype DpHash = DpDigest(parent: Option<DpHash>, txs: seq<nat>) | DpName(name: string)

  /** `Digest` is the hash of a consensus proposal; `Named` is any other string used as a hash. */
  datatype ProposalHash =
    | Digest(slot: Slot, lanes: seq<(LaneId, DpHash)>, actions: seq<ActionDigest>,
             timestamp: Timestamp, parent: ProposalHash)
    | Named(name: string)

  datatype ActionDigest = BondDigest(validator: Pubkey) | FeesDigest(lane: LaneId, cumulSize: nat)

  /** Number of proposals hashed into `h`, one inside the other. */
  function Depth(h: ProposalHash): nat {
    match h
    case Digest(_, _, _, _, parent) => 1 + Depth(parent)
    case Named(_) => 0
  }

  //  Signatures

  /**
    The bytes a validator signs. The two vote markers and the timeout marker are empty structs
    and serialize to nothing, so a prepare vote and a confirm ack on one hash are the same bytes.
   */
  datatype Message =
    | VoteBytes(hash: ProposalHash)
    | TimeoutBytes(slot: Slot, view: View, parent: ProposalHash)
    | DataVoteBytes(dp: DpHash, cumulSize: nat)
    | CandidacyBytes(address: string)

  datatype Share = Share(signer: Pubkey, msg: Message)

  /** A message with a signature and the key it claims to come from. */
  datatype Signed<T> = Signed(msg: T, signature: Share, validator: Pubkey)

  /** An aggregated signature and the validators it claims to come from. */
  datatype AggregateSignature = AggregateSignature(shares: set<Share>, validators: set<Pubkey>)

  const EMPTY_SIGNATURE := AggregateSignature({}, {})

  predicate VerifyAggregate(msg: Message, sig: AggregateSignature) {
    && sig.validators != {}
    && sig.shares == set v | v in sig.validators :: Share(v, msg)
  }

  /** Puts the signatures of a collection of signed messages together, without checking them. */
  function Combine<T(==)>(votes: set<Signed<T>>): AggregateSignature {
    AggregateSignature(set v | v in votes :: v.signature, set v | v in votes :: v.validator)
  }

  function Validators<T(==)>(votes: set<Signed<T>>): set<Pubkey> {
    set v | v in votes :: v.validator
  }

  predicate Genuine<T>(vote: Signed<T>, bytes: Message) {
    vote.signature == Share(vote.validator, bytes)
  }

  /** The votes with signature `x`, and the votes whose validators should have it. */
  function Signing<T(==)>(votes: set<Signed<T>>, x: Share): set<Signed<T>> {
    set v | v in votes && v.signature == x
  }

  function Claiming<T(==)>(votes: set<Signed<T>>, bytes: Message, x: Share): set<Signed<T>> {
    set v | v in votes && Share(v.validator, bytes) == x
  }

  /** The sum of the signatures is the one the sum of the claimed keys asks for: each share comes as often as it is claimed. */
  predicate Balanced<T(==)>(votes: set<Signed<T>>, bytes: Message) {
    forall v :: v in votes ==>
      && |Signing(votes, v.signature)| == |Claiming(votes, bytes, v.signature)|
      && |Signing(votes, Share(v.validator, bytes))| == |Claiming(votes, bytes, Share(v.validator, bytes))|
  }

  /** Aggregation checks its result, except that a single signature is passed on as it is. */
  function Aggregate<T(==)>(votes: set<Signed<T>>, bytes: Message): Option<AggregateSignature> {
    if votes == {} then None
    else if |votes| == 1 || Balanced(votes, bytes) then Some(Combine(votes))
    else None
  }

  //  Cuts and proposals

  datatype CutEntry = CutEntry(lane: LaneId, dp: DpHash, cumulSize: nat, poda: AggregateSignature)
  type Cut = seq<CutEntry>

  /** The first entry of a cut for a lane. */
  function FindLane(cut: Cut, lane: LaneId): (r: Option<CutEntry>)
    ensures r.Some? ==> r.value in cut && r.value.lane == lane
    ensures r.None? <==> forall i :: 0 <= i < |cut| ==> cut[i].lane != lane
  {
    if cut == [] then None
    else if cut[0].lane == lane then Some(cut[0])
    else
      var r := FindLane(cut[1..], lane);
      assert r.None? ==> forall i :: 1 <= i < |cut| ==> cut[i] == cut[1..][i - 1];
      r
  }

  datatype StakingAction =
    | Bond(candidate: Signed<string>)
    | PayFeesForDaDi(lane: LaneId, cumulSize: nat)

  datatype ConsensusProposal = ConsensusProposal(
    slot: Slot,
    parentHash: ProposalHash,
    cut: Cut,
    stakingActions: seq<StakingAction>,
    timestamp: Timestamp
  )

  function ActionHash(a: StakingAction): ActionDigest {
    match a
    case Bond(candidate) => BondDigest(candidate.validator)
    case PayFeesForDaDi(lane, size) => FeesDigest(lane, size)
  }

  /** The sizes and signatures of a cut are not part of the proposal's hash. */
  function Hash(p: ConsensusProposal): ProposalHash {
    Digest(p.slot,
           seq(|p.cut|, i requires 0 <= i < |p.cut| => (p.cut[i].lane, p.cut[i].dp)),
           seq(|p.stakingActions|, i requires 0 <= i < |p.stakingActions| => ActionHash(p.stakingActions[i])),
           p.timestamp,
           p.parentHash)
  }

}
