/**
  One consensus node as a value, and every handler as a function from state to state.
  A handler also says whether it returned Ok; the changes made before an error stay.
 */
module Round {
  import opened Model
  import opened Staking
  import opened Messages
  import opened PrepareBuffer

  //  State

  datatype TimestampCheck = NoCheck | Monotonic | Full

  datatype Config = Config(
    me: Pubkey,
    address: string,
    slotDuration: nat,
    timeoutAfter: nat,
    timestampChecks: TimestampCheck
  )

  datatype StateTag = Joining | Leader | Follower
  datatype Step = StartNewSlot | PrepareVote | ConfirmAck

  datatype LeaderState = LeaderState(
    step: Step,
    prepareVotes: set<Signed<ProposalHash>>,
    confirmAcks: set<Signed<ProposalHash>>,
    pendingTicket: Option<Ticket>
  )

  const FRESH_LEADER := LeaderState(StartNewSlot, {}, {}, None)

  datatype TimeoutState = Inactive | Scheduled(timestamp: Timestamp) | CertificateEmitted

  /** The commit event handed to the mempool. */
  datatype Committed = Committed(staking: Registry, proposal: ConsensusProposal, certificate: AggregateSignature)

  datatype Destination = Everyone | To(validator: Pubkey)

  /** What a handler puts on the bus; network messages are stamped with the sender's round. */
  datatype Output =
    | Network(slot: Slot, view: View, to: Destination, msg: NetMessage)
    | Enqueue
    | EnqueueLater(maxDelay: Timestamp)
    | ConnectTo(address: string)

  datatype PrepareQcAt = PrepareQcAt(slot: Slot, qc: AggregateSignature)

  datatype Node = Node(
    staking: Registry,
    slot: Slot,
    view: View,
    parentHash: ProposalHash,
    parentTimestamp: Timestamp,
    parentCut: Cut,
    current: ConsensusProposal,
    leader: LeaderState,
    bufferedQc: Option<AggregateSignature>,
    buffer: Buffer,
    requests: set<ConsensusTimeout>,
    timeoutState: TimeoutState,
    highestQc: Option<PrepareQcAt>,
    stakingUpdatedTo: Slot,
    tag: StateTag,
    candidates: seq<Signed<string>>,
    commits: seq<Committed>,
    sent: seq<Output>
  )

  const DEFAULT_PROPOSAL := ConsensusProposal(0, Named(""), [], [], 0)

  function Send(s: Node, to: Destination, msg: NetMessage): Node {
    s.(sent := s.sent + [Network(s.slot, s.view, to, msg)])
  }

  function EmitCommit(s: Node, certificate: AggregateSignature): Node {
    s.(commits := s.commits + [Committed(s.staking, s.current, certificate)])
  }

  predicate CurrentSlotPrepareIsPresent(s: Node) {
    s.current.slot == s.slot
  }

  predicate HasNoBufferedChildren(s: Node) {
    NextPrepare(s.buffer, Hash(s.current)).None?
  }

  //  Leader election

  const U64_MAX := 0xFFFF_FFFF_FFFF_FFFF

  function WrappingPred(n: nat): nat {
    if n == 0 then U64_MAX else n - 1
  }

  function LeaderAt(bonded: seq<Pubkey>, slot: Slot, view: View): Option<Pubkey> {
    if bonded == [] then None else Some(bonded[WrappingPred(slot + view) % |bonded|])
  }

  function RoundLeader(s: Node): Option<Pubkey> {
    LeaderAt(s.staking.bonded, s.slot, s.view)
  }

  function NextViewLeader(s: Node): Option<Pubkey> {
    LeaderAt(s.staking.bonded, s.slot, s.view + 1)
  }

  //  Certificates

  predicate VerifyQc(r: Registry, msg: Message, qc: AggregateSignature) {
    && VerifyAggregate(msg, qc)
    && (forall v :: v in qc.validators ==> v in r.bonded)
    && Power(r, qc.validators) >= 2 * F(r) + 1
  }

  function OwnPower(c: Config, r: Registry): nat {
    if IsBonded(r, c.me) then Stake(r, c.me) else 0
  }

  /** Adds the node's own signature to the collected ones and aggregates. */
  function SignAggregate<T(==)>(me: Pubkey, msg: T, bytes: Message, votes: set<Signed<T>>): Option<AggregateSignature> {
    Aggregate(votes + {Signed(msg, Share(me, bytes), me)}, bytes)
  }

  //  Moving to the next round

  function ApplyStakingActions(r: Registry, actions: seq<StakingAction>): (Registry, bool)
    decreases |actions|
  {
    if actions == [] then (r, true)
    else
      match actions[0]
      case Bond(candidate) =>
        var (r1, ok) := BondValidator(r, candidate.validator);
        if !ok then (r1, false) else ApplyStakingActions(r1, actions[1..])
      case PayFeesForDaDi(lane, size) =>
        ApplyStakingActions(PayForDaDi(r, lane, size), actions[1..])
  }

  function SettleStaking(r: Registry, actions: seq<StakingAction>): (Registry, bool) {
    var (r1, ok) := ApplyStakingActions(r, actions);
    if !ok then (r1, false) else Distribute(r1)
  }

  function ScheduleTimeout(c: Config, s: Node, now: Timestamp): Node {
    s.(timeoutState := Scheduled(now + c.timeoutAfter))
  }

  function Elect(c: Config, s: Node, now: Timestamp): (r: (Node, bool))
    ensures r.0.buffer == s.buffer
  {
    match RoundLeader(s)
    case None => (s, false)
    case Some(leader) =>
      if leader == c.me then (s.(tag := Leader), true)
      else (ScheduleTimeout(c, s.(tag := Follower), now), true)
  }

  function ResetRound(s: Node): Node {
    s.(leader := FRESH_LEADER, requests := {})
  }

  function BuildOnCurrent(s: Node): Node {
    s.(parentHash := Hash(s.current), parentTimestamp := s.current.timestamp, parentCut := s.current.cut)
  }

  function NextSlot(s: Node, qc: Option<AggregateSignature>): Node {
    BuildOnCurrent(s).(slot := s.slot + 1, view := 0, bufferedQc := qc, current := s.current.(stakingActions := []))
  }

  /** The slot is closed with the current proposal, whose staking actions are consumed. */
  function CloseSlot(s: Node, qc: Option<AggregateSignature>): (r: (Node, bool))
    ensures r.0.buffer == s.buffer
  {
    var (staking, ok) := SettleStaking(s.staking, s.current.stakingActions);
    (NextSlot(s, qc).(staking := staking), ok)
  }

  function NextView(s: Node): Node {
    s.(view := s.view + 1, bufferedQc := None)
  }

  /** A certified or forced commit closes the slot; a certified timeout ends the view. */
  function EndRound(s: Node, ticket: Ticket): (r: (Node, bool))
    ensures r.0.buffer == s.buffer
  {
    match ticket
    case CommitQc(qc) => CloseSlot(s, Some(qc))
    case ForcedCommitQc => CloseSlot(s, None)
    case TimeoutQc(_, _) => (NextView(s), true)
    case Genesis => (s, false)
  }

  function ApplyTicket(c: Config, s: Node, ticket: Ticket, now: Timestamp): (r: (Node, bool))
    ensures r.0.buffer == s.buffer
  {
    if s.tag.Joining? then (s, false)
    else
      var (s1, ok) := EndRound(ResetRound(s), ticket);
      if ok then Elect(c, s1, now) else (s1, false)
  }

  function AdvanceRound(c: Config, s: Node, ticket: Ticket, now: Timestamp): (r: (Node, bool))
    ensures r.0.buffer == s.buffer
  {
    var (s1, ok) := ApplyTicket(c, s, ticket, now);
    if !ok then (s1, false)
    else if s1.tag.Leader? && HasNoBufferedChildren(s1) && !ticket.ForcedCommitQc? then
      (s1.(leader := s1.leader.(pendingTicket := Some(ticket)), sent := s1.sent + [Enqueue]), true)
    else if IsBonded(s1.staking, c.me) then (s1, true)
    else if Stake(s1.staking, c.me) > MIN_STAKE then
      (Send(s1, Everyone, CandidacyMsg(SignCandidacy(c.me, c.address))), true)
    else (s1, true)
  }

  /** Emits the current proposal with its certificate and closes the slot. */
  function CommitCurrent(c: Config, s: Node, certificate: AggregateSignature, ticket: Ticket, now: Timestamp): (r: (Node, bool))
    ensures r.0.buffer == s.buffer
  {
    AdvanceRound(c, EmitCommit(s, certificate), ticket, now)
  }

  //  Leader

  /** What the mempool answered when asked for a cut; it may also fail or time out. */
  type CutAnswer = Option<Cut>

  predicate DelaysStart(s: Node, ticket: Ticket, now: Timestamp, mayDelay: Option<Timestamp>, answer: CutAnswer) {
    && answer.Some?
    && (mayDelay.None? || mayDelay.value > now)
    && !ticket.TimeoutQc?
    && answer.value == s.parentCut
  }

  function FeesFor(cut: Cut): seq<StakingAction> {
    seq(|cut|, i requires 0 <= i < |cut| => PayFeesForDaDi(cut[i].lane, cut[i].cumulSize))
  }

  function BondsFor(r: Registry, candidates: seq<Signed<string>>): seq<StakingAction> {
    if candidates == [] then []
    else
      var rest := BondsFor(r, candidates[1..]);
      if Stake(r, candidates[0].validator) > MIN_STAKE && !IsBonded(r, candidates[0].validator)
      then [Bond(candidates[0])] + rest
      else rest
  }

  function NewProposal(s: Node, now: Timestamp, cut: Cut): ConsensusProposal {
    ConsensusProposal(s.slot, s.parentHash, cut, BondsFor(s.staking, s.candidates) + FeesFor(cut), now)
  }

  function OpenRound(c: Config, s: Node, ticket: Ticket): Node {
    var s1 := s.(leader := s.leader.(step := PrepareVote),
                 buffer := Push(s.buffer, Prepare(c.me, s.current, ticket, s.view)));
    Send(s1, Everyone, PrepareMsg(s.current, ticket, s.view))
  }

  function StartRound(c: Config, s: Node, now: Timestamp, mayDelay: Option<Timestamp>, answer: CutAnswer): (Node, bool) {
    if !s.leader.step.StartNewSlot? || !s.tag.Leader? || s.leader.pendingTicket.None? then (s, false)
    else
      var ticket := s.leader.pendingTicket.value;
      var s1 := s.(leader := s.leader.(pendingTicket := None));
      if CurrentSlotPrepareIsPresent(s1) then (OpenRound(c, s1, ticket), true)
      else if DelaysStart(s1, ticket, now, mayDelay, answer) then
        (s.(sent := s.sent + [EnqueueLater(mayDelay.GetOr(now + c.slotDuration))]), true)
      else
        var cut := answer.GetOr(s1.parentCut);
        (OpenRound(c, s1.(current := NewProposal(s1, now, cut), candidates := []), ticket), true)
  }

  function OnPrepareVote(c: Config, s: Node, vote: Signed<ProposalHash>): (Node, bool) {
    if !s.tag.Leader? || !s.leader.step.PrepareVote? then (s, true)
    else if vote.msg != Hash(s.current) then (s, false)
    else
      var votes := s.leader.prepareVotes + {vote};
      var s1 := s.(leader := s.leader.(prepareVotes := votes));
      if Power(s.staking, Validators(votes)) + OwnPower(c, s.staking) <= 2 * F(s.staking) then (s1, true)
      else
        match SignAggregate(c.me, vote.msg, VoteBytes(vote.msg), votes)
        case None => (s1, false)
        case Some(qc) =>
          (Send(s1.(leader := s1.leader.(step := ConfirmAck)), Everyone, ConfirmMsg(qc, vote.msg)), true)
  }

  function OnConfirmAck(c: Config, s: Node, ack: Signed<ProposalHash>, now: Timestamp): (Node, bool) {
    if !s.tag.Leader? || !s.leader.step.ConfirmAck? then (s, true)
    else if ack.msg != Hash(s.current) then (s, false)
    else if ack in s.leader.confirmAcks then (s, true)
    else
      var acks := s.leader.confirmAcks + {ack};
      var s1 := s.(leader := s.leader.(confirmAcks := acks));
      if Power(s.staking, Validators(acks)) + OwnPower(c, s.staking) <= 2 * F(s.staking) then (s1, true)
      else
        match SignAggregate(c.me, ack.msg, VoteBytes(ack.msg), acks)
        case None => (s1, false)
        case Some(qc) =>
          var s2 := Send(s1, Everyone, CommitMsg(qc, ack.msg));
          if !VerifyQc(s.staking, VoteBytes(Hash(s.current)), qc) then (s2, false)
          else CommitCurrent(c, s2, qc, CommitQc(qc), now)
  }

  //  Follower: checks on a proposal

  /** Every lane of the previous cut is still there. */
  predicate KeepsLanes(previous: Cut, cut: Cut) {
    forall i :: 0 <= i < |previous| ==> FindLane(cut, previous[i].lane).Some?
  }

  predicate VerifyPodaEntry(r: Registry, parentCut: Cut, e: CutEntry) {
    && IsKnown(r, e.lane)
    && var previous := FindLane(parentCut, e.lane);
       || (previous.Some? && previous.value.dp == e.dp)
       || (&& (previous.Some? ==> e.cumulSize > previous.value.cumulSize)
           && Power(r, e.poda.validators) >= F(r) + 1
           && VerifyAggregate(DataVoteBytes(e.dp, e.cumulSize), e.poda))
  }

  predicate VerifyPoda(r: Registry, parentCut: Cut, cut: Cut) {
    && KeepsLanes(parentCut, cut)
    && forall i :: 0 <= i < |cut| ==> VerifyPodaEntry(r, parentCut, cut[i])
  }

  predicate VerifyDaDiFees(cut: Cut, lane: LaneId, cumulSize: nat) {
    exists i :: 0 <= i < |cut| && cut[i].lane == lane && cut[i].cumulSize == cumulSize
  }

  predicate CanBond(r: Registry, candidate: Signed<string>) {
    && Stake(r, candidate.validator) >= MIN_STAKE
    && Genuine(candidate, CandidacyBytes(candidate.msg))
  }

  function DropCandidate(candidates: seq<Signed<string>>, v: Pubkey): seq<Signed<string>> {
    if candidates == [] then []
    else if candidates[0].validator == v then DropCandidate(candidates[1..], v)
    else [candidates[0]] + DropCandidate(candidates[1..], v)
  }

  /** The candidates left, the addresses to connect to, and whether every action is fine. */
  function CheckStakingActions(r: Registry, cut: Cut, actions: seq<StakingAction>, candidates: seq<Signed<string>>, sent: seq<Output>)
    : (seq<Signed<string>>, seq<Output>, bool)
    decreases |actions|
  {
    if actions == [] then (candidates, sent, true)
    else
      match actions[0]
      case Bond(candidate) =>
        if !CanBond(r, candidate) then (candidates, sent, false)
        else
          CheckStakingActions(r, cut, actions[1..], DropCandidate(candidates, candidate.validator),
                              sent + [ConnectTo(candidate.msg)])
      case PayFeesForDaDi(lane, size) =>
        if !VerifyDaDiFees(cut, lane, size) then (candidates, sent, false)
        else CheckStakingActions(r, cut, actions[1..], candidates, sent)
  }

  predicate VerifyTimestamp(c: Config, view: View, parent: Timestamp, timestamp: Timestamp) {
    || parent == 0
    || match c.timestampChecks
       case NoCheck => true
       case Monotonic => timestamp > parent
       case Full =>
         && timestamp > parent
         && timestamp <= parent + 2 * c.slotDuration + c.timeoutAfter * (view % 0x1_0000_0000)
  }

  //  Follower: tickets

  datatype TicketOutcome = Failed | NotProcessed | Processed

  predicate ForThisRound(s: Node, p: ConsensusProposal) {
    || p.slot == s.slot
    || (p.slot == s.slot + 1 && CurrentSlotPrepareIsPresent(s))
  }

  function ProcessCommitTicket(c: Config, s: Node, p: ConsensusProposal, qc: AggregateSignature, now: Timestamp): (r: (Node, TicketOutcome))
    ensures r.0.buffer == s.buffer
  {
    if !ForThisRound(s, p) then (s, NotProcessed)
    else if s.bufferedQc == Some(qc) then (s, Processed)
    else if !CurrentSlotPrepareIsPresent(s) then
      (s, if VerifyQc(s.staking, VoteBytes(s.parentHash), qc) then Processed else Failed)
    else if !VerifyQc(s.staking, VoteBytes(Hash(s.current)), qc) then (s, Failed)
    else
      var (s1, ok) := CommitCurrent(c, s, qc, CommitQc(qc), now);
      (s1, if ok then Processed else Failed)
  }

  function UpdateHighestQc(s: Node, slot: Slot, qc: AggregateSignature): (Node, bool) {
    if s.highestQc.Some? && slot < s.highestQc.value.slot then (s, false)
    else (s.(highestQc := Some(PrepareQcAt(slot, qc))), true)
  }

  /** Keeps the proposal of a verified prepare certificate, unless a later slot's is known. */
  function AdoptPrepareQc(s: Node, slot: Slot, qc: AggregateSignature, p: ConsensusProposal): (r: Node)
    ensures r.buffer == s.buffer
  {
    var (s1, updated) := UpdateHighestQc(s, slot, qc);
    if updated then s1.(current := p) else s1
  }

  function VerifyTc(s: Node, tc: AggregateSignature, kind: TcKind, slot: Slot, view: View): (r: (Node, bool))
    ensures r.0.buffer == s.buffer
  {
    if !VerifyQc(s.staking, TimeoutBytes(slot, view, s.parentHash), tc) then (s, false)
    else
      match kind
      case TcNil => (s, true)
      case TcPrepareQc(qc, p) =>
        if p.slot != slot || !VerifyQc(s.staking, VoteBytes(Hash(p)), qc) then (s, false)
        else (AdoptPrepareQc(s, slot, qc, p), true)
  }

  predicate ChangesVotingPower(p: ConsensusProposal) {
    exists i :: 0 <= i < |p.stakingActions| && p.stakingActions[i].Bond?
  }

  /** A certified timeout of the next slot, on top of our proposal, commits our proposal uncertified. */
  function ForceCommit(c: Config, s: Node, p: ConsensusProposal, now: Timestamp): (r: (Node, bool))
    ensures r.0.buffer == s.buffer
  {
    if !(p.slot == s.slot + 1 && CurrentSlotPrepareIsPresent(s) && p.parentHash == Hash(s.current)) then (s, true)
    else if ChangesVotingPower(s.current) then (s, false)
    else CommitCurrent(c, s, EMPTY_SIGNATURE, ForcedCommitQc, now)
  }

  function ProcessTcTicket(c: Config, s: Node, tc: AggregateSignature, kind: TcKind, p: ConsensusProposal, view: View, now: Timestamp)
    : (r: (Node, TicketOutcome))
    ensures r.0.buffer == s.buffer
  {
    if !ForThisRound(s, p) then (s, NotProcessed)
    else if kind.TcPrepareQc? && kind.proposal != p then (s, Failed)
    else
      var (s1, forced) := ForceCommit(c, s, p, now);
      if !forced || p.slot != s1.slot then (s1, Failed)
      else
        var (s2, ok) := VerifyTc(s1, tc, kind, s1.slot, WrappingPred(view));
        if !ok then (s2, Failed)
        else if view == s2.view + 1 then
          var (s3, advanced) := AdvanceRound(c, s2, TimeoutQc(tc, kind), now);
          (s3, if advanced then Processed else Failed)
        else (s2, Processed)
  }

  function ProcessTicket(c: Config, s: Node, p: Prepare, now: Timestamp): (r: (Node, TicketOutcome))
    ensures r.0.buffer == s.buffer
  {
    match p.ticket
    case Genesis => (s, if s.slot == 1 then Processed else Failed)
    case CommitQc(qc) => ProcessCommitTicket(c, s, p.proposal, qc, now)
    case TimeoutQc(tc, kind) => ProcessTcTicket(c, s, tc, kind, p.proposal, p.view, now)
    case ForcedCommitQc => (s, Failed)
  }

  //  Follower: handlers

  predicate ExitsJoining(s: Node, p: Prepare) {
    || (p.proposal.slot == s.slot && !CurrentSlotPrepareIsPresent(s))
    || (CurrentSlotPrepareIsPresent(s) &&
        (p.proposal.slot == s.slot + 1 || (p.proposal.slot == s.slot && p.view > s.view)))
  }

  function BufferAndFetch(c: Config, s: Node, p: Prepare, ask: Destination): Node {
    var s1 := if Hash(p.proposal) in s.buffer.prepares then s else s.(buffer := Push(s.buffer, p));
    match FirstMissing(s1.buffer, p.proposal.parentHash, Hash(s1.current))
    case None => s1
    case Some(missing) => Send(s1, ask, SyncRequestMsg(missing))
  }

  /** Checks the proposal against the round the ticket led to, and makes it the current one. */
  function AcceptProposal(c: Config, s: Node, p: Prepare): (r: (Node, bool))
    ensures r.0.buffer == if r.1 then Push(s.buffer, p) else s.buffer
  {
    if p.proposal.slot != s.slot || p.view != s.view || RoundLeader(s) != Some(p.sender)
       || !VerifyPoda(s.staking, s.parentCut, p.proposal.cut) then (s, false)
    else
      var (candidates, sent, ok) :=
        CheckStakingActions(s.staking, p.proposal.cut, p.proposal.stakingActions, s.candidates, s.sent);
      var s1 := s.(candidates := candidates, sent := sent);
      if !ok || !VerifyTimestamp(c, s.view, s.parentTimestamp, p.proposal.timestamp) then (s1, false)
      else (s1.(current := p.proposal, buffer := Push(s.buffer, p)), true)
  }

  function Vote(c: Config, s: Node, p: Prepare): Node {
    if IsBonded(s.staking, c.me)
    then Send(s, To(p.sender), PrepareVoteMsg(SignVote(c.me, Hash(p.proposal))))
    else s
  }

  /** Buffered prepares nested deeper than `h`: what a fast-forward can still go through. */
  ghost function Deeper(b: Buffer, h: ProposalHash): set<ProposalHash> {
    set k | k in b.prepares && Depth(k) > Depth(h)
  }

  function OnPrepare(c: Config, s: Node, p: Prepare, ask: Destination, now: Timestamp): (Node, bool)
    decreases |Deeper(s.buffer, Hash(p.proposal))|, 1
  {
    if s.tag.Joining? && !ExitsJoining(s, p) then (s.(buffer := Push(s.buffer, p)), true)
    else
      var s1 := if s.tag.Joining? then s.(tag := Follower) else s;
      if p.proposal.slot < s1.slot then (s1, true)
      else
        var (s2, outcome) := ProcessTicket(c, s1, p, now);
        match outcome
        case Failed => (s2, false)
        case NotProcessed => (BufferAndFetch(c, s2, p, ask), true)
        case Processed => OnTicketProcessed(c, s2, p, ask, now)
  }

  /** Accepts the proposal, then fast-forwards to the next buffered prepare or votes. */
  function OnTicketProcessed(c: Config, s: Node, p: Prepare, ask: Destination, now: Timestamp): (Node, bool)
    decreases |Deeper(s.buffer, Hash(p.proposal))|, 0
  {
    var (s1, accepted) := AcceptProposal(c, s, p);
    if !accepted then (s1, false)
    else
      match NextPrepare(s1.buffer, Hash(p.proposal))
      case None => (Vote(c, s1, p), true)
      case Some(next) =>
        DeeperShrinks(s.buffer, p, next);
        OnPrepare(c, s1, next, ask, now)
  }

  lemma DeeperShrinks(b: Buffer, p: Prepare, next: Prepare)
    requires NextPrepare(Push(b, p), Hash(p.proposal)) == Some(next)
    ensures |Deeper(Push(b, p), Hash(next.proposal))| < |Deeper(b, Hash(p.proposal))|
  {
    var n := Hash(next.proposal);
    var smaller := Deeper(Push(b, p), n);
    var larger := Deeper(b, Hash(p.proposal));
    assert Depth(n) == 1 + Depth(Hash(p.proposal));
    assert n in larger && n !in smaller && smaller <= larger - {n};
    Cardinality(smaller, larger - {n});
  }

  lemma {:induction false} Cardinality<T>(a: set<T>, b: set<T>)
    requires a <= b
    ensures |a| <= |b|
  {
    if a != {} {
      var x :| x in a;
      Cardinality(a - {x}, b - {x});
    }
  }

  function OnConfirm(c: Config, s: Node, qc: AggregateSignature, hash: ProposalHash): (Node, bool) {
    if !s.tag.Follower? || hash != Hash(s.current) then (s, true)
    else if !VerifyQc(s.staking, VoteBytes(hash), qc) then (s, false)
    else
      var s1 := UpdateHighestQc(s, s.slot, qc).0;
      if !IsBonded(s.staking, c.me) then (s1, true)
      else
        match RoundLeader(s1)
        case None => (s1, false)
        case Some(leader) => (Send(s1, To(leader), ConfirmAckMsg(SignVote(c.me, hash))), true)
  }

  function FollowCurrent(s: Node): Node {
    s.(slot := s.current.slot, view := 0, tag := Follower)
  }

  function OnCommitWhileJoining(c: Config, s: Node, qc: AggregateSignature, hash: ProposalHash, now: Timestamp): (Node, bool) {
    if hash !in s.buffer.prepares then (s, true)
    else
      var p := s.buffer.prepares[hash].proposal;
      if p.slot <= s.slot || s.stakingUpdatedTo + 1 < p.slot then (s, true)
      else
        var s1 := s.(current := p);
        if !VerifyQc(s.staking, VoteBytes(Hash(p)), qc) then (s1, false)
        else CommitCurrent(c, FollowCurrent(s1), qc, CommitQc(qc), now)
  }

  function OnCommit(c: Config, s: Node, qc: AggregateSignature, hash: ProposalHash, now: Timestamp): (Node, bool) {
    match s.tag
    case Joining => OnCommitWhileJoining(c, s, qc, hash, now)
    case Leader => (s, true)
    case Follower =>
      if !CurrentSlotPrepareIsPresent(s) || Hash(s.current) != hash then (s, true)
      else if !VerifyQc(s.staking, VoteBytes(Hash(s.current)), qc) then (s, false)
      else CommitCurrent(c, s, qc, CommitQc(qc), now)
  }

  //  Timeouts

  function TimeoutMessage(c: Config, s: Node): ConsensusTimeout {
    var meta := SignTimeout(c.me, TimeoutMeta(s.slot, s.view, s.parentHash));
    if s.highestQc.Some? && s.highestQc.value.slot == s.slot
    then ConsensusTimeout(meta, PrepareQcKind(s.highestQc.value.qc, s.current))
    else ConsensusTimeout(meta, NilProposal(meta))
  }

  function TimeoutValidators(requests: set<ConsensusTimeout>): set<Pubkey> {
    set t | t in requests :: t.signed.validator
  }

  /** The ticket the collected timeouts add up to, if their signatures do. */
  function TimeoutTicket(c: Config, s: Node): Option<Ticket> {
    var meta := TimeoutMeta(s.slot, s.view, s.parentHash);
    if s.highestQc.Some? && s.highestQc.value.slot == s.slot then
      var signed := set t | t in s.requests :: t.signed;
      match SignAggregate(c.me, meta, MetaBytes(meta), signed)
      case None => None
      case Some(tc) => Some(TimeoutQc(tc, TcPrepareQc(s.highestQc.value.qc, s.current)))
    else if exists t :: t in s.requests && !t.kind.NilProposal? then None
    else
      var signed := set t | t in s.requests && t.kind.NilProposal? :: t.kind.inner;
      match SignAggregate(c.me, meta, MetaBytes(meta), signed)
      case None => None
      case Some(tc) => Some(TimeoutQc(tc, TcNil))
  }

  /** A timeout of this round that carries a prepare certificate brings its proposal along. */
  function AdoptTimeout(s: Node, t: ConsensusTimeout): (Node, bool) {
    match t.kind
    case NilProposal(_) => (s, true)
    case PrepareQcKind(qc, p) =>
      if p.slot != t.signed.msg.slot || !VerifyQc(s.staking, VoteBytes(Hash(p)), qc) then (s, false)
      else (AdoptPrepareQc(s, t.signed.msg.slot, qc, p), true)
  }

  /** With more than f behind the timeout, the node joins it. */
  function JoinMutiny(c: Config, s: Node, now: Timestamp): (Node, nat) {
    var voters := TimeoutValidators(s.requests);
    var power := Power(s.staking, voters);
    if power <= F(s.staking) || c.me in voters then (s, power)
    else
      var own := TimeoutMessage(c, s);
      var s1 := Send(s.(requests := s.requests + {own}), Everyone, TimeoutMsg(own));
      (ScheduleTimeout(c, s1, now), power + OwnPower(c, s.staking))
  }

  /** Unless it leads the next view itself, the node sends the ticket to everyone. */
  function PassTicket(c: Config, s: Node, ticket: Ticket, leader: Pubkey): Node
    requires ticket.TimeoutQc?
  {
    if leader == c.me then (if s.tag.Joining? then s.(tag := Leader) else s)
    else Send(s, Everyone, TimeoutCertificateMsg(ticket.tc, ticket.kind, s.slot, s.view)).(timeoutState := CertificateEmitted)
  }

  /** With more than 2f behind it, the timeout is certified and the view is over. */
  function CertifyTimeout(c: Config, s: Node, now: Timestamp): (Node, bool) {
    match TimeoutTicket(c, s)
    case None => (s, false)
    case Some(ticket) =>
      var s1 := ScheduleTimeout(c, s, now);
      match NextViewLeader(s1)
      case None => (s1, false)
      case Some(leader) =>
        AdvanceRound(c, PassTicket(c, s1, ticket, leader), ticket, now)
  }

  function CountTimeout(c: Config, s: Node, now: Timestamp): (Node, bool) {
    var (s1, power) := JoinMutiny(c, s, now);
    if power > 2 * F(s1.staking) && !s1.timeoutState.CertificateEmitted? then CertifyTimeout(c, s1, now) else (s1, true)
  }

  function OnTimeout(c: Config, s: Node, t: ConsensusTimeout, now: Timestamp): (Node, bool) {
    if !IsBonded(s.staking, c.me)
       || t.signed.msg != TimeoutMeta(s.slot, s.view, s.parentHash) then (s, true)
    else
      var (s1, ok) := AdoptTimeout(s, t);
      if !ok then (s1, false)
      else if t in s1.requests then (s1, true)
      else CountTimeout(c, s1.(requests := s1.requests + {t}), now)
  }

  function OnTimeoutTick(c: Config, s: Node, now: Timestamp): (Node, bool) {
    if !s.timeoutState.Scheduled? || now < s.timeoutState.timestamp then (s, true)
    else
      var own := TimeoutMessage(c, s);
      var (s1, ok) := OnTimeout(c, s, own, now);
      if !ok then (s1, false)
      else (ScheduleTimeout(c, Send(s1, Everyone, TimeoutMsg(own)), now), true)
  }

  /** As written in the program, it is the node that will NOT lead the next view that leaves Joining here. */
  function OnTimeoutCertificate(c: Config, s: Node, tc: AggregateSignature, kind: TcKind, slot: Slot, view: View, now: Timestamp): (Node, bool) {
    if slot != s.slot || view != s.view then (s, true)
    else
      var (s1, ok) := VerifyTc(s, tc, kind, slot, view);
      if !ok || NextViewLeader(s1).None? then (s1, false)
      else
        var s2 := if s1.tag.Joining? && NextViewLeader(s1) != Some(c.me) then s1.(tag := Leader) else s1;
        AdvanceRound(c, s2, TimeoutQc(tc, kind), now)
  }

  //  Everything else

  function OnCandidacy(s: Node, candidacy: Signed<string>): (Node, bool) {
    if IsBonded(s.staking, candidacy.validator) then (s, true)
    else if Stake(s.staking, candidacy.validator) < MIN_STAKE then (s, false)
    else (s.(candidates := s.candidates + [candidacy]), true)
  }

  function OnSyncRequest(s: Node, sender: Pubkey, hash: ProposalHash): Node {
    if hash in s.buffer.prepares then Send(s, To(sender), SyncReplyMsg(s.buffer.prepares[hash])) else s
  }

  function BuildOn(s: Node, slot: Slot, parentHash: ProposalHash): Node {
    s.(slot := slot, view := 0, parentHash := parentHash)
  }

  function SkipTo(s: Node, height: Slot, hash: ProposalHash): Node {
    BuildOn(s, height + 1, hash).(stakingUpdatedTo := height, current := DEFAULT_PROPOSAL.(slot := height), requests := {})
  }

  /** The staking changes of an executed block; while joining it also moves the node past that block. */
  function OnNewBlock(s: Node, height: Slot, hash: ProposalHash, actions: seq<BlockAction>, newBonded: seq<Pubkey>): (Node, bool) {
    var (staking, ok) := ProcessBlock(s.staking, actions, newBonded);
    var s1 := s.(staking := staking);
    if !ok then (s1, false)
    else if s.tag.Joining? && s.stakingUpdatedTo < height then (SkipTo(s1, height, hash), true)
    else (s1, true)
  }

  /** Everything that can happen to a node; `ask` is the peer picked for sync requests. */
  datatype Input =
    | Receive(sender: Pubkey, msg: NetMessage, ask: Destination)
    | TimeoutTick
    | StartSlot(mayDelay: Option<Timestamp>, answer: CutAnswer)
    | NewBlock(height: Slot, hash: ProposalHash, actions: seq<BlockAction>, newBonded: seq<Pubkey>)

  function OnMessage(c: Config, s: Node, sender: Pubkey, msg: NetMessage, ask: Destination, now: Timestamp): (Node, bool) {
    match msg
    case PrepareMsg(p, ticket, view) => OnPrepare(c, s, Prepare(sender, p, ticket, view), ask, now)
    case PrepareVoteMsg(vote) => OnPrepareVote(c, s, vote)
    case ConfirmMsg(qc, hash) => OnConfirm(c, s, qc, hash)
    case ConfirmAckMsg(ack) => OnConfirmAck(c, s, ack, now)
    case CommitMsg(qc, hash) => OnCommit(c, s, qc, hash, now)
    case TimeoutMsg(t) => OnTimeout(c, s, t, now)
    case TimeoutCertificateMsg(tc, kind, slot, view) => OnTimeoutCertificate(c, s, tc, kind, slot, view, now)
    case CandidacyMsg(candidacy) => OnCandidacy(s, candidacy)
    case SyncRequestMsg(hash) => (OnSyncRequest(s, sender, hash), true)
    case SyncReplyMsg(p) => OnPrepare(c, s, p, ask, now)
  }

  function Handle(c: Config, s: Node, input: Input, now: Timestamp): (Node, bool) {
    match input
    case Receive(sender, msg, ask) => OnMessage(c, s, sender, msg, ask, now)
    case TimeoutTick => OnTimeoutTick(c, s, now)
    case StartSlot(mayDelay, answer) => StartRound(c, s, now, mayDelay, answer)
    case NewBlock(height, hash, actions, newBonded) => OnNewBlock(s, height, hash, actions, newBonded)
  }
}
