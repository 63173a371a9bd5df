/**
  A round that times out: exactly when the timeouts a node hears end its view, and exactly when the
  certificate it then sends takes the others along.
 */
module ViewChange {
  import opened Model
  import opened Aggregation
  import opened Staking
  import opened Messages
  import opened Round
  import opened Safety

  function MetaOf(s: Node): TimeoutMeta {
    TimeoutMeta(s.slot, s.view, s.parentHash)
  }

  /** A certificate a timeout may carry: 2f + 1 prepare votes on a proposal of the slot. */
  predicate PrepareQcFine(r: Registry, slot: Slot, qc: AggregateSignature, p: ConsensusProposal) {
    p.slot == slot && VerifyQc(r, VoteBytes(Hash(p)), qc)
  }

  /** A bonded participant; its recorded certificate is of no later slot, as in every run from genesis. */
  predicate TakesPart(c: Config, s: Node) {
    !s.tag.Joining? && IsBonded(s.staking, c.me) && (s.highestQc.Some? ==> s.highestQc.value.slot <= s.slot)
  }

  //  The node's own timeout

  /** A prepare certificate recorded for the slot is one for the node's current proposal. */
  predicate Fits(s: Node) {
    HasPrepareQcFor(s, s.slot) ==> PrepareQcFine(s.staking, s.slot, s.highestQc.value.qc, s.current)
  }

  /** A confirm records its certificate for the current slot; that fits exactly when the proposal is of this slot. */
  lemma ConfirmKeepsFitIff(c: Config, s: Node, qc: AggregateSignature)
    requires TakesPart(c, s) && Fits(s) && s.tag.Follower? && VerifyQc(s.staking, VoteBytes(Hash(s.current)), qc)
    ensures Fits(OnConfirm(c, s, qc, Hash(s.current)).0) <==> CurrentSlotPrepareIsPresent(s)
  {
    var s' := OnConfirm(c, s, qc, Hash(s.current)).0;
    assert s'.highestQc == Some(PrepareQcAt(s.slot, qc));
  }

  lemma OneHashPerCertificate(r: Registry, a: ProposalHash, b: ProposalHash, qc: AggregateSignature)
    requires VerifyQc(r, VoteBytes(a), qc)
    ensures VerifyQc(r, VoteBytes(b), qc) <==> a == b
  {
    var v :| v in qc.validators;
    assert Share(v, VoteBytes(a)) in qc.shares;
  }

  /** Accepting a proposal keeps the fit exactly when it is the one the recorded certificate is for. */
  lemma AcceptKeepsFitIff(c: Config, s: Node, p: Prepare)
    requires Fits(s) && AcceptProposal(c, s, p).1
    ensures Fits(AcceptProposal(c, s, p).0) <==> (HasPrepareQcFor(s, s.slot) ==> Hash(p.proposal) == Hash(s.current))
  {
    if HasPrepareQcFor(s, s.slot) {
      OneHashPerCertificate(s.staking, Hash(s.current), Hash(p.proposal), s.highestQc.value.qc);
    }
  }

  /** The peers of its round take a node's own timeout exactly when its certificate fits; otherwise it is refused. */
  lemma OwnTimeoutTakenIff(c: Config, s: Node, c': Config, peer: Node, now: Timestamp)
    requires IsBonded(peer.staking, c'.me) && peer.staking == s.staking && MetaOf(peer) == MetaOf(s)
    ensures AdoptTimeout(peer, TimeoutMessage(c, s)).1 <==> Fits(s)
    ensures !Fits(s) ==> OnTimeout(c', peer, TimeoutMessage(c, s), now) == (peer, false)
  {}

  /**
    A confirm that arrives after its commit spoils the fit of a follower whose committed proposal
    had no staking actions: the proposal is still current, and the certificate goes to the next slot.
   */
  lemma StaleConfirmSpoilsFit(c: Config, s: Node, qc: AggregateSignature, now: Timestamp)
    requires TakesPart(c, s) && s.tag.Follower? && CurrentSlotPrepareIsPresent(s)
    requires s.current.stakingActions == [] && s.staking.fees.pending == []
    requires VerifyQc(s.staking, VoteBytes(Hash(s.current)), qc) && LeaderAt(s.staking.bonded, s.slot + 1, 0) != Some(c.me)
    ensures var s1 := OnCommit(c, s, qc, Hash(s.current), now).0;
            var s2 := OnConfirm(c, s1, qc, Hash(s.current)).0;
            s1.commits == s.commits + [Committed(s.staking, s.current, qc)] && TakesPart(c, s1) && Fits(s1) && !Fits(s2)
  {
    var s1 := OnCommit(c, s, qc, Hash(s.current), now).0;
    assert SettleStaking(s.staking, []) == (s.staking, true);
    assert s1.current == s.current && s1.staking == s.staking;
    CommitAdvance(c, s, qc, CommitQc(qc), now);
    ConfirmKeepsFitIff(c, s1, qc);
  }

  //  Counting

  /** The validators counted once `vs` have been heard: above f the node joins them. */
  function Counted(c: Config, r: Registry, vs: set<Pubkey>): set<Pubkey> {
    if Power(r, vs) > F(r) then vs + {c.me} else vs
  }

  /** More than f have been heard, and they hold more than 2f together with the node. */
  predicate Ends(c: Config, r: Registry, vs: set<Pubkey>) {
    Power(r, vs) > F(r) && Power(r, vs + {c.me}) > 2 * F(r)
  }

  /** Having heard `heard`, the node joins in when they hold more than f and it is not among them. */
  predicate Joins(c: Config, r: Registry, heard: set<Pubkey>) {
    Power(r, heard) > F(r) && c.me !in heard
  }

  function PowerBehind(c: Config, r: Registry, heard: set<Pubkey>): nat {
    Power(r, heard) + if Joins(c, r, heard) then Stake(r, c.me) else 0
  }

  lemma EndsMonotone(c: Config, r: Registry, vs: set<Pubkey>, v: Pubkey)
    ensures Power(r, vs) <= Power(r, vs + {v})
    ensures Ends(c, r, vs) ==> Ends(c, r, vs + {v})
  {
    PowerMonotone(r, vs, vs + {v});
    PowerMonotone(r, vs + {c.me}, vs + {v} + {c.me});
  }

  lemma CountedAgain(c: Config, r: Registry, vs: set<Pubkey>, v: Pubkey)
    requires v in Counted(c, r, vs)
    ensures Counted(c, r, vs + {v}) == Counted(c, r, vs)
    ensures Ends(c, r, vs + {v}) <==> Ends(c, r, vs)
  {
    EndsMonotone(c, r, vs, v);
    if v in vs {
      assert vs + {v} == vs;
    } else {
      assert vs + {v} + {c.me} == vs + {c.me};
    }
  }

  lemma CountedStep(c: Config, r: Registry, vs: set<Pubkey>, v: Pubkey)
    ensures var heard := Counted(c, r, vs) + {v};
            && Counted(c, r, vs + {v}) == (if Joins(c, r, heard) then heard + {c.me} else heard)
            && (Ends(c, r, vs + {v}) <==> PowerBehind(c, r, heard) > 2 * F(r))
  {
    EndsMonotone(c, r, vs, v);
    var heard := Counted(c, r, vs) + {v};
    PowerAdd(r, heard, c.me);
    if Power(r, vs) > F(r) {
      assert heard == vs + {v} + {c.me} && heard + {c.me} == heard;
      PowerMonotone(r, vs, heard);
    } else if c.me in heard {
      assert heard + {c.me} == heard;
    }
  }

  lemma ValidatorsAdd(requests: set<ConsensusTimeout>, t: ConsensusTimeout)
    ensures TimeoutValidators(requests + {t}) == TimeoutValidators(requests) + {t.signed.validator}
  {
    assert t in requests + {t};
    forall v | v in TimeoutValidators(requests) ensures v in TimeoutValidators(requests + {t}) {
      var u :| u in requests && u.signed.validator == v;
      assert u in requests + {t};
    }
  }

  //  What closes a view

  /** A timeout of the round whose certificate, if it carries one, is fine. Signatures are not looked at yet. */
  predicate Admissible(r: Registry, m: TimeoutMeta, t: ConsensusTimeout) {
    t.signed.msg == m && (t.kind.PrepareQcKind? ==> PrepareQcFine(r, m.slot, t.kind.qc, t.kind.proposal))
  }

  predicate CarriesQc(filed: set<ConsensusTimeout>) {
    exists t :: t in filed && t.kind.PrepareQcKind?
  }

  /** The node has a prepare certificate for the slot, its own or one from the timeouts. */
  predicate HasQc(s0: Node, filed: set<ConsensusTimeout>) {
    HasPrepareQcFor(s0, s0.slot) || CarriesQc(filed)
  }

  /** The signatures that go into the certificate. */
  function Signatures(filed: set<ConsensusTimeout>, hasQc: bool): set<Signed<TimeoutMeta>> {
    if hasQc then set t | t in filed :: t.signed else set t | t in filed && t.kind.NilProposal? :: t.kind.inner
  }

  function CertificateFrom(c: Config, s0: Node, filed: set<ConsensusTimeout>): Option<AggregateSignature> {
    SignAggregate(c.me, MetaOf(s0), MetaBytes(MetaOf(s0)), Signatures(filed, HasQc(s0, filed)))
  }

  /** Enough have been heard, and their signatures aggregate. */
  predicate Closes(c: Config, s0: Node, filed: set<ConsensusTimeout>) {
    Ends(c, s0.staking, TimeoutValidators(filed)) && CertificateFrom(c, s0, filed).Some?
  }

  //  While the view lasts

  predicate IsOwn(c: Config, m: TimeoutMeta, t: ConsensusTimeout) {
    t.signed == SignTimeout(c.me, m) && (t.kind.NilProposal? ==> t.kind.inner == SignTimeout(c.me, m))
  }

  /** Still in the round of `s0`, with `filed` and at most the node's own timeout collected. */
  ghost predicate Gathering(c: Config, s0: Node, filed: set<ConsensusTimeout>, s: Node) {
    && TakesPart(c, s) && s.staking == s0.staking && MetaOf(s) == MetaOf(s0) && s.commits == s0.commits
    && !s.timeoutState.CertificateEmitted?
    && filed <= s.requests
    && (forall t :: t in s.requests && t !in filed ==> IsOwn(c, MetaOf(s), t))
    && (HasPrepareQcFor(s, s.slot) <==> HasQc(s0, filed))
    && (!HasQc(s0, filed) ==> forall t :: t in s.requests ==> t.kind.NilProposal?)
    && (Fits(s) <==> Fits(s0) || CarriesQc(filed))
  }

  ghost predicate Waiting(c: Config, s0: Node, filed: set<ConsensusTimeout>, s: Node) {
    Gathering(c, s0, filed, s) && TimeoutValidators(s.requests) == Counted(c, s.staking, TimeoutValidators(filed))
  }

  //  The ticket

  /** The ticket made of the collected timeouts; the prepare certificate in it may fail to fit. */
  ghost predicate Made(c: Config, s0: Node, filed: set<ConsensusTimeout>, ticket: Ticket) {
    && ticket.TimeoutQc? && CertificateFrom(c, s0, filed) == Some(ticket.tc)
    && (ticket.kind.TcPrepareQc? <==> HasQc(s0, filed))
    && (ticket.kind.TcPrepareQc? ==>
          (PrepareQcFine(s0.staking, s0.slot, ticket.kind.qc, ticket.kind.proposal) <==> Fits(s0) || CarriesQc(filed)))
  }

  lemma SameSigned(c: Config, m: TimeoutMeta, filed: set<ConsensusTimeout>, requests: set<ConsensusTimeout>)
    requires filed <= requests && forall t :: t in requests && t !in filed ==> IsOwn(c, m, t)
    ensures (set t | t in requests :: t.signed) + {SignTimeout(c.me, m)} == (set t | t in filed :: t.signed) + {SignTimeout(c.me, m)}
  {}

  lemma SameInner(c: Config, m: TimeoutMeta, filed: set<ConsensusTimeout>, requests: set<ConsensusTimeout>)
    requires filed <= requests && forall t :: t in requests && t !in filed ==> IsOwn(c, m, t)
    ensures (set t | t in requests && t.kind.NilProposal? :: t.kind.inner) + {SignTimeout(c.me, m)} ==
            (set t | t in filed && t.kind.NilProposal? :: t.kind.inner) + {SignTimeout(c.me, m)}
  {}

  /** The node's own signature is added in any case, so its own timeout among the others makes no difference. */
  lemma TicketIsMade(c: Config, s0: Node, filed: set<ConsensusTimeout>, s: Node)
    requires Gathering(c, s0, filed, s)
    ensures TimeoutTicket(c, s).Some? <==> CertificateFrom(c, s0, filed).Some?
    ensures TimeoutTicket(c, s).Some? ==> Made(c, s0, filed, TimeoutTicket(c, s).value)
  {
    SameSigned(c, MetaOf(s), filed, s.requests);
    SameInner(c, MetaOf(s), filed, s.requests);
  }

  /** What every participant of the round of `s0` checks. */
  predicate TicketFine(s0: Node, ticket: Ticket) {
    && ticket.TimeoutQc?
    && VerifyQc(s0.staking, MetaBytes(MetaOf(s0)), ticket.tc)
    && (ticket.kind.TcPrepareQc? ==> PrepareQcFine(s0.staking, s0.slot, ticket.kind.qc, ticket.kind.proposal))
  }

  /** An aggregate with the signer's own signature in it verifies; so it counts exactly when its signers may vote and suffice. */
  lemma AggregatePassesIff<T>(c: Config, r: Registry, msg: T, bytes: Message, votes: set<Signed<T>>)
    requires SignAggregate(c.me, msg, bytes, votes).Some? && IsBonded(r, c.me)
    ensures VerifyQc(r, bytes, SignAggregate(c.me, msg, bytes, votes).value) <==>
            (forall v :: v in Validators(votes) ==> IsBonded(r, v)) && Power(r, Validators(votes) + {c.me}) > 2 * F(r)
  {
    var own := Signed(msg, Share(c.me, bytes), c.me);
    var all := votes + {own};
    var qc := SignAggregate(c.me, msg, bytes, votes).value;
    AllValidators(votes, own);
    assert qc.validators == Validators(votes) + {c.me};
    if |all| == 1 {
      OnlyOne(all, own);
      assert qc.shares == {Share(c.me, bytes)} && qc.validators == {c.me};
    } else {
      BalancedVerifies(all, bytes);
    }
    assert VerifyAggregate(bytes, qc);
  }

  /** It is made exactly when the forged votes make up for each other; a single one spoils it. */
  lemma AggregatesIffForgedCancel<T>(c: Config, msg: T, bytes: Message, votes: set<Signed<T>>)
    ensures SignAggregate(c.me, msg, bytes, votes).Some? <==> Balanced(Forged(votes, bytes), bytes)
    ensures |Forged(votes, bytes)| == 1 ==> SignAggregate(c.me, msg, bytes, votes).None?
  {
    var own := Signed(msg, Share(c.me, bytes), c.me);
    var all, forged := votes + {own}, Forged(votes, bytes);
    assert Forged(all, bytes) == forged;
    ForgedDecide(all, bytes);
    if |all| == 1 {
      OnlyOne(all, own);
      assert forged == {};
    } else if |forged| == 1 {
      var u :| u in forged;
      OnlyOne(forged, u);
      OneForgedVoteSpoils(all, bytes, u);
    }
  }

  lemma AllValidators<T>(votes: set<Signed<T>>, own: Signed<T>)
    ensures Validators(votes + {own}) == Validators(votes) + {own.validator}
  {
    assert own in votes + {own};
    forall v | v in Validators(votes) ensures v in Validators(votes + {own}) {
      var x :| x in votes && x.validator == v;
      assert x in votes + {own};
    }
  }

  lemma OnlyOne<T>(s: set<T>, x: T)
    requires |s| == 1 && x in s
    ensures s == {x}
  {
    assert |s - {x}| == 0;
  }

  /** The ticket passes the others exactly when its signers may vote and suffice, and its prepare certificate fits. */
  lemma TicketFineIff(c: Config, s0: Node, filed: set<ConsensusTimeout>, ticket: Ticket)
    requires Made(c, s0, filed, ticket) && IsBonded(s0.staking, c.me)
    ensures var signers := Validators(Signatures(filed, HasQc(s0, filed)));
            TicketFine(s0, ticket) <==>
              && (forall v :: v in signers ==> IsBonded(s0.staking, v))
              && Power(s0.staking, signers + {c.me}) > 2 * F(s0.staking)
              && (Fits(s0) || CarriesQc(filed))
  {
    AggregatePassesIff(c, s0.staking, MetaOf(s0), MetaBytes(MetaOf(s0)), Signatures(filed, HasQc(s0, filed)));
  }

  //  When the view is over

  /** The ticket went to everyone, or the node leads the next view and will propose with it. */
  predicate Passed(c: Config, s0: Node, ticket: Ticket, s: Node)
    requires ticket.TimeoutQc?
  {
    if NextViewLeader(s0) == Some(c.me) then
      s.tag.Leader? && (HasNoBufferedChildren(s) ==> s.leader.pendingTicket == Some(ticket))
    else
      s.tag.Follower? && Network(s0.slot, s0.view, Everyone, TimeoutCertificateMsg(ticket.tc, ticket.kind, s0.slot, s0.view)) in s.sent
  }

  ghost predicate Over(c: Config, s0: Node, filed: set<ConsensusTimeout>, ticket: Ticket, s: Node) {
    && s.slot == s0.slot && s.view == s0.view + 1 && s.parentHash == s0.parentHash
    && s.staking == s0.staking && s.commits == s0.commits
    && RoundLeader(s) == NextViewLeader(s0)
    && Made(c, s0, filed, ticket) && Passed(c, s0, ticket, s)
  }

  /** What a ticket does to a node that takes part. */
  ghost predicate Stepped(c: Config, s: Node, ticket: Ticket, s': Node) {
    && s'.slot == s.slot && s'.view == s.view + 1 && s'.parentHash == s.parentHash
    && s'.parentTimestamp == s.parentTimestamp && s'.parentCut == s.parentCut
    && s'.staking == s.staking && s'.commits == s.commits && s.sent <= s'.sent
    && s'.buffer == s.buffer && s'.candidates == s.candidates
    && RoundLeader(s') == NextViewLeader(s)
    && (s'.tag == if NextViewLeader(s) == Some(c.me) then Leader else Follower)
    && (s'.tag.Leader? && HasNoBufferedChildren(s') ==> s'.leader.pendingTicket == Some(ticket))
  }

  lemma AdvanceSteps(c: Config, s: Node, ticket: Ticket, now: Timestamp)
    requires !s.tag.Joining? && s.staking.bonded != [] && ticket.TimeoutQc?
    ensures AdvanceRound(c, s, ticket, now).1 && Stepped(c, s, ticket, AdvanceRound(c, s, ticket, now).0)
  {}

  /** The node as it leaves the view. */
  function Leaving(c: Config, s: Node, ticket: Ticket, now: Timestamp): Node
    requires ticket.TimeoutQc? && s.staking.bonded != []
  {
    PassTicket(c, ScheduleTimeout(c, s, now), ticket, NextViewLeader(s).value)
  }

  lemma CertifySteps(c: Config, s: Node, ticket: Ticket, now: Timestamp)
    requires s.staking.bonded != [] && TimeoutTicket(c, s) == Some(ticket) && ticket.TimeoutQc?
    ensures CertifyTimeout(c, s, now) == AdvanceRound(c, Leaving(c, s, ticket, now), ticket, now)
  {
    assert NextViewLeader(ScheduleTimeout(c, s, now)) == NextViewLeader(s);
  }

  lemma SteppedEnds(c: Config, s0: Node, filed: set<ConsensusTimeout>, s: Node, ticket: Ticket, now: Timestamp, s': Node)
    requires Gathering(c, s0, filed, s) && Made(c, s0, filed, ticket) && Stepped(c, Leaving(c, s, ticket, now), ticket, s')
    ensures Over(c, s0, filed, ticket, s')
  {
    var left := Leaving(c, s, ticket, now);
    if NextViewLeader(s) != Some(c.me) {
      assert s'.sent[|s.sent|] == left.sent[|s.sent|];
    }
  }

  lemma CertifyDecides(c: Config, s0: Node, filed: set<ConsensusTimeout>, s: Node, now: Timestamp) returns (ticket: Ticket)
    requires Gathering(c, s0, filed, s)
    ensures if CertificateFrom(c, s0, filed).Some? then Over(c, s0, filed, ticket, CertifyTimeout(c, s, now).0)
            else CertifyTimeout(c, s, now) == (s, false)
  {
    ticket := Genesis;
    TicketIsMade(c, s0, filed, s);
    if TimeoutTicket(c, s).Some? {
      ticket := TimeoutTicket(c, s).value;
      CertifySteps(c, s, ticket, now);
      var left := Leaving(c, s, ticket, now);
      AdvanceSteps(c, left, ticket, now);
      SteppedEnds(c, s0, filed, s, ticket, now, AdvanceRound(c, left, ticket, now).0);
    }
  }

  //  One timeout

  lemma JoinCounts(c: Config, s0: Node, filed: set<ConsensusTimeout>, s: Node, now: Timestamp)
    requires Gathering(c, s0, filed, s)
    ensures var (s', power) := JoinMutiny(c, s, now);
            var heard := TimeoutValidators(s.requests);
            && Gathering(c, s0, filed, s')
            && TimeoutValidators(s'.requests) == (if Joins(c, s.staking, heard) then heard + {c.me} else heard)
            && power == PowerBehind(c, s.staking, heard)
  {
    ValidatorsAdd(s.requests, TimeoutMessage(c, s));
  }

  /** A timeout that was filed is counted, and then the votes and their signatures decide. */
  lemma CountDecides(c: Config, s0: Node, filed: set<ConsensusTimeout>, t: ConsensusTimeout, s: Node, now: Timestamp) returns (ticket: Ticket)
    requires Gathering(c, s0, filed + {t}, s)
    requires TimeoutValidators(s.requests) == Counted(c, s.staking, TimeoutValidators(filed)) + {t.signed.validator}
    ensures var s' := CountTimeout(c, s, now).0;
            if Closes(c, s0, filed + {t}) then Over(c, s0, filed + {t}, ticket, s') else Waiting(c, s0, filed + {t}, s')
  {
    ticket := Genesis;
    ValidatorsAdd(filed, t);
    CountedStep(c, s.staking, TimeoutValidators(filed), t.signed.validator);
    JoinCounts(c, s0, filed + {t}, s, now);
    if Ends(c, s.staking, TimeoutValidators(filed + {t})) {
      ticket := CertifyDecides(c, s0, filed + {t}, JoinMutiny(c, s, now).0, now);
    }
  }

  function Filing(r: Registry, m: TimeoutMeta, filed: set<ConsensusTimeout>, t: ConsensusTimeout): set<ConsensusTimeout> {
    if Admissible(r, m, t) then filed + {t} else filed
  }

  lemma AdoptKeeps(c: Config, s0: Node, filed: set<ConsensusTimeout>, s: Node, t: ConsensusTimeout)
    requires Gathering(c, s0, filed, s) && t.signed.msg == MetaOf(s) && Admissible(s.staking, MetaOf(s), t)
    ensures var (s1, ok) := AdoptTimeout(s, t);
            ok && s1.requests == s.requests && Gathering(c, s0, filed + {t}, s1.(requests := s1.requests + {t}))
  {
    var s1 := AdoptTimeout(s, t).0;
    assert CarriesQc(filed + {t}) <==> CarriesQc(filed) || t.kind.PrepareQcKind? by {
      assert t in filed + {t};
      if CarriesQc(filed) {
        var u :| u in filed && u.kind.PrepareQcKind?;
        assert u in filed + {t};
      }
    }
  }

  /** A timeout that is already there changes neither the count nor the certificate. */
  lemma KnownTimeoutKeeps(c: Config, s0: Node, filed: set<ConsensusTimeout>, s: Node, t: ConsensusTimeout)
    requires Waiting(c, s0, filed, s) && t in s.requests && Admissible(s.staking, MetaOf(s), t)
    ensures TimeoutValidators(s.requests) == Counted(c, s.staking, TimeoutValidators(filed + {t}))
    ensures Closes(c, s0, filed + {t}) <==> Closes(c, s0, filed)
  {
    assert t.signed.validator in TimeoutValidators(s.requests);
    ValidatorsAdd(filed, t);
    CountedAgain(c, s.staking, TimeoutValidators(filed), t.signed.validator);
    if t in filed {
      assert filed + {t} == filed;
    } else {
      KnownTicketKeeps(c, s0, filed, s, t);
    }
  }

  lemma KnownTicketKeeps(c: Config, s0: Node, filed: set<ConsensusTimeout>, s: Node, t: ConsensusTimeout)
    requires Gathering(c, s0, filed, s) && t in s.requests && t !in filed
    ensures CertificateFrom(c, s0, filed + {t}) == CertificateFrom(c, s0, filed)
  {
    SameSigned(c, MetaOf(s0), filed, filed + {t});
    SameInner(c, MetaOf(s0), filed, filed + {t});
    assert HasQc(s0, filed + {t}) <==> HasQc(s0, filed) by {
      if CarriesQc(filed) {
        var u :| u in filed && u.kind.PrepareQcKind?;
        assert u in filed + {t};
      }
    }
  }

  /** Any timeout at all: the view ends exactly when what is filed by then closes it. */
  lemma OneTimeout(c: Config, s0: Node, filed: set<ConsensusTimeout>, s: Node, t: ConsensusTimeout, now: Timestamp) returns (ticket: Ticket)
    requires Waiting(c, s0, filed, s) && !Closes(c, s0, filed)
    ensures var s' := OnTimeout(c, s, t, now).0;
            var filed' := Filing(s.staking, MetaOf(s), filed, t);
            if Closes(c, s0, filed') then Over(c, s0, filed', ticket, s') else Waiting(c, s0, filed', s')
  {
    ticket := Genesis;
    if Admissible(s.staking, MetaOf(s), t) {
      AdoptKeeps(c, s0, filed, s, t);
      var s1 := AdoptTimeout(s, t).0;
      if t in s1.requests {
        KnownTimeoutKeeps(c, s0, filed, s, t);
        assert s1.(requests := s1.requests + {t}) == s1;
      } else {
        ValidatorsAdd(s1.requests, t);
        ticket := CountDecides(c, s0, filed, t, s1.(requests := s1.requests + {t}), now);
      }
    }
  }

  //  A whole view

  datatype Heard = Heard(timeout: ConsensusTimeout, now: Timestamp)

  function Hear(c: Config, s: Node, heard: seq<Heard>): Node {
    if heard == [] then s
    else
      var n := |heard| - 1;
      OnTimeout(c, Hear(c, s, heard[..n]), heard[n].timeout, heard[n].now).0
  }

  /** The admissible timeouts among those heard. */
  function Filed(r: Registry, m: TimeoutMeta, heard: seq<Heard>): set<ConsensusTimeout> {
    set h | h in heard && Admissible(r, m, h.timeout) :: h.timeout
  }

  lemma FiledSplit(r: Registry, m: TimeoutMeta, heard: seq<Heard>)
    requires heard != []
    ensures var n := |heard| - 1; Filed(r, m, heard) == Filing(r, m, Filed(r, m, heard[..n]), heard[n].timeout)
  {
    var n := |heard| - 1;
    assert heard == heard[..n] + [heard[n]];
    forall t | t in Filed(r, m, heard[..n]) ensures t in Filed(r, m, heard) {
      var h :| h in heard[..n] && Admissible(r, m, h.timeout) && h.timeout == t;
      assert h in heard;
    }
    assert heard[n] in heard;
  }

  predicate ClosesAfter(c: Config, s: Node, heard: seq<Heard>, k: nat)
    requires k <= |heard|
  {
    Closes(c, s, Filed(s.staking, MetaOf(s), heard[..k]))
  }

  /** No timeout before the last one closed the view. */
  predicate StillOpen(c: Config, s: Node, heard: seq<Heard>) {
    forall k :: 0 <= k < |heard| ==> !ClosesAfter(c, s, heard, k)
  }

  lemma StillOpenBefore(c: Config, s: Node, heard: seq<Heard>)
    requires heard != [] && StillOpen(c, s, heard)
    ensures var before := heard[..|heard| - 1];
            StillOpen(c, s, before) && !Closes(c, s, Filed(s.staking, MetaOf(s), before))
  {
    var n := |heard| - 1;
    forall k | 0 <= k < n ensures !ClosesAfter(c, s, heard[..n], k) {
      assert !ClosesAfter(c, s, heard, k) && heard[..n][..k] == heard[..k];
    }
    assert !ClosesAfter(c, s, heard, n);
  }

  lemma NothingHeard(c: Config, s: Node)
    requires TakesPart(c, s) && s.requests == {} && !s.timeoutState.CertificateEmitted?
    ensures Filed(s.staking, MetaOf(s), []) == {} && !Closes(c, s, {}) && Waiting(c, s, {}, s)
  {
    assert TimeoutValidators({}) == {} && Power(s.staking, {}) == 0;
  }

  /**
    Whatever timeouts a node hears, honest or not, of its round or not, in any order and mix: it
    stays in the view until the admissible ones it has heard hold more than f and, with it, more
    than 2f, and their signatures aggregate; with that one the view is over.
   */
  lemma {:induction false} ViewEndsIff(c: Config, s: Node, heard: seq<Heard>) returns (ticket: Ticket)
    requires TakesPart(c, s) && s.requests == {} && !s.timeoutState.CertificateEmitted?
    requires StillOpen(c, s, heard)
    ensures var s' := Hear(c, s, heard);
            var filed := Filed(s.staking, MetaOf(s), heard);
            if Closes(c, s, filed) then Over(c, s, filed, ticket, s') else Waiting(c, s, filed, s')
    decreases |heard|
  {
    var r, m := s.staking, MetaOf(s);
    ticket := Genesis;
    if heard == [] {
      NothingHeard(c, s);
    } else {
      var n := |heard| - 1;
      StillOpenBefore(c, s, heard);
      FiledSplit(r, m, heard);
      var none := ViewEndsIff(c, s, heard[..n]);
      ticket := OneTimeout(c, s, Filed(r, m, heard[..n]), Hear(c, s, heard[..n]), heard[n].timeout, heard[n].now);
    }
  }

  /** Once the view is over, timeouts of it change nothing. */
  lemma LateTimeoutIsIgnored(c: Config, s0: Node, filed: set<ConsensusTimeout>, ticket: Ticket, s: Node, t: ConsensusTimeout, now: Timestamp)
    requires Over(c, s0, filed, ticket, s) && t.signed.msg == MetaOf(s0)
    ensures OnTimeout(c, s, t, now) == (s, true)
  {}

  //  Honest timeouts

  /** What a bonded validator that follows the protocol sends when the round times out for it. */
  predicate Honest(r: Registry, m: TimeoutMeta, t: ConsensusTimeout) {
    && Admissible(r, m, t)
    && IsBonded(r, t.signed.validator)
    && t.signed == SignTimeout(t.signed.validator, m)
    && (t.kind.NilProposal? ==> t.kind.inner == SignTimeout(t.signed.validator, m))
  }

  lemma OwnTimeoutIsHonest(c: Config, s: Node)
    requires TakesPart(c, s) && Fits(s)
    ensures Honest(s.staking, MetaOf(s), TimeoutMessage(c, s)) && TimeoutMessage(c, s).signed.validator == c.me
  {}

  function Metas(vs: set<Pubkey>, m: TimeoutMeta): set<Signed<TimeoutMeta>> {
    set v | v in vs :: SignTimeout(v, m)
  }

  lemma MetasAggregate(c: Config, m: TimeoutMeta, vs: set<Pubkey>)
    ensures SignAggregate(c.me, m, MetaBytes(m), Metas(vs, m)).Some? && Validators(Metas(vs, m)) == vs
  {
    AggregatesIffForgedCancel(c, m, MetaBytes(m), Metas(vs, m));
    assert Forged(Metas(vs, m), MetaBytes(m)) == {};
    assert forall v :: v in vs ==> SignTimeout(v, m) in Metas(vs, m);
  }

  lemma HonestSignatures(r: Registry, m: TimeoutMeta, filed: set<ConsensusTimeout>)
    requires forall t :: t in filed ==> Honest(r, m, t)
    ensures Signatures(filed, true) == Metas(TimeoutValidators(filed), m)
    ensures !CarriesQc(filed) ==> Signatures(filed, false) == Metas(TimeoutValidators(filed), m)
  {
    var vs := TimeoutValidators(filed);
    forall x | x in Metas(vs, m) ensures x in Signatures(filed, true) {
      var v :| v in vs && x == SignTimeout(v, m);
      var t :| t in filed && t.signed.validator == v;
      assert t.signed in Signatures(filed, true);
    }
    if !CarriesQc(filed) {
      var inners := Signatures(filed, false);
      forall x | x in Metas(vs, m) ensures x in inners {
        var v :| v in vs && x == SignTimeout(v, m);
        var t :| t in filed && t.signed.validator == v;
        assert t.kind.inner in inners;
      }
    }
  }

  /** Honest timeouts close the view as soon as they are enough, and their ticket passes when the node's certificate fits. */
  lemma HonestTimeoutsCloseIff(c: Config, s: Node, filed: set<ConsensusTimeout>, ticket: Ticket)
    requires TakesPart(c, s) && forall t :: t in filed ==> Honest(s.staking, MetaOf(s), t)
    ensures Closes(c, s, filed) <==> Ends(c, s.staking, TimeoutValidators(filed))
    ensures Closes(c, s, filed) && Made(c, s, filed, ticket) ==> (TicketFine(s, ticket) <==> Fits(s) || CarriesQc(filed))
  {
    var vs, m := TimeoutValidators(filed), MetaOf(s);
    HonestSignatures(s.staking, m, filed);
    MetasAggregate(c, m, vs);
    forall v | v in vs ensures IsBonded(s.staking, v) {
      var t :| t in filed && t.signed.validator == v;
    }
    if Made(c, s, filed, ticket) {
      TicketFineIff(c, s, filed, ticket);
    }
  }

  //  The others

  /** A ticket takes a participant of the round along exactly when it is fine, and then to the next leader. */
  lemma CertificateMovesOthersIff(c: Config, s: Node, ticket: Ticket, now: Timestamp)
    requires ticket.TimeoutQc? && !s.tag.Joining? && s.staking.bonded != []
    ensures var (s', ok) := OnTimeoutCertificate(c, s, ticket.tc, ticket.kind, s.slot, s.view, now);
            (ok <==> TicketFine(s, ticket)) && (if ok then Stepped(c, s, ticket, s') else s' == s)
  {
    if TicketFine(s, ticket) {
      AdvanceSteps(c, VerifyTc(s, ticket.tc, ticket.kind, s.slot, s.view).0, ticket, now);
    }
  }

  lemma JoiningStays(c: Config, s: Node, ticket: Ticket, now: Timestamp)
    requires s.tag.Joining?
    ensures AdvanceRound(c, s, ticket, now) == (s, false)
  {}

  lemma VerifyTcDecides(s: Node, ticket: Ticket)
    requires ticket.TimeoutQc?
    ensures var (s1, ok) := VerifyTc(s, ticket.tc, ticket.kind, s.slot, s.view);
            (ok <==> TicketFine(s, ticket)) && s1.tag == s.tag && s1.staking == s.staking && s1.slot == s.slot && s1.view == s.view
  {}

  /** A joining node takes part after a fine certificate of its round exactly when it will not lead the next view. */
  lemma CertificateEndsJoiningIff(c: Config, s: Node, ticket: Ticket, now: Timestamp)
    requires ticket.TimeoutQc? && s.tag.Joining?
    ensures var s' := OnTimeoutCertificate(c, s, ticket.tc, ticket.kind, s.slot, s.view, now).0;
            !s'.tag.Joining? <==> TicketFine(s, ticket) && s.staking.bonded != [] && NextViewLeader(s) != Some(c.me)
  {
    VerifyTcDecides(s, ticket);
    var s1 := VerifyTc(s, ticket.tc, ticket.kind, s.slot, s.view).0;
    if NextViewLeader(s) == Some(c.me) {
      JoiningStays(c, s1, ticket, now);
    } else if TicketFine(s, ticket) && s.staking.bonded != [] {
      AdvanceSteps(c, s1.(tag := Leader), ticket, now);
    }
  }
}
