# Verification of the hyle node core

This Dafny project models the parts of the hyle node that have to be right for any order of
messages, and proves what they keep:

- **Consensus** (`Round`, `ConsensusNode`): the Autobahn-style BFT round state machine. `Round` gives
  each handler as a function on a node state with a log of commits and sent messages; the class
  `Consensus` has the program's fields and handlers and is proved to do exactly that. `Safety` and
  `Runs` prove what every handler and every run keeps, and the object keeps that as its invariant.
  `Accountability` proves what two commits of one slot have in common, `HappyRound` and `ViewChange`
  exactly when a round completes or times out together, whatever the messages, `Misfits` that a node's own
  timeout can be one its peers refuse, `FitEvents` exactly which events bring that about, `StakingRuns` when
  the cached total bond stays right, `Aggregation` when signatures add up, `Rotation` who leads.
- **Mempool** (`Lanes`, `DataVotes`, `Cuts`, `Blocks`, `MempoolNode`): lanes as hash-linked lists, the
  cut a leader takes of them, the blocks built between two cuts and the queue they are retried from.
- **Data availability** (`DataAvailability`): the buffer that turns any arrival order into an ordered
  stream.
- **Staking** (`Staking`, `BondTotal`, `FeeLedger`): voting power, bonding, the cached total bond and the
  settling of dissemination fees, as far as consensus uses them.
- **Contract SDK** (`ContractSdk`, `MerkleCodec`): callers and callees, consumption of callees, and the
  Merkle-proof byte format.

`dafny verify dfyconfig.toml` checks everything.

## Conventions

- The contract of a class method says that the object's new state and the method's result are exactly those
  of the function of the same name in `Round`, `Lanes`, `Cuts`, `Blocks`, `DataAvailability`, `ContractSdk` or
  `MerkleCodec`. The theorems are about those functions and their runs, so they hold of the methods.
- Hashes are ideal: a digest is the tuple of the fields that are hashed (`crates/hyle-model/src/node/consensus.rs:107-131`,
  `crates/hyle-model/src/node/mempool.rs:128-144`), hence injective on them and never inside itself. The sizes
  and signatures of a cut are not hashed. The program concatenates fields without separators; collisions
  from that are not modelled.
- Signatures are ideal: `Share(v, m)` exists only because `v` signed `m`. The vote markers are empty structs
  and serialize to nothing, so a prepare vote and a confirm ack on one hash are the same bytes, and so are
  the two signatures of a Nil timeout. A comment at `src/consensus/network.rs:48` speaks of a different message for
  the latter; the model follows the code. Aggregating a single signature passes it on unchecked, as the code does;
  several are added up with multiplicity, so forged ones can only pass if they make up for each other.
- `f` is a third of the total bond, rounded down (`crates/contracts/staking/src/state.rs:77-79`). A comment in
  `src/mempool/own_lane.rs:609` computes 167 for a total of 500; the code gives 166, and the overlap theorems
  are stated for what the code computes.
- Bus sends and storage writes succeed. Panics (`% 0` without bonded validators, `todo!()`) are handler
  failures; a node does not start without bonded validators (`src/consensus.rs:705`). Clocks, the mempool's answer to a cut query, and the randomly picked sync peer are inputs.
- Slots, views, sizes and heights are unbounded, except where the program's arithmetic wraps on purpose
  (`round_leader`, `prepare_view - 1`) or truncates (the codec's counts, the view in the timestamp check).
- `clean_and_update_lane` documents that it removes everything after the previous cut; `pop` sets the tip back
  to the popped hash, so the code removes at most one entry. The model follows the code, and
  `CleanRemovesPendingIff` says exactly when the documented purpose is met.
- `verify_poda` accepts a cut that names a lane twice, and a block of it then holds that lane's data twice. The
  conservation theorems say exactly when that does not happen; a leader's own cut never does it
  (`NewCutNamesLanesOnce`).
- `verify_poda` does not look at the size of an entry whose hash is the previous one, and sizes are not hashed. So
  a cut can record any size for a lane, and the lane's next entries are refused until they exceed it
  (`ExaggeratedSizeStalls`). A leader's own cut records no size larger than stored if the previous one did not.
- The cached total bond is not updated by later stakes and delegations, so `f` can be too small.
  `BlockKeepsInSyncIff` says exactly when a block keeps it right, `StaysInSyncIff` when a run does.
- `on_timeout_certificate` lets a joining node leave Joining when it is *not* the next leader, contrary to its
  comment; the model follows the code, and `CertificateEndsJoiningIff` says exactly when.

## Model

| member | source | states |
|---|---|---|
| `Runs.RoundsNeverGoBack` | src/consensus.rs:202-296 | over every run, a node that has left Joining never returns to it, its (slot, view) never decreases, and no commit or message already emitted is taken back |
| `Runs.CommitsAreConsecutive` | src/consensus.rs:529-562 | over every run, commit events have consecutive slots (0, 1, 2, ... after genesis), and slot and parent hash are those that follow the last commit |
| `Runs.LogIsConsecutive` | src/consensus.rs:545-562 | the commit log invariant read as: the slot of any two commits differs by their distance in the log |
| `Runs.CommitsAreCertified` | src/consensus.rs:341-400 | over every run, each commit after genesis carries either a verified certificate of at least 2f+1 bonded power on its own proposal, or the empty one of a forced commit |
| `Runs.OneProposalPerRound` | src/consensus/role_leader.rs:40-62 | over every run, at most one Prepare and at most one Confirm goes out for any (slot, view), whatever start commands and delays occur |
| `Runs.AckedSlotNeverTimesOutNil` | src/consensus/role_timeout.rs:467-503 | over every run from genesis, once a node has acknowledged in a slot, every later timeout it sends for that slot carries a prepare certificate |
| `Runs.RunKeeps` | src/consensus.rs:416-494 | the invariant behind the run theorems holds after any sequence of inputs, and time only moves forward |
| `Runs.StartedInv` | src/consensus.rs:681-758 | both ways of starting (after genesis with bonded validators, or rejoining from a saved state) meet the invariant |
| `Runs.InvIsSafe` | src/consensus.rs:529-562 | the invariant gives what is promised of a run: consecutive commits, certified or forced, one Prepare and Confirm a round, no empty timeout where it has acknowledged |
| `Runs.RunSplits` | src/consensus.rs:760-797 | a run is the run of its first events followed by the run of the others |
| `Safety.HandleKeeps` | src/consensus.rs:416-494 | every input, in every state, keeps the invariant and moves the node forward only |
| `Safety.OnMessageKeeps` | src/consensus.rs:416-494 | the same for every network message from any sender |
| `Safety.RoundMessageKeeps` | src/consensus.rs:416-494 | the same for the five messages of a round |
| `Safety.CalmKeeps` | src/consensus.rs:95-121 | any step that leaves round, commits, step and state alone keeps the invariant, provided the timeouts it sends own up to a prepare certificate |
| `Safety.CommitAdvance` | src/consensus.rs:202-296 | a commit appends exactly the current proposal to the log, opens the next slot at view 0 and builds on that proposal |
| `Safety.TimeoutAdvance` | src/consensus.rs:259-266 | a timeout ticket moves to the next view of the same slot and commits nothing |
| `Safety.CommitKeeps` | src/consensus.rs:529-562 | closing the slot with the current, certified or forced proposal keeps the invariant, from any call site |
| `Safety.TimeoutKeeps` | src/consensus.rs:259-266 | ending a view keeps the invariant |
| `Safety.OpensOrConfirmsKeeps` | src/consensus/role_leader.rs:172-288 | the two leader broadcasts keep the invariant |
| `Safety.StartRoundKeeps` | src/consensus/role_leader.rs:35-198 | starting a round keeps the invariant, including delayed starts |
| `Safety.OnPrepareVoteKeeps` | src/consensus/role_leader.rs:204-293 | a prepare vote keeps the invariant |
| `Safety.OnConfirmAckKeeps` | src/consensus/role_leader.rs:295-398 | a confirm ack keeps the invariant |
| `Safety.ProcessCommitTicketKeeps` | src/consensus/role_follower.rs:716-765 | a commit ticket keeps the invariant |
| `Safety.ForceCommitKeeps` | src/consensus/role_follower.rs:512-545 | a forced commit keeps the invariant |
| `Safety.TcKeeps` | src/consensus/role_follower.rs:554-567 | verifying and applying a timeout certificate keeps the invariant |
| `Safety.ProcessTcTicketKeeps` | src/consensus/role_follower.rs:472-571 | a timeout ticket keeps the invariant |
| `Safety.ProcessTicketKeeps` | src/consensus/role_follower.rs:83-105 | any ticket keeps the invariant |
| `Safety.OnPrepareKeeps` | src/consensus/role_follower.rs:33-201 | a Prepare keeps the invariant through any number of fast-forwards |
| `Safety.OnTicketProcessedKeeps` | src/consensus/role_follower.rs:127-200 | the second half of on_prepare keeps the invariant |
| `Safety.OnConfirmKeeps` | src/consensus/role_follower.rs:203-265 | a Confirm keeps the invariant, and the ack it causes is remembered |
| `Safety.AckKeeps` | src/consensus/role_follower.rs:242-260 | sending an ack keeps the invariant once the prepare certificate is recorded |
| `Safety.OnCommitKeeps` | src/consensus/role_follower.rs:267-308 | a Commit keeps the invariant in each of the three states |
| `Safety.OnCommitWhileJoiningKeeps` | src/consensus/role_follower.rs:573-630 | leaving Joining through a Commit establishes the invariant at the new slot |
| `Safety.CertifyTimeoutKeeps` | src/consensus/role_timeout.rs:359-462 | certifying a timeout keeps the invariant, the slot and the recorded prepare certificate |
| `Safety.CountTimeoutKeeps` | src/consensus/role_timeout.rs:307-464 | counting timeouts and joining them keeps the invariant |
| `Safety.OnTimeoutKeeps` | src/consensus/role_timeout.rs:220-465 | a timeout message keeps the invariant and the slot |
| `Safety.OnTimeoutTickKeeps` | src/consensus/role_timeout.rs:194-218 | the timeout tick keeps the invariant |
| `Safety.OnTimeoutCertificateKeeps` | src/consensus/role_timeout.rs:150-192 | a timeout certificate keeps the invariant |
| `Safety.OnNewBlockKeeps` | src/consensus.rs:609-643 | an executed block keeps the invariant; only a joining node is moved |
| `Accountability.QuorumsOverlap` | crates/contracts/staking/src/state.rs:77-90 | two sets of bonded validators of 2f+1 power each share at least 4f+2 minus the bonded power |
| `Accountability.ForkAccountability` | src/consensus.rs:341-400 | two certified commits of different proposals under equal staking: the common signers signed both, with at least f power when the registry is in sync and more than f unless the total bond is 2 modulo 3 |
| `Accountability.ForksInRuns` | src/consensus.rs:529-562 | the same for any two commits of one slot in any two runs: equal hashes, a forced commit, or those double signers |
| `StakingRuns.StaysInSyncIff` | src/consensus.rs:609-643 | over every run from genesis, whatever the genesis block staked, delegated and bonded, the cached total bond is right exactly when no executed block raises the stake of a validator that is bonded by then |
| `StakingRuns.ForksInSyncedRuns` | src/consensus.rs:529-562 | with one node that started in sync and saw no such block, the double signers of a fork hold at least f, and more than f unless the total bond is 2 modulo 3 |
| `StakingRuns.RunKeepsSlackIff` | src/consensus.rs:609-643 | over any run the cached total never gets less behind, and stays as far behind, in every commit on the way too, exactly when no block raises a bonded stake |
| `StakingRuns.HandleKeepsSlackIff` | src/consensus.rs:416-494 | the same for one input of any kind: only such a block makes a difference |
| `StakingRuns.GenesisInSync` | crates/contracts/staking/src/state.rs:171-191 | the registry after any genesis block is in sync |
| `StakingRuns.OnPrepareSteady` | src/consensus/role_follower.rs:33-201 | a Prepare with all its fast-forwards leaves the distance, in every commit on the way too |
| `Accountability.OverlapExceedsFIff` | crates/contracts/staking/src/state.rs:77-79 | two quorums of any registry in sync with a given total bond share more than f exactly when that total is not 2 modulo 3 |
| `Accountability.ThreeOverlap` | crates/contracts/staking/src/state.rs:77-90 | for every f, a registry of three bonded validators, in sync, whose two quorums share exactly f |
| `Accountability.ThreeBondedIs` | crates/contracts/staking/src/state.rs:57-74 | for f from the minimum stake on, bonding the three staked validators one after the other gives that registry |
| `Accountability.SettleKeepsSlack` | src/consensus.rs:229-257 | whatever a committed proposal bonds and charges, the distance between cached total and bonded power stays the same |
| `BondTotal.BondKeepsSlack` | crates/contracts/staking/src/state.rs:57-74 | bonding leaves the distance between bonded power and cached total as it was |
| `BondTotal.BondThreeIs` | crates/contracts/staking/src/state.rs:57-74 | bonding three staked validators in ascending order bonds exactly them and adds their stakes |
| `BondTotal.DelegateRaisesStake` | crates/contracts/staking/src/state.rs:118-133 | a delegation adds the delegator's stake to that validator and to no other |
| `BondTotal.StakeKeepsSlackIff` | crates/contracts/staking/src/state.rs:103-116 | staking never makes the cached total less behind, and leaves it exactly when the staker moves no tokens or has not delegated to a bonded validator |
| `BondTotal.DelegateKeepsSlackIff` | crates/contracts/staking/src/state.rs:118-133 | a delegation leaves the cached total as far behind exactly when it is not to a bonded validator or moves no tokens |
| `BondTotal.ActionsKeepSlackIff` | crates/contracts/staking/src/state.rs:171-191 | the staking actions of a block leave it exactly when none of them raises a bonded stake where it is applied |
| `BondTotal.BlockKeepsInSyncIff` | crates/contracts/staking/src/state.rs:171-191 | a block keeps a registry in sync exactly when none of its actions raises the stake of a bonded validator; a total that has fallen behind never catches up |
| `BondTotal.LateStakeBreaksSync` | crates/contracts/staking/src/state.rs:103-133 | the failing input: a delegation of nothing yet to a bonded validator keeps the total right, the stake after it does not |
| `Rotation.LeaderRotation` | src/consensus.rs:177-193 | each of n bonded validators leads exactly one of any n successive views, when slot + view is at least 1 |
| `Rotation.RotationFromZero` | src/consensus.rs:181-183 | from slot 0, view 0, where the subtraction wraps, the rotation is complete exactly when n divides 2^64 |
| `Rotation.TimeoutElectsNextViewLeader` | src/consensus.rs:194-199 | next_view_leader names exactly the node that a timeout ticket turns into the leader |
| `HappyRound.RoundCompletes` | src/consensus/role_leader.rs:35-398 | for rounds opened by genesis, a commit or a timeout, with any votes and any acks: if the certificates form and the first passes, leader and any follower of the same slot that hears its three messages commit the same proposal with the same certificate and share the next round |
| `HappyRound.VotesReachConfirmIff` | src/consensus/role_leader.rs:204-293 | whatever votes come in, forged, unbonded or repeated: Confirm goes out with the first prefix of them that is heavy enough and aggregates, with that certificate, and never without one; later votes change nothing |
| `HappyRound.AcksReachCommitIff` | src/consensus/role_leader.rs:295-398 | whatever acks come in, at whatever times, repeated ones included: the slot is committed with the first prefix of them whose certificate forms and verifies, and never without one; until then only refused commit messages went out |
| `HappyRound.LeaderRound` | src/consensus/role_leader.rs:35-398 | the leader's half of the round for any votes and acks of which some prefix is enough, with the three messages it announced |
| `HappyRound.FollowerRound` | src/consensus/role_follower.rs:33-308 | the follower's half of the round |
| `HappyRound.FollowerVotes` | src/consensus/role_follower.rs:127-198 | a follower votes for an acceptable Prepare and takes over its proposal |
| `HappyRound.FollowerAcks` | src/consensus/role_follower.rs:203-265 | a follower acknowledges a verified Confirm of its proposal |
| `HappyRound.LeaderProposes` | src/consensus/role_leader.rs:66-198 | a leader that is ready proposes for its slot and broadcasts it |
| `HappyRound.LeaderActionsPassIff` | src/consensus/role_leader.rs:127-161 | the staking actions a leader derives pass the followers' checks exactly when the candidacies it puts forward are signed by their candidates; the fee actions always pass |
| `HappyRound.ActionsPassIff` | src/consensus/role_follower.rs:767-826 | a list of staking actions passes exactly when each of them does |
| `HappyRound.BondsFineIff` | src/consensus/role_leader.rs:128-139 | the bond actions pass exactly when the candidacies are genuine |
| `HappyRound.CommitDetermines` | src/consensus.rs:202-296 | what a commit leaves behind is a function of staking, proposal and certificate alone |
| `HappyRound.CertificatePassesIff` | src/consensus.rs:341-400 | a certificate that formed passes the followers exactly when all its voters are bonded and hold more than 2f with the leader counted once |
| `HappyRound.HonestVotesFormIff` | src/consensus/role_leader.rs:237-285 | honest votes of bonded validators other than the leader form a certificate exactly when they and the leader hold more than 2f, and then it passes |
| `HappyRound.TicketReadies` | src/consensus/role_follower.rs:83-125 | the ticket of an acceptable Prepare is processed: a follower a view behind is brought into the round, one that is there stays |
| `Aggregation.ForgedDecide` | crates/hyle-crypto/src/lib.rs:205-270 | signatures add up to what the claimed keys ask for, with multiplicity, exactly when the forged ones among them do |
| `Aggregation.OneForgedVoteSpoils` | crates/hyle-crypto/src/lib.rs:205-270 | whatever else is there, a single forged vote spoils the aggregate |
| `Aggregation.BalancedVerifies` | crates/hyle-crypto/src/lib.rs:205-270 | what was aggregated verifies |
| `ViewChange.AggregatesIffForgedCancel` | crates/hyle-crypto/src/lib.rs:205-270 | votes aggregate with the node's own exactly when the forged ones make up for each other; a single forged one spoils the certificate |
| `ViewChange.ViewEndsIff` | src/consensus/role_timeout.rs:220-465 | whatever timeouts arrive, honest or not, of the round or not, in any order: the node stays in the view until the admissible ones heard hold more than f and, with it, more than 2f and their signatures aggregate; with that one it is in the next view with the ticket they make |
| `ViewChange.CertificateMovesOthersIff` | src/consensus/role_timeout.rs:150-192 | a ticket moves a participant of the round to the next view and leader exactly when it verifies; otherwise nothing changes |
| `ViewChange.CertificateEndsJoiningIff` | src/consensus/role_timeout.rs:150-192 | a joining node takes part after a certificate of its round exactly when that verifies and it will not lead the next view |
| `ViewChange.OneTimeout` | src/consensus/role_timeout.rs:220-465 | the effect of one timeout of any kind: filed if admissible, counted once, deciding when enough |
| `ViewChange.TicketFineIff` | src/consensus/role_timeout.rs:370-437 | the ticket made of any timeouts passes the others exactly when its signers are bonded and hold more than 2f with the node, and its prepare certificate fits the proposal |
| `ViewChange.AggregatePassesIff` | crates/hyle-crypto/src/lib.rs:205-270 | an aggregate over the node's own signature and others counts exactly when its signers are bonded and hold more than 2f |
| `ViewChange.HonestTimeoutsCloseIff` | src/consensus/role_timeout.rs:307-464 | honest timeouts close the view exactly when they hold more than f and, with the node, more than 2f; the ticket passes exactly when the certificate the node holds fits or one came with them |
| `ViewChange.CertifyDecides` | src/consensus/role_timeout.rs:366-462 | when the signatures aggregate the view is over and the certificate was sent unless the node leads the next view; otherwise nothing changes |
| `ViewChange.JoinCounts` | src/consensus/role_timeout.rs:330-357 | joining the mutiny adds the node's own timeout and power exactly once |
| `ViewChange.LateTimeoutIsIgnored` | src/consensus/role_timeout.rs:259-267 | a timeout of the view that ended changes nothing |
| `ViewChange.OwnTimeoutIsHonest` | src/consensus/role_timeout.rs:467-503 | what a node whose certificate fits sends is an honest timeout, with a prepare certificate exactly when it has one for the slot |
| `ViewChange.OwnTimeoutTakenIff` | src/consensus/role_timeout.rs:269-293 | the peers of its round take a node's own timeout exactly when the certificate it recorded for the slot is one for its current proposal; otherwise they refuse it and change nothing |
| `ViewChange.AcceptKeepsFitIff` | src/consensus/role_follower.rs:127-163 | accepting a proposal keeps that fit exactly when no certificate is recorded for the slot or the proposal is the one it is for |
| `ViewChange.ConfirmKeepsFitIff` | src/consensus/role_follower.rs:234-245 | the certificate a Confirm records fits the node's proposal exactly when that proposal is of the current slot |
| `ViewChange.StaleConfirmSpoilsFit` | src/consensus/role_follower.rs:203-308 | the failing family: a Confirm that arrives after its Commit, when the committed proposal had no staking actions |
| `Misfits.StaleConfirmRun` | src/consensus/role_follower.rs:33-308 | it is reached from genesis: Prepare, Commit and Confirm of the first slot in this order leave any bonded node that leads neither slot 1 nor 2 with a certificate that does not fit |
| `Misfits.StaleConfirmHappens` | src/consensus/role_follower.rs:33-308 | for example the third of three bonded validators, whatever their stakes and the genesis block |
| `FitEvents.HandleKeepsFitIff` | src/consensus.rs:416-494 | event by event, for every input: the fit is lost exactly by a Prepare after which the last accepted proposal has displaced the certified one, a Confirm for a stale proposal, a refused Commit while joining, and a block after which the certificate's signers no longer hold more than 2f or that moves a joining node to the slot of the certificate |
| `FitEvents.PrepareFitsIff` | src/consensus/role_follower.rs:33-201 | from any state, and through any number of buffered prepares: the last accepted proposal decides, or the ticket of a later one that is not accepted |
| `FitEvents.PrepareKeepsFitIff` | src/consensus/role_follower.rs:33-201 | without buffered ones, a Prepare loses the fit exactly when it is accepted, is of the slot of the certificate, brings no certificate and is not what it is for |
| `FitEvents.DisplacesOther` | src/consensus/role_timeout.rs:135-144 | while the certificate fits, that is any proposal of the slot but the current one |
| `FitEvents.AfterTicketLeaves` | src/consensus/role_follower.rs:83-125 | what a ticket leaves: the fit of before, a new slot without certificate, or an adopted certificate |
| `FitEvents.FastForwardIsReceive` | src/consensus/role_follower.rs:165-179 | going on to a buffered prepare is the same as receiving it next |
| `FitEvents.OnConfirmFitIff` | src/consensus/role_follower.rs:203-265 | a Confirm loses the fit exactly when it verifies for a proposal of an earlier slot |
| `FitEvents.OnCommitFitIff` | src/consensus/role_follower.rs:267-308 | a Commit loses it exactly while joining, when its proposal is taken over and its certificate then refused |
| `FitEvents.OnNewBlockFitIff` | src/consensus.rs:609-643 | an executed block loses it exactly when the signers no longer hold more than 2f of the new registry, or it moves a joining node to the slot of the certificate |
| `FitEvents.OnTimeoutFits` | src/consensus/role_timeout.rs:220-465 | a timeout never loses it |
| `FitEvents.OnTimeoutCertificateFits` | src/consensus/role_timeout.rs:150-192 | nor does a timeout certificate |
| `FitEvents.NeverAhead` | src/consensus/role_timeout.rs:135-144 | over every run from genesis the recorded certificate is of no later slot |
| `PrepareBuffer.BufferAgreesWithHistory` | src/consensus/role_follower.rs:829-861 | next_prepare(h) is the most recent push whose parent is h, and get(h) the most recent push of h, for every push history |
| `PrepareBuffer.WalkFindsFirstMissing` | src/consensus/role_follower.rs:668-680 | the hash asked for is the first ancestor that is not buffered, and nothing is asked exactly when the current proposal is reached through buffered ancestors |
| `PrepareBuffer.NextPrepare` | src/consensus/role_follower.rs:857-861 | what next_prepare returns is a buffered child of the hash |
| `PrepareBuffer.Push` | src/consensus/role_follower.rs:834-851 | a push adds exactly the prepare's own hash to the buffered ones and keeps prepares and children consistent |
| `PrepareBuffer.BufferedPrepares.AddPrepare` | src/consensus/role_follower.rs:834-851 | updates the two maps as Push says |
| `PrepareBuffer.BufferedPrepares.Next` | src/consensus/role_follower.rs:857-861 | reads the next prepare as NextPrepare says |
| `PrepareBuffer.BufferedPrepares.FindMissing` | src/consensus/role_follower.rs:668-680 | the loop of the missing-parent walk terminates and finds what FirstMissing says |
| `PrepareBuffer.BufferedPrepares.constructor` | src/consensus/role_follower.rs:823-827 | an empty buffer, or a saved one |
| `Round.DeeperShrinks` | src/consensus/role_follower.rs:165-179 | each fast-forward step moves strictly deeper into the finitely many buffered prepares, which is why on_prepare terminates |
| `ConsensusNode.Consensus.constructor` | src/consensus.rs:681-758 | starts as the state after genesis, with the invariant; Restart takes up a saved state |
| `ConsensusNode.Consensus.HandleAll` | src/consensus.rs:760-797 | handling any inputs one after the other is the run of the functions, nothing is taken back, and the object ends with consecutive, certified commits, one Prepare and Confirm a round, and no empty timeout where it acknowledged |
| `ConsensusNode.Consensus.Handle` | src/consensus.rs:416-494 | whatever the input, error or not: the state is the one Round.Handle gives, the invariant is kept, the round does not go back, and the log stays safe |
| `ConsensusNode.Consensus.OnMessage` | src/consensus.rs:416-494 | every message is dispatched to its handler |
| `ConsensusNode.Consensus.RoundLeader` | src/consensus.rs:177-193 | the round-robin leader, or failure without bonded validators |
| `ConsensusNode.Consensus.NextViewLeader` | src/consensus.rs:194-199 | temporarily raises the view; the state afterwards is the state before |
| `ConsensusNode.Consensus.ApplyStakingActions` | src/consensus.rs:229-252 | the loop over the staking actions, stopping at the first failure |
| `ConsensusNode.Consensus.ApplyTicket` | src/consensus.rs:202-296 | the whole of apply_ticket, failures included |
| `ConsensusNode.Consensus.AdvanceRound` | src/consensus.rs:497-527 | applies the ticket, then enqueues the start, sends a candidacy, or does nothing |
| `ConsensusNode.Consensus.StartRound` | src/consensus/role_leader.rs:35-198 | the whole of start_round |
| `ConsensusNode.Consensus.OnPrepareVote` | src/consensus/role_leader.rs:204-293 | collects prepare votes up to the certificate |
| `ConsensusNode.Consensus.OnConfirmAck` | src/consensus/role_leader.rs:295-398 | collects confirm acks up to the commit |
| `ConsensusNode.Consensus.VerifyPoda` | src/consensus/role_follower.rs:315-398 | the loop over the cut accepts exactly the cuts VerifyPoda accepts |
| `ConsensusNode.Consensus.CheckStakingActions` | src/consensus/role_follower.rs:767-826 | the loop over the staking actions, with the peers it connects to and the candidates it drops |
| `ConsensusNode.Consensus.ProcessCommitTicket` | src/consensus/role_follower.rs:716-765 | commit tickets |
| `ConsensusNode.Consensus.VerifyTc` | src/consensus/role_timeout.rs:79-148 | verifies a timeout certificate |
| `ConsensusNode.Consensus.ForceCommit` | src/consensus/role_follower.rs:512-545 | commits the current proposal without certificate |
| `ConsensusNode.Consensus.ProcessTcTicket` | src/consensus/role_follower.rs:472-571 | timeout tickets |
| `ConsensusNode.Consensus.AcceptProposal` | src/consensus/role_follower.rs:127-163 | the checks on a proposal and its adoption |
| `ConsensusNode.Consensus.OnPrepare` | src/consensus/role_follower.rs:33-201 | the whole of on_prepare, including its recursion |
| `ConsensusNode.Consensus.OnConfirm` | src/consensus/role_follower.rs:203-265 | the whole of on_confirm |
| `ConsensusNode.Consensus.OnCommitWhileJoining` | src/consensus/role_follower.rs:573-630 | a Commit while joining |
| `ConsensusNode.Consensus.OnCommit` | src/consensus/role_follower.rs:267-308 | the whole of on_commit |
| `ConsensusNode.Consensus.JoinMutiny` | src/consensus/role_timeout.rs:307-357 | counts the timeouts and joins above f |
| `ConsensusNode.Consensus.TimeoutTicket` | src/consensus/role_timeout.rs:370-437 | aggregates the timeouts |
| `ConsensusNode.Consensus.CertifyTimeout` | src/consensus/role_timeout.rs:366-462 | certifies the timeout and ends the view |
| `ConsensusNode.Consensus.OnTimeout` | src/consensus/role_timeout.rs:220-465 | the whole of on_timeout |
| `ConsensusNode.Consensus.OnTimeoutTick` | src/consensus/role_timeout.rs:194-218 | the whole of on_timeout_tick |
| `ConsensusNode.Consensus.OnTimeoutCertificate` | src/consensus/role_timeout.rs:150-192 | the whole of on_timeout_certificate |
| `ConsensusNode.Consensus.OnCandidacy` | src/consensus.rs:565-607 | candidacies of staked, unbonded validators |
| `ConsensusNode.Consensus.ApplyBlockActions` | crates/contracts/staking/src/state.rs:171-185 | the loop over the staking actions of a block, stopping at the first failure |
| `ConsensusNode.Consensus.BondAll` | crates/contracts/staking/src/state.rs:186-190 | the loop over the newly bonded validators, stopping at the first failure |
| `ConsensusNode.Consensus.ProcessBlock` | crates/contracts/staking/src/state.rs:171-191 | the two loops do what the block says to the registry, and the bonded list stays strictly sorted |
| `ConsensusNode.Consensus.OnNewBlock` | src/consensus.rs:609-643 | the whole of handle_node_state_event |
| `Staking.PowerWithout` | crates/contracts/staking/src/state.rs:81-90 | voting power does not depend on the order of summation |
| `Staking.PowerUnion` | crates/contracts/staking/src/state.rs:81-90 | power of a union plus power of the intersection is the sum of the powers |
| `Staking.PowerMonotone` | crates/contracts/staking/src/state.rs:81-90 | more validators never have less power |
| `Staking.BondValidator` | crates/contracts/staking/src/state.rs:57-74 | bonding keeps the bonded list strictly sorted |
| `Staking.ProcessBlock` | crates/contracts/staking/src/state.rs:171-191 | a block keeps the bonded list strictly sorted |
| `FeeLedger.SettleLosesRounding` | crates/contracts/staking/src/fees.rs:53-86 | settling changes the sum of all balances by exactly the remainders of dividing each fee among the bonded validators, whatever lanes the pending fees name and however often |
| `FeeLedger.SettleSucceedsIff` | crates/contracts/staking/src/fees.rs:53-79 | settling goes through exactly when there is nothing to settle, or somebody is bonded and every fee can be charged: its lane has a balance, if only from an earlier share of the same block, and its size did not shrink |
| `Lanes.WalkFindsNewest` | src/mempool/storage.rs:98-153 | the walk ends at the newest ancestor of the tip that is the committed one or holds f+1 bonded power, and returns it exactly when it is the committed one or its votes aggregate; it returns nothing when it runs into a missing entry or past the root |
| `Lanes.CarIffAggregates` | src/mempool/storage.rs:130-150 | an entry gives a proof exactly when it is the committed one, or it has a single bonded vote, or several whose forged ones make up for each other |
| `Lanes.LanesAreSingleChains` | src/mempool/storage.rs:157-241 | whatever is stored, in whatever order, a lane stays one parent chain from tip to root with sizes that add up |
| `Lanes.StoreKeepsSingleChain` | src/mempool/storage.rs:157-241 | storing succeeds exactly on a new child of the tip |
| `Lanes.CleanTakesOutOneEntry` | src/mempool/storage.rs:349-375 | cleaning sets the new tip and removes at most the old tip's entry, never that of the previous cut; it fails exactly when that entry's data is missing |
| `Lanes.CleanRemovesPendingIff` | src/mempool/storage.rs:346-348 | everything after the previous cut is removed exactly when that is at most one entry |
| `Lanes.PopUntilPopsOnce` | src/mempool/storage.rs:361-368 | the pop loop stops after one entry |
| `Lanes.Pop` | src/mempool/storage_fjall.rs:137-160 | a popped entry names the parent its hash names, and there are fewer entries |
| `Cuts.NewCutAcceptedIff` | src/mempool.rs:338-362 | over any storage, followers with the same staking and previous cut accept a leader's cut exactly when the leader has a tip for every previous lane and each entry is of a registered lane, has no lone forged vote, and either repeats the previous hash or has more than the size the previous cut recorded |
| `Cuts.UpheldCutAcceptedIff` | src/mempool.rs:338-362 | over a storage with a tip for every previous lane, no holes, growing sizes, and no size recorded larger than stored: accepted exactly when the lanes are registered and no forged vote stands alone; and the new cut records no size larger than stored |
| `Cuts.NewCutKeepsLaneIff` | src/mempool.rs:338-362 | a previous lane is in the leader's cut exactly when the leader has a tip for it |
| `Cuts.RepeatedHashAcceptedIff` | src/consensus/role_follower.rs:353-359 | an entry with the hash of the previous cut is accepted with any size and any proof, exactly when its lane is registered |
| `Cuts.ExaggeratedSizeStalls` | src/consensus/role_follower.rs:315-398 | the failing input: a cut that repeats an entry with an exaggerated size is accepted, and the entry that would have been accepted next is still offered and then refused |
| `Cuts.EntryAcceptedIff` | src/consensus/role_follower.rs:315-398 | over any storage, followers accept an entry the leader picks exactly when its lane is registered, its votes are sound, and it repeats the previous hash or has more than the size the previous cut recorded |
| `Cuts.EntryNeverMovesBack` | src/mempool/storage.rs:98-153 | on a lane without holes the entry has the previous one on its line; if the previous size was not exaggerated it is the previous one again or a larger one with f+1 bonded power |
| `Cuts.NewCutNamesLanesOnce` | src/mempool.rs:338-362 | a leader's cut names its lanes in strictly ascending order, each once |
| `Cuts.NewCutEntries` | src/mempool.rs:338-362 | the cut has exactly one entry per lane that has a certified or previous one |
| `Cuts.PodaPassesIff` | src/mempool/storage.rs:130-150 | an aggregated proof has f+1 power, and verifies over hash and size exactly when a lone vote behind it is genuine |
| `Cuts.SingleChainContinues` | src/mempool/storage.rs:157-241 | a lane that was only stored to, with non-empty data proposals, has no holes and growing sizes down to every entry of its line |
| `Cuts.Ascending` | src/mempool/storage_fjall.rs:226-228 | lanes come in strictly ascending order, each once |
| `DataVotes.AddingIsUnion` | src/mempool/storage_fjall.rs:202-223 | adding votes is set union with the votes about this hash and size, and keeps the list strictly sorted |
| `DataVotes.AddingIgnoresOrder` | src/mempool/storage_fjall.rs:202-223 | the result depends on which votes came, not on order, repetition or batching, and adding again changes nothing |
| `DataVotes.SortedUnique` | src/mempool/storage_fjall.rs:213-219 | a strictly sorted list is determined by its set |
| `DataVotes.FindPosition` | src/mempool/storage_fjall.rs:213-216 | the binary search finds the first position that is not smaller |
| `DataVotes.AddVotes` | src/mempool/storage_fjall.rs:202-220 | the insertion loop computes that union |
| `Blocks.HistoryIsConservedIff` | src/mempool/block_construction.rs:43-111 | over consecutive blocks, built from the storage of any moments, a lane's data proposals are its line from the first cut (exclusive) to the last, oldest first, each once, exactly when no cut names the lane again with something to add; they always hold all of that line, in order |
| `Blocks.RunConservesHistoryIff` | src/mempool/block_construction.rs:20-204 | over any run of commits and retries, with any storage at each moment: the blocks of consecutive slots, once built, hold for each lane that keeps on its line exactly the line from the cut before the first slot (exclusive) to the cut of the last, exactly when no cut of theirs names the lane again with something to add |
| `Blocks.LeadersCutsConserve` | src/mempool/block_construction.rs:20-204 | over blocks of cuts that leaders took of their lanes, whatever those held, every lane that keeps on its line is conserved |
| `Blocks.LeadersCutAddsOnce` | src/mempool.rs:338-362 | a block of a leader's cut adds each lane once |
| `Blocks.FollowersAcceptRepeats` | src/consensus/role_follower.rs:315-398 | the failing input is accepted: a cut that passes still passes with one of its entries repeated |
| `Blocks.RepeatedEntryRepeatsData` | src/mempool/block_construction.rs:55-108 | and a block of a cut with one entry twice holds that lane's data twice |
| `Blocks.RunChains` | src/mempool/block_construction.rs:155-204 | over any run, blocks are opened in slot order, each that follows another by a slot starts at its cut, and each built one came out of the storage of some moment |
| `Blocks.SegmentsJoinIff` | src/mempool/storage.rs:252-282 | two successive segments join to the segment over both exactly when the later entry descends from the earlier one (or the first is empty) |
| `Blocks.SegmentIsBetween` | src/mempool/storage.rs:252-282 | a complete segment is exactly the line between its ends |
| `Blocks.BetweenNeverRepeats` | src/mempool/storage.rs:252-282 | no data proposal comes twice |
| `Blocks.LaneDataIsSegments` | src/mempool/block_construction.rs:55-108 | a lane of a block gets, for each entry the cut has of it, the line from the previous cut up to that entry |
| `Blocks.PassSplitsQueue` | src/mempool/block_construction.rs:20-39 | a pass builds, in order, exactly the blocks whose data is there and leaves the others in their order |
| `Blocks.NothingIsLost` | src/mempool/block_construction.rs:20-204 | over any run of commits and retries the queue is in slot order, each block starts at the cut committed one slot before (or is slot 1), and blocks opened = blocks built + blocks queued |
| `Blocks.QueueRunKeeps` | src/mempool/block_construction.rs:20-204 | the queue invariant over any run |
| `Blocks.EventKeeps` | src/mempool.rs:375-401 | one event keeps the queue invariant |
| `Blocks.CreateKeeps` | src/mempool/block_construction.rs:155-204 | opening a block keeps the queue in slot order, starting where the slot before ended, and accounted for |
| `Blocks.CleaningKeepsCommitted` | src/mempool/block_construction.rs:207-241 | cleaning after a commit never drops an entry of the previous cut, even when it fails half way |
| `Blocks.CleaningCatchesUp` | src/mempool/block_construction.rs:207-241 | afterwards each committed entry is stored, is the tip, or was committed before, or the lane is at a later entry of the same cut |
| `Blocks.CleaningMovesOrKeeps` | src/mempool/block_construction.rs:207-241 | a lane of the cut is as before or its tip is one of the lane's entries |
| `Blocks.CleaningIsLocal` | src/mempool/block_construction.rs:207-241 | lanes the cut does not name are untouched |
| `MempoolNode.LanesStorage.constructor` | src/mempool/storage_fjall.rs:44-84 | an empty storage, in which every lane is a single chain |
| `MempoolNode.LanesStorage.GetLatestCar` | src/mempool/storage.rs:90-154 | the loop of get_latest_car |
| `MempoolNode.LanesStorage.PutNoVerification` | src/mempool/storage_fjall.rs:162-177 | files any entry under its hash; the metadata stays linked as the hashes are exactly when the entry names the parent its data proposal names |
| `MempoolNode.LanesStorage.UpdateLaneTip` | src/mempool/storage_fjall.rs:238-246 | sets the tip |
| `MempoolNode.LanesStorage.StoreDataProposal` | src/mempool/storage.rs:157-241 | store_data_proposal; it keeps single chains |
| `MempoolNode.LanesStorage.Pop` | src/mempool/storage_fjall.rs:137-160 | pop, including its re-setting of the tip |
| `MempoolNode.LanesStorage.CleanAndUpdateLane` | src/mempool/storage.rs:349-375 | the pop loop and the new tip |
| `MempoolNode.LanesStorage.AddSignatures` | src/mempool/storage_fjall.rs:179-224 | adds the votes about the entry, whether or not the votes before were sorted; if they were they stay so; other entries and an unknown entry stay as they are |
| `MempoolNode.LanesStorage.GetEntriesBetweenHashes` | src/mempool/storage_fjall.rs:248-288 | the walk from one hash down to another, inserting at the front |
| `MempoolNode.Mempool.constructor` | src/mempool.rs:99-135 | an empty builder over a storage |
| `MempoolNode.Mempool.LatestEntry` | src/mempool.rs:347-360 | a lane's entry for the cut |
| `MempoolNode.Mempool.CutOver` | src/mempool.rs:346-361 | the loop over the lanes |
| `MempoolNode.Mempool.HandleQueryNewCut` | src/mempool.rs:338-362 | builds the cut over all lanes, on top of the last committed one |
| `MempoolNode.Mempool.TryGetFullData` | src/mempool/block_construction.rs:43-111 | the loop over the cut gathers the data or asks for the first missing piece |
| `MempoolNode.Mempool.TryToSendFullSignedBlocks` | src/mempool/block_construction.rs:20-39 | one pass over the queue |
| `MempoolNode.Mempool.SetBuildStartHeight` | src/mempool/block_construction.rs:141-153 | set once |
| `MempoolNode.Mempool.TryCreateBlockUnderConstruction` | src/mempool/block_construction.rs:155-204 | opens a block for the next slot only |
| `MempoolNode.Mempool.CleanAndUpdateLanes` | src/mempool/block_construction.rs:207-241 | the loop over the cut moves the lanes |
| `MempoolNode.Mempool.HandleConsensusEvent` | src/mempool.rs:375-401 | a commit: open, pass, clean, in this order |
| `DataAvailability.ChainLeavesInOrder` | src/data_availability.rs:270-359 | for every order and repetition of the blocks of one chain, what leaves is the chain up to the first height that did not arrive, in order, each once; exactly that is stored and the rest waits |
| `DataAvailability.CompleteChainLeaves` | src/data_availability.rs:270-359 | once all heights have arrived, everything has left and the buffer is empty |
| `DataAvailability.EmittedOnceParentFirst` | src/data_availability.rs:270-421 | for arbitrary blocks, forks and holes included, each hash leaves at most once and, apart from the first, after its parent; what is stored is what has left |
| `DataAvailability.PoppedIsNew` | src/data_availability.rs:331-358 | a block popped from the buffer was never stored before |
| `DataAvailability.ChildLeavesIff` | src/data_availability.rs:323-359 | for any buffer, forks included: a buffered child of the block just processed leaves with it exactly when it is the lowest buffered block |
| `DataAvailability.EarlyKeptIff` | src/data_availability.rs:283-306 | a block whose parent is not stored is kept exactly when its height is free in the buffer; otherwise it is dropped |
| `DataAvailability.StrayCostsBlock` | src/data_availability.rs:270-359 | the failing input: after a stray block of height 2, the genuine blocks 2, 0, 1 in this order leave only 0 and 1, and 2 is lost |
| `DataAvailability.HandleReaches` | src/data_availability.rs:270-320 | one arrival moves the reached height exactly past what is now contiguous, and the returned height is its new top |
| `DataAvailability.PopReaches` | src/data_availability.rs:323-359 | the same for the buffer loop |
| `DataAvailability.RunReaches` | src/data_availability.rs:270-359 | the same for any sequence of arrivals |
| `DataAvailability.HandleKeeps` | src/data_availability.rs:270-320 | any block keeps the invariant, and nothing emitted is taken back |
| `DataAvailability.PopKeeps` | src/data_availability.rs:323-359 | the buffer loop keeps it |
| `DataAvailability.Lowest` | crates/hyle-model/src/block.rs:148-152 | the first block of the buffer is the one of least height |
| `DataAvailability.DaNode.constructor` | src/data_availability.rs:58-68 | empty store and buffer |
| `DataAvailability.DaNode.AddProcessedBlock` | src/data_availability.rs:361-421 | stores and emits |
| `DataAvailability.DaNode.Pop` | src/data_availability.rs:323-359 | the buffer loop |
| `DataAvailability.DaNode.HandleSignedBlock` | src/data_availability.rs:270-320 | the whole of handle_signed_block; it keeps the invariant |
| `ContractSdk.CallerIffCallee` | crates/contract-sdk/src/utils.rs:185-252 | when every structured blob of a transaction is accepted, i names j as its caller exactly when j lists i as a callee, and never i = j |
| `ContractSdk.OneCallerEach` | crates/contract-sdk/src/utils.rs:185-252 | no blob is listed by two others |
| `ContractSdk.ContextHoldsCallees` | crates/contract-sdk/src/utils.rs:52-79 | the context of an accepted blob holds the blobs it lists, one for one and in that order |
| `ContractSdk.SuccessConsumesCallees` | crates/contract-sdk/src/utils.rs:144-180 | for every parsed blob and any calls: a successful output means each blob that names it as caller was consumed exactly once, each by a call that matches it, and nothing else was |
| `ContractSdk.CalledAreListed` | crates/contract-sdk/src/utils.rs:185-252 | in an accepted transaction those blobs are the listed callees, in that order, and there are none when it lists nothing |
| `ContractSdk.ExactCallsUseUpIff` | crates/contract-sdk/src/caller.rs:25-53 | calls for exact actions are all granted and use up the callees exactly when they are the callees in some order |
| `ContractSdk.ConsumeAllConserves` | crates/contract-sdk/src/caller.rs:25-53 | callees = consumed + left, for any calls |
| `ContractSdk.CalledByEntries` | crates/contract-sdk/src/utils.rs:62-70 | the collected blobs are exactly those that name this one as caller |
| `ContractSdk.Get` | crates/hyle-model/src/contract.rs:73-77 | finds a blob of that index, or there is none |
| `ContractSdk.ExecutionContext.constructor` | crates/contract-sdk/src/caller.rs:10-23 | the context of a call |
| `ContractSdk.ExecutionContext.IsInCalleeBlobs` | crates/contract-sdk/src/caller.rs:25-53 | removes the first match; fails, changing nothing, exactly when there is none |
| `ContractSdk.ParseCalldata` | crates/contract-sdk/src/utils.rs:52-79 | parse_calldata, errors included |
| `ContractSdk.CalleesBlobs` | crates/contract-sdk/src/utils.rs:62-70 | the loop that collects the callees |
| `ContractSdk.RunResult.constructor` | crates/contract-sdk/src/utils.rs:144-149 | the result of a run |
| `ContractSdk.RunResult.AsHyleOutput` | crates/contract-sdk/src/utils.rs:122-180 | success exactly when the run succeeded and no callee is left; a failure keeps the state; a success takes output and effects out of the result |
| `MerkleCodec.RoundTripIff` | crates/contract-sdk/src/merkle_utils.rs:23-97 | decoding an encoded proof in front of any suffix gives the proof and the suffix exactly when both counts fit in 32 bits |
| `MerkleCodec.DecodedThenEncoded` | crates/contract-sdk/src/merkle_utils.rs:53-96 | a successful decoding consumed exactly the encoding of what it returned, so the format is canonical |
| `MerkleCodec.EncodedThenDecoded` | crates/contract-sdk/src/merkle_utils.rs:23-97 | the round trip for proofs that fit |
| `MerkleCodec.PathRoundTrip` | crates/contract-sdk/src/merkle_utils.rs:30-48 | n encoded path steps in front of any bytes decode, for that n, to those steps and those bytes |
| `MerkleCodec.PathCanonical` | crates/contract-sdk/src/merkle_utils.rs:63-93 | bytes that decode to n path steps are the encoding of those steps followed by what is left |
| `MerkleCodec.LeavesRoundTrip` | crates/contract-sdk/src/merkle_utils.rs:26-28 | n encoded leaves in front of any bytes decode, for that n, to those leaves and those bytes |
| `MerkleCodec.LeavesCanonical` | crates/contract-sdk/src/merkle_utils.rs:55-60 | bytes that decode to n leaves are the encoding of those leaves followed by what is left |
| `MerkleCodec.ItemRoundTrip` | crates/contract-sdk/src/merkle_utils.rs:31-47 | an encoded path step, of either kind, in front of any bytes decodes to that step and those bytes |
| `MerkleCodec.ItemCanonical` | crates/contract-sdk/src/merkle_utils.rs:65-92 | bytes that decode to a path step start with its encoding |
| `MerkleCodec.U32RoundTrip` | crates/contract-sdk/src/merkle_utils.rs:25-29 | a count comes back modulo 2^32, with the bytes after it |
| `MerkleCodec.U32Canonical` | crates/contract-sdk/src/merkle_utils.rs:54-62 | any four bytes are the encoding of the count they decode to |
| `MerkleCodec.Writer.SerializeItem` | crates/contract-sdk/src/merkle_utils.rs:31-47 | writes one step |
| `MerkleCodec.Writer.SerializeLeaves` | crates/contract-sdk/src/merkle_utils.rs:26-28 | the loop over the leaves |
| `MerkleCodec.Writer.SerializePath` | crates/contract-sdk/src/merkle_utils.rs:30-48 | the loop over the path |
| `MerkleCodec.Writer.Serialize` | crates/contract-sdk/src/merkle_utils.rs:24-49 | appends exactly the encoding |
| `MerkleCodec.Reader.ReadExact` | crates/contract-sdk/src/merkle_utils.rs:57-58 | the next bytes, or an unexpected end |
| `MerkleCodec.Reader.ReadU32` | crates/contract-sdk/src/merkle_utils.rs:54-62 | reads a count |
| `MerkleCodec.Reader.ReadMergeWithZero` | crates/contract-sdk/src/merkle_utils.rs:72-85 | reads the body of a zero-merge step |
| `MerkleCodec.Reader.ReadItem` | crates/contract-sdk/src/merkle_utils.rs:65-92 | reads one step or reports the marker |
| `MerkleCodec.Reader.ReadLeaves` | crates/contract-sdk/src/merkle_utils.rs:55-60 | the loop over the leaves |
| `MerkleCodec.Reader.ReadPath` | crates/contract-sdk/src/merkle_utils.rs:63-93 | the loop over the path |
| `MerkleCodec.Reader.Deserialize` | crates/contract-sdk/src/merkle_utils.rs:53-96 | reads exactly one encoding |

## Left out

- Agreement across views and liveness: the code has no vote-once check and its stored prepare certificate has
  no view, so the code does not decide them; `ForksInRuns` states the accountability that does follow.
- Certificates keep sets of validators and shares, so order and repetition of validators inside one certificate are not modelled, nor is one signature that two timeouts of a validator carry counted twice.
- Message headers, p2p and TCP streams, BLS and hash internals, persistence, metrics, configuration.
- REST APIs, indexer, genesis transactions, proof verification of data proposals, provers and wallets.
- Own-lane transaction batching, `buffered_proposals`, `buffered_podas`, and the data vote thresholds of
  `on_data_vote`: only bookkeeping around `store_data_proposal` and `add_signatures`.
- Catch-up streaming between data availability nodes.
- The in-memory lane storage: the persistent one is modelled; the two differ only in `pop` on missing data.
- Staking is a value that consensus replaces, not an object with methods.
- What the lane walks do once metadata names another parent than its data proposal does, which a sync reply can carry (`PutNoVerification` says when).
- MempoolNode.LanesStorage.AddSignatures: the byte order of signatures is a parameter, any injective ranking.
- HappyRound.RoundCompletes: leader and follower share staking and parent, and the follower has no buffered child of the proposal, which it would process first.
- ContractSdk.CallerIffCallee: blob indices are distinct, as `IndexedBlobs` built from a transaction has them.
- ContractSdk.Parse: a blob's bytes are given already split into header and payload, and decoding a payload is a parameter.
- MerkleCodec.Reader.Deserialize: the allocation of vectors of the announced length is not modelled.
- DataAvailability.HandleAll: with forks, which blocks leave over a whole sequence of arrivals is not one formula; order and uniqueness are proved for all, `ChildLeavesIff` and `EarlyKeptIff` say of each step exactly what leaves and what is kept.
