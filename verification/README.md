# Verification of the Tendermint consensus and the escrow games

This project models, in Dafny, the consensus engine of `plugin/consensus/tendermint` and the two
escrow contracts `plugin/dapp/game` and `plugin/dapp/blackwhite`, and proves what their designs
promise.

**Consensus.** A vote set is an in-place ledger of votes with weights (`VoteSet`, with `Ledger` as its
value); a height has one pair of ledgers per round (`HeightVoteSet`, `HeightLedger`); the validator set
keeps sorted addresses, a cached total and rotating accumulators in a heap (`ValidatorSet`,
`ProposerHeap`, `Rotation`). The node is a class with one method per handler (`ConsensusState`), each
proved to take a step of the value model in `Node`, to reach no sanity panic and to keep the invariant
(`Invariant`, `NodeInvariant`). `Chain` is block making and validation, `Commits` what a commit proves,
`Ticker` the timeout routine, `BitArrays` and `Gossip` what is sent to a peer. `Network` lets honest nodes
handle any messages in any order while everybody else signs anything, `Agreement` draws the conclusions for
whole runs, and `Witness` shows a run that commits and one that disagrees after a failed write. `Reaction`
proves the other side of safety, that a node acts on all it knows, `Duties` what it does in each case, and
`Progress` what follows for runs.

**Games.** `Accounts` holds the balance and the frozen balance of each address, `Escrow` what it means that
an address has frozen exactly what it has at stake in the items of a table. `Games` and `BlackWhiteEscrow`
are the contracts as classes whose methods keep the escrow. `GameIndex` relates the game table and its
indexes, `BlackWhite` is the elimination of the players and `BlackWhiteShows` the show before it.

Conventions:

- Addresses, hashes, signatures and peer names are natural numbers, 0 for the empty one; only equality,
  order and emptiness are used. Signatures are ideal: a set of pairs of key and signed vote that only grows.
- Integers are unbounded. `Rotation.BoundsInside` gives the range an accumulator needs; the coins of the
  black-and-white game together fit 64 bits, which every action keeps, so no sum of stakes overflows.
- The clock, the random numbers, the outcome of a block write, the validator changes a block reports and
  the answers of the signer are parameters.
- A panic stops the node. The checks that can panic are part of the model, and are proved not to.
- Faulty means: not one of the honest nodes of the network. Agreement is stated for the nodes that never
  had a block write fail and were not restarted.

Where code and comments differ the code is followed: `HeightVoteSet` is documented to keep one extra round
per peer and keeps two.

Results about properties that do not hold in general:

- The strict accumulator bound fails for a set without power and for a single validator; `AccumBounds`
  gives the exact condition and `LoneValidator` the value in the second case.
- The game tests parity on the amount as a float64. `AcceptedIsEven` says for which limits this lets no odd
  amount through, and `PotIsExact` what an odd amount would leave behind.
- The lower bound on the turns of a proposer fails for a single validator and both bounds fail without
  power; `Fairness` gives the exact conditions.
- Agreement and the lock rule need local block writes to succeed: a failed one drops the lock without a
  polka (`FailedWriteDropsLock`, `Dropped`), and `FailedWriteDisagrees` is a run in which two honest nodes
  then commit different blocks although nobody is faulty.
- `Sub` of a smaller bit array is not the difference: it clears whole words. The contract of
  `BitArrays.BitArray.Sub` gives the exact condition.
- The prevotes of a proof-of-lock round are not tracked for a peer when that is also its catch-up round;
  `PolIsTracked` gives the exact condition.
- An empty secret counts as a show, so a black-and-white round can close before all players have shown.
  `ClosedByAll` says exactly when it does not, and `ClosedByOne` and `AllToOne` show the extreme case.
- A finished round cannot be paid when a share reaches the limit of an amount; `StatTransfer` says exactly
  when, and `SupplyIsPayable` that the total supply rules it out.

## Model

| member | source | states |
|---|---|---|
| Agreement.Agreement | plugin/consensus/tendermint/consensus_state.go:1014-1122 | over every run of the network, with less than a third of the power faulty at each height reached and all local writes succeeding, two honest nodes never commit different blocks at one height, whenever they do it; the validators of a height are derived from the committed blocks, not assumed equal |
| Agreement.NoLaterPolka | plugin/consensus/tendermint/consensus_state.go:777-806 | once +2/3 precommitted a block in a round, no later round of that height has a polka (+2/3 prevotes) for anything else; by induction on the rounds in between |
| Agreement.OneDecision | plugin/consensus/tendermint/consensus_state.go:1320-1338 | two +2/3 precommit quorums of one height, in whatever rounds, are for the same block |
| Agreement.AgreedValidators | plugin/consensus/tendermint/consensus_state.go:1093-1112 | agreement below a height gives all honest nodes that reached it the same validators there |
| Agreement.NoEquivocation | plugin/consensus/tendermint/consensus_state.go:1361-1401 | in every run an honest key signs at most one vote of a kind per height and round |
| Agreement.EvidenceIsSound | plugin/consensus/tendermint/types/evidence.go:139-194 | in no run does evidence of a double vote verify against an honest key |
| Agreement.ReportedIsFaulty | plugin/consensus/tendermint/types/vote_set.go:181-293 | whoever an honest node reports for a double vote is not honest |
| Agreement.VotesEnterSteps | plugin/consensus/tendermint/consensus_state.go:748-915 | each vote an honest node adds in a step of a run is for a position after the one the node had and not after the one it has then, so a vote belongs to the round and step being entered |
| Agreement.NeverBack | plugin/consensus/tendermint/consensus_state.go:528-579 | height, round and step never decrease lexicographically, and no vote is taken back, whatever messages arrive and whatever local writes fail |
| Agreement.NoSanityPanic | plugin/consensus/tendermint/consensus_state.go:285-313 | in every run a node is running or was stopped by the content of a block: no sanity check of the node, of its vote sets, of `SetRound` or of the timeout steps ever fires |
| Agreement.TimeoutsBehind | plugin/consensus/tendermint/consensus_state.go:449-479 | no pending timeout ever lies ahead of the position of the node |
| Agreement.BoundedTracking | plugin/consensus/tendermint/types/height_vote_set.go:79-133 | in every run a node tracks all rounds up to at most one above its own, at most two more per peer, and in each ledger no more blocks than voters seen plus claims |
| Agreement.LockDiscipline | plugin/consensus/tendermint/consensus_state.go:849-914 | a locked block is valid and is the +2/3 prevote majority the node recorded for the locked round; within a height and without a failed write the lock only moves to a later round for the same block or goes on a recorded later polka, not above the current round, for something else |
| Progress.NoStaleLock | plugin/consensus/tendermint/consensus_state.go:1284-1302 | in every state of every run a running node is not locked on a block against a recorded polka for anything else, of a round after the locked one and not above its own |
| Progress.LockGoesExactly | plugin/consensus/tendermint/consensus_state.go:849-914 | the lock rule in both directions: at its height, running and without a failed write, a node keeps its lock or renews it for the same block unless a later polka for something else is on record for a round it has reached, and with such a polka a lock on that block is from that round or later |
| Progress.NothingMissed | plugin/consensus/tendermint/consensus_state.go:1277-1345 | in every state of every run a running node has acted on every majority it has recorded: with +2/3 prevotes of a round it waits there or is further, with a polka it has precommitted there, with +2/3 precommits it waits there, with a nil majority it is in a later round, with a majority for a block it is committing; and in the commit step it expects exactly the decided block and does not have it |
| Progress.NeverStuck | plugin/consensus/tendermint/consensus_state.go:449-479 | in every state of every run a running node in a step that ends by a timeout has that timeout pending, may be handed it, and is then strictly further on, at the place the step leads to, unless the content of a block stops it |
| Progress.RunCurrent | plugin/consensus/tendermint/consensus_state.go:364-447 | all that `Reaction.HandleCurrent` keeps holds of every honest node in every state of every run |
| Agreement.FailedWriteDropsLock | plugin/consensus/tendermint/consensus_state.go:1064-1085 | when the write of a committed block fails the lock is gone and the node goes on at the same height, although the majorities on record are exactly those from before |
| Agreement.ProposalsValidate | plugin/consensus/tendermint/consensus_state.go:662-741 | what a node proposes at any time is its locked block if it has one, else a block made for its round from its state and last commit, and passes block validation against every equal state, then and later |
| Agreement.ProposerIsReady | plugin/consensus/tendermint/consensus_state.go:709-741 | with few faults a proposer always has a last commit to propose with above height 1: the branch without one is not reached |
| Witness.CommitIsReachable | plugin/consensus/tendermint/consensus_state.go:1257-1359 | for every block hash, a run that meets all the assumptions of the agreement result and commits that block, from the first timeout to the next height |
| Witness.FailedWriteDisagrees | plugin/consensus/tendermint/consensus_state.go:1064-1085 | for any two block hashes, a run without any faulty power in which one failed block write lets an honest validator commit the one and an honest observer the other: the assumption on writes in the agreement result cannot be dropped |
| Witness.Dropped | plugin/consensus/tendermint/consensus_state.go:1064-1085 | a failed write takes the lock away while no polka for anything else is recorded after the locked round, and leaves the validator ready for the next round of the same height |
| Network.NextOk | plugin/consensus/tendermint/consensus_state.go:364-447 | one step of the network (an honest node handles any message, or somebody else signs any vote) keeps the invariant of every honest node, and each of them only moves forward |
| Network.StartOk | plugin/consensus/tendermint/consensus_state.go:104-128 | a node started on a chain without blocks satisfies the invariant |
| NodeInvariant.HandleOk | plugin/consensus/tendermint/consensus_state.go:406-479 | every message or scheduled timeout keeps the node invariant: the tracked round is the round plus one (or both are 0), recorded majorities back the lock and the commit round, votes and pending timeouts are not ahead of the position, and the history of signed votes is justified |
| NodeInvariant.EnterNewRoundOk | plugin/consensus/tendermint/consensus_state.go:528-579 | the check in `SetRound` cannot fail when a new round is entered, for any round |
| NodeInvariant.EnterPrevoteOk | plugin/consensus/tendermint/consensus_state.go:748-806 | entering prevote keeps the invariant and signs at most one vote, a prevote for the current height and round, and for the locked block if there is one |
| NodeInvariant.EnterPrecommitOk | plugin/consensus/tendermint/consensus_state.go:835-915 | entering precommit keeps the invariant and never fails the `POLRound` check |
| NodeInvariant.UnlockInRoundOk | plugin/consensus/tendermint/consensus_state.go:1284-1312 | unlocking on the polka of the current round and precommitting in the same message keeps the invariant, although the state in between does not satisfy it |
| NodeInvariant.AfterPrevoteOk | plugin/consensus/tendermint/consensus_state.go:1304-1319 | a counted prevote keeps the invariant through the new round, the precommit or the prevote wait that follow, whose +2/3 check holds there |
| NodeInvariant.PrecommitsWaitOk | plugin/consensus/tendermint/consensus_state.go:1340-1344 | with any +2/3 precommits of a round not below its own the node enters that round and waits there, and the +2/3 check of precommit wait holds |
| NodeInvariant.PrecommitsCommitOk | plugin/consensus/tendermint/consensus_state.go:1326-1338 | with a +2/3 precommit majority for a block the +2/3 check of the commit step and the checks of finalizing hold, through the start of the next height |
| NodeInvariant.AddedPrecommitOk | plugin/consensus/tendermint/consensus_state.go:1321-1345 | a counted precommit keeps the invariant through commit and the start of the next height |
| NodeInvariant.NextHeightOk | plugin/consensus/tendermint/consensus_state.go:285-347 | committing a block leads to round 0 of the next height with nothing proposed or locked and new vote sets for the validators the block leads to, keeps the precommits of the commit round as the last commit, and records the block |
| NodeInvariant.HandleTimeoutOk | plugin/consensus/tendermint/consensus_state.go:449-479 | a timeout the node asked for either changes nothing or is for exactly the height, round and step the node is at; the invariant is kept |
| Invariant.PrevoteHistory | plugin/consensus/tendermint/consensus_state.go:777-806 | a prevote signed against an own earlier precommit of the same height has a signed polka strictly between the two rounds |
| Invariant.PrecommitHistory | plugin/consensus/tendermint/consensus_state.go:835-915 | a precommit for a block is signed on a signed polka for it, and its block stays locked until a later polka releases it |
| Invariant.CommitHistory | plugin/consensus/tendermint/consensus_state.go:1014-1122 | a commit is backed by a +2/3 precommit quorum of the validators of its height, and the next validators are those the block leads to |
| Reaction.HandleCurrent | plugin/consensus/tendermint/consensus_state.go:406-479 | every message leaves a running node with nothing undone: all recorded majorities acted on, no stale lock, the timeout of a waiting step pending, in the commit step the decided block expected and missing, before the prevote no block at hand, and the proposal of its own round |
| Reaction.PolkaUnlocks | plugin/consensus/tendermint/consensus_state.go:1284-1302 | a counted prevote that completes a polka against the lock, of a later round not above the own one, takes the old lock away |
| Duties.TimeoutActs | plugin/consensus/tendermint/consensus_state.go:449-479 | a timeout for where the node is acts: round 0 is entered at a new height, the proposal step at a new round, the prevote from the proposal step, the precommit from the prevote wait, the next round from the precommit wait |
| Duties.PrevoteChoice | plugin/consensus/tendermint/consensus_state.go:748-806 | a validator signs exactly one prevote: for the locked block, else for a valid proposal, else for nil; without a key or a signer none |
| Duties.PrecommitChoice | plugin/consensus/tendermint/consensus_state.go:835-915 | without a polka: nil and the lock as before; on a nil polka: nil and no lock; on a polka for a block at hand: that block, locked in this round; on another one: nil, no lock, and that block is expected |
| Duties.OwnVoteCounts | plugin/consensus/tendermint/consensus_state.go:1361-1401 | a vote the node signs is accepted by the ledger of its round if that has none of the node yet |
| Duties.VoteHeard | plugin/consensus/tendermint/consensus_state.go:1257-1276 | a vote for the height that its ledger counts is on record after the message, unless the height ended or the node stopped |
| Duties.ClaimHeard | plugin/consensus/tendermint/types/height_vote_set.go:215-226 | a first claim of a peer for a tracked round is noted |
| Duties.ProposalTaken | plugin/consensus/tendermint/consensus_state.go:1126-1177 | a proposal is taken if and only if it is the first, in time, for the height and round, signed and with a proper proof-of-lock round; otherwise nothing changes |
| Duties.BlockTaken | plugin/consensus/tendermint/consensus_state.go:1181-1226 | a block is taken if and only if it is expected; before the prevote the node then prevotes, in the commit step the height ends with that block committed unless the write fails |
| Duties.NewRoundBegins | plugin/consensus/tendermint/consensus_state.go:528-579 | a new round goes on to the proposal step unless it is round 0 and configured to wait for transactions; a later round starts without a proposal |
| Duties.CommitWait | plugin/consensus/tendermint/consensus_state.go:1328-1338 | after a precommit that ends the height the node waits at the new height, unless it is configured not to and all precommits of the round are in: then it goes on at once |
| Duties.TxsStart | plugin/consensus/tendermint/consensus_state.go:510-516 | transactions end the wait of round 0 |
| Duties.NextValidatorsAre | plugin/consensus/tendermint/execution.go:72-105 | the validators after a block have the powers it asks for, or are the old ones if that is refused |
| ConsensusStates.ConsensusState.constructor | plugin/consensus/tendermint/consensus_state.go:104-128 | a new node equals the initial state of the value model |
| ConsensusStates.ConsensusState.Receive | plugin/consensus/tendermint/consensus_state.go:364-447 | from a state with the node invariant, any message or scheduled timeout computes exactly the step of the value model, reaches no sanity panic, keeps the invariant, moves the node forward and leaves nothing undone |
| ConsensusStates.ConsensusState.HandleTimeout | plugin/consensus/tendermint/consensus_state.go:449-479 | a scheduled timeout for where the node is takes it strictly further, to the place its step leads to, or a block stops it; any other changes nothing; the invariant is kept |
| ConsensusStates.ConsensusState.EnterNewRound | plugin/consensus/tendermint/consensus_state.go:528-579 | computes the value step; given the core of the invariant `SetRound` does not panic; keeps the invariant and moves forward |
| ConsensusStates.ConsensusState.EnterPropose | plugin/consensus/tendermint/consensus_state.go:611-656 | computes the value step, the deferred move to prevote included, keeps the invariant and moves forward |
| ConsensusStates.ConsensusState.EnterPrevote | plugin/consensus/tendermint/consensus_state.go:748-775 | computes the value step, with the vote signed before the deferred step, keeps the invariant and moves forward |
| ConsensusStates.ConsensusState.EnterPrevoteWait | plugin/consensus/tendermint/consensus_state.go:809-827 | where the +2/3 prevotes it asks for are there: no panic, the value step, the invariant kept |
| ConsensusStates.ConsensusState.EnterPrecommit | plugin/consensus/tendermint/consensus_state.go:835-915 | for a round that is tracked the `POLRound` panic is unreachable; computes the value step, keeps the invariant and moves forward |
| ConsensusStates.ConsensusState.EnterPrecommitWait | plugin/consensus/tendermint/consensus_state.go:918-937 | where the +2/3 precommits it asks for are there: no panic, the value step, the invariant kept |
| ConsensusStates.ConsensusState.EnterCommit | plugin/consensus/tendermint/consensus_state.go:940-986 | given the precommit majority: no panic, the value step with the deferred finalizing, the invariant kept |
| ConsensusStates.ConsensusState.TryFinalizeCommit | plugin/consensus/tendermint/consensus_state.go:989-1011 | in the commit step: no panic, finalizes exactly when the committed block is at hand, keeps the invariant |
| ConsensusStates.ConsensusState.FinalizeCommit | plugin/consensus/tendermint/consensus_state.go:1014-1122 | neither the missing majority nor the wrong block can occur; computes the value step on both outcomes of the block write, keeps the invariant and moves forward |
| ConsensusStates.ConsensusState.UpdateToState | plugin/consensus/tendermint/consensus_state.go:285-347 | for the state after the committed block the three panics are unreachable, and the round state is that of the value model |
| ConsensusStates.ConsensusState.SetProposal | plugin/consensus/tendermint/consensus_state.go:1126-1177 | takes the first signed proposal of the current height and round with a proper proof-of-lock round, as the value step, and keeps the invariant |
| ConsensusStates.ConsensusState.AddProposalBlock | plugin/consensus/tendermint/consensus_state.go:1181-1226 | takes the block that was expected and moves on to prevote or commit, as the value step, and keeps the invariant |
| ConsensusStates.ConsensusState.AddVote | plugin/consensus/tendermint/consensus_state.go:1257-1359 | records the vote and reacts to it as the value step; neither a check of the vote sets nor the vote type panics; the invariant is kept |
| ConsensusStates.ConsensusState.AddedPrevote | plugin/consensus/tendermint/consensus_state.go:1280-1319 | a counted prevote computes the value step and keeps the invariant, although the state between unlocking and precommitting does not satisfy it; a polka against the lock releases it |
| ConsensusStates.ConsensusState.AddedPrecommit | plugin/consensus/tendermint/consensus_state.go:1321-1345 | a counted precommit computes the value step and keeps the invariant, through commit and the next height |
| Ticker.HoldsTheLatest | plugin/consensus/tendermint/ticker.go:87-125 | after any ticks the ticker holds one of them, and none of them is later |
| Ticker.TimeoutTicker.Tick | plugin/consensus/tendermint/ticker.go:92-118 | the in-place rule of the timeout routine holds what the value model says |
| Ticker.TimeoutTicker.Fire | plugin/consensus/tendermint/ticker.go:118-125 | what fires, of timeouts that a node with the invariant asked for, is one of them, so the node may be handed it, and none of them is later |
| Ledger.LedgerInvariant | plugin/consensus/tendermint/types/vote_set.go:142-333 | after any sequence of added votes and peer claims on a new vote set: sum and flags match the canonical votes, each block's sum matches its recorded votes, a majority is set exactly when some block's sum s has 3s > 2T, tracked blocks are bounded by voters seen plus claims, and no sanity check failed |
| Ledger.MajorityIsFinal | plugin/consensus/tendermint/types/vote_set.go:225-293 | a majority once found never changes |
| Ledger.MajorityHasTwoThirdsAny | plugin/consensus/tendermint/types/vote_set.go:401-427 | a majority for one value implies +2/3 of any votes |
| Ledger.AddVoteIsValid | plugin/consensus/tendermint/types/vote_set.go:142-209 | adding any vote keeps the ledger invariant and the majority, without a panic |
| Ledger.SetPeerMaj23IsValid | plugin/consensus/tendermint/types/vote_set.go:300-333 | a peer's claim keeps the ledger invariant |
| Ledger.RejectedVote | plugin/consensus/tendermint/types/vote_set.go:142-209 | a vote that fails a check, or that is recorded already, changes nothing and is never reported as a conflict |
| Ledger.AcceptedVote | plugin/consensus/tendermint/types/vote_set.go:181-293 | an acceptable vote is counted exactly when its validator had no vote yet or a peer claimed its block; a second vote is reported with the first |
| Ledger.RecordedAfter | plugin/consensus/tendermint/types/vote_set.go:225-293 | a counted vote is stored under its block and validator, and nothing else stored moves |
| Ledger.CanonicalAfter | plugin/consensus/tendermint/types/vote_set.go:225-293 | which canonical votes change: a first vote is kept, a vote for the standing majority replaces the old one, a new majority brings all its votes |
| Ledger.RejectionReason | plugin/consensus/tendermint/types/vote_set.go:142-209 | each error if and only if what it says was wrong, in the order of the checks |
| Ledger.ClaimMeaning | plugin/consensus/tendermint/types/vote_set.go:300-333 | a first claim of a peer is noted and lets votes for its block in; no vote, sum or majority changes |
| Ledger.TalliesMean | plugin/consensus/tendermint/types/vote_set.go:401-414 | two thirds of anything and all votes, in terms of the power of the validators that voted |
| Ledger.DoubleQuorumIsSeen | plugin/consensus/tendermint/types/vote_set.go:225-293 | if two blocks of one vote set both have +2/3, the validators recorded under both hold more than a third of the power |
| VoteSets.VoteSet.AddVote | plugin/consensus/tendermint/types/vote_set.go:142-209 | the checks and updates in place equal the value model, and both sanity panics are unreachable |
| VoteSets.VoteSet.AddVerifiedVote | plugin/consensus/tendermint/types/vote_set.go:225-293 | the updates in place equal the value model |
| VoteSets.VoteSet.SetPeerMaj23 | plugin/consensus/tendermint/types/vote_set.go:300-333 | the update in place equals the value model |
| HeightLedger.AddVoteIsValid | plugin/consensus/tendermint/types/height_vote_set.go:109-133 | adding any vote from any peer keeps the invariant of all rounds (rounds 0 to the tracked one present, at most two more per peer, every ledger valid for its round) and every recorded majority |
| HeightLedger.VoteTaken | plugin/consensus/tendermint/types/height_vote_set.go:109-133 | a vote of a proper type is unwanted if and only if its round is untracked and its peer has brought two; otherwise its round is tracked afterwards, noted for the peer if new, and the vote is counted if and only if the ledger of the round, a new one if it was not tracked, accepts it as its validator's first or for a claimed block; it is then on record and no other ledger has changed |
| HeightLedger.ClaimTaken | plugin/consensus/tendermint/types/height_vote_set.go:215-226 | a claim for a tracked round and proper type goes to that ledger and nothing else changes |
| HeightLedger.SetRoundIsValid | plugin/consensus/tendermint/types/height_vote_set.go:79-92 | setting the round keeps the invariant and all that was recorded |
| HeightLedger.PolIsLatest | plugin/consensus/tendermint/types/height_vote_set.go:149-160 | the scan finds the latest tracked round with a +2/3 prevote majority, and -1 exactly when there is none |
| HeightLedger.MajorityIsSigned | plugin/consensus/tendermint/types/vote_set.go:416-427 | a recorded majority is a +2/3 quorum of validators that signed such votes |
| HeightVoteSets.HeightVoteSet.Reset | plugin/consensus/tendermint/types/height_vote_set.go:53-64 | equals the value model |
| HeightVoteSets.HeightVoteSet.SetRound | plugin/consensus/tendermint/types/height_vote_set.go:79-105 | the loop, which skips the rounds peers brought, equals the value model; `addRound` is only called for new rounds |
| HeightVoteSets.HeightVoteSet.AddVote | plugin/consensus/tendermint/types/height_vote_set.go:109-133 | equals the value model; of a proper type, a round is untracked afterwards exactly if it was and the peer had brought two, and a new round is noted for the peer; `addRound` is only called for new rounds |
| HeightVoteSets.HeightVoteSet.POLInfo | plugin/consensus/tendermint/types/height_vote_set.go:149-160 | the downward loop equals the value model |
| Commits.VerifyCommitMeaning | plugin/consensus/tendermint/types/validator_set.go:301-357 | a commit is accepted if and only if it has one slot per validator, its signed entries are precommits of one round and of the height signed by the validator of their slot, and more than two thirds of the power is for the block |
| Commits.MadeCommitVerifies | plugin/consensus/tendermint/types/vote_set.go:471-497 | the commit made from a precommit majority is accepted for its block and height |
| Commits.CommitRoundTrip | plugin/consensus/tendermint/consensus_state.go:260-281 | replaying a made commit into a fresh vote set adds every vote without error and reaches the same majority and the same votes, so neither panic of `reconstructLastCommit` fires |
| Commits.ConflictsAreProvable | plugin/consensus/tendermint/types/evidence.go:139-194 | every conflict reported by adding a vote carries two votes that the duplicate vote evidence accepts |
| CommitMethods.MakeCommit | plugin/consensus/tendermint/types/vote_set.go:471-497 | the loop equals the value model |
| CommitMethods.VerifyCommit | plugin/consensus/tendermint/types/validator_set.go:301-357 | the tally loop equals the value model and keeps the cached total right |
| CommitMethods.ReconstructLastCommit | plugin/consensus/tendermint/consensus_state.go:260-281 | the replay loop succeeds exactly when the value model does, with the same vote set |
| CommitMethods.CommitIsReadBack | plugin/consensus/tendermint/consensus_state.go:260-281 | making a commit and reconstructing it gives back the majority and the votes |
| CommitMethods.FirstPrecommit | plugin/consensus/tendermint/types/block.go:261-275 | finds the first entry that carries a signature |
| Chain.MadeBlockIsValid | plugin/consensus/tendermint/state.go:121-135 | a block made from a state is valid in it exactly when its commit is empty at height 1 and verifies above |
| Chain.ValidIsMade | plugin/consensus/tendermint/execution.go:193-254 | a block is valid if and only if its header is the one `MakeBlock` would give it, its commit fits and its evidence is good |
| Chain.ConsecutiveBlocks | plugin/consensus/tendermint/execution.go:72-105 | blocks valid one after the other form a chain: heights and transaction totals add up, the second names the hash of the first and carries a +2/3 commit of it by the validators the first names |
| Chain.MoreSignatures | plugin/consensus/tendermint/execution.go:193-254 | a valid block stays valid as more votes are signed |
| ValidatorChange.UpdateIsBounded | plugin/consensus/tendermint/execution.go:107-191 | an update is refused and leaves the set as it was, or is applied as a whole: every address has the power last requested for it or the one it had, addresses are still strictly sorted and less than a third of the old power moved; it is accepted exactly when every change parses and together they ask for less than a third |
| ValidatorChange.ApplyAllSets | plugin/consensus/tendermint/execution.go:121-153 | after an accepted update every address has the power last requested for it |
| ValidatorChange.QuorumsMeetAcrossUpdate | plugin/consensus/tendermint/execution.go:107-155 | after an accepted update every +2/3 quorum of the old set shares a validator with every +2/3 quorum of the new one |
| ValidatorSets.UpdateValidators | plugin/consensus/tendermint/execution.go:107-155 | the loop on the set equals the value model; new validators start at accum 0 and changed ones keep theirs; the cached total is unset or right; the error returns inside the loop are unreachable |
| ValidatorSets.AppliedMembers | plugin/consensus/tendermint/execution.go:121-153 | who is in the set after one change, with which power and accum: a changed validator keeps its accum, a new one starts at zero, power zero removes, the others stay |
| ValidatorSets.ChangeIsTooMuch | plugin/consensus/tendermint/execution.go:157-191 | the loop with its early return equals the value model |
| ValidatorSets.ValidatorSet.GetByAddress | plugin/consensus/tendermint/types/validator_set.go:166-175 | binary search finds the index of the address or -1 |
| ValidatorSets.ValidatorSet.TotalVotingPower | plugin/consensus/tendermint/types/validator_set.go:192-199 | the true sum of the powers, cached or not |
| ValidatorSets.ValidatorSet.Add | plugin/consensus/tendermint/types/validator_set.go:232-256 | inserts a new address at its place, refuses one that is there, and resets the caches exactly when it inserted |
| ValidatorSets.ValidatorSet.Update | plugin/consensus/tendermint/types/validator_set.go:258-269 | replaces the validator of an address that is there and resets the caches |
| ValidatorSets.ValidatorSet.Remove | plugin/consensus/tendermint/types/validator_set.go:271-289 | removes the validator of an address that is there and resets the caches |
| ValidatorSets.ValidatorSet.FindProposer | plugin/consensus/tendermint/types/validator_set.go:211-219 | the scan finds the unique leader |
| ValidatorSets.ValidatorSet.GetProposer | plugin/consensus/tendermint/types/validator_set.go:201-209 | the cached proposer, else the leader |
| ValidatorSets.ValidatorSet.IncrementAccum | plugin/consensus/tendermint/types/validator_set.go:127-144 | the two loops over the heap equal the abstract rotation: everybody gains its power `times` over, then the leader pays the total `times` over and the last payer is the proposer |
| ValidatorSets.ValidatorSet.constructor | plugin/consensus/tendermint/types/validator_set.go:108-123 | a list in any order is put in address order, the set keeps exactly its validators and has had one turn of the rotation; without a list the set is empty |
| ValidatorSets.ByAddressSorts | plugin/consensus/tendermint/types/validator_set.go:480-494 | sorting by address gives a strictly increasing list of the same validators |
| Rotation.ExactFairness | plugin/consensus/tendermint/types/validator_set.go:127-144 | from zero accums, in exactly T turns each validator proposes exactly as often as its power, and all accums are zero again |
| Rotation.Fairness | plugin/consensus/tendermint/types/validator_set.go:127-144 | for every set of validators and every N, after N turns from zero accums a validator has proposed less than N*p/T + 1 times if and only if there is power, and more than N*p/T - (n-1) times if and only if there is power and there are at least two validators |
| Rotation.AccumBounds | plugin/consensus/tendermint/types/validator_set.go:98-144 | every accum stays strictly between -T and (n-1)T through any calls from zero accums if and only if the set has power and at least two validators |
| Rotation.BoundsInside | plugin/consensus/tendermint/types/validator_set.go:127-144 | inside a call for `times` turns no accum goes beyond -T or (n-1)T plus its power `times` over, which is the room the overflow notes ask about |
| Rotation.LoneValidator | plugin/consensus/tendermint/types/validator_set.go:127-144 | a single validator, to which the strict bound does not apply, is at zero after every call |
| Rotation.Conserves | plugin/consensus/tendermint/types/validator_set.go:127-144 | a call conserves the sum of the accums and everything else about the set |
| Rotation.LeaderIsTop | plugin/consensus/tendermint/types/validator_set.go:47-65 | the scan finds the only validator with more accum than every other, or as much and the lower address |
| Rotation.ProposerPaysLast | plugin/consensus/tendermint/types/validator_set.go:127-144 | the proposer of a call for any number of turns is the validator that was ahead of all others before the last payment, and made it |
| ProposerHeap.RootIsLeader | plugin/consensus/tendermint/types/validator_set.go:499-508 | the root of an ordered heap of all validators is the leader a scan would find |
| ProposerHeap.Heap.Push | plugin/consensus/tendermint/types/util.go:537-539 | keeps the heap ordered, its items the same plus one, and each item's own index right |
| ProposerHeap.Heap.Update | plugin/consensus/tendermint/types/util.go:548-550 | restores the order after the priority of the root changed |
| BitArrays.BitArray.SetIndex | plugin/consensus/tendermint/types/util.go:234-252 | sets or clears one bit in range and nothing else |
| BitArrays.BitArray.Sub | plugin/consensus/tendermint/types/util.go:334-355 | a bit is left exactly if it is set here, not in the other array, and, when this array is larger, not in a word before the last one of the other; so it is the set difference if and only if this array is not larger or the other has every bit set in those words |
| BitArrays.BitArray.And | plugin/consensus/tendermint/types/util.go:303-319 | intersection, of the smaller size |
| BitArrays.BitArray.PickRandom | plugin/consensus/tendermint/types/util.go:391-432 | for any random draws: a set bit below the size, and a failure if and only if there is none |
| Gossip.PeerConnState.PickVoteToSend | plugin/consensus/tendermint/peer_set.go:1029-1057 | for a vote set or a commit, and peer arrays of any size: a picked vote is there and was not known to the peer, and is known afterwards if the array has a place for it, so what is found missing strictly shrinks; no vote only when the round is not tracked or nothing is found missing; a commit of the peer's height is always tracked |
| Gossip.PeerConnState.EnsureVoteBitArrays | plugin/consensus/tendermint/peer_set.go:1140-1159 | allocates the missing arrays, so that exactly the tracked rounds have one, and forgets nothing the peer is known to have |
| Gossip.PeerConnState.EnsureCatchupCommitRound | plugin/consensus/tendermint/peer_set.go:1106-1128 | moves the catch-up round, sharing the precommit array when the rounds coincide, without changing what is known of the round |
| Gossip.PeerConnState.SetHasVote | plugin/consensus/tendermint/peer_set.go:1169-1177 | adds one vote to what is known of its round |
| Gossip.PeerConnState.ArrayOf | plugin/consensus/tendermint/peer_set.go:1059-1104 | which votes each array stands for, and that nothing else is tracked |
| Gossip.PeerConnState.PolIsTracked | plugin/consensus/tendermint/peer_set.go:1059-1104 | the prevotes of the proof-of-lock round are tracked if and only if it is the peer's own round or not its catch-up round |
| Gossip.CommitReads | plugin/consensus/tendermint/types/block.go:276-327 | a commit with a signed entry reads like a vote set: its flags are the entries that name a validator |
| Gossip.VoteSetReads | plugin/consensus/tendermint/types/vote_set.go:335-365 | the flags of a valid vote set say which votes it has |
| Games.Executor.Create | plugin/dapp/game/executor/gamedb.go:177-225 | freezes the stake and opens a game exactly when the amount passes and is there; coins are conserved and the escrow is kept for every amount; with no odd amount before, none can get stuck exactly if this one is even, as every one is under a limit where float64 is exact |
| Games.Executor.Match | plugin/dapp/game/executor/gamedb.go:228-280 | freezes half the stake of the creator on top; what is frozen for the two is then still their stakes; the escrow is kept |
| Games.Executor.Cancel | plugin/dapp/game/executor/gamedb.go:281-329 | the creator of an open game always gets the stake back |
| Games.Executor.Close | plugin/dapp/game/executor/gamedb.go:331-470 | a matched game can always be closed by its creator, and by anybody once it timed out: the pot is paid by the result up to the one unit an odd amount leaves, the escrow is kept and coins are conserved |
| Games.EscrowUpdate | plugin/dapp/game/executor/gamedb.go:177-470 | each address's frozen coins stay equal to the sum of its stakes, the units stuck from odd amounts included |
| Games.StakeIsFrozen | plugin/dapp/game/executor/gamedb.go:343-355 | a stake is always part of what its owner has frozen, so closing and cancelling never lack funds |
| Games.NothingStuck | plugin/dapp/game/executor/gamedb.go:177-470 | if no odd amount was accepted, the frozen coins of an address are exactly what it can get out of open games |
| Games.PotIsExact | plugin/dapp/game/executor/gamedb.go:256-258 | the thirds of the enlarged pot are exact if and only if the amount was even; an odd amount leaves one unit of the creator over |
| Games.AcceptedIsEven | plugin/dapp/game/executor/gamedb.go:181-189 | every accepted amount is even if and only if the configured limit lies where a float64 is exact, because the parity is tested on the amount as a float64 |
| Games.ResultFollowsTheRules | plugin/dapp/game/executor/gamedb.go:474-523 | in time, the guess that the secret opens, rock before scissor before paper, is the creator's and decides against the matcher's by the rules; a secret that opens nothing loses; late, the creator loses |
| Games.PotIsPaid | plugin/dapp/game/executor/gamedb.go:359-452 | by what the secret opens: a winning creator leaves with the whole pot, a winning matcher with the own stake and one part of the creator's two, a draw gives both their stakes back, and if the creator is late the matcher gets all |
| GameIndex.IndexIsExact | plugin/dapp/game/executor/game.go:49-70 | after any run of actions the status and address indexes hold exactly what a scan of all games would give |
| GameIndex.IndexStaysExact | plugin/dapp/game/executor/game.go:49-70 | each action's index writes keep the indexes exact |
| GameIndex.RollbackRestores | plugin/dapp/game/executor/game.go:73-96 | the rollback writes after the update writes restore the index exactly, for every action |
| GameIndex.RollbackOfSuffix | plugin/dapp/game/executor/game.go:73-96 | undoing any number of the last actions of a run, the last one first, gives exactly the index after the actions that are left |
| GameIndex.TxIndexGrows | plugin/dapp/game/executor/gamedb.go:112-114 | indexes of later transactions are larger |
| BlackWhite.GetWinner | plugin/dapp/blackwhite/executor/action.go:523-624 | the loops on the flags of the players compute the survivors of the value model, who they are being `MinorityStays` and `WinnersEnd` |
| BlackWhite.LoopHalves | plugin/dapp/blackwhite/executor/action.go:566-590 | a loop changes nothing or leaves somebody but fewer than half of the field |
| BlackWhite.MinorityStays | plugin/dapp/blackwhite/executor/action.go:566-597 | with the two colours of the field as sets: if both are there and one is smaller, exactly the smaller stays; otherwise everybody does |
| BlackWhite.WinnersEnd | plugin/dapp/blackwhite/executor/action.go:566-624 | the winners are those left after the first loop that leaves one or two, or else after all loops |
| BlackWhite.SomebodySurvives | plugin/dapp/blackwhite/executor/action.go:566-612 | elimination never empties a field with somebody in it |
| BlackWhite.FieldShrinks | plugin/dapp/blackwhite/executor/action.go:566-612 | after d decisive loops at most one in 2^d of the field is left |
| BlackWhite.WinnersAreEligible | plugin/dapp/blackwhite/executor/action.go:531-564 | winners have shown their secret and have a hash for each loop, and there is a winner if and only if somebody has both |
| BlackWhiteEscrow.Contract.StatTransfer | plugin/dapp/blackwhite/executor/action.go:383-521 | with the stakes of the round frozen it succeeds if and only if the round is undecided or the winners' share is an amount below the limit; then exactly the stakes and the creator's lock are released and prizes are as stated; otherwise the rollback restores every account; coins are conserved |
| BlackWhiteEscrow.ShareIsPositive | plugin/dapp/blackwhite/executor/action.go:430-433 | each winner of a decided round gets the same positive share, and what is left over is smaller than the number of winners |
| BlackWhiteEscrow.PrizeOfPlayer | plugin/dapp/blackwhite/executor/action.go:409-490 | by player: in an undecided round the stake back; in a decided one stake and share for a winner, nothing for a loser |
| BlackWhiteEscrow.Contract.GetLoser | plugin/dapp/blackwhite/executor/action.go:626-647 | losers are exactly the players that are not winners |
| BlackWhiteEscrow.Contract.PayWinners | plugin/dapp/blackwhite/executor/action.go:408-490 | the loops over the accounts pay the losers' stakes to the winners, or give every stake back if the share is not an amount; the 64-bit sum does not overflow |
| BlackWhiteEscrow.Contract.GiveBack | plugin/dapp/blackwhite/executor/action.go:448-451 | the rollback after a refused share: every step succeeds and every account is as before |
| BlackWhiteEscrow.SupplyIsPayable | plugin/dapp/blackwhite/executor/action.go:430-455 | when all coins together stay below the limit of an amount, every share is payable |
| BlackWhiteEscrow.Contract.Create | plugin/dapp/blackwhite/executor/action.go:65-101 | locks the creator's deposit and opens a round exactly when the parameters pass and the deposit is there |
| BlackWhiteEscrow.Contract.Play | plugin/dapp/blackwhite/executor/action.go:103-190 | joins once, with at least the amount of the round, as the last player with that stake; the show opens exactly when all players are there, at that time and with no secret shown; the escrow over all rounds is kept |
| BlackWhiteEscrow.Contract.Show | plugin/dapp/blackwhite/executor/action.go:192-274 | records a secret, and pays the round when enough shows were counted; refused exactly for the stated reasons, and then nothing changes; the escrow over all rounds is kept and coins are conserved |
| BlackWhiteEscrow.Contract.TimeoutDone | plugin/dapp/blackwhite/executor/action.go:276-381 | refunds a round that did not fill up and pays one whose show is over, exactly when the time has come and the shares are payable; the escrow over all rounds is kept and coins are conserved |
| BlackWhiteEscrow.StakeIsFrozen | plugin/dapp/blackwhite/executor/action.go:383-521 | the stakes of an open round are all frozen, so the payout never lacks funds |
| BlackWhiteShows.ShowsAreCounted | plugin/dapp/blackwhite/executor/action.go:230-236 | over any shows of a round the count is the number of players with a secret plus the number of empty shows |
| BlackWhiteShows.ClosedByAll | plugin/dapp/blackwhite/executor/action.go:230-245 | a round that is closed by its shows has a secret of every player if and only if none of its shows was empty |
| BlackWhiteShows.ClosedByOne | plugin/dapp/blackwhite/executor/action.go:230-245 | for every round and every player of it, shows of that player alone close it, all but the last empty, and then nobody else has a secret |
| BlackWhiteShows.AllToOne | plugin/dapp/blackwhite/executor/action.go:523-564 | and then, with a hash for each loop, that player is the only winner and the prize is the sum of all stakes |
| BlackWhiteShows.ShowRecorded | plugin/dapp/blackwhite/executor/action.go:230-240 | a show sets the secret, the opened flags and the count of its player and nothing else |
| BlackWhiteShows.ShowLasts | plugin/dapp/blackwhite/executor/action.go:276-381 | whatever is shown, the show is not over for a timeout before its time has passed since the last player joined |

## Left out

- Restarts of a node within a height, and nodes that start on a chain that has blocks: the signer does not save what it signed, so single voting is proved for runs without a restart. Reading the last commit back is covered on its own.
- Liveness under a scheduler: no claim that a block is committed in the end; what is proved is that no node is ever stuck and none passes over a majority.
- Other consensus engines (PBFT, Raft, parachain, ticket), other contracts, stores, wallets, RPC and command line.
- Channels, locks, timers, encoding, networking and peers' connections: the network hands over messages in any order, any number of times.
- Hashing, keys and signatures: ideal functions; a block carries its hash, and the hash of a validator list stands for the list.
- Round steps written by deferred functions while a panic unwinds: a stopped node keeps the state it had when the panic was raised.
- Proposer duties as messages: a node's own proposal, block and votes come back to it as messages; whether a proposal carries the right signature is a parameter.
- Heartbeats, logging, step counting, evidence pool and block store.
- The height check of `NewVoteSet`: heights of a node are at least 1, as the node invariant says.
- VoteSets.VoteSet.AddVote: the vote set of the class `HeightVoteSet` is held as its value, so sharing a vote set between the node and its gossip is not captured.
- ConsensusStates.ConsensusState.FinalizeCommit: the query for validator changes is taken to succeed and to depend on height and block only; a node whose query fails would keep its old validators.
- ConsensusStates.ConsensusState.SetProposal: whether a proposal carries the proposer's signature is a parameter.
- ValidatorSets.ValidatorSet.GetProposer: gives the address only, so the accumulator seen through the shared proposer pointer is not captured.
- `VerifyCommitAny` is not part of this model.
- The bit array operations `Or` and `IsFull`, and nil bit arrays.
- Games.Executor.Create: the counters kept per status and address are left out.
- BlackWhiteEscrow.Contract.Create: the number of loops, which the program computes with a float logarithm, is a parameter.
- BlackWhiteEscrow.Contract.Play: the rounds are saved at once, as from the second fork on; the contract's own address collects the stakes and is the address its accounts belong to.
- The receipts, logs and local indexes of the black-and-white game, and the lists of survivors per loop.
