/**
 `ConsensusState` as it is programmed: handlers that update the round state in place,
 with deferred updates last. Each computes the step of the value model in `Node`, keeps
 the node invariant and moves the node forward. The sanity panics are the `assert false`
 branches; what a handler needs of its caller for them is its precondition.

 The panic on the content of a block is recorded in `status`; nothing after it runs, as
 when it unwinds to the receive routine.
 */
module ConsensusStates {
  import opened Types
  import opened N = Node
  import HL = HeightLedger
  import L = Ledger
  import Chain
  import HVS = HeightVoteSets
  import I = Invariant
  import NodeInvariant
  import Reaction
  import Duties

  class ConsensusState {
    const self: Address
    const config: Config
    var state: Chain.State
    var height: int
    var round: int
    var step: int
    var proposal: Option<Proposal>
    var proposalBlock: Option<Chain.Block>
    var proposalHash: Hash
    var lockedRound: int
    var lockedBlock: Option<Chain.Block>
    var votes: HVS.HeightVoteSet
    var commitRound: int
    var lastCommit: Option<L.Ledger>
    var timeouts: set<Timeout>
    var sent: seq<Vote>
    var committed: map<int, Hash>
    var dropped: bool
    var status: Status

    ghost function Value(): N.Node
      reads this, votes
    {
      N.Node(self, state, height, round, step, proposal, proposalBlock, proposalHash, lockedRound, lockedBlock,
             votes.Value(), commitRound, lastCommit, timeouts, sent, committed, dropped, status)
    }

    ghost predicate Valid()
      reads this, votes
    {
      votes.Valid()
    }

    /** `NewConsensusState` on a chain without blocks, and `Start`. */
    constructor (self: Address, config: Config, state: Chain.State)
      ensures Valid() && fresh(votes) && Value() == N.Start(self, state)
    {
      this.self, this.config := self, config;
      this.state, height, round, step := state, 1, 0, NEW_HEIGHT;
      proposal, proposalBlock, proposalHash := None, None, NIL;
      lockedRound, lockedBlock := 0, None;
      votes := new HVS.HeightVoteSet(1, state.validators);
      commitRound, lastCommit := -1, None;
      timeouts, sent, committed := {Timeout(1, 0, NEW_HEIGHT)}, [], map[];
      dropped, status := false, Running;
    }

    method Panic(why: Panic)
      requires Valid()
      modifies this`status
      ensures Valid() && Value() == N.Stop(old(Value()), why)
    {
      status := Panicked(why);
    }

    method UpdateRoundStep(r: int, p: int)
      requires Valid()
      modifies this`round, this`step
      ensures Valid() && Value() == old(Value()).(round := r, step := p)
    {
      round, step := r, p;
    }

    /** Set the proposal block and the hash it has to have. */
    method ExpectBlock(b: Option<Chain.Block>, hash: Hash)
      requires Valid()
      modifies this`proposalBlock, this`proposalHash
      ensures Valid() && Value() == old(Value()).(proposalBlock := b, proposalHash := hash)
    {
      proposalBlock, proposalHash := b, hash;
    }

    method ClearProposal()
      requires Valid()
      modifies this`proposal, this`proposalBlock, this`proposalHash
      ensures Valid() && Value() == old(Value()).(proposal := None, proposalBlock := None, proposalHash := NIL)
    {
      proposal, proposalBlock, proposalHash := None, None, NIL;
    }

    method Lock(r: int, b: Option<Chain.Block>)
      requires Valid()
      modifies this`lockedRound, this`lockedBlock
      ensures Valid() && Value() == old(Value()).(lockedRound := r, lockedBlock := b)
    {
      lockedRound, lockedBlock := r, b;
    }

    method ScheduleTimeout(r: int, p: int)
      requires Valid()
      modifies this`timeouts
      ensures Valid() && Value() == N.Schedule(old(Value()), r, p)
    {
      timeouts := timeouts + {Timeout(height, r, p)};
    }

    method SignAddVote(w: World, kind: int, hash: Hash)
      requires Valid()
      modifies this`sent
      ensures Valid() && Value() == N.SignVote(old(Value()), w, kind, hash)
    {
      var i := IndexOf(state.validators, self);
      if i < 0 { return; }
      var stamp := if kind == PREVOTE then w.prevote else w.precommit;
      if !stamp.ok || stamp.signature == 0 { return; }
      sent := sent + [Vote(i, self, height, round, kind, stamp.timestamp, hash, stamp.signature)];
    }

    predicate IsProposalComplete()
      reads this, votes
      ensures IsProposalComplete() == N.ProposalComplete(Value())
    {
      && proposal.Some? && proposalBlock.Some?
      && (proposal.value.polRound < 0 || HL.Maj(votes.Value(), proposal.value.polRound, PREVOTE).Some?)
    }

    // ------------------------------------------------------------ round steps

    method DoPrevote(w: World)
      requires Valid()
      modifies this`sent, this`status
      ensures Valid() && Value() == N.DoPrevote(old(Value()), w)
    {
      if lockedBlock.Some? {
        SignAddVote(w, PREVOTE, lockedBlock.value.hash);
        return;
      }
      if proposalBlock.None? {
        SignAddVote(w, PREVOTE, NIL);
        return;
      }
      match Chain.Validate(state, w.env.signed, proposalBlock.value) {
        case Crash => Panic(BlockContent);
        case Reject => SignAddVote(w, PREVOTE, NIL);
        case Accept => SignAddVote(w, PREVOTE, proposalBlock.value.hash);
      }
    }

    method EnterPrevote(w: World, h: int, r: int)
      requires Valid()
      modifies this`sent, this`status, this`round, this`step
      ensures Valid() && Value() == N.EnterPrevote(old(Value()), w, h, r)
      ensures old(I.Base(Value(), w.env)) && r <= old(round) ==>
                I.Base(Value(), w.env) && I.Moves(old(Value()), Value())
    {
      hide N.DoPrevote, I.Base, I.Moves;
      if I.Base(Value(), w.env) && r <= round { NodeInvariant.EnterPrevoteOk(Value(), w, h, r); }
      if !status.Running? || height != h || r < round || (round == r && PREVOTED <= step) { return; }
      DoPrevote(w);
      if !status.Running? { return; }
      UpdateRoundStep(r, PREVOTED);
    }

    method EnterPropose(w: World, h: int, r: int)
      requires Valid()
      modifies this`sent, this`status, this`round, this`step, this`timeouts
      ensures Valid() && Value() == N.EnterPropose(old(Value()), w, h, r)
      ensures old(I.Base(Value(), w.env)) && r <= old(round) ==>
                I.Base(Value(), w.env) && I.Moves(old(Value()), Value())
    {
      hide N.EnterPrevote, N.ProposalComplete, I.Base, I.Moves;
      if I.Base(Value(), w.env) && r <= round { NodeInvariant.EnterProposeOk(Value(), w, h, r); }
      if !status.Running? || height != h || r < round || (round == r && PROPOSE <= step) { return; }
      ScheduleTimeout(r, PROPOSE);
      UpdateRoundStep(r, PROPOSE);
      if IsProposalComplete() { EnterPrevote(w, h, round); }
    }

    /** The round fields of `enterNewRound`, and the vote sets of one round more. */
    method ResetRound(r: int)
      requires Valid() && I.Core(Value()) && round <= r && (r == round ==> step == NEW_HEIGHT)
      modifies this`round, this`step, this`proposal, this`proposalBlock, this`proposalHash, votes
      ensures Valid() && !old(HL.SetRoundPanics(votes.Value(), r + 1)) && Value() == N.ResetRound(old(Value()), r)
    {
      hide HL.SetRound, HL.Shaped, HL.Maj;
      var ok := votes.SetRound(r + 1);
      if !ok { assert false; }
      UpdateRoundStep(r, NEW_ROUND);
      if r != 0 {
        ClearProposal();
      }
    }

    method EnterNewRound(w: World, h: int, r: int)
      requires Valid() && I.Core(Value())
      modifies this`sent, this`status, this`round, this`step, this`timeouts, this`proposal, this`proposalBlock,
               this`proposalHash, votes
      ensures Valid() && Value() == N.EnterNewRound(old(Value()), config, w, h, r)
      ensures old(I.Base(Value(), w.env)) ==> I.Base(Value(), w.env) && I.Moves(old(Value()), Value())
    {
      hide N.EnterPropose, N.ResetRound, HL.SetRoundPanics, HL.Shaped, I.Base, I.Moves, I.Core;
      if I.Base(Value(), w.env) { NodeInvariant.EnterNewRoundOk(Value(), config, w, h, r); }
      if !status.Running? || height != h || r < round || (round == r && step != NEW_HEIGHT) { return; }
      ResetRound(r);
      var waitForTxs := (!config.createEmptyBlocks || config.emptyBlocksInterval > 0) && r == 0;
      if waitForTxs {
        if config.emptyBlocksInterval > 0 { ScheduleTimeout(r, NEW_ROUND); }
      } else {
        EnterPropose(w, h, r);
      }
    }

    method EnterPrevoteWait(ghost env: Env, h: int, r: int)
      requires Valid() && HL.HasAny(votes.Value(), r, PREVOTE)
      modifies this`round, this`step, this`timeouts
      ensures Valid() && Value() == N.EnterPrevoteWait(old(Value()), h, r)
      ensures old(I.Base(Value(), env)) && r <= old(round) ==> I.Base(Value(), env) && I.Moves(old(Value()), Value())
    {
      hide HL.HasAny, I.Base, I.Moves;
      if I.Base(Value(), env) && r <= round { NodeInvariant.EnterPrevoteWaitOk(Value(), env, h, r); }
      if !status.Running? || height != h || r < round || (round == r && PREVOTE_WAIT <= step) { return; }
      if !HL.HasAny(votes.Value(), r, PREVOTE) { assert false; }
      ScheduleTimeout(r, PREVOTE_WAIT);
      UpdateRoundStep(r, PREVOTE_WAIT);
    }

    /** The body of `enterPrecommit`, up to its deferred update. */
    method DoPrecommit(w: World, r: int)
      requires Valid() && status.Running? && 0 <= r <= votes.round
      modifies this`sent, this`status, this`lockedRound, this`lockedBlock, this`proposalBlock, this`proposalHash
      ensures Valid() && Value() == N.DoPrecommit(old(Value()), w, r)
    {
      hide HL.Maj, HL.PolRound, Chain.Validate, N.SignVote;
      var polka := HL.Maj(votes.Value(), r, PREVOTE);
      if polka.None? {
        SignAddVote(w, PRECOMMIT, NIL);
        return;
      }
      NodeInvariant.PolIsNotBelow(votes.Value(), r);
      var polRound, _ := votes.POLInfo();
      if polRound < r { assert false; }
      var h := polka.value;
      if h == NIL {
        if lockedBlock.Some? { Lock(0, None); }
        SignAddVote(w, PRECOMMIT, NIL);
        return;
      }
      if Chain.HashesTo(lockedBlock, h) {
        Lock(r, lockedBlock);
        SignAddVote(w, PRECOMMIT, h);
        return;
      }
      if Chain.HashesTo(proposalBlock, h) {
        if !Chain.Validate(state, w.env.signed, proposalBlock.value).Accept? {
          Panic(BlockContent);
          return;
        }
        Lock(r, proposalBlock);
        SignAddVote(w, PRECOMMIT, h);
        return;
      }
      Lock(0, None);
      if proposalHash != h {
        ExpectBlock(None, h);
      }
      SignAddVote(w, PRECOMMIT, NIL);
    }

    method EnterPrecommit(w: World, h: int, r: int)
      requires Valid() && (status.Running? && height == h && round <= r ==> 0 <= r <= votes.round)
      modifies this`sent, this`status, this`lockedRound, this`lockedBlock, this`proposalBlock, this`proposalHash,
               this`round, this`step
      ensures Valid() && Value() == N.EnterPrecommit(old(Value()), w, h, r)
      ensures old(I.Base(Value(), w.env)) && r <= old(round) ==>
                I.Base(Value(), w.env) && I.Moves(old(Value()), Value())
    {
      hide N.DoPrecommit, I.Base, I.Moves;
      if I.Base(Value(), w.env) && r <= round { NodeInvariant.EnterPrecommitOk(Value(), w, h, r); }
      if !status.Running? || height != h || r < round || (round == r && PRECOMMITTED <= step) { return; }
      DoPrecommit(w, r);
      if !status.Running? { return; }
      UpdateRoundStep(r, PRECOMMITTED);
    }

    method EnterPrecommitWait(ghost env: Env, h: int, r: int)
      requires Valid() && HL.HasAny(votes.Value(), r, PRECOMMIT)
      modifies this`round, this`step, this`timeouts
      ensures Valid() && Value() == N.EnterPrecommitWait(old(Value()), h, r)
      ensures old(I.Base(Value(), env)) && r <= old(round) ==> I.Base(Value(), env) && I.Moves(old(Value()), Value())
    {
      hide HL.HasAny, I.Base, I.Moves;
      if I.Base(Value(), env) && r <= round { NodeInvariant.EnterPrecommitWaitOk(Value(), env, h, r); }
      if !status.Running? || height != h || r < round || (round == r && PRECOMMIT_WAIT <= step) { return; }
      if !HL.HasAny(votes.Value(), r, PRECOMMIT) { assert false; }
      ScheduleTimeout(r, PRECOMMIT_WAIT);
      UpdateRoundStep(r, PRECOMMIT_WAIT);
    }

    // ----------------------------------------------------------------- commit

    method UpdateToState(st: Chain.State)
      requires Valid() && I.Core(Value()) && (commitRound > -1 ==> st.lastBlockHeight == height)
      modifies this
      ensures Valid() && (votes == old(votes) || fresh(votes))
      ensures Value() == N.UpdateToState(old(Value()), st)
    {
      hide HL.Maj, HL.New, HL.Shaped;
      if commitRound > -1 && 0 < height && height != st.lastBlockHeight { assert false; }
      if state.lastBlockHeight + 1 != height { assert false; }
      if st.lastBlockHeight <= state.lastBlockHeight { return; }
      var lastPrecommits := None;
      if commitRound > -1 {
        if HL.Maj(votes.Value(), commitRound, PRECOMMIT).None? { assert false; }
        lastPrecommits := HL.Get(votes.Value(), commitRound, PRECOMMIT);
      }
      StartHeight(st, lastPrecommits);
    }

    /** The last part of `updateToState`: a fresh round state. */
    method StartHeight(st: Chain.State, lastPrecommits: Option<L.Ledger>)
      requires Valid()
      modifies this
      ensures Valid() && fresh(votes)
      ensures Value() == old(Value()).(
        state := st, height := st.lastBlockHeight + 1, round := 0, step := NEW_HEIGHT,
        proposal := None, proposalBlock := None, proposalHash := NIL, lockedRound := 0, lockedBlock := None,
        votes := HL.New(st.lastBlockHeight + 1, st.validators), commitRound := -1, lastCommit := lastPrecommits)
    {
      hide HL.New, HL.Shaped;
      UpdateHeight(st);
      UpdateRoundStep(0, NEW_HEIGHT);
      ClearProposal();
      Lock(0, None);
      ResetVotes(st.lastBlockHeight + 1, st.validators);
      ResetCommit(lastPrecommits);
    }

    method UpdateHeight(st: Chain.State)
      requires Valid()
      modifies this`height, this`state
      ensures Valid() && Value() == old(Value()).(height := st.lastBlockHeight + 1, state := st)
    {
      height, state := st.lastBlockHeight + 1, st;
    }

    method ResetCommit(lastPrecommits: Option<L.Ledger>)
      requires Valid()
      modifies this`commitRound, this`lastCommit
      ensures Valid() && Value() == old(Value()).(commitRound := -1, lastCommit := lastPrecommits)
    {
      commitRound, lastCommit := -1, lastPrecommits;
    }

    method ResetVotes(h: int, vals: Validators)
      requires Valid()
      modifies this`votes
      ensures Valid() && fresh(votes) && Value() == old(Value()).(votes := HL.New(h, vals))
    {
      hide HL.New, HL.Shaped;
      votes := new HVS.HeightVoteSet(h, vals);
    }

    method FinalizeCommit(w: World, h: int)
      requires Valid() && I.Base(Value(), w.env)
      requires step == COMMIT ==> Chain.HashesTo(proposalBlock, HL.Maj(votes.Value(), commitRound, PRECOMMIT).value)
      modifies this, votes
      ensures Valid() && (votes == old(votes) || fresh(votes))
      ensures Value() == N.FinalizeCommit(old(Value()), config, w, h)
      ensures I.Base(Value(), w.env) && I.Moves(old(Value()), Value())
    {
      hide HL.Maj, HL.Shaped, Chain.Validate, N.EnterNewRound, N.UpdateToState, N.NextState, I.Base, I.Moves, I.Core;
      NodeInvariant.FinalizeCommitOk(Value(), config, w, h);
      if !status.Running? || height != h || step != COMMIT { return; }
      NodeInvariant.CommitIsRecorded(Value(), w.env);
      var majority := HL.Maj(votes.Value(), commitRound, PRECOMMIT);
      if majority.None? { assert false; }
      if !Chain.HashesTo(proposalBlock, majority.value) { assert false; }
      if !Chain.Validate(state, w.env.signed, proposalBlock.value).Accept? {
        Panic(BlockContent);
        return;
      }
      // applying the block validates it against the same state again, so it cannot fail here
      if !w.commitOk {
        NodeInvariant.DropCore(Value());
        Lock(0, None);
        dropped := true;
        EnterNewRound(w, height, commitRound + 1);
        return;
      }
      var st := N.NextState(state, proposalBlock.value, w.env.execute(height, majority.value));
      NodeInvariant.NextStateHeight(state, w.env, proposalBlock.value, w.env.execute(height, majority.value));
      NodeInvariant.CommittedCore(Value(), majority.value);
      committed := committed[height := majority.value];
      UpdateToState(st);
      if status.Running? { ScheduleTimeout(0, NEW_HEIGHT); }
    }

    method TryFinalizeCommit(w: World, h: int)
      requires Valid() && I.Base(Value(), w.env) && height == h && step == COMMIT
      modifies this, votes
      ensures Valid() && (votes == old(votes) || fresh(votes))
      ensures Value() == N.TryFinalizeCommit(old(Value()), config, w, h)
      ensures I.Base(Value(), w.env) && I.Moves(old(Value()), Value())
    {
      hide HL.Maj, HL.Shaped, N.FinalizeCommit, I.Base, I.Moves;
      NodeInvariant.TryFinalizeCommitOk(Value(), config, w);
      if !status.Running? { return; }
      if height != h { assert false; }
      var majority := HL.Maj(votes.Value(), commitRound, PRECOMMIT);
      if majority.None? || majority.value == NIL { return; }
      if !Chain.HashesTo(proposalBlock, majority.value) { return; }
      FinalizeCommit(w, h);
    }

    method EnterCommit(w: World, h: int, r: int)
      requires Valid() && I.Base(Value(), w.env) && HL.Maj(votes.Value(), r, PRECOMMIT).Some?
      modifies this, votes
      ensures Valid() && (votes == old(votes) || fresh(votes))
      ensures Value() == N.EnterCommit(old(Value()), config, w, h, r)
      ensures I.Base(Value(), w.env) && I.Moves(old(Value()), Value())
    {
      hide HL.Maj, HL.Shaped, N.TryFinalizeCommit, I.Base, I.Moves;
      NodeInvariant.EnterCommitOk(Value(), config, w, h, r);
      if !status.Running? || height != h || COMMIT <= step { return; }
      var majority := HL.Maj(votes.Value(), r, PRECOMMIT);
      if majority.None? { assert false; }
      NodeInvariant.CommitStepOk(Value(), w.env, r, majority.value);
      AwaitBlock(majority.value);
      step := COMMIT;
      commitRound := r;
      TryFinalizeCommit(w, h);
    }

    /** The block fields of `enterCommit`: the locked block if it is the one, else wait for it. */
    method AwaitBlock(hash: Hash)
      requires Valid()
      modifies this`proposalBlock, this`proposalHash
      ensures Valid() && Value() == N.Await(old(Value()), hash)
    {
      if Chain.HashesTo(lockedBlock, hash) {
        ExpectBlock(lockedBlock, hash);
      }
      if !Chain.HashesTo(proposalBlock, hash) {
        if proposalHash != hash { ExpectBlock(None, hash); }
      }
    }

    // --------------------------------------------------------------- messages

    method SetProposal(w: World, p: Proposal)
      requires Valid()
      modifies this`proposal, this`proposalHash
      ensures Valid() && Value() == N.SetProposal(old(Value()), w, p)
      ensures old(I.Base(Value(), w.env)) ==> I.Base(Value(), w.env) && I.Moves(old(Value()), Value())
    {
      hide I.Base, I.Moves;
      if I.Base(Value(), w.env) { NodeInvariant.ProposalFieldsOk(Value(), N.SetProposal(Value(), w, p), w.env); }
      if proposal.Some? { return; }
      if p.height != height || p.round != round { return; }
      if COMMIT <= step { return; }
      if p.polRound != -1 && (p.polRound < 0 || p.round <= p.polRound) { return; }
      if !w.proposalSigned { return; }
      proposal := Some(p);
      proposalHash := p.hash;
    }

    method AddProposalBlock(w: World, b: Chain.Block)
      requires Valid() && I.Base(Value(), w.env)
      modifies this, votes
      ensures Valid() && (votes == old(votes) || fresh(votes))
      ensures Value() == N.AddProposalBlock(old(Value()), config, w, b)
      ensures I.Base(Value(), w.env) && I.Moves(old(Value()), Value())
    {
      hide HL.Shaped, N.EnterPrevote, N.TryFinalizeCommit, I.Base, I.Moves;
      NodeInvariant.AddProposalBlockOk(Value(), config, w, b);
      if height != b.header.height { return; }
      if !Chain.HashesTo(Some(b), proposalHash) { return; }
      if proposalBlock.Some? && Chain.HashesTo(Some(b), proposalBlock.value.hash) { return; }
      NodeInvariant.ProposalFieldsOk(Value(), Value().(proposalBlock := Some(b)), w.env);
      proposalBlock := Some(b);
      if step <= PROPOSE {
        EnterPrevote(w, height, round);
      } else if step == COMMIT {
        TryFinalizeCommit(w, height);
      }
    }

    /** The prevote case of `addVote`. */
    method AddedPrevote(w: World, r: int)
      requires Valid() && I.Base(Value(), w.env) && status.Running? && r in votes.rounds
      modifies this, votes
      ensures Valid() && votes == old(votes) && Value() == N.AddedPrevote(old(Value()), config, w, r)
      ensures I.Base(Value(), w.env) && I.Moves(old(Value()), Value())
      ensures old(NodeInvariant.Unlocks(Value(), r)) && status.Running? ==> lockedBlock.None? || lockedRound == r
    {
      hide HL.Maj, HL.Shaped, N.AfterPrevote, I.Base, I.Moves, I.Core, NodeInvariant.Unlocks;
      NodeInvariant.AddedPrevoteOk(Value(), config, w, r);
      if NodeInvariant.Unlocks(Value(), r) { Reaction.PolkaUnlocks(Value(), config, w, r); }
      NodeInvariant.UnlockedCore(Value(), w.env, r);
      var polka := HL.Maj(votes.Value(), r, PREVOTE);
      if polka.Some? {
        if lockedBlock.Some? && lockedRound < r && r <= round && !Chain.HashesTo(lockedBlock, polka.value) {
          Lock(0, None);
        }
      }
      AfterPrevote(w, r);
    }

    /** The rest of the prevote case, once the lock has been looked at. */
    method AfterPrevote(w: World, r: int)
      requires Valid() && I.Core(Value())
      modifies this, votes
      ensures Valid() && votes == old(votes) && Value() == N.AfterPrevote(old(Value()), config, w, r)
    {
      hide HL.Maj, HL.HasAny, HL.Shaped, N.EnterNewRound, N.EnterPrecommit, N.EnterPrevote, N.EnterPrevoteWait;
      hide N.ProposalComplete, I.Base, I.Moves, I.Core;
      ghost var s := Value();
      var h := height;
      var polka := HL.Maj(votes.Value(), r, PREVOTE);
      if round <= r && HL.HasAny(votes.Value(), r, PREVOTE) {
        NodeInvariant.RoundReached(s, config, w, h, r);
        NodeInvariant.NewRoundKeepsAny(s, config, w, h, r, PREVOTE);
        EnterNewRound(w, h, r);
        if polka.Some? {
          EnterPrecommit(w, h, r);
        } else {
          EnterPrevote(w, h, r);
          EnterPrevoteWait(w.env, h, r);
        }
      } else if proposal.Some? && 0 <= proposal.value.polRound && proposal.value.polRound == r {
        if IsProposalComplete() { EnterPrevote(w, h, round); }
      }
    }

    /** The precommit case of `addVote`. */
    method AddedPrecommit(w: World, r: int)
      requires Valid() && I.Base(Value(), w.env) && status.Running? && r in votes.rounds
      modifies this, votes
      ensures Valid() && (votes == old(votes) || fresh(votes))
      ensures Value() == N.AddedPrecommit(old(Value()), config, w, r)
      ensures I.Base(Value(), w.env) && I.Moves(old(Value()), Value())
    {
      hide HL.HasAny, HL.Shaped, N.EnterNewRound, N.EnterPrecommit, N.EnterCommit, N.EnterPrecommitWait, L.HasAll;
      hide I.Base, I.Moves, I.Core, HL.Maj, HL.Get;
      NodeInvariant.AddedPrecommitOk(Value(), config, w, r);
      NodeInvariant.CoreOf(Value(), w.env);
      var majority := HL.Maj(votes.Value(), r, PRECOMMIT);
      if majority.Some? {
        if majority.value == NIL {
          EnterNewRound(w, height, r + 1);
        } else {
          CommitRound(w, r);
        }
      } else if round <= r && HL.HasAny(votes.Value(), r, PRECOMMIT) {
        var h := height;
        EnterRound(w, r);
        EnterPrecommitWait(w.env, h, r);
      }
    }

    /** `enterNewRound` and `enterPrecommit` for the round of a counted precommit. */
    method EnterRound(w: World, r: int)
      requires Valid() && I.Base(Value(), w.env) && status.Running? && r in votes.rounds
      modifies this, votes
      ensures Valid() && votes == old(votes) && Value() == NodeInvariant.Entered(old(Value()), config, w, r)
      ensures I.Base(Value(), w.env) && I.Moves(old(Value()), Value())
      ensures old(HL.HasAny(votes.Value(), r, PRECOMMIT)) ==> HL.HasAny(votes.Value(), r, PRECOMMIT)
    {
      hide HL.HasAny, HL.Shaped, N.EnterNewRound, N.EnterPrecommit, I.Base, I.Moves, I.Core, HL.Get;
      ghost var s := Value();
      NodeInvariant.CoreOf(s, w.env);
      NodeInvariant.RoundReached(s, config, w, s.height, r);
      NodeInvariant.EnteredOk(s, config, w, r);
      var h := height;
      EnterNewRound(w, h, r);
      EnterPrecommit(w, h, r);
      if HL.HasAny(s.votes, r, PRECOMMIT) { NodeInvariant.SameAny(s.votes, Value().votes, r, PRECOMMIT); }
    }

    /** The case of a majority for a block. */
    method CommitRound(w: World, r: int)
      requires Valid() && I.Base(Value(), w.env) && status.Running? && r in votes.rounds
      requires HL.Maj(votes.Value(), r, PRECOMMIT).Some? && HL.Maj(votes.Value(), r, PRECOMMIT).value != NIL
      modifies this, votes
      ensures Valid() && (votes == old(votes) || fresh(votes))
      ensures Value() == N.AddedPrecommit(old(Value()), config, w, r)
    {
      hide HL.HasAny, HL.Shaped, N.EnterNewRound, N.EnterPrecommit, N.EnterCommit, N.EnterPrecommitWait, L.HasAll;
      hide I.Base, I.Moves, I.Core, HL.Get;
      NodeInvariant.EnteredOk(Value(), config, w, r);
      var all := L.HasAll(HL.Get(votes.Value(), r, PRECOMMIT).value);
      var h := height;
      EnterRound(w, r);
      EnterCommit(w, h, r);
      NodeInvariant.CoreOf(Value(), w.env);
      if config.skipTimeoutCommit && all { EnterNewRound(w, height, 0); }
    }

    method AddVote(w: World, vote: Vote, peer: PeerId)
      requires Valid() && I.Base(Value(), w.env) && status.Running?
      modifies this, votes
      ensures Valid() && (votes == old(votes) || fresh(votes))
      ensures Value() == N.AddVote(old(Value()), config, w, vote, peer)
      ensures I.Base(Value(), w.env) && I.Moves(old(Value()), Value())
    {
      hide HL.AddVote, HL.Shaped, N.AddedPrevote, N.AddedPrecommit, I.Base, I.Moves;
      NodeInvariant.AddVoteOk(Value(), config, w, vote, peer);
      if vote.height != height { return; }
      NodeInvariant.VoteRecordedOk(Value(), w.env, vote, peer);
      var added, _, panicked := votes.AddVote(w.env.signed, vote, peer);
      if panicked { assert false; }
      if !added { return; }
      if vote.kind == PREVOTE {
        AddedPrevote(w, vote.round);
      } else if vote.kind == PRECOMMIT {
        AddedPrecommit(w, vote.round);
      } else {
        assert false;
      }
    }

    lemma TimeoutActs(w: World, t: Timeout)
      requires Valid() && I.Base(Value(), w.env) && status.Running? && t in timeouts && t == Timeout(height, round, step)
      ensures var s' := N.HandleTimeout(Value(), config, w, t);
        || s'.status == Panicked(BlockContent)
        || (Duties.Fired(Value(), s') && !I.Upto(s'.height, s'.round, s'.step, t.height, t.round, t.step))
    {
      hide HL.Shaped, N.HandleTimeout, I.Base, Duties.Fired;
      Duties.TimeoutActs(Value(), config, w);
    }

    /** A timeout the node asked for: one for where it is takes it on, any other changes nothing. */
    method HandleTimeout(w: World, t: Timeout)
      requires Valid() && I.Base(Value(), w.env) && status.Running? && t in timeouts
      modifies this, votes
      ensures Valid() && votes == old(votes) && Value() == N.HandleTimeout(old(Value()), config, w, t)
      ensures I.Base(Value(), w.env) && I.Moves(old(Value()), Value())
      ensures Value() == old(Value()) || t == old(Timeout(height, round, step))
      ensures t == old(Timeout(height, round, step)) ==>
                || status == Panicked(BlockContent)
                || (Duties.Fired(old(Value()), Value()) && !I.Upto(height, round, step, t.height, t.round, t.step))
    {
      hide HL.Shaped, N.EnterNewRound, N.EnterPropose, N.EnterPrevote, N.EnterPrecommit, I.Base, I.Moves, I.Core;
      NodeInvariant.HandleTimeoutOk(Value(), config, w, t);
      if t == Timeout(height, round, step) { TimeoutActs(w, t); }
      NodeInvariant.CoreOf(Value(), w.env);
      NodeInvariant.TimeoutIsHere(Value(), w.env, t);
      if t.height != height || t.round < round || (t.round == round && t.step < step) { return; }
      if t.step == NEW_HEIGHT {
        EnterNewRound(w, t.height, 0);
      } else if t.step == NEW_ROUND {
        EnterPropose(w, t.height, 0);
      } else if t.step == PROPOSE {
        EnterPrevote(w, t.height, t.round);
      } else if t.step == PREVOTE_WAIT {
        EnterPrecommit(w, t.height, t.round);
      } else if t.step == PRECOMMIT_WAIT {
        EnterNewRound(w, t.height, t.round + 1);
      } else {
        assert false;
      }
    }

    /** One message of the receive routine, or a timeout the node asked for: no sanity check fails. */
    method Receive(w: World, e: Event)
      requires Valid() && I.Base(Value(), w.env) && (e.Tock? ==> e.timeout in timeouts)
      modifies this, votes
      ensures Valid() && (votes == old(votes) || fresh(votes))
      ensures Value() == N.Handle(old(Value()), config, w, e)
      ensures I.Base(Value(), w.env) && I.Moves(old(Value()), Value())
      ensures old(Reaction.Current(Value())) ==> Reaction.Current(Value())
    {
      hide I.Base, I.Moves, Reaction.Current, HL.Shaped, HL.SetPeerMaj23, N.AddVote, N.SetProposal, N.AddProposalBlock;
      hide N.HandleTimeout, N.EnterPropose;
      NodeInvariant.HandleOk(Value(), config, w, e);
      if Reaction.Current(Value()) { Reaction.HandleCurrent(Value(), config, w, e); }
      if !status.Running? { return; }
      match e {
        case VoteMsg(vote, peer) => AddVote(w, vote, peer);
        case ProposalMsg(p) => SetProposal(w, p);
        case BlockMsg(b) => AddProposalBlock(w, b);
        case Tock(t) => HandleTimeout(w, t);
        case TxsAvailable(h) => EnterPropose(w, h, 0);
        case PeerClaim(h, r, kind, peer, hash) =>
          if h == height { votes.SetPeerMaj23(r, kind, peer, hash); }
      }
    }
  }
}
