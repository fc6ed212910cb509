/**
 What a node does when it is its turn: which vote it signs, what it locks, which
 proposal and block it takes, and where a timeout takes it.
 */
module Duties {
  import opened Types
  import opened Node
  import opened Invariant
  import opened Reaction
  import NodeInvariant
  import HL = HeightLedger
  import L = Ledger
  import Chain
  import VC = ValidatorChange
  import Power

  // ------------------------------------------------------------------- votes

  /** The node is a validator and its signer signs. */
  ghost predicate CanSign(s: Node, stamp: Stamp) {
    stamp.ok && stamp.signature != 0 && exists i :: 0 <= i < |s.state.validators| && s.state.validators[i].address == s.self
  }

  /** A vote of the node for its height and round, under the index of its key. */
  ghost predicate OwnVote(s: Node, v: Vote, stamp: Stamp, kind: int, hash: Hash) {
    && 0 <= v.index < |s.state.validators| && s.state.validators[v.index].address == s.self == v.address
    && v.height == s.height && v.round == s.round && v.kind == kind && v.hash == hash
    && v.timestamp == stamp.timestamp && v.signature == stamp.signature
  }

  /** Exactly one vote was signed if the node can sign, and none if not. */
  ghost predicate Casts(s: Node, sent': seq<Vote>, stamp: Stamp, kind: int, hash: Hash) {
    if CanSign(s, stamp) then exists v :: OwnVote(s, v, stamp, kind, hash) && sent' == s.sent + [v]
    else sent' == s.sent
  }

  lemma SignCasts(s: Node, w: World, kind: int, hash: Hash)
    ensures Casts(s, SignVote(s, w, kind, hash).sent, if kind == PREVOTE then w.prevote else w.precommit, kind, hash)
  {
    hide IndexOf;
    var i := IndexOf(s.state.validators, s.self);
    var stamp := if kind == PREVOTE then w.prevote else w.precommit;
    if i >= 0 && stamp.ok && stamp.signature != 0 {
      var v := Vote(i, s.self, s.height, s.round, kind, stamp.timestamp, hash, stamp.signature);
      assert OwnVote(s, v, stamp, kind, hash) && SignVote(s, w, kind, hash).sent == s.sent + [v];
    }
  }

  /** A vote that the node signs is one that the ledger of its round accepts, if it has none of the node yet. */
  lemma OwnVoteCounts(s: Node, v: Vote, stamp: Stamp, kind: int, hash: Hash, l: L.Ledger, signed: Signatures)
    requires OwnVote(s, v, stamp, kind, hash) && s.self != 0 && stamp.signature != 0 && (s.self, v) in signed
    requires L.Valid(l, signed) && l.height == s.height && l.round == s.round && l.kind == kind && l.vals == s.state.validators
    requires l.votes[v.index].None?
    ensures L.AddVote(l, signed, v).added && L.AddVote(l, signed, v).err.NoError?
  {
    hide L.AddVote, L.CanonicalValid, L.MajorityValid, L.TrackingBounded, L.Claimed;
    L.AcceptedVote(l, signed, v);
  }

  /** The block a validator prevotes: the locked one, else a valid proposal, else none. */
  lemma PrevoteChoice(s: Node, w: World)
    requires s.status.Running? && s.step < PREVOTED
    ensures var s' := EnterPrevote(s, w, s.height, s.round);
      if s.lockedBlock.Some? then s'.step == PREVOTED && Casts(s, s'.sent, w.prevote, PREVOTE, s.lockedBlock.value.hash)
      else if s.proposalBlock.None? then s'.step == PREVOTED && Casts(s, s'.sent, w.prevote, PREVOTE, NIL)
      else
        match Chain.Validate(s.state, w.env.signed, s.proposalBlock.value)
        case Accept => s'.step == PREVOTED && Casts(s, s'.sent, w.prevote, PREVOTE, s.proposalBlock.value.hash)
        case Reject => s'.step == PREVOTED && Casts(s, s'.sent, w.prevote, PREVOTE, NIL)
        case Crash => s'.status == Panicked(BlockContent) && s'.sent == s.sent
  {
    hide Chain.Validate, SignVote, Casts;
    SignCasts(s, w, PREVOTE, NIL);
    if s.lockedBlock.Some? { SignCasts(s, w, PREVOTE, s.lockedBlock.value.hash); }
    if s.proposalBlock.Some? { SignCasts(s, w, PREVOTE, s.proposalBlock.value.hash); }
  }


  /** The node has the block with a hash. */
  ghost predicate HasBlock(s: Node, h: Hash) { Chain.HashesTo(s.lockedBlock, h) || Chain.HashesTo(s.proposalBlock, h) }

  /**
   What a validator precommits and locks on the prevotes of its round. Without a polka:
   nil, and the lock stays. On a polka for nil: nil, and no lock. On a polka for a block it
   has: that block, locked in this round. On one for a block it does not have: nil, no
   lock, and that block is expected.
   */
  lemma PrecommitChoice(s: Node, w: World)
    requires Base(s, w.env) && s.status.Running? && s.step < PRECOMMITTED
    ensures var s' := EnterPrecommit(s, w, s.height, s.round);
      match HL.Maj(s.votes, s.round, PREVOTE)
      case None =>
        && s'.step == PRECOMMITTED && Casts(s, s'.sent, w.precommit, PRECOMMIT, NIL)
        && s'.lockedBlock == s.lockedBlock && s'.lockedRound == s.lockedRound
      case Some(h) =>
        if h == NIL then
          s'.step == PRECOMMITTED && Casts(s, s'.sent, w.precommit, PRECOMMIT, NIL) && s'.lockedBlock.None?
        else if !HasBlock(s, h) then
          && s'.step == PRECOMMITTED && Casts(s, s'.sent, w.precommit, PRECOMMIT, NIL) && s'.lockedBlock.None?
          && s'.proposalHash == h && !Chain.HashesTo(s'.proposalBlock, h)
        else
          || (s'.status == Panicked(BlockContent) && s'.sent == s.sent && !Chain.HashesTo(s.lockedBlock, h)
              && !Chain.Validate(s.state, w.env.signed, s.proposalBlock.value).Accept?)
          || (s'.step == PRECOMMITTED && Casts(s, s'.sent, w.precommit, PRECOMMIT, h)
              && Chain.HashesTo(s'.lockedBlock, h) && s'.lockedRound == s.round)
  {
    hide History, LockValid, LastOk, HL.RoundsValid, HL.Tracked, L.Shaped, SentOk, TimeoutsOk, LockOk;
    hide HL.Maj, HL.PolRound, Chain.Validate, SignVote, Casts;
    match HL.Maj(s.votes, s.round, PREVOTE)
    case None => SignCasts(s, w, PRECOMMIT, NIL);
    case Some(h) =>
      NodeInvariant.PolIsNotBelow(s.votes, s.round);
      DecideCasts(s, w, h);
  }

  /** Signing after the lock is settled is signing from the state before. */
  lemma DecideCasts(s: Node, w: World, h: Hash)
    ensures var (s1, hash) := Decide(s, w, s.round, h);
      Casts(s, SignVote(s1, w, PRECOMMIT, hash).sent, w.precommit, PRECOMMIT, hash)
  {
    hide Decide, Casts;
    var (s1, hash) := Decide(s, w, s.round, h);
    SignCasts(s, w, PRECOMMIT, hash);
    assert SignVote(s1, w, PRECOMMIT, hash).sent == SignVote(s, w, PRECOMMIT, hash).sent;
  }

  // ------------------------------------------------------------ proposal and block

  /** A proposal that a node takes: the first one for its height and round, in time, signed and with a proper proof-of-lock round. */
  ghost predicate Takes(s: Node, w: World, p: Proposal) {
    && s.proposal.None? && s.step < COMMIT && w.proposalSigned
    && p.height == s.height && p.round == s.round && (p.polRound == -1 || 0 <= p.polRound < p.round)
  }


  lemma ProposalTaken(s: Node, c: Config, w: World, p: Proposal)
    requires s.status.Running? && HL.Shaped(s.votes)
    ensures var s' := Handle(s, c, w, ProposalMsg(p));
      if Takes(s, w, p) then s' == s.(proposal := Some(p), proposalHash := p.hash) else s' == s
  {
    hide HL.Shaped;
  }

  /** The block a node waits for. */
  ghost predicate Expects(s: Node, b: Chain.Block) {
    && b.header.height == s.height && Chain.HashesTo(Some(b), s.proposalHash)
    && !(s.proposalBlock.Some? && Chain.HashesTo(Some(b), s.proposalBlock.value.hash))
  }

  /**
   A block that is expected is taken and acted on at once: before the prevote by
   prevoting, in the commit step by ending the height unless the write fails. Any other
   block changes nothing.
   */
  lemma BlockTaken(s: Node, c: Config, w: World, b: Chain.Block)
    requires Base(s, w.env) && s.status.Running? && Current(s) && !s.dropped
    ensures var s' := Handle(s, c, w, BlockMsg(b));
      && (!Expects(s, b) ==> s' == s)
      && (Expects(s, b) && s'.status.Running? ==>
            if s.step == COMMIT then
              if w.commitOk then s'.height == s.height + 1 && s'.committed == s.committed[s.height := b.hash]
              else s'.height == s.height && s'.dropped
            else
              s'.proposalBlock == Some(b) && s'.step == if s.step <= PROPOSE then PREVOTED else s.step)
  {
    hide History, LockValid, LastOk, HL.RoundsValid, HL.Tracked, L.Shaped, SentOk, TimeoutsOk, LockOk;
    hide HL.Maj, HL.HasAny, EnterPrevote, TryFinalizeCommit, Answered, LockCurrent;
    var s1 := s.(proposalBlock := Some(b));
    if Expects(s, b) {
      NodeInvariant.ProposalFieldsOk(s, s1, w.env);
      if s.step <= PROPOSE {
        PrevoteStep(s1, w, s.height, s.round);
      } else if s.step == COMMIT {
        EndsHeight(s1, c, w);
      }
    }
  }

  /** With the decided block at hand and the write done, the block is committed. */
  lemma EndsHeight(s: Node, c: Config, w: World)
    requires Base(s, w.env) && s.status.Running? && s.step == COMMIT && ProposalCurrent(s)
    requires DecidedIn(s.votes, s.commitRound)
    requires Chain.HashesTo(s.proposalBlock, HL.Maj(s.votes, s.commitRound, PRECOMMIT).value)
    ensures var s' := TryFinalizeCommit(s, c, w, s.height);
      s'.status.Running? ==>
        if w.commitOk then s'.height == s.height + 1 && s'.committed == s.committed[s.height := s.proposalBlock.value.hash]
        else s'.height == s.height && s'.dropped
  {
    hide History, LockValid, LastOk, HL.RoundsValid, HL.Tracked, L.Shaped, SentOk, TimeoutsOk, LockOk;
    hide HL.Maj, HL.HasAny, FinalizeCommit, NoTallies, SameTallies, Poised;
    FinalizeStep(s, c, w);
    if w.commitOk { Recorded(s, c, w); }
  }

  lemma Recorded(s: Node, c: Config, w: World)
    requires Base(s, w.env) && s.status.Running? && s.step == COMMIT && w.commitOk
    requires Chain.HashesTo(s.proposalBlock, HL.Maj(s.votes, s.commitRound, PRECOMMIT).value)
    ensures var s' := FinalizeCommit(s, c, w, s.height);
      s'.status.Running? ==> s'.committed == s.committed[s.height := s.proposalBlock.value.hash]
  {
    hide History, LockValid, LastOk, HL.RoundsValid, HL.Tracked, L.Shaped, SentOk, TimeoutsOk, LockOk;
    hide HL.Maj, Chain.Validate, NextState, HL.New;
  }

  // ------------------------------------------------------------------- timeouts

  /** Where a timeout of the node's own position takes it. */
  ghost predicate Fired(s: Node, s': Node) {
    && s'.height == s.height
    && match s.step
       case 1 => s'.round == 0 && NEW_ROUND <= s'.step <= PREVOTED
       case 2 => s'.round == s.round && PROPOSE <= s'.step <= PREVOTED
       case 3 => s'.round == s.round && s'.step == PREVOTED
       case 5 => s'.round == s.round && s'.step == PRECOMMITTED
       case 7 => s'.round == s.round + 1 && NEW_ROUND <= s'.step <= PREVOTED
       case _ => false
  }

  /**
   A timeout acts: at a new height round 0 is entered, at a new round the proposal step,
   from the proposal step the node prevotes, from the prevote wait it precommits, from the
   precommit wait it enters the next round. So the node is strictly after the timeout, or a
   block's content stopped it.
   */
  lemma TimeoutActs(s: Node, c: Config, w: World)
    requires Base(s, w.env) && s.status.Running? && Timeout(s.height, s.round, s.step) in s.timeouts
    ensures var s' := Handle(s, c, w, Tock(Timeout(s.height, s.round, s.step)));
      || s'.status == Panicked(BlockContent)
      || (s'.status.Running? && Fired(s, s') && !Upto(s'.height, s'.round, s'.step, s.height, s.round, s.step))
  {
    hide History, LockValid, LastOk, HL.RoundsValid, HL.Tracked, L.Shaped, SentOk, TimeoutsOk, LockOk;
    hide EnterNewRound, EnterPropose, EnterPrevote, EnterPrecommit, HL.Maj, HL.HasAny, Poised, Follows, SameTallies;
    var t := Timeout(s.height, s.round, s.step);
    NodeInvariant.TimeoutIsHere(s, w.env, t);
    NodeInvariant.HandleTimeoutOk(s, c, w, t);
    if s.step == NEW_HEIGHT {
      NewRoundStep(s, c, w, s.height, 0);
    } else if s.step == NEW_ROUND {
      ProposeStep(s, w, s.height, 0);
    } else if s.step == PROPOSE {
      PrevoteStep(s, w, s.height, s.round);
    } else if s.step == PREVOTE_WAIT {
      PrecommitStep(s, w, s.height, s.round);
    } else {
      NewRoundStep(s, c, w, s.height, s.round + 1);
    }
  }


  // ------------------------------------------------------------------ next validators

  /** The validators of the next height have the powers the block asks for, or are the old ones if that is refused. */
  lemma NextValidatorsAre(vals: Validators, updates: seq<VC.ValNode>, a: Address)
    requires Sorted(vals)
    ensures var r := NextValidators(vals, updates);
      var ok := VC.AllParse(updates) && (|updates| > 0 ==> VC.Asked(vals, updates) < Power.Total(vals) / 3);
      && Sorted(r)
      && (!ok ==> r == vals)
      && (ok ==> VC.PowerAt(r, a) == VC.Requested(vals, updates, a))
  {
    hide VC.Update, VC.PowerAt, VC.Asked;
    VC.UpdateIsBounded(vals, updates, 0);
  }


  // ------------------------------------------------------------------- what is heard

  /** A new round waits for transactions only if it is round 0 and so configured, and then with a timeout if there is one. */
  lemma NewRoundBegins(s: Node, c: Config, w: World, round: int)
    requires Base(s, w.env) && s.status.Running? && s.round <= round && (s.round == round ==> s.step == NEW_HEIGHT)
    ensures var s' := EnterNewRound(s, c, w, s.height, round);
      s'.status.Running? ==>
        && s'.round == round && s'.height == s.height
        && (if round == 0 && (!c.createEmptyBlocks || c.emptyBlocksInterval > 0) then
              s'.step == NEW_ROUND && (c.emptyBlocksInterval > 0 ==> Timeout(s.height, 0, NEW_ROUND) in s'.timeouts)
            else PROPOSE <= s'.step <= PREVOTED)
        && (round > 0 ==> s'.proposal.None? && s'.proposalBlock.None? && s'.proposalHash == NIL)
  {
    hide History, LockValid, LastOk, HL.RoundsValid, HL.Tracked, L.Shaped, SentOk, TimeoutsOk, LockOk;
    hide EnterPropose, HL.Maj, HL.HasAny, Poised, Follows, HL.SetRound;
    NodeInvariant.NewRoundStart(s, w.env, round);
    ProposeStep(ResetRound(s, round), w, s.height, round);
  }

  /** Transactions end the wait of round 0. */
  lemma TxsStart(s: Node, c: Config, w: World)
    requires s.status.Running? && s.round == 0 && s.step == NEW_ROUND && HL.Shaped(s.votes)
    ensures var s' := Handle(s, c, w, TxsAvailable(s.height));
      s'.status.Running? ==> s'.round == 0 && s'.height == s.height && PROPOSE <= s'.step <= PREVOTED
  {
    hide EnterPropose, HL.Shaped, Poised, Follows;
    ProposeStep(s, w, s.height, 0);
  }

  /** A peer's first claim for a tracked round is noted. */
  lemma ClaimHeard(s: Node, c: Config, w: World, round: int, kind: int, peer: PeerId, hash: Hash)
    requires Base(s, w.env) && s.status.Running? && IsVoteTypeValid(kind) && round in s.votes.rounds
    requires peer !in HL.Get(s.votes, round, kind).value.peerMaj23s
    ensures var s' := Handle(s, c, w, PeerClaim(s.height, round, kind, peer, hash));
      HL.Get(s'.votes, round, kind).Some? && L.Claimed(HL.Get(s'.votes, round, kind).value, hash)
  {
    hide History, LockValid, LastOk, HL.RoundsValid, HL.Tracked, SentOk, TimeoutsOk, LockOk, Core, L.Claimed;
    hide HL.SetPeerMaj23, L.SetPeerMaj23, HL.Get;
    HL.ClaimTaken(s.votes, round, kind, peer, hash);
    LedgerShaped(s.votes, round, kind);
    var l := HL.Get(s.votes, round, kind).value;
    L.ClaimKeys(l, peer, hash);
    L.OtherClaims(l, L.SetPeerMaj23(l, peer, hash), peer, hash);
  }

  lemma LedgerShaped(votes: HL.HeightLedger, round: int, kind: int)
    requires HL.Shaped(votes) && round in votes.rounds
    ensures HL.Get(votes, round, kind).Some? && L.Shaped(HL.Get(votes, round, kind).value)
  {
    hide L.Shaped;
  }

  /**
   A vote for the height of the node that its ledgers count is on record afterwards,
   unless it ended the height or a block's content stopped the node.
   */
  lemma VoteHeard(s: Node, c: Config, w: World, vote: Vote, peer: PeerId)
    requires Base(s, w.env) && s.status.Running? && Current(s) && vote.height == s.height && IsVoteTypeValid(vote.kind)
    requires !HL.Unwanted(s.votes, vote.round, peer)
    requires var l := HL.LedgerFor(s.votes, vote.round, vote.kind);
      L.Shaped(l) && L.Acceptable(l, w.env.signed, vote) && (l.votes[vote.index].None? || L.Claimed(l, vote.hash))
    ensures var s' := Handle(s, c, w, VoteMsg(vote, peer));
      s'.status.Panicked? || s'.height > s.height || HL.IsStored(s'.votes, vote)
  {
    hide History, LockValid, LastOk, HL.RoundsValid, HL.Tracked, SentOk, TimeoutsOk, LockOk, Core;
    hide HL.AddVote, AddVote, HL.Maj, HL.HasAny, L.Shaped, L.Acceptable, L.Claimed, HL.LedgerFor, HL.IsStored, HL.Unwanted;
    hide SameTallies, NoTallies, Current;
    var a := HL.AddVote(s.votes, w.env.signed, vote, peer);
    HL.VoteTaken(s.votes, w.env.signed, vote, peer);
    AddVoteCurrent(s, c, w, vote, peer);
    StillStored(a.votes, AddVote(s, c, w, vote, peer).votes, vote);
  }

  lemma StillStored(a: HL.HeightLedger, b: HL.HeightLedger, vote: Vote)
    requires HL.IsStored(a, vote)
    ensures Kept(a, b) ==> HL.IsStored(b, vote)
  {
    hide L.Shaped, L.Stored;
  }


  /**
   After a precommit that ends the height the node waits for stragglers, unless it is
   configured not to and all precommits of the round are in: then it goes on at once.
   */
  lemma CommitWait(s: Node, c: Config, w: World, round: int)
    requires Base(s, w.env) && s.status.Running? && round in s.votes.rounds && Poised(s)
    requires AnsweredBut(s, round, PRECOMMIT) && LockCurrent(s) && DecidedIn(s.votes, round)
    ensures var s' := AddedPrecommit(s, c, w, round);
      s'.status.Running? && s'.height > s.height ==>
        if c.skipTimeoutCommit && L.HasAll(HL.Get(s.votes, round, PRECOMMIT).value) then NEW_HEIGHT < s'.step
        else s'.step == NEW_HEIGHT
  {
    hide History, LockValid, LastOk, HL.RoundsValid, HL.Tracked, L.Shaped, SentOk, TimeoutsOk, LockOk;
    hide HL.HasAny, EnterNewRound, EnterPrecommit, EnterCommit, EnterPrecommitWait, L.HasAll, Follows, SameTallies;
    hide Poised, LockCurrent, AnsweredBut, NoTallies, Kept, NodeInvariant.Entered;
    var s2 := NodeInvariant.Entered(s, c, w, round);
    NodeInvariant.EnteredOk(s, c, w, round);
    NodeInvariant.PrecommitsCommitOk(s, c, w, round);
    EnteredCurrent(s, c, w, round);
    SameEntered(s, c, w, round);
    if s2.status.Running? {
      SameDecision(s, s2, round);
      CommitStep(s2, c, w, round);
      var s3 := EnterCommit(s2, c, w, s.height, round);
      NewRoundStep(s3, c, w, s3.height, 0);
      NodeInvariant.EnterNewRoundOk(s3, c, w, s3.height, 0);
      if s3.step == NEW_HEIGHT { NewHeightStarts(s3, w.env); }
    } else {
      Stopped(s2, c, w, s.height, round);
      Stopped(s2, c, w, s2.height, 0);
    }
  }

  lemma SameEntered(s: Node, c: Config, w: World, round: int)
    requires HL.Shaped(s.votes)
    ensures NodeInvariant.Entered(s, c, w, round)
            == EnterPrecommit(EnterNewRound(s, c, w, s.height, round), w, s.height, round)
  {
    hide EnterPrecommit, EnterNewRound, HL.Shaped;
  }

  lemma NewHeightStarts(s: Node, env: Env)
    requires Base(s, env) && s.step == NEW_HEIGHT
    ensures s.round == 0
  {
  }
}
