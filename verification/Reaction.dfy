/**
 A running node has acted on all it knows: on every two-thirds majority it recorded, on
 the block it waits for, and on its locks. Nothing it should do is left for later.
 */
module Reaction {
  import opened Types
  import opened Node
  import opened Invariant
  import NodeInvariant
  import HL = HeightLedger
  import L = Ledger
  import Chain

  // ------------------------------------------------------------------ what is meant

  /** The node is at a round and step of its height, or past it. */
  ghost predicate Reached(s: Node, r: int, p: int) {
    r < s.round || (r == s.round && p <= s.step)
  }

  /** +2/3 precommitted a block in a round. */
  ghost predicate DecidedIn(votes: HL.HeightLedger, r: int) {
    HL.Maj(votes, r, PRECOMMIT).Some? && HL.Maj(votes, r, PRECOMMIT).value != NIL
  }

  /** The prevotes of a round were acted on: with +2/3 the node waits or goes on, with a polka it has precommitted. */
  ghost predicate PrevotesAnswered(s: Node, r: int) {
    && (HL.HasAny(s.votes, r, PREVOTE) ==> Reached(s, r, PREVOTE_WAIT))
    && (HL.Maj(s.votes, r, PREVOTE).Some? ==> Reached(s, r, PRECOMMITTED))
  }

  /** The precommits of a round were acted on: wait, go to the next round on nil, commit on a block. */
  ghost predicate PrecommitsAnswered(s: Node, r: int) {
    && (HL.HasAny(s.votes, r, PRECOMMIT) ==> Reached(s, r, PRECOMMIT_WAIT))
    && (HL.Maj(s.votes, r, PRECOMMIT) == Some(NIL) ==> r < s.round)
    && (DecidedIn(s.votes, r) && !s.dropped ==> DecidedIn(s.votes, s.commitRound))
  }

  /** No polka after the locked round is for anything else than the locked block. */
  ghost predicate LockCurrent(s: Node) {
    s.lockedBlock.Some? ==>
      forall r :: s.lockedRound < r && HL.Maj(s.votes, r, PREVOTE).Some? ==>
        HL.Maj(s.votes, r, PREVOTE).value == s.lockedBlock.value.hash
  }

  /** A step that waits for a timeout has it pending; only round 0 waits for transactions. */
  ghost predicate Timed(s: Node) {
    && (s.step == NEW_HEIGHT || s.step == PROPOSE || s.step == PREVOTE_WAIT || s.step == PRECOMMIT_WAIT ==>
          Timeout(s.height, s.round, s.step) in s.timeouts)
    && (s.step == NEW_ROUND ==> s.round == 0)
  }

  /** In the commit step the decided block is named and not at hand. */
  ghost predicate Awaiting(s: Node) {
    s.step == COMMIT && !s.dropped ==>
      && DecidedIn(s.votes, s.commitRound)
      && var h := HL.Maj(s.votes, s.commitRound, PRECOMMIT).value;
         s.proposalHash == h && !Chain.HashesTo(s.proposalBlock, h) && !Chain.HashesTo(s.lockedBlock, h)
  }

  /** The proposal is of the round; before the prevote its block is not there, before the precommit its block is expected. */
  ghost predicate ProposalCurrent(s: Node) {
    && (s.proposal.Some? ==> s.proposal.value.height == s.height && s.proposal.value.round == s.round)
    && (s.step <= PROPOSE ==> s.proposalBlock.None?)
    && (s.step < PRECOMMITTED ==> s.proposalHash == if s.proposal.Some? then s.proposal.value.hash else NIL)
  }

  /** The parts that every handler keeps by itself. */
  ghost predicate Poised(s: Node) {
    s.status.Running? ==> Timed(s) && Awaiting(s) && ProposalCurrent(s)
  }

  ghost predicate Answered(s: Node) {
    forall r :: PrevotesAnswered(s, r) && PrecommitsAnswered(s, r)
  }

  ghost predicate Current(s: Node) {
    Poised(s) && (s.status.Running? ==> Answered(s) && LockCurrent(s))
  }

  // ------------------------------------------------------------------- tallies

  /** The same majorities and the same two thirds, in every round. */
  ghost predicate SameTallies(a: HL.HeightLedger, b: HL.HeightLedger) {
    forall r ::
      && HL.Maj(b, r, PREVOTE) == HL.Maj(a, r, PREVOTE) && HL.Maj(b, r, PRECOMMIT) == HL.Maj(a, r, PRECOMMIT)
      && HL.HasAny(b, r, PREVOTE) == HL.HasAny(a, r, PREVOTE) && HL.HasAny(b, r, PRECOMMIT) == HL.HasAny(a, r, PRECOMMIT)
  }

  lemma SameTalliesRefl(a: HL.HeightLedger)
    ensures SameTallies(a, a)
  {
  }

  lemma SameTalliesTrans(a: HL.HeightLedger, b: HL.HeightLedger, c: HL.HeightLedger)
    requires SameTallies(a, b) && SameTallies(b, c)
    ensures SameTallies(a, c)
  {
    hide HL.Maj, HL.HasAny;
  }

  /** A ledger without votes has no majority and no two thirds. */
  lemma EmptyLedger(height: int, r: int, kind: int, vals: Validators)
    ensures var l := L.New(height, r, kind, vals); L.Shaped(l) && l.maj23.None? && !L.HasTwoThirdsAny(l)
  {
  }

  lemma SetRoundTallies(h: HL.HeightLedger, round: int)
    requires HL.Shaped(h)
    ensures SameTallies(h, HL.SetRound(h, round)) && Kept(h, HL.SetRound(h, round))
  {
    hide HL.Shaped, L.New, L.HasTwoThirdsAny;
    var h' := HL.SetRound(h, round);
    forall r
      ensures HL.Maj(h', r, PREVOTE) == HL.Maj(h, r, PREVOTE) && HL.Maj(h', r, PRECOMMIT) == HL.Maj(h, r, PRECOMMIT)
      ensures HL.HasAny(h', r, PREVOTE) == HL.HasAny(h, r, PREVOTE)
      ensures HL.HasAny(h', r, PRECOMMIT) == HL.HasAny(h, r, PRECOMMIT)
    {
      EmptyLedger(h.height, r, PREVOTE, h.vals);
      EmptyLedger(h.height, r, PRECOMMIT, h.vals);
    }
  }

  /** No votes at all. */
  ghost predicate NoTallies(h: HL.HeightLedger) {
    forall r ::
      && HL.Maj(h, r, PREVOTE).None? && HL.Maj(h, r, PRECOMMIT).None?
      && !HL.HasAny(h, r, PREVOTE) && !HL.HasAny(h, r, PRECOMMIT)
  }

  lemma NewTallies(height: int, vals: Validators)
    ensures NoTallies(HL.New(height, vals))
  {
    hide L.New, L.HasTwoThirdsAny;
    EmptyLedger(height, 0, PREVOTE, vals);
    EmptyLedger(height, 0, PRECOMMIT, vals);
  }

  // ------------------------------------------------------------------ how handlers go on

  /** Every ledger is still there and as it was. */
  ghost predicate Kept(a: HL.HeightLedger, b: HL.HeightLedger) {
    forall r :: r in a.rounds ==> r in b.rounds && b.rounds[r] == a.rounds[r]
  }

  /** The node went on within its height, with the same votes, or began a new height. */
  ghost predicate Follows(s: Node, s': Node) {
    s'.status.Running? ==>
      || (s'.height > s.height && NoTallies(s'.votes))
      || (&& s'.height == s.height && SameTallies(s.votes, s'.votes) && Kept(s.votes, s'.votes)
          && Reached(s', s.round, s.step)
          && (s.dropped ==> s'.dropped)
          && (DecidedIn(s.votes, s.commitRound) && !s'.dropped ==> DecidedIn(s'.votes, s'.commitRound)))
  }

  lemma FollowsRefl(s: Node)
    ensures Follows(s, s)
  {
    hide HL.Maj, HL.HasAny;
  }

  lemma FollowsTrans(a: Node, b: Node, c: Node)
    requires Follows(a, b) && Follows(b, c) && (c.status.Running? ==> b.status.Running?)
    ensures Follows(a, c)
  {
    hide HL.Maj, HL.HasAny;
    if c.status.Running? && !NoTallies(b.votes) && !NoTallies(c.votes) { SameTalliesTrans(a.votes, b.votes, c.votes); }
  }

  /** What was answered stays answered. */
  lemma StaysAnswered(s: Node, s': Node, r: int)
    requires Follows(s, s') && s'.status.Running?
    ensures PrevotesAnswered(s, r) ==> PrevotesAnswered(s', r)
    ensures PrecommitsAnswered(s, r) ==> PrecommitsAnswered(s', r)
  {
    hide HL.Maj, HL.HasAny;
  }


  // ---------------------------------------------------------------- round steps

  /** `enterPrevote` at the round of the node. */
  lemma PrevoteStep(s: Node, w: World, height: int, round: int)
    requires round <= s.round
    ensures var s' := EnterPrevote(s, w, height, round);
      && (s' == s || s'.status.Panicked? || (s.step < PREVOTED && s' == s.(sent := s'.sent, step := PREVOTED)))
      && (s'.status.Running? && s.height == height && s.round == round ==> PREVOTED <= s'.step)
      && Follows(s, s') && (Poised(s) ==> Poised(s'))
  {
    hide HL.Maj, HL.HasAny, Chain.HashesTo, DoPrevote;
    PrevoteFrame(s, w);
  }

  lemma PrevoteFrame(s: Node, w: World)
    ensures var s1 := DoPrevote(s, w); s1 == s.(sent := s1.sent, status := s1.status)
  {
    hide Chain.Validate;
  }

  /** `enterPropose` at the round of the node. */
  lemma ProposeStep(s: Node, w: World, height: int, round: int)
    requires round <= s.round
    ensures var s' := EnterPropose(s, w, height, round);
      && (|| s' == s || s'.status.Panicked?
          || (s.step < PROPOSE <= s'.step <= PREVOTED
              && s' == s.(timeouts := s.timeouts + {Timeout(s.height, s.round, PROPOSE)}, sent := s'.sent, step := s'.step)))
      && (s'.status.Running? && s.height == height && s.round == round ==> PROPOSE <= s'.step)
      && Follows(s, s') && (Poised(s) ==> Poised(s'))
  {
    hide HL.Maj, HL.HasAny, Chain.HashesTo, EnterPrevote;
    if s.height == height && s.round == round && s.step < PROPOSE {
      var s1 := Schedule(s, round, PROPOSE).(round := round, step := PROPOSE);
      PrevoteStep(s1, w, height, round);
    }
  }

  /** A round that was entered: up to the prevote at most, the lock and what was decided as before. */
  ghost predicate Began(s: Node, s': Node, round: int) {
    && s'.round == round && NEW_ROUND <= s'.step <= PREVOTED && s'.height == s.height && Reached(s', s.round, s.step)
    && s'.lockedBlock == s.lockedBlock && s'.lockedRound == s.lockedRound
    && s'.commitRound == s.commitRound && s'.dropped == s.dropped
  }

  /** `enterNewRound`, to any round. */
  lemma NewRoundStep(s: Node, c: Config, w: World, height: int, round: int)
    requires Base(s, w.env)
    ensures var s' := EnterNewRound(s, c, w, height, round);
      && (s' == s || s'.status.Panicked? || Began(s, s', round))
      && (s.status.Running? && s.height == height && s.round <= round && (s.round == round ==> s.step == NEW_HEIGHT) ==>
            s'.status.Panicked? || Began(s, s', round))
      && Follows(s, s') && (Poised(s) ==> Poised(s')) && SameTallies(s.votes, s'.votes) && Kept(s.votes, s'.votes)
  {
    hide History, LockValid, LastOk, HL.RoundsValid, HL.Tracked, L.Shaped, SentOk, TimeoutsOk, LockOk;
    hide HL.Maj, HL.HasAny, Chain.HashesTo, EnterPropose, HL.SetRound, SameTallies;
    SetRoundTallies(s.votes, round + 1);
    FollowsRefl(s);
    SameTalliesRefl(s.votes);
    if s.status.Running? && s.height == height && s.round <= round && (s.round == round ==> s.step == NEW_HEIGHT) {
      NodeInvariant.NewRoundStart(s, w.env, round);
      var s2 := ResetRound(s, round);
      ProposeStep(s2, w, height, round);
    }
  }

  lemma PrevoteWaitStep(s: Node, height: int, round: int)
    requires round <= s.round && HL.HasAny(s.votes, round, PREVOTE)
    ensures var s' := EnterPrevoteWait(s, height, round);
      && s' == s.(timeouts := s'.timeouts, step := s'.step)
      && (s'.status.Running? && s.height == height && s.round == round ==> PREVOTE_WAIT <= s'.step)
      && Follows(s, s') && (Poised(s) ==> Poised(s'))
  {
    hide HL.Maj, HL.HasAny, Chain.HashesTo;
  }

  lemma PrecommitWaitStep(s: Node, height: int, round: int)
    requires round <= s.round && HL.HasAny(s.votes, round, PRECOMMIT)
    ensures var s' := EnterPrecommitWait(s, height, round);
      && s' == s.(timeouts := s'.timeouts, step := s'.step)
      && (s'.status.Running? && s.height == height && s.round == round ==> PRECOMMIT_WAIT <= s'.step)
      && Follows(s, s') && (Poised(s) ==> Poised(s'))
  {
    hide HL.Maj, HL.HasAny, Chain.HashesTo;
  }

  /** Every polka on record is for a round the node has reached. */
  ghost predicate PolkasBehind(s: Node) {
    forall r :: HL.Maj(s.votes, r, PREVOTE).Some? ==> r <= s.round
  }

  /** `enterPrecommit` at the round of the node: a polka of the round settles the lock. */
  lemma PrecommitStep(s: Node, w: World, height: int, round: int)
    requires round <= s.round
    ensures var s' := EnterPrecommit(s, w, height, round);
      && (s' == s || s'.status.Panicked? || (s.step < PRECOMMITTED == s'.step && s'.round == s.round))
      && (s'.status.Running? && s.height == height && s.round == round ==> PRECOMMITTED <= s'.step)
      && s'.height == s.height && s'.votes == s.votes && Follows(s, s') && (Poised(s) ==> Poised(s'))
      && (s'.status.Running? && LockCurrent(s) && PolkasBehind(s) ==> LockCurrent(s'))
      && (s'.status.Running? && s' != s && HL.Maj(s.votes, round, PREVOTE).Some? && PolkasBehind(s) ==> LockCurrent(s'))
  {
    hide HL.Maj, HL.HasAny, Chain.HashesTo, DoPrecommit;
    if s.status.Running? && s.height == height && s.round == round && s.step < PRECOMMITTED {
      NodeInvariant.DoPrecommitFrame(s, w, round);
      LockSettled(s, w, round);
    }
  }

  /** After a polka the lock is of its round, or there is none; without one it is as before. */
  lemma LockSettled(s: Node, w: World, round: int)
    requires s.status.Running?
    ensures var s1 := DoPrecommit(s, w, round);
      s1.status.Running? ==>
        if HL.Maj(s.votes, round, PREVOTE).Some? then s1.lockedBlock.None? || s1.lockedRound == round
        else s1.lockedBlock == s.lockedBlock && s1.lockedRound == s.lockedRound
  {
    hide HL.Maj, HL.PolRound, Chain.HashesTo, Chain.Validate, SignVote;
  }


  // -------------------------------------------------------------------- commit

  /** A height that has just begun. */
  ghost predicate NewHeight(s: Node, s': Node) {
    && s'.height == s.height + 1 && s'.step == NEW_HEIGHT && NoTallies(s'.votes) && s'.lockedBlock.None?
    && Timeout(s'.height, s'.round, NEW_HEIGHT) in s'.timeouts
    && s'.proposal.None? && s'.proposalBlock.None? && s'.proposalHash == NIL
  }

  /** A local write failed: no lock, and the node is past the commit round. */
  ghost predicate WriteFailed(s: Node, s': Node) {
    && s'.height == s.height && s'.dropped && s'.lockedBlock.None?
    && SameTallies(s.votes, s'.votes) && Kept(s.votes, s'.votes)
    && s.commitRound < s'.round && Reached(s', s.round, s.step)
  }

  /** `finalizeCommit` with the decided block at hand: the height ends, or the write failed. */
  lemma FinalizeStep(s: Node, c: Config, w: World)
    requires Base(s, w.env) && s.status.Running? && s.step == COMMIT && ProposalCurrent(s)
    requires DecidedIn(s.votes, s.commitRound)
    requires Chain.HashesTo(s.proposalBlock, HL.Maj(s.votes, s.commitRound, PRECOMMIT).value)
    ensures var s' := FinalizeCommit(s, c, w, s.height);
      s'.status.Running? ==>
        && (if w.commitOk then NewHeight(s, s') else WriteFailed(s, s'))
        && Poised(s')
  {
    hide History, LockValid, LastOk, HL.RoundsValid, HL.Tracked, L.Shaped, SentOk, TimeoutsOk, LockOk, LockKept;
    hide EnterNewRound, Chain.Validate, HL.Maj, HL.HasAny, NextState, HL.Grows, HL.New, NoTallies, SameTallies;
    if Chain.Validate(s.state, w.env.signed, s.proposalBlock.value).Accept? {
      var h := HL.Maj(s.votes, s.commitRound, PRECOMMIT).value;
      if w.commitOk {
        var updates := w.env.execute(s.height, h);
        NodeInvariant.NextStateHeight(s.state, w.env, s.proposalBlock.value, updates);
        var st := NextState(s.state, s.proposalBlock.value, updates);
        NewTallies(st.lastBlockHeight + 1, st.validators);
      } else {
        var s1 := Unlock(s).(dropped := true);
        NodeInvariant.DropOk(s, w.env);
        NewRoundStep(s1, c, w, s.height, s.commitRound + 1);
        SameTalliesRefl(s.votes);
      }
    }
  }

  /** `tryFinalizeCommit` in the commit step, with the decided block expected. */
  lemma TryFinalizeStep(s: Node, c: Config, w: World)
    requires Base(s, w.env) && s.status.Running? && s.step == COMMIT && ProposalCurrent(s)
    requires DecidedIn(s.votes, s.commitRound)
    requires var h := HL.Maj(s.votes, s.commitRound, PRECOMMIT).value;
      Chain.HashesTo(s.proposalBlock, h) || (s.proposalHash == h && !Chain.HashesTo(s.lockedBlock, h))
    ensures var s' := TryFinalizeCommit(s, c, w, s.height);
      && (s'.status.Running? ==> s' == s || NewHeight(s, s') || WriteFailed(s, s'))
      && (s' == s ==> s.dropped || !Chain.HashesTo(s.proposalBlock, HL.Maj(s.votes, s.commitRound, PRECOMMIT).value))
      && Poised(s')
  {
    hide History, LockValid, LastOk, HL.RoundsValid, HL.Tracked, L.Shaped, SentOk, TimeoutsOk, LockOk, LockKept;
    hide HL.Grows, FinalizeCommit, HL.Maj, HL.HasAny, NoTallies, SameTallies;
    if Chain.HashesTo(s.proposalBlock, HL.Maj(s.votes, s.commitRound, PRECOMMIT).value) { FinalizeStep(s, c, w); }
  }

  /** `enterCommit` on a decided round that the node has reached. */
  lemma CommitStep(s: Node, c: Config, w: World, round: int)
    requires Base(s, w.env) && s.status.Running? && Poised(s) && DecidedIn(s.votes, round) && round <= s.round
    ensures var s' := EnterCommit(s, c, w, s.height, round);
      && Follows(s, s') && Poised(s')
      && (s'.status.Running? ==>
            || (s'.height > s.height && NoTallies(s'.votes))
            || (Reached(s', round, PRECOMMIT_WAIT) && (s'.dropped || DecidedIn(s'.votes, s'.commitRound))))
      && (s'.status.Running? && LockCurrent(s) ==> LockCurrent(s'))
      && (s'.status.Running? && s'.height > s.height ==> s'.step == NEW_HEIGHT)
  {
    hide History, LockValid, LastOk, HL.RoundsValid, HL.Tracked, L.Shaped, SentOk, TimeoutsOk, LockOk, LockKept;
    hide HL.Grows, TryFinalizeCommit, HL.Maj, HL.HasAny, NoTallies, SameTallies, Await;
    FollowsRefl(s);
    if s.step < COMMIT {
      var h := HL.Maj(s.votes, round, PRECOMMIT).value;
      var s1 := Await(s, h).(step := COMMIT, commitRound := round);
      NodeInvariant.CommitStepOk(s, w.env, round, h);
      AwaitMeaning(s, h);
      TryFinalizeStep(s1, c, w);
    }
  }

  /** The decided block is expected, and if it is the locked one it is at hand. */
  lemma AwaitMeaning(s: Node, h: Hash)
    requires h != NIL
    ensures var s1 := Await(s, h);
      && s1 == s.(proposalBlock := s1.proposalBlock, proposalHash := s1.proposalHash)
      && (Chain.HashesTo(s1.proposalBlock, h) || (s1.proposalHash == h && !Chain.HashesTo(s.lockedBlock, h)))
  {
  }


  // ------------------------------------------------------------------- messages

  /** All votes but those of one round and type were acted on. */
  ghost predicate AnsweredBut(s: Node, round: int, kind: int) {
    && (forall r :: (r == round && kind == PREVOTE) || PrevotesAnswered(s, r))
    && (forall r :: (r == round && kind == PRECOMMIT) || PrecommitsAnswered(s, r))
  }

  /** Going on answers the last votes too. */
  lemma NowAnswered(s: Node, s': Node, round: int, kind: int)
    requires AnsweredBut(s, round, kind) && Follows(s, s') && s'.status.Running?
    requires kind == PREVOTE ==> PrevotesAnswered(s', round)
    requires kind == PRECOMMIT ==> PrecommitsAnswered(s', round)
    ensures Answered(s')
  {
    hide PrevotesAnswered, PrecommitsAnswered, Follows;
    forall r ensures PrevotesAnswered(s', r) && PrecommitsAnswered(s', r) { StaysAnswered(s, s', r); }
  }

  lemma SameLock(s: Node, s': Node)
    requires LockCurrent(s) && s'.lockedBlock == s.lockedBlock && s'.lockedRound == s.lockedRound
    requires SameTallies(s.votes, s'.votes)
    ensures LockCurrent(s')
  {
    hide HL.Maj, HL.HasAny;
  }

  /** A polka is two thirds of anything. */
  lemma PolkaHasAny(votes: HL.HeightLedger, signed: Signatures, r: int)
    requires HL.Valid(votes, signed) && HL.Maj(votes, r, PREVOTE).Some?
    ensures HL.HasAny(votes, r, PREVOTE)
  {
    hide HL.Valid, L.Valid, L.HasTwoThirdsAny;
    HL.LedgerOf(votes, signed, r, PREVOTE);
    L.MajorityHasTwoThirdsAny(HL.Get(votes, r, PREVOTE).value, signed);
  }

  /** A counted prevote that leads to the precommit of its round. */
  lemma PolkaCurrent(s: Node, w: World, round: int)
    requires Poised(s) && s.status.Running? && AnsweredBut(s, round, PREVOTE) && s.round == round
    requires HL.Maj(s.votes, round, PREVOTE).Some? && (PRECOMMITTED <= s.step ==> LockCurrent(s))
    ensures Current(EnterPrecommit(s, w, s.height, round)) && Follows(s, EnterPrecommit(s, w, s.height, round))
  {
    hide HL.Maj, HL.HasAny, Poised, EnterPrecommit, Follows;
    var s' := EnterPrecommit(s, w, s.height, round);
    PrecommitStep(s, w, s.height, round);
    PolkasReached(s, round);
    if s'.status.Running? { NowAnswered(s, s', round, PREVOTE); }
  }

  lemma PolkasReached(s: Node, round: int)
    requires AnsweredBut(s, round, PREVOTE) && round <= s.round
    ensures PolkasBehind(s)
  {
    hide HL.Maj, HL.HasAny;
    forall r | HL.Maj(s.votes, r, PREVOTE).Some? ensures r <= s.round {
      assert r == round || PrevotesAnswered(s, r);
    }
  }


  /** What follows a counted prevote once the lock has been looked at. */
  lemma AfterPrevoteCurrent(s: Node, c: Config, w: World, round: int)
    requires Base(s, w.env) && s.status.Running? && Poised(s) && AnsweredBut(s, round, PREVOTE)
    requires round <= s.round || HL.Maj(s.votes, round, PREVOTE).None? ==> LockCurrent(s)
    ensures Current(AfterPrevote(s, c, w, round)) && Follows(s, AfterPrevote(s, c, w, round))
  {
    hide History, LockValid, LastOk, HL.RoundsValid, HL.Tracked, L.Shaped, SentOk, TimeoutsOk, LockOk;
    hide HL.Maj, HL.HasAny, Poised, EnterPrecommit, EnterNewRound, EnterPrevote, EnterPrevoteWait, ProposalComplete, Follows;
    hide LockCurrent, Current, SameTallies;
    if s.round <= round && HL.HasAny(s.votes, round, PREVOTE) {
      var s2 := EnterNewRound(s, c, w, s.height, round);
      NewRoundStep(s, c, w, s.height, round);
      NewRoundKeeps(s, s2, round, PREVOTE);
      if s2.status.Panicked? {
        Stopped(s2, c, w, s.height, round);
      } else if HL.Maj(s.votes, round, PREVOTE).Some? {
        PolkaCurrent(s2, w, round);
        FollowsTrans(s, s2, AfterPrevote(s, c, w, round));
      } else {
        WaitCurrent(s2, w, round);
        FollowsTrans(s, s2, AfterPrevote(s, c, w, round));
      }
    } else {
      if HL.Maj(s.votes, round, PREVOTE).Some? { PolkaHasAny(s.votes, w.env.signed, round); }
      PrevoteStep(s, w, s.height, s.round);
      FollowsRefl(s);
      PassedCurrent(s, s, w.env, round);
      PassedCurrent(s, EnterPrevote(s, w, s.height, s.round), w.env, round);
    }
  }


  /** A stopped node does nothing, and nothing is asked of it. */
  lemma Stopped(s: Node, c: Config, w: World, height: int, round: int)
    requires HL.Shaped(s.votes) && s.status.Panicked?
    ensures Current(s) && EnterPrevote(s, w, height, round) == s && EnterPrevoteWait(s, height, round) == s
    ensures EnterPrecommit(s, w, height, round) == s && EnterPrecommitWait(s, height, round) == s
    ensures EnterCommit(s, c, w, height, round) == s && EnterNewRound(s, c, w, height, round) == s
  {
    hide HL.Shaped;
  }

  /** Entering a round leaves what was answered and the lock as they were. */
  lemma NewRoundKeeps(s: Node, s': Node, round: int, kind: int)
    requires s.status.Running? && s.round <= round && AnsweredBut(s, round, kind)
    requires s' == s || s'.status.Panicked? || Began(s, s', round)
    requires s.round < round ==> s'.status.Panicked? || Began(s, s', round)
    requires Follows(s, s') && SameTallies(s.votes, s'.votes)
    ensures s'.status.Running? ==>
      && s'.round == round && s'.height == s.height && AnsweredBut(s', round, kind) && (PRECOMMITTED <= s'.step ==> s' == s)
      && HL.Maj(s'.votes, round, PREVOTE) == HL.Maj(s.votes, round, PREVOTE)
      && HL.Maj(s'.votes, round, PRECOMMIT) == HL.Maj(s.votes, round, PRECOMMIT)
      && HL.HasAny(s'.votes, round, PREVOTE) == HL.HasAny(s.votes, round, PREVOTE)
      && HL.HasAny(s'.votes, round, PRECOMMIT) == HL.HasAny(s.votes, round, PRECOMMIT)
      && (LockCurrent(s) ==> LockCurrent(s'))
  {
    hide HL.Maj, HL.HasAny, PrevotesAnswered, PrecommitsAnswered, Follows, LockCurrent;
    if s'.status.Running? {
      forall r
        ensures (r == round && kind == PREVOTE) || PrevotesAnswered(s', r)
        ensures (r == round && kind == PRECOMMIT) || PrecommitsAnswered(s', r)
      {
        StaysAnswered(s, s', r);
      }
      if LockCurrent(s) { SameLock(s, s'); }
    }
  }

  /** Two thirds of the prevotes of the node's round without a polka. */
  lemma WaitCurrent(s: Node, w: World, round: int)
    requires Poised(s) && s.status.Running? && s.round == round && AnsweredBut(s, round, PREVOTE) && LockCurrent(s)
    requires HL.HasAny(s.votes, round, PREVOTE) && HL.Maj(s.votes, round, PREVOTE).None?
    ensures var s' := EnterPrevoteWait(EnterPrevote(s, w, s.height, round), s.height, round); Current(s') && Follows(s, s')
  {
    hide HL.Maj, HL.HasAny, Poised, EnterPrevote, EnterPrevoteWait, Follows, LockCurrent, SameTallies;
    var s1 := EnterPrevote(s, w, s.height, round);
    PrevoteStep(s, w, s.height, round);
    if s1.status.Running? {
      var s2 := EnterPrevoteWait(s1, s.height, round);
      PrevoteWaitStep(s1, s.height, round);
      FollowsTrans(s, s1, s2);
      NowAnswered(s, s2, round, PREVOTE);
      SameTalliesRefl(s.votes);
      SameLock(s, s2);
    } else {
      StoppedWait(s1, s.height, round);
    }
  }

  lemma StoppedWait(s: Node, height: int, round: int)
    requires s.status.Panicked?
    ensures EnterPrevoteWait(s, height, round) == s && Current(s)
  {
  }

  /** A counted prevote that asks for nothing new. */
  lemma PassedCurrent(s: Node, s': Node, env: Env, round: int)
    requires AnsweredBut(s, round, PREVOTE) && Follows(s, s') && Poised(s') && LockCurrent(s)
    requires s'.status.Running? ==>
      s' == s.(timeouts := s'.timeouts, sent := s'.sent, step := s'.step)
    requires round < s.round || (!HL.HasAny(s.votes, round, PREVOTE) && HL.Maj(s.votes, round, PREVOTE).None?)
    ensures Current(s')
  {
    hide HL.Maj, HL.HasAny, Poised, Follows, LockCurrent, SameTallies;
    SameTalliesRefl(s.votes);
    if s'.status.Running? {
      SameLock(s, s');
      NowAnswered(s, s', round, PREVOTE);
    }
  }

  /** A counted prevote. */
  lemma AddedPrevoteCurrent(s: Node, c: Config, w: World, round: int)
    requires Base(s, w.env) && s.status.Running? && round in s.votes.rounds && Poised(s) && AnsweredBut(s, round, PREVOTE)
    requires LockCurrent(s) || HL.Maj(s.votes, round, PREVOTE).Some?
    requires s.lockedBlock.Some? ==> forall r :: r != round && s.lockedRound < r && HL.Maj(s.votes, r, PREVOTE).Some? ==>
               HL.Maj(s.votes, r, PREVOTE).value == s.lockedBlock.value.hash
    ensures Current(AddedPrevote(s, c, w, round)) && Follows(s, AddedPrevote(s, c, w, round))
  {
    hide History, LockValid, LastOk, HL.RoundsValid, HL.Tracked, L.Shaped, SentOk, TimeoutsOk, LockOk;
    hide HL.Maj, HL.HasAny, EnterPrecommit, EnterNewRound, AfterPrevote, UnlockOnPolka, Current, Poised, AnsweredBut;
    NodeInvariant.UnlockCases(s, round);
    UnlockedCurrent(s, round);
    if NodeInvariant.Unlocks(s, round) && UnlockBound(s) < round {
      NodeInvariant.LockedRound(s, w.env);
      NodeInvariant.NewRoundIsPast(Unlock(s), c, w, s.height, round);
      PolkaHasAny(s.votes, w.env.signed, round);
      NodeInvariant.PolkaThenPrecommit(s, c, w, round);
      PolkaCurrent(Unlock(s), w, round);
    } else {
      if NodeInvariant.Unlocks(s, round) { NodeInvariant.UnlockOk(s, w.env, round); }
      AfterPrevoteCurrent(UnlockOnPolka(s, round), c, w, round);
    }
  }

  /** Unlocking on a polka, or not, leaves a lock that no polka of a reached round speaks against. */
  lemma UnlockedCurrent(s: Node, round: int)
    requires Poised(s) && AnsweredBut(s, round, PREVOTE)
    requires s.lockedBlock.Some? ==> forall r :: r != round && s.lockedRound < r && HL.Maj(s.votes, r, PREVOTE).Some? ==>
               HL.Maj(s.votes, r, PREVOTE).value == s.lockedBlock.value.hash
    ensures var s1 := UnlockOnPolka(s, round);
      && Poised(s1) && AnsweredBut(s1, round, PREVOTE) && s1.votes == s.votes
      && (round <= s.round || HL.Maj(s.votes, round, PREVOTE).None? ==> LockCurrent(s1))
  {
    hide HL.Maj, HL.HasAny;
    var s1 := UnlockOnPolka(s, round);
    forall r ensures (r == round || PrevotesAnswered(s1, r)) && PrecommitsAnswered(s1, r) {
      assert (r == round || PrevotesAnswered(s, r)) && PrecommitsAnswered(s, r);
    }
  }


  /** The round of a counted precommit, entered up to its precommit step. */
  lemma EnteredCurrent(s: Node, c: Config, w: World, round: int)
    requires Base(s, w.env) && s.status.Running? && round in s.votes.rounds && Poised(s)
    requires AnsweredBut(s, round, PRECOMMIT) && LockCurrent(s)
    ensures var s2 := NodeInvariant.Entered(s, c, w, round);
      && Follows(s, s2) && Poised(s2)
      && (s2.status.Running? ==>
            LockCurrent(s2) && s2.height == s.height && SameTallies(s.votes, s2.votes) && round <= s2.round
            && (s.round <= round ==> s2.round == round))
  {
    hide History, LockValid, LastOk, HL.RoundsValid, HL.Tracked, L.Shaped, SentOk, TimeoutsOk, LockOk;
    hide HL.Maj, HL.HasAny, EnterPrecommit, EnterNewRound, Poised, Follows, LockCurrent, SameTallies, AnsweredBut;
    var s1 := EnterNewRound(s, c, w, s.height, round);
    NewRoundStep(s, c, w, s.height, round);
    NodeInvariant.EnterNewRoundOk(s, c, w, s.height, round);
    if s1.status.Panicked? {
      Stopped(s1, c, w, s.height, round);
    } else {
      PrecommitStep(s1, w, s.height, round);
      FollowsTrans(s, s1, EnterPrecommit(s1, w, s.height, round));
      AllPolkasReached(s, s1, round);
      SameLock(s, s1);
    }
  }

  lemma AllPolkasReached(s: Node, s1: Node, round: int)
    requires AnsweredBut(s, round, PRECOMMIT) && SameTallies(s.votes, s1.votes) && s.round <= s1.round
    ensures PolkasBehind(s1)
  {
    hide HL.Maj, HL.HasAny;
    forall r | HL.Maj(s1.votes, r, PREVOTE).Some? ensures r <= s1.round {
      assert PrevotesAnswered(s, r);
    }
  }

  /** A counted precommit with a majority for a block. */
  lemma DecidedCurrent(s: Node, c: Config, w: World, round: int)
    requires Base(s, w.env) && s.status.Running? && round in s.votes.rounds && Poised(s)
    requires AnsweredBut(s, round, PRECOMMIT) && LockCurrent(s) && DecidedIn(s.votes, round)
    ensures HL.Shaped(NodeInvariant.Entered(s, c, w, round).votes)
    ensures var s3 := EnterCommit(NodeInvariant.Entered(s, c, w, round), c, w, s.height, round);
      && Current(s3) && Current(EnterNewRound(s3, c, w, s3.height, 0))
      && Follows(s, s3) && Follows(s, EnterNewRound(s3, c, w, s3.height, 0))
  {
    hide History, LockValid, LastOk, HL.RoundsValid, HL.Tracked, L.Shaped, SentOk, TimeoutsOk, LockOk;
    hide HL.Maj, HL.HasAny, EnterCommit, EnterNewRound, Poised, Follows, LockCurrent, SameTallies, AnsweredBut;
    hide NodeInvariant.Entered, NoTallies, Answered;
    var s2 := NodeInvariant.Entered(s, c, w, round);
    NodeInvariant.EnteredOk(s, c, w, round);
    NodeInvariant.PrecommitsCommitOk(s, c, w, round);
    EnteredCurrent(s, c, w, round);
    var s3 := EnterCommit(s2, c, w, s.height, round);
    if s2.status.Panicked? {
      Stopped(s2, c, w, s.height, round);
      Stopped(s2, c, w, s2.height, 0);
    } else {
      SameDecision(s, s2, round);
      CommitStep(s2, c, w, round);
      FollowsTrans(s, s2, s3);
      if s3.status.Running? {
        CommitAnswered(s, s3, round);
        NowAnswered(s, s3, round, PRECOMMIT);
      }
      NextRoundCurrent(s3, c, w, 0);
      FollowsTrans(s, s3, EnterNewRound(s3, c, w, s3.height, 0));
    }
  }

  lemma SameDecision(s: Node, s2: Node, round: int)
    requires DecidedIn(s.votes, round) && SameTallies(s.votes, s2.votes)
    ensures DecidedIn(s2.votes, round)
  {
    hide HL.Maj, HL.HasAny;
  }

  lemma CommitAnswered(s: Node, s3: Node, round: int)
    requires DecidedIn(s.votes, round) && Follows(s, s3) && s3.status.Running?
    requires NoTallies(s3.votes)
      || (Reached(s3, round, PRECOMMIT_WAIT) && (s3.dropped || DecidedIn(s3.votes, s3.commitRound)))
    ensures PrecommitsAnswered(s3, round)
  {
    hide HL.Maj, HL.HasAny;
  }

  /** A new round that no vote asks for. */
  lemma NextRoundCurrent(s: Node, c: Config, w: World, round: int)
    requires Base(s, w.env) && Current(s)
    ensures var s' := EnterNewRound(s, c, w, s.height, round);
      Current(s') && Follows(s, s') && (s'.status.Running? ==> s.status.Running?)
  {
    hide History, LockValid, LastOk, HL.RoundsValid, HL.Tracked, L.Shaped, SentOk, TimeoutsOk, LockOk;
    hide HL.Maj, HL.HasAny, EnterNewRound, Poised, Follows, LockCurrent, SameTallies, PrevotesAnswered, PrecommitsAnswered;
    var s' := EnterNewRound(s, c, w, s.height, round);
    NewRoundStep(s, c, w, s.height, round);
    NodeInvariant.EnterNewRoundOk(s, c, w, s.height, round);
    if s'.status.Running? {
      forall r ensures PrevotesAnswered(s', r) && PrecommitsAnswered(s', r) { StaysAnswered(s, s', r); }
      SameLock(s, s');
    }
  }

  /** A counted precommit. */
  lemma AddedPrecommitCurrent(s: Node, c: Config, w: World, round: int)
    requires Base(s, w.env) && s.status.Running? && round in s.votes.rounds && Poised(s)
    requires AnsweredBut(s, round, PRECOMMIT) && LockCurrent(s)
    ensures Current(AddedPrecommit(s, c, w, round)) && Follows(s, AddedPrecommit(s, c, w, round))
  {
    hide History, LockValid, LastOk, HL.RoundsValid, HL.Tracked, L.Shaped, SentOk, TimeoutsOk, LockOk;
    hide HL.Maj, HL.HasAny, HL.Get, EnterNewRound, EnterPrecommit, EnterCommit, EnterPrecommitWait, L.HasAll;
    hide Poised, LockCurrent, AnsweredBut, Current;
    match HL.Maj(s.votes, round, PRECOMMIT)
    case Some(h) =>
      if h == NIL { NilCurrent(s, c, w, round); } else { DecidedCurrent(s, c, w, round); }
    case None =>
      if s.round <= round && HL.HasAny(s.votes, round, PRECOMMIT) {
        PrecommitsWaitCurrent(s, c, w, round);
      } else {
        QuietCurrent(s, round);
      }
  }

  lemma NilCurrent(s: Node, c: Config, w: World, round: int)
    requires Base(s, w.env) && s.status.Running? && Poised(s) && AnsweredBut(s, round, PRECOMMIT) && LockCurrent(s)
    requires HL.Maj(s.votes, round, PRECOMMIT) == Some(NIL)
    ensures var s' := EnterNewRound(s, c, w, s.height, round + 1); Current(s') && Follows(s, s')
  {
    hide History, LockValid, LastOk, HL.RoundsValid, HL.Tracked, L.Shaped, SentOk, TimeoutsOk, LockOk;
    hide HL.Maj, HL.HasAny, EnterNewRound, Poised, LockCurrent, AnsweredBut, Answered;
    var s' := EnterNewRound(s, c, w, s.height, round + 1);
    NewRoundStep(s, c, w, s.height, round + 1);
    NodeInvariant.EnterNewRoundOk(s, c, w, s.height, round + 1);
    if s'.status.Running? {
      NowAnswered(s, s', round, PRECOMMIT);
      SameLock(s, s');
    }
  }

  lemma PrecommitsWaitCurrent(s: Node, c: Config, w: World, round: int)
    requires Base(s, w.env) && s.status.Running? && round in s.votes.rounds && Poised(s) && s.round <= round
    requires AnsweredBut(s, round, PRECOMMIT) && LockCurrent(s)
    requires HL.HasAny(s.votes, round, PRECOMMIT) && HL.Maj(s.votes, round, PRECOMMIT).None?
    ensures var s' := EnterPrecommitWait(NodeInvariant.Entered(s, c, w, round), s.height, round);
      Current(s') && Follows(s, s')
  {
    hide History, LockValid, LastOk, HL.RoundsValid, HL.Tracked, L.Shaped, SentOk, TimeoutsOk, LockOk;
    hide HL.Maj, HL.HasAny, EnterPrecommitWait, NodeInvariant.Entered, Poised, Follows, LockCurrent, AnsweredBut, Answered;
    var s2 := NodeInvariant.Entered(s, c, w, round);
    NodeInvariant.EnteredOk(s, c, w, round);
    EnteredCurrent(s, c, w, round);
    if s2.status.Panicked? {
      Stopped(s2, c, w, s.height, round);
    } else {
      var s' := EnterPrecommitWait(s2, s.height, round);
      PrecommitWaitStep(s2, s.height, round);
      FollowsTrans(s, s2, s');
      NowAnswered(s, s', round, PRECOMMIT);
      SameTalliesRefl(s2.votes);
      SameLock(s2, s');
    }
  }

  lemma QuietCurrent(s: Node, round: int)
    requires s.status.Running? && Poised(s) && AnsweredBut(s, round, PRECOMMIT) && LockCurrent(s)
    requires HL.Maj(s.votes, round, PRECOMMIT).None? && (round < s.round || !HL.HasAny(s.votes, round, PRECOMMIT))
    ensures Current(s) && Follows(s, s)
  {
    hide HL.Maj, HL.HasAny, Poised, LockCurrent, AnsweredBut;
    FollowsRefl(s);
    NowAnswered(s, s, round, PRECOMMIT);
  }


  /** The same tallies but for one round and type. */
  ghost predicate TalliesBut(a: HL.HeightLedger, b: HL.HeightLedger, round: int, kind: int) {
    && (forall r :: (r == round && kind == PREVOTE) ||
          (HL.Maj(b, r, PREVOTE) == HL.Maj(a, r, PREVOTE) && HL.HasAny(b, r, PREVOTE) == HL.HasAny(a, r, PREVOTE)))
    && (forall r :: (r == round && kind == PRECOMMIT) ||
          (HL.Maj(b, r, PRECOMMIT) == HL.Maj(a, r, PRECOMMIT) && HL.HasAny(b, r, PRECOMMIT) == HL.HasAny(a, r, PRECOMMIT)))
  }

  /** A vote that is not counted leaves the tally of its ledger alone. */
  lemma UncountedLedger(l: L.Ledger, signed: Signatures, vote: Vote)
    requires L.Shaped(l)
    ensures var r := L.AddVote(l, signed, vote);
      !r.added ==> r.ledger.maj23 == l.maj23 && r.ledger.sum == l.sum && r.ledger.vals == l.vals
  {
    hide L.Shaped, L.Tally, L.GetVote;
  }

  /** A round tracked for a peer has no votes yet. */
  lemma CatchupTallies(h: HL.HeightLedger, round: int, peer: PeerId)
    requires round !in h.rounds
    ensures SameTallies(h, HL.AddCatchup(h, round, peer))
  {
    hide L.New, L.HasTwoThirdsAny;
    EmptyLedger(h.height, round, PREVOTE, h.vals);
    EmptyLedger(h.height, round, PRECOMMIT, h.vals);
  }

  lemma PutTallies(h: HL.HeightLedger, round: int, kind: int, l: L.Ledger)
    requires round in h.rounds && IsVoteTypeValid(kind)
    ensures TalliesBut(h, HL.Put(h, round, kind, l), round, kind)
    ensures var l0 := HL.Get(h, round, kind).value;
      l.maj23 == l0.maj23 && l.sum == l0.sum && l.vals == l0.vals ==> SameTallies(h, HL.Put(h, round, kind, l))
  {
  }

  /** A vote changes the tally of its own round and type only, and only if it is counted. */
  lemma VoteTallies(h: HL.HeightLedger, signed: Signatures, vote: Vote, peer: PeerId)
    requires HL.Shaped(h)
    ensures var a := HL.AddVote(h, signed, vote, peer);
      TalliesBut(h, a.votes, vote.round, HL.KindByte(vote.kind)) && (!a.added ==> SameTallies(h, a.votes))
  {
    hide L.AddVote, L.Shaped, L.New, HL.Put, HL.Maj, HL.HasAny, HL.Catchup;
    var kind := HL.KindByte(vote.kind);
    var a := HL.AddVote(h, signed, vote, peer);
    var h1 := if vote.round in h.rounds then h else HL.AddCatchup(h, vote.round, peer);
    if a.votes == h {
      SameTalliesRefl(h);
    } else {
      if vote.round !in h.rounds { CatchupTallies(h, vote.round, peer); } else { SameTalliesRefl(h); }
      EmptyLedger(h.height, vote.round, PREVOTE, h.vals);
      EmptyLedger(h.height, vote.round, PRECOMMIT, h.vals);
      hide HL.AddCatchup;
      UncountedLedger(HL.Get(h1, vote.round, kind).value, signed, vote);
      PutTallies(h1, vote.round, kind, L.AddVote(HL.Get(h1, vote.round, kind).value, signed, vote).ledger);
      if !a.added { SameTalliesTrans(h, h1, a.votes); }
    }
  }

  /** What a counted vote leaves to be answered. */
  lemma RecordedCurrent(s: Node, votes: HL.HeightLedger, round: int, kind: int)
    requires s.status.Running? && Current(s) && TalliesBut(s.votes, votes, round, kind) && HL.Grows(s.votes, votes)
    requires IsVoteTypeValid(kind)
    ensures var s1 := s.(votes := votes);
      && Poised(s1) && AnsweredBut(s1, round, kind)
      && (kind == PRECOMMIT ==> LockCurrent(s1))
      && (LockCurrent(s1) || HL.Maj(votes, round, PREVOTE).Some?)
      && (s.lockedBlock.Some? ==> forall r :: r != round && s.lockedRound < r && HL.Maj(votes, r, PREVOTE).Some? ==>
            HL.Maj(votes, r, PREVOTE).value == s.lockedBlock.value.hash)
  {
    hide HL.Maj, HL.HasAny;
    var s1 := s.(votes := votes);
    forall r
      ensures (r == round && kind == PREVOTE) || PrevotesAnswered(s1, r)
      ensures (r == round && kind == PRECOMMIT) || PrecommitsAnswered(s1, r)
    {
      assert PrevotesAnswered(s, r) && PrecommitsAnswered(s, r);
    }
  }

  lemma SameTalliesCurrent(s: Node, votes: HL.HeightLedger)
    requires Current(s) && SameTallies(s.votes, votes)
    ensures Current(s.(votes := votes))
  {
    hide HL.Maj, HL.HasAny;
    var s1 := s.(votes := votes);
    if s.status.Running? {
      forall r ensures PrevotesAnswered(s1, r) && PrecommitsAnswered(s1, r) {
        assert PrevotesAnswered(s, r) && PrecommitsAnswered(s, r);
      }
    }
  }

  lemma AddVoteCurrent(s: Node, c: Config, w: World, vote: Vote, peer: PeerId)
    requires Base(s, w.env) && s.status.Running? && Current(s)
    ensures Current(AddVote(s, c, w, vote, peer))
    ensures var a := HL.AddVote(s.votes, w.env.signed, vote, peer);
      vote.height == s.height && a.added ==> Follows(s.(votes := a.votes), AddVote(s, c, w, vote, peer))
  {
    hide History, LockValid, LastOk, HL.RoundsValid, HL.Tracked, L.Shaped, SentOk, TimeoutsOk, LockOk;
    hide HL.AddVote, AddedPrevote, AddedPrecommit, Current, HL.Maj, HL.HasAny, Poised, AnsweredBut, LockCurrent, HL.Grows;
    hide TalliesBut, SameTallies;
    if vote.height == s.height {
      var a := HL.AddVote(s.votes, w.env.signed, vote, peer);
      NodeInvariant.VoteRecordedOk(s, w.env, vote, peer);
      HL.AddVoteIsValid(s.votes, w.env.signed, vote, peer);
      VoteTallies(s.votes, w.env.signed, vote, peer);
      if !a.added {
        SameTalliesCurrent(s, a.votes);
      } else {
        RecordedCurrent(s, a.votes, vote.round, vote.kind);
        var s1 := s.(votes := a.votes);
        if vote.kind == PREVOTE {
          AddedPrevoteCurrent(s1, c, w, vote.round);
        } else {
          AddedPrecommitCurrent(s1, c, w, vote.round);
        }
      }
    }
  }

  /** A handler that leaves the votes and the lock alone. */
  lemma PlainCurrent(s: Node, s': Node)
    requires Current(s) && Follows(s, s') && Poised(s') && (s'.status.Running? ==> s.status.Running?)
    requires s'.status.Running? ==>
      s'.votes == s.votes && s'.lockedBlock == s.lockedBlock && s'.lockedRound == s.lockedRound
    ensures Current(s')
  {
    hide HL.Maj, HL.HasAny, Poised, Follows, LockCurrent, PrevotesAnswered, PrecommitsAnswered;
    if s'.status.Running? {
      forall r ensures PrevotesAnswered(s', r) && PrecommitsAnswered(s', r) { StaysAnswered(s, s', r); }
      SameTalliesRefl(s.votes);
      SameLock(s, s');
    }
  }

  lemma HandleTimeoutCurrent(s: Node, c: Config, w: World, t: Timeout)
    requires Base(s, w.env) && s.status.Running? && Current(s) && t in s.timeouts
    ensures Current(HandleTimeout(s, c, w, t))
  {
    hide History, LockValid, LastOk, HL.RoundsValid, HL.Tracked, L.Shaped, SentOk, TimeoutsOk, LockOk;
    hide EnterNewRound, EnterPropose, EnterPrevote, EnterPrecommit, HL.Maj, HL.HasAny, Current, Poised, Follows;
    NodeInvariant.TimeoutIsHere(s, w.env, t);
    if t == Timeout(s.height, s.round, s.step) {
      CurrentIsPoised(s);
      NextRoundCurrent(s, c, w, 0);
      NextRoundCurrent(s, c, w, t.round + 1);
      ProposeStep(s, w, s.height, s.round);
      PlainCurrent(s, EnterPropose(s, w, s.height, s.round));
      PrevoteStep(s, w, s.height, s.round);
      PlainCurrent(s, EnterPrevote(s, w, s.height, s.round));
      PrecommitCurrent(s, w);
    }
  }

  lemma CurrentIsPoised(s: Node)
    requires Current(s)
    ensures Poised(s) && (s.status.Running? ==> LockCurrent(s) && PolkasBehind(s))
  {
    hide HL.Maj, HL.HasAny, Poised, LockCurrent;
    if s.status.Running? {
      forall r | HL.Maj(s.votes, r, PREVOTE).Some? ensures r <= s.round { assert PrevotesAnswered(s, r); }
    }
  }

  lemma PrecommitCurrent(s: Node, w: World)
    requires s.status.Running? && Current(s)
    ensures Current(EnterPrecommit(s, w, s.height, s.round))
  {
    hide HL.Maj, HL.HasAny, Poised, Follows, LockCurrent, PrevotesAnswered, PrecommitsAnswered, EnterPrecommit;
    var s' := EnterPrecommit(s, w, s.height, s.round);
    PrecommitStep(s, w, s.height, s.round);
    CurrentIsPoised(s);
    if s'.status.Running? {
      forall r ensures PrevotesAnswered(s', r) && PrecommitsAnswered(s', r) { StaysAnswered(s, s', r); }
    }
  }

  lemma SetProposalCurrent(s: Node, w: World, p: Proposal)
    requires Current(s)
    ensures Current(SetProposal(s, w, p))
  {
    hide HL.Maj, HL.HasAny, Chain.HashesTo;
    var s' := SetProposal(s, w, p);
    if s.status.Running? {
      forall r ensures PrevotesAnswered(s', r) && PrecommitsAnswered(s', r) {
        assert PrevotesAnswered(s, r) && PrecommitsAnswered(s, r);
      }
    }
  }

  lemma AddProposalBlockCurrent(s: Node, c: Config, w: World, b: Chain.Block)
    requires Base(s, w.env) && s.status.Running? && Current(s)
    ensures Current(AddProposalBlock(s, c, w, b))
  {
    hide History, LockValid, LastOk, HL.RoundsValid, HL.Tracked, L.Shaped, SentOk, TimeoutsOk, LockOk;
    hide EnterPrevote, TryFinalizeCommit, HL.Maj, HL.HasAny, Current;
    var s1 := s.(proposalBlock := Some(b));
    if AddProposalBlock(s, c, w, b) != s {
      NodeInvariant.ProposalFieldsOk(s, s1, w.env);
      if s.step <= PROPOSE {
        BlockPrevoteCurrent(s, w, b);
      } else if s.step == COMMIT {
        BlockCommitCurrent(s, c, w, b);
      } else {
        BlockKeptCurrent(s, b);
      }
    }
  }

  lemma BlockPrevoteCurrent(s: Node, w: World, b: Chain.Block)
    requires s.status.Running? && Current(s) && s.step <= PROPOSE
    ensures Current(EnterPrevote(s.(proposalBlock := Some(b)), w, s.height, s.round))
  {
    hide HL.Maj, HL.HasAny, Follows, LockCurrent, PrevotesAnswered, PrecommitsAnswered, EnterPrevote, SameTallies;
    var s1 := s.(proposalBlock := Some(b));
    var s' := EnterPrevote(s1, w, s.height, s.round);
    PrevoteStep(s1, w, s.height, s.round);
    BlockFollows(s, b);
    FollowsTrans(s, s1, s');
    if s'.status.Running? {
      forall r ensures PrevotesAnswered(s', r) && PrecommitsAnswered(s', r) { StaysAnswered(s, s', r); }
      SameTalliesRefl(s.votes);
      SameLock(s, s');
    }
  }

  lemma BlockFollows(s: Node, b: Chain.Block)
    ensures Follows(s, s.(proposalBlock := Some(b)))
  {
    hide HL.Maj, HL.HasAny;
  }

  lemma BlockKeptCurrent(s: Node, b: Chain.Block)
    requires s.status.Running? && Current(s) && PROPOSE < s.step < COMMIT
    ensures Current(s.(proposalBlock := Some(b)))
  {
    hide HL.Maj, HL.HasAny, Follows, LockCurrent, PrevotesAnswered, PrecommitsAnswered, SameTallies;
    BlockFollows(s, b);
    PlainCurrent(s, s.(proposalBlock := Some(b)));
  }

  /** The block a commit waits for ends the height; another one does not count. */
  lemma BlockCommitCurrent(s: Node, c: Config, w: World, b: Chain.Block)
    requires Base(s.(proposalBlock := Some(b)), w.env) && s.status.Running? && Current(s) && s.step == COMMIT
    requires Chain.HashesTo(Some(b), s.proposalHash)
    ensures Current(TryFinalizeCommit(s.(proposalBlock := Some(b)), c, w, s.height))
  {
    hide History, LockValid, LastOk, HL.RoundsValid, HL.Tracked, L.Shaped, SentOk, TimeoutsOk, LockOk;
    hide FinalizeCommit, HL.Maj, HL.HasAny, LockCurrent, PrevotesAnswered, PrecommitsAnswered, SameTallies, NoTallies;
    var s1 := s.(proposalBlock := Some(b));
    BlockFollows(s, b);
    if Chain.HashesTo(s1.proposalBlock, HL.Maj(s.votes, s.commitRound, PRECOMMIT).value) {
      FinalizeStep(s1, c, w);
      if FinalizeCommit(s1, c, w, s.height).status.Running? {
        FinishedCurrent(s, FinalizeCommit(s1, c, w, s.height));
      }
    } else {
      PlainCurrent(s, s1);
    }
  }

  /** A height that ended, or whose write failed, leaves nothing to be answered. */
  lemma FinishedCurrent(s: Node, s': Node)
    requires s.status.Running? && Current(s) && (NewHeight(s, s') || WriteFailed(s, s')) && Poised(s')
    requires s'.status.Running?
    ensures Current(s')
  {
    hide HL.Maj, HL.HasAny, PrevotesAnswered, PrecommitsAnswered;
    forall r ensures PrevotesAnswered(s', r) && PrecommitsAnswered(s', r) {
      assert PrevotesAnswered(s, r) && PrecommitsAnswered(s, r);
      StaysAnswered(s, s', r);
    }
  }

  lemma ClaimTallies(h: HL.HeightLedger, round: int, kind: int, peer: PeerId, hash: Hash)
    requires HL.Shaped(h)
    ensures SameTallies(h, HL.SetPeerMaj23(h, round, kind, peer, hash))
  {
    hide L.Shaped;
  }

  /** Every message leaves a node that has acted on all it knows. */
  lemma HandleCurrent(s: Node, c: Config, w: World, e: Event)
    requires Base(s, w.env) && Current(s) && (e.Tock? ==> e.timeout in s.timeouts)
    ensures Current(Handle(s, c, w, e))
  {
    hide History, LockValid, LastOk, HL.RoundsValid, HL.Tracked, L.Shaped, SentOk, TimeoutsOk, LockOk;
    hide AddVote, SetProposal, AddProposalBlock, HandleTimeout, EnterPropose, HL.SetPeerMaj23, HL.Maj, HL.HasAny, Current;
    if s.status.Running? {
      match e
      case VoteMsg(vote, peer) => AddVoteCurrent(s, c, w, vote, peer);
      case ProposalMsg(p) => SetProposalCurrent(s, w, p);
      case BlockMsg(b) => AddProposalBlockCurrent(s, c, w, b);
      case Tock(t) => HandleTimeoutCurrent(s, c, w, t);
      case TxsAvailable(height) => TxsCurrent(s, w, height);
      case PeerClaim(height, round, kind, peer, hash) =>
        ClaimTallies(s.votes, round, kind, peer, hash);
        SameTalliesCurrent(s, HL.SetPeerMaj23(s.votes, round, kind, peer, hash));
    }
  }

  lemma TxsCurrent(s: Node, w: World, height: int)
    requires Core(s) && s.status.Running? && Current(s)
    ensures Current(EnterPropose(s, w, height, 0))
  {
    hide EnterPropose, HL.Maj, HL.HasAny, Current, Poised, Follows;
    ProposeStep(s, w, height, 0);
    CurrentIsPoised(s);
    PlainCurrent(s, EnterPropose(s, w, height, 0));
  }

  lemma StartCurrent(self: Address, state: Chain.State)
    requires state.lastBlockHeight == 0
    ensures Current(Start(self, state))
  {
    hide HL.New, HL.Maj, HL.HasAny;
    NewTallies(1, state.validators);
  }


  // --------------------------------------------------------- what one prevote does to a lock

  /** On a later polka for something else, of a round reached, the old lock is gone. */
  lemma PolkaUnlocks(s: Node, c: Config, w: World, round: int)
    requires Base(s, w.env) && s.status.Running? && round in s.votes.rounds && NodeInvariant.Unlocks(s, round)
    ensures var s' := AddedPrevote(s, c, w, round);
      s'.status.Running? ==> s'.lockedBlock.None? || s'.lockedRound == round
  {
    hide History, LockValid, LastOk, HL.RoundsValid, HL.Tracked, L.Shaped, SentOk, TimeoutsOk, LockOk;
    hide HL.Maj, HL.HasAny, EnterPrecommit, EnterNewRound, UnlockOnPolka, EnterPrevote, EnterPrevoteWait, ProposalComplete;
    hide Poised, Follows, SameTallies;
    NodeInvariant.UnlockCases(s, round);
    PolkaHasAny(s.votes, w.env.signed, round);
    var s1 := Unlock(s);
    if UnlockBound(s) < round {
      NodeInvariant.LockedRound(s, w.env);
      NodeInvariant.NewRoundIsPast(s1, c, w, s.height, round);
      PrecommitOf(s1, w, round);
    } else {
      NodeInvariant.UnlockOk(s, w.env, round);
      var s2 := EnterNewRound(s1, c, w, s.height, round);
      NewRoundStep(s1, c, w, s.height, round);
      NodeInvariant.EnterNewRoundOk(s1, c, w, s.height, round);
      PrecommitOf(s2, w, round);
      PrevoteStep(s1, w, s.height, s.round);
    }
  }

  lemma PrecommitOf(s: Node, w: World, round: int)
    requires round <= s.round && s.lockedBlock.None?
    ensures forall height :: var s' := EnterPrecommit(s, w, height, round);
      s'.status.Running? ==> s'.lockedBlock.None? || s'.lockedRound == round
  {
    hide HL.Maj, DoPrecommit;
    if s.status.Running? { LockSettled(s, w, round); }
  }
}
