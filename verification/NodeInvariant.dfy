/**
 What every message keeps true of a node: its sanity checks hold, its position never
 moves back, it votes once per round and step, and its lock is backed by a recorded polka.
 */
module NodeInvariant {
  import opened Types
  import opened Node
  import opened Invariant
  import HL = HeightLedger
  import L = Ledger
  import Chain
  import VC = ValidatorChange

  // ---------------------------------------------------------------- round steps

  /** `enterPrevote` for a round the node has reached. */
  lemma EnterPrevoteOk(s: Node, w: World, height: int, round: int)
    requires Base(s, w.env) && round <= s.round
    ensures var s' := EnterPrevote(s, w, height, round);
      && Base(s', w.env) && Moves(s, s') && s'.height == s.height && s'.round == s.round
      && PrevotedOnce(s, s')
  {
    hide History, LockValid, LastOk, HL.RoundsValid, HL.Tracked, L.Shaped, SentOk, TimeoutsOk, LockOk, LockKept;
    hide HL.Grows, DoPrevote, HL.Maj, SignVote;
    MovesRefl(s);
    if s.status.Running? && s.height == height && s.round == round && s.step < PREVOTED {
      PrevoteSends(s, w);
      HL.GrowsRefl(s.votes);
      SignOnce(s, w, PREVOTE, PrevoteHash(s, w), PREVOTED);
      TimeoutsLater(s.timeouts, s.height, s.round, s.step, s.height, s.round, PREVOTED);
      LockLater(s.lockedBlock, s.lockedRound, s.votes, s.round, s.step, s.votes, s.round, PREVOTED);
      LockSame(s, EnterPrevote(s, w, height, round));
      PrevoteKeepsHistory(s, w, EnterPrevote(s, w, height, round));
      SignedOnce(s, w, PrevoteHash(s, w));
    }
  }

  /** At most one vote was signed: a prevote for this height and round, and for the locked block if there is one. */
  ghost predicate PrevotedOnce(s: Node, s': Node) {
    s'.sent == s.sent || exists v ::
      && s'.sent == s.sent + [v] && v.kind == PREVOTE && v.height == s.height && v.round == s.round
      && (s.lockedBlock.Some? ==> v.hash == s.lockedBlock.value.hash)
  }

  lemma SignedOnce(s: Node, w: World, hash: Hash)
    ensures var r := SignVote(s, w, PREVOTE, hash);
      r.sent == s.sent || exists v ::
        r.sent == s.sent + [v] && v.kind == PREVOTE && v.height == s.height && v.round == s.round && v.hash == hash
  {
  }

  /** The hash `defaultDoPrevote` votes for. */
  ghost function PrevoteHash(s: Node, w: World): Hash {
    if s.lockedBlock.Some? then s.lockedBlock.value.hash
    else if s.proposalBlock.None? || !Chain.Validate(s.state, w.env.signed, s.proposalBlock.value).Accept? then NIL
    else s.proposalBlock.value.hash
  }

  lemma PrevoteSends(s: Node, w: World)
    ensures var s' := DoPrevote(s, w);
      s' == SignVote(s, w, PREVOTE, PrevoteHash(s, w)) || s' == Stop(s, BlockContent)
  {
    hide Chain.Validate;
  }

  lemma PrevoteKeepsHistory(s: Node, w: World, s': Node)
    requires Base(s, w.env) && s.status.Running? && s.step < PREVOTED && Moves(s, s')
    requires s' == SignVote(s, w, PREVOTE, PrevoteHash(s, w)).(step := PREVOTED) || s' == Stop(s, BlockContent)
    ensures History(s', w.env)
  {
    hide History, LockValid, LastOk, HL.RoundsValid, HL.Tracked, L.Shaped, SentOk, TimeoutsOk, LockOk, HL.Grows;
    hide HL.Maj, Core;
    hide Chain.Validate, LockKept;
    if s'.sent == s.sent {
      HistoryLater(s, s', w.env);
    } else {
      PrevoteHistory(s, s', w.env, s'.sent[|s.sent|]);
    }
  }

  /** `enterPropose` for a round the node has reached. */
  lemma EnterProposeOk(s: Node, w: World, height: int, round: int)
    requires Base(s, w.env) && round <= s.round
    ensures var s' := EnterPropose(s, w, height, round);
      Base(s', w.env) && Moves(s, s') && s'.height == s.height && s'.round == s.round
  {
    hide History, LockValid, LastOk, HL.RoundsValid, HL.Tracked, L.Shaped, SentOk, TimeoutsOk, LockOk;
    hide Superseded, HL.Grows, EnterPrevote;
    var s' := EnterPropose(s, w, height, round);
    MovesRefl(s);
    if s' != s {
      var s1 := Schedule(s, round, PROPOSE).(round := round, step := PROPOSE);
      ScheduleOk(s, PROPOSE);
      SentLater(s.sent, s.self, s.height, s.round, s.step, s.height, s.round, PROPOSE);
      HL.GrowsRefl(s.votes);
      LockLater(s.lockedBlock, s.lockedRound, s.votes, s.round, s.step, s.votes, s.round, PROPOSE);
      assert Moves(s, s1);
      HistoryLater(s, s1, w.env);
      assert Base(s1, w.env);
      if ProposalComplete(s1) {
        EnterPrevoteOk(s1, w, height, round);
        MovesTrans(s, s1, s');
      }
    }
  }

  /** `enterNewRound`, to any round: its check in `SetRound` cannot fail. */
  lemma EnterNewRoundOk(s: Node, c: Config, w: World, height: int, round: int)
    requires Base(s, w.env)
    ensures var s' := EnterNewRound(s, c, w, height, round);
      && Base(s', w.env) && Moves(s, s') && s'.height == s.height
      && (s.status.Running? && s.height == height ==> round <= s'.round)
      && s'.round <= (if s.round <= round then round else s.round)
      && (round <= s.round && !(s.round == round && s.step == NEW_HEIGHT) ==> s' == s)
  {
    hide History, LockValid, LastOk, HL.RoundsValid, HL.Tracked, L.Shaped, SentOk, TimeoutsOk, LockOk;
    hide Superseded, HL.Grows, EnterPropose, HL.SetRound;
    MovesRefl(s);
    if s.status.Running? && s.height == height && s.round <= round && (s.round == round ==> s.step == NEW_HEIGHT) {
      NewRoundStart(s, w.env, round);
      var s1 := s.(round := round, step := NEW_ROUND, votes := HL.SetRound(s.votes, round + 1));
      var s2 := if round == 0 then s1 else s1.(proposal := None, proposalBlock := None, proposalHash := NIL);
      assert Moves(s, s2);
      HistoryLater(s, s2, w.env);
      assert Base(s2, w.env);
      var s3 := Schedule(s2, round, NEW_ROUND);
      if round == 0 {
        ScheduleOk(s2, NEW_ROUND);
        MovesRefl(s2);
        assert Moves(s2, s3);
        HistoryLater(s2, s3, w.env);
        MovesTrans(s, s2, s3);
      }
      EnterProposeOk(s2, w, height, round);
      MovesTrans(s, s2, EnterPropose(s2, w, height, round));
    }
  }

  lemma NewRoundStart(s: Node, env: Env, round: int)
    requires Base(s, env) && s.status.Running? && s.round <= round && (s.round == round ==> s.step == NEW_HEIGHT)
    ensures !HL.SetRoundPanics(s.votes, round + 1)
    ensures var s1 := s.(round := round, step := NEW_ROUND, votes := HL.SetRound(s.votes, round + 1));
      && Base(s1, env) && Moves(s, s1)
  {
    hide History, LockValid, LastOk, HL.RoundsValid, HL.Tracked, L.Shaped, SentOk, TimeoutsOk, LockOk;
    hide HL.SetRound, HL.Maj;
    HL.SetRoundIsValid(s.votes, env.signed, round + 1);
    var s1 := s.(round := round, step := NEW_ROUND, votes := HL.SetRound(s.votes, round + 1));
    assert Upto(s.height, s.round, s.step, s.height, round, NEW_ROUND);
    TimeoutsLater(s.timeouts, s.height, s.round, s.step, s.height, round, NEW_ROUND);
    SentLater(s.sent, s.self, s.height, s.round, s.step, s.height, round, NEW_ROUND);
    LockLater(s.lockedBlock, s.lockedRound, s.votes, s.round, s.step, s1.votes, round, NEW_ROUND);
    MajKept(s.votes, s1.votes, s.commitRound);
    LockSame(s, s1);
    HistoryLater(s, s1, env);
  }

  lemma MajKept(a: HL.HeightLedger, b: HL.HeightLedger, round: int)
    requires HL.Grows(a, b)
    ensures HL.Maj(a, round, PRECOMMIT).Some? ==> HL.Maj(b, round, PRECOMMIT) == HL.Maj(a, round, PRECOMMIT)
    ensures HL.Maj(a, round, PREVOTE).Some? ==> HL.Maj(b, round, PREVOTE) == HL.Maj(a, round, PREVOTE)
  {
  }

  /** `enterPrevoteWait`, when two thirds of the prevotes of a round the node has reached are in. */
  lemma EnterPrevoteWaitOk(s: Node, env: Env, height: int, round: int)
    requires Base(s, env) && round <= s.round
    requires HL.HasAny(s.votes, round, PREVOTE)
    ensures var s' := EnterPrevoteWait(s, height, round);
      Base(s', env) && Moves(s, s') && s'.height == s.height && s'.round == s.round
  {
    hide History, LockValid, LastOk, HL.RoundsValid, HL.Tracked, L.Shaped, SentOk, TimeoutsOk, LockOk;
    hide Superseded, HL.Grows, HL.HasAny;
    MovesRefl(s);
    if s.status.Running? && s.height == height && s.round == round && s.step < PREVOTE_WAIT {
      WaitOk(s, env, PREVOTE_WAIT);
    }
  }

  lemma EnterPrecommitWaitOk(s: Node, env: Env, height: int, round: int)
    requires Base(s, env) && round <= s.round
    requires HL.HasAny(s.votes, round, PRECOMMIT)
    ensures var s' := EnterPrecommitWait(s, height, round);
      Base(s', env) && Moves(s, s') && s'.height == s.height && s'.round == s.round
  {
    hide History, LockValid, LastOk, HL.RoundsValid, HL.Tracked, L.Shaped, SentOk, TimeoutsOk, LockOk;
    hide Superseded, HL.Grows, HL.HasAny;
    MovesRefl(s);
    if s.status.Running? && s.height == height && s.round == round && s.step < PRECOMMIT_WAIT {
      WaitOk(s, env, PRECOMMIT_WAIT);
    }
  }

  lemma WaitOk(s: Node, env: Env, p: int)
    requires Base(s, env) && s.step < p && (p == PREVOTE_WAIT || p == PRECOMMIT_WAIT)
    ensures var s' := Schedule(s, s.round, p).(step := p);
      Base(s', env) && Moves(s, s')
  {
    hide History, LockValid, LastOk, HL.RoundsValid, HL.Tracked, L.Shaped, SentOk, TimeoutsOk, LockOk;
    hide Superseded, HL.Grows;
    ScheduleOk(s, p);
    SentLater(s.sent, s.self, s.height, s.round, s.step, s.height, s.round, p);
    HL.GrowsRefl(s.votes);
    LockLater(s.lockedBlock, s.lockedRound, s.votes, s.round, s.step, s.votes, s.round, p);
    var s' := Schedule(s, s.round, p).(step := p);
    LockSame(s, s');
    HistoryLater(s, s', env);
  }

  /** The lock after a polka of the current round: backed by it or given up for it, on a valid block. */
  lemma DecideLock(s: Node, w: World, h: Hash)
    requires LockOk(s.lockedBlock, s.lockedRound, s.votes, s.round, s.step) && LockValid(s.lockedBlock, s.state, w.env.signed)
    requires s.step < PRECOMMITTED && s.round >= 0 && HL.Maj(s.votes, s.round, PREVOTE) == Some(h)
    ensures var s1 := Decide(s, w, s.round, h).0;
      && LockValid(s1.lockedBlock, s.state, w.env.signed)
      && (s1.status.Running? ==>
            && LockOk(s1.lockedBlock, s1.lockedRound, s.votes, s.round, PRECOMMITTED)
            && LockKept(s, s1.(step := PRECOMMITTED)))
  {
    hide Chain.Validate, HL.Maj;
  }

  /** A precommit for a block is for the polka, and the block is locked in this round. */
  lemma DecideHash(s: Node, w: World, round: int, h: Hash)
    requires s.status.Running?
    ensures var (s1, hash) := Decide(s, w, round, h);
      && (hash != NIL ==> hash == h && Holds(s1, hash, round))
      && (s1.status.Running? || s1 == Stop(s, BlockContent))
  {
    hide Chain.Validate;
  }

  /** The lock after `enterPrecommit` at the current round. */
  lemma PrecommitLock(s: Node, w: World)
    requires LockOk(s.lockedBlock, s.lockedRound, s.votes, s.round, s.step) && LockValid(s.lockedBlock, s.state, w.env.signed)
    requires s.step < PRECOMMITTED && s.round >= 0
    ensures var s1 := DoPrecommit(s, w, s.round);
      && LockValid(s1.lockedBlock, s.state, w.env.signed)
      && (s1.status.Running? ==>
            && LockOk(s1.lockedBlock, s1.lockedRound, s.votes, s.round, PRECOMMITTED)
            && LockKept(s, s1.(step := PRECOMMITTED)))
  {
    hide Decide, HL.Maj, HL.PolRound, SignVote, LockValid;
    match HL.Maj(s.votes, s.round, PREVOTE)
    case Some(h) => DecideLock(s, w, h);
    case None => LockSame(s, SignVote(s, w, PRECOMMIT, NIL).(step := PRECOMMITTED));
  }

  lemma PrecommitKeepsHistory(s: Node, w: World, s': Node, hash: Hash)
    requires Base(s, w.env) && s.status.Running? && s.step < PRECOMMITTED && Moves(s, s')
    requires s'.sent == SignVote(s, w, PRECOMMIT, hash).sent && s'.height == s.height && s'.dropped == s.dropped
    requires hash != NIL ==> HL.Maj(s.votes, s.round, PREVOTE) == Some(hash) && Holds(s', hash, s.round)
    requires LockKept(s, s')
    ensures History(s', w.env)
  {
    hide History, LockValid, LastOk, HL.RoundsValid, HL.Tracked, L.Shaped, SentOk, TimeoutsOk, LockOk, HL.Grows;
    hide HL.Maj, Core;
    hide LockKept, Holds;
    if s'.sent == s.sent {
      HistoryLater(s, s', w.env);
    } else {
      PrecommitHistory(s, s', w.env, s'.sent[|s.sent|]);
    }
  }

  /** What `enterPrecommit` signs. */
  lemma PrecommitSends(s: Node, w: World, round: int) returns (hash: Hash)
    requires s.status.Running?
    ensures var s1 := DoPrecommit(s, w, round);
      s1.status.Running? ==>
        && s1.sent == SignVote(s, w, PRECOMMIT, hash).sent
        && (hash != NIL ==> HL.Maj(s.votes, round, PREVOTE) == Some(hash) && Holds(s1, hash, round))
  {
    hide Decide, HL.Maj, HL.PolRound;
    match HL.Maj(s.votes, round, PREVOTE)
    case None => hash := NIL;
    case Some(h) =>
      DecideHash(s, w, round, h);
      hash := Decide(s, w, round, h).1;
  }

  /** The `POLRound` check of `enterPrecommit`: the polka of a tracked round is not overlooked. */
  lemma PolIsNotBelow(votes: HL.HeightLedger, round: int)
    requires 0 <= round <= votes.round && HL.Maj(votes, round, PREVOTE).Some?
    ensures HL.PolRound(votes) >= round
  {
    HL.PolIsLatest(votes, votes.round);
  }

  /** The fields `enterPrecommit` can touch before it updates the step, and how it can stop. */
  lemma DoPrecommitFrame(s: Node, w: World, round: int)
    requires s.status.Running?
    ensures var s1 := DoPrecommit(s, w, round);
      && s1 == s.(sent := s1.sent, lockedRound := s1.lockedRound, lockedBlock := s1.lockedBlock,
                  proposalBlock := s1.proposalBlock, proposalHash := s1.proposalHash, status := s1.status)
      && (|| s1.status.Running? || s1 == Stop(s, BlockContent)
          || (s1.status == Panicked(PolRound) && HL.Maj(s.votes, round, PREVOTE).Some? && HL.PolRound(s.votes) < round))
  {
    hide Decide, HL.Maj, HL.PolRound, SignVote;
    match HL.Maj(s.votes, round, PREVOTE)
    case None =>
    case Some(h) => DecideHash(s, w, round, h);
  }

  /** `enterPrecommit` for a round the node has reached. */
  lemma EnterPrecommitOk(s: Node, w: World, height: int, round: int)
    requires Base(s, w.env) && round <= s.round
    ensures var s' := EnterPrecommit(s, w, height, round);
      && Base(s', w.env) && Moves(s, s') && s'.height == s.height && s'.round == s.round
      && (s.height == height && s.round == round && s'.status.Running? ==> PRECOMMITTED <= s'.step)
  {
    hide History, LockValid, LastOk, HL.RoundsValid, HL.Tracked, L.Shaped, SentOk, TimeoutsOk, LockOk, LockKept;
    hide HL.Grows, DoPrecommit, HL.Maj, HL.PolRound;
    MovesRefl(s);
    if s.status.Running? && s.height == height && s.round == round && s.step < PRECOMMITTED {
      var s1 := DoPrecommit(s, w, round);
      DoPrecommitFrame(s, w, round);
      if HL.Maj(s.votes, round, PREVOTE).Some? { PolIsNotBelow(s.votes, round); }
      HL.GrowsRefl(s.votes);
      if s1.status.Running? {
        PrecommitLock(s, w);
        var hash := PrecommitSends(s, w, round);
        SignOnce(s, w, PRECOMMIT, hash, PRECOMMITTED);
        TimeoutsLater(s.timeouts, s.height, s.round, s.step, s.height, s.round, PRECOMMITTED);
        PrecommitKeepsHistory(s, w, EnterPrecommit(s, w, height, round), hash);
      } else {
        LockSame(s, s1);
        HistoryLater(s, s1, w.env);
      }
    }
  }

  // -------------------------------------------------------------------- commit

  /** The node at the next height, the block with the given hash committed. */
  ghost function Committed(s: Node, hash: Hash, st: Chain.State): Node
    requires HL.Shaped(s.votes)
  {
    UpdateToState(s.(committed := s.committed[s.height := hash]), st)
  }

  /** The next height: nothing recorded yet, everything signed and scheduled so far lies below it. */
  lemma NextHeightOk(s: Node, env: Env, hash: Hash, st: Chain.State)
    requires Base(s, env) && HL.Maj(s.votes, s.commitRound, PRECOMMIT) == Some(hash) && hash != NIL
    requires st.lastBlockHeight == s.height && st.lastBlockHash == hash && st.lastValidators == s.state.validators
    requires st.validators == NextValidators(s.state.validators, env.execute(s.height, hash))
    ensures var s' := Committed(s, hash, st);
      && Base(s', env) && Moves(s, s') && s'.status == s.status
      && s'.height == s.height + 1 && s'.round == 0 && s'.step == NEW_HEIGHT
      && s'.proposal.None? && s'.proposalBlock.None? && s'.lockedBlock.None? && s'.votes == HL.New(s'.height, st.validators)
      && s'.committed == s.committed[s.height := hash]
      && s'.lastCommit == if s.commitRound > -1 then HL.Get(s.votes, s.commitRound, PRECOMMIT) else None
  {
    hide History, LastOk, HL.RoundsValid, HL.Tracked, HL.Shaped, SentOk, TimeoutsOk, HL.Grows, HL.New, NextValidators;
    HL.NewIsValid(st.lastBlockHeight + 1, st.validators, env.signed);
    TimeoutsLater(s.timeouts, s.height, s.round, s.step, s.height + 1, 0, NEW_HEIGHT);
    SentLater(s.sent, s.self, s.height, s.round, s.step, s.height + 1, 0, NEW_HEIGHT);
    NewHeader(st);
    var s' := Committed(s, hash, st);
    CommitHistory(s, s', env, hash);
    LastPrecommits(s, env, hash, st);
  }

  /** The precommits of the commit round become the last commit. */
  lemma LastPrecommits(s: Node, env: Env, hash: Hash, st: Chain.State)
    requires HL.Valid(s.votes, env.signed) && s.votes.height == s.height && s.votes.vals == s.state.validators
    requires HL.Maj(s.votes, s.commitRound, PRECOMMIT) == Some(hash) && hash != NIL
    requires st.lastBlockHeight == s.height && st.lastBlockHash == hash && st.lastValidators == s.state.validators
    ensures LastOk(HL.Get(s.votes, s.commitRound, PRECOMMIT), st, env.signed) && LastOk(None, st, env.signed)
  {
    hide HL.Valid, L.Valid;
    HL.LedgerOf(s.votes, env.signed, s.commitRound, PRECOMMIT);
  }

  lemma NewHeader(st: Chain.State)
    ensures var h := HL.New(st.lastBlockHeight + 1, st.validators);
      h.height == st.lastBlockHeight + 1 && h.vals == st.validators && h.round == 0
  {
  }

  /** `updateState` names the block's height, and a valid block has the height of the node. */
  lemma NextStateHeight(st: Chain.State, env: Env, b: Chain.Block, updates: seq<VC.ValNode>)
    requires Chain.Validate(st, env.signed, b).Accept?
    ensures var st' := NextState(st, b, updates);
      && st'.lastBlockHeight == st.lastBlockHeight + 1 && st'.lastBlockHash == b.hash
      && st'.lastValidators == st.validators && st'.validators == NextValidators(st.validators, updates)
  {
    hide VC.Update;
  }

  lemma ScheduleRound0Ok(s: Node, env: Env)
    requires Base(s, env) && s.step == NEW_HEIGHT
    ensures Base(Schedule(s, 0, NEW_HEIGHT), env) && Moves(s, Schedule(s, 0, NEW_HEIGHT))
  {
    hide History, LockValid, LastOk, HL.RoundsValid, HL.Tracked, HL.Shaped, SentOk, TimeoutsOk, HL.Grows;
    hide LockOk, Superseded;
    HL.GrowsRefl(s.votes);
    ScheduleOk(s, NEW_HEIGHT);
    LockSame(s, Schedule(s, 0, NEW_HEIGHT));
    HistoryLater(s, Schedule(s, 0, NEW_HEIGHT), env);
  }

  /** The failed local write: the lock is dropped, and everything else stands. */
  lemma DropOk(s: Node, env: Env)
    requires Base(s, env)
    ensures var s1 := Unlock(s).(dropped := true); Base(s1, env) && Moves(s, s1)
  {
    hide History, LastOk, HL.RoundsValid, HL.Tracked, HL.Shaped, SentOk, TimeoutsOk, HL.Grows;
    HL.GrowsRefl(s.votes);
    HistoryLater(s, Unlock(s).(dropped := true), env);
  }

  /** `finalizeCommit`, in the commit step with the block that was committed. */
  lemma FinalizeCommitOk(s: Node, c: Config, w: World, height: int)
    requires Base(s, w.env)
    requires s.step == COMMIT ==> Chain.HashesTo(s.proposalBlock, HL.Maj(s.votes, s.commitRound, PRECOMMIT).value)
    ensures var s' := FinalizeCommit(s, c, w, height); Base(s', w.env) && Moves(s, s')
  {
    hide History, LockValid, LastOk, HL.RoundsValid, HL.Tracked, L.Shaped, SentOk, TimeoutsOk, LockOk, LockKept;
    hide HL.Grows;
    hide EnterNewRound, UpdateToState, Chain.Validate, HL.Maj, NextState;
    MovesRefl(s);
    if s.status.Running? && s.height == height && s.step == COMMIT
       && Chain.Validate(s.state, w.env.signed, s.proposalBlock.value).Accept?
    {
      if !w.commitOk {
        var s1 := Unlock(s).(dropped := true);
        DropOk(s, w.env);
        EnterNewRoundOk(s1, c, w, height, s.commitRound + 1);
        MovesTrans(s, s1, EnterNewRound(s1, c, w, height, s.commitRound + 1));
      } else {
        var h := HL.Maj(s.votes, s.commitRound, PRECOMMIT).value;
        var updates := w.env.execute(s.height, h);
        var st := NextState(s.state, s.proposalBlock.value, updates);
        NextStateHeight(s.state, w.env, s.proposalBlock.value, updates);
        NextHeightOk(s, w.env, h, st);
        var s1 := Committed(s, h, st);
        ScheduleRound0Ok(s1, w.env);
        MovesTrans(s, s1, Schedule(s1, 0, NEW_HEIGHT));
      }
    } else {
      StopOk(s, w.env);
    }
  }

  lemma StopOk(s: Node, env: Env)
    requires Base(s, env)
    ensures Base(Stop(s, BlockContent), env) && Moves(s, Stop(s, BlockContent))
  {
    hide History, LockValid, LastOk, HL.RoundsValid, HL.Tracked, HL.Shaped, SentOk, TimeoutsOk, HL.Grows;
    hide LockOk, Superseded;
    HL.GrowsRefl(s.votes);
    LockSame(s, Stop(s, BlockContent));
    HistoryLater(s, Stop(s, BlockContent), env);
  }

  /** `tryFinalizeCommit`, in the commit step. */
  lemma TryFinalizeCommitOk(s: Node, c: Config, w: World)
    requires Base(s, w.env) && s.step == COMMIT
    ensures var s' := TryFinalizeCommit(s, c, w, s.height); Base(s', w.env) && Moves(s, s')
  {
    hide History, LockValid, LastOk, HL.RoundsValid, HL.Tracked, L.Shaped, SentOk, TimeoutsOk, LockOk, LockKept;
    hide HL.Grows, FinalizeCommit, HL.Maj;
    MovesRefl(s);
    var h := HL.Maj(s.votes, s.commitRound, PRECOMMIT).value;
    if Chain.HashesTo(s.proposalBlock, h) { FinalizeCommitOk(s, c, w, s.height); }
  }

  /** `enterCommit`, when the precommits of the round have a majority. */
  lemma EnterCommitOk(s: Node, c: Config, w: World, height: int, round: int)
    requires Base(s, w.env) && HL.Maj(s.votes, round, PRECOMMIT).Some?
    ensures var s' := EnterCommit(s, c, w, height, round); Base(s', w.env) && Moves(s, s')
  {
    hide History, LockValid, LastOk, HL.RoundsValid, HL.Tracked, L.Shaped, SentOk, TimeoutsOk, LockOk, LockKept;
    hide HL.Grows, TryFinalizeCommit, HL.Maj, Await;
    MovesRefl(s);
    if s.status.Running? && s.height == height && s.step < COMMIT {
      var h := HL.Maj(s.votes, round, PRECOMMIT).value;
      var s1 := Await(s, h).(step := COMMIT, commitRound := round);
      CommitStepOk(s, w.env, round, h);
      TryFinalizeCommitOk(s1, c, w);
      MovesTrans(s, s1, TryFinalizeCommit(s1, c, w, height));
    }
  }

  lemma CommitStepOk(s: Node, env: Env, round: int, h: Hash)
    requires Base(s, env) && HL.Maj(s.votes, round, PRECOMMIT) == Some(h) && s.step < COMMIT
    ensures var s1 := Await(s, h).(step := COMMIT, commitRound := round);
      Base(s1, env) && Moves(s, s1) && s1.height == s.height && s1.status == s.status
  {
    hide History, LockValid, LastOk, HL.RoundsValid, HL.Tracked, L.Shaped, SentOk, TimeoutsOk, LockOk, HL.Grows;
    hide HL.Maj, Superseded;
    AwaitFrame(s, h);
    hide Await;
    HL.GrowsRefl(s.votes);
    TimeoutsLater(s.timeouts, s.height, s.round, s.step, s.height, s.round, COMMIT);
    SentLater(s.sent, s.self, s.height, s.round, s.step, s.height, s.round, COMMIT);
    LockLater(s.lockedBlock, s.lockedRound, s.votes, s.round, s.step, s.votes, s.round, COMMIT);
    var s1 := Await(s, h).(step := COMMIT, commitRound := round);
    LockSame(s, s1);
    HistoryLater(s, s1, env);
  }

  lemma AwaitFrame(s: Node, h: Hash)
    ensures Await(s, h) == s.(proposalBlock := Await(s, h).proposalBlock, proposalHash := Await(s, h).proposalHash)
  {
  }

  // ------------------------------------------------------------------- messages

  /** A new round leaves the ledgers that exist alone. */
  lemma NewRoundKeepsLedgers(s: Node, c: Config, w: World, height: int, round: int, r: int, kind: int)
    requires HL.Shaped(s.votes) && r in s.votes.rounds
    ensures HL.Get(EnterNewRound(s, c, w, height, round).votes, r, kind) == HL.Get(s.votes, r, kind)
  {
    hide EnterPropose, HL.SetRound, HL.Get, HL.Shaped;
    SetRoundKeepsLedgers(s.votes, round + 1, r, kind);
  }

  lemma SetRoundKeepsLedgers(h: HL.HeightLedger, round: int, r: int, kind: int)
    requires HL.Shaped(h) && r in h.rounds
    ensures HL.Get(HL.SetRound(h, round), r, kind) == HL.Get(h, r, kind)
  {
    hide HL.Shaped, HL.NewRound;
  }

  /** A new round records no majority. */
  lemma NewRoundKeepsMaj(s: Node, c: Config, w: World, height: int, round: int, r: int, kind: int)
    requires HL.Shaped(s.votes)
    ensures HL.Maj(EnterNewRound(s, c, w, height, round).votes, r, kind) == HL.Maj(s.votes, r, kind)
  {
    hide EnterPropose, HL.SetRound, HL.Maj, HL.Shaped;
    SetRoundKeepsMaj(s.votes, round + 1, r, kind);
  }

  lemma SetRoundKeepsMaj(h: HL.HeightLedger, round: int, r: int, kind: int)
    requires HL.Shaped(h)
    ensures HL.Maj(HL.SetRound(h, round), r, kind) == HL.Maj(h, r, kind)
  {
    hide HL.Shaped;
  }

  /** A change of the proposal fields alone. */
  lemma ProposalFieldsOk(s: Node, s': Node, env: Env)
    requires Base(s, env)
    requires s' == s.(proposal := s'.proposal, proposalBlock := s'.proposalBlock, proposalHash := s'.proposalHash)
    ensures Base(s', env) && Moves(s, s')
  {
    hide History, LockValid, LastOk, HL.RoundsValid, HL.Tracked, HL.Shaped, SentOk, TimeoutsOk, HL.Grows;
    hide LockOk, Superseded;
    HL.GrowsRefl(s.votes);
    HistoryLater(s, s', env);
  }

  /** A step of the ledgers alone. */
  lemma VotesOk(s: Node, env: Env, votes: HL.HeightLedger)
    requires Base(s, env) && HL.Valid(votes, env.signed) && HL.Grows(s.votes, votes) && votes.round == s.votes.round
    ensures Base(s.(votes := votes), env) && Moves(s, s.(votes := votes))
  {
    hide History, LockValid, LastOk, HL.RoundsValid, HL.Tracked, HL.Shaped, SentOk, TimeoutsOk, LockOk, Superseded;
    LockLater(s.lockedBlock, s.lockedRound, s.votes, s.round, s.step, votes, s.round, s.step);
    MajKept(s.votes, votes, s.commitRound);
    hide HL.Maj;
    HistoryLater(s, s.(votes := votes), env);
  }

  lemma AddProposalBlockOk(s: Node, c: Config, w: World, b: Chain.Block)
    requires Base(s, w.env)
    ensures var s' := AddProposalBlock(s, c, w, b); Base(s', w.env) && Moves(s, s')
  {
    hide History, LockValid, LastOk, HL.RoundsValid, HL.Tracked, L.Shaped, SentOk, TimeoutsOk, LockOk, LockKept;
    hide HL.Grows, HL.Maj;
    hide EnterPrevote, TryFinalizeCommit;
    MovesRefl(s);
    var s1 := s.(proposalBlock := Some(b));
    ProposalFieldsOk(s, s1, w.env);
    if s1.step <= PROPOSE {
      EnterPrevoteOk(s1, w, s1.height, s1.round);
      MovesTrans(s, s1, EnterPrevote(s1, w, s1.height, s1.round));
    } else if s1.step == COMMIT {
      TryFinalizeCommitOk(s1, c, w);
      MovesTrans(s, s1, TryFinalizeCommit(s1, c, w, s1.height));
    }
  }

  /** The recorded polka of a round is for something other than the locked block. */
  ghost predicate Unlocks(s: Node, round: int) {
    && s.lockedBlock.Some? && s.lockedRound < round <= s.round
    && HL.Maj(s.votes, round, PREVOTE).Some?
    && !Chain.HashesTo(s.lockedBlock, HL.Maj(s.votes, round, PREVOTE).value)
  }

  lemma UnlockOk(s: Node, env: Env, round: int)
    requires Base(s, env) && Unlocks(s, round) && round <= UnlockBound(s)
    ensures Base(Unlock(s), env) && Moves(s, Unlock(s))
  {
    hide History, LastOk, HL.RoundsValid, HL.Tracked, HL.Shaped, SentOk, TimeoutsOk, HL.Grows, HL.Maj;
    HL.GrowsRefl(s.votes);
    HistoryLater(s, Unlock(s), env);
  }

  /** Unlocking on this round's polka changes nothing about the precommit that follows at once. */
  lemma UnlockThenPrecommit(s: Node, w: World, height: int, round: int)
    requires Unlocks(s, round)
    ensures var s1 := EnterPrecommit(s, w, height, round);
      var s' := EnterPrecommit(Unlock(s), w, height, round);
      s.status.Running? && s.height == height && s.round == round && s.step < PRECOMMITTED ==>
        s' == s1 || (s1.status.Panicked? && s1 == s.(status := s1.status) && s' == Unlock(s1))
  {
    hide Decide, HL.Maj, HL.PolRound, SignVote;
    if s.status.Running? && HL.Maj(s.votes, round, PREVOTE).Some? {
      UnlockThenDecide(s, w, round, HL.Maj(s.votes, round, PREVOTE).value);
    }
  }

  lemma UnlockThenDecide(s: Node, w: World, round: int, h: Hash)
    requires s.status.Running? && s.lockedBlock.Some? && !Chain.HashesTo(s.lockedBlock, h)
    ensures var a, b := Decide(s, w, round, h), Decide(Unlock(s), w, round, h);
      a == b || (a.0 == Stop(s, BlockContent) && b.0 == Unlock(a.0))
  {
    hide Chain.Validate;
  }

  /** A polka of the current round, before the precommit: unlock and precommit in one go. */
  lemma UnlockInRoundOk(s: Node, w: World)
    requires Base(s, w.env) && s.status.Running? && Unlocks(s, s.round) && s.step < PRECOMMITTED
    ensures var s' := EnterPrecommit(Unlock(s), w, s.height, s.round); Base(s', w.env) && Moves(s, s')
  {
    hide History, LockValid, LastOk, HL.RoundsValid, HL.Tracked, L.Shaped, SentOk, TimeoutsOk, LockOk, LockKept;
    hide HL.Grows, HL.Maj;
    hide EnterPrecommit;
    var s1 := EnterPrecommit(s, w, s.height, s.round);
    EnterPrecommitOk(s, w, s.height, s.round);
    UnlockThenPrecommit(s, w, s.height, s.round);
    if s1.status.Panicked? && s1 == s.(status := s1.status) {
      UnlockOk(s1, w.env, s.round);
      MovesTrans(s, s1, Unlock(s1));
    }
  }

  /** A counted prevote. */
  lemma AddedPrevoteOk(s: Node, c: Config, w: World, round: int)
    requires Base(s, w.env) && s.status.Running? && round in s.votes.rounds
    ensures var s' := AddedPrevote(s, c, w, round); Base(s', w.env) && Moves(s, s')
  {
    hide History, LockValid, LastOk, HL.RoundsValid, HL.Tracked, L.Shaped, SentOk, TimeoutsOk, LockOk, LockKept;
    hide HL.Grows, HL.Maj, HL.HasAny;
    hide UnlockOnPolka, EnterNewRound, EnterPrecommit, AfterPrevote;
    UnlockCases(s, round);
    if Unlocks(s, round) && UnlockBound(s) < round {
      LockedRound(s, w.env);
      NewRoundIsPast(Unlock(s), c, w, s.height, round);
      HL.MajorityIsSigned(s.votes, w.env.signed, round, PREVOTE);
      UnlockInRoundOk(s, w);
      PolkaThenPrecommit(s, c, w, round);
    } else {
      var s1 := UnlockOnPolka(s, round);
      MovesRefl(s);
      if Unlocks(s, round) { UnlockOk(s, w.env, round); }
      AfterPrevoteOk(s1, c, w, round);
      MovesTrans(s, s1, AfterPrevote(s1, c, w, round));
    }
  }

  lemma UnlockCases(s: Node, round: int)
    ensures UnlockOnPolka(s, round) == if Unlocks(s, round) then Unlock(s) else s
  {
    hide HL.Maj;
  }

  lemma LockedRound(s: Node, env: Env)
    requires Base(s, env) && s.lockedBlock.Some?
    ensures s.lockedRound >= 0
  {
  }

  lemma NewRoundIsPast(s: Node, c: Config, w: World, height: int, round: int)
    requires HL.Shaped(s.votes) && s.round == round && s.step != NEW_HEIGHT
    ensures EnterNewRound(s, c, w, height, round) == s
  {
  }

  lemma PolkaThenPrecommit(s: Node, c: Config, w: World, round: int)
    requires HL.Shaped(s.votes) && s.round == round && HL.HasAny(s.votes, round, PREVOTE)
    requires HL.Maj(s.votes, round, PREVOTE).Some? && UnlockOnPolka(s, round) == Unlock(s)
    requires EnterNewRound(Unlock(s), c, w, s.height, round) == Unlock(s)
    ensures AddedPrevote(s, c, w, round) == EnterPrecommit(Unlock(s), w, s.height, round)
  {
    hide HL.Maj, HL.HasAny, UnlockOnPolka, EnterNewRound, EnterPrecommit;
  }

  /** What a counted prevote does once the lock has been looked at. */
  lemma AfterPrevoteOk(s: Node, c: Config, w: World, round: int)
    requires Base(s, w.env) && s.status.Running? && round in s.votes.rounds
    ensures var s' := AfterPrevote(s, c, w, round); Base(s', w.env) && Moves(s, s')
  {
    hide History, LockValid, LastOk, HL.RoundsValid, HL.Tracked, L.Shaped, SentOk, TimeoutsOk, LockOk, LockKept;
    hide HL.Grows, HL.Maj, HL.HasAny;
    hide EnterNewRound, EnterPrecommit, EnterPrevote, EnterPrevoteWait, ProposalComplete;
    MovesRefl(s);
    if s.round <= round && HL.HasAny(s.votes, round, PREVOTE) {
      var s2 := EnterNewRound(s, c, w, s.height, round);
      EnterNewRoundOk(s, c, w, s.height, round);
      if HL.Maj(s.votes, round, PREVOTE).Some? {
        EnterPrecommitOk(s2, w, s.height, round);
        MovesTrans(s, s2, EnterPrecommit(s2, w, s.height, round));
      } else {
        var s3 := EnterPrevote(s2, w, s.height, round);
        EnterPrevoteOk(s2, w, s.height, round);
        MovesTrans(s, s2, s3);
        NewRoundKeepsAny(s, c, w, s.height, round, PREVOTE);
        EnterPrevoteWaitOk(s3, w.env, s.height, round);
        MovesTrans(s, s3, EnterPrevoteWait(s3, s.height, round));
      }
    } else {
      EnterPrevoteOk(s, w, s.height, s.round);
    }
  }

  lemma NewRoundKeepsAny(s: Node, c: Config, w: World, height: int, round: int, kind: int)
    requires HL.Shaped(s.votes) && HL.HasAny(s.votes, round, kind)
    ensures HL.HasAny(EnterNewRound(s, c, w, height, round).votes, round, kind)
  {
    hide EnterNewRound, L.HasTwoThirdsAny;
    NewRoundKeepsLedgers(s, c, w, height, round, round, kind);
  }

  /** The round of a counted precommit, entered up to its precommit step. */
  ghost function Entered(s: Node, c: Config, w: World, round: int): Node
    requires HL.Shaped(s.votes)
  {
    EnterPrecommit(EnterNewRound(s, c, w, s.height, round), w, s.height, round)
  }

  lemma EnteredOk(s: Node, c: Config, w: World, round: int)
    requires Base(s, w.env) && s.status.Running? && round in s.votes.rounds
    ensures var s2 := Entered(s, c, w, round);
      && Base(s2, w.env) && Moves(s, s2) && s2.height == s.height && round <= s2.round
      && HL.Get(s2.votes, round, PRECOMMIT) == HL.Get(s.votes, round, PRECOMMIT)
  {
    hide History, LockValid, LastOk, HL.RoundsValid, HL.Tracked, L.Shaped, SentOk, TimeoutsOk, LockOk, LockKept;
    hide HL.Grows, HL.Get, EnterNewRound, EnterPrecommit;
    var s1 := EnterNewRound(s, c, w, s.height, round);
    EnterNewRoundOk(s, c, w, s.height, round);
    EnterPrecommitOk(s1, w, s.height, round);
    MovesTrans(s, s1, EnterPrecommit(s1, w, s.height, round));
    NewRoundKeepsLedgers(s, c, w, s.height, round, round, PRECOMMIT);
  }

  /** A counted precommit with a majority for a block: commit, and maybe the next height at once. */
  lemma PrecommitsCommitOk(s: Node, c: Config, w: World, round: int)
    requires Base(s, w.env) && s.status.Running? && round in s.votes.rounds && HL.Maj(s.votes, round, PRECOMMIT).Some?
    ensures HL.Shaped(Entered(s, c, w, round).votes)
    ensures var s3 := EnterCommit(Entered(s, c, w, round), c, w, s.height, round);
      && Base(s3, w.env) && Moves(s, s3)
      && Base(EnterNewRound(s3, c, w, s3.height, 0), w.env) && Moves(s, EnterNewRound(s3, c, w, s3.height, 0))
  {
    hide History, LockValid, LastOk, HL.RoundsValid, HL.Tracked, L.Shaped, SentOk, TimeoutsOk, LockOk, LockKept;
    hide HL.Grows, HL.Get, EnterNewRound, EnterCommit, Entered;
    var s2 := Entered(s, c, w, round);
    EnteredOk(s, c, w, round);
    var s3 := EnterCommit(s2, c, w, s.height, round);
    EnterCommitOk(s2, c, w, s.height, round);
    MovesTrans(s, s2, s3);
    EnterNewRoundOk(s3, c, w, s3.height, 0);
    MovesTrans(s, s3, EnterNewRound(s3, c, w, s3.height, 0));
  }

  /** A counted precommit with any +2/3 of a round not below ours: wait in that round. */
  lemma PrecommitsWaitOk(s: Node, c: Config, w: World, round: int)
    requires Base(s, w.env) && s.status.Running? && HL.HasAny(s.votes, round, PRECOMMIT)
    ensures var s' := EnterPrecommitWait(Entered(s, c, w, round), s.height, round);
      Base(s', w.env) && Moves(s, s')
  {
    hide History, LockValid, LastOk, HL.RoundsValid, HL.Tracked, L.Shaped, SentOk, TimeoutsOk, LockOk, LockKept;
    hide HL.Grows, EnterPrecommitWait, Entered, L.HasTwoThirdsAny;
    var s2 := Entered(s, c, w, round);
    EnteredOk(s, c, w, round);
    EnterPrecommitWaitOk(s2, w.env, s.height, round);
    MovesTrans(s, s2, EnterPrecommitWait(s2, s.height, round));
  }

  /** A counted precommit. */
  lemma AddedPrecommitOk(s: Node, c: Config, w: World, round: int)
    requires Base(s, w.env) && s.status.Running? && round in s.votes.rounds
    ensures var s' := AddedPrecommit(s, c, w, round); Base(s', w.env) && Moves(s, s')
  {
    hide Base, Moves, HL.HasAny, EnterNewRound, EnterPrecommit, EnterCommit, EnterPrecommitWait, L.HasAll;
    MovesRefl(s);
    match HL.Maj(s.votes, round, PRECOMMIT)
    case Some(h) =>
      EnterNewRoundOk(s, c, w, s.height, round + 1);
      PrecommitsCommitOk(s, c, w, round);
    case None =>
      if HL.HasAny(s.votes, round, PRECOMMIT) { PrecommitsWaitOk(s, c, w, round); }
  }

  lemma AddVoteOk(s: Node, c: Config, w: World, vote: Vote, peer: PeerId)
    requires Base(s, w.env) && s.status.Running?
    ensures var s' := AddVote(s, c, w, vote, peer); Base(s', w.env) && Moves(s, s')
  {
    hide History, LockValid, LastOk, HL.RoundsValid, HL.Tracked, L.Shaped, SentOk, TimeoutsOk, LockOk, LockKept;
    hide HL.Grows, HL.Maj;
    hide HL.AddVote, AddedPrevote, AddedPrecommit;
    MovesRefl(s);
    if vote.height == s.height {
      HL.AddVoteIsValid(s.votes, w.env.signed, vote, peer);
      var a := HL.AddVote(s.votes, w.env.signed, vote, peer);
      var s1 := s.(votes := a.votes);
      VotesOk(s, w.env, a.votes);
      if a.added && vote.kind == PREVOTE {
        AddedPrevoteOk(s1, c, w, vote.round);
        MovesTrans(s, s1, AddedPrevote(s1, c, w, vote.round));
      } else if a.added {
        AddedPrecommitOk(s1, c, w, vote.round);
        MovesTrans(s, s1, AddedPrecommit(s1, c, w, vote.round));
      }
    }
  }

  /** A timeout the node asked for fires only at the step it was asked for. */
  lemma HandleTimeoutOk(s: Node, c: Config, w: World, t: Timeout)
    requires Base(s, w.env) && s.status.Running? && t in s.timeouts
    ensures var s' := HandleTimeout(s, c, w, t);
      && Base(s', w.env) && Moves(s, s')
      && (s' == s || t == Timeout(s.height, s.round, s.step))
  {
    hide History, LockValid, LastOk, HL.RoundsValid, HL.Tracked, L.Shaped, SentOk, LockOk, LockKept, HL.Grows, HL.Maj;
    hide EnterNewRound, EnterPropose, EnterPrevote, EnterPrecommit;
    MovesRefl(s);
    if t.height == s.height && t.round == s.round {
      EnterNewRoundOk(s, c, w, t.height, 0);
      EnterProposeOk(s, w, t.height, 0);
      EnterPrevoteOk(s, w, t.height, t.round);
      EnterPrecommitOk(s, w, t.height, t.round);
      EnterNewRoundOk(s, c, w, t.height, t.round + 1);
    }
  }

  /** Every message, whatever it says, keeps the invariant and moves the node forward. */
  lemma HandleOk(s: Node, c: Config, w: World, e: Event)
    requires Base(s, w.env) && (e.Tock? ==> e.timeout in s.timeouts)
    ensures var s' := Handle(s, c, w, e); Base(s', w.env) && Moves(s, s')
  {
    hide History, LockValid, LastOk, HL.RoundsValid, HL.Tracked, L.Shaped, SentOk, TimeoutsOk, LockOk, LockKept;
    hide HL.Grows, HL.Maj;
    hide AddVote, AddProposalBlock, HandleTimeout, EnterPropose, HL.SetPeerMaj23;
    MovesRefl(s);
    if s.status.Running? {
      match e
      case VoteMsg(vote, peer) => AddVoteOk(s, c, w, vote, peer);
      case ProposalMsg(p) => ProposalFieldsOk(s, SetProposal(s, w, p), w.env);
      case BlockMsg(b) => AddProposalBlockOk(s, c, w, b);
      case Tock(t) => HandleTimeoutOk(s, c, w, t);
      case TxsAvailable(height) => EnterProposeOk(s, w, height, 0);
      case PeerClaim(height, round, kind, peer, hash) =>
        HL.SetPeerMaj23IsValid(s.votes, w.env.signed, round, kind, peer, hash);
        VotesOk(s, w.env, HL.SetPeerMaj23(s.votes, round, kind, peer, hash));
    }
  }

  // ------------------------------------------------- what callers of a handler know

  lemma CoreOf(s: Node, env: Env)
    requires Base(s, env)
    ensures Core(s)
  {
  }

  /** In the commit step the majority of the commit round is recorded. */
  lemma CommitIsRecorded(s: Node, env: Env)
    requires Base(s, env) && s.step == COMMIT
    ensures Core(s) && HL.Maj(s.votes, s.commitRound, PRECOMMIT).Some? && s.state.lastBlockHeight + 1 == s.height
  {
    hide History, LockValid, LastOk, HL.Valid, SentOk, TimeoutsOk, LockOk, HL.Maj;
  }

  lemma DropCore(s: Node)
    requires Core(s)
    ensures Core(Unlock(s).(dropped := true))
  {
    hide HL.Maj;
  }

  lemma CommittedCore(s: Node, h: Hash)
    requires Core(s)
    ensures Core(s.(committed := s.committed[s.height := h]))
  {
    hide HL.Maj;
  }

  lemma UnlockedCore(s: Node, env: Env, round: int)
    requires Base(s, env)
    ensures Core(s) && Core(Unlock(s)) && Core(UnlockOnPolka(s, round)) && HL.Shaped(s.votes)
  {
    hide History, LockValid, LastOk, HL.RoundsValid, HL.Tracked, SentOk, TimeoutsOk, LockOk, HL.Maj, L.Shaped;
  }

  /** After a new round the round asked for is tracked, unless the node has passed it. */
  lemma RoundReached(s: Node, c: Config, w: World, height: int, round: int)
    requires Core(s) && HL.Shaped(s.votes)
    ensures var s' := EnterNewRound(s, c, w, height, round);
      s'.status.Running? && s'.height == height && s'.round <= round ==> 0 <= round <= s'.votes.round
  {
    hide HL.Shaped, HL.Maj, EnterPropose, ResetRound, HL.SetRoundPanics;
    ResetRoundVotes(s, round);
  }

  lemma ResetRoundVotes(s: Node, round: int)
    requires HL.Shaped(s.votes)
    ensures ResetRound(s, round).votes.round == round + 1
  {
    hide HL.Shaped, HL.NewRound, HL.Range;
  }

  lemma SameAny(a: HL.HeightLedger, b: HL.HeightLedger, round: int, kind: int)
    requires HL.HasAny(a, round, kind) && HL.Get(b, round, kind) == HL.Get(a, round, kind)
    ensures HL.HasAny(b, round, kind)
  {
  }

  /** A recorded vote: no check of the vote sets fails, and a counted one has a proper type. */
  lemma VoteRecordedOk(s: Node, env: Env, vote: Vote, peer: PeerId)
    requires Base(s, env)
    ensures HL.Shaped(s.votes)
    ensures var a := HL.AddVote(s.votes, env.signed, vote, peer);
      && !a.panicked && Base(s.(votes := a.votes), env)
      && (a.added ==> IsVoteTypeValid(vote.kind) && vote.round in a.votes.rounds)
  {
    hide History, LockValid, LastOk, HL.RoundsValid, HL.Tracked, L.Shaped, SentOk, TimeoutsOk, LockOk, HL.Maj, HL.AddVote;
    HL.AddVoteIsValid(s.votes, env.signed, vote, peer);
    VotesOk(s, env, HL.AddVote(s.votes, env.signed, vote, peer).votes);
  }

  /** A timeout that is not stale is for exactly where the node is. */
  lemma TimeoutIsHere(s: Node, env: Env, t: Timeout)
    requires Base(s, env) && t in s.timeouts
    ensures s.votes.round >= s.round >= 0 && FiringStep(t.step) && (t.step <= NEW_ROUND ==> t.round == 0)
    ensures t.height == s.height && t.round >= s.round && (t.round == s.round ==> t.step >= s.step) ==>
              t == Timeout(s.height, s.round, s.step)
  {
    hide History, LockValid, LastOk, HL.Valid, SentOk, LockOk, HL.Maj;
  }
}
