/**
 What is true of a node between messages, and how one message moves it.
 */
module Invariant {
  import opened Types
  import opened Node
  import HL = HeightLedger
  import L = Ledger
  import Power
  import Chain

  // ------------------------------------------------------------------ position

  /** (height, round, step) in lexicographic order. */
  ghost predicate Upto(h: int, r: int, p: int, h': int, r': int, p': int) {
    h < h' || (h == h' && (r < r' || (r == r' && p <= p')))
  }

  /** The step at which a vote of a kind is signed. */
  ghost function StepOf(kind: int): int { if kind == PREVOTE then PREVOTED else PRECOMMITTED }

  ghost predicate FiringStep(p: int) {
    p == NEW_HEIGHT || p == NEW_ROUND || p == PROPOSE || p == PREVOTE_WAIT || p == PRECOMMIT_WAIT
  }

  /** No timeout was asked for ahead of the node, and each names a step that can fire. */
  ghost predicate TimeoutsOk(ts: set<Timeout>, h: int, r: int, p: int) {
    forall t :: t in ts ==>
      && Upto(t.height, t.round, t.step, h, r, p)
      && t.height >= 1 && t.round >= 0 && FiringStep(t.step)
      && (t.step <= NEW_ROUND ==> t.round == 0)
  }

  /** Votes signed so far: none ahead of the node, and no two for one height, round and kind. */
  ghost predicate SentOk(sent: seq<Vote>, self: Address, h: int, r: int, p: int) {
    && (forall i :: 0 <= i < |sent| ==>
          && IsVoteTypeValid(sent[i].kind) && sent[i].address == self && sent[i].round >= 0
          && Upto(sent[i].height, sent[i].round, StepOf(sent[i].kind), h, r, p))
    && (forall i, j :: 0 <= i < j < |sent| ==>
          sent[i].height != sent[j].height || sent[i].round != sent[j].round || sent[i].kind != sent[j].kind)
  }

  /** The numbers of a node fit together, and only a block's content can have stopped it. */
  ghost predicate Core(s: Node) {
    && s.height >= 1 && s.round >= 0 && NEW_HEIGHT <= s.step <= COMMIT
    && s.state.lastBlockHeight + 1 == s.height
    && s.votes.height == s.height && s.votes.vals == s.state.validators
    && (s.votes.round == s.round + 1 || (s.votes.round == 0 && s.round == 0))
    && (s.step == NEW_HEIGHT ==> s.round == 0 && s.votes.round == 0)
    && (s.step == COMMIT ==> HL.Maj(s.votes, s.commitRound, PRECOMMIT).Some?)
    && (s.commitRound > -1 ==> HL.Maj(s.votes, s.commitRound, PRECOMMIT).Some?)
    && (s.status.Panicked? ==> s.status.why.BlockContent?)
  }

  // ---------------------------------------------------------------------- lock

  /** A locked block is the +2/3 prevote majority recorded for the locked round. */
  ghost predicate LockOk(locked: Option<Chain.Block>, lockedRound: int, votes: HL.HeightLedger, r: int, p: int) {
    locked.Some? ==>
      && locked.value.hash != NIL
      && HL.Maj(votes, lockedRound, PREVOTE) == Some(locked.value.hash)
      && 0 <= lockedRound <= r && (lockedRound < r || PRECOMMITTED <= p)
  }

  /** A locked block is valid. */
  ghost predicate LockValid(locked: Option<Chain.Block>, state: Chain.State, signed: Signatures) {
    locked.Some? ==> Chain.Validate(state, signed, locked.value).Accept?
  }

  /** Some round in (lo, hi] has a recorded polka for something other than `h`. */
  ghost predicate Superseded(votes: HL.HeightLedger, lo: int, hi: int, h: Hash) {
    exists r :: lo < r <= hi && HL.Maj(votes, r, PREVOTE).Some? && HL.Maj(votes, r, PREVOTE).value != h
  }

  /** A lock on a block at a round is still held, at that round or later. */
  ghost predicate Holds(s: Node, h: Hash, round: int) {
    s.lockedBlock.Some? && s.lockedBlock.value.hash == h && round <= s.lockedRound
  }

  /** The last round whose polka can have unlocked the node: the current one counts once it has precommitted. */
  ghost function UnlockBound(s: Node): int {
    if PRECOMMITTED <= s.step || s.status.Panicked? then s.round else s.round - 1
  }

  /** A lock survives unless a later polka, in time to count, was recorded for something else. */
  ghost predicate LockKept(s: Node, s': Node) {
    s.lockedBlock.Some? ==>
      || Holds(s', s.lockedBlock.value.hash, s.lockedRound)
      || Superseded(s'.votes, s.lockedRound, UnlockBound(s'), s.lockedBlock.value.hash)
  }

  // ------------------------------------------------------------------- history

  /** The validators of a height: the first ones, changed by every committed block below it. */
  ghost function ValsAt(env: Env, committed: map<int, Hash>, h: int): Validators
    decreases h
  {
    if h <= 1 then env.genesis
    else
      NextValidators(ValsAt(env, committed, h - 1),
                     if h - 1 in committed then env.execute(h - 1, committed[h - 1]) else [])
  }

  /** +2/3 of the validators of a height have signed votes of one kind for a block in a round. */
  ghost predicate Signed(env: Env, committed: map<int, Hash>, h: int, r: int, kind: int, hash: Hash) {
    var vals := ValsAt(env, committed, h);
    Power.Quorum(vals, HL.Signers(env.signed, vals, h, r, kind, hash))
  }

  /** Exactly the heights below the node's are committed, and they lead to its validators. */
  ghost predicate Chained(s: Node, env: Env) {
    && (forall h :: h in s.committed <==> 1 <= h < s.height)
    && s.state.validators == ValsAt(env, s.committed, s.height)
  }

  /** A vote that locks its signer. */
  ghost predicate Locking(v: Vote) { v.kind == PRECOMMIT && v.hash != NIL }

  /** Every precommit for a block was signed on a polka for it. */
  ghost predicate Backed(sent: seq<Vote>, committed: map<int, Hash>, env: Env) {
    forall v :: v in sent && Locking(v) ==> Signed(env, committed, v.height, v.round, PREVOTE, v.hash)
  }

  /** The block of a precommit of this height is still locked, or a later polka released it. */
  ghost predicate Remembered(s: Node) {
    forall v :: v in s.sent && Locking(v) && v.height == s.height ==>
      Holds(s, v.hash, v.round) || Superseded(s.votes, v.round, UnlockBound(s), v.hash)
  }

  /** A polka for something else lies strictly between two rounds. */
  ghost predicate Released(env: Env, committed: map<int, Hash>, h: int, lo: int, hi: int, hash: Hash) {
    exists r, other :: lo < r < hi && other != hash && Signed(env, committed, h, r, PREVOTE, other)
  }

  /** After a precommit for a block, a prevote for anything else waits for a polka in between. */
  ghost predicate Justified(sent: seq<Vote>, committed: map<int, Hash>, env: Env) {
    forall v, u ::
      && v in sent && Locking(v)
      && u in sent && u.kind == PREVOTE && u.height == v.height && v.round < u.round && u.hash != v.hash
      ==> Released(env, committed, v.height, v.round, u.round, v.hash)
  }

  /** A block is committed on the signed precommits of some round. */
  ghost predicate Decided(committed: map<int, Hash>, env: Env) {
    forall h :: h in committed ==>
      committed[h] != NIL && exists r :: Signed(env, committed, h, r, PRECOMMIT, committed[h])
  }

  /** The precommits kept for the last block are a commit of it by its validators. */
  ghost predicate LastOk(lastCommit: Option<L.Ledger>, state: Chain.State, signed: Signatures) {
    lastCommit.Some? ==>
      && L.Valid(lastCommit.value, signed)
      && lastCommit.value.kind == PRECOMMIT
      && lastCommit.value.height == state.lastBlockHeight
      && lastCommit.value.vals == state.lastValidators
      && lastCommit.value.maj23 == Some(state.lastBlockHash)
      && state.lastBlockHash != NIL
  }

  ghost predicate SignedBelowZero(env: Env, committed: map<int, Hash>, h: int, hash: Hash) {
    exists r :: r < 0 && Signed(env, committed, h, r, PRECOMMIT, hash)
  }

  /** A node above height 1 without a last commit finished the height below on precommits of a negative round. */
  ghost predicate CommitMissing(s: Node, env: Env) {
    s.height > 1 && s.height - 1 in s.committed && s.lastCommit.None? ==>
      SignedBelowZero(env, s.committed, s.height - 1, s.committed[s.height - 1])
  }

  ghost predicate History(s: Node, env: Env) {
    && Chained(s, env)
    && Backed(s.sent, s.committed, env)
    && Decided(s.committed, env)
    && CommitMissing(s, env)
    && (!s.dropped ==> Remembered(s) && Justified(s.sent, s.committed, env))
  }

  ghost predicate Base(s: Node, env: Env) {
    && Core(s)
    && HL.Valid(s.votes, env.signed)
    && TimeoutsOk(s.timeouts, s.height, s.round, s.step)
    && SentOk(s.sent, s.self, s.height, s.round, s.step)
    && LockOk(s.lockedBlock, s.lockedRound, s.votes, s.round, s.step)
    && LockValid(s.lockedBlock, s.state, env.signed)
    && LastOk(s.lastCommit, s.state, env.signed)
    && History(s, env)
  }

  ghost predicate CommitsKept(a: map<int, Hash>, b: map<int, Hash>) {
    forall h :: h in a ==> h in b && b[h] == a[h]
  }

  /** Votes added to those sent so far are for steps after a position. */
  ghost predicate VotesAhead(sent: seq<Vote>, sent': seq<Vote>, h: int, r: int, p: int) {
    forall i :: |sent| <= i < |sent'| ==> !Upto(sent'[i].height, sent'[i].round, StepOf(sent'[i].kind), h, r, p)
  }

  /** How a node moves: forward, never taking back a vote, a timeout, a commit, a recorded majority or a lock. */
  ghost predicate Moves(s: Node, s': Node) {
    && Upto(s.height, s.round, s.step, s'.height, s'.round, s'.step)
    && s'.self == s.self
    && s.timeouts <= s'.timeouts
    && s.sent <= s'.sent && VotesAhead(s.sent, s'.sent, s.height, s.round, s.step)
    && (s.dropped ==> s'.dropped)
    && (s.status.Panicked? ==> s'.status.Panicked?)
    && CommitsKept(s.committed, s'.committed)
    && (s'.height == s.height ==>
          && s'.state == s.state && s'.lastCommit == s.lastCommit && s'.committed == s.committed
          && HL.Grows(s.votes, s'.votes)
          && (!s'.dropped ==> LockKept(s, s')))
  }

  // --------------------------------------------------------------- small steps

  lemma MovesRefl(s: Node)
    ensures Moves(s, s)
  {
    HL.GrowsRefl(s.votes);
  }

  lemma SupersededGrows(a: HL.HeightLedger, b: HL.HeightLedger, lo: int, lo': int, hi: int, hi': int, h: Hash)
    requires Superseded(a, lo, hi, h) && HL.Grows(a, b) && lo' <= lo && hi <= hi'
    ensures Superseded(b, lo', hi', h)
  {
    var r :| lo < r <= hi && HL.Maj(a, r, PREVOTE).Some? && HL.Maj(a, r, PREVOTE).value != h;
    assert HL.Maj(b, r, PREVOTE) == HL.Maj(a, r, PREVOTE);
  }

  lemma LockKeptTrans(a: Node, b: Node, c: Node)
    requires LockKept(a, b) && LockKept(b, c) && HL.Grows(b.votes, c.votes) && UnlockBound(b) <= UnlockBound(c)
    ensures LockKept(a, c)
  {
    hide UnlockBound;
    if a.lockedBlock.Some? {
      var h := a.lockedBlock.value.hash;
      if Superseded(b.votes, a.lockedRound, UnlockBound(b), h) {
        SupersededGrows(b.votes, c.votes, a.lockedRound, a.lockedRound, UnlockBound(b), UnlockBound(c), h);
      } else if !Holds(c, h, b.lockedRound) {
        HL.GrowsRefl(c.votes);
        SupersededGrows(c.votes, c.votes, b.lockedRound, a.lockedRound, UnlockBound(c), UnlockBound(c), h);
      }
    }
  }

  lemma VotesAheadTrans(a: Node, b: Node, c: Node)
    requires Upto(a.height, a.round, a.step, b.height, b.round, b.step) && b.sent <= c.sent
    requires VotesAhead(a.sent, b.sent, a.height, a.round, a.step) && VotesAhead(b.sent, c.sent, b.height, b.round, b.step)
    ensures VotesAhead(a.sent, c.sent, a.height, a.round, a.step)
  {
    forall i | |a.sent| <= i < |c.sent|
      ensures !Upto(c.sent[i].height, c.sent[i].round, StepOf(c.sent[i].kind), a.height, a.round, a.step)
    {
      if i < |b.sent| { assert c.sent[i] == b.sent[i]; }
    }
  }

  lemma MovesTrans(a: Node, b: Node, c: Node)
    requires Moves(a, b) && Moves(b, c)
    ensures Moves(a, c)
  {
    hide LockKept, HL.Grows, VotesAhead;
    VotesAheadTrans(a, b, c);
    if c.height == a.height {
      HL.GrowsTrans(a.votes, b.votes, c.votes);
      if !c.dropped { LockKeptTrans(a, b, c); }
    }
  }

  lemma TimeoutsLater(ts: set<Timeout>, h: int, r: int, p: int, h': int, r': int, p': int)
    requires TimeoutsOk(ts, h, r, p) && Upto(h, r, p, h', r', p')
    ensures TimeoutsOk(ts, h', r', p')
  {
  }

  lemma SentLater(sent: seq<Vote>, self: Address, h: int, r: int, p: int, h': int, r': int, p': int)
    requires SentOk(sent, self, h, r, p) && Upto(h, r, p, h', r', p')
    ensures SentOk(sent, self, h', r', p')
  {
  }

  lemma LockLater(locked: Option<Chain.Block>, lockedRound: int, a: HL.HeightLedger, r: int, p: int,
                  b: HL.HeightLedger, r': int, p': int)
    requires LockOk(locked, lockedRound, a, r, p) && HL.Grows(a, b) && (r < r' || (r == r' && p <= p'))
    ensures LockOk(locked, lockedRound, b, r', p')
  {
  }

  lemma LockSame(s: Node, a: Node)
    requires a.lockedBlock == s.lockedBlock && a.lockedRound == s.lockedRound
    ensures LockKept(s, a)
  {
  }

  /** Signing a vote for a step the node has not reached yet, and then reaching it. */
  lemma SignOnce(s: Node, w: World, kind: int, hash: Hash, p': int)
    requires IsVoteTypeValid(kind) && SentOk(s.sent, s.self, s.height, s.round, s.step)
    requires s.step < StepOf(kind) <= p' && s.round >= 0
    ensures SentOk(SignVote(s, w, kind, hash).sent, s.self, s.height, s.round, p')
    ensures s.sent <= SignVote(s, w, kind, hash).sent
    ensures VotesAhead(s.sent, SignVote(s, w, kind, hash).sent, s.height, s.round, s.step)
  {
    SentLater(s.sent, s.self, s.height, s.round, s.step, s.height, s.round, p');
  }

  lemma ScheduleOk(s: Node, p: int)
    requires TimeoutsOk(s.timeouts, s.height, s.round, s.step) && FiringStep(p) && s.step <= p
    requires s.height >= 1 && s.round >= 0 && (p <= NEW_ROUND ==> s.round == 0)
    ensures TimeoutsOk(Schedule(s, s.round, p).timeouts, s.height, s.round, p)
  {
    TimeoutsLater(s.timeouts, s.height, s.round, s.step, s.height, s.round, p);
  }

  // ------------------------------------------------------------- history steps

  /** One remembered precommit stays remembered. */
  lemma StillRemembered(s: Node, s': Node, v: Vote)
    requires Holds(s, v.hash, v.round) || Superseded(s.votes, v.round, UnlockBound(s), v.hash)
    requires LockKept(s, s') && HL.Grows(s.votes, s'.votes) && UnlockBound(s) <= UnlockBound(s')
    ensures Holds(s', v.hash, v.round) || Superseded(s'.votes, v.round, UnlockBound(s'), v.hash)
  {
    hide UnlockBound, HL.Grows;
    if Superseded(s.votes, v.round, UnlockBound(s), v.hash) {
      SupersededGrows(s.votes, s'.votes, v.round, v.round, UnlockBound(s), UnlockBound(s'), v.hash);
    } else if !Holds(s', v.hash, s.lockedRound) {
      HL.GrowsRefl(s'.votes);
      SupersededGrows(s'.votes, s'.votes, s.lockedRound, v.round, UnlockBound(s'), UnlockBound(s'), v.hash);
    }
  }

  /** A move within a height that signs nothing. */
  lemma HistoryLater(s: Node, s': Node, env: Env)
    requires History(s, env) && Moves(s, s') && s'.height == s.height && s'.sent == s.sent
    ensures History(s', env)
  {
    hide Holds, Superseded, LockKept, HL.Grows, Backed, Justified, Decided, ValsAt;
    if !s'.dropped {
      forall v | v in s'.sent && Locking(v) && v.height == s'.height
        ensures Holds(s', v.hash, v.round) || Superseded(s'.votes, v.round, UnlockBound(s'), v.hash)
      {
        StillRemembered(s, s', v);
      }
    }
  }

  /** A majority on record at the node's height is signed by the validators of that height. */
  lemma RecordIsSigned(s: Node, env: Env, round: int, kind: int)
    requires HL.Valid(s.votes, env.signed) && HL.Maj(s.votes, round, kind).Some? && IsVoteTypeValid(kind)
    requires s.votes.height == s.height && s.votes.vals == ValsAt(env, s.committed, s.height)
    ensures Signed(env, s.committed, s.height, round, kind, HL.Maj(s.votes, round, kind).value)
  {
    hide HL.Valid, HL.Maj, ValsAt, Power.Quorum, HL.Signers;
    HL.MajorityIsSigned(s.votes, env.signed, round, kind);
  }

  /** A superseded block has a signed polka against it. */
  lemma SupersededIsReleased(s: Node, env: Env, lo: int, hash: Hash)
    requires HL.Valid(s.votes, env.signed) && Superseded(s.votes, lo, s.round - 1, hash)
    requires s.votes.height == s.height && s.votes.vals == ValsAt(env, s.committed, s.height)
    ensures Released(env, s.committed, s.height, lo, s.round, hash)
  {
    hide HL.Valid, HL.Maj, ValsAt, Signed;
    var r :| lo < r <= s.round - 1 && HL.Maj(s.votes, r, PREVOTE).Some? && HL.Maj(s.votes, r, PREVOTE).value != hash;
    RecordIsSigned(s, env, r, PREVOTE);
  }

  /** Signing a prevote: for the locked block if there is one. */
  lemma PrevoteHistory(s: Node, s': Node, env: Env, vote: Vote)
    requires History(s, env) && HL.Valid(s.votes, env.signed) && Core(s) && s.status.Running? && s.step < PREVOTED
    requires SentOk(s.sent, s.self, s.height, s.round, s.step)
    requires vote.kind == PREVOTE && vote.height == s.height && vote.round == s.round
    requires s.lockedBlock.Some? ==> vote.hash == s.lockedBlock.value.hash
    requires s' == s.(sent := s.sent + [vote], step := PREVOTED)
    ensures History(s', env)
  {
    hide HL.Valid, Superseded, ValsAt, Signed, Decided, Released, HL.Maj;
    if !s.dropped {
      forall v, u |
        && v in s'.sent && Locking(v)
        && u in s'.sent && u.kind == PREVOTE && u.height == v.height && v.round < u.round && u.hash != v.hash
        ensures Released(env, s.committed, v.height, v.round, u.round, v.hash)
      {
        assert v in s.sent;
        if u !in s.sent { SupersededIsReleased(s, env, v.round, v.hash); }
      }
      assert Remembered(s') by { assert UnlockBound(s') == UnlockBound(s); SameRemembered(s, s', vote); }
    }
  }

  lemma SameRemembered(s: Node, s': Node, vote: Vote)
    requires Remembered(s) && UnlockBound(s') == UnlockBound(s) && !Locking(vote)
    requires s' == s.(sent := s.sent + [vote], step := s'.step)
    ensures Remembered(s')
  {
    hide Superseded;
  }

  /** Signing a precommit: for nil, or for the block the node has just locked on this round's polka. */
  lemma PrecommitHistory(s: Node, s': Node, env: Env, vote: Vote)
    requires History(s, env) && HL.Valid(s.votes, env.signed) && Core(s)
    requires SentOk(s.sent, s.self, s.height, s.round, s.step)
    requires vote.kind == PRECOMMIT && vote.height == s.height && vote.round == s.round
    requires vote.hash != NIL ==> HL.Maj(s.votes, s.round, PREVOTE) == Some(vote.hash) && Holds(s', vote.hash, s.round)
    requires s'.sent == s.sent + [vote] && s'.committed == s.committed && s'.dropped == s.dropped
    requires s'.height == s.height && s'.state == s.state && s'.lastCommit == s.lastCommit
    requires LockKept(s, s') && HL.Grows(s.votes, s'.votes) && UnlockBound(s) <= UnlockBound(s')
    ensures History(s', env)
  {
    hide HL.Valid, Superseded, ValsAt, Signed, Decided, Released, HL.Maj, HL.Grows, LockKept;
    if vote.hash != NIL { RecordIsSigned(s, env, s.round, PREVOTE); }
    if !s.dropped {
      forall v | v in s'.sent && Locking(v) && v.height == s'.height
        ensures Holds(s', v.hash, v.round) || Superseded(s'.votes, v.round, UnlockBound(s'), v.hash)
      {
        if v in s.sent { StillRemembered(s, s', v); }
      }
    }
  }

  /** The validators of a height depend on the blocks below it only. */
  lemma {:induction false} ValsDependBelow(env: Env, a: map<int, Hash>, b: map<int, Hash>, h: int)
    requires forall k :: 1 <= k < h ==> (k in a <==> k in b) && (k in a ==> a[k] == b[k])
    ensures ValsAt(env, a, h) == ValsAt(env, b, h)
    decreases h
  {
    if h > 1 { ValsDependBelow(env, a, b, h - 1); }
  }

  /** Committing the block of the recorded precommits and moving on. */
  lemma CommitHistory(s: Node, s': Node, env: Env, hash: Hash)
    requires History(s, env) && HL.Valid(s.votes, env.signed) && Core(s)
    requires SentOk(s.sent, s.self, s.height, s.round, s.step)
    requires HL.Maj(s.votes, s.commitRound, PRECOMMIT) == Some(hash) && hash != NIL
    requires s'.sent == s.sent && s'.committed == s.committed[s.height := hash]
    requires s'.height == s.height + 1 && s'.dropped == s.dropped
    requires s'.lastCommit.None? ==> s.commitRound < 0
    requires s'.state.validators == NextValidators(s.state.validators, env.execute(s.height, hash))
    ensures History(s', env) && CommitsKept(s.committed, s'.committed)
  {
    hide HL.Valid, HL.Maj, Signed, NextValidators, ValsAt, Backed, Decided, Justified, Remembered, SentOk;
    ValsKept(env, s.committed, s.height, hash);
    RecordIsSigned(s, env, s.commitRound, PRECOMMIT);
    CommitDecided(s, s', env, hash);
    CommitVotes(s, s', env);
    SignedSame(env, s.committed, s'.committed, s.height, s.commitRound, PRECOMMIT, hash);
    NextVals(s, s', env, hash);
  }

  lemma ValsKept(env: Env, committed: map<int, Hash>, height: int, hash: Hash)
    ensures forall h :: h <= height ==> ValsAt(env, committed[height := hash], h) == ValsAt(env, committed, h)
  {
    hide ValsAt;
    forall h | h <= height ensures ValsAt(env, committed[height := hash], h) == ValsAt(env, committed, h) {
      ValsDependBelow(env, committed[height := hash], committed, h);
    }
  }

  lemma NextVals(s: Node, s': Node, env: Env, hash: Hash)
    requires s.height >= 1 && s'.height == s.height + 1
    requires s'.committed == s.committed[s.height := hash]
    requires s.state.validators == ValsAt(env, s.committed, s.height) == ValsAt(env, s'.committed, s.height)
    requires s'.state.validators == NextValidators(s.state.validators, env.execute(s.height, hash))
    ensures s'.state.validators == ValsAt(env, s'.committed, s'.height)
  {
    hide NextValidators;
  }

  lemma SignedSame(env: Env, a: map<int, Hash>, b: map<int, Hash>, h: int, r: int, kind: int, hash: Hash)
    requires ValsAt(env, b, h) == ValsAt(env, a, h) && Signed(env, a, h, r, kind, hash)
    ensures Signed(env, b, h, r, kind, hash)
  {
  }

  lemma CommitDecided(s: Node, s': Node, env: Env, hash: Hash)
    requires Decided(s.committed, env) && hash != NIL
    requires s'.committed == s.committed[s.height := hash]
    requires forall h :: h in s.committed ==> h < s.height
    requires forall h :: h <= s.height ==> ValsAt(env, s'.committed, h) == ValsAt(env, s.committed, h)
    requires Signed(env, s.committed, s.height, s.commitRound, PRECOMMIT, hash)
    ensures Decided(s'.committed, env)
  {
    hide ValsAt, Power.Quorum, HL.Signers;
    forall h | h in s'.committed
      ensures s'.committed[h] != NIL && exists r :: Signed(env, s'.committed, h, r, PRECOMMIT, s'.committed[h])
    {
      var r :| Signed(env, s.committed, h, r, PRECOMMIT, s'.committed[h]);
      SignedSame(env, s.committed, s'.committed, h, r, PRECOMMIT, s'.committed[h]);
    }
  }

  lemma CommitVotes(s: Node, s': Node, env: Env)
    requires SentOk(s.sent, s.self, s.height, s.round, s.step)
    requires s'.sent == s.sent && s'.height == s.height + 1
    requires forall h :: h <= s.height ==> ValsAt(env, s'.committed, h) == ValsAt(env, s.committed, h)
    ensures Backed(s.sent, s.committed, env) ==> Backed(s'.sent, s'.committed, env)
    ensures Justified(s.sent, s.committed, env) ==> Justified(s'.sent, s'.committed, env)
    ensures Remembered(s')
  {
    hide ValsAt, Power.Quorum, HL.Signers, Superseded;
    forall v | v in s.sent ensures v.height <= s.height {
    }
    if Justified(s.sent, s.committed, env) {
      forall v, u |
        && v in s.sent && Locking(v)
        && u in s.sent && u.kind == PREVOTE && u.height == v.height && v.round < u.round && u.hash != v.hash
        ensures Released(env, s'.committed, v.height, v.round, u.round, v.hash)
      {
        var r, other :| v.round < r < u.round && other != v.hash && Signed(env, s.committed, v.height, r, PREVOTE, other);
        SignedSame(env, s.committed, s'.committed, v.height, r, PREVOTE, other);
      }
    }
  }
}
