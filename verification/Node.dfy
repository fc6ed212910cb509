/**
 One consensus node (`consensus_state.go`) as a value: what each handler of the
 receive routine computes from the state before it.

 A deferred update in the program becomes the last update of the function. A panic
 stops the node: its receive routine recovers and exits, so nothing after the panic
 is computed.
 */
module Node {
  import opened Types
  import HL = HeightLedger
  import L = Ledger
  import Chain
  import C = Commits
  import VC = ValidatorChange

  /** `RoundStepType`. */
  const NEW_HEIGHT := 1
  const NEW_ROUND := 2
  const PROPOSE := 3
  const PREVOTED := 4
  const PREVOTE_WAIT := 5
  const PRECOMMITTED := 6
  const PRECOMMIT_WAIT := 7
  const COMMIT := 8

  datatype Timeout = Timeout(height: int, round: int, step: int)

  datatype Proposal = Proposal(height: int, round: int, polRound: int, hash: Hash)

  /** The configuration the handlers read. */
  datatype Config = Config(createEmptyBlocks: bool, emptyBlocksInterval: int, skipTimeoutCommit: bool)

  /** Where a handler can panic; `BlockContent` is the only one that depends on what a block says. */
  datatype Panic =
    | BlockContent
    | StateHeight | StateInconsistent | LastPrecommits
    | PrevoteWaitVotes | PolRound | PrecommitWaitVotes
    | CommitMajority | FinalizeHeight | FinalizeMajority | FinalizeHash
    | SetRound | VoteType | VoteSetCheck | TimeoutStep

  datatype Status = Running | Panicked(why: Panic)

  /** The timestamp and signature the private validator puts on a vote, if it signs. */
  datatype Stamp = Stamp(timestamp: int, signature: Signature, ok: bool)

  /**
   What all nodes share: the signatures made so far, the first validators, and the
   validator changes that executing a block at a height reports.
   */
  datatype Env = Env(signed: Signatures, genesis: Validators, execute: (int, Hash) -> seq<VC.ValNode>)

  /** What the outside answers while one message is handled. */
  datatype World = World(env: Env, prevote: Stamp, precommit: Stamp, proposalSigned: bool, commitOk: bool)

  datatype Node = Node(
    self: Address, state: Chain.State,
    height: int, round: int, step: int,
    proposal: Option<Proposal>, proposalBlock: Option<Chain.Block>, proposalHash: Hash,
    lockedRound: int, lockedBlock: Option<Chain.Block>,
    votes: HL.HeightLedger, commitRound: int, lastCommit: Option<L.Ledger>,
    // what left the node: timeouts asked for, votes signed, blocks finalized
    timeouts: set<Timeout>, sent: seq<Vote>, committed: map<int, Hash>,
    // a local block write failed and the lock was dropped
    dropped: bool,
    status: Status)

  datatype Event =
    | VoteMsg(vote: Vote, peer: PeerId)
    | ProposalMsg(proposal: Proposal)
    | BlockMsg(block: Chain.Block)
    | Tock(timeout: Timeout)
    | TxsAvailable(height: int)
    | PeerClaim(height: int, round: int, kind: int, peer: PeerId, hash: Hash)

  /** `NewConsensusState` on the state of a chain without blocks. */
  function Start(self: Address, state: Chain.State): Node {
    Node(self, state, 1, 0, NEW_HEIGHT, None, None, NIL, 0, None,
         HL.New(1, state.validators), -1, None, {Timeout(1, 0, NEW_HEIGHT)}, [], map[], false, Running)
  }

  function Stop(s: Node, why: Panic): Node { s.(status := Panicked(why)) }

  function Schedule(s: Node, round: int, step: int): Node {
    s.(timeouts := s.timeouts + {Timeout(s.height, round, step)})
  }

  /** `signAddVote`: a validator signs a vote for its current height and round. */
  function SignVote(s: Node, w: World, kind: int, hash: Hash): (r: Node)
    ensures r == s.(sent := r.sent)
  {
    var i := IndexOf(s.state.validators, s.self);
    var stamp := if kind == PREVOTE then w.prevote else w.precommit;
    if i < 0 || !stamp.ok || stamp.signature == 0 then s
    else s.(sent := s.sent + [Vote(i, s.self, s.height, s.round, kind, stamp.timestamp, hash, stamp.signature)])
  }

  predicate ProposalComplete(s: Node) {
    s.proposal.Some? && s.proposalBlock.Some?
    && (s.proposal.value.polRound < 0 || HL.Maj(s.votes, s.proposal.value.polRound, PREVOTE).Some?)
  }

  function Unlock(s: Node): Node { s.(lockedRound := 0, lockedBlock := None) }

  // -------------------------------------------------------------- round steps

  /** `defaultDoPrevote`: the locked block, else a valid proposal, else nil. */
  function DoPrevote(s: Node, w: World): (r: Node)
    ensures r.votes == s.votes
  {
    if s.lockedBlock.Some? then SignVote(s, w, PREVOTE, s.lockedBlock.value.hash)
    else if s.proposalBlock.None? then SignVote(s, w, PREVOTE, NIL)
    else
      match Chain.Validate(s.state, w.env.signed, s.proposalBlock.value)
      case Crash => Stop(s, BlockContent)
      case Reject => SignVote(s, w, PREVOTE, NIL)
      case Accept => SignVote(s, w, PREVOTE, s.proposalBlock.value.hash)
  }

  /** `createProposalBlock`: a block on the state, carrying the last commit; `built` is the height of the batch of transactions. */
  function CreateProposalBlock(s: Node, built: int, numTxs: int, hash: Hash): Option<Chain.Block> {
    var commit :=
      if s.height == 1 then Some(C.Commit(NIL, []))
      else if s.lastCommit.Some? && s.lastCommit.value.maj23.Some? then Some(C.MakeCommit(s.lastCommit.value))
      else None;
    if commit.None? || built != s.height then None
    else Some(Chain.MakeBlock(s.state, s.height, s.round, numTxs, commit.value, hash))
  }

  /** `defaultDecideProposal`: the locked block, else a new one. */
  function DecideProposal(s: Node, built: int, numTxs: int, hash: Hash): Option<Chain.Block> {
    if s.lockedBlock.Some? then s.lockedBlock else CreateProposalBlock(s, built, numTxs, hash)
  }

  function EnterPrevote(s: Node, w: World, height: int, round: int): (r: Node)
    ensures r.votes == s.votes
  {
    if !s.status.Running? || s.height != height || round < s.round || (s.round == round && PREVOTED <= s.step) then s
    else
      var s1 := DoPrevote(s, w);
      if !s1.status.Running? then s1 else s1.(round := round, step := PREVOTED)
  }

  /** `enterPropose`; a proposal of our own comes back later as messages to ourselves. */
  function EnterPropose(s: Node, w: World, height: int, round: int): (r: Node)
    ensures r.votes == s.votes
  {
    if !s.status.Running? || s.height != height || round < s.round || (s.round == round && PROPOSE <= s.step) then s
    else
      var s1 := Schedule(s, round, PROPOSE).(round := round, step := PROPOSE);
      if ProposalComplete(s1) then EnterPrevote(s1, w, height, s1.round) else s1
  }

  /** The fields of a round that begins; the proposal of round 0 may have come before it. */
  function ResetRound(s: Node, round: int): (r: Node)
    requires HL.Shaped(s.votes)
    ensures HL.Shaped(r.votes)
  {
    var s1 := s.(round := round, step := NEW_ROUND, votes := HL.SetRound(s.votes, round + 1));
    if round == 0 then s1 else s1.(proposal := None, proposalBlock := None, proposalHash := NIL)
  }

  function EnterNewRound(s: Node, c: Config, w: World, height: int, round: int): (r: Node)
    requires HL.Shaped(s.votes)
    ensures HL.Shaped(r.votes)
  {
    if !s.status.Running? || s.height != height || round < s.round || (s.round == round && s.step != NEW_HEIGHT) then s
    else if HL.SetRoundPanics(s.votes, round + 1) then Stop(s, SetRound)
    else
      var s2 := ResetRound(s, round);
      var waitForTxs := (!c.createEmptyBlocks || c.emptyBlocksInterval > 0) && round == 0;
      if waitForTxs then (if c.emptyBlocksInterval > 0 then Schedule(s2, round, NEW_ROUND) else s2)
      else EnterPropose(s2, w, height, round)
  }

  function EnterPrevoteWait(s: Node, height: int, round: int): (r: Node)
    ensures r.votes == s.votes
  {
    if !s.status.Running? || s.height != height || round < s.round || (s.round == round && PREVOTE_WAIT <= s.step) then s
    else if !HL.HasAny(s.votes, round, PREVOTE) then Stop(s, PrevoteWaitVotes)
    else Schedule(s, round, PREVOTE_WAIT).(round := round, step := PREVOTE_WAIT)
  }

  /** On a polka for `h`: the lock after it and what to precommit. */
  function Decide(s: Node, w: World, round: int, h: Hash): (r: (Node, Hash))
    ensures r.0 == s.(lockedRound := r.0.lockedRound, lockedBlock := r.0.lockedBlock,
                      proposalBlock := r.0.proposalBlock, proposalHash := r.0.proposalHash, status := r.0.status)
  {
    if h == NIL then (if s.lockedBlock.None? then s else Unlock(s), NIL)
    else if Chain.HashesTo(s.lockedBlock, h) then (s.(lockedRound := round), h)
    else if Chain.HashesTo(s.proposalBlock, h) then
      if !Chain.Validate(s.state, w.env.signed, s.proposalBlock.value).Accept? then (Stop(s, BlockContent), NIL)
      else (s.(lockedRound := round, lockedBlock := s.proposalBlock), h)
    else
      var s1 := Unlock(s);
      (if s1.proposalHash == h then s1 else s1.(proposalBlock := None, proposalHash := h), NIL)
  }

  /** The body of `enterPrecommit`, before the step is updated. */
  function DoPrecommit(s: Node, w: World, round: int): (r: Node)
    ensures r.votes == s.votes
  {
    match HL.Maj(s.votes, round, PREVOTE)
    case None => SignVote(s, w, PRECOMMIT, NIL)
    case Some(h) =>
      if HL.PolRound(s.votes) < round then Stop(s, PolRound)
      else
        var (s1, hash) := Decide(s, w, round, h);
        if s1.status.Running? then SignVote(s1, w, PRECOMMIT, hash) else s1
  }

  function EnterPrecommit(s: Node, w: World, height: int, round: int): (r: Node)
    ensures r.votes == s.votes
  {
    if !s.status.Running? || s.height != height || round < s.round || (s.round == round && PRECOMMITTED <= s.step) then s
    else
      var s1 := DoPrecommit(s, w, round);
      if !s1.status.Running? then s1 else s1.(round := round, step := PRECOMMITTED)
  }

  function EnterPrecommitWait(s: Node, height: int, round: int): (r: Node)
    ensures r.votes == s.votes
  {
    if !s.status.Running? || s.height != height || round < s.round || (s.round == round && PRECOMMIT_WAIT <= s.step) then s
    else if !HL.HasAny(s.votes, round, PRECOMMIT) then Stop(s, PrecommitWaitVotes)
    else Schedule(s, round, PRECOMMIT_WAIT).(round := round, step := PRECOMMIT_WAIT)
  }

  // -------------------------------------------------------------------- commit

  /** `updateToState`: start the next height. */
  function UpdateToState(s: Node, st: Chain.State): (r: Node)
    requires HL.Shaped(s.votes)
    ensures HL.Shaped(r.votes)
  {
    if s.commitRound > -1 && 0 < s.height && s.height != st.lastBlockHeight then Stop(s, StateHeight)
    else if s.state.lastBlockHeight + 1 != s.height then Stop(s, StateInconsistent)
    else if st.lastBlockHeight <= s.state.lastBlockHeight then s
    else if s.commitRound > -1 && HL.Maj(s.votes, s.commitRound, PRECOMMIT).None? then Stop(s, LastPrecommits)
    else
      s.(state := st, height := st.lastBlockHeight + 1, round := 0, step := NEW_HEIGHT,
         proposal := None, proposalBlock := None, proposalHash := NIL,
         lockedRound := 0, lockedBlock := None,
         votes := HL.New(st.lastBlockHeight + 1, st.validators), commitRound := -1,
         lastCommit := if s.commitRound > -1 then HL.Get(s.votes, s.commitRound, PRECOMMIT) else None)
  }

  /** The validators after the changes a block reports; a refused change leaves them as they were. */
  function NextValidators(vals: Validators, updates: seq<VC.ValNode>): Validators {
    if |updates| == 0 then vals else VC.Update(vals, updates).0
  }

  /** The state after a block, with the validator updates the application reports. */
  function NextState(st: Chain.State, b: Chain.Block, updates: seq<VC.ValNode>): Chain.State {
    var st1 := Chain.Update(st, b);
    if |updates| == 0 then st1 else st1.(validators := NextValidators(st1.lastValidators, updates))
  }

  function FinalizeCommit(s: Node, c: Config, w: World, height: int): (r: Node)
    requires HL.Shaped(s.votes)
    ensures HL.Shaped(r.votes)
  {
    if !s.status.Running? || s.height != height || s.step != COMMIT then s
    else
      match HL.Maj(s.votes, s.commitRound, PRECOMMIT)
      case None => Stop(s, FinalizeMajority)
      case Some(h) =>
        if !Chain.HashesTo(s.proposalBlock, h) then Stop(s, FinalizeHash)
        else if !Chain.Validate(s.state, w.env.signed, s.proposalBlock.value).Accept? then Stop(s, BlockContent)
        else if !w.commitOk then
          EnterNewRound(Unlock(s).(dropped := true), c, w, height, s.commitRound + 1)
        else
          var s1 := UpdateToState(s.(committed := s.committed[s.height := h]),
                                  NextState(s.state, s.proposalBlock.value, w.env.execute(s.height, h)));
          if s1.status.Running? then Schedule(s1, 0, NEW_HEIGHT) else s1
  }

  function TryFinalizeCommit(s: Node, c: Config, w: World, height: int): (r: Node)
    requires HL.Shaped(s.votes)
    ensures HL.Shaped(r.votes)
  {
    if !s.status.Running? then s
    else if s.height != height then Stop(s, FinalizeHeight)
    else
      match HL.Maj(s.votes, s.commitRound, PRECOMMIT)
      case None => s
      case Some(h) => if Chain.HashesTo(s.proposalBlock, h) then FinalizeCommit(s, c, w, height) else s
  }

  /** The block fields of `enterCommit`: keep the block if we have it, else wait for it. */
  function Await(s: Node, h: Hash): (r: Node)
    ensures r.votes == s.votes
  {
    var s1 := if Chain.HashesTo(s.lockedBlock, h) then s.(proposalBlock := s.lockedBlock, proposalHash := h) else s;
    if Chain.HashesTo(s1.proposalBlock, h) || s1.proposalHash == h then s1
    else s1.(proposalBlock := None, proposalHash := h)
  }

  function EnterCommit(s: Node, c: Config, w: World, height: int, round: int): (r: Node)
    requires HL.Shaped(s.votes)
    ensures HL.Shaped(r.votes)
  {
    if !s.status.Running? || s.height != height || COMMIT <= s.step then s
    else
      match HL.Maj(s.votes, round, PRECOMMIT)
      case None => Stop(s, CommitMajority)
      case Some(h) => TryFinalizeCommit(Await(s, h).(step := COMMIT, commitRound := round), c, w, height)
  }

  // ------------------------------------------------------------------- messages

  /** `defaultSetProposal`. */
  function SetProposal(s: Node, w: World, p: Proposal): (r: Node)
    ensures r.votes == s.votes
  {
    if || s.proposal.Some?
       || p.height != s.height || p.round != s.round
       || COMMIT <= s.step
       || (p.polRound != -1 && (p.polRound < 0 || p.round <= p.polRound))
       || !w.proposalSigned
    then s
    else s.(proposal := Some(p), proposalHash := p.hash)
  }

  function AddProposalBlock(s: Node, c: Config, w: World, b: Chain.Block): (r: Node)
    requires HL.Shaped(s.votes)
    ensures HL.Shaped(r.votes)
  {
    if || b.header.height != s.height
       || !Chain.HashesTo(Some(b), s.proposalHash)
       || (s.proposalBlock.Some? && Chain.HashesTo(Some(b), s.proposalBlock.value.hash))
    then s
    else
      var s1 := s.(proposalBlock := Some(b));
      if s1.step <= PROPOSE then EnterPrevote(s1, w, s1.height, s1.round)
      else if s1.step == COMMIT then TryFinalizeCommit(s1, c, w, s1.height)
      else s1
  }

  /** Unlock on a recorded polka for something else, later than the lock and not above our round. */
  function UnlockOnPolka(s: Node, round: int): (r: Node)
    ensures r.votes == s.votes
  {
    match HL.Maj(s.votes, round, PREVOTE)
    case Some(h) =>
      if s.lockedBlock.Some? && s.lockedRound < round <= s.round && !Chain.HashesTo(s.lockedBlock, h)
      then Unlock(s) else s
    case None => s
  }

  /** Move on a counted prevote: two thirds of a round not below ours, or the polka a proposal waits for. */
  function AfterPrevote(s: Node, c: Config, w: World, round: int): (r: Node)
    requires HL.Shaped(s.votes)
    ensures HL.Shaped(r.votes)
  {
    if s.round <= round && HL.HasAny(s.votes, round, PREVOTE) then
      var s1 := EnterNewRound(s, c, w, s.height, round);
      if HL.Maj(s.votes, round, PREVOTE).Some? then EnterPrecommit(s1, w, s.height, round)
      else EnterPrevoteWait(EnterPrevote(s1, w, s.height, round), s.height, round)
    else if s.proposal.Some? && 0 <= s.proposal.value.polRound == round && ProposalComplete(s) then
      EnterPrevote(s, w, s.height, s.round)
    else s
  }

  /** The prevote branch of `addVote`, once the vote is in. */
  function AddedPrevote(s: Node, c: Config, w: World, round: int): (r: Node)
    requires HL.Shaped(s.votes)
    ensures HL.Shaped(r.votes)
  {
    AfterPrevote(UnlockOnPolka(s, round), c, w, round)
  }

  /** The precommit branch of `addVote`. */
  function AddedPrecommit(s: Node, c: Config, w: World, round: int): (r: Node)
    requires HL.Shaped(s.votes)
    ensures HL.Shaped(r.votes)
  {
    match HL.Maj(s.votes, round, PRECOMMIT)
    case Some(h) =>
      if h == NIL then EnterNewRound(s, c, w, s.height, round + 1)
      else
        var s1 := EnterPrecommit(EnterNewRound(s, c, w, s.height, round), w, s.height, round);
        var s2 := EnterCommit(s1, c, w, s.height, round);
        if c.skipTimeoutCommit && L.HasAll(HL.Get(s.votes, round, PRECOMMIT).value)
        then EnterNewRound(s2, c, w, s2.height, 0) else s2
    case None =>
      if s.round <= round && HL.HasAny(s.votes, round, PRECOMMIT) then
        EnterPrecommitWait(EnterPrecommit(EnterNewRound(s, c, w, s.height, round), w, s.height, round), s.height, round)
      else s
  }

  function AddVote(s: Node, c: Config, w: World, vote: Vote, peer: PeerId): (r: Node)
    requires HL.Shaped(s.votes)
    ensures HL.Shaped(r.votes)
  {
    if vote.height != s.height then s
    else
      var a := HL.AddVote(s.votes, w.env.signed, vote, peer);
      var s1 := s.(votes := a.votes);
      if a.panicked then Stop(s1, VoteSetCheck)
      else if !a.added then s1
      else if vote.kind == PREVOTE then AddedPrevote(s1, c, w, vote.round)
      else if vote.kind == PRECOMMIT then AddedPrecommit(s1, c, w, vote.round)
      else Stop(s1, VoteType)
  }

  function HandleTimeout(s: Node, c: Config, w: World, t: Timeout): (r: Node)
    requires HL.Shaped(s.votes)
    ensures HL.Shaped(r.votes)
  {
    if t.height != s.height || t.round < s.round || (t.round == s.round && t.step < s.step) then s
    else if t.step == NEW_HEIGHT then EnterNewRound(s, c, w, t.height, 0)
    else if t.step == NEW_ROUND then EnterPropose(s, w, t.height, 0)
    else if t.step == PROPOSE then EnterPrevote(s, w, t.height, t.round)
    else if t.step == PREVOTE_WAIT then EnterPrecommit(s, w, t.height, t.round)
    else if t.step == PRECOMMIT_WAIT then EnterNewRound(s, c, w, t.height, t.round + 1)
    else Stop(s, TimeoutStep)
  }

  /** One message of the receive routine. */
  function Handle(s: Node, c: Config, w: World, e: Event): (r: Node)
    requires HL.Shaped(s.votes)
    ensures HL.Shaped(r.votes)
  {
    if !s.status.Running? then s
    else
      match e
      case VoteMsg(vote, peer) => AddVote(s, c, w, vote, peer)
      case ProposalMsg(p) => SetProposal(s, w, p)
      case BlockMsg(b) => AddProposalBlock(s, c, w, b)
      case Tock(t) => HandleTimeout(s, c, w, t)
      case TxsAvailable(height) => EnterPropose(s, w, height, 0)
      case PeerClaim(height, round, kind, peer, hash) =>
        if height != s.height then s
        else s.(votes := HL.SetPeerMaj23(s.votes, round, kind, peer, hash))
  }
}
