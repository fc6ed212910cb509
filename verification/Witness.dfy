/**
 Two runs of one honest validator and one honest observer, nobody faulty. In the first a
 block is committed under all that `Agreement` asks for. In the second a local write
 fails, and the two nodes commit different blocks.
 */
module Witness {
  import opened Types
  import opened Node
  import opened Invariant
  import opened Network
  import A = Agreement
  import HL = HeightLedger
  import L = Ledger
  import Power
  import Chain
  import C = Commits

  const KEY: Address := 1
  const OBSERVER: Address := 2
  const VALS: Validators := [Validator(KEY, 1)]
  const STATE := Chain.State(0, 0, 0, NIL, VALS, [], NIL, NIL, NIL)
  const CONFIG := Config(true, 0, false)

  ghost function G(): Genesis { Genesis(STATE, (h, hash) => []) }

  ghost function W(signed: Signatures, commitOk: bool): World {
    World(Env(signed, VALS, G().execute), Stamp(0, 5, true), Stamp(0, 5, true), true, commitOk)
  }

  ghost function BlockOf(h: Hash): Chain.Block { Chain.MakeBlock(STATE, 1, 0, 0, C.Commit(NIL, []), h) }

  ghost function VoteFor(r: int, kind: int, h: Hash): Vote { Vote(0, KEY, 1, r, kind, 0, h, 5) }

  lemma BlockIsValid(signed: Signatures, h: Hash)
    ensures Chain.Validate(STATE, signed, BlockOf(h)).Accept? && BlockOf(h).hash == h && BlockOf(h).header.height == 1
  {
    Chain.MadeBlockIsValid(STATE, signed, 0, 0, C.Commit(NIL, []), h);
  }

  lemma Places()
    ensures IndexOf(VALS, KEY) == 0 && IndexOf(VALS, OBSERVER) < 0
  {
  }

  lemma PowerIsOne()
    ensures Power.Total(VALS) == 1 && L.QuorumPower(VALS) == 1
  {
    assert VALS[..0] == [];
  }

  // ------------------------------------------------------------------ ledgers

  /** A ledger with the one vote that is a majority. */
  ghost function One(r: int, kind: int, h: Hash): L.Ledger {
    var v := Some(VoteFor(r, kind, h));
    L.Ledger(1, r, kind, VALS, [true], [v], 1, Some(h), map[h := L.BlockVotes(false, [true], [v], 1)], map[])
  }

  /** The only vote is a majority at once. */
  lemma Counted(r: int, kind: int, h: Hash, signed: Signatures)
    requires (KEY, VoteFor(r, kind, h)) in signed
    ensures L.Shaped(L.New(1, r, kind, VALS))
    ensures L.AddVote(L.New(1, r, kind, VALS), signed, VoteFor(r, kind, h))
            == L.Added(One(r, kind, h), true, L.NoError, false)
  {
    hide Power.Total, L.QuorumPower;
    var v := VoteFor(r, kind, h);
    PowerIsOne();
    assert [false][0 := true] == [true];
    var none: Option<Vote> := None;
    assert L.Blank(1, none)[0 := Some(v)] == [Some(v)] && L.Blank(1, false)[0 := true] == [true];
    var b := L.NewBlockVotes(false, 1);
    assert L.Record(b, v, 1) == L.BlockVotes(false, [true], [Some(v)], 1);
    assert L.Overlay([Some(v)], [Some(v)]) == [Some(v)];
  }

  /** Nobody voted in a round. */
  ghost predicate Unvoted(votes: HL.HeightLedger, r: int) {
    r in votes.rounds && votes.rounds[r] == HL.NewRound(1, r, VALS)
  }

  ghost predicate NoneAbove(votes: HL.HeightLedger, r: int) { forall k :: k in votes.rounds ==> k <= r }

  /** The ledgers at the start of a round. */
  ghost predicate FreshVotes(votes: HL.HeightLedger, r: int) {
    && HL.Shaped(votes) && votes.height == 1 && votes.vals == VALS && votes.round == r + 1
    && Unvoted(votes, r) && Unvoted(votes, r + 1) && NoneAbove(votes, r + 1)
  }

  ghost function Prevotes(votes: HL.HeightLedger, r: int, h: Hash): HL.HeightLedger
    requires r in votes.rounds
  {
    HL.Put(votes, r, PREVOTE, One(r, PREVOTE, h))
  }

  ghost function Precommits(votes: HL.HeightLedger, r: int, h: Hash): HL.HeightLedger
    requires r in votes.rounds
  {
    HL.Put(Prevotes(votes, r, h), r, PRECOMMIT, One(r, PRECOMMIT, h))
  }

  lemma ShapedPut(votes: HL.HeightLedger, r: int, kind: int, l: L.Ledger)
    requires HL.Shaped(votes) && r in votes.rounds && L.Shaped(l)
    ensures HL.Shaped(HL.Put(votes, r, kind, l))
  {
    hide L.Shaped;
  }

  /** A vote for a tracked round without votes of its kind. */
  lemma VoteCounted(votes: HL.HeightLedger, signed: Signatures, r: int, kind: int, h: Hash)
    requires HL.Shaped(votes) && IsVoteTypeValid(kind) && HL.Get(votes, r, kind) == Some(L.New(1, r, kind, VALS))
    requires (KEY, VoteFor(r, kind, h)) in signed
    ensures HL.AddVote(votes, signed, VoteFor(r, kind, h), 0)
            == HL.Added(HL.Put(votes, r, kind, One(r, kind, h)), true, L.NoError, false)
    ensures HL.Shaped(HL.Put(votes, r, kind, One(r, kind, h)))
  {
    Counted(r, kind, h, signed);
    ShapedPut(votes, r, kind, One(r, kind, h));
    hide L.AddVote, L.Shaped, L.New, One;
  }

  /** The prevotes are a polka, the highest one. */
  lemma Polka(votes: HL.HeightLedger, r: int, h: Hash)
    requires FreshVotes(votes, r) && r >= 0
    ensures HL.Maj(Prevotes(votes, r, h), r, PREVOTE) == Some(h) && HL.HasAny(Prevotes(votes, r, h), r, PREVOTE)
    ensures HL.PolRound(Prevotes(votes, r, h)) == r
    ensures HL.Get(Prevotes(votes, r, h), r, PRECOMMIT) == Some(L.New(1, r, PRECOMMIT, VALS))
  {
    PowerIsOne();
    hide Power.Total, HL.Shaped;
    var p := Prevotes(votes, r, h);
    assert HL.Maj(p, r + 1, PREVOTE) == None;
    assert HL.PolFrom(p, r + 1) == HL.PolFrom(p, r) == r;
  }

  /** After the precommit the next round is still without votes. */
  lemma Majority(votes: HL.HeightLedger, r: int, h: Hash)
    requires FreshVotes(votes, r)
    ensures HL.Maj(Precommits(votes, r, h), r, PRECOMMIT) == Some(h) && Unvoted(Precommits(votes, r, h), r + 1)
    ensures NoneAbove(Precommits(votes, r, h), r + 1)
    ensures HL.Maj(Precommits(votes, r, h), r + 1, PREVOTE) == None
  {
    hide HL.Shaped;
  }

  lemma NextRound(votes: HL.HeightLedger, r: int)
    requires HL.Shaped(votes) && votes.height == 1 && votes.vals == VALS && votes.round == r && Unvoted(votes, r)
    requires NoneAbove(votes, r)
    ensures FreshVotes(HL.SetRound(votes, r + 1), r)
    ensures forall k :: k <= r ==> HL.Maj(HL.SetRound(votes, r + 1), k, PREVOTE) == HL.Maj(votes, k, PREVOTE)
  {
    hide HL.Shaped, HL.NewRound;
  }

  // ------------------------------------------------------- a round of the validator

  /** The validator at the start of a round, without a lock. */
  ghost predicate Ready(s: Node, r: int) {
    && s.self == KEY && s.state == STATE && s.status.Running? && r >= 0
    && s.height == 1 && s.round == r && s.step == PROPOSE && FreshVotes(s.votes, r)
    && s.proposal.None? && s.proposalBlock.None? && s.lockedBlock.None?
  }

  ghost function Proposed(s: Node, r: int, h: Hash): Node {
    s.(proposal := Some(Proposal(1, r, -1, h)), proposalHash := h)
  }

  ghost function Prevoted(s: Node, r: int, h: Hash): Node {
    Proposed(s, r, h).(proposalBlock := Some(BlockOf(h)), step := PREVOTED, sent := s.sent + [VoteFor(r, PREVOTE, h)])
  }

  ghost function Precommitted(s: Node, r: int, h: Hash): Node
    requires r in s.votes.rounds
  {
    Prevoted(s, r, h).(votes := Prevotes(s.votes, r, h), step := PRECOMMITTED,
                       lockedRound := r, lockedBlock := Some(BlockOf(h)),
                       sent := s.sent + [VoteFor(r, PREVOTE, h)] + [VoteFor(r, PRECOMMIT, h)])
  }

  ghost function Committing(s: Node, r: int, h: Hash): Node
    requires r in s.votes.rounds
  {
    Precommitted(s, r, h).(votes := Precommits(s.votes, r, h), step := COMMIT, commitRound := r)
  }

  lemma StepPropose(s: Node, r: int, h: Hash, signed: Signatures)
    requires Ready(s, r)
    ensures Handle(s, CONFIG, W(signed, true), ProposalMsg(Proposal(1, r, -1, h))) == Proposed(s, r, h)
  {
    hide HL.Shaped, Unvoted, NoneAbove;
  }

  lemma StepPrevote(s: Node, r: int, h: Hash, signed: Signatures)
    requires Ready(s, r) && h != NIL
    ensures Handle(Proposed(s, r, h), CONFIG, W(signed, true), BlockMsg(BlockOf(h))) == Prevoted(s, r, h)
  {
    hide HL.Shaped, Unvoted, NoneAbove, Chain.Validate, IndexOf, HL.Maj, BlockOf;
    BlockIsValid(signed, h);
    Places();
  }

  lemma StepPrecommit(s: Node, r: int, h: Hash, signed: Signatures)
    requires Ready(s, r) && h != NIL && (KEY, VoteFor(r, PREVOTE, h)) in signed
    ensures Handle(Prevoted(s, r, h), CONFIG, W(signed, true), VoteMsg(VoteFor(r, PREVOTE, h), 0)) == Precommitted(s, r, h)
  {
    VoteCounted(s.votes, signed, r, PREVOTE, h);
    Polka(s.votes, r, h);
    BlockIsValid(signed, h);
    Places();
    hide HL.Shaped, Unvoted, NoneAbove, Chain.Validate, IndexOf, HL.Maj, BlockOf, HL.AddVote, HL.HasAny, HL.PolRound;
    hide HL.Put, Prevotes, HL.Get;
  }

  lemma ShapedVotes(votes: HL.HeightLedger, r: int, h: Hash)
    requires FreshVotes(votes, r)
    ensures HL.Shaped(Prevotes(votes, r, h)) && HL.Shaped(Precommits(votes, r, h))
  {
    hide HL.Shaped, HL.NewRound;
    ShapedPut(votes, r, PREVOTE, One(r, PREVOTE, h));
    ShapedPut(Prevotes(votes, r, h), r, PRECOMMIT, One(r, PRECOMMIT, h));
  }

  /** The precommit starts the commit. */
  lemma StepCommit(s: Node, r: int, h: Hash, signed: Signatures, commitOk: bool)
    requires Ready(s, r) && h != NIL && (KEY, VoteFor(r, PRECOMMIT, h)) in signed
    ensures HL.Shaped(Precommitted(s, r, h).votes) && HL.Shaped(Committing(s, r, h).votes)
    ensures Handle(Precommitted(s, r, h), CONFIG, W(signed, commitOk), VoteMsg(VoteFor(r, PRECOMMIT, h), 0))
            == FinalizeCommit(Committing(s, r, h), CONFIG, W(signed, commitOk), 1)
  {
    ShapedVotes(s.votes, r, h);
    Polka(s.votes, r, h);
    VoteCounted(Prevotes(s.votes, r, h), signed, r, PRECOMMIT, h);
    Majority(s.votes, r, h);
    BlockIsValid(signed, h);
    hide HL.Shaped, Unvoted, NoneAbove, Chain.Validate, HL.Maj, BlockOf, HL.AddVote, HL.HasAny, HL.PolRound;
    hide HL.Put, Prevotes, HL.Get, FinalizeCommit, L.HasAll;
    var s1 := Precommitted(s, r, h).(votes := Precommits(s.votes, r, h));
    hide Precommits;
    CommitRound(s1, r, h, W(signed, commitOk));
  }

  /** A counted precommit of the round whose precommit step was entered. */
  lemma CommitRound(s: Node, r: int, h: Hash, w: World)
    requires HL.Shaped(s.votes) && s.status.Running? && s.height == 1 && s.round == r && s.step == PRECOMMITTED
    requires HL.Maj(s.votes, r, PRECOMMIT) == Some(h) && h != NIL
    requires s.proposalHash == h && s.proposalBlock == s.lockedBlock && Chain.HashesTo(s.lockedBlock, h)
    ensures AddedPrecommit(s, CONFIG, w, r) == FinalizeCommit(s.(step := COMMIT, commitRound := r), CONFIG, w, 1)
  {
    hide HL.Shaped, HL.Maj, HL.Get, FinalizeCommit, L.HasAll, HL.HasAny;
  }

  /** The block is committed. */
  lemma Finalized(s: Node, r: int, h: Hash, signed: Signatures)
    requires HL.Shaped(s.votes) && s.status.Running? && s.height == 1 && s.step == COMMIT && s.commitRound == r >= 0
    requires HL.Maj(s.votes, r, PRECOMMIT) == Some(h) && h != NIL
    requires s.state == STATE && s.proposalBlock == Some(BlockOf(h))
    ensures var s' := FinalizeCommit(s, CONFIG, W(signed, true), 1);
      && s'.height == 2 && s'.committed == s.committed[1 := h]
      && s'.dropped == s.dropped && s'.sent == s.sent && s'.self == s.self
  {
    BlockIsValid(signed, h);
    hide HL.Shaped, HL.Maj, HL.Get, Chain.Validate, HL.New;
  }

  /**
   The write fails: the lock is gone although no polka speaks against it, and the
   validator is ready for the next round at the same height.
   */
  lemma Dropped(s: Node, r: int, h: Hash, signed: Signatures)
    requires Ready(s, r) && h != NIL
    ensures HL.Shaped(Committing(s, r, h).votes)
    ensures var s' := FinalizeCommit(Committing(s, r, h), CONFIG, W(signed, false), 1);
      && Ready(s', r + 1) && s'.dropped && s'.committed == s.committed && s'.sent == Committing(s, r, h).sent
      && Holds(Committing(s, r, h), h, r) && !Holds(s', h, r) && !Superseded(s'.votes, r, s'.round, h)
  {
    ShapedVotes(s.votes, r, h);
    Majority(s.votes, r, h);
    BlockIsValid(signed, h);
    var votes := Precommits(s.votes, r, h);
    NextRound(votes, r + 1);
    NoPolka(HL.SetRound(votes, r + 2), r, h);
    hide HL.Shaped, Unvoted, NoneAbove, HL.Maj, BlockOf, HL.SetRound, Precommits, FinalizeCommit, Chain.Validate;
    hide Superseded;
    RoundAfter(Committing(s, r, h), r, h, signed);
  }

  lemma NoPolka(votes: HL.HeightLedger, r: int, h: Hash)
    requires HL.Maj(votes, r + 1, PREVOTE).None?
    ensures !Superseded(votes, r, r + 1, h)
  {
    hide HL.Maj;
  }

  /** What a failed write leads to. */
  lemma RoundAfter(s: Node, r: int, h: Hash, signed: Signatures)
    requires HL.Shaped(s.votes) && s.status.Running? && s.height == 1 && s.step == COMMIT
    requires s.commitRound == r == s.round >= 0 && s.votes.round == r + 1
    requires HL.Maj(s.votes, r, PRECOMMIT) == Some(h) && Chain.HashesTo(s.proposalBlock, h)
    requires Chain.Validate(s.state, signed, s.proposalBlock.value).Accept?
    ensures FinalizeCommit(s, CONFIG, W(signed, false), 1)
            == s.(votes := HL.SetRound(s.votes, r + 2), round := r + 1, step := PROPOSE, dropped := true,
                  proposal := None, proposalBlock := None, proposalHash := NIL, lockedRound := 0, lockedBlock := None,
                  timeouts := s.timeouts + {Timeout(1, r + 1, PROPOSE)})
  {
    hide HL.Shaped, HL.Maj, HL.SetRound, Chain.Validate;
  }

  // ------------------------------------------------------------------ the observer

  ghost function Watching(h: Hash): Node {
    var s := Start(OBSERVER, STATE);
    s.(votes := HL.SetRound(HL.Put(s.votes, 0, PRECOMMIT, One(0, PRECOMMIT, h)), 1), step := COMMIT, commitRound := 0,
       proposalHash := h, timeouts := s.timeouts + {Timeout(1, 0, PROPOSE)})
  }

  ghost function Seen(h: Hash): Node { Watching(h).(proposalBlock := Some(BlockOf(h))) }

  lemma WatchedVotes(h: Hash, signed: Signatures)
    requires (KEY, VoteFor(0, PRECOMMIT, h)) in signed
    ensures var v0 := HL.New(1, VALS);
      var v := HL.Put(v0, 0, PRECOMMIT, One(0, PRECOMMIT, h));
      && HL.Shaped(v0) && HL.Shaped(v)
      && HL.AddVote(v0, signed, VoteFor(0, PRECOMMIT, h), 0) == HL.Added(v, true, L.NoError, false)
      && HL.Maj(v, 0, PRECOMMIT) == Some(h) && v.round == 0
      && HL.Maj(HL.SetRound(v, 1), 0, PRECOMMIT) == Some(h) && HL.Maj(HL.SetRound(v, 1), 0, PREVOTE) == None
  {
    VoteCounted(HL.New(1, VALS), signed, 0, PRECOMMIT, h);
    hide HL.AddVote, HL.Shaped;
  }

  lemma StepWatch(h: Hash, signed: Signatures)
    requires h != NIL && (KEY, VoteFor(0, PRECOMMIT, h)) in signed
    ensures HL.Shaped(Start(OBSERVER, STATE).votes)
    ensures Handle(Start(OBSERVER, STATE), CONFIG, W(signed, true), VoteMsg(VoteFor(0, PRECOMMIT, h), 0)) == Watching(h)
  {
    WatchedVotes(h, signed);
    hide HL.AddVote, HL.Shaped, HL.Maj, HL.New, HL.SetRound, HL.Put, HL.Get, L.HasAll, One;
    var s := Start(OBSERVER, STATE);
    WatchEnters(s.(votes := HL.Put(s.votes, 0, PRECOMMIT, One(0, PRECOMMIT, h))), W(signed, true));
    hide EnterNewRound, EnterPrecommit;
  }

  /** Round 0 is entered up to its precommit step; an observer signs nothing. */
  lemma WatchEnters(s: Node, w: World)
    requires s == Start(OBSERVER, STATE).(votes := s.votes) && HL.Shaped(s.votes) && s.votes.round == 0
    requires HL.Maj(HL.SetRound(s.votes, 1), 0, PREVOTE).None?
    ensures EnterPrecommit(EnterNewRound(s, CONFIG, w, 1, 0), w, 1, 0)
            == s.(votes := HL.SetRound(s.votes, 1), step := PRECOMMITTED, timeouts := s.timeouts + {Timeout(1, 0, PROPOSE)})
  {
    Places();
    hide HL.Shaped, HL.Maj, HL.New, HL.SetRound, IndexOf;
  }

  lemma StepSee(h: Hash, signed: Signatures)
    requires h != NIL && (KEY, VoteFor(0, PRECOMMIT, h)) in signed
    ensures HL.Shaped(Watching(h).votes)
    ensures var s := Handle(Watching(h), CONFIG, W(signed, true), BlockMsg(BlockOf(h)));
      s.committed == map[1 := h] && s.height == 2 && s.sent == [] && s.self == OBSERVER && !s.dropped
  {
    WatchedVotes(h, signed);
    BlockIsValid(signed, h);
    hide HL.AddVote, HL.Shaped, HL.Maj, HL.New, HL.SetRound, HL.Put, HL.Get, BlockOf, FinalizeCommit;
    BlockSeen(Watching(h), 0, h, signed);
    Finalized(Seen(h), 0, h, signed);
  }

  /** The block that a commit waits for. */
  lemma BlockSeen(s: Node, r: int, h: Hash, signed: Signatures)
    requires HL.Shaped(s.votes) && s.status.Running? && s.height == 1 && s.step == COMMIT && s.commitRound == r
    requires HL.Maj(s.votes, r, PRECOMMIT) == Some(h) && h != NIL && s.proposalBlock.None? && s.proposalHash == h
    ensures Handle(s, CONFIG, W(signed, true), BlockMsg(BlockOf(h)))
            == FinalizeCommit(s.(proposalBlock := Some(BlockOf(h))), CONFIG, W(signed, true), 1)
  {
    BlockIsValid(signed, h);
    hide HL.Shaped, HL.Maj, BlockOf, FinalizeCommit;
  }

  // -------------------------------------------------------------------- the runs

  ghost function Two(s: Node, o: Node, signed: Signatures): Net { Net(map[KEY := s, OBSERVER := o], signed) }

  ghost function To(a: Address, signed: Signatures, commitOk: bool, e: Event): Step {
    Deliver(a, CONFIG, W(signed, commitOk), e)
  }

  /** The validator handles a message. */
  lemma KeyStep(s: Node, o: Node, signed: Signatures, commitOk: bool, e: Event, s': Node, signed': Signatures)
    requires HL.Shaped(s.votes) && Handle(s, CONFIG, W(signed, commitOk), e) == s'
    requires e.Tock? ==> e.timeout in s.timeouts
    requires signed' == signed + SignedBy(KEY, s'.sent)
    ensures Next(G(), Two(s, o, signed), To(KEY, signed, commitOk, e), Two(s', o, signed'))
  {
    hide HL.Shaped, Handle;
    assert Two(s, o, signed).nodes[KEY := s'] == Two(s', o, signed').nodes;
  }

  /** The observer handles a message and signs nothing. */
  lemma ObserverStep(s: Node, o: Node, signed: Signatures, e: Event, o': Node)
    requires HL.Shaped(o.votes) && Handle(o, CONFIG, W(signed, true), e) == o'
    requires !e.Tock? && o'.sent == []
    ensures Next(G(), Two(s, o, signed), To(OBSERVER, signed, true, e), Two(s, o', signed))
  {
    hide HL.Shaped, Handle;
    assert Two(s, o, signed).nodes[OBSERVER := o'] == Two(s, o', signed).nodes;
    assert SignedBy(OBSERVER, o'.sent) == {};
  }

  lemma {:induction false} SameValidators(committed: map<int, Hash>, signed: Signatures, h: int)
    ensures ValsAt(Env(signed, VALS, G().execute), committed, h) == VALS
    decreases h
  {
    if h > 1 { SameValidators(committed, signed, h - 1); }
  }

  lemma NobodyFaulty(s: Node, o: Node, signed: Signatures)
    ensures A.FewFaults(G(), Two(s, o, signed))
  {
    var net := Two(s, o, signed);
    PowerIsOne();
    assert A.Faulty(VALS, net) == {};
    Power.EmptyUpto(VALS, 1);
    forall a, h | a in net.nodes && 1 <= h <= net.nodes[a].height
      ensures A.FewFaulty(ValsAt(EnvOf(G(), net), net.nodes[a].committed, h), net)
    {
      SameValidators(net.nodes[a].committed, signed, h);
    }
  }

  /** The validator after the first timeout. */
  ghost function First(): Node {
    Start(KEY, STATE).(step := PROPOSE, votes := HL.SetRound(HL.New(1, VALS), 1),
                       timeouts := {Timeout(1, 0, NEW_HEIGHT), Timeout(1, 0, PROPOSE)})
  }

  lemma StepStart()
    ensures HL.Shaped(Start(KEY, STATE).votes) && Ready(First(), 0)
    ensures Handle(Start(KEY, STATE), CONFIG, W({}, true), Tock(Timeout(1, 0, NEW_HEIGHT))) == First()
  {
    NextRound(HL.New(1, VALS), 0);
    hide HL.SetRound, HL.Maj, Unvoted, NoneAbove;
  }

  /** The votes of a round of the validator, as signatures. */
  ghost function Signs(r: int, kind: int, h: Hash): (Address, Vote) { (KEY, VoteFor(r, kind, h)) }

  lemma SignedSent(votes: seq<Vote>, v: Vote)
    ensures SignedBy(KEY, votes + [v]) == SignedBy(KEY, votes) + {(KEY, v)}
  {
  }

  /** The messages of a round up to the precommit, and the signatures they bring. */
  ghost predicate RoundRun(s: Node, o: Node, r: int, h: Hash, signed: Signatures) {
    var prop, block := ProposalMsg(Proposal(1, r, -1, h)), BlockMsg(BlockOf(h));
    var a := signed + {Signs(r, PREVOTE, h)};
    && Next(G(), Two(s, o, signed), To(KEY, signed, true, prop), Two(Proposed(s, r, h), o, signed))
    && Next(G(), Two(Proposed(s, r, h), o, signed), To(KEY, signed, true, block), Two(Prevoted(s, r, h), o, a))
    && r in s.votes.rounds
    && Next(G(), Two(Prevoted(s, r, h), o, a), To(KEY, a, true, VoteMsg(VoteFor(r, PREVOTE, h), 0)),
            Two(Precommitted(s, r, h), o, a + {Signs(r, PRECOMMIT, h)}))
  }

  lemma RoundRuns(s: Node, o: Node, r: int, h: Hash, signed: Signatures)
    requires Ready(s, r) && h != NIL && SignedBy(KEY, s.sent) <= signed
    ensures RoundRun(s, o, r, h, signed)
    ensures SignedBy(KEY, Precommitted(s, r, h).sent) <= signed + {Signs(r, PREVOTE, h), Signs(r, PRECOMMIT, h)}
  {
    StepPropose(s, r, h, signed);
    StepPrevote(s, r, h, signed);
    var a := signed + {Signs(r, PREVOTE, h)};
    StepPrecommit(s, r, h, a);
    SignedSent(s.sent, VoteFor(r, PREVOTE, h));
    SignedSent(s.sent + [VoteFor(r, PREVOTE, h)], VoteFor(r, PRECOMMIT, h));
    hide Handle, HL.Shaped, Next, SignedBy, BlockOf, Unvoted, NoneAbove;
    KeyStep(s, o, signed, true, ProposalMsg(Proposal(1, r, -1, h)), Proposed(s, r, h), signed);
    KeyStep(Proposed(s, r, h), o, signed, true, BlockMsg(BlockOf(h)), Prevoted(s, r, h), a);
    KeyStep(Prevoted(s, r, h), o, a, true, VoteMsg(VoteFor(r, PREVOTE, h), 0), Precommitted(s, r, h),
            a + {Signs(r, PRECOMMIT, h)});
  }

  /** Some run ends in a state. */
  ghost predicate Reachable(net: Net) {
    exists nets, steps :: Run(G(), nets, steps) && nets[|steps|] == net
  }

  lemma OneMore(net: Net, step: Step, net': Net)
    requires Reachable(net) && Next(G(), net, step, net')
    ensures Reachable(net')
  {
    hide Next, Init;
    var nets, steps :| Run(G(), nets, steps) && nets[|steps|] == net;
    var more, taken := nets + [net'], steps + [step];
    assert forall i :: 0 <= i < |steps| ==> Next(G(), nets[i], steps[i], nets[i + 1]);
    assert Run(G(), more, taken) && more[|taken|] == net';
  }

  lemma StartReached()
    ensures Reachable(Two(Start(KEY, STATE), Start(OBSERVER, STATE), {}))
  {
    hide HL.New;
    var net := Two(Start(KEY, STATE), Start(OBSERVER, STATE), {});
    var steps: seq<Step> := [];
    assert Run(G(), [net], steps);
  }

  lemma RoundReached(s: Node, o: Node, r: int, h: Hash, signed: Signatures)
    requires Reachable(Two(s, o, signed)) && Ready(s, r) && h != NIL && SignedBy(KEY, s.sent) <= signed
    ensures Reachable(Two(Precommitted(s, r, h), o, signed + {Signs(r, PREVOTE, h)} + {Signs(r, PRECOMMIT, h)}))
  {
    RoundRuns(s, o, r, h, signed);
    hide Reachable, Next, Ready, Proposed, Prevoted, Precommitted, BlockOf, To;
    var a := signed + {Signs(r, PREVOTE, h)};
    OneMore(Two(s, o, signed), To(KEY, signed, true, ProposalMsg(Proposal(1, r, -1, h))), Two(Proposed(s, r, h), o, signed));
    OneMore(Two(Proposed(s, r, h), o, signed), To(KEY, signed, true, BlockMsg(BlockOf(h))), Two(Prevoted(s, r, h), o, a));
    OneMore(Two(Prevoted(s, r, h), o, a), To(KEY, a, true, VoteMsg(VoteFor(r, PREVOTE, h), 0)),
            Two(Precommitted(s, r, h), o, a + {Signs(r, PRECOMMIT, h)}));
  }

  lemma CommittingOk(s: Node, r: int, h: Hash, signed: Signatures)
    requires Ready(s, r) && h != NIL
    ensures HL.Shaped(Committing(s, r, h).votes)
    ensures var s' := FinalizeCommit(Committing(s, r, h), CONFIG, W(signed, true), 1);
      && s'.committed == s.committed[1 := h] && s'.height == 2 && s'.dropped == s.dropped
      && s'.sent == Committing(s, r, h).sent
  {
    ShapedVotes(s.votes, r, h);
    Majority(s.votes, r, h);
    hide HL.Shaped, Unvoted, NoneAbove, HL.Maj, BlockOf, Precommits, FinalizeCommit;
    Finalized(Committing(s, r, h), r, h, signed);
  }

  /** The precommit comes back to the validator, and its write succeeds or fails. */
  lemma CommitReached(s: Node, o: Node, r: int, h: Hash, signed: Signatures, ok: bool)
    requires Ready(s, r) && h != NIL && Reachable(Two(Precommitted(s, r, h), o, signed))
    requires SignedBy(KEY, Precommitted(s, r, h).sent) <= signed && Signs(r, PRECOMMIT, h) in signed
    ensures HL.Shaped(Committing(s, r, h).votes)
    ensures Reachable(Two(FinalizeCommit(Committing(s, r, h), CONFIG, W(signed, ok), 1), o, signed))
  {
    StepCommit(s, r, h, signed, ok);
    if ok { CommittingOk(s, r, h, signed); } else { Dropped(s, r, h, signed); }
    hide Reachable, Next, Ready, Precommitted, Committing, FinalizeCommit, Handle, HL.Shaped, SignedBy;
    var s' := FinalizeCommit(Committing(s, r, h), CONFIG, W(signed, ok), 1);
    var e := VoteMsg(VoteFor(r, PRECOMMIT, h), 0);
    KeyStep(Precommitted(s, r, h), o, signed, ok, e, s', signed);
    OneMore(Two(Precommitted(s, r, h), o, signed), To(KEY, signed, ok, e), Two(s', o, signed));
  }

  /** The validator has precommitted a block in round 0. */
  ghost function Locked(h: Hash): Node
    requires 0 in First().votes.rounds
  {
    Precommitted(First(), 0, h)
  }

  ghost function Both(r: int, h: Hash): Signatures { {Signs(r, PREVOTE, h)} + {Signs(r, PRECOMMIT, h)} }

  lemma FirstReached()
    ensures Ready(First(), 0) && Reachable(Two(First(), Start(OBSERVER, STATE), {})) && SignedBy(KEY, First().sent) == {}
  {
    StepStart();
    StartReached();
    hide Reachable, Next, Handle, HL.Shaped, HL.SetRound, HL.New, Ready;
    var s, o, tock := Start(KEY, STATE), Start(OBSERVER, STATE), Tock(Timeout(1, 0, NEW_HEIGHT));
    KeyStep(s, o, {}, true, tock, First(), {});
    OneMore(Two(s, o, {}), To(KEY, {}, true, tock), Two(First(), o, {}));
  }

  lemma LockedReached(h: Hash)
    requires h != NIL
    ensures Ready(First(), 0)
    ensures Reachable(Two(Locked(h), Start(OBSERVER, STATE), Both(0, h)))
    ensures SignedBy(KEY, Locked(h).sent) <= Both(0, h)
  {
    FirstReached();
    hide Reachable, HL.Shaped, HL.NewRound, First, Start, Precommitted, RoundRun;
    RoundRuns(First(), Start(OBSERVER, STATE), 0, h, {});
    RoundReached(First(), Start(OBSERVER, STATE), 0, h, {});
    assert {} + {Signs(0, PREVOTE, h)} + {Signs(0, PRECOMMIT, h)} == Both(0, h);
  }

  /** All that `Agreement` asks for can be met by a run that commits a block. */
  lemma CommitIsReachable(h: Hash) returns (net: Net)
    requires h != NIL
    ensures Reachable(net) && A.FewFaults(G(), net) && A.WritesOk(net)
    ensures KEY in net.nodes && net.nodes[KEY].committed == map[1 := h]
  {
    hide Reachable, FinalizeCommit, HL.Shaped, HL.SetRound, HL.New, A.FewFaults;
    LockedReached(h);
    var o, signed := Start(OBSERVER, STATE), Both(0, h);
    CommitReached(First(), o, 0, h, signed, true);
    CommittingOk(First(), 0, h, signed);
    var s := FinalizeCommit(Committing(First(), 0, h), CONFIG, W(signed, true), 1);
    NobodyFaulty(s, o, signed);
    net := Two(s, o, signed);
  }

  /** The observer commits on the validator's precommit and the block. */
  lemma ObserverCommits(s: Node, h: Hash, signed: Signatures) returns (o: Node)
    requires Reachable(Two(s, Start(OBSERVER, STATE), signed)) && h != NIL && Signs(0, PRECOMMIT, h) in signed
    ensures Reachable(Two(s, o, signed)) && o.committed == map[1 := h]
  {
    var o0 := Start(OBSERVER, STATE);
    var vote, block := VoteMsg(VoteFor(0, PRECOMMIT, h), 0), BlockMsg(BlockOf(h));
    StepWatch(h, signed);
    StepSee(h, signed);
    hide Reachable, Next, Handle, HL.Shaped, HL.SetRound, HL.New, HL.Put, BlockOf;
    ObserverStep(s, o0, signed, vote, Watching(h));
    OneMore(Two(s, o0, signed), To(OBSERVER, signed, true, vote), Two(s, Watching(h), signed));
    o := Handle(Watching(h), CONFIG, W(signed, true), block);
    ObserverStep(s, Watching(h), signed, block, o);
    OneMore(Two(s, Watching(h), signed), To(OBSERVER, signed, true, block), Two(s, o, signed));
  }

  /** The validator whose write failed commits another block in the next round. */
  lemma AnotherBlock(s: Node, o: Node, other: Hash, signed: Signatures) returns (s': Node, signed': Signatures)
    requires Ready(s, 1) && s.committed == map[] && other != NIL
    requires Reachable(Two(s, o, signed)) && SignedBy(KEY, s.sent) <= signed
    ensures Reachable(Two(s', o, signed')) && s'.committed == map[1 := other]
  {
    hide Reachable, FinalizeCommit, HL.Shaped, HL.NewRound, Precommitted, Committing, RoundRun;
    signed' := signed + {Signs(1, PREVOTE, other)} + {Signs(1, PRECOMMIT, other)};
    RoundRuns(s, o, 1, other, signed);
    RoundReached(s, o, 1, other, signed);
    CommitReached(s, o, 1, other, signed', true);
    CommittingOk(s, 1, other, signed');
    s' := FinalizeCommit(Committing(s, 1, other), CONFIG, W(signed', true), 1);
  }

  /** One failed write, and two honest nodes commit different blocks although nobody is faulty. */
  lemma FailedWriteDisagrees(h: Hash, other: Hash) returns (net: Net)
    requires h != NIL && other != NIL
    ensures Reachable(net) && A.FewFaults(G(), net)
    ensures KEY in net.nodes && OBSERVER in net.nodes
    ensures net.nodes[OBSERVER].committed == map[1 := h] && net.nodes[KEY].committed == map[1 := other]
  {
    hide Reachable, FinalizeCommit, HL.Shaped, HL.SetRound, HL.New, A.FewFaults;
    var signed := Both(0, h);
    LockedReached(h);
    var o := ObserverCommits(Locked(h), h, signed);
    CommitReached(First(), o, 0, h, signed, false);
    Dropped(First(), 0, h, signed);
    var s := FinalizeCommit(Committing(First(), 0, h), CONFIG, W(signed, false), 1);
    var s', signed' := AnotherBlock(s, o, other, signed);
    NobodyFaulty(s', o, signed');
    net := Two(s', o, signed');
  }
}
