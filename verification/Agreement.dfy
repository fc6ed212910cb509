/**
 What holds over every run of the network: agreement, single voting, no step back,
 the lock rule, and no sanity panic.
 */
module Agreement {
  import opened Types
  import opened Node
  import opened Invariant
  import opened Network
  import NodeInvariant
  import HL = HeightLedger
  import L = Ledger
  import Power
  import Chain
  import C = Commits

  // -------------------------------------------------------------- assumptions

  /** The validators that are not honest nodes. */
  ghost function Faulty(vals: Validators, net: Net): set<int> {
    set i | 0 <= i < |vals| && vals[i].address !in net.nodes
  }

  ghost predicate FewFaulty(vals: Validators, net: Net) {
    3 * Power.Of(vals, Faulty(vals, net)) < Power.Total(vals)
  }

  /** At every height an honest node reached, less than a third of the power is faulty. */
  ghost predicate FewFaults(g: Genesis, net: Net) {
    forall a, h :: a in net.nodes && 1 <= h <= net.nodes[a].height ==>
      FewFaulty(ValsAt(EnvOf(g, net), net.nodes[a].committed, h), net)
  }

  /** Every local block write succeeded so far. */
  ghost predicate WritesOk(net: Net) {
    forall a :: a in net.nodes ==> !net.nodes[a].dropped
  }

  // ------------------------------------------------------- one state, one height

  /** Two votes a node sent for one height, round and kind are one vote. */
  lemma SentOnce(s: Node, env: Env, v: Vote, u: Vote)
    requires Base(s, env) && v in s.sent && u in s.sent
    requires v.height == u.height && v.round == u.round && v.kind == u.kind
    ensures v == u
  {
    hide Core, HL.Valid, LockOk, LockValid, LastOk, History;
    var i :| 0 <= i < |s.sent| && s.sent[i] == v;
    var j :| 0 <= j < |s.sent| && s.sent[j] == u;
  }

  /** Two quorums contain votes of one honest node. */
  lemma SharedHonest(g: Genesis, net: Net, committed: map<int, Hash>, h: int,
                     r: int, kind: int, hash: Hash, r': int, kind': int, hash': Hash)
      returns (a: Address, v: Vote, v': Vote)
    requires OwnVotes(net) && FewFaulty(ValsAt(EnvOf(g, net), committed, h), net)
    requires Signed(EnvOf(g, net), committed, h, r, kind, hash)
    requires Signed(EnvOf(g, net), committed, h, r', kind', hash')
    ensures a in net.nodes && v in net.nodes[a].sent && v' in net.nodes[a].sent
    ensures v.height == h && v.round == r && v.kind == kind && v.hash == hash
    ensures v'.height == h && v'.round == r' && v'.kind == kind' && v'.hash == hash'
  {
    var vals := ValsAt(EnvOf(g, net), committed, h);
    hide ValsAt, Power.Of, Power.Total;
    var i := Power.QuorumsShareCorrect(vals, HL.Signers(net.signed, vals, h, r, kind, hash),
                                       HL.Signers(net.signed, vals, h, r', kind', hash'), Faulty(vals, net));
    a := vals[i].address;
    assert HL.HasSigned(net.signed, vals, h, r, kind, hash, i) && HL.HasSigned(net.signed, vals, h, r', kind', hash', i);
    v :| (a, v) in net.signed && v.height == h && v.round == r && v.kind == kind && v.hash == hash;
    v' :| (a, v') in net.signed && v'.height == h && v'.round == r' && v'.kind == kind' && v'.hash == hash';
  }

  /** All honest nodes that reached a height have the same validators there. */
  ghost predicate SameValidators(g: Genesis, net: Net, committed: map<int, Hash>, h: int) {
    && FewFaulty(ValsAt(EnvOf(g, net), committed, h), net)
    && forall a :: a in net.nodes && h <= net.nodes[a].height ==>
         ValsAt(EnvOf(g, net), net.nodes[a].committed, h) == ValsAt(EnvOf(g, net), committed, h)
  }

  /** A vote is sent at a height the node has reached. */
  lemma SentBelow(s: Node, env: Env, v: Vote)
    requires Base(s, env) && v in s.sent
    ensures v.height <= s.height
  {
    hide Core, HL.Valid, LockOk, LockValid, LastOk, History;
  }

  /** One round cannot have quorums of one kind for two values. */
  lemma OneQuorum(g: Genesis, net: Net, committed: map<int, Hash>, h: int, r: int, kind: int, hash: Hash, hash': Hash)
    requires NetInv(g, net) && SameValidators(g, net, committed, h)
    requires Signed(EnvOf(g, net), committed, h, r, kind, hash) && Signed(EnvOf(g, net), committed, h, r, kind, hash')
    ensures hash == hash'
  {
    hide Base, ValsAt, Signed, FewFaulty;
    var a, v, v' := SharedHonest(g, net, committed, h, r, kind, hash, r, kind, hash');
    SentOnce(net.nodes[a], EnvOf(g, net), v, v');
  }

  /** A precommit quorum for a block has a polka for it behind it. */
  lemma PolkaBehind(g: Genesis, net: Net, committed: map<int, Hash>, h: int, r: int, hash: Hash)
    requires NetInv(g, net) && SameValidators(g, net, committed, h) && hash != NIL
    requires Signed(EnvOf(g, net), committed, h, r, PRECOMMIT, hash)
    ensures Signed(EnvOf(g, net), committed, h, r, PREVOTE, hash)
  {
    hide ValsAt, Signed, FewFaulty, Core, HL.Valid, LockOk, LockValid, LastOk, SentOk, TimeoutsOk;
    var a, v, _ := SharedHonest(g, net, committed, h, r, PRECOMMIT, hash, r, PRECOMMIT, hash);
    SentBelow(net.nodes[a], EnvOf(g, net), v);
    SignedSame(EnvOf(g, net), net.nodes[a].committed, committed, h, r, PREVOTE, hash);
  }

  /** After a precommit quorum for a block, no later round has a polka for anything else. */
  lemma {:induction false} NoLaterPolka(g: Genesis, net: Net, committed: map<int, Hash>, h: int, r: int,
                                        hash: Hash, r': int, other: Hash)
    requires NetInv(g, net) && SameValidators(g, net, committed, h) && WritesOk(net) && hash != NIL
    requires Signed(EnvOf(g, net), committed, h, r, PRECOMMIT, hash)
    requires r < r' && Signed(EnvOf(g, net), committed, h, r', PREVOTE, other)
    ensures other == hash
    decreases r' - r
  {
    if other != hash {
      hide ValsAt, Signed, FewFaulty, Base, History;
      var a, v, u := SharedHonest(g, net, committed, h, r, PRECOMMIT, hash, r', PREVOTE, other);
      SentBelow(net.nodes[a], EnvOf(g, net), v);
      var s, another := BetweenPolka(net.nodes[a], EnvOf(g, net), v, u);
      SignedSame(EnvOf(g, net), net.nodes[a].committed, committed, h, s, PREVOTE, another);
      NoLaterPolka(g, net, committed, h, r, hash, s, another);
    }
  }

  /** An honest prevote against an own precommit points to a polka in between. */
  lemma BetweenPolka(n: Node, env: Env, v: Vote, u: Vote) returns (s: int, another: Hash)
    requires Base(n, env) && !n.dropped && v in n.sent && u in n.sent
    requires Locking(v) && u.kind == PREVOTE && u.height == v.height && v.round < u.round && u.hash != v.hash
    ensures v.round < s < u.round && another != v.hash && Signed(env, n.committed, v.height, s, PREVOTE, another)
  {
    hide ValsAt, Signed, Core, HL.Valid, LockOk, LockValid, LastOk, SentOk, TimeoutsOk, Remembered, Backed, Decided;
    assert Released(env, n.committed, v.height, v.round, u.round, v.hash);
    s, another :| v.round < s < u.round && another != v.hash && Signed(env, n.committed, v.height, s, PREVOTE, another);
  }

  /** Two precommit quorums of one height, in any rounds, are for one block. */
  lemma OneDecision(g: Genesis, net: Net, committed: map<int, Hash>, h: int, r: int, hash: Hash, r': int, hash': Hash)
    requires NetInv(g, net) && SameValidators(g, net, committed, h) && WritesOk(net) && hash != NIL && hash' != NIL
    requires Signed(EnvOf(g, net), committed, h, r, PRECOMMIT, hash)
    requires Signed(EnvOf(g, net), committed, h, r', PRECOMMIT, hash')
    ensures hash == hash'
  {
    hide ValsAt, Signed, FewFaulty, Base;
    PolkaBehind(g, net, committed, h, r, hash);
    PolkaBehind(g, net, committed, h, r', hash');
    if r < r' {
      NoLaterPolka(g, net, committed, h, r, hash, r', hash');
    } else if r' < r {
      NoLaterPolka(g, net, committed, h, r', hash', r, hash);
    } else {
      OneQuorum(g, net, committed, h, r, PRECOMMIT, hash, hash');
    }
  }

  // ----------------------------------------------------------- one state, all heights

  ghost predicate AgreeAt(net: Net, h: int) {
    forall a, b :: a in net.nodes && b in net.nodes && h in net.nodes[a].committed && h in net.nodes[b].committed ==>
      net.nodes[a].committed[h] == net.nodes[b].committed[h]
  }

  /** Agreement below a height gives all nodes that reached it the same validators. */
  lemma AgreedValidators(g: Genesis, net: Net, a: Address, h: int)
    requires NetInv(g, net) && FewFaults(g, net) && forall k :: 1 <= k < h ==> AgreeAt(net, k)
    requires a in net.nodes && 1 <= h <= net.nodes[a].height
    ensures SameValidators(g, net, net.nodes[a].committed, h)
  {
    hide ValsAt, FewFaulty, Core, HL.Valid, LockOk, LockValid, LastOk, SentOk, TimeoutsOk, Remembered;
    hide Justified, Backed, Decided;
    forall b | b in net.nodes && h <= net.nodes[b].height
      ensures ValsAt(EnvOf(g, net), net.nodes[b].committed, h) == ValsAt(EnvOf(g, net), net.nodes[a].committed, h)
    {
      assert forall k :: 1 <= k < h ==> AgreeAt(net, k) && k in net.nodes[a].committed && k in net.nodes[b].committed;
      ValsDependBelow(EnvOf(g, net), net.nodes[b].committed, net.nodes[a].committed, h);
    }
  }

  /** Agreement at a height, from agreement below it. */
  lemma AgreeNext(g: Genesis, net: Net, h: int)
    requires NetInv(g, net) && FewFaults(g, net) && WritesOk(net) && h >= 1
    requires forall k :: 1 <= k < h ==> AgreeAt(net, k)
    ensures AgreeAt(net, h)
  {
    hide ValsAt, FewFaulty, Base, Signed, FewFaults;
    forall a, b | a in net.nodes && b in net.nodes && h in net.nodes[a].committed && h in net.nodes[b].committed
      ensures net.nodes[a].committed[h] == net.nodes[b].committed[h]
    {
      var r := DecidedIn(net.nodes[a], EnvOf(g, net), h);
      var r' := DecidedIn(net.nodes[b], EnvOf(g, net), h);
      AgreedValidators(g, net, a, h);
      SignedSame(EnvOf(g, net), net.nodes[b].committed, net.nodes[a].committed, h, r', PRECOMMIT, net.nodes[b].committed[h]);
      OneDecision(g, net, net.nodes[a].committed, h, r, net.nodes[a].committed[h], r', net.nodes[b].committed[h]);
    }
  }

  lemma DecidedIn(s: Node, env: Env, h: int) returns (r: int)
    requires Base(s, env) && h in s.committed
    ensures 1 <= h < s.height && s.committed[h] != NIL && Signed(env, s.committed, h, r, PRECOMMIT, s.committed[h])
  {
    hide ValsAt, Signed, Core, HL.Valid, LockOk, LockValid, LastOk, SentOk, TimeoutsOk, Remembered, Justified, Backed;
    r :| Signed(env, s.committed, h, r, PRECOMMIT, s.committed[h]);
  }

  lemma {:induction false} AgreeUpto(g: Genesis, net: Net, h: int)
    requires NetInv(g, net) && FewFaults(g, net) && WritesOk(net)
    ensures forall k :: 1 <= k <= h ==> AgreeAt(net, k)
    decreases h
  {
    hide NetInv, FewFaults, WritesOk, AgreeAt;
    if h >= 1 {
      AgreeUpto(g, net, h - 1);
      AgreeNext(g, net, h);
    }
  }

  // ------------------------------------------------------------------ whole runs

  lemma {:induction false} RunMoves(g: Genesis, nets: seq<Net>, steps: seq<Step>, i: nat, j: nat, a: Address)
    requires Run(g, nets, steps) && i <= j <= |steps| && a in nets[i].nodes
    ensures a in nets[j].nodes && Moves(nets[i].nodes[a], nets[j].nodes[a])
    decreases j
  {
    hide Moves, Next, Init, NetInv;
    if i == j {
      MovesRefl(nets[i].nodes[a]);
    } else {
      RunMoves(g, nets, steps, i, j - 1, a);
      RunOk(g, nets, steps, j - 1);
      assert Next(g, nets[j - 1], steps[j - 1], nets[j - 1 + 1]);
      NextOk(g, nets[j - 1], steps[j - 1], nets[j]);
      MovesTrans(nets[i].nodes[a], nets[j - 1].nodes[a], nets[j].nodes[a]);
    }
  }

  /**
   Agreement. With less than a third of the power faulty at every height reached and all
   local writes succeeding, no run lets two honest nodes commit different blocks at one
   height, whenever they do it.
   */
  lemma Agreement(g: Genesis, nets: seq<Net>, steps: seq<Step>, i: nat, a: Address, j: nat, b: Address, h: int)
    requires Run(g, nets, steps) && i <= |steps| && j <= |steps|
    requires FewFaults(g, nets[|steps|]) && WritesOk(nets[|steps|])
    requires a in nets[i].nodes && h in nets[i].nodes[a].committed
    requires b in nets[j].nodes && h in nets[j].nodes[b].committed
    ensures nets[i].nodes[a].committed[h] == nets[j].nodes[b].committed[h]
  {
    hide Next, Init, Base, FewFaults, WritesOk;
    var n := |steps|;
    RunOk(g, nets, steps, n);
    RunMoves(g, nets, steps, i, n, a);
    RunMoves(g, nets, steps, j, n, b);
    var _ := DecidedIn(nets[n].nodes[a], EnvOf(g, nets[n]), h);
    AgreeUpto(g, nets[n], h);
    assert AgreeAt(nets[n], h);
  }

  /** No equivocation: an honest key never signs two votes of one kind for one height and round. */
  lemma NoEquivocation(g: Genesis, nets: seq<Net>, steps: seq<Step>, i: nat, a: Address, v: Vote, u: Vote)
    requires Run(g, nets, steps) && i <= |steps| && a in nets[i].nodes
    requires (a, v) in nets[i].signed && (a, u) in nets[i].signed
    requires v.height == u.height && v.round == u.round && v.kind == u.kind
    ensures v == u
  {
    hide Next, Init, Base;
    RunOk(g, nets, steps, i);
    SentOnce(nets[i].nodes[a], EnvOf(g, nets[i]), v, u);
  }

  /** Evidence is sound: in no run does evidence of a double vote verify against an honest key. */
  lemma EvidenceIsSound(g: Genesis, nets: seq<Net>, steps: seq<Step>, i: nat, a: Address, v: Vote, u: Vote)
    requires Run(g, nets, steps) && i <= |steps| && a in nets[i].nodes
    ensures !C.EvidenceVerifies(nets[i].signed, a, v, u)
  {
    hide Next, Init;
    if C.EvidenceVerifies(nets[i].signed, a, v, u) { NoEquivocation(g, nets, steps, i, a, v, u); }
  }

  /** Whoever an honest node reports for a double vote, at its own height, is not honest. */
  lemma ReportedIsFaulty(g: Genesis, nets: seq<Net>, steps: seq<Step>, i: nat, a: Address, r: int, kind: int, vote: Vote)
    requires Run(g, nets, steps) && i <= |steps| && a in nets[i].nodes && IsVoteTypeValid(kind)
    requires HL.Get(nets[i].nodes[a].votes, r, kind).Some? && L.Shaped(HL.Get(nets[i].nodes[a].votes, r, kind).value)
    requires L.AddVote(HL.Get(nets[i].nodes[a].votes, r, kind).value, nets[i].signed, vote).err.Conflict?
    ensures vote.address !in nets[i].nodes
  {
    hide Next, Init, Core, TimeoutsOk, SentOk, LockOk, LockValid, LastOk, History, L.AddVote;
    hide L.CanonicalValid, L.BlockValid, L.MajorityValid, L.TrackingBounded;
    RunOk(g, nets, steps, i);
    HL.LedgerOf(nets[i].nodes[a].votes, nets[i].signed, r, kind);
    var l := HL.Get(nets[i].nodes[a].votes, r, kind).value;
    hide HL.Valid;
    C.ConflictsAreProvable(l, nets[i].signed, vote);
    Accused(l, nets[i].signed, vote);
    var err := L.AddVote(l, nets[i].signed, vote).err;
    if vote.address in nets[i].nodes { EvidenceIsSound(g, nets, steps, i, vote.address, err.first, err.second); }
  }

  /** A conflict is reported under the address of the validator. */
  lemma Accused(l: L.Ledger, signed: Signatures, vote: Vote)
    requires L.Valid(l, signed) && L.AddVote(l, signed, vote).err.Conflict?
    ensures 0 <= vote.index < |l.vals| && vote.address == l.vals[vote.index].address
  {
    hide L.AddVote, L.CanonicalValid, L.BlockValid, L.MajorityValid, L.TrackingBounded;
    if !L.Acceptable(l, signed, vote) { L.RejectedVote(l, signed, vote); }
  }

  /**
   A vote is signed on the way into its step: its height, round and step lie after where
   the node was before and not after where it is now.
   */
  lemma VotesEnterSteps(g: Genesis, nets: seq<Net>, steps: seq<Step>, i: nat, j: nat, a: Address, k: nat)
    requires Run(g, nets, steps) && i <= j <= |steps| && a in nets[i].nodes && a in nets[j].nodes
    requires |nets[i].nodes[a].sent| <= k < |nets[j].nodes[a].sent|
    ensures var s, s', v := nets[i].nodes[a], nets[j].nodes[a], nets[j].nodes[a].sent[k];
      && !Upto(v.height, v.round, StepOf(v.kind), s.height, s.round, s.step)
      && Upto(v.height, v.round, StepOf(v.kind), s'.height, s'.round, s'.step)
  {
    hide Next, Init, Core, History, HL.Valid, TimeoutsOk, LockOk, LockValid, LastOk, HL.Grows, LockKept;
    RunOk(g, nets, steps, j);
    RunMoves(g, nets, steps, i, j, a);
  }

  /** Height, round and step never go back, whatever arrives and whatever writes fail. */
  lemma NeverBack(g: Genesis, nets: seq<Net>, steps: seq<Step>, i: nat, j: nat, a: Address)
    requires Run(g, nets, steps) && i <= j <= |steps| && a in nets[i].nodes
    ensures a in nets[j].nodes
    ensures var s, s' := nets[i].nodes[a], nets[j].nodes[a];
      Upto(s.height, s.round, s.step, s'.height, s'.round, s'.step) && s.sent <= s'.sent
  {
    hide Run;
    RunMoves(g, nets, steps, i, j, a);
  }

  /** No pending timeout lies ahead of the node, and each names a step at which something fires. */
  lemma TimeoutsBehind(g: Genesis, nets: seq<Net>, steps: seq<Step>, i: nat, a: Address, t: Timeout)
    requires Run(g, nets, steps) && i <= |steps| && a in nets[i].nodes && t in nets[i].nodes[a].timeouts
    ensures var s := nets[i].nodes[a]; Upto(t.height, t.round, t.step, s.height, s.round, s.step) && FiringStep(t.step)
  {
    hide Run, Core, History, HL.Valid, SentOk, LockOk, LockValid, LastOk;
    RunOk(g, nets, steps, i);
  }

  /**
   What peers can make a node keep: all rounds up to one above its own and at most two more
   per peer, and in each ledger no more blocks than voters seen and claims made.
   */
  lemma BoundedTracking(g: Genesis, nets: seq<Net>, steps: seq<Step>, i: nat, a: Address)
    requires Run(g, nets, steps) && i <= |steps| && a in nets[i].nodes
    ensures var h := nets[i].nodes[a].votes;
      && h.round <= nets[i].nodes[a].round + 1
      && (forall r :: 0 <= r <= h.round ==> r in h.rounds)
      && |h.rounds| <= h.round + 1 + 2 * |h.catchup|
      && (forall r :: r in h.rounds ==> L.TrackingBounded(h.rounds[r].prevotes) && L.TrackingBounded(h.rounds[r].precommits))
  {
    hide Next, Init, History, SentOk, TimeoutsOk, LockOk, LockValid, LastOk, L.TrackingBounded;
    hide L.CanonicalValid, L.BlockValid, L.MajorityValid, L.Shaped;
    RunOk(g, nets, steps, i);
    var h := nets[i].nodes[a].votes;
    L.CountMono(HL.Bringers(h, 1), h.catchup.Keys);
    L.CountMono(HL.Bringers(h, 2), h.catchup.Keys);
  }

  /** No sanity check of the node, its vote sets or its timeouts ever fires: only a block's content can stop it. */
  lemma NoSanityPanic(g: Genesis, nets: seq<Net>, steps: seq<Step>, i: nat, a: Address)
    requires Run(g, nets, steps) && i <= |steps| && a in nets[i].nodes
    ensures nets[i].nodes[a].status == Running || nets[i].nodes[a].status == Panicked(BlockContent)
  {
    hide Run, History, HL.Valid, SentOk, TimeoutsOk, LockOk, LockValid, LastOk;
    RunOk(g, nets, steps, i);
  }

  /**
   The lock rule. A locked block is valid and is the +2/3 prevote majority recorded for
   the locked round. While the node stays at its height and no local write fails, the
   lock moves to a later round for the same block, or goes on a polka for something else
   recorded for a later round that is not above the current one.
   */
  lemma LockDiscipline(g: Genesis, nets: seq<Net>, steps: seq<Step>, i: nat, j: nat, a: Address)
    requires Run(g, nets, steps) && i <= j <= |steps| && a in nets[i].nodes && nets[i].nodes[a].lockedBlock.Some?
    ensures a in nets[j].nodes
    ensures var s := nets[i].nodes[a];
      && HL.Maj(s.votes, s.lockedRound, PREVOTE) == Some(s.lockedBlock.value.hash)
      && 0 <= s.lockedRound <= s.round
      && Chain.Validate(s.state, nets[i].signed, s.lockedBlock.value).Accept?
    ensures var s, s' := nets[i].nodes[a], nets[j].nodes[a];
      s'.height == s.height && !s'.dropped ==>
        || Holds(s', s.lockedBlock.value.hash, s.lockedRound)
        || Superseded(s'.votes, s.lockedRound, s'.round, s.lockedBlock.value.hash)
  {
    hide Run, History, Core, HL.Valid, SentOk, TimeoutsOk, LastOk, HL.Maj, Chain.Validate;
    RunOk(g, nets, steps, i);
    RunMoves(g, nets, steps, i, j, a);
  }

  /** What a node proposes is valid in its own state. */
  lemma ProposalFits(s: Node, env: Env, built: int, numTxs: int, hash: Hash)
    requires Base(s, env) && DecideProposal(s, built, numTxs, hash).Some?
    ensures Chain.Validate(s.state, env.signed, DecideProposal(s, built, numTxs, hash).value).Accept?
  {
    hide History, HL.Valid, SentOk, TimeoutsOk, LockOk, L.Valid, Chain.Validate, C.VerifyCommit, C.MakeCommit;
    if s.lockedBlock.None? {
      var commit := DecideProposal(s, built, numTxs, hash).value.lastCommit;
      if s.height > 1 { C.MadeCommitVerifies(s.lastCommit.value, env.signed); }
      Chain.MadeBlockIsValid(s.state, env.signed, s.round, numTxs, commit, hash);
    }
  }

  /** Proposals validate: at any time, what a node proposes passes `validateBlock` against every equal state, then and later. */
  lemma ProposalsValidate(g: Genesis, nets: seq<Net>, steps: seq<Step>, i: nat, a: Address, j: nat, st: Chain.State,
                          built: int, numTxs: int, hash: Hash)
    requires Run(g, nets, steps) && i <= j <= |steps| && a in nets[i].nodes && st == nets[i].nodes[a].state
    requires DecideProposal(nets[i].nodes[a], built, numTxs, hash).Some?
    ensures var b := DecideProposal(nets[i].nodes[a], built, numTxs, hash);
      && Chain.Validate(st, nets[j].signed, b.value).Accept?
      && (nets[i].nodes[a].lockedBlock.Some? ==> b == nets[i].nodes[a].lockedBlock)
      && (nets[i].nodes[a].lockedBlock.None? ==> b.value.hash == hash && b.value.header.round == nets[i].nodes[a].round)
  {
    hide Next, Init, Base, Chain.Validate;
    RunOk(g, nets, steps, i);
    ProposalFits(nets[i].nodes[a], EnvOf(g, nets[i]), built, numTxs, hash);
    SignedGrows(g, nets, steps, i, j);
    Chain.MoreSignatures(st, nets[i].signed, nets[j].signed, DecideProposal(nets[i].nodes[a], built, numTxs, hash).value);
  }

  lemma {:induction false} SignedGrows(g: Genesis, nets: seq<Net>, steps: seq<Step>, i: nat, j: nat)
    requires Run(g, nets, steps) && i <= j <= |steps|
    ensures nets[i].signed <= nets[j].signed
    decreases j
  {
    hide Init, Handle;
    if i < j {
      SignedGrows(g, nets, steps, i, j - 1);
      assert Next(g, nets[j - 1], steps[j - 1], nets[j - 1 + 1]);
    }
  }

  /** With few faults a proposer always has something to propose once the batch is for its height. */
  lemma ProposerIsReady(g: Genesis, nets: seq<Net>, steps: seq<Step>, i: nat, a: Address, numTxs: int, hash: Hash)
    requires Run(g, nets, steps) && i <= |steps| && a in nets[i].nodes
    requires FewFaults(g, nets[i]) && WritesOk(nets[i])
    ensures DecideProposal(nets[i].nodes[a], nets[i].nodes[a].height, numTxs, hash).Some?
  {
    hide Next, Init, Base, FewFaults, WritesOk;
    RunOk(g, nets, steps, i);
    var s := nets[i].nodes[a];
    if s.height > 1 && s.lastCommit.None? {
      var r := MissingIn(s, EnvOf(g, nets[i]));
      AgreeUpto(g, nets[i], s.height - 1);
      AgreedValidators(g, nets[i], a, s.height - 1);
      NoNegativeQuorum(g, nets[i], s.committed, s.height - 1, r, s.committed[s.height - 1]);
    } else {
      LastIsMajority(s, EnvOf(g, nets[i]));
    }
  }

  lemma LastIsMajority(s: Node, env: Env)
    requires Base(s, env)
    ensures s.height >= 1 && (s.lastCommit.Some? ==> s.lastCommit.value.maj23.Some?)
  {
    hide History, HL.Valid, SentOk, TimeoutsOk, LockOk, L.Valid, LockValid;
  }

  lemma MissingIn(s: Node, env: Env) returns (r: int)
    requires Base(s, env) && s.height > 1 && s.lastCommit.None?
    ensures s.height - 1 in s.committed && r < 0
    ensures Signed(env, s.committed, s.height - 1, r, PRECOMMIT, s.committed[s.height - 1])
  {
    hide ValsAt, Signed, Core, HL.Valid, LockOk, LockValid, LastOk, SentOk, TimeoutsOk, Remembered, Justified;
    hide Backed, Decided;
    r :| r < 0 && Signed(env, s.committed, s.height - 1, r, PRECOMMIT, s.committed[s.height - 1]);
  }

  /** Honest nodes sign for rounds from 0 up, so no quorum forms below. */
  lemma NoNegativeQuorum(g: Genesis, net: Net, committed: map<int, Hash>, h: int, r: int, hash: Hash)
    requires NetInv(g, net) && SameValidators(g, net, committed, h)
    requires Signed(EnvOf(g, net), committed, h, r, PRECOMMIT, hash)
    ensures r >= 0
  {
    hide ValsAt, Signed, FewFaulty, Core, HL.Valid, LockOk, LockValid, LastOk, History, TimeoutsOk;
    var a, v, _ := SharedHonest(g, net, committed, h, r, PRECOMMIT, hash, r, PRECOMMIT, hash);
  }

  /** A new round leaves the lock alone. */
  lemma NewRoundKeepsLock(s: Node, c: Config, w: World, height: int, round: int)
    requires HL.Shaped(s.votes)
    ensures EnterNewRound(s, c, w, height, round).lockedBlock == s.lockedBlock
  {
    hide HL.SetRound, HL.Shaped, HL.Maj, Chain.Validate, SignVote;
  }

  /**
   Why `LockDiscipline` asks for successful writes: when the write of a committed block
   fails the lock goes, although no majority is recorded that was not there before.
   */
  lemma FailedWriteDropsLock(s: Node, c: Config, w: World)
    requires Base(s, w.env) && s.status.Running? && s.step == COMMIT && s.lockedBlock.Some? && !w.commitOk
    requires Chain.HashesTo(s.proposalBlock, HL.Maj(s.votes, s.commitRound, PRECOMMIT).value)
    requires Chain.Validate(s.state, w.env.signed, s.proposalBlock.value).Accept?
    ensures var s' := FinalizeCommit(s, c, w, s.height);
      && s'.height == s.height && s'.dropped && s'.lockedBlock.None?
      && forall r :: HL.Maj(s'.votes, r, PREVOTE) == HL.Maj(s.votes, r, PREVOTE)
  {
    hide HL.Maj, HL.RoundsValid, HL.Tracked, L.Shaped, Chain.Validate, EnterNewRound, History, SentOk;
    hide TimeoutsOk, LockOk, LockValid, LastOk;
    var s1 := Unlock(s).(dropped := true);
    NodeInvariant.DropOk(s, w.env);
    NewRoundKeepsLock(s1, c, w, s.height, s.commitRound + 1);
    NodeInvariant.EnterNewRoundOk(s1, c, w, s.height, s.commitRound + 1);
    var s' := EnterNewRound(s1, c, w, s.height, s.commitRound + 1);
    forall r ensures HL.Maj(s'.votes, r, PREVOTE) == HL.Maj(s.votes, r, PREVOTE) {
      NodeInvariant.NewRoundKeepsMaj(s1, c, w, s.height, s.commitRound + 1, r, PREVOTE);
    }
  }
}
