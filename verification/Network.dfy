/**
 A network of nodes: honest ones handle any messages in any order, everybody else
 signs whatever they like, and signed votes are never taken back.
 */
module Network {
  import opened Types
  import opened Node
  import opened Invariant
  import NodeInvariant
  import HL = HeightLedger
  import L = Ledger
  import Power
  import Chain
  import VC = ValidatorChange

  /** What the chain starts from, and the validator changes each block reports. */
  datatype Genesis = Genesis(state: Chain.State, execute: (int, Hash) -> seq<VC.ValNode>)

  /** The honest nodes by address, and all signed votes. */
  datatype Net = Net(nodes: map<Address, Node>, signed: Signatures)

  datatype Step =
    | Deliver(to: Address, config: Config, world: World, event: Event)
    | Forge(key: Address, vote: Vote)

  ghost function EnvOf(g: Genesis, net: Net): Env {
    Env(net.signed, g.state.validators, g.execute)
  }

  /** All honest nodes start on a chain without blocks, before any of them signed. */
  ghost predicate Init(g: Genesis, net: Net) {
    && g.state.lastBlockHeight == 0
    && (forall a :: a in net.nodes ==> net.nodes[a] == Start(a, g.state))
    && (forall a, v :: (a, v) in net.signed ==> a !in net.nodes)
  }

  ghost function SignedBy(a: Address, sent: seq<Vote>): Signatures {
    set v | v in sent :: (a, v)
  }

  /** One step: an honest node handles one message, or somebody else signs a vote. */
  ghost predicate Next(g: Genesis, net: Net, step: Step, net': Net) {
    match step
    case Deliver(a, c, w, e) =>
      && a in net.nodes
      && w.env == EnvOf(g, net)
      && HL.Shaped(net.nodes[a].votes)
      && (e.Tock? ==> e.timeout in net.nodes[a].timeouts)
      && var s' := Handle(net.nodes[a], c, w, e);
         net' == Net(net.nodes[a := s'], net.signed + SignedBy(a, s'.sent))
    case Forge(key, vote) =>
      && key !in net.nodes
      && net' == net.(signed := net.signed + {(key, vote)})
  }

  /** A run of the network. */
  ghost predicate Run(g: Genesis, nets: seq<Net>, steps: seq<Step>) {
    && |nets| == |steps| + 1
    && Init(g, nets[0])
    && forall i :: 0 <= i < |steps| ==> Next(g, nets[i], steps[i], nets[i + 1])
  }

  // ----------------------------------------------------------------- invariant

  ghost predicate NodesOk(g: Genesis, net: Net) {
    forall a :: a in net.nodes ==> net.nodes[a].self == a && Base(net.nodes[a], EnvOf(g, net))
  }

  /** Honest signatures are on votes their owners sent. */
  ghost predicate OwnVotes(net: Net) {
    forall a, v :: (a, v) in net.signed && a in net.nodes ==> v in net.nodes[a].sent
  }

  ghost predicate NetInv(g: Genesis, net: Net) {
    NodesOk(g, net) && OwnVotes(net)
  }

  lemma SignedMore(env: Env, more: Env, committed: map<int, Hash>, h: int, r: int, kind: int, hash: Hash)
    requires Signed(env, committed, h, r, kind, hash) && More(env, more)
    ensures Signed(more, committed, h, r, kind, hash)
  {
    SameVals(env, more, committed, h);
    hide ValsAt, Power.Of, Power.Total;
    var vals := ValsAt(env, committed, h);
    var a := HL.Signers(env.signed, vals, h, r, kind, hash);
    var b := HL.Signers(more.signed, vals, h, r, kind, hash);
    assert forall i :: i in a ==> i in b;
    Power.Mono(vals, a, b);
  }

  ghost predicate More(env: Env, more: Env) {
    more == env.(signed := more.signed) && env.signed <= more.signed
  }

  lemma {:induction false} SameVals(env: Env, more: Env, committed: map<int, Hash>, h: int)
    requires More(env, more)
    ensures ValsAt(more, committed, h) == ValsAt(env, committed, h)
    decreases h
  {
    if h > 1 { SameVals(env, more, committed, h - 1); }
  }

  lemma ReleasedMore(env: Env, more: Env, committed: map<int, Hash>, h: int, lo: int, hi: int, hash: Hash)
    requires Released(env, committed, h, lo, hi, hash) && More(env, more)
    ensures Released(more, committed, h, lo, hi, hash)
  {
    hide Signed;
    var r, other :| lo < r < hi && other != hash && Signed(env, committed, h, r, PREVOTE, other);
    SignedMore(env, more, committed, h, r, PREVOTE, other);
  }

  lemma HistoryMore(s: Node, env: Env, more: Env)
    requires History(s, env) && More(env, more)
    ensures History(s, more)
  {
    hide Signed, Released, Remembered, ValsAt, More;
    SameVals(env, more, s.committed, s.height);
    forall v | v in s.sent && Locking(v) ensures Signed(more, s.committed, v.height, v.round, PREVOTE, v.hash) {
      SignedMore(env, more, s.committed, v.height, v.round, PREVOTE, v.hash);
    }
    forall h | h in s.committed ensures exists r :: Signed(more, s.committed, h, r, PRECOMMIT, s.committed[h]) {
      var r :| Signed(env, s.committed, h, r, PRECOMMIT, s.committed[h]);
      SignedMore(env, more, s.committed, h, r, PRECOMMIT, s.committed[h]);
    }
    if s.height > 1 && s.height - 1 in s.committed && s.lastCommit.None? {
      var r :| r < 0 && Signed(env, s.committed, s.height - 1, r, PRECOMMIT, s.committed[s.height - 1]);
      SignedMore(env, more, s.committed, s.height - 1, r, PRECOMMIT, s.committed[s.height - 1]);
    }
    if !s.dropped {
      forall v, u |
        && v in s.sent && Locking(v)
        && u in s.sent && u.kind == PREVOTE && u.height == v.height && v.round < u.round && u.hash != v.hash
        ensures Released(more, s.committed, v.height, v.round, u.round, v.hash)
      {
        ReleasedMore(env, more, s.committed, v.height, v.round, u.round, v.hash);
      }
    }
  }

  /** The invariant of a node does not depend on what is signed later. */
  lemma BaseMore(s: Node, env: Env, more: Env)
    requires Base(s, env) && More(env, more)
    ensures Base(s, more)
  {
    hide Core, HL.Valid, TimeoutsOk, SentOk, LockOk, History, L.Valid, Chain.Validate;
    HL.MoreSignatures(s.votes, env.signed, more.signed);
    if s.lockedBlock.Some? { Chain.MoreSignatures(s.state, env.signed, more.signed, s.lockedBlock.value); }
    if s.lastCommit.Some? { L.MoreSignatures(s.lastCommit.value, env.signed, more.signed); }
    HistoryMore(s, env, more);
  }

  lemma StartOk(self: Address, state: Chain.State, env: Env)
    requires state.lastBlockHeight == 0 && env.genesis == state.validators
    ensures Base(Start(self, state), env)
  {
    hide HL.Valid, HL.New;
    HL.NewIsValid(1, state.validators, env.signed);
    NodeInvariant.NewHeader(state);
  }

  lemma InitOk(g: Genesis, net: Net)
    requires Init(g, net)
    ensures NetInv(g, net)
  {
    hide Base;
    forall a | a in net.nodes ensures Base(net.nodes[a], EnvOf(g, net)) {
      StartOk(a, g.state, EnvOf(g, net));
    }
  }

  /** How the honest nodes move in a step. */
  ghost predicate NodesMove(net: Net, net': Net) {
    && net'.nodes.Keys == net.nodes.Keys
    && net.signed <= net'.signed
    && forall a :: a in net.nodes ==> Moves(net.nodes[a], net'.nodes[a])
  }

  /** Every step of the network keeps the invariant. */
  lemma NextOk(g: Genesis, net: Net, step: Step, net': Net)
    requires NetInv(g, net) && Next(g, net, step, net')
    ensures NetInv(g, net') && NodesMove(net, net')
  {
    hide Base, Moves, Handle, HL.Shaped;
    if step.Deliver? {
      NodeInvariant.HandleOk(net.nodes[step.to], step.config, step.world, step.event);
      MovesSelf(net.nodes[step.to], net'.nodes[step.to]);
    }
    forall a | a in net'.nodes
      ensures net'.nodes[a].self == a && Base(net'.nodes[a], EnvOf(g, net'))
      ensures a in net.nodes && Moves(net.nodes[a], net'.nodes[a])
    {
      BaseMore(net'.nodes[a], EnvOf(g, net), EnvOf(g, net'));
      if !(step.Deliver? && step.to == a) { MovesRefl(net.nodes[a]); }
    }
  }

  lemma MovesSelf(s: Node, s': Node)
    requires Moves(s, s')
    ensures s'.self == s.self && forall v :: v in s.sent ==> v in s'.sent
  {
  }

  lemma {:induction false} RunOk(g: Genesis, nets: seq<Net>, steps: seq<Step>, i: nat)
    requires Run(g, nets, steps) && i <= |steps|
    ensures NetInv(g, nets[i])
  {
    hide NetInv, Next;
    if i == 0 {
      InitOk(g, nets[0]);
    } else {
      RunOk(g, nets, steps, i - 1);
      assert Next(g, nets[i - 1], steps[i - 1], nets[i - 1 + 1]);
      NextOk(g, nets[i - 1], steps[i - 1], nets[i]);
    }
  }
}
