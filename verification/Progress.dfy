/**
 What holds in every run because nodes act: no lock outlives a later polka, no majority
 is passed over, and a node that waits can always go on.
 */
module Progress {
  import opened Types
  import opened Node
  import opened Invariant
  import opened Network
  import opened Reaction
  import Agreement
  import Duties
  import NodeInvariant
  import HL = HeightLedger
  import Chain

  lemma NextCurrent(g: Genesis, net: Net, step: Step, net': Net)
    requires NetInv(g, net) && Next(g, net, step, net') && forall a :: a in net.nodes ==> Current(net.nodes[a])
    ensures forall a :: a in net'.nodes ==> Current(net'.nodes[a])
  {
    hide Base, Handle, HL.Shaped, Current;
    if step.Deliver? { HandleCurrent(net.nodes[step.to], step.config, step.world, step.event); }
  }

  /** In every state of a run every honest node has acted on all it knows. */
  lemma {:induction false} RunCurrent(g: Genesis, nets: seq<Net>, steps: seq<Step>, i: nat)
    requires Run(g, nets, steps) && i <= |steps|
    ensures forall a :: a in nets[i].nodes ==> Current(nets[i].nodes[a])
  {
    hide Next, Current, Start, NetInv;
    if i == 0 {
      forall a | a in nets[0].nodes ensures Current(nets[0].nodes[a]) { StartCurrent(a, g.state); }
    } else {
      RunCurrent(g, nets, steps, i - 1);
      RunOk(g, nets, steps, i - 1);
      assert Next(g, nets[i - 1], steps[i - 1], nets[i - 1 + 1]);
      NextCurrent(g, nets[i - 1], steps[i - 1], nets[i]);
    }
  }

  /** A running node is never locked on a block against a later polka of a round it has reached. */
  lemma NoStaleLock(g: Genesis, nets: seq<Net>, steps: seq<Step>, i: nat, a: Address)
    requires Run(g, nets, steps) && i <= |steps| && a in nets[i].nodes
    ensures var s := nets[i].nodes[a];
      s.status.Running? && s.lockedBlock.Some? ==> !Superseded(s.votes, s.lockedRound, s.round, s.lockedBlock.value.hash)
  {
    hide Run, HL.Maj, Poised, Answered;
    RunCurrent(g, nets, steps, i);
  }

  /** A polka of a round for something else. */
  ghost predicate Against(votes: HL.HeightLedger, r: int, h: Hash) {
    HL.Maj(votes, r, PREVOTE).Some? && HL.Maj(votes, r, PREVOTE).value != h
  }

  /**
   The lock rule in both directions. While a node runs on at its height and no local write
   fails, a lock is kept, or renewed in a later round for the same block, if no later
   polka for something else is on record for a round reached; and if one is, it is gone or
   renewed after it.
   */
  lemma LockGoesExactly(g: Genesis, nets: seq<Net>, steps: seq<Step>, i: nat, j: nat, a: Address)
    requires Run(g, nets, steps) && i <= j <= |steps| && a in nets[i].nodes && nets[i].nodes[a].lockedBlock.Some?
    ensures a in nets[j].nodes
    ensures var s, s' := nets[i].nodes[a], nets[j].nodes[a];
      var h := s.lockedBlock.value.hash;
      s'.height == s.height && s'.status.Running? && !s'.dropped ==>
        && (!Superseded(s'.votes, s.lockedRound, s'.round, h) ==> Holds(s', h, s.lockedRound))
        && (Holds(s', h, s.lockedRound) ==> forall r :: r <= s'.round && Against(s'.votes, r, h) ==> r <= s'.lockedRound)
  {
    hide Run, HL.Maj, Chain.Validate, Poised, Answered;
    Agreement.LockDiscipline(g, nets, steps, i, j, a);
    RunCurrent(g, nets, steps, j);
  }

  /**
   No majority is passed over. With +2/3 prevotes of a round the node waits in it or is
   further; with a polka it has precommitted there or is further; with +2/3 precommits it
   waits or is further; on a nil majority it is in a later round; on a block's majority
   it is committing, and while it waits in the commit step the decided block is the one
   it expects and does not have.
   */
  lemma NothingMissed(g: Genesis, nets: seq<Net>, steps: seq<Step>, i: nat, a: Address, r: int)
    requires Run(g, nets, steps) && i <= |steps| && a in nets[i].nodes && nets[i].nodes[a].status.Running?
    ensures var s := nets[i].nodes[a];
      && (HL.HasAny(s.votes, r, PREVOTE) ==> Reached(s, r, PREVOTE_WAIT))
      && (HL.Maj(s.votes, r, PREVOTE).Some? ==> Reached(s, r, PRECOMMITTED))
      && (HL.HasAny(s.votes, r, PRECOMMIT) ==> Reached(s, r, PRECOMMIT_WAIT))
      && (HL.Maj(s.votes, r, PRECOMMIT) == Some(NIL) ==> r < s.round)
      && (DecidedIn(s.votes, r) && !s.dropped ==> DecidedIn(s.votes, s.commitRound))
      && (s.step == COMMIT && !s.dropped ==>
            && DecidedIn(s.votes, s.commitRound) && s.proposalHash == HL.Maj(s.votes, s.commitRound, PRECOMMIT).value
            && !Duties.HasBlock(s, s.proposalHash))
  {
    hide Next, Init, HL.Maj, HL.HasAny, LockCurrent;
    RunCurrent(g, nets, steps, i);
    assert PrevotesAnswered(nets[i].nodes[a], r) && PrecommitsAnswered(nets[i].nodes[a], r);
  }

  /**
   A node in a step that waits for a timeout has asked for it, may be handed it at once,
   and is then strictly further on, unless a block's content stops it.
   */
  lemma NeverStuck(g: Genesis, nets: seq<Net>, steps: seq<Step>, i: nat, a: Address, c: Config, w: World)
    requires Run(g, nets, steps) && i <= |steps| && a in nets[i].nodes && nets[i].nodes[a].status.Running?
    requires nets[i].nodes[a].step in {NEW_HEIGHT, PROPOSE, PREVOTE_WAIT, PRECOMMIT_WAIT} && w.env == EnvOf(g, nets[i])
    ensures var s := nets[i].nodes[a];
      var t := Timeout(s.height, s.round, s.step);
      && HL.Shaped(s.votes)
      && var s' := Handle(s, c, w, Tock(t));
         && Next(g, nets[i], Deliver(a, c, w, Tock(t)), Net(nets[i].nodes[a := s'], nets[i].signed + SignedBy(a, s'.sent)))
         && (|| s'.status == Panicked(BlockContent)
             || (Duties.Fired(s, s') && !Upto(s'.height, s'.round, s'.step, s.height, s.round, s.step)))
  {
    hide Init, Handle, HL.Maj, HL.HasAny, LockCurrent, Answered;
    hide Core, LockOk, LockValid, LastOk, History, SentOk, TimeoutsOk, HL.RoundsValid, HL.Tracked;
    RunOk(g, nets, steps, i);
    RunCurrent(g, nets, steps, i);
    Duties.TimeoutActs(nets[i].nodes[a], c, w);
  }
}
