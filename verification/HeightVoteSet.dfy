/**
 `HeightVoteSet` as it is programmed: a round counter and two maps, updated in place.
 Each method is proved against the value model in `HeightLedger`.
 */
module HeightVoteSets {
  import opened Types
  import HL = HeightLedger
  import L = Ledger

  /** One more round: made unless a peer already brought it. */
  lemma NextRound(h: HL.HeightLedger, r: int)
    requires HL.Shaped(h) && h.round < r
    ensures var before := HL.SetRound(h, r - 1).rounds;
      HL.SetRound(h, r).rounds == if r in before then before else before[r := HL.NewRound(h.height, r, h.vals)]
  {
    hide HL.Shaped, HL.NewRound;
    assert HL.Range(h.round, r) == HL.Range(h.round, r - 1) + {r};
    hide HL.Range;
  }

  lemma NothingNew(h: HL.HeightLedger, r: int)
    requires HL.Shaped(h) && r <= h.round
    ensures HL.SetRound(h, r).rounds == h.rounds
  {
    hide HL.Shaped, HL.NewRound;
    assert HL.Range(h.round, r) == {};
  }

  lemma RoundSet(h: HL.HeightLedger, r: int)
    requires HL.Shaped(h)
    ensures HL.SetRound(h, r) == h.(rounds := HL.SetRound(h, r).rounds, round := r)
  {
  }

  class HeightVoteSet {
    var height: int
    var vals: Validators
    var round: int
    var rounds: map<int, HL.RoundVotes>
    var catchup: map<PeerId, seq<int>>

    function Value(): HL.HeightLedger
      reads this
    {
      HL.HeightLedger(height, vals, round, rounds, catchup)
    }

    ghost predicate Valid()
      reads this
    {
      HL.Shaped(Value())
    }

    constructor (height: int, vals: Validators)
      ensures Valid() && Value() == HL.New(height, vals)
    {
      this.height, this.vals, round, rounds, catchup := 0, [], 0, map[], map[];
      new;
      Reset(height, vals);
    }

    method Reset(height: int, vals: Validators)
      modifies this
      ensures Valid() && Value() == HL.New(height, vals)
    {
      this.height := height;
      this.vals := vals;
      rounds := map[];
      catchup := map[];
      AddRound(0);
      round := 0;
    }

    /** The round must be new: the check that panics otherwise is the precondition. */
    method AddRound(r: int)
      requires r !in rounds
      modifies this`rounds
      ensures rounds == old(rounds)[r := HL.NewRound(height, r, vals)]
    {
      rounds := rounds[r := HL.RoundVotes(L.New(height, r, PREVOTE, vals), L.New(height, r, PRECOMMIT, vals))];
    }

    /** False stands for the panic, which leaves everything as it was. */
    method SetRound(target: int) returns (ok: bool)
      requires Valid()
      modifies this
      ensures Valid() && ok == !HL.SetRoundPanics(old(Value()), target)
      ensures Value() == if ok then HL.SetRound(old(Value()), target) else old(Value())
    {
      hide HL.SetRound, HL.Shaped;
      if round != 0 && target < round + 1 { return false; }
      ghost var h := Value();
      FillRounds(target);
      RoundSet(h, target);
      round := target;
      ok := true;
    }

    /** The loop of `SetRound`: add the missing rounds after the current one. */
    method FillRounds(target: int)
      requires Valid()
      modifies this`rounds
      ensures rounds == HL.SetRound(old(Value()), target).rounds
    {
      hide HL.SetRound, HL.Shaped, HL.NewRound;
      ghost var h := Value();
      NothingNew(h, round);
      var r := round + 1;
      while r <= target
        invariant round < r && (r <= target + 1 || r == round + 1) && rounds == HL.SetRound(h, r - 1).rounds
      {
        NextRound(h, r);
        if r !in rounds { AddRound(r); }
        r := r + 1;
      }
      if target < round { NothingNew(h, target); }
    }

    /** `AddVote`; `panicked` when the vote ledger fails one of its own checks. */
    method AddVote(signed: Signatures, vote: Vote, peer: PeerId) returns (added: bool, err: L.AddError, panicked: bool)
      requires Valid()
      modifies this
      ensures Valid() && HL.Added(Value(), added, err, panicked) == HL.AddVote(old(Value()), signed, vote, peer)
      ensures IsVoteTypeValid(vote.kind) ==>
                && (vote.round !in rounds <==> old(HL.Unwanted(Value(), vote.round, peer)))
                && (vote.round !in old(rounds) && vote.round in rounds ==>
                      peer in catchup && catchup[peer] == old(HL.Catchup(Value(), peer)) + [vote.round])
    {
      hide L.AddVote;
      var kind := HL.KindByte(vote.kind);
      if !IsVoteTypeValid(kind) { return false, L.NoError, false; }
      if vote.round !in rounds {
        var rndz := if peer in catchup then catchup[peer] else [];
        if |rndz| < 2 {
          AddRound(vote.round);
          catchup := catchup[peer := rndz + [vote.round]];
        } else {
          return false, L.UnwantedRound, false;
        }
      }
      var rv := rounds[vote.round];
      var r := L.AddVote(if kind == PREVOTE then rv.prevotes else rv.precommits, signed, vote);
      rounds := rounds[vote.round := if kind == PREVOTE then rv.(prevotes := r.ledger) else rv.(precommits := r.ledger)];
      return r.added, r.err, r.panicked;
    }

    method SetPeerMaj23(r: int, kind: int, peer: PeerId, hash: Hash)
      requires Valid()
      modifies this`rounds
      ensures Valid() && Value() == HL.SetPeerMaj23(old(Value()), r, kind, peer, hash)
    {
      hide L.SetPeerMaj23;
      if !IsVoteTypeValid(kind) || r !in rounds { return; }
      var rv := rounds[r];
      var l := L.SetPeerMaj23(if kind == PREVOTE then rv.prevotes else rv.precommits, peer, hash);
      rounds := rounds[r := if kind == PREVOTE then rv.(prevotes := l) else rv.(precommits := l)];
    }

    /** `POLInfo`: the latest tracked round with a polka, and -1 without one. */
    method POLInfo() returns (polRound: int, hash: Option<Hash>)
      requires Valid()
      ensures polRound == HL.PolRound(Value())
      ensures hash == if polRound < 0 then None else HL.Maj(Value(), polRound, PREVOTE)
    {
      var r := round;
      while r >= 0
        invariant HL.PolFrom(Value(), r) == HL.PolRound(Value())
        decreases r
      {
        if r in rounds && rounds[r].prevotes.maj23.Some? { return r, rounds[r].prevotes.maj23; }
        r := r - 1;
      }
      return -1, None;
    }
  }
}
