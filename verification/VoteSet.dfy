/**
 `VoteSet` as the program runs it: fields updated in place, each method proved
 to leave the value that `Ledger` says.
 */
module VoteSets {
  import opened Types
  import opened L = Ledger

  class VoteSet {
    const height: int
    const round: int
    const kind: int
    const vals: Validators
    var bits: seq<bool>
    var votes: seq<Option<Vote>>
    var sum: nat
    var maj23: Option<Hash>
    var byBlock: map<Hash, BlockVotes>
    var peerMaj23s: map<PeerId, Hash>

    ghost function Value(): Ledger
      reads this
    {
      Ledger(height, round, kind, vals, bits, votes, sum, maj23, byBlock, peerMaj23s)
    }

    constructor (height: int, round: int, kind: int, vals: Validators)
      ensures Value() == L.New(height, round, kind, vals) && Valid(Value(), {})
    {
      this.height, this.round, this.kind, this.vals := height, round, kind, vals;
      bits := Blank(|vals|, false);
      votes := Blank(|vals|, None);
      sum := 0;
      maj23 := None;
      byBlock, peerMaj23s := map[], map[];
      new;
      NewIsValid(height, round, kind, vals);
    }

    /** Every check of `addVote` in order; the two sanity panics are the `assert false` branches. */
    method AddVote(signed: Signatures, vote: Vote) returns (added: bool, err: AddError)
      requires Valid(Value(), signed)
      modifies this
      ensures Valid(Value(), signed)
      ensures Added(Value(), added, err, false) == L.AddVote(old(Value()), signed, vote)
      ensures old(maj23).Some? ==> maj23 == old(maj23)
    {
      AddVoteIsValid(Value(), signed, vote);
      if vote.index < 0 { return false, InvalidIndex; }
      if vote.address == 0 { return false, InvalidAddress; }
      if vote.height != height || vote.round != round || vote.kind != kind { return false, UnexpectedStep; }
      if vote.index >= |vals| { return false, InvalidIndex; }
      if vals[vote.index].address != vote.address { return false, InvalidAddress; }
      var existing := Find(vote.index, vote.hash);
      if existing.Some? {
        if existing.value.signature == vote.signature { return false, NoError; }
        return false, NonDeterministicSignature;
      }
      if !Verifies(signed, vals[vote.index].address, vote) { return false, InvalidSignature; }
      added, err := AddVerifiedVote(signed, vote);
      if err.NoError? && !added {
        assert false;
      }
    }

    /** `getVote`. */
    method Find(i: int, h: Hash) returns (v: Option<Vote>)
      requires Shaped(Value()) && 0 <= i < |vals|
      ensures v == GetVote(Value(), i, h)
    {
      if votes[i].Some? && votes[i].value.hash == h { return votes[i]; }
      if h in byBlock { return byBlock[h].votes[i]; }
      return None;
    }

    method AddVerifiedVote(signed: Signatures, vote: Vote) returns (added: bool, err: AddError)
      requires Valid(Value(), signed) && Acceptable(Value(), signed, vote)
      modifies this
      ensures Added(Value(), added, err, false) == AddVerified(old(Value()), vote)
      ensures err.NoError? ==> added
    {
      hide CanonicalValid, MajorityValid, TrackingBounded, BlockValid, L.Canonical, L.Tally;
      err := SetCanonical(signed, vote);
      var blockVotes: BlockVotes;
      if vote.hash in byBlock {
        blockVotes := byBlock[vote.hash];
        if err.Conflict? && !blockVotes.peerMaj23 { return false, err; }
      } else {
        if err.Conflict? { return false, err; }
        blockVotes := NewBlockVotes(false, |vals|);
      }
      RecordVote(vote, blockVotes);
      added := true;
    }

    /** The canonical vote, the bit and the sum; the answer says whether another vote was there. */
    method SetCanonical(ghost signed: Signatures, vote: Vote) returns (err: AddError)
      requires Valid(Value(), signed) && Acceptable(Value(), signed, vote)
      modifies this`votes, this`bits, this`sum
      ensures Shaped(Value()) && Value() == L.Canonical(old(Value()), vote)
      ensures var prior := old(votes[vote.index]);
        && (prior.Some? ==> prior.value.hash != vote.hash)
        && err == if prior.Some? then Conflict(prior.value, vote) else NoError
    {
      hide CanonicalValid, MajorityValid, TrackingBounded, BlockValid;
      var i := vote.index;
      err := NoError;
      if votes[i].Some? {
        if votes[i].value.hash == vote.hash { assert false; }
        err := Conflict(votes[i].value, vote);
        if maj23 == Some(vote.hash) {
          votes := votes[i := Some(vote)];
          bits := bits[i := true];
        }
      } else {
        votes := votes[i := Some(vote)];
        bits := bits[i := true];
        sum := sum + vals[i].power;
      }
    }

    /** The vote under its block, and a first quorum noticed. */
    method RecordVote(vote: Vote, b: BlockVotes)
      requires Shaped(Value()) && 0 <= vote.index < |vals| && |b.bits| == |b.votes| == |vals|
      modifies this`byBlock, this`maj23, this`votes
      ensures Value() == L.Tally(old(Value()), vote, b)
    {
      var quorum := QuorumPower(vals);
      var blockVotes := Record(b, vote, vals[vote.index].power);
      byBlock := byBlock[vote.hash := blockVotes];
      if b.sum < quorum <= blockVotes.sum && maj23.None? {
        maj23 := Some(vote.hash);
        CopyVotes(blockVotes.votes);
      }
    }

    /** The loop that copies the majority block's votes over the canonical ones. */
    method CopyVotes(over: seq<Option<Vote>>)
      requires |over| == |votes|
      modifies this`votes
      ensures votes == Overlay(old(votes), over)
    {
      var i := 0;
      while i < |over|
        invariant 0 <= i <= |over| == |votes|
        invariant forall k :: 0 <= k < i ==> votes[k] == (if over[k].Some? then over[k] else old(votes)[k])
        invariant forall k :: i <= k < |over| ==> votes[k] == old(votes)[k]
      {
        if over[i].Some? { votes := votes[i := over[i]]; }
        i := i + 1;
      }
    }

    method SetPeerMaj23(ghost signed: Signatures, peer: PeerId, h: Hash)
      requires Valid(Value(), signed)
      modifies this`peerMaj23s, this`byBlock
      ensures Value() == L.SetPeerMaj23(old(Value()), peer, h) && Valid(Value(), signed)
    {
      hide CanonicalValid, MajorityValid, TrackingBounded, BlockValid;
      SetPeerMaj23IsValid(Value(), signed, peer, h);
      if peer in peerMaj23s { return; }
      peerMaj23s := peerMaj23s[peer := h];
      if h in byBlock {
        if !byBlock[h].peerMaj23 {
          byBlock := byBlock[h := byBlock[h].(peerMaj23 := true)];
        }
      } else {
        byBlock := byBlock[h := NewBlockVotes(true, |vals|)];
      }
    }
  }
}
