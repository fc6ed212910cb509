/**
 The loops around commits as they are programmed: `VoteSet.MakeCommit`,
 `ValidatorSet.VerifyCommit` and `reconstructLastCommit`.
 */
module CommitMethods {
  import opened Types
  import L = Ledger
  import C = Commits
  import Power
  import VS = VoteSets
  import Sets = ValidatorSets

  method MakeCommit(voteSet: VS.VoteSet) returns (commit: C.Commit)
    requires voteSet.maj23.Some?
    ensures commit == C.MakeCommit(voteSet.Value())
  {
    var precommits := [];
    var i := 0;
    while i < |voteSet.votes|
      invariant 0 <= i <= |voteSet.votes| && |precommits| == i
      invariant forall k :: 0 <= k < i ==>
        precommits[k] == if voteSet.votes[k].Some? then voteSet.votes[k].value else C.MISSING
    {
      precommits := precommits + [if voteSet.votes[i].Some? then voteSet.votes[i].value else C.MISSING];
      i := i + 1;
    }
    commit := C.Commit(voteSet.maj23.value, precommits);
  }

  /** `FirstPrecommit`. */
  method FirstPrecommit(precommits: seq<Vote>) returns (first: Option<Vote>)
    ensures first == C.FirstFrom(precommits, 0)
  {
    var i := 0;
    while i < |precommits|
      invariant 0 <= i <= |precommits| && C.FirstFrom(precommits, i) == C.FirstFrom(precommits, 0)
    {
      if precommits[i].signature != 0 { return Some(precommits[i]); }
      i := i + 1;
    }
    first := None;
  }

  method VerifyCommit(valSet: Sets.ValidatorSet, signed: Signatures, hash: Hash, height: int, commit: C.Commit)
      returns (verdict: C.Verdict)
    requires valSet.Valid()
    modifies valSet`total
    ensures valSet.Valid() && verdict == C.VerifyCommit(Sets.Powers(valSet.members), signed, hash, height, commit)
  {
    hide Power.Total;
    var vals := Sets.Powers(valSet.members);
    if |vals| != |commit.precommits| { return C.Reject; }
    var commitHeight, round := 0, 0;
    if |commit.precommits| != 0 {
      var first := FirstPrecommit(commit.precommits);
      if first.None? { return C.Crash; }
      commitHeight, round := first.value.height, first.value.round;
    }
    if height != commitHeight { return C.Reject; }
    var tallied := 0;
    var i := 0;
    while i < |commit.precommits|
      invariant 0 <= i <= |commit.precommits| == |vals| && tallied >= 0 && valSet.Valid()
      invariant C.TallyTo(vals, signed, hash, height, round, commit.precommits, i) == Some(tallied)
    {
      var v := commit.precommits[i];
      if v.signature != 0 {
        if v.height != height || v.round != round || v.kind != PRECOMMIT || (vals[i].address, v) !in signed {
          TallyFails(vals, signed, hash, height, round, commit.precommits, i + 1, |vals|);
          return C.Reject;
        }
        if v.hash == hash { tallied := tallied + vals[i].power; }
      }
      i := i + 1;
    }
    var total := valSet.TotalVotingPower();
    Sets.SamePowerTotal(valSet.members);
    verdict := if tallied > total * 2 / 3 then C.Accept else C.Reject;
  }

  lemma {:induction false} TallyFails(vals: Validators, signed: Signatures, hash: Hash, height: int,
                                      round: int, precommits: seq<Vote>, i: nat, n: nat)
    requires i <= n <= |precommits| == |vals|
    requires C.TallyTo(vals, signed, hash, height, round, precommits, i).None?
    ensures C.TallyTo(vals, signed, hash, height, round, precommits, n).None?
  {
    if i < n { TallyFails(vals, signed, hash, height, round, precommits, i, n - 1); }
  }

  /**
   `reconstructLastCommit` from the commit seen for the last block; not ok stands for its
   two panics, and for the crash of `Round` on a commit without signatures.
   */
  method ReconstructLastCommit(signed: Signatures, vals: Validators, height: int, seen: C.Commit)
      returns (lastPrecommits: VS.VoteSet, ok: bool)
    ensures fresh(lastPrecommits)
    ensures var first := C.FirstFrom(seen.precommits, 0);
      var round := if first.Some? then first.value.round else 0;
      var r := C.Replay(L.New(height, round, PRECOMMIT, vals), signed, seen.precommits, |seen.precommits|);
      && ok == (r.Some? && r.value.maj23.Some?)
      && (ok ==> lastPrecommits.Value() == r.value)
  {
    hide L.AddVote, L.CanonicalValid, L.MajorityValid, L.BlockValid, L.TrackingBounded, L.Shaped;
    var first := FirstPrecommit(seen.precommits);
    lastPrecommits := new VS.VoteSet(height, if first.Some? then first.value.round else 0, PRECOMMIT, vals);
    L.MoreSignatures(lastPrecommits.Value(), {}, signed);
    hide L.Valid, L.New, C.Replay;
    ok := ReplayVotes(lastPrecommits, signed, seen.precommits);
    if ok { ok := lastPrecommits.maj23.Some?; }
  }

  /** The loop of `reconstructLastCommit`, up to its panic. */
  method ReplayVotes(voteSet: VS.VoteSet, signed: Signatures, precommits: seq<Vote>) returns (ok: bool)
    requires L.Valid(voteSet.Value(), signed)
    modifies voteSet
    ensures var r := C.Replay(old(voteSet.Value()), signed, precommits, |precommits|);
      ok == r.Some? && (ok ==> voteSet.Value() == r.value)
  {
    hide L.AddVote, L.CanonicalValid, L.MajorityValid, L.BlockValid, L.TrackingBounded, L.Shaped;
    ghost var start := voteSet.Value();
    var i := 0;
    while i < |precommits|
      invariant 0 <= i <= |precommits|
      invariant L.Valid(voteSet.Value(), signed)
      invariant C.Replay(start, signed, precommits, i) == Some(voteSet.Value())
    {
      if precommits[i].signature != 0 {
        var added, err := voteSet.AddVote(signed, precommits[i]);
        if !added || !err.NoError? {
          ReplayFails(start, signed, precommits, i + 1, |precommits|);
          return false;
        }
      }
      i := i + 1;
    }
    ok := true;
  }

  lemma {:induction false} ReplayFails(l: L.Ledger, signed: Signatures, precommits: seq<Vote>, i: nat, n: nat)
    requires i <= n <= |precommits| && L.Shaped(l) && C.Replay(l, signed, precommits, i).None?
    ensures C.Replay(l, signed, precommits, n).None?
  {
    hide L.AddVote, L.Shaped;
    if i < n { ReplayFails(l, signed, precommits, i, n - 1); }
  }

  /** Made from a majority, the commit is read back: the restart of a node cannot panic on it. */
  method CommitIsReadBack(signed: Signatures, voteSet: VS.VoteSet) returns (lastPrecommits: VS.VoteSet)
    requires L.Valid(voteSet.Value(), signed) && voteSet.maj23.Some? && voteSet.kind == PRECOMMIT
    ensures lastPrecommits.maj23 == voteSet.maj23 && lastPrecommits.votes == voteSet.votes
  {
    var commit := MakeCommit(voteSet);
    FirstIsCanonical(voteSet.Value(), signed);
    C.CommitRoundTrip(voteSet.Value(), signed);
    hide L.CanonicalValid, L.MajorityValid, L.BlockValid, L.TrackingBounded, C.Replay, C.MakeCommit, C.FirstFrom;
    var ok;
    lastPrecommits, ok := ReconstructLastCommit(signed, voteSet.vals, voteSet.height, commit);
  }

  /** The first entry of a made commit carries its round. */
  lemma FirstIsCanonical(l: L.Ledger, signed: Signatures)
    requires L.Valid(l, signed) && l.maj23.Some? && l.kind == PRECOMMIT
    ensures var first := C.FirstFrom(C.MakeCommit(l).precommits, 0); first.Some? && first.value.round == l.round
    ensures |C.MakeCommit(l).precommits| == |l.vals|
  {
    var c := C.MakeCommit(l);
    C.MadeCommit(l, signed);
    C.FirstIsSome(c.precommits, 0);
    var i := Power.PositiveUpto(l.vals, C.VotesFor(c, l.maj23.value), |l.vals|);
  }
}
