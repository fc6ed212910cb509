/**
 Commits: made from a precommit ledger (`VoteSet.MakeCommit`), verified against a
 validator set (`ValidatorSet.VerifyCommit`) and replayed into a fresh ledger
 (`reconstructLastCommit`); and the evidence of a double vote.
 */
module Commits {
  import opened Types
  import L = Ledger
  import Power

  /** `TendermintCommit`: one entry per validator; an entry without a signature is a missing vote. */
  datatype Commit = Commit(hash: Hash, precommits: seq<Vote>)

  /** The outcome of a check on data from a peer; `Crash` is a nil dereference. */
  datatype Verdict = Accept | Reject | Crash

  const MISSING := Vote(0, 0, 0, 0, 0, 0, NIL, 0)

  // -------------------------------------------------------------- operations

  /** `MakeCommit`: every canonical vote, with an empty vote for the others. */
  function MakeCommit(l: L.Ledger): Commit
    requires l.maj23.Some?
  {
    Commit(l.maj23.value,
           seq(|l.votes|, i requires 0 <= i < |l.votes| => if l.votes[i].Some? then l.votes[i].value else MISSING))
  }

  /** `FirstPrecommit`: the first entry that carries a signature. */
  function FirstFrom(precommits: seq<Vote>, i: nat): Option<Vote>
    requires i <= |precommits|
    decreases |precommits| - i
  {
    if i == |precommits| then None
    else if precommits[i].signature != 0 then Some(precommits[i])
    else FirstFrom(precommits, i + 1)
  }

  /** The checks `VerifyCommit` makes on one entry that carries a signature. */
  predicate EntryOk(vals: Validators, signed: Signatures, height: int, round: int, i: nat, v: Vote)
    requires i < |vals|
  {
    v.height == height && v.round == round && v.kind == PRECOMMIT && (vals[i].address, v) in signed
  }

  /** The power tallied for `hash` by the first `n` entries, None if one of them is bad. */
  function TallyTo(vals: Validators, signed: Signatures, hash: Hash, height: int, round: int, precommits: seq<Vote>, n: nat): Option<nat>
    requires n <= |precommits| == |vals|
  {
    if n == 0 then Some(0)
    else
      match TallyTo(vals, signed, hash, height, round, precommits, n - 1)
      case None => None
      case Some(t) =>
        var v := precommits[n - 1];
        if v.signature == 0 then Some(t)
        else if !EntryOk(vals, signed, height, round, n - 1, v) then None
        else if v.hash == hash then Some(t + vals[n - 1].power)
        else Some(t)
  }

  /** `VerifyCommit`. A full-size commit without any signature makes `commit.Height()` dereference nil. */
  function VerifyCommit(vals: Validators, signed: Signatures, hash: Hash, height: int, c: Commit): Verdict {
    if |vals| != |c.precommits| then Reject
    else if |c.precommits| == 0 then
      if height != 0 then Reject
      else if 0 > Power.Total(vals) * 2 / 3 then Accept else Reject
    else
      match FirstFrom(c.precommits, 0)
      case None => Crash
      case Some(first) =>
        if height != first.height then Reject
        else
          match TallyTo(vals, signed, hash, height, first.round, c.precommits, |c.precommits|)
          case None => Reject
          case Some(t) => if t > Power.Total(vals) * 2 / 3 then Accept else Reject
  }

  /** `reconstructLastCommit`: add every signed entry to a ledger; None is one of its two panics. */
  function Replay(l: L.Ledger, signed: Signatures, precommits: seq<Vote>, n: nat): (r: Option<L.Ledger>)
    requires n <= |precommits| && L.Shaped(l)
    ensures r.Some? ==> L.Shaped(r.value)
  {
    if n == 0 then Some(l)
    else
      match Replay(l, signed, precommits, n - 1)
      case None => None
      case Some(k) =>
        var v := precommits[n - 1];
        if v.signature == 0 then Some(k)
        else
          var r := L.AddVote(k, signed, v);
          if !r.added || !r.err.NoError? then None else Some(r.ledger)
  }

  /** `DuplicateVoteEvidence.Verify`, with the address of the accused key. */
  predicate EvidenceVerifies(signed: Signatures, key: Address, a: Vote, b: Vote) {
    && a.height == b.height && a.round == b.round && a.kind == b.kind
    && a.address == b.address && a.index == b.index
    && a.hash != b.hash
    && (key, a) in signed && (key, b) in signed
  }

  // ------------------------------------------------------------------- proof

  /** The entries that vote for `hash`. */
  ghost function VotesFor(c: Commit, hash: Hash): set<int> {
    set i | 0 <= i < |c.precommits| && c.precommits[i].signature != 0 && c.precommits[i].hash == hash
  }

  ghost predicate AllOk(vals: Validators, signed: Signatures, height: int, round: int, c: Commit)
    requires |vals| == |c.precommits|
  {
    forall i :: 0 <= i < |c.precommits| && c.precommits[i].signature != 0 ==>
      EntryOk(vals, signed, height, round, i, c.precommits[i])
  }

  lemma {:induction false} TallyCounts(vals: Validators, signed: Signatures, hash: Hash, height: int,
                                       round: int, c: Commit, n: nat)
    requires n <= |c.precommits| == |vals|
    ensures var t := TallyTo(vals, signed, hash, height, round, c.precommits, n);
      && (t.Some? <==> forall i :: 0 <= i < n && c.precommits[i].signature != 0 ==>
                         EntryOk(vals, signed, height, round, i, c.precommits[i]))
      && (t.Some? ==> t.value == Power.Upto(vals, VotesFor(c, hash), n))
  {
    if n > 0 { TallyCounts(vals, signed, hash, height, round, c, n - 1); }
  }

  lemma {:induction false} FirstIsSome(precommits: seq<Vote>, i: nat)
    requires i <= |precommits|
    ensures FirstFrom(precommits, i).Some? <==> exists k :: i <= k < |precommits| && precommits[k].signature != 0
    ensures FirstFrom(precommits, i).Some? ==>
              exists k :: i <= k < |precommits| && precommits[k].signature != 0 && FirstFrom(precommits, i) == Some(precommits[k])
    decreases |precommits| - i
  {
    if i < |precommits| && precommits[i].signature == 0 { FirstIsSome(precommits, i + 1); }
  }

  // ------------------------------------------------------------ main results

  /**
   `VerifyCommit` accepts exactly the commits of the right size whose signed entries
   are precommits of one round and this height, properly signed by the validator of
   their slot, and of which more than two thirds of the power is for the block.
   */
  lemma VerifyCommitMeaning(vals: Validators, signed: Signatures, hash: Hash, height: int, c: Commit)
    ensures VerifyCommit(vals, signed, hash, height, c).Accept? <==>
      && |vals| == |c.precommits|
      && (exists round :: AllOk(vals, signed, height, round, c))
      && Power.Quorum(vals, VotesFor(c, hash))
  {
    if |vals| == |c.precommits| {
      if |vals| > 0 {
        FirstIsSome(c.precommits, 0);
        if FirstFrom(c.precommits, 0).Some? {
          var first := FirstFrom(c.precommits, 0).value;
          TallyCounts(vals, signed, hash, height, first.round, c, |vals|);
          L.QuorumPowerIsTwoThirds(vals, Power.Of(vals, VotesFor(c, hash)));
          if first.height == height {
            assert AllOk(vals, signed, height, first.round, c) <==>
                   TallyTo(vals, signed, hash, height, first.round, c.precommits, |vals|).Some?;
          }
          assert forall round :: AllOk(vals, signed, height, round, c) ==> round == first.round && first.height == height;
        } else {
          assert VotesFor(c, hash) == {};
          Power.EmptyUpto(vals, |vals|);
        }
      }
    }
  }

  /** An accepted commit stays accepted as more votes are signed. */
  lemma MoreSignatures(vals: Validators, signed: Signatures, more: Signatures, hash: Hash, height: int, c: Commit)
    requires VerifyCommit(vals, signed, hash, height, c).Accept? && signed <= more
    ensures VerifyCommit(vals, more, hash, height, c).Accept?
  {
    hide VerifyCommit;
    VerifyCommitMeaning(vals, signed, hash, height, c);
    VerifyCommitMeaning(vals, more, hash, height, c);
    var round :| AllOk(vals, signed, height, round, c);
    assert AllOk(vals, more, height, round, c);
  }

  /** The slots of a made commit hold the canonical votes. */
  lemma MadeCommit(l: L.Ledger, signed: Signatures)
    requires L.Valid(l, signed) && l.maj23.Some? && l.kind == PRECOMMIT
    ensures AllOk(l.vals, signed, l.height, l.round, MakeCommit(l))
    ensures Power.Quorum(l.vals, VotesFor(MakeCommit(l), l.maj23.value))
  {
    hide L.TrackingBounded, Power.Total, Power.Of;
    var c := MakeCommit(l);
    var b := l.byBlock[l.maj23.value];
    assert L.BlockValid(l, signed, l.maj23.value, b);
    forall i | 0 <= i < |c.precommits| && c.precommits[i].signature != 0
      ensures EntryOk(l.vals, signed, l.height, l.round, i, c.precommits[i])
    {
      assert L.Checked(l, signed, i, l.votes[i].value);
    }
    forall i | i in L.Voters(b.votes) ensures i in VotesFor(c, l.maj23.value) {
      assert L.Checked(l, signed, i, l.votes[i].value);
    }
    L.MajorityHasTwoThirdsAny(l, signed);
    Power.Mono(l.vals, L.Voters(b.votes), VotesFor(c, l.maj23.value));
  }

  /** A commit made from a precommit majority is accepted for its block and height. */
  lemma MadeCommitVerifies(l: L.Ledger, signed: Signatures)
    requires L.Valid(l, signed) && l.maj23.Some? && l.kind == PRECOMMIT
    ensures VerifyCommit(l.vals, signed, l.maj23.value, l.height, MakeCommit(l)).Accept?
  {
    MadeCommit(l, signed);
    VerifyCommitMeaning(l.vals, signed, l.maj23.value, l.height, MakeCommit(l));
    hide L.Valid;
  }

  /** Replaying the first `n` entries of a made commit: exactly those votes, none of them a conflict. */
  ghost predicate Replayed(k: L.Ledger, l: L.Ledger, signed: Signatures, n: nat)
    requires L.Shaped(l) && n <= |l.vals|
  {
    && L.Valid(k, signed)
    && k.height == l.height && k.round == l.round && k.kind == l.kind && k.vals == l.vals
    && (forall i :: 0 <= i < |l.vals| ==> k.votes[i] == if i < n then l.votes[i] else None)
    && (forall h, i :: 0 <= i < |l.vals| && L.Stored(k, h, i).Some? ==> L.Stored(k, h, i) == k.votes[i])
  }

  lemma {:induction false} ReplayGoesThrough(l: L.Ledger, signed: Signatures, n: nat)
    requires L.Valid(l, signed) && l.maj23.Some? && l.kind == PRECOMMIT && n <= |l.vals|
    ensures var r := Replay(L.New(l.height, l.round, PRECOMMIT, l.vals), signed, MakeCommit(l).precommits, n);
      r.Some? && Replayed(r.value, l, signed, n)
  {
    hide L.AddVote, L.CanonicalValid, L.MajorityValid, L.BlockValid, L.TrackingBounded, Replayed;
    var start := L.New(l.height, l.round, PRECOMMIT, l.vals);
    if n == 0 {
      ReplayStart(l, signed);
    } else {
      ReplayGoesThrough(l, signed, n - 1);
      var k := Replay(start, signed, MakeCommit(l).precommits, n - 1).value;
      if l.votes[n - 1].Some? {
        CanonicalChecked(l, signed, n - 1);
        ReplayOne(k, l, signed, n);
      } else {
        ReplayNone(k, l, signed, n);
      }
    }
  }

  lemma ReplayStart(l: L.Ledger, signed: Signatures)
    requires L.Valid(l, signed) && l.kind == PRECOMMIT
    ensures Replayed(L.New(l.height, l.round, PRECOMMIT, l.vals), l, signed, 0)
  {
    hide L.Valid, L.Stored;
    var start := L.New(l.height, l.round, PRECOMMIT, l.vals);
    L.NewIsValid(l.height, l.round, PRECOMMIT, l.vals);
    L.MoreSignatures(start, {}, signed);
    assert L.Shaped(start);
    StoredNowhere(l, start);
  }

  lemma StoredNowhere(l: L.Ledger, start: L.Ledger)
    requires start == L.New(l.height, l.round, PRECOMMIT, l.vals) && L.Shaped(start)
    ensures forall h, i :: 0 <= i < |l.vals| ==> L.Stored(start, h, i).None?
  {
  }

  lemma ReplayNone(k: L.Ledger, l: L.Ledger, signed: Signatures, n: nat)
    requires L.Shaped(l) && 0 < n <= |l.vals| && Replayed(k, l, signed, n - 1) && l.votes[n - 1].None?
    ensures Replayed(k, l, signed, n)
  {
    hide L.Valid, L.Stored;
  }

  lemma CanonicalChecked(l: L.Ledger, signed: Signatures, i: nat)
    requires L.Valid(l, signed) && i < |l.vals| && l.votes[i].Some?
    ensures L.Checked(l, signed, i, l.votes[i].value)
  {
  }

  lemma ReplayOne(k: L.Ledger, l: L.Ledger, signed: Signatures, n: nat)
    requires L.Valid(l, signed) && 0 < n <= |l.vals| && Replayed(k, l, signed, n - 1)
    requires l.votes[n - 1].Some? && L.Checked(l, signed, n - 1, l.votes[n - 1].value)
    ensures var r := L.AddVote(k, signed, l.votes[n - 1].value);
      r.added && r.err.NoError? && Replayed(r.ledger, l, signed, n)
  {
    hide L.AddVote, L.CanonicalValid, L.MajorityValid, L.BlockValid, L.TrackingBounded;
    var v := l.votes[n - 1].value;
    assert L.Acceptable(k, signed, v) by { assert L.Stored(k, v.hash, n - 1).None?; }
    L.AddVoteIsValid(k, signed, v);
    L.AcceptedVote(k, signed, v);
    var r := L.AddVote(k, signed, v).ledger;
    L.KeepsHeader(k, signed, v);
    forall h, i | 0 <= i < |l.vals| && L.Stored(r, h, i).Some?
      ensures L.Stored(r, h, i) == if i == n - 1 then Some(v) else k.votes[i]
    {
      L.RecordedAfter(k, signed, v, h, i);
    }
    forall i | 0 <= i < |l.vals| ensures r.votes[i] == if i < n then l.votes[i] else None {
      L.CanonicalAfter(k, signed, v, i);
    }
  }

  /**
   Replaying a made commit into a fresh vote set adds every vote without an error and
   reaches the same majority, so neither panic of `reconstructLastCommit` can fire on it.
   */
  lemma CommitRoundTrip(l: L.Ledger, signed: Signatures)
    requires L.Valid(l, signed) && l.maj23.Some? && l.kind == PRECOMMIT
    ensures var r := Replay(L.New(l.height, l.round, PRECOMMIT, l.vals), signed, MakeCommit(l).precommits, |l.vals|);
      r.Some? && r.value.maj23 == l.maj23 && r.value.votes == l.votes
  {
    hide L.BlockValid, L.TrackingBounded, Power.Total, Power.Of, Replay;
    ReplayGoesThrough(l, signed, |l.vals|);
    var k := Replay(L.New(l.height, l.round, PRECOMMIT, l.vals), signed, MakeCommit(l).precommits, |l.vals|).value;
    MajorityOfVotes(k, l, signed);
  }

  /** The canonical votes alone decide the majority. */
  lemma MajorityOfVotes(k: L.Ledger, l: L.Ledger, signed: Signatures)
    requires L.Valid(k, signed) && L.Valid(l, signed) && k.vals == l.vals && k.votes == l.votes && l.maj23.Some?
    ensures k.maj23 == l.maj23
  {
    hide L.TrackingBounded, Power.Total, Power.Of;
    var m := l.maj23.value;
    var a := l.byBlock[m];
    assert L.BlockValid(l, signed, m, a);
    L.MajorityHasTwoThirdsAny(l, signed);
    if k.maj23.None? {
      forall i | i in L.Voters(a.votes) ensures m in k.byBlock && i in L.Voters(k.byBlock[m].votes) {
        assert k.votes[i].value.hash == m;
      }
      if L.Voters(a.votes) == {} {
        PowerOfNone(l.vals);
      } else {
        var i :| i in L.Voters(a.votes);
        var b := k.byBlock[m];
        assert L.BlockValid(k, signed, m, b);
        Power.Mono(l.vals, L.Voters(a.votes), L.Voters(b.votes));
      }
    } else {
      var b := k.byBlock[k.maj23.value];
      assert L.BlockValid(k, signed, k.maj23.value, b);
      L.MajorityHasTwoThirdsAny(k, signed);
      PowerOfNone(l.vals);
      Power.AtMostTotal(l.vals, L.Voters(a.votes));
      var i := Power.QuorumsShareCorrect(l.vals, L.Voters(a.votes), L.Voters(b.votes), {});
    }
  }

  lemma PowerOfNone(vals: Validators)
    ensures Power.Of(vals, {}) == 0
  {
    Power.EmptyUpto(vals, |vals|);
  }

  /** Every conflict `AddVote` reports is a pair of votes that proves the double vote. */
  lemma ConflictsAreProvable(l: L.Ledger, signed: Signatures, vote: Vote)
    requires L.Valid(l, signed) && L.AddVote(l, signed, vote).err.Conflict?
    ensures var err := L.AddVote(l, signed, vote).err;
      && 0 <= vote.index < |l.vals| && err.second == vote
      && EvidenceVerifies(signed, l.vals[vote.index].address, err.first, err.second)
  {
    hide L.AddVote, L.MajorityValid, L.BlockValid, L.TrackingBounded;
    if !L.Acceptable(l, signed, vote) { L.RejectedVote(l, signed, vote); }
    L.AcceptedVote(l, signed, vote);
  }
}
