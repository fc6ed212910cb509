/**
 What a node knows a peer to have (`PeerConnState` in `peer_set.go`), and the vote it
 picks to send next.
 */
module Gossip {
  import opened Types
  import L = Ledger
  import C = Commits
  import B = BitArrays

  /** What a peer is known to have, by the array kept for it. */
  ghost function Content(a: B.BitArray?): set<int>
    reads a
  {
    if a == null || !a.Valid() then {} else a.Value()
  }

  /** The same array as before, or an empty one where there was none. */
  ghost predicate KeptOrNew(a: B.BitArray?, b: B.BitArray?)
    reads b
  {
    if a != null then b == a else b != null ==> b.Valid() && b.Value() == {}
  }

  /** The array, or a new empty one where there is none. */
  method Alloc(a: B.BitArray?, n: nat) returns (b: B.BitArray)
    requires n > 0 && (a != null ==> a.Valid())
    ensures b.Valid() && b.Value() == Content(a)
    ensures if a != null then b == a else fresh(b) && b.bits == n
  {
    if a != null { b := a; } else { b := new B.BitArray(n); }
  }

  /** `VoteSetReader`: the votes of one height, round and type, by validator. */
  datatype Reader = Reader(
    height: int, round: int, kind: int, isCommit: bool, bits: seq<bool>, votes: seq<Option<Vote>>)

  /** The flags say which validators' votes there are, and a commit is of precommits. */
  ghost predicate Reads(r: Reader) {
    && (r.isCommit ==> r.kind == PRECOMMIT)
    && |r.bits| == |r.votes| && forall i :: 0 <= i < |r.votes| ==> r.bits[i] == r.votes[i].Some?
  }

  /** A vote set as a reader. */
  function OfVoteSet(l: L.Ledger): Reader {
    Reader(l.height, l.round, l.kind, l.kind == PRECOMMIT && l.maj23.Some?, l.bits, l.votes)
  }

  /** A commit as a reader, which needs a signed entry for its height and round; an entry counts if it names a validator. */
  function OfCommit(c: C.Commit): Reader
    requires C.FirstFrom(c.precommits, 0).Some?
  {
    var n := |c.precommits|;
    var first := C.FirstFrom(c.precommits, 0).value;
    Reader(first.height, first.round, PRECOMMIT, n != 0,
           seq(n, i requires 0 <= i < n => c.precommits[i].address != 0),
           seq(n, i requires 0 <= i < n => if c.precommits[i].address != 0 then Some(c.precommits[i]) else None))
  }

  lemma VoteSetReads(l: L.Ledger, signed: Signatures)
    requires L.Valid(l, signed)
    ensures Reads(OfVoteSet(l))
  {
  }

  lemma CommitReads(c: C.Commit)
    requires C.FirstFrom(c.precommits, 0).Some?
    ensures Reads(OfCommit(c))
  {
    hide C.FirstFrom;
  }

  /** The places below `n` that are flagged. */
  ghost function Flagged(bits: seq<bool>, n: nat): set<int>
    requires n <= |bits|
  {
    set i | 0 <= i < n && bits[i]
  }

  /** `VoteSet.BitArray`: a copy of the flags of the canonical votes. */
  method BitArrayOf(bits: seq<bool>) returns (a: B.BitArray)
    requires |bits| > 0
    ensures fresh(a) && a.Valid() && a.bits == |bits|
    ensures a.Value() == Flagged(bits, |bits|)
  {
    a := new B.BitArray(|bits|);
    var i := 0;
    while i < |bits|
      invariant 0 <= i <= |bits| && a.Valid() && fresh(a)
      invariant a.Value() == Flagged(bits, i)
      modifies a
    {
      if bits[i] { var _ := a.SetIndex(i, true); }
      i := i + 1;
    }
  }

  /** What the program finds missing: below the last word of a smaller array it finds nothing. */
  ghost function Missing(r: Reader, known: set<int>, size: nat): set<int>
    requires size > 0
  {
    set i | i in L.Voters(r.votes) - known && (|r.votes| <= size || i >= B.LastWord(size))
  }

  lemma FlagsAreVotes(r: Reader)
    requires Reads(r)
    ensures Flagged(r.bits, |r.bits|) == L.Voters(r.votes)
  {
  }

  /** A vote of the reader that an array does not have yet. */
  method Pick(r: Reader, a: B.BitArray, word: nat, bit: nat -> nat) returns (index: int, ok: bool)
    requires Reads(r) && a.Valid() && |r.votes| > 0
    ensures ok == (Missing(r, a.Value(), a.bits) != {})
    ensures ok ==> index in Missing(r, a.Value(), a.bits)
  {
    hide B.BitsOf, Flagged, L.Voters;
    FlagsAreVotes(r);
    var ours := BitArrayOf(r.bits);
    var missing := ours.Sub(a);
    index, ok := missing.PickRandom(word, bit);
  }

  class PeerConnState {
    var height: int
    var round: int
    var proposalPOLRound: int
    var proposalPOL: B.BitArray?
    var prevotes: B.BitArray?
    var precommits: B.BitArray?
    var lastCommitRound: int
    var lastCommit: B.BitArray?
    var catchupCommitRound: int
    var catchupCommit: B.BitArray?

    ghost predicate Valid()
      reads this, proposalPOL, prevotes, precommits, lastCommit, catchupCommit
    {
      && (proposalPOL != null ==> proposalPOL.Valid())
      && (prevotes != null ==> prevotes.Valid())
      && (precommits != null ==> precommits.Valid())
      && (lastCommit != null ==> lastCommit.Valid())
      && (catchupCommit != null ==> catchupCommit.Valid())
    }

    /** `getVoteBitArray`. */
    function VoteArray(h: int, r: int, kind: int): (a: B.BitArray?)
      reads this
    {
      if !IsVoteTypeValid(kind) then null
      else if height == h then
        if round == r then (if kind == PREVOTE then prevotes else precommits)
        else if catchupCommitRound == r then (if kind == PREVOTE then null else catchupCommit)
        else if proposalPOLRound == r then (if kind == PREVOTE then proposalPOL else null)
        else null
      else if height == h + 1 && lastCommitRound == r then (if kind == PREVOTE then null else lastCommit)
      else null
    }

    /**
     What is kept of the votes a peer has: at its height both types of its round, the
     precommits of the catch-up round and the prevotes of the proof-of-lock round, unless
     that is the catch-up round too; and the precommits of the last commit.
     */
    ghost predicate Tracks(h: int, r: int, kind: int)
      reads this
    {
      || (h == height && r == round && IsVoteTypeValid(kind))
      || (h == height && r == catchupCommitRound && kind == PRECOMMIT)
      || (h == height && r == proposalPOLRound && r != catchupCommitRound && kind == PREVOTE)
      || (h == height - 1 && r == lastCommitRound && kind == PRECOMMIT)
    }

    /** The array for each of them. */
    lemma ArrayOf(h: int, r: int, kind: int)
      ensures !Tracks(h, r, kind) ==> VoteArray(h, r, kind) == null
      ensures VoteArray(height, round, PREVOTE) == prevotes && VoteArray(height, round, PRECOMMIT) == precommits
      ensures catchupCommitRound != round ==> VoteArray(height, catchupCommitRound, PRECOMMIT) == catchupCommit
      ensures proposalPOLRound != round && proposalPOLRound != catchupCommitRound ==>
                VoteArray(height, proposalPOLRound, PREVOTE) == proposalPOL
      ensures VoteArray(height - 1, lastCommitRound, PRECOMMIT) == lastCommit
    {
    }

    /** The proof-of-lock prevotes are kept exactly if that round is the peer's own or not its catch-up round. */
    lemma PolIsTracked()
      ensures Tracks(height, proposalPOLRound, PREVOTE) <==>
                proposalPOLRound == round || proposalPOLRound != catchupCommitRound
    {
    }

    /** `ensureCatchupCommitRound`: the catch-up array may be the precommit array itself. */
    method EnsureCatchupCommitRound(h: int, r: int, n: nat)
      requires Valid() && n > 0
      modifies this`catchupCommitRound, this`catchupCommit
      ensures Valid() && (height == h ==> catchupCommitRound == r)
      ensures KeptOrNew(old(VoteArray(h, r, PRECOMMIT)), VoteArray(h, r, PRECOMMIT))
      ensures old(VoteArray(h, r, PRECOMMIT)) == null && VoteArray(h, r, PRECOMMIT) != null ==>
                fresh(VoteArray(h, r, PRECOMMIT)) && VoteArray(h, r, PRECOMMIT).bits == n
    {
      if height != h || catchupCommitRound == r { return; }
      catchupCommitRound := r;
      if r == round { catchupCommit := precommits; } else { catchupCommit := new B.BitArray(n); }
    }

    /** `ensureVoteBitArrays`; what the peer is known to have of any round stays the same. */
    method EnsureVoteBitArrays(h: int, n: nat, ghost r: int, ghost kind: int)
      requires Valid() && n > 0
      modifies this`prevotes, this`precommits, this`catchupCommit, this`proposalPOL, this`lastCommit
      ensures Valid()
      ensures KeptOrNew(old(VoteArray(h, r, kind)), VoteArray(h, r, kind))
      ensures old(VoteArray(h, r, kind)) == null && VoteArray(h, r, kind) != null ==>
                fresh(VoteArray(h, r, kind)) && VoteArray(h, r, kind).bits == n
      ensures VoteArray(h, r, kind) != null <==> Tracks(h, r, kind)
    {
      hide B.BitsOf;
      if height == h {
        EnsureVotes(h, n, r, kind);
        EnsureOthers(h, n, r, kind);
      } else if height == h + 1 {
        lastCommit := Alloc(lastCommit, n);
      }
    }

    method EnsureVotes(h: int, n: nat, ghost r: int, ghost kind: int)
      requires Valid() && n > 0
      modifies this`prevotes, this`precommits
      ensures Valid() && prevotes != null && precommits != null
      ensures KeptOrNew(old(VoteArray(h, r, kind)), VoteArray(h, r, kind))
      ensures old(VoteArray(h, r, kind)) == null && VoteArray(h, r, kind) != null ==>
                fresh(VoteArray(h, r, kind)) && VoteArray(h, r, kind).bits == n
    {
      hide B.BitsOf;
      var a := Alloc(prevotes, n);
      var b := Alloc(precommits, n);
      prevotes, precommits := a, b;
    }

    method EnsureOthers(h: int, n: nat, ghost r: int, ghost kind: int)
      requires Valid() && n > 0
      modifies this`catchupCommit, this`proposalPOL
      ensures Valid() && catchupCommit != null && proposalPOL != null
      ensures KeptOrNew(old(VoteArray(h, r, kind)), VoteArray(h, r, kind))
      ensures old(VoteArray(h, r, kind)) == null && VoteArray(h, r, kind) != null ==>
                fresh(VoteArray(h, r, kind)) && VoteArray(h, r, kind).bits == n
    {
      hide B.BitsOf;
      var c := Alloc(catchupCommit, n);
      var d := Alloc(proposalPOL, n);
      catchupCommit, proposalPOL := c, d;
    }

    /** `setHasVote`. */
    method SetHasVote(h: int, r: int, kind: int, index: nat)
      requires Valid()
      modifies VoteArray(h, r, kind)
      ensures Valid()
      ensures var a := VoteArray(h, r, kind);
        a != null ==>
          Content(VoteArray(h, r, kind)) == old(Content(VoteArray(h, r, kind))) + (if index < a.bits then {index} else {})
    {
      var a := VoteArray(h, r, kind);
      if a != null { var _ := a.SetIndex(index, true); }
    }

    /**
     `PickVoteToSend`: a vote there is and the peer was not known to have, which it is known
     to have afterwards if the array has a place for it; none only when nothing is found
     missing or the round is not tracked. An array made for the votes misses nothing. `word`
     and `bit` are the random numbers drawn, `index` the validator of the vote.
     */
    method PickVoteToSend(r: Reader, word: nat, bit: nat -> nat) returns (vote: Option<Vote>, index: int)
      requires Valid() && Reads(r)
      modifies this, proposalPOL, prevotes, precommits, lastCommit, catchupCommit
      ensures Valid()
      ensures vote.Some? ==>
        var known, a := old(Content(VoteArray(r.height, r.round, r.kind))), VoteArray(r.height, r.round, r.kind);
        && a != null && index in Missing(r, known, a.bits) && vote == r.votes[index]
        && Content(a) == if index < a.bits then known + {index} else known
      ensures vote.None? && |r.votes| > 0 ==>
        var known, a := old(Content(VoteArray(r.height, r.round, r.kind))), VoteArray(r.height, r.round, r.kind);
        Content(a) == known && (a == null || Missing(r, known, a.bits) == {})
      ensures |r.votes| > 0 && old(VoteArray(r.height, r.round, r.kind)) == null ==>
        var a := VoteArray(r.height, r.round, r.kind);
        a != null ==> a.bits == |r.votes|
      ensures |r.votes| > 0 ==> (VoteArray(r.height, r.round, r.kind) != null <==> Tracks(r.height, r.round, r.kind))
      ensures |r.votes| > 0 && r.isCommit && r.height == height ==> Tracks(r.height, r.round, r.kind)
    {
      hide B.BitsOf, L.Voters, Content, Missing;
      if |r.votes| == 0 { return None, 0; }
      Prepare(r);
      var a := VoteArray(r.height, r.round, r.kind);
      if a == null { return None, 0; }
      vote, index := PickFor(a, r, word, bit);
    }

    /** The vote for the array that is kept for its round. */
    method PickFor(a: B.BitArray, r: Reader, word: nat, bit: nat -> nat) returns (vote: Option<Vote>, index: int)
      requires Valid() && Reads(r) && a == VoteArray(r.height, r.round, r.kind) && |r.votes| > 0
      modifies a
      ensures Valid()
      ensures vote.Some? ==>
        && index in Missing(r, old(Content(a)), a.bits) && vote == r.votes[index]
        && Content(a) == if index < a.bits then old(Content(a)) + {index} else old(Content(a))
      ensures vote.None? ==> Content(a) == old(Content(a)) && Missing(r, Content(a), a.bits) == {}
    {
      hide B.BitsOf;
      var ok;
      index, ok := Pick(r, a, word, bit);
      if !ok { return None, 0; }
      SetHasVote(r.height, r.round, r.kind, index);
      vote := r.votes[index];
    }

    /** The arrays for some votes are there, and what the peer is known to have is unchanged. */
    method Prepare(r: Reader)
      requires Valid() && |r.votes| > 0 && (r.isCommit ==> r.kind == PRECOMMIT)
      modifies this
      ensures Valid()
      ensures var a := VoteArray(r.height, r.round, r.kind);
        && KeptOrNew(old(VoteArray(r.height, r.round, r.kind)), a)
        && (old(VoteArray(r.height, r.round, r.kind)) == null && a != null ==> fresh(a) && a.bits == |r.votes|)
      ensures Content(VoteArray(r.height, r.round, r.kind)) == old(Content(VoteArray(r.height, r.round, r.kind)))
      ensures VoteArray(r.height, r.round, r.kind) != null <==> Tracks(r.height, r.round, r.kind)
      ensures r.isCommit && r.height == height ==> Tracks(r.height, r.round, r.kind)
      ensures height == old(height) && round == old(round)
    {
      hide B.BitsOf;
      if r.isCommit { EnsureCatchupCommitRound(r.height, r.round, |r.votes|); }
      EnsureVoteBitArrays(r.height, |r.votes|, r.round, r.kind);
    }
  }
}
