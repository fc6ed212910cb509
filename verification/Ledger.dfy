/**
 The vote ledger of one height, round and vote type (`types/vote_set.go`), as a
 value: what `AddVote` and `SetPeerMaj23` compute, and the invariant every
 sequence of them keeps.
 */
module Ledger {
  import opened Types
  import Power

  /** `blockVotes`: the votes recorded for one block. */
  datatype BlockVotes = BlockVotes(
    peerMaj23: bool, bits: seq<bool>, votes: seq<Option<Vote>>, sum: nat)

  /** `VoteSet`. */
  datatype Ledger = Ledger(
    height: int, round: int, kind: int, vals: Validators,
    bits: seq<bool>, votes: seq<Option<Vote>>, sum: nat,
    maj23: Option<Hash>,
    byBlock: map<Hash, BlockVotes>,
    peerMaj23s: map<PeerId, Hash>)

  datatype AddError =
    | NoError
    | InvalidIndex
    | InvalidAddress
    | UnexpectedStep
    | NonDeterministicSignature
    | InvalidSignature
    | UnwantedRound
    | Conflict(first: Vote, second: Vote)

  /** What a call of `AddVote` leaves behind; `panicked` marks a failed sanity check. */
  datatype Added = Added(ledger: Ledger, added: bool, err: AddError, panicked: bool)

  // ------------------------------------------------------------------ shape

  ghost predicate Shaped(l: Ledger) {
    && |l.bits| == |l.votes| == |l.vals|
    && forall h :: h in l.byBlock ==> |l.byBlock[h].bits| == |l.byBlock[h].votes| == |l.vals|
  }

  function Blank<T>(n: nat, x: T): (s: seq<T>)
    ensures |s| == n
    ensures forall i :: 0 <= i < n ==> s[i] == x
  {
    seq(n, i => x)
  }

  function NewBlockVotes(peerMaj23: bool, n: nat): BlockVotes {
    BlockVotes(peerMaj23, Blank(n, false), Blank(n, None), 0)
  }

  /** `NewVoteSet`. */
  function New(height: int, round: int, kind: int, vals: Validators): Ledger {
    Ledger(height, round, kind, vals, Blank(|vals|, false), Blank(|vals|, None), 0, None, map[], map[])
  }

  // -------------------------------------------------------------- operations

  /** The least power that counts as a +2/3 majority. */
  function QuorumPower(vals: Validators): nat {
    Power.Total(vals) * 2 / 3 + 1
  }

  /** `blockVotes.addVerifiedVote`. */
  function Record(b: BlockVotes, vote: Vote, power: nat): BlockVotes
    requires 0 <= vote.index < |b.votes| == |b.bits|
  {
    if b.votes[vote.index].Some? then b
    else b.(bits := b.bits[vote.index := true],
            votes := b.votes[vote.index := Some(vote)],
            sum := b.sum + power)
  }

  /** The canonical votes after the majority block's votes are copied over them. */
  function Overlay(votes: seq<Option<Vote>>, over: seq<Option<Vote>>): (r: seq<Option<Vote>>)
    requires |votes| == |over|
    ensures |r| == |votes|
    ensures forall i :: 0 <= i < |r| ==> r[i] == (if over[i].Some? then over[i] else votes[i])
  {
    seq(|votes|, i requires 0 <= i < |votes| => if over[i].Some? then over[i] else votes[i])
  }

  /** First half of `addVerifiedVote`: the canonical vote, the bit and the sum. */
  function Canonical(l: Ledger, vote: Vote): (r: Ledger)
    requires Shaped(l) && 0 <= vote.index < |l.votes|
    ensures Shaped(r) && r.vals == l.vals && r.byBlock == l.byBlock && r.maj23 == l.maj23
  {
    if l.votes[vote.index].None? then
      l.(votes := l.votes[vote.index := Some(vote)],
         bits := l.bits[vote.index := true],
         sum := l.sum + l.vals[vote.index].power)
    else if l.maj23 == Some(vote.hash) then
      l.(votes := l.votes[vote.index := Some(vote)],
         bits := l.bits[vote.index := true])
    else l
  }

  /** Second half: record the vote under its block and notice a first quorum. */
  function Tally(l: Ledger, vote: Vote, b: BlockVotes): (r: Ledger)
    requires Shaped(l) && 0 <= vote.index < |l.votes|
    requires |b.bits| == |b.votes| == |l.vals|
    ensures Shaped(r) && r.vals == l.vals
  {
    var b' := Record(b, vote, l.vals[vote.index].power);
    var l' := l.(byBlock := l.byBlock[vote.hash := b']);
    if b.sum < QuorumPower(l.vals) <= b'.sum && l.maj23.None?
    then l'.(maj23 := Some(vote.hash), votes := Overlay(l'.votes, b'.votes))
    else l'
  }

  /** `addVerifiedVote`. */
  function AddVerified(l: Ledger, vote: Vote): (r: Added)
    requires Shaped(l) && 0 <= vote.index < |l.votes|
    ensures Shaped(r.ledger) && r.ledger.vals == l.vals
  {
    var prior := l.votes[vote.index];
    if prior.Some? && prior.value.hash == vote.hash then
      Added(l, false, NoError, true)
    else
      var err := if prior.Some? then Conflict(prior.value, vote) else NoError;
      var l1 := Canonical(l, vote);
      if vote.hash in l.byBlock then
        if prior.Some? && !l.byBlock[vote.hash].peerMaj23
        then Added(l1, false, err, false)
        else Added(Tally(l1, vote, l.byBlock[vote.hash]), true, err, false)
      else if prior.Some? then Added(l1, false, err, false)
      else Added(Tally(l1, vote, NewBlockVotes(false, |l.vals|)), true, err, false)
  }

  /** `getVote`: the stored vote of a validator for a block, if there is one. */
  function GetVote(l: Ledger, i: int, h: Hash): Option<Vote>
    requires Shaped(l) && 0 <= i < |l.votes|
  {
    if l.votes[i].Some? && l.votes[i].value.hash == h then l.votes[i]
    else if h in l.byBlock then l.byBlock[h].votes[i]
    else None
  }

  /** `addVote`: every check, in the program's order, and then the tally. */
  function AddVote(l: Ledger, signed: Signatures, vote: Vote): (r: Added)
    requires Shaped(l)
    ensures Shaped(r.ledger) && r.ledger.vals == l.vals
  {
    if vote.index < 0 then Added(l, false, InvalidIndex, false)
    else if vote.address == 0 then Added(l, false, InvalidAddress, false)
    else if vote.height != l.height || vote.round != l.round || vote.kind != l.kind then
      Added(l, false, UnexpectedStep, false)
    else if vote.index >= |l.vals| then Added(l, false, InvalidIndex, false)
    else if l.vals[vote.index].address != vote.address then Added(l, false, InvalidAddress, false)
    else
      var existing := GetVote(l, vote.index, vote.hash);
      if existing.Some? then
        Added(l, false,
              if existing.value.signature == vote.signature then NoError else NonDeterministicSignature,
              false)
      else if !Verifies(signed, l.vals[vote.index].address, vote) then
        Added(l, false, InvalidSignature, false)
      else
        var r := AddVerified(l, vote);
        if r.err.NoError? && !r.added then r.(panicked := true) else r
  }

  /** `SetPeerMaj23`. */
  function SetPeerMaj23(l: Ledger, peer: PeerId, h: Hash): (r: Ledger)
    requires Shaped(l)
    ensures Shaped(r) && r.vals == l.vals
  {
    if peer in l.peerMaj23s then l
    else
      var l1 := l.(peerMaj23s := l.peerMaj23s[peer := h]);
      if h in l.byBlock
      then l1.(byBlock := l.byBlock[h := l.byBlock[h].(peerMaj23 := true)])
      else l1.(byBlock := l.byBlock[h := NewBlockVotes(true, |l.vals|)])
  }

  /** `HasTwoThirdsAny` and `HasAll`. */
  predicate HasTwoThirdsAny(l: Ledger) { l.sum > Power.Total(l.vals) * 2 / 3 }
  predicate HasAll(l: Ledger) { l.sum == Power.Total(l.vals) }

  // --------------------------------------------------------------- invariant

  /** The validators that have a vote in a list. */
  ghost function Voters(votes: seq<Option<Vote>>): set<int> {
    set i | 0 <= i < |votes| && votes[i].Some?
  }

  /** A vote that was checked for this ledger and belongs to validator `i`. */
  ghost predicate Checked(l: Ledger, signed: Signatures, i: int, v: Vote)
    requires 0 <= i < |l.vals|
  {
    && v.index == i && v.address == l.vals[i].address != 0
    && v.height == l.height && v.round == l.round && v.kind == l.kind
    && Verifies(signed, l.vals[i].address, v)
  }

  ghost predicate BlockValid(l: Ledger, signed: Signatures, h: Hash, b: BlockVotes)
    requires Shaped(l) && |b.bits| == |b.votes| == |l.vals|
  {
    && (forall i :: 0 <= i < |b.votes| ==> b.bits[i] == b.votes[i].Some?)
    && (forall i :: 0 <= i < |b.votes| && b.votes[i].Some? ==>
          && Checked(l, signed, i, b.votes[i].value)
          && b.votes[i].value.hash == h
          && l.votes[i].Some?)
    && b.sum == Power.Of(l.vals, Voters(b.votes))
  }

  /** Canonical votes: checked, counted once each, and kept under their block or the majority. */
  ghost predicate CanonicalValid(l: Ledger, signed: Signatures)
    requires Shaped(l)
  {
    && (forall i :: 0 <= i < |l.votes| ==> l.bits[i] == l.votes[i].Some?)
    && (forall i :: 0 <= i < |l.votes| && l.votes[i].Some? ==>
          && Checked(l, signed, i, l.votes[i].value)
          && (|| l.maj23 == Some(l.votes[i].value.hash)
              || (&& l.votes[i].value.hash in l.byBlock
                  && l.byBlock[l.votes[i].value.hash].votes[i] == l.votes[i])))
    && l.sum == Power.Of(l.vals, Voters(l.votes))
  }

  /** `maj23` is set exactly when some block has +2/3, and its votes are the canonical ones. */
  ghost predicate MajorityValid(l: Ledger)
    requires Shaped(l)
  {
    && (l.maj23.None? ==> forall h :: h in l.byBlock ==> 3 * l.byBlock[h].sum <= 2 * Power.Total(l.vals))
    && (l.maj23.Some? ==>
          && l.maj23.value in l.byBlock
          && 3 * l.byBlock[l.maj23.value].sum > 2 * Power.Total(l.vals)
          && forall i :: 0 <= i < |l.votes| && l.byBlock[l.maj23.value].votes[i].Some? ==>
               l.votes[i].Some? && l.votes[i].value.hash == l.maj23.value)
  }

  ghost predicate Claimed(l: Ledger, h: Hash) {
    exists p :: p in l.peerMaj23s && l.peerMaj23s[p] == h
  }

  /** Blocks are tracked for a validator's first vote or for one claim of a peer. */
  ghost predicate TrackingBounded(l: Ledger) {
    && |l.byBlock| <= |Voters(l.votes)| + |l.peerMaj23s|
    && (forall p :: p in l.peerMaj23s ==> l.peerMaj23s[p] in l.byBlock)
    && (forall h :: h in l.byBlock ==> (l.byBlock[h].peerMaj23 <==> Claimed(l, h)))
  }

  ghost predicate Valid(l: Ledger, signed: Signatures) {
    && Shaped(l)
    && CanonicalValid(l, signed)
    && (forall h :: h in l.byBlock ==> BlockValid(l, signed, h, l.byBlock[h]))
    && MajorityValid(l)
    && TrackingBounded(l)
  }

  // ------------------------------------------------------------------- proof

  lemma QuorumPowerIsTwoThirds(vals: Validators, s: nat)
    ensures s >= QuorumPower(vals) <==> 3 * s > 2 * Power.Total(vals)
    ensures s > Power.Total(vals) * 2 / 3 <==> 3 * s > 2 * Power.Total(vals)
  {
  }

  lemma NewIsValid(height: int, round: int, kind: int, vals: Validators)
    ensures Valid(New(height, round, kind, vals), {})
  {
    var l := New(height, round, kind, vals);
    assert Voters(l.votes) == {};
    Power.EmptyUpto(vals, |vals|);
  }

  /** Signatures only accumulate, and no ledger minds. */
  lemma MoreSignatures(l: Ledger, signed: Signatures, more: Signatures)
    requires Valid(l, signed) && signed <= more
    ensures Valid(l, more)
  {
  }

  /** Replacing or adding one canonical vote moves the set of voters by at most that index. */
  lemma VotersUpdate(votes: seq<Option<Vote>>, i: int, v: Vote)
    requires 0 <= i < |votes|
    ensures Voters(votes[i := Some(v)]) == Voters(votes) + {i}
    ensures votes[i].None? ==> i !in Voters(votes)
  {
  }

  lemma RecordIsValid(l: Ledger, signed: Signatures, b: BlockVotes, vote: Vote)
    requires Shaped(l) && |b.bits| == |b.votes| == |l.vals|
    requires BlockValid(l, signed, vote.hash, b)
    requires 0 <= vote.index < |l.vals| && Checked(l, signed, vote.index, vote)
    requires l.votes[vote.index].Some?
    ensures BlockValid(l, signed, vote.hash, Record(b, vote, l.vals[vote.index].power))
  {
    if b.votes[vote.index].None? {
      VotersUpdate(b.votes, vote.index, vote);
      Power.Insert(l.vals, Voters(b.votes), vote.index);
    }
  }

  lemma BlankIsValid(l: Ledger, signed: Signatures, h: Hash, peer: bool)
    requires Shaped(l)
    ensures BlockValid(l, signed, h, NewBlockVotes(peer, |l.vals|))
  {
    assert Voters(Blank<Option<Vote>>(|l.vals|, None)) == {};
    Power.EmptyUpto(l.vals, |l.vals|);
  }

  /** A vote that passes the checks of `AddVote` and is not stored yet. */
  ghost predicate Acceptable(l: Ledger, signed: Signatures, vote: Vote)
    requires Shaped(l)
  {
    && 0 <= vote.index < |l.vals|
    && Checked(l, signed, vote.index, vote)
    && GetVote(l, vote.index, vote.hash).None?
  }

  /** Canonical part of a conflicting vote: the voters stay, and the ledger stays valid. */
  lemma CanonicalConflict(l: Ledger, signed: Signatures, vote: Vote)
    requires Valid(l, signed) && Acceptable(l, signed, vote) && l.votes[vote.index].Some?
    ensures Valid(Canonical(l, vote), signed)
    ensures Voters(Canonical(l, vote).votes) == Voters(l.votes)
  {
    hide CanonicalValid, MajorityValid, BlockValid;
    var l1 := Canonical(l, vote);
    ConflictVoters(l, vote);
    ConflictCanonical(l, signed, vote);
    CanonicalMajority(l, vote);
    forall h | h in l1.byBlock ensures BlockValid(l1, signed, h, l1.byBlock[h]) {
      BlockKept(l, l1, signed, h, l.byBlock[h]);
    }
  }

  lemma ConflictVoters(l: Ledger, vote: Vote)
    requires Shaped(l) && 0 <= vote.index < |l.votes| && l.votes[vote.index].Some?
    ensures Voters(Canonical(l, vote).votes) == Voters(l.votes)
  {
    VotersUpdate(l.votes, vote.index, vote);
    assert Voters(l.votes) + {vote.index} == Voters(l.votes);
  }

  lemma ConflictCanonical(l: Ledger, signed: Signatures, vote: Vote)
    requires Shaped(l) && CanonicalValid(l, signed)
    requires 0 <= vote.index < |l.votes| && l.votes[vote.index].Some?
    requires Checked(l, signed, vote.index, vote)
    ensures CanonicalValid(Canonical(l, vote), signed)
  {
    hide Power.Of, Voters;
    ConflictVoters(l, vote);
  }

  lemma CanonicalMajority(l: Ledger, vote: Vote)
    requires Shaped(l) && MajorityValid(l)
    requires 0 <= vote.index < |l.votes|
    ensures MajorityValid(Canonical(l, vote))
  {
    hide Power.Total;
  }

  /** A block's validity only looks at who has voted canonically. */
  lemma BlockKept(l: Ledger, r: Ledger, signed: Signatures, h: Hash, b: BlockVotes)
    requires Shaped(l) && Shaped(r) && |b.bits| == |b.votes| == |l.vals|
    requires BlockValid(l, signed, h, b)
    requires r.vals == l.vals && r.height == l.height && r.round == l.round && r.kind == l.kind
    requires forall i :: 0 <= i < |l.votes| && l.votes[i].Some? ==> r.votes[i].Some?
    ensures BlockValid(r, signed, h, b)
  {
    hide Power.Of, Voters;
  }

  /** The blocks stay valid when one of them takes the vote. */
  lemma TallyBlocks(l: Ledger, signed: Signatures, vote: Vote, b: BlockVotes)
    requires Shaped(l) && 0 <= vote.index < |l.vals| && |b.bits| == |b.votes| == |l.vals|
    requires forall h :: h in l.byBlock ==> BlockValid(l, signed, h, l.byBlock[h])
    requires BlockValid(l, signed, vote.hash, b)
    requires Checked(l, signed, vote.index, vote) && l.votes[vote.index].Some?
    ensures forall h :: h in Tally(l, vote, b).byBlock ==>
              BlockValid(Tally(l, vote, b), signed, h, Tally(l, vote, b).byBlock[h])
  {
    hide BlockValid, QuorumPower;
    var r := Tally(l, vote, b);
    RecordIsValid(l, signed, b, vote);
    forall h | h in r.byBlock ensures BlockValid(r, signed, h, r.byBlock[h]) {
      BlockKept(l, r, signed, h, r.byBlock[h]);
    }
  }

  /** The overlay replaces votes but never adds a voter. */
  lemma TallyVoters(l: Ledger, signed: Signatures, vote: Vote, b: BlockVotes)
    requires Shaped(l) && 0 <= vote.index < |l.vals| && |b.bits| == |b.votes| == |l.vals|
    requires BlockValid(l, signed, vote.hash, b) && l.votes[vote.index].Some?
    ensures Voters(Tally(l, vote, b).votes) == Voters(l.votes)
  {
    hide Power.Of, QuorumPower;
  }

  /** After the tally every canonical vote is under its block or for the majority. */
  lemma TallyCanonical(l: Ledger, signed: Signatures, vote: Vote, b: BlockVotes)
    requires Shaped(l) && 0 <= vote.index < |l.vals| && |b.bits| == |b.votes| == |l.vals|
    requires vote.hash in l.byBlock ==> b == l.byBlock[vote.hash]
    requires BlockValid(l, signed, vote.hash, b) && b.votes[vote.index].None?
    requires Checked(l, signed, vote.index, vote)
    requires forall i :: 0 <= i < |l.votes| ==> l.bits[i] == l.votes[i].Some?
    requires forall i :: 0 <= i < |l.votes| && l.votes[i].Some? ==> Checked(l, signed, i, l.votes[i].value)
    requires forall i :: 0 <= i < |l.votes| && i != vote.index && l.votes[i].Some? ==>
               || l.maj23 == Some(l.votes[i].value.hash)
               || (&& l.votes[i].value.hash in l.byBlock
                   && l.byBlock[l.votes[i].value.hash].votes[i] == l.votes[i])
    requires l.votes[vote.index] == Some(vote)
             || (vote.hash in l.byBlock && l.votes[vote.index].Some? && l.maj23 != Some(vote.hash)
                 && (|| l.maj23 == Some(l.votes[vote.index].value.hash)
                     || (&& l.votes[vote.index].value.hash in l.byBlock
                         && l.votes[vote.index].value.hash != vote.hash
                         && l.byBlock[l.votes[vote.index].value.hash].votes[vote.index] == l.votes[vote.index])))
    requires l.sum == Power.Of(l.vals, Voters(l.votes))
    ensures CanonicalValid(Tally(l, vote, b), signed)
  {
    hide Power.Of, Voters, QuorumPower, Tally;
    TallyVoters(l, signed, vote, b);
    TallyHeader(l, vote, b);
    var r := Tally(l, vote, b);
    forall i | 0 <= i < |r.votes|
      ensures r.bits[i] == r.votes[i].Some?
      ensures r.votes[i].Some? ==>
        && Checked(r, signed, i, r.votes[i].value)
        && (|| r.maj23 == Some(r.votes[i].value.hash)
            || (r.votes[i].value.hash in r.byBlock && r.byBlock[r.votes[i].value.hash].votes[i] == r.votes[i]))
    {
      TallyCanonicalAt(l, signed, vote, b, i);
    }
  }

  /** The part of `CanonicalValid` about one validator. */
  ghost predicate CanonicalAt(l: Ledger, signed: Signatures, i: int)
    requires Shaped(l) && 0 <= i < |l.vals|
  {
    && l.bits[i] == l.votes[i].Some?
    && (l.votes[i].Some? ==>
          && Checked(l, signed, i, l.votes[i].value)
          && (|| l.maj23 == Some(l.votes[i].value.hash)
              || (&& l.votes[i].value.hash in l.byBlock
                  && l.byBlock[l.votes[i].value.hash].votes[i] == l.votes[i])))
  }

  lemma TallyHeader(l: Ledger, vote: Vote, b: BlockVotes)
    requires Shaped(l) && 0 <= vote.index < |l.votes| && |b.bits| == |b.votes| == |l.vals|
    ensures var r := Tally(l, vote, b); r.sum == l.sum && r.vals == l.vals && r.bits == l.bits
  {
  }

  lemma TallyCanonicalAt(l: Ledger, signed: Signatures, vote: Vote, b: BlockVotes, i: int)
    requires Shaped(l) && 0 <= vote.index < |l.vals| && |b.bits| == |b.votes| == |l.vals| && 0 <= i < |l.vals|
    requires vote.hash in l.byBlock ==> b == l.byBlock[vote.hash]
    requires BlockValid(l, signed, vote.hash, b) && b.votes[vote.index].None?
    requires Checked(l, signed, vote.index, vote) && l.votes[vote.index].Some?
    requires l.bits[i] == l.votes[i].Some? && (l.votes[i].Some? ==> Checked(l, signed, i, l.votes[i].value))
    requires i != vote.index ==> CanonicalAt(l, signed, i)
    requires l.votes[vote.index] == Some(vote) || (l.votes[vote.index].value.hash != vote.hash && CanonicalAt(l, signed, vote.index))
             || l.maj23 == Some(l.votes[vote.index].value.hash)
    ensures CanonicalAt(Tally(l, vote, b), signed, i)
  {
    hide Power.Of, Voters, QuorumPower;
  }

  /** The first block to cross two thirds becomes the majority, and none is missed. */
  lemma TallyMajority(l: Ledger, signed: Signatures, vote: Vote, b: BlockVotes)
    requires Shaped(l) && 0 <= vote.index < |l.vals| && |b.bits| == |b.votes| == |l.vals|
    requires BlockValid(l, signed, vote.hash, b) && b.votes[vote.index].None?
    requires MajorityValid(l)
    requires if vote.hash in l.byBlock then b == l.byBlock[vote.hash] else b.sum == 0
    requires l.votes[vote.index].Some?
    requires l.maj23 == Some(vote.hash) ==> l.votes[vote.index].value.hash == vote.hash
    ensures MajorityValid(Tally(l, vote, b))
  {
    var b' := Record(b, vote, l.vals[vote.index].power);
    QuorumPowerIsTwoThirds(l.vals, b.sum);
    QuorumPowerIsTwoThirds(l.vals, b'.sum);
    hide Power.Total, Power.Of, QuorumPower;
  }

  lemma TallyTracking(l: Ledger, l1: Ledger, vote: Vote, b: BlockVotes)
    requires Shaped(l) && Shaped(l1) && 0 <= vote.index < |l.vals| && |b.bits| == |b.votes| == |l.vals|
    requires l1.vals == l.vals && l1.byBlock == l.byBlock && l1.peerMaj23s == l.peerMaj23s
    requires TrackingBounded(l)
    requires if vote.hash in l.byBlock then b == l.byBlock[vote.hash]
             else vote.index !in Voters(l.votes) && !b.peerMaj23
    requires Voters(Tally(l1, vote, b).votes) == Voters(l.votes) + {vote.index}
    ensures TrackingBounded(Tally(l1, vote, b))
  {
    hide Voters, Claimed, Tally;
    var r := Tally(l1, vote, b);
    TallyKeys(l1, vote, b);
    CountMono(Voters(l.votes), Voters(r.votes));
    CountKeys(l.byBlock, vote.hash, r.byBlock[vote.hash]);
    if vote.hash !in l.byBlock {
      assert |Voters(r.votes)| == |Voters(l.votes)| + 1;
    }
    SameClaims(l, r);
  }

  /** A tally tracks the block of the vote and keeps who claimed what. */
  lemma TallyKeys(l: Ledger, vote: Vote, b: BlockVotes)
    requires Shaped(l) && 0 <= vote.index < |l.vals| && |b.bits| == |b.votes| == |l.vals|
    ensures var r := Tally(l, vote, b);
      && r.peerMaj23s == l.peerMaj23s && vote.hash in r.byBlock
      && r.byBlock == l.byBlock[vote.hash := r.byBlock[vote.hash]]
      && r.byBlock[vote.hash].peerMaj23 == b.peerMaj23
  {
    hide QuorumPower, Overlay, Record;
    RecordKeepsFlag(b, vote, l.vals[vote.index].power);
  }

  lemma RecordKeepsFlag(b: BlockVotes, vote: Vote, power: nat)
    requires 0 <= vote.index < |b.votes| == |b.bits|
    ensures Record(b, vote, power).peerMaj23 == b.peerMaj23
  {
  }

  lemma SameClaims(l: Ledger, r: Ledger)
    requires r.peerMaj23s == l.peerMaj23s
    requires forall p :: p in l.peerMaj23s ==> l.peerMaj23s[p] in l.byBlock
    ensures forall h :: Claimed(r, h) == Claimed(l, h)
    ensures forall h :: Claimed(l, h) ==> h in l.byBlock
  {
  }

  lemma CountKeys<K, V>(m: map<K, V>, k: K, v: V)
    ensures |m[k := v]| == |m| + (if k in m then 0 else 1)
  {
    assert m[k := v].Keys == m.Keys + {k};
    if k in m { assert m.Keys + {k} == m.Keys; }
  }

  lemma CountMono<T>(a: set<T>, b: set<T>)
    requires a <= b
    ensures |a| <= |b|
  {
    assert b == a + (b - a);
  }

  /** The blocks do not notice the canonical part of a new vote. */
  lemma CanonicalBlocks(l: Ledger, signed: Signatures, vote: Vote)
    requires Shaped(l) && 0 <= vote.index < |l.votes|
    requires forall h :: h in l.byBlock ==> BlockValid(l, signed, h, l.byBlock[h])
    ensures forall h :: h in l.byBlock ==> BlockValid(Canonical(l, vote), signed, h, l.byBlock[h])
  {
    hide BlockValid;
    var l1 := Canonical(l, vote);
    assert forall i :: 0 <= i < |l.votes| && l.votes[i].Some? ==> l1.votes[i].Some?;
    forall h | h in l.byBlock ensures BlockValid(l1, signed, h, l.byBlock[h]) {
      BlockKept(l, l1, signed, h, l.byBlock[h]);
    }
  }

  /** The canonical part of a vote, followed by its tally. */
  lemma CountedCanonical(l: Ledger, signed: Signatures, vote: Vote, b: BlockVotes)
    requires Shaped(l) && CanonicalValid(l, signed) && Acceptable(l, signed, vote)
    requires |b.bits| == |b.votes| == |l.vals| && b.votes[vote.index].None?
    requires if vote.hash in l.byBlock then b == l.byBlock[vote.hash] else l.votes[vote.index].None?
    requires BlockValid(Canonical(l, vote), signed, vote.hash, b)
    ensures CanonicalValid(Tally(Canonical(l, vote), vote, b), signed)
  {
    hide Tally, BlockValid, Power.Of, Voters;
    CanonicalSum(l, signed, vote);
    TallyCanonical(Canonical(l, vote), signed, vote, b);
  }

  /** Whether it is a validator's first vote or a conflicting one, a counted vote keeps the ledger valid. */
  lemma TallyIsValid(l: Ledger, signed: Signatures, vote: Vote, b: BlockVotes)
    requires Valid(l, signed) && Acceptable(l, signed, vote)
    requires if vote.hash in l.byBlock then b == l.byBlock[vote.hash]
             else l.votes[vote.index].None? && b == NewBlockVotes(false, |l.vals|)
    ensures Valid(Tally(Canonical(l, vote), vote, b), signed)
  {
    hide Tally, BlockValid, MajorityValid, CanonicalValid, TrackingBounded, Power.Of, Voters;
    var l1 := Canonical(l, vote);
    CanonicalBlocks(l, signed, vote);
    CanonicalMajority(l, vote);
    if vote.hash !in l.byBlock { BlankIsValid(l1, signed, vote.hash, false); }
    VotersAfter(l, vote);
    TallyVoters(l1, signed, vote, b);
    CountedCanonical(l, signed, vote, b);
    TallyMajority(l1, signed, vote, b);
    TallyTracking(l, l1, vote, b);
    TallyBlocks(l1, signed, vote, b);
  }

  lemma VotersAfter(l: Ledger, vote: Vote)
    requires Shaped(l) && 0 <= vote.index < |l.votes|
    ensures Voters(Canonical(l, vote).votes) == Voters(l.votes) + {vote.index}
    ensures l.votes[vote.index].None? ==> vote.index !in Voters(l.votes)
  {
    VotersUpdate(l.votes, vote.index, vote);
  }

  lemma CanonicalSum(l: Ledger, signed: Signatures, vote: Vote)
    requires Shaped(l) && CanonicalValid(l, signed) && 0 <= vote.index < |l.votes|
    ensures Canonical(l, vote).sum == Power.Of(l.vals, Voters(Canonical(l, vote).votes))
  {
    VotersUpdate(l.votes, vote.index, vote);
    if l.votes[vote.index].None? { Power.Insert(l.vals, Voters(l.votes), vote.index); }
    else { ConflictVoters(l, vote); }
  }

  // ------------------------------------------------------------ main results

  /**
   `AddVote` keeps the ledger valid, never reaches one of its sanity panics, and
   never changes a majority once found.
   */
  lemma AddVoteIsValid(l: Ledger, signed: Signatures, vote: Vote)
    requires Valid(l, signed)
    ensures Valid(AddVote(l, signed, vote).ledger, signed)
    ensures !AddVote(l, signed, vote).panicked
    ensures l.maj23.Some? ==> AddVote(l, signed, vote).ledger.maj23 == l.maj23
  {
    hide AddVerified, CanonicalValid, BlockValid, MajorityValid, TrackingBounded;
    if 0 <= vote.index < |l.vals| && Checked(l, signed, vote.index, vote)
       && GetVote(l, vote.index, vote.hash).None?
    {
      AddVerifiedIsValid(l, signed, vote);
    }
  }

  lemma AddVerifiedIsValid(l: Ledger, signed: Signatures, vote: Vote)
    requires Valid(l, signed) && Acceptable(l, signed, vote)
    ensures var r := AddVerified(l, vote);
      && Valid(r.ledger, signed) && !r.panicked
      && (r.err.NoError? ==> r.added)
      && (l.maj23.Some? ==> r.ledger.maj23 == l.maj23)
  {
    hide CanonicalValid, BlockValid, MajorityValid, TrackingBounded;
    if vote.hash in l.byBlock { TallyIsValid(l, signed, vote, l.byBlock[vote.hash]); }
    else if l.votes[vote.index].None? { TallyIsValid(l, signed, vote, NewBlockVotes(false, |l.vals|)); }
    if l.votes[vote.index].Some? { CanonicalConflict(l, signed, vote); }
  }

  /** `SetPeerMaj23` keeps the ledger valid and leaves the votes and the majority alone. */
  lemma SetPeerMaj23IsValid(l: Ledger, signed: Signatures, peer: PeerId, h: Hash)
    requires Valid(l, signed)
    ensures var r := SetPeerMaj23(l, peer, h);
      Valid(r, signed) && r.votes == l.votes && r.sum == l.sum && r.maj23 == l.maj23
  {
    hide BlockValid, TrackingBounded;
    if peer !in l.peerMaj23s {
      ClaimBlocks(l, signed, peer, h);
      ClaimTracking(l, peer, h);
      ClaimMajority(l, peer, h);
      ClaimCanonical(l, signed, peer, h);
      hide MajorityValid, CanonicalValid;
    }
  }

  lemma ClaimMajority(l: Ledger, peer: PeerId, h: Hash)
    requires Shaped(l) && MajorityValid(l)
    ensures MajorityValid(SetPeerMaj23(l, peer, h))
  {
    hide Power.Total;
  }

  lemma ClaimCanonical(l: Ledger, signed: Signatures, peer: PeerId, h: Hash)
    requires Shaped(l) && CanonicalValid(l, signed)
    ensures CanonicalValid(SetPeerMaj23(l, peer, h), signed)
  {
    hide Power.Of, Voters;
  }

  lemma ClaimBlocks(l: Ledger, signed: Signatures, peer: PeerId, h: Hash)
    requires Shaped(l) && forall k :: k in l.byBlock ==> BlockValid(l, signed, k, l.byBlock[k])
    ensures var r := SetPeerMaj23(l, peer, h);
      forall k :: k in r.byBlock ==> BlockValid(r, signed, k, r.byBlock[k])
  {
    var r := SetPeerMaj23(l, peer, h);
    BlankIsValid(r, signed, h, true);
    hide Power.Of, Voters, Checked, Blank;
    forall k | k in r.byBlock ensures BlockValid(r, signed, k, r.byBlock[k]) {
      if k in l.byBlock { SameBlock(l, r, signed, k); }
    }
  }

  lemma SameBlock(l: Ledger, r: Ledger, signed: Signatures, k: Hash)
    requires Shaped(l) && Shaped(r) && k in l.byBlock && k in r.byBlock && BlockValid(l, signed, k, l.byBlock[k])
    requires r == l.(byBlock := r.byBlock, peerMaj23s := r.peerMaj23s)
    requires r.byBlock[k] == l.byBlock[k].(peerMaj23 := r.byBlock[k].peerMaj23)
    ensures BlockValid(r, signed, k, r.byBlock[k])
  {
    hide Power.Of, Voters;
  }

  lemma ClaimTracking(l: Ledger, peer: PeerId, h: Hash)
    requires Shaped(l) && TrackingBounded(l) && peer !in l.peerMaj23s
    ensures TrackingBounded(SetPeerMaj23(l, peer, h))
  {
    hide Voters, Claimed, SetPeerMaj23;
    var r := SetPeerMaj23(l, peer, h);
    ClaimKeys(l, peer, h);
    CountKeys(l.byBlock, h, r.byBlock[h]);
    CountKeys(l.peerMaj23s, peer, h);
    OtherClaims(l, r, peer, h);
  }

  /** A claim adds its peer and tracks its block. */
  lemma ClaimKeys(l: Ledger, peer: PeerId, h: Hash)
    requires Shaped(l) && peer !in l.peerMaj23s
    ensures var r := SetPeerMaj23(l, peer, h);
      && r.votes == l.votes && r.peerMaj23s == l.peerMaj23s[peer := h]
      && h in r.byBlock && r.byBlock == l.byBlock[h := r.byBlock[h]] && r.byBlock[h].peerMaj23
  {
  }

  lemma OtherClaims(l: Ledger, r: Ledger, peer: PeerId, h: Hash)
    requires peer !in l.peerMaj23s && r.peerMaj23s == l.peerMaj23s[peer := h]
    ensures Claimed(r, h) && forall k :: k != h ==> Claimed(r, k) == Claimed(l, k)
  {
    assert r.peerMaj23s[peer] == h;
    forall k | k != h && Claimed(l, k) ensures Claimed(r, k) {
      var p :| p in l.peerMaj23s && l.peerMaj23s[p] == k;
      assert r.peerMaj23s[p] == k;
    }
  }

  /** A majority is more than two thirds of the power, so two thirds of anything are in as well. */
  lemma MajorityHasTwoThirdsAny(l: Ledger, signed: Signatures)
    requires Valid(l, signed) && l.maj23.Some?
    ensures HasTwoThirdsAny(l)
    ensures Power.Quorum(l.vals, Voters(l.byBlock[l.maj23.value].votes))
  {
    var b := l.byBlock[l.maj23.value];
    assert BlockValid(l, signed, l.maj23.value, b);
    Power.Mono(l.vals, Voters(b.votes), Voters(l.votes));
    QuorumPowerIsTwoThirds(l.vals, l.sum);
    hide Power.Total;
  }

  /** What happens to a ledger: signatures appear, votes are added, peers make claims. */
  datatype Op = Sign(more: Signatures) | Add(vote: Vote) | Claim(peer: PeerId, hash: Hash)

  datatype History = History(ledger: Ledger, signed: Signatures, panicked: bool)

  function Apply(s: History, op: Op): (r: History)
    requires Shaped(s.ledger)
    ensures Shaped(r.ledger)
  {
    match op
    case Sign(more) => s.(signed := s.signed + more)
    case Add(vote) =>
      var r := AddVote(s.ledger, s.signed, vote);
      s.(ledger := r.ledger, panicked := s.panicked || r.panicked)
    case Claim(peer, h) => s.(ledger := SetPeerMaj23(s.ledger, peer, h))
  }

  function Run(s: History, ops: seq<Op>): (r: History)
    requires Shaped(s.ledger)
    ensures Shaped(r.ledger)
  {
    if |ops| == 0 then s else Apply(Run(s, ops[..|ops| - 1]), ops[|ops| - 1])
  }

  /** The ledger invariant holds after every sequence of operations on a new vote set. */
  lemma {:induction false} LedgerInvariant(height: int, round: int, kind: int, vals: Validators, ops: seq<Op>)
    ensures var r := Run(History(New(height, round, kind, vals), {}, false), ops);
      Valid(r.ledger, r.signed) && !r.panicked
  {
    var s := History(New(height, round, kind, vals), {}, false);
    if |ops| == 0 {
      NewIsValid(height, round, kind, vals);
    } else {
      LedgerInvariant(height, round, kind, vals, ops[..|ops| - 1]);
      ApplyIsValid(Run(s, ops[..|ops| - 1]), ops[|ops| - 1]);
      hide Valid;
    }
  }

  lemma ApplyIsValid(s: History, op: Op)
    requires Valid(s.ledger, s.signed) && !s.panicked
    ensures Valid(Apply(s, op).ledger, Apply(s, op).signed) && !Apply(s, op).panicked
    ensures s.ledger.maj23.Some? ==> Apply(s, op).ledger.maj23 == s.ledger.maj23
  {
    match op
    case Sign(more) => MoreSignatures(s.ledger, s.signed, s.signed + more);
    case Add(vote) => AddVoteIsValid(s.ledger, s.signed, vote);
    case Claim(peer, h) => SetPeerMaj23IsValid(s.ledger, s.signed, peer, h);
  }

  /** Once found, a majority is the majority for the rest of any history. */
  lemma {:induction false} MajorityIsFinal(s: History, ops: seq<Op>)
    requires Valid(s.ledger, s.signed) && !s.panicked && s.ledger.maj23.Some?
    ensures Valid(Run(s, ops).ledger, Run(s, ops).signed) && !Run(s, ops).panicked
    ensures Run(s, ops).ledger.maj23 == s.ledger.maj23
  {
    hide CanonicalValid, BlockValid, MajorityValid, TrackingBounded, Apply;
    if |ops| > 0 {
      MajorityIsFinal(s, ops[..|ops| - 1]);
      ApplyIsValid(Run(s, ops[..|ops| - 1]), ops[|ops| - 1]);
    }
  }

  /** The vote recorded for validator `i` under block `h`. */
  ghost function Stored(l: Ledger, h: Hash, i: int): Option<Vote>
    requires Shaped(l) && 0 <= i < |l.vals|
  {
    if h in l.byBlock then l.byBlock[h].votes[i] else None
  }

  /** An unacceptable vote changes nothing and is never called a conflict. */
  lemma RejectedVote(l: Ledger, signed: Signatures, vote: Vote)
    requires Valid(l, signed) && !Acceptable(l, signed, vote)
    ensures var r := AddVote(l, signed, vote); r.ledger == l && !r.added && !r.err.Conflict?
  {
    hide AddVerified, CanonicalValid, BlockValid, MajorityValid, TrackingBounded;
  }

  /**
   An acceptable vote is counted exactly when its validator had no vote yet or a
   peer claimed its block, and a second vote is reported together with the first.
   */
  lemma AcceptedVote(l: Ledger, signed: Signatures, vote: Vote)
    requires Valid(l, signed) && Acceptable(l, signed, vote)
    ensures var r := AddVote(l, signed, vote);
      var prior := l.votes[vote.index];
      && (r.added <==> prior.None? || Claimed(l, vote.hash))
      && r.err == (if prior.Some? then Conflict(prior.value, vote) else NoError)
  {
    hide CanonicalValid, MajorityValid, BlockValid, Claimed, Tally, Canonical;
    SameClaims(l, l);
  }

  /** A counted vote lands under its block, and nothing else recorded moves. */
  lemma RecordedAfter(l: Ledger, signed: Signatures, vote: Vote, h: Hash, i: int)
    requires Valid(l, signed) && Acceptable(l, signed, vote) && 0 <= i < |l.vals|
    ensures var r := AddVote(l, signed, vote);
      Stored(r.ledger, h, i) ==
        if r.added && h == vote.hash && i == vote.index then Some(vote) else Stored(l, h, i)
  {
    hide CanonicalValid, MajorityValid, TrackingBounded, BlockValid, Canonical, Tally, AddVote;
    AcceptedIsVerified(l, signed, vote);
    var l1 := Canonical(l, vote);
    TallyStored(l1, vote, if vote.hash in l.byBlock then l.byBlock[vote.hash] else NewBlockVotes(false, |l.vals|), h, i);
  }

  /** An acceptable vote passes every check of `addVote`. */
  lemma AcceptedIsVerified(l: Ledger, signed: Signatures, vote: Vote)
    requires Shaped(l) && Acceptable(l, signed, vote)
    ensures var r, v := AddVote(l, signed, vote), AddVerified(l, vote); r.ledger == v.ledger && r.added == v.added
    ensures l.votes[vote.index].Some? ==> l.votes[vote.index].value.hash != vote.hash
    ensures vote.hash in l.byBlock ==> l.byBlock[vote.hash].votes[vote.index].None?
  {
    hide AddVerified;
  }

  lemma CanonicalVote(l: Ledger, vote: Vote, i: int)
    requires Shaped(l) && 0 <= vote.index < |l.vals| && 0 <= i < |l.vals|
    ensures Canonical(l, vote).votes[i] ==
            if i == vote.index && (l.votes[i].None? || l.maj23 == Some(vote.hash)) then Some(vote) else l.votes[i]
  {
  }

  lemma TallyStored(l: Ledger, vote: Vote, b: BlockVotes, h: Hash, i: int)
    requires Shaped(l) && 0 <= vote.index < |l.vals| && 0 <= i < |l.vals| && |b.bits| == |b.votes| == |l.vals|
    requires b.votes[vote.index].None?
    ensures Stored(Tally(l, vote, b), h, i) ==
            if h == vote.hash then (if i == vote.index then Some(vote) else b.votes[i]) else Stored(l, h, i)
  {
    hide QuorumPower, Overlay;
  }

  lemma TallyVote(l: Ledger, vote: Vote, b: BlockVotes, i: int)
    requires Shaped(l) && 0 <= vote.index < |l.vals| && 0 <= i < |l.vals| && |b.bits| == |b.votes| == |l.vals|
    ensures var r := Tally(l, vote, b);
      r.votes[i] == if l.maj23.None? && r.maj23.Some? && Stored(r, r.maj23.value, i).Some?
                    then Stored(r, r.maj23.value, i) else l.votes[i]
  {
    hide QuorumPower, Record;
  }

  /**
   Canonical votes after an acceptable vote: a first vote is kept, a vote for the
   standing majority replaces the old one, a new majority brings all its votes,
   and every other canonical vote stays as it was.
   */
  lemma CanonicalAfter(l: Ledger, signed: Signatures, vote: Vote, i: int)
    requires Valid(l, signed) && Acceptable(l, signed, vote) && 0 <= i < |l.vals|
    ensures var r := AddVote(l, signed, vote).ledger;
      r.votes[i] ==
        if l.maj23.None? && r.maj23.Some? && Stored(r, r.maj23.value, i).Some? then Stored(r, r.maj23.value, i)
        else if i == vote.index && (l.votes[i].None? || l.maj23 == Some(vote.hash)) then Some(vote)
        else l.votes[i]
  {
    hide CanonicalValid, MajorityValid, TrackingBounded, BlockValid, Canonical, Tally, AddVote;
    AcceptedIsVerified(l, signed, vote);
    var l1 := Canonical(l, vote);
    CanonicalVote(l, vote, i);
    TallyVote(l1, vote, if vote.hash in l.byBlock then l.byBlock[vote.hash] else NewBlockVotes(false, |l.vals|), i);
  }

  /** Two blocks with +2/3 each: the validators recorded under both hold more than a third. */
  lemma DoubleQuorumIsSeen(l: Ledger, signed: Signatures, a: Hash, b: Hash)
    requires Valid(l, signed) && a in l.byBlock && b in l.byBlock
    requires 3 * l.byBlock[a].sum > 2 * Power.Total(l.vals) && 3 * l.byBlock[b].sum > 2 * Power.Total(l.vals)
    ensures 3 * Power.Of(l.vals, Voters(l.byBlock[a].votes) * Voters(l.byBlock[b].votes)) > Power.Total(l.vals)
  {
    hide MajorityValid, TrackingBounded, CanonicalValid;
    Power.QuorumsOverlap(l.vals, Voters(l.byBlock[a].votes), Voters(l.byBlock[b].votes));
  }

  /** A vote never changes what a ledger is for, and only fitting votes are counted. */
  lemma KeepsHeader(l: Ledger, signed: Signatures, vote: Vote)
    requires Shaped(l)
    ensures var r := AddVote(l, signed, vote);
      && r.ledger.height == l.height && r.ledger.round == l.round
      && r.ledger.kind == l.kind && r.ledger.vals == l.vals
      && (r.added ==> vote.kind == l.kind && vote.height == l.height && vote.round == l.round)
  {
  }


  /** A peer's first claim is noted and lets votes for its block in; a later one of the same peer changes nothing. */
  lemma ClaimMeaning(l: Ledger, peer: PeerId, h: Hash, k: Hash, i: int)
    requires Shaped(l) && 0 <= i < |l.vals|
    ensures var r := SetPeerMaj23(l, peer, h);
      && (peer in l.peerMaj23s ==> r == l)
      && (peer !in l.peerMaj23s ==>
            && r.peerMaj23s == l.peerMaj23s[peer := h] && (Claimed(r, k) <==> k == h || Claimed(l, k))
            && h in r.byBlock && r.byBlock[h].peerMaj23)
      && r.votes == l.votes && r.sum == l.sum && r.maj23 == l.maj23 && Stored(r, k, i) == Stored(l, k, i)
  {
    hide Claimed;
    if peer !in l.peerMaj23s { OtherClaims(l, SetPeerMaj23(l, peer, h), peer, h); }
  }

  /** Why a vote is turned away: in the order of the checks, each error with what was wrong. */
  lemma RejectionReason(l: Ledger, signed: Signatures, vote: Vote)
    requires Valid(l, signed)
    ensures var r := AddVote(l, signed, vote);
      var fits := vote.height == l.height && vote.round == l.round && vote.kind == l.kind;
      var known := 0 <= vote.index < |l.vals| && vote.address == l.vals[vote.index].address != 0;
      && (r.err.UnexpectedStep? <==> vote.index >= 0 && vote.address != 0 && !fits)
      && (r.err.InvalidIndex? <==> vote.index < 0 || (vote.address != 0 && fits && vote.index >= |l.vals|))
      && (r.err.InvalidAddress? <==>
            vote.index >= 0 && (vote.address == 0 || (fits && vote.index < |l.vals| && vote.address != l.vals[vote.index].address)))
      && (r.err.NonDeterministicSignature? <==>
            fits && known && OnRecord(l, vote) && GetVote(l, vote.index, vote.hash).value.signature != vote.signature)
      && (r.err.InvalidSignature? <==> fits && known && !OnRecord(l, vote) && !Verifies(signed, vote.address, vote))
  {
    hide CanonicalValid, BlockValid, MajorityValid, TrackingBounded, AddVerified, GetVote;
    if Acceptable(l, signed, vote) { AcceptedVote(l, signed, vote); }
  }

  /** A vote of this validator for this block is stored. */
  ghost predicate OnRecord(l: Ledger, vote: Vote)
    requires Shaped(l)
  {
    0 <= vote.index < |l.vals| && GetVote(l, vote.index, vote.hash).Some?
  }

  /** Two thirds of anything, and everything: by the power of those who voted. */
  lemma TalliesMean(l: Ledger, signed: Signatures)
    requires Valid(l, signed)
    ensures HasTwoThirdsAny(l) <==> 3 * Power.Of(l.vals, Voters(l.votes)) > 2 * Power.Total(l.vals)
    ensures HasAll(l) <==> forall i :: 0 <= i < |l.vals| && l.vals[i].power > 0 ==> l.votes[i].Some?
  {
    hide BlockValid, MajorityValid, TrackingBounded, Power.Total;
    QuorumPowerIsTwoThirds(l.vals, l.sum);
    Power.AtMostTotal(l.vals, Voters(l.votes));
  }
}
