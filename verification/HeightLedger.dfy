/**
 The vote ledgers of all rounds of one height (`types/height_vote_set.go`), as a
 value, with the invariant every sequence of `SetRound`, `AddVote` and
 `SetPeerMaj23` keeps.
 */
module HeightLedger {
  import opened Types
  import L = Ledger
  import Power

  /** `RoundVoteSet`. */
  datatype RoundVotes = RoundVotes(prevotes: L.Ledger, precommits: L.Ledger)

  /** `HeightVoteSet`; `catchup` lists the unexpected rounds each peer made us track. */
  datatype HeightLedger = HeightLedger(
    height: int, vals: Validators, round: int,
    rounds: map<int, RoundVotes>, catchup: map<PeerId, seq<int>>)

  datatype Added = Added(votes: HeightLedger, added: bool, err: L.AddError, panicked: bool)

  ghost predicate Shaped(h: HeightLedger) {
    forall r :: r in h.rounds ==> L.Shaped(h.rounds[r].prevotes) && L.Shaped(h.rounds[r].precommits)
  }

  // -------------------------------------------------------------- operations

  function NewRound(height: int, round: int, vals: Validators): RoundVotes {
    RoundVotes(L.New(height, round, PREVOTE, vals), L.New(height, round, PRECOMMIT, vals))
  }

  /** `NewHeightVoteSet` and `Reset`. */
  function New(height: int, vals: Validators): HeightLedger {
    HeightLedger(height, vals, 0, map[0 := NewRound(height, 0, vals)], map[])
  }

  /** The sanity check of `SetRound`. */
  predicate SetRoundPanics(h: HeightLedger, round: int) {
    h.round != 0 && round < h.round + 1
  }

  /** The rounds after `a` up to and including `b`. */
  function Range(a: int, b: int): (s: set<int>)
    ensures forall k :: k in s <==> a < k <= b
    ensures |s| == if a < b then b - a else 0
    decreases b - a
  {
    if a >= b then {} else Range(a, b - 1) + {b}
  }

  /** `SetRound`: track every round up to `round`, keeping the ones peers made us track. */
  function SetRound(h: HeightLedger, round: int): (r: HeightLedger)
    requires Shaped(h)
    ensures Shaped(r)
  {
    h.(round := round,
       rounds := (map k | k in Range(h.round, round) :: NewRound(h.height, k, h.vals)) + h.rounds)
  }

  /** The low byte of the 32-bit type field. */
  function KindByte(kind: int): int { kind % 256 }

  /** `getVoteSet` for a valid type. */
  function Get(h: HeightLedger, round: int, kind: int): Option<L.Ledger> {
    if round !in h.rounds then None
    else if kind == PREVOTE then Some(h.rounds[round].prevotes)
    else Some(h.rounds[round].precommits)
  }

  function Put(h: HeightLedger, round: int, kind: int, l: L.Ledger): HeightLedger
    requires round in h.rounds
  {
    var rv := h.rounds[round];
    h.(rounds := h.rounds[round := if kind == PREVOTE then rv.(prevotes := l) else rv.(precommits := l)])
  }

  function Catchup(h: HeightLedger, peer: PeerId): seq<int> {
    if peer in h.catchup then h.catchup[peer] else []
  }

  /** Track the vote's round on behalf of a peer. */
  function AddCatchup(h: HeightLedger, round: int, peer: PeerId): HeightLedger {
    h.(rounds := h.rounds[round := NewRound(h.height, round, h.vals)],
       catchup := h.catchup[peer := Catchup(h, peer) + [round]])
  }

  /** `HeightVoteSet.AddVote`. */
  function AddVote(h: HeightLedger, signed: Signatures, vote: Vote, peer: PeerId): (r: Added)
    requires Shaped(h)
    ensures Shaped(r.votes)
  {
    var kind := KindByte(vote.kind);
    if !IsVoteTypeValid(kind) then Added(h, false, L.NoError, false)
    else if vote.round !in h.rounds && |Catchup(h, peer)| >= 2 then
      Added(h, false, L.UnwantedRound, false)
    else
      var h1 := if vote.round in h.rounds then h else AddCatchup(h, vote.round, peer);
      var r := L.AddVote(Get(h1, vote.round, kind).value, signed, vote);
      Added(Put(h1, vote.round, kind, r.ledger), r.added, r.err, r.panicked)
  }

  /** `HeightVoteSet.SetPeerMaj23`. */
  function SetPeerMaj23(h: HeightLedger, round: int, kind: int, peer: PeerId, hash: Hash): (r: HeightLedger)
    requires Shaped(h)
    ensures Shaped(r)
  {
    if !IsVoteTypeValid(kind) || round !in h.rounds then h
    else Put(h, round, kind, L.SetPeerMaj23(Get(h, round, kind).value, peer, hash))
  }

  /** `Prevotes(round).TwoThirdsMajority()` and `Precommits(round).TwoThirdsMajority()`. */
  function Maj(h: HeightLedger, round: int, kind: int): Option<Hash> {
    match Get(h, round, kind)
    case None => None
    case Some(l) => l.maj23
  }

  /** `Prevotes(round).HasTwoThirdsAny()` and `Precommits(round).HasTwoThirdsAny()`. */
  predicate HasAny(h: HeightLedger, round: int, kind: int) {
    Get(h, round, kind).Some? && L.HasTwoThirdsAny(Get(h, round, kind).value)
  }

  /** `POLInfo`, scanning down from round `r`. */
  function PolFrom(h: HeightLedger, r: int): int
    decreases r + 1
  {
    if r < 0 then -1
    else if Maj(h, r, PREVOTE).Some? then r
    else PolFrom(h, r - 1)
  }

  function PolRound(h: HeightLedger): int { PolFrom(h, h.round) }

  // --------------------------------------------------------------- invariant

  ghost predicate RoundValid(h: HeightLedger, signed: Signatures, r: int, kind: int, l: L.Ledger) {
    && L.Valid(l, signed)
    && l.height == h.height && l.round == r && l.kind == kind && l.vals == h.vals
  }

  ghost predicate RoundsValid(h: HeightLedger, signed: Signatures) {
    forall r :: r in h.rounds ==>
      && RoundValid(h, signed, r, PREVOTE, h.rounds[r].prevotes)
      && RoundValid(h, signed, r, PRECOMMIT, h.rounds[r].precommits)
  }

  /** Peers that made us track at least `n` rounds. */
  ghost function Bringers(h: HeightLedger, n: nat): set<PeerId> {
    set p | p in h.catchup && |h.catchup[p]| >= n
  }

  /** Rounds 0 to `round` are tracked; the others are at most two per peer. */
  ghost predicate Tracked(h: HeightLedger) {
    && h.round >= 0
    && (forall r :: 0 <= r <= h.round ==> r in h.rounds)
    && (forall p :: p in h.catchup ==> |h.catchup[p]| <= 2)
    && |h.rounds| <= h.round + 1 + |Bringers(h, 1)| + |Bringers(h, 2)|
  }

  ghost predicate Valid(h: HeightLedger, signed: Signatures) {
    Shaped(h) && RoundsValid(h, signed) && Tracked(h)
  }

  /** Rounds stay tracked and majorities stay put. */
  ghost predicate Grows(h: HeightLedger, h': HeightLedger) {
    && h'.height == h.height && h'.vals == h.vals
    && (forall r :: r in h.rounds ==> r in h'.rounds)
    && (forall r, kind :: Maj(h, r, kind).Some? ==> Maj(h', r, kind) == Maj(h, r, kind))
  }

  // ------------------------------------------------------------------- proof

  lemma NewRoundIsValid(h: HeightLedger, signed: Signatures, r: int)
    ensures var rv := NewRound(h.height, r, h.vals);
      && RoundValid(h, signed, r, PREVOTE, rv.prevotes)
      && RoundValid(h, signed, r, PRECOMMIT, rv.precommits)
  {
    hide L.Valid;
    L.NewIsValid(h.height, r, PREVOTE, h.vals);
    L.MoreSignatures(L.New(h.height, r, PREVOTE, h.vals), {}, signed);
    L.NewIsValid(h.height, r, PRECOMMIT, h.vals);
    L.MoreSignatures(L.New(h.height, r, PRECOMMIT, h.vals), {}, signed);
  }

  lemma NewIsValid(height: int, vals: Validators, signed: Signatures)
    ensures Valid(New(height, vals), signed)
  {
    hide RoundValid, NewRound;
    var h := New(height, vals);
    NewRoundIsValid(h, signed, 0);
    OneRound(h, NewRound(height, 0, vals));
    assert Shaped(h) by {
      ShapedOf(h, signed, 0, PREVOTE, h.rounds[0].prevotes);
      ShapedOf(h, signed, 0, PRECOMMIT, h.rounds[0].precommits);
    }
  }

  lemma OneRound(h: HeightLedger, rv: RoundVotes)
    requires h.rounds == map[0 := rv] && h.catchup == map[] && h.round == 0
    ensures Tracked(h)
  {
    assert h.rounds.Keys == {0};
    assert |h.rounds| == |h.rounds.Keys|;
  }

  lemma MoreSignatures(h: HeightLedger, signed: Signatures, more: Signatures)
    requires Valid(h, signed) && signed <= more
    ensures Valid(h, more)
  {
    hide L.Valid;
    forall r | r in h.rounds
      ensures L.Valid(h.rounds[r].prevotes, more) && L.Valid(h.rounds[r].precommits, more)
    {
      L.MoreSignatures(h.rounds[r].prevotes, signed, more);
      L.MoreSignatures(h.rounds[r].precommits, signed, more);
    }
  }

  lemma CountUnion<T>(a: set<T>, b: set<T>)
    ensures |a + b| <= |a| + |b|
  {
    assert |a + b| == |a| + |b| - |a * b|;
  }

  lemma SetRoundTracked(h: HeightLedger, round: int)
    requires Shaped(h) && Tracked(h) && round >= h.round
    ensures Tracked(SetRound(h, round))
  {
    hide SetRound, Bringers;
    var r := SetRound(h, round);
    SetRoundKeys(h, round);
    hide Range;
    CountUnion(Range(h.round, round), h.rounds.Keys);
    SameBringers(h, r);
  }

  /** The rounds tracked after `SetRound`. */
  lemma SetRoundKeys(h: HeightLedger, round: int)
    requires Shaped(h)
    ensures var r := SetRound(h, round);
      && r.rounds.Keys == Range(h.round, round) + h.rounds.Keys && |r.rounds| == |r.rounds.Keys|
      && r.round == round && r.catchup == h.catchup
  {
    hide Shaped, NewRound, Range;
  }

  lemma SameBringers(h: HeightLedger, r: HeightLedger)
    requires r.catchup == h.catchup
    ensures Bringers(r, 1) == Bringers(h, 1) && Bringers(r, 2) == Bringers(h, 2)
  {
  }

  lemma SetRoundGrows(h: HeightLedger, round: int)
    requires Shaped(h)
    ensures Grows(h, SetRound(h, round))
  {
    hide NewRound;
  }

  /** Below the panic, `SetRound` keeps the invariant and all that was recorded. */
  lemma SetRoundIsValid(h: HeightLedger, signed: Signatures, round: int)
    requires Valid(h, signed) && round >= h.round
    ensures Valid(SetRound(h, round), signed) && Grows(h, SetRound(h, round))
    ensures SetRound(h, round).round == round
  {
    hide RoundValid, Grows, Tracked, NewRound;
    var r := SetRound(h, round);
    SetRoundTracked(h, round);
    SetRoundGrows(h, round);
    forall k | k in r.rounds
      ensures RoundValid(r, signed, k, PREVOTE, r.rounds[k].prevotes)
      ensures RoundValid(r, signed, k, PRECOMMIT, r.rounds[k].precommits)
    {
      if k in h.rounds {
        SameRound(h, r, signed, k, PREVOTE, h.rounds[k].prevotes);
        SameRound(h, r, signed, k, PRECOMMIT, h.rounds[k].precommits);
      } else {
        NewRoundIsValid(r, signed, k);
      }
    }
  }

  lemma SameRound(h: HeightLedger, r: HeightLedger, signed: Signatures, k: int, kind: int, l: L.Ledger)
    requires RoundValid(h, signed, k, kind, l) && r.height == h.height && r.vals == h.vals
    ensures RoundValid(r, signed, k, kind, l)
  {
  }

  lemma AddCatchupIsValid(h: HeightLedger, signed: Signatures, round: int, peer: PeerId)
    requires Valid(h, signed) && round !in h.rounds && |Catchup(h, peer)| < 2
    ensures Valid(AddCatchup(h, round, peer), signed) && Grows(h, AddCatchup(h, round, peer))
  {
    hide RoundValid, Tracked;
    var r := AddCatchup(h, round, peer);
    NewRoundIsValid(h, signed, round);
    forall k | k in r.rounds
      ensures RoundValid(r, signed, k, PREVOTE, r.rounds[k].prevotes)
      ensures RoundValid(r, signed, k, PRECOMMIT, r.rounds[k].precommits)
    {
      SameRound(h, r, signed, k, PREVOTE, r.rounds[k].prevotes);
      SameRound(h, r, signed, k, PRECOMMIT, r.rounds[k].precommits);
    }
    AddCatchupTracked(h, round, peer);
  }

  lemma AddCatchupTracked(h: HeightLedger, round: int, peer: PeerId)
    requires Shaped(h) && Tracked(h) && round !in h.rounds && |Catchup(h, peer)| < 2
    ensures Tracked(AddCatchup(h, round, peer))
  {
    hide Shaped, NewRound, Bringers;
    var r := AddCatchup(h, round, peer);
    assert r.rounds.Keys == h.rounds.Keys + {round};
    NewBringer(h, r, round, peer);
  }

  lemma NewBringer(h: HeightLedger, r: HeightLedger, round: int, peer: PeerId)
    requires |Catchup(h, peer)| < 2 && r.catchup == h.catchup[peer := Catchup(h, peer) + [round]]
    ensures |Bringers(r, 1)| + |Bringers(r, 2)| == |Bringers(h, 1)| + |Bringers(h, 2)| + 1
  {
    BringersAfter(h, r, round, peer, 1);
    BringersAfter(h, r, round, peer, 2);
    hide Bringers;
  }

  /** One more round of a peer makes it a bringer of that many. */
  lemma BringersAfter(h: HeightLedger, r: HeightLedger, round: int, peer: PeerId, n: nat)
    requires n >= 1 && r.catchup == h.catchup[peer := Catchup(h, peer) + [round]]
    ensures Bringers(r, n) == if |Catchup(h, peer)| + 1 == n then Bringers(h, n) + {peer} else Bringers(h, n)
    ensures |Catchup(h, peer)| + 1 == n ==> peer !in Bringers(h, n)
  {
    forall p ensures p in Bringers(r, n) <==> p in Bringers(h, n) || (p == peer && |Catchup(h, peer)| + 1 == n) {
    }
  }

  lemma PutGrows(h: HeightLedger, round: int, kind: int, l: L.Ledger)
    requires round in h.rounds && IsVoteTypeValid(kind)
    requires Maj(h, round, kind).Some? ==> l.maj23 == Maj(h, round, kind)
    ensures Grows(h, Put(h, round, kind, l))
    ensures Get(Put(h, round, kind, l), round, kind) == Some(l)
  {
  }

  /** Replacing one ledger by a valid successor of it. */
  lemma PutIsValid(h: HeightLedger, signed: Signatures, round: int, kind: int, l: L.Ledger)
    requires Valid(h, signed) && round in h.rounds && IsVoteTypeValid(kind)
    requires RoundValid(h, signed, round, kind, l)
    requires Maj(h, round, kind).Some? ==> l.maj23 == Maj(h, round, kind)
    ensures Valid(Put(h, round, kind, l), signed) && Grows(h, Put(h, round, kind, l))
    ensures Get(Put(h, round, kind, l), round, kind) == Some(l)
  {
    hide RoundsValid, RoundValid, Grows, Tracked;
    PutGrows(h, round, kind, l);
    ShapedOf(h, signed, round, kind, l);
    PutTracked(h, round, kind, l);
    PutRounds(h, signed, round, kind, l);
  }

  lemma PutTracked(h: HeightLedger, round: int, kind: int, l: L.Ledger)
    requires Tracked(h) && round in h.rounds
    ensures Tracked(Put(h, round, kind, l))
  {
    var r := Put(h, round, kind, l);
    assert r.rounds.Keys == h.rounds.Keys;
    SameBringers(h, r);
  }

  lemma PutRounds(h: HeightLedger, signed: Signatures, round: int, kind: int, l: L.Ledger)
    requires RoundsValid(h, signed) && round in h.rounds && IsVoteTypeValid(kind)
    requires RoundValid(h, signed, round, kind, l)
    ensures RoundsValid(Put(h, round, kind, l), signed)
  {
    hide RoundValid;
    var r := Put(h, round, kind, l);
    forall k | k in r.rounds
      ensures RoundValid(r, signed, k, PREVOTE, r.rounds[k].prevotes)
      ensures RoundValid(r, signed, k, PRECOMMIT, r.rounds[k].precommits)
    {
      SameRound(h, r, signed, k, PREVOTE, r.rounds[k].prevotes);
      SameRound(h, r, signed, k, PRECOMMIT, r.rounds[k].precommits);
    }
  }

  lemma ShapedOf(h: HeightLedger, signed: Signatures, round: int, kind: int, l: L.Ledger)
    requires RoundValid(h, signed, round, kind, l)
    ensures L.Shaped(l)
  {
  }

  lemma GrowsTrans(a: HeightLedger, b: HeightLedger, c: HeightLedger)
    requires Grows(a, b) && Grows(b, c)
    ensures Grows(a, c)
  {
  }

  // ------------------------------------------------------------ main results

  /** The ledger in a round is valid for that round. */
  lemma LedgerOf(h: HeightLedger, signed: Signatures, round: int, kind: int)
    requires Valid(h, signed) && round in h.rounds && IsVoteTypeValid(kind)
    ensures RoundValid(h, signed, round, kind, Get(h, round, kind).value)
  {
    hide RoundValid;
  }

  /**
   `AddVote` keeps every invariant, creates a round only if it does not exist, and
   hits no sanity panic. A counted vote has a proper type, and its ledger is tracked.
   */
  lemma AddVoteIsValid(h: HeightLedger, signed: Signatures, vote: Vote, peer: PeerId)
    requires Valid(h, signed)
    ensures var r := AddVote(h, signed, vote, peer);
      && Valid(r.votes, signed) && Grows(h, r.votes) && !r.panicked
      && r.votes.round == h.round
      && (r.added ==> IsVoteTypeValid(vote.kind) && vote.round in r.votes.rounds && vote.height == h.height)
  {
    var kind := KindByte(vote.kind);
    if IsVoteTypeValid(kind) && (vote.round in h.rounds || |Catchup(h, peer)| < 2) {
      hide Valid, Grows;
      var h1 := if vote.round in h.rounds then h else AddCatchup(h, vote.round, peer);
      if vote.round !in h.rounds {
        AddCatchupIsValid(h, signed, vote.round, peer);
      } else {
        GrowsRefl(h);
      }
      AddToRound(h1, signed, vote, kind);
      GrowsTrans(h, h1, AddVote(h, signed, vote, peer).votes);
    } else {
      GrowsRefl(h);
    }
  }

  lemma GrowsRefl(h: HeightLedger)
    ensures Grows(h, h)
  {
  }

  lemma AddToRound(h: HeightLedger, signed: Signatures, vote: Vote, kind: int)
    requires Valid(h, signed) && vote.round in h.rounds && IsVoteTypeValid(kind)
    ensures L.Shaped(Get(h, vote.round, kind).value)
    ensures var r := L.AddVote(Get(h, vote.round, kind).value, signed, vote);
      var h' := Put(h, vote.round, kind, r.ledger);
      && Valid(h', signed) && Grows(h, h') && !r.panicked
      && (r.added ==> vote.kind == kind && vote.height == h.height)
      && vote.round in h'.rounds && h'.round == h.round
  {
    var l := Get(h, vote.round, kind).value;
    LedgerOf(h, signed, vote.round, kind);
    L.AddVoteIsValid(l, signed, vote);
    hide Valid, Grows, L.Valid, L.AddVerified;
    L.KeepsHeader(l, signed, vote);
    PutIsValid(h, signed, vote.round, kind, L.AddVote(l, signed, vote).ledger);
  }

  /** The ledger a vote goes to: of its round and type, and a new one if the round is not tracked. */
  ghost function LedgerFor(h: HeightLedger, round: int, kind: int): L.Ledger {
    if round in h.rounds then Get(h, round, kind).value else L.New(h.height, round, kind, h.vals)
  }

  /** A vote is turned away unheard: its round is not tracked and its peer has already brought two rounds. */
  ghost predicate Unwanted(h: HeightLedger, round: int, peer: PeerId) {
    round !in h.rounds && |Catchup(h, peer)| >= 2
  }

  /**
   What a vote of a proper type does. It is unwanted exactly if its round is not tracked
   and its peer has brought two rounds already, and then nothing changes. Otherwise its
   round is tracked afterwards, and noted for the peer if it is new. The vote is counted
   exactly if the ledger of the round accepts it, as its validator's first or for a block
   some peer claimed, and no other ledger changes.
   */
  lemma VoteTaken(h: HeightLedger, signed: Signatures, vote: Vote, peer: PeerId)
    requires Valid(h, signed) && IsVoteTypeValid(vote.kind)
    ensures var l := LedgerFor(h, vote.round, vote.kind);
      var a := AddVote(h, signed, vote, peer);
      && (a.err.UnwantedRound? <==> Unwanted(h, vote.round, peer))
      && (Unwanted(h, vote.round, peer) ==> a.votes == h && !a.added)
      && (!Unwanted(h, vote.round, peer) ==>
            && vote.round in a.votes.rounds
            && Catchup(a.votes, peer) == Catchup(h, peer) + (if vote.round in h.rounds then [] else [vote.round])
            && (forall p :: p != peer ==> Catchup(a.votes, p) == Catchup(h, p))
            && (forall r, k :: r != vote.round ==> Get(a.votes, r, k) == Get(h, r, k))
            && OtherLedger(a.votes, vote) == Some(LedgerFor(h, vote.round, OtherKind(vote.kind)))
            && L.Valid(l, signed)
            && (a.added <==> L.Acceptable(l, signed, vote) && (l.votes[vote.index].None? || L.Claimed(l, vote.hash)))
            && (a.added ==> IsStored(a.votes, vote)))
  {
    hide AddVote, L.AddVote, L.Valid, L.Acceptable, L.Claimed, L.Shaped, Catchup, Get, LedgerFor, RoundsValid, Tracked, Shaped;
    var l := LedgerFor(h, vote.round, vote.kind);
    LedgerForIsValid(h, signed, vote.round, vote.kind);
    CountedIn(l, signed, vote);
    VoteTracked(h, signed, vote, peer);
  }

  /** Where a vote goes: its round is tracked and noted, and only its ledger changes. */
  lemma VoteTracked(h: HeightLedger, signed: Signatures, vote: Vote, peer: PeerId)
    requires Shaped(h) && IsVoteTypeValid(vote.kind) && L.Shaped(LedgerFor(h, vote.round, vote.kind))
    ensures var a := AddVote(h, signed, vote, peer);
      var r := L.AddVote(LedgerFor(h, vote.round, vote.kind), signed, vote);
      if Unwanted(h, vote.round, peer) then a == Added(h, false, L.UnwantedRound, false)
      else
        && vote.round in a.votes.rounds && a.added == r.added && a.err == r.err
        && Get(a.votes, vote.round, vote.kind) == Some(r.ledger)
        && OtherLedger(a.votes, vote) == Some(LedgerFor(h, vote.round, OtherKind(vote.kind)))
        && (forall r, k :: r != vote.round ==> Get(a.votes, r, k) == Get(h, r, k))
        && Catchup(a.votes, peer) == Catchup(h, peer) + (if vote.round in h.rounds then [] else [vote.round])
        && (forall p :: p != peer ==> Catchup(a.votes, p) == Catchup(h, p))
  {
    hide L.AddVote, L.Shaped, L.New;
  }

  function OtherKind(kind: int): int { if kind == PREVOTE then PRECOMMIT else PREVOTE }

  ghost function OtherLedger(h: HeightLedger, vote: Vote): Option<L.Ledger> { Get(h, vote.round, OtherKind(vote.kind)) }

  /** A vote is on record under its block and its validator. */
  ghost predicate IsStored(h: HeightLedger, vote: Vote) {
    var l := Get(h, vote.round, vote.kind);
    l.Some? && L.Shaped(l.value) && 0 <= vote.index < |l.value.vals| && L.Stored(l.value, vote.hash, vote.index) == Some(vote)
  }

  lemma LedgerForIsValid(h: HeightLedger, signed: Signatures, round: int, kind: int)
    requires Valid(h, signed) && IsVoteTypeValid(kind)
    ensures var l := LedgerFor(h, round, kind); L.Valid(l, signed) && L.Shaped(l)
  {
    hide L.CanonicalValid, L.BlockValid, L.MajorityValid, L.TrackingBounded, Valid, L.Shaped;
    if round in h.rounds {
      LedgerOf(h, signed, round, kind);
    } else {
      L.NewIsValid(h.height, round, kind, h.vals);
      L.MoreSignatures(L.New(h.height, round, kind, h.vals), {}, signed);
    }
  }

  /** When a ledger counts a vote, and that it is then on record. */
  lemma CountedIn(l: L.Ledger, signed: Signatures, vote: Vote)
    requires L.Valid(l, signed)
    ensures var a := L.AddVote(l, signed, vote);
      && !a.err.UnwantedRound?
      && (a.added <==> L.Acceptable(l, signed, vote) && (l.votes[vote.index].None? || L.Claimed(l, vote.hash)))
      && (a.added ==> L.Shaped(a.ledger) && 0 <= vote.index < |a.ledger.vals|
                      && L.Stored(a.ledger, vote.hash, vote.index) == Some(vote))
  {
    hide L.AddVote, L.CanonicalValid, L.BlockValid, L.MajorityValid, L.TrackingBounded, L.Claimed;
    if L.Acceptable(l, signed, vote) {
      L.AcceptedVote(l, signed, vote);
      L.RecordedAfter(l, signed, vote, vote.hash, vote.index);
    } else {
      L.RejectedVote(l, signed, vote);
    }
    NeverUnwanted(l, signed, vote);
  }

  lemma NeverUnwanted(l: L.Ledger, signed: Signatures, vote: Vote)
    requires L.Shaped(l)
    ensures !L.AddVote(l, signed, vote).err.UnwantedRound?
  {
    hide L.Shaped, L.Tally, L.Canonical, L.GetVote;
  }

  lemma SetPeerMaj23IsValid(h: HeightLedger, signed: Signatures, round: int, kind: int, peer: PeerId, hash: Hash)
    requires Valid(h, signed)
    ensures var r := SetPeerMaj23(h, round, kind, peer, hash);
      Valid(r, signed) && Grows(h, r) && r.round == h.round
  {
    GrowsRefl(h);
    if IsVoteTypeValid(kind) && round in h.rounds {
      ClaimInRound(h, signed, round, kind, peer, hash);
    }
  }

  /** A claim for a tracked round and a proper type goes to its ledger, and nothing else changes. */
  lemma ClaimTaken(h: HeightLedger, round: int, kind: int, peer: PeerId, hash: Hash)
    requires Shaped(h)
    ensures var r := SetPeerMaj23(h, round, kind, peer, hash);
      && (!IsVoteTypeValid(kind) || round !in h.rounds ==> r == h)
      && (IsVoteTypeValid(kind) && round in h.rounds ==>
            && Get(r, round, kind) == Some(L.SetPeerMaj23(Get(h, round, kind).value, peer, hash))
            && Get(r, round, OtherKind(kind)) == Get(h, round, OtherKind(kind)) && r.rounds.Keys == h.rounds.Keys
            && forall k, j :: k != round ==> Get(r, k, j) == Get(h, k, j))
  {
    hide L.SetPeerMaj23, L.Shaped;
  }

  lemma ClaimInRound(h: HeightLedger, signed: Signatures, round: int, kind: int, peer: PeerId, hash: Hash)
    requires Valid(h, signed) && IsVoteTypeValid(kind) && round in h.rounds
    ensures var l := Get(h, round, kind).value;
      && L.Shaped(l)
      && var r := Put(h, round, kind, L.SetPeerMaj23(l, peer, hash));
         Valid(r, signed) && Grows(h, r) && r.round == h.round
  {
    hide Valid, Grows, L.SetPeerMaj23, L.CanonicalValid, L.BlockValid, L.MajorityValid, L.TrackingBounded, L.Shaped;
    var l := Get(h, round, kind).value;
    LedgerOf(h, signed, round, kind);
    L.SetPeerMaj23IsValid(l, signed, peer, hash);
    ClaimHeader(l, peer, hash);
    PutIsValid(h, signed, round, kind, L.SetPeerMaj23(l, peer, hash));
  }

  /** A claim changes neither what a ledger is for nor its majority. */
  lemma ClaimHeader(l: L.Ledger, peer: PeerId, hash: Hash)
    requires L.Shaped(l)
    ensures var r := L.SetPeerMaj23(l, peer, hash);
      r.height == l.height && r.round == l.round && r.kind == l.kind && r.vals == l.vals && r.maj23 == l.maj23
  {
  }

  /** `POLInfo` is the highest tracked round, up to `round`, with +2/3 prevotes for one value. */
  lemma {:induction false} PolIsLatest(h: HeightLedger, r: int)
    requires r >= -1
    ensures -1 <= PolFrom(h, r) <= r
    ensures PolFrom(h, r) >= 0 ==> Maj(h, PolFrom(h, r), PREVOTE).Some?
    ensures forall k :: PolFrom(h, r) < k <= r ==> Maj(h, k, PREVOTE).None?
    decreases r + 1
  {
    if r >= 0 && Maj(h, r, PREVOTE).None? { PolIsLatest(h, r - 1); }
  }

  /** A majority on record is a quorum of signed votes. */
  lemma MajorityIsSigned(h: HeightLedger, signed: Signatures, round: int, kind: int)
    requires Valid(h, signed) && Maj(h, round, kind).Some? && IsVoteTypeValid(kind)
    ensures Power.Quorum(h.vals, Signers(signed, h.vals, h.height, round, kind, Maj(h, round, kind).value))
    ensures HasAny(h, round, kind)
  {
    var l := Get(h, round, kind).value;
    LedgerOf(h, signed, round, kind);
    L.MajorityHasTwoThirdsAny(l, signed);
    var b := l.byBlock[l.maj23.value];
    assert L.BlockValid(l, signed, l.maj23.value, b);
    hide L.Valid, Power.Total, Power.Of;
    RecordedAreSigners(h, l, signed, round, kind, l.maj23.value, b);
    Power.Mono(h.vals, L.Voters(b.votes), Signers(signed, h.vals, h.height, round, kind, l.maj23.value));
  }

  lemma RecordedAreSigners(h: HeightLedger, l: L.Ledger, signed: Signatures, round: int, kind: int, hash: Hash,
                           b: L.BlockVotes)
    requires L.Shaped(l) && |b.bits| == |b.votes| == |l.vals| && L.BlockValid(l, signed, hash, b)
    requires l.vals == h.vals && l.height == h.height && l.round == round && l.kind == kind
    ensures L.Voters(b.votes) <= Signers(signed, h.vals, h.height, round, kind, hash)
  {
    forall i | i in L.Voters(b.votes) ensures HasSigned(signed, h.vals, h.height, round, kind, hash, i) {
      var v := b.votes[i].value;
      assert L.Checked(l, signed, i, v) && v.hash == hash;
    }
  }

  /** Validator `i` has signed a vote of this kind for this block. */
  ghost predicate HasSigned(signed: Signatures, vals: Validators, height: int, round: int, kind: int, hash: Hash, i: int)
    requires 0 <= i < |vals|
  {
    exists v :: && (vals[i].address, v) in signed
                && v.address == vals[i].address && v.height == height && v.round == round
                && v.kind == kind && v.hash == hash
  }

  ghost function Signers(signed: Signatures, vals: Validators, height: int, round: int, kind: int, hash: Hash): set<int> {
    set i | 0 <= i < |vals| && HasSigned(signed, vals, height, round, kind, hash, i)
  }
}
