/**
 The show of a black-and-white round: what the count of shows that closes it says about
 who has shown a secret.
 */
module BlackWhiteShows {
  import opened Types
  import opened BW = BlackWhite
  import opened BlackWhiteEscrow

  /** A player shows a secret, maybe an empty one; `opens` says which hashes it opens as black. */
  datatype Reveal = Reveal(player: nat, empty: bool, opens: nat -> bool)

  ghost predicate Legal(r: Round, shows: seq<Reveal>) {
    forall i :: 0 <= i < |shows| ==> shows[i].player < |r.players|
  }

  /** The round after some shows. */
  ghost function After(r: Round, shows: seq<Reveal>): (r': Round)
    requires Legal(r, shows)
    ensures |r'.players| == |r.players| && r' == r.(players := r'.players, showCount := r'.showCount)
  {
    if |shows| == 0 then r
    else
      var s := shows[|shows| - 1];
      Revealed(After(r, shows[..|shows| - 1]), s.player, s.empty, s.opens)
  }

  /** Shows one after the other, each while the round is open. */
  ghost predicate ShowRun(r: Round, shows: seq<Reveal>) {
    Legal(r, shows) && forall j :: 0 <= j < |shows| ==> !Full(After(r, shows[..j]))
  }

  ghost function Empties(shows: seq<Reveal>): nat {
    if |shows| == 0 then 0 else Empties(shows[..|shows| - 1]) + (if shows[|shows| - 1].empty then 1 else 0)
  }

  /** How many of the first `n` players have a secret shown. */
  ghost function ShownCount(ps: Players, n: nat): nat
    requires n <= |ps|
  {
    if n == 0 then 0 else ShownCount(ps, n - 1) + (if ps[n - 1].shown then 1 else 0)
  }

  lemma {:induction false} ShownUpdate(ps: Players, k: nat, p: Player, n: nat)
    requires n <= |ps| && k < |ps|
    ensures ShownCount(ps[k := p], n) ==
            ShownCount(ps, n) + (if k < n then (if p.shown then 1 else 0) - (if ps[k].shown then 1 else 0) else 0)
  {
    if n > 0 { ShownUpdate(ps, k, p, n - 1); }
  }

  lemma {:induction false} ShownIsAll(ps: Players, n: nat)
    requires n <= |ps|
    ensures ShownCount(ps, n) <= n
    ensures ShownCount(ps, n) == n <==> forall i :: 0 <= i < n ==> ps[i].shown
    ensures ShownCount(ps, n) == 0 <==> forall i :: 0 <= i < n ==> !ps[i].shown
  {
    if n > 0 { ShownIsAll(ps, n - 1); }
  }

  /** A show sets the secret of its player, the flags it opens and the count, and nothing else about the round. */
  lemma ShowRecorded(r: Round, k: nat, empty: bool, opens: nat -> bool, i: nat)
    requires k < |r.players| && i < |r.players|
    ensures var r' := Revealed(r, k, empty, opens);
      && r' == r.(players := r'.players, showCount := r'.showCount) && |r'.players| == |r.players|
      && r'.showCount == r.showCount + (if r.players[k].shown then 0 else 1)
      && (i != k ==> r'.players[i] == r.players[i])
      && r'.players[k].addr == r.players[k].addr && r'.players[k].amount == r.players[k].amount
      && (r'.players[k].shown <==> !empty) && |r'.players[k].black| == |r.players[k].black|
      && forall j :: 0 <= j < |r.players[k].black| ==> r'.players[k].black[j] == opens(j)
  {
  }

  /** Whatever is shown, a show cannot be timed out before its time has passed since the last player joined. */
  lemma ShowLasts(r: Round, tx: Tx, amount: int, hashes: nat, shows: seq<Reveal>, time: int)
    requires CREATED <= r.status <= PLAYING && Legal(Joined(r, tx, amount, hashes), shows)
    ensures ShowOver(After(Joined(r, tx, amount, hashes), shows), time) ==> time >= tx.time + SHOW_TIMEOUT
  {
    hide After;
  }

  /** The count of shows is the number of players with a secret plus the number of empty shows. */
  lemma {:induction false} ShowsAreCounted(r: Round, shows: seq<Reveal>)
    requires Unshown(r) && Legal(r, shows)
    ensures After(r, shows).showCount == ShownCount(After(r, shows).players, |r.players|) + Empties(shows)
  {
    if |shows| == 0 {
      ShownIsAll(r.players, |r.players|);
    } else {
      var s := shows[|shows| - 1];
      var r1 := After(r, shows[..|shows| - 1]);
      ShowsAreCounted(r, shows[..|shows| - 1]);
      ShownUpdate(r1.players, s.player, After(r, shows).players[s.player], |r.players|);
    }
  }

  /** A round that its shows close has a secret of every player exactly when no show was empty. */
  lemma ClosedByAll(r: Round, shows: seq<Reveal>)
    requires Unshown(r) && |r.players| == r.playerCount && ShowRun(r, shows) && Full(After(r, shows))
    ensures (forall i :: 0 <= i < |r.players| ==> After(r, shows).players[i].shown) <==> Empties(shows) == 0
  {
    var r' := After(r, shows);
    ShowsAreCounted(r, shows);
    ShownIsAll(r'.players, |r.players|);
    assert r'.showCount == r.playerCount by {
      if |shows| > 0 { assert !Full(After(r, shows[..|shows| - 1])); }
    }
  }

  // -------------------------------------------------------------- a round of one

  /** Empty shows of a player. */
  ghost function EmptyShows(k: nat, n: nat, opens: nat -> bool): seq<Reveal> { seq(n, i => Reveal(k, true, opens)) }

  /** All shows but the last are empty, and all are of one player. */
  ghost function Alone(r: Round, k: nat, opens: nat -> bool): seq<Reveal>
    requires |r.players| > 0
  {
    EmptyShows(k, |r.players| - 1, opens) + [Reveal(k, false, opens)]
  }

  /** Empty shows count and leave the player without a secret. */
  lemma {:induction false} EmptyShowsCount(r: Round, k: nat, n: nat, opens: nat -> bool)
    requires Unshown(r) && k < |r.players|
    ensures Legal(r, EmptyShows(k, n, opens))
    ensures var r' := After(r, EmptyShows(k, n, opens));
      && r'.showCount == n && |r'.players[k].black| == |r.players[k].black|
      && r'.players[k] == r.players[k].(black := r'.players[k].black)
      && forall i :: 0 <= i < |r.players| && i != k ==> r'.players[i] == r.players[i]
  {
    if n > 0 {
      EmptyShowsCount(r, k, n - 1, opens);
      assert EmptyShows(k, n, opens)[..n - 1] == EmptyShows(k, n - 1, opens);
    }
  }

  /** The last show of the one player. */
  lemma AloneAfter(r: Round, k: nat, opens: nat -> bool)
    requires k < |r.players|
    ensures Legal(r, Alone(r, k, opens)) && Legal(r, EmptyShows(k, |r.players| - 1, opens))
    ensures After(r, Alone(r, k, opens)) == Revealed(After(r, EmptyShows(k, |r.players| - 1, opens)), k, false, opens)
  {
    var n := |r.players| - 1;
    var shows := Alone(r, k, opens);
    assert shows[..n] == EmptyShows(k, n, opens) && shows[n] == Reveal(k, false, opens);
    hide Revealed, EmptyShows, Alone;
  }

  /** One player can close a round alone: then nobody else has a secret. */
  lemma ClosedByOne(r: Round, k: nat, opens: nat -> bool)
    requires Unshown(r) && |r.players| == r.playerCount && k < |r.players|
    ensures ShowRun(r, Alone(r, k, opens)) && Full(After(r, Alone(r, k, opens)))
    ensures forall i :: 0 <= i < |r.players| ==> (After(r, Alone(r, k, opens)).players[i].shown <==> i == k)
  {
    AloneAfter(r, k, opens);
    EmptyShowsCount(r, k, |r.players| - 1, opens);
    AloneRuns(r, k, opens);
    hide After, Alone, EmptyShows, ShowRun, Legal;
  }

  lemma AloneRuns(r: Round, k: nat, opens: nat -> bool)
    requires Unshown(r) && |r.players| == r.playerCount && k < |r.players|
    ensures ShowRun(r, Alone(r, k, opens))
  {
    hide After, Legal;
    var shows := Alone(r, k, opens);
    AloneAfter(r, k, opens);
    forall j | 0 <= j < |shows| ensures Legal(r, shows[..j]) && !Full(After(r, shows[..j])) {
      assert shows[..j] == EmptyShows(k, j, opens);
      EmptyShowsCount(r, k, j, opens);
    }
  }

  /** And if that player has a hash for each loop, the prize is everybody's stake. */
  lemma AllToOne(r: Round, k: nat, opens: nat -> bool, exec: Address)
    requires Unshown(r) && Proper(r, exec) && r.status == SHOWING && |r.players| >= 2
    requires k < |r.players| && |r.players[k].black| == r.loops
    ensures var r' := After(r, Alone(r, k, opens));
      var win := Winners(r'.players, r'.loops);
      && (forall i :: 0 <= i < |win| ==> (win[i] <==> i == k))
      && Prize(r'.players, win, exec, r.players[k].addr) == Sum(r'.players, All(|win|), |win|)
  {
    hide Winners, Prize, Sum, After, Alone, Legal;
    AloneAfter(r, k, opens);
    var r' := After(r, Alone(r, k, opens));
    var ps, win := r'.players, Winners(r'.players, r'.loops);
    ClosedByOne(r, k, opens);
    AloneSame(r, k, opens);
    WinnersAreEligible(ps, r'.loops);
    assert Eligible(ps[k], r'.loops);
    CountIsPositive(win, |win|);
    OneFlag(win, k, |win|);
    PrizeOfPlayer(ps, win, exec, k);
    OneSum(ps, win, k, |ps|);
  }

  /** The players and what they staked and committed are as before. */
  lemma AloneSame(r: Round, k: nat, opens: nat -> bool)
    requires Unshown(r) && k < |r.players|
    ensures var r' := After(r, Alone(r, k, opens));
      forall i :: 0 <= i < |r.players| ==>
        && r'.players[i].addr == r.players[i].addr && r'.players[i].amount == r.players[i].amount
        && |r'.players[i].black| == |r.players[i].black|
  {
    AloneAfter(r, k, opens);
    EmptyShowsCount(r, k, |r.players| - 1, opens);
    hide After, Alone, EmptyShows;
  }

  lemma {:induction false} OneFlag(win: seq<bool>, k: nat, n: nat)
    requires n <= |win| && forall i :: 0 <= i < |win| ==> (win[i] <==> i == k)
    ensures Count(win, n) == if k < n then 1 else 0
  {
    if n > 0 { OneFlag(win, k, n - 1); }
  }

  lemma {:induction false} OneSum(ps: Players, win: seq<bool>, k: nat, n: nat)
    requires n <= |ps| == |win| && forall i :: 0 <= i < |win| ==> (win[i] <==> i == k)
    ensures Sum(ps, Not(win), n) + (if k < n then ps[k].amount else 0) == Sum(ps, All(|ps|), n)
  {
    if n > 0 { OneSum(ps, win, k, n - 1); }
  }
}
