/**
 The black-and-white game (`plugin/dapp/blackwhite/executor/action.go`): who survives the
 elimination loops. In every loop the larger of the two colours is out.
 */
module BlackWhite {
  import opened Types

  /**
   A player of a round. `black` holds one flag per committed hash: whether the revealed
   secret opens it as black.
   */
  datatype Player = Player(addr: Address, amount: int, shown: bool, black: seq<bool>)

  type Players = seq<Player>

  // ---------------------------------------------------------------- elimination

  /** In the field: the secret is shown and there is a hash for each loop. */
  predicate Eligible(p: Player, loops: nat) { p.shown && |p.black| == loops }

  function Field(ps: Players, loops: nat): (win: seq<bool>)
    ensures |win| == |ps|
  {
    seq(|ps|, i requires 0 <= i < |ps| => Eligible(ps[i], loops))
  }

  /** Everyone still in has a colour for each loop. */
  ghost predicate InField(ps: Players, loops: nat, win: seq<bool>) {
    |win| == |ps| && forall i :: 0 <= i < |ps| && win[i] ==> |ps[i].black| == loops
  }

  /** How many of the first `n` players are still in and show a colour in a loop. */
  function Shows(ps: Players, loops: nat, win: seq<bool>, index: nat, black: bool, n: nat): nat
    requires InField(ps, loops, win) && index < loops && n <= |ps|
  {
    if n == 0 then 0
    else Shows(ps, loops, win, index, black, n - 1) + (if win[n - 1] && ps[n - 1].black[index] == black then 1 else 0)
  }

  function Count(win: seq<bool>, n: nat): nat
    requires n <= |win|
  {
    if n == 0 then 0 else Count(win, n - 1) + (if win[n - 1] then 1 else 0)
  }

  /** One loop: if both colours show and one shows more often, it is out. */
  function Eliminate(ps: Players, loops: nat, win: seq<bool>, index: nat): (r: seq<bool>)
    requires InField(ps, loops, win) && index < loops
    ensures InField(ps, loops, r)
  {
    var blacks := Shows(ps, loops, win, index, true, |ps|);
    var whites := Shows(ps, loops, win, index, false, |ps|);
    if blacks < whites && blacks != 0 then
      seq(|ps|, i requires 0 <= i < |ps| => win[i] && ps[i].black[index])
    else if blacks > whites && whites != 0 then
      seq(|ps|, i requires 0 <= i < |ps| => win[i] && !ps[i].black[index])
    else win
  }

  /** The loops from `index` on; one or two survivors end the game early. */
  function Survivors(ps: Players, loops: nat, win: seq<bool>, index: nat): (r: seq<bool>)
    requires InField(ps, loops, win) && index <= loops
    ensures InField(ps, loops, r)
    decreases loops - index
  {
    if index == loops then win
    else
      var win' := Eliminate(ps, loops, win, index);
      if Count(win', |win'|) == 1 || Count(win', |win'|) == 2 then win'
      else Survivors(ps, loops, win', index + 1)
  }

  /** `getWinner`, as flags on the players. */
  function Winners(ps: Players, loops: nat): (win: seq<bool>)
    ensures |win| == |ps|
  {
    Survivors(ps, loops, Field(ps, loops), 0)
  }

  // ------------------------------------------------------------------- properties

  lemma {:induction false} ColoursAddUp(ps: Players, loops: nat, win: seq<bool>, index: nat, n: nat)
    requires InField(ps, loops, win) && index < loops && n <= |ps|
    ensures Shows(ps, loops, win, index, true, n) + Shows(ps, loops, win, index, false, n) == Count(win, n)
  {
    if n > 0 { ColoursAddUp(ps, loops, win, index, n - 1); }
  }

  lemma {:induction false} OneColourLeft(ps: Players, loops: nat, win: seq<bool>, index: nat, black: bool,
                                         r: seq<bool>, n: nat)
    requires InField(ps, loops, win) && index < loops && n <= |ps| == |r|
    requires forall i :: 0 <= i < |ps| ==> (r[i] <==> win[i] && ps[i].black[index] == black)
    ensures Count(r, n) == Shows(ps, loops, win, index, black, n)
  {
    if n > 0 { OneColourLeft(ps, loops, win, index, black, r, n - 1); }
  }

  /**
   A loop either changes nothing or leaves fewer than half, and it never empties a field
   that had somebody in it; the survivors are players that were in.
   */
  lemma LoopHalves(ps: Players, loops: nat, win: seq<bool>, index: nat)
    requires InField(ps, loops, win) && index < loops
    ensures var r := Eliminate(ps, loops, win, index);
      && (forall i :: 0 <= i < |ps| && r[i] ==> win[i])
      && (r == win || (0 < Count(r, |r|) && 2 * Count(r, |r|) < Count(win, |win|)))
  {
    var blacks := Shows(ps, loops, win, index, true, |ps|);
    var whites := Shows(ps, loops, win, index, false, |ps|);
    var r := Eliminate(ps, loops, win, index);
    ColoursAddUp(ps, loops, win, index, |ps|);
    if blacks < whites && blacks != 0 {
      OneColourLeft(ps, loops, win, index, true, r, |ps|);
    } else if blacks > whites && whites != 0 {
      OneColourLeft(ps, loops, win, index, false, r, |ps|);
    }
  }

  /** Elimination never empties a field with somebody in it. */
  lemma {:induction false} SomebodySurvives(ps: Players, loops: nat, win: seq<bool>, index: nat)
    requires InField(ps, loops, win) && index <= loops
    ensures var r := Survivors(ps, loops, win, index);
      && (forall i :: 0 <= i < |ps| && r[i] ==> win[i])
      && (Count(win, |win|) > 0 ==> Count(r, |r|) > 0)
      && Count(r, |r|) <= Count(win, |win|)
    decreases loops - index
  {
    if index < loops {
      var win' := Eliminate(ps, loops, win, index);
      LoopHalves(ps, loops, win, index);
      if !(Count(win', |win'|) == 1 || Count(win', |win'|) == 2) {
        SomebodySurvives(ps, loops, win', index + 1);
      }
    }
  }

  /** The decisive loops among those from `index` on. */
  ghost function Decisive(ps: Players, loops: nat, win: seq<bool>, index: nat): nat
    requires InField(ps, loops, win) && index <= loops
    decreases loops - index
  {
    if index == loops then 0
    else
      var win' := Eliminate(ps, loops, win, index);
      (if win' == win then 0 else 1) +
      (if Count(win', |win'|) == 1 || Count(win', |win'|) == 2 then 0 else Decisive(ps, loops, win', index + 1))
  }

  /** `c` doubled `d` times. */
  ghost function Doubled(c: nat, d: nat): nat { if d == 0 then c else 2 * Doubled(c, d - 1) }

  /** Each decisive loop halves the field: `d` of them leave at most one in 2^d. */
  lemma {:induction false} FieldShrinks(ps: Players, loops: nat, win: seq<bool>, index: nat)
    requires InField(ps, loops, win) && index <= loops
    ensures var r := Survivors(ps, loops, win, index);
      Doubled(Count(r, |r|), Decisive(ps, loops, win, index)) <= Count(win, |win|)
    decreases loops - index
  {
    if index < loops {
      var win' := Eliminate(ps, loops, win, index);
      LoopHalves(ps, loops, win, index);
      if !(Count(win', |win'|) == 1 || Count(win', |win'|) == 2) {
        FieldShrinks(ps, loops, win', index + 1);
      }
    }
  }

  /** Winners are players in the field, and there is one as soon as somebody is. */
  lemma WinnersAreEligible(ps: Players, loops: nat)
    ensures var win := Winners(ps, loops);
      && (forall i :: 0 <= i < |ps| && win[i] ==> ps[i].shown && |ps[i].black| == loops)
      && (Count(win, |win|) > 0 <==> exists i :: 0 <= i < |ps| && ps[i].shown && |ps[i].black| == loops)
  {
    var field := Field(ps, loops);
    SomebodySurvives(ps, loops, field, 0);
    CountIsPositive(field, |field|);
    CountIsPositive(Winners(ps, loops), |ps|);
    assert forall i :: 0 <= i < |ps| ==> field[i] == Eligible(ps[i], loops);
  }

  lemma {:induction false} CountIsPositive(win: seq<bool>, n: nat)
    requires n <= |win|
    ensures Count(win, n) > 0 <==> exists i :: 0 <= i < n && win[i]
  {
    if n > 0 { CountIsPositive(win, n - 1); }
  }

  /** Who is in. */
  ghost function In(win: seq<bool>): set<int> { set i | 0 <= i < |win| && win[i] }

  /** Who is in and shows a colour in a loop. */
  ghost function Colour(ps: Players, loops: nat, win: seq<bool>, index: nat, black: bool, n: nat): set<int>
    requires InField(ps, loops, win) && index < loops && n <= |ps|
  {
    set i | 0 <= i < n && win[i] && ps[i].black[index] == black
  }

  lemma {:induction false} ShowsIsSize(ps: Players, loops: nat, win: seq<bool>, index: nat, black: bool, n: nat)
    requires InField(ps, loops, win) && index < loops && n <= |ps|
    ensures Shows(ps, loops, win, index, black, n) == |Colour(ps, loops, win, index, black, n)|
  {
    if n == 0 {
      assert Colour(ps, loops, win, index, black, 0) == {};
    } else {
      ShowsIsSize(ps, loops, win, index, black, n - 1);
      ColourStep(ps, loops, win, index, black, n);
      hide Colour;
    }
  }

  lemma ColourStep(ps: Players, loops: nat, win: seq<bool>, index: nat, black: bool, n: nat)
    requires InField(ps, loops, win) && index < loops && 0 < n <= |ps|
    ensures var before := Colour(ps, loops, win, index, black, n - 1);
      && n - 1 !in before
      && Colour(ps, loops, win, index, black, n)
         == if win[n - 1] && ps[n - 1].black[index] == black then before + {n - 1} else before
  {
  }

  /** A loop with both colours, one of them shown by fewer, leaves exactly those; any other loop leaves everybody. */
  lemma MinorityStays(ps: Players, loops: nat, win: seq<bool>, index: nat)
    requires InField(ps, loops, win) && index < loops
    ensures var b, w := Colour(ps, loops, win, index, true, |ps|), Colour(ps, loops, win, index, false, |ps|);
      In(Eliminate(ps, loops, win, index)) ==
        if b != {} && w != {} && |b| < |w| then b
        else if b != {} && w != {} && |w| < |b| then w
        else In(win)
  {
    ShowsIsSize(ps, loops, win, index, true, |ps|);
    ShowsIsSize(ps, loops, win, index, false, |ps|);
  }

  /** The field after the first `k` loops, without stopping early. */
  ghost function AfterLoops(ps: Players, loops: nat, k: nat): (win: seq<bool>)
    requires k <= loops
    ensures InField(ps, loops, win)
  {
    if k == 0 then Field(ps, loops) else Eliminate(ps, loops, AfterLoops(ps, loops, k - 1), k - 1)
  }

  /** The game is over: one or two are left after a loop. */
  ghost predicate Over(win: seq<bool>) { Count(win, |win|) == 1 || Count(win, |win|) == 2 }

  /** The winners are those left after the first loop that leaves one or two, or else after all loops. */
  lemma WinnersEnd(ps: Players, loops: nat) returns (k: nat)
    ensures k <= loops && Winners(ps, loops) == AfterLoops(ps, loops, k)
    ensures k == loops || (k > 0 && Over(AfterLoops(ps, loops, k)))
    ensures forall j :: 0 < j < k ==> !Over(AfterLoops(ps, loops, j))
  {
    k := SurvivorsEnd(ps, loops, 0);
  }

  lemma {:induction false} SurvivorsEnd(ps: Players, loops: nat, index: nat) returns (k: nat)
    requires index <= loops && forall j :: 0 < j <= index ==> !Over(AfterLoops(ps, loops, j))
    ensures index <= k <= loops && Survivors(ps, loops, AfterLoops(ps, loops, index), index) == AfterLoops(ps, loops, k)
    ensures k == loops || (k > 0 && Over(AfterLoops(ps, loops, k)))
    ensures forall j :: 0 < j < k ==> !Over(AfterLoops(ps, loops, j))
    decreases loops - index
  {
    hide Eliminate, Field;
    if index == loops {
      k := loops;
    } else if Over(AfterLoops(ps, loops, index + 1)) {
      k := index + 1;
    } else {
      k := SurvivorsEnd(ps, loops, index + 1);
    }
  }

  // --------------------------------------------------------------- as programmed

  /** The loops of `getWinner`, on a flag per player. */
  method GetWinner(ps: Players, loops: nat) returns (win: array<bool>)
    ensures fresh(win) && win[..] == Winners(ps, loops)
  {
    win := new bool[|ps|];
    var i := 0;
    while i < |ps|
      invariant 0 <= i <= |ps| && forall k :: 0 <= k < i ==> win[k] == Eligible(ps[k], loops)
    {
      win[i] := Eligible(ps[i], loops);
      i := i + 1;
    }
    assert win[..] == Field(ps, loops);
    var index := 0;
    while index < loops
      invariant 0 <= index <= loops && InField(ps, loops, win[..])
      invariant Survivors(ps, loops, win[..], index) == Winners(ps, loops)
    {
      var left := OneLoop(ps, loops, win, index);
      if left == 1 || left == 2 { return; }
      index := index + 1;
    }
  }

  /** One loop: count the colours, take the larger one out, count who is left. */
  method OneLoop(ps: Players, loops: nat, win: array<bool>, index: nat) returns (left: nat)
    requires InField(ps, loops, win[..]) && index < loops
    modifies win
    ensures win[..] == Eliminate(ps, loops, old(win[..]), index) && left == Count(win[..], win.Length)
  {
    var blackNum, whiteNum := CountColours(ps, loops, win, index);
    if blackNum < whiteNum {
      if blackNum != 0 { Drop(ps, loops, win, index, false); }
    } else if blackNum > whiteNum {
      if whiteNum != 0 { Drop(ps, loops, win, index, true); }
    }
    assert win[..] == Eliminate(ps, loops, old(win[..]), index);
    left := CountLeft(win);
  }

  method CountColours(ps: Players, loops: nat, win: array<bool>, index: nat) returns (blackNum: nat, whiteNum: nat)
    requires InField(ps, loops, win[..]) && index < loops
    ensures blackNum == Shows(ps, loops, win[..], index, true, |ps|)
    ensures whiteNum == Shows(ps, loops, win[..], index, false, |ps|)
  {
    blackNum, whiteNum := 0, 0;
    var i := 0;
    while i < |ps|
      invariant 0 <= i <= |ps|
      invariant blackNum == Shows(ps, loops, win[..], index, true, i)
      invariant whiteNum == Shows(ps, loops, win[..], index, false, i)
    {
      assert win[i] == win[..][i];
      if win[i] {
        if ps[i].black[index] { blackNum := blackNum + 1; } else { whiteNum := whiteNum + 1; }
      }
      i := i + 1;
    }
  }

  /** Take the players that show a colour out. */
  method Drop(ps: Players, loops: nat, win: array<bool>, index: nat, black: bool)
    requires InField(ps, loops, win[..]) && index < loops
    modifies win
    ensures forall i :: 0 <= i < |ps| ==> win[i] == (old(win[i]) && ps[i].black[index] != black)
  {
    assert forall i :: 0 <= i < |ps| ==> win[..][i] == win[i];
    var i := 0;
    while i < |ps|
      invariant 0 <= i <= |ps|
      invariant forall k :: 0 <= k < i ==> win[k] == (old(win[k]) && ps[k].black[index] != black)
      invariant forall k :: i <= k < |ps| ==> win[k] == old(win[k])
    {
      if win[i] && ps[i].black[index] == black { win[i] := false; }
      i := i + 1;
    }
  }

  method CountLeft(win: array<bool>) returns (left: nat)
    ensures left == Count(win[..], win.Length)
  {
    left := 0;
    var i := 0;
    while i < win.Length
      invariant 0 <= i <= win.Length && left == Count(win[..], i)
    {
      if win[i] { left := left + 1; }
      i := i + 1;
    }
  }
}
