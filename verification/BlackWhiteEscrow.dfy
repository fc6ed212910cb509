/**
 The coins of the black-and-white game: what each action freezes, and how a finished
 round is paid (`StatTransfer`).
 */
module BlackWhiteEscrow {
  import opened Types
  import A = Accounts
  import E = Escrow
  import opened BW = BlackWhite

  const MIN_AMOUNT := A.COIN
  const MAX_AMOUNT := 100 * A.COIN
  const MIN_PLAYERS := 3
  const MAX_PLAYERS := 100_000
  /** What the creator of a round locks. */
  const LOCK := A.COIN / 100
  const SHOW_TIMEOUT := 60 * 5
  const MAX_PLAY_TIMEOUT := 60 * 60 * 24
  const MIN_PLAY_TIMEOUT := 60 * 10

  // -------------------------------------------------------------------- sums

  /** What the flagged ones of the first `n` players with an address staked. */
  ghost function Part(ps: Players, flags: seq<bool>, a: Address, n: nat): int
    requires n <= |ps| == |flags|
  {
    if n == 0 then 0
    else Part(ps, flags, a, n - 1) + (if flags[n - 1] && ps[n - 1].addr == a then ps[n - 1].amount else 0)
  }

  /** What the flagged ones of the first `n` players staked together. */
  ghost function Sum(ps: Players, flags: seq<bool>, n: nat): int
    requires n <= |ps| == |flags|
  {
    if n == 0 then 0 else Sum(ps, flags, n - 1) + (if flags[n - 1] then ps[n - 1].amount else 0)
  }

  /** What an address gets when each flagged one of the first `n` players gets `each`. */
  ghost function Shares(ps: Players, flags: seq<bool>, a: Address, each: int, n: nat): int
    requires n <= |ps| == |flags|
  {
    if n == 0 then 0
    else Shares(ps, flags, a, each, n - 1) + (if flags[n - 1] && ps[n - 1].addr == a then each else 0)
  }

  /** What that costs. */
  ghost function Cost(flags: seq<bool>, each: int, n: nat): int
    requires n <= |flags|
  {
    if n == 0 then 0 else Cost(flags, each, n - 1) + (if flags[n - 1] then each else 0)
  }

  lemma {:induction false} CostIsCount(flags: seq<bool>, each: int, n: nat)
    requires n <= |flags|
    ensures Cost(flags, each, n) == each * Count(flags, n)
  {
    if n > 0 {
      CostIsCount(flags, each, n - 1);
      assert each * (Count(flags, n - 1) + 1) == each * Count(flags, n - 1) + each;
    }
  }

  ghost predicate Amounts(ps: Players) {
    forall i :: 0 <= i < |ps| ==> MIN_AMOUNT <= ps[i].amount < A.MAX_COIN
  }

  lemma {:induction false} PartGrows(ps: Players, flags: seq<bool>, a: Address, n: nat, m: nat)
    requires n <= m <= |ps| == |flags| && Amounts(ps)
    ensures 0 <= Part(ps, flags, a, n) <= Part(ps, flags, a, m)
    decreases m
  {
    if n < m {
      PartGrows(ps, flags, a, n, m - 1);
    } else if n > 0 {
      PartGrows(ps, flags, a, n - 1, n - 1);
    }
  }

  function Not(flags: seq<bool>): (r: seq<bool>)
    ensures |r| == |flags|
  {
    seq(|flags|, i requires 0 <= i < |flags| => !flags[i])
  }

  function All(n: nat): (r: seq<bool>)
    ensures |r| == n
  {
    seq(n, i => true)
  }

  /** Winners and losers together are all players. */
  lemma {:induction false} PartsAddUp(ps: Players, flags: seq<bool>, a: Address, n: nat)
    requires n <= |ps| == |flags|
    ensures Part(ps, flags, a, n) + Part(ps, Not(flags), a, n) == Part(ps, All(|ps|), a, n)
  {
    if n > 0 { PartsAddUp(ps, flags, a, n - 1); }
  }

  lemma {:induction false} CountsAddUp(flags: seq<bool>, n: nat)
    requires n <= |flags|
    ensures Count(flags, n) + Count(Not(flags), n) == n
  {
    if n > 0 { CountsAddUp(flags, n - 1); }
  }

  lemma {:induction false} SumIsEnough(ps: Players, flags: seq<bool>, n: nat)
    requires n <= |ps| == |flags| && Amounts(ps)
    ensures Sum(ps, flags, n) >= Count(flags, n) * MIN_AMOUNT
  {
    if n > 0 {
      SumIsEnough(ps, flags, n - 1);
      assert (Count(flags, n - 1) + 1) * MIN_AMOUNT == Count(flags, n - 1) * MIN_AMOUNT + MIN_AMOUNT;
    }
  }

  // ------------------------------------------------------------------ supply

  /** Where the program's 64-bit amounts end. */
  const INT64 := 0x8000_0000_0000_0000

  /** All the coins together stay below a limit. */
  ghost predicate Below(book: A.Book, limit: int) {
    forall m: nat :: A.Coins(book, m) < limit
  }

  lemma {:induction false} CoinsGrow(book: A.Book, a: Address, m: nat)
    requires A.Sound(book)
    ensures A.Coins(book, m) >= 0
    ensures a < m ==> A.Load(book, a).balance + A.Load(book, a).frozen <= A.Coins(book, m)
  {
    if m > 0 { CoinsGrow(book, a, m - 1); }
  }

  lemma {:induction false} CoinsMono(book: A.Book, n: nat, m: nat)
    requires A.Sound(book) && n <= m
    ensures A.Coins(book, n) <= A.Coins(book, m)
    decreases m
  {
    if n < m { CoinsMono(book, n, m - 1); }
  }

  /** Moving coins between addresses below a bound does not change the supply. */
  lemma BelowKept(book: A.Book, book': A.Book, bound: nat, limit: int)
    requires Below(book, limit) && A.Sound(book')
    requires forall m: nat :: bound <= m ==> A.Coins(book', m) == A.Coins(book, m)
    ensures Below(book', limit)
  {
    forall m: nat ensures A.Coins(book', m) < limit {
      var k := if m < bound then bound else m;
      CoinsMono(book', m, k);
      assert A.Coins(book, k) < limit;
    }
  }

  /** One account is below the supply. */
  lemma AccountIsBelow(book: A.Book, a: Address, limit: int)
    requires A.Sound(book) && Below(book, limit)
    ensures A.Load(book, a).balance < limit
  {
    CoinsGrow(book, a, a + 1);
    SoundAt(book, a);
    assert A.Coins(book, a + 1) < limit;
  }

  lemma SoundAt(book: A.Book, a: Address)
    requires A.Sound(book)
    ensures A.Load(book, a).balance >= 0 && A.Load(book, a).frozen >= 0
  {
  }

  /** An address bound that covers the players and the contract. */
  ghost function Bound(ps: Players, exec: Address): (m: nat)
    ensures exec < m && forall i :: 0 <= i < |ps| ==> ps[i].addr < m
  {
    if |ps| == 0 then exec + 1
    else
      var w := ps[..|ps| - 1];
      var m := Bound(w, exec);
      assert forall i :: 0 <= i < |w| ==> w[i].addr < m;
      if ps[|ps| - 1].addr < m then m else ps[|ps| - 1].addr + 1
  }

  // ------------------------------------------------------------------ payments

  /** The flagged ones of the first `n` players have their stakes back. */
  ghost predicate Released(start: A.Book, book: A.Book, ps: Players, flags: seq<bool>, n: nat)
    requires n <= |ps| == |flags|
  {
    forall a ::
      && A.Load(book, a).balance == A.Load(start, a).balance + Part(ps, flags, a, n)
      && A.Load(book, a).frozen == A.Load(start, a).frozen - Part(ps, flags, a, n)
  }

  /** The stakes of the flagged ones of the first `n` players are with the contract. */
  ghost predicate Collected(start: A.Book, book: A.Book, exec: Address, ps: Players, flags: seq<bool>, n: nat)
    requires n <= |ps| == |flags|
  {
    forall a ::
      && A.Load(book, a).balance == A.Load(start, a).balance + (if a == exec then Sum(ps, flags, n) else 0)
      && A.Load(book, a).frozen == A.Load(start, a).frozen - Part(ps, flags, a, n)
  }

  /** The flagged ones of the first `n` players have a share from the contract. */
  ghost predicate Shared(start: A.Book, book: A.Book, exec: Address, ps: Players, flags: seq<bool>, each: int, n: nat)
    requires n <= |ps| == |flags|
  {
    forall a ::
      && A.Load(book, a).balance ==
         A.Load(start, a).balance + Shares(ps, flags, a, each, n) - (if a == exec then Cost(flags, each, n) else 0)
      && A.Load(book, a).frozen == A.Load(start, a).frozen
  }

  ghost predicate Holds(book: A.Book, ps: Players, flags: seq<bool>)
    requires |flags| == |ps|
  {
    forall a :: A.Load(book, a).frozen >= Part(ps, flags, a, |ps|)
  }

  ghost predicate Outside(ps: Players, exec: Address) {
    forall i :: 0 <= i < |ps| ==> ps[i].addr != exec
  }

  /** One more stake released. */
  lemma ReleaseOne(start: A.Book, book: A.Book, exec: Address, ps: Players, flags: seq<bool>, n: nat)
    requires n < |ps| == |flags| && Amounts(ps) && Outside(ps, exec) && Holds(start, ps, flags)
    requires Released(start, book, ps, flags, n) && flags[n]
    ensures var r := A.Activate(book, exec, ps[n].addr, ps[n].amount);
      r.Some? && Released(start, r.value, ps, flags, n + 1)
  {
    PartGrows(ps, flags, ps[n].addr, n + 1, |ps|);
    var r := A.Activate(book, exec, ps[n].addr, ps[n].amount);
    assert A.Load(book, ps[n].addr).frozen == A.Load(start, ps[n].addr).frozen - Part(ps, flags, ps[n].addr, n);
    forall a ensures A.Load(r.value, a) == if a == ps[n].addr
      then A.Account(A.Load(book, a).balance + ps[n].amount, A.Load(book, a).frozen - ps[n].amount) else A.Load(book, a)
    {
    }
  }

  /** One more stake collected. */
  lemma CollectOne(start: A.Book, book: A.Book, exec: Address, ps: Players, flags: seq<bool>, n: nat)
    requires n < |ps| == |flags| && Amounts(ps) && Outside(ps, exec) && Holds(start, ps, flags)
    requires Collected(start, book, exec, ps, flags, n) && flags[n]
    ensures var r := A.TransferFrozen(book, ps[n].addr, exec, ps[n].amount);
      r.Some? && Collected(start, r.value, exec, ps, flags, n + 1)
  {
    PartGrows(ps, flags, ps[n].addr, n + 1, |ps|);
    var r := A.TransferFrozen(book, ps[n].addr, exec, ps[n].amount);
    assert A.Load(book, ps[n].addr).frozen == A.Load(start, ps[n].addr).frozen - Part(ps, flags, ps[n].addr, n);
    forall a ensures A.Load(r.value, a) ==
      if a == ps[n].addr then A.Account(A.Load(book, a).balance, A.Load(book, a).frozen - ps[n].amount)
      else if a == exec then A.Account(A.Load(book, a).balance + ps[n].amount, A.Load(book, a).frozen)
      else A.Load(book, a)
    {
    }
  }

  /** One more share paid. */
  lemma ShareOne(start: A.Book, book: A.Book, exec: Address, ps: Players, flags: seq<bool>, each: int, n: nat)
    requires n < |ps| == |flags| && Outside(ps, exec) && A.CheckAmount(each)
    requires A.Load(start, exec).balance >= Cost(flags, each, |ps|)
    requires Shared(start, book, exec, ps, flags, each, n) && flags[n]
    ensures var r := A.Transfer(book, exec, ps[n].addr, each);
      r.Some? && Shared(start, r.value, exec, ps, flags, each, n + 1)
  {
    CostGrows(flags, each, n + 1, |ps|);
    NotThere(ps, flags, exec, each, n);
    var r := A.Transfer(book, exec, ps[n].addr, each);
    assert A.Load(book, exec).balance == A.Load(start, exec).balance - Cost(flags, each, n);
    forall a ensures A.Load(r.value, a) ==
      if a == ps[n].addr then A.Account(A.Load(book, a).balance + each, A.Load(book, a).frozen)
      else if a == exec then A.Account(A.Load(book, a).balance - each, A.Load(book, a).frozen)
      else A.Load(book, a)
    {
    }
  }

  lemma {:induction false} CostGrows(flags: seq<bool>, each: int, n: nat, m: nat)
    requires n <= m <= |flags| && each >= 0
    ensures Cost(flags, each, n) <= Cost(flags, each, m)
    decreases m
  {
    if n < m { CostGrows(flags, each, n, m - 1); }
  }

  lemma {:induction false} NotThere(ps: Players, flags: seq<bool>, a: Address, each: int, n: nat)
    requires n <= |ps| == |flags| && Outside(ps, a)
    ensures Shares(ps, flags, a, each, n) == 0 && Part(ps, flags, a, n) == 0
  {
    if n > 0 { NotThere(ps, flags, a, each, n - 1); }
  }

  // -------------------------------------------------------------------- rounds

  const CREATED := 1
  const PLAYING := 2
  const SHOWING := 3
  const TIMED_OUT := 4
  const DONE := 5

  type RoundId = nat

  datatype Round = Round(
    creator: Address, playAmount: int, playerCount: int, timeout: int, createTime: int, showTime: int,
    status: int, loops: nat, players: Players, showCount: int, winners: seq<Address>)

  type Rounds = map<RoundId, Round>

  datatype Tx = Tx(sender: Address, time: int)

  datatype Error = Ok | BadAmount | BadParam | NoRound | BadStatus | Repeated | NoPlayer | TooEarly | AccountError

  ghost predicate Open(r: Round) { CREATED <= r.status <= SHOWING }

  /** What an address has frozen for a round: its stake while the round is open, and the creator's lock. */
  ghost function Stake(r: Round, a: Address): int {
    if !Open(r) then 0
    else Part(r.players, All(|r.players|), a, |r.players|) + (if a == r.creator then LOCK else 0)
  }

  ghost predicate Distinct(ps: Players) {
    forall i, j :: 0 <= i < j < |ps| ==> ps[i].addr != ps[j].addr
  }

  /** Nobody has shown a secret. */
  ghost predicate Unshown(r: Round) {
    r.showCount == 0 && forall i :: 0 <= i < |r.players| ==> !r.players[i].shown
  }

  ghost predicate Proper(r: Round, exec: Address) {
    Open(r) ==>
      && r.creator != exec && MIN_AMOUNT <= r.playAmount && r.playerCount <= MAX_PLAYERS
      && Amounts(r.players) && Outside(r.players, exec) && Distinct(r.players)
      && (if r.status < SHOWING then |r.players| < r.playerCount && Unshown(r) else |r.players| == r.playerCount)
  }

  /** Each address's frozen coins are exactly its stakes and locks in open rounds; amounts do not overflow. */
  ghost predicate EscrowOk(book: A.Book, rounds: Rounds, exec: Address) {
    && A.Sound(book) && Below(book, INT64)
    && (forall id :: id in rounds ==> Proper(rounds[id], exec))
    && E.Escrowed(book, rounds, Stake)
  }

  /** Changing one round and the frozen coins with it keeps the escrow. */
  lemma EscrowUpdate(book: A.Book, rounds: Rounds, exec: Address, id: RoundId, r: Round, book': A.Book)
    requires EscrowOk(book, rounds, exec) && A.Sound(book') && Below(book', INT64) && Proper(r, exec)
    requires forall a :: A.Load(book', a).frozen ==
                         A.Load(book, a).frozen + Stake(r, a) - (if id in rounds then Stake(rounds[id], a) else 0)
    ensures EscrowOk(book', rounds[id := r], exec)
  {
    hide Proper, Stake, A.Sound, Below, E.Escrowed;
    E.EscrowUpdate(book, rounds, Stake, id, r, book');
  }

  lemma StakeIsPositive(r: Round, exec: Address, a: Address)
    requires Proper(r, exec)
    ensures Stake(r, a) >= 0
  {
    if Open(r) { PartGrows(r.players, All(|r.players|), a, 0, |r.players|); }
  }

  /** The stakes of an open round are all frozen. */
  lemma StakeIsFrozen(book: A.Book, rounds: Rounds, exec: Address, id: RoundId, a: Address)
    requires EscrowOk(book, rounds, exec) && id in rounds
    ensures Stake(rounds[id], a) <= A.Load(book, a).frozen
  {
    hide Proper, Stake, A.Sound, Below, E.Escrowed;
    forall k | k in rounds ensures Stake(rounds[k], a) >= 0 { StakeIsPositive(rounds[k], exec, a); }
    E.StakeIsFrozen(book, rounds, Stake, id, a);
  }

  /** Every account as it was. */
  ghost predicate SameAccounts(book: A.Book, book': A.Book) {
    forall a :: A.Load(book', a) == A.Load(book, a)
  }

  lemma SameAccountsOk(book: A.Book, rounds: Rounds, exec: Address, book': A.Book)
    requires EscrowOk(book, rounds, exec) && SameAccounts(book, book')
    ensures EscrowOk(book', rounds, exec)
  {
    hide Proper, Stake, E.Stakes;
    forall m: nat ensures A.Coins(book', m) == A.Coins(book, m) { SameCoins(book, book', m); }
    forall a ensures A.Load(book', a).balance >= 0 && A.Load(book', a).frozen >= 0 { SoundAt(book, a); }
    BelowKept(book, book', 0, INT64);
  }

  lemma {:induction false} SameCoins(book: A.Book, book': A.Book, m: nat)
    requires SameAccounts(book, book')
    ensures A.Coins(book', m) == A.Coins(book, m)
  {
    if m > 0 { SameCoins(book, book', m - 1); }
  }

  // ------------------------------------------------------------------- payout

  /** What an address gets into its balance when a round is paid, the creator's lock apart. */
  ghost function Prize(ps: Players, win: seq<bool>, exec: Address, a: Address): int
    requires |win| == |ps|
  {
    var n := Count(win, |ps|);
    if n == 0 || n == |ps| then Part(ps, All(|ps|), a, |ps|)
    else
      var pot := Sum(ps, Not(win), |ps|);
      Part(ps, win, a, |ps|) + Shares(ps, win, a, pot / n, |ps|) + (if a == exec then pot % n else 0)
  }

  /** In a decided round every winner gets the same positive share, and less than one coin unit per winner is left over. */
  lemma ShareIsPositive(ps: Players, win: seq<bool>)
    requires |win| == |ps| <= MAX_PLAYERS && Amounts(ps) && 0 < Count(win, |ps|) < |ps|
    ensures var n, pot := Count(win, |ps|), Sum(ps, Not(win), |ps|);
      && 0 < pot / n && Cost(win, pot / n, |ps|) == pot - pot % n && 0 <= pot % n < n
  {
    var n, pot := Count(win, |ps|), Sum(ps, Not(win), |ps|);
    CountsAddUp(win, |ps|);
    SumIsEnough(ps, Not(win), |ps|);
    CostIsCount(win, pot / n, |ps|);
    AtLeastOne(pot, n);
  }

  lemma AtLeastOne(pot: int, n: int)
    requires 0 < n <= pot
    ensures pot / n > 0 && (pot / n) * n == pot - pot % n
  {
  }

  class Contract {
    const exec: Address
    var book: A.Book
    var rounds: Rounds

    ghost predicate Valid()
      reads this
    {
      EscrowOk(book, rounds, exec)
    }

    /** The contract before its first round, with nothing frozen. */
    constructor (exec: Address, book: A.Book)
      requires A.Sound(book) && Below(book, INT64) && forall a :: A.Load(book, a).frozen == 0
      ensures Valid() && this.exec == exec && this.book == book && rounds == map[]
    {
      this.exec, this.book, rounds := exec, book, map[];
      new;
      E.NothingStaked(book, Stake);
    }

    /** Give the flagged players their stakes back: a loop over `ExecActive` whose error path cannot be reached. */
    method Release(ps: Players, flags: seq<bool>)
      requires |flags| == |ps| && Amounts(ps) && A.Sound(book) && Outside(ps, exec) && Holds(book, ps, flags)
      modifies this`book
      ensures A.Sound(book) && Released(old(book), book, ps, flags, |ps|)
      ensures forall m: nat :: A.Coins(book, m) == A.Coins(old(book), m)
    {
      hide A.Coins, A.Sound, Holds, Outside, Amounts;
      ghost var start := book;
      var i := 0;
      while i < |ps|
        invariant 0 <= i <= |ps| && A.Sound(book) && Released(start, book, ps, flags, i)
        invariant forall m: nat :: A.Coins(book, m) == A.Coins(start, m)
      {
        if flags[i] {
          ReleaseOne(start, book, exec, ps, flags, i);
          var r := A.Activate(book, exec, ps[i].addr, ps[i].amount);
          forall m: nat ensures A.Coins(r.value, m) == A.Coins(start, m) {
            A.ActivateConserves(book, exec, ps[i].addr, ps[i].amount, m);
          }
          A.ActivateConserves(book, exec, ps[i].addr, ps[i].amount, 0);
          book := r.value;
        }
        i := i + 1;
      }
    }

    /** Move the stakes of the flagged players to the contract: a loop over `ExecTransferFrozen` that cannot fail. */
    method Collect(ps: Players, flags: seq<bool>) returns (sum: int)
      requires |flags| == |ps| && Amounts(ps) && A.Sound(book) && Outside(ps, exec) && Holds(book, ps, flags)
      modifies this`book
      ensures A.Sound(book) && sum == Sum(ps, flags, |ps|) && Collected(old(book), book, exec, ps, flags, |ps|)
      ensures forall m: nat :: Bound(ps, exec) <= m ==> A.Coins(book, m) == A.Coins(old(book), m)
    {
      hide A.Coins, A.Sound, Holds, Outside, Amounts;
      ghost var start := book;
      sum := 0;
      var i := 0;
      while i < |ps|
        invariant 0 <= i <= |ps| && A.Sound(book) && sum == Sum(ps, flags, i)
        invariant Collected(start, book, exec, ps, flags, i)
        invariant forall m: nat :: Bound(ps, exec) <= m ==> A.Coins(book, m) == A.Coins(start, m)
      {
        if flags[i] {
          sum := sum + ps[i].amount;
          CollectOne(start, book, exec, ps, flags, i);
          var r := A.TransferFrozen(book, ps[i].addr, exec, ps[i].amount);
          forall m: nat | Bound(ps, exec) <= m ensures A.Coins(r.value, m) == A.Coins(start, m) {
            A.TransferFrozenConserves(book, ps[i].addr, exec, ps[i].amount, m);
          }
          A.TransferFrozenConserves(book, ps[i].addr, exec, ps[i].amount, Bound(ps, exec));
          book := r.value;
        }
        i := i + 1;
      }
    }

    /**
     Pay each flagged player the same share: a loop over `ExecTransfer`. It can only fail
     on the amount, so at the first payment, and then there is nothing of it to undo.
     */
    method Share(ps: Players, flags: seq<bool>, each: int) returns (ok: bool)
      requires |flags| == |ps| && A.Sound(book) && 0 < each && Outside(ps, exec) && Count(flags, |ps|) > 0
      requires A.Load(book, exec).balance >= Cost(flags, each, |ps|)
      modifies this`book
      ensures ok == A.CheckAmount(each) && A.Sound(book)
      ensures if ok then Shared(old(book), book, exec, ps, flags, each, |ps|) else book == old(book)
      ensures forall m: nat :: Bound(ps, exec) <= m ==> A.Coins(book, m) == A.Coins(old(book), m)
    {
      hide A.Coins, A.Sound, Outside;
      ghost var start := book;
      var i := 0;
      while i < |ps|
        invariant 0 <= i <= |ps| && A.Sound(book) && Shared(start, book, exec, ps, flags, each, i)
        invariant A.CheckAmount(each) || (Count(flags, i) == 0 && book == start)
        invariant forall m: nat :: Bound(ps, exec) <= m ==> A.Coins(book, m) == A.Coins(start, m)
      {
        if flags[i] {
          var r := A.Transfer(book, exec, ps[i].addr, each);
          if A.CheckAmount(each) { ShareOne(start, book, exec, ps, flags, each, i); }
          if r.None? { return false; }
          forall m: nat | Bound(ps, exec) <= m ensures A.Coins(r.value, m) == A.Coins(start, m) {
            A.TransferConserves(book, exec, ps[i].addr, each, m);
          }
          A.TransferConserves(book, exec, ps[i].addr, each, Bound(ps, exec));
          book := r.value;
        }
        i := i + 1;
      }
      ok := true;
    }

    /** The rollback of `Collect`: each stake goes back and is frozen again, and neither step can fail. */
    method GiveBack(ps: Players, flags: seq<bool>, ghost start: A.Book)
      requires |flags| == |ps| && Amounts(ps) && Outside(ps, exec) && A.Sound(start) && A.Sound(book)
      requires Collected(start, book, exec, ps, flags, |ps|)
      modifies this`book
      ensures A.Sound(book) && SameAccounts(start, book)
      ensures forall m: nat :: Bound(ps, exec) <= m ==> A.Coins(book, m) == A.Coins(old(book), m)
    {
      hide A.Coins, A.Sound, Outside, Amounts, Collected;
      ghost var from := book;
      NothingBack(start, book, exec, ps, flags);
      var i := 0;
      while i < |ps|
        invariant 0 <= i <= |ps| && A.Sound(book) && GivenBack(start, book, exec, ps, flags, i)
        invariant forall m: nat :: Bound(ps, exec) <= m ==> A.Coins(book, m) == A.Coins(from, m)
      {
        if flags[i] {
          GiveBackOne(start, book, exec, ps, flags, i);
          var r := A.Transfer(book, exec, ps[i].addr, ps[i].amount);
          var r' := A.Freeze(r.value, exec, ps[i].addr, ps[i].amount);
          A.TransferConserves(book, exec, ps[i].addr, ps[i].amount, Bound(ps, exec));
          A.FreezeConserves(r.value, exec, ps[i].addr, ps[i].amount, 0);
          forall m: nat | Bound(ps, exec) <= m ensures A.Coins(r'.value, m) == A.Coins(from, m) {
            A.TransferConserves(book, exec, ps[i].addr, ps[i].amount, m);
            A.FreezeConserves(r.value, exec, ps[i].addr, ps[i].amount, m);
          }
          book := r'.value;
        }
        i := i + 1;
      }
    }

    /** `getLoser`: the players whose address is not a winner's. */
    method GetLoser(ps: Players, win: seq<bool>) returns (lost: seq<bool>)
      requires |win| == |ps| && Distinct(ps)
      ensures lost == Not(win)
    {
      var addrs: set<Address> := {};
      var i := 0;
      while i < |ps|
        invariant 0 <= i <= |ps|
        invariant forall a :: a in addrs <==> exists k :: 0 <= k < i && win[k] && ps[k].addr == a
      {
        if win[i] { addrs := addrs + {ps[i].addr}; }
        i := i + 1;
      }
      lost := [];
      i := 0;
      while i < |ps|
        invariant 0 <= i <= |ps| && |lost| == i && forall k :: 0 <= k < i ==> lost[k] == !win[k]
      {
        lost := lost + [ps[i].addr !in addrs];
        i := i + 1;
      }
    }

    /**
     A decided round: the losers' stakes in equal shares to the winners, who get their own
     back. It fails exactly when a share is not an amount, and then all is as before.
     */
    method PayWinners(ps: Players, win: seq<bool>) returns (ok: bool)
      requires |win| == |ps| <= MAX_PLAYERS && Amounts(ps) && Outside(ps, exec) && Distinct(ps)
      requires A.Sound(book) && Below(book, INT64) && Holds(book, ps, All(|ps|)) && 0 < Count(win, |ps|) < |ps|
      modifies this`book
      ensures A.Sound(book) && Below(book, INT64) && Sum(ps, Not(win), |ps|) < INT64
      ensures ok == (Sum(ps, Not(win), |ps|) / Count(win, |ps|) < A.MAX_COIN)
      ensures if ok then Paid(old(book), book, ps, win, exec) else SameAccounts(old(book), book)
      ensures forall m: nat :: Bound(ps, exec) <= m ==> A.Coins(book, m) == A.Coins(old(book), m)
    {
      hide A.Coins, A.Sound, Outside, Amounts, Below, Distinct, Holds, Collected, Shared, Released, Paid, SameAccounts;
      ghost var start := book;
      ShareIsPositive(ps, win);
      HoldsParts(book, ps, win);
      var lost := GetLoser(ps, win);
      var sum := Collect(ps, lost);
      ghost var b1 := book;
      BelowKept(start, b1, Bound(ps, exec), INT64);
      PotIsThere(start, b1, exec, ps, lost);
      var n := CountFlags(win);
      ok := Share(ps, win, sum / n);
      if !ok {
        GiveBack(ps, lost, start);
      } else {
        ghost var b2 := book;
        HoldsAfter(start, b1, b2, exec, ps, win, sum / n);
        Release(ps, win);
        PaidUp(start, b1, b2, book, exec, ps, win, sum / n);
      }
      BelowKept(start, book, Bound(ps, exec), INT64);
    }

    method CountFlags(win: seq<bool>) returns (n: nat)
      ensures n == Count(win, |win|)
    {
      n := 0;
      var i := 0;
      while i < |win|
        invariant 0 <= i <= |win| && n == Count(win, i)
      {
        if win[i] { n := n + 1; }
        i := i + 1;
      }
    }

    /** The players of a finished round: refunds if it is undecided, else the winners' shares. */
    method PayPlayers(ps: Players, win: seq<bool>) returns (ok: bool)
      requires |win| == |ps| <= MAX_PLAYERS && Amounts(ps) && Outside(ps, exec) && Distinct(ps)
      requires A.Sound(book) && Below(book, INT64) && Holds(book, ps, All(|ps|))
      modifies this`book
      ensures A.Sound(book) && Below(book, INT64) && ok == SharesOk(ps, win)
      ensures if ok then Paid(old(book), book, ps, win, exec) else SameAccounts(old(book), book)
      ensures forall m: nat :: Bound(ps, exec) <= m ==> A.Coins(book, m) == A.Coins(old(book), m)
    {
      hide A.Coins, A.Sound, Outside, Amounts, Below, Distinct;
      ghost var start := book;
      var n := CountFlags(win);
      if n == 0 || n == |ps| {
        Release(ps, All(|ps|));
        BelowKept(start, book, 0, INT64);
        ok := true;
      } else {
        CountAtMost(win, |win|);
        hide Paid, SameAccounts;
        ok := PayWinners(ps, win);
      }
    }

    /** The creator's lock. */
    method Unlock(a: Address)
      requires A.Sound(book) && Below(book, INT64) && A.Activate(book, exec, a, LOCK).Some?
      modifies this`book
      ensures A.Sound(book) && Below(book, INT64)
      ensures forall c :: A.Load(book, c) ==
                if c == a then A.Account(A.Load(old(book), c).balance + LOCK, A.Load(old(book), c).frozen - LOCK)
                else A.Load(old(book), c)
      ensures forall m: nat :: A.Coins(book, m) == A.Coins(old(book), m)
    {
      var res := A.Activate(book, exec, a, LOCK);
      forall m: nat ensures A.Coins(res.value, m) == A.Coins(book, m) { A.ActivateConserves(book, exec, a, LOCK, m); }
      A.ActivateConserves(book, exec, a, LOCK, 0);
      hide A.Coins, A.Sound, Below;
      BelowKept(book, res.value, 0, INT64);
      book := res.value;
    }

    /**
     `StatTransfer`: with the stakes of the round frozen it fails exactly when a share is
     not an amount. If it succeeds exactly the stakes are released; if not, all is as
     before. No coin is made or lost.
     */
    method StatTransfer(r: Round) returns (ok: bool, winners: seq<Address>)
      requires Proper(r, exec) && Open(r) && A.Sound(book) && Below(book, INT64)
      requires forall a :: Stake(r, a) <= A.Load(book, a).frozen
      modifies this`book
      ensures A.Sound(book) && Below(book, INT64) && ok == Payable(r)
      ensures ok ==> Closed(old(book), book, r, exec) && winners == Finished(r).winners
      ensures !ok ==> SameAccounts(old(book), book)
      ensures forall m: nat :: Bound(r.players, exec) <= m ==> A.Coins(book, m) == A.Coins(old(book), m)
    {
      hide A.Coins, A.Sound, Outside, Amounts, Below, Distinct, Winners, Holds, SharesOk, Unshown, SameAccounts, Paid;
      var ps := r.players;
      var flags := GetWinner(ps, r.loops);
      var win := flags[..];
      ghost var start := book;
      HoldsAll(book, r);
      ok := PayPlayers(ps, win);
      if !ok { return false, []; }
      ghost var paid := book;
      LockIsThere(start, paid, r, win, exec);
      winners := ListWinners(ps, win);
      Unlock(r.creator);
      ClosedUp(start, paid, book, r, win, exec);
    }

    method ListWinners(ps: Players, win: seq<bool>) returns (winners: seq<Address>)
      requires |win| == |ps|
      ensures winners == Addresses(ps, win, |ps|)
    {
      winners := [];
      var i := 0;
      while i < |ps|
        invariant 0 <= i <= |ps| && winners == Addresses(ps, win, i)
      {
        if win[i] { winners := winners + [ps[i].addr]; }
        i := i + 1;
      }
    }

    // ------------------------------------------------------------------ actions

    method Freeze(a: Address, amount: int) returns (ok: bool)
      requires A.Sound(book) && Below(book, INT64)
      modifies this`book
      ensures A.Sound(book) && Below(book, INT64) && ok == A.Freeze(old(book), exec, a, amount).Some?
      ensures !ok ==> book == old(book)
      ensures ok ==> forall c :: A.Load(book, c) ==
                       if c == a then A.Account(A.Load(old(book), c).balance - amount, A.Load(old(book), c).frozen + amount)
                       else A.Load(old(book), c)
      ensures forall m: nat :: A.Coins(book, m) == A.Coins(old(book), m)
    {
      var r := A.Freeze(book, exec, a, amount);
      if r.None? { return false; }
      hide A.Coins, A.Sound, Below;
      forall m: nat ensures A.Coins(r.value, m) == A.Coins(book, m) { A.FreezeConserves(book, exec, a, amount, m); }
      A.FreezeConserves(book, exec, a, amount, 0);
      BelowKept(book, r.value, 0, INT64);
      book := r.value;
      ok := true;
    }

    /** The place of an address among the players, -1 if it does not play. */
    method FindPlayer(ps: Players, a: Address) returns (k: int)
      ensures -1 <= k < |ps|
      ensures k >= 0 ==> ps[k].addr == a
      ensures k == -1 ==> forall i :: 0 <= i < |ps| ==> ps[i].addr != a
    {
      k := 0;
      while k < |ps|
        invariant 0 <= k <= |ps| && forall i :: 0 <= i < k ==> ps[i].addr != a
      {
        if ps[k].addr == a { return; }
        k := k + 1;
      }
      k := -1;
    }

    /** `Create`; the id is the hash of the transaction. `loops` is what the player count asks for. */
    method Create(tx: Tx, id: RoundId, playAmount: int, playerCount: int, timeout: int, loops: nat) returns (err: Error)
      requires Valid() && id !in rounds
      modifies this
      ensures Valid()
      ensures err != Ok ==> book == old(book) && rounds == old(rounds)
      ensures err == Ok <==>
        && MIN_AMOUNT <= playAmount <= MAX_AMOUNT && MIN_PLAYERS <= playerCount <= MAX_PLAYERS
        && MIN_PLAY_TIMEOUT <= timeout <= MAX_PLAY_TIMEOUT
        && A.Freeze(old(book), exec, tx.sender, LOCK).Some?
      ensures err == Ok ==>
        rounds == old(rounds)[id := Round(tx.sender, playAmount, playerCount, timeout, tx.time, 0, CREATED, loops, [], 0, [])]
      ensures forall m: nat :: A.Coins(book, m) == A.Coins(old(book), m)
    {
      hide A.Coins, A.Sound, Below;
      if playAmount < MIN_AMOUNT || playAmount > MAX_AMOUNT { return BadAmount; }
      if playerCount < MIN_PLAYERS || playerCount > MAX_PLAYERS { return BadParam; }
      if timeout < MIN_PLAY_TIMEOUT || timeout > MAX_PLAY_TIMEOUT { return BadParam; }
      var ok := Freeze(tx.sender, LOCK);
      if !ok { return AccountError; }
      var r := Round(tx.sender, playAmount, playerCount, timeout, tx.time, 0, CREATED, loops, [], 0, []);
      EscrowUpdate(old(book), rounds, exec, id, r, book);
      rounds := rounds[id := r];
      err := Ok;
    }

    /** `Play`: join once, with at least the amount of the round; the last player opens the show. */
    method Play(tx: Tx, id: RoundId, amount: int, hashes: nat) returns (err: Error)
      requires Valid()
      modifies this
      ensures Valid()
      ensures err != Ok ==> book == old(book) && rounds == old(rounds)
      ensures err == Ok <==>
        && id in old(rounds) && CREATED <= old(rounds)[id].status <= PLAYING
        && (forall i :: 0 <= i < |old(rounds)[id].players| ==> old(rounds)[id].players[i].addr != tx.sender)
        && amount >= old(rounds)[id].playAmount && A.Freeze(old(book), exec, tx.sender, amount).Some?
      ensures err == Ok ==>
        var r := old(rounds)[id];
        && rounds == old(rounds)[id := Joined(r, tx, amount, hashes)]
        && Unshown(rounds[id]) && (rounds[id].status == SHOWING <==> |rounds[id].players| == rounds[id].playerCount)
        && (rounds[id].status == SHOWING ==> rounds[id].showTime == tx.time)
        && |rounds[id].players| == |r.players| + 1 && rounds[id].players[..|r.players|] == r.players
        && var p := rounds[id].players[|r.players|];
           p.addr == tx.sender && p.amount == amount && !p.shown && |p.black| == hashes
      ensures forall m: nat :: A.Coins(book, m) == A.Coins(old(book), m)
    {
      hide A.Coins, A.Sound, Below;
      if id !in rounds { return NoRound; }
      var r := rounds[id];
      if r.status != PLAYING && r.status != CREATED { return BadStatus; }
      var k := FindPlayer(r.players, tx.sender);
      if k >= 0 { return Repeated; }
      if amount < r.playAmount { return BadParam; }
      var ok := Freeze(tx.sender, amount);
      if !ok { return AccountError; }
      var r' := Joined(r, tx, amount, hashes);
      JoinedStake(r, tx, amount, hashes);
      EscrowUpdate(old(book), rounds, exec, id, r', book);
      rounds := rounds[id := r'];
      err := Ok;
    }

    /**
     `Show`: reveal or change a secret; when enough were counted the round is paid. An
     empty secret still counts.
     */
    method Show(tx: Tx, id: RoundId, empty: bool, opens: nat -> bool) returns (err: Error)
      requires Valid()
      modifies this
      ensures Valid()
      ensures err != Ok ==> rounds == old(rounds) && SameAccounts(old(book), book)
      ensures err != Ok && err != AccountError ==> book == old(book)
      ensures err == Ok <==>
        && id in old(rounds) && old(rounds)[id].status == SHOWING
        && exists k :: 0 <= k < |old(rounds)[id].players| && old(rounds)[id].players[k].addr == tx.sender
             && (Full(Revealed(old(rounds)[id], k, empty, opens)) ==> Payable(Revealed(old(rounds)[id], k, empty, opens)))
      ensures err == Ok ==>
        var r := old(rounds)[id];
        exists k :: 0 <= k < |r.players| && r.players[k].addr == tx.sender
          && (var r' := Revealed(r, k, empty, opens);
              if Full(r') then Closed(old(book), book, r', exec) && rounds == old(rounds)[id := Finished(r')]
              else book == old(book) && rounds == old(rounds)[id := r'])
      ensures id in old(rounds) ==> Conserved(old(book), book, Bound(old(rounds)[id].players, exec))
      ensures Below(old(book), A.MAX_COIN) ==> err != AccountError
    {
      hide A.Coins, A.Sound, Below, Winners, Payable, E.Escrowed, SameAccounts, Closed, Finished;
      SameAsBefore(book);
      if id !in rounds { return NoRound; }
      var r := rounds[id];
      if r.status != SHOWING { return BadStatus; }
      var k := FindPlayer(r.players, tx.sender);
      if k < 0 { return NoPlayer; }
      var r' := Revealed(r, k, empty, opens);
      RevealedStake(r, k, empty, opens);
      RevealedBound(r, k, empty, opens, exec);
      assert forall i :: 0 <= i < |r.players| && r.players[i].addr == tx.sender ==> i == k;
      if r'.showCount >= r'.playerCount {
        var ok := PayRound(id, r');
        if !ok { return AccountError; }
      } else {
        EscrowUpdate(book, rounds, exec, id, r', book);
        rounds := rounds[id := r'];
      }
      err := Ok;
    }

    /** Pay a round and close it, if its shares are amounts. */
    method PayRound(id: RoundId, r: Round) returns (ok: bool)
      requires Valid() && id in rounds && rounds[id].status == SHOWING && r.status == SHOWING && Proper(r, exec)
      requires forall a :: Stake(r, a) == Stake(rounds[id], a)
      modifies this
      ensures Valid() && ok == Payable(r)
      ensures ok ==> rounds == old(rounds)[id := Finished(r)] && Closed(old(book), book, r, exec)
      ensures !ok ==> rounds == old(rounds) && SameAccounts(old(book), book)
      ensures Conserved(old(book), book, Bound(r.players, exec))
      ensures Below(old(book), A.MAX_COIN) ==> ok
    {
      hide A.Coins, A.Sound, Below, Winners, Amounts, Outside, Distinct, Payable, SameAccounts, E.Escrowed;
      forall a ensures Stake(r, a) <= A.Load(book, a).frozen { StakeIsFrozen(book, rounds, exec, id, a); }
      if Below(book, A.MAX_COIN) { SupplyIsPayable(book, r, exec); }
      var winners;
      ok, winners := StatTransfer(r);
      if !ok {
        SameAccountsOk(old(book), rounds, exec, book);
        return false;
      }
      var r' := r.(status := DONE, winners := winners);
      ClosedIsProper(r', exec);
      EscrowUpdate(old(book), rounds, exec, id, r', book);
      rounds := rounds[id := r'];
    }

    /** `TimeoutDone`: a round that did not fill up is refunded; one whose show is over is paid. */
    method TimeoutDone(tx: Tx, id: RoundId) returns (err: Error)
      requires Valid()
      modifies this
      ensures Valid()
      ensures err != Ok ==> rounds == old(rounds) && SameAccounts(old(book), book)
      ensures err != Ok && err != AccountError ==> book == old(book)
      ensures err == Ok <==>
        && id in old(rounds)
        && var r := old(rounds)[id];
           || (r.status == PLAYING && tx.time >= r.timeout + r.createTime)
           || (ShowOver(r, tx.time) && Payable(r))
      ensures err == Ok ==>
        var r := old(rounds)[id];
        if r.status == SHOWING then Closed(old(book), book, r, exec) && rounds == old(rounds)[id := Finished(r)]
        else Refunded(old(book), book, r) && rounds == old(rounds)[id := r.(status := TIMED_OUT)]
      ensures id in old(rounds) ==> Conserved(old(book), book, Bound(old(rounds)[id].players, exec))
      ensures Below(old(book), A.MAX_COIN) ==> err != AccountError
    {
      hide A.Coins, A.Sound, Below, Winners, Finished, Closed, Payable, SameAccounts, E.Escrowed;
      SameAsBefore(book);
      if id !in rounds { return NoRound; }
      var r := rounds[id];
      if r.status == PLAYING {
        if tx.time < r.timeout + r.createTime { return TooEarly; }
        Refund(id);
      } else if r.status == SHOWING {
        if tx.time < SHOW_TIMEOUT + r.showTime { return TooEarly; }
        var ok := PayRound(id, r);
        if !ok { return AccountError; }
      } else {
        return BadStatus;
      }
      err := Ok;
    }

    /** Give everybody in a round that timed out what was frozen for it. */
    method Refund(id: RoundId)
      requires Valid() && id in rounds && rounds[id].status == PLAYING
      modifies this
      ensures Valid() && rounds == old(rounds)[id := old(rounds)[id].(status := TIMED_OUT)]
      ensures Refunded(old(book), book, old(rounds)[id])
      ensures Conserved(old(book), book, 0)
    {
      hide A.Coins, A.Sound, Below, E.Escrowed;
      var r := rounds[id];
      var ps := r.players;
      ghost var start := book;
      forall a ensures Stake(r, a) <= A.Load(book, a).frozen { StakeIsFrozen(book, rounds, exec, id, a); }
      HoldsAll(book, r);
      Release(ps, All(|ps|));
      ghost var paid := book;
      BelowKept(start, paid, 0, INT64);
      assert Stake(r, r.creator) <= A.Load(start, r.creator).frozen;
      assert A.Load(paid, r.creator).frozen == A.Load(start, r.creator).frozen - Part(ps, All(|ps|), r.creator, |ps|);
      Unlock(r.creator);
      var r' := r.(status := TIMED_OUT);
      EscrowUpdate(start, rounds, exec, id, r', book);
      rounds := rounds[id := r'];
    }
  }

  // -------------------------------------------------------- rounds after actions

  /** The round once a player has joined. */
  function Joined(r: Round, tx: Tx, amount: int, hashes: nat): Round {
    var ps := r.players + [Player(tx.sender, amount, false, seq(hashes, i => false))];
    if |ps| >= r.playerCount then r.(players := ps, status := SHOWING, showTime := tx.time)
    else r.(players := ps, status := PLAYING)
  }

  /** The round once the player at `k` has shown a secret. */
  function Revealed(r: Round, k: nat, empty: bool, opens: nat -> bool): Round
    requires k < |r.players|
  {
    var p := r.players[k];
    r.(players := r.players[k := p.(shown := !empty, black := seq(|p.black|, i requires 0 <= i => opens(i)))],
       showCount := r.showCount + (if p.shown then 0 else 1))
  }

  /** The time to show is over. */
  predicate ShowOver(r: Round, time: int) { r.status == SHOWING && time >= SHOW_TIMEOUT + r.showTime }

  /** Enough shows were counted to close the round. */
  predicate Full(r: Round) { r.showCount >= r.playerCount }

  /** The winners' shares are amounts, if there are any to pay. */
  ghost predicate SharesOk(ps: Players, win: seq<bool>)
    requires |win| == |ps|
  {
    var n := Count(win, |ps|);
    n == 0 || n == |ps| || Sum(ps, Not(win), |ps|) / n < A.MAX_COIN
  }

  ghost predicate Payable(r: Round) { SharesOk(r.players, Winners(r.players, r.loops)) }

  /** No coin of the addresses below any bound that covers the round is made or lost. */
  ghost predicate Conserved(book: A.Book, book': A.Book, bound: nat) {
    forall m: nat :: bound <= m ==> A.Coins(book', m) == A.Coins(book, m)
  }

  ghost function Finished(r: Round): Round {
    r.(status := DONE, winners := Addresses(r.players, Winners(r.players, r.loops), |r.players|))
  }

  /** The accounts once a round is paid: its stakes and lock released, its prizes in. */
  ghost predicate Closed(start: A.Book, book: A.Book, r: Round, exec: Address) {
    forall a ::
      && A.Load(book, a).frozen == A.Load(start, a).frozen - Stake(r, a)
      && A.Load(book, a).balance ==
         A.Load(start, a).balance + Prize(r.players, Winners(r.players, r.loops), exec, a) + (if a == r.creator then LOCK else 0)
  }

  /** The accounts once a round is refunded. */
  ghost predicate Refunded(start: A.Book, book: A.Book, r: Round) {
    forall a ::
      && A.Load(book, a).frozen == A.Load(start, a).frozen - Stake(r, a)
      && A.Load(book, a).balance == A.Load(start, a).balance + Stake(r, a)
  }

  lemma {:induction false} PartSame(ps: Players, ps': Players, flags: seq<bool>, flags': seq<bool>, a: Address, n: nat)
    requires n <= |ps| == |flags| && n <= |ps'| == |flags'|
    requires forall i :: 0 <= i < n ==> ps'[i].addr == ps[i].addr && ps'[i].amount == ps[i].amount && flags'[i] == flags[i]
    ensures Part(ps', flags', a, n) == Part(ps, flags, a, n)
  {
    if n > 0 { PartSame(ps, ps', flags, flags', a, n - 1); }
  }

  /** A player who joins adds the stake, and the round stays proper. */
  lemma JoinedStake(r: Round, tx: Tx, amount: int, hashes: nat)
    requires CREATED <= r.status <= PLAYING
    ensures forall a :: Stake(Joined(r, tx, amount, hashes), a) == Stake(r, a) + (if a == tx.sender then amount else 0)
  {
    var r' := Joined(r, tx, amount, hashes);
    var n := |r.players|;
    forall a ensures Stake(r', a) == Stake(r, a) + (if a == tx.sender then amount else 0) {
      PartSame(r.players, r'.players, All(n), All(n + 1), a, n);
    }
  }

  /** A shown secret moves no stake. */
  lemma RevealedStake(r: Round, k: nat, empty: bool, opens: nat -> bool)
    requires k < |r.players|
    ensures forall a :: Stake(Revealed(r, k, empty, opens), a) == Stake(r, a)
  {
    var r' := Revealed(r, k, empty, opens);
    var n := |r.players|;
    forall a ensures Stake(r', a) == Stake(r, a) { PartSame(r.players, r'.players, All(n), All(n), a, n); }
  }

  lemma {:induction false} SameBound(ps: Players, ps': Players, exec: Address)
    requires |ps'| == |ps| && forall i :: 0 <= i < |ps| ==> ps'[i].addr == ps[i].addr
    ensures Bound(ps', exec) == Bound(ps, exec)
  {
    if |ps| > 0 { SameBound(ps[..|ps| - 1], ps'[..|ps| - 1], exec); }
  }

  lemma RevealedBound(r: Round, k: nat, empty: bool, opens: nat -> bool, exec: Address)
    requires k < |r.players|
    ensures Bound(Revealed(r, k, empty, opens).players, exec) == Bound(r.players, exec)
  {
    SameBound(r.players, Revealed(r, k, empty, opens).players, exec);
  }

  lemma SameAsBefore(book: A.Book)
    ensures SameAccounts(book, book)
  {
  }

  lemma ClosedIsProper(r: Round, exec: Address)
    requires !Open(r)
    ensures Proper(r, exec) && forall a :: Stake(r, a) == 0
  {
  }

  /** By player: in an undecided round the stake, in a decided one stake and share for a winner and nothing for a loser. */
  lemma PrizeOfPlayer(ps: Players, win: seq<bool>, exec: Address, i: int)
    requires |win| == |ps| && Distinct(ps) && Outside(ps, exec) && 0 <= i < |ps|
    ensures Prize(ps, win, exec, ps[i].addr) ==
            if Count(win, |ps|) == 0 || Count(win, |ps|) == |ps| then ps[i].amount
            else if win[i] then ps[i].amount + Sum(ps, Not(win), |ps|) / Count(win, |ps|)
            else 0
  {
    if Count(win, |ps|) == 0 || Count(win, |ps|) == |ps| {
      OnlyOne(ps, All(|ps|), i, 0, |ps|);
    } else {
      OnlyOne(ps, win, i, Sum(ps, Not(win), |ps|) / Count(win, |ps|), |ps|);
    }
  }

  lemma {:induction false} OnlyOne(ps: Players, win: seq<bool>, i: int, each: int, n: nat)
    requires n <= |ps| == |win| && Distinct(ps) && 0 <= i < |ps|
    ensures Part(ps, win, ps[i].addr, n) == if i < n && win[i] then ps[i].amount else 0
    ensures Shares(ps, win, ps[i].addr, each, n) == if i < n && win[i] then each else 0
  {
    if n > 0 { OnlyOne(ps, win, i, each, n - 1); }
  }

  // -------------------------------------------------------------- payout proofs

  function Addresses(ps: Players, win: seq<bool>, n: nat): seq<Address>
    requires n <= |ps| == |win|
  {
    if n == 0 then [] else Addresses(ps, win, n - 1) + (if win[n - 1] then [ps[n - 1].addr] else [])
  }

  /** The accounts after a payout, the creator's lock apart. */
  ghost predicate Paid(start: A.Book, book: A.Book, ps: Players, win: seq<bool>, exec: Address)
    requires |win| == |ps|
  {
    forall a ::
      && A.Load(book, a).balance == A.Load(start, a).balance + Prize(ps, win, exec, a)
      && A.Load(book, a).frozen == A.Load(start, a).frozen - Part(ps, All(|ps|), a, |ps|)
  }

  lemma HoldsAll(book: A.Book, r: Round)
    requires Open(r) && forall a :: Stake(r, a) <= A.Load(book, a).frozen
    ensures Holds(book, r.players, All(|r.players|))
  {
    forall a ensures A.Load(book, a).frozen >= Part(r.players, All(|r.players|), a, |r.players|) {
      assert Stake(r, a) <= A.Load(book, a).frozen;
    }
  }

  lemma HoldsParts(book: A.Book, ps: Players, win: seq<bool>)
    requires |win| == |ps| && Amounts(ps) && Holds(book, ps, All(|ps|))
    ensures Holds(book, ps, Not(win))
  {
    forall a ensures A.Load(book, a).frozen >= Part(ps, Not(win), a, |ps|) {
      PartsAddUp(ps, win, a, |ps|);
      PartGrows(ps, win, a, 0, |ps|);
      assert A.Load(book, a).frozen >= Part(ps, All(|ps|), a, |ps|);
    }
  }

  /** The collected stakes are with the contract, and below the 64-bit limit. */
  lemma PotIsThere(start: A.Book, b1: A.Book, exec: Address, ps: Players, lost: seq<bool>)
    requires |lost| == |ps| && Outside(ps, exec) && A.Sound(start) && A.Sound(b1) && Below(b1, INT64)
    requires Collected(start, b1, exec, ps, lost, |ps|)
    ensures Sum(ps, lost, |ps|) <= A.Load(b1, exec).balance < INT64
  {
    AccountIsBelow(b1, exec, INT64);
    SoundAt(start, exec);
  }

  lemma {:induction false} SumGrows(ps: Players, flags: seq<bool>, n: nat, m: nat)
    requires n <= m <= |ps| == |flags| && Amounts(ps)
    ensures Sum(ps, flags, n) <= Sum(ps, flags, m)
    decreases m
  {
    if n < m { SumGrows(ps, flags, n, m - 1); }
  }

  /** The collected stakes of the first `n` players are frozen again, the others still with the contract. */
  ghost predicate GivenBack(start: A.Book, book: A.Book, exec: Address, ps: Players, flags: seq<bool>, n: nat)
    requires n <= |ps| == |flags|
  {
    forall a ::
      && A.Load(book, a).balance ==
         A.Load(start, a).balance + (if a == exec then Sum(ps, flags, |ps|) - Sum(ps, flags, n) else 0)
      && A.Load(book, a).frozen == A.Load(start, a).frozen - Part(ps, flags, a, |ps|) + Part(ps, flags, a, n)
  }

  lemma NothingBack(start: A.Book, book: A.Book, exec: Address, ps: Players, flags: seq<bool>)
    requires |flags| == |ps| && Collected(start, book, exec, ps, flags, |ps|)
    ensures GivenBack(start, book, exec, ps, flags, 0)
  {
  }

  /** One more stake given back. */
  lemma GiveBackOne(start: A.Book, book: A.Book, exec: Address, ps: Players, flags: seq<bool>, n: nat)
    requires n < |ps| == |flags| && Amounts(ps) && Outside(ps, exec) && A.Sound(start)
    requires GivenBack(start, book, exec, ps, flags, n) && flags[n]
    ensures var r := A.Transfer(book, exec, ps[n].addr, ps[n].amount);
      && r.Some?
      && var r' := A.Freeze(r.value, exec, ps[n].addr, ps[n].amount);
         r'.Some? && GivenBack(start, r'.value, exec, ps, flags, n + 1)
  {
    SumGrows(ps, flags, n + 1, |ps|);
    SoundAt(start, exec);
    SoundAt(start, ps[n].addr);
    assert A.Load(book, exec).balance == A.Load(start, exec).balance + Sum(ps, flags, |ps|) - Sum(ps, flags, n);
    assert A.Load(book, ps[n].addr).balance == A.Load(start, ps[n].addr).balance;
    var r := A.Transfer(book, exec, ps[n].addr, ps[n].amount);
    var r' := A.Freeze(r.value, exec, ps[n].addr, ps[n].amount);
    forall a ensures A.Load(r'.value, a) ==
      if a == ps[n].addr then A.Account(A.Load(book, a).balance, A.Load(book, a).frozen + ps[n].amount)
      else if a == exec then A.Account(A.Load(book, a).balance - ps[n].amount, A.Load(book, a).frozen)
      else A.Load(book, a)
    {
    }
  }

  /** What the flagged ones of the first `n` players staked, by address. */
  ghost function PartsBelow(ps: Players, flags: seq<bool>, m: nat, n: nat): int
    requires n <= |ps| == |flags|
  {
    if m == 0 then 0 else PartsBelow(ps, flags, m - 1, n) + Part(ps, flags, m - 1, n)
  }

  lemma {:induction false} PartsStep(ps: Players, flags: seq<bool>, m: nat, n: nat)
    requires 0 < n <= |ps| == |flags|
    ensures PartsBelow(ps, flags, m, n) ==
            PartsBelow(ps, flags, m, n - 1) + (if flags[n - 1] && ps[n - 1].addr < m then ps[n - 1].amount else 0)
  {
    if m > 0 { PartsStep(ps, flags, m - 1, n); }
  }

  lemma {:induction false} PartsAreSum(ps: Players, flags: seq<bool>, m: nat, n: nat)
    requires n <= |ps| == |flags| && forall i :: 0 <= i < |ps| ==> ps[i].addr < m
    ensures PartsBelow(ps, flags, m, n) == Sum(ps, flags, n)
  {
    if n > 0 {
      PartsStep(ps, flags, m, n);
      PartsAreSum(ps, flags, m, n - 1);
    } else {
      NoParts(ps, flags, m);
    }
  }

  lemma {:induction false} NoParts(ps: Players, flags: seq<bool>, m: nat)
    requires |ps| == |flags|
    ensures PartsBelow(ps, flags, m, 0) == 0
  {
    if m > 0 { NoParts(ps, flags, m - 1); }
  }

  lemma {:induction false} PartsInCoins(book: A.Book, ps: Players, flags: seq<bool>, m: nat)
    requires |ps| == |flags| && A.Sound(book) && Holds(book, ps, flags)
    ensures PartsBelow(ps, flags, m, |ps|) <= A.Coins(book, m)
  {
    if m > 0 {
      PartsInCoins(book, ps, flags, m - 1);
      SoundAt(book, m - 1);
      assert A.Load(book, m - 1).frozen >= Part(ps, flags, m - 1, |ps|);
    }
  }

  /** With all coins below the largest amount every share is one. */
  lemma SupplyIsPayable(book: A.Book, r: Round, exec: Address)
    requires A.Sound(book) && Below(book, A.MAX_COIN) && Open(r) && Amounts(r.players)
    requires forall a :: Stake(r, a) <= A.Load(book, a).frozen
    ensures Payable(r)
  {
    var ps, win := r.players, Winners(r.players, r.loops);
    var m := Bound(ps, exec);
    HoldsAll(book, r);
    HoldsParts(book, ps, win);
    PartsAreSum(ps, Not(win), m, |ps|);
    PartsInCoins(book, ps, Not(win), m);
    assert A.Coins(book, m) < A.MAX_COIN;
    if Count(win, |ps|) > 0 { ShareIsBelow(Sum(ps, Not(win), |ps|), Count(win, |ps|)); }
  }

  lemma ShareIsBelow(sum: int, n: int)
    requires 0 < n && sum < A.MAX_COIN
    ensures sum / n < A.MAX_COIN
  {
  }

  lemma HoldsAfter(start: A.Book, b1: A.Book, b2: A.Book, exec: Address, ps: Players, win: seq<bool>, each: int)
    requires |win| == |ps| && Holds(start, ps, All(|ps|))
    requires Collected(start, b1, exec, ps, Not(win), |ps|) && Shared(b1, b2, exec, ps, win, each, |ps|)
    ensures Holds(b2, ps, win)
  {
    forall a ensures A.Load(b2, a).frozen >= Part(ps, win, a, |ps|) {
      PartsAddUp(ps, win, a, |ps|);
      assert A.Load(start, a).frozen >= Part(ps, All(|ps|), a, |ps|);
      assert A.Load(b1, a).frozen == A.Load(start, a).frozen - Part(ps, Not(win), a, |ps|);
    }
  }

  lemma PaidUp(start: A.Book, b1: A.Book, b2: A.Book, b3: A.Book, exec: Address, ps: Players, win: seq<bool>, each: int)
    requires |win| == |ps| <= MAX_PLAYERS && Amounts(ps) && Outside(ps, exec) && 0 < Count(win, |ps|) < |ps|
    requires each == Sum(ps, Not(win), |ps|) / Count(win, |ps|)
    requires Collected(start, b1, exec, ps, Not(win), |ps|) && Shared(b1, b2, exec, ps, win, each, |ps|)
    requires Released(b2, b3, ps, win, |ps|)
    ensures Paid(start, b3, ps, win, exec)
  {
    ShareIsPositive(ps, win);
    forall a
      ensures A.Load(b3, a).balance == A.Load(start, a).balance + Prize(ps, win, exec, a)
      ensures A.Load(b3, a).frozen == A.Load(start, a).frozen - Part(ps, All(|ps|), a, |ps|)
    {
      PartsAddUp(ps, win, a, |ps|);
      assert A.Load(b1, a).frozen == A.Load(start, a).frozen - Part(ps, Not(win), a, |ps|);
      assert A.Load(b2, a).frozen == A.Load(b1, a).frozen;
    }
  }

  lemma {:induction false} CountAtMost(win: seq<bool>, n: nat)
    requires n <= |win|
    ensures Count(win, n) <= n
  {
    if n > 0 { CountAtMost(win, n - 1); }
  }

  /** The creator's lock is still frozen when the round has been paid. */
  lemma LockIsThere(start: A.Book, paid: A.Book, r: Round, win: seq<bool>, exec: Address)
    requires Open(r) && |win| == |r.players| && r.creator != exec
    requires forall a :: Stake(r, a) <= A.Load(start, a).frozen
    requires Paid(start, paid, r.players, win, exec)
    ensures A.Activate(paid, exec, r.creator, LOCK).Some?
  {
    assert Stake(r, r.creator) <= A.Load(start, r.creator).frozen;
    assert A.Load(paid, r.creator).frozen ==
           A.Load(start, r.creator).frozen - Part(r.players, All(|r.players|), r.creator, |r.players|);
  }

  /** The accounts once the creator's lock is released too. */
  lemma ClosedUp(start: A.Book, paid: A.Book, book: A.Book, r: Round, win: seq<bool>, exec: Address)
    requires Open(r) && win == Winners(r.players, r.loops) && Paid(start, paid, r.players, win, exec)
    requires forall c :: A.Load(book, c) ==
               if c == r.creator then A.Account(A.Load(paid, c).balance + LOCK, A.Load(paid, c).frozen - LOCK)
               else A.Load(paid, c)
    ensures Closed(start, book, r, exec)
  {
    hide Winners, Prize, Part;
  }
}
