/**
 The rock-paper-scissors game (`plugin/dapp/game/executor/gamedb.go`): its four actions
 on the game table and on the contract accounts, and the escrow they keep.
 */
module Games {
  import opened Types
  import A = Accounts
  import E = Escrow

  /** Game statuses. */
  const CREATED := 1
  const MATCHED := 2
  const CANCELLED := 3
  const CLOSED := 4

  const SCISSOR := 1
  const ROCK := 2
  const PAPER := 3
  const UNKNOWN := 4

  const DRAW := 1
  const CREATOR_WIN := 2
  const MATCHER_WIN := 3
  const TIMED_OUT := 4

  type GameId = nat

  datatype Game = Game(
    value: int, creator: Address, matcher: Address, status: int, matchTime: int, guess: int,
    index: int, prevIndex: int, result: int, creatorGuess: int)

  type Table = map<GameId, Game>

  /** The configured limits, in coins and hours. */
  datatype Conf = Conf(maxAmount: int, minAmount: int, activeTime: int)

  /** The transaction an action runs in. */
  datatype Tx = Tx(sender: Address, time: int, index: int)

  /** Which guesses, put after the revealed secret, hash to the creator's commitment. */
  datatype Reveal = Reveal(rock: bool, scissor: bool, paper: bool)

  datatype Error = Ok | BadAmount | NoBalance | NoGame | BadStatus | BadSender | AccountError

  // ------------------------------------------------------------------ outcomes

  /** Up to here every whole number is exact in a float64; beyond, every float64 is even. */
  const EXACT := 0x20_0000_0000_0000

  /** The parity test of `GameCreate`, made on the amount as a float64. */
  predicate LooksEven(v: int) { v % 2 == 0 || v > EXACT || v < -EXACT }

  predicate AmountOk(conf: Conf, v: int) {
    conf.minAmount * A.COIN <= v <= conf.maxAmount * A.COIN && LooksEven(v)
  }

  predicate TimedOut(conf: Conf, g: Game, time: int) { time > g.matchTime + 60 * 60 * conf.activeTime }

  /** `checkGameResult`: the result and the creator's guess. */
  function CheckResult(conf: Conf, g: Game, time: int, r: Reveal): (p: (int, int))
    ensures DRAW <= p.0 <= TIMED_OUT
  {
    if TimedOut(conf, g, time) then (TIMED_OUT, UNKNOWN)
    else if r.rock then
      (if g.guess == ROCK then DRAW else if g.guess == SCISSOR then CREATOR_WIN
       else if g.guess == PAPER then MATCHER_WIN else CREATOR_WIN, ROCK)
    else if r.scissor then
      (if g.guess == ROCK then MATCHER_WIN else if g.guess == SCISSOR then DRAW
       else if g.guess == PAPER then CREATOR_WIN else CREATOR_WIN, SCISSOR)
    else if r.paper then
      (if g.guess == ROCK then CREATOR_WIN else if g.guess == SCISSOR then MATCHER_WIN
       else if g.guess == PAPER then DRAW else CREATOR_WIN, PAPER)
    else (MATCHER_WIN, UNKNOWN)
  }

  /** The rules: each guess loses to the next one, and what is not a guess loses to all. */
  ghost predicate Defeats(a: int, b: int) {
    || (a == ROCK && b == SCISSOR) || (a == SCISSOR && b == PAPER) || (a == PAPER && b == ROCK)
    || (a in {ROCK, SCISSOR, PAPER} && b !in {ROCK, SCISSOR, PAPER})
  }

  /** The guess a secret opens the commitment with; if it opens several, rock comes before scissor before paper. */
  ghost predicate OpensAs(r: Reveal, guess: int) {
    || (guess == ROCK && r.rock)
    || (guess == SCISSOR && r.scissor && !r.rock)
    || (guess == PAPER && r.paper && !r.rock && !r.scissor)
  }

  ghost predicate OpensNothing(r: Reveal) { !r.rock && !r.scissor && !r.paper }

  /**
   In time, the guess that the secret opens is the creator's and decides by the rules of
   the game against the matcher's, and a secret that opens nothing loses; late, the
   creator loses.
   */
  lemma ResultFollowsTheRules(conf: Conf, g: Game, time: int, r: Reveal)
    ensures var (result, mine) := CheckResult(conf, g, time, r);
      && (TimedOut(conf, g, time) ==> result == TIMED_OUT && mine == UNKNOWN)
      && (!TimedOut(conf, g, time) && OpensNothing(r) ==> result == MATCHER_WIN && mine == UNKNOWN)
      && (!TimedOut(conf, g, time) && !OpensNothing(r) ==> OpensAs(r, mine))
      && forall guess :: !TimedOut(conf, g, time) && OpensAs(r, guess) ==>
           && mine == guess
           && (result == CREATOR_WIN <==> Defeats(guess, g.guess))
           && (result == MATCHER_WIN <==> Defeats(g.guess, guess))
           && (result == DRAW <==> g.guess == guess)
  {
  }

  // ------------------------------------------------------------------- escrow

  /** What an address can still get out of a game: the creator two parts and the matcher one. */
  function OpenStake(g: Game, a: Address): int {
    if g.status == CREATED then (if a == g.creator then g.value else 0)
    else if g.status == MATCHED then
      (if a == g.creator then 2 * g.value / 3 else 0) + (if a == g.matcher then g.value / 3 else 0)
    else 0
  }

  /** What is left of the creator's stake when a pot does not divide: nobody ever gets it. */
  function Stuck(g: Game, a: Address): int {
    if (g.status == MATCHED || g.status == CLOSED) && a == g.creator then g.value % 3 else 0
  }

  /** What is frozen for an address in a game. */
  function Stake(g: Game, a: Address): int { OpenStake(g, a) + Stuck(g, a) }

  /** The parties of an open game have accounts, and its pot is made of three parts and at most one unit more. */
  ghost predicate Proper(g: Game, exec: Address) {
    && (g.status == CREATED ==> g.creator != exec && 0 < g.value < A.MAX_COIN && LooksEven(g.value))
    && (g.status == MATCHED ==>
          && g.creator != exec && g.matcher != exec && g.creator != g.matcher
          && g.value % 3 <= 1 && 3 <= g.value && 2 * g.value / 3 < A.MAX_COIN)
  }

  /** Each address's frozen coins are exactly its stakes. */
  ghost predicate EscrowOk(book: A.Book, games: Table, exec: Address) {
    && A.Sound(book)
    && (forall id :: id in games ==> Proper(games[id], exec))
    && E.Escrowed(book, games, Stake)
  }

  /** Changing one game and the frozen coins with it keeps the escrow. */
  lemma EscrowUpdate(book: A.Book, games: Table, exec: Address, id: GameId, g: Game, book': A.Book)
    requires EscrowOk(book, games, exec) && A.Sound(book') && Proper(g, exec)
    requires forall a :: A.Load(book', a).frozen ==
                         A.Load(book, a).frozen + Stake(g, a) - (if id in games then Stake(games[id], a) else 0)
    ensures EscrowOk(book', games[id := g], exec)
  {
    hide Proper, Stake, A.Sound, E.Escrowed;
    E.EscrowUpdate(book, games, Stake, id, g, book');
  }

  /** A stake is part of what its owner has frozen. */
  lemma StakeIsFrozen(book: A.Book, games: Table, exec: Address, id: GameId, a: Address)
    requires EscrowOk(book, games, exec) && id in games
    ensures Stake(games[id], a) <= A.Load(book, a).frozen
  {
    hide A.Sound, E.Escrowed;
    E.StakeIsFrozen(book, games, Stake, id, a);
  }

  /** No unit of a game is stuck, now or once it is matched. */
  ghost predicate Divides(g: Game) {
    && (g.status == CREATED ==> g.value % 2 == 0)
    && (g.status == MATCHED || g.status == CLOSED ==> g.value % 3 == 0)
  }

  ghost predicate Exact(games: Table) { forall id :: id in games ==> Divides(games[id]) }

  lemma ExactUpdate(games: Table, id: GameId, g: Game)
    ensures Exact(games) ==> (Exact(games[id := g]) <==> Divides(g)) && (id in games ==> Divides(games[id]))
  {
    hide Divides;
    assert id in games[id := g];
  }

  /** Without odd amounts the frozen coins are exactly what the parties of open games can get. */
  lemma NothingStuck(book: A.Book, games: Table, exec: Address)
    requires EscrowOk(book, games, exec) && Exact(games)
    ensures E.Escrowed(book, games, OpenStake)
  {
    forall a: Address, n: nat | E.Bounded(games, n) ensures A.Load(book, a).frozen == E.Stakes(games, OpenStake, a, n) {
      E.SameStakes(games, Stake, OpenStake, a, n);
      assert A.Load(book, a).frozen == E.Stakes(games, Stake, a, n);
    }
  }

  /** The matched pot holds two parts of the creator and one of the matcher exactly when the amount was even. */
  lemma PotIsExact(v: int)
    requires v >= 0
    ensures 2 * (v / 2 + v) / 3 == v && (v / 2 + v) / 3 == v / 2 <==> v % 2 == 0
    ensures (v / 2 + v) % 3 == v % 2 == v - 2 * (v / 2 + v) / 3
  {
    var k := v / 2;
    assert v == 2 * k || v == 2 * k + 1;
  }

  /** Every accepted amount is even exactly when the limit stays where float64 is exact. */
  lemma AcceptedIsEven(conf: Conf)
    requires conf.minAmount < conf.maxAmount && 0 <= conf.minAmount
    ensures (forall v :: AmountOk(conf, v) ==> v % 2 == 0) <==> conf.maxAmount * A.COIN <= EXACT
  {
    if conf.maxAmount * A.COIN > EXACT {
      var v := OddAmount(conf.minAmount * A.COIN, conf.maxAmount * A.COIN);
      assert AmountOk(conf, v);
    }
  }

  /** An odd amount that passes the parity test. */
  lemma OddAmount(low: int, high: int) returns (v: int)
    requires 0 <= low < high && high > EXACT
    ensures low <= v <= high && v % 2 == 1 && LooksEven(v)
  {
    v := if low > EXACT then (if low % 2 == 0 then low + 1 else low) else EXACT + 1;
  }

  // ------------------------------------------------------------------ actions

  /** What the two parties get out of a pot of three parts, by result. */
  function Payout(result: int, part: int): (int, int) {
    if result == CREATOR_WIN then (3 * part, 0)
    else if result == MATCHER_WIN then (part, 2 * part)
    else if result == DRAW then (2 * part, part)
    else (0, 3 * part)
  }

  /**
   What the parties leave with: on a draw their stakes, two parts and one; a creator who
   wins gets the whole pot; a matcher who wins gets their stake and one part of the
   creator's, who keeps the other; and if the creator is late the matcher gets all.
   */
  lemma PotIsPaid(conf: Conf, g: Game, time: int, r: Reveal)
    requires g.status == MATCHED && g.creator != g.matcher && g.value % 3 <= 1 && g.value >= 3
    ensures var part := g.value / 3;
      var (x, y) := Payout(CheckResult(conf, g, time, r).0, part);
      && OpenStake(g, g.creator) == 2 * part && OpenStake(g, g.matcher) == part
      && (TimedOut(conf, g, time) ==> x == 0 && y == 3 * part)
      && (!TimedOut(conf, g, time) && OpensNothing(r) ==> x == part && y == 2 * part)
      && forall guess :: !TimedOut(conf, g, time) && OpensAs(r, guess) ==>
           && (Defeats(guess, g.guess) ==> x == 3 * part > OpenStake(g, g.creator) && y == 0)
           && (Defeats(g.guess, guess) ==> x == part && y == 2 * part > OpenStake(g, g.matcher))
           && (g.guess == guess ==> x == OpenStake(g, g.creator) && y == OpenStake(g, g.matcher))
  {
    hide CheckResult;
    ResultFollowsTheRules(conf, g, time, r);
  }

  /** Two addresses got coins from their frozen ones; nobody else's account changed. */
  ghost predicate Settled(book: A.Book, book': A.Book, a: Address, x: int, fa: int, b: Address, y: int, fb: int) {
    && A.Load(book', a) == A.Account(A.Load(book, a).balance + x, A.Load(book, a).frozen - fa)
    && A.Load(book', b) == A.Account(A.Load(book, b).balance + y, A.Load(book, b).frozen - fb)
    && forall c :: c != a && c != b ==> A.Load(book', c) == A.Load(book, c)
  }

  /** One address moved coins between its balance and its frozen ones. */
  ghost predicate Moved(book: A.Book, book': A.Book, a: Address, amount: int) {
    && A.Load(book', a) == A.Account(A.Load(book, a).balance - amount, A.Load(book, a).frozen + amount)
    && forall c :: c != a ==> A.Load(book', c) == A.Load(book, c)
  }

  /** The game table before and after a successful action by `sender`. */
  ghost predicate Acts(games: Table, games': Table, id: GameId, sender: Address, now: int) {
    && id in games' && games' == games[id := games'[id]]
    && var g' := games'[id];
       && g'.index == now
       && if id !in games then g'.status == CREATED && g'.creator == sender
          else
            var g := games[id];
            && g'.creator == g.creator && g'.prevIndex == g.index
            && match g'.status
               case 2 => g.status == CREATED && g'.matcher == sender
               case 3 => g.status == CREATED && g'.matcher == g.matcher && g.creator == sender
               case 4 => g.status == MATCHED && g'.matcher == g.matcher
               case _ => false
  }

  class Executor {
    const exec: Address
    var book: A.Book
    var games: Table

    ghost predicate Valid()
      reads this
    {
      EscrowOk(book, games, exec)
    }

    constructor (exec: Address, book: A.Book)
      requires A.Sound(book) && forall a :: A.Load(book, a).frozen == 0
      ensures Valid() && Exact(games) && this.exec == exec && this.book == book && games == map[]
    {
      this.exec, this.book, games := exec, book, map[];
      new;
      E.NothingStaked(book, Stake);
    }

    predicate CheckBalance(a: Address, toFrozen: int, toActive: int)
      reads this
    {
      A.Load(book, a).balance >= toFrozen && A.Load(book, a).frozen >= toActive
    }

    method Freeze(a: Address, amount: int) returns (ok: bool)
      requires A.Sound(book)
      modifies this`book
      ensures A.Sound(book) && ok == A.Freeze(old(book), exec, a, amount).Some?
      ensures if ok then Moved(old(book), book, a, amount) else book == old(book)
      ensures forall m: nat :: A.Coins(book, m) == A.Coins(old(book), m)
    {
      var r := A.Freeze(book, exec, a, amount);
      if r.None? { return false; }
      forall m: nat ensures A.Coins(r.value, m) == A.Coins(book, m) { A.FreezeConserves(book, exec, a, amount, m); }
      A.FreezeConserves(book, exec, a, amount, 0);
      book := r.value;
      ok := true;
    }

    method Activate(a: Address, amount: int) returns (ok: bool)
      requires A.Sound(book)
      modifies this`book
      ensures A.Sound(book) && ok == A.Activate(old(book), exec, a, amount).Some?
      ensures if ok then Moved(old(book), book, a, -amount) else book == old(book)
      ensures forall m: nat :: A.Coins(book, m) == A.Coins(old(book), m)
    {
      var r := A.Activate(book, exec, a, amount);
      if r.None? { return false; }
      forall m: nat ensures A.Coins(r.value, m) == A.Coins(book, m) { A.ActivateConserves(book, exec, a, amount, m); }
      A.ActivateConserves(book, exec, a, amount, 0);
      book := r.value;
      ok := true;
    }

    method TransferFrozen(src: Address, dst: Address, amount: int) returns (ok: bool)
      requires A.Sound(book)
      modifies this`book
      ensures A.Sound(book) && ok == A.TransferFrozen(old(book), src, dst, amount).Some?
      ensures if ok then Settled(old(book), book, src, 0, amount, dst, amount, 0) else book == old(book)
      ensures forall m: nat :: src < m && dst < m ==> A.Coins(book, m) == A.Coins(old(book), m)
    {
      var r := A.TransferFrozen(book, src, dst, amount);
      if r.None? { return false; }
      forall m: nat | src < m && dst < m ensures A.Coins(r.value, m) == A.Coins(book, m) {
        A.TransferFrozenConserves(book, src, dst, amount, m);
      }
      A.TransferFrozenConserves(book, src, dst, amount, src + dst + 1);
      book := r.value;
      ok := true;
    }

    /** `GameCreate`; the id is the hash of the transaction, so no game has it. */
    method Create(conf: Conf, tx: Tx, id: GameId, value: int) returns (err: Error)
      requires Valid() && id !in games
      modifies this
      ensures Valid()
      ensures old(Exact(games)) ==> (Exact(games) <==> err != Ok || value % 2 == 0)
      ensures old(Exact(games)) && conf.maxAmount * A.COIN <= EXACT ==> Exact(games)
      ensures err == Ok ==> Acts(old(games), games, id, tx.sender, tx.index)
      ensures err != Ok ==> book == old(book) && games == old(games)
      ensures err == Ok <==>
        && conf.minAmount * A.COIN <= value <= conf.maxAmount * A.COIN && LooksEven(value) && 0 < value < A.MAX_COIN
        && value <= A.Load(old(book), tx.sender).balance && tx.sender != exec
      ensures err == Ok ==>
        && Moved(old(book), book, tx.sender, value)
        && games == old(games)[id := Game(value, tx.sender, 0, CREATED, 0, 0, tx.index, 0, 0, 0)]
      ensures forall m: nat :: A.Coins(book, m) == A.Coins(old(book), m)
    {
      hide A.Coins, Exact, E.Escrowed;
      if value > conf.maxAmount * A.COIN { return BadAmount; }
      if value < conf.minAmount * A.COIN || !LooksEven(value) { return BadAmount; }
      if !CheckBalance(tx.sender, value, 0) { return NoBalance; }
      var ok := Freeze(tx.sender, value);
      if !ok { return AccountError; }
      var g := Game(value, tx.sender, 0, CREATED, 0, 0, tx.index, 0, 0, 0);
      EscrowUpdate(old(book), games, exec, id, g, book);
      ExactUpdate(games, id, g);
      games := games[id := g];
      err := Ok;
    }

    /** `GameMatch`: the opponent puts half the creator's stake on top. */
    method Match(tx: Tx, id: GameId, guess: int) returns (err: Error)
      requires Valid()
      modifies this
      ensures Valid() && (old(Exact(games)) ==> Exact(games))
      ensures err == Ok ==> Acts(old(games), games, id, tx.sender, tx.index)
      ensures err != Ok ==> book == old(book) && games == old(games)
      ensures err == Ok <==>
        && id in old(games) && old(games)[id].status == CREATED && old(games)[id].creator != tx.sender
        && tx.sender != exec && old(games)[id].value / 2 <= A.Load(old(book), tx.sender).balance
      ensures err == Ok ==>
        var g := old(games)[id];
        && Moved(old(book), book, tx.sender, g.value / 2)
        && games == old(games)[id := g.(status := MATCHED, value := g.value / 2 + g.value, matcher := tx.sender,
                                        matchTime := tx.time, guess := guess, prevIndex := g.index, index := tx.index)]
        && Stake(games[id], g.creator) == g.value && Stake(games[id], tx.sender) == g.value / 2
      ensures forall m: nat :: A.Coins(book, m) == A.Coins(old(book), m)
    {
      hide A.Coins, Exact, E.Escrowed, CheckResult;
      if id !in games { return NoGame; }
      var g := games[id];
      if g.status != CREATED { return BadStatus; }
      if g.creator == tx.sender { return BadSender; }
      if !CheckBalance(tx.sender, g.value / 2, 0) { return NoBalance; }
      var ok := Freeze(tx.sender, g.value / 2);
      if !ok { return AccountError; }
      PotIsExact(g.value);
      var g' := g.(status := MATCHED, value := g.value / 2 + g.value, matcher := tx.sender,
                   matchTime := tx.time, guess := guess, prevIndex := g.index, index := tx.index);
      EscrowUpdate(old(book), games, exec, id, g', book);
      ExactUpdate(games, id, g');
      games := games[id := g'];
      err := Ok;
    }

    /** `GameCancel`: the creator of an open game always gets the stake back. */
    method Cancel(tx: Tx, id: GameId) returns (err: Error)
      requires Valid()
      modifies this
      ensures Valid() && (old(Exact(games)) ==> Exact(games))
      ensures err == Ok ==> Acts(old(games), games, id, tx.sender, tx.index)
      ensures err != Ok ==> book == old(book) && games == old(games)
      ensures err == Ok <==> id in old(games) && old(games)[id].creator == tx.sender && old(games)[id].status == CREATED
      ensures err == Ok ==>
        var g := old(games)[id];
        && Moved(old(book), book, g.creator, -g.value)
        && games == old(games)[id := g.(status := CANCELLED, prevIndex := g.index, index := tx.index)]
      ensures forall m: nat :: A.Coins(book, m) == A.Coins(old(book), m)
    {
      hide A.Coins, Exact, E.Escrowed, CheckResult;
      if id !in games { return NoGame; }
      var g := games[id];
      if g.creator != tx.sender { return BadSender; }
      if g.status != CREATED { return BadStatus; }
      StakeIsFrozen(book, games, exec, id, g.creator);
      if !CheckBalance(tx.sender, 0, g.value) { return NoBalance; }
      var ok := Activate(g.creator, g.value);
      if !ok { return AccountError; }
      var g' := g.(status := CANCELLED, prevIndex := g.index, index := tx.index);
      EscrowUpdate(old(book), games, exec, id, g', book);
      ExactUpdate(games, id, g');
      games := games[id := g'];
      err := Ok;
    }

    /** The pot of a matched game, by result; the error paths with their rollbacks cannot be reached. */
    method PayOut(g: Game, result: int, part: int)
      requires A.Sound(book) && g.creator != g.matcher && g.creator != exec && g.matcher != exec
      requires 0 < part && 2 * part < A.MAX_COIN && DRAW <= result <= TIMED_OUT
      requires A.Load(book, g.creator).frozen >= 2 * part && A.Load(book, g.matcher).frozen >= part
      modifies this`book
      ensures A.Sound(book)
      ensures Settled(old(book), book, g.creator, Payout(result, part).0, 2 * part, g.matcher, Payout(result, part).1, part)
      ensures forall m: nat :: g.creator < m && g.matcher < m ==> A.Coins(book, m) == A.Coins(old(book), m)
    {
      hide A.Coins, A.Sound;
      var ok;
      if result == CREATOR_WIN {
        ok := Activate(g.creator, 2 * part);
        if !ok { assert false; }
        ok := TransferFrozen(g.matcher, g.creator, part);
        if !ok { assert false; }
      } else if result == MATCHER_WIN {
        ok := Activate(g.creator, part);
        if !ok { assert false; }
        ok := Activate(g.matcher, part);
        if !ok { assert false; }
        ok := TransferFrozen(g.creator, g.matcher, part);
        if !ok { assert false; }
      } else if result == DRAW {
        ok := Activate(g.creator, 2 * part);
        if !ok { assert false; }
        ok := Activate(g.matcher, part);
        if !ok { assert false; }
      } else {
        ok := Activate(g.matcher, part);
        if !ok { assert false; }
        ok := TransferFrozen(g.creator, g.matcher, 2 * part);
        if !ok { assert false; }
      }
    }

    /** `GameClose`: whoever may close a matched game can, and the whole pot is paid. */
    method Close(conf: Conf, tx: Tx, id: GameId, r: Reveal) returns (err: Error)
      requires Valid()
      modifies this
      ensures Valid() && (old(Exact(games)) ==> Exact(games))
      ensures err == Ok ==> Acts(old(games), games, id, tx.sender, tx.index)
      ensures err != Ok ==> book == old(book) && games == old(games)
      ensures err == Ok <==>
        && id in old(games) && old(games)[id].status == MATCHED
        && (tx.sender == old(games)[id].creator || tx.time > old(games)[id].matchTime + 60 * 60 * conf.activeTime)
      ensures err == Ok ==>
        var g := old(games)[id];
        var (result, mine) := CheckResult(conf, g, tx.time, r);
        var (x, y) := Payout(result, g.value / 3);
        && x + y == g.value - g.value % 3
        && Settled(old(book), book, g.creator, x, OpenStake(g, g.creator), g.matcher, y, OpenStake(g, g.matcher))
        && games == old(games)[id := g.(status := CLOSED, result := result, creatorGuess := mine,
                                        prevIndex := g.index, index := tx.index)]
        && forall m: nat :: g.creator < m && g.matcher < m ==> A.Coins(book, m) == A.Coins(old(book), m)
    {
      hide A.Coins, Exact, E.Escrowed, CheckResult, Payout, Settled;
      if id !in games { return NoGame; }
      var g := games[id];
      if tx.sender != g.creator && !TimedOut(conf, g, tx.time) { return BadSender; }
      if g.status != MATCHED { return BadStatus; }
      PotIsFrozen(book, games, exec, id);
      if !CheckBalance(g.creator, 0, 2 * g.value / 3) { return NoBalance; }
      if !CheckBalance(g.matcher, 0, g.value / 3) { return NoBalance; }
      var (result, mine) := CheckResult(conf, g, tx.time, r);
      Finish(tx, id, result, mine);
      err := Ok;
    }

    /** Pay a matched game and close it. */
    method Finish(tx: Tx, id: GameId, result: int, mine: int)
      requires Valid() && id in games && games[id].status == MATCHED && DRAW <= result <= TIMED_OUT
      modifies this
      ensures Valid() && (old(Exact(games)) ==> Exact(games))
      ensures var g := old(games)[id];
        var (x, y) := Payout(result, g.value / 3);
        && x + y == g.value - g.value % 3
        && Settled(old(book), book, g.creator, x, OpenStake(g, g.creator), g.matcher, y, OpenStake(g, g.matcher))
        && games == old(games)[id := g.(status := CLOSED, result := result, creatorGuess := mine,
                                        prevIndex := g.index, index := tx.index)]
        && forall m: nat :: g.creator < m && g.matcher < m ==> A.Coins(book, m) == A.Coins(old(book), m)
    {
      hide A.Coins, A.Sound, Exact, E.Escrowed;
      var g := games[id];
      PotIsFrozen(book, games, exec, id);
      PayOut(g, result, g.value / 3);
      var g' := g.(status := CLOSED, result := result, creatorGuess := mine, prevIndex := g.index, index := tx.index);
      EscrowUpdate(old(book), games, exec, id, g', book);
      ExactUpdate(games, id, g');
      games := games[id := g'];
    }
  }

  /** The frozen coins of a matched game, as its parties hold them. */
  lemma PotIsFrozen(book: A.Book, games: Table, exec: Address, id: GameId)
    requires EscrowOk(book, games, exec) && id in games && games[id].status == MATCHED
    ensures var g := games[id];
      && 2 * g.value / 3 == 2 * (g.value / 3) && 0 < g.value / 3 && 2 * (g.value / 3) < A.MAX_COIN
      && A.Load(book, g.creator).frozen >= 2 * (g.value / 3)
      && A.Load(book, g.matcher).frozen >= g.value / 3
  {
    StakeIsFrozen(book, games, exec, id, games[id].creator);
    StakeIsFrozen(book, games, exec, id, games[id].matcher);
  }
}
