/**
 Contract accounts (balance and frozen balance per address) with the operations the
 escrow contracts use on them. An operation that fails changes nothing.
 */
module Accounts {
  import opened Types

  const COIN := 100_000_000
  const MAX_COIN := 100_000_000_000_000_000

  datatype Account = Account(balance: int, frozen: int)

  type Book = map<Address, Account>

  /** An address without a record has nothing. */
  function Load(book: Book, a: Address): Account {
    if a in book then book[a] else Account(0, 0)
  }

  predicate CheckAmount(amount: int) { 0 < amount < MAX_COIN }

  /** `ExecFrozen`. */
  function Freeze(book: Book, exec: Address, a: Address, amount: int): Option<Book> {
    var acc := Load(book, a);
    if a == exec || !CheckAmount(amount) || acc.balance - amount < 0 then None
    else Some(book[a := Account(acc.balance - amount, acc.frozen + amount)])
  }

  /** `ExecActive`. */
  function Activate(book: Book, exec: Address, a: Address, amount: int): Option<Book> {
    var acc := Load(book, a);
    if a == exec || !CheckAmount(amount) || acc.frozen - amount < 0 then None
    else Some(book[a := Account(acc.balance + amount, acc.frozen - amount)])
  }

  /** `ExecTransfer`. */
  function Transfer(book: Book, src: Address, dst: Address, amount: int): Option<Book> {
    var a, b := Load(book, src), Load(book, dst);
    if src == dst || !CheckAmount(amount) || a.balance - amount < 0 then None
    else Some(book[src := Account(a.balance - amount, a.frozen)][dst := Account(b.balance + amount, b.frozen)])
  }

  /** `ExecTransferFrozen`: out of one address's frozen coins into another's balance. */
  function TransferFrozen(book: Book, src: Address, dst: Address, amount: int): Option<Book> {
    var a, b := Load(book, src), Load(book, dst);
    if src == dst || !CheckAmount(amount) || a.frozen - amount < 0 then None
    else Some(book[src := Account(a.balance, a.frozen - amount)][dst := Account(b.balance + amount, b.frozen)])
  }

  // ------------------------------------------------------------- conservation

  /** All coins of the addresses below `m`. */
  ghost function Coins(book: Book, m: nat): int {
    if m == 0 then 0 else Coins(book, m - 1) + Load(book, m - 1).balance + Load(book, m - 1).frozen
  }

  /** No account is overdrawn. */
  ghost predicate Sound(book: Book) {
    forall a :: Load(book, a).balance >= 0 && Load(book, a).frozen >= 0
  }

  lemma {:induction false} CoinsUpdate(book: Book, a: Address, acc: Account, m: nat)
    ensures var old0 := Load(book, a);
      Coins(book[a := acc], m) ==
      Coins(book, m) + (if a < m then acc.balance + acc.frozen - old0.balance - old0.frozen else 0)
  {
    if m > 0 { CoinsUpdate(book, a, acc, m - 1); }
  }

  lemma SoundUpdate(book: Book, a: Address, acc: Account)
    requires Sound(book) && acc.balance >= 0 && acc.frozen >= 0
    ensures Sound(book[a := acc])
  {
    var book' := book[a := acc];
    forall x ensures Load(book', x).balance >= 0 && Load(book', x).frozen >= 0 {
      assert Load(book, x).balance >= 0;
    }
  }

  /** Each operation conserves the coins of any range of addresses that holds its parties, and keeps accounts sound. */
  lemma FreezeConserves(book: Book, exec: Address, a: Address, amount: int, m: nat)
    requires Freeze(book, exec, a, amount).Some? && Sound(book)
    ensures var book' := Freeze(book, exec, a, amount).value; Coins(book', m) == Coins(book, m) && Sound(book')
  {
    var acc := Load(book, a);
    CoinsUpdate(book, a, Account(acc.balance - amount, acc.frozen + amount), m);
    SoundUpdate(book, a, Account(acc.balance - amount, acc.frozen + amount));
  }

  lemma ActivateConserves(book: Book, exec: Address, a: Address, amount: int, m: nat)
    requires Activate(book, exec, a, amount).Some? && Sound(book)
    ensures var book' := Activate(book, exec, a, amount).value; Coins(book', m) == Coins(book, m) && Sound(book')
  {
    var acc := Load(book, a);
    CoinsUpdate(book, a, Account(acc.balance + amount, acc.frozen - amount), m);
    SoundUpdate(book, a, Account(acc.balance + amount, acc.frozen - amount));
  }

  lemma TransferConserves(book: Book, src: Address, dst: Address, amount: int, m: nat)
    requires Transfer(book, src, dst, amount).Some? && Sound(book) && src < m && dst < m
    ensures var book' := Transfer(book, src, dst, amount).value; Coins(book', m) == Coins(book, m) && Sound(book')
  {
    var a, b := Load(book, src), Load(book, dst);
    var book1 := book[src := Account(a.balance - amount, a.frozen)];
    CoinsUpdate(book, src, Account(a.balance - amount, a.frozen), m);
    SoundUpdate(book, src, Account(a.balance - amount, a.frozen));
    CoinsUpdate(book1, dst, Account(b.balance + amount, b.frozen), m);
    SoundUpdate(book1, dst, Account(b.balance + amount, b.frozen));
  }

  lemma TransferFrozenConserves(book: Book, src: Address, dst: Address, amount: int, m: nat)
    requires TransferFrozen(book, src, dst, amount).Some? && Sound(book) && src < m && dst < m
    ensures var book' := TransferFrozen(book, src, dst, amount).value; Coins(book', m) == Coins(book, m) && Sound(book')
  {
    var a, b := Load(book, src), Load(book, dst);
    var book1 := book[src := Account(a.balance, a.frozen - amount)];
    CoinsUpdate(book, src, Account(a.balance, a.frozen - amount), m);
    SoundUpdate(book, src, Account(a.balance, a.frozen - amount));
    CoinsUpdate(book1, dst, Account(b.balance + amount, b.frozen), m);
    SoundUpdate(book1, dst, Account(b.balance + amount, b.frozen));
  }
}
