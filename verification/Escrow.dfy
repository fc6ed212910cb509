/**
 Escrow: coins frozen for the items of a table, each of which holds a stake of some
 addresses.
 */
module Escrow {
  import opened Types
  import A = Accounts

  /** What an address has at stake in an item. */
  type Stake<!T> = (T, Address) -> int

  /** The stakes of an address in the items with ids below `n`. */
  ghost function Stakes<T>(items: map<nat, T>, stake: Stake<T>, a: Address, n: nat): int {
    if n == 0 then 0 else Stakes(items, stake, a, n - 1) + (if n - 1 in items then stake(items[n - 1], a) else 0)
  }

  ghost predicate Bounded<T>(items: map<nat, T>, n: nat) { forall id :: id in items ==> id < n }

  /** Each address's frozen coins are exactly its stakes. */
  ghost predicate Escrowed<T>(book: A.Book, items: map<nat, T>, stake: Stake<T>) {
    forall a: Address, n: nat :: Bounded(items, n) ==> A.Load(book, a).frozen == Stakes(items, stake, a, n)
  }

  lemma {:induction false} StakesUpdate<T>(items: map<nat, T>, stake: Stake<T>, id: nat, item: T, a: Address, n: nat)
    ensures Stakes(items[id := item], stake, a, n) ==
            Stakes(items, stake, a, n)
            + (if id < n then stake(item, a) - (if id in items then stake(items[id], a) else 0) else 0)
  {
    if n > 0 { StakesUpdate(items, stake, id, item, a, n - 1); }
  }

  /** Changing one item and the frozen coins with it keeps the escrow. */
  lemma EscrowUpdate<T>(book: A.Book, items: map<nat, T>, stake: Stake<T>, id: nat, item: T, book': A.Book)
    requires Escrowed(book, items, stake)
    requires forall a :: A.Load(book', a).frozen ==
                         A.Load(book, a).frozen + stake(item, a) - (if id in items then stake(items[id], a) else 0)
    ensures Escrowed(book', items[id := item], stake)
  {
    var items' := items[id := item];
    forall a: Address, n: nat | Bounded(items', n) ensures A.Load(book', a).frozen == Stakes(items', stake, a, n) {
      assert id in items';
      assert Bounded(items, n) by { assert forall k :: k in items ==> k in items'; }
      StakesUpdate(items, stake, id, item, a, n);
      assert A.Load(book, a).frozen == Stakes(items, stake, a, n);
    }
  }

  /** A stake is part of what its owner has frozen. */
  lemma StakeIsFrozen<T>(book: A.Book, items: map<nat, T>, stake: Stake<T>, id: nat, a: Address)
    requires Escrowed(book, items, stake) && id in items && forall k :: k in items ==> stake(items[k], a) >= 0
    ensures stake(items[id], a) <= A.Load(book, a).frozen
  {
    var n := BoundOf(items);
    assert A.Load(book, a).frozen == Stakes(items, stake, a, n);
    StakesCover(items, stake, a, n, id);
  }

  lemma {:induction false} StakesCover<T>(items: map<nat, T>, stake: Stake<T>, a: Address, n: nat, id: nat)
    requires forall k :: k in items ==> stake(items[k], a) >= 0
    ensures Stakes(items, stake, a, n) >= 0
    ensures id in items && id < n ==> stake(items[id], a) <= Stakes(items, stake, a, n)
  {
    if n > 0 { StakesCover(items, stake, a, n - 1, id); }
  }

  ghost function BoundOf<T>(items: map<nat, T>): (n: nat)
    ensures Bounded(items, n)
    decreases |items|
  {
    if |items| == 0 then 0
    else
      var id :| id in items;
      var rest := items - {id};
      assert forall k :: k in items ==> k == id || k in rest;
      var n := BoundOf(rest);
      if id < n then n else id + 1
  }

  /** Two ways to count that agree on every item. */
  lemma {:induction false} SameStakes<T>(items: map<nat, T>, stake: Stake<T>, other: Stake<T>, a: Address, n: nat)
    requires forall k :: k in items ==> stake(items[k], a) == other(items[k], a)
    ensures Stakes(items, stake, a, n) == Stakes(items, other, a, n)
  {
    if n > 0 { SameStakes(items, stake, other, a, n - 1); }
  }

  /** Nothing is frozen for an empty table. */
  lemma NothingStaked<T>(book: A.Book, stake: Stake<T>)
    requires forall a :: A.Load(book, a).frozen == 0
    ensures Escrowed(book, map[], stake)
  {
    forall a: Address, n: nat ensures Stakes(map[], stake, a, n) == 0 { NoStakes(stake, a, n); }
  }

  lemma {:induction false} NoStakes<T>(stake: Stake<T>, a: Address, n: nat)
    ensures Stakes(map[], stake, a, n) == 0
  {
    if n > 0 { NoStakes(stake, a, n - 1); }
  }
}
