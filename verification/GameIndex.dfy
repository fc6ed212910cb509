/**
 The secondary indexes of the game (`plugin/dapp/game/executor/game.go`): the writes a
 receipt causes, and those that undo it when its block is rolled back.
 */
module GameIndex {
  import opened Types
  import opened G = Games

  datatype Key =
    | StatusKey(status: int, index: int)
    | AddrKey(status: int, addr: Address, index: int)

  datatype Record = Record(id: GameId, index: int)

  /** One write to the local database; None deletes the key. */
  datatype Write = Write(key: Key, value: Option<Record>)

  type Index = map<Key, Record>

  /** `ReceiptGame`. */
  datatype Receipt = Receipt(
    id: GameId, status: int, addr: Address, creator: Address, matcher: Address, index: int, prevIndex: int)

  /** `GetReceiptLog` for the game after an action of `sender`. */
  function ReceiptOf(id: GameId, g: Game, sender: Address): Receipt {
    Receipt(id, g.status, if g.status == CLOSED then g.creator else sender, g.creator, g.matcher, g.index, g.prevIndex)
  }

  function AddAddr(status: int, id: GameId, addr: Address, index: int): Write {
    Write(AddrKey(status, addr, index), Some(Record(id, index)))
  }

  function AddStatus(status: int, id: GameId, index: int): Write {
    Write(StatusKey(status, index), Some(Record(id, index)))
  }

  function DelAddr(status: int, addr: Address, index: int): Write { Write(AddrKey(status, addr, index), None) }

  function DelStatus(status: int, index: int): Write { Write(StatusKey(status, index), None) }

  /** `updateIndex`. */
  function UpdateIndex(r: Receipt): seq<Write> {
    [AddAddr(r.status, r.id, r.addr, r.index), AddStatus(r.status, r.id, r.index)]
    + (if r.status == MATCHED then
         [AddAddr(r.status, r.id, r.creator, r.index),
          DelAddr(CREATED, r.creator, r.prevIndex), DelStatus(CREATED, r.prevIndex)]
       else [])
    + (if r.status == CANCELLED then
         [DelAddr(CREATED, r.creator, r.prevIndex), DelStatus(CREATED, r.prevIndex)]
       else [])
    + (if r.status == CLOSED then
         [AddAddr(r.status, r.id, r.matcher, r.index), DelAddr(MATCHED, r.matcher, r.prevIndex),
          DelAddr(MATCHED, r.creator, r.prevIndex), DelStatus(MATCHED, r.prevIndex)]
       else [])
  }

  /** `rollbackIndex`. */
  function RollbackIndex(r: Receipt): seq<Write> {
    [DelAddr(r.status, r.addr, r.index), DelStatus(r.status, r.index)]
    + (if r.status == MATCHED then
         [DelAddr(r.status, r.creator, r.index),
          AddAddr(CREATED, r.id, r.creator, r.prevIndex), AddStatus(CREATED, r.id, r.prevIndex)]
       else [])
    + (if r.status == CANCELLED then
         [AddAddr(CREATED, r.id, r.creator, r.prevIndex), AddStatus(CREATED, r.id, r.prevIndex)]
       else [])
    + (if r.status == CLOSED then
         [DelAddr(r.status, r.matcher, r.index), AddAddr(MATCHED, r.id, r.matcher, r.prevIndex),
          AddAddr(MATCHED, r.id, r.creator, r.prevIndex), AddStatus(MATCHED, r.id, r.prevIndex)]
       else [])
  }

  function Put(db: Index, w: Write): Index {
    if w.value.Some? then db[w.key := w.value.value] else db - {w.key}
  }

  /** The local database after a list of writes, in order. */
  function Apply(db: Index, ws: seq<Write>): Index {
    if |ws| == 0 then db else Put(Apply(db, ws[..|ws| - 1]), ws[|ws| - 1])
  }

  // ---------------------------------------------------------- games and index

  /** The keys under which a game is to be found: its status, and its status with each participant. */
  ghost predicate Listed(g: Game, key: Key) {
    key.status == g.status && key.index == g.index
    && (key.AddrKey? ==>
          key.addr == g.creator || ((g.status == MATCHED || g.status == CLOSED) && key.addr == g.matcher))
  }

  /** What a scan of all games finds under a key. */
  ghost predicate Scanned(games: Table, key: Key, rec: Record) {
    rec.id in games && Listed(games[rec.id], key) && rec.index == games[rec.id].index
  }

  ghost predicate IndexAgrees(games: Table, db: Index) {
    && (forall key :: key in db ==> Scanned(games, key, db[key]))
    && (forall key, rec :: Scanned(games, key, rec) ==> key in db && db[key] == rec)
  }

  /** Statuses are known, and every game was last touched by a transaction of its own before `now`. */
  ghost predicate Ordered(games: Table, now: int) {
    && (forall id :: id in games ==> CREATED <= games[id].status <= CLOSED && games[id].index < now)
    && (forall id, k :: id in games && k in games && games[id].index == games[k].index ==> id == k)
  }

  /** A transaction index, from the height of its block and its place in it. */
  const MAX_TXS_PER_BLOCK := 100_000

  function TxIndex(height: nat, place: nat): nat { height * MAX_TXS_PER_BLOCK + place }

  /** Later transactions have larger indexes. */
  lemma TxIndexGrows(h: nat, p: nat, h': nat, p': nat)
    requires p < MAX_TXS_PER_BLOCK && p' < MAX_TXS_PER_BLOCK && (h < h' || (h == h' && p < p'))
    ensures TxIndex(h, p) < TxIndex(h', p')
  {
  }

  // -------------------------------------------------------------------- writes

  lemma ApplyOne(db: Index, ws: seq<Write>, w: Write)
    ensures Apply(db, ws + [w]) == Put(Apply(db, ws), w)
  {
    assert (ws + [w])[..|ws|] == ws;
  }

  lemma {:induction false} ApplyTwo(db: Index, a: seq<Write>, b: seq<Write>)
    ensures Apply(db, a + b) == Apply(Apply(db, a), b)
  {
    if |b| == 0 {
      assert a + b == a;
    } else {
      ApplyTwo(db, a, b[..|b| - 1]);
      assert a + b == (a + b[..|b| - 1]) + [b[|b| - 1]];
      ApplyOne(db, a + b[..|b| - 1], b[|b| - 1]);
    }
  }

  lemma ApplyTwoWrites(db: Index, a: Write, b: Write)
    ensures Apply(db, [a, b]) == Put(Put(db, a), b)
  {
    ApplyOne(db, [a], b);
    ApplyOne(db, [], a);
  }

  lemma ApplyThreeWrites(db: Index, a: Write, b: Write, c: Write)
    ensures Apply(db, [a, b, c]) == Put(Put(Put(db, a), b), c)
  {
    ApplyTwoWrites(db, a, b);
    ApplyOne(db, [a, b], c);
    assert [a, b] + [c] == [a, b, c];
  }

  lemma ApplyFourWrites(db: Index, a: Write, b: Write, c: Write, d: Write)
    ensures Apply(db, [a, b, c, d]) == Put(Put(Put(Put(db, a), b), c), d)
  {
    ApplyThreeWrites(db, a, b, c);
    ApplyOne(db, [a, b, c], d);
    assert [a, b, c] + [d] == [a, b, c, d];
  }

  /** The database after `updateIndex`, write by write. */
  ghost function Updated(db: Index, r: Receipt): Index {
    var db1 := Put(Put(db, AddAddr(r.status, r.id, r.addr, r.index)), AddStatus(r.status, r.id, r.index));
    if r.status == MATCHED then
      Put(Put(Put(db1, AddAddr(r.status, r.id, r.creator, r.index)),
              DelAddr(CREATED, r.creator, r.prevIndex)), DelStatus(CREATED, r.prevIndex))
    else if r.status == CANCELLED then
      Put(Put(db1, DelAddr(CREATED, r.creator, r.prevIndex)), DelStatus(CREATED, r.prevIndex))
    else if r.status == CLOSED then
      Put(Put(Put(Put(db1, AddAddr(r.status, r.id, r.matcher, r.index)), DelAddr(MATCHED, r.matcher, r.prevIndex)),
              DelAddr(MATCHED, r.creator, r.prevIndex)), DelStatus(MATCHED, r.prevIndex))
    else db1
  }

  /** The database after `rollbackIndex`, write by write. */
  ghost function RolledBack(db: Index, r: Receipt): Index {
    var db1 := Put(Put(db, DelAddr(r.status, r.addr, r.index)), DelStatus(r.status, r.index));
    if r.status == MATCHED then
      Put(Put(Put(db1, DelAddr(r.status, r.creator, r.index)),
              AddAddr(CREATED, r.id, r.creator, r.prevIndex)), AddStatus(CREATED, r.id, r.prevIndex))
    else if r.status == CANCELLED then
      Put(Put(db1, AddAddr(CREATED, r.id, r.creator, r.prevIndex)), AddStatus(CREATED, r.id, r.prevIndex))
    else if r.status == CLOSED then
      Put(Put(Put(Put(db1, DelAddr(r.status, r.matcher, r.index)), AddAddr(MATCHED, r.id, r.matcher, r.prevIndex)),
              AddAddr(MATCHED, r.id, r.creator, r.prevIndex)), AddStatus(MATCHED, r.id, r.prevIndex))
    else db1
  }

  lemma UpdateWrites(db: Index, r: Receipt)
    ensures Apply(db, UpdateIndex(r)) == Updated(db, r)
  {
    hide Put, Apply;
    var first := [AddAddr(r.status, r.id, r.addr, r.index), AddStatus(r.status, r.id, r.index)];
    ApplyTwoWrites(db, first[0], first[1]);
    var db1 := Apply(db, first);
    if r.status == MATCHED {
      var rest := [AddAddr(r.status, r.id, r.creator, r.index),
                   DelAddr(CREATED, r.creator, r.prevIndex), DelStatus(CREATED, r.prevIndex)];
      assert UpdateIndex(r) == first + rest;
      ApplyTwo(db, first, rest);
      ApplyThreeWrites(db1, rest[0], rest[1], rest[2]);
    } else if r.status == CANCELLED {
      var rest := [DelAddr(CREATED, r.creator, r.prevIndex), DelStatus(CREATED, r.prevIndex)];
      assert UpdateIndex(r) == first + rest;
      ApplyTwo(db, first, rest);
      ApplyTwoWrites(db1, rest[0], rest[1]);
    } else if r.status == CLOSED {
      var rest := [AddAddr(r.status, r.id, r.matcher, r.index), DelAddr(MATCHED, r.matcher, r.prevIndex),
                   DelAddr(MATCHED, r.creator, r.prevIndex), DelStatus(MATCHED, r.prevIndex)];
      assert UpdateIndex(r) == first + rest;
      ApplyTwo(db, first, rest);
      ApplyFourWrites(db1, rest[0], rest[1], rest[2], rest[3]);
    } else {
      assert UpdateIndex(r) == first;
    }
  }

  lemma RollbackWrites(db: Index, r: Receipt)
    ensures Apply(db, RollbackIndex(r)) == RolledBack(db, r)
  {
    hide Put, Apply;
    var first := [DelAddr(r.status, r.addr, r.index), DelStatus(r.status, r.index)];
    ApplyTwoWrites(db, first[0], first[1]);
    var db1 := Apply(db, first);
    if r.status == MATCHED {
      var rest := [DelAddr(r.status, r.creator, r.index),
                   AddAddr(CREATED, r.id, r.creator, r.prevIndex), AddStatus(CREATED, r.id, r.prevIndex)];
      assert RollbackIndex(r) == first + rest;
      ApplyTwo(db, first, rest);
      ApplyThreeWrites(db1, rest[0], rest[1], rest[2]);
    } else if r.status == CANCELLED {
      var rest := [AddAddr(CREATED, r.id, r.creator, r.prevIndex), AddStatus(CREATED, r.id, r.prevIndex)];
      assert RollbackIndex(r) == first + rest;
      ApplyTwo(db, first, rest);
      ApplyTwoWrites(db1, rest[0], rest[1]);
    } else if r.status == CLOSED {
      var rest := [DelAddr(r.status, r.matcher, r.index), AddAddr(MATCHED, r.id, r.matcher, r.prevIndex),
                   AddAddr(MATCHED, r.id, r.creator, r.prevIndex), AddStatus(MATCHED, r.id, r.prevIndex)];
      assert RollbackIndex(r) == first + rest;
      ApplyTwo(db, first, rest);
      ApplyFourWrites(db1, rest[0], rest[1], rest[2], rest[3]);
    } else {
      assert RollbackIndex(r) == first;
    }
  }

  // -------------------------------------------------------------- main results

  /** What is at a key after an update: the game's new entries, none of its old ones, the others as before. */
  lemma UpdatedAt(games: Table, db: Index, games': Table, id: GameId, sender: Address, now: int, key: Key)
    requires IndexAgrees(games, db) && Ordered(games, now) && Acts(games, games', id, sender, now)
    ensures var db' := Updated(db, ReceiptOf(id, games'[id], sender));
      && (Listed(games'[id], key) ==> key in db' && db'[key] == Record(id, now))
      && (!Listed(games'[id], key) && id in games && Listed(games[id], key) ==> key !in db')
      && (!Listed(games'[id], key) && !(id in games && Listed(games[id], key)) ==>
            (key in db' <==> key in db) && (key in db ==> db'[key] == db[key]))
  {
    hide IndexAgrees;
  }

  /** The indexes keep holding exactly what a scan of all games would give. */
  lemma IndexStaysExact(games: Table, db: Index, games': Table, id: GameId, sender: Address, now: int)
    requires IndexAgrees(games, db) && Ordered(games, now) && Acts(games, games', id, sender, now)
    ensures IndexAgrees(games', Apply(db, UpdateIndex(ReceiptOf(id, games'[id], sender))))
    ensures Ordered(games', now + 1)
  {
    var r := ReceiptOf(id, games'[id], sender);
    UpdateWrites(db, r);
    var db' := Updated(db, r);
    hide Updated, Acts;
    TableAfter(games, games', id, sender, now);
    forall key | key in db' ensures Scanned(games', key, db'[key]) {
      UpdatedAt(games, db, games', id, sender, now, key);
    }
    forall key, rec | Scanned(games', key, rec) ensures key in db' && db'[key] == rec {
      UpdatedAt(games, db, games', id, sender, now, key);
      if rec.id != id { assert Scanned(games, key, rec); }
    }
  }

  lemma TableAfter(games: Table, games': Table, id: GameId, sender: Address, now: int)
    requires Ordered(games, now) && Acts(games, games', id, sender, now)
    ensures Ordered(games', now + 1) && games'[id].index == now
    ensures id in games' && forall k :: k != id ==> (k in games' <==> k in games) && (k in games ==> games'[k] == games[k])
  {
  }

  /** Rolling a block back restores the index exactly, for every kind of action. */
  lemma RollbackRestores(games: Table, db: Index, games': Table, id: GameId, sender: Address, now: int)
    requires IndexAgrees(games, db) && Ordered(games, now) && Acts(games, games', id, sender, now)
    ensures var r := ReceiptOf(id, games'[id], sender);
      Apply(Apply(db, UpdateIndex(r)), RollbackIndex(r)) == db
  {
    var r := ReceiptOf(id, games'[id], sender);
    UpdateWrites(db, r);
    RollbackWrites(Updated(db, r), r);
    OldEntries(games, db, games', id, sender, now);
    NoNewEntries(games, db, now);
    hide IndexAgrees, Updated, RolledBack;
    assert id in games ==> games[id].index < now;
    if r.status == CREATED {
      RestoreCreated(db, r);
    } else if r.status == CLOSED {
      RestoreClosed(db, r);
    } else {
      RestoreOpen(db, r);
    }
  }

  lemma RestoreCreated(db: Index, r: Receipt)
    requires r.status == CREATED && forall key :: key in db ==> key.index < r.index
    ensures RolledBack(Updated(db, r), r) == db
  {
  }

  lemma RestoreOpen(db: Index, r: Receipt)
    requires r.status == MATCHED || r.status == CANCELLED
    requires r.prevIndex < r.index && forall key :: key in db ==> key.index < r.index
    requires Has(db, StatusKey(CREATED, r.prevIndex), Record(r.id, r.prevIndex))
    requires Has(db, AddrKey(CREATED, r.creator, r.prevIndex), Record(r.id, r.prevIndex))
    ensures RolledBack(Updated(db, r), r) == db
  {
    var db' := RolledBack(Updated(db, r), r);
    if r.status == MATCHED { assert db' == db; } else { assert db' == db; }
  }

  lemma RestoreClosed(db: Index, r: Receipt)
    requires r.status == CLOSED
    requires r.prevIndex < r.index && forall key :: key in db ==> key.index < r.index
    requires Has(db, StatusKey(MATCHED, r.prevIndex), Record(r.id, r.prevIndex))
    requires Has(db, AddrKey(MATCHED, r.creator, r.prevIndex), Record(r.id, r.prevIndex))
    requires Has(db, AddrKey(MATCHED, r.matcher, r.prevIndex), Record(r.id, r.prevIndex))
    ensures RolledBack(Updated(db, r), r) == db
  {
  }

  /** The entries of the game before the action, as its receipt names them. */
  lemma OldEntries(games: Table, db: Index, games': Table, id: GameId, sender: Address, now: int)
    requires IndexAgrees(games, db) && Acts(games, games', id, sender, now)
    ensures id in games ==>
      var g := games[id];
      var rec := Record(id, g.index);
      && Has(db, StatusKey(g.status, g.index), rec) && Has(db, AddrKey(g.status, g.creator, g.index), rec)
      && (g.status == MATCHED ==> Has(db, AddrKey(g.status, g.matcher, g.index), rec))
  {
    if id in games {
      var g := games[id];
      var rec := Record(id, g.index);
      assert Scanned(games, StatusKey(g.status, g.index), rec);
      assert Scanned(games, AddrKey(g.status, g.creator, g.index), rec);
      if g.status == MATCHED { assert Scanned(games, AddrKey(g.status, g.matcher, g.index), rec); }
    }
  }

  ghost predicate Has(db: Index, key: Key, rec: Record) { key in db && db[key] == rec }

  lemma NoNewEntries(games: Table, db: Index, now: int)
    requires IndexAgrees(games, db) && Ordered(games, now)
    ensures forall key :: key in db ==> key.index < now
  {
  }

  // ------------------------------------------------------------------ whole runs

  /** A successful action: the table after it, the game it touched, its sender and its transaction index. */
  datatype Action = Action(games: Table, id: GameId, sender: Address, now: int)

  /** The table after some actions, from an empty one. */
  ghost function TableOf(acts: seq<Action>): Table {
    if |acts| == 0 then map[] else acts[|acts| - 1].games
  }

  /** The first transaction index that is still free. */
  ghost function Clock(acts: seq<Action>): int {
    if |acts| == 0 then 0 else acts[|acts| - 1].now + 1
  }

  /** Actions one after the other, each in a later transaction. */
  ghost predicate Run(acts: seq<Action>) {
    |acts| > 0 ==>
      var before, a := acts[..|acts| - 1], acts[|acts| - 1];
      && Run(before)
      && Acts(TableOf(before), a.games, a.id, a.sender, a.now)
      && Clock(before) <= a.now
  }

  /** The local database after the index updates of a run. */
  ghost function IndexAfter(acts: seq<Action>): Index
    requires Run(acts)
  {
    if |acts| == 0 then map[]
    else
      var a := acts[|acts| - 1];
      Apply(IndexAfter(acts[..|acts| - 1]), UpdateIndex(ReceiptOf(a.id, a.games[a.id], a.sender)))
  }

  lemma OrderedLater(games: Table, now: int, later: int)
    requires Ordered(games, now) && now <= later
    ensures Ordered(games, later)
  {
  }

  /** After any run from an empty table, the indexes hold exactly what a scan of the games gives. */
  lemma {:induction false} IndexIsExact(acts: seq<Action>)
    requires Run(acts)
    ensures IndexAgrees(TableOf(acts), IndexAfter(acts)) && Ordered(TableOf(acts), Clock(acts))
  {
    hide IndexAgrees, Ordered, Acts, Apply, UpdateIndex;
    if |acts| == 0 {
      EmptyIsExact(0);
    } else {
      var before := acts[..|acts| - 1];
      var a := acts[|acts| - 1];
      IndexIsExact(before);
      OrderedLater(TableOf(before), Clock(before), a.now);
      IndexStaysExact(TableOf(before), IndexAfter(before), a.games, a.id, a.sender, a.now);
    }
  }

  lemma EmptyIsExact(first: int)
    ensures IndexAgrees(map[], map[]) && Ordered(map[], first)
  {
  }

  /** The local database after the actions behind the first `k` are undone, the last one first. */
  ghost function Undone(db: Index, acts: seq<Action>, k: nat): Index
    requires Run(acts)
    decreases |acts|
  {
    if |acts| <= k then db
    else
      var a := acts[|acts| - 1];
      Undone(Apply(db, RollbackIndex(ReceiptOf(a.id, a.games[a.id], a.sender))), acts[..|acts| - 1], k)
  }

  /** Rolling back any number of blocks gives the index of the run as if they had never been. */
  lemma {:induction false} RollbackOfSuffix(acts: seq<Action>, k: nat)
    requires Run(acts) && k <= |acts|
    ensures Run(acts[..k]) && Undone(IndexAfter(acts), acts, k) == IndexAfter(acts[..k])
  {
    hide IndexAgrees, Ordered, Acts, Apply, UpdateIndex, RollbackIndex;
    if k == |acts| {
      assert acts[..k] == acts;
    } else {
      var before := acts[..|acts| - 1];
      var a := acts[|acts| - 1];
      IndexIsExact(before);
      OrderedLater(TableOf(before), Clock(before), a.now);
      RollbackRestores(TableOf(before), IndexAfter(before), a.games, a.id, a.sender, a.now);
      RollbackOfSuffix(before, k);
      assert before[..k] == acts[..k];
    }
  }
}
