/**
 Changing the validators of a chain (`execution.go`, `updateValidators`): the set
 after an update, how much voting power an accepted update can move, and why a
 light client can follow it.
 */
module ValidatorChange {
  import opened Types
  import Power

  /** `ValNode`: a requested power. `key` is the address of its public key, None if the key does not parse. */
  datatype ValNode = ValNode(key: Option<Address>, power: int)

  datatype Verdict = Fine | TooMuch | BadUpdate

  // -------------------------------------------------------------- operations

  /** How many addresses lie below `a`: where `sort.Search` stops. */
  function Rank(vals: Validators, a: Address): (k: nat)
    ensures k <= |vals|
  {
    if |vals| == 0 then 0
    else if vals[|vals| - 1].address < a then |vals|
    else Rank(vals[..|vals| - 1], a)
  }

  /** `Add` of an address that is not in the set. */
  function Inserted(vals: Validators, v: Validator): Validators {
    var k := Rank(vals, v.address); vals[..k] + [v] + vals[k..]
  }

  /** `Remove` of the validator at `k`. */
  function Removed(vals: Validators, k: nat): (r: Validators)
    requires k < |vals|
    ensures |r| == |vals| - 1
    ensures forall j :: 0 <= j < k ==> r[j] == vals[j]
    ensures forall j :: k <= j < |r| ==> r[j] == vals[j + 1]
  {
    vals[..k] + vals[k + 1..]
  }

  /** One round of the loop in `updateValidators`. */
  function Apply(vals: Validators, a: Address, power: nat): Validators {
    var k := IndexOf(vals, a);
    if k < 0 then Inserted(vals, Validator(a, power))
    else if power == 0 then Removed(vals, k)
    else vals[k := Validator(a, power)]
  }

  predicate Parses(u: ValNode) { u.key.Some? && u.power >= 0 }

  predicate AllParse(updates: seq<ValNode>) {
    forall i :: 0 <= i < |updates| ==> Parses(updates[i])
  }

  function ApplyAll(vals: Validators, updates: seq<ValNode>): Validators
    requires AllParse(updates)
  {
    if |updates| == 0 then vals
    else
      var u := updates[|updates| - 1];
      Apply(ApplyAll(vals, updates[..|updates| - 1]), u.key.value, u.power)
  }

  /** The power of an address, 0 if it is not a validator. */
  function PowerAt(vals: Validators, a: Address): nat {
    var k := IndexOf(vals, a); if k < 0 then 0 else vals[k].power
  }

  function Abs(x: int): nat { if x < 0 then -x else x }

  /** `changeInVotingPowerMoreOrEqualToOneThird` from the `i`-th update on, with `acc` gathered so far. */
  function CheckFrom(vals: Validators, updates: seq<ValNode>, i: nat, acc: nat): Verdict
    requires i <= |updates|
    decreases |updates| - i
  {
    if i == |updates| then Fine
    else if !Parses(updates[i]) then BadUpdate
    else
      var acc' := acc + Abs(PowerAt(vals, updates[i].key.value) - updates[i].power);
      if acc' >= Power.Total(vals) / 3 then TooMuch
      else CheckFrom(vals, updates, i + 1, acc')
  }

  function Check(vals: Validators, updates: seq<ValNode>): Verdict {
    CheckFrom(vals, updates, 0, 0)
  }

  // ------------------------------------------------- powers as a finite function

  /** The power of the addresses of `s` below `m`. */
  ghost function Below(vals: Validators, s: set<Address>, m: nat): nat {
    if m == 0 then 0 else Below(vals, s, m - 1) + (if m - 1 in s then PowerAt(vals, m - 1) else 0)
  }

  /** The power of all addresses below `m`. */
  ghost function AllBelow(vals: Validators, m: nat): nat {
    if m == 0 then 0 else AllBelow(vals, m - 1) + PowerAt(vals, m - 1)
  }

  /** The power moved between two sets, address by address, below `m`. */
  ghost function Moved(x: Validators, y: Validators, m: nat): nat {
    if m == 0 then 0 else Moved(x, y, m - 1) + Abs(PowerAt(x, m - 1) - PowerAt(y, m - 1))
  }

  /** What the updates ask for, each measured against the set before all of them. */
  ghost function Asked(vals: Validators, updates: seq<ValNode>): nat
    requires AllParse(updates)
  {
    if |updates| == 0 then 0
    else
      var u := updates[|updates| - 1];
      Asked(vals, updates[..|updates| - 1]) + Abs(PowerAt(vals, u.key.value) - u.power)
  }

  /** All addresses of a set lie below `m`. */
  ghost predicate Under(vals: Validators, m: nat) {
    forall i :: 0 <= i < |vals| ==> vals[i].address < m
  }

  // ------------------------------------------------------------------- proof

  lemma {:induction false} RankSplits(vals: Validators, a: Address)
    requires Sorted(vals)
    ensures forall i :: 0 <= i < Rank(vals, a) ==> vals[i].address < a
    ensures forall i :: Rank(vals, a) <= i < |vals| ==> vals[i].address >= a
  {
    if |vals| > 0 && vals[|vals| - 1].address >= a { RankSplits(vals[..|vals| - 1], a); }
  }

  lemma IndexIsPlace(vals: Validators, i: int)
    requires Sorted(vals) && 0 <= i < |vals|
    ensures IndexOf(vals, vals[i].address) == i
  {
  }

  /** An update keeps the addresses strictly sorted and sets exactly the power it names. */
  lemma ApplySets(vals: Validators, a: Address, power: nat)
    requires Sorted(vals)
    ensures Sorted(Apply(vals, a, power))
    ensures forall b :: PowerAt(Apply(vals, a, power), b) == (if b == a then power else PowerAt(vals, b))
  {
    hide IndexOf, Sorted, PowerAt, Inserted, Removed;
    var r := Apply(vals, a, power);
    var k := IndexOf(vals, a);
    ApplySorts(vals, a, power);
    forall b: Address ensures PowerAt(r, b) == (if b == a then power else PowerAt(vals, b)) {
      if k < 0 { PowerAfterInsert(vals, a, power, b); }
      else if power == 0 { PowerAfterRemove(vals, k, b); }
      else { PowerAfterReplace(vals, a, power, b); }
    }
  }

  lemma ApplySorts(vals: Validators, a: Address, power: nat)
    requires Sorted(vals)
    ensures Sorted(Apply(vals, a, power))
  {
    hide IndexOf, Rank, Removed;
    RankSplits(vals, a);
  }

  /** An address that occurs at `i` has the power found there; one that does not occur has none. */
  lemma PowerIsThere(vals: Validators, i: int)
    requires Sorted(vals) && 0 <= i < |vals|
    ensures PowerAt(vals, vals[i].address) == vals[i].power
  {
    IndexIsPlace(vals, i);
  }

  lemma PowerAfterInsert(vals: Validators, a: Address, power: nat, b: Address)
    requires Sorted(vals) && IndexOf(vals, a) < 0 && Sorted(Inserted(vals, Validator(a, power)))
    ensures PowerAt(Inserted(vals, Validator(a, power)), b) == (if b == a then power else PowerAt(vals, b))
  {
    var r := Inserted(vals, Validator(a, power));
    var n := Rank(vals, a);
    hide Rank;
    var i := IndexOf(vals, b);
    if b == a {
      PowerIsThere(r, n);
    } else if i >= 0 {
      var j := if i < n then i else i + 1;
      assert r[j] == vals[i];
      PowerIsThere(r, j);
    } else {
      assert forall j :: 0 <= j < |r| ==> r[j].address != b;
    }
  }

  lemma PowerAfterRemove(vals: Validators, k: nat, b: Address)
    requires Sorted(vals) && k < |vals| && Sorted(Removed(vals, k))
    ensures PowerAt(Removed(vals, k), b) == (if b == vals[k].address then 0 else PowerAt(vals, b))
  {
    hide Removed, IndexOf;
    var r := Removed(vals, k);
    var i := IndexOf(vals, b);
    if b == vals[k].address {
      assert forall j :: 0 <= j < |r| ==> r[j].address != b;
    } else if i >= 0 {
      PowerIsThere(r, if i < k then i else i - 1);
    }
  }

  lemma PowerAfterReplace(vals: Validators, a: Address, power: nat, b: Address)
    requires Sorted(vals) && IndexOf(vals, a) >= 0
    requires Sorted(vals[IndexOf(vals, a) := Validator(a, power)])
    ensures PowerAt(vals[IndexOf(vals, a) := Validator(a, power)], b) == (if b == a then power else PowerAt(vals, b))
  {
    var k := IndexOf(vals, a);
    var r := vals[k := Validator(a, power)];
    var i := IndexOf(vals, b);
    if b == a { PowerIsThere(r, k); }
    else if i >= 0 { assert r[i] == vals[i]; PowerIsThere(r, i); }
    else { assert forall j :: 0 <= j < |r| ==> r[j].address != b; }
  }

  /** The power the last update for an address asks for, or the power it had. */
  ghost function Requested(vals: Validators, updates: seq<ValNode>, a: Address): int {
    if |updates| == 0 then PowerAt(vals, a)
    else if updates[|updates| - 1].key == Some(a) then updates[|updates| - 1].power
    else Requested(vals, updates[..|updates| - 1], a)
  }

  /** After all updates every address has the power last requested for it. */
  lemma {:induction false} ApplyAllSets(vals: Validators, updates: seq<ValNode>, a: Address)
    requires Sorted(vals) && AllParse(updates)
    ensures Sorted(ApplyAll(vals, updates))
    ensures PowerAt(ApplyAll(vals, updates), a) == Requested(vals, updates, a)
  {
    if |updates| > 0 {
      var u := updates[|updates| - 1];
      ApplyAllSets(vals, updates[..|updates| - 1], a);
      ApplySets(ApplyAll(vals, updates[..|updates| - 1]), u.key.value, u.power);
    }
  }

  lemma {:induction false} MovedOne(x: Validators, y: Validators, z: Validators, a: Address, m: nat)
    requires forall b :: b != a ==> PowerAt(z, b) == PowerAt(y, b)
    ensures Moved(x, z, m) <= Moved(x, y, m) + Abs(PowerAt(x, a) - PowerAt(z, a))
    ensures m <= a ==> Moved(x, z, m) == Moved(x, y, m)
  {
    if m > 0 { MovedOne(x, y, z, a, m - 1); }
  }

  lemma {:induction false} MovedNothing(x: Validators, m: nat)
    ensures Moved(x, x, m) == 0
  {
    if m > 0 { MovedNothing(x, m - 1); }
  }

  /** All updates together: still sorted, and no more power moved than they asked for. */
  lemma {:induction false} ApplyAllMoves(vals: Validators, updates: seq<ValNode>, m: nat)
    requires Sorted(vals) && AllParse(updates)
    ensures Sorted(ApplyAll(vals, updates))
    ensures Moved(vals, ApplyAll(vals, updates), m) <= Asked(vals, updates)
  {
    if |updates| == 0 {
      MovedNothing(vals, m);
    } else {
      var u := updates[|updates| - 1];
      var before := ApplyAll(vals, updates[..|updates| - 1]);
      ApplyAllMoves(vals, updates[..|updates| - 1], m);
      ApplySets(before, u.key.value, u.power);
      MovedOne(vals, before, Apply(before, u.key.value, u.power), u.key.value, m);
    }
  }

  /** The check passes exactly when every update parses and no prefix asks for a third or more. */
  lemma {:induction false} CheckMeaning(vals: Validators, updates: seq<ValNode>, i: nat, acc: nat)
    requires i <= |updates|
    requires AllParse(updates[..i])
    requires acc == Asked(vals, updates[..i])
    requires i == 0 || acc < Power.Total(vals) / 3
    ensures CheckFrom(vals, updates, i, acc).Fine? <==>
              && AllParse(updates)
              && (i < |updates| ==> Asked(vals, updates) < Power.Total(vals) / 3)
    decreases |updates| - i
  {
    if i == |updates| {
      assert updates[..i] == updates;
    } else if Parses(updates[i]) {
      assert updates[..i + 1] == updates[..i] + [updates[i]];
      assert updates[..i + 1][..i] == updates[..i];
      var acc' := acc + Abs(PowerAt(vals, updates[i].key.value) - updates[i].power);
      assert acc' == Asked(vals, updates[..i + 1]);
      if acc' < Power.Total(vals) / 3 {
        CheckMeaning(vals, updates, i + 1, acc');
        if i + 1 == |updates| { assert updates[..i + 1] == updates; }
      } else if AllParse(updates) {
        AskedGrows(vals, updates, i + 1);
      }
    } else {
      assert !AllParse(updates);
    }
  }

  lemma {:induction false} AskedGrows(vals: Validators, updates: seq<ValNode>, i: nat)
    requires i <= |updates| && AllParse(updates)
    ensures Asked(vals, updates[..i]) <= Asked(vals, updates)
    decreases |updates| - i
  {
    if i == |updates| {
      assert updates[..i] == updates;
    } else {
      assert updates[..i + 1][..i] == updates[..i];
      AskedGrows(vals, updates, i + 1);
    }
  }

  /** An address below all others adds nothing; the total is the power of all addresses. */
  lemma {:induction false} TotalIsBelow(vals: Validators, m: nat)
    requires Sorted(vals) && Under(vals, m)
    ensures AllBelow(vals, m) == Power.Total(vals)
  {
    if |vals| == 0 {
      NothingBelow(vals, m);
    } else {
      var w := vals[..|vals| - 1];
      var last := vals[|vals| - 1];
      TotalIsBelow(w, m);
      LastBelow(vals, m);
    }
  }

  lemma {:induction false} NothingBelow(vals: Validators, m: nat)
    requires |vals| == 0
    ensures AllBelow(vals, m) == 0
  {
    if m > 0 { NothingBelow(vals, m - 1); }
  }

  lemma {:induction false} LastBelow(vals: Validators, m: nat)
    requires Sorted(vals) && |vals| > 0
    ensures var last := vals[|vals| - 1];
      AllBelow(vals, m) ==
      AllBelow(vals[..|vals| - 1], m) + (if last.address < m then last.power else 0)
  {
    if m > 0 { LastBelow(vals, m - 1); }
  }

  // ------------------------------------------------------------ main results

  /** `updateValidators` as one step: the set after it, and whether it reported an error. */
  function Update(vals: Validators, updates: seq<ValNode>): (Validators, bool) {
    if Check(vals, updates).Fine? then
      (assert AllParse(updates) by { CheckMeaning(vals, updates, 0, 0); }
       ApplyAll(vals, updates), true)
    else (vals, false)
  }

  /**
   Atomic: an error leaves the set as it was. On success every update is applied,
   the addresses are still strictly sorted, and less than a third of the old power moved.
   */
  lemma UpdateIsBounded(vals: Validators, updates: seq<ValNode>, m: nat)
    requires Sorted(vals)
    ensures var (r, ok) := Update(vals, updates);
      && Sorted(r)
      && (!ok ==> r == vals)
      && (ok <==> && AllParse(updates)
                  && (|updates| > 0 ==> Asked(vals, updates) < Power.Total(vals) / 3))
      && (ok ==> forall a :: PowerAt(r, a) == Requested(vals, updates, a))
      && (ok ==> Moved(vals, r, m) <= Asked(vals, updates))
      && (ok && |updates| > 0 ==> 3 * Moved(vals, r, m) < Power.Total(vals))
  {
    CheckMeaning(vals, updates, 0, 0);
    hide PowerAt, Requested, Moved, Asked, Sorted;
    if Check(vals, updates).Fine? {
      ApplyAllMoves(vals, updates, m);
      forall a ensures PowerAt(ApplyAll(vals, updates), a) == Requested(vals, updates, a) {
        ApplyAllSets(vals, updates, a);
      }
    }
  }

  /** Address by address: powers that moved little cannot make two disjoint sets both +2/3. */
  lemma {:induction false} DisjointShares(x: Validators, y: Validators, p: set<Address>, q: set<Address>, m: nat)
    requires p !! q
    ensures 3 * Below(x, p, m) + 3 * Below(y, q, m) + AllBelow(x, m)
         <= 2 * AllBelow(x, m) + 2 * AllBelow(y, m) + 3 * Moved(x, y, m)
  {
    if m > 0 { DisjointShares(x, y, p, q, m - 1); }
  }

  /**
   Light-client safety: after an accepted update every +2/3 quorum of the old set
   shares a validator address with every +2/3 quorum of the new set.
   */
  lemma QuorumsMeetAcrossUpdate(x: Validators, updates: seq<ValNode>, p: set<Address>, q: set<Address>, m: nat)
    requires Sorted(x) && Under(x, m) && Update(x, updates).1 && Under(Update(x, updates).0, m)
    requires 3 * Below(x, p, m) > 2 * Power.Total(x)
    requires 3 * Below(Update(x, updates).0, q, m) > 2 * Power.Total(Update(x, updates).0)
    ensures exists a :: a in p && a in q
  {
    var y := Update(x, updates).0;
    UpdateIsBounded(x, updates, m);
    TotalIsBelow(x, m);
    TotalIsBelow(y, m);
    if p !! q {
      DisjointShares(x, y, p, q, m);
      if |updates| == 0 { MovedNothing(x, m); BelowAll(x, p, m); }
    }
  }

  lemma {:induction false} BelowAll(x: Validators, p: set<Address>, m: nat)
    ensures Below(x, p, m) <= AllBelow(x, m)
  {
    if m > 0 { BelowAll(x, p, m - 1); }
  }
}
