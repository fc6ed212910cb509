/**
 Proposer rotation (`ValidatorSet.IncrementAccum`) on values: who leads, what a call
 does to the accumulators, and the fairness that follows.
 */
module Rotation {
  import opened Types

  /** A validator with its accumulator. */
  datatype Member = Member(address: Address, power: nat, accum: int)

  type Members = seq<Member>

  /** Addresses strictly increase. */
  ghost predicate InOrder(ms: Members) {
    forall i, j :: 0 <= i < j < |ms| ==> ms[i].address < ms[j].address
  }

  // --------------------------------------------------------------- operations

  /** `CompareAccum` prefers `a`: the higher accum, then the lower address. */
  predicate Beats(a: Member, b: Member) {
    a.accum > b.accum || (a.accum == b.accum && a.address < b.address)
  }

  function Total(ms: Members): nat {
    if |ms| == 0 then 0 else Total(ms[..|ms| - 1]) + ms[|ms| - 1].power
  }

  /** `findProposer`: a scan that keeps the better of the two. */
  function Leader(ms: Members): (i: int)
    requires |ms| > 0
    ensures 0 <= i < |ms|
  {
    if |ms| == 1 then 0
    else
      var i := Leader(ms[..|ms| - 1]);
      if Beats(ms[i], ms[|ms| - 1]) then i else |ms| - 1
  }

  /** Every validator gains its power, `times` over. */
  function Raised(ms: Members, times: int): (r: Members)
    ensures |r| == |ms|
  {
    seq(|ms|, i requires 0 <= i < |ms| => ms[i].(accum := ms[i].accum + ms[i].power * times))
  }

  /** One validator pays the total. */
  function Paid(ms: Members, i: int): (r: Members)
    requires 0 <= i < |ms|
    ensures |r| == |ms|
  {
    ms[i := ms[i].(accum := ms[i].accum - Total(ms))]
  }

  /** The leader pays the total, `k` times over. */
  function Lowered(ms: Members, k: nat): (r: Members)
    requires |ms| > 0
    ensures |r| == |ms|
  {
    if k == 0 then ms
    else
      var r := Lowered(ms, k - 1);
      Paid(r, Leader(r))
  }

  /** `IncrementAccum`. */
  function Incremented(ms: Members, times: nat): (r: Members)
    requires |ms| > 0
    ensures |r| == |ms|
  {
    Lowered(Raised(ms, times), times)
  }

  /** The proposer a call of `IncrementAccum` leaves: the last one to pay. */
  function Proposer(ms: Members, times: nat): (i: int)
    requires |ms| > 0 && times > 0
    ensures 0 <= i < |ms|
  {
    Leader(Lowered(Raised(ms, times), times - 1))
  }

  // ------------------------------------------------------------------- leader

  /** `i` is ahead of every other validator: more accum, or as much and the lower address. */
  ghost predicate IsTop(ms: Members, i: int) {
    && 0 <= i < |ms|
    && forall j :: 0 <= j < |ms| && j != i ==>
         ms[i].accum > ms[j].accum || (ms[i].accum == ms[j].accum && ms[i].address < ms[j].address)
  }

  /** The scan finds the validator with the most accum, the lowest address among equals; there is only one. */
  lemma {:induction false} LeaderIsTop(ms: Members)
    requires |ms| > 0 && InOrder(ms)
    ensures IsTop(ms, Leader(ms))
    ensures forall i :: IsTop(ms, i) ==> i == Leader(ms)
  {
    if |ms| > 1 {
      var w := ms[..|ms| - 1];
      LeaderIsTop(w);
      assert forall j :: 0 <= j < |w| && j != Leader(w) ==> Beats(w[Leader(w)], w[j]);
    }
  }

  // ------------------------------------------------------------- conservation

  ghost function Sum(ms: Members): int {
    if |ms| == 0 then 0 else Sum(ms[..|ms| - 1]) + ms[|ms| - 1].accum
  }

  /** Same validators, possibly other accums. */
  ghost predicate SameSet(a: Members, b: Members) {
    |a| == |b| && forall i :: 0 <= i < |a| ==> a[i].address == b[i].address && a[i].power == b[i].power
  }

  lemma {:induction false} SameTotal(a: Members, b: Members)
    requires SameSet(a, b)
    ensures Total(a) == Total(b)
  {
    if |a| > 0 { SameTotal(a[..|a| - 1], b[..|b| - 1]); }
  }

  lemma {:induction false} RaisedSum(ms: Members, times: int)
    ensures Sum(Raised(ms, times)) == Sum(ms) + Times(Total(ms), times)
  {
    if |ms| > 0 {
      RaisedSum(ms[..|ms| - 1], times);
      assert Raised(ms, times)[..|ms| - 1] == Raised(ms[..|ms| - 1], times);
    }
  }

  lemma {:induction false} UpdatedSum(ms: Members, i: int, accum: int)
    requires 0 <= i < |ms|
    ensures Sum(ms[i := ms[i].(accum := accum)]) == Sum(ms) - ms[i].accum + accum
  {
    var r := ms[i := ms[i].(accum := accum)];
    if i == |ms| - 1 {
      assert r[..|r| - 1] == ms[..|ms| - 1];
    } else {
      UpdatedSum(ms[..|ms| - 1], i, accum);
      assert r[..|r| - 1] == ms[..|ms| - 1][i := ms[i].(accum := accum)];
    }
  }

  /** A product whose factors a proof does not look at. */
  ghost function Times(a: int, b: int): int { a * b }

  lemma OneLess(a: int, b: int)
    ensures Times(a, b) == Times(a, b - 1) + a == Times(a - 1, b) + b
  {
  }

  /** A payment takes the total off the sum and changes nothing else about the set. */
  lemma PaidKeeps(ms: Members, i: int)
    requires 0 <= i < |ms|
    ensures SameSet(Paid(ms, i), ms) && Total(Paid(ms, i)) == Total(ms) && Sum(Paid(ms, i)) == Sum(ms) - Total(ms)
  {
    hide Total, Sum;
    SameTotal(Paid(ms, i), ms);
    UpdatedSum(ms, i, ms[i].accum - Total(ms));
  }

  lemma SameSetTrans(a: Members, b: Members, c: Members)
    requires SameSet(a, b) && SameSet(b, c)
    ensures SameSet(a, c)
  {
  }

  lemma {:induction false} LoweredKeeps(ms: Members, k: nat)
    requires |ms| > 0
    ensures SameSet(Lowered(ms, k), ms) && Total(Lowered(ms, k)) == Total(ms)
    ensures Sum(Lowered(ms, k)) == Sum(ms) - Times(Total(ms), k)
  {
    if k > 0 {
      hide Total, Leader, Times, Sum, Paid, SameSet;
      LoweredKeeps(ms, k - 1);
      var r := Lowered(ms, k - 1);
      PaidKeeps(r, Leader(r));
      SameSetTrans(Lowered(ms, k), r, ms);
      OneLess(Total(ms), k);
    }
  }

  /** `IncrementAccum(times)` conserves the sum of the accums and changes nothing else about the set. */
  lemma Conserves(ms: Members, times: nat)
    requires |ms| > 0
    ensures Sum(Incremented(ms, times)) == Sum(ms) && SameSet(Incremented(ms, times), ms)
  {
    RaisedSum(ms, times);
    SameTotal(Raised(ms, times), ms);
    LoweredKeeps(Raised(ms, times), times);
  }

  // ------------------------------------------------------------------- bounds

  /** Every accum is above `-debt`. */
  ghost predicate Above(ms: Members, debt: nat) {
    forall i :: 0 <= i < |ms| ==> ms[i].accum + debt > 0
  }

  /** Some accum is positive when the sum is. */
  lemma {:induction false} PositiveLeader(ms: Members)
    requires |ms| > 0 && InOrder(ms) && Sum(ms) > 0
    ensures ms[Leader(ms)].accum > 0
  {
    LeaderIsTop(ms);
    if ms[Leader(ms)].accum <= 0 {
      forall i | 0 <= i < |ms| ensures ms[i].accum <= 0 {
        assert i != Leader(ms) ==> Beats(ms[Leader(ms)], ms[i]);
      }
      NonPositiveSum(ms);
    }
  }

  lemma {:induction false} NonPositiveSum(ms: Members)
    requires forall i :: 0 <= i < |ms| ==> ms[i].accum <= 0
    ensures Sum(ms) <= 0
  {
    if |ms| > 0 { NonPositiveSum(ms[..|ms| - 1]); }
  }

  lemma SameOrder(a: Members, b: Members)
    requires SameSet(a, b) && InOrder(a)
    ensures InOrder(b)
  {
  }

  lemma ShortOfAll(total: nat, k: nat, times: nat)
    requires k < times && total > 0
    ensures Times(total, times) - Times(total, k) > 0
  {
    assert total * times - total * k == total * (times - k);
  }

  lemma PaidAbove(ms: Members, i: int)
    requires 0 <= i < |ms| && ms[i].accum > 0 && Above(ms, Total(ms))
    ensures Above(Paid(ms, i), Total(ms))
  {
    hide Total;
  }

  lemma {:induction false} LoweredAbove(ms: Members, k: nat, times: nat)
    requires |ms| > 0 && InOrder(ms) && k <= times && Total(ms) > 0
    requires Sum(ms) == Times(Total(ms), times) && Above(ms, Total(ms))
    ensures Above(Lowered(ms, k), Total(ms))
  {
    if k > 0 {
      hide Total, Times, Sum, Paid, Above, Leader;
      LoweredAbove(ms, k - 1, times);
      var r := Lowered(ms, k - 1);
      LoweredKeeps(ms, k - 1);
      SameOrder(ms, r);
      ShortOfAll(Total(ms), k - 1, times);
      PositiveLeader(r);
      PaidAbove(r, Leader(r));
    }
  }

  lemma RaisedAbove(ms: Members, times: nat, debt: nat)
    requires Above(ms, debt)
    ensures Above(Raised(ms, times), debt)
  {
  }

  /** One call keeps every accum above -T, and each payer paid from a positive accum. */
  lemma IncrementedAbove(ms: Members, times: nat)
    requires |ms| > 0 && InOrder(ms) && Total(ms) > 0 && Sum(ms) == 0 && Above(ms, Total(ms))
    ensures Above(Incremented(ms, times), Total(ms))
  {
    RaisedSum(ms, times);
    SameTotal(Raised(ms, times), ms);
    SameOrder(ms, Raised(ms, times));
    RaisedAbove(ms, times, Total(ms));
    LoweredAbove(Raised(ms, times), times, times);
  }

  lemma {:induction false} AboveSum(ms: Members, debt: nat)
    requires Above(ms, debt)
    ensures Sum(ms) >= Times(|ms|, 1 - debt)
  {
    if |ms| > 0 {
      AboveSum(ms[..|ms| - 1], debt);
      assert |ms| * (1 - debt) == (|ms| - 1) * (1 - debt) + (1 - debt);
    }
  }

  /** With sum zero and all accums above -T, none reaches (n-1)T; a single validator sits at zero. */
  lemma BelowFromAbove(ms: Members, i: int)
    requires 0 <= i < |ms| && Sum(ms) == 0 && Above(ms, Total(ms))
    ensures ms[i].accum <= (|ms| - 1) * Total(ms)
    ensures |ms| >= 2 ==> ms[i].accum < (|ms| - 1) * Total(ms)
  {
    hide Total, Times;
    var t: int := Total(ms);
    UpdatedSum(ms, i, 1 - t);
    AboveSum(ms[i := ms[i].(accum := 1 - t)], t);
    Spread(|ms|, t, ms[i].accum);
  }

  lemma Spread(n: int, t: int, a: int)
    requires n >= 1 && 1 - t - a >= Times(n, 1 - t)
    ensures a <= (n - 1) * t && (n >= 2 ==> a < (n - 1) * t)
  {
    var m := n - 1;
    assert n * (1 - t) == m * (1 - t) + (1 - t);
    assert m * (1 - t) == m - m * t;
  }

  /** All accums at zero, as in a fresh set. */
  ghost predicate Fresh(ms: Members) {
    forall i :: 0 <= i < |ms| ==> ms[i].accum == 0
  }

  lemma {:induction false} FreshSum(ms: Members)
    requires Fresh(ms)
    ensures Sum(ms) == 0
  {
    if |ms| > 0 { FreshSum(ms[..|ms| - 1]); }
  }

  /** A sequence of calls, each with its own count. */
  function After(ms: Members, calls: seq<nat>): (r: Members)
    requires |ms| > 0
    ensures |r| == |ms|
  {
    if |calls| == 0 then ms else Incremented(After(ms, calls[..|calls| - 1]), calls[|calls| - 1])
  }

  lemma {:induction false} AfterKeeps(ms: Members, calls: seq<nat>)
    requires |ms| > 0 && InOrder(ms) && Fresh(ms) && Total(ms) > 0
    ensures var r := After(ms, calls);
      && SameSet(r, ms) && Total(r) == Total(ms) && Sum(r) == 0 && Above(r, Total(ms))
  {
    FreshSum(ms);
    if |calls| > 0 {
      var r := After(ms, calls[..|calls| - 1]);
      AfterKeeps(ms, calls[..|calls| - 1]);
      SameOrder(ms, r);
      Conserves(r, calls[|calls| - 1]);
      SameTotal(Incremented(r, calls[|calls| - 1]), ms);
      IncrementedAbove(r, calls[|calls| - 1]);
    }
  }

  ghost predicate Within(ms: Members, total: nat) {
    forall i :: 0 <= i < |ms| ==> 0 - total < ms[i].accum < (|ms| - 1) * total
  }

  lemma AfterIsWithin(ms: Members, calls: seq<nat>)
    requires |ms| >= 2 && InOrder(ms) && Fresh(ms) && Total(ms) > 0
    ensures Within(After(ms, calls), Total(ms))
  {
    hide Total, After, InOrder, Fresh, SameSet;
    AfterKeeps(ms, calls);
    var r := After(ms, calls);
    forall i | 0 <= i < |r| ensures r[i].accum < (|r| - 1) * Total(ms) {
      BelowFromAbove(r, i);
    }
  }

  /** The bound holds through any sequence of calls. */
  ghost predicate AlwaysWithin(ms: Members)
    requires |ms| > 0
  {
    forall calls: seq<nat> :: Within(After(ms, calls), Total(ms))
  }

  lemma NotAlwaysWithin(ms: Members)
    requires |ms| > 0 && Fresh(ms) && AlwaysWithin(ms)
    ensures Total(ms) > 0 && |ms| >= 2
  {
    hide Total;
    var none: seq<nat> := [];
    assert Within(After(ms, none), Total(ms));
    assert ms[0].accum == 0;
  }

  /**
   The bound: from a fresh set every accum stays strictly between -T and (n-1)T through any
   sequence of calls, exactly when the set has power and more than one validator.
   */
  lemma AccumBounds(ms: Members)
    requires |ms| > 0 && InOrder(ms) && Fresh(ms)
    ensures AlwaysWithin(ms) <==> Total(ms) > 0 && |ms| >= 2
  {
    hide Total, After, InOrder, Fresh, Within;
    if AlwaysWithin(ms) {
      NotAlwaysWithin(ms);
    } else if Total(ms) > 0 && |ms| >= 2 {
      forall calls: seq<nat> ensures Within(After(ms, calls), Total(ms)) { AfterIsWithin(ms, calls); }
    }
  }

  lemma {:induction false} LoweredBelow(ms: Members, k: nat, i: int)
    requires 0 <= i < |ms|
    ensures Lowered(ms, k)[i].accum <= ms[i].accum
  {
    if k > 0 { LoweredBelow(ms, k - 1, i); }
  }

  /** No accum leaves these bounds inside a call either, after `k` of its payments. */
  lemma BoundsInside(ms: Members, calls: seq<nat>, times: nat, k: nat, i: int)
    requires InOrder(ms) && Fresh(ms) && Total(ms) > 0 && k <= times && 0 <= i < |ms|
    ensures var r := Lowered(Raised(After(ms, calls), times), k);
      0 - Total(ms) < r[i].accum <= (|ms| - 1) * Total(ms) + ms[i].power * times
  {
    hide Total, InOrder, Fresh, After, Sum, Times;
    var before := After(ms, calls);
    AfterKeeps(ms, calls);
    SameOrder(ms, before);
    RaisedSum(before, times);
    SameTotal(Raised(before, times), before);
    SameOrder(before, Raised(before, times));
    RaisedAbove(before, times, Total(ms));
    LoweredAbove(Raised(before, times), k, times);
    LoweredBelow(Raised(before, times), k, i);
    BelowFromAbove(before, i);
  }

  /** A lone validator is at zero after every call. */
  lemma LoneValidator(ms: Members, calls: seq<nat>)
    requires |ms| == 1 && Fresh(ms)
    ensures After(ms, calls)[0].accum == 0
  {
    AfterSum(ms, calls);
    FreshSum(ms);
    LoneSum(After(ms, calls));
  }

  lemma {:induction false} AfterSum(ms: Members, calls: seq<nat>)
    requires |ms| > 0
    ensures Sum(After(ms, calls)) == Sum(ms)
  {
    if |calls| > 0 {
      AfterSum(ms, calls[..|calls| - 1]);
      Conserves(After(ms, calls[..|calls| - 1]), calls[|calls| - 1]);
    }
  }

  // ----------------------------------------------------------------- fairness

  /** `n` calls of `IncrementAccum(1)`. */
  function Turns(ms: Members, n: nat): (r: Members)
    requires |ms| > 0
    ensures |r| == |ms|
  {
    if n == 0 then ms else Incremented(Turns(ms, n - 1), 1)
  }

  /** How many of the first `n` turns validator `i` proposed. */
  function Count(ms: Members, n: nat, i: int): nat
    requires |ms| > 0
  {
    if n == 0 then 0
    else Count(ms, n - 1, i) + (if Proposer(Turns(ms, n - 1), 1) == i then 1 else 0)
  }

  lemma {:induction false} TurnsKeep(ms: Members, n: nat)
    requires |ms| > 0 && InOrder(ms) && Fresh(ms) && Total(ms) > 0
    ensures var r := Turns(ms, n);
      && SameSet(r, ms) && Total(r) == Total(ms) && Sum(r) == 0 && Above(r, Total(ms))
  {
    FreshSum(ms);
    if n > 0 {
      var r := Turns(ms, n - 1);
      TurnsKeep(ms, n - 1);
      SameOrder(ms, r);
      Conserves(r, 1);
      SameTotal(Incremented(r, 1), ms);
      IncrementedAbove(r, 1);
    }
  }

  /** One turn: everybody gains its power and the proposer pays the total. */
  lemma OneTurn(ms: Members, i: int)
    requires 0 <= i < |ms|
    ensures Incremented(ms, 1)[i].accum ==
            ms[i].accum + ms[i].power - (if Proposer(ms, 1) == i then Total(ms) else 0)
  {
    hide Total, Leader;
    var r := Raised(ms, 1);
    SameTotal(r, ms);
    assert Lowered(r, 1) == Paid(Lowered(r, 0), Leader(Lowered(r, 0)));
  }

  lemma NoneOf(a: int)
    ensures Times(0, a) == 0
  {
  }

  lemma {:induction false} LedgerTurns(ms: Members, n: nat, i: int)
    requires |ms| > 0 && InOrder(ms) && Fresh(ms) && Total(ms) > 0 && 0 <= i < |ms|
    ensures Turns(ms, n)[i].accum == Times(n, ms[i].power) - Times(Count(ms, n, i), Total(ms))
  {
    hide Total, InOrder, Incremented, Proposer, Above, Sum, Times;
    if n == 0 {
      NoneOf(ms[i].power);
      NoneOf(Total(ms));
    } else {
      LedgerTurns(ms, n - 1, i);
      TurnsKeep(ms, n - 1);
      OneTurn(Turns(ms, n - 1), i);
      OneLess(n, ms[i].power);
      OneLess(Count(ms, n - 1, i) + 1, Total(ms));
    }
  }

  /** The accum of a validator is what it was owed less what it paid. */
  lemma Ledger(ms: Members, n: nat, i: int)
    requires |ms| > 0 && InOrder(ms) && Fresh(ms) && Total(ms) > 0 && 0 <= i < |ms|
    ensures Turns(ms, n)[i].accum == n * ms[i].power - Count(ms, n, i) * Total(ms)
  {
    LedgerTurns(ms, n, i);
  }

  /**
   After N turns validator `i` has proposed less than N*p/T + 1 times and more than
   N*p/T - (n-1) times, both times T. The first holds exactly for a set with power, the
   second exactly when it also has more than one validator: a lone one proposes N times,
   which is the lower bound itself.
   */
  lemma Fairness(ms: Members, n: nat, i: int)
    requires InOrder(ms) && Fresh(ms) && 0 <= i < |ms|
    ensures Count(ms, n, i) * Total(ms) < n * ms[i].power + Total(ms) <==> Total(ms) > 0
    ensures n * ms[i].power - (|ms| - 1) * Total(ms) < Count(ms, n, i) * Total(ms) <==> Total(ms) > 0 && |ms| >= 2
  {
    hide InOrder, Fresh, Turns, Count;
    if Total(ms) == 0 {
      PowerInTotal(ms, i);
    } else {
      Ledger(ms, n, i);
      TurnsKeep(ms, n);
      BelowFromAbove(Turns(ms, n), i);
      if |ms| == 1 { LoneSum(Turns(ms, n)); }
    }
  }

  lemma {:induction false} PowerInTotal(ms: Members, i: int)
    requires 0 <= i < |ms|
    ensures ms[i].power <= Total(ms)
  {
    if i < |ms| - 1 { PowerInTotal(ms[..|ms| - 1], i); }
  }

  lemma LoneSum(ms: Members)
    requires |ms| == 1
    ensures Sum(ms) == ms[0].accum
  {
    assert ms[..0] == [];
  }

  /** The counts of the first `k` validators. */
  ghost function CountSum(ms: Members, n: nat, k: nat): nat
    requires |ms| > 0 && k <= |ms|
  {
    if k == 0 then 0 else CountSum(ms, n, k - 1) + Count(ms, n, k - 1)
  }

  lemma {:induction false} OneMore(ms: Members, n: nat, k: nat)
    requires |ms| > 0 && k <= |ms| && n > 0
    ensures CountSum(ms, n, k) == CountSum(ms, n - 1, k) + (if Proposer(Turns(ms, n - 1), 1) < k then 1 else 0)
  {
    if k > 0 { OneMore(ms, n, k - 1); }
  }

  lemma {:induction false} EveryTurnCounts(ms: Members, n: nat)
    requires |ms| > 0
    ensures CountSum(ms, n, |ms|) == n
  {
    if n > 0 {
      EveryTurnCounts(ms, n - 1);
      OneMore(ms, n, |ms|);
    } else {
      NoTurns(ms, |ms|);
    }
  }

  lemma {:induction false} NoTurns(ms: Members, k: nat)
    requires |ms| > 0 && k <= |ms|
    ensures CountSum(ms, 0, k) == 0
  {
    if k > 0 { NoTurns(ms, k - 1); }
  }

  lemma {:induction false} AtMostPower(ms: Members, n: nat, k: nat)
    requires |ms| > 0 && k <= |ms|
    requires forall i :: 0 <= i < k ==> Count(ms, n, i) <= ms[i].power
    ensures CountSum(ms, n, k) <= Total(ms[..k])
    ensures CountSum(ms, n, k) == Total(ms[..k]) ==> forall i :: 0 <= i < k ==> Count(ms, n, i) == ms[i].power
  {
    if k > 0 {
      AtMostPower(ms, n, k - 1);
      assert ms[..k][..k - 1] == ms[..k - 1];
    }
  }

  lemma CountIsAtMostPower(ms: Members, i: int)
    requires |ms| > 0 && InOrder(ms) && Fresh(ms) && Total(ms) > 0 && 0 <= i < |ms|
    ensures Count(ms, Total(ms), i) <= ms[i].power
  {
    hide Total, InOrder, Fresh, Turns, Count;
    var t := Total(ms);
    Ledger(ms, t, i);
    TurnsKeep(ms, t);
    NoMoreThan(Count(ms, t, i), ms[i].power, t);
  }

  lemma NoMoreThan(c: nat, p: nat, t: nat)
    requires t * p - c * t + t > 0
    ensures c <= p
  {
    var d := c - p;
    Distribute(p, d, t);
    assert d * t < t;
    AtLeast(d, t);
  }

  lemma Distribute(a: int, b: int, t: int)
    ensures (a + b) * t == a * t + b * t
  {
  }

  lemma AtLeast(d: int, t: nat)
    ensures d >= 1 ==> d * t >= t
  {
  }

  /** Exact fairness: in T turns validator `i` proposes exactly its power, and every accum is back at zero. */
  lemma ExactFairness(ms: Members)
    requires |ms| > 0 && InOrder(ms) && Fresh(ms)
    ensures forall i :: 0 <= i < |ms| ==> Count(ms, Total(ms), i) == ms[i].power
    ensures Turns(ms, Total(ms)) == ms
  {
    if Total(ms) == 0 {
      forall i | 0 <= i < |ms| ensures ms[i].power == 0 { PowerInTotal(ms, i); }
    } else {
      ExactTurns(ms);
    }
  }

  lemma ExactTurns(ms: Members)
    requires |ms| > 0 && InOrder(ms) && Fresh(ms) && Total(ms) > 0
    ensures forall i :: 0 <= i < |ms| ==> Count(ms, Total(ms), i) == ms[i].power
    ensures Turns(ms, Total(ms)) == ms
  {
    hide Total, InOrder, Turns, Count, CountSum, Above, Sum;
    var t := Total(ms);
    forall i | 0 <= i < |ms| ensures Count(ms, t, i) <= ms[i].power { CountIsAtMostPower(ms, i); }
    EveryTurnCounts(ms, t);
    assert ms[..|ms|] == ms;
    AtMostPower(ms, t, |ms|);
    TurnsKeep(ms, t);
    forall i | 0 <= i < |ms| ensures Turns(ms, t)[i] == ms[i] { Ledger(ms, t, i); }
  }


  /** The proposer of a call is who was ahead of all others before the last payment, and made it. */
  lemma ProposerPaysLast(ms: Members, times: nat)
    requires |ms| > 0 && InOrder(ms) && times > 0
    ensures var before := Lowered(Raised(ms, times), times - 1);
      var p := Proposer(ms, times);
      && IsTop(before, p)
      && Incremented(ms, times) == before[p := before[p].(accum := before[p].accum - Total(ms))]
  {
    hide Leader, Total, InOrder;
    var raised := Raised(ms, times);
    RaisedSame(ms, times);
    hide Raised, IsTop;
    LoweredKeeps(raised, times - 1);
    SameOrder(ms, raised);
    SameOrder(raised, Lowered(raised, times - 1));
    LeaderIsTop(Lowered(raised, times - 1));
  }


  lemma RaisedSame(ms: Members, times: int)
    ensures SameSet(Raised(ms, times), ms) && Total(Raised(ms, times)) == Total(ms)
  {
    SameTotal(Raised(ms, times), ms);
  }
}
