/**
 Voting power of sets of validator indices and the arithmetic of +2/3 quorums.
 */
module Power {
  import opened Types

  /** The power of the indices of `s` that are below `n`. */
  ghost function Upto(vals: Validators, s: set<int>, n: nat): nat
    requires n <= |vals|
  {
    if n == 0 then 0
    else Upto(vals, s, n - 1) + (if n - 1 in s then vals[n - 1].power else 0)
  }

  ghost function Of(vals: Validators, s: set<int>): nat {
    Upto(vals, s, |vals|)
  }

  /** `TotalVotingPower`. */
  function Total(vals: Validators): nat {
    if |vals| == 0 then 0 else Total(vals[..|vals| - 1]) + vals[|vals| - 1].power
  }

  /** More than two thirds of the total. */
  ghost predicate Quorum(vals: Validators, s: set<int>) {
    3 * Of(vals, s) > 2 * Total(vals)
  }

  lemma {:induction false} UptoPrefix(vals: Validators, s: set<int>, n: nat, m: nat)
    requires n <= m <= |vals|
    ensures Upto(vals[..m], s, n) == Upto(vals, s, n)
  {
    if n > 0 { UptoPrefix(vals, s, n - 1, m); }
  }

  lemma {:induction false} InsertUpto(vals: Validators, s: set<int>, i: int, n: nat)
    requires n <= |vals| && i !in s
    ensures Upto(vals, s + {i}, n) == Upto(vals, s, n) + (if 0 <= i < n then vals[i].power else 0)
  {
    if n > 0 { InsertUpto(vals, s, i, n - 1); }
  }

  lemma Insert(vals: Validators, s: set<int>, i: int)
    requires 0 <= i < |vals| && i !in s
    ensures Of(vals, s + {i}) == Of(vals, s) + vals[i].power
  {
    InsertUpto(vals, s, i, |vals|);
  }

  lemma {:induction false} MonoUpto(vals: Validators, a: set<int>, b: set<int>, n: nat)
    requires n <= |vals|
    requires forall i :: 0 <= i < n && i in a ==> i in b
    ensures Upto(vals, a, n) <= Upto(vals, b, n)
  {
    if n > 0 { MonoUpto(vals, a, b, n - 1); }
  }

  /** A set that covers another one's indices has at least its power. */
  lemma Mono(vals: Validators, a: set<int>, b: set<int>)
    requires forall i :: 0 <= i < |vals| && i in a ==> i in b
    ensures Of(vals, a) <= Of(vals, b)
  {
    MonoUpto(vals, a, b, |vals|);
  }

  lemma {:induction false} InclusionExclusionUpto(vals: Validators, a: set<int>, b: set<int>, n: nat)
    requires n <= |vals|
    ensures Upto(vals, a, n) + Upto(vals, b, n) == Upto(vals, a + b, n) + Upto(vals, a * b, n)
  {
    if n > 0 { InclusionExclusionUpto(vals, a, b, n - 1); }
  }

  lemma {:induction false} AllUpto(vals: Validators, s: set<int>, n: nat)
    requires n <= |vals|
    ensures Upto(vals, s, n) <= Total(vals[..n])
    ensures Upto(vals, s, n) == Total(vals[..n]) <==> forall i :: 0 <= i < n && vals[i].power > 0 ==> i in s
  {
    if n > 0 {
      AllUpto(vals, s, n - 1);
      assert vals[..n][..n - 1] == vals[..n - 1];
    }
  }

  lemma AtMostTotal(vals: Validators, s: set<int>)
    ensures Of(vals, s) <= Total(vals)
    ensures Of(vals, s) == Total(vals) <==> forall i :: 0 <= i < |vals| && vals[i].power > 0 ==> i in s
  {
    AllUpto(vals, s, |vals|);
    assert vals[..|vals|] == vals;
  }

  lemma {:induction false} PositiveUpto(vals: Validators, s: set<int>, n: nat) returns (i: int)
    requires n <= |vals| && Upto(vals, s, n) > 0
    ensures 0 <= i < n && i in s && vals[i].power > 0
  {
    if n - 1 in s && vals[n - 1].power > 0 {
      i := n - 1;
    } else {
      i := PositiveUpto(vals, s, n - 1);
    }
  }

  /** Two +2/3 quorums share more than a third of the power. */
  lemma QuorumsOverlap(vals: Validators, a: set<int>, b: set<int>)
    requires Quorum(vals, a) && Quorum(vals, b)
    ensures 3 * Of(vals, a * b) > Total(vals)
  {
    InclusionExclusionUpto(vals, a, b, |vals|);
    AtMostTotal(vals, a + b);
  }

  /** With the faulty indices below a third, two quorums share a correct one. */
  lemma QuorumsShareCorrect(vals: Validators, a: set<int>, b: set<int>, faulty: set<int>) returns (i: int)
    requires Quorum(vals, a) && Quorum(vals, b)
    requires 3 * Of(vals, faulty) < Total(vals)
    ensures 0 <= i < |vals| && i in a && i in b && i !in faulty
  {
    QuorumsOverlap(vals, a, b);
    var c := a * b;
    InclusionExclusionUpto(vals, c - faulty, c * faulty, |vals|);
    assert (c - faulty) + (c * faulty) == c && (c - faulty) * (c * faulty) == {};
    assert Of(vals, {}) == 0 by { EmptyUpto(vals, |vals|); }
    Mono(vals, c * faulty, faulty);
    i := PositiveUpto(vals, c - faulty, |vals|);
  }

  lemma {:induction false} EmptyUpto(vals: Validators, n: nat)
    requires n <= |vals|
    ensures Upto(vals, {}, n) == 0
  {
    if n > 0 { EmptyUpto(vals, n - 1); }
  }
}
