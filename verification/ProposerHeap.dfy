/**
 The heap `IncrementAccum` keeps its validators in (`types/util.go` over the standard
 library's `container/heap`): a slice of items, each knowing its own position.

 An item stands for a validator by its number in the set; priorities are read from the
 set, as the items hold pointers to the validators.
 */
module ProposerHeap {
  import R = Rotation

  /** Items are different validators of the set. */
  ghost predicate Items(pq: seq<int>, ms: R.Members) {
    && (forall k :: 0 <= k < |pq| ==> 0 <= pq[k] < |ms|)
    && (forall j, k :: 0 <= j < k < |pq| ==> pq[j] != pq[k])
  }

  /** `Less`: the validator at `j` comes before the one at `k`. */
  predicate Less(pq: seq<int>, ms: R.Members, j: int, k: int)
    requires 0 <= j < |pq| && 0 <= k < |pq| && 0 <= pq[j] < |ms| && 0 <= pq[k] < |ms|
  {
    R.Beats(ms[pq[j]], ms[pq[k]])
  }

  function Parent(k: int): int { (k - 1) / 2 }

  /** No item comes before its parent. */
  ghost predicate Ordered(pq: seq<int>, ms: R.Members)
    requires Items(pq, ms)
  {
    forall k :: 0 < k < |pq| ==> !Less(pq, ms, k, Parent(k))
  }

  /** Ordered but for `j` against its parent. */
  ghost predicate OrderedAbove(pq: seq<int>, ms: R.Members, j: int)
    requires Items(pq, ms)
  {
    && (forall k :: 0 < k < |pq| && k != j ==> !Less(pq, ms, k, Parent(k)))
    && (forall k :: 0 < j && 0 < k < |pq| && Parent(k) == j ==> !Less(pq, ms, k, Parent(j)))
  }

  /** Ordered but for the children of `i` against it. */
  ghost predicate OrderedBelow(pq: seq<int>, ms: R.Members, i: int)
    requires Items(pq, ms)
  {
    && (forall k :: 0 < k < |pq| && Parent(k) != i ==> !Less(pq, ms, k, Parent(k)))
    && (forall k :: 0 < i && 0 < k < |pq| && Parent(k) == i ==> !Less(pq, ms, k, Parent(i)))
  }

  ghost function Swapped(pq: seq<int>, i: int, j: int): seq<int>
    requires 0 <= i < |pq| && 0 <= j < |pq|
  {
    pq[i := pq[j]][j := pq[i]]
  }

  // -------------------------------------------------------------------- order

  /** Different validators are comparable, one way only. */
  lemma Comparable(pq: seq<int>, ms: R.Members, j: int, k: int)
    requires Items(pq, ms) && R.InOrder(ms) && 0 <= j < |pq| && 0 <= k < |pq| && j != k
    ensures Less(pq, ms, j, k) <==> !Less(pq, ms, k, j)
  {
    var a, b := pq[j], pq[k];
    assert a != b;
    assert ms[a].address != ms[b].address;
  }

  lemma SwappedItems(pq: seq<int>, ms: R.Members, i: int, j: int)
    requires Items(pq, ms) && 0 <= i < |pq| && 0 <= j < |pq|
    ensures Items(Swapped(pq, i, j), ms)
    ensures forall v :: v in Swapped(pq, i, j) <==> v in pq
  {
    var pq' := Swapped(pq, i, j);
    assert pq'[i] == pq[j] && pq'[j] == pq[i];
    forall v | v in pq ensures v in pq' {
      var k :| 0 <= k < |pq| && pq[k] == v;
      assert pq'[if k == i then j else if k == j then i else k] == v;
    }
  }

  /** One round of `up`. */
  lemma UpStep(pq: seq<int>, ms: R.Members, j: int)
    requires Items(pq, ms) && R.InOrder(ms) && 0 < j < |pq| && OrderedAbove(pq, ms, j) && Less(pq, ms, j, Parent(j))
    ensures var pq' := Swapped(pq, Parent(j), j); Items(pq', ms) && OrderedAbove(pq', ms, Parent(j))
  {
    hide R.InOrder;
    var i := Parent(j);
    var pq' := Swapped(pq, i, j);
    SwappedItems(pq, ms, i, j);
    forall k | 0 < k < |pq| && k != i ensures !Less(pq', ms, k, Parent(k)) {
      Comparable(pq, ms, j, i);
      if k != j && Parent(k) == i { Comparable(pq, ms, k, j); }
    }
    forall k | 0 < i && 0 < k < |pq| && Parent(k) == i ensures !Less(pq', ms, k, Parent(i)) {
      Comparable(pq, ms, i, Parent(i));
    }
  }

  /** One round of `down`: `j` is the first of the children of `i`. */
  lemma DownStep(pq: seq<int>, ms: R.Members, i: int, j: int)
    requires Items(pq, ms) && R.InOrder(ms) && 0 <= i && 0 < j < |pq| && Parent(j) == i
    requires OrderedBelow(pq, ms, i) && Less(pq, ms, j, i)
    requires forall k :: 0 < k < |pq| && Parent(k) == i ==> !Less(pq, ms, k, j)
    ensures var pq' := Swapped(pq, i, j); Items(pq', ms) && OrderedBelow(pq', ms, j)
  {
    hide R.InOrder;
    var pq' := Swapped(pq, i, j);
    SwappedItems(pq, ms, i, j);
    Comparable(pq, ms, j, i);
    forall k | 0 < k < |pq| && Parent(k) != j ensures !Less(pq', ms, k, Parent(k)) {
    }
    forall k | 0 < k < |pq| && Parent(k) == j ensures !Less(pq', ms, k, Parent(j)) {
    }
  }

  /** The root of an ordered heap comes before every other item. */
  lemma {:induction false} RootIsFirst(pq: seq<int>, ms: R.Members, k: int)
    requires Items(pq, ms) && R.InOrder(ms) && Ordered(pq, ms) && 0 < k < |pq|
    ensures Less(pq, ms, 0, k)
  {
    Comparable(pq, ms, k, Parent(k));
    if Parent(k) > 0 { RootIsFirst(pq, ms, Parent(k)); }
  }

  /** A heap of all the validators has their leader at the root. */
  lemma RootIsLeader(pq: seq<int>, ms: R.Members)
    requires Items(pq, ms) && R.InOrder(ms) && Ordered(pq, ms) && |pq| > 0 && |ms| > 0
    requires forall v :: 0 <= v < |ms| ==> v in pq
    ensures pq[0] == R.Leader(ms)
  {
    R.LeaderIsTop(ms);
    forall v | 0 <= v < |ms| && v != pq[0] ensures R.Beats(ms[pq[0]], ms[v]) {
      assert v in pq;
      var k :| 0 <= k < |pq| && pq[k] == v;
      RootIsFirst(pq, ms, k);
    }
    assert R.IsTop(ms, pq[0]);
  }

  /** A validator outside the heap can change without harm. */
  lemma OutsideChanged(pq: seq<int>, ms: R.Members, ms': R.Members, v: int)
    requires Items(pq, ms) && Ordered(pq, ms) && |ms'| == |ms| && v !in pq
    requires forall i :: 0 <= i < |ms| && i != v ==> ms'[i] == ms[i]
    ensures Items(pq, ms') && Ordered(pq, ms')
  {
    assert forall k :: 0 <= k < |pq| ==> pq[k] in pq;
  }

  /** When the root changes, only its children can be out of order. */
  lemma RootChanged(pq: seq<int>, ms: R.Members, ms': R.Members)
    requires Items(pq, ms) && Ordered(pq, ms) && |ms'| == |ms| && |pq| > 0
    requires forall v :: 0 <= v < |ms| && v != pq[0] ==> ms'[v] == ms[v]
    ensures OrderedBelow(pq, ms', 0)
  {
  }

  class Heap {
    var pq: seq<int>
    /** The `index` field of each item. */
    var index: map<int, int>

    ghost predicate Valid(ms: R.Members)
      reads this
    {
      && Items(pq, ms)
      && forall k :: 0 <= k < |pq| ==> pq[k] in index && index[pq[k]] == k
    }

    constructor ()
      ensures pq == []
    {
      pq, index := [], map[];
    }

    method Swap(ghost ms: R.Members, i: int, j: int)
      requires Valid(ms) && 0 <= i < |pq| && 0 <= j < |pq|
      modifies this
      ensures Valid(ms) && pq == Swapped(old(pq), i, j)
      ensures forall v :: v in pq <==> v in old(pq)
    {
      pq := pq[i := pq[j]][j := pq[i]];
      index := index[pq[i] := i];
      index := index[pq[j] := j];
      SwappedItems(old(pq), ms, i, j);
      assert old(pq)[i] == pq[j] && old(pq)[j] == pq[i];
    }

    method Up(ms: R.Members, start: int)
      requires Valid(ms) && R.InOrder(ms) && 0 <= start < |pq| && OrderedAbove(pq, ms, start)
      modifies this
      ensures Valid(ms) && Ordered(pq, ms) && |pq| == |old(pq)|
      ensures forall v :: v in pq <==> v in old(pq)
    {
      var j := start;
      // Go truncates (0 - 1) / 2 to 0
      var i := if j == 0 then 0 else Parent(j);
      while i != j && Less(pq, ms, j, i)
        invariant 0 <= j < |pq| == |old(pq)| && i == (if j == 0 then 0 else Parent(j))
        invariant Valid(ms) && OrderedAbove(pq, ms, j)
        invariant forall v :: v in pq <==> v in old(pq)
        decreases j
      {
        UpStep(pq, ms, j);
        Swap(ms, i, j);
        j := i;
        i := if j == 0 then 0 else Parent(j);
      }
    }

    method Down(ms: R.Members, start: int) returns (moved: bool)
      requires Valid(ms) && R.InOrder(ms) && 0 <= start < |pq| && OrderedBelow(pq, ms, start)
      modifies this
      ensures Valid(ms) && Ordered(pq, ms) && |pq| == |old(pq)|
      ensures forall v :: v in pq <==> v in old(pq)
      ensures !moved ==> pq == old(pq)
    {
      hide R.InOrder, R.Beats;
      var i := start;
      while true
        invariant start <= i < |pq| == |old(pq)|
        invariant Valid(ms) && OrderedBelow(pq, ms, i)
        invariant forall v :: v in pq <==> v in old(pq)
        invariant i == start ==> pq == old(pq)
        decreases |pq| - i
      {
        var left := 2 * i + 1;
        if left >= |pq| {
          assert Ordered(pq, ms);
          break;
        }
        var j := left;
        if left + 1 < |pq| && Less(pq, ms, left + 1, left) { j := left + 1; }
        FirstChild(pq, ms, i, j);
        if !Less(pq, ms, j, i) {
          Settled(pq, ms, i, j);
          break;
        }
        DownStep(pq, ms, i, j);
        Swap(ms, i, j);
        i := j;
      }
      moved := i > start;
    }

    /** `heap.Push`. */
    method Push(ms: R.Members, value: int)
      requires Valid(ms) && R.InOrder(ms) && Ordered(pq, ms) && 0 <= value < |ms| && value !in pq
      modifies this
      ensures Valid(ms) && Ordered(pq, ms) && |pq| == |old(pq)| + 1
      ensures forall v :: v in pq <==> v in old(pq) || v == value
    {
      index := index[value := |pq|];
      pq := pq + [value];
      Up(ms, |pq| - 1);
    }

    /** `Update` on the root after its priority changed: `heap.Fix` at its index. */
    method Update(ms: R.Members)
      requires Valid(ms) && R.InOrder(ms) && |pq| > 0 && OrderedBelow(pq, ms, 0)
      modifies this
      ensures Valid(ms) && Ordered(pq, ms) && |pq| == |old(pq)|
      ensures forall v :: v in pq <==> v in old(pq)
    {
      var k := index[pq[0]];
      var moved := Down(ms, k);
      if !moved { Up(ms, k); }
    }
  }

  /** When no child comes before `i`, the heap is in order. */
  lemma Settled(pq: seq<int>, ms: R.Members, i: int, j: int)
    requires Items(pq, ms) && R.InOrder(ms) && OrderedBelow(pq, ms, i) && 0 <= i && 0 < j < |pq| && Parent(j) == i
    requires !Less(pq, ms, j, i) && forall k :: 0 < k < |pq| && Parent(k) == i ==> !Less(pq, ms, k, j)
    ensures Ordered(pq, ms)
  {
    hide R.InOrder;
    forall k | 0 < k < |pq| && Parent(k) == i ensures !Less(pq, ms, k, i) {
      Comparable(pq, ms, j, i);
      if k != j { Comparable(pq, ms, k, j); }
    }
  }

  /** The child `down` compares with is the first of the children. */
  lemma FirstChild(pq: seq<int>, ms: R.Members, i: int, j: int)
    requires Items(pq, ms) && R.InOrder(ms) && 0 <= i && 2 * i + 1 < |pq|
    requires j == if 2 * i + 2 < |pq| && Less(pq, ms, 2 * i + 2, 2 * i + 1) then 2 * i + 2 else 2 * i + 1
    ensures Parent(j) == i && forall k :: 0 < k < |pq| && Parent(k) == i ==> !Less(pq, ms, k, j)
  {
    if 2 * i + 2 < |pq| { Comparable(pq, ms, 2 * i + 2, 2 * i + 1); }
    assert forall k :: 0 < k && Parent(k) == i ==> k == 2 * i + 1 || k == 2 * i + 2;
  }
}
