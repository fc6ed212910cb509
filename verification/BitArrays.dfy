/**
 Bit arrays (`types/util.go`): 64-bit words with the bits of the last one that lie beyond
 the size left alone. A word is the list of its 64 bits, lowest first.
 */
module BitArrays {
  type Word = w: seq<bool> | |w| == 64 witness seq(64, i => false)

  const ZERO: Word := seq(64, i => false)

  predicate IsZero(w: Word) { forall k :: 0 <= k < 64 ==> !w[k] }

  function WordNot(w: Word): Word { seq(64, k requires 0 <= k < 64 => !w[k]) }

  function WordAnd(a: Word, b: Word): Word { seq(64, k requires 0 <= k < 64 => a[k] && b[k]) }

  /** Bit `i` of a list of words. */
  predicate BitAt(elems: seq<Word>, i: int)
    requires 0 <= i < 64 * |elems|
  {
    elems[i / 64][i % 64]
  }

  /** The bits that are set, below the size. */
  ghost function BitsOf(elems: seq<Word>, bits: nat): set<int>
    requires bits <= 64 * |elems|
  {
    set i | 0 <= i < bits && BitAt(elems, i)
  }

  /** Place `k` of a walk round a ring. */
  function Ring(k: nat, start: nat, n: nat): (e: nat)
    requires n > 0
    ensures e < n
  {
    (k + start) % n
  }

  /** The step at which the walk meets a place. */
  lemma RingMeets(start: nat, n: nat, e: nat) returns (k: nat)
    requires start < n && e < n
    ensures k < n && Ring(k, start, n) == e
  {
    hide Ring;
    k := if e >= start then e - start else e - start + n;
    if e >= start { NotRound(k, start, n, e); } else { OnceRound(k, start, n, e); }
  }

  lemma NotRound(k: nat, start: nat, n: nat, e: nat)
    requires k + start == e < n
    ensures Ring(k, start, n) == e
  {
    Between(n, e / n);
  }

  lemma OnceRound(k: nat, start: nat, n: nat, e: nat)
    requires k + start == e + n && e < n
    ensures Ring(k, start, n) == e
  {
    var q, r := (e + n) / n, (e + n) % n;
    assert e + n == n * q + r;
    Between(n, q);
  }

  lemma Between(n: int, q: int)
    requires 0 < n
    ensures (q <= 0 ==> n * q <= 0) && (q >= 2 ==> n * q >= 2 * n)
  {
  }

  /** No bit below the size is set in word `e`. */
  ghost predicate NoneIn(elems: seq<Word>, bits: nat, e: int)
    requires 0 <= e < |elems|
  {
    forall j :: 0 <= j < 64 && 64 * e + j < bits ==> !elems[e][j]
  }

  /** How many bits of word `e` lie below the size. */
  function SizeOf(bits: nat, e: nat): nat
    requires bits > 0 && 64 * e < bits
  {
    if 64 * e + 64 <= bits then 64 else bits % 64
  }

  lemma SizeIsRight(bits: nat, e: nat)
    requires bits > 0 && 64 * e < bits <= 64 * e + 64
    ensures 0 < SizeOf(bits, e) <= 64 && 64 * e + SizeOf(bits, e) == bits
  {
    if bits < 64 * e + 64 { assert bits / 64 == e; }
  }

  /** The place of the first bit of the last word. */
  function LastWord(bits: nat): nat
    requires bits > 0
  {
    64 * ((bits + 63) / 64 - 1)
  }

  lemma Difference(c: set<int>, a: set<int>, b: set<int>, whole: bool, n: int)
    requires c == set k | k in a - b && (whole || k >= n)
    ensures c == a - b <==> whole || forall k :: k in a && k < n ==> k in b
  {
    if c == a - b && !whole {
      forall k | k in a && k < n ensures k in b {
        assert k in a - b ==> k in c;
      }
    }
  }

  class BitArray {
    const bits: nat
    var elems: seq<Word>

    ghost predicate Valid()
      reads this
    {
      bits > 0 && |elems| == (bits + 63) / 64
    }

    ghost function Value(): (s: set<int>)
      requires Valid()
      reads this
    {
      BitsOf(elems, bits)
    }

    /** `NewBitArray`, for a size above zero. */
    constructor (bits: nat)
      requires bits > 0
      ensures Valid() && this.bits == bits && Value() == {}
    {
      this.bits := bits;
      elems := seq((bits + 63) / 64, i => ZERO);
    }

    predicate GetIndex(i: nat)
      requires Valid()
      reads this
      ensures GetIndex(i) <==> i in Value()
    {
      i < bits && elems[i / 64][i % 64]
    }

    method SetIndex(i: nat, v: bool) returns (ok: bool)
      requires Valid()
      modifies this
      ensures Valid() && ok == (i < bits)
      ensures Value() == if !ok then old(Value()) else if v then old(Value()) + {i} else old(Value()) - {i}
    {
      if i >= bits { return false; }
      ghost var before := elems;
      var w := elems[i / 64];
      elems := elems[i / 64 := w[i % 64 := v]];
      ok := true;
      forall k | 0 <= k < bits ensures BitAt(elems, k) == if k == i then v else BitAt(before, k) {
        if k != i && k / 64 == i / 64 { SameWord(k, i); }
      }
    }

    method Copy() returns (c: BitArray)
      requires Valid()
      ensures fresh(c) && c.Valid() && c.bits == bits && c.elems == elems
    {
      c := new BitArray(bits);
      c.elems := elems;
    }

    /** `Not` flips whole words, the bits beyond the size included. */
    method Not() returns (c: BitArray)
      requires Valid()
      ensures fresh(c) && c.Valid() && c.bits == bits
      ensures forall i :: 0 <= i < bits ==> (i in c.Value() <==> i !in Value())
    {
      c := Copy();
      var i := 0;
      while i < |c.elems|
        invariant 0 <= i <= |c.elems| == |elems| && c.Valid() && fresh(c)
        invariant forall k :: 0 <= k < |elems| ==> c.elems[k] == if k < i then WordNot(elems[k]) else elems[k]
        modifies c
      {
        c.elems := c.elems[i := WordNot(c.elems[i])];
        i := i + 1;
      }
    }

    /** `copyBits`, for a size not above the own. */
    method CopyBits(size: nat) returns (c: BitArray)
      requires Valid() && 0 < size <= bits
      ensures fresh(c) && c.Valid() && c.bits == size && c.elems == elems[..(size + 63) / 64]
    {
      c := new BitArray(size);
      c.elems := elems[..(size + 63) / 64];
    }

    /** `and`: an array of the smaller size. */
    method And(o: BitArray) returns (c: BitArray)
      requires Valid() && o.Valid()
      ensures fresh(c) && c.Valid() && c.bits == (if bits <= o.bits then bits else o.bits)
      ensures c.Value() == Value() * o.Value()
    {
      c := CopyBits(if bits <= o.bits then bits else o.bits);
      var i := 0;
      while i < |c.elems|
        invariant 0 <= i <= |c.elems| && c.Valid() && fresh(c)
        invariant forall k :: 0 <= k < |c.elems| ==> c.elems[k] == if k < i then WordAnd(elems[k], o.elems[k]) else elems[k]
        modifies c
      {
        c.elems := c.elems[i := WordAnd(c.elems[i], o.elems[i])];
        i := i + 1;
      }
    }

    /**
     `Sub`. From a larger array it clears all the words before the last one of `o`, so the
     result is the difference exactly when `o` has every bit that is set in those words.
     */
    method Sub(o: BitArray) returns (c: BitArray)
      requires Valid() && o.Valid()
      ensures fresh(c) && c.Valid() && c.bits == bits
      ensures c.Value() == set k | k in Value() - o.Value() && (bits <= o.bits || k >= LastWord(o.bits))
      ensures c.Value() == Value() - o.Value() <==>
                bits <= o.bits || forall k :: k in Value() && k < LastWord(o.bits) ==> k in o.Value()
    {
      if bits > o.bits {
        c := Copy();
        c.ClearWords(|o.elems| - 1);
        c.Clear(LastWord(o.bits), o);
      } else {
        var n := o.Not();
        c := And(n);
      }
      Difference(c.Value(), Value(), o.Value(), bits <= o.bits, LastWord(o.bits));
    }

    /** The first loop of `Sub`: a word and its own complement. */
    method ClearWords(n: nat)
      requires Valid() && n <= |elems|
      modifies this
      ensures Valid() && Value() == set k | k in old(Value()) && k >= 64 * n
    {
      var i := 0;
      while i < n
        invariant 0 <= i <= n && |elems| == old(|elems|)
        invariant forall k :: 0 <= k < |elems| ==> elems[k] == if k < i then ZERO else old(elems)[k]
      {
        elems := elems[i := WordAnd(elems[i], WordNot(elems[i]))];
        i := i + 1;
      }
      forall k | 0 <= k < bits ensures BitAt(elems, k) <==> k >= 64 * n && BitAt(old(elems), k) {
        assert k / 64 < n <==> k < 64 * n;
      }
    }

    /** The second loop of `Sub`: bit by bit, from `first` up to the size of `o`. */
    method Clear(first: nat, o: BitArray)
      requires Valid() && o.Valid() && first <= o.bits < bits && o != this
      modifies this
      ensures Valid()
      ensures Value() == set k | k in old(Value()) && (first <= k ==> k !in o.Value())
    {
      var idx := first;
      while idx < o.bits
        invariant first <= idx <= o.bits && Valid()
        invariant Value() == set k | k in old(Value()) && (first <= k < idx ==> k !in o.Value())
      {
        var _ := SetIndex(idx, GetIndex(idx) && !o.GetIndex(idx));
        idx := idx + 1;
      }
    }

    /**
     `PickRandom`: a bit that is set, and a failure only when none is. `word` and `bit` are
     the random numbers it draws, modulo the range they are drawn from.
     */
    method PickRandom(word: nat, bit: nat -> nat) returns (index: int, ok: bool)
      requires Valid()
      ensures ok == (Value() != {})
      ensures ok ==> index in Value()
    {
      hide Ring, NoneIn;
      var length := |elems|;
      var start := word % length;
      var i := 0;
      while i < length
        invariant 0 <= i <= length
        invariant forall k :: 0 <= k < i ==> NoneIn(elems, bits, Ring(k, start, length))
      {
        var e := Ring(i, start, length);
        var k, found := PickFromWord(e, bit(i));
        if found { return 64 * e + k, true; }
        i := i + 1;
      }
      NothingSet(elems, bits, start);
      return 0, false;
    }

    /** One round of `PickRandom`: a set bit of word `e`; of the last word only the bits below the size count. */
    method PickFromWord(e: nat, draw: nat) returns (k: nat, found: bool)
      requires Valid() && e < |elems|
      ensures found ==> 64 * e + k in Value()
      ensures !found ==> NoneIn(elems, bits, e)
    {
      if e < |elems| - 1 {
        if IsZero(elems[e]) { return 0, false; }
        k, found := PickInWord(elems[e], 64, draw % 64);
        if !found { assert false; }
      } else {
        var size := if bits % 64 == 0 then 64 else bits % 64;
        SizeIsRight(bits, e);
        k, found := PickInWord(elems[e], size, draw % size);
      }
      if found { InWord(elems, bits, e, k); }
    }
  }

  /** A walk over all words that finds nothing has seen every bit. */
  lemma NothingSet(elems: seq<Word>, bits: nat, start: nat)
    requires bits > 0 && |elems| == (bits + 63) / 64 && start < |elems|
    requires forall k :: 0 <= k < |elems| ==> NoneIn(elems, bits, Ring(k, start, |elems|))
    ensures BitsOf(elems, bits) == {}
  {
    hide Ring;
    forall k | 0 <= k < bits ensures !BitAt(elems, k) {
      var step := RingMeets(start, |elems|, k / 64);
      assert NoneIn(elems, bits, Ring(step, start, |elems|));
    }
  }

  /** The inner loop of `PickRandom` over the first `size` bits of a word. */
  method PickInWord(w: Word, size: nat, start: nat) returns (k: nat, found: bool)
    requires 0 < size <= 64 && start < size
    ensures found ==> k < size && w[k]
    ensures !found ==> forall j :: 0 <= j < size ==> !w[j]
  {
    var j := 0;
    while j < size
      invariant 0 <= j <= size
      invariant forall i :: 0 <= i < j ==> !w[Ring(i, start, size)]
    {
      if w[Ring(j, start, size)] { return Ring(j, start, size), true; }
      j := j + 1;
    }
    forall e | 0 <= e < size ensures !w[e] {
      var step := RingMeets(start, size, e);
      assert !w[Ring(step, start, size)];
    }
    return 0, false;
  }

  lemma InWord(elems: seq<Word>, bits: nat, e: nat, k: nat)
    requires e < |elems| && bits <= 64 * |elems| && k < 64 && 64 * e + k < bits && elems[e][k]
    ensures 64 * e + k in BitsOf(elems, bits)
  {
    assert (64 * e + k) / 64 == e && (64 * e + k) % 64 == k;
  }

  lemma SameWord(k: int, i: int)
    requires 0 <= k && 0 <= i && k / 64 == i / 64 && k != i
    ensures k % 64 != i % 64
  {
  }
}
