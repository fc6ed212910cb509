/**
 The validator set (`types/validator_set.go`): lookups by binary search, a cached
 total, changes to the set, the proposer rotation; and `updateValidators`.
 */
module ValidatorSets {
  import opened Types
  import R = Rotation
  import VC = ValidatorChange
  import Power
  import PH = ProposerHeap

  /** The validators without their accumulators. */
  function Powers(ms: R.Members): (vals: Validators)
    ensures |vals| == |ms|
    ensures forall i :: 0 <= i < |ms| ==> vals[i] == Validator(ms[i].address, ms[i].power)
  {
    seq(|ms|, i requires 0 <= i < |ms| => Validator(ms[i].address, ms[i].power))
  }

  lemma {:induction false} SamePowerTotal(ms: R.Members)
    ensures Power.Total(Powers(ms)) == R.Total(ms)
  {
    if |ms| > 0 {
      SamePowerTotal(ms[..|ms| - 1]);
      assert Powers(ms)[..|ms| - 1] == Powers(ms[..|ms| - 1]);
    }
  }

  /** The place of an address in address order. */
  ghost predicate Splits(ms: R.Members, a: Address, k: int) {
    && 0 <= k <= |ms|
    && (forall i :: 0 <= i < k ==> ms[i].address < a)
    && (forall i :: k <= i < |ms| ==> ms[i].address >= a)
  }

  lemma SplitIsIndex(ms: R.Members, a: Address, k: int)
    requires R.InOrder(ms) && Splits(ms, a, k)
    ensures IndexOf(Powers(ms), a) == if k < |ms| && ms[k].address == a then k else -1
    ensures VC.Rank(Powers(ms), a) == k
  {
    var vals := Powers(ms);
    VC.RankSplits(vals, a);
    var i, r := IndexOf(vals, a), VC.Rank(vals, a);
    hide IndexOf, VC.Rank;
    assert i >= 0 ==> vals[i].address == a == ms[i].address;
    assert r < |ms| ==> vals[r].address == ms[r].address;
    assert k < |ms| ==> vals[k].address == ms[k].address;
  }

  // ------------------------------------------------------ updates with accums

  /** One round of the loop in `updateValidators`: a new validator starts at zero, a changed one keeps its accum. */
  function Applied(ms: R.Members, a: Address, power: nat): R.Members {
    var k := IndexOf(Powers(ms), a);
    if k < 0 then
      var r := VC.Rank(Powers(ms), a);
      ms[..r] + [R.Member(a, power, 0)] + ms[r..]
    else if power == 0 then ms[..k] + ms[k + 1..]
    else ms[k := R.Member(a, power, ms[k].accum)]
  }

  function AppliedAll(ms: R.Members, updates: seq<VC.ValNode>): R.Members
    requires VC.AllParse(updates)
  {
    if |updates| == 0 then ms
    else
      var u := updates[|updates| - 1];
      Applied(AppliedAll(ms, updates[..|updates| - 1]), u.key.value, u.power)
  }

  lemma AppliedPowers(ms: R.Members, a: Address, power: nat)
    ensures Powers(Applied(ms, a, power)) == VC.Apply(Powers(ms), a, power)
  {
    hide IndexOf, VC.Rank;
  }

  /**
   Who is in the set after one change, with which power and accum: the others as before;
   the changed validator with its old accum, or not at all when its power is zero; a new
   one at accum zero.
   */
  lemma AppliedMembers(ms: R.Members, a: Address, power: nat, m: R.Member)
    requires R.InOrder(ms)
    ensures m in Applied(ms, a, power) <==>
      if m.address != a then m in ms
      else if IndexOf(Powers(ms), a) < 0 then m == R.Member(a, power, 0)
      else power > 0 && m == ms[IndexOf(Powers(ms), a)].(power := power)
  {
    hide IndexOf, VC.Rank;
    var k, vals := IndexOf(Powers(ms), a), Powers(ms);
    assert forall i :: 0 <= i < |ms| ==> vals[i].address == ms[i].address;
    if k < 0 {
      var r := VC.Rank(vals, a);
      assert ms == ms[..r] + ms[r..];
    } else {
      assert forall i :: 0 <= i < |ms| && i != k ==> ms[i].address != a;
      if power == 0 { assert ms == ms[..k] + [ms[k]] + ms[k + 1..]; } else { Replaced(ms, k, ms[k].(power := power), m); }
    }
  }

  lemma Replaced(ms: R.Members, k: nat, x: R.Member, m: R.Member)
    requires k < |ms| && forall i :: 0 <= i < |ms| && i != k ==> ms[i].address != ms[k].address
    requires x.address == ms[k].address
    ensures m in ms[k := x] <==> if m.address != x.address then m in ms else m == x
  {
    var r := ms[k := x];
    assert r[k] == x;
    if m in ms && m.address != x.address {
      var i :| 0 <= i < |ms| && ms[i] == m;
      assert r[i] == m;
    }
  }

  lemma {:induction false} AppliedAllPowers(ms: R.Members, updates: seq<VC.ValNode>)
    requires VC.AllParse(updates)
    ensures Powers(AppliedAll(ms, updates)) == VC.ApplyAll(Powers(ms), updates)
  {
    if |updates| > 0 {
      var u := updates[|updates| - 1];
      AppliedAllPowers(ms, updates[..|updates| - 1]);
      AppliedPowers(AppliedAll(ms, updates[..|updates| - 1]), u.key.value, u.power);
    }
  }

  lemma OrderIsSorted(ms: R.Members)
    ensures R.InOrder(ms) <==> Sorted(Powers(ms))
  {
    var vals := Powers(ms);
    assert forall i :: 0 <= i < |ms| ==> vals[i].address == ms[i].address;
  }

  // ----------------------------------------------------------------- sorting

  ghost predicate Distinct(ms: R.Members) {
    forall i, j :: 0 <= i < j < |ms| ==> ms[i].address != ms[j].address
  }

  /** A validator put in its place in address order. */
  function Placed(ms: R.Members, m: R.Member): R.Members {
    var k := VC.Rank(Powers(ms), m.address);
    ms[..k] + [m] + ms[k..]
  }

  lemma PlacedInOrder(ms: R.Members, m: R.Member)
    requires R.InOrder(ms) && forall i :: 0 <= i < |ms| ==> ms[i].address != m.address
    ensures R.InOrder(Placed(ms, m)) && multiset(Placed(ms, m)) == multiset(ms) + multiset{m}
  {
    var vals := Powers(ms);
    OrderIsSorted(ms);
    VC.RankSplits(vals, m.address);
    var k := VC.Rank(vals, m.address);
    hide VC.Rank;
    assert ms == ms[..k] + ms[k..];
    assert forall i :: 0 <= i < |ms| ==> vals[i].address == ms[i].address;
  }

  /** `ValidatorsByAddress` sorted. */
  function ByAddress(ms: R.Members): R.Members {
    if |ms| == 0 then [] else Placed(ByAddress(ms[..|ms| - 1]), ms[|ms| - 1])
  }

  /** The same validators, in address order. */
  lemma {:induction false} ByAddressSorts(ms: R.Members)
    requires Distinct(ms)
    ensures R.InOrder(ByAddress(ms)) && multiset(ByAddress(ms)) == multiset(ms) && |ByAddress(ms)| == |ms|
  {
    if |ms| > 0 {
      var front, r := ms[..|ms| - 1], ByAddress(ms[..|ms| - 1]);
      ByAddressSorts(front);
      assert ms == front + [ms[|ms| - 1]];
      forall i | 0 <= i < |r| ensures r[i].address != ms[|ms| - 1].address {
        assert r[i] in multiset(r) && r[i] in front;
      }
      PlacedInOrder(r, ms[|ms| - 1]);
    }
  }

  class ValidatorSet {
    var members: R.Members
    var proposer: Option<Address>
    /** The cached total, 0 when it is not set. */
    var total: nat

    ghost predicate Valid()
      reads this
    {
      R.InOrder(members) && (total == 0 || total == R.Total(members))
    }

    /** `NewValidatorSet`, of a list in any order or of no list; with no validator there is no proposer to take. */
    constructor (vals: Option<R.Members>)
      requires vals.Some? ==> |vals.value| > 0 && Distinct(vals.value)
      ensures Valid() && Sorted(Powers(members))
      ensures vals.None? ==> members == [] && proposer == None
      ensures vals.Some? ==>
        var ms := ByAddress(vals.value);
        |ms| > 0 && members == R.Incremented(ms, 1) && proposer == Some(ms[R.Proposer(ms, 1)].address)
    {
      hide R.Incremented, R.Proposer, R.Total, ByAddress, Powers, Sorted;
      members, proposer, total := if vals.None? then [] else ByAddress(vals.value), None, 0;
      new;
      if vals.Some? {
        ByAddressSorts(vals.value);
        IncrementAccum(1);
      }
      OrderIsSorted(members);
    }

    /** `sort.Search` for the first address not below `a`. */
    method Search(a: Address) returns (k: int)
      requires Valid()
      ensures Splits(members, a, k)
    {
      k := 0;
      var hi := |members|;
      while k < hi
        invariant 0 <= k <= hi <= |members|
        invariant forall i :: 0 <= i < k ==> members[i].address < a
        invariant forall i :: hi <= i < |members| ==> members[i].address >= a
      {
        var h := (k + hi) / 2;
        if a <= members[h].address { hi := h; } else { k := h + 1; }
      }
    }

    method GetByAddress(a: Address) returns (index: int)
      requires Valid()
      ensures index == IndexOf(Powers(members), a)
    {
      var k := Search(a);
      SplitIsIndex(members, a, k);
      index := if k != |members| && members[k].address == a then k else -1;
    }

    /** The true sum, whether or not it was cached. */
    method TotalVotingPower() returns (t: nat)
      requires Valid()
      modifies this`total
      ensures Valid() && t == R.Total(members) == total
    {
      if total == 0 {
        var i := 0;
        while i < |members|
          invariant 0 <= i <= |members| && total == R.Total(members[..i])
        {
          assert members[..i + 1][..i] == members[..i];
          total := total + members[i].power;
          i := i + 1;
        }
        assert members[..|members|] == members;
      }
      t := total;
    }

    /** `findProposer`. */
    method FindProposer() returns (p: Option<Address>)
      requires Valid()
      ensures p == if |members| == 0 then None else Some(members[R.Leader(members)].address)
    {
      var best := -1;
      var i := 0;
      while i < |members|
        invariant 0 <= i <= |members| && -1 <= best < i
        invariant best == if i == 0 then -1 else R.Leader(members[..i])
      {
        assert members[..i + 1][..i] == members[..i];
        if best < 0 || (members[i].address != members[best].address && !R.Beats(members[best], members[i])) {
          best := i;
        }
        i := i + 1;
      }
      assert members[..|members|] == members;
      p := if best < 0 then None else Some(members[best].address);
    }

    method GetProposer() returns (p: Option<Address>)
      requires Valid()
      modifies this`proposer
      ensures p == if |members| == 0 then None else proposer
      ensures |members| > 0 ==>
        proposer == if old(proposer).Some? then old(proposer) else Some(members[R.Leader(members)].address)
    {
      if |members| == 0 { return None; }
      if proposer.None? { proposer := FindProposer(); }
      p := proposer;
    }

    method Add(m: R.Member) returns (added: bool)
      requires Valid()
      modifies this
      ensures Valid() && added == (IndexOf(Powers(old(members)), m.address) < 0)
      ensures !added ==> members == old(members) && proposer == old(proposer) && total == old(total)
      ensures added ==>
        var r := VC.Rank(Powers(old(members)), m.address);
        members == old(members)[..r] + [m] + old(members)[r..] && proposer == None && total == 0
    {
      hide IndexOf, VC.Rank, R.Total;
      var k := Search(m.address);
      SplitIsIndex(members, m.address, k);
      if k == |members| {
        members := members + [m];
        proposer, total := None, 0;
        return true;
      } else if members[k].address == m.address {
        return false;
      } else {
        members := members[..k] + [m] + members[k..];
        proposer, total := None, 0;
        return true;
      }
    }

    method Update(m: R.Member) returns (updated: bool)
      requires Valid()
      modifies this
      ensures Valid() && updated == (IndexOf(Powers(old(members)), m.address) >= 0)
      ensures !updated ==> members == old(members) && proposer == old(proposer) && total == old(total)
      ensures updated ==>
        members == old(members)[IndexOf(Powers(old(members)), m.address) := m] && proposer == None && total == 0
    {
      var k := GetByAddress(m.address);
      if k < 0 { return false; }
      members := members[k := m];
      proposer, total := None, 0;
      updated := true;
    }

    method Remove(a: Address) returns (removed: bool)
      requires Valid()
      modifies this
      ensures Valid() && removed == (IndexOf(Powers(old(members)), a) >= 0)
      ensures !removed ==> members == old(members) && proposer == old(proposer) && total == old(total)
      ensures removed ==>
        var k := IndexOf(Powers(old(members)), a);
        members == old(members)[..k] + old(members)[k + 1..] && proposer == None && total == 0
    {
      hide IndexOf, VC.Rank, R.Total;
      var k := Search(a);
      SplitIsIndex(members, a, k);
      if k == |members| || members[k].address != a { return false; }
      members := members[..k] + members[k + 1..];
      proposer, total := None, 0;
      removed := true;
    }

    /**
     `IncrementAccum`: what the heap does is the abstract rotation. A call that asks for a
     proposer needs a validator; a count of zero or less only adds.
     */
    method IncrementAccum(times: int)
      requires Valid() && (times > 0 ==> |members| > 0)
      modifies this
      ensures Valid()
      ensures times > 0 ==>
        && members == R.Incremented(old(members), times)
        && proposer == Some(old(members)[R.Proposer(old(members), times)].address)
      ensures times <= 0 ==> members == R.Raised(old(members), times) && proposer == old(proposer)
    {
      var heap := Gather(times);
      ghost var raised := members;
      R.RaisedSame(old(members), times);
      var n := 0;
      while n < times
        invariant 0 <= n && (n <= times || times < 0 == n)
        invariant fresh(heap) && FullHeap(heap) && Valid()
        invariant times > 0 ==> members == R.Lowered(raised, n)
        invariant times <= 0 ==> members == raised
        invariant proposer == if 0 < n == times then Some(members[R.Proposer(old(members), times)].address) else old(proposer)
      {
        Pay(heap, n == times - 1);
        n := n + 1;
      }
      if times > 0 { R.LoweredKeeps(raised, times); }
    }

    /** A heap of all the validators, in order. */
    ghost predicate FullHeap(heap: PH.Heap)
      reads this, heap
    {
      && heap.Valid(members) && PH.Ordered(heap.pq, members)
      && forall v :: v in heap.pq <==> 0 <= v < |members|
    }

    /** The first loop of `IncrementAccum`: add the powers and build the heap. */
    method Gather(times: int) returns (heap: PH.Heap)
      requires Valid()
      modifies this`members
      ensures fresh(heap) && FullHeap(heap) && members == R.Raised(old(members), times) && Valid()
    {
      ghost var start := members;
      heap := new PH.Heap();
      var i := 0;
      while i < |members|
        invariant 0 <= i <= |members| == |start|
        invariant forall j :: 0 <= j < |start| ==> members[j] == if j < i then R.Raised(start, times)[j] else start[j]
        invariant fresh(heap) && heap.Valid(members) && PH.Ordered(heap.pq, members)
        invariant R.InOrder(members)
        invariant forall v :: v in heap.pq <==> 0 <= v < i
      {
        GainAndPush(heap, i, times);
        i := i + 1;
      }
      assert members == R.Raised(start, times);
      R.RaisedSame(start, times);
    }

    /** One round of that loop. */
    method GainAndPush(heap: PH.Heap, i: nat, times: int)
      requires R.InOrder(members) && i < |members| && heap.Valid(members) && PH.Ordered(heap.pq, members)
      requires forall v :: v in heap.pq <==> 0 <= v < i
      modifies this`members, heap
      ensures R.InOrder(members) && heap.Valid(members) && PH.Ordered(heap.pq, members)
      ensures members == old(members)[i := R.Raised(old(members), times)[i]]
      ensures forall v :: v in heap.pq <==> 0 <= v <= i
    {
      hide R.Total;
      members := members[i := members[i].(accum := members[i].accum + members[i].power * times)];
      PH.OutsideChanged(heap.pq, old(members), members, i);
      heap.Push(members, i);
    }

    /** One round of the second loop: the root of the heap pays the total. */
    method Pay(heap: PH.Heap, last: bool)
      requires Valid() && FullHeap(heap) && |members| > 0
      modifies this, heap
      ensures Valid() && FullHeap(heap)
      ensures members == R.Paid(old(members), R.Leader(old(members)))
      ensures proposer == if last then Some(old(members)[R.Leader(old(members))].address) else old(proposer)
    {
      hide R.Leader, R.Total, R.Beats;
      assert 0 in heap.pq;
      PH.RootIsLeader(heap.pq, members);
      var mostest := heap.pq[0];
      if last { proposer := Some(members[mostest].address); }
      var t := TotalVotingPower();
      ghost var before := members;
      members := members[mostest := members[mostest].(accum := members[mostest].accum - t)];
      R.SameTotal(before, members);
      PH.RootChanged(heap.pq, before, members);
      heap.Update(members);
    }
  }

  /** `changeInVotingPowerMoreOrEqualToOneThird`, and the error it can report. */
  method ChangeIsTooMuch(set0: ValidatorSet, updates: seq<VC.ValNode>) returns (verdict: VC.Verdict)
    requires set0.Valid()
    modifies set0`total
    ensures set0.Valid() && verdict == VC.Check(Powers(set0.members), updates)
  {
    hide IndexOf, R.Total, Power.Total;
    var t := set0.TotalVotingPower();
    SamePowerTotal(set0.members);
    var threshold := t * 1 / 3;
    var acc := 0;
    var i := 0;
    while i < |updates|
      invariant 0 <= i <= |updates| && acc >= 0 && set0.Valid()
      invariant VC.CheckFrom(Powers(set0.members), updates, i, acc) == VC.Check(Powers(set0.members), updates)
    {
      var u := updates[i];
      if u.key.None? || u.power < 0 { return VC.BadUpdate; }
      var k := set0.GetByAddress(u.key.value);
      if k < 0 {
        acc := acc + u.power;
      } else {
        var np := set0.members[k].power - u.power;
        if np < 0 { np := -np; }
        acc := acc + np;
      }
      if acc >= threshold { return VC.TooMuch; }
      i := i + 1;
    }
    verdict := VC.Fine;
  }

  /** One round of the loop in `updateValidators`; its three error returns cannot be reached. */
  method ApplyUpdate(set0: ValidatorSet, a: Address, power: nat)
    requires set0.Valid()
    modifies set0
    ensures set0.Valid() && set0.members == Applied(old(set0.members), a, power)
  {
    hide IndexOf, R.Total, VC.Rank;
    var k := set0.GetByAddress(a);
    if k < 0 {
      var added := set0.Add(R.Member(a, power, 0));
      assert added;
    } else if power == 0 {
      var removed := set0.Remove(a);
      assert removed;
    } else {
      var m := set0.members[k];
      SamePlace(set0.members, a);
      var updated := set0.Update(R.Member(m.address, power, m.accum));
      assert updated;
    }
  }

  lemma SamePlace(ms: R.Members, a: Address)
    ensures var k := IndexOf(Powers(ms), a); k >= 0 ==> ms[k].address == a
  {
    var k := IndexOf(Powers(ms), a);
    hide IndexOf;
    if k >= 0 { assert Powers(ms)[k].address == a; }
  }

  /** `updateValidators`: all updates or none, the set in order and its cache right. */
  method UpdateValidators(set0: ValidatorSet, updates: seq<VC.ValNode>) returns (ok: bool)
    requires set0.Valid()
    modifies set0
    ensures set0.Valid()
    ensures (Powers(set0.members), ok) == VC.Update(Powers(old(set0.members)), updates)
    ensures ok ==> VC.AllParse(updates) && set0.members == AppliedAll(old(set0.members), updates)
    ensures !ok ==> set0.members == old(set0.members) && set0.proposer == old(set0.proposer)
  {
    hide R.Total, VC.CheckFrom, Applied, R.InOrder;
    ghost var start := set0.members;
    var verdict := ChangeIsTooMuch(set0, updates);
    if !verdict.Fine? { return false; }
    VC.CheckMeaning(Powers(start), updates, 0, 0);
    AppliedAllPowers(start, updates);
    var i := 0;
    while i < |updates|
      invariant 0 <= i <= |updates| && set0.Valid()
      invariant set0.members == AppliedAll(start, updates[..i])
    {
      var u := updates[i];
      assert updates[..i + 1][..i] == updates[..i];
      ApplyUpdate(set0, u.key.value, u.power);
      i := i + 1;
    }
    assert updates[..|updates|] == updates;
    ok := true;
  }
}
