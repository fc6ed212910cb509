/**
 The timeout ticker (`ticker.go`): which of the scheduled timeouts it holds.
 */
module Ticker {
  import opened N = Node
  import I = Invariant
  import HL = HeightLedger

  /** The value of a timeout that was never set. */
  const UNSET := Timeout(0, 0, 0)

  /** A tick that `timeoutRoutine` ignores: not later than the timeout it holds. */
  predicate Ignored(held: Timeout, tick: Timeout) {
    || tick.height < held.height
    || (tick.height == held.height && tick.round < held.round)
    || (tick.height == held.height && tick.round == held.round && held.step > 0 && tick.step <= held.step)
  }

  /** The timeout held after a sequence of ticks. */
  function Held(ticks: seq<Timeout>): Timeout {
    if |ticks| == 0 then UNSET
    else
      var held := Held(ticks[..|ticks| - 1]);
      if Ignored(held, ticks[|ticks| - 1]) then held else ticks[|ticks| - 1]
  }

  ghost predicate Later(a: Timeout, b: Timeout) {
    I.Upto(a.height, a.round, a.step, b.height, b.round, b.step)
  }

  /** A tick as the consensus state sends it. */
  ghost predicate Proper(t: Timeout) { t.height >= 1 && t.round >= 0 && t.step >= 1 }

  /** The ticker holds the latest of all ticks: whatever fires was asked for, and nothing later was. */
  lemma {:induction false} HoldsTheLatest(ticks: seq<Timeout>)
    requires |ticks| > 0 && forall i :: 0 <= i < |ticks| ==> Proper(ticks[i])
    ensures Held(ticks) in ticks
    ensures forall i :: 0 <= i < |ticks| ==> Later(ticks[i], Held(ticks))
  {
    var before := ticks[..|ticks| - 1];
    if |before| > 0 { HoldsTheLatest(before); }
    assert ticks == before + [ticks[|ticks| - 1]];
    forall i | 0 <= i < |ticks| ensures Later(ticks[i], Held(ticks)) {
      assert i < |before| ==> Later(before[i], Held(before));
    }
  }

  /** The latest of the timeouts a node asked for is one that it can be handed. */
  lemma FiredWasScheduled(s: N.Node, env: N.Env, ticks: seq<Timeout>)
    requires I.Base(s, env) && |ticks| > 0 && forall i :: 0 <= i < |ticks| ==> ticks[i] in s.timeouts
    ensures Held(ticks) in s.timeouts
    ensures forall i :: 0 <= i < |ticks| ==> Later(ticks[i], Held(ticks))
  {
    hide I.Core, I.LockOk, I.LockValid, I.LastOk, I.History, I.SentOk, HL.Valid;
    HoldsTheLatest(ticks);
  }

  class TimeoutTicker {
    var ti: Timeout
    ghost var ticks: seq<Timeout>

    ghost predicate Valid()
      reads this
    {
      ti == Held(ticks)
    }

    constructor ()
      ensures Valid() && ticks == []
    {
      ti, ticks := UNSET, [];
    }

    /** A tick received by `timeoutRoutine`; the answer says whether the timer was reset for it. */
    method Tick(newti: Timeout) returns (reset: bool)
      requires Valid()
      modifies this
      ensures Valid() && ticks == old(ticks) + [newti] && reset == !Ignored(old(ti), newti)
    {
      ghost var all := ticks + [newti];
      assert all[..|all| - 1] == ticks;
      ticks := all;
      if newti.height < ti.height { return false; }
      if newti.height == ti.height {
        if newti.round < ti.round { return false; }
        if newti.round == ti.round {
          if ti.step > 0 && newti.step <= ti.step { return false; }
        }
      }
      ti := newti;
      reset := true;
    }

    /** The timer fires: with a timeout that the node may be handed, and the latest it asked for. */
    method Fire(ghost s: N.Node, ghost env: N.Env) returns (t: Timeout)
      requires Valid() && |ticks| > 0
      requires I.Base(s, env) && forall i :: 0 <= i < |ticks| ==> ticks[i] in s.timeouts
      ensures t in s.timeouts && forall i :: 0 <= i < |ticks| ==> Later(ticks[i], t)
    {
      FiredWasScheduled(s, env, ticks);
      t := ti;
    }
  }
}
