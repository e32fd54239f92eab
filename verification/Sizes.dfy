// How the size of the pool moves under one recycle or one reaper pass that
// nothing overlaps.
module Sizes {
  import opened Basics
  import opened Protocol
  import opened Effects
  import opened Services
  import opened Stretches

  // How many of k spawns from the i-th on succeed.
  function Wins(spawns: nat -> bool, i: nat, k: nat): nat
    decreases k
  {
    if k == 0 then 0 else Bit(spawns(i)) + Wins(spawns, i + 1, k - 1)
  }

  lemma {:induction false} WinsBound(spawns: nat -> bool, i: nat, k: nat)
    ensures Wins(spawns, i, k) <= k
    ensures Wins(spawns, i, k) == k <==> forall j :: i <= j < i + k ==> spawns(j)
    decreases k
  {
    if k > 0 {
      WinsBound(spawns, i + 1, k - 1);
      assert Wins(spawns, i, k) == k ==> spawns(i) && Wins(spawns, i + 1, k - 1) == k - 1;
    }
  }

  // A refill of an open pool keeps the list as a prefix, adds one new member and
  // one Signal for every spawn that succeeds, and counts the others.
  lemma {:induction false} RefillAddsWins(c: Params, g: Shared, t: nat, spawns: nat -> bool, i: nat, k: nat)
    requires !g.closed
    ensures var e := Refilled(c, g, t, spawns, i, k);
            && g.list <= e.g.list && !e.g.closed
            && |e.g.list| == |g.list| + Wins(spawns, i, k)
            && |e.calls| == Wins(spawns, i, k)
            && e.g.failed == g.failed + k - Wins(spawns, i, k)
            && |e.g.sentries| == |g.sentries| + k && g.sentries <= e.g.sentries && e.g.book == g.book
            && forall j :: |g.list| <= j < |e.g.list| ==> |g.sentries| <= e.g.list[j] < |e.g.sentries|
    decreases k
  {
    if k > 0 {
      var e := Replaced(c, g, t, spawns(i));
      RefillAddsWins(c, e.g, t, spawns, i + 1, k - 1);
    }
  }

  lemma WithoutMember(xs: seq<nat>, x: nat)
    requires Distinct(xs) && x in xs
    ensures |Without(xs, {x})| == |xs| - 1
  {
    var i :| 0 <= i < |xs| && xs[i] == x;
    WithoutOne(xs, i);
  }

  // A recycle of a member that ends in a discard: the sentry is killed and deleted,
  // the other members stay in order, and the length n becomes max(n - 1, PoolSize)
  // exactly if every spawn succeeds; it falls short by the spawns that fail.
  lemma DiscardSizes(c: Params, g: Shared, t: nat, s: nat, spawns: nat -> bool)
    requires !g.closed && s < |g.sentries| && Distinct(g.list) && s in g.list
    ensures var e := Discarded(c, g, t, s, spawns);
            var k := Max(c.poolSize - (|g.list| - 1), 0);
            && Without(g.list, {s}) <= e.g.list && s !in e.g.list
            && |e.g.list| == Max(|g.list| - 1, c.poolSize) - (k - Wins(spawns, 0, k))
            && e.g.failed == g.failed + (k - Wins(spawns, 0, k))
            && |e.calls| == Wins(spawns, 0, k) && e.g.book == g.book && !e.g.closed
            && s < |e.g.sentries| && e.g.sentries[s].calls == g.sentries[s].calls + [Kill, Delete]
            && e.g.sentries[s].cleaned == g.sentries[s].cleaned + 1
  {
    WithoutMember(g.list, s);
    var h := Set(g.(list := Without(g.list, {s})), s, Cleaned(g.sentries[s]));
    RefillAddsWins(c, h, t, spawns, 0, Shortfall(c, h));
    var e := Discarded(c, g, t, s, spawns);
    assert e.g.sentries[s] == h.sentries[s];
    forall j | 0 <= j < |e.g.list| ensures e.g.list[j] != s {
      assert j < |h.list| ==> e.g.list[j] == h.list[j] && h.list[j] in h.list;
    }
  }

  lemma EmptiedCalls(x: SentryRecord, exits: bool)
    ensures Emptied(x, exits).calls == x.calls + Signals(exits)
    ensures Emptied(x, exits) == x.(state := Draining, leaseId := None, calls := x.calls + Signals(exits))
  {
  }

  // One stock recycle that nothing overlaps takes the length n to
  // max(n - 1, PoolSize) if and only if no spawn fails: an overshoot shrinks by
  // one, and a full pool stays full. The guest is emptied, killed and deleted.
  lemma StockRecycleShrinks(c: Params, g: Shared, t: nat, s: nat, luck: Luck)
    requires !c.warm && !g.closed && s < |g.sentries| && Distinct(g.list) && s in g.list
    ensures var e := Recycled(c, g, t, s, luck);
            var k := Max(c.poolSize - (|g.list| - 1), 0);
            && Without(g.list, {s}) <= e.g.list && s !in e.g.list
            && (|e.g.list| == Max(|g.list| - 1, c.poolSize) <==> forall j :: 0 <= j < k ==> luck.spawns(j))
            && s < |e.g.sentries|
            && e.g.sentries[s].calls == g.sentries[s].calls + Signals(luck.exits) + [Kill, Delete]
  {
    hide Discarded;
    var h := Set(g, s, Emptied(g.sentries[s], luck.exits));
    EmptiedCalls(g.sentries[s], luck.exits);
    DiscardSizes(c, h, t, s, luck.spawns);
    WinsBound(luck.spawns, 0, Max(c.poolSize - (|g.list| - 1), 0));
  }

  // A warm recycle either keeps the list as it is, with the sentry Ready, one
  // restore further, reset and holding the workload's checkpoint; or discards it,
  // after the first thing that went wrong.
  lemma WarmRecycleKeepsOrDiscards(c: Params, g: Shared, t: nat, s: nat, luck: Luck)
    requires c.warm && !g.closed && s < |g.sentries| && Distinct(g.list) && s in g.list
    ensures var e := Recycled(c, g, t, s, luck);
            var n := g.sentries[s].restores + 1;
            var emptied := g.sentries[s].calls + Signals(luck.exits);
            && s < |e.g.sentries|
            && if luck.resets && n < c.maxRestores && luck.fit && luck.restores then
                 && e.g.list == g.list && e.calls == [One] && e.g.sentries[s].state.Ready?
                 && e.g.sentries[s].restores == n && e.g.sentries[s].leaseId.None?
                 && e.g.sentries[s].calls == emptied + [Reset(true), Restore(c.checkpoint, true)]
               else
                 && s !in e.g.list && Without(g.list, {s}) <= e.g.list
                 && e.g.sentries[s].calls ==
                    (if !luck.resets then emptied + [Reset(false)]
                     else if n >= c.maxRestores || !luck.fit then emptied + [Reset(true)]
                     else emptied + [Reset(true), Restore(c.checkpoint, false)]) + [Kill, Delete]
  {
    hide Discarded;
    var h := Set(g, s, Emptied(g.sentries[s], luck.exits));
    var k := Set(h, s, WasReset(h.sentries[s], luck.resets));
    var m := Set(k, s, Rewarmed(c, k.sentries[s], luck.restores));
    EmptiedCalls(g.sentries[s], luck.exits);
    var emptied := g.sentries[s].calls + Signals(luck.exits);
    assert emptied + [Reset(true)] + [Restore(c.checkpoint, luck.restores)]
        == emptied + [Reset(true), Restore(c.checkpoint, luck.restores)];
    WithoutMember(g.list, s);
    DiscardSizes(c, k, t, s, luck.spawns);
    DiscardSizes(c, m, t, s, luck.spawns);
  }

  // A reaper's pass takes out exactly the Ready members that were idle for too
  // long, keeps the others in order, and loses none.
  lemma PassSplits(g: Shared, t: nat, idle: set<nat>)
    requires Sound(g) && Distinct(g.list)
    ensures forall x :: x in Evicted(g, idle) <==> x in g.list && x in idle && g.sentries[x].state.Ready?
    ensures forall x :: x in Reaped(g, t, idle).list <==> x in g.list && x !in Evicted(g, idle)
    ensures |Reaped(g, t, idle).list| + |Evicted(g, idle)| == |g.list|
    ensures Distinct(Reaped(g, t, idle).list) && Distinct(Evicted(g, idle))
  {
    var gone := Stale(g, idle);
    var kept := (set x | x in g.list) - gone;
    WithoutSplits(g.list, gone, kept);
    WithoutDistinct(g.list, gone);
    WithoutDistinct(g.list, kept);
  }
}
