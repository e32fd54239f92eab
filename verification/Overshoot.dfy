// When the list can grow past PoolSize, and the pending counter past its limit.
module Overshoot {
  import opened Basics
  import opened Protocol
  import opened Accounting
  import opened System
  import Alone
  import Invariant
  import Progress
  import Safety

  // Cold callers that may still join the list.
  function Coming(pc: Pc): int {
    match pc
    case ColdStart(_) => 1
    case ColdSpawning(_, _) => 1
    case ColdSpawned(_, _) => 1
    case _ => 0
  }

  // The spawns that a thread has under way.
  function Underway(pc: Pc): int { Refills(pc) + Coming(pc) }

  // The members, and those that the spawns under way may add.
  function Potential(a: State): int {
    |a.g.list| + Sum(a.threads, Underway)
  }

  function Target(c: Params): int { Max(c.poolSize, 0) }

  function Limit(c: Params): int { Max(QueueLimit(c), 0) }

  // A fresh caller's scan that ends on an empty list.
  predicate ColdTurn(g: Shared, pc: Pc) {
    pc.Scanning? && !pc.queued && g.list == []
  }

  // ---- one region ---------------------------------------------------------

  ghost predicate Grows(c: Params, g: Shared, pc: Pc, o: Outcome) {
    var d := |o.g.list| + Underway(o.pc) - |g.list| - Underway(pc);
    && (if pc.Sizing? then d == Shortfall(c, g)
        else if pc.Scanning? then d == Bit(ColdTurn(g, pc))
        else d <= 0)
    && (ColdTurn(g, pc) ==> o.g.pending == g.pending + 1)
    && (o.g.pending > g.pending && !ColdTurn(g, pc) ==> o.g.pending == g.pending + 1 && g.pending < QueueLimit(c))
  }

  lemma AcquireGrows(c: Params, g: Shared, t: nat, pc: Pc, ch: Choice)
    requires Runs(g, t, pc, ch) && InAcquire(pc)
    ensures Grows(c, g, pc, Region(c, g, t, pc, ch))
  {
  }

  lemma ColdPathGrows(c: Params, g: Shared, t: nat, pc: Pc, ch: Choice)
    requires Runs(g, t, pc, ch) && InColdPath(pc)
    ensures Grows(c, g, pc, Region(c, g, t, pc, ch))
  {
    hide Refers, Spawned, Cleaned, Flushed, Reassign;
  }

  lemma ServeGrows(c: Params, g: Shared, t: nat, pc: Pc, ch: Choice)
    requires Runs(g, t, pc, ch) && (InServe(pc) || InRegister(pc) || InComplete(pc))
    ensures Grows(c, g, pc, Region(c, g, t, pc, ch))
  {
    hide Refers, Spawned, Cleaned, Flushed, Reassign, Stale, Without;
  }

  lemma DrainGrows(c: Params, g: Shared, t: nat, pc: Pc, ch: Choice)
    requires Runs(g, t, pc, ch) && (InDrain(pc) || InRewarm(pc))
    ensures Grows(c, g, pc, Region(c, g, t, pc, ch))
  {
    hide Refers, Spawned, Cleaned, Flushed, Reassign, Stale;
  }

  lemma RefillGrows(c: Params, g: Shared, t: nat, pc: Pc, ch: Choice)
    requires Runs(g, t, pc, ch) && InRefill(pc)
    ensures Grows(c, g, pc, Region(c, g, t, pc, ch))
  {
    hide Refers, Spawned, Cleaned, Flushed, Reassign, Stale, Without;
  }

  lemma ReapGrows(c: Params, g: Shared, t: nat, pc: Pc, ch: Choice)
    requires Runs(g, t, pc, ch) && InReap(pc)
    ensures Grows(c, g, pc, Region(c, g, t, pc, ch))
  {
    hide Refers, Spawned, Cleaned, Flushed, Reassign, Stale;
  }

  lemma ShutdownGrows(c: Params, g: Shared, t: nat, pc: Pc, ch: Choice)
    requires Runs(g, t, pc, ch) && InShutdown(pc)
    ensures Grows(c, g, pc, Region(c, g, t, pc, ch))
  {
    hide Refers, Spawned, Cleaned, Flushed, Reassign, Stale, Without;
  }

  lemma RegionGrows(c: Params, g: Shared, t: nat, pc: Pc, ch: Choice)
    requires Runs(g, t, pc, ch)
    ensures Grows(c, g, pc, Region(c, g, t, pc, ch))
  {
    hide Region, Grows, Refers;
    if InAcquire(pc) {
      AcquireGrows(c, g, t, pc, ch);
    } else if InColdPath(pc) {
      ColdPathGrows(c, g, t, pc, ch);
    } else if InServe(pc) || InRegister(pc) || InComplete(pc) {
      ServeGrows(c, g, t, pc, ch);
    } else if InDrain(pc) || InRewarm(pc) {
      DrainGrows(c, g, t, pc, ch);
    } else if InRefill(pc) {
      RefillGrows(c, g, t, pc, ch);
    } else if InReap(pc) {
      ReapGrows(c, g, t, pc, ch);
    } else {
      ShutdownGrows(c, g, t, pc, ch);
    }
  }

  // ---- one step -----------------------------------------------------------

  lemma UnderwayWeight()
    ensures Neutral(Underway) && forall pc :: Underway(pc) >= 0
  {
  }

  lemma PotentialStep(c: Params, a: State, b: State, t: nat, ch: Choice)
    requires Step(c, a, b, t, ch)
    ensures t < |a.threads|
    ensures Grows(c, a.g, a.threads[t], Region(c, a.g, t, a.threads[t], ch))
    ensures b.g == Region(c, a.g, t, a.threads[t], ch).g
    ensures var o := Region(c, a.g, t, a.threads[t], ch);
            Potential(b) - Potential(a) == |o.g.list| + Underway(o.pc) - |a.g.list| - Underway(a.threads[t])
    ensures Sum(a.threads, Underway) >= 0 && Sum(b.threads, Underway) >= 0
  {
    UnderwayWeight();
    RegionGrows(c, a.g, t, a.threads[t], ch);
    SumStep(c, a, b, t, ch, Underway);
    SumBound(a.threads, Underway);
    SumBound(b.threads, Underway);
    hide Region, Refers, CanRun;
  }

  // The two steps that let the spawns under way overshoot: a refill that computes
  // its shortfall while others are under way, and a cold caller who comes on top
  // of PoolSize of them.
  ghost predicate Overlaps(c: Params, a: State, t: nat) {
    && t < |a.threads|
    && ((a.threads[t].Sizing? && |a.g.list| < c.poolSize && Sum(a.threads, Underway) > 0)
        || (ColdTurn(a.g, a.threads[t]) && Sum(a.threads, Underway) >= Target(c)))
  }

  // No other step takes the potential past PoolSize, and these do.
  lemma OvershootsExactly(c: Params, a: State, b: State, t: nat, ch: Choice)
    requires Step(c, a, b, t, ch) && Potential(a) <= Target(c)
    ensures Potential(b) > Target(c) <==> Overlaps(c, a, t)
  {
    PotentialStep(c, a, b, t, ch);
    hide Region, Refers, CanRun, Step;
  }

  // A step takes the pending counter past its limit exactly if a fresh caller's
  // scan ends on an empty list with the counter at the limit.
  lemma PendingPassesExactly(c: Params, a: State, b: State, t: nat, ch: Choice)
    requires Step(c, a, b, t, ch) && a.g.pending <= Limit(c)
    ensures t < |a.threads|
    ensures b.g.pending > Limit(c) <==> ColdTurn(a.g, a.threads[t]) && a.g.pending == Limit(c)
  {
    PotentialStep(c, a, b, t, ch);
    hide Region, Refers, CanRun, Step;
  }

  // ---- over a run ---------------------------------------------------------

  ghost predicate OverlapStep(c: Params, a: State, b: State) {
    exists t: nat, ch :: Step(c, a, b, t, ch) && Overlaps(c, a, t)
  }

  lemma ArrivalPotential(a: State, b: State)
    requires Arrival(a, b)
    ensures Potential(b) == Potential(a) && b.g.pending == a.g.pending && b.g.list == a.g.list
  {
    var pc := b.threads[|a.threads|];
    assert b.threads == a.threads + [pc];
    SumAppend(a.threads, [pc], Underway);
  }

  lemma NextPotential(c: Params, a: State, b: State)
    requires Next(c, a, b) && Potential(a) <= Target(c)
    ensures Potential(b) > Target(c) ==> OverlapStep(c, a, b)
  {
    hide Arrival, Step, Overlaps;
    if Arrival(a, b) {
      ArrivalPotential(a, b);
    } else {
      var t: nat, ch :| Step(c, a, b, t, ch);
      OvershootsExactly(c, a, b, t, ch);
    }
  }

  lemma ListBelowPotential(a: State)
    ensures |a.g.list| <= Potential(a)
  {
    UnderwayWeight();
    SumBound(a.threads, Underway);
  }

  lemma InitPotential(c: Params, a: State)
    requires Init(c, a)
    ensures Potential(a) == Target(c) && a.g.pending == 0
  {
    assert forall t :: 0 <= t < |a.threads| ==> a.threads[t] == Reaping;
    SumZero(a.threads, Underway);
  }

  // Over any run from the start: as long as no refill sizes itself while other
  // spawns are under way, and no cold caller comes on top of PoolSize of them, the
  // list stays within PoolSize.
  lemma {:induction false} NoOverlapNoOvershoot(c: Params, run: seq<State>, k: nat)
    requires IsRun(c, run) && Init(c, run[0]) && k < |run|
    requires forall i :: 0 <= i < k ==> !OverlapStep(c, run[i], run[i + 1])
    ensures Potential(run[k]) <= Target(c) && |run[k].g.list| <= Target(c)
  {
    hide Next, OverlapStep, Init;
    if k == 0 {
      InitPotential(c, run[0]);
    } else {
      NoOverlapNoOvershoot(c, run, k - 1);
      assert Next(c, run[k - 1], run[(k - 1) + 1]);
      assert !OverlapStep(c, run[k - 1], run[(k - 1) + 1]);
      NextPotential(c, run[k - 1], run[k]);
    }
    ListBelowPotential(run[k]);
  }

  ghost predicate PassesLimit(c: Params, a: State, b: State) {
    exists t: nat, ch ::
      Step(c, a, b, t, ch) && t < |a.threads| && ColdTurn(a.g, a.threads[t]) && a.g.pending == Limit(c)
  }

  lemma NextPending(c: Params, a: State, b: State)
    requires Next(c, a, b) && a.g.pending <= Limit(c)
    ensures b.g.pending > Limit(c) <==> PassesLimit(c, a, b)
  {
    if t: nat, ch :| Step(c, a, b, t, ch) && t < |a.threads| && ColdTurn(a.g, a.threads[t]) && a.g.pending == Limit(c) {
      PendingPassesExactly(c, a, b, t, ch);
    }
    hide Arrival, Step, ColdTurn;
    if Arrival(a, b) {
      ArrivalPotential(a, b);
    } else {
      var t: nat, ch :| Step(c, a, b, t, ch);
      PendingPassesExactly(c, a, b, t, ch);
    }
  }

  // Over any run from the start the pending counter stays within its limit up to
  // state k if and only if no step before k is a cold turn at the limit.
  lemma {:induction false} PendingWithinLimitExactly(c: Params, run: seq<State>, k: nat)
    requires IsRun(c, run) && Init(c, run[0]) && k < |run|
    ensures (forall i :: 0 <= i <= k ==> run[i].g.pending <= Limit(c)) <==>
            (forall i :: 0 <= i < k ==> !PassesLimit(c, run[i], run[i + 1]))
  {
    hide Next, PassesLimit, Init;
    if k == 0 {
      InitPotential(c, run[0]);
    } else {
      PendingWithinLimitExactly(c, run, k - 1);
      assert Next(c, run[k - 1], run[(k - 1) + 1]);
      var passes := PassesLimit(c, run[k - 1], run[(k - 1) + 1]);
      if run[k - 1].g.pending <= Limit(c) {
        NextPending(c, run[k - 1], run[k]);
      }
    }
  }

  // ---- what the spawns under way can do ----------------------------------

  predicate Spawns(pc: Pc) {
    Underway(pc) > 0 || pc.Scanning?
  }

  // A step of a thread with a spawn under way, or of the scan that holds the lock.
  ghost predicate SpawnStep(c: Params, a: State, b: State) {
    exists t: nat, ch :: Step(c, a, b, t, ch) && t < |a.threads| && Spawns(a.threads[t])
  }

  ghost predicate SpawnRun(c: Params, run: seq<State>) {
    |run| > 0 && forall i :: 0 <= i < |run| - 1 ==> SpawnStep(c, run[i], run[i + 1])
  }

  // The spawns under way, and nothing else, lead from a to b.
  ghost predicate SpawnsTo(c: Params, a: State, b: State) {
    exists run :: SpawnRun(c, run) && run[0] == a && run[|run| - 1] == b
  }

  // The lock is in the hands of a fresh caller who will find nothing.
  ghost predicate ColdScan(a: State) {
    exists t: nat :: t < |a.threads| && ColdTurn(a.g, a.threads[t])
  }

  // The potential, with the cold caller that is only a scan away from it.
  ghost function Outlook(a: State): int { Potential(a) + Bit(ColdScan(a)) }

  // Spawns leave the pool open, the list at least as long, and the lock alone.
  ghost predicate Settles(c: Params, g: Shared, t: nat, pc: Pc, o: Outcome) {
    && o.g.closed == g.closed && |g.list| <= |o.g.list|
    && (pc.Scanning? ==> o.g.list == g.list
                         && (if o.pc.Scanning? then o.g.lock == g.lock && o.pc.queued == pc.queued && pc.i < |g.list|
                             else o.g.lock.None?))
    && (!pc.Scanning? ==> o.g.lock == g.lock && !o.pc.Scanning?)
  }

  lemma SpawnsSettle(c: Params, g: Shared, t: nat, pc: Pc, ch: Choice)
    requires Runs(g, t, pc, ch) && Spawns(pc)
    ensures Settles(c, g, t, pc, Region(c, g, t, pc, ch))
  {
    hide Spawned, Cleaned, Flushed, Reassign, Stale, Without;
  }

  lemma OneScan(c: Params, a: State, t: nat, u: nat)
    requires Reachable(c, a) && t < |a.threads| && u < |a.threads|
    requires a.threads[t].Scanning? && a.threads[u].Scanning?
    ensures t == u && a.g.lock == Some(t)
  {
    Safety.ReachableInv(c, a);
    hide Counters, Bounds, Wakes, Invariant.OwnOk, Invariant.Listed, Invariant.Booked, Invariant.Granted, Reachable;
    assert Invariant.LocalOk(c, a.g, t, PcOf(a, t));
    assert Invariant.LocalOk(c, a.g, u, PcOf(a, u));
  }

  // Under such steps the outlook never rises.
  lemma OutlookStep(c: Params, a: State, b: State, t: nat, ch: Choice)
    requires Reachable(c, a) && Step(c, a, b, t, ch) && t < |a.threads| && Spawns(a.threads[t])
    ensures Outlook(b) <= Outlook(a) && b.g.closed == a.g.closed
  {
    PotentialStep(c, a, b, t, ch);
    SpawnsSettle(c, a.g, t, a.threads[t], ch);
    hide Region, Reachable, Refers, CanRun;
    if ColdScan(b) {
      var u: nat :| u < |b.threads| && ColdTurn(b.g, b.threads[u]);
      AfterStep(c, a, b, t, ch, u);
      assert PcOf(b, u) == b.threads[u];
      if u == t {
        assert false;
      } else {
        assert PcOf(a, u) == b.threads[u];
        assert ColdTurn(a.g, a.threads[u]);
        if a.threads[t].Scanning? {
          OneScan(c, a, t, u);
          assert false;
        }
      }
    }
  }

  lemma {:induction false} OutlookRun(c: Params, run: seq<State>, i: nat)
    requires SpawnRun(c, run) && Reachable(c, run[0]) && i < |run|
    ensures Reachable(c, run[i]) && Outlook(run[i]) <= Outlook(run[0])
  {
    hide SpawnStep, Reachable, Outlook;
    if i > 0 {
      OutlookRun(c, run, i - 1);
      assert SpawnStep(c, run[i - 1], run[(i - 1) + 1]);
      OutlookFalls(c, run[i - 1], run[i]);
    }
  }

  lemma OutlookFalls(c: Params, a: State, b: State)
    requires Reachable(c, a) && SpawnStep(c, a, b)
    ensures Reachable(c, b) && Outlook(b) <= Outlook(a)
  {
    hide Step, Reachable, Outlook, Spawns;
    var t: nat, ch :| Step(c, a, b, t, ch) && t < |a.threads| && Spawns(a.threads[t]);
    OutlookStep(c, a, b, t, ch);
    assert Moves(c, a, b);
    Safety.ReachableNext(c, a, b);
  }

  // A thread that is not held up can take its step, whoever it wakes.
  lemma Goes(c: Params, a: State, t: nat, ok: bool) returns (b: State, ch: Choice)
    requires Reachable(c, a) && t < |a.threads| && CanRun(a.g, t, a.threads[t], Choice(ok, {}, 0))
    ensures Step(c, a, b, t, ch) && Runs(a.g, t, a.threads[t], ch) && ch.ok == ok
    ensures Reachable(c, b)
  {
    Progress.RefersAlwaysReachable(c, a, t);
    assert PcOf(a, t) == a.threads[t];
    ch := Choice(ok, {}, 0);
    var o := Region(c, a.g, t, a.threads[t], ch);
    var ts := a.threads[t := o.pc];
    if HasSleeper(ts) {
      ghost var w :| 0 <= w < |ts| && ts[w].Asleep?;
      Alone.WakeeFree(c, a.g, t, a.threads[t], ch, w);
      ch := Choice(ok, {}, w);
    }
    hide Region, Reachable, Refers, CanRun;
    b := State(o.g, Rouse(ts, o.wake, ch.wakee));
    assert Step(c, a, b, t, ch);
    assert Moves(c, a, b);
    Safety.ReachableNext(c, a, b);
  }

  lemma SpawnsHere(c: Params, a: State)
    ensures SpawnsTo(c, a, a)
  {
    assert SpawnRun(c, [a]) && [a][0] == a && [a][|[a]| - 1] == a;
  }

  lemma SpawnsFirst(c: Params, a: State, b: State, d: State, t: nat, ch: Choice)
    requires Step(c, a, b, t, ch) && t < |a.threads| && Spawns(a.threads[t]) && SpawnsTo(c, b, d)
    ensures SpawnsTo(c, a, d)
  {
    assert SpawnStep(c, a, b);
    hide SpawnStep, Step;
    var run :| SpawnRun(c, run) && run[0] == b && run[|run| - 1] == d;
    var run' := [a] + run;
    forall i | 0 <= i < |run'| - 1 ensures SpawnStep(c, run'[i], run'[i + 1]) {
      if i > 0 {
        assert run'[i] == run[i - 1] && run'[i + 1] == run[(i - 1) + 1];
      }
    }
    assert run'[0] == a && run'[|run'| - 1] == d;
  }

  lemma ScanStep(c: Params, g: Shared, t: nat, pc: Pc, ch: Choice)
    requires Runs(g, t, pc, ch) && pc.Scanning?
    ensures var o := Region(c, g, t, pc, ch);
            if o.pc.Scanning? then pc.i < |g.list| && o.pc.i == pc.i + 1 && o.g == g
            else o.g.lock.None? && o.g.closed == g.closed
  {
  }

  // The scan that holds the lock comes to its end.
  lemma {:induction false} ScanEnds(c: Params, a: State, t: nat) returns (b: State)
    requires Reachable(c, a) && !a.g.closed && t < |a.threads| && a.threads[t].Scanning?
    ensures SpawnsTo(c, a, b) && Reachable(c, b) && !b.g.closed && b.g.lock.None?
    ensures Potential(b) == Potential(a) + Bit(ColdTurn(a.g, a.threads[t]))
    decreases |a.g.list| - a.threads[t].i
  {
    var pc := a.threads[t];
    OneScan(c, a, t, t);
    var d, ch := Goes(c, a, t, true);
    PotentialStep(c, a, d, t, ch);
    ScanStep(c, a.g, t, pc, ch);
    AfterStep(c, a, d, t, ch, t);
    hide Region, Reachable, Refers, CanRun, Step, SpawnsTo, Underway;
    if PcOf(d, t).Scanning? {
      b := ScanEnds(c, d, t);
    } else {
      b := d;
      SpawnsHere(c, b);
    }
    SpawnsFirst(c, a, d, b, t, ch);
  }

  // The steps a spawn has left if all goes well.
  function Away(pc: Pc): int {
    match pc
    case Refilling(k) => 3 * k
    case RefillSpawning(k, _) => 3 * k + 2
    case RefillSpawned(k, _) => 3 * k + 1
    case ColdStart(_) => 3
    case ColdSpawning(_, _) => 2
    case ColdSpawned(_, _) => 1
    case _ => 0
  }

  lemma AwayWeight()
    ensures Neutral(Away) && forall pc :: Away(pc) >= 0
  {
  }

  lemma SpawnerStep(c: Params, g: Shared, t: nat, pc: Pc, ch: Choice)
    requires Runs(g, t, pc, ch) && Underway(pc) > 0 && ch.ok && !g.closed
    ensures var o := Region(c, g, t, pc, ch);
            && |o.g.list| + Underway(o.pc) == |g.list| + Underway(pc)
            && Away(o.pc) < Away(pc) && o.g.lock == g.lock && !o.g.closed
  {
    hide Spawned, Flushed, Cleaned;
  }

  // With the lock free, the spawns under way can all become members.
  lemma {:induction false} AllSpawn(c: Params, a: State) returns (b: State)
    requires Reachable(c, a) && !a.g.closed && a.g.lock.None?
    ensures SpawnsTo(c, a, b) && |b.g.list| == Potential(a)
    decreases Sum(a.threads, Away)
  {
    UnderwayWeight();
    AwayWeight();
    SumBound(a.threads, Underway);
    SumBound(a.threads, Away);
    if Sum(a.threads, Underway) == 0 {
      b := a;
      SpawnsHere(c, a);
    } else {
      var t := SumWitness(a.threads, Underway);
      SpawnerCanRun(a.g, t, a.threads[t]);
      var d, ch := Goes(c, a, t, true);
      SpawnerStep(c, a.g, t, a.threads[t], ch);
      SumStep(c, a, d, t, ch, Underway);
      SumStep(c, a, d, t, ch, Away);
      SumBound(d.threads, Away);
      hide Region, Reachable, Refers, CanRun, SpawnsTo, Underway, Away;
      b := AllSpawn(c, d);
      hide Step;
      SpawnsFirst(c, a, d, b, t, ch);
    }
  }

  lemma SpawnerCanRun(g: Shared, t: nat, pc: Pc)
    requires Underway(pc) > 0 && g.lock.None?
    ensures CanRun(g, t, pc, Choice(true, {}, 0))
  {
  }

  // From any open state, the spawns under way can push the list past PoolSize if
  // and only if members, spawns under way and the cold caller who holds the lock
  // are together more than PoolSize.
  lemma PushesPastExactly(c: Params, a: State)
    requires Reachable(c, a) && !a.g.closed
    ensures (exists b :: SpawnsTo(c, a, b) && |b.g.list| > Target(c)) <==> Outlook(a) > Target(c)
  {
    if Outlook(a) > Target(c) {
      var b := Pushed(c, a);
    }
    hide Reachable, Outlook, SpawnsTo;
    forall b | SpawnsTo(c, a, b) ensures |b.g.list| <= Outlook(a) {
      OutlookBounds(c, a, b);
    }
  }

  lemma OutlookBounds(c: Params, a: State, b: State)
    requires Reachable(c, a) && SpawnsTo(c, a, b)
    ensures |b.g.list| <= Outlook(a)
  {
    hide SpawnStep, Reachable;
    var run :| SpawnRun(c, run) && run[0] == a && run[|run| - 1] == b;
    OutlookRun(c, run, |run| - 1);
    ListBelowPotential(b);
  }

  lemma Pushed(c: Params, a: State) returns (b: State)
    requires Reachable(c, a) && !a.g.closed
    ensures SpawnsTo(c, a, b) && |b.g.list| == Outlook(a)
  {
    if a.g.lock.None? {
      NoScan(c, a);
      b := AllSpawn(c, a);
    } else {
      var t := Holder(c, a);
      var d := ScanEnds(c, a, t);
      b := AllSpawn(c, d);
      SpawnsOn(c, a, d, b);
      if ColdScan(a) {
        var u: nat :| u < |a.threads| && ColdTurn(a.g, a.threads[u]);
        OneScan(c, a, t, u);
      }
    }
  }

  lemma NoScan(c: Params, a: State)
    requires Reachable(c, a) && a.g.lock.None?
    ensures !ColdScan(a)
  {
    forall t: nat | t < |a.threads| ensures !a.threads[t].Scanning? {
      if a.threads[t].Scanning? {
        OneScan(c, a, t, t);
      }
    }
  }

  lemma Holder(c: Params, a: State) returns (t: nat)
    requires Reachable(c, a) && a.g.lock.Some?
    ensures t < |a.threads| && a.threads[t].Scanning?
  {
    t := a.g.lock.value;
    Safety.ReachableInv(c, a);
    hide Counters, Bounds, Wakes, Invariant.OwnOk, Invariant.Listed, Invariant.Booked, Invariant.Granted, Reachable;
    assert Invariant.LocalOk(c, a.g, t, PcOf(a, t));
  }

  lemma SpawnsOn(c: Params, a: State, b: State, d: State)
    requires SpawnsTo(c, a, b) && SpawnsTo(c, b, d)
    ensures SpawnsTo(c, a, d)
  {
    hide SpawnStep;
    var p :| SpawnRun(c, p) && p[0] == a && p[|p| - 1] == b;
    var q :| SpawnRun(c, q) && q[0] == b && q[|q| - 1] == d;
    var run := p + q[1..];
    forall i | 0 <= i < |run| - 1 ensures SpawnStep(c, run[i], run[i + 1]) {
      if i < |p| - 1 {
        assert run[i] == p[i] && run[i + 1] == p[i + 1];
      } else {
        var j := i - (|p| - 1);
        assert run[i] == q[j] && run[i + 1] == q[j + 1];
      }
    }
    assert run[0] == a && run[|run| - 1] == d;
  }
}
