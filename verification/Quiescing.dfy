// Before the close: without new calls every run of the pool comes to rest after
// finitely many effective steps, and once Shutdown has begun it comes to rest
// closed and drained.
module Quiescing {
  import opened Basics
  import opened Protocol
  import opened Accounting
  import opened System
  import opened Draining
  import Invariant
  import Progress
  import Safety

  // ---- how long the list can get -----------------------------------------

  // The members that a thread may still add.
  function Appends(c: Params, pc: Pc): nat {
    match pc
    case Entering(_) => 1
    case Scanning(_, _, queued) => if queued then 0 else 1
    case ColdStart(_) => 1
    case ColdSpawning(_, _) => 1
    case ColdSpawned(_, _) => 1
    case Refilling(k) => k
    case RefillSpawning(k, _) => k + 1
    case RefillSpawned(k, _) => k + 1
    case Completing(_) => Target(c)
    case Unleased(_) => Target(c)
    case Recycling(_) => Target(c)
    case Killing(_) => Target(c)
    case Waiting(_, _) => Target(c)
    case Resetting(_) => Target(c)
    case Counting(_) => Target(c)
    case Checking(_) => Target(c)
    case Rewarming(_) => Target(c)
    case Removing(_) => Target(c)
    case Cleaning(_) => Target(c)
    case Sizing => Target(c)
    case _ => 0
  }

  function Adds(c: Params): Pc -> int { pc => Appends(c, pc) as int }

  // No continuation without arrivals makes the list longer than this.
  function Room(c: Params, a: State): int {
    |a.g.list| + Sum(a.threads, Adds(c))
  }

  // ---- the steps left -----------------------------------------------------

  // What a woken caller may spend on a scan of n members before it sleeps again.
  function WakeCost(n: nat): nat { n + 2 }

  // A refill of k spawns: three steps, one member and one Signal each.
  function RefillCost(n: nat, k: nat): nat {
    if k == 0 then 1 else RefillCost(n, k - 1) + WakeCost(n) + 7
  }

  // What every step of an open pool uses up; n bounds the list, and each member
  // counts for three.
  function Cost(c: Params, n: nat, pc: Pc): nat {
    var d := n + 3;
    var r := RefillCost(n, Target(c));
    match pc
    case Done => 0
    case Entering(_) => d + n + 15
    case Scanning(_, i, queued) => d + (if queued then 7 else 13) + Max(n - i, 0) + 1
    case Asleep(_) => d + 7
    case Woken(_) => d + 7 + WakeCost(n)
    case ColdStart(_) => d + 12
    case ColdSpawning(_, _) => d + 11
    case ColdSpawned(_, _) => d + 10
    case ColdFailed => 1
    case ColdCleaning(_) => 1
    case Acquired(_, _) => d + 6
    case Restoring(_, _) => d + 5
    case Restored(_, _) => 4
    case Counted(_, _) => 3
    case Leasing(_, _, _) => 2
    case Releasing(_) => d + 2
    case Signalling(_) => d + 1
    case Completing(_) => r + d + 15
    case Unleased(_) => r + d + 14
    case Recycling(_) => r + d + 13
    case Killing(_) => r + d + 12
    case Waiting(_, forced) => r + d + 11 - Bit(forced)
    case Resetting(_) => r + d + 9
    case Counting(_) => r + d + 8
    case Checking(_) => r + d + 7
    case Rewarming(_) => r + d + 6
    case Readying(_) => d + 2
    case Removing(_) => r + 3
    case Cleaning(_) => r + 2
    case Sizing => r + 1
    case Refilling(k) => RefillCost(n, k)
    case RefillSpawning(k, _) => RefillCost(n, k) + WakeCost(n) + 6
    case RefillSpawned(k, _) => RefillCost(n, k) + WakeCost(n) + 5
    case RefillCleaning(_) => 1
    case Reaping => 1
    case Evicting(todo) => |todo| + 2
    case Cancelling => 6
    case Stopping => 5
    case Joining => 4
    case Closing => 3
    case Flushing => 1
  }

  function Costs(c: Params, n: nat): Pc -> int { pc => Cost(c, n, pc) as int }

  function Work(c: Params, n: nat, a: State): int {
    if a.g.closed then Measure(c, a) else Sum(a.threads, Costs(c, n)) + 3 * |a.g.list|
  }

  lemma {:induction false} RefillCostGrows(n: nat, k: nat, m: nat)
    requires k <= m
    ensures RefillCost(n, k) <= RefillCost(n, m) && RefillCost(n, m) >= 9 * m + 1
    decreases m
  {
    if m > 0 {
      RefillCostGrows(n, if k == m then m - 1 else k, m - 1);
    }
  }

  // ---- one region of an open pool ----------------------------------------

  function Pays(n: nat, wake: Wake): nat {
    if wake.One? then WakeCost(n) else 0
  }

  ghost predicate Spends(c: Params, n: nat, g: Shared, pc: Pc, o: Outcome) {
    && |o.g.list| + Appends(c, o.pc) <= |g.list| + Appends(c, pc)
    && (o.wake.Everybody? ==> pc.Closing?)
    && (o.g.closed ==> pc.Closing?)
    && (pc.Closing? || (pc.Reaping? && o == Go(g, pc))
        || Cost(c, n, o.pc) + 3 * |o.g.list| + Pays(n, o.wake) < Cost(c, n, pc) + 3 * |g.list|)
  }

  // An open pool with room for n members.
  ghost predicate Early(n: nat, g: Shared, t: nat, pc: Pc, ch: Choice) {
    Runs(g, t, pc, ch) && !g.closed && |g.list| <= n
  }

  lemma AcquireSpends(c: Params, n: nat, g: Shared, t: nat, pc: Pc, ch: Choice)
    requires Early(n, g, t, pc, ch) && InAcquire(pc)
    ensures Spends(c, n, g, pc, Region(c, g, t, pc, ch))
  {
    hide RefillCost;
  }

  lemma ColdPathSpends(c: Params, n: nat, g: Shared, t: nat, pc: Pc, ch: Choice)
    requires Early(n, g, t, pc, ch) && InColdPath(pc)
    ensures Spends(c, n, g, pc, Region(c, g, t, pc, ch))
  {
    hide RefillCost, Refers, Spawned, Cleaned, Flushed, Reassign;
  }

  lemma ServeSpends(c: Params, n: nat, g: Shared, t: nat, pc: Pc, ch: Choice)
    requires Early(n, g, t, pc, ch) && InServe(pc)
    ensures Spends(c, n, g, pc, Region(c, g, t, pc, ch))
  {
    hide RefillCost, Refers, Spawned, Cleaned, Flushed,
      Reassign, Stale, Without;
  }

  lemma RegisterSpends(c: Params, n: nat, g: Shared, t: nat, pc: Pc, ch: Choice)
    requires Early(n, g, t, pc, ch) && (InRegister(pc) || InComplete(pc))
    ensures Spends(c, n, g, pc, Region(c, g, t, pc, ch))
  {
    hide RefillCost, Refers, Spawned, Cleaned, Flushed,
      Reassign, Stale, Without;
  }

  lemma DrainSpends(c: Params, n: nat, g: Shared, t: nat, pc: Pc, ch: Choice)
    requires Early(n, g, t, pc, ch) && InDrain(pc)
    ensures Spends(c, n, g, pc, Region(c, g, t, pc, ch))
  {
    hide RefillCost, Refers, Spawned, Cleaned, Flushed,
      Reassign, Stale, Without;
  }

  lemma RewarmSpends(c: Params, n: nat, g: Shared, t: nat, pc: Pc, ch: Choice)
    requires Early(n, g, t, pc, ch) && InRewarm(pc)
    ensures Spends(c, n, g, pc, Region(c, g, t, pc, ch))
  {
    hide RefillCost, Refers, Spawned, Cleaned, Flushed, Reassign, Stale;
  }

  lemma RefillSpends(c: Params, n: nat, g: Shared, t: nat, pc: Pc, ch: Choice)
    requires Early(n, g, t, pc, ch) && InRefill(pc)
    ensures Spends(c, n, g, pc, Region(c, g, t, pc, ch))
  {
    if pc.Sizing? || pc.Refilling? {
      SizingSpends(c, n, g, t, pc, ch);
    } else {
      hide RefillCost, Refers, Spawned, Cleaned, Flushed,
        Reassign, Stale, Without;
    }
  }

  lemma SizingSpends(c: Params, n: nat, g: Shared, t: nat, pc: Pc, ch: Choice)
    requires Early(n, g, t, pc, ch) && (pc.Sizing? || pc.Refilling?)
    ensures Spends(c, n, g, pc, Region(c, g, t, pc, ch))
  {
    if pc.Sizing? {
      RefillCostGrows(n, Shortfall(c, g), Target(c));
    } else if pc.k > 0 {
      RefillCostOnce(n, pc.k);
    }
    hide RefillCost, Refers, Spawned, Cleaned, Flushed,
      Reassign, Stale, Without;
  }

  lemma RefillCostOnce(n: nat, k: nat)
    requires k > 0
    ensures RefillCost(n, k) == RefillCost(n, k - 1) + WakeCost(n) + 7
  {
  }

  lemma ReapSpends(c: Params, n: nat, g: Shared, t: nat, pc: Pc, ch: Choice)
    requires Early(n, g, t, pc, ch) && InReap(pc)
    ensures Spends(c, n, g, pc, Region(c, g, t, pc, ch))
  {
    if pc.Reaping? {
      TickSpends(c, n, g, t, pc, ch);
    } else {
      EvictSpends(c, n, g, t, pc, ch);
    }
    hide Spends, Reap, Refers;
  }

  lemma EvictSpends(c: Params, n: nat, g: Shared, t: nat, pc: Pc, ch: Choice)
    requires Early(n, g, t, pc, ch) && pc.Evicting?
    ensures Spends(c, n, g, pc, Reap(g, t, pc, ch))
  {
    hide RefillCost, Refers, Cleaned;
  }

  lemma TickSpends(c: Params, n: nat, g: Shared, t: nat, pc: Pc, ch: Choice)
    requires Early(n, g, t, pc, ch) && pc.Reaping?
    ensures Spends(c, n, g, pc, Reap(g, t, pc, ch))
  {
    var todo := Without(g.list, (set x | x in g.list) - Stale(g, ch.idle));
    PassCovers(g, Stale(g, ch.idle));
    ReaperCosts(c, n, todo);
    hide Cost, Refers, Reassign, Stale, Without;
  }

  lemma ReaperCosts(c: Params, n: nat, todo: seq<nat>)
    ensures Cost(c, n, Reaping) == 1 && Cost(c, n, Evicting(todo)) == |todo| + 2 && Cost(c, n, Done) == 0
    ensures Appends(c, Reaping) == Appends(c, Evicting(todo)) == Appends(c, Done) == 0
  {
  }

  lemma ShutdownSpends(c: Params, n: nat, g: Shared, t: nat, pc: Pc, ch: Choice)
    requires Early(n, g, t, pc, ch) && InShutdown(pc)
    requires pc.Flushing? ==> g.doomed == []
    ensures Spends(c, n, g, pc, Region(c, g, t, pc, ch))
  {
    hide RefillCost, Refers, Spawned, Cleaned, Flushed,
      Reassign, Stale, Without;
  }

  lemma RegionSpends(c: Params, n: nat, g: Shared, t: nat, pc: Pc, ch: Choice)
    requires Early(n, g, t, pc, ch) && (pc.Flushing? ==> g.doomed == [])
    ensures Spends(c, n, g, pc, Region(c, g, t, pc, ch))
  {
    hide Region, Spends, Refers;
    if InAcquire(pc) {
      AcquireSpends(c, n, g, t, pc, ch);
    } else if InColdPath(pc) {
      ColdPathSpends(c, n, g, t, pc, ch);
    } else if InServe(pc) {
      ServeSpends(c, n, g, t, pc, ch);
    } else if InRegister(pc) || InComplete(pc) {
      RegisterSpends(c, n, g, t, pc, ch);
    } else if InDrain(pc) {
      DrainSpends(c, n, g, t, pc, ch);
    } else if InRewarm(pc) {
      RewarmSpends(c, n, g, t, pc, ch);
    } else if InRefill(pc) {
      RefillSpends(c, n, g, t, pc, ch);
    } else if InReap(pc) {
      ReapSpends(c, n, g, t, pc, ch);
    } else {
      ShutdownSpends(c, n, g, t, pc, ch);
    }
  }

  // ---- one step -----------------------------------------------------------

  lemma AddsWeight(c: Params)
    ensures Neutral(Adds(c))
  {
  }

  lemma {:induction false} SumBelow(xs: seq<Pc>, ys: seq<Pc>, v: Pc -> int, w: Pc -> int)
    requires |xs| == |ys|
    requires forall i :: 0 <= i < |xs| ==> v(xs[i]) <= w(ys[i])
    ensures Sum(xs, v) <= Sum(ys, w)
  {
    if xs != [] {
      assert v(xs[0]) <= w(ys[0]);
      forall i | 0 <= i < |xs[1..]| ensures v(xs[1..][i]) <= w(ys[1..][i]) {
        assert xs[1..][i] == xs[i + 1] && ys[1..][i] == ys[i + 1];
      }
      SumBelow(xs[1..], ys[1..], v, w);
    }
  }

  // A Signal wakes at most one caller.
  lemma RouseOne(c: Params, n: nat, ts: seq<Pc>, w: nat)
    ensures Sum(Rouse(ts, One, w), Costs(c, n)) <= Sum(ts, Costs(c, n)) + WakeCost(n)
  {
    if w < |ts| {
      SumUpdate(ts, w, Roused(ts[w]), Costs(c, n));
      RousedCost(c, n, ts[w]);
      hide Cost;
    }
  }

  lemma RousedCost(c: Params, n: nat, pc: Pc)
    ensures Cost(c, n, Roused(pc)) <= Cost(c, n, pc) + WakeCost(n)
  {
  }

  // What is left to do after the close is never more than before it.
  lemma ClosedBelowOpen(c: Params, n: nat, pc: Pc)
    ensures Remaining(c, Roused(pc)) <= Cost(c, n, pc)
  {
    RefillCostGrows(n, Target(c), Target(c));
    if pc.Refilling? || pc.RefillSpawning? || pc.RefillSpawned? {
      RefillCostGrows(n, pc.k, pc.k);
    }
    hide RefillCost;
  }

  // Every step of an open pool uses up work or is an idle tick, and leaves room.
  lemma OpenStep(c: Params, n: nat, a: State, b: State, t: nat, ch: Choice)
    requires Reachable(c, a) && !a.g.closed && Step(c, a, b, t, ch) && Room(c, a) <= n
    ensures t < |a.threads| && Room(c, b) <= n
    ensures Work(c, n, b) < Work(c, n, a) || (b == a && a.threads[t].Reaping?)
  {
    RoomHolds(c, a);
    NotDoomed(c, a, t);
    var pc := a.threads[t];
    var o := Region(c, a.g, t, pc, ch);
    RegionSpends(c, n, a.g, t, pc, ch);
    AddsWeight(c);
    SumStep(c, a, b, t, ch, Adds(c));
    hide Reachable, Region, Refers, CanRun;
    if pc.Closing? {
      CloseStep(c, n, a, b, t, ch);
    } else {
      SpendStep(c, n, a, b, t, ch, o);
    }
  }

  lemma RoomHolds(c: Params, a: State)
    ensures |a.g.list| <= Room(c, a)
  {
    SumBound(a.threads, Adds(c));
  }

  lemma NotDoomed(c: Params, a: State, t: nat)
    requires Reachable(c, a) && !a.g.closed
    ensures a.g.doomed == []
  {
    Safety.ReachableInv(c, a);
    hide Counters, Bounds, Wakes, Reachable, Invariant.OwnOk, Invariant.Booked, Invariant.Granted;
    assert Invariant.LocalOk(c, a.g, t, PcOf(a, t));
  }

  lemma SpendStep(c: Params, n: nat, a: State, b: State, t: nat, ch: Choice, o: Outcome)
    requires Step(c, a, b, t, ch) && o == Region(c, a.g, t, a.threads[t], ch)
    requires Spends(c, n, a.g, a.threads[t], o) && !a.threads[t].Closing? && !a.g.closed
    ensures Work(c, n, b) < Work(c, n, a) || (b == a && a.threads[t].Reaping?)
  {
    hide Region, Refers, CanRun, Cost, Measure;
    var pc := a.threads[t];
    var ts := a.threads[t := o.pc];
    SumUpdate(a.threads, t, o.pc, Costs(c, n));
    if o.wake.One? {
      RouseOne(c, n, ts, ch.wakee);
    }
    if pc.Reaping? && o == Go(a.g, pc) {
      assert a.threads[t := pc] == a.threads;
    }
  }

  lemma CloseStep(c: Params, n: nat, a: State, b: State, t: nat, ch: Choice)
    requires Step(c, a, b, t, ch) && a.threads[t].Closing? && !a.g.closed
    ensures Work(c, n, b) < Work(c, n, a)
  {
    CloseOutcome(c, a.g, t, ch);
    hide Region, Refers, CanRun, WakeOk, Rouse, Measure, Cost, Remaining;
    var ts := a.threads[t := Flushing];
    assert b.g.doomed == a.g.list && b.g.closed && b.threads == Rouse(ts, Everybody, ch.wakee);
    SumUpdate(a.threads, t, Flushing, Costs(c, n));
    ShutdownCosts(c, n);
    ClosedSums(c, n, ts, ch.wakee);
    MeasureIs(c, b);
  }

  lemma MeasureIs(c: Params, a: State)
    ensures Measure(c, a) == Sum(a.threads, Left(c)) + |a.g.doomed|
  {
  }

  lemma ShutdownCosts(c: Params, n: nat)
    ensures Cost(c, n, Flushing) == 1 && Cost(c, n, Closing) == 3
  {
  }

  lemma ClosedSums(c: Params, n: nat, ts: seq<Pc>, w: nat)
    ensures Sum(Rouse(ts, Everybody, w), Left(c)) <= Sum(ts, Costs(c, n))
  {
    hide Cost, Remaining;
    var us := Rouse(ts, Everybody, w);
    forall u | 0 <= u < |ts| ensures Left(c)(us[u]) <= Costs(c, n)(ts[u]) {
      ClosedBelowOpen(c, n, ts[u]);
    }
    SumBelow(us, ts, Left(c), Costs(c, n));
  }

  lemma CloseOutcome(c: Params, g: Shared, t: nat, ch: Choice)
    requires Refers(g, Closing)
    ensures Region(c, g, t, Closing, ch) ==
            Outcome(g.(closed := true, doomed := g.list, list := []), Flushing, Everybody)
  {
  }

  // ---- a run without arrivals --------------------------------------------

  lemma QuietMoveSpends(c: Params, n: nat, a: State, b: State)
    requires Reachable(c, a) && Moves(c, a, b) && (a.g.closed || Room(c, a) <= n)
    ensures Reachable(c, b) && (b.g.closed || Room(c, b) <= n)
    ensures Work(c, n, b) + Bit(a != b) <= Work(c, n, a)
  {
    hide Step, Reachable, Measure, Arrival, Cost;
    Safety.ReachableNext(c, a, b);
    if a.g.closed {
      DrainMove(c, a, b);
    } else {
      var t: nat, ch :| Step(c, a, b, t, ch);
      OpenStep(c, n, a, b, t, ch);
    }
  }

  lemma WorkNat(c: Params, n: nat, a: State)
    ensures Work(c, n, a) >= 0
  {
    SumBound(a.threads, Costs(c, n));
    MeasureNat(c, a);
  }

  // Without new calls a run from any reachable state, open or closed, changes the
  // state at most Work times, whatever the interleaving.
  lemma {:induction false} RunsEnd(c: Params, n: nat, run: seq<State>)
    requires Drains(c, run) && Reachable(c, run[0]) && (run[0].g.closed || Room(c, run[0]) <= n)
    ensures Changes(run) + Work(c, n, run[|run| - 1]) <= Work(c, n, run[0])
    ensures Changes(run) <= Work(c, n, run[0]) && Reachable(c, run[|run| - 1])
  {
    hide Moves, Reachable, Work, Room;
    WorkNat(c, n, run[|run| - 1]);
    if |run| > 1 {
      assert Moves(c, run[0], run[0 + 1]);
      QuietMoveSpends(c, n, run[0], run[1]);
      forall i | 0 <= i < |run[1..]| - 1
        ensures Moves(c, run[1..][i], run[1..][i + 1])
      {
        assert run[1..][i] == run[i + 1] && run[1..][i + 1] == run[(i + 1) + 1];
      }
      RunsEnd(c, n, run[1..]);
    }
  }

  // Once Shutdown has begun, a state in which no step changes anything any more
  // is closed, with every thread done and every sentry cleaned up.
  lemma ShutdownEndsDrained(c: Params, a: State)
    requires Reachable(c, a) && a.g.book.shutdown
    requires forall b :: Moves(c, a, b) ==> b == a
    ensures a.g.closed && a.g.pending == 0 && a.g.joining == 0
    ensures forall t :: 0 <= t < |a.threads| ==> a.threads[t].Done?
    ensures forall s :: 0 <= s < |a.g.sentries| && a.g.sentries[s].birth.Live? ==>
              a.g.sentries[s].cleaned + a.g.sentries[s].drained >= 1
  {
    if !a.g.closed {
      NotAtRest(c, a);
    }
    DrainEndsIdle(c, a);
  }

  lemma NotAtRest(c: Params, a: State)
    requires Reachable(c, a) && a.g.book.shutdown && !a.g.closed
    ensures exists b :: Moves(c, a, b) && b != a
  {
    var u := CloserAt(c, a);
    Safety.ReachableInv(c, a);
    Progress.SomeBusyRuns(c, a, u);
    hide Reachable, Inv, Step, Progress.Busy;
    var b, t: nat, ch :| Step(c, a, b, t, ch) && t < |a.threads| && Progress.Busy(a.threads[t]);
    BusyIsNoTick(a.threads[t]);
    OpenStep(c, Max(Room(c, a), 0), a, b, t, ch);
    assert Moves(c, a, b);
  }

  lemma BusyIsNoTick(pc: Pc)
    requires Progress.Busy(pc)
    ensures !pc.Reaping?
  {
  }

  lemma CloserAt(c: Params, a: State) returns (t: nat)
    requires Reachable(c, a) && a.g.book.shutdown && !a.g.closed
    ensures t < |a.threads| && Progress.Busy(a.threads[t])
  {
    Safety.ReachableInv(c, a);
    hide Core, Wakes, Bounds, Reachable;
    t := SumWitness(a.threads, Closer);
  }
}
