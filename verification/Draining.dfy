// After the close: a measure that every step lowers, so the drain ends; what it
// ends in; and the absorbing nature of the close.
module Draining {
  import opened Basics
  import opened Protocol
  import opened Invariant
  import opened Accounting
  import opened System
  import Safety
  import Ownership
  import Progress
  import Wakeup

  function Target(c: Params): nat { Max(c.poolSize, 0) }

  // The steps a thread has left once the pool is closed.
  function Remaining(c: Params, pc: Pc): nat {
    match pc
    case Done => 0
    case Entering(_) => 1
    case Scanning(_, _, _) => 0
    case Asleep(_) => 0
    case Woken(_) => 1
    case ColdStart(_) => 4
    case ColdSpawning(_, _) => 3
    case ColdSpawned(_, _) => 2
    case ColdFailed => 1
    case ColdCleaning(_) => 1
    case Acquired(_, _) => 6
    case Restoring(_, _) => 5
    case Restored(_, _) => 4
    case Counted(_, _) => 3
    case Leasing(_, _, _) => 2
    case Releasing(_) => 2
    case Signalling(_) => 1
    case Completing(_) => 3 * Target(c) + 14
    case Unleased(_) => 3 * Target(c) + 13
    case Recycling(_) => 3 * Target(c) + 12
    case Killing(_) => 3 * Target(c) + 11
    case Waiting(_, forced) => 3 * Target(c) + 10 - Bit(forced)
    case Resetting(_) => 3 * Target(c) + 8
    case Counting(_) => 3 * Target(c) + 7
    case Checking(_) => 3 * Target(c) + 6
    case Rewarming(_) => 3 * Target(c) + 5
    case Readying(_) => 2
    case Removing(_) => 3 * Target(c) + 4
    case Cleaning(_) => 3 * Target(c) + 3
    case Sizing => 3 * Target(c) + 2
    case Refilling(k) => 3 * k + 1
    case RefillSpawning(k, _) => 3 * k + 3
    case RefillSpawned(k, _) => 3 * k + 2
    case RefillCleaning(_) => 1
    case Reaping => 1
    case Evicting(todo) => |todo| + 2
    case Cancelling => 0
    case Stopping => 0
    case Joining => 0
    case Closing => 0
    case Flushing => 1
  }

  function Left(c: Params): Pc -> int { pc => Remaining(c, pc) as int }

  // All steps left, with one for each sentry that Shutdown has to clean up.
  function Measure(c: Params, a: State): int {
    Sum(a.threads, Left(c)) + |a.g.doomed|
  }

  // A region of a closed pool uses up a step, unless it is the reaper's tick,
  // which finds nothing and changes nothing.
  ghost predicate Lowers(c: Params, g: Shared, pc: Pc, o: Outcome) {
    || Remaining(c, o.pc) + |o.g.doomed| < Remaining(c, pc) + |g.doomed|
    || (pc.Reaping? && o == Go(g, pc))
  }

  ghost predicate Late(g: Shared, t: nat, pc: Pc, ch: Choice) {
    Runs(g, t, pc, ch) && g.closed && g.list == [] && !pc.Scanning? && Closer(pc) == 0
  }

  lemma AcquireLowers(c: Params, g: Shared, t: nat, pc: Pc, ch: Choice)
    requires Late(g, t, pc, ch) && InAcquire(pc)
    ensures Lowers(c, g, pc, Acquire(c, g, t, pc))
  {
    hide Refers, CanRun, Spawned, Cleaned, Flushed, Reassign;
  }

  lemma ColdPathLowers(c: Params, g: Shared, t: nat, pc: Pc, ch: Choice)
    requires Late(g, t, pc, ch) && InColdPath(pc)
    ensures Lowers(c, g, pc, ColdPath(c, g, t, pc, ch))
  {
    hide Refers, CanRun, Spawned, Cleaned, Flushed, Reassign;
  }

  lemma ServeLowers(c: Params, g: Shared, t: nat, pc: Pc, ch: Choice)
    requires Late(g, t, pc, ch) && InServe(pc)
    ensures Lowers(c, g, pc, Serve(c, g, t, pc, ch))
  {
    hide Refers, CanRun, Spawned, Cleaned, Flushed, Reassign;
  }

  lemma RegisterLowers(c: Params, g: Shared, t: nat, pc: Pc, ch: Choice)
    requires Late(g, t, pc, ch) && InRegister(pc)
    ensures Lowers(c, g, pc, Register(g, pc))
  {
    hide Refers, CanRun, Spawned, Cleaned, Flushed, Reassign;
  }

  lemma CompleteLowers(c: Params, g: Shared, t: nat, pc: Pc, ch: Choice)
    requires Late(g, t, pc, ch) && InComplete(pc)
    ensures Lowers(c, g, pc, Complete(g, t, pc))
  {
    hide Refers, CanRun, Spawned, Cleaned, Flushed, Reassign;
  }

  lemma DrainLowers(c: Params, g: Shared, t: nat, pc: Pc, ch: Choice)
    requires Late(g, t, pc, ch) && InDrain(pc)
    ensures Lowers(c, g, pc, Drain(c, g, pc, ch))
  {
    hide Refers, CanRun, Spawned, Cleaned, Flushed, Reassign;
  }

  lemma RewarmLowers(c: Params, g: Shared, t: nat, pc: Pc, ch: Choice)
    requires Late(g, t, pc, ch) && InRewarm(pc)
    ensures Lowers(c, g, pc, Rewarm(c, g, pc, ch))
  {
    hide Refers, CanRun, Spawned, Cleaned, Flushed, Reassign;
  }

  lemma RefillLowers(c: Params, g: Shared, t: nat, pc: Pc, ch: Choice)
    requires Late(g, t, pc, ch) && InRefill(pc)
    ensures Lowers(c, g, pc, Refill(c, g, t, pc, ch))
  {
    hide Refers, CanRun, Spawned, Cleaned, Flushed, Reassign;
  }

  lemma ReapLowers(c: Params, g: Shared, t: nat, pc: Pc, ch: Choice)
    requires Late(g, t, pc, ch) && InReap(pc)
    ensures Lowers(c, g, pc, Reap(g, t, pc, ch))
  {
    hide Refers, CanRun, Spawned, Cleaned, Flushed, Reassign;
  }

  lemma ShutdownLowers(c: Params, g: Shared, t: nat, pc: Pc, ch: Choice)
    requires Late(g, t, pc, ch) && InShutdown(pc)
    ensures Lowers(c, g, pc, Shutdown(g, pc))
  {
    hide Refers, CanRun, Spawned, Cleaned, Flushed, Reassign;
  }

  lemma RegionLowers(c: Params, g: Shared, t: nat, pc: Pc, ch: Choice)
    requires Late(g, t, pc, ch)
    ensures Lowers(c, g, pc, Region(c, g, t, pc, ch))
  {
    hide Lowers, Refers, Acquire, ColdPath, Serve, Register, Complete, Drain, Rewarm, Refill, Reap, Shutdown;
    if InAcquire(pc) {
      AcquireLowers(c, g, t, pc, ch);
    } else if InColdPath(pc) {
      ColdPathLowers(c, g, t, pc, ch);
    } else if InServe(pc) {
      ServeLowers(c, g, t, pc, ch);
    } else if InRegister(pc) {
      RegisterLowers(c, g, t, pc, ch);
    } else if InComplete(pc) {
      CompleteLowers(c, g, t, pc, ch);
    } else if InDrain(pc) {
      DrainLowers(c, g, t, pc, ch);
    } else if InRewarm(pc) {
      RewarmLowers(c, g, t, pc, ch);
    } else if InRefill(pc) {
      RefillLowers(c, g, t, pc, ch);
    } else if InReap(pc) {
      ReapLowers(c, g, t, pc, ch);
    } else {
      ShutdownLowers(c, g, t, pc, ch);
    }
  }

  // ---- the closed state ---------------------------------------------------

  // Closed implies an empty list, a free p.mu, no sleeper, no scan and no
  // Shutdown still on its way to the close.
  lemma ClosedShape(c: Params, a: State)
    requires Reachable(c, a) && a.g.closed
    ensures a.g.list == [] && a.g.lock.None? && a.g.stopped && a.g.book.shutdown
    ensures !HasSleeper(a.threads)
    ensures forall t :: 0 <= t < |a.threads| ==> !a.threads[t].Scanning? && Closer(a.threads[t]) == 0
  {
    Safety.ReachableInv(c, a);
    hide Counters, Bounds, Wakes, Granted, Booked, OwnOk;
    assert LocalOk(c, a.g, 0, PcOf(a, 0));
    forall t | 0 <= t < |a.threads|
      ensures !a.threads[t].Scanning? && Closer(a.threads[t]) == 0
    {
      assert LocalOk(c, a.g, t, PcOf(a, t));
      NoCloser(c, a, t);
    }
    NoCloser(c, a, |a.threads|);
  }

  lemma NoCloser(c: Params, a: State, t: nat)
    requires Counters(c, a) && a.g.closed
    ensures a.g.book.shutdown
    ensures t < |a.threads| ==> Closer(a.threads[t]) == 0
  {
    NonNegativeWeights();
    SumBound(a.threads, Closer);
  }

  // The close is absorbing: no step and no arrival opens the pool again, refills
  // its list, or puts a caller to sleep, and no acquire hands out a sentry.
  lemma ClosedIsAbsorbing(c: Params, a: State, b: State)
    requires Reachable(c, a) && a.g.closed && Next(c, a, b)
    ensures b.g.closed && b.g.list == [] && !HasSleeper(b.threads)
    ensures forall t :: 0 <= t < |a.threads| && b.threads[t].Acquired? ==> b.threads[t] == a.threads[t]
  {
    Safety.ReachableNext(c, a, b);
    ClosedShape(c, a);
    if Arrival(a, b) {
      hide Reachable;
      assert b.threads[..|a.threads|] == a.threads;
      ClosedShape(c, b);
    } else {
      var t: nat, ch :| Step(c, a, b, t, ch);
      Wakeup.RegionQuickens(c, a.g, t, a.threads[t], ch);
      NoHandOut(c, a.g, t, a.threads[t], ch);
      hide Region, Reachable;
      ClosedShape(c, b);
    }
  }

  lemma NoHandOut(c: Params, g: Shared, t: nat, pc: Pc, ch: Choice)
    requires Late(g, t, pc, ch)
    ensures !Region(c, g, t, pc, ch).pc.Acquired?
  {
    if InAcquire(pc) || InColdPath(pc) {
    } else {
      LeavesAcquired(c, g, t, pc, ch);
    }
  }

  lemma LeavesAcquired(c: Params, g: Shared, t: nat, pc: Pc, ch: Choice)
    requires Runs(g, t, pc, ch) && !InAcquire(pc) && !InColdPath(pc)
    ensures !Region(c, g, t, pc, ch).pc.Acquired?
  {
    hide Refers, Spawned, Flushed, Reassign, Cleaned, Stale, Without;
  }

  // ---- the drain ends -----------------------------------------------------

  // Every step of a closed pool lowers the measure or changes nothing.
  lemma DrainStep(c: Params, a: State, b: State, t: nat, ch: Choice)
    requires Reachable(c, a) && a.g.closed && Step(c, a, b, t, ch)
    ensures Measure(c, b) < Measure(c, a) || b == a
  {
    ClosedShape(c, a);
    RegionLowers(c, a.g, t, a.threads[t], ch);
    QuietStep(c, a, b, t, ch);
    hide Region, Refers, CanRun, Reachable, Remaining, Step;
    SumUpdate(a.threads, t, Region(c, a.g, t, a.threads[t], ch).pc, Left(c));
    assert a.threads[t := a.threads[t]] == a.threads;
  }

  // Without sleepers a step moves its own thread only.
  lemma QuietStep(c: Params, a: State, b: State, t: nat, ch: Choice)
    requires Step(c, a, b, t, ch) && !HasSleeper(a.threads)
    ensures b == State(Region(c, a.g, t, a.threads[t], ch).g, a.threads[t := Region(c, a.g, t, a.threads[t], ch).pc])
  {
    SleepShape(c, a.g, t, a.threads[t], ch);
    hide Region, Refers, CanRun;
    var o := Region(c, a.g, t, a.threads[t], ch);
    var ts := a.threads[t := o.pc];
    assert forall u :: 0 <= u < |ts| && u != t ==> !ts[u].Asleep?;
    assert Rouse(ts, o.wake, ch.wakee) == ts;
  }

  // And there is one for every thread that is not held up.
  lemma QuietlySteps(c: Params, a: State, t: nat, ch: Choice) returns (b: State)
    requires t < |a.threads| && Runs(a.g, t, a.threads[t], ch) && !HasSleeper(a.threads)
    ensures Step(c, a, b, t, ch) && Next(c, a, b)
    ensures b == State(Region(c, a.g, t, a.threads[t], ch).g, a.threads[t := Region(c, a.g, t, a.threads[t], ch).pc])
  {
    SleepShape(c, a.g, t, a.threads[t], ch);
    hide Region, Refers, CanRun;
    var o := Region(c, a.g, t, a.threads[t], ch);
    var ts := a.threads[t := o.pc];
    assert forall u :: 0 <= u < |ts| && u != t ==> !ts[u].Asleep?;
    b := State(o.g, ts);
    assert Rouse(ts, o.wake, ch.wakee) == ts;
    assert Step(c, a, b, t, ch);
    assert Moves(c, a, b);
  }

  lemma MeasureNat(c: Params, a: State)
    ensures Measure(c, a) >= 0
  {
    SumBound(a.threads, Left(c));
  }

  // How many states of a run differ from the one before.
  function Changes(run: seq<State>): nat {
    if |run| < 2 then 0 else Bit(run[0] != run[1]) + Changes(run[1..])
  }

  ghost predicate Drains(c: Params, run: seq<State>) {
    && |run| > 0
    && (forall i :: 0 <= i < |run| - 1 ==> Moves(c, run[i], run[i + 1]))
  }

  // Without new requests, a run from a closed state makes at most Measure
  // effective steps, whatever the interleaving.
  lemma {:induction false} DrainTerminates(c: Params, run: seq<State>)
    requires Drains(c, run) && Reachable(c, run[0]) && run[0].g.closed
    ensures Changes(run) + Measure(c, run[|run| - 1]) <= Measure(c, run[0])
    ensures Changes(run) <= Measure(c, run[0])
    ensures Reachable(c, run[|run| - 1]) && run[|run| - 1].g.closed
  {
    hide Moves, Reachable, Measure, Arrival;
    if |run| == 1 {
      MeasureNat(c, run[0]);
    } else {
      assert Moves(c, run[0], run[0 + 1]);
      DrainMove(c, run[0], run[1]);
      forall i | 0 <= i < |run[1..]| - 1
        ensures Moves(c, run[1..][i], run[1..][i + 1])
      {
        assert run[1..][i] == run[i + 1] && run[1..][i + 1] == run[(i + 1) + 1];
      }
      DrainTerminates(c, run[1..]);
    }
  }

  lemma DrainMove(c: Params, a: State, b: State)
    requires Reachable(c, a) && a.g.closed && Moves(c, a, b)
    ensures Measure(c, b) + Bit(a != b) <= Measure(c, a)
    ensures Reachable(c, b) && b.g.closed
  {
    hide Step, Reachable, Measure, Arrival;
    var t: nat, ch :| Step(c, a, b, t, ch);
    Safety.ReachableNext(c, a, b);
    ClosedIsAbsorbing(c, a, b);
    DrainStep(c, a, b, t, ch);
  }

  // A closed pool that no step can change has finished every thread, has no
  // pending caller and no recycler left.
  lemma DrainEndsIdle(c: Params, a: State)
    requires Reachable(c, a) && a.g.closed
    requires forall b :: Moves(c, a, b) ==> b == a
    ensures forall t :: 0 <= t < |a.threads| ==> a.threads[t].Done?
    ensures a.g.pending == 0 && a.g.joining == 0
    ensures forall s :: 0 <= s < |a.g.sentries| && a.g.sentries[s].birth.Live? ==>
              a.g.sentries[s].cleaned + a.g.sentries[s].drained >= 1
  {
    Safety.ReachableInv(c, a);
    forall t | 0 <= t < |a.threads| ensures a.threads[t].Done? {
      if !a.threads[t].Done? {
        Unfinished(c, a, t);
        assert false;
      }
    }
    hide Core;
    SumZero(a.threads, Pending);
    SumZero(a.threads, Recycler);
    forall s | 0 <= s < |a.g.sentries| && a.g.sentries[s].birth.Live?
      ensures a.g.sentries[s].cleaned + a.g.sentries[s].drained >= 1
    {
      Ownership.DrainLeaksNothing(c, a, s);
    }
  }

  // An unfinished thread of a closed pool has a step that changes the state.
  lemma Unfinished(c: Params, a: State, t: nat)
    requires Reachable(c, a) && Inv(c, a) && a.g.closed && t < |a.threads| && !a.threads[t].Done?
    ensures exists b :: Moves(c, a, b) && b != a
  {
    ClosedShape(c, a);
    Progress.RefersAlways(c, a, t);
    hide Inv, Reachable, Refers, Region;
    var pc := a.threads[t];
    var ch := Choice(!pc.Reaping?, {}, 0);
    assert PcOf(a, t) == pc;
    LateRuns(a.g, t, pc, ch);
    StopChanges(c, a.g, t, pc, ch);
    LateSteps(c, a, t, ch);
  }

  lemma LateRuns(g: Shared, t: nat, pc: Pc, ch: Choice)
    requires g.lock.None? && !pc.Done? && !pc.Asleep? && !pc.Scanning? && Closer(pc) == 0
    ensures CanRun(g, t, pc, ch)
  {
  }

  lemma LateSteps(c: Params, a: State, t: nat, ch: Choice)
    requires t < |a.threads| && Late(a.g, t, a.threads[t], ch) && !HasSleeper(a.threads)
    requires a.threads[t].Reaping? ==> Region(c, a.g, t, a.threads[t], ch).pc.Done?
    ensures exists b :: Moves(c, a, b) && b != a
  {
    var pc := a.threads[t];
    var o := Region(c, a.g, t, pc, ch);
    RegionLowers(c, a.g, t, pc, ch);
    SleepShape(c, a.g, t, pc, ch);
    hide Region, Refers, CanRun, Remaining;
    var ts := a.threads[t := o.pc];
    assert forall u :: 0 <= u < |ts| ==> !ts[u].Asleep?;
    var b := State(o.g, Rouse(ts, o.wake, ch.wakee));
    assert b.threads == ts;
    assert Step(c, a, b, t, ch);
    assert Moves(c, a, b);
    assert b != a by {
      assert b.threads[t] == o.pc && b.g == o.g;
      assert o.pc != pc || o.g.doomed != a.g.doomed;
    }
  }

  lemma StopChanges(c: Params, g: Shared, t: nat, pc: Pc, ch: Choice)
    requires Refers(g, pc) && g.stopped && (pc.Reaping? ==> !ch.ok)
    ensures pc.Reaping? ==> Region(c, g, t, pc, ch).pc.Done?
  {
  }
}
