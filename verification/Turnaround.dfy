// Main result about two leases of one sentry: in between, one recycler sent the
// kill, saw the guest's wait return and reset the kernel, in that order.
module Turnaround {
  import opened Basics
  import opened Protocol
  import opened Invariant
  import opened System
  import Guests
  import Safety
  import Ownership
  import InvariantRegions
  import Leases
  import Continuing

  // The step from a to b registers a lease of sentry s.
  ghost predicate Registers(a: State, b: State, s: nat) {
    exists e: Grant :: b.g.book.grants == a.g.book.grants + [e] && e.sentry == s
  }

  // What thread t does to sentry s between a and b.
  predicate SendsTerm(a: State, b: State, t: nat, s: nat) {
    t < |a.threads| && t < |b.threads| && a.threads[t] == Killing(s) && b.threads[t].Waiting? && b.threads[t].s == s
  }

  predicate WaitReturns(a: State, b: State, t: nat, s: nat) {
    && t < |a.threads| && t < |b.threads|
    && a.threads[t].Waiting? && a.threads[t].s == s && b.threads[t] == Resetting(s)
  }

  predicate Resets(a: State, b: State, t: nat, s: nat) {
    t < |a.threads| && t < |b.threads| && a.threads[t] == Resetting(s) && b.threads[t] == Counting(s)
  }

  // ---- one region ---------------------------------------------------------

  ghost predicate WaitsOn(pc: Pc, s: nat) {
    pc.Waiting? && pc.s == s
  }

  // The guest has served a lease and was not reset since.
  predicate Used(g: Shared, s: nat)
    requires s < |g.sentries|
  {
    Guests.Tainted(g.sentries[s].calls)
  }

  // The recycler's path has no shortcut, and only a reset clears the guest.
  ghost predicate NoShortcut(g: Shared, pc: Pc, o: Outcome, s: nat) {
    && (o.pc == Resetting(s) ==> WaitsOn(pc, s))
    && (WaitsOn(o.pc, s) ==> pc == Killing(s) || WaitsOn(pc, s))
    && |g.sentries| <= |o.g.sentries|
    && (s < |g.sentries| && Used(g, s) && !Used(o.g, s) ==>
          pc == Resetting(s) && o.pc == Counting(s))
  }

  lemma DrainPath(c: Params, g: Shared, t: nat, pc: Pc, ch: Choice, s: nat)
    requires Runs(g, t, pc, ch) && InDrain(pc)
    ensures NoShortcut(g, pc, Region(c, g, t, pc, ch), s)
  {
    Guests.TaintedCalled(c);
    hide Guests.Tainted, Cleaned, Flushed, Reassign, Stale, Without;
  }

  lemma ServePath(c: Params, g: Shared, t: nat, pc: Pc, ch: Choice, s: nat)
    requires Runs(g, t, pc, ch) && (InServe(pc) || InRegister(pc) || InComplete(pc))
    ensures NoShortcut(g, pc, Region(c, g, t, pc, ch), s)
  {
    Guests.TaintedCalled(c);
    hide Guests.Tainted, Spawned, Cleaned, Flushed, Reassign, Stale, Without;
  }

  lemma AcquirePath(c: Params, g: Shared, t: nat, pc: Pc, ch: Choice, s: nat)
    requires Runs(g, t, pc, ch) && (InAcquire(pc) || InColdPath(pc))
    ensures NoShortcut(g, pc, Region(c, g, t, pc, ch), s)
  {
    Guests.TaintedCalled(c);
    hide Guests.Tainted, Flushed, Reassign, Stale, Without;
  }

  lemma RefillPath(c: Params, g: Shared, t: nat, pc: Pc, ch: Choice, s: nat)
    requires Runs(g, t, pc, ch) && InRefill(pc)
    ensures NoShortcut(g, pc, Region(c, g, t, pc, ch), s)
  {
    Guests.TaintedCalled(c);
    hide Guests.Tainted, Flushed, Reassign, Stale, Without;
  }

  lemma RewarmPath(c: Params, g: Shared, t: nat, pc: Pc, ch: Choice, s: nat)
    requires Runs(g, t, pc, ch) && InRewarm(pc)
    ensures NoShortcut(g, pc, Region(c, g, t, pc, ch), s)
  {
    Guests.TaintedCalled(c);
    hide Guests.Tainted, Spawned, Flushed, Stale, Without;
  }

  lemma ReapPath(c: Params, g: Shared, t: nat, pc: Pc, ch: Choice, s: nat)
    requires Runs(g, t, pc, ch) && InReap(pc)
    ensures NoShortcut(g, pc, Region(c, g, t, pc, ch), s)
  {
    Guests.TaintedCalled(c);
    hide Guests.Tainted, Spawned, Flushed, Stale, Without;
  }

  lemma ShutdownPath(c: Params, g: Shared, t: nat, pc: Pc, ch: Choice, s: nat)
    requires Runs(g, t, pc, ch) && InShutdown(pc)
    ensures NoShortcut(g, pc, Region(c, g, t, pc, ch), s)
  {
    Guests.TaintedCalled(c);
    hide Guests.Tainted, Spawned, Cleaned, Stale, Without;
  }

  lemma RegionPath(c: Params, g: Shared, t: nat, pc: Pc, ch: Choice, s: nat)
    requires Runs(g, t, pc, ch)
    ensures NoShortcut(g, pc, Region(c, g, t, pc, ch), s)
  {
    hide Region, NoShortcut, Refers;
    if InDrain(pc) {
      DrainPath(c, g, t, pc, ch, s);
    } else if InServe(pc) || InRegister(pc) || InComplete(pc) {
      ServePath(c, g, t, pc, ch, s);
    } else if InAcquire(pc) || InColdPath(pc) {
      AcquirePath(c, g, t, pc, ch, s);
    } else if InRefill(pc) {
      RefillPath(c, g, t, pc, ch, s);
    } else if InRewarm(pc) {
      RewarmPath(c, g, t, pc, ch, s);
    } else if InReap(pc) {
      ReapPath(c, g, t, pc, ch, s);
    } else {
      ShutdownPath(c, g, t, pc, ch, s);
    }
  }

  // ---- one step -----------------------------------------------------------

  lemma UsedUntilReset(c: Params, a: State, b: State, s: nat)
    requires Next(c, a, b) && s < |a.g.sentries| && Used(a.g, s)
    ensures s < |b.g.sentries|
    ensures !Used(b.g, s) ==> exists t :: Resets(a, b, t, s)
  {
    hide Arrival, Step;
    if Arrival(a, b) {
      Leases.ArrivalBook(a, b);
    } else {
      var t: nat, ch :| Step(c, a, b, t, ch);
      UsedStep(c, a, b, t, ch, s);
    }
  }

  lemma UsedStep(c: Params, a: State, b: State, t: nat, ch: Choice, s: nat)
    requires Step(c, a, b, t, ch) && s < |a.g.sentries| && Used(a.g, s)
    ensures s < |b.g.sentries|
    ensures !Used(b.g, s) ==> Resets(a, b, t, s)
  {
    RegionPath(c, a.g, t, a.threads[t], ch, s);
    AfterStep(c, a, b, t, ch, t);
    hide Region, Refers, CanRun;
    assert |b.threads| == |a.threads|;
  }

  // A thread comes to the reset only from the wait, and to the wait only from
  // the kill.
  lemma PathStep(c: Params, a: State, b: State, t: nat, s: nat)
    requires Next(c, a, b)
    ensures PcOf(b, t) == Resetting(s) && PcOf(a, t) != Resetting(s) ==> WaitReturns(a, b, t, s)
    ensures WaitsOn(PcOf(b, t), s) && !WaitsOn(PcOf(a, t), s) ==> SendsTerm(a, b, t, s)
  {
    hide Arrival, Step;
    if Arrival(a, b) {
      ArrivalPath(a, b, t, s);
    } else {
      var u: nat, ch :| Step(c, a, b, u, ch);
      RegionStep(c, a, b, u, ch, t, s);
    }
  }

  lemma ArrivalPath(a: State, b: State, t: nat, s: nat)
    requires Arrival(a, b)
    ensures PcOf(b, t) == PcOf(a, t) || !(PcOf(b, t).Resetting? || PcOf(b, t).Waiting?)
  {
    Leases.ArrivalBook(a, b);
    assert t < |a.threads| ==> b.threads[..|a.threads|][t] == a.threads[t];
  }

  lemma RegionStep(c: Params, a: State, b: State, u: nat, ch: Choice, t: nat, s: nat)
    requires Step(c, a, b, u, ch)
    ensures PcOf(b, t) == Resetting(s) && PcOf(a, t) != Resetting(s) ==> WaitReturns(a, b, t, s)
    ensures WaitsOn(PcOf(b, t), s) && !WaitsOn(PcOf(a, t), s) ==> SendsTerm(a, b, t, s)
  {
    AfterStep(c, a, b, u, ch, t);
    RegionPath(c, a.g, u, a.threads[u], ch, s);
    hide Region, Refers, CanRun;
    assert |b.threads| == |a.threads|;
  }

  // ---- the two ends -------------------------------------------------------

  // Right after its registration a sentry is used and in no thread's hands.
  lemma AfterLease(c: Params, a: State, b: State, s: nat)
    requires Reachable(c, a) && Next(c, a, b) && Registers(a, b, s)
    ensures s < |b.g.sentries| && Used(b.g, s)
    ensures forall t: nat :: !Holds(PcOf(b, t), s)
  {
    Safety.ReachableNext(c, a, b);
    Safety.ReachableInv(c, b);
    hide Arrival, Step, Inv, Reachable;
    if Arrival(a, b) {
      Leases.ArrivalBook(a, b);
      assert false;
    } else {
      var t: nat, ch :| Step(c, a, b, t, ch);
      LeaseStep(c, a, b, t, ch, s);
      Ownership.SentryFact(c, b, s);
    }
  }

  lemma LeaseStep(c: Params, a: State, b: State, t: nat, ch: Choice, s: nat)
    requires Step(c, a, b, t, ch) && Registers(a, b, s)
    ensures a.threads[t].Leasing? && a.threads[t].s == s
    ensures s < |b.g.sentries| && Used(b.g, s) && b.g.sentries[s].owner.Lease?
  {
    Leases.RegionTable(c, a.g, t, a.threads[t], ch);
    var e: Grant :| b.g.book.grants == a.g.book.grants + [e] && e.sentry == s;
    assert b.g.book.grants[|a.g.book.grants|] == e;
    LeasingMarks(c, a.g, t, a.threads[t], ch);
    hide Region, Refers, CanRun;
  }

  lemma LeasingMarks(c: Params, g: Shared, t: nat, pc: Pc, ch: Choice)
    requires Runs(g, t, pc, ch)
    ensures pc.Leasing? ==>
              var o := Region(c, g, t, pc, ch);
              pc.s < |o.g.sentries| && Used(o.g, pc.s) && o.g.sentries[pc.s].owner.Lease?
  {
  }

  // Right before it, it is unused.
  lemma BeforeLease(c: Params, a: State, b: State, s: nat)
    requires Reachable(c, a) && Next(c, a, b) && Registers(a, b, s)
    ensures s < |a.g.sentries| && !Used(a.g, s)
  {
    Safety.ReachableInv(c, a);
    hide Arrival, Step, Inv, Reachable;
    if Arrival(a, b) {
      Leases.ArrivalBook(a, b);
      assert false;
    } else {
      var t: nat, ch :| Step(c, a, b, t, ch);
      LeaseStep(c, a, b, t, ch, s);
      HeldUnused(c, a, t);
    }
  }

  lemma HeldUnused(c: Params, a: State, t: nat)
    requires Inv(c, a) && t < |a.threads| && a.threads[t].Leasing?
    ensures a.threads[t].s < |a.g.sentries| && !Used(a.g, a.threads[t].s)
  {
    hide Counters, Bounds, Wakes, LocalOk, Guests.Tainted, Guests.StageOf;
    assert LocalOk(c, a.g, t, PcOf(a, t));
    var s := a.threads[t].s;
    InvariantRegions.Held(c, a.g, t, a.threads[t], s);
    Guests.TaintedStage(c, a.g.sentries[s].calls);
  }

  lemma ResettingIsWarm(c: Params, a: State, t: nat, s: nat)
    requires Reachable(c, a) && PcOf(a, t) == Resetting(s)
    ensures c.warm
  {
    Safety.ReachableInv(c, a);
    hide Counters, Bounds, Wakes, LocalOk, Reachable;
    assert LocalOk(c, a.g, t, PcOf(a, t));
    ResettingFact(c, a.g, t, s);
  }

  lemma ResettingFact(c: Params, g: Shared, t: nat, s: nat)
    requires LocalOk(c, g, t, Resetting(s))
    ensures c.warm
  {
    hide LocalOk;
    InvariantRegions.Held(c, g, t, Resetting(s), s);
  }

  // ---- over a run ---------------------------------------------------------

  // A used sentry that is found unused later was reset in between.
  lemma {:induction false} ResetBetween(c: Params, run: seq<State>, i: nat, j: nat, s: nat) returns (k: nat, t: nat)
    requires IsRun(c, run) && i < j < |run|
    requires s < |run[i].g.sentries| && Used(run[i].g, s)
    requires s < |run[j].g.sentries| && !Used(run[j].g, s)
    ensures i <= k < j && Resets(run[k], run[k + 1], t, s)
    decreases j - i
  {
    hide Next, Resets;
    assert Next(c, run[i], run[i + 1]);
    UsedUntilReset(c, run[i], run[i + 1], s);
    if Used(run[i + 1].g, s) {
      k, t := ResetBetween(c, run, i + 1, j, s);
    } else {
      k := i;
      t :| Resets(run[i], run[i + 1], t, s);
    }
  }

  // If steps i and j of a run both register a lease of sentry s, then warm mode
  // is on and, strictly in between, one thread sent the kill, saw the wait
  // return, and reset the kernel successfully.
  lemma KilledReapedReset(c: Params, run: seq<State>, i: nat, j: nat, s: nat)
      returns (t: nat, kill: nat, wait: nat, reset: nat)
    requires IsRun(c, run) && Reachable(c, run[0]) && i < j < |run| - 1
    requires Registers(run[i], run[i + 1], s) && Registers(run[j], run[j + 1], s)
    ensures i < kill < wait < reset < j && c.warm
    ensures SendsTerm(run[kill], run[kill + 1], t, s)
    ensures WaitReturns(run[wait], run[wait + 1], t, s)
    ensures Resets(run[reset], run[reset + 1], t, s)
  {
    hide Next, Reachable, Registers;
    assert Next(c, run[i], run[i + 1]) && Next(c, run[j], run[j + 1]);
    Leases.RunReachable(c, run, i);
    Leases.RunReachable(c, run, j);
    AfterLease(c, run[i], run[i + 1], s);
    BeforeLease(c, run[j], run[j + 1], s);
    reset, t := ResetBetween(c, run, i + 1, j, s);
    Leases.RunReachable(c, run, reset);
    ResettingIsWarm(c, run[reset], t, s);
    ghost var u := t;
    assert !Holds(PcOf(run[i + 1], t), s);
    wait := Continuing.Becomes(run, i + 1, reset, a => PcOf(a, u) == Resetting(s));
    assert Next(c, run[wait], run[wait + 1]);
    PathStep(c, run[wait], run[wait + 1], t, s);
    kill := Continuing.Becomes(run, i + 1, wait, a => WaitsOn(PcOf(a, u), s));
    assert Next(c, run[kill], run[kill + 1]);
    PathStep(c, run[kill], run[kill + 1], t, s);
  }
}
