// What a closed pool can still do: when a lease can be registered after
// Shutdown, and when a sentry can be cleaned up a second time.
module AfterClose {
  import opened Basics
  import opened Protocol
  import opened Invariant
  import opened Accounting
  import opened System
  import opened Draining
  import opened Continuing
  import Leases
  import Ownership
  import Progress
  import Safety

  // An executor on its way to registerLease that no check will turn away.
  predicate MayRegister(c: Params, pc: Pc) {
    match pc
    case Acquired(r, _) => Accepted(c, r)
    case Restoring(_, _) => true
    case Restored(_, _) => true
    case Counted(_, _) => true
    case Leasing(_, _, _) => true
    case _ => false
  }

  // A thread that can still come to clean up the sentry it holds: not one that is
  // about to set it Ready.
  predicate MayClean(c: Params, pc: Pc) {
    MayRegister(c, pc) || Cleans(pc)
  }

  // A recycler, a spawner or the reaper.
  predicate Cleans(pc: Pc) {
    || pc.Unleased? || (InDrain(pc) && SentryOf(pc).Some?)
    || pc.Checking? || pc.Rewarming? || pc.Removing? || pc.Cleaning?
    || pc.ColdSpawning? || pc.ColdSpawned? || pc.ColdCleaning?
    || pc.RefillSpawning? || pc.RefillSpawned? || pc.RefillCleaning?
    || pc.Evicting?
  }

  ghost predicate Leased(g: Shared, s: nat) {
    exists l :: l in g.book.leases && g.book.leases[l] == s
  }

  ghost predicate HeldForGood(c: Params, a: State, t: nat, s: nat) {
    t < |a.threads| && Holds(a.threads[t], s) && MayClean(c, a.threads[t])
  }

  // Under a lease, or in the hands of a thread that can still clean it up.
  ghost predicate Claimed(c: Params, a: State, s: nat) {
    Leased(a.g, s) || exists t: nat :: HeldForGood(c, a, t, s)
  }

  ghost predicate LeaseComing(c: Params, a: State) {
    exists t: nat :: t < |a.threads| && MayRegister(c, a.threads[t])
  }

  // ---- one region of a closed pool ---------------------------------------

  predicate Flushes(g: Shared, pc: Pc) {
    pc.Flushing? && g.doomed != []
  }

  // Claims only pass on: a lease comes from an executor, a clean-up and a new
  // hand from an old claim. Only Shutdown's loop drains, one sentry at a time.
  ghost predicate Fades(c: Params, g: Shared, pc: Pc, o: Outcome) {
    && |g.sentries| <= |o.g.sentries|
    && o.g.doomed == (if Flushes(g, pc) then g.doomed[1..] else g.doomed)
    && (MayRegister(c, o.pc) ==> MayRegister(c, pc))
    && (forall l :: l in o.g.book.leases ==>
          (l in g.book.leases && o.g.book.leases[l] == g.book.leases[l])
          || (pc.Leasing? && o.g.book.leases[l] == pc.s))
    && (forall s :: 0 <= s < |g.sentries| ==>
          && (o.g.sentries[s].cleaned == g.sentries[s].cleaned || (Holds(pc, s) && Cleans(pc)))
          && o.g.sentries[s].drained == g.sentries[s].drained + Bit(Flushes(g, pc) && g.doomed[0] == s)
          && (Holds(o.pc, s) && MayClean(c, o.pc) ==> (Holds(pc, s) && MayClean(c, pc)) || Leased(g, s)))
  }

  lemma AcquireFades(c: Params, g: Shared, t: nat, pc: Pc, ch: Choice)
    requires Late(g, t, pc, ch) && (InAcquire(pc) || InColdPath(pc))
    ensures Fades(c, g, pc, Region(c, g, t, pc, ch))
  {
    hide Flushed, Reassign, Stale, Without;
  }

  lemma RegisterFades(c: Params, g: Shared, t: nat, pc: Pc, ch: Choice)
    requires Late(g, t, pc, ch) && InRegister(pc)
    ensures Fades(c, g, pc, Region(c, g, t, pc, ch))
  {
    hide Spawned, Cleaned, Flushed, Reassign, Stale, Without;
  }

  lemma ServeFades(c: Params, g: Shared, t: nat, pc: Pc, ch: Choice)
    requires Late(g, t, pc, ch) && InServe(pc)
    ensures Fades(c, g, pc, Region(c, g, t, pc, ch))
  {
    hide Spawned, Cleaned, Flushed, Reassign, Stale, Without;
  }

  lemma CompleteFades(c: Params, g: Shared, t: nat, pc: Pc, ch: Choice)
    requires Late(g, t, pc, ch) && InComplete(pc)
    ensures Fades(c, g, pc, Region(c, g, t, pc, ch))
  {
    hide Spawned, Cleaned, Flushed, Reassign, Stale, Without;
    assert pc.Completing? && pc.l in g.book.leases ==> Leased(g, g.book.leases[pc.l]);
  }

  lemma DrainFades(c: Params, g: Shared, t: nat, pc: Pc, ch: Choice)
    requires Late(g, t, pc, ch) && InDrain(pc)
    ensures Fades(c, g, pc, Region(c, g, t, pc, ch))
  {
    hide Spawned, Cleaned, Flushed, Reassign, Stale, Without;
  }

  lemma RewarmFades(c: Params, g: Shared, t: nat, pc: Pc, ch: Choice)
    requires Late(g, t, pc, ch) && InRewarm(pc)
    ensures Fades(c, g, pc, Region(c, g, t, pc, ch))
  {
    hide Spawned, Flushed, Reassign, Stale, Without;
  }

  lemma RefillFades(c: Params, g: Shared, t: nat, pc: Pc, ch: Choice)
    requires Late(g, t, pc, ch) && InRefill(pc)
    ensures Fades(c, g, pc, Region(c, g, t, pc, ch))
  {
    hide Flushed, Reassign, Stale, Without;
  }

  lemma ReapFades(c: Params, g: Shared, t: nat, pc: Pc, ch: Choice)
    requires Late(g, t, pc, ch) && InReap(pc)
    ensures Fades(c, g, pc, Region(c, g, t, pc, ch))
  {
    if pc.Reaping? {
      IdleTick(g, t, pc, ch);
    }
    hide Spawned, Flushed, Reassign, Stale, Without;
  }

  // A tick of a closed pool finds nothing.
  lemma IdleTick(g: Shared, t: nat, pc: Pc, ch: Choice)
    requires Refers(g, pc) && g.list == [] && pc.Reaping?
    ensures Reap(g, t, pc, ch) == Go(g, if Ticks(g, ch) then Reaping else Done)
  {
  }

  lemma ShutdownFades(c: Params, g: Shared, t: nat, pc: Pc, ch: Choice)
    requires Late(g, t, pc, ch) && InShutdown(pc)
    ensures Fades(c, g, pc, Region(c, g, t, pc, ch))
  {
    hide Spawned, Cleaned, Stale, Without;
  }

  lemma RegionFades(c: Params, g: Shared, t: nat, pc: Pc, ch: Choice)
    requires Late(g, t, pc, ch)
    ensures Fades(c, g, pc, Region(c, g, t, pc, ch))
  {
    hide Region, Fades, Refers;
    if InAcquire(pc) || InColdPath(pc) {
      AcquireFades(c, g, t, pc, ch);
    } else if InServe(pc) {
      ServeFades(c, g, t, pc, ch);
    } else if InRegister(pc) {
      RegisterFades(c, g, t, pc, ch);
    } else if InComplete(pc) {
      CompleteFades(c, g, t, pc, ch);
    } else if InDrain(pc) {
      DrainFades(c, g, t, pc, ch);
    } else if InRewarm(pc) {
      RewarmFades(c, g, t, pc, ch);
    } else if InRefill(pc) {
      RefillFades(c, g, t, pc, ch);
    } else if InReap(pc) {
      ReapFades(c, g, t, pc, ch);
    } else {
      ShutdownFades(c, g, t, pc, ch);
    }
  }

  // ---- one step ----------------------------------------------------------

  // A step of a closed pool moves its own thread only.
  lemma LateStep(c: Params, a: State, b: State, t: nat, ch: Choice)
    requires Reachable(c, a) && a.g.closed && Step(c, a, b, t, ch)
    ensures t < |a.threads| && Late(a.g, t, a.threads[t], ch)
    ensures b == State(Region(c, a.g, t, a.threads[t], ch).g, a.threads[t := Region(c, a.g, t, a.threads[t], ch).pc])
    ensures Reachable(c, b) && b.g.closed
  {
    ClosedShape(c, a);
    QuietStep(c, a, b, t, ch);
    assert Moves(c, a, b);
    ClosedIsAbsorbing(c, a, b);
    Safety.ReachableNext(c, a, b);
    hide Reachable, Region, HasSleeper;
  }

  // And every thread that is not held up has one.
  lemma LateMove(c: Params, a: State, t: nat, ch: Choice) returns (b: State)
    requires Reachable(c, a) && a.g.closed && t < |a.threads| && CanRun(a.g, t, a.threads[t], ch)
    ensures Late(a.g, t, a.threads[t], ch)
    ensures b == State(Region(c, a.g, t, a.threads[t], ch).g, a.threads[t := Region(c, a.g, t, a.threads[t], ch).pc])
    ensures Reachable(c, b) && b.g.closed && Continues(c, a, b)
  {
    Progress.RefersAlwaysReachable(c, a, t);
    assert PcOf(a, t) == a.threads[t];
    ClosedShape(c, a);
    hide Reachable, Region, Refers, CanRun, Continues;
    b := QuietlySteps(c, a, t, ch);
    LateStep(c, a, b, t, ch);
    Here(c, a);
    OneMore(c, a, a, b);
  }

  // The half that nothing can bring back: no lease, and none coming.
  ghost predicate Leaseless(c: Params, a: State) {
    a.g.closed && a.g.book.leases == map[] && !LeaseComing(c, a)
  }

  lemma LeaselessStays(c: Params, a: State, b: State)
    requires Reachable(c, a) && Leaseless(c, a) && Next(c, a, b)
    ensures Leaseless(c, b)
  {
    hide Arrival, Step, Reachable;
    if Arrival(a, b) {
      ArrivalFades(c, a, b);
      Leases.ArrivalBook(a, b);
    } else {
      var t: nat, ch :| Step(c, a, b, t, ch);
      LateStep(c, a, b, t, ch);
      RegionFades(c, a.g, t, a.threads[t], ch);
      hide Region;
      var o := Region(c, a.g, t, a.threads[t], ch);
      assert !MayRegister(c, a.threads[t]);
      assert forall l :: l !in o.g.book.leases;
      forall u: nat | u < |b.threads| ensures !MayRegister(c, b.threads[u]) {
      }
    }
  }

  lemma ArrivalFades(c: Params, a: State, b: State)
    requires Arrival(a, b)
    ensures b.g.closed == a.g.closed && b.g.doomed == a.g.doomed
    ensures |b.threads| == |a.threads| + 1 && b.threads[..|a.threads|] == a.threads
    ensures var pc := b.threads[|a.threads|]; !MayClean(c, pc)
    ensures forall t :: 0 <= t < |a.threads| ==> b.threads[t] == a.threads[t]
  {
    Leases.ArrivalBook(a, b);
    assert forall t :: 0 <= t < |a.threads| ==> b.threads[t] == b.threads[..|a.threads|][t];
  }

  // ---- a lease after the close -------------------------------------------

  // With the restore going well, an executor comes one region nearer to the
  // insert, or makes it.
  lemma ExecutorMoves(c: Params, g: Shared, t: nat, pc: Pc, ch: Choice)
    requires Late(g, t, pc, ch) && MayRegister(c, pc) && ch.ok
    ensures var o := Region(c, g, t, pc, ch);
            if pc.Leasing? then pc.l in o.g.book.leases && o.g.book.leases[pc.l] == pc.s
            else MayRegister(c, o.pc) && o.pc.s == pc.s && Remaining(c, o.pc) < Remaining(c, pc)
  {
  }

  lemma {:induction false} ExecutorRegisters(c: Params, a: State, t: nat) returns (b: State)
    requires Reachable(c, a) && a.g.closed && t < |a.threads| && MayRegister(c, a.threads[t])
    ensures Reachable(c, b) && b.g.closed && Continues(c, a, b) && Leased(b.g, a.threads[t].s)
    decreases Remaining(c, a.threads[t])
  {
    var ch := Choice(true, {}, 0);
    b := LateMove(c, a, t, ch);
    ExecutorMoves(c, a.g, t, a.threads[t], ch);
    hide Reachable, Region, Continues, MayRegister, Remaining;
    if !a.threads[t].Leasing? {
      var d := ExecutorRegisters(c, b, t);
      Onward(c, a, b, d);
      b := d;
    }
  }

  // From a closed state without leases a lease can still be registered if and
  // only if some executor is past acquire and will not be turned away.
  lemma LateLeaseExactly(c: Params, a: State)
    requires Reachable(c, a) && a.g.closed && a.g.book.leases == map[]
    ensures (exists b :: Continues(c, a, b) && b.g.book.leases != map[]) <==> LeaseComing(c, a)
  {
    hide Reachable, Continues, MayRegister;
    if LeaseComing(c, a) {
      var t: nat :| t < |a.threads| && MayRegister(c, a.threads[t]);
      HasSentry(c, a.threads[t]);
      var b := ExecutorRegisters(c, a, t);
      assert Continues(c, a, b) && b.g.book.leases != map[];
    } else {
      forall b | Continues(c, a, b) ensures b.g.book.leases == map[] {
        NoLateLease(c, a, b);
      }
    }
  }

  lemma HasSentry(c: Params, pc: Pc)
    requires MayRegister(c, pc)
    ensures SentryOf(pc).Some?
  {
  }

  lemma NoLateLease(c: Params, a: State, b: State)
    requires Reachable(c, a) && Leaseless(c, a) && Continues(c, a, b)
    ensures Leaseless(c, b)
  {
    hide Reachable, Continues, Leaseless, Next;
    forall x, y | Reachable(c, x) && Leaseless(c, x) && Next(c, x, y) ensures Leaseless(c, y) {
      LeaselessStays(c, x, y);
    }
    KeptOnward(c, a, b, x => Leaseless(c, x));
  }

  // ---- a clean-up by the owner -------------------------------------------

  // A choice that keeps a recycler away from Ready.
  function Adverse(pc: Pc): Choice {
    Choice(!(pc.Resetting? || pc.Checking? || pc.Rewarming?), {}, 0)
  }

  // One region nearer to the clean-up, or the clean-up itself.
  ghost predicate Nearer(c: Params, g: Shared, pc: Pc, o: Outcome, s: nat)
    requires s < |g.sentries|
  {
    && s < |o.g.sentries|
    && (o.g.sentries[s].cleaned == g.sentries[s].cleaned + 1
        || (Holds(o.pc, s) && Cleans(o.pc) && Remaining(c, o.pc) < Remaining(c, pc)))
  }

  lemma CleanerMoves(c: Params, g: Shared, t: nat, pc: Pc, s: nat)
    requires Late(g, t, pc, Adverse(pc)) && Holds(pc, s) && Cleans(pc) && s < |g.sentries|
    ensures Nearer(c, g, pc, Region(c, g, t, pc, Adverse(pc)), s)
  {
    if pc.Evicting? {
      EvictorMoves(c, g, t, pc, s);
    } else if InColdPath(pc) || InRefill(pc) {
      SpawnerMoves(c, g, t, pc, s);
    } else {
      RecyclerMoves(c, g, t, pc, s);
    }
    hide Nearer;
  }

  lemma SpawnerMoves(c: Params, g: Shared, t: nat, pc: Pc, s: nat)
    requires Late(g, t, pc, Adverse(pc)) && Holds(pc, s) && Cleans(pc) && s < |g.sentries|
    requires InColdPath(pc) || InRefill(pc)
    ensures Nearer(c, g, pc, Region(c, g, t, pc, Adverse(pc)), s)
  {
    hide Stale, Without, Reassign;
  }

  lemma RecyclerMoves(c: Params, g: Shared, t: nat, pc: Pc, s: nat)
    requires Late(g, t, pc, Adverse(pc)) && Holds(pc, s) && Cleans(pc) && s < |g.sentries|
    requires InComplete(pc) || InDrain(pc) || InRewarm(pc)
    ensures Nearer(c, g, pc, Region(c, g, t, pc, Adverse(pc)), s)
  {
    hide Spawned, Flushed, Reassign, Stale, Without;
  }

  lemma EvictorMoves(c: Params, g: Shared, t: nat, pc: Pc, s: nat)
    requires Refers(g, pc) && pc.Evicting? && s in pc.todo && s < |g.sentries|
    ensures Nearer(c, g, pc, Reap(g, t, pc, Adverse(pc)), s)
  {
    if s != pc.todo[0] {
      assert s in pc.todo[1..];
    }
  }

  lemma CleanerRuns(g: Shared, t: nat, pc: Pc)
    requires Cleans(pc) && g.lock.None?
    ensures CanRun(g, t, pc, Adverse(pc))
  {
  }

  lemma {:induction false} CleanerCleans(c: Params, a: State, t: nat, s: nat) returns (b: State)
    requires Reachable(c, a) && a.g.closed && t < |a.threads|
    requires Holds(a.threads[t], s) && Cleans(a.threads[t])
    ensures Reachable(c, b) && b.g.closed && Continues(c, a, b)
    ensures s < |b.g.sentries| && b.g.sentries[s].cleaned == 1
    decreases Remaining(c, a.threads[t])
  {
    var pc := a.threads[t];
    ClosedShape(c, a);
    CleanerRuns(a.g, t, pc);
    HeldInRange(c, a, t, s);
    b := LateMove(c, a, t, Adverse(pc));
    CleanerMoves(c, a.g, t, pc, s);
    hide Reachable, Region, Continues, Remaining, Cleans, Holds, CanRun, Late;
    Ownership.CleanedOnce(c, b, s);
    if b.g.sentries[s].cleaned != 1 {
      var d := CleanerCleans(c, b, t, s);
      Onward(c, a, b, d);
      b := d;
    }
  }

  lemma HeldInRange(c: Params, a: State, t: nat, s: nat)
    requires Reachable(c, a) && t < |a.threads| && Holds(a.threads[t], s)
    ensures s < |a.g.sentries| && a.g.sentries[s].cleaned == 0
  {
    Progress.RefersAlwaysReachable(c, a, t);
    hide Reachable;
    assert s < |a.g.sentries|;
    Ownership.CleanedOnce(c, a, s);
  }

  // A call to Complete may come at any time.
  lemma CompleteComes(c: Params, a: State, l: nat) returns (b: State)
    requires Reachable(c, a)
    ensures Reachable(c, b) && Continues(c, a, b) && b == State(a.g, a.threads + [Completing(l)])
  {
    b := State(a.g, a.threads + [Completing(l)]);
    assert Arrival(a, b);
    assert Next(c, a, b);
    hide Reachable, Continues, Next, Arrival;
    Safety.ReachableNext(c, a, b);
    Here(c, a);
    OneMore(c, a, a, b);
  }

  lemma LeaseCleans(c: Params, a: State, s: nat) returns (b: State)
    requires Reachable(c, a) && a.g.closed && Leased(a.g, s)
    ensures Reachable(c, b) && b.g.closed && Continues(c, a, b)
    ensures s < |b.g.sentries| && b.g.sentries[s].cleaned == 1
  {
    var l :| l in a.g.book.leases && a.g.book.leases[l] == s;
    var d := CompleteComes(c, a, l);
    hide Reachable, Continues;
    var t := |a.threads|;
    var e := LateMove(c, d, t, Choice(true, {}, 0));
    CompletesTo(c, d.g, t, l, Choice(true, {}, 0));
    hide Region, Late;
    b := CleanerCleans(c, e, t, s);
    Onward(c, a, d, e);
    Onward(c, a, e, b);
  }

  lemma CompletesTo(c: Params, g: Shared, t: nat, l: nat, ch: Choice)
    requires Refers(g, Completing(l)) && l in g.book.leases
    ensures Region(c, g, t, Completing(l), ch).pc == Unleased(g.book.leases[l])
  {
  }

  // A claim on a sentry of a closed pool can always be turned into a clean-up.
  lemma ClaimCleans(c: Params, a: State, s: nat) returns (b: State)
    requires Reachable(c, a) && a.g.closed && Claimed(c, a, s)
    ensures Reachable(c, b) && b.g.closed && Continues(c, a, b)
    ensures s < |b.g.sentries| && b.g.sentries[s].cleaned == 1
  {
    hide Reachable, Continues;
    if Leased(a.g, s) {
      b := LeaseCleans(c, a, s);
    } else {
      var t: nat :| HeldForGood(c, a, t, s);
      if Cleans(a.threads[t]) {
        b := CleanerCleans(c, a, t, s);
      } else {
        HasSentry(c, a.threads[t]);
        var d := ExecutorRegisters(c, a, t);
        b := LeaseCleans(c, d, s);
        Onward(c, a, d, b);
      }
    }
  }

  // Without a claim a sentry is never cleaned up by an owner again.
  ghost predicate Unclaimed(c: Params, a: State, s: nat) {
    a.g.closed && s < |a.g.sentries| && a.g.sentries[s].cleaned == 0 && !Claimed(c, a, s)
  }

  lemma UnclaimedStays(c: Params, a: State, b: State, s: nat)
    requires Reachable(c, a) && Unclaimed(c, a, s) && Next(c, a, b)
    ensures Unclaimed(c, b, s)
  {
    hide Arrival, Step, Reachable;
    if Arrival(a, b) {
      ArrivalFades(c, a, b);
      Leases.ArrivalBook(a, b);
      hide MayClean, Holds;
      forall u: nat ensures !HeldForGood(c, b, u, s) {
        assert !HeldForGood(c, a, u, s);
      }
    } else {
      var t: nat, ch :| Step(c, a, b, t, ch);
      LateStep(c, a, b, t, ch);
      RegionFades(c, a.g, t, a.threads[t], ch);
      UnclaimedStep(c, a, b, t, Region(c, a.g, t, a.threads[t], ch), s);
    }
  }

  lemma UnclaimedStep(c: Params, a: State, b: State, t: nat, o: Outcome, s: nat)
    requires Unclaimed(c, a, s) && t < |a.threads| && Fades(c, a.g, a.threads[t], o)
    requires b == State(o.g, a.threads[t := o.pc]) && o.g.closed
    ensures Unclaimed(c, b, s)
  {
    var pc := a.threads[t];
    assert !HeldForGood(c, a, t, s);
    assert pc.Leasing? ==> MayRegister(c, pc) && Holds(pc, pc.s);
    assert Cleans(pc) ==> MayClean(c, pc);
    hide MayClean, Holds, Cleans;
    assert forall l :: l in b.g.book.leases && b.g.book.leases[l] == s ==>
      l in a.g.book.leases && a.g.book.leases[l] == s;
    assert !Leased(b.g, s);
    forall u: nat ensures !HeldForGood(c, b, u, s) {
      assert !HeldForGood(c, a, u, s);
    }
  }

  lemma NeverCleaned(c: Params, a: State, b: State, s: nat)
    requires Reachable(c, a) && Unclaimed(c, a, s) && Continues(c, a, b)
    ensures Unclaimed(c, b, s)
  {
    hide Reachable, Continues, Unclaimed, Next;
    forall x, y | Reachable(c, x) && Unclaimed(c, x, s) && Next(c, x, y) ensures Unclaimed(c, y, s) {
      UnclaimedStays(c, x, y, s);
    }
    KeptOnward(c, a, b, x => Unclaimed(c, x, s));
  }

  // After the close a sentry can still be cleaned up by its owner if and only if
  // it is under a lease or in the hands of a thread that can still discard it; or
  // that has happened already. Idle and cancelled sentries never are.
  lemma OwnerCleansExactly(c: Params, a: State, s: nat)
    requires Reachable(c, a) && a.g.closed && s < |a.g.sentries|
    ensures (exists b :: Continues(c, a, b) && s < |b.g.sentries| && b.g.sentries[s].cleaned == 1)
            <==> a.g.sentries[s].cleaned == 1 || Claimed(c, a, s)
  {
    hide Reachable, Continues, Claimed;
    Ownership.CleanedOnce(c, a, s);
    Here(c, a);
    if a.g.sentries[s].cleaned == 0 {
      if Claimed(c, a, s) {
        var b := ClaimCleans(c, a, s);
      } else {
        forall b | Continues(c, a, b) ensures s < |b.g.sentries| && b.g.sentries[s].cleaned == 0 {
          NeverCleaned(c, a, b, s);
        }
      }
    }
  }

  // A claim is never on an idle, a cancelled or a discarded sentry.
  lemma ClaimedOwner(c: Params, a: State, s: nat)
    requires Reachable(c, a) && s < |a.g.sentries| && Claimed(c, a, s)
    ensures a.g.sentries[s].owner.Lease? || a.g.sentries[s].owner.Thread?
  {
    Safety.ReachableInv(c, a);
    hide Inv, Reachable, MayClean;
    if Leased(a.g, s) {
      var l :| l in a.g.book.leases && a.g.book.leases[l] == s;
      Ownership.OnlyOwner(c, a, s, Lease(l));
    } else {
      var t: nat :| HeldForGood(c, a, t, s);
      Ownership.OnlyOwner(c, a, s, Thread(t));
    }
  }

  // ---- a clean-up by Shutdown --------------------------------------------

  lemma {:induction false} FlushesOn(c: Params, a: State, s: nat) returns (b: State)
    requires Reachable(c, a) && a.g.closed && s < |a.g.sentries| && s in a.g.doomed
    ensures Reachable(c, b) && b.g.closed && Continues(c, a, b)
    ensures s < |b.g.sentries| && b.g.sentries[s].drained == 1
    decreases |a.g.doomed|
  {
    var t := FlusherAt(c, a);
    b := LateMove(c, a, t, Choice(true, {}, 0));
    RegionFades(c, a.g, t, Flushing, Choice(true, {}, 0));
    hide Reachable, Region, Continues, Holds, MayRegister, Late;
    if a.g.doomed[0] == s {
      Ownership.CleanedOnce(c, a, s);
      Ownership.CleanedOnce(c, b, s);
    } else {
      assert s in a.g.doomed[1..];
      var d := FlushesOn(c, b, s);
      Onward(c, a, b, d);
      b := d;
    }
  }

  lemma FlusherAt(c: Params, a: State) returns (t: nat)
    requires Reachable(c, a) && a.g.doomed != []
    ensures t < |a.threads| && a.threads[t].Flushing?
  {
    Safety.ReachableInv(c, a);
    hide Core, Wakes, Reachable;
    t := SumWitness(a.threads, Flusher);
  }

  ghost predicate Unplaced(a: State, s: nat) {
    a.g.closed && s < |a.g.sentries| && a.g.sentries[s].drained == 0 && s !in a.g.doomed
  }

  lemma UnplacedStays(c: Params, a: State, b: State, s: nat)
    requires Reachable(c, a) && Unplaced(a, s) && Next(c, a, b)
    ensures Unplaced(b, s)
  {
    hide Arrival, Step, Reachable;
    if Arrival(a, b) {
      ArrivalFades(c, a, b);
      Leases.ArrivalBook(a, b);
    } else {
      var t: nat, ch :| Step(c, a, b, t, ch);
      LateStep(c, a, b, t, ch);
      RegionFades(c, a.g, t, a.threads[t], ch);
      hide Region, Holds, MayRegister;
    }
  }

  lemma NeverDrained(c: Params, a: State, b: State, s: nat)
    requires Reachable(c, a) && Unplaced(a, s) && Continues(c, a, b)
    ensures Unplaced(b, s)
  {
    hide Reachable, Continues, Unplaced, Next;
    forall x, y | Reachable(c, x) && Unplaced(x, s) && Next(c, x, y) ensures Unplaced(y, s) {
      UnplacedStays(c, x, y, s);
    }
    KeptOnward(c, a, b, x => Unplaced(x, s));
  }

  // ---- both --------------------------------------------------------------

  // Once cleaned up by its owner, a sentry stays so.
  lemma CleanedStays(c: Params, a: State, b: State, s: nat)
    requires Reachable(c, a) && CleanedUp(a, s) && Next(c, a, b)
    ensures CleanedUp(b, s)
  {
    hide Arrival, Step, Reachable;
    if Arrival(a, b) {
      ArrivalFades(c, a, b);
      Leases.ArrivalBook(a, b);
    } else {
      var t: nat, ch :| Step(c, a, b, t, ch);
      LateStep(c, a, b, t, ch);
      RegionFades(c, a.g, t, a.threads[t], ch);
      Ownership.CleanedOnce(c, a, s);
      hide Region, Holds, MayRegister;
    }
  }

  ghost predicate CleanedUp(a: State, s: nat) {
    a.g.closed && s < |a.g.sentries| && a.g.sentries[s].cleaned == 1
  }

  lemma CleanedForGood(c: Params, a: State, b: State, s: nat)
    requires Reachable(c, a) && CleanedUp(a, s) && Continues(c, a, b)
    ensures CleanedUp(b, s)
  {
    hide Reachable, Continues, CleanedUp, Next;
    forall x, y | Reachable(c, x) && CleanedUp(x, s) && Next(c, x, y) ensures CleanedUp(y, s) {
      CleanedStays(c, x, y, s);
    }
    KeptOnward(c, a, b, x => CleanedUp(x, s));
  }

  // A member of the list at the close is drained or in Shutdown's copy for good.
  lemma PlacedStays(c: Params, a: State, b: State, s: nat)
    requires Reachable(c, a) && WasMember(a, s) && Next(c, a, b)
    ensures WasMember(b, s)
  {
    hide Arrival, Step, Reachable;
    Ownership.CleanedOnce(c, a, s);
    if Arrival(a, b) {
      ArrivalFades(c, a, b);
      Leases.ArrivalBook(a, b);
    } else {
      var t: nat, ch :| Step(c, a, b, t, ch);
      LateStep(c, a, b, t, ch);
      RegionFades(c, a.g, t, a.threads[t], ch);
      Ownership.CleanedOnce(c, b, s);
      hide Region, Holds, MayRegister;
    }
  }

  ghost predicate WasMember(a: State, s: nat) {
    a.g.closed && s < |a.g.sentries| && Placed(a.g, s)
  }

  lemma PlacedForGood(c: Params, a: State, b: State, s: nat)
    requires Reachable(c, a) && WasMember(a, s) && Continues(c, a, b)
    ensures WasMember(b, s)
  {
    hide Reachable, Continues, WasMember, Next;
    forall x, y | Reachable(c, x) && WasMember(x, s) && Next(c, x, y) ensures WasMember(y, s) {
      PlacedStays(c, x, y, s);
    }
    KeptOnward(c, a, b, x => WasMember(x, s));
  }

  // After the close a sentry can still come to be cleaned up twice if and only if
  // it was a member at the close and its owner can still clean it up, or has.
  lemma TwiceExactly(c: Params, a: State, s: nat)
    requires Reachable(c, a) && a.g.closed && s < |a.g.sentries|
    ensures (exists b :: Continues(c, a, b) && s < |b.g.sentries|
                         && b.g.sentries[s].cleaned + b.g.sentries[s].drained == 2)
            <==> Placed(a.g, s) && (a.g.sentries[s].cleaned == 1 || Claimed(c, a, s))
  {
    hide Reachable, Continues, Claimed;
    Ownership.CleanedOnce(c, a, s);
    if Placed(a.g, s) && (a.g.sentries[s].cleaned == 1 || Claimed(c, a, s)) {
      var b := Twice(c, a, s);
    } else if !Placed(a.g, s) {
      forall b | Continues(c, a, b)
        ensures s < |b.g.sentries| && b.g.sentries[s].cleaned + b.g.sentries[s].drained <= 1
      {
        NeverDrained(c, a, b, s);
        ReachableOnward(c, a, b);
        Ownership.CleanedOnce(c, b, s);
      }
    } else {
      forall b | Continues(c, a, b)
        ensures s < |b.g.sentries| && b.g.sentries[s].cleaned + b.g.sentries[s].drained <= 1
      {
        NeverCleaned(c, a, b, s);
        ReachableOnward(c, a, b);
        Ownership.CleanedOnce(c, b, s);
      }
    }
  }

  lemma Twice(c: Params, a: State, s: nat) returns (b: State)
    requires Reachable(c, a) && a.g.closed && s < |a.g.sentries|
    requires Placed(a.g, s) && (a.g.sentries[s].cleaned == 1 || Claimed(c, a, s))
    ensures Continues(c, a, b) && s < |b.g.sentries|
    ensures b.g.sentries[s].cleaned + b.g.sentries[s].drained == 2
  {
    hide Reachable, Continues, Claimed;
    b := a;
    Here(c, a);
    if a.g.sentries[s].cleaned != 1 {
      b := ClaimCleans(c, a, s);
    }
    PlacedForGood(c, a, b, s);
    if b.g.sentries[s].drained != 1 {
      var d := FlushesOn(c, b, s);
      CleanedForGood(c, b, d, s);
      Onward(c, a, b, d);
      b := d;
    }
  }
}
