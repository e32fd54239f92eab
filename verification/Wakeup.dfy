// Ready members against wake-ups that are under way, region by region.
module Wakeup {
  import opened Basics
  import opened Protocol
  import opened Accounting

  function IsReady(x: SentryRecord): int { Bit(x.state.Ready?) }

  // How many of the listed sentries are Ready.
  function ReadyIn(xs: seq<nat>, ss: seq<SentryRecord>): int {
    if xs == [] then 0
    else (if xs[0] < |ss| then IsReady(ss[xs[0]]) else 0) + ReadyIn(xs[1..], ss)
  }

  lemma {:induction false} ReadyBounds(xs: seq<nat>, ss: seq<SentryRecord>)
    ensures 0 <= ReadyIn(xs, ss) <= |xs|
  {
    if xs != [] {
      ReadyBounds(xs[1..], ss);
    }
  }

  // Only the states matter, and sentries that are not listed do not.
  lemma {:induction false} ReadySame(xs: seq<nat>, ss: seq<SentryRecord>, tt: seq<SentryRecord>)
    requires Within(xs, |ss|) && |ss| <= |tt|
    requires forall i :: 0 <= i < |xs| ==> ss[xs[i]].state == tt[xs[i]].state
    ensures ReadyIn(xs, tt) == ReadyIn(xs, ss)
  {
    if xs != [] {
      assert ss[xs[0]].state == tt[xs[0]].state;
      assert forall i :: 0 <= i < |xs[1..]| ==> xs[1..][i] == xs[i + 1];
      ReadySame(xs[1..], ss, tt);
    }
  }

  lemma {:induction false} ReadyAppend(xs: seq<nat>, s: nat, ss: seq<SentryRecord>)
    requires s < |ss|
    ensures ReadyIn(xs + [s], ss) == ReadyIn(xs, ss) + IsReady(ss[s])
  {
    if xs == [] {
      assert xs + [s] == [s] && [s][1..] == [];
    } else {
      assert (xs + [s])[1..] == xs[1..] + [s];
      ReadyAppend(xs[1..], s, ss);
    }
  }

  // One sentry changes.
  lemma {:induction false} ReadyUpdate(xs: seq<nat>, ss: seq<SentryRecord>, s: nat, y: SentryRecord)
    requires Distinct(xs) && Within(xs, |ss|) && s < |ss|
    ensures ReadyIn(xs, ss[s := y]) == ReadyIn(xs, ss) + (if s in xs then IsReady(y) - IsReady(ss[s]) else 0)
  {
    if xs != [] {
      assert forall i :: 0 <= i < |xs[1..]| ==> xs[1..][i] == xs[i + 1];
      assert xs[0] !in xs[1..];
      ReadyUpdate(xs[1..], ss, s, y);
    }
  }

  lemma {:induction false} ReadyWithout(xs: seq<nat>, drop: set<nat>, ss: seq<SentryRecord>)
    ensures ReadyIn(Without(xs, drop), ss) <= ReadyIn(xs, ss)
  {
    if xs != [] {
      ReadyWithout(xs[1..], drop, ss);
      if xs[0] !in drop {
        assert Without(xs, drop)[1..] == Without(xs[1..], drop);
      }
    }
  }

  // A listed Ready sentry makes the count positive.
  lemma {:induction false} ReadyWitness(xs: seq<nat>, ss: seq<SentryRecord>, i: nat)
    requires Within(xs, |ss|) && i < |xs| && ss[xs[i]].state.Ready?
    ensures ReadyIn(xs, ss) >= 1
  {
    assert forall j :: 0 <= j < |xs[1..]| ==> xs[1..][j] == xs[j + 1];
    if i == 0 {
      ReadyBounds(xs[1..], ss);
    } else {
      ReadyWitness(xs[1..], ss, i - 1);
    }
  }

  function ReadyMembers(g: Shared): int { ReadyIn(g.list, g.sentries) }

  // ---- one region ---------------------------------------------------------

  // A region that is not a caller going to sleep raises the Ready members by no
  // more than the wake-ups it starts.
  ghost predicate Signalled(g: Shared, pc: Pc, o: Outcome) {
    ReadyMembers(o.g) - ReadyMembers(g) <=
    Awake(o.pc) - Awake(pc) + Signaller(o.pc) - Signaller(pc) + Bit(o.wake.One?)
  }

  // Behind the cursor of another thread's scan it raises them by no more than
  // the Signals it owes.
  ghost predicate Owed(g: Shared, pc: Pc, o: Outcome) {
    forall n :: 0 <= n <= |g.list| ==>
      ReadyIn(g.list[..n], o.g.sentries) <= ReadyIn(g.list[..n], g.sentries) + Signaller(o.pc)
  }

  // The region's effect on the sentries it may make Ready.
  ghost predicate Quickens(g: Shared, pc: Pc, o: Outcome) {
    && |g.sentries| <= |o.g.sentries|
    && (forall s :: 0 <= s < |g.sentries| ==>
          o.g.sentries[s].state.Ready? ==>
            g.sentries[s].state.Ready? || (o.pc.Signalling? && SentryOf(pc) == Some(s)))
  }

  // Only Closing closes, and it wakes everybody; what Shutdown copied is left to
  // a thread that cleans up; only Cancelling cancels leases.
  ghost predicate Closes(g: Shared, pc: Pc, o: Outcome) {
    && (o.g.closed <==> g.closed || pc.Closing?)
    && (o.wake.Everybody? <==> pc.Closing?)
    && (o.g.doomed != [] ==> Flusher(o.pc) == 1 || (g.doomed != [] && Flusher(pc) == 0))
    && (forall s :: 0 <= s < |o.g.sentries| && o.g.sentries[s].owner.Orphan? ==>
          pc.Cancelling? || (s < |g.sentries| && g.sentries[s].owner.Orphan?))
  }

  // Pointwise bound, with one exception at s.
  lemma {:induction false} ReadyBut(xs: seq<nat>, ss: seq<SentryRecord>, tt: seq<SentryRecord>, s: Option<nat>)
    requires Distinct(xs) && Within(xs, |ss|) && |ss| <= |tt|
    requires forall i :: 0 <= i < |xs| && tt[xs[i]].state.Ready? ==> ss[xs[i]].state.Ready? || s == Some(xs[i])
    ensures ReadyIn(xs, tt) <= ReadyIn(xs, ss) + Bit(s.Some?)
  {
    if xs != [] {
      assert forall j :: 0 <= j < |xs[1..]| ==> xs[1..][j] == xs[j + 1];
      assert xs[0] !in xs[1..];
      if s == Some(xs[0]) {
        assert forall i :: 0 <= i < |xs[1..]| ==> xs[1..][i] != xs[0];
        ReadyBut(xs[1..], ss, tt, None);
      } else {
        ReadyBut(xs[1..], ss, tt, s);
      }
    }
  }

  lemma QuickensOwes(g: Shared, pc: Pc, o: Outcome)
    requires Distinct(g.list) && Within(g.list, |g.sentries|) && Quickens(g, pc, o)
    ensures Owed(g, pc, o)
    ensures ReadyIn(g.list, o.g.sentries) <= ReadyMembers(g) + Signaller(o.pc)
  {
    hide SentryOf, Signaller;
    forall n | 0 <= n <= |g.list|
      ensures ReadyIn(g.list[..n], o.g.sentries) <= ReadyIn(g.list[..n], g.sentries) + Bit(o.pc.Signalling?)
    {
      ReadyBut(g.list[..n], g.sentries, o.g.sentries, if o.pc.Signalling? then SentryOf(pc) else None);
    }
    assert g.list[..|g.list|] == g.list;
    SignallerIs(o.pc);
  }

  lemma SignallerIs(pc: Pc)
    ensures Signaller(pc) == Bit(pc.Signalling?)
  {
  }

  lemma AcquireQuickens(c: Params, g: Shared, t: nat, pc: Pc, ch: Choice)
    requires Runs(g, t, pc, ch)
    requires InAcquire(pc)
    ensures Quickens(g, pc, Acquire(c, g, t, pc))
    ensures Closes(g, pc, Acquire(c, g, t, pc))
  {
  }

  lemma ColdPathQuickens(c: Params, g: Shared, t: nat, pc: Pc, ch: Choice)
    requires Runs(g, t, pc, ch)
    requires InColdPath(pc)
    ensures Quickens(g, pc, ColdPath(c, g, t, pc, ch))
    ensures Closes(g, pc, ColdPath(c, g, t, pc, ch))
  {
  }

  lemma ServeQuickens(c: Params, g: Shared, t: nat, pc: Pc, ch: Choice)
    requires Runs(g, t, pc, ch)
    requires InServe(pc)
    ensures Quickens(g, pc, Serve(c, g, t, pc, ch))
    ensures Closes(g, pc, Serve(c, g, t, pc, ch))
  {
  }

  lemma RegisterQuickens(c: Params, g: Shared, t: nat, pc: Pc, ch: Choice)
    requires Runs(g, t, pc, ch)
    requires InRegister(pc)
    ensures Quickens(g, pc, Register(g, pc))
    ensures Closes(g, pc, Register(g, pc))
  {
  }

  lemma CompleteQuickens(c: Params, g: Shared, t: nat, pc: Pc, ch: Choice)
    requires Runs(g, t, pc, ch)
    requires InComplete(pc)
    ensures Quickens(g, pc, Complete(g, t, pc))
    ensures Closes(g, pc, Complete(g, t, pc))
  {
  }

  lemma DrainQuickens(c: Params, g: Shared, t: nat, pc: Pc, ch: Choice)
    requires Runs(g, t, pc, ch)
    requires InDrain(pc)
    ensures Quickens(g, pc, Drain(c, g, pc, ch))
    ensures Closes(g, pc, Drain(c, g, pc, ch))
  {
  }

  lemma RewarmQuickens(c: Params, g: Shared, t: nat, pc: Pc, ch: Choice)
    requires Runs(g, t, pc, ch)
    requires InRewarm(pc)
    ensures Quickens(g, pc, Rewarm(c, g, pc, ch))
    ensures Closes(g, pc, Rewarm(c, g, pc, ch))
  {
  }

  lemma RefillQuickens(c: Params, g: Shared, t: nat, pc: Pc, ch: Choice)
    requires Runs(g, t, pc, ch)
    requires InRefill(pc)
    ensures Quickens(g, pc, Refill(c, g, t, pc, ch))
    ensures Closes(g, pc, Refill(c, g, t, pc, ch))
  {
  }

  lemma ReapQuickens(c: Params, g: Shared, t: nat, pc: Pc, ch: Choice)
    requires Runs(g, t, pc, ch)
    requires InReap(pc)
    ensures Quickens(g, pc, Reap(g, t, pc, ch))
    ensures Closes(g, pc, Reap(g, t, pc, ch))
  {
  }

  lemma ShutdownQuickens(c: Params, g: Shared, t: nat, pc: Pc, ch: Choice)
    requires Runs(g, t, pc, ch)
    requires InShutdown(pc)
    ensures Quickens(g, pc, Shutdown(g, pc))
    ensures Closes(g, pc, Shutdown(g, pc))
  {
  }

  // Only a thread that is about to Signal makes a sentry Ready.
  lemma RegionQuickens(c: Params, g: Shared, t: nat, pc: Pc, ch: Choice)
    requires Runs(g, t, pc, ch)
    ensures Quickens(g, pc, Region(c, g, t, pc, ch))
    ensures Closes(g, pc, Region(c, g, t, pc, ch))
  {
    hide Quickens, Closes, Refers, Acquire, ColdPath, Serve, Register, Complete, Drain, Rewarm, Refill, Reap, Shutdown;
    if InAcquire(pc) {
      AcquireQuickens(c, g, t, pc, ch);
    } else if InColdPath(pc) {
      ColdPathQuickens(c, g, t, pc, ch);
    } else if InServe(pc) {
      ServeQuickens(c, g, t, pc, ch);
    } else if InRegister(pc) {
      RegisterQuickens(c, g, t, pc, ch);
    } else if InComplete(pc) {
      CompleteQuickens(c, g, t, pc, ch);
    } else if InDrain(pc) {
      DrainQuickens(c, g, t, pc, ch);
    } else if InRewarm(pc) {
      RewarmQuickens(c, g, t, pc, ch);
    } else if InRefill(pc) {
      RefillQuickens(c, g, t, pc, ch);
    } else if InReap(pc) {
      ReapQuickens(c, g, t, pc, ch);
    } else {
      ShutdownQuickens(c, g, t, pc, ch);
    }
  }

  // A region that leaves the list alone starts no fewer wake-ups than it ends.
  ghost predicate Steady(g: Shared, pc: Pc, o: Outcome) {
    o.g.list == g.list && Awake(o.pc) - Awake(pc) - Signaller(pc) + Bit(o.wake.One?) >= 0
  }

  lemma AcquireSteady(c: Params, g: Shared, t: nat, pc: Pc, ch: Choice)
    requires Runs(g, t, pc, ch) && !g.closed
    requires pc.Entering? || pc.Woken?
    ensures Steady(g, pc, Acquire(c, g, t, pc))
  {
    hide Refers, Spawned, Cleaned, Flushed, Reassign;
  }

  lemma ColdPathSteady(c: Params, g: Shared, t: nat, pc: Pc, ch: Choice)
    requires Runs(g, t, pc, ch) && !g.closed
    requires pc.ColdStart? || pc.ColdSpawning? || pc.ColdFailed? || pc.ColdCleaning?
    ensures Steady(g, pc, ColdPath(c, g, t, pc, ch))
  {
    hide Refers, Spawned, Cleaned, Flushed, Reassign;
  }

  lemma ServeSteady(c: Params, g: Shared, t: nat, pc: Pc, ch: Choice)
    requires Runs(g, t, pc, ch) && !g.closed
    requires InServe(pc)
    ensures Steady(g, pc, Serve(c, g, t, pc, ch))
  {
    hide Refers, Spawned, Cleaned, Flushed, Reassign;
  }

  lemma RegisterSteady(c: Params, g: Shared, t: nat, pc: Pc, ch: Choice)
    requires Runs(g, t, pc, ch) && !g.closed
    requires InRegister(pc)
    ensures Steady(g, pc, Register(g, pc))
  {
    hide Refers, Spawned, Cleaned, Flushed, Reassign;
  }

  lemma CompleteSteady(c: Params, g: Shared, t: nat, pc: Pc, ch: Choice)
    requires Runs(g, t, pc, ch) && !g.closed
    requires InComplete(pc)
    ensures Steady(g, pc, Complete(g, t, pc))
  {
    hide Refers, Spawned, Cleaned, Flushed, Reassign;
  }

  lemma DrainSteady(c: Params, g: Shared, t: nat, pc: Pc, ch: Choice)
    requires Runs(g, t, pc, ch) && !g.closed
    requires InDrain(pc)
    ensures Steady(g, pc, Drain(c, g, pc, ch))
  {
    hide Refers, Spawned, Cleaned, Flushed, Reassign;
  }

  lemma RewarmSteady(c: Params, g: Shared, t: nat, pc: Pc, ch: Choice)
    requires Runs(g, t, pc, ch) && !g.closed
    requires pc.Checking? || pc.Rewarming? || pc.Readying? || pc.Cleaning?
    ensures Steady(g, pc, Rewarm(c, g, pc, ch))
  {
    hide Refers, Spawned, Cleaned, Flushed, Reassign;
  }

  lemma RefillSteady(c: Params, g: Shared, t: nat, pc: Pc, ch: Choice)
    requires Runs(g, t, pc, ch) && !g.closed
    requires pc.Sizing? || pc.Refilling? || pc.RefillSpawning? || pc.RefillCleaning?
    ensures Steady(g, pc, Refill(c, g, t, pc, ch))
  {
    hide Refers, Spawned, Cleaned, Flushed, Reassign;
  }

  lemma ShutdownSteady(c: Params, g: Shared, t: nat, pc: Pc, ch: Choice)
    requires Runs(g, t, pc, ch) && !g.closed
    requires pc.Cancelling? || pc.Stopping? || pc.Joining? || pc.Flushing?
    ensures Steady(g, pc, Shutdown(g, pc))
  {
    hide Refers, Spawned, Cleaned, Flushed, Reassign;
  }

  lemma RegionSteady(c: Params, g: Shared, t: nat, pc: Pc, ch: Choice)
    requires Runs(g, t, pc, ch) && !g.closed
    requires !pc.Scanning? && !pc.Removing? && !pc.Reaping? && !pc.Evicting?
    requires !pc.ColdSpawned? && !pc.RefillSpawned? && !pc.Closing?
    ensures Steady(g, pc, Region(c, g, t, pc, ch))
  {
    hide Steady, Refers, Acquire, ColdPath, Serve, Register, Complete, Drain, Rewarm, Refill, Reap, Shutdown;
    if pc.Entering? || pc.Woken? {
      AcquireSteady(c, g, t, pc, ch);
    } else if pc.ColdStart? || pc.ColdSpawning? || pc.ColdFailed? || pc.ColdCleaning? {
      ColdPathSteady(c, g, t, pc, ch);
    } else if InServe(pc) {
      ServeSteady(c, g, t, pc, ch);
    } else if InRegister(pc) {
      RegisterSteady(c, g, t, pc, ch);
    } else if InComplete(pc) {
      CompleteSteady(c, g, t, pc, ch);
    } else if InDrain(pc) {
      DrainSteady(c, g, t, pc, ch);
    } else if pc.Checking? || pc.Rewarming? || pc.Readying? || pc.Cleaning? {
      RewarmSteady(c, g, t, pc, ch);
    } else if pc.Sizing? || pc.Refilling? || pc.RefillSpawning? || pc.RefillCleaning? {
      RefillSteady(c, g, t, pc, ch);
    } else {
      ShutdownSteady(c, g, t, pc, ch);
    }
  }

  // A scan that finds a sentry takes it out of the Ready members.
  lemma ScanSignals(c: Params, g: Shared, t: nat, pc: Pc, ch: Choice)
    requires Runs(g, t, pc, ch) && Distinct(g.list) && pc.Scanning?
    requires !Region(c, g, t, pc, ch).pc.Asleep?
    ensures Signalled(g, pc, Region(c, g, t, pc, ch))
  {
    var o := Region(c, g, t, pc, ch);
    if pc.i < |g.list| {
      var s := g.list[pc.i];
      ReadyUpdate(g.list, g.sentries, s, o.g.sentries[s]);
    }
  }

  lemma AppendSignals(c: Params, g: Shared, t: nat, pc: Pc, ch: Choice)
    requires Runs(g, t, pc, ch) && Distinct(g.list) && !g.closed
    requires pc.ColdSpawned? || pc.RefillSpawned?
    requires pc.s !in g.list
    ensures Signalled(g, pc, Region(c, g, t, pc, ch))
  {
    var o := Region(c, g, t, pc, ch);
    ReadyUpdate(g.list, g.sentries, pc.s, o.g.sentries[pc.s]);
    ReadyAppend(g.list, pc.s, o.g.sentries);
  }

  lemma RemoveSignals(c: Params, g: Shared, t: nat, pc: Pc, ch: Choice)
    requires Runs(g, t, pc, ch) && pc.Removing?
    ensures Signalled(g, pc, Region(c, g, t, pc, ch))
  {
    ReadyWithout(g.list, {pc.s}, g.sentries);
  }

  lemma ReapSignals(c: Params, g: Shared, t: nat, pc: Pc, ch: Choice)
    requires Runs(g, t, pc, ch) && InReap(pc)
    ensures Signalled(g, pc, Reap(g, t, pc, ch))
  {
    ReapLeaves(g, t, pc, ch);
    hide Reap, Refers, CanRun;
    LeavesSignals(g, pc, Reap(g, t, pc, ch), if pc.Reaping? then Stale(g, ch.idle) else {});
  }

  lemma LeavesSignals(g: Shared, pc: Pc, o: Outcome, out: set<nat>)
    requires Within(g.list, |g.sentries|) && |o.g.sentries| == |g.sentries|
    requires InReap(pc) && (InReap(o.pc) || o.pc.Done?)
    requires forall s :: 0 <= s < |g.sentries| ==> o.g.sentries[s].state == g.sentries[s].state
    requires o.g.list == g.list || o.g.list == Without(g.list, out)
    ensures Signalled(g, pc, o)
  {
    hide Without, ReadyIn;
    ReadySame(g.list, g.sentries, o.g.sentries);
    ReadyWithout(g.list, out, o.g.sentries);
  }

  // The reaper changes no sentry's state and only takes members away.
  lemma ReapLeaves(g: Shared, t: nat, pc: Pc, ch: Choice)
    requires Refers(g, pc) && InReap(pc)
    ensures var o := Reap(g, t, pc, ch);
            && (InReap(o.pc) || o.pc.Done?) && o.wake.Nobody?
            && |o.g.sentries| == |g.sentries|
            && (forall s :: 0 <= s < |g.sentries| ==> o.g.sentries[s].state == g.sentries[s].state)
            && (o.g.list == g.list || (pc.Reaping? && o.g.list == Without(g.list, Stale(g, ch.idle))))
  {
    hide Stale, Without;
  }

  // While the pool is open, a region that does not put its caller to sleep
  // starts a wake-up for every sentry that it makes available.
  lemma RegionSignals(c: Params, g: Shared, t: nat, pc: Pc, ch: Choice)
    requires Runs(g, t, pc, ch) && Distinct(g.list) && !g.closed
    requires pc.ColdSpawned? || pc.RefillSpawned? ==> pc.s !in g.list
    requires !Region(c, g, t, pc, ch).pc.Asleep? && !pc.Closing?
    ensures Signalled(g, pc, Region(c, g, t, pc, ch))
  {
    if pc.Scanning? {
      ScanSignals(c, g, t, pc, ch);
    } else if pc.ColdSpawned? || pc.RefillSpawned? {
      AppendSignals(c, g, t, pc, ch);
    } else if pc.Removing? {
      RemoveSignals(c, g, t, pc, ch);
    } else if InReap(pc) {
      ReapSignals(c, g, t, pc, ch);
    } else {
      RestSignals(c, g, t, pc, ch);
    }
  }

  lemma RestSignals(c: Params, g: Shared, t: nat, pc: Pc, ch: Choice)
    requires Runs(g, t, pc, ch) && Distinct(g.list) && !g.closed
    requires !pc.Scanning? && !pc.ColdSpawned? && !pc.RefillSpawned? && !pc.Removing? && !InReap(pc)
    requires !Region(c, g, t, pc, ch).pc.Asleep? && !pc.Closing?
    ensures Signalled(g, pc, Region(c, g, t, pc, ch))
  {
    hide Region, SentryOf, Awake, Signaller;
    RegionQuickens(c, g, t, pc, ch);
    QuickensOwes(g, pc, Region(c, g, t, pc, ch));
    RegionSteady(c, g, t, pc, ch);
  }
}
