// Runs that show which properties the pool does not have. The exact conditions
// under which it has them are in Progress, Overshoot, AfterClose and Expiry.
module Witnesses {
  import opened Basics
  import opened Protocol
  import opened Solo
  import opened Stretches
  import opened Effects
  import opened Services
  import opened Alone
  import opened Continuing
  import AfterClose
  import Draining
  import Expiry
  import Safety
  import Progress
  import Sizes
  import System

  const EMPTY_BOOK: Book := Book(map[], [], 0, [], 0, 0, 0, false)

  function Opened(c: Params): Shared {
    Shared(None, [Fresh(c)], [0], 0, false, false, 0, [], 0, 0, EMPTY_BOOK)
  }

  lemma Begin(c: Params) returns (a: State)
    requires c.poolSize == 1
    ensures Reachable(c, a) && a == State(Opened(c), if c.reaps then [Reaping] else [])
  {
    a := State(Opened(c), if c.reaps then [Reaping] else []);
    assert Init(c, a);
    assert IsRun(c, [a]) && Init(c, [a][0]) && [a][|[a]| - 1] == a;
  }

  lemma Arrives(c: Params, a: State, pc: Pc) returns (b: State)
    requires Reachable(c, a) && (pc.Entering? || pc.Completing?)
    ensures Reachable(c, b) && b == State(a.g, a.threads + [pc])
  {
    b := State(a.g, a.threads + [pc]);
    if pc.Entering? {
      assert pc == Entering(pc.r);
    } else {
      assert pc == Completing(pc.l);
    }
    assert Arrival(a, b);
    Safety.ReachableNext(c, a, b);
  }

  lemma ShutdownArrives(c: Params, a: State) returns (b: State)
    requires Reachable(c, a) && !a.g.book.shutdown
    ensures Reachable(c, b)
    ensures b == State(a.g.(book := a.g.book.(shutdown := true)), a.threads + [Cancelling])
  {
    b := State(a.g.(book := a.g.book.(shutdown := true)), a.threads + [Cancelling]);
    assert Arrival(a, b);
    Safety.ReachableNext(c, a, b);
  }

  // ---- a sleeper with nothing to wait for --------------------------------

  const STOCK := Params(1, 0, true, false, "img", 1, false, [])

  function AllFail(i: nat): bool { false }

  const BAD_LUCK := Luck(true, true, true, true, AllFail)

  // The one member in the hands of an executor.
  lemma StockHands() returns (a: State)
    ensures Reachable(STOCK, a) && a == State(Taken(Opened(STOCK), 0, 0), [Acquired(None, 0)])
  {
    hide Reaches, Reachable, Continues, Spawned, HasSleeper;
    a := Begin(STOCK);
    a := Arrives(STOCK, a, Entering(None));
    var g := a.g;
    ReadyWhenFresh(STOCK);
    FirstTurn(STOCK, g, 0, None);
    TurnReaches(STOCK, 0, g, None, false);
    hide Turn;
    a := AloneQuietly(STOCK, a, 0, Taken(g, 0, 0), Acquired(None, 0), []);
    assert a.threads == [Acquired(None, 0)];
  }

  lemma FirstTurn(c: Params, g: Shared, t: nat, r: Request)
    requires Sound(g) && !g.closed && g.list != [] && g.sentries[g.list[0]].state.Ready?
    ensures Turn(c, g, t, r, false) == Go(Taken(g, g.list[0], t), Acquired(r, g.list[0]))
  {
    assert FirstReady(g, 0) == 0;
    assert g.(pending := g.pending - 0) == g;
  }

  // Then under a lease.
  lemma StockServes() returns (a: State)
    ensures Reachable(STOCK, a) && a == State(Registered(Taken(Opened(STOCK), 0, 0), 0, None), [Done])
  {
    a := StockHands();
    hide Reaches, Reachable, Continues, Registered, Spawned, HasSleeper;
    var g := a.g;
    ServedReaches(STOCK, 0, g, 0, None, true);
    a := AloneQuietly(STOCK, a, 0, Registered(g, 0, None), Done, []);
    assert a.threads == [Done];
  }

  lemma ReadyWhenFresh(c: Params)
    ensures Fresh(c).state.Ready? && Fresh(c).birth.Live? && Fresh(c).drained == 0 && Fresh(c).cleaned == 0
  {
  }

  // A second caller goes to sleep behind it.
  lemma StockQueues() returns (a: State)
    ensures Reachable(STOCK, a) && Lent(a.g) && a.threads == [Done, Asleep(None)]
  {
    hide Reaches, Reachable, Continues, Registered, HasSleeper;
    a := StockServes();
    var g := a.g;
    LeasedPool(g);
    a := Arrives(STOCK, a, Entering(None));
    LastTurn(g);
    TurnReaches(STOCK, 1, g, None, false);
    hide Turn;
    a := AloneQuietly(STOCK, a, 1, g.(pending := 1), Asleep(None), []);
    assert a.threads == [Done, Asleep(None)];
  }

  lemma LastTurn(g: Shared)
    requires Lent(g) && g.pending == 0
    ensures Turn(STOCK, g, 1, None, false) == Go(g.(pending := 1), Asleep(None))
  {
    assert FirstReady(g, 0) == 1;
  }

  // The lease is completed.
  lemma StockCompletes() returns (a: State)
    ensures Reachable(STOCK, a) && a.threads == [Done, Asleep(None), Recycling(0)]
    ensures Sound(a.g) && !a.g.closed && a.g.list == [0] && |a.g.sentries| == 1
    ensures a.g.book.leases == map[] && a.g.failed == 0
  {
    hide Reaches, Reachable, Continues, Completed, HasSleeper;
    a := StockQueues();
    var g := a.g;
    a := Arrives(STOCK, a, Completing(0));
    CompletedReaches(STOCK, 2, g, 0);
    var o := Completed(g, 2, 0);
    a := AloneQuietly(STOCK, a, 2, o.g, o.pc, []);
    CompletedPool(g);
    assert a.threads == [Done, Asleep(None), Recycling(0)];
  }

  // A reachable state of an open pool in which a caller sleeps, the list and the
  // lease table are empty, and no other thread has anything left to do: the
  // condition of Progress.SleepersAreServed cannot be dropped.
  lemma StuckSleeper() returns (a: State)
    ensures Reachable(STOCK, a) && !a.g.closed
    ensures HasSleeper(a.threads) && a.g.list == [] && a.g.book.leases == map[]
    ensures forall t :: 0 <= t < |a.threads| ==> !Progress.Busy(a.threads[t])
    ensures a.g.failed == STOCK.poolSize
  {
    hide Reaches, Reachable, Continues, Recycled, HasSleeper;
    a := StockCompletes();
    var g := a.g;
    RecycledReaches(STOCK, 2, g, 0, BAD_LUCK);
    var e := Recycled(STOCK, g, 2, 0, BAD_LUCK);
    FailedRecycle(g);
    a := AloneQuietly(STOCK, a, 2, e.g.(joining := g.joining - 1), Done, []);
    assert a.threads == [Done, Asleep(None), Done];
    Sleeps(a.threads, 1);
  }

  lemma Sleeps(ts: seq<Pc>, t: nat)
    requires t < |ts| && ts[t].Asleep?
    ensures HasSleeper(ts)
  {
  }

  // The pool of one with its member leased.
  ghost predicate Lent(g: Shared) {
    && Sound(g) && !g.closed && g.list == [0] && |g.sentries| == 1 && g.sentries[0].state.Running?
    && g.book.leases == map[0 := 0] && g.failed == 0
  }

  lemma LeasedPool(g: Shared)
    requires g == Registered(Taken(Opened(STOCK), 0, 0), 0, None)
    ensures Lent(g) && g.pending == 0
  {
    ReadyWhenFresh(STOCK);
  }

  lemma CompletedPool(g: Shared)
    requires Lent(g)
    ensures var o := Completed(g, 2, 0);
            && Sound(o.g) && !o.g.closed && o.g.list == [0] && |o.g.sentries| == 1 && o.pc == Recycling(0)
            && o.g.book.leases == map[] && o.g.failed == 0
  {
  }

  lemma FailedRecycle(g: Shared)
    requires Sound(g) && !g.closed && g.list == [0] && |g.sentries| == 1 && g.failed == 0
    ensures var e := Recycled(STOCK, g, 2, 0, BAD_LUCK);
            e.g.list == [] && e.calls == [] && !e.g.closed && e.g.failed == 1 && e.g.book == g.book
  {
    var h := Set(g, 0, Emptied(g.sentries[0], true));
    Sizes.DiscardSizes(STOCK, h, 2, 0, AllFail);
    assert Sizes.Wins(AllFail, 0, 1) == 0;
  }

  // ---- more members than PoolSize, more pending than MaxPending -----------

  const SMALL := Params(1, 1, true, true, "img", 1, true, [])

  // The only member is evicted.
  lemma SmallIsEmptied() returns (a: State)
    ensures Reachable(SMALL, a) && Bare(a.g) && a.g.pending == 0 && a.threads == [Reaping]
  {
    hide Reaches, Reachable, Continues, Spawned, HasSleeper;
    a := Begin(SMALL);
    var g := a.g;
    ReadyWhenFresh(SMALL);
    var h := CleanedAll(Reaped(g, 0, {0}), Evicted(g, {0}));
    LonePass(g);
    PassReaches(SMALL, 0, g, {0});
    a := AloneQuietly(SMALL, a, 0, h, Reaping, []);
  }

  ghost predicate Bare(g: Shared) {
    Sound(g) && g.list == [] && !g.closed
  }

  // One more caller turns to the cold path.
  lemma GoesCold(a: State) returns (b: State)
    requires Reachable(SMALL, a) && Bare(a.g)
    ensures Reachable(SMALL, b) && b == State(a.g.(pending := a.g.pending + 1), a.threads + [ColdStart(None)])
  {
    hide Reaches, Reachable, Continues, HasSleeper;
    b := Arrives(SMALL, a, Entering(None));
    var t := |a.threads|;
    TurnReaches(SMALL, t, a.g, None, false);
    b := AloneQuietly(SMALL, b, t, a.g.(pending := a.g.pending + 1), ColdStart(None), []);
    assert b.threads == a.threads + [ColdStart(None)];
  }

  // And comes back with a sentry of its own.
  lemma ComesBack(a: State, t: nat) returns (b: State)
    requires Reachable(SMALL, a) && Sound(a.g) && !a.g.closed && t < |a.threads| && a.threads[t] == ColdStart(None)
    ensures Reachable(SMALL, b) && Sound(b.g) && !b.g.closed && |b.g.list| == |a.g.list| + 1
    ensures |b.threads| == |a.threads| && forall u :: 0 <= u < |a.threads| && u != t ==> b.threads[u] == a.threads[u]
  {
    hide Reaches, Reachable, Continues, Spawned, HasSleeper;
    Effects.ColdSpawnReaches(SMALL, t, a.g, None, true);
    var o := Effects.ColdSpawn(SMALL, a.g, t, None, true);
    b := AloneQuietly(SMALL, a, t, o.g, o.pc, []);
  }

  // After the only member was evicted, two callers spawn at once: pending passes
  // the limit, and then the list passes PoolSize. The exact conditions are
  // Overshoot.PendingPassesExactly, Overshoot.OvershootsExactly and
  // Overshoot.PushesPastExactly.
  lemma ColdCallersOvershoot() returns (a: State, b: State)
    ensures Reachable(SMALL, a) && a.g.pending > QueueLimit(SMALL)
    ensures Reachable(SMALL, b) && |b.g.list| > SMALL.poolSize
  {
    hide Reachable;
    a := SmallIsEmptied();
    a := GoesCold(a);
    a := GoesCold(a);
    b := ComesBack(a, 1);
    b := ComesBack(b, 2);
  }

  lemma LonePass(g: Shared)
    requires Sound(g) && g.list == [0] && |g.sentries| == 1 && g.sentries[0].state.Ready? && !g.closed && g.pending == 0
    ensures Within(Evicted(g, {0}), |g.sentries|)
    ensures var h := CleanedAll(Reaped(g, 0, {0}), Evicted(g, {0}));
            Sound(h) && h.list == [] && !h.closed && h.pending == 0
  {
    EvictedInRange(g, 0, {0});
    assert Stale(g, {0}) == {0};
    assert (set x | x in g.list) - Stale(g, {0}) == {};
    WithoutNone(g.list, {});
    assert Evicted(g, {0}) == [0];
  }

  // ---- a lease after Shutdown, and a second clean-up ---------------------

  // Shutdown closes the pool under an executor.
  lemma StockCloses() returns (a: State)
    ensures Reachable(STOCK, a) && a.threads == [Acquired(None, 0), Done]
    ensures Shut(a.g)
  {
    a := StockHands();
    hide Reaches, Reachable, Continues, HasSleeper, Spawned;
    a := ShutdownArrives(STOCK, a);
    var g := a.g;
    ReadyWhenFresh(STOCK);
    CancelledReaches(STOCK, 1, g);
    a := AloneQuietly(STOCK, a, 1, Cancelled(g), Stopping, []);
    ShutDownReaches(STOCK, 1, Cancelled(g));
    NoneSleeps(a.threads);
    a := AloneQuietly(STOCK, a, 1, ShutDown(Cancelled(g)), Done, [Everybody]);
    ShutPool(g);
    assert a.threads == [Acquired(None, 0), Done];
  }

  // The closed pool of one, its member cleaned up by Shutdown.
  ghost predicate Shut(g: Shared) {
    && Sound(g) && g.closed && |g.sentries| == 1 && g.list == [] && g.book.leases == map[] && g.book.issued == []
    && g.sentries[0].drained == 1 && g.sentries[0].cleaned == 0 && g.sentries[0].birth.Live?
  }

  lemma ShutPool(g: Shared)
    requires g == Taken(Opened(STOCK), 0, 0).(book := EMPTY_BOOK.(shutdown := true))
    ensures Sound(g) && Sound(Cancelled(g)) && g.joining == 0
    ensures Shut(ShutDown(Cancelled(g)))
  {
    ReadyWhenFresh(STOCK);
  }

  // An executor that acquired before the close registers its lease after it; the
  // lease ends in a second clean-up of a sentry that Shutdown has cleaned up. The
  // exact conditions are AfterClose.LateLeaseExactly and AfterClose.TwiceExactly.
  lemma LateLease() returns (a: State, b: State)
    ensures Reachable(STOCK, a) && a.g.closed && a.g.book.leases != map[]
    ensures Reachable(STOCK, b) && Continues(STOCK, a, b)
    ensures |b.g.sentries| > 0 && b.g.sentries[0].cleaned + b.g.sentries[0].drained == 2
  {
    hide Reaches, Reachable, Continues, HasSleeper;
    var z := StockCloses();
    ServedReaches(STOCK, 0, z.g, 0, None, true);
    a := AloneQuietly(STOCK, z, 0, Registered(z.g, 0, None), Done, []);
    LateRegistered(z.g);
    b := AfterClose.Twice(STOCK, a, 0);
    ReachableOnward(STOCK, a, b);
  }

  lemma LateRegistered(g: Shared)
    requires Shut(g)
    ensures var h := Registered(g, 0, None);
            && h.closed && 0 in h.book.leases && |h.sentries| == 1 && h.sentries[0].drained == 1
            && AfterClose.Leased(h, 0)
  {
    assert Registered(g, 0, None).book.leases[0] == 0;
  }

  // ---- an expiry that comes too early ------------------------------------

  // An executor carries lease 0 to the table.
  lemma StockCarries() returns (a: State)
    ensures Reachable(STOCK, a) && a == State(Issued(Taken(Opened(STOCK), 0, 0), 0), [Leasing(None, 0, 0)])
  {
    a := StockHands();
    hide Reaches, Reachable, Continues, Spawned, HasSleeper, Issued;
    var g := a.g;
    Single(STOCK, 0, g, Acquired(None, 0), AnyCase(true), Go(g, Restored(None, 0)));
    a := AloneQuietly(STOCK, a, 0, g, Restored(None, 0), []);
    IssuedReaches(STOCK, 0, g, 0, None);
    a := AloneQuietly(STOCK, a, 0, Issued(g, 0), Leasing(None, 0, 0), []);
    assert a.threads == [Leasing(None, 0, 0)];
  }

  // The timer is armed before the lease is in the table. Here it fires in
  // between: its Complete of lease 0 runs while thread 0 still carries the lease,
  // finds nothing and is done; then the lease goes in, and no thread has a step
  // left that could end it. The exact condition is Expiry.EndsIffInserted.
  lemma EarlyExpiry() returns (a1: State, a2: State, a3: State, ch: Choice)
    ensures Reachable(STOCK, a1) && Expiry.Carries(a1, 0, 0) && a1.threads == [Leasing(None, 0, 0), Completing(0)]
    ensures |a1.g.book.issued| == 1 && 0 !in a1.g.book.leases && !a1.g.closed
    ensures Step(STOCK, a1, a2, 1, ch) && a2 == State(a1.g, [Leasing(None, 0, 0), Done])
    ensures Step(STOCK, a2, a3, 0, ch) && Expiry.Inserts(a2, a3, 0) && a3.threads == [Done, Done]
    ensures 0 in a3.g.book.leases && !a3.g.closed && forall b :: !Moves(STOCK, a3, b)
  {
    var a := StockCarries();
    FreshTable(Taken(Opened(STOCK), 0, 0));
    hide Reachable, Step, Moves, Issued;
    ch := AnyCase(true);
    a1, a2 := FiresEarly(a, ch);
    a3 := InsertsLate(a2, ch);
  }

  lemma FiresEarly(a: State, ch: Choice) returns (b: State, d: State)
    requires Reachable(STOCK, a) && a.threads == [Leasing(None, 0, 0)] && a.g.book.leases == map[]
    ensures Reachable(STOCK, b) && b == State(a.g, [Leasing(None, 0, 0), Completing(0)])
    ensures Step(STOCK, b, d, 1, ch) && d == State(a.g, [Leasing(None, 0, 0), Done])
  {
    b := Arrives(STOCK, a, Completing(0));
    Progress.RefersAlwaysReachable(STOCK, b, 1);
    assert System.PcOf(b, 1) == Completing(0);
    NoneSleeps(b.threads);
    Misses(STOCK, b.g, 1, 0, ch);
    hide Reachable, HasSleeper, Refers, Region, Step;
    assert CanRun(b.g, 1, Completing(0), ch);
    d := Draining.QuietlySteps(STOCK, b, 1, ch);
  }

  lemma Misses(c: Params, g: Shared, t: nat, l: nat, ch: Choice)
    requires Refers(g, Completing(l)) && l !in g.book.leases
    ensures Region(c, g, t, Completing(l), ch) == Go(g, Done)
  {
  }

  lemma InsertsLate(a: State, ch: Choice) returns (b: State)
    requires a == State(Issued(Taken(Opened(STOCK), 0, 0), 0), [Leasing(None, 0, 0), Done])
    ensures Step(STOCK, a, b, 0, ch) && Expiry.Inserts(a, b, 0) && b.threads == [Done, Done]
    ensures 0 in b.g.book.leases && !b.g.closed && forall d :: !Moves(STOCK, b, d)
  {
    var g := Taken(Opened(STOCK), 0, 0);
    FreshTable(g);
    InsertsOne(g, ch);
    NoneSleeps(a.threads);
    hide Reachable, HasSleeper, Refers, Issued, Registered, Region;
    b := Draining.QuietlySteps(STOCK, a, 0, ch);
    assert b.threads == [Done, Done];
    AllDone(STOCK, b);
    assert Expiry.Carries(a, 0, 0) && System.PcOf(b, 0).Done?;
  }

  lemma InsertsOne(g: Shared, ch: Choice)
    requires |g.sentries| == 1 && g.book.issued == [] && Sound(Issued(g, 0))
    ensures Region(STOCK, Issued(g, 0), 0, Leasing(None, 0, 0), ch) == Go(Registered(g, 0, None), Done)
  {
    assert Set(Issued(g, 0), 0, Registered(g, 0, None).sentries[0]).sentries == Registered(g, 0, None).sentries;
  }

  lemma AllDone(c: Params, a: State)
    requires forall t :: 0 <= t < |a.threads| ==> a.threads[t].Done?
    ensures forall b :: !Moves(c, a, b)
  {
  }

  lemma FreshTable(g: Shared)
    requires g == Taken(Opened(STOCK), 0, 0)
    ensures |g.sentries| == 1 && g.book.issued == []
    ensures Sound(Issued(g, 0)) && !Issued(g, 0).closed && Refers(Issued(g, 0), Leasing(None, 0, 0))
    ensures Issued(g, 0).book.leases == map[] && Issued(g, 0).book.issued == [0]
    ensures 0 in Registered(g, 0, None).book.leases && !Registered(g, 0, None).closed
  {
    ReadyWhenFresh(STOCK);
  }

  lemma NoneSleeps(ts: seq<Pc>)
    requires forall t :: 0 <= t < |ts| ==> !ts[t].Asleep?
    ensures !HasSleeper(ts)
  {
  }
}
