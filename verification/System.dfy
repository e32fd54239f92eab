// The invariant of the whole system: the region-level facts for every thread,
// and the counters as sums over all threads. Kept by every step, it holds in
// every reachable state.
module System {
  import opened Basics
  import opened Protocol
  import opened Invariant
  import opened Accounting
  import opened Wakeup
  import InvariantRegions

  // Threads that do not exist yet count as finished.
  function PcOf(a: State, t: nat): Pc {
    if t < |a.threads| then a.threads[t] else Done
  }

  ghost predicate Core(c: Params, a: State) {
    && (forall t: nat :: LocalOk(c, a.g, t, PcOf(a, t)))
    && (a.g.closed ==> !HasSleeper(a.threads))
  }

  ghost predicate Counters(c: Params, a: State) {
    && a.g.pending == Sum(a.threads, Pending)
    && a.g.joining == Sum(a.threads, Recycler)
    && Unregistered(a.g.book) == Sum(a.threads, Uninserted)
    && Unstarted(a.g.book) == Sum(a.threads, Unlaunched)
    && Open(a.g.book) == 0
    && Bit(a.g.closed) + Sum(a.threads, Closer) == Bit(a.g.book.shutdown)
  }

  ghost predicate Bounds(c: Params, a: State) {
    && Sum(a.threads, Queued) <= Max(QueueLimit(c), 0)
    && a.g.failed >= 0 && a.g.evicted >= 0
    && (!a.g.closed ==> Stock(a.g) + Sum(a.threads, Due) >= c.poolSize)
    && (a.g.doomed != [] ==> Sum(a.threads, Flusher) >= 1)
    && (forall s :: 0 <= s < |a.g.sentries| && a.g.sentries[s].owner.Orphan? ==> a.g.book.shutdown)
  }

  ghost predicate Wakes(a: State) {
    && (HasSleeper(a.threads) ==>
          ReadyMembers(a.g) <= Sum(a.threads, Awake) + Sum(a.threads, Signaller))
    && (forall t: nat :: PcOf(a, t).Scanning? && PcOf(a, t).i <= |a.g.list| ==>
          ReadyIn(a.g.list[..PcOf(a, t).i], a.g.sentries) <= Sum(a.threads, Signaller))
  }

  ghost predicate Inv(c: Params, a: State) {
    Core(c, a) && Counters(c, a) && Bounds(c, a) && Wakes(a)
  }

  // ---- sums over a step ---------------------------------------------------

  // Waking does not change this weight.
  ghost predicate Neutral(w: Pc -> int) {
    forall pc :: w(Roused(pc)) == w(pc)
  }

  lemma {:induction false} SumPointwise(xs: seq<Pc>, ys: seq<Pc>, w: Pc -> int)
    requires |xs| == |ys|
    requires forall i :: 0 <= i < |xs| ==> w(xs[i]) == w(ys[i])
    ensures Sum(xs, w) == Sum(ys, w)
  {
    if xs != [] {
      assert w(xs[0]) == w(ys[0]);
      forall i | 0 <= i < |xs[1..]| ensures w(xs[1..][i]) == w(ys[1..][i]) {
        assert xs[1..][i] == xs[i + 1] && ys[1..][i] == ys[i + 1];
      }
      SumPointwise(xs[1..], ys[1..], w);
    }
  }

  lemma SumRouse(xs: seq<Pc>, wake: Wake, wakee: nat, w: Pc -> int)
    requires Neutral(w)
    ensures Sum(Rouse(xs, wake, wakee), w) == Sum(xs, w)
  {
    SumPointwise(Rouse(xs, wake, wakee), xs, w);
  }

  // A step moves a neutral sum by its own thread's weight.
  lemma SumStep(c: Params, a: State, b: State, t: nat, ch: Choice, w: Pc -> int)
    requires Step(c, a, b, t, ch) && Neutral(w)
    ensures var o := Region(c, a.g, t, a.threads[t], ch);
            Sum(b.threads, w) == Sum(a.threads, w) - w(a.threads[t]) + w(o.pc)
  {
    hide Region, Refers, CanRun;
    var o := Region(c, a.g, t, a.threads[t], ch);
    SumUpdate(a.threads, t, o.pc, w);
    SumRouse(a.threads[t := o.pc], o.wake, ch.wakee, w);
  }

  lemma NeutralWeights()
    ensures Neutral(Pending) && Neutral(Recycler) && Neutral(Uninserted) && Neutral(Unlaunched)
    ensures Neutral(Closer) && Neutral(Queued) && Neutral(Due) && Neutral(Flusher) && Neutral(Signaller)
  {
  }

  lemma NonNegativeWeights()
    ensures forall pc :: Due(pc) >= 0 && Queued(pc) >= 0 && Awake(pc) >= 0
    ensures forall pc :: Signaller(pc) >= 0 && Recycler(pc) >= 0 && Closer(pc) >= 0
  {
  }

  // ---- the core -----------------------------------------------------------

  // Another thread's view survives a region, whether or not it is woken.
  lemma OtherKept(c: Params, g: Shared, h: Shared, t: nat, pc: Pc, u: nat, q: Pc, q': Pc)
    requires LocalOk(c, g, u, q) && LocalOk(c, h, t, pc) && Spares(g, h, t) && u != t
    requires q' == q || q' == Roused(q)
    ensures LocalOk(c, h, u, q')
  {
    hide Fact, Listed, Booked, Granted, GrantOk;
    assert PcOk(h, u, q');
    hide PcOk;
    forall s | 0 <= s < |h.sentries|
      ensures h.sentries[s].owner == Thread(u) <==> Holds(q', s)
      ensures Bounded(c, h.sentries[s])
      ensures !Foreign(h.sentries[s], u) ==> Fact(c, h, s, q')
    {
      OtherFact(c, g, h, t, pc, u, q, q', s);
    }
  }

  lemma OtherFact(c: Params, g: Shared, h: Shared, t: nat, pc: Pc, u: nat, q: Pc, q': Pc, s: nat)
    requires LocalOk(c, g, u, q) && LocalOk(c, h, t, pc) && Spares(g, h, t) && u != t
    requires q' == q || q' == Roused(q)
    requires s < |h.sentries|
    ensures h.sentries[s].owner == Thread(u) <==> Holds(q', s)
    ensures Bounded(c, h.sentries[s])
    ensures !Foreign(h.sentries[s], u) ==> Fact(c, h, s, q')
  {
    hide Fact, Bounded, Booked, Granted, GrantOk;
    assert Holds(q', s) <==> Holds(q, s);
    if h.sentries[s].owner == Thread(u) {
      assert Foreign(h.sentries[s], t);
      FactKept(c, g, h, t, u, s, q);
      RousedFact(c, h, s, q);
    } else if !Foreign(h.sentries[s], u) {
      FactFramed(c, h, h, s, pc, q');
    }
    assert s < |g.sentries| && g.sentries[s].owner == Thread(u) ==> Foreign(g.sentries[s], t);
  }

  lemma RousedFact(c: Params, h: Shared, s: nat, q: Pc)
    requires s < |h.sentries|
    ensures Fact(c, h, s, q) ==> Fact(c, h, s, Roused(q))
  {
  }

  // Outside acquire no region leaves its caller scanning or in the queue.
  lemma LeavesQueue(c: Params, g: Shared, t: nat, pc: Pc, ch: Choice)
    requires Runs(g, t, pc, ch) && !InAcquire(pc)
    ensures var o := Region(c, g, t, pc, ch);
            !o.pc.Scanning? && (pc.Asleep? || Queued(o.pc) == 0)
  {
    hide Refers, Spawned, Flushed, Reassign, Cleaned, Stale, Without;
  }

  // Only a scan ends asleep.
  lemma SleepShape(c: Params, g: Shared, t: nat, pc: Pc, ch: Choice)
    requires Runs(g, t, pc, ch)
    ensures var o := Region(c, g, t, pc, ch);
            o.pc.Asleep? ==>
              && pc.Scanning? && o.wake.Nobody?
              && pc.i >= |g.list| && o.g.list == g.list && o.g.sentries == g.sentries
  {
    if InAcquire(pc) {
    } else {
      LeavesQueue(c, g, t, pc, ch);
    }
  }

  // Where a thread stands after a step of thread t.
  lemma AfterStep(c: Params, a: State, b: State, t: nat, ch: Choice, u: nat)
    requires Step(c, a, b, t, ch)
    ensures u != t ==> PcOf(b, u) == PcOf(a, u) || PcOf(b, u) == Roused(PcOf(a, u))
    ensures PcOf(b, t) == Region(c, a.g, t, a.threads[t], ch).pc
  {
    SleepShape(c, a.g, t, a.threads[t], ch);
    hide Region, Refers, CanRun;
  }

  lemma CoreStep(c: Params, a: State, b: State, t: nat, ch: Choice)
    requires Core(c, a) && Step(c, a, b, t, ch)
    requires a.threads[t].Closing? ==> !a.g.closed
    ensures Core(c, b)
    ensures Spares(a.g, b.g, t)
  {
    var pc := a.threads[t];
    var o := Region(c, a.g, t, pc, ch);
    assert PcOf(a, t) == pc;
    InvariantRegions.RegionKeeps(c, a.g, t, pc, ch);
    hide Region, Refers, CanRun, LocalOk, Spares;
    forall u: nat ensures LocalOk(c, b.g, u, PcOf(b, u)) {
      AfterStep(c, a, b, t, ch, u);
      if u != t {
        assert LocalOk(c, a.g, u, PcOf(a, u));
        OtherKept(c, a.g, b.g, t, o.pc, u, PcOf(a, u), PcOf(b, u));
      }
    }
    SleepersGone(c, a, b, t, ch);
  }

  lemma SleepersGone(c: Params, a: State, b: State, t: nat, ch: Choice)
    requires Core(c, a) && Step(c, a, b, t, ch)
    ensures b.g.closed ==> !HasSleeper(b.threads)
  {
    var pc := a.threads[t];
    SleepShape(c, a.g, t, pc, ch);
    RegionQuickens(c, a.g, t, pc, ch);
    assert LocalOk(c, a.g, t, PcOf(a, t));
    assert CanRun(a.g, t, pc, ch) && pc.Scanning? ==> a.g.lock.Some?;
    hide Region, Refers, CanRun, OwnOk, Booked, Granted;
    forall u | 0 <= u < |b.threads| && b.g.closed ensures !b.threads[u].Asleep? {
      AfterStep(c, a, b, t, ch, u);
      assert PcOf(a, u) == a.threads[u];
    }
  }

  // A new thread starts with nothing in hand.
  lemma CoreArrival(c: Params, a: State, b: State)
    requires Core(c, a) && Arrival(a, b)
    ensures Core(c, b)
  {
    hide LocalOk;
    var n := |a.threads|;
    assert |b.threads| == n + 1 && b.threads[..n] == a.threads;
    forall u: nat ensures LocalOk(c, b.g, u, PcOf(b, u)) {
      assert LocalOk(c, a.g, u, PcOf(a, u));
      if u < n {
        assert PcOf(b, u) == b.threads[..n][u] == PcOf(a, u);
      }
      ArrivalKeeps(c, a.g, b.g, u, PcOf(a, u), PcOf(b, u));
    }
    forall u | 0 <= u < |b.threads| && b.g.closed ensures !b.threads[u].Asleep? {
      assert u < n ==> b.threads[..n][u] == a.threads[u];
    }
  }

  lemma ArrivalKeeps(c: Params, g: Shared, h: Shared, u: nat, pc: Pc, pc': Pc)
    requires LocalOk(c, g, u, pc)
    requires h == g.(book := g.book.(shutdown := h.book.shutdown))
    requires pc' == pc || (pc.Done? && (pc'.Entering? || pc'.Completing? || pc'.Cancelling?))
    ensures LocalOk(c, h, u, pc')
  {
    hide Fact, GrantOk;
    assert PcOk(h, u, pc') && forall s :: Holds(pc', s) <==> Holds(pc, s);
    hide PcOk, Holds;
    forall s | 0 <= s < |h.sentries| && !Foreign(h.sentries[s], u)
      ensures Fact(c, h, s, pc')
    {
      ArrivalFact(c, g, h, u, pc, pc', s);
    }
  }

  lemma ArrivalFact(c: Params, g: Shared, h: Shared, u: nat, pc: Pc, pc': Pc, s: nat)
    requires h == g.(book := g.book.(shutdown := h.book.shutdown)) && s < |g.sentries|
    requires pc' == pc || !g.sentries[s].owner.Thread?
    ensures Fact(c, g, s, pc) ==> Fact(c, h, s, pc')
  {
  }

  // ---- the counters -------------------------------------------------------

  lemma ClosingIsOpen(c: Params, a: State, t: nat)
    requires Counters(c, a) && t < |a.threads| && a.threads[t].Closing?
    ensures !a.g.closed
  {
    SumBound(a.threads, Closer);
    assert Closer(a.threads[t]) == 1;
  }

  lemma LeaseIsFresh(c: Params, g: Shared, t: nat, pc: Pc)
    requires LocalOk(c, g, t, pc) && pc.Leasing?
    ensures pc.l !in g.book.leases
  {
    InvariantRegions.Held(c, g, t, pc, pc.s);
  }

  lemma FreshCalls(c: Params, a: State, t: nat)
    requires Core(c, a) && Counters(c, a) && t < |a.threads|
    ensures a.threads[t].Closing? ==> !a.g.closed
    ensures a.threads[t].Leasing? ==> a.threads[t].l !in a.g.book.leases
    ensures a.threads[t].Cancelling? ==> a.g.book.shutdown
  {
    hide LocalOk;
    assert LocalOk(c, a.g, t, PcOf(a, t));
    if a.threads[t].Leasing? {
      LeaseIsFresh(c, a.g, t, PcOf(a, t));
    }
    SumBound(a.threads, Closer);
    assert Closer(a.threads[t]) >= 0;
  }

  lemma CountersStep(c: Params, a: State, b: State, t: nat, ch: Choice)
    requires Core(c, a) && Counters(c, a) && Step(c, a, b, t, ch)
    ensures Counters(c, b)
  {
    hide Region, Refers, CanRun, LocalOk, Pending, Recycler, Uninserted, Unlaunched, Closer, Neutral, Rouse, WakeOk;
    var pc := a.threads[t];
    assert LocalOk(c, a.g, t, PcOf(a, t));
    FreshCalls(c, a, t);
    RegionBalances(c, a.g, t, pc, ch);
    NeutralWeights();
    SumStep(c, a, b, t, ch, Pending);
    SumStep(c, a, b, t, ch, Recycler);
    SumStep(c, a, b, t, ch, Uninserted);
    SumStep(c, a, b, t, ch, Unlaunched);
    SumStep(c, a, b, t, ch, Closer);
  }

  // ---- the bounds ---------------------------------------------------------

  // A caller joins the queue only below the limit.
  lemma RegionQueues(c: Params, g: Shared, t: nat, pc: Pc, ch: Choice)
    requires Runs(g, t, pc, ch)
    ensures var o := Region(c, g, t, pc, ch);
            Queued(o.pc) <= Queued(pc) || (Queued(o.pc) == Queued(pc) + 1 && g.pending < QueueLimit(c))
  {
    if InAcquire(pc) {
    } else {
      LeavesQueue(c, g, t, pc, ch);
      hide Region;
    }
  }

  lemma QueuedBelowPending(ts: seq<Pc>)
    ensures 0 <= Sum(ts, Queued) <= Sum(ts, Pending)
  {
    if ts != [] {
      QueuedBelowPending(ts[1..]);
    }
  }

  lemma BoundsStep(c: Params, a: State, b: State, t: nat, ch: Choice)
    requires Core(c, a) && Counters(c, a) && Bounds(c, a) && Step(c, a, b, t, ch)
    ensures Bounds(c, b)
  {
    QueueStep(c, a, b, t, ch);
    StockStep(c, a, b, t, ch);
    FlushStep(c, a, b, t, ch);
    hide Core, Counters, Step, Stock;
  }

  lemma QueueStep(c: Params, a: State, b: State, t: nat, ch: Choice)
    requires Counters(c, a) && Sum(a.threads, Queued) <= Max(QueueLimit(c), 0) && Step(c, a, b, t, ch)
    ensures Sum(b.threads, Queued) <= Max(QueueLimit(c), 0)
  {
    hide Region, Refers, CanRun, Queued, Pending, Neutral, Rouse, WakeOk;
    RegionQueues(c, a.g, t, a.threads[t], ch);
    NeutralWeights();
    SumStep(c, a, b, t, ch, Queued);
    QueuedBelowPending(a.threads);
  }

  lemma StockStep(c: Params, a: State, b: State, t: nat, ch: Choice)
    requires Core(c, a) && Step(c, a, b, t, ch) && a.g.failed >= 0 && a.g.evicted >= 0
    requires !a.g.closed ==> Stock(a.g) + Sum(a.threads, Due) >= c.poolSize
    ensures b.g.failed >= 0 && b.g.evicted >= 0
    ensures !b.g.closed ==> Stock(b.g) + Sum(b.threads, Due) >= c.poolSize
  {
    hide Region, Refers, CanRun, Due, Neutral, Rouse, WakeOk;
    var pc := a.threads[t];
    assert LocalOk(c, a.g, t, PcOf(a, t));
    RegionCovers(c, a.g, t, pc, ch);
    RegionQuickens(c, a.g, t, pc, ch);
    NeutralWeights();
    NonNegativeWeights();
    SumStep(c, a, b, t, ch, Due);
    SumBound(a.threads, Due);
  }

  lemma FlushStep(c: Params, a: State, b: State, t: nat, ch: Choice)
    requires Core(c, a) && Counters(c, a) && Bounds(c, a) && Step(c, a, b, t, ch)
    ensures b.g.doomed != [] ==> Sum(b.threads, Flusher) >= 1
    ensures forall s :: 0 <= s < |b.g.sentries| && b.g.sentries[s].owner.Orphan? ==> b.g.book.shutdown
  {
    hide Region, Refers, CanRun, Neutral, Rouse, WakeOk, Stock;
    var pc := a.threads[t];
    FreshCalls(c, a, t);
    RegionQuickens(c, a.g, t, pc, ch);
    RegionBalances(c, a.g, t, pc, ch);
    NeutralWeights();
    SumStep(c, a, b, t, ch, Flusher);
    SumBound(a.threads, Flusher);
  }

  // ---- the wake-ups -------------------------------------------------------

  lemma {:induction false} AwakeIsQueuedLessSleeping(ts: seq<Pc>)
    ensures Sum(ts, Awake) == Sum(ts, Queued) - Sum(ts, Sleeping)
  {
    if ts != [] {
      AwakeIsQueuedLessSleeping(ts[1..]);
    }
  }

  // As long as a sleeper remains, each Signal adds one woken caller.
  lemma AwakeStep(c: Params, a: State, b: State, t: nat, ch: Choice)
    requires Step(c, a, b, t, ch) && HasSleeper(b.threads)
    ensures var o := Region(c, a.g, t, a.threads[t], ch);
            Sum(b.threads, Awake) == Sum(a.threads, Awake) + Awake(o.pc) - Awake(a.threads[t]) + Bit(o.wake.One?)
  {
    hide Region, Refers, CanRun;
    var o := Region(c, a.g, t, a.threads[t], ch);
    var ts := a.threads[t := o.pc];
    SumUpdate(a.threads, t, o.pc, Awake);
    var v :| 0 <= v < |b.threads| && b.threads[v].Asleep?;
    if o.wake.One? {
      assert ts[v].Asleep?;
      SumUpdate(ts, ch.wakee, Roused(ts[ch.wakee]), Awake);
    }
  }

  lemma ScanShape(c: Params, g: Shared, t: nat, pc: Pc, ch: Choice)
    requires Runs(g, t, pc, ch) && Region(c, g, t, pc, ch).pc.Scanning?
    ensures var o := Region(c, g, t, pc, ch);
            && o.g.list == g.list && o.g.sentries == g.sentries
            && (o.pc.i == 0 || (pc.Scanning? && pc.i < |g.list| && o.pc.i == pc.i + 1
                                && !g.sentries[g.list[pc.i]].state.Ready?))
            && Signaller(o.pc) == Signaller(pc) == 0
  {
    if InAcquire(pc) {
    } else {
      LeavesQueue(c, g, t, pc, ch);
      hide Region;
      assert false;
    }
  }

  // No lost wake-up, step by step.
  lemma WakesStep(c: Params, a: State, b: State, t: nat, ch: Choice)
    requires Core(c, a) && Core(c, b) && Wakes(a) && Step(c, a, b, t, ch)
    requires HasSleeper(b.threads)
    ensures ReadyMembers(b.g) <= Sum(b.threads, Awake) + Sum(b.threads, Signaller)
  {
    var pc := a.threads[t];
    var o := Region(c, a.g, t, pc, ch);
    assert LocalOk(c, a.g, t, PcOf(a, t));
    NeutralWeights();
    SumStep(c, a, b, t, ch, Signaller);
    if o.pc.Asleep? {
      SleepShape(c, a.g, t, pc, ch);
      AsleepIsCovered(c, a, t);
      NonNegativeWeights();
      SumBound(b.threads, Awake);
    } else {
      StillAsleep(c, a, b, t, ch);
      AwakeStep(c, a, b, t, ch);
      NotListed(c, a.g, t, pc);
      RegionSignals(c, a.g, t, pc, ch);
    }
  }

  lemma NotListed(c: Params, g: Shared, t: nat, pc: Pc)
    requires LocalOk(c, g, t, pc)
    ensures pc.ColdSpawned? || pc.RefillSpawned? ==> pc.s !in g.list
    ensures Distinct(g.list) && Within(g.list, |g.sentries|)
  {
    if pc.ColdSpawned? || pc.RefillSpawned? {
      InvariantRegions.Held(c, g, t, pc, pc.s);
    }
  }

  lemma AsleepIsCovered(c: Params, a: State, t: nat)
    requires Core(c, a) && Wakes(a) && t < |a.threads| && a.threads[t].Scanning? && a.threads[t].i >= |a.g.list|
    ensures ReadyMembers(a.g) <= Sum(a.threads, Signaller)
  {
    assert LocalOk(c, a.g, t, PcOf(a, t));
    assert PcOf(a, t).i == |a.g.list|;
    assert a.g.list[..PcOf(a, t).i] == a.g.list;
  }

  lemma StillAsleep(c: Params, a: State, b: State, t: nat, ch: Choice)
    requires Step(c, a, b, t, ch) && HasSleeper(b.threads)
    requires !Region(c, a.g, t, a.threads[t], ch).pc.Asleep?
    ensures HasSleeper(a.threads)
  {
    hide Region, Refers, CanRun;
    var v :| 0 <= v < |b.threads| && b.threads[v].Asleep?;
    assert a.threads[v].Asleep?;
  }

  // What lies behind a scan's cursor is owed a Signal, step by step.
  lemma CursorStep(c: Params, a: State, b: State, t: nat, ch: Choice, u: nat)
    requires Core(c, a) && Wakes(a) && Step(c, a, b, t, ch) && Spares(a.g, b.g, t)
    requires PcOf(b, u).Scanning? && PcOf(b, u).i <= |b.g.list|
    ensures ReadyIn(b.g.list[..PcOf(b, u).i], b.g.sentries) <= Sum(b.threads, Signaller)
  {
    var pc := a.threads[t];
    var o := Region(c, a.g, t, pc, ch);
    assert LocalOk(c, a.g, t, PcOf(a, t));
    NeutralWeights();
    NonNegativeWeights();
    SumStep(c, a, b, t, ch, Signaller);
    SumBound(a.threads, Signaller);
    AfterStep(c, a, b, t, ch, u);
    if u == t {
      OwnCursor(c, a, t, ch);
    } else {
      assert LocalOk(c, a.g, u, PcOf(a, u));
      OtherCursor(c, a, b, t, ch, u);
    }
  }

  lemma OwnCursor(c: Params, a: State, t: nat, ch: Choice)
    requires Wakes(a) && t < |a.threads| && Runs(a.g, t, a.threads[t], ch)
    requires Region(c, a.g, t, a.threads[t], ch).pc.Scanning?
    ensures var o := Region(c, a.g, t, a.threads[t], ch);
            && Signaller(o.pc) == Signaller(a.threads[t])
            && (o.pc.i <= |o.g.list| ==> ReadyIn(o.g.list[..o.pc.i], o.g.sentries) <= Sum(a.threads, Signaller))
  {
    var pc := a.threads[t];
    var o := Region(c, a.g, t, pc, ch);
    ScanShape(c, a.g, t, pc, ch);
    NonNegativeWeights();
    SumBound(a.threads, Signaller);
    hide Region;
    if o.pc.i > 0 && o.pc.i <= |o.g.list| {
      assert PcOf(a, t) == pc;
      assert a.g.list[..pc.i + 1] == a.g.list[..pc.i] + [a.g.list[pc.i]];
      ReadyAppend(a.g.list[..pc.i], a.g.list[pc.i], a.g.sentries);
    }
  }

  lemma OtherCursor(c: Params, a: State, b: State, t: nat, ch: Choice, u: nat)
    requires Wakes(a) && Step(c, a, b, t, ch) && Spares(a.g, b.g, t) && u != t
    requires LocalOk(c, a.g, u, PcOf(a, u))
    requires PcOf(b, u).Scanning? && PcOf(a, u) == PcOf(b, u) && PcOf(b, u).i <= |b.g.list|
    ensures var o := Region(c, a.g, t, a.threads[t], ch);
            && Signaller(a.threads[t]) == 0
            && ReadyIn(b.g.list[..PcOf(b, u).i], b.g.sentries) <= Sum(a.threads, Signaller) + Signaller(o.pc)
  {
    var pc := a.threads[t];
    RegionQuickens(c, a.g, t, pc, ch);
    hide Region;
    QuickensOwes(a.g, pc, Region(c, a.g, t, pc, ch));
    assert a.g.lock == Some(u);
    assert b.g.list == a.g.list;
  }
}
