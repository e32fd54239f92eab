// Counters of the shared state against weighted sums over all threads.
module Accounting {
  import opened Basics
  import opened Protocol

  // ---- weights ------------------------------------------------------------

  // Callers in the wait loop: asleep, woken, or scanning after a wake-up.
  function Queued(pc: Pc): int {
    match pc
    case Asleep(_) => 1
    case Woken(_) => 1
    case Scanning(_, _, queued) => Bit(queued)
    case _ => 0
  }

  // Callers between pending++ and pending-- on the cold path.
  function Cold(pc: Pc): int {
    match pc
    case ColdStart(_) => 1
    case ColdSpawning(_, _) => 1
    case ColdSpawned(_, _) => 1
    case ColdFailed => 1
    case _ => 0
  }

  function Pending(pc: Pc): int { Queued(pc) + Cold(pc) }

  function Sleeping(pc: Pc): int { Bit(pc.Asleep?) }

  // Woken callers that have not finished their scan.
  function Awake(pc: Pc): int { Queued(pc) - Sleeping(pc) }

  // Threads between setting Ready and Signal.
  function Signaller(pc: Pc): int { Bit(pc.Signalling?) }

  // Recyclers between recycleWg.Add and Done.
  function Recycler(pc: Pc): int {
    match pc
    case Recycling(_) => 1
    case Killing(_) => 1
    case Waiting(_, _) => 1
    case Resetting(_) => 1
    case Counting(_) => 1
    case Checking(_) => 1
    case Rewarming(_) => 1
    case Readying(_) => 1
    case Removing(_) => 1
    case Cleaning(_) => 1
    case Sizing => 1
    case Refilling(_) => 1
    case RefillSpawning(_, _) => 1
    case RefillSpawned(_, _) => 1
    case RefillCleaning(_) => 1
    case Signalling(recycler) => Bit(recycler)
    case _ => 0
  }

  // Executors between the counter and the insert of the lease.
  function Uninserted(pc: Pc): int {
    match pc
    case Counted(_, _) => 1
    case Leasing(_, _, _) => 1
    case _ => 0
  }

  function Unlaunched(pc: Pc): int { Bit(pc.Unleased?) }

  // Spawns that refills have still to bring home.
  function Refills(pc: Pc): int {
    match pc
    case Refilling(k) => k
    case RefillSpawning(k, _) => k + 1
    case RefillSpawned(k, _) => k + 1
    case _ => 0
  }

  // Recyclers between remove and the computation of the shortfall.
  function Unsized(pc: Pc): int {
    match pc
    case Cleaning(_) => 1
    case Sizing => 1
    case _ => 0
  }

  function Due(pc: Pc): int { Refills(pc) + Unsized(pc) }

  // The one Shutdown before it closes the pool, and while it cleans up.
  function Closer(pc: Pc): int {
    match pc
    case Cancelling => 1
    case Stopping => 1
    case Joining => 1
    case Closing => 1
    case _ => 0
  }

  function Flusher(pc: Pc): int { Bit(pc.Flushing?) }

  // ---- one region ---------------------------------------------------------

  // What a region adds to each counter is what its thread's weight loses or gains.
  ghost predicate Balanced(g: Shared, pc: Pc, o: Outcome) {
    && o.g.pending - g.pending == Pending(o.pc) - Pending(pc)
    && o.g.joining - g.joining == Recycler(o.pc) - Recycler(pc)
    && Unregistered(o.g.book) - Unregistered(g.book) == Uninserted(o.pc) - Uninserted(pc)
    && Unstarted(o.g.book) - Unstarted(g.book) == Unlaunched(o.pc) - Unlaunched(pc)
    && Bit(o.g.closed) - Bit(g.closed) == Closer(pc) - Closer(o.pc)
    && o.g.book.shutdown == g.book.shutdown
    && Open(o.g.book) == Open(g.book)
  }

  function Unregistered(b: Book): int { b.executions - |b.grants| }

  function Unstarted(b: Book): int { b.completed - b.recycles }

  // Registered leases that are neither live, nor completed, nor cancelled.
  function Open(b: Book): int { |b.grants| - |b.leases| - b.completed - b.cancelled }

  lemma AcquireBalances(c: Params, g: Shared, t: nat, pc: Pc, ch: Choice)
    requires Runs(g, t, pc, ch)
    requires InAcquire(pc)
    ensures Balanced(g, pc, Acquire(c, g, t, pc))
  {
    hide Refers;
  }

  lemma ColdPathBalances(c: Params, g: Shared, t: nat, pc: Pc, ch: Choice)
    requires Runs(g, t, pc, ch)
    requires InColdPath(pc)
    ensures Balanced(g, pc, ColdPath(c, g, t, pc, ch))
  {
    hide Refers;
  }

  lemma ServeBalances(c: Params, g: Shared, t: nat, pc: Pc, ch: Choice)
    requires Runs(g, t, pc, ch)
    requires InServe(pc)
    ensures Balanced(g, pc, Serve(c, g, t, pc, ch))
  {
    hide Refers;
  }

  lemma RegisterBalances(c: Params, g: Shared, t: nat, pc: Pc, ch: Choice)
    requires Runs(g, t, pc, ch)
    requires InRegister(pc)
    requires pc.Leasing? ==> pc.l !in g.book.leases
    ensures Balanced(g, pc, Register(g, pc))
  {
    hide Refers;
  }

  lemma CompleteBalances(c: Params, g: Shared, t: nat, pc: Pc, ch: Choice)
    requires Runs(g, t, pc, ch)
    requires InComplete(pc)
    ensures Balanced(g, pc, Complete(g, t, pc))
  {
    if pc.Completing? && pc.l in g.book.leases {
      assert (g.book.leases - {pc.l}).Keys == g.book.leases.Keys - {pc.l};
    }
  }

  lemma DrainBalances(c: Params, g: Shared, t: nat, pc: Pc, ch: Choice)
    requires Runs(g, t, pc, ch)
    requires InDrain(pc)
    ensures Balanced(g, pc, Drain(c, g, pc, ch))
  {
    hide Refers;
  }

  lemma RewarmBalances(c: Params, g: Shared, t: nat, pc: Pc, ch: Choice)
    requires Runs(g, t, pc, ch)
    requires InRewarm(pc)
    ensures Balanced(g, pc, Rewarm(c, g, pc, ch))
  {
    hide Refers;
  }

  lemma RefillBalances(c: Params, g: Shared, t: nat, pc: Pc, ch: Choice)
    requires Runs(g, t, pc, ch)
    requires InRefill(pc)
    ensures Balanced(g, pc, Refill(c, g, t, pc, ch))
  {
    hide Refers;
  }

  lemma ReapBalances(c: Params, g: Shared, t: nat, pc: Pc, ch: Choice)
    requires Runs(g, t, pc, ch)
    requires InReap(pc)
    ensures Balanced(g, pc, Reap(g, t, pc, ch))
  {
    hide Refers, Stale, Without, Reassign, Cleaned;
  }

  lemma CancelBalances(c: Params, g: Shared, t: nat, pc: Pc, ch: Choice)
    requires Runs(g, t, pc, ch) && pc.Cancelling?
    ensures Balanced(g, pc, Shutdown(g, pc))
  {
    hide Refers, Reassign;
  }

  lemma ShutdownBalances(c: Params, g: Shared, t: nat, pc: Pc, ch: Choice)
    requires Runs(g, t, pc, ch)
    requires InShutdown(pc) && !pc.Cancelling? && (pc.Closing? ==> !g.closed)
    ensures Balanced(g, pc, Shutdown(g, pc))
  {
    hide Refers, Flushed, Reassign;
  }

  // Every region keeps the counters in step with the weights.
  lemma RegionBalances(c: Params, g: Shared, t: nat, pc: Pc, ch: Choice)
    requires Runs(g, t, pc, ch)
    requires pc.Leasing? ==> pc.l !in g.book.leases
    requires pc.Closing? ==> !g.closed
    ensures Balanced(g, pc, Region(c, g, t, pc, ch))
  {
    hide Balanced, Refers, Acquire, ColdPath, Serve, Register, Complete, Drain, Rewarm, Refill, Reap, Shutdown;
    if InAcquire(pc) {
      AcquireBalances(c, g, t, pc, ch);
    } else if InColdPath(pc) {
      ColdPathBalances(c, g, t, pc, ch);
    } else if InServe(pc) {
      ServeBalances(c, g, t, pc, ch);
    } else if InRegister(pc) {
      RegisterBalances(c, g, t, pc, ch);
    } else if InComplete(pc) {
      CompleteBalances(c, g, t, pc, ch);
    } else if InRefill(pc) {
      RefillBalances(c, g, t, pc, ch);
    } else if InReap(pc) {
      ReapBalances(c, g, t, pc, ch);
    } else if pc.Cancelling? {
      CancelBalances(c, g, t, pc, ch);
    } else if InShutdown(pc) {
      ShutdownBalances(c, g, t, pc, ch);
    } else if InDrain(pc) {
      DrainBalances(c, g, t, pc, ch);
    } else {
      RewarmBalances(c, g, t, pc, ch);
    }
  }

  // ---- members, refills and losses ---------------------------------------

  // Members, plus what failed refills and evictions have cost.
  function Stock(g: Shared): int { |g.list| + g.failed + g.evicted }

  // A region loses no member that it does not account for, or it has just
  // computed the whole shortfall.
  ghost predicate Covered(c: Params, g: Shared, pc: Pc, o: Outcome) {
    && o.g.failed >= g.failed && o.g.evicted >= g.evicted
    && (!o.g.closed ==>
          || Stock(o.g) + Due(o.pc) >= Stock(g) + Due(pc)
          || |o.g.list| + Due(o.pc) >= c.poolSize)
  }

  lemma RemovalCovers(g: Shared, s: nat)
    requires Distinct(g.list)
    ensures |Without(g.list, {s})| >= |g.list| - 1
  {
    if s in g.list {
      var i :| 0 <= i < |g.list| && g.list[i] == s;
      WithoutOne(g.list, i);
    } else {
      WithoutNone(g.list, {s});
    }
  }

  lemma DiscardCovers(c: Params, g: Shared, t: nat, pc: Pc, ch: Choice)
    requires Runs(g, t, pc, ch) && Distinct(g.list)
    requires pc.Removing? || pc.Cleaning?
    ensures Covered(c, g, pc, Rewarm(c, g, pc, ch))
  {
    hide Refers;
    if pc.Removing? {
      RemovalCovers(g, pc.s);
    }
  }

  lemma RefillCovers(c: Params, g: Shared, t: nat, pc: Pc, ch: Choice)
    requires Runs(g, t, pc, ch)
    requires InRefill(pc)
    ensures Covered(c, g, pc, Refill(c, g, t, pc, ch))
  {
    hide Refers;
  }

  lemma ReapCovers(c: Params, g: Shared, t: nat, pc: Pc, ch: Choice)
    requires Runs(g, t, pc, ch) && InReap(pc)
    ensures Covered(c, g, pc, Reap(g, t, pc, ch))
  {
    if pc.Reaping? {
      TickCovers(c, g, t, pc, ch);
    } else {
      hide Refers, Stale, Without, Reassign, Cleaned;
    }
  }

  lemma TickCovers(c: Params, g: Shared, t: nat, pc: Pc, ch: Choice)
    requires Runs(g, t, pc, ch) && pc.Reaping?
    ensures Covered(c, g, pc, Reap(g, t, pc, ch))
  {
    PassCovers(g, Stale(g, ch.idle));
    hide Refers, Stale, Without, Reassign, Cleaned;
  }

  lemma PassCovers(g: Shared, out: set<nat>)
    ensures |Without(g.list, out)| + |Without(g.list, (set x | x in g.list) - out)| == |g.list|
  {
    WithoutSplits(g.list, out, (set x | x in g.list) - out);
  }

  lemma ColdPathCovers(c: Params, g: Shared, t: nat, pc: Pc, ch: Choice)
    requires Runs(g, t, pc, ch) && InColdPath(pc)
    ensures Covered(c, g, pc, ColdPath(c, g, t, pc, ch))
  {
    hide Refers;
  }

  lemma ShutdownCovers(c: Params, g: Shared, t: nat, pc: Pc, ch: Choice)
    requires Runs(g, t, pc, ch) && InShutdown(pc)
    ensures Covered(c, g, pc, Shutdown(g, pc))
  {
    hide Refers, Reassign, Flushed;
  }

  // The other regions change neither the list nor what is due.
  lemma QuietCovers(c: Params, g: Shared, t: nat, pc: Pc, ch: Choice)
    requires Runs(g, t, pc, ch)
    requires InAcquire(pc) || InServe(pc) || InRegister(pc) || InComplete(pc) || InDrain(pc)
             || pc.Checking? || pc.Rewarming? || pc.Readying?
    ensures Covered(c, g, pc, Region(c, g, t, pc, ch))
  {
    hide Refers, Spawned, Flushed, Reassign;
  }

  lemma RegionCovers(c: Params, g: Shared, t: nat, pc: Pc, ch: Choice)
    requires Runs(g, t, pc, ch) && Distinct(g.list)
    ensures Covered(c, g, pc, Region(c, g, t, pc, ch))
  {
    hide Covered, Refers, Acquire, ColdPath, Serve, Register, Complete, Drain, Rewarm, Refill, Reap, Shutdown;
    if pc.Removing? || pc.Cleaning? {
      DiscardCovers(c, g, t, pc, ch);
    } else if InRefill(pc) {
      RefillCovers(c, g, t, pc, ch);
    } else if InReap(pc) {
      ReapCovers(c, g, t, pc, ch);
    } else if InColdPath(pc) {
      ColdPathCovers(c, g, t, pc, ch);
    } else if InShutdown(pc) {
      ShutdownCovers(c, g, t, pc, ch);
    } else {
      QuietCovers(c, g, t, pc, ch);
    }
  }
}
