// Main results about counters, wake-ups and refills in every reachable state,
// and the progress theorem that combines them.
module Progress {
  import opened Basics
  import opened Protocol
  import opened Invariant
  import opened Accounting
  import opened Wakeup
  import opened System
  import Safety
  import Ownership

  // The pending counter is the queued callers plus the cold-path spawners, and
  // the queued callers alone never exceed the limit.
  lemma PendingIsQueuedPlusCold(c: Params, a: State)
    requires Reachable(c, a)
    ensures a.g.pending == Sum(a.threads, Queued) + Sum(a.threads, Cold)
    ensures 0 <= Sum(a.threads, Queued) <= Max(QueueLimit(c), 0)
  {
    Safety.ReachableInv(c, a);
    SumPending(a.threads);
    QueuedBelowPending(a.threads);
    hide Core, Wakes;
  }

  lemma {:induction false} SumPending(ts: seq<Pc>)
    ensures Sum(ts, Pending) == Sum(ts, Queued) + Sum(ts, Cold)
  {
    if ts != [] {
      SumPending(ts[1..]);
    }
  }

  // No lost wake-up: while a caller sleeps, every Ready member is matched by a
  // woken caller that has not scanned yet or by a Signal still to come.
  lemma NoLostWakeup(c: Params, a: State)
    requires Reachable(c, a) && HasSleeper(a.threads)
    ensures ReadyMembers(a.g) <= Sum(a.threads, Awake) + Sum(a.threads, Signaller)
  {
    Safety.ReachableInv(c, a);
  }

  // Members, refills still due and recyclers that have yet to compute theirs,
  // with what failed refills and evictions took away, never fall below PoolSize.
  lemma RefillNeverUnderfills(c: Params, a: State)
    requires Reachable(c, a) && !a.g.closed
    ensures |a.g.list| + Sum(a.threads, Refills) + Sum(a.threads, Unsized) + a.g.failed + a.g.evicted >= c.poolSize
  {
    Safety.ReachableInv(c, a);
    SumDue(a.threads);
  }

  lemma {:induction false} SumDue(ts: seq<Pc>)
    ensures Sum(ts, Due) == Sum(ts, Refills) + Sum(ts, Unsized)
  {
    if ts != [] {
      SumDue(ts[1..]);
    }
  }

  // Registered leases are live, completed or cancelled; every completion starts
  // one recycle, which recycleWg counts until it ends; every execution is
  // registered or about to be.
  lemma LeaseAccounting(c: Params, a: State)
    requires Reachable(c, a)
    ensures |a.g.book.grants| == |a.g.book.leases| + a.g.book.completed + a.g.book.cancelled
    ensures a.g.book.completed == a.g.book.recycles + Sum(a.threads, Unlaunched)
    ensures a.g.book.executions == |a.g.book.grants| + Sum(a.threads, Uninserted)
    ensures a.g.joining == Sum(a.threads, Recycler)
  {
    Safety.ReachableInv(c, a);
    hide Core, Wakes;
  }

  // ---- progress -----------------------------------------------------------

  // A thread with work of its own left: not finished, not asleep, and not the
  // reaper waiting for its tick.
  predicate Busy(pc: Pc) {
    !pc.Done? && !pc.Asleep? && !pc.Reaping?
  }

  // Some thread with work left can take a step.
  ghost predicate SomeRuns(c: Params, a: State) {
    exists b, t: nat, ch :: Step(c, a, b, t, ch) && Busy(a.threads[t])
  }

  // A choice whose Signal reaches a sleeper if there is one.
  ghost function AnyChoice(a: State): (ch: Choice)
    ensures HasSleeper(a.threads) ==> ch.wakee < |a.threads| && a.threads[ch.wakee].Asleep?
  {
    if HasSleeper(a.threads) then
      var u: nat :| 0 <= u < |a.threads| && a.threads[u].Asleep?;
      Choice(true, {}, u)
    else Choice(true, {}, 0)
  }

  // A busy thread that is not held up has a step to take.
  lemma RunsSteps(c: Params, a: State, t: nat)
    requires t < |a.threads| && Busy(a.threads[t]) && Runs(a.g, t, a.threads[t], AnyChoice(a))
    ensures SomeRuns(c, a)
  {
    var ch := AnyChoice(a);
    var o := Region(c, a.g, t, a.threads[t], ch);
    SleepShape(c, a.g, t, a.threads[t], ch);
    hide Region, Refers, CanRun;
    var ts := a.threads[t := o.pc];
    if o.wake.One? && HasSleeper(ts) {
      var u :| 0 <= u < |ts| && ts[u].Asleep?;
      assert a.threads[u].Asleep?;
    }
    assert Step(c, a, State(o.g, Rouse(ts, o.wake, ch.wakee)), t, ch);
  }

  lemma RefersAlways(c: Params, a: State, t: nat)
    requires Core(c, a)
    ensures Refers(a.g, PcOf(a, t))
  {
    assert LocalOk(c, a.g, t, PcOf(a, t));
    hide Fact;
  }

  lemma RefersAlwaysReachable(c: Params, a: State, t: nat)
    requires Reachable(c, a)
    ensures Refers(a.g, PcOf(a, t))
  {
    Safety.ReachableInv(c, a);
    hide Reachable;
    RefersAlways(c, a, t);
  }

  // Between the launch of a recycle and the end of its goroutine.
  predicate Recycles(pc: Pc) {
    InDrain(pc) || InRewarm(pc) || InRefill(pc) || pc == Signalling(true)
  }

  // Shutdown's wait is over exactly when no recycler is left.
  lemma ShutdownWaitsForRecyclers(c: Params, a: State, t: nat)
    requires Reachable(c, a) && t < |a.threads| && a.threads[t].Joining?
    ensures (exists b, ch :: Step(c, a, b, t, ch)) <==> !exists u :: 0 <= u < |a.threads| && Recycles(a.threads[u])
  {
    LeaseAccounting(c, a);
    RefersAlwaysReachable(c, a, t);
    JoiningRuns(c, a, t);
    hide Reachable, Step;
    RecyclersCounted(a.threads);
  }

  lemma RecyclersCounted(ts: seq<Pc>)
    ensures Sum(ts, Recycler) == 0 <==> !exists u :: 0 <= u < |ts| && Recycles(ts[u])
  {
    if u :| 0 <= u < |ts| && Recycles(ts[u]) {
      SumBound(ts, Recycler);
    } else {
      SumZero(ts, Recycler);
    }
  }

  lemma JoiningRuns(c: Params, a: State, t: nat)
    requires Refers(a.g, PcOf(a, t)) && t < |a.threads| && a.threads[t].Joining?
    ensures (exists b, ch :: Step(c, a, b, t, ch)) <==> a.g.joining == 0
  {
    var ch := Choice(true, {}, 0);
    JoiningRegion(c, a.g, t, ch);
    hide Refers, Region;
    if a.g.joining == 0 {
      assert Step(c, a, State(a.g, a.threads[t := Closing]), t, ch);
    }
  }

  lemma JoiningRegion(c: Params, g: Shared, t: nat, ch: Choice)
    requires Refers(g, Joining)
    ensures Region(c, g, t, Joining, ch) == Go(g, Closing)
  {
    hide Refers, Reassign, Flushed;
  }

  // Only Shutdown, waiting for recyclers, can be held up while p.mu is free.
  lemma BusyRuns(c: Params, a: State, t: nat)
    requires Core(c, a) && t < |a.threads| && Busy(a.threads[t])
    requires a.g.lock.None? && (a.threads[t].Joining? ==> a.g.joining == 0)
    ensures SomeRuns(c, a)
  {
    RefersAlways(c, a, t);
    assert LocalOk(c, a.g, t, PcOf(a, t));
    hide Refers, OwnOk, Booked, Granted;
    RunsSteps(c, a, t);
  }

  lemma HolderRuns(c: Params, a: State)
    requires Core(c, a) && a.g.lock.Some?
    ensures SomeRuns(c, a)
  {
    var t := a.g.lock.value;
    RefersAlways(c, a, t);
    assert LocalOk(c, a.g, t, PcOf(a, t));
    hide Refers, OwnOk, Booked, Granted;
    assert t < |a.threads| && PcOf(a, t).Scanning?;
    RunsSteps(c, a, t);
  }

  // Whenever a thread is busy, some busy thread can run.
  lemma SomeBusyRuns(c: Params, a: State, t: nat)
    requires Inv(c, a) && t < |a.threads| && Busy(a.threads[t])
    ensures SomeRuns(c, a)
  {
    hide SomeRuns, Core, CanRun;
    if a.g.lock.Some? {
      HolderRuns(c, a);
    } else if a.threads[t].Joining? && a.g.joining != 0 {
      NonNegativeWeights();
      SumBound(a.threads, Recycler);
      var u := SumWitness(a.threads, Recycler);
      RecyclerIsBusy(a.threads[u]);
      BusyRuns(c, a, u);
    } else {
      BusyRuns(c, a, t);
    }
  }

  lemma RecyclerIsBusy(pc: Pc)
    requires Recycler(pc) > 0
    ensures Busy(pc) && !pc.Joining?
  {
  }

  // With a caller asleep and every other thread at rest, the members of an open
  // pool are exactly the sentries under a live lease.
  lemma AtRestMembersAreLeased(c: Params, a: State)
    requires Reachable(c, a) && !a.g.closed && HasSleeper(a.threads)
    requires forall t :: 0 <= t < |a.threads| ==> !Busy(a.threads[t])
    ensures forall s :: s in a.g.list <==> s in a.g.book.leases.Values
  {
    Safety.ReachableInv(c, a);
    forall s | s in a.g.list ensures s in a.g.book.leases.Values {
      var i :| 0 <= i < |a.g.list| && a.g.list[i] == s;
      MemberIsLeased(c, a, i);
    }
    forall s | s in a.g.book.leases.Values ensures s in a.g.list {
      var l :| l in a.g.book.leases && a.g.book.leases[l] == s;
      Ownership.LeasedSentry(c, a, l);
    }
  }

  lemma MemberIsLeased(c: Params, a: State, i: nat)
    requires Inv(c, a) && !a.g.closed && HasSleeper(a.threads) && i < |a.g.list|
    requires forall t :: 0 <= t < |a.threads| ==> !Busy(a.threads[t])
    ensures a.g.list[i] in a.g.book.leases.Values
  {
    QuietSums(a.threads);
    var s := a.g.list[i];
    SomeMember(c, a, i);
    if a.g.sentries[s].state.Ready? {
      ReadyWitness(a.g.list, a.g.sentries, i);
    }
    assert !a.g.sentries[s].state.Ready?;
    hide Core, Wakes;
    if a.g.sentries[s].owner.Thread? {
      Ownership.HeldByOwner(c, a, s);
      HolderIsBusy(a.threads[a.g.sentries[s].owner.t], s);
      assert false;
    }
  }

  // A sleeper waits on nothing exactly when the list has run empty: if no busy
  // thread can run, then no lease is live if and only if there is no member.
  lemma StuckExactlyWhenEmpty(c: Params, a: State)
    requires Reachable(c, a) && !a.g.closed && HasSleeper(a.threads) && !SomeRuns(c, a)
    ensures a.g.book.leases == map[] <==> a.g.list == []
  {
    NothingBusy(c, a);
    AtRestMembersAreLeased(c, a);
    hide Reachable, SomeRuns;
    if a.g.list != [] {
      assert a.g.list[0] in a.g.list;
    }
    if a.g.book.leases != map[] {
      var l :| l in a.g.book.leases;
      assert a.g.book.leases[l] in a.g.book.leases.Values;
    }
  }

  lemma NothingBusy(c: Params, a: State)
    requires Reachable(c, a) && !SomeRuns(c, a)
    ensures forall t :: 0 <= t < |a.threads| ==> !Busy(a.threads[t])
  {
    Safety.ReachableInv(c, a);
    hide SomeRuns, Inv, Reachable;
    forall t | 0 <= t < |a.threads| ensures !Busy(a.threads[t]) {
      if Busy(a.threads[t]) {
        SomeBusyRuns(c, a, t);
        assert false;
      }
    }
  }

  // That cannot happen while fewer than PoolSize members were lost to failed
  // refills and evictions: then some thread can run or some lease is live.
  lemma SleepersAreServed(c: Params, a: State)
    requires Reachable(c, a) && !a.g.closed && HasSleeper(a.threads)
    requires a.g.failed + a.g.evicted < c.poolSize
    ensures SomeRuns(c, a) || a.g.book.leases != map[]
  {
    if !SomeRuns(c, a) {
      NothingBusy(c, a);
      QuietSums(a.threads);
      RefillNeverUnderfills(c, a);
      hide Reachable, SomeRuns;
      QuietDues(a.threads);
      StuckExactlyWhenEmpty(c, a);
    }
  }

  lemma QuietDues(ts: seq<Pc>)
    requires forall t :: 0 <= t < |ts| ==> !Busy(ts[t])
    ensures Sum(ts, Refills) + Sum(ts, Unsized) == 0
  {
    SumDue(ts);
    QuietSums(ts);
  }

  lemma SomeMember(c: Params, a: State, i: nat)
    requires Inv(c, a) && i < |a.g.list|
    ensures var s := a.g.list[i];
            && s < |a.g.sentries| && Within(a.g.list, |a.g.sentries|)
            && (a.g.sentries[s].owner.Lease? ==> s in a.g.book.leases.Values)
            && (a.g.sentries[s].owner.Idle? ==> a.g.sentries[s].state.Ready?)
            && (!a.g.closed ==> !a.g.sentries[s].owner.Orphan? || a.g.book.shutdown)
            && !a.g.sentries[s].owner.Retired?
  {
    assert LocalOk(c, a.g, 0, PcOf(a, 0));
    Ownership.SentryFact(c, a, a.g.list[i]);
    hide Inv, ThreadFact;
  }

  lemma HolderIsBusy(pc: Pc, s: nat)
    requires Holds(pc, s)
    ensures Busy(pc)
  {
  }

  lemma {:induction false} QuietSums(ts: seq<Pc>)
    requires forall t :: 0 <= t < |ts| ==> !Busy(ts[t])
    ensures Sum(ts, Due) == Sum(ts, Awake) == Sum(ts, Signaller) == Sum(ts, Closer) == 0
  {
    if ts != [] {
      assert !Busy(ts[0]);
      forall t | 0 <= t < |ts[1..]| ensures !Busy(ts[1..][t]) {
        assert ts[1..][t] == ts[t + 1];
      }
      QuietSums(ts[1..]);
    }
  }
}
