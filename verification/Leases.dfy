// Main results about the life of a lease over a run: it ends at most once, and a
// Complete ends it exactly if it finds it in the table.
module Leases {
  import opened Basics
  import opened Protocol
  import opened Invariant
  import opened Accounting
  import opened System
  import Safety

  // ---- the lease table, region by region ---------------------------------

  ghost predicate TableStep(g: Shared, pc: Pc, o: Outcome) {
    && (o.g.book.leases == g.book.leases
        || (pc.Completing? && pc.l in g.book.leases && o.g.book.leases == g.book.leases - {pc.l}
            && o.pc == Unleased(g.book.leases[pc.l]) && o.g.book.completed == g.book.completed + 1)
        || (pc.Leasing? && o.g.book.leases == g.book.leases[pc.l := pc.s] && o.pc == Done)
        || (pc.Cancelling? && o.g.book.leases == map[] && o.pc == Stopping
            && o.g.book.cancelled == g.book.cancelled + |g.book.leases|))
    && |g.book.issued| <= |o.g.book.issued|
    && (o.pc.Leasing? ==> o.pc.l >= |g.book.issued|)
  }

  // Registration alone records a grant.
  ghost predicate GrantStep(g: Shared, pc: Pc, o: Outcome) {
    if pc.Leasing? then
      pc.s < |g.sentries| && o.g.book.grants == g.book.grants + [Grant(pc.l, pc.s, pc.r, g.sentries[pc.s])]
    else o.g.book.grants == g.book.grants
  }

  lemma RegionTable(c: Params, g: Shared, t: nat, pc: Pc, ch: Choice)
    requires Runs(g, t, pc, ch)
    ensures TableStep(g, pc, Region(c, g, t, pc, ch))
    ensures GrantStep(g, pc, Region(c, g, t, pc, ch))
  {
    if InRegister(pc) {
      RegisterTable(c, g, t, pc, ch);
    } else if InServe(pc) || InComplete(pc) {
      LeaseTable(c, g, t, pc, ch);
    } else if pc.Cancelling? {
      CancelTable(c, g, t, pc, ch);
    } else if InDrain(pc) || InRewarm(pc) || InReap(pc) {
      RecycleBook(c, g, t, pc, ch);
    } else if InShutdown(pc) {
      ShutdownBook(c, g, t, pc, ch);
    } else {
      SpawnBook(c, g, t, pc, ch);
    }
    hide Region;
  }

  lemma RegisterTable(c: Params, g: Shared, t: nat, pc: Pc, ch: Choice)
    requires Runs(g, t, pc, ch) && InRegister(pc)
    ensures TableStep(g, pc, Region(c, g, t, pc, ch))
    ensures GrantStep(g, pc, Region(c, g, t, pc, ch))
  {
    assert pc.Leasing? ==> pc.s < |g.sentries|;
    hide Refers, Reassign, Stale, Without;
  }

  lemma LeaseTable(c: Params, g: Shared, t: nat, pc: Pc, ch: Choice)
    requires Runs(g, t, pc, ch) && (InServe(pc) || InComplete(pc))
    ensures TableStep(g, pc, Region(c, g, t, pc, ch))
    ensures GrantStep(g, pc, Region(c, g, t, pc, ch))
  {
    hide Refers, Spawned, Cleaned, Flushed, Reassign, Stale, Without;
  }

  lemma CancelTable(c: Params, g: Shared, t: nat, pc: Pc, ch: Choice)
    requires Runs(g, t, pc, ch) && pc.Cancelling?
    ensures TableStep(g, pc, Region(c, g, t, pc, ch))
    ensures GrantStep(g, pc, Region(c, g, t, pc, ch))
  {
    hide Refers, Spawned, Cleaned, Flushed, Reassign, Stale, Without;
  }

  // The rest of the program leaves the book alone.
  lemma RecycleBook(c: Params, g: Shared, t: nat, pc: Pc, ch: Choice)
    requires Runs(g, t, pc, ch) && (InDrain(pc) || InRewarm(pc) || InReap(pc))
    ensures var o := Region(c, g, t, pc, ch); o.g.book == g.book && !o.pc.Leasing?
  {
    hide Refers, Spawned, Cleaned, Flushed, Reassign, Stale, Without;
  }

  lemma SpawnBook(c: Params, g: Shared, t: nat, pc: Pc, ch: Choice)
    requires Runs(g, t, pc, ch) && (InAcquire(pc) || InColdPath(pc) || InRefill(pc))
    ensures var o := Region(c, g, t, pc, ch); o.g.book == g.book && !o.pc.Leasing?
  {
    hide Refers, Spawned, Cleaned, Flushed, Reassign, Stale, Without;
  }

  lemma ShutdownBook(c: Params, g: Shared, t: nat, pc: Pc, ch: Choice)
    requires Runs(g, t, pc, ch) && InShutdown(pc) && !pc.Cancelling?
    ensures var o := Region(c, g, t, pc, ch); o.g.book == g.book && !o.pc.Leasing?
  {
    hide Refers, Spawned, Cleaned, Flushed, Reassign, Stale, Without;
  }

  // ---- a lease ends at most once -----------------------------------------

  // An issued id that is neither in the table nor about to be inserted.
  ghost predicate Over(a: State, l: nat) {
    && l < |a.g.book.issued| && l !in a.g.book.leases
    && (forall t :: 0 <= t < |a.threads| && a.threads[t].Leasing? ==> a.threads[t].l != l)
  }

  // A lease that leaves the table is over: by the one Complete that removed it,
  // which goes on to recycle its sentry, or by Shutdown.
  lemma LeaseEnds(c: Params, a: State, b: State, l: nat)
    requires Reachable(c, a) && Next(c, a, b)
    requires l in a.g.book.leases && l !in b.g.book.leases
    ensures Over(b, l)
    ensures || (exists t :: 0 <= t < |a.threads| && a.threads[t] == Completing(l)
                            && b.threads[t] == Unleased(a.g.book.leases[l]))
            || (exists t :: 0 <= t < |a.threads| && a.threads[t].Cancelling?
                            && b.threads[t] == Stopping && b.g.book.leases == map[])
    ensures b.g.book.completed + b.g.book.cancelled > a.g.book.completed + a.g.book.cancelled
  {
    Safety.ReachableInv(c, a);
    hide Arrival, Step, Inv, Reachable;
    if Arrival(a, b) {
      ArrivalBook(a, b);
      assert false;
    } else {
      var t: nat, ch :| Step(c, a, b, t, ch);
      LeaseEndsAt(c, a, b, t, ch, l);
    }
  }

  lemma ArrivalBook(a: State, b: State)
    requires Arrival(a, b)
    ensures b.g.book.leases == a.g.book.leases && b.g.book.issued == a.g.book.issued
    ensures b.g.sentries == a.g.sentries && b.g.book.grants == a.g.book.grants
    ensures |b.threads| == |a.threads| + 1 && b.threads[..|a.threads|] == a.threads
    ensures !b.threads[|a.threads|].Leasing?
  {
  }

  lemma LeaseEndsAt(c: Params, a: State, b: State, t: nat, ch: Choice, l: nat)
    requires Inv(c, a) && Step(c, a, b, t, ch)
    requires l in a.g.book.leases && l !in b.g.book.leases
    ensures t < |a.threads| == |b.threads| && Over(b, l)
    ensures || (a.threads[t] == Completing(l) && b.threads[t] == Unleased(a.g.book.leases[l]))
            || (a.threads[t].Cancelling? && b.threads[t] == Stopping && b.g.book.leases == map[])
    ensures b.g.book.completed + b.g.book.cancelled > a.g.book.completed + a.g.book.cancelled
  {
    NoTwins(c, a, l);
    EndsByTable(c, a, b, t, ch, l);
    RegionBooks(c, a, t, ch);
    hide Region, Refers, CanRun, Inv, Over;
    GoneIsOver(c, a, b, t, ch, l);
  }

  lemma EndsByTable(c: Params, a: State, b: State, t: nat, ch: Choice, l: nat)
    requires Step(c, a, b, t, ch) && l in a.g.book.leases && l !in b.g.book.leases
    ensures t < |a.threads| == |b.threads| && !a.threads[t].Leasing?
    ensures || (a.threads[t] == Completing(l) && b.threads[t] == Unleased(a.g.book.leases[l])
                && b.g.book.completed == a.g.book.completed + 1)
            || (a.threads[t].Cancelling? && b.threads[t] == Stopping && b.g.book.leases == map[])
  {
    RegionTable(c, a.g, t, a.threads[t], ch);
    AfterStep(c, a, b, t, ch, t);
    hide Region, Refers, CanRun;
  }

  lemma GoneIsOver(c: Params, a: State, b: State, t: nat, ch: Choice, l: nat)
    requires Step(c, a, b, t, ch) && l < |a.g.book.issued| && l !in b.g.book.leases
    requires forall u :: 0 <= u < |a.threads| && a.threads[u].Leasing? ==> a.threads[u].l != l
    ensures Over(b, l)
  {
    RegionTable(c, a.g, t, a.threads[t], ch);
    hide Region, Refers, CanRun;
    forall u | 0 <= u < |b.threads| && b.threads[u].Leasing? ensures b.threads[u].l != l {
      AfterStep(c, a, b, t, ch, u);
      assert PcOf(b, u) == b.threads[u];
    }
  }

  lemma RegionBooks(c: Params, a: State, t: nat, ch: Choice)
    requires Inv(c, a) && t < |a.threads| && Runs(a.g, t, a.threads[t], ch)
    ensures var o := Region(c, a.g, t, a.threads[t], ch);
            Open(o.g.book) == Open(a.g.book) && (!a.threads[t].Leasing? ==> |o.g.book.grants| >= |a.g.book.grants|)
  {
    FreshCalls(c, a, t);
    RegionBalances(c, a.g, t, a.threads[t], ch);
    RegionTable(c, a.g, t, a.threads[t], ch);
    hide Region, Inv;
  }

  // While a lease is live no executor carries its id.
  lemma NoTwins(c: Params, a: State, l: nat)
    requires Inv(c, a) && l in a.g.book.leases
    ensures l < |a.g.book.issued|
    ensures forall t :: 0 <= t < |a.threads| && a.threads[t].Leasing? ==> a.threads[t].l != l
  {
    hide Counters, Bounds, Wakes;
    assert LocalOk(c, a.g, 0, PcOf(a, 0));
    forall t | 0 <= t < |a.threads| && a.threads[t].Leasing? ensures a.threads[t].l != l {
      assert LocalOk(c, a.g, t, PcOf(a, t));
      LeaseIsFresh(c, a.g, t, PcOf(a, t));
    }
  }

  // Once over, over for good.
  lemma OverForGood(c: Params, a: State, b: State, l: nat)
    requires Next(c, a, b) && Over(a, l)
    ensures Over(b, l)
  {
    hide Arrival, Step;
    if Arrival(a, b) {
      ArrivalBook(a, b);
      forall u | 0 <= u < |b.threads| && b.threads[u].Leasing? ensures b.threads[u].l != l {
        assert u < |a.threads| ==> b.threads[..|a.threads|][u] == a.threads[u];
      }
    } else {
      var t: nat, ch :| Step(c, a, b, t, ch);
      OverAt(c, a, b, t, ch, l);
    }
  }

  lemma OverAt(c: Params, a: State, b: State, t: nat, ch: Choice, l: nat)
    requires Step(c, a, b, t, ch) && Over(a, l)
    ensures Over(b, l)
  {
    RegionTable(c, a.g, t, a.threads[t], ch);
    hide Region, Refers, CanRun;
    GoneIsOver(c, a, b, t, ch, l);
  }

  // Over any run: a lease that was live and is no longer never comes back, so of
  // all the calls to Complete, expiries and the Shutdown that race for it, one
  // ends it.
  lemma {:induction false} LeaseEndsOnce(c: Params, run: seq<State>, i: nat, j: nat, k: nat, l: nat)
    requires IsRun(c, run) && Reachable(c, run[0])
    requires i < j <= k < |run| && l in run[i].g.book.leases && l !in run[j].g.book.leases
    ensures l !in run[k].g.book.leases
    ensures Over(run[k], l)
  {
    hide Next, Over, Reachable;
    OverBy(c, run, i, j, l);
    OverSince(c, run, j, k, l);
    assert Over(run[k], l) ==> l !in run[k].g.book.leases by {
      OverNotLive(run[k], l);
    }
  }

  lemma OverNotLive(a: State, l: nat)
    ensures Over(a, l) ==> l !in a.g.book.leases
  {
  }

  lemma {:induction false} RunReachable(c: Params, run: seq<State>, i: nat)
    requires IsRun(c, run) && Reachable(c, run[0]) && i < |run|
    ensures Reachable(c, run[i])
  {
    hide Next, Reachable;
    if i > 0 {
      RunReachable(c, run, i - 1);
      assert Next(c, run[i - 1], run[(i - 1) + 1]);
      Safety.ReachableNext(c, run[i - 1], run[i]);
    }
  }

  lemma {:induction false} OverBy(c: Params, run: seq<State>, i: nat, j: nat, l: nat)
    requires IsRun(c, run) && Reachable(c, run[0])
    requires i < j < |run| && l in run[i].g.book.leases && l !in run[j].g.book.leases
    ensures Over(run[j], l)
    decreases j - i
  {
    hide Next, Over, Reachable;
    assert Next(c, run[i], run[i + 1]);
    if l in run[i + 1].g.book.leases {
      OverBy(c, run, i + 1, j, l);
    } else {
      RunReachable(c, run, i);
      LeaseEnds(c, run[i], run[i + 1], l);
      OverSince(c, run, i + 1, j, l);
    }
  }

  lemma {:induction false} OverSince(c: Params, run: seq<State>, j: nat, k: nat, l: nat)
    requires IsRun(c, run) && j <= k < |run| && Over(run[j], l)
    ensures Over(run[k], l)
    decreases k - j
  {
    hide Next, Over;
    if j < k {
      assert Next(c, run[j], run[j + 1]);
      OverForGood(c, run[j], run[j + 1], l);
      OverSince(c, run, j + 1, k, l);
    }
  }

  // Complete starts a recycle exactly if its lease is in the table at that step;
  // otherwise it changes nothing but its own thread. A lease that is over is not
  // there, so a second Complete finds nothing.
  lemma CompleteFindsExactlyLiveLeases(c: Params, a: State, b: State, t: nat, ch: Choice)
    requires Step(c, a, b, t, ch) && a.threads[t].Completing?
    ensures t < |b.threads| && (b.threads[t].Unleased? <==> a.threads[t].l in a.g.book.leases)
    ensures a.threads[t].l in a.g.book.leases ==> b.g.book.leases == a.g.book.leases - {a.threads[t].l}
    ensures a.threads[t].l !in a.g.book.leases ==> b == State(a.g, a.threads[t := Done])
    ensures Over(a, a.threads[t].l) ==> a.threads[t].l !in a.g.book.leases
  {
  }
}
