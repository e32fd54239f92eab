// Main results about who may act on a sentry, how clean it is when it is
// leased, and how often it is used.
module Ownership {
  import opened Basics
  import opened Protocol
  import opened Invariant
  import opened System
  import Safety
  import Accounting
  import Guests
  import Paths

  // A claim on a sentry, read off the state alone: it is an idle member, or in a
  // thread's hands, or under a lease, or its lease was cancelled, or it is gone.
  ghost predicate Owns(a: State, o: Owner, s: nat)
    requires s < |a.g.sentries|
  {
    var x := a.g.sentries[s];
    match o
    case Idle => s in a.g.list && x.state.Ready?
    case Thread(t) => t < |a.threads| && Holds(a.threads[t], s)
    case Lease(l) => l in a.g.book.leases && a.g.book.leases[l] == s
    case Orphan =>
      && x.birth.Live? && x.cleaned == 0 && x.state.Running?
      && x.leaseId.Some? && x.leaseId.value !in a.g.book.leases
      && !exists t :: 0 <= t < |a.threads| && Holds(a.threads[t], s)
    case Retired => x.cleaned > 0 || x.birth.Failed?
  }

  lemma SentryFact(c: Params, a: State, s: nat)
    requires Inv(c, a) && s < |a.g.sentries|
    ensures var x := a.g.sentries[s];
            && Bounded(c, x)
            && Fact(c, a.g, s, if x.owner.Thread? then PcOf(a, x.owner.t) else Done)
            && (x.owner.Thread? ==> x.owner.t < |a.threads|)
            && Listed(a.g) && Booked(a.g) && Granted(c, a.g)
    ensures forall t: nat :: t < |a.threads| && Holds(a.threads[t], s) ==> a.g.sentries[s].owner == Thread(t)
  {
    hide Fact, Bounded, Counters, Bounds, Wakes;
    var x := a.g.sentries[s];
    var u := if x.owner.Thread? then x.owner.t else |a.threads|;
    assert LocalOk(c, a.g, u, PcOf(a, u));
    forall t: nat | t < |a.threads| && Holds(a.threads[t], s) ensures x.owner == Thread(t) {
      assert LocalOk(c, a.g, t, PcOf(a, t));
    }
  }

  // The recorded owner is the only claimant.
  lemma OnlyOwner(c: Params, a: State, s: nat, o: Owner)
    requires Inv(c, a) && s < |a.g.sentries| && Owns(a, o, s)
    ensures o == a.g.sentries[s].owner
  {
    hide Inv, ThreadFact;
    SentryFact(c, a, s);
    var x := a.g.sentries[s];
    match o
    case Idle =>
      var i :| 0 <= i < |a.g.list| && a.g.list[i] == s;
    case Thread(t) =>
    case Lease(l) =>
    case Orphan =>
      if x.owner.Thread? {
        HeldByOwner(c, a, s);
      }
    case Retired =>
      RetiredOwner(c, a, s);
  }

  lemma HeldByOwner(c: Params, a: State, s: nat)
    requires Inv(c, a) && s < |a.g.sentries| && a.g.sentries[s].owner.Thread?
    ensures a.g.sentries[s].owner.t < |a.threads| && Holds(a.threads[a.g.sentries[s].owner.t], s)
  {
    hide Fact, Counters, Bounds, Wakes;
    var t := a.g.sentries[s].owner.t;
    assert LocalOk(c, a.g, t, PcOf(a, t));
  }

  lemma RetiredOwner(c: Params, a: State, s: nat)
    requires Inv(c, a) && s < |a.g.sentries|
    requires a.g.sentries[s].cleaned > 0 || a.g.sentries[s].birth.Failed?
    ensures a.g.sentries[s].owner.Retired?
  {
    SentryFact(c, a, s);
    var x := a.g.sentries[s];
    if x.owner.Thread? {
      HeldByOwner(c, a, s);
      assert HeldRecord(c, x, a.threads[x.owner.t]);
      HeldNotFailed(c, x, a.threads[x.owner.t], s);
    }
    hide Inv, HeldRecord, Seated, Listed, Booked, Granted, Holds;
  }

  lemma HeldNotFailed(c: Params, x: SentryRecord, pc: Pc, s: nat)
    requires HeldRecord(c, x, pc) && Holds(pc, s)
    ensures !x.birth.Failed?
  {
    hide Blank, Loaded, Pristine, Accepted, Unspent, Spent;
  }

  // At any time, open or closed, no sentry has two owners.
  lemma NoTwoOwners(c: Params, a: State, s: nat, o: Owner, p: Owner)
    requires Reachable(c, a) && s < |a.g.sentries|
    requires Owns(a, o, s) && Owns(a, p, s)
    ensures o == p
  {
    Safety.ReachableInv(c, a);
    hide Inv, Owns;
    OnlyOwner(c, a, s, o);
    OnlyOwner(c, a, s, p);
  }

  // While the pool is open, every sentry ever built has exactly one owner.
  lemma OneOwner(c: Params, a: State, s: nat)
    requires Reachable(c, a) && s < |a.g.sentries| && !a.g.closed
    ensures exists o :: Owns(a, o, s) && forall p :: Owns(a, p, s) ==> p == o
  {
    Safety.ReachableInv(c, a);
    OwnerOwns(c, a, s);
    var o := a.g.sentries[s].owner;
    forall p | Owns(a, p, s) ensures p == o {
      OnlyOwner(c, a, s, p);
    }
  }

  lemma OwnerOwns(c: Params, a: State, s: nat)
    requires Inv(c, a) && s < |a.g.sentries| && !a.g.closed
    ensures Owns(a, a.g.sentries[s].owner, s)
  {
    hide Inv, ThreadFact;
    SentryFact(c, a, s);
    if a.g.sentries[s].owner.Thread? {
      HeldByOwner(c, a, s);
    }
  }

  // The lease table is injective, and a leased sentry is Running under exactly
  // that id, not cleaned up by any owner, and a member until the pool closes.
  lemma LeasedSentry(c: Params, a: State, l: nat)
    requires Reachable(c, a) && l in a.g.book.leases
    ensures var s := a.g.book.leases[l];
            && s < |a.g.sentries|
            && a.g.sentries[s].state.Running? && a.g.sentries[s].leaseId == Some(l)
            && a.g.sentries[s].cleaned == 0 && a.g.sentries[s].birth.Live?
            && (!a.g.closed ==> s in a.g.list)
            && (a.g.closed ==> a.g.sentries[s].drained == 1 || s in a.g.doomed)
            && (forall m :: m in a.g.book.leases && a.g.book.leases[m] == s ==> m == l)
  {
    Safety.ReachableInv(c, a);
    hide Reachable, Guests.StageOf;
    var s := a.g.book.leases[l];
    assert s < |a.g.sentries| && a.g.sentries[s].owner == Lease(l) by {
      assert LocalOk(c, a.g, 0, PcOf(a, 0));
    }
    hide Inv;
    LeasedFact(c, a, l, s);
  }

  lemma LeasedFact(c: Params, a: State, l: nat, s: nat)
    requires Inv(c, a) && s < |a.g.sentries| && a.g.sentries[s].owner == Lease(l)
    ensures var x := a.g.sentries[s];
            && x.state.Running? && x.leaseId == Some(l) && x.cleaned == 0 && x.birth.Live?
            && (!a.g.closed ==> s in a.g.list)
            && (a.g.closed ==> x.drained == 1 || s in a.g.doomed)
            && (forall m :: m in a.g.book.leases && a.g.book.leases[m] == s ==> m == l)
  {
    SentryFact(c, a, s);
    hide Inv, HeldRecord, Guests.StageOf;
  }

  // ---- how clean ----------------------------------------------------------

  // Every lease went to a live sentry whose guest had served no lease since it was
  // made or last reset. The last that any owner did to it was the successful restore
  // of the checkpoint asked for: the override's, which the allowlist admits and a
  // pre_restore pool never takes, or else the workload's. Shutdown alone may have
  // destroyed it under the executor.
  lemma CleanWhenLeased(c: Params, a: State, e: Grant)
    requires Reachable(c, a) && e in a.g.book.grants
    ensures e.before.birth.Live? && e.before.cleaned == 0 && !Guests.Tainted(e.before.calls)
    ensures e.request.Some? ==>
              && !c.preRestore && Paths.Allowed(c.dirs, e.request.value.abs)
              && EndsIn(e.before.calls, Restore(e.request.value.checkpoint, true))
    ensures e.request.None? ==> EndsIn(e.before.calls, Restore(c.checkpoint, true))
    ensures e.before.drained == 0 || a.g.closed
  {
    Safety.ReachableInv(c, a);
    GrantFact(c, a, e);
    Guests.TaintedStage(c, e.before.calls);
    hide Inv, Reachable;
  }

  predicate EndsIn(calls: seq<Call>, e: Call) {
    calls != [] && calls[|calls| - 1] == e
  }

  lemma GrantFact(c: Params, a: State, e: Grant)
    requires Inv(c, a) && e in a.g.book.grants
    ensures GrantOk(c, e) && (a.g.closed || e.before.drained == 0)
  {
    assert LocalOk(c, a.g, 0, PcOf(a, 0));
    hide GrantOk, Inv;
  }

  // ---- what is done to a guest -------------------------------------------

  // In every reachable state the calls made on each sentry's guest are a word of
  // the guest's protocol. An idle member's guest has served nobody since its last
  // restore, and in a pre_restore pool it holds the workload's checkpoint; a leased
  // one serves; one that its owner cleaned up is deleted.
  lemma CallsAreProper(c: Params, a: State, s: nat)
    requires Reachable(c, a) && s < |a.g.sentries|
    ensures var calls := a.g.sentries[s].calls;
            && Guests.Proper(c, calls)
            && (s in a.g.list && a.g.sentries[s].state.Ready? ==>
                  !Guests.Tainted(calls) && (c.preRestore ==> EndsIn(calls, Restore(c.checkpoint, true))))
            && ((exists l :: l in a.g.book.leases && a.g.book.leases[l] == s) ==> EndsInUse(calls))
            && (a.g.sentries[s].cleaned == 1 <==> EndsIn(calls, Delete))
  {
    Safety.ReachableInv(c, a);
    var x := a.g.sentries[s];
    OwnedCalls(c, a, s);
    if s in a.g.list && x.state.Ready? {
      OnlyOwner(c, a, s, Idle);
    }
    if l :| l in a.g.book.leases && a.g.book.leases[l] == s {
      OnlyOwner(c, a, s, Lease(l));
    }
    hide Inv, Reachable, Guests.Proper, Guests.Tainted;
  }

  // The same by the recorded owner.
  lemma OwnedCalls(c: Params, a: State, s: nat)
    requires Inv(c, a) && s < |a.g.sentries|
    ensures var x := a.g.sentries[s];
            && Guests.Proper(c, x.calls)
            && (x.owner.Idle? ==>
                  !Guests.Tainted(x.calls) && (c.preRestore ==> EndsIn(x.calls, Restore(c.checkpoint, true))))
            && (x.owner.Lease? ==> EndsInUse(x.calls))
            && (x.cleaned == 1 <==> EndsIn(x.calls, Delete))
  {
    SentryFact(c, a, s);
    var x := a.g.sentries[s];
    var pc := if x.owner.Thread? then PcOf(a, x.owner.t) else Done;
    if x.owner.Thread? {
      HeldByOwner(c, a, s);
    }
    hide Inv, Holds, HeldRecord, Seated, Listed, Granted;
    StagedCalls(c, x, pc, s);
  }

  lemma StagedCalls(c: Params, x: SentryRecord, pc: Pc, s: nat)
    requires RecordFact(c, x, pc) && (x.owner.Thread? ==> Holds(pc, s))
    requires x.cleaned == Bit(x.owner.Retired? && x.birth.Live?)
    ensures Guests.Proper(c, x.calls)
    ensures x.owner.Idle? ==>
              !Guests.Tainted(x.calls) && (c.preRestore ==> EndsIn(x.calls, Restore(c.checkpoint, true)))
    ensures x.owner.Lease? ==> EndsInUse(x.calls)
    ensures x.cleaned == 1 <==> EndsIn(x.calls, Delete)
  {
    LastCall(c, x.calls);
    hide EndsIn, EndsInUse, Guests.StageOf, Guests.Tainted;
    if x.owner.Thread? {
      HeldProper(c, x, pc, s);
    }
    hide HeldRecord, Unspent, Spent;
    if Guests.Proper(c, x.calls) {
      Guests.TaintedStage(c, x.calls);
    }
  }

  // What the stage says about the last call.
  lemma LastCall(c: Params, calls: seq<Call>)
    ensures var stage := Guests.StageOf(c, calls);
            && (stage == Guests.Idling(Some(c.checkpoint)) ==> EndsIn(calls, Restore(c.checkpoint, true)))
            && (calls == [] ==> stage.Unborn?)
            && (stage.Serving? ==> EndsInUse(calls))
            && (stage.Deleted? ==> EndsIn(calls, Delete))
            && (EndsIn(calls, Delete) ==> stage.Deleted? || stage.Wrong?)
  {
  }

  predicate EndsInUse(calls: seq<Call>) {
    calls != [] && calls[|calls| - 1].Use?
  }

  lemma HeldProper(c: Params, x: SentryRecord, pc: Pc, s: nat)
    requires HeldRecord(c, x, pc) && Holds(pc, s)
    ensures Guests.Proper(c, x.calls) && !Guests.StageOf(c, x.calls).Deleted?
  {
    hide Accepted, Unspent, Spent;
  }

  // ---- how often ----------------------------------------------------------

  // A sentry serves at most max(1, MaxRestoresPerSentry) leases in warm mode and
  // one lease in stock mode.
  lemma BoundedReuse(c: Params, a: State, s: nat)
    requires Reachable(c, a) && s < |a.g.sentries|
    ensures 0 <= a.g.sentries[s].served <= if c.warm then Max(1, c.maxRestores) else 1
  {
    Safety.ReachableInv(c, a);
    SentryFact(c, a, s);
  }

  // A Ready member has been restored exactly once for each lease it served, and
  // is unused or below the limit; a leased one is one lease ahead.
  lemma RestoresCountLeases(c: Params, a: State, s: nat)
    requires Reachable(c, a) && s < |a.g.sentries|
    ensures s in a.g.list && a.g.sentries[s].state.Ready? ==>
              var x := a.g.sentries[s];
              x.restores == x.served && (x.restores == 0 || (c.warm && x.restores < c.maxRestores))
    ensures forall l :: l in a.g.book.leases && a.g.book.leases[l] == s ==>
              a.g.sentries[s].served == a.g.sentries[s].restores + 1
  {
    Safety.ReachableInv(c, a);
    SentryFact(c, a, s);
    if s in a.g.list && a.g.sentries[s].state.Ready? {
      OnlyOwner(c, a, s, Idle);
    }
    hide Inv, ThreadFact;
  }

  // ---- how often cleaned --------------------------------------------------

  // Its owner cleans a sentry up at most once, and so does Shutdown; before the
  // close there is at most one clean-up, and a cleaned sentry is out of the list,
  // out of the lease table and out of every thread's hands.
  lemma CleanedOnce(c: Params, a: State, s: nat)
    requires Reachable(c, a) && s < |a.g.sentries|
    ensures var x := a.g.sentries[s];
            0 <= x.cleaned <= 1 && 0 <= x.drained <= 1 && (x.drained == 1 ==> a.g.closed)
    ensures a.g.sentries[s].cleaned == 1 ==>
              && s !in a.g.list
              && (forall l :: l in a.g.book.leases ==> a.g.book.leases[l] != s)
              && (forall t :: 0 <= t < |a.threads| ==> !Holds(a.threads[t], s))
  {
    Safety.ReachableInv(c, a);
    SentryFact(c, a, s);
    hide Inv, ThreadFact;
  }

  // Once the pool is closed and every thread has finished, every sentry that
  // spawn returned has been cleaned up, by its owner or by Shutdown.
  lemma DrainLeaksNothing(c: Params, a: State, s: nat)
    requires Reachable(c, a) && a.g.closed
    requires forall t :: 0 <= t < |a.threads| ==> a.threads[t].Done?
    requires s < |a.g.sentries|
    ensures !a.g.sentries[s].birth.Spawning?
    ensures a.g.sentries[s].birth.Live? ==> a.g.sentries[s].cleaned + a.g.sentries[s].drained >= 1
  {
    Safety.ReachableInv(c, a);
    SentryFact(c, a, s);
    assert a.g.doomed == [] by {
      SumZero(a.threads, Accounting.Flusher);
    }
    if a.g.sentries[s].owner.Thread? {
      HeldByOwner(c, a, s);
    }
    hide Inv, ThreadFact;
  }
}
