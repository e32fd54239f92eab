// The rest of the pool's methods as functions of the shared state: executing a
// request on an acquired sentry, completing a lease, the reaper's pass, and
// Shutdown.
module Services {
  import opened Basics
  import opened Protocol
  import opened Solo
  import opened Stretches
  import opened Effects
  import Paths

  // ---- Execute after acquire ----------------------------------------------

  function Released(g: Shared, s: nat): Effect
    requires s < |g.sentries|
  {
    Effect(Set(g, s, g.sentries[s].(state := Ready, leaseId := None, owner := Idle)), [One])
  }

  lemma ReleasedReaches(c: Params, t: nat, g: Shared, s: nat)
    requires Sound(g) && s < |g.sentries|
    ensures var e := Released(g, s); Reaches(c, t, g, Releasing(s), e.g, Done, e.calls)
  {
    hide Reaches;
    var h := Released(g, s).g;
    Single(c, t, g, Releasing(s), AnyCase(true), Go(h, Signalling(false)));
    Then(c, t, g, Releasing(s), h, Signalling(false), [], AnyCase(true), Outcome(h, Done, One));
    assert [] + CallOf(Outcome(h, Done, One)) == [One];
  }

  // The execution is counted and the fresh id is on the sentry.
  function Issued(g: Shared, s: nat): Shared
    requires s < |g.sentries|
  {
    Set(g, s, g.sentries[s].(leaseId := Some(|g.book.issued|)))
    .(book := g.book.(executions := g.book.executions + 1, issued := g.book.issued + [s]))
  }

  lemma IssuedReaches(c: Params, t: nat, g: Shared, s: nat, r: Request)
    requires Sound(g) && s < |g.sentries|
    ensures Reaches(c, t, g, Restored(r, s), Issued(g, s), Leasing(r, s, |g.book.issued|), [])
  {
    hide Reaches;
    var h := g.(book := g.book.(executions := g.book.executions + 1));
    Single(c, t, g, Restored(r, s), AnyCase(true), Go(h, Counted(r, s)));
    Then(c, t, g, Restored(r, s), h, Counted(r, s), [], AnyCase(true),
         Go(Issued(g, s), Leasing(r, s, |g.book.issued|)));
  }

  // The execution is counted and the lease registered.
  function Registered(g: Shared, s: nat, r: Request): Shared
    requires s < |g.sentries|
  {
    var l := |g.book.issued|;
    var x := g.sentries[s].(leaseId := Some(l));
    Set(g, s, Called(x, Use(r)).(served := x.served + 1, owner := Lease(l)))
    .(book := g.book.(
        executions := g.book.executions + 1,
        issued := g.book.issued + [s],
        leases := g.book.leases[l := s],
        grants := g.book.grants + [Grant(l, s, r, x)]))
  }

  lemma InsertReaches(c: Params, t: nat, g: Shared, s: nat, r: Request)
    requires Sound(g) && s < |g.sentries|
    ensures Reaches(c, t, Issued(g, s), Leasing(r, s, |g.book.issued|), Registered(g, s, r), Done, [])
  {
    hide Reaches;
    assert Set(Issued(g, s), s, Registered(g, s, r).sentries[s]).sentries == Registered(g, s, r).sentries;
    Single(c, t, Issued(g, s), Leasing(r, s, |g.book.issued|), AnyCase(true), Go(Registered(g, s, r), Done));
  }

  lemma RegisteredReaches(c: Params, t: nat, g: Shared, s: nat, r: Request)
    requires Sound(g) && s < |g.sentries|
    ensures Reaches(c, t, g, Restored(r, s), Registered(g, s, r), Done, [])
  {
    IssuedReaches(c, t, g, s, r);
    InsertReaches(c, t, g, s, r);
    hide Reaches, Issued, Registered;
    var pc := Leasing(r, s, |g.book.issued|);
    Chain(c, t, g, Restored(r, s), Issued(g, s), pc, [], Registered(g, s, r), Done, []);
  }

  // An override that a pre_restore pool or the allowlist turns down.
  predicate Refused(c: Params, r: Request) {
    r.Some? && (c.preRestore || !Paths.Allowed(c.dirs, r.value.abs))
  }

  // Execute from the acquired sentry to its return; ok says whether the
  // on-demand restore, if there is one, succeeds.
  function Served(c: Params, g: Shared, s: nat, r: Request, ok: bool): Effect
    requires s < |g.sentries|
  {
    if Refused(c, r) then Released(g, s)
    else if c.preRestore then Effect(Registered(g, s, r), [])
    else
      var x := g.sentries[s];
      var h := Set(g, s, Called(x, Restore(CheckpointOf(c, r), ok)));
      if ok then Effect(Registered(h, s, r), []) else Released(h, s)
  }

  lemma ServedReaches(c: Params, t: nat, g: Shared, s: nat, r: Request, ok: bool)
    requires Sound(g) && s < |g.sentries|
    ensures var e := Served(c, g, s, r, ok); Reaches(c, t, g, Acquired(r, s), e.g, Done, e.calls)
  {
    hide Reaches, Released, Registered, Called;
    var e := Served(c, g, s, r, ok);
    if Refused(c, r) {
      Single(c, t, g, Acquired(r, s), AnyCase(true), Go(g, Releasing(s)));
      ReleasedReaches(c, t, g, s);
      Chain(c, t, g, Acquired(r, s), g, Releasing(s), [], e.g, Done, e.calls);
    } else if c.preRestore {
      Single(c, t, g, Acquired(r, s), AnyCase(true), Go(g, Restored(r, s)));
      RegisteredReaches(c, t, g, s, r);
      Chain(c, t, g, Acquired(r, s), g, Restored(r, s), [], e.g, Done, e.calls);
    } else {
      var x := g.sentries[s];
      var h := Set(g, s, Called(x, Restore(CheckpointOf(c, r), ok)));
      var pc := if ok then Restored(r, s) else Releasing(s);
      Single(c, t, g, Acquired(r, s), AnyCase(true), Go(g, Restoring(r, s)));
      Then(c, t, g, Acquired(r, s), g, Restoring(r, s), [], AnyCase(ok), Go(h, pc));
      if ok {
        RegisteredReaches(c, t, h, s, r);
      } else {
        ReleasedReaches(c, t, h, s);
      }
      Chain(c, t, g, Acquired(r, s), h, pc, [], e.g, Done, e.calls);
    }
  }

  // An acquired sentry ends up under a new lease exactly if there is no override,
  // or the pool takes overrides and the allowlist this one, and the restore, where
  // one is needed, succeeds. The restore is of the override's checkpoint, or else
  // of the workload's, and the lease follows it at once. Otherwise the sentry is
  // Ready again, one caller is woken, and the lease table is as before.
  lemma ServedOutcome(c: Params, g: Shared, s: nat, r: Request, ok: bool)
    requires Sound(g) && s < |g.sentries|
    ensures var e := Served(c, g, s, r, ok);
            var l := |g.book.issued|;
            var x := g.sentries[s];
            var y := e.g.sentries[s];
            var allowed := r.None? || (!c.preRestore && Paths.Allowed(c.dirs, r.value.abs));
            if allowed && (c.preRestore || ok) then
              && e.g.book.leases == g.book.leases[l := s] && e.calls == []
              && e.g.book.executions == g.book.executions + 1
              && y.leaseId == Some(l) && y.state == x.state && y.served == x.served + 1
              && (c.preRestore ==> y.calls == x.calls + [Use(r)])
              && (!c.preRestore && r.None? ==> y.calls == x.calls + [Restore(c.checkpoint, true), Use(r)])
              && (r.Some? ==> y.calls == x.calls + [Restore(r.value.checkpoint, true), Use(r)])
            else
              && e.g.book == g.book && e.calls == [One] && y.state.Ready? && y.leaseId.None?
              && (!allowed ==> y.calls == x.calls)
              && (allowed && r.None? ==> y.calls == x.calls + [Restore(c.checkpoint, false)])
              && (allowed && r.Some? ==> y.calls == x.calls + [Restore(r.value.checkpoint, false)])
  {
    var x := g.sentries[s];
    forall e: Call ensures (x.calls + [e]) + [Use(r)] == x.calls + [e, Use(r)] {
    }
  }

  // ---- Complete -----------------------------------------------------------

  // The removal of the lease, and the recycler that it starts.
  function Completed(g: Shared, t: nat, l: nat): Outcome
    requires Sound(g)
  {
    if l !in g.book.leases then Go(g, Done)
    else
      var s := g.book.leases[l];
      Go(Set(g, s, g.sentries[s].(owner := Thread(t)))
         .(joining := g.joining + 1,
           book := g.book.(leases := g.book.leases - {l}, completed := g.book.completed + 1,
                           recycles := g.book.recycles + 1)),
         Recycling(s))
  }

  lemma CompletedReaches(c: Params, t: nat, g: Shared, l: nat)
    requires Sound(g)
    ensures var o := Completed(g, t, l); Reaches(c, t, g, Completing(l), o.g, o.pc, [])
  {
    hide Reaches;
    var o := Completed(g, t, l);
    if l !in g.book.leases {
      Single(c, t, g, Completing(l), AnyCase(true), o);
    } else {
      var s := g.book.leases[l];
      var h := Set(g, s, g.sentries[s].(owner := Thread(t)))
               .(book := g.book.(leases := g.book.leases - {l}, completed := g.book.completed + 1));
      Single(c, t, g, Completing(l), AnyCase(true), Go(h, Unleased(s)));
      Then(c, t, g, Completing(l), h, Unleased(s), [], AnyCase(true), o);
    }
  }

  // ---- the reaper ---------------------------------------------------------

  function CleanedAll(g: Shared, todo: seq<nat>): Shared
    requires Within(todo, |g.sentries|)
    decreases |todo|
  {
    if todo == [] then g
    else CleanedAll(Set(g, todo[0], Cleaned(g.sentries[todo[0]])), todo[1..])
  }

  // The members that a pass evicts, in list order.
  function Evicted(g: Shared, idle: set<nat>): seq<nat>
    requires Within(g.list, |g.sentries|)
  {
    Without(g.list, (set x | x in g.list) - Stale(g, idle))
  }

  // The list without them; they are in the reaper's hands.
  function Reaped(g: Shared, t: nat, idle: set<nat>): Shared
    requires Within(g.list, |g.sentries|)
  {
    g.(list := Without(g.list, Stale(g, idle)),
       sentries := Reassign(g.sentries, Stale(g, idle), Thread(t)),
       evicted := g.evicted + |Evicted(g, idle)|)
  }

  lemma EvictedInRange(g: Shared, t: nat, idle: set<nat>)
    requires Sound(g)
    ensures Within(Evicted(g, idle), |g.sentries|)
    ensures Sound(Reaped(g, t, idle))
  {
    assert forall i :: 0 <= i < |Evicted(g, idle)| ==> Evicted(g, idle)[i] in g.list;
    var l := Without(g.list, Stale(g, idle));
    assert forall i :: 0 <= i < |l| ==> l[i] in g.list;
  }

  // A pass and the clean-ups after it, from one tick to the next.
  lemma PassReaches(c: Params, t: nat, g: Shared, idle: set<nat>)
    requires Sound(g) && Within(Evicted(g, idle), |g.sentries|)
    ensures Reaches(c, t, g, Reaping, CleanedAll(Reaped(g, t, idle), Evicted(g, idle)), Reaping, [])
  {
    EvictedInRange(g, t, idle);
    hide Reaches, CleanedAll, Cleaned;
    var todo := Evicted(g, idle);
    var h := Reaped(g, t, idle);
    var ch := Choice(true, idle, 0);
    if todo == [] {
      NothingStale(g, t, idle);
      Single(c, t, g, Reaping, ch, Go(g, Reaping));
    } else {
      TickReaches(c, t, g, idle);
      CleanedAllReaches(c, t, h, todo);
      Chain(c, t, g, Reaping, h, Evicting(todo), [], CleanedAll(h, todo), Reaping, []);
    }
  }

  lemma TickReaches(c: Params, t: nat, g: Shared, idle: set<nat>)
    requires Sound(g) && Evicted(g, idle) != []
    ensures Reaches(c, t, g, Reaping, Reaped(g, t, idle), Evicting(Evicted(g, idle)), [])
  {
    hide Reaches, Without, Stale, Reassign;
    Single(c, t, g, Reaping, Choice(true, idle, 0), Go(Reaped(g, t, idle), Evicting(Evicted(g, idle))));
  }

  lemma StaleAreEvicted(g: Shared, idle: set<nat>)
    requires Within(g.list, |g.sentries|)
    ensures forall x :: x in Stale(g, idle) ==> x in Evicted(g, idle)
  {
  }

  lemma NothingStale(g: Shared, t: nat, idle: set<nat>)
    requires Within(g.list, |g.sentries|) && Evicted(g, idle) == []
    ensures Reaped(g, t, idle) == g
  {
    StaleAreEvicted(g, idle);
    assert Stale(g, idle) == {};
    WithoutNone(g.list, Stale(g, idle));
    assert Reassign(g.sentries, Stale(g, idle), Thread(t)) == g.sentries;
  }

  lemma {:induction false} CleanedAllReaches(c: Params, t: nat, g: Shared, todo: seq<nat>)
    requires Sound(g) && Within(todo, |g.sentries|) && todo != []
    ensures Reaches(c, t, g, Evicting(todo), CleanedAll(g, todo), Reaping, [])
    decreases |todo|
  {
    hide Reaches, Cleaned;
    var h := Set(g, todo[0], Cleaned(g.sentries[todo[0]]));
    Single(c, t, g, Evicting(todo), AnyCase(true), Go(h, if |todo| == 1 then Reaping else Evicting(todo[1..])));
    if |todo| > 1 {
      CleanedAllReaches(c, t, h, todo[1..]);
      Chain(c, t, g, Evicting(todo), h, Evicting(todo[1..]), [], CleanedAll(h, todo[1..]), Reaping, []);
    } else {
      assert CleanedAll(h, todo[1..]) == h;
    }
  }

  // ---- Shutdown -----------------------------------------------------------

  function Cancelled(g: Shared): Shared {
    g.(sentries := Reassign(g.sentries, g.book.leases.Values, Orphan),
       book := g.book.(leases := map[], cancelled := g.book.cancelled + |g.book.leases|))
  }

  function FlushedAll(g: Shared, todo: seq<nat>): Shared
    requires Within(todo, |g.sentries|)
    decreases |todo|
  {
    if todo == [] then g
    else FlushedAll(Set(g, todo[0], Flushed(g.sentries[todo[0]])), todo[1..])
  }

  // The pool's own Shutdown, once no recycler is left to wait for.
  function ShutDown(g: Shared): Shared
    requires Within(g.list, |g.sentries|)
  {
    FlushedAll(g.(stopped := true, closed := true, list := [], doomed := []), g.list)
  }

  lemma ShutDownReaches(c: Params, t: nat, g: Shared)
    requires Sound(g) && g.joining == 0
    ensures Reaches(c, t, g, Stopping, ShutDown(g), Done, [Everybody])
  {
    hide Reaches, ShutDown;
    var h := g.(stopped := true);
    StopReaches(c, t, g);
    FinishReaches(c, t, h);
    SameShutDown(g);
    Chain(c, t, g, Stopping, h, Joining, [], ShutDown(g), Done, [Everybody]);
  }

  lemma SameShutDown(g: Shared)
    requires Within(g.list, |g.sentries|)
    ensures ShutDown(g.(stopped := true)) == ShutDown(g)
  {
  }

  // Shutdown up to its wait for the recyclers,
  lemma StopReaches(c: Params, t: nat, g: Shared)
    requires Sound(g)
    ensures Reaches(c, t, g, Stopping, g.(stopped := true), Joining, [])
  {
    Single(c, t, g, Stopping, AnyCase(true), Go(g.(stopped := true), Joining));
  }

  // and from the end of that wait.
  lemma FinishReaches(c: Params, t: nat, g: Shared)
    requires Sound(g) && g.joining == 0 && g.stopped
    ensures Reaches(c, t, g, Joining, ShutDown(g), Done, [Everybody])
  {
    hide Reaches;
    ClosingReaches(c, t, g);
    var h := g.(closed := true, doomed := g.list, list := []);
    FlushedAllReaches(c, t, h, g.list);
    assert h.(doomed := []) == g.(stopped := true, closed := true, list := [], doomed := []);
    Chain(c, t, g, Joining, h, Flushing, [Everybody], ShutDown(g), Done, []);
  }

  lemma ClosingReaches(c: Params, t: nat, g: Shared)
    requires Sound(g) && g.joining == 0
    ensures Reaches(c, t, g, Joining, g.(closed := true, doomed := g.list, list := []), Flushing, [Everybody])
  {
    hide Reaches;
    Single(c, t, g, Joining, AnyCase(true), Go(g, Closing));
    var o := Outcome(g.(closed := true, doomed := g.list, list := []), Flushing, Everybody);
    Then(c, t, g, Joining, g, Closing, [], AnyCase(true), o);
    assert [] + CallOf(o) == [Everybody];
  }

  lemma {:induction false} FlushedAllReaches(c: Params, t: nat, g: Shared, todo: seq<nat>)
    requires Sound(g) && g.doomed == todo
    ensures Reaches(c, t, g, Flushing, FlushedAll(g.(doomed := []), todo), Done, [])
    decreases |todo|
  {
    hide Reaches, Flushed;
    if todo == [] {
      assert g.(doomed := []) == g;
      Single(c, t, g, Flushing, AnyCase(true), Go(g, Done));
    } else {
      var h := Set(g, todo[0], Flushed(g.sentries[todo[0]])).(doomed := todo[1..]);
      Single(c, t, g, Flushing, AnyCase(true), Go(h, Flushing));
      FlushedAllReaches(c, t, h, todo[1..]);
      var end := FlushedAll(h.(doomed := []), todo[1..]);
      Chain(c, t, g, Flushing, h, Flushing, [], end, Done, []);
    }
  }

  lemma CancelledReaches(c: Params, t: nat, g: Shared)
    requires Sound(g)
    ensures Reaches(c, t, g, Cancelling, Cancelled(g), Stopping, [])
  {
    Single(c, t, g, Cancelling, AnyCase(true), Go(Cancelled(g), Stopping));
  }
}
