// Each region of code keeps the invariant on the shared state and the running
// thread, and spares what other threads hold.
module InvariantSteps {
  import opened Basics
  import opened Protocol
  import opened Invariant

  // ---- shapes of regions --------------------------------------------------

  // The sentries outside touched are as before and not in the thread's hands.
  lemma OwnFramed(c: Params, g: Shared, t: nat, pc: Pc, h: Shared, pc': Pc, touched: set<nat>)
    requires OwnOk(c, g, t, pc) && |g.sentries| <= |h.sentries|
    requires forall u :: 0 <= u < |h.sentries| && u !in touched ==>
               && u < |g.sentries| && h.sentries[u] == g.sentries[u]
               && !Holds(pc, u) && !Holds(pc', u)
               && (Placed(g, u) ==> Placed(h, u)) && (Outside(g, u) ==> Outside(h, u))
    requires forall u :: 0 <= u < |h.sentries| && u in touched ==>
               && Bounded(c, h.sentries[u]) && (h.sentries[u].owner == Thread(t) <==> Holds(pc', u))
               && Fact(c, h, u, pc')
    ensures OwnOk(c, h, t, pc')
  {
    hide Fact, Holds, Bounded;
    forall u | 0 <= u < |h.sentries|
      ensures h.sentries[u].owner == Thread(t) <==> Holds(pc', u)
      ensures Bounded(c, h.sentries[u])
      ensures !Foreign(h.sentries[u], t) ==> Fact(c, h, u, pc')
    {
      if u !in touched && !Foreign(h.sentries[u], t) {
        FactFramed(c, g, h, u, pc, pc');
      }
    }
  }

  // A sentry's part in the tables is as before.
  ghost predicate Filed(x: SentryRecord, y: SentryRecord) {
    && y.drained == x.drained
    && (y.leaseId.None? || y.leaseId == x.leaseId)
    && (x.owner.Lease? || y.owner.Lease? ==> y.owner == x.owner)
    && (y.state.Ready? && !y.owner.Idle? ==> x.state.Ready? && !x.owner.Idle?)
  }

  lemma TablesKept(c: Params, g: Shared, h: Shared)
    requires Listed(g) && Booked(g) && Granted(c, g) && SameTables(g, h)
    requires |g.sentries| <= |h.sentries| && (h.closed ==> h.lock.None?)
    requires forall u :: 0 <= u < |g.sentries| ==> Filed(g.sentries[u], h.sentries[u])
    requires forall u :: |g.sentries| <= u < |h.sentries| ==>
               h.sentries[u].drained == 0 && h.sentries[u].leaseId.None? && !h.sentries[u].owner.Lease?
    ensures Listed(h)
    ensures Booked(h)
    ensures Granted(c, h)
  {
    hide GrantOk;
    assert Booked(h) by {
      forall l | l in h.book.leases
        ensures l < |h.book.issued| && h.book.issued[l] == h.book.leases[l] < |h.sentries|
        ensures h.sentries[h.book.leases[l]].owner == Lease(l)
      {
        assert Filed(g.sentries[g.book.leases[l]], h.sentries[g.book.leases[l]]);
      }
    }
  }

  lemma SparesKept(g: Shared, h: Shared, t: nat)
    requires SameTables(g, h) && |g.sentries| <= |h.sentries|
    requires h.lock == g.lock || (g.lock == None && h.lock == Some(t)) || (g.lock == Some(t) && h.lock == None)
    requires forall u :: 0 <= u < |g.sentries| && Foreign(g.sentries[u], t) ==> h.sentries[u] == g.sentries[u]
    requires forall u :: 0 <= u < |h.sentries| && Foreign(h.sentries[u], t) ==>
               u < |g.sentries| && g.sentries[u].owner == h.sentries[u].owner
    ensures Spares(g, h, t)
  {
  }

  // A region that touches no sentry.
  lemma MoveKeeps(c: Params, g: Shared, t: nat, pc: Pc, h: Shared, pc': Pc)
    requires LocalOk(c, g, t, pc) && PcOk(h, t, pc')
    requires SameTables(g, h) && h.sentries == g.sentries
    requires forall s :: Holds(pc', s) <==> Holds(pc, s)
    requires forall s :: 0 <= s < |g.sentries| && Holds(pc, s) ==> Fact(c, h, s, pc')
    requires h.lock == g.lock || (g.lock == None && h.lock == Some(t)) || (g.lock == Some(t) && h.lock == None)
    requires h.closed ==> h.lock.None?
    ensures LocalOk(c, h, t, pc')
    ensures Spares(g, h, t)
  {
    hide Fact, Holds, PcOk, Bounded;
    TablesKept(c, g, h);
    OwnMoved(c, g, t, pc, h, pc');
    SparesKept(g, h, t);
    hide OwnOk, Listed, Booked, Granted, Spares;
  }

  lemma OwnMoved(c: Params, g: Shared, t: nat, pc: Pc, h: Shared, pc': Pc)
    requires OwnOk(c, g, t, pc) && SameTables(g, h) && h.sentries == g.sentries
    requires forall s :: Holds(pc', s) <==> Holds(pc, s)
    requires forall s :: 0 <= s < |g.sentries| && Holds(pc, s) ==> Fact(c, h, s, pc')
    ensures OwnOk(c, h, t, pc')
  {
    hide Fact, Holds, Bounded;
    forall s | 0 <= s < |h.sentries| && !Foreign(h.sentries[s], t)
      ensures Fact(c, h, s, pc')
    {
      if !Holds(pc, s) {
        FactFramed(c, g, h, s, pc, pc');
      }
    }
  }

  // A region that rewrites the one sentry in hand and keeps it or lets it go.
  lemma TouchKeeps(c: Params, g: Shared, t: nat, pc: Pc, h: Shared, pc': Pc, s: nat)
    requires LocalOk(c, g, t, pc) && PcOk(h, t, pc')
    requires SameTables(g, h) && h.lock == g.lock
    requires s < |h.sentries| == |g.sentries| && h.sentries == g.sentries[s := h.sentries[s]]
    requires forall u :: Holds(pc, u) <==> u == s
    requires forall u :: Holds(pc', u) <==> u == s && h.sentries[s].owner == Thread(t)
    requires h.sentries[s].owner == Thread(t) || h.sentries[s].owner.Idle? || h.sentries[s].owner.Retired?
    requires h.sentries[s].leaseId.None? || h.sentries[s].leaseId == g.sentries[s].leaseId
    requires h.sentries[s].drained == g.sentries[s].drained
    requires h.sentries[s].state.Ready? && !h.sentries[s].owner.Idle? ==> g.sentries[s].state.Ready?
    requires Bounded(c, h.sentries[s]) && Fact(c, h, s, pc')
    ensures LocalOk(c, h, t, pc')
    ensures Spares(g, h, t)
  {
    hide Fact, Holds, PcOk, Bounded;
    assert g.sentries[s].owner == Thread(t);
    assert h.closed ==> h.lock.None?;
    hide Listed, Booked, Granted, Spares;
    OwnFramed(c, g, t, pc, h, pc', {s});
    hide OwnOk;
    TablesKept(c, g, h);
    SparesKept(g, h, t);
  }

  // spawn starts: a new sentry record in the hands of the running thread.
  lemma BirthKeeps(c: Params, g: Shared, t: nat, pc: Pc, h: Shared, pc': Pc)
    requires LocalOk(c, g, t, pc) && PcOk(h, t, pc')
    requires SameTables(g, h) && h.lock == g.lock
    requires h.sentries == g.sentries + [NewSentry(t)]
    requires forall u :: !Holds(pc, u)
    requires forall u :: Holds(pc', u) <==> u == |g.sentries|
    requires Fact(c, h, |g.sentries|, pc')
    ensures LocalOk(c, h, t, pc')
    ensures Spares(g, h, t)
  {
    hide Fact, Holds, PcOk;
    assert forall u :: 0 <= u < |g.sentries| ==> h.sentries[u] == g.sentries[u];
    OwnFramed(c, g, t, pc, h, pc', {|g.sentries|});
    TablesKept(c, g, h);
    SparesKept(g, h, t);
    hide OwnOk, Listed, Booked, Granted, Spares;
  }

  // acquire takes a Ready member.
  lemma TakeKeeps(c: Params, g: Shared, t: nat, pc: Pc, h: Shared, pc': Pc, s: nat)
    requires LocalOk(c, g, t, pc) && PcOk(h, t, pc')
    requires SameTables(g, h) && g.lock == Some(t) && h.lock == None
    requires s < |h.sentries| == |g.sentries| && h.sentries == g.sentries[s := h.sentries[s]]
    requires forall u :: !Holds(pc, u)
    requires forall u :: Holds(pc', u) <==> u == s
    requires g.sentries[s].owner.Idle? && h.sentries[s].owner == Thread(t)
    requires h.sentries[s].leaseId == g.sentries[s].leaseId && h.sentries[s].drained == g.sentries[s].drained
    requires !h.sentries[s].state.Ready?
    requires Bounded(c, h.sentries[s]) && Fact(c, h, s, pc')
    ensures LocalOk(c, h, t, pc')
    ensures Spares(g, h, t)
  {
    hide Fact, Holds, PcOk;
    OwnFramed(c, g, t, pc, h, pc', {s});
    TablesKept(c, g, h);
    SparesKept(g, h, t);
    hide OwnOk, Listed, Booked, Granted, Spares;
  }

  // Complete takes a lease, and with it the sentry, out of the table.
  lemma UnleaseKeeps(c: Params, g: Shared, t: nat, pc: Pc, h: Shared, pc': Pc, l: nat)
    requires LocalOk(c, g, t, pc) && PcOk(h, t, pc')
    requires l in g.book.leases && g.book.leases[l] < |g.sentries|
    requires h == g.(sentries := g.sentries[g.book.leases[l] := g.sentries[g.book.leases[l]].(owner := Thread(t))],
                     book := h.book)
    requires h.book.leases == g.book.leases - {l}
    requires h.book.issued == g.book.issued && h.book.grants == g.book.grants
    requires forall u :: !Holds(pc, u)
    requires forall u :: Holds(pc', u) <==> u == g.book.leases[l]
    requires Fact(c, h, g.book.leases[l], pc')
    ensures LocalOk(c, h, t, pc')
    ensures Spares(g, h, t)
  {
    assert g.sentries[g.book.leases[l]].owner == Lease(l);
    hide Fact, Holds, PcOk, GrantOk, Booked;
    OwnFramed(c, g, t, pc, h, pc', {g.book.leases[l]});
    UnleaseTables(g, t, h, l);
    UnleaseSpares(g, t, h, l);
    hide OwnOk, Listed, Spares;
  }

  lemma UnleaseTables(g: Shared, t: nat, h: Shared, l: nat)
    requires Listed(g) && Booked(g) && l in g.book.leases && g.book.leases[l] < |g.sentries|
    requires h.sentries == g.sentries[g.book.leases[l] := g.sentries[g.book.leases[l]].(owner := Thread(t))]
    requires h.book.leases == g.book.leases - {l} && h.book.issued == g.book.issued
    requires h.list == g.list && h.doomed == g.doomed && h.lock == g.lock
    requires h.closed == g.closed && h.stopped == g.stopped
    ensures Listed(h)
    ensures Booked(h)
  {
  }

  lemma UnleaseSpares(g: Shared, t: nat, h: Shared, l: nat)
    requires Booked(g) && l in g.book.leases && g.book.leases[l] < |g.sentries|
    requires h == g.(sentries := g.sentries[g.book.leases[l] := g.sentries[g.book.leases[l]].(owner := Thread(t))],
                     book := h.book)
    ensures Spares(g, h, t)
  {
  }

  // registerLease writes a fresh id on the sentry in hand.
  lemma IssueKeeps(c: Params, g: Shared, t: nat, pc: Pc, h: Shared, pc': Pc, s: nat)
    requires LocalOk(c, g, t, pc) && PcOk(h, t, pc')
    requires s < |g.sentries|
    requires h == g.(sentries := g.sentries[s := g.sentries[s].(leaseId := Some(|g.book.issued|))],
                     book := g.book.(issued := g.book.issued + [s]))
    requires forall u :: Holds(pc, u) <==> u == s
    requires forall u :: Holds(pc', u) <==> u == s
    requires Fact(c, h, s, pc')
    ensures LocalOk(c, h, t, pc')
    ensures Spares(g, h, t)
  {
    hide Fact, Holds, PcOk, GrantOk;
    assert g.sentries[s].owner == Thread(t);
    OwnFramed(c, g, t, pc, h, pc', {s});
    IssueBooked(g, h, s);
    hide OwnOk, Booked;
  }

  lemma IssueBooked(g: Shared, h: Shared, s: nat)
    requires Booked(g) && s < |g.sentries| && g.sentries[s].owner.Thread?
    requires h.sentries == g.sentries[s := g.sentries[s].(leaseId := Some(|g.book.issued|))]
    requires h.book.leases == g.book.leases && h.book.issued == g.book.issued + [s]
    ensures Booked(h)
  {
  }

  // registerLease enters the lease.
  lemma GrantKeeps(c: Params, g: Shared, t: nat, pc: Pc, h: Shared, pc': Pc, s: nat, l: nat)
    requires LocalOk(c, g, t, pc) && PcOk(h, t, pc')
    requires s < |h.sentries| == |g.sentries| && g.sentries[s].leaseId == Some(l)
    requires h == g.(sentries := g.sentries[s := h.sentries[s]], book := h.book)
    requires h.sentries[s].state == g.sentries[s].state
    requires h.sentries[s].owner == Lease(l) && h.sentries[s].leaseId == Some(l)
    requires h.sentries[s].drained == g.sentries[s].drained
    requires h.book.leases == g.book.leases[l := s] && h.book.issued == g.book.issued
    requires Granted(c, h)
    requires forall u :: Holds(pc, u) <==> u == s
    requires forall u :: !Holds(pc', u)
    requires Bounded(c, h.sentries[s]) && Fact(c, h, s, pc')
    ensures LocalOk(c, h, t, pc')
    ensures Spares(g, h, t)
  {
    hide Fact, Holds, PcOk, GrantOk, Granted, Bounded;
    assert g.sentries[s].owner == Thread(t);
    OwnFramed(c, g, t, pc, h, pc', {s});
    GrantBooked(g, h, s, l);
    hide OwnOk, Booked;
  }

  lemma GrantBooked(g: Shared, h: Shared, s: nat, l: nat)
    requires Booked(g) && s < |h.sentries| == |g.sentries|
    requires g.sentries[s].leaseId == Some(l) && g.sentries[s].owner.Thread?
    requires h.sentries == g.sentries[s := h.sentries[s]]
    requires h.sentries[s].owner == Lease(l) && h.sentries[s].leaseId == Some(l)
    requires h.book.leases == g.book.leases[l := s] && h.book.issued == g.book.issued
    ensures Booked(h)
  {
    assert l !in g.book.leases;
  }

  // A bulk change of owner from sentries that no thread holds.
  lemma ReassignKeeps(c: Params, g: Shared, t: nat, pc: Pc, h: Shared, pc': Pc, which: set<nat>, o: Owner)
    requires LocalOk(c, g, t, pc) && PcOk(h, t, pc')
    requires Listed(h) && Booked(h) && h.book.grants == g.book.grants
    requires h.sentries == Reassign(g.sentries, which, o) && !(o.Thread? && o.t != t)
    requires forall s :: s in which && s < |g.sentries| ==> !g.sentries[s].owner.Thread?
    requires forall s :: s !in which ==> (s in h.list <==> s in g.list)
    requires h.doomed == g.doomed && h.closed == g.closed && h.lock == g.lock && h.stopped == g.stopped
    requires g.lock.Some? ==> h.list == g.list
    requires forall u :: !Holds(pc, u)
    requires forall u :: Holds(pc', u) ==> u in which
    requires forall u :: u in which && u < |h.sentries| ==>
               Bounded(c, h.sentries[u]) && (o == Thread(t) <==> Holds(pc', u)) && Fact(c, h, u, pc')
    ensures LocalOk(c, h, t, pc')
    ensures Spares(g, h, t)
  {
    hide Fact, GrantOk, Bounded, Holds, PcOk, Listed, Booked;
    OwnFramed(c, g, t, pc, h, pc', which);
    hide OwnOk;
    ReassignSpares(g, h, t, which, o);
    hide Spares;
  }

  lemma ReassignSpares(g: Shared, h: Shared, t: nat, which: set<nat>, o: Owner)
    requires h.sentries == Reassign(g.sentries, which, o) && !(o.Thread? && o.t != t)
    requires forall s :: s in which && s < |g.sentries| ==> !g.sentries[s].owner.Thread?
    requires forall s :: s !in which ==> (s in h.list <==> s in g.list)
    requires h.doomed == g.doomed && h.closed == g.closed && h.lock == g.lock && h.stopped == g.stopped
    requires g.lock.Some? ==> h.list == g.list
    ensures Spares(g, h, t)
  {
  }

  lemma EvictTables(g: Shared, t: nat, h: Shared, out: set<nat>)
    requires Listed(g) && Booked(g)
    requires forall x :: x in out ==> x in g.list && g.sentries[x].owner.Idle?
    requires h.sentries == Reassign(g.sentries, out, Thread(t)) && h.list == Without(g.list, out)
    requires h.doomed == g.doomed && h.closed == g.closed && h.lock == g.lock
    requires h.stopped == g.stopped && h.book == g.book
    ensures Listed(h)
    ensures Booked(h)
  {
    WithoutDistinct(g.list, out);
    forall i | 0 <= i < |h.list| ensures h.list[i] < |g.sentries| {
      assert h.list[i] in h.list;
    }
  }

  // The reaper cleans up one evicted sentry.
  lemma EvictedKeeps(c: Params, g: Shared, t: nat, todo: seq<nat>, h: Shared, pc': Pc)
    requires LocalOk(c, g, t, Evicting(todo)) && todo != [] && todo[0] < |g.sentries|
    requires PcOk(h, t, pc')
    requires h == g.(sentries := g.sentries[todo[0] := Cleaned(g.sentries[todo[0]])])
    requires forall u :: Holds(pc', u) <==> u in todo[1..]
    requires Bounded(c, h.sentries[todo[0]])
    requires forall x :: x in todo[1..] ==> x < |h.sentries| && Fact(c, h, x, pc')
    requires Fact(c, h, todo[0], pc')
    ensures LocalOk(c, h, t, pc')
    ensures Spares(g, h, t)
  {
    hide Fact, Holds, OwnOk, Bounded, GrantOk;
    EvictedOwn(c, g, t, todo, h, pc');
    hide PcOk;
    TablesKept(c, g, h);
    SparesKept(g, h, t);
    hide Listed, Booked, Granted, Spares;
  }

  lemma EvictedOwn(c: Params, g: Shared, t: nat, todo: seq<nat>, h: Shared, pc': Pc)
    requires OwnOk(c, g, t, Evicting(todo)) && todo != [] && todo[0] < |g.sentries| && Distinct(todo)
    requires h == g.(sentries := g.sentries[todo[0] := Cleaned(g.sentries[todo[0]])])
    requires forall u :: Holds(pc', u) <==> u in todo[1..]
    requires Bounded(c, h.sentries[todo[0]])
    requires forall x :: x in todo[1..] ==> x < |h.sentries| && Fact(c, h, x, pc')
    requires Fact(c, h, todo[0], pc')
    ensures OwnOk(c, h, t, pc')
    ensures g.sentries[todo[0]].owner == Thread(t)
  {
    hide Fact;
    var all := set x | x in todo;
    assert forall x :: x in todo <==> x == todo[0] || x in todo[1..];
    assert todo[0] !in todo[1..];
    assert forall u :: Holds(Evicting(todo), u) <==> u in todo;
    hide Holds;
    OwnFramed(c, g, t, Evicting(todo), h, pc', all);
  }

  lemma CancelFact(c: Params, g: Shared, h: Shared, u: nat, pc: Pc, pc': Pc)
    requires u < |g.sentries| == |h.sentries| && g.sentries[u].owner.Lease?
    requires h.sentries[u] == g.sentries[u].(owner := Orphan) && (Placed(g, u) ==> Placed(h, u))
    ensures Bounded(c, g.sentries[u]) ==> Bounded(c, h.sentries[u])
    ensures Fact(c, g, u, pc) ==> Fact(c, h, u, pc')
  {
  }

  lemma CancelBooked(g: Shared, h: Shared)
    requires Booked(g)
    requires h.sentries == Reassign(g.sentries, g.book.leases.Values, Orphan)
    requires h.book.leases == map[] && h.book.issued == g.book.issued
    ensures Booked(h)
    ensures forall u :: u in g.book.leases.Values ==> u < |g.sentries| && g.sentries[u].owner.Lease?
  {
    forall s | 0 <= s < |h.sentries| ensures !h.sentries[s].owner.Lease? {
      if g.sentries[s].owner.Lease? {
        assert g.book.leases[g.sentries[s].owner.l] == s;
        assert s in g.book.leases.Values;
      }
    }
    forall u | u in g.book.leases.Values
      ensures u < |g.sentries| && g.sentries[u].owner.Lease?
    {
      var l :| l in g.book.leases && g.book.leases[l] == u;
    }
  }

  // Pool.Shutdown closes the pool and takes the list.
  lemma CloseKeeps(c: Params, g: Shared, t: nat, pc: Pc, h: Shared, pc': Pc)
    requires LocalOk(c, g, t, pc) && PcOk(h, t, pc')
    requires !g.closed && g.stopped && g.lock.None? && h == g.(closed := true, doomed := g.list, list := [])
    requires forall u :: !Holds(pc, u) && !Holds(pc', u)
    ensures LocalOk(c, h, t, pc')
    ensures Spares(g, h, t)
  {
    hide Fact, Holds, PcOk, GrantOk;
    forall i | 0 <= i < |h.doomed| ensures h.sentries[h.doomed[i]].drained == 0 {
      assert 0 <= g.sentries[g.list[i]].drained <= Bit(g.closed);
    }
    OwnFramed(c, g, t, pc, h, pc', {});
    hide OwnOk;
  }

  // Pool.Shutdown cleans up one sentry of its copy.
  lemma FlushKeeps(c: Params, g: Shared, t: nat, pc: Pc, h: Shared, pc': Pc, s: nat)
    requires LocalOk(c, g, t, pc) && PcOk(h, t, pc')
    requires g.doomed != [] && s == g.doomed[0] < |g.sentries|
    requires h == g.(sentries := g.sentries[s := Flushed(g.sentries[s])], doomed := g.doomed[1..])
    requires forall u :: !Holds(pc, u) && !Holds(pc', u)
    requires !Foreign(g.sentries[s], t) ==> Fact(c, h, s, pc')
    ensures LocalOk(c, h, t, pc')
    ensures Spares(g, h, t)
  {
    hide Fact, Holds, PcOk, GrantOk;
    FlushListed(g, h, s);
    FlushOwn(c, g, t, pc, h, pc', s);
    hide OwnOk, Listed;
  }

  lemma FlushListed(g: Shared, h: Shared, s: nat)
    requires Listed(g) && g.doomed != [] && s == g.doomed[0] < |g.sentries|
    requires h == g.(sentries := g.sentries[s := Flushed(g.sentries[s])], doomed := g.doomed[1..])
    ensures Listed(h)
    ensures forall u :: u in g.doomed <==> u == s || u in h.doomed
    ensures h.sentries[s].drained == 1
  {
    assert g.sentries[g.doomed[0]].drained == 0;
    forall i | 0 <= i < |h.doomed|
      ensures h.doomed[i] < |h.sentries| && h.sentries[h.doomed[i]].drained == 0
    {
      assert h.doomed[i] == g.doomed[i + 1] && g.doomed[0] != g.doomed[i + 1];
    }
  }

  lemma FlushOwn(c: Params, g: Shared, t: nat, pc: Pc, h: Shared, pc': Pc, s: nat)
    requires OwnOk(c, g, t, pc) && s < |g.sentries|
    requires h.sentries == g.sentries[s := Flushed(g.sentries[s])] && h.list == g.list && h.closed == g.closed
    requires h.sentries[s].drained == 1
    requires forall u :: u in g.doomed <==> u == s || u in h.doomed
    requires forall u :: !Holds(pc, u) && !Holds(pc', u)
    requires !Foreign(g.sentries[s], t) ==> Fact(c, h, s, pc')
    ensures OwnOk(c, h, t, pc')
  {
    hide Fact, Holds;
    forall u | 0 <= u < |h.sentries|
      ensures h.sentries[u].owner == Thread(t) <==> Holds(pc', u)
      ensures Bounded(c, h.sentries[u])
      ensures !Foreign(h.sentries[u], t) ==> Fact(c, h, u, pc')
    {
      if u != s && !Foreign(g.sentries[u], t) {
        FactFramed(c, g, h, u, pc, pc');
      }
    }
  }

  // A sentry in hand joins the list, kept by the thread or left idle.
  lemma JoinKeeps(c: Params, g: Shared, t: nat, pc: Pc, h: Shared, pc': Pc, s: nat)
    requires LocalOk(c, g, t, pc) && PcOk(h, t, pc')
    requires g.lock.None? && h.lock.None? && !g.closed && !h.closed && h.doomed == g.doomed && h.stopped == g.stopped
    requires h.list == g.list + [s] && s !in g.list
    requires h.book == g.book
    requires s < |h.sentries| == |g.sentries| && h.sentries == g.sentries[s := h.sentries[s]]
    requires forall u :: Holds(pc, u) <==> u == s
    requires forall u :: Holds(pc', u) <==> u == s && h.sentries[s].owner == Thread(t)
    requires h.sentries[s].owner == Thread(t) || h.sentries[s].owner.Idle?
    requires h.sentries[s].leaseId.None? && h.sentries[s].drained == g.sentries[s].drained
    requires h.sentries[s].state.Ready? ==> h.sentries[s].owner.Idle?
    requires Bounded(c, h.sentries[s]) && Fact(c, h, s, pc')
    ensures LocalOk(c, h, t, pc')
    ensures Spares(g, h, t)
  {
    hide Fact, Holds, PcOk, GrantOk;
    assert g.sentries[s].owner == Thread(t);
    OwnFramed(c, g, t, pc, h, pc', {s});
    hide OwnOk;
  }

  // remove: the sentry in hand leaves the list.
  lemma LeaveKeeps(c: Params, g: Shared, t: nat, pc: Pc, h: Shared, pc': Pc, s: nat)
    requires LocalOk(c, g, t, pc) && PcOk(h, t, pc')
    requires g.lock.None? && h == g.(list := Without(g.list, {s})) && s < |g.sentries|
    requires forall u :: Holds(pc, u) <==> u == s
    requires forall u :: Holds(pc', u) <==> u == s
    requires Fact(c, h, s, pc')
    ensures LocalOk(c, h, t, pc')
    ensures Spares(g, h, t)
  {
    hide Fact, Holds, PcOk, GrantOk;
    assert g.sentries[s].owner == Thread(t);
    assert forall u :: u != s ==> (u in h.list <==> u in g.list);
    OwnFramed(c, g, t, pc, h, pc', {s});
    hide OwnOk;
    LeaveListed(g, h, s);
    hide Listed;
  }

  lemma LeaveListed(g: Shared, h: Shared, s: nat)
    requires Listed(g) && h == g.(list := Without(g.list, {s}))
    ensures Listed(h)
  {
    WithoutDistinct(g.list, {s});
    forall i | 0 <= i < |h.list|
      ensures h.list[i] < |g.sentries|
      ensures h.sentries[h.list[i]].state.Ready? ==> h.sentries[h.list[i]].owner.Idle?
    {
      assert h.list[i] in h.list && h.list[i] in g.list;
    }
  }
}
