// The pool as a mutable object (internal/pool/pool.go, internal/pool/sentry.go):
// the methods with their loops and in-place updates. Each one is tied to the
// transition system: run alone, from the state it finds to the state it leaves,
// it is a path of one thread through the regions of Protocol.
module Pools {
  import opened Basics
  import P = Protocol
  import Paths
  import opened Stretches
  import opened Effects
  import opened Services
  import opened Sizes

  // What a health check reads, with the memory that spawn read, and the limits.
  datatype Readings = Readings(age: int, rss: int, baseRss: int, fds: int)

  datatype HealthLimits = HealthLimits(maxAge: int, maxRssGrowth: int, maxFds: int)

  datatype Unhealthy = WornOut | TooOld | Bloated | LeaksFiles

  // An unreadable memory figure never fails the check.
  predicate Grew(limits: HealthLimits, now: Readings) {
    now.rss > 0 && now.baseRss > 0 && now.rss - now.baseRss > limits.maxRssGrowth
  }

  predicate Fit(limits: HealthLimits, now: Readings) {
    now.age <= limits.maxAge && !Grew(limits, now) && now.fds <= limits.maxFds
  }

  // How the runtime calls and readings of one recycle turn out.
  datatype Outcomes = Outcomes(exits: bool, resets: bool, now: Readings, restores: bool, spawns: nat -> bool)

  ghost function LuckOf(limits: HealthLimits, o: Outcomes): Luck {
    Luck(o.exits, o.resets, Fit(limits, o.now), o.restores, o.spawns)
  }

  // A pooled process. past is the record of the transition system: the fields
  // above it and the history of the sentry.
  class Sentry {
    const id: nat
    var state: P.SentryState
    var leaseId: Option<nat>
    var restores: int
    ghost var past: P.SentryRecord

    ghost predicate Valid()
      reads this
    {
      past.state == state && past.leaseId == leaseId && past.restores == restores
    }

    constructor (id: nat, ghost t: nat)
      ensures this.id == id && Valid() && past == P.NewSentry(t)
    {
      this.id, state, leaseId, restores := id, P.Ready, None, 0;
      past := P.NewSentry(t);
    }

    // The tests in order, the restore count first; the readings of the clock and of
    // /proc are parameters.
    method HealthCheck(maxRestores: int, limits: HealthLimits, now: Readings) returns (trouble: Option<Unhealthy>)
      requires Valid()
      ensures trouble.None? <==> P.PassesHealthCheck(past.restores, maxRestores, Fit(limits, now))
      ensures trouble == Some(WornOut) <==> restores >= maxRestores
      ensures trouble == Some(TooOld) <==> restores < maxRestores && now.age > limits.maxAge
      ensures trouble == Some(Bloated) <==>
                && restores < maxRestores && now.age <= limits.maxAge
                && now.rss > 0 && now.baseRss > 0 && now.rss > now.baseRss + limits.maxRssGrowth
      ensures trouble == Some(LeaksFiles) <==>
                && restores < maxRestores && now.age <= limits.maxAge
                && (now.rss <= 0 || now.baseRss <= 0 || now.rss <= now.baseRss + limits.maxRssGrowth)
                && now.fds > limits.maxFds
    {
      if restores >= maxRestores {
        return Some(WornOut);
      }
      if now.age > limits.maxAge {
        return Some(TooOld);
      }
      if now.rss > 0 && now.baseRss > 0 && now.rss - now.baseRss > limits.maxRssGrowth {
        return Some(Bloated);
      }
      if now.fds > limits.maxFds {
        return Some(LeaksFiles);
      }
      return None;
    }
  }

  // The condition variable: which calls were made on it.
  class Cond {
    ghost var log: seq<P.Wake>

    constructor ()
      ensures log == []
    {
      log := [];
    }

    method Signal()
      modifies this
      ensures log == old(log) + [P.One]
    {
      log := log + [P.One];
    }

    method Broadcast()
      modifies this
      ensures log == old(log) + [P.Everybody]
    {
      log := log + [P.Everybody];
    }
  }

  // The lease table, and the history of leases.
  class Manager {
    var leases: map<nat, Sentry>
    ghost var book: P.Book

    constructor ()
      ensures leases == map[] && book == P.Book(map[], [], 0, [], 0, 0, 0, false)
    {
      leases := map[];
      book := P.Book(map[], [], 0, [], 0, 0, 0, false);
    }

    // The one removal of a lease; its sentry goes to a recycler.
    method Complete(p: Pool, ghost t: nat, id: nat) returns (s: Sentry?)
      requires p.mgr == this && p.Valid() && Sound(p.View())
      modifies this, p`recyclers, p.all
      ensures p.Valid()
      ensures P.Go(p.View(), if s == null then P.Done else P.Recycling(s.id)) == Completed(old(p.View()), t, id)
      ensures s == null <==> id !in old(leases)
      ensures s != null ==> s == old(leases)[id] && id !in leases && p.Knows(s)
    {
      p.LeaseKnown(id);
      if id !in leases {
        return null;
      }
      s := leases[id];
      p.KnownRecord(s);
      hide Pool.View, Pool.Valid, Sound;
      p.Hand(s, P.Thread(t));
      Forget(p, id);
      p.AddRecycler();
    }

    method Forget(p: Pool, id: nat)
      requires p.mgr == this && p.Valid() && id in leases
      modifies this
      ensures p.Valid() && leases == old(leases) - {id}
      ensures var b := old(book);
              p.View() == old(p.View()).(book := b.(leases := b.leases - {id}, completed := b.completed + 1,
                                                    recycles := b.recycles + 1))
    {
      leases := leases - {id};
      book := book.(leases := book.leases - {id}, completed := book.completed + 1, recycles := book.recycles + 1);
    }

    // Shutdown's loop over the table, in any order.
    method CancelLeases(p: Pool)
      requires p.mgr == this && p.Valid() && Sound(p.View())
      modifies this, p.all
      ensures p.Valid() && leases == map[] && p.View() == Cancelled(old(p.View()))
    {
      p.ViewBook();
      hide Pool.View, Pool.Valid, Sound, P.Reassign;
      p.Assign(book.leases.Values, P.Orphan);
      Clear(p);
    }

    method Clear(p: Pool)
      requires p.mgr == this && p.Valid()
      modifies this
      ensures p.Valid() && leases == map[]
      ensures var b := old(book);
              p.View() == old(p.View()).(book := b.(leases := map[], cancelled := b.cancelled + |b.leases|))
    {
      EmptyTable();
      book := book.(leases := map[], cancelled := book.cancelled + |book.leases|);
    }

    method EmptyTable()
      modifies this`leases
      ensures leases == map[]
    {
      while |leases| > 0
        decreases |leases|
      {
        var id :| id in leases;
        ghost var before := leases;
        leases := leases - {id};
        assert leases.Keys == before.Keys - {id};
      }
    }
  }

  // What Execute returns once it has a sentry.
  datatype Reply = Leased(id: nat, checkpoint: string) | NoOverrides | NotAllowed | RestoreFailed

  datatype Admission = Got(s: Sentry) | Cold | Queued | PoolClosed | Exhausted | SpawnFailed

  class Pool {
    const c: P.Params
    const limits: HealthLimits
    const mgr: Manager
    const cond: Cond
    var members: seq<Sentry>
    var pending: int
    var closed: bool
    var stopped: bool
    var recyclers: int
    var executions: int
    var nextId: nat
    ghost var all: seq<Sentry>
    ghost var doomed: seq<nat>
    ghost var failed: int
    ghost var evicted: int

    constructor (c: P.Params, limits: HealthLimits, mgr: Manager)
      requires mgr.leases == map[] && mgr.book == P.Book(map[], [], 0, [], 0, 0, 0, false)
      ensures this.c == c && this.limits == limits && this.mgr == mgr && fresh(cond) && cond.log == [] && Valid()
      ensures View() == P.Shared(None, [], [], 0, false, false, 0, [], 0, 0, mgr.book)
    {
      this.c, this.limits, this.mgr := c, limits, mgr;
      cond := new Cond();
      members, pending, closed, stopped, recyclers, executions, nextId := [], 0, false, false, 0, 0, 0;
      all, doomed, failed, evicted := [], [], 0, 0;
    }

    ghost predicate Knows(s: Sentry)
      reads this
    {
      s.id < |all| && all[s.id] == s
    }

    ghost predicate KnowsAll(xs: seq<Sentry>)
      reads this
    {
      forall i :: 0 <= i < |xs| ==> Knows(xs[i])
    }

    ghost predicate Valid()
      reads this, mgr, all
    {
      && |all| == nextId
      && (forall i :: 0 <= i < |all| ==> all[i].id == i && all[i].Valid())
      && KnowsAll(members)
      && (forall i, j :: 0 <= i < j < |members| ==> members[i] != members[j])
      && mgr.leases.Keys == mgr.book.leases.Keys
      && (forall l :: l in mgr.leases ==> Knows(mgr.leases[l]) && mgr.book.leases[l] == mgr.leases[l].id)
      && executions == mgr.book.executions
      && P.Within(doomed, |all|)
    }

    // The state of the transition system that the objects stand for, while no
    // thread holds the pool's lock.
    ghost function View(): P.Shared
      reads this, mgr, all
    {
      P.Shared(None, Pasts(all), Ids(members), pending, closed, stopped, recyclers, doomed, failed, evicted, mgr.book)
    }

    lemma ViewBook()
      requires Valid()
      ensures View().book == mgr.book
    {
    }

    lemma LeaseKnown(id: nat)
      requires Valid()
      ensures id in mgr.leases <==> id in View().book.leases
      ensures View().book == mgr.book && View().joining == recyclers
      ensures id in mgr.leases ==> Knows(mgr.leases[id]) && mgr.leases[id].id == mgr.book.leases[id]
    {
    }

    method AddRecycler()
      requires Valid()
      modifies this`recyclers
      ensures Valid() && View() == old(View()).(joining := old(View()).joining + 1)
    {
      recyclers := recyclers + 1;
    }

    // Everything but one known sentry stays as it was.
    twostate lemma OneChanged(s: Sentry)
      requires old(Valid()) && unchanged(this) && unchanged(mgr)
      requires old(Knows(s)) && s.Valid()
      requires forall i :: 0 <= i < |all| && i != s.id ==> unchanged(all[i])
      ensures Valid()
      ensures View() == P.Set(old(View()), s.id, s.past)
    {
      assert Pasts(all) == old(Pasts(all))[s.id := s.past];
    }

    // Everything but the pending counter stays as it was.
    twostate lemma PendingChanged()
      requires old(Valid()) && unchanged(mgr) && unchanged(`all) && unchanged(all)
      requires unchanged(`members) && unchanged(`closed) && unchanged(`stopped) && unchanged(`recyclers)
      requires unchanged(`executions) && unchanged(`nextId) && unchanged(`doomed) && unchanged(`failed)
      requires unchanged(`evicted)
      ensures Valid() && View() == old(View()).(pending := pending)
    {
    }

    predicate NoneReady()
      reads this, members
    {
      forall i :: 0 <= i < |members| ==> !members[i].state.Ready?
    }

    // Member i is Ready and none before it is.
    predicate ReadyFirst(i: nat)
      reads this, members
    {
      i < |members| && members[i].state.Ready? && forall j :: 0 <= j < i ==> !members[j].state.Ready?
    }

    // The first Ready member in list order, now Running; none if there is none.
    method FindReadyLocked(ghost t: nat) returns (s: Sentry?)
      requires Valid() && Sound(View())
      modifies members
      ensures Valid()
      ensures var g := old(View());
              var k := FirstReady(g, 0);
              if k < |g.list| then s == members[k] && Knows(s) && View() == Taken(g, s.id, t)
              else s == null && View() == g
      ensures s != null ==> s.state.Running? && exists i: nat :: old(ReadyFirst(i)) && members[i] == s
      ensures s == null ==> old(NoneReady())
    {
      ghost var g := View();
      ViewSound();
      for i := 0 to |members|
        invariant Valid() && View() == g && FirstReady(g, 0) == FirstReady(g, i)
        invariant forall j :: 0 <= j < i ==> !old(members[j].state.Ready?)
        invariant forall j :: 0 <= j < |all| ==> unchanged(all[j])
      {
        var x := members[i];
        if x.state.Ready? {
          x.state := P.Running;
          x.past := x.past.(state := P.Running, owner := P.Thread(t));
          OneChanged(x);
          return x;
        }
      }
      return null;
    }

    lemma ViewSound()
      requires Valid()
      ensures Sound(View())
      ensures View().closed == closed && View().pending == pending && |View().list| == |members|
      ensures forall j :: 0 <= j < |members| ==>
                && View().list[j] == members[j].id
                && View().sentries[View().list[j]].state == members[j].state
    {
    }

    // As many callers may be pending as configured, or else twice the pool's size.
    function Limit(): (n: int)
      ensures c.maxPending > 0 ==> n == c.maxPending
      ensures c.maxPending <= 0 ==> n == c.poolSize + c.poolSize
    {
      if c.maxPending <= 0 then c.poolSize * 2 else c.maxPending
    }

    // A fresh caller's turn under the lock, up to where it has a sentry, gives up,
    // goes to sleep, or turns to the cold path.
    method Acquire(ghost t: nat, ghost r: P.Request) returns (res: Admission)
      requires Valid() && Sound(View())
      modifies this`pending, members
      ensures Valid()
      ensures P.Go(View(), Admitted(r, res)) == Turn(c, old(View()), t, r, false)
      ensures res.PoolClosed? <==> old(closed)
      ensures res.Got? ==> res.s.state.Running? && exists i: nat :: old(ReadyFirst(i)) && members[i] == res.s
      ensures res.Got? <==> !old(closed) && !old(NoneReady())
      ensures res.Cold? <==> !old(closed) && members == []
      ensures res.Exhausted? <==> !old(closed) && old(NoneReady()) && members != [] && old(pending) >= Limit()
      ensures res.Queued? <==> !old(closed) && old(NoneReady()) && members != [] && old(pending) < Limit()
      ensures !res.SpawnFailed?
      ensures pending == old(pending) + Bit(res.Cold? || res.Queued?)
    {
      ViewSound();
      hide View, Valid, Sound, FirstReady, Taken, NoneReady, ReadyFirst;
      if closed {
        return PoolClosed;
      }
      var s := FindReadyLocked(t);
      if s != null {
        return Got(s);
      }
      label Scanned:
      if |members| == 0 {
        pending := pending + 1;
        PendingChanged@Scanned();
        return Cold;
      }
      var maxPending := if c.maxPending <= 0 then c.poolSize * 2 else c.maxPending;
      if pending >= maxPending {
        return Exhausted;
      }
      pending := pending + 1;
      PendingChanged@Scanned();
      return Queued;
    }

    // A woken caller's turn, from the return of Wait to the next one.
    method Reacquire(ghost t: nat, ghost r: P.Request) returns (res: Admission)
      requires Valid() && Sound(View())
      modifies this`pending, members
      ensures Valid()
      ensures P.Go(View(), Admitted(r, res)) == Turn(c, old(View()), t, r, true)
      ensures res.PoolClosed? <==> old(closed)
      ensures res.Got? ==> res.s.state.Running? && exists i: nat :: old(ReadyFirst(i)) && members[i] == res.s
      ensures res.Got? <==> !old(closed) && !old(NoneReady())
      ensures res.Queued? <==> !old(closed) && old(NoneReady())
      ensures pending == old(pending) - Bit(!res.Queued?)
    {
      ViewSound();
      hide View, Valid, Sound, FirstReady, Taken, NoneReady, ReadyFirst;
      if closed {
        StopWaiting();
        return PoolClosed;
      }
      var s := FindReadyLocked(t);
      if s != null {
        StopWaiting();
        return Got(s);
      }
      return Queued;
    }

    method StopWaiting()
      requires Valid()
      modifies this`pending
      ensures pending == old(pending) - 1
      ensures Valid() && View() == old(View()).(pending := pending)
    {
      pending := pending - 1;
      PendingChanged();
    }

    // ---- spawn, cleanup, remove, refill -----------------------------------

    // Sentries are only ever added, with the next number.
    twostate predicate Grown()
      reads this
    {
      old(all) <= all && forall i :: |old(all)| <= i < |all| ==> fresh(all[i])
    }

    // Everything after the number is taken succeeds or not.
    method Spawn(ghost t: nat, ok: bool) returns (s: Sentry?)
      requires Valid()
      modifies this`nextId, this`all
      ensures Valid() && Grown() && View() == WithSpawned(c, old(View()), t, ok)
      ensures |all| == |old(all)| + 1 && nextId == old(nextId) + 1
      ensures ok ==> s != null && fresh(s) && s.id == |old(all)| && all[s.id] == s && s.state.Ready?
      ensures !ok ==> s == null && all[|old(all)|].past.birth.Failed?
      ensures ok && c.warm ==>
                s.past.calls == if c.preRestore then [P.Create, P.Restore(c.checkpoint, true)] else [P.Create]
      ensures ok && !c.warm ==> s.past.calls == [P.Restore(c.checkpoint, true)]
    {
      var id := nextId;
      nextId := nextId + 1;
      var x := new Sentry(id, t);
      ghost var before := all;
      all := all + [x];
      x.past := P.Spawned(c, x.past, ok);
      assert Pasts(all) == old(Pasts(all)) + [x.past];
      if !ok {
        return null;
      }
      return x;
    }

    // The runtime calls of cleanup leave their mark on the history alone.
    method Cleanup(s: Sentry)
      requires Valid() && Knows(s)
      modifies s`past
      ensures Valid() && View() == P.Set(old(View()), s.id, P.Cleaned(old(s.past)))
      ensures s.past.calls == old(s.past.calls) + [P.Kill, P.Delete]
    {
      s.past := P.Cleaned(s.past);
      OneChanged(s);
    }

    method Remove(s: Sentry)
      requires Valid() && Knows(s)
      modifies this`members
      ensures Valid() && View() == old(View()).(list := Without(old(View()).list, {s.id}))
      ensures s !in members && (s !in old(members) ==> members == old(members))
      ensures forall i :: 0 <= i < |old(members)| && old(members)[i] == s ==>
                members == old(members)[..i] + old(members)[i + 1..]
    {
      for i := 0 to |members|
        invariant members == old(members)
        invariant forall j :: 0 <= j < i ==> members[j].id != s.id
      {
        if members[i].id == s.id {
          CutOut(i);
          return;
        }
      }
      IdsRange(members);
      WithoutNone(Ids(members), {s.id});
    }

    method CutOut(i: nat)
      requires Valid() && i < |members|
      modifies this`members
      ensures var was := old(members);
              && Valid() && View() == old(View()).(list := Without(old(View()).list, {was[i].id}))
              && members == was[..i] + was[i + 1..] && was[i] !in members
              && forall j :: 0 <= j < |was| && was[j] == was[i] ==> j == i
    {
      DistinctList();
      IdsCut(members, i);
      Relist(members[..i] + members[i + 1..]);
    }

    // Another list of known sentries.
    method Relist(xs: seq<Sentry>)
      requires Valid() && KnowsAll(xs) && Distinct(Ids(xs))
      modifies this`members
      ensures Valid() && View() == old(View()).(list := Ids(xs)) && members == xs
    {
      assert forall i :: 0 <= i < |xs| ==> Ids(xs)[i] == xs[i].id;
      members := xs;
    }

    // The body of refill's loop; more is false if the loop is left.
    method Replace(ghost t: nat, ok: bool) returns (more: bool)
      requires Valid()
      modifies this`nextId, this`all, this`members, this`failed, cond
      ensures Valid() && Grown()
      ensures more == !(ok && closed)
      ensures members == old(members)
              || (ok && !closed && exists x: Sentry :: members == old(members) + [x] && x.id == |old(all)|)
      ensures Effect(View(), cond.log) == After(old(cond.log), Replaced(c, old(View()), t, ok))
    {
      var s := Spawn(t, ok);
      hide WithSpawned, P.Spawned;
      if s == null {
        failed := failed + 1;
        return true;
      }
      if closed {
        Cleanup(s);
        return false;
      }
      Adopt(s);
      cond.Signal();
      return true;
    }

    // The list goes on with sentries from number n on, and not in a closed pool.
    ghost predicate Extends(was: seq<Sentry>, n: nat)
      reads this
    {
      was <= members && (closed ==> members == was) && forall i :: |was| <= i < |members| ==> members[i].id >= n
    }

    // The shortfall is computed once. New sentries come at the end of the list, and
    // none to a closed pool.
    method Refill(ghost t: nat, spawns: nat -> bool)
      requires Valid()
      modifies this`nextId, this`all, this`members, this`failed, cond
      ensures Valid() && Grown()
      ensures var g := old(View());
              After(old(cond.log), Refilled(c, g, t, spawns, 0, P.Shortfall(c, g))) == Effect(View(), cond.log)
      ensures Extends(old(members), |old(all)|)
    {
      var needed := c.poolSize - |members|;
      ghost var was, n, left := members, |all|, P.Shortfall(c, View());
      ghost var goal := After(cond.log, Refilled(c, View(), t, spawns, 0, left));
      var i := 0;
      assert Extends(was, n);
      hide View, Valid, Refilled, P.Shortfall, After, Extends;
      while i < needed
        invariant Valid() && Grown() && 0 <= i && left == if i < needed then needed - i else 0
        invariant After(cond.log, Refilled(c, View(), t, spawns, i, left)) == goal
        invariant Extends(was, n) && n <= |all|
      {
        var more := RefillOne(t, spawns, i, left, was, n);
        if !more {
          return;
        }
        i, left := i + 1, left - 1;
      }
      RefilledStep(c, View(), t, spawns, i, 0, cond.log);
    }

    // One iteration, and what the others will do after it.
    method RefillOne(ghost t: nat, spawns: nat -> bool, i: nat, ghost left: nat, ghost was: seq<Sentry>, ghost n: nat)
        returns (more: bool)
      requires Valid() && left > 0 && Extends(was, n) && n <= |all|
      modifies this`nextId, this`all, this`members, this`failed, cond
      ensures Valid() && Grown()
      ensures After(old(cond.log), Refilled(c, old(View()), t, spawns, i, left)) ==
              if more then After(cond.log, Refilled(c, View(), t, spawns, i + 1, left - 1))
              else Effect(View(), cond.log)
      ensures Extends(was, n)
    {
      ViewSame();
      hide View, Valid, Replaced, Refilled, After;
      RefilledStep(c, View(), t, spawns, i, left, cond.log);
      ghost var before := members;
      more := Replace(t, spawns(i));
      assert |before| <= |members| <= |before| + 1 && members[..|before|] == before;
      assert was == before[..|was|] == members[..|was|];
      forall j | |was| <= j < |members| ensures members[j].id >= n {
        assert j < |before| ==> members[j] == members[..|before|][j];
      }
    }

    lemma ViewSame()
      ensures View().closed == closed
    {
    }

    // Append to the list.
    method Adopt(s: Sentry)
      requires Valid() && Knows(s) && s !in members
      modifies this`members, s`past
      ensures Valid()
      ensures View() == P.Set(old(View()), s.id, old(s.past).(owner := P.Idle)).(list := old(View()).list + [s.id])
      ensures members == old(members) + [s]
    {
      members := members + [s];
      s.past := s.past.(owner := P.Idle);
      assert Pasts(all) == old(Pasts(all))[s.id := s.past];
      assert Ids(members) == old(Ids(members)) + [s.id];
    }

    // The on-demand spawn: Acquire counted the caller as pending.
    method ColdSpawn(ghost t: nat, ghost r: P.Request, ok: bool) returns (res: Admission)
      requires Valid()
      modifies this`nextId, this`all, this`members, this`pending
      ensures Valid() && Grown()
      ensures P.Go(View(), Admitted(r, res)) == Effects.ColdSpawn(c, old(View()), t, r, ok)
      ensures res.SpawnFailed? <==> !ok
      ensures res.PoolClosed? <==> ok && closed
      ensures res.Got? <==> ok && !closed
      ensures res.Got? ==> fresh(res.s) && res.s.state.Running?
      ensures members == if res.Got? then old(members) + [res.s] else old(members)
      ensures pending == old(pending) - 1
    {
      var s := Spawn(t, ok);
      label Back:
      pending := pending - 1;
      PendingChanged@Back();
      if s == null {
        return SpawnFailed;
      }
      KnownRecord(s);
      ViewSound();
      hide Pool.View, P.Spawned, P.Cleaned;
      if closed {
        Cleanup(s);
        return PoolClosed;
      }
      Enlist(s);
      return Got(s);
    }

    // A cold caller's own sentry joins the list as Running.
    method Enlist(s: Sentry)
      requires Valid() && Knows(s) && s !in members
      modifies this`members, s
      ensures Valid()
      ensures View() == P.Set(old(View()), s.id, old(s.past).(state := P.Running)).(list := old(View()).list + [s.id])
      ensures members == old(members) + [s] && s.state.Running?
    {
      s.state := P.Running;
      s.past := s.past.(state := P.Running);
      members := members + [s];
      assert Pasts(all) == old(Pasts(all))[s.id := s.past];
      assert Ids(members) == old(Ids(members)) + [s.id];
    }

    // ---- recycle ----------------------------------------------------------

    // Remove, clean up, refill: how recycle gives up on a sentry.
    method Discard(ghost t: nat, s: Sentry, spawns: nat -> bool)
      requires Valid() && Knows(s)
      modifies this`nextId, this`all, this`members, this`failed, cond, s`past
      ensures Valid() && Grown()
      ensures Effect(View(), cond.log) == After(old(cond.log), Discarded(c, old(View()), t, s.id, spawns))
      ensures s !in members && s.past.calls == old(s.past.calls) + [P.Kill, P.Delete]
    {
      Remove(s);
      Cleanup(s);
      Refill(t, spawns);
    }

    // A call to the runtime; only the history shows it.
    method Call(s: Sentry, e: P.Call)
      requires Valid() && Knows(s)
      modifies s`past
      ensures Valid() && s.past == P.Called(old(s.past), e)
      ensures View() == P.Set(old(View()), s.id, s.past)
    {
      s.past := P.Called(s.past, e);
      OneChanged(s);
    }

    // Draining, the first signal, the timed wait, and the forced kill if the guest
    // is still there after it.
    method Empty(s: Sentry, exits: bool)
      requires Valid() && Knows(s)
      modifies s
      ensures Valid() && s.past == Emptied(old(s.past), exits)
      ensures View() == P.Set(old(View()), s.id, s.past)
      ensures s.state.Draining? && s.leaseId.None? && s.restores == old(s.restores)
      ensures s.past.calls == old(s.past.calls) + Signals(exits)
    {
      ghost var g := View();
      s.state := P.Draining;
      s.leaseId := None;
      s.past := s.past.(state := P.Draining, leaseId := None);
      OneChanged(s);
      ghost var x := s.past;
      hide View, Valid;
      Call(s, P.Term);
      SetTwice(g, s.id, x, s.past);
      ghost var y := s.past;
      if !exits {
        Force(s);
        SetTwice(g, s.id, y, s.past);
      }
      ghost var z := s.past;
      Call(s, P.Exit);
      SetTwice(g, s.id, z, s.past);
      EmptiedCalls(x, exits);
    }

    // The grace period has passed.
    method Force(s: Sentry)
      requires Valid() && Knows(s)
      modifies s`past
      ensures Valid() && s.past == P.Called(P.Called(old(s.past), P.Overdue), P.Kill)
      ensures View() == P.Set(old(View()), s.id, s.past)
    {
      ghost var g := View();
      Call(s, P.Overdue);
      ghost var x := s.past;
      hide View, Valid;
      Call(s, P.Kill);
      SetTwice(g, s.id, x, s.past);
    }

    // The reset and the count of restores.
    method Reset(s: Sentry, ok: bool)
      requires Valid() && Knows(s)
      modifies s
      ensures Valid() && s.past == WasReset(old(s.past), ok)
      ensures View() == P.Set(old(View()), s.id, s.past)
      ensures s.leaseId == old(s.leaseId) && s.restores == old(s.restores) + Bit(ok)
    {
      if ok {
        s.restores := s.restores + 1;
      }
      s.past := WasReset(s.past, ok);
      OneChanged(s);
    }

    method Restore(s: Sentry, ok: bool)
      requires Valid() && Knows(s)
      modifies s`past
      ensures Valid() && s.past == Rewarmed(c, old(s.past), ok)
      ensures View() == P.Set(old(View()), s.id, s.past)
    {
      Call(s, P.Restore(c.checkpoint, ok));
    }

    // What is done to a guest after the reset, if it passes the health check or not.
    function Finish(passes: bool, restores: bool): seq<P.Call> {
      if !passes then [P.Kill, P.Delete]
      else if restores then [P.Restore(c.checkpoint, true)]
      else [P.Restore(c.checkpoint, false), P.Kill, P.Delete]
    }

    // The sentry is a member as before, Ready and so often restored; or it is none.
    predicate Stays(s: Sentry, stays: bool, was: seq<Sentry>, n: int)
      reads this, s
    {
      if stays then members == was && s.state.Ready? && s.restores == n else s !in members
    }

    // How a warm recycle ends for the sentry: where it is, and what was done to it.
    ghost predicate Handled(s: Sentry, passes: bool, restores: bool, was: seq<Sentry>, n: int,
                            leaseId: Option<nat>, calls: seq<P.Call>)
      reads this, s
    {
      && Stays(s, passes && restores, was, n) && s.leaseId == leaseId
      && s.past.calls == calls + Finish(passes, restores)
    }

    // The restore, and Ready again; or the discard.
    method Rearm(ghost t: nat, s: Sentry, luck: Outcomes)
      requires Valid() && Knows(s)
      modifies this`nextId, this`all, this`members, this`failed, cond, s
      ensures Valid() && Grown()
      ensures Effect(View(), cond.log) == After(old(cond.log), Rearmed(c, old(View()), t, s.id, LuckOf(limits, luck)))
      ensures Handled(s, true, luck.restores, old(members), old(s.restores), old(s.leaseId), old(s.past.calls))
    {
      KnownRecord(s);
      Restore(s, luck.restores);
      KnownRecord(s);
      hide View, Valid, Discarded, Rewarmed, Fit;
      if !luck.restores {
        Discard(t, s, luck.spawns);
        return;
      }
      SetReady(s);
      cond.Signal();
    }

    // After the reset: the health check, if it worked, and on from there.
    method Judge(ghost t: nat, s: Sentry, luck: Outcomes)
      requires Valid() && Knows(s)
      modifies this`nextId, this`all, this`members, this`failed, cond, s
      ensures Valid() && Grown()
      ensures Effect(View(), cond.log) == After(old(cond.log), Judged(c, old(View()), t, s.id, LuckOf(limits, luck)))
      ensures var passes := luck.resets && old(s.restores) < c.maxRestores && Fit(limits, luck.now);
              Handled(s, passes, luck.restores, old(members), old(s.restores), old(s.leaseId), old(s.past.calls))
    {
      KnownRecord(s);
      hide View, Valid, Discarded, Rearmed, After, Fit, Handled;
      var ok := luck.resets;
      if ok {
        var trouble := s.HealthCheck(c.maxRestores, limits, luck.now);
        ok := trouble.None?;
      }
      if ok {
        Rearm(t, s, luck);
      } else {
        GiveUp(t, s, luck);
      }
    }

    method GiveUp(ghost t: nat, s: Sentry, luck: Outcomes)
      requires Valid() && Knows(s)
      modifies this`nextId, this`all, this`members, this`failed, cond, s`past
      ensures Valid() && Grown()
      ensures Effect(View(), cond.log) == After(old(cond.log), Discarded(c, old(View()), t, s.id, luck.spawns))
      ensures Handled(s, false, luck.restores, old(members), old(s.restores), old(s.leaseId), old(s.past.calls))
    {
      hide View, Valid, Discarded, After;
      Discard(t, s, luck.spawns);
    }

    // Warm mode: reset and health check.
    method ResetAndRearm(ghost t: nat, s: Sentry, luck: Outcomes)
      requires Valid() && Knows(s)
      modifies this`nextId, this`all, this`members, this`failed, cond, s
      ensures Valid() && Grown()
      ensures Effect(View(), cond.log) ==
              After(old(cond.log), ResetAndRearmed(c, old(View()), t, s.id, LuckOf(limits, luck)))
      ensures var passes := luck.resets && old(s.restores) + 1 < c.maxRestores && Fit(limits, luck.now);
              Handled(s, passes, luck.restores, old(members), old(s.restores) + 1, old(s.leaseId),
                      old(s.past.calls) + [P.Reset(luck.resets)])
    {
      KnownRecord(s);
      Reset(s, luck.resets);
      KnownRecord(s);
      assert s.past.calls == old(s.past.calls) + [P.Reset(luck.resets)];
      hide View, Valid, Judged, WasReset, Fit, Handled;
      Judge(t, s, luck);
    }

    // Signals and wait; then warm mode goes on, stock mode discards.
    method Recycle(ghost t: nat, s: Sentry, luck: Outcomes)
      requires Valid() && Knows(s)
      modifies this`nextId, this`all, this`members, this`failed, cond, s
      ensures Valid() && Grown()
      ensures Effect(View(), cond.log) == After(old(cond.log), Recycled(c, old(View()), t, s.id, LuckOf(limits, luck)))
      ensures var passes := luck.resets && old(s.restores) + 1 < c.maxRestores && Fit(limits, luck.now);
              && Stays(s, c.warm && passes && luck.restores, old(members), old(s.restores) + 1) && s.leaseId.None?
              && (c.warm ==>
                    s.past.calls ==
                    old(s.past.calls) + Signals(luck.exits) + [P.Reset(luck.resets)] + Finish(passes, luck.restores))
              && (!c.warm ==> s.past.calls == old(s.past.calls) + Signals(luck.exits) + [P.Kill, P.Delete])
    {
      KnownRecord(s);
      Empty(s, luck.exits);
      hide View, Valid, Discarded, ResetAndRearmed, Emptied, Fit, Finish;
      if c.warm {
        ResetAndRearm(t, s, luck);
      } else {
        Discard(t, s, luck.spawns);
      }
    }

    method SetReady(s: Sentry)
      requires Valid() && Knows(s)
      modifies s
      ensures var z := old(s.past).(state := P.Ready, owner := P.Idle);
              Valid() && View() == P.Set(old(View()), s.id, z) && s.past == z
    {
      s.state := P.Ready;
      s.past := s.past.(state := P.Ready, owner := P.Idle);
      OneChanged(s);
    }

    lemma KnownRecord(s: Sentry)
      requires Valid() && Knows(s)
      ensures |View().sentries| == |all| && View().sentries[s.id] == s.past && s.Valid()
    {
    }

    // ---- Execute after acquire --------------------------------------------

    method Release(s: Sentry)
      requires Valid() && Knows(s)
      modifies s, cond
      ensures Valid() && Effect(View(), cond.log) == After(old(cond.log), Released(old(View()), s.id))
      ensures s.state.Ready? && s.leaseId.None? && s.past.calls == old(s.past.calls)
    {
      s.state := P.Ready;
      s.leaseId := None;
      s.past := s.past.(state := P.Ready, leaseId := None, owner := P.Idle);
      OneChanged(s);
      cond.Signal();
    }

    // The fresh id goes on the sentry, the lease into the table.
    method RegisterLease(s: Sentry, id: nat, ghost r: P.Request)
      requires Valid() && Knows(s) && id == |mgr.book.issued|
      modifies this`executions, mgr, s
      ensures Valid() && View() == Registered(old(View()), s.id, r)
      ensures mgr.leases == old(mgr.leases)[id := s] && s.leaseId == Some(id)
      ensures s.past.calls == old(s.past.calls) + [P.Use(r)]
    {
      ghost var x := s.past.(leaseId := Some(id));
      s.leaseId := Some(id);
      s.past := P.Called(x, P.Use(r)).(served := x.served + 1, owner := P.Lease(id));
      OneChanged(s);
      Insert(s, id, r, x);
    }

    method Insert(s: Sentry, id: nat, ghost r: P.Request, ghost x: P.SentryRecord)
      requires Valid() && Knows(s) && id == |mgr.book.issued|
      modifies this`executions, mgr
      ensures Valid() && mgr.leases == old(mgr.leases)[id := s]
      ensures View() == old(View()).(book := old(mgr.book).(
                          executions := old(mgr.book).executions + 1,
                          issued := old(mgr.book).issued + [s.id],
                          leases := old(mgr.book).leases[id := s.id],
                          grants := old(mgr.book).grants + [P.Grant(id, s.id, r, x)]))
    {
      executions := executions + 1;
      mgr.leases := mgr.leases[id := s];
      mgr.book := mgr.book.(
        executions := mgr.book.executions + 1,
        issued := mgr.book.issued + [s.id],
        leases := mgr.book.leases[id := s.id],
        grants := mgr.book.grants + [P.Grant(id, s.id, r, x)]);
    }

    // Execute's answer: the lease and the checkpoint it reports, or an error.
    ghost predicate Answers(r: P.Request, ok: bool, id: nat, reply: Reply) {
      match reply
      case Leased(l, checkpoint) =>
        && l == id && (c.preRestore || ok)
        && (r.None? ==> checkpoint == c.checkpoint)
        && (r.Some? ==> !c.preRestore && Paths.Allowed(c.dirs, r.value.abs) && checkpoint == r.value.checkpoint)
      case NoOverrides => r.Some? && c.preRestore
      case NotAllowed => r.Some? && !c.preRestore && !Paths.Allowed(c.dirs, r.value.abs)
      case RestoreFailed => !c.preRestore && !ok && (r.Some? ==> Paths.Allowed(c.dirs, r.value.abs))
    }

    // What the runtime is asked to do for the request, and the lease.
    function Uses(r: P.Request, reply: Reply): seq<P.Call> {
      match reply
      case Leased(_, k) => if c.preRestore then [P.Use(r)] else [P.Restore(k, true), P.Use(r)]
      case RestoreFailed => [P.Restore(if r.Some? then r.value.checkpoint else c.checkpoint, false)]
      case _ => []
    }

    // An override is refused by a pre_restore pool and by the allowlist; without
    // pre_restore the checkpoint is restored on demand; then the lease. After an
    // error the sentry is released.
    method Serve(s: Sentry, id: nat, r: P.Request, ok: bool) returns (reply: Reply)
      requires Valid() && Knows(s) && id == |mgr.book.issued|
      modifies this`executions, mgr, s, cond
      ensures Valid() && Effect(View(), cond.log) == After(old(cond.log), Served(c, old(View()), s.id, r, ok))
      ensures Answers(r, ok, id, reply)
      ensures s.past.calls == old(s.past.calls) + Uses(r, reply)
      ensures if reply.Leased? then mgr.leases == old(mgr.leases)[id := s] && s.leaseId == Some(id)
              else mgr.leases == old(mgr.leases) && s.state.Ready? && s.leaseId.None?
    {
      KnownRecord(s);
      ghost var calls := s.past.calls;
      if r.Some? {
        if c.preRestore {
          Release(s);
          return NoOverrides;
        }
        var v := Paths.ValidateCheckpointPath(c.dirs, r.value.abs);
        if !v.Permitted? {
          Release(s);
          return NotAllowed;
        }
      }
      reply := RestoreAndLease(s, id, r, ok);
    }

    // Past the checks: the on-demand restore, if there is one, and the lease.
    method RestoreAndLease(s: Sentry, id: nat, r: P.Request, ok: bool) returns (reply: Reply)
      requires Valid() && Knows(s) && id == |mgr.book.issued| && !Refused(c, r)
      modifies this`executions, mgr, s, cond
      ensures Valid() && Effect(View(), cond.log) == After(old(cond.log), Served(c, old(View()), s.id, r, ok))
      ensures Answers(r, ok, id, reply)
      ensures s.past.calls == old(s.past.calls) + Uses(r, reply)
      ensures if reply.Leased? then mgr.leases == old(mgr.leases)[id := s] && s.leaseId == Some(id)
              else mgr.leases == old(mgr.leases) && s.state.Ready? && s.leaseId.None?
    {
      KnownRecord(s);
      var ckpt := if r.Some? then r.value.checkpoint else c.checkpoint;
      if !c.preRestore {
        ghost var g := View();
        Call(s, P.Restore(ckpt, ok));
        KnownRecord(s);
        hide View, Valid, Released, Registered;
        if !ok {
          Release(s);
          return RestoreFailed;
        }
        RegisterLease(s, id, r);
        return Leased(id, ckpt);
      }
      hide View, Valid, Released, Registered;
      RegisterLease(s, id, r);
      return Leased(id, ckpt);
    }

    // ---- the reaper -------------------------------------------------------

    // The loop of a pass: Ready members idle for too long, and the others, both in
    // list order.
    method Sift(idle: set<nat>) returns (evict: seq<Sentry>, remaining: seq<Sentry>)
      requires Valid() && Sound(View())
      ensures KnowsAll(evict)
      ensures KnowsAll(remaining)
      ensures Ids(evict) == Evicted(View(), idle)
      ensures Ids(remaining) == Without(View().list, P.Stale(View(), idle))
    {
      remaining, evict := [], [];
      SiftStart(idle);
      hide SiftedTo, Valid, View, KnowsAll, Ids, P.Stale, Without;
      for i := 0 to |members|
        invariant SiftedTo(i, idle, evict, remaining)
      {
        SiftStep(i, idle, evict, remaining);
        var s := members[i];
        if s.state.Ready? && s.id in idle {
          evict := evict + [s];
        } else {
          remaining := remaining + [s];
        }
      }
      SiftEnd(idle, evict, remaining);
    }

    // The loop has dealt with the first i members.
    ghost predicate SiftedTo(i: nat, idle: set<nat>, evict: seq<Sentry>, remaining: seq<Sentry>)
      requires Valid() && Sound(View()) && i <= |members|
      reads this, mgr, all
    {
      var l := View().list;
      var gone := P.Stale(View(), idle);
      && KnowsAll(evict) && KnowsAll(remaining)
      && Ids(remaining) == Without(l[..i], gone)
      && Ids(evict) == Without(l[..i], (set x | x in l) - gone)
    }

    lemma SiftStart(idle: set<nat>)
      requires Valid() && Sound(View())
      ensures SiftedTo(0, idle, [], [])
    {
    }

    lemma SiftEnd(idle: set<nat>, evict: seq<Sentry>, remaining: seq<Sentry>)
      requires Valid() && Sound(View()) && SiftedTo(|members|, idle, evict, remaining)
      ensures KnowsAll(evict) && KnowsAll(remaining)
      ensures Ids(evict) == Evicted(View(), idle)
      ensures Ids(remaining) == Without(View().list, P.Stale(View(), idle))
    {
      assert View().list[..|members|] == View().list;
    }

    lemma SiftStep(i: nat, idle: set<nat>, evict: seq<Sentry>, remaining: seq<Sentry>)
      requires Valid() && Sound(View()) && i < |members| && SiftedTo(i, idle, evict, remaining)
      ensures var s := members[i];
              if s.state.Ready? && s.id in idle then SiftedTo(i + 1, idle, evict + [s], remaining)
              else SiftedTo(i + 1, idle, evict, remaining + [s])
    {
      var g := View();
      MemberStale(i, idle);
      SiftOne(g, i, P.Stale(g, idle), (set x | x in g.list) - P.Stale(g, idle));
      Snoc(evict, members[i]);
      Snoc(remaining, members[i]);
      hide View, Valid, Without, P.Stale, Ids, KnowsAll;
    }

    lemma Snoc(xs: seq<Sentry>, s: Sentry)
      ensures Ids(xs + [s]) == Ids(xs) + [s.id]
      ensures KnowsAll(xs) && Knows(s) ==> KnowsAll(xs + [s])
    {
    }

    lemma MemberStale(i: nat, idle: set<nat>)
      requires Valid() && Sound(View()) && i < |members|
      ensures View().list[i] == members[i].id && Knows(members[i])
      ensures members[i].id in P.Stale(View(), idle) <==> members[i].state.Ready? && members[i].id in idle
    {
      assert View().list[i] == members[i].id;
    }

    lemma SiftOne(g: P.Shared, i: nat, gone: set<nat>, kept: set<nat>)
      requires i < |g.list| && kept == (set x | x in g.list) - gone
      ensures var x := g.list[i];
              && Without(g.list[..i + 1], gone) == Without(g.list[..i], gone) + (if x in gone then [] else [x])
              && Without(g.list[..i + 1], kept) == Without(g.list[..i], kept) + (if x in gone then [x] else [])
    {
      var x := g.list[i];
      assert g.list[..i + 1] == g.list[..i] + [x];
      WithoutAppend(g.list[..i], [x], gone);
      WithoutAppend(g.list[..i], [x], kept);
      assert Without([x], gone) == if x in gone then [] else [x];
      assert Without([x], kept) == if x in gone then [x] else [];
    }

    // The pass under the lock.
    method Pass(ghost t: nat, idle: set<nat>) returns (evict: seq<Sentry>)
      requires Valid() && Sound(View())
      modifies this`members, this`evicted, all
      ensures Valid() && KnowsAll(evict)
      ensures View() == Reaped(old(View()), t, idle) && Ids(evict) == Evicted(old(View()), idle)
    {
      var remaining: seq<Sentry>;
      evict, remaining := Sift(idle);
      ghost var g := View();
      ghost var gone := P.Stale(g, idle);
      DistinctList();
      hide View, Valid, Without, P.Stale, Ids, P.Reassign;
      WithoutDistinct(g.list, gone);
      Assign(gone, P.Thread(t));
      Keep(remaining, |evict|);
    }

    method Keep(remaining: seq<Sentry>, n: nat)
      requires Valid() && Distinct(Ids(remaining)) && KnowsAll(remaining)
      modifies this`members, this`evicted
      ensures Valid() && View() == old(View()).(list := Ids(remaining), evicted := old(evicted) + n)
    {
      Relist(remaining);
      evicted := evicted + n;
    }

    lemma DistinctList()
      requires Valid()
      ensures Distinct(View().list)
    {
    }

    // A sentry changes hands, in the history only.
    ghost method Hand(s: Sentry, o: P.Owner)
      requires Valid() && Knows(s)
      modifies s`past
      ensures Valid() && View() == P.Set(old(View()), s.id, old(s.past).(owner := o))
    {
      s.past := s.past.(owner := o);
      OneChanged(s);
    }

    // So do several.
    ghost method Assign(which: set<nat>, o: P.Owner)
      requires Valid()
      modifies all
      ensures Valid() && View() == old(View()).(sentries := P.Reassign(old(View()).sentries, which, o))
      ensures forall i :: 0 <= i < |all| ==> all[i].state == old(all[i].state)
    {
      forall i | 0 <= i < |all| && i in which {
        all[i].past := all[i].past.(owner := o);
      }
      assert Pasts(all) == P.Reassign(old(Pasts(all)), which, o);
    }

    method CleanupAll(evict: seq<Sentry>)
      requires Valid() && KnowsAll(evict)
      modifies evict
      ensures Valid() && P.Within(Ids(evict), |old(View()).sentries|)
      ensures View() == CleanedAll(old(View()), Ids(evict))
    {
      ghost var ids := Ids(evict);
      for i := 0 to |evict|
        invariant Valid() && CleanedAll(View(), ids[i..]) == CleanedAll(old(View()), ids)
      {
        assert ids[i..][0] == evict[i].id && ids[i..][1..] == ids[i + 1..];
        KnownRecord(evict[i]);
        Cleanup(evict[i]);
      }
      assert ids[|evict|..] == [];
    }

    // ---- start and shutdown -----------------------------------------------

    method Flush(s: Sentry)
      requires Valid() && Knows(s)
      modifies s`past
      ensures Valid() && View() == P.Set(old(View()), s.id, P.Flushed(old(s.past)))
    {
      s.past := P.Flushed(s.past);
      OneChanged(s);
    }

    method FlushAll(sentries: seq<Sentry>)
      requires Valid() && KnowsAll(sentries)
      modifies sentries
      ensures Valid() && P.Within(Ids(sentries), |old(View()).sentries|)
      ensures View() == FlushedAll(old(View()), Ids(sentries))
    {
      ghost var ids := Ids(sentries);
      for i := 0 to |sentries|
        invariant Valid() && FlushedAll(View(), ids[i..]) == FlushedAll(old(View()), ids)
      {
        assert ids[i..][0] == sentries[i].id && ids[i..][1..] == ids[i + 1..];
        KnownRecord(sentries[i]);
        Flush(sentries[i]);
      }
      assert ids[|sentries|..] == [];
    }

    // From the close of stopCh on. With recyclers under way it waits for them, and
    // FinishShutdown is what follows that wait.
    method Shutdown() returns (waits: bool)
      requires Valid() && Sound(View())
      modifies this`stopped, this`closed, this`members, this`doomed, cond, all
      ensures Valid() && (waits <==> recyclers != 0)
      ensures waits ==> View() == old(View()).(stopped := true) && cond.log == old(cond.log)
      ensures !waits ==> View() == ShutDown(old(View())) && cond.log == old(cond.log) + [P.Everybody]
    {
      ghost var g := View();
      ViewSound();
      SameShutDown(g);
      stopped := true;
      assert View() == g.(stopped := true);
      if recyclers != 0 {
        return true;
      }
      hide View, Valid, ShutDown;
      FinishShutdown();
      return false;
    }

    method FinishShutdown()
      requires Valid() && Sound(View()) && recyclers == 0 && stopped
      modifies this`closed, this`members, this`doomed, cond, all
      ensures Valid() && View() == ShutDown(old(View()))
      ensures closed && members == [] && cond.log == old(cond.log) + [P.Everybody]
    {
      ViewSound();
      closed := true;
      var sentries := members;
      members := [];
      doomed := [];
      cond.Broadcast();
      assert View() == old(View()).(stopped := true, closed := true, list := [], doomed := []);
      FlushAll(sentries);
    }

    // PoolSize spawns; the first failure ends the start. What a full start leaves
    // is where the runs of the transition system begin.
    method Start(spawns: nat -> bool) returns (ok: bool)
      requires Valid()
      requires View() == P.Shared(None, [], [], 0, false, false, 0, [], 0, 0, P.Book(map[], [], 0, [], 0, 0, 0, false))
      modifies this`nextId, this`all, this`members
      ensures Valid() && Grown()
      ensures ok <==> forall i :: 0 <= i < c.poolSize ==> spawns(i)
      ensures ok ==> P.Init(c, P.State(View(), if c.reaps then [P.Reaping] else []))
    {
      ghost var g := View();
      var i := 0;
      hide View, P.Spawned;
      while i < c.poolSize
        invariant Valid() && Grown() && 0 <= i <= Max(c.poolSize, 0)
        invariant forall j :: 0 <= j < i ==> spawns(j)
        invariant Started(g, View(), i)
      {
        ghost var h := View();
        var s := Spawn(0, spawns(i));
        if s == null {
          return false;
        }
        KnownRecord(s);
        Adopt(s);
        StartedStep(g, h, View(), i);
        i := i + 1;
      }
      return true;
    }

    lemma StartedStep(g: P.Shared, h: P.Shared, k: P.Shared, n: nat)
      requires Started(g, h, n)
      requires var h' := WithSpawned(c, h, 0, true);
               k == P.Set(h', n, h'.sentries[n].(owner := P.Idle)).(list := h'.list + [n])
      ensures Started(g, k, n + 1)
    {
    }

    ghost predicate Started(g: P.Shared, h: P.Shared, n: nat) {
      && |h.sentries| == |h.list| == n
      && (forall j :: 0 <= j < n ==> h.list[j] == j && h.sentries[j] == P.Fresh(c))
      && h == g.(sentries := h.sentries, list := h.list)
    }
  }

  // Where a turn in acquire leaves its caller.
  ghost function Admitted(r: P.Request, res: Admission): P.Pc {
    match res
    case Got(s) => P.Acquired(r, s.id)
    case Cold => P.ColdStart(r)
    case Queued => P.Asleep(r)
    case _ => P.Done
  }

  ghost function Pasts(xs: seq<Sentry>): seq<P.SentryRecord>
    reads xs
  {
    seq(|xs|, i requires 0 <= i < |xs| reads xs => xs[i].past)
  }

  ghost function Ids(xs: seq<Sentry>): seq<nat> {
    seq(|xs|, i requires 0 <= i < |xs| => xs[i].id)
  }

  lemma IdsRange(xs: seq<Sentry>)
    ensures forall x :: x in Ids(xs) ==> exists i :: 0 <= i < |xs| && xs[i].id == x
  {
  }

  lemma IdsCut(xs: seq<Sentry>, i: nat)
    requires i < |xs| && Distinct(Ids(xs))
    ensures Ids(xs[..i] + xs[i + 1..]) == Without(Ids(xs), {xs[i].id})
  {
    WithoutOne(Ids(xs), i);
    assert Ids(xs[..i] + xs[i + 1..]) == Ids(xs)[..i] + Ids(xs)[i + 1..];
  }
}
