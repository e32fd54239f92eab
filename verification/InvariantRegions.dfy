// Every region of code, matched with its shape.
module InvariantRegions {
  import opened Basics
  import opened Protocol
  import opened Guests
  import opened Invariant
  import opened InvariantSteps

  ghost predicate Kept(c: Params, g: Shared, t: nat, o: Outcome) {
    LocalOk(c, o.g, t, o.pc) && Spares(g, o.g, t)
  }

  ghost predicate Ready(c: Params, g: Shared, t: nat, pc: Pc, ch: Choice) {
    LocalOk(c, g, t, pc) && Refers(g, pc) && CanRun(g, t, pc, ch)
  }

  lemma Held(c: Params, g: Shared, t: nat, pc: Pc, s: nat)
    requires LocalOk(c, g, t, pc) && Holds(pc, s)
    ensures s < |g.sentries| && g.sentries[s].owner == Thread(t)
    ensures Bounded(c, g.sentries[s]) && ThreadFact(c, g, s, pc)
    ensures 0 <= g.sentries[s].drained <= Bit(g.closed)
    ensures PcOk(g, t, pc)
  {
    hide HeldRecord, Apart, Among, Placed, Outside;
    assert s < |g.sentries|;
    assert Fact(c, g, s, pc);
  }

  lemma Free(c: Params, g: Shared, t: nat, pc: Pc)
    requires LocalOk(c, g, t, pc)
    ensures PcOk(g, t, pc) && (g.closed ==> g.lock.None? && g.stopped)
    ensures Within(g.list, |g.sentries|)
  {
  }

  lemma AcquireKeeps(c: Params, g: Shared, t: nat, pc: Pc, ch: Choice)
    requires Ready(c, g, t, pc, ch)
    requires InAcquire(pc)
    ensures Kept(c, g, t, Acquire(c, g, t, pc))
  {
    var o := Acquire(c, g, t, pc);
    if pc.Scanning? && pc.i < |g.list| && g.sentries[g.list[pc.i]].state.Ready? {
      var s := g.list[pc.i];
      assert Fact(c, g, s, pc);
      TakeKeeps(c, g, t, pc, o.g, o.pc, s);
    } else {
      MoveKeeps(c, g, t, pc, o.g, o.pc);
    }
  }

  // The cold path: the start and the failure of its spawn.
  lemma ColdPathKeeps(c: Params, g: Shared, t: nat, pc: Pc, ch: Choice)
    requires Ready(c, g, t, pc, ch)
    requires pc.ColdStart? || pc.ColdFailed?
    ensures Kept(c, g, t, ColdPath(c, g, t, pc, ch))
  {
    hide LocalOk, Refers;
    var o := ColdPath(c, g, t, pc, ch);
    Free(c, g, t, pc);
    if pc.ColdStart? {
      BirthKeeps(c, g, t, pc, o.g, o.pc);
    } else {
      MoveKeeps(c, g, t, pc, o.g, o.pc);
    }
  }

  // The cold path: the end of the spawn, and its clean-up.
  lemma ColdSpawnKeeps(c: Params, g: Shared, t: nat, pc: Pc, ch: Choice)
    requires Ready(c, g, t, pc, ch)
    requires pc.ColdSpawning? || pc.ColdCleaning?
    ensures Kept(c, g, t, ColdPath(c, g, t, pc, ch))
  {
    hide LocalOk, Refers, StageOf;
    var o := ColdPath(c, g, t, pc, ch);
    Held(c, g, t, pc, pc.s);
    SpawnedStage(c, g.sentries[pc.s]);
    CleanedStage(c, g.sentries[pc.s]);
    TouchKeeps(c, g, t, pc, o.g, o.pc, pc.s);
  }

  // The cold path: the append.
  lemma ColdJoinKeeps(c: Params, g: Shared, t: nat, pc: Pc, ch: Choice)
    requires Ready(c, g, t, pc, ch)
    requires pc.ColdSpawned?
    ensures Kept(c, g, t, ColdPath(c, g, t, pc, ch))
  {
    hide LocalOk, Refers;
    var o := ColdPath(c, g, t, pc, ch);
    Held(c, g, t, pc, pc.s);
    if !g.closed {
      JoinKeeps(c, g, t, pc, o.g, o.pc, pc.s);
    } else {
      assert g.sentries[pc.s := g.sentries[pc.s]] == g.sentries;
      TouchKeeps(c, g, t, pc, o.g, o.pc, pc.s);
    }
  }

  // recycle: Draining, then the first signal.
  lemma RecyclingKeeps(c: Params, g: Shared, t: nat, pc: Pc, ch: Choice)
    requires Ready(c, g, t, pc, ch) && pc.Recycling?
    ensures Kept(c, g, t, Drain(c, g, pc, ch))
  {
    hide LocalOk, Refers;
    var o := Drain(c, g, pc, ch);
    Held(c, g, t, pc, pc.s);
    TouchKeeps(c, g, t, pc, o.g, o.pc, pc.s);
  }

  lemma KillingKeeps(c: Params, g: Shared, t: nat, pc: Pc, ch: Choice)
    requires Ready(c, g, t, pc, ch) && pc.Killing?
    ensures Kept(c, g, t, Drain(c, g, pc, ch))
  {
    hide LocalOk, Refers, StageOf;
    var o := Drain(c, g, pc, ch);
    Held(c, g, t, pc, pc.s);
    CalledStage(c, g.sentries[pc.s], Term);
    TouchKeeps(c, g, t, pc, o.g, o.pc, pc.s);
  }

  // recycle: the wait returns, or the grace period passes and the kill follows.
  lemma WaitKeeps(c: Params, g: Shared, t: nat, pc: Pc, ch: Choice)
    requires Ready(c, g, t, pc, ch)
    requires pc.Waiting?
    ensures Kept(c, g, t, Drain(c, g, pc, ch))
  {
    hide Kept, Ready, Drain;
    if pc.forced || ch.ok {
      ExitKeeps(c, g, t, pc, ch);
    } else {
      ForceKeeps(c, g, t, pc, ch);
    }
  }

  lemma ExitKeeps(c: Params, g: Shared, t: nat, pc: Pc, ch: Choice)
    requires Ready(c, g, t, pc, ch) && pc.Waiting? && (pc.forced || ch.ok)
    ensures Kept(c, g, t, Drain(c, g, pc, ch))
  {
    hide LocalOk, Refers, StageOf;
    var o := Drain(c, g, pc, ch);
    Held(c, g, t, pc, pc.s);
    CalledStage(c, g.sentries[pc.s], Exit);
    TouchKeeps(c, g, t, pc, o.g, o.pc, pc.s);
  }

  lemma ForceKeeps(c: Params, g: Shared, t: nat, pc: Pc, ch: Choice)
    requires Ready(c, g, t, pc, ch) && pc.Waiting? && !pc.forced && !ch.ok
    ensures Kept(c, g, t, Drain(c, g, pc, ch))
  {
    hide LocalOk, Refers, StageOf;
    var o := Drain(c, g, pc, ch);
    Held(c, g, t, pc, pc.s);
    CalledStage(c, g.sentries[pc.s], Overdue);
    CalledStage(c, Called(g.sentries[pc.s], Overdue), Kill);
    TouchKeeps(c, g, t, pc, o.g, o.pc, pc.s);
  }

  // recycle: the reset and the count.
  lemma ResettingKeeps(c: Params, g: Shared, t: nat, pc: Pc, ch: Choice)
    requires Ready(c, g, t, pc, ch) && pc.Resetting?
    ensures Kept(c, g, t, Drain(c, g, pc, ch))
  {
    hide LocalOk, Refers, StageOf;
    var o := Drain(c, g, pc, ch);
    Held(c, g, t, pc, pc.s);
    CalledStage(c, g.sentries[pc.s], Reset(ch.ok));
    TouchKeeps(c, g, t, pc, o.g, o.pc, pc.s);
  }

  lemma CountingKeeps(c: Params, g: Shared, t: nat, pc: Pc, ch: Choice)
    requires Ready(c, g, t, pc, ch) && pc.Counting?
    ensures Kept(c, g, t, Drain(c, g, pc, ch))
  {
    hide LocalOk, Refers;
    var o := Drain(c, g, pc, ch);
    Held(c, g, t, pc, pc.s);
    TouchKeeps(c, g, t, pc, o.g, o.pc, pc.s);
  }

  // recycle: the health check.
  lemma CheckKeeps(c: Params, g: Shared, t: nat, pc: Pc, ch: Choice)
    requires Ready(c, g, t, pc, ch)
    requires pc.Checking?
    ensures Kept(c, g, t, Rewarm(c, g, pc, ch))
  {
    hide LocalOk, Refers;
    var o := Rewarm(c, g, pc, ch);
    Held(c, g, t, pc, pc.s);
    assert g.sentries[pc.s := g.sentries[pc.s]] == g.sentries;
    TouchKeeps(c, g, t, pc, o.g, o.pc, pc.s);
  }

  // recycle: the restore.
  lemma RewarmKeeps(c: Params, g: Shared, t: nat, pc: Pc, ch: Choice)
    requires Ready(c, g, t, pc, ch)
    requires pc.Rewarming?
    ensures Kept(c, g, t, Rewarm(c, g, pc, ch))
  {
    hide LocalOk, Refers, StageOf;
    var o := Rewarm(c, g, pc, ch);
    Held(c, g, t, pc, pc.s);
    CalledStage(c, g.sentries[pc.s], Restore(c.checkpoint, ch.ok));
    TouchKeeps(c, g, t, pc, o.g, o.pc, pc.s);
  }

  // recycle: Ready again.
  lemma ReadyKeeps(c: Params, g: Shared, t: nat, pc: Pc, ch: Choice)
    requires Ready(c, g, t, pc, ch)
    requires pc.Readying?
    ensures Kept(c, g, t, Rewarm(c, g, pc, ch))
  {
    hide LocalOk, Refers;
    var o := Rewarm(c, g, pc, ch);
    Held(c, g, t, pc, pc.s);
    TouchKeeps(c, g, t, pc, o.g, o.pc, pc.s);
  }

  // recycle: remove and cleanup.
  lemma DiscardKeeps(c: Params, g: Shared, t: nat, pc: Pc, ch: Choice)
    requires Ready(c, g, t, pc, ch)
    requires pc.Removing? || pc.Cleaning?
    ensures Kept(c, g, t, Rewarm(c, g, pc, ch))
  {
    hide Rewarm;
    if pc.Removing? {
      RemoveKeeps(c, g, t, pc, ch);
    } else {
      CleanKeeps(c, g, t, pc, ch);
    }
  }

  lemma RemoveKeeps(c: Params, g: Shared, t: nat, pc: Pc, ch: Choice)
    requires Ready(c, g, t, pc, ch) && pc.Removing?
    ensures Kept(c, g, t, Rewarm(c, g, pc, ch))
  {
    hide LocalOk, Refers;
    var o := Rewarm(c, g, pc, ch);
    Held(c, g, t, pc, pc.s);
    LeaveKeeps(c, g, t, pc, o.g, o.pc, pc.s);
  }

  lemma CleanKeeps(c: Params, g: Shared, t: nat, pc: Pc, ch: Choice)
    requires Ready(c, g, t, pc, ch) && pc.Cleaning?
    ensures Kept(c, g, t, Rewarm(c, g, pc, ch))
  {
    hide LocalOk, Refers, StageOf;
    var o := Rewarm(c, g, pc, ch);
    Held(c, g, t, pc, pc.s);
    CleanedStage(c, g.sentries[pc.s]);
    TouchKeeps(c, g, t, pc, o.g, o.pc, pc.s);
  }

  // Execute: the override checks and the counter.
  lemma ServeKeeps(c: Params, g: Shared, t: nat, pc: Pc, ch: Choice)
    requires Ready(c, g, t, pc, ch)
    requires pc.Acquired? || pc.Restored?
    ensures Kept(c, g, t, Serve(c, g, t, pc, ch))
  {
    hide LocalOk, Refers;
    var o := Serve(c, g, t, pc, ch);
    Held(c, g, t, pc, pc.s);
    assert g.sentries[pc.s := g.sentries[pc.s]] == g.sentries;
    TouchKeeps(c, g, t, pc, o.g, o.pc, pc.s);
  }

  // Execute: the restore on demand.
  lemma RestoreKeeps(c: Params, g: Shared, t: nat, pc: Pc, ch: Choice)
    requires Ready(c, g, t, pc, ch)
    requires pc.Restoring?
    ensures Kept(c, g, t, Serve(c, g, t, pc, ch))
  {
    hide LocalOk, Refers, StageOf;
    var o := Serve(c, g, t, pc, ch);
    Held(c, g, t, pc, pc.s);
    CalledStage(c, g.sentries[pc.s], Restore(CheckpointOf(c, pc.r), ch.ok));
    TouchKeeps(c, g, t, pc, o.g, o.pc, pc.s);
  }

  // registerLease writes the id on the sentry.
  lemma IssuedKeeps(c: Params, g: Shared, t: nat, pc: Pc, ch: Choice)
    requires Ready(c, g, t, pc, ch) && pc.Counted?
    ensures Kept(c, g, t, Serve(c, g, t, pc, ch))
  {
    hide LocalOk, Refers;
    var o := Serve(c, g, t, pc, ch);
    Held(c, g, t, pc, pc.s);
    IssueKeeps(c, g, t, pc, o.g, o.pc, pc.s);
  }

  // registerLease inserts the lease.
  lemma RegisterKeeps(c: Params, g: Shared, t: nat, pc: Pc, ch: Choice)
    requires Ready(c, g, t, pc, ch) && pc.Leasing?
    ensures Kept(c, g, t, Register(g, pc))
  {
    hide LocalOk, Refers;
    var o := Register(g, pc);
    Held(c, g, t, pc, pc.s);
    UsedRecord(c, g.sentries[pc.s], pc);
    hide HeldRecord, OnLease, Bounded;
    GrantedKept(c, g, t, pc);
    GrantKeeps(c, g, t, pc, o.g, o.pc, pc.s, pc.l);
  }

  // The record of a sentry that comes under a lease.
  lemma UsedRecord(c: Params, x: SentryRecord, pc: Pc)
    requires pc.Leasing? && HeldRecord(c, x, pc) && Bounded(c, x) && x.owner.Thread?
    ensures x.leaseId == Some(pc.l)
    ensures var y := Called(x, Use(pc.r)).(served := x.served + 1, owner := Lease(pc.l));
            Bounded(c, y) && OnLease(c, y)
  {
    hide StageOf;
    CalledStage(c, x, Use(pc.r));
  }

  // release, and every signal.
  lemma ReleaseKeeps(c: Params, g: Shared, t: nat, pc: Pc, ch: Choice)
    requires Ready(c, g, t, pc, ch)
    requires pc.Releasing? || pc.Signalling?
    ensures Kept(c, g, t, Register(g, pc))
  {
    hide LocalOk, Refers;
    var o := Register(g, pc);
    if pc.Releasing? {
      Held(c, g, t, pc, pc.s);
      TouchKeeps(c, g, t, pc, o.g, o.pc, pc.s);
    } else {
      Free(c, g, t, pc);
      MoveKeeps(c, g, t, pc, o.g, o.pc);
    }
  }

  lemma GrantedKept(c: Params, g: Shared, t: nat, pc: Pc)
    requires LocalOk(c, g, t, pc) && pc.Leasing? && pc.s < |g.sentries|
    ensures forall b: Book :: b.grants == g.book.grants + [Grant(pc.l, pc.s, pc.r, g.sentries[pc.s])] ==>
              Granted(c, g.(book := b))
  {
    Held(c, g, t, pc, pc.s);
  }

  lemma CompleteKeeps(c: Params, g: Shared, t: nat, pc: Pc, ch: Choice)
    requires Ready(c, g, t, pc, ch)
    requires InComplete(pc)
    ensures Kept(c, g, t, Complete(g, t, pc))
  {
    hide LocalOk, Refers;
    var o := Complete(g, t, pc);
    match pc {
      case Completing(l) =>
        Free(c, g, t, pc);
        if l in g.book.leases {
          Leased(c, g, t, pc, l);
          UnleaseKeeps(c, g, t, pc, o.g, o.pc, l);
        } else {
          MoveKeeps(c, g, t, pc, o.g, o.pc);
        }
      case Unleased(s) =>
        Held(c, g, t, pc, s);
        assert g.sentries[s := g.sentries[s]] == g.sentries;
        TouchKeeps(c, g, t, pc, o.g, o.pc, s);
    }
  }

  lemma Leased(c: Params, g: Shared, t: nat, pc: Pc, l: nat)
    requires LocalOk(c, g, t, pc) && l in g.book.leases
    ensures var s := g.book.leases[l];
            s < |g.sentries| && g.sentries[s].owner == Lease(l) && OnLease(c, g.sentries[s]) && Placed(g, s)
  {
    assert Fact(c, g, g.book.leases[l], pc);
  }

  // refill: the shortfall, and each spawn that starts.
  lemma SizeKeeps(c: Params, g: Shared, t: nat, pc: Pc, ch: Choice)
    requires Ready(c, g, t, pc, ch)
    requires pc.Sizing? || pc.Refilling?
    ensures Kept(c, g, t, Refill(c, g, t, pc, ch))
  {
    hide LocalOk, Refers;
    var o := Refill(c, g, t, pc, ch);
    Free(c, g, t, pc);
    if pc.Sizing? || pc.k == 0 {
      MoveKeeps(c, g, t, pc, o.g, o.pc);
    } else {
      BirthKeeps(c, g, t, pc, o.g, o.pc);
    }
  }

  // refill: the end of a spawn.
  lemma RefillSpawnKeeps(c: Params, g: Shared, t: nat, pc: Pc, ch: Choice)
    requires Ready(c, g, t, pc, ch)
    requires pc.RefillSpawning?
    ensures Kept(c, g, t, Refill(c, g, t, pc, ch))
  {
    hide LocalOk, Refers, StageOf;
    var o := Refill(c, g, t, pc, ch);
    Held(c, g, t, pc, pc.s);
    SpawnedStage(c, g.sentries[pc.s]);
    TouchKeeps(c, g, t, pc, o.g, o.pc, pc.s);
  }

  // refill: the append.
  lemma RefillKeeps(c: Params, g: Shared, t: nat, pc: Pc, ch: Choice)
    requires Ready(c, g, t, pc, ch)
    requires pc.RefillSpawned?
    ensures Kept(c, g, t, Refill(c, g, t, pc, ch))
  {
    hide LocalOk, Refers;
    var o := Refill(c, g, t, pc, ch);
    Held(c, g, t, pc, pc.s);
    if !g.closed {
      JoinKeeps(c, g, t, pc, o.g, o.pc, pc.s);
    } else {
      assert g.sentries[pc.s := g.sentries[pc.s]] == g.sentries;
      TouchKeeps(c, g, t, pc, o.g, o.pc, pc.s);
    }
  }

  // refill: the clean-up of a spawn that came too late.
  lemma RefillCleanKeeps(c: Params, g: Shared, t: nat, pc: Pc, ch: Choice)
    requires Ready(c, g, t, pc, ch)
    requires pc.RefillCleaning?
    ensures Kept(c, g, t, Refill(c, g, t, pc, ch))
  {
    hide LocalOk, Refers, StageOf;
    var o := Refill(c, g, t, pc, ch);
    Held(c, g, t, pc, pc.s);
    CleanedStage(c, g.sentries[pc.s]);
    TouchKeeps(c, g, t, pc, o.g, o.pc, pc.s);
  }

  lemma ReapKeeps(c: Params, g: Shared, t: nat, pc: Pc, ch: Choice)
    requires Ready(c, g, t, pc, ch)
    requires InReap(pc)
    ensures Kept(c, g, t, Reap(g, t, pc, ch))
  {
    hide LocalOk, Refers;
    var o := Reap(g, t, pc, ch);
    Free(c, g, t, pc);
    if pc.Reaping? {
      var out := Stale(g, ch.idle);
      var evict := Without(g.list, (set x | x in g.list) - out);
      if !Ticks(g, ch) || evict == [] {
        MoveKeeps(c, g, t, pc, o.g, o.pc);
      } else {
        PassKeeps(c, g, t, pc, ch);
      }
    } else if pc.todo == [] {
      MoveKeeps(c, g, t, pc, o.g, o.pc);
    } else {
      EvictedFacts(c, g, t, pc.todo, o.g, o.pc);
      EvictedKeeps(c, g, t, pc.todo, o.g, o.pc);
    }
  }

  lemma PassKeeps(c: Params, g: Shared, t: nat, pc: Pc, ch: Choice)
    requires Ready(c, g, t, pc, ch) && pc.Reaping? && Ticks(g, ch)
    requires Reap(g, t, pc, ch).pc.Evicting?
    ensures Kept(c, g, t, Reap(g, t, pc, ch))
  {
    hide LocalOk, Fact, Booked, Listed, Stale;
    var o := Reap(g, t, pc, ch);
    var out := Stale(g, ch.idle);
    StaleIdle(c, g, t, pc, ch.idle);
    PassTables(c, g, t, pc, o.g, out, o.pc);
    hide Reap;
    forall x | x in out
      ensures Bounded(c, o.g.sentries[x]) && Fact(c, o.g, x, o.pc)
    {
      StaleFact(c, g, o.g, t, x, o.pc);
    }
    hide PcOk, Bounded;
    ReassignKeeps(c, g, t, pc, o.g, o.pc, out, Thread(t));
  }

  lemma PassTables(c: Params, g: Shared, t: nat, pc: Pc, h: Shared, out: set<nat>, pc': Pc)
    requires LocalOk(c, g, t, pc) && pc.Reaping? && g.lock.None?
    requires forall x :: x in out ==> x in g.list && x < |g.sentries| && g.sentries[x].owner.Idle?
    requires h == g.(list := Without(g.list, out),
                     sentries := Reassign(g.sentries, out, Thread(t)),
                     evicted := h.evicted)
    requires pc' == Evicting(Without(g.list, (set x | x in g.list) - out))
    ensures Listed(h)
    ensures Booked(h)
    ensures PcOk(h, t, pc')
    ensures forall u :: Holds(pc', u) <==> u in out
  {
    hide OwnOk, Granted;
    EvictTables(g, t, h, out);
    PassHands(g, t, h, out, pc');
    hide Booked, Listed, PcOk;
  }

  lemma PassHands(g: Shared, t: nat, h: Shared, out: set<nat>, pc': Pc)
    requires Distinct(g.list) && |h.sentries| == |g.sentries| && h.lock.None?
    requires forall x :: x in out ==> x in g.list && x < |g.sentries|
    requires pc' == Evicting(Without(g.list, (set x | x in g.list) - out))
    ensures PcOk(h, t, pc')
    ensures forall u :: Holds(pc', u) <==> u in out
  {
    WithoutDistinct(g.list, (set x | x in g.list) - out);
    assert forall x :: x in pc'.todo <==> x in out;
    forall i | 0 <= i < |pc'.todo| ensures pc'.todo[i] < |h.sentries| {
      assert pc'.todo[i] in out;
    }
  }

  lemma StaleIdle(c: Params, g: Shared, t: nat, pc: Pc, idle: set<nat>)
    requires LocalOk(c, g, t, pc)
    ensures forall x :: x in Stale(g, idle) ==>
              x in g.list && x < |g.sentries| && g.sentries[x].owner.Idle?
              && Available(c, g.sentries[x]) && Bounded(c, g.sentries[x])
  {
    forall x | x in Stale(g, idle)
      ensures x in g.list && x < |g.sentries| && g.sentries[x].owner.Idle?
      ensures Available(c, g.sentries[x]) && Bounded(c, g.sentries[x])
    {
      assert Fact(c, g, x, pc);
    }
  }

  lemma StaleFact(c: Params, g: Shared, h: Shared, t: nat, x: nat, pc: Pc)
    requires x < |g.sentries| == |h.sentries| && pc.Evicting?
    requires Available(c, g.sentries[x]) && Bounded(c, g.sentries[x])
    requires h.sentries[x] == g.sentries[x].(owner := Thread(t)) && x !in h.list && g.sentries[x].owner.Idle?
    ensures Bounded(c, h.sentries[x])
    ensures Fact(c, h, x, pc)
  {
  }

  lemma EvictedFacts(c: Params, g: Shared, t: nat, todo: seq<nat>, h: Shared, pc': Pc)
    requires LocalOk(c, g, t, Evicting(todo)) && todo != [] && todo[0] < |g.sentries|
    requires h == g.(sentries := g.sentries[todo[0] := Cleaned(g.sentries[todo[0]])])
    requires pc' == if |todo| == 1 then Reaping else Evicting(todo[1..])
    ensures PcOk(h, t, pc')
    ensures forall u :: Holds(pc', u) <==> u in todo[1..]
    ensures Bounded(c, h.sentries[todo[0]])
    ensures forall x :: x in todo[1..] ==> x < |h.sentries| && Fact(c, h, x, pc')
    ensures Fact(c, h, todo[0], pc')
  {
    EvictedOut(c, g, t, todo, h, pc');
    hide LocalOk, StageOf;
    forall x | x in todo[1..]
      ensures x < |h.sentries| && Fact(c, h, x, pc')
    {
      assert x != todo[0];
      Held(c, g, t, Evicting(todo), x);
    }
  }

  lemma EvictedOut(c: Params, g: Shared, t: nat, todo: seq<nat>, h: Shared, pc': Pc)
    requires LocalOk(c, g, t, Evicting(todo)) && todo != [] && todo[0] < |g.sentries|
    requires h == g.(sentries := g.sentries[todo[0] := Cleaned(g.sentries[todo[0]])])
    ensures Bounded(c, h.sentries[todo[0]])
    ensures Fact(c, h, todo[0], pc')
    ensures Distinct(todo) && PcOk(g, t, Evicting(todo))
  {
    Held(c, g, t, Evicting(todo), todo[0]);
    CleanedRecord(c, g.sentries[todo[0]], todo);
    hide LocalOk, HeldRecord, Bounded, GuestOf;
  }

  lemma CleanedRecord(c: Params, x: SentryRecord, todo: seq<nat>)
    requires HeldRecord(c, x, Evicting(todo)) && Bounded(c, x) && x.owner.Thread?
    ensures var y := Cleaned(x); Bounded(c, y) && y.birth.Live? && GuestOf(c, y).Deleted?
  {
    CleanedStage(c, x);
    hide StageOf;
  }

  lemma ShutdownKeeps(c: Params, g: Shared, t: nat, pc: Pc, ch: Choice)
    requires Ready(c, g, t, pc, ch) && (pc.Closing? ==> !g.closed)
    requires InShutdown(pc)
    ensures Kept(c, g, t, Shutdown(g, pc))
  {
    hide LocalOk, Shutdown;
    match pc {
      case Cancelling => CancelKeeps(c, g, t, pc, ch);
      case Flushing => FlushingKeeps(c, g, t, pc, ch);
      case Closing => ClosingKeeps(c, g, t, pc, ch);
      case _ => StopKeeps(c, g, t, pc, ch);
    }
  }

  lemma StopKeeps(c: Params, g: Shared, t: nat, pc: Pc, ch: Choice)
    requires Ready(c, g, t, pc, ch) && (pc.Stopping? || pc.Joining?)
    ensures Kept(c, g, t, Shutdown(g, pc))
  {
    hide LocalOk, Reassign, Flushed, Refers;
    var o := Shutdown(g, pc);
    Free(c, g, t, pc);
    MoveKeeps(c, g, t, pc, o.g, o.pc);
  }

  lemma ClosingKeeps(c: Params, g: Shared, t: nat, pc: Pc, ch: Choice)
    requires Ready(c, g, t, pc, ch) && pc.Closing? && !g.closed
    ensures Kept(c, g, t, Shutdown(g, pc))
  {
    hide LocalOk, Reassign, Flushed, Refers;
    var o := Shutdown(g, pc);
    Free(c, g, t, pc);
    CloseKeeps(c, g, t, pc, o.g, o.pc);
  }

  lemma FlushingKeeps(c: Params, g: Shared, t: nat, pc: Pc, ch: Choice)
    requires Ready(c, g, t, pc, ch) && pc.Flushing?
    ensures Kept(c, g, t, Shutdown(g, pc))
  {
    hide LocalOk;
    var o := Shutdown(g, pc);
    Free(c, g, t, pc);
    if g.doomed == [] {
      MoveKeeps(c, g, t, pc, o.g, o.pc);
    } else {
      FlushFact(c, g, t, pc, o.g);
      FlushKeeps(c, g, t, pc, o.g, o.pc, g.doomed[0]);
    }
  }

  lemma CancelKeeps(c: Params, g: Shared, t: nat, pc: Pc, ch: Choice)
    requires Ready(c, g, t, pc, ch) && pc.Cancelling?
    ensures Kept(c, g, t, Shutdown(g, pc))
  {
    CancelOutcome(g, pc);
    hide LocalOk, Shutdown, Spares;
    CancelledKeeps(c, g, t, Shutdown(g, pc).g);
  }

  lemma CancelledKeeps(c: Params, g: Shared, t: nat, h: Shared)
    requires LocalOk(c, g, t, Cancelling)
    requires h == g.(sentries := Reassign(g.sentries, g.book.leases.Values, Orphan), book := h.book)
    requires h.book.leases == map[] && h.book.issued == g.book.issued && h.book.grants == g.book.grants
    ensures LocalOk(c, h, t, Stopping) && Spares(g, h, t)
  {
    hide LocalOk, Bounded, Fact, Booked, Listed, PcOk;
    CancelTables(c, g, t, Cancelling, h, Stopping);
    CancelFacts(c, g, t, Cancelling, h, Stopping);
    ReassignKeeps(c, g, t, Cancelling, h, Stopping, g.book.leases.Values, Orphan);
  }

  lemma CancelOutcome(g: Shared, pc: Pc)
    requires Refers(g, pc) && pc.Cancelling?
    ensures Shutdown(g, pc) ==
            Go(g.(sentries := Reassign(g.sentries, g.book.leases.Values, Orphan),
                  book := g.book.(leases := map[], cancelled := g.book.cancelled + |g.book.leases|)),
               Stopping)
  {
  }

  lemma CancelFacts(c: Params, g: Shared, t: nat, pc: Pc, h: Shared, pc': Pc)
    requires LocalOk(c, g, t, pc)
    requires h == g.(sentries := Reassign(g.sentries, g.book.leases.Values, Orphan), book := h.book)
    requires forall u :: u in g.book.leases.Values ==> u < |g.sentries| && g.sentries[u].owner.Lease?
    ensures forall u :: u in g.book.leases.Values ==> Bounded(c, h.sentries[u]) && Fact(c, h, u, pc')
  {
    hide LocalOk, Bounded, Fact;
    forall u | u in g.book.leases.Values
      ensures Bounded(c, h.sentries[u]) && Fact(c, h, u, pc')
    {
      Unowned(c, g, t, pc, u);
      CancelFact(c, g, h, u, pc, pc');
    }
  }

  lemma CancelTables(c: Params, g: Shared, t: nat, pc: Pc, h: Shared, pc': Pc)
    requires LocalOk(c, g, t, pc) && pc.Cancelling? && pc'.Stopping?
    requires h == g.(sentries := Reassign(g.sentries, g.book.leases.Values, Orphan), book := h.book)
    requires h.book.leases == map[] && h.book.issued == g.book.issued
    ensures Listed(h)
    ensures Booked(h)
    ensures PcOk(h, t, pc')
    ensures forall u :: u in g.book.leases.Values ==> u < |g.sentries| && g.sentries[u].owner.Lease?
  {
    hide OwnOk, Granted;
    CancelBooked(g, h);
    hide Booked;
  }

  lemma Unowned(c: Params, g: Shared, t: nat, pc: Pc, u: nat)
    requires LocalOk(c, g, t, pc) && u < |g.sentries| && !g.sentries[u].owner.Thread?
    ensures Bounded(c, g.sentries[u]) && Fact(c, g, u, pc)
  {
    hide Fact;
  }

  lemma FlushFact(c: Params, g: Shared, t: nat, pc: Pc, h: Shared)
    requires LocalOk(c, g, t, pc) && pc.Flushing? && g.doomed != [] && g.doomed[0] < |g.sentries|
    requires h == g.(sentries := g.sentries[g.doomed[0] := Flushed(g.sentries[g.doomed[0]])], doomed := g.doomed[1..])
    ensures !Foreign(g.sentries[g.doomed[0]], t) ==> Fact(c, h, g.doomed[0], pc)
  {
    var s := g.doomed[0];
    if !Foreign(g.sentries[s], t) {
      Unowned(c, g, t, pc, s);
      assert g.sentries[g.doomed[0]].drained == 0;
    }
  }

  // The invariant is kept by every region.
  lemma RegionKeeps(c: Params, g: Shared, t: nat, pc: Pc, ch: Choice)
    requires LocalOk(c, g, t, pc) && Refers(g, pc) && CanRun(g, t, pc, ch)
    requires pc.Closing? ==> !g.closed
    ensures Kept(c, g, t, Region(c, g, t, pc, ch))
  {
    hide Kept, LocalOk, Refers, Acquire, ColdPath, Serve, Register, Complete, Drain, Rewarm, Refill, Reap, Shutdown;
    if InAcquire(pc) {
      AcquireKeeps(c, g, t, pc, ch);
    } else if pc.ColdStart? || pc.ColdFailed? {
      ColdPathKeeps(c, g, t, pc, ch);
    } else if pc.ColdSpawned? {
      ColdJoinKeeps(c, g, t, pc, ch);
    } else if InColdPath(pc) {
      ColdSpawnKeeps(c, g, t, pc, ch);
    } else if pc.Acquired? || pc.Restored? {
      ServeKeeps(c, g, t, pc, ch);
    } else if pc.Restoring? {
      RestoreKeeps(c, g, t, pc, ch);
    } else if pc.Counted? {
      IssuedKeeps(c, g, t, pc, ch);
    } else if pc.Leasing? {
      RegisterKeeps(c, g, t, pc, ch);
    } else if pc.Releasing? || pc.Signalling? {
      ReleaseKeeps(c, g, t, pc, ch);
    } else if InComplete(pc) {
      CompleteKeeps(c, g, t, pc, ch);
    } else if pc.Sizing? || pc.Refilling? {
      SizeKeeps(c, g, t, pc, ch);
    } else if pc.RefillSpawning? {
      RefillSpawnKeeps(c, g, t, pc, ch);
    } else if pc.RefillSpawned? {
      RefillKeeps(c, g, t, pc, ch);
    } else if pc.RefillCleaning? {
      RefillCleanKeeps(c, g, t, pc, ch);
    } else if InReap(pc) {
      ReapKeeps(c, g, t, pc, ch);
    } else if InShutdown(pc) {
      ShutdownKeeps(c, g, t, pc, ch);
    } else if pc.Recycling? {
      RecyclingKeeps(c, g, t, pc, ch);
    } else if pc.Killing? {
      KillingKeeps(c, g, t, pc, ch);
    } else if pc.Waiting? {
      WaitKeeps(c, g, t, pc, ch);
    } else if pc.Resetting? {
      ResettingKeeps(c, g, t, pc, ch);
    } else if pc.Counting? {
      CountingKeeps(c, g, t, pc, ch);
    } else if pc.Checking? {
      CheckKeeps(c, g, t, pc, ch);
    } else if pc.Rewarming? {
      RewarmKeeps(c, g, t, pc, ch);
    } else if pc.Readying? {
      ReadyKeeps(c, g, t, pc, ch);
    } else {
      DiscardKeeps(c, g, t, pc, ch);
    }
  }
}
