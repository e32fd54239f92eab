// What the locks are for. A region that does not hold a lock, and does not take it,
// neither reads nor writes what the lock guards: whatever stands there before, the
// region does the same, and leaves it as it was.
module Guards {
  import opened Basics
  import opened Protocol
  import opened Locks

  // The thread holds the lock in the region, from before it or by taking it.
  predicate Covered(g: Shared, pc: Pc, ch: Choice, l: Lock)
    requires Refers(g, pc)
  {
    l in HeldAt(pc) || Take(l) in LocksOf(g, pc, ch)
  }

  // The same state with other contents behind one of the locks.
  function OtherPool(g: Shared, list: seq<nat>, pending: int, closed: bool): Shared {
    g.(list := list, pending := pending, closed := closed)
  }

  function OtherTable(g: Shared, leases: map<nat, nat>): Shared {
    g.(book := g.book.(leases := leases))
  }

  function OtherFields(x: SentryRecord, state: SentryState, leaseId: Option<nat>, restores: int): SentryRecord {
    x.(state := state, leaseId := leaseId, restores := restores)
  }

  // ---- Pool.mu: the list, the pending counter, closed, and the condition
  // variable ------------------------------------------------------------

  ghost predicate PoolBlind(c: Params, g: Shared, t: nat, pc: Pc, ch: Choice,
                            list: seq<nat>, pending: int, closed: bool)
    requires Refers(g, pc) && Refers(OtherPool(g, list, pending, closed), pc)
  {
    var o := Region(c, g, t, pc, ch);
    && o.wake.Nobody? && o.g.lock == g.lock
    && Region(c, OtherPool(g, list, pending, closed), t, pc, ch) ==
       o.(g := OtherPool(o.g, list, pending, closed))
  }

  lemma PoolGuarded(c: Params, g: Shared, t: nat, pc: Pc, ch: Choice,
                    list: seq<nat>, pending: int, closed: bool)
    requires Refers(g, pc) && Refers(OtherPool(g, list, pending, closed), pc)
    requires !Covered(g, pc, ch, PoolMu)
    ensures PoolBlind(c, g, t, pc, ch, list, pending, closed)
  {
    PoolCovered(g, pc, ch);
    hide Refers, Covered, LocksOf;
    if InServe(pc) || InComplete(pc) || InDrain(pc) {
      PoolBlindInHand(c, g, t, pc, ch, list, pending, closed);
    } else if InColdPath(pc) || InRegister(pc) || InRewarm(pc) {
      PoolBlindOutside(c, g, t, pc, ch, list, pending, closed);
    } else {
      PoolBlindElse(c, g, t, pc, ch, list, pending, closed);
    }
  }

  // The regions without the pool's mutex.
  predicate OffPool(g: Shared, pc: Pc, ch: Choice) {
    && !InAcquire(pc) && !pc.ColdFailed? && !pc.ColdSpawned? && !pc.Signalling? && !pc.Removing?
    && !pc.Sizing? && !pc.RefillSpawned? && !pc.Closing? && (pc.Reaping? ==> !Ticks(g, ch))
  }

  lemma PoolCovered(g: Shared, pc: Pc, ch: Choice)
    requires Refers(g, pc)
    ensures OffPool(g, pc, ch) || Covered(g, pc, ch, PoolMu)
  {
    assert Section(PoolMu)[0] == Take(PoolMu);
    var ops := LocksOf(g, pc, ch);
    if pc.Entering? || pc.Woken? || pc.ColdSpawned? || (pc.Reaping? && Ticks(g, ch)) {
      assert ops[0] == Take(PoolMu);
    }
  }

  lemma PoolBlindInHand(c: Params, g: Shared, t: nat, pc: Pc, ch: Choice,
                        list: seq<nat>, pending: int, closed: bool)
    requires Refers(g, pc) && Refers(OtherPool(g, list, pending, closed), pc)
    requires InServe(pc) || InComplete(pc) || InDrain(pc)
    ensures PoolBlind(c, g, t, pc, ch, list, pending, closed)
  {
    hide PoolBlind, Refers;
    if InServe(pc) {
      PoolBlindInHandServe(c, g, t, pc, ch, list, pending, closed);
    } else if InComplete(pc) {
      PoolBlindInHandComplete(c, g, t, pc, ch, list, pending, closed);
    } else {
      PoolBlindInHandDrain(c, g, t, pc, ch, list, pending, closed);
    }
  }

  lemma PoolBlindInHandServe(c: Params, g: Shared, t: nat, pc: Pc, ch: Choice,
                             list: seq<nat>, pending: int, closed: bool)
    requires Refers(g, pc) && Refers(OtherPool(g, list, pending, closed), pc)
    requires InServe(pc)
    ensures PoolBlind(c, g, t, pc, ch, list, pending, closed)
  {
    hide Spawned, Cleaned, Flushed, Stale, Without, Reassign, Called;
  }

  lemma PoolBlindInHandComplete(c: Params, g: Shared, t: nat, pc: Pc, ch: Choice,
                                list: seq<nat>, pending: int, closed: bool)
    requires Refers(g, pc) && Refers(OtherPool(g, list, pending, closed), pc)
    requires InComplete(pc)
    ensures PoolBlind(c, g, t, pc, ch, list, pending, closed)
  {
    hide Spawned, Cleaned, Flushed, Stale, Without, Reassign, Called;
  }

  lemma PoolBlindInHandDrain(c: Params, g: Shared, t: nat, pc: Pc, ch: Choice,
                             list: seq<nat>, pending: int, closed: bool)
    requires Refers(g, pc) && Refers(OtherPool(g, list, pending, closed), pc)
    requires InDrain(pc)
    ensures PoolBlind(c, g, t, pc, ch, list, pending, closed)
  {
    hide Spawned, Cleaned, Flushed, Stale, Without, Reassign, Called;
  }

  lemma PoolBlindOutside(c: Params, g: Shared, t: nat, pc: Pc, ch: Choice,
                         list: seq<nat>, pending: int, closed: bool)
    requires Refers(g, pc) && Refers(OtherPool(g, list, pending, closed), pc)
    requires OffPool(g, pc, ch) && (InColdPath(pc) || InRegister(pc) || InRewarm(pc))
    ensures PoolBlind(c, g, t, pc, ch, list, pending, closed)
  {
    hide Spawned, Cleaned, Flushed, Stale, Without, Reassign, Called;
  }

  lemma PoolBlindElse(c: Params, g: Shared, t: nat, pc: Pc, ch: Choice,
                      list: seq<nat>, pending: int, closed: bool)
    requires Refers(g, pc) && Refers(OtherPool(g, list, pending, closed), pc)
    requires OffPool(g, pc, ch)
    requires !InServe(pc) && !InComplete(pc) && !InDrain(pc) && !InColdPath(pc) && !InRegister(pc) && !InRewarm(pc)
    ensures PoolBlind(c, g, t, pc, ch, list, pending, closed)
  {
    hide PoolBlind, Refers;
    if InRefill(pc) {
      PoolBlindElseRefill(c, g, t, pc, ch, list, pending, closed);
    } else {
      PoolBlindElseRest(c, g, t, pc, ch, list, pending, closed);
    }
  }

  lemma PoolBlindElseRefill(c: Params, g: Shared, t: nat, pc: Pc, ch: Choice,
                            list: seq<nat>, pending: int, closed: bool)
    requires Refers(g, pc) && Refers(OtherPool(g, list, pending, closed), pc)
    requires OffPool(g, pc, ch)
    requires InRefill(pc)
    ensures PoolBlind(c, g, t, pc, ch, list, pending, closed)
  {
    hide Spawned, Cleaned, Flushed, Stale, Without, Reassign, Called;
  }

  lemma PoolBlindElseRest(c: Params, g: Shared, t: nat, pc: Pc, ch: Choice,
                          list: seq<nat>, pending: int, closed: bool)
    requires Refers(g, pc) && Refers(OtherPool(g, list, pending, closed), pc)
    requires OffPool(g, pc, ch)
    requires !InServe(pc) && !InComplete(pc) && !InDrain(pc) && !InColdPath(pc) && !InRegister(pc) && !InRewarm(pc)
    requires !InRefill(pc)
    ensures PoolBlind(c, g, t, pc, ch, list, pending, closed)
  {
    hide Spawned, Cleaned, Flushed, Stale, Without, Reassign, Called;
  }

  // ---- leaseMu: the lease table ------------------------------------------

  ghost predicate TableBlind(c: Params, g: Shared, t: nat, pc: Pc, ch: Choice, leases: map<nat, nat>)
    requires Refers(g, pc) && Refers(OtherTable(g, leases), pc)
  {
    var o := Region(c, g, t, pc, ch);
    Region(c, OtherTable(g, leases), t, pc, ch) == o.(g := OtherTable(o.g, leases))
  }

  lemma TableGuarded(c: Params, g: Shared, t: nat, pc: Pc, ch: Choice, leases: map<nat, nat>)
    requires Refers(g, pc) && Refers(OtherTable(g, leases), pc)
    requires !Covered(g, pc, ch, LeaseMu)
    ensures TableBlind(c, g, t, pc, ch, leases)
  {
    TableCovered(g, pc, ch);
    hide Refers, Covered, LocksOf;
    if InAcquire(pc) || InColdPath(pc) || InServe(pc) {
      TableBlindServe(c, g, t, pc, ch, leases);
    } else if InDrain(pc) {
      TableBlindDrain(c, g, t, pc, ch, leases);
    } else if InRewarm(pc) {
      TableBlindRewarm(c, g, t, pc, ch, leases);
    } else if InRefill(pc) {
      TableBlindRefill(c, g, t, pc, ch, leases);
    } else {
      TableBlindElse(c, g, t, pc, ch, leases);
    }
  }

  lemma TableCovered(g: Shared, pc: Pc, ch: Choice)
    requires Refers(g, pc)
    ensures pc.Leasing? || pc.Completing? || pc.Cancelling? ==> Covered(g, pc, ch, LeaseMu)
  {
    assert Section(LeaseMu)[0] == Take(LeaseMu);
    if pc.Leasing? {
      assert (Section(LeaseMu) + Section(SentryMu(pc.s)))[0] == Take(LeaseMu);
    }
  }

  lemma TableBlindServe(c: Params, g: Shared, t: nat, pc: Pc, ch: Choice, leases: map<nat, nat>)
    requires Refers(g, pc) && Refers(OtherTable(g, leases), pc)
    requires InAcquire(pc) || InColdPath(pc) || InServe(pc)
    ensures TableBlind(c, g, t, pc, ch, leases)
  {
    hide TableBlind, Refers;
    if InAcquire(pc) {
      TableBlindServeAcquire(c, g, t, pc, ch, leases);
    } else if InColdPath(pc) {
      TableBlindServeCold(c, g, t, pc, ch, leases);
    } else {
      TableBlindServeLease(c, g, t, pc, ch, leases);
    }
  }

  lemma TableBlindServeAcquire(c: Params, g: Shared, t: nat, pc: Pc, ch: Choice, leases: map<nat, nat>)
    requires Refers(g, pc) && Refers(OtherTable(g, leases), pc)
    requires InAcquire(pc)
    ensures TableBlind(c, g, t, pc, ch, leases)
  {
    hide Spawned, Cleaned, Flushed, Stale, Without, Reassign, Called;
  }

  lemma TableBlindServeCold(c: Params, g: Shared, t: nat, pc: Pc, ch: Choice, leases: map<nat, nat>)
    requires Refers(g, pc) && Refers(OtherTable(g, leases), pc)
    requires InColdPath(pc)
    ensures TableBlind(c, g, t, pc, ch, leases)
  {
    hide Spawned, Cleaned, Flushed, Stale, Without, Reassign, Called;
  }

  lemma TableBlindServeLease(c: Params, g: Shared, t: nat, pc: Pc, ch: Choice, leases: map<nat, nat>)
    requires Refers(g, pc) && Refers(OtherTable(g, leases), pc)
    requires InServe(pc)
    ensures TableBlind(c, g, t, pc, ch, leases)
  {
    hide Spawned, Cleaned, Flushed, Stale, Without, Reassign, Called;
  }

  lemma TableBlindDrain(c: Params, g: Shared, t: nat, pc: Pc, ch: Choice, leases: map<nat, nat>)
    requires Refers(g, pc) && Refers(OtherTable(g, leases), pc) && InDrain(pc)
    ensures TableBlind(c, g, t, pc, ch, leases)
  {
    hide Spawned, Cleaned, Flushed, Stale, Without, Reassign, Called;
  }

  lemma TableBlindRewarm(c: Params, g: Shared, t: nat, pc: Pc, ch: Choice, leases: map<nat, nat>)
    requires Refers(g, pc) && Refers(OtherTable(g, leases), pc) && InRewarm(pc)
    ensures TableBlind(c, g, t, pc, ch, leases)
  {
    hide Spawned, Cleaned, Flushed, Stale, Without, Reassign, Called;
  }

  lemma TableBlindRefill(c: Params, g: Shared, t: nat, pc: Pc, ch: Choice, leases: map<nat, nat>)
    requires Refers(g, pc) && Refers(OtherTable(g, leases), pc) && InRefill(pc)
    ensures TableBlind(c, g, t, pc, ch, leases)
  {
    hide TableBlind, Refers;
    if pc.Sizing? || pc.Refilling? {
      TableBlindRefillSize(c, g, t, pc, ch, leases);
    } else {
      TableBlindRefillSpawn(c, g, t, pc, ch, leases);
    }
  }

  lemma TableBlindRefillSize(c: Params, g: Shared, t: nat, pc: Pc, ch: Choice, leases: map<nat, nat>)
    requires Refers(g, pc) && Refers(OtherTable(g, leases), pc)
    requires pc.Sizing? || pc.Refilling?
    ensures TableBlind(c, g, t, pc, ch, leases)
  {
    hide Spawned, Cleaned, Flushed, Stale, Without, Reassign, Called;
  }

  lemma TableBlindRefillSpawn(c: Params, g: Shared, t: nat, pc: Pc, ch: Choice, leases: map<nat, nat>)
    requires Refers(g, pc) && Refers(OtherTable(g, leases), pc)
    requires pc.RefillSpawning? || pc.RefillSpawned? || pc.RefillCleaning?
    ensures TableBlind(c, g, t, pc, ch, leases)
  {
    hide Spawned, Cleaned, Flushed, Stale, Without, Reassign, Called;
  }

  lemma TableBlindElse(c: Params, g: Shared, t: nat, pc: Pc, ch: Choice, leases: map<nat, nat>)
    requires Refers(g, pc) && Refers(OtherTable(g, leases), pc)
    requires !pc.Leasing? && !pc.Completing? && !pc.Cancelling?
    requires !InAcquire(pc) && !InColdPath(pc) && !InServe(pc) && !InDrain(pc) && !InRewarm(pc) && !InRefill(pc)
    ensures TableBlind(c, g, t, pc, ch, leases)
  {
    hide Spawned, Cleaned, Flushed, Without, Reassign, Called;
  }

  // ---- Sentry.mu: State, LeaseID and Restores ----------------------------

  ghost predicate FieldsBlind(c: Params, g: Shared, t: nat, pc: Pc, ch: Choice,
                              s: nat, state: SentryState, leaseId: Option<nat>, restores: int)
    requires Refers(g, pc) && s < |g.sentries|
  {
    var o := Region(c, g, t, pc, ch);
    var o' := Region(c, Set(g, s, OtherFields(g.sentries[s], state, leaseId, restores)), t, pc, ch);
    && o' == o.(g := o.g.(sentries := o'.g.sentries))
    && s < |o'.g.sentries| == |o.g.sentries|
    && o'.g.sentries[s] == OtherFields(o.g.sentries[s], state, leaseId, restores)
    && forall u :: 0 <= u < |o.g.sentries| && u != s ==> o'.g.sentries[u] == o.g.sentries[u]
  }

  lemma FieldsGuarded(c: Params, g: Shared, t: nat, pc: Pc, ch: Choice,
                      s: nat, state: SentryState, leaseId: Option<nat>, restores: int)
    requires Refers(g, pc) && s < |g.sentries|
    requires !Covered(g, pc, ch, SentryMu(s))
    ensures FieldsBlind(c, g, t, pc, ch, s, state, leaseId, restores)
  {
    FieldsCovered(g, pc, ch, s);
    hide Covered, LocksOf;
    if InAcquire(pc) {
      FieldsBlindAcquire(c, g, t, pc, ch, s, state, leaseId, restores);
    } else if InColdPath(pc) {
      FieldsBlindCold(c, g, t, pc, ch, s, state, leaseId, restores);
    } else if InServe(pc) {
      FieldsBlindServe(c, g, t, pc, ch, s, state, leaseId, restores);
    } else if InRegister(pc) {
      FieldsBlindRegister(c, g, t, pc, ch, s, state, leaseId, restores);
    } else if InComplete(pc) {
      FieldsBlindComplete(c, g, t, pc, ch, s, state, leaseId, restores);
    } else if InDrain(pc) {
      FieldsBlindDrain(c, g, t, pc, ch, s, state, leaseId, restores);
    } else if InRewarm(pc) {
      FieldsBlindRewarm(c, g, t, pc, ch, s, state, leaseId, restores);
    } else if InRefill(pc) {
      FieldsBlindRefill(c, g, t, pc, ch, s, state, leaseId, restores);
    } else if InReap(pc) {
      FieldsBlindReap(c, g, t, pc, ch, s, state, leaseId, restores);
    } else {
      FieldsBlindShutdown(c, g, t, pc, ch, s, state, leaseId, restores);
    }
  }

  // The regions without that sentry's mutex.
  predicate OffSentry(g: Shared, pc: Pc, ch: Choice, s: nat) {
    && (pc.Scanning? && pc.i < |g.list| ==> g.list[pc.i] != s)
    && (pc.ColdSpawned? && pc.s == s ==> g.closed)
    && (pc.Reaping? && Ticks(g, ch) ==> s !in g.list)
    && (pc.Counted? || pc.Leasing? || pc.Releasing? || pc.Recycling? || pc.Counting? || pc.Checking? || pc.Readying? ==>
          pc.s != s)
  }

  lemma FieldsCovered(g: Shared, pc: Pc, ch: Choice, s: nat)
    requires Refers(g, pc)
    ensures OffSentry(g, pc, ch, s) || Covered(g, pc, ch, SentryMu(s))
  {
    var ops := LocksOf(g, pc, ch);
    assert Section(SentryMu(s))[0] == Take(SentryMu(s));
    if pc.Scanning? && pc.i < |g.list| {
      assert ops[0] == Take(SentryMu(g.list[pc.i]));
    } else if pc.ColdSpawned? && !g.closed {
      assert ops[1] == Take(SentryMu(pc.s));
    } else if pc.Leasing? {
      assert ops[2] == Take(SentryMu(pc.s));
    } else if pc.Reaping? && Ticks(g, ch) {
      LooksAtAll(g.list);
      assert forall x :: x in Looks(g.list) ==> x in ops;
    }
  }

  lemma {:induction false} LooksAtAll(xs: seq<nat>)
    ensures forall x :: x in xs ==> Take(SentryMu(x)) in Looks(xs)
  {
    if xs != [] {
      LooksAtAll(xs[1..]);
      assert Looks(xs)[0] == Take(SentryMu(xs[0]));
      assert forall x :: x in xs ==> x == xs[0] || x in xs[1..];
    }
  }

  lemma FieldsBlindAcquire(c: Params, g: Shared, t: nat, pc: Pc, ch: Choice,
                           s: nat, state: SentryState, leaseId: Option<nat>, restores: int)
    requires Refers(g, pc) && s < |g.sentries| && OffSentry(g, pc, ch, s) && InAcquire(pc)
    ensures FieldsBlind(c, g, t, pc, ch, s, state, leaseId, restores)
  {
    hide FieldsBlind, Refers;
    if pc.Scanning? && pc.i < |g.list| {
      FieldsBlindLook(c, g, t, pc, ch, s, state, leaseId, restores);
    } else {
      FieldsBlindTurn(c, g, t, pc, ch, s, state, leaseId, restores);
    }
  }

  lemma FieldsBlindLook(c: Params, g: Shared, t: nat, pc: Pc, ch: Choice,
                        s: nat, state: SentryState, leaseId: Option<nat>, restores: int)
    requires Refers(g, pc) && s < |g.sentries| && OffSentry(g, pc, ch, s) && pc.Scanning? && pc.i < |g.list|
    ensures FieldsBlind(c, g, t, pc, ch, s, state, leaseId, restores)
  {
    hide Spawned, Cleaned, Flushed, Stale, Without, Reassign, Called;
  }

  lemma FieldsBlindTurn(c: Params, g: Shared, t: nat, pc: Pc, ch: Choice,
                        s: nat, state: SentryState, leaseId: Option<nat>, restores: int)
    requires Refers(g, pc) && s < |g.sentries| && InAcquire(pc) && (pc.Scanning? ==> pc.i >= |g.list|)
    ensures FieldsBlind(c, g, t, pc, ch, s, state, leaseId, restores)
  {
    hide Spawned, Cleaned, Flushed, Stale, Without, Reassign, Called;
  }

  lemma FieldsBlindCold(c: Params, g: Shared, t: nat, pc: Pc, ch: Choice,
                        s: nat, state: SentryState, leaseId: Option<nat>, restores: int)
    requires Refers(g, pc) && s < |g.sentries| && OffSentry(g, pc, ch, s) && InColdPath(pc)
    ensures FieldsBlind(c, g, t, pc, ch, s, state, leaseId, restores)
  {
    hide FieldsBlind, Refers;
    if pc.ColdStart? || pc.ColdSpawning? || pc.ColdCleaning? {
      FieldsBlindColdSpawn(c, g, t, pc, ch, s, state, leaseId, restores);
    } else {
      FieldsBlindColdBack(c, g, t, pc, ch, s, state, leaseId, restores);
    }
  }

  lemma FieldsBlindColdSpawn(c: Params, g: Shared, t: nat, pc: Pc, ch: Choice,
                             s: nat, state: SentryState, leaseId: Option<nat>, restores: int)
    requires Refers(g, pc) && s < |g.sentries| && OffSentry(g, pc, ch, s) && InColdPath(pc)
    requires pc.ColdStart? || pc.ColdSpawning? || pc.ColdCleaning?
    ensures FieldsBlind(c, g, t, pc, ch, s, state, leaseId, restores)
  {
    hide Flushed, Stale, Without, Reassign, Called;
  }

  lemma FieldsBlindColdBack(c: Params, g: Shared, t: nat, pc: Pc, ch: Choice,
                            s: nat, state: SentryState, leaseId: Option<nat>, restores: int)
    requires Refers(g, pc) && s < |g.sentries| && OffSentry(g, pc, ch, s) && InColdPath(pc)
    requires pc.ColdFailed? || pc.ColdSpawned?
    ensures FieldsBlind(c, g, t, pc, ch, s, state, leaseId, restores)
  {
    hide Flushed, Stale, Without, Reassign, Called;
  }

  lemma FieldsBlindServe(c: Params, g: Shared, t: nat, pc: Pc, ch: Choice,
                         s: nat, state: SentryState, leaseId: Option<nat>, restores: int)
    requires Refers(g, pc) && s < |g.sentries| && OffSentry(g, pc, ch, s) && InServe(pc)
    ensures FieldsBlind(c, g, t, pc, ch, s, state, leaseId, restores)
  {
    hide Spawned, Cleaned, Flushed, Stale, Without, Reassign;
  }

  lemma FieldsBlindRegister(c: Params, g: Shared, t: nat, pc: Pc, ch: Choice,
                            s: nat, state: SentryState, leaseId: Option<nat>, restores: int)
    requires Refers(g, pc) && s < |g.sentries| && OffSentry(g, pc, ch, s) && InRegister(pc)
    ensures FieldsBlind(c, g, t, pc, ch, s, state, leaseId, restores)
  {
    hide Spawned, Cleaned, Flushed, Stale, Without, Reassign;
  }

  lemma FieldsBlindComplete(c: Params, g: Shared, t: nat, pc: Pc, ch: Choice,
                            s: nat, state: SentryState, leaseId: Option<nat>, restores: int)
    requires Refers(g, pc) && s < |g.sentries| && OffSentry(g, pc, ch, s) && InComplete(pc)
    ensures FieldsBlind(c, g, t, pc, ch, s, state, leaseId, restores)
  {
    hide Spawned, Cleaned, Flushed, Stale, Without, Reassign, Called;
  }

  lemma FieldsBlindDrain(c: Params, g: Shared, t: nat, pc: Pc, ch: Choice,
                         s: nat, state: SentryState, leaseId: Option<nat>, restores: int)
    requires Refers(g, pc) && s < |g.sentries| && OffSentry(g, pc, ch, s) && InDrain(pc)
    ensures FieldsBlind(c, g, t, pc, ch, s, state, leaseId, restores)
  {
    hide FieldsBlind, Refers;
    if pc.Recycling? || pc.Killing? {
      FieldsBlindDrainSignals(c, g, t, pc, ch, s, state, leaseId, restores);
    } else if pc.Waiting? {
      FieldsBlindDrainWait(c, g, t, pc, ch, s, state, leaseId, restores);
    } else {
      FieldsBlindDrainReset(c, g, t, pc, ch, s, state, leaseId, restores);
    }
  }

  lemma FieldsBlindDrainSignals(c: Params, g: Shared, t: nat, pc: Pc, ch: Choice,
                                s: nat, state: SentryState, leaseId: Option<nat>, restores: int)
    requires Refers(g, pc) && s < |g.sentries| && OffSentry(g, pc, ch, s)
    requires pc.Recycling? || pc.Killing?
    ensures FieldsBlind(c, g, t, pc, ch, s, state, leaseId, restores)
  {
    hide Spawned, Cleaned, Flushed, Stale, Without, Reassign;
  }

  lemma FieldsBlindDrainWait(c: Params, g: Shared, t: nat, pc: Pc, ch: Choice,
                             s: nat, state: SentryState, leaseId: Option<nat>, restores: int)
    requires Refers(g, pc) && s < |g.sentries| && OffSentry(g, pc, ch, s)
    requires pc.Waiting?
    ensures FieldsBlind(c, g, t, pc, ch, s, state, leaseId, restores)
  {
    hide Spawned, Cleaned, Flushed, Stale, Without, Reassign;
  }

  lemma FieldsBlindDrainReset(c: Params, g: Shared, t: nat, pc: Pc, ch: Choice,
                              s: nat, state: SentryState, leaseId: Option<nat>, restores: int)
    requires Refers(g, pc) && s < |g.sentries| && OffSentry(g, pc, ch, s)
    requires pc.Resetting? || pc.Counting?
    ensures FieldsBlind(c, g, t, pc, ch, s, state, leaseId, restores)
  {
    hide Spawned, Cleaned, Flushed, Stale, Without, Reassign;
  }

  lemma FieldsBlindRewarm(c: Params, g: Shared, t: nat, pc: Pc, ch: Choice,
                          s: nat, state: SentryState, leaseId: Option<nat>, restores: int)
    requires Refers(g, pc) && s < |g.sentries| && OffSentry(g, pc, ch, s) && InRewarm(pc)
    ensures FieldsBlind(c, g, t, pc, ch, s, state, leaseId, restores)
  {
    hide FieldsBlind, Refers;
    if pc.Checking? || pc.Rewarming? || pc.Readying? {
      FieldsBlindRewarmKeep(c, g, t, pc, ch, s, state, leaseId, restores);
    } else {
      FieldsBlindRewarmDiscard(c, g, t, pc, ch, s, state, leaseId, restores);
    }
  }

  lemma FieldsBlindRewarmKeep(c: Params, g: Shared, t: nat, pc: Pc, ch: Choice,
                              s: nat, state: SentryState, leaseId: Option<nat>, restores: int)
    requires Refers(g, pc) && s < |g.sentries| && OffSentry(g, pc, ch, s)
    requires pc.Checking? || pc.Rewarming? || pc.Readying?
    ensures FieldsBlind(c, g, t, pc, ch, s, state, leaseId, restores)
  {
    hide Spawned, Flushed, Stale, Without, Reassign;
  }

  lemma FieldsBlindRewarmDiscard(c: Params, g: Shared, t: nat, pc: Pc, ch: Choice,
                                 s: nat, state: SentryState, leaseId: Option<nat>, restores: int)
    requires Refers(g, pc) && s < |g.sentries| && OffSentry(g, pc, ch, s)
    requires pc.Removing? || pc.Cleaning?
    ensures FieldsBlind(c, g, t, pc, ch, s, state, leaseId, restores)
  {
    hide Spawned, Flushed, Stale, Without, Reassign;
  }

  lemma FieldsBlindRefill(c: Params, g: Shared, t: nat, pc: Pc, ch: Choice,
                          s: nat, state: SentryState, leaseId: Option<nat>, restores: int)
    requires Refers(g, pc) && s < |g.sentries| && InRefill(pc)
    ensures FieldsBlind(c, g, t, pc, ch, s, state, leaseId, restores)
  {
    hide FieldsBlind, Refers;
    if pc.RefillSpawning? || pc.RefillCleaning? {
      FieldsBlindBuild(c, g, t, pc, ch, s, state, leaseId, restores);
    } else {
      FieldsBlindAdd(c, g, t, pc, ch, s, state, leaseId, restores);
    }
  }

  lemma FieldsBlindBuild(c: Params, g: Shared, t: nat, pc: Pc, ch: Choice,
                         s: nat, state: SentryState, leaseId: Option<nat>, restores: int)
    requires Refers(g, pc) && s < |g.sentries| && (pc.RefillSpawning? || pc.RefillCleaning?)
    ensures FieldsBlind(c, g, t, pc, ch, s, state, leaseId, restores)
  {
    hide Flushed, Stale, Without, Reassign, Called;
  }

  lemma FieldsBlindAdd(c: Params, g: Shared, t: nat, pc: Pc, ch: Choice,
                       s: nat, state: SentryState, leaseId: Option<nat>, restores: int)
    requires Refers(g, pc) && s < |g.sentries| && (pc.Sizing? || pc.Refilling? || pc.RefillSpawned?)
    ensures FieldsBlind(c, g, t, pc, ch, s, state, leaseId, restores)
  {
    hide Flushed, Stale, Without, Reassign, Called, Spawned, Cleaned;
  }

  lemma FieldsBlindReap(c: Params, g: Shared, t: nat, pc: Pc, ch: Choice,
                        s: nat, state: SentryState, leaseId: Option<nat>, restores: int)
    requires Refers(g, pc) && s < |g.sentries| && OffSentry(g, pc, ch, s) && InReap(pc)
    ensures FieldsBlind(c, g, t, pc, ch, s, state, leaseId, restores)
  {
    hide FieldsBlind, Refers;
    if pc.Reaping? {
      FieldsBlindReapPass(c, g, t, pc, ch, s, state, leaseId, restores);
    } else {
      FieldsBlindReapOut(c, g, t, pc, ch, s, state, leaseId, restores);
    }
  }

  lemma FieldsBlindReapPass(c: Params, g: Shared, t: nat, pc: Pc, ch: Choice,
                            s: nat, state: SentryState, leaseId: Option<nat>, restores: int)
    requires Refers(g, pc) && s < |g.sentries| && OffSentry(g, pc, ch, s)
    requires pc.Reaping?
    ensures FieldsBlind(c, g, t, pc, ch, s, state, leaseId, restores)
  {
    PassOutside(c, g, t, pc, ch, s, OtherFields(g.sentries[s], state, leaseId, restores));
    hide Refers, Region;
  }

  // A pass leaves a sentry that is not in the list alone, whatever it is.
  lemma PassOutside(c: Params, g: Shared, t: nat, pc: Pc, ch: Choice, s: nat, x: SentryRecord)
    requires Refers(g, pc) && s < |g.sentries| && OffSentry(g, pc, ch, s) && pc.Reaping?
    ensures var o := Region(c, g, t, pc, ch);
            && s < |o.g.sentries| && o.g.sentries[s] == g.sentries[s]
            && Region(c, Set(g, s, x), t, pc, ch) == o.(g := o.g.(sentries := o.g.sentries[s := x]))
  {
    PassRegion(c, g, t, pc, ch);
    PassRegion(c, Set(g, s, x), t, pc, ch);
    hide Region, Passed, Stale;
    if Ticks(g, ch) {
      StaleSame(g, s, x, ch.idle);
      NotStale(g, s, ch.idle);
      PassedOutside(g, t, Stale(g, ch.idle), s, x);
    }
  }

  // The reaper's tick, given whom it takes out.
  function Passed(g: Shared, t: nat, out: set<nat>): Outcome {
    var evict := Without(g.list, (set x | x in g.list) - out);
    if evict == [] then Go(g, Reaping)
    else Go(g.(list := Without(g.list, out),
               sentries := Reassign(g.sentries, out, Thread(t)),
               evicted := g.evicted + |evict|),
            Evicting(evict))
  }

  lemma PassedOutside(g: Shared, t: nat, out: set<nat>, s: nat, x: SentryRecord)
    requires s < |g.sentries| && s !in out
    ensures var o := Passed(g, t, out);
            && s < |o.g.sentries| && o.g.sentries[s] == g.sentries[s]
            && Passed(Set(g, s, x), t, out) == o.(g := o.g.(sentries := o.g.sentries[s := x]))
  {
    ReassignSame(g.sentries, s, x, out, Thread(t));
    hide Without, Reassign;
  }

  lemma NotStale(g: Shared, s: nat, idle: set<nat>)
    requires Within(g.list, |g.sentries|) && s !in g.list
    ensures s !in Stale(g, idle)
  {
  }

  lemma StaleSame(g: Shared, s: nat, x: SentryRecord, idle: set<nat>)
    requires Within(g.list, |g.sentries|) && s < |g.sentries| && s !in g.list
    ensures Stale(Set(g, s, x), idle) == Stale(g, idle)
  {
  }

  lemma ReassignSame(xs: seq<SentryRecord>, s: nat, x: SentryRecord, which: set<nat>, o: Owner)
    requires s < |xs| && s !in which
    ensures Reassign(xs[s := x], which, o) == Reassign(xs, which, o)[s := x] && Reassign(xs, which, o)[s] == xs[s]
  {
  }

  lemma PassRegion(c: Params, g: Shared, t: nat, pc: Pc, ch: Choice)
    requires Refers(g, pc) && pc.Reaping?
    ensures Region(c, g, t, pc, ch) ==
            if Ticks(g, ch) then Passed(g, t, Stale(g, ch.idle)) else Go(g, Done)
  {
    hide Refers, Without, Stale, Reassign, Flushed, Cleaned;
  }

  lemma FieldsBlindReapOut(c: Params, g: Shared, t: nat, pc: Pc, ch: Choice,
                           s: nat, state: SentryState, leaseId: Option<nat>, restores: int)
    requires Refers(g, pc) && s < |g.sentries| && OffSentry(g, pc, ch, s)
    requires pc.Evicting?
    ensures FieldsBlind(c, g, t, pc, ch, s, state, leaseId, restores)
  {
    hide Without, Stale, Spawned, Flushed, Called;
  }

  lemma FieldsBlindShutdown(c: Params, g: Shared, t: nat, pc: Pc, ch: Choice,
                            s: nat, state: SentryState, leaseId: Option<nat>, restores: int)
    requires Refers(g, pc) && s < |g.sentries|
    requires !InAcquire(pc) && !InColdPath(pc) && !InServe(pc) && !InRegister(pc) && !InComplete(pc)
    requires !InDrain(pc) && !InRewarm(pc) && !InRefill(pc) && !InReap(pc)
    ensures FieldsBlind(c, g, t, pc, ch, s, state, leaseId, restores)
  {
    hide FieldsBlind, Refers;
    if pc.Cancelling? {
      FieldsBlindCancel(c, g, t, pc, ch, s, state, leaseId, restores);
    } else {
      FieldsBlindClose(c, g, t, pc, ch, s, state, leaseId, restores);
    }
  }

  lemma FieldsBlindCancel(c: Params, g: Shared, t: nat, pc: Pc, ch: Choice,
                          s: nat, state: SentryState, leaseId: Option<nat>, restores: int)
    requires Refers(g, pc) && s < |g.sentries| && pc.Cancelling?
    ensures FieldsBlind(c, g, t, pc, ch, s, state, leaseId, restores)
  {
    CancelRegion(c, g, t, pc, ch);
    CancelRegion(c, Set(g, s, OtherFields(g.sentries[s], state, leaseId, restores)), t, pc, ch);
    hide Region, Refers;
  }

  lemma CancelRegion(c: Params, g: Shared, t: nat, pc: Pc, ch: Choice)
    requires Refers(g, pc) && pc.Cancelling?
    ensures Region(c, g, t, pc, ch) ==
            Go(g.(sentries := Reassign(g.sentries, g.book.leases.Values, Orphan),
                  book := g.book.(leases := map[], cancelled := g.book.cancelled + |g.book.leases|)),
               Stopping)
  {
    hide Refers, Spawned, Cleaned, Flushed, Called, Stale, Without, Reassign;
  }

  lemma FieldsBlindClose(c: Params, g: Shared, t: nat, pc: Pc, ch: Choice,
                         s: nat, state: SentryState, leaseId: Option<nat>, restores: int)
    requires Refers(g, pc) && s < |g.sentries|
    requires pc.Stopping? || pc.Joining? || pc.Closing? || pc.Flushing? || pc.Done? || pc.Asleep?
    ensures FieldsBlind(c, g, t, pc, ch, s, state, leaseId, restores)
  {
    hide FieldsBlind, Refers;
    if pc.Flushing? && g.doomed != [] {
      FieldsBlindFlush(c, g, t, pc, ch, s, state, leaseId, restores);
    } else {
      FieldsBlindStill(c, g, t, pc, ch, s, state, leaseId, restores);
    }
  }

  lemma FieldsBlindStill(c: Params, g: Shared, t: nat, pc: Pc, ch: Choice,
                         s: nat, state: SentryState, leaseId: Option<nat>, restores: int)
    requires Refers(g, pc) && s < |g.sentries| && (pc.Flushing? ==> g.doomed == [])
    requires pc.Stopping? || pc.Joining? || pc.Closing? || pc.Flushing? || pc.Done? || pc.Asleep?
    ensures FieldsBlind(c, g, t, pc, ch, s, state, leaseId, restores)
  {
    StillRegion(c, g, t, pc, ch, g.sentries[s := OtherFields(g.sentries[s], state, leaseId, restores)]);
    hide Region, Refers;
  }

  lemma StillRegion(c: Params, g: Shared, t: nat, pc: Pc, ch: Choice, xs: seq<SentryRecord>)
    requires Refers(g, pc) && |xs| == |g.sentries| && (pc.Flushing? ==> g.doomed == [])
    requires pc.Stopping? || pc.Joining? || pc.Closing? || pc.Flushing? || pc.Done? || pc.Asleep?
    ensures var o := Region(c, g, t, pc, ch);
            && o.g.sentries == g.sentries
            && Refers(g.(sentries := xs), pc)
            && Region(c, g.(sentries := xs), t, pc, ch) == o.(g := o.g.(sentries := xs))
  {
    StillOutcome(c, g, t, pc, ch);
    StillOutcome(c, g.(sentries := xs), t, pc, ch);
    hide Region;
  }

  lemma StillOutcome(c: Params, g: Shared, t: nat, pc: Pc, ch: Choice)
    requires Refers(g, pc) && (pc.Flushing? ==> g.doomed == [])
    requires pc.Stopping? || pc.Joining? || pc.Closing? || pc.Flushing? || pc.Done? || pc.Asleep?
    ensures Region(c, g, t, pc, ch) ==
            match pc
            case Stopping => Go(g.(stopped := true), Joining)
            case Joining => Go(g, Closing)
            case Closing => Outcome(g.(closed := true, doomed := g.list, list := []), Flushing, Everybody)
            case Flushing => Go(g, Done)
            case _ => Go(g, pc)
  {
    hide Refers, Flushed, Spawned, Cleaned, Called, Stale, Without, Reassign;
  }

  lemma FieldsBlindFlush(c: Params, g: Shared, t: nat, pc: Pc, ch: Choice,
                         s: nat, state: SentryState, leaseId: Option<nat>, restores: int)
    requires Refers(g, pc) && s < |g.sentries| && pc.Flushing? && g.doomed != []
    ensures FieldsBlind(c, g, t, pc, ch, s, state, leaseId, restores)
  {
    FlushRegion(c, g, t, pc, ch);
    FlushRegion(c, Set(g, s, OtherFields(g.sentries[s], state, leaseId, restores)), t, pc, ch);
    hide Region, Refers;
  }

  lemma FlushRegion(c: Params, g: Shared, t: nat, pc: Pc, ch: Choice)
    requires Refers(g, pc) && pc.Flushing? && g.doomed != []
    ensures Region(c, g, t, pc, ch) ==
            Go(Set(g, g.doomed[0], Flushed(g.sentries[g.doomed[0]])).(doomed := g.doomed[1..]), Flushing)
  {
  }

  // ---- the readers ---------------------------------------------------------

  // Status looks at the list, and at each member under its own mutex, while it
  // holds the pool's, and then at the lease table; Healthy looks at as many members
  // as it needs.
  lemma ReadersGuarded(list: seq<nat>)
    ensures StatusLocks(list) == HealthyLocks(list) + [Take(LeaseMu), Drop(LeaseMu)]
    ensures var ops := HealthyLocks(list);
            && |ops| == 2 * |list| + 2 && ops[0] == Take(PoolMu) && ops[|ops| - 1] == Drop(PoolMu)
            && forall i :: 0 <= i < |list| ==> ops[2 * i + 1] == Take(SentryMu(list[i]))
  {
    LooksInOrder(list);
  }

  lemma {:induction false} LooksInOrder(xs: seq<nat>)
    ensures |Looks(xs)| == 2 * |xs|
    ensures forall i :: 0 <= i < |xs| ==> Looks(xs)[2 * i] == Take(SentryMu(xs[i]))
  {
    if xs != [] {
      LooksInOrder(xs[1..]);
      forall i | 0 <= i < |xs| ensures Looks(xs)[2 * i] == Take(SentryMu(xs[i])) {
        if i > 0 {
          assert Looks(xs[1..])[2 * (i - 1)] == Take(SentryMu(xs[1..][i - 1]));
        }
      }
    }
  }
}
