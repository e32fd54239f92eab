// What the longer methods of the pool do when nothing interferes, as functions
// of the shared state, and that each is a path of one thread.
module Effects {
  import opened Basics
  import opened Protocol
  import opened Solo
  import opened Stretches

  // A new state and the calls made on the condition variable.
  datatype Effect = Effect(g: Shared, calls: seq<Wake>)

  lemma SetTwice(g: Shared, s: nat, x: SentryRecord, y: SentryRecord)
    requires s < |g.sentries|
    ensures Set(Set(g, s, x), s, y) == Set(g, s, y)
  {
    assert g.sentries[s := x][s := y] == g.sentries[s := y];
  }

  // ---- the cold path ------------------------------------------------------

  function ColdSpawn(c: Params, g: Shared, t: nat, r: Request, ok: bool): Outcome {
    var n := |g.sentries|;
    var h := WithSpawned(c, g, t, ok).(pending := g.pending - 1);
    var x := h.sentries[n];
    if !ok then Go(h, Done)
    else if g.closed then Go(Set(h, n, Cleaned(x)), Done)
    else Go(Set(h, n, x.(state := Running)).(list := g.list + [n]), Acquired(r, n))
  }

  lemma ColdSpawnReaches(c: Params, t: nat, g: Shared, r: Request, ok: bool)
    requires Sound(g)
    ensures var o := ColdSpawn(c, g, t, r, ok); Reaches(c, t, g, ColdStart(r), o.g, o.pc, [])
  {
    hide Reaches, Spawned, Cleaned, NewSentry;
    var n := |g.sentries|;
    var h := WithSpawned(c, g, t, ok);
    var o := ColdSpawn(c, g, t, r, ok);
    SpawnColdReaches(c, t, g, r, ok);
    if !ok {
      Then(c, t, g, ColdStart(r), h, ColdFailed, [], AnyCase(true), o);
    } else if g.closed {
      var k := h.(pending := g.pending - 1);
      Then(c, t, g, ColdStart(r), h, ColdSpawned(r, n), [], AnyCase(true), Go(k, ColdCleaning(n)));
      Then(c, t, g, ColdStart(r), k, ColdCleaning(n), [], AnyCase(true), o);
    } else {
      Then(c, t, g, ColdStart(r), h, ColdSpawned(r, n), [], AnyCase(true), o);
    }
  }

  // ---- refill -------------------------------------------------------------

  // One iteration: the new sentry becomes a member, unless the spawn failed or
  // the pool has closed.
  function Replaced(c: Params, g: Shared, t: nat, ok: bool): Effect {
    var n := |g.sentries|;
    var h := WithSpawned(c, g, t, ok);
    var x := h.sentries[n];
    if !ok then Effect(h.(failed := g.failed + 1), [])
    else if g.closed then Effect(Set(h, n, Cleaned(x)), [])
    else Effect(Set(h, n, x.(owner := Idle)).(list := g.list + [n]), [One])
  }

  // k spawns from the i-th on; spawns(i) says whether the i-th succeeds.
  function Refilled(c: Params, g: Shared, t: nat, spawns: nat -> bool, i: nat, k: nat): Effect
    decreases k
  {
    if k == 0 then Effect(g, [])
    else
      var e := Replaced(c, g, t, spawns(i));
      if spawns(i) && g.closed then e
      else
        var f := Refilled(c, e.g, t, spawns, i + 1, k - 1);
        Effect(f.g, e.calls + f.calls)
  }

  // Calls made before an effect.
  function After(calls: seq<Wake>, e: Effect): Effect {
    Effect(e.g, calls + e.calls)
  }

  lemma RefilledStep(c: Params, g: Shared, t: nat, spawns: nat -> bool, i: nat, k: nat, log: seq<Wake>)
    ensures k == 0 ==> After(log, Refilled(c, g, t, spawns, i, k)) == Effect(g, log)
    ensures k > 0 ==>
              var e := After(log, Replaced(c, g, t, spawns(i)));
              After(log, Refilled(c, g, t, spawns, i, k)) ==
              if spawns(i) && g.closed then e else After(e.calls, Refilled(c, e.g, t, spawns, i + 1, k - 1))
  {
    if k == 0 {
      assert log + [] == log;
    } else {
      var e := Replaced(c, g, t, spawns(i));
      var f := Refilled(c, e.g, t, spawns, i + 1, k - 1);
      assert log + (e.calls + f.calls) == (log + e.calls) + f.calls;
    }
  }

  lemma {:induction false} RefilledReaches(c: Params, t: nat, g: Shared, spawns: nat -> bool, i: nat, k: nat)
    requires Sound(g)
    ensures var e := Refilled(c, g, t, spawns, i, k);
            Reaches(c, t, g, Refilling(k), e.g.(joining := g.joining - 1), Done, e.calls)
    decreases k
  {
    hide Reaches, Spawned, Cleaned, NewSentry;
    var n := |g.sentries|;
    var ok := spawns(i);
    var h := WithSpawned(c, g, t, ok).(failed := g.failed + Bit(!ok));
    var e := Refilled(c, g, t, spawns, i, k);
    if k == 0 {
      Single(c, t, g, Refilling(0), AnyCase(true), Go(g.(joining := g.joining - 1), Done));
    } else {
      RefillSpawnReaches(c, t, g, k - 1, ok);
      if !ok {
        RefilledReaches(c, t, h, spawns, i + 1, k - 1);
        var f := Refilled(c, h, t, spawns, i + 1, k - 1);
        assert h == Replaced(c, g, t, ok).g;
        assert e.g == f.g && e.calls == [] + f.calls == f.calls;
        Chain(c, t, g, Refilling(k), h, Refilling(k - 1), [], e.g.(joining := g.joining - 1), Done, e.calls);
      } else if g.closed {
        LateRefill(c, t, g, spawns, i, k);
      } else {
        RefilledTail(c, t, g, spawns, i, k);
      }
    }
  }

  lemma LateRefill(c: Params, t: nat, g: Shared, spawns: nat -> bool, i: nat, k: nat)
    requires Sound(g) && k > 0 && spawns(i) && g.closed
    ensures var e := Refilled(c, g, t, spawns, i, k);
            Reaches(c, t, g, Refilling(k), e.g.(joining := g.joining - 1), Done, e.calls)
  {
    hide Reaches, Spawned, Cleaned, NewSentry;
    var n := |g.sentries|;
    var h := WithSpawned(c, g, t, true);
    assert h == h.(failed := g.failed + Bit(false));
    RefillSpawnReaches(c, t, g, k - 1, true);
    LateSpawnReaches(c, t, h, k - 1, n);
    var end := Set(h, n, Cleaned(h.sentries[n])).(joining := g.joining - 1);
    hide WithSpawned;
    Chain(c, t, g, Refilling(k), h, RefillSpawned(k - 1, n), [], end, Done, []);
  }

  // A spawn that comes back after the close.
  lemma LateSpawnReaches(c: Params, t: nat, g: Shared, k: nat, s: nat)
    requires Sound(g) && g.closed && s < |g.sentries|
    ensures Reaches(c, t, g, RefillSpawned(k, s),
                    Set(g, s, Cleaned(g.sentries[s])).(joining := g.joining - 1), Done, [])
  {
    hide Reaches, Cleaned;
    var end := Set(g, s, Cleaned(g.sentries[s])).(joining := g.joining - 1);
    Single(c, t, g, RefillSpawned(k, s), AnyCase(true), Go(g, RefillCleaning(s)));
    Then(c, t, g, RefillSpawned(k, s), g, RefillCleaning(s), [], AnyCase(true), Go(end, Done));
  }

  lemma RefilledTail(c: Params, t: nat, g: Shared, spawns: nat -> bool, i: nat, k: nat)
    requires Sound(g) && k > 0 && spawns(i) && !g.closed
    ensures var e := Refilled(c, g, t, spawns, i, k);
            Reaches(c, t, g, Refilling(k), e.g.(joining := g.joining - 1), Done, e.calls)
    decreases k, 0
  {
    hide Reaches, Spawned, Cleaned, NewSentry;
    var n := |g.sentries|;
    var h := WithSpawned(c, g, t, true);
    assert h == h.(failed := g.failed + Bit(false));
    var e := Refilled(c, g, t, spawns, i, k);
    var m := Set(h, n, h.sentries[n].(owner := Idle)).(list := g.list + [n]);
    RefillSpawnReaches(c, t, g, k - 1, true);
    Then(c, t, g, Refilling(k), h, RefillSpawned(k - 1, n), [], AnyCase(true), Outcome(m, Refilling(k - 1), One));
    assert [] + CallOf(Outcome(m, Refilling(k - 1), One)) == [One];
    RefilledReaches(c, t, m, spawns, i + 1, k - 1);
    var f := Refilled(c, m, t, spawns, i + 1, k - 1);
    Chain(c, t, g, Refilling(k), m, Refilling(k - 1), [One], f.g.(joining := g.joining - 1), Done, f.calls);
  }

  // ---- recycle ------------------------------------------------------------

  // Take a sentry out of the list, clean it up, and refill the shortfall.
  function Discarded(c: Params, g: Shared, t: nat, s: nat, spawns: nat -> bool): Effect
    requires s < |g.sentries|
  {
    var h := Set(g.(list := Without(g.list, {s})), s, Cleaned(g.sentries[s]));
    Refilled(c, h, t, spawns, 0, Shortfall(c, h))
  }

  lemma DiscardedReaches(c: Params, t: nat, g: Shared, s: nat, spawns: nat -> bool)
    requires Sound(g) && s < |g.sentries|
    ensures var e := Discarded(c, g, t, s, spawns);
            Reaches(c, t, g, Removing(s), e.g.(joining := g.joining - 1), Done, e.calls)
  {
    hide Reaches, Cleaned, Refilled, Without;
    var h := Set(g.(list := Without(g.list, {s})), s, Cleaned(g.sentries[s]));
    var e := Discarded(c, g, t, s, spawns);
    RemovedReaches(c, t, g, s);
    RefilledReaches(c, t, h, spawns, 0, Shortfall(c, h));
    Chain(c, t, g, Removing(s), h, Refilling(Shortfall(c, h)), [], e.g.(joining := g.joining - 1), Done, e.calls);
  }

  // Remove, clean up, and size the refill.
  lemma RemovedReaches(c: Params, t: nat, g: Shared, s: nat)
    requires Sound(g) && s < |g.sentries|
    ensures var h := Set(g.(list := Without(g.list, {s})), s, Cleaned(g.sentries[s]));
            Sound(h) && Reaches(c, t, g, Removing(s), h, Refilling(Shortfall(c, h)), [])
  {
    hide Reaches, Cleaned;
    var k := g.(list := Without(g.list, {s}));
    var h := Set(k, s, Cleaned(g.sentries[s]));
    assert forall i :: 0 <= i < |k.list| ==> k.list[i] in g.list;
    assert Sound(k);
    hide Without;
    Single(c, t, g, Removing(s), AnyCase(true), Go(k, Cleaning(s)));
    CleanedReaches(c, t, k, s);
    Chain(c, t, g, Removing(s), k, Cleaning(s), [], h, Refilling(Shortfall(c, h)), []);
  }

  lemma CleanedReaches(c: Params, t: nat, g: Shared, s: nat)
    requires Sound(g) && s < |g.sentries|
    ensures var h := Set(g, s, Cleaned(g.sentries[s]));
            Sound(h) && Reaches(c, t, g, Cleaning(s), h, Refilling(Shortfall(c, h)), [])
  {
    hide Reaches, Cleaned;
    var h := Set(g, s, Cleaned(g.sentries[s]));
    Single(c, t, g, Cleaning(s), AnyCase(true), Go(h, Sizing));
    Then(c, t, g, Cleaning(s), h, Sizing, [], AnyCase(true), Go(h, Refilling(Shortfall(c, h))));
  }

  // How the runtime calls of one recycle turn out: whether the guest exits
  // within the grace period, whether reset and restore succeed, whether the
  // health readings are within limits, and which spawns succeed.
  datatype Luck = Luck(exits: bool, resets: bool, fit: bool, restores: bool, spawns: nat -> bool)

  // The sentry after the signals and the wait.
  function Emptied(x: SentryRecord, exits: bool): SentryRecord {
    var y := Called(x.(state := Draining, leaseId := None), Term);
    Called(if exits then y else Called(Called(y, Overdue), Kill), Exit)
  }

  // TERM; and if the guest has not exited within the grace period, KILL.
  function Signals(exits: bool): seq<Call> {
    if exits then [Term, Exit] else [Term, Overdue, Kill, Exit]
  }

  function WasReset(x: SentryRecord, ok: bool): SentryRecord {
    Called(x, Reset(ok)).(restores := x.restores + Bit(ok))
  }

  function Rewarmed(c: Params, x: SentryRecord, ok: bool): SentryRecord {
    Called(x, Restore(c.checkpoint, ok))
  }

  // From the end of recycle back to its start: restore, reset, kill.
  function Rearmed(c: Params, g: Shared, t: nat, s: nat, luck: Luck): Effect
    requires s < |g.sentries|
  {
    var h := Set(g, s, Rewarmed(c, g.sentries[s], luck.restores));
    if !luck.restores then Discarded(c, h, t, s, luck.spawns)
    else Effect(Set(h, s, h.sentries[s].(state := Ready, owner := Idle)), [One])
  }

  function Judged(c: Params, g: Shared, t: nat, s: nat, luck: Luck): Effect
    requires s < |g.sentries|
  {
    if !luck.resets || !PassesHealthCheck(g.sentries[s].restores, c.maxRestores, luck.fit) then
      Discarded(c, g, t, s, luck.spawns)
    else Rearmed(c, g, t, s, luck)
  }

  function ResetAndRearmed(c: Params, g: Shared, t: nat, s: nat, luck: Luck): Effect
    requires s < |g.sentries|
  {
    Judged(c, Set(g, s, WasReset(g.sentries[s], luck.resets)), t, s, luck)
  }

  function Recycled(c: Params, g: Shared, t: nat, s: nat, luck: Luck): Effect
    requires s < |g.sentries|
  {
    var h := Set(g, s, Emptied(g.sentries[s], luck.exits));
    if !c.warm then Discarded(c, h, t, s, luck.spawns)
    else ResetAndRearmed(c, h, t, s, luck)
  }

  lemma EmptiedReaches(c: Params, t: nat, g: Shared, s: nat, exits: bool)
    requires Sound(g) && s < |g.sentries|
    ensures Reaches(c, t, g, Recycling(s), Set(g, s, Emptied(g.sentries[s], exits)),
                    if c.warm then Resetting(s) else Removing(s), [])
  {
    hide Reaches;
    var z := Emptied(g.sentries[s], exits);
    var x := g.sentries[s].(state := Draining, leaseId := None);
    var y := Called(x, Term);
    var gx, gy, gz := Set(g, s, x), Set(g, s, y), Set(g, s, z);
    SetTwice(g, s, x, y);
    Single(c, t, g, Recycling(s), AnyCase(true), Go(gx, Killing(s)));
    Then(c, t, g, Recycling(s), gx, Killing(s), [], AnyCase(true), Go(gy, Waiting(s, false)));
    WaitReaches(c, t, g, s, y, exits);
    var pc := if c.warm then Resetting(s) else Removing(s);
    Chain(c, t, g, Recycling(s), gy, Waiting(s, false), [], gz, pc, []);
  }

  lemma WaitReaches(c: Params, t: nat, g: Shared, s: nat, y: SentryRecord, exits: bool)
    requires Sound(g) && s < |g.sentries|
    ensures var z := Called(if exits then y else Called(Called(y, Overdue), Kill), Exit);
            Reaches(c, t, Set(g, s, y), Waiting(s, false), Set(g, s, z),
                    if c.warm then Resetting(s) else Removing(s), [])
  {
    hide Reaches, Called;
    var h := Set(g, s, y);
    var pc := if c.warm then Resetting(s) else Removing(s);
    if exits {
      SetTwice(g, s, y, Called(y, Exit));
      Single(c, t, h, Waiting(s, false), AnyCase(true), Go(Set(g, s, Called(y, Exit)), pc));
    } else {
      var k := Called(Called(y, Overdue), Kill);
      SetTwice(g, s, y, k);
      SetTwice(g, s, k, Called(k, Exit));
      Single(c, t, h, Waiting(s, false), AnyCase(false), Go(Set(g, s, k), Waiting(s, true)));
      Then(c, t, h, Waiting(s, false), Set(g, s, k), Waiting(s, true), [], AnyCase(true),
           Go(Set(g, s, Called(k, Exit)), pc));
    }
  }

  lemma ResetReaches(c: Params, t: nat, g: Shared, s: nat, ok: bool)
    requires Sound(g) && s < |g.sentries|
    ensures Reaches(c, t, g, Resetting(s), Set(g, s, WasReset(g.sentries[s], ok)),
                    if ok then Checking(s) else Removing(s), [])
  {
    hide Reaches;
    var x := Called(g.sentries[s], Reset(ok));
    var y := WasReset(g.sentries[s], ok);
    SetTwice(g, s, x, y);
    if ok {
      Single(c, t, g, Resetting(s), AnyCase(true), Go(Set(g, s, x), Counting(s)));
      Then(c, t, g, Resetting(s), Set(g, s, x), Counting(s), [], AnyCase(true), Go(Set(g, s, y), Checking(s)));
    } else {
      Single(c, t, g, Resetting(s), AnyCase(false), Go(Set(g, s, y), Removing(s)));
    }
  }

  // From the restore to the Signal, or to the end of the refill.
  lemma RearmedReaches(c: Params, t: nat, g: Shared, s: nat, luck: Luck)
    requires Sound(g) && s < |g.sentries|
    ensures var e := Rearmed(c, g, t, s, luck);
            Reaches(c, t, g, Rewarming(s), e.g.(joining := g.joining - 1), Done, e.calls)
  {
    hide Reaches, Called, Discarded;
    var e := Rearmed(c, g, t, s, luck);
    var h := Set(g, s, Rewarmed(c, g.sentries[s], luck.restores));
    var pc := if luck.restores then Readying(s) else Removing(s);
    var end := e.g.(joining := g.joining - 1);
    Single(c, t, g, Rewarming(s), AnyCase(luck.restores), Go(h, pc));
    if luck.restores {
      Then(c, t, g, Rewarming(s), h, Readying(s), [], AnyCase(true), Go(e.g, Signalling(true)));
      Then(c, t, g, Rewarming(s), e.g, Signalling(true), [], AnyCase(true), Outcome(end, Done, One));
      assert [] + CallOf(Outcome(end, Done, One)) == [One];
    } else {
      DiscardedReaches(c, t, h, s, luck.spawns);
      Chain(c, t, g, Rewarming(s), h, Removing(s), [], end, Done, e.calls);
    }
  }

  lemma ResetAndRearmedReaches(c: Params, t: nat, g: Shared, s: nat, luck: Luck)
    requires Sound(g) && s < |g.sentries|
    ensures var e := ResetAndRearmed(c, g, t, s, luck);
            Reaches(c, t, g, Resetting(s), e.g.(joining := g.joining - 1), Done, e.calls)
  {
    hide Reaches, Discarded, Rearmed, WasReset;
    var e := ResetAndRearmed(c, g, t, s, luck);
    var h := Set(g, s, WasReset(g.sentries[s], luck.resets));
    var end := e.g.(joining := g.joining - 1);
    ResetReaches(c, t, g, s, luck.resets);
    if !luck.resets {
      DiscardedReaches(c, t, h, s, luck.spawns);
      Chain(c, t, g, Resetting(s), h, Removing(s), [], end, Done, e.calls);
    } else {
      var ok := PassesHealthCheck(h.sentries[s].restores, c.maxRestores, luck.fit);
      var pc := if ok then Rewarming(s) else Removing(s);
      Then(c, t, g, Resetting(s), h, Checking(s), [], AnyCase(luck.fit), Go(h, pc));
      if ok {
        RearmedReaches(c, t, h, s, luck);
      } else {
        DiscardedReaches(c, t, h, s, luck.spawns);
      }
      Chain(c, t, g, Resetting(s), h, pc, [], end, Done, e.calls);
    }
  }

  // recycle, whatever its luck, is a path from its call to the end of the
  // goroutine that runs it.
  lemma RecycledReaches(c: Params, t: nat, g: Shared, s: nat, luck: Luck)
    requires Sound(g) && s < |g.sentries|
    ensures var e := Recycled(c, g, t, s, luck);
            Reaches(c, t, g, Recycling(s), e.g.(joining := g.joining - 1), Done, e.calls)
  {
    hide Reaches, Discarded, Emptied, ResetAndRearmed;
    var e := Recycled(c, g, t, s, luck);
    var h := Set(g, s, Emptied(g.sentries[s], luck.exits));
    var end := e.g.(joining := g.joining - 1);
    EmptiedReaches(c, t, g, s, luck.exits);
    if c.warm {
      ResetAndRearmedReaches(c, t, h, s, luck);
      Chain(c, t, g, Recycling(s), h, Resetting(s), [], end, Done, e.calls);
    } else {
      DiscardedReaches(c, t, h, s, luck.spawns);
      Chain(c, t, g, Recycling(s), h, Removing(s), [], end, Done, e.calls);
    }
  }
}
