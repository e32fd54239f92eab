// Stretches of code that a method of the class layer covers in one call, as
// paths of one thread.
module Stretches {
  import opened Basics
  import opened Protocol
  import opened Solo

  // From the free lock, nothing that a region follows is out of range.
  ghost predicate Sound(g: Shared) {
    g.lock.None? && Refers(g, Done)
  }

  function AnyCase(ok: bool): Choice { Choice(ok, {}, 0) }

  // One region, on its own.
  lemma Single(c: Params, t: nat, g: Shared, pc: Pc, ch: Choice, o: Outcome)
    requires Runs(g, t, pc, ch) && o == Region(c, g, t, pc, ch)
    ensures Reaches(c, t, g, pc, o.g, o.pc, CallOf(o))
  {
    hide Reaches, Region, Refers, CanRun;
    Stays(c, t, g, pc);
    Then(c, t, g, pc, g, pc, [], ch, o);
    assert [] + CallOf(o) == CallOf(o);
  }

  // A scan passes over members that are not Ready.
  lemma {:induction false} ScanReaches(c: Params, t: nat, g: Shared, r: Request, queued: bool, k: nat)
    requires Sound(g) && k <= |g.list|
    requires forall j :: 0 <= j < k ==> !g.sentries[g.list[j]].state.Ready?
    ensures var h := g.(lock := Some(t));
            Reaches(c, t, h, Scanning(r, 0, queued), h, Scanning(r, k, queued), [])
  {
    var h := g.(lock := Some(t));
    hide Reaches;
    if k == 0 {
      Stays(c, t, h, Scanning(r, 0, queued));
    } else {
      ScanReaches(c, t, g, r, queued, k - 1);
      var o := Go(h, Scanning(r, k, queued));
      assert !g.sentries[g.list[k - 1]].state.Ready?;
      Then(c, t, h, Scanning(r, 0, queued), h, Scanning(r, k - 1, queued), [], AnyCase(true), o);
    }
  }

  function Caller(r: Request, queued: bool): Pc {
    if queued then Woken(r) else Entering(r)
  }

  // Entering acquire, or waking up in it, up to the scan's k-th member.
  lemma EnterReaches(c: Params, t: nat, g: Shared, r: Request, queued: bool, k: nat)
    requires Sound(g) && !g.closed && k <= |g.list|
    requires forall j :: 0 <= j < k ==> !g.sentries[g.list[j]].state.Ready?
    ensures Reaches(c, t, g, Caller(r, queued), g.(lock := Some(t)), Scanning(r, k, queued), [])
  {
    var h := g.(lock := Some(t));
    Single(c, t, g, Caller(r, queued), AnyCase(true), Go(h, Scanning(r, 0, queued)));
    hide Reaches;
    ScanReaches(c, t, g, r, queued, k);
    Chain(c, t, g, Caller(r, queued), h, Scanning(r, 0, queued), [], h, Scanning(r, k, queued), []);
  }

  function Taken(g: Shared, s: nat, t: nat): Shared
    requires s < |g.sentries|
  {
    Set(g, s, g.sentries[s].(state := Running, owner := Thread(t)))
  }

  // The whole region, when the scan finds a Ready member.
  lemma FoundReaches(c: Params, t: nat, g: Shared, r: Request, queued: bool, k: nat)
    requires Sound(g) && !g.closed && k < |g.list| && g.sentries[g.list[k]].state.Ready?
    requires forall j :: 0 <= j < k ==> !g.sentries[g.list[j]].state.Ready?
    ensures Reaches(c, t, g, Caller(r, queued),
                    Taken(g, g.list[k], t).(pending := g.pending - Bit(queued)), Acquired(r, g.list[k]), [])
  {
    EnterReaches(c, t, g, r, queued, k);
    var o := Go(Taken(g, g.list[k], t).(pending := g.pending - Bit(queued)), Acquired(r, g.list[k]));
    hide Reaches;
    Then(c, t, g, Caller(r, queued), g.(lock := Some(t)), Scanning(r, k, queued), [], AnyCase(true), o);
  }

  // The position of the first Ready member from i on, or the list's length.
  ghost function FirstReady(g: Shared, i: nat): (k: nat)
    requires Within(g.list, |g.sentries|) && i <= |g.list|
    ensures i <= k <= |g.list| && (k < |g.list| ==> g.sentries[g.list[k]].state.Ready?)
    ensures forall j :: i <= j < k ==> !g.sentries[g.list[j]].state.Ready?
    decreases |g.list| - i
  {
    if i == |g.list| || g.sentries[g.list[i]].state.Ready? then i else FirstReady(g, i + 1)
  }

  // What a caller does when no member is Ready.
  function Turned(c: Params, g: Shared, r: Request, queued: bool): Outcome {
    if queued then Go(g, Asleep(r))
    else if |g.list| == 0 then Go(g.(pending := g.pending + 1), ColdStart(r))
    else if g.pending >= QueueLimit(c) then Go(g, Done)
    else Go(g.(pending := g.pending + 1), Asleep(r))
  }

  lemma NoneReaches(c: Params, t: nat, g: Shared, r: Request, queued: bool)
    requires Sound(g) && !g.closed
    requires forall j :: 0 <= j < |g.list| ==> !g.sentries[g.list[j]].state.Ready?
    ensures var o := Turned(c, g, r, queued); Reaches(c, t, g, Caller(r, queued), o.g, o.pc, [])
  {
    EnterReaches(c, t, g, r, queued, |g.list|);
    var h := g.(lock := Some(t));
    assert h.(lock := None) == g;
    hide Reaches;
    Then(c, t, g, Caller(r, queued), h, Scanning(r, |g.list|, queued), [], AnyCase(true), Turned(c, g, r, queued));
  }

  // One turn of a caller in acquire: from taking the lock to leaving it.
  ghost function Turn(c: Params, g: Shared, t: nat, r: Request, queued: bool): Outcome
    requires Sound(g)
  {
    if g.closed then Go(g.(pending := g.pending - Bit(queued)), Done)
    else
      var k := FirstReady(g, 0);
      if k < |g.list| then
        Go(Taken(g, g.list[k], t).(pending := g.pending - Bit(queued)), Acquired(r, g.list[k]))
      else Turned(c, g, r, queued)
  }

  lemma TurnReaches(c: Params, t: nat, g: Shared, r: Request, queued: bool)
    requires Sound(g)
    ensures var o := Turn(c, g, t, r, queued); Reaches(c, t, g, Caller(r, queued), o.g, o.pc, [])
  {
    hide Reaches;
    if g.closed {
      Single(c, t, g, Caller(r, queued), AnyCase(true), Turn(c, g, t, r, queued));
    } else if FirstReady(g, 0) < |g.list| {
      FoundReaches(c, t, g, r, queued, FirstReady(g, 0));
    } else {
      NoneReaches(c, t, g, r, queued);
    }
  }

  ghost predicate AnyReady(g: Shared)
    requires Within(g.list, |g.sentries|)
  {
    exists i :: 0 <= i < |g.list| && g.sentries[g.list[i]].state.Ready?
  }

  // Who gets what in a turn: a sentry exactly if the pool is open and some member
  // is Ready, and then the first one; a fresh caller goes cold exactly on an empty
  // list, and waits exactly if the queue has room; pending counts those who stay.
  lemma TurnOutcome(c: Params, g: Shared, t: nat, r: Request, queued: bool)
    requires Sound(g)
    ensures var o := Turn(c, g, t, r, queued);
            && (o.pc.Acquired? <==> !g.closed && AnyReady(g))
            && (o.pc.Acquired? ==>
                  exists i :: 0 <= i < |g.list| && g.list[i] == o.pc.s && o.g.sentries[o.pc.s].state.Running?
                    && forall j :: 0 <= j < i ==> !g.sentries[g.list[j]].state.Ready?)
            && (o.pc.ColdStart? <==> !g.closed && !queued && g.list == [])
            && (o.pc.Asleep? <==>
                  !g.closed && !AnyReady(g) && (queued || (g.list != [] && g.pending < QueueLimit(c))))
            && o.g.pending == g.pending - Bit(queued) + Bit(o.pc.Asleep? || o.pc.ColdStart?)
            && o.g.list == g.list && o.g.closed == g.closed
            && |o.g.sentries| == |g.sentries|
            && forall s :: 0 <= s < |g.sentries| && !(o.pc.Acquired? && s == o.pc.s) ==>
                 o.g.sentries[s] == g.sentries[s]
  {
    if !g.closed {
      var k := FirstReady(g, 0);
      assert k < |g.list| ==> g.sentries[g.list[k]].state.Ready?;
    }
  }

  // ---- spawn --------------------------------------------------------------

  function WithSpawned(c: Params, g: Shared, t: nat, ok: bool): Shared {
    g.(sentries := g.sentries + [Spawned(c, NewSentry(t), ok)])
  }

  lemma SpawnColdReaches(c: Params, t: nat, g: Shared, r: Request, ok: bool)
    requires Sound(g)
    ensures Reaches(c, t, g, ColdStart(r), WithSpawned(c, g, t, ok),
                    if ok then ColdSpawned(r, |g.sentries|) else ColdFailed, [])
  {
    var n := |g.sentries|;
    var h := g.(sentries := g.sentries + [NewSentry(t)]);
    var k := WithSpawned(c, g, t, ok);
    assert k == Set(h, n, Spawned(c, NewSentry(t), ok)) by {
      assert h.sentries[n := Spawned(c, NewSentry(t), ok)] == k.sentries;
    }
    Single(c, t, g, ColdStart(r), AnyCase(true), Go(h, ColdSpawning(r, n)));
    var pc := if ok then ColdSpawned(r, n) else ColdFailed;
    Then(c, t, g, ColdStart(r), h, ColdSpawning(r, n), [], AnyCase(ok), Go(k, pc));
  }

  lemma RefillSpawnReaches(c: Params, t: nat, g: Shared, k: nat, ok: bool)
    requires Sound(g)
    ensures Reaches(c, t, g, Refilling(k + 1), WithSpawned(c, g, t, ok).(failed := g.failed + Bit(!ok)),
                    if ok then RefillSpawned(k, |g.sentries|) else Refilling(k), [])
  {
    var n := |g.sentries|;
    var h := g.(sentries := g.sentries + [NewSentry(t)]);
    var e := WithSpawned(c, g, t, ok).(failed := g.failed + Bit(!ok));
    assert h.sentries[n := Spawned(c, NewSentry(t), ok)] == e.sentries;
    Single(c, t, g, Refilling(k + 1), AnyCase(true), Go(h, RefillSpawning(k, n)));
    var pc := if ok then RefillSpawned(k, n) else Refilling(k);
    Then(c, t, g, Refilling(k + 1), h, RefillSpawning(k, n), [], AnyCase(ok), Go(e, pc));
  }
}
