// A caller's request is its own from its call to its lease: waiting, being woken
// and spawning change nothing about it.
module Requests {
  import opened Basics
  import opened Protocol
  import opened System
  import Leases
  import Ownership

  // The request that a thread is working on.
  function RequestOf(pc: Pc): Option<Request> {
    match pc
    case Entering(r) => Some(r)
    case Scanning(r, _, _) => Some(r)
    case Asleep(r) => Some(r)
    case Woken(r) => Some(r)
    case ColdStart(r) => Some(r)
    case ColdSpawning(r, _) => Some(r)
    case ColdSpawned(r, _) => Some(r)
    case Acquired(r, _) => Some(r)
    case Restoring(r, _) => Some(r)
    case Restored(r, _) => Some(r)
    case Counted(r, _) => Some(r)
    case Leasing(r, _, _) => Some(r)
    case _ => None
  }

  // The thread still has that request, or none.
  predicate Keeps(pc: Pc, r: Request) {
    RequestOf(pc).Some? ==> RequestOf(pc).value == r
  }

  lemma RegionKeeps(c: Params, g: Shared, t: nat, pc: Pc, ch: Choice, r: Request)
    requires Runs(g, t, pc, ch) && Keeps(pc, r)
    ensures Keeps(Region(c, g, t, pc, ch).pc, r)
  {
    hide Keeps;
    if InAcquire(pc) || InColdPath(pc) || InServe(pc) {
      CallKeeps(c, g, t, pc, ch, r);
    } else {
      OthersNone(c, g, t, pc, ch, r);
    }
  }

  lemma CallKeeps(c: Params, g: Shared, t: nat, pc: Pc, ch: Choice, r: Request)
    requires Runs(g, t, pc, ch) && Keeps(pc, r) && (InAcquire(pc) || InColdPath(pc) || InServe(pc))
    ensures Keeps(Region(c, g, t, pc, ch).pc, r)
  {
    hide Refers, Reassign, Spawned, Cleaned, Flushed, Called, Stale, Without;
  }

  lemma OthersNone(c: Params, g: Shared, t: nat, pc: Pc, ch: Choice, r: Request)
    requires Runs(g, t, pc, ch) && !InAcquire(pc) && !InColdPath(pc) && !InServe(pc)
    ensures Keeps(Region(c, g, t, pc, ch).pc, r)
  {
    hide Refers, Reassign, Spawned, Cleaned, Flushed, Called, Stale, Without;
  }

  lemma StepKeeps(c: Params, a: State, b: State, u: nat, ch: Choice, t: nat, r: Request)
    requires Step(c, a, b, u, ch) && t < |a.threads| && Keeps(a.threads[t], r)
    ensures t < |b.threads| && Keeps(b.threads[t], r)
  {
    RegionKeeps(c, a.g, u, a.threads[u], ch, if u == t then r else Owned(a.threads[u]));
    AfterStep(c, a, b, u, ch, t);
    hide Region, Refers, CanRun;
    assert |b.threads| == |a.threads|;
  }

  function Owned(pc: Pc): Request {
    if RequestOf(pc).Some? then RequestOf(pc).value else None
  }

  lemma {:induction false} RunKeeps(c: Params, run: seq<State>, i: nat, j: nat, t: nat, r: Request)
    requires IsRun(c, run) && i <= j < |run| && t < |run[i].threads| && Keeps(run[i].threads[t], r)
    ensures t < |run[j].threads| && Keeps(run[j].threads[t], r)
    decreases j - i
  {
    hide Arrival, Step;
    if i < j {
      assert Next(c, run[i], run[i + 1]);
      if Arrival(run[i], run[i + 1]) {
        Leases.ArrivalBook(run[i], run[i + 1]);
        assert run[i + 1].threads[..|run[i].threads|][t] == run[i].threads[t];
      } else {
        var u: nat, ch :| Step(c, run[i], run[i + 1], u, ch);
        StepKeeps(c, run[i], run[i + 1], u, ch, t, r);
      }
      RunKeeps(c, run, i + 1, j, t, r);
    }
  }

  // Over any run, the lease that a call registers is for the request it came with,
  // however often it slept and was woken in between: the guest was last restored
  // from the checkpoint of that very request.
  lemma LeasedAsAsked(c: Params, run: seq<State>, i: nat, j: nat, t: nat, ch: Choice, r: Request, e: Grant)
    requires IsRun(c, run) && Reachable(c, run[0]) && i <= j < |run| - 1
    requires t < |run[i].threads| && run[i].threads[t] == Entering(r)
    requires Step(c, run[j], run[j + 1], t, ch)
    requires run[j + 1].g.book.grants == run[j].g.book.grants + [e]
    ensures e.request == r
    ensures r.Some? ==> Ownership.EndsIn(e.before.calls, Restore(r.value.checkpoint, true))
    ensures r.None? ==> Ownership.EndsIn(e.before.calls, Restore(c.checkpoint, true))
  {
    hide Next, Reachable, Step, Ownership.EndsIn;
    RunKeeps(c, run, i, j, t, r);
    Leases.RunReachable(c, run, j + 1);
    Granted(c, run[j], run[j + 1], t, ch, e);
    assert run[j + 1].g.book.grants[|run[j].g.book.grants|] == e;
    Ownership.CleanWhenLeased(c, run[j + 1], e);
  }

  lemma Granted(c: Params, a: State, b: State, t: nat, ch: Choice, e: Grant)
    requires Step(c, a, b, t, ch) && b.g.book.grants == a.g.book.grants + [e]
    ensures t < |a.threads| && RequestOf(a.threads[t]) == Some(e.request)
  {
    Leases.RegionTable(c, a.g, t, a.threads[t], ch);
    hide Region, Refers, CanRun;
    assert b.g.book.grants[|a.g.book.grants|] == e;
  }
}
