// What one thread does alone, it can do in any reachable state that finds it
// there: the class layer's paths are pieces of runs.
module Alone {
  import opened Basics
  import opened Protocol
  import opened Solo
  import opened Continuing
  import Safety
  import System

  // Which sleeper a Signal reaches is decided outside the region.
  lemma WakeeFree(c: Params, g: Shared, t: nat, pc: Pc, ch: Choice, w: nat)
    requires Runs(g, t, pc, ch)
    ensures Runs(g, t, pc, ch.(wakee := w))
    ensures Region(c, g, t, pc, ch.(wakee := w)) == Region(c, g, t, pc, ch)
  {
    hide Refers, Spawned, Cleaned, Flushed, Reassign, Without;
  }

  // A path of thread t is a run of the system: whatever the other threads are
  // at, the system can move from where the path starts to where it ends.
  lemma {:induction false} PathReaches(c: Params, a: State, t: nat, path: seq<Outcome>) returns (b: State)
    requires Reachable(c, a) && t < |a.threads| && Path(c, t, path)
    requires a.g == path[0].g && a.threads[t] == path[0].pc
    ensures Reachable(c, b) && Continues(c, a, b)
    ensures t < |b.threads| && b.g == Last(path).g && b.threads[t] == Last(path).pc
    decreases |path|
  {
    hide Region, CanRun, Refers, Reachable, Step, Continues, Next;
    if |path| == 1 {
      b := a;
      Here(c, a);
    } else {
      assert Moved(c, t, path[0], path[0 + 1]);
      var b1 := MoveSteps(c, a, t, path[1]);
      forall i | 0 <= i < |path[1..]| - 1 ensures Moved(c, t, path[1..][i], path[1..][i + 1]) {
        assert path[1..][i] == path[i + 1] && path[1..][i + 1] == path[(i + 1) + 1];
      }
      b := PathReaches(c, b1, t, path[1..]);
      Onward(c, a, b1, b);
    }
  }

  // What a thread does alone it can do in any reachable state that has it there.
  lemma AloneReaches(c: Params, a: State, t: nat, h: Shared, pc: Pc, calls: seq<Wake>) returns (b: State)
    requires Reachable(c, a) && t < |a.threads|
    requires Reaches(c, t, a.g, a.threads[t], h, pc, calls)
    ensures Reachable(c, b) && Continues(c, a, b)
    ensures t < |b.threads| && b.g == h && b.threads[t] == pc
  {
    hide Path, Reachable, Continues;
    ghost var path :| Along(c, t, path, a.g, a.threads[t], h, pc, calls);
    b := PathReaches(c, a, t, path);
  }

  // If it calls nobody, or nobody sleeps, the other threads stay where they are.
  lemma AloneQuietly(c: Params, a: State, t: nat, h: Shared, pc: Pc, calls: seq<Wake>) returns (b: State)
    requires Reachable(c, a) && t < |a.threads|
    requires Reaches(c, t, a.g, a.threads[t], h, pc, calls)
    requires calls == [] || !HasSleeper(a.threads)
    ensures Reachable(c, b) && Continues(c, a, b)
    ensures b == State(h, a.threads[t := pc])
  {
    hide Path, Reachable, Continues, HasSleeper;
    ghost var path :| Along(c, t, path, a.g, a.threads[t], h, pc, calls);
    QuietPath(c, a, t, path);
    b := State(h, a.threads[t := pc]);
  }

  lemma {:induction false} QuietPath(c: Params, a: State, t: nat, path: seq<Outcome>)
    requires Reachable(c, a) && t < |a.threads| && Path(c, t, path)
    requires a.g == path[0].g && a.threads[t] == path[0].pc
    requires Calls(path) == [] || !HasSleeper(a.threads)
    ensures Reachable(c, State(Last(path).g, a.threads[t := Last(path).pc]))
    ensures Continues(c, a, State(Last(path).g, a.threads[t := Last(path).pc]))
    decreases |path|
  {
    hide Region, CanRun, Refers, Reachable, HasSleeper, Continues, Next;
    if |path| == 1 {
      assert a.threads[t := a.threads[t]] == a.threads;
      assert State(Last(path).g, a.threads[t := Last(path).pc]) == a;
      Here(c, a);
    } else {
      var front := path[..|path| - 1];
      forall i | 0 <= i < |front| - 1 ensures Moved(c, t, front[i], front[i + 1]) {
        assert front[i] == path[i] && front[i + 1] == path[i + 1];
      }
      assert Calls(path) == Calls(front) + CallOf(Last(path));
      QuietPath(c, a, t, front);
      assert Moved(c, t, path[|path| - 2], path[|path| - 2 + 1]);
      QuietMove(c, a.threads, t, Last(front), Last(path));
      var x := State(Last(front).g, a.threads[t := Last(front).pc]);
      var y := State(Last(path).g, a.threads[t := Last(path).pc]);
      OneMore(c, a, x, y);
    }
  }

  lemma QuietMove(c: Params, ts: seq<Pc>, t: nat, x: Outcome, y: Outcome)
    requires t < |ts| && Reachable(c, State(x.g, ts[t := x.pc])) && Moved(c, t, x, y)
    requires y.wake.Nobody? || !HasSleeper(ts)
    ensures Next(c, State(x.g, ts[t := x.pc]), State(y.g, ts[t := y.pc]))
    ensures Reachable(c, State(y.g, ts[t := y.pc]))
  {
    ghost var ch: Choice :| CanRun(x.g, t, x.pc, ch) && y == Region(c, x.g, t, x.pc, ch);
    System.SleepShape(c, x.g, t, x.pc, ch);
    hide Region, CanRun, Refers, Reachable;
    var a, b := State(x.g, ts[t := x.pc]), State(y.g, ts[t := y.pc]);
    assert a.threads[t := y.pc] == ts[t := y.pc];
    if !y.wake.Nobody? {
      assert forall u :: 0 <= u < |ts| && u != t ==> ts[t := y.pc][u] == ts[u];
      assert !HasSleeper(ts[t := y.pc]);
    }
    assert Rouse(ts[t := y.pc], y.wake, ch.wakee) == ts[t := y.pc];
    assert Step(c, a, b, t, ch);
    assert Moves(c, a, b);
    Safety.ReachableNext(c, a, b);
  }

  lemma MoveSteps(c: Params, a: State, t: nat, y: Outcome) returns (b: State)
    requires Reachable(c, a) && t < |a.threads| && Moved(c, t, Go(a.g, a.threads[t]), y)
    ensures Reachable(c, b) && Continues(c, a, b)
    ensures t < |b.threads| && b.g == y.g && b.threads[t] == y.pc
  {
    var pc := a.threads[t];
    ghost var ch: Choice :| CanRun(a.g, t, pc, ch) && y == Region(c, a.g, t, pc, ch);
    var ts := a.threads[t := y.pc];
    ghost var w: nat := 0;
    if HasSleeper(ts) {
      w :| 0 <= w < |ts| && ts[w].Asleep?;
    }
    WakeeFree(c, a.g, t, pc, ch, w);
    System.SleepShape(c, a.g, t, pc, ch);
    hide Region, CanRun, Refers, Reachable;
    b := State(y.g, Rouse(ts, y.wake, w));
    assert Step(c, a, b, t, ch.(wakee := w));
    assert Moves(c, a, b);
    Safety.ReachableNext(c, a, b);
    Here(c, a);
    OneMore(c, a, a, b);
  }
}
