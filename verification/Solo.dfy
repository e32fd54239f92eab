// Regions of one thread in a row, without interference: what a method of the
// class layer does, seen as a piece of a run of the transition system.
module Solo {
  import opened Protocol

  // Thread t's next region takes x to y.
  ghost predicate Moved(c: Params, t: nat, x: Outcome, y: Outcome) {
    Refers(x.g, x.pc) && exists ch: Choice :: CanRun(x.g, t, x.pc, ch) && y == Region(c, x.g, t, x.pc, ch)
  }

  ghost predicate Path(c: Params, t: nat, path: seq<Outcome>) {
    && |path| > 0
    && (forall i :: 0 <= i < |path| - 1 ==> Moved(c, t, path[i], path[i + 1]))
  }

  function Last(path: seq<Outcome>): Outcome
    requires |path| > 0
  {
    path[|path| - 1]
  }

  // The Signal and Broadcast calls along a path.
  function Calls(path: seq<Outcome>): seq<Wake> {
    if |path| <= 1 then [] else Calls(path[..|path| - 1]) + CallOf(Last(path))
  }

  function CallOf(o: Outcome): seq<Wake> {
    if o.wake.Nobody? then [] else [o.wake]
  }

  ghost predicate Along(c: Params, t: nat, path: seq<Outcome>, g: Shared, pc: Pc, h: Shared, pc': Pc,
                        calls: seq<Wake>)
  {
    && Path(c, t, path) && path[0].g == g && path[0].pc == pc
    && Last(path).g == h && Last(path).pc == pc' && Calls(path) == calls
  }

  // Thread t, running alone, goes from (g, pc) to (h, pc') with these calls on
  // the condition variable.
  ghost predicate Reaches(c: Params, t: nat, g: Shared, pc: Pc, h: Shared, pc': Pc, calls: seq<Wake>) {
    exists path :: Along(c, t, path, g, pc, h, pc', calls)
  }

  lemma Stays(c: Params, t: nat, g: Shared, pc: Pc)
    ensures Reaches(c, t, g, pc, g, pc, [])
  {
    assert Along(c, t, [Go(g, pc)], g, pc, g, pc, []);
  }

  lemma Extend(c: Params, t: nat, path: seq<Outcome>, o: Outcome)
    requires Path(c, t, path) && Moved(c, t, Last(path), o)
    ensures Path(c, t, path + [o]) && (path + [o])[0] == path[0]
    ensures Last(path + [o]) == o && Calls(path + [o]) == Calls(path) + CallOf(o)
  {
    hide Moved;
    var p := path + [o];
    assert p[..|p| - 1] == path;
    forall i | 0 <= i < |p| - 1 ensures Moved(c, t, p[i], p[i + 1]) {
      if i < |path| - 1 {
        assert p[i] == path[i] && p[i + 1] == path[i + 1];
      } else {
        assert p[i] == Last(path) && p[i + 1] == o;
      }
    }
  }

  // One more region.
  lemma Then(c: Params, t: nat, g: Shared, pc: Pc, h: Shared, pc': Pc, calls: seq<Wake>, ch: Choice, o: Outcome)
    requires Reaches(c, t, g, pc, h, pc', calls)
    requires Runs(h, t, pc', ch) && o == Region(c, h, t, pc', ch)
    ensures Reaches(c, t, g, pc, o.g, o.pc, calls + CallOf(o))
    ensures o.wake.Nobody? ==> Reaches(c, t, g, pc, o.g, o.pc, calls)
  {
    hide Region, CanRun, Refers, Path;
    assert o.wake.Nobody? ==> calls + CallOf(o) == calls;
    var path :| Along(c, t, path, g, pc, h, pc', calls);
    Extend(c, t, path, o);
    assert Along(c, t, path + [o], g, pc, o.g, o.pc, calls + CallOf(o));
  }

  // First one stretch, then another.
  lemma Chain(c: Params, t: nat, g: Shared, pc: Pc, h: Shared, pc': Pc, v: seq<Wake>, k: Shared, pc'': Pc, w: seq<Wake>)
    requires Reaches(c, t, g, pc, h, pc', v) && Reaches(c, t, h, pc', k, pc'', w)
    ensures Reaches(c, t, g, pc, k, pc'', v + w)
    ensures v == [] ==> Reaches(c, t, g, pc, k, pc'', w)
    ensures w == [] ==> Reaches(c, t, g, pc, k, pc'', v)
  {
    assert (v == [] ==> v + w == w) && (w == [] ==> v + w == v);
    var path :| Along(c, t, path, h, pc', k, pc'', w);
    hide Moved, Reaches, Path;
    ChainPath(c, t, g, pc, h, pc', v, path);
  }

  lemma {:induction false} ChainPath(c: Params, t: nat, g: Shared, pc: Pc, h: Shared, pc': Pc, v: seq<Wake>,
                                     path: seq<Outcome>)
    requires Reaches(c, t, g, pc, h, pc', v) && Path(c, t, path) && path[0].g == h && path[0].pc == pc'
    ensures Reaches(c, t, g, pc, Last(path).g, Last(path).pc, v + Calls(path))
    decreases |path|
  {
    hide Region, CanRun, Refers, Reaches;
    if |path| == 1 {
      assert v + [] == v;
    } else {
      var front := path[..|path| - 1];
      forall i | 0 <= i < |front| - 1 ensures Moved(c, t, front[i], front[i + 1]) {
        assert front[i] == path[i] && front[i + 1] == path[i + 1];
      }
      ChainPath(c, t, g, pc, h, pc', v, front);
      var x, o := Last(front), Last(path);
      assert Moved(c, t, path[|path| - 2], path[|path| - 2 + 1]);
      var ch: Choice :| CanRun(x.g, t, x.pc, ch) && o == Region(c, x.g, t, x.pc, ch);
      Then(c, t, g, pc, x.g, x.pc, v + Calls(front), ch, o);
      assert v + Calls(path) == v + Calls(front) + CallOf(o);
    }
  }
}
