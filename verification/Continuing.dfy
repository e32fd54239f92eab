// What can follow a state: its continuations.
module Continuing {
  import opened Protocol
  import Safety

  // Some run, with any steps and arrivals, leads from a to b.
  ghost predicate Continues(c: Params, a: State, b: State) {
    exists run :: IsRun(c, run) && run[0] == a && run[|run| - 1] == b
  }

  lemma Here(c: Params, a: State)
    ensures Continues(c, a, a)
  {
    hide Next;
    assert IsRun(c, [a]) && [a][0] == a && [a][|[a]| - 1] == a;
  }

  lemma OneMore(c: Params, a: State, b: State, d: State)
    requires Continues(c, a, b) && Next(c, b, d)
    ensures Continues(c, a, d)
  {
    hide Next;
    var run :| IsRun(c, run) && run[0] == a && run[|run| - 1] == b;
    var run' := run + [d];
    forall i | 0 <= i < |run'| - 1 ensures Next(c, run'[i], run'[i + 1]) {
      if i < |run| - 1 {
        assert run'[i] == run[i] && run'[i + 1] == run[i + 1];
      }
    }
    assert run'[0] == a && run'[|run'| - 1] == d;
  }

  lemma Onward(c: Params, a: State, b: State, d: State)
    requires Continues(c, a, b) && Continues(c, b, d)
    ensures Continues(c, a, d)
  {
    hide Next;
    var run :| IsRun(c, run) && run[0] == b && run[|run| - 1] == d;
    OnwardBy(c, a, run, |run| - 1);
  }

  lemma {:induction false} OnwardBy(c: Params, a: State, run: seq<State>, i: nat)
    requires IsRun(c, run) && i < |run| && Continues(c, a, run[0])
    ensures Continues(c, a, run[i])
  {
    hide Next, Continues;
    if i > 0 {
      OnwardBy(c, a, run, i - 1);
      assert Next(c, run[i - 1], run[(i - 1) + 1]);
      OneMore(c, a, run[i - 1], run[i]);
    }
  }

  lemma ReachableOnward(c: Params, a: State, b: State)
    requires Reachable(c, a) && Continues(c, a, b)
    ensures Reachable(c, b)
  {
    hide Next, Init;
    var first :| IsRun(c, first) && Init(c, first[0]) && first[|first| - 1] == a;
    assert Continues(c, first[0], a);
    Onward(c, first[0], a, b);
    var run :| IsRun(c, run) && run[0] == first[0] && run[|run| - 1] == b;
  }

  // A property that every step and arrival keeps holds in every continuation.
  lemma {:induction false} Keeps(c: Params, run: seq<State>, i: nat, p: State -> bool)
    requires IsRun(c, run) && i < |run| && p(run[0])
    requires forall a, b :: Reachable(c, a) && p(a) && Next(c, a, b) ==> p(b)
    requires Reachable(c, run[0])
    ensures p(run[i]) && Reachable(c, run[i])
  {
    hide Next, Reachable;
    if i > 0 {
      Keeps(c, run, i - 1, p);
      assert Next(c, run[i - 1], run[(i - 1) + 1]);
      Safety.ReachableNext(c, run[i - 1], run[i]);
    }
  }

  lemma KeptOnward(c: Params, a: State, b: State, p: State -> bool)
    requires Reachable(c, a) && Continues(c, a, b) && p(a)
    requires forall x, y :: Reachable(c, x) && p(x) && Next(c, x, y) ==> p(y)
    ensures p(b) && Reachable(c, b)
  {
    hide Next, Reachable;
    var run :| IsRun(c, run) && run[0] == a && run[|run| - 1] == b;
    Keeps(c, run, |run| - 1, p);
  }

  // A property that is false at i and true at j becomes true at some step.
  lemma {:induction false} Becomes(run: seq<State>, i: nat, j: nat, p: State -> bool) returns (k: nat)
    requires i < j < |run| && !p(run[i]) && p(run[j])
    ensures i <= k < j && !p(run[k]) && p(run[k + 1])
    decreases j - i
  {
    if p(run[i + 1]) {
      k := i;
    } else {
      k := Becomes(run, i + 1, j, p);
    }
  }
}
