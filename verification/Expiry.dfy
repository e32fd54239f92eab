// When an expiry, or any other Complete, ends the lease it was meant for.
module Expiry {
  import opened Protocol
  import opened System
  import opened Leases
  import Continuing
  import Safety

  // Thread t is an executor with lease l issued but not yet in the table.
  ghost predicate Carries(a: State, t: nat, l: nat) {
    t < |a.threads| && a.threads[t].Leasing? && a.threads[t].l == l
  }

  // The step from a to b puts lease l into the table.
  ghost predicate Inserts(a: State, b: State, l: nat) {
    l !in a.g.book.leases && l in b.g.book.leases && exists t: nat :: Carries(a, t, l) && PcOf(b, t).Done?
  }

  // An issued lease is on its way to the table, in it, or over.
  lemma IssuedCases(c: Params, a: State, l: nat)
    requires Reachable(c, a) && l < |a.g.book.issued| && !Over(a, l)
    ensures l in a.g.book.leases <==> !exists t: nat :: Carries(a, t, l)
  {
    if l in a.g.book.leases {
      Safety.ReachableInv(c, a);
      NoTwins(c, a, l);
    } else {
      hide Reachable;
      var t :| 0 <= t < |a.threads| && a.threads[t].Leasing? && a.threads[t].l == l;
      assert Carries(a, t, l);
    }
  }

  // A Complete of an issued lease that has not ended yet ends it exactly if no
  // executor still carries it to the table; if one does, it changes nothing.
  lemma EndsUnlessCarried(c: Params, a: State, b: State, t: nat, ch: Choice, l: nat)
    requires Reachable(c, a) && Step(c, a, b, t, ch) && a.threads[t] == Completing(l)
    requires l < |a.g.book.issued| && !Over(a, l)
    ensures Over(b, l) <==> !exists u: nat :: Carries(a, u, l)
    ensures (exists u: nat :: Carries(a, u, l)) ==> b == State(a.g, a.threads[t := Done])
  {
    IssuedCases(c, a, l);
    CompleteFindsExactlyLiveLeases(c, a, b, t, ch);
    if l in a.g.book.leases {
      Safety.ReachableInv(c, a);
      hide Step, Inv, Reachable;
      LeaseEndsAt(c, a, b, t, ch, l);
    } else {
      var u: nat :| Carries(a, u, l);
      hide Step, Reachable;
      assert u != t && Carries(b, u, l);
    }
  }

  lemma InsertStep(c: Params, a: State, b: State, l: nat)
    requires Next(c, a, b) && l !in a.g.book.leases && l in b.g.book.leases
    ensures Inserts(a, b, l)
  {
    hide Arrival, Step;
    if Arrival(a, b) {
      ArrivalBook(a, b);
      assert false;
    } else {
      var t: nat, ch :| Step(c, a, b, t, ch);
      InsertAt(c, a, b, t, ch, l);
    }
  }

  lemma InsertAt(c: Params, a: State, b: State, t: nat, ch: Choice, l: nat)
    requires Step(c, a, b, t, ch) && l !in a.g.book.leases && l in b.g.book.leases
    ensures Inserts(a, b, l)
  {
    RegionTable(c, a.g, t, a.threads[t], ch);
    AfterStep(c, a, b, t, ch, t);
    hide Region, Refers, CanRun;
    assert Carries(a, t, l) && PcOf(b, t).Done?;
  }

  // Over any run from the start: of all the calls to Complete for a lease that is
  // issued and has not ended, those that come after its insert end it, and those
  // that come before change nothing.
  lemma EndsIffInserted(c: Params, run: seq<State>, k: nat, t: nat, ch: Choice, l: nat)
    requires IsRun(c, run) && Init(c, run[0]) && k < |run| - 1
    requires Step(c, run[k], run[k + 1], t, ch) && run[k].threads[t] == Completing(l)
    requires l < |run[k].g.book.issued| && !Over(run[k], l)
    ensures Over(run[k + 1], l) <==> exists j :: 0 <= j < k && Inserts(run[j], run[j + 1], l)
    ensures !Over(run[k + 1], l) ==> run[k + 1] == State(run[k].g, run[k].threads[t := Done])
  {
    hide Next, Step, Over, Carries, Inserts;
    Started(c, run);
    RunReachable(c, run, k);
    EndsUnlessCarried(c, run[k], run[k + 1], t, ch, l);
    IssuedCases(c, run[k], l);
    if l in run[k].g.book.leases {
      var j := Continuing.Becomes(run, 0, k, (a: State) => l in a.g.book.leases);
      assert Next(c, run[j], run[j + 1]);
      InsertStep(c, run[j], run[j + 1], l);
    } else {
      forall j | 0 <= j < k ensures !Inserts(run[j], run[j + 1], l) {
        if Inserts(run[j], run[j + 1], l) {
          InsertedThere(run[j], run[j + 1], l);
          InsertedStays(c, run, j + 1, k, l);
          assert false;
        }
      }
    }
  }

  lemma InsertedThere(a: State, b: State, l: nat)
    requires Inserts(a, b, l)
    ensures l in b.g.book.leases
  {
  }

  lemma Started(c: Params, run: seq<State>)
    requires IsRun(c, run) && Init(c, run[0])
    ensures Reachable(c, run[0]) && run[0].g.book.leases == map[]
  {
    assert IsRun(c, [run[0]]) && Init(c, [run[0]][0]) && [run[0]][|[run[0]]| - 1] == run[0];
  }

  lemma InsertedStays(c: Params, run: seq<State>, i: nat, k: nat, l: nat)
    requires IsRun(c, run) && Reachable(c, run[0]) && i <= k < |run|
    requires l in run[i].g.book.leases && !Over(run[k], l)
    ensures l in run[k].g.book.leases
  {
    hide Next, Over;
    if l !in run[k].g.book.leases {
      LeaseEndsOnce(c, run, i, k, k, l);
      assert false;
    }
  }
}
