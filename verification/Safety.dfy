// The system invariant holds in every reachable state.
module Safety {
  import opened Basics
  import opened Protocol
  import opened Invariant
  import Guests
  import opened Accounting
  import opened Wakeup
  import opened System

  lemma InvStep(c: Params, a: State, b: State, t: nat, ch: Choice)
    requires Inv(c, a) && Step(c, a, b, t, ch)
    ensures Inv(c, b)
    ensures Spares(a.g, b.g, t)
  {
    hide Core, Counters, Bounds, Step, Spares;
    ClosingOnce(c, a, b, t, ch);
    CoreStep(c, a, b, t, ch);
    CountersStep(c, a, b, t, ch);
    BoundsStep(c, a, b, t, ch);
    if HasSleeper(b.threads) {
      WakesStep(c, a, b, t, ch);
    }
    forall u: nat | PcOf(b, u).Scanning? && PcOf(b, u).i <= |b.g.list|
      ensures ReadyIn(b.g.list[..PcOf(b, u).i], b.g.sentries) <= Sum(b.threads, Signaller)
    {
      CursorStep(c, a, b, t, ch, u);
    }
  }

  lemma ClosingOnce(c: Params, a: State, b: State, t: nat, ch: Choice)
    requires Counters(c, a) && Step(c, a, b, t, ch)
    ensures t < |a.threads| && (a.threads[t].Closing? ==> !a.g.closed)
  {
    if a.threads[t].Closing? {
      ClosingIsOpen(c, a, t);
    }
  }

  // An arrival adds one thread that has no weight but Shutdown's.
  lemma InvArrival(c: Params, a: State, b: State)
    requires Inv(c, a) && Arrival(a, b)
    ensures Inv(c, b)
  {
    hide Core;
    CoreArrival(c, a, b);
    var n := |a.threads|;
    var pc := b.threads[n];
    assert b.threads == a.threads + [pc];
    Newcomer(a.threads, pc);
    forall u: nat | PcOf(b, u).Scanning? ensures PcOf(a, u) == PcOf(b, u) {
    }
    if HasSleeper(b.threads) {
      var v :| 0 <= v < |b.threads| && b.threads[v].Asleep?;
      assert a.threads[v].Asleep?;
    }
  }

  lemma Newcomer(ts: seq<Pc>, pc: Pc)
    requires pc.Entering? || pc.Completing? || pc.Cancelling?
    ensures Sum(ts + [pc], Pending) == Sum(ts, Pending)
    ensures Sum(ts + [pc], Recycler) == Sum(ts, Recycler)
    ensures Sum(ts + [pc], Uninserted) == Sum(ts, Uninserted)
    ensures Sum(ts + [pc], Unlaunched) == Sum(ts, Unlaunched)
    ensures Sum(ts + [pc], Closer) == Sum(ts, Closer) + Bit(pc.Cancelling?)
    ensures Sum(ts + [pc], Queued) == Sum(ts, Queued)
    ensures Sum(ts + [pc], Due) == Sum(ts, Due)
    ensures Sum(ts + [pc], Flusher) == Sum(ts, Flusher)
    ensures Sum(ts + [pc], Awake) == Sum(ts, Awake)
    ensures Sum(ts + [pc], Signaller) == Sum(ts, Signaller)
  {
    SumAppend(ts, [pc], Pending);
    SumAppend(ts, [pc], Recycler);
    SumAppend(ts, [pc], Uninserted);
    SumAppend(ts, [pc], Unlaunched);
    SumAppend(ts, [pc], Closer);
    SumAppend(ts, [pc], Queued);
    SumAppend(ts, [pc], Due);
    SumAppend(ts, [pc], Flusher);
    SumAppend(ts, [pc], Awake);
    SumAppend(ts, [pc], Signaller);
  }

  // ---- the initial state --------------------------------------------------

  lemma InvInit(c: Params, a: State)
    requires Init(c, a)
    ensures Inv(c, a)
  {
    hide Core, LocalOk, ReadyIn;
    InitCore(c, a);
    InitShape(c, a);
    InitThreads(a);
    InitSums(a.threads);
    hide Init;
  }

  lemma InitShape(c: Params, a: State)
    requires Init(c, a)
    ensures a.threads == [] || a.threads == [Reaping]
    ensures a.g.pending == a.g.joining == a.g.failed == a.g.evicted == 0 && a.g.doomed == []
    ensures Unregistered(a.g.book) == Unstarted(a.g.book) == Open(a.g.book) == 0
    ensures !a.g.closed && !a.g.book.shutdown && |a.g.list| >= c.poolSize
  {
  }

  lemma InitThreads(a: State)
    requires a.threads == [] || a.threads == [Reaping]
    ensures !HasSleeper(a.threads)
    ensures forall t :: !PcOf(a, t).Scanning?
  {
  }

  lemma InitSums(ts: seq<Pc>)
    requires ts == [] || ts == [Reaping]
    ensures Sum(ts, Pending) == Sum(ts, Recycler) == Sum(ts, Uninserted) == Sum(ts, Unlaunched) == 0
    ensures Sum(ts, Closer) == Sum(ts, Queued) == Sum(ts, Due) == Sum(ts, Flusher) == 0
  {
  }

  lemma InitCore(c: Params, a: State)
    requires Init(c, a)
    ensures Core(c, a)
  {
    forall t: nat ensures LocalOk(c, a.g, t, PcOf(a, t)) {
      assert PcOk(a.g, t, PcOf(a, t));
      forall s | 0 <= s < |a.g.sentries|
        ensures Bounded(c, a.g.sentries[s]) && Fact(c, a.g, s, PcOf(a, t))
        ensures a.g.sentries[s].owner.Idle? && !Holds(PcOf(a, t), s)
      {
        assert a.g.list[s] == s && a.g.sentries[s] == Fresh(c);
        FreshFact(c, a.g, s, PcOf(a, t));
      }
    }
  }

  lemma FreshFact(c: Params, g: Shared, s: nat, pc: Pc)
    requires s < |g.sentries| && g.sentries[s] == Fresh(c) && !g.closed && s in g.list
    ensures Bounded(c, g.sentries[s])
    ensures Fact(c, g, s, pc)
  {
    FreshRecord(c, pc);
    hide RecordFact, Bounded;
  }

  lemma FreshRecord(c: Params, pc: Pc)
    ensures Bounded(c, Fresh(c)) && RecordFact(c, Fresh(c), pc) && Fresh(c).owner.Idle?
  {
    hide Guests.StageOf, HeldRecord;
    Guests.SpawnedStage(c, NewSentry(0));
    FreshFields(c);
    hide Spawned, NewSentry;
  }

  lemma FreshFields(c: Params)
    ensures var x := Spawned(c, NewSentry(0), true);
            && x.birth.Live? && x.state.Ready? && x.leaseId.None?
            && x.restores == x.served == x.cleaned == x.drained == 0
    ensures NewSentry(0).calls == []
  {
  }

  // ---- every reachable state ----------------------------------------------

  lemma InvNext(c: Params, a: State, b: State)
    requires Inv(c, a) && Next(c, a, b)
    ensures Inv(c, b)
  {
    hide Inv, Arrival, Step;
    if Arrival(a, b) {
      InvArrival(c, a, b);
    } else {
      var t: nat, ch :| Step(c, a, b, t, ch);
      InvStep(c, a, b, t, ch);
    }
  }

  lemma {:induction false} InvRun(c: Params, run: seq<State>, i: nat)
    requires IsRun(c, run) && Init(c, run[0]) && i < |run|
    ensures Inv(c, run[i])
  {
    hide Inv, Next, Init;
    if i == 0 {
      InvInit(c, run[0]);
    } else {
      InvRun(c, run, i - 1);
      assert Next(c, run[i - 1], run[i - 1 + 1]);
      InvNext(c, run[i - 1], run[i]);
    }
  }

  lemma ReachableInv(c: Params, a: State)
    requires Reachable(c, a)
    ensures Inv(c, a)
  {
    hide Inv, Init, Next;
    var run :| IsRun(c, run) && Init(c, run[0]) && run[|run| - 1] == a;
    InvRun(c, run, |run| - 1);
  }

  // Reachability is closed under steps.
  lemma ReachableNext(c: Params, a: State, b: State)
    requires Reachable(c, a) && Next(c, a, b)
    ensures Reachable(c, b)
  {
    hide Init, Next;
    var run :| IsRun(c, run) && Init(c, run[0]) && run[|run| - 1] == a;
    var run' := run + [b];
    forall i | 0 <= i < |run'| - 1 ensures Next(c, run'[i], run'[i + 1]) {
      if i < |run| - 1 {
        assert run'[i] == run[i] && run'[i + 1] == run[i + 1];
      }
    }
    assert run'[|run'| - 1] == b && run'[0] == run[0];
  }
}
