// Lock order. Every region of the transition system is a short program of lock
// operations; they all keep one discipline, and under it no number of threads
// can ever wait for each other in a circle.
module Locks {
  import opened Basics
  import opened Protocol
  import Leases
  import Safety
  import System

  // Manager.leaseMu, Pool.mu and the sentries' own mutexes.
  datatype Lock = LeaseMu | PoolMu | SentryMu(s: nat)

  datatype Op = Take(l: Lock) | Drop(l: Lock)

  // A sentry's mutex is taken alone or inside the pool's; the other two alone.
  predicate Allowed(held: set<Lock>, l: Lock) {
    held == {} || (l.SentryMu? && held == {PoolMu})
  }

  // The program goes from one set of held locks to another in that order.
  predicate Disciplined(held: set<Lock>, ops: seq<Op>, end: set<Lock>)
    decreases |ops|
  {
    if ops == [] then held == end
    else match ops[0]
      case Take(l) => Allowed(held, l) && Disciplined(held + {l}, ops[1..], end)
      case Drop(l) => l in held && Disciplined(held - {l}, ops[1..], end)
  }

  function Section(l: Lock): seq<Op> { [Take(l), Drop(l)] }

  // One look at each of these sentries.
  function Looks(xs: seq<nat>): seq<Op> {
    if xs == [] then [] else Section(SentryMu(xs[0])) + Looks(xs[1..])
  }

  // The lock operations of one region. The pool's mutex is held from one step of
  // a scan to the next; Wait drops it, and takes it again in the woken turn.
  function LocksOf(g: Shared, pc: Pc, ch: Choice): seq<Op>
    requires Refers(g, pc)
  {
    match pc
    case Entering(_) => if g.closed then Section(PoolMu) else [Take(PoolMu)]
    case Woken(_) => if g.closed then Section(PoolMu) else [Take(PoolMu)]
    case Scanning(_, i, _) =>
      if i < |g.list| then
        Section(SentryMu(g.list[i])) + (if g.sentries[g.list[i]].state.Ready? then [Drop(PoolMu)] else [])
      else [Drop(PoolMu)]
    case ColdFailed => Section(PoolMu)
    case ColdSpawned(_, s) =>
      if g.closed then Section(PoolMu) else [Take(PoolMu)] + Section(SentryMu(s)) + [Drop(PoolMu)]
    case Counted(_, s) => Section(SentryMu(s))
    case Leasing(_, s, _) => Section(LeaseMu) + Section(SentryMu(s))
    case Releasing(s) => Section(SentryMu(s))
    case Signalling(_) => Section(PoolMu)
    case Completing(_) => Section(LeaseMu)
    case Recycling(s) => Section(SentryMu(s))
    case Counting(s) => Section(SentryMu(s))
    case Checking(s) => Section(SentryMu(s))
    case Readying(s) => Section(SentryMu(s))
    case Removing(_) => Section(PoolMu)
    case Sizing => Section(PoolMu)
    case RefillSpawned(_, _) => Section(PoolMu)
    case Reaping => if Ticks(g, ch) then [Take(PoolMu)] + Looks(g.list) + [Drop(PoolMu)] else []
    case Cancelling => Section(LeaseMu)
    case Closing => Section(PoolMu)
    case _ => []
  }

  // Status, Healthy and Run's look-up, which change nothing the pool depends on.
  function StatusLocks(list: seq<nat>): seq<Op> {
    [Take(PoolMu)] + Looks(list) + [Drop(PoolMu)] + Section(LeaseMu)
  }

  function HealthyLocks(looked: seq<nat>): seq<Op> {
    [Take(PoolMu)] + Looks(looked) + [Drop(PoolMu)]
  }

  // What a thread holds between regions: nothing but the pool's mutex, and that
  // only inside a scan; so nothing while it sleeps or waits for the recyclers.
  function HeldAt(pc: Pc): set<Lock> {
    if pc.Scanning? then {PoolMu} else {}
  }

  // ---- every region is disciplined ---------------------------------------

  lemma {:induction false} Joins(held: set<Lock>, p: seq<Op>, mid: set<Lock>, q: seq<Op>, end: set<Lock>)
    requires Disciplined(held, p, mid) && Disciplined(mid, q, end)
    ensures Disciplined(held, p + q, end)
    decreases |p|
  {
    if p == [] {
      assert p + q == q;
    } else {
      assert (p + q)[1..] == p[1..] + q;
      match p[0]
      case Take(l) => Joins(held + {l}, p[1..], mid, q, end);
      case Drop(l) => Joins(held - {l}, p[1..], mid, q, end);
    }
  }

  lemma SectionDisciplined(held: set<Lock>, l: Lock)
    requires Allowed(held, l)
    ensures Disciplined(held, Section(l), held)
  {
    var ops := Section(l);
    assert ops[1..] == [Drop(l)] && ops[1..][1..] == [];
    assert l !in held;
    assert held + {l} - {l} == held;
    assert Disciplined(held, [], held);
    assert Disciplined(held + {l}, ops[1..], held);
  }

  lemma TakeDisciplined(l: Lock)
    ensures Disciplined({}, [Take(l)], {l})
    ensures Disciplined({l}, [Drop(l)], {})
  {
    assert [Take(l)][1..] == [] && [Drop(l)][1..] == [];
    assert Disciplined({} + {l}, [], {l});
    assert {l} - {l} == {};
    assert Disciplined({l} - {l}, [], {});
  }

  lemma {:induction false} LooksDisciplined(xs: seq<nat>)
    ensures Disciplined({PoolMu}, Looks(xs), {PoolMu})
  {
    if xs != [] {
      SectionDisciplined({PoolMu}, SentryMu(xs[0]));
      LooksDisciplined(xs[1..]);
      Joins({PoolMu}, Section(SentryMu(xs[0])), {PoolMu}, Looks(xs[1..]), {PoolMu});
    }
  }

  lemma ScanDisciplined(xs: seq<nat>)
    ensures Disciplined({}, [Take(PoolMu)] + Looks(xs) + [Drop(PoolMu)], {})
  {
    LooksDisciplined(xs);
    TakeDisciplined(PoolMu);
    Joins({}, [Take(PoolMu)], {PoolMu}, Looks(xs), {PoolMu});
    Joins({}, [Take(PoolMu)] + Looks(xs), {PoolMu}, [Drop(PoolMu)], {});
  }

  lemma ReadersDisciplined(list: seq<nat>)
    ensures Disciplined({}, StatusLocks(list), {}) && Disciplined({}, HealthyLocks(list), {})
    ensures Disciplined({}, Section(LeaseMu), {})
  {
    ScanDisciplined(list);
    SectionDisciplined({}, LeaseMu);
    Joins({}, [Take(PoolMu)] + Looks(list) + [Drop(PoolMu)], {}, Section(LeaseMu), {});
  }

  // Each region takes its locks in order, starting and ending with what a thread
  // holds between regions.
  lemma RegionDisciplined(c: Params, g: Shared, t: nat, pc: Pc, ch: Choice)
    requires Runs(g, t, pc, ch)
    ensures Disciplined(HeldAt(pc), LocksOf(g, pc, ch), HeldAt(Region(c, g, t, pc, ch).pc))
  {
    TakeDisciplined(PoolMu);
    SectionDisciplined({}, PoolMu);
    SectionDisciplined({}, LeaseMu);
    if InAcquire(pc) {
      TurnDisciplined(c, g, t, pc, ch);
    } else {
      System.LeavesQueue(c, g, t, pc, ch);
      hide Region;
      if pc.Reaping? {
        ScanDisciplined(g.list);
      } else if pc.ColdSpawned? {
        ScanDisciplined([pc.s]);
        assert Looks([pc.s]) == Section(SentryMu(pc.s)) + [];
        assert Looks([pc.s]) == Section(SentryMu(pc.s));
      } else if SentryOf(pc).Some? {
        SectionDisciplined({}, SentryMu(pc.s));
        Joins({}, Section(LeaseMu), {}, Section(SentryMu(pc.s)), {});
      }
    }
  }

  lemma TurnDisciplined(c: Params, g: Shared, t: nat, pc: Pc, ch: Choice)
    requires Runs(g, t, pc, ch) && InAcquire(pc)
    ensures Disciplined(HeldAt(pc), LocksOf(g, pc, ch), HeldAt(Region(c, g, t, pc, ch).pc))
  {
    TakeDisciplined(PoolMu);
    SectionDisciplined({}, PoolMu);
    if pc.Scanning? && pc.i < |g.list| {
      var l := SentryMu(g.list[pc.i]);
      SectionDisciplined({PoolMu}, l);
      Joins({PoolMu}, Section(l), {PoolMu}, [Drop(PoolMu)], {});
      assert Section(l) + [] == Section(l);
    }
  }

  // ---- any number of threads ---------------------------------------------

  // A thread in the middle of a program of lock operations.
  datatype Holder = Holder(held: set<Lock>, todo: seq<Op>, end: set<Lock>)

  predicate Free(a: seq<Holder>, l: Lock) {
    forall t :: 0 <= t < |a| ==> l !in a[t].held
  }

  // Thread t performs the next operation of its program.
  ghost predicate Performs(a: seq<Holder>, b: seq<Holder>, t: nat) {
    && t < |a| && a[t].todo != []
    && match a[t].todo[0]
       case Take(l) => Free(a, l) && b == a[t := Holder(a[t].held + {l}, a[t].todo[1..], a[t].end)]
       case Drop(l) => b == a[t := Holder(a[t].held - {l}, a[t].todo[1..], a[t].end)]
  }

  // What a thread may hold, and no lock twice.
  ghost predicate Orderly(a: seq<Holder>) {
    && (forall t :: 0 <= t < |a| ==> Disciplined(a[t].held, a[t].todo, a[t].end) && InOrder(a[t].held))
    && (forall t, u, l :: 0 <= t < u < |a| && l in a[t].held ==> l !in a[u].held)
  }

  ghost predicate InOrder(held: set<Lock>) {
    || held == {} || held == {PoolMu} || held == {LeaseMu}
    || (exists s :: held == {SentryMu(s)}) || (exists s :: held == {PoolMu, SentryMu(s)})
  }

  lemma TakesInOrder(held: set<Lock>, l: Lock)
    requires Allowed(held, l)
    ensures InOrder(held + {l})
  {
    match l
    case SentryMu(s) =>
      assert held == {} ==> held + {l} == {SentryMu(s)};
      assert held == {PoolMu} ==> held + {l} == {PoolMu, SentryMu(s)};
    case _ =>
      assert held + {l} == {l};
  }

  lemma DropsInOrder(held: set<Lock>, l: Lock)
    requires InOrder(held)
    ensures InOrder(held - {l})
  {
    if s :| held == {PoolMu, SentryMu(s)} {
      assert l == PoolMu ==> held - {l} == {SentryMu(s)};
      assert l == SentryMu(s) ==> held - {l} == {PoolMu};
      assert l != PoolMu && l != SentryMu(s) ==> held - {l} == held;
    } else {
      assert held - {l} == held || held - {l} == {};
    }
  }

  lemma PerformsOrderly(a: seq<Holder>, b: seq<Holder>, t: nat)
    requires Orderly(a) && Performs(a, b, t)
    ensures Orderly(b)
  {
    match a[t].todo[0]
    case Take(l) =>
      TakesInOrder(a[t].held, l);
    case Drop(l) =>
      DropsInOrder(a[t].held, l);
  }

  // t's next operation takes a lock that u holds.
  ghost predicate WaitsFor(a: seq<Holder>, t: nat, u: nat) {
    t < |a| && u < |a| && a[t].todo != [] && a[t].todo[0].Take? && a[t].todo[0].l in a[u].held
  }

  ghost predicate Blocked(a: seq<Holder>, t: nat) {
    exists u :: WaitsFor(a, t, u)
  }

  // A thread that someone waits for can go on, or waits for one that can: no
  // chain of waits is longer than two.
  lemma ShortWaits(a: seq<Holder>, t: nat, u: nat)
    requires Orderly(a) && WaitsFor(a, t, u)
    ensures t != u
    ensures !Blocked(a, u) || forall v: nat :: WaitsFor(a, u, v) ==> !Blocked(a, v)
  {
    assert Disciplined(a[t].held, a[t].todo, a[t].end);
    if Blocked(a, u) {
      assert Disciplined(a[u].held, a[u].todo, a[u].end);
      assert a[u].held == {PoolMu};
      forall v: nat | WaitsFor(a, u, v) ensures !Blocked(a, v) {
        assert Disciplined(a[v].held, a[v].todo, a[v].end);
      }
    }
  }

  // So on a closed walk through the threads some step is not a wait.
  lemma NoCircle(a: seq<Holder>, walk: seq<nat>)
    requires Orderly(a) && |walk| > 1 && walk[0] == walk[|walk| - 1]
    ensures exists k :: 0 <= k < |walk| - 1 && !WaitsFor(a, walk[k], walk[k + 1])
  {
    if WaitsFor(a, walk[0], walk[0 + 1]) {
      ShortWaits(a, walk[0], walk[1]);
      if WaitsFor(a, walk[1], walk[1 + 1]) {
        assert !Blocked(a, walk[2]);
        if |walk| == 3 {
          assert false;
        } else {
          assert !WaitsFor(a, walk[2], walk[2 + 1]);
        }
      }
    }
  }

  // ---- the transition system, lock operation by lock operation -----------

  // A state of the transition system with the lock operations of the regions
  // that threads are in, and the readers that take locks but change nothing.
  datatype Fine = Fine(a: State, hs: seq<Holder>, begun: seq<bool>, readers: seq<Holder>)

  const IDLE := Holder({}, [], {})

  function All(x: Fine): seq<Holder> { x.hs + x.readers }

  // Thread t begins its next region, whatever it will find there.
  ghost predicate Begins(c: Params, x: Fine, y: Fine, t: nat, g: Shared, ch: Choice) {
    && t < |x.a.threads| == |x.hs| == |x.begun| && !x.begun[t]
    && Runs(g, t, x.a.threads[t], ch)
    && y == x.(hs := x.hs[t := Holder(x.hs[t].held, LocksOf(g, x.a.threads[t], ch),
                                      HeldAt(Region(c, g, t, x.a.threads[t], ch).pc))],
               begun := x.begun[t := true])
  }

  // Some thread or reader performs one lock operation of its program.
  ghost predicate Operates(x: Fine, y: Fine, i: nat) {
    && Performs(All(x), All(y), i)
    && y.a == x.a && y.begun == x.begun && |y.hs| == |x.hs|
  }

  // Thread t has performed its program, and its region takes effect.
  ghost predicate Commits(c: Params, x: Fine, y: Fine, t: nat, ch: Choice) {
    && t < |x.a.threads| == |x.hs| == |x.begun| && x.begun[t] && x.hs[t].todo == []
    && Step(c, x.a, y.a, t, ch) && t < |y.a.threads| && HeldAt(y.a.threads[t]) == x.hs[t].held
    && y == x.(a := y.a, begun := x.begun[t := false])
  }

  ghost predicate ReaderComes(x: Fine, y: Fine, list: seq<nat>) {
    exists ops ::
      && (ops == StatusLocks(list) || ops == HealthyLocks(list) || ops == Section(LeaseMu))
      && y == x.(readers := x.readers + [Holder({}, ops, {})])
  }

  ghost predicate FineStep(c: Params, x: Fine, y: Fine) {
    || (Arrival(x.a, y.a) && y == Fine(y.a, x.hs + [IDLE], x.begun + [false], x.readers))
    || (exists list :: ReaderComes(x, y, list))
    || (exists t: nat, g, ch :: Begins(c, x, y, t, g, ch))
    || (exists i: nat :: Operates(x, y, i))
    || (exists t: nat, ch :: Commits(c, x, y, t, ch))
  }

  ghost predicate FineInit(c: Params, x: Fine) {
    && Init(c, x.a) && x.readers == []
    && |x.hs| == |x.begun| == |x.a.threads|
    && forall t :: 0 <= t < |x.hs| ==> x.hs[t] == IDLE && !x.begun[t]
  }

  ghost predicate FineRun(c: Params, run: seq<Fine>) {
    && |run| > 0 && FineInit(c, run[0])
    && forall i :: 0 <= i < |run| - 1 ==> FineStep(c, run[i], run[i + 1])
  }

  // Between regions a thread holds what HeldAt says; inside, its program is
  // disciplined; and the state behind it all is reachable.
  ghost predicate FineOk(c: Params, x: Fine) {
    && Reachable(c, x.a) && Orderly(All(x))
    && |x.hs| == |x.begun| == |x.a.threads|
    && forall t :: 0 <= t < |x.hs| && !x.begun[t] ==>
         x.hs[t] == Holder(HeldAt(x.a.threads[t]), [], HeldAt(x.a.threads[t]))
  }

  lemma OrderlySwap(a: seq<Holder>, i: nat, h: Holder)
    requires Orderly(a) && i < |a| && h.held == a[i].held && Disciplined(h.held, h.todo, h.end)
    ensures Orderly(a[i := h])
  {
  }

  lemma OrderlyAdd(a: seq<Holder>, i: nat, h: Holder)
    requires Orderly(a) && i <= |a| && h.held == {} && Disciplined({}, h.todo, h.end)
    ensures Orderly(a[..i] + [h] + a[i..])
  {
    var b := a[..i] + [h] + a[i..];
    forall t, u, l | 0 <= t < u < |b| && l in b[t].held ensures l !in b[u].held {
      var t' := if t < i then t else t - 1;
      var u' := if u < i then u else u - 1;
      assert t != i && (t < i ==> b[t] == a[t]) && (t > i ==> b[t] == a[t - 1]);
      assert u != i ==> b[u] == a[u'];
    }
  }

  lemma ArrivesOk(c: Params, x: Fine, y: Fine)
    requires FineOk(c, x) && Arrival(x.a, y.a) && y == Fine(y.a, x.hs + [IDLE], x.begun + [false], x.readers)
    ensures FineOk(c, y)
  {
    Safety.ReachableNext(c, x.a, y.a);
    Leases.ArrivalBook(x.a, y.a);
    var n := |x.hs|;
    OrderlyAdd(All(x), n, IDLE);
    assert All(x)[..n] == x.hs && All(x)[n..] == x.readers;
    assert All(y) == x.hs + [IDLE] + x.readers;
    assert !y.a.threads[n].Scanning?;
    hide Reachable, Arrival, Orderly;
    forall t | 0 <= t < |y.hs| && !y.begun[t]
      ensures y.hs[t] == Holder(HeldAt(y.a.threads[t]), [], HeldAt(y.a.threads[t]))
    {
      assert t < n ==> y.a.threads[..n][t] == x.a.threads[t] && !x.begun[t];
    }
  }

  lemma ReaderOk(c: Params, x: Fine, y: Fine, list: seq<nat>)
    requires FineOk(c, x) && ReaderComes(x, y, list)
    ensures FineOk(c, y)
  {
    ReadersDisciplined(list);
    hide Reachable, Orderly, Disciplined, StatusLocks, HealthyLocks, HeldAt;
    var ops :| (ops == StatusLocks(list) || ops == HealthyLocks(list) || ops == Section(LeaseMu))
               && y == x.(readers := x.readers + [Holder({}, ops, {})]);
    var m := |All(x)|;
    OrderlyAdd(All(x), m, Holder({}, ops, {}));
    assert All(y) == All(x)[..m] + [Holder({}, ops, {})] + All(x)[m..];
  }

  lemma BeginsOk(c: Params, x: Fine, y: Fine, t: nat, g: Shared, ch: Choice)
    requires FineOk(c, x) && Begins(c, x, y, t, g, ch)
    ensures FineOk(c, y)
  {
    RegionDisciplined(c, g, t, x.a.threads[t], ch);
    hide Region, Refers, Reachable, LocksOf, CanRun, HeldAt, Orderly, Disciplined;
    var h := y.hs[t];
    assert x.hs[t].held == HeldAt(x.a.threads[t]);
    assert y == x.(hs := x.hs[t := h], begun := x.begun[t := true]);
    BeginsAll(x, y, t, h);
  }

  lemma BeginsAll(x: Fine, y: Fine, t: nat, h: Holder)
    requires Orderly(All(x)) && t < |x.hs| == |x.begun| && y == x.(hs := x.hs[t := h], begun := x.begun[t := true])
    requires h.held == x.hs[t].held && Disciplined(h.held, h.todo, h.end)
    ensures Orderly(All(y))
  {
    hide Orderly;
    assert All(x)[t] == x.hs[t];
    assert All(y) == All(x)[t := h];
    OrderlySwap(All(x), t, h);
  }

  lemma OperatesOk(c: Params, x: Fine, y: Fine, i: nat)
    requires FineOk(c, x) && Operates(x, y, i)
    ensures FineOk(c, y)
  {
    PerformsOrderly(All(x), All(y), i);
    hide Reachable, Orderly, HeldAt;
    forall t | 0 <= t < |y.hs| && !y.begun[t]
      ensures y.hs[t] == x.hs[t]
    {
      assert All(y)[t] == y.hs[t] && All(x)[t] == x.hs[t];
    }
  }

  lemma CommitsOk(c: Params, x: Fine, y: Fine, t: nat, ch: Choice)
    requires FineOk(c, x) && Commits(c, x, y, t, ch)
    ensures FineOk(c, y)
  {
    assert Moves(c, x.a, y.a);
    Safety.ReachableNext(c, x.a, y.a);
    assert All(x)[t] == x.hs[t] && All(y) == All(x);
    assert Disciplined(x.hs[t].held, x.hs[t].todo, x.hs[t].end);
    hide Reachable, Orderly;
    CommitsRest(c, x, y, t, ch);
  }

  lemma CommitsRest(c: Params, x: Fine, y: Fine, t: nat, ch: Choice)
    requires Commits(c, x, y, t, ch) && x.hs[t].held == x.hs[t].end
    requires forall u :: 0 <= u < |x.hs| && !x.begun[u] ==>
               x.hs[u] == Holder(HeldAt(x.a.threads[u]), [], HeldAt(x.a.threads[u]))
    ensures |y.a.threads| == |x.a.threads|
    ensures forall u :: 0 <= u < |y.hs| && !y.begun[u] ==>
              y.hs[u] == Holder(HeldAt(y.a.threads[u]), [], HeldAt(y.a.threads[u]))
  {
    hide Region, Refers, CanRun;
    assert |y.a.threads| == |x.a.threads|;
    forall u | 0 <= u < |y.hs| && !y.begun[u]
      ensures y.hs[u] == Holder(HeldAt(y.a.threads[u]), [], HeldAt(y.a.threads[u]))
    {
      System.AfterStep(c, x.a, y.a, t, ch, u);
      assert System.PcOf(y.a, u) == y.a.threads[u] && System.PcOf(x.a, u) == x.a.threads[u];
    }
  }

  lemma FineStepOk(c: Params, x: Fine, y: Fine)
    requires FineOk(c, x) && FineStep(c, x, y)
    ensures FineOk(c, y)
  {
    hide FineOk, Arrival, Begins, Operates, Commits, ReaderComes;
    if Arrival(x.a, y.a) && y == Fine(y.a, x.hs + [IDLE], x.begun + [false], x.readers) {
      ArrivesOk(c, x, y);
    } else if list :| ReaderComes(x, y, list) {
      ReaderOk(c, x, y, list);
    } else if t: nat, g, ch :| Begins(c, x, y, t, g, ch) {
      BeginsOk(c, x, y, t, g, ch);
    } else if i: nat :| Operates(x, y, i) {
      OperatesOk(c, x, y, i);
    } else {
      var t: nat, ch :| Commits(c, x, y, t, ch);
      CommitsOk(c, x, y, t, ch);
    }
  }

  lemma FineInitOk(c: Params, x: Fine)
    requires FineInit(c, x)
    ensures FineOk(c, x)
  {
    assert IsRun(c, [x.a]) && Init(c, [x.a][0]) && [x.a][|[x.a]| - 1] == x.a;
    hide Reachable;
    assert All(x) == x.hs;
    forall t | 0 <= t < |x.a.threads| ensures x.a.threads[t] == Reaping {
    }
  }

  lemma {:induction false} FineRunOk(c: Params, run: seq<Fine>, i: nat)
    requires FineRun(c, run) && i < |run|
    ensures FineOk(c, run[i])
  {
    hide FineStep, FineOk, FineInit;
    if i == 0 {
      FineInitOk(c, run[0]);
    } else {
      FineRunOk(c, run, i - 1);
      assert FineStep(c, run[i - 1], run[(i - 1) + 1]);
      FineStepOk(c, run[i - 1], run[i]);
    }
  }

  // At every point of every run, a thread that someone waits for can go on, or
  // waits for one that can.
  lemma WaitsEnd(c: Params, run: seq<Fine>, i: nat, t: nat, u: nat)
    requires FineRun(c, run) && i < |run| && WaitsFor(All(run[i]), t, u)
    ensures t != u
    ensures !Blocked(All(run[i]), u)
            || forall v: nat :: WaitsFor(All(run[i]), u, v) ==> !Blocked(All(run[i]), v)
  {
    FineRunOk(c, run, i);
    hide Reachable, FineRun, Orderly;
    ShortWaits(All(run[i]), t, u);
  }

  // At every point of every run, with any number of threads anywhere inside their
  // regions and any number of readers, the state behind it is a reachable state of
  // the transition system, and no threads wait for each other's locks in a circle.
  lemma NoWaitCycle(c: Params, run: seq<Fine>, i: nat, walk: seq<nat>)
    requires FineRun(c, run) && i < |run| && |walk| > 1 && walk[0] == walk[|walk| - 1]
    ensures Reachable(c, run[i].a)
    ensures exists k :: 0 <= k < |walk| - 1 && !WaitsFor(All(run[i]), walk[k], walk[k + 1])
  {
    FineRunOk(c, run, i);
    hide Reachable, FineRun, Orderly;
    NoCircle(All(run[i]), walk);
  }
}
