// The sentry pool and its lease table (internal/pool/pool.go) as a transition
// system. Every goroutine is a program counter; one step is one region of code
// under a lock, one runtime call, or one atomic increment.
module Protocol {
  import opened Basics
  import Paths

  // The part of the configuration that one pool reads.
  datatype Params = Params(
    poolSize: int,
    maxPending: int,
    preRestore: bool,
    warm: bool,
    checkpoint: string,
    maxRestores: int,
    reaps: bool,
    dirs: seq<Option<Paths.Path>>)

  // The bound that acquire uses on the pending counter.
  function QueueLimit(c: Params): int {
    if c.maxPending <= 0 then c.poolSize * 2 else c.maxPending
  }

  // A checkpoint override: the string handed to the runtime and what
  // filepath.Abs makes of it. The empty string of the API is None.
  datatype Override = Override(checkpoint: string, abs: Option<Paths.Path>)
  type Request = Option<Override>

  function CheckpointOf(c: Params, r: Request): string {
    if r.Some? then r.value.checkpoint else c.checkpoint
  }

  predicate Accepted(c: Params, r: Request) {
    r.Some? ==> !c.preRestore && Paths.Allowed(c.dirs, r.value.abs)
  }

  // ---- sentries -----------------------------------------------------------

  datatype SentryState = Ready | Running | Draining

  // Whether spawn is still building the sentry, returned it, or gave up.
  datatype Birth = Spawning | Live | Failed

  // What has happened to a guest: the runtime calls of its owners, the leases that
  // it served, and grace periods that passed. Exit is the return of Wait.
  datatype Call =
    | Create
    | Restore(checkpoint: string, ok: bool)
    | Use(request: Request)
    | Term
    | Overdue
    | Kill
    | Exit
    | Reset(ok: bool)
    | Delete

  // Who may act on a sentry; a history variable that no step reads.
  datatype Owner = Idle | Thread(t: nat) | Lease(l: nat) | Orphan | Retired

  // state, leaseId and restores are the fields of the source's Sentry; the
  // others record history: the calls of its owners, leases served, clean-ups by its
  // owner and by Shutdown.
  datatype SentryRecord = SentryRecord(
    state: SentryState,
    leaseId: Option<nat>,
    restores: int,
    birth: Birth,
    calls: seq<Call>,
    served: int,
    cleaned: int,
    drained: int,
    owner: Owner)

  function NewSentry(t: nat): SentryRecord {
    SentryRecord(Ready, None, 0, Spawning, [], 0, 0, 0, Thread(t))
  }

  function Called(x: SentryRecord, e: Call): SentryRecord {
    x.(calls := x.calls + [e])
  }

  // The end of spawn: everything after the sentry record exists succeeded or not.
  // Warm mode creates the guest first; stock mode always restores.
  function Spawned(c: Params, x: SentryRecord, ok: bool): SentryRecord {
    if ok then
      x.(birth := Live,
         calls := x.calls + (if c.warm then [Create] else [])
                  + (if c.preRestore || !c.warm then [Restore(c.checkpoint, true)] else []))
    else
      x.(birth := Failed, owner := Retired)
  }

  // cleanup by the thread that owns the sentry, and by Shutdown.
  function Cleaned(x: SentryRecord): SentryRecord {
    x.(cleaned := x.cleaned + 1, calls := x.calls + [Kill, Delete], owner := Retired)
  }

  function Flushed(x: SentryRecord): SentryRecord {
    x.(drained := x.drained + 1)
  }

  // ---- shared state -------------------------------------------------------

  // One registration of a lease and the sentry as it was just before it.
  datatype Grant = Grant(lease: nat, sentry: nat, request: Request, before: SentryRecord)

  // The Manager's lease table and the counters about it. Lease ids are fresh, so
  // they are numbered in the order of issue; issued records the sentries.
  datatype Book = Book(
    leases: map<nat, nat>,
    issued: seq<nat>,
    executions: int,
    grants: seq<Grant>,
    completed: int,
    cancelled: int,
    recycles: int,
    shutdown: bool)

  // What p.mu, the sentries' own locks and leaseMu protect. lock is the thread
  // holding p.mu across a scan; sentries lists every sentry spawn ever built, so
  // its length is nextID; doomed is Shutdown's private copy of the list.
  datatype Shared = Shared(
    lock: Option<nat>,
    sentries: seq<SentryRecord>,
    list: seq<nat>,
    pending: int,
    closed: bool,
    stopped: bool,
    joining: int,
    doomed: seq<nat>,
    failed: int,
    evicted: int,
    book: Book)

  // ---- program counters ---------------------------------------------------

  datatype Pc =
    | Done
    // Pool.Execute
    | Entering(r: Request)
    | Scanning(r: Request, i: nat, queued: bool)
    | Asleep(r: Request)
    | Woken(r: Request)
    | ColdStart(r: Request)
    | ColdSpawning(r: Request, s: nat)
    | ColdSpawned(r: Request, s: nat)
    | ColdFailed
    | ColdCleaning(s: nat)
    | Acquired(r: Request, s: nat)
    | Restoring(r: Request, s: nat)
    | Restored(r: Request, s: nat)
    | Counted(r: Request, s: nat)
    | Leasing(r: Request, s: nat, l: nat)
    | Releasing(s: nat)
    | Signalling(recycler: bool)
    // Manager.Complete, by a client or an expiry timer
    | Completing(l: nat)
    | Unleased(s: nat)
    // Pool.recycle, remove, cleanup and refill; k counts the spawns still to
    // start
    | Recycling(s: nat)
    | Killing(s: nat)
    | Waiting(s: nat, forced: bool)
    | Resetting(s: nat)
    | Counting(s: nat)
    | Checking(s: nat)
    | Rewarming(s: nat)
    | Readying(s: nat)
    | Removing(s: nat)
    | Cleaning(s: nat)
    | Sizing
    | Refilling(k: nat)
    | RefillSpawning(k: nat, s: nat)
    | RefillSpawned(k: nat, s: nat)
    | RefillCleaning(s: nat)
    // Pool.reaper
    | Reaping
    | Evicting(todo: seq<nat>)
    // Manager.Shutdown and Pool.Shutdown
    | Cancelling
    | Stopping
    | Joining
    | Closing
    | Flushing

  // The sentry a thread has in hand, for all but the reaper.
  function SentryOf(pc: Pc): Option<nat> {
    match pc
    case Done => None
    case Entering(_) => None
    case Scanning(_, _, _) => None
    case Asleep(_) => None
    case Woken(_) => None
    case ColdStart(_) => None
    case ColdFailed => None
    case Signalling(_) => None
    case Completing(_) => None
    case Sizing => None
    case Refilling(_) => None
    case Reaping => None
    case Evicting(_) => None
    case Cancelling => None
    case Stopping => None
    case Joining => None
    case Closing => None
    case Flushing => None
    case _ => Some(pc.s)
  }

  predicate Holds(pc: Pc, s: nat) {
    SentryOf(pc) == Some(s) || (pc.Evicting? && s in pc.todo)
  }

  // ---- one region of code -------------------------------------------------

  // What a region cannot decide by itself: whether a runtime call, a spawn, a
  // health reading or a timed wait went well, which sentries have been idle too
  // long, and which sleeper a Signal reaches.
  datatype Choice = Choice(ok: bool, idle: set<nat>, wakee: nat)

  datatype Wake = Nobody | One | Everybody

  datatype Outcome = Outcome(g: Shared, pc: Pc, wake: Wake)

  function Go(g: Shared, pc: Pc): Outcome { Outcome(g, pc, Nobody) }

  function Set(g: Shared, s: nat, x: SentryRecord): Shared
    requires s < |g.sentries|
  {
    g.(sentries := g.sentries[s := x])
  }

  ghost predicate Within(xs: seq<nat>, n: nat) {
    forall i :: 0 <= i < |xs| ==> xs[i] < n
  }

  // References that a region follows are in range.
  ghost predicate Refers(g: Shared, pc: Pc) {
    && (SentryOf(pc).Some? ==> SentryOf(pc).value < |g.sentries|)
    && (pc.Evicting? ==> Within(pc.todo, |g.sentries|))
    && Within(g.list, |g.sentries|)
    && Within(g.doomed, |g.sentries|)
    && (forall l :: l in g.book.leases ==> g.book.leases[l] < |g.sentries|)
  }

  // Whether the reaper's select takes the tick rather than the stop channel.
  predicate Ticks(g: Shared, ch: Choice) {
    ch.ok || !g.stopped
  }

  // A thread can run unless it is finished, asleep on the condition variable,
  // waiting for p.mu, or waiting for the recyclers.
  predicate CanRun(g: Shared, t: nat, pc: Pc, ch: Choice) {
    match pc
    case Done => false
    case Asleep(_) => false
    case Scanning(_, _, _) => g.lock == Some(t)
    case Entering(_) => g.lock.None?
    case Woken(_) => g.lock.None?
    case ColdFailed => g.lock.None?
    case ColdSpawned(_, _) => g.lock.None?
    case Signalling(_) => g.lock.None?
    case Removing(_) => g.lock.None?
    case Sizing => g.lock.None?
    case RefillSpawned(_, _) => g.lock.None?
    case Reaping => Ticks(g, ch) ==> g.lock.None?
    case Closing => g.lock.None?
    case Joining => g.joining == 0
    case _ => true
  }

  ghost predicate Runs(g: Shared, t: nat, pc: Pc, ch: Choice) {
    Refers(g, pc) && CanRun(g, t, pc, ch)
  }

  // ---- the parts of the program ------------------------------------------

  predicate InAcquire(pc: Pc) {
    pc.Entering? || pc.Scanning? || pc.Woken?
  }

  predicate InColdPath(pc: Pc) {
    pc.ColdStart? || pc.ColdSpawning? || pc.ColdFailed? || pc.ColdSpawned? || pc.ColdCleaning?
  }

  predicate InServe(pc: Pc) {
    pc.Acquired? || pc.Restoring? || pc.Restored? || pc.Counted?
  }

  predicate InRegister(pc: Pc) {
    pc.Leasing? || pc.Releasing? || pc.Signalling?
  }

  predicate InComplete(pc: Pc) {
    pc.Completing? || pc.Unleased?
  }

  predicate InDrain(pc: Pc) {
    pc.Recycling? || pc.Killing? || pc.Waiting? || pc.Resetting? || pc.Counting?
  }

  predicate InRewarm(pc: Pc) {
    pc.Checking? || pc.Rewarming? || pc.Readying? || pc.Removing? || pc.Cleaning?
  }

  predicate InRefill(pc: Pc) {
    pc.Sizing? || pc.Refilling? || pc.RefillSpawning? || pc.RefillSpawned? || pc.RefillCleaning?
  }

  predicate InReap(pc: Pc) {
    pc.Reaping? || pc.Evicting?
  }

  predicate InShutdown(pc: Pc) {
    pc.Cancelling? || pc.Stopping? || pc.Joining? || pc.Closing? || pc.Flushing?
  }

  // acquire up to the cold path, and its wait loop. findReadyLocked takes each
  // sentry's own lock in turn, so it is one step per list element under p.mu.
  function Acquire(c: Params, g: Shared, t: nat, pc: Pc): Outcome
    requires Refers(g, pc) && InAcquire(pc)
  {
    match pc
    case Entering(r) =>
      if g.closed then Go(g, Done)
      else Go(g.(lock := Some(t)), Scanning(r, 0, false))
    case Scanning(r, i, queued) =>
      if i < |g.list| then
        var s := g.list[i];
        var x := g.sentries[s];
        if x.state.Ready? then
          Go(Set(g, s, x.(state := Running, owner := Thread(t)))
             .(lock := None, pending := g.pending - Bit(queued)),
             Acquired(r, s))
        else Go(g, Scanning(r, i + 1, queued))
      else
        var g' := g.(lock := None);
        if queued then Go(g', Asleep(r))
        else if |g.list| == 0 then Go(g'.(pending := g.pending + 1), ColdStart(r))
        else if g.pending >= QueueLimit(c) then Go(g', Done)
        else Go(g'.(pending := g.pending + 1), Asleep(r))
    case Woken(r) =>
      if g.closed then Go(g.(pending := g.pending - 1), Done)
      else Go(g.(lock := Some(t)), Scanning(r, 0, true))
  }

  // The on-demand spawn of acquire.
  function ColdPath(c: Params, g: Shared, t: nat, pc: Pc, ch: Choice): Outcome
    requires Refers(g, pc) && InColdPath(pc)
  {
    match pc
    case ColdStart(r) =>
      Go(g.(sentries := g.sentries + [NewSentry(t)]), ColdSpawning(r, |g.sentries|))
    case ColdSpawning(r, s) =>
      Go(Set(g, s, Spawned(c, g.sentries[s], ch.ok)), if ch.ok then ColdSpawned(r, s) else ColdFailed)
    case ColdFailed =>
      Go(g.(pending := g.pending - 1), Done)
    case ColdSpawned(r, s) =>
      var g' := g.(pending := g.pending - 1);
      if g.closed then Go(g', ColdCleaning(s))
      else Go(Set(g', s, g.sentries[s].(state := Running)).(list := g.list + [s]), Acquired(r, s))
    case ColdCleaning(s) =>
      Go(Set(g, s, Cleaned(g.sentries[s])), Done)
  }

  // Execute after acquire: the override checks, the on-demand restore, the
  // execution counter, and registerLease up to writing the id on the sentry.
  function Serve(c: Params, g: Shared, t: nat, pc: Pc, ch: Choice): Outcome
    requires Refers(g, pc) && InServe(pc)
  {
    match pc
    case Acquired(r, s) =>
      if r.Some? && c.preRestore then Go(g, Releasing(s))
      else if r.Some? && !Paths.Allowed(c.dirs, r.value.abs) then Go(g, Releasing(s))
      else if c.preRestore then Go(g, Restored(r, s))
      else Go(g, Restoring(r, s))
    case Restoring(r, s) =>
      var x := g.sentries[s];
      Go(Set(g, s, Called(x, Restore(CheckpointOf(c, r), ch.ok))),
         if ch.ok then Restored(r, s) else Releasing(s))
    case Restored(r, s) =>
      Go(g.(book := g.book.(executions := g.book.executions + 1)), Counted(r, s))
    case Counted(r, s) =>
      var l := |g.book.issued|;
      Go(Set(g, s, g.sentries[s].(leaseId := Some(l))).(book := g.book.(issued := g.book.issued + [s])),
         Leasing(r, s, l))
  }

  // registerLease's insert, and release, which every error path takes.
  function Register(g: Shared, pc: Pc): Outcome
    requires Refers(g, pc) && InRegister(pc)
  {
    match pc
    case Leasing(r, s, l) =>
      var x := g.sentries[s];
      Go(Set(g, s, Called(x, Use(r)).(served := x.served + 1, owner := Lease(l)))
         .(book := g.book.(leases := g.book.leases[l := s], grants := g.book.grants + [Grant(l, s, r, x)])),
         Done)
    case Releasing(s) =>
      Go(Set(g, s, g.sentries[s].(state := Ready, leaseId := None, owner := Idle)), Signalling(false))
    case Signalling(recycler) =>
      Outcome(g.(joining := g.joining - Bit(recycler)), Done, One)
  }

  // Complete: the removal decides who ends the lease; then recycleWg.Add. The
  // goroutine it launches goes on in the slot of the call.
  function Complete(g: Shared, t: nat, pc: Pc): Outcome
    requires Refers(g, pc) && InComplete(pc)
  {
    match pc
    case Completing(l) =>
      if l !in g.book.leases then Go(g, Done)
      else
        var s := g.book.leases[l];
        Go(Set(g, s, g.sentries[s].(owner := Thread(t)))
           .(book := g.book.(leases := g.book.leases - {l}, completed := g.book.completed + 1)),
           Unleased(s))
    case Unleased(s) =>
      Go(g.(joining := g.joining + 1, book := g.book.(recycles := g.book.recycles + 1)), Recycling(s))
  }

  // recycle up to the health check: the signals, the wait and the reset.
  function Drain(c: Params, g: Shared, pc: Pc, ch: Choice): Outcome
    requires Refers(g, pc) && InDrain(pc)
  {
    match pc
    case Recycling(s) =>
      Go(Set(g, s, g.sentries[s].(state := Draining, leaseId := None)), Killing(s))
    case Killing(s) =>
      Go(Set(g, s, Called(g.sentries[s], Term)), Waiting(s, false))
    case Waiting(s, forced) =>
      if !forced && !ch.ok then
        Go(Set(g, s, Called(Called(g.sentries[s], Overdue), Kill)), Waiting(s, true))
      else
        Go(Set(g, s, Called(g.sentries[s], Exit)),
           if c.warm then Resetting(s) else Removing(s))
    case Resetting(s) =>
      Go(Set(g, s, Called(g.sentries[s], Reset(ch.ok))),
         if ch.ok then Counting(s) else Removing(s))
    case Counting(s) =>
      Go(Set(g, s, g.sentries[s].(restores := g.sentries[s].restores + 1)), Checking(s))
  }

  // HealthCheck: the restore count is exact, the age, memory and descriptor
  // readings are the parameter fit.
  predicate PassesHealthCheck(restores: int, maxRestores: int, fit: bool) {
    restores < maxRestores && fit
  }

  // recycle from the health check: Ready again, or discarded.
  function Rewarm(c: Params, g: Shared, pc: Pc, ch: Choice): Outcome
    requires Refers(g, pc) && InRewarm(pc)
  {
    match pc
    case Checking(s) =>
      Go(g, if PassesHealthCheck(g.sentries[s].restores, c.maxRestores, ch.ok) then Rewarming(s) else Removing(s))
    case Rewarming(s) =>
      Go(Set(g, s, Called(g.sentries[s], Restore(c.checkpoint, ch.ok))),
         if ch.ok then Readying(s) else Removing(s))
    case Readying(s) =>
      Go(Set(g, s, g.sentries[s].(state := Ready, owner := Idle)), Signalling(true))
    case Removing(s) =>
      Go(g.(list := Without(g.list, {s})), Cleaning(s))
    case Cleaning(s) =>
      Go(Set(g, s, Cleaned(g.sentries[s])), Sizing)
  }

  function Shortfall(c: Params, g: Shared): nat {
    if c.poolSize > |g.list| then c.poolSize - |g.list| else 0
  }

  // refill: the shortfall is computed once, then each iteration spawns.
  function Refill(c: Params, g: Shared, t: nat, pc: Pc, ch: Choice): Outcome
    requires Refers(g, pc) && InRefill(pc)
  {
    match pc
    case Sizing =>
      Go(g, Refilling(Shortfall(c, g)))
    case Refilling(k) =>
      if k == 0 then Go(g.(joining := g.joining - 1), Done)
      else Go(g.(sentries := g.sentries + [NewSentry(t)]), RefillSpawning(k - 1, |g.sentries|))
    case RefillSpawning(k, s) =>
      var g' := Set(g, s, Spawned(c, g.sentries[s], ch.ok));
      if ch.ok then Go(g', RefillSpawned(k, s))
      else Go(g'.(failed := g.failed + 1), Refilling(k))
    case RefillSpawned(k, s) =>
      if g.closed then Go(g, RefillCleaning(s))
      else Outcome(Set(g, s, g.sentries[s].(owner := Idle)).(list := g.list + [s]),
                   Refilling(k), One)
    case RefillCleaning(s) =>
      Go(Set(g, s, Cleaned(g.sentries[s])).(joining := g.joining - 1), Done)
  }

  // The members a reaper pass takes out: Ready and idle for too long.
  function Stale(g: Shared, idle: set<nat>): set<nat>
    requires Within(g.list, |g.sentries|)
  {
    set x | x in g.list && x in idle && g.sentries[x].state.Ready?
  }

  function Reassign(xs: seq<SentryRecord>, which: set<nat>, o: Owner): (ys: seq<SentryRecord>)
    ensures |ys| == |xs|
    ensures forall i :: 0 <= i < |xs| ==> ys[i] == if i in which then xs[i].(owner := o) else xs[i]
  {
    seq(|xs|, i requires 0 <= i < |xs| => if i in which then xs[i].(owner := o) else xs[i])
  }

  function Reap(g: Shared, t: nat, pc: Pc, ch: Choice): Outcome
    requires Refers(g, pc) && InReap(pc)
  {
    match pc
    case Reaping =>
      if !Ticks(g, ch) then Go(g, Done)
      else
        var out := Stale(g, ch.idle);
        var evict := Without(g.list, (set x | x in g.list) - out);
        if evict == [] then Go(g, Reaping)
        else Go(g.(list := Without(g.list, out),
                   sentries := Reassign(g.sentries, out, Thread(t)),
                   evicted := g.evicted + |evict|),
                Evicting(evict))
    case Evicting(todo) =>
      if todo == [] then Go(g, Reaping)
      else Go(Set(g, todo[0], Cleaned(g.sentries[todo[0]])),
              if |todo| == 1 then Reaping else Evicting(todo[1..]))
  }

  // Manager.Shutdown's lease loop, then Pool.Shutdown.
  function Shutdown(g: Shared, pc: Pc): Outcome
    requires Refers(g, pc) && InShutdown(pc)
  {
    match pc
    case Cancelling =>
      Go(g.(sentries := Reassign(g.sentries, g.book.leases.Values, Orphan),
            book := g.book.(leases := map[], cancelled := g.book.cancelled + |g.book.leases|)),
         Stopping)
    case Stopping => Go(g.(stopped := true), Joining)
    case Joining => Go(g, Closing)
    case Closing =>
      Outcome(g.(closed := true, doomed := g.list, list := []), Flushing, Everybody)
    case Flushing =>
      if g.doomed == [] then Go(g, Done)
      else Go(Set(g, g.doomed[0], Flushed(g.sentries[g.doomed[0]])).(doomed := g.doomed[1..]), Flushing)
  }

  // One region of whatever part the thread is in.
  function Region(c: Params, g: Shared, t: nat, pc: Pc, ch: Choice): Outcome
    requires Refers(g, pc)
  {
    if InAcquire(pc) then Acquire(c, g, t, pc)
    else if InColdPath(pc) then ColdPath(c, g, t, pc, ch)
    else if InServe(pc) then Serve(c, g, t, pc, ch)
    else if InRegister(pc) then Register(g, pc)
    else if InComplete(pc) then Complete(g, t, pc)
    else if InDrain(pc) then Drain(c, g, pc, ch)
    else if InRewarm(pc) then Rewarm(c, g, pc, ch)
    else if InRefill(pc) then Refill(c, g, t, pc, ch)
    else if InReap(pc) then Reap(g, t, pc, ch)
    else if InShutdown(pc) then Shutdown(g, pc)
    else Go(g, pc)
  }

  // ---- the system ---------------------------------------------------------

  datatype State = State(g: Shared, threads: seq<Pc>)

  ghost predicate HasSleeper(threads: seq<Pc>) {
    exists u :: 0 <= u < |threads| && threads[u].Asleep?
  }

  // Signal reaches some sleeper if there is one; Broadcast reaches all.
  ghost predicate WakeOk(threads: seq<Pc>, wake: Wake, wakee: nat) {
    wake.One? && HasSleeper(threads) ==> wakee < |threads| && threads[wakee].Asleep?
  }

  function Roused(pc: Pc): Pc {
    if pc.Asleep? then Woken(pc.r) else pc
  }

  function Rouse(threads: seq<Pc>, wake: Wake, wakee: nat): seq<Pc> {
    match wake
    case Nobody => threads
    case One => if wakee < |threads| then threads[wakee := Roused(threads[wakee])] else threads
    case Everybody => seq(|threads|, u requires 0 <= u < |threads| => Roused(threads[u]))
  }

  ghost predicate Step(c: Params, a: State, b: State, t: nat, ch: Choice) {
    && t < |a.threads|
    && Refers(a.g, a.threads[t])
    && CanRun(a.g, t, a.threads[t], ch)
    && var o := Region(c, a.g, t, a.threads[t], ch);
    && WakeOk(a.threads[t := o.pc], o.wake, ch.wakee)
    && b == State(o.g, Rouse(a.threads[t := o.pc], o.wake, ch.wakee))
  }

  // Arrivals: a call to Execute, a call to Complete (by a client with any id,
  // by Run, or by an expiry timer), and the one Shutdown that sync.Once lets in.
  ghost predicate Arrival(a: State, b: State) {
    || (exists r :: b == State(a.g, a.threads + [Entering(r)]))
    || (exists l :: b == State(a.g, a.threads + [Completing(l)]))
    || (!a.g.book.shutdown
        && b == State(a.g.(book := a.g.book.(shutdown := true)), a.threads + [Cancelling]))
  }

  // Some thread takes a step.
  ghost predicate Moves(c: Params, a: State, b: State) {
    exists t: nat, ch :: Step(c, a, b, t, ch)
  }

  ghost predicate Next(c: Params, a: State, b: State) {
    Arrival(a, b) || Moves(c, a, b)
  }

  // A sentry as spawn returns it, appended by Start.
  function Fresh(c: Params): SentryRecord {
    Spawned(c, NewSentry(0), true).(owner := Idle)
  }

  // After a successful Start: PoolSize fresh sentries, and the reaper if there
  // is an idle timeout.
  ghost predicate Init(c: Params, a: State) {
    && |a.g.sentries| == |a.g.list| == Max(c.poolSize, 0)
    && (forall i :: 0 <= i < |a.g.list| ==> a.g.list[i] == i && a.g.sentries[i] == Fresh(c))
    && a.g ==
       Shared(None, a.g.sentries, a.g.list, 0, false, false, 0, [], 0, 0, Book(map[], [], 0, [], 0, 0, 0, false))
    && a.threads == if c.reaps then [Reaping] else []
  }

  ghost predicate IsRun(c: Params, run: seq<State>) {
    && |run| > 0
    && (forall i :: 0 <= i < |run| - 1 ==> Next(c, run[i], run[i + 1]))
  }

  ghost predicate Reachable(c: Params, a: State) {
    exists run :: IsRun(c, run) && Init(c, run[0]) && run[|run| - 1] == a
  }
}
