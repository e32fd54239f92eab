// The central invariant: who owns each sentry, and what is true of a sentry in
// the hands of each owner. It is proved region by region on the shared state
// and the one running thread, then lifted to any number of threads.
module Invariant {
  import opened Basics
  import opened Protocol
  import opened Guests

  // ---- facts about one sentry --------------------------------------------

  // A sentry may serve this many leases.
  function Reuse(c: Params): int {
    if c.warm then Max(1, c.maxRestores) else 1
  }

  ghost predicate Spare(c: Params, x: SentryRecord) {
    x.restores == 0 || (c.warm && 0 < x.restores < c.maxRestores)
  }

  ghost predicate Unspent(c: Params, x: SentryRecord) {
    x.served == x.restores && Spare(c, x)
  }

  ghost predicate Spent(c: Params, x: SentryRecord) {
    x.served == x.restores + 1 && Spare(c, x)
  }

  function GuestOf(c: Params, x: SentryRecord): Stage {
    StageOf(c, x.calls)
  }

  // No lease ran in this guest since it was made or last reset, and it was neither
  // killed nor reaped.
  ghost predicate Blank(c: Params, x: SentryRecord) {
    GuestOf(c, x).Idling?
  }

  // So it is, and what it holds is that checkpoint.
  ghost predicate Loaded(c: Params, x: SentryRecord, checkpoint: string) {
    GuestOf(c, x) == Idling(Some(checkpoint))
  }

  ghost predicate Pristine(c: Params, x: SentryRecord) {
    Blank(c, x) && (c.preRestore ==> Loaded(c, x, c.checkpoint))
  }

  // A guest that recycle gives up on.
  ghost predicate Lost(c: Params, x: SentryRecord) {
    GuestOf(c, x).Wiped? || GuestOf(c, x).Spoilt? || (GuestOf(c, x).Reaped? && !c.warm)
  }

  // A pool member: in the list while the pool is open, handed to Shutdown after.
  ghost predicate Placed(g: Shared, s: nat)
    requires s < |g.sentries|
  {
    if g.closed then g.sentries[s].drained == 1 || s in g.doomed else s in g.list
  }

  ghost predicate Outside(g: Shared, s: nat) {
    s !in g.list
  }

  // A sentry between spawn and its first append.
  ghost predicate Newborn(x: SentryRecord) {
    x.state.Ready? && x.leaseId.None? && x.restores == x.served == 0
  }

  // A member that an executor holds.
  ghost predicate Taken(c: Params, x: SentryRecord) {
    x.birth.Live? && x.state.Running? && Unspent(c, x) && Blank(c, x)
  }

  // One that has passed the checks on its override.
  ghost predicate Cleared(c: Params, x: SentryRecord, r: Request) {
    Taken(c, x) && Accepted(c, r) && Loaded(c, x, CheckpointOf(c, r))
  }

  // A member that a recycler holds.
  ghost predicate Retiring(x: SentryRecord) {
    x.birth.Live? && x.state.Draining? && x.leaseId.None?
  }

  // A member that acquire may take.
  ghost predicate Available(c: Params, x: SentryRecord) {
    x.birth.Live? && x.state.Ready? && x.leaseId.None? && Unspent(c, x) && Pristine(c, x)
  }

  ghost predicate OnLease(c: Params, x: SentryRecord) {
    x.birth.Live? && x.state.Running? && Spent(c, x) && GuestOf(c, x).Serving?
  }

  // What a thread knows of the record of a sentry it holds.
  ghost predicate HeldRecord(c: Params, x: SentryRecord, pc: Pc) {
    match pc
    case ColdSpawning(_, _) => Newborn(x) && x.birth.Spawning? && x.calls == []
    case RefillSpawning(_, _) => Newborn(x) && x.birth.Spawning? && x.calls == []
    case ColdSpawned(_, _) => Newborn(x) && x.birth.Live? && Pristine(c, x)
    case RefillSpawned(_, _) => Newborn(x) && x.birth.Live? && Pristine(c, x)
    case ColdCleaning(_) => Newborn(x) && x.birth.Live? && Blank(c, x)
    case RefillCleaning(_) => Newborn(x) && x.birth.Live? && Blank(c, x)
    case Acquired(_, _) => Taken(c, x) && x.leaseId.None? && Pristine(c, x)
    case Restoring(r, _) => Taken(c, x) && x.leaseId.None? && Accepted(c, r) && !c.preRestore
    case Restored(r, _) => Cleared(c, x, r) && x.leaseId.None?
    case Counted(r, _) => Cleared(c, x, r) && x.leaseId.None?
    case Leasing(r, _, l) => Cleared(c, x, r) && x.leaseId == Some(l)
    case Releasing(_) => Taken(c, x) && Pristine(c, x)
    case Unleased(_) => OnLease(c, x)
    case Recycling(_) => OnLease(c, x)
    case Killing(_) => Retiring(x) && Spent(c, x) && GuestOf(c, x).Serving?
    case Waiting(_, forced) => Retiring(x) && Spent(c, x) && GuestOf(c, x) == if forced then Forced else Termed
    case Resetting(_) => Retiring(x) && Spent(c, x) && c.warm && GuestOf(c, x).Reaped?
    case Counting(_) => Retiring(x) && Spent(c, x) && c.warm && GuestOf(c, x).Wiped?
    case Checking(_) => Retiring(x) && x.served == x.restores > 0 && c.warm && GuestOf(c, x).Wiped?
    case Rewarming(_) => Retiring(x) && Unspent(c, x) && GuestOf(c, x).Wiped?
    case Readying(_) => Retiring(x) && Unspent(c, x) && Loaded(c, x, c.checkpoint)
    case Removing(_) => Retiring(x) && Lost(c, x)
    case Cleaning(_) => Retiring(x) && Lost(c, x)
    case Evicting(_) => x.birth.Live? && x.state.Ready? && x.leaseId.None? && Blank(c, x)
    case _ => true
  }

  // Holders of sentries that are not, or no longer, in the list.
  predicate Apart(pc: Pc) {
    || pc.ColdSpawning? || pc.ColdSpawned? || pc.ColdCleaning?
    || pc.RefillSpawning? || pc.RefillSpawned? || pc.RefillCleaning?
    || pc.Cleaning? || pc.Evicting?
  }

  // Holders of members.
  predicate Among(pc: Pc) {
    SentryOf(pc).Some? && !Apart(pc)
  }

  ghost predicate ThreadFact(c: Params, g: Shared, s: nat, pc: Pc)
    requires s < |g.sentries|
  {
    HeldRecord(c, g.sentries[s], pc) && (Apart(pc) ==> Outside(g, s)) && (Among(pc) ==> Placed(g, s))
  }

  // What is true of the record of a sentry in the hands of its owner,
  ghost predicate RecordFact(c: Params, x: SentryRecord, pc: Pc) {
    match x.owner
    case Idle => Available(c, x)
    case Lease(l) => OnLease(c, x) && x.leaseId == Some(l)
    case Orphan => OnLease(c, x) && x.leaseId.Some?
    case Retired => (x.birth.Live? && GuestOf(c, x).Deleted?) || (x.birth.Failed? && x.calls == [])
    case Thread(_) => HeldRecord(c, x, pc)
  }

  // and of its place.
  ghost predicate Seated(g: Shared, s: nat, pc: Pc)
    requires s < |g.sentries|
  {
    match g.sentries[s].owner
    case Retired => Outside(g, s)
    case Thread(_) => (Apart(pc) ==> Outside(g, s)) && (Among(pc) ==> Placed(g, s))
    case _ => Placed(g, s)
  }

  ghost predicate Fact(c: Params, g: Shared, s: nat, pc: Pc)
    requires s < |g.sentries|
  {
    RecordFact(c, g.sentries[s], pc) && Seated(g, s, pc)
  }

  // Counters of one sentry.
  ghost predicate Bounded(c: Params, x: SentryRecord) {
    && 0 <= x.restores && 0 <= x.served <= Reuse(c)
    && x.cleaned == Bit(x.owner.Retired? && x.birth.Live?)
  }

  // ---- facts about the shared state --------------------------------------

  ghost predicate Listed(g: Shared) {
    && Within(g.list, |g.sentries|) && Distinct(g.list)
    && Within(g.doomed, |g.sentries|) && Distinct(g.doomed)
    && (if g.closed then g.list == [] else g.doomed == [])
    && (forall i :: 0 <= i < |g.doomed| ==> g.sentries[g.doomed[i]].drained == 0)
    && (g.closed ==> g.lock.None? && g.stopped)
    && (forall i :: 0 <= i < |g.list| && g.sentries[g.list[i]].state.Ready? ==> g.sentries[g.list[i]].owner.Idle?)
    && (forall s :: 0 <= s < |g.sentries| ==> 0 <= g.sentries[s].drained <= Bit(g.closed))
  }

  // The lease table, the ids on the sentries and the owners agree.
  ghost predicate Booked(g: Shared) {
    && (forall l :: l in g.book.leases ==>
          && l < |g.book.issued| && g.book.issued[l] == g.book.leases[l] < |g.sentries|
          && g.sentries[g.book.leases[l]].owner == Lease(l))
    && (forall s :: 0 <= s < |g.sentries| && g.sentries[s].owner.Lease? ==>
          g.sentries[s].owner.l in g.book.leases && g.book.leases[g.sentries[s].owner.l] == s)
    && (forall s :: 0 <= s < |g.sentries| && g.sentries[s].leaseId.Some? ==>
          g.sentries[s].leaseId.value < |g.book.issued| && g.book.issued[g.sentries[s].leaseId.value] == s)
  }

  // What every registration found.
  ghost predicate GrantOk(c: Params, e: Grant) {
    && Accepted(c, e.request)
    && Loaded(c, e.before, CheckpointOf(c, e.request))
    && Unspent(c, e.before)
    && e.before.birth.Live? && e.before.cleaned == 0
  }

  ghost predicate Granted(c: Params, g: Shared) {
    forall i :: 0 <= i < |g.book.grants| ==>
      GrantOk(c, g.book.grants[i]) && (g.closed || g.book.grants[i].before.drained == 0)
  }

  // ---- one thread's view --------------------------------------------------

  ghost predicate PcOk(g: Shared, t: nat, pc: Pc) {
    && (g.lock == Some(t) <==> pc.Scanning?)
    && (pc.Scanning? ==> pc.i <= |g.list|)
    && (SentryOf(pc).Some? ==> SentryOf(pc).value < |g.sentries|)
    && (pc.Evicting? ==> Within(pc.todo, |g.sentries|) && Distinct(pc.todo))
    && (pc.Joining? || pc.Closing? ==> g.stopped)
  }

  ghost predicate OwnOk(c: Params, g: Shared, t: nat, pc: Pc) {
    forall s :: 0 <= s < |g.sentries| ==>
      && (g.sentries[s].owner == Thread(t) <==> Holds(pc, s))
      && Bounded(c, g.sentries[s])
      && (!Foreign(g.sentries[s], t) ==> Fact(c, g, s, pc))
  }

  ghost predicate Foreign(x: SentryRecord, t: nat) {
    x.owner.Thread? && x.owner.t != t
  }

  ghost predicate LocalOk(c: Params, g: Shared, t: nat, pc: Pc) {
    Listed(g) && Booked(g) && Granted(c, g) && PcOk(g, t, pc) && OwnOk(c, g, t, pc)
  }

  // What thread t's region leaves alone.
  ghost predicate Spares(g: Shared, h: Shared, t: nat) {
    && |g.sentries| <= |h.sentries|
    && (g.closed ==> h.closed) && (g.stopped ==> h.stopped)
    && (h.lock != g.lock ==> (g.lock.None? || g.lock == Some(t)) && (h.lock.None? || h.lock == Some(t)))
    && (g.lock.Some? && g.lock != Some(t) ==> h.list == g.list)
    && (forall s :: 0 <= s < |g.sentries| && Foreign(g.sentries[s], t) ==>
          && (h.sentries[s] == g.sentries[s] || h.sentries[s] == Flushed(g.sentries[s]))
          && (Placed(g, s) ==> Placed(h, s))
          && (Outside(g, s) ==> Outside(h, s)))
    && (forall s :: 0 <= s < |h.sentries| && Foreign(h.sentries[s], t) ==>
          s < |g.sentries| && g.sentries[s].owner == h.sentries[s].owner)
  }

  // Shutdown's clean-up under a thread's hands changes nothing that it knows.
  lemma FlushedRecord(c: Params, x: SentryRecord, pc: Pc)
    requires HeldRecord(c, x, pc) && x.drained >= 0
    ensures HeldRecord(c, Flushed(x), pc)
  {
  }

  lemma SparedOne(g: Shared, h: Shared, t: nat, s: nat)
    requires Spares(g, h, t) && s < |g.sentries| && Foreign(g.sentries[s], t)
    ensures s < |h.sentries| && (h.sentries[s] == g.sentries[s] || h.sentries[s] == Flushed(g.sentries[s]))
    ensures (Placed(g, s) ==> Placed(h, s)) && (Outside(g, s) ==> Outside(h, s))
  {
    hide Placed, Outside, Flushed;
  }

  lemma ListedDrained(g: Shared, s: nat)
    requires Listed(g) && s < |g.sentries|
    ensures g.sentries[s].drained >= 0
  {
  }

  // A foreign sentry keeps its fact.
  lemma FactKept(c: Params, g: Shared, h: Shared, t: nat, u: nat, s: nat, pc: Pc)
    requires Spares(g, h, t) && u != t && Listed(g)
    requires s < |g.sentries| && g.sentries[s].owner == Thread(u)
    ensures s < |h.sentries| && (Fact(c, g, s, pc) ==> Fact(c, h, s, pc))
  {
    hide Spares, Listed, HeldRecord, Placed, Outside, Apart, Among;
    SparedOne(g, h, t, s);
    ListedDrained(g, s);
    var x := g.sentries[s];
    assert Flushed(x).owner == x.owner;
    hide Flushed;
    if HeldRecord(c, x, pc) {
      FlushedRecord(c, x, pc);
    }
  }

  ghost predicate SameTables(g: Shared, h: Shared) {
    && h.list == g.list && h.doomed == g.doomed && h.closed == g.closed && (g.stopped ==> h.stopped)
    && h.book.leases == g.book.leases && h.book.issued == g.book.issued && h.book.grants == g.book.grants
  }

  // The fact of a sentry that no thread has in hand depends on no thread.
  lemma FactFramed(c: Params, g: Shared, h: Shared, s: nat, pc: Pc, pc': Pc)
    requires s < |g.sentries| && s < |h.sentries| && h.sentries[s] == g.sentries[s]
    requires !g.sentries[s].owner.Thread?
    requires Placed(g, s) ==> Placed(h, s)
    requires Outside(g, s) ==> Outside(h, s)
    ensures Fact(c, g, s, pc) ==> Fact(c, h, s, pc')
  {
    hide HeldRecord, Placed, Outside;
  }
}
