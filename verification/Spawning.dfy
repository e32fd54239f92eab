// The inside of spawn, and what it and the two clean-ups do to the host
// (internal/pool/pool.go): directories, network namespaces, guests and cgroup
// slices, all named by the sentry's number. A call that fails leaves nothing
// itself; the question is what the calls before it have left.
module Spawning {
  import opened Basics

  // Whether there is a network, and cgroups for the pool's class.
  datatype Setup = Setup(network: bool, slices: bool, warm: bool, preRestore: bool)

  // The calls of spawn that can fail, in order.
  datatype Action =
    | MakeDirs
    | PrepareBundle
    | InjectMounts
    | CreateNetNS
    | InjectNetNS
    | CreateGuest
    | RestoreGuest
    | ReadState
    | MakeSlice
    | PlacePid

  const ACTIONS := [
    MakeDirs, PrepareBundle, InjectMounts, CreateNetNS, InjectNetNS, CreateGuest, RestoreGuest, ReadState, MakeSlice,
    PlacePid]

  function Place(a: Action): (i: nat)
    ensures i < |ACTIONS| && ACTIONS[i] == a
  {
    match a
    case MakeDirs => 0
    case PrepareBundle => 1
    case InjectMounts => 2
    case CreateNetNS => 3
    case InjectNetNS => 4
    case CreateGuest => 5
    case RestoreGuest => 6
    case ReadState => 7
    case MakeSlice => 8
    case PlacePid => 9
  }

  // The calls that this setup makes.
  predicate Makes(u: Setup, a: Action) {
    && (a.CreateNetNS? || a.InjectNetNS? ==> u.network)
    && (a.CreateGuest? ==> u.warm)
    && (a.RestoreGuest? ==> u.preRestore || !u.warm)
    && (a.MakeSlice? || a.PlacePid? ==> u.slices)
  }

  // The first call that fails.
  ghost predicate FailsAt(u: Setup, fails: set<Action>, a: Action) {
    Makes(u, a) && a in fails && forall b :: Makes(u, b) && Place(b) < Place(a) ==> b !in fails
  }

  // What stands on the host.
  datatype Footprint = Footprint(dirs: set<nat>, nets: set<nat>, guests: set<nat>, slices: set<nat>)

  // Nothing there belongs to that sentry.
  predicate Foreign(h: Footprint, id: nat) {
    id !in h.dirs && id !in h.nets && id !in h.guests && id !in h.slices
  }

  // All that living sentries have.
  function Holding(h: Footprint, u: Setup, ids: set<nat>): Footprint {
    Footprint(
      h.dirs + ids,
      if u.network then h.nets + ids else h.nets,
      h.guests + ids,
      if u.slices then h.slices + ids else h.slices)
  }

  // A spawn that fails leaves the directory behind if preparing the bundle failed,
  // the namespace if anything failed after it was there, and the slice if placing
  // the process in it failed.
  function AfterSpawn(h: Footprint, u: Setup, id: nat, failed: Option<Action>): Footprint {
    match failed
    case None => Holding(h, u, {id})
    case Some(a) =>
      h.(dirs := if a.PrepareBundle? then h.dirs + {id} else h.dirs,
         nets := if u.network && Place(a) > Place(CreateNetNS) then h.nets + {id} else h.nets,
         slices := if a.PlacePid? then h.slices + {id} else h.slices)
  }

  function AfterCleanup(h: Footprint, u: Setup, id: nat): Footprint {
    Footprint(
      h.dirs - {id},
      if u.network then h.nets - {id} else h.nets,
      h.guests - {id},
      if u.slices then h.slices - {id} else h.slices)
  }

  class Host {
    var dirs: set<nat>
    var nets: set<nat>
    var guests: set<nat>
    var slices: set<nat>

    function Print(): Footprint
      reads this
    {
      Footprint(dirs, nets, guests, slices)
    }

    // Kill, delete, and remove the directory.
    method CleanupPartial(id: nat)
      modifies this
      ensures Print() == old(Print()).(dirs := old(dirs) - {id}, guests := old(guests) - {id})
    {
      guests := guests - {id};
      dirs := dirs - {id};
    }

    // All of that, and the namespace and the slice.
    method Cleanup(u: Setup, id: nat)
      modifies this
      ensures Print() == AfterCleanup(old(Print()), u, id)
    {
      guests := guests - {id};
      if u.network {
        nets := nets - {id};
      }
      if u.slices {
        slices := slices - {id};
      }
      dirs := dirs - {id};
    }

    // fails says which calls fail if they are made. A sentry's number is new.
    method Spawn(u: Setup, id: nat, fails: set<Action>) returns (failed: Option<Action>)
      requires Foreign(Print(), id)
      modifies this
      ensures failed.None? <==> forall a :: Makes(u, a) ==> a !in fails
      ensures failed.Some? ==> FailsAt(u, fails, failed.value)
      ensures Print() == AfterSpawn(old(Print()), u, id, failed)
    {
      ghost var h := Print();
      failed := Arrange(u, id, fails);
      if failed.None? {
        failed := StartGuest(u, id, fails);
      }
      if failed.None? && u.slices {
        failed := Confine(id, fails);
      }
      ghost var k := AfterSpawn(h, u, id, failed);
      assert dirs == k.dirs && nets == k.nets && guests == k.guests && slices == k.slices;
    }

    // Everything before the guest.
    method Arrange(u: Setup, id: nat, fails: set<Action>) returns (failed: Option<Action>)
      requires Foreign(Print(), id)
      modifies this
      ensures guests == old(guests) && slices == old(slices)
      ensures dirs == if failed.None? || failed == Some(PrepareBundle) then old(dirs) + {id} else old(dirs)
      ensures nets == if u.network && (failed.None? || failed == Some(InjectNetNS)) then old(nets) + {id} else old(nets)
      ensures failed.Some? ==> FailsAt(u, fails, failed.value) && Place(failed.value) < Place(CreateGuest)
      ensures failed.None? ==> forall a :: Makes(u, a) && Place(a) < Place(CreateGuest) ==> a !in fails
    {
      failed := Prepare(id, fails);
      if failed.None? && u.network {
        failed := Connect(id, fails);
      }
    }

    // The directories and the bundle.
    method Prepare(id: nat, fails: set<Action>) returns (failed: Option<Action>)
      requires id !in dirs
      modifies this`dirs
      ensures dirs == if failed.None? || failed == Some(PrepareBundle) then old(dirs) + {id} else old(dirs)
      ensures failed == if MakeDirs in fails then Some(MakeDirs)
                        else if PrepareBundle in fails then Some(PrepareBundle)
                        else if InjectMounts in fails then Some(InjectMounts)
                        else None
    {
      if MakeDirs in fails {
        return Some(MakeDirs);
      }
      dirs := dirs + {id};
      if PrepareBundle in fails {
        return Some(PrepareBundle);
      }
      if InjectMounts in fails {
        dirs := dirs - {id};
        return Some(InjectMounts);
      }
      return None;
    }

    // The network namespace.
    method Connect(id: nat, fails: set<Action>) returns (failed: Option<Action>)
      requires id !in nets && id !in guests && id in dirs
      modifies this
      ensures guests == old(guests) && slices == old(slices)
      ensures dirs == if failed.None? then old(dirs) else old(dirs) - {id}
      ensures nets == if failed == Some(CreateNetNS) then old(nets) else old(nets) + {id}
      ensures failed == if CreateNetNS in fails then Some(CreateNetNS)
                        else if InjectNetNS in fails then Some(InjectNetNS)
                        else None
    {
      if CreateNetNS in fails {
        dirs := dirs - {id};
        return Some(CreateNetNS);
      }
      nets := nets + {id};
      if InjectNetNS in fails {
        CleanupPartial(id);
        return Some(InjectNetNS);
      }
      return None;
    }

    // Create, restore, and read the state.
    method StartGuest(u: Setup, id: nat, fails: set<Action>) returns (failed: Option<Action>)
      requires id !in guests && id in dirs
      modifies this
      ensures nets == old(nets) && slices == old(slices)
      ensures if failed.None? then dirs == old(dirs) && guests == old(guests) + {id}
              else dirs == old(dirs) - {id} && guests == old(guests)
      ensures failed.Some? ==>
                && Makes(u, failed.value) && failed.value in fails
                && Place(CreateGuest) <= Place(failed.value) <= Place(ReadState)
      ensures forall a :: Makes(u, a) && Place(CreateGuest) <= Place(a) <= Place(ReadState) ==>
                failed.None? || Place(a) < Place(failed.value) ==> a !in fails
    {
      if u.warm {
        if CreateGuest in fails {
          CleanupPartial(id);
          return Some(CreateGuest);
        }
        guests := guests + {id};
      }
      if u.preRestore || !u.warm {
        if RestoreGuest in fails {
          CleanupPartial(id);
          return Some(RestoreGuest);
        }
        guests := guests + {id};
      }
      if ReadState in fails {
        CleanupPartial(id);
        return Some(ReadState);
      }
      return None;
    }

    // The cgroup of its own.
    method Confine(id: nat, fails: set<Action>) returns (failed: Option<Action>)
      modifies this
      ensures nets == old(nets)
      ensures slices == if failed == Some(MakeSlice) then old(slices) else old(slices) + {id}
      ensures if failed.None? then dirs == old(dirs) && guests == old(guests)
              else dirs == old(dirs) - {id} && guests == old(guests) - {id}
      ensures failed == if MakeSlice in fails then Some(MakeSlice)
                        else if PlacePid in fails then Some(PlacePid)
                        else None
    {
      if MakeSlice in fails {
        CleanupPartial(id);
        return Some(MakeSlice);
      }
      slices := slices + {id};
      if PlacePid in fails {
        CleanupPartial(id);
        return Some(PlacePid);
      }
      return None;
    }
  }

  // ---- what stays on the host --------------------------------------------

  // cleanup undoes spawn.
  lemma CleanupUndoesSpawn(h: Footprint, u: Setup, id: nat)
    requires Foreign(h, id)
    ensures AfterCleanup(AfterSpawn(h, u, id, None), u, id) == h
  {
    var k := AfterCleanup(AfterSpawn(h, u, id, None), u, id);
    assert k.dirs == h.dirs && k.nets == h.nets && k.guests == h.guests && k.slices == h.slices;
  }

  // A failed spawn leaves the host as it was, unless it failed at one of these.
  predicate Leaks(u: Setup, a: Action) {
    a.PrepareBundle? || a.PlacePid? || (u.network && Place(a) > Place(CreateNetNS))
  }

  lemma FailedSpawnLeavesNothingExactly(h: Footprint, u: Setup, id: nat, a: Action)
    requires Foreign(h, id)
    ensures AfterSpawn(h, u, id, Some(a)) == h <==> !Leaks(u, a)
  {
    var k := AfterSpawn(h, u, id, Some(a));
    assert id in k.dirs <==> a.PrepareBundle?;
    assert id in k.nets <==> u.network && Place(a) > Place(CreateNetNS);
    assert id in k.slices <==> a.PlacePid?;
  }

  // The life of a pool: spawns, numbered in order, and clean-ups.
  datatype Event = Spawns(failed: Option<Action>) | Cleans(id: nat)

  const NOTHING := Footprint({}, {}, {}, {})

  function Made(events: seq<Event>): nat {
    if events == [] then 0 else Made(events[..|events| - 1]) + if events[|events| - 1].Spawns? then 1 else 0
  }

  // The sentries that spawn returned,
  function Returned(events: seq<Event>): set<nat> {
    if events == [] then {}
    else
      var front, last := events[..|events| - 1], events[|events| - 1];
      if last.Spawns? && last.failed.None? then Returned(front) + {Made(front)} else Returned(front)
  }

  // and those of them that nobody has cleaned up.
  function Living(events: seq<Event>): set<nat> {
    if events == [] then {}
    else
      var front, last := events[..|events| - 1], events[|events| - 1];
      match last
      case Spawns(failed) => if failed.None? then Living(front) + {Made(front)} else Living(front)
      case Cleans(id) => Living(front) - {id}
  }

  function Standing(u: Setup, events: seq<Event>): Footprint {
    if events == [] then NOTHING
    else
      var front, last := events[..|events| - 1], events[|events| - 1];
      match last
      case Spawns(failed) => AfterSpawn(Standing(u, front), u, Made(front), failed)
      case Cleans(id) => AfterCleanup(Standing(u, front), u, id)
  }

  // Only sentries that spawn returned are cleaned up, but perhaps twice.
  predicate Orderly(events: seq<Event>) {
    events != [] ==>
      var front, last := events[..|events| - 1], events[|events| - 1];
      Orderly(front) && (last.Cleans? ==> last.id in Returned(front))
  }

  // What the failed spawns alone have left.
  function Remains(u: Setup, events: seq<Event>): Footprint {
    if events == [] then NOTHING
    else
      var front, last := events[..|events| - 1], events[|events| - 1];
      if last.Spawns? && last.failed.Some? then AfterSpawn(Remains(u, front), u, Made(front), last.failed)
      else Remains(u, front)
  }

  // Everything on the host belongs to a living sentry or was left by a failed spawn.
  lemma {:induction false} Conservation(u: Setup, events: seq<Event>)
    requires Orderly(events)
    ensures Standing(u, events) == Holding(Remains(u, events), u, Living(events))
    ensures Living(events) <= Returned(events)
    ensures forall id :: id in Returned(events) ==> id < Made(events) && Foreign(Remains(u, events), id)
    ensures forall id :: id >= Made(events) ==> Foreign(Remains(u, events), id)
  {
    if events != [] {
      var front, last := events[..|events| - 1], events[|events| - 1];
      Conservation(u, front);
      forall id | id >= Made(events) ensures Foreign(Remains(u, events), id) {
        assert Foreign(Remains(u, front), id);
      }
      forall id | id in Returned(events) ensures id < Made(events) && Foreign(Remains(u, events), id) {
        assert id in Returned(front) || id == Made(front);
        assert Foreign(Remains(u, front), id);
      }
      var h, k := Standing(u, events), Holding(Remains(u, events), u, Living(events));
      assert h.dirs == k.dirs;
      assert h.nets == k.nets;
      assert h.guests == k.guests;
      assert h.slices == k.slices;
    } else {
      assert Holding(NOTHING, u, {}) == NOTHING;
    }
  }

  // Once every sentry that spawn returned has been cleaned up, nothing is left on
  // the host if and only if no spawn failed at a call that leaks.
  lemma NothingStaysExactly(u: Setup, events: seq<Event>)
    requires Orderly(events) && Living(events) == {}
    ensures Standing(u, events) == NOTHING <==>
            forall i :: 0 <= i < |events| && events[i].Spawns? && events[i].failed.Some? ==>
              !Leaks(u, events[i].failed.value)
  {
    Conservation(u, events);
    RemainsExactly(u, events);
    assert Holding(Remains(u, events), u, {}) == Remains(u, events);
  }

  lemma {:induction false} RemainsExactly(u: Setup, events: seq<Event>)
    requires Orderly(events)
    ensures Remains(u, events) == NOTHING <==>
            forall i :: 0 <= i < |events| && events[i].Spawns? && events[i].failed.Some? ==>
              !Leaks(u, events[i].failed.value)
  {
    if events != [] {
      var front, last := events[..|events| - 1], events[|events| - 1];
      RemainsExactly(u, front);
      Conservation(u, front);
      assert forall i :: 0 <= i < |front| ==> front[i] == events[i];
      if last.Spawns? && last.failed.Some? {
        FailedSpawnLeavesNothingExactly(Remains(u, front), u, Made(front), last.failed.value);
        Grows(Remains(u, front), u, Made(front), last.failed.value);
      }
    }
  }

  // A failed spawn takes nothing away.
  lemma Grows(h: Footprint, u: Setup, id: nat, a: Action)
    ensures AfterSpawn(h, u, id, Some(a)) == NOTHING ==> h == NOTHING
  {
    var k := AfterSpawn(h, u, id, Some(a));
    assert h.dirs <= k.dirs && h.nets <= k.nets && h.slices <= k.slices;
  }
}
