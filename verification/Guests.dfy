// What may be done to the guest of one sentry: the runtime calls that its owners
// make and the leases it serves, in order, as the words of an automaton. It knows
// nothing of threads, states or the list.
module Guests {
  import opened Basics
  import opened Protocol

  // Where the calls so far leave the guest. Wrong is the stage of no return after
  // a call that should not have come then.
  datatype Stage =
    | Unborn
    | Idling(image: Option<string>)
    | Serving
    | Termed
    | Late
    | Forced
    | Reaped
    | Wiped
    | Spoilt
    | Shot
    | Deleted
    | Wrong

  // A lease wants the checkpoint of its override, or else the workload's.
  predicate Wants(c: Params, r: Request, k: string) {
    match r
    case Some(o) => o.checkpoint == k
    case None => c.checkpoint == k
  }

  function Advance(c: Params, stage: Stage, e: Call): Stage {
    match e
    case Create =>
      if stage.Unborn? && c.warm then Idling(None) else Wrong
    case Restore(k, ok) =>
      if stage.Unborn? && !c.warm && k == c.checkpoint && ok then Idling(Some(k))
      else if stage.Idling? then Idling(if ok then Some(k) else None)
      else if stage.Wiped? && k == c.checkpoint then if ok then Idling(Some(k)) else Spoilt
      else Wrong
    case Use(r) =>
      if stage.Idling? && stage.image.Some? && Wants(c, r, stage.image.value) then Serving else Wrong
    case Term =>
      if stage.Serving? then Termed else Wrong
    case Overdue =>
      if stage.Termed? then Late else Wrong
    case Kill =>
      if stage.Late? then Forced
      else if stage.Idling? || stage.Wiped? || stage.Spoilt? || (stage.Reaped? && !c.warm) then Shot
      else Wrong
    case Exit =>
      if stage.Termed? || stage.Forced? then Reaped else Wrong
    case Reset(ok) =>
      if stage.Reaped? && c.warm then if ok then Wiped else Spoilt else Wrong
    case Delete =>
      if stage.Shot? then Deleted else Wrong
  }

  function StageOf(c: Params, calls: seq<Call>): Stage {
    if calls == [] then Unborn
    else Advance(c, StageOf(c, calls[..|calls| - 1]), calls[|calls| - 1])
  }

  lemma OneMore(c: Params, calls: seq<Call>, e: Call)
    ensures StageOf(c, calls + [e]) == Advance(c, StageOf(c, calls), e)
  {
    assert (calls + [e])[..|calls|] == calls;
  }

  // A call leaves the stage that the automaton says.
  lemma CalledStage(c: Params, x: SentryRecord, e: Call)
    ensures StageOf(c, Called(x, e).calls) == Advance(c, StageOf(c, x.calls), e)
  {
    OneMore(c, x.calls, e);
  }

  // spawn leaves a guest in the pool's checkpoint, or a bare one.
  lemma SpawnedStage(c: Params, x: SentryRecord)
    ensures x.calls == [] ==>
              StageOf(c, Spawned(c, x, true).calls) ==
              Idling(if c.warm && !c.preRestore then None else Some(c.checkpoint))
  {
    assert [] + [Create] == [Create];
    assert [] + [Restore(c.checkpoint, true)] == [Restore(c.checkpoint, true)];
    assert [Create] + [Restore(c.checkpoint, true)] == [Create, Restore(c.checkpoint, true)];
    OneMore(c, [], Create);
    OneMore(c, [], Restore(c.checkpoint, true));
    OneMore(c, [Create], Restore(c.checkpoint, true));
  }

  // cleanup kills and deletes.
  lemma CleanedStage(c: Params, x: SentryRecord)
    ensures StageOf(c, Cleaned(x).calls) == Advance(c, Advance(c, StageOf(c, x.calls), Kill), Delete)
  {
    OneMore(c, x.calls, Kill);
    OneMore(c, x.calls + [Kill], Delete);
    assert x.calls + [Kill] + [Delete] == x.calls + [Kill, Delete];
  }

  // ---- what the words look like ------------------------------------------

  // The calls never went wrong.
  predicate Proper(c: Params, calls: seq<Call>) {
    !StageOf(c, calls).Wrong?
  }

  lemma {:induction false} ProperPrefix(c: Params, calls: seq<Call>, n: nat)
    requires Proper(c, calls) && n <= |calls|
    ensures Proper(c, calls[..n])
    decreases |calls|
  {
    if n < |calls| {
      var front := calls[..|calls| - 1];
      assert front[..n] == calls[..n];
      ProperPrefix(c, front, n);
    } else {
      assert calls[..n] == calls;
    }
  }

  // The stage before the i-th call, and what that call makes of it.
  lemma At(c: Params, calls: seq<Call>, i: nat)
    requires Proper(c, calls) && i < |calls|
    ensures Proper(c, calls[..i]) && Proper(c, calls[..i + 1])
    ensures StageOf(c, calls[..i + 1]) == Advance(c, StageOf(c, calls[..i]), calls[i])
  {
    ProperPrefix(c, calls, i);
    ProperPrefix(c, calls, i + 1);
    assert calls[..i + 1] == calls[..i] + [calls[i]];
    OneMore(c, calls[..i], calls[i]);
  }

  // The call right before a lease is the successful restore of the checkpoint
  // that the lease asks for: its override's, or else the workload's.
  lemma LeaseFollowsItsRestore(c: Params, calls: seq<Call>, i: nat)
    requires Proper(c, calls) && i < |calls| && calls[i].Use?
    ensures i > 0 && calls[i - 1].Restore? && calls[i - 1].ok
    ensures calls[i].request.Some? ==> calls[i - 1].checkpoint == calls[i].request.value.checkpoint
    ensures calls[i].request.None? ==> calls[i - 1].checkpoint == c.checkpoint
  {
    At(c, calls, i);
    assert i > 0;
    At(c, calls, i - 1);
  }

  // A guest whose grace period has passed is killed before anything else happens
  // to it, and Wait returns only in time or after that kill.
  lemma OverdueIsForced(c: Params, calls: seq<Call>, i: nat)
    requires Proper(c, calls) && i < |calls|
    ensures calls[i].Overdue? && i + 1 < |calls| ==> calls[i + 1].Kill?
    ensures calls[i].Exit? ==>
              || (i >= 2 && calls[i - 2].Use? && calls[i - 1].Term?)
              || (i >= 4 && calls[i - 4].Use? && calls[i - 3].Term? && calls[i - 2].Overdue? && calls[i - 1].Kill?)
  {
    At(c, calls, i);
    if calls[i].Overdue? && i + 1 < |calls| {
      At(c, calls, i + 1);
    }
    if calls[i].Exit? {
      ExitPath(c, calls, i);
    }
  }

  lemma ExitPath(c: Params, calls: seq<Call>, i: nat)
    requires Proper(c, calls) && i < |calls| && calls[i].Exit?
    ensures || (i >= 2 && calls[i - 2].Use? && calls[i - 1].Term?)
            || (i >= 4 && calls[i - 4].Use? && calls[i - 3].Term? && calls[i - 2].Overdue? && calls[i - 1].Kill?)
  {
    At(c, calls, i);
    hide Proper;
    if StageOf(c, calls[..i]).Termed? {
      TermPath(c, calls, i);
    } else {
      assert i > 0;
      At(c, calls, i - 1);
      assert i > 1;
      At(c, calls, i - 2);
      TermPath(c, calls, i - 2);
    }
  }

  lemma TermPath(c: Params, calls: seq<Call>, i: nat)
    requires Proper(c, calls) && i <= |calls| && StageOf(c, calls[..i]).Termed?
    ensures i >= 2 && calls[i - 2].Use? && calls[i - 1].Term?
  {
    assert i > 0;
    At(c, calls, i - 1);
    assert i > 1;
    At(c, calls, i - 2);
  }

  // Only a successful reset brings back a guest that has served.
  predicate Tainted(calls: seq<Call>) {
    calls != [] && calls[|calls| - 1] != Reset(true)
    && (calls[|calls| - 1].Use? || Tainted(calls[..|calls| - 1]))
  }

  lemma TaintedMore(calls: seq<Call>, e: Call)
    ensures Tainted(calls + [e]) <==> e != Reset(true) && (e.Use? || Tainted(calls))
  {
    assert (calls + [e])[..|calls|] == calls;
  }

  lemma TaintedCalled(c: Params)
    ensures forall x: SentryRecord, e ::
              Tainted(Called(x, e).calls) <==> e != Reset(true) && (e.Use? || Tainted(x.calls))
    ensures forall x: SentryRecord, ok :: Tainted(x.calls) ==> Tainted(Spawned(c, x, ok).calls)
    ensures forall x: SentryRecord :: Tainted(x.calls) ==> Tainted(Cleaned(x).calls)
  {
    forall x: SentryRecord, e
      ensures Tainted(Called(x, e).calls) <==> e != Reset(true) && (e.Use? || Tainted(x.calls))
    {
      TaintedMore(x.calls, e);
    }
    forall x: SentryRecord, ok | Tainted(x.calls) ensures Tainted(Spawned(c, x, ok).calls) {
      TaintedSpawned(c, x, ok);
    }
    forall x: SentryRecord | Tainted(x.calls) ensures Tainted(Cleaned(x).calls) {
      TaintedMore(x.calls, Kill);
      TaintedMore(x.calls + [Kill], Delete);
      assert x.calls + [Kill] + [Delete] == x.calls + [Kill, Delete];
    }
  }

  lemma TaintedSpawned(c: Params, x: SentryRecord, ok: bool)
    requires Tainted(x.calls)
    ensures Tainted(Spawned(c, x, ok).calls)
  {
    var restore := Restore(c.checkpoint, true);
    var made := if c.warm then x.calls + [Create] else x.calls;
    TaintedMore(x.calls, Create);
    TaintedMore(made, restore);
    assert Spawned(c, x, true).calls == if c.preRestore || !c.warm then made + [restore] else made;
  }

  lemma {:induction false} TaintedStage(c: Params, calls: seq<Call>)
    requires Proper(c, calls)
    ensures Tainted(calls) ==> !StageOf(c, calls).Unborn? && !StageOf(c, calls).Idling? && !StageOf(c, calls).Wiped?
    decreases |calls|
  {
    if calls != [] {
      var n := |calls| - 1;
      At(c, calls, n);
      assert calls[..n + 1] == calls;
      TaintedStage(c, calls[..n]);
    }
  }

  // Between two leases the guest was told to terminate, was seen to exit, was reset,
  // and was given the workload's checkpoint again, with nothing in between.
  lemma BetweenLeases(c: Params, calls: seq<Call>, i: nat, j: nat) returns (exit: nat)
    requires Proper(c, calls) && i < j < |calls| && calls[i].Use? && calls[j].Use?
    ensures c.warm && exit + 2 < j && calls[i + 1].Term? && calls[exit].Exit?
    ensures exit == i + 2 || (exit == i + 4 && calls[i + 2].Overdue? && calls[i + 3].Kill?)
    ensures calls[exit + 1] == Reset(true) && calls[exit + 2] == Restore(c.checkpoint, true)
  {
    hide Proper, StageOf, Advance;
    exit := LeaseToExit(c, calls, i, j);
    ExitToLease(c, calls, exit, j);
  }

  lemma LeaseToExit(c: Params, calls: seq<Call>, i: nat, j: nat) returns (exit: nat)
    requires Proper(c, calls) && i < j < |calls| && calls[i].Use? && calls[j].Use?
    ensures exit < j && calls[i + 1].Term? && calls[exit].Exit?
    ensures exit == i + 2 || (exit == i + 4 && calls[i + 2].Overdue? && calls[i + 3].Kill?)
  {
    hide Proper, StageOf;
    At(c, calls, i);
    At(c, calls, j);
    At(c, calls, i + 1);
    At(c, calls, i + 2);
    exit := i + 2;
    if calls[i + 2].Overdue? {
      At(c, calls, i + 3);
      At(c, calls, i + 4);
      exit := i + 4;
    }
  }

  lemma ExitToLease(c: Params, calls: seq<Call>, exit: nat, j: nat)
    requires Proper(c, calls) && exit < j < |calls| && calls[j].Use? && calls[exit].Exit?
    ensures c.warm && exit + 2 < j
    ensures calls[exit + 1] == Reset(true) && calls[exit + 2] == Restore(c.checkpoint, true)
  {
    At(c, calls, exit);
    At(c, calls, exit + 1);
    At(c, calls, j);
    assert exit + 1 < j;
    DeadEnd(c, calls, exit + 2, j);
    At(c, calls, exit + 2);
    DeadEnd(c, calls, exit + 3, j);
  }

  // A guest that was spoilt or shot never serves again.
  lemma {:induction false} DeadEnd(c: Params, calls: seq<Call>, i: nat, j: nat)
    requires Proper(c, calls) && i <= j < |calls| && calls[j].Use?
    ensures var stage := StageOf(c, calls[..i]); !stage.Spoilt? && !stage.Shot? && !stage.Deleted?
    decreases j - i
  {
    At(c, calls, i);
    if i < j {
      DeadEnd(c, calls, i + 1, j);
    }
  }

  // No call comes after the deletion, and the kill comes right before it.
  lemma DeleteIsLast(c: Params, calls: seq<Call>, i: nat)
    requires Proper(c, calls) && i < |calls| && calls[i].Delete?
    ensures i == |calls| - 1 && i > 0 && calls[i - 1].Kill?
  {
    At(c, calls, i);
    assert i > 0;
    At(c, calls, i - 1);
    if i + 1 < |calls| {
      At(c, calls, i + 1);
    }
  }
}
