/** Where permits in flight come from: a release, or the return of another one. */
module SchedulerFlights {
  import opened SchedulerModel
  import opened SchedulerSteps
  import opened SchedulerResolving
  import opened SchedulerEffects
  import opened SchedulerRuns

  ghost predicate AddsNoPermits(ready: set<Item>, ready': set<Item>) {
    forall x :: x in ready' && x !in ready ==> !x.entry.Permit?
  }

  ghost predicate AddsPermitsOf(ready: set<Item>, ready': set<Item>, sid: nat) {
    forall x :: x in ready' && x !in ready && x.entry.Permit? ==> x.entry.sid == sid
  }

  // ---- Effects -------------------------------------------------------------

  lemma ResolveAddsNoPermits(s: State, key: Key, st: Status, v: Value)
    requires key in s.meta
    ensures AddsNoPermits(s.board.ready, Resolve(s, key, st, v).0.board.ready)
  {
    WakeAllAdds(WithStatus(s.meta, key, st, v), s.board.(waiters := s.board.waiters - {key}), key,
                RegsAt(s.board.waiters, key));
  }

  lemma {:induction false} DrainAddsNoPermits(s: State)
    ensures AddsNoPermits(s.board.ready, Drain(s).board.ready)
    decreases |s.queue|
  {
    if s.queue != [] {
      var c := s.queue[0];
      var key := PromiseKey(c.id);
      if key in s.meta {
        ResolveAddsNoPermits(s.(queue := s.queue[1..]), key, if c.ok then Completed else Failed, c.value);
      }
      DrainAddsNoPermits(DrainOne(s));
    }
  }

  lemma SettlingAddsNoPermits(s: State, o: Owner, k: nat, e: Effect, live: set<nat>, h: nat)
    requires Settles(e) && (e.TaskCompleted? ==> o.Of? && TaskKey(o.tid) in s.meta)
    ensures AddsNoPermits(s.board.ready, Handling(s, o, k, e, live, h).0.board.ready)
  {
    match e
    case TaskCompleted(ok, v) => ResolveAddsNoPermits(s, TaskKey(o.tid), if ok then Completed else Failed, v);
    case Cancel(key) => if key in s.meta { ResolveAddsNoPermits(s, key, Cancelled, TaskCancelledError); }
    case CompletePromise(key, v) => if key in s.meta { ResolveAddsNoPermits(s, key, Completed, v); }
    case FailPromise(key, v) => if key in s.meta { ResolveAddsNoPermits(s, key, Failed, v); }
  }

  lemma ParkingAddsNoPermits(s: State, o: Owner, k: nat, e: Effect, live: set<nat>, h: nat)
    requires e.Wait? || e.Gather? || e.Race?
    ensures AddsNoPermits(s.board.ready, Handling(s, o, k, e, live, h).0.board.ready)
  {
    match e
    case Gather(keys) =>
      var pending := PendingOf(s.meta, keys);
      OpenJoinItems(s.meta, s.board, Join(GatherJoin, o, k, keys, pending, |pending|, false));
    case Race(keys) => OpenJoinItems(s.meta, s.board, Join(RaceJoin, o, k, keys, keys, 0, false));
    case Wait(key, wake) => ParkDirectItems(s.meta, s.board, o, k, key, wake);
  }

  lemma GrantAddsPermits(s: State, sid: nat)
    requires sid in s.sems
    ensures AddsPermitsOf(s.board.ready, Grant(s, sid).0.board.ready, sid)
  {
  }

  lemma ReleaseAddsPermits(s: State, o: Owner, sid: nat)
    requires sid in s.sems
    ensures AddsPermitsOf(s.board.ready, HandleRelease(s, o, sid).0.board.ready, sid)
  {
    GrantAddsPermits(s, sid);
  }

  /** Of all effects only a release sends a permit on its way, one of its own semaphore. */
  lemma HandlingAddsPermits(s: State, o: Owner, k: nat, e: Effect, live: set<nat>, h: nat)
    requires e.TaskCompleted? ==> o.Of? && TaskKey(o.tid) in s.meta
    requires e.Acquire? || e.Release? ==> e.sid in s.sems
    ensures var ready := Handling(s, o, k, e, live, h).0.board.ready;
            if e.Release? then AddsPermitsOf(s.board.ready, ready, e.sid) else AddsNoPermits(s.board.ready, ready)
  {
    if Settles(e) {
      SettlingAddsNoPermits(s, o, k, e, live, h);
    } else if e.Wait? || e.Gather? || e.Race? {
      ParkingAddsNoPermits(s, o, k, e, live, h);
    } else if e.Release? {
      ReleaseAddsPermits(s, o, e.sid);
    } else if !e.Acquire? {
      CreatingLeaves(s, o, k, e, live, h);
    }
  }

  // ---- Turns ---------------------------------------------------------------

  function HeldAfter(t: Turn): set<Item> { if t.Again? then t.held else {} }

  /** The permits in flight after a turn are those before, or the one granted in return. */
  ghost predicate TurnedPermits(s: State, items: set<Item>, items': set<Item>) {
    forall x :: x in items' && x !in items && x.entry.Permit? ==>
      exists z :: z in s.board.ready && z.entry.Permit? && z.entry.sid == x.entry.sid
  }

  lemma BlockPermits(s: State, e: Entry, held: set<Item>, shield: bool, diagnose: bool)
    requires e.Placeholder?
    ensures var t := BlockOnPlaceholder(s, e, held, shield, diagnose);
            !t.Blocking? ==> AddsNoPermits(s.board.ready + held, t.s.board.ready + HeldAfter(t))
  {
    DrainAddsNoPermits(s);
    DrainAddsNoPermits(s.(sems := PruneQueues(s.meta, s.sems)));
  }

  lemma PlaceholderTurnPermits(s: State, z: Item, held: set<Item>, shield: bool, diagnose: bool)
    requires z in s.board.ready && z.entry.Placeholder?
    ensures var t := PopTurn(s, z, held, shield, diagnose);
            !t.Blocking? ==> AddsNoPermits(s.board.ready + held, t.s.board.ready + HeldAfter(t))
  {
    BlockPermits(Pop(s, z), z.entry, held, shield, diagnose);
  }

  lemma ReturnAddsPermits(s: State, sid: nat, o: Owner)
    requires sid in s.sems
    ensures AddsPermitsOf(s.board.ready, ReturnPermit(s, sid, o).board.ready, sid)
  {
    GrantAddsPermits(DropHolder(s, sid, o), sid);
  }

  lemma OtherTurnPermits(s: State, z: Item, held: set<Item>, shield: bool, diagnose: bool)
    requires z in s.board.ready && !z.entry.Placeholder?
    ensures var t := PopTurn(s, z, held, shield, diagnose);
            !t.Blocking? ==> TurnedPermits(s, s.board.ready + held, t.s.board.ready + HeldAfter(t))
  {
    if z.entry.Permit? && z.entry.sid in s.sems {
      ReturnAddsPermits(Pop(s, z), z.entry.sid, z.entry.owner);
    }
  }

  lemma PickTurnPermits(s: State, held: set<Item>, shield: bool, diagnose: bool)
    ensures var t := PickTurn(s, held, shield, diagnose);
            !t.Blocking? ==> TurnedPermits(s, s.board.ready + held, t.s.board.ready + HeldAfter(t))
  {
    if s.board.ready == {} {
      DrainAddsNoPermits(s.(sems := PruneQueues(s.meta, s.sems)));
    } else {
      var z := Least(s.board.ready);
      if z.entry.Placeholder? {
        PlaceholderTurnPermits(s, z, held, shield, diagnose);
      } else {
        OtherTurnPermits(s, z, held, shield, diagnose);
      }
    }
  }
}
