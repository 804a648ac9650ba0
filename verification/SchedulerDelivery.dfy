/** No wakeup is lost and none is wrong: over whole runs, whoever waits for a waitable is queued
    once it is resolved, with its final outcome, and stays queued until it is resumed with it. */
module SchedulerDelivery {
  import opened Wrappers
  import opened SchedulerModel
  import opened SchedulerSteps
  import opened SchedulerInvariant
  import opened SchedulerWaking
  import opened SchedulerResolving
  import opened SchedulerEffects
  import opened SchedulerRuns
  import opened SchedulerFlights
  import opened SchedulerDispatch
  import opened SchedulerSafety
  import opened SchedulerResults

  // ---- Outcomes and what is queued -----------------------------------------

  /** `key` has status `st` and result or error `v` for good. */
  predicate Recorded(meta: map<Key, Meta>, key: Key, st: Status, v: Value) {
    key in meta && Terminal(st) && meta[key].status == st && meta[key].result == v
  }

  /** The priority a direct waiter is woken at. */
  function WakeAt(meta: map<Key, Meta>, w: Waiter): int
    requires w.Direct?
  {
    if w.wake.Some? then w.wake.value else TaskPriority(meta, w.owner)
  }

  ghost predicate Queues(items: set<Item>, e: Entry, prio: int) {
    exists x :: x in items && x.entry == e && x.prio == prio
  }

  /** `w`'s owner has been queued with what `key` came to. */
  ghost predicate Served(s: State, key: Key, w: Waiter, prio: int)
    requires w.Direct?
  {
    && Recorded(s.meta, key, StatusOf(s.meta, key), ResultOf(s.meta, key))
    && Queues(s.board.ready, Delivery(StatusOf(s.meta, key), ResultOf(s.meta, key), w.owner, w.cont), prio)
  }

  ghost predicate WaitsOrServed(s: State, key: Key, w: Waiter, prio: int)
    requires w.Direct?
  {
    (Has(s.board.waiters, key, w) && WakeAt(s.meta, w) == prio) || Served(s, key, w, prio)
  }

  // ---- Resolving and draining ----------------------------------------------

  lemma WakeJoinKeepsDirect(meta: map<Key, Meta>, b: Board, j: nat, busy: Key, key: Key, w: Waiter)
    requires Has(b.waiters, key, w) && w.Direct?
    ensures Has(WakeJoin(meta, b, j, busy).0.waiters, key, w)
  {
    WithoutMembers(b.waiters[key], j);
  }

  lemma {:induction false} WakeAllKeepsDirect(meta: map<Key, Meta>, b: Board, busy: Key, ws: seq<Waiter>, key: Key,
                                              w: Waiter)
    requires Has(b.waiters, key, w) && w.Direct?
    ensures Has(WakeAll(meta, b, busy, ws).0.waiters, key, w)
    decreases |ws|
  {
    if ws != [] {
      if ws[0].Joined? {
        WakeJoinKeepsDirect(meta, Claim(b, ws[0].cell), ws[0].join, busy, key, w);
      }
      WakeAllKeepsDirect(meta, WakeOne(meta, b, busy, ws[0]).0, busy, ws[1..], key, w);
    }
  }

  lemma ResolvedIsServed(s: State, st: Status, v: Value, key: Key, w: Waiter)
    requires key in s.meta && Terminal(st) && Has(s.board.waiters, key, w) && w.Direct?
    ensures Served(Resolve(s, key, st, v).0, key, w, WakeAt(s.meta, w))
  {
    var meta := WithStatus(s.meta, key, st, v);
    var ws := RegsAt(s.board.waiters, key);
    var i :| 0 <= i < |ws| && ws[i] == w;
    var x := DirectIsDelivered(meta, s.board.(waiters := s.board.waiters - {key}), key, ws, i);
  }

  lemma ResolveServes(s: State, busy: Key, st: Status, v: Value, key: Key, w: Waiter)
    requires busy in s.meta && Terminal(st) && Has(s.board.waiters, key, w) && w.Direct?
    ensures WaitsOrServed(Resolve(s, busy, st, v).0, key, w, WakeAt(s.meta, w))
  {
    if busy == key {
      ResolvedIsServed(s, st, v, key, w);
    } else {
      WakeAllKeepsDirect(WithStatus(s.meta, busy, st, v), s.board.(waiters := s.board.waiters - {busy}), busy,
                         RegsAt(s.board.waiters, busy), key, w);
    }
  }

  /** Nothing queued or recorded in `s` is lost in `s'`. */
  ghost predicate Grows(s: State, s': State) {
    && s.board.ready <= s'.board.ready
    && forall key :: key in s.meta && Terminal(s.meta[key].status) ==> key in s'.meta && s'.meta[key] == s.meta[key]
  }

  lemma ResolveGrows(s: State, key: Key, st: Status, v: Value)
    requires key in s.meta && !Terminal(s.meta[key].status)
    ensures Grows(s, Resolve(s, key, st, v).0)
  {
    WakeAllAdds(WithStatus(s.meta, key, st, v), s.board.(waiters := s.board.waiters - {key}), key,
                RegsAt(s.board.waiters, key));
  }

  lemma {:induction false} DrainGrows(s: State)
    ensures Grows(s, Drain(s))
    decreases |s.queue|
  {
    if s.queue != [] {
      var c := s.queue[0];
      var key := PromiseKey(c.id);
      if StatusOf(s.meta, key).Pending? && key in s.meta {
        ResolveGrows(s.(queue := s.queue[1..]), key, if c.ok then Completed else Failed, c.value);
      }
      DrainGrows(DrainOne(s));
    }
  }

  lemma GrowsServed(s: State, s': State, key: Key, w: Waiter, prio: int)
    requires Grows(s, s') && w.Direct? && Served(s, key, w, prio)
    ensures Served(s', key, w, prio)
  {
  }

  lemma {:induction false} DrainServes(s: State, key: Key, w: Waiter)
    requires Has(s.board.waiters, key, w) && w.Direct?
    ensures WaitsOrServed(Drain(s), key, w, WakeAt(s.meta, w))
    decreases |s.queue|
  {
    if s.queue != [] {
      var c := s.queue[0];
      var busy := PromiseKey(c.id);
      if StatusOf(s.meta, busy).Pending? && busy in s.meta {
        ResolveServes(s.(queue := s.queue[1..]), busy, if c.ok then Completed else Failed, c.value, key, w);
      }
      if Has(DrainOne(s).board.waiters, key, w) && WakeAt(DrainOne(s).meta, w) == WakeAt(s.meta, w) {
        DrainServes(DrainOne(s), key, w);
      } else {
        DrainGrows(DrainOne(s));
        GrowsServed(DrainOne(s), Drain(s), key, w, WakeAt(s.meta, w));
      }
    }
  }

  // ---- Effects -------------------------------------------------------------

  lemma {:induction false} RegisterAllKeeps(meta: map<Key, Meta>, b: Board, j: nat, o: Owner, keys: seq<Key>)
    ensures var b' := RegisterAll(meta, b, j, o, keys);
            b.ready <= b'.ready && forall key, w :: Has(b.waiters, key, w) ==> Has(b'.waiters, key, w)
    decreases |keys|
  {
    if keys != [] {
      var b1 := RegisterJoined(meta, b, j, o, keys[0]);
      assert forall key, w :: Has(b.waiters, key, w) ==> Has(b1.waiters, key, w);
      RegisterAllKeeps(meta, b1, j, o, keys[1..]);
    }
  }

  /** What the effects that park their performer, and those that change no registration, keep. */
  ghost predicate Keeps(s: State, s': State) {
    && s.board.ready <= s'.board.ready
    && forall key, w :: Has(s.board.waiters, key, w) ==> Has(s'.board.waiters, key, w)
  }

  lemma OpenKeeps(s: State, g: Join)
    ensures Keeps(s, s.(board := OpenJoin(s.meta, s.board, g)))
  {
    var b := s.board;
    RegisterAllKeeps(s.meta, b.(joins := b.joins[b.nextObj := g], nextObj := b.nextObj + 1), b.nextObj, g.owner,
                     g.pendingKeys);
  }

  lemma JoiningKeeps(s: State, o: Owner, k: nat, e: Effect, live: set<nat>, h: nat)
    requires e.Wait? || e.Gather? || e.Race?
    ensures Keeps(s, Handling(s, o, k, e, live, h).0)
  {
    match e
    case Gather(keys) =>
      var pending := PendingOf(s.meta, keys);
      OpenKeeps(s, Join(GatherJoin, o, k, keys, pending, |pending|, false));
    case Race(keys) => OpenKeeps(s, Join(RaceJoin, o, k, keys, keys, 0, false));
    case Wait(_, _) =>
  }

  lemma CreatingKeeps(s: State, o: Owner, k: nat, e: Effect, live: set<nat>, h: nat)
    requires Creates(e)
    ensures Keeps(s, Handling(s, o, k, e, live, h).0)
  {
    CreatingLeaves(s, o, k, e, live, h);
  }

  lemma GrantKeeps(s: State, sid: nat)
    requires sid in s.sems
    ensures Keeps(s, Grant(s, sid).0)
  {
  }

  lemma PermitKeeps(s: State, o: Owner, k: nat, e: Effect, live: set<nat>, h: nat)
    requires (e.Acquire? || e.Release?) && e.sid in s.sems
    ensures Keeps(s, Handling(s, o, k, e, live, h).0)
  {
    GrantKeeps(s, e.sid);
  }

  lemma HandlingKeeps(s: State, o: Owner, k: nat, e: Effect, live: set<nat>, h: nat)
    requires !Settles(e) && (e.Acquire? || e.Release? ==> e.sid in s.sems)
    ensures Keeps(s, Handling(s, o, k, e, live, h).0)
  {
    if e.Wait? || e.Gather? || e.Race? {
      JoiningKeeps(s, o, k, e, live, h);
    } else if e.Acquire? || e.Release? {
      PermitKeeps(s, o, k, e, live, h);
    } else {
      CreatingKeeps(s, o, k, e, live, h);
    }
  }

  /** An effect that settles something either changes nothing or is a resolution, after which it
      may queue its performer. */
  lemma SettlingResolves(s: State, o: Owner, k: nat, e: Effect, live: set<nat>, h: nat)
    returns (key: Key, st: Status, v: Value)
    requires Settles(e) && (e.TaskCompleted? ==> o.Of? && TaskKey(o.tid) in s.meta && Started(s.meta, o))
    ensures var s' := Handling(s, o, k, e, live, h).0;
            || s' == s
            || (key in s.meta && !Terminal(s.meta[key].status) && Terminal(st)
                && s'.meta == Resolve(s, key, st, v).0.meta
                && s'.board.waiters == Resolve(s, key, st, v).0.board.waiters
                && s'.board.joins == Resolve(s, key, st, v).0.board.joins
                && Resolve(s, key, st, v).0.board.ready <= s'.board.ready)
  {
    key := if e.TaskCompleted? then TaskKey(o.tid) else e.key;
    match e
    case TaskCompleted(ok, x) => st, v := if ok then Completed else Failed, x;
    case Cancel(_) => st, v := Cancelled, TaskCancelledError;
    case CompletePromise(_, x) => st, v := Completed, x;
    case FailPromise(_, x) => st, v := Failed, x;
  }

  lemma SettlingServes(s: State, o: Owner, k: nat, e: Effect, live: set<nat>, h: nat, key: Key, w: Waiter)
    requires Settles(e) && (e.TaskCompleted? ==> o.Of? && TaskKey(o.tid) in s.meta && Started(s.meta, o))
    requires Has(s.board.waiters, key, w) && w.Direct?
    ensures WaitsOrServed(Handling(s, o, k, e, live, h).0, key, w, WakeAt(s.meta, w))
  {
    var busy, st, v := SettlingResolves(s, o, k, e, live, h);
    if busy in s.meta && !Terminal(s.meta[busy].status) && Terminal(st) {
      ResolveServes(s, busy, st, v, key, w);
    }
  }

  lemma SettlingGrows(s: State, o: Owner, k: nat, e: Effect, live: set<nat>, h: nat)
    requires Settles(e) && (e.TaskCompleted? ==> o.Of? && TaskKey(o.tid) in s.meta && Started(s.meta, o))
    ensures s.board.ready <= Handling(s, o, k, e, live, h).0.board.ready
  {
    var busy, st, v := SettlingResolves(s, o, k, e, live, h);
    if busy in s.meta && !Terminal(s.meta[busy].status) && Terminal(st) {
      ResolveGrows(s, busy, st, v);
    }
  }

  // ---- Turns ---------------------------------------------------------------

  lemma EmptyHeapServes(s: State, held: set<Item>, shield: bool, diagnose: bool, key: Key, w: Waiter)
    requires Has(s.board.waiters, key, w) && w.Direct?
    ensures var t := BlockOnEmptyHeap(s, held, shield, diagnose);
            !t.Blocking? ==> WaitsOrServed(t.s, key, w, WakeAt(s.meta, w))
  {
    DrainServes(s.(sems := PruneQueues(s.meta, s.sems)), key, w);
  }

  lemma BlockServes(s: State, e: Entry, held: set<Item>, shield: bool, diagnose: bool, key: Key, w: Waiter)
    requires e.Placeholder? && Has(s.board.waiters, key, w) && w.Direct?
    ensures var t := BlockOnPlaceholder(s, e, held, shield, diagnose);
            !t.Blocking? ==> WaitsOrServed(t.s, key, w, WakeAt(s.meta, w))
  {
    DrainServes(s, key, w);
    DrainServes(s.(sems := PruneQueues(s.meta, s.sems)), key, w);
  }

  lemma PopTurnServes(s: State, x: Item, held: set<Item>, shield: bool, diagnose: bool, key: Key, w: Waiter)
    requires Has(s.board.waiters, key, w) && w.Direct?
    ensures var t := PopTurn(s, x, held, shield, diagnose);
            !t.Blocking? ==> WaitsOrServed(t.s, key, w, WakeAt(s.meta, w))
  {
    if x.entry.Placeholder? {
      BlockServes(Pop(s, x), x.entry, held, shield, diagnose, key, w);
    } else if x.entry.Permit? && x.entry.sid in s.sems {
      ReturnKeepsWaiters(Pop(s, x), x.entry.sid, x.entry.owner);
    }
  }

  lemma ReturnKeepsWaiters(s: State, sid: nat, o: Owner)
    requires sid in s.sems
    ensures ReturnPermit(s, sid, o).board.waiters == s.board.waiters && ReturnPermit(s, sid, o).meta == s.meta
    ensures s.board.ready <= ReturnPermit(s, sid, o).board.ready
  {
  }

  lemma TurnServes(s: State, held: set<Item>, shield: bool, diagnose: bool, key: Key, w: Waiter)
    requires Has(s.board.waiters, key, w) && w.Direct?
    ensures var t := PickTurn(s, held, shield, diagnose);
            !t.Blocking? ==> WaitsOrServed(t.s, key, w, WakeAt(s.meta, w))
  {
    if s.board.ready == {} {
      EmptyHeapServes(s, held, shield, diagnose, key, w);
    } else {
      PopTurnServes(s, Least(s.board.ready), held, shield, diagnose, key, w);
    }
  }

  /** A turn leaves `x` where it is, chooses it, or drops it for its cancelled owner. */
  ghost predicate KeptOrChosen(s: State, t: Turn, x: Item)
    requires !t.Blocking?
  {
    || x in t.s.board.ready + HeldAfter(t)
    || (t.Chosen? && t.entry == x.entry)
    || IsCancelled(s.meta, EntryOwner(x.entry))
  }

  lemma BlockKeepsItem(s: State, e: Entry, diagnose: bool, x: Item)
    requires e.Placeholder? && x in s.board.ready
    ensures var t := BlockOnPlaceholder(s, e, {}, false, diagnose); !t.Blocking? ==> x in t.s.board.ready
  {
    DrainGrows(s);
    DrainGrows(s.(sems := PruneQueues(s.meta, s.sems)));
  }

  lemma PlaceholderKeepsItem(s: State, y: Item, held: set<Item>, shield: bool, diagnose: bool, x: Item)
    requires HeldShape(s, held, shield) && x in s.board.ready + held && !x.entry.Placeholder?
    requires y in s.board.ready && y.entry.Placeholder?
    ensures var t := PopTurn(s, y, held, shield, diagnose); !t.Blocking? ==> KeptOrChosen(s, t, x)
  {
    if Standing(s.meta, s.board.claimed, y.entry) && !HasLive(s.meta, Pop(s, y).board.ready, false) {
      if shield { StillLive(s.meta, s.board.ready, y); }
      assert held == {} && !shield;
      BlockKeepsItem(Pop(s, y), y.entry, diagnose, x);
    }
  }

  lemma EntryKeepsItem(s: State, y: Item, held: set<Item>, shield: bool, diagnose: bool, x: Item)
    requires x in s.board.ready + held && y in s.board.ready && !y.entry.Placeholder?
    ensures var t := PopTurn(s, y, held, shield, diagnose); !t.Blocking? ==> KeptOrChosen(s, t, x)
  {
    if y.entry.Permit? && y.entry.sid in s.sems {
      ReturnKeepsWaiters(Pop(s, y), y.entry.sid, y.entry.owner);
    }
  }

  lemma PopTurnKeepsItem(s: State, y: Item, held: set<Item>, shield: bool, diagnose: bool, x: Item)
    requires HeldShape(s, held, shield) && x in s.board.ready + held && !x.entry.Placeholder?
    requires y in s.board.ready
    ensures var t := PopTurn(s, y, held, shield, diagnose); !t.Blocking? ==> KeptOrChosen(s, t, x)
  {
    if y.entry.Placeholder? {
      PlaceholderKeepsItem(s, y, held, shield, diagnose, x);
    } else {
      EntryKeepsItem(s, y, held, shield, diagnose, x);
    }
  }

  lemma TurnKeepsItem(s: State, held: set<Item>, shield: bool, diagnose: bool, x: Item)
    requires HeldShape(s, held, shield) && x in s.board.ready + held && !x.entry.Placeholder?
    ensures var t := PickTurn(s, held, shield, diagnose); !t.Blocking? ==> KeptOrChosen(s, t, x)
  {
    if s.board.ready != {} {
      PopTurnKeepsItem(s, Least(s.board.ready), held, shield, diagnose, x);
    }
  }

  // ---- Steps ---------------------------------------------------------------

  lemma PerformServes(y: System, e: Effect, spot: Spots, cellKey: map<nat, Key>, key: Key, w: Waiter)
    requires Inv(y, spot, cellKey) && y.phase.Executing? && WellTyped(Drain(y.s), y.phase.owner, e, y.handles)
    requires Has(y.s.board.waiters, key, w) && w.Direct?
    ensures var d, z := Drain(y.s), PerformStep(y, e).s;
            || Has(z.board.waiters, key, w)
            || Served(z, key, w, WakeAt(y.s.meta, w))
            || (Served(d, key, w, WakeAt(y.s.meta, w)) && d.board.ready <= z.board.ready)
  {
    var d := Drain(y.s);
    var spot' := DrainedEntered(y, spot, cellKey);
    DrainServes(y.s, key, w);
    if Settles(e) {
      SettlingGrows(d, y.phase.owner, y.nextCont, e, y.handles.Keys, y.nextHandle);
      if Has(d.board.waiters, key, w) {
        SettlingServes(d, y.phase.owner, y.nextCont, e, y.handles.Keys, y.nextHandle, key, w);
      }
    } else {
      HandlingKeeps(d, y.phase.owner, y.nextCont, e, y.handles.Keys, y.nextHandle);
    }
  }

  /** From `s` to `z` a direct waiter stays registered, or it is queued with what the waitable came
      to, as is recorded in `z` or, if the step begins with a `drain`, was recorded after that. */
  ghost predicate Serves(s: State, drains: bool, z: State, key: Key, w: Waiter, st: Status, v: Value)
    requires w.Direct?
  {
    || Has(z.board.waiters, key, w)
    || ((Recorded(z.meta, key, st, v) || (drains && Recorded(Drain(s).meta, key, st, v)))
        && Queues(z.board.ready, Delivery(st, v, w.owner, w.cont), WakeAt(s.meta, w)))
  }

  lemma PerformStepServes(y: System, e: Effect, diagnose: bool, spot: Spots, cellKey: map<nat, Key>, key: Key,
                          w: Waiter)
    returns (st: Status, v: Value)
    requires Inv(y, spot, cellKey) && Enabled(y, Perform(e), diagnose) && Has(y.s.board.waiters, key, w) && w.Direct?
    ensures Serves(y.s, true, PerformStep(y, e).s, key, w, st, v)
  {
    PerformServes(y, e, spot, cellKey, key, w);
    var d, z := Drain(y.s), PerformStep(y, e).s;
    var meta := if Served(z, key, w, WakeAt(y.s.meta, w)) then z.meta else d.meta;
    st, v := StatusOf(meta, key), ResultOf(meta, key);
  }

  lemma OtherStepServes(y: System, a: Action, diagnose: bool, key: Key, w: Waiter)
    requires Enabled(y, a, diagnose) && !a.Perform? && Has(y.s.board.waiters, key, w) && w.Direct?
    ensures var z := Step(y, a, diagnose);
            Has(z.s.board.waiters, key, w) || Served(z.s, key, w, WakeAt(y.s.meta, w))
  {
    match a
    case Enter => DrainServes(y.s, key, w);
    case Dispatch => TurnServes(y.s, y.phase.held, y.phase.shield, diagnose, key, w);
    case _ =>
  }

  lemma StepServes(y: System, a: Action, diagnose: bool, spot: Spots, cellKey: map<nat, Key>, key: Key, w: Waiter)
    returns (st: Status, v: Value)
    requires Inv(y, spot, cellKey) && Enabled(y, a, diagnose) && Has(y.s.board.waiters, key, w) && w.Direct?
    ensures Serves(y.s, a.Perform?, Step(y, a, diagnose).s, key, w, st, v)
  {
    if a.Perform? {
      st, v := PerformStepServes(y, a.e, diagnose, spot, cellKey, key, w);
    } else {
      OtherStepServes(y, a, diagnose, key, w);
      var meta := Step(y, a, diagnose).s.meta;
      st, v := StatusOf(meta, key), ResultOf(meta, key);
    }
  }

  lemma PerformKeepsItem(y: System, e: Effect, spot: Spots, cellKey: map<nat, Key>)
    requires Inv(y, spot, cellKey) && y.phase.Executing? && WellTyped(Drain(y.s), y.phase.owner, e, y.handles)
    ensures y.s.board.ready <= PerformStep(y, e).s.board.ready
  {
    var d := Drain(y.s);
    var spot' := DrainedEntered(y, spot, cellKey);
    DrainGrows(y.s);
    if Settles(e) {
      SettlingGrows(d, y.phase.owner, y.nextCont, e, y.handles.Keys, y.nextHandle);
    } else {
      HandlingKeeps(d, y.phase.owner, y.nextCont, e, y.handles.Keys, y.nextHandle);
    }
  }

  /** The step hands the processor to the owner of `e`, with `e`. */
  ghost predicate Chooses(y: System, a: Action, diagnose: bool, e: Entry) {
    a.Dispatch? && y.phase.Picking? && PickTurn(y.s, y.phase.held, y.phase.shield, diagnose).Chosen?
    && PickTurn(y.s, y.phase.held, y.phase.shield, diagnose).entry == e
  }

  ghost predicate Queued(y: System, e: Entry, prio: int) { Queues(y.s.board.ready + HeldItems(y), e, prio) }

  lemma DispatchKeepsQueued(y: System, diagnose: bool, e: Entry, prio: int)
    requires Enabled(y, Dispatch, diagnose) && HeldShape(y.s, y.phase.held, y.phase.shield)
    requires Queued(y, e, prio) && !e.Placeholder?
    ensures || Queued(DispatchStep(y, diagnose), e, prio)
            || Chooses(y, Dispatch, diagnose, e)
            || IsCancelled(y.s.meta, EntryOwner(e))
  {
    var x :| x in y.s.board.ready + HeldItems(y) && x.entry == e && x.prio == prio;
    TurnKeepsItem(y.s, y.phase.held, y.phase.shield, diagnose, x);
  }

  lemma StepKeepsQueued(y: System, a: Action, diagnose: bool, spot: Spots, cellKey: map<nat, Key>, e: Entry, prio: int)
    requires Inv(y, spot, cellKey) && Enabled(y, a, diagnose) && Queued(y, e, prio) && !e.Placeholder?
    ensures Queued(Step(y, a, diagnose), e, prio) || Chooses(y, a, diagnose, e) || IsCancelled(y.s.meta, EntryOwner(e))
  {
    match a
    case Perform(f) => PerformKeepsItem(y, f, spot, cellKey);
    case Enter => DrainGrows(y.s);
    case Dispatch => DispatchKeepsQueued(y, diagnose, e, prio);
    case _ =>
  }

  // ---- Runs ----------------------------------------------------------------

  /** Somewhere along the run the dispatch loop chooses `e`. */
  ghost predicate ChosenIn(y: System, acts: seq<Action>, diagnose: bool, e: Entry)
    requires Possible(y, acts, diagnose)
    decreases |acts|
  {
    acts != [] && (Chooses(y, acts[0], diagnose, e) || ChosenIn(Step(y, acts[0], diagnose), acts[1..], diagnose, e))
  }

  /** Somewhere along the run `key` has the final outcome `st`, `v`; what the `drain` at the
      beginning of an effect records may be swept before the effect ends. */
  ghost predicate CameTo(y: System, acts: seq<Action>, diagnose: bool, key: Key, st: Status, v: Value)
    requires Possible(y, acts, diagnose)
    decreases |acts|
  {
    || Recorded(y.s.meta, key, st, v)
    || (acts != []
        && ((acts[0].Perform? && Recorded(Drain(y.s).meta, key, st, v))
            || CameTo(Step(y, acts[0], diagnose), acts[1..], diagnose, key, st, v)))
  }

  lemma CancelledStays(y: System, acts: seq<Action>, diagnose: bool, spot: Spots, cellKey: map<nat, Key>, o: Owner)
    requires Inv(y, spot, cellKey) && Possible(y, acts, diagnose) && IsCancelled(y.s.meta, o)
    ensures IsCancelled(After(y, acts, diagnose).s.meta, o)
  {
    RunLater(y, acts, diagnose, spot, cellKey);
  }

  /** What is queued stays queued until it is chosen, unless its owner is cancelled. */
  lemma {:induction false} RunKeepsQueued(y: System, acts: seq<Action>, diagnose: bool, spot: Spots,
                                          cellKey: map<nat, Key>, e: Entry, prio: int)
    requires Inv(y, spot, cellKey) && Possible(y, acts, diagnose) && Queued(y, e, prio) && !e.Placeholder?
    ensures var z := After(y, acts, diagnose);
            Queued(z, e, prio) || ChosenIn(y, acts, diagnose, e) || IsCancelled(z.s.meta, EntryOwner(e))
    decreases |acts|
  {
    if acts != [] {
      StepKeepsQueued(y, acts[0], diagnose, spot, cellKey, e, prio);
      if IsCancelled(y.s.meta, EntryOwner(e)) {
        CancelledStays(y, acts, diagnose, spot, cellKey, EntryOwner(e));
      } else if Queued(Step(y, acts[0], diagnose), e, prio) {
        var spot1, cellKey1 := StepKeeps(y, acts[0], diagnose, spot, cellKey);
        RunKeepsQueued(Step(y, acts[0], diagnose), acts[1..], diagnose, spot1, cellKey1, e, prio);
      }
    }
  }

  lemma SamePriority(y: System, a: Action, diagnose: bool, spot: Spots, cellKey: map<nat, Key>, spot': Spots,
                     cellKey': map<nat, Key>, o: Owner)
    requires Inv(y, spot, cellKey) && Enabled(y, a, diagnose) && Inv(Step(y, a, diagnose), spot', cellKey')
    requires o in spot && o in spot'
    ensures TaskPriority(Step(y, a, diagnose).s.meta, o) == TaskPriority(y.s.meta, o)
  {
    StepLater(y, a, diagnose, spot, cellKey);
  }

  lemma SameWakeAt(y: System, a: Action, diagnose: bool, spot: Spots, cellKey: map<nat, Key>, spot': Spots,
                   cellKey': map<nat, Key>, key: Key, w: Waiter)
    requires Inv(y, spot, cellKey) && Enabled(y, a, diagnose) && Inv(Step(y, a, diagnose), spot', cellKey')
    requires w.Direct? && Has(y.s.board.waiters, key, w) && Has(Step(y, a, diagnose).s.board.waiters, key, w)
    ensures WakeAt(Step(y, a, diagnose).s.meta, w) == WakeAt(y.s.meta, w)
  {
    assert w.owner in spot && w.owner in spot';
    SamePriority(y, a, diagnose, spot, cellKey, spot', cellKey', w.owner);
  }

  /** `w` has been answered by the end of the run: its waitable came to `st`, `v`, and `w`'s owner
      is queued with just that, has been resumed with it, or is cancelled. */
  ghost predicate Answered(y: System, acts: seq<Action>, diagnose: bool, key: Key, w: Waiter, prio: int, st: Status,
                           v: Value)
    requires Possible(y, acts, diagnose) && w.Direct?
  {
    var z, e := After(y, acts, diagnose), Delivery(st, v, w.owner, w.cont);
    && CameTo(y, acts, diagnose, key, st, v)
    && (Queued(z, e, prio) || ChosenIn(y, acts, diagnose, e) || IsCancelled(z.s.meta, w.owner))
  }

  lemma AnsweredNow(y: System, acts: seq<Action>, diagnose: bool, y1: System, key: Key, w: Waiter, st: Status, v: Value)
    requires Possible(y, acts, diagnose) && acts != [] && y1 == Step(y, acts[0], diagnose) && w.Direct?
    requires Serves(y.s, acts[0].Perform?, y1.s, key, w, st, v) && !Has(y1.s.board.waiters, key, w)
    requires var z, e := After(y1, acts[1..], diagnose), Delivery(st, v, w.owner, w.cont);
             Queued(z, e, WakeAt(y.s.meta, w)) || ChosenIn(y1, acts[1..], diagnose, e) || IsCancelled(z.s.meta, w.owner)
    ensures Answered(y, acts, diagnose, key, w, WakeAt(y.s.meta, w), st, v)
  {
    assert Recorded(y1.s.meta, key, st, v) ==> CameTo(y1, acts[1..], diagnose, key, st, v);
  }

  lemma AnsweredFrom(y: System, acts: seq<Action>, diagnose: bool, y1: System, spot1: Spots, cellKey1: map<nat, Key>,
                     key: Key, w: Waiter, st: Status, v: Value)
    requires Possible(y, acts, diagnose) && acts != [] && y1 == Step(y, acts[0], diagnose) && w.Direct?
    requires Inv(y1, spot1, cellKey1) && Serves(y.s, acts[0].Perform?, y1.s, key, w, st, v)
    requires !Has(y1.s.board.waiters, key, w)
    ensures Answered(y, acts, diagnose, key, w, WakeAt(y.s.meta, w), st, v)
  {
    RunKeepsQueued(y1, acts[1..], diagnose, spot1, cellKey1, Delivery(st, v, w.owner, w.cont), WakeAt(y.s.meta, w));
    AnsweredNow(y, acts, diagnose, y1, key, w, st, v);
  }

  lemma {:induction false} RunServes(y: System, acts: seq<Action>, diagnose: bool, spot: Spots, cellKey: map<nat, Key>,
                                     key: Key, w: Waiter)
    returns (st: Status, v: Value)
    requires Inv(y, spot, cellKey) && Possible(y, acts, diagnose) && Has(y.s.board.waiters, key, w) && w.Direct?
    ensures || Has(After(y, acts, diagnose).s.board.waiters, key, w)
            || Answered(y, acts, diagnose, key, w, WakeAt(y.s.meta, w), st, v)
    decreases |acts|
  {
    st, v := Pending, Nothing;
    if acts != [] {
      var y1 := Step(y, acts[0], diagnose);
      var spot1, cellKey1 := StepKeeps(y, acts[0], diagnose, spot, cellKey);
      st, v := StepServes(y, acts[0], diagnose, spot, cellKey, key, w);
      if Has(y1.s.board.waiters, key, w) {
        SameWakeAt(y, acts[0], diagnose, spot, cellKey, spot1, cellKey1, key, w);
        st, v := RunServes(y1, acts[1..], diagnose, spot1, cellKey1, key, w);
      } else {
        AnsweredFrom(y, acts, diagnose, y1, spot1, cellKey1, key, w, st, v);
      }
    }
  }

  /** Outcomes are final: as long as it is kept, the entry of `key` says what the run recorded. */
  lemma {:induction false} CameToStays(y: System, acts: seq<Action>, diagnose: bool, spot: Spots,
                                       cellKey: map<nat, Key>,
                                       key: Key, st: Status, v: Value)
    requires Inv(y, spot, cellKey) && Possible(y, acts, diagnose) && CameTo(y, acts, diagnose, key, st, v)
    ensures key in After(y, acts, diagnose).s.meta ==> Recorded(After(y, acts, diagnose).s.meta, key, st, v)
    decreases |acts|
  {
    if Recorded(y.s.meta, key, st, v) {
      RunLater(y, acts, diagnose, spot, cellKey);
    } else {
      var y1 := Step(y, acts[0], diagnose);
      var spot1, cellKey1 := StepKeeps(y, acts[0], diagnose, spot, cellKey);
      if CameTo(y1, acts[1..], diagnose, key, st, v) {
        CameToStays(y1, acts[1..], diagnose, spot1, cellKey1, key, st, v);
      } else {
        StaysOrGone(y, acts[0].e, spot, cellKey, key, st, v);
        RunLater(y1, acts[1..], diagnose, spot1, cellKey1);
      }
    }
  }

  lemma StaysOrGone(y: System, e: Effect, spot: Spots, cellKey: map<nat, Key>, key: Key, st: Status, v: Value)
    requires Inv(y, spot, cellKey) && y.phase.Executing? && WellTyped(Drain(y.s), y.phase.owner, e, y.handles)
    requires Recorded(Drain(y.s).meta, key, st, v)
    ensures key in PerformStep(y, e).s.meta ==> Recorded(PerformStep(y, e).s.meta, key, st, v)
    ensures key.id < PerformStep(y, e).s.nextId
  {
    var spot' := DrainedEntered(y, spot, cellKey);
    HandlingLater(Drain(y.s), y.phase.owner, y.nextCont, e, y.handles.Keys, y.nextHandle);
  }

  // ---- No wakeup is lost ---------------------------------------------------

  /** Whoever is registered with a waitable at some point of a run is, however the run goes on,
      still registered while the waitable is pending, and otherwise answered. */
  lemma RegistrationsAreAnswered(acts: seq<Action>, more: seq<Action>, diagnose: bool, key: Key, w: Waiter)
    returns (st: Status, v: Value)
    requires Possible(START, acts, diagnose) && Possible(After(START, acts, diagnose), more, diagnose)
    requires Has(After(START, acts, diagnose).s.board.waiters, key, w) && w.Direct?
    ensures var y := After(START, acts, diagnose); var z := After(y, more, diagnose);
            || (Has(z.s.board.waiters, key, w) && key in z.s.meta && !Terminal(z.s.meta[key].status))
            || (Answered(y, more, diagnose, key, w, WakeAt(y.s.meta, w), st, v)
                && (key in z.s.meta ==> Recorded(z.s.meta, key, st, v)))
  {
    var y := After(START, acts, diagnose);
    var spot, cellKey := RunsAreSound(acts, diagnose);
    st, v := RunServes(y, more, diagnose, spot, cellKey, key, w);
    if Has(After(y, more, diagnose).s.board.waiters, key, w) {
      var spot', cellKey' := RunKeeps(y, more, diagnose, spot, cellKey);
    } else {
      CameToStays(y, more, diagnose, spot, cellKey, key, st, v);
    }
  }

  /** The priority a waiter asked to be woken at: `PRIORITY_IDLE` on an external promise only
      says how to park. */
  function WakePriority(meta: map<Key, Meta>, o: Owner, key: Key, wake: Option<int>): int {
    if wake.None? || (External(meta, key) && wake.value == PRIORITY_IDLE) then TaskPriority(meta, o) else wake.value
  }

  lemma WaitRegisters(s: State, o: Owner, k: nat, key: Key, wake: Option<int>) returns (w: Waiter)
    requires HandleWait(s, o, k, key, wake).1.Suspended?
    ensures var s' := HandleWait(s, o, k, key, wake).0;
            && w.Direct? && w.owner == o && w.cont == k && Has(s'.board.waiters, key, w)
            && WakeAt(s'.meta, w) == WakePriority(s'.meta, o, key, wake)
  {
    var ws := RegsAt(HandleWait(s, o, k, key, wake).0.board.waiters, key);
    w := ws[|ws| - 1];
  }

  /** Whoever suspends in a `Wait` is, however the run goes on, still registered while the waitable
      is pending; and otherwise queued at the priority asked for with its final value, its error
      or the cancellation, or resumed with that, or cancelled. */
  lemma WaitsAreAnswered(acts: seq<Action>, more: seq<Action>, diagnose: bool, key: Key, wake: Option<int>)
    returns (w: Waiter, st: Status, v: Value)
    requires Possible(START, acts, diagnose)
    requires Enabled(After(START, acts, diagnose), Perform(Wait(key, wake)), diagnose)
    requires Step(After(START, acts, diagnose), Perform(Wait(key, wake)), diagnose).phase.Entering?
    requires Possible(Step(After(START, acts, diagnose), Perform(Wait(key, wake)), diagnose), more, diagnose)
    ensures var x := After(START, acts, diagnose); var y := Step(x, Perform(Wait(key, wake)), diagnose);
            var z := After(y, more, diagnose);
            && w.Direct? && w.owner == x.phase.owner && w.cont == x.nextCont
            && (|| (Has(z.s.board.waiters, key, w) && key in z.s.meta && !Terminal(z.s.meta[key].status))
                || (Answered(y, more, diagnose, key, w, WakePriority(y.s.meta, w.owner, key, wake), st, v)
                    && (key in z.s.meta ==> Recorded(z.s.meta, key, st, v))))
  {
    var x := After(START, acts, diagnose);
    var y := Step(x, Perform(Wait(key, wake)), diagnose);
    var spot0, cellKey0 := RunsAreSound(acts, diagnose);
    var spot, cellKey := StepKeeps(x, Perform(Wait(key, wake)), diagnose, spot0, cellKey0);
    w := WaitRegisters(Drain(x.s), x.phase.owner, x.nextCont, key, wake);
    st, v := RunServes(y, more, diagnose, spot, cellKey, key, w);
    if Has(After(y, more, diagnose).s.board.waiters, key, w) {
      var spot', cellKey' := RunKeeps(y, more, diagnose, spot, cellKey);
    } else {
      CameToStays(y, more, diagnose, spot, cellKey, key, st, v);
    }
  }
}
