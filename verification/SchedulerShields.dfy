/** While somebody waits for a pending external promise, its placeholder stands in the heap, at the
    priority that shields the wait from daemons, until the wait is over or its owner is cancelled. */
module SchedulerShields {
  import opened Wrappers
  import opened SchedulerDelivery
  import opened SchedulerDispatch
  import opened SchedulerFlights
  import opened SchedulerInvariant
  import opened SchedulerModel
  import opened SchedulerResults
  import opened SchedulerRuns
  import opened SchedulerSafety
  import opened SchedulerSteps
  import opened SchedulerTheorems
  import opened SchedulerWaking

  ghost predicate Stands(items: set<Item>, o: Owner, key: Key, cell: nat) {
    exists x :: x in items && x.entry == Placeholder(o, key, cell) && x.prio == PRIORITY_EXTERNAL_WAIT
  }

  /** Registrations with a cell, of live owners, have their placeholder; and gathers and races have a cell
      with each registration on an external promise. */
  ghost predicate Shielded(waiters: map<Key, seq<Waiter>>, items: set<Item>, meta: map<Key, Meta>) {
    && (forall key, w :: Has(waiters, key, w) && w.cell.Some? && !IsCancelled(meta, w.owner) ==>
          Stands(items, w.owner, key, w.cell.value))
    && (forall key, w :: Has(waiters, key, w) && w.Joined? && External(meta, key) ==> w.cell.Some?)
  }

  // ---- Fewer registrations, more items -------------------------------------

  ghost predicate Fewer(waiters: map<Key, seq<Waiter>>, waiters': map<Key, seq<Waiter>>) {
    forall key, w :: Has(waiters', key, w) ==> Has(waiters, key, w)
  }

  /** What is the same about entries as runs go on. */
  ghost predicate SameKinds(meta: map<Key, Meta>, meta': map<Key, Meta>) {
    && (forall o :: IsCancelled(meta, o) ==> IsCancelled(meta', o))
    && (forall key :: key in meta' && key in meta ==> meta'[key].external == meta[key].external)
  }

  lemma LaterKinds(s: State, s': State)
    requires Later(s, s')
    ensures SameKinds(s.meta, s'.meta)
  {
  }

  ghost predicate Registrable(waiters: map<Key, seq<Waiter>>, meta: map<Key, Meta>) {
    forall key :: key in waiters ==> key in meta
  }

  lemma FewerShielded(waiters: map<Key, seq<Waiter>>, items: set<Item>, meta: map<Key, Meta>,
                      waiters': map<Key, seq<Waiter>>, items': set<Item>, meta': map<Key, Meta>)
    requires Shielded(waiters, items, meta) && Fewer(waiters, waiters') && items <= items' && SameKinds(meta, meta')
    requires Registrable(waiters, meta)
    ensures Shielded(waiters', items', meta')
  {
    forall key, w | Has(waiters', key, w) && w.cell.Some? && !IsCancelled(meta', w.owner)
      ensures Stands(items', w.owner, key, w.cell.value)
    {
      assert Has(waiters, key, w) && Stands(items, w.owner, key, w.cell.value);
    }
    forall key, w | Has(waiters', key, w) && w.Joined? && External(meta', key) ensures w.cell.Some? {
      assert Has(waiters, key, w) && External(meta, key);
    }
  }

  lemma WithdrawFewer(waiters: map<Key, seq<Waiter>>, j: nat, pending: seq<Key>)
    ensures Fewer(waiters, WithdrawRegs(waiters, j, pending))
  {
    forall key, w | Has(WithdrawRegs(waiters, j, pending), key, w) ensures Has(waiters, key, w) {
      WithoutMembers(waiters[key], j);
    }
  }

  lemma WakeOneFewer(meta: map<Key, Meta>, b: Board, key: Key, w: Waiter)
    ensures Fewer(b.waiters, WakeOne(meta, b, key, w).0.waiters)
  {
    if w.Joined? && w.join in b.joins {
      WithdrawFewer(b.waiters, w.join, b.joins[w.join].pendingKeys);
    }
  }

  lemma {:induction false} WakeAllFewer(meta: map<Key, Meta>, b: Board, key: Key, ws: seq<Waiter>)
    ensures Fewer(b.waiters, WakeAll(meta, b, key, ws).0.waiters)
    decreases |ws|
  {
    if ws != [] {
      WakeOneFewer(meta, b, key, ws[0]);
      WakeAllFewer(meta, WakeOne(meta, b, key, ws[0]).0, key, ws[1..]);
    }
  }

  lemma ResolveFewer(s: State, key: Key, st: Status, v: Value)
    requires key in s.meta
    ensures Fewer(s.board.waiters, Resolve(s, key, st, v).0.board.waiters)
  {
    var b := s.board.(waiters := s.board.waiters - {key});
    WakeAllFewer(WithStatus(s.meta, key, st, v), b, key, RegsAt(s.board.waiters, key));
    assert Fewer(s.board.waiters, b.waiters);
  }

  lemma {:induction false} DrainFewer(s: State)
    ensures Fewer(s.board.waiters, Drain(s).board.waiters)
    decreases |s.queue|
  {
    if s.queue != [] {
      var c := s.queue[0];
      var key := PromiseKey(c.id);
      if StatusOf(s.meta, key).Pending? && key in s.meta {
        ResolveFewer(s.(queue := s.queue[1..]), key, if c.ok then Completed else Failed, c.value);
      }
      DrainFewer(DrainOne(s));
    }
  }

  // ---- Effects -------------------------------------------------------------

  lemma SettlingFewer(s: State, o: Owner, k: nat, e: Effect, live: set<nat>, h: nat)
    requires e.TaskCompleted? || e.Cancel? || e.CompletePromise? || e.FailPromise?
    requires e.TaskCompleted? ==> o.Of? && TaskKey(o.tid) in s.meta
    ensures Fewer(s.board.waiters, Handling(s, o, k, e, live, h).0.board.waiters)
  {
    var key := if e.TaskCompleted? then TaskKey(o.tid) else e.key;
    var st := if e.Cancel? then Cancelled
              else if e.TaskCompleted? then (if e.ok then Completed else Failed)
              else if e.CompletePromise? then Completed else Failed;
    if key in s.meta {
      ResolveFewer(s, key, st, if e.Cancel? then TaskCancelledError else e.value);
    }
  }

  lemma CreatingSame(s: State, o: Owner, k: nat, e: Effect, live: set<nat>, h: nat)
    requires e.Spawn? || e.CreatePromise? || e.CreateExternalPromise? || e.CreateSemaphore?
    ensures Handling(s, o, k, e, live, h).0.board.waiters == s.board.waiters
  {
  }

  lemma PermitsSame(s: State, o: Owner, k: nat, e: Effect, live: set<nat>, h: nat)
    requires (e.Acquire? || e.Release?) && e.sid in s.sems
    ensures Handling(s, o, k, e, live, h).0.board.waiters == s.board.waiters
  {
  }

  lemma SameWaiting(s: State, o: Owner, k: nat, e: Effect, live: set<nat>, h: nat)
    requires e.Spawn? || e.CreatePromise? || e.CreateExternalPromise? || e.CreateSemaphore? || e.Acquire? || e.Release?
    requires e.Acquire? || e.Release? ==> e.sid in s.sems
    ensures Handling(s, o, k, e, live, h).0.board.waiters == s.board.waiters
  {
    if e.Acquire? || e.Release? {
      PermitsSame(s, o, k, e, live, h);
    } else {
      CreatingSame(s, o, k, e, live, h);
    }
  }

  lemma RegisterShielded(meta: map<Key, Meta>, b: Board, items: set<Item>, key: Key, w: Waiter)
    requires Shielded(b.waiters, items, meta) && (w.cell.Some? ==> Stands(items, w.owner, key, w.cell.value))
    requires w.Joined? && External(meta, key) ==> w.cell.Some?
    ensures Shielded(AddReg(b, key, w).waiters, items, meta)
  {
    var ws := RegsAt(b.waiters, key);
    forall k, v | Has(AddReg(b, key, w).waiters, k, v) ensures Has(b.waiters, k, v) || (k == key && v == w) {
      if k == key {
        assert v in ws + [w];
      }
    }
  }

  lemma ShieldStands(b: Board, o: Owner, key: Key, meta: map<Key, Meta>)
    requires Shielded(b.waiters, b.ready, meta)
    ensures Shielded(Shield(b, o, key).waiters, Shield(b, o, key).ready, meta)
    ensures Stands(Shield(b, o, key).ready, o, key, b.nextObj)
  {
    var x := Item(PRIORITY_EXTERNAL_WAIT, b.nextSeq, Placeholder(o, key, b.nextObj));
    assert x in Shield(b, o, key).ready;
    forall k, w | Has(b.waiters, k, w) && w.cell.Some? && !IsCancelled(meta, w.owner)
      ensures Stands(Shield(b, o, key).ready, w.owner, k, w.cell.value)
    {
      assert Stands(b.ready, w.owner, k, w.cell.value);
    }
  }

  lemma ParkShielded(s: State, o: Owner, k: nat, key: Key, wake: Option<int>)
    requires Shielded(s.board.waiters, s.board.ready, s.meta)
    ensures var b := ParkDirect(s.meta, s.board, o, k, key, wake); Shielded(b.waiters, b.ready, s.meta)
  {
    if External(s.meta, key) && wake == Some(PRIORITY_IDLE) {
      RegisterShielded(s.meta, s.board, s.board.ready, key, Direct(o, k, None, None));
    } else if External(s.meta, key) {
      var b := Shield(s.board, o, key);
      ShieldStands(s.board, o, key, s.meta);
      RegisterShielded(s.meta, b, b.ready, key, Direct(o, k, wake, Some(s.board.nextObj)));
    } else {
      RegisterShielded(s.meta, s.board, s.board.ready, key, Direct(o, k, wake, None));
    }
  }

  lemma {:induction false} RegisterAllShielded(meta: map<Key, Meta>, b: Board, j: nat, o: Owner, keys: seq<Key>)
    requires Shielded(b.waiters, b.ready, meta)
    ensures var b' := RegisterAll(meta, b, j, o, keys); Shielded(b'.waiters, b'.ready, meta)
    decreases |keys|
  {
    if keys != [] {
      if External(meta, keys[0]) {
        var b1 := Shield(b, o, keys[0]);
        ShieldStands(b, o, keys[0], meta);
        RegisterShielded(meta, b1, b1.ready, keys[0], Joined(o, j, Some(b.nextObj)));
      } else {
        RegisterShielded(meta, b, b.ready, keys[0], Joined(o, j, None));
      }
      RegisterAllShielded(meta, RegisterJoined(meta, b, j, o, keys[0]), j, o, keys[1..]);
    }
  }

  lemma OpenShielded(s: State, g: Join)
    requires Shielded(s.board.waiters, s.board.ready, s.meta)
    ensures var b := OpenJoin(s.meta, s.board, g); Shielded(b.waiters, b.ready, s.meta)
  {
    var b := s.board;
    RegisterAllShielded(s.meta, b.(joins := b.joins[b.nextObj := g], nextObj := b.nextObj + 1), b.nextObj, g.owner,
                        g.pendingKeys);
  }

  lemma WaitingShielded(s: State, o: Owner, k: nat, e: Effect, live: set<nat>, h: nat)
    requires Shielded(s.board.waiters, s.board.ready, s.meta) && (e.Wait? || e.Gather? || e.Race?)
    ensures var s' := Handling(s, o, k, e, live, h).0; Shielded(s'.board.waiters, s'.board.ready, s'.meta)
  {
    match e
    case Wait(key, wake) => ParkShielded(s, o, k, key, wake);
    case Gather(keys) =>
      var pending := PendingOf(s.meta, keys);
      OpenShielded(s, Join(GatherJoin, o, k, keys, pending, |pending|, false));
    case Race(keys) => OpenShielded(s, Join(RaceJoin, o, k, keys, keys, 0, false));
  }

  lemma HandlingShielded(s: State, o: Owner, k: nat, e: Effect, live: set<nat>, h: nat)
    requires Shielded(s.board.waiters, s.board.ready, s.meta) && Registrable(s.board.waiters, s.meta)
    requires e.TaskCompleted? ==> o.Of? && TaskKey(o.tid) in s.meta
    requires e.Acquire? || e.Release? ==> e.sid in s.sems
    requires Later(s, Handling(s, o, k, e, live, h).0)
    requires s.board.ready <= Handling(s, o, k, e, live, h).0.board.ready
    ensures var s' := Handling(s, o, k, e, live, h).0; Shielded(s'.board.waiters, s'.board.ready, s'.meta)
  {
    var s' := Handling(s, o, k, e, live, h).0;
    if e.Wait? || e.Gather? || e.Race? {
      WaitingShielded(s, o, k, e, live, h);
    } else {
      if e.TaskCompleted? || e.Cancel? || e.CompletePromise? || e.FailPromise? {
        SettlingFewer(s, o, k, e, live, h);
      } else {
        SameWaiting(s, o, k, e, live, h);
      }
      LaterKinds(s, s');
      FewerShielded(s.board.waiters, s.board.ready, s.meta, s'.board.waiters, s'.board.ready, s'.meta);
    }
  }

  lemma HandlingGrows(s: State, o: Owner, k: nat, e: Effect, live: set<nat>, h: nat)
    requires e.TaskCompleted? ==> o.Of? && TaskKey(o.tid) in s.meta && Started(s.meta, o)
    requires e.Acquire? || e.Release? ==> e.sid in s.sems
    ensures s.board.ready <= Handling(s, o, k, e, live, h).0.board.ready
  {
    if e.TaskCompleted? || e.Cancel? || e.CompletePromise? || e.FailPromise? {
      SettlingGrows(s, o, k, e, live, h);
    } else {
      HandlingKeeps(s, o, k, e, live, h);
    }
  }

  lemma DrainShielded(s: State)
    requires Shielded(s.board.waiters, s.board.ready, s.meta) && Registrable(s.board.waiters, s.meta)
    requires forall key :: key in s.meta ==> key.id < s.nextId
    ensures var d := Drain(s); Shielded(d.board.waiters, d.board.ready, d.meta)
  {
    var d := Drain(s);
    DrainLater(s);
    DrainGrows(s);
    DrainFewer(s);
    LaterKinds(s, d);
    FewerShielded(s.board.waiters, s.board.ready, s.meta, d.board.waiters, d.board.ready, d.meta);
  }

  // ---- Turns ---------------------------------------------------------------

  lemma BlockKeepsShield(s: State, e: Entry, diagnose: bool, items: set<Item>, o: Owner, key: Key, cell: nat)
    requires e.Placeholder? && Stands(items, o, key, cell)
    requires forall x :: x in items ==> x in s.board.ready || x.entry == e
    requires var t := BlockOnPlaceholder(s, e, {}, false, diagnose); t.Again? && cell !in t.s.board.claimed
    ensures Stands(BlockOnPlaceholder(s, e, {}, false, diagnose).s.board.ready, o, key, cell)
  {
    var t := BlockOnPlaceholder(s, e, {}, false, diagnose);
    DrainGrows(s);
    DrainGrows(s.(sems := PruneQueues(s.meta, s.sems)));
    var x :| x in items && x.entry == Placeholder(o, key, cell) && x.prio == PRIORITY_EXTERNAL_WAIT;
    if x !in t.s.board.ready {
      assert t.s.board.nextSeq > 0;
      assert Item(PRIORITY_EXTERNAL_WAIT, t.s.board.nextSeq - 1, e) in t.s.board.ready;
    }
  }

  lemma PlaceholderKeepsShield(s: State, y: Item, held: set<Item>, shield: bool, diagnose: bool, o: Owner, key: Key,
                               cell: nat)
    requires HeldShape(s, held, shield) && y in s.board.ready && y.entry.Placeholder?
    requires Stands(s.board.ready + held, o, key, cell) && !IsCancelled(s.meta, o) && cell !in s.board.claimed
    requires var t := PopTurn(s, y, held, shield, diagnose); t.Again? && cell !in t.s.board.claimed
    ensures var t := PopTurn(s, y, held, shield, diagnose); Stands(t.s.board.ready + t.held, o, key, cell)
  {
    var t := PopTurn(s, y, held, shield, diagnose);
    var x :| x in s.board.ready + held && x.entry == Placeholder(o, key, cell) && x.prio == PRIORITY_EXTERNAL_WAIT;
    if Standing(s.meta, s.board.claimed, y.entry) && !HasLive(s.meta, Pop(s, y).board.ready, false) {
      if shield { StillLive(s.meta, s.board.ready, y); }
      assert held == {} && !shield;
      BlockKeepsShield(Pop(s, y), y.entry, diagnose, s.board.ready, o, key, cell);
      var x' :| x' in t.s.board.ready && x'.entry == Placeholder(o, key, cell) && x'.prio == PRIORITY_EXTERNAL_WAIT;
      assert x' in t.s.board.ready + t.held;
    } else {
      assert x in t.s.board.ready + t.held;
    }
  }

  lemma EntryKeepsShield(s: State, y: Item, held: set<Item>, shield: bool, diagnose: bool, o: Owner, key: Key,
                         cell: nat)
    requires y in s.board.ready && !y.entry.Placeholder? && Stands(s.board.ready + held, o, key, cell)
    ensures var t := PopTurn(s, y, held, shield, diagnose);
            (t.Again? || t.Chosen?) && Stands(t.s.board.ready + HeldAfter(t), o, key, cell)
  {
    var t := PopTurn(s, y, held, shield, diagnose);
    var x :| x in s.board.ready + held && x.entry == Placeholder(o, key, cell) && x.prio == PRIORITY_EXTERNAL_WAIT;
    if y.entry.Permit? && y.entry.sid in s.sems {
      ReturnKeepsWaiters(Pop(s, y), y.entry.sid, y.entry.owner);
    }
    assert x in t.s.board.ready + HeldAfter(t);
  }

  lemma TurnFewer(s: State, held: set<Item>, shield: bool, diagnose: bool)
    ensures var t := PickTurn(s, held, shield, diagnose); !t.Blocking? ==> Fewer(s.board.waiters, t.s.board.waiters)
  {
    if s.board.ready == {} {
      DrainFewer(s.(sems := PruneQueues(s.meta, s.sems)));
    } else {
      PopTurnFewer(s, Least(s.board.ready), held, shield, diagnose);
    }
  }

  lemma PopTurnFewer(s: State, x: Item, held: set<Item>, shield: bool, diagnose: bool)
    ensures var t := PopTurn(s, x, held, shield, diagnose); !t.Blocking? ==> Fewer(s.board.waiters, t.s.board.waiters)
  {
    if x.entry.Placeholder? {
      BlockFewer(Pop(s, x), x.entry, held, shield, diagnose);
    } else if x.entry.Permit? && x.entry.sid in s.sems {
      ReturnSameWaiters(Pop(s, x), x.entry.sid, x.entry.owner);
    }
  }

  lemma ReturnSameWaiters(s: State, sid: nat, o: Owner)
    requires sid in s.sems
    ensures ReturnPermit(s, sid, o).board.waiters == s.board.waiters
  {
  }

  lemma BlockFewer(s: State, e: Entry, held: set<Item>, shield: bool, diagnose: bool)
    requires e.Placeholder?
    ensures var t := BlockOnPlaceholder(s, e, held, shield, diagnose);
            !t.Blocking? ==> Fewer(s.board.waiters, t.s.board.waiters)
  {
    DrainFewer(s);
    DrainFewer(s.(sems := PruneQueues(s.meta, s.sems)));
  }

  lemma TurnKeepsShield(s: State, held: set<Item>, shield: bool, diagnose: bool, o: Owner, key: Key, cell: nat)
    requires HeldShape(s, held, shield) && Stands(s.board.ready + held, o, key, cell)
    requires !IsCancelled(s.meta, o) && cell !in s.board.claimed
    requires var t := PickTurn(s, held, shield, diagnose); (t.Again? || t.Chosen?) && cell !in t.s.board.claimed
    ensures var t := PickTurn(s, held, shield, diagnose); Stands(t.s.board.ready + HeldAfter(t), o, key, cell)
  {
    var t := PickTurn(s, held, shield, diagnose);
    assert s.board.ready != {} by {
      assert shield ==> HasLive(s.meta, s.board.ready, false);
    }
    var y := Least(s.board.ready);
    if y.entry.Placeholder? {
      PlaceholderKeepsShield(s, y, held, shield, diagnose, o, key, cell);
    } else {
      EntryKeepsShield(s, y, held, shield, diagnose, o, key, cell);
    }
  }

  // ---- Runs ----------------------------------------------------------------

  /** ... as long as the run has not ended in an error or in nothing. */
  ghost predicate ShieldsUp(y: System) {
    y.phase.DeadlockRaised? || y.phase.RanDry? || Shielded(y.s.board.waiters, y.s.board.ready + HeldItems(y), y.s.meta)
  }

  ghost predicate Unclaimed(b: Board) {
    forall key, w :: Has(b.waiters, key, w) && w.cell.Some? ==> w.cell.value !in b.claimed
  }

  lemma TurnShields(s: State, held: set<Item>, shield: bool, diagnose: bool)
    requires HeldShape(s, held, shield) && Shielded(s.board.waiters, s.board.ready + held, s.meta) && Unclaimed(s.board)
    requires Registrable(s.board.waiters, s.meta)
    requires var t := PickTurn(s, held, shield, diagnose);
             (t.Again? || t.Chosen?) && Unclaimed(t.s.board) && SameKinds(s.meta, t.s.meta)
    ensures var t := PickTurn(s, held, shield, diagnose);
            Shielded(t.s.board.waiters, t.s.board.ready + HeldAfter(t), t.s.meta)
  {
    var t := PickTurn(s, held, shield, diagnose);
    TurnFewer(s, held, shield, diagnose);
    forall key, w | Has(t.s.board.waiters, key, w) && w.cell.Some? && !IsCancelled(t.s.meta, w.owner)
      ensures Stands(t.s.board.ready + HeldAfter(t), w.owner, key, w.cell.value)
    {
      assert Has(s.board.waiters, key, w);
      TurnKeepsShield(s, held, shield, diagnose, w.owner, key, w.cell.value);
    }
    forall key, w | Has(t.s.board.waiters, key, w) && w.Joined? && External(t.s.meta, key) ensures w.cell.Some? {
      assert Has(s.board.waiters, key, w) && External(s.meta, key);
    }
  }

  lemma CellsAreUnclaimed(y: System, spot: Spots, cellKey: map<nat, Key>)
    requires Inv(y, spot, cellKey)
    ensures Unclaimed(y.s.board)
  {
    UnclaimedCells(y.s.board, y.s.meta, cellKey);
  }

  lemma UnclaimedCells(b: Board, meta: map<Key, Meta>, cellKey: map<nat, Key>)
    requires CellsUnclaimed(b.waiters, b.claimed, meta, cellKey, b.nextObj)
    ensures Unclaimed(b)
  {
  }

  lemma RegisteredAreKnown(y: System, spot: Spots, cellKey: map<nat, Key>)
    requires Inv(y, spot, cellKey)
    ensures Registrable(y.s.board.waiters, y.s.meta)
    ensures y.phase.Picking? ==> HeldShape(y.s, y.phase.held, y.phase.shield)
  {
  }

  lemma Turning(y: System, t: Turn)
    requires (t.Again? || t.Chosen?) && Shielded(t.s.board.waiters, t.s.board.ready + HeldAfter(t), t.s.meta)
    ensures ShieldsUp(Turned(y, t))
  {
  }

  lemma DispatchShields(y: System, diagnose: bool, spot: Spots, cellKey: map<nat, Key>)
    requires Inv(y, spot, cellKey) && Enabled(y, Dispatch, diagnose) && ShieldsUp(y)
    ensures ShieldsUp(DispatchStep(y, diagnose))
  {
    var spot', cellKey' := StepKeeps(y, Dispatch, diagnose, spot, cellKey);
    CellsAreUnclaimed(y, spot, cellKey);
    RegisteredAreKnown(y, spot, cellKey);
    CellsAreUnclaimed(DispatchStep(y, diagnose), spot', cellKey');
    StepLater(y, Dispatch, diagnose, spot, cellKey);
    LaterKinds(y.s, DispatchStep(y, diagnose).s);
    DispatchShielded(y, diagnose);
  }

  lemma DispatchShielded(y: System, diagnose: bool)
    requires Enabled(y, Dispatch, diagnose) && ShieldsUp(y) && Registrable(y.s.board.waiters, y.s.meta)
    requires HeldShape(y.s, y.phase.held, y.phase.shield) && Unclaimed(y.s.board)
    requires Unclaimed(DispatchStep(y, diagnose).s.board) && SameKinds(y.s.meta, DispatchStep(y, diagnose).s.meta)
    ensures ShieldsUp(DispatchStep(y, diagnose))
  {
    var t := PickTurn(y.s, y.phase.held, y.phase.shield, diagnose);
    if t.Again? || t.Chosen? {
      TurnShields(y.s, y.phase.held, y.phase.shield, diagnose);
      Turning(y, t);
    }
  }

  /** What is known of the state in which `y` handles an effect. */
  ghost predicate ReadyFor(d: State, o: Owner) {
    && Shielded(d.board.waiters, d.board.ready, d.meta) && Registrable(d.board.waiters, d.meta) && Started(d.meta, o)
    && forall key :: key in d.meta ==> key.id < d.nextId
  }

  lemma DrainedShields(y: System, spot: Spots, cellKey: map<nat, Key>)
    requires Inv(y, spot, cellKey) && y.phase.Executing? && ShieldsUp(y)
    ensures ReadyFor(Drain(y.s), y.phase.owner)
  {
    var spot' := DrainedEntered(y, spot, cellKey);
    RegisteredAreKnown(y, spot, cellKey);
    assert y.s.board.ready + {} == y.s.board.ready;
    DrainShielded(y.s);
  }

  lemma HandledShields(y: System, d: State, e: Effect)
    requires y.phase.Executing? && ReadyFor(d, y.phase.owner) && WellTyped(d, y.phase.owner, e, y.handles)
    ensures var s' := Handling(d, y.phase.owner, y.nextCont, e, y.handles.Keys, y.nextHandle).0;
            Shielded(s'.board.waiters, s'.board.ready, s'.meta)
  {
    HandlingLater(d, y.phase.owner, y.nextCont, e, y.handles.Keys, y.nextHandle);
    HandlingGrows(d, y.phase.owner, y.nextCont, e, y.handles.Keys, y.nextHandle);
    HandlingShielded(d, y.phase.owner, y.nextCont, e, y.handles.Keys, y.nextHandle);
  }

  lemma PerformShields(y: System, e: Effect, spot: Spots, cellKey: map<nat, Key>)
    requires Inv(y, spot, cellKey) && y.phase.Executing? && WellTyped(Drain(y.s), y.phase.owner, e, y.handles)
    requires ShieldsUp(y)
    ensures ShieldsUp(PerformStep(y, e))
  {
    DrainedShields(y, spot, cellKey);
    HandledShields(y, Drain(y.s), e);
    assert forall items: set<Item> :: items + {} == items;
  }

  lemma StepShields(y: System, a: Action, diagnose: bool, spot: Spots, cellKey: map<nat, Key>)
    requires Inv(y, spot, cellKey) && Enabled(y, a, diagnose) && ShieldsUp(y)
    ensures ShieldsUp(Step(y, a, diagnose))
  {
    match a
    case Perform(e) => PerformShields(y, e, spot, cellKey);
    case Dispatch => DispatchShields(y, diagnose, spot, cellKey);
    case Enter =>
      assert forall items: set<Item> :: items + {} == items;
      DrainShielded(y.s);
    case _ => assert HeldItems(Step(y, a, diagnose)) == HeldItems(y);
  }

  lemma {:induction false} RunShields(y: System, acts: seq<Action>, diagnose: bool, spot: Spots, cellKey: map<nat, Key>)
    requires Inv(y, spot, cellKey) && Possible(y, acts, diagnose) && ShieldsUp(y)
    ensures ShieldsUp(After(y, acts, diagnose))
    decreases |acts|
  {
    if acts != [] {
      StepShields(y, acts[0], diagnose, spot, cellKey);
      var spot1, cellKey1 := StepKeeps(y, acts[0], diagnose, spot, cellKey);
      RunShields(Step(y, acts[0], diagnose), acts[1..], diagnose, spot1, cellKey1);
    }
  }

  /** In every state of every run that has not ended, each gather or race waiting for an external promise,
      and each wait that was not asked to be idle, has its placeholder in the heap, unless its owner is
      cancelled. */
  lemma WaitsAreShielded(acts: seq<Action>, diagnose: bool, key: Key, w: Waiter)
    requires Possible(START, acts, diagnose)
    requires var y := After(START, acts, diagnose);
             && !y.phase.DeadlockRaised? && !y.phase.RanDry? && Has(y.s.board.waiters, key, w)
             && key in y.s.meta && y.s.meta[key].external && key.PromiseKey? && !IsCancelled(y.s.meta, w.owner)
    ensures var y := After(START, acts, diagnose);
            && (w.Joined? ==> w.cell.Some?)
            && (w.cell.Some? ==>
                  && w.cell.value !in y.s.board.claimed
                  && exists x :: x in y.s.board.ready + HeldItems(y) && x.prio == PRIORITY_EXTERNAL_WAIT
                                 && x.entry == Placeholder(w.owner, key, w.cell.value))
  {
    StartSatisfies();
    RunShields(START, acts, diagnose, map[], map[]);
    var spot, cellKey := RunsAreSound(acts, diagnose);
    CellsAreUnclaimed(After(START, acts, diagnose), spot, cellKey);
    ShieldedHere(After(START, acts, diagnose), key, w);
  }

  lemma ShieldedHere(y: System, key: Key, w: Waiter)
    requires Shielded(y.s.board.waiters, y.s.board.ready + HeldItems(y), y.s.meta) && Unclaimed(y.s.board)
    requires Has(y.s.board.waiters, key, w) && !IsCancelled(y.s.meta, w.owner)
    ensures w.Joined? && External(y.s.meta, key) ==> w.cell.Some?
    ensures w.cell.Some? ==>
              w.cell.value !in y.s.board.claimed && Stands(y.s.board.ready + HeldItems(y), w.owner, key, w.cell.value)
  {
  }

  /** A `Wait` for a pending external promise registers with a placeholder, unless it asks to be parked
      idle; it is woken at the priority it asks for, or its own. */
  lemma WaitsRegister(acts: seq<Action>, diagnose: bool, key: Key, wake: Option<int>) returns (w: Waiter)
    requires Possible(START, acts, diagnose)
    requires Enabled(After(START, acts, diagnose), Perform(Wait(key, wake)), diagnose)
    requires Step(After(START, acts, diagnose), Perform(Wait(key, wake)), diagnose).phase.Entering?
    ensures var y := After(START, acts, diagnose); var z := Step(y, Perform(Wait(key, wake)), diagnose);
            var idle := wake == Some(PRIORITY_IDLE);
            && Has(z.s.board.waiters, key, w) && w.Direct? && w.owner == y.phase.owner && w.cont == y.nextCont
            && key in z.s.meta
            && (if key.PromiseKey? && z.s.meta[key].external then
                  w.cell.Some? == !idle && (if idle then w.wake.None? else w.wake == wake)
                else w.cell.None? && w.wake == wake)
  {
    var y := After(START, acts, diagnose);
    LiveHandlesAreKnown(acts, diagnose, Wait(key, wake));
    var z := Step(y, Perform(Wait(key, wake)), diagnose);
    w := z.s.board.waiters[key][|z.s.board.waiters[key]| - 1];
  }
}
