/** The half of `SchedulerDeadlockError` that is about waits: where it is raised because nobody waits
    for a pending external promise, nothing could ever have run again. */
module ExternalDeadlock {
  import opened SchedulerModel
  import opened SchedulerSteps
  import opened SchedulerInvariant
  import opened SchedulerWaking
  import opened SchedulerEffects
  import opened SchedulerRuns
  import opened SchedulerSafety
  import opened SchedulerTheorems
  import opened SchedulerResults
  import opened SchedulerJoins

  // ---- Completions are for external promises -------------------------------

  /** Foreign threads hold `ExternalPromise` objects only: what they complete is an external
      promise, swept or not. */
  predicate ForExternal(s: State, c: Completion) {
    c.id < s.nextId && (PromiseKey(c.id) in s.meta ==> s.meta[PromiseKey(c.id)].external)
  }

  ghost predicate ForExternals(y: System, acts: seq<Action>, diagnose: bool)
    requires Possible(y, acts, diagnose)
    decreases |acts|
  {
    acts != [] ==>
      && (acts[0].Arrive? ==> ForExternal(y.s, acts[0].c))
      && ForExternals(Step(y, acts[0], diagnose), acts[1..], diagnose)
  }

  predicate QueueForExternals(s: State) { forall c :: c in s.queue ==> ForExternal(s, c) }

  lemma {:induction false} DrainQueue(s: State)
    ensures Drain(s).queue == []
    decreases |s.queue|
  {
    if s.queue != [] {
      DrainQueue(DrainOne(s));
    }
  }

  lemma SettlingQueue(s: State, o: Owner, k: nat, e: Effect, live: set<nat>, h: nat)
    requires e.TaskCompleted? ==> o.Of? && TaskKey(o.tid) in s.meta
    requires e.TaskCompleted? || e.Cancel? || e.CompletePromise? || e.FailPromise?
    ensures Handling(s, o, k, e, live, h).0.queue == s.queue
  {
  }

  lemma CreatingQueue(s: State, o: Owner, k: nat, e: Effect, live: set<nat>, h: nat)
    requires Creates(e)
    ensures Handling(s, o, k, e, live, h).0.queue == s.queue
  {
    CreatingLeaves(s, o, k, e, live, h);
  }

  lemma ParkingQueue(s: State, o: Owner, k: nat, e: Effect, live: set<nat>, h: nat)
    requires e.Wait? || e.Gather? || e.Race? || e.Acquire? || e.Release?
    requires e.Acquire? || e.Release? ==> e.sid in s.sems
    ensures Handling(s, o, k, e, live, h).0.queue == s.queue
  {
  }

  lemma HandlingQueue(s: State, o: Owner, k: nat, e: Effect, live: set<nat>, h: nat)
    requires e.TaskCompleted? ==> o.Of? && TaskKey(o.tid) in s.meta
    requires e.Acquire? || e.Release? ==> e.sid in s.sems
    ensures Handling(s, o, k, e, live, h).0.queue == s.queue
  {
    if e.TaskCompleted? || e.Cancel? || e.CompletePromise? || e.FailPromise? {
      SettlingQueue(s, o, k, e, live, h);
    } else if e.Spawn? || e.CreatePromise? || e.CreateExternalPromise? || e.CreateSemaphore? {
      CreatingQueue(s, o, k, e, live, h);
    } else {
      ParkingQueue(s, o, k, e, live, h);
    }
  }

  lemma BlockQueue(s: State, e: Entry, held: set<Item>, shield: bool, diagnose: bool)
    requires e.Placeholder?
    ensures var t := BlockOnPlaceholder(s, e, held, shield, diagnose);
            !t.Blocking? ==> t.s.queue == s.queue || t.s.queue == []
  {
    DrainQueue(s);
    DrainQueue(s.(sems := PruneQueues(s.meta, s.sems)));
  }

  lemma TurnQueue(s: State, held: set<Item>, shield: bool, diagnose: bool)
    ensures var t := PickTurn(s, held, shield, diagnose); !t.Blocking? ==> t.s.queue == s.queue || t.s.queue == []
  {
    if s.board.ready == {} {
      DrainQueue(s.(sems := PruneQueues(s.meta, s.sems)));
    } else {
      PopTurnQueue(s, Least(s.board.ready), held, shield, diagnose);
    }
  }

  lemma PopTurnQueue(s: State, x: Item, held: set<Item>, shield: bool, diagnose: bool)
    ensures var t := PopTurn(s, x, held, shield, diagnose); !t.Blocking? ==> t.s.queue == s.queue || t.s.queue == []
  {
    if x.entry.Placeholder? {
      BlockQueue(Pop(s, x), x.entry, held, shield, diagnose);
    }
  }

  lemma StepQueue(y: System, a: Action, diagnose: bool)
    requires Enabled(y, a, diagnose)
    ensures var q := Step(y, a, diagnose).s.queue;
            q == [] || q == y.s.queue || (a.Arrive? && q == y.s.queue + [a.c])
  {
    match a
    case Perform(e) =>
      DrainQueue(y.s);
      HandlingQueue(Drain(y.s), y.phase.owner, y.nextCont, e, y.handles.Keys, y.nextHandle);
    case Enter => DrainQueue(y.s);
    case Dispatch => TurnQueue(y.s, y.phase.held, y.phase.shield, diagnose);
    case _ =>
  }

  lemma StepForExternals(y: System, a: Action, diagnose: bool, spot: Spots, cellKey: map<nat, Key>)
    requires Inv(y, spot, cellKey) && Enabled(y, a, diagnose) && QueueForExternals(y.s)
    requires a.Arrive? ==> ForExternal(y.s, a.c)
    ensures QueueForExternals(Step(y, a, diagnose).s)
  {
    StepQueue(y, a, diagnose);
    StepLater(y, a, diagnose, spot, cellKey);
  }

  lemma {:induction false} RunForExternals(y: System, acts: seq<Action>, diagnose: bool, spot: Spots,
                                           cellKey: map<nat, Key>)
    requires Inv(y, spot, cellKey) && Possible(y, acts, diagnose) && QueueForExternals(y.s)
    requires ForExternals(y, acts, diagnose)
    ensures QueueForExternals(After(y, acts, diagnose).s)
    decreases |acts|
  {
    if acts != [] {
      StepForExternals(y, acts[0], diagnose, spot, cellKey);
      var spot1, cellKey1 := StepKeeps(y, acts[0], diagnose, spot, cellKey);
      RunForExternals(Step(y, acts[0], diagnose), acts[1..], diagnose, spot1, cellKey1);
    }
  }

  // ---- Only the cancelled are woken ----------------------------------------

  predicate DeadItems(ready: set<Item>, meta: map<Key, Meta>) {
    forall x :: x in ready ==> (x.entry.Resume? || x.entry.Raise?) && IsCancelled(meta, x.entry.owner)
  }

  predicate DeadReg(joins: map<nat, Join>, meta: map<Key, Meta>, w: Waiter) {
    IsCancelled(meta, w.owner) && (w.Joined? && w.join in joins ==> IsCancelled(meta, joins[w.join].owner))
  }

  /** Whoever waits for an external promise is cancelled. */
  ghost predicate DeadBoard(b: Board, meta: map<Key, Meta>) {
    && DeadItems(b.ready, meta)
    && forall key, w :: Has(b.waiters, key, w) && External(meta, key) ==> DeadReg(b.joins, meta, w)
  }

  lemma WakeOneDead(meta: map<Key, Meta>, b: Board, key: Key, w: Waiter)
    requires DeadReg(b.joins, meta, w) && DeadItems(b.ready, meta)
    ensures var b' := WakeOne(meta, b, key, w).0;
            DeadItems(b'.ready, meta) && forall k, v :: Has(b'.waiters, k, v) ==> Has(b.waiters, k, v)
  {
    if w.Joined? && w.join in b.joins {
      forall k | k in b.waiters ensures forall v :: v in Without(b.waiters[k], w.join) ==> v in b.waiters[k] {
        WithoutMembers(b.waiters[k], w.join);
      }
    }
  }

  lemma SameDeadReg(b: Board, b': Board, meta: map<Key, Meta>, w: Waiter)
    requires JoinsLater(b, b') && DeadReg(b.joins, meta, w)
    requires forall j :: j in b'.joins ==> j in b.joins
    ensures DeadReg(b'.joins, meta, w)
  {
  }

  lemma {:induction false} WakeAllDead(meta: map<Key, Meta>, b: Board, key: Key, ws: seq<Waiter>)
    requires DeadItems(b.ready, meta) && forall w :: w in ws ==> DeadReg(b.joins, meta, w)
    ensures var b' := WakeAll(meta, b, key, ws).0;
            && DeadItems(b'.ready, meta) && (forall k, v :: Has(b'.waiters, k, v) ==> Has(b.waiters, k, v))
            && JoinsLater(b, b') && b'.joins.Keys == b.joins.Keys
    decreases |ws|
  {
    if ws != [] {
      var b1 := WakeOne(meta, b, key, ws[0]).0;
      WakeOneDead(meta, b, key, ws[0]);
      WakeOneJoins(meta, b, key, ws[0]);
      assert b1.joins.Keys == b.joins.Keys;
      forall w | w in ws[1..] ensures DeadReg(b1.joins, meta, w) {
        SameDeadReg(b, b1, meta, w);
      }
      WakeAllDead(meta, b1, key, ws[1..]);
      JoinsLaterTransitive(b, b1, WakeAll(meta, b1, key, ws[1..]).0);
    }
  }

  lemma ResolveDead(s: State, key: Key, st: Status, v: Value)
    requires External(s.meta, key) && DeadBoard(s.board, s.meta)
    ensures var s' := Resolve(s, key, st, v).0; DeadBoard(s'.board, s'.meta)
  {
    var meta := WithStatus(s.meta, key, st, v);
    var b := s.board.(waiters := s.board.waiters - {key});
    var ws := RegsAt(s.board.waiters, key);
    forall o ensures IsCancelled(meta, o) <==> IsCancelled(s.meta, o) {}
    forall w | w in ws ensures DeadReg(b.joins, meta, w) {
      assert Has(s.board.waiters, key, w);
    }
    WakeAllDead(meta, b, key, ws);
    var b' := WakeAll(meta, b, key, ws).0;
    forall k, w | Has(b'.waiters, k, w) && External(meta, k) ensures DeadReg(b'.joins, meta, w) {
      assert Has(s.board.waiters, k, w);
      SameDeadReg(b, b', meta, w);
    }
  }

  lemma {:induction false} DrainDead(s: State)
    requires DeadBoard(s.board, s.meta) && QueueForExternals(s)
    ensures DeadBoard(Drain(s).board, Drain(s).meta)
    decreases |s.queue|
  {
    if s.queue != [] {
      var c := s.queue[0];
      var key := PromiseKey(c.id);
      assert ForExternal(s, c);
      if StatusOf(s.meta, key).Pending? && key in s.meta {
        ResolveDead(s.(queue := s.queue[1..]), key, if c.ok then Completed else Failed, c.value);
      }
      assert forall d :: d in s.queue[1..] ==> ForExternal(s, d);
      DrainDead(DrainOne(s));
    }
  }

  // ---- Nothing ever runs again ---------------------------------------------

  ghost predicate Stuck(y: System) {
    && (y.phase == Picking({}, false) || y.phase.RanDry?)
    && DeadBoard(y.s.board, y.s.meta) && QueueForExternals(y.s)
  }

  lemma DispatchStuck(y: System)
    requires Stuck(y) && Enabled(y, Dispatch, false)
    ensures var z := DispatchStep(y, false);
            (z.phase == Picking({}, false) || z.phase.RanDry?) && DeadBoard(z.s.board, z.s.meta)
  {
    if y.s.board.ready == {} {
      DrainDead(y.s.(sems := PruneQueues(y.s.meta, y.s.sems)));
    } else {
      var x := Least(y.s.board.ready);
      assert PickTurn(y.s, {}, false, false) == Again(Pop(y.s, x), {}, false);
    }
  }

  lemma {:induction false} RunStuck(y: System, acts: seq<Action>, spot: Spots, cellKey: map<nat, Key>)
    requires Inv(y, spot, cellKey) && Possible(y, acts, false) && ForExternals(y, acts, false) && Stuck(y)
    ensures Stuck(After(y, acts, false))
    decreases |acts|
  {
    if acts != [] {
      StepForExternals(y, acts[0], false, spot, cellKey);
      if acts[0].Dispatch? {
        DispatchStuck(y);
      }
      var spot1, cellKey1 := StepKeeps(y, acts[0], false, spot, cellKey);
      RunStuck(Step(y, acts[0], false), acts[1..], spot1, cellKey1);
    }
  }

  lemma HopelessIsStuck(y: System, spot: Spots, cellKey: map<nat, Key>)
    requires Inv(y, spot, cellKey) && y.phase.Picking? && y.s.board.ready == {} && QueueForExternals(y.s)
    requires !HasPendingExternal(y.s.meta, y.s.board.waiters)
    ensures Stuck(y)
  {
    var b := y.s.board;
    forall key, w | Has(b.waiters, key, w) && External(y.s.meta, key) ensures DeadReg(b.joins, y.s.meta, w) {
      assert key in b.waiters && w in b.waiters[key] && !Terminal(y.s.meta[key].status);
    }
  }

  /** Where the heap is empty and no live owner waits for a pending external promise, the turn raises
      `SchedulerDeadlockError`; and rightly so: without the check, whatever foreign threads
      complete, no continuation would ever run again. */
  lemma HopelessWaitNeverEnds(acts: seq<Action>, more: seq<Action>)
    requires Possible(START, acts, true) && ForExternals(START, acts, true)
    requires var y := After(START, acts, true);
             && y.phase.Picking? && y.s.board.ready == {} && !HasPendingExternal(y.s.meta, y.s.board.waiters)
             && Possible(y, more, false) && ForExternals(y, more, false)
    ensures var y := After(START, acts, true);
            && PickTurn(y.s, y.phase.held, y.phase.shield, true).Deadlocked?
            && !After(y, more, false).phase.Executing?
  {
    var y := After(START, acts, true);
    StartSatisfies();
    HopelessWaitRaises(acts);
    RunForExternals(START, acts, true, map[], map[]);
    var spot, cellKey := RunsAreSound(acts, true);
    HopelessIsStuck(y, spot, cellKey);
    RunStuck(y, more, spot, cellKey);
  }
}
