/** No gather or race is forgotten: over whole runs, once it is resolved its owner is queued with
    its answer, made of final outcomes, and stays queued until it is resumed with it. */
module SchedulerAnswers {
  import opened Wrappers
  import opened SchedulerModel
  import opened SchedulerSteps
  import opened SchedulerInvariant
  import opened SchedulerWaking
  import opened SchedulerResolving
  import opened SchedulerEffects
  import opened SchedulerRuns
  import opened SchedulerDispatch
  import opened SchedulerSafety
  import opened SchedulerResults
  import opened SchedulerJoins
  import opened SchedulerDelivery

  // ---- Answers -------------------------------------------------------------

  /** `key` decides `g` on its own: it failed or was cancelled, or `g` is a race. */
  predicate Decides(meta: map<Key, Meta>, g: Join, key: Key) {
    key in g.keys && key in meta && Terminal(meta[key].status) && (g.kind.RaceJoin? || !meta[key].status.Completed?)
  }

  predicate AllCompleted(meta: map<Key, Meta>, keys: seq<Key>) {
    forall key :: key in keys ==> key in meta && meta[key].status.Completed?
  }

  /** `e` is the answer to `g` by the outcomes in `meta`. */
  ghost predicate IsAnswer(meta: map<Key, Meta>, g: Join, e: Entry) {
    || (exists key :: Decides(meta, g, key) && e == Delivery(meta[key].status, meta[key].result, g.owner, g.cont))
    || (g.kind.GatherJoin? && AllCompleted(meta, g.keys)
        && e == Resume(g.owner, g.cont, Many(Results(meta, g.keys))))
  }

  ghost predicate JoinServed(meta: map<Key, Meta>, ready: set<Item>, g: Join, prio: int) {
    exists x :: x in ready && x.prio == prio && IsAnswer(meta, g, x.entry)
  }

  predicate KeepsOutcomes(meta: map<Key, Meta>, meta': map<Key, Meta>) {
    forall key :: key in meta && Terminal(meta[key].status) ==> key in meta' && meta'[key] == meta[key]
  }

  lemma {:induction false} SameResults(meta: map<Key, Meta>, meta': map<Key, Meta>, keys: seq<Key>)
    requires KeepsOutcomes(meta, meta') && AllCompleted(meta, keys)
    ensures Results(meta', keys) == Results(meta, keys)
  {
    if keys != [] {
      SameResults(meta, meta', keys[1..]);
    }
  }

  lemma StaysServed(meta: map<Key, Meta>, ready: set<Item>, meta': map<Key, Meta>, ready': set<Item>, g: Join,
                    prio: int)
    requires KeepsOutcomes(meta, meta') && ready <= ready' && JoinServed(meta, ready, g, prio)
    ensures JoinServed(meta', ready', g, prio)
  {
    var x :| x in ready && x.prio == prio && IsAnswer(meta, g, x.entry);
    if g.kind.GatherJoin? && AllCompleted(meta, g.keys) {
      SameResults(meta, meta', g.keys);
    }
    assert IsAnswer(meta', g, x.entry);
  }

  /** Join `j`, once `g`, is as it was but for its count, or has been served. */
  ghost predicate OpenOrServed(s: State, j: nat, g: Join, prio: int) {
    && j in s.board.joins && JoinLater(g, s.board.joins[j])
    && if s.board.joins[j].resolved then JoinServed(s.meta, s.board.ready, g, prio)
       else TaskPriority(s.meta, g.owner) == prio
  }

  // ---- Resolving and draining ----------------------------------------------

  lemma AnsweredIsServed(meta: map<Key, Meta>, ready: set<Item>, g: Join, key: Key, n: nat, x: Item)
    requires x in ready && Answers(x, meta, g, key, n) && key in g.keys && key in meta && Terminal(meta[key].status)
    ensures JoinServed(meta, ready, g, TaskPriority(meta, g.owner))
  {
    if ClosesEarly(meta, g, key) {
      assert Decides(meta, g, key);
    }
    assert IsAnswer(meta, g, x.entry);
  }

  lemma ResolveAnswers(s: State, held: set<Item>, spot: Spots, cellKey: map<nat, Key>, key: Key, st: Status, v: Value,
                       j: nat)
    returns (spot': Spots)
    requires BoardSound(s.board, s.board.ready + held, s.meta, spot, cellKey, None)
    requires key in s.meta && !Terminal(s.meta[key].status) && Terminal(st)
    requires j in s.board.joins && !s.board.joins[j].resolved
    ensures var s' := Resolve(s, key, st, v).0;
            && BoardSound(s'.board, s'.board.ready + held, s'.meta, spot', cellKey, None)
            && OpenOrServed(s', j, s.board.joins[j], TaskPriority(s.meta, s.board.joins[j].owner))
  {
    BoardAtTerminal(s.board, s.board.ready + held, s.meta, spot, cellKey, key, st, v);
    spot' := WakeSound(s.board, held, WithStatus(s.meta, key, st, v), spot, cellKey, key);
    RegisteredIfAwaited(s.board, s.meta, key, j);
    WakeAnswers(s.board, held, WithStatus(s.meta, key, st, v), spot, cellKey, key, j);
    ServedIfResolved(s, key, st, v, j);
  }

  lemma WakeAnswers(b: Board, held: set<Item>, meta: map<Key, Meta>, spot: Spots, cellKey: map<nat, Key>, key: Key,
                    j: nat)
    requires BoardSound(b, b.ready + held, meta, spot, cellKey, Some(key)) && j in b.joins && !b.joins[j].resolved
    ensures var b', g := Wake(meta, b, key).0, b.joins[j];
            && j in b'.joins && b'.joins[j] == g.(remaining := b'.joins[j].remaining, resolved := b'.joins[j].resolved)
            && (b'.joins[j].resolved ==> exists x :: x in b'.ready && Answers(x, meta, g, key, b.nextSeq))
  {
    var b1 := b.(waiters := b.waiters - {key});
    var ws := RegsAt(b.waiters, key);
    assert Listed(b1.waiters, key, ws) == b.waiters;
    assert OnBoard(b1, key, ws) == b;
    WakeAllAnswers(b1, held, meta, spot, cellKey, key, ws, j);
  }

  lemma ServedIfResolved(s: State, key: Key, st: Status, v: Value, j: nat)
    requires key in s.meta && Terminal(st) && j in s.board.joins && !s.board.joins[j].resolved
    requires key in s.board.joins[j].keys <==> Count(RegsAt(s.board.waiters, key), j) > 0
    requires var b', g := Resolve(s, key, st, v).0.board, s.board.joins[j];
             && j in b'.joins && b'.joins[j] == g.(remaining := b'.joins[j].remaining, resolved := b'.joins[j].resolved)
             && (b'.joins[j].resolved ==>
                   exists x :: x in b'.ready && Answers(x, WithStatus(s.meta, key, st, v), g, key, s.board.nextSeq))
    ensures OpenOrServed(Resolve(s, key, st, v).0, j, s.board.joins[j], TaskPriority(s.meta, s.board.joins[j].owner))
  {
    var meta, g := WithStatus(s.meta, key, st, v), s.board.joins[j];
    var b' := Resolve(s, key, st, v).0.board;
    var ws := RegsAt(s.board.waiters, key);
    if b'.joins[j].resolved {
      if Count(ws, j) == 0 {
        CountPositive(ws, j);
        UntouchedJoin(meta, s.board.(waiters := s.board.waiters - {key}), key, ws, j);
      }
      var x :| x in b'.ready && Answers(x, meta, g, key, s.board.nextSeq);
      AnsweredIsServed(meta, b'.ready, g, key, s.board.nextSeq, x);
    }
  }

  lemma DrainOneAnswers(s: State, held: set<Item>, spot: Spots, cellKey: map<nat, Key>, j: nat) returns (spot': Spots)
    requires BoardSound(s.board, s.board.ready + held, s.meta, spot, cellKey, None) && s.queue != []
    requires j in s.board.joins && !s.board.joins[j].resolved
    ensures var s' := DrainOne(s);
            && BoardSound(s'.board, s'.board.ready + held, s'.meta, spot', cellKey, None)
            && OpenOrServed(s', j, s.board.joins[j], TaskPriority(s.meta, s.board.joins[j].owner))
  {
    var c := s.queue[0];
    var key := PromiseKey(c.id);
    spot' := spot;
    if StatusOf(s.meta, key).Pending? && key in s.meta {
      spot' := ResolveAnswers(s.(queue := s.queue[1..]), held, spot, cellKey, key, if c.ok then Completed else Failed,
                              c.value, j);
    }
  }

  lemma {:induction false} DrainAnswers(s: State, held: set<Item>, spot: Spots, cellKey: map<nat, Key>, j: nat,
                                        prio: int)
    requires BoardSound(s.board, s.board.ready + held, s.meta, spot, cellKey, None)
    requires j in s.board.joins && !s.board.joins[j].resolved && TaskPriority(s.meta, s.board.joins[j].owner) == prio
    ensures OpenOrServed(Drain(s), j, s.board.joins[j], prio)
    decreases |s.queue|
  {
    if s.queue != [] {
      var s1 := DrainOne(s);
      var spot1 := DrainOneAnswers(s, held, spot, cellKey, j);
      if s1.board.joins[j].resolved {
        ServedThroughDrain(s1, j, s.board.joins[j], prio);
      } else {
        DrainAnswers(s1, held, spot1, cellKey, j, prio);
        LaterAnswer(Drain(s), j, s.board.joins[j], s1.board.joins[j], prio);
      }
    }
  }

  lemma ServedThroughDrain(s: State, j: nat, g: Join, prio: int)
    requires OpenOrServed(s, j, g, prio) && s.board.joins[j].resolved
    ensures OpenOrServed(Drain(s), j, g, prio)
  {
    DrainGrows(s);
    DrainJoins(s);
    StaysServed(s.meta, s.board.ready, Drain(s).meta, Drain(s).board.ready, g, prio);
  }

  lemma LaterAnswer(s: State, j: nat, g: Join, g': Join, prio: int)
    requires OpenOrServed(s, j, g', prio) && JoinLater(g, g') && !g.resolved
    ensures OpenOrServed(s, j, g, prio)
  {
    if s.board.joins[j].resolved {
      var x :| x in s.board.ready && x.prio == prio && IsAnswer(s.meta, g', x.entry);
      assert forall key :: Decides(s.meta, g', key) ==> Decides(s.meta, g, key);
      assert IsAnswer(s.meta, g, x.entry);
    }
  }

  // ---- Effects -------------------------------------------------------------

  lemma SettlingAnswers(s: State, o: Owner, k: nat, e: Effect, live: set<nat>, h: nat, spot: Spots,
                        cellKey: map<nat, Key>, j: nat)
    requires Settles(e) && (e.TaskCompleted? ==> o.Of? && TaskKey(o.tid) in s.meta && Started(s.meta, o))
    requires BoardSound(s.board, s.board.ready, s.meta, spot, cellKey, None)
    requires j in s.board.joins && !s.board.joins[j].resolved
    ensures var g := s.board.joins[j];
            OpenOrServed(Handling(s, o, k, e, live, h).0, j, g, TaskPriority(s.meta, g.owner))
  {
    var s', g := Handling(s, o, k, e, live, h).0, s.board.joins[j];
    var key, st, v := SettlingResolves(s, o, k, e, live, h);
    if s' != s {
      var s1 := Resolve(s, key, st, v).0;
      assert s.board.ready + {} == s.board.ready;
      var spot' := ResolveAnswers(s, {}, spot, cellKey, key, st, v, j);
      if s1.board.joins[j].resolved {
        StaysServed(s1.meta, s1.board.ready, s'.meta, s'.board.ready, g, TaskPriority(s.meta, g.owner));
      }
    }
  }

  lemma JoiningSame(s: State, o: Owner, k: nat, e: Effect, live: set<nat>, h: nat, j: nat)
    requires (e.Wait? || e.Gather? || e.Race?) && JoinsKnown(s.board) && j in s.board.joins
    ensures var b' := Handling(s, o, k, e, live, h).0.board; j in b'.joins && b'.joins[j] == s.board.joins[j]
  {
    match e
    case Gather(keys) =>
      var pending := PendingOf(s.meta, keys);
      OpenSame(s, Join(GatherJoin, o, k, keys, pending, |pending|, false), j);
    case Race(keys) => OpenSame(s, Join(RaceJoin, o, k, keys, keys, 0, false), j);
    case Wait(_, _) =>
  }

  lemma OpenSame(s: State, g: Join, j: nat)
    requires JoinsKnown(s.board) && j in s.board.joins
    ensures var b' := OpenJoin(s.meta, s.board, g); j in b'.joins && b'.joins[j] == s.board.joins[j]
  {
    var b := s.board;
    RegisterAllJoins(s.meta, b.(joins := b.joins[b.nextObj := g], nextObj := b.nextObj + 1), b.nextObj, g.owner,
                     g.pendingKeys);
  }

  lemma HandlingSame(s: State, o: Owner, k: nat, e: Effect, live: set<nat>, h: nat, j: nat)
    requires !Settles(e) && (e.Acquire? || e.Release? ==> e.sid in s.sems)
    requires JoinsKnown(s.board) && j in s.board.joins
    ensures var b' := Handling(s, o, k, e, live, h).0.board; j in b'.joins && b'.joins[j] == s.board.joins[j]
  {
    if e.Wait? || e.Gather? || e.Race? {
      JoiningSame(s, o, k, e, live, h, j);
    } else if e.Release? {
      ReleaseJoins(s, o, e.sid);
    } else if !e.Acquire? {
      CreatingLeaves(s, o, k, e, live, h);
    }
  }

  // ---- Turns ---------------------------------------------------------------

  /** After a turn `g` is open still, or served. */
  ghost predicate TurnServes(s: State, j: nat, g: Join, prio: int) {
    && j in s.board.joins && JoinLater(g, s.board.joins[j])
    && (s.board.joins[j].resolved ==> JoinServed(s.meta, s.board.ready, g, prio))
  }

  lemma BlockAnswers(s: State, x: Item, diagnose: bool, spot: Spots, cellKey: map<nat, Key>, j: nat)
    requires x.entry.Placeholder? && BoardSound(s.board, s.board.ready + {x}, s.meta, spot, cellKey, None)
    requires j in s.board.joins && !s.board.joins[j].resolved
    ensures var t, g := BlockOnPlaceholder(s, x.entry, {}, false, diagnose), s.board.joins[j];
            !t.Blocking? ==> TurnServes(t.s, j, g, TaskPriority(s.meta, g.owner))
  {
    var g := s.board.joins[j];
    var prio := TaskPriority(s.meta, g.owner);
    var pruned := s.(sems := PruneQueues(s.meta, s.sems));
    DrainAnswers(s, {x}, spot, cellKey, j, prio);
    DrainAnswers(pruned, {x}, spot, cellKey, j, prio);
    QueuedAfter(Drain(s), x.entry, j, g, prio);
    QueuedAfter(Drain(pruned), x.entry, j, g, prio);
  }

  lemma QueuedAfter(s: State, e: Entry, j: nat, g: Join, prio: int)
    requires OpenOrServed(s, j, g, prio)
    ensures TurnServes(s, j, g, prio)
    ensures TurnServes(s.(board := Enqueue(s.board, e, PRIORITY_EXTERNAL_WAIT)), j, g, prio)
  {
    var s' := s.(board := Enqueue(s.board, e, PRIORITY_EXTERNAL_WAIT));
    if s.board.joins[j].resolved {
      StaysServed(s.meta, s.board.ready, s'.meta, s'.board.ready, g, prio);
    }
  }

  lemma EmptyHeapAnswers(s: State, held: set<Item>, shield: bool, diagnose: bool, spot: Spots, cellKey: map<nat, Key>,
                         j: nat)
    requires BoardSound(s.board, s.board.ready + {}, s.meta, spot, cellKey, None)
    requires j in s.board.joins && !s.board.joins[j].resolved
    ensures var t, g := BlockOnEmptyHeap(s, held, shield, diagnose), s.board.joins[j];
            !t.Blocking? ==> TurnServes(t.s, j, g, TaskPriority(s.meta, g.owner))
  {
    DrainAnswers(s.(sems := PruneQueues(s.meta, s.sems)), {}, spot, cellKey, j,
                 TaskPriority(s.meta, s.board.joins[j].owner));
  }

  lemma PlaceholderAnswers(s: State, x: Item, held: set<Item>, shield: bool, diagnose: bool, spot: Spots,
                           cellKey: map<nat, Key>, j: nat)
    requires BoardSound(s.board, s.board.ready + held, s.meta, spot, cellKey, None) && HeldShape(s, held, shield)
    requires x in s.board.ready && x.entry.Placeholder? && j in s.board.joins && !s.board.joins[j].resolved
    ensures var t, g := PopTurn(s, x, held, shield, diagnose), s.board.joins[j];
            !t.Blocking? ==> TurnServes(t.s, j, g, TaskPriority(s.meta, g.owner))
  {
    if Standing(s.meta, s.board.claimed, x.entry) && !HasLive(s.meta, Pop(s, x).board.ready, false) {
      if shield { StillLive(s.meta, s.board.ready, x); }
      assert held == {} && !shield;
      assert Pop(s, x).board.ready + {x} == s.board.ready + held;
      BlockAnswers(Pop(s, x), x, diagnose, spot, cellKey, j);
    }
  }

  lemma PopTurnSame(s: State, x: Item, held: set<Item>, shield: bool, diagnose: bool, j: nat)
    requires !x.entry.Placeholder? && j in s.board.joins
    ensures var t := PopTurn(s, x, held, shield, diagnose);
            !t.Blocking? && j in t.s.board.joins && t.s.board.joins[j] == s.board.joins[j]
  {
    if x.entry.Permit? && x.entry.sid in s.sems {
      ReturnJoins(Pop(s, x), x.entry.sid, x.entry.owner);
    }
  }

  lemma PopTurnAnswers(s: State, x: Item, held: set<Item>, shield: bool, diagnose: bool, spot: Spots,
                       cellKey: map<nat, Key>, j: nat)
    requires BoardSound(s.board, s.board.ready + held, s.meta, spot, cellKey, None) && HeldShape(s, held, shield)
    requires x in s.board.ready && j in s.board.joins && !s.board.joins[j].resolved
    ensures var t, g := PopTurn(s, x, held, shield, diagnose), s.board.joins[j];
            !t.Blocking? ==> TurnServes(t.s, j, g, TaskPriority(s.meta, g.owner))
  {
    if x.entry.Placeholder? {
      PlaceholderAnswers(s, x, held, shield, diagnose, spot, cellKey, j);
    } else {
      PopTurnSame(s, x, held, shield, diagnose, j);
    }
  }

  lemma TurnAnswers(s: State, held: set<Item>, shield: bool, diagnose: bool, spot: Spots, cellKey: map<nat, Key>,
                    j: nat)
    requires BoardSound(s.board, s.board.ready + held, s.meta, spot, cellKey, None) && HeldShape(s, held, shield)
    requires j in s.board.joins && !s.board.joins[j].resolved
    ensures var t, g := PickTurn(s, held, shield, diagnose), s.board.joins[j];
            !t.Blocking? ==> TurnServes(t.s, j, g, TaskPriority(s.meta, g.owner))
  {
    if s.board.ready == {} {
      assert held == {};
      EmptyHeapAnswers(s, held, shield, diagnose, spot, cellKey, j);
    } else {
      PopTurnAnswers(s, Least(s.board.ready), held, shield, diagnose, spot, cellKey, j);
    }
  }

  // ---- Steps ---------------------------------------------------------------

  /** From `s` to `z` join `g` stays open, or is served by what is recorded in `z` or, if the step
      begins with a `drain`, was recorded after that. */
  ghost predicate ServesJoin(s: State, drains: bool, z: State, j: nat, g: Join) {
    var prio := TaskPriority(s.meta, g.owner);
    && j in z.board.joins && JoinLater(g, z.board.joins[j])
    && (z.board.joins[j].resolved ==>
          || JoinServed(z.meta, z.board.ready, g, prio)
          || (drains && JoinServed(Drain(s).meta, z.board.ready, g, prio)))
  }

  lemma PerformAnswers(y: System, e: Effect, spot: Spots, cellKey: map<nat, Key>, j: nat)
    requires Inv(y, spot, cellKey) && y.phase.Executing? && WellTyped(Drain(y.s), y.phase.owner, e, y.handles)
    requires j in y.s.board.joins && !y.s.board.joins[j].resolved
    ensures ServesJoin(y.s, true, PerformStep(y, e).s, j, y.s.board.joins[j])
  {
    var g := y.s.board.joins[j];
    var prio := TaskPriority(y.s.meta, g.owner);
    var d := Drain(y.s);
    var spot' := DrainedEntered(y, spot, cellKey);
    DrainAnswers(y.s, {}, spot, cellKey, j, prio);
    if d.board.joins[j].resolved {
      ServedBefore(y, e, spot', cellKey, j, g);
    } else {
      OpenBefore(y, e, spot', cellKey, j, g);
    }
  }

  lemma ServedBefore(y: System, e: Effect, spot: Spots, cellKey: map<nat, Key>, j: nat, g: Join)
    requires y.phase.Executing? && WellTyped(Drain(y.s), y.phase.owner, e, y.handles)
    requires Entered(Drain(y.s), spot, cellKey, y.phase.owner, y.nextCont, y.spent)
    requires OpenOrServed(Drain(y.s), j, g, TaskPriority(y.s.meta, g.owner)) && Drain(y.s).board.joins[j].resolved
    ensures ServesJoin(y.s, true, PerformStep(y, e).s, j, g)
  {
    var d := Drain(y.s);
    if Settles(e) {
      SettlingGrows(d, y.phase.owner, y.nextCont, e, y.handles.Keys, y.nextHandle);
    } else {
      HandlingKeeps(d, y.phase.owner, y.nextCont, e, y.handles.Keys, y.nextHandle);
    }
    HandlingJoins(d, y.phase.owner, y.nextCont, e, y.handles.Keys, y.nextHandle);
    StaysServed(d.meta, d.board.ready, d.meta, PerformStep(y, e).s.board.ready, g, TaskPriority(y.s.meta, g.owner));
  }

  lemma OpenBefore(y: System, e: Effect, spot: Spots, cellKey: map<nat, Key>, j: nat, g: Join)
    requires y.phase.Executing? && WellTyped(Drain(y.s), y.phase.owner, e, y.handles) && !g.resolved
    requires Entered(Drain(y.s), spot, cellKey, y.phase.owner, y.nextCont, y.spent)
    requires OpenOrServed(Drain(y.s), j, g, TaskPriority(y.s.meta, g.owner)) && !Drain(y.s).board.joins[j].resolved
    ensures ServesJoin(y.s, true, PerformStep(y, e).s, j, g)
  {
    var d, z := Drain(y.s), PerformStep(y, e).s;
    if Settles(e) {
      SettlingAnswers(d, y.phase.owner, y.nextCont, e, y.handles.Keys, y.nextHandle, spot, cellKey, j);
      LaterAnswer(z, j, g, d.board.joins[j], TaskPriority(y.s.meta, g.owner));
    } else {
      HandlingSame(d, y.phase.owner, y.nextCont, e, y.handles.Keys, y.nextHandle, j);
    }
  }

  lemma DispatchAnswers(y: System, diagnose: bool, spot: Spots, cellKey: map<nat, Key>, j: nat)
    requires Enabled(y, Dispatch, diagnose) && HeldShape(y.s, y.phase.held, y.phase.shield)
    requires BoardSound(y.s.board, y.s.board.ready + y.phase.held, y.s.meta, spot, cellKey, None)
    requires j in y.s.board.joins && !y.s.board.joins[j].resolved
    ensures ServesJoin(y.s, false, DispatchStep(y, diagnose).s, j, y.s.board.joins[j])
  {
    TurnAnswers(y.s, y.phase.held, y.phase.shield, diagnose, spot, cellKey, j);
  }

  lemma QuietAnswers(y: System, a: Action, diagnose: bool, spot: Spots, cellKey: map<nat, Key>, j: nat)
    requires Inv(y, spot, cellKey) && Enabled(y, a, diagnose) && !a.Perform? && !a.Dispatch?
    requires j in y.s.board.joins && !y.s.board.joins[j].resolved
    ensures ServesJoin(y.s, false, Step(y, a, diagnose).s, j, y.s.board.joins[j])
  {
    if a.Enter? {
      DrainAnswers(y.s, {}, spot, cellKey, j, TaskPriority(y.s.meta, y.s.board.joins[j].owner));
    }
  }

  lemma StepAnswers(y: System, a: Action, diagnose: bool, spot: Spots, cellKey: map<nat, Key>, j: nat)
    requires Inv(y, spot, cellKey) && Enabled(y, a, diagnose)
    requires j in y.s.board.joins && !y.s.board.joins[j].resolved
    ensures ServesJoin(y.s, a.Perform?, Step(y, a, diagnose).s, j, y.s.board.joins[j])
  {
    if a.Perform? {
      PerformAnswers(y, a.e, spot, cellKey, j);
    } else if a.Dispatch? {
      DispatchAnswers(y, diagnose, spot, cellKey, j);
    } else {
      QuietAnswers(y, a, diagnose, spot, cellKey, j);
    }
  }

  // ---- Runs ----------------------------------------------------------------

  /** `e` is the answer to `g`, made of outcomes its keys come to along the run: that of a key that
      decides it, or the results of all its keys in order. */
  ghost predicate Composed(y: System, acts: seq<Action>, diagnose: bool, g: Join, e: Entry)
    requires Possible(y, acts, diagnose)
  {
    || (exists key, st, v :: key in g.keys && CameTo(y, acts, diagnose, key, st, v)
                             && (g.kind.RaceJoin? || !st.Completed?) && e == Delivery(st, v, g.owner, g.cont))
    || (g.kind.GatherJoin?
        && exists vs :: AllCame(y, acts, diagnose, g.keys, vs) && e == Resume(g.owner, g.cont, Many(vs)))
  }

  ghost predicate AllCame(y: System, acts: seq<Action>, diagnose: bool, keys: seq<Key>, vs: seq<Value>)
    requires Possible(y, acts, diagnose)
  {
    |vs| == |keys| && forall i :: 0 <= i < |keys| ==> CameTo(y, acts, diagnose, keys[i], Completed, vs[i])
  }

  lemma ComposedOf(y: System, acts: seq<Action>, diagnose: bool, meta: map<Key, Meta>, g: Join, e: Entry)
    requires Possible(y, acts, diagnose) && IsAnswer(meta, g, e)
    requires forall key, st, v :: Recorded(meta, key, st, v) ==> CameTo(y, acts, diagnose, key, st, v)
    ensures Composed(y, acts, diagnose, g, e)
  {
    if key :| Decides(meta, g, key) && e == Delivery(meta[key].status, meta[key].result, g.owner, g.cont) {
      assert Recorded(meta, key, meta[key].status, meta[key].result);
      assert CameTo(y, acts, diagnose, key, meta[key].status, meta[key].result);
    } else {
      var vs := Results(meta, g.keys);
      ResultsInOrder(meta, g.keys);
      forall i | 0 <= i < |g.keys| ensures CameTo(y, acts, diagnose, g.keys[i], Completed, vs[i]) {
        assert g.keys[i] in g.keys && Recorded(meta, g.keys[i], Completed, vs[i]);
      }
      assert AllCame(y, acts, diagnose, g.keys, vs);
    }
  }

  lemma ComposedEarlier(y: System, acts: seq<Action>, diagnose: bool, g: Join, g': Join, e: Entry)
    requires Possible(y, acts, diagnose) && acts != [] && JoinLater(g, g')
    requires Composed(Step(y, acts[0], diagnose), acts[1..], diagnose, g', e)
    ensures Composed(y, acts, diagnose, g, e)
  {
    var y1 := Step(y, acts[0], diagnose);
    if key, st, v :| key in g'.keys && CameTo(y1, acts[1..], diagnose, key, st, v)
                     && (g'.kind.RaceJoin? || !st.Completed?) && e == Delivery(st, v, g'.owner, g'.cont) {
      assert CameTo(y, acts, diagnose, key, st, v);
    } else {
      var vs :| AllCame(y1, acts[1..], diagnose, g'.keys, vs) && e == Resume(g'.owner, g'.cont, Many(vs));
      assert AllCame(y, acts, diagnose, g.keys, vs);
    }
  }

  /** `g` has been answered by the end of the run: its owner is queued with `e`, has been resumed with
      it, or is cancelled. */
  ghost predicate AnsweredWith(y: System, acts: seq<Action>, diagnose: bool, g: Join, prio: int, e: Entry)
    requires Possible(y, acts, diagnose)
  {
    var z := After(y, acts, diagnose);
    && Composed(y, acts, diagnose, g, e)
    && (Queued(z, e, prio) || ChosenIn(y, acts, diagnose, e) || IsCancelled(z.s.meta, g.owner))
  }

  /** The step that resolves `g` queues the answer. */
  lemma ServedNow(y: System, acts: seq<Action>, diagnose: bool, j: nat, g: Join) returns (e: Entry)
    requires Possible(y, acts, diagnose) && acts != []
    requires ServesJoin(y.s, acts[0].Perform?, Step(y, acts[0], diagnose).s, j, g)
    requires Step(y, acts[0], diagnose).s.board.joins[j].resolved
    ensures Composed(y, acts, diagnose, g, e) && EntryOwner(e) == g.owner && !e.Placeholder?
    ensures Queued(Step(y, acts[0], diagnose), e, TaskPriority(y.s.meta, g.owner))
  {
    var z, prio := Step(y, acts[0], diagnose).s, TaskPriority(y.s.meta, g.owner);
    var meta := if JoinServed(z.meta, z.board.ready, g, prio) then z.meta else Drain(y.s).meta;
    var x :| x in z.board.ready && x.prio == prio && IsAnswer(meta, g, x.entry);
    e := x.entry;
    forall key, st, v | Recorded(meta, key, st, v) ensures CameTo(y, acts, diagnose, key, st, v) {
      assert meta == z.meta ==> CameTo(Step(y, acts[0], diagnose), acts[1..], diagnose, key, st, v);
    }
    ComposedOf(y, acts, diagnose, meta, g, e);
  }

  lemma {:induction false} RunAnswers(y: System, acts: seq<Action>, diagnose: bool, spot: Spots, cellKey: map<nat, Key>,
                                      j: nat)
    returns (e: Entry)
    requires Inv(y, spot, cellKey) && Possible(y, acts, diagnose)
    requires j in y.s.board.joins && !y.s.board.joins[j].resolved
    ensures var b, g := After(y, acts, diagnose).s.board, y.s.board.joins[j];
            && j in b.joins && JoinLater(g, b.joins[j])
            && (b.joins[j].resolved ==> AnsweredWith(y, acts, diagnose, g, TaskPriority(y.s.meta, g.owner), e))
    decreases |acts|
  {
    var g := y.s.board.joins[j];
    e := New(0);
    if acts != [] {
      var y1 := Step(y, acts[0], diagnose);
      var spot1, cellKey1 := StepKeeps(y, acts[0], diagnose, spot, cellKey);
      StepAnswers(y, acts[0], diagnose, spot, cellKey, j);
      if y1.s.board.joins[j].resolved {
        e := AnsweredFromNow(y, acts, diagnose, y1, spot1, cellKey1, j, g);
      } else {
        assert g.owner in spot && g.owner in spot1;
        SamePriority(y, acts[0], diagnose, spot, cellKey, spot1, cellKey1, g.owner);
        e := RunAnswers(y1, acts[1..], diagnose, spot1, cellKey1, j);
        if After(y, acts, diagnose).s.board.joins[j].resolved {
          AnsweredEarlier(y, acts, diagnose, y1, g, y1.s.board.joins[j], TaskPriority(y.s.meta, g.owner), e);
        }
      }
    }
  }

  lemma AnsweredEarlier(y: System, acts: seq<Action>, diagnose: bool, y1: System, g: Join, g': Join, prio: int,
                        e: Entry)
    requires Possible(y, acts, diagnose) && acts != [] && y1 == Step(y, acts[0], diagnose) && JoinLater(g, g')
    requires AnsweredWith(y1, acts[1..], diagnose, g', prio, e)
    ensures AnsweredWith(y, acts, diagnose, g, prio, e)
  {
    ComposedEarlier(y, acts, diagnose, g, g', e);
  }

  lemma AnsweredFromNow(y: System, acts: seq<Action>, diagnose: bool, y1: System, spot1: Spots, cellKey1: map<nat, Key>,
                        j: nat, g: Join)
    returns (e: Entry)
    requires Possible(y, acts, diagnose) && acts != [] && y1 == Step(y, acts[0], diagnose) && Inv(y1, spot1, cellKey1)
    requires ServesJoin(y.s, acts[0].Perform?, y1.s, j, g) && y1.s.board.joins[j].resolved
    ensures AnsweredWith(y, acts, diagnose, g, TaskPriority(y.s.meta, g.owner), e)
    ensures var b := After(y, acts, diagnose).s.board; j in b.joins && JoinLater(g, b.joins[j])
  {
    e := ServedNow(y, acts, diagnose, j, g);
    RunKeepsQueued(y1, acts[1..], diagnose, spot1, cellKey1, e, TaskPriority(y.s.meta, g.owner));
    RunJoins(y1, acts[1..], diagnose, spot1, cellKey1);
  }

  /** Every gather and race that is unresolved at some point of a run is, however the run goes on,
      unresolved still, or its owner has been answered: it is queued, at its priority, with the final
      outcome of a key that failed, was cancelled or won, or with the results of all keys in order;
      or it has been resumed with that, or is cancelled. */
  lemma OpenJoinsAreAnswered(acts: seq<Action>, more: seq<Action>, diagnose: bool, j: nat) returns (e: Entry)
    requires Possible(START, acts, diagnose) && Possible(After(START, acts, diagnose), more, diagnose)
    requires var b := After(START, acts, diagnose).s.board; j in b.joins && !b.joins[j].resolved
    ensures var y := After(START, acts, diagnose); var b := After(y, more, diagnose).s.board;
            var g := y.s.board.joins[j];
            && j in b.joins && JoinLater(g, b.joins[j])
            && (b.joins[j].resolved ==> AnsweredWith(y, more, diagnose, g, TaskPriority(y.s.meta, g.owner), e))
  {
    var spot, cellKey := RunsAreSound(acts, diagnose);
    e := RunAnswers(After(START, acts, diagnose), more, diagnose, spot, cellKey, j);
  }
}
