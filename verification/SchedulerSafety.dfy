/** Every reachable state satisfies the invariant, and what that says about runs. */
module SchedulerSafety {
  import opened Wrappers
  import opened SchedulerModel
  import opened SchedulerSteps
  import opened SchedulerInvariant
  import opened SchedulerWaking
  import opened SchedulerResolving
  import opened SchedulerSweep
  import opened SchedulerRuns
  import opened SchedulerDispatch

  // ---- Every step keeps the invariant --------------------------------------

  function NewHandles(s: State, e: Effect, handles: map<nat, Key>, h: nat): map<nat, Key> {
    if Created(s, e).Some? then handles[h := Created(s, e).value] else handles
  }

  lemma WaitingWhole(s: State, spot: Spots, cellKey: map<nat, Key>, o: Owner, k: nat, spent: set<nat>, e: Effect,
                     handles: map<nat, Key>, h: nat)
    returns (spot': Spots, cellKey': map<nat, Key>)
    requires Entered(s, spot, cellKey, o, k, spent)
    requires e.Wait? || e.Gather? || e.Race? || e.Cancel?
    ensures var r := Handling(s, o, k, e, handles.Keys, h);
            Left(r, spot', cellKey', o, k, spent)
  {
    spot', cellKey' := spot, cellKey;
    match e
    case Wait(key, wake) => spot', cellKey' := WaitWhole(s, spot, cellKey, o, k, spent, key, wake);
    case Gather(keys) => spot', cellKey' := GatherWhole(s, spot, cellKey, o, k, spent, keys);
    case Race(keys) => spot', cellKey' := RaceWhole(s, spot, cellKey, o, k, spent, keys);
    case Cancel(key) => spot' := CancelWhole(s, spot, cellKey, o, k, spent, key);
  }

  lemma SettlingWhole(s: State, spot: Spots, cellKey: map<nat, Key>, o: Owner, k: nat, spent: set<nat>, e: Effect,
                      handles: map<nat, Key>, h: nat)
    returns (spot': Spots)
    requires Entered(s, spot, cellKey, o, k, spent) && WellTyped(s, o, e, handles)
    requires e.TaskCompleted? || e.CompletePromise? || e.FailPromise?
    ensures var r := Handling(s, o, k, e, handles.Keys, h);
            Left(r, spot', cellKey, o, k, spent)
  {
    match e
    case TaskCompleted(ok, v) => spot' := CompletedWhole(s, spot, cellKey, o, k, spent, ok, v);
    case CompletePromise(key, v) => spot' := SettleWhole(s, spot, cellKey, o, k, spent, key, Completed, v);
    case FailPromise(key, v) => spot' := SettleWhole(s, spot, cellKey, o, k, spent, key, Failed, v);
  }

  lemma PermitWhole(s: State, spot: Spots, cellKey: map<nat, Key>, o: Owner, k: nat, spent: set<nat>, e: Effect,
                    handles: map<nat, Key>, h: nat)
    returns (spot': Spots)
    requires Entered(s, spot, cellKey, o, k, spent) && WellTyped(s, o, e, handles)
    requires e.Acquire? || e.Release?
    ensures var r := Handling(s, o, k, e, handles.Keys, h);
            Left(r, spot', cellKey, o, k, spent)
  {
    match e
    case Acquire(sid) => spot' := AcquireWhole(s, spot, cellKey, o, k, spent, sid);
    case Release(sid) => spot' := ReleaseWhole(s, spot, cellKey, o, k, spent, sid);
  }

  lemma CreatingWhole(s: State, spot: Spots, cellKey: map<nat, Key>, o: Owner, k: nat, spent: set<nat>, e: Effect,
                      handles: map<nat, Key>, h: nat)
    returns (spot': Spots)
    requires Entered(s, spot, cellKey, o, k, spent) && HandlesRegistered(s.refs, handles)
    requires e.Spawn? || e.CreatePromise? || e.CreateExternalPromise? || e.CreateSemaphore?
    ensures var r := Handling(s, o, k, e, handles.Keys, h);
            Left(r, spot', cellKey, o, k, spent) && HandlesRegistered(r.0.refs, NewHandles(s, e, handles, h))
  {
    spot' := spot;
    if e.Spawn? {
      spot' := SpawnWhole(s, spot, cellKey, o, k, spent, e.priority, e.daemon, handles, h);
    } else if e.CreateSemaphore? {
      SemaphoreWhole(s, spot, cellKey, o, k, spent, e.permits, handles);
    } else {
      PromiseWhole(s, spot, cellKey, o, k, spent, e, handles, h);
    }
  }

  lemma PromiseWhole(s: State, spot: Spots, cellKey: map<nat, Key>, o: Owner, k: nat, spent: set<nat>, e: Effect,
                     handles: map<nat, Key>, h: nat)
    requires Entered(s, spot, cellKey, o, k, spent) && HandlesRegistered(s.refs, handles)
    requires e.CreatePromise? || e.CreateExternalPromise?
    ensures var r := Handling(s, o, k, e, handles.Keys, h);
            Left(r, spot, cellKey, o, k, spent) && HandlesRegistered(r.0.refs, NewHandles(s, e, handles, h))
  {
    CreateWhole(s, spot, cellKey, o, k, spent, e.CreateExternalPromise?, handles, h);
  }

  lemma HandlingRefs(s: State, o: Owner, k: nat, e: Effect, live: set<nat>, h: nat)
    requires e.TaskCompleted? ==> o.Of? && TaskKey(o.tid) in s.meta
    requires e.Acquire? || e.Release? ==> e.sid in s.sems
    requires !e.Spawn? && !e.CreatePromise? && !e.CreateExternalPromise? && !e.CreateSemaphore?
    ensures Handling(s, o, k, e, live, h).0.refs == s.refs
  {
  }

  lemma HandlingWhole(s: State, spot: Spots, cellKey: map<nat, Key>, o: Owner, k: nat, spent: set<nat>,
                      e: Effect, handles: map<nat, Key>, h: nat)
    returns (spot': Spots, cellKey': map<nat, Key>)
    requires Entered(s, spot, cellKey, o, k, spent) && HandlesRegistered(s.refs, handles)
    requires WellTyped(s, o, e, handles)
    ensures var r := Handling(s, o, k, e, handles.Keys, h);
            Left(r, spot', cellKey', o, k, spent) && HandlesRegistered(r.0.refs, NewHandles(s, e, handles, h))
  {
    spot', cellKey' := spot, cellKey;
    if !e.Spawn? && !e.CreatePromise? && !e.CreateExternalPromise? && !e.CreateSemaphore? {
      HandlingRefs(s, o, k, e, handles.Keys, h);
    }
    if e.Wait? || e.Gather? || e.Race? || e.Cancel? {
      spot', cellKey' := WaitingWhole(s, spot, cellKey, o, k, spent, e, handles, h);
    } else if e.TaskCompleted? || e.CompletePromise? || e.FailPromise? {
      spot' := SettlingWhole(s, spot, cellKey, o, k, spent, e, handles, h);
    } else if e.Acquire? || e.Release? {
      spot' := PermitWhole(s, spot, cellKey, o, k, spent, e, handles, h);
    } else {
      spot' := CreatingWhole(s, spot, cellKey, o, k, spent, e, handles, h);
    }
  }

  lemma DrainedEntered(y: System, spot: Spots, cellKey: map<nat, Key>) returns (spot': Spots)
    requires Inv(y, spot, cellKey) && y.phase.Executing?
    ensures var d := Drain(y.s);
            Entered(d, spot', cellKey, y.phase.owner, y.nextCont, y.spent) && HandlesRegistered(d.refs, y.handles)
            && d.sems == y.s.sems && d.meta.Keys == y.s.meta.Keys && d.nextId == y.s.nextId
            && Moved(spot, spot')
  {
    var d := Drain(y.s);
    spot' := DrainWhole(y.s, {}, spot, cellKey, Some(y.phase.owner));
    MovedOneShot(spot, spot', y.nextCont, y.spent);
    assert d.board.ready + {} == d.board.ready;
  }

  lemma PerformKeeps(y: System, e: Effect, spot: Spots, cellKey: map<nat, Key>)
    returns (spot': Spots, cellKey': map<nat, Key>)
    requires Inv(y, spot, cellKey) && y.phase.Executing? && WellTyped(Drain(y.s), y.phase.owner, e, y.handles)
    ensures Inv(PerformStep(y, e), spot', cellKey')
  {
    var d := Drain(y.s);
    var spot1 := DrainedEntered(y, spot, cellKey);
    spot', cellKey' := HandlingWhole(d, spot1, cellKey, y.phase.owner, y.nextCont, y.spent, e, y.handles, y.nextHandle);
    LeftSound(Handling(d, y.phase.owner, y.nextCont, e, y.handles.Keys, y.nextHandle), spot', cellKey', y.phase.owner,
              y.nextCont, y.spent, PerformStep(y, e));
  }

  lemma LeftSound(r: (State, Reply), spot: Spots, cellKey: map<nat, Key>, o: Owner, k: nat, spent: set<nat>, y: System)
    requires Left(r, spot, cellKey, o, k, spent) && HandlesRegistered(r.0.refs, y.handles)
    requires y.s == r.0 && y.nextCont == k + 1
    requires y.phase == if r.1.Suspended? then Entering else Executing(o)
    requires y.spent == if r.1.Suspended? then spent else spent + {k}
    ensures Inv(y, spot, cellKey)
  {
    assert r.0.board.ready + {} == r.0.board.ready;
  }

  lemma EnterKeeps(y: System, spot: Spots, cellKey: map<nat, Key>) returns (spot': Spots)
    requires Inv(y, spot, cellKey) && y.phase.Entering?
    ensures Inv(y.(s := Drain(y.s), phase := Picking({}, false)), spot', cellKey)
  {
    spot' := DrainWhole(y.s, {}, spot, cellKey, None);
    MovedOneShot(spot, spot', y.nextCont, y.spent);
  }

  lemma TurnKeeps(y: System, t: Turn, spot: Spots, cellKey: map<nat, Key>)
    requires HandlesRegistered(y.s.refs, y.handles) && TurnSound(t, spot, cellKey, y.nextCont, y.spent)
    requires !t.Blocking? && t.s.refs == y.s.refs
    ensures Inv(Turned(y, t), spot, cellKey)
  {
    if !t.Again? {
      assert t.s.board.ready + {} == t.s.board.ready;
    }
  }

  lemma DispatchKeeps(y: System, diagnose: bool, spot: Spots, cellKey: map<nat, Key>) returns (spot': Spots)
    requires Inv(y, spot, cellKey) && y.phase.Picking?
    requires !PickTurn(y.s, y.phase.held, y.phase.shield, diagnose).Blocking?
    ensures Inv(DispatchStep(y, diagnose), spot', cellKey)
  {
    spot' := PickTurnSound(y.s, y.phase.held, y.phase.shield, spot, cellKey, y.nextCont, y.spent, diagnose);
    PickTurnRefs(y.s, y.phase.held, y.phase.shield, diagnose);
    TurnKeeps(y, PickTurn(y.s, y.phase.held, y.phase.shield, diagnose), spot', cellKey);
  }

  lemma {:induction false} DrainRefs(s: State)
    ensures Drain(s).refs == s.refs
    decreases |s.queue|
  {
    if s.queue != [] {
      DrainRefs(DrainOne(s));
    }
  }

  lemma PickTurnRefs(s: State, held: set<Item>, shield: bool, diagnose: bool)
    ensures var t := PickTurn(s, held, shield, diagnose); !t.Blocking? ==> t.s.refs == s.refs
  {
    if s.board.ready == {} {
      DrainRefs(s.(sems := PruneQueues(s.meta, s.sems)));
    } else {
      PopTurnRefs(s, Least(s.board.ready), held, shield, diagnose);
    }
  }

  lemma PopTurnRefs(s: State, x: Item, held: set<Item>, shield: bool, diagnose: bool)
    ensures var t := PopTurn(s, x, held, shield, diagnose); !t.Blocking? ==> t.s.refs == s.refs
  {
    if x.entry.Placeholder? {
      BlockRefs(Pop(s, x), x.entry, held, shield, diagnose);
    } else if x.entry.Permit? && x.entry.sid in s.sems {
      ReturnRefs(Pop(s, x), x.entry.sid, x.entry.owner);
    }
  }

  lemma ReturnRefs(s: State, sid: nat, o: Owner)
    requires sid in s.sems
    ensures ReturnPermit(s, sid, o).refs == s.refs
  {
  }

  lemma BlockRefs(s: State, e: Entry, held: set<Item>, shield: bool, diagnose: bool)
    requires e.Placeholder?
    ensures var t := BlockOnPlaceholder(s, e, held, shield, diagnose); !t.Blocking? ==> t.s.refs == s.refs
  {
    DrainRefs(s);
    DrainRefs(s.(sems := PruneQueues(s.meta, s.sems)));
  }

  lemma CollectKeeps(y: System, dead: set<nat>, spot: Spots, cellKey: map<nat, Key>)
    requires Inv(y, spot, cellKey)
    ensures Inv(y.(handles := y.handles - dead), spot, cellKey)
  {
  }

  lemma ArriveKeeps(y: System, c: Completion, spot: Spots, cellKey: map<nat, Key>)
    requires Inv(y, spot, cellKey)
    ensures Inv(y.(s := y.s.(queue := y.s.queue + [c])), spot, cellKey)
  {
  }

  lemma MintKeeps(y: System, key: Key, spot: Spots, cellKey: map<nat, Key>)
    requires Inv(y, spot, cellKey) && y.phase.Executing? && key in y.handles.Values
    ensures Inv(y.(s := Register(y.s, key, y.nextHandle, y.handles.Keys),
                   handles := y.handles[y.nextHandle := key], nextHandle := y.nextHandle + 1), spot, cellKey)
  {
    assert key in y.s.meta;
    RegisterSound(y.s, y.s.board.ready, spot, cellKey, key, y.nextHandle, y.handles.Keys);
    RegisterHandles(y.s, key, y.nextHandle, y.handles);
    assert y.s.board.ready + {} == y.s.board.ready;
  }

  lemma StepKeeps(y: System, a: Action, diagnose: bool, spot: Spots, cellKey: map<nat, Key>)
    returns (spot': Spots, cellKey': map<nat, Key>)
    requires Inv(y, spot, cellKey) && Enabled(y, a, diagnose)
    ensures Inv(Step(y, a, diagnose), spot', cellKey')
  {
    spot', cellKey' := spot, cellKey;
    match a
    case Perform(e) => spot', cellKey' := PerformKeeps(y, e, spot, cellKey);
    case MintFuture(key) => MintKeeps(y, key, spot, cellKey);
    case ReturnFromRoot => assert HeldItems(y) == {};
    case Enter => spot' := EnterKeeps(y, spot, cellKey);
    case Dispatch => spot' := DispatchKeeps(y, diagnose, spot, cellKey);
    case Arrive(c) => ArriveKeeps(y, c, spot, cellKey);
    case Collect(dead) => CollectKeeps(y, dead, spot, cellKey);
  }

  lemma {:induction false} RunKeeps(y: System, acts: seq<Action>, diagnose: bool, spot: Spots, cellKey: map<nat, Key>)
    returns (spot': Spots, cellKey': map<nat, Key>)
    requires Inv(y, spot, cellKey) && Possible(y, acts, diagnose)
    ensures Inv(After(y, acts, diagnose), spot', cellKey')
    decreases |acts|
  {
    if acts == [] {
      spot', cellKey' := spot, cellKey;
    } else {
      var spot1, cellKey1 := StepKeeps(y, acts[0], diagnose, spot, cellKey);
      spot', cellKey' := RunKeeps(Step(y, acts[0], diagnose), acts[1..], diagnose, spot1, cellKey1);
    }
  }

  lemma StartSatisfies()
    ensures Inv(START, map[], map[])
  {
  }

  lemma RunsAreSound(acts: seq<Action>, diagnose: bool) returns (spot: Spots, cellKey: map<nat, Key>)
    requires Possible(START, acts, diagnose)
    ensures Inv(After(START, acts, diagnose), spot, cellKey)
  {
    StartSatisfies();
    spot, cellKey := RunKeeps(START, acts, diagnose, map[], map[]);
  }
}
