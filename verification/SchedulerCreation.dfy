/** What `Spawn`, the promise effects and `CreateSemaphore` leave behind, and what is swept on that
    occasion. */
module SchedulerCreation {
  import opened SchedulerHolders
  import opened SchedulerInvariant
  import opened SchedulerModel
  import opened SchedulerOutcomes
  import opened SchedulerResults
  import opened SchedulerRuns
  import opened SchedulerSafety
  import opened SchedulerSteps
  import opened SchedulerSweep
  import opened SchedulerWaking

  predicate Creates(e: Effect) { e.Spawn? || e.CreatePromise? || e.CreateExternalPromise? || e.CreateSemaphore? }

  // ---- Entries and references ----------------------------------------------

  predicate Names(refs: map<Key, seq<nat>>, key: Key, h: nat) { key in refs && h in refs[key] }

  /** Every entry has its list of references, and no list names a handle of another entry. */
  ghost predicate Referenced(s: State, handles: map<nat, Key>, nextHandle: nat) {
    && s.meta.Keys == s.refs.Keys
    && (forall h :: h in handles ==> h < nextHandle)
    && (forall key, h: nat :: Names(s.refs, key, h) ==> h < nextHandle && (h in handles ==> handles[h] == key))
  }

  lemma SameEntries(s: State, s': State, handles: map<nat, Key>, nextHandle: nat)
    requires Referenced(s, handles, nextHandle) && s'.meta.Keys == s.meta.Keys && s'.refs == s.refs
    ensures Referenced(s', handles, nextHandle)
  {
  }

  lemma {:induction false} DrainEntries(s: State)
    ensures Drain(s).meta.Keys == s.meta.Keys && Drain(s).refs == s.refs
    decreases |s.queue|
  {
    if s.queue != [] {
      DrainOneLeaves(s);
      DrainEntries(DrainOne(s));
    }
  }

  lemma SettlingEntries(s: State, o: Owner, k: nat, e: Effect, live: set<nat>, h: nat)
    requires e.TaskCompleted? || e.Cancel? || e.CompletePromise? || e.FailPromise?
    requires e.TaskCompleted? ==> o.Of? && TaskKey(o.tid) in s.meta
    ensures var s' := Handling(s, o, k, e, live, h).0; s'.meta.Keys == s.meta.Keys && s'.refs == s.refs
  {
  }

  lemma WaitingEntries(s: State, o: Owner, k: nat, e: Effect, live: set<nat>, h: nat)
    requires e.Wait? || e.Gather? || e.Race?
    ensures var s' := Handling(s, o, k, e, live, h).0; s'.meta.Keys == s.meta.Keys && s'.refs == s.refs
  {
  }

  lemma PermitEntries(s: State, o: Owner, k: nat, e: Effect, live: set<nat>, h: nat)
    requires (e.Acquire? || e.Release?) && e.sid in s.sems
    ensures var s' := Handling(s, o, k, e, live, h).0; s'.meta.Keys == s.meta.Keys && s'.refs == s.refs
  {
  }

  lemma OtherEntries(s: State, o: Owner, k: nat, e: Effect, live: set<nat>, h: nat)
    requires e.Wait? || e.Gather? || e.Race? || e.Acquire? || e.Release?
    requires e.Acquire? || e.Release? ==> e.sid in s.sems
    ensures var s' := Handling(s, o, k, e, live, h).0; s'.meta.Keys == s.meta.Keys && s'.refs == s.refs
  {
    if e.Acquire? || e.Release? {
      PermitEntries(s, o, k, e, live, h);
    } else {
      WaitingEntries(s, o, k, e, live, h);
    }
  }

  lemma FreshIdEntries(s: State, handles: map<nat, Key>, nextHandle: nat)
    requires Referenced(s, handles, nextHandle)
    ensures Referenced(FreshId(s, handles.Keys), handles, nextHandle)
  {
    var s' := FreshId(s, handles.Keys);
    forall key ensures key in s'.meta <==> key in s'.refs {
      assert key in s.meta <==> key in s.refs;
    }
    forall key, h: nat | Names(s'.refs, key, h) ensures h < nextHandle && (h in handles ==> handles[h] == key) {
      assert Names(s.refs, key, h);
    }
  }

  /** A new entry, or a new handle to an old one. */
  lemma RegisterEntries(s: State, key: Key, h: nat, handles: map<nat, Key>)
    requires s.meta.Keys == s.refs.Keys + {key} && (key !in s.refs || key in s.meta)
    requires (forall g :: g in handles ==> g < h)
    requires forall k, g: nat :: Names(s.refs, k, g) ==> g < h && (g in handles ==> handles[g] == k)
    ensures Referenced(Register(s, key, h, handles.Keys), handles[h := key], h + 1)
  {
    if key in s.refs {
      LiveRefsKept(s.refs[key], handles.Keys);
    }
    var s' := Register(s, key, h, handles.Keys);
    assert s'.refs.Keys == s.refs.Keys + {key};
    forall k, g: nat | Names(s'.refs, k, g)
      ensures g < h + 1 && (g in handles[h := key] ==> handles[h := key][g] == k)
    {
      assert k != key || g != h ==> Names(s.refs, k, g);
    }
  }

  // ---- Entries along runs --------------------------------------------------

  lemma CreatingEntries(s: State, o: Owner, k: nat, e: Effect, handles: map<nat, Key>, h: nat)
    requires Referenced(s, handles, h) && Creates(e) && (forall key :: key in s.meta ==> key.id < s.nextId)
    ensures var key := Created(s, e); var s' := Handling(s, o, k, e, handles.Keys, h).0;
            if key.Some? then Referenced(s', handles[h := key.value], h + 1) else Referenced(s', handles, h)
  {
    FreshIdEntries(s, handles, h);
    var s1 := FreshId(s, handles.Keys);
    if e.Spawn? {
      var key := TaskKey(s.nextId);
      var s2 := s1.(meta := s1.meta[key := Meta(Pending, Nothing, e.priority, e.daemon, false)],
                    board := Enqueue(s1.board, New(s.nextId), e.priority));
      RegisterEntries(s2, key, h, handles);
    } else if !e.CreateSemaphore? {
      var key := PromiseKey(s.nextId);
      var m := Meta(Pending, Nothing, PRIORITY_NORMAL, false, e.CreateExternalPromise?);
      RegisterEntries(s1.(meta := s1.meta[key := m]), key, h, handles);
    }
  }

  lemma PerformEntries(y: System, e: Effect, spot: Spots, cellKey: map<nat, Key>)
    requires Inv(y, spot, cellKey) && y.phase.Executing? && WellTyped(Drain(y.s), y.phase.owner, e, y.handles)
    requires Referenced(y.s, y.handles, y.nextHandle)
    ensures var z := PerformStep(y, e); Referenced(z.s, z.handles, z.nextHandle)
  {
    var d := Drain(y.s);
    var spot' := DrainedEntered(y, spot, cellKey);
    DrainEntries(y.s);
    SameEntries(y.s, d, y.handles, y.nextHandle);
    if Creates(e) {
      CreatingEntries(d, y.phase.owner, y.nextCont, e, y.handles, y.nextHandle);
    } else {
      if e.TaskCompleted? || e.Cancel? || e.CompletePromise? || e.FailPromise? {
        SettlingEntries(d, y.phase.owner, y.nextCont, e, y.handles.Keys, y.nextHandle);
      } else {
        OtherEntries(d, y.phase.owner, y.nextCont, e, y.handles.Keys, y.nextHandle);
      }
      SameEntries(d, PerformStep(y, e).s, y.handles, y.nextHandle);
    }
  }

  lemma BlockEntries(s: State, e: Entry, held: set<Item>, shield: bool, diagnose: bool)
    requires e.Placeholder?
    ensures var t := BlockOnPlaceholder(s, e, held, shield, diagnose); !t.Blocking? ==> t.s.meta.Keys == s.meta.Keys
  {
    DrainEntries(s);
    DrainEntries(s.(sems := PruneQueues(s.meta, s.sems)));
  }

  lemma TurnEntries(s: State, held: set<Item>, shield: bool, diagnose: bool)
    ensures var t := PickTurn(s, held, shield, diagnose);
            !t.Blocking? ==> t.s.meta.Keys == s.meta.Keys && t.s.refs == s.refs
  {
    PickTurnRefs(s, held, shield, diagnose);
    if s.board.ready == {} {
      DrainEntries(s.(sems := PruneQueues(s.meta, s.sems)));
    } else {
      var x := Least(s.board.ready);
      if x.entry.Placeholder? {
        BlockEntries(Pop(s, x), x.entry, held, shield, diagnose);
      } else {
        PopTurnMeta(s, x, held, shield, diagnose);
      }
    }
  }

  lemma MintEntries(y: System, key: Key, diagnose: bool)
    requires Enabled(y, MintFuture(key), diagnose) && Referenced(y.s, y.handles, y.nextHandle)
    requires HandlesRegistered(y.s.refs, y.handles)
    ensures var z := Step(y, MintFuture(key), diagnose); Referenced(z.s, z.handles, z.nextHandle)
  {
    var h :| h in y.handles && y.handles[h] == key;
    RegisterEntries(y.s, key, y.nextHandle, y.handles);
  }

  lemma DispatchEntries(y: System, diagnose: bool)
    requires Enabled(y, Dispatch, diagnose) && Referenced(y.s, y.handles, y.nextHandle)
    ensures var z := DispatchStep(y, diagnose); Referenced(z.s, z.handles, z.nextHandle)
  {
    TurnEntries(y.s, y.phase.held, y.phase.shield, diagnose);
  }

  lemma StepEntries(y: System, a: Action, diagnose: bool, spot: Spots, cellKey: map<nat, Key>)
    requires Inv(y, spot, cellKey) && Enabled(y, a, diagnose) && Referenced(y.s, y.handles, y.nextHandle)
    ensures var z := Step(y, a, diagnose); Referenced(z.s, z.handles, z.nextHandle)
  {
    match a
    case Perform(e) => PerformEntries(y, e, spot, cellKey);
    case MintFuture(key) => MintEntries(y, key, diagnose);
    case Enter => DrainEntries(y.s);
    case Dispatch => DispatchEntries(y, diagnose);
    case _ =>
  }

  lemma {:induction false} RunEntries(y: System, acts: seq<Action>, diagnose: bool, spot: Spots, cellKey: map<nat, Key>)
    requires Inv(y, spot, cellKey) && Possible(y, acts, diagnose) && Referenced(y.s, y.handles, y.nextHandle)
    ensures var z := After(y, acts, diagnose); Referenced(z.s, z.handles, z.nextHandle)
    decreases |acts|
  {
    if acts != [] {
      StepEntries(y, acts[0], diagnose, spot, cellKey);
      var spot1, cellKey1 := StepKeeps(y, acts[0], diagnose, spot, cellKey);
      RunEntries(Step(y, acts[0], diagnose), acts[1..], diagnose, spot1, cellKey1);
    }
  }

  /** Nobody holds a handle to `key`, and no registration is on it or belongs to a gather or race over
      it. */
  ghost predicate Unobserved(s: State, handles: map<nat, Key>, key: Key) {
    && key !in handles.Values && key !in s.board.waiters
    && forall at, w :: Has(s.board.waiters, at, w) && w.Joined? && w.join in s.board.joins ==>
         key !in s.board.joins[w.join].keys
  }

  ghost predicate Stale(s: State, handles: map<nat, Key>, key: Key) {
    key in s.meta && (s.meta[key].status.Completed? || s.meta[key].status.Failed?) && Unobserved(s, handles, key)
  }

  lemma ProtectedIff(b: Board, key: Key)
    ensures Protected(b, key) <==>
              exists at, w :: Has(b.waiters, at, w) && w.Joined? && w.join in b.joins && key in b.joins[w.join].keys
  {
    if at, w :| at in b.waiters && w in b.waiters[at] && w.Joined? && w.join in b.joins && key in b.joins[w.join].keys {
      assert Has(b.waiters, at, w);
    }
  }

  lemma SweepableIffStale(s: State, handles: map<nat, Key>, h: nat, key: Key)
    requires Referenced(s, handles, h) && HandlesRegistered(s.refs, handles)
    ensures Sweepable(s, handles.Keys, key) <==> Stale(s, handles, key)
  {
    if key in s.refs && key in handles.Values {
      var g :| g in handles && handles[g] == key;
      assert g in s.refs[key] && g in handles.Keys;
    }
    if key in s.refs && key !in handles.Values {
      forall g | g in s.refs[key] ensures g !in handles.Keys {
        assert Names(s.refs, key, g);
      }
    }
    ProtectedIff(s.board, key);
  }

  lemma FreshIdLeaves(s: State, live: set<nat>)
    ensures var s' := FreshId(s, live);
            s'.board == s.board && s'.sems == s.sems && forall key :: key in s'.meta ==> key in s.meta
  {
  }

  lemma FreshIdSweeps(s: State, handles: map<nat, Key>, h: nat, key: Key)
    requires Referenced(s, handles, h) && HandlesRegistered(s.refs, handles) && key in s.meta
    ensures var s' := FreshId(s, handles.Keys);
            key in s'.meta <==> !((s.nextId + 1) % HANDLE_SWEEP_INTERVAL == 0 && Stale(s, handles, key))
  {
    var s1 := s.(nextId := s.nextId + 1);
    SweepableIffStale(s, handles, h, key);
    assert Sweepable(s1, handles.Keys, key) <==> Sweepable(s, handles.Keys, key);
  }

  /** `e` leaves the entries that handing out an identifier leaves, and a new one. */
  lemma CreatingLeaves(s: State, o: Owner, k: nat, e: Effect, live: set<nat>, h: nat, key: Key)
    requires Creates(e) && key.id < s.nextId
    ensures key in Handling(s, o, k, e, live, h).0.meta
            <==> key in (if e.CreateSemaphore? && e.permits < 1 then s else FreshId(s, live)).meta
  {
    assert key != TaskKey(s.nextId) && key != PromiseKey(s.nextId);
  }

  lemma CreatingSweeps(s: State, o: Owner, k: nat, e: Effect, handles: map<nat, Key>, h: nat, key: Key)
    requires Referenced(s, handles, h) && HandlesRegistered(s.refs, handles) && key in s.meta && key.id < s.nextId
    requires Creates(e)
    ensures var sweeps := (e.CreateSemaphore? ==> e.permits >= 1) && (s.nextId + 1) % HANDLE_SWEEP_INTERVAL == 0;
            key in Handling(s, o, k, e, handles.Keys, h).0.meta <==> !(sweeps && Stale(s, handles, key))
  {
    FreshIdSweeps(s, handles, h, key);
    CreatingLeaves(s, o, k, e, handles.Keys, h, key);
  }

  lemma HandlingSweeps(s: State, o: Owner, k: nat, e: Effect, handles: map<nat, Key>, h: nat, key: Key)
    requires Referenced(s, handles, h) && HandlesRegistered(s.refs, handles) && key in s.meta && key.id < s.nextId
    requires WellTyped(s, o, e, handles)
    ensures var sweeps := Creates(e) && (e.CreateSemaphore? ==> e.permits >= 1)
                          && (s.nextId + 1) % HANDLE_SWEEP_INTERVAL == 0;
            key in Handling(s, o, k, e, handles.Keys, h).0.meta <==> !(sweeps && Stale(s, handles, key))
  {
    if Creates(e) {
      CreatingSweeps(s, o, k, e, handles, h, key);
    } else if e.TaskCompleted? || e.Cancel? || e.CompletePromise? || e.FailPromise? {
      SettlingEntries(s, o, k, e, handles.Keys, h);
    } else {
      OtherEntries(s, o, k, e, handles.Keys, h);
    }
  }

  // ---- The theorems --------------------------------------------------------

  /** What the drained state of a performer is known to be. */
  ghost predicate Numbered(d: State, handles: map<nat, Key>, h: nat) {
    && Referenced(d, handles, h) && HandlesRegistered(d.refs, handles)
    && (forall key :: key in d.meta ==> key.id < d.nextId) && d.nextId !in d.sems
    && forall v :: v in d.board.ready ==> v.order < d.board.nextSeq
  }

  lemma DrainedNumbers(acts: seq<Action>, diagnose: bool)
    requires Possible(START, acts, diagnose) && After(START, acts, diagnose).phase.Executing?
    ensures var y := After(START, acts, diagnose); Numbered(Drain(y.s), y.handles, y.nextHandle)
  {
    var y := After(START, acts, diagnose);
    var spot, cellKey := RunsAreSound(acts, diagnose);
    StartSatisfies();
    RunEntries(START, acts, diagnose, map[], map[]);
    var spot' := DrainedEntered(y, spot, cellKey);
    DrainEntries(y.s);
    SameEntries(y.s, Drain(y.s), y.handles, y.nextHandle);
  }

  /** Whenever an identifier is handed out that is a multiple of 1024, exactly those entries go that
      completed or failed and that nobody can ask for any more. */
  lemma SweepsTheStale(acts: seq<Action>, diagnose: bool, e: Effect, key: Key)
    requires Possible(START, acts, diagnose)
    requires Enabled(After(START, acts, diagnose), Perform(e), diagnose)
    ensures var y := After(START, acts, diagnose); var d, z := Drain(y.s), Step(y, Perform(e), diagnose);
            var sweeps := Creates(e) && (e.CreateSemaphore? ==> e.permits >= 1)
                          && (d.nextId + 1) % HANDLE_SWEEP_INTERVAL == 0;
            key in d.meta ==> (key in z.s.meta <==> !(sweeps && Stale(d, y.handles, key)))
  {
    var y := After(START, acts, diagnose);
    DrainedNumbers(acts, diagnose);
    if key in Drain(y.s).meta {
      HandlingSweeps(Drain(y.s), y.phase.owner, y.nextCont, e, y.handles, y.nextHandle, key);
    }
  }

  /** The spawner's state, and what it is left with. */
  ghost predicate Spawned(s: State, s': State, o: Owner, k: nat, prio: int, daemon: bool, x: Item, back: Item) {
    var key := TaskKey(s.nextId);
    && key !in s.meta && key in s'.meta && s'.meta[key] == Meta(Pending, Nothing, prio, daemon, false)
    && s'.board.waiters == s.board.waiters && s'.board.joins == s.board.joins && s'.sems == s.sems
    && s'.board.ready == s.board.ready + {x, back}
    && x.entry == New(s.nextId) && x.prio == prio
    && back.entry == Resume(o, k, Handle(key)) && OfPriority(s'.meta, o, back.prio)
    && x.order < back.order && forall v :: v in s.board.ready ==> v.order < x.order
  }

  lemma HandleSpawnLeaves(s: State, o: Owner, k: nat, prio: int, daemon: bool, handles: map<nat, Key>, h: nat)
    returns (x: Item, back: Item)
    requires Numbered(s, handles, h)
    ensures Spawned(s, HandleSpawn(s, o, k, prio, daemon, handles.Keys, h).0, o, k, prio, daemon, x, back)
  {
    FreshIdLeaves(s, handles.Keys);
    var s' := HandleSpawn(s, o, k, prio, daemon, handles.Keys, h).0;
    x := Item(prio, s.board.nextSeq, New(s.nextId));
    back := Item(TaskPriority(s'.meta, o), s.board.nextSeq + 1, Resume(o, k, Handle(TaskKey(s.nextId))));
    assert s.board.ready + {x} + {back} == s.board.ready + {x, back};
  }

  /** A spawned task is new, pending, and a daemon if asked; it is queued at its priority, and its
      spawner, with the handle, behind it at its own. */
  lemma SpawnLeaves(acts: seq<Action>, diagnose: bool, prio: int, daemon: bool) returns (x: Item, back: Item)
    requires Possible(START, acts, diagnose) && After(START, acts, diagnose).phase.Executing?
    ensures var y := After(START, acts, diagnose);
            var d, z := Drain(y.s), Step(y, Perform(Spawn(prio, daemon)), diagnose);
            && Spawned(d, z.s, y.phase.owner, y.nextCont, prio, daemon, x, back)
            && z.phase.Entering? && z.handles == y.handles[y.nextHandle := TaskKey(d.nextId)]
  {
    var y := After(START, acts, diagnose);
    DrainedNumbers(acts, diagnose);
    x, back := HandleSpawnLeaves(Drain(y.s), y.phase.owner, y.nextCont, prio, daemon, y.handles, y.nextHandle);
  }

  ghost predicate Promised(s: State, s': State, external: bool) {
    var key := PromiseKey(s.nextId);
    && key !in s.meta && key in s'.meta && s'.meta[key].status.Pending? && s'.meta[key].external == external
    && s'.board == s.board && s'.sems == s.sems
  }

  lemma HandleCreateLeaves(s: State, external: bool, handles: map<nat, Key>, h: nat)
    requires Numbered(s, handles, h)
    ensures Promised(s, HandleCreate(s, external, handles.Keys, h).0, external)
  {
    FreshIdLeaves(s, handles.Keys);
  }

  /** A new promise is pending, and its creator goes on with the handle. */
  lemma CreateLeaves(acts: seq<Action>, diagnose: bool, external: bool)
    requires Possible(START, acts, diagnose) && After(START, acts, diagnose).phase.Executing?
    ensures var e := if external then CreateExternalPromise else CreatePromise;
            var y := After(START, acts, diagnose); var d, z := Drain(y.s), Step(y, Perform(e), diagnose);
            && Promised(d, z.s, external) && z.phase == y.phase
            && ReplyTo(y, e) == Resumed(Handle(PromiseKey(d.nextId)))
            && z.handles == y.handles[y.nextHandle := PromiseKey(d.nextId)]
  {
    var y := After(START, acts, diagnose);
    DrainedNumbers(acts, diagnose);
    HandleCreateLeaves(Drain(y.s), external, y.handles, y.nextHandle);
  }

  lemma HandleSemaphoreLeaves(s: State, permits: int, handles: map<nat, Key>, h: nat)
    requires Numbered(s, handles, h) && permits >= 1
    ensures var s' := HandleSemaphore(s, permits, handles.Keys).0;
            s'.sems == s.sems[s.nextId := Sem(permits, permits, [], multiset{})] && s'.board == s.board
  {
    FreshIdLeaves(s, handles.Keys);
  }

  /** A new semaphore has all the permits it was asked for, and nobody waits for or holds one; fewer than
      one are refused. */
  lemma SemaphoreLeaves(acts: seq<Action>, diagnose: bool, permits: int)
    requires Possible(START, acts, diagnose) && After(START, acts, diagnose).phase.Executing?
    ensures var e := CreateSemaphore(permits);
            var y := After(START, acts, diagnose); var d, z := Drain(y.s), Step(y, Perform(e), diagnose);
            && z.phase == y.phase
            && if permits < 1 then ReplyTo(y, e) == Thrown(BadPermits) && z.s == d
               else
                 && d.nextId !in d.sems && ReplyTo(y, e) == Resumed(SemaphoreHandle(d.nextId))
                 && z.s.sems == d.sems[d.nextId := Sem(permits, permits, [], multiset{})] && z.s.board == d.board
  {
    var y := After(START, acts, diagnose);
    DrainedNumbers(acts, diagnose);
    if permits >= 1 {
      HandleSemaphoreLeaves(Drain(y.s), permits, y.handles, y.nextHandle);
    }
  }
}
