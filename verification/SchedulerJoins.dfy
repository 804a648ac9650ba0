/** Gathers and races resolve once. */
module SchedulerJoins {
  import opened Wrappers
  import opened SchedulerModel
  import opened SchedulerSteps
  import opened SchedulerInvariant
  import opened SchedulerWaking
  import opened SchedulerEffects
  import opened SchedulerRuns
  import opened SchedulerSafety

  // ---- Gathers and races resolve once --------------------------------------

  /** Joins are never dropped, keep whom they are for and what they wait for, and change no more
      once they are resolved. */
  ghost predicate JoinsLater(b: Board, b': Board) {
    b.nextObj <= b'.nextObj && forall j :: j in b.joins ==> j in b'.joins && JoinLater(b.joins[j], b'.joins[j])
  }

  predicate JoinLater(g: Join, g': Join) {
    g' == g.(remaining := g'.remaining, resolved := g'.resolved) && (g.resolved ==> g' == g)
  }

  ghost predicate JoinsKnown(b: Board) {
    forall j :: j in b.joins ==> j < b.nextObj
  }

  lemma JoinsLaterTransitive(a: Board, b: Board, c: Board)
    requires JoinsLater(a, b) && JoinsLater(b, c)
    ensures JoinsLater(a, c)
  {
    forall j | j in a.joins ensures j in c.joins && JoinLater(a.joins[j], c.joins[j]) {
      assert j in b.joins && JoinLater(a.joins[j], b.joins[j]) && JoinLater(b.joins[j], c.joins[j]);
    }
  }

  lemma SameJoins(b: Board, b': Board)
    requires b'.joins == b.joins && b'.nextObj == b.nextObj
    ensures JoinsLater(b, b')
  {
  }

  lemma WakeOneJoins(meta: map<Key, Meta>, b: Board, key: Key, w: Waiter)
    ensures JoinsLater(b, WakeOne(meta, b, key, w).0)
  {
    if w.Joined? {
      WakeJoinJoins(meta, Claim(b, w.cell), w.join, key);
    }
  }

  lemma WakeJoinJoins(meta: map<Key, Meta>, b: Board, j: nat, key: Key)
    ensures JoinsLater(b, WakeJoin(meta, b, j, key).0)
  {
    if j in b.joins && !b.joins[j].resolved {
      var b' := WakeJoin(meta, b, j, key).0;
      assert b'.joins == b.joins[j := b'.joins[j]] && JoinLater(b.joins[j], b'.joins[j]);
    }
  }

  lemma {:induction false} WakeAllJoins(meta: map<Key, Meta>, b: Board, key: Key, ws: seq<Waiter>)
    ensures JoinsLater(b, WakeAll(meta, b, key, ws).0)
    decreases |ws|
  {
    if ws != [] {
      var b1 := WakeOne(meta, b, key, ws[0]).0;
      WakeOneJoins(meta, b, key, ws[0]);
      WakeAllJoins(meta, b1, key, ws[1..]);
      JoinsLaterTransitive(b, b1, WakeAll(meta, b1, key, ws[1..]).0);
    }
  }

  lemma ResolveJoins(s: State, key: Key, st: Status, v: Value)
    requires key in s.meta
    ensures JoinsLater(s.board, Resolve(s, key, st, v).0.board)
  {
    WakeAllJoins(WithStatus(s.meta, key, st, v), s.board.(waiters := s.board.waiters - {key}), key,
                 RegsAt(s.board.waiters, key));
  }

  lemma {:induction false} DrainJoins(s: State)
    ensures JoinsLater(s.board, Drain(s).board)
    decreases |s.queue|
  {
    if s.queue != [] {
      var c := s.queue[0];
      var key := PromiseKey(c.id);
      if StatusOf(s.meta, key).Pending? && key in s.meta {
        ResolveJoins(s.(queue := s.queue[1..]), key, if c.ok then Completed else Failed, c.value);
      }
      DrainJoins(DrainOne(s));
      JoinsLaterTransitive(s.board, DrainOne(s).board, Drain(s).board);
    }
  }

  lemma {:induction false} RegisterAllJoins(meta: map<Key, Meta>, b: Board, j: nat, o: Owner, keys: seq<Key>)
    ensures RegisterAll(meta, b, j, o, keys).joins == b.joins && b.nextObj <= RegisterAll(meta, b, j, o, keys).nextObj
    decreases |keys|
  {
    if keys != [] {
      RegisterAllJoins(meta, RegisterJoined(meta, b, j, o, keys[0]), j, o, keys[1..]);
    }
  }

  lemma OpenJoins(meta: map<Key, Meta>, b: Board, g: Join)
    requires JoinsKnown(b)
    ensures JoinsLater(b, OpenJoin(meta, b, g))
  {
    RegisterAllJoins(meta, b.(joins := b.joins[b.nextObj := g], nextObj := b.nextObj + 1), b.nextObj, g.owner,
                     g.pendingKeys);
  }

  lemma ParkingJoins(s: State, o: Owner, k: nat, e: Effect, live: set<nat>, h: nat)
    requires JoinsKnown(s.board)
    requires e.Wait? || e.Gather? || e.Race?
    ensures JoinsLater(s.board, Handling(s, o, k, e, live, h).0.board)
  {
    match e
    case Gather(keys) =>
      var pending := PendingOf(s.meta, keys);
      OpenJoins(s.meta, s.board, Join(GatherJoin, o, k, keys, pending, |pending|, false));
    case Race(keys) => OpenJoins(s.meta, s.board, Join(RaceJoin, o, k, keys, keys, 0, false));
    case Wait(_, _) =>
  }

  lemma SettleJoins(s: State, o: Owner, k: nat, key: Key, st: Status, v: Value)
    ensures JoinsLater(s.board, HandleSettle(s, o, k, key, st, v).0.board)
  {
    if key in s.meta { ResolveJoins(s, key, st, v); }
  }

  lemma SettlingJoins(s: State, o: Owner, k: nat, e: Effect, live: set<nat>, h: nat)
    requires e.TaskCompleted? ==> o.Of? && TaskKey(o.tid) in s.meta
    requires e.TaskCompleted? || e.Cancel? || e.CompletePromise? || e.FailPromise?
    ensures JoinsLater(s.board, Handling(s, o, k, e, live, h).0.board)
  {
    match e
    case TaskCompleted(ok, v) => ResolveJoins(s, TaskKey(o.tid), if ok then Completed else Failed, v);
    case Cancel(key) => if key in s.meta { ResolveJoins(s, key, Cancelled, TaskCancelledError); }
    case CompletePromise(key, v) => SettleJoins(s, o, k, key, Completed, v);
    case FailPromise(key, v) => SettleJoins(s, o, k, key, Failed, v);
  }

  lemma GrantJoins(s: State, sid: nat)
    requires sid in s.sems
    ensures var b' := Grant(s, sid).0.board; b'.joins == s.board.joins && b'.nextObj == s.board.nextObj
  {
  }

  lemma ReleaseJoins(s: State, o: Owner, sid: nat)
    requires sid in s.sems
    ensures var b' := HandleRelease(s, o, sid).0.board; b'.joins == s.board.joins && b'.nextObj == s.board.nextObj
  {
    GrantJoins(s, sid);
  }

  lemma CreatingJoins(s: State, o: Owner, k: nat, e: Effect, live: set<nat>, h: nat)
    requires Creates(e)
    ensures var b' := Handling(s, o, k, e, live, h).0.board; b'.joins == s.board.joins && b'.nextObj == s.board.nextObj
  {
    CreatingLeaves(s, o, k, e, live, h);
  }

  lemma HandlingJoins(s: State, o: Owner, k: nat, e: Effect, live: set<nat>, h: nat)
    requires JoinsKnown(s.board)
    requires e.TaskCompleted? ==> o.Of? && TaskKey(o.tid) in s.meta
    requires e.Acquire? || e.Release? ==> e.sid in s.sems
    ensures JoinsLater(s.board, Handling(s, o, k, e, live, h).0.board)
  {
    if e.Wait? || e.Gather? || e.Race? {
      ParkingJoins(s, o, k, e, live, h);
    } else if e.TaskCompleted? || e.Cancel? || e.CompletePromise? || e.FailPromise? {
      SettlingJoins(s, o, k, e, live, h);
    } else if e.Release? {
      ReleaseJoins(s, o, e.sid);
    } else if !e.Acquire? {
      CreatingJoins(s, o, k, e, live, h);
    }
  }

  lemma BlockMeans(s: State, e: Entry, held: set<Item>, shield: bool, diagnose: bool)
    requires e.Placeholder?
    ensures var t := BlockOnPlaceholder(s, e, held, shield, diagnose);
            var s1 := s.(sems := PruneQueues(s.meta, s.sems));
            !t.Blocking? ==>
              exists s2 :: s2 in {s, s1, Drain(s), Drain(s1)} && t.s.board.joins == s2.board.joins
                  && t.s.board.nextObj == s2.board.nextObj
  {
    var t := BlockOnPlaceholder(s, e, held, shield, diagnose);
    var s1 := if HasLive(s.meta, s.board.ready, true) then s else s.(sems := PruneQueues(s.meta, s.sems));
    if t.Again? {
      assert t.s.board.joins == Drain(s1).board.joins && t.s.board.nextObj == Drain(s1).board.nextObj;
    } else if t.Deadlocked? {
      assert t.s == s1;
    }
  }

  lemma BlockJoins(s: State, e: Entry, held: set<Item>, shield: bool, diagnose: bool)
    requires e.Placeholder?
    ensures var t := BlockOnPlaceholder(s, e, held, shield, diagnose); !t.Blocking? ==> JoinsLater(s.board, t.s.board)
  {
    DrainJoins(s);
    DrainJoins(s.(sems := PruneQueues(s.meta, s.sems)));
    BlockMeans(s, e, held, shield, diagnose);
  }

  lemma ReturnJoins(s: State, sid: nat, o: Owner)
    requires sid in s.sems
    ensures var b' := ReturnPermit(s, sid, o).board; b'.joins == s.board.joins && b'.nextObj == s.board.nextObj
  {
  }

  lemma PopTurnJoins(s: State, x: Item, held: set<Item>, shield: bool, diagnose: bool)
    ensures var t := PopTurn(s, x, held, shield, diagnose); !t.Blocking? ==> JoinsLater(s.board, t.s.board)
  {
    if x.entry.Placeholder? {
      BlockJoins(Pop(s, x), x.entry, held, shield, diagnose);
    } else if x.entry.Permit? && x.entry.sid in s.sems {
      ReturnJoins(Pop(s, x), x.entry.sid, x.entry.owner);
    }
  }

  lemma PickTurnJoins(s: State, held: set<Item>, shield: bool, diagnose: bool)
    ensures var t := PickTurn(s, held, shield, diagnose); !t.Blocking? ==> JoinsLater(s.board, t.s.board)
  {
    if s.board.ready == {} {
      DrainJoins(s.(sems := PruneQueues(s.meta, s.sems)));
    } else {
      PopTurnJoins(s, Least(s.board.ready), held, shield, diagnose);
    }
  }

  lemma DrainedJoins(y: System, spot: Spots, cellKey: map<nat, Key>)
    requires Inv(y, spot, cellKey) && y.phase.Executing?
    ensures JoinsKnown(Drain(y.s).board)
  {
    var spot' := DrainedEntered(y, spot, cellKey);
  }

  lemma PerformJoins(y: System, e: Effect, spot: Spots, cellKey: map<nat, Key>)
    requires Inv(y, spot, cellKey) && y.phase.Executing? && WellTyped(Drain(y.s), y.phase.owner, e, y.handles)
    ensures JoinsLater(y.s.board, PerformStep(y, e).s.board)
  {
    var d := Drain(y.s);
    DrainedJoins(y, spot, cellKey);
    DrainJoins(y.s);
    HandlingJoins(d, y.phase.owner, y.nextCont, e, y.handles.Keys, y.nextHandle);
    JoinsLaterTransitive(y.s.board, d.board, PerformStep(y, e).s.board);
  }

  lemma DispatchJoins(y: System, diagnose: bool)
    requires Enabled(y, Dispatch, diagnose)
    ensures JoinsLater(y.s.board, DispatchStep(y, diagnose).s.board)
  {
    PickTurnJoins(y.s, y.phase.held, y.phase.shield, diagnose);
  }

  lemma QuietJoins(y: System, a: Action, diagnose: bool)
    requires Enabled(y, a, diagnose) && !a.Perform? && !a.Enter? && !a.Dispatch?
    ensures JoinsLater(y.s.board, Step(y, a, diagnose).s.board)
  {
    SameJoins(y.s.board, Step(y, a, diagnose).s.board);
  }

  lemma StepJoins(y: System, a: Action, diagnose: bool, spot: Spots, cellKey: map<nat, Key>)
    requires Inv(y, spot, cellKey) && Enabled(y, a, diagnose)
    ensures JoinsLater(y.s.board, Step(y, a, diagnose).s.board)
  {
    match a
    case Perform(e) => PerformJoins(y, e, spot, cellKey);
    case Enter => DrainJoins(y.s);
    case Dispatch => DispatchJoins(y, diagnose);
    case _ => QuietJoins(y, a, diagnose);
  }

  lemma {:induction false} RunJoins(y: System, acts: seq<Action>, diagnose: bool, spot: Spots, cellKey: map<nat, Key>)
    requires Inv(y, spot, cellKey) && Possible(y, acts, diagnose)
    ensures JoinsLater(y.s.board, After(y, acts, diagnose).s.board)
    decreases |acts|
  {
    if acts != [] {
      var y1 := Step(y, acts[0], diagnose);
      StepJoins(y, acts[0], diagnose, spot, cellKey);
      var spot1, cellKey1 := StepKeeps(y, acts[0], diagnose, spot, cellKey);
      RunJoins(y1, acts[1..], diagnose, spot1, cellKey1);
      JoinsLaterTransitive(y.s.board, y1.s.board, After(y, acts, diagnose).s.board);
    }
  }

  /** A gather or race is for the same owner and keys throughout its life, and it is resolved at
      most once: however the run goes on, it stays as it was resolved, with no registration. */
  lemma JoinsResolveOnce(acts: seq<Action>, more: seq<Action>, diagnose: bool, j: nat, key: Key)
    requires Possible(START, acts, diagnose) && Possible(After(START, acts, diagnose), more, diagnose)
    requires j in After(START, acts, diagnose).s.board.joins
    ensures var b := After(START, acts, diagnose).s.board;
            var b' := After(After(START, acts, diagnose), more, diagnose).s.board;
            && j in b'.joins && b'.joins[j].owner == b.joins[j].owner && b'.joins[j].cont == b.joins[j].cont
            && b'.joins[j].kind == b.joins[j].kind && b'.joins[j].keys == b.joins[j].keys
            && (b.joins[j].resolved ==> b'.joins[j] == b.joins[j] && Count(RegsAt(b'.waiters, key), j) == 0)
  {
    var y := After(START, acts, diagnose);
    var spot, cellKey := RunsAreSound(acts, diagnose);
    RunJoins(y, more, diagnose, spot, cellKey);
    var spot', cellKey' := RunKeeps(y, more, diagnose, spot, cellKey);
    var z := After(y, more, diagnose);
    if y.s.board.joins[j].resolved {
      NothingRegistered(z.s.board.waiters, z.s.board.joins, z.s.board.nextObj, j, key);
    }
  }

  lemma NothingRegistered(waiters: map<Key, seq<Waiter>>, joins: map<nat, Join>, n: nat, j: nat, key: Key)
    requires RegsKnown(waiters, joins, None, n) && j in joins && joins[j].resolved
    ensures Count(RegsAt(waiters, key), j) == 0
  {
    CountPositive(RegsAt(waiters, key), j);
  }
}
