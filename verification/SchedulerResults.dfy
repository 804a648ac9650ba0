/** Results are written once, and every waiter is sent the final one. */
module SchedulerResults {
  import opened Wrappers
  import opened SchedulerModel
  import opened SchedulerSteps
  import opened SchedulerInvariant
  import opened SchedulerWaking
  import opened SchedulerResolving
  import opened SchedulerSweep
  import opened SchedulerRuns
  import opened SchedulerSafety

  // ---- Write-once ----------------------------------------------------------

  /** Waitables keep priority and kind, terminal ones status and result too, cancelled ones are
      not deleted, and identifiers are not reused. */
  ghost predicate Later(s: State, s': State) {
    && s.nextId <= s'.nextId
    && (forall key :: key in s.meta && key in s'.meta ==>
          && s'.meta[key] == s.meta[key].(status := s'.meta[key].status, result := s'.meta[key].result)
          && (Terminal(s.meta[key].status) ==> s'.meta[key] == s.meta[key]))
    && (forall key :: key in s.meta && s.meta[key].status.Cancelled? ==> key in s'.meta)
    && (forall key :: key in s'.meta && key !in s.meta ==> s.nextId <= key.id)
  }

  lemma LaterTransitive(a: State, b: State, c: State)
    requires Later(a, b) && Later(b, c)
    requires forall key :: key in a.meta ==> key.id < a.nextId
    ensures Later(a, c)
  {
  }

  lemma ResolveLater(s: State, key: Key, st: Status, v: Value)
    requires key in s.meta && !Terminal(s.meta[key].status)
    ensures Later(s, Resolve(s, key, st, v).0)
    ensures forall k :: k in Resolve(s, key, st, v).0.meta ==> k in s.meta
    ensures Resolve(s, key, st, v).0.nextId == s.nextId
  {
  }

  lemma {:induction false} DrainLater(s: State)
    requires forall key :: key in s.meta ==> key.id < s.nextId
    ensures Later(s, Drain(s)) && Drain(s).nextId == s.nextId
    ensures forall key :: key in Drain(s).meta ==> key.id < s.nextId
    decreases |s.queue|
  {
    if s.queue != [] {
      var c := s.queue[0];
      var key := PromiseKey(c.id);
      if StatusOf(s.meta, key).Pending? && key in s.meta {
        ResolveLater(s.(queue := s.queue[1..]), key, if c.ok then Completed else Failed, c.value);
      }
      DrainLater(DrainOne(s));
      LaterTransitive(s, DrainOne(s), Drain(s));
    }
  }

  lemma FreshIdLater(s: State, live: set<nat>)
    ensures Later(s, FreshId(s, live)) && FreshId(s, live).nextId == s.nextId + 1
  {
  }

  lemma SettleLater(s: State, o: Owner, k: nat, key: Key, st: Status, v: Value)
    ensures Later(s, HandleSettle(s, o, k, key, st, v).0)
  {
    if key in s.meta && s.meta[key].status == Pending {
      ResolveLater(s, key, st, v);
    }
  }

  lemma SettlingLater(s: State, o: Owner, k: nat, e: Effect, live: set<nat>, h: nat)
    requires e.CompletePromise? || e.FailPromise?
    ensures Later(s, Handling(s, o, k, e, live, h).0)
  {
    SettleLater(s, o, k, e.key, if e.CompletePromise? then Completed else Failed, e.value);
  }

  lemma EndingLater(s: State, o: Owner, k: nat, e: Effect, live: set<nat>, h: nat)
    requires e.TaskCompleted? || e.Cancel?
    requires e.TaskCompleted? ==> o.Of? && TaskKey(o.tid) in s.meta && Started(s.meta, o)
    ensures Later(s, Handling(s, o, k, e, live, h).0)
  {
    if e.TaskCompleted? {
      if !s.meta[TaskKey(o.tid)].status.Cancelled? {
        ResolveLater(s, TaskKey(o.tid), if e.ok then Completed else Failed, e.value);
      }
    } else if e.key in s.meta && !Terminal(s.meta[e.key].status) {
      ResolveLater(s, e.key, Cancelled, TaskCancelledError);
    }
  }

  lemma SpawnLater(s: State, o: Owner, k: nat, prio: int, daemon: bool, live: set<nat>, h: nat)
    requires forall key :: key in s.meta ==> key.id < s.nextId
    ensures Later(s, HandleSpawn(s, o, k, prio, daemon, live, h).0)
  {
    FreshIdLater(s, live);
  }

  lemma CreateLater(s: State, external: bool, live: set<nat>, h: nat)
    requires forall key :: key in s.meta ==> key.id < s.nextId
    ensures Later(s, HandleCreate(s, external, live, h).0)
  {
    FreshIdLater(s, live);
  }

  lemma CreatingLater(s: State, o: Owner, k: nat, e: Effect, live: set<nat>, h: nat)
    requires e.Spawn? || e.CreatePromise? || e.CreateExternalPromise? || e.CreateSemaphore?
    requires forall key :: key in s.meta ==> key.id < s.nextId
    ensures Later(s, Handling(s, o, k, e, live, h).0)
  {
    match e
    case Spawn(prio, daemon) => SpawnLater(s, o, k, prio, daemon, live, h);
    case CreatePromise => CreateLater(s, false, live, h);
    case CreateExternalPromise => CreateLater(s, true, live, h);
    case CreateSemaphore(_) => FreshIdLater(s, live);
  }

  lemma OtherLater(s: State, o: Owner, k: nat, e: Effect, live: set<nat>, h: nat)
    requires e.Wait? || e.Gather? || e.Race? || e.Acquire? || e.Release?
    requires e.Acquire? || e.Release? ==> e.sid in s.sems
    ensures Handling(s, o, k, e, live, h).0.meta == s.meta && Handling(s, o, k, e, live, h).0.nextId == s.nextId
  {
  }

  lemma HandlingLater(s: State, o: Owner, k: nat, e: Effect, live: set<nat>, h: nat)
    requires forall key :: key in s.meta ==> key.id < s.nextId
    requires e.TaskCompleted? ==> o.Of? && TaskKey(o.tid) in s.meta && Started(s.meta, o)
    requires e.Acquire? || e.Release? ==> e.sid in s.sems
    ensures Later(s, Handling(s, o, k, e, live, h).0)
  {
    if e.CompletePromise? || e.FailPromise? {
      SettlingLater(s, o, k, e, live, h);
    } else if e.TaskCompleted? || e.Cancel? {
      EndingLater(s, o, k, e, live, h);
    } else if e.Wait? || e.Gather? || e.Race? || e.Acquire? || e.Release? {
      OtherLater(s, o, k, e, live, h);
    } else {
      CreatingLater(s, o, k, e, live, h);
    }
  }

  lemma BlockLater(s: State, e: Entry, held: set<Item>, shield: bool, diagnose: bool)
    requires forall key :: key in s.meta ==> key.id < s.nextId
    requires e.Placeholder?
    ensures var t := BlockOnPlaceholder(s, e, held, shield, diagnose); !t.Blocking? ==> Later(s, t.s)
  {
    DrainLater(s);
    DrainLater(s.(sems := PruneQueues(s.meta, s.sems)));
  }

  /** Every turn but a blocking one only starts a task, or leaves the waitables alone. */
  lemma PopTurnMeta(s: State, x: Item, held: set<Item>, shield: bool, diagnose: bool)
    requires !x.entry.Placeholder?
    ensures var t := PopTurn(s, x, held, shield, diagnose);
            && (t.Again? || t.Chosen?) && t.s.nextId == s.nextId
            && t.s.meta == (if t.Chosen? then Start(s, x.entry).meta else s.meta)
            && (t.Chosen? ==> LiveEntry(s.meta, x.entry))
  {
  }

  lemma PlaceholderTurnLater(s: State, x: Item, held: set<Item>, shield: bool, diagnose: bool)
    requires forall key :: key in s.meta ==> key.id < s.nextId
    requires x.entry.Placeholder?
    ensures var t := PopTurn(s, x, held, shield, diagnose); !t.Blocking? ==> Later(s, t.s)
  {
    BlockLater(Pop(s, x), x.entry, held, shield, diagnose);
  }

  lemma PopTurnLater(s: State, x: Item, held: set<Item>, shield: bool, diagnose: bool)
    requires forall key :: key in s.meta ==> key.id < s.nextId
    requires x.entry.New? && TaskKey(x.entry.tid) in s.meta ==>
               s.meta[TaskKey(x.entry.tid)].status.Pending? || s.meta[TaskKey(x.entry.tid)].status.Cancelled?
    ensures var t := PopTurn(s, x, held, shield, diagnose); !t.Blocking? ==> Later(s, t.s)
  {
    if x.entry.Placeholder? {
      PlaceholderTurnLater(s, x, held, shield, diagnose);
    } else {
      PopTurnMeta(s, x, held, shield, diagnose);
    }
  }

  ghost predicate UnstartedPending(items: set<Item>, meta: map<Key, Meta>) {
    forall x :: x in items && x.entry.New? && TaskKey(x.entry.tid) in meta ==>
      meta[TaskKey(x.entry.tid)].status.Pending? || meta[TaskKey(x.entry.tid)].status.Cancelled?
  }

  lemma PickTurnLater(s: State, held: set<Item>, shield: bool, diagnose: bool)
    requires (forall key :: key in s.meta ==> key.id < s.nextId) && UnstartedPending(s.board.ready, s.meta)
    ensures var t := PickTurn(s, held, shield, diagnose); !t.Blocking? ==> Later(s, t.s)
  {
    if s.board.ready == {} {
      DrainLater(s.(sems := PruneQueues(s.meta, s.sems)));
    } else {
      PopTurnLater(s, Least(s.board.ready), held, shield, diagnose);
    }
  }

  lemma UnstartedArePending(items: set<Item>, spot: Spots, meta: map<Key, Meta>)
    requires ItemsPlaced(items, spot) && OwnersKnown(spot, meta)
    ensures UnstartedPending(items, meta)
  {
    forall x | x in items && x.entry.New? && TaskKey(x.entry.tid) in meta
      ensures meta[TaskKey(x.entry.tid)].status.Pending? || meta[TaskKey(x.entry.tid)].status.Cancelled?
    {
      assert EntryOwner(x.entry) == Of(x.entry.tid);
    }
  }

  lemma PerformLater(y: System, e: Effect, spot: Spots, cellKey: map<nat, Key>)
    requires Inv(y, spot, cellKey) && y.phase.Executing? && WellTyped(Drain(y.s), y.phase.owner, e, y.handles)
    ensures Later(y.s, PerformStep(y, e).s)
  {
    var d := Drain(y.s);
    var spot' := DrainedEntered(y, spot, cellKey);
    DrainLater(y.s);
    HandlingLater(d, y.phase.owner, y.nextCont, e, y.handles.Keys, y.nextHandle);
    LaterTransitive(y.s, d, PerformStep(y, e).s);
  }

  lemma DispatchLater(y: System, diagnose: bool)
    requires Enabled(y, Dispatch, diagnose) && UnstartedPending(y.s.board.ready, y.s.meta)
    requires forall key :: key in y.s.meta ==> key.id < y.s.nextId
    ensures Later(y.s, DispatchStep(y, diagnose).s)
  {
    PickTurnLater(y.s, y.phase.held, y.phase.shield, diagnose);
  }

  lemma StepLater(y: System, a: Action, diagnose: bool, spot: Spots, cellKey: map<nat, Key>)
    requires Inv(y, spot, cellKey) && Enabled(y, a, diagnose)
    ensures Later(y.s, Step(y, a, diagnose).s)
  {
    match a
    case Perform(e) => PerformLater(y, e, spot, cellKey);
    case Enter => DrainLater(y.s);
    case Dispatch =>
      UnstartedArePending(y.s.board.ready + HeldItems(y), spot, y.s.meta);
      DispatchLater(y, diagnose);
    case _ =>
  }

  lemma {:induction false} RunLater(y: System, acts: seq<Action>, diagnose: bool, spot: Spots, cellKey: map<nat, Key>)
    requires Inv(y, spot, cellKey) && Possible(y, acts, diagnose)
    ensures Later(y.s, After(y, acts, diagnose).s)
    decreases |acts|
  {
    if acts != [] {
      var y1 := Step(y, acts[0], diagnose);
      StepLater(y, acts[0], diagnose, spot, cellKey);
      var spot1, cellKey1 := StepKeeps(y, acts[0], diagnose, spot, cellKey);
      RunLater(y1, acts[1..], diagnose, spot1, cellKey1);
      LaterTransitive(y.s, y1.s, After(y, acts, diagnose).s);
    }
  }

  /** A terminal status and its result never change afterwards, however the run goes on. */
  lemma ResultsAreWrittenOnce(acts: seq<Action>, more: seq<Action>, diagnose: bool, key: Key)
    requires Possible(START, acts, diagnose) && Possible(After(START, acts, diagnose), more, diagnose)
    ensures var y := After(START, acts, diagnose); var z := After(y, more, diagnose);
            key in y.s.meta && key in z.s.meta && Terminal(y.s.meta[key].status) ==> z.s.meta[key] == y.s.meta[key]
  {
    var spot, cellKey := RunsAreSound(acts, diagnose);
    RunLater(After(START, acts, diagnose), more, diagnose, spot, cellKey);
  }

  // ---- Deliveries ----------------------------------------------------------

  /** A direct waiter is sent the value or error of the waitable, at its wake priority. */
  lemma {:induction false} DirectIsDelivered(meta: map<Key, Meta>, b: Board, key: Key, ws: seq<Waiter>, i: nat)
    returns (x: Item)
    requires i < |ws| && ws[i].Direct? && Terminal(StatusOf(meta, key))
    ensures x in WakeAll(meta, b, key, ws).0.ready && b.nextSeq <= x.order
    ensures x.entry == Delivery(StatusOf(meta, key), ResultOf(meta, key), ws[i].owner, ws[i].cont)
    ensures x.prio == if ws[i].wake.Some? then ws[i].wake.value else TaskPriority(meta, ws[i].owner)
    decreases |ws|
  {
    var (b1, p1) := WakeOne(meta, b, key, ws[0]);
    WakeOneAdds(meta, b, key, ws[0]);
    if i == 0 {
      x := Item(if ws[0].wake.Some? then ws[0].wake.value else TaskPriority(meta, ws[0].owner), b.nextSeq,
                Delivery(StatusOf(meta, key), ResultOf(meta, key), ws[0].owner, ws[0].cont));
      WakeAllAdds(meta, b1, key, ws[1..]);
    } else {
      x := DirectIsDelivered(meta, b1, key, ws[1..], i - 1);
    }
  }

  lemma {:induction false} ResultsInOrder(meta: map<Key, Meta>, keys: seq<Key>)
    ensures |Results(meta, keys)| == |keys|
    ensures forall i :: 0 <= i < |keys| ==> Results(meta, keys)[i] == ResultOf(meta, keys[i])
  {
    if keys != [] {
      ResultsInOrder(meta, keys[1..]);
      forall i | 0 <= i < |keys| ensures Results(meta, keys)[i] == ResultOf(meta, keys[i]) {
        if i > 0 { assert keys[i] == keys[1..][i - 1]; }
      }
    }
  }

  /** What the owner of a join is sent when `key` resolves it. */
  function JoinAnswer(meta: map<Key, Meta>, g: Join, key: Key): Entry {
    if ClosesEarly(meta, g, key) then Delivery(StatusOf(meta, key), ResultOf(meta, key), g.owner, g.cont)
    else Resume(g.owner, g.cont, Many(Results(meta, g.keys)))
  }

  /** `x` answers join `g`: a gather that succeeds has all its waitables completed. */
  ghost predicate Answers(x: Item, meta: map<Key, Meta>, g: Join, key: Key, n: nat) {
    && x.order >= n && x.entry == JoinAnswer(meta, g, key) && x.prio == TaskPriority(meta, g.owner)
    && (!ClosesEarly(meta, g, key) ==> forall k :: k in g.keys ==> k in meta && meta[k].status.Completed?)
  }

  lemma WakeJoinAnswers(b: Board, held: set<Item>, meta: map<Key, Meta>, spot: Spots, cellKey: map<nat, Key>,
                        key: Key, w: Waiter, rest: seq<Waiter>, j: nat)
    requires key !in b.waiters
    requires BoardSound(OnBoard(b, key, [w] + rest), b.ready + held, meta, spot, cellKey, Some(key))
    requires j in b.joins && !b.joins[j].resolved
    ensures var b' := WakeOne(meta, b, key, w).0;
            && j in b'.joins
               && b'.joins[j] == b.joins[j].(remaining := b'.joins[j].remaining, resolved := b'.joins[j].resolved)
            && (b'.joins[j].resolved ==> exists x :: x in b'.ready && Answers(x, meta, b.joins[j], key, b.nextSeq))
  {
    var b1 := Claim(b, w.cell);
    var g := b.joins[j];
    if OfJoin(w, j) {
      var x := Item(TaskPriority(meta, g.owner), b.nextSeq, JoinAnswer(meta, g, key));
      if ClosesEarly(meta, g, key) {
        assert x in CloseJoin(meta, b1, j, key).ready;
        assert Answers(x, meta, g, key, b.nextSeq);
      } else if g.remaining == 1 {
        LastRegistration(b, meta, key, w, rest);
        assert x in FinishGather(meta, b1, j).ready;
        assert Answers(x, meta, g, key, b.nextSeq);
      }
    }
  }

  lemma {:induction false} WakeAllAnswers(b: Board, held: set<Item>, meta: map<Key, Meta>, spot: Spots,
                                          cellKey: map<nat, Key>,
                                          key: Key, ws: seq<Waiter>, j: nat)
    requires key !in b.waiters
    requires BoardSound(OnBoard(b, key, ws), b.ready + held, meta, spot, cellKey, Some(key))
    requires j in b.joins && !b.joins[j].resolved
    ensures var b' := WakeAll(meta, b, key, ws).0;
            && j in b'.joins
               && b'.joins[j] == b.joins[j].(remaining := b'.joins[j].remaining, resolved := b'.joins[j].resolved)
            && (b'.joins[j].resolved ==> exists x :: x in b'.ready && Answers(x, meta, b.joins[j], key, b.nextSeq))
    decreases |ws|
  {
    if ws != [] {
      var b1 := WakeOne(meta, b, key, ws[0]).0;
      assert ws == [ws[0]] + ws[1..];
      WakeJoinAnswers(b, held, meta, spot, cellKey, key, ws[0], ws[1..], j);
      var spot1 := WakeOneSound(b, held, meta, spot, cellKey, key, ws[0], ws[1..]);
      WakeOneAdds(meta, b, key, ws[0]);
      WakeAllAdds(meta, b1, key, ws[1..]);
      if b1.joins[j].resolved {
        ResolvedStays(meta, b1, key, ws[1..], j);
        var x :| x in b1.ready && Answers(x, meta, b.joins[j], key, b.nextSeq);
        assert x in WakeAll(meta, b, key, ws).0.ready;
      } else {
        WakeAllAnswers(b1, held, meta, spot1, cellKey, key, ws[1..], j);
        SameAnswer(meta, b.joins[j], b1.joins[j], key, b.nextSeq, b1.nextSeq);
      }
    }
  }

  lemma SameAnswer(meta: map<Key, Meta>, g: Join, g': Join, key: Key, n: nat, n': nat)
    requires g' == g.(remaining := g'.remaining, resolved := g'.resolved) && n <= n'
    ensures forall x :: Answers(x, meta, g', key, n') ==> Answers(x, meta, g, key, n)
  {
  }

  lemma {:induction false} ResolvedStays(meta: map<Key, Meta>, b: Board, key: Key, ws: seq<Waiter>, j: nat)
    requires j in b.joins && b.joins[j].resolved
    ensures j in WakeAll(meta, b, key, ws).0.joins && WakeAll(meta, b, key, ws).0.joins[j] == b.joins[j]
    decreases |ws|
  {
    if ws != [] {
      var b1 := WakeOne(meta, b, key, ws[0]).0;
      assert j in b1.joins && b1.joins[j] == b.joins[j];
      ResolvedStays(meta, b1, key, ws[1..], j);
    }
  }

  /** When `key` becomes terminal, an unresolved gather or race that waits for it is answered
      as follows: a race at once, a gather at once with the error of a failed or cancelled
      key, and otherwise exactly when its last waitable has completed, with all results in
      argument order.  Unresolved, it keeps its remaining registrations (`GathersAreCounted`). */
  lemma JoinsAreAnswered(s: State, spot: Spots, cellKey: map<nat, Key>, key: Key, st: Status, v: Value, j: nat)
    requires Sound(s, s.board.ready, spot, cellKey)
    requires key in s.meta && !Terminal(s.meta[key].status) && Terminal(st)
    requires st.Cancelled? || key.PromiseKey? || Of(key.id) !in spot
    requires j in s.board.joins && !s.board.joins[j].resolved
    ensures var s' := Resolve(s, key, st, v).0; var g := s.board.joins[j];
            && j in s'.board.joins
            && (s'.board.joins[j].resolved <==>
                  if key !in g.keys then false
                  else g.kind.RaceJoin? || !st.Completed? || forall k :: k in g.keys ==> s'.meta[k].status.Completed?)
            && (s'.board.joins[j].resolved ==>
                 exists x :: x in s'.board.ready && Answers(x, s'.meta, g, key, s.board.nextSeq))
  {
    var meta := WithStatus(s.meta, key, st, v);
    var b := s.board;
    var b' := Wake(meta, b, key).0;
    assert b.ready + {} == b.ready && b'.ready + {} == b'.ready;
    BoardAtTerminal(b, b.ready, s.meta, spot, cellKey, key, st, v);
    JoinsAreAnsweredOnWake(b, meta, spot, cellKey, key, j);
    RegisteredIfAwaited(b, s.meta, key, j);
  }

  lemma RegisteredIfAwaited(b: Board, meta: map<Key, Meta>, key: Key, j: nat)
    requires JoinsCounted(b.waiters, b.joins, meta, None) && j in b.joins && !b.joins[j].resolved
    requires key in meta && !Terminal(meta[key].status)
    ensures key in b.joins[j].keys <==> Count(RegsAt(b.waiters, key), j) > 0
    ensures forall k :: k in b.joins[j].keys ==> k in meta
  {
    assert Counted(b.waiters, j, b.joins[j], meta, None);
    OccurrencesPositive(b.joins[j].keys, key);
  }

  lemma JoinsAreAnsweredOnWake(b: Board, meta: map<Key, Meta>, spot: Spots, cellKey: map<nat, Key>, key: Key, j: nat)
    requires BoardSound(b, b.ready, meta, spot, cellKey, Some(key))
    requires j in b.joins && !b.joins[j].resolved
    ensures var b' := Wake(meta, b, key).0; var g := b.joins[j];
            && j in b'.joins
            && (b'.joins[j].resolved ==> exists x :: x in b'.ready && Answers(x, meta, g, key, b.nextSeq))
            && (Count(RegsAt(b.waiters, key), j) == 0 ==> !b'.joins[j].resolved)
            && (!b'.joins[j].resolved ==>
                  && (exists k :: k in g.keys && !Terminal(StatusOf(meta, k)))
                  && (forall k :: k in g.keys ==>
                       k in meta && (Terminal(meta[k].status) ==> g.kind.GatherJoin? && meta[k].status.Completed?)))
  {
    var b1 := b.(waiters := b.waiters - {key});
    var ws := RegsAt(b.waiters, key);
    var b' := Wake(meta, b, key).0;
    assert b.ready + {} == b.ready && b'.ready + {} == b'.ready;
    assert Listed(b1.waiters, key, ws) == b.waiters;
    assert OnBoard(b1, key, ws) == b;
    WakeAllAnswers(b1, {}, meta, spot, cellKey, key, ws, j);
    var spot' := WakeSound(b, {}, meta, spot, cellKey, key);
    CountPositive(ws, j);
    if Count(ws, j) == 0 {
      UntouchedJoin(meta, b1, key, ws, j);
    }
    if !b'.joins[j].resolved {
      StillWaiting(b', meta, j, b.joins[j].keys);
    }
  }

  lemma StillWaiting(b: Board, meta: map<Key, Meta>, j: nat, keys: seq<Key>)
    requires JoinsCounted(b.waiters, b.joins, meta, None) && j in b.joins && !b.joins[j].resolved
    requires b.joins[j].keys == keys
    ensures exists k :: k in keys && !Terminal(StatusOf(meta, k))
    ensures forall k :: k in keys ==>
              k in meta && (Terminal(meta[k].status) ==> b.joins[j].kind.GatherJoin? && meta[k].status.Completed?)
  {
    assert Counted(b.waiters, j, b.joins[j], meta, None);
    var k := SomeOutstanding(meta, keys);
  }

  lemma {:induction false} UntouchedJoin(meta: map<Key, Meta>, b: Board, key: Key, ws: seq<Waiter>, j: nat)
    requires j in b.joins && forall w :: w in ws ==> !OfJoin(w, j)
    ensures j in WakeAll(meta, b, key, ws).0.joins && WakeAll(meta, b, key, ws).0.joins[j] == b.joins[j]
    decreases |ws|
  {
    if ws != [] {
      var b1 := WakeOne(meta, b, key, ws[0]).0;
      assert !OfJoin(ws[0], j);
      assert j in b1.joins && b1.joins[j] == b.joins[j];
      UntouchedJoin(meta, b1, key, ws[1..], j);
    }
  }
}
