/** When `pick_next` blocks although a task could run: a permit travelling to a task cancelled since is
    returned only when its entry comes up, and from behind a standing placeholder it does not. */
module StarvedWaiter {
  import opened Wrappers
  import opened PickOrder
  import opened SchedulerInvariant
  import opened SchedulerModel
  import opened SchedulerSteps
  import Conservation = SchedulerConservation
  import Stray = StrayRelease

  // ---- Without daemons -----------------------------------------------------

  ghost predicate NoDaemons(s: State) { forall o: Owner :: !IsDaemon(s.meta, o) }

  /** Somebody who is not cancelled waits for a permit. */
  ghost predicate Waited(s: State, sid: nat) {
    sid in s.sems && exists p :: p in s.sems[sid].queue && !IsCancelled(s.meta, p.owner)
  }

  /** Something live is in the heap, or a permit that nobody will take and somebody waits for. */
  ghost predicate CouldGoOn(s: State) {
    || HasLive(s.meta, s.board.ready, true)
    || exists x :: x in Lost(s) && Waited(s, x.entry.sid)
  }

  /** ... and no standing placeholder comes before that permit. */
  ghost predicate GoesOn(s: State) {
    || HasLive(s.meta, s.board.ready, true)
    || exists x :: x in Lost(s) && Waited(s, x.entry.sid) && !StandsBefore(s, x)
  }

  lemma ReturnWakes(s: State, x: Item)
    requires x in Lost(s) && Waited(s, x.entry.sid)
    ensures HasLive(s.meta, GiveBack(s, x).board.ready, true)
  {
    var q := FromLive(s.meta, s.sems[x.entry.sid].queue);
    Conservation.SomebodyLive(s.meta, s.sems[x.entry.sid].queue);
    FromLiveIsLive(s.meta, s.sems[x.entry.sid].queue);
    var y := Item(TaskPriority(s.meta, q[0].owner), s.board.nextSeq, Permit(q[0].owner, q[0].cont, x.entry.sid));
    assert y in GiveBack(s, x).board.ready && LiveEntry(s.meta, y.entry);
  }

  lemma ReturnBanks(s: State, x: Item)
    requires x in Lost(s) && !Waited(s, x.entry.sid)
    ensures GiveBack(s, x).board.ready == s.board.ready - {x}
    ensures forall sid :: Waited(GiveBack(s, x), sid) <==> Waited(s, sid)
  {
    if x.entry.sid in s.sems {
      Conservation.SomebodyLive(s.meta, s.sems[x.entry.sid].queue);
    }
  }

  lemma StandsStill(s: State, x: Item, y: Item)
    requires x in Lost(s) && GiveBack(s, x).board.ready == s.board.ready - {x}
    ensures StandsBefore(GiveBack(s, x), y) <==> StandsBefore(s, y)
  {
    if StandsBefore(s, y) {
      var z :| z in s.board.ready && Before(z, y) && Standing(s.meta, s.board.claimed, z.entry);
      assert z in GiveBack(s, x).board.ready;
    }
  }

  lemma BankGoesOn(s: State, x: Item)
    requires x in Lost(s) && !Waited(s, x.entry.sid) && !HasLive(s.meta, s.board.ready, true)
    requires OrdersDistinct(s.board.ready, s.board.nextSeq)
    ensures GoesOn(GiveBack(s, x)) <==> GoesOn(s)
  {
    var t := GiveBack(s, x);
    ReturnsOne(s, x);
    ReturnBanks(s, x);
    if y :| y in Lost(s) && Waited(s, y.entry.sid) && !StandsBefore(s, y) {
      StandsStill(s, x, y);
      assert y in Lost(t);
    }
    if y :| y in Lost(t) && Waited(t, y.entry.sid) && !StandsBefore(t, y) {
      StandsStill(s, x, y);
      assert y in Lost(s);
    }
  }

  /** Returning the first lost permit makes no difference to that. */
  lemma ReturnGoesOn(r: Reading)
    requires ReturnsNext(r) && OrdersDistinct(r.s.board.ready, r.s.board.nextSeq) && NoDaemons(r.s)
    ensures GoesOn(GiveBack(r.s, Least(Lost(r.s)))) <==> GoesOn(r.s)
  {
    var s, x := r.s, Least(Lost(r.s));
    if HasLive(s.meta, s.board.ready, true) {
      var y :| y in s.board.ready && LiveEntry(s.meta, y.entry);
      ReturnsOne(s, x);
      assert y in GiveBack(s, x).board.ready;
    } else if Waited(s, x.entry.sid) {
      ReturnWakes(s, x);
    } else {
      BankGoesOn(s, x);
    }
  }

  lemma AllStandBehind(s: State)
    requires Lost(s) != {} && OrdersDistinct(s.board.ready, s.board.nextSeq) && StandsBefore(s, Least(Lost(s)))
    ensures forall x :: x in Lost(s) ==> StandsBefore(s, x)
  {
    var y := Least(Lost(s));
    forall x | x in Lost(s) && x != y ensures StandsBefore(s, x) {
      StandsFurtherOn(s, y, x);
    }
  }

  ghost predicate SomeEligible(r: Reading) { exists c :: Eligible(r, c) }

  lemma NothingReturns(r: Reading)
    requires !ReturnsNext(r) && NoDaemons(r.s) && OrdersDistinct(r.s.board.ready, r.s.board.nextSeq)
    ensures GoesOn(r.s) <==> SomeEligible(r)
  {
    if c :| Eligible(r, c) {
      assert HasLive(r.s.meta, r.s.board.ready, true);
    }
    if c :| c in r.s.board.ready && LiveEntry(r.s.meta, c.entry) {
      assert Eligible(r, c);
    }
    if Lost(r.s) != {} && StandsBefore(r.s, Least(Lost(r.s))) {
      AllStandBehind(r.s);
    }
  }

  lemma {:induction false} ReadingGoesOn(r: Reading)
    requires OrdersDistinct(r.s.board.ready, r.s.board.nextSeq) && NoDaemons(r.s)
    ensures GoesOn(r.s) <==> SomeEligible(AfterReturns(r))
    decreases |Lost(r.s)|
  {
    if ReturnsNext(r) {
      var x := Least(Lost(r.s));
      ReturnsOne(r.s, x);
      SmallerSubset(Lost(GiveBack(r.s, x)), Lost(r.s));
      ReturnGoesOn(r);
      ReadingGoesOn(Reading(GiveBack(r.s, x), Some(x)));
      assert AfterReturns(r) == AfterReturns(Reading(GiveBack(r.s, x), Some(x)));
    } else {
      NothingReturns(r);
      assert AfterReturns(r) == r;
    }
  }

  /** The shield is there to starve daemons only.  Where nobody is a daemon it starves nobody but those
      who wait for a permit that is lost behind a standing placeholder. */
  lemma PicksWithoutDaemonsIff(s: State, diagnose: bool)
    requires OrdersDistinct(s.board.ready, s.board.nextSeq) && s.queue == [] && NoDaemons(s)
    ensures PickRun(s, {}, false, diagnose, []).Chosen? <==> GoesOn(s)
  {
    PicksIffEligible(s, diagnose);
    ReadingGoesOn(Reading(s, None));
  }

  // ---- A run that starves a waiter -----------------------------------------

  ghost predicate Reachable(y: System) {
    exists acts :: Possible(START, acts, true) && After(START, acts, true) == y
  }

  lemma {:induction false} OneMore(y: System, acts: seq<Action>, a: Action)
    requires Possible(y, acts, true) && Enabled(After(y, acts, true), a, true)
    ensures Possible(y, acts + [a], true) && After(y, acts + [a], true) == Step(After(y, acts, true), a, true)
    decreases |acts|
  {
    if acts == [] {
      assert [] + [a] == [a];
      assert [a][1..] == [];
    } else {
      OneMore(Step(y, acts[0], true), acts[1..], a);
      assert (acts + [a])[1..] == acts[1..] + [a];
    }
  }

  lemma Reaches(y: System, a: Action)
    requires Reachable(y) && Enabled(y, a, true)
    ensures Reachable(Step(y, a, true))
  {
    var acts :| Possible(START, acts, true) && After(START, acts, true) == y;
    OneMore(START, acts, a);
  }

  /** The processor goes from a suspended effect to the first entry of the heap. */
  lemma GoesTo(y: System, x: Item)
    requires Reachable(y) && y.phase.Entering? && y.s.queue == []
    requires IsLeast(y.s.board.ready, x) && LiveEntry(y.s.meta, x.entry)
    requires forall z :: z in y.s.board.ready ==> z == x || Before(x, z)
    ensures Reachable(y.(s := Start(Pop(y.s, x), x.entry), phase := Executing(EntryOwner(x.entry)),
                         spent := y.spent + EntryConts(x.entry)))
  {
    var y1 := y.(phase := Picking({}, false));
    Stray.Enters(y);
    Reaches(y, Enter);
    assert Least(y.s.board.ready) == x;
    assert Pop(y.s, x).board.ready + {} == Pop(y.s, x).board.ready;
    Reaches(y1, Dispatch);
  }

  /** An effect that creates nothing, with what its branch does. */
  lemma Does(y: System, e: Effect, s1: State, reply: Reply)
    requires Reachable(y) && y.phase.Executing? && y.s.queue == [] && WellTyped(y.s, y.phase.owner, e, y.handles)
    requires Handling(y.s, y.phase.owner, y.nextCont, e, y.handles.Keys, y.nextHandle) == (s1, reply)
    requires Created(y.s, e).None?
    ensures Reachable(y.(s := s1, phase := if reply.Suspended? then Entering else y.phase, nextCont := y.nextCont + 1,
                         spent := if reply.Suspended? then y.spent else y.spent + {y.nextCont}))
  {
    assert Drain(y.s) == y.s;
    Reaches(y, Perform(e));
  }

  lemma SpawnsIdle(s: State, o: Owner, k: nat, live: set<nat>, h: nat)
    requires s.nextId + 1 < HANDLE_SWEEP_INTERVAL && TaskKey(s.nextId) !in s.refs && s.pruneAt == map[]
    ensures var key, b := TaskKey(s.nextId), Enqueue(s.board, New(s.nextId), PRIORITY_IDLE);
            var meta := s.meta[key := TaskMeta(Pending)];
            HandleSpawn(s, o, k, PRIORITY_IDLE, false, live, h)
            == (s.(board := Enqueue(b, Resume(o, k, Handle(key)), TaskPriority(meta, o)), meta := meta,
                   nextId := s.nextId + 1, refs := s.refs[key := [h]]), Suspended)
  {
    assert FreshId(s, live) == s.(nextId := s.nextId + 1);
    assert [] + [h] == [h];
  }

  lemma CreatesExternal(s: State, live: set<nat>, h: nat)
    requires s.nextId + 1 < HANDLE_SWEEP_INTERVAL && PromiseKey(s.nextId) !in s.refs && s.pruneAt == map[]
    ensures var key := PromiseKey(s.nextId);
            HandleCreate(s, true, live, h)
            == (s.(meta := s.meta[key := PENDING], nextId := s.nextId + 1, refs := s.refs[key := [h]]),
                Resumed(Handle(key)))
  {
    assert FreshId(s, live) == s.(nextId := s.nextId + 1);
    assert [] + [h] == [h];
  }

  lemma ReleasePasses(s: State, o: Owner, sid: nat, p: Parked, rest: seq<Parked>)
    requires sid in s.sems && s.sems[sid].queue == [p] + rest && !IsCancelled(s.meta, p.owner)
    ensures var sem := s.sems[sid].(queue := rest, holders := s.sems[sid].holders + multiset{p.owner} - multiset{o});
            var board := Enqueue(s.board, Permit(p.owner, p.cont, sid), TaskPriority(s.meta, p.owner));
            HandleRelease(s, o, sid) == (s.(sems := s.sems[sid := sem], board := board), Resumed(Nothing))
  {
    assert ([p] + rest)[1..] == rest;
    var sem := s.sems[sid].(queue := rest, holders := s.sems[sid].holders + multiset{p.owner} - multiset{o});
    assert HandleRelease(s, o, sid).0.sems == s.sems[sid := sem];
  }

  // The root spawns HOLDER and waits for it.  HOLDER takes the permit of a semaphore, spawns GONE and
  // WAITER, both of which wait for it in that order, releases it, cancels GONE, to whom the permit is
  // on its way, and waits for an external promise.  All tasks but the root are idle ones.

  const HOLDER := Of(0)
  const GONE := Of(3)
  const WAITER := Of(4)
  const SID: nat := 1
  const PROMISE := PromiseKey(2)

  function TaskMeta(st: Status): Meta { Meta(st, Nothing, PRIORITY_IDLE, false, false) }

  const PENDING := Meta(Pending, Nothing, PRIORITY_NORMAL, false, true)
  const GAVE_UP := TaskMeta(Cancelled).(result := TaskCancelledError)

  const M0: map<Key, Meta> := map[TaskKey(0) := TaskMeta(Pending)]
  const M1: map<Key, Meta> := map[TaskKey(0) := TaskMeta(Running)]
  const M2: map<Key, Meta> := M1[PROMISE := PENDING]
  const M3: map<Key, Meta> := M2[TaskKey(3) := TaskMeta(Pending)]
  const M4: map<Key, Meta> := M2[TaskKey(3) := TaskMeta(Running)]
  const M5: map<Key, Meta> := M4[TaskKey(4) := TaskMeta(Pending)]
  const M6: map<Key, Meta> := M4[TaskKey(4) := TaskMeta(Running)]
  const M7: map<Key, Meta> := M6[TaskKey(3) := GAVE_UP]

  const R0: map<Key, seq<nat>> := map[TaskKey(0) := [0]]
  const R1: map<Key, seq<nat>> := R0[PROMISE := [1]]
  const R2: map<Key, seq<nat>> := R1[TaskKey(3) := [2]]
  const R3: map<Key, seq<nat>> := R2[TaskKey(4) := [3]]

  const H0: map<nat, Key> := map[0 := TaskKey(0)]
  const H1: map<nat, Key> := H0[1 := PROMISE]
  const H2: map<nat, Key> := H1[2 := TaskKey(3)]
  const H3: map<nat, Key> := H2[3 := TaskKey(4)]

  const NONE: map<Key, seq<Waiter>> := map[]
  const W: map<Key, seq<Waiter>> := map[TaskKey(0) := [Direct(Root, 1, None, None)]]

  const BACK_0 := Item(PRIORITY_NORMAL, 1, Resume(Root, 0, Handle(TaskKey(0))))
  const NEW_0 := Item(PRIORITY_IDLE, 0, New(0))
  const NEW_3 := Item(PRIORITY_IDLE, 2, New(3))
  const BACK_3 := Item(PRIORITY_IDLE, 3, Resume(HOLDER, 5, Handle(TaskKey(3))))
  const NEW_4 := Item(PRIORITY_IDLE, 4, New(4))
  const BACK_4 := Item(PRIORITY_IDLE, 5, Resume(HOLDER, 7, Handle(TaskKey(4))))
  const LOST := Item(PRIORITY_IDLE, 6, Permit(GONE, 6, SID))
  const SHIELD := Item(PRIORITY_EXTERNAL_WAIT, 7, Placeholder(HOLDER, PROMISE, 0))

  const FREE: map<nat, Sem> := map[SID := Sem(1, 1, [], multiset{})]
  const TAKEN: map<nat, Sem> := map[SID := Sem(0, 1, [], multiset{HOLDER})]
  const ONE: map<nat, Sem> := map[SID := Sem(0, 1, [Parked(GONE, 6)], multiset{HOLDER})]
  const TWO: map<nat, Sem> := map[SID := Sem(0, 1, [Parked(GONE, 6), Parked(WAITER, 8)], multiset{HOLDER})]
  const PASSED: map<nat, Sem> := map[SID := Sem(0, 1, [Parked(WAITER, 8)], multiset{GONE})]

  function At(ready: set<Item>, nextSeq: nat, waiters: map<Key, seq<Waiter>>, meta: map<Key, Meta>,
              sems: map<nat, Sem>, nextId: nat, refs: map<Key, seq<nat>>): State {
    State(Board(ready, nextSeq, waiters, map[], {}, 0), meta, sems, nextId, [], refs, map[])
  }

  const Y1 := System(At({NEW_0, BACK_0}, 2, NONE, M0, map[], 1, R0), Entering, 1, {}, H0, 1)
  const Y2 := System(At({NEW_0}, 2, NONE, M0, map[], 1, R0), Executing(Root), 1, {0}, H0, 1)
  const Y3 := System(At({NEW_0}, 2, W, M0, map[], 1, R0), Entering, 2, {0}, H0, 1)
  const Y4 := System(At({}, 2, W, M1, map[], 1, R0), Executing(HOLDER), 2, {0}, H0, 1)
  const Y5 := System(At({}, 2, W, M1, FREE, 2, R0), Executing(HOLDER), 3, {0, 2}, H0, 1)
  const Y6 := System(At({}, 2, W, M1, TAKEN, 2, R0), Executing(HOLDER), 4, {0, 2, 3}, H0, 1)
  const Y7 := System(At({}, 2, W, M2, TAKEN, 3, R1), Executing(HOLDER), 5, {0, 2, 3, 4}, H1, 2)
  const Y8 := System(At({NEW_3, BACK_3}, 4, W, M3, TAKEN, 4, R2), Entering, 6, {0, 2, 3, 4}, H2, 3)
  const Y9 := System(At({BACK_3}, 4, W, M4, TAKEN, 4, R2), Executing(GONE), 6, {0, 2, 3, 4}, H2, 3)
  const Y10 := System(At({BACK_3}, 4, W, M4, ONE, 4, R2), Entering, 7, {0, 2, 3, 4}, H2, 3)
  const Y11 := System(At({}, 4, W, M4, ONE, 4, R2), Executing(HOLDER), 7, {0, 2, 3, 4, 5}, H2, 3)
  const Y12 := System(At({NEW_4, BACK_4}, 6, W, M5, ONE, 5, R3), Entering, 8, {0, 2, 3, 4, 5}, H3, 4)
  const Y13 := System(At({BACK_4}, 6, W, M6, ONE, 5, R3), Executing(WAITER), 8, {0, 2, 3, 4, 5}, H3, 4)
  const Y14 := System(At({BACK_4}, 6, W, M6, TWO, 5, R3), Entering, 9, {0, 2, 3, 4, 5}, H3, 4)
  const Y15 := System(At({}, 6, W, M6, TWO, 5, R3), Executing(HOLDER), 9, {0, 2, 3, 4, 5, 7}, H3, 4)
  const Y16 := System(At({LOST}, 7, W, M6, PASSED, 5, R3), Executing(HOLDER), 10, {0, 2, 3, 4, 5, 7, 9}, H3, 4)
  const Y17 := System(At({LOST}, 7, W, M7, PASSED, 5, R3), Executing(HOLDER), 11, {0, 2, 3, 4, 5, 7, 9, 10}, H3, 4)
  const W18: map<Key, seq<Waiter>> := W[PROMISE := [Direct(HOLDER, 11, None, Some(0))]]
  const S18 := State(Board({LOST, SHIELD}, 8, W18, map[], {}, 1), M7, PASSED, 5, [], R3, map[])
  const Y18 := System(S18, Entering, 12, {0, 2, 3, 4, 5, 7, 9, 10}, H3, 4)

  lemma To1()
    ensures Reachable(Y1)
  {
    assert Possible(START, [], true) && After(START, [], true) == START;
    var e := Spawn(PRIORITY_IDLE, false);
    assert {} + {NEW_0} + {BACK_0} == {NEW_0, BACK_0};
    SpawnsIdle(START.s, Root, 0, {}, 0);
    Reaches(START, Perform(e));
  }

  lemma To2()
    ensures Reachable(Y2)
  {
    To1();
    GoesTo(Y1, BACK_0);
    assert {NEW_0, BACK_0} - {BACK_0} == {NEW_0};
    assert {} + {0} == {0};
  }

  lemma To3()
    ensures Reachable(Y3)
  {
    To2();
    assert H0[0] == TaskKey(0) && TaskKey(0) in H0.Values;
    assert [] + [Direct(Root, 1, None, None)] == [Direct(Root, 1, None, None)];
    assert NONE[TaskKey(0) := [Direct(Root, 1, None, None)]] == W;
    Does(Y2, Wait(TaskKey(0), None), Y3.s, Suspended);
  }

  lemma To4()
    ensures Reachable(Y4)
  {
    To3();
    GoesTo(Y3, NEW_0);
    assert {NEW_0} - {NEW_0} == {};
    assert {0} + {} == {0};
  }

  lemma To5()
    ensures Reachable(Y5)
  {
    To4();
    assert FreshId(Y4.s, H0.Keys) == Y4.s.(nextId := 2);
    assert {0} + {2} == {0, 2};
    Does(Y4, CreateSemaphore(1), Y5.s, Resumed(SemaphoreHandle(SID)));
  }

  lemma To6()
    ensures Reachable(Y6)
  {
    To5();
    assert multiset{} + multiset{HOLDER} == multiset{HOLDER};
    assert {0, 2} + {3} == {0, 2, 3};
    assert FREE[SID := TAKEN[SID]] == TAKEN;
    Does(Y5, Acquire(SID), Y6.s, Resumed(Nothing));
  }

  lemma To7()
    ensures Reachable(Y7)
  {
    To6();
    CreatesExternal(Y6.s, H0.Keys, 1);
    assert {0, 2, 3} + {4} == {0, 2, 3, 4};
    Reaches(Y6, Perform(CreateExternalPromise));
  }

  lemma To8()
    ensures Reachable(Y8)
  {
    To7();
    var e := Spawn(PRIORITY_IDLE, false);
    assert {} + {NEW_3} + {BACK_3} == {NEW_3, BACK_3};
    SpawnsIdle(Y7.s, HOLDER, 5, H1.Keys, 2);
    Reaches(Y7, Perform(e));
  }

  lemma To9()
    ensures Reachable(Y9)
  {
    To8();
    GoesTo(Y8, NEW_3);
    assert {NEW_3, BACK_3} - {NEW_3} == {BACK_3};
    assert Y8.spent + {} == Y8.spent;
    assert M3[TaskKey(3) := TaskMeta(Running)] == M4;
  }

  lemma To10()
    ensures Reachable(Y10)
  {
    To9();
    assert [] + [Parked(GONE, 6)] == [Parked(GONE, 6)];
    assert TAKEN[SID := ONE[SID]] == ONE;
    Does(Y9, Acquire(SID), Y10.s, Suspended);
  }

  lemma To11()
    ensures Reachable(Y11)
  {
    To10();
    GoesTo(Y10, BACK_3);
    assert {BACK_3} - {BACK_3} == {};
    assert {0, 2, 3, 4} + {5} == {0, 2, 3, 4, 5};
  }

  lemma To12()
    ensures Reachable(Y12)
  {
    To11();
    var e := Spawn(PRIORITY_IDLE, false);
    assert {} + {NEW_4} + {BACK_4} == {NEW_4, BACK_4};
    SpawnsIdle(Y11.s, HOLDER, 7, H2.Keys, 3);
    Reaches(Y11, Perform(e));
  }

  lemma To13()
    ensures Reachable(Y13)
  {
    To12();
    GoesTo(Y12, NEW_4);
    assert {NEW_4, BACK_4} - {NEW_4} == {BACK_4};
    assert Y12.spent + {} == Y12.spent;
    assert M5[TaskKey(4) := TaskMeta(Running)] == M6;
  }

  lemma To14()
    ensures Reachable(Y14)
  {
    To13();
    assert [Parked(GONE, 6)] + [Parked(WAITER, 8)] == [Parked(GONE, 6), Parked(WAITER, 8)];
    assert ONE[SID := TWO[SID]] == TWO;
    Does(Y13, Acquire(SID), Y14.s, Suspended);
  }

  lemma To15()
    ensures Reachable(Y15)
  {
    To14();
    GoesTo(Y14, BACK_4);
    assert {BACK_4} - {BACK_4} == {};
    assert {0, 2, 3, 4, 5} + {7} == {0, 2, 3, 4, 5, 7};
  }

  lemma PermitPasses()
    ensures HandleRelease(Y15.s, HOLDER, SID) == (Y16.s, Resumed(Nothing))
  {
    ReleasePasses(Y15.s, HOLDER, SID, Parked(GONE, 6), [Parked(WAITER, 8)]);
    assert PASSED == TWO[SID := PASSED[SID]];
    assert multiset{HOLDER} + multiset{GONE} - multiset{HOLDER} == multiset{GONE};
    assert {} + {LOST} == {LOST};
  }

  lemma To16()
    ensures Reachable(Y16)
  {
    To15();
    PermitPasses();
    assert {0, 2, 3, 4, 5, 7} + {9} == {0, 2, 3, 4, 5, 7, 9};
    Does(Y15, Release(SID), Y16.s, Resumed(Nothing));
  }

  lemma To17()
    ensures Reachable(Y17)
  {
    To16();
    assert H3[2] == TaskKey(3) && TaskKey(3) in H3.Values;
    assert W - {TaskKey(3)} == W;
    assert {0, 2, 3, 4, 5, 7, 9} + {10} == {0, 2, 3, 4, 5, 7, 9, 10};
    Does(Y16, Cancel(TaskKey(3)), Y17.s, Resumed(Nothing));
  }

  lemma To18()
    ensures Reachable(Y18)
  {
    To17();
    assert H3[1] == PROMISE && PROMISE in H3.Values;
    assert [] + [Direct(HOLDER, 11, None, Some(0))] == [Direct(HOLDER, 11, None, Some(0))];
    assert {LOST} + {SHIELD} == {LOST, SHIELD};
    Does(Y17, Wait(PROMISE, None), Y18.s, Suspended);
  }

  /** The detector sees nothing wrong: GONE, who holds the permit, is not parked. */
  lemma NotDoomed()
    ensures !Doomed(PASSED)
  {
    assert GONE in PASSED[SID].holders && !ParkedBehind(PASSED, Blocked(PASSED), GONE);
    assert KeepHopeless(PASSED, Blocked(PASSED)) == {};
    assert KeepHopeless(PASSED, {}) == {};
    assert Unreleasable(PASSED, {}) == {};
    assert Unreleasable(PASSED, Blocked(PASSED)) == Unreleasable(PASSED, {});
  }

  lemma ItBlocks()
    ensures PickTurn(S18, {}, false, true).Blocking?
  {
    assert Least({LOST, SHIELD}) == SHIELD;
    assert {LOST, SHIELD} - {SHIELD} == {LOST};
    assert LiveQueue(M7, [Parked(WAITER, 8)]) == [Parked(WAITER, 8)];
    assert PruneQueues(M7, PASSED) == PASSED;
    NotDoomed();
  }

  /** There is a run without any daemon in which `pick_next` blocks although a task waits for a permit
      that nobody else will take. */
  lemma AWaiterStarves() returns (acts: seq<Action>)
    ensures Possible(START, acts, true)
    ensures var y := After(START, acts, true);
            && y.phase == Picking({}, false) && PickTurn(y.s, {}, false, true).Blocking?
            && NoDaemons(y.s) && CouldGoOn(y.s)
  {
    To18();
    Stray.Enters(Y18);
    Reaches(Y18, Enter);
    acts :| Possible(START, acts, true) && After(START, acts, true) == Y18.(phase := Picking({}, false));
    ItBlocks();
    assert LOST in Lost(S18) && Parked(WAITER, 8) in S18.sems[SID].queue;
  }
}
