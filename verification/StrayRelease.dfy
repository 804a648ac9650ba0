/** A run in which a semaphore made with one permit ends up with two free ones: the root releases
    twice, and the waiter whom the first release served is cancelled before it runs. */
module StrayRelease {
  import opened SchedulerConservation
  import opened SchedulerModel
  import opened SchedulerSteps

  // ---- The states of the run -----------------------------------------------

  const TASK := TaskKey(1)
  const WAITER := Of(1)
  const META := Meta(Pending, Nothing, PRIORITY_NORMAL, false, false)
  const SPAWN := Spawn(PRIORITY_NORMAL, false)

  const NEW := Item(PRIORITY_NORMAL, 0, New(1))
  const BACK := Item(PRIORITY_NORMAL, 1, Resume(Root, 2, Handle(TASK)))
  const FLYING := Item(PRIORITY_NORMAL, 2, Permit(WAITER, 3, 0))
  const NEXT := Item(PRIORITY_NORMAL, 3, New(2))
  const LAST := Item(PRIORITY_NORMAL, 4, Resume(Root, 7, Handle(TaskKey(2))))

  const TASKS: map<Key, Meta> := map[TASK := META]
  const STARTED: map<Key, Meta> := map[TASK := META.(status := Running)]
  const CANCELLED: map<Key, Meta> := map[TASK := META.(status := Cancelled, result := TaskCancelledError)]

  const REFS: map<Key, seq<nat>> := map[TASK := [0]]
  const HANDLES: map<nat, Key> := map[0 := TASK]

  const TAKEN := Sem(0, 1, [], multiset{Root})
  const WAITING := Sem(0, 1, [Parked(WAITER, 3)], multiset{Root})
  const PASSED := Sem(0, 1, [], multiset{WAITER})
  const STRAY := Sem(1, 1, [], multiset{WAITER})

  /** Nobody waits for a waitable, and nothing is queued from outside. */
  function At(ready: set<Item>, nextSeq: nat, meta: map<Key, Meta>, sem: Sem, refs: map<Key, seq<nat>>,
              nextId: nat): State {
    State(Board(ready, nextSeq, map[], map[], {}, 0), meta, map[0 := sem], nextId, [], refs, map[])
  }

  const Y1 := System(At({}, 0, map[], Sem(1, 1, [], multiset{}), map[], 1), Executing(Root), 1, {0}, map[], 0)
  const Y2 := System(At({}, 0, map[], TAKEN, map[], 1), Executing(Root), 2, {0, 1}, map[], 0)
  const S3 := At({NEW, BACK}, 2, TASKS, TAKEN, REFS, 2)
  const Y3 := System(S3, Entering, 3, {0, 1}, HANDLES, 1)
  const Y4 := System(S3, Picking({}, false), 3, {0, 1}, HANDLES, 1)
  const Y5 := System(At({BACK}, 2, STARTED, TAKEN, REFS, 2), Executing(WAITER), 3, {0, 1}, HANDLES, 1)
  const S6 := At({BACK}, 2, STARTED, WAITING, REFS, 2)
  const Y6 := System(S6, Entering, 4, {0, 1}, HANDLES, 1)
  const Y7 := System(S6, Picking({}, false), 4, {0, 1}, HANDLES, 1)
  const Y8 := System(At({}, 2, STARTED, WAITING, REFS, 2), Executing(Root), 4, {0, 1, 2}, HANDLES, 1)
  const Y9 := System(At({FLYING}, 3, STARTED, PASSED, REFS, 2), Executing(Root), 5, {0, 1, 2, 4}, HANDLES, 1)
  const Y10 := System(At({FLYING}, 3, STARTED, STRAY, REFS, 2), Executing(Root), 6, {0, 1, 2, 4, 5}, HANDLES, 1)
  const Y11 := System(At({FLYING}, 3, CANCELLED, STRAY, REFS, 2), Executing(Root), 7, {0, 1, 2, 4, 5, 6}, HANDLES, 1)

  const S12 := At({FLYING, NEXT, LAST}, 5, CANCELLED[TaskKey(2) := META], STRAY, REFS[TaskKey(2) := [1]], 3)
  const Y12 := System(S12, Entering, 8, Y11.spent, HANDLES[1 := TaskKey(2)], 2)
  const Y13 := Y12.(phase := Picking({}, false))

  // ---- Step by step --------------------------------------------------------

  /** `y` can perform `e`, and that leads to `z`. */
  ghost predicate Performs(y: System, e: Effect, z: System) {
    Enabled(y, Perform(e), true) && Step(y, Perform(e), true) == z
  }

  lemma Creates()
    ensures Performs(START, CreateSemaphore(1), Y1)
  {
  }

  lemma Acquires()
    ensures Performs(Y1, Acquire(0), Y2)
  {
    assert multiset{} + multiset{Root} == multiset{Root};
    assert {0} + {1} == {0, 1};
  }

  lemma Spawns()
    ensures Performs(Y2, SPAWN, Y3)
  {
    assert {} + {NEW} + {BACK} == {NEW, BACK};
    assert [] + [0] == [0];
    assert Handling(Drain(Y2.s), Root, 2, SPAWN, {}, 0).0 == S3;
  }

  lemma Enters(y: System)
    requires y.phase.Entering? && y.s.queue == []
    ensures Enabled(y, Enter, true) && Step(y, Enter, true) == y.(phase := Picking({}, false))
  {
  }

  lemma TaskStarts()
    ensures Enabled(Y4, Dispatch, true) && Step(Y4, Dispatch, true) == Y5
  {
    assert Least({NEW, BACK}) == NEW;
    assert {NEW, BACK} - {NEW} + {} == {BACK};
    assert {0, 1} + {} == {0, 1};
  }

  lemma TaskWaits()
    ensures Performs(Y5, Acquire(0), Y6)
  {
    assert [] + [Parked(WAITER, 3)] == [Parked(WAITER, 3)];
  }

  lemma RootGoesOn()
    ensures Enabled(Y7, Dispatch, true) && Step(Y7, Dispatch, true) == Y8
  {
    assert Least({BACK}) == BACK;
    assert {BACK} - {BACK} + {} == {};
    assert {0, 1} + {2} == {0, 1, 2};
  }

  lemma Releases()
    ensures Performs(Y8, Release(0), Y9)
  {
    assert [Parked(WAITER, 3)][1..] == [];
    assert multiset{Root} + multiset{WAITER} - multiset{Root} == multiset{WAITER};
    assert {} + {FLYING} == {FLYING};
    assert {0, 1, 2} + {4} == {0, 1, 2, 4};
  }

  lemma ReleasesAgain()
    ensures Performs(Y9, Release(0), Y10) && Stray(Y9, Perform(Release(0)), 0)
  {
    assert multiset{WAITER} - multiset{Root} == multiset{WAITER};
    assert {0, 1, 2, 4} + {5} == {0, 1, 2, 4, 5};
  }

  lemma Cancels()
    ensures Performs(Y10, Cancel(TASK), Y11)
  {
    assert HANDLES[0] == TASK && TASK in HANDLES.Values;
    var none: map<Key, seq<Waiter>> := map[];
    assert none - {TASK} == none;
    assert {0, 1, 2, 4, 5} + {6} == {0, 1, 2, 4, 5, 6};
  }

  lemma SpawnsAgain()
    ensures Performs(Y11, SPAWN, Y12)
  {
    assert {FLYING} + {NEXT} + {LAST} == {FLYING, NEXT, LAST};
    assert [] + [1] == [1];
    assert Drain(Y11.s) == Y11.s && FreshId(Y11.s, HANDLES.Keys) == Y11.s.(nextId := 3);
    assert Handling(Drain(Y11.s), Root, 7, SPAWN, HANDLES.Keys, 1).0 == S12;
  }

  lemma Returns()
    ensures Enabled(Y13, Dispatch, true)
    ensures var s := Step(Y13, Dispatch, true).s; 0 in s.sems && s.sems[0].permits == 2 > s.sems[0].maxPermits
  {
    assert Least({FLYING, NEXT, LAST}) == FLYING;
    assert IsCancelled(S12.meta, WAITER);
  }

  // ---- The run -------------------------------------------------------------

  const ACTS: seq<Action> :=
    [Perform(CreateSemaphore(1)), Perform(Acquire(0)), Perform(SPAWN), Enter, Dispatch, Perform(Acquire(0)), Enter,
     Dispatch, Perform(Release(0)), Perform(Release(0)), Perform(Cancel(TASK)), Perform(SPAWN), Enter, Dispatch]

  /** The run from its `i`-th action on leaves two free permits of one. */
  ghost predicate MintsFrom(y: System, i: nat)
    requires i <= |ACTS|
  {
    && Possible(y, ACTS[i..], true)
    && var s := After(y, ACTS[i..], true).s;
       0 in s.sems && s.sems[0].permits == 2 > s.sems[0].maxPermits
  }

  lemma OneMoreAction(y: System, i: nat, z: System)
    requires i < |ACTS| && Enabled(y, ACTS[i], true) && Step(y, ACTS[i], true) == z && MintsFrom(z, i + 1)
    ensures MintsFrom(y, i)
  {
    assert ACTS[i..][0] == ACTS[i] && ACTS[i..][1..] == ACTS[i + 1..];
  }

  lemma LastActions()
    ensures MintsFrom(Y11, 11)
  {
    var y14 := Step(Y13, Dispatch, true);
    Returns();
    assert ACTS[14..] == [];
    OneMoreAction(Y13, 13, y14);
    Enters(Y12);
    OneMoreAction(Y12, 12, Y13);
    SpawnsAgain();
    OneMoreAction(Y11, 11, Y12);
  }

  lemma StrayActions()
    ensures MintsFrom(Y8, 8)
  {
    LastActions();
    Cancels();
    OneMoreAction(Y10, 10, Y11);
    ReleasesAgain();
    OneMoreAction(Y9, 9, Y10);
    Releases();
    OneMoreAction(Y8, 8, Y9);
  }

  lemma MiddleActions()
    ensures MintsFrom(Y6, 6)
  {
    StrayActions();
    RootGoesOn();
    OneMoreAction(Y7, 7, Y8);
    Enters(Y6);
    OneMoreAction(Y6, 6, Y7);
  }

  lemma EarlyActions()
    ensures MintsFrom(Y3, 3)
  {
    MiddleActions();
    TaskWaits();
    OneMoreAction(Y5, 5, Y6);
    TaskStarts();
    OneMoreAction(Y4, 4, Y5);
    Enters(Y3);
    OneMoreAction(Y3, 3, Y4);
  }

  lemma FirstActions()
    ensures MintsFrom(START, 0)
  {
    EarlyActions();
    Spawns();
    OneMoreAction(Y2, 2, Y3);
    Acquires();
    OneMoreAction(Y1, 1, Y2);
    Creates();
    OneMoreAction(START, 0, Y1);
  }

  /** A stray release can leave more free permits than the semaphore was made with. */
  lemma PermitsAreMinted()
    ensures Possible(START, ACTS, true)
    ensures var s := After(START, ACTS, true).s; 0 in s.sems && s.sems[0].permits == 2 > s.sems[0].maxPermits
  {
    FirstActions();
    assert ACTS[0..] == ACTS;
  }
}
