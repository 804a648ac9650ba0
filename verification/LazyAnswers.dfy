/** Concurrent asks are answered: a key without a value is evaluated by whoever asks for it, unless
    somebody else gets there first, and the answer is the value kept or how that evaluation ended. */
module LazyAnswers {
  import opened LazyOnce
  import opened SchedulerHolders
  import opened Wrappers

  /** A value other than `None` is kept for `key`. */
  predicate Kept(y: Asks, key: Key) { key in y.cache && y.cache[key] != LazyAsk.NoneValue }

  // ---- Asking --------------------------------------------------------------

  lemma AskTouches(y: Asks, key: Key)
    requires Enabled(y, Ask(key))
    ensures var z, o := Step(y, Ask(key)), y.sched.phase.owner;
            && z.sched == y.sched && z.cache == y.cache && z.sems == y.sems && z.successes == y.successes
            && (forall p :: p != o ==> TaskOf(z, p) == TaskOf(y, p)) && Now(z).evaluating == Now(y).evaluating
  {
  }

  lemma AskHits(y: Asks, key: Key)
    requires Enabled(y, Ask(key))
    ensures var z := Step(y, Ask(key));
            && Busy(z) && (Now(z).stage.Idle? <==> Kept(y, key))
            && (Kept(y, key) ==> Now(z).answer == Some(Answer(key, Some(y.cache[key]))))
  {
  }

  /** An Ask goes on at once, with the value kept, if and only if there is one other than `None`; it
      never touches the scheduler by itself. */
  lemma AskGoesOnIff(acts: seq<Action>, key: Key)
    requires Possible(START, acts) && Enabled(After(START, acts), Ask(key))
    ensures var y := After(START, acts); var z, o := Step(y, Ask(key)), y.sched.phase.owner;
            && z.sched == y.sched && z.cache == y.cache && z.sems == y.sems && z.successes == y.successes
            && (forall p :: p != o ==> TaskOf(z, p) == TaskOf(y, p)) && Now(z).evaluating == Now(y).evaluating
            && (Now(z).stage.Idle? <==> Kept(y, key))
            && (Kept(y, key) ==> Now(z).answer == Some(Answer(key, Some(y.cache[key]))))
  {
    AskTouches(After(START, acts), key);
    AskHits(After(START, acts), key);
  }

  /** The asking task is in the program of `key` now. */
  predicate Started(y: Asks, z: Asks, o: Owner, key: Key) {
    && z.sched.phase == Steps.Executing(o)
    && TaskOf(z, o).stage.Idle? && TaskOf(z, o).evaluating == TaskOf(y, o).evaluating + [key]
  }

  /** It waits for the permit, which is not free. */
  predicate WaitsItsTurn(y: Asks, z: Asks, o: Owner, key: Key) {
    && z.sched.phase.Entering? && TaskOf(z, o).stage.Waiting? && TaskOf(z, o).stage.key == key
    && TaskOf(z, o).evaluating == TaskOf(y, o).evaluating
    && key in y.sems && y.sems[key] in y.sched.s.sems && y.sched.s.sems[y.sems[key]].permits == 0
  }

  predicate HandlersOwn(acts: seq<Action>) { forall a :: a in acts ==> !a.Other? }

  // ---- From the Ask to the program -----------------------------------------

  lemma First(y: Asks, a: Action, own: seq<Action>)
    requires Enabled(y, a) && Possible(Step(y, a), own)
    ensures Possible(y, [a] + own) && After(y, [a] + own) == After(Step(y, a), own)
  {
    assert ([a] + own)[1..] == own;
  }

  lemma Only(y: Asks, a: Action)
    requires Enabled(y, a)
    ensures Possible(y, [a]) && After(y, [a]) == Step(y, a)
  {
    assert [a] + [] == [a];
    First(y, a, []);
  }

  /** Past the acquisition without a value: the program starts. */
  lemma CheckStarts(y: Asks, key: Key)
    requires Tied(y) && Busy(y) && Now(y).stage == Checking(key) && !Kept(y, key)
    ensures Enabled(y, Check) && Started(y, Step(y, Check), y.sched.phase.owner, key)
  {
    NextIsEnabled(y);
  }

  lemma AcquireReplies(y: Asks, key: Key)
    requires Tied(y) && Busy(y) && Now(y).stage == Acquiring(key)
    ensures Enabled(y, Acquire) && key in y.sems && y.sems[key] in y.sched.s.sems
    ensures ReplyTo(y.sched, Steps.Acquire(y.sems[key])).Suspended? <==> y.sched.s.sems[y.sems[key]].permits <= 0
  {
    NextIsEnabled(y);
    assert TaskSound(y, y.sched.phase.owner, Now(y));
    Conservation.DrainSems(y.sched.s);
  }

  lemma PermitsCounted(y: Asks, key: Key, spot: Invariant.Spots, cellKey: map<nat, Model.Key>)
    requires Inv(y, spot, cellKey) && key in y.sems
    ensures y.sems[key] in y.sched.s.sems && y.sched.s.sems[y.sems[key]].permits >= 0
  {
    assert IsLock(y.sched, y.sems[key]);
  }

  lemma AcquireTakes(y: Asks, key: Key)
    requires Tied(y) && Busy(y) && Now(y).stage == Acquiring(key) && key in y.sems
    requires y.sems[key] in y.sched.s.sems && y.sched.s.sems[y.sems[key]].permits > 0
    ensures Enabled(y, Acquire)
    ensures var z := Step(y, Acquire);
            z.sched.phase == y.sched.phase && z.cache == y.cache && Now(z) == Now(y).(stage := Checking(key))
  {
    AcquireReplies(y, key);
  }

  /** With a free permit. */
  lemma AcquireStarts(y: Asks, key: Key, spot: Invariant.Spots, cellKey: map<nat, Model.Key>)
    requires Inv(y, spot, cellKey) && Busy(y) && Now(y).stage == Acquiring(key) && !Kept(y, key)
    requires key in y.sems && y.sems[key] in y.sched.s.sems && y.sched.s.sems[y.sems[key]].permits > 0
    ensures Possible(y, [Acquire] + [Check]) && Started(y, After(y, [Acquire] + [Check]), y.sched.phase.owner, key)
  {
    AcquireTakes(y, key);
    AcquireKeeps(y, spot, cellKey);
    CheckStarts(Step(y, Acquire), key);
    Only(Step(y, Acquire), Check);
    First(y, Acquire, [Check]);
  }

  lemma AcquireLeads(y: Asks, key: Key, spot: Invariant.Spots, cellKey: map<nat, Model.Key>) returns (own: seq<Action>)
    requires Inv(y, spot, cellKey) && Busy(y) && Now(y).stage == Acquiring(key) && !Kept(y, key)
    ensures HandlersOwn(own) && Possible(y, own)
    ensures var z, o := After(y, own), y.sched.phase.owner; Started(y, z, o, key) || WaitsItsTurn(y, z, o, key)
  {
    AcquireReplies(y, key);
    PermitsCounted(y, key, spot, cellKey);
    if y.sched.s.sems[y.sems[key]].permits > 0 {
      own := [Acquire] + [Check];
      AcquireStarts(y, key, spot, cellKey);
    } else {
      own := [Acquire];
      Only(y, Acquire);
    }
  }

  lemma FreshPermit(s: Model.State, live: set<nat>)
    ensures var (s', r) := Steps.HandleSemaphore(s, 1, live);
            r.Resumed? ==> r.value.SemaphoreHandle? && r.value.sid in s'.sems && s'.sems[r.value.sid].permits == 1
  {
  }

  /** A key's first semaphore has its permit free. */
  lemma CreateLeads(y: Asks, key: Key, spot: Invariant.Spots, cellKey: map<nat, Model.Key>)
    requires Inv(y, spot, cellKey) && Busy(y) && Now(y).stage == Missed(key)
    ensures Enabled(y, Create)
    ensures var z := Step(y, Create);
            && z.sched.phase == y.sched.phase && z.cache == y.cache && Now(z).evaluating == Now(y).evaluating
            && Now(z).stage.Created? && Now(z).stage.key == key
            && Now(z).stage.sid in z.sched.s.sems && z.sched.s.sems[Now(z).stage.sid].permits == 1
  {
    CreatingGoesOn(y.sched, true, spot, cellKey);
    FreshPermit(Model.Drain(y.sched.s), y.sched.handles.Keys);
  }

  lemma BindLeads(y: Asks, key: Key, spot: Invariant.Spots, cellKey: map<nat, Model.Key>)
    requires Inv(y, spot, cellKey) && Busy(y) && Now(y).stage.Created? && Now(y).stage.key == key && !Kept(y, key)
    requires Now(y).stage.sid in y.sched.s.sems && y.sched.s.sems[Now(y).stage.sid].permits == 1
    ensures Possible(y, [Bind] + ([Acquire] + [Check]))
    ensures Started(y, After(y, [Bind] + ([Acquire] + [Check])), y.sched.phase.owner, key)
  {
    BindKeeps(y);
    AcquireStarts(Step(y, Bind), key, spot, cellKey);
    First(y, Bind, ([Acquire] + [Check]));
  }

  lemma SameStart(y: Asks, y1: Asks, z: Asks, o: Owner, key: Key)
    requires Started(y1, z, o, key) && TaskOf(y1, o).evaluating == TaskOf(y, o).evaluating
    ensures Started(y, z, o, key)
  {
  }

  /** The semaphore is made, and its permit free. */
  ghost predicate JustCreated(y: Asks, y1: Asks, key: Key) {
    && y1.sched.phase == y.sched.phase && Busy(y1) && Now(y1).stage.Created? && Now(y1).stage.key == key
    && Now(y1).stage.sid in y1.sched.s.sems && y1.sched.s.sems[Now(y1).stage.sid].permits == 1
    && Now(y1).evaluating == TaskOf(y, y1.sched.phase.owner).evaluating && !Kept(y1, key)
  }

  lemma Creates(y: Asks, key: Key, spot: Invariant.Spots, cellKey: map<nat, Model.Key>)
    returns (spot1: Invariant.Spots, cellKey1: map<nat, Model.Key>)
    requires Inv(y, spot, cellKey) && Busy(y) && Now(y).stage == Missed(key) && !Kept(y, key)
    ensures Enabled(y, Create) && Inv(Step(y, Create), spot1, cellKey1) && JustCreated(y, Step(y, Create), key)
  {
    CreateLeads(y, key, spot, cellKey);
    spot1, cellKey1 := StepKeeps(y, Create, spot, cellKey);
  }

  lemma CreatedLeads(y: Asks, y1: Asks, key: Key, spot: Invariant.Spots, cellKey: map<nat, Model.Key>)
    requires Enabled(y, Create) && y1 == Step(y, Create) && Inv(y1, spot, cellKey) && JustCreated(y, y1, key)
    ensures var own := [Create] + ([Bind] + ([Acquire] + [Check]));
            HandlersOwn(own) && Possible(y, own) && Started(y, After(y, own), y.sched.phase.owner, key)
  {
    BindLeads(y1, key, spot, cellKey);
    First(y, Create, [Bind] + ([Acquire] + [Check]));
    SameStart(y, y1, After(y1, [Bind] + ([Acquire] + [Check])), y.sched.phase.owner, key);
  }

  lemma MissLeads(y: Asks, key: Key, spot: Invariant.Spots, cellKey: map<nat, Model.Key>) returns (own: seq<Action>)
    requires Inv(y, spot, cellKey) && Busy(y) && Now(y).stage == Missed(key) && !Kept(y, key)
    ensures HandlersOwn(own) && Possible(y, own) && Started(y, After(y, own), y.sched.phase.owner, key)
  {
    var spot1, cellKey1 := Creates(y, key, spot, cellKey);
    CreatedLeads(y, Step(y, Create), key, spot1, cellKey1);
    own := [Create] + ([Bind] + ([Acquire] + [Check]));
  }

  lemma AskMisses(y: Asks, key: Key)
    requires Enabled(y, Ask(key)) && !Kept(y, key)
    ensures var z := Step(y, Ask(key));
            && z.sched == y.sched && z.cache == y.cache && z.sems == y.sems
            && Now(z).evaluating == Now(y).evaluating
            && Now(z).stage == if key in y.sems then Acquiring(key) else Missed(key)
  {
  }

  lemma MissOrAcquireLeads(y: Asks, key: Key, spot: Invariant.Spots, cellKey: map<nat, Model.Key>)
    returns (own: seq<Action>)
    requires Inv(y, spot, cellKey) && Busy(y) && !Kept(y, key)
    requires Now(y).stage == if key in y.sems then Acquiring(key) else Missed(key)
    ensures HandlersOwn(own) && Possible(y, own)
    ensures var z, o := After(y, own), y.sched.phase.owner; Started(y, z, o, key) || WaitsItsTurn(y, z, o, key)
  {
    if key in y.sems {
      own := AcquireLeads(y, key, spot, cellKey);
    } else {
      own := MissLeads(y, key, spot, cellKey);
    }
  }

  lemma AskingLeads(y: Asks, key: Key, spot: Invariant.Spots, cellKey: map<nat, Model.Key>) returns (own: seq<Action>)
    requires Inv(y, spot, cellKey) && Enabled(y, Ask(key)) && !Kept(y, key)
    ensures own != [] && own[0] == Ask(key) && HandlersOwn(own) && Possible(y, own)
    ensures var z, o := After(y, own), y.sched.phase.owner; Started(y, z, o, key) || WaitsItsTurn(y, z, o, key)
  {
    var spot1, cellKey1 := StepKeeps(y, Ask(key), spot, cellKey);
    AskMisses(y, key);
    var rest := MissOrAcquireLeads(Step(y, Ask(key)), key, spot1, cellKey1);
    own := [Ask(key)] + rest;
    First(y, Ask(key), rest);
  }

  /** An Ask that finds no value other than `None` leads the asking task, through nothing but the
      handler's own steps, into the program of the key, or to waiting for a permit that is not free. */
  lemma AskLeadsOn(acts: seq<Action>, key: Key) returns (own: seq<Action>)
    requires Possible(START, acts) && Enabled(After(START, acts), Ask(key)) && !Kept(After(START, acts), key)
    ensures own != [] && own[0] == Ask(key) && HandlersOwn(own) && Possible(After(START, acts), own)
    ensures var y := After(START, acts); var z, o := After(y, own), y.sched.phase.owner;
            Started(y, z, o, key) || WaitsItsTurn(y, z, o, key)
  {
    StartIsSound();
    var spot, cellKey := RunKeeps(START, acts, map[], map[]);
    own := AskingLeads(After(START, acts), key, spot, cellKey);
  }

  // ---- After waiting -------------------------------------------------------

  /** Somewhere along the run `o` has got the permit of `key` and looks into the cache again. */
  ghost predicate GetsItsTurn(y: Asks, acts: seq<Action>, o: Owner, key: Key)
    requires Possible(y, acts)
    decreases |acts|
  {
    || (y.sched.phase == Steps.Executing(o) && TaskOf(y, o).stage == Checking(key))
    || (acts != [] && GetsItsTurn(Step(y, acts[0]), acts[1..], o, key))
  }

  lemma StepWaits(y: Asks, a: Action, o: Owner)
    requires Tied(y) && Enabled(y, a) && TaskOf(y, o).stage.Waiting?
    ensures var z := Step(y, a);
            || TaskOf(z, o) == TaskOf(y, o)
            || (z.sched.phase == Steps.Executing(o)
                && TaskOf(z, o) == TaskOf(y, o).(stage := Checking(TaskOf(y, o).stage.key)))
  {
    assert TaskSound(y, o, TaskOf(y, o));
    if a.Other? {
      OtherMovesTask(y, a.a, o);
    }
  }

  lemma OtherMovesTask(y: Asks, a: Steps.Action, o: Owner)
    requires Enabled(y, Other(a))
    ensures var z := Step(y, Other(a));
            || TaskOf(z, o) == TaskOf(y, o)
            || (z.sched.phase == Steps.Executing(o) && TaskOf(y, o).stage.Waiting?
                && TaskOf(z, o) == TaskOf(y, o).(stage := Checking(TaskOf(y, o).stage.key)))
  {
  }

  /** Whoever waits for the permit of a key waits on, or comes to look into the cache again. */
  lemma {:induction false} RunWaits(y: Asks, acts: seq<Action>, o: Owner, spot: Invariant.Spots,
                                    cellKey: map<nat, Model.Key>)
    requires Inv(y, spot, cellKey) && Possible(y, acts) && TaskOf(y, o).stage.Waiting?
    ensures TaskOf(After(y, acts), o) == TaskOf(y, o) || GetsItsTurn(y, acts, o, TaskOf(y, o).stage.key)
    decreases |acts|
  {
    if acts != [] {
      StepWaits(y, acts[0], o);
      var spot1, cellKey1 := StepKeeps(y, acts[0], spot, cellKey);
      if TaskOf(Step(y, acts[0]), o) == TaskOf(y, o) {
        RunWaits(Step(y, acts[0]), acts[1..], o, spot1, cellKey1);
      }
    }
  }

  lemma WaitersGoOn(acts: seq<Action>, more: seq<Action>, o: Owner)
    requires Possible(START, acts) && Possible(After(START, acts), more)
    requires TaskOf(After(START, acts), o).stage.Waiting?
    ensures var y := After(START, acts);
            TaskOf(After(y, more), o) == TaskOf(y, o) || GetsItsTurn(y, more, o, TaskOf(y, o).stage.key)
  {
    StartIsSound();
    var spot, cellKey := RunKeeps(START, acts, map[], map[]);
    RunWaits(After(START, acts), more, o, spot, cellKey);
  }

  /** Whoever has got the permit can go on at once: with the value kept by then, if there is one other
      than `None`, and into the program if there is none. */
  lemma TurnsLeadOn(acts: seq<Action>)
    requires Possible(START, acts) && Busy(After(START, acts)) && Now(After(START, acts)).stage.Checking?
    ensures var y := After(START, acts); var o, key := y.sched.phase.owner, Now(y).stage.key;
            && Enabled(y, Check)
            && if Kept(y, key) then
                 && Step(y, Check).sched.phase == y.sched.phase && Step(y, Check).cache == y.cache
                 && TaskOf(Step(y, Check), o) == Task(Now(y).evaluating, Idle, Some(Answer(key, Some(y.cache[key]))))
               else Started(y, Step(y, Check), o, key)
  {
    var y := After(START, acts);
    StartIsSound();
    var spot, cellKey := RunKeeps(START, acts, map[], map[]);
    NextIsEnabled(y);
    if Kept(y, Now(y).stage.key) {
      ReleasingGoesOn(y.sched, true, spot, cellKey, y.sems[Now(y).stage.key]);
    } else {
      CheckStarts(y, Now(y).stage.key);
    }
  }

  // ---- The end of an evaluation --------------------------------------------

  lemma GiveBackLeads(y: Asks, key: Key, result: Option<Value>, spot: Invariant.Spots, cellKey: map<nat, Model.Key>)
    requires Inv(y, spot, cellKey) && Busy(y) && Now(y).stage == Finished(key, result)
    ensures Enabled(y, Release)
    ensures var z := Step(y, Release);
            z.sched.phase == y.sched.phase && z.cache == y.cache && Now(z) == Now(y).(stage := Released(key, result))
  {
    NextIsEnabled(y);
    ReleasingGoesOn(y.sched, true, spot, cellKey, y.sems[key]);
  }

  lemma StoreLeads(y: Asks, key: Key, result: Option<Value>)
    requires Busy(y) && Now(y).stage == Released(key, result)
    ensures Possible(y, [Store])
    ensures var z := After(y, [Store]);
            && z.sched == y.sched
            && TaskOf(z, y.sched.phase.owner) == Task(Now(y).evaluating, Idle, Some(Answer(key, result)))
            && z.cache == if result.Some? then y.cache[key := result.value] else y.cache
  {
    Only(y, Store);
  }

  /** The semaphore is given back and the result kept. */
  lemma ReleaseLeads(y: Asks, key: Key, result: Option<Value>, spot: Invariant.Spots, cellKey: map<nat, Model.Key>)
    requires Inv(y, spot, cellKey) && Busy(y) && Now(y).stage == Finished(key, result)
    ensures Possible(y, [Release] + [Store])
    ensures var z := After(y, [Release] + [Store]);
            && z.sched.phase == y.sched.phase
            && TaskOf(z, y.sched.phase.owner) == Task(Now(y).evaluating, Idle, Some(Answer(key, result)))
            && z.cache == if result.Some? then y.cache[key := result.value] else y.cache
  {
    GiveBackLeads(y, key, result, spot, cellKey);
    StoreLeads(Step(y, Release), key, result);
    First(y, Release, [Store]);
  }

  lemma FinishLeads(y: Asks, result: Option<Value>)
    requires Enabled(y, Finish(result))
    ensures var z, n := Step(y, Finish(result)), |Now(y).evaluating| - 1;
            && z.sched == y.sched && z.cache == y.cache && Now(z).evaluating == Now(y).evaluating[..n]
            && Now(z).stage == Finished(Now(y).evaluating[n], result)
  {
  }

  lemma EndLeads(y: Asks, result: Option<Value>, spot: Invariant.Spots, cellKey: map<nat, Model.Key>)
    requires Inv(y, spot, cellKey) && Enabled(y, Finish(result))
    ensures Possible(y, [Finish(result)] + ([Release] + [Store]))
    ensures var z, o := After(y, [Finish(result)] + ([Release] + [Store])), y.sched.phase.owner;
            var n := |Now(y).evaluating| - 1;
            var key := Now(y).evaluating[n];
            && z.sched.phase == y.sched.phase
            && TaskOf(z, o) == Task(Now(y).evaluating[..n], Idle, Some(Answer(key, result)))
            && z.cache == if result.Some? then y.cache[key := result.value] else y.cache
  {
    FinishLeads(y, result);
    var spot1, cellKey1 := StepKeeps(y, Finish(result), spot, cellKey);
    ReleaseLeads(Step(y, Finish(result)), Now(y).evaluating[|Now(y).evaluating| - 1], result, spot1, cellKey1);
    First(y, Finish(result), [Release] + [Store]);
  }

  /** When the program of a key ends, the handler can answer the Ask it was started for at once, with its
      value, which is kept then, or with its error. */
  lemma EndsAreAnswered(acts: seq<Action>, result: Option<Value>) returns (own: seq<Action>)
    requires Possible(START, acts) && Enabled(After(START, acts), Finish(result))
    ensures own != [] && own[0] == Finish(result) && HandlersOwn(own) && Possible(After(START, acts), own)
    ensures var y := After(START, acts);
            var z, o, n := After(y, own), y.sched.phase.owner, |Now(y).evaluating| - 1;
            var key := Now(y).evaluating[n];
            && z.sched.phase == y.sched.phase
            && TaskOf(z, o) == Task(Now(y).evaluating[..n], Idle, Some(Answer(key, result)))
            && z.cache == if result.Some? then y.cache[key := result.value] else y.cache
  {
    StartIsSound();
    var spot, cellKey := RunKeeps(START, acts, map[], map[]);
    EndLeads(After(START, acts), result, spot, cellKey);
    own := [Finish(result)] + ([Release] + [Store]);
  }

  lemma {:induction false} GoingOn(y: Asks, acts: seq<Action>, more: seq<Action>)
    requires Possible(y, acts) && Possible(After(y, acts), more)
    ensures Possible(y, acts + more) && After(y, acts + more) == After(After(y, acts), more)
    decreases |acts|
  {
    if acts == [] {
      assert acts + more == more;
    } else {
      GoingOn(Step(y, acts[0]), acts[1..], more);
      assert (acts + more)[1..] == acts[1..] + more;
    }
  }

  lemma NotSettled(y: Asks, key: Key)
    requires Tied(y) && Busy(y) && key in Now(y).evaluating
    ensures !Kept(y, key)
  {
    assert TaskSound(y, y.sched.phase.owner, Now(y));
    assert Kept(y, key) ==> Settled(y, key);
  }

  lemma NotKept(acts: seq<Action>)
    requires Possible(START, acts) && Busy(After(START, acts)) && Now(After(START, acts)).evaluating != []
    ensures var y := After(START, acts); !Kept(y, Now(y).evaluating[|Now(y).evaluating| - 1])
  {
    var y := After(START, acts);
    StartIsSound();
    var spot, cellKey := RunKeeps(START, acts, map[], map[]);
    NotSettled(y, Now(y).evaluating[|Now(y).evaluating| - 1]);
  }

  /** If that is `None`, or an error, the next Ask evaluates again, or waits for somebody who does. */
  lemma NoneIsAskedAgain(acts: seq<Action>, result: Option<Value>) returns (ending: seq<Action>, own: seq<Action>)
    requires Possible(START, acts) && Enabled(After(START, acts), Finish(result))
    requires result.None? || result.value.NoneValue?
    ensures ending != [] && ending[0] == Finish(result) && HandlersOwn(ending) && Possible(After(START, acts), ending)
    ensures var y := After(START, acts); var x := After(y, ending);
            var o, key := y.sched.phase.owner, Now(y).evaluating[|Now(y).evaluating| - 1];
            && TaskOf(x, o).answer == Some(Answer(key, result))
            && own != [] && own[0] == Ask(key) && HandlersOwn(own) && Possible(x, own)
            && (Started(x, After(x, own), o, key) || WaitsItsTurn(x, After(x, own), o, key))
  {
    var y := After(START, acts);
    ending := EndsAreAnswered(acts, result);
    GoingOn(START, acts, ending);
    NotKept(acts);
    own := AskLeadsOn(acts + ending, Now(y).evaluating[|Now(y).evaluating| - 1]);
  }

  // ---- Answers are right ---------------------------------------------------

  /** How the last evaluation ended that `o` has finished along the run. */
  ghost function LastEnd(y: Asks, acts: seq<Action>, o: Owner): Option<Answer>
    requires Possible(y, acts)
    decreases |acts|
  {
    if acts == [] then None
    else
      var later := LastEnd(Step(y, acts[0]), acts[1..], o);
      if later.Some? then later
      else if acts[0].Finish? && y.sched.phase.owner == o then
        Some(Answer(Now(y).evaluating[|Now(y).evaluating| - 1], acts[0].result))
      else None
  }

  /** The end of an evaluation that is still to be answered. */
  function EndOf(task: Task): Option<Answer> {
    if task.stage.Finished? || task.stage.Released? then Some(Answer(task.stage.key, task.stage.result)) else None
  }

  lemma StepEnds(y: Asks, a: Action, o: Owner)
    requires Tied(y) && Enabled(y, a) && EndOf(TaskOf(Step(y, a), o)).Some?
    ensures var e := EndOf(TaskOf(Step(y, a), o));
            if a.Finish? && y.sched.phase.owner == o then
              e == Some(Answer(Now(y).evaluating[|Now(y).evaluating| - 1], a.result))
            else EndOf(TaskOf(y, o)) == e
  {
    if a.Other? {
      assert TaskSound(y, o, TaskOf(y, o));
      OtherMovesTask(y, a.a, o);
    } else {
      OwnEnds(y, a, o);
    }
  }

  lemma OwnEnds(y: Asks, a: Action, o: Owner)
    requires Enabled(y, a) && !a.Other? && EndOf(TaskOf(Step(y, a), o)).Some?
    ensures var e := EndOf(TaskOf(Step(y, a), o));
            if a.Finish? && y.sched.phase.owner == o then
              e == Some(Answer(Now(y).evaluating[|Now(y).evaluating| - 1], a.result))
            else EndOf(TaskOf(y, o)) == e
  {
  }

  lemma {:induction false} RunEnds(y: Asks, acts: seq<Action>, o: Owner, spot: Invariant.Spots,
                                   cellKey: map<nat, Model.Key>)
    requires Inv(y, spot, cellKey) && Possible(y, acts) && EndOf(TaskOf(After(y, acts), o)).Some?
    ensures var e, last := EndOf(TaskOf(After(y, acts), o)), LastEnd(y, acts, o);
            last == e || (last.None? && EndOf(TaskOf(y, o)) == e)
    decreases |acts|
  {
    if acts != [] {
      var spot1, cellKey1 := StepKeeps(y, acts[0], spot, cellKey);
      RunEnds(Step(y, acts[0]), acts[1..], o, spot1, cellKey1);
      if EndOf(TaskOf(Step(y, acts[0]), o)).Some? {
        StepEnds(y, acts[0], o);
      }
    }
  }

  lemma StepAnswers(y: Asks, a: Action, o: Owner)
    requires Enabled(y, a) && TaskOf(Step(y, a), o).answer.Some?
    requires TaskOf(Step(y, a), o).answer != TaskOf(y, o).answer
    ensures y.sched.phase == Steps.Executing(o)
    ensures var answer := TaskOf(Step(y, a), o).answer.value;
            || (Kept(y, answer.key) && answer.result == Some(y.cache[answer.key]))
            || (a.Store? && EndOf(TaskOf(y, o)) == Some(answer))
  {
    if a.Other? {
      OtherMovesTask(y, a.a, o);
    }
  }

  /** Whatever an Ask is answered with is the value other than `None` kept for its key, or how the asking
      task's own last evaluation, of that key, ended. */
  lemma AnswersAreRight(acts: seq<Action>, a: Action, o: Owner)
    requires Possible(START, acts) && Enabled(After(START, acts), a)
    requires var y := After(START, acts);
             TaskOf(Step(y, a), o).answer.Some? && TaskOf(Step(y, a), o).answer != TaskOf(y, o).answer
    ensures var y := After(START, acts); var answer := TaskOf(Step(y, a), o).answer.value;
            || (Kept(y, answer.key) && answer.result == Some(y.cache[answer.key]))
            || LastEnd(START, acts, o) == Some(answer)
  {
    var y := After(START, acts);
    StepAnswers(y, a, o);
    if EndOf(TaskOf(y, o)).Some? {
      StartIsSound();
      RunEnds(START, acts, o, map[], map[]);
    }
  }
}
