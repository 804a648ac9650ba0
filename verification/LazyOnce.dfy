/** Concurrent asks outside `Local` scopes, as programs of the scheduler: in every run each lazy key
    is evaluated with success at most once, although its semaphore is made on demand and released
    before the value is stored.  What makes this work is that creating a semaphore, acquiring a free
    permit and releasing one are answered at once (`SchedulerHolders`). */
module LazyOnce {
  import opened Wrappers
  import opened SchedulerHolders
  import Conservation = SchedulerConservation
  import Delivery = SchedulerDelivery
  import Invariant = SchedulerInvariant
  import LazyAsk
  import Model = SchedulerModel
  import Runs = SchedulerRuns
  import Safety = SchedulerSafety
  import Steps = SchedulerSteps

  type Key = LazyAsk.Key
  type Owner = Model.Owner
  type Value = LazyAsk.Value

  /** How far a task is with asking for a key: `None` is a failed evaluation. */
  datatype Stage =
    | Idle
    | Missed(key: Key)
    | Created(key: Key, sid: nat)
    | Acquiring(key: Key)
    | Waiting(key: Key, cont: nat)
    | Checking(key: Key)
    | Finished(key: Key, result: Option<Value>)
    | Released(key: Key, result: Option<Value>)

  /** An answer to an Ask: a value, or `None` where the error of the evaluation is thrown. */
  datatype Answer = Answer(key: Key, result: Option<Value>)

  /** `evaluating` are the keys whose programs it is in, the innermost last; `answer` is what the program
      it is in, or the outermost one, was answered to its last Ask. */
  datatype Task = Task(evaluating: seq<Key>, stage: Stage, answer: Option<Answer>)

  /** The scheduler's run and the handler's closure, with its `sems`; `successes` counts evaluations
      that ended with a value other than `None`. */
  datatype Asks = Asks(sched: Steps.System, tasks: map<Owner, Task>, sems: map<Key, nat>, cache: map<Key, Value>,
                       successes: map<Key, nat>)

  const START := Asks(Steps.START, map[], map[], map[], map[])

  /** `Other` is any step of the scheduler that is not the handler's own: another effect of a program,
      the dispatch loop, completions from outside, the collector. */
  datatype Action =
    | Ask(key: Key)
    | Create
    | Bind
    | Acquire
    | Check
    | Finish(result: Option<Value>)
    | Release
    | Store
    | Other(a: Steps.Action)

  function TaskOf(y: Asks, o: Owner): Task {
    if o in y.tasks then y.tasks[o] else Task([], Idle, None)
  }

  function Successes(y: Asks, key: Key): nat {
    if key in y.successes then y.successes[key] else 0
  }

  predicate Settled(y: Asks, key: Key) { key in y.cache && !y.cache[key].NoneValue? }

  predicate Good(result: Option<Value>) { result.Some? && !result.value.NoneValue? }

  predicate Busy(y: Asks) { y.sched.phase.Executing? }

  /** The executing task. */
  function Now(y: Asks): Task
    requires Busy(y)
  {
    TaskOf(y, y.sched.phase.owner)
  }

  function With(y: Asks, o: Owner, task: Task): Asks { y.(tasks := y.tasks[o := task]) }

  // ---- Steps ---------------------------------------------------------------

  ghost predicate Performable(y: Asks, e: Steps.Effect) { Steps.Enabled(y.sched, Steps.Perform(e), true) }

  ghost function Performed(y: Asks, e: Steps.Effect): Steps.System
    requires Performable(y, e)
  {
    Steps.Step(y.sched, Steps.Perform(e), true)
  }

  /** Programs do not get at the handler's semaphores. */
  predicate Foreign(y: Asks, a: Steps.Action) {
    a.Perform? && (a.e.Acquire? || a.e.Release?) ==> a.e.sid !in y.sems.Values
  }

  ghost predicate Enabled(y: Asks, a: Action) {
    match a
    case Ask(_) => Busy(y) && Now(y).stage.Idle?
    case Create => Busy(y) && Now(y).stage.Missed?
    case Bind => Busy(y) && Now(y).stage.Created?
    case Acquire =>
      && Busy(y) && Now(y).stage.Acquiring? && Now(y).stage.key in y.sems
      && Performable(y, Steps.Acquire(y.sems[Now(y).stage.key]))
    case Check =>
      && Busy(y) && Now(y).stage.Checking? && Now(y).stage.key in y.sems
      && Performable(y, Steps.Release(y.sems[Now(y).stage.key]))
    case Finish(_) => Busy(y) && Now(y).stage.Idle? && Now(y).evaluating != []
    case Release =>
      && Busy(y) && Now(y).stage.Finished? && Now(y).stage.key in y.sems
      && Performable(y, Steps.Release(y.sems[Now(y).stage.key]))
    case Store => Busy(y) && Now(y).stage.Released?
    case Other(b) =>
      && Steps.Enabled(y.sched, b, true) && Foreign(y, b)
      && (b.Perform? || b.MintFuture? || b.ReturnFromRoot? ==> Now(y).stage.Idle?)
  }

  function AskStep(y: Asks, key: Key): Asks
    requires Busy(y)
  {
    var o := y.sched.phase.owner;
    if Settled(y, key) then With(y, o, Now(y).(answer := Some(Answer(key, Some(y.cache[key])))))
    else With(y, o, Now(y).(stage := if key in y.sems then Acquiring(key) else Missed(key), answer := None))
  }

  /** What `CreateSemaphore(1)` is answered with; nothing else comes back (`CreatingGoesOn`). */
  function AfterCreate(reply: Steps.Reply, key: Key): Stage {
    if reply.Resumed? && reply.value.SemaphoreHandle? then Created(key, reply.value.sid) else Missed(key)
  }

  ghost function CreateStep(y: Asks): Asks
    requires Enabled(y, Create)
  {
    var e := Steps.CreateSemaphore(1);
    With(y.(sched := Performed(y, e)), y.sched.phase.owner,
         Now(y).(stage := AfterCreate(ReplyTo(y.sched, e), Now(y).stage.key)))
  }

  function BindStep(y: Asks): Asks
    requires Busy(y) && Now(y).stage.Created?
  {
    var stage := Now(y).stage;
    With(y.(sems := y.sems[stage.key := stage.sid]), y.sched.phase.owner, Now(y).(stage := Acquiring(stage.key)))
  }

  ghost function AcquireStep(y: Asks): Asks
    requires Enabled(y, Acquire)
  {
    var key := Now(y).stage.key;
    var e := Steps.Acquire(y.sems[key]);
    With(y.(sched := Performed(y, e)), y.sched.phase.owner,
         Now(y).(stage := if ReplyTo(y.sched, e).Suspended? then Waiting(key, y.sched.nextCont) else Checking(key)))
  }

  /** The second look into the cache: a hit gives the semaphore back, else the program starts. */
  ghost function CheckStep(y: Asks): Asks
    requires Enabled(y, Check)
  {
    var o, key := y.sched.phase.owner, Now(y).stage.key;
    if Settled(y, key) then
      With(y.(sched := Performed(y, Steps.Release(y.sems[key]))), o,
           Now(y).(stage := Idle, answer := Some(Answer(key, Some(y.cache[key])))))
    else With(y, o, Task(Now(y).evaluating + [key], Idle, None))
  }

  function FinishStep(y: Asks, result: Option<Value>): Asks
    requires Busy(y) && Now(y).evaluating != []
  {
    var n := |Now(y).evaluating| - 1;
    var key := Now(y).evaluating[n];
    With(y, y.sched.phase.owner, Task(Now(y).evaluating[..n], Finished(key, result), None)).(
      successes := if Good(result) then y.successes[key := Successes(y, key) + 1] else y.successes)
  }

  ghost function ReleaseStep(y: Asks): Asks
    requires Enabled(y, Release)
  {
    var stage := Now(y).stage;
    With(y.(sched := Performed(y, Steps.Release(y.sems[stage.key]))), y.sched.phase.owner,
         Now(y).(stage := Released(stage.key, stage.result)))
  }

  function StoreStep(y: Asks): Asks
    requires Busy(y) && Now(y).stage.Released?
  {
    var stage := Now(y).stage;
    With(y, y.sched.phase.owner, Now(y).(stage := Idle, answer := Some(Answer(stage.key, stage.result)))).(
      cache := if stage.result.Some? then y.cache[stage.key := stage.result.value] else y.cache)
  }

  /** A waiting task that is dispatched goes on behind its `AcquireSemaphore`. */
  ghost function OtherStep(y: Asks, a: Steps.Action): Asks
    requires Enabled(y, Other(a))
  {
    var y' := y.(sched := Steps.Step(y.sched, a, true));
    if a.Dispatch? && Busy(y') && Now(y').stage.Waiting? then
      With(y', y'.sched.phase.owner, Now(y').(stage := Checking(Now(y').stage.key)))
    else y'
  }

  ghost function Step(y: Asks, a: Action): Asks
    requires Enabled(y, a)
  {
    match a
    case Ask(key) => AskStep(y, key)
    case Create => CreateStep(y)
    case Bind => BindStep(y)
    case Acquire => AcquireStep(y)
    case Check => CheckStep(y)
    case Finish(result) => FinishStep(y, result)
    case Release => ReleaseStep(y)
    case Store => StoreStep(y)
    case Other(b) => OtherStep(y, b)
  }

  ghost predicate Possible(y: Asks, acts: seq<Action>)
    decreases |acts|
  {
    acts != [] ==> Enabled(y, acts[0]) && Possible(Step(y, acts[0]), acts[1..])
  }

  ghost function After(y: Asks, acts: seq<Action>): Asks
    requires Possible(y, acts)
    decreases |acts|
  {
    if acts == [] then y else After(Step(y, acts[0]), acts[1..])
  }

  // ---- The invariant -------------------------------------------------------

  predicate Distinct(keys: seq<Key>) {
    forall i, k :: 0 <= i < k < |keys| ==> keys[i] != keys[k]
  }

  /** It is past acquiring the semaphore of `key` and has not released it. */
  predicate Owns(task: Task, key: Key) {
    key in task.evaluating || ((task.stage.Checking? || task.stage.Finished?) && task.stage.key == key)
  }

  predicate Pending(task: Task, key: Key) {
    (task.stage.Finished? || task.stage.Released?) && task.stage.key == key
  }

  predicate Between(stage: Stage) { !stage.Idle? && !stage.Waiting? }

  /** Each key's semaphore is its own and has one permit. */
  ghost predicate SemsSound(y: Asks) {
    && (forall key :: key in y.sems ==> IsLock(y.sched, y.sems[key]))
    && (forall key, other :: key in y.sems && other in y.sems && y.sems[key] == y.sems[other] ==> key == other)
  }

  /** What a stage says about the scheduler; only the executing task is between two effects. */
  ghost predicate StageSound(y: Asks, o: Owner, stage: Stage) {
    && (Between(stage) ==> y.sched.phase == Steps.Executing(o))
    && (stage.Missed? || stage.Created? ==> stage.key !in y.sems)
    && (stage.Created? ==> IsLock(y.sched, stage.sid) && stage.sid !in y.sems.Values)
    && (stage.Acquiring? || stage.Waiting? || stage.Released? ==> stage.key in y.sems)
    && (stage.Waiting? ==> WaitsFor(y.sched, y.sems[stage.key], o, stage.cont))
    && (stage.Released? ==> forall p :: !Holds(y.sched, y.sems[stage.key], p))
  }

  /** What a task owns it holds the permit of. */
  ghost predicate OwnsHeld(y: Asks, o: Owner, task: Task) {
    forall key :: Owns(task, key) ==> key in y.sems && Holds(y.sched, y.sems[key], o)
  }

  ghost predicate TaskSound(y: Asks, o: Owner, task: Task) {
    && StageSound(y, o, task.stage) && OwnsHeld(y, o, task) && Distinct(task.evaluating)
    && (task.stage.Checking? || task.stage.Finished? ==> task.stage.key !in task.evaluating)
    && (forall key :: Settled(y, key) ==> key !in task.evaluating && !Pending(task, key))
  }

  /** A success not yet stored. */
  ghost predicate Underway(y: Asks, key: Key) {
    Busy(y) && Pending(Now(y), key) && Good(Now(y).stage.result)
  }

  ghost predicate Counted(y: Asks, key: Key) {
    Successes(y, key) <= 1 && (Successes(y, key) == 1 ==> Settled(y, key) || Underway(y, key))
  }

  /** The handler and its tasks agree with the scheduler. */
  ghost predicate Tied(y: Asks) {
    SemsSound(y) && (forall o :: TaskSound(y, o, TaskOf(y, o))) && (forall key :: Counted(y, key))
  }

  ghost predicate Inv(y: Asks, spot: Invariant.Spots, cellKey: map<nat, Model.Key>) {
    Runs.Inv(y.sched, spot, cellKey) && Tied(y)
  }

  // ---- Mutual exclusion ----------------------------------------------------

  /** Who owns a key is the only one. */
  lemma OnlyOwner(y: Asks, o: Owner, p: Owner, key: Key)
    requires Tied(y) && Owns(TaskOf(y, o), key) && Owns(TaskOf(y, p), key)
    ensures o == p
  {
    assert TaskSound(y, o, TaskOf(y, o)) && TaskSound(y, p, TaskOf(y, p));
    assert o in multiset{p};
  }

  /** What another task `p` relies on outlives a step of the scheduler that does not release what
      `p` owns. */
  lemma OthersRely(y: Asks, a: Steps.Action, spot: Invariant.Spots, cellKey: map<nat, Model.Key>, p: Owner)
    requires Inv(y, spot, cellKey) && Steps.Enabled(y.sched, a, true)
    requires forall key :: Owns(TaskOf(y, p), key) && key in y.sems ==> a != Steps.Perform(Steps.Release(y.sems[key]))
    ensures var z := y.(sched := Steps.Step(y.sched, a, true));
            && OwnsHeld(z, p, TaskOf(y, p))
            && (TaskOf(y, p).stage.Waiting? ==>
                  var stage := TaskOf(y, p).stage;
                  stage.key in y.sems
                  && (WaitsFor(z.sched, y.sems[stage.key], p, stage.cont)
                      || Delivery.Chooses(y.sched, a, true, Model.Permit(p, stage.cont, y.sems[stage.key]))))
  {
    var task := TaskOf(y, p);
    assert TaskSound(y, p, task);
    forall key | Owns(task, key) ensures Holds(Steps.Step(y.sched, a, true), y.sems[key], p) {
      HolderStays(y.sched, a, true, spot, cellKey, y.sems[key], p);
    }
    if task.stage.Waiting? {
      StillWaits(y.sched, a, true, spot, cellKey, y.sems[task.stage.key], p, task.stage.cont);
    }
  }

  /** The handler's semaphores stay locks if only holders release them. */
  lemma LocksStay(y: Asks, a: Steps.Action, spot: Invariant.Spots, cellKey: map<nat, Model.Key>)
    requires Inv(y, spot, cellKey) && Steps.Enabled(y.sched, a, true)
    requires a.Perform? && a.e.Release? && a.e.sid in y.sems.Values ==> Holds(y.sched, a.e.sid, y.sched.phase.owner)
    ensures SemsSound(y.(sched := Steps.Step(y.sched, a, true)))
  {
    forall key | key in y.sems ensures IsLock(Steps.Step(y.sched, a, true), y.sems[key]) {
      LockStays(y.sched, a, true, spot, cellKey, y.sems[key]);
    }
  }

  /** The tasks that do not move stay sound if what they rely on is still there. */
  lemma OthersSound(y: Asks, y': Asks, o: Owner)
    requires forall p :: TaskSound(y, p, TaskOf(y, p))
    requires y.sched.phase == Steps.Executing(o)
    requires forall p :: p != o ==> TaskOf(y', p) == TaskOf(y, p)
    requires forall key :: key in y.sems ==> key in y'.sems && y'.sems[key] == y.sems[key]
    requires forall p :: p != o ==> OwnsHeld(y', p, TaskOf(y, p))
    requires forall p :: p != o && TaskOf(y, p).stage.Waiting? ==>
               var stage := TaskOf(y, p).stage;
               stage.key in y.sems && WaitsFor(y'.sched, y.sems[stage.key], p, stage.cont)
    requires forall key :: Settled(y', key) ==>
               Settled(y, key) || forall p :: p != o ==> key !in TaskOf(y, p).evaluating
    ensures forall p :: p != o ==> TaskSound(y', p, TaskOf(y', p))
  {
    forall p | p != o ensures TaskSound(y', p, TaskOf(y', p)) {
      assert TaskSound(y, p, TaskOf(y, p));
    }
  }

  /** ... as when the scheduler does not move. */
  lemma OthersIdle(y: Asks, y': Asks, o: Owner)
    requires forall p :: TaskSound(y, p, TaskOf(y, p))
    requires y.sched.phase == Steps.Executing(o) && y'.sched == y.sched
    requires forall p :: p != o ==> TaskOf(y', p) == TaskOf(y, p)
    requires forall key :: key in y.sems ==> key in y'.sems && y'.sems[key] == y.sems[key]
    requires forall key :: Settled(y', key) ==>
               Settled(y, key) || forall p :: p != o ==> key !in TaskOf(y, p).evaluating
    ensures forall p :: p != o ==> TaskSound(y', p, TaskOf(y', p))
  {
    forall p | p != o ensures OwnsHeld(y', p, TaskOf(y, p)) && StageSound(y, p, TaskOf(y, p).stage) {
      assert TaskSound(y, p, TaskOf(y, p));
    }
    OthersSound(y, y', o);
  }

  /** ... or performs an effect of the handler. */
  lemma OthersPerformed(y: Asks, y': Asks, e: Steps.Effect, spot: Invariant.Spots, cellKey: map<nat, Model.Key>)
    requires Inv(y, spot, cellKey) && Busy(y) && Performable(y, e) && y'.sched == Performed(y, e)
    requires y'.sems == y.sems && y'.cache == y.cache
    requires forall p :: p != y.sched.phase.owner ==> TaskOf(y', p) == TaskOf(y, p)
    requires forall p, key :: p != y.sched.phase.owner && Owns(TaskOf(y, p), key) && key in y.sems ==>
               e != Steps.Release(y.sems[key])
    ensures forall p :: p != y.sched.phase.owner ==> TaskSound(y', p, TaskOf(y', p))
  {
    forall p | p != y.sched.phase.owner
      ensures OwnsHeld(y', p, TaskOf(y, p))
      ensures TaskOf(y, p).stage.Waiting? ==>
                var stage := TaskOf(y, p).stage;
                stage.key in y.sems && WaitsFor(y'.sched, y.sems[stage.key], p, stage.cont)
    {
      OthersRely(y, Steps.Perform(e), spot, cellKey, p);
    }
    OthersSound(y, y', y.sched.phase.owner);
  }

  lemma SameCounts(y: Asks, y': Asks)
    requires (forall key :: Counted(y, key)) && y'.successes == y.successes
    requires forall key :: Settled(y, key) ==> Settled(y', key)
    requires forall key :: Underway(y, key) ==> Underway(y', key) || Settled(y', key)
    ensures forall key :: Counted(y', key)
  {
    forall key ensures Counted(y', key) {
      assert Counted(y, key);
    }
  }

  /** Giving a key's semaphore back: nobody else owned the key, and now nobody does. */
  lemma GivenBack(y: Asks, y': Asks, key: Key, spot: Invariant.Spots, cellKey: map<nat, Model.Key>)
    requires Inv(y, spot, cellKey) && Busy(y) && key in y.sems && Owns(Now(y), key)
    requires Performable(y, Steps.Release(y.sems[key])) && y'.sched == Performed(y, Steps.Release(y.sems[key]))
    requires y'.sems == y.sems && y'.cache == y.cache
    requires forall p :: p != y.sched.phase.owner ==> TaskOf(y', p) == TaskOf(y, p)
    requires forall k :: Owns(TaskOf(y', y.sched.phase.owner), k) ==> Owns(Now(y), k) && k != key
    ensures y'.sched.phase == y.sched.phase && SemsSound(y') && forall p :: !Holds(y'.sched, y.sems[key], p)
    ensures forall p :: p != y.sched.phase.owner ==> TaskSound(y', p, TaskOf(y', p))
    ensures OwnsHeld(y', y.sched.phase.owner, TaskOf(y', y.sched.phase.owner))
  {
    var o, e := y.sched.phase.owner, Steps.Release(y.sems[key]);
    assert TaskSound(y, o, TaskOf(y, o));
    ReleasingGoesOn(y.sched, true, spot, cellKey, y.sems[key]);
    LocksStay(y, Steps.Perform(e), spot, cellKey);
    forall p, k | p != o && Owns(TaskOf(y, p), k) && k in y.sems ensures e != Steps.Release(y.sems[k]) {
      if k == key { OnlyOwner(y, o, p, key); }
    }
    OthersPerformed(y, y', e, spot, cellKey);
    forall k | Owns(TaskOf(y', o), k) ensures k in y'.sems && Holds(y'.sched, y'.sems[k], o) {
      HolderStays(y.sched, Steps.Perform(e), true, spot, cellKey, y.sems[k], o);
    }
  }

  // ---- The executing task --------------------------------------------------

  lemma AskTask(y: Asks, o: Owner, key: Key)
    requires y.sched.phase == Steps.Executing(o) && TaskSound(y, o, TaskOf(y, o)) && TaskOf(y, o).stage.Idle?
    ensures TaskSound(AskStep(y, key), o, TaskOf(AskStep(y, key), o))
  {
    var y' := AskStep(y, key);
    assert OwnsHeld(y', o, TaskOf(y', o)) && StageSound(y', o, TaskOf(y', o).stage);
  }

  lemma CreateTask(y: Asks, o: Owner, spot: Invariant.Spots, cellKey: map<nat, Model.Key>)
    requires Inv(y, spot, cellKey) && Enabled(y, Create) && o == y.sched.phase.owner
    ensures TaskSound(CreateStep(y), o, TaskOf(CreateStep(y), o))
  {
    var y' := CreateStep(y);
    assert TaskSound(y, o, TaskOf(y, o));
    CreatingGoesOn(y.sched, true, spot, cellKey);
    OthersRely(y, Steps.Perform(Steps.CreateSemaphore(1)), spot, cellKey, o);
    assert OwnsHeld(y', o, TaskOf(y', o)) && StageSound(y', o, TaskOf(y', o).stage);
  }

  lemma BindTask(y: Asks, o: Owner)
    requires y.sched.phase == Steps.Executing(o) && TaskSound(y, o, TaskOf(y, o)) && TaskOf(y, o).stage.Created?
    ensures TaskSound(BindStep(y), o, TaskOf(BindStep(y), o))
  {
    var y' := BindStep(y);
    assert OwnsHeld(y', o, TaskOf(y', o)) && StageSound(y', o, TaskOf(y', o).stage);
  }

  lemma AcquireTask(y: Asks, o: Owner, spot: Invariant.Spots, cellKey: map<nat, Model.Key>)
    requires Inv(y, spot, cellKey) && Enabled(y, Acquire) && o == y.sched.phase.owner
    ensures TaskSound(AcquireStep(y), o, TaskOf(AcquireStep(y), o))
  {
    var y', sid := AcquireStep(y), y.sems[Now(y).stage.key];
    assert TaskSound(y, o, TaskOf(y, o));
    AcquiringLocks(y.sched, true, spot, cellKey, sid);
    OthersRely(y, Steps.Perform(Steps.Acquire(sid)), spot, cellKey, o);
    assert OwnsHeld(y', o, TaskOf(y', o)) && StageSound(y', o, TaskOf(y', o).stage);
  }

  lemma StartTask(y: Asks, o: Owner)
    requires y.sched.phase == Steps.Executing(o) && TaskSound(y, o, TaskOf(y, o)) && TaskOf(y, o).stage.Checking?
    requires Enabled(y, Check) && !Settled(y, TaskOf(y, o).stage.key)
    ensures TaskSound(CheckStep(y), o, TaskOf(CheckStep(y), o))
  {
    var y' := CheckStep(y);
    assert OwnsHeld(y', o, TaskOf(y', o)) && StageSound(y', o, TaskOf(y', o).stage);
  }

  lemma FinishTask(y: Asks, o: Owner, result: Option<Value>)
    requires y.sched.phase == Steps.Executing(o) && TaskSound(y, o, TaskOf(y, o))
    requires TaskOf(y, o).stage.Idle? && TaskOf(y, o).evaluating != []
    ensures TaskSound(FinishStep(y, result), o, TaskOf(FinishStep(y, result), o))
  {
    var y', task := FinishStep(y, result), TaskOf(y, o);
    forall k | Owns(TaskOf(y', o), k) ensures Owns(task, k) {}
    assert task.evaluating[|task.evaluating| - 1] in task.evaluating;
    forall k | Settled(y', k) ensures k !in TaskOf(y', o).evaluating && !Pending(TaskOf(y', o), k) {
      assert Settled(y, k);
    }
    assert OwnsHeld(y', o, TaskOf(y', o)) && StageSound(y', o, TaskOf(y', o).stage);
  }

  lemma StoreTask(y: Asks, o: Owner)
    requires y.sched.phase == Steps.Executing(o) && TaskSound(y, o, TaskOf(y, o)) && TaskOf(y, o).stage.Released?
    ensures TaskSound(StoreStep(y), o, TaskOf(StoreStep(y), o))
  {
    var y', task := StoreStep(y), TaskOf(y, o);
    forall k | Settled(y', k) ensures k !in task.evaluating {
      assert Owns(task, k) ==> Holds(y.sched, y.sems[k], o);
    }
    assert OwnsHeld(y', o, TaskOf(y', o)) && StageSound(y', o, TaskOf(y', o).stage);
  }

  /** `o` has given the semaphore of `key` back, with the value or after a hit. */
  lemma ReleaseTask(y: Asks, y': Asks, o: Owner, key: Key)
    requires y.sched.phase == y'.sched.phase == Steps.Executing(o) && TaskSound(y, o, TaskOf(y, o))
    requires y'.sems == y.sems && y'.cache == y.cache && TaskOf(y', o).evaluating == TaskOf(y, o).evaluating
    requires var stage, stage' := TaskOf(y, o).stage, TaskOf(y', o).stage;
             stage'.Idle? || (stage.Finished? && stage.key == key && stage' == Released(key, stage.result))
    requires OwnsHeld(y', o, TaskOf(y', o)) && key in y.sems && forall p :: !Holds(y'.sched, y.sems[key], p)
    ensures TaskSound(y', o, TaskOf(y', o))
  {
    assert StageSound(y', o, TaskOf(y', o).stage);
    forall k | Settled(y', k) ensures k !in TaskOf(y', o).evaluating && !Pending(TaskOf(y', o), k) {
      assert Settled(y, k);
    }
  }

  // ---- Each step keeps the invariant ---------------------------------------

  lemma AskKeeps(y: Asks, key: Key)
    requires Tied(y) && Enabled(y, Ask(key))
    ensures Tied(AskStep(y, key))
  {
    var y' := AskStep(y, key);
    AskTask(y, y.sched.phase.owner, key);
    OthersIdle(y, y', y.sched.phase.owner);
    SameCounts(y, y');
  }

  lemma CreateKeeps(y: Asks, spot: Invariant.Spots, cellKey: map<nat, Model.Key>)
    requires Inv(y, spot, cellKey) && Enabled(y, Create)
    ensures Tied(CreateStep(y))
  {
    var y', e := CreateStep(y), Steps.CreateSemaphore(1);
    CreateTask(y, y.sched.phase.owner, spot, cellKey);
    OthersPerformed(y, y', e, spot, cellKey);
    LocksStay(y, Steps.Perform(e), spot, cellKey);
    SameCounts(y, y');
  }

  lemma BindKeeps(y: Asks)
    requires Tied(y) && Enabled(y, Bind)
    ensures Tied(BindStep(y))
  {
    BindTask(y, y.sched.phase.owner);
    OthersIdle(y, BindStep(y), y.sched.phase.owner);
    SameCounts(y, BindStep(y));
  }

  lemma AcquireKeeps(y: Asks, spot: Invariant.Spots, cellKey: map<nat, Model.Key>)
    requires Inv(y, spot, cellKey) && Enabled(y, Acquire)
    ensures Tied(AcquireStep(y))
  {
    var y', e := AcquireStep(y), Steps.Acquire(y.sems[Now(y).stage.key]);
    AcquireTask(y, y.sched.phase.owner, spot, cellKey);
    OthersPerformed(y, y', e, spot, cellKey);
    LocksStay(y, Steps.Perform(e), spot, cellKey);
    SameCounts(y, y');
  }

  lemma FinishKeeps(y: Asks, result: Option<Value>)
    requires Tied(y) && Enabled(y, Finish(result))
    ensures Tied(FinishStep(y, result))
  {
    var o, y' := y.sched.phase.owner, FinishStep(y, result);
    FinishTask(y, o, result);
    OthersIdle(y, y', o);
    FinishCounts(y, o, result);
  }

  lemma FinishCounts(y: Asks, o: Owner, result: Option<Value>)
    requires y.sched.phase == Steps.Executing(o) && TaskSound(y, o, TaskOf(y, o)) && forall key :: Counted(y, key)
    requires TaskOf(y, o).stage.Idle? && TaskOf(y, o).evaluating != []
    ensures forall key :: Counted(FinishStep(y, result), key)
  {
    var task := TaskOf(y, o);
    assert task.evaluating[|task.evaluating| - 1] in task.evaluating;
    forall key ensures Counted(FinishStep(y, result), key) {
      assert Counted(y, key);
    }
  }

  lemma StoreKeeps(y: Asks)
    requires Tied(y) && Enabled(y, Store)
    ensures Tied(StoreStep(y))
  {
    var o, key := y.sched.phase.owner, Now(y).stage.key;
    StoreTask(y, o);
    forall p ensures key !in TaskOf(y, p).evaluating {
      assert TaskSound(y, p, TaskOf(y, p)) && TaskSound(y, o, TaskOf(y, o));
      assert key in TaskOf(y, p).evaluating ==> Owns(TaskOf(y, p), key);
    }
    OthersIdle(y, StoreStep(y), o);
    SameCounts(y, StoreStep(y));
  }

  lemma GivingBackKeeps(y: Asks, y': Asks, key: Key, spot: Invariant.Spots, cellKey: map<nat, Model.Key>)
    requires Inv(y, spot, cellKey) && Busy(y) && key in y.sems && Owns(Now(y), key)
    requires Performable(y, Steps.Release(y.sems[key])) && y'.sched == Performed(y, Steps.Release(y.sems[key]))
    requires y'.sems == y.sems && y'.cache == y.cache && y'.successes == y.successes
    requires forall p :: p != y.sched.phase.owner ==> TaskOf(y', p) == TaskOf(y, p)
    requires var task, task', stage := Now(y), TaskOf(y', y.sched.phase.owner), Now(y).stage;
             && task'.evaluating == task.evaluating
             && ((stage.Finished? && stage.key == key && task'.stage == Released(key, stage.result))
                 || (stage == Checking(key) && task'.stage == Idle))
    ensures Tied(y')
  {
    var o := y.sched.phase.owner;
    assert TaskSound(y, o, TaskOf(y, o));
    GivenBack(y, y', key, spot, cellKey);
    ReleaseTask(y, y', o, key);
    SameCounts(y, y');
  }

  lemma ReleaseKeeps(y: Asks, spot: Invariant.Spots, cellKey: map<nat, Model.Key>)
    requires Inv(y, spot, cellKey) && Enabled(y, Release)
    ensures Tied(ReleaseStep(y))
  {
    GivingBackKeeps(y, ReleaseStep(y), Now(y).stage.key, spot, cellKey);
  }

  lemma HitKeeps(y: Asks, spot: Invariant.Spots, cellKey: map<nat, Model.Key>)
    requires Inv(y, spot, cellKey) && Enabled(y, Check) && Settled(y, Now(y).stage.key)
    ensures Tied(CheckStep(y))
  {
    GivingBackKeeps(y, CheckStep(y), Now(y).stage.key, spot, cellKey);
  }

  lemma MissKeeps(y: Asks)
    requires Tied(y) && Enabled(y, Check) && !Settled(y, Now(y).stage.key)
    ensures Tied(CheckStep(y))
  {
    StartTask(y, y.sched.phase.owner);
    OthersIdle(y, CheckStep(y), y.sched.phase.owner);
    SameCounts(y, CheckStep(y));
  }

  // ---- Steps of the scheduler that are not the handler's -------------------

  /** Completions from outside and the collector change nothing about locks. */
  lemma QuietHolds(y: Steps.System, a: Steps.Action, sid: nat, o: Owner)
    requires Steps.Enabled(y, a, true) && (a.Arrive? || a.Collect?)
    ensures Holds(Steps.Step(y, a, true), sid, o) ==> Holds(y, sid, o)
  {
  }

  /** A task between two effects of the handler is only ever joined by such steps. */
  lemma BetweenStays(y: Asks, a: Steps.Action, spot: Invariant.Spots, cellKey: map<nat, Model.Key>, p: Owner)
    requires Inv(y, spot, cellKey) && Enabled(y, Other(a)) && Between(TaskOf(y, p).stage)
    ensures (a.Arrive? || a.Collect?) && StageSound(y.(sched := Steps.Step(y.sched, a, true)), p, TaskOf(y, p).stage)
  {
    var stage, z := TaskOf(y, p).stage, Steps.Step(y.sched, a, true);
    assert TaskSound(y, p, TaskOf(y, p));
    if stage.Created? {
      LockStays(y.sched, a, true, spot, cellKey, stage.sid);
    } else if stage.Released? {
      forall o ensures !Holds(z, y.sems[stage.key], o) {
        QuietHolds(y.sched, a, y.sems[stage.key], o);
      }
    }
  }

  lemma StillSound(y: Asks, z: Asks, p: Owner, task: Task)
    requires TaskSound(y, p, task) && z.cache == y.cache && OwnsHeld(z, p, task) && StageSound(z, p, task.stage)
    ensures TaskSound(z, p, task)
  {
    forall k | Settled(z, k) ensures k !in task.evaluating && !Pending(task, k) {
      assert Settled(y, k);
    }
  }

  lemma OtherStage(y: Asks, a: Steps.Action, spot: Invariant.Spots, cellKey: map<nat, Model.Key>, p: Owner)
    requires Inv(y, spot, cellKey) && Enabled(y, Other(a))
    ensures var z, task := y.(sched := Steps.Step(y.sched, a, true)), TaskOf(y, p);
            && OwnsHeld(z, p, task)
            && (StageSound(z, p, task.stage)
                || (a.Dispatch? && task.stage.Waiting? && z.sched.phase == Steps.Executing(p)))
  {
    assert TaskSound(y, p, TaskOf(y, p));
    OthersRely(y, a, spot, cellKey, p);
    if Between(TaskOf(y, p).stage) {
      BetweenStays(y, a, spot, cellKey, p);
    }
  }

  lemma OtherTask(y: Asks, a: Steps.Action, spot: Invariant.Spots, cellKey: map<nat, Model.Key>, p: Owner)
    requires Inv(y, spot, cellKey) && Enabled(y, Other(a))
    ensures var z := y.(sched := Steps.Step(y.sched, a, true));
            || TaskSound(z, p, TaskOf(y, p))
            || (a.Dispatch? && TaskOf(y, p).stage.Waiting? && z.sched.phase == Steps.Executing(p))
  {
    var z := y.(sched := Steps.Step(y.sched, a, true));
    OtherStage(y, a, spot, cellKey, p);
    assert TaskSound(y, p, TaskOf(y, p));
    if StageSound(z, p, TaskOf(y, p).stage) {
      StillSound(y, z, p, TaskOf(y, p));
    }
  }

  lemma WokenTask(y: Asks, spot: Invariant.Spots, cellKey: map<nat, Model.Key>)
    requires Inv(y, spot, cellKey) && Enabled(y, Other(Steps.Dispatch))
    requires var z := y.(sched := Steps.Step(y.sched, Steps.Dispatch, true)); Busy(z) && Now(z).stage.Waiting?
    ensures var y' := OtherStep(y, Steps.Dispatch); Busy(y') && TaskSound(y', y'.sched.phase.owner, Now(y'))
  {
    var y' := OtherStep(y, Steps.Dispatch);
    var o := y'.sched.phase.owner;
    var task := TaskOf(y, o);
    assert TaskSound(y, o, task);
    OthersRely(y, Steps.Dispatch, spot, cellKey, o);
    ChosenHolds(y.sched, true, spot, cellKey, y.sems[task.stage.key], o, task.stage.cont);
    assert OwnsHeld(y', o, Now(y')) && StageSound(y', o, Now(y').stage);
    forall k | Settled(y', k) ensures k !in task.evaluating {
      assert Settled(y, k);
    }
  }

  lemma OtherCounts(y: Asks, a: Steps.Action, spot: Invariant.Spots, cellKey: map<nat, Model.Key>)
    requires Inv(y, spot, cellKey) && Enabled(y, Other(a))
    ensures forall key :: Counted(OtherStep(y, a), key)
  {
    if Busy(y) && Between(Now(y).stage) {
      BetweenStays(y, a, spot, cellKey, y.sched.phase.owner);
    }
    SameCounts(y, OtherStep(y, a));
  }

  lemma OtherKeeps(y: Asks, a: Steps.Action, spot: Invariant.Spots, cellKey: map<nat, Model.Key>)
    requires Inv(y, spot, cellKey) && Enabled(y, Other(a))
    ensures Tied(OtherStep(y, a))
  {
    var y' := OtherStep(y, a);
    LocksStay(y, a, spot, cellKey);
    OtherCounts(y, a, spot, cellKey);
    forall p ensures TaskSound(y', p, TaskOf(y', p)) {
      OtherTaskKeeps(y, a, spot, cellKey, p);
    }
  }

  lemma SameSound(z: Asks, y: Asks, p: Owner, task: Task)
    requires TaskSound(z, p, task) && y.sched == z.sched && y.sems == z.sems && y.cache == z.cache
    ensures TaskSound(y, p, task)
  {
    forall key | Settled(y, key) ensures key !in task.evaluating && !Pending(task, key) {
      assert Settled(z, key);
    }
  }

  lemma OtherMoves(y: Asks, a: Steps.Action, p: Owner)
    requires Enabled(y, Other(a))
    ensures var z, y' := y.(sched := Steps.Step(y.sched, a, true)), OtherStep(y, a);
            && y'.sched == z.sched && y'.sems == z.sems && y'.cache == z.cache
            && (TaskOf(y', p) == TaskOf(y, p)
                || (a.Dispatch? && z.sched.phase == Steps.Executing(p) && TaskOf(y, p).stage.Waiting?))
  {
  }

  lemma OtherTaskKeeps(y: Asks, a: Steps.Action, spot: Invariant.Spots, cellKey: map<nat, Model.Key>, p: Owner)
    requires Inv(y, spot, cellKey) && Enabled(y, Other(a))
    ensures TaskSound(OtherStep(y, a), p, TaskOf(OtherStep(y, a), p))
  {
    var z := y.(sched := Steps.Step(y.sched, a, true));
    if a.Dispatch? && Busy(z) && Now(z).stage.Waiting? && z.sched.phase.owner == p {
      WokenTask(y, spot, cellKey);
    } else {
      OtherTask(y, a, spot, cellKey, p);
      OtherMoves(y, a, p);
      SameSound(z, OtherStep(y, a), p, TaskOf(y, p));
    }
  }

  /** The scheduler's part of a step is a step of the scheduler, or none. */
  lemma SchedKeeps(y: Asks, a: Action, spot: Invariant.Spots, cellKey: map<nat, Model.Key>)
    returns (spot': Invariant.Spots, cellKey': map<nat, Model.Key>)
    requires Runs.Inv(y.sched, spot, cellKey) && Enabled(y, a)
    ensures Runs.Inv(Step(y, a).sched, spot', cellKey')
  {
    spot', cellKey' := spot, cellKey;
    if a.Create? {
      spot', cellKey' := Safety.StepKeeps(y.sched, Steps.Perform(Steps.CreateSemaphore(1)), true, spot, cellKey);
    } else if a.Acquire? {
      var e := Steps.Acquire(y.sems[Now(y).stage.key]);
      spot', cellKey' := Safety.StepKeeps(y.sched, Steps.Perform(e), true, spot, cellKey);
    } else if a.Release? || (a.Check? && Settled(y, Now(y).stage.key)) {
      var e := Steps.Release(y.sems[Now(y).stage.key]);
      spot', cellKey' := Safety.StepKeeps(y.sched, Steps.Perform(e), true, spot, cellKey);
    } else if a.Other? {
      spot', cellKey' := Safety.StepKeeps(y.sched, a.a, true, spot, cellKey);
    }
  }

  lemma StepTies(y: Asks, a: Action, spot: Invariant.Spots, cellKey: map<nat, Model.Key>)
    requires Inv(y, spot, cellKey) && Enabled(y, a)
    ensures Tied(Step(y, a))
  {
    match a
    case Ask(key) => AskKeeps(y, key);
    case Create => CreateKeeps(y, spot, cellKey);
    case Bind => BindKeeps(y);
    case Acquire => AcquireKeeps(y, spot, cellKey);
    case Check =>
      if Settled(y, Now(y).stage.key) { HitKeeps(y, spot, cellKey); } else { MissKeeps(y); }
    case Finish(result) => FinishKeeps(y, result);
    case Release => ReleaseKeeps(y, spot, cellKey);
    case Store => StoreKeeps(y);
    case Other(b) => OtherKeeps(y, b, spot, cellKey);
  }

  lemma StepKeeps(y: Asks, a: Action, spot: Invariant.Spots, cellKey: map<nat, Model.Key>)
    returns (spot': Invariant.Spots, cellKey': map<nat, Model.Key>)
    requires Inv(y, spot, cellKey) && Enabled(y, a)
    ensures Inv(Step(y, a), spot', cellKey')
  {
    StepTies(y, a, spot, cellKey);
    spot', cellKey' := SchedKeeps(y, a, spot, cellKey);
  }

  lemma {:induction false} RunKeeps(y: Asks, acts: seq<Action>, spot: Invariant.Spots, cellKey: map<nat, Model.Key>)
    returns (spot': Invariant.Spots, cellKey': map<nat, Model.Key>)
    requires Inv(y, spot, cellKey) && Possible(y, acts)
    ensures Inv(After(y, acts), spot', cellKey')
    decreases |acts|
  {
    spot', cellKey' := spot, cellKey;
    if acts != [] {
      var spot1, cellKey1 := StepKeeps(y, acts[0], spot, cellKey);
      spot', cellKey' := RunKeeps(Step(y, acts[0]), acts[1..], spot1, cellKey1);
    }
  }

  lemma StartIsSound()
    ensures Inv(START, map[], map[])
  {
    Safety.StartSatisfies();
    forall o ensures TaskSound(START, o, TaskOf(START, o)) {}
    forall key ensures Counted(START, key) {}
  }

  // ---- The theorems --------------------------------------------------------

  /** However the scheduler interleaves the asking tasks, a key is evaluated with success at most
      once. */
  lemma EvaluatedAtMostOnce(acts: seq<Action>, key: Key)
    requires Possible(START, acts)
    ensures Successes(After(START, acts), key) <= 1
  {
    StartIsSound();
    var spot, cellKey := RunKeeps(START, acts, map[], map[]);
    assert Counted(After(START, acts), key);
  }

  /** ... and never by two tasks at a time, nor once it has a value; the evaluating task is the only
      holder of the key's semaphore. */
  lemma EvaluatedByOneTask(acts: seq<Action>, key: Key, o: Owner, p: Owner)
    requires Possible(START, acts)
    requires key in TaskOf(After(START, acts), o).evaluating && key in TaskOf(After(START, acts), p).evaluating
    ensures var y := After(START, acts);
            o == p && !Settled(y, key) && key in y.sems && Holds(y.sched, y.sems[key], o)
  {
    var y := After(START, acts);
    StartIsSound();
    var spot, cellKey := RunKeeps(START, acts, map[], map[]);
    OnlyOwner(y, o, p, key);
    assert TaskSound(y, o, TaskOf(y, o));
    assert Owns(TaskOf(y, o), key);
  }

  /** Two tasks never make two semaphores for one key, nor two keys share one. */
  lemma OneSemaphorePerKey(acts: seq<Action>, more: seq<Action>, key: Key, other: Key)
    requires Possible(START, acts) && Possible(After(START, acts), more) && key in After(START, acts).sems
    ensures var y, z := After(START, acts), After(After(START, acts), more);
            && key in z.sems && z.sems[key] == y.sems[key] && IsLock(z.sched, z.sems[key])
            && (other in z.sems && other != key ==> z.sems[other] != z.sems[key])
  {
    StartIsSound();
    var spot, cellKey := RunKeeps(START, acts, map[], map[]);
    var spot', cellKey' := RunKeeps(After(START, acts), more, spot, cellKey);
    SemStays(After(START, acts), more, key, spot, cellKey);
  }

  lemma {:induction false} SemStays(y: Asks, acts: seq<Action>, key: Key, spot: Invariant.Spots,
                                    cellKey: map<nat, Model.Key>)
    requires Inv(y, spot, cellKey) && Possible(y, acts) && key in y.sems
    ensures key in After(y, acts).sems && After(y, acts).sems[key] == y.sems[key]
    decreases |acts|
  {
    if acts != [] {
      SemStaysOnce(y, acts[0], key);
      var spot1, cellKey1 := StepKeeps(y, acts[0], spot, cellKey);
      SemStays(Step(y, acts[0]), acts[1..], key, spot1, cellKey1);
    }
  }

  lemma SemStaysOnce(y: Asks, a: Action, key: Key)
    requires Tied(y) && Enabled(y, a) && key in y.sems
    ensures key in Step(y, a).sems && Step(y, a).sems[key] == y.sems[key]
  {
    if a.Bind? {
      assert TaskSound(y, y.sched.phase.owner, Now(y));
    }
  }

  lemma {:induction false} SettledStays(y: Asks, acts: seq<Action>, key: Key, spot: Invariant.Spots,
                                        cellKey: map<nat, Model.Key>)
    requires Inv(y, spot, cellKey) && Possible(y, acts) && Settled(y, key)
    ensures Settled(After(y, acts), key) && After(y, acts).cache[key] == y.cache[key]
    decreases |acts|
  {
    if acts != [] {
      SettledStaysOnce(y, acts[0], key);
      var spot1, cellKey1 := StepKeeps(y, acts[0], spot, cellKey);
      SettledStays(Step(y, acts[0]), acts[1..], key, spot1, cellKey1);
    }
  }

  lemma SettledStaysOnce(y: Asks, a: Action, key: Key)
    requires Tied(y) && Enabled(y, a) && Settled(y, key)
    ensures Settled(Step(y, a), key) && Step(y, a).cache[key] == y.cache[key]
  {
    if a.Store? {
      assert TaskSound(y, y.sched.phase.owner, Now(y));
    }
  }

  /** What a key was first found to be is what it stays. */
  lemma ValuesAreFinal(acts: seq<Action>, more: seq<Action>, key: Key)
    requires Possible(START, acts) && Possible(After(START, acts), more) && Settled(After(START, acts), key)
    ensures var y := After(START, acts);
            Settled(After(y, more), key) && After(y, more).cache[key] == y.cache[key]
  {
    StartIsSound();
    var spot, cellKey := RunKeeps(START, acts, map[], map[]);
    SettledStays(After(START, acts), more, key, spot, cellKey);
  }

  /** What the handler does next for a task. */
  function NextOf(stage: Stage): Action
    requires Between(stage)
  {
    match stage
    case Missed(_) => Create
    case Created(_, _) => Bind
    case Acquiring(_) => Acquire
    case Checking(_) => Check
    case Finished(_, _) => Release
    case Released(_, _) => Store
  }

  lemma SemIsThere(y: Asks, sid: nat)
    requires Busy(y) && sid in y.sched.s.sems
    ensures Performable(y, Steps.Acquire(sid)) && Performable(y, Steps.Release(sid))
  {
    Conservation.DrainSems(y.sched.s);
  }

  lemma NextIsEnabled(y: Asks)
    requires Tied(y) && Busy(y) && Between(Now(y).stage)
    ensures Enabled(y, NextOf(Now(y).stage))
    ensures Now(y).stage.Checking? || Now(y).stage.Finished? ==>
              Holds(y.sched, y.sems[Now(y).stage.key], y.sched.phase.owner)
  {
    var o, stage := y.sched.phase.owner, Now(y).stage;
    assert TaskSound(y, o, TaskOf(y, o));
    if stage.Checking? || stage.Finished? {
      assert Owns(Now(y), stage.key);
    }
    if !stage.Missed? && !stage.Created? && !stage.Released? {
      SemIsThere(y, y.sems[stage.key]);
    }
  }

  lemma GoesOn(y: Asks, spot: Invariant.Spots, cellKey: map<nat, Model.Key>)
    requires Inv(y, spot, cellKey) && Busy(y) && Between(Now(y).stage)
    ensures var a := NextOf(Now(y).stage); Enabled(y, a) && (a.Acquire? || Step(y, a).sched.phase == y.sched.phase)
  {
    NextIsEnabled(y);
    var stage := Now(y).stage;
    if stage.Missed? {
      CreatingGoesOn(y.sched, true, spot, cellKey);
    } else if stage.Checking? || stage.Finished? {
      ReleasingGoesOn(y.sched, true, spot, cellKey, y.sems[stage.key]);
    }
  }

  /** Between two effects the handler can always go on, and it does so at once, unless it has to wait
      for the permit. */
  lemma HandlerGoesOn(acts: seq<Action>)
    requires Possible(START, acts) && Busy(After(START, acts)) && Between(Now(After(START, acts)).stage)
    ensures var y := After(START, acts); var a := NextOf(Now(y).stage);
            Enabled(y, a) && (a.Acquire? || Step(y, a).sched.phase == y.sched.phase)
  {
    StartIsSound();
    var spot, cellKey := RunKeeps(START, acts, map[], map[]);
    GoesOn(After(START, acts), spot, cellKey);
  }
}
