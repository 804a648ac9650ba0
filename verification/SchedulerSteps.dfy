/** What one effect does (`handle_scheduler_effect`), what one turn of the dispatch loop does
    (`pick_next`), and the runs they generate together with their environment: the program
    performing effects, foreign threads completing external promises, and the garbage
    collector dropping handles. */
module SchedulerSteps {
  import opened Wrappers
  import opened SchedulerModel

  datatype Effect =
    | Spawn(priority: int, daemon: bool)
    | TaskCompleted(ok: bool, value: Value)
    | Wait(key: Key, wake: Option<int>)
    | Gather(keys: seq<Key>)
    | Race(keys: seq<Key>)
    | Cancel(key: Key)
    | CreatePromise
    | CreateExternalPromise
    | CompletePromise(key: Key, value: Value)
    | FailPromise(key: Key, value: Value)
    | CreateSemaphore(permits: int)
    | Acquire(sid: nat)
    | Release(sid: nat)

  /** Whether the performer goes on at once, with a value or an error, or its
      continuation was parked, queued or dropped and `pick_next` decides. */
  datatype Reply = Resumed(value: Value) | Thrown(error: Value) | Suspended

  // ---- Registrations -------------------------------------------------------

  predicate External(meta: map<Key, Meta>, key: Key) {
    key.PromiseKey? && key in meta && meta[key].external
  }

  function AddReg(b: Board, key: Key, w: Waiter): Board {
    b.(waiters := b.waiters[key := RegsAt(b.waiters, key) + [w]])
  }

  /** A fresh `claimed` cell and the placeholder that carries it. */
  function Shield(b: Board, o: Owner, key: Key): Board {
    Enqueue(b.(nextObj := b.nextObj + 1), Placeholder(o, key, b.nextObj), PRIORITY_EXTERNAL_WAIT)
  }

  /** `register_pending_waiter` */
  function RegisterJoined(meta: map<Key, Meta>, b: Board, j: nat, o: Owner, key: Key): Board {
    if External(meta, key) then AddReg(Shield(b, o, key), key, Joined(o, j, Some(b.nextObj)))
    else AddReg(b, key, Joined(o, j, None))
  }

  function RegisterAll(meta: map<Key, Meta>, b: Board, j: nat, o: Owner, keys: seq<Key>): Board
    decreases |keys|
  {
    if keys == [] then b
    else RegisterAll(meta, RegisterJoined(meta, b, j, o, keys[0]), j, o, keys[1..])
  }

  function OpenJoin(meta: map<Key, Meta>, b: Board, g: Join): Board {
    RegisterAll(meta, b.(joins := b.joins[b.nextObj := g], nextObj := b.nextObj + 1), b.nextObj, g.owner,
                g.pendingKeys)
  }

  function ParkDirect(meta: map<Key, Meta>, b: Board, o: Owner, k: nat, key: Key, wake: Option<int>): Board {
    if External(meta, key) && wake == Some(PRIORITY_IDLE) then AddReg(b, key, Direct(o, k, None, None))
    else if External(meta, key) then AddReg(Shield(b, o, key), key, Direct(o, k, wake, Some(b.nextObj)))
    else AddReg(b, key, Direct(o, k, wake, None))
  }

  // ---- Effects -------------------------------------------------------------

  /** How a terminal waitable answers at once. */
  function Answer(meta: map<Key, Meta>, key: Key): Reply {
    match StatusOf(meta, key)
    case Completed => Resumed(ResultOf(meta, key))
    case Failed => Thrown(ResultOf(meta, key))
    case Cancelled => Thrown(TaskCancelledError)
    case _ => Suspended
  }

  function HandleWait(s: State, o: Owner, k: nat, key: Key, wake: Option<int>): (State, Reply) {
    if key !in s.meta then (s, Thrown(UnknownWaitable))
    else if Terminal(s.meta[key].status) then (s, Answer(s.meta, key))
    else (s.(board := ParkDirect(s.meta, s.board, o, k, key, wake)), Suspended)
  }

  /** The error of the first key, in order, that is unknown, failed or cancelled. */
  function FirstFailure(meta: map<Key, Meta>, keys: seq<Key>): Option<Value> {
    if keys == [] then None
    else if keys[0] !in meta then Some(UnknownWaitable)
    else if meta[keys[0]].status.Failed? then Some(meta[keys[0]].result)
    else if meta[keys[0]].status.Cancelled? then Some(TaskCancelledError)
    else FirstFailure(meta, keys[1..])
  }

  function PendingOf(meta: map<Key, Meta>, keys: seq<Key>): seq<Key> {
    if keys == [] then []
    else if Terminal(StatusOf(meta, keys[0])) then PendingOf(meta, keys[1..])
    else [keys[0]] + PendingOf(meta, keys[1..])
  }

  function HandleGather(s: State, o: Owner, k: nat, keys: seq<Key>): (State, Reply) {
    var failure := FirstFailure(s.meta, keys);
    var pending := PendingOf(s.meta, keys);
    if failure.Some? then (s, Thrown(failure.value))
    else if pending == [] then (s, Resumed(Many(Results(s.meta, keys))))
    else
      (s.(board := OpenJoin(s.meta, s.board, Join(GatherJoin, o, k, keys, pending, |pending|, false))), Suspended)
  }

  /** The answer of the first key, in order, that is unknown or terminal. */
  function FirstTerminal(meta: map<Key, Meta>, keys: seq<Key>): Option<Reply> {
    if keys == [] then None
    else if keys[0] !in meta then Some(Thrown(UnknownWaitable))
    else if Terminal(meta[keys[0]].status) then Some(Answer(meta, keys[0]))
    else FirstTerminal(meta, keys[1..])
  }

  function HandleRace(s: State, o: Owner, k: nat, keys: seq<Key>): (State, Reply) {
    var winner := FirstTerminal(s.meta, keys);
    if keys == [] then (s, Thrown(EmptyRace))
    else if winner.Some? then (s, winner.value)
    else (s.(board := OpenJoin(s.meta, s.board, Join(RaceJoin, o, k, keys, keys, 0, false))), Suspended)
  }

  ghost function HandleCancel(s: State, key: Key): (State, Reply) {
    if key in s.meta && !Terminal(s.meta[key].status) then
      (Resolve(s, key, Cancelled, TaskCancelledError).0, Resumed(Nothing))
    else (s, Resumed(Nothing))
  }

  /** `CompletePromise` and `FailPromise` */
  ghost function HandleSettle(s: State, o: Owner, k: nat, key: Key, st: Status, v: Value): (State, Reply) {
    if key !in s.meta then (s, Thrown(UnknownWaitable))
    else if s.meta[key].external then (s, Thrown(ExternalOnly))
    else if s.meta[key].status != Pending then (s, Thrown(AlreadyResolved))
    else
      var (s1, woken) := Resolve(s, key, st, v);
      (s1.(board := Enqueue(s1.board, Resume(o, k, Nothing), CompleterPriority(s1.meta, o, woken))), Suspended)
  }

  function CompleterPriority(meta: map<Key, Meta>, o: Owner, woken: Option<int>): int {
    var own := TaskPriority(meta, o);
    if woken.None? || own <= woken.value then own else woken.value
  }

  ghost function HandleCompleted(s: State, o: Owner, ok: bool, v: Value): (State, Reply)
    requires o.Of? && TaskKey(o.tid) in s.meta
  {
    if s.meta[TaskKey(o.tid)].status.Cancelled? then (s, Suspended)
    else (Resolve(s, TaskKey(o.tid), if ok then Completed else Failed, v).0, Suspended)
  }

  ghost function HandleSpawn(s: State, o: Owner, k: nat, prio: int, daemon: bool, live: set<nat>, h: nat)
    : (State, Reply)
  {
    var tid := s.nextId;
    var s1 := FreshId(s, live);
    var s2 := s1.(meta := s1.meta[TaskKey(tid) := Meta(Pending, Nothing, prio, daemon, false)],
                  board := Enqueue(s1.board, New(tid), prio));
    var s3 := Register(s2, TaskKey(tid), h, live);
    (s3.(board := Enqueue(s3.board, Resume(o, k, Handle(TaskKey(tid))), TaskPriority(s3.meta, o))), Suspended)
  }

  ghost function HandleCreate(s: State, external: bool, live: set<nat>, h: nat): (State, Reply) {
    var pid := s.nextId;
    var s1 := FreshId(s, live);
    var s2 := s1.(meta := s1.meta[PromiseKey(pid) := Meta(Pending, Nothing, PRIORITY_NORMAL, false, external)]);
    (Register(s2, PromiseKey(pid), h, live), Resumed(Handle(PromiseKey(pid))))
  }

  ghost function HandleSemaphore(s: State, permits: int, live: set<nat>): (State, Reply) {
    if permits < 1 then (s, Thrown(BadPermits))
    else
      var s1 := FreshId(s, live);
      (s1.(sems := s1.sems[s.nextId := Sem(permits, permits, [], multiset{})]), Resumed(SemaphoreHandle(s.nextId)))
  }

  function HandleAcquire(s: State, o: Owner, k: nat, sid: nat): (State, Reply)
    requires sid in s.sems
  {
    var sem := s.sems[sid];
    if sem.permits > 0 then
      (s.(sems := s.sems[sid := sem.(permits := sem.permits - 1, holders := sem.holders + multiset{o})]),
       Resumed(Nothing))
    else (s.(sems := s.sems[sid := sem.(queue := sem.queue + [Parked(o, k)])]), Suspended)
  }

  function HandleRelease(s: State, o: Owner, sid: nat): (State, Reply)
    requires sid in s.sems
  {
    var (s1, granted) := Grant(s, sid);
    if !granted && s1.sems[sid].permits >= s1.sems[sid].maxPermits then (s1, Thrown(OverReleased))
    else if granted then (DropHolder(s1, sid, o), Resumed(Nothing))
    else (Bank(DropHolder(s1, sid, o), sid), Resumed(Nothing))
  }

  /** What the program must own to perform `e`: live handles to its waitables, semaphores
      that exist; only a task completes itself. */
  ghost predicate WellTyped(s: State, o: Owner, e: Effect, handles: map<nat, Key>) {
    match e
    case TaskCompleted(_, _) => o.Of? && TaskKey(o.tid) in s.meta
    case Wait(key, _) => key in handles.Values
    case Gather(keys) => forall key :: key in keys ==> key in handles.Values
    case Race(keys) => forall key :: key in keys ==> key in handles.Values
    case Cancel(key) => key.TaskKey? && key in handles.Values
    case CompletePromise(key, _) => key.PromiseKey? && key in handles.Values
    case FailPromise(key, _) => key.PromiseKey? && key in handles.Values
    case Acquire(sid) => sid in s.sems
    case Release(sid) => sid in s.sems
    case _ => true
  }

  /** The branches of `handle_scheduler_effect`, after its `drain()`. */
  ghost function Handling(s: State, o: Owner, k: nat, e: Effect, live: set<nat>, h: nat): (State, Reply)
    requires e.TaskCompleted? ==> o.Of? && TaskKey(o.tid) in s.meta
    requires e.Acquire? || e.Release? ==> e.sid in s.sems
  {
    match e
    case Spawn(prio, daemon) => HandleSpawn(s, o, k, prio, daemon, live, h)
    case TaskCompleted(ok, v) => HandleCompleted(s, o, ok, v)
    case Wait(key, wake) => HandleWait(s, o, k, key, wake)
    case Gather(keys) => HandleGather(s, o, k, keys)
    case Race(keys) => HandleRace(s, o, k, keys)
    case Cancel(key) => HandleCancel(s, key)
    case CreatePromise => HandleCreate(s, false, live, h)
    case CreateExternalPromise => HandleCreate(s, true, live, h)
    case CompletePromise(key, v) => HandleSettle(s, o, k, key, Completed, v)
    case FailPromise(key, v) => HandleSettle(s, o, k, key, Failed, v)
    case CreateSemaphore(permits) => HandleSemaphore(s, permits, live)
    case Acquire(sid) => HandleAcquire(s, o, k, sid)
    case Release(sid) => HandleRelease(s, o, sid)
  }

  // ---- The dispatch loop ---------------------------------------------------

  /** The heap's minimum. */
  ghost predicate IsLeast(ready: set<Item>, x: Item) {
    x in ready && forall y :: y in ready ==> !Before(y, x)
  }

  lemma {:induction false} LeastExists(ready: set<Item>)
    requires ready != {}
    ensures exists x :: IsLeast(ready, x)
    decreases |ready|
  {
    var x :| x in ready;
    if ready != {x} {
      LeastExists(ready - {x});
      var y :| IsLeast(ready - {x}, y);
      var m := if Before(x, y) then x else y;
      forall z | z in ready ensures !Before(z, m) {
        if z != x { assert z in ready - {x}; }
      }
      assert IsLeast(ready, m);
    } else {
      assert IsLeast(ready, x);
    }
  }

  ghost function Least(ready: set<Item>): (x: Item)
    requires ready != {}
    ensures IsLeast(ready, x)
  {
    LeastExists(ready);
    var x :| IsLeast(ready, x); x
  }

  /** `is_live_daemon_entry` */
  predicate LiveDaemon(meta: map<Key, Meta>, e: Entry) {
    LiveEntry(meta, e) && IsDaemon(meta, EntryOwner(e))
  }

  /** A placeholder that still stands for a wait somebody is waiting in. */
  predicate Standing(meta: map<Key, Meta>, claimed: set<nat>, e: Entry) {
    e.Placeholder? && e.cell !in claimed && !IsCancelled(meta, e.owner)
  }

  /** `has_pending_external_waiters` */
  ghost predicate HasPendingExternal(meta: map<Key, Meta>, waiters: map<Key, seq<Waiter>>) {
    exists key, w :: key in waiters && w in waiters[key] && External(meta, key)
                     && !Terminal(meta[key].status) && !IsCancelled(meta, w.owner)
  }

  /** `live_parked_waiter_summary()` is not empty */
  ghost predicate HasLiveParked(meta: map<Key, Meta>, waiters: map<Key, seq<Waiter>>) {
    exists key, w :: key in waiters && w in waiters[key] && !IsCancelled(meta, w.owner)
  }

  /** The owners parked behind the semaphores in `c`. */
  ghost predicate ParkedBehind(sems: map<nat, Sem>, c: set<nat>, o: Owner) {
    exists sid, p :: sid in c && sid in sems && p in sems[sid].queue && p.owner == o
  }

  /** All permits of `sid` are held by owners parked behind `c`. */
  ghost predicate Hopeless(sems: map<nat, Sem>, c: set<nat>, sid: nat) {
    && sid in sems && sems[sid].holders != multiset{}
    && forall o :: o in sems[sid].holders ==> ParkedBehind(sems, c, o)
  }

  /** One round of pruning in `unreleasable_semaphores`. */
  ghost function KeepHopeless(sems: map<nat, Sem>, c: set<nat>): set<nat> {
    set sid | sid in c && Hopeless(sems, c, sid)
  }

  ghost function Unreleasable(sems: map<nat, Sem>, c: set<nat>): set<nat>
    decreases |c|
  {
    var kept := KeepHopeless(sems, c);
    if kept == c then c
    else
      assert |kept| < |c| by { SmallerSubset(kept, c); }
      Unreleasable(sems, kept)
  }

  lemma SmallerSubset<T>(a: set<T>, b: set<T>)
    requires a < b
    ensures |a| < |b|
  {
    assert b == a + (b - a);
  }

  /** `raise_if_semaphore_cycle_unresolvable` raises. */
  ghost predicate Doomed(sems: map<nat, Sem>) {
    Unreleasable(sems, Blocked(sems)) != {}
  }

  datatype Turn =
    | Again(s: State, held: set<Item>, shield: bool)
    | Chosen(s: State, entry: Entry)
    | Deadlocked(s: State)
    | NothingLeft(s: State)
    | Blocking

  function Pop(s: State, x: Item): State {
    s.(board := s.board.(ready := s.board.ready - {x}))
  }

  /** The `finally` block. */
  function Restore(s: State, held: set<Item>): State {
    s.(board := s.board.(ready := s.board.ready + held))
  }

  function Start(s: State, e: Entry): State {
    if e.New? && TaskKey(e.tid) in s.meta then
      s.(meta := s.meta[TaskKey(e.tid) := s.meta[TaskKey(e.tid)].(status := Running)])
    else s
  }

  /** A placeholder nothing may run past: check for a deadlock nothing else could resolve,
      then block for completions and queue the placeholder again if it still stands. */
  ghost function BlockOnPlaceholder(s: State, e: Entry, held: set<Item>, shield: bool, diagnose: bool): Turn
    requires e.Placeholder?
  {
    var idle := !HasLive(s.meta, s.board.ready, true);
    var s1 := if idle then s.(sems := PruneQueues(s.meta, s.sems)) else s;
    if diagnose && idle && Doomed(s1.sems) then Deadlocked(s1)
    else if s1.queue == [] then Blocking
    else
      var s2 := Drain(s1);
      if e.cell in s2.board.claimed then Again(s2, held, shield)
      else Again(s2.(board := Enqueue(s2.board, e, PRIORITY_EXTERNAL_WAIT)), held, shield)
  }

  /** The ready heap is empty. */
  ghost function BlockOnEmptyHeap(s: State, held: set<Item>, shield: bool, diagnose: bool): Turn {
    var s1 := s.(sems := PruneQueues(s.meta, s.sems));
    if diagnose && !HasPendingExternal(s1.meta, s1.board.waiters)
       && (Blocked(s1.sems) != {} || HasLiveParked(s1.meta, s1.board.waiters)) then Deadlocked(s1)
    else if diagnose && HasPendingExternal(s1.meta, s1.board.waiters) && Doomed(s1.sems) then Deadlocked(s1)
    else if s1.board.waiters == map[] then NothingLeft(s1)
    else if s1.queue == [] then Blocking
    else Again(Drain(s1), held, shield)
  }

  ghost function PopTurn(s: State, x: Item, held: set<Item>, shield: bool, diagnose: bool): Turn
  {
    var e := x.entry;
    var s1 := Pop(s, x);
    if shield && LiveDaemon(s.meta, e) then Again(s1, held + {x}, shield)
    else if e.Placeholder? then
      if !Standing(s.meta, s.board.claimed, e) then Again(s1, held, shield)
      else if HasLive(s.meta, s1.board.ready, false) then Again(s1, held + {x}, true)
      else BlockOnPlaceholder(s1, e, held, shield, diagnose)
    else if IsCancelled(s.meta, EntryOwner(e)) then
      Again(if e.Permit? && e.sid in s.sems then ReturnPermit(s1, e.sid, e.owner) else s1, held, shield)
    else Chosen(Start(Restore(s1, held), e), e)
  }

  /** One turn of the loops of `pick_next`.  `diagnose` is true in the scheduler; with
      false the deadlock checks are off, so that what they predict can be stated. */
  ghost function PickTurn(s: State, held: set<Item>, shield: bool, diagnose: bool): Turn
  {
    if s.board.ready == {} then BlockOnEmptyHeap(s, held, shield, diagnose)
    else PopTurn(s, Least(s.board.ready), held, shield, diagnose)
  }

  // ---- Runs ----------------------------------------------------------------

  datatype Phase =
    | Executing(owner: Owner)
    | Entering
    | Picking(held: set<Item>, shield: bool)
    | Returned
    | DeadlockRaised
    | RanDry

  /** `Entering` is `pick_next` before its first `drain()`.

      The scheduler with its surroundings: which continuation runs, the continuations
      captured so far and those already resumed, and the live handles. */
  datatype System = System(s: State, phase: Phase, nextCont: nat, spent: set<nat>,
                           handles: map<nat, Key>, nextHandle: nat)

  const START := System(EMPTY, Executing(Root), 0, {}, map[], 0)

  datatype Action =
    | Perform(e: Effect)
    | MintFuture(key: Key)
    | ReturnFromRoot
    | Enter
    | Dispatch
    | Arrive(c: Completion)
    | Collect(dead: set<nat>)

  ghost predicate Enabled(y: System, a: Action, diagnose: bool) {
    match a
    case Perform(e) => y.phase.Executing? && WellTyped(Drain(y.s), y.phase.owner, e, y.handles)
    case MintFuture(key) => y.phase.Executing? && key.PromiseKey? && key in y.handles.Values
    case ReturnFromRoot => y.phase == Executing(Root)
    case Enter => y.phase.Entering?
    case Dispatch => y.phase.Picking? && !PickTurn(y.s, y.phase.held, y.phase.shield, diagnose).Blocking?
    case Arrive(_) => true
    case Collect(_) => true
  }

  function EntryConts(e: Entry): set<nat> {
    if e.New? || e.Placeholder? then {} else {e.cont}
  }

  /** The key, if any, that performing `e` in (drained) state `s` creates a handle for. */
  function Created(s: State, e: Effect): Option<Key> {
    if e.Spawn? then Some(TaskKey(s.nextId))
    else if e.CreatePromise? || e.CreateExternalPromise? then Some(PromiseKey(s.nextId))
    else None
  }

  ghost function PerformStep(y: System, e: Effect): System
    requires y.phase.Executing? && WellTyped(Drain(y.s), y.phase.owner, e, y.handles)
  {
    var d := Drain(y.s);
    var (s1, reply) := Handling(d, y.phase.owner, y.nextCont, e, y.handles.Keys, y.nextHandle);
    var created := Created(d, e);
    System(s1,
           if reply.Suspended? then Entering else y.phase,
           y.nextCont + 1,
           if reply.Suspended? then y.spent else y.spent + {y.nextCont},
           if created.Some? then y.handles[y.nextHandle := created.value] else y.handles,
           if created.Some? then y.nextHandle + 1 else y.nextHandle)
  }

  function Turned(y: System, t: Turn): System {
    match t
    case Again(s1, held, shield) => y.(s := s1, phase := Picking(held, shield))
    case Chosen(s1, e) => y.(s := s1, phase := Executing(EntryOwner(e)), spent := y.spent + EntryConts(e))
    case Deadlocked(s1) => y.(s := s1, phase := DeadlockRaised)
    case NothingLeft(s1) => y.(s := s1, phase := RanDry)
    case Blocking => y
  }

  ghost function DispatchStep(y: System, diagnose: bool): System
    requires y.phase.Picking?
  {
    Turned(y, PickTurn(y.s, y.phase.held, y.phase.shield, diagnose))
  }

  ghost function Step(y: System, a: Action, diagnose: bool): System
    requires Enabled(y, a, diagnose)
  {
    match a
    case Perform(e) => PerformStep(y, e)
    case MintFuture(key) =>
      y.(s := Register(y.s, key, y.nextHandle, y.handles.Keys),
         handles := y.handles[y.nextHandle := key], nextHandle := y.nextHandle + 1)
    case ReturnFromRoot => y.(phase := Returned)
    case Enter => y.(s := Drain(y.s), phase := Picking({}, false))
    case Dispatch => DispatchStep(y, diagnose)
    case Arrive(c) => y.(s := y.s.(queue := y.s.queue + [c]))
    case Collect(dead) => y.(handles := y.handles - dead)
  }

  /** `acts` can be performed one after the other from `y`. */
  ghost predicate Possible(y: System, acts: seq<Action>, diagnose: bool)
    decreases |acts|
  {
    acts != [] ==> Enabled(y, acts[0], diagnose) && Possible(Step(y, acts[0], diagnose), acts[1..], diagnose)
  }

  ghost function After(y: System, acts: seq<Action>, diagnose: bool): System
    requires Possible(y, acts, diagnose)
    decreases |acts|
  {
    if acts == [] then y else After(Step(y, acts[0], diagnose), acts[1..], diagnose)
  }
}
