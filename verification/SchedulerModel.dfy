/** The state of one `scheduled` run and the operations its closures perform on it.

    `tasks` and `promises` are one map addressed by waitable key, as `waitable_status`
    addresses them.  Python objects with identity (gather states, race states and
    `claimed` cells) are addressed by object numbers drawn from `nextObj`. */
module SchedulerModel {
  import opened Wrappers

  const PRIORITY_IDLE := 0
  const PRIORITY_EXTERNAL_WAIT := 5
  const PRIORITY_NORMAL := 10
  const HANDLE_SWEEP_INTERVAL := 1024
  const HANDLE_REFS_PRUNE_MIN := 8

  datatype Key = TaskKey(id: nat) | PromiseKey(id: nat)

  /** Whose a continuation is; `Root` is Python's owner `None`. */
  datatype Owner = Root | Of(tid: nat)

  datatype Status = Pending | Running | Completed | Failed | Cancelled

  predicate Terminal(st: Status) { st.Completed? || st.Failed? || st.Cancelled? }

  /** Results and errors are opaque except for the ones the scheduler itself builds. */
  datatype Value =
    | Nothing
    | User(id: int)
    | Handle(key: Key)
    | SemaphoreHandle(sid: nat)
    | Many(items: seq<Value>)
    | TaskCancelledError
    | UnknownWaitable
    | EmptyRace
    | BadPermits
    | AlreadyResolved
    | ExternalOnly
    | OverReleased

  datatype Meta = Meta(status: Status, result: Value, priority: int, daemon: bool, external: bool)

  datatype Entry =
    | New(tid: nat)
    | Resume(owner: Owner, cont: nat, value: Value)
    | Raise(owner: Owner, cont: nat, value: Value)
    | Permit(owner: Owner, cont: nat, sid: nat)
    | Placeholder(owner: Owner, key: Key, cell: nat)

  datatype Item = Item(prio: int, order: nat, entry: Entry)

  /** The heap order on (-priority, insertion order). */
  predicate Before(a: Item, b: Item) {
    a.prio > b.prio || (a.prio == b.prio && a.order < b.order)
  }

  /** `Direct` is a "wait" (no cell) or "wait_external" (cell) registration,
      `Joined` a "gather" or "race" one. */
  datatype Waiter =
    | Direct(owner: Owner, cont: nat, wake: Option<int>, cell: Option<nat>)
    | Joined(owner: Owner, join: nat, cell: Option<nat>)

  datatype JoinKind = GatherJoin | RaceJoin

  /** A gather or race state; a race has no `keys` of its own, so there they repeat
      `pendingKeys`, and `remaining` is unused. */
  datatype Join = Join(kind: JoinKind, owner: Owner, cont: nat, keys: seq<Key>,
                       pendingKeys: seq<Key>, remaining: int, resolved: bool)

  datatype Parked = Parked(owner: Owner, cont: nat)

  /** The order of `holders` is never read, so it is a multiset. */
  datatype Sem = Sem(permits: int, maxPermits: int, queue: seq<Parked>, holders: multiset<Owner>)

  datatype Completion = Completion(ok: bool, id: nat, value: Value)

  /** The heap, the registrations and the objects they share: all that waking touches. */
  datatype Board = Board(
    ready: set<Item>, nextSeq: nat,
    waiters: map<Key, seq<Waiter>>, joins: map<nat, Join>, claimed: set<nat>, nextObj: nat)

  datatype State = State(
    board: Board, meta: map<Key, Meta>, sems: map<nat, Sem>, nextId: nat,
    queue: seq<Completion>, refs: map<Key, seq<nat>>, pruneAt: map<Key, nat>)

  const EMPTY := State(Board({}, 0, map[], map[], {}, 0), map[], map[], 0, [], map[], map[])

  // ---- Queries -------------------------------------------------------------

  predicate IsCancelled(meta: map<Key, Meta>, o: Owner) {
    o.Of? && TaskKey(o.tid) in meta && meta[TaskKey(o.tid)].status.Cancelled?
  }

  predicate IsDaemon(meta: map<Key, Meta>, o: Owner) {
    o.Of? && TaskKey(o.tid) in meta && meta[TaskKey(o.tid)].daemon
  }

  function TaskPriority(meta: map<Key, Meta>, o: Owner): int {
    if o.Of? && TaskKey(o.tid) in meta then meta[TaskKey(o.tid)].priority else PRIORITY_NORMAL
  }

  function StatusOf(meta: map<Key, Meta>, key: Key): Status {
    if key in meta then meta[key].status else Pending
  }

  function ResultOf(meta: map<Key, Meta>, key: Key): Value {
    if key in meta then meta[key].result else UnknownWaitable
  }

  function EntryOwner(e: Entry): Owner {
    if e.New? then Of(e.tid) else e.owner
  }

  predicate LiveEntry(meta: map<Key, Meta>, e: Entry) {
    !e.Placeholder? && !IsCancelled(meta, EntryOwner(e))
  }

  /** `has_live_ready_entry` */
  predicate HasLive(meta: map<Key, Meta>, ready: set<Item>, daemons: bool) {
    exists x :: x in ready && LiveEntry(meta, x.entry) && (daemons || !IsDaemon(meta, EntryOwner(x.entry)))
  }

  // ---- The ready heap ------------------------------------------------------

  function Enqueue(b: Board, e: Entry, prio: int): Board {
    b.(ready := b.ready + {Item(prio, b.nextSeq, e)}, nextSeq := b.nextSeq + 1)
  }

  /** What a waiter is sent for a resolved waitable: its value, or its error. */
  function Delivery(st: Status, result: Value, o: Owner, k: nat): Entry {
    if st.Completed? then Resume(o, k, result)
    else if st.Failed? then Raise(o, k, result)
    else Raise(o, k, TaskCancelledError)
  }

  // ---- Waking --------------------------------------------------------------

  function RegsAt(waiters: map<Key, seq<Waiter>>, key: Key): seq<Waiter> {
    if key in waiters then waiters[key] else []
  }

  predicate OfJoin(w: Waiter, j: nat) { w.Joined? && w.join == j }

  function Without(ws: seq<Waiter>, j: nat): seq<Waiter> {
    if ws == [] then []
    else if OfJoin(ws[0], j) then Without(ws[1..], j)
    else [ws[0]] + Without(ws[1..], j)
  }

  ghost function WithdrawRegs(waiters: map<Key, seq<Waiter>>, j: nat, pending: seq<Key>): map<Key, seq<Waiter>> {
    map key | key in waiters && (key in pending ==> Without(waiters[key], j) != []) ::
      if key in pending then Without(waiters[key], j) else waiters[key]
  }

  ghost function CellsOf(waiters: map<Key, seq<Waiter>>, j: nat, pending: seq<Key>): set<nat> {
    set key, w | key in waiters && key in pending && w in waiters[key] && OfJoin(w, j) && w.cell.Some? ::
      w.cell.value
  }

  /** `remove_gather_waiters` / `remove_race_waiters` */
  ghost function RemoveRegs(b: Board, j: nat, pending: seq<Key>): Board {
    b.(waiters := WithdrawRegs(b.waiters, j, pending), claimed := b.claimed + CellsOf(b.waiters, j, pending))
  }

  function Results(meta: map<Key, Meta>, keys: seq<Key>): seq<Value> {
    if keys == [] then [] else [ResultOf(meta, keys[0])] + Results(meta, keys[1..])
  }

  function Settle(b: Board, j: nat): Board
    requires j in b.joins
  {
    b.(joins := b.joins[j := b.joins[j].(resolved := true)])
  }

  /** A resolution of join `j` that does not wait for its other registrations: it drops them. */
  ghost function CloseJoin(meta: map<Key, Meta>, b: Board, j: nat, key: Key): Board
    requires j in b.joins
  {
    var g := b.joins[j];
    Enqueue(RemoveRegs(Settle(b, j), j, g.pendingKeys),
            Delivery(StatusOf(meta, key), ResultOf(meta, key), g.owner, g.cont),
            TaskPriority(meta, g.owner))
  }

  /** The last of a gather's waitables has completed. */
  function FinishGather(meta: map<Key, Meta>, b: Board, j: nat): Board
    requires j in b.joins
  {
    var g := b.joins[j];
    Enqueue(b.(joins := b.joins[j := g.(remaining := 0, resolved := true)]),
            Resume(g.owner, g.cont, Many(Results(meta, g.keys))), TaskPriority(meta, g.owner))
  }

  function CountDown(b: Board, j: nat): Board
    requires j in b.joins
  {
    b.(joins := b.joins[j := b.joins[j].(remaining := b.joins[j].remaining - 1)])
  }

  /** Whether the completion of `key` resolves `g`, and whether before its count runs out. */
  predicate ClosesEarly(meta: map<Key, Meta>, g: Join, key: Key) {
    g.kind.RaceJoin? || !StatusOf(meta, key).Completed?
  }

  /** `wake_gather_waiter` / `wake_race_waiter` */
  ghost function WakeJoin(meta: map<Key, Meta>, b: Board, j: nat, key: Key): (Board, Option<int>) {
    if j !in b.joins || b.joins[j].resolved || !Terminal(StatusOf(meta, key)) then (b, None)
    else if ClosesEarly(meta, b.joins[j], key) then
      (CloseJoin(meta, b, j, key), Some(TaskPriority(meta, b.joins[j].owner)))
    else if b.joins[j].remaining == 1 then
      (FinishGather(meta, b, j), Some(TaskPriority(meta, b.joins[j].owner)))
    else (CountDown(b, j), None)
  }

  function Claim(b: Board, cell: Option<nat>): Board {
    if cell.Some? then b.(claimed := b.claimed + {cell.value}) else b
  }

  /** `resume_with_waitable_result` */
  function WakeDirect(meta: map<Key, Meta>, b: Board, key: Key, o: Owner, k: nat, wake: Option<int>)
    : (Board, Option<int>)
  {
    if Terminal(StatusOf(meta, key)) then
      var prio := if wake.Some? then wake.value else TaskPriority(meta, o);
      (Enqueue(b, Delivery(StatusOf(meta, key), ResultOf(meta, key), o, k), prio), Some(prio))
    else (b, None)
  }

  ghost function WakeOne(meta: map<Key, Meta>, b: Board, key: Key, w: Waiter): (Board, Option<int>) {
    if w.Direct? then WakeDirect(meta, Claim(b, w.cell), key, w.owner, w.cont, w.wake)
    else WakeJoin(meta, Claim(b, w.cell), w.join, key)
  }

  function MinPriority(a: Option<int>, b: Option<int>): Option<int> {
    if a.None? then b else if b.None? then a else if a.value <= b.value then a else b
  }

  ghost function WakeAll(meta: map<Key, Meta>, b: Board, key: Key, ws: seq<Waiter>): (Board, Option<int>)
    decreases |ws|
  {
    if ws == [] then (b, None)
    else
      var (b1, p1) := WakeOne(meta, b, key, ws[0]);
      var (b2, p2) := WakeAll(meta, b1, key, ws[1..]);
      (b2, MinPriority(p1, p2))
  }

  /** `wake_waiters`: the new board and the least priority anything was queued at. */
  ghost function Wake(meta: map<Key, Meta>, b: Board, key: Key): (Board, Option<int>) {
    WakeAll(meta, b.(waiters := b.waiters - {key}), key, RegsAt(b.waiters, key))
  }

  function WithStatus(meta: map<Key, Meta>, key: Key, st: Status, v: Value): map<Key, Meta>
    requires key in meta
  {
    meta[key := meta[key].(status := st, result := v)]
  }

  /** A waitable reaches a terminal status and its waiters are woken. */
  ghost function Resolve(s: State, key: Key, st: Status, v: Value): (State, Option<int>)
    requires key in s.meta
  {
    var meta := WithStatus(s.meta, key, st, v);
    var (b, p) := Wake(meta, s.board, key);
    (s.(meta := meta, board := b), p)
  }

  ghost function DrainOne(s: State): State
    requires s.queue != []
  {
    var c := s.queue[0];
    var s1 := s.(queue := s.queue[1..]);
    if StatusOf(s.meta, PromiseKey(c.id)).Pending? && PromiseKey(c.id) in s.meta then
      Resolve(s1, PromiseKey(c.id), if c.ok then Completed else Failed, c.value).0
    else s1
  }

  /** `drain` */
  ghost function Drain(s: State): State
    decreases |s.queue|
  {
    if s.queue == [] then s else Drain(DrainOne(s))
  }

  // ---- Semaphores ----------------------------------------------------------

  /** `pop_live_semaphore_waiter`: what is left of the queue from its first live waiter on. */
  function FromLive(meta: map<Key, Meta>, q: seq<Parked>): seq<Parked> {
    if q == [] then [] else if IsCancelled(meta, q[0].owner) then FromLive(meta, q[1..]) else q
  }

  /** `grant_permit_to_next_waiter` */
  function Grant(s: State, sid: nat): (State, bool)
    requires sid in s.sems
  {
    var sem := s.sems[sid];
    var q := FromLive(s.meta, sem.queue);
    if q == [] then (s.(sems := s.sems[sid := sem.(queue := [])]), false)
    else
      (s.(sems := s.sems[sid := sem.(queue := q[1..], holders := sem.holders + multiset{q[0].owner})],
          board := Enqueue(s.board, Permit(q[0].owner, q[0].cont, sid), TaskPriority(s.meta, q[0].owner))),
       true)
  }

  function Bank(s: State, sid: nat): State
    requires sid in s.sems
  {
    s.(sems := s.sems[sid := s.sems[sid].(permits := s.sems[sid].permits + 1)])
  }

  function DropHolder(s: State, sid: nat, o: Owner): State
    requires sid in s.sems
  {
    s.(sems := s.sems[sid := s.sems[sid].(holders := s.sems[sid].holders - multiset{o})])
  }

  /** `return_inflight_permit` */
  function ReturnPermit(s: State, sid: nat, o: Owner): State
    requires sid in s.sems
  {
    var (s1, granted) := Grant(DropHolder(s, sid, o), sid);
    if granted then s1 else Bank(s1, sid)
  }

  function LiveQueue(meta: map<Key, Meta>, q: seq<Parked>): seq<Parked> {
    if q == [] then []
    else if IsCancelled(meta, q[0].owner) then LiveQueue(meta, q[1..])
    else [q[0]] + LiveQueue(meta, q[1..])
  }

  /** `live_semaphore_waiters` prunes cancelled waiters from every queue ... */
  function PruneQueues(meta: map<Key, Meta>, sems: map<nat, Sem>): map<nat, Sem> {
    map sid | sid in sems :: sems[sid].(queue := LiveQueue(meta, sems[sid].queue))
  }

  /** ... and returns the semaphores that still have one. */
  function Blocked(sems: map<nat, Sem>): set<nat> {
    set sid | sid in sems && sems[sid].queue != []
  }

  // ---- Identifiers and handles ---------------------------------------------

  function LiveRefs(refs: seq<nat>, live: set<nat>): seq<nat> {
    if refs == [] then []
    else if refs[0] in live then [refs[0]] + LiveRefs(refs[1..], live)
    else LiveRefs(refs[1..], live)
  }

  /** `register_handle` */
  function Register(s: State, key: Key, h: nat, live: set<nat>): State {
    var refs := if key in s.refs then s.refs[key] else [];
    var limit := if key in s.pruneAt then s.pruneAt[key] else HANDLE_REFS_PRUNE_MIN;
    if |refs| >= limit then
      var kept := LiveRefs(refs, live);
      s.(refs := s.refs[key := kept + [h]],
         pruneAt := s.pruneAt[key := if 2 * |kept| > HANDLE_REFS_PRUNE_MIN then 2 * |kept| else HANDLE_REFS_PRUNE_MIN])
    else s.(refs := s.refs[key := refs + [h]])
  }

  ghost predicate Protected(b: Board, key: Key) {
    exists at, w :: at in b.waiters && w in b.waiters[at] && w.Joined? && w.join in b.joins
                    && key in b.joins[w.join].keys
  }

  ghost predicate Sweepable(s: State, live: set<nat>, key: Key) {
    && key in s.meta && (s.meta[key].status.Completed? || s.meta[key].status.Failed?)
    && key !in s.board.waiters && !Protected(s.board, key)
    && key in s.refs && forall h :: h in s.refs[key] ==> h !in live
  }

  /** `sweep_terminal_unobserved_entries` */
  ghost function Sweep(s: State, live: set<nat>): State {
    s.(meta := map key | key in s.meta && !Sweepable(s, live, key) :: s.meta[key],
       refs := map key | key in s.refs && !Sweepable(s, live, key) :: s.refs[key],
       pruneAt := map key | key in s.pruneAt && !Sweepable(s, live, key) :: s.pruneAt[key])
  }

  /** `fresh_id`; the identifier itself is the old `nextId`. */
  ghost function FreshId(s: State, live: set<nat>): State {
    var s1 := s.(nextId := s.nextId + 1);
    if s1.nextId % HANDLE_SWEEP_INTERVAL == 0 then Sweep(s1, live) else s1
  }
}
