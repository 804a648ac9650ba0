/** What holds in every state of every run.  `spot` says where the continuation of each owner
    that is not running is kept; `cellKey` says which waitable each `claimed` cell is about. */
module SchedulerInvariant {
  import opened Wrappers
  import opened SchedulerModel
  import opened SchedulerSteps

  datatype Spot =
    | Unstarted(order: nat)
    | AtReady(order: nat, cont: nat)
    | AtWait(key: Key, cont: nat)
    | AtJoin(join: nat, cont: nat)
    | AtSem(sid: nat, cont: nat)

  type Spots = map<Owner, Spot>

  // ---- Every continuation is in exactly one place --------------------------

  predicate Carries(e: Entry, o: Owner) { !e.Placeholder? && EntryOwner(e) == o }

  function SpotOf(x: Item): Spot
    requires !x.entry.Placeholder?
  {
    if x.entry.New? then Unstarted(x.order) else AtReady(x.order, x.entry.cont)
  }

  ghost predicate CarriedBy(items: set<Item>, o: Owner, sp: Spot) {
    exists x :: x in items && Carries(x.entry, o) && SpotOf(x) == sp
  }

  ghost predicate ItemsPlaced(items: set<Item>, spot: Spots) {
    && (forall x :: x in items && !x.entry.Placeholder? ==>
          EntryOwner(x.entry) in spot && spot[EntryOwner(x.entry)] == SpotOf(x))
    && (forall o :: o in spot && (spot[o].Unstarted? || spot[o].AtReady?) ==> CarriedBy(items, o, spot[o]))
  }

  ghost predicate OrdersDistinct(items: set<Item>, nextSeq: nat) {
    && (forall x :: x in items ==> x.order < nextSeq)
    && (forall x, y :: x in items && y in items && x.order == y.order ==> x == y)
  }

  ghost predicate WaitingIn(waiters: map<Key, seq<Waiter>>, o: Owner, key: Key, k: nat) {
    key in waiters && exists w :: w in waiters[key] && w.Direct? && w.owner == o && w.cont == k
  }

  ghost predicate WaitsPlaced(waiters: map<Key, seq<Waiter>>, spot: Spots) {
    && (forall key, w :: key in waiters && w in waiters[key] && w.Direct? ==>
          w.owner in spot && spot[w.owner] == AtWait(key, w.cont))
    && (forall o :: o in spot && spot[o].AtWait? ==> WaitingIn(waiters, o, spot[o].key, spot[o].cont))
  }

  ghost predicate JoinsPlaced(joins: map<nat, Join>, spot: Spots) {
    && (forall j :: j in joins && !joins[j].resolved ==>
          joins[j].owner in spot && spot[joins[j].owner] == AtJoin(j, joins[j].cont))
    && (forall o :: o in spot && spot[o].AtJoin? ==>
          spot[o].join in joins && !joins[spot[o].join].resolved
          && joins[spot[o].join].owner == o && joins[spot[o].join].cont == spot[o].cont)
  }

  predicate NoDuplicates<T(==)>(q: seq<T>) {
    q == [] || (q[0] !in q[1..] && NoDuplicates(q[1..]))
  }

  ghost predicate SemsPlaced(sems: map<nat, Sem>, spot: Spots) {
    && (forall sid, p :: sid in sems && p in sems[sid].queue ==>
          p.owner in spot && spot[p.owner] == AtSem(sid, p.cont))
    && (forall o :: o in spot && spot[o].AtSem? ==>
          spot[o].sid in sems && Parked(o, spot[o].cont) in sems[spot[o].sid].queue)
    && (forall sid :: sid in sems ==> NoDuplicates(sems[sid].queue))
  }

  /** Two registrations in one list that would resume one continuation twice, or share a cell. */
  predicate Clash(a: Waiter, b: Waiter) {
    || (a.Direct? && b.Direct? && a.owner == b.owner)
    || (a.cell.Some? && a.cell == b.cell)
  }

  predicate NoClash(ws: seq<Waiter>) {
    ws == [] || ((forall w :: w in ws[1..] ==> !Clash(ws[0], w)) && NoClash(ws[1..]))
  }

  ghost predicate ListsClean(waiters: map<Key, seq<Waiter>>) {
    forall key :: key in waiters ==> waiters[key] != [] && NoClash(waiters[key])
  }

  function ContOf(sp: Spot): Option<nat> { if sp.Unstarted? then None else Some(sp.cont) }

  /** Kept continuations are distinct, were captured, and have not been resumed. */
  ghost predicate OneShot(spot: Spots, nextCont: nat, spent: set<nat>) {
    && (forall k :: k in spent ==> k < nextCont)
    && (forall o :: o in spot && !spot[o].Unstarted? ==> spot[o].cont < nextCont && spot[o].cont !in spent)
    && (forall o, p :: o in spot && p in spot && !spot[o].Unstarted? && ContOf(spot[o]) == ContOf(spot[p]) ==> o == p)
  }

  /** Only tasks that have not finished are kept anywhere, and unstarted ones as such. */
  ghost predicate OwnersKnown(spot: Spots, meta: map<Key, Meta>) {
    && (Root in spot ==> !spot[Root].Unstarted?)
    && (forall t :: Of(t) in spot ==>
          TaskKey(t) in meta
          && (if spot[Of(t)].Unstarted? then meta[TaskKey(t)].status.Pending? || meta[TaskKey(t)].status.Cancelled?
              else meta[TaskKey(t)].status.Running? || meta[TaskKey(t)].status.Cancelled?))
  }

  predicate Alive(meta: map<Key, Meta>, o: Owner) {
    o.Of? ==> TaskKey(o.tid) in meta && !Terminal(meta[TaskKey(o.tid)].status)
  }

  /** The root, or a task that has been started and has not finished. */
  predicate Started(meta: map<Key, Meta>, o: Owner) {
    o.Of? ==>
      TaskKey(o.tid) in meta && (meta[TaskKey(o.tid)].status.Running? || meta[TaskKey(o.tid)].status.Cancelled?)
  }

  /** No live owner is lost; `running` is the one owner, if any, that is executing. */
  ghost predicate NobodyLost(spot: Spots, meta: map<Key, Meta>, running: Option<Owner>) {
    && (forall o :: Alive(meta, o) ==> o in spot || running == Some(o))
    && (running.Some? ==> running.value !in spot && Started(meta, running.value))
  }

  // ---- Waitables, registrations and counts ---------------------------------

  /** `busy` is the waitable, if any, whose waiters are being woken: it is already terminal. */
  ghost predicate KeysPending(waiters: map<Key, seq<Waiter>>, meta: map<Key, Meta>, busy: Option<Key>) {
    && (forall key :: key in waiters ==> key in meta && (Terminal(meta[key].status) <==> busy == Some(key)))
    && (busy.Some? ==> busy.value in meta && Terminal(meta[busy.value].status))
  }

  ghost predicate RegsKnown(waiters: map<Key, seq<Waiter>>, joins: map<nat, Join>, busy: Option<Key>, nextObj: nat) {
    && (forall j :: j in joins ==> j < nextObj)
    && (forall key, w :: key in waiters && w in waiters[key] && w.Joined? ==>
          w.join in joins && joins[w.join].owner == w.owner && key in joins[w.join].pendingKeys
          && (joins[w.join].resolved ==> busy == Some(key)))
  }

  function Count(ws: seq<Waiter>, j: nat): nat {
    if ws == [] then 0 else (if OfJoin(ws[0], j) then 1 else 0) + Count(ws[1..], j)
  }

  function Occurrences(keys: seq<Key>, key: Key): nat {
    if keys == [] then 0 else (if keys[0] == key then 1 else 0) + Occurrences(keys[1..], key)
  }

  /** The positions of `keys` that are still pending. */
  function Outstanding(meta: map<Key, Meta>, keys: seq<Key>): nat {
    if keys == [] then 0
    else (if Terminal(StatusOf(meta, keys[0])) then 0 else 1) + Outstanding(meta, keys[1..])
  }

  /** Registrations of `j` that the wake in progress has still to visit. */
  function Unvisited(waiters: map<Key, seq<Waiter>>, j: nat, busy: Option<Key>): nat {
    if busy.Some? then Count(RegsAt(waiters, busy.value), j) else 0
  }

  ghost predicate Counted(waiters: map<Key, seq<Waiter>>, j: nat, g: Join, meta: map<Key, Meta>, busy: Option<Key>) {
    && (forall key :: key in meta && !Terminal(meta[key].status) ==>
          Count(RegsAt(waiters, key), j) == Occurrences(g.keys, key))
    && (forall key :: key in g.keys ==>
          key in meta
          && (Terminal(meta[key].status) ==>
                || (g.kind.GatherJoin? && meta[key].status.Completed?)
                || (busy == Some(key) && Count(RegsAt(waiters, key), j) > 0)))
    && Outstanding(meta, g.keys) + Unvisited(waiters, j, busy) > 0
    && (g.kind.GatherJoin? ==> g.remaining == Outstanding(meta, g.keys) + Unvisited(waiters, j, busy))
  }

  ghost predicate JoinsCounted(waiters: map<Key, seq<Waiter>>, joins: map<nat, Join>, meta: map<Key, Meta>,
                               busy: Option<Key>) {
    forall j :: j in joins && !joins[j].resolved ==> Counted(waiters, j, joins[j], meta, busy)
  }

  // ---- Placeholders and their cells ----------------------------------------

  ghost predicate CellsUnclaimed(waiters: map<Key, seq<Waiter>>, claimed: set<nat>, meta: map<Key, Meta>,
                                 cellKey: map<nat, Key>, nextObj: nat) {
    && (forall c :: c in cellKey ==> c < nextObj)
    && (forall c :: c in claimed ==> c < nextObj)
    && (forall key, w :: key in waiters && w in waiters[key] && w.cell.Some? ==>
          w.cell.value !in claimed && w.cell.value in cellKey && cellKey[w.cell.value] == key && External(meta, key))
  }

  ghost predicate Registered(waiters: map<Key, seq<Waiter>>, o: Owner, key: Key, c: nat) {
    key in waiters && exists w :: w in waiters[key] && w.owner == o && w.cell == Some(c)
  }

  ghost predicate PlaceholdersPaired(items: set<Item>, waiters: map<Key, seq<Waiter>>, claimed: set<nat>,
                                     nextObj: nat) {
    forall x :: x in items && x.entry.Placeholder? ==>
      x.entry.cell < nextObj
      && (x.entry.cell !in claimed ==> Registered(waiters, x.entry.owner, x.entry.key, x.entry.cell))
  }

  // ---- Permits -------------------------------------------------------------

  ghost predicate SemsSound(sems: map<nat, Sem>) {
    forall sid :: sid in sems ==>
      0 <= sems[sid].permits && (sems[sid].permits > 0 ==> sems[sid].queue == [])
  }

  /** A permit in flight is counted as held by the owner it travels to. */
  ghost predicate PermitsHeld(items: set<Item>, sems: map<nat, Sem>) {
    forall x :: x in items && x.entry.Permit? ==>
      x.entry.sid in sems && x.entry.owner in sems[x.entry.sid].holders
  }

  // ---- Identifiers and handles ---------------------------------------------

  ghost predicate IdsFresh(meta: map<Key, Meta>, sems: map<nat, Sem>, refs: map<Key, seq<nat>>, nextId: nat) {
    && (forall key :: key in meta ==> key.id < nextId)
    && (forall sid :: sid in sems ==> sid < nextId)
    && (forall key :: key in refs ==> key in meta)
  }

  ghost predicate HandlesRegistered(refs: map<Key, seq<nat>>, handles: map<nat, Key>) {
    forall h :: h in handles ==> handles[h] in refs && h in refs[handles[h]]
  }

  // ---- The whole -----------------------------------------------------------

  /** The clauses about the board, but for the counting of joins, given where continuations
      are and the heap items (those in the heap and those `pick_next` holds out of it). */
  ghost predicate BoardPlaced(b: Board, items: set<Item>, meta: map<Key, Meta>, spot: Spots,
                              cellKey: map<nat, Key>, busy: Option<Key>) {
    && ItemsPlaced(items, spot)
    && OrdersDistinct(items, b.nextSeq)
    && WaitsPlaced(b.waiters, spot)
    && JoinsPlaced(b.joins, spot)
    && ListsClean(b.waiters)
    && KeysPending(b.waiters, meta, busy)
    && RegsKnown(b.waiters, b.joins, busy, b.nextObj)
    && CellsUnclaimed(b.waiters, b.claimed, meta, cellKey, b.nextObj)
    && PlaceholdersPaired(items, b.waiters, b.claimed, b.nextObj)
  }

  ghost predicate BoardSound(b: Board, items: set<Item>, meta: map<Key, Meta>, spot: Spots,
                             cellKey: map<nat, Key>, busy: Option<Key>) {
    BoardPlaced(b, items, meta, spot, cellKey, busy) && JoinsCounted(b.waiters, b.joins, meta, busy)
  }

  ghost predicate Sound(s: State, items: set<Item>, spot: Spots, cellKey: map<nat, Key>) {
    && BoardSound(s.board, items, s.meta, spot, cellKey, None)
    && SemsPlaced(s.sems, spot)
    && SemsSound(s.sems)
    && PermitsHeld(items, s.sems)
    && OwnersKnown(spot, s.meta)
    && IdsFresh(s.meta, s.sems, s.refs, s.nextId)
  }
}
