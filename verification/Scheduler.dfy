/** The closures of `scheduled` as they are written, on fields they update in place.  Each is
    proved equal to the function on `State` that the rest of the project reasons about. */
module SchedulerObject {
  import opened Wrappers
  import opened SchedulerModel
  import opened SchedulerSteps
  import opened SchedulerInvariant
  import opened SchedulerDispatch
  import opened DeadlockDetector
  import opened PickOrder

  /** The cells of join `j` among some registrations. */
  ghost function Cells(entries: seq<Waiter>, j: nat): set<nat> {
    set w | w in entries && OfJoin(w, j) && w.cell.Some? :: w.cell.value
  }

  lemma OneEntry(entries: seq<Waiter>, i: nat, j: nat)
    requires i < |entries|
    ensures Without(entries[i..], j)
         == (if OfJoin(entries[i], j) then Without(entries[i + 1..], j)
            else [entries[i]] + Without(entries[i + 1..], j))
    ensures Cells(entries[..i + 1], j) == Cells(entries[..i], j) + Cells([entries[i]], j)
  {
    assert entries[..i + 1] == entries[..i] + [entries[i]];
    assert entries[i..][1..] == entries[i + 1..];
    forall c | c in Cells(entries[..i + 1], j) ensures c in Cells(entries[..i], j) + Cells([entries[i]], j) {}
  }

  lemma WithdrawOne(all: map<Key, seq<Waiter>>, j: nat, done: seq<Key>, key: Key)
    requires key !in done
    ensures var cur := WithdrawRegs(all, j, done); var kept := Without(RegsAt(all, key), j);
            && RegsAt(cur, key) == RegsAt(all, key) && (key in cur <==> key in all)
            && WithdrawRegs(all, j, done + [key])
               == (if key in all && kept != [] then cur[key := kept] else cur - {key})
  {
  }

  lemma CellsOfOne(all: map<Key, seq<Waiter>>, j: nat, done: seq<Key>, key: Key)
    ensures CellsOf(all, j, done + [key]) == CellsOf(all, j, done) + Cells(RegsAt(all, key), j)
  {
    forall c | c in CellsOf(all, j, done + [key]) ensures c in CellsOf(all, j, done) + Cells(RegsAt(all, key), j) {}
    forall c | c in Cells(RegsAt(all, key), j) ensures c in CellsOf(all, j, done + [key]) {
      assert key in done + [key];
    }
  }

  lemma SameRemoval(all: map<Key, seq<Waiter>>, j: nat, done: seq<Key>, pending: seq<Key>)
    requires forall key :: key in pending <==> key in done
    ensures WithdrawRegs(all, j, done) == WithdrawRegs(all, j, pending)
    ensures CellsOf(all, j, done) == CellsOf(all, j, pending)
  {
  }

  predicate Covers(joins: map<nat, Join>, w: Waiter, key: Key) {
    w.Joined? && w.join in joins && key in joins[w.join].keys
  }

  ghost predicate CoveredBy(entries: seq<Waiter>, joins: map<nat, Join>, key: Key) {
    exists w :: w in entries && Covers(joins, w, key)
  }

  ghost predicate ProtectedFrom(waiters: map<Key, seq<Waiter>>, joins: map<nat, Join>, visited: set<Key>, key: Key) {
    exists at, w :: at in waiters && at in visited && w in waiters[at] && Covers(joins, w, key)
  }

  /** The state once something is in the queue, and the arrivals still to come then. */
  function Fetch(s: State, coming: seq<Completion>): State
    requires s.queue != [] || coming != []
  {
    if s.queue == [] then s.(queue := [coming[0]]) else s
  }

  function Unfetched(s: State, coming: seq<Completion>): seq<Completion>
    requires s.queue != [] || coming != []
  {
    if s.queue == [] then coming[1..] else coming
  }

  /** How `pick_next` ends, if it does. */
  datatype Outcome = Runs(entry: Entry) | RaisesDeadlock | ReturnsNone | BlocksForEver

  /** `s` is the state an outcome leaves behind. */
  predicate Meets(outcome: Outcome, s: State, t: Turn) {
    match outcome
    case Runs(e) => t == Chosen(s, e)
    case RaisesDeadlock => t == Deadlocked(s)
    case ReturnsNone => t == NothingLeft(s)
    case BlocksForEver => t == Blocking
  }

  /** `pick_next` holds entries back only while live non-daemon work is in the heap. */
  ghost predicate Shielding(s: State, held: set<Item>, shield: bool) {
    (held != {} ==> shield) && (shield ==> HasLive(s.meta, s.board.ready, false))
  }

  /** Less is still to arrive or queued, or `Progress` was made. */
  ghost predicate Nearer(s: State, coming: seq<Completion>, s': State, rest: seq<Completion>) {
    |rest| + |s'.queue| < |coming| + |s.queue| || (rest == coming && |s'.queue| == |s.queue| && Progress(s, s'))
  }

  lemma SweepRemoves(s: State, live: set<nat>, dead: set<Key>)
    requires forall key :: key in dead <==> Sweepable(s, live, key)
    ensures Sweep(s, live) == s.(meta := s.meta - dead, refs := s.refs - dead, pruneAt := s.pruneAt - dead)
  {
    assert Sweep(s, live).meta == s.meta - dead;
    assert Sweep(s, live).refs == s.refs - dead;
    assert Sweep(s, live).pruneAt == s.pruneAt - dead;
  }

  lemma NothingHeld(s: State, x: Item, held: set<Item>, shield: bool)
    requires Shielding(s, held, shield) && x.entry.Placeholder? && !HasLive(s.meta, Pop(s, x).board.ready, false)
    ensures held == {}
  {
    if shield {
      StillLive(s.meta, s.board.ready, x);
    }
  }

  /** The placeholder is queued again unless its wait has been claimed. */
  function Requeued(s: State, e: Entry): State
    requires e.Placeholder?
  {
    if e.cell in s.board.claimed then s else s.(board := Enqueue(s.board, e, PRIORITY_EXTERNAL_WAIT))
  }

  /** `s'` is what blocking for a completion leaves, if nothing is found to be doomed. */
  lemma BlocksThrough(s: State, e: Entry, held: set<Item>, shield: bool, coming: seq<Completion>, s': State)
    requires e.Placeholder? && (s.queue != [] || coming != [])
    requires var idle := !HasLive(s.meta, s.board.ready, true);
             var s1 := if idle then s.(sems := PruneQueues(s.meta, s.sems)) else s;
             !(idle && Doomed(s1.sems)) && s' == Requeued(Drain(Fetch(s1, coming)), e)
    ensures BlockOnPlaceholder(Fetch(s, coming), e, held, shield, true) == Again(s', held, shield)
  {
  }

  lemma AfterBlocking(s: State, x: Item, held: set<Item>, shield: bool, coming: seq<Completion>, s': State)
    requires s.board.ready != {} && x == Least(s.board.ready) && Shielding(s, held, shield)
    requires Standing(s.meta, s.board.claimed, x.entry) && !HasLive(s.meta, Pop(s, x).board.ready, false)
    requires s.queue != [] || coming != []
    requires BlockOnPlaceholder(Fetch(Pop(s, x), coming), x.entry, held, shield, true) == Again(s', held, shield)
    requires s'.queue == []
    ensures PickRun(s, held, shield, true, coming) == PickRun(s', held, shield, true, Unfetched(s, coming))
    ensures Shielding(s', held, shield) && Nearer(s, coming, s', Unfetched(s, coming))
  {
    if shield {
      StillLive(s.meta, s.board.ready, x);
    }
    if s.queue == [] {
      var s1 := s.(queue := s.queue + [coming[0]]);
      assert Pop(s1, x) == Fetch(Pop(s, x), coming);
      assert PickTurn(s, held, shield, true).Blocking?;
      assert PickTurn(s1, held, shield, true) == Again(s', held, shield);
      UntilTheNextTurn(s1, held, shield, true, coming[1..]);
    } else {
      UntilTheNextTurn(s, held, shield, true, coming);
    }
  }

  lemma AfterTurn(s: State, x: Item, held: set<Item>, shield: bool, coming: seq<Completion>,
                  s': State, held': set<Item>, shield': bool)
    requires s.board.ready != {} && x == Least(s.board.ready) && Shielding(s, held, shield)
    requires OrdersDistinct(s.board.ready, s.board.nextSeq)
    requires PopTurn(s, x, held, shield, true) == Again(s', held', shield')
    requires Standing(s.meta, s.board.claimed, x.entry) ==> HasLive(s.meta, Pop(s, x).board.ready, false)
    ensures PickRun(s, held, shield, true, coming) == PickRun(s', held', shield', true, coming)
    ensures Shielding(s', held', shield') && Nearer(s, coming, s', coming)
    ensures OrdersDistinct(s'.board.ready, s'.board.nextSeq)
  {
    UntilTheNextTurn(s, held, shield, true, coming);
    PoppingProgresses(s, x, held, shield, true);
    TurnLeaves(s, x, held, shield, s', held', shield');
  }

  lemma TurnLeaves(s: State, x: Item, held: set<Item>, shield: bool, s': State, held': set<Item>, shield': bool)
    requires x in s.board.ready && OrdersDistinct(s.board.ready, s.board.nextSeq) && Shielding(s, held, shield)
    requires PopTurn(s, x, held, shield, true) == Again(s', held', shield')
    requires Standing(s.meta, s.board.claimed, x.entry) ==> HasLive(s.meta, Pop(s, x).board.ready, false)
    ensures s'.queue == s.queue && OrdersDistinct(s'.board.ready, s'.board.nextSeq) && Shielding(s', held', shield')
  {
    if shield {
      StillLive(s.meta, s.board.ready, x);
    }
    if !(shield && LiveDaemon(s.meta, x.entry)) && x.entry.Permit? && x.entry.sid in s.sems {
      ReturnLeaves(Pop(s, x), x.entry.sid, x.entry.owner);
    }
  }

  lemma ReturnLeaves(s: State, sid: nat, o: Owner)
    requires sid in s.sems && OrdersDistinct(s.board.ready, s.board.nextSeq)
    ensures var s' := ReturnPermit(s, sid, o);
            && s'.queue == s.queue && s'.meta == s.meta && s.board.ready <= s'.board.ready
            && OrdersDistinct(s'.board.ready, s'.board.nextSeq)
  {
  }

  lemma AfterEmptyHeap(s: State, held: set<Item>, shield: bool, coming: seq<Completion>)
    requires s.board.ready == {} && (s.queue != [] || coming != [])
    requires BlockOnEmptyHeap(s, held, shield, true).Again? || BlockOnEmptyHeap(s, held, shield, true).Blocking?
    ensures PickRun(s, held, shield, true, coming)
         == PickRun(Drain(Fetch(s.(sems := PruneQueues(s.meta, s.sems)), coming)), held, shield, true,
              Unfetched(s, coming))
  {
    if s.queue == [] {
      var s1 := s.(queue := s.queue + [coming[0]]);
      assert s1.(sems := PruneQueues(s.meta, s.sems)) == Fetch(s.(sems := PruneQueues(s.meta, s.sems)), coming);
      assert PickTurn(s, held, shield, true).Blocking?;
      UntilTheNextTurn(s1, held, shield, true, coming[1..]);
    } else {
      UntilTheNextTurn(s, held, shield, true, coming);
    }
  }

  class Scheduler {
    var ready: set<Item>
    var insertionSeq: nat
    var waiters: map<Key, seq<Waiter>>
    var joins: map<nat, Join>
    var claimed: set<nat>
    var nextObj: nat
    var meta: map<Key, Meta>
    var semaphores: map<nat, Sem>
    var nextId: nat
    var externalQueue: seq<Completion>
    var handleRefs: map<Key, seq<nat>>
    var handlePruneAt: map<Key, nat>

    ghost function BoardView(): Board
      reads this
    {
      Board(ready, insertionSeq, waiters, joins, claimed, nextObj)
    }

    ghost function View(): State
      reads this
    {
      State(BoardView(), meta, semaphores, nextId, externalQueue, handleRefs, handlePruneAt)
    }

    constructor ()
      ensures View() == EMPTY
    {
      ready, insertionSeq, waiters, joins, claimed, nextObj := {}, 0, map[], map[], {}, 0;
      meta, semaphores, nextId, externalQueue, handleRefs, handlePruneAt := map[], map[], 0, [], map[], map[];
    }

    // ---- Waking ------------------------------------------------------------

    method EnqueueEntry(e: Entry, prio: int)
      modifies `ready, `insertionSeq
      ensures BoardView() == Enqueue(old(BoardView()), e, prio)
    {
      ready := ready + {Item(prio, insertionSeq, e)};
      insertionSeq := insertionSeq + 1;
    }

    /** The registrations of one key that are not those of join `j`; claims the cells of the rest. */
    method WithdrawFrom(entries: seq<Waiter>, j: nat) returns (kept: seq<Waiter>)
      modifies `claimed
      ensures kept == Without(entries, j)
      ensures claimed == old(claimed) + Cells(entries, j)
    {
      kept := [];
      for i := 0 to |entries|
        invariant kept + Without(entries[i..], j) == Without(entries, j)
        invariant claimed == old(claimed) + Cells(entries[..i], j)
      {
        var w := entries[i];
        OneEntry(entries, i, j);
        if OfJoin(w, j) {
          if w.cell.Some? {
            claimed := claimed + {w.cell.value};
          }
        } else {
          kept := kept + [w];
        }
      }
      assert entries[..|entries|] == entries;
    }

    method RemoveJoinWaiters(j: nat, pending: seq<Key>)
      modifies `waiters, `claimed
      ensures BoardView() == RemoveRegs(old(BoardView()), j, pending)
    {
      ghost var all := waiters;
      ghost var done: seq<Key> := [];
      var todo := set key | key in pending;
      while todo != {}
        invariant forall key :: key in pending <==> key in todo || key in done
        invariant forall key :: key in done ==> key !in todo
        invariant waiters == WithdrawRegs(all, j, done)
        invariant claimed == old(claimed) + CellsOf(all, j, done)
      {
        var key :| key in todo;
        WithdrawOne(all, j, done, key);
        CellsOfOne(all, j, done, key);
        if key in waiters {
          var kept := WithdrawFrom(waiters[key], j);
          waiters := if kept != [] then waiters[key := kept] else waiters - {key};
        }
        todo, done := todo - {key}, done + [key];
      }
      SameRemoval(all, j, done, pending);
    }

    /** `wake_gather_waiter`, `resolve_gather_with_error`, `wake_race_waiter` */
    method WakeJoinWaiter(j: nat, key: Key) returns (queuedAt: Option<int>)
      modifies `ready, `insertionSeq, `waiters, `joins, `claimed
      ensures (BoardView(), queuedAt) == WakeJoin(meta, old(BoardView()), j, key)
    {
      queuedAt := None;
      var st := StatusOf(meta, key);
      if j !in joins || joins[j].resolved || !Terminal(st) {
        return;
      }
      var g := joins[j];
      if g.kind.RaceJoin? || !st.Completed? {
        joins := joins[j := g.(resolved := true)];
        RemoveJoinWaiters(j, g.pendingKeys);
        EnqueueEntry(Delivery(st, ResultOf(meta, key), g.owner, g.cont), TaskPriority(meta, g.owner));
        queuedAt := Some(TaskPriority(meta, g.owner));
      } else {
        joins := joins[j := g.(remaining := g.remaining - 1)];
        if joins[j].remaining == 0 {
          joins := joins[j := joins[j].(resolved := true)];
          assert joins == old(joins)[j := g.(remaining := 0, resolved := true)];
          EnqueueEntry(Resume(g.owner, g.cont, Many(Results(meta, g.keys))), TaskPriority(meta, g.owner));
          queuedAt := Some(TaskPriority(meta, g.owner));
        }
      }
    }

    method WakeWaiters(key: Key) returns (wokenMin: Option<int>)
      modifies `ready, `insertionSeq, `waiters, `joins, `claimed
      ensures (BoardView(), wokenMin) == Wake(meta, old(BoardView()), key)
    {
      var ws := RegsAt(waiters, key);
      waiters := waiters - {key};
      wokenMin := None;
      for i := 0 to |ws|
        invariant var (b, p) := WakeAll(meta, BoardView(), key, ws[i..]);
                  (b, MinPriority(wokenMin, p)) == Wake(meta, old(BoardView()), key)
      {
        var w := ws[i];
        assert ws[i..][0] == w && ws[i..][1..] == ws[i + 1..];
        var queuedAt := None;
        if w.cell.Some? {
          claimed := claimed + {w.cell.value};
        }
        if w.Joined? {
          queuedAt := WakeJoinWaiter(w.join, key);
        } else if Terminal(StatusOf(meta, key)) {
          queuedAt := Some(if w.wake.Some? then w.wake.value else TaskPriority(meta, w.owner));
          EnqueueEntry(Delivery(StatusOf(meta, key), ResultOf(meta, key), w.owner, w.cont), queuedAt.value);
        }
        if queuedAt.Some? && (wokenMin.None? || queuedAt.value < wokenMin.value) {
          wokenMin := queuedAt;
        }
      }
    }

    /** The waitable `key` reaches a terminal status. */
    method ResolveWaitable(key: Key, st: Status, v: Value) returns (wokenMin: Option<int>)
      requires key in meta
      modifies `ready, `insertionSeq, `waiters, `joins, `claimed, `meta
      ensures (View(), wokenMin) == Resolve(old(View()), key, st, v)
    {
      meta := meta[key := meta[key].(status := st, result := v)];
      wokenMin := WakeWaiters(key);
    }

    method DrainOneExternal()
      requires externalQueue != []
      modifies `ready, `insertionSeq, `waiters, `joins, `claimed, `meta, `externalQueue
      ensures View() == DrainOne(old(View()))
    {
      var c := externalQueue[0];
      externalQueue := externalQueue[1..];
      var key := PromiseKey(c.id);
      if key in meta && meta[key].status.Pending? {
        var _ := ResolveWaitable(key, if c.ok then Completed else Failed, c.value);
      }
    }

    method DrainAll()
      modifies `ready, `insertionSeq, `waiters, `joins, `claimed, `meta, `externalQueue
      ensures View() == Drain(old(View())) && externalQueue == []
      ensures OrdersDistinct(old(ready), old(insertionSeq)) ==> OrdersDistinct(ready, insertionSeq)
    {
      if OrdersDistinct(ready, insertionSeq) {
        DrainKeepsOrders(View());
      }
      while externalQueue != []
        invariant Drain(View()) == Drain(old(View()))
        decreases |externalQueue|
      {
        DrainOneExternal();
      }
    }

    // ---- Semaphores --------------------------------------------------------

    method PopLiveSemaphoreWaiter(sid: nat) returns (w: Option<Parked>)
      requires sid in semaphores
      modifies `semaphores
      ensures var q := FromLive(meta, old(semaphores)[sid].queue);
              && w == (if q == [] then None else Some(q[0]))
              && semaphores == old(semaphores)[sid := old(semaphores)[sid].(queue := if q == [] then [] else q[1..])]
    {
      w := None;
      while semaphores[sid].queue != [] && w.None?
        invariant sid in semaphores
        invariant semaphores == old(semaphores)[sid := old(semaphores)[sid].(queue := semaphores[sid].queue)]
        invariant w.None? ==> FromLive(meta, semaphores[sid].queue) == FromLive(meta, old(semaphores)[sid].queue)
        invariant w.Some? ==> [w.value] + semaphores[sid].queue == FromLive(meta, old(semaphores)[sid].queue)
        decreases |semaphores[sid].queue|
      {
        var first := semaphores[sid].queue[0];
        semaphores := semaphores[sid := semaphores[sid].(queue := semaphores[sid].queue[1..])];
        if !IsCancelled(meta, first.owner) {
          w := Some(first);
        }
      }
    }

    method GrantPermitToNextWaiter(sid: nat) returns (granted: bool)
      requires sid in semaphores
      modifies `ready, `insertionSeq, `semaphores
      ensures (View(), granted) == Grant(old(View()), sid)
    {
      var w := PopLiveSemaphoreWaiter(sid);
      granted := w.Some?;
      if w.Some? {
        var sem := semaphores[sid];
        semaphores := semaphores[sid := sem.(holders := sem.holders + multiset{w.value.owner})];
        assert semaphores == old(semaphores)[sid := semaphores[sid]];
        EnqueueEntry(Permit(w.value.owner, w.value.cont, sid), TaskPriority(meta, w.value.owner));
      }
    }

    method BankPermit(sid: nat)
      requires sid in semaphores
      modifies `semaphores
      ensures View() == Bank(old(View()), sid)
    {
      semaphores := semaphores[sid := semaphores[sid].(permits := semaphores[sid].permits + 1)];
    }

    method ReturnInflightPermit(sid: nat, o: Owner)
      requires sid in semaphores
      modifies `ready, `insertionSeq, `semaphores
      ensures View() == ReturnPermit(old(View()), sid, o)
    {
      semaphores := semaphores[sid := semaphores[sid].(holders := semaphores[sid].holders - multiset{o})];
      var granted := GrantPermitToNextWaiter(sid);
      if !granted {
        BankPermit(sid);
      }
    }

    method LiveSemaphoreWaiters() returns (blocked: set<nat>)
      modifies `semaphores
      ensures semaphores == PruneQueues(meta, old(semaphores)) && blocked == Blocked(semaphores)
    {
      blocked := {};
      var todo := semaphores.Keys;
      while todo != {}
        invariant todo <= semaphores.Keys == old(semaphores).Keys
        invariant forall sid :: sid in todo ==> semaphores[sid] == old(semaphores)[sid]
        invariant forall sid :: sid in semaphores.Keys - todo ==>
                    semaphores[sid] == PruneQueues(meta, old(semaphores))[sid]
        invariant blocked == set sid | sid in semaphores.Keys - todo && semaphores[sid].queue != []
      {
        var sid :| sid in todo;
        todo := todo - {sid};
        var live := LiveWaiters(semaphores[sid].queue);
        semaphores := semaphores[sid := semaphores[sid].(queue := live)];
        if live != [] {
          blocked := blocked + {sid};
        }
      }
    }

    method LiveWaiters(q: seq<Parked>) returns (live: seq<Parked>)
      ensures live == LiveQueue(meta, q)
    {
      live := [];
      for i := 0 to |q|
        invariant live + LiveQueue(meta, q[i..]) == LiveQueue(meta, q)
      {
        assert q[i..] == [q[i]] + q[i + 1..];
        if !IsCancelled(meta, q[i].owner) {
          live := live + [q[i]];
        }
      }
    }

    // ---- Identifiers and handles -------------------------------------------

    method RegisterHandle(key: Key, h: nat, live: set<nat>)
      modifies `handleRefs, `handlePruneAt
      ensures View() == Register(old(View()), key, h, live)
    {
      var refs := if key in handleRefs then handleRefs[key] else [];
      if |refs| >= (if key in handlePruneAt then handlePruneAt[key] else HANDLE_REFS_PRUNE_MIN) {
        refs := KeepLive(refs, live);
        var limit := if 2 * |refs| > HANDLE_REFS_PRUNE_MIN then 2 * |refs| else HANDLE_REFS_PRUNE_MIN;
        handlePruneAt := handlePruneAt[key := limit];
      }
      handleRefs := handleRefs[key := refs + [h]];
    }

    method KeepLive(refs: seq<nat>, live: set<nat>) returns (kept: seq<nat>)
      ensures kept == LiveRefs(refs, live)
    {
      kept := [];
      for i := 0 to |refs|
        invariant kept + LiveRefs(refs[i..], live) == LiveRefs(refs, live)
      {
        assert refs[i..] == [refs[i]] + refs[i + 1..];
        if refs[i] in live {
          kept := kept + [refs[i]];
        }
      }
    }

    /** The keys of the gathers and races somebody is registered for. */
    method ProtectedKeys() returns (protected: set<Key>)
      ensures forall key :: key in protected <==> Protected(BoardView(), key)
    {
      protected := {};
      var todo := waiters.Keys;
      while todo != {}
        invariant todo <= waiters.Keys
        invariant forall key :: key in protected <==> ProtectedFrom(waiters, joins, waiters.Keys - todo, key)
      {
        var at :| at in todo;
        var more := ProtectedBy(waiters[at]);
        forall key
          ensures key in protected + more <==> ProtectedFrom(waiters, joins, waiters.Keys - (todo - {at}), key)
        {
          assert key in more <==> CoveredBy(waiters[at], joins, key);
        }
        protected := protected + more;
        todo := todo - {at};
      }
      forall key ensures ProtectedFrom(waiters, joins, waiters.Keys, key) <==> Protected(BoardView(), key) {
        if Protected(BoardView(), key) {
          var at, w :| at in waiters && w in waiters[at] && w.Joined? && w.join in joins && key in joins[w.join].keys;
          assert Covers(joins, w, key);
        }
      }
    }

    method ProtectedBy(entries: seq<Waiter>) returns (protected: set<Key>)
      ensures forall key :: key in protected <==> CoveredBy(entries, joins, key)
    {
      protected := {};
      for i := 0 to |entries|
        invariant forall key :: key in protected <==> CoveredBy(entries[..i], joins, key)
      {
        var w := entries[i];
        assert entries[..i + 1] == entries[..i] + [w];
        forall key
          ensures CoveredBy(entries[..i + 1], joins, key) <==>
                    CoveredBy(entries[..i], joins, key) || Covers(joins, w, key)
        {
          assert w in entries[..i + 1];
        }
        if w.Joined? && w.join in joins {
          protected := protected + set key | key in joins[w.join].keys;
        }
      }
      assert entries[..|entries|] == entries;
    }

    /** The keys `sweep_terminal_unobserved_entries` collects. */
    method SweepableKeys(live: set<nat>) returns (dead: set<Key>)
      ensures forall key :: key in dead <==> Sweepable(View(), live, key)
    {
      dead := {};
      var protected := ProtectedKeys();
      var todo := meta.Keys;
      while todo != {}
        invariant todo <= meta.Keys
        invariant forall key :: key in dead <==> key in meta.Keys - todo && Sweepable(View(), live, key)
      {
        var key :| key in todo;
        todo := todo - {key};
        if (meta[key].status.Completed? || meta[key].status.Failed?) && key !in waiters && key !in protected
           && key in handleRefs && forall h :: h in handleRefs[key] ==> h !in live {
          dead := dead + {key};
        }
      }
    }

    method SweepTerminalUnobserved(live: set<nat>)
      modifies `meta, `handleRefs, `handlePruneAt
      ensures View() == Sweep(old(View()), live)
    {
      var dead := SweepableKeys(live);
      SweepRemoves(View(), live, dead);
      meta, handleRefs, handlePruneAt := meta - dead, handleRefs - dead, handlePruneAt - dead;
    }

    method MakeId(live: set<nat>) returns (id: nat)
      modifies `nextId, `meta, `handleRefs, `handlePruneAt
      ensures id == old(nextId) && View() == FreshId(old(View()), live)
    {
      id := nextId;
      nextId := nextId + 1;
      if nextId % HANDLE_SWEEP_INTERVAL == 0 {
        SweepTerminalUnobserved(live);
      }
    }

    // ---- Effects -----------------------------------------------------------

    /** A `claimed` cell and the placeholder that carries it, if `key` is an external promise. */
    method PlaceShield(o: Owner, key: Key) returns (cell: nat)
      modifies `ready, `insertionSeq, `nextObj
      ensures cell == old(nextObj) && BoardView() == Shield(old(BoardView()), o, key)
    {
      cell := nextObj;
      nextObj := nextObj + 1;
      EnqueueEntry(Placeholder(o, key, cell), PRIORITY_EXTERNAL_WAIT);
    }

    method RegisterPendingWaiter(j: nat, o: Owner, key: Key)
      modifies `ready, `insertionSeq, `nextObj, `waiters
      ensures BoardView() == RegisterJoined(meta, old(BoardView()), j, o, key)
    {
      var cell := None;
      if External(meta, key) {
        var c := PlaceShield(o, key);
        cell := Some(c);
      }
      waiters := waiters[key := RegsAt(waiters, key) + [Joined(o, j, cell)]];
    }

    method OpenJoinState(g: Join)
      modifies `ready, `insertionSeq, `nextObj, `waiters, `joins
      ensures BoardView() == OpenJoin(meta, old(BoardView()), g)
    {
      var j := nextObj;
      joins, nextObj := joins[j := g], nextObj + 1;
      for i := 0 to |g.pendingKeys|
        invariant RegisterAll(meta, BoardView(), j, g.owner, g.pendingKeys[i..]) == OpenJoin(meta, old(BoardView()), g)
      {
        assert g.pendingKeys[i..][0] == g.pendingKeys[i] && g.pendingKeys[i..][1..] == g.pendingKeys[i + 1..];
        RegisterPendingWaiter(j, g.owner, g.pendingKeys[i]);
      }
    }

    method PerformWait(o: Owner, k: nat, key: Key, wake: Option<int>) returns (reply: Reply)
      modifies `ready, `insertionSeq, `nextObj, `waiters
      ensures (View(), reply) == HandleWait(old(View()), o, k, key, wake)
    {
      if key !in meta {
        return Thrown(UnknownWaitable);
      }
      reply := Answer(meta, key);
      if reply.Suspended? {
        if External(meta, key) && wake == Some(PRIORITY_IDLE) {
          waiters := waiters[key := RegsAt(waiters, key) + [Direct(o, k, None, None)]];
        } else if External(meta, key) {
          var cell := PlaceShield(o, key);
          waiters := waiters[key := RegsAt(waiters, key) + [Direct(o, k, wake, Some(cell))]];
        } else {
          waiters := waiters[key := RegsAt(waiters, key) + [Direct(o, k, wake, None)]];
        }
      }
    }

    method PerformGather(o: Owner, k: nat, keys: seq<Key>) returns (reply: Reply)
      modifies `ready, `insertionSeq, `nextObj, `waiters, `joins
      ensures (View(), reply) == HandleGather(old(View()), o, k, keys)
    {
      var pending: seq<Key> := [];
      for i := 0 to |keys|
        invariant View() == old(View())
        invariant FirstFailure(meta, keys) == FirstFailure(meta, keys[i..])
        invariant pending + PendingOf(meta, keys[i..]) == PendingOf(meta, keys)
      {
        var key := keys[i];
        assert keys[i..] == [key] + keys[i + 1..];
        if key !in meta {
          return Thrown(UnknownWaitable);
        } else if meta[key].status.Failed? || meta[key].status.Cancelled? {
          return Thrown(if meta[key].status.Failed? then meta[key].result else TaskCancelledError);
        } else if !meta[key].status.Completed? {
          pending := pending + [key];
        }
      }
      assert keys[|keys|..] == [] && pending == PendingOf(meta, keys);
      if pending == [] {
        return Resumed(Many(Results(meta, keys)));
      }
      OpenJoinState(Join(GatherJoin, o, k, keys, pending, |pending|, false));
      reply := Suspended;
    }

    method PerformRace(o: Owner, k: nat, keys: seq<Key>) returns (reply: Reply)
      modifies `ready, `insertionSeq, `nextObj, `waiters, `joins
      ensures (View(), reply) == HandleRace(old(View()), o, k, keys)
    {
      if keys == [] {
        return Thrown(EmptyRace);
      }
      for i := 0 to |keys|
        invariant View() == old(View())
        invariant FirstTerminal(meta, keys) == FirstTerminal(meta, keys[i..])
      {
        assert keys[i..] == [keys[i]] + keys[i + 1..];
        if keys[i] !in meta {
          return Thrown(UnknownWaitable);
        } else if Terminal(meta[keys[i]].status) {
          return Answer(meta, keys[i]);
        }
      }
      OpenJoinState(Join(RaceJoin, o, k, keys, keys, 0, false));
      reply := Suspended;
    }

    method PerformCancel(key: Key) returns (reply: Reply)
      modifies `ready, `insertionSeq, `waiters, `joins, `claimed, `meta
      ensures (View(), reply) == HandleCancel(old(View()), key)
    {
      if key in meta && !Terminal(meta[key].status) {
        var _ := ResolveWaitable(key, Cancelled, TaskCancelledError);
      }
      reply := Resumed(Nothing);
    }

    /** Resolves a pending promise and queues the completer behind whatever that woke. */
    method SettlePending(o: Owner, k: nat, key: Key, st: Status, v: Value)
      requires key in meta && !meta[key].external && meta[key].status == Pending
      modifies `ready, `insertionSeq, `waiters, `joins, `claimed, `meta
      ensures (View(), Suspended) == HandleSettle(old(View()), o, k, key, st, v)
    {
      var wokenMin := ResolveWaitable(key, st, v);
      var own := TaskPriority(meta, o);
      EnqueueEntry(Resume(o, k, Nothing), if wokenMin.None? || own <= wokenMin.value then own else wokenMin.value);
    }

    method PerformSettle(o: Owner, k: nat, key: Key, st: Status, v: Value) returns (reply: Reply)
      modifies `ready, `insertionSeq, `waiters, `joins, `claimed, `meta
      ensures (View(), reply) == HandleSettle(old(View()), o, k, key, st, v)
    {
      if key !in meta {
        return Thrown(UnknownWaitable);
      } else if meta[key].external {
        return Thrown(ExternalOnly);
      } else if meta[key].status != Pending {
        return Thrown(AlreadyResolved);
      }
      SettlePending(o, k, key, st, v);
      reply := Suspended;
    }

    method PerformCompleted(o: Owner, ok: bool, v: Value) returns (reply: Reply)
      requires o.Of? && TaskKey(o.tid) in meta
      modifies `ready, `insertionSeq, `waiters, `joins, `claimed, `meta
      ensures (View(), reply) == HandleCompleted(old(View()), o, ok, v)
    {
      if !meta[TaskKey(o.tid)].status.Cancelled? {
        var _ := ResolveWaitable(TaskKey(o.tid), if ok then Completed else Failed, v);
      }
      reply := Suspended;
    }

    method PerformSpawn(o: Owner, k: nat, prio: int, daemon: bool, live: set<nat>, h: nat) returns (reply: Reply)
      modifies `ready, `insertionSeq, `nextId, `meta, `handleRefs, `handlePruneAt
      ensures (View(), reply) == HandleSpawn(old(View()), o, k, prio, daemon, live, h)
    {
      var tid := MakeId(live);
      meta := meta[TaskKey(tid) := Meta(Pending, Nothing, prio, daemon, false)];
      EnqueueEntry(New(tid), prio);
      RegisterHandle(TaskKey(tid), h, live);
      EnqueueEntry(Resume(o, k, Handle(TaskKey(tid))), TaskPriority(meta, o));
      reply := Suspended;
    }

    method PerformCreate(external: bool, live: set<nat>, h: nat) returns (reply: Reply)
      modifies `nextId, `meta, `handleRefs, `handlePruneAt
      ensures (View(), reply) == HandleCreate(old(View()), external, live, h)
    {
      var pid := MakeId(live);
      meta := meta[PromiseKey(pid) := Meta(Pending, Nothing, PRIORITY_NORMAL, false, external)];
      RegisterHandle(PromiseKey(pid), h, live);
      reply := Resumed(Handle(PromiseKey(pid)));
    }

    method PerformSemaphore(permits: int, live: set<nat>) returns (reply: Reply)
      modifies `nextId, `meta, `handleRefs, `handlePruneAt, `semaphores
      ensures (View(), reply) == HandleSemaphore(old(View()), permits, live)
    {
      if permits < 1 {
        return Thrown(BadPermits);
      }
      var sid := MakeId(live);
      semaphores := semaphores[sid := Sem(permits, permits, [], multiset{})];
      reply := Resumed(SemaphoreHandle(sid));
    }

    method PerformAcquire(o: Owner, k: nat, sid: nat) returns (reply: Reply)
      requires sid in semaphores
      modifies `semaphores
      ensures (View(), reply) == HandleAcquire(old(View()), o, k, sid)
    {
      var sem := semaphores[sid];
      if sem.permits > 0 {
        semaphores := semaphores[sid := sem.(permits := sem.permits - 1, holders := sem.holders + multiset{o})];
        reply := Resumed(Nothing);
      } else {
        semaphores := semaphores[sid := sem.(queue := sem.queue + [Parked(o, k)])];
        reply := Suspended;
      }
    }

    /** The releaser leaves the holders, if it is one of them. */
    method ReleaseHolder(o: Owner, sid: nat)
      requires sid in semaphores
      modifies `semaphores
      ensures View() == DropHolder(old(View()), sid, o)
    {
      if o in semaphores[sid].holders {
        semaphores := semaphores[sid := semaphores[sid].(holders := semaphores[sid].holders - multiset{o})];
      } else {
        assert semaphores[sid].holders - multiset{o} == semaphores[sid].holders;
        assert semaphores == semaphores[sid := semaphores[sid]];
      }
    }

    method PerformRelease(o: Owner, sid: nat) returns (reply: Reply)
      requires sid in semaphores
      modifies `ready, `insertionSeq, `semaphores
      ensures (View(), reply) == HandleRelease(old(View()), o, sid)
    {
      var transferred := GrantPermitToNextWaiter(sid);
      if !transferred && semaphores[sid].permits >= semaphores[sid].maxPermits {
        return Thrown(OverReleased);
      }
      ReleaseHolder(o, sid);
      if !transferred {
        BankPermit(sid);
      }
      reply := Resumed(Nothing);
    }

    /** `handle_scheduler_effect` up to the point where it resumes `k` or calls `pick_next`. */
    method HandleEffect(o: Owner, k: nat, e: Effect, live: set<nat>, h: nat) returns (reply: Reply)
      requires e.TaskCompleted? ==> o.Of? && TaskKey(o.tid) in Drain(View()).meta
      requires e.Acquire? || e.Release? ==> e.sid in Drain(View()).sems
      modifies this
      ensures (View(), reply) == Handling(Drain(old(View())), o, k, e, live, h)
    {
      DrainAll();
      match e
      case Spawn(prio, daemon) => reply := PerformSpawn(o, k, prio, daemon, live, h);
      case TaskCompleted(ok, v) => reply := PerformCompleted(o, ok, v);
      case Wait(key, wake) => reply := PerformWait(o, k, key, wake);
      case Gather(keys) => reply := PerformGather(o, k, keys);
      case Race(keys) => reply := PerformRace(o, k, keys);
      case Cancel(key) => reply := PerformCancel(key);
      case CreatePromise => reply := PerformCreate(false, live, h);
      case CreateExternalPromise => reply := PerformCreate(true, live, h);
      case CompletePromise(key, v) => reply := PerformSettle(o, k, key, Completed, v);
      case FailPromise(key, v) => reply := PerformSettle(o, k, key, Failed, v);
      case CreateSemaphore(permits) => reply := PerformSemaphore(permits, live);
      case Acquire(sid) => reply := PerformAcquire(o, k, sid);
      case Release(sid) => reply := PerformRelease(o, sid);
    }

    // ---- The dispatch loop -------------------------------------------------

    method HasLiveReadyEntry(daemons: bool) returns (found: bool)
      ensures found == HasLive(meta, ready, daemons)
    {
      found := false;
      var todo := ready;
      while todo != {} && !found
        invariant todo <= ready
        invariant found ==> HasLive(meta, ready, daemons)
        invariant forall x :: x in ready - todo && !found ==>
                    !(LiveEntry(meta, x.entry) && (daemons || !IsDaemon(meta, EntryOwner(x.entry))))
        decreases |todo|
      {
        var x :| x in todo;
        todo := todo - {x};
        found := LiveEntry(meta, x.entry) && (daemons || !IsDaemon(meta, EntryOwner(x.entry)));
      }
    }

    method PopFirst() returns (x: Item)
      requires ready != {} && OrdersDistinct(ready, insertionSeq)
      modifies `ready
      ensures x == Least(old(ready)) && ready == old(ready) - {x}
    {
      x :| x in ready;
      var todo := ready - {x};
      while todo != {}
        invariant x in ready && todo <= ready && x !in todo
        invariant forall y :: y in ready - todo ==> !Before(y, x)
        decreases |todo|
      {
        var y :| y in todo;
        forall z | z in ready - (todo - {y}) ensures !Before(z, if Before(y, x) then y else x) {
          assert z == y || z in ready - todo;
        }
        todo := todo - {y};
        if Before(y, x) {
          x := y;
        }
      }
      ready := ready - {x};
      assert IsLeast(old(ready), x);
    }

    /** `has_pending_external_waiters` */
    method HasPendingExternalWaiters() returns (found: bool)
      ensures found == HasPendingExternal(meta, waiters)
    {
      found := false;
      var todo := waiters.Keys;
      while todo != {} && !found
        invariant todo <= waiters.Keys
        invariant found ==> HasPendingExternal(meta, waiters)
        invariant !found ==>
                    forall key :: key in waiters.Keys - todo && External(meta, key) && !Terminal(meta[key].status) ==>
                               forall w :: w in waiters[key] ==> IsCancelled(meta, w.owner)
        decreases |todo|
      {
        var key :| key in todo;
        todo := todo - {key};
        if External(meta, key) && !Terminal(meta[key].status) {
          found := SomebodyLive(waiters[key]);
        }
      }
    }

    method SomebodyLive(entries: seq<Waiter>) returns (found: bool)
      ensures found <==> exists w :: w in entries && !IsCancelled(meta, w.owner)
    {
      for i := 0 to |entries|
        invariant forall w :: w in entries[..i] ==> IsCancelled(meta, w.owner)
      {
        if !IsCancelled(meta, entries[i].owner) {
          return true;
        }
      }
      assert entries[..|entries|] == entries;
      found := false;
    }

    /** Whether `live_parked_waiter_summary` lists anybody. */
    method SomebodyParked() returns (found: bool)
      ensures found == HasLiveParked(meta, waiters)
    {
      found := false;
      var todo := waiters.Keys;
      while todo != {} && !found
        invariant todo <= waiters.Keys
        invariant found ==> HasLiveParked(meta, waiters)
        invariant !found ==> forall key, w :: key in waiters.Keys - todo && w in waiters[key] ==>
                    IsCancelled(meta, w.owner)
        decreases |todo|
      {
        var key :| key in todo;
        todo := todo - {key};
        found := SomebodyLive(waiters[key]);
      }
    }

    /** `_drain_one_external`: blocks, if nothing has come, until the next arrival. */
    method AwaitCompletion(coming: seq<Completion>) returns (rest: seq<Completion>)
      requires (externalQueue != [] || coming != []) && OrdersDistinct(ready, insertionSeq)
      modifies `ready, `insertionSeq, `waiters, `joins, `claimed, `meta, `externalQueue
      ensures View() == DrainOne(Fetch(old(View()), coming)) && rest == Unfetched(old(View()), coming)
      ensures OrdersDistinct(ready, insertionSeq)
      ensures |rest| + |externalQueue| < |coming| + |old(externalQueue)|
    {
      rest := coming;
      if externalQueue == [] {
        externalQueue, rest := [coming[0]], coming[1..];
      }
      DrainOneKeepsOrders(View());
      DrainOneExternal();
    }

    /** ... and then `drain`. */
    method AwaitCompletions(coming: seq<Completion>) returns (rest: seq<Completion>)
      requires (externalQueue != [] || coming != []) && OrdersDistinct(ready, insertionSeq)
      modifies `ready, `insertionSeq, `waiters, `joins, `claimed, `meta, `externalQueue
      ensures View() == Drain(Fetch(old(View()), coming)) && rest == Unfetched(old(View()), coming)
      ensures externalQueue == [] && OrdersDistinct(ready, insertionSeq)
    {
      rest := AwaitCompletion(coming);
      DrainAll();
    }

    /** The status change of a task that starts. */
    method StartIfNew(e: Entry)
      modifies `meta
      ensures View() == Start(old(View()), e)
    {
      if e.New? && TaskKey(e.tid) in meta {
        meta := meta[TaskKey(e.tid) := meta[TaskKey(e.tid)].(status := Running)];
      }
    }

    /** Unless something live is left, checks for a deadlock nothing else could resolve. */
    method IdleAndDoomed() returns (doomed: bool)
      modifies `semaphores
      ensures semaphores == if HasLive(meta, ready, true) then old(semaphores) else PruneQueues(meta, old(semaphores))
      ensures doomed == (!HasLive(meta, ready, true) && Doomed(semaphores))
    {
      var live := HasLiveReadyEntry(true);
      doomed := false;
      if !live {
        var blocked := LiveSemaphoreWaiters();
        var unreleasable := FindUnreleasable(semaphores, blocked);
        doomed := unreleasable != {};
      }
    }

    /** Blocks for a completion, and queues the placeholder again if it still stands. */
    method AwaitBeyond(e: Entry, coming: seq<Completion>) returns (rest: seq<Completion>)
      requires e.Placeholder? && (externalQueue != [] || coming != []) && OrdersDistinct(ready, insertionSeq)
      modifies `ready, `insertionSeq, `waiters, `joins, `claimed, `meta, `externalQueue
      ensures View() == Requeued(Drain(Fetch(old(View()), coming)), e) && rest == Unfetched(old(View()), coming)
      ensures externalQueue == [] && OrdersDistinct(ready, insertionSeq)
    {
      rest := AwaitCompletions(coming);
      if e.cell !in claimed {
        EnqueueEntry(e, PRIORITY_EXTERNAL_WAIT);
      }
    }

    /** An unclaimed placeholder nothing may run past. */
    method BlockOn(x: Item, held: set<Item>, shield: bool, coming: seq<Completion>)
      returns (rest: seq<Completion>, outcome: Option<Outcome>)
      requires x.entry.Placeholder? && OrdersDistinct(ready, insertionSeq)
      modifies this
      ensures outcome.None? ==>
                && externalQueue == [] && OrdersDistinct(ready, insertionSeq)
                && (old(externalQueue) != [] || coming != [])
                && rest == Unfetched(old(View()), coming)
                && BlockOnPlaceholder(Fetch(old(View()), coming), x.entry, held, shield, true)
                   == Again(View(), held, shield)
      ensures outcome.Some? ==>
                && Meets(outcome.value, View(), BlockOnPlaceholder(old(View()), x.entry, held, shield, true))
                && (outcome == Some(RaisesDeadlock) || (outcome == Some(BlocksForEver) && coming == []))
    {
      rest, outcome := coming, None;
      var doomed := IdleAndDoomed();
      if doomed {
        outcome := Some(RaisesDeadlock);
      } else if externalQueue == [] && coming == [] {
        outcome := Some(BlocksForEver);
      } else {
        rest := AwaitBeyond(x.entry, coming);
        BlocksThrough(old(View()), x.entry, held, shield, coming, View());
      }
    }

    /** A placeholder that stands: it is held back, or nothing may run past it. */
    method TakeStanding(ghost s: State, x: Item, held: set<Item>, shield: bool, coming: seq<Completion>)
      returns (held': set<Item>, shield': bool, rest: seq<Completion>, outcome: Option<Outcome>)
      requires s.board.ready != {} && x == Least(s.board.ready) && Standing(s.meta, s.board.claimed, x.entry)
      requires OrdersDistinct(s.board.ready, s.board.nextSeq) && Shielding(s, held, shield) && View() == Pop(s, x)
      modifies this
      ensures outcome.None? ==>
                && OrdersDistinct(ready, insertionSeq) && Shielding(View(), held', shield')
                && PickRun(View(), held', shield', true, rest) == PickRun(s, held, shield, true, coming)
                && Nearer(s, coming, View(), rest)
      ensures outcome.Some? ==> Meets(outcome.value, Restore(View(), held'), PickRun(s, held, shield, true, coming))
    {
      held', shield', rest, outcome := held, shield, coming, None;
      var work := HasLiveReadyEntry(false);
      if work {
        held', shield' := held + {x}, true;
        AfterTurn(s, x, held, shield, coming, View(), held', shield');
      } else {
        rest, outcome := BlockOn(x, held, shield, coming);
        if outcome.None? {
          AfterBlocking(s, x, held, shield, coming, View());
        } else {
          NothingHeld(s, x, held, shield);
          assert ready + held == ready;
        }
      }
    }

    /** Anything but a standing placeholder runs, is held back behind the shield, or is dropped. */
    method TakeOrDrop(ghost s: State, x: Item, held: set<Item>, shield: bool)
      returns (held': set<Item>, outcome: Option<Outcome>)
      requires View() == Pop(s, x) && !Standing(s.meta, s.board.claimed, x.entry)
      modifies this
      ensures PopTurn(s, x, held, shield, true)
           == (if outcome.None? then Again(View(), held', shield) else Chosen(Restore(View(), held'), x.entry))
      ensures outcome == None || outcome == Some(Runs(x.entry))
    {
      held', outcome := held, None;
      var e := x.entry;
      if shield && LiveDaemon(meta, e) {
        held' := held + {x};
      } else if LiveEntry(meta, e) {
        StartIfNew(e);
        outcome := Some(Runs(e));
      } else if e.Permit? && e.sid in semaphores {
        ReturnInflightPermit(e.sid, e.owner);
      }
    }

    /** The body of the loop over the ready heap. */
    method TakeFirst(held: set<Item>, shield: bool, coming: seq<Completion>)
      returns (held': set<Item>, shield': bool, rest: seq<Completion>, outcome: Option<Outcome>)
      requires ready != {} && OrdersDistinct(ready, insertionSeq) && Shielding(View(), held, shield)
      modifies this
      ensures outcome.None? ==>
                && OrdersDistinct(ready, insertionSeq) && Shielding(View(), held', shield')
                && PickRun(View(), held', shield', true, rest) == PickRun(old(View()), held, shield, true, coming)
                && Nearer(old(View()), coming, View(), rest)
      ensures outcome.Some? ==>
                Meets(outcome.value, Restore(View(), held'), PickRun(old(View()), held, shield, true, coming))
    {
      ghost var s := View();
      var x := PopFirst();
      if x.entry.Placeholder? && x.entry.cell !in claimed && !IsCancelled(meta, x.entry.owner) {
        held', shield', rest, outcome := TakeStanding(s, x, held, shield, coming);
      } else {
        shield', rest := shield, coming;
        held', outcome := TakeOrDrop(s, x, held, shield);
        if outcome.None? {
          AfterTurn(s, x, held, shield, coming, View(), held', shield');
        }
      }
    }

    /** The bottom of the outer loop: nothing is ready. */
    method WaitWithEmptyHeap(held: set<Item>, shield: bool, coming: seq<Completion>)
      returns (rest: seq<Completion>, outcome: Option<Outcome>)
      requires ready == {} && OrdersDistinct(ready, insertionSeq) && Shielding(View(), held, shield)
      modifies this
      ensures outcome.None? ==>
                && OrdersDistinct(ready, insertionSeq) && |rest| + |externalQueue| < |coming| + |old(externalQueue)|
                && PickRun(Drain(View()), held, shield, true, rest) == PickRun(old(View()), held, shield, true, coming)
      ensures outcome.Some? ==> Meets(outcome.value, View(), PickRun(old(View()), held, shield, true, coming))
    {
      rest, outcome := coming, None;
      var blocked := LiveSemaphoreWaiters();
      var pending := HasPendingExternalWaiters();
      if !pending {
        var parked := SomebodyParked();
        if blocked != {} || parked {
          outcome := Some(RaisesDeadlock);
          return;
        }
      } else {
        var unreleasable := FindUnreleasable(semaphores, blocked);
        if unreleasable != {} {
          outcome := Some(RaisesDeadlock);
          return;
        }
      }
      if waiters == map[] {
        outcome := Some(ReturnsNone);
      } else if externalQueue == [] && coming == [] {
        outcome := Some(BlocksForEver);
      } else {
        rest := AwaitCompletion(coming);
        AfterEmptyHeap(old(View()), held, shield, coming);
      }
    }

    /** The loop over the ready heap. */
    method TakeReady(held: set<Item>, shield: bool, coming: seq<Completion>)
      returns (held': set<Item>, shield': bool, rest: seq<Completion>, outcome: Option<Outcome>)
      requires OrdersDistinct(ready, insertionSeq) && Shielding(View(), held, shield)
      modifies this
      ensures outcome.None? ==>
                && ready == {} && OrdersDistinct(ready, insertionSeq) && Shielding(View(), held', shield')
                && PickRun(View(), held', shield', true, rest) == PickRun(old(View()), held, shield, true, coming)
                && |rest| + |externalQueue| <= |coming| + |old(externalQueue)|
      ensures outcome.Some? ==>
                Meets(outcome.value, Restore(View(), held'), PickRun(old(View()), held, shield, true, coming))
    {
      held', shield', rest, outcome := held, shield, coming, None;
      ghost var goal := PickRun(View(), held, shield, true, coming);
      while ready != {}
        invariant OrdersDistinct(ready, insertionSeq) && Shielding(View(), held', shield')
        invariant PickRun(View(), held', shield', true, rest) == goal && outcome.None?
        invariant |rest| + |externalQueue| <= |coming| + |old(externalQueue)|
        decreases |rest| + |externalQueue|, |Dead(meta, ready)|, |ready|
      {
        held', shield', rest, outcome := TakeFirst(held', shield', rest);
        if outcome.Some? {
          return;
        }
      }
    }

    /** The `finally` of `pick_next`: what was held out of the heap goes back. */
    method RestoreHeld(held: set<Item>)
      modifies `ready
      ensures View() == Restore(old(View()), held) && (held == {} ==> View() == old(View()))
    {
      ready := ready + held;
    }

    /** Once around the outer loop of `pick_next`. */
    method DrainAndTake(coming: seq<Completion>) returns (rest: seq<Completion>, outcome: Option<Outcome>)
      requires OrdersDistinct(ready, insertionSeq)
      modifies this
      ensures outcome.None? ==>
                && OrdersDistinct(ready, insertionSeq) && |rest| + |externalQueue| < |coming| + |old(externalQueue)|
                && PickRun(Drain(View()), {}, false, true, rest) == PickRun(Drain(old(View())), {}, false, true, coming)
      ensures outcome.Some? ==> Meets(outcome.value, View(), PickRun(Drain(old(View())), {}, false, true, coming))
    {
      DrainAll();
      var held, shield;
      held, shield, rest, outcome := TakeReady({}, false, coming);
      if outcome.None? {
        assert held == {} && !shield;
        rest, outcome := WaitWithEmptyHeap(held, shield, rest);
      }
      if outcome.Some? {
        RestoreHeld(held);
      }
    }

    /** `pick_next`.  `arrivals` are the completions other threads deliver while it blocks. */
    method PickNext(arrivals: seq<Completion>) returns (outcome: Outcome)
      requires OrdersDistinct(ready, insertionSeq)
      modifies this
      ensures Meets(outcome, View(), PickRun(Drain(old(View())), {}, false, true, arrivals))
    {
      var coming := arrivals;
      while true
        invariant OrdersDistinct(ready, insertionSeq)
        invariant PickRun(Drain(View()), {}, false, true, coming)
               == PickRun(Drain(old(View())), {}, false, true, arrivals)
        decreases |coming| + |externalQueue|
      {
        var outcome?: Option<Outcome>;
        coming, outcome? := DrainAndTake(coming);
        if outcome?.Some? {
          return outcome?.value;
        }
      }
    }
  }
}
