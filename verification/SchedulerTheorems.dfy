/** What the invariant says about every run, without the bookkeeping it is proved with. */
module SchedulerTheorems {
  import opened Wrappers
  import opened SchedulerModel
  import opened SchedulerSteps
  import opened SchedulerInvariant
  import opened SchedulerWaking
  import opened SchedulerSweep
  import opened SchedulerRuns
  import opened SchedulerDispatch
  import opened SchedulerSafety

  // ---- Continuations are linear --------------------------------------------

  datatype Place =
    | InHeap(item: Item)
    | InWaiters(key: Key, waiter: Waiter)
    | InJoins(join: nat)
    | InQueue(sid: nat, parked: Parked)

  /** The continuation of `o`, or `o` itself if it is a task that has not been started, is kept at `p`. */
  ghost predicate KeptAt(y: System, o: Owner, p: Place) {
    match p
    case InHeap(x) => x in y.s.board.ready + HeldItems(y) && Carries(x.entry, o)
    case InWaiters(key, w) => Has(y.s.board.waiters, key, w) && w.Direct? && w.owner == o
    case InJoins(j) => j in y.s.board.joins && !y.s.board.joins[j].resolved && y.s.board.joins[j].owner == o
    case InQueue(sid, q) => sid in y.s.sems && q in y.s.sems[sid].queue && q.owner == o
  }

  function KeptCont(y: System, p: Place): Option<nat> {
    match p
    case InHeap(x) => if x.entry.New? || x.entry.Placeholder? then None else Some(x.entry.cont)
    case InWaiters(_, w) => if w.Direct? then Some(w.cont) else None
    case InJoins(j) => if j in y.s.board.joins then Some(y.s.board.joins[j].cont) else None
    case InQueue(_, q) => Some(q.cont)
  }

  function SpotAt(y: System, p: Place): Spot {
    match p
    case InHeap(x) => if x.entry.Placeholder? then Unstarted(0) else SpotOf(x)
    case InWaiters(key, w) => AtWait(key, if w.Direct? then w.cont else 0)
    case InJoins(j) => AtJoin(j, if j in y.s.board.joins then y.s.board.joins[j].cont else 0)
    case InQueue(sid, q) => AtSem(sid, q.cont)
  }

  lemma KeptIsSpot(y: System, spot: Spots, cellKey: map<nat, Key>, o: Owner, p: Place)
    requires Inv(y, spot, cellKey) && KeptAt(y, o, p)
    ensures o in spot && spot[o] == SpotAt(y, p)
    ensures KeptCont(y, p) == ContOf(spot[o])
  {
  }

  lemma SamePlace(y: System, spot: Spots, cellKey: map<nat, Key>, o: Owner, p: Place, q: Place)
    requires Inv(y, spot, cellKey) && KeptAt(y, o, p) && KeptAt(y, o, q)
    ensures p == q
  {
    KeptIsSpot(y, spot, cellKey, o, p);
    KeptIsSpot(y, spot, cellKey, o, q);
    if p.InWaiters? {
      OneDirect(y.s.board.waiters[p.key], p.waiter, q.waiter);
    }
  }

  lemma {:induction false} OneDirect(ws: seq<Waiter>, v: Waiter, w: Waiter)
    requires NoClash(ws) && v in ws && w in ws && v.Direct? && w.Direct? && v.owner == w.owner
    ensures v == w
  {
    assert ws == [ws[0]] + ws[1..];
    if v != ws[0] && w != ws[0] {
      OneDirect(ws[1..], v, w);
    }
  }

  lemma SpotIsKept(y: System, spot: Spots, cellKey: map<nat, Key>, o: Owner) returns (p: Place)
    requires Inv(y, spot, cellKey) && o in spot
    ensures KeptAt(y, o, p)
  {
    match spot[o]
    case AtWait(key, k) =>
      assert WaitingIn(y.s.board.waiters, o, key, k);
      var w: Waiter :| w in y.s.board.waiters[key] && w.Direct? && w.owner == o && w.cont == k;
      p := InWaiters(key, w);
    case AtJoin(j, _) => p := InJoins(j);
    case AtSem(sid, k) => p := InQueue(sid, Parked(o, k));
    case _ =>
      assert CarriedBy(y.s.board.ready + HeldItems(y), o, spot[o]);
      var x :| x in y.s.board.ready + HeldItems(y) && Carries(x.entry, o) && SpotOf(x) == spot[o];
      p := InHeap(x);
  }

  /** In every state of every run an owner's continuation is kept in at most one place, it is
      kept nowhere while the owner runs, and a live owner that does not run is kept somewhere:
      the root and every unfinished, uncancelled task alike. */
  lemma ContinuationsAreLinear(acts: seq<Action>, diagnose: bool, o: Owner)
    requires Possible(START, acts, diagnose)
    ensures var y := After(START, acts, diagnose);
            && (forall p, q :: KeptAt(y, o, p) && KeptAt(y, o, q) ==> p == q)
            && (y.phase == Executing(o) ==> forall p :: !KeptAt(y, o, p))
            && ((y.phase.Executing? || y.phase.Entering? || y.phase.Picking?)
                && Alive(y.s.meta, o) && y.phase != Executing(o) ==>
                  exists p :: KeptAt(y, o, p))
  {
    var y := After(START, acts, diagnose);
    var spot, cellKey := RunsAreSound(acts, diagnose);
    forall p, q | KeptAt(y, o, p) && KeptAt(y, o, q) ensures p == q {
      SamePlace(y, spot, cellKey, o, p, q);
    }
    forall p | KeptAt(y, o, p) ensures o in spot {
      KeptIsSpot(y, spot, cellKey, o, p);
    }
    if o in spot {
      var p := SpotIsKept(y, spot, cellKey, o);
    }
  }

  /** ... also counted with multiplicity: no list holds an owner's continuation twice. */
  lemma ListsHoldOwnersOnce(acts: seq<Action>, diagnose: bool)
    requires Possible(START, acts, diagnose)
    ensures var y := After(START, acts, diagnose);
            && (forall key, i, k :: key in y.s.board.waiters && 0 <= i < k < |y.s.board.waiters[key]|
                  && y.s.board.waiters[key][i].Direct? && y.s.board.waiters[key][k].Direct?
                  ==> y.s.board.waiters[key][i].owner != y.s.board.waiters[key][k].owner)
            && (forall sid, i, k :: sid in y.s.sems && 0 <= i < k < |y.s.sems[sid].queue|
                  ==> y.s.sems[sid].queue[i].owner != y.s.sems[sid].queue[k].owner)
  {
    var y := After(START, acts, diagnose);
    var spot, cellKey := RunsAreSound(acts, diagnose);
    forall key | key in y.s.board.waiters
      ensures forall i, k :: 0 <= i < k < |y.s.board.waiters[key]| ==>
                !Clash(y.s.board.waiters[key][i], y.s.board.waiters[key][k])
    {
      CleanPairs(y.s.board.waiters[key]);
    }
    forall sid | sid in y.s.sems
      ensures forall i, k :: 0 <= i < k < |y.s.sems[sid].queue| ==>
                y.s.sems[sid].queue[i].owner != y.s.sems[sid].queue[k].owner
    {
      var q := y.s.sems[sid].queue;
      DistinctPairs(q);
      forall i, k | 0 <= i < k < |q| ensures q[i].owner != q[k].owner {
        assert q[i] in q && q[k] in q;
      }
    }
  }

  lemma {:induction false} CleanPairs(ws: seq<Waiter>)
    requires NoClash(ws)
    ensures forall i, k :: 0 <= i < k < |ws| ==> !Clash(ws[i], ws[k])
  {
    if ws != [] {
      CleanPairs(ws[1..]);
      forall i, k | 0 <= i < k < |ws| ensures !Clash(ws[i], ws[k]) {
        assert ws[k] == ws[1..][k - 1];
        if i > 0 { assert ws[i] == ws[1..][i - 1]; }
      }
    }
  }

  lemma {:induction false} DistinctPairs<T>(q: seq<T>)
    requires NoDuplicates(q)
    ensures forall i, k :: 0 <= i < k < |q| ==> q[i] != q[k]
  {
    if q != [] {
      DistinctPairs(q[1..]);
      forall i, k | 0 <= i < k < |q| ensures q[i] != q[k] {
        assert q[k] == q[1..][k - 1];
        if i > 0 { assert q[i] == q[1..][i - 1]; }
      }
    }
  }

  /** A kept continuation has not been resumed, and two owners never share one. */
  lemma KeptContinuationsAreUnspent(acts: seq<Action>, diagnose: bool, o: Owner, p: Place, o2: Owner, q: Place)
    requires Possible(START, acts, diagnose)
    requires KeptAt(After(START, acts, diagnose), o, p) && KeptAt(After(START, acts, diagnose), o2, q)
    requires KeptCont(After(START, acts, diagnose), p).Some?
    ensures var y := After(START, acts, diagnose);
            && KeptCont(y, p).value !in y.spent
            && (KeptCont(y, p) == KeptCont(y, q) ==> o == o2 && p == q)
  {
    var y := After(START, acts, diagnose);
    var spot, cellKey := RunsAreSound(acts, diagnose);
    KeptIsSpot(y, spot, cellKey, o, p);
    KeptIsSpot(y, spot, cellKey, o2, q);
    if o == o2 {
      SamePlace(y, spot, cellKey, o, p, q);
    }
  }

  /** The continuations a step resumes. */
  ghost function Resumes(y: System, a: Action, diagnose: bool): set<nat>
    requires Enabled(y, a, diagnose)
  {
    Step(y, a, diagnose).spent - y.spent
  }

  /** The continuation, if any, that a step hands the processor to: the one just captured if
      the effect answers at once, or that of the chosen entry. */
  ghost function HandsOverTo(y: System, a: Action, diagnose: bool): set<nat>
    requires Enabled(y, a, diagnose)
  {
    match a
    case Perform(_) => if Step(y, a, diagnose).phase == y.phase then {y.nextCont} else {}
    case Dispatch =>
      var t := PickTurn(y.s, y.phase.held, y.phase.shield, diagnose);
      if t.Chosen? then EntryConts(t.entry) else {}
    case _ => {}
  }

  lemma ChosenMeans(s: State, held: set<Item>, shield: bool, diagnose: bool)
    requires PickTurn(s, held, shield, diagnose).Chosen?
    ensures s.board.ready != {} && LiveEntry(s.meta, Least(s.board.ready).entry)
    ensures PickTurn(s, held, shield, diagnose).entry == Least(s.board.ready).entry
  {
  }

  lemma ChosenIsUnspent(y: System, spot: Spots, cellKey: map<nat, Key>, diagnose: bool)
    requires Inv(y, spot, cellKey) && y.phase.Picking?
    requires PickTurn(y.s, y.phase.held, y.phase.shield, diagnose).Chosen?
    ensures EntryConts(PickTurn(y.s, y.phase.held, y.phase.shield, diagnose).entry) !! y.spent
  {
    ChosenMeans(y.s, y.phase.held, y.phase.shield, diagnose);
    var x := Least(y.s.board.ready);
    UnspentInHeap(y.s.board.ready + HeldItems(y), spot, y.nextCont, y.spent, x);
  }

  lemma UnspentInHeap(items: set<Item>, spot: Spots, n: nat, spent: set<nat>, x: Item)
    requires ItemsPlaced(items, spot) && OneShot(spot, n, spent) && x in items
    ensures EntryConts(x.entry) !! spent
  {
  }

  lemma TurnHandsOver(y: System, t: Turn)
    requires t.Chosen? ==> EntryConts(t.entry) !! y.spent
    ensures Turned(y, t).spent - y.spent == if t.Chosen? then EntryConts(t.entry) else {}
  {
  }

  lemma DispatchHandsOver(y: System, spot: Spots, cellKey: map<nat, Key>, diagnose: bool)
    requires Inv(y, spot, cellKey) && y.phase.Picking?
    ensures var t := PickTurn(y.s, y.phase.held, y.phase.shield, diagnose);
            var conts := if t.Chosen? then EntryConts(t.entry) else {};
            conts == DispatchStep(y, diagnose).spent - y.spent && conts !! y.spent
  {
    var t := PickTurn(y.s, y.phase.held, y.phase.shield, diagnose);
    if t.Chosen? {
      ChosenIsUnspent(y, spot, cellKey, diagnose);
    }
    TurnHandsOver(y, t);
  }

  lemma StepHandsOver(y: System, spot: Spots, cellKey: map<nat, Key>, diagnose: bool, a: Action)
    requires Inv(y, spot, cellKey) && Enabled(y, a, diagnose)
    ensures HandsOverTo(y, a, diagnose) == Resumes(y, a, diagnose) && HandsOverTo(y, a, diagnose) !! y.spent
  {
    if a.Dispatch? {
      DispatchHandsOver(y, spot, cellKey, diagnose);
    }
  }

  /** No continuation is ever resumed twice: in any run, what the next step hands the
      processor to had not been resumed before, and counts as resumed from then on. */
  lemma NoContinuationIsResumedTwice(acts: seq<Action>, diagnose: bool, a: Action)
    requires Possible(START, acts, diagnose) && Enabled(After(START, acts, diagnose), a, diagnose)
    ensures var y := After(START, acts, diagnose);
            HandsOverTo(y, a, diagnose) == Resumes(y, a, diagnose) && HandsOverTo(y, a, diagnose) !! y.spent
  {
    var spot, cellKey := RunsAreSound(acts, diagnose);
    StepHandsOver(After(START, acts, diagnose), spot, cellKey, diagnose, a);
  }

  /** No two heap entries, held back or not, have the same order number. */
  lemma HeapOrdersAreDistinct(acts: seq<Action>, diagnose: bool)
    requires Possible(START, acts, diagnose)
    ensures var y := After(START, acts, diagnose); OrdersDistinct(y.s.board.ready + HeldItems(y), y.s.board.nextSeq)
  {
    var spot, cellKey := RunsAreSound(acts, diagnose);
  }

  // ---- The scheduler never runs dry and blocks only for a reason -----------

  lemma RegisteredSomewhere(y: System, spot: Spots, cellKey: map<nat, Key>, j: nat) returns (key: Key, w: Waiter)
    requires Inv(y, spot, cellKey) && j in y.s.board.joins && !y.s.board.joins[j].resolved
    ensures Has(y.s.board.waiters, key, w) && OfJoin(w, j)
  {
    var b := y.s.board;
    assert Counted(b.waiters, j, b.joins[j], y.s.meta, None);
    key := SomeOutstanding(y.s.meta, b.joins[j].keys);
    OccurrencesPositive(b.joins[j].keys, key);
    CountPositive(RegsAt(b.waiters, key), j);
    w :| w in RegsAt(b.waiters, key) && OfJoin(w, j);
  }

  /** When the heap is empty the root waits for a waitable or for a permit. */
  lemma RootIsParked(y: System, spot: Spots, cellKey: map<nat, Key>)
    requires Inv(y, spot, cellKey) && y.phase.Picking? && y.s.board.ready == {}
    ensures HasLiveParked(y.s.meta, y.s.board.waiters) || Blocked(PruneQueues(y.s.meta, y.s.sems)) != {}
  {
    assert y.phase.held == {};
    assert Alive(y.s.meta, Root);
    var p := SpotIsKept(y, spot, cellKey, Root);
    if p.InWaiters? {
      assert p.key in y.s.board.waiters && p.waiter in y.s.board.waiters[p.key]
             && !IsCancelled(y.s.meta, p.waiter.owner);
    } else if p.InJoins? {
      var key, w := RegisteredSomewhere(y, spot, cellKey, p.join);
      assert w in y.s.board.waiters[key] && w.owner == Root;
    } else if p.InQueue? {
      var sems' := PruneQueues(y.s.meta, y.s.sems);
      LiveStaysQueued(y.s.meta, y.s.sems[p.sid].queue, p.parked);
      assert p.sid in Blocked(sems');
    }
  }

  lemma {:induction false} LiveStaysQueued(meta: map<Key, Meta>, q: seq<Parked>, p: Parked)
    requires p in q && !IsCancelled(meta, p.owner)
    ensures p in LiveQueue(meta, q)
  {
    assert q == [q[0]] + q[1..];
    if p != q[0] {
      LiveStaysQueued(meta, q[1..], p);
    }
  }

  /** `pick_next` never returns `Pure(None)`: the root is never lost. */
  lemma NeverRunsDry(acts: seq<Action>)
    requires Possible(START, acts, true)
    ensures After(START, acts, true).phase != RanDry
  {
    RunNeverRunsDry(START, acts, map[], map[]);
  }

  lemma RanDryMeans(y: System, a: Action)
    requires Enabled(y, a, true) && y.phase != RanDry && Step(y, a, true).phase == RanDry
    ensures y.phase.Picking? && y.s.board.ready == {} && y.s.board.waiters == map[]
    ensures Blocked(PruneQueues(y.s.meta, y.s.sems)) == {}
  {
  }

  lemma StepNeverRunsDry(y: System, a: Action, spot: Spots, cellKey: map<nat, Key>)
    requires Inv(y, spot, cellKey) && Enabled(y, a, true) && y.phase != RanDry
    ensures Step(y, a, true).phase != RanDry
  {
    if Step(y, a, true).phase == RanDry {
      RanDryMeans(y, a);
      RootIsParked(y, spot, cellKey);
    }
  }

  lemma {:induction false} RunNeverRunsDry(y: System, acts: seq<Action>, spot: Spots, cellKey: map<nat, Key>)
    requires Inv(y, spot, cellKey) && Possible(y, acts, true) && y.phase != RanDry
    ensures After(y, acts, true).phase != RanDry
    decreases |acts|
  {
    if acts != [] {
      StepNeverRunsDry(y, acts[0], spot, cellKey);
      var spot', cellKey' := StepKeeps(y, acts[0], true, spot, cellKey);
      RunNeverRunsDry(Step(y, acts[0], true), acts[1..], spot', cellKey');
    }
  }

  /** Where `pick_next` blocks, nothing live but shielded daemons is in the heap, and a live owner is
      registered on an external promise that is still pending. */
  lemma BlockingIsJustified(acts: seq<Action>)
    requires Possible(START, acts, true)
    ensures var y := After(START, acts, true);
            y.phase.Picking? && PickTurn(y.s, y.phase.held, y.phase.shield, true).Blocking? ==>
              && y.s.queue == []
              && !HasLive(y.s.meta, y.s.board.ready + y.phase.held, false)
              && HasPendingExternal(y.s.meta, y.s.board.waiters)
  {
    var y := After(START, acts, true);
    var spot, cellKey := RunsAreSound(acts, true);
    if y.phase.Picking? && PickTurn(y.s, y.phase.held, y.phase.shield, true).Blocking? {
      if y.s.board.ready == {} {
        RootIsParked(y, spot, cellKey);
      } else {
        BlockedMeans(y.s, Least(y.s.board.ready), y.phase.held, y.phase.shield);
        BlockedByPlaceholder(y, spot, cellKey, Least(y.s.board.ready));
      }
    }
  }

  lemma BlockedMeans(s: State, x: Item, held: set<Item>, shield: bool)
    requires PopTurn(s, x, held, shield, true).Blocking?
    ensures s.queue == [] && Standing(s.meta, s.board.claimed, x.entry) && !HasLive(s.meta, s.board.ready - {x}, false)
  {
  }

  lemma BlockedByPlaceholder(y: System, spot: Spots, cellKey: map<nat, Key>, x: Item)
    requires Inv(y, spot, cellKey) && y.phase.Picking? && x in y.s.board.ready
    requires Standing(y.s.meta, y.s.board.claimed, x.entry) && !HasLive(y.s.meta, y.s.board.ready - {x}, false)
    ensures !HasLive(y.s.meta, y.s.board.ready + y.phase.held, false)
    ensures HasPendingExternal(y.s.meta, y.s.board.waiters)
  {
    if y.phase.shield {
      StillLive(y.s.meta, y.s.board.ready, x);
    }
    assert y.phase.held == {};
    assert y.s.board.ready + y.phase.held == y.s.board.ready;
    if HasLive(y.s.meta, y.s.board.ready, false) {
      StillLive(y.s.meta, y.s.board.ready, x);
    }
    assert x in y.s.board.ready + HeldItems(y);
    StandingWaits(y.s.board, y.s.board.ready, y.s.meta, cellKey, x.entry);
  }

  lemma StandingWaits(b: Board, items: set<Item>, meta: map<Key, Meta>, cellKey: map<nat, Key>, e: Entry)
    requires PlaceholdersPaired(items, b.waiters, b.claimed, b.nextObj)
    requires CellsUnclaimed(b.waiters, b.claimed, meta, cellKey, b.nextObj) && KeysPending(b.waiters, meta, None)
    requires (exists x :: x in items && x.entry == e) && Standing(meta, b.claimed, e)
    ensures HasPendingExternal(meta, b.waiters)
  {
    assert Registered(b.waiters, e.owner, e.key, e.cell);
    var w: Waiter :| w in b.waiters[e.key] && w.owner == e.owner && w.cell == Some(e.cell);
    assert External(meta, e.key);
  }

  /** When the heap is empty and no live owner waits for a pending external promise, the turn
      raises `SchedulerDeadlockError`. */
  lemma HopelessWaitRaises(acts: seq<Action>)
    requires Possible(START, acts, true)
    ensures var y := After(START, acts, true);
            y.phase.Picking? && y.s.board.ready == {} && !HasPendingExternal(y.s.meta, y.s.board.waiters) ==>
              PickTurn(y.s, y.phase.held, y.phase.shield, true).Deadlocked?
  {
    var y := After(START, acts, true);
    var spot, cellKey := RunsAreSound(acts, true);
    if y.phase.Picking? && y.s.board.ready == {} {
      RootIsParked(y, spot, cellKey);
    }
  }

  // ---- Registrations, gathers and placeholders -----------------------------

  /** No lost wakeup: whatever is waited for is known and still pending. */
  lemma WaitersWaitForPendingThings(acts: seq<Action>, diagnose: bool, key: Key)
    requires Possible(START, acts, diagnose)
    ensures var y := After(START, acts, diagnose);
            key in y.s.board.waiters ==>
              y.s.board.waiters[key] != [] && key in y.s.meta && !Terminal(y.s.meta[key].status)
  {
    var spot, cellKey := RunsAreSound(acts, diagnose);
  }

  /** An unresolved gather's `remaining` is the number of its positions that are pending; every
      other position is completed, and each pending key has one registration per position.
      A resolved gather or race has no registration left. */
  lemma GathersAreCounted(acts: seq<Action>, diagnose: bool, j: nat)
    requires Possible(START, acts, diagnose)
    ensures var y := After(START, acts, diagnose); var b := y.s.board;
            && (j in b.joins && !b.joins[j].resolved ==>
                  var g := b.joins[j];
                  && (g.kind.GatherJoin? ==> g.remaining == Outstanding(y.s.meta, g.keys) > 0)
                  && (forall key :: key in g.keys ==>
                        key in y.s.meta
                        && Count(RegsAt(b.waiters, key), j)
                           == (if Terminal(y.s.meta[key].status) then 0 else Occurrences(g.keys, key))
                        && (Terminal(y.s.meta[key].status) ==> g.kind.GatherJoin? && y.s.meta[key].status.Completed?)))
            && (j in b.joins && b.joins[j].resolved ==> forall key :: Count(RegsAt(b.waiters, key), j) == 0)
  {
    var y := After(START, acts, diagnose);
    var b := y.s.board;
    var spot, cellKey := RunsAreSound(acts, diagnose);
    if j in b.joins {
      if !b.joins[j].resolved {
        assert Counted(b.waiters, j, b.joins[j], y.s.meta, None);
      } else {
        forall key ensures Count(RegsAt(b.waiters, key), j) == 0 {
          CountPositive(RegsAt(b.waiters, key), j);
        }
      }
    }
  }

  /** Every unclaimed placeholder has exactly one registration holding its cell: its own
      owner's, under the key it waits for, a pending external promise. */
  lemma PlaceholdersArePaired(acts: seq<Action>, diagnose: bool, x: Item)
    requires Possible(START, acts, diagnose)
    ensures var y := After(START, acts, diagnose);
            x in y.s.board.ready + HeldItems(y) && x.entry.Placeholder? && x.entry.cell !in y.s.board.claimed ==>
              && External(y.s.meta, x.entry.key) && !Terminal(y.s.meta[x.entry.key].status)
              && (exists w :: Has(y.s.board.waiters, x.entry.key, w)
                              && w.owner == x.entry.owner && w.cell == Some(x.entry.cell))
              && (forall key, w, v :: Has(y.s.board.waiters, key, w) && w.cell == Some(x.entry.cell)
                                      && Has(y.s.board.waiters, x.entry.key, v) && v.cell == Some(x.entry.cell)
                                      ==> key == x.entry.key && w == v)
  {
    var y := After(START, acts, diagnose);
    var spot, cellKey := RunsAreSound(acts, diagnose);
    if x in y.s.board.ready + HeldItems(y) && x.entry.Placeholder? && x.entry.cell !in y.s.board.claimed {
      PairedOnce(y.s.board, y.s.board.ready + HeldItems(y), y.s.meta, cellKey, x);
    }
  }

  lemma PairedOnce(b: Board, items: set<Item>, meta: map<Key, Meta>, cellKey: map<nat, Key>, x: Item)
    requires PlaceholdersPaired(items, b.waiters, b.claimed, b.nextObj) && ListsClean(b.waiters)
    requires CellsUnclaimed(b.waiters, b.claimed, meta, cellKey, b.nextObj) && KeysPending(b.waiters, meta, None)
    requires x in items && x.entry.Placeholder? && x.entry.cell !in b.claimed
    ensures External(meta, x.entry.key) && !Terminal(meta[x.entry.key].status)
    ensures exists w :: Has(b.waiters, x.entry.key, w) && w.owner == x.entry.owner && w.cell == Some(x.entry.cell)
    ensures forall key, w, v :: Has(b.waiters, key, w) && w.cell == Some(x.entry.cell)
                                && Has(b.waiters, x.entry.key, v) && v.cell == Some(x.entry.cell)
                                ==> key == x.entry.key && w == v
  {
    assert Registered(b.waiters, x.entry.owner, x.entry.key, x.entry.cell);
    var u: Waiter :| u in b.waiters[x.entry.key] && u.owner == x.entry.owner && u.cell == Some(x.entry.cell);
    assert Has(b.waiters, x.entry.key, u);
    forall key, w, v | Has(b.waiters, key, w) && w.cell == Some(x.entry.cell)
                       && Has(b.waiters, x.entry.key, v) && v.cell == Some(x.entry.cell)
      ensures key == x.entry.key && w == v
    {
      assert w in b.waiters[key] && v in b.waiters[x.entry.key];
      assert key == cellKey[x.entry.cell] == x.entry.key;
      SharedCell(b.waiters[key], v, w);
    }
  }

  // ---- The sweep is safe ---------------------------------------------------

  /** Waitables reached through live handles are never unknown, whatever the collector did. */
  lemma LiveHandlesAreKnown(acts: seq<Action>, diagnose: bool, e: Effect)
    requires Possible(START, acts, diagnose) && Enabled(After(START, acts, diagnose), Perform(e), diagnose)
    ensures var d := Drain(After(START, acts, diagnose).s);
            && (e.Wait? || e.Cancel? || e.CompletePromise? || e.FailPromise? ==> e.key in d.meta)
            && (e.Gather? || e.Race? ==> forall key :: key in e.keys ==> key in d.meta)
  {
    var y := After(START, acts, diagnose);
    var spot, cellKey := RunsAreSound(acts, diagnose);
    var spot' := DrainedEntered(y, spot, cellKey);
    forall key | key in y.handles.Values ensures key in Drain(y.s).meta {
      var h :| h in y.handles && y.handles[h] == key;
      assert key in y.s.refs;
    }
  }

  /** Nothing the scheduler reads later has been swept: the entries of the owners of kept
      continuations and of the running owner, and all keys of unresolved gathers and races. */
  lemma NothingNeededIsSwept(acts: seq<Action>, diagnose: bool, t: nat, p: Place, j: nat)
    requires Possible(START, acts, diagnose)
    ensures var y := After(START, acts, diagnose);
            && (KeptAt(y, Of(t), p) || y.phase == Executing(Of(t)) ==> TaskKey(t) in y.s.meta)
            && (j in y.s.board.joins && !y.s.board.joins[j].resolved ==>
                  forall key :: key in y.s.board.joins[j].keys ==> key in y.s.meta)
  {
    var y := After(START, acts, diagnose);
    var spot, cellKey := RunsAreSound(acts, diagnose);
    if KeptAt(y, Of(t), p) {
      KeptIsSpot(y, spot, cellKey, Of(t), p);
    }
    if j in y.s.board.joins && !y.s.board.joins[j].resolved {
      assert Counted(y.s.board.waiters, j, y.s.board.joins[j], y.s.meta, None);
    }
  }
}
