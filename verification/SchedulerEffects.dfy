/** Every effect keeps the invariant: parking, opening a gather or race, acquiring and
    releasing permits, creating and sweeping waitables. */
module SchedulerEffects {
  import opened Wrappers
  import opened SchedulerModel
  import opened SchedulerSteps
  import opened SchedulerInvariant
  import opened SchedulerWaking

  // ---- What creating leaves alone ------------------------------------------

  predicate Settles(e: Effect) { e.TaskCompleted? || e.Cancel? || e.CompletePromise? || e.FailPromise? }

  predicate Creates(e: Effect) { e.Spawn? || e.CreatePromise? || e.CreateExternalPromise? || e.CreateSemaphore? }

  /** The board but for its heap, to which entries that start a task or go on with one are added. */
  ghost predicate OnlyQueues(b: Board, b': Board) {
    && b' == b.(ready := b'.ready, nextSeq := b'.nextSeq) && b.ready <= b'.ready
    && forall x :: x in b'.ready && x !in b.ready ==> x.entry.New? || x.entry.Resume?
  }

  lemma CreatingLeaves(s: State, o: Owner, k: nat, e: Effect, live: set<nat>, h: nat)
    requires Creates(e)
    ensures var s' := Handling(s, o, k, e, live, h).0; OnlyQueues(s.board, s'.board) && s'.queue == s.queue
  {
    match e
    case Spawn(prio, daemon) => SpawningLeaves(s, o, k, prio, daemon, live, h);
    case _ =>
  }

  lemma SpawningLeaves(s: State, o: Owner, k: nat, prio: int, daemon: bool, live: set<nat>, h: nat)
    ensures var s' := HandleSpawn(s, o, k, prio, daemon, live, h).0;
            OnlyQueues(s.board, s'.board) && s'.queue == s.queue
  {
  }

  /** No kept continuation is exchanged or invented, and only cancelled owners are dropped. */
  ghost predicate Flows(spot: Spots, spot': Spots, meta: map<Key, Meta>) {
    && (forall o :: o in spot' ==> o in spot && ContOf(spot'[o]) == ContOf(spot[o]))
    && (forall o :: o in spot && o !in spot' ==> IsCancelled(meta, o))
  }

  lemma FlowsOneShot(spot: Spots, spot': Spots, meta: map<Key, Meta>, n: nat, spent: set<nat>)
    requires OneShot(spot, n, spent) && Flows(spot, spot', meta)
    ensures OneShot(spot', n, spent)
  {
    forall o, p | o in spot' && p in spot' && !spot'[o].Unstarted? && ContOf(spot'[o]) == ContOf(spot'[p])
      ensures o == p
    {
      assert ContOf(spot[o]) == ContOf(spot'[o]) && ContOf(spot[p]) == ContOf(spot'[p]);
    }
  }

  lemma FlowsNobodyLost(spot: Spots, spot': Spots, meta: map<Key, Meta>, running: Option<Owner>)
    requires NobodyLost(spot, meta, running) && Flows(spot, spot', meta)
    ensures NobodyLost(spot', meta, running)
  {
  }

  /** Waitables that become terminal lose nobody. */
  lemma ResolvedNobodyLost(spot: Spots, meta: map<Key, Meta>, key: Key, st: Status, v: Value, running: Option<Owner>)
    requires NobodyLost(spot, meta, running) && key in meta && Terminal(st)
    requires st.Cancelled? || key.PromiseKey? || running != Some(Of(key.id))
    ensures NobodyLost(spot, WithStatus(meta, key, st, v), running)
  {
  }

  // ---- Parking on one waitable ---------------------------------------------

  lemma {:induction false} CountAppend(ws: seq<Waiter>, w: Waiter, j: nat)
    ensures Count(ws + [w], j) == Count(ws, j) + if OfJoin(w, j) then 1 else 0
  {
    if ws != [] {
      CountAppend(ws[1..], w, j);
      assert (ws + [w])[1..] == ws[1..] + [w];
    }
  }

  lemma {:induction false} CleanAppend(ws: seq<Waiter>, w: Waiter)
    requires NoClash(ws) && forall v :: v in ws ==> !Clash(v, w)
    ensures NoClash(ws + [w])
  {
    if ws != [] {
      assert ws == [ws[0]] + ws[1..];
      CleanAppend(ws[1..], w);
      assert (ws + [w])[1..] == ws[1..] + [w];
    }
  }

  /** `w` can be added under `key`: its continuation is kept nowhere else, its cell is new. */
  ghost predicate Addable(waiters: map<Key, seq<Waiter>>, meta: map<Key, Meta>, cellKey: map<nat, Key>, key: Key,
                          w: Waiter) {
    && key in meta && !Terminal(meta[key].status)
    && (w.cell.Some? ==> w.cell.value !in cellKey && External(meta, key))
    && (w.Direct? ==> forall k, v :: k in waiters && v in waiters[k] && v.Direct? ==> v.owner != w.owner)
  }

  function WithCell(cellKey: map<nat, Key>, cell: Option<nat>, key: Key): map<nat, Key> {
    if cell.Some? then cellKey[cell.value := key] else cellKey
  }

  lemma AddedLists(waiters: map<Key, seq<Waiter>>, claimed: set<nat>, meta: map<Key, Meta>, cellKey: map<nat, Key>,
                   n: nat, n': nat, key: Key, w: Waiter)
    requires ListsClean(waiters) && KeysPending(waiters, meta, None)
    requires CellsUnclaimed(waiters, claimed, meta, cellKey, n) && Addable(waiters, meta, cellKey, key, w)
    requires n <= n' && (w.cell.Some? ==> n <= w.cell.value < n')
    ensures var waiters' := waiters[key := RegsAt(waiters, key) + [w]];
            && ListsClean(waiters') && KeysPending(waiters', meta, None)
            && CellsUnclaimed(waiters', claimed, meta, WithCell(cellKey, w.cell, key), n')
  {
    var ws := RegsAt(waiters, key);
    forall v | v in ws ensures !Clash(v, w) {}
    CleanAppend(ws, w);
  }

  lemma AddedPlaceholders(items: set<Item>, waiters: map<Key, seq<Waiter>>, claimed: set<nat>, n: nat, n': nat,
                          key: Key, w: Waiter)
    requires PlaceholdersPaired(items, waiters, claimed, n) && n <= n'
    ensures var waiters' := waiters[key := RegsAt(waiters, key) + [w]];
            && PlaceholdersPaired(items, waiters', claimed, n')
            && (w.cell.Some? && w.cell.value < n' ==>
                  forall x: Item :: x.entry == Placeholder(w.owner, key, w.cell.value)
                                    ==> PlaceholdersPaired(items + {x}, waiters', claimed, n'))
  {
    var waiters' := waiters[key := RegsAt(waiters, key) + [w]];
    forall x | x in items && x.entry.Placeholder? && x.entry.cell !in claimed
      ensures Registered(waiters', x.entry.owner, x.entry.key, x.entry.cell)
    {
      assert Registered(waiters, x.entry.owner, x.entry.key, x.entry.cell);
      var v: Waiter :| v in waiters[x.entry.key] && v.owner == x.entry.owner && v.cell == Some(x.entry.cell);
      assert v in waiters'[x.entry.key];
    }
    if w.cell.Some? {
      assert w in waiters'[key];
      assert Registered(waiters', w.owner, key, w.cell.value);
    }
  }

  lemma AddedRegs(waiters: map<Key, seq<Waiter>>, joins: map<nat, Join>, n: nat, n': nat, key: Key, w: Waiter)
    requires RegsKnown(waiters, joins, None, n) && n <= n'
    requires w.Joined? ==>
               w.join in joins && joins[w.join].owner == w.owner && key in joins[w.join].pendingKeys
                   && !joins[w.join].resolved
    ensures RegsKnown(waiters[key := RegsAt(waiters, key) + [w]], joins, None, n')
  {
  }

  lemma AddedCounts(waiters: map<Key, seq<Waiter>>, joins: map<nat, Join>, meta: map<Key, Meta>, key: Key, w: Waiter)
    requires JoinsCounted(waiters, joins, meta, None)
    requires w.Joined? ==> w.join !in joins
    ensures JoinsCounted(waiters[key := RegsAt(waiters, key) + [w]], joins, meta, None)
  {
    var waiters' := waiters[key := RegsAt(waiters, key) + [w]];
    forall j | j in joins && !joins[j].resolved ensures Counted(waiters', j, joins[j], meta, None) {
      assert Counted(waiters, j, joins[j], meta, None);
      forall k ensures Count(RegsAt(waiters', k), j) == Count(RegsAt(waiters, k), j) {
        CountAppend(RegsAt(waiters, key), w, j);
      }
    }
  }

  lemma AddedWaits(waiters: map<Key, seq<Waiter>>, spot: Spots, key: Key, w: Waiter)
    requires WaitsPlaced(waiters, spot)
    ensures w.Joined? ==> WaitsPlaced(waiters[key := RegsAt(waiters, key) + [w]], spot)
    ensures w.Direct? && w.owner !in spot ==>
              WaitsPlaced(waiters[key := RegsAt(waiters, key) + [w]], spot[w.owner := AtWait(key, w.cont)])
  {
    var waiters' := waiters[key := RegsAt(waiters, key) + [w]];
    if w.Joined? || w.owner !in spot {
      var spot' := if w.Joined? then spot else spot[w.owner := AtWait(key, w.cont)];
      forall o | o in spot' && spot'[o].AtWait? ensures WaitingIn(waiters', o, spot'[o].key, spot'[o].cont) {
        if w.Direct? && o == w.owner {
          assert w in waiters'[key];
        } else {
          assert WaitingIn(waiters, o, spot[o].key, spot[o].cont);
          var v: Waiter :| v in waiters[spot[o].key] && v.Direct? && v.owner == o && v.cont == spot[o].cont;
          assert v in waiters'[spot[o].key];
        }
      }
    }
  }

  lemma ShieldedItems(items: set<Item>, n: nat, spot: Spots, x: Item)
    requires ItemsPlaced(items, spot) && OrdersDistinct(items, n)
    requires x.order == n && x.entry.Placeholder?
    ensures ItemsPlaced(items + {x}, spot) && OrdersDistinct(items + {x}, n + 1)
  {
    forall o | o in spot && (spot[o].Unstarted? || spot[o].AtReady?) ensures CarriedBy(items + {x}, o, spot[o]) {
      assert CarriedBy(items, o, spot[o]);
    }
  }

  lemma NewSpotItems(items: set<Item>, spot: Spots, o: Owner, sp: Spot)
    requires ItemsPlaced(items, spot) && o !in spot && !sp.Unstarted? && !sp.AtReady?
    ensures ItemsPlaced(items, spot[o := sp])
  {
    var spot' := spot[o := sp];
    forall p | p in spot' && (spot'[p].Unstarted? || spot'[p].AtReady?) ensures CarriedBy(items, p, spot'[p]) {
      assert CarriedBy(items, p, spot[p]);
    }
  }

  /** Adding one registration, with the placeholder that goes with its cell. */
  lemma AddRegPlaced(b: Board, meta: map<Key, Meta>, spot: Spots, cellKey: map<nat, Key>, key: Key, w: Waiter)
    requires BoardPlaced(b, b.ready, meta, spot, cellKey, None)
    requires Addable(b.waiters, meta, cellKey, key, w)
    requires w.cell.Some? ==> w.cell.value == b.nextObj
    requires w.Direct? ==> w.owner !in spot
    requires w.Joined? ==>
               w.join in b.joins && b.joins[w.join].owner == w.owner && key in b.joins[w.join].pendingKeys
                   && !b.joins[w.join].resolved
    ensures var b' := AddReg(if w.cell.Some? then Shield(b, w.owner, key) else b, key, w);
            BoardPlaced(b', b'.ready, meta, if w.Direct? then spot[w.owner := AtWait(key, w.cont)] else spot,
                        WithCell(cellKey, w.cell, key), None)
  {
    var n' := if w.cell.Some? then b.nextObj + 1 else b.nextObj;
    AddedLists(b.waiters, b.claimed, meta, cellKey, b.nextObj, n', key, w);
    AddedRegs(b.waiters, b.joins, b.nextObj, n', key, w);
    AddRegItems(b, spot, n', key, w);
  }

  lemma AddRegItems(b: Board, spot: Spots, n': nat, key: Key, w: Waiter)
    requires ItemsPlaced(b.ready, spot) && OrdersDistinct(b.ready, b.nextSeq)
    requires WaitsPlaced(b.waiters, spot) && JoinsPlaced(b.joins, spot)
    requires PlaceholdersPaired(b.ready, b.waiters, b.claimed, b.nextObj) && b.nextObj <= n'
    requires w.cell.Some? ==> w.cell.value == b.nextObj < n'
    requires w.Direct? ==> w.owner !in spot
    ensures var b' := AddReg(if w.cell.Some? then Shield(b, w.owner, key) else b, key, w);
            var spot' := if w.Direct? then spot[w.owner := AtWait(key, w.cont)] else spot;
            && ItemsPlaced(b'.ready, spot') && OrdersDistinct(b'.ready, b'.nextSeq)
            && WaitsPlaced(b'.waiters, spot') && JoinsPlaced(b'.joins, spot')
            && PlaceholdersPaired(b'.ready, b'.waiters, b'.claimed, n')
  {
    AddedPlaceholders(b.ready, b.waiters, b.claimed, b.nextObj, n', key, w);
    AddedWaits(b.waiters, spot, key, w);
    if w.cell.Some? {
      ShieldedItems(b.ready, b.nextSeq, spot,
                    Item(PRIORITY_EXTERNAL_WAIT, b.nextSeq, Placeholder(w.owner, key, w.cell.value)));
    }
    if w.Direct? {
      var items := if w.cell.Some? then Shield(b, w.owner, key).ready else b.ready;
      NewSpotItems(items, spot, w.owner, AtWait(key, w.cont));
      MoveKeepsJoins(b.joins, spot, w.owner, AtWait(key, w.cont));
    }
  }

  lemma ParkDirectSound(b: Board, meta: map<Key, Meta>, spot: Spots, cellKey: map<nat, Key>,
                        o: Owner, k: nat, key: Key, wake: Option<int>)
    returns (cellKey': map<nat, Key>)
    requires BoardSound(b, b.ready, meta, spot, cellKey, None)
    requires o !in spot && key in meta && !Terminal(meta[key].status)
    ensures var b' := ParkDirect(meta, b, o, k, key, wake);
            BoardSound(b', b'.ready, meta, spot[o := AtWait(key, k)], cellKey', None)
  {
    var shielded := External(meta, key) && wake != Some(PRIORITY_IDLE);
    var w := Direct(o, k, if External(meta, key) && !shielded then None else wake,
                    if shielded then Some(b.nextObj) else None);
    forall k2, v | k2 in b.waiters && v in b.waiters[k2] && v.Direct? ensures v.owner != o {}
    AddRegPlaced(b, meta, spot, cellKey, key, w);
    AddedCounts(b.waiters, b.joins, meta, key, w);
    cellKey' := WithCell(cellKey, w.cell, key);
  }

  // ---- Opening a gather or a race ------------------------------------------

  lemma RegisterOneSound(b: Board, meta: map<Key, Meta>, spot: Spots, cellKey: map<nat, Key>,
                         j: nat, o: Owner, key: Key)
    returns (cellKey': map<nat, Key>)
    requires BoardPlaced(b, b.ready, meta, spot, cellKey, None)
    requires j in b.joins && !b.joins[j].resolved && b.joins[j].owner == o
    requires JoinsCounted(b.waiters, b.joins - {j}, meta, None)
    requires key in meta && !Terminal(meta[key].status) && key in b.joins[j].pendingKeys
    ensures var b' := RegisterJoined(meta, b, j, o, key);
            && b'.joins == b.joins
            && BoardPlaced(b', b'.ready, meta, spot, cellKey', None)
            && JoinsCounted(b'.waiters, b.joins - {j}, meta, None)
            && forall k ::
                 Count(RegsAt(b'.waiters, k), j) == Count(RegsAt(b.waiters, k), j) + (if k == key then 1 else 0)
  {
    var w := Joined(o, j, if External(meta, key) then Some(b.nextObj) else None);
    AddRegPlaced(b, meta, spot, cellKey, key, w);
    AddedCounts(b.waiters, b.joins - {j}, meta, key, w);
    CountAppend(RegsAt(b.waiters, key), w, j);
    cellKey' := WithCell(cellKey, w.cell, key);
  }

  lemma {:induction false} RegisterAllSound(b: Board, meta: map<Key, Meta>, spot: Spots, cellKey: map<nat, Key>,
                                            j: nat, o: Owner, keys: seq<Key>)
    returns (cellKey': map<nat, Key>)
    requires BoardPlaced(b, b.ready, meta, spot, cellKey, None)
    requires j in b.joins && !b.joins[j].resolved && b.joins[j].owner == o
    requires JoinsCounted(b.waiters, b.joins - {j}, meta, None)
    requires forall key :: key in keys ==> key in meta && !Terminal(meta[key].status) && key in b.joins[j].pendingKeys
    ensures var b' := RegisterAll(meta, b, j, o, keys);
            && b'.joins == b.joins
            && BoardPlaced(b', b'.ready, meta, spot, cellKey', None)
            && JoinsCounted(b'.waiters, b.joins - {j}, meta, None)
            && forall key ::
                 Count(RegsAt(b'.waiters, key), j) == Count(RegsAt(b.waiters, key), j) + Occurrences(keys, key)
    decreases |keys|
  {
    cellKey' := cellKey;
    if keys != [] {
      var b1 := RegisterJoined(meta, b, j, o, keys[0]);
      var cellKey1 := RegisterOneSound(b, meta, spot, cellKey, j, o, keys[0]);
      cellKey' := RegisterAllSound(b1, meta, spot, cellKey1, j, o, keys[1..]);
    }
  }

  lemma {:induction false} PendingOccurrences(meta: map<Key, Meta>, keys: seq<Key>)
    ensures forall key :: key in PendingOf(meta, keys) <==> key in keys && !Terminal(StatusOf(meta, key))
    ensures forall key :: !Terminal(StatusOf(meta, key)) ==>
              Occurrences(PendingOf(meta, keys), key) == Occurrences(keys, key)
    ensures Outstanding(meta, keys) == |PendingOf(meta, keys)|
  {
    if keys != [] {
      PendingOccurrences(meta, keys[1..]);
      assert keys == [keys[0]] + keys[1..];
      var rest := PendingOf(meta, keys[1..]);
      assert ([keys[0]] + rest)[1..] == rest;
    }
  }

  lemma {:induction false} NoFailure(meta: map<Key, Meta>, keys: seq<Key>)
    requires FirstFailure(meta, keys).None?
    ensures forall key :: key in keys ==> key in meta && !meta[key].status.Failed? && !meta[key].status.Cancelled?
  {
    if keys != [] {
      NoFailure(meta, keys[1..]);
      assert keys == [keys[0]] + keys[1..];
    }
  }

  lemma {:induction false} NoneTerminal(meta: map<Key, Meta>, keys: seq<Key>)
    requires FirstTerminal(meta, keys).None?
    ensures forall key :: key in keys ==> key in meta && !Terminal(meta[key].status)
    ensures Outstanding(meta, keys) == |keys|
  {
    if keys != [] {
      NoneTerminal(meta, keys[1..]);
      assert keys == [keys[0]] + keys[1..];
    }
  }

  /** What `HandleGather` and `HandleRace` establish about the join they open. */
  ghost predicate Openable(g: Join, meta: map<Key, Meta>) {
    && !g.resolved
    && (forall key :: key in g.pendingKeys <==> key in g.keys && !Terminal(StatusOf(meta, key)))
    && (forall key :: !Terminal(StatusOf(meta, key)) ==> Occurrences(g.pendingKeys, key) == Occurrences(g.keys, key))
    && (forall key :: key in g.keys ==>
         key in meta && (Terminal(meta[key].status) ==> g.kind.GatherJoin? && meta[key].status.Completed?))
    && Outstanding(meta, g.keys) > 0 && (g.kind.GatherJoin? ==> g.remaining == Outstanding(meta, g.keys))
  }

  lemma GatherOpenable(meta: map<Key, Meta>, o: Owner, k: nat, keys: seq<Key>)
    requires FirstFailure(meta, keys).None? && PendingOf(meta, keys) != []
    ensures Openable(Join(GatherJoin, o, k, keys, PendingOf(meta, keys), |PendingOf(meta, keys)|, false), meta)
  {
    NoFailure(meta, keys);
    PendingOccurrences(meta, keys);
  }

  lemma RaceOpenable(meta: map<Key, Meta>, o: Owner, k: nat, keys: seq<Key>)
    requires FirstTerminal(meta, keys).None? && keys != []
    ensures Openable(Join(RaceJoin, o, k, keys, keys, 0, false), meta)
  {
    NoneTerminal(meta, keys);
  }

  lemma NewJoin(b: Board, meta: map<Key, Meta>, spot: Spots, cellKey: map<nat, Key>, g: Join)
    requires BoardSound(b, b.ready, meta, spot, cellKey, None)
    requires g.owner !in spot && !g.resolved
    ensures var j := b.nextObj; var b0 := b.(joins := b.joins[j := g], nextObj := j + 1);
            && BoardPlaced(b0, b0.ready, meta, spot[g.owner := AtJoin(j, g.cont)], cellKey, None)
            && JoinsCounted(b0.waiters, b0.joins - {j}, meta, None)
            && (forall key :: Count(RegsAt(b0.waiters, key), j) == 0)
  {
    var j := b.nextObj;
    assert b.joins[j := g] - {j} == b.joins;
    NewSpotItems(b.ready, spot, g.owner, AtJoin(j, g.cont));
    MoveKeepsWaits(b.waiters, spot, g.owner, AtJoin(j, g.cont));
    forall key ensures Count(RegsAt(b.waiters, key), j) == 0 {
      CountPositive(RegsAt(b.waiters, key), j);
    }
    NewJoinPlaced(b.joins, b.nextObj, spot, g);
  }

  lemma NewJoinPlaced(joins: map<nat, Join>, n: nat, spot: Spots, g: Join)
    requires JoinsPlaced(joins, spot) && (forall j :: j in joins ==> j < n)
    requires g.owner !in spot && !g.resolved
    ensures JoinsPlaced(joins[n := g], spot[g.owner := AtJoin(n, g.cont)])
  {
  }

  lemma OpenJoinSound(b: Board, meta: map<Key, Meta>, spot: Spots, cellKey: map<nat, Key>, g: Join)
    returns (cellKey': map<nat, Key>)
    requires BoardSound(b, b.ready, meta, spot, cellKey, None)
    requires g.owner !in spot && Openable(g, meta)
    ensures var b' := OpenJoin(meta, b, g);
            BoardSound(b', b'.ready, meta, spot[g.owner := AtJoin(b.nextObj, g.cont)], cellKey', None)
  {
    NewJoin(b, meta, spot, cellKey, g);
    var b0 := b.(joins := b.joins[b.nextObj := g], nextObj := b.nextObj + 1);
    cellKey' := OpenedPlaced(b0, meta, spot[g.owner := AtJoin(b.nextObj, g.cont)], cellKey, b.nextObj, g);
    var b' := OpenJoin(meta, b, g);
    OpenedCounts(b'.waiters, b'.joins, meta, b.nextObj, g);
  }

  lemma OpenedPlaced(b0: Board, meta: map<Key, Meta>, spot: Spots, cellKey: map<nat, Key>, j: nat, g: Join)
    returns (cellKey': map<nat, Key>)
    requires BoardPlaced(b0, b0.ready, meta, spot, cellKey, None)
    requires JoinsCounted(b0.waiters, b0.joins - {j}, meta, None)
    requires j in b0.joins && b0.joins[j] == g && Openable(g, meta)
             && (forall key :: Count(RegsAt(b0.waiters, key), j) == 0)
    ensures var b' := RegisterAll(meta, b0, j, g.owner, g.pendingKeys);
            && b'.joins == b0.joins && BoardPlaced(b', b'.ready, meta, spot, cellKey', None)
            && JoinsCounted(b'.waiters, b'.joins - {j}, meta, None)
            && forall key :: Count(RegsAt(b'.waiters, key), j) == Occurrences(g.pendingKeys, key)
  {
    cellKey' := RegisterAllSound(b0, meta, spot, cellKey, j, g.owner, g.pendingKeys);
  }

  lemma OpenedCounts(waiters: map<Key, seq<Waiter>>, joins: map<nat, Join>, meta: map<Key, Meta>, j: nat, g: Join)
    requires JoinsCounted(waiters, joins - {j}, meta, None)
    requires j in joins && joins[j] == g && Openable(g, meta)
    requires forall key :: Count(RegsAt(waiters, key), j) == Occurrences(g.pendingKeys, key)
    ensures JoinsCounted(waiters, joins, meta, None)
  {
    forall i | i in joins && !joins[i].resolved ensures Counted(waiters, i, joins[i], meta, None) {
      if i != j {
        assert i in joins - {j};
      }
    }
  }
}
