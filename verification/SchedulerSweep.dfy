/** Creating, registering and sweeping waitables keep the invariant: the sweep deletes only
    entries nothing reads again, and no entry a live handle refers to. */
module SchedulerSweep {
  import opened Wrappers
  import opened SchedulerModel
  import opened SchedulerInvariant
  import opened SchedulerWaking

  // ---- The sweep -----------------------------------------------------------

  lemma {:induction false} SomeOutstanding(meta: map<Key, Meta>, keys: seq<Key>) returns (key: Key)
    requires Outstanding(meta, keys) > 0
    ensures key in keys && !Terminal(StatusOf(meta, key))
  {
    if Terminal(StatusOf(meta, keys[0])) {
      key := SomeOutstanding(meta, keys[1..]);
    } else {
      key := keys[0];
    }
  }

  /** Every key of an unresolved gather or race is protected from the sweep, the ones that
      are already terminal included. */
  lemma JoinKeysProtected(b: Board, meta: map<Key, Meta>, j: nat, key: Key)
    requires JoinsCounted(b.waiters, b.joins, meta, None)
    requires j in b.joins && !b.joins[j].resolved && key in b.joins[j].keys
    ensures Protected(b, key)
  {
    var g := b.joins[j];
    assert Counted(b.waiters, j, g, meta, None);
    var at := SomeOutstanding(meta, g.keys);
    OccurrencesPositive(g.keys, at);
    CountPositive(RegsAt(b.waiters, at), j);
    var w :| w in RegsAt(b.waiters, at) && OfJoin(w, j);
    assert w in b.waiters[at];
  }

  lemma {:induction false} OutstandingAgrees(meta: map<Key, Meta>, meta': map<Key, Meta>, keys: seq<Key>)
    requires forall key :: key in keys ==> StatusOf(meta, key) == StatusOf(meta', key)
    ensures Outstanding(meta, keys) == Outstanding(meta', keys)
  {
    if keys != [] {
      OutstandingAgrees(meta, meta', keys[1..]);
    }
  }

  lemma SweptCounts(s: State, live: set<nat>)
    requires JoinsCounted(s.board.waiters, s.board.joins, s.meta, None)
    ensures JoinsCounted(s.board.waiters, s.board.joins, Sweep(s, live).meta, None)
  {
    var meta' := Sweep(s, live).meta;
    forall j | j in s.board.joins && !s.board.joins[j].resolved
      ensures Counted(s.board.waiters, j, s.board.joins[j], meta', None)
    {
      var g := s.board.joins[j];
      assert Counted(s.board.waiters, j, g, s.meta, None);
      forall key | key in g.keys ensures key in meta' && meta'[key] == s.meta[key] {
        JoinKeysProtected(s.board, s.meta, j, key);
      }
      OutstandingAgrees(s.meta, meta', g.keys);
    }
  }

  lemma SweptRegs(s: State, live: set<nat>, cellKey: map<nat, Key>)
    requires KeysPending(s.board.waiters, s.meta, None)
    requires CellsUnclaimed(s.board.waiters, s.board.claimed, s.meta, cellKey, s.board.nextObj)
    ensures KeysPending(s.board.waiters, Sweep(s, live).meta, None)
    ensures CellsUnclaimed(s.board.waiters, s.board.claimed, Sweep(s, live).meta, cellKey, s.board.nextObj)
  {
  }

  lemma SweptIds(s: State, live: set<nat>, spot: Spots)
    requires OwnersKnown(spot, s.meta) && IdsFresh(s.meta, s.sems, s.refs, s.nextId)
    ensures var s' := Sweep(s, live); OwnersKnown(spot, s'.meta) && IdsFresh(s'.meta, s'.sems, s'.refs, s'.nextId)
  {
  }

  lemma SweepSound(s: State, spot: Spots, cellKey: map<nat, Key>, live: set<nat>)
    requires Sound(s, s.board.ready, spot, cellKey)
    ensures Sound(Sweep(s, live), s.board.ready, spot, cellKey)
  {
    SweptCounts(s, live);
    SweptRegs(s, live, cellKey);
    SweptIds(s, live, spot);
  }

  lemma FreshIdSound(s: State, spot: Spots, cellKey: map<nat, Key>, live: set<nat>)
    requires Sound(s, s.board.ready, spot, cellKey)
    ensures Sound(FreshId(s, live), s.board.ready, spot, cellKey)
  {
    SweepSound(s.(nextId := s.nextId + 1), spot, cellKey, live);
  }

  lemma FreshIdNobodyLost(s: State, live: set<nat>, spot: Spots, running: Option<Owner>)
    requires NobodyLost(spot, s.meta, running)
    ensures NobodyLost(spot, FreshId(s, live).meta, running)
  {
  }

  /** A waitable with a live handle survives the sweep. */
  lemma FreshIdHandles(s: State, handles: map<nat, Key>)
    requires HandlesRegistered(s.refs, handles)
    ensures HandlesRegistered(FreshId(s, handles.Keys).refs, handles)
  {
  }

  // ---- New waitables and handles -------------------------------------------

  lemma NewMetaCounts(waiters: map<Key, seq<Waiter>>, joins: map<nat, Join>, meta: map<Key, Meta>, key: Key, m: Meta)
    requires JoinsCounted(waiters, joins, meta, None) && KeysPending(waiters, meta, None) && key !in meta
    ensures JoinsCounted(waiters, joins, meta[key := m], None)
  {
    var meta' := meta[key := m];
    forall j | j in joins && !joins[j].resolved ensures Counted(waiters, j, joins[j], meta', None) {
      assert Counted(waiters, j, joins[j], meta, None);
      assert key !in joins[j].keys;
      OccurrencesPositive(joins[j].keys, key);
      OutstandingAgrees(meta, meta', joins[j].keys);
    }
  }

  lemma NewMetaSound(s: State, items: set<Item>, spot: Spots, cellKey: map<nat, Key>, key: Key, m: Meta)
    requires Sound(s, items, spot, cellKey)
    requires key !in s.meta && key.id < s.nextId && (key.TaskKey? ==> Of(key.id) !in spot)
    ensures Sound(s.(meta := s.meta[key := m]), items, spot, cellKey)
  {
    NewMetaCounts(s.board.waiters, s.board.joins, s.meta, key, m);
    NewMetaRegs(s.board, s.meta, spot, cellKey, key, m);
  }

  lemma NewMetaRegs(b: Board, meta: map<Key, Meta>, spot: Spots, cellKey: map<nat, Key>, key: Key, m: Meta)
    requires KeysPending(b.waiters, meta, None) && CellsUnclaimed(b.waiters, b.claimed, meta, cellKey, b.nextObj)
    requires OwnersKnown(spot, meta) && key !in meta
    ensures KeysPending(b.waiters, meta[key := m], None)
    ensures CellsUnclaimed(b.waiters, b.claimed, meta[key := m], cellKey, b.nextObj)
    ensures OwnersKnown(spot, meta[key := m])
  {
  }

  lemma {:induction false} LiveRefsKept(refs: seq<nat>, live: set<nat>)
    ensures forall h :: h in LiveRefs(refs, live) <==> h in refs && h in live
  {
    if refs != [] {
      LiveRefsKept(refs[1..], live);
      assert refs == [refs[0]] + refs[1..];
    }
  }

  lemma RegisterHandles(s: State, key: Key, h: nat, handles: map<nat, Key>)
    requires HandlesRegistered(s.refs, handles)
    ensures HandlesRegistered(Register(s, key, h, handles.Keys).refs, handles[h := key])
  {
    if key in s.refs {
      LiveRefsKept(s.refs[key], handles.Keys);
    }
  }

  lemma RegisterSound(s: State, items: set<Item>, spot: Spots, cellKey: map<nat, Key>, key: Key, h: nat, live: set<nat>)
    requires Sound(s, items, spot, cellKey) && key in s.meta
    ensures Sound(Register(s, key, h, live), items, spot, cellKey)
  {
  }

  /** Queueing the continuation of an owner that is kept nowhere else. */
  lemma QueueSound(s: State, spot: Spots, cellKey: map<nat, Key>, e: Entry, prio: int)
    requires Sound(s, s.board.ready, spot, cellKey)
    requires !e.Placeholder? && !e.Permit? && EntryOwner(e) !in spot
    requires e.New? ==> TaskKey(e.tid) in s.meta && s.meta[TaskKey(e.tid)].status.Pending?
    requires !e.New? ==> Started(s.meta, e.owner)
    ensures var s' := s.(board := Enqueue(s.board, e, prio));
            Sound(s', s'.board.ready, spot[EntryOwner(e) := SpotOf(Item(prio, s.board.nextSeq, e))], cellKey)
  {
    var x := Item(prio, s.board.nextSeq, e);
    QueueBoard(s.board, s.meta, spot, cellKey, x);
    QueueSems(s.sems, s.board.ready, spot, x);
  }

  lemma QueueBoard(b: Board, meta: map<Key, Meta>, spot: Spots, cellKey: map<nat, Key>, x: Item)
    requires BoardSound(b, b.ready, meta, spot, cellKey, None)
    requires !x.entry.Placeholder? && EntryOwner(x.entry) !in spot && x.order == b.nextSeq
    ensures var b' := Enqueue(b, x.entry, x.prio);
            BoardSound(b', b'.ready, meta, spot[EntryOwner(x.entry) := SpotOf(x)], cellKey, None)
  {
    PlaceItem(b.ready, b.nextSeq, spot, x);
    MoveKeepsWaits(b.waiters, spot, EntryOwner(x.entry), SpotOf(x));
    MoveKeepsJoins(b.joins, spot, EntryOwner(x.entry), SpotOf(x));
  }

  lemma QueueSems(sems: map<nat, Sem>, items: set<Item>, spot: Spots, x: Item)
    requires SemsPlaced(sems, spot) && PermitsHeld(items, sems)
    requires !x.entry.Placeholder? && !x.entry.Permit? && EntryOwner(x.entry) !in spot
    ensures SemsPlaced(sems, spot[EntryOwner(x.entry) := SpotOf(x)]) && PermitsHeld(items + {x}, sems)
  {
  }
}
