/** Resolving a waitable and draining external completions keep the invariant; what waking
    puts into the heap, and in which order against the completer. */
module SchedulerResolving {
  import opened Wrappers
  import opened SchedulerModel
  import opened SchedulerSteps
  import opened SchedulerInvariant
  import opened SchedulerWaking

  // ---- What waking queues --------------------------------------------------

  ghost predicate Delivers(x: Item) { x.entry.Resume? || x.entry.Raise? }

  /** `b'` has all of `b`'s items and, beyond them, only deliveries at `least` or above. */
  ghost predicate Adds(b: Board, b': Board, least: Option<int>) {
    && b.ready <= b'.ready && b.nextSeq <= b'.nextSeq && b'.nextObj == b.nextObj
    && forall x :: x in b'.ready && x !in b.ready ==>
         Delivers(x) && b.nextSeq <= x.order < b'.nextSeq && least.Some? && least.value <= x.prio
  }

  ghost predicate Attained(b: Board, b': Board, least: Option<int>) {
    least.Some? ==> exists x :: x in b'.ready && x !in b.ready && x.prio == least.value
  }

  /** As `Adds`, and `least` is the priority of something added. */
  ghost predicate AddsFrom(b: Board, b': Board, least: Option<int>) {
    Adds(b, b', least)
    && (OrdersDistinct(b.ready, b.nextSeq) ==> OrdersDistinct(b'.ready, b'.nextSeq) && Attained(b, b', least))
  }

  lemma EnqueueAdds(b: Board, e: Entry, prio: int)
    requires e.Resume? || e.Raise?
    ensures AddsFrom(b, Enqueue(b, e, prio), Some(prio))
  {
    assert Item(prio, b.nextSeq, e) in Enqueue(b, e, prio).ready;
  }

  lemma WakeJoinAdds(meta: map<Key, Meta>, b: Board, j: nat, key: Key)
    ensures AddsFrom(b, WakeJoin(meta, b, j, key).0, WakeJoin(meta, b, j, key).1)
  {
    if j in b.joins && !b.joins[j].resolved && Terminal(StatusOf(meta, key)) {
      var g := b.joins[j];
      var e := Delivery(StatusOf(meta, key), ResultOf(meta, key), g.owner, g.cont);
      EnqueueAdds(b, e, TaskPriority(meta, g.owner));
      EnqueueAdds(b, Resume(g.owner, g.cont, Many(Results(meta, g.keys))), TaskPriority(meta, g.owner));
    }
  }

  lemma WakeOneAdds(meta: map<Key, Meta>, b: Board, key: Key, w: Waiter)
    ensures AddsFrom(b, WakeOne(meta, b, key, w).0, WakeOne(meta, b, key, w).1)
  {
    if w.Joined? {
      WakeJoinAdds(meta, Claim(b, w.cell), w.join, key);
    } else if Terminal(StatusOf(meta, key)) {
      EnqueueAdds(b, Delivery(StatusOf(meta, key), ResultOf(meta, key), w.owner, w.cont),
                  if w.wake.Some? then w.wake.value else TaskPriority(meta, w.owner));
    }
  }

  lemma AddsTransitive(a: Board, b: Board, c: Board, p: Option<int>, q: Option<int>)
    requires AddsFrom(a, b, p) && AddsFrom(b, c, q)
    ensures AddsFrom(a, c, MinPriority(p, q))
  {
    if OrdersDistinct(a.ready, a.nextSeq) {
      if p.Some? {
        var x :| x in b.ready && x !in a.ready && x.prio == p.value;
        assert x in c.ready;
      }
      if q.Some? {
        var y :| y in c.ready && y !in b.ready && y.prio == q.value;
        assert y !in a.ready;
      }
    }
  }

  lemma {:induction false} WakeAllAdds(meta: map<Key, Meta>, b: Board, key: Key, ws: seq<Waiter>)
    ensures AddsFrom(b, WakeAll(meta, b, key, ws).0, WakeAll(meta, b, key, ws).1)
    decreases |ws|
  {
    if ws != [] {
      var (b1, p1) := WakeOne(meta, b, key, ws[0]);
      WakeOneAdds(meta, b, key, ws[0]);
      WakeAllAdds(meta, b1, key, ws[1..]);
      var (b2, p2) := WakeAll(meta, b1, key, ws[1..]);
      AddsTransitive(b, b1, b2, p1, p2);
    }
  }

  // ---- The status change ---------------------------------------------------

  lemma {:induction false} OutstandingDrops(meta: map<Key, Meta>, key: Key, st: Status, v: Value, keys: seq<Key>)
    requires key in meta && !Terminal(meta[key].status) && Terminal(st)
    ensures Outstanding(WithStatus(meta, key, st, v), keys) + Occurrences(keys, key) == Outstanding(meta, keys)
  {
    if keys != [] {
      OutstandingDrops(meta, key, st, v, keys[1..]);
    }
  }

  lemma CountsAtTerminal(waiters: map<Key, seq<Waiter>>, joins: map<nat, Join>, meta: map<Key, Meta>,
                         key: Key, st: Status, v: Value)
    requires JoinsCounted(waiters, joins, meta, None)
    requires key in meta && !Terminal(meta[key].status) && Terminal(st)
    ensures JoinsCounted(waiters, joins, WithStatus(meta, key, st, v), Some(key))
  {
    var meta' := WithStatus(meta, key, st, v);
    forall j | j in joins && !joins[j].resolved ensures Counted(waiters, j, joins[j], meta', Some(key)) {
      assert Counted(waiters, j, joins[j], meta, None);
      OutstandingDrops(meta, key, st, v, joins[j].keys);
      OccurrencesPositive(joins[j].keys, key);
    }
  }

  lemma BoardAtTerminal(b: Board, items: set<Item>, meta: map<Key, Meta>, spot: Spots, cellKey: map<nat, Key>,
                        key: Key, st: Status, v: Value)
    requires BoardSound(b, items, meta, spot, cellKey, None)
    requires key in meta && !Terminal(meta[key].status) && Terminal(st)
    ensures BoardSound(b, items, WithStatus(meta, key, st, v), spot, cellKey, Some(key))
  {
    CountsAtTerminal(b.waiters, b.joins, meta, key, st, v);
    RegsAtTerminal(b.waiters, b.joins, b.claimed, b.nextObj, meta, cellKey, key, st, v);
  }

  lemma RegsAtTerminal(waiters: map<Key, seq<Waiter>>, joins: map<nat, Join>, claimed: set<nat>, n: nat,
                       meta: map<Key, Meta>, cellKey: map<nat, Key>, key: Key, st: Status, v: Value)
    requires KeysPending(waiters, meta, None) && RegsKnown(waiters, joins, None, n)
    requires CellsUnclaimed(waiters, claimed, meta, cellKey, n)
    requires key in meta && !Terminal(meta[key].status) && Terminal(st)
    ensures var meta' := WithStatus(meta, key, st, v);
            KeysPending(waiters, meta', Some(key)) && RegsKnown(waiters, joins, Some(key), n)
            && CellsUnclaimed(waiters, claimed, meta', cellKey, n)
  {
  }

  lemma WakeSound(b: Board, held: set<Item>, meta: map<Key, Meta>, spot: Spots, cellKey: map<nat, Key>, key: Key)
    returns (spot': Spots)
    requires BoardSound(b, b.ready + held, meta, spot, cellKey, Some(key))
    ensures var b' := Wake(meta, b, key).0;
            Moved(spot, spot') && BoardSound(b', b'.ready + held, meta, spot', cellKey, None)
  {
    var b1 := b.(waiters := b.waiters - {key});
    var ws := RegsAt(b.waiters, key);
    assert Listed(b1.waiters, key, ws) == b.waiters by {
      assert key in b.waiters ==> b.waiters[key] != [];
    }
    assert OnBoard(b1, key, ws) == b;
    spot' := WakeAllSound(b1, held, meta, spot, cellKey, key, ws);
  }

  lemma MovedSems(sems: map<nat, Sem>, spot: Spots, spot': Spots)
    requires SemsPlaced(sems, spot) && Moved(spot, spot')
    ensures SemsPlaced(sems, spot')
  {
  }

  lemma MovedOwners(spot: Spots, spot': Spots, meta: map<Key, Meta>)
    requires OwnersKnown(spot, meta) && Moved(spot, spot')
    ensures OwnersKnown(spot', meta)
  {
  }

  lemma MovedOneShot(spot: Spots, spot': Spots, nextCont: nat, spent: set<nat>)
    requires OneShot(spot, nextCont, spent) && Moved(spot, spot')
    ensures OneShot(spot', nextCont, spent)
  {
    forall o, p | o in spot' && p in spot' && !spot'[o].Unstarted? && ContOf(spot'[o]) == ContOf(spot'[p])
      ensures o == p
    {
      assert ContOf(spot[o]) == ContOf(spot'[o]) && ContOf(spot[p]) == ContOf(spot'[p]);
    }
  }

  lemma MovedNobodyLost(spot: Spots, spot': Spots, meta: map<Key, Meta>, running: Option<Owner>)
    requires NobodyLost(spot, meta, running) && Moved(spot, spot')
    ensures NobodyLost(spot', meta, running)
  {
  }

  lemma OwnersAtTerminal(spot: Spots, meta: map<Key, Meta>, key: Key, st: Status, v: Value)
    requires OwnersKnown(spot, meta) && key in meta
    requires st.Cancelled? || key.PromiseKey? || Of(key.id) !in spot
    ensures OwnersKnown(spot, WithStatus(meta, key, st, v))
  {
  }

  lemma ResolveSound(s: State, held: set<Item>, spot: Spots, cellKey: map<nat, Key>, key: Key, st: Status, v: Value)
    returns (spot': Spots)
    requires Sound(s, s.board.ready + held, spot, cellKey)
    requires key in s.meta && !Terminal(s.meta[key].status) && Terminal(st)
    requires st.Cancelled? || key.PromiseKey? || Of(key.id) !in spot
    ensures var s' := Resolve(s, key, st, v).0;
            Moved(spot, spot') && Sound(s', s'.board.ready + held, spot', cellKey)
  {
    var meta := WithStatus(s.meta, key, st, v);
    var b' := Wake(meta, s.board, key).0;
    BoardAtTerminal(s.board, s.board.ready + held, s.meta, spot, cellKey, key, st, v);
    spot' := WakeSound(s.board, held, meta, spot, cellKey, key);
    WakeAllAdds(meta, s.board.(waiters := s.board.waiters - {key}), key, RegsAt(s.board.waiters, key));
    DeliveriesArePermitFree(s.board, b', held, s.sems);
    MovedSems(s.sems, spot, spot');
    OwnersAtTerminal(spot, s.meta, key, st, v);
    MovedOwners(spot, spot', meta);
  }

  lemma DeliveriesArePermitFree(b: Board, b': Board, held: set<Item>, sems: map<nat, Sem>)
    requires PermitsHeld(b.ready + held, sems)
    requires forall x :: x in b'.ready && x !in b.ready ==> Delivers(x)
    ensures PermitsHeld(b'.ready + held, sems)
  {
    forall x | x in b'.ready + held && x.entry.Permit?
      ensures x.entry.sid in sems && x.entry.owner in sems[x.entry.sid].holders
    {
      assert x in b.ready + held;
    }
  }

  lemma DrainOneSound(s: State, held: set<Item>, spot: Spots, cellKey: map<nat, Key>) returns (spot': Spots)
    requires Sound(s, s.board.ready + held, spot, cellKey) && s.queue != []
    ensures var s' := DrainOne(s);
            Moved(spot, spot') && Sound(s', s'.board.ready + held, spot', cellKey)
  {
    var c := s.queue[0];
    var key := PromiseKey(c.id);
    if StatusOf(s.meta, key).Pending? && key in s.meta {
      spot' := ResolveSound(s.(queue := s.queue[1..]), held, spot, cellKey, key, if c.ok then Completed else Failed,
                            c.value);
    } else {
      spot' := spot;
    }
  }

  // ---- The order in which waiters and completer run ------------------------

  /** After `CompletePromise` or `FailPromise` everything the resolution queued runs before
      the completer, whatever wake priorities were asked for. */
  lemma CompleterRunsLast(s: State, o: Owner, k: nat, key: Key, st: Status, v: Value, x: Item)
    requires key in s.meta && !s.meta[key].external && s.meta[key].status == Pending
    requires OrdersDistinct(s.board.ready, s.board.nextSeq)
    ensures var s' := HandleSettle(s, o, k, key, st, v).0;
            var own := Item(CompleterPriority(s'.meta, o, Resolve(s, key, st, v).1), s'.board.nextSeq - 1,
                            Resume(o, k, Nothing));
            && own in s'.board.ready && own !in s.board.ready
            && OrdersDistinct(s'.board.ready, s'.board.nextSeq)
            && (x in s'.board.ready && x !in s.board.ready && x != own ==> Delivers(x) && Before(x, own))
            && own.prio <= TaskPriority(s'.meta, o)
            && (own.prio < TaskPriority(s'.meta, o) ==>
                  exists y :: y in s'.board.ready && y !in s.board.ready && y != own && y.prio == own.prio)
  {
    var meta := WithStatus(s.meta, key, st, v);
    var b1 := s.board.(waiters := s.board.waiters - {key});
    WakeAllAdds(meta, b1, key, RegsAt(s.board.waiters, key));
  }
}
