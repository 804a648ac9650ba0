/** Semaphore operations keep the invariant, and what they do to permits and holders. */
module SchedulerPermits {
  import opened Wrappers
  import opened SchedulerModel
  import opened SchedulerSteps
  import opened SchedulerInvariant
  import opened SchedulerWaking
  import opened SchedulerEffects

  // ---- Cancelled waiters leave the queues ----------------------------------

  ghost predicate DeadInQueues(gone: set<Owner>, spot: Spots, meta: map<Key, Meta>) {
    forall o :: o in gone ==> o in spot && spot[o].AtSem? && IsCancelled(meta, o)
  }

  lemma DropDead(b: Board, items: set<Item>, meta: map<Key, Meta>, spot: Spots, cellKey: map<nat, Key>,
                 gone: set<Owner>)
    requires BoardSound(b, items, meta, spot, cellKey, None) && OwnersKnown(spot, meta)
    requires DeadInQueues(gone, spot, meta)
    ensures BoardSound(b, items, meta, spot - gone, cellKey, None) && OwnersKnown(spot - gone, meta)
    ensures Flows(spot, spot - gone, meta)
  {
    DropDeadItems(items, spot, gone);
    DropDeadWaits(b.waiters, spot, gone);
  }

  lemma DropDeadItems(items: set<Item>, spot: Spots, gone: set<Owner>)
    requires ItemsPlaced(items, spot)
    requires forall o :: o in gone ==> o in spot && spot[o].AtSem?
    ensures ItemsPlaced(items, spot - gone)
  {
    var spot' := spot - gone;
    forall o | o in spot' && (spot'[o].Unstarted? || spot'[o].AtReady?) ensures CarriedBy(items, o, spot'[o]) {
      assert CarriedBy(items, o, spot[o]);
    }
  }

  lemma DropDeadWaits(waiters: map<Key, seq<Waiter>>, spot: Spots, gone: set<Owner>)
    requires WaitsPlaced(waiters, spot)
    requires forall o :: o in gone ==> o in spot && spot[o].AtSem?
    ensures WaitsPlaced(waiters, spot - gone)
  {
    var spot' := spot - gone;
    forall o | o in spot' && spot'[o].AtWait? ensures WaitingIn(waiters, o, spot'[o].key, spot'[o].cont) {
      assert WaitingIn(waiters, o, spot[o].key, spot[o].cont);
    }
  }

  lemma {:induction false} FromLiveMembers(meta: map<Key, Meta>, q: seq<Parked>)
    requires NoDuplicates(q)
    ensures var r := FromLive(meta, q);
            && NoDuplicates(r) && |r| <= |q|
            && (forall p :: p in r ==> p in q)
            && (forall p :: p in q && p !in r ==> IsCancelled(meta, p.owner))
            && (r != [] ==> !IsCancelled(meta, r[0].owner))
  {
    if q != [] && IsCancelled(meta, q[0].owner) {
      FromLiveMembers(meta, q[1..]);
      assert q == [q[0]] + q[1..];
    }
  }

  lemma {:induction false} LiveQueueMembers(meta: map<Key, Meta>, q: seq<Parked>)
    requires NoDuplicates(q)
    ensures var r := LiveQueue(meta, q);
            NoDuplicates(r) && forall p :: p in r <==> p in q && !IsCancelled(meta, p.owner)
  {
    if q != [] {
      LiveQueueMembers(meta, q[1..]);
      assert q == [q[0]] + q[1..];
      var rest := LiveQueue(meta, q[1..]);
      assert ([q[0]] + rest)[1..] == rest;
    }
  }

  lemma PrunePlaced(sems: map<nat, Sem>, meta: map<Key, Meta>, spot: Spots, gone: set<Owner>)
    requires SemsPlaced(sems, spot)
    requires gone == set o | o in spot && spot[o].AtSem? && IsCancelled(meta, o)
    ensures SemsPlaced(PruneQueues(meta, sems), spot - gone)
  {
    var sems' := PruneQueues(meta, sems);
    var spot' := spot - gone;
    forall sid | sid in sems'
      ensures NoDuplicates(sems'[sid].queue)
      ensures forall p :: p in sems'[sid].queue <==> p in sems[sid].queue && !IsCancelled(meta, p.owner)
    {
      LiveQueueMembers(meta, sems[sid].queue);
    }
  }

  lemma PruneSound(s: State, items: set<Item>, spot: Spots, cellKey: map<nat, Key>) returns (spot': Spots)
    requires Sound(s, items, spot, cellKey)
    ensures Sound(s.(sems := PruneQueues(s.meta, s.sems)), items, spot', cellKey) && Flows(spot, spot', s.meta)
    ensures spot' == map o | o in spot && !(spot[o].AtSem? && IsCancelled(s.meta, o)) :: spot[o]
  {
    var gone := set o | o in spot && spot[o].AtSem? && IsCancelled(s.meta, o);
    spot' := spot - gone;
    DropDead(s.board, items, s.meta, spot, cellKey, gone);
    PrunePlaced(s.sems, s.meta, spot, gone);
    PruneHeld(s.sems, s.meta, items);
  }

  lemma PruneHeld(sems: map<nat, Sem>, meta: map<Key, Meta>, items: set<Item>)
    requires SemsSound(sems) && PermitsHeld(items, sems)
    ensures SemsSound(PruneQueues(meta, sems)) && PermitsHeld(items, PruneQueues(meta, sems))
  {
  }

  // ---- Granting ------------------------------------------------------------

  ghost function DroppedBy(meta: map<Key, Meta>, q: seq<Parked>): set<Owner> {
    set p | p in q && p !in FromLive(meta, q) :: p.owner
  }

  lemma GrantDrops(s: State, items: set<Item>, spot: Spots, cellKey: map<nat, Key>, sid: nat)
    requires Sound(s, items, spot, cellKey) && sid in s.sems
    ensures var gone := DroppedBy(s.meta, s.sems[sid].queue);
            && DeadInQueues(gone, spot, s.meta)
            && Sound(s.(sems := s.sems[sid := s.sems[sid].(queue := FromLive(s.meta, s.sems[sid].queue))]),
                     items, spot - gone, cellKey)
            && Flows(spot, spot - gone, s.meta)
  {
    var q := s.sems[sid].queue;
    var gone := DroppedBy(s.meta, q);
    FromLiveMembers(s.meta, q);
    assert DeadInQueues(gone, spot, s.meta);
    DropDead(s.board, items, s.meta, spot, cellKey, gone);
    GrantDropsPlaced(s.sems, s.meta, spot, sid);
    GrantDropsSound(s.sems, s.meta, items, sid);
  }

  lemma GrantDropsSound(sems: map<nat, Sem>, meta: map<Key, Meta>, items: set<Item>, sid: nat)
    requires sid in sems && SemsSound(sems) && PermitsHeld(items, sems)
    ensures var sems' := sems[sid := sems[sid].(queue := FromLive(meta, sems[sid].queue))];
            SemsSound(sems') && PermitsHeld(items, sems')
  {
  }

  lemma GrantDropsPlaced(sems: map<nat, Sem>, meta: map<Key, Meta>, spot: Spots, sid: nat)
    requires SemsPlaced(sems, spot) && sid in sems
    ensures SemsPlaced(sems[sid := sems[sid].(queue := FromLive(meta, sems[sid].queue))],
                       spot - DroppedBy(meta, sems[sid].queue))
  {
    var q := sems[sid].queue;
    var gone := DroppedBy(meta, q);
    var sems' := sems[sid := sems[sid].(queue := FromLive(meta, q))];
    var spot' := spot - gone;
    FromLiveMembers(meta, q);
    forall i, p | i in sems' && p in sems'[i].queue
      ensures p.owner in spot' && spot'[p.owner] == AtSem(i, p.cont)
    {
      assert p in sems[i].queue;
    }
  }

  lemma HandOver(s: State, held: set<Item>, spot: Spots, cellKey: map<nat, Key>, sid: nat)
    requires Sound(s, s.board.ready + held, spot, cellKey) && sid in s.sems && s.sems[sid].queue != []
    ensures var sem := s.sems[sid]; var w := sem.queue[0];
            var x := Item(TaskPriority(s.meta, w.owner), s.board.nextSeq, Permit(w.owner, w.cont, sid));
            var s' := s.(sems := s.sems[sid := sem.(queue := sem.queue[1..],
                  holders := sem.holders + multiset{w.owner})],
                         board := Enqueue(s.board, x.entry, x.prio));
            && w.owner in spot && spot[w.owner] == AtSem(sid, w.cont)
            && Sound(s', s'.board.ready + held, spot[w.owner := AtReady(s.board.nextSeq, w.cont)], cellKey)
  {
    var sem := s.sems[sid];
    var w := sem.queue[0];
    assert w in sem.queue;
    var x := Item(TaskPriority(s.meta, w.owner), s.board.nextSeq, Permit(w.owner, w.cont, sid));
    var b' := Enqueue(s.board, x.entry, x.prio);
    assert b'.ready + held == (s.board.ready + held) + {x};
    PlaceItem(s.board.ready + held, s.board.nextSeq, spot, x);
    MoveKeepsWaits(s.board.waiters, spot, w.owner, SpotOf(x));
    MoveKeepsJoins(s.board.joins, spot, w.owner, SpotOf(x));
    HandOverSems(s.sems, spot, sid, SpotOf(x));
    HandOverHeld(s.sems, s.board.ready + held, sid, x);
  }

  lemma HandOverSems(sems: map<nat, Sem>, spot: Spots, sid: nat, sp: Spot)
    requires SemsPlaced(sems, spot) && sid in sems && sems[sid].queue != [] && !sp.AtSem?
    ensures var sem := sems[sid]; var w := sem.queue[0];
            SemsPlaced(sems[sid := sem.(queue := sem.queue[1..], holders := sem.holders + multiset{w.owner})],
                  spot[w.owner := sp])
  {
    var sem := sems[sid];
    var w := sem.queue[0];
    var sems' := sems[sid := sem.(queue := sem.queue[1..], holders := sem.holders + multiset{w.owner})];
    var spot' := spot[w.owner := sp];
    assert sem.queue == [w] + sem.queue[1..];
    assert w in sem.queue;
    forall i, p | i in sems' && p in sems'[i].queue ensures p.owner in spot' && spot'[p.owner] == AtSem(i, p.cont) {
      assert p in sems[i].queue;
    }
  }

  lemma HandOverHeld(sems: map<nat, Sem>, items: set<Item>, sid: nat, x: Item)
    requires PermitsHeld(items, sems) && SemsSound(sems) && sid in sems && sems[sid].queue != []
    requires x.entry.Permit? && x.entry.sid == sid && x.entry.owner == sems[sid].queue[0].owner
    ensures var sem := sems[sid];
            var sems' := sems[sid := sem.(queue := sem.queue[1..], holders := sem.holders + multiset{x.entry.owner})];
            PermitsHeld(items + {x}, sems') && SemsSound(sems')
  {
  }

  lemma GrantSound(s: State, held: set<Item>, spot: Spots, cellKey: map<nat, Key>, sid: nat) returns (spot': Spots)
    requires Sound(s, s.board.ready + held, spot, cellKey) && sid in s.sems
    ensures var s' := Grant(s, sid).0;
            Sound(s', s'.board.ready + held, spot', cellKey) && Flows(spot, spot', s.meta)
  {
    var q := FromLive(s.meta, s.sems[sid].queue);
    var gone := DroppedBy(s.meta, s.sems[sid].queue);
    var s1 := s.(sems := s.sems[sid := s.sems[sid].(queue := q)]);
    GrantDrops(s, s.board.ready + held, spot, cellKey, sid);
    if q == [] {
      spot' := spot - gone;
    } else {
      GrantIsHandOver(s, s1, sid);
      HandOver(s1, held, spot - gone, cellKey, sid);
      spot' := (spot - gone)[q[0].owner := AtReady(s.board.nextSeq, q[0].cont)];
      FlowsOn(spot, spot - gone, q[0].owner, AtReady(s.board.nextSeq, q[0].cont), s.meta);
    }
  }

  lemma FlowsOn(spot: Spots, spot1: Spots, o: Owner, sp: Spot, meta: map<Key, Meta>)
    requires Flows(spot, spot1, meta) && o in spot1 && ContOf(spot1[o]) == ContOf(sp)
    ensures Flows(spot, spot1[o := sp], meta)
  {
  }

  lemma GrantIsHandOver(s: State, s1: State, sid: nat)
    requires sid in s.sems && FromLive(s.meta, s.sems[sid].queue) != []
    requires s1 == s.(sems := s.sems[sid := s.sems[sid].(queue := FromLive(s.meta, s.sems[sid].queue))])
    ensures var sem := s1.sems[sid]; var w := sem.queue[0];
            Grant(s, sid).0 ==
              s1.(sems := s1.sems[sid := sem.(queue := sem.queue[1..], holders := sem.holders + multiset{w.owner})],
                  board := Enqueue(s1.board, Permit(w.owner, w.cont, sid), TaskPriority(s1.meta, w.owner)))
  {
    var sem := s1.sems[sid];
    var w := sem.queue[0];
    assert s1.sems[sid := sem.(queue := sem.queue[1..], holders := sem.holders + multiset{w.owner})]
           == Grant(s, sid).0.sems;
  }

  lemma SemsReplaced(s: State, items: set<Item>, spot: Spots, cellKey: map<nat, Key>, sems: map<nat, Sem>)
    requires Sound(s, items, spot, cellKey) && (forall sid :: sid in sems ==> sid < s.nextId)
    requires SemsPlaced(sems, spot) && SemsSound(sems) && PermitsHeld(items, sems)
    ensures Sound(s.(sems := sems), items, spot, cellKey)
  {
  }

  /** Taking one hold of `o` away is harmless when no permit is in flight to `o`. */
  lemma DropHolderSound(s: State, items: set<Item>, spot: Spots, cellKey: map<nat, Key>, sid: nat, o: Owner)
    requires Sound(s, items, spot, cellKey) && sid in s.sems
    requires forall x :: x in items && x.entry.Permit? ==> x.entry.owner != o
    ensures Sound(DropHolder(s, sid, o), items, spot, cellKey)
  {
    DropHolderSems(s.sems, items, spot, sid, o);
    SemsReplaced(s, items, spot, cellKey, DropHolder(s, sid, o).sems);
  }

  lemma DropHolderSems(sems: map<nat, Sem>, items: set<Item>, spot: Spots, sid: nat, o: Owner)
    requires SemsPlaced(sems, spot) && SemsSound(sems) && PermitsHeld(items, sems) && sid in sems
    requires forall x :: x in items && x.entry.Permit? ==> x.entry.owner != o
    ensures var sems' := sems[sid := sems[sid].(holders := sems[sid].holders - multiset{o})];
            SemsPlaced(sems', spot) && SemsSound(sems') && PermitsHeld(items, sems')
  {
  }

  lemma BankSound(s: State, items: set<Item>, spot: Spots, cellKey: map<nat, Key>, sid: nat)
    requires Sound(s, items, spot, cellKey) && sid in s.sems
    requires s.sems[sid].queue == []
    ensures Sound(Bank(s, sid), items, spot, cellKey)
  {
    BankSems(s.sems, items, spot, sid);
    SemsReplaced(s, items, spot, cellKey, Bank(s, sid).sems);
  }

  lemma BankSems(sems: map<nat, Sem>, items: set<Item>, spot: Spots, sid: nat)
    requires SemsPlaced(sems, spot) && SemsSound(sems) && PermitsHeld(items, sems) && sid in sems
    requires sems[sid].queue == []
    ensures var sems' := sems[sid := sems[sid].(permits := sems[sid].permits + 1)];
            SemsPlaced(sems', spot) && SemsSound(sems') && PermitsHeld(items, sems')
  {
  }

  lemma NoPermitFor(items: set<Item>, spot: Spots, o: Owner)
    requires ItemsPlaced(items, spot) && o !in spot
    ensures forall x :: x in items && x.entry.Permit? ==> x.entry.owner != o
  {
  }

  lemma ReleaseSound(s: State, spot: Spots, cellKey: map<nat, Key>, o: Owner, sid: nat) returns (spot': Spots)
    requires Sound(s, s.board.ready, spot, cellKey) && sid in s.sems && o !in spot
    ensures var s' := HandleRelease(s, o, sid).0;
            Sound(s', s'.board.ready, spot', cellKey) && Flows(spot, spot', s.meta)
  {
    var (s1, granted) := Grant(s, sid);
    assert s.board.ready + {} == s.board.ready && s1.board.ready + {} == s1.board.ready;
    spot' := GrantSound(s, {}, spot, cellKey, sid);
    NoPermitFor(s1.board.ready, spot', o);
    DropHolderSound(s1, s1.board.ready, spot', cellKey, sid, o);
    if !granted && s1.sems[sid].permits < s1.sems[sid].maxPermits {
      BankSound(DropHolder(s1, sid, o), s1.board.ready, spot', cellKey, sid);
    }
  }

  lemma AcquireTaken(s: State, spot: Spots, cellKey: map<nat, Key>, o: Owner, k: nat, sid: nat)
    requires Sound(s, s.board.ready, spot, cellKey) && sid in s.sems && s.sems[sid].permits > 0
    ensures Sound(HandleAcquire(s, o, k, sid).0, s.board.ready, spot, cellKey)
  {
    AcquireTakes(s.sems, s.board.ready, spot, sid, o);
    SemsReplaced(s, s.board.ready, spot, cellKey, HandleAcquire(s, o, k, sid).0.sems);
  }

  lemma AcquireParked(s: State, spot: Spots, cellKey: map<nat, Key>, o: Owner, k: nat, sid: nat)
    requires Sound(s, s.board.ready, spot, cellKey) && sid in s.sems && s.sems[sid].permits <= 0
    requires o !in spot && Started(s.meta, o)
    ensures Sound(HandleAcquire(s, o, k, sid).0, s.board.ready, spot[o := AtSem(sid, k)], cellKey)
  {
    AcquireBoard(s.board, s.meta, spot, cellKey, o, AtSem(sid, k));
    AcquireParks(s.sems, s.board.ready, spot, o, k, sid);
  }

  lemma AcquireBoard(b: Board, meta: map<Key, Meta>, spot: Spots, cellKey: map<nat, Key>, o: Owner, sp: Spot)
    requires BoardSound(b, b.ready, meta, spot, cellKey, None) && OwnersKnown(spot, meta) && o !in spot && sp.AtSem?
    requires Started(meta, o)
    ensures BoardSound(b, b.ready, meta, spot[o := sp], cellKey, None) && OwnersKnown(spot[o := sp], meta)
  {
    NewSpotItems(b.ready, spot, o, sp);
    MoveKeepsWaits(b.waiters, spot, o, sp);
    MoveKeepsJoins(b.joins, spot, o, sp);
  }

  lemma AcquireTakes(sems: map<nat, Sem>, items: set<Item>, spot: Spots, sid: nat, o: Owner)
    requires SemsPlaced(sems, spot) && SemsSound(sems) && PermitsHeld(items, sems) && sid in sems
    requires sems[sid].permits > 0
    ensures var sems' := sems[sid := sems[sid].(permits := sems[sid].permits - 1,
              holders := sems[sid].holders + multiset{o})];
            SemsPlaced(sems', spot) && SemsSound(sems') && PermitsHeld(items, sems')
  {
  }

  lemma {:induction false} NoDuplicatesAppend<T>(q: seq<T>, x: T)
    requires NoDuplicates(q) && x !in q
    ensures NoDuplicates(q + [x])
  {
    if q != [] {
      NoDuplicatesAppend(q[1..], x);
      assert (q + [x])[1..] == q[1..] + [x];
    }
  }

  lemma AcquireParks(sems: map<nat, Sem>, items: set<Item>, spot: Spots, o: Owner, k: nat, sid: nat)
    requires SemsPlaced(sems, spot) && SemsSound(sems) && PermitsHeld(items, sems)
    requires sid in sems && o !in spot && sems[sid].permits <= 0
    ensures var sems' := sems[sid := sems[sid].(queue := sems[sid].queue + [Parked(o, k)])];
            SemsPlaced(sems', spot[o := AtSem(sid, k)]) && SemsSound(sems') && PermitsHeld(items, sems')
  {
    NoDuplicatesAppend(sems[sid].queue, Parked(o, k));
  }
}
