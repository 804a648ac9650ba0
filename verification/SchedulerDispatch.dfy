/** A turn of `pick_next` keeps the invariant, and with the effects every step of a run does. */
module SchedulerDispatch {
  import opened Wrappers
  import opened SchedulerModel
  import opened SchedulerSteps
  import opened SchedulerInvariant
  import opened SchedulerResolving
  import opened SchedulerEffects
  import opened SchedulerPermits
  import opened SchedulerRuns

  // ---- Taking an item out --------------------------------------------------

  lemma TakeItem(items: set<Item>, n: nat, spot: Spots, x: Item)
    requires ItemsPlaced(items, spot) && OrdersDistinct(items, n) && x in items && !x.entry.Placeholder?
    ensures EntryOwner(x.entry) in spot && spot[EntryOwner(x.entry)] == SpotOf(x)
    ensures ItemsPlaced(items - {x}, spot - {EntryOwner(x.entry)}) && OrdersDistinct(items - {x}, n)
  {
    var o := EntryOwner(x.entry);
    var spot' := spot - {o};
    forall p | p in spot' && (spot'[p].Unstarted? || spot'[p].AtReady?) ensures CarriedBy(items - {x}, p, spot'[p]) {
      assert CarriedBy(items, p, spot[p]);
      var y :| y in items && Carries(y.entry, p) && SpotOf(y) == spot[p];
    }
  }

  lemma TakeWaits(waiters: map<Key, seq<Waiter>>, spot: Spots, o: Owner)
    requires WaitsPlaced(waiters, spot) && o in spot && !spot[o].AtWait?
    ensures WaitsPlaced(waiters, spot - {o})
  {
    var spot' := spot - {o};
    forall p | p in spot' && spot'[p].AtWait? ensures WaitingIn(waiters, p, spot'[p].key, spot'[p].cont) {
      assert WaitingIn(waiters, p, spot[p].key, spot[p].cont);
    }
  }

  lemma TakeSound(s: State, items: set<Item>, spot: Spots, cellKey: map<nat, Key>, x: Item)
    requires Sound(s, items, spot, cellKey) && x in items && !x.entry.Placeholder?
    ensures EntryOwner(x.entry) in spot && spot[EntryOwner(x.entry)] == SpotOf(x)
    ensures Sound(s, items - {x}, spot - {EntryOwner(x.entry)}, cellKey)
  {
    TakeItem(items, s.board.nextSeq, spot, x);
    TakeWaits(s.board.waiters, spot, EntryOwner(x.entry));
  }

  lemma DropPlaceholder(s: State, items: set<Item>, spot: Spots, cellKey: map<nat, Key>, x: Item)
    requires Sound(s, items, spot, cellKey) && x.entry.Placeholder?
    ensures Sound(s, items - {x}, spot, cellKey)
  {
    DropPlaceholderItems(items, spot, x);
  }

  lemma DropPlaceholderItems(items: set<Item>, spot: Spots, x: Item)
    requires ItemsPlaced(items, spot) && x.entry.Placeholder?
    ensures ItemsPlaced(items - {x}, spot)
  {
    forall p | p in spot && (spot[p].Unstarted? || spot[p].AtReady?) ensures CarriedBy(items - {x}, p, spot[p]) {
      assert CarriedBy(items, p, spot[p]);
      var y :| y in items && Carries(y.entry, p) && SpotOf(y) == spot[p];
    }
  }

  /** The board's heap is `ready`, whatever it was; the items are what matters. */
  lemma HeapReplaced(s: State, items: set<Item>, spot: Spots, cellKey: map<nat, Key>, ready: set<Item>)
    requires Sound(s, items, spot, cellKey)
    ensures Sound(s.(board := s.board.(ready := ready)), items, spot, cellKey)
  {
  }

  // ---- The three ways a popped entry is dropped ----------------------------

  lemma CancelledFlows(spot: Spots, meta: map<Key, Meta>, o: Owner)
    requires IsCancelled(meta, o)
    ensures Flows(spot, spot - {o}, meta)
  {
  }

  lemma DeadPermitSound(s: State, held: set<Item>, spot: Spots, cellKey: map<nat, Key>, x: Item) returns (spot': Spots)
    requires Sound(s, s.board.ready + held, spot, cellKey)
    requires x in s.board.ready && x !in held && x.entry.Permit? && IsCancelled(s.meta, x.entry.owner)
    requires x.entry.sid in s.sems
    ensures var s' := ReturnPermit(Pop(s, x), x.entry.sid, x.entry.owner);
            Sound(s', s'.board.ready + held, spot', cellKey) && Flows(spot, spot', s.meta)
  {
    var o := x.entry.owner;
    var sid := x.entry.sid;
    var s1 := Pop(s, x);
    var items := s1.board.ready + held;
    assert (s.board.ready + held) - {x} == items;
    TakeSound(s, s.board.ready + held, spot, cellKey, x);
    HeapReplaced(s, items, spot - {o}, cellKey, s1.board.ready);
    CancelledFlows(spot, s.meta, o);
    NoPermitFor(items, spot - {o}, o);
    DropHolderSound(s1, items, spot - {o}, cellKey, sid, o);
    var s2 := DropHolder(s1, sid, o);
    spot' := GrantSound(s2, held, spot - {o}, cellKey, sid);
    var (s3, granted) := Grant(s2, sid);
    if !granted {
      BankSound(s3, s3.board.ready + held, spot', cellKey, sid);
    }
    FlowsTransitive(spot, spot - {o}, spot', s.meta);
  }

  lemma FlowsTransitive(a: Spots, b: Spots, c: Spots, meta: map<Key, Meta>)
    requires Flows(a, b, meta) && Flows(b, c, meta)
    ensures Flows(a, c, meta)
  {
  }

  lemma DeadEntrySound(s: State, held: set<Item>, spot: Spots, cellKey: map<nat, Key>, x: Item)
    requires Sound(s, s.board.ready + held, spot, cellKey)
    requires x in s.board.ready && x !in held && !x.entry.Placeholder? && IsCancelled(s.meta, EntryOwner(x.entry))
    ensures Sound(Pop(s, x), Pop(s, x).board.ready + held, spot - {EntryOwner(x.entry)}, cellKey)
    ensures Flows(spot, spot - {EntryOwner(x.entry)}, s.meta)
  {
    var items := Pop(s, x).board.ready + held;
    assert (s.board.ready + held) - {x} == items;
    TakeSound(s, s.board.ready + held, spot, cellKey, x);
    HeapReplaced(s, items, spot - {EntryOwner(x.entry)}, cellKey, Pop(s, x).board.ready);
    CancelledFlows(spot, s.meta, EntryOwner(x.entry));
  }

  lemma DeadPlaceholderSound(s: State, held: set<Item>, spot: Spots, cellKey: map<nat, Key>, x: Item)
    requires Sound(s, s.board.ready + held, spot, cellKey)
    requires x in s.board.ready && x !in held && x.entry.Placeholder?
    ensures Sound(Pop(s, x), Pop(s, x).board.ready + held, spot, cellKey)
  {
    var items := Pop(s, x).board.ready + held;
    assert (s.board.ready + held) - {x} == items;
    DropPlaceholder(s, s.board.ready + held, spot, cellKey, x);
    HeapReplaced(s, items, spot, cellKey, Pop(s, x).board.ready);
  }

  // ---- Dispatching ---------------------------------------------------------

  lemma StartCounts(waiters: map<Key, seq<Waiter>>, joins: map<nat, Join>, meta: map<Key, Meta>, key: Key, m: Meta)
    requires JoinsCounted(waiters, joins, meta, None) && key in meta
    requires !Terminal(meta[key].status) && !Terminal(m.status)
    ensures JoinsCounted(waiters, joins, meta[key := m], None)
  {
    var meta' := meta[key := m];
    forall j | j in joins && !joins[j].resolved ensures Counted(waiters, j, joins[j], meta', None) {
      assert Counted(waiters, j, joins[j], meta, None);
      SameOutstanding(meta, meta', joins[j].keys);
    }
  }

  lemma {:induction false} SameOutstanding(meta: map<Key, Meta>, meta': map<Key, Meta>, keys: seq<Key>)
    requires forall key :: Terminal(StatusOf(meta, key)) == Terminal(StatusOf(meta', key))
    ensures Outstanding(meta, keys) == Outstanding(meta', keys)
  {
    if keys != [] {
      SameOutstanding(meta, meta', keys[1..]);
    }
  }

  lemma StartSound(s: State, items: set<Item>, spot: Spots, cellKey: map<nat, Key>, tid: nat)
    requires Sound(s, items, spot, cellKey) && Of(tid) !in spot
    requires TaskKey(tid) in s.meta && s.meta[TaskKey(tid)].status.Pending?
    ensures Sound(Start(s, New(tid)), items, spot, cellKey)
  {
    var key := TaskKey(tid);
    StartCounts(s.board.waiters, s.board.joins, s.meta, key, s.meta[key].(status := Running));
    StartRegs(s.board, s.meta, spot, cellKey, tid);
  }

  lemma StartRegs(b: Board, meta: map<Key, Meta>, spot: Spots, cellKey: map<nat, Key>, tid: nat)
    requires KeysPending(b.waiters, meta, None) && CellsUnclaimed(b.waiters, b.claimed, meta, cellKey, b.nextObj)
    requires OwnersKnown(spot, meta) && Of(tid) !in spot
    requires TaskKey(tid) in meta && meta[TaskKey(tid)].status.Pending?
    ensures var meta' := meta[TaskKey(tid) := meta[TaskKey(tid)].(status := Running)];
            KeysPending(b.waiters, meta', None) && CellsUnclaimed(b.waiters, b.claimed, meta', cellKey, b.nextObj)
            && OwnersKnown(spot, meta')
  {
  }

  lemma ChosenSound(s: State, held: set<Item>, spot: Spots, cellKey: map<nat, Key>, x: Item)
    requires Sound(s, s.board.ready + held, spot, cellKey)
    requires x in s.board.ready && x !in held && LiveEntry(s.meta, x.entry)
    ensures var s' := Start(Restore(Pop(s, x), held), x.entry);
            Sound(s', s'.board.ready, spot - {EntryOwner(x.entry)}, cellKey)
    ensures EntryOwner(x.entry) in spot && spot[EntryOwner(x.entry)] == SpotOf(x)
    ensures x.entry.New? ==> TaskKey(x.entry.tid) in s.meta && s.meta[TaskKey(x.entry.tid)].status.Pending?
    ensures !x.entry.New? ==> Started(s.meta, x.entry.owner)
  {
    var o := EntryOwner(x.entry);
    var s1 := Restore(Pop(s, x), held);
    assert (s.board.ready + held) - {x} == s1.board.ready;
    TakeSound(s, s.board.ready + held, spot, cellKey, x);
    HeapReplaced(s, s1.board.ready, spot - {o}, cellKey, s1.board.ready);
    ChosenStarted(spot, s.meta, x);
    if x.entry.New? {
      StartSound(s1, s1.board.ready, spot - {o}, cellKey, x.entry.tid);
    }
  }

  lemma ChosenStarted(spot: Spots, meta: map<Key, Meta>, x: Item)
    requires OwnersKnown(spot, meta) && LiveEntry(meta, x.entry)
    requires EntryOwner(x.entry) in spot && spot[EntryOwner(x.entry)] == SpotOf(x)
    ensures x.entry.New? ==> TaskKey(x.entry.tid) in meta && meta[TaskKey(x.entry.tid)].status.Pending?
    ensures !x.entry.New? ==> Started(meta, x.entry.owner)
  {
  }

  lemma ChosenNobodyLost(spot: Spots, meta: map<Key, Meta>, x: Item)
    requires NobodyLost(spot, meta, None)
    requires x.entry.New? ==> TaskKey(x.entry.tid) in meta && meta[TaskKey(x.entry.tid)].status.Pending?
    requires !x.entry.New? ==> !x.entry.Placeholder? && Started(meta, x.entry.owner)
    ensures var o := EntryOwner(x.entry);
            var key := if x.entry.New? then TaskKey(x.entry.tid) else TaskKey(0);
            var meta' := if x.entry.New? then meta[key := meta[key].(status := Running)] else meta;
            NobodyLost(spot - {o}, meta', Some(o))
  {
  }

  lemma ChosenOneShot(spot: Spots, n: nat, spent: set<nat>, x: Item)
    requires OneShot(spot, n, spent)
    requires !x.entry.Placeholder? && EntryOwner(x.entry) in spot && spot[EntryOwner(x.entry)] == SpotOf(x)
    ensures OneShot(spot - {EntryOwner(x.entry)}, n, spent + EntryConts(x.entry))
  {
    var o := EntryOwner(x.entry);
    forall p | p in spot && p != o && !spot[p].Unstarted? ensures spot[p].cont !in EntryConts(x.entry) {
      assert ContOf(spot[p]) == ContOf(spot[o]) ==> p == o;
    }
  }

  // ---- Blocking ------------------------------------------------------------

  /** A standing placeholder popped while nothing may run past it: `x` is put back, in a new
      place, unless the completions drained have claimed it. */
  lemma RequeueSound(s: State, spot: Spots, cellKey: map<nat, Key>, x: Item)
    requires Sound(s, s.board.ready + {x}, spot, cellKey) && x.entry.Placeholder? && x !in s.board.ready
    ensures Sound(s, s.board.ready, spot, cellKey)
    ensures var s' := s.(board := Enqueue(s.board, x.entry, PRIORITY_EXTERNAL_WAIT));
            Sound(s', s'.board.ready, spot, cellKey)
  {
    assert (s.board.ready + {x}) - {x} == s.board.ready;
    DropPlaceholder(s, s.board.ready + {x}, spot, cellKey, x);
    var y := Item(PRIORITY_EXTERNAL_WAIT, s.board.nextSeq, x.entry);
    ShieldedItems(s.board.ready, s.board.nextSeq, spot, y);
    assert PlaceholdersPaired(s.board.ready + {x}, s.board.waiters, s.board.claimed, s.board.nextObj);
  }

  ghost predicate TurnSound(t: Turn, spot: Spots, cellKey: map<nat, Key>, n: nat, spent: set<nat>) {
    match t
    case Again(s, held, shield) =>
      && Sound(s, s.board.ready + held, spot, cellKey) && NobodyLost(spot, s.meta, None)
      && OneShot(spot, n, spent) && HeldShape(s, held, shield)
    case Chosen(s, e) =>
      && Sound(s, s.board.ready, spot, cellKey) && NobodyLost(spot, s.meta, Some(EntryOwner(e)))
      && OneShot(spot, n, spent + EntryConts(e))
    case Deadlocked(s) => Sound(s, s.board.ready, spot, cellKey) && OneShot(spot, n, spent)
    case NothingLeft(s) => Sound(s, s.board.ready, spot, cellKey) && OneShot(spot, n, spent)
    case Blocking => true
  }

  /** What is known when a turn begins. */
  ghost predicate TurnReady(s: State, held: set<Item>, shield: bool, spot: Spots, cellKey: map<nat, Key>, n: nat,
                            spent: set<nat>) {
    && Sound(s, s.board.ready + held, spot, cellKey) && NobodyLost(spot, s.meta, None)
    && OneShot(spot, n, spent) && HeldShape(s, held, shield)
  }

  lemma PruneWhole(s: State, items: set<Item>, spot: Spots, cellKey: map<nat, Key>, n: nat, spent: set<nat>)
    returns (spot': Spots)
    requires Sound(s, items, spot, cellKey) && NobodyLost(spot, s.meta, None) && OneShot(spot, n, spent)
    ensures Sound(s.(sems := PruneQueues(s.meta, s.sems)), items, spot', cellKey)
    ensures NobodyLost(spot', s.meta, None) && OneShot(spot', n, spent)
  {
    spot' := PruneSound(s, items, spot, cellKey);
    FlowsOneShot(spot, spot', s.meta, n, spent);
    FlowsNobodyLost(spot, spot', s.meta, None);
  }

  lemma BlockSound(s: State, x: Item, spot: Spots, cellKey: map<nat, Key>, n: nat, spent: set<nat>, diagnose: bool)
    returns (spot': Spots)
    requires Sound(s, s.board.ready + {x}, spot, cellKey) && NobodyLost(spot, s.meta, None) && OneShot(spot, n, spent)
    requires x.entry.Placeholder? && x !in s.board.ready
    ensures TurnSound(BlockOnPlaceholder(s, x.entry, {}, false, diagnose), spot', cellKey, n, spent)
  {
    var idle := !HasLive(s.meta, s.board.ready, true);
    var s1, spot1 := s, spot;
    if idle {
      s1 := s.(sems := PruneQueues(s.meta, s.sems));
      spot1 := PruneWhole(s, s.board.ready + {x}, spot, cellKey, n, spent);
    }
    spot' := spot1;
    if diagnose && idle && Doomed(s1.sems) {
      RequeueSound(s1, spot1, cellKey, x);
    } else if s1.queue != [] {
      spot' := BlockDrain(s1, x, spot1, cellKey, n, spent);
    }
  }

  lemma BlockDrain(s: State, x: Item, spot: Spots, cellKey: map<nat, Key>, n: nat, spent: set<nat>)
    returns (spot': Spots)
    requires Sound(s, s.board.ready + {x}, spot, cellKey) && NobodyLost(spot, s.meta, None) && OneShot(spot, n, spent)
    requires x.entry.Placeholder? && x !in s.board.ready
    ensures var s2 := Drain(s);
            TurnSound(Again(s2, {}, false), spot', cellKey, n, spent)
            && TurnSound(Again(s2.(board := Enqueue(s2.board, x.entry, PRIORITY_EXTERNAL_WAIT)), {}, false), spot',
                 cellKey, n, spent)
  {
    var s2 := Drain(s);
    spot' := DrainWhole(s, {x}, spot, cellKey, None);
    MovedOneShot(spot, spot', n, spent);
    if x !in s2.board.ready {
      RequeueSound(s2, spot', cellKey, x);
    } else {
      DrainKeepsOut(s, x);
    }
    var s3 := s2.(board := Enqueue(s2.board, x.entry, PRIORITY_EXTERNAL_WAIT));
    assert s2.board.ready + {} == s2.board.ready;
    assert s3.board.ready + {} == s3.board.ready;
  }

  /** Draining puts only new items into the heap. */
  lemma {:induction false} DrainKeepsOut(s: State, x: Item)
    requires x !in s.board.ready && x.entry.Placeholder?
    ensures x !in Drain(s).board.ready
    decreases |s.queue|
  {
    if s.queue != [] {
      var c := s.queue[0];
      var key := PromiseKey(c.id);
      if StatusOf(s.meta, key).Pending? && key in s.meta {
        var meta := WithStatus(s.meta, key, if c.ok then Completed else Failed, c.value);
        WakeAllAdds(meta, s.board.(waiters := s.board.waiters - {key}), key, RegsAt(s.board.waiters, key));
      }
      DrainKeepsOut(DrainOne(s), x);
    }
  }

  // ---- A turn --------------------------------------------------------------

  lemma SetAside(ready: set<Item>, held: set<Item>, x: Item)
    requires x in ready
    ensures (ready - {x}) + (held + {x}) == ready + held
  {
  }

  lemma StillLive(meta: map<Key, Meta>, ready: set<Item>, x: Item)
    requires HasLive(meta, ready, false) && !(LiveEntry(meta, x.entry) && !IsDaemon(meta, EntryOwner(x.entry)))
    ensures HasLive(meta, ready - {x}, false)
  {
    var y :| y in ready && LiveEntry(meta, y.entry) && !IsDaemon(meta, EntryOwner(y.entry));
    assert y in ready - {x};
  }

  lemma DeadEntryTurn(s: State, x: Item, held: set<Item>, shield: bool, spot: Spots, cellKey: map<nat, Key>, n: nat,
                      spent: set<nat>)
    returns (spot': Spots)
    requires TurnReady(s, held, shield, spot, cellKey, n, spent) && x in s.board.ready
    requires !x.entry.Placeholder? && IsCancelled(s.meta, EntryOwner(x.entry))
    ensures TurnSound(Again(Pop(s, x), held, shield), spot', cellKey, n, spent)
  {
    DeadEntrySound(s, held, spot, cellKey, x);
    spot' := spot - {EntryOwner(x.entry)};
    FlowsOneShot(spot, spot', s.meta, n, spent);
    FlowsNobodyLost(spot, spot', s.meta, None);
    if shield { StillLive(s.meta, s.board.ready, x); }
  }

  lemma SetAsideTurn(s: State, x: Item, held: set<Item>, shield: bool, shield': bool, spot: Spots,
                     cellKey: map<nat, Key>, n: nat, spent: set<nat>)
    requires TurnReady(s, held, shield, spot, cellKey, n, spent) && x in s.board.ready
    requires Standing(s.meta, s.board.claimed, x.entry) || LiveDaemon(s.meta, x.entry)
    requires shield' && HasLive(s.meta, Pop(s, x).board.ready, false)
    ensures TurnSound(Again(Pop(s, x), held + {x}, shield'), spot, cellKey, n, spent)
  {
    SetAside(s.board.ready, held, x);
    HeapReplaced(s, s.board.ready + held, spot, cellKey, Pop(s, x).board.ready);
  }

  lemma DeadPlaceholderTurn(s: State, x: Item, held: set<Item>, shield: bool, spot: Spots, cellKey: map<nat, Key>,
                            n: nat, spent: set<nat>)
    requires TurnReady(s, held, shield, spot, cellKey, n, spent) && x in s.board.ready
    requires x.entry.Placeholder? && !Standing(s.meta, s.board.claimed, x.entry)
    ensures TurnSound(Again(Pop(s, x), held, shield), spot, cellKey, n, spent)
  {
    DeadPlaceholderSound(s, held, spot, cellKey, x);
    if shield { StillLive(s.meta, s.board.ready, x); }
  }

  /** Everything but the returning of a permit in flight, and blocking. */
  lemma PlainTurnSound(s: State, x: Item, held: set<Item>, shield: bool, spot: Spots, cellKey: map<nat, Key>,
                       n: nat, spent: set<nat>, diagnose: bool)
    returns (spot': Spots)
    requires TurnReady(s, held, shield, spot, cellKey, n, spent) && x in s.board.ready
    requires x.entry.Permit? ==> !IsCancelled(s.meta, x.entry.owner)
    requires Standing(s.meta, s.board.claimed, x.entry) ==> HasLive(s.meta, Pop(s, x).board.ready, false)
    ensures TurnSound(PopTurn(s, x, held, shield, diagnose), spot', cellKey, n, spent)
  {
    spot' := spot;
    if shield && LiveDaemon(s.meta, x.entry) {
      StillLive(s.meta, s.board.ready, x);
      SetAsideTurn(s, x, held, shield, true, spot, cellKey, n, spent);
    } else if Standing(s.meta, s.board.claimed, x.entry) {
      SetAsideTurn(s, x, held, shield, true, spot, cellKey, n, spent);
    } else if x.entry.Placeholder? {
      DeadPlaceholderTurn(s, x, held, shield, spot, cellKey, n, spent);
    } else if IsCancelled(s.meta, EntryOwner(x.entry)) {
      spot' := DeadEntryTurn(s, x, held, shield, spot, cellKey, n, spent);
    } else {
      spot' := ChosenTurn(s, x, held, spot, cellKey, n, spent);
    }
  }

  lemma ChosenTurn(s: State, x: Item, held: set<Item>, spot: Spots, cellKey: map<nat, Key>, n: nat, spent: set<nat>)
    returns (spot': Spots)
    requires Sound(s, s.board.ready + held, spot, cellKey) && NobodyLost(spot, s.meta, None) && OneShot(spot, n, spent)
    requires held !! s.board.ready && x in s.board.ready && LiveEntry(s.meta, x.entry)
    ensures TurnSound(Chosen(Start(Restore(Pop(s, x), held), x.entry), x.entry), spot', cellKey, n, spent)
  {
    ChosenSound(s, held, spot, cellKey, x);
    ChosenNobodyLost(spot, s.meta, x);
    ChosenOneShot(spot, n, spent, x);
    spot' := spot - {EntryOwner(x.entry)};
  }

  lemma ReturnKeepsItems(s: State, sid: nat, o: Owner)
    requires sid in s.sems
    ensures s.board.ready <= ReturnPermit(s, sid, o).board.ready
    ensures forall x :: x in ReturnPermit(s, sid, o).board.ready && x !in s.board.ready ==> x.order == s.board.nextSeq
    ensures ReturnPermit(s, sid, o).meta == s.meta && ReturnPermit(s, sid, o).board.claimed == s.board.claimed
  {
  }

  lemma DeadPermitTurn(s: State, x: Item, held: set<Item>, shield: bool, spot: Spots, cellKey: map<nat, Key>, n: nat,
                       spent: set<nat>)
    returns (spot': Spots)
    requires TurnReady(s, held, shield, spot, cellKey, n, spent) && x in s.board.ready
    requires x.entry.Permit? && x.entry.sid in s.sems && IsCancelled(s.meta, x.entry.owner)
    ensures TurnSound(Again(ReturnPermit(Pop(s, x), x.entry.sid, x.entry.owner), held, shield), spot', cellKey,
              n, spent)
  {
    var s1 := Pop(s, x);
    var s2 := ReturnPermit(s1, x.entry.sid, x.entry.owner);
    spot' := DeadPermitSound(s, held, spot, cellKey, x);
    ReturnKeepsItems(s1, x.entry.sid, x.entry.owner);
    FlowsOneShot(spot, spot', s.meta, n, spent);
    FlowsNobodyLost(spot, spot', s.meta, None);
    DeadPermitHeld(s, x, held, shield, s2);
  }

  lemma DeadPermitHeld(s: State, x: Item, held: set<Item>, shield: bool, s2: State)
    requires HeldShape(s, held, shield) && OrdersDistinct(s.board.ready + held, s.board.nextSeq)
    requires !LiveEntry(s.meta, x.entry)
    requires Pop(s, x).board.ready <= s2.board.ready && s2.meta == s.meta && s2.board.claimed == s.board.claimed
    requires forall y :: y in s2.board.ready && y !in Pop(s, x).board.ready ==> y.order == s.board.nextSeq
    ensures HeldShape(s2, held, shield)
  {
    if shield {
      StillLive(s.meta, s.board.ready, x);
      var y :| y in Pop(s, x).board.ready && LiveEntry(s.meta, y.entry) && !IsDaemon(s.meta, EntryOwner(y.entry));
      assert y in s2.board.ready;
    }
  }

  lemma PopTurnSound(s: State, x: Item, held: set<Item>, shield: bool, spot: Spots, cellKey: map<nat, Key>,
                     n: nat, spent: set<nat>, diagnose: bool)
    returns (spot': Spots)
    requires TurnReady(s, held, shield, spot, cellKey, n, spent) && x in s.board.ready
    ensures TurnSound(PopTurn(s, x, held, shield, diagnose), spot', cellKey, n, spent)
  {
    var s1 := Pop(s, x);
    if Standing(s.meta, s.board.claimed, x.entry) && !HasLive(s.meta, s1.board.ready, false) {
      if shield { StillLive(s.meta, s.board.ready, x); }
      assert held == {} && !shield;
      assert s1.board.ready + {x} == s.board.ready + held;
      HeapReplaced(s, s.board.ready + held, spot, cellKey, s1.board.ready);
      spot' := BlockSound(s1, x, spot, cellKey, n, spent, diagnose);
    } else if x.entry.Permit? && IsCancelled(s.meta, x.entry.owner) {
      assert x in s.board.ready + held;
      spot' := DeadPermitTurn(s, x, held, shield, spot, cellKey, n, spent);
    } else {
      spot' := PlainTurnSound(s, x, held, shield, spot, cellKey, n, spent, diagnose);
    }
  }

  lemma EmptyHeapSound(s: State, held: set<Item>, shield: bool, spot: Spots, cellKey: map<nat, Key>, n: nat,
                       spent: set<nat>, diagnose: bool)
    returns (spot': Spots)
    requires TurnReady(s, held, shield, spot, cellKey, n, spent) && s.board.ready == {}
    ensures TurnSound(BlockOnEmptyHeap(s, held, shield, diagnose), spot', cellKey, n, spent)
  {
    assert !shield && held == {};
    assert s.board.ready + held == s.board.ready + {} == s.board.ready;
    var s1 := s.(sems := PruneQueues(s.meta, s.sems));
    var spot1 := PruneWhole(s, s.board.ready, spot, cellKey, n, spent);
    spot' := spot1;
    if BlockOnEmptyHeap(s, held, shield, diagnose).Again? {
      spot' := DrainWhole(s1, {}, spot1, cellKey, None);
      MovedOneShot(spot1, spot', n, spent);
    }
  }

  lemma PickTurnSound(s: State, held: set<Item>, shield: bool, spot: Spots, cellKey: map<nat, Key>, n: nat,
                      spent: set<nat>, diagnose: bool)
    returns (spot': Spots)
    requires TurnReady(s, held, shield, spot, cellKey, n, spent)
    ensures TurnSound(PickTurn(s, held, shield, diagnose), spot', cellKey, n, spent)
  {
    if s.board.ready == {} {
      spot' := EmptyHeapSound(s, held, shield, spot, cellKey, n, spent, diagnose);
    } else {
      spot' := PopTurnSound(s, Least(s.board.ready), held, shield, spot, cellKey, n, spent, diagnose);
    }
  }
}
