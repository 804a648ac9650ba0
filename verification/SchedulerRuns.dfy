/** The invariant holds after every step of every run. */
module SchedulerRuns {
  import opened Wrappers
  import opened SchedulerModel
  import opened SchedulerSteps
  import opened SchedulerInvariant
  import opened SchedulerWaking
  import opened SchedulerResolving
  import opened SchedulerEffects
  import opened SchedulerPermits
  import opened SchedulerSweep

  /** The placeholders and daemon entries `pick_next` holds out of the heap are held because
      live non-daemon work is in it. */
  ghost predicate HeldShape(s: State, held: set<Item>, shield: bool) {
    && held !! s.board.ready
    && (held != {} ==> shield)
    && (shield ==> HasLive(s.meta, s.board.ready, false))
    && forall x :: x in held ==> Standing(s.meta, s.board.claimed, x.entry) || LiveDaemon(s.meta, x.entry)
  }

  function HeldItems(y: System): set<Item> {
    if y.phase.Picking? then y.phase.held else {}
  }

  ghost predicate PhaseSound(y: System, spot: Spots) {
    match y.phase
    case Executing(o) => NobodyLost(spot, y.s.meta, Some(o))
    case Entering => NobodyLost(spot, y.s.meta, None)
    case Picking(held, shield) => NobodyLost(spot, y.s.meta, None) && HeldShape(y.s, held, shield)
    case _ => true
  }

  ghost predicate Inv(y: System, spot: Spots, cellKey: map<nat, Key>) {
    && Sound(y.s, y.s.board.ready + HeldItems(y), spot, cellKey)
    && OneShot(spot, y.nextCont, y.spent)
    && HandlesRegistered(y.s.refs, y.handles)
    && PhaseSound(y, spot)
  }

  // ---- Draining ------------------------------------------------------------

  lemma DrainOneLeaves(s: State)
    requires s.queue != []
    ensures var s' := DrainOne(s);
            s'.sems == s.sems && s'.refs == s.refs && s'.nextId == s.nextId && s'.meta.Keys == s.meta.Keys
  {
  }

  lemma DrainOneNobodyLost(s: State, spot: Spots, running: Option<Owner>)
    requires NobodyLost(spot, s.meta, running) && s.queue != []
    ensures NobodyLost(spot, DrainOne(s).meta, running)
  {
    var c := s.queue[0];
    var key := PromiseKey(c.id);
    if StatusOf(s.meta, key).Pending? && key in s.meta {
      ResolvedNobodyLost(spot, s.meta, key, if c.ok then Completed else Failed, c.value, running);
    }
  }

  lemma DrainOneWhole(s: State, held: set<Item>, spot: Spots, cellKey: map<nat, Key>, running: Option<Owner>)
    returns (spot': Spots)
    requires Sound(s, s.board.ready + held, spot, cellKey) && NobodyLost(spot, s.meta, running) && s.queue != []
    ensures var s' := DrainOne(s);
            && Moved(spot, spot') && Sound(s', s'.board.ready + held, spot', cellKey)
            && NobodyLost(spot', s'.meta, running)
            && s'.sems == s.sems && s'.refs == s.refs && s'.nextId == s.nextId && s'.meta.Keys == s.meta.Keys
  {
    spot' := DrainOneSound(s, held, spot, cellKey);
    DrainOneLeaves(s);
    DrainOneNobodyLost(s, spot, running);
    MovedNobodyLost(spot, spot', DrainOne(s).meta, running);
  }

  lemma {:induction false} DrainWhole(s: State, held: set<Item>, spot: Spots, cellKey: map<nat, Key>,
                                      running: Option<Owner>)
    returns (spot': Spots)
    requires Sound(s, s.board.ready + held, spot, cellKey) && NobodyLost(spot, s.meta, running)
    ensures var s' := Drain(s);
            && Moved(spot, spot') && Sound(s', s'.board.ready + held, spot', cellKey)
            && NobodyLost(spot', s'.meta, running)
            && s'.sems == s.sems && s'.refs == s.refs && s'.nextId == s.nextId && s'.meta.Keys == s.meta.Keys
    decreases |s.queue|
  {
    if s.queue == [] {
      spot' := spot;
    } else {
      var spot1 := DrainOneWhole(s, held, spot, cellKey, running);
      spot' := DrainWhole(DrainOne(s), held, spot1, cellKey, running);
      MovedTransitive(spot, spot1, spot');
    }
  }

  // ---- Effects -------------------------------------------------------------

  /** The state in which the branches of `handle_scheduler_effect` are reached, performed by
      `o` whose captured continuation is `k`. */
  ghost predicate Entered(s: State, spot: Spots, cellKey: map<nat, Key>, o: Owner, k: nat, spent: set<nat>) {
    && Sound(s, s.board.ready, spot, cellKey)
    && NobodyLost(spot, s.meta, Some(o))
    && OneShot(spot, k, spent)
  }

  /** The state they leave behind. */
  ghost predicate Left(r: (State, Reply), spot: Spots, cellKey: map<nat, Key>, o: Owner, k: nat, spent: set<nat>) {
    && Sound(r.0, r.0.board.ready, spot, cellKey)
    && NobodyLost(spot, r.0.meta, if r.1.Suspended? then None else Some(o))
    && OneShot(spot, k + 1, if r.1.Suspended? then spent else spent + {k})
  }

  lemma KeptOneShot(spot: Spots, k: nat, spent: set<nat>)
    requires OneShot(spot, k, spent)
    ensures OneShot(spot, k + 1, spent) && OneShot(spot, k + 1, spent + {k})
  {
  }

  lemma ParkedOneShot(spot: Spots, k: nat, spent: set<nat>, o: Owner, sp: Spot)
    requires OneShot(spot, k, spent) && o !in spot && ContOf(sp) == Some(k)
    ensures OneShot(spot[o := sp], k + 1, spent)
  {
  }

  lemma ParkedOwners(spot: Spots, meta: map<Key, Meta>, o: Owner, sp: Spot)
    requires OwnersKnown(spot, meta) && Started(meta, o) && !sp.Unstarted?
    ensures OwnersKnown(spot[o := sp], meta)
  {
  }

  lemma ParkedNobodyLost(spot: Spots, meta: map<Key, Meta>, o: Owner, sp: Spot)
    requires NobodyLost(spot, meta, Some(o))
    ensures NobodyLost(spot[o := sp], meta, None)
  {
  }

  lemma ParkedElsewhere(sems: map<nat, Sem>, spot: Spots, o: Owner, sp: Spot)
    requires SemsPlaced(sems, spot) && o !in spot && !sp.AtSem?
    ensures SemsPlaced(sems, spot[o := sp])
  {
  }

  lemma MorePlaceholders(b: Board, b': Board, sems: map<nat, Sem>)
    requires PermitsHeld(b.ready, sems)
    requires forall x :: x in b'.ready && x !in b.ready ==> x.entry.Placeholder?
    ensures PermitsHeld(b'.ready, sems)
  {
  }

  lemma {:induction false} RegisterAllItems(meta: map<Key, Meta>, b: Board, j: nat, o: Owner, keys: seq<Key>)
    ensures var b' := RegisterAll(meta, b, j, o, keys);
            forall x :: x in b'.ready && x !in b.ready ==> x.entry.Placeholder?
    decreases |keys|
  {
    if keys != [] {
      RegisterAllItems(meta, RegisterJoined(meta, b, j, o, keys[0]), j, o, keys[1..]);
    }
  }

  /** The performer is parked at `sp` and the board is `b'`. */
  lemma Park(s: State, b': Board, spot: Spots, cellKey: map<nat, Key>, cellKey': map<nat, Key>, o: Owner, k: nat,
             spent: set<nat>, sp: Spot)
    requires Entered(s, spot, cellKey, o, k, spent) && ContOf(sp) == Some(k) && !sp.AtSem?
    requires BoardSound(b', b'.ready, s.meta, spot[o := sp], cellKey', None)
    requires forall x :: x in b'.ready && x !in s.board.ready ==> x.entry.Placeholder?
    ensures Left((s.(board := b'), Suspended), spot[o := sp], cellKey', o, k, spent)
  {
    ParkedOneShot(spot, k, spent, o, sp);
    ParkedOwners(spot, s.meta, o, sp);
    ParkedNobodyLost(spot, s.meta, o, sp);
    ParkedElsewhere(s.sems, spot, o, sp);
    MorePlaceholders(s.board, b', s.sems);
  }

  lemma ParkDirectItems(meta: map<Key, Meta>, b: Board, o: Owner, k: nat, key: Key, wake: Option<int>)
    ensures forall x :: x in ParkDirect(meta, b, o, k, key, wake).ready && x !in b.ready ==> x.entry.Placeholder?
  {
  }

  lemma WaitParks(s: State, spot: Spots, cellKey: map<nat, Key>, o: Owner, k: nat, spent: set<nat>, key: Key,
                  wake: Option<int>)
    returns (cellKey': map<nat, Key>)
    requires Entered(s, spot, cellKey, o, k, spent) && key in s.meta && !Terminal(s.meta[key].status)
    ensures Left((s.(board := ParkDirect(s.meta, s.board, o, k, key, wake)), Suspended), spot[o := AtWait(key, k)],
              cellKey', o, k, spent)
  {
    cellKey' := ParkDirectSound(s.board, s.meta, spot, cellKey, o, k, key, wake);
    ParkDirectItems(s.meta, s.board, o, k, key, wake);
    Park(s, ParkDirect(s.meta, s.board, o, k, key, wake), spot, cellKey, cellKey', o, k, spent, AtWait(key, k));
  }

  lemma WaitWhole(s: State, spot: Spots, cellKey: map<nat, Key>, o: Owner, k: nat, spent: set<nat>, key: Key,
                  wake: Option<int>)
    returns (spot': Spots, cellKey': map<nat, Key>)
    requires Entered(s, spot, cellKey, o, k, spent)
    ensures Left(HandleWait(s, o, k, key, wake), spot', cellKey', o, k, spent)
  {
    spot', cellKey' := spot, cellKey;
    KeptOneShot(spot, k, spent);
    if key in s.meta && !Terminal(s.meta[key].status) {
      cellKey' := WaitParks(s, spot, cellKey, o, k, spent, key, wake);
      spot' := spot[o := AtWait(key, k)];
    }
  }

  lemma OpenJoinItems(meta: map<Key, Meta>, b: Board, g: Join)
    ensures forall x :: x in OpenJoin(meta, b, g).ready && x !in b.ready ==> x.entry.Placeholder?
  {
    RegisterAllItems(meta, b.(joins := b.joins[b.nextObj := g], nextObj := b.nextObj + 1), b.nextObj, g.owner,
                     g.pendingKeys);
  }

  lemma OpenWhole(s: State, spot: Spots, cellKey: map<nat, Key>, g: Join, spent: set<nat>)
    returns (spot': Spots, cellKey': map<nat, Key>)
    requires Entered(s, spot, cellKey, g.owner, g.cont, spent) && Openable(g, s.meta)
    ensures Left((s.(board := OpenJoin(s.meta, s.board, g)), Suspended), spot', cellKey', g.owner, g.cont, spent)
  {
    var sp := AtJoin(s.board.nextObj, g.cont);
    cellKey' := OpenJoinSound(s.board, s.meta, spot, cellKey, g);
    spot' := spot[g.owner := sp];
    OpenJoinItems(s.meta, s.board, g);
    Park(s, OpenJoin(s.meta, s.board, g), spot, cellKey, cellKey', g.owner, g.cont, spent, sp);
  }

  lemma GatherWhole(s: State, spot: Spots, cellKey: map<nat, Key>, o: Owner, k: nat, spent: set<nat>, keys: seq<Key>)
    returns (spot': Spots, cellKey': map<nat, Key>)
    requires Entered(s, spot, cellKey, o, k, spent)
    ensures Left(HandleGather(s, o, k, keys), spot', cellKey', o, k, spent)
  {
    spot', cellKey' := spot, cellKey;
    KeptOneShot(spot, k, spent);
    var pending := PendingOf(s.meta, keys);
    if FirstFailure(s.meta, keys).None? && pending != [] {
      GatherOpenable(s.meta, o, k, keys);
      spot', cellKey' := OpenWhole(s, spot, cellKey, Join(GatherJoin, o, k, keys, pending, |pending|, false), spent);
    }
  }

  lemma {:induction false} FirstTerminalAnswers(meta: map<Key, Meta>, keys: seq<Key>)
    ensures FirstTerminal(meta, keys).Some? ==> !FirstTerminal(meta, keys).value.Suspended?
  {
    if keys != [] {
      FirstTerminalAnswers(meta, keys[1..]);
    }
  }

  lemma RaceWhole(s: State, spot: Spots, cellKey: map<nat, Key>, o: Owner, k: nat, spent: set<nat>, keys: seq<Key>)
    returns (spot': Spots, cellKey': map<nat, Key>)
    requires Entered(s, spot, cellKey, o, k, spent)
    ensures Left(HandleRace(s, o, k, keys), spot', cellKey', o, k, spent)
  {
    spot', cellKey' := spot, cellKey;
    KeptOneShot(spot, k, spent);
    FirstTerminalAnswers(s.meta, keys);
    if keys != [] && FirstTerminal(s.meta, keys).None? {
      RaceOpenable(s.meta, o, k, keys);
      spot', cellKey' := OpenWhole(s, spot, cellKey, Join(RaceJoin, o, k, keys, keys, 0, false), spent);
    }
  }

  lemma ResolveWhole(s: State, spot: Spots, cellKey: map<nat, Key>, o: Owner, k: nat, spent: set<nat>, key: Key,
                     st: Status, v: Value)
    returns (spot': Spots)
    requires Entered(s, spot, cellKey, o, k, spent)
    requires key in s.meta && !Terminal(s.meta[key].status) && Terminal(st)
    requires st.Cancelled? || key.PromiseKey?
    ensures Entered(Resolve(s, key, st, v).0, spot', cellKey, o, k, spent)
  {
    assert s.board.ready + {} == s.board.ready;
    spot' := ResolveSound(s, {}, spot, cellKey, key, st, v);
    var s' := Resolve(s, key, st, v).0;
    assert s'.board.ready + {} == s'.board.ready;
    ResolvedNobodyLost(spot, s.meta, key, st, v, Some(o));
    MovedNobodyLost(spot, spot', s'.meta, Some(o));
    MovedOneShot(spot, spot', k, spent);
  }

  lemma CancelWhole(s: State, spot: Spots, cellKey: map<nat, Key>, o: Owner, k: nat, spent: set<nat>, key: Key)
    returns (spot': Spots)
    requires Entered(s, spot, cellKey, o, k, spent)
    ensures Left(HandleCancel(s, key), spot', cellKey, o, k, spent)
  {
    spot' := spot;
    if key in s.meta && !Terminal(s.meta[key].status) {
      spot' := ResolveWhole(s, spot, cellKey, o, k, spent, key, Cancelled, TaskCancelledError);
    }
    KeptOneShot(spot', k, spent);
  }

  lemma QueueWhole(s: State, spot: Spots, cellKey: map<nat, Key>, o: Owner, k: nat, spent: set<nat>, v: Value,
                   prio: int)
    returns (spot': Spots)
    requires Entered(s, spot, cellKey, o, k, spent)
    ensures Left((s.(board := Enqueue(s.board, Resume(o, k, v), prio)), Suspended), spot', cellKey, o, k, spent)
  {
    var sp := AtReady(s.board.nextSeq, k);
    QueueSound(s, spot, cellKey, Resume(o, k, v), prio);
    spot' := spot[o := sp];
    ParkedOneShot(spot, k, spent, o, sp);
    ParkedNobodyLost(spot, s.meta, o, sp);
  }

  lemma SettleWhole(s: State, spot: Spots, cellKey: map<nat, Key>, o: Owner, k: nat, spent: set<nat>, key: Key,
                    st: Status, v: Value)
    returns (spot': Spots)
    requires Entered(s, spot, cellKey, o, k, spent) && key.PromiseKey? && Terminal(st)
    ensures Left(HandleSettle(s, o, k, key, st, v), spot', cellKey, o, k, spent)
  {
    spot' := spot;
    KeptOneShot(spot, k, spent);
    if key in s.meta && !s.meta[key].external && s.meta[key].status == Pending {
      var (s1, woken) := Resolve(s, key, st, v);
      var spot1 := ResolveWhole(s, spot, cellKey, o, k, spent, key, st, v);
      spot' := QueueWhole(s1, spot1, cellKey, o, k, spent, Nothing, CompleterPriority(s1.meta, o, woken));
    }
  }

  lemma CompletedWhole(s: State, spot: Spots, cellKey: map<nat, Key>, o: Owner, k: nat, spent: set<nat>, ok: bool,
                       v: Value)
    returns (spot': Spots)
    requires Entered(s, spot, cellKey, o, k, spent) && o.Of?
    ensures Left(HandleCompleted(s, o, ok, v), spot', cellKey, o, k, spent)
  {
    spot' := spot;
    KeptOneShot(spot, k, spent);
    var key := TaskKey(o.tid);
    if !s.meta[key].status.Cancelled? {
      spot' := CompletionWhole(s, spot, cellKey, o, k, spent, if ok then Completed else Failed, v);
    }
  }

  lemma CompletionWhole(s: State, spot: Spots, cellKey: map<nat, Key>, o: Owner, k: nat, spent: set<nat>, st: Status,
                        v: Value)
    returns (spot': Spots)
    requires Entered(s, spot, cellKey, o, k, spent) && o.Of? && Terminal(st) && !st.Cancelled?
    requires TaskKey(o.tid) in s.meta && !s.meta[TaskKey(o.tid)].status.Cancelled?
    ensures Left((Resolve(s, TaskKey(o.tid), st, v).0, Suspended), spot', cellKey, o, k, spent)
  {
    var key := TaskKey(o.tid);
    var s' := Resolve(s, key, st, v).0;
    assert s.board.ready + {} == s.board.ready && s'.board.ready + {} == s'.board.ready;
    spot' := ResolveSound(s, {}, spot, cellKey, key, st, v);
    CompletedNobodyLost(spot, s.meta, o, st, v);
    MovedNobodyLost(spot, spot', s'.meta, None);
    MovedOneShot(spot, spot', k, spent);
    KeptOneShot(spot', k, spent);
  }

  lemma CompletedNobodyLost(spot: Spots, meta: map<Key, Meta>, o: Owner, st: Status, v: Value)
    requires NobodyLost(spot, meta, Some(o)) && o.Of? && Terminal(st)
    ensures NobodyLost(spot, WithStatus(meta, TaskKey(o.tid), st, v), None)
  {
  }

  lemma SpawnWhole(s: State, spot: Spots, cellKey: map<nat, Key>, o: Owner, k: nat, spent: set<nat>,
                   prio: int, daemon: bool, handles: map<nat, Key>, h: nat)
    returns (spot': Spots)
    requires Entered(s, spot, cellKey, o, k, spent) && HandlesRegistered(s.refs, handles)
    ensures var r := HandleSpawn(s, o, k, prio, daemon, handles.Keys, h);
            && Left(r, spot', cellKey, o, k, spent)
            && HandlesRegistered(r.0.refs, handles[h := TaskKey(s.nextId)])
  {
    var tid := s.nextId;
    var key := TaskKey(tid);
    var m := Meta(Pending, Nothing, prio, daemon, false);
    var s1 := FreshId(s, handles.Keys);
    var s2 := s1.(meta := s1.meta[key := m]);
    var s3 := s2.(board := Enqueue(s2.board, New(tid), prio));
    var s4 := Register(s3, key, h, handles.Keys);
    FreshIdSound(s, spot, cellKey, handles.Keys);
    FreshIdNobodyLost(s, handles.Keys, spot, Some(o));
    FreshIdHandles(s, handles);
    NewTaskFresh(s, spot, cellKey, handles.Keys);
    NewMetaSound(s1, s1.board.ready, spot, cellKey, key, m);
    QueueSound(s2, spot, cellKey, New(tid), prio);
    var spot1 := spot[Of(tid) := Unstarted(s.board.nextSeq)];
    RegisterSound(s3, s3.board.ready, spot1, cellKey, key, h, handles.Keys);
    RegisterHandles(s3, key, h, handles);
    SpawnedNobodyLost(spot, s1.meta, o, tid, m, s.board.nextSeq);
    SpawnedOneShot(spot, k, spent, tid, s.board.nextSeq);
    spot' := QueueWhole(s4, spot1, cellKey, o, k, spent, Handle(key), TaskPriority(s4.meta, o));
  }

  lemma NewTaskFresh(s: State, spot: Spots, cellKey: map<nat, Key>, live: set<nat>)
    requires Sound(s, s.board.ready, spot, cellKey)
    ensures TaskKey(s.nextId) !in FreshId(s, live).meta && PromiseKey(s.nextId) !in FreshId(s, live).meta
    ensures Of(s.nextId) !in spot && s.nextId < FreshId(s, live).nextId && s.nextId !in FreshId(s, live).sems
    ensures FreshId(s, live).board == s.board
  {
  }

  lemma SpawnedNobodyLost(spot: Spots, meta: map<Key, Meta>, o: Owner, tid: nat, m: Meta, order: nat)
    requires NobodyLost(spot, meta, Some(o)) && TaskKey(tid) !in meta
    ensures NobodyLost(spot[Of(tid) := Unstarted(order)], meta[TaskKey(tid) := m], Some(o))
  {
  }

  lemma SpawnedOneShot(spot: Spots, k: nat, spent: set<nat>, tid: nat, order: nat)
    requires OneShot(spot, k, spent) && Of(tid) !in spot
    ensures OneShot(spot[Of(tid) := Unstarted(order)], k, spent)
  {
  }

  lemma CreateWhole(s: State, spot: Spots, cellKey: map<nat, Key>, o: Owner, k: nat, spent: set<nat>,
                    external: bool, handles: map<nat, Key>, h: nat)
    requires Entered(s, spot, cellKey, o, k, spent) && HandlesRegistered(s.refs, handles)
    ensures var r := HandleCreate(s, external, handles.Keys, h);
            && Left(r, spot, cellKey, o, k, spent)
            && HandlesRegistered(r.0.refs, handles[h := PromiseKey(s.nextId)])
  {
    var key := PromiseKey(s.nextId);
    var m := Meta(Pending, Nothing, PRIORITY_NORMAL, false, external);
    var s1 := FreshId(s, handles.Keys);
    var s2 := s1.(meta := s1.meta[key := m]);
    FreshIdSound(s, spot, cellKey, handles.Keys);
    FreshIdNobodyLost(s, handles.Keys, spot, Some(o));
    FreshIdHandles(s, handles);
    NewTaskFresh(s, spot, cellKey, handles.Keys);
    NewMetaSound(s1, s1.board.ready, spot, cellKey, key, m);
    RegisterSound(s2, s2.board.ready, spot, cellKey, key, h, handles.Keys);
    RegisterHandles(s2, key, h, handles);
    PromiseNobodyLost(spot, s1.meta, Some(o), key, m);
    KeptOneShot(spot, k, spent);
  }

  lemma PromiseNobodyLost(spot: Spots, meta: map<Key, Meta>, running: Option<Owner>, key: Key, m: Meta)
    requires NobodyLost(spot, meta, running) && key.PromiseKey?
    ensures NobodyLost(spot, meta[key := m], running)
  {
  }

  lemma SemaphoreWhole(s: State, spot: Spots, cellKey: map<nat, Key>, o: Owner, k: nat, spent: set<nat>,
                       permits: int, handles: map<nat, Key>)
    requires Entered(s, spot, cellKey, o, k, spent) && HandlesRegistered(s.refs, handles)
    ensures var r := HandleSemaphore(s, permits, handles.Keys);
            Left(r, spot, cellKey, o, k, spent) && HandlesRegistered(r.0.refs, handles)
  {
    KeptOneShot(spot, k, spent);
    if permits >= 1 {
      FreshIdSound(s, spot, cellKey, handles.Keys);
      FreshIdNobodyLost(s, handles.Keys, spot, Some(o));
      FreshIdHandles(s, handles);
      NewTaskFresh(s, spot, cellKey, handles.Keys);
      NewSemaphoreSound(FreshId(s, handles.Keys), s.board.ready, spot, cellKey, s.nextId, permits);
    }
  }

  lemma NewSemaphoreSound(s: State, items: set<Item>, spot: Spots, cellKey: map<nat, Key>, sid: nat, permits: int)
    requires Sound(s, items, spot, cellKey) && permits >= 1 && sid !in s.sems && sid < s.nextId
    ensures Sound(s.(sems := s.sems[sid := Sem(permits, permits, [], multiset{})]), items, spot, cellKey)
  {
    NewSemaphoreSems(s.sems, items, spot, sid, permits);
    SemsReplaced(s, items, spot, cellKey, s.sems[sid := Sem(permits, permits, [], multiset{})]);
  }

  lemma NewSemaphoreSems(sems: map<nat, Sem>, items: set<Item>, spot: Spots, sid: nat, permits: int)
    requires SemsPlaced(sems, spot) && SemsSound(sems) && PermitsHeld(items, sems) && permits >= 1 && sid !in sems
    ensures var sems' := sems[sid := Sem(permits, permits, [], multiset{})];
            SemsPlaced(sems', spot) && SemsSound(sems') && PermitsHeld(items, sems')
  {
  }

  lemma AcquireWhole(s: State, spot: Spots, cellKey: map<nat, Key>, o: Owner, k: nat, spent: set<nat>, sid: nat)
    returns (spot': Spots)
    requires Entered(s, spot, cellKey, o, k, spent) && sid in s.sems
    ensures Left(HandleAcquire(s, o, k, sid), spot', cellKey, o, k, spent)
  {
    KeptOneShot(spot, k, spent);
    spot' := spot;
    if s.sems[sid].permits > 0 {
      AcquireTaken(s, spot, cellKey, o, k, sid);
    } else {
      AcquireParked(s, spot, cellKey, o, k, sid);
      spot' := spot[o := AtSem(sid, k)];
      ParkedOneShot(spot, k, spent, o, AtSem(sid, k));
      ParkedNobodyLost(spot, s.meta, o, AtSem(sid, k));
    }
  }

  lemma ReleaseWhole(s: State, spot: Spots, cellKey: map<nat, Key>, o: Owner, k: nat, spent: set<nat>, sid: nat)
    returns (spot': Spots)
    requires Entered(s, spot, cellKey, o, k, spent) && sid in s.sems
    ensures Left(HandleRelease(s, o, sid), spot', cellKey, o, k, spent)
  {
    spot' := ReleaseSound(s, spot, cellKey, o, sid);
    FlowsOneShot(spot, spot', s.meta, k, spent);
    FlowsNobodyLost(spot, spot', s.meta, Some(o));
    ReleaseReply(s, o, sid);
    ResumedLeft(HandleRelease(s, o, sid), spot', cellKey, o, k, spent);
  }

  lemma ReleaseReply(s: State, o: Owner, sid: nat)
    requires sid in s.sems
    ensures !HandleRelease(s, o, sid).1.Suspended? && HandleRelease(s, o, sid).0.meta == s.meta
  {
  }

  lemma ResumedLeft(r: (State, Reply), spot: Spots, cellKey: map<nat, Key>, o: Owner, k: nat, spent: set<nat>)
    requires !r.1.Suspended? && Sound(r.0, r.0.board.ready, spot, cellKey)
    requires NobodyLost(spot, r.0.meta, Some(o)) && OneShot(spot, k, spent)
    ensures Left(r, spot, cellKey, o, k, spent)
  {
    KeptOneShot(spot, k, spent);
  }
}
