/** `unreleasable_semaphores` computes a greatest fixpoint, and its verdict is sound: whatever
    the rest of the program, cancellations and external completions do, no permit of a
    semaphore in the verdict is granted again and nobody parked behind one runs again. */
module DeadlockDetector {
  import opened SchedulerModel
  import opened SchedulerSteps
  import opened SchedulerInvariant
  import opened SchedulerRuns
  import opened SchedulerSafety
  import opened SchedulerResults
  import opened SchedulerConservation
  import opened SchedulerPermits
  import opened SchedulerTheorems
  import opened SchedulerFlights

  // ---- The fixpoint --------------------------------------------------------

  /** Every member has holders, and all of them are parked behind members. */
  ghost predicate SelfSupporting(sems: map<nat, Sem>, d: set<nat>) {
    forall sid {:trigger Hopeless(sems, d, sid)} :: sid in d ==> Hopeless(sems, d, sid)
  }

  lemma {:induction false} VerdictIsSelfSupporting(sems: map<nat, Sem>, c: set<nat>)
    ensures Unreleasable(sems, c) <= c && SelfSupporting(sems, Unreleasable(sems, c))
    decreases |c|
  {
    var kept := KeepHopeless(sems, c);
    if kept != c {
      SmallerSubset(kept, c);
      VerdictIsSelfSupporting(sems, kept);
    } else {
      forall sid | sid in c ensures Hopeless(sems, c, sid) {
        assert sid in kept;
      }
    }
  }

  lemma {:induction false} VerdictIsGreatest(sems: map<nat, Sem>, c: set<nat>, d: set<nat>)
    requires d <= c && SelfSupporting(sems, d)
    ensures d <= Unreleasable(sems, c)
    decreases |c|
  {
    var kept := KeepHopeless(sems, c);
    SupportIsKept(sems, c, d);
    FixpointStep(sems, c, kept);
    if kept != c {
      SmallerSubset(kept, c);
      VerdictIsGreatest(sems, kept, d);
    }
  }

  lemma SupportIsKept(sems: map<nat, Sem>, c: set<nat>, d: set<nat>)
    requires d <= c && SelfSupporting(sems, d)
    ensures d <= KeepHopeless(sems, c) <= c
  {
    forall sid | sid in d ensures Hopeless(sems, c, sid) {
      assert Hopeless(sems, d, sid);
      forall o | o in sems[sid].holders ensures ParkedBehind(sems, c, o) {
        assert ParkedBehind(sems, d, o);
      }
    }
  }

  lemma FixpointStep(sems: map<nat, Sem>, c: set<nat>, kept: set<nat>)
    requires kept == KeepHopeless(sems, c)
    ensures Unreleasable(sems, kept) == Unreleasable(sems, c)
    ensures kept == c ==> Unreleasable(sems, c) == c
  {
  }

  /** The owners parked behind the semaphores in `c`, and the members of `c` with no holder or
      with one who is not parked there, as a round of the loop collects them. */
  function ParkedOwners(sems: map<nat, Sem>, c: set<nat>): set<Owner> {
    set sid, p | sid in c && sid in sems && p in sems[sid].queue :: p.owner
  }

  function Pruned(sems: map<nat, Sem>, c: set<nat>): set<nat> {
    set sid | sid in c && sid in sems
              && (sems[sid].holders == multiset{} || exists o :: o in sems[sid].holders && o !in ParkedOwners(sems, c))
  }

  lemma PrunedAreNotHopeless(sems: map<nat, Sem>, c: set<nat>)
    requires c <= sems.Keys
    ensures KeepHopeless(sems, c) == c - Pruned(sems, c)
  {
    forall sid | sid in c ensures Hopeless(sems, c, sid) <==> sid !in Pruned(sems, c) {
      forall o | o in sems[sid].holders ensures o in ParkedOwners(sems, c) <==> ParkedBehind(sems, c, o) {}
    }
  }

  lemma PruningRound(sems: map<nat, Sem>, c: set<nat>, pruned: set<nat>)
    requires pruned <= c && KeepHopeless(sems, c) == c - pruned
    ensures Unreleasable(sems, c - pruned) == Unreleasable(sems, c)
    ensures pruned == {} ==> Unreleasable(sems, c) == c
    ensures pruned != {} ==> |c - pruned| < |c|
  {
    FixpointStep(sems, c, c - pruned);
    if pruned != {} {
      SmallerSubset(c - pruned, c);
    }
  }

  /** The loop of `unreleasable_semaphores`, as it is written. */
  method FindUnreleasable(sems: map<nat, Sem>, blocked: set<nat>) returns (doomed: set<nat>)
    requires blocked <= sems.Keys
    ensures doomed == Unreleasable(sems, blocked)
  {
    doomed := blocked;
    var changed := true;
    while doomed != {} && changed
      invariant doomed <= blocked
      invariant Unreleasable(sems, doomed) == Unreleasable(sems, blocked)
      invariant !changed ==> Unreleasable(sems, doomed) == doomed
      decreases |doomed|, changed
    {
      var pruned := Pruned(sems, doomed);
      PrunedAreNotHopeless(sems, doomed);
      PruningRound(sems, doomed, pruned);
      if pruned == {} { assert doomed - pruned == doomed; }
      doomed := doomed - pruned;
      changed := pruned != {};
    }
    if doomed == {} { assert KeepHopeless(sems, doomed) == doomed; }
  }

  // ---- Soundness of the verdict --------------------------------------------

  /** The semaphores `d` are stuck with the holders they have in `sems0`: no permit is free or in
      flight, and the holders, like all of `ws`, are parked behind `d` or cancelled ... */
  ghost predicate FrozenState(s: State, items: set<Item>, d: set<nat>, ws: set<Owner>, sems0: map<nat, Sem>) {
    && (forall sid :: sid in d ==>
          sid in s.sems && sid in sems0 && s.sems[sid].permits == 0
          && s.sems[sid].holders == sems0[sid].holders
          && (forall o :: o in sems0[sid].holders ==> o in ws))
    && (forall o :: o in ws ==> IsCancelled(s.meta, o) || ParkedBehind(s.sems, d, o))
    && (forall x :: x in items && x.entry.Permit? ==> x.entry.sid !in d)
  }

  /** ... and idle. */
  ghost predicate Frozen(y: System, d: set<nat>, ws: set<Owner>, sems0: map<nat, Sem>) {
    && FrozenState(y.s, y.s.board.ready + HeldItems(y), d, ws, sems0)
    && forall o :: o in ws ==> y.phase != Executing(o)
  }

  lemma StillParked(sems: map<nat, Sem>, sems': map<nat, Sem>, d: set<nat>, o: Owner)
    requires ParkedBehind(sems, d, o)
    requires forall sid, p :: sid in d && sid in sems && p in sems[sid].queue && p.owner == o ==>
               sid in sems' && p in sems'[sid].queue
    ensures ParkedBehind(sems', d, o)
  {
    var sid, p :| sid in d && sid in sems && p in sems[sid].queue && p.owner == o;
    assert p in sems'[sid].queue;
  }

  /** The two ways the frozen queues change: they grow, and cancelled waiters leave. */
  ghost predicate FrozenSems(meta: map<Key, Meta>, sems: map<nat, Sem>, sems': map<nat, Sem>, d: set<nat>) {
    forall sid :: sid in d ==>
      sid in sems && sid in sems' && sems'[sid].permits == sems[sid].permits && sems'[sid].holders == sems[sid].holders
      && forall p :: p in sems[sid].queue && !IsCancelled(meta, p.owner) ==> p in sems'[sid].queue
  }

  lemma FrozenWaiters(meta: map<Key, Meta>, meta': map<Key, Meta>, sems: map<nat, Sem>, sems': map<nat, Sem>,
                      d: set<nat>, o: Owner)
    requires FrozenSems(meta, sems, sems', d)
    requires IsCancelled(meta, o) ==> IsCancelled(meta', o)
    requires IsCancelled(meta, o) || ParkedBehind(sems, d, o)
    ensures IsCancelled(meta', o) || ParkedBehind(sems', d, o)
  {
    if !IsCancelled(meta, o) {
      StillParked(sems, sems', d, o);
    }
  }

  // -- effects

  lemma OtherReleaseFrozen(s: State, o: Owner, sid: nat, d: set<nat>)
    requires sid in s.sems && sid !in d && (forall i :: i in d ==> i in s.sems)
    ensures FrozenSems(s.meta, s.sems, HandleRelease(s, o, sid).0.sems, d)
  {
    GrantEffect(s, sid);
  }

  lemma AcquireFrozen(s: State, o: Owner, k: nat, sid: nat, d: set<nat>)
    requires sid in s.sems && (forall i :: i in d ==> i in s.sems && s.sems[i].permits == 0)
    ensures FrozenSems(s.meta, s.sems, HandleAcquire(s, o, k, sid).0.sems, d)
  {
  }

  lemma SemaphoreFrozen(s: State, permits: int, live: set<nat>, d: set<nat>)
    requires forall i :: i in d ==> i in s.sems && i < s.nextId
    ensures FrozenSems(s.meta, s.sems, HandleSemaphore(s, permits, live).0.sems, d)
  {
  }

  /** An effect performed by somebody outside `ws`. */
  lemma HandlingFrozen(s: State, o: Owner, k: nat, e: Effect, live: set<nat>, h: nat, d: set<nat>)
    requires e.TaskCompleted? ==> o.Of? && TaskKey(o.tid) in s.meta
    requires e.Acquire? || e.Release? ==> e.sid in s.sems
    requires e.Release? ==> e.sid !in d
    requires forall i :: i in d ==> i in s.sems && i < s.nextId && s.sems[i].permits == 0
    ensures var s' := Handling(s, o, k, e, live, h).0;
            && FrozenSems(s.meta, s.sems, s'.sems, d)
            && forall x :: x in s'.board.ready && x !in s.board.ready && x.entry.Permit? ==> x.entry.sid !in d
  {
    HandlingAddsPermits(s, o, k, e, live, h);
    if e.Release? {
      OtherReleaseFrozen(s, o, e.sid, d);
    } else if e.Acquire? {
      AcquireFrozen(s, o, k, e.sid, d);
    } else if e.CreateSemaphore? {
      SemaphoreFrozen(s, e.permits, live, d);
    } else {
      HandlingSems(s, o, k, e, live, h);
    }
  }

  lemma FrozenOn(s: State, s': State, items: set<Item>, items': set<Item>, d: set<nat>, ws: set<Owner>,
                 sems0: map<nat, Sem>)
    requires FrozenState(s, items, d, ws, sems0) && FrozenSems(s.meta, s.sems, s'.sems, d)
    requires forall o :: IsCancelled(s.meta, o) ==> IsCancelled(s'.meta, o)
    requires forall x :: x in items' && x !in items && x.entry.Permit? ==> x.entry.sid !in d
    ensures FrozenState(s', items', d, ws, sems0)
  {
    forall o | o in ws ensures IsCancelled(s'.meta, o) || ParkedBehind(s'.sems, d, o) {
      FrozenWaiters(s.meta, s'.meta, s.sems, s'.sems, d, o);
    }
  }

  lemma SameSemsFrozen(meta: map<Key, Meta>, sems: map<nat, Sem>, d: set<nat>)
    requires forall i :: i in d ==> i in sems
    ensures FrozenSems(meta, sems, sems, d)
  {
  }

  lemma DrainFrozen(s: State, d: set<nat>, ws: set<Owner>, sems0: map<nat, Sem>)
    requires FrozenState(s, s.board.ready, d, ws, sems0)
    ensures FrozenState(Drain(s), Drain(s).board.ready, d, ws, sems0)
  {
    DrainSems(s);
    DrainAddsNoPermits(s);
    SameSemsFrozen(s.meta, s.sems, d);
    FrozenOn(s, Drain(s), s.board.ready, Drain(s).board.ready, d, ws, sems0);
  }

  lemma HandledFrozen(s: State, o: Owner, k: nat, e: Effect, live: set<nat>, h: nat, d: set<nat>, ws: set<Owner>,
                      sems0: map<nat, Sem>)
    requires e.TaskCompleted? ==> o.Of? && TaskKey(o.tid) in s.meta
    requires e.Acquire? || e.Release? ==> e.sid in s.sems
    requires e.Release? ==> o in s.sems[e.sid].holders
    requires FrozenState(s, s.board.ready, d, ws, sems0) && o !in ws
    requires forall i :: i in s.sems ==> i < s.nextId
    requires forall p :: IsCancelled(s.meta, p) ==> IsCancelled(Handling(s, o, k, e, live, h).0.meta, p)
    ensures var s' := Handling(s, o, k, e, live, h).0; FrozenState(s', s'.board.ready, d, ws, sems0)
  {
    var s' := Handling(s, o, k, e, live, h).0;
    HandlingFrozen(s, o, k, e, live, h, d);
    FrozenOn(s, s', s.board.ready, s'.board.ready, d, ws, sems0);
  }

  lemma PerformFrozen(y: System, e: Effect, spot: Spots, cellKey: map<nat, Key>, d: set<nat>, ws: set<Owner>,
                      sems0: map<nat, Sem>)
    requires Inv(y, spot, cellKey) && Enabled(y, Perform(e), false) && Disciplined(y, Perform(e))
    requires Frozen(y, d, ws, sems0)
    ensures Frozen(PerformStep(y, e), d, ws, sems0)
  {
    PerformCancelled(y, e, spot, cellKey);
    PerformIds(y, spot, cellKey);
    PerformedFrozen(y, e, d, ws, sems0);
  }

  lemma PerformedFrozen(y: System, e: Effect, d: set<nat>, ws: set<Owner>, sems0: map<nat, Sem>)
    requires Enabled(y, Perform(e), false) && Disciplined(y, Perform(e)) && Frozen(y, d, ws, sems0)
    requires forall i :: i in Drain(y.s).sems ==> i < Drain(y.s).nextId
    requires forall o :: IsCancelled(Drain(y.s).meta, o) ==> IsCancelled(PerformStep(y, e).s.meta, o)
    ensures Frozen(PerformStep(y, e), d, ws, sems0)
  {
    var s1 := Drain(y.s);
    var s2 := Handling(s1, y.phase.owner, y.nextCont, e, y.handles.Keys, y.nextHandle).0;
    assert y.s.board.ready + {} == y.s.board.ready && s2.board.ready + {} == s2.board.ready;
    DrainFrozen(y.s, d, ws, sems0);
    DrainSems(y.s);
    HandledFrozen(s1, y.phase.owner, y.nextCont, e, y.handles.Keys, y.nextHandle, d, ws, sems0);
  }

  lemma PerformIds(y: System, spot: Spots, cellKey: map<nat, Key>)
    requires Inv(y, spot, cellKey) && y.phase.Executing?
    ensures forall i :: i in Drain(y.s).sems ==> i < Drain(y.s).nextId
  {
    var spot' := DrainedEntered(y, spot, cellKey);
  }

  lemma LaterCancelled(s: State, s': State)
    requires Later(s, s')
    ensures forall o :: IsCancelled(s.meta, o) ==> IsCancelled(s'.meta, o)
  {
  }

  lemma PerformCancelled(y: System, e: Effect, spot: Spots, cellKey: map<nat, Key>)
    requires Inv(y, spot, cellKey) && Enabled(y, Perform(e), false)
    ensures forall o :: IsCancelled(Drain(y.s).meta, o) ==> IsCancelled(PerformStep(y, e).s.meta, o)
  {
    var spot' := DrainedEntered(y, spot, cellKey);
    DrainLater(y.s);
    HandlingLater(Drain(y.s), y.phase.owner, y.nextCont, e, y.handles.Keys, y.nextHandle);
    LaterCancelled(Drain(y.s), PerformStep(y, e).s);
  }

  // -- turns of the dispatch loop

  lemma PruneFrozen(meta: map<Key, Meta>, sems: map<nat, Sem>, d: set<nat>)
    requires forall i :: i in d ==> i in sems
    requires forall i :: i in sems ==> NoDuplicates(sems[i].queue)
    ensures FrozenSems(meta, sems, PruneQueues(meta, sems), d)
  {
    forall i | i in d
      ensures forall p :: p in sems[i].queue && !IsCancelled(meta, p.owner) ==> p in PruneQueues(meta, sems)[i].queue
    {
      LiveQueueMembers(meta, sems[i].queue);
    }
  }

  lemma ReturnFrozen(s: State, sid: nat, o: Owner, d: set<nat>)
    requires sid in s.sems && sid !in d && forall i :: i in d ==> i in s.sems
    ensures FrozenSems(s.meta, s.sems, ReturnPermit(s, sid, o).sems, d)
  {
    GrantEffect(DropHolder(s, sid, o), sid);
  }

  lemma TurnFrozenSems(s: State, items: set<Item>, sems: map<nat, Sem>, d: set<nat>)
    requires TurnedSems(s, sems) && s.board.ready <= items
    requires forall i :: i in d ==> i in s.sems
    requires forall i :: i in s.sems ==> NoDuplicates(s.sems[i].queue)
    requires forall x :: x in items && x.entry.Permit? ==> x.entry.sid !in d
    ensures FrozenSems(s.meta, s.sems, sems, d)
  {
    if sems == s.sems {
      SameSemsFrozen(s.meta, s.sems, d);
    } else if sems == PruneQueues(s.meta, s.sems) {
      PruneFrozen(s.meta, s.sems, d);
    } else {
      var x :| x in s.board.ready && x.entry.Permit? && IsCancelled(s.meta, x.entry.owner) && x.entry.sid in s.sems
               && sems == ReturnPermit(Pop(s, x), x.entry.sid, x.entry.owner).sems;
      assert x in items;
      ReturnFrozen(Pop(s, x), x.entry.sid, x.entry.owner, d);
    }
  }

  /** Nobody stuck is chosen: those parked are in a queue, not in the heap. */
  lemma ChosenIsNotStuck(s: State, items: set<Item>, spot: Spots, d: set<nat>, x: Item, o: Owner)
    requires ItemsPlaced(items, spot) && SemsPlaced(s.sems, spot)
    requires x in items && LiveEntry(s.meta, x.entry)
    requires IsCancelled(s.meta, o) || ParkedBehind(s.sems, d, o)
    ensures EntryOwner(x.entry) != o
  {
    if !IsCancelled(s.meta, o) {
      var sid, p :| sid in d && sid in s.sems && p in s.sems[sid].queue && p.owner == o;
      assert spot[o] == AtSem(sid, p.cont);
    }
  }

  lemma NoneStuckChosen(y: System, spot: Spots, cellKey: map<nat, Key>, diagnose: bool, d: set<nat>, ws: set<Owner>,
                        sems0: map<nat, Sem>)
    requires Inv(y, spot, cellKey) && y.phase.Picking? && Frozen(y, d, ws, sems0)
    requires PickTurn(y.s, y.phase.held, y.phase.shield, diagnose).Chosen?
    ensures EntryOwner(PickTurn(y.s, y.phase.held, y.phase.shield, diagnose).entry) !in ws
  {
    ChosenMeans(y.s, y.phase.held, y.phase.shield, diagnose);
    var x := Least(y.s.board.ready);
    forall o | o in ws ensures EntryOwner(x.entry) != o {
      ChosenIsNotStuck(y.s, y.s.board.ready + y.phase.held, spot, d, x, o);
    }
  }

  lemma DispatchFrozen(y: System, spot: Spots, cellKey: map<nat, Key>, diagnose: bool, d: set<nat>, ws: set<Owner>,
                       sems0: map<nat, Sem>)
    requires Inv(y, spot, cellKey) && Enabled(y, Dispatch, diagnose) && Frozen(y, d, ws, sems0)
    ensures Frozen(DispatchStep(y, diagnose), d, ws, sems0)
  {
    var t := PickTurn(y.s, y.phase.held, y.phase.shield, diagnose);
    TurnLater(y, spot, cellKey, diagnose);
    if t.Chosen? {
      NoneStuckChosen(y, spot, cellKey, diagnose, d, ws, sems0);
    }
    DispatchedFrozen(y, spot, diagnose, d, ws, sems0);
  }

  lemma TurnLater(y: System, spot: Spots, cellKey: map<nat, Key>, diagnose: bool)
    requires Inv(y, spot, cellKey) && y.phase.Picking?
    ensures var t := PickTurn(y.s, y.phase.held, y.phase.shield, diagnose); !t.Blocking? ==> Later(y.s, t.s)
    ensures SemsPlaced(y.s.sems, spot)
  {
    UnstartedArePending(y.s.board.ready + y.phase.held, spot, y.s.meta);
    PickTurnLater(y.s, y.phase.held, y.phase.shield, diagnose);
  }

  lemma DispatchedFrozen(y: System, spot: Spots, diagnose: bool, d: set<nat>, ws: set<Owner>, sems0: map<nat, Sem>)
    requires Enabled(y, Dispatch, diagnose) && Frozen(y, d, ws, sems0) && SemsPlaced(y.s.sems, spot)
    requires var t := PickTurn(y.s, y.phase.held, y.phase.shield, diagnose);
             Later(y.s, t.s) && (t.Chosen? ==> EntryOwner(t.entry) !in ws)
    ensures Frozen(DispatchStep(y, diagnose), d, ws, sems0)
  {
    var t := PickTurn(y.s, y.phase.held, y.phase.shield, diagnose);
    var items := y.s.board.ready + y.phase.held;
    PickTurnSems(y.s, y.phase.held, y.phase.shield, diagnose);
    PickTurnPermits(y.s, y.phase.held, y.phase.shield, diagnose);
    DispatchFrozenState(y.s, t.s, items, t.s.board.ready + HeldAfter(t), spot, d, ws, sems0);
  }

  lemma DispatchFrozenState(s: State, s': State, items: set<Item>, items': set<Item>, spot: Spots, d: set<nat>,
                            ws: set<Owner>, sems0: map<nat, Sem>)
    requires FrozenState(s, items, d, ws, sems0) && SemsPlaced(s.sems, spot)
    requires TurnedSems(s, s'.sems) && TurnedPermits(s, items, items') && s.board.ready <= items
    requires Later(s, s')
    ensures FrozenState(s', items', d, ws, sems0)
  {
    TurnFrozenSems(s, items, s'.sems, d);
    FrozenOn(s, s', items, items', d, ws, sems0);
  }

  lemma EnterFrozen(y: System, d: set<nat>, ws: set<Owner>, sems0: map<nat, Sem>)
    requires y.phase.Entering? && Frozen(y, d, ws, sems0)
    ensures Frozen(y.(s := Drain(y.s), phase := Picking({}, false)), d, ws, sems0)
  {
    assert y.s.board.ready + {} == y.s.board.ready && Drain(y.s).board.ready + {} == Drain(y.s).board.ready;
    DrainFrozen(y.s, d, ws, sems0);
  }

  lemma StepFrozen(y: System, a: Action, diagnose: bool, spot: Spots, cellKey: map<nat, Key>, d: set<nat>,
                   ws: set<Owner>, sems0: map<nat, Sem>)
    requires Inv(y, spot, cellKey) && Enabled(y, a, diagnose) && Disciplined(y, a) && Frozen(y, d, ws, sems0)
    ensures Frozen(Step(y, a, diagnose), d, ws, sems0)
  {
    match a
    case Perform(e) => PerformFrozen(y, e, spot, cellKey, d, ws, sems0);
    case Enter => EnterFrozen(y, d, ws, sems0);
    case Dispatch => DispatchFrozen(y, spot, cellKey, diagnose, d, ws, sems0);
    case _ =>
  }

  lemma {:induction false} RunFrozen(y: System, acts: seq<Action>, diagnose: bool, spot: Spots, cellKey: map<nat, Key>,
                                     d: set<nat>, ws: set<Owner>, sems0: map<nat, Sem>)
    requires Inv(y, spot, cellKey) && Possible(y, acts, diagnose) && DisciplinedRun(y, acts, diagnose)
    requires Frozen(y, d, ws, sems0)
    ensures Frozen(After(y, acts, diagnose), d, ws, sems0)
    decreases |acts|
  {
    if acts != [] {
      StepFrozen(y, acts[0], diagnose, spot, cellKey, d, ws, sems0);
      var spot1, cellKey1 := StepKeeps(y, acts[0], diagnose, spot, cellKey);
      RunFrozen(Step(y, acts[0], diagnose), acts[1..], diagnose, spot1, cellKey1, d, ws, sems0);
    }
  }

  // ---- The theorem ---------------------------------------------------------

  /** What `unreleasable_semaphores` would return in `s`. */
  ghost function Verdict(s: State): set<nat> {
    var sems := PruneQueues(s.meta, s.sems);
    Unreleasable(sems, Blocked(sems))
  }

  lemma VerdictFreezes(y: System, spot: Spots, cellKey: map<nat, Key>)
    requires Inv(y, spot, cellKey) && (y.phase.Executing? || y.phase.Entering? || y.phase.Picking?)
    ensures Frozen(y, Verdict(y.s), ParkedOwners(y.s.sems, Verdict(y.s)), y.s.sems)
  {
    var d := Verdict(y.s);
    var pruned := PruneQueues(y.s.meta, y.s.sems);
    VerdictIsSelfSupporting(pruned, Blocked(pruned));
    VerdictHolders(y.s.meta, y.s.sems, d);
    VerdictFreezesState(y.s, y.s.board.ready + HeldItems(y), spot, d);
  }

  lemma FlyingIsNotParked(items: set<Item>, spot: Spots, sems: map<nat, Sem>, d: set<nat>, x: Item)
    requires ItemsPlaced(items, spot) && SemsPlaced(sems, spot) && x in items && x.entry.Permit?
    ensures !ParkedBehind(sems, d, x.entry.owner)
  {
  }

  lemma VerdictFreezesState(s: State, items: set<Item>, spot: Spots, d: set<nat>)
    requires ItemsPlaced(items, spot) && SemsPlaced(s.sems, spot) && SemsSound(s.sems) && PermitsHeld(items, s.sems)
    requires forall sid :: sid in d ==> sid in s.sems && s.sems[sid].queue != []
    requires forall sid, o :: sid in d && o in s.sems[sid].holders ==> ParkedBehind(s.sems, d, o)
    ensures FrozenState(s, items, d, ParkedOwners(s.sems, d), s.sems)
    ensures forall o :: o in ParkedOwners(s.sems, d) ==> o in spot
  {
    forall o | ParkedBehind(s.sems, d, o) ensures o in spot && spot[o].AtSem? && o in ParkedOwners(s.sems, d) {
      var sid, p :| sid in d && sid in s.sems && p in s.sems[sid].queue && p.owner == o;
      assert spot[o] == AtSem(sid, p.cont);
    }
    forall o | o in ParkedOwners(s.sems, d) ensures ParkedBehind(s.sems, d, o) {}
    forall x | x in items && x.entry.Permit? ensures x.entry.sid !in d {
      if x.entry.sid in d {
        FlyingIsNotParked(items, spot, s.sems, d, x);
      }
    }
  }

  lemma {:induction false} LiveQueueShrinks(meta: map<Key, Meta>, q: seq<Parked>)
    ensures forall p :: p in LiveQueue(meta, q) ==> p in q
  {
    if q != [] {
      LiveQueueShrinks(meta, q[1..]);
      assert q == [q[0]] + q[1..];
    }
  }

  lemma VerdictHolders(meta: map<Key, Meta>, sems: map<nat, Sem>, d: set<nat>)
    requires d <= Blocked(PruneQueues(meta, sems)) && SelfSupporting(PruneQueues(meta, sems), d)
    ensures forall sid :: sid in d ==> sid in sems && sems[sid].queue != []
    ensures forall sid, o :: sid in d && o in sems[sid].holders ==> ParkedBehind(sems, d, o)
  {
    var pruned := PruneQueues(meta, sems);
    forall sid | sid in d ensures sid in sems && sems[sid].queue != [] {
      assert sid in Blocked(pruned);
    }
    forall sid, o | sid in d && o in sems[sid].holders ensures ParkedBehind(sems, d, o) {
      assert Hopeless(pruned, d, sid);
      assert ParkedBehind(pruned, d, o);
      var i, p :| i in d && i in pruned && p in pruned[i].queue && p.owner == o;
      LiveQueueShrinks(meta, sems[i].queue);
      assert p in sems[i].queue;
    }
  }

  /** The verdict is sound.  Take any reachable state, D the verdict there, and let the run go
      on in any way (with the deadlock checks switched off if need be), as long as only
      holders release.  Then every semaphore of D keeps its holders and has no permit free or
      in flight, and nobody who was parked behind D ever runs again. */
  lemma VerdictIsSound(acts: seq<Action>, more: seq<Action>, diagnose: bool, goOn: bool, sid: nat, o: Owner)
    requires Possible(START, acts, diagnose) && Possible(After(START, acts, diagnose), more, goOn)
    requires DisciplinedRun(After(START, acts, diagnose), more, goOn)
    requires var p := After(START, acts, diagnose).phase; p.Executing? || p.Entering? || p.Picking?
    ensures var y := After(START, acts, diagnose); var z := After(y, more, goOn); var d := Verdict(y.s);
            && (sid in d ==>
                  && sid in y.s.sems && sid in z.s.sems && z.s.sems[sid].permits == 0
                  && z.s.sems[sid].holders == y.s.sems[sid].holders
                  && forall x :: x in z.s.board.ready && x.entry.Permit? ==> x.entry.sid != sid)
            && (ParkedBehind(y.s.sems, d, o) ==> z.phase != Executing(o))
  {
    var y := After(START, acts, diagnose);
    var spot, cellKey := RunsAreSound(acts, diagnose);
    VerdictFreezes(y, spot, cellKey);
    RunFrozen(y, more, goOn, spot, cellKey, Verdict(y.s), ParkedOwners(y.s.sems, Verdict(y.s)), y.s.sems);
  }
}
