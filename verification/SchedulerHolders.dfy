/** A semaphore with one permit is a lock: who got the permit is its only holder until it
    releases it, whatever else the scheduler does. */
module SchedulerHolders {
  import opened SchedulerModel
  import opened SchedulerSteps
  import opened SchedulerInvariant
  import opened SchedulerRuns
  import opened SchedulerSafety
  import opened SchedulerResults
  import opened SchedulerConservation
  import opened SchedulerDelivery
  import opened SchedulerFairness
  import opened SchedulerFlights

  predicate CarriesPermit(x: Item, sid: nat) { x.entry.Permit? && x.entry.sid == sid }

  ghost predicate InFlight(items: set<Item>, sid: nat) { exists x :: x in items && CarriesPermit(x, sid) }

  /** There is one permit, free, held or in flight. */
  predicate IsLock(y: System, sid: nat) {
    sid in y.s.sems && y.s.sems[sid].maxPermits == 1 && ExcessOf(y.s.sems, sid) == 0
  }

  /** The permit is `o`'s: it is not in flight. */
  ghost predicate Holds(y: System, sid: nat, o: Owner) {
    && IsLock(y, sid) && y.s.sems[sid].permits == 0 && y.s.sems[sid].holders == multiset{o}
    && !InFlight(y.s.board.ready + HeldItems(y), sid)
  }

  lemma OnlyHolder(m: multiset<Owner>, o: Owner)
    requires o in m && |m| <= 1
    ensures m == multiset{o}
  {
    OneLess(m, o);
    assert m == m - multiset{o} + multiset{o};
  }

  // ---- No permit out of nowhere --------------------------------------------

  lemma DrainNoPermit(s: State, sid: nat)
    requires !InFlight(s.board.ready, sid)
    ensures !InFlight(Drain(s).board.ready, sid)
  {
    DrainAddsNoPermits(s);
  }

  lemma HandlingNoPermit(s: State, o: Owner, k: nat, e: Effect, live: set<nat>, h: nat, sid: nat)
    requires e.TaskCompleted? ==> o.Of? && TaskKey(o.tid) in s.meta
    requires e.Acquire? || e.Release? ==> e.sid in s.sems
    requires e != Release(sid) && !InFlight(s.board.ready, sid)
    ensures !InFlight(Handling(s, o, k, e, live, h).0.board.ready, sid)
  {
    HandlingAddsPermits(s, o, k, e, live, h);
  }

  lemma TurnNoPermit(s: State, held: set<Item>, shield: bool, diagnose: bool, sid: nat)
    requires !InFlight(s.board.ready + held, sid)
    ensures var t := PickTurn(s, held, shield, diagnose);
            !t.Blocking? ==> !InFlight(t.s.board.ready + HeldAfter(t), sid)
  {
    PickTurnPermits(s, held, shield, diagnose);
    assert forall z :: z in s.board.ready ==> z in s.board.ready + held && !CarriesPermit(z, sid);
  }

  // ---- Permits and holders of a semaphore ----------------------------------

  predicate SameButQueue(a: Sem, b: Sem) {
    b.permits == a.permits && b.maxPermits == a.maxPermits && b.holders == a.holders
  }

  lemma ReleaseSem(s: State, o: Owner, at: nat, sid: nat)
    requires at in s.sems && sid in s.sems
    ensures var sems' := HandleRelease(s, o, at).0.sems;
            && sid in sems' && sems'[sid].maxPermits == s.sems[sid].maxPermits
            && (at != sid ==> sems'[sid] == s.sems[sid])
  {
    GrantEffect(s, at);
  }

  /** The semaphore is kept as made; it changes hands only by an acquisition or release of it, and
      when its permit in flight comes back. */
  lemma HandlingSem(s: State, o: Owner, k: nat, e: Effect, live: set<nat>, h: nat, sid: nat)
    requires e.TaskCompleted? ==> o.Of? && TaskKey(o.tid) in s.meta
    requires e.Acquire? || e.Release? ==> e.sid in s.sems
    requires sid in s.sems && s.nextId !in s.sems
    ensures var sems' := Handling(s, o, k, e, live, h).0.sems;
            && sid in sems' && sems'[sid].maxPermits == s.sems[sid].maxPermits
            && (e != Acquire(sid) && e != Release(sid) ==> SameButQueue(s.sems[sid], sems'[sid]))
  {
    if e.Release? {
      ReleaseSem(s, o, e.sid, sid);
    } else if !e.Acquire? && !e.CreateSemaphore? {
      HandlingSems(s, o, k, e, live, h);
    }
  }

  lemma ReturnSem(s: State, at: nat, o: Owner, sid: nat)
    requires at in s.sems && sid in s.sems
    ensures var sems' := ReturnPermit(s, at, o).sems;
            && sid in sems' && sems'[sid].maxPermits == s.sems[sid].maxPermits
            && (at != sid ==> sems'[sid] == s.sems[sid])
  {
    GrantEffect(DropHolder(s, at, o), at);
  }

  lemma TurnSem(s: State, sems: map<nat, Sem>, sid: nat)
    requires sid in s.sems && TurnedSems(s, sems)
    ensures sid in sems && sems[sid].maxPermits == s.sems[sid].maxPermits
    ensures !InFlight(s.board.ready, sid) ==> SameButQueue(s.sems[sid], sems[sid])
  {
    if sems != s.sems && sems != PruneQueues(s.meta, s.sems) {
      var x :| x in s.board.ready && x.entry.Permit? && IsCancelled(s.meta, x.entry.owner) && x.entry.sid in s.sems
               && sems == ReturnPermit(Pop(s, x), x.entry.sid, x.entry.owner).sems;
      ReturnSem(Pop(s, x), x.entry.sid, x.entry.owner, sid);
      assert CarriesPermit(x, x.entry.sid);
    }
  }

  lemma PerformSem(y: System, e: Effect, spot: Spots, cellKey: map<nat, Key>, sid: nat)
    requires Inv(y, spot, cellKey) && y.phase.Executing? && WellTyped(Drain(y.s), y.phase.owner, e, y.handles)
    requires sid in y.s.sems
    ensures var sems' := PerformStep(y, e).s.sems;
            && sid in sems' && sems'[sid].maxPermits == y.s.sems[sid].maxPermits
            && (e != Acquire(sid) && e != Release(sid) ==> SameButQueue(y.s.sems[sid], sems'[sid]))
  {
    var spot' := DrainedEntered(y, spot, cellKey);
    HandlingSem(Drain(y.s), y.phase.owner, y.nextCont, e, y.handles.Keys, y.nextHandle, sid);
  }

  lemma StepSem(y: System, a: Action, diagnose: bool, spot: Spots, cellKey: map<nat, Key>, sid: nat)
    requires Inv(y, spot, cellKey) && Enabled(y, a, diagnose) && sid in y.s.sems
    ensures var z := Step(y, a, diagnose);
            && sid in z.s.sems && z.s.sems[sid].maxPermits == y.s.sems[sid].maxPermits
            && (a != Perform(Acquire(sid)) && a != Perform(Release(sid))
                && !InFlight(y.s.board.ready + HeldItems(y), sid) ==>
                  SameButQueue(y.s.sems[sid], z.s.sems[sid]))
  {
    match a
    case Perform(e) => PerformSem(y, e, spot, cellKey, sid);
    case Enter => DrainSems(y.s);
    case Dispatch =>
      PickTurnSems(y.s, y.phase.held, y.phase.shield, diagnose);
      TurnSem(y.s, PickTurn(y.s, y.phase.held, y.phase.shield, diagnose).s.sems, sid);
    case _ =>
  }

  lemma PerformNoPermit(y: System, e: Effect, sid: nat)
    requires y.phase.Executing? && WellTyped(Drain(y.s), y.phase.owner, e, y.handles)
    requires e != Release(sid) && !InFlight(y.s.board.ready + HeldItems(y), sid)
    ensures var z := PerformStep(y, e); !InFlight(z.s.board.ready + HeldItems(z), sid)
  {
    assert y.s.board.ready + {} == y.s.board.ready;
    DrainNoPermit(y.s, sid);
    HandlingNoPermit(Drain(y.s), y.phase.owner, y.nextCont, e, y.handles.Keys, y.nextHandle, sid);
  }

  lemma DispatchNoPermit(y: System, diagnose: bool, sid: nat)
    requires Enabled(y, Dispatch, diagnose) && !InFlight(y.s.board.ready + y.phase.held, sid)
    ensures var z := DispatchStep(y, diagnose); !InFlight(z.s.board.ready + HeldItems(z), sid)
  {
    TurnNoPermit(y.s, y.phase.held, y.phase.shield, diagnose, sid);
  }

  lemma QuietNoPermit(y: System, a: Action, diagnose: bool, sid: nat)
    requires Enabled(y, a, diagnose) && !a.Perform? && !a.Dispatch?
    requires !InFlight(y.s.board.ready + HeldItems(y), sid)
    ensures var z := Step(y, a, diagnose); !InFlight(z.s.board.ready + HeldItems(z), sid)
  {
    DrainAddsNoPermits(y.s);
  }

  lemma StepNoPermit(y: System, a: Action, diagnose: bool, sid: nat)
    requires Enabled(y, a, diagnose) && a != Perform(Release(sid))
    requires !InFlight(y.s.board.ready + HeldItems(y), sid)
    ensures var z := Step(y, a, diagnose); !InFlight(z.s.board.ready + HeldItems(z), sid)
  {
    if a.Perform? {
      PerformNoPermit(y, a.e, sid);
    } else if a.Dispatch? {
      DispatchNoPermit(y, diagnose, sid);
    } else {
      QuietNoPermit(y, a, diagnose, sid);
    }
  }

  // ---- The lock ------------------------------------------------------------

  /** A lock stays one, as long as only its holders release it. */
  lemma LockStays(y: System, a: Action, diagnose: bool, spot: Spots, cellKey: map<nat, Key>, sid: nat)
    requires Inv(y, spot, cellKey) && Enabled(y, a, diagnose) && IsLock(y, sid) && !Stray(y, a, sid)
    ensures IsLock(Step(y, a, diagnose), sid)
  {
    StepSem(y, a, diagnose, spot, cellKey, sid);
    StepExcess(y, a, diagnose, spot, cellKey, sid);
  }

  lemma ParkedAcquire(y: System, spot: Spots, cellKey: map<nat, Key>, sid: nat)
    requires Inv(y, spot, cellKey) && y.phase.Executing? && sid in y.s.sems && y.s.sems[sid].permits == 0
    ensures sid in Drain(y.s).sems
            && SameButQueue(y.s.sems[sid], PerformStep(y, Acquire(sid)).s.sems[sid])
  {
    DrainSems(y.s);
  }

  /** Who holds the permit keeps it through everything but a release of it. */
  lemma HolderStays(y: System, a: Action, diagnose: bool, spot: Spots, cellKey: map<nat, Key>, sid: nat, o: Owner)
    requires Inv(y, spot, cellKey) && Enabled(y, a, diagnose) && Holds(y, sid, o) && a != Perform(Release(sid))
    ensures Holds(Step(y, a, diagnose), sid, o)
  {
    LockStays(y, a, diagnose, spot, cellKey, sid);
    StepSem(y, a, diagnose, spot, cellKey, sid);
    StepNoPermit(y, a, diagnose, sid);
    if a == Perform(Acquire(sid)) {
      ParkedAcquire(y, spot, cellKey, sid);
    }
  }

  lemma FreeLock(y: System, spot: Spots, cellKey: map<nat, Key>, sid: nat)
    requires Inv(y, spot, cellKey) && IsLock(y, sid) && y.s.sems[sid].permits > 0
    ensures y.s.sems[sid].holders == multiset{} && y.s.sems[sid].permits == 1
    ensures !InFlight(y.s.board.ready + HeldItems(y), sid)
  {
    assert |y.s.sems[sid].holders| == 0;
  }

  ghost function ReplyTo(y: System, e: Effect): Reply
    requires y.phase.Executing? && WellTyped(Drain(y.s), y.phase.owner, e, y.handles)
  {
    Handling(Drain(y.s), y.phase.owner, y.nextCont, e, y.handles.Keys, y.nextHandle).1
  }

  /** Creating a semaphore answers at once, with a new one: nobody runs in between. */
  lemma CreatingGoesOn(y: System, diagnose: bool, spot: Spots, cellKey: map<nat, Key>)
    requires Inv(y, spot, cellKey) && y.phase.Executing?
    ensures var z := Step(y, Perform(CreateSemaphore(1)), diagnose);
            && ReplyTo(y, CreateSemaphore(1)) == Resumed(SemaphoreHandle(y.s.nextId)) && z.phase == y.phase
            && y.s.nextId !in y.s.sems && IsLock(z, y.s.nextId)
  {
    var spot' := DrainedEntered(y, spot, cellKey);
  }

  /** An acquisition that finds the permit answers at once; any other one parks its performer. */
  lemma AcquiringLocks(y: System, diagnose: bool, spot: Spots, cellKey: map<nat, Key>, sid: nat)
    requires Inv(y, spot, cellKey) && Enabled(y, Perform(Acquire(sid)), diagnose) && IsLock(y, sid)
    ensures var z := Step(y, Perform(Acquire(sid)), diagnose);
            if ReplyTo(y, Acquire(sid)).Suspended? then
              sid in z.s.sems && Parked(y.phase.owner, y.nextCont) in z.s.sems[sid].queue
            else
              && z.phase == y.phase && Holds(z, sid, y.phase.owner) && forall o :: !Holds(y, sid, o)
  {
    var d, z := Drain(y.s), Step(y, Perform(Acquire(sid)), diagnose);
    DrainSems(y.s);
    if y.s.sems[sid].permits > 0 {
      FreeLock(y, spot, cellKey, sid);
      DrainAddsNoPermits(y.s);
      LockStays(y, Perform(Acquire(sid)), diagnose, spot, cellKey, sid);
      assert multiset{} + multiset{y.phase.owner} == multiset{y.phase.owner};
    } else {
      assert z.s.sems[sid].queue == d.sems[sid].queue + [Parked(y.phase.owner, y.nextCont)];
    }
  }

  /** A holder's release answers at once. */
  lemma ReleasingGoesOn(y: System, diagnose: bool, spot: Spots, cellKey: map<nat, Key>, sid: nat)
    requires Inv(y, spot, cellKey) && Enabled(y, Perform(Release(sid)), diagnose) && Holds(y, sid, y.phase.owner)
    ensures var z := Step(y, Perform(Release(sid)), diagnose);
            && ReplyTo(y, Release(sid)) == Resumed(Nothing) && z.phase == y.phase
            && IsLock(z, sid) && forall o :: !Holds(z, sid, o)
  {
    DrainSems(y.s);
    ReleaseEffect(Drain(y.s), y.phase.owner, sid);
    LockStays(y, Perform(Release(sid)), diagnose, spot, cellKey, sid);
    GrantFlies(Drain(y.s), sid);
    ReleaseAfterGrant(Drain(y.s), y.phase.owner, sid);
  }

  lemma GrantFlies(s: State, sid: nat)
    requires sid in s.sems
    ensures Grant(s, sid).1 ==> InFlight(Grant(s, sid).0.board.ready, sid)
  {
    var q := FromLive(s.meta, s.sems[sid].queue);
    if q != [] {
      var x := Item(TaskPriority(s.meta, q[0].owner), s.board.nextSeq, Permit(q[0].owner, q[0].cont, sid));
      assert x in Grant(s, sid).0.board.ready && CarriesPermit(x, sid);
    }
  }

  // ---- Waiting for the lock ------------------------------------------------

  /** `o` is parked at the semaphore, or its permit is on the way, or it is cancelled. */
  ghost predicate WaitsFor(y: System, sid: nat, o: Owner, k: nat) {
    && sid in y.s.sems
    && (|| Parked(o, k) in y.s.sems[sid].queue
        || (exists prio :: Queued(y, Permit(o, k, sid), prio))
        || IsCancelled(y.s.meta, o))
  }

  lemma StillWaits(y: System, a: Action, diagnose: bool, spot: Spots, cellKey: map<nat, Key>, sid: nat, o: Owner,
                   k: nat)
    requires Inv(y, spot, cellKey) && Enabled(y, a, diagnose) && WaitsFor(y, sid, o, k)
    ensures WaitsFor(Step(y, a, diagnose), sid, o, k) || Chooses(y, a, diagnose, Permit(o, k, sid))
  {
    var z := Step(y, a, diagnose);
    StepMovesOn(y, a, diagnose, spot, cellKey, sid);
    StepLater(y, a, diagnose, spot, cellKey);
    if Parked(o, k) in y.s.sems[sid].queue {
      var prio := TaskPriority(y.s.meta, o);
      assert Granted(z.s.board.ready, y.s.meta, Parked(o, k), sid) ==> Queued(z, Permit(o, k, sid), prio);
    } else if !IsCancelled(y.s.meta, o) {
      var prio :| Queued(y, Permit(o, k, sid), prio);
      StepKeepsQueued(y, a, diagnose, spot, cellKey, Permit(o, k, sid), prio);
    }
  }

  lemma OnlyInFlight(y: System, spot: Spots, cellKey: map<nat, Key>, sid: nat, x: Item, v: Item)
    requires Inv(y, spot, cellKey) && IsLock(y, sid) && CarriesPermit(x, sid) && CarriesPermit(v, sid)
    requires x in y.s.board.ready + HeldItems(y) && v in y.s.board.ready + HeldItems(y)
    ensures v == x
  {
    OnlyHolder(y.s.sems[sid].holders, x.entry.owner);
    assert v.entry.owner in y.s.sems[sid].holders;
    SameOwnerSameItem(y, spot, cellKey, v, x);
  }

  /** Who takes the permit in flight is its only holder. */
  lemma OnceTaken(y: System, z: System, spot: Spots, cellKey: map<nat, Key>, sid: nat, x: Item)
    requires Inv(y, spot, cellKey) && IsLock(y, sid) && x in y.s.board.ready && CarriesPermit(x, sid)
    requires z.s == Restore(Pop(y.s, x), HeldItems(y)) && HeldItems(z) == {}
    ensures Holds(z, sid, x.entry.owner) && forall p :: !Holds(y, sid, p)
  {
    var items := y.s.board.ready + HeldItems(y);
    assert x in items;
    OnlyHolder(y.s.sems[sid].holders, x.entry.owner);
    forall v | v in items && CarriesPermit(v, sid) ensures v == x {
      OnlyInFlight(y, spot, cellKey, sid, x, v);
    }
  }

  /** Whoever runs next and was waiting for the lock has it. */
  lemma ChosenHolds(y: System, diagnose: bool, spot: Spots, cellKey: map<nat, Key>, sid: nat, o: Owner, k: nat)
    requires Inv(y, spot, cellKey) && Enabled(y, Dispatch, diagnose) && IsLock(y, sid) && WaitsFor(y, sid, o, k)
    requires Step(y, Dispatch, diagnose).phase == Executing(o)
    ensures Holds(Step(y, Dispatch, diagnose), sid, o) && forall p :: !Holds(y, sid, p)
  {
    var x := Least(y.s.board.ready);
    ChosenWaiter(y, diagnose, spot, cellKey, sid, o, k);
    OnceTaken(y, Step(y, Dispatch, diagnose), spot, cellKey, sid, x);
  }

  lemma SameOwnerSameItem(y: System, spot: Spots, cellKey: map<nat, Key>, v: Item, x: Item)
    requires Inv(y, spot, cellKey) && v in y.s.board.ready + HeldItems(y) && x in y.s.board.ready + HeldItems(y)
    requires !v.entry.Placeholder? && !x.entry.Placeholder? && EntryOwner(v.entry) == EntryOwner(x.entry)
    ensures v == x
  {
    assert SpotOf(v) == SpotOf(x);
  }

  lemma ChosenWaiter(y: System, diagnose: bool, spot: Spots, cellKey: map<nat, Key>, sid: nat, o: Owner, k: nat)
    requires Inv(y, spot, cellKey) && Enabled(y, Dispatch, diagnose) && WaitsFor(y, sid, o, k)
    requires Step(y, Dispatch, diagnose).phase == Executing(o)
    ensures var x := Least(y.s.board.ready);
            && y.s.board.ready != {} && x.entry == Permit(o, k, sid)
            && Step(y, Dispatch, diagnose).s == Restore(Pop(y.s, x), y.phase.held)
  {
    ChosenIsLive(y, diagnose, o);
    var x := Least(y.s.board.ready);
    assert x in y.s.board.ready + HeldItems(y);
    if Parked(o, k) !in y.s.sems[sid].queue {
      var prio :| Queued(y, Permit(o, k, sid), prio);
      var v :| v in y.s.board.ready + HeldItems(y) && v.entry == Permit(o, k, sid) && v.prio == prio;
      SameOwnerSameItem(y, spot, cellKey, v, x);
    }
  }

  lemma ChosenIsLive(y: System, diagnose: bool, o: Owner)
    requires Enabled(y, Dispatch, diagnose) && Step(y, Dispatch, diagnose).phase == Executing(o)
    ensures y.s.board.ready != {}
    ensures var x := Least(y.s.board.ready);
            && LiveEntry(y.s.meta, x.entry) && EntryOwner(x.entry) == o
            && Step(y, Dispatch, diagnose).s == Start(Restore(Pop(y.s, x), y.phase.held), x.entry)
  {
  }
}
