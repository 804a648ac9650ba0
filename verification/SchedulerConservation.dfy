/** Permits are conserved when only holders release. */
module SchedulerConservation {
  import opened SchedulerModel
  import opened SchedulerSteps
  import opened SchedulerInvariant
  import opened SchedulerPermits
  import opened SchedulerRuns
  import opened SchedulerSafety

  // ---- How steps change semaphores -----------------------------------------

  lemma {:induction false} DrainSems(s: State)
    ensures Drain(s).sems == s.sems
    ensures forall o :: IsCancelled(Drain(s).meta, o) <==> IsCancelled(s.meta, o)
    decreases |s.queue|
  {
    if s.queue != [] {
      DrainSems(DrainOne(s));
    }
  }

  lemma SettlingSems(s: State, o: Owner, k: nat, e: Effect, live: set<nat>, h: nat)
    requires e.TaskCompleted? ==> o.Of? && TaskKey(o.tid) in s.meta
    requires e.TaskCompleted? || e.Cancel? || e.CompletePromise? || e.FailPromise?
    ensures Handling(s, o, k, e, live, h).0.sems == s.sems
  {
  }

  lemma WaitingSems(s: State, o: Owner, k: nat, e: Effect, live: set<nat>, h: nat)
    requires e.Wait? || e.Gather? || e.Race?
    ensures Handling(s, o, k, e, live, h).0.sems == s.sems
  {
  }

  lemma SpawnSems(s: State, o: Owner, k: nat, prio: int, daemon: bool, live: set<nat>, h: nat)
    ensures HandleSpawn(s, o, k, prio, daemon, live, h).0.sems == s.sems
  {
    assert FreshId(s, live).sems == s.sems;
  }

  lemma CreateSems(s: State, external: bool, live: set<nat>, h: nat)
    ensures HandleCreate(s, external, live, h).0.sems == s.sems
  {
    assert FreshId(s, live).sems == s.sems;
  }

  lemma CreatingSems(s: State, o: Owner, k: nat, e: Effect, live: set<nat>, h: nat)
    requires e.Spawn? || e.CreatePromise? || e.CreateExternalPromise?
    ensures Handling(s, o, k, e, live, h).0.sems == s.sems
  {
    if e.Spawn? {
      SpawnSems(s, o, k, e.priority, e.daemon, live, h);
    } else {
      CreateSems(s, e.CreateExternalPromise?, live, h);
    }
  }

  lemma HandlingSems(s: State, o: Owner, k: nat, e: Effect, live: set<nat>, h: nat)
    requires e.TaskCompleted? ==> o.Of? && TaskKey(o.tid) in s.meta
    requires !e.Acquire? && !e.Release? && !e.CreateSemaphore?
    ensures Handling(s, o, k, e, live, h).0.sems == s.sems
  {
    if e.TaskCompleted? || e.Cancel? || e.CompletePromise? || e.FailPromise? {
      SettlingSems(s, o, k, e, live, h);
    } else if e.Wait? || e.Gather? || e.Race? {
      WaitingSems(s, o, k, e, live, h);
    } else {
      CreatingSems(s, o, k, e, live, h);
    }
  }

  /** A turn leaves the semaphores alone, prunes their queues, or returns the permit of a
      cancelled owner's entry. */
  ghost predicate TurnedSems(s: State, sems: map<nat, Sem>) {
    || sems == s.sems
    || sems == PruneQueues(s.meta, s.sems)
    || exists x :: x in s.board.ready && x.entry.Permit? && IsCancelled(s.meta, x.entry.owner) && x.entry.sid in s.sems
                   && sems == ReturnPermit(Pop(s, x), x.entry.sid, x.entry.owner).sems
  }

  lemma PlaceholderTurnSems(s: State, x: Item, held: set<Item>, shield: bool, diagnose: bool)
    requires x.entry.Placeholder?
    ensures var t := PopTurn(s, x, held, shield, diagnose);
            !t.Blocking? ==> t.s.sems == s.sems || t.s.sems == PruneQueues(s.meta, s.sems)
  {
    var s1 := Pop(s, x);
    DrainSems(s1);
    DrainSems(s1.(sems := PruneQueues(s1.meta, s1.sems)));
  }

  lemma PopTurnSems(s: State, x: Item, held: set<Item>, shield: bool, diagnose: bool)
    requires x in s.board.ready
    ensures var t := PopTurn(s, x, held, shield, diagnose); !t.Blocking? ==> TurnedSems(s, t.s.sems)
  {
    if x.entry.Placeholder? {
      PlaceholderTurnSems(s, x, held, shield, diagnose);
    }
  }

  lemma PickTurnSems(s: State, held: set<Item>, shield: bool, diagnose: bool)
    ensures var t := PickTurn(s, held, shield, diagnose); !t.Blocking? ==> TurnedSems(s, t.s.sems)
  {
    if s.board.ready == {} {
      DrainSems(s.(sems := PruneQueues(s.meta, s.sems)));
    } else {
      PopTurnSems(s, Least(s.board.ready), held, shield, diagnose);
    }
  }

  // ---- What is granted and released ----------------------------------------

  /** Only an owner counted as holder releases. */
  ghost predicate Disciplined(y: System, a: Action) {
    a.Perform? && a.e.Release? ==>
      y.phase.Executing? && a.e.sid in y.s.sems && y.phase.owner in y.s.sems[a.e.sid].holders
  }

  ghost predicate DisciplinedRun(y: System, acts: seq<Action>, diagnose: bool)
    requires Possible(y, acts, diagnose)
    decreases |acts|
  {
    acts != [] ==> Disciplined(y, acts[0]) && DisciplinedRun(Step(y, acts[0], diagnose), acts[1..], diagnose)
  }

  /** What a grant does to the semaphore: the first live waiter gets the permit and is a holder. */
  lemma GrantEffect(s: State, sid: nat)
    requires sid in s.sems
    ensures var (s1, granted) := Grant(s, sid); var q := FromLive(s.meta, s.sems[sid].queue);
            && sid in s1.sems && granted == (q != [])
            && s1.sems == s.sems[sid := s1.sems[sid]]
            && s1.sems[sid].permits == s.sems[sid].permits && s1.sems[sid].maxPermits == s.sems[sid].maxPermits
            && s1.sems[sid].queue == (if granted then q[1..] else [])
            && s1.sems[sid].holders
               == (if granted then s.sems[sid].holders + multiset{q[0].owner} else s.sems[sid].holders)
  {
  }

  /** A release of the semaphore goes through: somebody who is not cancelled waits for a permit, or
      not all permits are free. */
  predicate Accepts(s: State, sid: nat)
    requires sid in s.sems
  {
    || (exists p :: p in s.sems[sid].queue && !IsCancelled(s.meta, p.owner))
    || s.sems[sid].permits < s.sems[sid].maxPermits
  }

  lemma {:induction false} SomebodyLive(meta: map<Key, Meta>, q: seq<Parked>)
    ensures FromLive(meta, q) != [] <==> exists p :: p in q && !IsCancelled(meta, p.owner)
  {
    if q != [] {
      if IsCancelled(meta, q[0].owner) {
        SomebodyLive(meta, q[1..]);
        assert q == [q[0]] + q[1..];
      } else {
        assert q[0] in q;
      }
    }
  }

  /** A release is refused exactly when the semaphore does not accept it, whoever makes it. */
  lemma RefusedIffNotAccepted(s: State, o: Owner, sid: nat)
    requires sid in s.sems
    ensures HandleRelease(s, o, sid).1 == Resumed(Nothing) <==> Accepts(s, sid)
    ensures HandleRelease(s, o, sid).1.Thrown? <==> !Accepts(s, sid)
  {
    SomebodyLive(s.meta, s.sems[sid].queue);
    GrantEffect(s, sid);
  }

  /** What was completed from outside makes no difference to that. */
  lemma DrainAccepts(s: State, sid: nat)
    requires sid in s.sems
    ensures sid in Drain(s).sems && (Accepts(Drain(s), sid) <==> Accepts(s, sid))
  {
    DrainSems(s);
  }

  /** What a release that is accepted does to the semaphore. */
  lemma ReleaseEffect(s: State, o: Owner, sid: nat)
    requires sid in s.sems && Accepts(s, sid)
    ensures var (s', reply) := HandleRelease(s, o, sid); var (s1, granted) := Grant(s, sid);
            && reply == Resumed(Nothing) && s'.meta == s.meta && sid in s1.sems && sid in s'.sems
            && s'.sems == s.sems[sid := s'.sems[sid]]
            && s'.sems[sid] == s1.sems[sid].(permits := s.sems[sid].permits + (if granted then 0 else 1),
                                             holders := s1.sems[sid].holders - multiset{o})
  {
    SomebodyLive(s.meta, s.sems[sid].queue);
    GrantEffect(s, sid);
    var s1 := Grant(s, sid).0;
    var s2 := DropHolder(s1, sid, o);
    assert s2.sems == s.sems[sid := s2.sems[sid]];
  }

  // ---- Permits are counted -------------------------------------------------

  /** How many permits there are, free or held, beyond those the semaphore was made with. */
  function Excess(sem: Sem): int { sem.permits + |sem.holders| - sem.maxPermits }

  function ExcessOf(sems: map<nat, Sem>, sid: nat): int {
    if sid in sems then Excess(sems[sid]) else 0
  }

  lemma OneLess(m: multiset<Owner>, o: Owner)
    ensures |m - multiset{o}| == |m| - (if o in m then 1 else 0)
  {
    if o !in m {
      assert m - multiset{o} == m;
    }
  }

  lemma OneMore(m: multiset<Owner>, o: Owner)
    ensures |m + multiset{o}| == |m| + 1
  {
  }

  /** The releaser is a holder once the permit has moved on. */
  predicate CountsAsHolder(s: State, o: Owner, sid: nat)
    requires sid in s.sems
  {
    var q := FromLive(s.meta, s.sems[sid].queue);
    o in s.sems[sid].holders || (q != [] && q[0].owner == o)
  }

  /** A release leaves the excess as it is if the semaphore does not accept it or a holder makes it;
      any other one adds one to it. */
  lemma ReleaseExcess(s: State, o: Owner, sid: nat, i: nat)
    requires sid in s.sems
    ensures var stray := i == sid && Accepts(s, sid) && !CountsAsHolder(s, o, sid);
            ExcessOf(HandleRelease(s, o, sid).0.sems, i) == ExcessOf(s.sems, i) + (if stray then 1 else 0)
  {
    var sem, q := s.sems[sid], FromLive(s.meta, s.sems[sid].queue);
    GrantEffect(s, sid);
    if Accepts(s, sid) {
      ReleaseEffect(s, o, sid);
      OneLess(Grant(s, sid).0.sems[sid].holders, o);
      if q != [] {
        OneMore(sem.holders, q[0].owner);
      }
    } else {
      RefusedExcess(s, o, sid, i);
    }
  }

  lemma RefusedExcess(s: State, o: Owner, sid: nat, i: nat)
    requires sid in s.sems && !Accepts(s, sid)
    ensures ExcessOf(HandleRelease(s, o, sid).0.sems, i) == ExcessOf(s.sems, i)
  {
    SomebodyLive(s.meta, s.sems[sid].queue);
    GrantEffect(s, sid);
  }

  lemma ReturnEffect(s: State, sid: nat, o: Owner)
    requires sid in s.sems
    ensures var sems, q := ReturnPermit(s, sid, o).sems, FromLive(s.meta, s.sems[sid].queue);
            var left := s.sems[sid].holders - multiset{o};
            && sid in sems && sems == s.sems[sid := sems[sid]] && sems[sid].maxPermits == s.sems[sid].maxPermits
            && sems[sid].permits == s.sems[sid].permits + (if q != [] then 0 else 1)
            && sems[sid].holders == (if q != [] then left + multiset{q[0].owner} else left)
  {
    var s1 := DropHolder(s, sid, o);
    GrantEffect(s1, sid);
    assert s1.sems == s.sems[sid := s1.sems[sid]];
  }

  lemma ReturnedExcess(a: Sem, b: Sem, o: Owner, q: seq<Parked>)
    requires o in a.holders && b.maxPermits == a.maxPermits && b.permits == a.permits + (if q != [] then 0 else 1)
    requires var left := a.holders - multiset{o};
             b.holders == (if q != [] then left + multiset{q[0].owner} else left)
    ensures Excess(b) == Excess(a)
  {
    OneLess(a.holders, o);
    if q != [] {
      OneMore(a.holders - multiset{o}, q[0].owner);
    }
  }

  lemma SameExcess(sems: map<nat, Sem>, sems': map<nat, Sem>, sid: nat, i: nat)
    requires sid in sems && sid in sems' && sems' == sems[sid := sems'[sid]] && Excess(sems'[sid]) == Excess(sems[sid])
    ensures ExcessOf(sems', i) == ExcessOf(sems, i)
  {
  }

  lemma ReturnExcess(s: State, sid: nat, o: Owner, i: nat)
    requires sid in s.sems && o in s.sems[sid].holders
    ensures ExcessOf(ReturnPermit(s, sid, o).sems, i) == ExcessOf(s.sems, i)
  {
    ReturnEffect(s, sid, o);
    ReturnedExcess(s.sems[sid], ReturnPermit(s, sid, o).sems[sid], o, FromLive(s.meta, s.sems[sid].queue));
    SameExcess(s.sems, ReturnPermit(s, sid, o).sems, sid, i);
  }

  lemma AcquireExcess(s: State, o: Owner, k: nat, sid: nat, i: nat)
    requires sid in s.sems
    ensures ExcessOf(HandleAcquire(s, o, k, sid).0.sems, i) == ExcessOf(s.sems, i)
  {
    OneMore(s.sems[sid].holders, o);
  }

  lemma SemaphoreExcess(s: State, permits: int, live: set<nat>, i: nat)
    requires s.nextId !in s.sems
    ensures ExcessOf(HandleSemaphore(s, permits, live).0.sems, i) == ExcessOf(s.sems, i)
  {
  }

  lemma OtherExcess(s: State, o: Owner, k: nat, e: Effect, live: set<nat>, h: nat, i: nat)
    requires e.TaskCompleted? ==> o.Of? && TaskKey(o.tid) in s.meta
    requires !e.Acquire? && !e.Release? && !e.CreateSemaphore?
    ensures ExcessOf(Handling(s, o, k, e, live, h).0.sems, i) == ExcessOf(s.sems, i)
  {
    HandlingSems(s, o, k, e, live, h);
  }

  lemma HandlingExcess(s: State, o: Owner, k: nat, e: Effect, live: set<nat>, h: nat, i: nat)
    requires e.TaskCompleted? ==> o.Of? && TaskKey(o.tid) in s.meta
    requires (e.Acquire? || e.Release? ==> e.sid in s.sems) && s.nextId !in s.sems
    ensures var stray := e == Release(i) && Accepts(s, i) && !CountsAsHolder(s, o, i);
            ExcessOf(Handling(s, o, k, e, live, h).0.sems, i) == ExcessOf(s.sems, i) + (if stray then 1 else 0)
  {
    if e.Release? {
      ReleaseExcess(s, o, e.sid, i);
    } else if e.Acquire? {
      AcquireExcess(s, o, k, e.sid, i);
    } else if e.CreateSemaphore? {
      SemaphoreExcess(s, e.permits, live, i);
    } else {
      OtherExcess(s, o, k, e, live, h, i);
    }
  }

  lemma TurnExcess(s: State, items: set<Item>, sems: map<nat, Sem>, i: nat)
    requires TurnedSems(s, sems) && s.board.ready <= items && PermitsHeld(items, s.sems)
    ensures ExcessOf(sems, i) == ExcessOf(s.sems, i)
  {
    if sems != s.sems && sems != PruneQueues(s.meta, s.sems) {
      var x :| x in s.board.ready && x.entry.Permit? && IsCancelled(s.meta, x.entry.owner) && x.entry.sid in s.sems
               && sems == ReturnPermit(Pop(s, x), x.entry.sid, x.entry.owner).sems;
      assert x in items;
      ReturnExcess(Pop(s, x), x.entry.sid, x.entry.owner, i);
    }
  }

  /** A release of `sid` that it accepts, by somebody who is not among its holders. */
  ghost predicate Stray(y: System, a: Action, sid: nat) {
    && a == Perform(Release(sid)) && y.phase.Executing? && sid in y.s.sems
    && y.phase.owner !in y.s.sems[sid].holders && Accepts(y.s, sid)
  }

  lemma NotWaiting(s: State, spot: Spots, o: Owner, sid: nat)
    requires SemsPlaced(s.sems, spot) && o !in spot && sid in s.sems
    ensures CountsAsHolder(s, o, sid) <==> o in s.sems[sid].holders
  {
    FromLiveMembers(s.meta, s.sems[sid].queue);
  }

  lemma PerformExcess(y: System, e: Effect, spot: Spots, cellKey: map<nat, Key>, i: nat)
    requires Inv(y, spot, cellKey) && y.phase.Executing? && WellTyped(Drain(y.s), y.phase.owner, e, y.handles)
    ensures ExcessOf(PerformStep(y, e).s.sems, i)
         == ExcessOf(y.s.sems, i) + (if Stray(y, Perform(e), i) then 1 else 0)
  {
    var d := Drain(y.s);
    var spot' := DrainedEntered(y, spot, cellKey);
    HandlingExcess(d, y.phase.owner, y.nextCont, e, y.handles.Keys, y.nextHandle, i);
    DrainSems(y.s);
    if e.Release? {
      NotWaiting(d, spot', y.phase.owner, e.sid);
      DrainAccepts(y.s, e.sid);
    }
  }

  lemma StepExcess(y: System, a: Action, diagnose: bool, spot: Spots, cellKey: map<nat, Key>, i: nat)
    requires Inv(y, spot, cellKey) && Enabled(y, a, diagnose)
    ensures ExcessOf(Step(y, a, diagnose).s.sems, i) == ExcessOf(y.s.sems, i) + (if Stray(y, a, i) then 1 else 0)
  {
    match a
    case Perform(e) => PerformExcess(y, e, spot, cellKey, i);
    case Enter => DrainSems(y.s);
    case Dispatch =>
      PickTurnSems(y.s, y.phase.held, y.phase.shield, diagnose);
      var t := PickTurn(y.s, y.phase.held, y.phase.shield, diagnose);
      TurnExcess(y.s, y.s.board.ready + y.phase.held, t.s.sems, i);
    case _ =>
  }

  /** How many stray releases of `sid` a run makes. */
  ghost function Strays(y: System, acts: seq<Action>, diagnose: bool, sid: nat): nat
    requires Possible(y, acts, diagnose)
    decreases |acts|
  {
    if acts == [] then 0
    else (if Stray(y, acts[0], sid) then 1 else 0) + Strays(Step(y, acts[0], diagnose), acts[1..], diagnose, sid)
  }

  lemma {:induction false} RunExcess(y: System, acts: seq<Action>, diagnose: bool, spot: Spots, cellKey: map<nat, Key>,
                                     i: nat)
    requires Inv(y, spot, cellKey) && Possible(y, acts, diagnose)
    ensures ExcessOf(After(y, acts, diagnose).s.sems, i) == ExcessOf(y.s.sems, i) + Strays(y, acts, diagnose, i)
    decreases |acts|
  {
    if acts != [] {
      StepExcess(y, acts[0], diagnose, spot, cellKey, i);
      var spot1, cellKey1 := StepKeeps(y, acts[0], diagnose, spot, cellKey);
      RunExcess(Step(y, acts[0], diagnose), acts[1..], diagnose, spot1, cellKey1, i);
    }
  }

  /** In every state of every run, free and held permits (those in flight included) are those the
      semaphore was made with and one for each stray release so far. */
  lemma PermitsAreCounted(acts: seq<Action>, diagnose: bool, sid: nat)
    requires Possible(START, acts, diagnose)
    ensures var y := After(START, acts, diagnose);
            sid in y.s.sems ==>
              y.s.sems[sid].permits + |y.s.sems[sid].holders|
              == y.s.sems[sid].maxPermits + Strays(START, acts, diagnose, sid)
  {
    StartSatisfies();
    RunExcess(START, acts, diagnose, map[], map[], sid);
  }

  /** Every release of `sid` that it accepts is made by one of its holders. */
  ghost predicate OnlyHoldersRelease(y: System, acts: seq<Action>, diagnose: bool, sid: nat)
    requires Possible(y, acts, diagnose)
    decreases |acts|
  {
    acts != [] ==>
      !Stray(y, acts[0], sid) && OnlyHoldersRelease(Step(y, acts[0], diagnose), acts[1..], diagnose, sid)
  }

  lemma {:induction false} NoStrays(y: System, acts: seq<Action>, diagnose: bool, sid: nat)
    requires Possible(y, acts, diagnose)
    ensures Strays(y, acts, diagnose, sid) == 0 <==> OnlyHoldersRelease(y, acts, diagnose, sid)
    ensures DisciplinedRun(y, acts, diagnose) ==> OnlyHoldersRelease(y, acts, diagnose, sid)
    decreases |acts|
  {
    if acts != [] {
      NoStrays(Step(y, acts[0], diagnose), acts[1..], diagnose, sid);
    }
  }

  /** Exactly when permits are conserved: if and only if only holders released. */
  lemma PermitsAreConservedIff(acts: seq<Action>, diagnose: bool, sid: nat)
    requires Possible(START, acts, diagnose) && sid in After(START, acts, diagnose).s.sems
    ensures var sem := After(START, acts, diagnose).s.sems[sid];
            sem.permits + |sem.holders| == sem.maxPermits <==> OnlyHoldersRelease(START, acts, diagnose, sid)
  {
    PermitsAreCounted(acts, diagnose, sid);
    NoStrays(START, acts, diagnose, sid);
  }

  /** ... and then a holder's release is never refused. */
  lemma HoldersMayRelease(acts: seq<Action>, diagnose: bool, sid: nat)
    requires Possible(START, acts, diagnose) && OnlyHoldersRelease(START, acts, diagnose, sid)
    requires var y := After(START, acts, diagnose);
             y.phase.Executing? && sid in y.s.sems && y.phase.owner in y.s.sems[sid].holders
    ensures var y := After(START, acts, diagnose);
            sid in Drain(y.s).sems && HandleRelease(Drain(y.s), y.phase.owner, sid).1 == Resumed(Nothing)
  {
    var y := After(START, acts, diagnose);
    PermitsAreConservedIff(acts, diagnose, sid);
    OneLess(y.s.sems[sid].holders, y.phase.owner);
    DrainAccepts(y.s, sid);
    RefusedIffNotAccepted(Drain(y.s), y.phase.owner, sid);
  }

  /** Discipline or not: a permit in flight is held by the owner it travels to, so returning
      it finds that holder; and a semaphore with a free permit has no waiter. */
  lemma PermitsInFlight(acts: seq<Action>, diagnose: bool, x: Item, sid: nat)
    requires Possible(START, acts, diagnose)
    ensures var y := After(START, acts, diagnose);
            && (x in y.s.board.ready + HeldItems(y) && x.entry.Permit? ==>
                  x.entry.sid in y.s.sems && x.entry.owner in y.s.sems[x.entry.sid].holders)
            && (sid in y.s.sems && y.s.sems[sid].permits > 0 ==> y.s.sems[sid].queue == [])
  {
    var spot, cellKey := RunsAreSound(acts, diagnose);
  }
}
