/** Semaphores serve their waiters in order of arrival, over whole runs. */
module SchedulerFairness {
  import opened SchedulerModel
  import opened SchedulerSteps
  import opened SchedulerInvariant
  import opened SchedulerPermits
  import opened SchedulerRuns
  import opened SchedulerSafety
  import opened SchedulerResults
  import opened SchedulerConservation
  import opened SchedulerDelivery

  // ---- Order in one queue --------------------------------------------------

  predicate Ahead(q: seq<Parked>, a: Parked, b: Parked) {
    exists i, j :: 0 <= i < j < |q| && q[i] == a && q[j] == b
  }

  /** Grants drop exactly the cancelled waiters ahead of the first live one. */
  lemma {:induction false} FromLiveSuffix(meta: map<Key, Meta>, q: seq<Parked>)
    ensures var r := FromLive(meta, q);
            && |r| <= |q| && r == q[|q| - |r|..]
            && (forall i :: 0 <= i < |q| - |r| ==> IsCancelled(meta, q[i].owner))
            && (r != [] ==> !IsCancelled(meta, r[0].owner))
  {
    if q != [] && IsCancelled(meta, q[0].owner) {
      FromLiveSuffix(meta, q[1..]);
      var r := FromLive(meta, q);
      assert q[|q| - |r|..] == q[1..][|q[1..]| - |r|..];
      forall i | 0 <= i < |q| - |r| ensures IsCancelled(meta, q[i].owner) {
        if i > 0 { assert q[i] == q[1..][i - 1]; }
      }
    }
  }

  /** `r` is what is left of `q`, in order, perhaps with new waiters: whoever is gone and not
      cancelled had nobody ahead but those gone or cancelled; nobody with a continuation captured
      before `n` is new. */
  ghost predicate Onward(meta: map<Key, Meta>, q: seq<Parked>, r: seq<Parked>, n: nat) {
    && (forall a, b :: Ahead(q, a, b) && a in r && b in r ==> Ahead(r, a, b))
    && (forall a, b :: Ahead(q, a, b) && a in r && b !in r ==> IsCancelled(meta, a.owner) || IsCancelled(meta, b.owner))
    && (forall a :: a in r && a !in q ==> n <= a.cont)
  }

  lemma SameOnward(meta: map<Key, Meta>, q: seq<Parked>, n: nat)
    ensures Onward(meta, q, q, n)
  {
    forall a, b | Ahead(q, a, b) && b !in q ensures false {}
  }

  lemma AppendOnward(meta: map<Key, Meta>, q: seq<Parked>, p: Parked, n: nat)
    requires n <= p.cont
    ensures Onward(meta, q, q + [p], n)
  {
    forall a, b | Ahead(q, a, b) ensures Ahead(q + [p], a, b) && b in q + [p] {
      var i, j :| 0 <= i < j < |q| && q[i] == a && q[j] == b;
      assert (q + [p])[i] == a && (q + [p])[j] == b;
    }
  }

  lemma NoDuplicatesApart(q: seq<Parked>, i: nat, j: nat)
    requires NoDuplicates(q) && i < j < |q|
    ensures q[i] != q[j]
  {
    if i == 0 {
      assert q[j] == q[1..][j - 1];
    } else {
      NoDuplicatesApart(q[1..], i - 1, j - 1);
    }
  }

  /** Leaving at the front past cancelled waiters keeps the order. */
  lemma SuffixOnward(meta: map<Key, Meta>, q: seq<Parked>, m: nat, n: nat)
    requires NoDuplicates(q) && m <= |q|
    ensures Onward(meta, q, q[m..], n)
  {
    forall a, b | Ahead(q, a, b) && a in q[m..] ensures Ahead(q[m..], a, b) && b in q[m..] {
      var i, j :| 0 <= i < j < |q| && q[i] == a && q[j] == b;
      var k :| 0 <= k < |q[m..]| && q[m..][k] == a;
      assert q[m + k] == a;
      if m + k != i {
        NoDuplicatesApart(q, if i < m + k then i else m + k, if i < m + k then m + k else i);
      }
      assert q[m..][i - m] == a && q[m..][j - m] == b;
    }
  }

  lemma {:induction false} LiveQueueOrder(meta: map<Key, Meta>, q: seq<Parked>, i: nat, j: nat)
    requires NoDuplicates(q) && i < j < |q| && !IsCancelled(meta, q[i].owner) && !IsCancelled(meta, q[j].owner)
    ensures Ahead(LiveQueue(meta, q), q[i], q[j])
  {
    var r := LiveQueue(meta, q[1..]);
    if i == 0 {
      LiveQueueMembers(meta, q[1..]);
      assert q[1..][j - 1] == q[j];
      var k :| 0 <= k < |r| && r[k] == q[j];
      assert ([q[0]] + r)[0] == q[0] && ([q[0]] + r)[k + 1] == q[j];
    } else {
      LiveQueueOrder(meta, q[1..], i - 1, j - 1);
      AheadAfter(r, q[0], q[i], q[j]);
    }
  }

  lemma AheadAfter(r: seq<Parked>, p: Parked, a: Parked, b: Parked)
    requires Ahead(r, a, b)
    ensures Ahead([p] + r, a, b)
  {
    var i, j :| 0 <= i < j < |r| && r[i] == a && r[j] == b;
    assert ([p] + r)[i + 1] == a && ([p] + r)[j + 1] == b;
  }

  lemma PrunedOnward(meta: map<Key, Meta>, q: seq<Parked>, n: nat)
    requires NoDuplicates(q)
    ensures Onward(meta, q, LiveQueue(meta, q), n)
  {
    LiveQueueMembers(meta, q);
    forall a, b | Ahead(q, a, b) && a in LiveQueue(meta, q) && b in LiveQueue(meta, q)
      ensures Ahead(LiveQueue(meta, q), a, b)
    {
      var i, j :| 0 <= i < j < |q| && q[i] == a && q[j] == b;
      LiveQueueOrder(meta, q, i, j);
    }
  }

  // ---- Grants --------------------------------------------------------------

  ghost predicate Granted(ready: set<Item>, meta: map<Key, Meta>, a: Parked, sid: nat) {
    Queues(ready, Permit(a.owner, a.cont, sid), TaskPriority(meta, a.owner))
  }

  /** The queue of `sid` goes on in order, and whoever leaves it is cancelled or granted a permit. */
  ghost predicate Passes(s: State, s': State, sid: nat, n: nat) {
    && sid in s.sems && sid in s'.sems
    && Onward(s.meta, s.sems[sid].queue, s'.sems[sid].queue, n)
    && forall a :: a in s.sems[sid].queue && a !in s'.sems[sid].queue ==>
         IsCancelled(s.meta, a.owner) || Granted(s'.board.ready, s.meta, a, sid)
  }

  lemma SamePasses(s: State, s': State, sid: nat, n: nat)
    requires sid in s.sems && sid in s'.sems && s'.sems[sid].queue == s.sems[sid].queue
    ensures Passes(s, s', sid, n)
  {
    SameOnward(s.meta, s.sems[sid].queue, n);
  }

  lemma GrantPasses(s: State, at: nat, sid: nat, n: nat)
    requires at in s.sems && sid in s.sems && NoDuplicates(s.sems[sid].queue)
    ensures Passes(s, Grant(s, at).0, sid, n)
  {
    var s' := Grant(s, at).0;
    var q := s.sems[sid].queue;
    if at == sid {
      var r := FromLive(s.meta, q);
      var m := if r == [] then |q| else |q| - |r| + 1;
      FromLiveSuffix(s.meta, q);
      assert s'.sems[sid].queue == q[m..];
      SuffixOnward(s.meta, q, m, n);
      forall a | a in q && a !in q[m..]
        ensures IsCancelled(s.meta, a.owner) || Granted(s'.board.ready, s.meta, a, sid)
      {
        var i :| 0 <= i < |q| && q[i] == a;
        if i == |q| - |r| {
          assert r[0] == a;
          assert Item(TaskPriority(s.meta, a.owner), s.board.nextSeq, Permit(a.owner, a.cont, sid)) in s'.board.ready;
        }
      }
    } else {
      SamePasses(s, s', sid, n);
    }
  }

  /** Banking a permit and dropping a holder leave queues and heap alone. */
  ghost predicate SameQueues(s: State, s': State) {
    && s'.sems.Keys == s.sems.Keys && s'.board.ready == s.board.ready
    && forall sid :: sid in s.sems ==> s'.sems[sid].queue == s.sems[sid].queue
  }

  lemma PassesOn(s: State, s1: State, s2: State, s3: State, sid: nat, n: nat)
    requires SameQueues(s, s1) && s1.meta == s.meta && Passes(s1, s2, sid, n) && SameQueues(s2, s3)
    ensures Passes(s, s3, sid, n)
  {
  }

  lemma ReleaseAfterGrant(s: State, o: Owner, sid: nat)
    requires sid in s.sems
    ensures SameQueues(Grant(s, sid).0, HandleRelease(s, o, sid).0)
  {
  }

  lemma ReleasePasses(s: State, o: Owner, at: nat, sid: nat, n: nat)
    requires at in s.sems && sid in s.sems && NoDuplicates(s.sems[sid].queue)
    ensures Passes(s, HandleRelease(s, o, at).0, sid, n)
  {
    GrantPasses(s, at, sid, n);
    ReleaseAfterGrant(s, o, at);
    PassesOn(s, s, Grant(s, at).0, HandleRelease(s, o, at).0, sid, n);
  }

  lemma ReturnAfterGrant(s: State, sid: nat, o: Owner)
    requires sid in s.sems
    ensures SameQueues(Grant(DropHolder(s, sid, o), sid).0, ReturnPermit(s, sid, o))
  {
  }

  lemma ReturnPasses(s: State, at: nat, o: Owner, sid: nat, n: nat)
    requires at in s.sems && sid in s.sems && NoDuplicates(s.sems[sid].queue)
    ensures Passes(s, ReturnPermit(s, at, o), sid, n)
  {
    var s1 := DropHolder(s, at, o);
    GrantPasses(s1, at, sid, n);
    ReturnAfterGrant(s, at, o);
    PassesOn(s, s1, Grant(s1, at).0, ReturnPermit(s, at, o), sid, n);
  }

  lemma AcquirePasses(s: State, o: Owner, k: nat, at: nat, sid: nat)
    requires at in s.sems && sid in s.sems
    ensures Passes(s, HandleAcquire(s, o, k, at).0, sid, k)
  {
    if at == sid && s.sems[at].permits <= 0 {
      AppendOnward(s.meta, s.sems[sid].queue, Parked(o, k), k);
    } else {
      SamePasses(s, HandleAcquire(s, o, k, at).0, sid, k);
    }
  }

  lemma HandlingPasses(s: State, o: Owner, k: nat, e: Effect, live: set<nat>, h: nat, sid: nat)
    requires e.TaskCompleted? ==> o.Of? && TaskKey(o.tid) in s.meta
    requires e.Acquire? || e.Release? ==> e.sid in s.sems
    requires sid in s.sems && s.nextId !in s.sems && NoDuplicates(s.sems[sid].queue)
    ensures Passes(s, Handling(s, o, k, e, live, h).0, sid, k)
  {
    if e.Release? {
      ReleasePasses(s, o, e.sid, sid, k);
    } else if e.Acquire? {
      AcquirePasses(s, o, k, e.sid, sid);
    } else if e.CreateSemaphore? {
      SamePasses(s, HandleSemaphore(s, e.permits, live).0, sid, k);
    } else {
      HandlingSems(s, o, k, e, live, h);
      SamePasses(s, Handling(s, o, k, e, live, h).0, sid, k);
    }
  }

  // ---- Turns ---------------------------------------------------------------

  lemma PrunePasses(s: State, s': State, sid: nat, n: nat)
    requires sid in s.sems && NoDuplicates(s.sems[sid].queue)
    requires s'.sems == s.sems || s'.sems == PruneQueues(s.meta, s.sems)
    ensures Passes(s, s', sid, n)
  {
    if s'.sems == s.sems {
      SamePasses(s, s', sid, n);
    } else {
      PrunedOnward(s.meta, s.sems[sid].queue, n);
      LiveQueueMembers(s.meta, s.sems[sid].queue);
    }
  }

  lemma PopTurnPasses(s: State, x: Item, held: set<Item>, shield: bool, diagnose: bool, sid: nat, n: nat)
    requires sid in s.sems && NoDuplicates(s.sems[sid].queue) && x in s.board.ready
    ensures var t := PopTurn(s, x, held, shield, diagnose); !t.Blocking? ==> Passes(s, t.s, sid, n)
  {
    var t := PopTurn(s, x, held, shield, diagnose);
    if x.entry.Placeholder? {
      PlaceholderTurnSems(s, x, held, shield, diagnose);
      if !t.Blocking? {
        PrunePasses(s, t.s, sid, n);
      }
    } else {
      SamePasses(s, Pop(s, x), sid, n);
      if x.entry.Permit? && x.entry.sid in s.sems {
        ReturnPasses(Pop(s, x), x.entry.sid, x.entry.owner, sid, n);
      }
    }
  }

  lemma TurnPasses(s: State, held: set<Item>, shield: bool, diagnose: bool, sid: nat, n: nat)
    requires sid in s.sems && NoDuplicates(s.sems[sid].queue)
    ensures var t := PickTurn(s, held, shield, diagnose); !t.Blocking? ==> Passes(s, t.s, sid, n)
  {
    if s.board.ready == {} {
      var t := PickTurn(s, held, shield, diagnose);
      DrainSems(s.(sems := PruneQueues(s.meta, s.sems)));
      if !t.Blocking? {
        PrunePasses(s, t.s, sid, n);
      }
    } else {
      PopTurnPasses(s, Least(s.board.ready), held, shield, diagnose, sid, n);
    }
  }

  // ---- Steps ---------------------------------------------------------------

  /** What `Passes` says of a whole step, with who is cancelled after it. */
  ghost predicate MovesOn(s: State, z: State, sid: nat, n: nat) {
    && sid in s.sems && sid in z.sems
    && Onward(z.meta, s.sems[sid].queue, z.sems[sid].queue, n)
    && forall a :: a in s.sems[sid].queue && a !in z.sems[sid].queue ==>
         IsCancelled(z.meta, a.owner) || Granted(z.board.ready, s.meta, a, sid)
  }

  lemma PassesMovesOn(s: State, d: State, z: State, sid: nat, n: nat)
    requires Passes(d, z, sid, n) && d.sems == s.sems
    requires forall o :: IsCancelled(d.meta, o) ==> IsCancelled(z.meta, o)
    requires forall a :: a in s.sems[sid].queue ==> TaskPriority(d.meta, a.owner) == TaskPriority(s.meta, a.owner)
    ensures MovesOn(s, z, sid, n)
  {
  }

  /** Draining changes neither queues nor who is cancelled, nor at which priority owners run. */
  lemma DrainedAlike(y: System, spot: Spots, cellKey: map<nat, Key>, sid: nat)
    requires Inv(y, spot, cellKey) && y.phase.Executing? && sid in y.s.sems
    ensures var d := Drain(y.s);
            && d.sems == y.s.sems && d.nextId !in d.sems && NoDuplicates(d.sems[sid].queue)
            && (forall o :: IsCancelled(d.meta, o) <==> IsCancelled(y.s.meta, o))
            && (forall o :: TaskPriority(d.meta, o) == TaskPriority(y.s.meta, o))
  {
    var spot' := DrainedEntered(y, spot, cellKey);
    DrainSems(y.s);
    DrainLater(y.s);
  }

  lemma PerformMovesOn(y: System, e: Effect, spot: Spots, cellKey: map<nat, Key>, sid: nat)
    requires Inv(y, spot, cellKey) && y.phase.Executing? && WellTyped(Drain(y.s), y.phase.owner, e, y.handles)
    requires sid in y.s.sems
    ensures MovesOn(y.s, PerformStep(y, e).s, sid, y.nextCont)
  {
    var d := Drain(y.s);
    DrainedAlike(y, spot, cellKey, sid);
    PerformLater(y, e, spot, cellKey);
    HandlingPasses(d, y.phase.owner, y.nextCont, e, y.handles.Keys, y.nextHandle, sid);
    PassesMovesOn(y.s, d, PerformStep(y, e).s, sid, y.nextCont);
  }

  lemma QuietPasses(y: System, a: Action, diagnose: bool, sid: nat)
    requires Enabled(y, a, diagnose) && !a.Perform? && !a.Dispatch? && sid in y.s.sems
    ensures Passes(y.s, Step(y, a, diagnose).s, sid, y.nextCont)
  {
    DrainSems(y.s);
    SamePasses(y.s, Step(y, a, diagnose).s, sid, y.nextCont);
  }

  lemma OtherPasses(y: System, a: Action, diagnose: bool, sid: nat)
    requires Enabled(y, a, diagnose) && !a.Perform? && sid in y.s.sems && NoDuplicates(y.s.sems[sid].queue)
    ensures Passes(y.s, Step(y, a, diagnose).s, sid, y.nextCont)
  {
    if a.Dispatch? {
      TurnPasses(y.s, y.phase.held, y.phase.shield, diagnose, sid, y.nextCont);
    } else {
      QuietPasses(y, a, diagnose, sid);
    }
  }

  lemma OtherMovesOn(y: System, a: Action, diagnose: bool, spot: Spots, cellKey: map<nat, Key>, sid: nat)
    requires Inv(y, spot, cellKey) && Enabled(y, a, diagnose) && !a.Perform? && sid in y.s.sems
    ensures MovesOn(y.s, Step(y, a, diagnose).s, sid, y.nextCont)
  {
    var z := Step(y, a, diagnose).s;
    StepLater(y, a, diagnose, spot, cellKey);
    OtherPasses(y, a, diagnose, sid);
    PassesMovesOn(y.s, y.s, z, sid, y.nextCont);
  }

  lemma StepMovesOn(y: System, a: Action, diagnose: bool, spot: Spots, cellKey: map<nat, Key>, sid: nat)
    requires Inv(y, spot, cellKey) && Enabled(y, a, diagnose) && sid in y.s.sems
    ensures MovesOn(y.s, Step(y, a, diagnose).s, sid, y.nextCont)
  {
    if a.Perform? {
      PerformMovesOn(y, a.e, spot, cellKey, sid);
    } else {
      OtherMovesOn(y, a, diagnose, spot, cellKey, sid);
    }
  }

  // ---- Runs ----------------------------------------------------------------

  /** `a` does not lose its place before `b`. */
  ghost predicate InTurn(y: System, sid: nat, a: Parked, b: Parked) {
    && sid in y.s.sems && a.cont < y.nextCont && b.cont < y.nextCont
    && var q := y.s.sems[sid].queue;
       && (a in q && b in q ==> Ahead(q, a, b))
       && (a in q && b !in q ==> IsCancelled(y.s.meta, a.owner) || IsCancelled(y.s.meta, b.owner))
  }

  lemma CapturedSoFar(y: System, a: Action, diagnose: bool)
    requires Enabled(y, a, diagnose)
    ensures y.nextCont <= Step(y, a, diagnose).nextCont
  {
  }

  lemma StepInTurn(y: System, act: Action, diagnose: bool, spot: Spots, cellKey: map<nat, Key>, sid: nat, a: Parked,
                   b: Parked)
    requires Inv(y, spot, cellKey) && Enabled(y, act, diagnose) && InTurn(y, sid, a, b)
    ensures InTurn(Step(y, act, diagnose), sid, a, b)
  {
    StepMovesOn(y, act, diagnose, spot, cellKey, sid);
    StepLater(y, act, diagnose, spot, cellKey);
    CapturedSoFar(y, act, diagnose);
    StillInTurn(y, Step(y, act, diagnose), sid, a, b);
  }

  lemma StillInTurn(y: System, z: System, sid: nat, a: Parked, b: Parked)
    requires InTurn(y, sid, a, b) && MovesOn(y.s, z.s, sid, y.nextCont) && y.nextCont <= z.nextCont && Later(y.s, z.s)
    ensures InTurn(z, sid, a, b)
  {
  }

  lemma {:induction false} RunInTurn(y: System, acts: seq<Action>, diagnose: bool, spot: Spots, cellKey: map<nat, Key>,
                                     sid: nat, a: Parked, b: Parked)
    requires Inv(y, spot, cellKey) && Possible(y, acts, diagnose) && InTurn(y, sid, a, b)
    ensures InTurn(After(y, acts, diagnose), sid, a, b)
    decreases |acts|
  {
    if acts != [] {
      StepInTurn(y, acts[0], diagnose, spot, cellKey, sid, a, b);
      var spot1, cellKey1 := StepKeeps(y, acts[0], diagnose, spot, cellKey);
      RunInTurn(Step(y, acts[0], diagnose), acts[1..], diagnose, spot1, cellKey1, sid, a, b);
    }
  }

  lemma QueuedAreOlder(y: System, spot: Spots, cellKey: map<nat, Key>, sid: nat, a: Parked)
    requires Inv(y, spot, cellKey) && sid in y.s.sems && a in y.s.sems[sid].queue
    ensures a.owner in spot && a.cont < y.nextCont
  {
  }

  /** First come, first served: however the run goes on, of two waiters the first stays ahead while
      both wait, and when the second has left without being cancelled, the first has left too or
      is cancelled. */
  lemma GrantsAreFifo(acts: seq<Action>, more: seq<Action>, diagnose: bool, sid: nat, a: Parked, b: Parked)
    requires Possible(START, acts, diagnose) && Possible(After(START, acts, diagnose), more, diagnose)
    requires sid in After(START, acts, diagnose).s.sems && Ahead(After(START, acts, diagnose).s.sems[sid].queue, a, b)
    ensures var z := After(After(START, acts, diagnose), more, diagnose).s;
            && sid in z.sems
            && (a in z.sems[sid].queue && b in z.sems[sid].queue ==> Ahead(z.sems[sid].queue, a, b))
            && (b !in z.sems[sid].queue && !IsCancelled(z.meta, b.owner) ==>
                  a !in z.sems[sid].queue || IsCancelled(z.meta, a.owner))
  {
    var y := After(START, acts, diagnose);
    var spot, cellKey := RunsAreSound(acts, diagnose);
    QueuedAreOlder(y, spot, cellKey, sid, a);
    QueuedAreOlder(y, spot, cellKey, sid, b);
    RunInTurn(y, more, diagnose, spot, cellKey, sid, a, b);
  }

  /** `a` still waits for a permit of `sid`, or one is on its way to it, or it has been resumed with
      one, or it is cancelled. */
  ghost predicate WaitsOrGranted(y: System, acts: seq<Action>, diagnose: bool, sid: nat, a: Parked, prio: int)
    requires Possible(y, acts, diagnose)
  {
    var z, e := After(y, acts, diagnose), Permit(a.owner, a.cont, sid);
    || (sid in z.s.sems && a in z.s.sems[sid].queue)
    || Queued(z, e, prio)
    || ChosenIn(y, acts, diagnose, e)
    || IsCancelled(z.s.meta, a.owner)
  }

  lemma {:induction false} RunGrants(y: System, acts: seq<Action>, diagnose: bool, spot: Spots, cellKey: map<nat, Key>,
                                     sid: nat, a: Parked)
    requires Inv(y, spot, cellKey) && Possible(y, acts, diagnose) && sid in y.s.sems && a in y.s.sems[sid].queue
    ensures WaitsOrGranted(y, acts, diagnose, sid, a, TaskPriority(y.s.meta, a.owner))
    decreases |acts|
  {
    if acts != [] {
      var y1 := Step(y, acts[0], diagnose);
      var spot1, cellKey1 := StepKeeps(y, acts[0], diagnose, spot, cellKey);
      StepMovesOn(y, acts[0], diagnose, spot, cellKey, sid);
      if a in y1.s.sems[sid].queue {
        SamePriority(y, acts[0], diagnose, spot, cellKey, spot1, cellKey1, a.owner);
        RunGrants(y1, acts[1..], diagnose, spot1, cellKey1, sid, a);
      } else if IsCancelled(y1.s.meta, a.owner) {
        CancelledStays(y1, acts[1..], diagnose, spot1, cellKey1, a.owner);
      } else {
        RunKeepsQueued(y1, acts[1..], diagnose, spot1, cellKey1, Permit(a.owner, a.cont, sid),
                       TaskPriority(y.s.meta, a.owner));
      }
    }
  }

  /** No permit is lost on its way: whoever leaves a semaphore's queue is cancelled or granted a
      permit, and that stays queued until it is resumed with it. */
  lemma WaitersAreGranted(acts: seq<Action>, more: seq<Action>, diagnose: bool, sid: nat, a: Parked)
    requires Possible(START, acts, diagnose) && Possible(After(START, acts, diagnose), more, diagnose)
    requires sid in After(START, acts, diagnose).s.sems && a in After(START, acts, diagnose).s.sems[sid].queue
    ensures var y := After(START, acts, diagnose);
            WaitsOrGranted(y, more, diagnose, sid, a, TaskPriority(y.s.meta, a.owner))
  {
    var spot, cellKey := RunsAreSound(acts, diagnose);
    RunGrants(After(START, acts, diagnose), more, diagnose, spot, cellKey, sid, a);
  }
}
