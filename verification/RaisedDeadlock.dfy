/** When the scheduler raises `SchedulerDeadlockError`: exactly where nothing but completions from
    outside can go on and either nobody waits for one, or some semaphores are held by nobody but each
    other's waiters. */
module RaisedDeadlock {
  import opened DeadlockDetector
  import opened SchedulerInvariant
  import opened SchedulerModel
  import opened SchedulerPermits
  import opened SchedulerRuns
  import opened SchedulerSafety
  import opened SchedulerSteps
  import opened SchedulerTheorems

  // ---- What it raises for --------------------------------------------------

  /** `o`, not cancelled, waits for a permit of `sid`. */
  ghost predicate WaitsIn(s: State, sid: nat, o: Owner) {
    sid in s.sems && !IsCancelled(s.meta, o) && exists p :: p in s.sems[sid].queue && p.owner == o
  }

  /** `sid` is waited for, and held by nobody but waiters of `d`. */
  ghost predicate HeldUp(s: State, d: set<nat>, sid: nat) {
    && sid in s.sems && s.sems[sid].holders != multiset{}
    && (exists o :: WaitsIn(s, sid, o))
    && forall o :: o in s.sems[sid].holders ==> exists at :: at in d && WaitsIn(s, at, o)
  }

  ghost predicate Cycle(s: State, d: set<nat>) {
    d != {} && forall sid {:trigger HeldUp(s, d, sid)} :: sid in d ==> HeldUp(s, d, sid)
  }

  ghost predicate NothingLive(s: State) {
    forall x :: x in s.board.ready && !x.entry.Placeholder? ==> IsCancelled(s.meta, EntryOwner(x.entry))
  }

  /** The first entry of the heap stands for a wait from outside that goes on. */
  ghost predicate ShieldFirst(s: State) {
    exists x :: x in s.board.ready && x.entry.Placeholder?
                && x.entry.cell !in s.board.claimed && !IsCancelled(s.meta, x.entry.owner)
                && forall y :: y in s.board.ready && y != x ==>
                     y.prio < x.prio || (y.prio == x.prio && x.order < y.order)
  }

  ghost predicate WaitsOutside(s: State) {
    exists key, w :: key in s.board.waiters && w in s.board.waiters[key] && !IsCancelled(s.meta, w.owner)
                     && key.PromiseKey? && key in s.meta && s.meta[key].external && !Terminal(s.meta[key].status)
  }

  /** Only a completion from outside can make anything run. */
  ghost predicate Idle(s: State) {
    if s.board.ready == {} then WaitsOutside(s) else NothingLive(s) && ShieldFirst(s)
  }

  ghost predicate Raises(y: System) {
    Enabled(y, Dispatch, true) && Step(y, Dispatch, true).phase.DeadlockRaised?
  }

  // ---- The verdict as a set ------------------------------------------------

  ghost predicate QueuesClean(sems: map<nat, Sem>) {
    forall sid :: sid in sems ==> NoDuplicates(sems[sid].queue)
  }

  ghost predicate Parks(sems: map<nat, Sem>, sid: nat, o: Owner) {
    sid in sems && exists p :: p in sems[sid].queue && p.owner == o
  }

  /** The semaphores of `s`, less the waiters that are cancelled. */
  ghost predicate SameWaits(s: State, sems: map<nat, Sem>) {
    && sems.Keys == s.sems.Keys
    && (forall sid :: sid in sems ==> sems[sid].holders == s.sems[sid].holders)
    && (forall sid, o :: Parks(sems, sid, o) <==> WaitsIn(s, sid, o))
  }

  lemma PruningKeepsWaits(s: State)
    requires QueuesClean(s.sems)
    ensures SameWaits(s, PruneQueues(s.meta, s.sems))
  {
    var sems := PruneQueues(s.meta, s.sems);
    forall sid, o ensures Parks(sems, sid, o) <==> WaitsIn(s, sid, o) {
      if sid in s.sems {
        LiveQueueMembers(s.meta, s.sems[sid].queue);
      }
    }
  }

  lemma BehindMeans(sems: map<nat, Sem>, d: set<nat>, o: Owner)
    ensures ParkedBehind(sems, d, o) <==> exists at :: at in d && Parks(sems, at, o)
  {
    if ParkedBehind(sems, d, o) {
      var at, p :| at in d && at in sems && p in sems[at].queue && p.owner == o;
      assert Parks(sems, at, o);
    }
  }

  lemma BlockedMeans(sems: map<nat, Sem>, sid: nat)
    ensures sid in Blocked(sems) <==> exists o :: Parks(sems, sid, o)
  {
    if sid in Blocked(sems) {
      assert sems[sid].queue[0] in sems[sid].queue;
      assert Parks(sems, sid, sems[sid].queue[0].owner);
    }
  }

  lemma SameSupport(s: State, sems: map<nat, Sem>, d: set<nat>, o: Owner)
    requires SameWaits(s, sems)
    ensures ParkedBehind(sems, d, o) <==> exists at :: at in d && WaitsIn(s, at, o)
  {
    BehindMeans(sems, d, o);
    if at :| at in d && Parks(sems, at, o) {
      assert WaitsIn(s, at, o);
    }
    if at :| at in d && WaitsIn(s, at, o) {
      assert Parks(sems, at, o);
    }
  }

  lemma HeldUpMeans(s: State, sems: map<nat, Sem>, d: set<nat>, sid: nat)
    requires SameWaits(s, sems)
    ensures HeldUp(s, d, sid) <==> sid in Blocked(sems) && Hopeless(sems, d, sid)
  {
    BlockedMeans(sems, sid);
    assert (exists o :: Parks(sems, sid, o)) <==> exists o :: WaitsIn(s, sid, o);
    if sid in sems {
      forall o | o in sems[sid].holders
        ensures ParkedBehind(sems, d, o) <==> exists at :: at in d && WaitsIn(s, at, o)
      {
        SameSupport(s, sems, d, o);
      }
    }
  }

  ghost predicate Supported(sems: map<nat, Sem>, d: set<nat>) {
    d != {} && d <= Blocked(sems) && SelfSupporting(sems, d)
  }

  lemma AllHeldUp(s: State, sems: map<nat, Sem>, d: set<nat>)
    requires forall sid {:trigger HeldUp(s, d, sid)} ::
               sid in d ==> (HeldUp(s, d, sid) <==> sid in Blocked(sems) && Hopeless(sems, d, sid))
    ensures Cycle(s, d) <==> Supported(sems, d)
  {
    if Cycle(s, d) {
      forall sid | sid in d ensures sid in Blocked(sems) && Hopeless(sems, d, sid) {
        assert HeldUp(s, d, sid);
      }
    }
    if Supported(sems, d) {
      forall sid | sid in d ensures HeldUp(s, d, sid) {
        assert Hopeless(sems, d, sid);
      }
    }
  }

  lemma CycleIffSupported(s: State, sems: map<nat, Sem>, d: set<nat>)
    requires SameWaits(s, sems)
    ensures Cycle(s, d) <==> Supported(sems, d)
  {
    forall sid | sid in d ensures HeldUp(s, d, sid) <==> sid in Blocked(sems) && Hopeless(sems, d, sid) {
      HeldUpMeans(s, sems, d, sid);
    }
    AllHeldUp(s, sems, d);
  }

  lemma VerdictIffSupported(sems: map<nat, Sem>)
    ensures Doomed(sems) <==> exists d :: Supported(sems, d)
  {
    var verdict := Unreleasable(sems, Blocked(sems));
    VerdictIsSelfSupporting(sems, Blocked(sems));
    assert verdict != {} ==> Supported(sems, verdict);
    if d :| Supported(sems, d) {
      VerdictIsGreatest(sems, Blocked(sems), d);
    }
  }

  lemma DoomedIffCycle(s: State)
    requires QueuesClean(s.sems)
    ensures Doomed(PruneQueues(s.meta, s.sems)) <==> exists d :: Cycle(s, d)
  {
    var sems := PruneQueues(s.meta, s.sems);
    VerdictIffSupported(sems);
    forall d ensures Cycle(s, d) <==> Supported(sems, d) {
      PruningKeepsWaits(s);
      CycleIffSupported(s, sems, d);
    }
  }

  // ---- Turns ---------------------------------------------------------------

  lemma PlaceholderRaises(s: State, x: Item, held: set<Item>, shield: bool)
    requires IsLeast(s.board.ready, x) && QueuesClean(s.sems) && OrdersDistinct(s.board.ready, s.board.nextSeq)
    ensures PopTurn(s, x, held, shield, true).Deadlocked? <==>
              NothingLive(s) && ShieldFirst(s) && exists d :: Cycle(s, d)
  {
    var s1 := Pop(s, x);
    assert HasLive(s.meta, s1.board.ready, true) ==> !NothingLive(s);
    if x.entry.Placeholder? {
      NobodyLive(s, x);
      DoomedIffCycle(s);
    }
    FirstShield(s, x);
  }

  lemma NobodyLive(s: State, x: Item)
    requires x in s.board.ready && x.entry.Placeholder?
    ensures HasLive(s.meta, Pop(s, x).board.ready, true) <==> !NothingLive(s)
    ensures HasLive(s.meta, Pop(s, x).board.ready, false) ==> !NothingLive(s)
  {
    if !NothingLive(s) {
      var y :| y in s.board.ready && !y.entry.Placeholder? && !IsCancelled(s.meta, EntryOwner(y.entry));
      assert y in Pop(s, x).board.ready;
    }
  }

  lemma FirstShield(s: State, x: Item)
    requires IsLeast(s.board.ready, x) && OrdersDistinct(s.board.ready, s.board.nextSeq)
    ensures ShieldFirst(s) <==> Standing(s.meta, s.board.claimed, x.entry)
  {
    forall y | y in s.board.ready && y != x ensures y.prio < x.prio || (y.prio == x.prio && x.order < y.order) {
      assert !Before(y, x) && y.order != x.order;
    }
  }

  lemma EmptyHeapRaises(s: State, held: set<Item>, shield: bool)
    requires QueuesClean(s.sems) && s.board.ready == {}
    requires !HasPendingExternal(s.meta, s.board.waiters) ==> PickTurn(s, held, shield, true).Deadlocked?
    ensures PickTurn(s, held, shield, true).Deadlocked? <==> !WaitsOutside(s) || exists d :: Cycle(s, d)
  {
    DoomedIffCycle(s);
    assert WaitsOutside(s) <==> HasPendingExternal(s.meta, s.board.waiters);
  }

  // ---- The theorems --------------------------------------------------------

  /** In every run, a turn of `pick_next` raises exactly in two cases: nothing but a completion from
      outside can make anything run and some semaphores hold each other up; or the heap is empty and
      nobody waits for such a completion. */
  lemma RaisesIff(acts: seq<Action>)
    requires Possible(START, acts, true) && After(START, acts, true).phase.Picking?
    ensures var y := After(START, acts, true);
            Raises(y) <==>
              || (Idle(y.s) && exists d :: Cycle(y.s, d))
              || (y.s.board.ready == {} && !WaitsOutside(y.s))
  {
    var y := After(START, acts, true);
    var spot, cellKey := RunsAreSound(acts, true);
    HopelessWaitRaises(acts);
    TurnRaises(y);
    if y.s.board.ready == {} {
      EmptyHeapRaises(y.s, y.phase.held, y.phase.shield);
    } else {
      assert y.s.board.ready <= y.s.board.ready + HeldItems(y);
      PlaceholderRaises(y.s, Least(y.s.board.ready), y.phase.held, y.phase.shield);
    }
  }

  lemma TurnRaises(y: System)
    requires y.phase.Picking?
    ensures Raises(y) <==> PickTurn(y.s, y.phase.held, y.phase.shield, true).Deadlocked?
  {
  }

  lemma OnlyTurnsRaise(y: System, a: Action)
    requires Enabled(y, a, true) && !y.phase.DeadlockRaised? && Step(y, a, true).phase.DeadlockRaised?
    ensures y.phase.Picking? && a == Dispatch
  {
  }

  /** No run comes to raise it in any other way. */
  lemma NothingElseRaises(acts: seq<Action>, a: Action)
    requires Possible(START, acts, true) && Enabled(After(START, acts, true), a, true)
    requires !After(START, acts, true).phase.DeadlockRaised?
    requires Step(After(START, acts, true), a, true).phase.DeadlockRaised?
    ensures var y := After(START, acts, true);
            && y.phase.Picking? && a == Dispatch
            && (|| (Idle(y.s) && exists d :: Cycle(y.s, d))
                || (y.s.board.ready == {} && !WaitsOutside(y.s)))
  {
    OnlyTurnsRaise(After(START, acts, true), a);
    RaisesIff(acts);
  }
}
