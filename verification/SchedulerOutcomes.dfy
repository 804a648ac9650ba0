/** What effects and completions record: how a task, a promise or a completion from outside ended is
    what its waitable keeps and what is sent to those who wait for it. */
module SchedulerOutcomes {
  import opened SchedulerDelivery
  import opened SchedulerHolders
  import opened SchedulerInvariant
  import opened SchedulerModel
  import opened SchedulerResults
  import opened SchedulerRuns
  import opened SchedulerSafety
  import opened SchedulerSteps
  import opened SchedulerTheorems
  import opened SchedulerWaking

  /** The priority a task was spawned with; the root has the normal one. */
  predicate OfPriority(meta: map<Key, Meta>, o: Owner, prio: int) {
    match o
    case Root => prio == PRIORITY_NORMAL
    case Of(tid) => TaskKey(tid) in meta ==> prio == meta[TaskKey(tid)].priority
  }

  /** The direct waiter `w` is queued with `e`, at the priority it asked for or its task's. */
  ghost predicate Sent(s: State, w: Waiter, e: Entry)
    requires w.Direct?
  {
    exists x :: x in s.board.ready && x.entry == e
                && (if w.wake.Some? then x.prio == w.wake.value else OfPriority(s.meta, w.owner, x.prio))
  }

  ghost predicate SentValue(s: State, w: Waiter, v: Value)
    requires w.Direct?
  {
    Sent(s, w, Resume(w.owner, w.cont, v))
  }

  ghost predicate SentError(s: State, w: Waiter, v: Value)
    requires w.Direct?
  {
    Sent(s, w, Raise(w.owner, w.cont, v))
  }

  /** `key` came to a value or an error, and so did everybody who waited for just it. */
  ghost predicate CameToEnd(s: State, s': State, key: Key, ok: bool, v: Value) {
    && key in s'.meta && s'.meta[key].result == v
    && (if ok then s'.meta[key].status.Completed? else s'.meta[key].status.Failed?)
    && forall w :: Has(s.board.waiters, key, w) && w.Direct? ==> if ok then SentValue(s', w, v) else SentError(s', w, v)
  }

  // ---- Resolving -----------------------------------------------------------

  lemma ResolveSends(s: State, key: Key, st: Status, v: Value, w: Waiter)
    requires key in s.meta && Terminal(st) && Has(s.board.waiters, key, w) && w.Direct?
    ensures var s' := Resolve(s, key, st, v).0;
            && (st.Completed? ==> SentValue(s', w, v))
            && (st.Failed? ==> SentError(s', w, v))
            && (st.Cancelled? ==> SentError(s', w, TaskCancelledError))
  {
    ResolvedIsServed(s, st, v, key, w);
    assert OfPriority(Resolve(s, key, st, v).0.meta, w.owner, TaskPriority(s.meta, w.owner));
  }

  lemma ResolveEnds(s: State, key: Key, ok: bool, v: Value)
    requires key in s.meta
    ensures CameToEnd(s, Resolve(s, key, if ok then Completed else Failed, v).0, key, ok, v)
  {
    forall w | Has(s.board.waiters, key, w) && w.Direct?
      ensures var s' := Resolve(s, key, if ok then Completed else Failed, v).0;
              if ok then SentValue(s', w, v) else SentError(s', w, v)
    {
      ResolveSends(s, key, if ok then Completed else Failed, v, w);
    }
  }

  // ---- Completions from outside --------------------------------------------

  /** `c` is the first completion queued for its promise. */
  predicate FirstFor(queue: seq<Completion>, i: nat) {
    i < |queue| && forall j :: 0 <= j < i ==> queue[j].id != queue[i].id
  }

  lemma OthersUntouched(s: State, key: Key)
    requires s.queue != [] && key in s.meta && key != PromiseKey(s.queue[0].id)
    ensures key in DrainOne(s).meta && DrainOne(s).meta[key] == s.meta[key]
    ensures forall w :: Has(s.board.waiters, key, w) && w.Direct? ==> Has(DrainOne(s).board.waiters, key, w)
  {
    var c := s.queue[0];
    var busy := PromiseKey(c.id);
    if StatusOf(s.meta, busy).Pending? && busy in s.meta {
      var meta := WithStatus(s.meta, busy, if c.ok then Completed else Failed, c.value);
      forall w | Has(s.board.waiters, key, w) && w.Direct? ensures Has(DrainOne(s).board.waiters, key, w) {
        WakeAllKeepsDirect(meta, s.board.(waiters := s.board.waiters - {busy}), busy, RegsAt(s.board.waiters, busy),
                           key, w);
      }
    }
  }

  lemma EndStays(s: State, s1: State, s': State, key: Key, ok: bool, v: Value)
    requires CameToEnd(s, s1, key, ok, v) && Grows(s1, s')
    requires forall o: Owner :: o.Of? && TaskKey(o.tid) in s'.meta ==>
               TaskKey(o.tid) in s1.meta && s'.meta[TaskKey(o.tid)].priority == s1.meta[TaskKey(o.tid)].priority
    ensures CameToEnd(s, s', key, ok, v)
  {
    forall w | Has(s.board.waiters, key, w) && w.Direct?
      ensures if ok then SentValue(s', w, v) else SentError(s', w, v)
    {
      var e := if ok then Resume(w.owner, w.cont, v) else Raise(w.owner, w.cont, v);
      assert Sent(s1, w, e);
    }
  }

  lemma {:induction false} SamePriorities(s: State)
    ensures forall key :: key in Drain(s).meta ==> key in s.meta && Drain(s).meta[key].priority == s.meta[key].priority
    decreases |s.queue|
  {
    if s.queue != [] {
      SamePriorities(DrainOne(s));
    }
  }

  lemma {:induction false} DrainEnds(s: State, i: nat)
    requires FirstFor(s.queue, i)
    ensures var c := s.queue[i]; var key := PromiseKey(c.id);
            && (key in s.meta && s.meta[key].status.Pending? ==> CameToEnd(s, Drain(s), key, c.ok, c.value))
    decreases |s.queue|
  {
    var c := s.queue[i];
    var key := PromiseKey(c.id);
    if key in s.meta && s.meta[key].status.Pending? {
      if i == 0 {
        ResolveEnds(s.(queue := s.queue[1..]), key, c.ok, c.value);
        DrainGrows(DrainOne(s));
        SamePriorities(DrainOne(s));
        EndStays(s, DrainOne(s), Drain(s), key, c.ok, c.value);
      } else {
        OthersUntouched(s, key);
        assert s.queue[1..][i - 1] == c;
        DrainEnds(DrainOne(s), i - 1);
      }
    }
  }

  lemma {:induction false} DrainLeaves(s: State, key: Key)
    requires key in s.meta
    requires s.meta[key].status.Pending? && key.PromiseKey? ==> forall c :: c in s.queue ==> c.id != key.id
    ensures key in Drain(s).meta && Drain(s).meta[key] == s.meta[key]
    ensures forall w ::
              Has(s.board.waiters, key, w) && w.Direct? && key.TaskKey? ==> Has(Drain(s).board.waiters, key, w)
    decreases |s.queue|
  {
    if s.queue != [] {
      if key != PromiseKey(s.queue[0].id) {
        OthersUntouched(s, key);
      }
      DrainLeaves(DrainOne(s), key);
    }
  }

  /** The first completion that arrives for a pending promise, and no other, decides how it ends;
      whatever drains the queue. */
  lemma CompletionsDecide(acts: seq<Action>, diagnose: bool, i: nat, key: Key)
    requires Possible(START, acts, diagnose)
    ensures var y := After(START, acts, diagnose); var d := Drain(y.s);
            && (y.phase.Entering? ==> Step(y, Enter, diagnose).s == d)
            && (FirstFor(y.s.queue, i) ==>
                  var c := y.s.queue[i];
                  PromiseKey(c.id) in y.s.meta && y.s.meta[PromiseKey(c.id)].status.Pending? ==>
                    CameToEnd(y.s, d, PromiseKey(c.id), c.ok, c.value))
            && (key in y.s.meta && !(key.PromiseKey? && y.s.meta[key].status.Pending?) ==>
                  key in d.meta && d.meta[key] == y.s.meta[key])
  {
    var y := After(START, acts, diagnose);
    if FirstFor(y.s.queue, i) {
      DrainEnds(y.s, i);
    }
    if key in y.s.meta && !(key.PromiseKey? && y.s.meta[key].status.Pending?) {
      DrainLeaves(y.s, key);
    }
  }

  // ---- Tasks ---------------------------------------------------------------

  /** A task that ends leaves its value or its error, and everybody who waited for just it is sent that;
      unless it was cancelled, which stands. */
  lemma TasksEnd(acts: seq<Action>, diagnose: bool, ok: bool, v: Value)
    requires Possible(START, acts, diagnose)
    requires Enabled(After(START, acts, diagnose), Perform(TaskCompleted(ok, v)), diagnose)
    ensures var y := After(START, acts, diagnose); var z := Step(y, Perform(TaskCompleted(ok, v)), diagnose);
            var key := TaskKey(y.phase.owner.tid);
            && z.phase.Entering? && key in y.s.meta
            && if y.s.meta[key].status.Cancelled? then key in z.s.meta && z.s.meta[key] == y.s.meta[key]
               else CameToEnd(y.s, z.s, key, ok, v)
  {
    var y := After(START, acts, diagnose);
    var key := TaskKey(y.phase.owner.tid);
    var spot, cellKey := RunsAreSound(acts, diagnose);
    DrainLeaves(y.s, key);
    ResolveEnds(Drain(y.s), key, ok, v);
  }

  // ---- Promises ------------------------------------------------------------

  /** `CompletePromise` and `FailPromise` end a pending promise that is not for the outside, with just
      that value or error; of any other they change nothing. */
  lemma PromisesEnd(acts: seq<Action>, diagnose: bool, key: Key, ok: bool, v: Value)
    requires Possible(START, acts, diagnose)
    requires var e := if ok then CompletePromise(key, v) else FailPromise(key, v);
             Enabled(After(START, acts, diagnose), Perform(e), diagnose)
    ensures var e := if ok then CompletePromise(key, v) else FailPromise(key, v);
            var y := After(START, acts, diagnose); var d, z := Drain(y.s), Step(y, Perform(e), diagnose);
            && key in d.meta
            && (d.meta[key].external ==> ReplyTo(y, e) == Thrown(ExternalOnly) && z.s == d)
            && (!d.meta[key].external && !d.meta[key].status.Pending? ==>
                  ReplyTo(y, e) == Thrown(AlreadyResolved) && z.s == d)
            && (!d.meta[key].external && d.meta[key].status.Pending? ==>
                  && CameToEnd(d, z.s, key, ok, v) && ReplyTo(y, e).Suspended?
                  && exists x :: x in z.s.board.ready && x.entry == Resume(y.phase.owner, y.nextCont, Nothing))
  {
    var e := if ok then CompletePromise(key, v) else FailPromise(key, v);
    var y := After(START, acts, diagnose);
    var d := Drain(y.s);
    LiveHandlesAreKnown(acts, diagnose, e);
    if !d.meta[key].external && d.meta[key].status.Pending? {
      SettleEnds(d, y.phase.owner, y.nextCont, key, ok, v);
    }
  }

  lemma SettleEnds(s: State, o: Owner, k: nat, key: Key, ok: bool, v: Value)
    requires key in s.meta && !s.meta[key].external && s.meta[key].status.Pending?
    ensures var s' := HandleSettle(s, o, k, key, if ok then Completed else Failed, v).0;
            CameToEnd(s, s', key, ok, v) && exists x :: x in s'.board.ready && x.entry == Resume(o, k, Nothing)
  {
    var st := if ok then Completed else Failed;
    var (s1, woken) := Resolve(s, key, st, v);
    var s' := HandleSettle(s, o, k, key, st, v).0;
    ResolveEnds(s, key, ok, v);
    EndStays(s, s1, s', key, ok, v);
    assert Item(CompleterPriority(s1.meta, o, woken), s1.board.nextSeq, Resume(o, k, Nothing)) in s'.board.ready;
  }

  // ---- Cancellation --------------------------------------------------------

  /** `Cancel` goes on at once; it ends a task that has not come to its end, started or not, and whoever
      waited for just it is sent `TaskCancelledError`; a task that has ended stays as it is. */
  lemma CancelsEnd(acts: seq<Action>, diagnose: bool, key: Key)
    requires Possible(START, acts, diagnose)
    requires Enabled(After(START, acts, diagnose), Perform(Cancel(key)), diagnose)
    ensures var y := After(START, acts, diagnose); var d, z := Drain(y.s), Step(y, Perform(Cancel(key)), diagnose);
            && key in d.meta && ReplyTo(y, Cancel(key)) == Resumed(Nothing) && z.phase == y.phase
            && if d.meta[key].status.Pending? || d.meta[key].status.Running? then
                 && key in z.s.meta && z.s.meta[key].status.Cancelled?
                 && forall w :: Has(d.board.waiters, key, w) && w.Direct? ==> SentError(z.s, w, TaskCancelledError)
               else z.s == d
  {
    var y := After(START, acts, diagnose);
    var d := Drain(y.s);
    LiveHandlesAreKnown(acts, diagnose, Cancel(key));
    if d.meta[key].status.Pending? || d.meta[key].status.Running? {
      forall w | Has(d.board.waiters, key, w) && w.Direct?
        ensures SentError(Step(y, Perform(Cancel(key)), diagnose).s, w, TaskCancelledError)
      {
        ResolveSends(d, key, Cancelled, TaskCancelledError, w);
      }
    }
  }

  predicate WasCancelled(s: State, t: nat) { TaskKey(t) in s.meta && s.meta[TaskKey(t)].status.Cancelled? }

  lemma StepNeverRuns(y: System, a: Action, diagnose: bool, spot: Spots, cellKey: map<nat, Key>, t: nat)
    requires Inv(y, spot, cellKey) && Enabled(y, a, diagnose)
    requires WasCancelled(y.s, t) && y.phase != Executing(Of(t))
    ensures WasCancelled(Step(y, a, diagnose).s, t) && Step(y, a, diagnose).phase != Executing(Of(t))
  {
    StepLater(y, a, diagnose, spot, cellKey);
    if a.Dispatch? && Step(y, a, diagnose).phase == Executing(Of(t)) {
      ChosenIsLive(y, diagnose, Of(t));
    }
  }

  lemma {:induction false} RunNeverRuns(y: System, acts: seq<Action>, diagnose: bool, spot: Spots,
                                        cellKey: map<nat, Key>, t: nat)
    requires Inv(y, spot, cellKey) && Possible(y, acts, diagnose)
    requires WasCancelled(y.s, t) && y.phase != Executing(Of(t))
    ensures WasCancelled(After(y, acts, diagnose).s, t) && After(y, acts, diagnose).phase != Executing(Of(t))
    decreases |acts|
  {
    if acts != [] {
      StepNeverRuns(y, acts[0], diagnose, spot, cellKey, t);
      var spot1, cellKey1 := StepKeeps(y, acts[0], diagnose, spot, cellKey);
      RunNeverRuns(Step(y, acts[0], diagnose), acts[1..], diagnose, spot1, cellKey1, t);
    }
  }

  /** A task that is cancelled while it does not execute never does again. */
  lemma CancelledNeverRun(acts: seq<Action>, more: seq<Action>, diagnose: bool, t: nat)
    requires Possible(START, acts, diagnose) && Possible(After(START, acts, diagnose), more, diagnose)
    requires WasCancelled(After(START, acts, diagnose).s, t) && After(START, acts, diagnose).phase != Executing(Of(t))
    ensures After(After(START, acts, diagnose), more, diagnose).phase != Executing(Of(t))
  {
    var spot, cellKey := RunsAreSound(acts, diagnose);
    RunNeverRuns(After(START, acts, diagnose), more, diagnose, spot, cellKey, t);
  }
}
