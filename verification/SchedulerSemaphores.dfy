/** What `AcquireSemaphore` and `ReleaseSemaphore` answer and leave behind, for any number of permits. */
module SchedulerSemaphores {
  import opened SchedulerConservation
  import opened SchedulerFairness
  import opened SchedulerHolders
  import opened SchedulerModel
  import opened SchedulerOutcomes
  import opened SchedulerSafety
  import opened SchedulerSteps

  /** Nothing changed but the semaphore `sid`. */
  ghost predicate ElsewhereSame(s: State, s': State, sid: nat) {
    && s'.meta == s.meta && s'.board.waiters == s.board.waiters && s'.board.joins == s.board.joins
    && s'.sems.Keys == s.sems.Keys && forall at :: at in s.sems && at != sid ==> s'.sems[at] == s.sems[at]
  }

  /** In any run an acquisition is answered at once, and its performer counted as a holder for one free permit
      less, if there is a free one; otherwise the performer waits behind everybody else. */
  lemma AcquireReplies(acts: seq<Action>, diagnose: bool, sid: nat)
    requires Possible(START, acts, diagnose)
    requires Enabled(After(START, acts, diagnose), Perform(Acquire(sid)), diagnose)
    ensures var y := After(START, acts, diagnose); var d, z := Drain(y.s), Step(y, Perform(Acquire(sid)), diagnose);
            var o, r := y.phase.owner, ReplyTo(y, Acquire(sid));
            && sid in d.sems && ElsewhereSame(d, z.s, sid) && z.s.board.ready == d.board.ready && sid in z.s.sems
            && var sem, sem' := d.sems[sid], z.s.sems[sid];
               && sem'.maxPermits == sem.maxPermits
               && if sem.permits > 0 then
                    && r == Resumed(Nothing) && z.phase == y.phase && sem'.permits + 1 == sem.permits
                    && sem'.holders == sem.holders + multiset{o} && sem'.queue == sem.queue
                  else
                    && r.Suspended? && z.phase.Entering? && sem'.permits == sem.permits && sem'.holders == sem.holders
                    && sem'.queue == sem.queue + [Parked(o, y.nextCont)]
  {
    DrainSems(After(START, acts, diagnose).s);
  }

  /** The `i`-th is the first of the queue that is not cancelled. */
  predicate FirstLive(meta: map<Key, Meta>, q: seq<Parked>, i: nat) {
    i < |q| && !IsCancelled(meta, q[i].owner) && forall j :: 0 <= j < i ==> IsCancelled(meta, q[j].owner)
  }

  /** The permit travels to `w`. */
  ghost predicate Travels(s: State, s': State, sid: nat, w: Parked, x: Item) {
    && s'.board.ready == s.board.ready + {x} && x.entry == Permit(w.owner, w.cont, sid)
    && OfPriority(s'.meta, w.owner, x.prio) && forall v :: v in s.board.ready ==> v.order < x.order
  }

  ghost predicate Released(s: State, s': State, o: Owner, sid: nat, i: nat, x: Item, r: Reply)
    requires sid in s.sems && sid in s'.sems
  {
    var sem, sem' := s.sems[sid], s'.sems[sid];
    && sem'.maxPermits == sem.maxPermits
    && if exists p :: p in sem.queue && !IsCancelled(s.meta, p.owner) then
         && FirstLive(s.meta, sem.queue, i) && r == Resumed(Nothing) && sem'.permits == sem.permits
         && Travels(s, s', sid, sem.queue[i], x) && sem'.queue == sem.queue[i + 1..]
         && sem'.holders == sem.holders + multiset{sem.queue[i].owner} - multiset{o}
       else
         && s'.board == s.board && sem'.queue == []
         && if sem.permits < sem.maxPermits then
              r == Resumed(Nothing) && sem'.permits == sem.permits + 1 && sem'.holders == sem.holders - multiset{o}
            else r == Thrown(OverReleased) && sem'.permits == sem.permits && sem'.holders == sem.holders
  }

  lemma GrantsFirstLive(s: State, o: Owner, sid: nat, i: nat) returns (x: Item)
    requires sid in s.sems && forall v :: v in s.board.ready ==> v.order < s.board.nextSeq
    requires FirstLive(s.meta, s.sems[sid].queue, i) && FromLive(s.meta, s.sems[sid].queue) == s.sems[sid].queue[i..]
    ensures var (s', r) := HandleRelease(s, o, sid); ElsewhereSame(s, s', sid) && Released(s, s', o, sid, i, x, r)
  {
    var q := s.sems[sid].queue;
    x := Item(TaskPriority(s.meta, q[i].owner), s.board.nextSeq, Permit(q[i].owner, q[i].cont, sid));
    assert q[i] in q && q[i..][1..] == q[i + 1..] && q[i..][0] == q[i];
    var (s1, granted) := Grant(s, sid);
    assert granted && s1.board.ready == s.board.ready + {x};
  }

  lemma NobodyToGrant(s: State, o: Owner, sid: nat, i: nat, x: Item)
    requires sid in s.sems && FromLive(s.meta, s.sems[sid].queue) == []
    requires forall p :: p in s.sems[sid].queue ==> IsCancelled(s.meta, p.owner)
    ensures var (s', r) := HandleRelease(s, o, sid); ElsewhereSame(s, s', sid) && Released(s, s', o, sid, i, x, r)
  {
  }

  lemma HandleReleaseMeans(s: State, o: Owner, sid: nat) returns (i: nat, x: Item)
    requires sid in s.sems && forall v :: v in s.board.ready ==> v.order < s.board.nextSeq
    ensures var (s', r) := HandleRelease(s, o, sid); ElsewhereSame(s, s', sid) && Released(s, s', o, sid, i, x, r)
  {
    var q := s.sems[sid].queue;
    FromLiveSuffix(s.meta, q);
    i := |q| - |FromLive(s.meta, q)|;
    if FromLive(s.meta, q) != [] {
      x := GrantsFirstLive(s, o, sid, i);
    } else {
      x := Item(0, 0, New(0));
      NobodyToGrant(s, o, sid, i, x);
    }
  }

  /** In any run a release goes on at once.  If anybody waits that is not cancelled the permit travels to the
      first such, queued at its priority behind everything else, which is counted as a holder from then on;
      otherwise it becomes free, or is refused if all are free.  The performer holds one less, if it did any. */
  lemma ReleaseReplies(acts: seq<Action>, diagnose: bool, sid: nat) returns (i: nat, x: Item)
    requires Possible(START, acts, diagnose)
    requires Enabled(After(START, acts, diagnose), Perform(Release(sid)), diagnose)
    ensures var y := After(START, acts, diagnose); var d, z := Drain(y.s), Step(y, Perform(Release(sid)), diagnose);
            && z.phase == y.phase && sid in d.sems && sid in z.s.sems && ElsewhereSame(d, z.s, sid)
            && Released(d, z.s, y.phase.owner, sid, i, x, ReplyTo(y, Release(sid)))
  {
    var y := After(START, acts, diagnose);
    DrainedOrders(acts, diagnose);
    DrainSems(y.s);
    i, x := HandleReleaseMeans(Drain(y.s), y.phase.owner, sid);
  }

  lemma DrainedOrders(acts: seq<Action>, diagnose: bool)
    requires Possible(START, acts, diagnose) && After(START, acts, diagnose).phase.Executing?
    ensures var d := Drain(After(START, acts, diagnose).s);
            forall v :: v in d.board.ready ==> v.order < d.board.nextSeq
  {
    var y := After(START, acts, diagnose);
    var spot, cellKey := RunsAreSound(acts, diagnose);
    var spot' := DrainedEntered(y, spot, cellKey);
  }
}
