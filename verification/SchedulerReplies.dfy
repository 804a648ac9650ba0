/** What `Gather`, `Race` and `Wait` answer at once, by the entries of their waitables; and what a
    gather or race that suspends leaves to be answered later. */
module SchedulerReplies {
  import opened Wrappers
  import opened SchedulerAnswers
  import opened SchedulerHolders
  import opened SchedulerJoins
  import opened SchedulerModel
  import opened SchedulerSafety
  import opened SchedulerSteps
  import opened SchedulerTheorems

  /** A value or error that tells how a waitable came to its end. */
  predicate TellsEnd(m: Meta, r: Reply) {
    match m.status
    case Completed => r == Resumed(m.result)
    case Failed => r == Thrown(m.result)
    case Cancelled => r == Thrown(TaskCancelledError)
    case _ => false
  }

  predicate Ended(m: Meta) { m.status.Completed? || m.status.Failed? || m.status.Cancelled? }

  predicate WentWrong(m: Meta) { m.status.Failed? || m.status.Cancelled? }

  predicate AllKnown(meta: map<Key, Meta>, keys: seq<Key>) { forall key :: key in keys ==> key in meta }

  // ---- Gathers -------------------------------------------------------------

  /** `rs` are the results of `keys`, in order. */
  predicate InOrder(meta: map<Key, Meta>, keys: seq<Key>, rs: seq<Value>)
    requires AllKnown(meta, keys)
  {
    |rs| == |keys| && forall i :: 0 <= i < |keys| ==> rs[i] == meta[keys[i]].result
  }

  /** The `i`-th is the first of `keys` that failed or was cancelled. */
  predicate FirstWrong(meta: map<Key, Meta>, keys: seq<Key>, i: nat)
    requires AllKnown(meta, keys)
  {
    i < |keys| && WentWrong(meta[keys[i]]) && forall j :: 0 <= j < i ==> !WentWrong(meta[keys[j]])
  }

  lemma {:induction false} FirstFailureMeans(meta: map<Key, Meta>, keys: seq<Key>) returns (i: nat)
    requires AllKnown(meta, keys)
    ensures var failure := FirstFailure(meta, keys);
            && (failure.None? <==> forall key :: key in keys ==> !WentWrong(meta[key]))
            && (failure.Some? ==> FirstWrong(meta, keys, i) && TellsEnd(meta[keys[i]], Thrown(failure.value)))
  {
    i := 0;
    if keys != [] && !WentWrong(meta[keys[0]]) {
      var k := FirstFailureMeans(meta, keys[1..]);
      i := k + 1;
      assert keys == [keys[0]] + keys[1..];
    }
  }

  lemma {:induction false} PendingMeans(meta: map<Key, Meta>, keys: seq<Key>)
    requires AllKnown(meta, keys)
    ensures PendingOf(meta, keys) == [] <==> forall key :: key in keys ==> Ended(meta[key])
  {
    if keys != [] {
      PendingMeans(meta, keys[1..]);
      assert keys == [keys[0]] + keys[1..];
    }
  }

  lemma {:induction false} ResultsMean(meta: map<Key, Meta>, keys: seq<Key>)
    requires AllKnown(meta, keys)
    ensures InOrder(meta, keys, Results(meta, keys))
  {
    if keys != [] {
      ResultsMean(meta, keys[1..]);
      forall i | 0 <= i < |keys|
        ensures |Results(meta, keys)| == |keys| && Results(meta, keys)[i] == meta[keys[i]].result
      {
        assert i > 0 ==> keys[i] == keys[1..][i - 1];
      }
    }
  }

  lemma HandleGatherMeans(s: State, o: Owner, k: nat, keys: seq<Key>) returns (i: nat)
    requires AllKnown(s.meta, keys)
    ensures var (s', r) := HandleGather(s, o, k, keys);
            && (r.Resumed? <==> forall key :: key in keys ==> s.meta[key].status.Completed?)
            && (r.Resumed? ==> r.value.Many? && InOrder(s.meta, keys, r.value.items))
            && (r.Thrown? <==> exists key :: key in keys && WentWrong(s.meta[key]))
            && (r.Thrown? ==> FirstWrong(s.meta, keys, i) && TellsEnd(s.meta[keys[i]], r))
            && (!r.Suspended? ==> s' == s)
  {
    i := FirstFailureMeans(s.meta, keys);
    PendingMeans(s.meta, keys);
    ResultsMean(s.meta, keys);
  }

  /** In every run a `Gather` is answered at once with all results, in the order of the arguments, if
      and only if all its waitables have completed; it raises at once if and only if one failed or was
      cancelled, and then with the error of the first such argument. */
  lemma GatherReplies(acts: seq<Action>, diagnose: bool, keys: seq<Key>) returns (i: nat)
    requires Possible(START, acts, diagnose)
    requires Enabled(After(START, acts, diagnose), Perform(Gather(keys)), diagnose)
    ensures var y := After(START, acts, diagnose); var meta, r := Drain(y.s).meta, ReplyTo(y, Gather(keys));
            && AllKnown(meta, keys)
            && (r.Resumed? <==> forall key :: key in keys ==> meta[key].status.Completed?)
            && (r.Resumed? ==> r.value.Many? && InOrder(meta, keys, r.value.items))
            && (r.Thrown? <==> exists key :: key in keys && WentWrong(meta[key]))
            && (r.Thrown? ==> FirstWrong(meta, keys, i) && TellsEnd(meta[keys[i]], r))
  {
    var y := After(START, acts, diagnose);
    LiveHandlesAreKnown(acts, diagnose, Gather(keys));
    i := HandleGatherMeans(Drain(y.s), y.phase.owner, y.nextCont, keys);
  }

  // ---- Races and waits -----------------------------------------------------

  /** The `i`-th is the first of `keys` that has come to its end. */
  predicate FirstEnded(meta: map<Key, Meta>, keys: seq<Key>, i: nat)
    requires AllKnown(meta, keys)
  {
    i < |keys| && Ended(meta[keys[i]]) && forall j :: 0 <= j < i ==> !Ended(meta[keys[j]])
  }

  lemma {:induction false} FirstTerminalMeans(meta: map<Key, Meta>, keys: seq<Key>) returns (i: nat)
    requires AllKnown(meta, keys)
    ensures var winner := FirstTerminal(meta, keys);
            && (winner.None? <==> forall key :: key in keys ==> !Ended(meta[key]))
            && (winner.Some? ==> FirstEnded(meta, keys, i) && TellsEnd(meta[keys[i]], winner.value))
  {
    i := 0;
    if keys != [] && !Ended(meta[keys[0]]) {
      var k := FirstTerminalMeans(meta, keys[1..]);
      i := k + 1;
      assert keys == [keys[0]] + keys[1..];
    }
  }

  /** A `Race` is answered at once with the outcome of the first argument that has come to its end,
      and suspends if and only if there are arguments but no such one. */
  lemma RaceReplies(acts: seq<Action>, diagnose: bool, keys: seq<Key>) returns (i: nat)
    requires Possible(START, acts, diagnose)
    requires Enabled(After(START, acts, diagnose), Perform(Race(keys)), diagnose)
    ensures var y := After(START, acts, diagnose); var meta, r := Drain(y.s).meta, ReplyTo(y, Race(keys));
            && AllKnown(meta, keys)
            && (keys == [] ==> r == Thrown(EmptyRace))
            && (r.Suspended? <==> keys != [] && forall key :: key in keys ==> !Ended(meta[key]))
            && (keys != [] && !r.Suspended? ==> FirstEnded(meta, keys, i) && TellsEnd(meta[keys[i]], r))
  {
    var y := After(START, acts, diagnose);
    LiveHandlesAreKnown(acts, diagnose, Race(keys));
    i := FirstTerminalMeans(Drain(y.s).meta, keys);
  }

  /** A `Wait` is answered at once with the outcome of its waitable if and only if there is one yet. */
  lemma WaitReplies(acts: seq<Action>, diagnose: bool, key: Key, wake: Option<int>)
    requires Possible(START, acts, diagnose)
    requires Enabled(After(START, acts, diagnose), Perform(Wait(key, wake)), diagnose)
    ensures var y := After(START, acts, diagnose); var meta, r := Drain(y.s).meta, ReplyTo(y, Wait(key, wake));
            key in meta && (if Ended(meta[key]) then TellsEnd(meta[key], r) else r.Suspended?)
  {
    LiveHandlesAreKnown(acts, diagnose, Wait(key, wake));
  }

  // ---- Gathers and races that suspend --------------------------------------

  lemma Opened(s: State, g: Join)
    ensures var joins := OpenJoin(s.meta, s.board, g).joins; s.board.nextObj in joins && joins[s.board.nextObj] == g
  {
    var b := s.board;
    RegisterAllJoins(s.meta, b.(joins := b.joins[b.nextObj := g], nextObj := b.nextObj + 1), b.nextObj, g.owner,
                     g.pendingKeys);
  }

  lemma {:induction false} FirstTerminalAnswers(meta: map<Key, Meta>, keys: seq<Key>)
    ensures FirstTerminal(meta, keys).Some? ==> !FirstTerminal(meta, keys).value.Suspended?
  {
    if keys != [] {
      FirstTerminalAnswers(meta, keys[1..]);
    }
  }

  lemma OpensJoin(s: State, o: Owner, k: nat, e: Effect, live: set<nat>, h: nat) returns (j: nat)
    requires (e.Gather? || e.Race?) && Handling(s, o, k, e, live, h).1.Suspended?
    ensures var joins := Handling(s, o, k, e, live, h).0.board.joins;
            && j in joins && joins[j].owner == o && joins[j].cont == k && joins[j].keys == e.keys
            && (joins[j].kind.GatherJoin? <==> e.Gather?) && !joins[j].resolved
  {
    j := s.board.nextObj;
    if e.Gather? {
      var pending := PendingOf(s.meta, e.keys);
      Opened(s, Join(GatherJoin, o, k, e.keys, pending, |pending|, false));
    } else {
      FirstTerminalAnswers(s.meta, e.keys);
      Opened(s, Join(RaceJoin, o, k, e.keys, e.keys, 0, false));
    }
  }

  /** Whoever suspends in a `Gather` or `Race` is, however the run goes on, not resumed before that is
      resolved, and then answered by just the waitables it asked for. */
  lemma JoinsAreAnsweredLater(acts: seq<Action>, more: seq<Action>, diagnose: bool, e: Effect)
    returns (j: nat, answer: Entry)
    requires Possible(START, acts, diagnose) && (e.Gather? || e.Race?)
    requires Enabled(After(START, acts, diagnose), Perform(e), diagnose)
    requires Step(After(START, acts, diagnose), Perform(e), diagnose).phase.Entering?
    requires Possible(Step(After(START, acts, diagnose), Perform(e), diagnose), more, diagnose)
    ensures var x := After(START, acts, diagnose); var y := Step(x, Perform(e), diagnose);
            var joins, joins' := y.s.board.joins, After(y, more, diagnose).s.board.joins;
            && j in joins && joins[j].owner == x.phase.owner && joins[j].cont == x.nextCont && joins[j].keys == e.keys
            && (joins[j].kind.GatherJoin? <==> e.Gather?) && !joins[j].resolved
            && j in joins' && JoinLater(joins[j], joins'[j])
            && (joins'[j].resolved ==>
                  AnsweredWith(y, more, diagnose, joins[j], TaskPriority(y.s.meta, joins[j].owner), answer))
  {
    var x := After(START, acts, diagnose);
    var spot0, cellKey0 := RunsAreSound(acts, diagnose);
    var spot, cellKey := StepKeeps(x, Perform(e), diagnose, spot0, cellKey0);
    j := OpensJoin(Drain(x.s), x.phase.owner, x.nextCont, e, x.handles.Keys, x.nextHandle);
    answer := RunAnswers(Step(x, Perform(e), diagnose), more, diagnose, spot, cellKey, j);
  }
}
