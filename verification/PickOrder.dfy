/** `pick_next` between two blocking waits, as a whole: it terminates, and what it chooses is
    what a declarative reading of the heap says. */
module PickOrder {
  import opened Wrappers
  import opened SchedulerModel
  import opened SchedulerSteps
  import opened SchedulerInvariant
  import opened SchedulerResolving
  import opened SchedulerDispatch

  // ---- Termination ---------------------------------------------------------

  function Dead(meta: map<Key, Meta>, ready: set<Item>): set<Item> {
    set x | x in ready && IsCancelled(meta, EntryOwner(x.entry))
  }

  /** Turns make progress: the queue is emptied, or an entry of a cancelled owner goes, or the
      heap shrinks. */
  ghost predicate Progress(s: State, s': State) {
    || |s'.queue| < |s.queue|
    || (|s'.queue| == |s.queue| && |Dead(s'.meta, s'.board.ready)| < |Dead(s.meta, s.board.ready)|)
    || (|s'.queue| == |s.queue| && |Dead(s'.meta, s'.board.ready)| == |Dead(s.meta, s.board.ready)|
        && |s'.board.ready| < |s.board.ready|)
  }

  lemma {:induction false} DrainEmpties(s: State)
    ensures Drain(s).queue == []
    decreases |s.queue|
  {
    if s.queue != [] {
      DrainEmpties(DrainOne(s));
    }
  }

  lemma DrainOneKeepsOrders(s: State)
    requires OrdersDistinct(s.board.ready, s.board.nextSeq) && s.queue != []
    ensures OrdersDistinct(DrainOne(s).board.ready, DrainOne(s).board.nextSeq)
  {
    var c := s.queue[0];
    var key := PromiseKey(c.id);
    if StatusOf(s.meta, key).Pending? && key in s.meta {
      var meta := WithStatus(s.meta, key, if c.ok then Completed else Failed, c.value);
      WakeAllAdds(meta, s.board.(waiters := s.board.waiters - {key}), key, RegsAt(s.board.waiters, key));
    }
  }

  lemma {:induction false} DrainKeepsOrders(s: State)
    requires OrdersDistinct(s.board.ready, s.board.nextSeq)
    ensures OrdersDistinct(Drain(s).board.ready, Drain(s).board.nextSeq)
    decreases |s.queue|
  {
    if s.queue != [] {
      DrainOneKeepsOrders(s);
      DrainKeepsOrders(DrainOne(s));
    }
  }

  lemma SmallerHeap(s: State, s': State, x: Item)
    requires s'.queue == s.queue && s'.meta == s.meta && x in s.board.ready && s'.board.ready == s.board.ready - {x}
    ensures Progress(s, s')
  {
    var d, d' := Dead(s.meta, s.board.ready), Dead(s.meta, s'.board.ready);
    SmallerSubset(s'.board.ready, s.board.ready);
    if d' != d {
      SmallerSubset(d', d);
    }
  }

  lemma FewerDead(s: State, s': State, x: Item)
    requires s'.queue == s.queue && s'.meta == s.meta && x in Dead(s.meta, s.board.ready) && x !in s'.board.ready
    requires forall y :: y in s'.board.ready && y !in s.board.ready ==> !IsCancelled(s.meta, EntryOwner(y.entry))
    ensures Progress(s, s')
  {
    SmallerSubset(Dead(s'.meta, s'.board.ready), Dead(s.meta, s.board.ready));
  }

  lemma {:induction false} FromLiveIsLive(meta: map<Key, Meta>, q: seq<Parked>)
    ensures FromLive(meta, q) != [] ==> !IsCancelled(meta, FromLive(meta, q)[0].owner)
  {
    if q != [] && IsCancelled(meta, q[0].owner) {
      FromLiveIsLive(meta, q[1..]);
    }
  }

  lemma ReturnMeans(s: State, sid: nat, o: Owner)
    requires sid in s.sems
    ensures var s' := ReturnPermit(s, sid, o);
            && s'.queue == s.queue && s'.meta == s.meta
            && forall y :: y in s'.board.ready && y !in s.board.ready ==>
                 !IsCancelled(s.meta, EntryOwner(y.entry)) && y.entry.Permit?
  {
    FromLiveIsLive(s.meta, s.sems[sid].queue);
  }

  lemma BlockingEmpties(s: State, e: Entry, held: set<Item>, shield: bool, diagnose: bool)
    requires e.Placeholder? && BlockOnPlaceholder(s, e, held, shield, diagnose).Again?
    ensures |BlockOnPlaceholder(s, e, held, shield, diagnose).s.queue| < |s.queue|
  {
    DrainEmpties(s);
    DrainEmpties(s.(sems := PruneQueues(s.meta, s.sems)));
  }

  lemma PoppingProgresses(s: State, x: Item, held: set<Item>, shield: bool, diagnose: bool)
    requires x in s.board.ready && PopTurn(s, x, held, shield, diagnose).Again?
    ensures Progress(s, PopTurn(s, x, held, shield, diagnose).s)
  {
    var e := x.entry;
    var t := PopTurn(s, x, held, shield, diagnose);
    if shield && LiveDaemon(s.meta, e) {
      SmallerHeap(s, t.s, x);
    } else if e.Placeholder? {
      if Standing(s.meta, s.board.claimed, e) && !HasLive(s.meta, Pop(s, x).board.ready, false) {
        BlockingEmpties(Pop(s, x), e, held, shield, diagnose);
      } else {
        SmallerHeap(s, t.s, x);
      }
    } else if e.Permit? && e.sid in s.sems {
      ReturnMeans(Pop(s, x), e.sid, e.owner);
      FewerDead(s, t.s, x);
    } else {
      SmallerHeap(s, t.s, x);
    }
  }

  /** Every turn that is not the last makes progress. */
  lemma TurnsProgress(s: State, held: set<Item>, shield: bool, diagnose: bool)
    requires PickTurn(s, held, shield, diagnose).Again?
    ensures Progress(s, PickTurn(s, held, shield, diagnose).s)
  {
    if s.board.ready == {} {
      DrainEmpties(s.(sems := PruneQueues(s.meta, s.sems)));
    } else {
      PoppingProgresses(s, Least(s.board.ready), held, shield, diagnose);
    }
  }

  /** `pick_next` until it returns or raises, or blocks with none of `arrivals` left: the
      completions that other threads deliver while it blocks, one each time. */
  ghost function PickRun(s: State, held: set<Item>, shield: bool, diagnose: bool, arrivals: seq<Completion>): (t: Turn)
    ensures !t.Again?
    decreases |arrivals|, |s.queue|, |Dead(s.meta, s.board.ready)|, |s.board.ready|
  {
    var t := PickTurn(s, held, shield, diagnose);
    if t.Again? then
      TurnsProgress(s, held, shield, diagnose);
      PickRun(t.s, t.held, t.shield, diagnose, arrivals)
    else if t.Blocking? && arrivals != [] then
      PickRun(s.(queue := s.queue + [arrivals[0]]), held, shield, diagnose, arrivals[1..])
    else t
  }

  /** Its turns are the dispatch steps of runs, completions arriving in between. */
  lemma {:induction false} PickRunDispatches(y: System, diagnose: bool, arrivals: seq<Completion>)
    returns (acts: seq<Action>, held: set<Item>, shield: bool)
    requires y.phase.Picking?
    ensures forall a :: a in acts ==> a.Dispatch? || a.Arrive?
    ensures Possible(y, acts, diagnose)
    ensures var z := After(y, acts, diagnose);
            && z.phase == Picking(held, shield)
            && PickTurn(z.s, held, shield, diagnose) == PickRun(y.s, y.phase.held, y.phase.shield, diagnose, arrivals)
    decreases |arrivals|, |y.s.queue|, |Dead(y.s.meta, y.s.board.ready)|, |y.s.board.ready|
  {
    var t := PickTurn(y.s, y.phase.held, y.phase.shield, diagnose);
    acts, held, shield := [], y.phase.held, y.phase.shield;
    if t.Again? {
      TurnsProgress(y.s, y.phase.held, y.phase.shield, diagnose);
      acts, held, shield := PickRunDispatches(DispatchStep(y, diagnose), diagnose, arrivals);
      acts := [Dispatch] + acts;
    } else if t.Blocking? && arrivals != [] {
      acts, held, shield := PickRunDispatches(Step(y, Arrive(arrivals[0]), diagnose), diagnose, arrivals[1..]);
      acts := [Arrive(arrivals[0])] + acts;
    }
  }

  // ---- What is chosen ------------------------------------------------------

  /** The heap as one reads it: permits that were travelling to owners cancelled since are back up to
      `floor`, the last of those entries; whatever their return queued comes up after it at the
      earliest. */
  datatype Reading = Reading(s: State, floor: Option<Item>)

  /** The entry the loop has come to when `x` comes up. */
  function Place(r: Reading, x: Item): Item {
    if r.floor.Some? && Before(x, r.floor.value) then r.floor.value else x
  }

  ghost predicate StandsBefore(s: State, x: Item) {
    exists z :: z in s.board.ready && Before(z, x) && Standing(s.meta, s.board.claimed, z.entry)
  }

  /** What may run: live entries, but daemons not from behind a standing placeholder. */
  ghost predicate Eligible(r: Reading, x: Item) {
    x in r.s.board.ready && LiveEntry(r.s.meta, x.entry)
    && (IsDaemon(r.s.meta, EntryOwner(x.entry)) ==> !StandsBefore(r.s, Place(r, x)))
  }

  ghost predicate FirstEligible(r: Reading, c: Item) {
    Eligible(r, c) && forall x :: Eligible(r, x) ==> x == c || Before(c, x)
  }

  /** A permit travelling to an owner cancelled since. */
  predicate LostPermit(meta: map<Key, Meta>, e: Entry) { e.Permit? && IsCancelled(meta, e.owner) }

  function Lost(s: State): set<Item> {
    set x | x in s.board.ready && LostPermit(s.meta, x.entry)
  }

  /** The permit is back: the next live waiter has it, if there is one, or the semaphore. */
  function GiveBack(s: State, x: Item): State {
    if x.entry.Permit? && x.entry.sid in s.sems then ReturnPermit(Pop(s, x), x.entry.sid, x.entry.owner) else Pop(s, x)
  }

  /** The first lost permit is returned if nothing may run before it, and no standing placeholder
      ahead of it makes the loop block because nothing but daemons is live. */
  ghost predicate ReturnsNext(r: Reading) {
    && Lost(r.s) != {}
    && var x := Least(Lost(r.s));
       && (forall y :: Eligible(r, y) ==> !Before(y, x))
       && (StandsBefore(r.s, x) ==> HasLive(r.s.meta, r.s.board.ready, false))
  }

  lemma ReturnsOne(s: State, x: Item)
    requires x in Lost(s) && OrdersDistinct(s.board.ready, s.board.nextSeq)
    ensures var s' := GiveBack(s, x);
            && s' == s.(board := s.board.(ready := s'.board.ready, nextSeq := s'.board.nextSeq), sems := s'.sems)
            && s.board.ready - {x} <= s'.board.ready && x !in s'.board.ready
            && (forall y :: y in s'.board.ready && y !in s.board.ready ==>
                  LiveEntry(s.meta, y.entry) && y.order == s.board.nextSeq)
            && Lost(s') == Lost(s) - {x} && OrdersDistinct(s'.board.ready, s'.board.nextSeq)
  {
    if x.entry.sid in s.sems {
      ReturnMeans(Pop(s, x), x.entry.sid, x.entry.owner);
    }
  }

  /** All the permits that are returned before the call ends or blocks. */
  ghost function AfterReturns(r: Reading): Reading
    requires OrdersDistinct(r.s.board.ready, r.s.board.nextSeq)
    decreases |Lost(r.s)|
  {
    if ReturnsNext(r) then
      var x := Least(Lost(r.s));
      ReturnsOne(r.s, x);
      SmallerSubset(Lost(GiveBack(r.s, x)), Lost(r.s));
      AfterReturns(Reading(GiveBack(r.s, x), Some(x)))
    else r
  }

  /** The entries up to `p` that stand for nothing any more. */
  function Inert(s: State, p: Item): set<Item> {
    set x | x in s.board.ready && Before(x, p)
            && !LiveEntry(s.meta, x.entry) && !Standing(s.meta, s.board.claimed, x.entry)
  }

  // ---- The loop on its way -------------------------------------------------

  predicate Kept(s: State, x: Item) {
    LiveEntry(s.meta, x.entry) || Standing(s.meta, s.board.claimed, x.entry)
  }

  /** What the loop knows of the rest of the heap on its way to `c`. */
  ghost predicate OnTheWay(s: State, held: set<Item>, shield: bool, c: Item) {
    && c in s.board.ready && held !! s.board.ready
    && (forall x, y :: x in s.board.ready && y in s.board.ready && x.order == y.order ==> x == y)
    && (forall x :: x in s.board.ready && Before(x, c) ==> !LostPermit(s.meta, x.entry))
    && (forall x :: x in s.board.ready && Before(x, c) && LiveEntry(s.meta, x.entry) ==>
          IsDaemon(s.meta, EntryOwner(x.entry)) && (shield || StandsBefore(s, x)))
    && (shield || StandsBefore(s, c) ==> HasLive(s.meta, s.board.ready, false))
  }

  /** Where the loop goes when it sets the first entry aside or drops it. */
  lemma OneMoreOnTheWay(s: State, held: set<Item>, shield: bool, c: Item, x: Item, held': set<Item>, shield': bool)
    requires OnTheWay(s, held, shield, c) && IsLeast(s.board.ready, x) && x != c
    requires held' == held || held' == held + {x}
    requires shield' == (shield || Standing(s.meta, s.board.claimed, x.entry))
    ensures OnTheWay(Pop(s, x), held', shield', c)
  {
    var s' := Pop(s, x);
    assert Before(x, c) && c in s'.board.ready;
    forall y | y in s'.board.ready && Before(y, c) && LiveEntry(s.meta, y.entry)
      ensures IsDaemon(s.meta, EntryOwner(y.entry)) && (shield' || StandsBefore(s', y))
    {
      if !shield' {
        var z :| z in s.board.ready && Before(z, y) && Standing(s.meta, s.board.claimed, z.entry);
        assert z in s'.board.ready;
      }
    }
    if shield' || StandsBefore(s', c) {
      assert shield || StandsBefore(s, c);
      StillLive(s.meta, s.board.ready, x);
    }
  }

  /** A turn that does not reach `c` pops the first entry, and holds it exactly if it is live
      or standing. */
  lemma TurnOnTheWay(s: State, held: set<Item>, shield: bool, diagnose: bool, c: Item, x: Item)
    requires OnTheWay(s, held, shield, c) && x == Least(s.board.ready) && x != c
    ensures PickTurn(s, held, shield, diagnose)
         == Again(Pop(s, x), if Kept(s, x) then held + {x} else held,
                  shield || Standing(s.meta, s.board.claimed, x.entry))
  {
    assert Before(x, c);
    if Standing(s.meta, s.board.claimed, x.entry) {
      assert StandsBefore(s, c);
      StillLive(s.meta, s.board.ready, x);
    }
  }

  lemma UntilTheNextTurn(s: State, held: set<Item>, shield: bool, diagnose: bool, arrivals: seq<Completion>)
    requires PickTurn(s, held, shield, diagnose).Again?
    ensures var t := PickTurn(s, held, shield, diagnose);
            PickRun(s, held, shield, diagnose, arrivals) == PickRun(t.s, t.held, t.shield, diagnose, arrivals)
  {
  }

  /** The heap, and what is held out of it, once the loop has come to `c`. */
  function ComeTo(s: State, c: Item): State {
    s.(board := s.board.(ready := set x | x in s.board.ready && !Before(x, c)))
  }

  function SetAsideBefore(s: State, c: Item): set<Item> {
    set x | x in s.board.ready && Before(x, c) && Kept(s, x)
  }

  lemma OneStepCloser(s: State, c: Item, x: Item)
    requires IsLeast(s.board.ready, x) && Before(x, c)
    ensures ComeTo(Pop(s, x), c) == ComeTo(s, c)
    ensures SetAsideBefore(s, c) == SetAsideBefore(Pop(s, x), c) + (if Kept(s, x) then {x} else {})
    ensures StandsBefore(s, c) <==> StandsBefore(Pop(s, x), c) || Standing(s.meta, s.board.claimed, x.entry)
  {
    assert ComeTo(Pop(s, x), c).board.ready == ComeTo(s, c).board.ready;
    if StandsBefore(s, c) {
      var z :| z in s.board.ready && Before(z, c) && Standing(s.meta, s.board.claimed, z.entry);
      assert z != x ==> z in Pop(s, x).board.ready;
    }
  }

  lemma OneTurnCloser(s: State, held: set<Item>, shield: bool, diagnose: bool, arrivals: seq<Completion>,
                      c: Item, x: Item)
    returns (held': set<Item>, shield': bool)
    requires OnTheWay(s, held, shield, c) && x == Least(s.board.ready) && x != c
    ensures PickRun(s, held, shield, diagnose, arrivals) == PickRun(Pop(s, x), held', shield', diagnose, arrivals)
    ensures OnTheWay(Pop(s, x), held', shield', c) && ComeTo(Pop(s, x), c) == ComeTo(s, c)
    ensures held' + SetAsideBefore(Pop(s, x), c) == held + SetAsideBefore(s, c)
    ensures shield' || StandsBefore(Pop(s, x), c) <==> shield || StandsBefore(s, c)
  {
    held', shield' := if Kept(s, x) then held + {x} else held, shield || Standing(s.meta, s.board.claimed, x.entry);
    TurnOnTheWay(s, held, shield, diagnose, c, x);
    UntilTheNextTurn(s, held, shield, diagnose, arrivals);
    OneMoreOnTheWay(s, held, shield, c, x, held', shield');
    OneStepCloser(s, c, x);
  }

  lemma HasCome(s: State, held: set<Item>, c: Item)
    requires IsLeast(s.board.ready, c)
    ensures ComeTo(s, c) == s && held + SetAsideBefore(s, c) == held && !StandsBefore(s, c)
  {
    assert ComeTo(s, c).board.ready == s.board.ready;
  }

  /** On its way to `c` the loop drops what is inert and sets aside the rest. */
  lemma {:induction false} ComesTo(s: State, held: set<Item>, shield: bool, diagnose: bool,
                                   arrivals: seq<Completion>, c: Item)
    requires OnTheWay(s, held, shield, c)
    ensures PickRun(s, held, shield, diagnose, arrivals)
         == PickRun(ComeTo(s, c), held + SetAsideBefore(s, c), shield || StandsBefore(s, c), diagnose, arrivals)
    decreases |s.board.ready|
  {
    var x := Least(s.board.ready);
    if x == c {
      HasCome(s, held, c);
    } else {
      var held1, shield1 := OneTurnCloser(s, held, shield, diagnose, arrivals, c, x);
      SmallerSubset(Pop(s, x).board.ready, s.board.ready);
      ComesTo(Pop(s, x), held1, shield1, diagnose, arrivals, c);
    }
  }

  lemma ThereIsLeast(s: State, held: set<Item>, shield: bool, c: Item)
    requires OnTheWay(s, held, shield, c)
    ensures var s1 := ComeTo(s, c); s1.board.ready != {} && Least(s1.board.ready) == c
  {
    assert c in ComeTo(s, c).board.ready;
  }

  lemma LeftBehind(s: State, held: set<Item>, shield: bool, c: Item)
    requires OnTheWay(s, held, shield, c)
    ensures ComeTo(s, c).board.ready - {c} + (held + SetAsideBefore(s, c)) == s.board.ready + held - {c} - Inert(s, c)
  {
  }

  /** Having come to `c`, it runs it if it may ... */
  lemma RunsIt(s: State, held: set<Item>, shield: bool, diagnose: bool, arrivals: seq<Completion>, c: Item)
    requires OnTheWay(s, held, shield, c) && LiveEntry(s.meta, c.entry)
    requires IsDaemon(s.meta, EntryOwner(c.entry)) ==> !shield && !StandsBefore(s, c)
    ensures PickRun(s, held, shield, diagnose, arrivals)
         == Chosen(Start(s.(board := s.board.(ready := s.board.ready + held - {c} - Inert(s, c))), c.entry), c.entry)
  {
    var s1, held1 := ComeTo(s, c), held + SetAsideBefore(s, c);
    ComesTo(s, held, shield, diagnose, arrivals, c);
    ThereIsLeast(s, held, shield, c);
    LeftBehind(s, held, shield, c);
  }

  lemma ReturningTurn(s: State, held: set<Item>, shield: bool, diagnose: bool, x: Item)
    requires s.board.ready != {} && Least(s.board.ready) == x && LostPermit(s.meta, x.entry)
    ensures PickTurn(s, held, shield, diagnose) == Again(GiveBack(s, x), held, shield)
  {
  }

  /** ... or returns it if it is a lost permit, and goes on. */
  lemma ReturnsIt(s: State, held: set<Item>, shield: bool, diagnose: bool, arrivals: seq<Completion>, x: Item)
    requires OnTheWay(s, held, shield, x) && LostPermit(s.meta, x.entry)
    ensures PickRun(s, held, shield, diagnose, arrivals)
         == PickRun(GiveBack(ComeTo(s, x), x), held + SetAsideBefore(s, x), shield || StandsBefore(s, x), diagnose,
                    arrivals)
  {
    var s1, held1, shield1 := ComeTo(s, x), held + SetAsideBefore(s, x), shield || StandsBefore(s, x);
    ComesTo(s, held, shield, diagnose, arrivals, x);
    ThereIsLeast(s, held, shield, x);
    ReturningTurn(s1, held1, shield1, diagnose, x);
    UntilTheNextTurn(s1, held1, shield1, diagnose, arrivals);
  }

  // ---- The loop and the reading --------------------------------------------

  function WithReady(s: State, ready: set<Item>): State { s.(board := s.board.(ready := ready)) }

  /** The loop's state is the reading's but for what it has popped: live and standing entries, which it
      holds, and inert ones.  Behind `floor` only what the last return queued is still in its heap. */
  ghost predicate Popped(r: Reading, s: State, held: set<Item>) {
    var f := r.floor;
    && s == WithReady(r.s, s.board.ready)
    && OrdersDistinct(r.s.board.ready, r.s.board.nextSeq)
    && s.board.ready <= r.s.board.ready && held <= r.s.board.ready && held !! s.board.ready
    && (f.Some? ==> forall x :: x in r.s.board.ready ==> x.order != f.value.order)
    && (forall x :: x in r.s.board.ready && x !in s.board.ready ==>
          f.Some? && Before(x, f.value) && (x in held <==> Kept(s, x)) && !LostPermit(s.meta, x.entry))
    && (forall x :: x in s.board.ready && f.Some? && Before(x, f.value) ==> LiveEntry(s.meta, x.entry))
  }

  /** ... and its shield is up exactly behind a standing placeholder. */
  ghost predicate Follows(r: Reading, s: State, held: set<Item>, shield: bool) {
    && Popped(r, s, held)
    && (forall x :: x in held && LiveEntry(s.meta, x.entry) ==> shield && IsDaemon(s.meta, EntryOwner(x.entry)))
    && (shield <==> r.floor.Some? && StandsBefore(r.s, r.floor.value))
    && (shield ==> HasLive(s.meta, s.board.ready, false))
  }

  lemma StartFollows(s: State)
    requires OrdersDistinct(s.board.ready, s.board.nextSeq)
    ensures Follows(Reading(s, None), s, {}, false)
  {
  }

  /** What is shielded in the loop is not eligible in the reading, and conversely. */
  lemma SameEligible(r: Reading, s: State, held: set<Item>, shield: bool, x: Item)
    requires Follows(r, s, held, shield) && x in r.s.board.ready && LiveEntry(s.meta, x.entry)
    ensures Eligible(r, x) <==>
              x in s.board.ready && (IsDaemon(s.meta, EntryOwner(x.entry)) ==> !shield && !StandsBefore(s, x))
  {
    if StandsBefore(r.s, Place(r, x)) && !shield {
      var z :| z in r.s.board.ready && Before(z, Place(r, x)) && Standing(s.meta, s.board.claimed, z.entry);
      assert z in s.board.ready;
    }
    if StandsBefore(s, x) {
      var z :| z in s.board.ready && Before(z, x) && Standing(s.meta, s.board.claimed, z.entry);
      assert z in r.s.board.ready;
    }
    if shield {
      var z :| z in r.s.board.ready && Before(z, r.floor.value) && Standing(s.meta, s.board.claimed, z.entry);
      assert Before(z, Place(r, x));
    }
  }

  lemma LiveRemain(r: Reading, s: State, held: set<Item>, shield: bool)
    requires Follows(r, s, held, shield)
    ensures HasLive(s.meta, s.board.ready, false) <==> HasLive(r.s.meta, r.s.board.ready, false)
  {
    if HasLive(r.s.meta, r.s.board.ready, false) {
      var y :| y in r.s.board.ready && LiveEntry(s.meta, y.entry) && !IsDaemon(s.meta, EntryOwner(y.entry));
      assert y in s.board.ready;
    }
  }

  lemma StandBefore(r: Reading, s: State, held: set<Item>, shield: bool, x: Item)
    requires Follows(r, s, held, shield) && x in s.board.ready && !LiveEntry(s.meta, x.entry)
    ensures r.floor.Some? ==> Before(r.floor.value, x)
    ensures shield || StandsBefore(s, x) <==> StandsBefore(r.s, x)
  {
    if StandsBefore(r.s, x) {
      var z :| z in r.s.board.ready && Before(z, x) && Standing(s.meta, s.board.claimed, z.entry);
      if z !in s.board.ready {
        assert StandsBefore(r.s, r.floor.value);
      }
    }
    if shield {
      var z :| z in r.s.board.ready && Before(z, r.floor.value) && Standing(s.meta, s.board.claimed, z.entry);
      assert Before(z, x);
    }
    if StandsBefore(s, x) {
      var z :| z in s.board.ready && Before(z, x) && Standing(s.meta, s.board.claimed, z.entry);
      assert z in r.s.board.ready;
    }
  }

  lemma LostRemain(r: Reading, s: State, held: set<Item>, shield: bool)
    requires Follows(r, s, held, shield)
    ensures Lost(s) == Lost(r.s)
  {
  }

  /** What comes before the first that may run, or before the next permit to return, is passed. */
  lemma Passed(r: Reading, s: State, held: set<Item>, shield: bool, c: Item, x: Item)
    requires Follows(r, s, held, shield) && x in s.board.ready && Before(x, c) && LiveEntry(s.meta, x.entry)
    requires !Eligible(r, x)
    ensures IsDaemon(s.meta, EntryOwner(x.entry)) && (shield || StandsBefore(s, x))
  {
    SameEligible(r, s, held, shield, x);
  }

  lemma WayToReturn(r: Reading, s: State, held: set<Item>, shield: bool, x: Item)
    requires Follows(r, s, held, shield) && ReturnsNext(r) && x == Least(Lost(r.s))
    ensures OnTheWay(s, held, shield, x) && LostPermit(s.meta, x.entry)
  {
    LostRemain(r, s, held, shield);
    LiveRemain(r, s, held, shield);
    StandBefore(r, s, held, shield, x);
    forall y | y in s.board.ready && Before(y, x) && LiveEntry(s.meta, y.entry)
      ensures IsDaemon(s.meta, EntryOwner(y.entry)) && (shield || StandsBefore(s, y))
    {
      Passed(r, s, held, shield, x, y);
    }
    forall y | y in s.board.ready && Before(y, x) ensures !LostPermit(s.meta, y.entry) {
      assert y in Lost(s) ==> y in Lost(r.s);
    }
  }

  /** What the return of `x` queues, which does not depend on the rest of the heap. */
  function QueuedBy(s: State, x: Item): set<Item> { GiveBack(WithReady(s, {}), x).board.ready }

  lemma GrantQueues(s: State, sid: nat)
    requires sid in s.sems
    ensures var (t, granted) := Grant(WithReady(s, {}), sid);
            Grant(s, sid) == (WithReady(t, s.board.ready + t.board.ready), granted)
  {
    var q := FromLive(s.meta, s.sems[sid].queue);
    if q == [] {
      assert s.board.ready + {} == s.board.ready;
    } else {
      var x := Item(TaskPriority(s.meta, q[0].owner), s.board.nextSeq, Permit(q[0].owner, q[0].cont, sid));
      assert {} + {x} == {x};
    }
  }

  lemma ReturnQueues(s: State, sid: nat, o: Owner)
    requires sid in s.sems
    ensures var t := ReturnPermit(WithReady(s, {}), sid, o);
            ReturnPermit(s, sid, o) == WithReady(t, s.board.ready + t.board.ready)
  {
    GrantQueues(DropHolder(s, sid, o), sid);
  }

  lemma ReturnedQueues(s: State, x: Item)
    ensures GiveBack(s, x) == WithReady(GiveBack(WithReady(s, {}), x), s.board.ready - {x} + QueuedBy(s, x))
  {
    assert Pop(WithReady(s, {}), x) == WithReady(Pop(s, x), {});
    if x.entry.Permit? && x.entry.sid in s.sems {
      ReturnQueues(Pop(s, x), x.entry.sid, x.entry.owner);
    }
  }

  lemma QueuedIsLive(s: State, x: Item)
    requires x in Lost(s) && OrdersDistinct(s.board.ready, s.board.nextSeq)
    ensures forall y :: y in QueuedBy(s, x) ==> LiveEntry(s.meta, y.entry) && y.order == s.board.nextSeq
  {
    var t := WithReady(s, {x});
    assert x in Lost(t) && OrdersDistinct({x}, s.board.nextSeq);
    ReturnsOne(t, x);
    ReturnedQueues(t, x);
  }

  /** The reading and the loop return the same permit. */
  lemma FollowsOn(r: Reading, s: State, held: set<Item>, shield: bool, x: Item)
    requires Follows(r, s, held, shield) && ReturnsNext(r) && x == Least(Lost(r.s))
    ensures Follows(Reading(GiveBack(r.s, x), Some(x)), GiveBack(ComeTo(s, x), x), held + SetAsideBefore(s, x),
                    shield || StandsBefore(s, x))
  {
    var s1, q := ComeTo(s, x), QueuedBy(r.s, x);
    WayToReturn(r, s, held, shield, x);
    LostRemain(r, s, held, shield);
    ReturnedQueues(r.s, x);
    ReturnedQueues(s1, x);
    assert WithReady(r.s, {}) == WithReady(s1, {});
    QueuedIsLive(r.s, x);
    ReturnsOne(r.s, x);
    StandBefore(r, s, held, shield, x);
    FollowsQueued(r, s, held, shield, x, GiveBack(r.s, x), q);
    assert GiveBack(s1, x) == WithReady(GiveBack(r.s, x), s1.board.ready - {x} + q);
  }

  lemma FollowsQueued(r: Reading, s: State, held: set<Item>, shield: bool, x: Item, t: State, q: set<Item>)
    requires Follows(r, s, held, shield) && x in Lost(s) && OnTheWay(s, held, shield, x)
    requires shield || StandsBefore(s, x) <==> StandsBefore(r.s, x)
    requires t.board.ready == r.s.board.ready - {x} + q && OrdersDistinct(t.board.ready, t.board.nextSeq)
    requires t.meta == s.meta && t.board.claimed == s.board.claimed
    requires forall y :: y in q ==> LiveEntry(s.meta, y.entry) && y.order == s.board.nextSeq
    ensures Follows(Reading(t, Some(x)), WithReady(t, ComeTo(s, x).board.ready - {x} + q), held + SetAsideBefore(s, x),
                    shield || StandsBefore(s, x))
  {
    PoppedQueued(r, s, held, shield, x, t, q);
    if StandsBefore(r.s, x) {
      var z :| z in r.s.board.ready && Before(z, x) && Standing(s.meta, s.board.claimed, z.entry);
      assert z in t.board.ready;
      var y :| y in s.board.ready && LiveEntry(s.meta, y.entry) && !IsDaemon(s.meta, EntryOwner(y.entry));
      assert y in ComeTo(s, x).board.ready - {x} + q;
    }
  }

  lemma PoppedQueued(r: Reading, s: State, held: set<Item>, shield: bool, x: Item, t: State, q: set<Item>)
    requires Popped(r, s, held) && x in Lost(s) && OnTheWay(s, held, shield, x)
    requires t.board.ready == r.s.board.ready - {x} + q && OrdersDistinct(t.board.ready, t.board.nextSeq)
    requires t.meta == s.meta && t.board.claimed == s.board.claimed
    requires forall y :: y in q ==> LiveEntry(s.meta, y.entry) && y.order == s.board.nextSeq
    ensures Popped(Reading(t, Some(x)), WithReady(t, ComeTo(s, x).board.ready - {x} + q), held + SetAsideBefore(s, x))
  {
    assert r.floor.Some? ==> Before(r.floor.value, x);
    var ready, held1 := ComeTo(s, x).board.ready - {x} + q, held + SetAsideBefore(s, x);
    assert ready <= t.board.ready && held1 <= t.board.ready && held1 !! ready;
    forall y | y in t.board.ready && y !in ready
      ensures Before(y, x) && (y in held1 <==> Kept(s, y)) && !LostPermit(s.meta, y.entry)
    {
      assert y in r.s.board.ready;
    }
  }

  lemma {:induction false} ReadsOn(r: Reading, s: State, held: set<Item>, shield: bool, diagnose: bool,
                                   arrivals: seq<Completion>)
    returns (s': State, held': set<Item>, shield': bool)
    requires Follows(r, s, held, shield)
    ensures var r' := AfterReturns(r);
            Follows(r', s', held', shield') && !ReturnsNext(r') && r'.s.queue == r.s.queue
    ensures PickRun(s, held, shield, diagnose, arrivals) == PickRun(s', held', shield', diagnose, arrivals)
    decreases |Lost(r.s)|
  {
    s', held', shield' := s, held, shield;
    if ReturnsNext(r) {
      var x := Least(Lost(r.s));
      ReturnsOne(r.s, x);
      SmallerSubset(Lost(GiveBack(r.s, x)), Lost(r.s));
      WayToReturn(r, s, held, shield, x);
      ReturnsIt(s, held, shield, diagnose, arrivals, x);
      FollowsOn(r, s, held, shield, x);
      s', held', shield' := ReadsOn(Reading(GiveBack(r.s, x), Some(x)), GiveBack(ComeTo(s, x), x),
                                    held + SetAsideBefore(s, x), shield || StandsBefore(s, x), diagnose, arrivals);
    }
  }

  // ---- The first eligible entry is picked ----------------------------------

  lemma StandsFurtherOn(s: State, x: Item, y: Item)
    requires StandsBefore(s, x) && Before(x, y)
    ensures StandsBefore(s, y)
  {
    var z :| z in s.board.ready && Before(z, x) && Standing(s.meta, s.board.claimed, z.entry);
    assert Before(z, y);
  }

  lemma NothingLostBefore(r: Reading, c: Item, x: Item)
    requires FirstEligible(r, c) && !ReturnsNext(r) && x in Lost(r.s)
    ensures !Before(x, c)
  {
    var y := Least(Lost(r.s));
    if StandsBefore(r.s, y) && Before(y, Place(r, c)) {
      StandsFurtherOn(r.s, y, Place(r, c));
    }
    assert Before(y, c) ==> Before(y, Place(r, c));
    assert forall z :: Eligible(r, z) && Before(z, y) ==> !Before(y, c);
  }

  lemma WayToPick(r: Reading, s: State, held: set<Item>, shield: bool, c: Item)
    requires Follows(r, s, held, shield) && FirstEligible(r, c) && !ReturnsNext(r)
    ensures OnTheWay(s, held, shield, c) && LiveEntry(s.meta, c.entry)
    ensures IsDaemon(s.meta, EntryOwner(c.entry)) ==> !shield && !StandsBefore(s, c)
  {
    SameEligible(r, s, held, shield, c);
    forall y | y in s.board.ready && Before(y, c) && LiveEntry(s.meta, y.entry)
      ensures IsDaemon(s.meta, EntryOwner(y.entry)) && (shield || StandsBefore(s, y))
    {
      Passed(r, s, held, shield, c, y);
    }
    forall y | y in s.board.ready && LostPermit(s.meta, y.entry) ensures !Before(y, c) {
      NothingLostBefore(r, c, y);
    }
  }

  lemma SameHeapLeft(r: Reading, s: State, held: set<Item>, shield: bool, c: Item)
    requires Follows(r, s, held, shield) && c in s.board.ready
    ensures s.board.ready + held - {c} - Inert(s, c) == r.s.board.ready - {c} - Inert(r.s, Place(r, c))
  {
    forall x
      ensures x in s.board.ready + held - {c} - Inert(s, c) <==>
                x in r.s.board.ready - {c} - Inert(r.s, Place(r, c))
    {
      if x in r.s.board.ready && x !in s.board.ready {
        assert Before(x, Place(r, c));
      }
    }
  }

  /** `pick_next` refines its declarative reading, whatever the heap holds.  Permits that were on their
      way to owners cancelled since go back, in heap order, as long as nothing may run before them;
      then the first eligible entry is picked, those granted on the way included.  The heap is left as
      it is then, with original orders, less the entry picked and the inert ones up to where the loop
      had come; nothing else changes but the status of a task that starts. */
  lemma PicksTheFirstEligible(s: State, diagnose: bool, arrivals: seq<Completion>, c: Item)
    requires OrdersDistinct(s.board.ready, s.board.nextSeq) && FirstEligible(AfterReturns(Reading(s, None)), c)
    ensures var r := AfterReturns(Reading(s, None));
            PickRun(s, {}, false, diagnose, arrivals)
            == Chosen(Start(WithReady(r.s, r.s.board.ready - {c} - Inert(r.s, Place(r, c))), c.entry), c.entry)
  {
    var r := AfterReturns(Reading(s, None));
    StartFollows(s);
    var s1, held, shield := ReadsOn(Reading(s, None), s, {}, false, diagnose, arrivals);
    WayToPick(r, s1, held, shield, c);
    RunsIt(s1, held, shield, diagnose, arrivals, c);
    SameHeapLeft(r, s1, held, shield, c);
  }

  // ---- When nothing is chosen ----------------------------------------------

  /** Nothing may run, and a permit can be returned from behind a standing placeholder only. */
  ghost predicate Stuck(s: State) {
    && s.queue == []
    && (forall x :: x in s.board.ready && LiveEntry(s.meta, x.entry) ==>
          IsDaemon(s.meta, EntryOwner(x.entry)) && StandsBefore(s, x))
    && (forall x :: x in s.board.ready && LostPermit(s.meta, x.entry) ==> StandsBefore(s, x))
  }

  lemma StuckTurn(s: State, diagnose: bool, x: Item)
    requires Stuck(s) && IsLeast(s.board.ready, x) && x == Least(s.board.ready)
    requires !Standing(s.meta, s.board.claimed, x.entry)
    ensures PickTurn(s, {}, false, diagnose) == Again(Pop(s, x), {}, false)
  {
  }

  lemma {:induction false} StuckPicksNothing(s: State, diagnose: bool)
    requires Stuck(s)
    ensures !PickRun(s, {}, false, diagnose, []).Chosen?
    decreases |s.board.ready|
  {
    if s.board.ready != {} {
      var x := Least(s.board.ready);
      if !Standing(s.meta, s.board.claimed, x.entry) {
        StuckTurn(s, diagnose, x);
        UntilTheNextTurn(s, {}, false, diagnose, []);
        StillStuck(s, x);
        SmallerSubset(Pop(s, x).board.ready, s.board.ready);
        StuckPicksNothing(Pop(s, x), diagnose);
      }
    }
  }

  lemma StillStuck(s: State, x: Item)
    requires Stuck(s) && !Standing(s.meta, s.board.claimed, x.entry)
    ensures Stuck(Pop(s, x))
  {
    forall y | y in Pop(s, x).board.ready && StandsBefore(s, y) ensures StandsBefore(Pop(s, x), y) {
      var z :| z in s.board.ready && Before(z, y) && Standing(s.meta, s.board.claimed, z.entry);
      assert z in Pop(s, x).board.ready;
    }
  }

  lemma NothingEligible(r: Reading, s: State, held: set<Item>, shield: bool)
    requires Follows(r, s, held, shield) && !ReturnsNext(r) && s.queue == [] && forall x :: !Eligible(r, x)
    ensures Stuck(s) && held == {} && !shield
  {
    forall x | x in s.board.ready && LiveEntry(s.meta, x.entry)
      ensures IsDaemon(s.meta, EntryOwner(x.entry)) && (shield || StandsBefore(s, x))
    {
      SameEligible(r, s, held, shield, x);
    }
    LostRemain(r, s, held, shield);
    LiveRemain(r, s, held, shield);
    forall x | x in s.board.ready && LostPermit(s.meta, x.entry) ensures StandsBefore(r.s, x) {
      assert x in Lost(r.s);
    }
    forall x | x in s.board.ready && LostPermit(s.meta, x.entry) ensures StandsBefore(s, x) {
      StandBefore(r, s, held, shield, x);
    }
    if x :| x in held {
      assert StandsBefore(r.s, r.floor.value);
    }
  }

  /** Conversely, with nothing eligible it picks nothing: it raises, gives up, or blocks. */
  lemma PicksNothingElse(s: State, diagnose: bool)
    requires OrdersDistinct(s.board.ready, s.board.nextSeq) && s.queue == []
    requires forall x :: !Eligible(AfterReturns(Reading(s, None)), x)
    ensures !PickRun(s, {}, false, diagnose, []).Chosen?
  {
    StartFollows(s);
    var s1, held, shield := ReadsOn(Reading(s, None), s, {}, false, diagnose, []);
    NothingEligible(AfterReturns(Reading(s, None)), s1, held, shield);
    StuckPicksNothing(s1, diagnose);
  }

  lemma SomeFirst(r: Reading)
    requires OrdersDistinct(r.s.board.ready, r.s.board.nextSeq) && exists x :: Eligible(r, x)
    ensures exists c :: FirstEligible(r, c)
  {
    var all := set x | x in r.s.board.ready && Eligible(r, x);
    var y :| Eligible(r, y);
    assert y in all;
    var c := Least(all);
    forall x | Eligible(r, x) ensures x == c || Before(c, x) {
      assert x in all;
    }
    assert FirstEligible(r, c);
  }

  lemma {:induction false} ReadingKeepsOrders(r: Reading)
    requires OrdersDistinct(r.s.board.ready, r.s.board.nextSeq)
    ensures OrdersDistinct(AfterReturns(r).s.board.ready, AfterReturns(r).s.board.nextSeq)
    decreases |Lost(r.s)|
  {
    if ReturnsNext(r) {
      var x := Least(Lost(r.s));
      ReturnsOne(r.s, x);
      SmallerSubset(Lost(GiveBack(r.s, x)), Lost(r.s));
      ReadingKeepsOrders(Reading(GiveBack(r.s, x), Some(x)));
    }
  }

  /** So, with nothing arriving, it picks something if and only if something is eligible. */
  lemma PicksIffEligible(s: State, diagnose: bool)
    requires OrdersDistinct(s.board.ready, s.board.nextSeq) && s.queue == []
    ensures PickRun(s, {}, false, diagnose, []).Chosen? <==> exists c :: Eligible(AfterReturns(Reading(s, None)), c)
  {
    var r := AfterReturns(Reading(s, None));
    if c :| Eligible(r, c) {
      ReadingKeepsOrders(Reading(s, None));
      SomeFirst(r);
      var d :| FirstEligible(r, d);
      PicksTheFirstEligible(s, diagnose, [], d);
    } else {
      PicksNothingElse(s, diagnose);
    }
  }

  // ---- Priorities and daemons ----------------------------------------------

  predicate OfDaemon(meta: map<Key, Meta>, o: Owner) {
    o.Of? && TaskKey(o.tid) in meta && meta[TaskKey(o.tid)].daemon
  }

  /** Live, and shielded by nothing. */
  predicate MayRun(meta: map<Key, Meta>, e: Entry) {
    !e.Placeholder? && !IsCancelled(meta, EntryOwner(e)) && !OfDaemon(meta, EntryOwner(e))
  }

  predicate Shields(b: Board, meta: map<Key, Meta>, e: Entry) {
    e.Placeholder? && e.cell !in b.claimed && !IsCancelled(meta, e.owner)
  }

  /** What is picked has the highest priority of everything live that is not a daemon's, the first come of
      equals; and if it is a daemon's itself, it comes before all placeholders of live waits. */
  lemma PicksByPriority(s: State, diagnose: bool) returns (c: Item)
    requires OrdersDistinct(s.board.ready, s.board.nextSeq) && s.queue == []
    requires PickRun(s, {}, false, diagnose, []).Chosen?
    ensures var r := AfterReturns(Reading(s, None)); var ready, meta := r.s.board.ready, r.s.meta;
            && c in ready && c.entry == PickRun(s, {}, false, diagnose, []).entry
            && !c.entry.Placeholder? && !IsCancelled(meta, EntryOwner(c.entry))
            && var shielded := OfDaemon(meta, EntryOwner(c.entry));
               forall x :: x in ready && x != c ==>
                 (MayRun(meta, x.entry) || (shielded && Shields(r.s.board, meta, x.entry)) ==>
                    c.prio > x.prio || (c.prio == x.prio && c.order < x.order))
  {
    var r := AfterReturns(Reading(s, None));
    PicksIffEligible(s, diagnose);
    ReadingKeepsOrders(Reading(s, None));
    SomeFirst(r);
    c :| FirstEligible(r, c);
    PicksTheFirstEligible(s, diagnose, [], c);
    forall x | x in r.s.board.ready && x != c && MayRun(r.s.meta, x.entry) ensures Before(c, x) {
      assert Eligible(r, x);
    }
    if OfDaemon(r.s.meta, EntryOwner(c.entry)) {
      forall z | z in r.s.board.ready && z != c && Shields(r.s.board, r.s.meta, z.entry) ensures Before(c, z) {
        assert !Before(z, Place(r, c));
      }
    }
  }
}
