/** `lazy_ask`: lazy environment entries evaluated at most once per set of overrides they depend
    on, with the keys an evaluation reads recorded as it runs. */
module LazyAsk {
  import opened Wrappers

  type Key = string

  /** `NoneValue` is Python's `None`, which the caches do not count as a hit. */
  datatype Value = NoneValue | Val(id: int)

  datatype Error = Raised(id: int) | MissingKey(key: Key)

  /** The name of a program; a program decides what to do next by the answers it got so far. */
  type Program = nat

  datatype Instr =
    | Return(value: Value)
    | Raise(id: int)
    | Ask(key: Key)
    | Local(over: map<Key, Value>, body: Program)

  type Behaviour = (Program, seq<Value>) -> Instr

  datatype Raw = Plain(value: Value) | Lazy(prog: Program)

  type Env = map<Key, Raw>

  datatype Outcome = Answer(value: Value) | Failure(error: Error) | SelfDeadlock

  /** The environment inside `Local` scopes that override `over` in all. */
  function Effective(base: Env, over: map<Key, Value>): Env {
    base + map key | key in over :: Plain(over[key])
  }

  // ---- Evaluating afresh ---------------------------------------------------

  datatype Fresh = Fresh(outcome: Outcome, asked: set<Key>)

  /** What asking for `key` means, without caches: None if it takes more than `fuel` steps. */
  function AskFresh(act: Behaviour, env: Env, key: Key, fuel: nat): Option<Fresh>
    decreases fuel, 2
  {
    if key !in env then Some(Fresh(Failure(MissingKey(key)), {key}))
    else
      match env[key]
      case Plain(v) => Some(Fresh(Answer(v), {key}))
      case Lazy(q) =>
        var sub := RunFresh(act, env, q, [], fuel);
        if sub.None? then None else Some(Fresh(sub.value.outcome, {key} + sub.value.asked))
  }

  /** What running `p`, given the answers it got so far, means without caches. */
  function RunFresh(act: Behaviour, env: Env, p: Program, answers: seq<Value>, fuel: nat): Option<Fresh>
    decreases fuel, 1
  {
    if fuel == 0 then None
    else
      match act(p, answers)
      case Return(v) => Some(Fresh(Answer(v), {}))
      case Raise(e) => Some(Fresh(Failure(Raised(e)), {}))
      case Ask(key) => ThenFresh(act, env, p, answers, AskFresh(act, env, key, fuel - 1), fuel)
      case Local(over, body) =>
        ThenFresh(act, env, p, answers, RunFresh(act, Effective(env, over), body, [], fuel - 1), fuel)
  }

  /** Goes on with an answer. */
  function ThenFresh(act: Behaviour, env: Env, p: Program, answers: seq<Value>, sub: Option<Fresh>, fuel: nat)
    : Option<Fresh>
    requires fuel > 0
    decreases fuel, 0
  {
    if sub.None? || !sub.value.outcome.Answer? then sub
    else
      var rest := RunFresh(act, env, p, answers + [sub.value.outcome.value], fuel - 1);
      if rest.None? then None else Some(Fresh(rest.value.outcome, sub.value.asked + rest.value.asked))
  }

  // ---- Evaluating with caches ----------------------------------------------

  datatype Entry = Entry(value: Value, deps: set<Key>)

  type Cache = map<Key, Entry>

  datatype Caches = Caches(shared: Cache, scope: Cache)

  const NO_CACHES := Caches(map[], map[])

  /** What programs do, the environment handed to `lazy_ask`, and the overrides of a scope. */
  datatype World = World(act: Behaviour, base: Env, over: map<Key, Value>)

  function EnvOf(w: World): Env { Effective(w.base, w.over) }

  function Inside(w: World, inner: map<Key, Value>): World { w.(over := w.over + inner) }

  /** `asked` is what was added to the innermost set of `eval_stack`. */
  datatype Cached = Cached(outcome: Outcome, asked: set<Key>, caches: Caches)

  /** `_cache_lookup`, and whether it counts as a hit */
  function Lookup(c: Caches, overridden: set<Key>, key: Key): Option<Entry> {
    if key in c.scope then Hit(c.scope[key])
    else if key in c.shared && c.shared[key].deps !! overridden then Hit(c.shared[key])
    else None
  }

  function Hit(e: Entry): Option<Entry> { if e.value.NoneValue? then None else Some(e) }

  /** `_cache_store` */
  function Store(c: Caches, overridden: set<Key>, key: Key, e: Entry): Caches {
    if e.deps !! overridden then c.(shared := c.shared[key := e]) else c.(scope := c.scope[key := e])
  }

  /** The Ask branch of the handler of scope `w`.  `held` are the keys being evaluated, whose
      semaphores are taken: asking for one of them again, unless it hits, waits for ever. */
  function AskCached(w: World, key: Key, c: Caches, held: set<Key>, fuel: nat): Option<Cached>
    decreases fuel, 2
  {
    var env := EnvOf(w);
    if key !in env then Some(Cached(Failure(MissingKey(key)), {key}, c))
    else
      match env[key]
      case Plain(v) => Some(Cached(Answer(v), {key}, c))
      case Lazy(q) =>
        var hit := Lookup(c, w.over.Keys, key);
        if hit.Some? then Some(Cached(Answer(hit.value.value), {key} + hit.value.deps, c))
        else if key in held then Some(Cached(SelfDeadlock, {key}, c))
        else
          var sub := RunCached(w, q, [], c, held + {key}, fuel);
          if sub.None? then None
          else if !sub.value.outcome.Answer? then Some(sub.value.(asked := {key}))
          else
            var e := Entry(sub.value.outcome.value, sub.value.asked);
            Some(Cached(sub.value.outcome, {key} + e.deps, Store(sub.value.caches, w.over.Keys, key, e)))
  }

  function RunCached(w: World, p: Program, answers: seq<Value>, c: Caches, held: set<Key>, fuel: nat): Option<Cached>
    decreases fuel, 1
  {
    if fuel == 0 then None
    else
      match w.act(p, answers)
      case Return(v) => Some(Cached(Answer(v), {}, c))
      case Raise(e) => Some(Cached(Failure(Raised(e)), {}, c))
      case Ask(key) => ThenCached(w, p, answers, AskCached(w, key, c, held, fuel - 1), held, fuel)
      case Local(inner, body) =>
        var sub := RunCached(Inside(w, inner), body, [], Caches(c.shared, map[]), held, fuel - 1);
        ThenCached(w, p, answers, Left(sub, c.scope), held, fuel)
  }

  /** Back in the outer scope, whose own cache was not touched. */
  function Left(sub: Option<Cached>, scope: Cache): Option<Cached> {
    if sub.None? then None else Some(sub.value.(caches := sub.value.caches.(scope := scope)))
  }

  function ThenCached(w: World, p: Program, answers: seq<Value>, sub: Option<Cached>, held: set<Key>, fuel: nat)
    : Option<Cached>
    requires fuel > 0
    decreases fuel, 0
  {
    if sub.None? || !sub.value.outcome.Answer? then sub
    else
      var rest := RunCached(w, p, answers + [sub.value.outcome.value], sub.value.caches, held, fuel - 1);
      if rest.None? then None else Some(rest.value.(asked := sub.value.asked + rest.value.asked))
  }

  // ---- Meeting keys in an evaluation ---------------------------------------

  /** Within `fuel` steps an evaluation afresh asks for a lazy key of `held`; with `grow`, also
      for one that it is evaluating itself. */
  predicate MeetsAsk(act: Behaviour, env: Env, key: Key, held: set<Key>, grow: bool, fuel: nat)
    decreases fuel, 2
  {
    && key in env && env[key].Lazy?
    && (key in held
        || MeetsRun(act, env, env[key].prog, [], if grow then held + {key} else held, grow, fuel))
  }

  predicate MeetsRun(act: Behaviour, env: Env, p: Program, answers: seq<Value>, held: set<Key>, grow: bool, fuel: nat)
    decreases fuel, 1
  {
    fuel > 0
    && match act(p, answers)
       case Ask(key) =>
         || MeetsAsk(act, env, key, held, grow, fuel - 1)
         || MeetsThen(act, env, p, answers, AskFresh(act, env, key, fuel - 1), held, grow, fuel)
       case Local(over, body) =>
         || MeetsRun(act, Effective(env, over), body, [], held, grow, fuel - 1)
         || MeetsThen(act, env, p, answers, RunFresh(act, Effective(env, over), body, [], fuel - 1), held, grow, fuel)
       case _ => false
  }

  predicate MeetsThen(act: Behaviour, env: Env, p: Program, answers: seq<Value>, sub: Option<Fresh>,
                      held: set<Key>, grow: bool, fuel: nat)
    requires fuel > 0
    decreases fuel, 0
  {
    && sub.Some? && sub.value.outcome.Answer?
    && MeetsRun(act, env, p, answers + [sub.value.outcome.value], held, grow, fuel - 1)
  }

  // ---- More fuel changes nothing -------------------------------------------

  lemma {:induction false} MoreFuelAsk(act: Behaviour, env: Env, key: Key, n: nat, m: nat)
    requires AskFresh(act, env, key, n).Some? && n <= m
    ensures AskFresh(act, env, key, m) == AskFresh(act, env, key, n)
    decreases n, 2
  {
    if key in env && env[key].Lazy? {
      MoreFuel(act, env, env[key].prog, [], n, m);
    }
  }

  lemma {:induction false} MoreFuel(act: Behaviour, env: Env, p: Program, answers: seq<Value>, n: nat, m: nat)
    requires RunFresh(act, env, p, answers, n).Some? && n <= m
    ensures RunFresh(act, env, p, answers, m) == RunFresh(act, env, p, answers, n)
    decreases n, 1
  {
    match act(p, answers)
    case Ask(key) =>
      MoreFuelAsk(act, env, key, n - 1, m - 1);
      MoreFuelThen(act, env, p, answers, AskFresh(act, env, key, n - 1), n, m);
    case Local(over, body) =>
      MoreFuel(act, Effective(env, over), body, [], n - 1, m - 1);
      MoreFuelThen(act, env, p, answers, RunFresh(act, Effective(env, over), body, [], n - 1), n, m);
    case _ =>
  }

  lemma {:induction false} MoreFuelThen(act: Behaviour, env: Env, p: Program, answers: seq<Value>,
                                        sub: Option<Fresh>, n: nat, m: nat)
    requires 0 < n <= m && ThenFresh(act, env, p, answers, sub, n).Some?
    ensures ThenFresh(act, env, p, answers, sub, m) == ThenFresh(act, env, p, answers, sub, n)
    decreases n, 0
  {
    if sub.value.outcome.Answer? {
      MoreFuel(act, env, p, answers + [sub.value.outcome.value], n - 1, m - 1);
    }
  }

  /** A fresh answer is what any other fuel gives too. */
  lemma SameFresh(act: Behaviour, env: Env, p: Program, answers: seq<Value>, n: nat, m: nat)
    requires RunFresh(act, env, p, answers, n).Some? && RunFresh(act, env, p, answers, m).Some?
    ensures RunFresh(act, env, p, answers, n) == RunFresh(act, env, p, answers, m)
  {
    if n <= m {
      MoreFuel(act, env, p, answers, n, m);
    } else {
      MoreFuel(act, env, p, answers, m, n);
    }
  }

  lemma SameFreshAsk(act: Behaviour, env: Env, key: Key, n: nat, m: nat)
    requires AskFresh(act, env, key, n).Some? && AskFresh(act, env, key, m).Some?
    ensures AskFresh(act, env, key, n) == AskFresh(act, env, key, m)
  {
    if n <= m {
      MoreFuelAsk(act, env, key, n, m);
    } else {
      MoreFuelAsk(act, env, key, m, n);
    }
  }

  lemma {:induction false} MoreFuelMeetsAsk(act: Behaviour, env: Env, key: Key, held: set<Key>, grow: bool, n: nat,
                                            m: nat)
    requires n <= m
    ensures MeetsAsk(act, env, key, held, grow, n) ==> MeetsAsk(act, env, key, held, grow, m)
    ensures AskFresh(act, env, key, n).Some? && MeetsAsk(act, env, key, held, grow, m) ==>
              MeetsAsk(act, env, key, held, grow, n)
    decreases n, 3
  {
    if key in env && env[key].Lazy? {
      MoreFuelMeets(act, env, env[key].prog, [], if grow then held + {key} else held, grow, n, m);
    }
  }

  /** A key met stays met with more fuel, and a run that ended meets no more. */
  lemma {:induction false} MoreFuelMeets(act: Behaviour, env: Env, p: Program, answers: seq<Value>, held: set<Key>,
                                         grow: bool, n: nat, m: nat)
    requires n <= m
    ensures MeetsRun(act, env, p, answers, held, grow, n) ==> MeetsRun(act, env, p, answers, held, grow, m)
    ensures RunFresh(act, env, p, answers, n).Some? && MeetsRun(act, env, p, answers, held, grow, m) ==>
              MeetsRun(act, env, p, answers, held, grow, n)
    decreases n, 2
  {
    if n > 0 {
      match act(p, answers)
      case Ask(key) => MoreFuelMeetsAsking(act, env, p, answers, key, held, grow, n, m);
      case Local(over, body) => MoreFuelMeetsLocal(act, env, p, answers, over, body, held, grow, n, m);
      case _ =>
    }
  }

  lemma AskUnfolds(act: Behaviour, env: Env, p: Program, answers: seq<Value>, key: Key, held: set<Key>, grow: bool,
                   n: nat)
    requires n > 0 && act(p, answers) == Ask(key)
    ensures RunFresh(act, env, p, answers, n) == ThenFresh(act, env, p, answers, AskFresh(act, env, key, n - 1), n)
    ensures MeetsRun(act, env, p, answers, held, grow, n) <==>
              || MeetsAsk(act, env, key, held, grow, n - 1)
              || MeetsThen(act, env, p, answers, AskFresh(act, env, key, n - 1), held, grow, n)
  {
  }

  lemma LocalUnfolds(act: Behaviour, env: Env, p: Program, answers: seq<Value>, over: map<Key, Value>, body: Program,
                     held: set<Key>, grow: bool, n: nat)
    requires n > 0 && act(p, answers) == Local(over, body)
    ensures var sub := RunFresh(act, Effective(env, over), body, [], n - 1);
            && RunFresh(act, env, p, answers, n) == ThenFresh(act, env, p, answers, sub, n)
            && (MeetsRun(act, env, p, answers, held, grow, n) <==>
                  || MeetsRun(act, Effective(env, over), body, [], held, grow, n - 1)
                  || MeetsThen(act, env, p, answers, sub, held, grow, n))
  {
  }

  lemma {:induction false} MoreFuelMeetsAsking(act: Behaviour, env: Env, p: Program, answers: seq<Value>, key: Key,
                                               held: set<Key>, grow: bool, n: nat, m: nat)
    requires 0 < n <= m && act(p, answers) == Ask(key)
    ensures MeetsRun(act, env, p, answers, held, grow, n) ==> MeetsRun(act, env, p, answers, held, grow, m)
    ensures RunFresh(act, env, p, answers, n).Some? && MeetsRun(act, env, p, answers, held, grow, m) ==>
              MeetsRun(act, env, p, answers, held, grow, n)
    decreases n, 1
  {
    var sub := AskFresh(act, env, key, n - 1);
    AskUnfolds(act, env, p, answers, key, held, grow, n);
    AskUnfolds(act, env, p, answers, key, held, grow, m);
    MoreFuelMeetsAsk(act, env, key, held, grow, n - 1, m - 1);
    if sub.Some? {
      MoreFuelAsk(act, env, key, n - 1, m - 1);
      MoreFuelMeetsThen(act, env, p, answers, sub, held, grow, n, m);
    }
  }

  lemma {:induction false} MoreFuelMeetsLocal(act: Behaviour, env: Env, p: Program, answers: seq<Value>,
                                              over: map<Key, Value>, body: Program, held: set<Key>, grow: bool,
                                              n: nat, m: nat)
    requires 0 < n <= m && act(p, answers) == Local(over, body)
    ensures MeetsRun(act, env, p, answers, held, grow, n) ==> MeetsRun(act, env, p, answers, held, grow, m)
    ensures RunFresh(act, env, p, answers, n).Some? && MeetsRun(act, env, p, answers, held, grow, m) ==>
              MeetsRun(act, env, p, answers, held, grow, n)
    decreases n, 1
  {
    var env' := Effective(env, over);
    var sub := RunFresh(act, env', body, [], n - 1);
    LocalUnfolds(act, env, p, answers, over, body, held, grow, n);
    LocalUnfolds(act, env, p, answers, over, body, held, grow, m);
    MoreFuelMeets(act, env', body, [], held, grow, n - 1, m - 1);
    if sub.Some? {
      MoreFuel(act, env', body, [], n - 1, m - 1);
      MoreFuelMeetsThen(act, env, p, answers, sub, held, grow, n, m);
    }
  }

  lemma {:induction false} MoreFuelMeetsThen(act: Behaviour, env: Env, p: Program, answers: seq<Value>,
                                             sub: Option<Fresh>, held: set<Key>, grow: bool, n: nat, m: nat)
    requires 0 < n <= m && sub.Some?
    ensures MeetsThen(act, env, p, answers, sub, held, grow, n) ==> MeetsThen(act, env, p, answers, sub, held, grow, m)
    ensures ThenFresh(act, env, p, answers, sub, n).Some? && MeetsThen(act, env, p, answers, sub, held, grow, m) ==>
              MeetsThen(act, env, p, answers, sub, held, grow, n)
    decreases n, 0
  {
    if sub.value.outcome.Answer? {
      MoreFuelMeets(act, env, p, answers + [sub.value.outcome.value], held, grow, n - 1, m - 1);
    }
  }

  /** Steps of a run put together. */
  lemma AskThen(act: Behaviour, env: Env, p: Program, answers: seq<Value>, key: Key, held: set<Key>, m: nat, n: nat)
    requires act(p, answers) == Ask(key) && AskFresh(act, env, key, m).Some?
    requires n > 0 && ThenFresh(act, env, p, answers, AskFresh(act, env, key, m), n).Some?
    ensures RunFresh(act, env, p, answers, m + n + 1) == ThenFresh(act, env, p, answers, AskFresh(act, env, key, m), n)
    ensures MeetsRun(act, env, p, answers, held, false, m + n + 1) <==>
              || MeetsAsk(act, env, key, held, false, m)
              || MeetsThen(act, env, p, answers, AskFresh(act, env, key, m), held, false, n)
  {
    AskUnfolds(act, env, p, answers, key, held, false, m + n + 1);
    MoreFuelAsk(act, env, key, m, m + n);
    MoreFuelThen(act, env, p, answers, AskFresh(act, env, key, m), n, m + n + 1);
    MoreFuelMeetsAsk(act, env, key, held, false, m, m + n);
    MoreFuelMeetsThen(act, env, p, answers, AskFresh(act, env, key, m), held, false, n, m + n + 1);
  }

  lemma LocalThen(act: Behaviour, env: Env, p: Program, answers: seq<Value>, over: map<Key, Value>, body: Program,
                  sub: Option<Fresh>, held: set<Key>, m: nat, n: nat)
    requires act(p, answers) == Local(over, body) && sub == RunFresh(act, Effective(env, over), body, [], m)
    requires sub.Some?
    requires n > 0 && ThenFresh(act, env, p, answers, sub, n).Some?
    ensures RunFresh(act, env, p, answers, m + n + 1) == ThenFresh(act, env, p, answers, sub, n)
    ensures MeetsRun(act, env, p, answers, held, false, m + n + 1) <==>
              || MeetsRun(act, Effective(env, over), body, [], held, false, m)
              || MeetsThen(act, env, p, answers, sub, held, false, n)
  {
    LocalUnfolds(act, env, p, answers, over, body, held, false, m + n + 1);
    MoreFuel(act, Effective(env, over), body, [], m, m + n);
    MoreFuelThen(act, env, p, answers, sub, n, m + n + 1);
    MoreFuelMeets(act, Effective(env, over), body, [], held, false, m, m + n);
    MoreFuelMeetsThen(act, env, p, answers, sub, held, false, n, m + n + 1);
  }

  // ---- An evaluation depends on what it reads ------------------------------

  predicate Agree(env: Env, env': Env, keys: set<Key>) {
    forall key :: key in keys ==> (key in env <==> key in env') && (key in env ==> env[key] == env'[key])
  }

  lemma {:induction false} ReadsDecideAsk(act: Behaviour, env: Env, env': Env, key: Key, held: set<Key>, n: nat)
    requires AskFresh(act, env, key, n).Some? && Agree(env, env', AskFresh(act, env, key, n).value.asked)
    ensures AskFresh(act, env', key, n) == AskFresh(act, env, key, n)
    ensures MeetsAsk(act, env', key, held, false, n) == MeetsAsk(act, env, key, held, false, n)
    decreases n, 2
  {
    if key in env && env[key].Lazy? {
      ReadsDecide(act, env, env', env[key].prog, [], held, n);
    }
  }

  /** An evaluation in another environment that agrees on the keys read goes the same way. */
  lemma {:induction false} ReadsDecide(act: Behaviour, env: Env, env': Env, p: Program, answers: seq<Value>,
                                       held: set<Key>, n: nat)
    requires RunFresh(act, env, p, answers, n).Some? && Agree(env, env', RunFresh(act, env, p, answers, n).value.asked)
    ensures RunFresh(act, env', p, answers, n) == RunFresh(act, env, p, answers, n)
    ensures MeetsRun(act, env', p, answers, held, false, n) == MeetsRun(act, env, p, answers, held, false, n)
    decreases n, 1
  {
    match act(p, answers)
    case Ask(key) =>
      ReadsDecideAsk(act, env, env', key, held, n - 1);
      ReadsDecideThen(act, env, env', p, answers, AskFresh(act, env, key, n - 1), held, n);
    case Local(over, body) =>
      ReadsDecide(act, Effective(env, over), Effective(env', over), body, [], held, n - 1);
      ReadsDecideThen(act, env, env', p, answers, RunFresh(act, Effective(env, over), body, [], n - 1), held, n);
    case _ =>
  }

  lemma {:induction false} ReadsDecideThen(act: Behaviour, env: Env, env': Env, p: Program, answers: seq<Value>,
                                           sub: Option<Fresh>, held: set<Key>, n: nat)
    requires n > 0 && ThenFresh(act, env, p, answers, sub, n).Some?
    requires Agree(env, env', ThenFresh(act, env, p, answers, sub, n).value.asked)
    ensures ThenFresh(act, env', p, answers, sub, n) == ThenFresh(act, env, p, answers, sub, n)
    ensures MeetsThen(act, env', p, answers, sub, held, false, n)
            == MeetsThen(act, env, p, answers, sub, held, false, n)
    decreases n, 0
  {
    if sub.value.outcome.Answer? {
      ReadsDecide(act, env, env', p, answers + [sub.value.outcome.value], held, n - 1);
    }
  }

  // ---- What cache entries stand for ----------------------------------------

  /** Evaluating `key` in `env` gives the value of `e` after `n` steps, reads exactly its deps, and
      meets none of `avoid`. */
  ghost predicate Backed(act: Behaviour, env: Env, key: Key, e: Entry, avoid: set<Key>, n: nat) {
    && key in env && env[key].Lazy? && key !in avoid
    && RunFresh(act, env, env[key].prog, [], n).Some?
    && RunFresh(act, env, env[key].prog, [], n).value.outcome == Answer(e.value)
    && RunFresh(act, env, env[key].prog, [], n).value.asked == e.deps
    && !MeetsRun(act, env, env[key].prog, [], avoid, false, n)
  }

  ghost predicate GoodCache(act: Behaviour, env: Env, cache: Cache, avoid: set<Key>) {
    forall key :: key in cache ==> exists n :: Backed(act, env, key, cache[key], avoid, n)
  }

  /** The shared cache speaks of the base environment, a scope's of its effective one. */
  ghost predicate GoodCaches(w: World, c: Caches, avoid: set<Key>) {
    GoodCache(w.act, w.base, c.shared, avoid) && GoodCache(w.act, EnvOf(w), c.scope, avoid)
  }

  lemma BackedElsewhere(act: Behaviour, env: Env, env': Env, key: Key, e: Entry, avoid: set<Key>, n: nat)
    requires Backed(act, env, key, e, avoid, n) && Agree(env, env', e.deps) && key in env' && env'[key] == env[key]
    ensures Backed(act, env', key, e, avoid, n)
  {
    ReadsDecide(act, env, env', env[key].prog, [], avoid, n);
  }

  lemma HitIsBacked(w: World, c: Caches, key: Key, avoid: set<Key>) returns (n: nat)
    requires GoodCaches(w, c, avoid) && Lookup(c, w.over.Keys, key).Some?
    requires key in EnvOf(w) && EnvOf(w)[key].Lazy?
    ensures Backed(w.act, EnvOf(w), key, Lookup(c, w.over.Keys, key).value, avoid, n)
  {
    if key in c.scope {
      n :| Backed(w.act, EnvOf(w), key, c.scope[key], avoid, n);
    } else {
      n :| Backed(w.act, w.base, key, c.shared[key], avoid, n);
      BackedElsewhere(w.act, w.base, EnvOf(w), key, c.shared[key], avoid, n);
    }
  }

  lemma StoreIsGood(w: World, c: Caches, key: Key, e: Entry, avoid: set<Key>, n: nat)
    requires GoodCaches(w, c, avoid) && Backed(w.act, EnvOf(w), key, e, avoid, n)
    ensures GoodCaches(w, Store(c, w.over.Keys, key, e), avoid)
  {
    if e.deps !! w.over.Keys {
      BackedElsewhere(w.act, EnvOf(w), w.base, key, e, avoid, n);
      AddedIsGood(w.act, w.base, c.shared, key, e, avoid, n);
    } else {
      AddedIsGood(w.act, EnvOf(w), c.scope, key, e, avoid, n);
    }
  }

  lemma AddedIsGood(act: Behaviour, env: Env, cache: Cache, key: Key, e: Entry, avoid: set<Key>, n: nat)
    requires GoodCache(act, env, cache, avoid) && Backed(act, env, key, e, avoid, n)
    ensures GoodCache(act, env, cache[key := e], avoid)
  {
    var cache' := cache[key := e];
    forall k | k in cache' ensures exists m :: Backed(act, env, k, cache'[k], avoid, m) {
      if k == key {
        assert Backed(act, env, k, cache'[k], avoid, n);
      } else {
        assert cache'[k] == cache[k];
      }
    }
  }

  // ---- Cached answers are fresh --------------------------------------------

  lemma Nested(base: Env, over: map<Key, Value>, inner: map<Key, Value>)
    ensures Effective(Effective(base, over), inner) == Effective(base, over + inner)
  {
    var a, b := Effective(Effective(base, over), inner), Effective(base, over + inner);
    assert a.Keys == b.Keys;
    forall key | key in a ensures a[key] == b[key] {
      assert key in inner || key !in inner;
    }
  }

  predicate LocksOut(r: Option<Cached>) { r.Some? && r.value.outcome.SelfDeadlock? }

  predicate Ends(r: Option<Cached>) { r.Some? && !r.value.outcome.SelfDeadlock? }

  /** The cached run and a fresh one end alike, and the recorded reads are the real ones. */
  ghost predicate Matches(r: Option<Cached>, f: Option<Fresh>) {
    && r.Some? && f.Some? && f.value.outcome == r.value.outcome
    && (r.value.outcome.Answer? ==> f.value.asked == r.value.asked)
  }

  /** An answer to Ask is that of a fresh evaluation, which meets no key of `avoid` if the
      evaluating owner holds their semaphores, and the caches stay good. */
  lemma {:induction false} AskIsFresh(w: World, key: Key, c: Caches, held: set<Key>, avoid: set<Key>, fuel: nat)
    returns (n: nat)
    requires GoodCaches(w, c, avoid) && avoid <= held && Ends(AskCached(w, key, c, held, fuel))
    ensures Matches(AskCached(w, key, c, held, fuel), AskFresh(w.act, EnvOf(w), key, n))
    ensures !MeetsAsk(w.act, EnvOf(w), key, avoid, false, n)
    ensures GoodCaches(w, AskCached(w, key, c, held, fuel).value.caches, avoid)
    decreases fuel, 3
  {
    var env := EnvOf(w);
    n := 0;
    if key in env && env[key].Lazy? {
      if Lookup(c, w.over.Keys, key).Some? {
        n := HitIsBacked(w, c, key, avoid);
      } else {
        n := RunIsFresh(w, env[key].prog, [], c, held + {key}, avoid, fuel);
        var sub := RunCached(w, env[key].prog, [], c, held + {key}, fuel).value;
        if sub.outcome.Answer? {
          StoreIsGood(w, sub.caches, key, Entry(sub.outcome.value, sub.asked), avoid, n);
        }
      }
    }
  }

  lemma {:induction false} RunIsFresh(w: World, p: Program, answers: seq<Value>, c: Caches, held: set<Key>,
                                      avoid: set<Key>, fuel: nat)
    returns (n: nat)
    requires GoodCaches(w, c, avoid) && avoid <= held && Ends(RunCached(w, p, answers, c, held, fuel))
    ensures Matches(RunCached(w, p, answers, c, held, fuel), RunFresh(w.act, EnvOf(w), p, answers, n))
    ensures !MeetsRun(w.act, EnvOf(w), p, answers, avoid, false, n)
    ensures GoodCaches(w, RunCached(w, p, answers, c, held, fuel).value.caches, avoid)
    decreases fuel, 2
  {
    match w.act(p, answers)
    case Ask(_) => n := AskStepIsFresh(w, p, answers, c, held, avoid, fuel);
    case Local(_, _) => n := LocalStepIsFresh(w, p, answers, c, held, avoid, fuel);
    case _ => n := 1;
  }

  lemma {:induction false} AskStepIsFresh(w: World, p: Program, answers: seq<Value>, c: Caches, held: set<Key>,
                                          avoid: set<Key>, fuel: nat)
    returns (n: nat)
    requires GoodCaches(w, c, avoid) && avoid <= held && Ends(RunCached(w, p, answers, c, held, fuel))
    requires w.act(p, answers).Ask?
    ensures Matches(RunCached(w, p, answers, c, held, fuel), RunFresh(w.act, EnvOf(w), p, answers, n))
    ensures !MeetsRun(w.act, EnvOf(w), p, answers, avoid, false, n)
    ensures GoodCaches(w, RunCached(w, p, answers, c, held, fuel).value.caches, avoid)
    decreases fuel, 1
  {
    var key := w.act(p, answers).key;
    assert RunCached(w, p, answers, c, held, fuel)
           == ThenCached(w, p, answers, AskCached(w, key, c, held, fuel - 1), held, fuel);
    var m := AskIsFresh(w, key, c, held, avoid, fuel - 1);
    var anew := AskFresh(w.act, EnvOf(w), key, m);
    n := ThenIsFresh(w, p, answers, AskCached(w, key, c, held, fuel - 1), anew, held, avoid, fuel);
    AskThen(w.act, EnvOf(w), p, answers, key, avoid, m, n);
    n := m + n + 1;
  }

  lemma {:induction false} LocalStepIsFresh(w: World, p: Program, answers: seq<Value>, c: Caches, held: set<Key>,
                                            avoid: set<Key>, fuel: nat)
    returns (n: nat)
    requires GoodCaches(w, c, avoid) && avoid <= held && Ends(RunCached(w, p, answers, c, held, fuel))
    requires w.act(p, answers).Local?
    ensures Matches(RunCached(w, p, answers, c, held, fuel), RunFresh(w.act, EnvOf(w), p, answers, n))
    ensures !MeetsRun(w.act, EnvOf(w), p, answers, avoid, false, n)
    ensures GoodCaches(w, RunCached(w, p, answers, c, held, fuel).value.caches, avoid)
    decreases fuel, 1
  {
    var inner, body := w.act(p, answers).over, w.act(p, answers).body;
    var sub := RunCached(Inside(w, inner), body, [], Caches(c.shared, map[]), held, fuel - 1);
    assert RunCached(w, p, answers, c, held, fuel) == ThenCached(w, p, answers, Left(sub, c.scope), held, fuel);
    var m := BodyIsFresh(w, inner, body, c, held, avoid, fuel - 1);
    var anew := RunFresh(w.act, Effective(EnvOf(w), inner), body, [], m);
    n := ThenIsFresh(w, p, answers, Left(sub, c.scope), anew, held, avoid, fuel);
    LocalThen(w.act, EnvOf(w), p, answers, inner, body, anew, avoid, m, n);
    n := m + n + 1;
  }

  lemma {:induction false} BodyIsFresh(w: World, inner: map<Key, Value>, body: Program, c: Caches, held: set<Key>,
                                       avoid: set<Key>, fuel: nat)
    returns (n: nat)
    requires GoodCaches(w, c, avoid) && avoid <= held
    requires Ends(RunCached(Inside(w, inner), body, [], Caches(c.shared, map[]), held, fuel))
    ensures var r := RunCached(Inside(w, inner), body, [], Caches(c.shared, map[]), held, fuel);
            && Matches(r, RunFresh(w.act, Effective(EnvOf(w), inner), body, [], n))
            && !MeetsRun(w.act, Effective(EnvOf(w), inner), body, [], avoid, false, n)
            && GoodCaches(w, Caches(r.value.caches.shared, c.scope), avoid)
    decreases fuel, 3
  {
    Nested(w.base, w.over, inner);
    n := RunIsFresh(Inside(w, inner), body, [], Caches(c.shared, map[]), held, avoid, fuel);
  }

  lemma {:induction false} ThenIsFresh(w: World, p: Program, answers: seq<Value>, sub: Option<Cached>,
                                       anew: Option<Fresh>, held: set<Key>, avoid: set<Key>, fuel: nat)
    returns (n: nat)
    requires fuel > 0 && Matches(sub, anew) && GoodCaches(w, sub.value.caches, avoid) && avoid <= held
    requires Ends(ThenCached(w, p, answers, sub, held, fuel))
    ensures n > 0
    ensures Matches(ThenCached(w, p, answers, sub, held, fuel), ThenFresh(w.act, EnvOf(w), p, answers, anew, n))
    ensures !MeetsThen(w.act, EnvOf(w), p, answers, anew, avoid, false, n)
    ensures GoodCaches(w, ThenCached(w, p, answers, sub, held, fuel).value.caches, avoid)
    decreases fuel, 0
  {
    n := 1;
    if sub.value.outcome.Answer? {
      var m := RunIsFresh(w, p, answers + [sub.value.outcome.value], sub.value.caches, held, avoid, fuel - 1);
      n := m + 1;
    }
  }

  // ---- Caching never takes longer ------------------------------------------

  lemma {:induction false} AskIsQuick(w: World, key: Key, c: Caches, held: set<Key>, fuel: nat)
    requires GoodCaches(w, c, {}) && AskFresh(w.act, EnvOf(w), key, fuel).Some?
    ensures AskCached(w, key, c, held, fuel).Some?
    decreases fuel, 2
  {
    var env := EnvOf(w);
    if key in env && env[key].Lazy? {
      RunIsQuick(w, env[key].prog, [], c, held + {key}, fuel);
    }
  }

  /** Where a fresh run ends within some fuel, the cached one does. */
  lemma {:induction false} RunIsQuick(w: World, p: Program, answers: seq<Value>, c: Caches, held: set<Key>, fuel: nat)
    requires GoodCaches(w, c, {}) && RunFresh(w.act, EnvOf(w), p, answers, fuel).Some?
    ensures RunCached(w, p, answers, c, held, fuel).Some?
    decreases fuel, 1
  {
    match w.act(p, answers)
    case Ask(_) => AskStepIsQuick(w, p, answers, c, held, fuel);
    case Local(_, _) => LocalStepIsQuick(w, p, answers, c, held, fuel);
    case _ =>
  }

  lemma {:induction false} AskStepIsQuick(w: World, p: Program, answers: seq<Value>, c: Caches, held: set<Key>,
                                          fuel: nat)
    requires GoodCaches(w, c, {}) && RunFresh(w.act, EnvOf(w), p, answers, fuel).Some? && w.act(p, answers).Ask?
    ensures RunCached(w, p, answers, c, held, fuel).Some?
    decreases fuel, 0
  {
    var key := w.act(p, answers).key;
    AskIsQuick(w, key, c, held, fuel - 1);
    var sub := AskCached(w, key, c, held, fuel - 1).value;
    if sub.outcome.Answer? {
      var n := AskIsFresh(w, key, c, held, {}, fuel - 1);
      SameFreshAsk(w.act, EnvOf(w), key, n, fuel - 1);
      RunIsQuick(w, p, answers + [sub.outcome.value], sub.caches, held, fuel - 1);
    }
  }

  lemma {:induction false} LocalStepIsQuick(w: World, p: Program, answers: seq<Value>, c: Caches, held: set<Key>,
                                            fuel: nat)
    requires GoodCaches(w, c, {}) && RunFresh(w.act, EnvOf(w), p, answers, fuel).Some? && w.act(p, answers).Local?
    ensures RunCached(w, p, answers, c, held, fuel).Some?
    decreases fuel, 0
  {
    var inner, body := w.act(p, answers).over, w.act(p, answers).body;
    Nested(w.base, w.over, inner);
    RunIsQuick(Inside(w, inner), body, [], Caches(c.shared, map[]), held, fuel - 1);
    var sub := RunCached(Inside(w, inner), body, [], Caches(c.shared, map[]), held, fuel - 1).value;
    if sub.outcome.Answer? {
      var n := BodyIsFresh(w, inner, body, c, held, {}, fuel - 1);
      SameFresh(w.act, Effective(EnvOf(w), inner), body, [], n, fuel - 1);
      RunIsQuick(w, p, answers + [sub.outcome.value], Caches(sub.caches.shared, c.scope), held, fuel - 1);
    }
  }

  // ---- Without re-entry nothing is locked out ------------------------------

  ghost predicate NeverMeets(w: World, p: Program, answers: seq<Value>, held: set<Key>) {
    forall n :: !MeetsRun(w.act, EnvOf(w), p, answers, held, true, n)
  }

  lemma {:induction false} AskNeverLocksOut(w: World, key: Key, c: Caches, held: set<Key>, fuel: nat)
    requires GoodCaches(w, c, {}) && forall n :: !MeetsAsk(w.act, EnvOf(w), key, held, true, n)
    ensures !LocksOut(AskCached(w, key, c, held, fuel))
    decreases fuel, 2
  {
    var env := EnvOf(w);
    if key in env && env[key].Lazy? {
      forall n: nat ensures !MeetsRun(w.act, env, env[key].prog, [], held + {key}, true, n) {
        assert !MeetsAsk(w.act, env, key, held, true, n);
      }
      assert !MeetsAsk(w.act, env, key, held, true, 0);
      RunNeverLocksOut(w, env[key].prog, [], c, held + {key}, fuel);
    }
  }

  lemma {:induction false} RunNeverLocksOut(w: World, p: Program, answers: seq<Value>, c: Caches, held: set<Key>,
                                            fuel: nat)
    requires GoodCaches(w, c, {}) && NeverMeets(w, p, answers, held)
    ensures !LocksOut(RunCached(w, p, answers, c, held, fuel))
    decreases fuel, 1
  {
    if fuel > 0 {
      match w.act(p, answers)
      case Ask(_) => AskStepNeverLocksOut(w, p, answers, c, held, fuel);
      case Local(_, _) => LocalStepNeverLocksOut(w, p, answers, c, held, fuel);
      case _ =>
    }
  }

  lemma {:induction false} AskStepNeverLocksOut(w: World, p: Program, answers: seq<Value>, c: Caches, held: set<Key>,
                                                fuel: nat)
    requires fuel > 0 && GoodCaches(w, c, {}) && NeverMeets(w, p, answers, held) && w.act(p, answers).Ask?
    ensures !LocksOut(RunCached(w, p, answers, c, held, fuel))
    decreases fuel, 0
  {
    var key := w.act(p, answers).key;
    forall n: nat ensures !MeetsAsk(w.act, EnvOf(w), key, held, true, n) {
      assert !MeetsRun(w.act, EnvOf(w), p, answers, held, true, n + 1);
    }
    AskNeverLocksOut(w, key, c, held, fuel - 1);
    var sub := AskCached(w, key, c, held, fuel - 1);
    if sub.Some? && sub.value.outcome.Answer? {
      var n := AskIsFresh(w, key, c, held, {}, fuel - 1);
      MeetsNothingLater(w, p, answers, key, held, n);
      RunNeverLocksOut(w, p, answers + [sub.value.outcome.value], sub.value.caches, held, fuel - 1);
    }
  }

  lemma MeetsNothingLater(w: World, p: Program, answers: seq<Value>, key: Key, held: set<Key>, n: nat)
    requires NeverMeets(w, p, answers, held) && w.act(p, answers) == Ask(key)
    requires var f := AskFresh(w.act, EnvOf(w), key, n); f.Some? && f.value.outcome.Answer?
    ensures NeverMeets(w, p, answers + [AskFresh(w.act, EnvOf(w), key, n).value.outcome.value], held)
  {
    var answers' := answers + [AskFresh(w.act, EnvOf(w), key, n).value.outcome.value];
    forall m: nat ensures !MeetsRun(w.act, EnvOf(w), p, answers', held, true, m) {
      var k := if n <= m then m else n;
      MoreFuelAsk(w.act, EnvOf(w), key, n, k);
      AskUnfolds(w.act, EnvOf(w), p, answers, key, held, true, k + 1);
      MoreFuelMeets(w.act, EnvOf(w), p, answers', held, true, m, k);
      assert !MeetsRun(w.act, EnvOf(w), p, answers, held, true, k + 1);
    }
  }

  lemma {:induction false} LocalStepNeverLocksOut(w: World, p: Program, answers: seq<Value>, c: Caches, held: set<Key>,
                                                  fuel: nat)
    requires fuel > 0 && GoodCaches(w, c, {}) && NeverMeets(w, p, answers, held) && w.act(p, answers).Local?
    ensures !LocksOut(RunCached(w, p, answers, c, held, fuel))
    decreases fuel, 0
  {
    var inner, body := w.act(p, answers).over, w.act(p, answers).body;
    Nested(w.base, w.over, inner);
    forall n: nat ensures !MeetsRun(w.act, EnvOf(Inside(w, inner)), body, [], held, true, n) {
      assert !MeetsRun(w.act, EnvOf(w), p, answers, held, true, n + 1);
    }
    RunNeverLocksOut(Inside(w, inner), body, [], Caches(c.shared, map[]), held, fuel - 1);
    var sub := RunCached(Inside(w, inner), body, [], Caches(c.shared, map[]), held, fuel - 1);
    if sub.Some? && sub.value.outcome.Answer? {
      var n := BodyIsFresh(w, inner, body, c, held, {}, fuel - 1);
      MeetsNothingAfter(w, p, answers, held, n);
      RunNeverLocksOut(w, p, answers + [sub.value.outcome.value], Caches(sub.value.caches.shared, c.scope), held,
                       fuel - 1);
    }
  }

  lemma MeetsNothingAfter(w: World, p: Program, answers: seq<Value>, held: set<Key>, n: nat)
    requires NeverMeets(w, p, answers, held) && w.act(p, answers).Local?
    requires var i := w.act(p, answers); var f := RunFresh(w.act, Effective(EnvOf(w), i.over), i.body, [], n);
             f.Some? && f.value.outcome.Answer?
    ensures var i := w.act(p, answers); var f := RunFresh(w.act, Effective(EnvOf(w), i.over), i.body, [], n);
            NeverMeets(w, p, answers + [f.value.outcome.value], held)
  {
    var env', body := Effective(EnvOf(w), w.act(p, answers).over), w.act(p, answers).body;
    var answers' := answers + [RunFresh(w.act, env', body, [], n).value.outcome.value];
    forall m: nat ensures !MeetsRun(w.act, EnvOf(w), p, answers', held, true, m) {
      var k := if n <= m then m else n;
      MoreFuel(w.act, env', body, [], n, k);
      LocalUnfolds(w.act, EnvOf(w), p, answers, w.act(p, answers).over, body, held, true, k + 1);
      MoreFuelMeets(w.act, EnvOf(w), p, answers', held, true, m, k);
      assert !MeetsRun(w.act, EnvOf(w), p, answers, held, true, k + 1);
    }
  }

  // ---- The theorems --------------------------------------------------------

  /** The run of a whole program under a new handler. */
  function Handled(act: Behaviour, base: Env, p: Program, fuel: nat): Option<Cached> {
    RunCached(World(act, base, map[]), p, [], NO_CACHES, {}, fuel)
  }

  /** Read-set memoisation preserves meaning.  In any environment, whatever `Local` scopes are
      nested, a handled run that does not lock itself out ends as it would without caches: with
      the same value, or with the same error. */
  lemma CachingPreservesMeaning(act: Behaviour, base: Env, p: Program, fuel: nat) returns (n: nat)
    requires Ends(Handled(act, base, p, fuel))
    ensures RunFresh(act, base, p, [], n).Some?
    ensures RunFresh(act, base, p, [], n).value.outcome == Handled(act, base, p, fuel).value.outcome
  {
    assert Effective(base, map[]) == base;
    n := RunIsFresh(World(act, base, map[]), p, [], NO_CACHES, {}, {}, fuel);
  }

  ghost predicate EndsFresh(act: Behaviour, base: Env, p: Program, out: Outcome) {
    exists n :: RunFresh(act, base, p, [], n).Some? && RunFresh(act, base, p, [], n).value.outcome == out
  }

  ghost predicate EndsHandled(act: Behaviour, base: Env, p: Program, out: Outcome) {
    exists n :: Handled(act, base, p, n).Some? && Handled(act, base, p, n).value.outcome == out
  }

  /** A program that, run afresh, never asks for a key it is evaluating. */
  ghost predicate NeverReenters(act: Behaviour, base: Env, p: Program) {
    forall n :: !MeetsRun(act, base, p, [], {}, true, n)
  }

  /** For a program that never re-enters a key the two agree: whichever ends, the other ends
      alike. */
  lemma CachingIsExactWithoutReentry(act: Behaviour, base: Env, p: Program, out: Outcome)
    requires NeverReenters(act, base, p)
    ensures EndsFresh(act, base, p, out) <==> EndsHandled(act, base, p, out)
  {
    var w := World(act, base, map[]);
    assert EnvOf(w) == base;
    assert NeverMeets(w, p, [], {});
    if EndsHandled(act, base, p, out) {
      var n :| Handled(act, base, p, n).Some? && Handled(act, base, p, n).value.outcome == out;
      RunNeverLocksOut(w, p, [], NO_CACHES, {}, n);
      var m := CachingPreservesMeaning(act, base, p, n);
    }
    if EndsFresh(act, base, p, out) {
      var n :| RunFresh(act, base, p, [], n).Some? && RunFresh(act, base, p, [], n).value.outcome == out;
      RunIsQuick(w, p, [], NO_CACHES, {}, n);
      RunNeverLocksOut(w, p, [], NO_CACHES, {}, n);
      var m := CachingPreservesMeaning(act, base, p, n);
      SameFresh(act, base, p, [], n, m);
    }
  }

  // -- acyclic environments

  /** Lazy entries only ask, in any scope and whatever they are answered, for keys of lower rank:
      `rank` bounds keys, `bound` programs. */
  ghost predicate Acyclic(act: Behaviour, env: Env, rank: Key -> nat, bound: Program -> nat) {
    && (forall key :: key in env && env[key].Lazy? ==> bound(env[key].prog) <= rank(key))
    && (forall p, answers :: act(p, answers).Ask? ==> rank(act(p, answers).key) < bound(p))
    && (forall p, answers :: act(p, answers).Local? ==> bound(act(p, answers).body) <= bound(p))
  }

  lemma {:induction false} AcyclicNeverMeets(act: Behaviour, env: Env, rank: Key -> nat, bound: Program -> nat,
                                             p: Program, answers: seq<Value>, held: set<Key>, n: nat)
    requires Acyclic(act, env, rank, bound) && forall key :: key in held ==> bound(p) <= rank(key)
    ensures !MeetsRun(act, env, p, answers, held, true, n)
    decreases n
  {
    if n > 0 {
      var i := act(p, answers);
      if i.Ask? {
        if i.key in env && env[i.key].Lazy? {
          AcyclicNeverMeets(act, env, rank, bound, env[i.key].prog, [], held + {i.key}, n - 1);
        }
        var sub := AskFresh(act, env, i.key, n - 1);
        if sub.Some? && sub.value.outcome.Answer? {
          AcyclicNeverMeets(act, env, rank, bound, p, answers + [sub.value.outcome.value], held, n - 1);
        }
      } else if i.Local? {
        AcyclicNeverMeets(act, Effective(env, i.over), rank, bound, i.body, [], held, n - 1);
        var sub := RunFresh(act, Effective(env, i.over), i.body, [], n - 1);
        if sub.Some? && sub.value.outcome.Answer? {
          AcyclicNeverMeets(act, env, rank, bound, p, answers + [sub.value.outcome.value], held, n - 1);
        }
      }
    }
  }

  /** In an acyclic environment no program re-enters a key, so caching is exact for all. */
  lemma CachingIsExactWhenAcyclic(act: Behaviour, base: Env, rank: Key -> nat, bound: Program -> nat, p: Program,
                                  out: Outcome)
    requires Acyclic(act, base, rank, bound)
    ensures EndsFresh(act, base, p, out) <==> EndsHandled(act, base, p, out)
  {
    forall n: nat ensures !MeetsRun(act, base, p, [], {}, true, n) {
      AcyclicNeverMeets(act, base, rank, bound, p, [], {}, n);
    }
    CachingIsExactWithoutReentry(act, base, p, out);
  }

  // ---- Exactly when a handler locks itself out -----------------------------

  /** Asking for the lazy entry `key` afresh ends within `n` steps ... */
  predicate EndsWithin(act: Behaviour, env: Env, key: Key, n: nat) {
    key in env && env[key].Lazy? && AskFresh(act, env, key, n).Some?
  }

  /** ... and asks for `key` again on the way. */
  predicate AsksForItself(act: Behaviour, env: Env, key: Key, n: nat) {
    key in env && env[key].Lazy? && MeetsRun(act, env, env[key].prog, [], {key}, false, n)
  }

  ghost predicate NothingAsksForItself(act: Behaviour, base: Env) {
    forall over, key, n ::
      EndsWithin(act, Effective(base, over), key, n) ==> !AsksForItself(act, Effective(base, over), key, n)
  }

  /** Whoever asks first, with nothing cached or held, for an entry whose evaluation ends is not
      locked out. */
  ghost predicate NobodyIsLockedOut(act: Behaviour, base: Env) {
    forall over, key, n, m ::
      EndsWithin(act, Effective(base, over), key, n) ==>
            !LocksOut(AskCached(World(act, base, over), key, NO_CACHES, {}, m))
  }

  /** Whoever meets a key it is evaluating meets, in some evaluation that is part of its own,
      the key which that evaluation is about. */
  lemma {:induction false} NothingMet(w: World, p: Program, answers: seq<Value>, held: set<Key>, n: nat)
    requires NothingAsksForItself(w.act, w.base) && RunFresh(w.act, EnvOf(w), p, answers, n).Some?
    requires forall h :: h in held ==> !MeetsRun(w.act, EnvOf(w), p, answers, {h}, false, n)
    ensures !MeetsRun(w.act, EnvOf(w), p, answers, held, true, n)
    decreases n, 1
  {
    var i, env := w.act(p, answers), EnvOf(w);
    if i.Ask? {
      var sub := AskFresh(w.act, env, i.key, n - 1);
      NothingMetAsking(w, p, answers, held, n);
      if sub.value.outcome.Answer? {
        NothingMet(w, p, answers + [sub.value.outcome.value], held, n - 1);
      }
    } else if i.Local? {
      Nested(w.base, w.over, i.over);
      NothingMet(Inside(w, i.over), i.body, [], held, n - 1);
      var sub := RunFresh(w.act, Effective(env, i.over), i.body, [], n - 1);
      if sub.value.outcome.Answer? {
        forall h | h in held ensures !MeetsRun(w.act, env, p, answers + [sub.value.outcome.value], {h}, false, n - 1) {
          assert !MeetsRun(w.act, env, p, answers, {h}, false, n);
        }
        NothingMet(w, p, answers + [sub.value.outcome.value], held, n - 1);
      }
    }
  }

  lemma {:induction false} NothingMetAsking(w: World, p: Program, answers: seq<Value>, held: set<Key>, n: nat)
    requires NothingAsksForItself(w.act, w.base) && RunFresh(w.act, EnvOf(w), p, answers, n).Some?
    requires w.act(p, answers).Ask?
    requires forall h :: h in held ==> !MeetsRun(w.act, EnvOf(w), p, answers, {h}, false, n)
    ensures !MeetsAsk(w.act, EnvOf(w), w.act(p, answers).key, held, true, n - 1)
    decreases n, 0
  {
    var key, env := w.act(p, answers).key, EnvOf(w);
    if key in env && env[key].Lazy? {
      var q := env[key].prog;
      assert key !in held by {
        if key in held {
          assert MeetsAsk(w.act, env, key, {key}, false, n - 1);
        }
      }
      assert EndsWithin(w.act, Effective(w.base, w.over), key, n - 1);
      forall h | h in held + {key} ensures !MeetsRun(w.act, env, q, [], {h}, false, n - 1) {
        if h == key {
          assert !AsksForItself(w.act, Effective(w.base, w.over), key, n - 1);
        } else {
          assert !MeetsAsk(w.act, env, key, {h}, false, n - 1);
        }
      }
      NothingMet(w, q, [], held + {key}, n - 1);
    }
  }

  /** An entry that asks for itself locks out who asks for it first: caches filled on the way
      cannot hide that, because they hold no evaluation that asked for a key being evaluated. */
  lemma AskingForItselfLocksOut(w: World, key: Key, n: nat)
    requires EndsWithin(w.act, EnvOf(w), key, n) && AsksForItself(w.act, EnvOf(w), key, n)
    ensures LocksOut(AskCached(w, key, NO_CACHES, {}, n))
  {
    var q := EnvOf(w)[key].prog;
    AskIsQuick(w, key, NO_CACHES, {}, n);
    if Ends(RunCached(w, q, [], NO_CACHES, {} + {key}, n)) {
      var m := RunIsFresh(w, q, [], NO_CACHES, {} + {key}, {key}, n);
      if n <= m {
        MoreFuelMeets(w.act, EnvOf(w), q, [], {key}, false, n, m);
      } else {
        MoreFuelMeets(w.act, EnvOf(w), q, [], {key}, false, m, n);
      }
    }
  }

  lemma NotLockedOut(w: World, key: Key, n: nat, m: nat)
    requires NothingAsksForItself(w.act, w.base) && EndsWithin(w.act, EnvOf(w), key, n)
    ensures !LocksOut(AskCached(w, key, NO_CACHES, {}, m))
  {
    var q := EnvOf(w)[key].prog;
    assert EndsWithin(w.act, Effective(w.base, w.over), key, n);
    assert !AsksForItself(w.act, Effective(w.base, w.over), key, n);
    NothingMet(w, q, [], {} + {key}, n);
    forall k: nat ensures !MeetsAsk(w.act, EnvOf(w), key, {}, true, k) {
      if n <= k {
        MoreFuelMeets(w.act, EnvOf(w), q, [], {} + {key}, true, n, k);
      } else {
        MoreFuelMeets(w.act, EnvOf(w), q, [], {} + {key}, true, k, n);
      }
    }
    AskNeverLocksOut(w, key, NO_CACHES, {}, m);
  }

  /** Exactly which environments are safe: nobody who asks first for an entry whose evaluation
      ends is locked out, in any scope, if and only if no evaluation that ends asks for its own
      key again. */
  lemma LockedOutIffSomethingAsksForItself(act: Behaviour, base: Env)
    ensures NobodyIsLockedOut(act, base) <==> NothingAsksForItself(act, base)
  {
    if NobodyIsLockedOut(act, base) {
      forall over, key, n | EndsWithin(act, Effective(base, over), key, n)
        ensures !AsksForItself(act, Effective(base, over), key, n)
      {
        var w := World(act, base, over);
        assert !LocksOut(AskCached(w, key, NO_CACHES, {}, n));
        if AsksForItself(act, Effective(base, over), key, n) {
          AskingForItselfLocksOut(w, key, n);
        }
      }
    }
    if NothingAsksForItself(act, base) {
      forall over, key, n, m | EndsWithin(act, Effective(base, over), key, n)
        ensures !LocksOut(AskCached(World(act, base, over), key, NO_CACHES, {}, m))
      {
        NotLockedOut(World(act, base, over), key, n, m);
      }
    }
  }

  // -- examples

  /** `k` asks for `stop` and, unless that is 1, for `j`; `j` asks for `k` in a scope that makes it
      stop.  Program 0 asks for `j` and then for `k`, program 3 for `k` only. */
  function Twisted(p: Program, answers: seq<Value>): Instr {
    if p == 0 then
      if answers == [] then Ask("j") else if |answers| == 1 then Ask("k") else Return(answers[1])
    else if p == 1 then
      if answers == [] then Ask("stop")
      else if |answers| == 1 then (if answers[0] == Val(1) then Return(Val(7)) else Ask("j"))
      else Return(answers[1])
    else if p == 2 then (if answers == [] then Local(map["stop" := Val(1)], 3) else Return(answers[0]))
    else if answers == [] then Ask("k")
    else Return(answers[0])
  }

  const TWISTED: Env := map["stop" := Plain(Val(0)), "k" := Lazy(1), "j" := Lazy(2)]

  /** In the scope of `j`, where `stop` is 1. */
  lemma StoppedAsk(held: set<Key>, shared: Cache)
    requires "k" !in held && "k" !in shared
    ensures var w := World(Twisted, TWISTED, map["stop" := Val(1)]);
            var r := RunCached(w, 3, [], Caches(shared, map[]), held, 6);
            r.Some? && r.value.outcome == Answer(Val(7)) && r.value.asked == {"k", "stop"}
                && r.value.caches.shared == shared
  {
    var w := World(Twisted, TWISTED, map["stop" := Val(1)]);
    var c := Caches(shared, map[]);
    assert RunCached(w, 1, [Val(1)], c, held + {"k"}, 4) == Some(Cached(Answer(Val(7)), {}, c));
    assert RunCached(w, 1, [], c, held + {"k"}, 5) == Some(Cached(Answer(Val(7)), {"stop"} + {}, c));
    assert {"stop"} + {} == {"stop"};
    var e := Entry(Val(7), {"stop"});
    assert "stop" in w.over.Keys;
    assert AskCached(w, "k", c, held,
                     5) == Some(Cached(Answer(Val(7)), {"k"} + {"stop"}, Caches(shared, map["k" := e])));
  }

  lemma TwistedLocksOut()
    ensures LocksOut(Handled(Twisted, TWISTED, 3, 9))
  {
    var w := World(Twisted, TWISTED, map[]);
    var held: set<Key> := {} + {"k"} + {"j"};
    assert map[] + map["stop" := Val(1)] == map["stop" := Val(1)];
    assert LocksOut(AskCached(World(Twisted, TWISTED, map["stop" := Val(1)]), "k", NO_CACHES, held, 3));
    assert LocksOut(RunCached(w, 2, [], NO_CACHES, held, 5));
    assert LocksOut(RunCached(w, 1, [Val(0)], NO_CACHES, {} + {"k"}, 6));
  }

  /** Afresh, `j` is 7. */
  lemma JIsSeven()
    ensures RunFresh(Twisted, TWISTED, 2, [], 5).Some?
    ensures RunFresh(Twisted, TWISTED, 2, [], 5).value.outcome == Answer(Val(7))
  {
    var stopped := Effective(TWISTED, map["stop" := Val(1)]);
    assert RunFresh(Twisted, stopped, 1, [], 3).Some?;
    assert RunFresh(Twisted, stopped, 3, [], 4).value.outcome == Answer(Val(7));
    assert RunFresh(Twisted, TWISTED, 2, [Val(7)], 4).value.outcome == Answer(Val(7));
  }

  lemma KIsSeven()
    ensures RunFresh(Twisted, TWISTED, 1, [Val(0)], 7).Some?
    ensures RunFresh(Twisted, TWISTED, 1, [Val(0)], 7).value.outcome == Answer(Val(7))
  {
    JIsSeven();
    MoreFuel(Twisted, TWISTED, 2, [], 5, 6);
  }

  lemma TwistedEnds()
    ensures RunFresh(Twisted, TWISTED, 3, [], 9).Some?
    ensures RunFresh(Twisted, TWISTED, 3, [], 9).value.outcome == Answer(Val(7))
  {
    KIsSeven();
    assert RunFresh(Twisted, TWISTED, 1, [], 8).value.outcome == Answer(Val(7));
  }

  /** Asking for `k` waits for ever for its own semaphore, although evaluating it afresh ends. */
  lemma ReentrantAskLocksItselfOut()
    ensures RunFresh(Twisted, TWISTED, 3, [], 9).Some?
    ensures RunFresh(Twisted, TWISTED, 3, [], 9).value.outcome == Answer(Val(7))
    ensures LocksOut(Handled(Twisted, TWISTED, 3, 9))
  {
    TwistedEnds();
    TwistedLocksOut();
  }

  /** Asking for `j` first caches it ... */
  lemma AskForJ()
    ensures AskCached(World(Twisted, TWISTED, map[]), "j", NO_CACHES, {}, 7)
         == Some(Cached(Answer(Val(7)), {"j"} + {"k", "stop"}, Caches(map["j" := Entry(Val(7), {"k", "stop"})], map[])))
  {
    var w := World(Twisted, TWISTED, map[]);
    StoppedAsk({} + {"j"}, map[]);
    assert map[] + map["stop" := Val(1)] == map["stop" := Val(1)];
    assert RunCached(w, 2, [Val(7)], NO_CACHES, {} + {"j"}, 6) == Some(Cached(Answer(Val(7)), {}, NO_CACHES));
    assert {"k", "stop"} + {} == {"k", "stop"};
    assert RunCached(w, 2, [], NO_CACHES, {} + {"j"}, 7) == Some(Cached(Answer(Val(7)), {"k", "stop"}, NO_CACHES));
  }

  /** ... and `k` then finds it there. */
  lemma AskForKThen(c: Caches)
    requires c == Caches(map["j" := Entry(Val(7), {"k", "stop"})], map[])
    ensures var r := AskCached(World(Twisted, TWISTED, map[]), "k", c, {}, 6);
            r.Some? && r.value.outcome == Answer(Val(7))
  {
    var w := World(Twisted, TWISTED, map[]);
    var held: set<Key> := {} + {"k"};
    assert AskCached(w, "j", c, held, 4).value.outcome == Answer(Val(7));
    assert RunCached(w, 1, [Val(0)], c, held, 5).value.outcome == Answer(Val(7));
    assert RunCached(w, 1, [], c, held, 6).value.outcome == Answer(Val(7));
  }

  lemma HandledAfterJ()
    ensures var r := Handled(Twisted, TWISTED, 0, 8); r.Some? && r.value.outcome == Answer(Val(7))
  {
    var w := World(Twisted, TWISTED, map[]);
    AskForJ();
    var c := Caches(map["j" := Entry(Val(7), {"k", "stop"})], map[]);
    AskForKThen(c);
    assert RunCached(w, 0, [Val(7)], c, {}, 7).value.outcome == Answer(Val(7));
  }

  lemma AskForKMeets()
    ensures MeetsRun(Twisted, TWISTED, 0, [Val(7)], {}, true, 8)
  {
    var held: set<Key> := {} + {"k"} + {"j"};
    assert MeetsRun(Twisted, Effective(TWISTED, map["stop" := Val(1)]), 3, [], held, true, 4);
    assert MeetsRun(Twisted, TWISTED, 2, [], held, true, 5);
    assert MeetsRun(Twisted, TWISTED, 1, [Val(0)], {} + {"k"}, true, 6);
    assert MeetsRun(Twisted, TWISTED, 1, [], {} + {"k"}, true, 7);
  }

  lemma TwistedReenters()
    ensures !NeverReenters(Twisted, TWISTED, 0)
  {
    AskForKMeets();
    JIsSeven();
    MoreFuel(Twisted, TWISTED, 2, [], 5, 8);
    assert MeetsRun(Twisted, TWISTED, 0, [], {}, true, 9);
  }

  /** Whether `k` locks itself out depends on what was asked before: alone it does, after `j` not,
      although evaluating that program afresh asks for `k` inside `k`, too. */
  lemma AskingBeforeHidesReentry()
    ensures LocksOut(Handled(Twisted, TWISTED, 3, 9))
    ensures var r := Handled(Twisted, TWISTED, 0, 8); r.Some? && r.value.outcome == Answer(Val(7))
    ensures !NeverReenters(Twisted, TWISTED, 0)
  {
    TwistedLocksOut();
    TwistedReenters();
    HandledAfterJ();
  }

  // ---- As it is written ----------------------------------------------------

  /** What all handlers of one `lazy_ask` share; a key is in `taken` while its semaphore is. */
  class Closure {
    var sharedCache: map<Key, Value>
    var sharedDeps: map<Key, set<Key>>
    var evalStack: seq<set<Key>>
    var taken: set<Key>

    constructor ()
      ensures sharedCache == map[] && sharedDeps == map[] && evalStack == [] && taken == {}
    {
      sharedCache, sharedDeps, evalStack, taken := map[], map[], [], {};
    }
  }

  /** A table of values and one of their deps, seen as one. */
  function Entries(values: map<Key, Value>, deps: map<Key, set<Key>>): Cache {
    map key | key in values :: Entry(values[key], if key in deps then deps[key] else {})
  }

  /** The innermost set of `eval_stack`, if there is one, gets more keys. */
  function Track(stack: seq<set<Key>>, keys: set<Key>): seq<set<Key>> {
    if stack == [] then [] else stack[..|stack| - 1] + [stack[|stack| - 1] + keys]
  }

  lemma TrackTwice(stack: seq<set<Key>>, a: set<Key>, b: set<Key>)
    ensures Track(Track(stack, a), b) == Track(stack, a + b)
  {
    if stack != [] {
      var n := |stack| - 1;
      assert Track(stack, a)[..n] == stack[..n] && Track(stack, a)[n] == stack[n] + a;
      assert stack[n] + a + b == stack[n] + (a + b);
    }
  }

  lemma TrackNothing(stack: seq<set<Key>>)
    ensures Track(stack, {}) == stack
  {
    if stack != [] {
      assert stack[|stack| - 1] + {} == stack[|stack| - 1];
    }
  }

  lemma EntryStored(values: map<Key, Value>, deps: map<Key, set<Key>>, key: Key, v: Value, d: set<Key>)
    ensures Entries(values[key := v], deps[key := d]) == Entries(values, deps)[key := Entry(v, d)]
  {
    forall k | k in values && k != key
      ensures Entries(values[key := v], deps[key := d])[k] == Entries(values, deps)[k] {}
  }

  class Handler {
    const closure: Closure
    const world: World
    var scopeCache: map<Key, Value>
    var scopeDeps: map<Key, set<Key>>

    constructor (closure: Closure, world: World)
      ensures this.closure == closure && this.world == world && scopeCache == map[] && scopeDeps == map[]
    {
      this.closure, this.world := closure, world;
      scopeCache, scopeDeps := map[], map[];
    }

    ghost function View(): Caches
      reads this, closure
    {
      Caches(Entries(closure.sharedCache, closure.sharedDeps), Entries(scopeCache, scopeDeps))
    }

    method CacheLookup(key: Key) returns (hit: Option<Entry>)
      ensures hit == Lookup(View(), world.over.Keys, key)
    {
      hit := None;
      if key in scopeCache {
        hit := Some(Entry(scopeCache[key], if key in scopeDeps then scopeDeps[key] else {}));
      } else if key in closure.sharedCache {
        var deps := if key in closure.sharedDeps then closure.sharedDeps[key] else {};
        if deps !! world.over.Keys {
          hit := Some(Entry(closure.sharedCache[key], deps));
        }
      }
      if hit.Some? && hit.value.value.NoneValue? {
        hit := None;
      }
    }

    method CacheStore(key: Key, value: Value, deps: set<Key>)
      modifies this, closure
      ensures closure.evalStack == old(closure.evalStack) && closure.taken == old(closure.taken)
      ensures View() == Store(old(View()), world.over.Keys, key, Entry(value, deps))
    {
      if !(deps !! world.over.Keys) {
        EntryStored(scopeCache, scopeDeps, key, value, deps);
        scopeCache, scopeDeps := scopeCache[key := value], scopeDeps[key := deps];
      } else {
        EntryStored(closure.sharedCache, closure.sharedDeps, key, value, deps);
        closure.sharedCache, closure.sharedDeps := closure.sharedCache[key := value], closure.sharedDeps[key := deps];
      }
    }

    /** The handler and its closure are where `r`, which is what a call comes to, leaves them;
        `stack` and `taken` are from before the call. */
    ghost predicate Did(outcome: Option<Outcome>, r: Option<Cached>, stack: seq<set<Key>>, taken: set<Key>)
      reads this, closure
    {
      && (outcome.Some? <==> r.Some?)
      && (outcome.Some? ==> outcome.value == r.value.outcome)
      && (outcome.Some? && !outcome.value.SelfDeadlock? ==>
            && View() == r.value.caches && closure.taken == taken
            && closure.evalStack == Track(stack, r.value.asked))
    }

    /** Evaluates a lazy entry under its semaphore, recording what it reads. */
    method EvaluateLazy(key: Key, q: Program, fuel: nat) returns (outcome: Option<Outcome>, deps: set<Key>)
      requires key !in closure.taken
      modifies this, closure
      ensures var r := RunCached(world, q, [], old(View()), old(closure.taken) + {key}, fuel);
              && Did(outcome, if r.None? then None else Some(r.value.(asked := {})),
                     old(closure.evalStack), old(closure.taken))
              && (outcome.Some? && !outcome.value.SelfDeadlock? ==> deps == r.value.asked)
      decreases fuel, 2
    {
      ghost var stack := closure.evalStack;
      closure.taken := closure.taken + {key};
      closure.evalStack := closure.evalStack + [{}];
      outcome := Run(q, [], fuel);
      deps := {};
      if outcome.Some? && !outcome.value.SelfDeadlock? {
        deps := closure.evalStack[|closure.evalStack| - 1];
        closure.evalStack := closure.evalStack[..|closure.evalStack| - 1];
        closure.taken := closure.taken - {key};
        assert closure.evalStack == stack;
        TrackNothing(stack);
      }
    }

    /** The Ask branch of the handler. */
    method HandleAsk(key: Key, fuel: nat) returns (outcome: Option<Outcome>)
      modifies this, closure
      ensures Did(outcome, AskCached(world, key, old(View()), old(closure.taken), fuel),
                  old(closure.evalStack), old(closure.taken))
      decreases fuel, 3
    {
      closure.evalStack := Track(closure.evalStack, {key});
      var env := EnvOf(world);
      if key !in env {
        return Some(Failure(MissingKey(key)));
      }
      if env[key].Plain? {
        return Some(Answer(env[key].value));
      }
      var hit := CacheLookup(key);
      if hit.Some? {
        TrackTwice(old(closure.evalStack), {key}, hit.value.deps);
        closure.evalStack := Track(closure.evalStack, hit.value.deps);
        return Some(Answer(hit.value.value));
      }
      if key in closure.taken {
        return Some(SelfDeadlock);
      }
      var deps;
      ghost var tracked := closure.evalStack;
      outcome, deps := EvaluateLazy(key, env[key].prog, fuel);
      if outcome.Some? && !outcome.value.SelfDeadlock? {
        TrackNothing(tracked);
        if outcome.value.Answer? {
          CacheStore(key, outcome.value.value, deps);
          TrackTwice(old(closure.evalStack), {key}, deps);
          closure.evalStack := Track(closure.evalStack, deps);
        }
      }
    }

    /** A program running under the handler, with the answers it got so far. */
    method Run(p: Program, answers: seq<Value>, fuel: nat) returns (outcome: Option<Outcome>)
      modifies this, closure
      ensures Did(outcome, RunCached(world, p, answers, old(View()), old(closure.taken), fuel),
                  old(closure.evalStack), old(closure.taken))
      decreases fuel, 1
    {
      if fuel == 0 {
        return None;
      }
      match world.act(p, answers)
      case Return(v) =>
        TrackNothing(closure.evalStack);
        outcome := Some(Answer(v));
      case Raise(e) =>
        TrackNothing(closure.evalStack);
        outcome := Some(Failure(Raised(e)));
      case Ask(key) =>
        outcome := HandleAsk(key, fuel - 1);
        ghost var sub := AskCached(world, key, old(View()), old(closure.taken), fuel - 1);
        outcome := GoOn(p, answers, outcome, fuel, sub, old(closure.evalStack), old(closure.taken));
      case Local(inner, body) =>
        var handler := new Handler(closure, Inside(world, inner));
        outcome := handler.Run(body, [], fuel - 1);
        ghost var sub := RunCached(Inside(world, inner), body, [], Caches(old(View()).shared, map[]),
                                   old(closure.taken), fuel - 1);
        outcome := GoOn(p, answers, outcome, fuel, Left(sub, old(View()).scope),
                        old(closure.evalStack), old(closure.taken));
    }

    /** The program goes on with the outcome of what it asked for, if that is an answer.  `sub`
        says what has been done so far; `stack` and `taken` are from before that. */
    method GoOn(p: Program, answers: seq<Value>, outcome: Option<Outcome>, fuel: nat,
                ghost sub: Option<Cached>, ghost stack: seq<set<Key>>, ghost taken: set<Key>)
      returns (outcome': Option<Outcome>)
      requires fuel > 0 && Did(outcome, sub, stack, taken)
      modifies this, closure
      ensures Did(outcome', ThenCached(world, p, answers, sub, taken, fuel), stack, taken)
      decreases fuel, 0
    {
      outcome' := outcome;
      if outcome.Some? && outcome.value.Answer? {
        ghost var rest := RunCached(world, p, answers + [outcome.value.value], View(), taken, fuel - 1);
        outcome' := Run(p, answers + [outcome.value.value], fuel - 1);
        if rest.Some? {
          TrackTwice(stack, sub.value.asked, rest.value.asked);
        }
      }
    }
  }
}
