/** What the caches of `lazy_ask` are for: a lazy entry that has been evaluated to a value other than
    `None` is not evaluated again in its scope, nor, if no override touches what it read, in any scope
    inside it. */
module LazyHits {
  import opened LazyAsk
  import opened Wrappers

  // ---- Overrides and hits --------------------------------------------------

  /** An override hides the entry of the environment, and nothing else. */
  lemma OverridesHide(base: Env, over: map<Key, Value>, key: Key)
    ensures key in Effective(base, over) <==> key in over || key in base
    ensures key in over ==> Effective(base, over)[key] == Plain(over[key])
    ensures key !in over && key in base ==> Effective(base, over)[key] == base[key]
  {
  }

  /** `v`, which is not `None`, is kept for `key`: in the scope, or else shared and read from nothing that
      is overridden. */
  predicate Known(c: Caches, overridden: set<Key>, key: Key, v: Value) {
    && v != NoneValue
    && if key in c.scope then c.scope[key].value == v else SharedKnown(c.shared, overridden, key, v)
  }

  predicate SharedKnown(shared: Cache, overridden: set<Key>, key: Key, v: Value) {
    v != NoneValue && key in shared && shared[key].value == v && shared[key].deps !! overridden
  }

  /** An Ask for a lazy entry whose value is known is answered with it, evaluates nothing and leaves the
      caches as they are. */
  lemma KnownHits(w: World, key: Key, c: Caches, held: set<Key>, fuel: nat, v: Value)
    requires key in EnvOf(w) && EnvOf(w)[key].Lazy? && Known(c, w.over.Keys, key, v)
    ensures var r := AskCached(w, key, c, held, fuel); r.Some? && r.value.outcome == Answer(v) && r.value.caches == c
  {
  }

  lemma UnknownMisses(w: World, key: Key, c: Caches)
    requires forall v :: !Known(c, w.over.Keys, key, v)
    ensures Lookup(c, w.over.Keys, key).None?
  {
    if key in c.scope {
      assert !Known(c, w.over.Keys, key, c.scope[key].value);
    } else if key in c.shared {
      assert !Known(c, w.over.Keys, key, c.shared[key].value);
    }
  }

  /** If no value is known its program is evaluated, or the Ask waits for ever if the evaluation is one
      that it is part of itself. */
  lemma UnknownEvaluates(w: World, key: Key, c: Caches, held: set<Key>, fuel: nat)
    requires key in EnvOf(w) && EnvOf(w)[key].Lazy? && forall v :: !Known(c, w.over.Keys, key, v)
    ensures key in held ==> LocksOut(AskCached(w, key, c, held, fuel))
    ensures var r, own := AskCached(w, key, c, held, fuel), RunCached(w, EnvOf(w)[key].prog, [], c, held + {key}, fuel);
            key !in held ==> r.Some? == own.Some? && (r.Some? ==> r.value.outcome == own.value.outcome)
  {
    UnknownMisses(w, key, c);
  }

  // ---- Known from the first answer on --------------------------------------

  /** Evaluations of one key in one environment come to the same value. */
  lemma BackedAlike(act: Behaviour, env: Env, key: Key, a: Entry, n: nat, b: Entry, m: nat)
    requires Backed(act, env, key, a, {}, n) && Backed(act, env, key, b, {}, m)
    ensures a.value == b.value
  {
    SameFresh(act, env, env[key].prog, [], n, m);
  }

  /** The entry a successful evaluation makes. */
  lemma EvaluationIsBacked(w: World, key: Key, c: Caches, held: set<Key>, fuel: nat) returns (n: nat)
    requires GoodCaches(w, c, {}) && key in EnvOf(w) && EnvOf(w)[key].Lazy?
    requires var r := RunCached(w, EnvOf(w)[key].prog, [], c, held + {key}, fuel);
             r.Some? && r.value.outcome.Answer?
    ensures var r := RunCached(w, EnvOf(w)[key].prog, [], c, held + {key}, fuel).value;
            && Backed(w.act, EnvOf(w), key, Entry(r.outcome.value, r.asked), {}, n)
            && GoodCaches(w, r.caches, {})
  {
    n := RunIsFresh(w, EnvOf(w)[key].prog, [], c, held + {key}, {}, fuel);
  }

  /** ... which is the same in the base environment if it read nothing that is overridden. */
  lemma SharedIsBacked(w: World, key: Key, e: Entry, n: nat)
    requires Backed(w.act, EnvOf(w), key, e, {}, n) && e.deps !! w.over.Keys
    ensures Backed(w.act, w.base, key, e, {}, n)
  {
    assert key !in w.over;
    forall k | k in e.deps ensures k !in w.over.Keys {
      assert k !in e.deps * w.over.Keys;
    }
    BackedElsewhere(w.act, EnvOf(w), w.base, key, e, {}, n);
  }

  lemma StoredIsKnown(w: World, c: Caches, key: Key, e: Entry, n: nat)
    requires GoodCaches(w, c, {}) && Backed(w.act, EnvOf(w), key, e, {}, n) && e.value != NoneValue
    ensures Known(Store(c, w.over.Keys, key, e), w.over.Keys, key, e.value)
  {
    if e.deps !! w.over.Keys && key in c.scope {
      var m :| Backed(w.act, EnvOf(w), key, c.scope[key], {}, m);
      BackedAlike(w.act, EnvOf(w), key, c.scope[key], m, e, n);
    }
  }

  /** Once an Ask for a lazy entry has been answered with a value other than `None`, it is known. */
  lemma AnsweredIsKnown(w: World, key: Key, c: Caches, held: set<Key>, fuel: nat)
    requires GoodCaches(w, c, {}) && key in EnvOf(w) && EnvOf(w)[key].Lazy?
    requires var r := AskCached(w, key, c, held, fuel);
             r.Some? && r.value.outcome.Answer? && r.value.outcome.value != NoneValue
    ensures var r := AskCached(w, key, c, held, fuel).value; Known(r.caches, w.over.Keys, key, r.outcome.value)
  {
    if Lookup(c, w.over.Keys, key).None? {
      var n := EvaluationIsBacked(w, key, c, held, fuel);
      var sub := RunCached(w, EnvOf(w)[key].prog, [], c, held + {key}, fuel).value;
      StoredIsKnown(w, sub.caches, key, Entry(sub.outcome.value, sub.asked), n);
    }
  }

  // ---- What is known stays known -------------------------------------------

  lemma RunAsks(w: World, p: Program, answers: seq<Value>, c: Caches, held: set<Key>, fuel: nat)
    requires w.act(p, answers).Ask? && Ends(RunCached(w, p, answers, c, held, fuel))
    ensures fuel > 0
    ensures var sub := AskCached(w, w.act(p, answers).key, c, held, fuel - 1);
            Ends(sub) && RunCached(w, p, answers, c, held, fuel) == ThenCached(w, p, answers, sub, held, fuel)
  {
    var sub := AskCached(w, w.act(p, answers).key, c, held, fuel - 1);
    assert RunCached(w, p, answers, c, held, fuel) == ThenCached(w, p, answers, sub, held, fuel);
  }

  lemma RunEnters(w: World, p: Program, answers: seq<Value>, c: Caches, held: set<Key>, fuel: nat)
    requires w.act(p, answers).Local? && Ends(RunCached(w, p, answers, c, held, fuel))
    ensures fuel > 0
    ensures var i := w.act(p, answers);
            var sub := RunCached(Inside(w, i.over), i.body, [], Caches(c.shared, map[]), held, fuel - 1);
            && Ends(sub)
            && RunCached(w, p, answers, c, held, fuel) == ThenCached(w, p, answers, Left(sub, c.scope), held, fuel)
  {
    var i := w.act(p, answers);
    var sub := RunCached(Inside(w, i.over), i.body, [], Caches(c.shared, map[]), held, fuel - 1);
    assert RunCached(w, p, answers, c, held, fuel) == ThenCached(w, p, answers, Left(sub, c.scope), held, fuel);
  }

  predicate InScope(c: Caches, key: Key, v: Value) { v != NoneValue && key in c.scope && c.scope[key].value == v }

  lemma {:induction false} AskKeepsScope(w: World, at: Key, c: Caches, held: set<Key>, fuel: nat, key: Key, v: Value)
    requires Ends(AskCached(w, at, c, held, fuel)) && InScope(c, key, v)
    ensures InScope(AskCached(w, at, c, held, fuel).value.caches, key, v)
    decreases fuel, 3
  {
    var env := EnvOf(w);
    if at in env && env[at].Lazy? && Lookup(c, w.over.Keys, at).None? {
      RunKeepsScope(w, env[at].prog, [], c, held + {at}, fuel, key, v);
    }
  }

  lemma {:induction false} RunKeepsScope(w: World, p: Program, answers: seq<Value>, c: Caches, held: set<Key>,
                                         fuel: nat, key: Key, v: Value)
    requires Ends(RunCached(w, p, answers, c, held, fuel)) && InScope(c, key, v)
    ensures InScope(RunCached(w, p, answers, c, held, fuel).value.caches, key, v)
    decreases fuel, 2
  {
    match w.act(p, answers)
    case Ask(at) =>
      RunAsks(w, p, answers, c, held, fuel);
      AskKeepsScope(w, at, c, held, fuel - 1, key, v);
      ThenKeepsScope(w, p, answers, AskCached(w, at, c, held, fuel - 1), held, fuel, key, v);
    case Local(inner, body) =>
      RunEnters(w, p, answers, c, held, fuel);
      var sub := RunCached(Inside(w, inner), body, [], Caches(c.shared, map[]), held, fuel - 1);
      ThenKeepsScope(w, p, answers, Left(sub, c.scope), held, fuel, key, v);
    case _ =>
  }

  lemma {:induction false} ThenKeepsScope(w: World, p: Program, answers: seq<Value>, sub: Option<Cached>,
                                          held: set<Key>, fuel: nat, key: Key, v: Value)
    requires fuel > 0 && Ends(sub) && Ends(ThenCached(w, p, answers, sub, held, fuel))
    requires InScope(sub.value.caches, key, v)
    ensures InScope(ThenCached(w, p, answers, sub, held, fuel).value.caches, key, v)
    decreases fuel, 0
  {
    if sub.value.outcome.Answer? {
      RunKeepsScope(w, p, answers + [sub.value.outcome.value], sub.value.caches, held, fuel - 1, key, v);
    }
  }

  /** In a scope with at least those overrides. */
  lemma {:induction false} AskKeepsShared(w: World, at: Key, c: Caches, held: set<Key>, fuel: nat, over: set<Key>,
                                          key: Key, v: Value)
    requires GoodCaches(w, c, {}) && Ends(AskCached(w, at, c, held, fuel)) && over <= w.over.Keys
    requires SharedKnown(c.shared, over, key, v)
    ensures SharedKnown(AskCached(w, at, c, held, fuel).value.caches.shared, over, key, v)
    decreases fuel, 3
  {
    var env := EnvOf(w);
    if at in env && env[at].Lazy? && Lookup(c, w.over.Keys, at).None? {
      var sub := RunCached(w, env[at].prog, [], c, held + {at}, fuel).value;
      RunKeepsShared(w, env[at].prog, [], c, held + {at}, fuel, over, key, v);
      if sub.outcome.Answer? && at == key {
        var n := EvaluationIsBacked(w, key, c, held, fuel);
        StoredKeepsShared(w, sub.caches, over, key, v, Entry(sub.outcome.value, sub.asked), n);
      }
    }
  }

  lemma StoredKeepsShared(w: World, c: Caches, over: set<Key>, key: Key, v: Value, e: Entry, n: nat)
    requires GoodCaches(w, c, {}) && Backed(w.act, EnvOf(w), key, e, {}, n) && over <= w.over.Keys
    requires SharedKnown(c.shared, over, key, v)
    ensures SharedKnown(Store(c, w.over.Keys, key, e).shared, over, key, v)
  {
    if e.deps !! w.over.Keys {
      SharedIsBacked(w, key, e, n);
      var m :| Backed(w.act, w.base, key, c.shared[key], {}, m);
      BackedAlike(w.act, w.base, key, c.shared[key], m, e, n);
      assert e.deps !! over;
    }
  }

  lemma {:induction false} RunKeepsShared(w: World, p: Program, answers: seq<Value>, c: Caches, held: set<Key>,
                                          fuel: nat, over: set<Key>, key: Key, v: Value)
    requires GoodCaches(w, c, {}) && Ends(RunCached(w, p, answers, c, held, fuel)) && over <= w.over.Keys
    requires SharedKnown(c.shared, over, key, v)
    ensures SharedKnown(RunCached(w, p, answers, c, held, fuel).value.caches.shared, over, key, v)
    decreases fuel, 2
  {
    match w.act(p, answers)
    case Ask(_) => AskStepKeepsShared(w, p, answers, c, held, fuel, over, key, v);
    case Local(_, _) => LocalStepKeepsShared(w, p, answers, c, held, fuel, over, key, v);
    case _ =>
  }

  lemma {:induction false} AskStepKeepsShared(w: World, p: Program, answers: seq<Value>, c: Caches, held: set<Key>,
                                              fuel: nat, over: set<Key>, key: Key, v: Value)
    requires GoodCaches(w, c, {}) && Ends(RunCached(w, p, answers, c, held, fuel)) && over <= w.over.Keys
    requires SharedKnown(c.shared, over, key, v) && w.act(p, answers).Ask?
    ensures SharedKnown(RunCached(w, p, answers, c, held, fuel).value.caches.shared, over, key, v)
    decreases fuel, 1
  {
    var at := w.act(p, answers).key;
    RunAsks(w, p, answers, c, held, fuel);
    AskKeepsShared(w, at, c, held, fuel - 1, over, key, v);
    var n := AskIsFresh(w, at, c, held, {}, fuel - 1);
    ThenKeepsShared(w, p, answers, AskCached(w, at, c, held, fuel - 1), held, fuel, over, key, v);
  }

  lemma {:induction false} LocalStepKeepsShared(w: World, p: Program, answers: seq<Value>, c: Caches, held: set<Key>,
                                                fuel: nat, over: set<Key>, key: Key, v: Value)
    requires GoodCaches(w, c, {}) && Ends(RunCached(w, p, answers, c, held, fuel)) && over <= w.over.Keys
    requires SharedKnown(c.shared, over, key, v) && w.act(p, answers).Local?
    ensures SharedKnown(RunCached(w, p, answers, c, held, fuel).value.caches.shared, over, key, v)
    decreases fuel, 1
  {
    var inner, body := w.act(p, answers).over, w.act(p, answers).body;
    RunEnters(w, p, answers, c, held, fuel);
    var n := BodyIsFresh(w, inner, body, c, held, {}, fuel - 1);
    RunKeepsShared(Inside(w, inner), body, [], Caches(c.shared, map[]), held, fuel - 1, over, key, v);
    var sub := RunCached(Inside(w, inner), body, [], Caches(c.shared, map[]), held, fuel - 1);
    ThenKeepsShared(w, p, answers, Left(sub, c.scope), held, fuel, over, key, v);
  }

  lemma {:induction false} ThenKeepsShared(w: World, p: Program, answers: seq<Value>, sub: Option<Cached>,
                                           held: set<Key>, fuel: nat, over: set<Key>, key: Key, v: Value)
    requires fuel > 0 && Ends(sub) && GoodCaches(w, sub.value.caches, {}) && over <= w.over.Keys
    requires Ends(ThenCached(w, p, answers, sub, held, fuel)) && SharedKnown(sub.value.caches.shared, over, key, v)
    ensures SharedKnown(ThenCached(w, p, answers, sub, held, fuel).value.caches.shared, over, key, v)
    decreases fuel, 0
  {
    if sub.value.outcome.Answer? {
      RunKeepsShared(w, p, answers + [sub.value.outcome.value], sub.value.caches, held, fuel - 1, over, key, v);
    }
  }

  /** What is known in a scope stays known whatever the scope goes on to run. */
  lemma KnownStays(w: World, p: Program, answers: seq<Value>, c: Caches, held: set<Key>, fuel: nat, key: Key, v: Value)
    requires GoodCaches(w, c, {}) && Ends(RunCached(w, p, answers, c, held, fuel)) && Known(c, w.over.Keys, key, v)
    requires key in EnvOf(w) && EnvOf(w)[key].Lazy?
    ensures Known(RunCached(w, p, answers, c, held, fuel).value.caches, w.over.Keys, key, v)
  {
    var c' := RunCached(w, p, answers, c, held, fuel).value.caches;
    if key in c.scope {
      RunKeepsScope(w, p, answers, c, held, fuel, key, v);
    } else {
      var n := RunIsFresh(w, p, answers, c, held, {}, fuel);
      RunKeepsShared(w, p, answers, c, held, fuel, w.over.Keys, key, v);
      if key in c'.scope {
        SharedIsScopes(w, c', key, v);
      }
    }
  }

  lemma SharedIsScopes(w: World, c: Caches, key: Key, v: Value)
    requires GoodCaches(w, c, {}) && SharedKnown(c.shared, w.over.Keys, key, v) && key in c.scope
    requires key in EnvOf(w) && EnvOf(w)[key].Lazy?
    ensures c.scope[key].value == v
  {
    var n := HitIsBacked(w, Caches(c.shared, map[]), key, {});
    var m :| Backed(w.act, EnvOf(w), key, c.scope[key], {}, m);
    BackedAlike(w.act, EnvOf(w), key, c.shared[key], n, c.scope[key], m);
  }

  // ---- Evaluated once ------------------------------------------------------

  /** Once an Ask of a scope has been answered with `v`, which is not `None`, every later one in that scope
      is answered with `v` from the caches, whatever was run there in between. */
  lemma AnsweredOnce(w: World, key: Key, c: Caches, held: set<Key>, fuel: nat, p: Program, answers: seq<Value>,
                     held': set<Key>, fuel': nat, held'': set<Key>, fuel'': nat, v: Value)
    requires GoodCaches(w, c, {}) && key in EnvOf(w) && EnvOf(w)[key].Lazy? && v != NoneValue
    requires var r := AskCached(w, key, c, held, fuel); r.Some? && r.value.outcome == Answer(v)
    requires Ends(RunCached(w, p, answers, AskCached(w, key, c, held, fuel).value.caches, held', fuel'))
    ensures var r := RunCached(w, p, answers, AskCached(w, key, c, held, fuel).value.caches, held', fuel').value;
            var r' := AskCached(w, key, r.caches, held'', fuel'');
            r'.Some? && r'.value.outcome == Answer(v) && r'.value.caches == r.caches
  {
    AnsweredIsKnown(w, key, c, held, fuel);
    var n := AskIsFresh(w, key, c, held, {}, fuel);
    var c' := AskCached(w, key, c, held, fuel).value.caches;
    KnownStays(w, p, answers, c', held', fuel', key, v);
    KnownHits(w, key, RunCached(w, p, answers, c', held', fuel').value.caches, held'', fuel'', v);
  }

  /** ... and if evaluating it afresh reads nothing that is overridden, there or in a scope inside it, then
      in that one too. */
  lemma AnsweredForInnerScopes(w: World, key: Key, c: Caches, held: set<Key>, fuel: nat, inner: map<Key, Value>,
                               held': set<Key>, fuel': nat, n: nat, v: Value)
    requires GoodCaches(w, c, {}) && key in EnvOf(w) && EnvOf(w)[key].Lazy? && v != NoneValue
    requires forall u :: !Known(c, w.over.Keys, key, u)
    requires var r := AskCached(w, key, c, held, fuel); r.Some? && r.value.outcome == Answer(v)
    requires var f := AskFresh(w.act, EnvOf(w), key, n); f.Some? && f.value.asked !! Inside(w, inner).over.Keys
    ensures var c' := Caches(AskCached(w, key, c, held, fuel).value.caches.shared, map[]);
            var r' := AskCached(Inside(w, inner), key, c', held', fuel');
            r'.Some? && r'.value.outcome == Answer(v) && r'.value.caches == c'
  {
    var r := AskCached(w, key, c, held, fuel).value;
    UnknownMisses(w, key, c);
    var m := AskIsFresh(w, key, c, held, {}, fuel);
    SameFreshAsk(w.act, EnvOf(w), key, n, m);
    assert w.over.Keys <= Inside(w, inner).over.Keys;
    OverridesHide(w.base, w.over, key);
    OverridesHide(w.base, w.over + inner, key);
    assert r.caches.shared[key].value == v && r.caches.shared[key].deps !! Inside(w, inner).over.Keys;
    KnownHits(Inside(w, inner), key, Caches(r.caches.shared, map[]), held', fuel', v);
  }
}
