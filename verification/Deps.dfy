/** `gather_all_effects`: a memoised depth-first search over the call graph with a cycle guard,
    and the loop of `analyze_dependencies` that shares its memo between queries. */
module Deps {

  type Name = string

  type Memo = map<Name, set<string>>

  /** Effects a function uses itself, and the functions it calls, in the order they are visited. */
  datatype Graph = Graph(direct: map<Name, set<string>>, calls: map<Name, seq<Name>>)

  function Direct(g: Graph, f: Name): set<string> {
    if f in g.direct then g.direct[f] else {}
  }

  function Callees(g: Graph, f: Name): seq<Name> {
    if f in g.calls then g.calls[f] else []
  }

  // ---- The search ----------------------------------------------------------

  /** The functions of a call graph. */
  function Functions(g: Graph): set<Name> {
    g.calls.Keys + set f, c | f in g.calls && c in g.calls[f] :: c
  }

  lemma FewerOutside(all: set<Name>, stack: set<Name>, f: Name)
    requires f in all && f !in stack
    ensures |all - (stack + {f})| < |all - stack|
  {
    assert all - stack == (all - (stack + {f})) + {f};
  }

  /** The result of a query, and the memo it leaves behind. */
  function Gather(g: Graph, f: Name, memo: Memo, stack: set<Name>): (set<string>, Memo)
    decreases |Functions(g) - stack|, 1, 0
  {
    if f in memo then (memo[f], memo)
    else if f in stack then ({}, memo)
    else if f in g.calls then
      FewerOutside(Functions(g), stack, f);
      var (result, memo1) := GatherCallees(g, g.calls[f], Direct(g, f), memo, stack + {f});
      (result, memo1[f := result])
    else (Direct(g, f), memo[f := Direct(g, f)])
  }

  function GatherCallees(g: Graph, cs: seq<Name>, acc: set<string>, memo: Memo, stack: set<Name>): (set<string>, Memo)
    decreases |Functions(g) - stack|, 2, |cs|
  {
    if cs == [] then (acc, memo)
    else if cs[0] in stack then GatherCallees(g, cs[1..], acc, memo, stack)
    else
      var (deps, memo1) := Gather(g, cs[0], memo, stack);
      GatherCallees(g, cs[1..], acc + deps, memo1, stack)
  }

  // ---- What queries are about ----------------------------------------------

  /** A chain of calls that stays out of `avoid`. */
  ghost predicate Path(g: Graph, p: seq<Name>, avoid: set<Name>) {
    && p != [] && (forall f :: f in p ==> f !in avoid)
    && forall i :: 0 <= i < |p| - 1 ==> p[i + 1] in Callees(g, p[i])
  }

  ghost predicate Reaches(g: Graph, f: Name, h: Name, avoid: set<Name>) {
    exists p :: Path(g, p, avoid) && p[0] == f && p[|p| - 1] == h
  }

  /** `f` uses `e` itself or through calls. */
  ghost predicate HasEffect(g: Graph, f: Name, e: string) {
    exists h :: Reaches(g, f, h, {}) && e in Direct(g, h)
  }

  /** What visiting `f` alone adds: its direct effects, and the entries its callees had in `base`. */
  ghost predicate Own(g: Graph, base: Memo, f: Name, e: string) {
    e in Direct(g, f) || exists c :: c in Callees(g, f) && c in base && e in base[c]
  }

  /** What a query for `f` has to return when it starts from memo `base`: the entry if there is
      one, else what is added by the functions reached without passing a memoised one. */
  ghost predicate Contributes(g: Graph, base: Memo, f: Name, e: string) {
    if f in base then e in base[f]
    else exists h :: Reaches(g, f, h, base.Keys) && Own(g, base, h, e)
  }

  lemma Itself(g: Graph, f: Name, avoid: set<Name>)
    requires f !in avoid
    ensures Reaches(g, f, f, avoid)
  {
    assert Path(g, [f], avoid);
  }

  lemma OneCallFurther(g: Graph, f: Name, c: Name, h: Name, avoid: set<Name>)
    requires f !in avoid && c in Callees(g, f) && Reaches(g, c, h, avoid)
    ensures Reaches(g, f, h, avoid)
  {
    var p :| Path(g, p, avoid) && p[0] == c && p[|p| - 1] == h;
    assert Path(g, [f] + p, avoid);
    assert ([f] + p)[|p|] == h;
  }

  lemma RestOfPath(g: Graph, p: seq<Name>, avoid: set<Name>)
    requires Path(g, p, avoid) && |p| > 1
    ensures Path(g, p[1..], avoid) && p[1..][|p| - 2] == p[|p| - 1] && p[1] in Callees(g, p[0])
  {
    assert p[0 + 1] in Callees(g, p[0]);
    forall i | 0 <= i < |p[1..]| - 1 ensures p[1..][i + 1] in Callees(g, p[1..][i]) {
      assert p[i + 2] in Callees(g, p[i + 1]);
    }
  }

  lemma CalleesContribute(g: Graph, base: Memo, f: Name, c: Name, e: string)
    requires f !in base && c in Callees(g, f) && Contributes(g, base, c, e)
    ensures Contributes(g, base, f, e)
  {
    if c in base {
      Itself(g, f, base.Keys);
      assert Own(g, base, f, e);
    } else {
      var h :| Reaches(g, c, h, base.Keys) && Own(g, base, h, e);
      OneCallFurther(g, f, c, h, base.Keys);
    }
  }

  // ---- What a query returns ------------------------------------------------

  /** The memo grows out of `base`: new entries hold nothing foreign, and what new functions
      call is memoised too, or still on the stack. */
  ghost predicate Grown(g: Graph, base: Memo, memo: Memo, stack: set<Name>) {
    && Extends(base, memo) && stack !! memo.Keys
    && (forall k, e :: k in memo && k !in base && e in memo[k] ==> Contributes(g, base, k, e))
    && (forall k, c :: k in memo && k !in base && c in Callees(g, k) ==> c in memo || c in stack)
  }

  ghost predicate Extends(memo: Memo, memo': Memo) {
    forall k :: k in memo ==> k in memo' && memo'[k] == memo[k]
  }

  /** Whatever was visited between two memos is in `result`. */
  ghost predicate Collected(g: Graph, base: Memo, memo: Memo, memo': Memo, result: set<string>) {
    forall k, e :: k in memo' && k !in memo && Own(g, base, k, e) ==> e in result
  }

  lemma {:induction false} GatherGrows(g: Graph, f: Name, base: Memo, memo: Memo, stack: set<Name>)
    requires Grown(g, base, memo, stack) && f !in stack
    ensures var (result, memo') := Gather(g, f, memo, stack);
            && Grown(g, base, memo', stack) && Extends(memo, memo')
            && f in memo' && memo'[f] == result
            && (forall e :: e in result ==> Contributes(g, base, f, e))
            && Collected(g, base, memo, memo', result)
    decreases |Functions(g) - stack|, 1, 0
  {
    if f !in memo {
      DirectContributes(g, base, f);
      if f in g.calls {
        FewerOutside(Functions(g), stack, f);
        CalleesGrow(g, f, g.calls[f], Direct(g, f), base, memo, stack + {f});
        var (result, memo1) := GatherCallees(g, g.calls[f], Direct(g, f), memo, stack + {f});
        Memoised(g, f, base, memo, memo1, stack, result);
      } else {
        Memoised(g, f, base, memo, memo, stack, Direct(g, f));
      }
    }
  }

  lemma DirectContributes(g: Graph, base: Memo, f: Name)
    requires f !in base
    ensures forall e :: e in Direct(g, f) ==> Contributes(g, base, f, e)
  {
    Itself(g, f, base.Keys);
    forall e | e in Direct(g, f) ensures Contributes(g, base, f, e) {
      assert Own(g, base, f, e);
    }
  }

  /** All callees of `f` have been visited: `f` leaves the stack and enters the memo. */
  lemma Memoised(g: Graph, f: Name, base: Memo, memo: Memo, memo1: Memo, stack: set<Name>, result: set<string>)
    requires Grown(g, base, memo1, stack + {f}) && Extends(memo, memo1) && f !in base && f !in stack
    requires Direct(g, f) <= result && (forall e :: e in result ==> Contributes(g, base, f, e))
    requires Collected(g, base, memo, memo1, result)
    requires forall c :: c in Callees(g, f) ==> c in memo1 || c in stack + {f}
    requires forall c, e :: c in Callees(g, f) && c in base && e in base[c] ==> e in result
    ensures var memo' := memo1[f := result];
            Grown(g, base, memo', stack) && Extends(memo, memo') && Collected(g, base, memo, memo', result)
  {
  }

  lemma {:induction false} CalleesGrow(g: Graph, f: Name, cs: seq<Name>, acc: set<string>, base: Memo, memo: Memo,
                                       stack: set<Name>)
    requires Grown(g, base, memo, stack) && f !in base && (forall c :: c in cs ==> c in Callees(g, f))
    requires forall e :: e in acc ==> Contributes(g, base, f, e)
    ensures var (result, memo') := GatherCallees(g, cs, acc, memo, stack);
            && Grown(g, base, memo', stack) && Extends(memo, memo')
            && acc <= result && (forall e :: e in result ==> Contributes(g, base, f, e))
            && Collected(g, base, memo, memo', result)
            && (forall c :: c in cs ==> c in memo' || c in stack)
            && (forall c, e :: c in cs && c in base && e in base[c] ==> e in result)
    decreases |Functions(g) - stack|, 2, |cs|
  {
    if cs != [] {
      assert cs == [cs[0]] + cs[1..];
      if cs[0] in stack {
        CalleesGrow(g, f, cs[1..], acc, base, memo, stack);
      } else {
        var (deps, memo1) := Gather(g, cs[0], memo, stack);
        GatherGrows(g, cs[0], base, memo, stack);
        forall e | e in deps ensures Contributes(g, base, f, e) {
          CalleesContribute(g, base, f, cs[0], e);
        }
        CalleesGrow(g, f, cs[1..], acc + deps, base, memo1, stack);
      }
    }
  }

  /** With nothing on the stack the visited functions are closed under calls. */
  lemma {:induction false} AllVisited(g: Graph, base: Memo, memo: Memo, p: seq<Name>)
    requires Grown(g, base, memo, {}) && Path(g, p, base.Keys) && p[0] in memo
    ensures p[|p| - 1] in memo && p[|p| - 1] !in base
  {
    if |p| > 1 {
      assert p[0] in p;
      RestOfPath(g, p, base.Keys);
      AllVisited(g, base, memo, p[1..]);
    }
  }

  /** Exactly what a query returns, for any call graph, any function and any memo it starts from. */
  lemma QueryReturns(g: Graph, f: Name, memo: Memo, e: string)
    ensures e in Gather(g, f, memo, {}).0 <==> Contributes(g, memo, f, e)
  {
    var (result, memo') := Gather(g, f, memo, {});
    GatherGrows(g, f, memo, memo, {});
    if f !in memo && Contributes(g, memo, f, e) {
      var h :| Reaches(g, f, h, memo.Keys) && Own(g, memo, h, e);
      var p :| Path(g, p, memo.Keys) && p[0] == f && p[|p| - 1] == h;
      AllVisited(g, memo, memo', p);
    }
  }

  // ---- When that is exact --------------------------------------------------

  ghost predicate Exact(g: Graph, f: Name, effects: set<string>) {
    forall e :: e in effects <==> HasEffect(g, f, e)
  }

  lemma ReachesFurther(g: Graph, f: Name, h: Name, k: Name)
    requires Reaches(g, f, h, {}) && Reaches(g, h, k, {})
    ensures Reaches(g, f, k, {})
  {
    var p :| Path(g, p, {}) && p[0] == f && p[|p| - 1] == h;
    var q :| Path(g, q, {}) && q[0] == h && q[|q| - 1] == k;
    var r := p + q[1..];
    forall i | 0 <= i < |r| - 1 ensures r[i + 1] in Callees(g, r[i]) {
      if i < |p| - 1 {
        assert p[i + 1] in Callees(g, p[i]);
      } else {
        assert q[i - |p| + 2] in Callees(g, q[i - |p| + 1]);
      }
    }
    assert Path(g, r, {}) && r[|r| - 1] == k;
  }

  lemma AvoidingLess(g: Graph, f: Name, h: Name, avoid: set<Name>)
    requires Reaches(g, f, h, avoid)
    ensures Reaches(g, f, h, {})
  {
    var p :| Path(g, p, avoid) && p[0] == f && p[|p| - 1] == h;
    assert Path(g, p, {});
  }

  /** Where a chain of calls first meets the memo, if it does. */
  lemma {:induction false} UpToTheMemo(g: Graph, memo: Memo, p: seq<Name>) returns (h: Name, met: bool)
    requires Path(g, p, {}) && p[0] !in memo
    ensures Reaches(g, p[0], h, memo.Keys)
    ensures !met ==> h == p[|p| - 1]
    ensures met ==> exists c :: c in Callees(g, h) && c in memo && Reaches(g, c, p[|p| - 1], {})
  {
    Itself(g, p[0], memo.Keys);
    h, met := p[0], false;
    if |p| > 1 {
      RestOfPath(g, p, {});
      assert Reaches(g, p[1], p[|p| - 1], {});
      if p[1] in memo {
        met := true;
      } else {
        h, met := UpToTheMemo(g, memo, p[1..]);
        OneCallFurther(g, p[0], p[1], h, memo.Keys);
      }
    }
  }

  /** A query is exact if the memo is, for the functions it reaches: cycles do not matter. */
  lemma ExactFromExactMemo(g: Graph, f: Name, memo: Memo)
    requires forall k :: k in memo && Reaches(g, f, k, {}) ==> Exact(g, k, memo[k])
    ensures Exact(g, f, Gather(g, f, memo, {}).0)
  {
    Itself(g, f, {});
    forall e ensures e in Gather(g, f, memo, {}).0 <==> HasEffect(g, f, e) {
      QueryReturns(g, f, memo, e);
      if f !in memo {
        if Contributes(g, memo, f, e) {
          OwnIsEffect(g, f, memo, e);
        }
        if HasEffect(g, f, e) {
          EffectIsOwn(g, f, memo, e);
        }
      }
    }
  }

  lemma OwnIsEffect(g: Graph, f: Name, memo: Memo, e: string)
    requires f !in memo && Contributes(g, memo, f, e)
    requires forall k :: k in memo && Reaches(g, f, k, {}) ==> forall e :: e in memo[k] ==> HasEffect(g, k, e)
    ensures HasEffect(g, f, e)
  {
    var h :| Reaches(g, f, h, memo.Keys) && Own(g, memo, h, e);
    AvoidingLess(g, f, h, memo.Keys);
    if e !in Direct(g, h) {
      var c :| c in Callees(g, h) && c in memo && e in memo[c];
      Itself(g, c, {});
      OneCallFurther(g, h, c, c, {});
      ReachesFurther(g, f, h, c);
      var k :| Reaches(g, c, k, {}) && e in Direct(g, k);
      ReachesFurther(g, f, c, k);
    }
  }

  lemma EffectIsOwn(g: Graph, f: Name, memo: Memo, e: string)
    requires f !in memo && HasEffect(g, f, e)
    requires forall k :: k in memo && Reaches(g, f, k, {}) ==> Exact(g, k, memo[k])
    ensures Contributes(g, memo, f, e)
  {
    var k :| Reaches(g, f, k, {}) && e in Direct(g, k);
    var p :| Path(g, p, {}) && p[0] == f && p[|p| - 1] == k;
    var h, met := UpToTheMemo(g, memo, p);
    if met {
      var c :| c in Callees(g, h) && c in memo && Reaches(g, c, k, {});
      AvoidingLess(g, f, h, memo.Keys);
      Itself(g, c, {});
      OneCallFurther(g, h, c, c, {});
      ReachesFurther(g, f, h, c);
      assert HasEffect(g, c, e);
      assert Own(g, memo, h, e);
    } else {
      assert Own(g, memo, h, e);
    }
  }

  /** The first query is exact, whatever cycles there are. */
  lemma FirstQueryIsExact(g: Graph, f: Name)
    ensures Exact(g, f, Gather(g, f, map[], {}).0)
  {
    ExactFromExactMemo(g, f, map[]);
  }

  // ---- Many queries with one memo ------------------------------------------

  /** The memo after some queries. */
  function MemoAfter(g: Graph, queries: seq<Name>, memo: Memo): Memo {
    if queries == [] then memo else MemoAfter(g, queries[1..], Gather(g, queries[0], memo, {}).1)
  }

  ghost predicate SoundMemo(g: Graph, memo: Memo) {
    forall k, e :: k in memo && e in memo[k] ==> HasEffect(g, k, e)
  }

  lemma QueryKeepsSound(g: Graph, f: Name, memo: Memo)
    requires SoundMemo(g, memo)
    ensures SoundMemo(g, Gather(g, f, memo, {}).1)
  {
    var memo' := Gather(g, f, memo, {}).1;
    GatherGrows(g, f, memo, memo, {});
    forall k, e | k in memo' && e in memo'[k] ensures HasEffect(g, k, e) {
      if k !in memo {
        OwnIsEffect(g, k, memo, e);
      }
    }
  }

  lemma {:induction false} QueriesKeepSound(g: Graph, queries: seq<Name>, memo: Memo)
    requires SoundMemo(g, memo)
    ensures SoundMemo(g, MemoAfter(g, queries, memo))
    decreases |queries|
  {
    if queries != [] {
      QueryKeepsSound(g, queries[0], memo);
      QueriesKeepSound(g, queries[1..], Gather(g, queries[0], memo, {}).1);
    }
  }

  /** No query, after any others and on any call graph, returns an effect of something the
      function does not reach. */
  lemma QueriesAreSound(g: Graph, before: seq<Name>, f: Name, e: string)
    requires e in Gather(g, f, MemoAfter(g, before, map[]), {}).0
    ensures HasEffect(g, f, e)
  {
    var memo := MemoAfter(g, before, map[]);
    QueriesKeepSound(g, before, map[]);
    QueryKeepsSound(g, f, memo);
    GatherGrows(g, f, memo, memo, {});
  }

  /** No two different functions reach each other; a function may call itself. */
  ghost predicate NoMutualRecursion(g: Graph) {
    forall f, h :: Reaches(g, f, h, {}) && Reaches(g, h, f, {}) ==> f == h
  }

  ghost predicate ExactMemo(g: Graph, memo: Memo) {
    forall k :: k in memo ==> Exact(g, k, memo[k])
  }

  /** `result` is `own` and what the functions of `cs` other than `f` use. */
  ghost predicate ExactCallees(g: Graph, f: Name, cs: seq<Name>, own: set<string>, result: set<string>) {
    forall e :: e in result <==> e in own || UsedBy(g, f, cs, e)
  }

  ghost predicate UsedBy(g: Graph, f: Name, cs: seq<Name>, e: string) {
    exists c :: c in cs && c != f && HasEffect(g, c, e)
  }

  /** A chain of calls leaves its first function for good at some point. */
  lemma {:induction false} LeavesForGood(g: Graph, p: seq<Name>, e: string)
    requires Path(g, p, {}) && e in Direct(g, p[|p| - 1])
    ensures e in Direct(g, p[0]) || UsedBy(g, p[0], Callees(g, p[0]), e)
    decreases |p|
  {
    if |p| > 1 {
      RestOfPath(g, p, {});
      if p[1] == p[0] {
        LeavesForGood(g, p[1..], e);
      } else {
        assert Reaches(g, p[1], p[|p| - 1], {});
        assert HasEffect(g, p[1], e);
      }
    }
  }

  lemma EffectsByCalls(g: Graph, f: Name, e: string)
    ensures HasEffect(g, f, e) <==> e in Direct(g, f) || UsedBy(g, f, Callees(g, f), e)
  {
    Itself(g, f, {});
    if HasEffect(g, f, e) {
      var h :| Reaches(g, f, h, {}) && e in Direct(g, h);
      var p :| Path(g, p, {}) && p[0] == f && p[|p| - 1] == h;
      LeavesForGood(g, p, e);
    }
    if UsedBy(g, f, Callees(g, f), e) {
      var c :| c in Callees(g, f) && c != f && HasEffect(g, c, e);
      var h :| Reaches(g, c, h, {}) && e in Direct(g, h);
      OneCallFurther(g, f, c, h, {});
    }
  }

  lemma CallersReach(g: Graph, f: Name, stack: set<Name>)
    requires forall s :: s in stack ==> Reaches(g, s, f, {})
    ensures forall s :: s in stack + {f} ==> Reaches(g, s, f, {})
  {
    Itself(g, f, {});
  }

  /** Without mutual recursion nothing but `f` itself is skipped on the way through its callees. */
  lemma {:induction false} GatherIsExact(g: Graph, f: Name, memo: Memo, stack: set<Name>)
    requires NoMutualRecursion(g) && ExactMemo(g, memo) && f !in stack
    requires forall s :: s in stack ==> Reaches(g, s, f, {})
    ensures var (result, memo') := Gather(g, f, memo, stack); Exact(g, f, result) && ExactMemo(g, memo')
    decreases |Functions(g) - stack|, 1, 0
  {
    if f !in memo {
      if f in g.calls {
        FewerOutside(Functions(g), stack, f);
        CallersReach(g, f, stack);
        CalleesAreExact(g, f, g.calls[f], Direct(g, f), memo, stack + {f});
        var (result, memo1) := GatherCallees(g, g.calls[f], Direct(g, f), memo, stack + {f});
        ExactFromCallees(g, f, memo1, result);
      } else {
        ExactFromCallees(g, f, memo, Direct(g, f));
      }
    }
  }

  lemma ExactFromCallees(g: Graph, f: Name, memo: Memo, result: set<string>)
    requires ExactCallees(g, f, Callees(g, f), Direct(g, f), result) && ExactMemo(g, memo)
    ensures Exact(g, f, result) && ExactMemo(g, memo[f := result])
  {
    forall e ensures e in result <==> HasEffect(g, f, e) {
      EffectsByCalls(g, f, e);
    }
  }

  lemma {:induction false} CalleesAreExact(g: Graph, f: Name, cs: seq<Name>, acc: set<string>, memo: Memo,
                                           stack: set<Name>)
    requires NoMutualRecursion(g) && ExactMemo(g, memo) && f in stack && (forall c :: c in cs ==> c in Callees(g, f))
    requires forall s :: s in stack ==> Reaches(g, s, f, {})
    ensures var (result, memo') := GatherCallees(g, cs, acc, memo, stack);
            ExactCallees(g, f, cs, acc, result) && ExactMemo(g, memo')
    decreases |Functions(g) - stack|, 2, |cs|
  {
    if cs != [] {
      var c := cs[0];
      assert cs == [c] + cs[1..];
      Itself(g, c, {});
      OneCallFurther(g, f, c, c, {});
      if c in stack {
        assert c == f;
        CalleesAreExact(g, f, cs[1..], acc, memo, stack);
        OneMoreCallee(g, f, cs, acc, {}, GatherCallees(g, cs, acc, memo, stack).0);
      } else {
        forall s | s in stack ensures Reaches(g, s, c, {}) {
          ReachesFurther(g, s, f, c);
        }
        GatherIsExact(g, c, memo, stack);
        var (deps, memo1) := Gather(g, c, memo, stack);
        CalleesAreExact(g, f, cs[1..], acc + deps, memo1, stack);
        OneMoreCallee(g, f, cs, acc, deps, GatherCallees(g, cs, acc, memo, stack).0);
      }
    }
  }

  lemma OneMoreCallee(g: Graph, f: Name, cs: seq<Name>, acc: set<string>, deps: set<string>, result: set<string>)
    requires cs != [] && ExactCallees(g, f, cs[1..], acc + deps, result)
    requires if cs[0] == f then deps == {} else Exact(g, cs[0], deps)
    ensures ExactCallees(g, f, cs, acc, result)
  {
    forall e ensures e in result <==> e in acc || UsedBy(g, f, cs, e) {
      assert cs == [cs[0]] + cs[1..];
      if UsedBy(g, f, cs[1..], e) {
        var c :| c in cs[1..] && c != f && HasEffect(g, c, e);
        assert c in cs;
      }
      if UsedBy(g, f, cs, e) && !UsedBy(g, f, cs[1..], e) {
        var c :| c in cs && c != f && HasEffect(g, c, e);
        assert c == cs[0];
      }
    }
  }

  lemma {:induction false} MemoStaysExact(g: Graph, queries: seq<Name>, memo: Memo)
    requires NoMutualRecursion(g) && ExactMemo(g, memo)
    ensures ExactMemo(g, MemoAfter(g, queries, memo))
    decreases |queries|
  {
    if queries != [] {
      GatherIsExact(g, queries[0], memo, {});
      MemoStaysExact(g, queries[1..], Gather(g, queries[0], memo, {}).1);
    }
  }

  /** Without mutual recursion every query is exact, in whatever order they are asked. */
  lemma QueriesAreExact(g: Graph, before: seq<Name>, f: Name)
    requires NoMutualRecursion(g)
    ensures Exact(g, f, Gather(g, f, MemoAfter(g, before, map[]), {}).0)
  {
    MemoStaysExact(g, before, map[]);
    GatherIsExact(g, f, MemoAfter(g, before, map[]), {});
  }

  // ---- Exactly when queries are exact --------------------------------------

  /** `f` and everything memoised lack `e`, which only `a` uses itself, while `a` is on the stack. */
  lemma {:induction false} MissedWhileOnStack(g: Graph, a: Name, e: string, f: Name, memo: Memo, stack: set<Name>)
    requires (forall h :: e in Direct(g, h) ==> h == a) && a in stack && a !in memo && f !in stack
    requires forall k :: k in memo ==> e !in memo[k]
    ensures var (result, memo') := Gather(g, f, memo, stack);
            e !in result && a !in memo' && forall k :: k in memo' ==> e !in memo'[k]
    decreases |Functions(g) - stack|, 1, 0
  {
    if f !in memo && f in g.calls {
      FewerOutside(Functions(g), stack, f);
      MissedByCallees(g, a, e, g.calls[f], Direct(g, f), memo, stack + {f});
    }
  }

  lemma {:induction false} MissedByCallees(g: Graph, a: Name, e: string, cs: seq<Name>, acc: set<string>, memo: Memo,
                                           stack: set<Name>)
    requires (forall h :: e in Direct(g, h) ==> h == a) && a in stack && a !in memo
    requires forall k :: k in memo ==> e !in memo[k]
    ensures var (result, memo') := GatherCallees(g, cs, acc, memo, stack);
            (e in result <==> e in acc) && a !in memo' && forall k :: k in memo' ==> e !in memo'[k]
    decreases |Functions(g) - stack|, 2, |cs|
  {
    if cs != [] {
      if cs[0] in stack {
        MissedByCallees(g, a, e, cs[1..], acc, memo, stack);
      } else {
        var (deps, memo1) := Gather(g, cs[0], memo, stack);
        MissedWhileOnStack(g, a, e, cs[0], memo, stack);
        MissedByCallees(g, a, e, cs[1..], acc + deps, memo1, stack);
      }
    }
  }

  /** A query for one of two mutually recursive functions leaves a partial entry for the other. */
  lemma SecondQueryMisses(g: Graph, a: Name, b: Name, e: string)
    requires Reaches(g, a, b, {}) && Reaches(g, b, a, {}) && a != b
    requires forall h :: e in Direct(g, h) <==> h == a
    ensures HasEffect(g, b, e) && e !in Gather(g, b, MemoAfter(g, [a], map[]), {}).0
  {
    var memo := Gather(g, a, map[], {}).1;
    assert [a][1..] == [] && MemoAfter(g, [a], map[]) == memo;
    GatherGrows(g, a, map[], map[], {});
    var p :| Path(g, p, {}) && p[0] == a && p[|p| - 1] == b;
    AllVisited(g, map[], memo, p);
    RestOfPath(g, p, {});
    MissedByCallees(g, a, e, g.calls[a], Direct(g, a), map[], {} + {a});
    assert e !in memo[b];
  }

  /** The same calls with other direct effects. */
  ghost predicate AnswersExactly(calls: map<Name, seq<Name>>, direct: map<Name, set<string>>, before: seq<Name>,
                                 f: Name) {
    var g := Graph(direct, calls);
    Exact(g, f, Gather(g, f, MemoAfter(g, before, map[]), {}).0)
  }

  lemma SameCalls(g: Graph, g': Graph, f: Name, h: Name)
    requires g.calls == g'.calls && Reaches(g, f, h, {})
    ensures Reaches(g', f, h, {})
  {
    var p :| Path(g, p, {}) && p[0] == f && p[|p| - 1] == h;
    assert Path(g', p, {}) by {
      forall i | 0 <= i < |p| - 1 ensures p[i + 1] in Callees(g', p[i]) {
        assert p[i + 1] in Callees(g, p[i]);
      }
    }
  }

  /** Exactly when a call graph is answered for: all queries, after any others and whatever the
      functions use themselves, are exact if and only if no two functions are mutually recursive. */
  lemma ExactIffNoMutualRecursion(calls: map<Name, seq<Name>>)
    ensures (forall direct, before, f :: AnswersExactly(calls, direct, before, f)) <==>
              NoMutualRecursion(Graph(map[], calls))
  {
    if NoMutualRecursion(Graph(map[], calls)) {
      forall direct, before, f ensures AnswersExactly(calls, direct, before, f) {
        var g := Graph(direct, calls);
        forall a, b | Reaches(g, a, b, {}) && Reaches(g, b, a, {}) ensures a == b {
          SameCalls(g, Graph(map[], calls), a, b);
          SameCalls(g, Graph(map[], calls), b, a);
        }
        QueriesAreExact(g, before, f);
      }
    } else {
      var g0 := Graph(map[], calls);
      var a, b :| Reaches(g0, a, b, {}) && Reaches(g0, b, a, {}) && a != b;
      var direct: map<Name, set<string>> := map[a := {"x"}];
      var g := Graph(direct, calls);
      SameCalls(g0, g, a, b);
      SameCalls(g0, g, b, a);
      SecondQueryMisses(g, a, b, "x");
      assert !AnswersExactly(calls, direct, [a], b);
    }
  }

  /** With a cycle a later query can miss effects: `b` calls `a`, but was memoised while `a` was
      on the stack. */
  lemma LaterQueriesCanBePartial()
    ensures var g := Graph(map["a" := {"x"}, "b" := {"y"}], map["a" := ["b"], "b" := ["a"]]);
            HasEffect(g, "b", "x") && "x" !in Gather(g, "b", MemoAfter(g, ["a"], map[]), {}).0
  {
    var g := Graph(map["a" := {"x"}, "b" := {"y"}], map["a" := ["b"], "b" := ["a"]]);
    assert Path(g, ["b", "a"], {});
    assert ["b", "a"][0] == "b" && ["b", "a"][1] == "a";
    assert Reaches(g, "b", "a", {});
    var onA: set<Name> := {"a"};
    assert {} + {"a"} == onA && ["a"][1..] == [] && ["b"][1..] == [];
    assert GatherCallees(g, ["a"], {"y"}, map[], onA + {"b"}) == ({"y"}, map[]);
    assert Gather(g, "b", map[], onA) == ({"y"}, map["b" := {"y"}]);
    var (atA, memo) := GatherCallees(g, ["b"], {"x"}, map[], onA);
    assert memo == map["b" := {"y"}];
    assert Gather(g, "a", map[], {}).1 == memo["a" := atA];
    assert MemoAfter(g, ["a"], map[]) == Gather(g, "a", map[], {}).1;
  }

  // ---- As it is written ----------------------------------------------------

  class MemoTable {
    var entries: Memo

    constructor ()
      ensures entries == map[]
    {
      entries := map[];
    }
  }

  class CallStack {
    var names: set<Name>

    constructor ()
      ensures names == {}
    {
      names := {};
    }
  }

  method GatherAllEffects(f: Name, g: Graph, memo: MemoTable, stack: CallStack) returns (result: set<string>)
    modifies memo, stack
    ensures (result, memo.entries) == Gather(g, f, old(memo.entries), old(stack.names))
    ensures stack.names == old(stack.names)
    decreases |Functions(g) - stack.names|
  {
    if f in memo.entries {
      return memo.entries[f];
    }
    if f in stack.names {
      return {};
    }
    stack.names := stack.names + {f};
    result := Direct(g, f);
    if f in g.calls {
      FewerOutside(Functions(g), old(stack.names), f);
      var callees := g.calls[f];
      for i := 0 to |callees|
        invariant stack.names == old(stack.names) + {f}
        invariant GatherCallees(g, callees[i..], result, memo.entries, stack.names)
               == GatherCallees(g, callees, Direct(g, f), old(memo.entries), old(stack.names) + {f})
      {
        assert callees[i..][0] == callees[i] && callees[i..][1..] == callees[i + 1..];
        if callees[i] !in stack.names {
          var deps := GatherAllEffects(callees[i], g, memo, stack);
          result := result + deps;
        }
      }
    }
    stack.names := stack.names - {f};
    memo.entries := memo.entries[f := result];
  }

  /** No table entry claims too much, and none too little unless there is mutual recursion. */
  ghost predicate Faithful(g: Graph, table: Memo) {
    SoundMemo(g, table) && (NoMutualRecursion(g) ==> ExactMemo(g, table))
  }

  lemma QueryIsFaithful(g: Graph, f: Name, memo: Memo, table: Memo)
    requires Faithful(g, memo) && Faithful(g, table)
    ensures var (result, memo') := Gather(g, f, memo, {}); Faithful(g, memo') && Faithful(g, table[f := result])
  {
    QueryKeepsSound(g, f, memo);
    GatherGrows(g, f, memo, memo, {});
    if NoMutualRecursion(g) {
      GatherIsExact(g, f, memo, {});
    }
  }

  /** The loop of `analyze_dependencies`: two queries for every function, for what it depends on
      and what it asks for, over the same calls, with two memos and one stack. */
  method AnalyzeAll(functions: seq<Name>, deps: Graph, asks: Graph) returns (allDeps: Memo, allAsks: Memo)
    ensures allDeps.Keys == allAsks.Keys == set f | f in functions
    ensures Faithful(deps, allDeps) && Faithful(asks, allAsks)
  {
    var memoDeps := new MemoTable();
    var memoAsks := new MemoTable();
    var stack := new CallStack();
    allDeps, allAsks := map[], map[];
    for i := 0 to |functions|
      invariant stack.names == {} && memoDeps != memoAsks && fresh(memoDeps) && fresh(memoAsks) && fresh(stack)
      invariant allDeps.Keys == allAsks.Keys == set f | f in functions[..i]
      invariant Faithful(deps, memoDeps.entries) && Faithful(deps, allDeps)
      invariant Faithful(asks, memoAsks.entries) && Faithful(asks, allAsks)
    {
      var f := functions[i];
      assert functions[..i + 1] == functions[..i] + [f];
      QueryIsFaithful(deps, f, memoDeps.entries, allDeps);
      QueryIsFaithful(asks, f, memoAsks.entries, allAsks);
      var dep := GatherAllEffects(f, deps, memoDeps, stack);
      var ask := GatherAllEffects(f, asks, memoAsks, stack);
      allDeps, allAsks := allDeps[f := dep], allAsks[f := ask];
    }
    assert functions[..|functions|] == functions;
  }
}
