/** The lists of handle references that `register_handle` keeps are pruned now and then: they
    stay within twice the handles alive at the last prune, and pruning is cheap. */
module HandlePruning {
  import opened SchedulerModel

  /** A registration, and the handles alive when it happens. */
  datatype Registration = Registration(key: Key, handle: nat, live: set<nat>)

  function RefsOf(s: State, key: Key): seq<nat> {
    if key in s.refs then s.refs[key] else []
  }

  function Limit(s: State, key: Key): nat {
    if key in s.pruneAt then s.pruneAt[key] else HANDLE_REFS_PRUNE_MIN
  }

  function Registered(s: State, regs: seq<Registration>): State
    decreases |regs|
  {
    if regs == [] then s else Registered(Register(s, regs[0].key, regs[0].handle, regs[0].live), regs[1..])
  }

  /** How many of them are for `key`. */
  function HowMany(regs: seq<Registration>, key: Key): nat {
    if regs == [] then 0 else (if regs[0].key == key then 1 else 0) + HowMany(regs[1..], key)
  }

  predicate Prunes(s: State, key: Key) { |RefsOf(s, key)| >= Limit(s, key) }

  /** The references of `key` its prunes look at. */
  function Scanned(s: State, regs: seq<Registration>, key: Key): nat
    decreases |regs|
  {
    if regs == [] then 0
    else
      (if regs[0].key == key && Prunes(s, key) then |RefsOf(s, key)| else 0)
      + Scanned(Register(s, regs[0].key, regs[0].handle, regs[0].live), regs[1..], key)
  }

  /** The references that were alive when `key` was last pruned: none if it never was. */
  function LastAlive(s: State, alive: nat, regs: seq<Registration>, key: Key): nat
    decreases |regs|
  {
    if regs == [] then alive
    else
      LastAlive(Register(s, regs[0].key, regs[0].handle, regs[0].live),
                if regs[0].key == key && Prunes(s, key) then |LiveRefs(RefsOf(s, key), regs[0].live)| else alive,
                regs[1..], key)
  }

  function Bound(alive: nat): nat {
    if 2 * alive > HANDLE_REFS_PRUNE_MIN then 2 * alive else HANDLE_REFS_PRUNE_MIN
  }

  /** The list of `key` is within its limit, which goes by `alive`. */
  predicate Within(s: State, key: Key, alive: nat) {
    Limit(s, key) == Bound(alive) && alive <= |RefsOf(s, key)| <= Bound(alive)
  }

  lemma OneRegistration(s: State, key: Key, alive: nat, reg: Registration)
    requires Within(s, key, alive)
    ensures var s' := Register(s, reg.key, reg.handle, reg.live);
            var alive' := if reg.key == key && Prunes(s, key) then |LiveRefs(RefsOf(s, key), reg.live)| else alive;
            && Within(s', key, alive')
            && (reg.key != key ==> RefsOf(s', key) == RefsOf(s, key))
            && (reg.key == key && !Prunes(s, key) ==> |RefsOf(s', key)| == |RefsOf(s, key)| + 1)
            && (reg.key == key && Prunes(s, key) ==> |RefsOf(s', key)| == alive' + 1 && |RefsOf(s, key)| >= 2 * alive)
  {
  }

  lemma {:induction false} RegistrationsStayWithin(s: State, key: Key, alive: nat, regs: seq<Registration>)
    requires Within(s, key, alive)
    ensures var s' := Registered(s, regs); var alive' := LastAlive(s, alive, regs, key);
            && Within(s', key, alive')
            && Scanned(s, regs, key) + 2 * (|RefsOf(s', key)| - alive')
               <= 2 * HowMany(regs, key) + 2 * (|RefsOf(s, key)| - alive)
    decreases |regs|
  {
    if regs != [] {
      OneRegistration(s, key, alive, regs[0]);
      var alive1 := if regs[0].key == key && Prunes(s, key) then |LiveRefs(RefsOf(s, key), regs[0].live)| else alive;
      RegistrationsStayWithin(Register(s, regs[0].key, regs[0].handle, regs[0].live), key, alive1, regs[1..]);
    }
  }

  /** From a fresh start, whatever is registered for whatever keys and whatever handles die in
      between: the list of a key never exceeds the larger of 8 and twice what was alive when it was
      last pruned, and all its prunes together look at no more than two references for every
      registration. */
  lemma PruningIsAmortised(regs: seq<Registration>, key: Key)
    ensures |RefsOf(Registered(EMPTY, regs), key)| <= Bound(LastAlive(EMPTY, 0, regs, key))
    ensures Scanned(EMPTY, regs, key) <= 2 * HowMany(regs, key)
  {
    RegistrationsStayWithin(EMPTY, key, 0, regs);
  }

  // ---- All keys together ---------------------------------------------------

  /** The references the prunes of some keys look at, and the registrations for them. */
  function ScannedOf(s: State, regs: seq<Registration>, keys: set<Key>): nat
    decreases |regs|
  {
    if regs == [] then 0
    else
      (if regs[0].key in keys && Prunes(s, regs[0].key) then |RefsOf(s, regs[0].key)| else 0)
      + ScannedOf(Register(s, regs[0].key, regs[0].handle, regs[0].live), regs[1..], keys)
  }

  function HowManyOf(regs: seq<Registration>, keys: set<Key>): nat {
    if regs == [] then 0 else (if regs[0].key in keys then 1 else 0) + HowManyOf(regs[1..], keys)
  }

  lemma {:induction false} OneKeyApart(s: State, regs: seq<Registration>, keys: set<Key>, key: Key)
    requires key in keys
    ensures ScannedOf(s, regs, keys) == ScannedOf(s, regs, keys - {key}) + Scanned(s, regs, key)
    ensures HowManyOf(regs, keys) == HowManyOf(regs, keys - {key}) + HowMany(regs, key)
    decreases |regs|
  {
    if regs != [] {
      OneKeyApart(Register(s, regs[0].key, regs[0].handle, regs[0].live), regs[1..], keys, key);
    }
  }

  lemma {:induction false} NothingScanned(s: State, regs: seq<Registration>)
    ensures ScannedOf(s, regs, {}) == 0
    decreases |regs|
  {
    if regs != [] {
      NothingScanned(Register(s, regs[0].key, regs[0].handle, regs[0].live), regs[1..]);
    }
  }

  lemma {:induction false} AllCounted(regs: seq<Registration>, keys: set<Key>)
    ensures HowManyOf(regs, keys) <= |regs|
  {
    if regs != [] {
      AllCounted(regs[1..], keys);
    }
  }

  lemma {:induction false} ScannedOfKeys(regs: seq<Registration>, keys: set<Key>)
    ensures ScannedOf(EMPTY, regs, keys) <= 2 * HowManyOf(regs, keys)
    decreases |keys|
  {
    if keys == {} {
      NothingScanned(EMPTY, regs);
    } else {
      var key :| key in keys;
      OneKeyApart(EMPTY, regs, keys, key);
      PruningIsAmortised(regs, key);
      ScannedOfKeys(regs, keys - {key});
    }
  }

  /** All prunes of a run, of any keys, look at no more than two references per registration. */
  lemma TotalIsAmortised(regs: seq<Registration>, keys: set<Key>)
    ensures ScannedOf(EMPTY, regs, keys) <= 2 * |regs|
  {
    ScannedOfKeys(regs, keys);
    AllCounted(regs, keys);
  }
}
