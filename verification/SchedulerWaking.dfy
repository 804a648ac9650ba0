/** Waking keeps the invariant: `wake_waiters` moves each continuation from its registration
    to the heap and never leaves a registration of a resolved join or an unclaimed cell
    behind.  The loop is followed registration by registration: `Listed` puts what is left of
    the popped list back, so that one predicate describes the states in between. */
module SchedulerWaking {
  import opened Wrappers
  import opened SchedulerModel
  import opened SchedulerInvariant

  function Listed(waiters: map<Key, seq<Waiter>>, key: Key, ws: seq<Waiter>): map<Key, seq<Waiter>> {
    if ws == [] then waiters else waiters[key := ws]
  }

  function OnBoard(b: Board, key: Key, ws: seq<Waiter>): Board {
    b.(waiters := Listed(b.waiters, key, ws))
  }

  /** Continuations move to the heap only from registrations, and are not exchanged. */
  ghost predicate Moved(spot: Spots, spot': Spots) {
    && spot'.Keys == spot.Keys
    && forall o :: o in spot ==>
         || spot'[o] == spot[o]
         || (spot'[o].AtReady? && !spot[o].Unstarted? && !spot[o].AtSem? && spot'[o].cont == spot[o].cont)
  }

  // ---- One more item in the heap -------------------------------------------

  lemma PlaceItem(items: set<Item>, n: nat, spot: Spots, x: Item)
    requires ItemsPlaced(items, spot) && OrdersDistinct(items, n)
    requires x.order == n && !x.entry.Placeholder?
    requires EntryOwner(x.entry) in spot ==>
               !spot[EntryOwner(x.entry)].Unstarted? && !spot[EntryOwner(x.entry)].AtReady?
    ensures ItemsPlaced(items + {x}, spot[EntryOwner(x.entry) := SpotOf(x)])
    ensures OrdersDistinct(items + {x}, n + 1)
  {
    var o := EntryOwner(x.entry);
    var spot' := spot[o := SpotOf(x)];
    assert CarriedBy(items + {x}, o, SpotOf(x)) by { assert Carries(x.entry, o); }
    forall p | p in spot' && p != o && (spot'[p].Unstarted? || spot'[p].AtReady?)
      ensures CarriedBy(items + {x}, p, spot'[p])
    {
      assert CarriedBy(items, p, spot[p]);
    }
  }

  lemma MoveKeepsJoins(joins: map<nat, Join>, spot: Spots, o: Owner, sp: Spot)
    requires JoinsPlaced(joins, spot)
    requires o in spot ==> !spot[o].AtJoin?
    requires !sp.AtJoin?
    ensures JoinsPlaced(joins, spot[o := sp])
  {
  }

  lemma MoveKeepsWaits(waiters: map<Key, seq<Waiter>>, spot: Spots, o: Owner, sp: Spot)
    requires WaitsPlaced(waiters, spot)
    requires o in spot ==> !spot[o].AtWait?
    requires !sp.AtWait?
    ensures WaitsPlaced(waiters, spot[o := sp])
  {
  }

  // ---- One registration less in the list being woken -----------------------

  lemma PopLists(waiters: map<Key, seq<Waiter>>, key: Key, w: Waiter, rest: seq<Waiter>)
    requires key !in waiters && ListsClean(waiters[key := [w] + rest])
    ensures ListsClean(Listed(waiters, key, rest))
    ensures forall v: Waiter :: v in rest ==> !Clash(w, v)
  {
    var all := waiters[key := [w] + rest];
    assert all[key][1..] == rest;
    forall k | k in waiters ensures waiters[k] != [] && NoClash(waiters[k]) {
      assert all[k] == waiters[k];
    }
  }

  lemma PopKeys(waiters: map<Key, seq<Waiter>>, meta: map<Key, Meta>, key: Key, w: Waiter, rest: seq<Waiter>)
    requires key !in waiters && KeysPending(waiters[key := [w] + rest], meta, Some(key))
    ensures KeysPending(Listed(waiters, key, rest), meta, Some(key))
  {
    assert forall k :: k in waiters ==> k in waiters[key := [w] + rest];
  }

  lemma PopRegs(waiters: map<Key, seq<Waiter>>, joins: map<nat, Join>, n: nat, key: Key, w: Waiter, rest: seq<Waiter>)
    requires key !in waiters && RegsKnown(waiters[key := [w] + rest], joins, Some(key), n)
    ensures RegsKnown(Listed(waiters, key, rest), joins, Some(key), n)
  {
    PopMembers(waiters, key, w, rest);
  }

  lemma PopMembers(waiters: map<Key, seq<Waiter>>, key: Key, w: Waiter, rest: seq<Waiter>)
    requires key !in waiters
    ensures var all := waiters[key := [w] + rest]; var left := Listed(waiters, key, rest);
            forall k: Key, v: Waiter :: k in left && v in left[k] ==> k in all && v in all[k]
    ensures var all := waiters[key := [w] + rest]; var left := Listed(waiters, key, rest);
            forall k: Key, v: Waiter :: k in all && v in all[k] && !(k == key && v == w) ==> k in left && v in left[k]
  {
  }

  lemma PopWaits(waiters: map<Key, seq<Waiter>>, spot: Spots, key: Key, w: Waiter, rest: seq<Waiter>, sp: Spot)
    requires key !in waiters && ListsClean(waiters[key := [w] + rest])
    requires WaitsPlaced(waiters[key := [w] + rest], spot)
    requires !sp.AtWait?
    ensures w.Direct? ==> WaitsPlaced(Listed(waiters, key, rest), spot[w.owner := sp])
    ensures w.Joined? ==> WaitsPlaced(Listed(waiters, key, rest), spot)
  {
    var all := waiters[key := [w] + rest];
    var left := Listed(waiters, key, rest);
    PopMembers(waiters, key, w, rest);
    PopLists(waiters, key, w, rest);
    assert w in all[key];
    var spot' := if w.Direct? then spot[w.owner := sp] else spot;
    forall k: Key, v: Waiter | k in left && v in left[k] && v.Direct?
      ensures v.owner in spot' && spot'[v.owner] == AtWait(k, v.cont)
    {
      assert k in all && v in all[k];
      assert k == key ==> v in rest && !Clash(w, v);
    }
    forall o | o in spot' && spot'[o].AtWait? ensures WaitingIn(left, o, spot'[o].key, spot'[o].cont) {
      assert WaitingIn(all, o, spot[o].key, spot[o].cont);
      var v: Waiter :| v in all[spot[o].key] && v.Direct? && v.owner == o && v.cont == spot[o].cont;
      assert spot[o].key in left && v in left[spot[o].key];
    }
  }

  function CellSet(c: Option<nat>): set<nat> { if c.Some? then {c.value} else {} }

  lemma PopCells(b: Board, items: set<Item>, meta: map<Key, Meta>, cellKey: map<nat, Key>, key: Key, w: Waiter,
                 rest: seq<Waiter>)
    requires key !in b.waiters && ListsClean(b.waiters[key := [w] + rest])
    requires CellsUnclaimed(b.waiters[key := [w] + rest], b.claimed, meta, cellKey, b.nextObj)
    requires PlaceholdersPaired(items, b.waiters[key := [w] + rest], b.claimed, b.nextObj)
    ensures var left := Listed(b.waiters, key, rest); var claimed := b.claimed + CellSet(w.cell);
            CellsUnclaimed(left, claimed, meta, cellKey, b.nextObj)
            && PlaceholdersPaired(items, left, claimed, b.nextObj)
  {
    var all := b.waiters[key := [w] + rest];
    var left := Listed(b.waiters, key, rest);
    var claimed := b.claimed + CellSet(w.cell);
    PopMembers(b.waiters, key, w, rest);
    PopLists(b.waiters, key, w, rest);
    assert w in all[key];
    forall k: Key, v: Waiter | k in left && v in left[k] && v.cell.Some? && v.cell.value in CellSet(w.cell)
      ensures false
    {
      assert k in all && v in all[k];
      assert k == cellKey[v.cell.value] == key;
      assert v in rest && Clash(w, v);
    }
    forall x | x in items && x.entry.Placeholder? && x.entry.cell !in claimed
      ensures Registered(left, x.entry.owner, x.entry.key, x.entry.cell)
    {
      assert Registered(all, x.entry.owner, x.entry.key, x.entry.cell);
      var v: Waiter :| v in all[x.entry.key] && v.owner == x.entry.owner && v.cell == Some(x.entry.cell);
      assert x.entry.key in left && v in left[x.entry.key];
    }
  }

  lemma PopCounts(waiters: map<Key, seq<Waiter>>, joins: map<nat, Join>, meta: map<Key, Meta>, key: Key, w: Waiter,
                  rest: seq<Waiter>, j: nat)
    requires key !in waiters && JoinsCounted(waiters[key := [w] + rest], joins, meta, Some(key))
    requires key in meta && Terminal(meta[key].status)
    requires j in joins && !joins[j].resolved && !OfJoin(w, j)
    ensures Counted(Listed(waiters, key, rest), j, joins[j], meta, Some(key))
  {
    var all := waiters[key := [w] + rest];
    var left := Listed(waiters, key, rest);
    assert Counted(all, j, joins[j], meta, Some(key));
    assert ([w] + rest)[1..] == rest;
    assert Count(RegsAt(left, key), j) == Count(RegsAt(all, key), j);
    forall k | k != key ensures RegsAt(left, k) == RegsAt(all, k) {}
  }

  // ---- Dropping the other registrations of a join --------------------------

  lemma {:induction false} WithoutMembers(ws: seq<Waiter>, j: nat)
    ensures forall w :: w in Without(ws, j) <==> w in ws && !OfJoin(w, j)
  {
    if ws != [] {
      assert ws == [ws[0]] + ws[1..];
      WithoutMembers(ws[1..], j);
    }
  }

  lemma {:induction false} WithoutCount(ws: seq<Waiter>, j: nat, i: nat)
    ensures Count(Without(ws, j), i) == if i == j then 0 else Count(ws, i)
  {
    if ws != [] {
      WithoutCount(ws[1..], j, i);
      if !OfJoin(ws[0], j) {
        assert ([ws[0]] + Without(ws[1..], j))[1..] == Without(ws[1..], j);
      }
    }
  }

  lemma {:induction false} WithoutClean(ws: seq<Waiter>, j: nat)
    requires NoClash(ws)
    ensures NoClash(Without(ws, j))
  {
    if ws != [] {
      WithoutClean(ws[1..], j);
      WithoutMembers(ws[1..], j);
      if !OfJoin(ws[0], j) {
        assert ([ws[0]] + Without(ws[1..], j))[1..] == Without(ws[1..], j);
      }
    }
  }

  lemma {:induction false} WithoutNone(ws: seq<Waiter>, j: nat)
    requires forall w :: w in ws ==> !OfJoin(w, j)
    ensures Without(ws, j) == ws
  {
    if ws != [] {
      WithoutNone(ws[1..], j);
    }
  }

  lemma {:induction false} CountPositive(ws: seq<Waiter>, j: nat)
    ensures Count(ws, j) > 0 <==> exists w :: w in ws && OfJoin(w, j)
  {
    if ws != [] {
      CountPositive(ws[1..], j);
      assert ws == [ws[0]] + ws[1..];
    }
  }

  lemma {:induction false} SharedCell(ws: seq<Waiter>, v: Waiter, w: Waiter)
    requires NoClash(ws) && v in ws && w in ws && v.cell.Some? && v.cell == w.cell
    ensures v == w
  {
    assert ws == [ws[0]] + ws[1..];
    if v != ws[0] && w != ws[0] {
      SharedCell(ws[1..], v, w);
    }
  }

  predicate Has(waiters: map<Key, seq<Waiter>>, key: Key, w: Waiter) { key in waiters && w in waiters[key] }

  /** `after` is `before` without the registrations of `j`, except in the list of `busy`. */
  ghost predicate Withdrawn(before: map<Key, seq<Waiter>>, after: map<Key, seq<Waiter>>, j: nat, busy: Key) {
    && RegsAt(after, busy) == RegsAt(before, busy) && (busy in after <==> busy in before)
    && (forall k :: k != busy ==> RegsAt(after, k) == Without(RegsAt(before, k), j))
    && (forall k :: k in after && k != busy ==> after[k] != [])
    && (forall k :: k in after ==> k in before)
    && (forall k :: k in before && k !in after ==> RegsAt(after, k) == [])
  }

  lemma WithdrawalHolds(waiters: map<Key, seq<Waiter>>, joins: map<nat, Join>, n: nat, j: nat, key: Key,
                        rest: seq<Waiter>)
    requires key !in waiters && j in joins
    requires RegsKnown(Listed(waiters, key, rest), joins, Some(key), n)
    requires ListsClean(Listed(waiters, key, rest))
    ensures key !in WithdrawRegs(waiters, j, joins[j].pendingKeys)
    ensures Withdrawn(Listed(waiters, key, rest), Listed(WithdrawRegs(waiters, j, joins[j].pendingKeys), key, rest),
              j, key)
  {
    var pending := joins[j].pendingKeys;
    var before := Listed(waiters, key, rest);
    var kept := WithdrawRegs(waiters, j, pending);
    forall k | k in waiters ensures k in kept || Without(waiters[k], j) == []
      ensures k in kept ==> kept[k] == Without(waiters[k], j) && kept[k] != []
    {
      assert before[k] == waiters[k];
      if k !in pending {
        WithoutNone(waiters[k], j);
      }
    }
  }

  lemma WithdrawMembers(before: map<Key, seq<Waiter>>, after: map<Key, seq<Waiter>>, j: nat, busy: Key)
    requires Withdrawn(before, after, j, busy)
    ensures forall k, w :: Has(after, k, w) <==> Has(before, k, w) && (k == busy || !OfJoin(w, j))
  {
    forall k, w ensures Has(after, k, w) <==> Has(before, k, w) && (k == busy || !OfJoin(w, j)) {
      WithoutMembers(RegsAt(before, k), j);
      assert Has(before, k, w) <==> w in RegsAt(before, k);
      assert Has(after, k, w) <==> w in RegsAt(after, k);
    }
  }

  lemma WithdrawClean(before: map<Key, seq<Waiter>>, after: map<Key, seq<Waiter>>, j: nat, busy: Key)
    requires Withdrawn(before, after, j, busy) && ListsClean(before)
    ensures ListsClean(after)
  {
    forall k | k in after ensures after[k] != [] && NoClash(after[k]) {
      if k != busy {
        WithoutClean(before[k], j);
        assert after[k] == RegsAt(after, k) && before[k] == RegsAt(before, k);
      } else {
        assert after[k] == RegsAt(after, k) == RegsAt(before, k) == before[k];
      }
    }
  }

  lemma WithdrawWaits(before: map<Key, seq<Waiter>>, after: map<Key, seq<Waiter>>, j: nat, busy: Key, spot: Spots)
    requires Withdrawn(before, after, j, busy) && WaitsPlaced(before, spot)
    ensures WaitsPlaced(after, spot)
  {
    WithdrawMembers(before, after, j, busy);
    forall k: Key, w: Waiter | k in after && w in after[k] ensures k in before && w in before[k] {
      assert Has(after, k, w);
      assert Has(before, k, w);
    }
    forall o | o in spot && spot[o].AtWait? ensures WaitingIn(after, o, spot[o].key, spot[o].cont) {
      assert WaitingIn(before, o, spot[o].key, spot[o].cont);
      var w: Waiter :| w in before[spot[o].key] && w.Direct? && w.owner == o && w.cont == spot[o].cont;
      assert Has(before, spot[o].key, w);
      assert Has(after, spot[o].key, w);
    }
  }

  lemma WithdrawKeys(before: map<Key, seq<Waiter>>, after: map<Key, seq<Waiter>>, j: nat, busy: Key,
                     meta: map<Key, Meta>)
    requires Withdrawn(before, after, j, busy) && KeysPending(before, meta, Some(busy))
    ensures KeysPending(after, meta, Some(busy))
  {
  }

  lemma WithdrawRegsKnown(before: map<Key, seq<Waiter>>, after: map<Key, seq<Waiter>>, j: nat, busy: Key,
                          joins: map<nat, Join>, g: Join, n: nat)
    requires Withdrawn(before, after, j, busy) && RegsKnown(before, joins, Some(busy), n)
    requires j in joins && g == joins[j].(resolved := true)
    ensures RegsKnown(after, joins[j := g], Some(busy), n)
  {
    WithdrawMembers(before, after, j, busy);
    var joins' := joins[j := g];
    forall k: Key, w: Waiter | k in after && w in after[k] && w.Joined?
      ensures w.join in joins' && joins'[w.join].owner == w.owner && k in joins'[w.join].pendingKeys
      ensures joins'[w.join].resolved ==> busy == k
    {
      assert Has(after, k, w);
      assert Has(before, k, w);
      assert w in before[k];
    }
  }

  lemma WithdrawCounts(before: map<Key, seq<Waiter>>, after: map<Key, seq<Waiter>>, j: nat, busy: Key,
                       joins: map<nat, Join>, g: Join, meta: map<Key, Meta>)
    requires Withdrawn(before, after, j, busy) && JoinsCounted(before, joins - {j}, meta, Some(busy))
    requires busy in meta && Terminal(meta[busy].status)
    requires g.resolved
    ensures JoinsCounted(after, joins[j := g], meta, Some(busy))
  {
    var joins' := joins[j := g];
    forall i | i in joins' && !joins'[i].resolved ensures Counted(after, i, joins'[i], meta, Some(busy)) {
      assert i in joins - {j} && joins'[i] == (joins - {j})[i];
      assert Counted(before, i, joins'[i], meta, Some(busy));
      forall k ensures Count(RegsAt(after, k), i) == Count(RegsAt(before, k), i) {
        if k != busy {
          WithoutCount(RegsAt(before, k), j, i);
        }
      }
    }
  }

  /** Cell `c` belongs to a registration of `j` that is withdrawn. */
  ghost predicate DropsCell(before: map<Key, seq<Waiter>>, j: nat, busy: Key, c: nat) {
    exists k, w :: Has(before, k, w) && k != busy && OfJoin(w, j) && w.cell == Some(c)
  }

  lemma WithdrawUnclaimed(before: map<Key, seq<Waiter>>, after: map<Key, seq<Waiter>>, j: nat, busy: Key,
                          claimed: set<nat>, n: nat, meta: map<Key, Meta>, cellKey: map<nat, Key>, dropped: set<nat>)
    requires Withdrawn(before, after, j, busy) && ListsClean(before)
    requires CellsUnclaimed(before, claimed, meta, cellKey, n)
    requires forall c :: c in dropped <==> DropsCell(before, j, busy, c)
    ensures CellsUnclaimed(after, claimed + dropped, meta, cellKey, n)
  {
    WithdrawMembers(before, after, j, busy);
    forall k: Key, w: Waiter | k in after && w in after[k]
      ensures k in before && w in before[k] && (w.cell.Some? ==> w.cell.value !in dropped)
    {
      assert Has(after, k, w);
      assert Has(before, k, w);
      if w.cell.Some? && w.cell.value in dropped {
        var k2: Key, v: Waiter :| Has(before, k2, v) && k2 != busy && OfJoin(v, j) && v.cell == Some(w.cell.value);
        assert v in before[k2];
        assert k == cellKey[w.cell.value] == k2;
        SharedCell(before[k], v, w);
      }
    }
    forall c | c in dropped ensures c < n {
      var k: Key, w: Waiter :| Has(before, k, w) && k != busy && OfJoin(w, j) && w.cell == Some(c);
      assert w in before[k];
    }
  }

  lemma WithdrawPaired(before: map<Key, seq<Waiter>>, after: map<Key, seq<Waiter>>, j: nat, busy: Key,
                       claimed: set<nat>, n: nat, items: set<Item>, dropped: set<nat>)
    requires Withdrawn(before, after, j, busy)
    requires PlaceholdersPaired(items, before, claimed, n)
    requires forall c :: c in dropped <==> DropsCell(before, j, busy, c)
    ensures PlaceholdersPaired(items, after, claimed + dropped, n)
  {
    WithdrawMembers(before, after, j, busy);
    forall x | x in items && x.entry.Placeholder? && x.entry.cell !in claimed + dropped
      ensures Registered(after, x.entry.owner, x.entry.key, x.entry.cell)
    {
      var k := x.entry.key;
      assert Registered(before, x.entry.owner, k, x.entry.cell);
      var w: Waiter :| w in before[k] && w.owner == x.entry.owner && w.cell == Some(x.entry.cell);
      assert Has(before, k, w);
      assert Has(after, k, w);
    }
  }

  // ---- One registration is woken -------------------------------------------

  lemma {:induction false} NothingOutstanding(meta: map<Key, Meta>, keys: seq<Key>)
    requires Outstanding(meta, keys) == 0
    ensures forall key :: key in keys ==> Terminal(StatusOf(meta, key))
  {
    if keys != [] {
      NothingOutstanding(meta, keys[1..]);
      assert keys == [keys[0]] + keys[1..];
    }
  }

  lemma {:induction false} OccurrencesPositive(keys: seq<Key>, key: Key)
    ensures Occurrences(keys, key) > 0 <==> key in keys
  {
    if keys != [] {
      OccurrencesPositive(keys[1..], key);
      assert keys == [keys[0]] + keys[1..];
    }
  }

  lemma PopSound(b: Board, items: set<Item>, meta: map<Key, Meta>, spot: Spots, cellKey: map<nat, Key>,
                 key: Key, w: Waiter, rest: seq<Waiter>)
    requires key !in b.waiters && w.Joined?
    requires BoardSound(OnBoard(b, key, [w] + rest), items, meta, spot, cellKey, Some(key))
    ensures BoardPlaced(OnBoard(Claim(b, w.cell), key, rest), items, meta, spot, cellKey, Some(key))
    ensures JoinsCounted(Listed(b.waiters, key, rest), b.joins - {w.join}, meta, Some(key))
  {
    PopLists(b.waiters, key, w, rest);
    PopKeys(b.waiters, meta, key, w, rest);
    PopRegs(b.waiters, b.joins, b.nextObj, key, w, rest);
    PopWaits(b.waiters, spot, key, w, rest, Unstarted(0));
    PopCells(b, items, meta, cellKey, key, w, rest);
    assert Claim(b, w.cell).claimed == b.claimed + CellSet(w.cell);
    PopJoinsCounted(b.waiters, b.joins, meta, key, w, rest);
  }

  lemma PopJoinsCounted(waiters: map<Key, seq<Waiter>>, joins: map<nat, Join>, meta: map<Key, Meta>, key: Key,
                        w: Waiter,
                        rest: seq<Waiter>)
    requires key !in waiters && JoinsCounted(waiters[key := [w] + rest], joins, meta, Some(key))
    requires key in meta && Terminal(meta[key].status)
    ensures w.Joined? ==> JoinsCounted(Listed(waiters, key, rest), joins - {w.join}, meta, Some(key))
    ensures w.Direct? ==> JoinsCounted(Listed(waiters, key, rest), joins, meta, Some(key))
  {
    forall j | j in joins && !joins[j].resolved && !OfJoin(w, j)
      ensures Counted(Listed(waiters, key, rest), j, joins[j], meta, Some(key))
    {
      PopCounts(waiters, joins, meta, key, w, rest, j);
    }
  }

  lemma DirectSound(b: Board, held: set<Item>, meta: map<Key, Meta>, spot: Spots, cellKey: map<nat, Key>,
                    key: Key, w: Waiter, rest: seq<Waiter>)
    requires key !in b.waiters && w.Direct?
    requires BoardSound(OnBoard(b, key, [w] + rest), b.ready + held, meta, spot, cellKey, Some(key))
    ensures var b' := WakeOne(meta, b, key, w).0; var spot' := spot[w.owner := AtReady(b.nextSeq, w.cont)];
            key !in b'.waiters && Moved(spot, spot')
            && BoardSound(OnBoard(b', key, rest), b'.ready + held, meta, spot', cellKey, Some(key))
  {
    var b' := WakeOne(meta, b, key, w).0;
    var x := Item(if w.wake.Some? then w.wake.value else TaskPriority(meta, w.owner), b.nextSeq,
                  Delivery(StatusOf(meta, key), ResultOf(meta, key), w.owner, w.cont));
    DirectPlaced(b, held, spot, key, w, rest, x);
    DirectRegs(b, b.ready + held, meta, cellKey, key, w, rest);
    assert b'.ready == b.ready + {x};
    assert b'.claimed == b.claimed + CellSet(w.cell);
  }

  lemma DirectPlaced(b: Board, held: set<Item>, spot: Spots, key: Key, w: Waiter, rest: seq<Waiter>, x: Item)
    requires key !in b.waiters && w.Direct?
    requires ItemsPlaced(b.ready + held, spot) && OrdersDistinct(b.ready + held, b.nextSeq)
    requires WaitsPlaced(b.waiters[key := [w] + rest], spot) && ListsClean(b.waiters[key := [w] + rest])
    requires JoinsPlaced(b.joins, spot)
    requires x.order == b.nextSeq && (x.entry.Resume? || x.entry.Raise?) && x.entry.owner == w.owner
             && x.entry.cont == w.cont
    ensures var spot' := spot[w.owner := AtReady(b.nextSeq, w.cont)];
            && Moved(spot, spot')
            && ItemsPlaced(b.ready + {x} + held, spot') && OrdersDistinct(b.ready + {x} + held, b.nextSeq + 1)
            && WaitsPlaced(Listed(b.waiters, key, rest), spot') && JoinsPlaced(b.joins, spot')
            && (forall n, ws, cl :: PlaceholdersPaired(b.ready + held, ws, cl, n) ==>
                 PlaceholdersPaired(b.ready + {x} + held, ws, cl, n))
  {
    assert w in b.waiters[key := [w] + rest][key];
    assert b.ready + {x} + held == (b.ready + held) + {x};
    PlaceItem(b.ready + held, b.nextSeq, spot, x);
    PopWaits(b.waiters, spot, key, w, rest, SpotOf(x));
    MoveKeepsJoins(b.joins, spot, w.owner, SpotOf(x));
  }

  lemma DirectRegs(b: Board, items: set<Item>, meta: map<Key, Meta>, cellKey: map<nat, Key>, key: Key, w: Waiter,
                   rest: seq<Waiter>)
    requires key !in b.waiters && w.Direct?
    requires ListsClean(b.waiters[key := [w] + rest]) && KeysPending(b.waiters[key := [w] + rest], meta, Some(key))
    requires RegsKnown(b.waiters[key := [w] + rest], b.joins, Some(key), b.nextObj)
    requires JoinsCounted(b.waiters[key := [w] + rest], b.joins, meta, Some(key))
    requires CellsUnclaimed(b.waiters[key := [w] + rest], b.claimed, meta, cellKey, b.nextObj)
    requires PlaceholdersPaired(items, b.waiters[key := [w] + rest], b.claimed, b.nextObj)
    ensures var left := Listed(b.waiters, key, rest); var claimed := b.claimed + CellSet(w.cell);
            && ListsClean(left) && KeysPending(left, meta, Some(key)) && RegsKnown(left, b.joins, Some(key), b.nextObj)
            && JoinsCounted(left, b.joins, meta, Some(key))
            && CellsUnclaimed(left, claimed, meta, cellKey, b.nextObj)
               && PlaceholdersPaired(items, left, claimed, b.nextObj)
  {
    PopLists(b.waiters, key, w, rest);
    PopKeys(b.waiters, meta, key, w, rest);
    PopRegs(b.waiters, b.joins, b.nextObj, key, w, rest);
    PopCells(b, items, meta, cellKey, key, w, rest);
    PopJoinsCounted(b.waiters, b.joins, meta, key, w, rest);
  }

  lemma SettledJoins(joins: map<nat, Join>, spot: Spots, j: nat, g: Join, sp: Spot)
    requires JoinsPlaced(joins, spot) && j in joins && !joins[j].resolved
    requires g.resolved && g.owner == joins[j].owner && !sp.AtJoin?
    ensures JoinsPlaced(joins[j := g], spot[g.owner := sp])
  {
  }

  lemma SettledCounts(waiters: map<Key, seq<Waiter>>, joins: map<nat, Join>, meta: map<Key, Meta>, busy: Option<Key>,
                      j: nat, g: Join)
    requires JoinsCounted(waiters, joins - {j}, meta, busy) && g.resolved
    ensures JoinsCounted(waiters, joins[j := g], meta, busy)
  {
    var joins' := joins[j := g];
    forall i | i in joins' && !joins'[i].resolved ensures Counted(waiters, i, joins'[i], meta, busy) {
      assert i in joins - {j};
    }
  }

  lemma CountedDown(waiters: map<Key, seq<Waiter>>, joins: map<nat, Join>, meta: map<Key, Meta>, key: Key, w: Waiter,
                    rest: seq<Waiter>)
    requires key !in waiters && w.Joined? && w.join in joins && !joins[w.join].resolved
    requires key in meta && Terminal(meta[key].status)
    requires JoinsCounted(waiters[key := [w] + rest], joins, meta, Some(key))
    requires !ClosesEarly(meta, joins[w.join], key) && joins[w.join].remaining != 1
    ensures JoinsCounted(Listed(waiters, key, rest),
                         joins[w.join := joins[w.join].(remaining := joins[w.join].remaining - 1)], meta, Some(key))
  {
    var j := w.join;
    var g := joins[j];
    var all := waiters[key := [w] + rest];
    var left := Listed(waiters, key, rest);
    var joins' := joins[j := g.(remaining := g.remaining - 1)];
    PopJoinsCounted(waiters, joins, meta, key, w, rest);
    assert Counted(all, j, g, meta, Some(key));
    assert ([w] + rest)[1..] == rest;
    assert RegsAt(left, key) == rest && RegsAt(all, key) == [w] + rest;
    forall k | k != key ensures RegsAt(left, k) == RegsAt(all, k) {}
    assert Counted(left, j, joins'[j], meta, Some(key));
    forall i | i in joins' && !joins'[i].resolved ensures Counted(left, i, joins'[i], meta, Some(key)) {
      assert i != j ==> i in joins - {j};
    }
  }

  lemma CountDownSound(b: Board, items: set<Item>, meta: map<Key, Meta>, spot: Spots, cellKey: map<nat, Key>,
                       key: Key, w: Waiter, rest: seq<Waiter>)
    requires key !in b.waiters && w.Joined? && w.join in b.joins && !b.joins[w.join].resolved
    requires BoardSound(OnBoard(b, key, [w] + rest), items, meta, spot, cellKey, Some(key))
    requires !ClosesEarly(meta, b.joins[w.join], key) && b.joins[w.join].remaining != 1
    ensures BoardSound(OnBoard(CountDown(Claim(b, w.cell), w.join), key, rest), items, meta, spot, cellKey, Some(key))
  {
    var j := w.join;
    var g := b.joins[j].(remaining := b.joins[j].remaining - 1);
    var b1 := OnBoard(Claim(b, w.cell), key, rest);
    PopSound(b, items, meta, spot, cellKey, key, w, rest);
    CountedDown(b.waiters, b.joins, meta, key, w, rest);
    SameJoin(b1, items, meta, spot, cellKey, Some(key), j, g);
    assert OnBoard(CountDown(Claim(b, w.cell), j), key, rest) == b1.(joins := b1.joins[j := g]);
  }

  lemma SameJoin(b: Board, items: set<Item>, meta: map<Key, Meta>, spot: Spots, cellKey: map<nat, Key>,
                 busy: Option<Key>, j: nat, g: Join)
    requires j in b.joins && g == b.joins[j].(remaining := g.remaining)
    requires BoardPlaced(b, items, meta, spot, cellKey, busy)
    ensures BoardPlaced(b.(joins := b.joins[j := g]), items, meta, spot, cellKey, busy)
  {
  }

  /** Where the last registration of a gather is woken there is no other one. */
  lemma LastRegistration(b: Board, meta: map<Key, Meta>, key: Key, w: Waiter, rest: seq<Waiter>)
    requires key !in b.waiters && w.Joined? && w.join in b.joins && !b.joins[w.join].resolved
    requires KeysPending(b.waiters[key := [w] + rest], meta, Some(key))
    requires Counted(b.waiters[key := [w] + rest], w.join, b.joins[w.join], meta, Some(key))
    requires b.joins[w.join].kind.GatherJoin? && b.joins[w.join].remaining == 1
    ensures forall k, v :: Has(Listed(b.waiters, key, rest), k, v) ==> !OfJoin(v, w.join)
    ensures forall k :: k in b.joins[w.join].keys ==> k in meta && (k == key || meta[k].status.Completed?)
  {
    var g := b.joins[w.join];
    var all := b.waiters[key := [w] + rest];
    assert ([w] + rest)[1..] == rest;
    assert Count(RegsAt(all, key), w.join) == 1 + Count(rest, w.join);
    NothingOutstanding(meta, g.keys);
    forall k, v | Has(Listed(b.waiters, key, rest), k, v) ensures !OfJoin(v, w.join) {
      CountPositive(rest, w.join);
      if k != key {
        assert k in all && all[k] == RegsAt(all, k);
        OccurrencesPositive(g.keys, k);
        CountPositive(all[k], w.join);
      }
    }
  }

  lemma FinishedRegs(waiters: map<Key, seq<Waiter>>, joins: map<nat, Join>, busy: Option<Key>, n: nat, j: nat, g: Join)
    requires RegsKnown(waiters, joins, busy, n)
    requires forall k, v :: Has(waiters, k, v) ==> !OfJoin(v, j)
    requires j in joins
    ensures RegsKnown(waiters, joins[j := g], busy, n)
  {
    var joins' := joins[j := g];
    forall k: Key, v: Waiter | k in waiters && v in waiters[k] && v.Joined?
      ensures v.join in joins' && joins'[v.join].owner == v.owner && k in joins'[v.join].pendingKeys
      ensures joins'[v.join].resolved ==> busy == Some(k)
    {
      assert Has(waiters, k, v);
    }
  }

  lemma FinishSound(b: Board, held: set<Item>, meta: map<Key, Meta>, spot: Spots, cellKey: map<nat, Key>,
                    key: Key, w: Waiter, rest: seq<Waiter>)
    requires key !in b.waiters && w.Joined? && w.join in b.joins && !b.joins[w.join].resolved
    requires BoardSound(OnBoard(b, key, [w] + rest), b.ready + held, meta, spot, cellKey, Some(key))
    requires !ClosesEarly(meta, b.joins[w.join], key) && b.joins[w.join].remaining == 1
    ensures var b' := FinishGather(meta, Claim(b, w.cell), w.join);
            var spot' := spot[b.joins[w.join].owner := AtReady(b.nextSeq, b.joins[w.join].cont)];
            Moved(spot, spot') && BoardSound(OnBoard(b', key, rest), b'.ready + held, meta, spot', cellKey, Some(key))
  {
    var j := w.join;
    var g := b.joins[j];
    var left := Listed(b.waiters, key, rest);
    var b' := FinishGather(meta, Claim(b, w.cell), j);
    PopSound(b, b.ready + held, meta, spot, cellKey, key, w, rest);
    LastRegistration(b, meta, key, w, rest);
    FinishedRegs(left, b.joins, Some(key), b.nextObj, j, b'.joins[j]);
    SettledCounts(left, b.joins, meta, Some(key), j, b'.joins[j]);
    QueueOwner(Claim(b, w.cell), held, left, b.joins, spot, j, b'.joins[j],
               Item(TaskPriority(meta, g.owner), b.nextSeq, Resume(g.owner, g.cont, Many(Results(meta, g.keys)))), b');
  }

  /** The owner of a join that settles moves to the heap. */
  lemma QueueOwner(b: Board, held: set<Item>, waiters: map<Key, seq<Waiter>>, joins: map<nat, Join>, spot: Spots,
                   j: nat, g: Join, x: Item, b': Board)
    requires j in joins && !joins[j].resolved && g.resolved && g.owner == joins[j].owner
    requires ItemsPlaced(b.ready + held, spot) && OrdersDistinct(b.ready + held, b.nextSeq)
    requires WaitsPlaced(waiters, spot) && JoinsPlaced(joins, spot)
    requires x.order == b.nextSeq && (x.entry.Resume? || x.entry.Raise?)
    requires x.entry.owner == g.owner && x.entry.cont == joins[j].cont
    requires b'.ready == b.ready + {x} && b'.nextSeq == b.nextSeq + 1
    ensures var spot' := spot[g.owner := SpotOf(x)];
            && Moved(spot, spot')
            && ItemsPlaced(b'.ready + held, spot') && OrdersDistinct(b'.ready + held, b'.nextSeq)
            && WaitsPlaced(waiters, spot') && JoinsPlaced(joins[j := g], spot')
            && (forall n, cells, cl :: PlaceholdersPaired(b.ready + held, cells, cl, n) ==>
                 PlaceholdersPaired(b'.ready + held, cells, cl, n))
  {
    assert b'.ready + held == (b.ready + held) + {x};
    PlaceItem(b.ready + held, b.nextSeq, spot, x);
    MoveKeepsWaits(waiters, spot, g.owner, SpotOf(x));
    SettledJoins(joins, spot, j, g, SpotOf(x));
  }

  lemma CloseSound(b: Board, held: set<Item>, meta: map<Key, Meta>, spot: Spots, cellKey: map<nat, Key>,
                   key: Key, w: Waiter, rest: seq<Waiter>)
    requires key !in b.waiters && w.Joined? && w.join in b.joins && !b.joins[w.join].resolved
    requires BoardSound(OnBoard(b, key, [w] + rest), b.ready + held, meta, spot, cellKey, Some(key))
    ensures var b' := CloseJoin(meta, Claim(b, w.cell), w.join, key);
            var spot' := spot[b.joins[w.join].owner := AtReady(b.nextSeq, b.joins[w.join].cont)];
            key !in b'.waiters && Moved(spot, spot')
            && BoardSound(OnBoard(b', key, rest), b'.ready + held, meta, spot', cellKey, Some(key))
  {
    var j := w.join;
    var g := b.joins[j];
    var b1 := Claim(b, w.cell);
    var b' := CloseJoin(meta, b1, j, key);
    var after := Listed(WithdrawRegs(b.waiters, j, g.pendingKeys), key, rest);
    PopSound(b, b.ready + held, meta, spot, cellKey, key, w, rest);
    WithdrawSound(b1, b.ready + held, meta, spot, cellKey, key, rest, j, b'.joins[j]);
    QueueOwner(b1, held, after, b.joins, spot, j, b'.joins[j],
               Item(TaskPriority(meta, g.owner), b.nextSeq,
                    Delivery(StatusOf(meta, key), ResultOf(meta, key), g.owner, g.cont)), b');
  }

  lemma WithdrawSound(b: Board, items: set<Item>, meta: map<Key, Meta>, spot: Spots, cellKey: map<nat, Key>,
                      key: Key, rest: seq<Waiter>, j: nat, g: Join)
    requires key !in b.waiters && j in b.joins && g == b.joins[j].(resolved := true)
    requires BoardPlaced(OnBoard(b, key, rest), items, meta, spot, cellKey, Some(key))
    requires JoinsCounted(Listed(b.waiters, key, rest), b.joins - {j}, meta, Some(key))
    ensures var after := Listed(WithdrawRegs(b.waiters, j, g.pendingKeys), key, rest);
            var claimed := b.claimed + CellsOf(b.waiters, j, g.pendingKeys);
            && key !in WithdrawRegs(b.waiters, j, g.pendingKeys)
            && ListsClean(after) && WaitsPlaced(after, spot) && KeysPending(after, meta, Some(key))
            && RegsKnown(after, b.joins[j := g], Some(key), b.nextObj)
            && JoinsCounted(after, b.joins[j := g], meta, Some(key))
            && CellsUnclaimed(after, claimed, meta, cellKey, b.nextObj)
            && PlaceholdersPaired(items, after, claimed, b.nextObj)
  {
    var before := Listed(b.waiters, key, rest);
    var after := Listed(WithdrawRegs(b.waiters, j, g.pendingKeys), key, rest);
    WithdrawalHolds(b.waiters, b.joins, b.nextObj, j, key, rest);
    WithdrawClean(before, after, j, key);
    WithdrawWaits(before, after, j, key, spot);
    WithdrawKeys(before, after, j, key, meta);
    WithdrawRegsKnown(before, after, j, key, b.joins, g, b.nextObj);
    WithdrawCounts(before, after, j, key, b.joins, g, meta);
    DroppedCells(b, j, key, rest);
    var dropped := CellsOf(b.waiters, j, g.pendingKeys);
    WithdrawUnclaimed(before, after, j, key, b.claimed, b.nextObj, meta, cellKey, dropped);
    WithdrawPaired(before, after, j, key, b.claimed, b.nextObj, items, dropped);
  }

  lemma DroppedCells(b: Board, j: nat, key: Key, rest: seq<Waiter>)
    requires key !in b.waiters && j in b.joins
    requires RegsKnown(Listed(b.waiters, key, rest), b.joins, Some(key), b.nextObj)
    ensures forall c :: c in CellsOf(b.waiters, j, b.joins[j].pendingKeys) <==>
              DropsCell(Listed(b.waiters, key, rest), j, key, c)
  {
    var before := Listed(b.waiters, key, rest);
    var pending := b.joins[j].pendingKeys;
    var cells := CellsOf(b.waiters, j, pending);
    forall c | c in cells ensures DropsCell(before, j, key, c) {
      var k: Key, v: Waiter :| k in b.waiters && k in pending && v in b.waiters[k] && OfJoin(v, j) && v.cell.Some?
          && v.cell.value == c;
      assert Has(before, k, v);
    }
    forall c: nat | DropsCell(before, j, key, c) ensures c in cells {
      var k: Key, v: Waiter :| Has(before, k, v) && k != key && OfJoin(v, j) && v.cell == Some(c);
      assert k in b.waiters && v in b.waiters[k] && v in before[k];
    }
  }

  lemma SkipSound(b: Board, items: set<Item>, meta: map<Key, Meta>, spot: Spots, cellKey: map<nat, Key>,
                  key: Key, w: Waiter, rest: seq<Waiter>)
    requires key !in b.waiters && w.Joined? && w.join in b.joins && b.joins[w.join].resolved
    requires BoardSound(OnBoard(b, key, [w] + rest), items, meta, spot, cellKey, Some(key))
    ensures BoardSound(OnBoard(Claim(b, w.cell), key, rest), items, meta, spot, cellKey, Some(key))
  {
    PopSound(b, items, meta, spot, cellKey, key, w, rest);
    SettledCounts(Listed(b.waiters, key, rest), b.joins, meta, Some(key), w.join, b.joins[w.join]);
    assert b.joins[w.join := b.joins[w.join]] == b.joins;
  }

  lemma WakeJoinedSound(b: Board, held: set<Item>, meta: map<Key, Meta>, spot: Spots, cellKey: map<nat, Key>,
                        key: Key, w: Waiter, rest: seq<Waiter>)
    returns (spot': Spots)
    requires key !in b.waiters && w.Joined? && w.join in b.joins
    requires BoardSound(OnBoard(b, key, [w] + rest), b.ready + held, meta, spot, cellKey, Some(key))
    ensures var b' := WakeOne(meta, b, key, w).0;
            key !in b'.waiters && Moved(spot, spot')
            && BoardSound(OnBoard(b', key, rest), b'.ready + held, meta, spot', cellKey, Some(key))
  {
    spot' := spot;
    var g := b.joins[w.join];
    if g.resolved {
      SkipSound(b, b.ready + held, meta, spot, cellKey, key, w, rest);
    } else if ClosesEarly(meta, g, key) {
      CloseSound(b, held, meta, spot, cellKey, key, w, rest);
      spot' := spot[g.owner := AtReady(b.nextSeq, g.cont)];
    } else if g.remaining == 1 {
      FinishSound(b, held, meta, spot, cellKey, key, w, rest);
      spot' := spot[g.owner := AtReady(b.nextSeq, g.cont)];
    } else {
      CountDownSound(b, b.ready + held, meta, spot, cellKey, key, w, rest);
    }
  }

  lemma WakeOneSound(b: Board, held: set<Item>, meta: map<Key, Meta>, spot: Spots, cellKey: map<nat, Key>,
                     key: Key, w: Waiter, rest: seq<Waiter>)
    returns (spot': Spots)
    requires key !in b.waiters
    requires BoardSound(OnBoard(b, key, [w] + rest), b.ready + held, meta, spot, cellKey, Some(key))
    ensures var b' := WakeOne(meta, b, key, w).0;
            key !in b'.waiters && Moved(spot, spot')
            && BoardSound(OnBoard(b', key, rest), b'.ready + held, meta, spot', cellKey, Some(key))
  {
    if w.Direct? {
      DirectSound(b, held, meta, spot, cellKey, key, w, rest);
      spot' := spot[w.owner := AtReady(b.nextSeq, w.cont)];
    } else {
      assert w in b.waiters[key := [w] + rest][key];
      spot' := WakeJoinedSound(b, held, meta, spot, cellKey, key, w, rest);
    }
  }

  // ---- The whole wake ------------------------------------------------------

  lemma MovedTransitive(a: Spots, b: Spots, c: Spots)
    requires Moved(a, b) && Moved(b, c)
    ensures Moved(a, c)
  {
  }

  lemma {:induction false} WakeAllSound(b: Board, held: set<Item>, meta: map<Key, Meta>, spot: Spots,
                                        cellKey: map<nat, Key>,
                                        key: Key, ws: seq<Waiter>)
    returns (spot': Spots)
    requires key !in b.waiters
    requires BoardSound(OnBoard(b, key, ws), b.ready + held, meta, spot, cellKey, Some(key))
    ensures var b' := WakeAll(meta, b, key, ws).0;
            Moved(spot, spot') && BoardSound(b', b'.ready + held, meta, spot', cellKey, None)
    decreases |ws|
  {
    if ws == [] {
      spot' := spot;
      assert RegsAt(b.waiters, key) == [];
    } else {
      var b1 := WakeOne(meta, b, key, ws[0]).0;
      assert ws == [ws[0]] + ws[1..];
      var spot1 := WakeOneSound(b, held, meta, spot, cellKey, key, ws[0], ws[1..]);
      spot' := WakeAllSound(b1, held, meta, spot1, cellKey, key, ws[1..]);
      MovedTransitive(spot, spot1, spot');
    }
  }
}
