/** Every step of every transaction keeps the concurrency invariant. */
module ConcurrentSteps {
  import opened Inventory
  import opened InventoryLaws
  import opened StockLaws
  import opened Concurrent
  import opened ConcurrentInv

  // ---------------------------------------------------------------- commits spare the others

  lemma ReserveCommitSpares(db: Db, locks: map<Lock, int>, t: int, u: int,
                            ref: string, key: string, items: seq<Item>)
    requires u != t && HoldsLines(db, locks, t, items, |items|)
    ensures Spares(db, ReserveBody(db, ref, key, items).0, locks, u)
  {
    BodyEffect(db, ref, key, items);
    var (db', out) := ReserveBody(db, ref, key, items);
    if out.success {
      var news := RowsFor(ref, key, items);
      forall p | p in db.stock && Holds(locks, ProductLock(p), u)
        ensures db'.stock[p] == db.stock[p] && forall k :: Clash(db'.rows, k, p) == Clash(db.rows, k, p)
      {
        forall x | x in items
          ensures x.product != p
        {
          var j :| 0 <= j < |items| && items[j] == x;
          assert Locks(db, items[j]);
        }
        TotalZero(items, Asked(p));
        forall k
          ensures Clash(db'.rows, k, p) == Clash(db.rows, k, p)
        {
          ClashSplit(db.rows, news, k, p);
        }
      }
    }
  }

  lemma {:induction false} StillHeldFrom(rows: seq<Row>, snap: seq<nat>, n: nat)
    requires n <= |snap| && ValidIds(rows, snap)
    ensures forall id | id in StillHeld(rows, snap, n) ::
              rows[id].status == RESERVED && exists k | 0 <= k < n :: snap[k] == id
  {
    if n > 0 {
      StillHeldFrom(rows, snap, n - 1);
    }
  }

  lemma {:induction false} StillHeldKeeps(rows: seq<Row>, snap: seq<nat>, n: nat)
    requires n <= |snap| && ValidIds(rows, snap)
    ensures forall k | 0 <= k < n && rows[snap[k]].status == RESERVED :: snap[k] in StillHeld(rows, snap, n)
  {
    if n > 0 {
      StillHeldKeeps(rows, snap, n - 1);
    }
  }

  lemma KeptBefore(rows: seq<Row>, snap: seq<nat>, n: nat, kept: seq<nat>)
    requires n < |snap| && ValidIds(rows, snap) && IdsSorted(rows, snap) && ValidIds(rows, kept)
    requires forall id | id in kept :: exists k | 0 <= k < n :: snap[k] == id
    ensures forall i | 0 <= i < |kept| :: Before(rows, kept[i], snap[n])
  {
    forall i | 0 <= i < |kept|
      ensures Before(rows, kept[i], snap[n])
    {
      assert kept[i] in kept;
      var k :| 0 <= k < n && snap[k] == kept[i];
    }
  }

  lemma {:induction false} StillHeldSorted(rows: seq<Row>, snap: seq<nat>, n: nat)
    requires n <= |snap| && ValidIds(rows, snap) && IdsSorted(rows, snap)
    ensures IdsSorted(rows, StillHeld(rows, snap, n))
  {
    if n > 0 {
      StillHeldSorted(rows, snap, n - 1);
      StillHeldFrom(rows, snap, n - 1);
      KeptBefore(rows, snap, n - 1, StillHeld(rows, snap, n - 1));
    }
  }

  /** What the re-test of the filter keeps: the selected rows still RESERVED,
      in the same order. */
  lemma {:induction false} StillHeldSpec(rows: seq<Row>, snap: seq<nat>, n: nat)
    requires n <= |snap| && ValidIds(rows, snap) && IdsSorted(rows, snap)
    ensures var kept := StillHeld(rows, snap, n);
            && IdsSorted(rows, kept)
            && (forall id | id in kept :: rows[id].status == RESERVED && exists k | 0 <= k < n :: snap[k] == id)
            && (forall k | 0 <= k < n && rows[snap[k]].status == RESERVED :: snap[k] in kept)
  {
    StillHeldFrom(rows, snap, n);
    StillHeldKeeps(rows, snap, n);
    StillHeldSorted(rows, snap, n);
  }

  lemma ClashSame(rows: seq<Row>, rows': seq<Row>, key: string, p: int)
    requires |rows'| == |rows|
    requires forall i | 0 <= i < |rows| :: rows'[i].product == rows[i].product
    requires forall i | 0 <= i < |rows| :: rows[i].product == p ==> rows'[i] == rows[i]
    ensures Clash(rows', key, p) == Clash(rows, key, p)
  {
    if Clash(rows, key, p) {
      var i :| 0 <= i < |rows| && rows[i].key == key && rows[i].product == p && rows[i].status == RESERVED;
      assert rows'[i] in rows';
    }
    if Clash(rows', key, p) {
      var i :| 0 <= i < |rows| && rows'[i].key == key && rows'[i].product == p && rows'[i].status == RESERVED;
      assert rows[i] in rows;
    }
  }

  /** Giving rows back leaves a product that none of them names alone. */
  lemma ReleaseIdsElsewhere(db: Db, ids: seq<nat>, p: int)
    requires ValidIds(db.rows, ids) && p in db.stock
    requires forall id | id in ids :: db.rows[id].product != p
    ensures ReleaseIds(db, ids).stock[p] == db.stock[p]
    ensures forall key :: Clash(ReleaseIds(db, ids).rows, key, p) == Clash(db.rows, key, p)
  {
    GiveBackSpec(db, ids, |ids|, p);
    assert ids[..|ids|] == ids;
    TotalZero(ids, At(db.rows, Quantity(p)));
    forall key { ClashSame(db.rows, ReleaseIds(db, ids).rows, key, p); }
  }

  lemma OthersProduct(db: Db, locks: map<Lock, int>, t: int, u: int, kept: seq<nat>, p: int)
    requires u != t && ValidIds(db.rows, kept) && HoldsProductsOf(db, locks, t, kept, |kept|)
    requires p in db.stock && Holds(locks, ProductLock(p), u)
    ensures forall id | id in kept :: db.rows[id].product != p
  {
    forall id | id in kept
      ensures db.rows[id].product != p
    {
      var k :| 0 <= k < |kept| && kept[k] == id;
    }
  }

  lemma OthersRow(db: Db, locks: map<Lock, int>, t: int, u: int, snap: seq<nat>, i: nat)
    requires u != t && ValidIds(db.rows, snap) && IdsSorted(db.rows, snap) && HoldsRows(db, locks, t, snap, |snap|)
    requires i < |db.rows| && Holds(locks, RowLock(db.rows[i].product, i), u)
    ensures i !in StillHeld(db.rows, snap, |snap|)
  {
    StillHeldSpec(db.rows, snap, |snap|);
  }

  lemma ReleaseCommitSpares(db: Db, locks: map<Lock, int>, t: int, u: int, snap: seq<nat>, kept: seq<nat>)
    requires u != t && ValidIds(db.rows, snap) && IdsSorted(db.rows, snap) && ValidIds(db.rows, kept)
    requires kept == StillHeld(db.rows, snap, |snap|)
    requires HoldsRows(db, locks, t, snap, |snap|) && HoldsProductsOf(db, locks, t, kept, |kept|)
    ensures Spares(db, ReleaseIds(db, kept), locks, u)
  {
    GiveBackKeys(db, kept, |kept|);
    var db' := ReleaseIds(db, kept);
    forall p | p in db.stock && Holds(locks, ProductLock(p), u)
      ensures db'.stock[p] == db.stock[p] && forall key :: Clash(db'.rows, key, p) == Clash(db.rows, key, p)
    {
      OthersProduct(db, locks, t, u, kept, p);
      ReleaseIdsElsewhere(db, kept, p);
    }
    forall i | 0 <= i < |db.rows| && Holds(locks, RowLock(db.rows[i].product, i), u)
      ensures i !in kept
    {
      OthersRow(db, locks, t, u, snap, i);
    }
  }

  // ---------------------------------------------------------------- reserve steps

  lemma AcquireKeepsHolds(s: State, t: int)
    requires Enabled(s, t)
    ensures forall l, u :: Holds(s.locks, l, u) ==> Holds(Acquire(s, t).locks, l, u)
    ensures var wish := WishOf(s.db, s.txns[t]); wish.Wants? ==> Holds(Acquire(s, t).locks, wish.lock, t)
    ensures Acquire(s, t).db == s.db && Acquire(s, t).log == s.log && Acquire(s, t).txns == s.txns
  {}

  /** The last step of a transaction body: it answers what the body run alone now would. */
  lemma BodyFinishes(db0: Db, s: State, t: int, b: Body)
    requires Inv(db0, s) && t in s.txns && s.txns[t].call.ReserveCall?
    requires var c := s.txns[t].call;
             && c.items != []
             && RunLines(s.db, c.ref, c.key, c.items, |c.items|) == b
             && (b.Clashed? || HoldsLines(s.db, s.locks, t, c.items, |c.items|))
             && CheckInv(db0, s.log, c.key, s.txns[t].checked)
    ensures var c := s.txns[t].call;
            var (db', out) := Conclude(s.db, b, c.items);
            Inv(db0, Finish(s, t, db', Answered(out, |s.log|), Body(t, c.ref, c.key, c.items, out, s.txns[t].checked)))
  {
    var c := s.txns[t].call;
    var (db', out) := Conclude(s.db, b, c.items);
    var e := Event.Body(t, c.ref, c.key, c.items, out, s.txns[t].checked);
    BodyConserves(s.db, c.ref, c.key, c.items);
    AfterPrefix(db0, s.log, e, |s.log|);
    AfterPrefix(db0, s.log, e, s.txns[t].checked);
    LogGrows(db0, s.db, s.log, e, db');
    forall u | u in s.txns && u != t
      ensures Spares(s.db, db', s.locks, u)
    {
      if !b.Clashed? {
        ReserveCommitSpares(s.db, s.locks, t, u, c.ref, c.key, c.items);
      }
    }
    FinishKeepsInv(db0, s, t, db', Answered(out, |s.log|), e);
  }

  lemma RefusedEmpty(db0: Db, s: State, t: int)
    requires Inv(db0, s) && t in s.txns && s.txns[t].call.ReserveCall? && s.txns[t].call.items == []
    ensures Inv(db0, Finish(s, t, s.db, Answered(ReservationOutcome(false, []), |s.log|), Refused(t)))
  {
    AfterPrefix(db0, s.log, Refused(t), |s.log|);
    LogGrows(db0, s.db, s.log, Refused(t), s.db);
    FinishKeepsInv(db0, s, t, s.db, Answered(ReservationOutcome(false, []), |s.log|), Refused(t));
  }

  /** A replay answers from the rows active at its check. */
  lemma ReplayFinishes(db0: Db, s: State, t: int, key: string)
    requires Inv(db0, s) && t in s.txns && s.txns[t].call.ReserveCall?
    requires s.txns[t].call.items != [] && s.txns[t].call.key == key && key != "" && HasActive(s.db.rows, key)
    ensures var out := ReservationOutcome(true, Replay(s.db.rows, key));
            Inv(db0, Finish(s, t, s.db, Answered(out, |s.log|), Replayed(t, key, out)))
  {
    var out := ReservationOutcome(true, Replay(s.db.rows, key));
    var e := Replayed(t, key, out);
    AfterPrefix(db0, s.log, e, |s.log|);
    LogGrows(db0, s.db, s.log, e, s.db);
    FinishKeepsInv(db0, s, t, s.db, Answered(out, |s.log|), e);
  }

  lemma BodyBegins(db0: Db, s: State, t: int)
    requires Inv(db0, s) && t in s.txns && s.txns[t].call.ReserveCall? && s.txns[t].call.items != []
    requires s.txns[t].phase.ReplayCheck? && FreshKey(s.db, s.txns[t].call.key)
    ensures Inv(db0, s.(txns := s.txns[t := Txn(s.txns[t].call, Line(0, NoWork), |s.log|)]))
  {
    assert TxnInv(db0, s, t);
    var s' := s.(txns := s.txns[t := Txn(s.txns[t].call, Line(0, NoWork), |s.log|)]);
    MovedKeepsInv(db0, s, s', t, Line(0, NoWork));
  }

  lemma ReplayCheckKeepsInv(db0: Db, s: State, t: int)
    requires Inv(db0, s) && Enabled(s, t) && s.txns[t].call.ReserveCall? && s.txns[t].phase.ReplayCheck?
    ensures Inv(db0, StepReserve(s, t))
  {
    var c := s.txns[t].call;
    if c.items == [] {
      RefusedEmpty(db0, s, t);
    } else if c.key != "" && HasActive(s.db.rows, c.key) {
      ReplayFinishes(db0, s, t, c.key);
    } else {
      BodyBegins(db0, s, t);
    }
  }

  /** Locking the line's product and reading it. */
  lemma LineLocks(db: Db, locks: map<Lock, int>, locks': map<Lock, int>, t: int, call: Call, i: nat, w: Work)
    requires call.ReserveCall? && i < |call.items| && Locks(db, call.items[i])
    requires ReserveInv(db, locks, t, call, Line(i, w))
    requires forall l :: Holds(locks, l, t) ==> Holds(locks', l, t)
    requires Holds(locks', ProductLock(call.items[i].product), t)
    ensures ReserveInv(db, locks', t, call, Locked(i, w, Avail(db, w.dirty, call.items[i].product)))
  {}

  lemma LineKeepsInv(db0: Db, s: State, t: int)
    requires Inv(db0, s) && Enabled(s, t) && s.txns[t].call.ReserveCall? && s.txns[t].phase.Line?
    ensures Inv(db0, StepReserve(s, t))
  {
    assert TxnInv(db0, s, t);
    var c := s.txns[t].call;
    var Line(i, w) := s.txns[t].phase;
    if i == |c.items| {
      BodyFinishes(db0, s, t, Going(w));
    } else {
      AcquireKeepsHolds(s, t);
      var s' := StepReserve(s, t);
      if Locks(s.db, c.items[i]) {
        LineLocks(s.db, s.locks, s'.locks, t, c, i, w);
      }
      MovedKeepsInv(db0, s, s', t, s'.txns[t].phase);
    }
  }

  lemma LockedKeepsInv(db0: Db, s: State, t: int)
    requires Inv(db0, s) && Enabled(s, t) && s.txns[t].call.ReserveCall? && s.txns[t].phase.Locked?
    ensures Inv(db0, StepReserve(s, t))
  {
    assert TxnInv(db0, s, t);
    var s' := StepReserve(s, t);
    MovedKeepsInv(db0, s, s', t, s'.txns[t].phase);
  }

  lemma SavedKeepsInv(db0: Db, s: State, t: int)
    requires Inv(db0, s) && Enabled(s, t) && s.txns[t].call.ReserveCall? && s.txns[t].phase.Saved?
    ensures Inv(db0, StepReserve(s, t))
  {
    assert TxnInv(db0, s, t);
    var c := s.txns[t].call;
    var Saved(i, w, dirty) := s.txns[t].phase;
    if Clash(s.db.rows, c.key, c.items[i].product) || Clash(w.added, c.key, c.items[i].product) {
      ClashDecides(s.db, c.ref, c.key, c.items, i + 1, |c.items|);
      BodyFinishes(db0, s, t, Clashed);
    } else {
      var ph := Line(i + 1, Take(w, dirty, c.ref, c.key, c.items[i]));
      assert StepReserve(s, t) == Move(s, t, ph);
      MovedKeepsInv(db0, s, Move(s, t, ph), t, ph);
    }
  }

  // ---------------------------------------------------------------- release steps

  lemma ReleaseReady(db0: Db, s: State, t: int)
    requires Inv(db0, s) && t in s.txns && s.txns[t].call.ReleaseCall? && !Finished(s.txns[t].phase)
    ensures ReleaseInv(db0, s.db, s.locks, s.log, t, s.txns[t].call.ref, s.txns[t].phase)
  {
    assert TxnInv(db0, s, t);
  }

  /** A release goes on to a phase it is ready for, with `m`'s locks. */
  lemma MoveReleaseKeepsInv(db0: Db, s: State, m: State, t: int, ph: Phase)
    requires Inv(db0, s) && t in s.txns && s.txns[t].call.ReleaseCall? && !Finished(ph)
    requires m.db == s.db && m.log == s.log && m.txns == s.txns
    requires forall l, u :: Holds(s.locks, l, u) ==> Holds(m.locks, l, u)
    requires ReleaseInv(db0, s.db, m.locks, s.log, t, s.txns[t].call.ref, ph)
    ensures Inv(db0, Move(m, t, ph))
  {
    MovedKeepsInv(db0, s, Move(m, t, ph), t, ph);
  }

  lemma SelectKeepsInv(db0: Db, s: State, t: int)
    requires Inv(db0, s) && Enabled(s, t) && s.txns[t].call.ReleaseCall? && s.txns[t].phase.Select?
    ensures Inv(db0, StepRelease(s, t))
  {
    assert TxnInv(db0, s, t);
    HeldIdsSpec(s.db.rows, s.txns[t].call.ref, One());
    var s' := StepRelease(s, t);
    MovedKeepsInv(db0, s, s', t, s'.txns[t].phase);
  }

  /** Locking the next selected row and testing it again. */
  lemma RowLocks(db0: Db, db: Db, locks: map<Lock, int>, locks': map<Lock, int>, log: seq<Event>, t: int, ref: string,
                 since: nat, snap: seq<nat>, i: nat, kept: seq<nat>)
    requires ReleaseInv(db0, db, locks, log, t, ref, LockRows(since, snap, i, kept)) && i < |snap|
    requires forall l :: Holds(locks, l, t) ==> Holds(locks', l, t)
    requires Holds(locks', RowLock(db.rows[snap[i]].product, snap[i]), t)
    ensures var again := if db.rows[snap[i]].status == RESERVED then [snap[i]] else [];
            ReleaseInv(db0, db, locks', log, t, ref, LockRows(since, snap, i + 1, kept + again))
  {}

  /** All selected rows are locked; the re-tested ones go back next. */
  lemma RowsLocked(db0: Db, db: Db, locks: map<Lock, int>, log: seq<Event>, t: int, ref: string,
                   since: nat, snap: seq<nat>, kept: seq<nat>)
    requires ReleaseInv(db0, db, locks, log, t, ref, LockRows(since, snap, |snap|, kept))
    ensures ReleaseInv(db0, db, locks, log, t, ref, AddBack(since, snap, kept, 0, map[]))
  {}

  lemma LockRowsKeepsInv(db0: Db, s: State, t: int)
    requires Inv(db0, s) && Enabled(s, t) && s.txns[t].call.ReleaseCall? && s.txns[t].phase.LockRows?
    ensures Inv(db0, StepRelease(s, t))
  {
    var ref := s.txns[t].call.ref;
    var LockRows(since, snap, i, kept) := s.txns[t].phase;
    if i == |snap| {
      assert StepRelease(s, t) == Move(s, t, AddBack(since, snap, kept, 0, map[]));
      ReleaseReady(db0, s, t);
      RowsLocked(db0, s.db, s.locks, s.log, t, ref, since, snap, kept);
      MoveReleaseKeepsInv(db0, s, s, t, AddBack(since, snap, kept, 0, map[]));
    } else {
      var again := if s.db.rows[snap[i]].status == RESERVED then [snap[i]] else [];
      assert StepRelease(s, t) == Move(Acquire(s, t), t, LockRows(since, snap, i + 1, kept + again));
      ReleaseReady(db0, s, t);
      AcquireKeepsHolds(s, t);
      RowLocks(db0, s.db, s.locks, Acquire(s, t).locks, s.log, t, ref, since, snap, i, kept);
      MoveReleaseKeepsInv(db0, s, Acquire(s, t), t, LockRows(since, snap, i + 1, kept + again));
    }
  }

  lemma MarkRowKeepsInv(db0: Db, s: State, t: int)
    requires Inv(db0, s) && Enabled(s, t) && s.txns[t].call.ReleaseCall? && s.txns[t].phase.MarkRow?
    ensures Inv(db0, StepRelease(s, t))
  {
    var MarkRow(since, snap, kept, j, dirty) := s.txns[t].phase;
    assert StepRelease(s, t) == Move(s, t, AddBack(since, snap, kept, j + 1, dirty));
    ReleaseReady(db0, s, t);
    MoveReleaseKeepsInv(db0, s, s, t, AddBack(since, snap, kept, j + 1, dirty));
  }

  lemma ReleaseFinishes(db0: Db, s: State, t: int)
    requires Inv(db0, s) && Enabled(s, t) && s.txns[t].call.ReleaseCall? && s.txns[t].phase.AddBack?
    requires s.txns[t].phase.j == |s.txns[t].phase.kept|
    ensures Inv(db0, StepRelease(s, t))
  {
    assert TxnInv(db0, s, t);
    var ref := s.txns[t].call.ref;
    var AddBack(since, snap, kept, j, dirty) := s.txns[t].phase;
    StillHeldSpec(s.db.rows, snap, |snap|);
    SortedIdsDistinct(s.db.rows, kept);
    var db' := ReleaseIds(s.db, kept);
    var e := GaveBack(t, ref, since, kept);
    ReleaseIdsConserves(s.db, kept);
    AfterPrefix(db0, s.log, e, |s.log|);
    AfterPrefix(db0, s.log, e, since);
    LogGrows(db0, s.db, s.log, e, db');
    forall u | u in s.txns && u != t
      ensures Spares(s.db, db', s.locks, u)
    {
      ReleaseCommitSpares(s.db, s.locks, t, u, snap, kept);
    }
    FinishKeepsInv(db0, s, t, db', Phase.Released(|kept|, |s.log|), e);
  }

  /** The stock values a release has changed once it added back one row more. */
  function AddedBack(db: Db, dirty: map<int, int>, r: Row): map<int, int> {
    if r.product in db.stock then dirty[r.product := Avail(db, dirty, r.product) + r.quantity] else dirty
  }

  /** Locking the next kept row's product, if it still exists, and adding to it. */
  lemma ProductLocks(db0: Db, db: Db, locks: map<Lock, int>, locks': map<Lock, int>, log: seq<Event>, t: int,
                     ref: string, since: nat, snap: seq<nat>, kept: seq<nat>, j: nat, dirty: map<int, int>)
    requires ReleaseInv(db0, db, locks, log, t, ref, AddBack(since, snap, kept, j, dirty)) && j < |kept|
    requires forall l :: Holds(locks, l, t) ==> Holds(locks', l, t)
    requires var p := db.rows[kept[j]].product; p in db.stock ==> Holds(locks', ProductLock(p), t)
    ensures ReleaseInv(db0, db, locks', log, t, ref,
                       MarkRow(since, snap, kept, j, AddedBack(db, dirty, db.rows[kept[j]])))
  {
    ReleaseRelocked(db0, db, locks, locks', log, t, ref, AddBack(since, snap, kept, j, dirty));
    assert GiveBack(db, kept, j + 1) == AddedBack(db, dirty, db.rows[kept[j]]);
  }

  lemma AddBackStep(s: State, t: int)
    requires Enabled(s, t) && s.txns[t].call.ReleaseCall? && s.txns[t].phase.AddBack?
    requires s.txns[t].phase.j < |s.txns[t].phase.kept|
    ensures var AddBack(since, snap, kept, j, dirty) := s.txns[t].phase;
            StepRelease(s, t) ==
            Move(Acquire(s, t), t, MarkRow(since, snap, kept, j, AddedBack(s.db, dirty, s.db.rows[kept[j]])))
  {}

  lemma ProductLocked(db0: Db, s: State, t: int, since: nat, snap: seq<nat>, kept: seq<nat>, j: nat,
                      dirty: map<int, int>)
    requires Inv(db0, s) && Enabled(s, t) && s.txns[t].call.ReleaseCall?
    requires s.txns[t].phase == AddBack(since, snap, kept, j, dirty) && j < |kept|
    ensures Inv(db0, Move(Acquire(s, t), t, MarkRow(since, snap, kept, j, AddedBack(s.db, dirty, s.db.rows[kept[j]]))))
  {
    ReleaseReady(db0, s, t);
    AcquireKeepsHolds(s, t);
    ProductLocks(db0, s.db, s.locks, Acquire(s, t).locks, s.log, t, s.txns[t].call.ref, since, snap, kept, j, dirty);
    MoveReleaseKeepsInv(db0, s, Acquire(s, t), t,
                        MarkRow(since, snap, kept, j, AddedBack(s.db, dirty, s.db.rows[kept[j]])));
  }

  lemma AddBackKeepsInv(db0: Db, s: State, t: int)
    requires Inv(db0, s) && Enabled(s, t) && s.txns[t].call.ReleaseCall? && s.txns[t].phase.AddBack?
    ensures Inv(db0, StepRelease(s, t))
  {
    var AddBack(since, snap, kept, j, dirty) := s.txns[t].phase;
    if j == |kept| {
      ReleaseFinishes(db0, s, t);
    } else {
      AddBackStep(s, t);
      ProductLocked(db0, s, t, since, snap, kept, j, dirty);
    }
  }

  // ---------------------------------------------------------------- all steps, all runs

  lemma StepKeepsInv(db0: Db, s: State, t: int)
    requires Inv(db0, s) && Enabled(s, t)
    ensures Inv(db0, Step(s, t))
  {
    match s.txns[t].phase
    case ReplayCheck => ReplayCheckKeepsInv(db0, s, t);
    case Line(_, _) => LineKeepsInv(db0, s, t);
    case Locked(_, _, _) => LockedKeepsInv(db0, s, t);
    case Saved(_, _, _) => SavedKeepsInv(db0, s, t);
    case Select => SelectKeepsInv(db0, s, t);
    case LockRows(_, _, _, _) => LockRowsKeepsInv(db0, s, t);
    case AddBack(_, _, _, _, _) => AddBackKeepsInv(db0, s, t);
    case MarkRow(_, _, _, _, _) => MarkRowKeepsInv(db0, s, t);
  }

  lemma BeginKeepsInv(db0: Db, s: State, t: int, x: Txn)
    requires Inv(db0, s) && t !in s.txns
    requires x.phase == (if x.call.ReserveCall? then ReplayCheck else Select)
    requires x.call.ReserveCall? ==> Sorted(x.call.items)
    ensures Inv(db0, s.(txns := s.txns[t := x]))
  {
    var s' := s.(txns := s.txns[t := x]);
    forall u | u in s'.txns
      ensures TxnInv(db0, s', u)
    {
      assert u != t ==> TxnInv(db0, s, u);
    }
  }

  lemma CrashKeepsInv(db0: Db, s: State, t: int)
    requires Inv(db0, s) && Allowed(s, Crash(t))
    ensures Inv(db0, Next(s, Crash(t)))
  {
    var s' := Next(s, Crash(t));
    forall u | u in s'.txns
      ensures TxnInv(db0, s', u)
    {
      if u != t {
        assert TxnInv(db0, s, u);
        var Txn(call, pu, _) := s.txns[u];
        if !Finished(pu) {
          if call.ReserveCall? {
            ReserveRelocked(s.db, s.locks, s'.locks, u, call, pu);
          } else {
            ReleaseRelocked(db0, s.db, s.locks, s'.locks, s.log, u, call.ref, pu);
          }
        }
      }
    }
  }

  lemma NextKeepsInv(db0: Db, s: State, a: Action)
    requires Inv(db0, s) && Allowed(s, a)
    ensures Inv(db0, Next(s, a))
  {
    match a
    case BeginReserve(t, ref, items, key) =>
      SortSpec(items);
      BeginKeepsInv(db0, s, t, Txn(ReserveCall(ref, SortByProduct(items), key), ReplayCheck, 0));
    case BeginRelease(t, ref) => BeginKeepsInv(db0, s, t, Txn(ReleaseCall(ref), Select, 0));
    case Go(t) => StepKeepsInv(db0, s, t);
    case Crash(t) => CrashKeepsInv(db0, s, t);
  }

  lemma {:induction false} RunKeepsInv(db0: Db, acts: seq<Action>)
    requires WellFormed(db0) && Run(db0, acts).Reached?
    ensures Inv(db0, Run(db0, acts).s)
  {
    if acts != [] {
      var n := |acts| - 1;
      RunKeepsInv(db0, acts[..n]);
      NextKeepsInv(db0, Run(db0, acts[..n]).s, acts[n]);
    }
  }
}
