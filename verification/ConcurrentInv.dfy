/** The invariant of the interleaved transactions: every unfinished transaction
    has, on the tables as they are now, exactly the partial result it would have
    had running alone, because its locks keep everything it used as it was. */
module ConcurrentInv {
  import opened Inventory
  import opened InventoryLaws
  import opened StockLaws
  import opened Concurrent

  // ---------------------------------------------------------------- the invariant

  /** The product rows of the first `n` lines are locked by `t`. */
  ghost predicate HoldsLines(db: Db, locks: map<Lock, int>, t: int, items: seq<Item>, n: nat)
    requires n <= |items|
  {
    forall j | 0 <= j < n :: Locks(db, items[j]) ==> Holds(locks, ProductLock(items[j].product), t)
  }

  ghost predicate HoldsRows(db: Db, locks: map<Lock, int>, t: int, snap: seq<nat>, n: nat)
    requires n <= |snap| && ValidIds(db.rows, snap)
  {
    forall k | 0 <= k < n :: Holds(locks, RowLock(db.rows[snap[k]].product, snap[k]), t)
  }

  ghost predicate HoldsProductsOf(db: Db, locks: map<Lock, int>, t: int, ids: seq<nat>, n: nat)
    requires n <= |ids| && ValidIds(db.rows, ids)
  {
    forall k | 0 <= k < n ::
      db.rows[ids[k]].product in db.stock ==> Holds(locks, ProductLock(db.rows[ids[k]].product), t)
  }

  ghost predicate RanTo(db: Db, call: Call, n: nat, w: Work)
    requires call.ReserveCall?
  {
    n <= |call.items| && RunLines(db, call.ref, call.key, call.items, n) == Going(w)
  }

  ghost predicate ReserveInv(db: Db, locks: map<Lock, int>, t: int, call: Call, ph: Phase)
    requires call.ReserveCall?
  {
    && Sorted(call.items)
    && match ph
       case ReplayCheck => true
       case Line(i, w) => RanTo(db, call, i, w) && call.items != [] && HoldsLines(db, locks, t, call.items, i)
       case Locked(i, w, avail) =>
         && i < |call.items| && RanTo(db, call, i, w) && HoldsLines(db, locks, t, call.items, i + 1)
         && Locks(db, call.items[i]) && avail == Avail(db, w.dirty, call.items[i].product)
       case Saved(i, w, dirty) =>
         && i < |call.items| && RanTo(db, call, i, w) && HoldsLines(db, locks, t, call.items, i + 1)
         && Locks(db, call.items[i])
         && var x := call.items[i];
            var avail := Avail(db, w.dirty, x.product);
            x.quantity <= avail && dirty == w.dirty[x.product := avail - x.quantity]
       case _ => false
  }

  /** The selection of a release: rows of its order, in (product, id) order. */
  ghost predicate SnapInv(db0: Db, db: Db, log: seq<Event>, ref: string, since: nat, snap: seq<nat>) {
    && since <= |log|
    && snap == HeldIds(After(db0, log, since).rows, ref)
    && ValidIds(db.rows, snap)
    && IdsSorted(db.rows, snap)
  }

  ghost predicate ReleaseInv(db0: Db, db: Db, locks: map<Lock, int>, log: seq<Event>, t: int, ref: string, ph: Phase) {
    match ph
    case Select => true
    case LockRows(since, snap, i, kept) =>
      && SnapInv(db0, db, log, ref, since, snap)
      && i <= |snap| && HoldsRows(db, locks, t, snap, i)
      && kept == StillHeld(db.rows, snap, i)
    case AddBack(since, snap, kept, j, dirty) =>
      && BackInv(db0, db, locks, log, t, ref, since, snap, kept)
      && j <= |kept| && HoldsProductsOf(db, locks, t, kept, j)
      && dirty == GiveBack(db, kept, j)
    case MarkRow(since, snap, kept, j, dirty) =>
      && BackInv(db0, db, locks, log, t, ref, since, snap, kept)
      && j < |kept| && HoldsProductsOf(db, locks, t, kept, j + 1)
      && dirty == GiveBack(db, kept, j + 1)
    case _ => false
  }

  ghost predicate BackInv(db0: Db, db: Db, locks: map<Lock, int>, log: seq<Event>, t: int, ref: string,
                          since: nat, snap: seq<nat>, kept: seq<nat>) {
    && SnapInv(db0, db, log, ref, since, snap)
    && HoldsRows(db, locks, t, snap, |snap|)
    && kept == StillHeld(db.rows, snap, |snap|)
    && ValidIds(db.rows, kept)
  }

  /** A finished transaction's event records its own request, its answer and, for
      a release, how many rows went back. */
  ghost predicate DoneInv(log: seq<Event>, t: int, call: Call, ph: Phase) {
    match ph
    case Answered(out, at) =>
      && call.ReserveCall? && at < |log| && log[at].txn == t
      && (match log[at]
         case Refused(_) => call.items == [] && out == ReservationOutcome(false, [])
         case Replayed(_, key, o) => call.items != [] && key == call.key && o == out
         case Body(_, ref, key, items, o, _) => ref == call.ref && key == call.key && items == call.items && o == out
         case GaveBack(_, _, _, _) => false)
    case Released(count, at) =>
      && call.ReleaseCall? && at < |log| && log[at].txn == t
      && log[at].GaveBack? && log[at].ref == call.ref && |log[at].ids| == count
    case _ => true
  }

  /** The replay check found no active rows of the key. */
  ghost predicate CheckInv(db0: Db, log: seq<Event>, key: string, checked: nat) {
    checked <= |log| && FreshKey(After(db0, log, checked), key)
  }

  ghost predicate TxnInv(db0: Db, s: State, t: int)
    requires t in s.txns
  {
    var Txn(call, ph, checked) := s.txns[t];
    if Finished(ph) then DoneInv(s.log, t, call, ph)
    else if call.ReserveCall? then
      ReserveInv(s.db, s.locks, t, call, ph) && (ph.ReplayCheck? || CheckInv(db0, s.log, call.key, checked))
    else ReleaseInv(db0, s.db, s.locks, s.log, t, call.ref, ph)
  }

  /** Every event so far is what running it alone gives, and so are the tables. */
  ghost predicate LogInv(db0: Db, db: Db, log: seq<Event>) {
    && After(db0, log, |log|) == db
    && forall n | 0 <= n < |log| :: Explained(db0, log, n)
  }

  ghost predicate Inv(db0: Db, s: State) {
    && Conserves(db0, s.db)
    && LogInv(db0, s.db, s.log)
    && (forall t | t in s.txns :: TxnInv(db0, s, t))
  }

  // ---------------------------------------------------------------- the log only grows

  lemma {:induction false} AfterPrefix(db0: Db, log: seq<Event>, e: Event, n: nat)
    requires n <= |log|
    ensures After(db0, log + [e], n) == After(db0, log, n)
  {
    if n > 0 {
      AfterPrefix(db0, log, e, n - 1);
    }
  }

  lemma ExplainedPrefix(db0: Db, log: seq<Event>, e: Event, n: nat)
    requires n < |log| && Explained(db0, log, n)
    ensures Explained(db0, log + [e], n)
  {
    AfterPrefix(db0, log, e, n);
    if log[n].GaveBack? || log[n].Body? {
      AfterPrefix(db0, log, e, log[n].since);
    }
  }

  lemma LogGrows(db0: Db, db: Db, log: seq<Event>, e: Event, db': Db)
    requires LogInv(db0, db, log)
    requires Explained(db0, log + [e], |log|)
    requires After(db0, log + [e], |log| + 1) == db'
    ensures LogInv(db0, db', log + [e])
  {
    forall n | 0 <= n < |log|
      ensures Explained(db0, log + [e], n)
    {
      ExplainedPrefix(db0, log, e, n);
    }
  }

  // ---------------------------------------------------------------- what others' commits spare

  /** Everything `t` relies on, through its locks, is in `db'` as it was in `db`. */
  ghost predicate Spares(db: Db, db': Db, locks: map<Lock, int>, t: int) {
    && db'.stock.Keys == db.stock.Keys
    && |db.rows| <= |db'.rows|
    && (forall p | p in db.stock && Holds(locks, ProductLock(p), t) ::
          && db'.stock[p] == db.stock[p]
          && forall key :: Clash(db'.rows, key, p) == Clash(db.rows, key, p))
    && (forall i | 0 <= i < |db.rows| ::
          && db'.rows[i].(status := db.rows[i].status) == db.rows[i]
          && (Holds(locks, RowLock(db.rows[i].product, i), t) ==> db'.rows[i] == db.rows[i]))
  }

  lemma {:induction false} RunLinesFrame(db: Db, db': Db, locks: map<Lock, int>, t: int,
                                         ref: string, key: string, items: seq<Item>, n: nat)
    requires n <= |items| && Spares(db, db', locks, t) && HoldsLines(db, locks, t, items, n)
    ensures RunLines(db', ref, key, items, n) == RunLines(db, ref, key, items, n)
  {
    if n > 0 {
      RunLinesFrame(db, db', locks, t, ref, key, items, n - 1);
    }
  }

  lemma {:induction false} StillHeldFrame(db: Db, db': Db, locks: map<Lock, int>, t: int, snap: seq<nat>, n: nat)
    requires n <= |snap| && ValidIds(db.rows, snap) && ValidIds(db'.rows, snap)
    requires Spares(db, db', locks, t) && HoldsRows(db, locks, t, snap, n)
    ensures StillHeld(db'.rows, snap, n) == StillHeld(db.rows, snap, n)
  {
    if n > 0 {
      StillHeldFrame(db, db', locks, t, snap, n - 1);
    }
  }

  lemma {:induction false} GiveBackFrame(db: Db, db': Db, locks: map<Lock, int>, t: int, ids: seq<nat>, n: nat)
    requires n <= |ids| && ValidIds(db.rows, ids) && ValidIds(db'.rows, ids)
    requires Spares(db, db', locks, t) && HoldsProductsOf(db, locks, t, ids, n)
    ensures GiveBack(db', ids, n) == GiveBack(db, ids, n)
  {
    if n > 0 {
      GiveBackFrame(db, db', locks, t, ids, n - 1);
    }
  }

  lemma ReserveKept(db: Db, db': Db, locks: map<Lock, int>, t: int, call: Call, ph: Phase)
    requires call.ReserveCall? && Spares(db, db', locks, t)
    requires ReserveInv(db, locks, t, call, ph)
    ensures ReserveInv(db', locks, t, call, ph)
  {
    match ph
    case Line(i, w) => RunLinesFrame(db, db', locks, t, call.ref, call.key, call.items, i);
    case Locked(i, w, _) => RunLinesFrame(db, db', locks, t, call.ref, call.key, call.items, i);
    case Saved(i, w, _) => RunLinesFrame(db, db', locks, t, call.ref, call.key, call.items, i);
    case _ =>
  }

  lemma SnapKept(db0: Db, db: Db, db': Db, locks: map<Lock, int>, t: int, log: seq<Event>, e: Event,
                 ref: string, since: nat, snap: seq<nat>)
    requires SnapInv(db0, db, log, ref, since, snap) && Spares(db, db', locks, t)
    ensures SnapInv(db0, db', log + [e], ref, since, snap)
  {
    AfterPrefix(db0, log, e, since);
    forall k | 0 <= k < |snap|
      ensures snap[k] < |db'.rows| && db'.rows[snap[k]].product == db.rows[snap[k]].product
    {}
  }

  lemma BackKept(db0: Db, db: Db, db': Db, locks: map<Lock, int>, t: int, log: seq<Event>, e: Event,
                 ref: string, since: nat, snap: seq<nat>, kept: seq<nat>, n: nat)
    requires Spares(db, db', locks, t) && BackInv(db0, db, locks, log, t, ref, since, snap, kept)
    requires n <= |kept| && HoldsProductsOf(db, locks, t, kept, n)
    ensures BackInv(db0, db', locks, log + [e], t, ref, since, snap, kept)
    ensures HoldsProductsOf(db', locks, t, kept, n)
    ensures GiveBack(db', kept, n) == GiveBack(db, kept, n)
  {
    SnapKept(db0, db, db', locks, t, log, e, ref, since, snap);
    StillHeldFrame(db, db', locks, t, snap, |snap|);
    GiveBackFrame(db, db', locks, t, kept, n);
  }

  lemma ReleaseKept(db0: Db, db: Db, db': Db, locks: map<Lock, int>, t: int, log: seq<Event>, e: Event,
                    ref: string, ph: Phase)
    requires Spares(db, db', locks, t)
    requires ReleaseInv(db0, db, locks, log, t, ref, ph)
    ensures ReleaseInv(db0, db', locks, log + [e], t, ref, ph)
  {
    match ph
    case LockRows(since, snap, i, kept) =>
      SnapKept(db0, db, db', locks, t, log, e, ref, since, snap);
      StillHeldFrame(db, db', locks, t, snap, i);
    case AddBack(since, snap, kept, j, dirty) =>
      BackKept(db0, db, db', locks, t, log, e, ref, since, snap, kept, j);
    case MarkRow(since, snap, kept, j, dirty) =>
      BackKept(db0, db, db', locks, t, log, e, ref, since, snap, kept, j + 1);
    case _ =>
  }

  /** Holding the same locks, whoever else holds what, keeps the invariant. */
  lemma ReserveRelocked(db: Db, locks: map<Lock, int>, locks': map<Lock, int>, t: int, call: Call, ph: Phase)
    requires call.ReserveCall? && ReserveInv(db, locks, t, call, ph)
    requires forall l :: Holds(locks, l, t) ==> Holds(locks', l, t)
    ensures ReserveInv(db, locks', t, call, ph)
  {}

  lemma ReleaseRelocked(db0: Db, db: Db, locks: map<Lock, int>, locks': map<Lock, int>, log: seq<Event>, t: int,
                        ref: string, ph: Phase)
    requires ReleaseInv(db0, db, locks, log, t, ref, ph)
    requires forall l :: Holds(locks, l, t) ==> Holds(locks', l, t)
    ensures ReleaseInv(db0, db, locks', log, t, ref, ph)
  {}

  // ---------------------------------------------------------------- a step that finishes nothing

  /** `t` moved to `ph`; tables and log stand, and nobody else lost a lock. */
  ghost predicate Moved(s: State, s': State, t: int, ph: Phase)
    requires t in s.txns
  {
    && s'.db == s.db && s'.log == s.log
    && t in s'.txns && s'.txns == s.txns[t := s'.txns[t]]
    && s'.txns[t].call == s.txns[t].call && s'.txns[t].phase == ph
    && (forall l, u :: Holds(s.locks, l, u) ==> Holds(s'.locks, l, u))
  }

  lemma MovedKeepsInv(db0: Db, s: State, s': State, t: int, ph: Phase)
    requires Inv(db0, s) && t in s.txns && Moved(s, s', t, ph)
    requires TxnInv(db0, s', t)
    ensures Inv(db0, s')
  {
    forall u | u in s'.txns
      ensures TxnInv(db0, s', u)
    {
      if u != t {
        assert TxnInv(db0, s, u);
        var Txn(call, pu, checked) := s.txns[u];
        if !Finished(pu) {
          if call.ReserveCall? {
            ReserveRelocked(s.db, s.locks, s'.locks, u, call, pu);
          } else {
            ReleaseRelocked(db0, s.db, s.locks, s'.locks, s.log, u, call.ref, pu);
          }
        }
      }
    }
  }

  // ---------------------------------------------------------------- a step that finishes `t`

  lemma FinishKeepsInv(db0: Db, s: State, t: int, db': Db, ph: Phase, e: Event)
    requires Inv(db0, s) && t in s.txns && Finished(ph)
    requires Conserves(db0, db')
    requires LogInv(db0, db', s.log + [e])
    requires DoneInv(s.log + [e], t, s.txns[t].call, ph)
    requires forall u | u in s.txns && u != t :: Spares(s.db, db', s.locks, u)
    ensures Inv(db0, Finish(s, t, db', ph, e))
  {
    var s' := Finish(s, t, db', ph, e);
    forall u | u in s'.txns
      ensures TxnInv(db0, s', u)
    {
      if u != t {
        assert TxnInv(db0, s, u);
        var Txn(call, pu, checked) := s.txns[u];
        if Finished(pu) {
          assert DoneInv(s.log, u, call, pu);
        } else if call.ReserveCall? {
          ReserveKept(s.db, db', s.locks, u, call, pu);
          if !pu.ReplayCheck? {
            AfterPrefix(db0, s.log, e, checked);
          }
          ReserveRelocked(db', s.locks, s'.locks, u, call, pu);
        } else {
          ReleaseKept(db0, s.db, db', s.locks, u, s.log, e, call.ref, pu);
          ReleaseRelocked(db0, db', s.locks, s'.locks, s'.log, u, call.ref, pu);
        }
      }
    }
  }
}
