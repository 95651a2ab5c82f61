/** Deadlock freedom of the interleaved transactions: every transaction takes
    its locks in one global order, so somebody can always go on. */
module Deadlock {
  import opened Inventory
  import opened InventoryLaws
  import opened StockLaws
  import opened Concurrent
  import opened ConcurrentInv
  import opened ConcurrentSteps

  /** Reservation rows by (product, id), then products by id. */
  predicate Less(a: Lock, b: Lock) {
    match (a, b)
    case (RowLock(p, i), RowLock(q, j)) => p < q || (p == q && i < j)
    case (RowLock(_, _), ProductLock(_)) => true
    case (ProductLock(_), RowLock(_, _)) => false
    case (ProductLock(p), ProductLock(q)) => p < q
  }

  // ---------------------------------------------------------------- who holds what

  ghost predicate LineLock(items: seq<Item>, n: nat, l: Lock)
    requires n <= |items|
  {
    l.ProductLock? && exists j | 0 <= j < n :: items[j].product == l.product
  }

  ghost predicate SnapLock(db: Db, snap: seq<nat>, n: nat, l: Lock)
    requires n <= |snap| && ValidIds(db.rows, snap)
  {
    exists k | 0 <= k < n :: l == RowLock(db.rows[snap[k]].product, snap[k])
  }

  ghost predicate KeptLock(db: Db, kept: seq<nat>, n: nat, l: Lock)
    requires n <= |kept| && ValidIds(db.rows, kept)
  {
    l.RowLock? || exists k | 0 <= k < n :: db.rows[kept[k]].product == l.product
  }

  /** A lock the transaction can hold at this point of its life. */
  ghost predicate CanHold(db: Db, x: Txn, l: Lock) {
    Shaped(db, x) &&
    match x.phase
    case Line(i, _) => LineLock(x.call.items, i, l)
    case Locked(i, _, _) => LineLock(x.call.items, i + 1, l)
    case Saved(i, _, _) => LineLock(x.call.items, i + 1, l)
    case LockRows(_, snap, i, _) => SnapLock(db, snap, i, l)
    case AddBack(_, _, kept, j, _) => KeptLock(db, kept, j, l)
    case MarkRow(_, _, kept, j, _) => KeptLock(db, kept, j + 1, l)
    case _ => false
  }

  /** Only unfinished transactions hold locks, and only those they asked for. */
  ghost predicate LockInv(s: State) {
    forall l | l in s.locks ::
      s.locks[l] in s.txns && CanHold(s.db, s.txns[s.locks[l]], l)
  }

  /** Tables whose rows only grow and keep their products. */
  ghost predicate SameProducts(db: Db, db': Db) {
    && db'.stock.Keys == db.stock.Keys
    && |db.rows| <= |db'.rows|
    && forall i | 0 <= i < |db.rows| :: db'.rows[i].product == db.rows[i].product
  }

  lemma CanHoldKept(db: Db, db': Db, x: Txn, l: Lock)
    requires SameProducts(db, db') && CanHold(db, x, l)
    ensures CanHold(db', x, l)
  {}

  lemma FinishKeepsLockInv(s: State, t: int, db': Db, ph: Phase, e: Event)
    requires LockInv(s) && t in s.txns && SameProducts(s.db, db')
    ensures LockInv(Finish(s, t, db', ph, e))
  {
    forall l | l in s.locks && s.locks[l] != t
      ensures CanHold(db', s.txns[s.locks[l]], l)
    {
      CanHoldKept(s.db, db', s.txns[s.locks[l]], l);
    }
  }

  lemma BodySameProducts(db: Db, ref: string, key: string, items: seq<Item>)
    ensures SameProducts(db, ReserveBody(db, ref, key, items).0)
  {
    BodyEffect(db, ref, key, items);
  }

  lemma ReleaseSameProducts(db: Db, ids: seq<nat>)
    requires ValidIds(db.rows, ids)
    ensures SameProducts(db, ReleaseIds(db, ids))
  {
    GiveBackKeys(db, ids, |ids|);
  }

  /** A step that locks what it wished for and moves to a phase that can hold it. */
  lemma MoveKeepsLockInv(s: State, s': State, t: int)
    requires LockInv(s) && Enabled(s, t) && s'.db == s.db
    requires s'.locks == s.locks || s'.locks == Acquire(s, t).locks
    requires t in s'.txns && s'.txns == s.txns[t := s'.txns[t]]
    requires forall l | CanHold(s.db, s.txns[t], l) :: CanHold(s.db, s'.txns[t], l)
    requires var wish := WishOf(s.db, s.txns[t]);
             wish.Wants? && s'.locks != s.locks ==> CanHold(s.db, s'.txns[t], wish.lock)
    ensures LockInv(s')
  {}

  lemma StepReserveKeepsLockInv(db0: Db, s: State, t: int)
    requires Inv(db0, s) && LockInv(s) && Enabled(s, t) && s.txns[t].call.ReserveCall?
    ensures LockInv(StepReserve(s, t))
  {
    assert TxnInv(db0, s, t);
    var ReserveCall(ref, items, key) := s.txns[t].call;
    match s.txns[t].phase
    case ReplayCheck =>
      if items == [] {
        FinishKeepsLockInv(s, t, s.db, Answered(ReservationOutcome(false, []), |s.log|), Refused(t));
      } else if key != "" && HasActive(s.db.rows, key) {
        var out := ReservationOutcome(true, Replay(s.db.rows, key));
        FinishKeepsLockInv(s, t, s.db, Answered(out, |s.log|), Replayed(t, key, out));
      } else {
        MoveKeepsLockInv(s, StepReserve(s, t), t);
      }
    case Line(i, w) =>
      if i == |items| {
        var (db', out) := Conclude(s.db, Going(w), items);
        BodySameProducts(s.db, ref, key, items);
        FinishKeepsLockInv(s, t, db', Answered(out, |s.log|), Event.Body(t, ref, key, items, out, s.txns[t].checked));
      } else {
        MoveKeepsLockInv(s, StepReserve(s, t), t);
      }
    case Locked(_, _, _) =>
      MoveKeepsLockInv(s, StepReserve(s, t), t);
    case Saved(i, w, dirty) =>
      if Clash(s.db.rows, key, items[i].product) || Clash(w.added, key, items[i].product) {
        var (db', out) := Conclude(s.db, Clashed, items);
        FinishKeepsLockInv(s, t, db', Answered(out, |s.log|), Event.Body(t, ref, key, items, out, s.txns[t].checked));
      } else {
        MoveKeepsLockInv(s, StepReserve(s, t), t);
      }
  }

  lemma SelectKeepsLockInv(s: State, t: int)
    requires LockInv(s) && Enabled(s, t) && s.txns[t].call.ReleaseCall? && s.txns[t].phase.Select?
    ensures LockInv(StepRelease(s, t))
  {
    HeldIdsValid(s.db.rows, s.txns[t].call.ref);
    MoveKeepsLockInv(s, StepRelease(s, t), t);
  }

  lemma LockRowsKeepsLockInv(s: State, t: int)
    requires LockInv(s) && Enabled(s, t) && s.txns[t].call.ReleaseCall? && s.txns[t].phase.LockRows?
    ensures LockInv(StepRelease(s, t))
  {
    MoveKeepsLockInv(s, StepRelease(s, t), t);
  }

  lemma AddBackKeepsLockInv(db0: Db, s: State, t: int)
    requires Inv(db0, s) && LockInv(s)
    requires Enabled(s, t) && s.txns[t].call.ReleaseCall? && s.txns[t].phase.AddBack?
    ensures LockInv(StepRelease(s, t))
  {
    assert TxnInv(db0, s, t);
    var ref := s.txns[t].call.ref;
    var AddBack(since, snap, kept, j, dirty) := s.txns[t].phase;
    if j == |kept| {
      var db' := ReleaseIds(s.db, kept);
      ReleaseSameProducts(s.db, kept);
      FinishKeepsLockInv(s, t, db', Phase.Released(|kept|, |s.log|), GaveBack(t, ref, since, kept));
    } else {
      MoveKeepsLockInv(s, StepRelease(s, t), t);
    }
  }

  lemma MarkRowKeepsLockInv(s: State, t: int)
    requires LockInv(s) && Enabled(s, t) && s.txns[t].call.ReleaseCall? && s.txns[t].phase.MarkRow?
    ensures LockInv(StepRelease(s, t))
  {
    MoveKeepsLockInv(s, StepRelease(s, t), t);
  }

  lemma StepReleaseKeepsLockInv(db0: Db, s: State, t: int)
    requires Inv(db0, s) && LockInv(s) && Enabled(s, t) && s.txns[t].call.ReleaseCall?
    ensures LockInv(StepRelease(s, t))
  {
    match s.txns[t].phase
    case Select => SelectKeepsLockInv(s, t);
    case LockRows(_, _, _, _) => LockRowsKeepsLockInv(s, t);
    case AddBack(_, _, _, _, _) => AddBackKeepsLockInv(db0, s, t);
    case MarkRow(_, _, _, _, _) => MarkRowKeepsLockInv(s, t);
    case _ =>
  }

  lemma HeldIdsValid(rows: seq<Row>, ref: string)
    ensures ValidIds(rows, HeldIds(rows, ref))
  {}

  lemma NextKeepsLockInv(db0: Db, s: State, a: Action)
    requires Inv(db0, s) && LockInv(s) && Allowed(s, a)
    ensures LockInv(Next(s, a))
  {
    match a
    case Go(t) =>
      if s.txns[t].call.ReserveCall? {
        StepReserveKeepsLockInv(db0, s, t);
      } else {
        StepReleaseKeepsLockInv(db0, s, t);
      }
    case _ =>
  }

  // ---------------------------------------------------------------- progress

  /** Whatever a blocked transaction holds comes before what it waits for. */
  lemma HeldBeforeWished(db0: Db, s: State, t: int, l: Lock)
    requires Inv(db0, s) && LockInv(s) && t in s.txns
    requires Holds(s.locks, l, t) && !Enabled(s, t) && !Finished(s.txns[t].phase)
    ensures Shaped(s.db, s.txns[t]) && WishOf(s.db, s.txns[t]).Wants?
    ensures Less(l, WishOf(s.db, s.txns[t]).lock)
  {
    assert TxnInv(db0, s, t);
    assert CanHold(s.db, s.txns[t], l);
    match s.txns[t].phase
    case Line(i, _) =>
      var j :| 0 <= j < i && s.txns[t].call.items[j].product == l.product;
      assert s.txns[t].call.items[j].product <= s.txns[t].call.items[i].product;
    case LockRows(_, snap, i, _) =>
      var k :| 0 <= k < i && l == RowLock(s.db.rows[snap[k]].product, snap[k]);
      assert Before(s.db.rows, snap[k], snap[i]);
    case AddBack(_, snap, kept, j, _) =>
      if l.ProductLock? {
        var k :| 0 <= k < j && s.db.rows[kept[k]].product == l.product;
        StillHeldSpec(s.db.rows, snap, |snap|);
        assert Before(s.db.rows, kept[k], kept[j]);
      }
  }

  /** Waiters and the lock each wants: every such lock is held, and whatever a
      waiter holds comes before what it wants. */
  ghost predicate Climbing(want: map<int, Lock>, locks: map<Lock, int>) {
    && (forall t | t in want :: want[t] in locks)
    && (forall t, l | t in want && Holds(locks, l, t) :: Less(l, want[t]))
  }

  /** Follow the chain of holders from the holder `t` of `l`: it climbs the lock
      order, so it ends at a holder that is not waiting. `seen` are the waiters
      already passed. */
  lemma {:induction false} ClimbsTo(want: map<int, Lock>, locks: map<Lock, int>, t: int, l: Lock, seen: set<int>)
    returns (u: int, m: Lock)
    requires Climbing(want, locks) && Holds(locks, l, t)
    requires seen <= want.Keys && forall v | v in seen :: want[v] == l || Less(want[v], l)
    ensures Holds(locks, m, u) && u !in want
    decreases |want.Keys - seen|
  {
    if t !in want {
      return t, l;
    }
    assert Less(l, want[t]) && t !in seen;
    assert want.Keys - (seen + {t}) < want.Keys - seen;
    u, m := ClimbsTo(want, locks, locks[want[t]], want[t], seen + {t});
  }

  predicate Unfinished(s: State, t: int) { t in s.txns && !Finished(s.txns[t].phase) }

  /** A transaction that cannot step wants a lock that somebody holds. */
  lemma Blocked(db0: Db, s: State, t: int)
    requires Inv(db0, s) && Unfinished(s, t) && !Enabled(s, t)
    ensures Shaped(s.db, s.txns[t])
    ensures WishOf(s.db, s.txns[t]).Wants? && WishOf(s.db, s.txns[t]).lock in s.locks
  {
    assert TxnInv(db0, s, t);
  }

  lemma HolderUnfinished(s: State, l: Lock)
    requires LockInv(s) && l in s.locks
    ensures Unfinished(s, s.locks[l])
  {
    assert CanHold(s.db, s.txns[s.locks[l]], l);
  }

  /** While any transaction is unfinished, some unfinished one can step. */
  lemma SomeoneCanStep(db0: Db, s: State, t: int) returns (u: int)
    requires Inv(db0, s) && LockInv(s) && Unfinished(s, t)
    ensures Enabled(s, u)
  {
    if Enabled(s, t) {
      return t;
    }
    forall v | Unfinished(s, v) && !Enabled(s, v) { Blocked(db0, s, v); }
    var want := map v | v in s.txns && Unfinished(s, v) && !Enabled(s, v) :: WishOf(s.db, s.txns[v]).lock;
    forall v, l | v in want && Holds(s.locks, l, v)
      ensures Less(l, want[v])
    {
      HeldBeforeWished(db0, s, v, l);
    }
    var m;
    u, m := ClimbsTo(want, s.locks, s.locks[want[t]], want[t], {});
    HolderUnfinished(s, m);
  }

  lemma {:induction false} RunKeepsLockInv(db0: Db, acts: seq<Action>)
    requires WellFormed(db0) && Run(db0, acts).Reached?
    ensures LockInv(Run(db0, acts).s)
  {
    if acts != [] {
      var n := |acts| - 1;
      RunKeepsLockInv(db0, acts[..n]);
      RunKeepsInv(db0, acts[..n]);
      NextKeepsLockInv(db0, Run(db0, acts[..n]).s, acts[n]);
    }
  }

  /** No deadlock: after any run, while any reserve or release is unfinished,
      some transaction can take its next step. */
  lemma DeadlockFreedom(db0: Db, acts: seq<Action>)
    requires WellFormed(db0) && Run(db0, acts).Reached?
    ensures var s := Run(db0, acts).s;
            (exists t :: t in s.txns && !Finished(s.txns[t].phase)) ==> exists u :: Enabled(s, u)
  {
    var s := Run(db0, acts).s;
    RunKeepsInv(db0, acts);
    RunKeepsLockInv(db0, acts);
    if t :| t in s.txns && !Finished(s.txns[t].phase) {
      var u := SomeoneCanStep(db0, s, t);
    }
  }
}
