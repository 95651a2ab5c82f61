/** Any number of `reserve_stock` and `release_stock` transactions interleaved
    over one database at READ COMMITTED, one statement at a time.

    The database's part is in the step function: a row lock is held to the end
    of its transaction, a lock waiter reads the latest committed row and tests
    its filter again, a commit becomes visible at once, and a unique-index
    violation rolls the whole transaction back. */
module Concurrent {
  import opened Inventory

  datatype Lock = ProductLock(product: int) | RowLock(product: int, id: nat)

  /** A request; a reserve keeps its items sorted, as `reserve_stock` does first. */
  datatype Call =
    | ReserveCall(ref: string, items: seq<Item>, key: string)
    | ReleaseCall(ref: string)

  datatype Phase =
    | ReplayCheck                                         // reserve: not yet in its transaction
    | Line(i: nat, w: Work)                               // about to take line i
    | Locked(i: nat, w: Work, avail: int)                 // product row locked and read
    | Saved(i: nat, w: Work, dirty: map<int, int>)        // stock saved, row not yet inserted
    | Answered(out: ReservationOutcome, at: nat)          // finished as event `at`
    | Select                                              // release: before its statement
    | LockRows(since: nat, snap: seq<nat>, i: nat, kept: seq<nat>)
    | AddBack(since: nat, snap: seq<nat>, kept: seq<nat>, j: nat, dirty: map<int, int>)
    | MarkRow(since: nat, snap: seq<nat>, kept: seq<nat>, j: nat, dirty: map<int, int>)
    | Released(count: nat, at: nat)
    | Crashed

  /** `checked` is the log position at which a reserve made its replay check. */
  datatype Txn = Txn(call: Call, phase: Phase, checked: nat)

  /** What the database saw finish, in finishing order. */
  datatype Event =
    | Refused(txn: int)
    | Replayed(txn: int, key: string, out: ReservationOutcome)
    | Body(txn: int, ref: string, key: string, items: seq<Item>, out: ReservationOutcome, since: nat)
    | GaveBack(txn: int, ref: string, since: nat, ids: seq<nat>)

  datatype State = State(db: Db, locks: map<Lock, int>, txns: map<int, Txn>, log: seq<Event>)

  function Start(db: Db): State { State(db, map[], map[], []) }

  predicate Finished(ph: Phase) { ph.Answered? || ph.Released? || ph.Crashed? }

  predicate Free(locks: map<Lock, int>, l: Lock, t: int) { l !in locks || locks[l] == t }

  predicate Holds(locks: map<Lock, int>, l: Lock, t: int) { l in locks && locks[l] == t }

  function Unlock(locks: map<Lock, int>, t: int): map<Lock, int> {
    map l | l in locks && locks[l] != t :: locks[l]
  }

  /** Does this line lock a product row? */
  predicate Locks(db: Db, x: Item) { 0 < x.quantity && x.product in db.stock }

  /** The ids of `snap[..n]` whose rows are still RESERVED. */
  function StillHeld(rows: seq<Row>, snap: seq<nat>, n: nat): (r: seq<nat>)
    requires n <= |snap| && ValidIds(rows, snap)
    ensures ValidIds(rows, r)
  {
    if n == 0 then []
    else
      StillHeld(rows, snap, n - 1) + if rows[snap[n - 1]].status == RESERVED then [snap[n - 1]] else []
  }

  // ---------------------------------------------------------------- steps

  /** The lock the transaction's next statement needs, if it needs one. */
  datatype Wish = Nothing | Wants(lock: Lock)

  predicate Shaped(db: Db, x: Txn) {
    match x.phase
    case Line(i, _) => x.call.ReserveCall? && i <= |x.call.items|
    case Locked(i, _, _) => x.call.ReserveCall? && i < |x.call.items| && Locks(db, x.call.items[i])
    case Saved(i, _, _) => x.call.ReserveCall? && i < |x.call.items| && Locks(db, x.call.items[i])
    case ReplayCheck => x.call.ReserveCall?
    case Select => x.call.ReleaseCall?
    case LockRows(_, snap, i, kept) =>
      x.call.ReleaseCall? && i <= |snap| && ValidIds(db.rows, snap) && ValidIds(db.rows, kept)
    case AddBack(_, snap, kept, j, _) =>
      x.call.ReleaseCall? && j <= |kept| && ValidIds(db.rows, snap) && ValidIds(db.rows, kept)
    case MarkRow(_, snap, kept, j, _) =>
      x.call.ReleaseCall? && j < |kept| && ValidIds(db.rows, snap) && ValidIds(db.rows, kept)
    case Answered(_, _) => true
    case Released(_, _) => true
    case Crashed => true
  }

  function WishOf(db: Db, x: Txn): Wish
    requires Shaped(db, x)
  {
    match x.phase
    case Line(i, _) =>
      if i < |x.call.items| && Locks(db, x.call.items[i]) then Wants(ProductLock(x.call.items[i].product)) else Nothing
    case LockRows(_, snap, i, _) =>
      if i < |snap| then Wants(RowLock(db.rows[snap[i]].product, snap[i])) else Nothing
    case AddBack(_, _, kept, j, _) =>
      if j < |kept| && db.rows[kept[j]].product in db.stock
      then Wants(ProductLock(db.rows[kept[j]].product)) else Nothing
    case _ => Nothing
  }

  /** Can transaction `t` take its next step? Only a lock can stop it. */
  predicate Enabled(s: State, t: int) {
    && t in s.txns
    && Shaped(s.db, s.txns[t])
    && !Finished(s.txns[t].phase)
    && var wish := WishOf(s.db, s.txns[t]);
       wish.Wants? ==> Free(s.locks, wish.lock, t)
  }

  function Move(s: State, t: int, ph: Phase): State
    requires t in s.txns
  {
    s.(txns := s.txns[t := s.txns[t].(phase := ph)])
  }

  /** Finish `t`: its outcome is decided, its writes are visible, its locks gone. */
  function Finish(s: State, t: int, db: Db, ph: Phase, e: Event): State
    requires t in s.txns
  {
    State(db, Unlock(s.locks, t), s.txns[t := s.txns[t].(phase := ph)], s.log + [e])
  }

  /** Acquire the lock the step asked for. */
  function Acquire(s: State, t: int): State
    requires Enabled(s, t)
  {
    var wish := WishOf(s.db, s.txns[t]);
    if wish.Wants? then s.(locks := s.locks[wish.lock := t]) else s
  }

  function StepReserve(s: State, t: int): State
    requires Enabled(s, t) && s.txns[t].call.ReserveCall?
  {
    var ReserveCall(ref, items, key) := s.txns[t].call;
    match s.txns[t].phase
    case ReplayCheck =>
      if items == [] then Finish(s, t, s.db, Answered(ReservationOutcome(false, []), |s.log|), Refused(t))
      else if key != "" && HasActive(s.db.rows, key) then
        var out := ReservationOutcome(true, Replay(s.db.rows, key));
        Finish(s, t, s.db, Answered(out, |s.log|), Replayed(t, key, out))
      else s.(txns := s.txns[t := Txn(s.txns[t].call, Line(0, NoWork), |s.log|)])
    case Line(i, w) =>
      if i == |items| then
        var (db', out) := Conclude(s.db, Going(w), items);
        Finish(s, t, db', Answered(out, |s.log|), Body(t, ref, key, items, out, s.txns[t].checked))
      else
        var x := items[i];
        if x.quantity <= 0 then Move(s, t, Line(i + 1, Fail(w, x.product, NonPositive)))
        else if x.product !in s.db.stock then Move(s, t, Line(i + 1, Fail(w, x.product, NotFound)))
        else Move(Acquire(s, t), t, Locked(i, w, Avail(s.db, w.dirty, x.product)))
    case Locked(i, w, avail) =>
      var x := items[i];
      if avail < x.quantity then Move(s, t, Line(i + 1, Fail(w, x.product, Insufficient)))
      else Move(s, t, Saved(i, w, w.dirty[x.product := avail - x.quantity]))
    case Saved(i, w, dirty) =>
      var x := items[i];
      if Clash(s.db.rows, key, x.product) || Clash(w.added, key, x.product) then
        var (db', out) := Conclude(s.db, Clashed, items);
        Finish(s, t, db', Answered(out, |s.log|), Body(t, ref, key, items, out, s.txns[t].checked))
      else Move(s, t, Line(i + 1, Take(w, dirty, ref, key, x)))
    case _ => s
  }

  function StepRelease(s: State, t: int): State
    requires Enabled(s, t) && s.txns[t].call.ReleaseCall?
  {
    var ref := s.txns[t].call.ref;
    match s.txns[t].phase
    case Select => Move(s, t, LockRows(|s.log|, HeldIds(s.db.rows, ref), 0, []))
    case LockRows(since, snap, i, kept) =>
      if i == |snap| then Move(s, t, AddBack(since, snap, kept, 0, map[]))
      else
        var again := if s.db.rows[snap[i]].status == RESERVED then [snap[i]] else [];
        Move(Acquire(s, t), t, LockRows(since, snap, i + 1, kept + again))
    case AddBack(since, snap, kept, j, dirty) =>
      if j == |kept| then
        Finish(s, t, Db(s.db.stock + dirty, Flip(s.db.rows, kept)), Released(|kept|, |s.log|),
               GaveBack(t, ref, since, kept))
      else
        var r := s.db.rows[kept[j]];
        var dirty' := if r.product in s.db.stock
                      then dirty[r.product := Avail(s.db, dirty, r.product) + r.quantity] else dirty;
        Move(Acquire(s, t), t, MarkRow(since, snap, kept, j, dirty'))
    case MarkRow(since, snap, kept, j, dirty) => Move(s, t, AddBack(since, snap, kept, j + 1, dirty))
    case _ => s
  }

  function Step(s: State, t: int): State
    requires Enabled(s, t)
  {
    if s.txns[t].call.ReserveCall? then StepReserve(s, t) else StepRelease(s, t)
  }

  /** A request arrives, a transaction takes a step, or its connection dies. */
  datatype Action =
    | BeginReserve(t: int, ref: string, items: seq<Item>, key: string)
    | BeginRelease(t: int, ref: string)
    | Go(t: int)
    | Crash(t: int)

  predicate Allowed(s: State, a: Action) {
    match a
    case BeginReserve(t, _, _, _) => t !in s.txns
    case BeginRelease(t, _) => t !in s.txns
    case Go(t) => Enabled(s, t)
    case Crash(t) => t in s.txns && !Finished(s.txns[t].phase)
  }

  function Next(s: State, a: Action): State
    requires Allowed(s, a)
  {
    match a
    case BeginReserve(t, ref, items, key) =>
      s.(txns := s.txns[t := Txn(ReserveCall(ref, SortByProduct(items), key), ReplayCheck, 0)])
    case BeginRelease(t, ref) => s.(txns := s.txns[t := Txn(ReleaseCall(ref), Select, 0)])
    case Go(t) => Step(s, t)
    case Crash(t) => State(s.db, Unlock(s.locks, t), s.txns[t := s.txns[t].(phase := Crashed)], s.log)
  }

  /** The state after a run, if every action of it was allowed. */
  datatype Ran = Stuck | Reached(s: State)

  function Run(db: Db, acts: seq<Action>): Ran {
    if acts == [] then Reached(Start(db))
    else
      match Run(db, acts[..|acts| - 1])
      case Stuck => Stuck
      case Reached(s) => if Allowed(s, acts[|acts| - 1]) then Reached(Next(s, acts[|acts| - 1])) else Stuck
  }

  // ---------------------------------------------------------------- the serial reference

  /** The tables after the first `n` events, run one at a time. */
  function After(db: Db, log: seq<Event>, n: nat): Db
    requires n <= |log|
  {
    if n == 0 then db
    else
      var prev := After(db, log, n - 1);
      match log[n - 1]
      case Refused(_) => prev
      case Replayed(_, _, _) => prev
      case Body(_, ref, key, items, _, _) => ReserveBody(prev, ref, key, items).0
      case GaveBack(_, _, _, ids) => if ValidIds(prev.rows, ids) then ReleaseIds(prev, ids) else prev
  }

  /** Is event `n` what its operation does when run alone at that point? A reserve
      body found no active rows of its key when it made its check; a release gives
      back the rows that were RESERVED when its statement began and still are when
      it finishes. */
  ghost predicate Explained(db: Db, log: seq<Event>, n: nat)
    requires n < |log|
  {
    var prev := After(db, log, n);
    match log[n]
    case Refused(_) => true
    case Replayed(_, key, out) =>
      key != "" && HasActive(prev.rows, key) && out == ReservationOutcome(true, Replay(prev.rows, key))
    case Body(_, ref, key, items, out, since) =>
      && items != [] && out == ReserveBody(prev, ref, key, items).1
      && since <= n && !(key != "" && HasActive(After(db, log, since).rows, key))
    case GaveBack(_, ref, since, ids) =>
      && since <= n
      && var snap := HeldIds(After(db, log, since).rows, ref);
         ValidIds(prev.rows, snap) && ids == StillHeld(prev.rows, snap, |snap|)
  }
}
