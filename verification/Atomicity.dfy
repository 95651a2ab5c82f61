/** When a reserve or a release that runs among other transactions is the atomic
    operation, so that a whole run is a sequence of atomic operations, and a run
    in which a release is not. */
module Atomicity {
  import opened Inventory
  import opened InventoryLaws
  import opened StockLaws
  import opened Concurrent
  import opened ConcurrentInv
  import opened ConcurrentSteps
  import opened ConcurrentLaws

  // ---------------------------------------------------------------- reserves

  ghost predicate SortedCall(c: Call) { c.ReserveCall? ==> Sorted(c.items) }

  lemma {:induction false} CallsSorted(db0: Db, acts: seq<Action>)
    requires Run(db0, acts).Reached?
    ensures forall t | t in Run(db0, acts).s.txns :: SortedCall(Run(db0, acts).s.txns[t].call)
  {
    if acts != [] {
      var n := |acts| - 1;
      CallsSorted(db0, acts[..n]);
      var s := Run(db0, acts[..n]).s;
      if acts[n].BeginReserve? {
        SortSpec(acts[n].items);
      }
      forall t | t in Next(s, acts[n]).txns
        ensures SortedCall(Next(s, acts[n]).txns[t].call)
      {
        assert t in s.txns ==> Next(s, acts[n]).txns[t].call == s.txns[t].call;
      }
    }
  }

  /** Event `n` is the atomic reserve, replay check included, at its place in the log. */
  ghost predicate AtomicReserve(db0: Db, log: seq<Event>, n: nat)
    requires n < |log| && log[n].Body?
  {
    Reserve(After(db0, log, n), log[n].ref, log[n].items, log[n].key) == (After(db0, log, n + 1), log[n].out)
  }

  /** The body alone does what the whole operation does exactly when the key has
      no active rows; under an active key it can only be refused. */
  lemma BodyVersusReplay(db: Db, ref: string, items: seq<Item>, key: string)
    requires items != [] && Sorted(items)
    ensures ReserveBody(db, ref, key, items) == Reserve(db, ref, items, key) <==> FreshKey(db, key)
  {
    SortedFixed(items);
    if !FreshKey(db, key) {
      BodyEffect(db, ref, key, items);
      if ReserveBody(db, ref, key, items).1.success {
        assert |ReserveBody(db, ref, key, items).0.rows| > |db.rows|;
      }
    }
  }

  lemma BodyEventItems(db0: Db, acts: seq<Action>, n: nat)
    requires WellFormed(db0) && Run(db0, acts).Reached?
    requires n < |Run(db0, acts).s.log| && Run(db0, acts).s.log[n].Body?
    ensures Explained(db0, Run(db0, acts).s.log, n) && Sorted(Run(db0, acts).s.log[n].items)
  {
    var s := Run(db0, acts).s;
    RunKeepsInv(db0, acts);
    RunKeepsEventsOwned(db0, acts);
    CallsSorted(db0, acts);
    var t := s.log[n].txn;
    assert TxnInv(db0, s, t) && DoneAt(s.txns[t].phase, n) && SortedCall(s.txns[t].call);
  }

  /** In any run, a reserve that ran its body is the atomic reserve at its place in
      the finishing order exactly when its key had no active rows there: the
      replay check came earlier, so a duplicate that raced it is refused, not
      replayed. */
  lemma ReserveAtomicIff(db0: Db, acts: seq<Action>, n: nat)
    requires WellFormed(db0) && Run(db0, acts).Reached?
    requires n < |Run(db0, acts).s.log| && Run(db0, acts).s.log[n].Body?
    ensures var log := Run(db0, acts).s.log;
            AtomicReserve(db0, log, n) <==> FreshKey(After(db0, log, n), log[n].key)
  {
    BodyEventItems(db0, acts, n);
    var log := Run(db0, acts).s.log;
    BodyVersusReplay(After(db0, log, n), log[n].ref, log[n].items, log[n].key);
  }

  ghost predicate Keys(e: Event, key: string) { e.Body? && e.key == key && e.out.success }

  /** Only a successful reserve of the key makes rows of it active. */
  lemma StaysFresh(db0: Db, log: seq<Event>, n: nat, key: string)
    requires n < |log| && Explained(db0, log, n) && (key != "" ==> !Keys(log[n], key))
    requires FreshKey(After(db0, log, n), key)
    ensures FreshKey(After(db0, log, n + 1), key)
  {
    var prev := After(db0, log, n).rows;
    match log[n]
    case Body(_, ref, of, items, _, _) =>
      BodyEffect(After(db0, log, n), ref, of, items);
    case GaveBack(_, _, _, ids) =>
      forall i | 0 <= i < |prev| && key != ""
        ensures !IsActive(Flip(prev, ids)[i], key)
      {
        assert !IsActive(prev[i], key);
      }
    case _ =>
  }

  lemma {:induction false} FreshUntil(db0: Db, log: seq<Event>, m: nat, n: nat, key: string)
    requires m <= n <= |log| && FreshKey(After(db0, log, m), key)
    requires forall k | m <= k < n :: Explained(db0, log, k) && (key != "" ==> !Keys(log[k], key))
    ensures FreshKey(After(db0, log, n), key)
  {
    if m < n {
      FreshUntil(db0, log, m, n - 1, key);
      StaysFresh(db0, log, n - 1, key);
    }
  }

  /** So a reserve is atomic if no other successful reserve of its key finishes
      between its replay check and its own end. */
  lemma UndisturbedReserve(db0: Db, acts: seq<Action>, n: nat)
    requires WellFormed(db0) && Run(db0, acts).Reached?
    requires var log := Run(db0, acts).s.log;
             && n < |log| && log[n].Body?
             && (log[n].key != "" ==> forall k | log[n].since <= k < n :: !Keys(log[k], log[n].key))
    ensures AtomicReserve(db0, Run(db0, acts).s.log, n)
  {
    var log := Run(db0, acts).s.log;
    RunKeepsInv(db0, acts);
    BodyEventItems(db0, acts, n);
    FreshUntil(db0, log, log[n].since, n, log[n].key);
    ReserveAtomicIff(db0, acts, n);
  }

  // ---------------------------------------------------------------- sorted selections are unique

  lemma SameLeast(rows: seq<Row>, a: seq<nat>, b: seq<nat>)
    requires ValidIds(rows, a) && ValidIds(rows, b) && IdsSorted(rows, a) && IdsSorted(rows, b)
    requires a != [] && b != [] && a[0] in b && b[0] in a
    ensures a[0] == b[0]
  {
    assert forall i | 0 < i < |a| :: Before(rows, a[0], a[i]);
    assert forall j | 0 < j < |b| :: Before(rows, b[0], b[j]);
  }

  lemma {:induction false} SortedUnique(rows: seq<Row>, a: seq<nat>, b: seq<nat>)
    requires ValidIds(rows, a) && ValidIds(rows, b) && IdsSorted(rows, a) && IdsSorted(rows, b)
    requires forall x :: x in a <==> x in b
    ensures a == b
  {
    assert forall i | 0 <= i < |a| :: a[i] in b;
    assert forall j | 0 <= j < |b| :: b[j] in a;
    if a != [] {
      SameLeast(rows, a, b);
      SortedIdsDistinct(rows, a);
      SortedIdsDistinct(rows, b);
      forall x
        ensures x in a[1..] <==> x in b[1..]
      {
        assert x in a <==> x == a[0] || x in a[1..];
        assert x in b <==> x == b[0] || x in b[1..];
      }
      SortedUnique(rows, a[1..], b[1..]);
      assert a == [a[0]] + a[1..] && b == [b[0]] + b[1..];
    } else {
      assert |b| == 0;
    }
  }

  // ---------------------------------------------------------------- an undisturbed release is atomic

  ghost predicate Reserves(e: Event, ref: string) { e.Body? && e.ref == ref && e.out.success }

  ghost predicate HeldAt(db0: Db, log: seq<Event>, n: nat, ref: string, id: nat)
    requires n <= |log|
  {
    id < |After(db0, log, n).rows| && IsHeldFor(After(db0, log, n).rows[id], ref)
  }

  /** Only a successful reserve of the order adds to the rows it holds. */
  lemma HeldBefore(db0: Db, log: seq<Event>, n: nat, ref: string, id: nat)
    requires n < |log| && Explained(db0, log, n) && !Reserves(log[n], ref)
    requires HeldAt(db0, log, n + 1, ref, id)
    ensures HeldAt(db0, log, n, ref, id)
  {
    var prev := After(db0, log, n);
    match log[n]
    case Body(_, of, key, items, _, _) => BodyEffect(prev, of, key, items);
    case _ =>
  }

  /** No successful reserve of the order finishes between `m` and `n`. */
  ghost predicate Calm(db0: Db, log: seq<Event>, m: nat, n: nat, ref: string)
    requires n <= |log|
  {
    forall k | m <= k < n :: Explained(db0, log, k) && !Reserves(log[k], ref)
  }

  lemma {:induction false} HeldBack(db0: Db, log: seq<Event>, m: nat, n: nat, ref: string, id: nat)
    requires m <= n <= |log| && Calm(db0, log, m, n, ref) && HeldAt(db0, log, n, ref, id)
    ensures HeldAt(db0, log, m, ref, id)
  {
    if m < n {
      HeldBefore(db0, log, n - 1, ref, id);
      HeldBack(db0, log, m, n - 1, ref, id);
    }
  }

  // ---------------------------------------------------------------- exactly when it is atomic

  /** Event `n` is the atomic release, run at its place in the log. */
  ghost predicate AtomicRelease(db0: Db, log: seq<Event>, n: nat)
    requires n < |log| && log[n].GaveBack?
  {
    Release(After(db0, log, n), log[n].ref) == (After(db0, log, n + 1), |log[n].ids|)
  }

  /** Every row that the order holds when the release finishes was already in
      the table when its statement began. */
  ghost predicate NothingNew(db0: Db, log: seq<Event>, n: nat)
    requires n < |log| && log[n].GaveBack? && log[n].since <= |log|
  {
    var now := After(db0, log, n).rows;
    forall id | 0 <= id < |now| && IsHeldFor(now[id], log[n].ref) :: id < |After(db0, log, log[n].since).rows|
  }

  lemma ReturnsAllHeld(db0: Db, log: seq<Event>, n: nat)
    requires n < |log| && log[n].GaveBack? && Explained(db0, log, n) && NothingNew(db0, log, n)
    ensures log[n].ids == HeldIds(After(db0, log, n).rows, log[n].ref)
  {
    var GaveBack(_, ref, since, ids) := log[n];
    var then0, now := After(db0, log, since).rows, After(db0, log, n).rows;
    GaveBackIds(db0, log, n);
    AfterAged(db0, log, since, n);
    HeldIdsSpec(now, ref, One());
    HeldIdsSpec(then0, ref, One());
    assert forall k | 0 <= k < |ids| :: ids[k] in ids;
    forall id
      ensures id in ids <==> id in HeldIds(now, ref)
    {
      if id in HeldIds(now, ref) {
        assert now[id] == then0[id];
        assert id in HeldIds(then0, ref);
      }
    }
    SortedUnique(now, ids, HeldIds(now, ref));
  }

  lemma OnlySelected(db0: Db, log: seq<Event>, n: nat)
    requires n < |log| && log[n].GaveBack? && Explained(db0, log, n)
    ensures forall id | id in log[n].ids :: id < |After(db0, log, log[n].since).rows|
  {
    var snap := HeldIds(After(db0, log, log[n].since).rows, log[n].ref);
    StillHeldFrom(After(db0, log, n).rows, snap, |snap|);
  }

  /** Returning rows that do not include all that the order holds is not a release. */
  lemma MissedRow(db: Db, ids: seq<nat>, ref: string, id: nat)
    requires ValidIds(db.rows, ids) && id < |db.rows| && IsHeldFor(db.rows[id], ref) && id !in ids
    ensures ReleaseIds(db, ids) != Release(db, ref).0
  {
    ReleaseEffect(db, ref);
    assert ReleaseIds(db, ids).rows[id] == db.rows[id];
  }

  lemma MissesNewRow(db0: Db, log: seq<Event>, n: nat, id: nat)
    requires n < |log| && log[n].GaveBack? && Explained(db0, log, n)
    requires var now := After(db0, log, n).rows; id < |now| && IsHeldFor(now[id], log[n].ref)
    requires |After(db0, log, log[n].since).rows| <= id
    ensures !AtomicRelease(db0, log, n)
  {
    GaveBackIds(db0, log, n);
    OnlySelected(db0, log, n);
    MissedRow(After(db0, log, n), log[n].ids, log[n].ref, id);
  }

  /** In any run, a release is the atomic release at its place in the finishing
      order exactly when its order holds no row inserted since it began. */
  lemma ReleaseAtomicIff(db0: Db, acts: seq<Action>, n: nat)
    requires WellFormed(db0) && Run(db0, acts).Reached?
    requires n < |Run(db0, acts).s.log| && Run(db0, acts).s.log[n].GaveBack?
    ensures var log := Run(db0, acts).s.log;
            && log[n].since <= n
            && (AtomicRelease(db0, log, n) <==> NothingNew(db0, log, n))
  {
    RunKeepsInv(db0, acts);
    var log := Run(db0, acts).s.log;
    assert Explained(db0, log, n);
    if NothingNew(db0, log, n) {
      ReturnsAllHeld(db0, log, n);
    } else {
      var now := After(db0, log, n).rows;
      var id :| 0 <= id < |now| && IsHeldFor(now[id], log[n].ref)
                && !(id < |After(db0, log, log[n].since).rows|);
      MissesNewRow(db0, log, n, id);
    }
  }

  /** So a release that no successful reserve of its own order overtakes is atomic. */
  lemma UndisturbedRelease(db0: Db, acts: seq<Action>, n: nat)
    requires WellFormed(db0) && Run(db0, acts).Reached?
    requires var log := Run(db0, acts).s.log;
             && n < |log| && log[n].GaveBack?
             && (forall k | log[n].since <= k < n :: !Reserves(log[k], log[n].ref))
    ensures AtomicRelease(db0, Run(db0, acts).s.log, n)
  {
    ReleaseAtomicIff(db0, acts, n);
    RunKeepsInv(db0, acts);
    var log := Run(db0, acts).s.log;
    forall id | 0 <= id < |After(db0, log, n).rows| && IsHeldFor(After(db0, log, n).rows[id], log[n].ref)
      ensures id < |After(db0, log, log[n].since).rows|
    {
      HeldBack(db0, log, log[n].since, n, log[n].ref, id);
    }
  }

  // ---------------------------------------------------------------- whole runs

  /** No successful reserve of the same key, or of the same order, finished
      between the first read of the transaction behind event `n` and its end. */
  ghost predicate Undisturbed(log: seq<Event>, n: nat)
    requires n < |log|
  {
    match log[n]
    case Body(_, _, key, _, _, since) => key != "" ==> forall k | since <= k < n :: !Keys(log[k], key)
    case GaveBack(_, ref, since, _) => forall k | since <= k < n :: !Reserves(log[k], ref)
    case _ => true
  }

  function OpOf(c: Call): Op {
    match c
    case ReserveCall(ref, items, key) => DoReserve(ref, items, key)
    case ReleaseCall(ref) => DoRelease(ref)
  }

  /** The requests of the finished transactions, in finishing order. */
  ghost function OpsOf(s: State): seq<Op>
    requires EventsOwned(s)
  {
    seq(|s.log|, n requires 0 <= n < |s.log| => OpOf(s.txns[s.log[n].txn].call))
  }

  /** Does the atomic operation, run on `db`, leave `db'` and answer as `x` did? */
  ghost predicate DoesAlone(db: Db, db': Db, x: Txn) {
    match x.call
    case ReserveCall(ref, items, key) => x.phase.Answered? && Reserve(db, ref, items, key) == (db', x.phase.out)
    case ReleaseCall(ref) => x.phase.Released? && Release(db, ref) == (db', x.phase.count)
  }

  lemma UndisturbedIsAtomic(db0: Db, acts: seq<Action>, n: nat)
    requires WellFormed(db0) && Run(db0, acts).Reached?
    requires n < |Run(db0, acts).s.log| && Undisturbed(Run(db0, acts).s.log, n)
    ensures var s := Run(db0, acts).s;
            && s.log[n].txn in s.txns
            && DoesAlone(After(db0, s.log, n), After(db0, s.log, n + 1), s.txns[s.log[n].txn])
  {
    var s := Run(db0, acts).s;
    Serializability(db0, acts);
    var t := s.log[n].txn;
    assert DoneAt(s.txns[t].phase, n);
    assert DoneInv(s.log, t, s.txns[t].call, s.txns[t].phase);
    assert Explained(db0, s.log, n);
    if s.log[n].Body? {
      UndisturbedReserve(db0, acts, n);
    } else if s.log[n].GaveBack? {
      UndisturbedRelease(db0, acts, n);
    }
  }

  lemma {:induction false} RunIsSequence(db0: Db, acts: seq<Action>, n: nat)
    requires WellFormed(db0) && Run(db0, acts).Reached? && EventsOwned(Run(db0, acts).s)
    requires n <= |Run(db0, acts).s.log|
    requires forall k | 0 <= k < n :: Undisturbed(Run(db0, acts).s.log, k)
    ensures var s := Run(db0, acts).s; ApplyAll(db0, OpsOf(s)[..n]) == After(db0, s.log, n)
  {
    if n > 0 {
      var ops := OpsOf(Run(db0, acts).s);
      RunIsSequence(db0, acts, n - 1);
      UndisturbedIsAtomic(db0, acts, n - 1);
      assert ops[..n][..n - 1] == ops[..n - 1];
    }
  }

  /** Unless a duplicate or a release of the same order was overtaken, a concurrent
      run is a sequence of atomic operations: same tables, and every transaction
      answered what its operation answers at its place in that sequence. */
  lemma UndisturbedRun(db0: Db, acts: seq<Action>)
    requires WellFormed(db0) && Run(db0, acts).Reached?
    requires forall n | 0 <= n < |Run(db0, acts).s.log| :: Undisturbed(Run(db0, acts).s.log, n)
    ensures var s := Run(db0, acts).s;
            && EventsOwned(s)
            && s.db == ApplyAll(db0, OpsOf(s))
            && forall n | 0 <= n < |s.log| ::
                 DoesAlone(ApplyAll(db0, OpsOf(s)[..n]), ApplyAll(db0, OpsOf(s)[..n + 1]), s.txns[s.log[n].txn])
  {
    var s := Run(db0, acts).s;
    Serializability(db0, acts);
    forall n | 0 <= n < |s.log|
      ensures DoesAlone(ApplyAll(db0, OpsOf(s)[..n]), ApplyAll(db0, OpsOf(s)[..n + 1]), s.txns[s.log[n].txn])
    {
      RunIsSequence(db0, acts, n);
      RunIsSequence(db0, acts, n + 1);
      UndisturbedIsAtomic(db0, acts, n);
    }
    RunIsSequence(db0, acts, |s.log|);
    assert OpsOf(s)[..|s.log|] == OpsOf(s);
  }

  // ---------------------------------------------------------------- a release that is overtaken

  const Stocked := Db(map[1 := 1], [])
  const Unit := [Item(1, 1)]
  const UnitRow := Row(1, "k", "", 1, RESERVED)
  const UnitTaken := ReservationOutcome(true, [ItemOutcome(1, Taken)])

  function Reserving(ph: Phase): Txn { Txn(ReserveCall("k", Unit, ""), ph, 0) }

  function Releasing(ph: Phase): Txn { Txn(ReleaseCall("k"), ph, 0) }

  lemma RunOn(db: Db, acts: seq<Action>, a: Action) returns (r: seq<Action>)
    requires Run(db, acts).Reached? && Allowed(Run(db, acts).s, a)
    ensures Run(db, r) == Reached(Next(Run(db, acts).s, a))
  {
    r := acts + [a];
    assert r[..|acts|] == acts;
  }

  /** The release has selected its rows, none, when the reserve arrives. */
  lemma SelectsNothing() returns (acts: seq<Action>)
    ensures Run(Stocked, acts) ==
            Reached(State(Stocked, map[], map[1 := Releasing(LockRows(0, [], 0, [])), 2 := Reserving(ReplayCheck)], []))
  {
    acts := RunOn(Stocked, [], BeginRelease(1, "k"));
    acts := RunOn(Stocked, acts, Go(1));
    assert SortByProduct(Unit) == Unit by { assert Unit[1..] == []; }
    acts := RunOn(Stocked, acts, BeginReserve(2, "k", Unit, ""));
  }

  lemma LocksTheUnit() returns (acts: seq<Action>)
    ensures Run(Stocked, acts) ==
            Reached(State(Stocked, map[ProductLock(1) := 2],
                          map[1 := Releasing(LockRows(0, [], 0, [])), 2 := Reserving(Locked(0, NoWork, 1))], []))
  {
    acts := SelectsNothing();
    acts := RunOn(Stocked, acts, Go(2));
    acts := RunOn(Stocked, acts, Go(2));
  }

  lemma InsertsTheRow() returns (acts: seq<Action>)
    ensures Run(Stocked, acts) ==
            Reached(State(Stocked, map[ProductLock(1) := 2],
                          map[1 := Releasing(LockRows(0, [], 0, [])),
                              2 := Reserving(Line(1, Work(map[1 := 0], [UnitRow], [ItemOutcome(1, Taken)], true)))],
                          []))
  {
    acts := LocksTheUnit();
    assert NoWork.dirty[1 := 0] == map[1 := 0];
    assert Take(NoWork, map[1 := 0], "k", "", Unit[0]) == Work(map[1 := 0], [UnitRow], [ItemOutcome(1, Taken)], true);
    acts := RunOn(Stocked, acts, Go(2));
    acts := RunOn(Stocked, acts, Go(2));
  }

  lemma ReserveOvertakes() returns (acts: seq<Action>)
    ensures Run(Stocked, acts) ==
            Reached(State(Db(map[1 := 0], [UnitRow]), map[],
                          map[1 := Releasing(LockRows(0, [], 0, [])), 2 := Reserving(Answered(UnitTaken, 0))],
                          [Event.Body(2, "k", "", Unit, UnitTaken, 0)]))
  {
    acts := InsertsTheRow();
    acts := RunOn(Stocked, acts, Go(2));
    assert map[1 := 1] + map[1 := 0] == map[1 := 0];
    assert Unlock(map[ProductLock(1) := 2], 2) == map[];
  }

  lemma ReleaseReturnsNothing() returns (acts: seq<Action>)
    ensures Run(Stocked, acts).Reached?
    ensures var s := Run(Stocked, acts).s;
            && s.db == Db(map[1 := 0], [UnitRow])
            && s.log == [Event.Body(2, "k", "", Unit, UnitTaken, 0), GaveBack(1, "k", 0, [])]
  {
    acts := ReserveOvertakes();
    acts := RunOn(Stocked, acts, Go(1));
    acts := RunOn(Stocked, acts, Go(1));
    assert map[1 := 0] + map[] == map[1 := 0];
    assert Flip([UnitRow], []) == [UnitRow];
  }

  /** The condition does fail: a reserve of the order that commits between the
      release's select and its commit keeps its stock, though it finished first. */
  lemma OvertakenRelease() returns (acts: seq<Action>)
    ensures Run(Stocked, acts).Reached?
    ensures var log := Run(Stocked, acts).s.log;
            && |log| == 2 && log[1] == GaveBack(1, "k", 0, [])
            && !AtomicRelease(Stocked, log, 1)
            && Run(Stocked, acts).s.db == Db(map[1 := 0], [UnitRow])
  {
    acts := ReleaseReturnsNothing();
    var s := Run(Stocked, acts).s;
    RunKeepsInv(Stocked, acts);
    ReleaseAtomicIff(Stocked, acts, 1);
    var now := After(Stocked, s.log, 1).rows;
    assert Flip(now, []) == now;
    assert After(Stocked, s.log, 2) == s.db;
    assert IsHeldFor(now[0], "k");
  }
}
