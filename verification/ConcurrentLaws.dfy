/** What every interleaving of reserves and releases guarantees. */
module ConcurrentLaws {
  import opened Totals
  import opened Inventory
  import opened InventoryLaws
  import opened StockLaws
  import opened Concurrent
  import opened ConcurrentInv
  import opened ConcurrentSteps

  // ---------------------------------------------------------------- serializability

  /** Is `out` what this reserve answers when its body runs alone on `db`, or
      what it replays or refuses without running a body? */
  ghost predicate AnswersAlone(db: Db, call: Call, out: ReservationOutcome)
    requires call.ReserveCall?
  {
    if call.items == [] then out == ReservationOutcome(false, [])
    else
      || (call.key != "" && HasActive(db.rows, call.key) && out == ReservationOutcome(true, Replay(db.rows, call.key)))
      || out == ReserveBody(db, call.ref, call.key, call.items).1
  }

  /** The phase of a transaction that finished as event `n`. */
  ghost predicate DoneAt(ph: Phase, n: nat) {
    (ph.Answered? && ph.at == n) || (ph.Released? && ph.at == n)
  }

  /** Each event belongs to the transaction it names, which finished as it. */
  ghost predicate EventsOwned(s: State) {
    forall n | 0 <= n < |s.log| :: s.log[n].txn in s.txns && DoneAt(s.txns[s.log[n].txn].phase, n)
  }

  /** `s'` has at most one event more, of a transaction that finished as it, and whoever
      had finished is as before. */
  ghost predicate OneEventMore(s: State, s': State) {
    var n := |s.log|;
    && s.log <= s'.log && |s'.log| <= n + 1
    && (|s'.log| == n + 1 ==> s'.log[n].txn in s'.txns && DoneAt(s'.txns[s'.log[n].txn].phase, n))
    && forall t | t in s.txns && Finished(s.txns[t].phase) :: t in s'.txns && s'.txns[t] == s.txns[t]
  }

  lemma ReserveEvent(s: State, t: int)
    requires Enabled(s, t) && s.txns[t].call.ReserveCall?
    ensures OneEventMore(s, StepReserve(s, t))
  {}

  lemma ReleaseEvent(s: State, t: int)
    requires Enabled(s, t) && s.txns[t].call.ReleaseCall?
    ensures OneEventMore(s, StepRelease(s, t))
  {}

  lemma NextEvent(s: State, a: Action)
    requires Allowed(s, a)
    ensures OneEventMore(s, Next(s, a))
  {
    if a.Go? {
      if s.txns[a.t].call.ReserveCall? {
        ReserveEvent(s, a.t);
      } else {
        ReleaseEvent(s, a.t);
      }
    }
  }

  lemma NextKeepsEventsOwned(s: State, a: Action)
    requires EventsOwned(s) && Allowed(s, a)
    ensures EventsOwned(Next(s, a))
  {
    NextEvent(s, a);
    forall n | 0 <= n < |s.log|
      ensures Finished(s.txns[s.log[n].txn].phase)
    {
      assert DoneAt(s.txns[s.log[n].txn].phase, n);
    }
  }

  lemma {:induction false} RunKeepsEventsOwned(db0: Db, acts: seq<Action>)
    requires Run(db0, acts).Reached?
    ensures EventsOwned(Run(db0, acts).s)
  {
    if acts != [] {
      var n := |acts| - 1;
      RunKeepsEventsOwned(db0, acts[..n]);
      NextKeepsEventsOwned(Run(db0, acts[..n]).s, acts[n]);
    }
  }

  /** A finished reserve answered what it answers alone at its place in the log. */
  ghost predicate ReserveSerial(db0: Db, log: seq<Event>, x: Txn) {
    x.phase.Answered? ==>
      && x.call.ReserveCall? && x.phase.at < |log|
      && AnswersAlone(After(db0, log, x.phase.at), x.call, x.phase.out)
  }

  lemma TxnSerial(db0: Db, s: State, t: int)
    requires Inv(db0, s) && t in s.txns
    ensures DoneInv(s.log, t, s.txns[t].call, s.txns[t].phase)
    ensures ReserveSerial(db0, s.log, s.txns[t])
  {
    assert TxnInv(db0, s, t);
    if s.txns[t].phase.Answered? {
      assert Explained(db0, s.log, s.txns[t].phase.at);
    }
  }

  /** Any interleaving leaves the tables that its events leave when run one at
      a time in finishing order. The events are the finished transactions, each
      once, with its own request and the answer it gave; every reserve got the
      answer its body gives alone at its place in that order, and every release
      returned the rows that were RESERVED for its order when its statement began
      and still were at its place. */
  lemma Serializability(db0: Db, acts: seq<Action>)
    requires WellFormed(db0) && Run(db0, acts).Reached?
    ensures var s := Run(db0, acts).s;
            && s.db == After(db0, s.log, |s.log|)
            && EventsOwned(s)
            && (forall n | 0 <= n < |s.log| :: Explained(db0, s.log, n))
            && (forall t | t in s.txns ::
                  && DoneInv(s.log, t, s.txns[t].call, s.txns[t].phase)
                  && ReserveSerial(db0, s.log, s.txns[t]))
  {
    RunKeepsInv(db0, acts);
    RunKeepsEventsOwned(db0, acts);
    var s := Run(db0, acts).s;
    forall t | t in s.txns
      ensures DoneInv(s.log, t, s.txns[t].call, s.txns[t].phase) && ReserveSerial(db0, s.log, s.txns[t])
    {
      TxnSerial(db0, s, t);
    }
  }

  /** In every reachable state stock plus reservations is what it was, so
      0 <= available <= initial, however the transactions interleave or die. */
  lemma ConcurrentConservation(db0: Db, acts: seq<Action>, p: int)
    requires WellFormed(db0) && Run(db0, acts).Reached? && p in db0.stock
    ensures var db := Run(db0, acts).s.db;
            && WellFormed(db) && p in db.stock
            && db.stock[p] + Total(db.rows, Held(p)) == db0.stock[p] + Total(db0.rows, Held(p))
            && 0 <= db.stock[p] <= db0.stock[p] + Total(db0.rows, Held(p))
  {
    RunKeepsInv(db0, acts);
    HeldBounds(Run(db0, acts).s.db);
  }

  // ---------------------------------------------------------------- the serial history

  /** Rows of the tables at `m`, seen at `n`: same row, perhaps since RELEASED. */
  ghost predicate Aged(rows: seq<Row>, rows': seq<Row>) {
    && |rows| <= |rows'|
    && forall i | 0 <= i < |rows| ::
         rows'[i] == rows[i] || rows'[i] == rows[i].(status := RELEASED)
  }

  lemma AgedTransitive(a: seq<Row>, b: seq<Row>, c: seq<Row>)
    requires Aged(a, b) && Aged(b, c)
    ensures Aged(a, c)
  {
    forall i | 0 <= i < |a|
      ensures c[i] == a[i] || c[i] == a[i].(status := RELEASED)
    {
      assert b[i] == a[i] || b[i] == a[i].(status := RELEASED);
    }
  }

  lemma {:induction false} AfterAged(db0: Db, log: seq<Event>, m: nat, n: nat)
    requires m <= n <= |log|
    ensures Aged(After(db0, log, m).rows, After(db0, log, n).rows)
  {
    if m < n {
      AfterAged(db0, log, m, n - 1);
      var prev := After(db0, log, n - 1);
      match log[n - 1]
      case Body(_, ref, key, items, _, _) =>
        BodyEffect(prev, ref, key, items);
        AgedTransitive(After(db0, log, m).rows, prev.rows, After(db0, log, n).rows);
      case GaveBack(_, _, _, ids) =>
        AgedTransitive(After(db0, log, m).rows, prev.rows, After(db0, log, n).rows);
      case _ =>
    }
  }

  lemma SnapAged(rows: seq<Row>, rows': seq<Row>, snap: seq<nat>)
    requires Aged(rows, rows') && ValidIds(rows, snap) && IdsSorted(rows, snap)
    ensures ValidIds(rows', snap) && IdsSorted(rows', snap)
  {
    forall k | 0 <= k < |snap|
      ensures rows'[snap[k]].product == rows[snap[k]].product
    {}
    forall i, j | 0 <= i < j < |snap|
      ensures Before(rows', snap[i], snap[j])
    {
      assert Before(rows, snap[i], snap[j]);
    }
  }

  /** The rows a release event returns: distinct, RESERVED, of its order. */
  lemma GaveBackIds(db0: Db, log: seq<Event>, n: nat)
    requires n < |log| && log[n].GaveBack? && Explained(db0, log, n)
    ensures var rows := After(db0, log, n).rows;
            var ids := log[n].ids;
            && ValidIds(rows, ids) && IdsSorted(rows, ids) && Distinct(ids)
            && (forall id | id in ids :: IsHeldFor(rows[id], log[n].ref))
            && log[n].since <= n
            && var snap := HeldIds(After(db0, log, log[n].since).rows, log[n].ref);
               (forall id | id in snap && rows[id].status == RESERVED :: id in ids)
  {
    var GaveBack(_, ref, since, ids) := log[n];
    var then0, now := After(db0, log, since).rows, After(db0, log, n).rows;
    var snap := HeldIds(then0, ref);
    HeldIdsSpec(then0, ref, One());
    AfterAged(db0, log, since, n);
    SnapAged(then0, now, snap);
    StillHeldSpec(now, snap, |snap|);
    SortedIdsDistinct(now, ids);
    forall id | id in ids
      ensures IsHeldFor(now[id], ref)
    {
      var k :| 0 <= k < |snap| && snap[k] == id;
      assert snap[k] in snap && IsHeldFor(then0[id], ref);
    }
  }

  // ---------------------------------------------------------------- concurrent releases

  /** Rows a release event returned, if it is one for this order. */
  function CountFor(ref: string): Event -> int {
    (e: Event) => if e.GaveBack? && e.ref == ref then |e.ids| else 0
  }

  function ReleasedOne(ref: string): Row -> int {
    (r: Row) => if r.orderRef == ref && r.status == RELEASED then 1 else 0
  }

  function OfOrder(ref: string): Row -> int { (r: Row) => if r.orderRef == ref then 1 else 0 }

  lemma ReleasedCount(rows: seq<Row>, ref: string)
    ensures Total(rows, OfOrder(ref)) == Total(rows, For(ref, One())) + Total(rows, ReleasedOne(ref))
  {
    forall r | r in rows
      ensures OfOrder(ref)(r) == For(ref, One())(r) + ReleasedOne(ref)(r)
    {
      assert IsHeldFor(r, ref) <==> r.orderRef == ref && r.status == RESERVED;
    }
    TotalSplit(rows, For(ref, One()), ReleasedOne(ref), OfOrder(ref));
  }

  lemma GiveBackCounts(db: Db, ids: seq<nat>, of: string, ref: string)
    requires ValidIds(db.rows, ids) && Distinct(ids)
    requires forall id | id in ids :: IsHeldFor(db.rows[id], of)
    ensures Total(ReleaseIds(db, ids).rows, ReleasedOne(ref)) ==
            Total(db.rows, ReleasedOne(ref)) + if of == ref then |ids| else 0
  {
    var rows' := ReleaseIds(db, ids).rows;
    ReleasedCount(db.rows, ref);
    ReleasedCount(rows', ref);
    TotalAligned(rows', db.rows, OfOrder(ref), OfOrder(ref));
    forall r: Row | r.status == RELEASED
      ensures For(ref, One())(r) == 0
    {
      assert !IsHeldFor(r, ref);
    }
    FlipTotal(db.rows, ids, For(ref, One()));
    forall id | id in ids
      ensures At(db.rows, For(ref, One()))(id) == if of == ref then 1 else 0
    {
      assert IsHeldFor(db.rows[id], ref) <==> of == ref;
    }
    if of == ref {
      TotalOne(ids, At(db.rows, For(ref, One())));
    } else {
      TotalZero(ids, At(db.rows, For(ref, One())));
    }
  }

  lemma {:induction false} ReleasedByEvents(db0: Db, log: seq<Event>, n: nat, ref: string)
    requires n <= |log|
    requires forall k | 0 <= k < |log| :: Explained(db0, log, k)
    ensures Total(After(db0, log, n).rows, ReleasedOne(ref)) ==
            Total(db0.rows, ReleasedOne(ref)) + Total(log[..n], CountFor(ref))
  {
    if n > 0 {
      ReleasedByEvents(db0, log, n - 1, ref);
      TotalSnoc(log, n - 1, CountFor(ref));
      var prev := After(db0, log, n - 1);
      match log[n - 1]
      case Body(_, of, key, items, _, _) =>
        BodyEffect(prev, of, key, items);
        TotalConcat(prev.rows, RowsFor(of, key, items), ReleasedOne(ref));
        TotalZero(RowsFor(of, key, items), ReleasedOne(ref));
      case GaveBack(_, of, _, ids) =>
        GaveBackIds(db0, log, n - 1);
        GiveBackCounts(prev, ids, of, ref);
      case _ =>
    }
  }

  ghost predicate IsReturned(rows: seq<Row>, id: nat) { id < |rows| && rows[id].status == RELEASED }

  lemma ReturnedNext(db0: Db, log: seq<Event>, m: nat, id: nat)
    requires m < |log| && log[m].GaveBack?
    requires ValidIds(After(db0, log, m).rows, log[m].ids) && id in log[m].ids
    ensures IsReturned(After(db0, log, m + 1).rows, id)
  {
    var k :| 0 <= k < |log[m].ids| && log[m].ids[k] == id;
  }

  lemma ReturnedStays(db0: Db, log: seq<Event>, m: nat, n: nat, id: nat)
    requires m < n < |log| && log[m].GaveBack?
    requires ValidIds(After(db0, log, m).rows, log[m].ids) && id in log[m].ids
    ensures IsReturned(After(db0, log, n).rows, id)
  {
    ReturnedNext(db0, log, m, id);
    AfterAged(db0, log, m + 1, n);
    assert Aged(After(db0, log, m + 1).rows, After(db0, log, n).rows);
  }

  /** Once an event has returned a row, no later event returns it again. */
  lemma ReturnedOnce(db0: Db, log: seq<Event>, m: nat, n: nat)
    requires m < n < |log| && log[m].GaveBack? && log[n].GaveBack?
    requires Explained(db0, log, m) && Explained(db0, log, n)
    ensures forall id | id in log[m].ids :: id !in log[n].ids
  {
    GaveBackIds(db0, log, m);
    GaveBackIds(db0, log, n);
    forall id | id in log[m].ids
      ensures id !in log[n].ids
    {
      ReturnedStays(db0, log, m, n, id);
    }
  }

  /** However many releases of an order overlap, each of its rows is returned by
      at most one of them, and the counts they report add up to the rows that
      went from RESERVED to RELEASED. */
  lemma ConcurrentRelease(db0: Db, acts: seq<Action>, ref: string)
    requires WellFormed(db0) && Run(db0, acts).Reached?
    ensures var s := Run(db0, acts).s;
            && Total(s.db.rows, ReleasedOne(ref)) == Total(db0.rows, ReleasedOne(ref)) + Total(s.log, CountFor(ref))
            && (forall m, n | 0 <= m < n < |s.log| && s.log[m].GaveBack? && s.log[n].GaveBack? ::
                  forall id | id in s.log[m].ids :: id !in s.log[n].ids)
  {
    RunKeepsInv(db0, acts);
    var s := Run(db0, acts).s;
    ReleasedByEvents(db0, s.log, |s.log|, ref);
    assert s.log[..|s.log|] == s.log;
    forall m, n | 0 <= m < n < |s.log| && s.log[m].GaveBack? && s.log[n].GaveBack?
      ensures forall id | id in s.log[m].ids :: id !in s.log[n].ids
    {
      ReturnedOnce(db0, s.log, m, n);
    }
  }
}
