/** Idempotency under concurrency: one key, any number of attempts and releases. */
module KeyLaws {
  import opened Totals
  import opened Inventory
  import opened InventoryLaws
  import opened StockLaws
  import opened Holdings
  import opened Concurrent
  import opened ConcurrentInv
  import opened ConcurrentSteps
  import opened ConcurrentLaws
  import opened Atomicity

  // ---------------------------------------------------------------- exactly once per key

  /** Every request that uses the key, as key or as order reference, is the one
      attempt: that key for both, and these items. */
  ghost predicate OneAttempt(acts: seq<Action>, key: string, items: seq<Item>) {
    forall a | a in acts && a.BeginReserve? && (a.ref == key || a.key == key) ::
      a.ref == key && a.key == key && a.items == items
  }

  ghost predicate OneAttemptCall(c: Call, key: string, items: seq<Item>) {
    c.ReserveCall? && (c.ref == key || c.key == key) ==>
      c.ref == key && c.key == key && c.items == SortByProduct(items)
  }

  ghost predicate OneAttemptEvent(e: Event, key: string, items: seq<Item>) {
    e.Body? && (e.ref == key || e.key == key) ==>
      e.ref == key && e.key == key && e.items == SortByProduct(items)
  }

  lemma {:induction false} RunCalls(db0: Db, acts: seq<Action>, key: string, items: seq<Item>)
    requires Run(db0, acts).Reached? && OneAttempt(acts, key, items)
    ensures forall t | t in Run(db0, acts).s.txns :: OneAttemptCall(Run(db0, acts).s.txns[t].call, key, items)
  {
    if acts != [] {
      var n := |acts| - 1;
      assert forall a | a in acts[..n] :: a in acts;
      RunCalls(db0, acts[..n], key, items);
      assert acts[n] in acts;
      var s := Run(db0, acts[..n]).s;
      var s' := Next(s, acts[n]);
      forall t | t in s'.txns
        ensures OneAttemptCall(s'.txns[t].call, key, items)
      {
        if t in s.txns {
          assert s'.txns[t].call == s.txns[t].call;
        }
      }
    }
  }

  lemma RunEvents(db0: Db, acts: seq<Action>, key: string, items: seq<Item>)
    requires WellFormed(db0) && Run(db0, acts).Reached? && OneAttempt(acts, key, items)
    ensures forall e | e in Run(db0, acts).s.log :: OneAttemptEvent(e, key, items)
  {
    var s := Run(db0, acts).s;
    RunCalls(db0, acts, key, items);
    RunKeepsInv(db0, acts);
    RunKeepsEventsOwned(db0, acts);
    forall n | 0 <= n < |s.log|
      ensures OneAttemptEvent(s.log[n], key, items)
    {
      var t := s.log[n].txn;
      assert TxnInv(db0, s, t) && DoneAt(s.txns[t].phase, n);
    }
  }

  /** +1 for a committed attempt, -1 for a release that returned something. */
  function Swing(key: string): Event -> int {
    (e: Event) =>
      if e.Body? && e.ref == key && e.out.success then 1
      else if e.GaveBack? && e.ref == key && e.ids != [] then -1
      else 0
  }

  /** The order's rows are keyed by it, and the other way round. */
  ghost predicate KeyIsRef(rows: seq<Row>, key: string) {
    forall r | r in rows :: r.orderRef == key <==> r.key == key
  }

  /** What the order holds: one whole attempt, or nothing. */
  ghost predicate HoldsAttempts(rows: seq<Row>, key: string, items: seq<Item>, b: int) {
    && KeyIsRef(rows, key)
    && (b == 0 || b == 1)
    && HeldBy(rows, key) == if b == 1 then multiset(items) else multiset{}
  }

  /** While the order holds an attempt, another one cannot commit. */
  lemma HeldBlocksAttempt(db: Db, key: string, items: seq<Item>, raw: seq<Item>)
    requires key != "" && items != [] && multiset(items) == multiset(raw)
    requires HoldsAttempts(db.rows, key, raw, 1)
    ensures !ReserveBody(db, key, key, items).1.success
  {
    assert items[..|items|] == items;
    assert items[0] in items && items[0] in multiset(items);
    BagMember(db.rows, key, items[0]);
    var r :| r in db.rows && IsHeldFor(r, key) && r.product == items[0].product;
    assert Clash(db.rows, key, items[0].product);
    if ReserveBody(db, key, key, items).1.success {
      RunLinesNoClash(db, key, key, items, |items|);
    }
  }


  // ---------------------------------------------------------------- releases take a whole attempt

  lemma SameHeld(rows: seq<Row>, rows': seq<Row>, ref: string)
    requires |rows| <= |rows'|
    requires forall i | 0 <= i < |rows| ::
               rows'[i].product == rows[i].product && (IsHeldFor(rows'[i], ref) <==> IsHeldFor(rows[i], ref))
    requires forall i | |rows| <= i < |rows'| :: !IsHeldFor(rows'[i], ref)
    ensures HeldIds(rows', ref) == HeldIds(rows, ref)
  {
    HeldIdsSpec(rows, ref, One());
    HeldIdsSpec(rows', ref, One());
    var ids := HeldIds(rows, ref);
    assert forall k | 0 <= k < |ids| :: ids[k] in ids && ids[k] < |rows|;
    forall i, j | 0 <= i < j < |ids|
      ensures Before(rows', ids[i], ids[j])
    {
      assert Before(rows, ids[i], ids[j]);
    }
    SortedUnique(rows', HeldIds(rows', ref), ids);
  }

  /** A selection made at `since`, seen at `n`: still all that the order holds,
      or returned already, every row of it. */
  ghost predicate Whole(rows: seq<Row>, snap: seq<nat>, key: string) {
    || snap == HeldIds(rows, key)
    || (ValidIds(rows, snap) && forall id | id in snap :: rows[id].status == RELEASED)
  }

  ghost predicate KeyLog(db0: Db, log: seq<Event>, key: string, items: seq<Item>) {
    && WellFormed(db0) && key != "" && items != []
    && (forall r | r in db0.rows :: r.orderRef != key && r.key != key)
    && (forall k | 0 <= k < |log| :: Explained(db0, log, k))
    && (forall e | e in log :: OneAttemptEvent(e, key, items))
  }

  lemma {:induction false} AttemptsAt(db0: Db, log: seq<Event>, n: nat, key: string, items: seq<Item>)
    requires n <= |log| && KeyLog(db0, log, key, items)
    ensures HoldsAttempts(After(db0, log, n).rows, key, items, Total(log[..n], Swing(key)))
    decreases n, 1
  {
    if n == 0 {
      BagEmpty(db0.rows, LineOf(key));
    } else {
      AttemptsAt(db0, log, n - 1, key, items);
      TotalSnoc(log, n - 1, Swing(key));
      if log[n - 1].GaveBack? && log[n - 1].ref == key {
        AllOrNothing(db0, log, n - 1, key, items);
      }
      AttemptStep(db0, log, n - 1, key, items, Total(log[..n - 1], Swing(key)));
    }
  }

  /** Is this event no release of the key, or one of all that the key holds, or of nothing? */
  ghost predicate TakesAll(db0: Db, log: seq<Event>, n: nat, key: string)
    requires n < |log|
  {
    log[n].GaveBack? && log[n].ref == key ==> log[n].ids == [] || log[n].ids == HeldIds(After(db0, log, n).rows, key)
  }

  lemma AttemptStep(db0: Db, log: seq<Event>, n: nat, key: string, items: seq<Item>, b: int)
    requires n < |log| && KeyLog(db0, log, key, items) && TakesAll(db0, log, n, key)
    requires HoldsAttempts(After(db0, log, n).rows, key, items, b)
    ensures HoldsAttempts(After(db0, log, n + 1).rows, key, items, b + Swing(key)(log[n]))
  {
    var prev := After(db0, log, n);
    assert Explained(db0, log, n) && log[n] in log;
    if log[n].Body? {
      BodyAttempt(prev, log[n].ref, log[n].key, log[n].items, key, items, b);
    } else if log[n].GaveBack? {
      GaveBackIds(db0, log, n);
      if log[n].ref == key {
        GiveBackAttempt(prev, log[n].ids, key, items, b);
      } else {
        OthersGiveBack(prev, log[n].ids, log[n].ref, key, items, b);
      }
    }
  }

  lemma OthersGiveBack(db: Db, ids: seq<nat>, of: string, key: string, items: seq<Item>, b: int)
    requires ValidIds(db.rows, ids) && of != key && forall id | id in ids :: db.rows[id].orderRef == of
    requires HoldsAttempts(db.rows, key, items, b)
    ensures HoldsAttempts(ReleaseIds(db, ids).rows, key, items, b)
  {
    GiveBackHeldBy(db, ids, of, key);
    KeyIsRefFlip(db.rows, ids, key);
  }

  lemma KeyIsRefBody(db: Db, ref: string, of: string, its: seq<Item>, key: string)
    requires KeyIsRef(db.rows, key) && (ref == key <==> of == key)
    ensures KeyIsRef(ReserveBody(db, ref, of, its).0.rows, key)
  {
    BodyEffect(db, ref, of, its);
  }

  lemma BodyAttempt(db: Db, ref: string, of: string, its: seq<Item>, key: string, items: seq<Item>, b: int)
    requires key != "" && items != [] && HoldsAttempts(db.rows, key, items, b)
    requires ref == key || of == key ==> ref == key && of == key && its == SortByProduct(items)
    ensures var (db', out) := ReserveBody(db, ref, of, its);
            && HoldsAttempts(db'.rows, key, items, b + if ref == key && out.success then 1 else 0)
            && (ref == key && out.success ==> b == 0)
  {
    KeyIsRefBody(db, ref, of, its, key);
    BodyHeldBy(db, ref, of, its, key);
    if ref == key {
      SortSpec(items);
      if b == 1 {
        HeldBlocksAttempt(db, key, its, items);
      }
    }
  }

  lemma KeyIsRefFlip(rows: seq<Row>, ids: seq<nat>, key: string)
    requires KeyIsRef(rows, key)
    ensures KeyIsRef(Flip(rows, ids), key)
  {
    forall i | 0 <= i < |rows|
      ensures Flip(rows, ids)[i].orderRef == key <==> Flip(rows, ids)[i].key == key
    {
      assert rows[i] in rows;
    }
  }

  lemma GiveBackAttempt(db: Db, ids: seq<nat>, key: string, items: seq<Item>, b: int)
    requires HoldsAttempts(db.rows, key, items, b) && items != []
    requires ids == [] || ids == HeldIds(db.rows, key)
    requires ValidIds(db.rows, ids)
    ensures HoldsAttempts(ReleaseIds(db, ids).rows, key, items, b - if ids != [] then 1 else 0)
  {
    var rows' := ReleaseIds(db, ids).rows;
    KeyIsRefFlip(db.rows, ids, key);
    if ids == [] {
      assert rows' == db.rows;
    } else {
      HoldsNothingBag(db.rows, key);
      HeldIdsSpec(db.rows, key, One());
      assert HoldsNothing(rows', key);
      HoldsNothingBag(rows', key);
    }
  }

  lemma WholeBody(db: Db, ref: string, of: string, its: seq<Item>, key: string, items: seq<Item>, b: int,
                  snap: seq<nat>)
    requires key != "" && items != [] && HoldsAttempts(db.rows, key, items, b)
    requires ref == key || of == key ==> ref == key && of == key && its == SortByProduct(items)
    requires Whole(db.rows, snap, key)
    ensures Whole(ReserveBody(db, ref, of, its).0.rows, snap, key)
  {
    BodyEffect(db, ref, of, its);
    var (db', out) := ReserveBody(db, ref, of, its);
    if ref == key && out.success {
      BodyAttempt(db, ref, of, its, key, items, b);
      HoldsNothingBag(db.rows, key);
    } else {
      SameHeld(db.rows, db'.rows, key);
    }
  }

  lemma WholeElsewhere(db: Db, ids: seq<nat>, snap: seq<nat>, key: string)
    requires ValidIds(db.rows, ids) && Whole(db.rows, snap, key)
    requires forall id | id in ids :: db.rows[id].orderRef != key
    ensures Whole(ReleaseIds(db, ids).rows, snap, key)
  {
    SameHeld(db.rows, ReleaseIds(db, ids).rows, key);
  }

  lemma WholeReturned(db: Db, ids: seq<nat>, snap: seq<nat>, key: string)
    requires ValidIds(db.rows, ids) && (ids == [] || ids == HeldIds(db.rows, key))
    requires Whole(db.rows, snap, key)
    ensures Whole(ReleaseIds(db, ids).rows, snap, key)
  {
    if ids == [] {
      assert ReleaseIds(db, ids).rows == db.rows;
    }
  }

  /** Re-testing rows that all kept one status keeps all of them, or none. */
  lemma {:induction false} StillHeldUniform(rows: seq<Row>, snap: seq<nat>, n: nat, st: Status)
    requires n <= |snap| && ValidIds(rows, snap)
    requires forall k | 0 <= k < n :: rows[snap[k]].status == st
    ensures StillHeld(rows, snap, n) == if st == RESERVED then snap[..n] else []
  {
    if n > 0 {
      StillHeldUniform(rows, snap, n - 1, st);
      assert snap[..n] == snap[..n - 1] + [snap[n - 1]];
    }
  }

  /** Re-testing a whole selection keeps all that the order holds, or nothing. */
  lemma WholeRetested(rows: seq<Row>, snap: seq<nat>, key: string)
    requires ValidIds(rows, snap) && Whole(rows, snap, key)
    ensures StillHeld(rows, snap, |snap|) == [] || StillHeld(rows, snap, |snap|) == HeldIds(rows, key)
  {
    assert forall k | 0 <= k < |snap| :: snap[k] in snap;
    assert snap[..|snap|] == snap;
    if snap == HeldIds(rows, key) {
      HeldIdsSpec(rows, key, One());
      StillHeldUniform(rows, snap, |snap|, RESERVED);
    } else {
      StillHeldUniform(rows, snap, |snap|, RELEASED);
    }
  }

  lemma WholeStep(db0: Db, log: seq<Event>, n: nat, key: string, items: seq<Item>, b: int, snap: seq<nat>)
    requires n < |log| && KeyLog(db0, log, key, items) && TakesAll(db0, log, n, key)
    requires HoldsAttempts(After(db0, log, n).rows, key, items, b) && Whole(After(db0, log, n).rows, snap, key)
    ensures Whole(After(db0, log, n + 1).rows, snap, key)
  {
    var prev := After(db0, log, n);
    assert Explained(db0, log, n) && log[n] in log;
    if log[n].Body? {
      WholeBody(prev, log[n].ref, log[n].key, log[n].items, key, items, b, snap);
    } else if log[n].GaveBack? {
      GaveBackIds(db0, log, n);
      if log[n].ref == key {
        WholeReturned(prev, log[n].ids, snap, key);
      } else {
        WholeElsewhere(prev, log[n].ids, snap, key);
      }
    }
  }

  lemma {:induction false} SnapAt(db0: Db, log: seq<Event>, since: nat, n: nat, key: string, items: seq<Item>)
    requires since <= n <= |log| && KeyLog(db0, log, key, items)
    ensures Whole(After(db0, log, n).rows, HeldIds(After(db0, log, since).rows, key), key)
    decreases n, 0
  {
    if since < n {
      SnapAt(db0, log, since, n - 1, key, items);
      AttemptsAt(db0, log, n - 1, key, items);
      if log[n - 1].GaveBack? && log[n - 1].ref == key {
        AllOrNothing(db0, log, n - 1, key, items);
      }
      WholeStep(db0, log, n - 1, key, items, Total(log[..n - 1], Swing(key)),
                HeldIds(After(db0, log, since).rows, key));
    }
  }

  /** A release of the key returns everything the key holds, or nothing. */
  lemma {:induction false} AllOrNothing(db0: Db, log: seq<Event>, n: nat, key: string, items: seq<Item>)
    requires n < |log| && KeyLog(db0, log, key, items) && log[n].GaveBack? && log[n].ref == key
    ensures log[n].ids == [] || log[n].ids == HeldIds(After(db0, log, n).rows, key)
    decreases n, 1
  {
    var since := log[n].since;
    assert Explained(db0, log, n);
    SnapAt(db0, log, since, n, key, items);
    HeldIdsSpec(After(db0, log, since).rows, key, One());
    AfterAged(db0, log, since, n);
    SnapAged(After(db0, log, since).rows, After(db0, log, n).rows, HeldIds(After(db0, log, since).rows, key));
    WholeRetested(After(db0, log, n).rows, HeldIds(After(db0, log, since).rows, key), key);
  }

  /** Exactly once per key: with any number of interleaved attempts at one keyed
      order and any number of releases of it, committed attempts less effective
      releases is 0 or 1; the order holds one whole attempt or nothing; and the
      stock of each product is debited by that many times what the attempt asks,
      besides what other orders hold. */
  lemma ExactlyOncePerKey(db0: Db, acts: seq<Action>, key: string, items: seq<Item>)
    requires WellFormed(db0) && Run(db0, acts).Reached?
    requires key != "" && items != [] && OneAttempt(acts, key, items)
    requires forall r | r in db0.rows :: r.orderRef != key && r.key != key
    ensures var s := Run(db0, acts).s;
            var held := Total(s.log, Swing(key));
            && (held == 0 || held == 1)
            && HeldBy(s.db.rows, key) == (if held == 1 then multiset(items) else multiset{})
            && s.db.stock.Keys == db0.stock.Keys
            && (forall p | p in db0.stock ::
                  s.db.stock[p] == Owned(db0, p) - held * Total(items, Asked(p)) - Total(s.db.rows, HeldOut({key}, p)))
  {
    RunKeepsInv(db0, acts);
    RunEvents(db0, acts, key, items);
    var s := Run(db0, acts).s;
    AttemptsAt(db0, s.log, |s.log|, key, items);
    assert s.log[..|s.log|] == s.log;
    var held := Total(s.log, Swing(key));
    forall p | p in db0.stock
      ensures s.db.stock[p] == Owned(db0, p) - held * Total(items, Asked(p)) - Total(s.db.rows, HeldOut({key}, p))
    {
      HeldByTotal(s.db.rows, key, if held == 1 then items else [], p);
      HeldBesides(s.db.rows, key, p);
      assert Owned(s.db, p) == Owned(db0, p);
    }
  }
}
