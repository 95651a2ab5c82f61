/** One order request run alone, as a function of how its calls go. */
module OrderLaws {
  import opened Totals
  import opened Inventory
  import opened InventoryLaws
  import opened StockLaws
  import opened Holdings
  import opened BulkStream
  import opened Batch
  import opened Saga
  import opened SagaLaws

  /** The client's view of one RPC, retries included: did it take effect, was it answered? */
  datatype Rpc = Rpc(applied: bool, answered: bool) {
    predicate Possible() { answered ==> applied }
  }

  /** How everything `create_order` depends on goes. */
  datatype Script = Script(reserve: Rpc, commitOk: bool, refreshOk: bool, release: Rpc)

  datatype Shop = Shop(inv: Db, orders: seq<Order>)

  /** create_order, from the short-circuit to the compensation. */
  function CreateOrder(shop: Shop, key: string, items: seq<Item>, how: Script): (Shop, Result) {
    if HasOrder(shop.orders, key) then (shop, Existing)
    else
      var (reserved, out) := Reserve(shop.inv, key, items, key);
      var inv := if how.reserve.applied then reserved else shop.inv;
      if !how.reserve.answered then (Shop(inv, shop.orders), RpcError)
      else if !out.success then (Shop(inv, shop.orders), Conflict)
      else if !how.commitOk then (Shop(ReleasedIf(how.release.applied, inv, key), shop.orders), Failed)
      else
        var orders := shop.orders + [Order(key, items)];
        if !how.refreshOk then (Shop(ReleasedIf(how.release.applied, inv, key), orders), Failed)
        else (Shop(inv, orders), Created)
  }

  ghost predicate AllBacked(shop: Shop) { forall o | o in shop.orders :: Backed(shop.inv, o) }

  lemma ReleaseHeldBy(db: Db, ref: string, of: string)
    ensures HeldBy(Release(db, ref).0.rows, of) == if of == ref then multiset{} else HeldBy(db.rows, of)
  {
    ReleaseEffect(db, ref);
    HeldIdsSpec(db.rows, ref, StockLaws.One());
    if of == ref {
      assert HoldsNothing(Release(db, ref).0.rows, ref);
      HoldsNothingBag(Release(db, ref).0.rows, ref);
    } else {
      GiveBackHeldBy(db, HeldIds(db.rows, ref), ref, of);
    }
  }

  /** A reserve that runs its body adds its items to its own order; a replay adds nothing. */
  lemma ReserveHeldBy(db: Db, key: string, items: seq<Item>, of: string)
    ensures var (db', out) := Reserve(db, key, items, key);
            && HeldBy(db'.rows, of) ==
               HeldBy(db.rows, of) +
               (if out.success && FreshKey(db, key) && of == key then multiset(items) else multiset{})
            && (!out.success ==> db' == db)
  {
    if items != [] && FreshKey(db, key) {
      SortSpec(items);
      BodyEffect(db, key, key, SortByProduct(items));
      BodyHeldBy(db, key, key, SortByProduct(items), of);
    }
  }

  /** Does the request commit its order? */
  ghost predicate Commits(shop: Shop, key: string, items: seq<Item>, how: Script) {
    && !HasOrder(shop.orders, key)
    && how.reserve.answered && Reserve(shop.inv, key, items, key).1.success && how.commitOk
  }

  /** What the inventory holds for the key when the request arrives: nothing, or,
      if there is something to replay, exactly these items. */
  ghost predicate ArrivesClean(db: Db, key: string, items: seq<Item>) {
    HeldBy(db.rows, key) == if FreshKey(db, key) then multiset{} else multiset(items)
  }

  /** The calls of a request touch nothing but what its key holds. */
  lemma OthersStayBacked(orders: seq<Order>, db: Db, db': Db, key: string, items: seq<Item>)
    requires !HasOrder(orders, key) && forall o | o in orders :: Backed(db, o)
    requires forall of | of != key :: HeldBy(db'.rows, of) == HeldBy(db.rows, of)
    ensures AllBacked(Shop(db', orders))
    ensures AllBacked(Shop(db', orders + [Order(key, items)])) <==> HeldBy(db'.rows, key) == multiset(items)
  {
    assert forall o | o in orders :: o.id != key;
    assert forall o :: o in orders + [Order(key, items)] <==> o in orders || o == Order(key, items);
  }

  lemma CleanArrival(before: multiset<Item>, items: multiset<Item>)
    ensures before + items == items <==> before == multiset{}
  {
    assert |before + items| == |before| + |items|;
  }

  /** A request leaves every persisted order backed exactly when, if it commits one,
      its key arrived clean and the compensation of a refresh that raised after the
      commit did not get through. */
  lemma CreateOrderKeepsBacking(shop: Shop, key: string, items: seq<Item>, how: Script)
    requires AllBacked(shop) && how.reserve.Possible()
    ensures AllBacked(CreateOrder(shop, key, items, how).0) <==>
            (Commits(shop, key, items, how) ==>
               ArrivesClean(shop.inv, key, items) && (how.refreshOk || !how.release.applied))
  {
    if !HasOrder(shop.orders, key) {
      var inv := if how.reserve.applied then Reserve(shop.inv, key, items, key).0 else shop.inv;
      var undone := ReleasedIf(how.release.applied, inv, key);
      forall of: string
        ensures HeldBy(inv.rows, of) == HeldBy(shop.inv.rows, of) || of == key
        ensures HeldBy(undone.rows, of) ==
                if of == key && how.release.applied then multiset{} else HeldBy(inv.rows, of)
      {
        ReserveHeldBy(shop.inv, key, items, of);
        ReleaseHeldBy(inv, key, of);
      }
      ReserveHeldBy(shop.inv, key, items, key);
      OthersStayBacked(shop.orders, shop.inv, inv, key, items);
      OthersStayBacked(shop.orders, shop.inv, undone, key, items);
      CleanArrival(HeldBy(shop.inv.rows, key), multiset(items));
      assert |multiset(items)| == |items|;
    }
  }

  /** Does a reserve under the key succeed: a replay, or items that fit? */
  ghost predicate Granted(db: Db, key: string, items: seq<Item>) {
    items != [] && (FreshKey(db, key) ==> Fits(db, key, items))
  }

  lemma GrantedIsSuccess(db: Db, key: string, items: seq<Item>)
    ensures Reserve(db, key, items, key).1.success <==> Granted(db, key, items)
  {
    if FreshKey(db, key) {
      ReserveDecision(db, key, items, key);
    }
  }

  /** What the calls of a request leave the key holding. */
  ghost function HeldAfter(shop: Shop, key: string, items: seq<Item>, how: Script): multiset<Item> {
    var granted := Granted(shop.inv, key, items);
    if HasOrder(shop.orders, key) then HeldBy(shop.inv.rows, key)
    else if how.reserve.answered && granted && !(how.commitOk && how.refreshOk) && how.release.applied then multiset{}
    else
      HeldBy(shop.inv.rows, key)
      + if how.reserve.applied && granted && FreshKey(shop.inv, key) then multiset(items) else multiset{}
  }

  /** When each answer is given, and what it leaves: an existing order; an inventory
      that did not answer; a request it refuses; a commit and a refresh that both
      went well; or one of them that did not. The order is there exactly if it was
      committed, the key holds what the calls that took effect left it, no other
      order is touched, and no unit of any product is lost. */
  lemma CreateOrderAnswers(shop: Shop, key: string, items: seq<Item>, how: Script)
    requires how.reserve.Possible() && WellFormed(shop.inv)
    ensures var (shop', result) := CreateOrder(shop, key, items, how);
            var asked := !HasOrder(shop.orders, key);
            var reserved := asked && how.reserve.answered && Granted(shop.inv, key, items);
            && (result == Existing <==> !asked)
            && (result == RpcError <==> asked && !how.reserve.answered)
            && (result == Conflict <==> asked && how.reserve.answered && !Granted(shop.inv, key, items))
            && (result == Created <==> reserved && how.commitOk && how.refreshOk)
            && (result == Failed <==> reserved && !(how.commitOk && how.refreshOk))
            && shop'.orders == (if reserved && how.commitOk then shop.orders + [Order(key, items)] else shop.orders)
            && HeldBy(shop'.inv.rows, key) == HeldAfter(shop, key, items, how)
            && (forall of | of != key :: HeldBy(shop'.inv.rows, of) == HeldBy(shop.inv.rows, of))
            && Conserves(shop.inv, shop'.inv)
  {
    GrantedIsSuccess(shop.inv, key, items);
    var inv := if how.reserve.applied then Reserve(shop.inv, key, items, key).0 else shop.inv;
    var undone := ReleasedIf(how.release.applied, inv, key);
    forall of: string
      ensures HeldBy(inv.rows, of) == HeldBy(shop.inv.rows, of) || of == key
      ensures HeldBy(undone.rows, of) == if of == key && how.release.applied then multiset{} else HeldBy(inv.rows, of)
    {
      ReserveHeldBy(shop.inv, key, items, of);
      ReleaseHeldBy(inv, key, of);
    }
    ReserveHeldBy(shop.inv, key, items, key);
    ApplyConserves(shop.inv, DoReserve(key, items, key));
    ApplyConserves(inv, DoRelease(key));
  }

  /** What each answer tells: an existing order, or a conflict, left everything as it
      was; a success has its order persisted, backed exactly if its key arrived
      clean; a failure whose release got through left nothing reserved for the
      key; and an RPC error left no order, and at most its own items reserved. */
  lemma CreateOrderReports(shop: Shop, key: string, items: seq<Item>, how: Script)
    requires how.reserve.Possible()
    ensures var (shop', result) := CreateOrder(shop, key, items, how);
            var before, after := HeldBy(shop.inv.rows, key), HeldBy(shop'.inv.rows, key);
            && (result == Existing <==> HasOrder(shop.orders, key))
            && (result == Existing || result == Conflict ==> shop' == shop)
            && (result == Created ==>
                  && shop'.orders == shop.orders + [Order(key, items)]
                  && (after == multiset(items) <==> ArrivesClean(shop.inv, key, items)))
            && (result == Failed && how.release.applied ==> after == multiset{})
            && (result == RpcError ==>
                  shop'.orders == shop.orders && (after == before || after == before + multiset(items)))
  {
    ReserveHeldBy(shop.inv, key, items, key);
    var inv := if how.reserve.applied then Reserve(shop.inv, key, items, key).0 else shop.inv;
    ReleaseHeldBy(inv, key, key);
    CleanArrival(HeldBy(shop.inv.rows, key), multiset(items));
  }

  // ---------------------------------------------------------------- a bulk batch

  /** Compensation of a batch: the stranded orders, except those whose release was lost. */
  function UndoAll(db: Db, refs: seq<string>, lost: set<string>, n: nat): Db
    requires n <= |refs|
  {
    if n == 0 then db
    else
      var prev := UndoAll(db, refs, lost, n - 1);
      if refs[n - 1] in lost then prev else Release(prev, refs[n - 1]).0
  }

  lemma LineOutside(db: Db, line: BulkLine, ids: set<string>, p: int)
    requires line.orderRef in ids
    ensures Total(TakeLine(db, line).0.rows, HeldOut(ids, p)) == Total(db.rows, HeldOut(ids, p))
  {
    TakeLineEffect(db, line);
    TotalAppend(db.rows, Row(line.product, line.orderRef, "", line.quantity, RESERVED), HeldOut(ids, p));
  }

  lemma {:induction false} StreamOutside(db: Db, lines: seq<BulkLine>, n: nat, ids: set<string>, p: int)
    requires n <= |lines| && WellFormed(db)
    requires forall i | 0 <= i < |lines| :: lines[i].orderRef in ids
    ensures var db' := TakeLines(db, lines, n).0;
            Conserves(db, db') && Total(db'.rows, HeldOut(ids, p)) == Total(db.rows, HeldOut(ids, p))
  {
    if n > 0 {
      StreamOutside(db, lines, n - 1, ids, p);
      var mid := TakeLines(db, lines, n - 1).0;
      LineOutside(mid, lines[n - 1], ids, p);
      TakeLineConserves(mid, lines[n - 1]);
    }
  }

  lemma ReleaseOutside(db: Db, ref: string, ids: set<string>, p: int)
    requires ref in ids && WellFormed(db)
    ensures var db' := Release(db, ref).0;
            Conserves(db, db') && Total(db'.rows, HeldOut(ids, p)) == Total(db.rows, HeldOut(ids, p))
  {
    ReleaseEffect(db, ref);
    TotalAligned(Release(db, ref).0.rows, db.rows, HeldOut(ids, p), HeldOut(ids, p));
    ApplyConserves(db, DoRelease(ref));
  }

  /** One order of the compensation more. */
  lemma UndoOneMore(db: Db, prev: Db, ref: string, lost: set<string>, ids: set<string>, p: int)
    requires ref in ids && WellFormed(db)
    requires Conserves(db, prev) && Total(prev.rows, HeldOut(ids, p)) == Total(db.rows, HeldOut(ids, p))
    ensures var db' := if ref in lost then prev else Release(prev, ref).0;
            Conserves(db, db') && Total(db'.rows, HeldOut(ids, p)) == Total(db.rows, HeldOut(ids, p))
  {
    ReleaseOutside(prev, ref, ids, p);
  }

  lemma {:induction false} UndoOutside(db: Db, refs: seq<string>, lost: set<string>, n: nat, ids: set<string>, p: int)
    requires n <= |refs| && WellFormed(db) && forall r | r in refs :: r in ids
    ensures var db' := UndoAll(db, refs, lost, n);
            Conserves(db, db') && Total(db'.rows, HeldOut(ids, p)) == Total(db.rows, HeldOut(ids, p))
  {
    if n > 0 {
      UndoOutside(db, refs, lost, n - 1, ids, p);
      UndoOneMore(db, UndoAll(db, refs, lost, n - 1), refs[n - 1], lost, ids, p);
    }
  }

  /** The compensation empties exactly the stranded orders whose release got through. */
  lemma {:induction false} UndoHeldBy(db: Db, refs: seq<string>, lost: set<string>, n: nat, of: string)
    requires n <= |refs|
    ensures HeldBy(UndoAll(db, refs, lost, n).rows, of) ==
            if of in refs[..n] && of !in lost then multiset{} else HeldBy(db.rows, of)
  {
    if n > 0 {
      UndoHeldBy(db, refs, lost, n - 1, of);
      assert refs[..n] == refs[..n - 1] + [refs[n - 1]];
      ReleaseHeldBy(UndoAll(db, refs, lost, n - 1), refs[n - 1], of);
    }
  }

  /** A batch the shop can take: fresh, distinct ids that hold nothing yet. */
  ghost predicate Receivable(db: Db, batch: seq<Order>) {
    && WellFormed(db) && DistinctOrders(batch)
    && forall o | o in batch :: o.id != "" && HeldBy(db.rows, o.id) == multiset{}
  }

  /** Inventory after the whole stream and the compensation. */
  function AfterBatch(db: Db, batch: seq<Order>, lost: set<string>): Db {
    var (mid, outs) := TakeLines(db, Lines(batch), |Lines(batch)|);
    var refs := Stranded(batch, outs);
    UndoAll(mid, refs, lost, |refs|)
  }

  lemma StreamAnswers(db: Db, batch: seq<Order>)
    ensures Answers(Lines(batch), TakeLines(db, Lines(batch), |Lines(batch)|).1)
  {
    TakeLinesEffect(db, Lines(batch), |Lines(batch)|);
  }

  /** What each order holds once the stream is through. */
  lemma StreamHoldings(db: Db, batch: seq<Order>, o: Order)
    requires Receivable(db, batch) && o in batch
    ensures var (mid, outs) := TakeLines(db, Lines(batch), |Lines(batch)|);
            var mine := OutcomesOf(outs, o.id);
            && (AllReserved(mine) ==> HeldBy(mid.rows, o.id) == multiset(o.items))
            && (!AnyReserved(mine) ==> HeldBy(mid.rows, o.id) == multiset{})
  {
    var lines := Lines(batch);
    var k :| 0 <= k < |batch| && batch[k] == o;
    StreamAnswers(db, batch);
    TakeLinesEffect(db, lines, |lines|);
    assert lines[..|lines|] == lines;
    AcceptedOfOrder(batch, TakeLines(db, lines, |lines|).1, k);
  }

  /** What each order of the batch holds in the end: all its lines if it was
      persisted; nothing if nothing of it was reserved or its release got
      through; otherwise it is a partial order whose release was lost. */
  lemma BatchHoldings(db: Db, batch: seq<Order>, lost: set<string>, o: Order)
    requires Receivable(db, batch) && o in batch
    ensures var outs := TakeLines(db, Lines(batch), |Lines(batch)|).1;
            var held := HeldBy(AfterBatch(db, batch, lost).rows, o.id);
            && (o in Persisted(batch, outs) ==> held == multiset(o.items))
            && (o !in Persisted(batch, outs) && o.id !in lost ==> held == multiset{})
            && (held != multiset{} ==> o in Persisted(batch, outs) || (o.id in Stranded(batch, outs) && o.id in lost))
  {
    var lines := Lines(batch);
    var (mid, outs) := TakeLines(db, lines, |lines|);
    var refs := Stranded(batch, outs);
    StreamHoldings(db, batch, o);
    UndoHeldBy(mid, refs, lost, |refs|, o.id);
    assert refs[..|refs|] == refs;
    PersistedSpec(batch, outs);
    StrandedSpec(batch, outs);
  }

  /** Rows of the batch's orders that were not persisted weigh nothing. */
  lemma OnlyPersistedHeld(db: Db, batch: seq<Order>, kept: seq<Order>, p: int)
    requires forall o | o in kept :: o in batch
    requires forall o | o in batch && o !in kept :: HeldBy(db.rows, o.id) == multiset{}
    requires DistinctOrders(batch)
    ensures Total(db.rows, HeldIn(Ids(batch), p)) == Total(db.rows, HeldIn(Ids(kept), p))
  {
    forall i | 0 <= i < |db.rows|
      ensures HeldIn(Ids(batch), p)(db.rows[i]) == HeldIn(Ids(kept), p)(db.rows[i])
    {
      var r := db.rows[i];
      if r.orderRef in Ids(batch) && r.orderRef !in Ids(kept) {
        var o :| o in batch && o.id == r.orderRef;
        HoldsNothingBag(db.rows, o.id);
        assert !IsHeldFor(r, o.id);
      }
    }
    TotalAligned(db.rows, db.rows, HeldIn(Ids(batch), p), HeldIn(Ids(kept), p));
  }

  /** When every release gets through, the batch has taken from each product
      exactly what its persisted orders ask, and lost nothing. */
  lemma BatchNetEffect(db: Db, batch: seq<Order>, p: int)
    requires Receivable(db, batch) && p in db.stock
    ensures var outs := TakeLines(db, Lines(batch), |Lines(batch)|).1;
            var db' := AfterBatch(db, batch, {});
            p in db'.stock && db'.stock[p] == db.stock[p] - Total(Persisted(batch, outs), Sold(p))
  {
    var lines := Lines(batch);
    var (mid, outs) := TakeLines(db, lines, |lines|);
    var refs := Stranded(batch, outs);
    var db' := AfterBatch(db, batch, {});
    var kept := Persisted(batch, outs);
    var ids := Ids(batch);
    LinesRefs(batch);
    forall i | 0 <= i < |lines|
      ensures lines[i].orderRef in ids
    {
      assert HasId(batch, lines[i].orderRef);
    }
    StrandedSpec(batch, outs);
    StreamOutside(db, lines, |lines|, ids, p);
    UndoOutside(mid, refs, {}, |refs|, ids, p);
    forall o | o in batch { BatchHoldings(db, batch, {}, o); }
    PersistedSpec(batch, outs);
    OnlyPersistedHeld(db', batch, kept, p);
    OnlyPersistedHeld(db, batch, [], p);
    TotalZero(db.rows, HeldIn(Ids([]), p));
    SoldIsHeld(db', kept, p);
    HeldSplits(db.rows, ids, p);
    HeldSplits(db'.rows, ids, p);
  }
}
