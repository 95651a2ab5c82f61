/** The service layer as it runs in one process: the tables are updated in
    place, line by line, and rolled back as a whole. */
module InventoryStore {
  import opened Totals
  import opened Inventory
  import opened InventoryLaws
  import opened StockLaws
  import opened Holdings
  import opened BulkStream

  class Store {
    var stock: map<int, int>
    var rows: seq<Row>

    ghost function Tables(): Db
      reads this
    {
      Db(stock, rows)
    }

    constructor (catalog: map<int, int>)
      ensures Tables() == Db(catalog, [])
    {
      stock := catalog;
      rows := [];
    }

    /** reserve_stock: lock, check, decrement and insert line by line; any
        failing line or an index violation rolls everything back. */
    method ReserveStock(orderRef: string, items: seq<Item>, key: string) returns (out: ReservationOutcome)
      modifies this
      ensures (Tables(), out) == Reserve(old(Tables()), orderRef, items, key)
    {
      if items == [] {
        return ReservationOutcome(false, []);
      }
      var sorted := SortByProduct(items);
      if key != "" && HasActive(rows, key) {
        return ReservationOutcome(true, Replay(rows, key));
      }
      var savedStock, savedRows := stock, rows;
      ghost var db := Tables();
      var results: seq<ItemOutcome> := [];
      var allOk := true;
      SortSpec(items);
      for i := 0 to |sorted|
        invariant Mirrors(db, RunLines(db, orderRef, key, sorted, i), stock, rows, results, allOk)
      {
        var x := sorted[i];
        LineMirrored(db, orderRef, key, sorted, i, stock, rows, results, allOk);
        if x.quantity <= 0 {
          results := results + [ItemOutcome(x.product, NonPositive)];
          allOk := false;
        } else if x.product !in stock {
          results := results + [ItemOutcome(x.product, NotFound)];
          allOk := false;
        } else if stock[x.product] < x.quantity {
          results := results + [ItemOutcome(x.product, Insufficient)];
          allOk := false;
        } else {
          stock := stock[x.product := stock[x.product] - x.quantity];
          if Clash(rows, key, x.product) {
            stock, rows := savedStock, savedRows;
            ClashDecides(db, orderRef, key, sorted, i + 1, |sorted|);
            return ReservationOutcome(false, AllDuplicate(sorted));
          }
          rows := rows + [Row(x.product, orderRef, key, x.quantity, RESERVED)];
          results := results + [ItemOutcome(x.product, Taken)];
        }
      }
      if !allOk {
        stock, rows := savedStock, savedRows;
      }
      out := ReservationOutcome(allOk, results);
    }

    /** release_stock: give back each selected row's quantity and mark it RELEASED. */
    method ReleaseStock(orderRef: string) returns (released: bool, count: nat)
      modifies this
      ensures (Tables(), count) == Release(old(Tables()), orderRef)
      ensures released <==> exists r | r in old(rows) :: IsHeldFor(r, orderRef)
    {
      var reservations := HeldIds(rows, orderRef);
      ghost var db := Tables();
      HeldIdsDistinct(rows, orderRef);
      for j := 0 to |reservations|
        invariant GivenBack(db, reservations, j, stock, rows)
      {
        var id := reservations[j];
        var r := rows[id];
        RowGivenBack(db, reservations, j, stock, rows);
        if r.product in stock {
          stock := stock[r.product := stock[r.product] + r.quantity];
        }
        rows := rows[id := r.(status := RELEASED)];
      }
      AllGivenBack(db, orderRef, stock, rows);
      released, count := reservations != [], |reservations|;
    }

    /** ReserveStockBulk: every line of the stream in its own transaction. */
    method ReserveStockBulk(lines: seq<BulkLine>) returns (summary: BulkSummary)
      modifies this
      ensures (Tables(), summary.results) == TakeLines(old(Tables()), lines, |lines|)
      ensures summary.total == |lines|
      ensures summary.reservedCount == Total(summary.results, IsReserved())
      ensures summary.total == summary.reservedCount + summary.failedCount
      ensures 0 <= summary.failedCount
    {
      var results: seq<BulkOutcome> := [];
      var reservedCount := 0;
      ghost var db := Tables();
      for i := 0 to |lines|
        invariant (Tables(), results) == TakeLines(db, lines, i)
        invariant reservedCount == Total(results, IsReserved()) <= i
      {
        var line := lines[i];
        LineStreamed(db, lines, i);
        if line.orderRef == "" {
          results := results + [BulkOutcome(line.orderRef, line.product, MissingRef)];
        } else {
          var outcome := ReserveStock(line.orderRef, [Item(line.product, line.quantity)], "");
          var result := outcome.results[0];
          if result.Reserved() {
            reservedCount := reservedCount + 1;
          }
          results := results + [BulkOutcome(line.orderRef, result.product, result.verdict)];
        }
      }
      summary := BulkSummary(|results|, reservedCount, |results| - reservedCount, results);
    }
  }

  /** The store in mid-transaction shows the committed tables with the running
      work written over them. */
  ghost predicate Mirrors(db: Db, b: Body, stock: map<int, int>, rows: seq<Row>,
                          results: seq<ItemOutcome>, allOk: bool) {
    && b.Going?
    && b.work.dirty.Keys <= db.stock.Keys
    && stock == db.stock + b.work.dirty
    && rows == db.rows + b.work.added
    && results == b.work.results
    && allOk == b.work.allOk
  }

  /** What the next line of the loop reads and leaves, in terms of the mirror. */
  lemma LineMirrored(db: Db, ref: string, key: string, items: seq<Item>, i: nat,
                     stock: map<int, int>, rows: seq<Row>, results: seq<ItemOutcome>, allOk: bool)
    requires i < |items|
    requires Mirrors(db, RunLines(db, ref, key, items, i), stock, rows, results, allOk)
    ensures var x := items[i];
            var b := RunLines(db, ref, key, items, i + 1);
            if x.quantity <= 0 then
              Mirrors(db, b, stock, rows, results + [ItemOutcome(x.product, NonPositive)], false)
            else if x.product !in stock then
              Mirrors(db, b, stock, rows, results + [ItemOutcome(x.product, NotFound)], false)
            else if stock[x.product] < x.quantity then
              Mirrors(db, b, stock, rows, results + [ItemOutcome(x.product, Insufficient)], false)
            else if Clash(rows, key, x.product) then b.Clashed?
            else
              Mirrors(db, b, stock[x.product := stock[x.product] - x.quantity],
                      rows + [Row(x.product, ref, key, x.quantity, RESERVED)],
                      results + [ItemOutcome(x.product, Taken)], allOk)
  {
    ClashSplit(db.rows, RunLines(db, ref, key, items, i).work.added, key, items[i].product);
  }

  /** The store after the first `n` of the selected rows went back. */
  ghost predicate GivenBack(db: Db, ids: seq<nat>, n: nat, stock: map<int, int>, rows: seq<Row>)
    requires n <= |ids|
  {
    && ValidIds(db.rows, ids)
    && GiveBack(db, ids, n).Keys <= db.stock.Keys
    && stock == db.stock + GiveBack(db, ids, n)
    && rows == Flip(db.rows, ids[..n])
  }

  lemma RowGivenBack(db: Db, ids: seq<nat>, n: nat, stock: map<int, int>, rows: seq<Row>)
    requires n < |ids| && GivenBack(db, ids, n, stock, rows) && Distinct(ids)
    ensures var r := rows[ids[n]];
            GivenBack(db, ids, n + 1,
                      if r.product in stock then stock[r.product := stock[r.product] + r.quantity] else stock,
                      rows[ids[n] := r.(status := RELEASED)])
  {
    assert ids[n] !in ids[..n];
    assert ids[..n + 1] == ids[..n] + [ids[n]];
    var r := rows[ids[n]];
    assert r == db.rows[ids[n]];
    assert rows[ids[n] := r.(status := RELEASED)] == Flip(db.rows, ids[..n + 1]);
  }

  lemma HeldIdsDistinct(rows: seq<Row>, ref: string)
    ensures Distinct(HeldIds(rows, ref))
  {
    HeldIdsSpec(rows, ref, One());
    SortedIdsDistinct(rows, HeldIds(rows, ref));
  }

  lemma AllGivenBack(db: Db, ref: string, stock: map<int, int>, rows: seq<Row>)
    requires var ids := HeldIds(db.rows, ref); GivenBack(db, ids, |ids|, stock, rows)
    ensures (Db(stock, rows), |HeldIds(db.rows, ref)|) == Release(db, ref)
    ensures HeldIds(db.rows, ref) != [] <==> exists r | r in db.rows :: IsHeldFor(r, ref)
  {
    var ids := HeldIds(db.rows, ref);
    assert ids[..|ids|] == ids;
    HoldsNothingBag(db.rows, ref);
  }

  /** What the next line of the stream does, and how it counts. */
  lemma LineStreamed(db: Db, lines: seq<BulkLine>, i: nat)
    requires i < |lines|
    ensures var (mid, outs) := TakeLines(db, lines, i);
            var line := lines[i];
            var (mid', o) := TakeLine(mid, line);
            && TakeLines(db, lines, i + 1) == (mid', outs + [o])
            && Total(outs + [o], IsReserved()) == Total(outs, IsReserved()) + (if o.Reserved() then 1 else 0)
            && (line.orderRef != "" ==>
                  var (reserved, out) := Reserve(mid, line.orderRef, [Item(line.product, line.quantity)], "");
                  && |out.results| == 1 && mid' == reserved
                  && o == BulkOutcome(line.orderRef, out.results[0].product, out.results[0].verdict))
  {
    var (mid, outs) := TakeLines(db, lines, i);
    OneLineReserve(mid, lines[i].orderRef, Item(lines[i].product, lines[i].quantity));
    TotalAppend(outs, TakeLine(mid, lines[i]).1, IsReserved());
  }
}
