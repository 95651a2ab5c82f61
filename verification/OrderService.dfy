/** The order service as it runs: its own order table, updated in place, beside
    the inventory it calls. */
module OrderService {
  import opened Inventory
  import opened InventoryStore
  import opened BulkStream
  import opened Batch
  import opened Saga
  import opened OrderLaws

  datatype OrderStatus = PersistedOrder | PartialOrder | FailedOrder

  datatype OrderReport = OrderReport(orderRef: string, status: OrderStatus, items: seq<BulkOutcome>)

  datatype BulkReply = Unavailable | NotCommitted | Report(total: nat, persistedCount: nat, results: seq<OrderReport>)

  function StatusOf(mine: seq<BulkOutcome>): OrderStatus {
    if AllReserved(mine) then PersistedOrder else if AnyReserved(mine) then PartialOrder else FailedOrder
  }

  function Reports(batch: seq<Order>, outs: seq<BulkOutcome>): seq<OrderReport> {
    seq(|batch|, i requires 0 <= i < |batch| =>
      OrderReport(batch[i].id, StatusOf(OutcomesOf(outs, batch[i].id)), OutcomesOf(outs, batch[i].id)))
  }

  lemma StatusMeans(mine: seq<BulkOutcome>)
    ensures StatusOf(mine).PersistedOrder? <==> AllReserved(mine)
    ensures StatusOf(mine).PartialOrder? <==> !AllReserved(mine) && AnyReserved(mine)
    ensures StatusOf(mine).FailedOrder? <==> forall o | o in mine :: !o.Reserved()
  {
    if mine != [] {
      assert mine[0] in mine;
    }
  }

  lemma StrandedAt(batch: seq<Order>, outs: seq<BulkOutcome>, k: nat)
    requires k < |batch|
    ensures var mine := OutcomesOf(outs, batch[k].id);
            batch[k].id in Stranded(batch, outs) <==> !AllReserved(mine) && AnyReserved(mine)
  {
    StrandedSpec(batch, outs);
    assert batch[k] in batch;
  }

  /** What the client is told of order `k`: the outcomes of its own lines, in line
      order, and a status that says whether it was saved or left something behind. */
  lemma ReportsFaithful(batch: seq<Order>, outs: seq<BulkOutcome>, k: nat)
    requires DistinctOrders(batch) && Answers(Lines(batch), outs) && k < |batch|
    ensures var report := Reports(batch, outs)[k];
            var at := Offset(batch, k);
            && report.orderRef == batch[k].id
            && at + |batch[k].items| <= |outs| && report.items == outs[at..at + |batch[k].items|]
            && (report.status.PersistedOrder? <==> batch[k] in Persisted(batch, outs))
            && (report.status.PartialOrder? <==> batch[k].id in Stranded(batch, outs))
            && (report.status.FailedOrder? <==> forall o | o in report.items :: !o.Reserved())
  {
    FlattenRegroup(batch, outs, k);
    PersistedSpec(batch, outs);
    assert batch[k] in batch;
    StrandedAt(batch, outs, k);
    StatusMeans(OutcomesOf(outs, batch[k].id));
  }

  ghost predicate Classified(batch: seq<Order>, outs: seq<BulkOutcome>,
                             added: seq<Order>, stranded: seq<string>, results: seq<OrderReport>) {
    added == Persisted(batch, outs) && stranded == Stranded(batch, outs) && results == Reports(batch, outs)
  }

  lemma ReportsOneMore(batch: seq<Order>, o: Order, outs: seq<BulkOutcome>)
    ensures var mine := OutcomesOf(outs, o.id);
            Reports(batch + [o], outs) == Reports(batch, outs) + [OrderReport(o.id, StatusOf(mine), mine)]
  {}

  /** What one order more adds to each list. */
  lemma ClassifyOne(batch: seq<Order>, o: Order, outs: seq<BulkOutcome>,
                    added: seq<Order>, stranded: seq<string>, results: seq<OrderReport>)
    requires Classified(batch, outs, added, stranded, results)
    ensures var mine := OutcomesOf(outs, o.id);
            Classified(batch + [o], outs,
                       if AllReserved(mine) then added + [o] else added,
                       if !AllReserved(mine) && AnyReserved(mine) then stranded + [o.id] else stranded,
                       results + [OrderReport(o.id, StatusOf(mine), mine)])
  {
    assert (batch + [o])[..|batch|] == batch;
    ReportsOneMore(batch, o, outs);
  }

  lemma ClassifyNext(batch: seq<Order>, i: nat, outs: seq<BulkOutcome>,
                     added: seq<Order>, stranded: seq<string>, results: seq<OrderReport>)
    requires i < |batch| && Classified(batch[..i], outs, added, stranded, results)
    ensures var mine := OutcomesOf(outs, batch[i].id);
            Classified(batch[..i + 1], outs,
                       if AllReserved(mine) then added + [batch[i]] else added,
                       if !AllReserved(mine) && AnyReserved(mine) then stranded + [batch[i].id] else stranded,
                       results + [OrderReport(batch[i].id, StatusOf(mine), mine)])
  {
    assert batch[..i + 1] == batch[..i] + [batch[i]];
    ClassifyOne(batch[..i], batch[i], outs, added, stranded, results);
  }

  class Service {
    const inventory: Store
    var orders: seq<Order>

    ghost function View(): Shop
      reads this, inventory
    {
      Shop(inventory.Tables(), orders)
    }

    constructor (inventory: Store)
      ensures this.inventory == inventory && orders == []
    {
      this.inventory := inventory;
      orders := [];
    }

    /** _release_quietly: best effort, never raises. */
    method TryRelease(ref: string, rpc: Rpc)
      modifies inventory
      ensures inventory.Tables() == ReleasedIf(rpc.applied, old(inventory.Tables()), ref)
    {
      if rpc.applied {
        var _, _ := inventory.ReleaseStock(ref);
      }
    }

    /** create_order: short-circuit, reserve, persist, compensate. */
    method PlaceOrder(key: string, items: seq<Item>, how: Script) returns (result: Result)
      requires how.reserve.Possible()
      modifies this`orders, inventory
      ensures (View(), result) == CreateOrder(old(View()), key, items, how)
    {
      if HasOrder(orders, key) {
        return Existing;
      }
      var response := ReservationOutcome(false, []);
      if how.reserve.applied {
        response := inventory.ReserveStock(key, items, key);
      }
      if !how.reserve.answered {
        return RpcError;
      }
      if !response.success {
        return Conflict;
      }
      if how.commitOk {
        orders := orders + [Order(key, items)];
      }
      if !how.commitOk || !how.refreshOk {
        TryRelease(key, how.release);
        return Failed;
      }
      return Created;
    }

    /** create_orders_bulk: stream every line, regroup the outcomes, persist the
        fully reserved orders in one commit, release the partial ones.
        `delivered` lines reach the inventory if the RPC fails; `lost` are the
        orders whose release fails. */
    method PlaceOrders(batch: seq<Order>, delivered: nat, answered: bool, commitOk: bool, lost: set<string>)
      returns (reply: BulkReply)
      requires delivered <= |Lines(batch)|
      modifies this`orders, inventory
      ensures !answered ==>
                && reply == Unavailable && orders == old(orders)
                && inventory.Tables() == TakeLines(old(inventory.Tables()), Lines(batch)[..delivered], delivered).0
      ensures answered && !commitOk ==>
                && reply == NotCommitted && orders == old(orders)
                && inventory.Tables() == TakeLines(old(inventory.Tables()), Lines(batch), |Lines(batch)|).0
      ensures answered && commitOk ==>
                var outs := TakeLines(old(inventory.Tables()), Lines(batch), |Lines(batch)|).1;
                && inventory.Tables() == AfterBatch(old(inventory.Tables()), batch, lost)
                && orders == old(orders) + Persisted(batch, outs)
                && reply == Report(|batch|, |Persisted(batch, outs)|, Reports(batch, outs))
    {
      var lines := Lines(batch);
      if !answered {
        var _ := inventory.ReserveStockBulk(lines[..delivered]);
        return Unavailable;
      }
      StreamAnswers(inventory.Tables(), batch);
      var summary := inventory.ReserveStockBulk(lines);
      var outs := summary.results;
      var byRef := Regroup(batch, outs);
      var added, stranded, results, persistedCount := Classify(batch, outs, byRef);
      if !commitOk {
        return NotCommitted;
      }
      orders := orders + added;
      ReleaseStranded(stranded, lost);
      reply := Report(|batch|, persistedCount, results);
    }

    /** Compensate the partial orders, one release each. */
    method ReleaseStranded(stranded: seq<string>, lost: set<string>)
      modifies inventory
      ensures inventory.Tables() == UndoAll(old(inventory.Tables()), stranded, lost, |stranded|)
    {
      for j := 0 to |stranded|
        invariant inventory.Tables() == UndoAll(old(inventory.Tables()), stranded, lost, j)
      {
        TryRelease(stranded[j], Rpc(stranded[j] !in lost, stranded[j] !in lost));
      }
    }

    /** Which orders to persist, which to compensate, and what to report. */
    method Classify(batch: seq<Order>, outs: seq<BulkOutcome>, byRef: map<string, seq<BulkOutcome>>)
      returns (added: seq<Order>, stranded: seq<string>, results: seq<OrderReport>, persistedCount: nat)
      requires forall o | o in batch :: o.id in byRef && byRef[o.id] == OutcomesOf(outs, o.id)
      ensures added == Persisted(batch, outs) && persistedCount == |added|
      ensures stranded == Stranded(batch, outs)
      ensures results == Reports(batch, outs)
    {
      added, stranded, results, persistedCount := [], [], [], 0;
      for i := 0 to |batch|
        invariant Classified(batch[..i], outs, added, stranded, results) && persistedCount == |added|
      {
        var order := batch[i];
        ClassifyNext(batch, i, outs, added, stranded, results);
        var items := byRef[order.id];
        var status := FailedOrder;
        if AllReserved(items) {
          added := added + [order];
          persistedCount := persistedCount + 1;
          status := PersistedOrder;
        } else if AnyReserved(items) {
          status := PartialOrder;
          stranded := stranded + [order.id];
        }
        results := results + [OrderReport(order.id, status, items)];
      }
      assert batch[..|batch|] == batch;
    }

    /** File each outcome under its order. */
    method Regroup(batch: seq<Order>, outs: seq<BulkOutcome>) returns (byRef: map<string, seq<BulkOutcome>>)
      requires Answers(Lines(batch), outs)
      ensures forall o | o in batch :: o.id in byRef && byRef[o.id] == OutcomesOf(outs, o.id)
    {
      byRef := map o | o in batch :: o.id := [];
      LinesRefs(batch);
      for k := 0 to |outs|
        invariant forall o | o in batch :: o.id in byRef
        invariant forall id | id in byRef :: byRef[id] == OutcomesOf(outs[..k], id)
      {
        var r := outs[k];
        assert HasId(batch, Lines(batch)[k].orderRef);
        assert outs[..k + 1][..k] == outs[..k];
        byRef := byRef[r.orderRef := byRef[r.orderRef] + [r]];
      }
      assert outs[..|outs|] == outs;
    }
  }
}
