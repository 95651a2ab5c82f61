/** A batch of orders flattened into one line stream and its outcomes regrouped. */
module Batch {
  import opened Totals
  import opened Inventory
  import opened BulkStream

  datatype Order = Order(id: string, items: seq<Item>)

  function OrderLines(o: Order): seq<BulkLine> {
    seq(|o.items|, i requires 0 <= i < |o.items| => BulkLine(o.id, o.items[i].product, o.items[i].quantity))
  }

  /** All lines of the batch, order after order. */
  function Lines(batch: seq<Order>): seq<BulkLine> {
    if batch == [] then [] else Lines(batch[..|batch| - 1]) + OrderLines(batch[|batch| - 1])
  }

  /** The outcomes filed under `id`, in stream order. */
  function OutcomesOf(outs: seq<BulkOutcome>, id: string): seq<BulkOutcome> {
    if outs == [] then []
    else
      OutcomesOf(outs[..|outs| - 1], id) + if outs[|outs| - 1].orderRef == id then [outs[|outs| - 1]] else []
  }

  predicate AllReserved(outs: seq<BulkOutcome>) { outs != [] && forall o | o in outs :: o.Reserved() }

  predicate AnyReserved(outs: seq<BulkOutcome>) { exists o | o in outs :: o.Reserved() }

  /** The orders every line of which was reserved. */
  function Persisted(batch: seq<Order>, outs: seq<BulkOutcome>): seq<Order> {
    if batch == [] then []
    else
      var o := batch[|batch| - 1];
      Persisted(batch[..|batch| - 1], outs) + if AllReserved(OutcomesOf(outs, o.id)) then [o] else []
  }

  /** The ids of the orders only partly reserved. */
  function Stranded(batch: seq<Order>, outs: seq<BulkOutcome>): seq<string> {
    if batch == [] then []
    else
      var o := batch[|batch| - 1];
      var mine := OutcomesOf(outs, o.id);
      Stranded(batch[..|batch| - 1], outs) + if !AllReserved(mine) && AnyReserved(mine) then [o.id] else []
  }

  ghost predicate DistinctOrders(batch: seq<Order>) {
    forall i, j | 0 <= i < j < |batch| :: batch[i].id != batch[j].id
  }

  /** Outcome `i` answers line `i`. */
  ghost predicate Answers(lines: seq<BulkLine>, outs: seq<BulkOutcome>) {
    |outs| == |lines| && forall i | 0 <= i < |lines| :: outs[i].orderRef == lines[i].orderRef
  }

  // ---------------------------------------------------------------- regrouping

  /** Where order `k`'s lines begin in the stream. */
  function Offset(batch: seq<Order>, k: nat): (r: nat)
    requires k <= |batch|
    ensures k == |batch| ==> r == |Lines(batch)|
  {
    if k == |batch| then |Lines(batch)| else Offset(batch[..|batch| - 1], k)
  }

  lemma {:induction false} LinesAt(batch: seq<Order>, k: nat)
    requires k < |batch|
    ensures Offset(batch, k) + |batch[k].items| <= |Lines(batch)|
    ensures Lines(batch)[Offset(batch, k)..Offset(batch, k) + |batch[k].items|] == OrderLines(batch[k])
    ensures forall i | 0 <= i < |Lines(batch)| ::
              Lines(batch)[i].orderRef == batch[k].id && DistinctOrders(batch) ==>
                Offset(batch, k) <= i < Offset(batch, k) + |batch[k].items|
  {
    var n := |batch| - 1;
    var head := batch[..n];
    var lines := Lines(head);
    LinesRefs(head);
    if k == n {
      assert Offset(batch, k) == Offset(head, n) == |lines|;
    } else {
      LinesAt(head, k);
      assert head[k] == batch[k];
      var at, m := Offset(head, k), |batch[k].items|;
      assert Lines(batch)[at..at + m] == lines[at..at + m];
      assert DistinctOrders(batch) ==> DistinctOrders(head);
    }
  }

  ghost predicate HasId(batch: seq<Order>, id: string) { exists o | o in batch :: o.id == id }

  lemma {:induction false} LinesRefs(batch: seq<Order>)
    ensures forall i | 0 <= i < |Lines(batch)| :: HasId(batch, Lines(batch)[i].orderRef)
  {
    if batch != [] {
      var n := |batch| - 1;
      LinesRefs(batch[..n]);
      assert forall o | o in batch[..n] :: o in batch;
      assert batch[n] in batch;
    }
  }

  lemma SliceOfPrefix(outs: seq<BulkOutcome>, at: nat, end: nat, n: nat)
    requires at <= end <= n <= |outs|
    ensures outs[..n][at..end] == outs[at..end]
  {}

  lemma SliceGrows(outs: seq<BulkOutcome>, at: nat, n: nat)
    requires at <= n < |outs|
    ensures outs[..n][at..n] + [outs[n]] == outs[at..n + 1]
  {}

  /** Outcomes filed under `id` at exactly the positions of one slice. */
  lemma {:induction false} OutcomesBetween(outs: seq<BulkOutcome>, id: string, at: nat, end: nat)
    requires at <= end <= |outs|
    requires forall i | 0 <= i < |outs| :: outs[i].orderRef == id <==> at <= i < end
    ensures OutcomesOf(outs, id) == outs[at..end]
  {
    if outs != [] {
      var n := |outs| - 1;
      if end <= n {
        OutcomesBetween(outs[..n], id, at, end);
        SliceOfPrefix(outs, at, end, n);
      } else if at == end {
        OutcomesBetween(outs[..n], id, n, n);
      } else {
        OutcomesBetween(outs[..n], id, at, n);
        SliceGrows(outs, at, n);
      }
    }
  }

  /** Regrouping undoes flattening: each order gets back exactly the outcomes of
      its own lines, all of them, in line order. */
  lemma FlattenRegroup(batch: seq<Order>, outs: seq<BulkOutcome>, k: nat)
    requires DistinctOrders(batch) && Answers(Lines(batch), outs) && k < |batch|
    ensures var at := Offset(batch, k);
            && at + |batch[k].items| <= |outs|
            && Lines(batch)[at..at + |batch[k].items|] == OrderLines(batch[k])
            && OutcomesOf(outs, batch[k].id) == outs[at..at + |batch[k].items|]
  {
    var at := Offset(batch, k);
    var end := at + |batch[k].items|;
    LinesAt(batch, k);
    forall i | at <= i < end
      ensures Lines(batch)[i].orderRef == batch[k].id
    {
      assert Lines(batch)[at..end][i - at] == OrderLines(batch[k])[i - at];
    }
    OutcomesBetween(outs, batch[k].id, at, end);
  }

  // ---------------------------------------------------------------- what an order's outcomes say it holds

  /** Lines of other orders contribute nothing to what an order is accepted for. */
  lemma AcceptedInRange(batch: seq<Order>, outs: seq<BulkOutcome>, k: nat)
    requires DistinctOrders(batch) && Answers(Lines(batch), outs) && k < |batch|
    ensures var at := Offset(batch, k);
            var end := at + |batch[k].items|;
            && end <= |outs|
            && Bag(Zip(Lines(batch), outs), AcceptedFor(batch[k].id)) ==
               Bag(Zip(OrderLines(batch[k]), outs[at..end]), AcceptedFor(batch[k].id))
  {
    var o := batch[k];
    var at := Offset(batch, k);
    var end := at + |o.items|;
    var z := Zip(Lines(batch), outs);
    LinesAt(batch, k);
    BagBetween(z, at, end, AcceptedFor(o.id));
    assert z[at..end] == Zip(Lines(batch)[at..end], outs[at..end]);
  }

  lemma AcceptedAll(o: Order, mine: seq<BulkOutcome>)
    requires |mine| == |o.items|
    requires forall x | x in mine :: x.Reserved()
    ensures Bag(Zip(OrderLines(o), mine), AcceptedFor(o.id)) == multiset(o.items)
  {
    assert forall i | 0 <= i < |mine| :: mine[i] in mine;
    BagAligned(Zip(OrderLines(o), mine), o.items, AcceptedFor(o.id), Self<Item>());
    BagSelf(o.items);
  }

  lemma AcceptedNone(o: Order, mine: seq<BulkOutcome>)
    requires |mine| == |o.items|
    requires forall x | x in mine :: !x.Reserved()
    ensures Bag(Zip(OrderLines(o), mine), AcceptedFor(o.id)) == multiset{}
  {
    assert forall i | 0 <= i < |mine| :: mine[i] in mine;
    BagEmpty(Zip(OrderLines(o), mine), AcceptedFor(o.id));
  }

  /** The order's accepted lines: all of its items when every outcome of it is a
      reservation, none when no outcome is. */
  lemma AcceptedOfOrder(batch: seq<Order>, outs: seq<BulkOutcome>, k: nat)
    requires DistinctOrders(batch) && Answers(Lines(batch), outs) && k < |batch|
    ensures var accepted := Bag(Zip(Lines(batch), outs), AcceptedFor(batch[k].id));
            var mine := OutcomesOf(outs, batch[k].id);
            && (AllReserved(mine) ==> accepted == multiset(batch[k].items))
            && (!AnyReserved(mine) ==> accepted == multiset{})
  {
    AcceptedInRange(batch, outs, k);
    FlattenRegroup(batch, outs, k);
    var mine := OutcomesOf(outs, batch[k].id);
    if AllReserved(mine) {
      AcceptedAll(batch[k], mine);
    } else if !AnyReserved(mine) {
      AcceptedNone(batch[k], mine);
    }
  }

  // ---------------------------------------------------------------- the partition of the batch

  lemma {:induction false} PersistedSpec(batch: seq<Order>, outs: seq<BulkOutcome>)
    requires DistinctOrders(batch)
    ensures DistinctOrders(Persisted(batch, outs))
    ensures forall o :: o in Persisted(batch, outs) <==> o in batch && AllReserved(OutcomesOf(outs, o.id))
  {
    if batch != [] {
      var n := |batch| - 1;
      PersistedSpec(batch[..n], outs);
      assert batch == batch[..n] + [batch[n]];
      var head := Persisted(batch[..n], outs);
      forall i | 0 <= i < |head|
        ensures head[i].id != batch[n].id
      {
        assert head[i] in head;
        var j :| 0 <= j < n && batch[j] == head[i];
      }
    }
  }

  lemma {:induction false} StrandedSpec(batch: seq<Order>, outs: seq<BulkOutcome>)
    ensures forall id :: id in Stranded(batch, outs) <==>
              exists o :: o in batch && o.id == id
                          && !AllReserved(OutcomesOf(outs, id)) && AnyReserved(OutcomesOf(outs, id))
  {
    if batch != [] {
      var n := |batch| - 1;
      StrandedSpec(batch[..n], outs);
      assert batch == batch[..n] + [batch[n]];
    }
  }
}
