/** What each order holds, as the multiset of its RESERVED lines. */
module Holdings {
  import opened Totals
  import opened Inventory
  import opened InventoryLaws
  import opened StockLaws

  lemma {:induction false} RunLinesNoClash(db: Db, ref: string, key: string, items: seq<Item>, n: nat)
    requires n <= |items| && RunLines(db, ref, key, items, n).Going? && RunLines(db, ref, key, items, n).work.allOk
    ensures forall x | x in items[..n] :: !Clash(db.rows, key, x.product)
  {
    if n > 0 {
      RunLinesNoClash(db, ref, key, items, n - 1);
      assert items[..n] == items[..n - 1] + [items[n - 1]];
    }
  }

  /** New rows hold exactly their lines, for their order and no other. */
  lemma RowsForHeldBy(ref: string, key: string, items: seq<Item>, of: string)
    ensures HeldBy(RowsFor(ref, key, items), of) == if of == ref then multiset(items) else multiset{}
  {
    var news := RowsFor(ref, key, items);
    if of == ref {
      BagAligned(news, items, LineOf(of), Self<Item>());
      BagSelf(items);
    } else {
      BagEmpty(news, LineOf(of));
    }
  }

  /** A reserve adds to what its own order holds, and to no other order. */
  lemma BodyHeldBy(db: Db, ref: string, key: string, items: seq<Item>, of: string)
    ensures var (db', out) := ReserveBody(db, ref, key, items);
            HeldBy(db'.rows, of) ==
            HeldBy(db.rows, of) + if out.success && of == ref then multiset(items) else multiset{}
  {
    BodyEffect(db, ref, key, items);
    BagConcat(db.rows, RowsFor(ref, key, items), LineOf(of));
    RowsForHeldBy(ref, key, items, of);
  }

  /** Returning rows of one order leaves every other order's holding alone. */
  lemma GiveBackHeldBy(db: Db, ids: seq<nat>, of: string, ref: string)
    requires ValidIds(db.rows, ids) && of != ref
    requires forall id | id in ids :: db.rows[id].orderRef == of
    ensures HeldBy(ReleaseIds(db, ids).rows, ref) == HeldBy(db.rows, ref)
  {
    BagAligned(ReleaseIds(db, ids).rows, db.rows, LineOf(ref), LineOf(ref));
  }

  lemma HoldsNothingBag(rows: seq<Row>, ref: string)
    ensures HeldBy(rows, ref) == multiset{} <==> HoldsNothing(rows, ref)
    ensures HeldBy(rows, ref) == multiset{} <==> HeldIds(rows, ref) == []
  {
    BagEmpty(rows, LineOf(ref));
    HeldIdsSpec(rows, ref, One());
    forall r | r in rows
      ensures LineOf(ref)(r) == multiset{} <==> !IsHeldFor(r, ref)
    {
      if IsHeldFor(r, ref) {
        assert Item(r.product, r.quantity) in LineOf(ref)(r);
      }
    }
    var ids := HeldIds(rows, ref);
    assert forall k | 0 <= k < |ids| :: ids[k] in ids && rows[ids[k]] in rows;
    if r :| r in rows && IsHeldFor(r, ref) {
      var i :| 0 <= i < |rows| && rows[i] == r;
      assert i in ids;
    }
  }

  lemma {:induction false} BagMember(rows: seq<Row>, ref: string, x: Item)
    requires x in HeldBy(rows, ref)
    ensures exists r :: r in rows && IsHeldFor(r, ref) && r.product == x.product && r.quantity == x.quantity
  {
    var n := |rows| - 1;
    if x in HeldBy(rows[..n], ref) {
      BagMember(rows[..n], ref, x);
      var r :| r in rows[..n] && IsHeldFor(r, ref) && r.product == x.product && r.quantity == x.quantity;
      assert r in rows;
    } else {
      assert x in LineOf(ref)(rows[n]);
      assert IsHeldFor(rows[n], ref);
      assert rows[n] in rows;
    }
  }

  /** What an order holds, totalled from the lines it holds. */
  lemma HeldByTotal(rows: seq<Row>, ref: string, items: seq<Item>, p: int)
    requires HeldBy(rows, ref) == multiset(items)
    ensures Total(rows, For(ref, Quantity(p))) == Total(items, Asked(p))
  {
    var lines := LinesOf(rows, ref);
    LinesOfBag(rows, ref);
    LinesOfTotal(rows, ref, p);
    TotalPermuted(lines, items, Asked(p));
  }

  function LinesOf(rows: seq<Row>, ref: string): seq<Item> {
    if rows == [] then []
    else
      var r := rows[|rows| - 1];
      LinesOf(rows[..|rows| - 1], ref) + if IsHeldFor(r, ref) then [Item(r.product, r.quantity)] else []
  }

  lemma {:induction false} LinesOfBag(rows: seq<Row>, ref: string)
    ensures multiset(LinesOf(rows, ref)) == HeldBy(rows, ref)
  {
    if rows != [] {
      LinesOfBag(rows[..|rows| - 1], ref);
    }
  }

  lemma {:induction false} LinesOfTotal(rows: seq<Row>, ref: string, p: int)
    ensures Total(LinesOf(rows, ref), Asked(p)) == Total(rows, For(ref, Quantity(p)))
  {
    if rows != [] {
      var head := LinesOf(rows[..|rows| - 1], ref);
      var r := rows[|rows| - 1];
      LinesOfTotal(rows[..|rows| - 1], ref, p);
      assert (head + [Item(r.product, r.quantity)])[..|head|] == head;
      assert head + [] == head;
      assert IsHeldFor(r, ref) <==> LinesOf(rows, ref) != head;
    }
  }

  /** Lines that an order holds cost no more than all that it holds. */
  lemma HeldCovers(rows: seq<Row>, ref: string, items: seq<Item>, p: int)
    requires multiset(items) <= HeldBy(rows, ref) && forall r | r in rows :: 0 <= r.quantity
    ensures Total(items, Asked(p)) <= Total(rows, For(ref, Quantity(p)))
  {
    var lines := LinesOf(rows, ref);
    LinesOfBag(rows, ref);
    LinesOfTotal(rows, ref, p);
    forall x | x in lines
      ensures 0 <= x.quantity
    {
      assert x in multiset(lines);
      BagMember(rows, ref, x);
    }
    TotalSubset(items, lines, Asked(p));
  }

  // ---------------------------------------------------------------- keyed and loose rows

  /** The line that a RESERVED row of `ref` holds, if it was reserved under a key. */
  function KeyedLine(ref: string): Row -> multiset<Item> {
    (r: Row) => if r.key != "" && IsHeldFor(r, ref) then multiset{Item(r.product, r.quantity)} else multiset{}
  }

  /** ... or under none, as the bulk stream does. */
  function LooseLine(ref: string): Row -> multiset<Item> {
    (r: Row) => if r.key == "" && IsHeldFor(r, ref) then multiset{Item(r.product, r.quantity)} else multiset{}
  }

  function KeyedBy(rows: seq<Row>, ref: string): multiset<Item> { Bag(rows, KeyedLine(ref)) }

  function LooseBy(rows: seq<Row>, ref: string): multiset<Item> { Bag(rows, LooseLine(ref)) }

  lemma KeyedOrLoose(rows: seq<Row>, ref: string)
    ensures HeldBy(rows, ref) == KeyedBy(rows, ref) + LooseBy(rows, ref)
  {
    forall r | r in rows
      ensures LineOf(ref)(r) == KeyedLine(ref)(r) + LooseLine(ref)(r)
    {
      assert IsHeldFor(r, ref) <==> r.orderRef == ref && r.status == RESERVED;
    }
    BagSplit(rows, KeyedLine(ref), LooseLine(ref), LineOf(ref));
  }

  ghost predicate HoldsSame(rows: seq<Row>, rows': seq<Row>, ref: string) {
    KeyedBy(rows', ref) == KeyedBy(rows, ref) && LooseBy(rows', ref) == LooseBy(rows, ref)
  }

  lemma RowsForKeyed(ref: string, key: string, items: seq<Item>, of: string)
    requires key != ""
    ensures KeyedBy(RowsFor(ref, key, items), of) == if of == ref then multiset(items) else multiset{}
    ensures LooseBy(RowsFor(ref, key, items), of) == multiset{}
  {
    var news := RowsFor(ref, key, items);
    BagNothing(news, LooseLine(of));
    if of == ref {
      BagAligned(news, items, KeyedLine(of), Self<Item>());
      BagSelf(items);
    } else {
      BagNothing(news, KeyedLine(of));
    }
  }

  /** A keyed reserve adds its items, keyed, to its own order and nothing anywhere else. */
  lemma KeyedBodyHolds(db: Db, ref: string, key: string, items: seq<Item>, of: string)
    requires key != ""
    ensures var (db', out) := ReserveBody(db, ref, key, items);
            && KeyedBy(db'.rows, of) ==
               KeyedBy(db.rows, of) + (if out.success && of == ref then multiset(items) else multiset{})
            && LooseBy(db'.rows, of) == LooseBy(db.rows, of)
  {
    BodyEffect(db, ref, key, items);
    BagConcat(db.rows, RowsFor(ref, key, items), KeyedLine(of));
    BagConcat(db.rows, RowsFor(ref, key, items), LooseLine(of));
    RowsForKeyed(ref, key, items, of);
  }

  /** A release empties its order, of keyed and loose rows alike, and no other. */
  lemma ReleaseHolds(db: Db, ref: string, of: string)
    ensures var rows := Release(db, ref).0.rows;
            if of == ref then KeyedBy(rows, of) == multiset{} && LooseBy(rows, of) == multiset{}
            else HoldsSame(db.rows, rows, of)
  {
    ReleaseEffect(db, ref);
    var rows := Release(db, ref).0.rows;
    if of == ref {
      forall i | 0 <= i < |rows|
        ensures !IsHeldFor(rows[i], ref)
      {}
      BagNothing(rows, KeyedLine(of));
      BagNothing(rows, LooseLine(of));
    } else {
      BagAligned(rows, db.rows, KeyedLine(of), KeyedLine(of));
      BagAligned(rows, db.rows, LooseLine(of), LooseLine(of));
    }
  }

  // ---------------------------------------------------------------- totals over some of the orders

  /** Quantity of `p` RESERVED for any of these orders. */
  function HeldIn(ids: set<string>, p: int): Row -> int {
    (r: Row) => if r.orderRef in ids && r.status == RESERVED && r.product == p then r.quantity else 0
  }

  lemma HeldInOneMore(rows: seq<Row>, ids: set<string>, id: string, p: int)
    requires id !in ids
    ensures Total(rows, HeldIn(ids + {id}, p)) == Total(rows, HeldIn(ids, p)) + Total(rows, For(id, Quantity(p)))
  {
    forall r | r in rows
      ensures HeldIn(ids + {id}, p)(r) == HeldIn(ids, p)(r) + For(id, Quantity(p))(r)
    {
      assert IsHeldFor(r, id) <==> r.orderRef == id && r.status == RESERVED;
    }
    TotalSplit(rows, HeldIn(ids, p), For(id, Quantity(p)), HeldIn(ids + {id}, p));
  }

  /** Quantity of `p` RESERVED for any other order. */
  function HeldOut(ids: set<string>, p: int): Row -> int {
    (r: Row) => if r.orderRef !in ids && r.status == RESERVED && r.product == p then r.quantity else 0
  }

  lemma HeldSplits(rows: seq<Row>, ids: set<string>, p: int)
    ensures Total(rows, Held(p)) == Total(rows, HeldIn(ids, p)) + Total(rows, HeldOut(ids, p))
  {
    TotalSplit(rows, HeldIn(ids, p), HeldOut(ids, p), Held(p));
  }

  /** One order's share of what is RESERVED, and everybody else's. */
  lemma HeldBesides(rows: seq<Row>, ref: string, p: int)
    ensures Total(rows, Held(p)) == Total(rows, For(ref, Quantity(p))) + Total(rows, HeldOut({ref}, p))
  {
    HeldSplits(rows, {ref}, p);
    forall i | 0 <= i < |rows|
      ensures HeldIn({ref}, p)(rows[i]) == For(ref, Quantity(p))(rows[i])
    {
      assert IsHeldFor(rows[i], ref) <==> rows[i].orderRef == ref && rows[i].status == RESERVED;
    }
    TotalAligned(rows, rows, HeldIn({ref}, p), For(ref, Quantity(p)));
  }
}
