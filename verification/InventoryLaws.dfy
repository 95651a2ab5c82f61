/** Laws of `reserve_stock` and `release_stock` taken as atomic operations. */
module InventoryLaws {
  import opened Totals
  import opened Inventory

  // ---------------------------------------------------------------- sorting

  ghost predicate Sorted(s: seq<Item>) {
    forall i, j | 0 <= i < j < |s| :: s[i].product <= s[j].product
  }

  /** The lines of one product, in input order. */
  function OfProduct(s: seq<Item>, p: int): seq<Item> {
    if s == [] then [] else (if s[0].product == p then [s[0]] else []) + OfProduct(s[1..], p)
  }

  lemma SortedCons(x: Item, s: seq<Item>)
    requires Sorted(s) && forall y | y in s :: x.product <= y.product
    ensures Sorted([x] + s)
  {
    var t := [x] + s;
    forall i, j | 0 <= i < j < |t|
      ensures t[i].product <= t[j].product
    {
      assert t[j] == s[j - 1] && t[j] in s;
      assert i > 0 ==> t[i] == s[i - 1];
    }
  }

  lemma {:induction false} InsertMembers(x: Item, s: seq<Item>)
    ensures multiset(InsertByProduct(x, s)) == multiset{x} + multiset(s)
    ensures forall y | y in InsertByProduct(x, s) :: y == x || y in s
  {
    if s != [] && s[0].product < x.product {
      InsertMembers(x, s[1..]);
      assert s == [s[0]] + s[1..];
    }
  }

  lemma {:induction false} InsertSorted(x: Item, s: seq<Item>)
    requires Sorted(s)
    ensures Sorted(InsertByProduct(x, s))
  {
    if s != [] {
      assert forall y | y in s :: s[0].product <= y.product;
      if x.product <= s[0].product {
        SortedCons(x, s);
      } else {
        var t := s[1..];
        assert forall y | y in t :: y in s;
        assert Sorted(t);
        InsertSorted(x, t);
        InsertMembers(x, t);
        SortedCons(s[0], InsertByProduct(x, t));
      }
    }
  }

  lemma OfProductCons(x: Item, s: seq<Item>, p: int)
    ensures OfProduct([x] + s, p) == (if x.product == p then [x] else []) + OfProduct(s, p)
  {
    assert ([x] + s)[1..] == s;
  }

  lemma {:induction false} InsertOfProduct(x: Item, s: seq<Item>, p: int)
    ensures OfProduct(InsertByProduct(x, s), p) == (if x.product == p then [x] else []) + OfProduct(s, p)
  {
    if s == [] || x.product <= s[0].product {
      OfProductCons(x, s, p);
    } else {
      var rest := OfProduct(s[1..], p);
      InsertOfProduct(x, s[1..], p);
      OfProductCons(s[0], InsertByProduct(x, s[1..]), p);
      if x.product == p {
        assert [] + ([x] + rest) == [x] + ([] + rest);
      } else {
        assert [] + rest == rest;
      }
    }
  }

  /** The locking order is a stable sort of the request: same lines, ascending
      products, and the lines of each product in their original order. */
  lemma {:induction false} SortSpec(items: seq<Item>)
    ensures Sorted(SortByProduct(items))
    ensures multiset(SortByProduct(items)) == multiset(items)
    ensures |SortByProduct(items)| == |items|
    ensures forall p :: OfProduct(SortByProduct(items), p) == OfProduct(items, p)
  {
    if items != [] {
      var rest := items[1..];
      SortSpec(rest);
      InsertSorted(items[0], SortByProduct(rest));
      InsertMembers(items[0], SortByProduct(rest));
      assert items == [items[0]] + rest;
      assert |multiset(SortByProduct(items))| == |multiset(items)|;
      forall p
        ensures OfProduct(SortByProduct(items), p) == OfProduct(items, p)
      {
        InsertOfProduct(items[0], SortByProduct(rest), p);
      }
    }
  }

  lemma {:induction false} SortedFixed(items: seq<Item>)
    requires Sorted(items)
    ensures SortByProduct(items) == items
  {
    if items != [] {
      SortedFixed(items[1..]);
    }
  }

  lemma SortTotals(items: seq<Item>, w: Item -> int)
    ensures Total(SortByProduct(items), w) == Total(items, w)
  {
    SortSpec(items);
    TotalPermuted(SortByProduct(items), items, w);
  }

  // ---------------------------------------------------------------- the reservation loop

  ghost predicate DistinctProducts(items: seq<Item>) {
    forall i, j | 0 <= i < j < |items| :: items[i].product != items[j].product
  }

  /** What the service promises to accept, said without the loop. */
  ghost predicate Fits(db: Db, key: string, items: seq<Item>) {
    && (forall x | x in items ::
          && 0 < x.quantity
          && x.product in db.stock
          && Total(items, Asked(x.product)) <= db.stock[x.product])
    && (key != "" ==> DistinctProducts(items))
  }

  /** The rows a successful reserve inserts, in lock order. */
  function RowsFor(ref: string, key: string, items: seq<Item>): seq<Row> {
    seq(|items|, i requires 0 <= i < |items| => Row(items[i].product, ref, key, items[i].quantity, RESERVED))
  }

  function AllTaken(items: seq<Item>): seq<ItemOutcome> {
    seq(|items|, i requires 0 <= i < |items| => ItemOutcome(items[i].product, Taken))
  }

  lemma FitsPrefix(db: Db, key: string, items: seq<Item>, n: nat)
    requires n < |items| && Fits(db, key, items[..n + 1])
    ensures Fits(db, key, items[..n])
  {
    assert forall x | x in items[..n] :: x in items[..n + 1];
    assert items[n] == items[..n + 1][n];
    forall x | x in items[..n]
      ensures Total(items[..n], Asked(x.product)) <= db.stock[x.product]
    {
      TotalSnoc(items, n, Asked(x.product));
      assert items[n] in items[..n + 1];
    }
  }

  /** While nothing has failed, the loop's own writes are exactly the rows of
      the lines so far, and each stock value has dropped by what they ask. */
  lemma {:induction false} RunLinesOk(db: Db, ref: string, key: string, items: seq<Item>, n: nat)
    requires n <= |items|
    requires RunLines(db, ref, key, items, n).Going?
    requires RunLines(db, ref, key, items, n).work.allOk
    ensures var w := RunLines(db, ref, key, items, n).work;
            && w.added == RowsFor(ref, key, items[..n])
            && w.results == AllTaken(items[..n])
            && w.dirty.Keys <= db.stock.Keys
            && (forall p | p in db.stock :: Avail(db, w.dirty, p) == db.stock[p] - Total(items[..n], Asked(p)))
  {
    if n > 0 {
      var m := n - 1;
      RunLinesOk(db, ref, key, items, m);
      var w := RunLines(db, ref, key, items, n).work;
      assert items[..n] == items[..m] + [items[m]];
      forall p | p in db.stock
        ensures Avail(db, w.dirty, p) == db.stock[p] - Total(items[..n], Asked(p))
      {
        TotalSnoc(items, m, Asked(p));
      }
    }
  }

  /** Meeting the index at line `i` decides the whole body, run now or later. */
  lemma {:induction false} ClashDecides(db: Db, ref: string, key: string, items: seq<Item>, i: nat, n: nat)
    requires i <= n <= |items| && RunLines(db, ref, key, items, i).Clashed?
    ensures RunLines(db, ref, key, items, n).Clashed?
  {
    if i < n {
      ClashDecides(db, ref, key, items, i, n - 1);
    }
  }

  /** A repeated product meets the transaction's own row in the index. */
  lemma OwnClash(ref: string, key: string, items: seq<Item>, m: nat)
    requires m < |items| && key != ""
    ensures Clash(RowsFor(ref, key, items[..m]), key, items[m].product) <==>
            exists i | 0 <= i < m :: items[i].product == items[m].product
  {
    var news := RowsFor(ref, key, items[..m]);
    forall i | 0 <= i < m
      ensures news[i] in news && news[i].product == items[i].product
    {}
  }

  /** Lines that never failed fit. */
  lemma {:induction false} RunLinesFit(db: Db, ref: string, key: string, items: seq<Item>, n: nat)
    requires n <= |items|
    requires RunLines(db, ref, key, items, n).Going?
    requires RunLines(db, ref, key, items, n).work.allOk
    ensures Fits(db, key, items[..n])
  {
    if n > 0 {
      var m := n - 1;
      var x := items[m];
      RunLinesOk(db, ref, key, items, m);
      RunLinesFit(db, ref, key, items, m);
      assert items[..n] == items[..m] + [x];
      if key != "" {
        OwnClash(ref, key, items, m);
      }
      forall y | y in items[..n]
        ensures Total(items[..n], Asked(y.product)) <= db.stock[y.product]
      {
        TotalSnoc(items, m, Asked(y.product));
        if y.product != x.product {
          assert y in items[..m];
        }
      }
    }
  }

  /** Conversely, lines that fit never fail and never meet the unique index. */
  lemma {:induction false} RunLinesFits(db: Db, ref: string, key: string, items: seq<Item>, n: nat)
    requires n <= |items| && Fits(db, key, items[..n])
    requires forall x | x in items[..n] :: !Clash(db.rows, key, x.product)
    ensures RunLines(db, ref, key, items, n).Going? && RunLines(db, ref, key, items, n).work.allOk
  {
    if n > 0 {
      var m := n - 1;
      var x := items[m];
      assert items[..n] == items[..m] + [x];
      FitsPrefix(db, key, items, m);
      RunLinesFits(db, ref, key, items, m);
      RunLinesOk(db, ref, key, items, m);
      TotalSnoc(items, m, Asked(x.product));
      assert x in items[..n];
      if key != "" {
        OwnClash(ref, key, items, m);
        assert forall i | 0 <= i < m :: items[..n][i] == items[i];
        assert items[..n][m] == x;
      }
    }
  }

  lemma ClashSplit(a: seq<Row>, b: seq<Row>, key: string, p: int)
    ensures Clash(a + b, key, p) == (Clash(a, key, p) || Clash(b, key, p))
  {
    assert forall r :: r in a + b <==> r in a || r in b;
  }

  lemma ClashIsActive(rows: seq<Row>, key: string, p: int)
    ensures Clash(rows, key, p) ==> HasActive(rows, key)
  {
    if Clash(rows, key, p) {
      var r :| r in rows && r.key == key && r.product == p && r.status == RESERVED;
      assert IsActive(r, key);
    }
  }

  lemma FitsPermuted(db: Db, key: string, a: seq<Item>, b: seq<Item>)
    requires multiset(a) == multiset(b) && Fits(db, key, a)
    ensures Fits(db, key, b)
  {
    forall x | x in b
      ensures 0 < x.quantity && x.product in db.stock && Total(b, Asked(x.product)) <= db.stock[x.product]
    {
      assert x in multiset(b);
      assert x in multiset(a);
      assert x in a;
      TotalPermuted(a, b, Asked(x.product));
    }
    if key != "" {
      DistinctPermuted(a, b);
    }
  }

  function OneOf(p: int): Item -> int { (x: Item) => if x.product == p then 1 else 0 }

  lemma {:induction false} CountAtLeast(s: seq<Item>, i: nat, j: nat)
    requires i < j < |s| && s[i].product == s[j].product
    ensures 2 <= Total(s, OneOf(s[i].product))
  {
    var w := OneOf(s[i].product);
    assert s == s[..j] + [s[j]] + s[j + 1..];
    TotalConcat(s[..j] + [s[j]], s[j + 1..], w);
    TotalConcat(s[..j], [s[j]], w);
    assert [s[j]][..0] == [];
    TotalNonNegative(s[j + 1..], w);
    TotalNonNegative(s[..j], w);
    assert s[..j][i] in s[..j];
  }

  lemma {:induction false} CountAtMost(s: seq<Item>, p: int)
    requires DistinctProducts(s)
    ensures Total(s, OneOf(p)) <= 1
    ensures (forall x | x in s :: x.product != p) ==> Total(s, OneOf(p)) == 0
  {
    if s != [] {
      var n := |s| - 1;
      CountAtMost(s[..n], p);
      assert forall x | x in s[..n] :: x in s;
      if s[n].product == p {
        assert forall x | x in s[..n] :: x.product != p;
      }
    }
  }

  lemma DistinctPermuted(a: seq<Item>, b: seq<Item>)
    requires multiset(a) == multiset(b) && DistinctProducts(a)
    ensures DistinctProducts(b)
  {
    forall i, j | 0 <= i < j < |b|
      ensures b[i].product != b[j].product
    {
      if b[i].product == b[j].product {
        CountAtLeast(b, i, j);
        CountAtMost(a, b[i].product);
        TotalPermuted(a, b, OneOf(b[i].product));
        assert false;
      }
    }
  }

  // ---------------------------------------------------------------- the reserve decision

  /** No replay applies: the call really runs the transaction body. */
  ghost predicate FreshKey(db: Db, key: string) { key == "" || !HasActive(db.rows, key) }

  /** A body that succeeds did exactly its lines' work; one that fails did none. */
  lemma BodyEffect(db: Db, ref: string, key: string, items: seq<Item>)
    ensures var (db', out) := ReserveBody(db, ref, key, items);
            if out.success then
              && Fits(db, key, items)
              && db'.stock.Keys == db.stock.Keys
              && (forall p | p in db.stock :: db'.stock[p] == db.stock[p] - Total(items, Asked(p)))
              && db'.rows == db.rows + RowsFor(ref, key, items)
              && out.results == AllTaken(items)
            else db' == db
  {
    assert items[..|items|] == items;
    var b := RunLines(db, ref, key, items, |items|);
    if b.Going? && b.work.allOk {
      RunLinesOk(db, ref, key, items, |items|);
      RunLinesFit(db, ref, key, items, |items|);
    }
  }

  /** Success holds exactly when every quantity is positive, every product
      exists, each product's lines together fit its stock and, under a key, no
      product repeats. Success takes exactly the request; failure takes nothing. */
  lemma ReserveDecision(db: Db, ref: string, items: seq<Item>, key: string)
    requires FreshKey(db, key)
    ensures var (db', out) := Reserve(db, ref, items, key);
            && (out.success <==> items != [] && Fits(db, key, items))
            && (out.success ==>
                  && db'.stock.Keys == db.stock.Keys
                  && (forall p | p in db.stock :: db'.stock[p] == db.stock[p] - Total(items, Asked(p)))
                  && db'.rows == db.rows + RowsFor(ref, key, SortByProduct(items))
                  && out.results == AllTaken(SortByProduct(items)))
            && (!out.success ==> db' == db)
  {
    if items != [] {
      var s := SortByProduct(items);
      SortSpec(items);
      BodyEffect(db, ref, key, s);
      forall p { SortTotals(items, Asked(p)); }
      assert s[..|s|] == s;
      if Fits(db, key, items) {
        FitsPermuted(db, key, items, s);
        forall x | x in s
          ensures !Clash(db.rows, key, x.product)
        {
          ClashIsActive(db.rows, key, x.product);
        }
        RunLinesFits(db, ref, key, s, |s|);
      } else if Reserve(db, ref, items, key).1.success {
        FitsPermuted(db, key, s, items);
        assert false;
      }
    }
  }

  /** A key that repeats a product can never be reserved, whatever the stock. */
  lemma KeyedRepeatAlwaysFails(db: Db, ref: string, items: seq<Item>, key: string, i: nat, j: nat)
    requires key != "" && FreshKey(db, key)
    requires i < j < |items| && items[i].product == items[j].product
    ensures Reserve(db, ref, items, key).0 == db && !Reserve(db, ref, items, key).1.success
  {
    ReserveDecision(db, ref, items, key);
  }

  /** The order of the request's lines changes neither the decision nor the stock. */
  lemma ReserveOrderIndependent(db: Db, ref: string, a: seq<Item>, b: seq<Item>, key: string)
    requires FreshKey(db, key) && multiset(a) == multiset(b)
    ensures Reserve(db, ref, a, key).1.success == Reserve(db, ref, b, key).1.success
    ensures Reserve(db, ref, a, key).0.stock == Reserve(db, ref, b, key).0.stock
    ensures multiset(Reserve(db, ref, a, key).0.rows) == multiset(Reserve(db, ref, b, key).0.rows)
  {
    ReserveDecision(db, ref, a, key);
    ReserveDecision(db, ref, b, key);
    assert |multiset(a)| == |multiset(b)|;
    FitsSame(db, key, a, b);
    if a != [] && Fits(db, key, a) {
      var s, t := Reserve(db, ref, a, key).0.stock, Reserve(db, ref, b, key).0.stock;
      assert s == t by {
        forall p | p in s
          ensures s[p] == t[p]
        {
          TotalPermuted(a, b, Asked(p));
        }
      }
      SortSpec(a);
      SortSpec(b);
      RowsForPermuted(ref, key, SortByProduct(a), SortByProduct(b));
    }
  }

  lemma FitsSame(db: Db, key: string, a: seq<Item>, b: seq<Item>)
    requires multiset(a) == multiset(b)
    ensures Fits(db, key, a) == Fits(db, key, b)
  {
    if Fits(db, key, a) {
      FitsPermuted(db, key, a, b);
    } else if Fits(db, key, b) {
      FitsPermuted(db, key, b, a);
    }
  }

  function RowPick(ref: string, key: string): Item -> multiset<Row> {
    (x: Item) => multiset{Row(x.product, ref, key, x.quantity, RESERVED)}
  }

  lemma RowsForPermuted(ref: string, key: string, a: seq<Item>, b: seq<Item>)
    requires multiset(a) == multiset(b)
    ensures multiset(RowsFor(ref, key, a)) == multiset(RowsFor(ref, key, b))
  {
    BagSelf(RowsFor(ref, key, a));
    BagSelf(RowsFor(ref, key, b));
    BagAligned(a, RowsFor(ref, key, a), RowPick(ref, key), Self<Row>());
    BagAligned(b, RowsFor(ref, key, b), RowPick(ref, key), Self<Row>());
    BagPermuted(a, b, RowPick(ref, key));
  }
}
