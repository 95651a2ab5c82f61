/** Release, conservation, idempotent replay and the reserve/release round
    trip, over any sequence of atomic operations. */
module StockLaws {
  import opened Totals
  import opened Inventory
  import opened InventoryLaws

  // ---------------------------------------------------------------- what a release selects

  ghost predicate IdsSorted(rows: seq<Row>, ids: seq<nat>)
    requires ValidIds(rows, ids)
  {
    forall i, j | 0 <= i < j < |ids| :: Before(rows, ids[i], ids[j])
  }

  /** Total weight of the rows named by `ids`. */
  function At(rows: seq<Row>, w: Row -> int): nat -> int {
    (id: nat) => if id < |rows| then w(rows[id]) else 0
  }

  /** `w`, counted only on rows RESERVED for `ref`. */
  function For(ref: string, w: Row -> int): Row -> int {
    (r: Row) => if IsHeldFor(r, ref) then w(r) else 0
  }

  function Quantity(p: int): Row -> int { (r: Row) => if r.product == p then r.quantity else 0 }

  function One(): Row -> int { (r: Row) => 1 }

  lemma {:induction false} InsertIdMembers(rows: seq<Row>, ids: seq<nat>, x: nat)
    requires x < |rows| && ValidIds(rows, ids)
    ensures forall y: nat :: y in InsertId(rows, ids, x) <==> y == x || y in ids
  {
    if ids != [] && !Before(rows, x, ids[0]) {
      InsertIdMembers(rows, ids[1..], x);
      assert ids == [ids[0]] + ids[1..];
    }
  }

  lemma {:induction false} InsertIdSorted(rows: seq<Row>, ids: seq<nat>, x: nat)
    requires x < |rows| && ValidIds(rows, ids) && IdsSorted(rows, ids) && x !in ids
    ensures IdsSorted(rows, InsertId(rows, ids, x))
  {
    if ids != [] {
      if Before(rows, x, ids[0]) {
        forall j | 0 <= j < |ids|
          ensures Before(rows, x, ids[j])
        {
          assert j > 0 ==> Before(rows, ids[0], ids[j]);
        }
      } else {
        var t := ids[1..];
        var u := InsertId(rows, t, x);
        InsertIdSorted(rows, t, x);
        InsertIdMembers(rows, t, x);
        forall j | 0 <= j < |u|
          ensures Before(rows, ids[0], u[j])
        {
          assert u[j] in u;
          if u[j] != x {
            var k :| 0 <= k < |t| && t[k] == u[j];
            assert Before(rows, ids[0], ids[k + 1]);
          } else {
            assert ids[0] in ids;
          }
        }
      }
    }
  }

  lemma {:induction false} InsertIdTotal(rows: seq<Row>, ids: seq<nat>, x: nat, w: nat -> int)
    requires x < |rows| && ValidIds(rows, ids)
    ensures Total(InsertId(rows, ids, x), w) == Total(ids, w) + w(x)
  {
    assert [x][..0] == [];
    if ids == [] || Before(rows, x, ids[0]) {
      TotalConcat([x], ids, w);
    } else {
      InsertIdTotal(rows, ids[1..], x, w);
      assert ids == [ids[0]] + ids[1..];
      TotalConcat([ids[0]], ids[1..], w);
      TotalConcat([ids[0]], InsertId(rows, ids[1..], x), w);
    }
  }

  lemma {:induction false} HeldIdsUpToMembers(rows: seq<Row>, ref: string, n: nat)
    requires n <= |rows|
    ensures forall y: nat :: y in HeldIdsUpTo(rows, ref, n) <==> y < n && IsHeldFor(rows[y], ref)
  {
    if n > 0 {
      HeldIdsUpToMembers(rows, ref, n - 1);
      if IsHeldFor(rows[n - 1], ref) {
        InsertIdMembers(rows, HeldIdsUpTo(rows, ref, n - 1), n - 1);
      }
    }
  }

  lemma {:induction false} HeldIdsUpToSorted(rows: seq<Row>, ref: string, n: nat)
    requires n <= |rows|
    ensures IdsSorted(rows, HeldIdsUpTo(rows, ref, n))
  {
    if n > 0 {
      HeldIdsUpToSorted(rows, ref, n - 1);
      if IsHeldFor(rows[n - 1], ref) {
        HeldIdsUpToMembers(rows, ref, n - 1);
        InsertIdSorted(rows, HeldIdsUpTo(rows, ref, n - 1), n - 1);
      }
    }
  }

  lemma {:induction false} HeldIdsUpToTotal(rows: seq<Row>, ref: string, n: nat, w: Row -> int)
    requires n <= |rows|
    ensures Total(HeldIdsUpTo(rows, ref, n), At(rows, w)) == Total(rows[..n], For(ref, w))
  {
    if n > 0 {
      HeldIdsUpToTotal(rows, ref, n - 1, w);
      TotalSnoc(rows, n - 1, For(ref, w));
      if IsHeldFor(rows[n - 1], ref) {
        InsertIdTotal(rows, HeldIdsUpTo(rows, ref, n - 1), n - 1, At(rows, w));
      }
    }
  }

  /** A release selects each row RESERVED for the order once, in product order,
      and nothing else; a total over its selection is a total over those rows. */
  lemma HeldIdsSpec(rows: seq<Row>, ref: string, w: Row -> int)
    ensures var r := HeldIds(rows, ref);
            && IdsSorted(rows, r)
            && (forall y: nat :: y in r <==> y < |rows| && IsHeldFor(rows[y], ref))
            && Total(r, At(rows, w)) == Total(rows, For(ref, w))
  {
    HeldIdsUpToMembers(rows, ref, |rows|);
    HeldIdsUpToSorted(rows, ref, |rows|);
    HeldIdsUpToTotal(rows, ref, |rows|, w);
    assert rows[..|rows|] == rows;
  }

  lemma {:induction false} TotalOne<T>(s: seq<T>, w: T -> int)
    requires forall x | x in s :: w(x) == 1
    ensures Total(s, w) == |s|
  {
    if s != [] {
      assert forall x | x in s[..|s| - 1] :: x in s;
      TotalOne(s[..|s| - 1], w);
    }
  }

  ghost predicate Distinct(ids: seq<nat>) {
    forall i, j | 0 <= i < j < |ids| :: ids[i] != ids[j]
  }

  lemma SortedIdsDistinct(rows: seq<Row>, ids: seq<nat>)
    requires ValidIds(rows, ids) && IdsSorted(rows, ids)
    ensures Distinct(ids)
  {
    forall i, j | 0 <= i < j < |ids|
      ensures ids[i] != ids[j]
    {
      assert Before(rows, ids[i], ids[j]);
    }
  }

  // ---------------------------------------------------------------- what giving rows back does

  lemma {:induction false} GiveBackSpec(db: Db, ids: seq<nat>, n: nat, p: int)
    requires n <= |ids| && ValidIds(db.rows, ids) && p in db.stock
    ensures GiveBack(db, ids, n).Keys <= db.stock.Keys
    ensures Avail(db, GiveBack(db, ids, n), p) == db.stock[p] + Total(ids[..n], At(db.rows, Quantity(p)))
  {
    if n > 0 {
      GiveBackSpec(db, ids, n - 1, p);
      TotalSnoc(ids, n - 1, At(db.rows, Quantity(p)));
    }
  }

  lemma FlipLast(rows: seq<Row>, ids: seq<nat>)
    requires ValidIds(rows, ids) && Distinct(ids) && ids != []
    ensures var head, last := Flip(rows, ids[..|ids| - 1]), ids[|ids| - 1];
            head[last] == rows[last] && Flip(rows, ids) == head[last := rows[last].(status := RELEASED)]
  {
    var n := |ids| - 1;
    assert ids[n] !in ids[..n];
    assert forall x :: x in ids <==> x in ids[..n] || x == ids[n] by { assert ids == ids[..n] + [ids[n]]; }
  }

  /** Marking distinct RESERVED rows RELEASED lowers any RESERVED-only total by
      exactly their weight. */
  lemma {:induction false} FlipTotal(rows: seq<Row>, ids: seq<nat>, w: Row -> int)
    requires ValidIds(rows, ids) && Distinct(ids)
    requires forall r: Row | r.status == RELEASED :: w(r) == 0
    ensures Total(Flip(rows, ids), w) == Total(rows, w) - Total(ids, At(rows, w))
  {
    if ids == [] {
      assert Flip(rows, ids) == rows;
    } else {
      var n := |ids| - 1;
      FlipTotal(rows, ids[..n], w);
      FlipLast(rows, ids);
      TotalUpdate(Flip(rows, ids[..n]), ids[n], rows[ids[n]].(status := RELEASED), w);
    }
  }

  lemma ReleaseIdsEffect(db: Db, ids: seq<nat>, p: int)
    requires ValidIds(db.rows, ids) && Distinct(ids) && p in db.stock
    requires forall id | id in ids :: db.rows[id].status == RESERVED
    ensures var db' := ReleaseIds(db, ids);
            && db'.stock.Keys == db.stock.Keys
            && db'.stock[p] == db.stock[p] + Total(ids, At(db.rows, Quantity(p)))
            && Total(db'.rows, Held(p)) == Total(db.rows, Held(p)) - Total(ids, At(db.rows, Quantity(p)))
  {
    GiveBackSpec(db, ids, |ids|, p);
    assert ids[..|ids|] == ids;
    FlipTotal(db.rows, ids, Held(p));
    forall i | 0 <= i < |ids|
      ensures At(db.rows, Held(p))(ids[i]) == At(db.rows, Quantity(p))(ids[i])
    {
      assert ids[i] in ids;
    }
    TotalAligned(ids, ids, At(db.rows, Held(p)), At(db.rows, Quantity(p)));
  }

  /** A release returns to each product exactly what the order held of it,
      reports how many rows that was, and leaves the order holding nothing. */
  lemma ReleaseEffect(db: Db, ref: string)
    ensures var (db', count) := Release(db, ref);
            && db'.stock.Keys == db.stock.Keys
            && (forall p | p in db.stock :: db'.stock[p] == db.stock[p] + Total(db.rows, For(ref, Quantity(p))))
            && count == Total(db.rows, For(ref, One()))
            && |db'.rows| == |db.rows|
            && (forall i | 0 <= i < |db.rows| ::
                  db'.rows[i] == if IsHeldFor(db.rows[i], ref) then db.rows[i].(status := RELEASED) else db.rows[i])
  {
    var ids := HeldIds(db.rows, ref);
    HeldIdsSpec(db.rows, ref, One());
    TotalOne(ids, At(db.rows, One()));
    var db' := Release(db, ref).0;
    forall p | p in db.stock
      ensures db'.stock[p] == db.stock[p] + Total(db.rows, For(ref, Quantity(p)))
    {
      ReleaseIdsEffect(db, ids, p);
      HeldIdsSpec(db.rows, ref, Quantity(p));
    }
    assert db'.stock.Keys == db.stock.Keys by {
      forall p | p in db.stock { GiveBackSpec(db, ids, |ids|, p); }
      assert GiveBack(db, ids, |ids|).Keys <= db.stock.Keys by { GiveBackKeys(db, ids, |ids|); }
    }
  }

  lemma {:induction false} GiveBackKeys(db: Db, ids: seq<nat>, n: nat)
    requires n <= |ids| && ValidIds(db.rows, ids)
    ensures GiveBack(db, ids, n).Keys <= db.stock.Keys
  {
    if n > 0 {
      GiveBackKeys(db, ids, n - 1);
    }
  }

  /** Releasing twice is releasing once. */
  lemma ReleaseTwice(db: Db, ref: string)
    ensures var db1 := Release(db, ref).0; Release(db1, ref) == (db1, 0)
  {
    ReleaseEffect(db, ref);
    var db1 := Release(db, ref).0;
    HeldIdsSpec(db1.rows, ref, One());
    var ids := HeldIds(db1.rows, ref);
    assert forall k | 0 <= k < |ids| :: ids[k] in ids;
    assert |ids| == 0;
    assert Flip(db1.rows, ids) == db1.rows;
    assert db1.stock + map[] == db1.stock;
  }

  // ---------------------------------------------------------------- operations and conservation

  datatype Op =
    | DoReserve(ref: string, items: seq<Item>, key: string)
    | DoRelease(ref: string)

  function Apply(db: Db, op: Op): Db {
    match op
    case DoReserve(ref, items, key) => Reserve(db, ref, items, key).0
    case DoRelease(ref) => Release(db, ref).0
  }

  function ApplyAll(db: Db, ops: seq<Op>): Db {
    if ops == [] then db else Apply(ApplyAll(db, ops[..|ops| - 1]), ops[|ops| - 1])
  }

  /** Stock of `p` plus everything RESERVED of it. */
  function Owned(db: Db, p: int): int
    requires p in db.stock
  {
    db.stock[p] + Total(db.rows, Held(p))
  }

  /** `b` is a well-formed state in which no unit of any product was created or lost. */
  ghost predicate Conserves(a: Db, b: Db) {
    && WellFormed(b)
    && b.stock.Keys == a.stock.Keys
    && forall p | p in a.stock :: Owned(b, p) == Owned(a, p)
  }

  lemma RowsForHeld(ref: string, key: string, items: seq<Item>, p: int)
    ensures Total(RowsFor(ref, key, items), Held(p)) == Total(items, Asked(p))
  {
    TotalAligned(RowsFor(ref, key, items), items, Held(p), Asked(p));
  }

  lemma BodyConserves(db: Db, ref: string, key: string, items: seq<Item>)
    requires WellFormed(db)
    ensures Conserves(db, ReserveBody(db, ref, key, items).0)
  {
    BodyEffect(db, ref, key, items);
    var (db', out) := ReserveBody(db, ref, key, items);
    if out.success {
      var news := RowsFor(ref, key, items);
      forall r | r in news
        ensures r.product in db.stock && 0 < r.quantity
      {
        var i :| 0 <= i < |items| && news[i] == r;
        assert items[i] in items;
      }
      forall p | p in db.stock
        ensures Owned(db', p) == Owned(db, p) && 0 <= db'.stock[p]
      {
        TotalConcat(db.rows, news, Held(p));
        RowsForHeld(ref, key, items, p);
        if forall x | x in items :: x.product != p {
          TotalZero(items, Asked(p));
        }
      }
    }
  }

  lemma {:induction false} TotalZero<T>(s: seq<T>, w: T -> int)
    requires forall x | x in s :: w(x) == 0
    ensures Total(s, w) == 0
  {
    if s != [] {
      assert forall x | x in s[..|s| - 1] :: x in s;
      TotalZero(s[..|s| - 1], w);
    }
  }

  /** Returning distinct RESERVED rows conserves every product. */
  lemma ReleaseIdsConserves(db: Db, ids: seq<nat>)
    requires WellFormed(db) && ValidIds(db.rows, ids) && Distinct(ids)
    requires forall id | id in ids :: db.rows[id].status == RESERVED
    ensures Conserves(db, ReleaseIds(db, ids))
  {
    var db' := ReleaseIds(db, ids);
    GiveBackKeys(db, ids, |ids|);
    forall p | p in db.stock
      ensures Owned(db', p) == Owned(db, p) && 0 <= db'.stock[p]
    {
      ReleaseIdsEffect(db, ids, p);
      forall id | id in ids
        ensures 0 <= At(db.rows, Quantity(p))(id)
      {
        assert db.rows[id] in db.rows;
      }
      TotalNonNegative(ids, At(db.rows, Quantity(p)));
    }
    forall r | r in db'.rows
      ensures r.product in db'.stock && 0 < r.quantity
    {
      var i :| 0 <= i < |db'.rows| && db'.rows[i] == r;
      assert db.rows[i] in db.rows;
    }
  }

  lemma ApplyConserves(db: Db, op: Op)
    requires WellFormed(db)
    ensures Conserves(db, Apply(db, op))
  {
    match op
    case DoReserve(ref, items, key) =>
      BodyConserves(db, ref, key, SortByProduct(items));
    case DoRelease(ref) =>
      var ids := HeldIds(db.rows, ref);
      HeldIdsSpec(db.rows, ref, One());
      ReleaseIdsConserves(db, ids);
  }

  /** Stock plus reservations stays what it was, so stock never goes negative
      and never exceeds what there was to begin with. */
  lemma {:induction false} Conservation(db: Db, ops: seq<Op>)
    requires WellFormed(db)
    ensures Conserves(db, ApplyAll(db, ops))
    ensures forall p | p in db.stock :: 0 <= ApplyAll(db, ops).stock[p] <= Owned(db, p)
  {
    if ops != [] {
      Conservation(db, ops[..|ops| - 1]);
      ApplyConserves(ApplyAll(db, ops[..|ops| - 1]), ops[|ops| - 1]);
    }
    HeldBounds(ApplyAll(db, ops));
  }

  lemma HeldBounds(db: Db)
    requires WellFormed(db)
    ensures forall p | p in db.stock :: 0 <= Total(db.rows, Held(p))
  {
    forall p | p in db.stock
      ensures 0 <= Total(db.rows, Held(p))
    {
      TotalNonNegative(db.rows, Held(p));
    }
  }

  // ---------------------------------------------------------------- operations elsewhere

  /** Does this RESERVED row belong to order `ref` or to (non-empty) `key`? */
  predicate Mine(r: Row, ref: string, key: string) {
    r.status == RESERVED && (r.orderRef == ref || (key != "" && r.key == key))
  }

  /** Later rows: anything of `ref` and `key` is exactly where it was. */
  ghost predicate Untouched(rows: seq<Row>, rows': seq<Row>, ref: string, key: string) {
    && |rows| <= |rows'|
    && (forall i | 0 <= i < |rows| ::
          rows'[i] == rows[i] || (!Mine(rows[i], ref, key) && !Mine(rows'[i], ref, key)))
    && (forall i | |rows| <= i < |rows'| :: !Mine(rows'[i], ref, key))
  }

  /** The key's active rows all belong to the order. */
  ghost predicate KeyOwned(rows: seq<Row>, ref: string, key: string) {
    forall r | r in rows :: Mine(r, ref, key) ==> r.orderRef == ref
  }

  /** Works on another order and, when there is a key, under another key. */
  predicate Elsewhere(op: Op, ref: string, key: string) {
    op.ref != ref && (op.DoReserve? && key != "" ==> op.key != key)
  }

  lemma ReserveElsewhere(db: Db, ref': string, items: seq<Item>, key': string, ref: string, key: string)
    requires ref' != ref && (key != "" ==> key' != key)
    ensures Untouched(db.rows, Reserve(db, ref', items, key').0.rows, ref, key)
    ensures KeyOwned(db.rows, ref, key) ==> KeyOwned(Reserve(db, ref', items, key').0.rows, ref, key)
  {
    BodyEffect(db, ref', key', SortByProduct(items));
  }

  lemma ReleaseElsewhere(db: Db, ref': string, ref: string, key: string)
    requires ref' != ref && KeyOwned(db.rows, ref, key)
    ensures Untouched(db.rows, Release(db, ref').0.rows, ref, key)
    ensures KeyOwned(Release(db, ref').0.rows, ref, key)
  {
    ReleaseEffect(db, ref');
    assert forall i | 0 <= i < |db.rows| :: db.rows[i] in db.rows;
  }

  lemma ElsewhereUntouched(db: Db, op: Op, ref: string, key: string)
    requires Elsewhere(op, ref, key) && KeyOwned(db.rows, ref, key)
    ensures Untouched(db.rows, Apply(db, op).rows, ref, key)
    ensures KeyOwned(Apply(db, op).rows, ref, key)
  {
    match op
    case DoReserve(ref', items, key') => ReserveElsewhere(db, ref', items, key', ref, key);
    case DoRelease(ref') => ReleaseElsewhere(db, ref', ref, key);
  }

  lemma UntouchedTransitive(a: seq<Row>, b: seq<Row>, c: seq<Row>, ref: string, key: string)
    requires Untouched(a, b, ref, key) && Untouched(b, c, ref, key)
    ensures Untouched(a, c, ref, key)
  {
    forall i | 0 <= i < |a|
      ensures c[i] == a[i] || (!Mine(a[i], ref, key) && !Mine(c[i], ref, key))
    {
      assert b[i] == a[i] || (!Mine(a[i], ref, key) && !Mine(b[i], ref, key));
    }
    forall i | |a| <= i < |c|
      ensures !Mine(c[i], ref, key)
    {
      if i < |b| {
        assert !Mine(b[i], ref, key);
      }
    }
  }

  lemma {:induction false} AllElsewhereUntouched(db: Db, ops: seq<Op>, ref: string, key: string)
    requires KeyOwned(db.rows, ref, key)
    requires forall op | op in ops :: Elsewhere(op, ref, key)
    ensures Untouched(db.rows, ApplyAll(db, ops).rows, ref, key)
    ensures KeyOwned(ApplyAll(db, ops).rows, ref, key)
  {
    if ops != [] {
      var n := |ops| - 1;
      assert forall op | op in ops[..n] :: op in ops;
      AllElsewhereUntouched(db, ops[..n], ref, key);
      var mid := ApplyAll(db, ops[..n]);
      ElsewhereUntouched(mid, ops[n], ref, key);
      UntouchedTransitive(db.rows, mid.rows, Apply(mid, ops[n]).rows, ref, key);
    }
  }

  lemma UntouchedTotal(rows: seq<Row>, rows': seq<Row>, ref: string, key: string, w: Row -> int)
    requires Untouched(rows, rows', ref, key)
    requires forall r: Row | !Mine(r, ref, key) :: w(r) == 0
    ensures Total(rows', w) == Total(rows, w)
  {
    var n := |rows|;
    assert rows' == rows'[..n] + rows'[n..];
    TotalConcat(rows'[..n], rows'[n..], w);
    TotalZero(rows'[n..], w);
    TotalAligned(rows'[..n], rows, w, w);
  }

  lemma UntouchedBag<T>(rows: seq<Row>, rows': seq<Row>, ref: string, key: string, pick: Row -> multiset<T>)
    requires Untouched(rows, rows', ref, key)
    requires forall r: Row | !Mine(r, ref, key) :: pick(r) == multiset{}
    ensures Bag(rows', pick) == Bag(rows, pick)
  {
    var n := |rows|;
    assert rows' == rows'[..n] + rows'[n..];
    BagConcat(rows'[..n], rows'[n..], pick);
    BagEmpty(rows'[n..], pick);
    BagAligned(rows'[..n], rows, pick, pick);
  }

  // ---------------------------------------------------------------- replay stability

  /** The outcome a replay reports for this row. */
  function ReplayOf(key: string): Row -> multiset<ItemOutcome> {
    (r: Row) => if IsActive(r, key) then multiset{ItemOutcome(r.product, Taken)} else multiset{}
  }

  lemma {:induction false} ReplayBag(rows: seq<Row>, key: string)
    ensures multiset(Replay(rows, key)) == Bag(rows, ReplayOf(key))
  {
    if rows != [] {
      ReplayBag(rows[..|rows| - 1], key);
    }
  }

  lemma NewRowsReplay(ref: string, key: string, items: seq<Item>)
    ensures Bag(RowsFor(ref, key, items), ReplayOf(key)) == multiset(AllTaken(items))
  {
    BagAligned(RowsFor(ref, key, items), AllTaken(items), ReplayOf(key), Self<ItemOutcome>());
    BagSelf(AllTaken(items));
  }

  /** A keyed success leaves active rows for its key whose replay is its own outcome. */
  lemma SuccessIsReplayable(db: Db, ref: string, items: seq<Item>, key: string)
    requires key != "" && Reserve(db, ref, items, key).1.success
    requires KeyOwned(db.rows, ref, key)
    ensures var (db', out) := Reserve(db, ref, items, key);
            && HasActive(db'.rows, key)
            && KeyOwned(db'.rows, ref, key)
            && Bag(db'.rows, ReplayOf(key)) == multiset(out.results)
  {
    if HasActive(db.rows, key) {
      ReplayBag(db.rows, key);
    } else {
      ReserveDecision(db, ref, items, key);
      SortSpec(items);
      AppendedReplay(db.rows, ref, key, SortByProduct(items));
    }
  }

  lemma AppendedReplay(rows: seq<Row>, ref: string, key: string, items: seq<Item>)
    requires key != "" && !HasActive(rows, key) && items != []
    ensures var rows' := rows + RowsFor(ref, key, items);
            && HasActive(rows', key)
            && (KeyOwned(rows, ref, key) ==> KeyOwned(rows', ref, key))
            && Bag(rows', ReplayOf(key)) == multiset(AllTaken(items))
  {
    var news := RowsFor(ref, key, items);
    var rows' := rows + news;
    assert IsActive(rows'[|rows|], key);
    BagConcat(rows, news, ReplayOf(key));
    BagEmpty(rows, ReplayOf(key));
    NewRowsReplay(ref, key, items);
  }

  lemma UntouchedActive(rows: seq<Row>, rows': seq<Row>, ref: string, key: string)
    requires key != "" && Untouched(rows, rows', ref, key) && HasActive(rows, key)
    ensures HasActive(rows', key)
  {
    var r :| r in rows && IsActive(r, key);
    var i :| 0 <= i < |rows| && rows[i] == r;
    assert rows'[i] == r;
  }

  /** Does repeating the key after `ops` succeed with outcomes `out` and change nothing? */
  ghost predicate Repeats(db: Db, out: ReservationOutcome, ops: seq<Op>, ref: string, items: seq<Item>, key: string) {
    var later := ApplyAll(db, ops);
    var (db', again) := Reserve(later, ref, items, key);
    db' == later && again.success && multiset(again.results) == multiset(out.results)
  }

  /** Every operation works on another order and under another key. */
  ghost predicate AllElsewhere(ops: seq<Op>, ref: string, key: string) {
    forall op | op in ops :: Elsewhere(op, ref, key)
  }

  lemma OwnKeyRepeats(db: Db, ref: string, items: seq<Item>, key: string, ops: seq<Op>, ref': string, items': seq<Item>)
    requires key != "" && KeyOwned(db.rows, ref, key)
    requires Reserve(db, ref, items, key).1.success
    requires AllElsewhere(ops, ref, key) && items' != []
    ensures var (db1, out) := Reserve(db, ref, items, key); Repeats(db1, out, ops, ref', items', key)
  {
    var db1 := Reserve(db, ref, items, key).0;
    var db2 := ApplyAll(db1, ops);
    SuccessIsReplayable(db, ref, items, key);
    AllElsewhereUntouched(db1, ops, ref, key);
    UntouchedActive(db1.rows, db2.rows, ref, key);
    UntouchedBag(db1.rows, db2.rows, ref, key, ReplayOf(key));
    ReplayBag(db2.rows, key);
  }

  /** Releasing active rows of the key leaves fewer to replay. */
  lemma {:induction false} ReplayShrinks(rows: seq<Row>, rows': seq<Row>, key: string, i: int)
    requires |rows'| == |rows|
    requires forall k | 0 <= k < |rows| :: rows'[k] == rows[k] || rows'[k] == rows[k].(status := RELEASED)
    ensures |Replay(rows', key)| <= |Replay(rows, key)|
    ensures 0 <= i < |rows| && IsActive(rows[i], key) && !IsActive(rows'[i], key) ==>
              |Replay(rows', key)| < |Replay(rows, key)|
  {
    if rows != [] {
      ReplayShrinks(rows[..|rows| - 1], rows'[..|rows| - 1], key, i);
    }
  }

  lemma FewerNotRepeated(db: Db, db2: Db, key: string, ref: string, items: seq<Item>)
    requires key != "" && HasActive(db.rows, key) && items != []
    requires |Replay(db2.rows, key)| < |Replay(db.rows, key)|
    ensures var (db3, again) := Reserve(db2, ref, items, key);
            !(db3 == db2 && again.success && multiset(again.results) == multiset(Replay(db.rows, key)))
  {
    if HasActive(db2.rows, key) {
      assert |multiset(Replay(db2.rows, key))| < |multiset(Replay(db.rows, key))|;
    } else {
      BodyEffect(db2, ref, key, SortByProduct(items));
      SortSpec(items);
      if Reserve(db2, ref, items, key).1.success {
        assert |Reserve(db2, ref, items, key).0.rows| > |db2.rows|;
      }
    }
  }

  /** A release of the other order that owns some of the key's rows is enough. */
  lemma ForeignKeyFails(db: Db, ref: string, items: seq<Item>, key: string, i: nat)
    requires key != "" && items != [] && i < |db.rows|
    requires Mine(db.rows[i], ref, key) && db.rows[i].orderRef != ref
    ensures var (db1, out) := Reserve(db, ref, items, key);
            && out.success && Elsewhere(DoRelease(db.rows[i].orderRef), ref, key)
            && !Repeats(db1, out, [DoRelease(db.rows[i].orderRef)], ref, items, key)
  {
    var op := DoRelease(db.rows[i].orderRef);
    assert IsActive(db.rows[i], key);
    assert [op][..0] == [];
    assert ApplyAll(db, [op]) == Apply(db, op);
    var db2 := Apply(db, op);
    ReleaseEffect(db, op.ref);
    assert !IsActive(db2.rows[i], key);
    ReplayShrinks(db.rows, db2.rows, key, i);
    FewerNotRepeated(db, db2, key, ref, items);
  }

  /** After a keyed reserve has succeeded, repeating the key succeeds with the same
      outcomes and changes neither table, even under another payload or order
      reference and whatever happens to other orders and keys meanwhile, exactly
      when the key had no active rows of another order when it was used. */
  lemma ReplayStability(db: Db, ref: string, items: seq<Item>, key: string)
    requires key != "" && Reserve(db, ref, items, key).1.success
    ensures var (db1, out) := Reserve(db, ref, items, key);
            KeyOwned(db.rows, ref, key) <==>
            forall ops, ref', items' | AllElsewhere(ops, ref, key) && items' != [] ::
              Repeats(db1, out, ops, ref', items', key)
  {
    var (db1, out) := Reserve(db, ref, items, key);
    if KeyOwned(db.rows, ref, key) {
      forall ops, ref', items' | AllElsewhere(ops, ref, key) && items' != []
        ensures Repeats(db1, out, ops, ref', items', key)
      {
        OwnKeyRepeats(db, ref, items, key, ops, ref', items');
      }
    } else {
      var r :| r in db.rows && Mine(r, ref, key) && r.orderRef != ref;
      var i :| 0 <= i < |db.rows| && db.rows[i] == r;
      ForeignKeyFails(db, ref, items, key, i);
      assert AllElsewhere([DoRelease(r.orderRef)], ref, key);
    }
  }

  /** The case does arise: order B's reserve is answered from order A's rows, and a
      release of A then lets B's key take stock a second time. */
  lemma ForeignReplayUnstable()
    ensures var db := Db(map[1 := 1], [Row(1, "A", "k", 1, RESERVED)]);
            var (db1, out) := Reserve(db, "B", [Item(1, 1)], "k");
            var later := ApplyAll(db1, [DoRelease("A")]);
            var (db2, again) := Reserve(later, "B", [Item(1, 1)], "k");
            && db1 == db && out.success
            && !Repeats(db1, out, [DoRelease("A")], "B", [Item(1, 1)], "k")
            && again.success && 1 in later.stock && 1 in db2.stock && db2.stock[1] == later.stock[1] - 1
  {
    var db := Db(map[1 := 1], [Row(1, "A", "k", 1, RESERVED)]);
    var items := [Item(1, 1)];
    assert IsActive(db.rows[0], "k") && IsHeldFor(db.rows[0], "A");
    ForeignKeyFails(db, "B", items, "k", 0);
    assert [DoRelease("A")][..0] == [];
    var later := Release(db, "A").0;
    ReleaseEffect(db, "A");
    assert ApplyAll(db, [DoRelease("A")]) == later;
    assert db.rows[..0] == [] && items[..0] == [];
    assert Total(db.rows, For("A", Quantity(1))) == 1;
    assert Total(items, Asked(1)) == 1;
    assert FreshKey(later, "k");
    ReserveDecision(later, "B", items, "k");
  }

  // ---------------------------------------------------------------- round trip

  lemma RowsForTotal(ref: string, key: string, items: seq<Item>, p: int)
    ensures Total(RowsFor(ref, key, items), For(ref, Quantity(p))) == Total(items, Asked(p))
    ensures Total(RowsFor(ref, key, items), For(ref, One())) == |items|
  {
    TotalAligned(RowsFor(ref, key, items), items, For(ref, Quantity(p)), Asked(p));
    TotalOne(RowsFor(ref, key, items), For(ref, One()));
  }

  ghost predicate HoldsNothing(rows: seq<Row>, ref: string) {
    forall r | r in rows :: !IsHeldFor(r, ref)
  }

  /** After a successful reserve for an order that held nothing, the order holds
      exactly the request, and so it still does whatever happens elsewhere. */
  lemma HeldAfterReserve(db: Db, ref: string, items: seq<Item>, key: string, ops: seq<Op>, p: int)
    requires HoldsNothing(db.rows, ref) && FreshKey(db, key)
    requires Reserve(db, ref, items, key).1.success
    requires forall op | op in ops :: Elsewhere(op, ref, key)
    ensures var db2 := ApplyAll(Reserve(db, ref, items, key).0, ops);
            && KeyOwned(db2.rows, ref, key)
            && Total(db2.rows, For(ref, Quantity(p))) == Total(items, Asked(p))
            && Total(db2.rows, For(ref, One())) == |items|
  {
    ReserveDecision(db, ref, items, key);
    var db1 := Reserve(db, ref, items, key).0;
    var s := SortByProduct(items);
    SortSpec(items);
    var news := RowsFor(ref, key, s);
    forall r | r in db1.rows
      ensures Mine(r, ref, key) ==> r.orderRef == ref
    {
      if r in db.rows && key != "" {
        assert !IsActive(r, key);
      }
    }
    AllElsewhereUntouched(db1, ops, ref, key);
    SortTotals(items, Asked(p));
    RowsForTotal(ref, key, s, p);
    NewTotal(db.rows, news, ApplyAll(db1, ops).rows, ref, key, Quantity(p));
    NewTotal(db.rows, news, ApplyAll(db1, ops).rows, ref, key, One());
  }

  lemma NewTotal(rows: seq<Row>, news: seq<Row>, later: seq<Row>, ref: string, key: string, w: Row -> int)
    requires HoldsNothing(rows, ref) && Untouched(rows + news, later, ref, key)
    ensures Total(later, For(ref, w)) == Total(news, For(ref, w))
  {
    TotalConcat(rows, news, For(ref, w));
    TotalZero(rows, For(ref, w));
    assert forall r: Row | !Mine(r, ref, key) :: !IsHeldFor(r, ref);
    UntouchedTotal(rows + news, later, ref, key, For(ref, w));
  }

  /** Reserve for an order that holds nothing, let anything happen to other
      orders, then release: each product gets back exactly what was taken, the
      release counts every line, a second release does nothing, and the very
      same request can be reserved again under the same key. */
  lemma RoundTrip(db: Db, ref: string, items: seq<Item>, key: string, ops: seq<Op>)
    requires WellFormed(db) && HoldsNothing(db.rows, ref) && FreshKey(db, key)
    requires Reserve(db, ref, items, key).1.success
    requires forall op | op in ops :: Elsewhere(op, ref, key)
    ensures var db1 := Reserve(db, ref, items, key).0;
            var db2 := ApplyAll(db1, ops);
            var (db3, count) := Release(db2, ref);
            && (forall p | p in db.stock ::
                  && p in db1.stock && p in db2.stock && p in db3.stock
                  && db1.stock[p] == db.stock[p] - Total(items, Asked(p))
                  && db3.stock[p] == db2.stock[p] + Total(items, Asked(p)))
            && count == |items|
            && Release(db3, ref) == (db3, 0)
            && Reserve(db3, ref, items, key).1.success
  {
    ReserveDecision(db, ref, items, key);
    var db1 := Reserve(db, ref, items, key).0;
    var db2 := ApplyAll(db1, ops);
    var (db3, count) := Release(db2, ref);
    assert Conserves(db, db1) by { ApplyConserves(db, DoReserve(ref, items, key)); }
    assert Conserves(db1, db2) by { Conservation(db1, ops); }
    ReleaseEffect(db2, ref);
    forall p | p in db.stock
      ensures db3.stock[p] == db2.stock[p] + Total(items, Asked(p))
    {
      HeldAfterReserve(db, ref, items, key, ops, p);
    }
    assert count == |items| by { HeldAfterReserve(db, ref, items, key, ops, 0); }
    ReleaseTwice(db2, ref);
    assert FreshKey(db3, key) by {
      HeldAfterReserve(db, ref, items, key, ops, 0);
      NoActiveAfterRelease(db2, ref, key);
    }
    assert Fits(db3, key, items) by {
      forall x | x in items
        ensures x.product in db3.stock && Total(items, Asked(x.product)) <= db3.stock[x.product]
      {
        assert 0 <= db2.stock[x.product];
      }
    }
    ReserveDecision(db3, ref, items, key);
  }

  lemma NoActiveAfterRelease(db: Db, ref: string, key: string)
    requires KeyOwned(db.rows, ref, key)
    ensures FreshKey(Release(db, ref).0, key)
  {
    ReleaseEffect(db, ref);
    var db' := Release(db, ref).0;
    forall i | 0 <= i < |db'.rows|
      ensures key != "" ==> !IsActive(db'.rows[i], key)
    {
      assert db.rows[i] in db.rows;
    }
  }
}
