/** The inventory database and what one transaction of the service layer does to
    it: the reference meaning of `reserve_stock` and `release_stock`. */
module Inventory {
  import opened Totals

  datatype Item = Item(product: int, quantity: int)

  datatype Status = RESERVED | RELEASED

  /** One StockReservation row. Its id is its index in the table. */
  datatype Row = Row(product: int, orderRef: string, key: string, quantity: int, status: Status)

  /** The two tables: available quantity per product, and the reservations. */
  datatype Db = Db(stock: map<int, int>, rows: seq<Row>)

  datatype Verdict = Taken | NonPositive | NotFound | Insufficient | Duplicate | MissingRef

  datatype ItemOutcome = ItemOutcome(product: int, verdict: Verdict) {
    predicate Reserved() { verdict.Taken? }
  }

  datatype ReservationOutcome = ReservationOutcome(success: bool, results: seq<ItemOutcome>)

  /** What the database itself guarantees: no negative stock, and every row a
      positive quantity of an existing product. */
  ghost predicate WellFormed(db: Db) {
    && (forall p | p in db.stock :: 0 <= db.stock[p])
    && (forall r | r in db.rows :: r.product in db.stock && 0 < r.quantity)
  }

  // ---------------------------------------------------------------- weights

  /** Requested quantity of product `p`. */
  function Asked(p: int): Item -> int { (x: Item) => if x.product == p then x.quantity else 0 }

  /** Quantity of product `p` held by a RESERVED row. */
  function Held(p: int): Row -> int {
    (r: Row) => if r.product == p && r.status == RESERVED then r.quantity else 0
  }

  /** The line that a RESERVED row of order `ref` holds, if it is one. */
  function LineOf(ref: string): Row -> multiset<Item> {
    (r: Row) =>
      if r.orderRef == ref && r.status == RESERVED then multiset{Item(r.product, r.quantity)} else multiset{}
  }

  /** All lines RESERVED for order `ref`. */
  function HeldBy(rows: seq<Row>, ref: string): multiset<Item> { Bag(rows, LineOf(ref)) }

  // ---------------------------------------------------------------- sorting

  function InsertByProduct(x: Item, s: seq<Item>): seq<Item> {
    if s == [] || x.product <= s[0].product then [x] + s else [s[0]] + InsertByProduct(x, s[1..])
  }

  /** The stable sort that fixes the locking order. */
  function SortByProduct(items: seq<Item>): seq<Item> {
    if items == [] then [] else InsertByProduct(items[0], SortByProduct(items[1..]))
  }

  // ---------------------------------------------------------------- reserve

  /** A running reserve transaction's own writes, on top of the committed
      tables: changed stock values, inserted rows, and what it will report. */
  datatype Work = Work(dirty: map<int, int>, added: seq<Row>, results: seq<ItemOutcome>, allOk: bool)

  datatype Body = Going(work: Work) | Clashed

  const NoWork := Work(map[], [], [], true)

  /** The stock a transaction sees: its own write, else the committed row. */
  function Avail(db: Db, dirty: map<int, int>, p: int): int
    requires p in db.stock
  {
    if p in dirty then dirty[p] else db.stock[p]
  }

  /** Would inserting an active row for (key, product) violate the partial
      unique index over these rows? */
  predicate Clash(rows: seq<Row>, key: string, p: int) {
    key != "" && exists r | r in rows :: r.key == key && r.product == p && r.status == RESERVED
  }

  predicate IsActive(r: Row, key: string) { r.key == key && r.status == RESERVED }

  predicate HasActive(rows: seq<Row>, key: string) { exists r | r in rows :: IsActive(r, key) }

  function Fail(w: Work, p: int, v: Verdict): Work {
    w.(results := w.results + [ItemOutcome(p, v)], allOk := false)
  }

  function Take(w: Work, dirty: map<int, int>, ref: string, key: string, x: Item): Work {
    Work(dirty, w.added + [Row(x.product, ref, key, x.quantity, RESERVED)],
         w.results + [ItemOutcome(x.product, Taken)], w.allOk)
  }

  /** One turn of the reservation loop. */
  function RunLine(db: Db, ref: string, key: string, w: Work, x: Item): Body {
    if x.quantity <= 0 then Going(Fail(w, x.product, NonPositive))
    else if x.product !in db.stock then Going(Fail(w, x.product, NotFound))
    else if Avail(db, w.dirty, x.product) < x.quantity then Going(Fail(w, x.product, Insufficient))
    else if Clash(db.rows, key, x.product) || Clash(w.added, key, x.product) then Clashed
    else Going(Take(w, w.dirty[x.product := Avail(db, w.dirty, x.product) - x.quantity], ref, key, x))
  }

  /** The reservation loop after `n` of the sorted items. */
  function RunLines(db: Db, ref: string, key: string, items: seq<Item>, n: nat): Body
    requires n <= |items|
  {
    if n == 0 then Going(NoWork)
    else
      match RunLines(db, ref, key, items, n - 1)
      case Clashed => Clashed
      case Going(w) => RunLine(db, ref, key, w, items[n - 1])
  }

  function Commit(db: Db, w: Work): Db { Db(db.stock + w.dirty, db.rows + w.added) }

  function AllDuplicate(items: seq<Item>): seq<ItemOutcome> {
    seq(|items|, i requires 0 <= i < |items| => ItemOutcome(items[i].product, Duplicate))
  }

  /** End of the atomic block: commit, roll back, or report the lost index race. */
  function Conclude(db: Db, b: Body, items: seq<Item>): (Db, ReservationOutcome) {
    match b
    case Clashed => (db, ReservationOutcome(false, AllDuplicate(items)))
    case Going(w) => (if w.allOk then Commit(db, w) else db, ReservationOutcome(w.allOk, w.results))
  }

  /** The transaction body on already sorted items, run with nobody else about. */
  function ReserveBody(db: Db, ref: string, key: string, items: seq<Item>): (Db, ReservationOutcome) {
    Conclude(db, RunLines(db, ref, key, items, |items|), items)
  }

  /** Outcomes of an idempotent replay, newest row first. */
  function Replay(rows: seq<Row>, key: string): seq<ItemOutcome> {
    if rows == [] then []
    else
      var r := rows[|rows| - 1];
      var older := Replay(rows[..|rows| - 1], key);
      if IsActive(r, key) then [ItemOutcome(r.product, Taken)] + older else older
  }

  /** `reserve_stock` as one atomic operation. */
  function Reserve(db: Db, ref: string, items: seq<Item>, key: string): (Db, ReservationOutcome) {
    if items == [] then (db, ReservationOutcome(false, []))
    else if key != "" && HasActive(db.rows, key) then (db, ReservationOutcome(true, Replay(db.rows, key)))
    else ReserveBody(db, ref, key, SortByProduct(items))
  }

  // ---------------------------------------------------------------- release

  predicate IsHeldFor(r: Row, ref: string) { r.orderRef == ref && r.status == RESERVED }

  /** Does row id `a` come before row id `b` in (product, id) order? */
  predicate Before(rows: seq<Row>, a: nat, b: nat)
    requires a < |rows| && b < |rows|
  {
    rows[a].product < rows[b].product || (rows[a].product == rows[b].product && a < b)
  }

  predicate ValidIds(rows: seq<Row>, ids: seq<nat>) { forall k | 0 <= k < |ids| :: ids[k] < |rows| }

  function InsertId(rows: seq<Row>, ids: seq<nat>, x: nat): (r: seq<nat>)
    requires x < |rows| && ValidIds(rows, ids)
    ensures ValidIds(rows, r)
  {
    if ids == [] || Before(rows, x, ids[0]) then [x] + ids
    else [ids[0]] + InsertId(rows, ids[1..], x)
  }

  /** Ids below `n` of the rows RESERVED for `ref`, in (product, id) order. */
  function HeldIdsUpTo(rows: seq<Row>, ref: string, n: nat): (r: seq<nat>)
    requires n <= |rows|
    ensures ValidIds(rows, r)
  {
    if n == 0 then []
    else
      var r := HeldIdsUpTo(rows, ref, n - 1);
      if IsHeldFor(rows[n - 1], ref) then InsertId(rows, r, n - 1) else r
  }

  /** The rows a release selects: RESERVED for `ref`, in (product, id) order. */
  function HeldIds(rows: seq<Row>, ref: string): seq<nat> { HeldIdsUpTo(rows, ref, |rows|) }

  /** Stock values changed after giving back the first `n` of `ids`. An update
      of a product that does not exist matches no row. */
  function GiveBack(db: Db, ids: seq<nat>, n: nat): map<int, int>
    requires n <= |ids| && ValidIds(db.rows, ids)
  {
    if n == 0 then map[]
    else
      var d := GiveBack(db, ids, n - 1);
      var r := db.rows[ids[n - 1]];
      if r.product in db.stock then d[r.product := Avail(db, d, r.product) + r.quantity] else d
  }

  /** The rows with every one of `ids` marked RELEASED. */
  function Flip(rows: seq<Row>, ids: seq<nat>): seq<Row> {
    seq(|rows|, i requires 0 <= i < |rows| => if i in ids then rows[i].(status := RELEASED) else rows[i])
  }

  function ReleaseIds(db: Db, ids: seq<nat>): Db
    requires ValidIds(db.rows, ids)
  {
    Db(db.stock + GiveBack(db, ids, |ids|), Flip(db.rows, ids))
  }

  /** `release_stock` as one atomic operation, with its released_count. */
  function Release(db: Db, ref: string): (Db, nat) {
    var ids := HeldIds(db.rows, ref);
    (ReleaseIds(db, ids), |ids|)
  }
}
