/** The client-streaming bulk reservation: one transaction per line, best effort. */
module BulkStream {
  import opened Totals
  import opened Inventory

  datatype BulkLine = BulkLine(orderRef: string, product: int, quantity: int)

  datatype BulkOutcome = BulkOutcome(orderRef: string, product: int, verdict: Verdict) {
    predicate Reserved() { verdict.Taken? }
  }

  datatype BulkSummary = BulkSummary(total: nat, reservedCount: nat, failedCount: int, results: seq<BulkOutcome>)

  /** A one-line reserve decides on that line alone. */
  lemma OneLineReserve(db: Db, ref: string, x: Item)
    ensures var (db', out) := Reserve(db, ref, [x], "");
            && |out.results| == 1 && out.results[0].product == x.product
            && out.success == out.results[0].Reserved()
            && (out.success <==> 0 < x.quantity && x.product in db.stock && x.quantity <= db.stock[x.product])
            && db' == if out.success
                      then Db(db.stock[x.product := db.stock[x.product] - x.quantity],
                              db.rows + [Row(x.product, ref, "", x.quantity, RESERVED)])
                      else db
  {
    assert SortByProduct([x]) == [x] by { assert [x][1..] == []; }
    var b := RunLines(db, ref, "", [x], 1);
    assert RunLines(db, ref, "", [x], 0) == Going(NoWork);
    assert b == RunLine(db, ref, "", NoWork, x);
    var (db', out) := Reserve(db, ref, [x], "");
    if out.success {
      var w := b.work;
      assert db.stock + w.dirty == db.stock[x.product := db.stock[x.product] - x.quantity];
    }
  }

  /** One turn of the stream loop. */
  function TakeLine(db: Db, line: BulkLine): (Db, BulkOutcome) {
    if line.orderRef == "" then (db, BulkOutcome(line.orderRef, line.product, MissingRef))
    else
      var x := Item(line.product, line.quantity);
      var (db', out) := Reserve(db, line.orderRef, [x], "");
      OneLineReserve(db, line.orderRef, x);
      (db', BulkOutcome(line.orderRef, out.results[0].product, out.results[0].verdict))
  }

  /** The stream after `n` lines, run alone. */
  function TakeLines(db: Db, lines: seq<BulkLine>, n: nat): (r: (Db, seq<BulkOutcome>))
    requires n <= |lines|
    ensures |r.1| == n
  {
    if n == 0 then (db, [])
    else
      var (mid, outs) := TakeLines(db, lines, n - 1);
      var (db', out) := TakeLine(mid, lines[n - 1]);
      (db', outs + [out])
  }

  // ---------------------------------------------------------------- what was accepted

  /** Quantity of `p` in the lines that were accepted. */
  function AcceptedOf(p: int): ((BulkLine, BulkOutcome)) -> int {
    (x: (BulkLine, BulkOutcome)) => if x.1.Reserved() && x.0.product == p then x.0.quantity else 0
  }

  /** The lines of order `ref` that were accepted. */
  function AcceptedFor(ref: string): ((BulkLine, BulkOutcome)) -> multiset<Item> {
    (x: (BulkLine, BulkOutcome)) =>
      if x.1.Reserved() && x.0.orderRef == ref then multiset{Item(x.0.product, x.0.quantity)} else multiset{}
  }

  function IsReserved(): BulkOutcome -> int { (o: BulkOutcome) => if o.Reserved() then 1 else 0 }

  function Zip(lines: seq<BulkLine>, outs: seq<BulkOutcome>): seq<(BulkLine, BulkOutcome)>
    requires |lines| == |outs|
  {
    seq(|lines|, i requires 0 <= i < |lines| => (lines[i], outs[i]))
  }

  lemma ZipSnoc(lines: seq<BulkLine>, outs: seq<BulkOutcome>, x: BulkLine, o: BulkOutcome)
    requires |lines| == |outs|
    ensures Zip(lines + [x], outs + [o]) == Zip(lines, outs) + [(x, o)]
  {}

  /** What one line does to the accounts. */
  lemma TakeLineEffect(db: Db, line: BulkLine)
    ensures var (db', o) := TakeLine(db, line);
            && o.orderRef == line.orderRef && o.product == line.product
            && (o.Reserved() <==>
                  line.orderRef != "" && 0 < line.quantity && line.product in db.stock
                  && line.quantity <= db.stock[line.product])
            && db'.stock.Keys == db.stock.Keys
            && (forall p | p in db.stock :: db'.stock[p] == db.stock[p] - AcceptedOf(p)((line, o)))
            && (o.Reserved() ==>
                  db'.rows == db.rows + [Row(line.product, line.orderRef, "", line.quantity, RESERVED)])
            && (!o.Reserved() ==> db' == db)
            && (forall ref :: HeldBy(db'.rows, ref) == HeldBy(db.rows, ref) + AcceptedFor(ref)((line, o)))
  {
    if line.orderRef != "" {
      OneLineReserve(db, line.orderRef, Item(line.product, line.quantity));
      var (db', o) := TakeLine(db, line);
      if o.Reserved() {
        var row := Row(line.product, line.orderRef, "", line.quantity, RESERVED);
        forall ref
          ensures HeldBy(db'.rows, ref) == HeldBy(db.rows, ref) + AcceptedFor(ref)((line, o))
        {
          assert (db.rows + [row])[..|db.rows|] == db.rows;
          assert IsHeldFor(row, ref) <==> line.orderRef == ref;
        }
      }
    }
  }

  lemma LineEcho(db: Db, line: BulkLine)
    ensures var (db', o) := TakeLine(db, line);
            db'.stock.Keys == db.stock.Keys && o.orderRef == line.orderRef && o.product == line.product
  {
    TakeLineEffect(db, line);
  }

  lemma {:induction false} TakeLinesEcho(db: Db, lines: seq<BulkLine>, n: nat)
    requires n <= |lines|
    ensures TakeLines(db, lines, n).0.stock.Keys == db.stock.Keys
    ensures var outs := TakeLines(db, lines, n).1;
            forall i | 0 <= i < n :: outs[i].orderRef == lines[i].orderRef && outs[i].product == lines[i].product
  {
    if n > 0 {
      TakeLinesEcho(db, lines, n - 1);
      LineEcho(TakeLines(db, lines, n - 1).0, lines[n - 1]);
    }
  }

  /** Zipping one line more appends one pair. */
  lemma ZipNext(db: Db, lines: seq<BulkLine>, n: nat)
    requires 0 < n <= |lines|
    ensures var (mid, outs) := TakeLines(db, lines, n - 1);
            Zip(lines[..n], TakeLines(db, lines, n).1) ==
            Zip(lines[..n - 1], outs) + [(lines[n - 1], TakeLine(mid, lines[n - 1]).1)]
  {
    var (mid, outs) := TakeLines(db, lines, n - 1);
    assert lines[..n] == lines[..n - 1] + [lines[n - 1]];
    ZipSnoc(lines[..n - 1], outs, lines[n - 1], TakeLine(mid, lines[n - 1]).1);
  }

  lemma {:induction false} TakeLinesStock(db: Db, lines: seq<BulkLine>, n: nat, p: int)
    requires n <= |lines| && p in db.stock
    ensures var (db', outs) := TakeLines(db, lines, n);
            p in db'.stock && db'.stock[p] == db.stock[p] - Total(Zip(lines[..n], outs), AcceptedOf(p))
  {
    if n > 0 {
      TakeLinesStock(db, lines, n - 1, p);
      var (mid, outs) := TakeLines(db, lines, n - 1);
      TakeLineEffect(mid, lines[n - 1]);
      ZipNext(db, lines, n);
      TotalAppend(Zip(lines[..n - 1], outs), (lines[n - 1], TakeLine(mid, lines[n - 1]).1), AcceptedOf(p));
    }
  }

  lemma {:induction false} TakeLinesHeldBy(db: Db, lines: seq<BulkLine>, n: nat, ref: string)
    requires n <= |lines|
    ensures var (db', outs) := TakeLines(db, lines, n);
            HeldBy(db'.rows, ref) == HeldBy(db.rows, ref) + Bag(Zip(lines[..n], outs), AcceptedFor(ref))
  {
    if n > 0 {
      TakeLinesHeldBy(db, lines, n - 1, ref);
      var (mid, outs) := TakeLines(db, lines, n - 1);
      TakeLineEffect(mid, lines[n - 1]);
      ZipNext(db, lines, n);
      BagAppend(Zip(lines[..n - 1], outs), (lines[n - 1], TakeLine(mid, lines[n - 1]).1), AcceptedFor(ref));
    }
  }

  /** After `n` lines the stock has dropped by exactly the accepted lines and
      each order holds exactly its accepted lines on top of what it held. */
  lemma TakeLinesEffect(db: Db, lines: seq<BulkLine>, n: nat)
    requires n <= |lines|
    ensures var (db', outs) := TakeLines(db, lines, n);
            && db'.stock.Keys == db.stock.Keys
            && (forall p | p in db.stock ::
                  db'.stock[p] == db.stock[p] - Total(Zip(lines[..n], outs), AcceptedOf(p)))
            && (forall ref ::
                  HeldBy(db'.rows, ref) == HeldBy(db.rows, ref) + Bag(Zip(lines[..n], outs), AcceptedFor(ref)))
            && (forall i | 0 <= i < n :: outs[i].orderRef == lines[i].orderRef && outs[i].product == lines[i].product)
  {
    TakeLinesEcho(db, lines, n);
    forall p | p in db.stock { TakeLinesStock(db, lines, n, p); }
    forall ref { TakeLinesHeldBy(db, lines, n, ref); }
  }

  /** Earlier results do not change as the stream goes on. */
  lemma {:induction false} TakeLinesPrefix(db: Db, lines: seq<BulkLine>, k: nat, n: nat)
    requires k <= n <= |lines|
    ensures TakeLines(db, lines, n).1[..k] == TakeLines(db, lines, k).1
  {
    if k < n {
      TakeLinesPrefix(db, lines, k, n - 1);
    }
  }

  /** The outcomes before line `i` are those of the first `i` lines, and outcome
      `i` is what line `i` gets after them. */
  lemma OutcomeAt(db: Db, lines: seq<BulkLine>, i: nat)
    requires i < |lines|
    ensures var outs := TakeLines(db, lines, |lines|).1;
            && outs[..i] == TakeLines(db, lines, i).1
            && outs[i] == TakeLine(TakeLines(db, lines, i).0, lines[i]).1
  {
    TakeLinesPrefix(db, lines, i, |lines|);
    TakeLinesPrefix(db, lines, i + 1, |lines|);
    var outs := TakeLines(db, lines, |lines|).1;
    assert outs[i] == outs[..i + 1][i];
  }

  /** The stream is greedy: line `i` is accepted exactly when it is well formed,
      positive, known, and fits the stock that the earlier accepted lines left. */
  lemma GreedyStream(db: Db, lines: seq<BulkLine>, i: nat)
    requires i < |lines|
    ensures var outs := TakeLines(db, lines, |lines|).1;
            outs[i].Reserved() <==>
              && lines[i].orderRef != ""
              && 0 < lines[i].quantity
              && lines[i].product in db.stock
              && lines[i].quantity <=
                 db.stock[lines[i].product] - Total(Zip(lines[..i], outs[..i]), AcceptedOf(lines[i].product))
  {
    OutcomeAt(db, lines, i);
    TakeLineEffect(TakeLines(db, lines, i).0, lines[i]);
    TakeLinesEcho(db, lines, i);
    if lines[i].product in db.stock {
      TakeLinesStock(db, lines, i, lines[i].product);
    }
  }
}
