/** What a reserve answers, line by line, said without its loop. */
module ReserveAnswers {
  import opened Totals
  import opened Inventory
  import opened InventoryLaws
  import opened StockLaws
  import opened BulkStream

  // ---------------------------------------------------------------- judging lines by the stock alone

  /** Is `v` the verdict on a line when `used` of its product is taken already? */
  predicate Judges(db: Db, x: Item, used: int, v: Verdict) {
    match v
    case NonPositive => x.quantity <= 0
    case NotFound => 0 < x.quantity && x.product !in db.stock
    case Insufficient => 0 < x.quantity && x.product in db.stock && db.stock[x.product] - used < x.quantity
    case Taken => 0 < x.quantity && x.product in db.stock && x.quantity <= db.stock[x.product] - used
    case _ => false
  }

  /** Quantity of `p` in those of the first `n` lines that were taken. */
  function TakenOf(items: seq<Item>, vs: seq<Verdict>, n: nat, p: int): int
    requires n <= |items| && n <= |vs|
  {
    if n == 0 then 0
    else TakenOf(items, vs, n - 1, p)
         + if vs[n - 1].Taken? && items[n - 1].product == p then items[n - 1].quantity else 0
  }

  /** The first `n` verdicts judge their lines by the stock that earlier taken lines left. */
  ghost predicate Judged(db: Db, items: seq<Item>, vs: seq<Verdict>, n: nat)
    requires n <= |items| && n <= |vs|
  {
    forall i | 0 <= i < n :: Judges(db, items[i], TakenOf(items, vs, i, items[i].product), vs[i])
  }

  lemma {:induction false} TakenOfSame(items: seq<Item>, vs: seq<Verdict>, vs': seq<Verdict>, n: nat, p: int)
    requires n <= |items| && n <= |vs| && n <= |vs'| && forall i | 0 <= i < n :: vs[i] == vs'[i]
    ensures TakenOf(items, vs, n, p) == TakenOf(items, vs', n, p)
  {
    if n > 0 {
      TakenOfSame(items, vs, vs', n - 1, p);
    }
  }

  lemma VerdictUnique(db: Db, items: seq<Item>, vs: seq<Verdict>, vs': seq<Verdict>, n: nat)
    requires n < |items| && n < |vs| && n < |vs'| && forall i | 0 <= i < n :: vs[i] == vs'[i]
    requires Judges(db, items[n], TakenOf(items, vs, n, items[n].product), vs[n])
    requires Judges(db, items[n], TakenOf(items, vs', n, items[n].product), vs'[n])
    ensures vs[n] == vs'[n]
  {
    TakenOfSame(items, vs, vs', n, items[n].product);
  }

  /** There is only one way to judge a request. */
  lemma {:induction false} JudgedUnique(db: Db, items: seq<Item>, vs: seq<Verdict>, vs': seq<Verdict>, n: nat)
    requires n <= |items| && n <= |vs| && n <= |vs'|
    requires Judged(db, items, vs, n) && Judged(db, items, vs', n)
    ensures forall i | 0 <= i < n :: vs[i] == vs'[i]
  {
    if n > 0 {
      JudgedUnique(db, items, vs, vs', n - 1);
      VerdictUnique(db, items, vs, vs', n - 1);
    }
  }

  function Judge(db: Db, x: Item, used: int): (v: Verdict)
    ensures Judges(db, x, used, v)
  {
    if x.quantity <= 0 then NonPositive
    else if x.product !in db.stock then NotFound
    else if db.stock[x.product] - used < x.quantity then Insufficient
    else Taken
  }

  lemma {:induction false} Judgement(db: Db, items: seq<Item>, n: nat) returns (vs: seq<Verdict>)
    requires n <= |items|
    ensures |vs| == n && Judged(db, items, vs, n)
  {
    if n == 0 {
      vs := [];
    } else {
      var head := Judgement(db, items, n - 1);
      vs := head + [Judge(db, items[n - 1], TakenOf(items, head, n - 1, items[n - 1].product))];
      forall i | 0 <= i < n
        ensures Judges(db, items[i], TakenOf(items, vs, i, items[i].product), vs[i])
      {
        TakenOfSame(items, head, vs, i, items[i].product);
      }
    }
  }

  // ---------------------------------------------------------------- meeting the index

  /** Line `i` is taken, and its key already has an active row for its product, in the
      table or from an earlier taken line. */
  ghost predicate Meets(db: Db, key: string, items: seq<Item>, vs: seq<Verdict>, i: nat)
    requires |vs| == |items| && i < |items|
  {
    && vs[i].Taken? && key != ""
    && (|| (exists r | r in db.rows :: r.key == key && r.product == items[i].product && r.status == RESERVED)
        || (exists j | 0 <= j < i :: vs[j].Taken? && items[j].product == items[i].product))
  }

  ghost predicate MeetsBefore(db: Db, key: string, items: seq<Item>, vs: seq<Verdict>, n: nat)
    requires |vs| == |items| && n <= |items|
  {
    exists i | 0 <= i < n :: Meets(db, key, items, vs, i)
  }

  // ---------------------------------------------------------------- the loop does this

  /** The loop's state after `n` lines, in terms of the verdicts. */
  ghost predicate Tracks(db: Db, key: string, items: seq<Item>, vs: seq<Verdict>, n: nat, w: Work)
    requires |vs| == |items| && n <= |items|
  {
    && |w.results| == n
    && (forall i | 0 <= i < n :: w.results[i] == ItemOutcome(items[i].product, vs[i]))
    && (w.allOk <==> forall i | 0 <= i < n :: vs[i].Taken?)
    && (forall p | p in db.stock :: Avail(db, w.dirty, p) == db.stock[p] - TakenOf(items, vs, n, p))
    && (forall p :: Clash(w.added, key, p) <==>
                    key != "" && exists j | 0 <= j < n :: vs[j].Taken? && items[j].product == p)
  }

  lemma TakeTracks(db: Db, ref: string, key: string, items: seq<Item>, vs: seq<Verdict>, n: nat, w: Work)
    requires |vs| == |items| && n < |items| && Tracks(db, key, items, vs, n, w)
    requires vs[n].Taken? && Judges(db, items[n], TakenOf(items, vs, n, items[n].product), vs[n])
    ensures var x := items[n];
            Tracks(db, key, items, vs, n + 1,
                   Take(w, w.dirty[x.product := Avail(db, w.dirty, x.product) - x.quantity], ref, key, x))
  {
    var x := items[n];
    var row := Row(x.product, ref, key, x.quantity, RESERVED);
    forall p
      ensures Clash(w.added + [row], key, p) <==>
              key != "" && exists j | 0 <= j < n + 1 :: vs[j].Taken? && items[j].product == p
    {
      ClashSplit(w.added, [row], key, p);
      assert row in [row];
    }
  }

  lemma FailTracks(db: Db, key: string, items: seq<Item>, vs: seq<Verdict>, n: nat, w: Work)
    requires |vs| == |items| && n < |items| && Tracks(db, key, items, vs, n, w) && !vs[n].Taken?
    ensures Tracks(db, key, items, vs, n + 1, Fail(w, items[n].product, vs[n]))
  {}

  lemma MeetsNext(db: Db, key: string, items: seq<Item>, vs: seq<Verdict>, n: nat)
    requires |vs| == |items| && n < |items|
    ensures MeetsBefore(db, key, items, vs, n + 1) <==>
            MeetsBefore(db, key, items, vs, n) || Meets(db, key, items, vs, n)
  {}

  lemma {:induction false} LoopTracks(db: Db, ref: string, key: string, items: seq<Item>, vs: seq<Verdict>, n: nat)
    requires |vs| == |items| && n <= |items| && Judged(db, items, vs, |items|)
    ensures var b := RunLines(db, ref, key, items, n);
            && (b.Clashed? <==> MeetsBefore(db, key, items, vs, n))
            && (b.Going? ==> Tracks(db, key, items, vs, n, b.work))
  {
    if n > 0 {
      var m := n - 1;
      LoopTracks(db, ref, key, items, vs, m);
      MeetsNext(db, key, items, vs, m);
      var b := RunLines(db, ref, key, items, m);
      assert Judges(db, items[m], TakenOf(items, vs, m, items[m].product), vs[m]);
      if b.Going? {
        LineTracks(db, ref, key, items, vs, m, b.work);
      }
    }
  }

  lemma LineTracks(db: Db, ref: string, key: string, items: seq<Item>, vs: seq<Verdict>, n: nat, w: Work)
    requires |vs| == |items| && n < |items| && Tracks(db, key, items, vs, n, w)
    requires Judges(db, items[n], TakenOf(items, vs, n, items[n].product), vs[n])
    ensures var b := RunLine(db, ref, key, w, items[n]);
            && (b.Clashed? <==> Meets(db, key, items, vs, n))
            && (b.Going? ==> Tracks(db, key, items, vs, n + 1, b.work))
  {
    if vs[n].Taken? {
      TakeTracks(db, ref, key, items, vs, n, w);
    } else {
      FailTracks(db, key, items, vs, n, w);
    }
  }

  // ---------------------------------------------------------------- what is answered

  /** The answer to lines judged `vs`: one outcome per line, in their order, naming
      its product: all duplicates if any taken line meets an active row of the
      key, and otherwise the verdicts. */
  ghost predicate Answered(db: Db, key: string, items: seq<Item>, vs: seq<Verdict>, out: ReservationOutcome)
    requires |vs| == |items|
  {
    var lost := MeetsBefore(db, key, items, vs, |items|);
    && |out.results| == |items|
    && (forall i | 0 <= i < |items| ::
          out.results[i].product == items[i].product && out.results[i].verdict == if lost then Duplicate else vs[i])
    && (out.success <==> !lost && forall i | 0 <= i < |items| :: vs[i].Taken?)
  }

  /** The transaction body answers every line by its quantity, its existence and the
      stock left by the earlier taken lines, or all of them as duplicates. */
  lemma BodyAnswers(db: Db, ref: string, key: string, items: seq<Item>) returns (vs: seq<Verdict>)
    ensures |vs| == |items| && Judged(db, items, vs, |items|)
    ensures Answered(db, key, items, vs, ReserveBody(db, ref, key, items).1)
  {
    vs := Judgement(db, items, |items|);
    LoopTracks(db, ref, key, items, vs, |items|);
  }

  /** A whole reserve: an empty request is refused with no outcomes; an active key is
      answered by a success for each of its active rows; anything else is answered
      as its sorted lines are judged. */
  lemma ReserveAnswered(db: Db, ref: string, items: seq<Item>, key: string) returns (vs: seq<Verdict>)
    ensures var s := SortByProduct(items);
            |vs| == |s| && Judged(db, s, vs, |s|)
    ensures var (db', out) := Reserve(db, ref, items, key);
            if items == [] then db' == db && out == ReservationOutcome(false, [])
            else if FreshKey(db, key) then Answered(db, key, SortByProduct(items), vs, out)
            else db' == db && out.success && multiset(out.results) == Bag(db.rows, ReplayOf(key))
  {
    vs := BodyAnswers(db, ref, key, SortByProduct(items));
    ReplayBag(db.rows, key);
  }

  // ---------------------------------------------------------------- the bulk stream's answers

  /** A line of the stream is answered by what is wrong with it first. */
  lemma StreamVerdict(db: Db, lines: seq<BulkLine>, i: nat)
    requires i < |lines|
    ensures var outs := TakeLines(db, lines, |lines|).1;
            var line, v := lines[i], outs[i].verdict;
            if line.orderRef == "" then v == MissingRef
            else Judges(db, Item(line.product, line.quantity),
                        Total(Zip(lines[..i], outs[..i]), AcceptedOf(line.product)), v)
  {
    OutcomeAt(db, lines, i);
    TakeLinesEcho(db, lines, i);
    var mid := TakeLines(db, lines, i).0;
    var line := lines[i];
    if line.product in db.stock {
      TakeLinesStock(db, lines, i, line.product);
    }
    if line.orderRef != "" {
      LineVerdict(mid, line);
    }
  }

  lemma LineVerdict(db: Db, line: BulkLine)
    requires line.orderRef != ""
    ensures Judges(db, Item(line.product, line.quantity), 0, TakeLine(db, line).1.verdict)
  {
    var x := Item(line.product, line.quantity);
    assert SortByProduct([x]) == [x] by { assert [x][1..] == []; }
    OneLineReserve(db, line.orderRef, x);
    var vs := ReserveAnswered(db, line.orderRef, [x], "");
    assert TakenOf([x], vs, 0, x.product) == 0;
    assert Judges(db, [x][0], 0, vs[0]);
    assert !MeetsBefore(db, "", [x], vs, 1);
  }
}
