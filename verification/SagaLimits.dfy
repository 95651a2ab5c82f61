/** Where the saga's promises stop: dropping any one assumption admits a run that
    breaks them, so each promise holds over all runs exactly under its assumptions. */
module SagaLimits {
  import opened Totals
  import opened Inventory
  import opened StockLaws
  import opened Holdings
  import opened BulkStream
  import opened Batch
  import opened Saga
  import opened SagaLaws

  const OneUnit := [Item(1, 1)]
  const TwoUnits := [Item(1, 2)]
  const OneLeft := map[1 := 1]
  const Full := Db(OneLeft, [])
  const Taken1 := Db(map[1 := 0], [Row(1, "k", "k", 1, RESERVED)])
  const Freed := Db(OneLeft, [Row(1, "k", "k", 1, RELEASED)])

  const Answered := Attempt(true, true, false)
  const LostAnswer := Attempt(true, false, false)

  // every assumption but one
  const Overlapping := Strict.(noOverlap := false)
  const ChangingPayload := Strict.(samePayload := false)
  const FailingRefresh := Strict.(refreshHolds := false)
  const SharedIds := Strict.(ownKeys := false)

  // ---------------------------------------------------------------- the inventory side

  lemma TakesTheUnit()
    ensures Reserve(Full, "k", OneUnit, "k").0 == Taken1 && Reserve(Full, "k", OneUnit, "k").1.success
  {
    assert SortByProduct(OneUnit) == OneUnit by { assert OneUnit[1..] == []; }
    assert RunLines(Full, "k", "k", OneUnit, 0) == Going(NoWork);
    assert RunLines(Full, "k", "k", OneUnit, 1) == RunLine(Full, "k", "k", NoWork, OneUnit[0]);
    assert Full.stock + map[1 := 0] == map[1 := 0];
  }

  lemma ReplaysTheUnit(items: seq<Item>)
    requires items != []
    ensures Reserve(Taken1, "k", items, "k").0 == Taken1 && Reserve(Taken1, "k", items, "k").1.success
  {
    assert IsActive(Taken1.rows[0], "k");
  }

  lemma FreesTheUnit()
    ensures Release(Taken1, "k").0 == Freed
  {
    ReleaseEffect(Taken1, "k");
    var db := Release(Taken1, "k").0;
    assert IsHeldFor(Taken1.rows[0], "k");
    assert db.rows == Freed.rows;
    assert Taken1.rows[..0] == [];
    assert Total(Taken1.rows, For("k", Quantity(1))) == 1;
    assert db.stock == Freed.stock;
  }

  /** More of some product is sold and on offer together than there ever was. */
  ghost predicate Oversold(catalog: map<int, int>, s: State) {
    exists p :: p in catalog && p in s.inv.stock && Total(s.orders, Sold(p)) + s.inv.stock[p] > catalog[p]
  }

  lemma SoldOne(s: State, o: Order)
    requires s.orders == [o] && 1 in s.inv.stock && |o.items| == 1 && o.items[0].product == 1
    requires o.items[0].quantity + s.inv.stock[1] > 1
    ensures Oversold(OneLeft, s)
  {
    assert s.orders[..0] == [] && o.items[..0] == [];
    assert Total(o.items, Asked(1)) == o.items[0].quantity;
    assert Total(s.orders, Sold(1)) == o.items[0].quantity;
  }

  lemma Uncovered(s: State, o: Order)
    requires o.id == "k" && |o.items| == 1 && (s.inv == Freed || (s.inv == Taken1 && o.items == TwoUnits))
    ensures !Covered(s.inv, o)
  {
    var r := s.inv.rows[0];
    assert s.inv.rows[..0] == [];
    assert HeldBy(s.inv.rows, "k") == LineOf("k")(r);
    assert o.items[0] in multiset(o.items);
  }

  lemma {:induction false} LeadsStep(u: Rules, s: State, acts: seq<Action>, t: State, a: Action)
    requires Leads(u, s, acts, t) && Allowed(u, t, a)
    ensures Leads(u, s, acts + [a], Next(u, t, a))
    decreases |acts|
  {
    if acts == [] {
      assert acts + [a] == [a] && [a][1..] == [];
    } else {
      LeadsStep(u, Next(u, s, acts[0]), acts[1..], t, a);
      assert (acts + [a])[1..] == acts[1..] + [a];
    }
  }

  lemma Extend(u: Rules, catalog: map<int, int>, acts: seq<Action>, s: State, a: Action)
    returns (acts': seq<Action>, s': State)
    requires Leads(u, Start(catalog), acts, s) && Allowed(u, s, a)
    ensures Leads(u, Start(catalog), acts', s') && s' == Next(u, s, a)
  {
    LeadsStep(u, Start(catalog), acts, s, a);
    acts', s' := acts + [a], Next(u, s, a);
  }

  // ---------------------------------------------------------------- overselling runs

  function Asking(pc: SinglePc): Req { Single("k", OneUnit, pc) }

  lemma BothLooking() returns (acts: seq<Action>, s: State)
    ensures Leads(Overlapping, Start(OneLeft), acts, s)
    ensures s == State(Full, [], map[1 := Asking(Looking), 2 := Asking(Looking)], map["k" := OneUnit], {})
  {
    acts, s := [], Start(OneLeft);
    acts, s := Extend(Overlapping, OneLeft, acts, s, BeginSingle(1, "k", OneUnit));
    acts, s := Extend(Overlapping, OneLeft, acts, s, BeginSingle(2, "k", OneUnit));
  }

  /** Two requests with one key, both about to call the inventory. */
  lemma BothCalling() returns (acts: seq<Action>, s: State)
    ensures Leads(Overlapping, Start(OneLeft), acts, s)
    ensures s == State(Full, [], map[1 := Asking(Calling(0)), 2 := Asking(Calling(0))], map["k" := OneUnit], {})
  {
    acts, s := BothLooking();
    acts, s := Extend(Overlapping, OneLeft, acts, s, Look(1));
    acts, s := Extend(Overlapping, OneLeft, acts, s, Look(2));
  }

  lemma OneConfirmed() returns (acts: seq<Action>, s: State)
    ensures Leads(Overlapping, Start(OneLeft), acts, s)
    ensures s == State(Taken1, [], map[1 := Asking(Persisting), 2 := Asking(Calling(0))], map["k" := OneUnit], {})
  {
    acts, s := BothCalling();
    TakesTheUnit();
    acts, s := Extend(Overlapping, OneLeft, acts, s, CallReserve(1, Answered));
  }

  /** The first took the unit, the second had it confirmed by a replay. */
  lemma BothConfirmed() returns (acts: seq<Action>, s: State)
    ensures Leads(Overlapping, Start(OneLeft), acts, s)
    ensures s == State(Taken1, [], map[1 := Asking(Persisting), 2 := Asking(Persisting)], map["k" := OneUnit], {})
  {
    acts, s := OneConfirmed();
    ReplaysTheUnit(OneUnit);
    acts, s := Extend(Overlapping, OneLeft, acts, s, CallReserve(2, Answered));
  }

  /** Two overlapping requests with one key and one payload: the loser fails on
      the order's primary key and its compensation releases the winner's stock. */
  lemma OverlapOversells() returns (acts: seq<Action>, s: State)
    ensures Leads(Overlapping, Start(OneLeft), acts, s)
    ensures s.orders == [Order("k", OneUnit)] && !Covered(s.inv, s.orders[0])
    ensures Oversold(OneLeft, s)
  {
    acts, s := BothConfirmed();
    FreesTheUnit();
    acts, s := Extend(Overlapping, OneLeft, acts, s, Persist(1, true));
    acts, s := Extend(Overlapping, OneLeft, acts, s, Persist(2, false));
    acts, s := Extend(Overlapping, OneLeft, acts, s, CallRelease(2, Answered));
    SoldOne(s, s.orders[0]);
    Uncovered(s, s.orders[0]);
  }

  /** One request, about to call the inventory. */
  lemma FirstCall(u: Rules) returns (acts: seq<Action>, s: State)
    ensures Leads(u, Start(OneLeft), acts, s)
    ensures s == State(Full, [], map[1 := Asking(Calling(0))], map["k" := OneUnit], {})
  {
    acts, s := [], Start(OneLeft);
    acts, s := Extend(u, OneLeft, acts, s, BeginSingle(1, "k", OneUnit));
    acts, s := Extend(u, OneLeft, acts, s, Look(1));
  }

  /** A reserve that took effect but whose answer was lost. */
  lemma LostReserve(u: Rules) returns (acts: seq<Action>, s: State)
    ensures Leads(u, Start(OneLeft), acts, s)
    ensures s == State(Taken1, [], map[1 := Asking(Ended(RpcError))], map["k" := OneUnit], {})
  {
    acts, s := FirstCall(u);
    TakesTheUnit();
    acts, s := Extend(u, OneLeft, acts, s, CallReserve(1, LostAnswer));
  }

  /** The key's second request, with its own payload, at `pc`. */
  function OtherPayload(pc: SinglePc): map<int, Req> {
    map[1 := Asking(Ended(RpcError)), 2 := Single("k", TwoUnits, pc)]
  }

  lemma OtherPayloadBegins() returns (acts: seq<Action>, s: State)
    ensures Leads(ChangingPayload, Start(OneLeft), acts, s)
    ensures s == State(Taken1, [], OtherPayload(Looking), map["k" := OneUnit], {})
  {
    acts, s := LostReserve(ChangingPayload);
    acts, s := Extend(ChangingPayload, OneLeft, acts, s, BeginSingle(2, "k", TwoUnits));
  }

  lemma OtherPayloadCalls() returns (acts: seq<Action>, s: State)
    ensures Leads(ChangingPayload, Start(OneLeft), acts, s)
    ensures s == State(Taken1, [], OtherPayload(Calling(0)), map["k" := OneUnit], {})
  {
    acts, s := OtherPayloadBegins();
    acts, s := Extend(ChangingPayload, OneLeft, acts, s, Look(2));
  }

  lemma OtherPayloadConfirmed() returns (acts: seq<Action>, s: State)
    ensures Leads(ChangingPayload, Start(OneLeft), acts, s)
    ensures s == State(Taken1, [], OtherPayload(Persisting), map["k" := OneUnit], {})
  {
    ReplaysTheUnit(TwoUnits);
    acts, s := OtherPayloadCalls();
    acts, s := Extend(ChangingPayload, OneLeft, acts, s, CallReserve(2, Answered));
  }

  lemma OtherPayloadSaved() returns (acts: seq<Action>, s: State)
    ensures Leads(ChangingPayload, Start(OneLeft), acts, s)
    ensures s.inv == Taken1 && s.orders == [Order("k", TwoUnits)]
  {
    acts, s := OtherPayloadConfirmed();
    acts, s := Extend(ChangingPayload, OneLeft, acts, s, Persist(2, true));
  }

  /** A key used again with another payload, after its first reserve took effect
      but the answer was lost: the replay confirms the old lines, the order
      records the new ones. */
  lemma OtherPayloadOversells() returns (acts: seq<Action>, s: State)
    ensures Leads(ChangingPayload, Start(OneLeft), acts, s)
    ensures s.orders == [Order("k", TwoUnits)] && !Covered(s.inv, s.orders[0])
    ensures Oversold(OneLeft, s)
  {
    acts, s := OtherPayloadSaved();
    SoldOne(s, s.orders[0]);
    Uncovered(s, s.orders[0]);
  }

  lemma FirstConfirmed(u: Rules) returns (acts: seq<Action>, s: State)
    ensures Leads(u, Start(OneLeft), acts, s)
    ensures s == State(Taken1, [], map[1 := Asking(Persisting)], map["k" := OneUnit], {})
  {
    acts, s := FirstCall(u);
    TakesTheUnit();
    acts, s := Extend(u, OneLeft, acts, s, CallReserve(1, Answered));
  }

  /** One request whose order has just been committed. */
  lemma FirstSold(u: Rules) returns (acts: seq<Action>, s: State)
    ensures Leads(u, Start(OneLeft), acts, s)
    ensures s == State(Taken1, [Order("k", OneUnit)], map[1 := Asking(Refreshing)], map["k" := OneUnit], {})
  {
    acts, s := FirstConfirmed(u);
    acts, s := Extend(u, OneLeft, acts, s, Persist(1, true));
  }

  /** One request alone: the commit succeeds, the refresh after it raises, and
      the compensation releases the stock of the order just persisted. */
  lemma FailedRefreshOversells() returns (acts: seq<Action>, s: State)
    ensures Leads(FailingRefresh, Start(OneLeft), acts, s)
    ensures s.orders == [Order("k", OneUnit)] && !Covered(s.inv, s.orders[0])
    ensures Oversold(OneLeft, s)
  {
    acts, s := FirstSold(FailingRefresh);
    FreesTheUnit();
    acts, s := Extend(FailingRefresh, OneLeft, acts, s, Refresh(1, false));
    acts, s := Extend(FailingRefresh, OneLeft, acts, s, CallRelease(1, Answered));
    SoldOne(s, s.orders[0]);
    Uncovered(s, s.orders[0]);
  }

  // ---------------------------------------------------------------- a key that is a bulk order's id

  const Shelf := map[1 := 2, 2 := 0]
  const Mixed := [Order("b", [Item(1, 1), Item(2, 1)])]
  const LooseRow := Row(1, "b", "", 1, RESERVED)
  const KeyedRow := Row(1, "b", "b", 1, RESERVED)
  const PartLeft := Db(map[1 := 1, 2 := 0], [LooseRow])
  const BothLeft := Db(map[1 := 0, 2 := 0], [LooseRow, KeyedRow])

  lemma MixedLines()
    ensures Lines(Mixed) == [BulkLine("b", 1, 1), BulkLine("b", 2, 1)]
    ensures FreshBatch(Start(Shelf), Mixed)
  {
    assert Mixed[..0] == [];
    assert OrderLines(Mixed[0]) == [BulkLine("b", 1, 1), BulkLine("b", 2, 1)];
  }

  lemma FirstLineTaken()
    ensures TakeLine(Db(Shelf, []), BulkLine("b", 1, 1)) == (PartLeft, BulkOutcome("b", 1, Taken))
  {
    var (db', o) := TakeLine(Db(Shelf, []), BulkLine("b", 1, 1));
    TakeLineEffect(Db(Shelf, []), BulkLine("b", 1, 1));
    assert db'.rows == PartLeft.rows;
    assert AcceptedOf(2)((BulkLine("b", 1, 1), o)) == 0 && AcceptedOf(1)((BulkLine("b", 1, 1), o)) == 1;
    assert db'.stock == PartLeft.stock;
    assert o == BulkOutcome("b", 1, Taken);
  }

  lemma SecondLineFails() returns (o: BulkOutcome)
    ensures TakeLine(PartLeft, BulkLine("b", 2, 1)) == (PartLeft, o)
    ensures !o.Reserved() && o.orderRef == "b"
  {
    TakeLineEffect(PartLeft, BulkLine("b", 2, 1));
    o := TakeLine(PartLeft, BulkLine("b", 2, 1)).1;
  }

  function Streamed(outs: seq<BulkOutcome>): State {
    State(if outs == [] then Db(Shelf, []) else PartLeft, [], map[1 := Bulk(Mixed, Streaming(outs))], map[], {"b"})
  }

  lemma BatchOpened(u: Rules) returns (acts: seq<Action>, s: State)
    ensures Leads(u, Start(Shelf), acts, s) && s == Streamed([])
  {
    MixedLines();
    acts, s := Extend(u, Shelf, [], Start(Shelf), BeginBulk(1, Mixed));
    assert Ids(Mixed) == {"b"} by { assert Mixed[0] in Mixed; }
  }

  const FirstOutcome := BulkOutcome("b", 1, Taken)

  lemma FirstStreamed(u: Rules) returns (acts: seq<Action>, s: State)
    ensures Leads(u, Start(Shelf), acts, s) && s == Streamed([FirstOutcome])
  {
    MixedLines();
    FirstLineTaken();
    acts, s := BatchOpened(u);
    acts, s := Extend(u, Shelf, acts, s, StreamLine(1));
    assert [] + [FirstOutcome] == [FirstOutcome];
  }

  lemma BatchStreamed(u: Rules) returns (acts: seq<Action>, s: State, o: BulkOutcome)
    ensures Leads(u, Start(Shelf), acts, s) && s == Streamed([FirstOutcome, o])
    ensures !o.Reserved() && o.orderRef == "b"
  {
    MixedLines();
    o := SecondLineFails();
    acts, s := FirstStreamed(u);
    acts, s := Extend(u, Shelf, acts, s, StreamLine(1));
    assert [FirstOutcome] + [o] == [FirstOutcome, o];
  }

  /** The order of the batch is partly reserved: not saved, and to be released. */
  lemma MixedIsPartial(o: BulkOutcome)
    requires !o.Reserved() && o.orderRef == "b"
    ensures var outs := [FirstOutcome, o];
            Persisted(Mixed, outs) == [] && Stranded(Mixed, outs) == ["b"]
  {
    var first := FirstOutcome;
    var outs := [first, o];
    assert outs[..1] == [first] && [first][..0] == [] && Mixed[..0] == [];
    assert OutcomesOf([first], "b") == [first];
    assert OutcomesOf(outs, "b") == outs;
    assert outs[0] in outs && outs[1] in outs;
    assert first.Reserved();
  }

  lemma StreamOver(u: Rules) returns (acts: seq<Action>, s: State, o: BulkOutcome)
    ensures Leads(u, Start(Shelf), acts, s) && !o.Reserved() && o.orderRef == "b"
    ensures s == State(PartLeft, [], map[1 := Bulk(Mixed, Committing([FirstOutcome, o]))], map[], {"b"})
  {
    acts, s, o := BatchStreamed(u);
    MixedLines();
    acts, s := Extend(u, Shelf, acts, s, StreamEnds(1));
  }

  lemma BatchCommitted(u: Rules) returns (acts: seq<Action>, s: State)
    ensures Leads(u, Start(Shelf), acts, s)
    ensures s == State(PartLeft, [], map[1 := Bulk(Mixed, Undoing(["b"], 0, {}))], map[], {"b"})
  {
    var o;
    acts, s, o := StreamOver(u);
    MixedIsPartial(o);
    acts, s := Extend(u, Shelf, acts, s, CommitBatch(1, true));
  }

  /** The partial order's release fails; the bulk request is over. */
  lemma ReleaseLost(u: Rules) returns (acts: seq<Action>, s: State)
    ensures Leads(u, Start(Shelf), acts, s)
    ensures s == State(PartLeft, [], map[1 := Bulk(Mixed, Done({"b"}))], map[], {"b"})
  {
    acts, s := BatchCommitted(u);
    acts, s := Extend(u, Shelf, acts, s, UndoOne(1, Attempt(false, false, false)));
    assert ["b"][1..] == [] && {} + {"b"} == {"b"};
    acts, s := Extend(u, Shelf, acts, s, UndoEnds(1));
  }

  /** A client retries the partial order under the id it was told. */
  lemma RetryCalls() returns (acts: seq<Action>, s: State)
    ensures Leads(SharedIds, Start(Shelf), acts, s)
    ensures s == State(PartLeft, [], map[1 := Bulk(Mixed, Done({"b"})), 2 := Single("b", OneUnit, Calling(0))],
                       map["b" := OneUnit], {"b"})
  {
    acts, s := ReleaseLost(SharedIds);
    acts, s := Extend(SharedIds, Shelf, acts, s, BeginSingle(2, "b", OneUnit));
    acts, s := Extend(SharedIds, Shelf, acts, s, Look(2));
  }

  lemma RetryTakes()
    ensures Reserve(PartLeft, "b", OneUnit, "b").0 == BothLeft && Reserve(PartLeft, "b", OneUnit, "b").1.success
  {
    assert SortByProduct(OneUnit) == OneUnit by { assert OneUnit[1..] == []; }
    assert RunLines(PartLeft, "b", "b", OneUnit, 0) == Going(NoWork);
    assert RunLines(PartLeft, "b", "b", OneUnit, 1) == RunLine(PartLeft, "b", "b", NoWork, OneUnit[0]);
    assert PartLeft.stock + map[1 := 0] == BothLeft.stock;
    assert !HasActive(PartLeft.rows, "b");
  }

  lemma MixedHolding()
    ensures KeyedBy(BothLeft.rows, "b") == multiset{Item(1, 1)} && LooseBy(BothLeft.rows, "b") == multiset{Item(1, 1)}
    ensures !Backed(BothLeft, Order("b", OneUnit))
  {
    var rows := BothLeft.rows;
    assert rows[..1] == [LooseRow] && [LooseRow][..0] == [];
    assert IsHeldFor(LooseRow, "b") && IsHeldFor(KeyedRow, "b");
    assert Bag([LooseRow], KeyedLine("b")) == multiset{} && Bag([LooseRow], LooseLine("b")) == multiset{Item(1, 1)};
    KeyedOrLoose(rows, "b");
    assert multiset(OneUnit)[Item(1, 1)] == 1;
  }

  lemma RetryReserved() returns (acts: seq<Action>, s: State)
    ensures Leads(SharedIds, Start(Shelf), acts, s)
    ensures s == State(BothLeft, [], map[1 := Bulk(Mixed, Done({"b"})), 2 := Single("b", OneUnit, Persisting)],
                       map["b" := OneUnit], {"b"})
  {
    acts, s := RetryCalls();
    RetryTakes();
    acts, s := Extend(SharedIds, Shelf, acts, s, CallReserve(2, Answered));
  }

  /** The retried order is saved on top of what the bulk order left behind: it holds
      more than its items, so the leftover is stranded for good. */
  lemma SharedIdMixes() returns (acts: seq<Action>, s: State)
    ensures Leads(SharedIds, Start(Shelf), acts, s)
    ensures s.orders == [Order("b", OneUnit)] && s.inv == BothLeft && !Backed(s.inv, s.orders[0])
  {
    acts, s := RetryReserved();
    acts, s := Extend(SharedIds, Shelf, acts, s, Persist(2, true));
    MixedHolding();
  }

  // ---------------------------------------------------------------- exactly when the promises hold

  ghost predicate Catalog(c: map<int, int>) { forall p | p in c :: 0 <= c[p] }

  /** In no run is more sold and on offer together than there was. */
  ghost predicate NeverOversells(u: Rules) {
    forall c, acts, s | Catalog(c) && Leads(u, Start(c), acts, s) :: !Oversold(c, s)
  }

  /** In every run each persisted order's items are covered by its RESERVED rows. */
  ghost predicate AlwaysCovers(u: Rules) {
    forall c, acts, s | Catalog(c) && Leads(u, Start(c), acts, s) :: forall o | o in s.orders :: Covered(s.inv, o)
  }

  /** In every run each persisted order's RESERVED rows are exactly its items. */
  ghost predicate AlwaysBacks(u: Rules) {
    forall c, acts, s | Catalog(c) && Leads(u, Start(c), acts, s) :: forall o | o in s.orders :: Backed(s.inv, o)
  }

  /** Assuming less admits more. */
  predicate Looser(u: Rules, v: Rules) {
    && (v.noOverlap ==> u.noOverlap) && (v.samePayload ==> u.samePayload)
    && (v.refreshHolds ==> u.refreshHolds) && (v.ownKeys ==> u.ownKeys)
  }

  lemma {:induction false} LeadsLooser(u: Rules, v: Rules, s: State, acts: seq<Action>, t: State)
    requires Looser(u, v) && Leads(u, s, acts, t)
    ensures Leads(v, s, acts, t)
    decreases |acts|
  {
    if acts != [] {
      assert Next(u, s, acts[0]) == Next(v, s, acts[0]);
      LeadsLooser(u, v, Next(u, s, acts[0]), acts[1..], t);
    }
  }

  lemma UnsafeOversells(u: Rules)
    ensures u.Safe() || (!NeverOversells(u) && !AlwaysCovers(u))
  {
    if !u.Safe() {
      var v, acts, s;
      if !u.noOverlap {
        v := Overlapping;
        acts, s := OverlapOversells();
      } else if !u.samePayload {
        v := ChangingPayload;
        acts, s := OtherPayloadOversells();
      } else {
        v := FailingRefresh;
        acts, s := FailedRefreshOversells();
      }
      LeadsLooser(v, u, Start(OneLeft), acts, s);
      assert Catalog(OneLeft) && Leads(u, Start(OneLeft), acts, s);
      assert s.orders[0] in s.orders;
    }
  }

  /** Overselling is impossible, and persisted orders stay covered, over all runs
      exactly when requests for one id do not overlap, a key keeps its payload and
      a refresh does not raise after its commit. */
  lemma NoOversellIff(u: Rules)
    ensures NeverOversells(u) <==> u.Safe()
    ensures AlwaysCovers(u) <==> u.Safe()
  {
    if u.Safe() {
      forall c, acts, s | Catalog(c) && Leads(u, Start(c), acts, s)
        ensures !Oversold(c, s) && forall o | o in s.orders :: Covered(s.inv, o)
      {
        NoOversell(u, c, acts, s);
      }
    } else {
      UnsafeOversells(u);
    }
  }

  lemma BackedIsCovered(u: Rules)
    ensures AlwaysBacks(u) ==> AlwaysCovers(u)
  {
    if AlwaysBacks(u) {
      forall c, acts, s | Catalog(c) && Leads(u, Start(c), acts, s)
        ensures forall o | o in s.orders :: Covered(s.inv, o)
      {
        assert forall o | o in s.orders :: Backed(s.inv, o);
      }
    }
  }

  /** Persisted orders hold exactly their items over all runs exactly when, besides,
      no key is ever the id of a bulk order. */
  lemma ExactBackingIff(u: Rules)
    ensures AlwaysBacks(u) <==> u == Strict
  {
    if u == Strict {
      forall c, acts, s | Catalog(c) && Leads(u, Start(c), acts, s)
        ensures forall o | o in s.orders :: Backed(s.inv, o)
      {
        ExactBacking(c, acts, s);
      }
    } else if u.Safe() {
      var acts, s := SharedIdMixes();
      LeadsLooser(SharedIds, u, Start(Shelf), acts, s);
      assert Catalog(Shelf) && Leads(u, Start(Shelf), acts, s);
      assert s.orders[0] in s.orders;
    } else {
      UnsafeOversells(u);
      BackedIsCovered(u);
    }
  }
}
