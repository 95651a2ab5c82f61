/** No oversell: every persisted order stays covered by reserved stock. */
module SagaLaws {
  import opened Totals
  import opened Inventory
  import opened InventoryLaws
  import opened StockLaws
  import opened Holdings
  import opened BulkStream
  import opened Batch
  import opened Saga

  // ---------------------------------------------------------------- inventory operations on holdings

  /** Every row belongs to a bulk order, unkeyed, or to a single order, keyed by it. */
  ghost predicate RowsOwned(rows: seq<Row>, bound: set<string>, bulk: set<string>) {
    forall r | r in rows ::
      if r.key == "" then r.orderRef in bulk else r.key == r.orderRef && r.orderRef in bound
  }

  lemma ActiveIsHeld(rows: seq<Row>, bound: set<string>, bulk: set<string>, key: string)
    requires RowsOwned(rows, bound, bulk) && key != ""
    ensures HasActive(rows, key) <==> KeyedBy(rows, key) != multiset{}
  {
    BagEmpty(rows, KeyedLine(key));
    forall r | r in rows
      ensures IsActive(r, key) <==> KeyedLine(key)(r) != multiset{}
    {
      if IsActive(r, key) {
        assert Item(r.product, r.quantity) in KeyedLine(key)(r);
      }
    }
  }

  /** A keyed reserve adds its items to an order that holds none under the key, if
      it succeeds, and otherwise changes no holding. */
  lemma ReserveHoldings(db: Db, bound: set<string>, bulk: set<string>, key: string, items: seq<Item>)
    requires RowsOwned(db.rows, bound, bulk) && key != "" && key in bound && items != []
    ensures var (db', out) := Reserve(db, key, items, key);
            && RowsOwned(db'.rows, bound, bulk)
            && (forall of | of != key :: HoldsSame(db.rows, db'.rows, of))
            && LooseBy(db'.rows, key) == LooseBy(db.rows, key)
            && (KeyedBy(db.rows, key) != multiset{} ==> db' == db && out.success)
            && (KeyedBy(db.rows, key) == multiset{} ==>
                  KeyedBy(db'.rows, key) == if out.success then multiset(items) else multiset{})
  {
    ActiveIsHeld(db.rows, bound, bulk, key);
    if !HasActive(db.rows, key) {
      var s := SortByProduct(items);
      SortSpec(items);
      BodyEffect(db, key, key, s);
      forall of { KeyedBodyHolds(db, key, key, s, of); }
    }
  }

  lemma ReleaseHoldings(db: Db, bound: set<string>, bulk: set<string>, ref: string)
    requires RowsOwned(db.rows, bound, bulk)
    ensures var rows := Release(db, ref).0.rows;
            && RowsOwned(rows, bound, bulk)
            && KeyedBy(rows, ref) == multiset{} && LooseBy(rows, ref) == multiset{}
            && (forall of | of != ref :: HoldsSame(db.rows, rows, of))
  {
    ReleaseEffect(db, ref);
    forall i | 0 <= i < |db.rows|
      ensures db.rows[i] in db.rows
    {}
    forall of { ReleaseHolds(db, ref, of); }
  }

  // ---------------------------------------------------------------- the invariant

  ghost predicate SingleInv(s: State, q: Req)
    requires q.Single?
  {
    && q.key != "" && q.key in s.bound
    && (Open(q) ==> q.items == s.bound[q.key] && q.items != [])
    && match q.pc
       case Calling(_) => !HasOrder(s.orders, q.key)
       case Persisting => !HasOrder(s.orders, q.key) && KeyedBy(s.inv.rows, q.key) == multiset(q.items)
       case Compensating(_) => !HasOrder(s.orders, q.key)
       case _ => true
  }

  /** What a bulk order holds while its batch is in flight: the accepted lines. */
  ghost predicate BatchHolds(s: State, batch: seq<Order>, outs: seq<BulkOutcome>) {
    && |outs| <= |Lines(batch)|
    && Answers(Lines(batch)[..|outs|], outs)
    && forall o | o in batch ::
         && !HasOrder(s.orders, o.id)
         && LooseBy(s.inv.rows, o.id) == Bag(Zip(Lines(batch)[..|outs|], outs), AcceptedFor(o.id))
  }

  ghost predicate BulkInv(s: State, q: Req)
    requires q.Bulk?
  {
    && DistinctOrders(q.batch)
    && (forall o | o in q.batch :: o.id in s.bulkIds && o.id != "" && o.items != [])
    && match q.bpc
       case Streaming(outs) => BatchHolds(s, q.batch, outs)
       case Committing(outs) => BatchHolds(s, q.batch, outs) && |outs| == |Lines(q.batch)|
       case Undoing(refs, _, _) => forall id | id in refs :: HasId(q.batch, id) && !HasOrder(s.orders, id)
       case _ => true
  }

  ghost predicate ReqInv(s: State, q: Req) { if q.Single? then SingleInv(s, q) else BulkInv(s, q) }

  /** Under its key an order never holds anything but nothing or its whole payload. */
  ghost predicate BoundInv(s: State) {
    forall k | k in s.bound ::
      && k != ""
      && (KeyedBy(s.inv.rows, k) == multiset{} || KeyedBy(s.inv.rows, k) == multiset(s.bound[k]))
  }

  /** A persisted order's items are just what it holds under its key, or just what
      it holds without one. */
  ghost predicate Settled(inv: Db, o: Order) {
    o.items != [] && (KeyedBy(inv.rows, o.id) == multiset(o.items) || LooseBy(inv.rows, o.id) == multiset(o.items))
  }

  ghost predicate OrdersInv(s: State) {
    && DistinctOrders(s.orders)
    && forall o | o in s.orders :: Settled(s.inv, o) && (o.id in s.bound || o.id in s.bulkIds)
  }

  /** No id is in the hands of two open requests. */
  ghost predicate Apart(s: State) {
    forall r, v | r in s.reqs && v in s.reqs && r != v ::
      forall id :: !(Owns(s.reqs[r], id) && Owns(s.reqs[v], id))
  }

  ghost predicate Inv(db0: Db, s: State) {
    && Conserves(db0, s.inv)
    && RowsOwned(s.inv.rows, s.bound.Keys, s.bulkIds)
    && BoundInv(s)
    && OrdersInv(s)
    && Apart(s)
    && forall r | r in s.reqs :: ReqInv(s, s.reqs[r])
  }

  // ---------------------------------------------------------------- framing

  /** Outside the ids in `mine`, `s'` holds what `s` held and has the orders `s` had. */
  ghost predicate Framed(s: State, s': State, mine: set<string>) {
    && (forall id | id !in mine :: HoldsSame(s.inv.rows, s'.inv.rows, id))
    && (forall id | id !in mine :: HasOrder(s'.orders, id) == HasOrder(s.orders, id))
    && s'.bound == s.bound && s'.bulkIds == s.bulkIds
  }

  lemma BatchFramed(s: State, s': State, mine: set<string>, batch: seq<Order>, outs: seq<BulkOutcome>)
    requires Framed(s, s', mine) && BatchHolds(s, batch, outs) && mine !! Ids(batch)
    ensures BatchHolds(s', batch, outs)
  {
    forall o | o in batch
      ensures HoldsSame(s.inv.rows, s'.inv.rows, o.id) && HasOrder(s'.orders, o.id) == HasOrder(s.orders, o.id)
    {
      assert o.id in Ids(batch);
    }
  }

  lemma RefsFramed(s: State, s': State, mine: set<string>, batch: seq<Order>, refs: seq<string>)
    requires Framed(s, s', mine) && mine !! Ids(batch)
    requires forall id | id in refs :: HasId(batch, id) && !HasOrder(s.orders, id)
    ensures forall id | id in refs :: HasId(batch, id) && !HasOrder(s'.orders, id)
  {
    forall id | id in refs
      ensures id !in mine
    {
      var o :| o in batch && o.id == id;
      assert id in Ids(batch);
    }
  }

  lemma ReqFramed(s: State, s': State, mine: set<string>, q: Req)
    requires Framed(s, s', mine) && ReqInv(s, q)
    requires forall id | id in mine :: !Owns(q, id)
    ensures ReqInv(s', q)
  {
    if q.Single? {
      assert Open(q) ==> Owns(q, q.key);
    } else if Open(q) {
      assert mine !! Ids(q.batch) by {
        forall o | o in q.batch
          ensures Owns(q, o.id)
        {}
      }
      match q.bpc
      case Streaming(outs) => BatchFramed(s, s', mine, q.batch, outs);
      case Committing(outs) => BatchFramed(s, s', mine, q.batch, outs);
      case Undoing(refs, _, _) => RefsFramed(s, s', mine, q.batch, refs);
    }
  }

  /** A step of request `r` that stays within its own ids keeps everyone's invariant. */
  lemma StepKeeps(db0: Db, s: State, s': State, r: int, mine: set<string>)
    requires Inv(db0, s) && r in s.reqs && r in s'.reqs && s'.reqs == s.reqs[r := s'.reqs[r]]
    requires Framed(s, s', mine) && forall id | id in mine :: Owns(s.reqs[r], id)
    requires forall id | Owns(s'.reqs[r], id) :: Owns(s.reqs[r], id)
    requires Conserves(db0, s'.inv) && RowsOwned(s'.inv.rows, s'.bound.Keys, s'.bulkIds)
    requires BoundInv(s') && OrdersInv(s') && ReqInv(s', s'.reqs[r])
    ensures Inv(db0, s')
  {
    forall v | v in s'.reqs
      ensures ReqInv(s', s'.reqs[v])
    {
      if v != r {
        ReqFramed(s, s', mine, s.reqs[v]);
      }
    }
  }

  /** Holdings that change for one unpersisted id only leave keys and orders be. */
  lemma HoldingsKeep(s: State, s': State, ref: string)
    requires BoundInv(s) && OrdersInv(s) && Framed(s, s', {ref}) && s'.orders == s.orders
    requires !HasOrder(s.orders, ref)
    requires ref in s.bound ==>
               KeyedBy(s'.inv.rows, ref) == multiset{} || KeyedBy(s'.inv.rows, ref) == multiset(s.bound[ref])
    ensures BoundInv(s') && OrdersInv(s')
  {
    forall o | o in s.orders
      ensures Settled(s'.inv, o)
    {
      assert o.id != ref && Settled(s.inv, o);
      assert HoldsSame(s.inv.rows, s'.inv.rows, o.id);
    }
    forall k | k in s.bound && k != ref
      ensures KeyedBy(s'.inv.rows, k) == KeyedBy(s.inv.rows, k)
    {
      assert HoldsSame(s.inv.rows, s'.inv.rows, k);
    }
  }

  // ---------------------------------------------------------------- single requests

  /** What a request may know at each point: its order is not there, and once
      reserved it holds exactly its items under its key. */
  ghost predicate Ready(orders: seq<Order>, inv: Db, q: Req, pc: SinglePc)
    requires q.Single?
  {
    && !HasOrder(orders, q.key)
    && (pc.Persisting? ==> KeyedBy(inv.rows, q.key) == multiset(q.items))
  }

  /** An inventory call of a single request that keeps to its own key. */
  lemma SingleStep(db0: Db, s: State, r: int, inv': Db, pc: SinglePc)
    requires Inv(db0, s) && SingleAt(s, r) && Open(s.reqs[r])
    requires Conserves(db0, inv') && RowsOwned(inv'.rows, s.bound.Keys, s.bulkIds)
    requires var q := s.reqs[r];
             && Ready(s.orders, inv', q, pc)
             && (forall of | of != q.key :: HoldsSame(s.inv.rows, inv'.rows, of))
             && (KeyedBy(inv'.rows, q.key) == multiset{} || KeyedBy(inv'.rows, q.key) == multiset(q.items))
    ensures Inv(db0, To(s.(inv := inv'), r, pc))
  {
    var q := s.reqs[r];
    var s' := To(s.(inv := inv'), r, pc);
    assert ReqInv(s, q);
    assert Framed(s, s', {q.key});
    HoldingsKeep(s, s', q.key);
    assert SingleInv(s', q.(pc := pc));
    StepKeeps(db0, s, s', r, {q.key});
  }

  lemma CallReserveStep(u: Rules, s: State, r: int, how: Attempt)
    requires Allowed(u, s, CallReserve(r, how))
    ensures var q := s.reqs[r];
            var (inv', out) := Reserve(s.inv, q.key, q.items, q.key);
            Next(u, s, CallReserve(r, how)) ==
            To(s.(inv := if how.applied then inv' else s.inv), r, Called(q, how, out.success))
  {}

  lemma ReserveApplied(db0: Db, s: State, key: string, items: seq<Item>, applied: bool)
    requires Conserves(db0, s.inv) && RowsOwned(s.inv.rows, s.bound.Keys, s.bulkIds) && BoundInv(s)
    requires key in s.bound && items == s.bound[key] && items != []
    ensures var (db', out) := Reserve(s.inv, key, items, key);
            var inv' := if applied then db' else s.inv;
            && Conserves(db0, inv') && RowsOwned(inv'.rows, s.bound.Keys, s.bulkIds)
            && (forall of | of != key :: HoldsSame(s.inv.rows, inv'.rows, of))
            && (KeyedBy(inv'.rows, key) == multiset{} || KeyedBy(inv'.rows, key) == multiset(items))
            && (applied && out.success ==> KeyedBy(inv'.rows, key) == multiset(items))
  {
    assert items[0] in multiset(items);
    ReserveHoldings(s.inv, s.bound.Keys, s.bulkIds, key, items);
    ApplyConserves(s.inv, DoReserve(key, items, key));
  }

  lemma CallReserveKeeps(db0: Db, u: Rules, s: State, r: int, how: Attempt)
    requires Inv(db0, s) && Allowed(u, s, CallReserve(r, how))
    ensures Inv(db0, Next(u, s, CallReserve(r, how)))
  {
    var q := s.reqs[r];
    CallReserveStep(u, s, r, how);
    assert ReqInv(s, q);
    ReserveApplied(db0, s, q.key, q.items, how.applied);
    var (inv', out) := Reserve(s.inv, q.key, q.items, q.key);
    SingleStep(db0, s, r, if how.applied then inv' else s.inv, Called(q, how, out.success));
  }

  lemma ReleaseApplied(db0: Db, s: State, ref: string, applied: bool)
    requires Conserves(db0, s.inv) && RowsOwned(s.inv.rows, s.bound.Keys, s.bulkIds)
    ensures var inv' := ReleasedIf(applied, s.inv, ref);
            && Conserves(db0, inv') && RowsOwned(inv'.rows, s.bound.Keys, s.bulkIds)
            && (forall of | of != ref :: HoldsSame(s.inv.rows, inv'.rows, of))
            && KeyedBy(inv'.rows, ref) == if applied then multiset{} else KeyedBy(s.inv.rows, ref)
  {
    ReleaseHoldings(s.inv, s.bound.Keys, s.bulkIds, ref);
    ApplyConserves(s.inv, DoRelease(ref));
  }

  lemma KeyReleased(db0: Db, s: State, key: string, items: seq<Item>, applied: bool)
    requires Conserves(db0, s.inv) && RowsOwned(s.inv.rows, s.bound.Keys, s.bulkIds) && BoundInv(s)
    requires key in s.bound && items == s.bound[key]
    ensures var inv' := ReleasedIf(applied, s.inv, key);
            && Conserves(db0, inv') && RowsOwned(inv'.rows, s.bound.Keys, s.bulkIds)
            && (forall of | of != key :: HoldsSame(s.inv.rows, inv'.rows, of))
            && (KeyedBy(inv'.rows, key) == multiset{} || KeyedBy(inv'.rows, key) == multiset(items))
  {
    ReleaseApplied(db0, s, key, applied);
  }

  lemma CallReleaseStep(u: Rules, s: State, r: int, how: Attempt, pc: SinglePc)
    requires Allowed(u, s, CallRelease(r, how))
    requires pc == if how.retry then Compensating(s.reqs[r].pc.tries + 1) else Ended(Failed)
    ensures Next(u, s, CallRelease(r, how)) == To(s.(inv := ReleasedIf(how.applied, s.inv, s.reqs[r].key)), r, pc)
  {}

  lemma ReleaseStep(db0: Db, s: State, r: int, applied: bool, pc: SinglePc)
    requires Inv(db0, s) && SingleAt(s, r) && s.reqs[r].pc.Compensating? && (pc.Compensating? || pc.Ended?)
    ensures Inv(db0, To(s.(inv := ReleasedIf(applied, s.inv, s.reqs[r].key)), r, pc))
  {
    var q := s.reqs[r];
    assert ReqInv(s, q);
    KeyReleased(db0, s, q.key, q.items, applied);
    SingleStep(db0, s, r, ReleasedIf(applied, s.inv, q.key), pc);
  }

  lemma CallReleaseKeeps(db0: Db, u: Rules, s: State, r: int, how: Attempt)
    requires Inv(db0, s) && Allowed(u, s, CallRelease(r, how))
    ensures Inv(db0, Next(u, s, CallRelease(r, how)))
  {
    var pc := if how.retry then Compensating(s.reqs[r].pc.tries + 1) else Ended(Failed);
    CallReleaseStep(u, s, r, how, pc);
    ReleaseStep(db0, s, r, how.applied, pc);
  }

  /** Persisting one order that is new and settled. */
  lemma OrderAdded(s: State, s': State, o: Order)
    requires BoundInv(s) && OrdersInv(s) && !HasOrder(s.orders, o.id) && Settled(s.inv, o) && o.id in s.bound
    requires s'.inv == s.inv && s'.bound == s.bound && s'.bulkIds == s.bulkIds && s'.orders == s.orders + [o]
    ensures BoundInv(s') && OrdersInv(s') && Framed(s, s', {o.id})
  {
    forall i | 0 <= i < |s.orders|
      ensures s.orders[i].id != o.id
    {
      assert s.orders[i] in s.orders;
    }
    assert forall x :: x in s'.orders <==> x in s.orders || x == o;
  }

  lemma PersistKeeps(db0: Db, u: Rules, s: State, r: int, ok: bool)
    requires Inv(db0, s) && Allowed(u, s, Persist(r, ok))
    ensures Inv(db0, Next(u, s, Persist(r, ok)))
  {
    var q := s.reqs[r];
    assert ReqInv(s, q);
    if ok {
      var o := Order(q.key, q.items);
      var s' := To(s.(orders := s.orders + [o]), r, Refreshing);
      assert Next(u, s, Persist(r, ok)) == s';
      OrderAdded(s, s', o);
      StepKeeps(db0, s, s', r, {q.key});
    } else {
      assert Next(u, s, Persist(r, ok)) == To(s, r, Compensating(0));
      StepKeeps(db0, s, To(s, r, Compensating(0)), r, {});
    }
  }

  lemma QuietSingleKeeps(db0: Db, u: Rules, s: State, a: Action)
    requires Inv(db0, s) && Allowed(u, s, a) && (a.Look? || a.Refresh? || (a.Crash? && SingleAt(s, a.r)))
    requires u.refreshHolds
    ensures Inv(db0, Next(u, s, a))
  {
    assert ReqInv(s, s.reqs[a.r]);
    StepKeeps(db0, s, Next(u, s, a), a.r, {});
  }

  // ---------------------------------------------------------------- bulk requests

  lemma TakeLineConserves(db: Db, line: BulkLine)
    requires WellFormed(db)
    ensures Conserves(db, TakeLine(db, line).0)
  {
    if line.orderRef != "" {
      ApplyConserves(db, DoReserve(line.orderRef, [Item(line.product, line.quantity)], ""));
    }
  }

  /** An accepted line is held by its order, without a key. */
  lemma LineHolds(db: Db, line: BulkLine, of: string)
    ensures var (db', o) := TakeLine(db, line);
            && LooseBy(db'.rows, of) == LooseBy(db.rows, of) + AcceptedFor(of)((line, o))
            && KeyedBy(db'.rows, of) == KeyedBy(db.rows, of)
  {
    TakeLineEffect(db, line);
    var row := Row(line.product, line.orderRef, "", line.quantity, RESERVED);
    assert IsHeldFor(row, of) <==> line.orderRef == of;
    BagAppend(db.rows, row, LooseLine(of));
    BagAppend(db.rows, row, KeyedLine(of));
  }

  /** The accepted lines of a growing batch, one line further. */
  lemma AcceptedNext(lines: seq<BulkLine>, outs: seq<BulkOutcome>, out: BulkOutcome, ref: string)
    requires |outs| < |lines|
    ensures Bag(Zip(lines[..|outs| + 1], outs + [out]), AcceptedFor(ref)) ==
            Bag(Zip(lines[..|outs|], outs), AcceptedFor(ref)) + AcceptedFor(ref)((lines[|outs|], out))
  {
    var n := |outs|;
    assert lines[..n + 1] == lines[..n] + [lines[n]];
    ZipSnoc(lines[..n], outs, lines[n], out);
    BagAppend(Zip(lines[..n], outs), (lines[n], out), AcceptedFor(ref));
  }

  lemma AnswersNext(lines: seq<BulkLine>, outs: seq<BulkOutcome>, out: BulkOutcome)
    requires |outs| < |lines| && Answers(lines[..|outs|], outs) && out.orderRef == lines[|outs|].orderRef
    ensures Answers(lines[..|outs| + 1], outs + [out])
  {
    assert forall i | 0 <= i < |outs| :: lines[..|outs|][i] == lines[i];
  }

  lemma StreamLineHolds(s: State, s': State, batch: seq<Order>, outs: seq<BulkOutcome>)
    requires BatchHolds(s, batch, outs) && |outs| < |Lines(batch)|
    requires s'.orders == s.orders && s'.inv == TakeLine(s.inv, Lines(batch)[|outs|]).0
    ensures BatchHolds(s', batch, outs + [TakeLine(s.inv, Lines(batch)[|outs|]).1])
  {
    var line := Lines(batch)[|outs|];
    var out := TakeLine(s.inv, line).1;
    TakeLineEffect(s.inv, line);
    AnswersNext(Lines(batch), outs, out);
    forall o | o in batch
      ensures LooseBy(s'.inv.rows, o.id) ==
              Bag(Zip(Lines(batch)[..|outs + [out]|], outs + [out]), AcceptedFor(o.id))
    {
      LineHolds(s.inv, line, o.id);
      AcceptedNext(Lines(batch), outs, out, o.id);
    }
  }

  /** An inventory call of a bulk request for one of its orders. */
  lemma BulkStep(db0: Db, s: State, r: int, inv': Db, ref: string, bpc: BulkPc)
    requires Inv(db0, s) && BulkAt(s, r) && Open(s.reqs[r])
    requires HasId(s.reqs[r].batch, ref) && !HasOrder(s.orders, ref)
    requires Conserves(db0, inv') && RowsOwned(inv'.rows, s.bound.Keys, s.bulkIds)
    requires forall of | of != ref :: HoldsSame(s.inv.rows, inv'.rows, of)
    requires KeyedBy(inv'.rows, ref) == multiset{} || KeyedBy(inv'.rows, ref) == KeyedBy(s.inv.rows, ref)
    requires BulkInv(s.(inv := inv'), s.reqs[r].(bpc := bpc))
    ensures Inv(db0, BulkTo(s.(inv := inv'), r, bpc))
  {
    var s' := BulkTo(s.(inv := inv'), r, bpc);
    assert ReqInv(s, s.reqs[r]);
    assert Framed(s, s', {ref});
    HoldingsKeep(s, s', ref);
    assert BulkInv(s', s'.reqs[r]);
    StepKeeps(db0, s, s', r, {ref});
  }

  lemma StreamLineStep(u: Rules, s: State, r: int)
    requires Allowed(u, s, StreamLine(r))
    ensures var q := s.reqs[r];
            var (inv', out) := TakeLine(s.inv, Lines(q.batch)[|q.bpc.outs|]);
            Next(u, s, StreamLine(r)) == BulkTo(s.(inv := inv'), r, Streaming(q.bpc.outs + [out]))
  {}

  lemma LineTaken(db0: Db, s: State, line: BulkLine)
    requires Conserves(db0, s.inv) && RowsOwned(s.inv.rows, s.bound.Keys, s.bulkIds) && line.orderRef in s.bulkIds
    ensures var inv' := TakeLine(s.inv, line).0;
            && Conserves(db0, inv') && RowsOwned(inv'.rows, s.bound.Keys, s.bulkIds)
            && (forall of | of != line.orderRef :: HoldsSame(s.inv.rows, inv'.rows, of))
            && KeyedBy(inv'.rows, line.orderRef) == KeyedBy(s.inv.rows, line.orderRef)
  {
    TakeLineEffect(s.inv, line);
    forall of { LineHolds(s.inv, line, of); }
    TakeLineConserves(s.inv, line);
  }

  lemma StreamStep(db0: Db, s: State, r: int)
    requires Inv(db0, s) && BulkAt(s, r) && s.reqs[r].bpc.Streaming?
    requires |s.reqs[r].bpc.outs| < |Lines(s.reqs[r].batch)|
    ensures var q := s.reqs[r];
            var (inv', out) := TakeLine(s.inv, Lines(q.batch)[|q.bpc.outs|]);
            Inv(db0, BulkTo(s.(inv := inv'), r, Streaming(q.bpc.outs + [out])))
  {
    var q := s.reqs[r];
    var line := Lines(q.batch)[|q.bpc.outs|];
    var (inv', out) := TakeLine(s.inv, line);
    assert ReqInv(s, q);
    LinesRefs(q.batch);
    assert HasId(q.batch, line.orderRef);
    LineTaken(db0, s, line);
    StreamLineHolds(s, s.(inv := inv'), q.batch, q.bpc.outs);
    BulkStep(db0, s, r, inv', line.orderRef, Streaming(q.bpc.outs + [out]));
  }

  lemma StreamLineKeeps(db0: Db, u: Rules, s: State, r: int)
    requires Inv(db0, s) && Allowed(u, s, StreamLine(r))
    ensures Inv(db0, Next(u, s, StreamLine(r)))
  {
    StreamLineStep(u, s, r);
    StreamStep(db0, s, r);
  }

  lemma UndoStep(db0: Db, s: State, r: int, applied: bool, bpc: BulkPc)
    requires Inv(db0, s) && BulkAt(s, r) && s.reqs[r].bpc.Undoing? && bpc.Undoing?
    requires var refs := s.reqs[r].bpc.refs; refs != [] && (bpc.refs == refs || bpc.refs == refs[1..])
    ensures Inv(db0, BulkTo(s.(inv := ReleasedIf(applied, s.inv, s.reqs[r].bpc.refs[0])), r, bpc))
  {
    var refs := s.reqs[r].bpc.refs;
    assert ReqInv(s, s.reqs[r]);
    assert refs[0] in refs;
    assert forall id | id in bpc.refs :: id in refs;
    ReleaseApplied(db0, s, refs[0], applied);
    BulkStep(db0, s, r, ReleasedIf(applied, s.inv, refs[0]), refs[0], bpc);
  }

  lemma UndoOneStep(u: Rules, s: State, r: int, how: Attempt)
    requires Allowed(u, s, UndoOne(r, how))
    ensures Next(u, s, UndoOne(r, how)) ==
            BulkTo(s.(inv := ReleasedIf(how.applied, s.inv, s.reqs[r].bpc.refs[0])), r, Undone(s.reqs[r].bpc, how))
  {}

  lemma UndoOneKeeps(db0: Db, u: Rules, s: State, r: int, how: Attempt)
    requires Inv(db0, s) && Allowed(u, s, UndoOne(r, how))
    ensures Inv(db0, Next(u, s, UndoOne(r, how)))
  {
    UndoOneStep(u, s, r, how);
    UndoStep(db0, s, r, how.applied, Undone(s.reqs[r].bpc, how));
  }

  /** The orders a commit adds hold exactly the lines accepted for them. */
  lemma BatchSettled(s: State, batch: seq<Order>, outs: seq<BulkOutcome>, o: Order)
    requires DistinctOrders(batch) && BatchHolds(s, batch, outs) && |outs| == |Lines(batch)|
    requires (forall x | x in batch :: x.items != []) && o in Persisted(batch, outs)
    ensures o in batch && Settled(s.inv, o)
  {
    PersistedSpec(batch, outs);
    var k :| 0 <= k < |batch| && batch[k] == o;
    assert Lines(batch)[..|outs|] == Lines(batch);
    AcceptedOfOrder(batch, outs, k);
  }

  lemma CommitOrders(s: State, s': State, batch: seq<Order>, outs: seq<BulkOutcome>)
    requires OrdersInv(s) && DistinctOrders(batch) && BatchHolds(s, batch, outs) && |outs| == |Lines(batch)|
    requires s'.inv == s.inv && s'.bound == s.bound && s'.bulkIds == s.bulkIds
    requires s'.orders == s.orders + Persisted(batch, outs)
    requires forall o | o in batch :: o.id in s.bulkIds && o.items != []
    ensures OrdersInv(s')
    ensures forall id :: HasOrder(s'.orders, id) <==> HasOrder(s.orders, id) || HasOrder(Persisted(batch, outs), id)
  {
    var news := Persisted(batch, outs);
    PersistedSpec(batch, outs);
    forall o | o in news { BatchSettled(s, batch, outs, o); }
    assert forall o :: o in s'.orders <==> o in s.orders || o in news;
    forall i, j | 0 <= i < |s.orders| && 0 <= j < |news|
      ensures s.orders[i].id != news[j].id
    {
      assert s.orders[i] in s.orders && news[j] in news;
    }
  }

  lemma StrandedNotPersisted(batch: seq<Order>, outs: seq<BulkOutcome>, id: string)
    requires DistinctOrders(batch) && id in Stranded(batch, outs)
    ensures HasId(batch, id) && !HasOrder(Persisted(batch, outs), id)
  {
    StrandedSpec(batch, outs);
    PersistedSpec(batch, outs);
  }

  /** A commit touches the orders of its own batch only, and leaves the stranded
      ones unpersisted. */
  lemma CommitFramed(s: State, s': State, batch: seq<Order>, outs: seq<BulkOutcome>)
    requires DistinctOrders(batch) && BatchHolds(s, batch, outs)
    requires s'.inv == s.inv && s'.bound == s.bound && s'.bulkIds == s.bulkIds
    requires s'.orders == s.orders + Persisted(batch, outs)
    ensures Framed(s, s', Ids(batch))
    ensures forall id | id in Stranded(batch, outs) :: HasId(batch, id) && !HasOrder(s'.orders, id)
  {
    PersistedSpec(batch, outs);
    assert forall o :: o in s'.orders <==> o in s.orders || o in Persisted(batch, outs);
    forall id | id in Stranded(batch, outs)
      ensures HasId(batch, id) && !HasOrder(s'.orders, id)
    {
      StrandedNotPersisted(batch, outs, id);
    }
  }

  lemma CommitReady(s: State, s': State, q: Req, bpc: BulkPc)
    requires q.Bulk? && BulkInv(s, q) && Open(q) && bpc.Undoing? && s'.bulkIds == s.bulkIds
    requires forall id | id in bpc.refs :: HasId(q.batch, id) && !HasOrder(s'.orders, id)
    ensures ReqInv(s', q.(bpc := bpc))
    ensures forall id | id in Ids(q.batch) :: Owns(q, id)
    ensures forall id | Owns(q.(bpc := bpc), id) :: Owns(q, id)
  {}

  lemma BatchAdded(db0: Db, s: State, r: int)
    requires Inv(db0, s) && BulkAt(s, r) && s.reqs[r].bpc.Committing?
    ensures var q := s.reqs[r];
            Inv(db0, BulkTo(s.(orders := s.orders + Persisted(q.batch, q.bpc.outs)), r,
                            Undoing(Stranded(q.batch, q.bpc.outs), 0, {})))
  {
    var q := s.reqs[r];
    var bpc := Undoing(Stranded(q.batch, q.bpc.outs), 0, {});
    var s' := BulkTo(s.(orders := s.orders + Persisted(q.batch, q.bpc.outs)), r, bpc);
    assert ReqInv(s, q);
    CommitOrders(s, s', q.batch, q.bpc.outs);
    CommitFramed(s, s', q.batch, q.bpc.outs);
    CommitReady(s, s', q, bpc);
    StepKeeps(db0, s, s', r, Ids(q.batch));
  }

  lemma CommitBatchKeeps(db0: Db, u: Rules, s: State, r: int, ok: bool)
    requires Inv(db0, s) && Allowed(u, s, CommitBatch(r, ok))
    ensures Inv(db0, Next(u, s, CommitBatch(r, ok)))
  {
    if ok {
      BatchAdded(db0, s, r);
    } else {
      var s' := BulkTo(s, r, Over);
      assert Next(u, s, CommitBatch(r, ok)) == s';
      assert ReqInv(s, s.reqs[r]);
      StepKeeps(db0, s, s', r, {});
    }
  }

  lemma QuietBulkKeeps(db0: Db, u: Rules, s: State, a: Action)
    requires Inv(db0, s) && Allowed(u, s, a)
    requires a.StreamBreaks? || a.StreamEnds? || a.UndoEnds? || (a.Crash? && BulkAt(s, a.r))
    ensures Inv(db0, Next(u, s, a))
  {
    assert ReqInv(s, s.reqs[a.r]);
    StepKeeps(db0, s, Next(u, s, a), a.r, {});
  }

  // ---------------------------------------------------------------- requests arriving

  lemma KeyedIsBound(rows: seq<Row>, bound: set<string>, bulk: set<string>, id: string)
    requires RowsOwned(rows, bound, bulk)
    ensures id !in bound ==> KeyedBy(rows, id) == multiset{}
    ensures id !in bulk ==> LooseBy(rows, id) == multiset{}
  {
    forall i | 0 <= i < |rows|
      ensures rows[i] in rows
    {}
    if id !in bound {
      BagNothing(rows, KeyedLine(id));
    }
    if id !in bulk {
      BagNothing(rows, LooseLine(id));
    }
  }

  lemma BeginSingleKeeps(db0: Db, u: Rules, s: State, r: int, key: string, items: seq<Item>)
    requires Inv(db0, s) && Allowed(u, s, BeginSingle(r, key, items)) && u.Safe()
    ensures Inv(db0, Next(u, s, BeginSingle(r, key, items)))
  {
    var s' := Next(u, s, BeginSingle(r, key, items));
    KeyedIsBound(s.inv.rows, s.bound.Keys, s.bulkIds, key);
    forall v | v in s.reqs && v != r
      ensures ReqInv(s', s.reqs[v])
    {
      assert ReqInv(s, s.reqs[v]);
    }
  }

  lemma BatchIsFresh(db0: Db, s: State, batch: seq<Order>)
    requires Inv(db0, s) && FreshBatch(s, batch)
    ensures forall o | o in batch :: LooseBy(s.inv.rows, o.id) == multiset{} && !HasOrder(s.orders, o.id)
    ensures forall v, o | v in s.reqs && o in batch :: !Owns(s.reqs[v], o.id)
  {
    forall o | o in batch
      ensures LooseBy(s.inv.rows, o.id) == multiset{}
    {
      KeyedIsBound(s.inv.rows, s.bound.Keys, s.bulkIds, o.id);
    }
    forall v, o | v in s.reqs && o in batch
      ensures !Owns(s.reqs[v], o.id)
    {
      assert ReqInv(s, s.reqs[v]);
    }
  }

  lemma ReqWidened(s: State, s': State, q: Req, ids: set<string>)
    requires s'.inv == s.inv && s'.orders == s.orders && s'.bound == s.bound && s'.bulkIds == s.bulkIds + ids
    requires ReqInv(s, q)
    ensures ReqInv(s', q)
  {}

  lemma BatchBegins(s: State, s': State, r: int, batch: seq<Order>)
    requires FreshBatch(s, batch) && s'.reqs == s.reqs[r := Bulk(batch, Streaming([]))]
    requires s'.inv == s.inv && s'.orders == s.orders && s'.bulkIds == s.bulkIds + Ids(batch) && s'.bound == s.bound
    requires forall o | o in batch :: LooseBy(s.inv.rows, o.id) == multiset{} && !HasOrder(s.orders, o.id)
    ensures ReqInv(s', s'.reqs[r])
  {
    assert Zip(Lines(batch)[..0], []) == [];
    assert BatchHolds(s', batch, []);
  }

  lemma BeginBulkKeeps(db0: Db, u: Rules, s: State, r: int, batch: seq<Order>)
    requires Inv(db0, s) && Allowed(u, s, BeginBulk(r, batch))
    ensures Inv(db0, Next(u, s, BeginBulk(r, batch)))
  {
    var s' := Next(u, s, BeginBulk(r, batch));
    BatchIsFresh(db0, s, batch);
    BatchBegins(s, s', r, batch);
    forall v | v in s.reqs && v != r
      ensures ReqInv(s', s.reqs[v])
    {
      ReqWidened(s, s', s.reqs[v], Ids(batch));
    }
  }

  lemma NextKeeps(db0: Db, u: Rules, s: State, a: Action)
    requires u.Safe() && Inv(db0, s) && Allowed(u, s, a)
    ensures Inv(db0, Next(u, s, a))
  {
    match a
    case BeginSingle(r, key, items) => BeginSingleKeeps(db0, u, s, r, key, items);
    case BeginBulk(r, batch) => BeginBulkKeeps(db0, u, s, r, batch);
    case CallReserve(r, how) => CallReserveKeeps(db0, u, s, r, how);
    case Persist(r, ok) => PersistKeeps(db0, u, s, r, ok);
    case CallRelease(r, how) => CallReleaseKeeps(db0, u, s, r, how);
    case StreamLine(r) => StreamLineKeeps(db0, u, s, r);
    case CommitBatch(r, ok) => CommitBatchKeeps(db0, u, s, r, ok);
    case UndoOne(r, how) => UndoOneKeeps(db0, u, s, r, how);
    case Look(_) => QuietSingleKeeps(db0, u, s, a);
    case Refresh(_, _) => QuietSingleKeeps(db0, u, s, a);
    case Crash(r) =>
      if s.reqs[r].Single? {
        QuietSingleKeeps(db0, u, s, a);
      } else {
        QuietBulkKeeps(db0, u, s, a);
      }
    case _ => QuietBulkKeeps(db0, u, s, a);
  }

  lemma {:induction false} LeadsKeeps(db0: Db, u: Rules, s: State, acts: seq<Action>, s': State)
    requires u.Safe() && Inv(db0, s) && Leads(u, s, acts, s')
    ensures Inv(db0, s')
    decreases |acts|
  {
    if acts != [] {
      NextKeeps(db0, u, s, acts[0]);
      LeadsKeeps(db0, u, Next(u, s, acts[0]), acts[1..], s');
    }
  }

  // ---------------------------------------------------------------- summing over orders

  lemma {:induction false} SoldIsHeld(inv: Db, orders: seq<Order>, p: int)
    requires DistinctOrders(orders) && forall o | o in orders :: Backed(inv, o)
    ensures Total(orders, Sold(p)) == Total(inv.rows, HeldIn(Ids(orders), p))
  {
    if orders == [] {
      TotalZero(inv.rows, HeldIn(Ids(orders), p));
    } else {
      var n := |orders| - 1;
      var head, last := orders[..n], orders[n];
      assert orders == head + [last];
      assert last in orders && forall o | o in head :: o in orders;
      SoldIsHeld(inv, head, p);
      HeldByTotal(inv.rows, last.id, last.items, p);
      assert Ids(orders) == Ids(head) + {last.id};
      HeldInOneMore(inv.rows, Ids(head), last.id, p);
    }
  }

  lemma CoveredOneMore(inv: Db, head: seq<Order>, o: Order, p: int)
    requires WellFormed(inv) && Covered(inv, o) && o.id !in Ids(head)
    requires Total(head, Sold(p)) <= Total(inv.rows, HeldIn(Ids(head), p))
    ensures Total(head + [o], Sold(p)) <= Total(inv.rows, HeldIn(Ids(head + [o]), p))
  {
    TotalAppend(head, o, Sold(p));
    HeldCovers(inv.rows, o.id, o.items, p);
    assert Ids(head + [o]) == Ids(head) + {o.id};
    HeldInOneMore(inv.rows, Ids(head), o.id, p);
  }

  /** Orders that are covered have sold no more than their rows hold. */
  lemma {:induction false} SoldIsCovered(inv: Db, orders: seq<Order>, p: int)
    requires WellFormed(inv) && DistinctOrders(orders) && forall o | o in orders :: Covered(inv, o)
    ensures Total(orders, Sold(p)) <= Total(inv.rows, HeldIn(Ids(orders), p))
  {
    if orders == [] {
      TotalZero(inv.rows, HeldIn(Ids(orders), p));
    } else {
      var n := |orders| - 1;
      assert orders == orders[..n] + [orders[n]];
      SoldIsCovered(inv, orders[..n], p);
      CoveredOneMore(inv, orders[..n], orders[n], p);
    }
  }

  /** An order that mixes no keyed and loose rows is backed exactly. */
  lemma SettledBacking(inv: Db, o: Order)
    requires Settled(inv, o)
    ensures Covered(inv, o)
    ensures Backed(inv, o) <==> KeyedBy(inv.rows, o.id) == multiset{} || LooseBy(inv.rows, o.id) == multiset{}
  {
    KeyedOrLoose(inv.rows, o.id);
    assert o.items[0] in multiset(o.items);
    if Backed(inv, o) {
      assert |HeldBy(inv.rows, o.id)| == |KeyedBy(inv.rows, o.id)| + |LooseBy(inv.rows, o.id)|;
    }
  }

  /** Over every run, whatever fails, every persisted order's items are covered by
      its RESERVED rows, so what has been sold of a product and what is still
      available never exceed what there was. The rows are exactly the items unless
      the order also holds what another request left under its id. */
  lemma NoOversell(u: Rules, catalog: map<int, int>, acts: seq<Action>, s: State)
    requires u.Safe() && forall p | p in catalog :: 0 <= catalog[p]
    requires Leads(u, Start(catalog), acts, s)
    ensures forall o | o in s.orders ::
              && Covered(s.inv, o)
              && (Backed(s.inv, o) <==>
                    KeyedBy(s.inv.rows, o.id) == multiset{} || LooseBy(s.inv.rows, o.id) == multiset{})
    ensures forall p | p in catalog ::
              p in s.inv.stock && 0 <= s.inv.stock[p] && Total(s.orders, Sold(p)) + s.inv.stock[p] <= catalog[p]
  {
    var db0 := Db(catalog, []);
    assert Inv(db0, Start(catalog));
    LeadsKeeps(db0, u, Start(catalog), acts, s);
    forall o | o in s.orders { SettledBacking(s.inv, o); }
    forall p | p in catalog
      ensures Total(s.orders, Sold(p)) + s.inv.stock[p] <= catalog[p]
    {
      SoldIsCovered(s.inv, s.orders, p);
      assert Owned(s.inv, p) == Owned(db0, p) == catalog[p];
      TotalMonotone(s.inv.rows, HeldIn(Ids(s.orders), p), Held(p));
    }
  }

  lemma {:induction false} IdsApart(u: Rules, s: State, acts: seq<Action>, s': State)
    requires u.ownKeys && s.bound.Keys !! s.bulkIds && Leads(u, s, acts, s')
    ensures s'.bound.Keys !! s'.bulkIds
    decreases |acts|
  {
    if acts != [] {
      IdsApart(u, Next(u, s, acts[0]), acts[1..], s');
    }
  }

  /** If besides no key is ever the id of a bulk order, every persisted order's
      RESERVED rows match its items exactly. */
  lemma ExactBacking(catalog: map<int, int>, acts: seq<Action>, s: State)
    requires forall p | p in catalog :: 0 <= catalog[p]
    requires Leads(Strict, Start(catalog), acts, s)
    ensures forall o | o in s.orders :: Backed(s.inv, o)
  {
    assert Inv(Db(catalog, []), Start(catalog));
    LeadsKeeps(Db(catalog, []), Strict, Start(catalog), acts, s);
    NoOversell(Strict, catalog, acts, s);
    IdsApart(Strict, Start(catalog), acts, s);
    forall o | o in s.orders { KeyedIsBound(s.inv.rows, s.bound.Keys, s.bulkIds, o.id); }
  }
}
