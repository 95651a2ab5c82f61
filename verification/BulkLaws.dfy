/** What bulk requests leave behind, however they interleave with everything else:
    after a commit, all of an order or none of it. */
module BulkLaws {
  import opened Totals
  import opened Inventory
  import opened StockLaws
  import opened Holdings
  import opened BulkStream
  import opened Batch
  import opened Saga
  import opened SagaLaws

  // ---------------------------------------------------------------- the invariant

  /** Without a key the order holds all of its lines, and is persisted, or nothing. */
  ghost predicate Whole(s: State, o: Order) {
    || LooseBy(s.inv.rows, o.id) == multiset{}
    || (LooseBy(s.inv.rows, o.id) == multiset(o.items) && HasOrder(s.orders, o.id))
  }

  /** After its commit every order of a batch is whole, but for those whose release
      is still to come or never took effect. */
  ghost predicate CleanReq(s: State, q: Req) {
    q.Bulk? ==>
      match q.bpc
      case Undoing(refs, _, lost) => forall o | o in q.batch && o.id !in refs && o.id !in lost :: Whole(s, o)
      case Done(lost) => forall o | o in q.batch && o.id !in lost :: Whole(s, o)
      case _ => true
  }

  /** No id belongs to two batches. */
  ghost predicate BatchesApart(s: State) {
    forall r, v | BulkAt(s, r) && BulkAt(s, v) && r != v :: Ids(s.reqs[r].batch) !! Ids(s.reqs[v].batch)
  }

  ghost predicate CleanInv(s: State) {
    BatchesApart(s) && forall r | r in s.reqs :: CleanReq(s, s.reqs[r])
  }

  // ---------------------------------------------------------------- framing

  /** Outside `mine`, loose rows stay, or go all at once from an order that is not
      persisted; and persisted orders stay persisted. */
  ghost predicate Calm(s: State, s': State, mine: set<string>) {
    && (forall id | id !in mine ::
          || LooseBy(s'.inv.rows, id) == LooseBy(s.inv.rows, id)
          || (LooseBy(s'.inv.rows, id) == multiset{} && !HasOrder(s.orders, id)))
    && (forall id | HasOrder(s.orders, id) :: HasOrder(s'.orders, id))
  }

  lemma WholeStays(s: State, s': State, mine: set<string>, o: Order)
    requires Calm(s, s', mine) && o.id !in mine && Whole(s, o)
    ensures Whole(s', o)
  {}

  lemma CleanStays(s: State, s': State, mine: set<string>, q: Req)
    requires Calm(s, s', mine) && CleanReq(s, q)
    requires q.Bulk? ==> mine !! Ids(q.batch)
    ensures CleanReq(s', q)
  {
    if q.Bulk? {
      forall o | o in q.batch && Whole(s, o)
        ensures Whole(s', o)
      {
        WholeStays(s, s', mine, o);
      }
    }
  }

  /** A step of request `r` within its own batch leaves the other batches clean. */
  lemma StepStaysClean(s: State, s': State, r: int, mine: set<string>)
    requires CleanInv(s) && r in s.reqs && r in s'.reqs && s'.reqs == s.reqs[r := s'.reqs[r]]
    requires s'.reqs[r].Bulk? == s.reqs[r].Bulk? && (s'.reqs[r].Bulk? ==> s'.reqs[r].batch == s.reqs[r].batch)
    requires Calm(s, s', mine) && mine <= (if s.reqs[r].Bulk? then Ids(s.reqs[r].batch) else {})
    requires CleanReq(s', s'.reqs[r])
    ensures CleanInv(s')
  {
    forall v | v in s'.reqs && v != r
      ensures CleanReq(s', s'.reqs[v])
    {
      if s.reqs[v].Bulk? {
        assert mine !! Ids(s.reqs[v].batch);
      }
      CleanStays(s, s', mine, s.reqs[v]);
    }
    forall v, w | BulkAt(s', v) && BulkAt(s', w) && v != w
      ensures Ids(s'.reqs[v].batch) !! Ids(s'.reqs[w].batch)
    {
      assert BulkAt(s, v) && BulkAt(s, w);
    }
  }

  // ---------------------------------------------------------------- the steps

  lemma ReserveCalm(s: State, s': State, key: string, items: seq<Item>, applied: bool)
    requires RowsOwned(s.inv.rows, s.bound.Keys, s.bulkIds) && key != "" && key in s.bound && items != []
    requires s'.orders == s.orders && s'.inv == if applied then Reserve(s.inv, key, items, key).0 else s.inv
    ensures Calm(s, s', {})
  {
    ReserveHoldings(s.inv, s.bound.Keys, s.bulkIds, key, items);
    forall id
      ensures LooseBy(s'.inv.rows, id) == LooseBy(s.inv.rows, id)
    {
      assert id != key ==> HoldsSame(s.inv.rows, Reserve(s.inv, key, items, key).0.rows, id);
    }
  }

  lemma ReleaseCalm(s: State, s': State, ref: string, applied: bool)
    requires RowsOwned(s.inv.rows, s.bound.Keys, s.bulkIds) && !HasOrder(s.orders, ref)
    requires s'.orders == s.orders && s'.inv == ReleasedIf(applied, s.inv, ref)
    ensures Calm(s, s', {})
    ensures applied ==> LooseBy(s'.inv.rows, ref) == multiset{}
  {
    ReleaseHoldings(s.inv, s.bound.Keys, s.bulkIds, ref);
    forall id | id != ref
      ensures LooseBy(s'.inv.rows, id) == LooseBy(s.inv.rows, id)
    {
      assert HoldsSame(s.inv.rows, Release(s.inv, ref).0.rows, id);
    }
  }

  lemma CallReserveClean(u: Rules, s: State, r: int, how: Attempt)
    requires RowsOwned(s.inv.rows, s.bound.Keys, s.bulkIds) && CleanInv(s)
    requires Allowed(u, s, CallReserve(r, how)) && ReqInv(s, s.reqs[r])
    ensures CleanInv(Next(u, s, CallReserve(r, how)))
  {
    var q := s.reqs[r];
    var (inv', out) := Reserve(s.inv, q.key, q.items, q.key);
    var s' := To(s.(inv := if how.applied then inv' else s.inv), r, Called(q, how, out.success));
    CallReserveStep(u, s, r, how);
    ReserveCalm(s, s', q.key, q.items, how.applied);
    StepStaysClean(s, s', r, {});
  }

  lemma CallReleaseClean(u: Rules, s: State, r: int, how: Attempt)
    requires RowsOwned(s.inv.rows, s.bound.Keys, s.bulkIds) && CleanInv(s)
    requires Allowed(u, s, CallRelease(r, how)) && ReqInv(s, s.reqs[r])
    ensures CleanInv(Next(u, s, CallRelease(r, how)))
  {
    var q := s.reqs[r];
    var pc := if how.retry then Compensating(q.pc.tries + 1) else Ended(Failed);
    var s' := To(s.(inv := ReleasedIf(how.applied, s.inv, q.key)), r, pc);
    CallReleaseStep(u, s, r, how, pc);
    ReleaseCalm(s, s', q.key, how.applied);
    StepStaysClean(s, s', r, {});
  }

  lemma PersistClean(u: Rules, s: State, r: int, ok: bool)
    requires CleanInv(s) && Allowed(u, s, Persist(r, ok))
    ensures CleanInv(Next(u, s, Persist(r, ok)))
  {
    var s' := Next(u, s, Persist(r, ok));
    assert forall o | o in s.orders :: o in s'.orders;
    StepStaysClean(s, s', r, {});
  }

  lemma StreamLineClean(u: Rules, s: State, r: int)
    requires CleanInv(s) && Allowed(u, s, StreamLine(r))
    ensures CleanInv(Next(u, s, StreamLine(r)))
  {
    var q := s.reqs[r];
    var line := Lines(q.batch)[|q.bpc.outs|];
    var s' := Next(u, s, StreamLine(r));
    LinesRefs(q.batch);
    assert HasId(q.batch, line.orderRef);
    assert Calm(s, s', {line.orderRef}) by {
      forall of { LineHolds(s.inv, line, of); }
    }
    StepStaysClean(s, s', r, {line.orderRef});
  }

  /** The release of the first stranded order makes it whole, if it takes effect. */
  lemma UndoneClean(s: State, s': State, q: Req, how: Attempt)
    requires q.Bulk? && q.bpc.Undoing? && q.bpc.refs != [] && CleanReq(s, q) && Calm(s, s', {})
    requires how.applied ==> LooseBy(s'.inv.rows, q.bpc.refs[0]) == multiset{}
    ensures CleanReq(s', q.(bpc := Undone(q.bpc, how)))
  {
    var refs := q.bpc.refs;
    var bpc := Undone(q.bpc, how);
    assert refs == [refs[0]] + refs[1..];
    forall o | o in q.batch && o.id !in bpc.refs && o.id !in bpc.lost
      ensures Whole(s', o)
    {
      if o.id !in refs {
        WholeStays(s, s', {}, o);
      }
    }
  }

  lemma UndoOneClean(u: Rules, s: State, r: int, how: Attempt)
    requires RowsOwned(s.inv.rows, s.bound.Keys, s.bulkIds) && CleanInv(s)
    requires Allowed(u, s, UndoOne(r, how)) && ReqInv(s, s.reqs[r])
    ensures CleanInv(Next(u, s, UndoOne(r, how)))
  {
    var q := s.reqs[r];
    var ref := q.bpc.refs[0];
    var s' := BulkTo(s.(inv := ReleasedIf(how.applied, s.inv, ref)), r, Undone(q.bpc, how));
    UndoOneStep(u, s, r, how);
    assert ref in q.bpc.refs;
    ReleaseCalm(s, s', ref, how.applied);
    UndoneClean(s, s', q, how);
    StepStaysClean(s, s', r, {});
  }

  /** At the commit: what is persisted was reserved whole, what is neither persisted
      nor to be released was not reserved at all. */
  lemma CommittedWhole(s: State, s': State, batch: seq<Order>, outs: seq<BulkOutcome>, o: Order)
    requires DistinctOrders(batch) && BatchHolds(s, batch, outs) && |outs| == |Lines(batch)|
    requires s'.inv == s.inv && s'.orders == s.orders + Persisted(batch, outs)
    requires o in batch && o.id !in Stranded(batch, outs)
    ensures Whole(s', o)
  {
    var k :| 0 <= k < |batch| && batch[k] == o;
    assert Lines(batch)[..|outs|] == Lines(batch);
    AcceptedOfOrder(batch, outs, k);
    StrandedSpec(batch, outs);
    PersistedSpec(batch, outs);
    if AllReserved(OutcomesOf(outs, o.id)) {
      assert o in s'.orders;
    }
  }

  lemma CommitBatchClean(u: Rules, s: State, r: int, ok: bool)
    requires CleanInv(s) && Allowed(u, s, CommitBatch(r, ok)) && ReqInv(s, s.reqs[r])
    ensures CleanInv(Next(u, s, CommitBatch(r, ok)))
  {
    var q := s.reqs[r];
    var s' := Next(u, s, CommitBatch(r, ok));
    assert forall o | o in s.orders :: o in s'.orders;
    if ok {
      forall o | o in q.batch && o.id !in Stranded(q.batch, q.bpc.outs) {
        CommittedWhole(s, s', q.batch, q.bpc.outs, o);
      }
    }
    StepStaysClean(s, s', r, {});
  }

  lemma QuietClean(u: Rules, s: State, a: Action)
    requires CleanInv(s) && Allowed(u, s, a)
    requires a.Look? || a.Refresh? || a.Crash? || a.StreamBreaks? || a.StreamEnds? || a.UndoEnds?
    ensures CleanInv(Next(u, s, a))
  {
    assert CleanReq(s, s.reqs[a.r]);
    StepStaysClean(s, Next(u, s, a), a.r, {});
  }

  lemma BeginClean(db0: Db, u: Rules, s: State, a: Action)
    requires Inv(db0, s) && CleanInv(s) && Allowed(u, s, a) && (a.BeginSingle? || a.BeginBulk?)
    ensures CleanInv(Next(u, s, a))
  {
    var s' := Next(u, s, a);
    forall v | v in s.reqs
      ensures CleanReq(s', s.reqs[v])
    {
      CleanStays(s, s', {}, s.reqs[v]);
    }
    if a.BeginBulk? {
      forall v | BulkAt(s, v)
        ensures Ids(a.batch) !! Ids(s.reqs[v].batch)
      {
        assert ReqInv(s, s.reqs[v]);
      }
    }
  }

  lemma NextClean(db0: Db, u: Rules, s: State, a: Action)
    requires Inv(db0, s) && CleanInv(s) && Allowed(u, s, a)
    ensures CleanInv(Next(u, s, a))
  {
    assert a.r in s.reqs ==> ReqInv(s, s.reqs[a.r]);
    match a
    case BeginSingle(_, _, _) => BeginClean(db0, u, s, a);
    case BeginBulk(_, _) => BeginClean(db0, u, s, a);
    case CallReserve(r, how) => CallReserveClean(u, s, r, how);
    case CallRelease(r, how) => CallReleaseClean(u, s, r, how);
    case Persist(r, ok) => PersistClean(u, s, r, ok);
    case StreamLine(r) => StreamLineClean(u, s, r);
    case CommitBatch(r, ok) => CommitBatchClean(u, s, r, ok);
    case UndoOne(r, how) => UndoOneClean(u, s, r, how);
    case _ => QuietClean(u, s, a);
  }

  lemma {:induction false} LeadsClean(db0: Db, u: Rules, s: State, acts: seq<Action>, s': State)
    requires u.Safe() && Inv(db0, s) && CleanInv(s) && Leads(u, s, acts, s')
    ensures CleanInv(s')
    decreases |acts|
  {
    if acts != [] {
      NextKeeps(db0, u, s, acts[0]);
      NextClean(db0, u, s, acts[0]);
      LeadsClean(db0, u, Next(u, s, acts[0]), acts[1..], s');
    }
  }

  // ---------------------------------------------------------------- the promise

  /** What an order of a finished batch holds, if nobody used its id as a key. */
  lemma UnkeyedHolding(db0: Db, s: State, o: Order)
    requires Inv(db0, s) && Whole(s, o) && o.id !in s.bound
    ensures HeldBy(s.inv.rows, o.id) == if HasOrder(s.orders, o.id) then multiset(o.items) else multiset{}
  {
    KeyedIsBound(s.inv.rows, s.bound.Keys, s.bulkIds, o.id);
    KeyedOrLoose(s.inv.rows, o.id);
    if x :| x in s.orders && x.id == o.id {
      assert Settled(s.inv, x) && x.items[0] in multiset(x.items);
    }
  }

  /** Over every run, and ever after a bulk request has committed and tried its
      releases: each of its orders whose release was not lost holds, without a key,
      all of its lines and is persisted, or nothing. Unless a client has used its id
      as a key, that is all it holds. */
  lemma BulkAllOrNothing(u: Rules, catalog: map<int, int>, acts: seq<Action>, s: State, r: int, o: Order)
    requires u.Safe() && forall p | p in catalog :: 0 <= catalog[p]
    requires Leads(u, Start(catalog), acts, s)
    requires BulkAt(s, r) && s.reqs[r].bpc.Done? && o in s.reqs[r].batch && o.id !in s.reqs[r].bpc.lost
    ensures Whole(s, o)
    ensures o.id !in s.bound ==>
              HeldBy(s.inv.rows, o.id) == if HasOrder(s.orders, o.id) then multiset(o.items) else multiset{}
  {
    var db0 := Db(catalog, []);
    assert Inv(db0, Start(catalog));
    LeadsKeeps(db0, u, Start(catalog), acts, s);
    LeadsClean(db0, u, Start(catalog), acts, s);
    assert CleanReq(s, s.reqs[r]);
    if o.id !in s.bound {
      UnkeyedHolding(db0, s, o);
    }
  }
}
