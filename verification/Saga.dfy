/** Reserve-then-persist across two databases: any number of single and bulk
    order requests, interleaved, with failing RPCs, client retries, failing
    commits, crashes and compensation. The inventory side answers each RPC with
    its atomic operation; an RPC that ends in an error has taken effect or not. */
module Saga {
  import opened Totals
  import opened Inventory
  import opened BulkStream
  import opened Batch

  datatype Result = Existing | Created | Conflict | RpcError | Failed | Crashed

  datatype SinglePc =
    | Looking                  // before the idempotent short-circuit
    | Calling(tries: nat)      // ReserveStock, this many attempts made
    | Persisting               // reserve answered success, order not yet committed
    | Refreshing               // order committed, session.refresh still to come
    | Compensating(tries: nat) // ReleaseStock after a failure
    | Ended(result: Result)

  datatype BulkPc =
    | Streaming(outs: seq<BulkOutcome>)
    | Committing(outs: seq<BulkOutcome>)
    | Undoing(refs: seq<string>, tries: nat, lost: set<string>) // `lost`: releases that never took effect
    | Done(lost: set<string>)  // committed, and every release tried
    | Over

  datatype Req =
    | Single(key: string, items: seq<Item>, pc: SinglePc)
    | Bulk(batch: seq<Order>, bpc: BulkPc)

  /** `bound` is the payload first seen with each single-order key, `bulkIds`
      the ids generated for bulk orders. */
  datatype State = State(inv: Db, orders: seq<Order>, reqs: map<int, Req>,
                         bound: map<string, seq<Item>>, bulkIds: set<string>)

  function Start(catalog: map<int, int>): State { State(Db(catalog, []), [], map[], map[], {}) }

  /** What is assumed of callers and of the order database: no request begins while
      one for the same id is open; a key always comes with one payload; a refresh
      after a commit does not raise; and no key is the id of a bulk order. */
  datatype Rules = Rules(noOverlap: bool, samePayload: bool, refreshHolds: bool, ownKeys: bool) {
    /** The assumptions that rule out overselling. */
    predicate Safe() { noOverlap && samePayload && refreshHolds }
  }

  const Strict := Rules(true, true, true, true)

  /** How an RPC attempt went. An answer means it took effect; a retry follows
      only an error, and there are at most four attempts. */
  datatype Attempt = Attempt(applied: bool, answered: bool, retry: bool)

  predicate Possible(a: Attempt, tries: nat) {
    && (a.answered ==> a.applied)
    && (a.retry ==> !a.answered && tries < 3)
  }

  datatype Action =
    | BeginSingle(r: int, key: string, items: seq<Item>)
    | BeginBulk(r: int, batch: seq<Order>)
    | Look(r: int)
    | CallReserve(r: int, how: Attempt)
    | Persist(r: int, ok: bool)
    | Refresh(r: int, ok: bool)
    | CallRelease(r: int, how: Attempt)
    | StreamLine(r: int)
    | StreamBreaks(r: int)
    | StreamEnds(r: int)
    | CommitBatch(r: int, ok: bool)
    | UndoOne(r: int, how: Attempt)
    | UndoEnds(r: int)
    | Crash(r: int)

  predicate Open(q: Req) { if q.Single? then !q.pc.Ended? else !q.bpc.Over? && !q.bpc.Done? }

  predicate HasOrder(orders: seq<Order>, id: string) { exists o | o in orders :: o.id == id }

  /** Ids whose holdings and orders this request may change while it is open. */
  predicate Owns(q: Req, id: string) { Open(q) && if q.Single? then q.key == id else HasOrder(q.batch, id) }

  function Ids(orders: seq<Order>): set<string> { set o | o in orders :: o.id }

  /** The payload check at the REST edge. */
  predicate GoodItems(items: seq<Item>) {
    items != [] && forall x | x in items :: 0 < x.product && 0 < x.quantity
  }

  predicate SingleAt(s: State, r: int) { r in s.reqs && s.reqs[r].Single? }

  predicate BulkAt(s: State, r: int) { r in s.reqs && s.reqs[r].Bulk? }

  /** A bulk request's orders get ids that nobody has used. */
  ghost predicate FreshBatch(s: State, batch: seq<Order>) {
    && DistinctOrders(batch)
    && forall o | o in batch :: o.id != "" && o.id !in s.bound && o.id !in s.bulkIds && GoodItems(o.items)
  }

  ghost predicate Allowed(u: Rules, s: State, a: Action) {
    match a
    case BeginSingle(r, key, items) =>
      && r !in s.reqs && key != "" && GoodItems(items)
      && (u.ownKeys ==> key !in s.bulkIds)
      && (u.noOverlap ==> forall v | v in s.reqs :: !Owns(s.reqs[v], key))
      && (u.samePayload && key in s.bound ==> items == s.bound[key])
    case BeginBulk(r, batch) => r !in s.reqs && FreshBatch(s, batch)
    case Look(r) => SingleAt(s, r) && s.reqs[r].pc.Looking?
    case CallReserve(r, how) => SingleAt(s, r) && s.reqs[r].pc.Calling? && Possible(how, s.reqs[r].pc.tries)
    case Persist(r, ok) =>
      SingleAt(s, r) && s.reqs[r].pc.Persisting? && (ok ==> !HasOrder(s.orders, s.reqs[r].key))
    case Refresh(r, ok) => SingleAt(s, r) && s.reqs[r].pc.Refreshing? && (u.refreshHolds ==> ok)
    case CallRelease(r, how) => SingleAt(s, r) && s.reqs[r].pc.Compensating? && Possible(how, s.reqs[r].pc.tries)
    case StreamLine(r) =>
      BulkAt(s, r) && s.reqs[r].bpc.Streaming? && |s.reqs[r].bpc.outs| < |Lines(s.reqs[r].batch)|
    case StreamBreaks(r) => BulkAt(s, r) && s.reqs[r].bpc.Streaming?
    case StreamEnds(r) =>
      BulkAt(s, r) && s.reqs[r].bpc.Streaming? && |s.reqs[r].bpc.outs| == |Lines(s.reqs[r].batch)|
    case CommitBatch(r, ok) =>
      && BulkAt(s, r) && s.reqs[r].bpc.Committing?
      && (ok ==> forall o | o in s.reqs[r].batch :: !HasOrder(s.orders, o.id))
    case UndoOne(r, how) =>
      && BulkAt(s, r) && s.reqs[r].bpc.Undoing? && s.reqs[r].bpc.refs != []
      && Possible(how, s.reqs[r].bpc.tries)
    case UndoEnds(r) => BulkAt(s, r) && s.reqs[r].bpc.Undoing? && s.reqs[r].bpc.refs == []
    case Crash(r) => r in s.reqs && Open(s.reqs[r])
  }

  function To(s: State, r: int, pc: SinglePc): State
    requires SingleAt(s, r)
  {
    s.(reqs := s.reqs[r := s.reqs[r].(pc := pc)])
  }

  function BulkTo(s: State, r: int, pc: BulkPc): State
    requires BulkAt(s, r)
  {
    s.(reqs := s.reqs[r := s.reqs[r].(bpc := pc)])
  }

  /** Inventory after an attempt at ReleaseStock. */
  function ReleasedIf(applied: bool, inv: Db, ref: string): Db { if applied then Release(inv, ref).0 else inv }

  /** Where a reserve call leaves the request. */
  function Called(q: Req, how: Attempt, success: bool): SinglePc
    requires q.Single? && q.pc.Calling?
  {
    if how.answered then (if success then Persisting else Ended(Conflict))
    else if how.retry then Calling(q.pc.tries + 1) else Ended(RpcError)
  }

  /** Where an attempt at releasing the first of the stranded orders leaves the batch. */
  function Undone(bpc: BulkPc, how: Attempt): BulkPc
    requires bpc.Undoing? && bpc.refs != []
  {
    if how.retry then bpc.(tries := bpc.tries + 1)
    else Undoing(bpc.refs[1..], 0, if how.applied then bpc.lost else bpc.lost + {bpc.refs[0]})
  }

  function Next(u: Rules, s: State, a: Action): State
    requires Allowed(u, s, a)
  {
    match a
    case BeginSingle(r, key, items) =>
      s.(reqs := s.reqs[r := Single(key, items, Looking)],
         bound := if key in s.bound then s.bound else s.bound[key := items])
    case BeginBulk(r, batch) =>
      s.(reqs := s.reqs[r := Bulk(batch, Streaming([]))],
         bulkIds := s.bulkIds + Ids(batch))
    case Look(r) => To(s, r, if HasOrder(s.orders, s.reqs[r].key) then Ended(Existing) else Calling(0))
    case CallReserve(r, how) =>
      var q := s.reqs[r];
      var (inv', out) := Reserve(s.inv, q.key, q.items, q.key);
      To(s.(inv := if how.applied then inv' else s.inv), r, Called(q, how, out.success))
    case Persist(r, ok) =>
      if ok then To(s.(orders := s.orders + [Order(s.reqs[r].key, s.reqs[r].items)]), r, Refreshing)
      else To(s, r, Compensating(0))
    case Refresh(r, ok) => To(s, r, if ok then Ended(Created) else Compensating(0))
    case CallRelease(r, how) =>
      var q := s.reqs[r];
      To(s.(inv := ReleasedIf(how.applied, s.inv, q.key)), r,
         if how.retry then Compensating(q.pc.tries + 1) else Ended(Failed))
    case StreamLine(r) =>
      var q := s.reqs[r];
      var (inv', out) := TakeLine(s.inv, Lines(q.batch)[|q.bpc.outs|]);
      BulkTo(s.(inv := inv'), r, Streaming(q.bpc.outs + [out]))
    case StreamBreaks(r) => BulkTo(s, r, Over)
    case StreamEnds(r) => BulkTo(s, r, Committing(s.reqs[r].bpc.outs))
    case CommitBatch(r, ok) =>
      var q := s.reqs[r];
      if ok then
        BulkTo(s.(orders := s.orders + Persisted(q.batch, q.bpc.outs)), r,
               Undoing(Stranded(q.batch, q.bpc.outs), 0, {}))
      else BulkTo(s, r, Over)
    case UndoOne(r, how) =>
      var q := s.reqs[r];
      BulkTo(s.(inv := ReleasedIf(how.applied, s.inv, q.bpc.refs[0])), r,
             Undone(q.bpc, how))
    case UndoEnds(r) => BulkTo(s, r, Done(s.reqs[r].bpc.lost))
    case Crash(r) => if s.reqs[r].Single? then To(s, r, Ended(Crashed)) else BulkTo(s, r, Over)
  }

  /** `s` can take the actions in turn and end up in `s'`. */
  ghost predicate Leads(u: Rules, s: State, acts: seq<Action>, s': State)
    decreases |acts|
  {
    if acts == [] then s' == s
    else Allowed(u, s, acts[0]) && Leads(u, Next(u, s, acts[0]), acts[1..], s')
  }

  // ---------------------------------------------------------------- what is promised

  /** The order's RESERVED rows include its items. */
  ghost predicate Covered(inv: Db, o: Order) { multiset(o.items) <= HeldBy(inv.rows, o.id) }

  /** The order's RESERVED rows match its items exactly. */
  ghost predicate Backed(inv: Db, o: Order) { HeldBy(inv.rows, o.id) == multiset(o.items) }

  /** Quantity of `p` in an order. */
  function Sold(p: int): Order -> int { (o: Order) => Total(o.items, Asked(p)) }
}
