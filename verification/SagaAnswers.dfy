/** The answer each single-order request of a run ends with, and what it tells:
    over every run, whatever is assumed of callers and of the database. */
module SagaAnswers {
  import opened Inventory
  import opened InventoryLaws
  import opened StockLaws
  import opened Batch
  import opened OrderLaws
  import opened Saga

  // ---------------------------------------------------------------- one step

  /** Is `r` the request for these items under this key? */
  predicate Asks(s: State, r: int, key: string, items: seq<Item>) {
    SingleAt(s, r) && s.reqs[r].key == key && s.reqs[r].items == items
  }

  predicate EndedWith(s: State, r: int, result: Result) { SingleAt(s, r) && s.reqs[r].pc == Ended(result) }

  /** A reserve of the request that is answered, its items granted or not. */
  ghost predicate Answered(s: State, a: Action, r: int, key: string, items: seq<Item>, granted: bool) {
    a.CallReserve? && a.r == r && a.how.answered && (Granted(s.inv, key, items) <==> granted)
  }

  /** Is this the step that ends request `r` with `result`? */
  ghost predicate Ends(s: State, a: Action, r: int, key: string, items: seq<Item>, result: Result) {
    match result
    case Existing => a == Look(r) && HasOrder(s.orders, key)
    case Created => a == Refresh(r, true) && Order(key, items) in s.orders
    case Conflict => Answered(s, a, r, key, items, false)
    case RpcError => a.CallReserve? && a.r == r && !a.how.answered && !a.how.retry
    case Failed => a.CallRelease? && a.r == r && !a.how.retry
    case Crashed => a == Crash(r)
  }

  /** After a commit the order is there. */
  ghost predicate Saved(s: State, r: int)
    requires SingleAt(s, r)
  {
    var q := s.reqs[r];
    && (q.pc.Refreshing? || q.pc == Ended(Created) ==> Order(q.key, q.items) in s.orders)
    && (q.pc == Ended(Existing) ==> HasOrder(s.orders, q.key))
  }

  lemma OrdersStay(u: Rules, s: State, a: Action, o: Order)
    requires Allowed(u, s, a) && o in s.orders
    ensures o in Next(u, s, a).orders
  {}

  lemma OthersStay(u: Rules, s: State, a: Action, r: int)
    requires Allowed(u, s, a) && SingleAt(s, r) && a.r != r
    ensures SingleAt(Next(u, s, a), r) && Next(u, s, a).reqs[r] == s.reqs[r]
  {}

  lemma SavedStep(u: Rules, s: State, a: Action, r: int)
    requires Allowed(u, s, a) && SingleAt(s, r) && Saved(s, r)
    ensures SingleAt(Next(u, s, a), r) && Saved(Next(u, s, a), r)
  {
    var s' := Next(u, s, a);
    forall o | o in s.orders
      ensures o in s'.orders
    {
      OrdersStay(u, s, a, o);
    }
    if a.r != r {
      OthersStay(u, s, a, r);
    }
  }

  /** A step ends an open request with a result exactly if it is the one for that
      result, and the request is still for the same items. */
  lemma StepAnswers(u: Rules, s: State, a: Action, r: int, key: string, items: seq<Item>, result: Result)
    requires Allowed(u, s, a) && Asks(s, r, key, items) && Saved(s, r) && !s.reqs[r].pc.Ended?
    ensures Asks(Next(u, s, a), r, key, items)
    ensures EndedWith(Next(u, s, a), r, result) <==> Ends(s, a, r, key, items, result)
  {
    if a.r != r {
      OthersStay(u, s, a, r);
    } else {
      GrantedIsSuccess(s.inv, key, items);
    }
  }

  /** What a request's step leaves each order holding. */
  ghost function HoldingAfter(s: State, a: Action, key: string, items: seq<Item>, of: string): multiset<Item> {
    var held := HeldBy(s.inv.rows, of);
    if of != key then held
    else if a.CallRelease? && a.how.applied then multiset{}
    else if a.CallReserve? && a.how.applied && Granted(s.inv, key, items) && FreshKey(s.inv, key)
    then held + multiset(items)
    else held
  }

  lemma CallReserveEffect(s: State, how: Attempt, key: string, items: seq<Item>)
    requires WellFormed(s.inv)
    ensures var inv := if how.applied then Reserve(s.inv, key, items, key).0 else s.inv;
            && Conserves(s.inv, inv)
            && forall of :: HeldBy(inv.rows, of) ==
                 HeldBy(s.inv.rows, of) +
                 if of == key && how.applied && Granted(s.inv, key, items) && FreshKey(s.inv, key)
                 then multiset(items) else multiset{}
  {
    GrantedIsSuccess(s.inv, key, items);
    ApplyConserves(s.inv, DoReserve(key, items, key));
    forall of: string {
      ReserveHeldBy(s.inv, key, items, of);
    }
  }

  lemma CallReleaseEffect(s: State, how: Attempt, key: string)
    requires WellFormed(s.inv)
    ensures var inv := ReleasedIf(how.applied, s.inv, key);
            && Conserves(s.inv, inv)
            && forall of :: HeldBy(inv.rows, of) ==
                 if of == key && how.applied then multiset{} else HeldBy(s.inv.rows, of)
  {
    ApplyConserves(s.inv, DoRelease(key));
    forall of: string {
      ReleaseHeldBy(s.inv, key, of);
    }
  }

  lemma StepTables(u: Rules, s: State, a: Action, r: int)
    requires Allowed(u, s, a) && SingleAt(s, r) && a.r == r
    ensures var s', q := Next(u, s, a), s.reqs[r];
            && (a.CallReserve? ==> s'.inv == if a.how.applied then Reserve(s.inv, q.key, q.items, q.key).0 else s.inv)
            && (a.CallRelease? ==> s'.inv == ReleasedIf(a.how.applied, s.inv, q.key))
            && (!a.CallReserve? && !a.CallRelease? ==> s'.inv == s.inv)
            && s'.orders == s.orders + if a == Persist(r, true) then [Order(q.key, q.items)] else []
  {}

  /** A single request's step adds its items to what its key holds exactly if a reserve
      took effect that was granted and no replay, empties it if a release took
      effect, changes no other holding and loses no unit; it saves the order
      exactly if it is a commit that went well. */
  lemma StepEffect(u: Rules, s: State, a: Action, r: int, key: string, items: seq<Item>)
    requires Allowed(u, s, a) && Asks(s, r, key, items) && a.r == r && WellFormed(s.inv)
    ensures var s' := Next(u, s, a);
            && (forall of :: HeldBy(s'.inv.rows, of) == HoldingAfter(s, a, key, items, of))
            && Conserves(s.inv, s'.inv)
            && s'.orders == s.orders + if a == Persist(r, true) then [Order(key, items)] else []
  {
    StepTables(u, s, a, r);
    if a.CallReserve? {
      CallReserveEffect(s, a.how, key, items);
    } else if a.CallRelease? {
      CallReleaseEffect(s, a.how, key);
    }
  }

  /** No step takes an answer back. */
  lemma AnswerStays(u: Rules, s: State, a: Action, r: int)
    requires Allowed(u, s, a) && SingleAt(s, r) && s.reqs[r].pc.Ended?
    ensures SingleAt(Next(u, s, a), r) && Next(u, s, a).reqs[r] == s.reqs[r]
  {
    if a.r != r {
      OthersStay(u, s, a, r);
    }
  }

  // ---------------------------------------------------------------- how far a request got

  /** Has the inventory granted the request? */
  predicate Reserved(pc: SinglePc) {
    pc.Persisting? || pc.Refreshing? || pc.Compensating? || pc == Ended(Created) || pc == Ended(Failed)
  }

  /** Has saving the order failed? */
  predicate Unsaved(pc: SinglePc) { pc.Compensating? || pc == Ended(Failed) }

  predicate SaveFails(a: Action, r: int) { a == Persist(r, false) || a == Refresh(r, false) }

  lemma StepReserves(u: Rules, s: State, a: Action, r: int, key: string, items: seq<Item>)
    requires Allowed(u, s, a) && Asks(s, r, key, items)
    ensures var s' := Next(u, s, a);
            && Asks(s', r, key, items)
            && (Reserved(s'.reqs[r].pc) ==> Reserved(s.reqs[r].pc) || Answered(s, a, r, key, items, true))
            && (Unsaved(s'.reqs[r].pc) ==> Unsaved(s.reqs[r].pc) || SaveFails(a, r))
  {
    if a.r != r {
      OthersStay(u, s, a, r);
    } else {
      GrantedIsSuccess(s.inv, key, items);
    }
  }

  /** A request comes into being as asked, before its short-circuit. */
  lemma Begins(u: Rules, s: State, a: Action, r: int)
    requires Allowed(u, s, a) && !SingleAt(s, r) && SingleAt(Next(u, s, a), r)
    ensures a.BeginSingle? && a.r == r && Next(u, s, a).reqs[r] == Single(a.key, a.items, Looking)
  {}

  // ---------------------------------------------------------------- runs

  /** A moment of the run: its first `k` actions lead to `t`, which takes the next one. */
  ghost predicate Moment(u: Rules, s0: State, acts: seq<Action>, k: nat, t: State) {
    k < |acts| && Leads(u, s0, acts[..k], t) && Allowed(u, t, acts[k])
  }

  lemma {:induction false} LeadsSplit(u: Rules, s0: State, acts: seq<Action>, s: State) returns (t: State)
    requires Leads(u, s0, acts, s) && acts != []
    ensures Moment(u, s0, acts, |acts| - 1, t) && s == Next(u, t, acts[|acts| - 1])
    decreases |acts|
  {
    var n := |acts| - 1;
    if n == 0 {
      t := s0;
    } else {
      t := LeadsSplit(u, Next(u, s0, acts[0]), acts[1..], s);
      assert acts[..n][1..] == acts[1..][..n - 1];
    }
  }

  lemma MomentStays(u: Rules, s0: State, acts: seq<Action>, k: nat, t: State)
    requires acts != [] && Moment(u, s0, acts[..|acts| - 1], k, t)
    ensures Moment(u, s0, acts, k, t) && acts[k] == acts[..|acts| - 1][k]
  {
    assert acts[..|acts| - 1][..k] == acts[..k];
  }

  /** At some moment of the run the request was answered, and granted. */
  ghost predicate WasGranted(u: Rules, s0: State, acts: seq<Action>, r: int, key: string, items: seq<Item>) {
    exists k: nat, t :: Moment(u, s0, acts, k, t) && Answered(t, acts[k], r, key, items, true)
  }

  /** At some moment of the run the request, till then open, ended with this result. */
  ghost predicate WasEnded(u: Rules, s0: State, acts: seq<Action>, r: int, key: string, items: seq<Item>,
                           result: Result)
  {
    exists k: nat, t ::
      Moment(u, s0, acts, k, t) && OpenFor(t, r, key, items) && Ends(t, acts[k], r, key, items, result)
  }

  predicate OpenFor(s: State, r: int, key: string, items: seq<Item>) {
    Asks(s, r, key, items) && !s.reqs[r].pc.Ended?
  }

  lemma GrantedStays(u: Rules, s0: State, acts: seq<Action>, r: int, key: string, items: seq<Item>)
    requires acts != [] && WasGranted(u, s0, acts[..|acts| - 1], r, key, items)
    ensures WasGranted(u, s0, acts, r, key, items)
  {
    var head := acts[..|acts| - 1];
    var k: nat, t :| Moment(u, s0, head, k, t) && Answered(t, head[k], r, key, items, true);
    MomentStays(u, s0, acts, k, t);
  }

  lemma EndedStays(u: Rules, s0: State, acts: seq<Action>, r: int, key: string, items: seq<Item>, result: Result)
    requires acts != [] && WasEnded(u, s0, acts[..|acts| - 1], r, key, items, result)
    ensures WasEnded(u, s0, acts, r, key, items, result)
  {
    var head := acts[..|acts| - 1];
    var k: nat, t :|
      Moment(u, s0, head, k, t) && OpenFor(t, r, key, items) && Ends(t, head[k], r, key, items, result);
    MomentStays(u, s0, acts, k, t);
  }

  lemma {:induction false} SavedAlways(u: Rules, catalog: map<int, int>, acts: seq<Action>, s: State, r: int)
    requires Leads(u, Start(catalog), acts, s) && SingleAt(s, r)
    ensures Saved(s, r)
    decreases |acts|
  {
    if acts != [] {
      var n := |acts| - 1;
      var t := LeadsSplit(u, Start(catalog), acts, s);
      if SingleAt(t, r) {
        SavedAlways(u, catalog, acts[..n], t, r);
        SavedStep(u, t, acts[n], r);
      } else {
        Begins(u, t, acts[n], r);
      }
    }
  }

  /** An answer comes from the step that gives it. */
  lemma {:induction false} AnswerHasStep(u: Rules, catalog: map<int, int>, acts: seq<Action>, s: State, r: int,
                                         key: string, items: seq<Item>, result: Result)
    requires Leads(u, Start(catalog), acts, s) && Asks(s, r, key, items) && EndedWith(s, r, result)
    ensures WasEnded(u, Start(catalog), acts, r, key, items, result)
    decreases |acts|
  {
    if acts != [] {
      var n := |acts| - 1;
      var t := LeadsSplit(u, Start(catalog), acts, s);
      if !SingleAt(t, r) {
        Begins(u, t, acts[n], r);
      } else if t.reqs[r].pc.Ended? {
        AnswerStays(u, t, acts[n], r);
        AnswerHasStep(u, catalog, acts[..n], t, r, key, items, result);
        EndedStays(u, Start(catalog), acts, r, key, items, result);
      } else {
        SavedAlways(u, catalog, acts[..n], t, r);
        StepAnswers(u, t, acts[n], r, t.reqs[r].key, t.reqs[r].items, result);
        assert Moment(u, Start(catalog), acts, n, t) && OpenFor(t, r, key, items);
      }
    }
  }

  lemma {:induction false} RestLeads(u: Rules, s0: State, acts: seq<Action>, s: State, k: nat, t: State)
    requires k <= |acts| && Leads(u, s0, acts, s) && Leads(u, s0, acts[..k], t)
    ensures Leads(u, t, acts[k..], s)
    decreases k
  {
    if k == 0 {
      assert acts[0..] == acts;
    } else {
      assert acts[..k][1..] == acts[1..][..k - 1];
      RestLeads(u, Next(u, s0, acts[0]), acts[1..], s, k - 1, t);
      assert acts[1..][k - 1..] == acts[k..];
    }
  }

  lemma {:induction false} EndedForGood(u: Rules, t: State, acts: seq<Action>, s: State, r: int)
    requires Leads(u, t, acts, s) && SingleAt(t, r) && t.reqs[r].pc.Ended?
    ensures SingleAt(s, r) && s.reqs[r] == t.reqs[r]
    decreases |acts|
  {
    if acts != [] {
      AnswerStays(u, t, acts[0], r);
      EndedForGood(u, Next(u, t, acts[0]), acts[1..], s, r);
    }
  }

  /** The step that gives an answer settles it. */
  lemma StepGivesAnswer(u: Rules, catalog: map<int, int>, acts: seq<Action>, s: State, r: int,
                        key: string, items: seq<Item>, result: Result)
    requires Leads(u, Start(catalog), acts, s) && WasEnded(u, Start(catalog), acts, r, key, items, result)
    ensures Asks(s, r, key, items) && EndedWith(s, r, result)
  {
    var k: nat, t :|
      && Moment(u, Start(catalog), acts, k, t) && OpenFor(t, r, key, items)
      && Ends(t, acts[k], r, key, items, result);
    SavedAlways(u, catalog, acts[..k], t, r);
    StepAnswers(u, t, acts[k], r, key, items, result);
    RestLeads(u, Start(catalog), acts, s, k, t);
    assert acts[k..][1..] == acts[k + 1..];
    EndedForGood(u, Next(u, t, acts[k]), acts[k + 1..], s, r);
  }

  lemma {:induction false} ReservedWasGranted(u: Rules, catalog: map<int, int>, acts: seq<Action>, s: State, r: int,
                                              key: string, items: seq<Item>)
    requires Leads(u, Start(catalog), acts, s) && Asks(s, r, key, items)
    ensures Reserved(s.reqs[r].pc) ==> WasGranted(u, Start(catalog), acts, r, key, items)
    ensures Unsaved(s.reqs[r].pc) ==> exists a | a in acts :: SaveFails(a, r)
    ensures BeginSingle(r, key, items) in acts
    decreases |acts|
  {
    if acts != [] {
      var n := |acts| - 1;
      var t := LeadsSplit(u, Start(catalog), acts, s);
      if !SingleAt(t, r) {
        Begins(u, t, acts[n], r);
      } else {
        StepReserves(u, t, acts[n], r, t.reqs[r].key, t.reqs[r].items);
        ReservedWasGranted(u, catalog, acts[..n], t, r, key, items);
        if Reserved(s.reqs[r].pc) && Reserved(t.reqs[r].pc) {
          GrantedStays(u, Start(catalog), acts, r, key, items);
        } else if Reserved(s.reqs[r].pc) {
          assert Moment(u, Start(catalog), acts, n, t);
        }
        assert forall a | a in acts[..n] :: a in acts;
        assert acts[n] in acts;
      }
    }
  }

  /** Over every run, under any rules, a request for some items has begun as one for
      just these, and has ended with a result exactly if at some moment, open till
      then, it took the step for that result: an order of its key was there; its
      order was there and the refresh went well; the inventory answered that it
      refuses the items; the last attempt to reserve got no answer; the last
      attempt to release was over; or it crashed. A created
      order is in the table, an existing one still is, and a request that was
      created or failed had been granted its items, the failed one before its
      commit or refresh went wrong. */
  lemma RunAnswers(u: Rules, catalog: map<int, int>, acts: seq<Action>, s: State, r: int,
                   key: string, items: seq<Item>, result: Result)
    requires Leads(u, Start(catalog), acts, s) && Asks(s, r, key, items)
    ensures EndedWith(s, r, result) <==> WasEnded(u, Start(catalog), acts, r, key, items, result)
    ensures EndedWith(s, r, Created) ==> Order(key, items) in s.orders
    ensures EndedWith(s, r, Existing) ==> HasOrder(s.orders, key)
    ensures EndedWith(s, r, Created) || EndedWith(s, r, Failed) ==>
              WasGranted(u, Start(catalog), acts, r, key, items)
    ensures EndedWith(s, r, Failed) ==> exists a | a in acts :: SaveFails(a, r)
    ensures BeginSingle(r, key, items) in acts
  {
    if EndedWith(s, r, result) {
      AnswerHasStep(u, catalog, acts, s, r, key, items, result);
    }
    if WasEnded(u, Start(catalog), acts, r, key, items, result) {
      StepGivesAnswer(u, catalog, acts, s, r, key, items, result);
    }
    SavedAlways(u, catalog, acts, s, r);
    ReservedWasGranted(u, catalog, acts, s, r, key, items);
  }

  // ---------------------------------------------------------------- retries

  predicate Reserves(a: Action, r: int) { a.CallReserve? && a.r == r }

  predicate Releases(a: Action, r: int) { a.CallRelease? && a.r == r }

  function Counted(calls: (nat, nat), a: Action, r: int): (nat, nat) {
    (calls.0 + if Reserves(a, r) then 1 else 0, calls.1 + if Releases(a, r) then 1 else 0)
  }

  /** How often the request has called ReserveStock, and ReleaseStock. */
  function Calls(acts: seq<Action>, r: int): (nat, nat) {
    if acts == [] then (0, 0) else Counted(Calls(acts[..|acts| - 1], r), acts[|acts| - 1], r)
  }

  /** The attempts so far agree with where the request is. */
  predicate InBounds(pc: SinglePc, calls: (nat, nat)) {
    match pc
    case Looking => calls == (0, 0)
    case Calling(tries) => calls == (tries, 0) && tries < 4
    case Compensating(tries) => 1 <= calls.0 <= 4 && calls.1 == tries < 4
    case Ended(_) => calls.0 <= 4 && calls.1 <= 4
    case _ => 1 <= calls.0 <= 4 && calls.1 == 0
  }

  lemma BoundsStep(u: Rules, s: State, a: Action, r: int, calls: (nat, nat))
    requires Allowed(u, s, a) && SingleAt(s, r) && InBounds(s.reqs[r].pc, calls)
    ensures SingleAt(Next(u, s, a), r)
    ensures InBounds(Next(u, s, a).reqs[r].pc, Counted(calls, a, r))
  {
    if a.r != r {
      OthersStay(u, s, a, r);
    }
  }

  lemma {:induction false} NoCallsYet(u: Rules, catalog: map<int, int>, acts: seq<Action>, s: State, r: int)
    requires Leads(u, Start(catalog), acts, s) && !SingleAt(s, r)
    ensures Calls(acts, r) == (0, 0)
    decreases |acts|
  {
    if acts != [] {
      var t := LeadsSplit(u, Start(catalog), acts, s);
      if SingleAt(t, r) && acts[|acts| - 1].r != r {
        OthersStay(u, t, acts[|acts| - 1], r);
      }
      NoCallsYet(u, catalog, acts[..|acts| - 1], t, r);
    }
  }

  /** Over every run, a request calls ReserveStock at most four times and ReleaseStock
      at most four times, and not at all before it has looked for its order. */
  lemma {:induction false} AttemptsBounded(u: Rules, catalog: map<int, int>, acts: seq<Action>, s: State, r: int)
    requires Leads(u, Start(catalog), acts, s) && SingleAt(s, r)
    ensures InBounds(s.reqs[r].pc, Calls(acts, r))
    ensures Calls(acts, r).0 <= 4 && Calls(acts, r).1 <= 4
    decreases |acts|
  {
    if acts != [] {
      var n := |acts| - 1;
      var t := LeadsSplit(u, Start(catalog), acts, s);
      if SingleAt(t, r) {
        AttemptsBounded(u, catalog, acts[..n], t, r);
        BoundsStep(u, t, acts[n], r, Calls(acts[..n], r));
      } else {
        Begins(u, t, acts[n], r);
        NoCallsYet(u, catalog, acts[..n], t, r);
      }
    }
  }

  // ---------------------------------------------------------------- bulk requests

  predicate Breaks(a: Action, r: int) { a == StreamBreaks(r) || a == CommitBatch(r, false) || a == Crash(r) }

  /** What bulk request `r` did in a run: lines sent; whether it broke off, committed,
      and came to the end of its releases. */
  datatype Trail = Trail(lines: nat, broken: bool, committed: bool, ended: bool)

  function Followed(trail: Trail, a: Action, r: int): Trail {
    Trail(trail.lines + if a == StreamLine(r) then 1 else 0, trail.broken || Breaks(a, r),
          trail.committed || a == CommitBatch(r, true), trail.ended || a == UndoEnds(r))
  }

  function TrailOf(acts: seq<Action>, r: int): Trail {
    if acts == [] then Trail(0, false, false, false)
    else Followed(TrailOf(acts[..|acts| - 1], r), acts[|acts| - 1], r)
  }

  lemma {:induction false} TrailTells(acts: seq<Action>, r: int)
    ensures TrailOf(acts, r).broken <==> exists a | a in acts :: Breaks(a, r)
    ensures TrailOf(acts, r).committed <==> CommitBatch(r, true) in acts
    ensures TrailOf(acts, r).ended <==> UndoEnds(r) in acts
  {
    if acts != [] {
      var n := |acts| - 1;
      TrailTells(acts[..n], r);
      assert acts == acts[..n] + [acts[n]];
    }
  }

  /** The trail agrees with where a batch of `n` lines is. */
  predicate Trails(trail: Trail, n: nat, pc: BulkPc) {
    && (pc.Over? <==> trail.broken)
    && (pc.Done? <==> trail.ended)
    && (pc.Undoing? || pc.Done? ==> trail.committed)
    && (pc.Streaming? || pc.Committing? ==> trail.lines == |pc.outs| && !trail.committed)
    && (pc.Committing? || trail.committed ==> trail.lines == n)
  }

  lemma OtherBulkStays(u: Rules, s: State, a: Action, r: int)
    requires Allowed(u, s, a) && BulkAt(s, r) && a.r != r
    ensures BulkAt(Next(u, s, a), r) && Next(u, s, a).reqs[r] == s.reqs[r]
  {}

  /** Where a batch's own step takes it. */
  lemma OwnBulkStep(u: Rules, s: State, a: Action, r: int)
    requires Allowed(u, s, a) && BulkAt(s, r) && a.r == r
    ensures var q, s' := s.reqs[r], Next(u, s, a);
            && BulkAt(s', r) && s'.reqs[r].batch == q.batch
            && var pc, pc' := q.bpc, s'.reqs[r].bpc;
               && !pc.Over? && !pc.Done?
               && (pc'.Over? <==> Breaks(a, r))
               && (pc'.Done? <==> a == UndoEnds(r))
               && (pc'.Undoing? <==> a == CommitBatch(r, true) || a.UndoOne?)
               && (pc'.Committing? <==> a == StreamEnds(r))
               && (pc'.Streaming? <==> a == StreamLine(r))
               && (a.UndoOne? || a.UndoEnds? ==> pc.Undoing?)
               && (a.CommitBatch? ==> pc.Committing?)
               && (pc'.Streaming? ==> pc.Streaming? && |pc'.outs| == |pc.outs| + 1)
               && (pc'.Committing? ==> pc.Streaming? && pc'.outs == pc.outs && |pc.outs| == |Lines(q.batch)|)
  {}

  lemma TrailsStep(u: Rules, s: State, a: Action, r: int, trail: Trail)
    requires Allowed(u, s, a) && BulkAt(s, r) && Trails(trail, |Lines(s.reqs[r].batch)|, s.reqs[r].bpc)
    ensures var s' := Next(u, s, a);
            && BulkAt(s', r) && s'.reqs[r].batch == s.reqs[r].batch
            && Trails(Followed(trail, a, r), |Lines(s.reqs[r].batch)|, s'.reqs[r].bpc)
  {
    if a.r != r {
      OtherBulkStays(u, s, a, r);
    } else {
      OwnBulkStep(u, s, a, r);
    }
  }

  lemma BulkBegins(u: Rules, s: State, a: Action, r: int)
    requires Allowed(u, s, a) && !BulkAt(s, r) && BulkAt(Next(u, s, a), r)
    ensures r !in s.reqs && a.BeginBulk? && a.r == r && Next(u, s, a).reqs[r] == Bulk(a.batch, Streaming([]))
  {}

  lemma StaysUnknown(u: Rules, s: State, a: Action, r: int)
    requires Allowed(u, s, a) && r !in Next(u, s, a).reqs
    ensures r !in s.reqs && a.r != r
  {}

  lemma {:induction false} NothingYet(u: Rules, catalog: map<int, int>, acts: seq<Action>, s: State, r: int)
    requires Leads(u, Start(catalog), acts, s) && r !in s.reqs
    ensures TrailOf(acts, r) == Trail(0, false, false, false)
    decreases |acts|
  {
    if acts != [] {
      var t := LeadsSplit(u, Start(catalog), acts, s);
      StaysUnknown(u, t, acts[|acts| - 1], r);
      NothingYet(u, catalog, acts[..|acts| - 1], t, r);
    }
  }

  lemma {:induction false} RunTrails(u: Rules, catalog: map<int, int>, acts: seq<Action>, s: State, r: int)
    requires Leads(u, Start(catalog), acts, s) && BulkAt(s, r)
    ensures Trails(TrailOf(acts, r), |Lines(s.reqs[r].batch)|, s.reqs[r].bpc)
    decreases |acts|
  {
    if acts != [] {
      var n := |acts| - 1;
      var t := LeadsSplit(u, Start(catalog), acts, s);
      if BulkAt(t, r) {
        RunTrails(u, catalog, acts[..n], t, r);
        TrailsStep(u, t, acts[n], r, TrailOf(acts[..n], r));
      } else {
        BulkBegins(u, t, acts[n], r);
        NothingYet(u, catalog, acts[..n], t, r);
      }
    }
  }

  /** Over every run, under any rules, a bulk request is over without an answer exactly
      if its stream broke, its commit failed or it crashed; it is done exactly if it
      came to the end of its releases, which it does only after its commit; and if
      it has committed, each line of its batch had been sent, once. */
  lemma BulkRunAnswers(u: Rules, catalog: map<int, int>, acts: seq<Action>, s: State, r: int)
    requires Leads(u, Start(catalog), acts, s) && BulkAt(s, r)
    ensures s.reqs[r].bpc.Over? <==> exists a | a in acts :: Breaks(a, r)
    ensures s.reqs[r].bpc.Done? <==> UndoEnds(r) in acts
    ensures s.reqs[r].bpc.Done? ==> CommitBatch(r, true) in acts
    ensures CommitBatch(r, true) in acts ==> TrailOf(acts, r).lines == |Lines(s.reqs[r].batch)|
  {
    RunTrails(u, catalog, acts, s, r);
    TrailTells(acts, r);
  }
}
