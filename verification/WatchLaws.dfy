/** The live view catches up: the obligation invariant of WatchStock and what
    follows from it. */
module WatchLaws {
  import opened Watch

  // ---------------------------------------------------------------- the invariant

  /** The listener is past its resync and nothing it should hear is being lost. */
  predicate Synced(s: State) {
    !s.lost && (s.listener.Polling? || s.listener.Got? || s.listener.Putting?)
  }

  /** The batch in hand will read `p` afresh. */
  predicate WillRead(main: Main, p: int) {
    match main
    case Handling(m) => m == Changed(p) || m == Resync
    case Reading(ids, _) => p in ids
    case Fetching(ids, _) => p in ids
    case _ => false
  }

  /** Something still to come will make the stream read `p` again. */
  predicate Obliged(s: State, p: int) {
    || p in s.newly
    || Changed(p) in s.queue
    || Resync in s.queue
    || p in s.channel
    || s.listener == Got(p)
    || s.listener == Putting(p)
    || !Synced(s)
    || WillRead(s.main, p)
  }

  predicate InBatch(main: Main, p: int) {
    main.Emitting? && exists r | r in main.rows :: r.product == p
  }

  /** The stream's value for `p` is the table's, at the latest after the batch in hand. */
  predicate Current(s: State, p: int)
    requires s.history != [] && p in Table(s)
  {
    if InBatch(s.main, p) then StockRow(p, Table(s)[p]) in s.main.rows
    else p in s.lastSeen && s.lastSeen[p] == Table(s)[p]
  }

  /** A newly added product has a snapshot coming. */
  predicate SnapshotComing(s: State) {
    s.newly != {} ==> Snapshot in s.queue || s.main == Handling(Snapshot)
  }

  predicate DistinctRows(rows: seq<StockRow>) {
    forall i, j | 0 <= i < j < |rows| :: rows[i].product != rows[j].product
  }

  /** The last value sent for `p`, if any. */
  datatype Sent = Never | Last(quantity: int)

  function LastSent(us: seq<Update>, p: int): Sent {
    if us == [] then Never
    else if us[|us| - 1].product == p then Last(us[|us| - 1].quantity)
    else LastSent(us[..|us| - 1], p)
  }

  ghost predicate Shape(s: State) {
    && s.history != []
    && (forall k | 0 <= k < |s.history| :: s.history[k].Keys == s.history[0].Keys)
    && s.newly <= s.watch
    && SnapshotComing(s)
    && (s.main.Emitting? ==> DistinctRows(s.main.rows))
  }

  /** Each watched existing product is current or has an obligation pending. */
  ghost predicate Covered(s: State)
    requires s.history != []
  {
    forall p | p in s.watch && p in Table(s) :: Current(s, p) || Obliged(s, p)
  }

  /** `last_seen` is exactly the last quantity sent of each product. */
  ghost predicate SeenIsSent(s: State) {
    && (forall p | p in s.lastSeen :: LastSent(s.emitted, p) == Last(s.lastSeen[p]))
    && (forall p | p !in s.lastSeen :: LastSent(s.emitted, p) == Never)
  }

  ghost predicate Inv(s: State) { Shape(s) && Covered(s) && SeenIsSent(s) }

  // ---------------------------------------------------------------- every step keeps it

  lemma OutsideKeepsCovered(s: State, a: Action)
    requires Shape(s) && Covered(s) && Allowed(s, a)
    requires a.Write? || a.Break? || a.Subscribe? || a.Unsubscribe?
    ensures Covered(Next(s, a))
  {
    var s' := Next(s, a);
    forall p | p in s'.watch && p in Table(s')
      ensures Current(s', p) || Obliged(s', p)
    {
      assert p in s.watch ==> Current(s, p) || Obliged(s, p);
    }
  }

  lemma ListenerKeepsCovered(s: State, a: Action)
    requires Shape(s) && Covered(s) && Allowed(s, a)
    requires a.Connect? || a.Listen? || a.Announce? || a.Receive? || a.Test? || a.Put? || a.GiveUp?
    ensures Covered(Next(s, a))
  {
    var s' := Next(s, a);
    forall p | p in s'.watch && p in Table(s')
      ensures Current(s', p) || Obliged(s', p)
    {
      assert Current(s, p) || Obliged(s, p);
    }
  }

  lemma BatchKeepsCovered(s: State, a: Action)
    requires Shape(s) && Covered(s) && Allowed(s, a) && (a.Take? || a.Handle? || a.Read? || a.Rest?)
    ensures Covered(Next(s, a))
  {
    var s' := Next(s, a);
    assert a.Take? ==> s.queue == [s.queue[0]] + s'.queue;
    forall p | p in s'.watch && p in Table(s')
      ensures Current(s', p) || Obliged(s', p)
    {
      assert Current(s, p) || Obliged(s, p);
    }
  }

  lemma FetchKeepsCovered(s: State, rows: seq<StockRow>)
    requires Shape(s) && Covered(s) && Allowed(s, Fetch(rows))
    ensures Covered(Next(s, Fetch(rows)))
  {
    var s' := Next(s, Fetch(rows));
    forall p | p in s'.watch && p in Table(s')
      ensures Current(s', p) || Obliged(s', p)
    {
      assert Current(s, p) || Obliged(s, p);
      if p !in s.main.ids {
        assert !InBatch(s'.main, p);
      }
    }
  }

  lemma EmitKeepsCovered(s: State)
    requires Shape(s) && Covered(s) && Allowed(s, Emit)
    ensures Covered(Next(s, Emit))
  {
    var s' := Next(s, Emit);
    assert s.main.rows == [s.main.rows[0]] + s'.main.rows;
    forall p | p in s'.watch && p in Table(s')
      ensures Current(s', p) || Obliged(s', p)
    {
      assert Current(s, p) || Obliged(s, p);
    }
  }

  lemma LastSentSnoc(us: seq<Update>, u: Update, p: int)
    ensures LastSent(us + [u], p) == if u.product == p then Last(u.quantity) else LastSent(us, p)
  {
    assert (us + [u])[..|us|] == us;
  }

  lemma EmitKeepsSent(s: State)
    requires s.history != [] && SeenIsSent(s) && Allowed(s, Emit)
    ensures SeenIsSent(Next(s, Emit))
  {
    var r := s.main.rows[0];
    if !Skips(s.lastSeen, r, s.main.snapshot) {
      forall p { LastSentSnoc(s.emitted, UpdateFor(r, s.main.snapshot), p); }
    }
  }

  lemma NextKeepsShape(s: State, a: Action)
    requires Shape(s) && Allowed(s, a)
    ensures Shape(Next(s, a))
  {
    if a.Take? {
      assert s.queue == [s.queue[0]] + s.queue[1..];
    }
  }

  lemma NextKeepsInv(s: State, a: Action)
    requires Inv(s) && Allowed(s, a)
    ensures Inv(Next(s, a))
  {
    NextKeepsShape(s, a);
    if a.Emit? {
      EmitKeepsSent(s);
      EmitKeepsCovered(s);
    } else if a.Take? || a.Handle? || a.Read? || a.Rest? {
      BatchKeepsCovered(s, a);
    } else if a.Fetch? {
      FetchKeepsCovered(s, a.rows);
    } else if a.Write? || a.Break? || a.Subscribe? || a.Unsubscribe? {
      OutsideKeepsCovered(s, a);
    } else {
      ListenerKeepsCovered(s, a);
    }
  }

  lemma {:induction false} LeadsKeepsInv(s: State, acts: seq<Action>, s': State)
    requires Inv(s) && Leads(s, acts, s')
    ensures Inv(s')
    decreases |acts|
  {
    if acts != [] {
      NextKeepsInv(s, acts[0]);
      LeadsKeepsInv(Next(s, acts[0]), acts[1..], s');
    }
  }

  // ---------------------------------------------------------------- convergence

  /** Nothing is queued, undelivered or in hand, and the listener hears. */
  predicate Quiet(s: State) {
    s.queue == [] && s.channel == [] && s.listener.Polling? && !s.lost && s.main.Idle?
  }

  /** The view shows the table: each watched existing product's last update sent
      carries its current quantity. */
  ghost predicate ViewIsTable(s: State)
    requires s.history != []
  {
    forall p | p in s.watch && p in Table(s) ::
      && p in s.lastSeen && s.lastSeen[p] == Table(s)[p]
      && LastSent(s.emitted, p) == Last(Table(s)[p])
  }

  /** In every reachable state each watched existing product either shows its
      current quantity, after the batch in hand, or has an obligation pending;
      so once everything has drained, the view is the table, whatever was
      committed, lost, subscribed or unsubscribed on the way. */
  lemma WatchConverges(table: map<int, int>, acts: seq<Action>, s: State)
    requires Leads(Open(table), acts, s)
    ensures s.history != []
    ensures forall p | p in s.watch && p in Table(s) :: Current(s, p) || Obliged(s, p)
    ensures Quiet(s) ==> ViewIsTable(s)
  {
    LeadsKeepsInv(Open(table), acts, s);
  }

  // ---------------------------------------------------------------- draining ends

  function ListenerWork(s: State, k: nat): nat {
    (match s.listener
     case Down => k + 8
     case Connected => k + 7
     case Announcing => k + 6
     case Polling => 0
     case Got(_) => k + 7
     case Putting(_) => k + 6)
    + if s.lost then k + 9 else 0
  }

  function MainWork(main: Main, k: nat): nat {
    match main
    case Idle => 0
    case Handling(_) => k + 4
    case Reading(_, _) => k + 3
    case Fetching(_, _) => k + 2
    case Emitting(rows, _, _) => |rows| + 1
  }

  /** Steps of the stream's own still to come, if the world leaves it alone. */
  function Work(s: State): nat
    requires s.history != []
  {
    var k := |Table(s).Keys|;
    ListenerWork(s, k) + MainWork(s.main, k) + |s.queue| * (k + 5) + |s.channel| * (k + 8)
  }

  lemma {:induction false} ListingSize(rows: seq<StockRow>, keys: set<int>)
    requires DistinctRows(rows) && forall r | r in rows :: r.product in keys
    ensures |rows| <= |keys|
  {
    if rows != [] {
      var n := |rows| - 1;
      assert rows[n] in rows;
      assert forall r | r in rows[..n] :: r in rows;
      ListingSize(rows[..n], keys - {rows[n].product});
    }
  }

  lemma OneMore(n: nat, c: nat)
    ensures (n + 1) * c == n * c + c
  {}

  lemma ListenerStepWorks(s: State, a: Action)
    requires s.history != [] && Allowed(s, a)
    requires a.Connect? || a.Listen? || a.Announce? || a.Receive? || a.Test? || a.Put? || a.GiveUp?
    ensures Work(Next(s, a)) < Work(s)
  {
    var k := |Table(s).Keys|;
    var q, c := |s.queue|, |s.channel|;
    assert 0 <= c * (k + 8);
    OneMore(q, k + 5);
    if a.Receive? {
      OneMore(c - 1, k + 8);
    }
  }

  lemma TakeWorks(s: State)
    requires s.history != [] && Allowed(s, Take)
    ensures Work(Next(s, Take)) < Work(s)
  {
    OneMore(|s.queue| - 1, |Table(s).Keys| + 5);
  }

  lemma BatchStepWorks(s: State, a: Action)
    requires s.history != [] && Allowed(s, a)
    requires a.Handle? || a.Read? || a.Fetch? || a.Emit? || a.Rest?
    ensures Work(Next(s, a)) < Work(s)
  {
    if a.Fetch? {
      ListingSize(a.rows, Table(s).Keys);
    }
    assert Table(Next(s, a)) == Table(s);
  }

  /** Each step of the stream's own leaves strictly less of them to do. */
  lemma InternalStepWorks(s: State, a: Action)
    requires s.history != [] && Internal(a) && Allowed(s, a)
    ensures Work(Next(s, a)) < Work(s)
  {
    if a.Take? {
      TakeWorks(s);
    } else if a.Handle? || a.Read? || a.Fetch? || a.Emit? || a.Rest? {
      BatchStepWorks(s, a);
    } else {
      ListenerStepWorks(s, a);
    }
  }

  /** Left alone, the stream takes at most `Work(s)` steps. */
  lemma {:induction false} DrainIsBounded(s: State, acts: seq<Action>, s': State)
    requires s.history != [] && Leads(s, acts, s')
    requires forall a | a in acts :: Internal(a)
    ensures s'.history != [] && |acts| + Work(s') <= Work(s)
    decreases |acts|
  {
    if acts != [] {
      assert acts[0] in acts;
      InternalStepWorks(s, acts[0]);
      assert forall a | a in acts[1..] :: a in acts;
      DrainIsBounded(Next(s, acts[0]), acts[1..], s');
    }
  }

  lemma {:induction false} SomeListing(table: map<int, int>, ids: set<int>) returns (rows: seq<StockRow>)
    ensures Lists(rows, table, ids)
    decreases |ids|
  {
    rows := [];
    if p :| p in ids {
      rows := SomeListing(table, ids - {p});
      if p in table {
        rows := rows + [StockRow(p, table[p])];
      }
    }
  }

  /** Unless it is quiet, the stream has a step of its own to take. */
  lemma SomethingToDo(s: State) returns (a: Action)
    requires s.history != [] && !Quiet(s)
    ensures Internal(a) && Allowed(s, a)
  {
    match s.main
    case Handling(_) => return Handle;
    case Reading(_, _) => return Read;
    case Fetching(ids, _) =>
      var rows := SomeListing(Table(s), ids);
      return Fetch(rows);
    case Emitting(rows, _, _) => return if rows == [] then Rest else Emit;
    case Idle =>
      if s.queue != [] {
        return Take;
      }
      match s.listener
      case Down => return Connect;
      case Connected => return if s.lost then GiveUp else Listen;
      case Announcing => return Announce;
      case Got(_) => return Test;
      case Putting(_) => return Put;
      case Polling => return if s.lost then GiveUp else Receive;
  }

  /** From every reachable state the stream, left alone, can come to rest within
      `Work(s)` steps, showing the table. */
  lemma {:induction false} DrainsToTable(s: State) returns (acts: seq<Action>, s': State)
    requires Inv(s)
    ensures forall a | a in acts :: Internal(a)
    ensures Leads(s, acts, s') && Inv(s')
    ensures |acts| <= Work(s)
    ensures Quiet(s') && ViewIsTable(s')
    decreases Work(s)
  {
    if Quiet(s) {
      acts, s' := [], s;
    } else {
      var a := SomethingToDo(s);
      NextKeepsInv(s, a);
      InternalStepWorks(s, a);
      var rest;
      rest, s' := DrainsToTable(Next(s, a));
      acts := [a] + rest;
      assert acts[1..] == rest;
    }
  }

  lemma DrainedFrom(s: State, acts: seq<Action>, s': State)
    requires Inv(s) && Leads(s, acts, s') && forall a | a in acts :: Internal(a)
    ensures s'.history != [] && |acts| <= Work(s)
    ensures Quiet(s') ==> ViewIsTable(s')
    ensures !Quiet(s') ==> exists a :: Internal(a) && Allowed(s', a)
  {
    LeadsKeepsInv(s, acts, s');
    DrainIsBounded(s, acts, s');
    if !Quiet(s') {
      var a := SomethingToDo(s');
      assert Internal(a) && Allowed(s', a);
    }
  }

  /** However a reachable stream, left alone, takes its own steps: they are at
      most `Work(s)`, there is always another one until it is quiet, and when it
      is quiet its view is the table. */
  lemma EveryDrainShowsTable(table: map<int, int>, before: seq<Action>, s: State, acts: seq<Action>, s': State)
    requires Leads(Open(table), before, s)
    requires s.history != [] && Leads(s, acts, s') && forall a | a in acts :: Internal(a)
    ensures s'.history != [] && |acts| <= Work(s)
    ensures Quiet(s') ==> ViewIsTable(s')
    ensures !Quiet(s') ==> exists a :: Internal(a) && Allowed(s', a)
  {
    LeadsKeepsInv(Open(table), before, s);
    DrainedFrom(s, acts, s');
  }
}
