/** The updates a WatchStock stream sends: what they sample, how they stop after
    an unsubscribe, and the snapshot a subscription is owed. */
module WatchStream {
  import opened Watch
  import opened WatchLaws

  // ---------------------------------------------------------------- monotone sampling

  /** Does update `u` carry a committed quantity, the one of version `v`? */
  predicate Samples(history: seq<map<int, int>>, u: Update, v: nat) {
    v < |history| && u.product in history[v] && u.quantity == history[v][u.product]
  }

  /** A CHANGED update differs from the last one sent before it for its product. */
  predicate IsNews(us: seq<Update>, j: nat)
    requires j < |us|
  {
    us[j].kind == CHANGED ==> LastSent(us[..j], us[j].product) != Last(us[j].quantity)
  }

  ghost predicate SampleInv(s: State) {
    && |s.versions| == |s.emitted|
    && (forall i | 0 <= i < |s.emitted| :: Samples(s.history, s.emitted[i], s.versions[i]))
    && (forall i, j | 0 <= i < j < |s.versions| :: s.versions[i] <= s.versions[j])
    && (forall j | 0 <= j < |s.emitted| :: IsNews(s.emitted, j))
    && (s.main.Emitting? ==>
          && s.main.version < |s.history|
          && (forall i | 0 <= i < |s.versions| :: s.versions[i] <= s.main.version)
          && (forall r | r in s.main.rows ::
                r.product in s.history[s.main.version] && r.quantity == s.history[s.main.version][r.product]))
  }

  lemma NewsAppend(us: seq<Update>, u: Update)
    requires forall j | 0 <= j < |us| :: IsNews(us, j)
    requires u.kind == CHANGED ==> LastSent(us, u.product) != Last(u.quantity)
    ensures forall j | 0 <= j < |us + [u]| :: IsNews(us + [u], j)
  {
    forall j | 0 <= j < |us + [u]|
      ensures IsNews(us + [u], j)
    {
      if j < |us| {
        assert IsNews(us, j) && (us + [u])[..j] == us[..j];
      } else {
        assert (us + [u])[..j] == us;
      }
    }
  }

  lemma EmitKeepsSampleInv(s: State)
    requires Inv(s) && SampleInv(s) && Allowed(s, Emit)
    ensures SampleInv(Next(s, Emit))
  {
    var s' := Next(s, Emit);
    var r := s.main.rows[0];
    assert forall x | x in s'.main.rows :: x in s.main.rows;
    if !Skips(s.lastSeen, r, s.main.snapshot) {
      NewsAppend(s.emitted, UpdateFor(r, s.main.snapshot));
    }
  }

  lemma WriteKeepsSampleInv(s: State, changes: map<int, int>, notes: seq<int>)
    requires Inv(s) && SampleInv(s) && Allowed(s, Write(changes, notes))
    ensures SampleInv(Next(s, Write(changes, notes)))
  {
    var s' := Next(s, Write(changes, notes));
    forall i | 0 <= i < |s.emitted|
      ensures Samples(s'.history, s.emitted[i], s.versions[i])
    {
      assert Samples(s.history, s.emitted[i], s.versions[i]);
    }
  }

  lemma FetchKeepsSampleInv(s: State, rows: seq<StockRow>)
    requires Inv(s) && SampleInv(s) && Allowed(s, Fetch(rows))
    ensures SampleInv(Next(s, Fetch(rows)))
  {
    forall i | 0 <= i < |s.versions|
      ensures s.versions[i] <= |s.history| - 1
    {
      assert Samples(s.history, s.emitted[i], s.versions[i]);
    }
  }

  /** No other step commits, reads or sends anything. */
  lemma OtherStep(s: State, a: Action)
    requires s.history != [] && Allowed(s, a) && !a.Emit? && !a.Write? && !a.Fetch?
    ensures var s' := Next(s, a);
            && s'.history == s.history && s'.emitted == s.emitted && s'.versions == s.versions
            && (s'.main.Emitting? ==> s'.main == s.main)
  {}

  lemma NextKeepsSampleInv(s: State, a: Action)
    requires Inv(s) && SampleInv(s) && Allowed(s, a)
    ensures SampleInv(Next(s, a))
  {
    match a
    case Emit => EmitKeepsSampleInv(s);
    case Write(changes, notes) => WriteKeepsSampleInv(s, changes, notes);
    case Fetch(rows) => FetchKeepsSampleInv(s, rows);
    case _ => OtherStep(s, a);
  }

  lemma {:induction false} LeadsKeepsSampleInv(s: State, acts: seq<Action>, s': State)
    requires Inv(s) && SampleInv(s) && Leads(s, acts, s')
    ensures SampleInv(s')
    decreases |acts|
  {
    if acts != [] {
      NextKeepsInv(s, acts[0]);
      NextKeepsSampleInv(s, acts[0]);
      LeadsKeepsSampleInv(Next(s, acts[0]), acts[1..], s');
    }
  }

  /** The updates of one watch walk through the commit history without ever going
      back, each carries exactly what was committed at its point, and no CHANGED
      update repeats the value last sent for its product. */
  lemma MonotoneSampling(table: map<int, int>, acts: seq<Action>, s: State)
    requires Leads(Open(table), acts, s)
    ensures |s.versions| == |s.emitted|
    ensures forall i | 0 <= i < |s.emitted| :: Samples(s.history, s.emitted[i], s.versions[i])
    ensures forall i, j | 0 <= i < j < |s.versions| :: s.versions[i] <= s.versions[j]
    ensures forall j | 0 <= j < |s.emitted| :: IsNews(s.emitted, j)
  {
    LeadsKeepsSampleInv(Open(table), acts, s);
  }

  // ---------------------------------------------------------------- after an unsubscribe

  function CountOf(us: seq<Update>, p: int): nat {
    if us == [] then 0 else CountOf(us[..|us| - 1], p) + if us[|us| - 1].product == p then 1 else 0
  }

  /** Updates of `p` that the batch already read can still send. */
  function Budget(main: Main, p: int): nat {
    match main
    case Fetching(ids, _) => if p in ids then 1 else 0
    case Emitting(_, _, _) => if InBatch(main, p) then 1 else 0
    case _ => 0
  }

  predicate Subscribes(a: Action, p: int) { a.Subscribe? && p in a.ids }

  lemma UnwatchedStep(s: State, a: Action, p: int)
    requires Inv(s) && Allowed(s, a) && p !in s.watch && !Subscribes(a, p)
    ensures p !in Next(s, a).watch
    ensures CountOf(Next(s, a).emitted, p) + Budget(Next(s, a).main, p) <= CountOf(s.emitted, p) + Budget(s.main, p)
  {
    var s' := Next(s, a);
    if a.Emit? {
      var r := s.main.rows[0];
      assert s.main.rows == [r] + s'.main.rows;
      if s'.emitted != s.emitted {
        assert s'.emitted[..|s.emitted|] == s.emitted;
      }
    }
  }

  /** Once a product is out of the watch set and stays out, at most one more
      update for it is sent, and only from a batch that had already chosen it. */
  lemma {:induction false} UnsubscribeBound(s: State, acts: seq<Action>, s': State, p: int)
    requires Inv(s) && Leads(s, acts, s') && p !in s.watch
    requires forall a | a in acts :: !Subscribes(a, p)
    ensures CountOf(s'.emitted, p) + Budget(s'.main, p) <= CountOf(s.emitted, p) + Budget(s.main, p)
    ensures CountOf(s'.emitted, p) <= CountOf(s.emitted, p) + 1
    decreases |acts|
  {
    if acts != [] {
      var a := acts[0];
      assert a in acts && forall b | b in acts[1..] :: b in acts;
      NextKeepsInv(s, a);
      UnwatchedStep(s, a, p);
      UnsubscribeBound(Next(s, a), acts[1..], s', p);
    }
  }

  /** After an unsubscribe that is not undone, at most one more update of each of
      its products is ever sent. */
  lemma AfterUnsubscribe(table: map<int, int>, before: seq<Action>, s: State, ids: set<int>, p: int,
                         acts: seq<Action>, s': State)
    requires Leads(Open(table), before, s) && s.history != [] && p in ids
    requires Leads(Next(s, Unsubscribe(ids)), acts, s') && forall a | a in acts :: !Subscribes(a, p)
    ensures CountOf(s'.emitted, p) <= CountOf(s.emitted, p) + 1
  {
    LeadsKeepsInv(Open(table), before, s);
    NextKeepsInv(s, Unsubscribe(ids));
    UnsubscribeBound(Next(s, Unsubscribe(ids)), acts, s', p);
  }

  // ---------------------------------------------------------------- the snapshot owed

  /** A snapshot of `p`, no older than version `since`, has been sent as update
      `from` or later. */
  ghost predicate SnapshotSent(s: State, p: int, from: nat, since: nat) {
    exists i :: from <= i < |s.emitted| && i < |s.versions|
             && s.emitted[i].product == p && s.emitted[i].kind == SNAPSHOT && since <= s.versions[i]
  }

  /** The snapshot batch about to be read, or one still to come, covers `p`. */
  predicate Pending(s: State, p: int) {
    p in s.newly || (s.main.Reading? && s.main.snapshot && p in s.main.ids)
  }

  /** The batch in hand has been chosen to send a snapshot of `p`. */
  predicate Chosen(s: State, p: int, since: nat) {
    match s.main
    case Fetching(ids, snapshot) => snapshot && p in ids
    case Emitting(_, snapshot, v) => snapshot && InBatch(s.main, p) && since <= v
    case _ => false
  }

  predicate Unsubscribes(a: Action, p: int) { a.Unsubscribe? && p in a.ids }

  lemma SentStays(s: State, a: Action, p: int, from: nat, since: nat)
    requires s.history != [] && Allowed(s, a) && SnapshotSent(s, p, from, since)
    ensures SnapshotSent(Next(s, a), p, from, since)
  {
    var s' := Next(s, a);
    var i :| from <= i < |s.emitted| && i < |s.versions|
             && s.emitted[i].product == p && s.emitted[i].kind == SNAPSHOT && since <= s.versions[i];
    assert s'.emitted[i] == s.emitted[i] && s'.versions[i] == s.versions[i];
  }

  /** Nothing but sending it undoes the choice, an unsubscribe included. */
  lemma ChosenStep(s: State, a: Action, p: int, from: nat, since: nat)
    requires Inv(s) && SampleInv(s) && Allowed(s, a) && p in Table(s) && since < |s.history| && from <= |s.emitted|
    requires Chosen(s, p, since)
    ensures SnapshotSent(Next(s, a), p, from, since) || Chosen(Next(s, a), p, since)
  {
    var s' := Next(s, a);
    if a.Fetch? {
      assert StockRow(p, Table(s)[p]) in a.rows;
    } else if a.Emit? {
      var r := s.main.rows[0];
      assert s.main.rows == [r] + s'.main.rows;
      if r.product == p {
        var n := |s.emitted|;
        assert s'.emitted[n] == UpdateFor(r, true) && s'.versions[n] == s.main.version;
      }
    }
  }

  /** While it stays subscribed, a pending product stays so until the read chooses it. */
  lemma PendingStep(s: State, a: Action, p: int, since: nat)
    requires Inv(s) && Allowed(s, a) && !Unsubscribes(a, p) && p in s.watch && Pending(s, p)
    ensures p in Next(s, a).watch && (Pending(Next(s, a), p) || Chosen(Next(s, a), p, since))
  {}

  /** Histories and updates only grow, and the catalogue stays. */
  lemma Grows(s: State, a: Action, p: int)
    requires Inv(s) && Allowed(s, a) && p in Table(s)
    ensures var s' := Next(s, a);
            s'.history != [] && p in Table(s') && |s.history| <= |s'.history| && |s.emitted| <= |s'.emitted|
  {}

  /** Sent, chosen, or pending and still watched. */
  ghost predicate Served(s: State, p: int, from: nat, since: nat) {
    SnapshotSent(s, p, from, since) || Chosen(s, p, since) || (Pending(s, p) && p in s.watch)
  }

  /** Does some action unsubscribe `p` before the batch with its snapshot is read? */
  ghost predicate DroppedEarly(s: State, acts: seq<Action>, p: int, from: nat, since: nat)
    requires s.history != []
    decreases |acts|
  {
    && acts != [] && Allowed(s, acts[0])
    && (|| (Unsubscribes(acts[0], p) && !SnapshotSent(s, p, from, since) && !Chosen(s, p, since))
        || DroppedEarly(Next(s, acts[0]), acts[1..], p, from, since))
  }

  lemma ServedStep(s: State, a: Action, p: int, from: nat, since: nat)
    requires Inv(s) && SampleInv(s) && Allowed(s, a) && p in Table(s) && since < |s.history| && from <= |s.emitted|
    requires Served(s, p, from, since)
    requires Unsubscribes(a, p) ==> SnapshotSent(s, p, from, since) || Chosen(s, p, since)
    ensures Served(Next(s, a), p, from, since)
  {
    if SnapshotSent(s, p, from, since) {
      SentStays(s, a, p, from, since);
    } else if Chosen(s, p, since) {
      ChosenStep(s, a, p, from, since);
    } else {
      PendingStep(s, a, p, since);
    }
  }

  lemma {:induction false} ServedUntil(s: State, acts: seq<Action>, s': State, p: int, from: nat, since: nat)
    requires Inv(s) && SampleInv(s) && Leads(s, acts, s') && !DroppedEarly(s, acts, p, from, since)
    requires p in Table(s) && since < |s.history| && from <= |s.emitted| && Served(s, p, from, since)
    ensures Served(s', p, from, since)
    decreases |acts|
  {
    if acts != [] {
      NextKeepsInv(s, acts[0]);
      NextKeepsSampleInv(s, acts[0]);
      Grows(s, acts[0], p);
      ServedStep(s, acts[0], p, from, since);
      ServedUntil(Next(s, acts[0]), acts[1..], s', p, from, since);
    }
  }

  lemma SubscribedFrom(s: State, ids: set<int>, p: int, acts: seq<Action>, s': State)
    requires Inv(s) && SampleInv(s) && p in ids && p in Table(s)
    requires Leads(Next(s, Subscribe(ids)), acts, s')
    requires !DroppedEarly(Next(s, Subscribe(ids)), acts, p, |s.emitted|, |s.history| - 1)
    ensures Inv(s') && Served(s', p, |s.emitted|, |s.history| - 1)
  {
    var t := Next(s, Subscribe(ids));
    NextKeepsInv(s, Subscribe(ids));
    NextKeepsSampleInv(s, Subscribe(ids));
    ServedUntil(t, acts, s', p, |s.emitted|, |s.history| - 1);
    LeadsKeepsInv(t, acts, s');
  }

  /** Every subscription to an existing product that is still watched when the batch
      with its snapshot is read gets a SNAPSHOT update, sent after the subscription
      and read no earlier than it, even if it is unsubscribed after the read. Until
      then it is chosen or pending, so a quiet stream has sent it. */
  lemma SubscriptionGetsSnapshot(table: map<int, int>, before: seq<Action>, s: State, ids: set<int>, p: int,
                                 acts: seq<Action>, s': State)
    requires Leads(Open(table), before, s) && s.history != []
    requires p in ids && p in Table(s)
    requires Leads(Next(s, Subscribe(ids)), acts, s')
    requires !DroppedEarly(Next(s, Subscribe(ids)), acts, p, |s.emitted|, |s.history| - 1)
    ensures Served(s', p, |s.emitted|, |s.history| - 1)
    ensures Quiet(s') ==> SnapshotSent(s', p, |s.emitted|, |s.history| - 1)
  {
    LeadsKeepsInv(Open(table), before, s);
    LeadsKeepsSampleInv(Open(table), before, s);
    SubscribedFrom(s, ids, p, acts, s');
  }

  /** In particular one that is never taken back. */
  lemma {:induction false} KeptIsNotDropped(s: State, acts: seq<Action>, p: int, from: nat, since: nat)
    requires s.history != [] && forall a | a in acts :: !Unsubscribes(a, p)
    ensures !DroppedEarly(s, acts, p, from, since)
    decreases |acts|
  {
    if acts != [] && Allowed(s, acts[0]) {
      assert acts[0] in acts && forall a | a in acts[1..] :: a in acts;
      KeptIsNotDropped(Next(s, acts[0]), acts[1..], p, from, since);
    }
  }

  lemma {:induction false} ChosenUntil(s: State, acts: seq<Action>, s': State, p: int, from: nat, since: nat)
    requires Inv(s) && SampleInv(s) && Leads(s, acts, s')
    requires p in Table(s) && since < |s.history| && from <= |s.emitted|
    requires SnapshotSent(s, p, from, since) || Chosen(s, p, since)
    ensures SnapshotSent(s', p, from, since) || Chosen(s', p, since)
    decreases |acts|
  {
    if acts != [] {
      NextKeepsInv(s, acts[0]);
      NextKeepsSampleInv(s, acts[0]);
      Grows(s, acts[0], p);
      if SnapshotSent(s, p, from, since) {
        SentStays(s, acts[0], p, from, since);
      } else {
        ChosenStep(s, acts[0], p, from, since);
      }
      ChosenUntil(Next(s, acts[0]), acts[1..], s', p, from, since);
    }
  }

  lemma ReadFrom(s: State, p: int, acts: seq<Action>, s': State)
    requires Inv(s) && SampleInv(s) && Allowed(s, Read)
    requires s.main.snapshot && p in s.main.ids && p in s.watch && p in Table(s)
    requires Leads(Next(s, Read), acts, s')
    ensures SnapshotSent(s', p, |s.emitted|, |s.history| - 1) || Chosen(s', p, |s.history| - 1)
  {
    NextKeepsInv(s, Read);
    NextKeepsSampleInv(s, Read);
    ChosenUntil(Next(s, Read), acts, s', p, |s.emitted|, |s.history| - 1);
  }

  /** Once a snapshot batch is read, each existing product of it that is watched at
      that moment is sent as a SNAPSHOT, whatever happens next, unsubscribes
      included: at the latest when the generator is idle again. */
  lemma ReadGetsSnapshot(table: map<int, int>, before: seq<Action>, s: State, p: int, acts: seq<Action>, s': State)
    requires Leads(Open(table), before, s) && s.history != []
    requires s.main.Reading? && s.main.snapshot && p in s.main.ids && p in s.watch && p in Table(s)
    requires Leads(Next(s, Read), acts, s')
    ensures SnapshotSent(s', p, |s.emitted|, |s.history| - 1) || Chosen(s', p, |s.history| - 1)
    ensures s'.main.Idle? ==> SnapshotSent(s', p, |s.emitted|, |s.history| - 1)
  {
    LeadsKeepsInv(Open(table), before, s);
    LeadsKeepsSampleInv(Open(table), before, s);
    ReadFrom(s, p, acts, s');
  }
}
