/** The WatchStock call's own state, updated in place by its three threads, with
    each method refining a run of the stream's state machine. */
module WatchSession {
  import opened Watch
  import opened WatchLaws
  import opened WatchRuns
  import opened ListenerEvents
  import opened StockListener
  import opened MarkerOrigins
  import opened WatchKinds

  // ---------------------------------------------------------------- reading rows

  ghost predicate Catalogs(catalog: seq<int>, table: map<int, int>) {
    && (forall i, j | 0 <= i < j < |catalog| :: catalog[i] != catalog[j])
    && (forall p :: p in catalog <==> p in table)
  }

  /** fetch_stock: the existing products of `ids`, in catalogue (SKU) order. */
  function FetchRows(catalog: seq<int>, table: map<int, int>, ids: set<int>): seq<StockRow> {
    if catalog == [] then []
    else
      var p := catalog[|catalog| - 1];
      FetchRows(catalog[..|catalog| - 1], table, ids) + if p in ids && p in table then [StockRow(p, table[p])] else []
  }

  lemma {:induction false} FetchRowsMembers(catalog: seq<int>, table: map<int, int>, ids: set<int>)
    requires forall i, j | 0 <= i < j < |catalog| :: catalog[i] != catalog[j]
    ensures DistinctRows(FetchRows(catalog, table, ids))
    ensures forall r | r in FetchRows(catalog, table, ids) ::
              r.product in catalog && r.product in ids && r.product in table && r.quantity == table[r.product]
    ensures forall p | p in catalog && p in ids && p in table :: StockRow(p, table[p]) in FetchRows(catalog, table, ids)
  {
    if catalog != [] {
      var n := |catalog| - 1;
      FetchRowsMembers(catalog[..n], table, ids);
      assert catalog == catalog[..n] + [catalog[n]];
    }
  }

  /** A database read lists exactly the existing products asked for. */
  lemma FetchRowsLists(catalog: seq<int>, table: map<int, int>, ids: set<int>)
    requires Catalogs(catalog, table)
    ensures Lists(FetchRows(catalog, table, ids), table, ids)
  {
    FetchRowsMembers(catalog, table, ids);
  }

  /** The rows come in catalogue order. */
  lemma {:induction false} FetchRowsInOrder(catalog: seq<int>, table: map<int, int>, ids: set<int>)
    returns (at: seq<nat>)
    ensures |at| == |FetchRows(catalog, table, ids)|
    ensures forall i | 0 <= i < |at| :: at[i] < |catalog| && FetchRows(catalog, table, ids)[i].product == catalog[at[i]]
    ensures forall i, j | 0 <= i < j < |at| :: at[i] < at[j]
  {
    if catalog == [] {
      at := [];
    } else {
      var n := |catalog| - 1;
      at := FetchRowsInOrder(catalog[..n], table, ids);
      if catalog[n] in ids && catalog[n] in table {
        at := at + [n];
      }
    }
  }

  // ---------------------------------------------------------------- emitting rows

  /** What was last sent, and everything sent, after `n` rows of a batch. */
  function EmitAll(seen: map<int, int>, sent: seq<Update>, rows: seq<StockRow>, snapshot: bool, n: nat)
    : (map<int, int>, seq<Update>)
    requires n <= |rows|
  {
    if n == 0 then (seen, sent)
    else
      var (seen', sent') := EmitAll(seen, sent, rows, snapshot, n - 1);
      var r := rows[n - 1];
      if Skips(seen', r, snapshot) then (seen', sent')
      else (seen'[r.product := r.quantity], sent' + [UpdateFor(r, snapshot)])
  }

  /** Is this row to be sent, given what the client was sent last? */
  predicate IsDue(seen: map<int, int>, r: StockRow, snapshot: bool) {
    snapshot || r.product !in seen || seen[r.product] != r.quantity
  }

  /** The updates are one for each row due among the first `n`, in row order, of the
      batch's kind; row `picks[i]` is the one that update `i` carries. */
  ghost predicate CarryDue(seen: map<int, int>, rows: seq<StockRow>, snapshot: bool, n: nat,
                           news: seq<Update>, picks: seq<nat>)
    requires n <= |rows|
  {
    && |picks| == |news|
    && (forall i | 0 <= i < |picks| ::
          && picks[i] < n && IsDue(seen, rows[picks[i]], snapshot)
          && news[i] == Update(rows[picks[i]].product, rows[picks[i]].quantity, KindOf(snapshot)))
    && (forall i, j | 0 <= i < j < |picks| :: picks[i] < picks[j])
    && (forall k: nat | k < n && IsDue(seen, rows[k], snapshot) :: k in picks)
  }

  predicate Among(rows: seq<StockRow>, n: nat, p: int)
    requires n <= |rows|
  {
    exists k :: 0 <= k < n && rows[k].product == p
  }

  /** What the client knows after the first `n` rows. */
  ghost predicate Knows(seen: map<int, int>, rows: seq<StockRow>, n: nat, seen': map<int, int>)
    requires n <= |rows|
  {
    && (forall k | 0 <= k < n :: rows[k].product in seen' && seen'[rows[k].product] == rows[k].quantity)
    && (forall p | !Among(rows, n, p) :: p in seen' <==> p in seen)
    && (forall p | !Among(rows, n, p) && p in seen :: p in seen' && seen'[p] == seen[p])
  }

  lemma CarryOneMore(seen: map<int, int>, rows: seq<StockRow>, snapshot: bool, n: nat,
                     news: seq<Update>, picks: seq<nat>)
    requires n < |rows| && CarryDue(seen, rows, snapshot, n, news, picks)
    ensures if IsDue(seen, rows[n], snapshot)
            then CarryDue(seen, rows, snapshot, n + 1, news + [UpdateFor(rows[n], snapshot)], picks + [n])
            else CarryDue(seen, rows, snapshot, n + 1, news, picks)
  {}

  /** Earlier rows are of other products, so they do not change what is due. */
  lemma KnowsOneMore(seen: map<int, int>, rows: seq<StockRow>, snapshot: bool, n: nat, seen': map<int, int>)
    requires n < |rows| && DistinctRows(rows) && Knows(seen, rows, n, seen')
    ensures Skips(seen', rows[n], snapshot) <==> !IsDue(seen, rows[n], snapshot)
    ensures Knows(seen, rows, n + 1,
                  if Skips(seen', rows[n], snapshot) then seen' else seen'[rows[n].product := rows[n].quantity])
  {
    assert !Among(rows, n, rows[n].product);
    assert forall p :: Among(rows, n + 1, p) <==> Among(rows, n, p) || p == rows[n].product;
  }

  lemma EmitsOneMore(seen: map<int, int>, sent: seq<Update>, rows: seq<StockRow>, snapshot: bool, n: nat,
                     news: seq<Update>)
    requires n < |rows| && EmitAll(seen, sent, rows, snapshot, n).1 == sent + news
    ensures var (seen', _) := EmitAll(seen, sent, rows, snapshot, n);
            var r := rows[n];
            EmitAll(seen, sent, rows, snapshot, n + 1) ==
            if Skips(seen', r, snapshot) then (seen', sent + news)
            else (seen'[r.product := r.quantity], sent + (news + [UpdateFor(r, snapshot)]))
  {
    var u := UpdateFor(rows[n], snapshot);
    assert (sent + news) + [u] == sent + (news + [u]);
  }

  /** One row more of the loop. */
  lemma CarriesOneMore(seen: map<int, int>, sent: seq<Update>, rows: seq<StockRow>, snapshot: bool, n: nat,
                       news: seq<Update>, picks: seq<nat>)
    returns (news': seq<Update>, picks': seq<nat>)
    requires n < |rows| && DistinctRows(rows)
    requires EmitAll(seen, sent, rows, snapshot, n).1 == sent + news
    requires Knows(seen, rows, n, EmitAll(seen, sent, rows, snapshot, n).0)
    requires CarryDue(seen, rows, snapshot, n, news, picks)
    ensures EmitAll(seen, sent, rows, snapshot, n + 1).1 == sent + news'
    ensures Knows(seen, rows, n + 1, EmitAll(seen, sent, rows, snapshot, n + 1).0)
    ensures CarryDue(seen, rows, snapshot, n + 1, news', picks')
  {
    KnowsOneMore(seen, rows, snapshot, n, EmitAll(seen, sent, rows, snapshot, n).0);
    CarryOneMore(seen, rows, snapshot, n, news, picks);
    EmitsOneMore(seen, sent, rows, snapshot, n, news);
    if IsDue(seen, rows[n], snapshot) {
      news', picks' := news + [UpdateFor(rows[n], snapshot)], picks + [n];
    } else {
      news', picks' := news, picks;
    }
  }

  /** The emission loop sends each row of the batch that is due, once and in order, and
      remembers every row of it. */
  lemma {:induction false} EmitAllCarries(seen: map<int, int>, sent: seq<Update>, rows: seq<StockRow>, snapshot: bool,
                                          n: nat)
    returns (news: seq<Update>, picks: seq<nat>)
    requires n <= |rows| && DistinctRows(rows)
    ensures EmitAll(seen, sent, rows, snapshot, n).1 == sent + news
    ensures Knows(seen, rows, n, EmitAll(seen, sent, rows, snapshot, n).0)
    ensures CarryDue(seen, rows, snapshot, n, news, picks)
  {
    if n == 0 {
      news, picks := [], [];
    } else {
      news, picks := EmitAllCarries(seen, sent, rows, snapshot, n - 1);
      news, picks := CarriesOneMore(seen, sent, rows, snapshot, n - 1, news, picks);
    }
  }

  /** The machine, after emitting the first `n` rows of its batch. */
  lemma {:induction false} EmitsInTurn(s: State, n: nat) returns (acts: seq<Action>, t: State)
    requires s.history != [] && s.main.Emitting? && n <= |s.main.rows|
    ensures Leads(s, acts, t) && forall a | a in acts :: Internal(a)
    ensures var (seen, sent) := EmitAll(s.lastSeen, s.emitted, s.main.rows, s.main.snapshot, n);
            t == s.(main := s.main.(rows := s.main.rows[n..]),
                    lastSeen := seen, emitted := sent, versions := t.versions)
  {
    if n == 0 {
      acts, t := [], s;
    } else {
      var head, u := EmitsInTurn(s, n - 1);
      t := Next(u, Emit);
      acts := head + [Emit];
      LeadsSnoc(s, head, u, Emit);
    }
  }

  /** Read the still-watched ones of the picked ids. */
  lemma ReadLeads(s: State, rows: seq<StockRow>) returns (acts: seq<Action>)
    requires s.history != [] && s.main.Reading? && Lists(rows, Table(s), s.watch * s.main.ids)
    ensures Leads(s, acts, s.(main := Emitting(rows, s.main.snapshot, |s.history| - 1)))
    ensures forall a | a in acts :: Internal(a)
  {
    var t := s.(main := Emitting(rows, s.main.snapshot, |s.history| - 1));
    var s3 := Next(s, Read);
    assert Next(s3, Fetch(rows)) == t;
    acts := LeadsCons(s3, Fetch(rows), [], t);
    acts := LeadsCons(s, Read, acts, t);
  }

  function Handled(s: State): State
    requires s.main.Idle? && s.queue != []
  {
    var m := s.queue[0];
    s.(queue := s.queue[1..], newly := if m == Snapshot then {} else s.newly,
       main := Reading(match m case Snapshot => s.newly case Changed(p) => {p} case Resync => s.watch, m == Snapshot))
  }

  /** Take a marker and pick its ids under the lock. */
  lemma HandleLeads(s: State, acts: seq<Action>, t: State) returns (acts': seq<Action>)
    requires s.history != [] && s.main.Idle? && s.queue != []
    requires Leads(Handled(s), acts, t) && forall a | a in acts :: Internal(a)
    ensures Leads(s, acts', t) && forall a | a in acts' :: Internal(a)
  {
    var s1 := Next(s, Take);
    assert Next(s1, Handle) == Handled(s);
    acts' := LeadsCons(s1, Handle, acts, t);
    acts' := LeadsCons(s, Take, acts', t);
  }

  /** Take a marker, pick the ids under the lock, read them. */
  lemma BatchRead(s: State, rows: seq<StockRow>) returns (acts: seq<Action>, t: State)
    requires s.history != [] && s.main.Idle? && s.queue != []
    requires Lists(rows, Table(s), Picked(s.watch, s.newly, s.queue[0]))
    ensures Leads(s, acts, t) && forall a | a in acts :: Internal(a)
    ensures var snapshot := s.queue[0] == Snapshot;
            t == s.(queue := s.queue[1..], newly := if snapshot then {} else s.newly,
                    main := Emitting(rows, snapshot, |s.history| - 1))
  {
    var s2 := Handled(s);
    assert s2.watch * s2.main.ids == Picked(s.watch, s.newly, s.queue[0]);
    acts := ReadLeads(s2, rows);
    t := s2.(main := Emitting(rows, s2.main.snapshot, |s.history| - 1));
    acts := HandleLeads(s, acts, t);
  }

  /** One undisturbed turn of the generator loop: take a marker, pick the ids,
      read them, send the batch. */
  lemma TurnLeads(s: State, rows: seq<StockRow>) returns (acts: seq<Action>, t: State)
    requires s.history != [] && s.main.Idle? && s.queue != []
    requires Lists(rows, Table(s), Picked(s.watch, s.newly, s.queue[0]))
    ensures Leads(s, acts, t) && forall a | a in acts :: Internal(a)
    ensures var snapshot := s.queue[0] == Snapshot;
            var (seen, sent) := EmitAll(s.lastSeen, s.emitted, rows, snapshot, |rows|);
            t == s.(queue := s.queue[1..], newly := if snapshot then {} else s.newly,
                    lastSeen := seen, emitted := sent, versions := t.versions)
  {
    var head, s4 := BatchRead(s, rows);
    var emits, s5 := EmitsInTurn(s4, |rows|);
    t := Next(s5, Rest);
    LeadsSnoc(s4, emits, s5, Rest);
    LeadsConcat(s, head, s4, emits + [Rest], t);
    acts := head + (emits + [Rest]);
  }

  /** The still-watched ids a marker makes the generator read. */
  function Picked(watch: set<int>, newly: set<int>, m: Marker): set<int> {
    watch * match m
            case Snapshot => newly
            case Changed(p) => {p}
            case Resync => watch
  }

  class Session {
    const catalog: seq<int>
    var watchSet: set<int>
    var newlyAdded: set<int>
    var events: seq<Marker>
    var lastSeen: map<int, int>
    var sent: seq<Update>

    constructor (catalog: seq<int>)
      ensures this.catalog == catalog
      ensures forall table :: View(table, []) == Open(table).(listener := Polling)
    {
      this.catalog := catalog;
      watchSet, newlyAdded, events, lastSeen, sent := {}, {}, [], map[], [];
    }

    /** The machine state this session shows over a table, with the generator idle. */
    ghost function View(table: map<int, int>, versions: seq<nat>): State
      reads this
    {
      State([table], [], false, Polling, watchSet, newlyAdded, events, Idle, lastSeen, sent, versions)
    }

    /** Is the session what machine state `t` says? */
    ghost predicate Shows(t: State)
      reads this
    {
      && watchSet == t.watch && newlyAdded == t.newly && events == t.queue
      && lastSeen == t.lastSeen && sent == t.emitted
    }

    ghost function SharedNow(): Shared
      reads this
    {
      Shared(watchSet, newlyAdded, events)
    }

    /** Reader thread: one command, under the lock. */
    method DrainCommand(c: Command)
      modifies this`watchSet, this`newlyAdded, this`events
      ensures SharedNow() == Obey(old(SharedNow()), c)
      ensures forall table ::
                Shows(Next(old(View(table, [])), if c.subscribe then Subscribe(c.ids) else Unsubscribe(c.ids)))
    {
      if c.subscribe {
        watchSet := watchSet + c.ids;
        newlyAdded := newlyAdded + c.ids;
        events := events + [Snapshot];
      } else {
        watchSet := watchSet - c.ids;
        newlyAdded := newlyAdded - c.ids;
      }
    }

    /** What the reader thread does while the listener is between two events. */
    method DrainCommands(cs: seq<Command>)
      modifies this`watchSet, this`newlyAdded, this`events
      ensures SharedNow() == ObeyAll(old(SharedNow()), cs)
    {
      for i := 0 to |cs|
        invariant SharedNow() == ObeyAll(old(SharedNow()), cs[..i])
        invariant lastSeen == old(lastSeen) && sent == old(sent)
      {
        assert cs[..i + 1][..i] == cs[..i];
        DrainCommand(cs[i]);
      }
      assert cs[..|cs|] == cs;
    }

    /** Listener thread: a marker for each event that concerns a watched product. */
    method QueueMarker(e: StockEvent)
      modifies this`events
      ensures events == old(events) + MarkerFor(e, watchSet)
    {
      match e {
        case Resynced => events := events + [Resync];
        case StockChanged(p) =>
          var watched := p in watchSet;
          if watched {
            events := events + [Changed(p)];
          }
      }
    }

    /** Listener thread: every event of the subscription until `stop`, with
        `commands[i]` of the reader coming in just before event `i` is tested. The
        markers queued are those the events and commands call for, and the sets
        are what the commands left; whatever connections the listener goes
        through, that is a run of the machine. */
    method DrainNotifications(connections: seq<Connection>, stop: Stop, commands: seq<seq<Command>>,
                              ghost table: map<int, int>)
      modifies this`watchSet, this`newlyAdded, this`events
      ensures SharedNow() == ServeAll(old(SharedNow()), Heard(Until(connections, stop)), commands, 0)
      ensures Drained(connections, stop, commands, old(SharedNow()), SharedNow())
      ensures exists acts, t :: Leads(old(View(table, [])).(listener := Down), acts, t) && Shows(t)
    {
      var heard := ListenStockChanges(connections, stop);
      ServeEvents(heard, commands);
      HeardIsDrained(connections, stop, commands, old(SharedNow()));
      ghost var acts, t := ListenerLeads(old(View(table, [])).(listener := Down), Until(connections, stop), commands);
      assert Shows(t);
    }

    /** The loop over the events. */
    method ServeEvents(heard: seq<StockEvent>, commands: seq<seq<Command>>)
      modifies this`watchSet, this`newlyAdded, this`events
      ensures SharedNow() == ServeAll(old(SharedNow()), heard, commands, 0)
    {
      for i := 0 to |heard|
        invariant SharedNow() == ServeAll(old(SharedNow()), heard[..i], commands, 0)
        invariant lastSeen == old(lastSeen) && sent == old(sent)
      {
        ServeNext(old(SharedNow()), heard, commands, i);
        DrainCommands(CommandsAt(commands, i));
        QueueMarker(heard[i]);
      }
      assert heard[..|heard|] == heard;
    }

    /** Generator: send a batch, remembering each value sent. */
    method SendUpdates(rows: seq<StockRow>, snapshot: bool)
      modifies this`lastSeen, this`sent
      ensures (lastSeen, sent) == EmitAll(old(lastSeen), old(sent), rows, snapshot, |rows|)
    {
      for i := 0 to |rows|
        invariant (lastSeen, sent) == EmitAll(old(lastSeen), old(sent), rows, snapshot, i)
      {
        var r := rows[i];
        if !snapshot && r.product in lastSeen && lastSeen[r.product] == r.quantity {
          continue;
        }
        lastSeen := lastSeen[r.product := r.quantity];
        sent := sent + [Update(r.product, r.quantity, if snapshot then SNAPSHOT else CHANGED)];
      }
    }

    /** Generator: one turn of the loop against `table`. It takes one marker and sends
        the batch that the marker calls for; undisturbed, that is a run of the
        stream machine's own steps. */
    method Turn(table: map<int, int>, ghost versions: seq<nat>) returns (took: bool)
      requires Catalogs(catalog, table)
      modifies this
      ensures took <==> old(events) != []
      ensures !took ==> Shows(old(View(table, versions)))
      ensures took ==>
                && events == old(events)[1..] && watchSet == old(watchSet)
                && newlyAdded == (if old(events)[0] == Snapshot then {} else old(newlyAdded))
                && var rows := FetchRows(catalog, table, Picked(old(watchSet), old(newlyAdded), old(events)[0]));
                   (lastSeen, sent) == EmitAll(old(lastSeen), old(sent), rows, old(events)[0] == Snapshot, |rows|)
      ensures took ==> exists acts, t ::
                && Leads(old(View(table, versions)), acts, t)
                && (forall a | a in acts :: Internal(a))
                && t.main.Idle? && Shows(t)
    {
      took := events != [];
      if took {
        ghost var s := View(table, versions);
        var marker := events[0];
        events := events[1..];
        var ids: set<int>;
        match marker {
          case Snapshot =>
            ids := newlyAdded;
            newlyAdded := {};
          case Changed(p) => ids := {p};
          case Resync => ids := watchSet;
        }
        var watched := watchSet * ids;
        var rows := FetchRows(catalog, table, watched);
        FetchRowsLists(catalog, table, watched);
        SendUpdates(rows, marker == Snapshot);
        ghost var acts, t := TurnLeads(s, rows);
        assert Shows(t);
      }
    }
  }
}
