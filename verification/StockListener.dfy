/** listen_stock_changes in place, and what its consumer makes of the events while
    the reader thread reshapes the watch set. */
module StockListener {
  import opened ListenerEvents
  import opened Watch
  import opened WatchRuns

  /** The inner loop: notifications of one connection, until it is lost or `stop` is set. */
  method TakeNotifications(payloads: seq<Payload>, limit: nat) returns (heard: seq<StockEvent>)
    ensures heard == Parsed(Cut(Live(payloads), limit).payloads)
  {
    heard := [];
    var j := 0;
    while j < |payloads| && j < limit
      invariant j <= |payloads| && j <= limit
      invariant heard == Parsed(payloads[..j])
    {
      ParsedNext(payloads, j);
      if payloads[j].ProductId? {
        heard := heard + [StockChanged(payloads[j].product)];
      }
      j := j + 1;
    }
    assert payloads[..|payloads|] == payloads;
  }

  /** What turn `i` adds. */
  lemma TurnHears(connections: seq<Connection>, stop: Stop, i: nat)
    requires i < |connections| && i <= stop.turn
    ensures var c := connections[i];
            Heard(Turns(connections, stop, i + 1)) ==
            Heard(Turns(connections, stop, i)) +
            if c.Unreachable? then []
            else [Resynced] + Parsed(Cut(c, if i == stop.turn then stop.taken else |c.payloads|).payloads)
  {
    HeardNext(connections, stop, i);
  }

  /** The generator, while there are connections and until `stop` is set. */
  method ListenStockChanges(connections: seq<Connection>, stop: Stop) returns (heard: seq<StockEvent>)
    ensures heard == Heard(Until(connections, stop))
    ensures exists points :: Accounts(connections, stop, heard, points)
  {
    heard := [];
    var i := 0;
    while i < |connections| && i <= stop.turn
      invariant i <= |connections|
      invariant heard == Heard(Turns(connections, stop, i))
    {
      TurnHears(connections, stop, i);
      match connections[i] {
        case Unreachable =>
        case Live(payloads) =>
          var changes := TakeNotifications(payloads, if i == stop.turn then stop.taken else |payloads|);
          heard := heard + ([Resynced] + changes);
      }
      i := i + 1;
    }
    AllTurns(connections, stop);
    ghost var points := HeardAccounts(connections, stop);
  }

  // ---------------------------------------------------------------- the consumer

  datatype Command = Command(subscribe: bool, ids: set<int>)

  /** What the reader and the listener thread share with the generator. */
  datatype Shared = Shared(watch: set<int>, newly: set<int>, queue: seq<Marker>)

  function Obey(sh: Shared, c: Command): Shared {
    if c.subscribe then Shared(sh.watch + c.ids, sh.newly + c.ids, sh.queue + [Snapshot])
    else Shared(sh.watch - c.ids, sh.newly - c.ids, sh.queue)
  }

  function ObeyAll(sh: Shared, cs: seq<Command>): Shared {
    if cs == [] then sh else Obey(ObeyAll(sh, cs[..|cs| - 1]), cs[|cs| - 1])
  }

  /** The marker an event becomes, if its product is watched. */
  function MarkerFor(e: StockEvent, watch: set<int>): seq<Marker> {
    match e
    case Resynced => [Resync]
    case StockChanged(p) => if p in watch then [Changed(p)] else []
  }

  /** An event is tested against the watch set as the reader's commands so far left it. */
  function Serve(sh: Shared, e: StockEvent, cs: seq<Command>): Shared {
    var mid := ObeyAll(sh, cs);
    mid.(queue := mid.queue + MarkerFor(e, mid.watch))
  }

  function CommandsAt(commands: seq<seq<Command>>, i: nat): seq<Command> {
    if i < |commands| then commands[i] else []
  }

  /** Events served in turn, `commands[k + i]` arriving just before event `i` is tested. */
  function ServeAll(sh: Shared, events: seq<StockEvent>, commands: seq<seq<Command>>, k: nat): Shared {
    if events == [] then sh
    else
      var n := |events| - 1;
      Serve(ServeAll(sh, events[..n], commands, k), events[n], CommandsAt(commands, k + n))
  }

  lemma {:induction false} ServeConcat(sh: Shared, a: seq<StockEvent>, b: seq<StockEvent>,
                                       commands: seq<seq<Command>>, k: nat)
    ensures ServeAll(sh, a + b, commands, k) == ServeAll(ServeAll(sh, a, commands, k), b, commands, k + |a|)
  {
    if b == [] {
      assert a + b == a;
    } else {
      var c := b[..|b| - 1];
      assert (a + b)[..|a + b| - 1] == a + c;
      ServeConcat(sh, a, c, commands, k);
    }
  }

  lemma ServeOne(sh: Shared, e: StockEvent, commands: seq<seq<Command>>, k: nat)
    ensures ServeAll(sh, [e], commands, k) == Serve(sh, e, CommandsAt(commands, k))
  {
    assert [e][..0] == [];
  }

  lemma ServeNext(sh: Shared, events: seq<StockEvent>, commands: seq<seq<Command>>, i: nat)
    requires i < |events|
    ensures ServeAll(sh, events[..i + 1], commands, 0) ==
            Serve(ServeAll(sh, events[..i], commands, 0), events[i], CommandsAt(commands, i))
  {
    assert events[..i + 1][..i] == events[..i];
  }

  // ---------------------------------------------------------------- refinement of the stream machine

  function SharedOf(s: State): Shared { Shared(s.watch, s.newly, s.queue) }

  function With(s: State, sh: Shared): State { s.(watch := sh.watch, newly := sh.newly, queue := sh.queue) }

  lemma {:induction false} ObeyLeads(s: State, cs: seq<Command>) returns (acts: seq<Action>)
    requires s.history != []
    ensures Leads(s, acts, With(s, ObeyAll(SharedOf(s), cs)))
  {
    if cs == [] {
      acts := [];
    } else {
      var n := |cs| - 1;
      var c := cs[n];
      acts := ObeyLeads(s, cs[..n]);
      var t := With(s, ObeyAll(SharedOf(s), cs[..n]));
      var a := if c.subscribe then Subscribe(c.ids) else Unsubscribe(c.ids);
      assert Next(t, a) == With(s, ObeyAll(SharedOf(s), cs));
      acts := LeadsLast(s, acts, t, a);
    }
  }

  /** A listener that is connected, hears, and has nothing waiting. */
  predicate Idling(s: State) { s.history != [] && s.listener.Polling? && !s.lost && s.channel == [] }

  predicate Disconnected(s: State) { s.history != [] && s.listener.Down? && !s.lost && s.channel == [] }

  /** A commit notifies of `p`, and the listener takes it off the wire. */
  lemma HearOne(s: State, p: int) returns (acts: seq<Action>, t: State)
    requires Idling(s)
    ensures Leads(s, acts, t) && Idling(t)
    ensures t == s.(history := t.history, queue := s.queue + MarkerFor(StockChanged(p), s.watch))
  {
    var s1 := Next(s, Write(map[], [p]));
    var s2 := Next(s1, Receive);
    var s3 := Next(s2, Test);
    acts := LeadsLast(s, [], s, Write(map[], [p]));
    acts := LeadsLast(s, acts, s1, Receive);
    acts := LeadsLast(s, acts, s2, Test);
    t := s3;
    if p in s.watch {
      t := Next(s3, Put);
      acts := LeadsLast(s, acts, s3, Put);
    }
    assert t.channel == s.channel;
  }

  lemma ChangeLeads(s: State, p: int, cs: seq<Command>) returns (acts: seq<Action>, t: State)
    requires Idling(s)
    ensures Leads(s, acts, t) && Idling(t)
    ensures t == With(s, Serve(SharedOf(s), StockChanged(p), cs)).(history := t.history)
  {
    var head := ObeyLeads(s, cs);
    var mid := With(s, ObeyAll(SharedOf(s), cs));
    var tail;
    tail, t := HearOne(mid, p);
    LeadsConcat(s, head, mid, tail, t);
    acts := head + tail;
  }

  lemma {:induction false} ChangesLead(s: State, payloads: seq<Payload>, commands: seq<seq<Command>>, k: nat)
    returns (acts: seq<Action>, t: State)
    requires Idling(s)
    ensures Leads(s, acts, t) && Idling(t)
    ensures t == With(s, ServeAll(SharedOf(s), Parsed(payloads), commands, k)).(history := t.history)
  {
    if payloads == [] {
      acts, t := [], s;
    } else {
      var head, last := Parsed(payloads[..|payloads| - 1]), payloads[|payloads| - 1];
      acts, t := ChangesLead(s, payloads[..|payloads| - 1], commands, k);
      if last.ProductId? {
        var u, more := t, [];
        more, t := ChangeLeads(u, last.product, CommandsAt(commands, k + |head|));
        LeadsConcat(s, acts, u, more, t);
        acts := acts + more;
        ServeConcat(SharedOf(s), head, [StockChanged(last.product)], commands, k);
        ServeOne(SharedOf(u), StockChanged(last.product), commands, k + |head|);
      } else {
        assert Parsed(payloads) == head;
      }
    }
  }

  /** A connection that never gets to LISTEN. */
  lemma UnreachableLeads(s: State) returns (acts: seq<Action>)
    requires Disconnected(s)
    ensures Leads(s, acts, s)
  {
    var s1 := Next(s, Connect);
    var s2 := Next(s1, Break(0));
    assert Next(s2, GiveUp) == s;
    acts := LeadsLast(s, [], s, Connect);
    acts := LeadsLast(s, acts, s1, Break(0));
    acts := LeadsLast(s, acts, s2, GiveUp);
  }

  /** Connect, LISTEN, and announce it. */
  lemma ConnectLeads(s: State) returns (acts: seq<Action>, t: State)
    requires Disconnected(s)
    ensures Leads(s, acts, t) && Idling(t)
    ensures t == s.(listener := Polling, queue := s.queue + [Resync])
  {
    var s1 := Next(s, Connect);
    var s2 := Next(s1, Listen);
    t := Next(s2, Announce);
    acts := LeadsLast(s, [], s, Connect);
    acts := LeadsLast(s, acts, s1, Listen);
    acts := LeadsLast(s, acts, s2, Announce);
  }

  lemma ResyncLeads(s: State, cs: seq<Command>) returns (acts: seq<Action>, t: State)
    requires Disconnected(s)
    ensures Leads(s, acts, t) && Idling(t)
    ensures t == With(s, Serve(SharedOf(s), Resynced, cs)).(listener := Polling)
  {
    var head := ObeyLeads(s, cs);
    var mid := With(s, ObeyAll(SharedOf(s), cs));
    var tail;
    tail, t := ConnectLeads(mid);
    LeadsConcat(s, head, mid, tail, t);
    acts := head + tail;
  }

  lemma LoseLeads(s: State) returns (acts: seq<Action>)
    requires Idling(s)
    ensures Leads(s, acts, s.(listener := Down))
  {
    var s1 := Next(s, Break(0));
    assert Next(s1, GiveUp) == s.(listener := Down);
    acts := LeadsLast(s, [], s, Break(0));
    acts := LeadsLast(s, acts, s1, GiveUp);
  }

  lemma LiveLeads(s: State, payloads: seq<Payload>, commands: seq<seq<Command>>, k: nat)
    returns (acts: seq<Action>, t: State)
    requires Disconnected(s)
    ensures Leads(s, acts, t) && Disconnected(t)
    ensures t == With(s, ServeAll(SharedOf(s), [Resynced] + Parsed(payloads), commands, k)).(history := t.history)
  {
    var up, hear, lose, u, v;
    up, u := ResyncLeads(s, CommandsAt(commands, k));
    hear, v := ChangesLead(u, payloads, commands, k + 1);
    lose := LoseLeads(v);
    t := v.(listener := Down);
    LeadsConcat(u, hear, v, lose, t);
    LeadsConcat(s, up, u, hear + lose, t);
    acts := up + (hear + lose);
    ServeOne(SharedOf(s), Resynced, commands, k);
    ServeConcat(SharedOf(s), [Resynced], Parsed(payloads), commands, k);
  }

  lemma ConnectionLeads(s: State, c: Connection, commands: seq<seq<Command>>, k: nat)
    returns (acts: seq<Action>, t: State)
    requires Disconnected(s)
    ensures Leads(s, acts, t) && Disconnected(t)
    ensures t == With(s, ServeAll(SharedOf(s), HeardOn(c), commands, k)).(history := t.history)
  {
    match c {
      case Unreachable =>
        acts := UnreachableLeads(s);
        t := s;
      case Live(payloads) =>
        acts, t := LiveLeads(s, payloads, commands, k);
    }
  }

  /** Whatever connections the listener goes through, and whatever the reader does
      meanwhile, what the two leave behind is what some run of the stream machine
      leaves. */
  lemma {:induction false} ListenerLeads(s: State, connections: seq<Connection>, commands: seq<seq<Command>>)
    returns (acts: seq<Action>, t: State)
    requires Disconnected(s)
    ensures Leads(s, acts, t) && Disconnected(t)
    ensures t == With(s, ServeAll(SharedOf(s), Heard(connections), commands, 0)).(history := t.history)
  {
    if connections == [] {
      acts, t := [], s;
    } else {
      var n := |connections| - 1;
      var before := Heard(connections[..n]);
      var u, more;
      acts, u := ListenerLeads(s, connections[..n], commands);
      more, t := ConnectionLeads(u, connections[n], commands, |before|);
      ServeConcat(SharedOf(s), before, HeardOn(connections[n]), commands, 0);
      LeadsConcat(s, acts, u, more, t);
      acts := acts + more;
    }
  }
}
