/** Which markers the reader and the listener thread of a stream queue between them,
    and why, said without the loops that queue them. */
module MarkerOrigins {
  import opened Watch
  import opened ListenerEvents
  import opened StockListener

  // ---------------------------------------------------------------- the sets

  predicate Drops(c: Command, p: int) { !c.subscribe && p in c.ids }

  /** Is `p` in a set after these commands: subscribed and not dropped since, or there
      all along? */
  ghost predicate Kept(ids: set<int>, cs: seq<Command>, p: int) {
    || (p in ids && forall i | 0 <= i < |cs| :: !Drops(cs[i], p))
    || exists i :: && 0 <= i < |cs| && cs[i].subscribe && p in cs[i].ids
                   && forall j | i < j < |cs| :: !Drops(cs[j], p)
  }

  lemma KeptOneMore(ids: set<int>, cs: seq<Command>, c: Command, p: int)
    ensures Kept(ids, cs + [c], p) <==>
            if c.subscribe then p in c.ids || Kept(ids, cs, p) else p !in c.ids && Kept(ids, cs, p)
  {
    var all := cs + [c];
    assert all[|cs|] == c && forall i | 0 <= i < |cs| :: all[i] == cs[i];
    if Kept(ids, cs, p) && !Drops(c, p) {
      assert p in ids && (forall i | 0 <= i < |cs| :: !Drops(cs[i], p)) ==> Kept(ids, all, p);
      if i :| 0 <= i < |cs| && cs[i].subscribe && p in cs[i].ids && forall j | i < j < |cs| :: !Drops(cs[j], p) {
        assert all[i].subscribe && p in all[i].ids && forall j | i < j < |all| :: !Drops(all[j], p);
      }
    }
    if c.subscribe && p in c.ids {
      assert all[|cs|].subscribe;
    }
    if Kept(ids, all, p) {
      assert !Drops(c, p);
      if i :| 0 <= i < |all| && all[i].subscribe && p in all[i].ids && forall j | i < j < |all| :: !Drops(all[j], p) {
        if i < |cs| {
          assert cs[i].subscribe && p in cs[i].ids && forall j | i < j < |cs| :: !Drops(all[j], p);
        }
      } else {
        assert forall i | 0 <= i < |cs| :: !Drops(all[i], p);
      }
    }
  }

  /** The commands of the first `n` slots, in order. */
  function Arrived(commands: seq<seq<Command>>, n: nat): seq<Command> {
    if n == 0 then [] else Arrived(commands, n - 1) + CommandsAt(commands, n - 1)
  }

  lemma {:induction false} ObeyedSets(sh: Shared, before: seq<Command>, cs: seq<Command>,
                                      watch: set<int>, newly: set<int>, p: int)
    requires p in sh.watch <==> Kept(watch, before, p)
    requires p in sh.newly <==> Kept(newly, before, p)
    ensures p in ObeyAll(sh, cs).watch <==> Kept(watch, before + cs, p)
    ensures p in ObeyAll(sh, cs).newly <==> Kept(newly, before + cs, p)
  {
    if cs == [] {
      assert before + cs == before;
    } else {
      var n := |cs| - 1;
      ObeyedSets(sh, before, cs[..n], watch, newly, p);
      KeptOneMore(watch, before + cs[..n], cs[n], p);
      KeptOneMore(newly, before + cs[..n], cs[n], p);
      assert before + cs == before + cs[..n] + [cs[n]];
    }
  }

  /** After all events, and whatever commands came before each, a product is in the
      watch set, and in the newly added set, exactly if the commands kept it there. */
  lemma {:induction false} ServedSets(sh: Shared, events: seq<StockEvent>, commands: seq<seq<Command>>, p: int)
    ensures p in ServeAll(sh, events, commands, 0).watch <==> Kept(sh.watch, Arrived(commands, |events|), p)
    ensures p in ServeAll(sh, events, commands, 0).newly <==> Kept(sh.newly, Arrived(commands, |events|), p)
  {
    if events != [] {
      var n := |events| - 1;
      ServedSets(sh, events[..n], commands, p);
      ObeyedSets(ServeAll(sh, events[..n], commands, 0), Arrived(commands, n), CommandsAt(commands, n),
                 sh.watch, sh.newly, p);
    }
  }

  // ---------------------------------------------------------------- the queue

  /** Why a marker is queued: a command that arrives before event `at` is tested, or
      that event. */
  datatype Origin = ByCommand(at: nat, index: nat) | ByEvent(at: nat) {
    predicate Before(o: Origin) {
      at < o.at || (at == o.at && ByCommand? && (o.ByEvent? || index < o.index))
    }
  }

  /** Does `o` have to leave a marker: a subscribe, a resync, or a change of a product
      that the commands so far keep watched? */
  ghost predicate Calls(watch: set<int>, heard: seq<StockEvent>, commands: seq<seq<Command>>, o: Origin) {
    && o.at < |heard|
    && match o
       case ByCommand(k, c) => c < |CommandsAt(commands, k)| && CommandsAt(commands, k)[c].subscribe
       case ByEvent(k) => heard[k].StockChanged? ==> Kept(watch, Arrived(commands, k + 1), heard[k].product)
  }

  function MarkerOf(heard: seq<StockEvent>, o: Origin): Marker
    requires o.at < |heard|
  {
    match o
    case ByCommand(_, _) => Snapshot
    case ByEvent(k) => if heard[k].Resynced? then Resync else Changed(heard[k].product)
  }

  /** The markers are those called for by the first `n` events and the commands before
      them, one each, in order, and no others. */
  ghost predicate QueuedTo(watch: set<int>, heard: seq<StockEvent>, commands: seq<seq<Command>>, n: nat,
                           markers: seq<Marker>, origins: seq<Origin>)
  {
    && |origins| == |markers|
    && (forall i | 0 <= i < |origins| ::
          origins[i].at < n && Calls(watch, heard, commands, origins[i]) && markers[i] == MarkerOf(heard, origins[i]))
    && (forall i, j | 0 <= i < j < |origins| :: origins[i].Before(origins[j]))
    && (forall o: Origin | o.at < n && Calls(watch, heard, commands, o) :: o in origins)
  }

  ghost predicate Queued(watch: set<int>, heard: seq<StockEvent>, commands: seq<seq<Command>>,
                         markers: seq<Marker>, origins: seq<Origin>)
  {
    QueuedTo(watch, heard, commands, |heard|, markers, origins)
  }

  /** Where the snapshots come from that commands `cs` of slot `k` queue. */
  function Subscribed(cs: seq<Command>, k: nat): seq<Origin> {
    if cs == [] then []
    else
      var n := |cs| - 1;
      Subscribed(cs[..n], k) + if cs[n].subscribe then [ByCommand(k, n)] else []
  }

  lemma {:induction false} SubscribedQueue(sh: Shared, cs: seq<Command>, k: nat) returns (markers: seq<Marker>)
    ensures ObeyAll(sh, cs).queue == sh.queue + markers && |Subscribed(cs, k)| == |markers|
    ensures forall i | 0 <= i < |markers| :: markers[i] == Snapshot
  {
    if cs == [] {
      markers := [];
    } else {
      markers := SubscribedQueue(sh, cs[..|cs| - 1], k);
      if cs[|cs| - 1].subscribe {
        markers := markers + [Snapshot];
      }
    }
  }

  /** The origins are the subscribes among `cs`, in order. */
  ghost predicate AreSubscribes(cs: seq<Command>, k: nat, origins: seq<Origin>) {
    && (forall i | 0 <= i < |origins| ::
          origins[i].ByCommand? && origins[i].at == k && origins[i].index < |cs| && cs[origins[i].index].subscribe)
    && (forall i, j | 0 <= i < j < |origins| :: origins[i].Before(origins[j]))
    && (forall c: nat | c < |cs| && cs[c].subscribe :: ByCommand(k, c) in origins)
  }

  lemma OneCommandMore(cs: seq<Command>, c: Command, k: nat, origins: seq<Origin>)
    requires AreSubscribes(cs, k, origins)
    ensures AreSubscribes(cs + [c], k, origins + if c.subscribe then [ByCommand(k, |cs|)] else [])
  {}

  lemma {:induction false} SubscribedOrigins(cs: seq<Command>, k: nat)
    ensures AreSubscribes(cs, k, Subscribed(cs, k))
  {
    if cs != [] {
      var n := |cs| - 1;
      SubscribedOrigins(cs[..n], k);
      OneCommandMore(cs[..n], cs[n], k, Subscribed(cs[..n], k));
      assert cs == cs[..n] + [cs[n]];
    }
  }

  /** Slot `k` leaves what its commands and its event call for. */
  ghost predicate SlotQueued(watch: set<int>, heard: seq<StockEvent>, commands: seq<seq<Command>>, k: nat,
                             markers: seq<Marker>, origins: seq<Origin>)
  {
    && |origins| == |markers|
    && (forall i | 0 <= i < |origins| ::
          origins[i].at == k && Calls(watch, heard, commands, origins[i]) && markers[i] == MarkerOf(heard, origins[i]))
    && (forall i, j | 0 <= i < j < |origins| :: origins[i].Before(origins[j]))
    && (forall o: Origin | o.at == k && Calls(watch, heard, commands, o) :: o in origins)
  }

  lemma OneSlotMore(watch: set<int>, heard: seq<StockEvent>, commands: seq<seq<Command>>, k: nat,
                    markers: seq<Marker>, origins: seq<Origin>, more: seq<Marker>, next: seq<Origin>)
    requires QueuedTo(watch, heard, commands, k, markers, origins)
    requires SlotQueued(watch, heard, commands, k, more, next)
    ensures QueuedTo(watch, heard, commands, k + 1, markers + more, origins + next)
  {}

  /** The event's marker, tested against the set the commands left. */
  lemma EventCalls(sh: Shared, heard: seq<StockEvent>, commands: seq<seq<Command>>, k: nat)
    requires k < |heard|
    ensures var mid := ObeyAll(ServeAll(sh, heard[..k], commands, 0), CommandsAt(commands, k));
            MarkerFor(heard[k], mid.watch) ==
            if Calls(sh.watch, heard, commands, ByEvent(k)) then [MarkerOf(heard, ByEvent(k))] else []
  {
    if heard[k].StockChanged? {
      var p := heard[k].product;
      ServedSets(sh, heard[..k], commands, p);
      ObeyedSets(ServeAll(sh, heard[..k], commands, 0), Arrived(commands, k), CommandsAt(commands, k),
                 sh.watch, sh.newly, p);
    }
  }

  lemma SlotParts(watch: set<int>, heard: seq<StockEvent>, commands: seq<seq<Command>>, k: nat,
                  first: seq<Marker>, origins: seq<Origin>)
    requires k < |heard| && |first| == |origins| && forall i | 0 <= i < |first| :: first[i] == Snapshot
    requires AreSubscribes(CommandsAt(commands, k), k, origins)
    ensures var o := ByEvent(k);
            if Calls(watch, heard, commands, o)
            then SlotQueued(watch, heard, commands, k, first + [MarkerOf(heard, o)], origins + [o])
            else SlotQueued(watch, heard, commands, k, first, origins)
  {}

  lemma SlotIsQueued(sh: Shared, heard: seq<StockEvent>, commands: seq<seq<Command>>, k: nat)
    returns (markers: seq<Marker>, origins: seq<Origin>)
    requires k < |heard|
    ensures ServeAll(sh, heard[..k + 1], commands, 0).queue == ServeAll(sh, heard[..k], commands, 0).queue + markers
    ensures SlotQueued(sh.watch, heard, commands, k, markers, origins)
  {
    var before := ServeAll(sh, heard[..k], commands, 0);
    var cs := CommandsAt(commands, k);
    markers := SubscribedQueue(before, cs, k);
    origins := Subscribed(cs, k);
    SubscribedOrigins(cs, k);
    SlotParts(sh.watch, heard, commands, k, markers, origins);
    EventCalls(sh, heard, commands, k);
    ServeNext(sh, heard, commands, k);
    if Calls(sh.watch, heard, commands, ByEvent(k)) {
      markers, origins := markers + [MarkerOf(heard, ByEvent(k))], origins + [ByEvent(k)];
    }
  }

  lemma InARow(a: seq<Marker>, b: seq<Marker>, c: seq<Marker>)
    ensures (a + b) + c == a + (b + c)
  {}

  lemma NextSlot(sh: Shared, heard: seq<StockEvent>, commands: seq<seq<Command>>, k: nat,
                 markers: seq<Marker>, origins: seq<Origin>)
    returns (markers': seq<Marker>, origins': seq<Origin>)
    requires k < |heard|
    requires ServeAll(sh, heard[..k], commands, 0).queue == sh.queue + markers
    requires QueuedTo(sh.watch, heard, commands, k, markers, origins)
    ensures ServeAll(sh, heard[..k + 1], commands, 0).queue == sh.queue + markers'
    ensures QueuedTo(sh.watch, heard, commands, k + 1, markers', origins')
  {
    var more, next := SlotIsQueued(sh, heard, commands, k);
    OneSlotMore(sh.watch, heard, commands, k, markers, origins, more, next);
    InARow(sh.queue, markers, more);
    markers', origins' := markers + more, origins + next;
  }

  /** What is queued over the first `n` events. */
  lemma {:induction false} ServedQueue(sh: Shared, heard: seq<StockEvent>, commands: seq<seq<Command>>, n: nat)
    returns (markers: seq<Marker>, origins: seq<Origin>)
    requires n <= |heard|
    ensures ServeAll(sh, heard[..n], commands, 0).queue == sh.queue + markers
    ensures QueuedTo(sh.watch, heard, commands, n, markers, origins)
  {
    if n == 0 {
      markers, origins := [], [];
    } else {
      markers, origins := ServedQueue(sh, heard, commands, n - 1);
      markers, origins := NextSlot(sh, heard, commands, n - 1, markers, origins);
    }
  }

  /** Each subscribe leaves a snapshot marker, each resync a resync marker, and each
      change of a product watched when it is tested a changed marker of its own; in
      that order, and nothing else is queued. */
  lemma QueueAccounts(sh: Shared, heard: seq<StockEvent>, commands: seq<seq<Command>>)
    returns (markers: seq<Marker>, origins: seq<Origin>)
    ensures ServeAll(sh, heard, commands, 0).queue == sh.queue + markers
    ensures Queued(sh.watch, heard, commands, markers, origins)
  {
    markers, origins := ServedQueue(sh, heard, commands, |heard|);
    assert heard[..|heard|] == heard;
  }

  // ---------------------------------------------------------------- both together

  ghost predicate DrainedBy(connections: seq<Connection>, stop: Stop, commands: seq<seq<Command>>, sh: Shared,
                            sh': Shared, heard: seq<StockEvent>, points: seq<Point>, origins: seq<Origin>)
    requires sh.queue <= sh'.queue
  {
    && Accounts(connections, stop, heard, points)
    && Queued(sh.watch, heard, commands, sh'.queue[|sh.queue|..], origins)
    && (forall p :: p in sh'.watch <==> Kept(sh.watch, Arrived(commands, |heard|), p))
    && (forall p :: p in sh'.newly <==> Kept(sh.newly, Arrived(commands, |heard|), p))
  }

  /** The listener heard what was due on its connections, the markers queued are those
      that these events and the commands call for, and both sets hold what the
      commands kept there. */
  ghost predicate Drained(connections: seq<Connection>, stop: Stop, commands: seq<seq<Command>>,
                          sh: Shared, sh': Shared)
  {
    && sh.queue <= sh'.queue
    && exists heard, points, origins :: DrainedBy(connections, stop, commands, sh, sh', heard, points, origins)
  }

  lemma AllServedSets(sh: Shared, events: seq<StockEvent>, commands: seq<seq<Command>>)
    ensures var sh' := ServeAll(sh, events, commands, 0);
            && (forall p :: p in sh'.watch <==> Kept(sh.watch, Arrived(commands, |events|), p))
            && (forall p :: p in sh'.newly <==> Kept(sh.newly, Arrived(commands, |events|), p))
  {
    forall p: int {
      ServedSets(sh, events, commands, p);
    }
  }

  lemma Appended(a: seq<Marker>, b: seq<Marker>)
    ensures a <= a + b && (a + b)[|a|..] == b
  {}

  lemma HeardIsDrained(connections: seq<Connection>, stop: Stop, commands: seq<seq<Command>>, sh: Shared)
    ensures Drained(connections, stop, commands, sh, ServeAll(sh, Heard(Until(connections, stop)), commands, 0))
  {
    var heard := Heard(Until(connections, stop));
    var points := HeardAccounts(connections, stop);
    var markers, origins := QueueAccounts(sh, heard, commands);
    Appended(sh.queue, markers);
    AllServedSets(sh, heard, commands);
    assert DrainedBy(connections, stop, commands, sh, ServeAll(sh, heard, commands, 0), heard, points, origins);
  }
}
