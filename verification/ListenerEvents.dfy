/** What listen_stock_changes yields: a LISTEN connection that is opened again
    whenever it is lost, until `stop` is set. */
module ListenerEvents {

  /** A notification's payload, parsed or not. */
  datatype Payload = ProductId(product: int) | Unparseable

  /** One turn of the reconnect loop: the connection or its LISTEN fails, or it
      delivers some notifications before it is lost. */
  datatype Connection = Unreachable | Live(payloads: seq<Payload>)

  /** `stop` is set in this turn, once this many of its notifications were taken. */
  datatype Stop = Stop(turn: nat, taken: nat)

  datatype StockEvent = Resynced | StockChanged(product: int)

  function Parsed(payloads: seq<Payload>): seq<StockEvent> {
    if payloads == [] then []
    else
      var last := payloads[|payloads| - 1];
      Parsed(payloads[..|payloads| - 1]) + if last.ProductId? then [StockChanged(last.product)] else []
  }

  /** What one connection yields: a live one announces itself by a resync, before
      anything it hears. */
  function HeardOn(c: Connection): seq<StockEvent> { if c.Live? then [Resynced] + Parsed(c.payloads) else [] }

  /** Everything the generator yields over these connections. */
  function Heard(connections: seq<Connection>): seq<StockEvent> {
    if connections == [] then [] else Heard(connections[..|connections| - 1]) + HeardOn(connections[|connections| - 1])
  }

  function Cut(c: Connection, taken: nat): Connection {
    match c
    case Unreachable => Unreachable
    case Live(payloads) => Live(if taken < |payloads| then payloads[..taken] else payloads)
  }

  /** The connections as far as they get before `stop`. */
  function Until(connections: seq<Connection>, stop: Stop): seq<Connection> {
    if |connections| <= stop.turn then connections
    else connections[..stop.turn] + [Cut(connections[stop.turn], stop.taken)]
  }

  lemma HeardAlso(connections: seq<Connection>, c: Connection)
    ensures Heard(connections + [c]) == Heard(connections) + HeardOn(c)
  {
    assert (connections + [c])[..|connections|] == connections;
  }

  lemma ParsedNext(payloads: seq<Payload>, j: nat)
    requires j < |payloads|
    ensures Parsed(payloads[..j + 1]) ==
            Parsed(payloads[..j]) + if payloads[j].ProductId? then [StockChanged(payloads[j].product)] else []
  {
    assert payloads[..j + 1][..j] == payloads[..j];
  }

  /** Turn `i` of the reconnect loop, as far as it gets. */
  function Turn(connections: seq<Connection>, stop: Stop, i: nat): Connection
    requires i < |connections|
  {
    if i == stop.turn then Cut(connections[i], stop.taken) else connections[i]
  }

  /** The first `i` turns. */
  function Turns(connections: seq<Connection>, stop: Stop, i: nat): seq<Connection>
    requires i <= |connections|
  {
    if i <= stop.turn then connections[..i] else Until(connections, stop)
  }

  lemma HeardNext(connections: seq<Connection>, stop: Stop, i: nat)
    requires i < |connections| && i <= stop.turn
    ensures Heard(Turns(connections, stop, i + 1)) ==
            Heard(Turns(connections, stop, i)) + HeardOn(Turn(connections, stop, i))
  {
    HeardAlso(connections[..i], Turn(connections, stop, i));
    assert Turns(connections, stop, i + 1) == connections[..i] + [Turn(connections, stop, i)];
  }

  lemma AllTurns(connections: seq<Connection>, stop: Stop)
    ensures Turns(connections, stop, |connections|) == Until(connections, stop)
  {
    assert connections[..|connections|] == connections;
  }

  // ---------------------------------------------------------------- what is due

  /** Where an event comes from: a turn that got its LISTEN through, or a notification
      taken in that turn. */
  datatype Point = Opening(turn: nat) | Taking(turn: nat, index: nat) {
    predicate Before(q: Point) {
      turn < q.turn || (turn == q.turn && q.Taking? && (Opening? || index < q.index))
    }
  }

  /** Does something have to be yielded at `q`? One resync per live turn reached, and
      one change per readable notification taken before `stop`. */
  predicate Due(connections: seq<Connection>, stop: Stop, q: Point) {
    && q.turn < |connections| && q.turn <= stop.turn && connections[q.turn].Live?
    && match q
       case Opening(_) => true
       case Taking(i, j) =>
         && j < |connections[i].payloads| && (i == stop.turn ==> j < stop.taken)
         && connections[i].payloads[j].ProductId?
  }

  function EventAt(connections: seq<Connection>, stop: Stop, q: Point): StockEvent
    requires Due(connections, stop, q)
  {
    match q
    case Opening(_) => Resynced
    case Taking(i, j) => StockChanged(connections[i].payloads[j].product)
  }

  /** The events of the first `n` turns are exactly those due in them, each from its
      own point, in order. */
  ghost predicate AccountsTo(connections: seq<Connection>, stop: Stop, n: nat,
                             heard: seq<StockEvent>, points: seq<Point>)
  {
    && |points| == |heard|
    && (forall i | 0 <= i < |points| ::
          points[i].turn < n && Due(connections, stop, points[i]) && heard[i] == EventAt(connections, stop, points[i]))
    && (forall i, j | 0 <= i < j < |points| :: points[i].Before(points[j]))
    && (forall q: Point | q.turn < n && Due(connections, stop, q) :: q in points)
  }

  ghost predicate Accounts(connections: seq<Connection>, stop: Stop, heard: seq<StockEvent>, points: seq<Point>) {
    AccountsTo(connections, stop, |connections|, heard, points)
  }

  /** The points of the notifications among `payloads` that can be read. */
  function Takings(payloads: seq<Payload>, turn: nat): seq<Point> {
    if payloads == [] then []
    else
      var n := |payloads| - 1;
      Takings(payloads[..n], turn) + if payloads[n].ProductId? then [Taking(turn, n)] else []
  }

  lemma {:induction false} TakingsAccount(payloads: seq<Payload>, turn: nat)
    ensures var points := Takings(payloads, turn);
            && |points| == |Parsed(payloads)|
            && (forall i | 0 <= i < |points| ::
                  && points[i].Taking? && points[i].turn == turn && points[i].index < |payloads|
                  && payloads[points[i].index].ProductId?
                  && Parsed(payloads)[i] == StockChanged(payloads[points[i].index].product))
            && (forall i, j | 0 <= i < j < |points| :: points[i].Before(points[j]))
            && (forall j: nat | j < |payloads| && payloads[j].ProductId? :: Taking(turn, j) in points)
  {
    if payloads != [] {
      TakingsAccount(payloads[..|payloads| - 1], turn);
    }
  }

  /** The points of turn `i`. */
  function PointsOf(connections: seq<Connection>, stop: Stop, i: nat): seq<Point>
    requires i < |connections|
  {
    match Turn(connections, stop, i)
    case Unreachable => []
    case Live(payloads) => [Opening(i)] + Takings(payloads, i)
  }

  /** One turn yields what is due in it. */
  ghost predicate TurnAccounts(connections: seq<Connection>, stop: Stop, n: nat,
                               heard: seq<StockEvent>, points: seq<Point>)
  {
    && |points| == |heard|
    && (forall i | 0 <= i < |points| ::
          points[i].turn == n && Due(connections, stop, points[i]) && heard[i] == EventAt(connections, stop, points[i]))
    && (forall i, j | 0 <= i < j < |points| :: points[i].Before(points[j]))
    && (forall q: Point | q.turn == n && Due(connections, stop, q) :: q in points)
  }

  /** What is due in a turn, and what it is, shows in the part of it before `stop`. */
  lemma DueInTurn(connections: seq<Connection>, stop: Stop, q: Point)
    requires q.turn < |connections| && q.turn <= stop.turn
    ensures var c := Turn(connections, stop, q.turn);
            && (Due(connections, stop, q) <==>
                  c.Live? && (q.Taking? ==> q.index < |c.payloads| && c.payloads[q.index].ProductId?))
            && (Due(connections, stop, q) ==>
                  EventAt(connections, stop, q) ==
                  if q.Opening? then Resynced else StockChanged(c.payloads[q.index].product))
  {}

  /** Point `k` of a live turn is due, and yields event `k`. */
  lemma PointIsDue(connections: seq<Connection>, stop: Stop, i: nat, k: nat)
    requires i < |connections| && i <= stop.turn && k < |PointsOf(connections, stop, i)|
    ensures var heard, q := HeardOn(Turn(connections, stop, i)), PointsOf(connections, stop, i)[k];
            && |PointsOf(connections, stop, i)| == |heard| && q.turn == i
            && Due(connections, stop, q) && heard[k] == EventAt(connections, stop, q)
  {
    var payloads := Turn(connections, stop, i).payloads;
    TakingsAccount(payloads, i);
    DueInTurn(connections, stop, PointsOf(connections, stop, i)[k]);
  }

  lemma PointsInOrder(connections: seq<Connection>, stop: Stop, i: nat)
    requires i < |connections|
    ensures var points := PointsOf(connections, stop, i);
            forall j, k | 0 <= j < k < |points| :: points[j].Before(points[k])
  {
    var c := Turn(connections, stop, i);
    if c.Live? {
      TakingsAccount(c.payloads, i);
    }
  }

  lemma DueIsPoint(connections: seq<Connection>, stop: Stop, q: Point)
    requires Due(connections, stop, q)
    ensures q in PointsOf(connections, stop, q.turn)
  {
    DueInTurn(connections, stop, q);
    TakingsAccount(Turn(connections, stop, q.turn).payloads, q.turn);
  }

  lemma TurnIsAccounted(connections: seq<Connection>, stop: Stop, i: nat)
    requires i < |connections| && i <= stop.turn
    ensures TurnAccounts(connections, stop, i, HeardOn(Turn(connections, stop, i)), PointsOf(connections, stop, i))
  {
    var points := PointsOf(connections, stop, i);
    forall k | 0 <= k < |points| {
      PointIsDue(connections, stop, i, k);
    }
    PointsInOrder(connections, stop, i);
    forall q: Point | q.turn == i && Due(connections, stop, q) {
      DueIsPoint(connections, stop, q);
    }
    if points == [] {
      DueInTurn(connections, stop, Opening(i));
    }
  }

  lemma OneTurnMore(connections: seq<Connection>, stop: Stop, n: nat, heard: seq<StockEvent>, points: seq<Point>,
                    more: seq<StockEvent>, next: seq<Point>)
    requires AccountsTo(connections, stop, n, heard, points) && TurnAccounts(connections, stop, n, more, next)
    ensures AccountsTo(connections, stop, n + 1, heard + more, points + next)
  {}

  lemma {:induction false} TurnsAccount(connections: seq<Connection>, stop: Stop, n: nat) returns (points: seq<Point>)
    requires n <= |connections| && n <= stop.turn + 1
    ensures AccountsTo(connections, stop, n, Heard(Turns(connections, stop, n)), points)
  {
    if n == 0 {
      points := [];
    } else {
      points := TurnsAccount(connections, stop, n - 1);
      HeardNext(connections, stop, n - 1);
      TurnIsAccounted(connections, stop, n - 1);
      OneTurnMore(connections, stop, n - 1, Heard(Turns(connections, stop, n - 1)), points,
                  HeardOn(Turn(connections, stop, n - 1)), PointsOf(connections, stop, n - 1));
      points := points + PointsOf(connections, stop, n - 1);
    }
  }

  /** The generator yields one resync for each live turn it reaches, ahead of one
      change for each readable notification taken in that turn, and nothing else. */
  lemma HeardAccounts(connections: seq<Connection>, stop: Stop) returns (points: seq<Point>)
    ensures Accounts(connections, stop, Heard(Until(connections, stop)), points)
  {
    AllTurns(connections, stop);
    if |connections| <= stop.turn + 1 {
      points := TurnsAccount(connections, stop, |connections|);
    } else {
      points := TurnsAccount(connections, stop, stop.turn + 1);
    }
  }

  lemma HasMember(a: seq<Point>)
    requires a != []
    ensures exists q :: q in a
  {
    assert a[0] in a;
  }

  lemma {:induction false} SameListing(a: seq<Point>, b: seq<Point>)
    requires forall i, j | 0 <= i < j < |a| :: a[i].Before(a[j])
    requires forall i, j | 0 <= i < j < |b| :: b[i].Before(b[j])
    requires forall q :: q in a <==> q in b
    ensures a == b
  {
    if a == [] {
      if b != [] { HasMember(b); }
    } else if b == [] {
      HasMember(a);
    } else {
      var m, n := |a| - 1, |b| - 1;
      assert a[m] in b && b[n] in a;
      assert a[m] == b[n];
      forall q
        ensures q in a[..m] <==> q in b[..n]
      {
        assert q in a <==> q in a[..m] || q == a[m];
        assert q in b <==> q in b[..n] || q == b[n];
      }
      SameListing(a[..m], b[..n]);
      assert a == a[..m] + [a[m]] && b == b[..n] + [b[n]];
    }
  }

  /** There is only one way to account for the turns. */
  lemma AccountsUnique(connections: seq<Connection>, stop: Stop, heard: seq<StockEvent>, points: seq<Point>,
                       heard': seq<StockEvent>, points': seq<Point>)
    requires Accounts(connections, stop, heard, points) && Accounts(connections, stop, heard', points')
    ensures heard == heard' && points == points'
  {
    SameListing(points, points');
  }
}
