/** One open WatchStock stream as a state machine: the reader, the listener and
    the generator share a watch set, a marker queue and the last values sent,
    while stock is committed under them and their LISTEN connection comes and
    goes. Every lock region, queue put or get, database read and emission is one
    atomic step. */
module Watch {

  datatype Marker = Snapshot | Changed(product: int) | Resync

  datatype Kind = SNAPSHOT | CHANGED

  datatype StockRow = StockRow(product: int, quantity: int)

  datatype Update = Update(product: int, quantity: int, kind: Kind)

  /** The generator thread. */
  datatype Main =
    | Idle
    | Handling(marker: Marker)
    | Reading(ids: set<int>, snapshot: bool)
    | Fetching(ids: set<int>, snapshot: bool)
    | Emitting(rows: seq<StockRow>, snapshot: bool, version: nat)

  /** The listener thread. */
  datatype Listener = Down | Connected | Announcing | Polling | Got(product: int) | Putting(product: int)

  /** `history` is every committed stock table so far, the last one current.
      `versions` records, for each update sent, which of them it was read from. */
  datatype State = State(
    history: seq<map<int, int>>,
    channel: seq<int>,
    lost: bool,
    listener: Listener,
    watch: set<int>,
    newly: set<int>,
    queue: seq<Marker>,
    main: Main,
    lastSeen: map<int, int>,
    emitted: seq<Update>,
    versions: seq<nat>)

  function Open(table: map<int, int>): State {
    State([table], [], false, Down, {}, {}, [], Idle, map[], [], [])
  }

  function Table(s: State): map<int, int>
    requires s.history != []
  {
    s.history[|s.history| - 1]
  }

  /** Has the session's LISTEN taken effect, on a connection that still lives? */
  predicate Hearing(s: State) {
    !s.lost && (s.listener.Announcing? || s.listener.Polling? || s.listener.Got? || s.listener.Putting?)
  }

  datatype Action =
    | Write(changes: map<int, int>, notes: seq<int>)   // some transaction commits
    | Break(kept: nat)                                 // the LISTEN connection dies
    | Subscribe(ids: set<int>)
    | Unsubscribe(ids: set<int>)
    | Connect | Listen | Announce | Receive | Test | Put | GiveUp
    | Take | Handle | Read | Fetch(rows: seq<StockRow>) | Emit | Rest

  /** Does `rows` list the stock of exactly the existing products of `ids`? */
  ghost predicate Lists(rows: seq<StockRow>, table: map<int, int>, ids: set<int>) {
    && (forall i, j | 0 <= i < j < |rows| :: rows[i].product != rows[j].product)
    && (forall r | r in rows :: r.product in ids && r.product in table && r.quantity == table[r.product])
    && (forall p | p in ids && p in table :: StockRow(p, table[p]) in rows)
  }

  ghost predicate Allowed(s: State, a: Action)
    requires s.history != []
  {
    match a
    case Write(changes, notes) =>
      // the trigger notifies at least of every product whose quantity changed
      && changes.Keys <= Table(s).Keys
      && forall p | p in changes && changes[p] != Table(s)[p] :: p in notes
    case Break(kept) => !s.listener.Down? && !s.lost && kept <= |s.channel|
    case Subscribe(_) => true
    case Unsubscribe(_) => true
    case Connect => s.listener.Down?
    case Listen => s.listener.Connected? && !s.lost
    case Announce => s.listener.Announcing?
    case Receive => s.listener.Polling? && s.channel != []
    case Test => s.listener.Got?
    case Put => s.listener.Putting?
    case GiveUp => s.lost && (s.listener.Connected? || s.listener.Polling?)
    case Take => s.main.Idle? && s.queue != []
    case Handle => s.main.Handling?
    case Read => s.main.Reading?
    case Fetch(rows) => s.main.Fetching? && Lists(rows, Table(s), s.main.ids)
    case Emit => s.main.Emitting? && s.main.rows != []
    case Rest => s.main.Emitting? && s.main.rows == []
  }

  /** Is this row news, or a repeat of what was last sent? */
  predicate Skips(lastSeen: map<int, int>, r: StockRow, snapshot: bool) {
    !snapshot && r.product in lastSeen && lastSeen[r.product] == r.quantity
  }

  function UpdateFor(r: StockRow, snapshot: bool): Update {
    Update(r.product, r.quantity, if snapshot then SNAPSHOT else CHANGED)
  }

  function EmitOne(s: State): State
    requires s.main.Emitting? && s.main.rows != []
  {
    var r := s.main.rows[0];
    var rest := s.main.(rows := s.main.rows[1..]);
    if Skips(s.lastSeen, r, s.main.snapshot) then s.(main := rest)
    else
      s.(main := rest,
         lastSeen := s.lastSeen[r.product := r.quantity],
         emitted := s.emitted + [UpdateFor(r, s.main.snapshot)],
         versions := s.versions + [s.main.version])
  }

  function Next(s: State, a: Action): State
    requires s.history != [] && Allowed(s, a)
  {
    match a
    case Write(changes, notes) =>
      s.(history := s.history + [Table(s) + changes],
         channel := if Hearing(s) then s.channel + notes else s.channel)
    case Break(kept) => s.(lost := true, channel := s.channel[..kept])
    case Subscribe(ids) => s.(watch := s.watch + ids, newly := s.newly + ids, queue := s.queue + [Snapshot])
    case Unsubscribe(ids) => s.(watch := s.watch - ids, newly := s.newly - ids)
    case Connect => s.(listener := Connected, lost := false, channel := [])
    case Listen => s.(listener := Announcing)
    case Announce => s.(listener := Polling, queue := s.queue + [Resync])
    case Receive => s.(listener := Got(s.channel[0]), channel := s.channel[1..])
    case Test => s.(listener := if s.listener.product in s.watch then Putting(s.listener.product) else Polling)
    case Put => s.(listener := Polling, queue := s.queue + [Changed(s.listener.product)])
    case GiveUp => s.(listener := Down, lost := false, channel := [])
    case Take => s.(main := Handling(s.queue[0]), queue := s.queue[1..])
    case Handle =>
      (match s.main.marker
       case Snapshot => s.(main := Reading(s.newly, true), newly := {})
       case Changed(p) => s.(main := Reading({p}, false))
       case Resync => s.(main := Reading(s.watch, false)))
    case Read => s.(main := Fetching(s.watch * s.main.ids, s.main.snapshot))
    case Fetch(rows) => s.(main := Emitting(rows, s.main.snapshot, |s.history| - 1))
    case Emit => EmitOne(s)
    case Rest => s.(main := Idle)
  }

  /** `s` can take the actions in turn and end up in `s'`. */
  ghost predicate Leads(s: State, acts: seq<Action>, s': State)
    requires s.history != []
    decreases |acts|
  {
    if acts == [] then s' == s
    else Allowed(s, acts[0]) && Leads(Next(s, acts[0]), acts[1..], s')
  }

  /** Everything but the world outside the stream. */
  predicate Internal(a: Action) { !a.Write? && !a.Break? && !a.Subscribe? && !a.Unsubscribe? }
}
