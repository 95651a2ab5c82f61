/** Which updates of a WatchStock stream are SNAPSHOT and which CHANGED. */
module WatchKinds {
  import opened Watch
  import opened WatchLaws
  import opened WatchStream

  // ---------------------------------------------------------------- one snapshot a subscription

  function Snapshots(us: seq<Update>, p: int): nat {
    if us == [] then 0
    else
      var u := us[|us| - 1];
      Snapshots(us[..|us| - 1], p) + if u.product == p && u.kind == SNAPSHOT then 1 else 0
  }

  function Subscriptions(acts: seq<Action>, p: int): nat {
    if acts == [] then 0 else (if Subscribes(acts[0], p) then 1 else 0) + Subscriptions(acts[1..], p)
  }

  /** Does the batch in hand have a snapshot of `p` to send? */
  predicate InSnapshotBatch(main: Main, p: int) {
    match main
    case Reading(ids, snapshot) => snapshot && p in ids
    case Fetching(ids, snapshot) => snapshot && p in ids
    case Emitting(_, snapshot, _) => snapshot && InBatch(main, p)
    case _ => false
  }

  /** Snapshots of `p` still to be sent. */
  function Owed(s: State, p: int): nat {
    (if p in s.newly then 1 else 0) + if InSnapshotBatch(s.main, p) then 1 else 0
  }

  lemma EmitPays(s: State, p: int)
    requires Inv(s) && Allowed(s, Emit)
    ensures Snapshots(Next(s, Emit).emitted, p) + Owed(Next(s, Emit), p) <= Snapshots(s.emitted, p) + Owed(s, p)
  {
    var s' := Next(s, Emit);
    var r := s.main.rows[0];
    assert s.main.rows == [r] + s'.main.rows;
    assert r.product == p ==> !InBatch(s'.main, p);
    if s'.emitted != s.emitted {
      assert s'.emitted[..|s.emitted|] == s.emitted;
    }
  }

  lemma OwedStep(s: State, a: Action, p: int)
    requires Inv(s) && Allowed(s, a) && !a.Emit?
    ensures Next(s, a).emitted == s.emitted
    ensures Owed(Next(s, a), p) <= Owed(s, p) + if Subscribes(a, p) then 1 else 0
  {}

  lemma {:induction false} SnapshotsOwed(s: State, acts: seq<Action>, s': State, p: int)
    requires Inv(s) && Leads(s, acts, s')
    ensures Snapshots(s'.emitted, p) + Owed(s', p) <= Snapshots(s.emitted, p) + Owed(s, p) + Subscriptions(acts, p)
    decreases |acts|
  {
    if acts != [] {
      NextKeepsInv(s, acts[0]);
      if acts[0].Emit? {
        EmitPays(s, p);
      } else {
        OwedStep(s, acts[0], p);
      }
      SnapshotsOwed(Next(s, acts[0]), acts[1..], s', p);
    }
  }

  /** Over every run, the SNAPSHOT updates sent for a product and those still owed are
      no more than the subscriptions that named it: a product subscribed once never
      gets a second one, whatever else is subscribed or changes. */
  lemma SnapshotBound(table: map<int, int>, acts: seq<Action>, s: State, p: int)
    requires Leads(Open(table), acts, s)
    ensures Snapshots(s.emitted, p) + Owed(s, p) <= Subscriptions(acts, p)
  {
    SnapshotsOwed(Open(table), acts, s, p);
  }

  // ---------------------------------------------------------------- the kind of a batch

  /** Every update after the first `from` is of this kind and for one of these products. */
  predicate AllOf(us: seq<Update>, from: nat, kind: Kind, ids: set<int>) {
    forall i | from <= i < |us| :: us[i].kind == kind && us[i].product in ids
  }

  function KindOf(snapshot: bool): Kind { if snapshot then SNAPSHOT else CHANGED }

  /** Is the batch in hand, if there is one, a batch of these products and this kind? */
  predicate BatchOf(main: Main, ids: set<int>, snapshot: bool) {
    match main
    case Idle => true
    case Handling(_) => false
    case Reading(more, kind) => kind == snapshot && more <= ids
    case Fetching(more, kind) => kind == snapshot && more <= ids
    case Emitting(rows, kind, _) => kind == snapshot && forall r | r in rows :: r.product in ids
  }

  lemma BatchStep(s: State, a: Action, ids: set<int>, snapshot: bool)
    requires s.history != [] && Allowed(s, a) && !a.Take? && BatchOf(s.main, ids, snapshot)
    ensures BatchOf(Next(s, a).main, ids, snapshot) && s.emitted <= Next(s, a).emitted
    ensures AllOf(Next(s, a).emitted, |s.emitted|, KindOf(snapshot), ids)
  {}

  lemma {:induction false} BatchSends(s: State, acts: seq<Action>, s': State, ids: set<int>, snapshot: bool)
    requires s.history != [] && Leads(s, acts, s') && BatchOf(s.main, ids, snapshot)
    requires forall a | a in acts :: !a.Take?
    ensures s.emitted <= s'.emitted && AllOf(s'.emitted, |s.emitted|, KindOf(snapshot), ids)
    decreases |acts|
  {
    if acts != [] {
      assert acts[0] in acts && forall a | a in acts[1..] :: a in acts;
      BatchStep(s, acts[0], ids, snapshot);
      BatchSends(Next(s, acts[0]), acts[1..], s', ids, snapshot);
    }
  }

  /** Until the generator has picked its ids, nothing touches the marker. */
  lemma MarkerWaits(s: State, a: Action)
    requires s.history != [] && Allowed(s, a) && !a.Handle? && s.main.Handling?
    ensures Next(s, a).main == s.main && Next(s, a).emitted == s.emitted
  {}

  /** The products a marker can be about: any, except that a change is about its own. */
  predicate About(m: Marker, p: int) { m.Changed? ==> p == m.product }

  /** Whatever happens meanwhile, up to the next marker the generator sends only
      SNAPSHOTs for a snapshot marker, and only CHANGEDs for a resync or a change,
      the latter of that product alone. */
  lemma {:induction false} BatchKinds(s: State, acts: seq<Action>, s': State)
    requires s.history != [] && s.main.Handling? && Leads(s, acts, s')
    requires forall a | a in acts :: !a.Take?
    ensures s.emitted <= s'.emitted
    ensures forall i | |s.emitted| <= i < |s'.emitted| ::
              s'.emitted[i].kind == KindOf(s.main.marker == Snapshot) && About(s.main.marker, s'.emitted[i].product)
    decreases |acts|
  {
    if acts != [] {
      assert acts[0] in acts && forall a | a in acts[1..] :: a in acts;
      var t := Next(s, acts[0]);
      if acts[0].Handle? {
        BatchSends(t, acts[1..], s', t.main.ids, s.main.marker == Snapshot);
      } else {
        MarkerWaits(s, acts[0]);
        BatchKinds(t, acts[1..], s');
      }
    }
  }
}
