/** Putting runs of the stream machine together. */
module WatchRuns {
  import opened Watch

  lemma {:induction false} LeadsSnoc(s: State, acts: seq<Action>, t: State, a: Action)
    requires s.history != [] && Leads(s, acts, t) && t.history != [] && Allowed(t, a)
    ensures Leads(s, acts + [a], Next(t, a))
    decreases |acts|
  {
    if acts == [] {
      assert ([a])[1..] == [];
      assert acts + [a] == [a];
    } else {
      LeadsSnoc(Next(s, acts[0]), acts[1..], t, a);
      assert (acts + [a])[1..] == acts[1..] + [a];
    }
  }

  /** One action more at the end. */
  lemma LeadsLast(s: State, acts: seq<Action>, t: State, a: Action) returns (r: seq<Action>)
    requires s.history != [] && Leads(s, acts, t) && t.history != [] && Allowed(t, a)
    ensures r == acts + [a] && Leads(s, r, Next(t, a))
  {
    r := acts + [a];
    LeadsSnoc(s, acts, t, a);
  }

  lemma {:induction false} LeadsConcat(s: State, a: seq<Action>, t: State, b: seq<Action>, u: State)
    requires s.history != [] && Leads(s, a, t) && t.history != [] && Leads(t, b, u)
    ensures Leads(s, a + b, u)
    decreases |a|
  {
    if a == [] {
      assert a + b == b;
    } else {
      LeadsConcat(Next(s, a[0]), a[1..], t, b, u);
      assert (a + b)[1..] == a[1..] + b;
    }
  }

  /** One of the stream's own actions more at the front. */
  lemma LeadsCons(s: State, a: Action, acts: seq<Action>, t: State) returns (r: seq<Action>)
    requires s.history != [] && Allowed(s, a) && Leads(Next(s, a), acts, t)
    requires Internal(a) && forall b | b in acts :: Internal(b)
    ensures Leads(s, r, t) && forall b | b in r :: Internal(b)
  {
    r := [a] + acts;
    assert r[1..] == acts;
  }
}
