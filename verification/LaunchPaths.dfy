/** Continuations: the states that can follow a given state. */
module LaunchPaths {
  import opened LaunchState
  import opened LaunchSteps

  ghost predicate Path(states: seq<State>) {
    |states| > 0 && forall i :: 0 <= i < |states| - 1 ==> Next(states[i], states[i + 1])
  }

  /** t can follow s. */
  ghost predicate Leads(s: State, t: State) {
    exists states :: Path(states) && states[0] == s && states[|states| - 1] == t
  }

  lemma Stay(s: State)
    ensures Leads(s, s)
  {
    assert Path([s]);
  }

  lemma Then(s: State, t: State, u: State)
    requires Leads(s, t) && Next(t, u)
    ensures Leads(s, u)
  {
    hide Next;
    var states :| Path(states) && states[0] == s && states[|states| - 1] == t;
    var longer := states + [u];
    forall i | 0 <= i < |longer| - 1 ensures Next(longer[i], longer[i + 1]) {
      if i == |states| - 1 { assert longer[i] == t && longer[i + 1] == u; } else { assert longer[i] == states[i] && longer[i + 1] == states[i + 1]; }
    }
    assert Path(longer) && longer[0] == s && longer[|longer| - 1] == u;
  }

  lemma Onwards(s: State, t: State, u: State)
    requires Leads(s, t) && Leads(t, u)
    ensures Leads(s, u)
  {
    hide Next;
    var p :| Path(p) && p[0] == s && p[|p| - 1] == t;
    var q :| Path(q) && q[0] == t && q[|q| - 1] == u;
    var longer := p + q[1..];
    forall i | 0 <= i < |longer| - 1 ensures Next(longer[i], longer[i + 1]) {
      if i < |p| - 1 { assert longer[i] == p[i] && longer[i + 1] == p[i + 1]; } else { assert longer[i] == q[i - |p| + 1] && longer[i + 1] == q[i - |p| + 2]; }
    }
    assert Path(longer) && longer[0] == s && longer[|longer| - 1] == u;
  }

  lemma Acts(s: State, t: State, l: LaunchId, a: Answer, u: State)
    requires Leads(s, t) && LaunchStep(t, l, a, u)
    ensures Leads(s, u)
  {
    hide LaunchStep;
    Then(s, t, u);
  }
}
