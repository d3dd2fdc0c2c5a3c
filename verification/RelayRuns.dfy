/** Building runs of the relay: one step more, one run after another, and steps that leave the table alone. */
module RelayRuns {
  import opened Bytes
  import opened RelayMachine

  lemma OneMore(s: State, actions: seq<Action>, a: Action)
    requires Run(s, actions).Some? && Enabled(Run(s, actions).value, a)
    ensures Run(s, actions + [a]) == Some(Apply(Run(s, actions).value, a))
  {
    hide Enabled, Apply;
    assert (actions + [a])[..|actions|] == actions;
  }

  lemma {:induction false} RunsAppend(s: State, a: seq<Action>, b: seq<Action>)
    requires Run(s, a).Some? && Run(Run(s, a).value, b).Some?
    ensures Run(s, a + b) == Run(Run(s, a).value, b)
  {
    hide Enabled, Apply;
    if b == [] {
      assert a + b == a;
    } else {
      var n := |b| - 1;
      RunsAppend(s, a, b[..n]);
      assert (a + b)[..|a| + n] == a + b[..n];
      assert (a + b)[|a| + n] == b[n];
    }
  }

  /** A step that neither stores nor deletes a table entry. */
  predicate Spares(a: Action) {
    !(a.Joins? && a.join.Store?) && !(a.Evicts? && a.once.DeleteEntry?)
  }

  ghost predicate AllSpare(actions: seq<Action>) {
    forall a <- actions :: Spares(a)
  }

  lemma SparesMore(a: seq<Action>, b: seq<Action>)
    requires AllSpare(a) && AllSpare(b)
    ensures AllSpare(a + b)
  {
  }
}
