/** The reducer's published stats against the namespace: at every moment of every run they differ
    from what is in the tree exactly by the committed changes still to be applied. */
module Ledger {
  import opened NodeTree
  import opened NodeAccounts
  import opened NodeConservation
  import M = NamespaceModel
  import N = NamespaceRuns
  import R = Reducer

  /** The namespace and the reducer beside each other. */
  datatype State = State(space: M.State, reducer: R.State)

  /** A commit of an operation is the one step of both: what the operation has set aside becomes
      the delta of its transaction. */
  datatype Step = Namespace(n: M.Step) | Derived(d: R.Step) | Commit(op: M.OpId, token: R.Token)

  ghost predicate Enabled(s: State, l: Step) {
    match l
    case Namespace(n) => !n.Commit? && M.Enabled(s.space, n)
    case Derived(d) => !d.Commit? && R.Enabled(s.reducer, d)
    case Commit(o, t) => M.Enabled(s.space, M.Commit(o)) && R.Enabled(s.reducer, R.Commit(t, s.space.ops[o].derived))
  }

  /** The conditions on the two: commits are safe and in time, lease-free renames harmless, and
      emitters and passes in time. */
  ghost predicate Good(s: State, l: Step) {
    match l
    case Namespace(n) => M.SafeStep(s.space, n)
    case Derived(d) => R.Timely(s.reducer, d)
    case Commit(o, t) => M.SafeStep(s.space, M.Commit(o))
  }

  ghost function Next(s: State, l: Step): State
    requires Enabled(s, l)
  {
    match l
    case Namespace(n) => s.(space := M.Next(s.space, n))
    case Derived(d) => s.(reducer := R.Next(s.reducer, d))
    case Commit(o, t) =>
      State(M.Next(s.space, M.Commit(o)), R.Next(s.reducer, R.Commit(t, s.space.ops[o].derived)))
  }

  ghost predicate Init(s: State) {
    M.Inv(s.space) && s.space.ops == map[] && R.Init(s.reducer) && s.reducer.baseline == Count(LiveNodes(s.space.forest))
  }

  datatype Run = Run(states: seq<State>, steps: seq<Step>)

  ghost predicate Valid(r: Run) {
    && |r.states| == |r.steps| + 1 && Init(r.states[0])
    && forall i | 0 <= i < |r.steps| :: StepAt(r, i)
  }

  ghost predicate StepAt(r: Run, i: nat)
    requires |r.states| == |r.steps| + 1 && i < |r.steps|
  {
    Enabled(r.states[i], r.steps[i]) && Good(r.states[i], r.steps[i]) && r.states[i + 1] == Next(r.states[i], r.steps[i])
  }

  /** The baseline with everything committed, one component. */
  ghost function Booked(s: R.State, i: R.Component): int {
    R.Part(s.baseline, i) + R.Total(s.committed.Keys, s.committed, i)
  }

  lemma StepBooked(s: R.State, l: R.Step, i: R.Component)
    requires R.Enabled(s, l)
    ensures Booked(R.Next(s, l), i) == Booked(s, i) + (if l.Commit? then R.Part(l.delta, i) else 0)
  {
    if l.Commit? {
      var deltas := s.committed[l.token := l.delta];
      assert deltas.Keys == s.committed.Keys + {l.token};
      R.TotalWithout(deltas.Keys, deltas, i, l.token);
      assert deltas.Keys - {l.token} == s.committed.Keys;
      R.TotalSame(s.committed.Keys, s.committed, deltas, i);
    }
  }

  /** The tree holds the baseline and every committed change. */
  ghost predicate Balanced(f: set<Item>, s: R.State) {
    forall i :: R.Part(Count(LiveNodes(f)), i) == Booked(s, i)
  }

  ghost predicate Inv(s: State) {
    M.Inv(s.space) && R.Inv(s.reducer) && Balanced(s.space.forest, s.reducer)
  }

  lemma StaysBalanced(f: set<Item>, f': set<Item>, delta: Stats, s: R.State, s': R.State)
    requires Balanced(f, s) && Conserves(f, f', delta) && forall i :: Booked(s', i) == Booked(s, i) + R.Part(delta, i)
    ensures Balanced(f', s')
  {
  }

  lemma NamespaceStep(space: M.State, s: R.State, n: M.Step)
    requires M.Inv(space) && Balanced(space.forest, s) && !n.Commit? && M.Enabled(space, n) && M.SafeStep(space, n)
    ensures M.Inv(M.Next(space, n)) && Balanced(M.Next(space, n).forest, s)
  {
    N.StepInv(space, n);
    N.StepConserves(space, n);
    StaysBalanced(space.forest, M.Next(space, n).forest, NoStats, s, s);
  }

  lemma DerivedStep(f: set<Item>, s: R.State, d: R.Step)
    requires Balanced(f, s) && R.Inv(s) && !d.Commit? && R.Enabled(s, d) && R.Timely(s, d)
    ensures R.Inv(R.Next(s, d)) && Balanced(f, R.Next(s, d))
  {
    R.StepInv(s, d);
    forall i ensures Booked(R.Next(s, d), i) == Booked(s, i) {
      StepBooked(s, d, i);
    }
  }

  lemma CommitStep(space: M.State, s: R.State, o: M.OpId, t: R.Token)
    requires M.Inv(space) && R.Inv(s) && Balanced(space.forest, s)
    requires M.Enabled(space, M.Commit(o)) && M.SafeStep(space, M.Commit(o)) && R.Enabled(s, R.Commit(t, space.ops[o].derived))
    ensures M.Inv(M.Next(space, M.Commit(o))) && R.Inv(R.Next(s, R.Commit(t, space.ops[o].derived)))
    ensures Balanced(M.Next(space, M.Commit(o)).forest, R.Next(s, R.Commit(t, space.ops[o].derived)))
  {
    var delta := space.ops[o].derived;
    N.StepInv(space, M.Commit(o));
    N.StepConserves(space, M.Commit(o));
    R.StepInv(s, R.Commit(t, delta));
    forall i ensures Booked(R.Next(s, R.Commit(t, delta)), i) == Booked(s, i) + R.Part(delta, i) {
      StepBooked(s, R.Commit(t, delta), i);
    }
    StaysBalanced(space.forest, M.Next(space, M.Commit(o)).forest, delta, s, R.Next(s, R.Commit(t, delta)));
  }

  lemma StepInv(s: State, l: Step)
    requires Inv(s) && Enabled(s, l) && Good(s, l)
    ensures Inv(Next(s, l))
  {
    match l
    case Namespace(n) => NamespaceStep(s.space, s.reducer, n);
    case Derived(d) => DerivedStep(s.space.forest, s.reducer, d);
    case Commit(o, t) => CommitStep(s.space, s.reducer, o, t);
  }

  lemma InitInv(s: State)
    requires Init(s)
    ensures Inv(s)
  {
    R.InitInv(s.reducer);
  }

  lemma {:induction false} RunInv(r: Run, n: nat)
    requires Valid(r) && n < |r.states|
    ensures Inv(r.states[n])
  {
    InitInv(r.states[0]);
    for i := 0 to n
      invariant Inv(r.states[i])
    {
      assert StepAt(r, i);
      StepInv(r.states[i], r.steps[i]);
    }
  }

  lemma Unapplied(s: R.State, i: R.Component)
    requires R.Inv(s)
    ensures Booked(s, i) == R.Part(s.stats, i) + R.Total(s.committed.Keys - s.once.Keys, s.committed, i)
  {
    R.TotalApart(s.once.Keys, s.committed.Keys - s.once.Keys, s.committed, i);
    assert s.once.Keys + (s.committed.Keys - s.once.Keys) == s.committed.Keys;
  }

  /** Conservation: in every state of every run, with operations creating, replacing, deleting,
      renaming, moving, trashing and restoring at the same time, giving attempts up and making
      them again, the reducer's stats plus the changes that are committed and not yet applied are
      the file, directory and byte counts of the namespace. */
  lemma Conservation(r: Run, n: nat, i: R.Component)
    requires Valid(r) && n < |r.states|
    ensures var s := r.states[n].reducer;
      R.Part(Count(LiveNodes(r.states[n].space.forest)), i) == R.Part(s.stats, i) + R.Total(s.committed.Keys - s.once.Keys, s.committed, i)
  {
    RunInv(r, n);
    Unapplied(r.states[n].reducer, i);
  }
}
