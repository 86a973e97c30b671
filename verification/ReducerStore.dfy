/** The reducer's code over the shared store, proved against every interleaving with other
    passes, emitters and committing transactions. */
module ReducerStore {
  import opened Wrappers
  import opened NodeAccounts
  import opened Reducer

  /** Whose step it is: a pass's or an emitter's, by id; anybody else's has none. The renewals of
      a lease run beside the pass that took it. */
  datatype Who = PassOf(id: Id) | EmitterOf(id: Id)

  function Actor(l: Step): Option<Who> {
    match l
    case Tick(_) => None
    case Commit(_, _) => None
    case StartEmit(e, _) => Some(EmitterOf(e))
    case Emit(e) => Some(EmitterOf(e))
    case StopEmit(e) => Some(EmitterOf(e))
    case StartPass(p, _) => Some(PassOf(p))
    case Renew(_, _) => None
    case Release(p) => Some(PassOf(p))
    case Read(p, _) => Some(PassOf(p))
    case Apply(p, _, _) => Some(PassOf(p))
    case Mark(p, _) => Some(PassOf(p))
    case Delete(p, _) => Some(PassOf(p))
    case List(p) => Some(PassOf(p))
    case ListFails(p) => Some(PassOf(p))
    case Compact(p, _) => Some(PassOf(p))
    case StopPass(p) => Some(PassOf(p))
  }

  /** A delta object that is gone does not come back: what is written later is another one. */
  ghost predicate Fresher(s: State, s': State) {
    s.nextGen <= s'.nextGen && forall t | t in s'.deltas :: (t in s.deltas && s.deltas[t] == s'.deltas[t]) || s.nextGen <= s'.deltas[t]
  }

  /** What a pass reports: the deltas it listed, whether it has applied them, those it could not
      finish, whether its second listing worked, and whether it has compacted. */
  datatype Report = Report(listed: set<Token>, applied: bool, failed: set<Token>, shown: bool, compacted: bool)

  const NoReport := Report({}, false, {}, false, false)

  /** The delta was written again after the i-th state, under a generation from g on. */
  ghost predicate Rewritten(r: Run, i: nat, t: Token, g: nat) {
    exists j | i <= j < |r.states| :: t in r.states[j].deltas && g <= r.states[j].deltas[t]
  }

  /** By the j-th state another pass has taken the lease since the b-th, or the state object has
      been written so many times since the i-th. */
  ghost predicate Hindered(r: Run, b: nat, i: nat, j: nat, attempts: nat)
    requires b < |r.states| && i < |r.states| && j < |r.states|
  {
    r.states[b].begun < r.states[j].begun || r.states[i].generation + attempts <= r.states[j].generation
  }

  /** When a pass began, listed the deltas, had finished them, and compacted from when to when. */
  datatype Times = Times(began: nat, listed: nat, finished: nat, compacting: nat, compacted: nat)

  /** What a report is worth at the end of the run. */
  ghost predicate Reported(r: Run, w: Times, attempts: nat, unmarkable: set<Token>, listFails: bool, report: Report) {
    && w.began <= w.listed <= w.finished <= w.compacting <= w.compacted < |r.states| && report.listed == r.states[w.listed].deltas.Keys
    && ApplyReported(r, w.began, w.listed, w.finished, attempts, unmarkable, report)
    && (if report.compacted then CompactReported(r.states[w.compacting], r.states[w.compacted], report.shown)
        else Hindered(r, w.began, w.compacting, w.compacted, attempts))
    && (!listFails ==> report.shown)
  }

  /** What was listed and is not reported has been applied, and the delta listed is not stored any
      more. It is applied unless the pass is hindered, and reported only if its transaction
      cannot be marked, or its delta has been written again. */
  ghost predicate ApplyReported(r: Run, b: nat, m: nat, e: nat, attempts: nat, unmarkable: set<Token>, report: Report)
    requires b <= m <= e < |r.states| && report.listed == r.states[m].deltas.Keys
  {
    var s := r.states[|r.states| - 1];
    if report.applied then
      && report.listed <= s.once.Keys && report.failed <= report.listed
      && (forall t | t in report.listed - report.failed :: NotStored(s, t, r.states[m].deltas[t]))
      && (forall t | t in report.failed - unmarkable :: Rewritten(r, m, t, r.states[m].nextGen))
    else report.failed == {} && Hindered(r, b, m, e, attempts)
  }

  /** No token is left that was applied long before, and whose delta was not shown. */
  predicate CompactReported(before: State, after: State, shown: bool) {
    forall t | t in after.applied :: (shown && t in before.deltas) || before.now < after.applied[t] + Retention
  }

  /** What one actor may rely on between its own accesses. */
  ghost predicate Relied(s: State, s': State, me: Who) {
    SharedRelied(s, s') && Fresher(s, s') && OwnRelied(s, s', me)
  }

  ghost predicate SharedRelied(s: State, s': State) {
    && s.now <= s'.now && s.margin == s'.margin && s.committed.Keys <= s'.committed.Keys && s.marked <= s'.marked
    && s.generation <= s'.generation && s.begun <= s'.begun
    && (s.generation == s'.generation ==> s'.applied == s.applied && s'.stats == s.stats)
    && (forall t | t in s.committed :: s'.committed[t] == s.committed[t])
    && s.once.Keys <= s'.once.Keys && (forall t | t in s.once :: s'.once[t] == s.once[t])
  }

  ghost predicate OwnRelied(s: State, s': State, me: Who) {
    match me
    case PassOf(p) =>
      && (s.begun == s'.begun && LeaseOf(s, p) ==> LeaseOf(s', p))
      && (p in s.passes <==> p in s'.passes) && (p in s.passes ==> s'.passes[p] == s.passes[p])
      && (p in s.passes && LeaseOf(s', p) ==> LeaseOf(s, p) && s'.once == s.once)
    case EmitterOf(e) => (e in s.emitters <==> e in s'.emitters) && (e in s.emitters ==> s'.emitters[e] == s.emitters[e])
  }

  lemma StepShared(s: State, l: Step)
    requires Enabled(s, l)
    ensures SharedRelied(s, Next(s, l))
  {
    if l.Apply? && Pending(s, l.pass) == {} {
      NothingApplied(s, l.pass, l.order, l.at);
    }
  }

  lemma SomeMember(order: seq<Token>)
    requires order != []
    ensures Members(order) != {}
  {
    assert order[0] in Members(order);
  }

  lemma NothingApplied(s: State, p: Id, order: seq<Token>, at: nat)
    requires Enabled(s, Apply(p, order, at)) && Pending(s, p) == {}
    ensures Next(s, Apply(p, order, at)) == SetPass(s, p, s.passes[p].(applied := true))
  {
    if order != [] {
      SomeMember(order);
    }
    assert Stamped(s.applied, {}, at) == s.applied && Stamped(s.once, {}, at) == s.once;
  }

  lemma StepOwn(s: State, l: Step, me: Who)
    requires Enabled(s, l) && LeaseKept(s, l) && Actor(l) != Some(me)
    ensures OwnRelied(s, Next(s, l), me)
  {
  }

  lemma StepFresher(s: State, l: Step)
    requires Enabled(s, l)
    ensures Fresher(s, Next(s, l))
  {
  }

  lemma StepRelied(s: State, l: Step, me: Who)
    requires Enabled(s, l) && LeaseKept(s, l) && Actor(l) != Some(me)
    ensures Relied(s, Next(s, l), me)
  {
    StepShared(s, l);
    StepOwn(s, l, me);
    StepFresher(s, l);
  }

  lemma ReliedOn(s0: State, s1: State, s2: State, me: Who)
    requires Relied(s0, s1, me) && Relied(s1, s2, me)
    ensures Relied(s0, s2, me)
  {
  }

  /** What holds across the accesses of a pass itself, too: it loses the lease only to another one. */
  ghost predicate Onward(s: State, s': State, p: Id) {
    && s.now <= s'.now && s.margin == s'.margin && s.once.Keys <= s'.once.Keys && s.marked <= s'.marked
    && s.generation <= s'.generation && s.begun <= s'.begun && Fresher(s, s')
    && (s.begun == s'.begun && LeaseOf(s, p) ==> LeaseOf(s', p))
  }

  lemma OnwardAll(s0: State, s1: State, s2: State, p: Id)
    requires Onward(s0, s1, p) && Onward(s1, s2, p)
    ensures Onward(s0, s2, p)
  {
  }

  lemma ReliedOnward(s: State, s': State, p: Id)
    requires Relied(s, s', PassOf(p))
    ensures Onward(s, s', p)
  {
  }

  /** The delta object of that generation is not stored. */
  predicate NotStored(s: State, t: Token, generation: nat) {
    t !in s.deltas || s.deltas[t] != generation
  }

  /** Generations are never used twice. */
  predicate Dated(s: State) {
    && (forall t | t in s.deltas :: s.deltas[t] < s.nextGen)
    && (forall p, t | p in s.passes && t in s.passes[p].held :: s.passes[p].held[t] < s.nextGen)
  }

  lemma StepDated(s: State, l: Step)
    requires Dated(s) && Enabled(s, l)
    ensures Dated(Next(s, l))
  {
  }

  lemma {:induction false} RunDated(r: Run, n: nat)
    requires Valid(r) && n < |r.states|
    ensures Dated(r.states[n])
  {
    for i := 0 to n
      invariant Dated(r.states[i])
    {
      assert StepAt(r, i);
      StepDated(r.states[i], r.steps[i]);
    }
  }

  /** It is not too late to write the delta of t. */
  predicate Writable(s: State, t: Token) {
    t in s.once ==> s.now + s.margin < s.once[t] + Retention
  }

  /** The clock has not reached a pass's deadline, and it is not too late for an emitter. */
  predicate Allows(s: State, writing: Option<Token>, deadline: Option<nat>) {
    (deadline.Some? ==> s.now < deadline.value) && (writing.Some? ==> Writable(s, writing.value))
  }

  class DerivedStore {
    var s: State
    ghost var run: Run

    ghost predicate Consistent()
      reads this
    {
      Valid(run) && AllTimely(run) && run.states[|run.steps|] == s
    }

    constructor (initial: State)
      requires Init(initial)
      ensures Consistent() && s == initial
    {
      s := initial;
      run := Run([initial], []);
    }

    /** One atomic access. */
    method Take(l: Step)
      requires Consistent() && Enabled(s, l) && Timely(s, l)
      modifies this
      ensures Consistent() && s == Next(old(s), l)
      ensures run == Run(old(run.states) + [s], old(run.steps) + [l])
    {
      ghost var r := run;
      s := Next(s, l);
      run := Run(run.states + [s], run.steps + [l]);
      forall i | 0 <= i < |run.steps| ensures StepAt(run, i) && Timely(run.states[i], run.steps[i]) {
        if i < |r.steps| {
          assert StepAt(r, i) && Timely(r.states[i], r.steps[i]);
        }
      }
    }

    /** Everybody else runs, for any number of steps. An emitter assumes that it does not become
        too late for what it is writing, and a pass at its compaction that the clock does not
        reach the deadline. */
    method Interfere(me: Who, writing: Option<Token>, deadline: Option<nat>)
      requires Consistent() && Allows(s, writing, deadline)
      modifies this
      ensures Consistent() && Relied(old(s), s, me) && Allows(s, writing, deadline)
      ensures old(run.states) <= run.states && old(run.steps) <= run.steps
    {
      var n: int := *;
      while 0 < n
        invariant Consistent() && Relied(old(s), s, me) && Allows(s, writing, deadline)
        invariant old(run.states) <= run.states && old(run.steps) <= run.steps
      {
        n := n - 1;
        var l: Step := *;
        if Enabled(s, l) && Timely(s, l) && Actor(l) != Some(me) {
          if Allows(Next(s, l), writing, deadline) {
            StepRelied(s, l, me);
            ghost var before := s;
            Take(l);
            ReliedOn(old(s), before, s, me);
          }
        }
      }
    }

    /** Writes a delta that its manifest still asks for, unless it is stored already. The delta
        was stored at one instant of the call, named by at. */
    method EmitDerivedDelta(e: Id, t: Token) returns (ok: bool, ghost at: nat)
      requires Consistent() && e !in s.emitters && Writable(s, t)
      modifies this
      ensures Consistent() && e !in s.emitters && old(run.states) <= run.states
      ensures ok ==> old(|run.steps|) <= at < |run.states| && t in run.states[at].deltas
      ensures !ok ==> t !in old(s).committed || t in s.marked
    {
      Interfere(EmitterOf(e), Some(t), None);
      ok, at := false, 0;
      if t !in s.committed || t in s.marked {
        return;
      }
      Take(StartEmit(e, t));
      ok := true;
      at := WriteDelta(e, t);
    }

    /** Leaves a delta that is there alone. */
    method WriteDelta(e: Id, t: Token) returns (ghost at: nat)
      requires Consistent() && e in s.emitters && s.emitters[e] == t && Writable(s, t)
      modifies this
      ensures Consistent() && e !in s.emitters && old(run.states) <= run.states
      ensures old(|run.steps|) <= at < |run.states| && t in run.states[at].deltas
    {
      Interfere(EmitterOf(e), Some(t), None);
      if t in s.deltas {
        at := |run.steps|;
        Take(StopEmit(e));
        return;
      }
      Interfere(EmitterOf(e), Some(t), None);
      Take(Emit(e));
      at := |run.steps|;
    }

    /** Applies what the pass holds and finds not applied: reads the state object, adds the
        deltas one after the other, and writes it conditionally; on a lost race it reads again.
        It fails only if the lease is lost, or somebody else has written the state object during
        each attempt. */
    method ApplyBatch(p: Id, attempts: nat) returns (ok: bool)
      requires Consistent() && p in s.passes && !s.passes[p].applied && s.passes[p].listing.None?
      modifies this
      ensures Consistent() && p in s.passes && old(run.states) <= run.states && old(run.steps) <= run.steps && Onward(old(s), s, p)
      ensures s.passes[p] == if ok then old(s.passes[p]).(applied := true) else old(s.passes[p])
      ensures ok ==> old(s.passes[p]).held.Keys <= s.once.Keys
      ensures !ok ==> !LeaseOf(s, p) || old(s).generation + attempts <= s.generation
    {
      ok := false;
      for attempt := 0 to attempts
        invariant Consistent() && !ok && old(run.states) <= run.states && old(run.steps) <= run.steps
        invariant Relied(old(s), s, PassOf(p)) && old(s).generation + attempt <= s.generation
      {
        ghost var before := s;
        var again;
        ok, again := ApplyOnce(p);
        if ok {
          ReliedOnward(old(s), before, p);
          OnwardAll(old(s), before, s, p);
          return;
        }
        ReliedOn(old(s), before, s, PassOf(p));
        ReliedOnward(old(s), s, p);
        if !again {
          return;
        }
      }
    }

    /** One attempt. A pass that has lost its lease is cancelled by its renewals; that this comes
        before its next write is the timing assumption on it. */
    method ApplyOnce(p: Id) returns (ok: bool, again: bool)
      requires Consistent() && p in s.passes && !s.passes[p].applied && s.passes[p].listing.None?
      modifies this
      ensures Consistent() && p in s.passes && old(run.states) <= run.states && old(run.steps) <= run.steps && Onward(old(s), s, p)
      ensures !ok ==> Relied(old(s), s, PassOf(p)) && (if again then old(s).generation < s.generation else !LeaseOf(s, p))
      ensures ok ==> s.passes[p] == old(s.passes[p]).(applied := true) && old(s.passes[p]).held.Keys <= s.once.Keys
    {
      ok, again := false, false;
      Interfere(PassOf(p), None, None);
      ghost var loaded := s;
      AllKnown(run, |run.steps|, p);
      var generation, applied, stats, at := s.generation, s.applied, s.stats, s.now;
      var order, sum := SumPending(s.passes[p].held, applied, s.committed, stats);
      Interfere(PassOf(p), None, None);
      ReliedOn(old(s), loaded, s, PassOf(p));
      ReliedOnward(old(s), s, p);
      if !LeaseOf(s, p) {
        return;
      }
      again := s.generation != generation;
      if !again {
        forall t | t in order ensures t in loaded.committed {
          assert t in Members(order);
        }
        SameSum(stats, order, loaded.committed, s.committed);
        AllKnown(run, |run.steps|, p);
        Take(Apply(p, order, at));
        assert s.stats == sum;
        ok := true;
      }
    }

    /** Marks each transaction and, once it is marked, deletes its delta object if it is the one
        that was read. A transaction that cannot be marked keeps its delta; and a delta that has
        been written once more meanwhile stays. Both are reported as failed. */
    method FinishPass(p: Id, unmarkable: set<Token>, ghost g: nat) returns (failed: set<Token>)
      requires Consistent() && p in s.passes && s.passes[p].applied && HeldOrNew(s, s.passes[p].held, g)
      modifies this
      ensures Consistent() && p in s.passes && s.passes[p] == old(s.passes[p]) && old(run.states) <= run.states && old(run.steps) <= run.steps && Onward(old(s), s, p)
      ensures var held := old(s.passes[p]).held;
        && held.Keys * unmarkable <= failed <= held.Keys
        && held.Keys - unmarkable <= s.marked
        && (forall t | t in held.Keys - failed :: NotStored(s, t, held[t]))
        && (forall t | t in failed - unmarkable :: Rewritten(run, old(|run.steps|), t, g))
    {
      ghost var held := s.passes[p].held;
      RunDated(run, |run.steps|);
      var rest := s.passes[p].held.Keys;
      failed := {};
      while rest != {}
        invariant Consistent() && p in s.passes && s.passes[p] == old(s.passes[p]) && old(run.states) <= run.states && old(run.steps) <= run.steps && Onward(old(s), s, p)
        invariant rest <= held.Keys && failed <= held.Keys - rest && (held.Keys - rest) * unmarkable <= failed
        invariant held.Keys - rest - unmarkable <= s.marked
        invariant forall t | t in held.Keys - rest - failed :: NotStored(s, t, held[t])
        invariant forall t | t in failed - unmarkable :: Rewritten(run, old(|run.steps|), t, g)
        invariant HeldOrNew(s, held, g)
      {
        var t :| t in rest;
        ghost var before, now := s, run;
        var done := FinishOne(p, t, t !in unmarkable, g);
        OnwardAll(old(s), before, s, p);
        StaysNotStored(before, s, held, held.Keys - rest - failed, p);
        StaysRewritten(now, run, old(|run.steps|), failed - unmarkable, g);
        StaysHeldOrNew(before, s, held, g, p);
        if !done {
          failed := failed + {t};
        }
        rest := rest - {t};
      }
    }

    method FinishOne(p: Id, t: Token, markable: bool, ghost g: nat) returns (done: bool)
      requires Consistent() && p in s.passes && s.passes[p].applied && t in s.passes[p].held && HeldOrNew(s, s.passes[p].held, g)
      modifies this
      ensures Consistent() && p in s.passes && s.passes[p] == old(s.passes[p]) && old(run.states) <= run.states && old(run.steps) <= run.steps && Onward(old(s), s, p)
      ensures if done then markable && NotStored(s, t, s.passes[p].held[t]) else !markable || Rewritten(run, old(|run.steps|), t, g)
      ensures markable ==> t in s.marked
    {
      Interfere(PassOf(p), None, None);
      ReliedOnward(old(s), s, p);
      done := markable;
      if markable {
        ghost var before := s;
        StaysHeldOrNew(old(s), s, s.passes[p].held, g, p);
        Take(Mark(p, t));
        done := DeleteDelta(p, t, g);
        OnwardAll(old(s), before, s, p);
      }
    }

    /** Deletes the delta object of a marked transaction under the generation that was read. */
    method DeleteDelta(p: Id, t: Token, ghost g: nat) returns (done: bool)
      requires Consistent() && p in s.passes && t in s.passes[p].held && t in s.marked && HeldOrNew(s, s.passes[p].held, g)
      modifies this
      ensures Consistent() && p in s.passes && s.passes[p] == old(s.passes[p]) && old(run.states) <= run.states && old(run.steps) <= run.steps && Onward(old(s), s, p)
      ensures if done then NotStored(s, t, s.passes[p].held[t]) else Rewritten(run, old(|run.steps|), t, g)
    {
      Interfere(PassOf(p), None, None);
      ReliedOnward(old(s), s, p);
      done := t !in s.deltas || s.deltas[t] == s.passes[p].held[t];
      if done && t in s.deltas {
        Take(Delete(p, t));
      } else if !done {
        StaysHeldOrNew(old(s), s, s.passes[p].held, g, p);
        assert t in run.states[|run.steps|].deltas;
      }
    }

    /** Reads the listed deltas that are still stored; a missing one has been applied. */
    method ReadListed(p: Id, listed: set<Token>)
      requires Consistent() && p in s.passes && s.passes[p] == Pass(map[], false, None) && listed == s.deltas.Keys
      modifies this
      ensures Consistent() && p in s.passes && !s.passes[p].applied && s.passes[p].listing.None?
      ensures old(run.states) <= run.states && old(run.steps) <= run.steps && Onward(old(s), s, p)
      ensures listed <= s.passes[p].held.Keys + s.once.Keys && s.passes[p].held.Keys <= listed
      ensures HeldOrNew(s, s.passes[p].held, old(s.nextGen)) && HeldOrGone(s, s.passes[p].held, old(s.deltas), listed)
    {
      ghost var l := |run.steps|;
      RunDated(run, l);
      var rest := listed;
      while rest != {}
        invariant Consistent() && p in s.passes && !s.passes[p].applied && s.passes[p].listing.None?
        invariant old(run.states) <= run.states && old(run.steps) <= run.steps && Onward(old(s), s, p)
        invariant rest <= listed && listed - rest <= s.passes[p].held.Keys + s.once.Keys && s.passes[p].held.Keys <= listed - rest
        invariant HeldOrNew(s, s.passes[p].held, old(s.nextGen)) && HeldOrGone(s, s.passes[p].held, old(s.deltas), listed - rest)
      {
        var t :| t in rest;
        ReadOne(p, t, old(s), l, listed - rest);
        rest := rest - {t};
      }
    }

    method ReadOne(p: Id, t: Token, ghost s0: State, ghost l: nat, ghost seen: set<Token>)
      requires Consistent() && p in s.passes && !s.passes[p].applied && s.passes[p].listing.None?
      requires l < |run.states| && run.states[l] == s0 && t in s0.deltas && Onward(s0, s, p) && Dated(s0)
      requires t !in seen && seen <= s0.deltas.Keys && s.passes[p].held.Keys <= seen <= s.passes[p].held.Keys + s.once.Keys
      requires HeldOrNew(s, s.passes[p].held, s0.nextGen) && HeldOrGone(s, s.passes[p].held, s0.deltas, seen)
      modifies this
      ensures Consistent() && p in s.passes && !s.passes[p].applied && s.passes[p].listing.None?
      ensures old(run.states) <= run.states && old(run.steps) <= run.steps && Onward(s0, s, p)
      ensures s.passes[p].held.Keys <= seen + {t} <= s.passes[p].held.Keys + s.once.Keys
      ensures HeldOrNew(s, s.passes[p].held, s0.nextGen) && HeldOrGone(s, s.passes[p].held, s0.deltas, seen + {t})
    {
      ghost var before := s;
      Interfere(PassOf(p), None, None);
      ReliedOnward(before, s, p);
      OnwardAll(s0, before, s, p);
      StaysHeldOrNew(before, s, s.passes[p].held, s0.nextGen, p);
      StaysHeldOrGone(s0, before, s, s.passes[p].held, seen, p);
      GoneIsMarked(run, l, |run.steps|, t);
      if t in s.deltas {
        Take(Read(p, t));
      }
    }

    /** The second listing of a pass, which may fail. That it does not when a stored delta has
        been applied long ago is the timing assumption on it. */
    method ListPending(p: Id, fails: bool) returns (shown: bool)
      requires Consistent() && p in s.passes
      modifies this
      ensures Consistent() && Compacting(s, p) && ShownOrYoung(s, p) && old(run.states) <= run.states && old(run.steps) <= run.steps
      ensures s == old(s).(passes := s.passes) && s.passes[p].listing.value.at == s.now && Onward(old(s), s, p)
      ensures s.passes[p].listing.value.tokens == if shown then s.deltas.Keys else {}
      ensures !fails ==> shown
    {
      ListedNow(s, p);
      shown := !(fails && forall t | t in s.deltas && t in s.once :: s.now + s.margin < s.once[t] + Retention);
      if shown {
        Take(List(p));
      } else {
        Take(ListFails(p));
      }
    }

    /** Drops old tokens whose delta a listing no longer showed, or without a listing if that
        fails. Its timing assumptions are that it reads its clock within the margin after the
        listing, and that the listing fails only when no stored delta has been applied long ago;
        that nobody writes a dropped delta again is a consequence of everybody else's times. All
        such tokens are dropped, unless the lease is lost or somebody else has written the state
        object during each attempt. */
    method CompactTokens(p: Id, fails: bool, attempts: nat) returns (ok: bool, shown: bool, removed: set<Token>)
      requires Consistent() && p in s.passes
      modifies this
      ensures Consistent() && p in s.passes && old(run.states) <= run.states && old(run.steps) <= run.steps && Onward(old(s), s, p)
      ensures removed !! old(s).deltas.Keys && removed !! s.applied.Keys
      ensures forall t | t in removed :: t in s.once && t !in s.deltas && s.once[t] + Retention <= s.now
      ensures ok ==> forall t | t in s.applied :: (shown && t in old(s).deltas) || old(s).now < s.applied[t] + Retention
      ensures !ok ==> !LeaseOf(s, p) || old(s).generation + attempts <= s.generation
      ensures !fails ==> shown
    {
      ok, removed := false, {};
      shown := ListPending(p, fails);
      ghost var listed := s;
      for attempt := 0 to attempts
        invariant Consistent() && Compacting(s, p) && !ok && removed == {} && old(run.states) <= run.states && old(run.steps) <= run.steps
        invariant Relied(listed, s, PassOf(p)) && Onward(old(s), s, p) && old(s).generation + attempt <= s.generation
      {
        ghost var before := s;
        var again;
        ok, again, removed := CompactOnce(p);
        OnwardAll(old(s), before, s, p);
        StoredStays(listed, before, p, removed);
        if !again {
          return;
        }
        ReliedOn(listed, before, s, PassOf(p));
      }
    }

    /** One conditional write of the state object without the tokens it no longer needs; none, if
        it needs them all. */
    method CompactOnce(p: Id) returns (ok: bool, again: bool, removed: set<Token>)
      requires Consistent() && Compacting(s, p)
      modifies this
      ensures Consistent() && p in s.passes && old(run.states) <= run.states && old(run.steps) <= run.steps && Onward(old(s), s, p)
      ensures again ==> !ok && removed == {} && Relied(old(s), s, PassOf(p)) && Compacting(s, p) && old(s).generation < s.generation
      ensures removed !! old(s.passes[p]).listing.value.tokens && removed !! s.applied.Keys
      ensures removed != {} ==> LeaseOf(old(s), p)
      ensures forall t | t in removed :: t in old(s).once && old(s).once[t] + Retention <= old(s.passes[p]).listing.value.at + old(s).margin
      ensures forall t | t in removed :: t in s.once && t !in s.deltas && s.once[t] + Retention <= s.now
      ensures !ok && !again ==> !LeaseOf(s, p)
      ensures ok ==> forall t | t in s.applied :: t in old(s.passes[p]).listing.value.tokens || old(s).now < s.applied[t] + Retention
    {
      ok, again, removed := false, false, {};
      var listing := s.passes[p].listing.value;
      Interfere(PassOf(p), None, Some(listing.at + s.margin + 1));
      ghost var loaded := s;
      var generation, applied, at := s.generation, s.applied, s.now;
      var dropped := Compactable(applied, listing.tokens, at);
      if dropped == {} {
        NoneOld(applied, listing.tokens, at);
        ReliedOnward(old(s), s, p);
        ok := true;
        return;
      }
      Interfere(PassOf(p), None, Some(listing.at + s.margin + 1));
      ReliedOn(old(s), loaded, s, PassOf(p));
      ReliedOnward(old(s), s, p);
      if !LeaseOf(s, p) {
        return;
      }
      again := s.generation != generation;
      if !again {
        ok, removed := true, dropped;
        ForgottenGone(run, |run.steps|, Compact(p, at));
        ghost var before := s;
        Take(Compact(p, at));
        CompactOnward(before, p, at);
        OnwardAll(old(s), before, s, p);
      }
    }

    /** One pass under the lease: lists the deltas, reads each one still there, applies them in
        one write, marks and deletes them, and compacts. If it applies them, every delta that was
        stored when it listed them has been applied, by it or by another pass; and it does not
        apply them only if it loses the lease or the state object is written during each of its
        attempts. What fails later is reported, and is for the next pass. */
    method ReducePass(p: Id, ttl: nat, attempts: nat, unmarkable: set<Token>, listFails: bool)
      returns (busy: bool, report: Report, ghost w: Times)
      requires Consistent() && p !in s.passes
      modifies this
      ensures Consistent() && old(run.states) <= run.states && old(run.steps) <= run.steps
      ensures busy ==> report == NoReport && s.lease.Some? && s.now < s.lease.value.until && s.lease.value.owner != p
      ensures !busy ==> old(|run.steps|) < w.began && Reported(run, w, attempts, unmarkable, listFails, report)
      ensures !busy ==> run.steps[w.began - 1] == StartPass(p, run.states[w.began - 1].now + ttl) && !LeaseOf(s, p)
      ensures !busy ==> var lease, now := run.states[w.began - 1].lease, run.states[w.began - 1].now;
                lease.Some? && now < lease.value.until ==> lease.value.owner == p
    {
      busy, report, w := false, NoReport, Times(0, 0, 0, 0, 0);
      Interfere(PassOf(p), None, None);
      if !CanStart(s, p) {
        busy := true;
        return;
      }
      Take(StartPass(p, s.now + ttl));
      report, w := LeasedPass(p, attempts, unmarkable, listFails);
    }

    method LeasedPass(p: Id, attempts: nat, unmarkable: set<Token>, listFails: bool)
      returns (report: Report, ghost w: Times)
      requires Consistent() && p in s.passes && s.passes[p] == Pass(map[], false, None) && LeaseOf(s, p)
      modifies this
      ensures Consistent() && old(run.states) <= run.states && old(run.steps) <= run.steps && !LeaseOf(s, p)
      ensures w.began == old(|run.steps|) && Reported(run, w, attempts, unmarkable, listFails, report)
    {
      ghost var m, c, d;
      report, m := ListAndApply(p, attempts, unmarkable);
      ghost var finished, applied := run, report;
      var shown, compacted;
      shown, compacted, c, d := CompactAndRelease(p, listFails, attempts, old(|run.steps|));
      report := report.(shown := shown, compacted := compacted);
      w := Times(old(|run.steps|), m, |finished.steps|, c, d);
      ApplyStays(finished, run, w, attempts, unmarkable, applied, report);
    }

    method ListAndApply(p: Id, attempts: nat, unmarkable: set<Token>) returns (report: Report, ghost m: nat)
      requires Consistent() && p in s.passes && s.passes[p] == Pass(map[], false, None) && LeaseOf(s, p)
      modifies this
      ensures Consistent() && p in s.passes && old(run.states) <= run.states && old(run.steps) <= run.steps && Onward(old(s), s, p)
      ensures old(|run.steps|) <= m < |run.states| && report.listed == run.states[m].deltas.Keys
      ensures m <= |run.steps| && ApplyReported(run, old(|run.steps|), m, |run.steps|, attempts, unmarkable, report)
    {
      Interfere(PassOf(p), None, None);
      ReliedOnward(old(s), s, p);
      m := |run.steps|;
      ghost var listing := s;
      var listed := s.deltas.Keys;
      ReadListed(p, listed);
      OnwardAll(old(s), listing, s, p);
      ghost var before := s;
      var applied, failed := ApplyAndFinish(p, attempts, unmarkable, listed, old(|run.steps|), m);
      OnwardAll(old(s), before, s, p);
      report := Report(listed, applied, failed, false, false);
    }

    method ApplyAndFinish(p: Id, attempts: nat, unmarkable: set<Token>, ghost listed: set<Token>, ghost b: nat, ghost m: nat)
      returns (applied: bool, failed: set<Token>)
      requires Consistent() && p in s.passes && !s.passes[p].applied && s.passes[p].listing.None?
      requires b <= m < |run.states| && LeaseOf(run.states[b], p) && Onward(run.states[b], s, p) && Onward(run.states[m], s, p)
      requires listed == run.states[m].deltas.Keys && s.passes[p].held.Keys <= listed <= s.passes[p].held.Keys + s.once.Keys
      requires HeldOrNew(s, s.passes[p].held, run.states[m].nextGen) && HeldOrGone(s, s.passes[p].held, run.states[m].deltas, listed)
      modifies this
      ensures Consistent() && p in s.passes && old(run.states) <= run.states && old(run.steps) <= run.steps && Onward(old(s), s, p)
      ensures m <= |run.steps| && ApplyReported(run, b, m, |run.steps|, attempts, unmarkable, Report(listed, applied, failed, false, false))
    {
      failed := {};
      ghost var before := s;
      applied := ApplyBatch(p, attempts);
      OnwardAll(run.states[b], before, s, p);
      OnwardAll(run.states[m], before, s, p);
      if applied {
        ghost var done, i := s, |run.steps|;
        StaysHeldOrNew(before, s, s.passes[p].held, run.states[m].nextGen, p);
        failed := FinishPass(p, unmarkable, run.states[m].nextGen);
        OnwardAll(before, done, s, p);
        FinishedAll(run, b, m, before, attempts, unmarkable, listed, failed, i, p);
      }
    }

    method CompactAndRelease(p: Id, fails: bool, attempts: nat, ghost b: nat) returns (shown: bool, compacted: bool, ghost c: nat, ghost d: nat)
      requires Consistent() && p in s.passes && b < |run.states| && LeaseOf(run.states[b], p) && Onward(run.states[b], s, p)
      modifies this
      ensures Consistent() && old(run.states) <= run.states && old(run.steps) <= run.steps && !LeaseOf(s, p) && Later(old(s), s)
      ensures old(|run.steps|) <= c <= d < |run.states| && (!fails ==> shown)
      ensures if compacted then CompactReported(run.states[c], run.states[d], shown) else Hindered(run, b, c, d, attempts)
    {
      Interfere(PassOf(p), None, None);
      ReliedOnward(old(s), s, p);
      OnwardAll(run.states[b], old(s), s, p);
      c := |run.steps|;
      ghost var listing := s;
      var removed;
      compacted, shown, removed := CompactTokens(p, fails, attempts);
      d := |run.steps|;
      OnwardAll(run.states[b], listing, s, p);
      OnwardAll(old(s), listing, s, p);
      ghost var before := s;
      Interfere(PassOf(p), None, None);
      ReliedOnward(before, s, p);
      OnwardAll(old(s), before, s, p);
      if LeaseOf(s, p) {
        Take(Release(p));
      }
    }
  }

  /** What is over stays over: the part of the order of states that a release of the lease keeps, too. */
  ghost predicate Later(s: State, s': State) {
    s.once.Keys <= s'.once.Keys && s.generation <= s'.generation && s.begun <= s'.begun && Fresher(s, s')
  }

  lemma FinishedAll(r: Run, b: nat, m: nat, before: State, attempts: nat, unmarkable: set<Token>, listed: set<Token>, failed: set<Token>, i: nat, p: Id)
    requires Valid(r) && b <= m < |r.states| && listed == r.states[m].deltas.Keys
    requires var s := r.states[|r.states| - 1];
      && p in s.passes && Onward(r.states[m], before, p) && Onward(before, s, p) && HeldOrGone(before, s.passes[p].held, r.states[m].deltas, listed)
      && listed <= s.once.Keys && failed <= s.passes[p].held.Keys <= listed
      && forall t | t in s.passes[p].held.Keys - failed :: NotStored(s, t, s.passes[p].held[t])
    requires m <= i && forall t | t in failed - unmarkable :: Rewritten(r, i, t, r.states[m].nextGen)
    ensures ApplyReported(r, b, m, |r.states| - 1, attempts, unmarkable, Report(listed, true, failed, false, false))
  {
    var s := r.states[|r.states| - 1];
    RunDated(r, m);
    StaysHeldOrGone(r.states[m], before, s, s.passes[p].held, listed, p);
    forall t | t in failed - unmarkable ensures Rewritten(r, m, t, r.states[m].nextGen) {
      assert Rewritten(r, i, t, r.states[m].nextGen);
    }
  }

  /** A report on the deltas is worth the same later. */
  lemma ApplyStays(r: Run, r': Run, w: Times, attempts: nat, unmarkable: set<Token>, report: Report, report': Report)
    requires w.began <= w.listed <= w.finished < |r.states| && r.states <= r'.states && Valid(r') && report.listed == r.states[w.listed].deltas.Keys
    requires ApplyReported(r, w.began, w.listed, w.finished, attempts, unmarkable, report)
    requires Later(r.states[|r.states| - 1], r'.states[|r'.states| - 1])
    requires report'.listed == report.listed && report'.applied == report.applied && report'.failed == report.failed
    ensures ApplyReported(r', w.began, w.listed, w.finished, attempts, unmarkable, report')
  {
    var m := w.listed;
    if report.applied {
      RunDated(r', m);
      RunDated(r', |r.states| - 1);
      FresherRun(r', m, |r.states| - 1);
      forall t | t in report.failed - unmarkable ensures Rewritten(r', m, t, r.states[m].nextGen) {
        assert Rewritten(r, m, t, r.states[m].nextGen);
      }
    }
  }

  lemma {:induction false} FresherRun(r: Run, a: nat, b: nat)
    requires Valid(r) && a <= b < |r.states|
    ensures Fresher(r.states[a], r.states[b])
  {
    for i := a to b
      invariant Fresher(r.states[a], r.states[i])
    {
      assert StepAt(r, i);
      StepFresher(r.states[i], r.steps[i]);
    }
  }

  lemma StaysNotStored(s: State, s': State, held: map<Token, nat>, tokens: set<Token>, p: Id)
    requires Onward(s, s', p) && tokens <= held.Keys
    requires forall t | t in tokens :: held[t] < s.nextGen && NotStored(s, t, held[t])
    ensures forall t | t in tokens :: NotStored(s', t, held[t])
  {
  }

  lemma StaysRewritten(r: Run, r': Run, i: nat, tokens: set<Token>, g: nat)
    requires r.states <= r'.states && forall t | t in tokens :: Rewritten(r, i, t, g)
    ensures forall t | t in tokens :: Rewritten(r', i, t, g)
  {
    forall t | t in tokens ensures Rewritten(r', i, t, g) {
      assert Rewritten(r, i, t, g);
      var j :| i <= j < |r.states| && t in r.states[j].deltas && g <= r.states[j].deltas[t];
      assert t in r'.states[j].deltas;
    }
  }

  lemma StaysHeldOrNew(s: State, s': State, held: map<Token, nat>, g: nat, p: Id)
    requires Onward(s, s', p) && HeldOrNew(s, held, g)
    ensures HeldOrNew(s', held, g)
  {
  }

  lemma StaysHeldOrGone(s0: State, s: State, s': State, held: map<Token, nat>, tokens: set<Token>, p: Id)
    requires Onward(s0, s, p) && Onward(s, s', p) && Dated(s0) && tokens <= s0.deltas.Keys && HeldOrGone(s, held, s0.deltas, tokens)
    ensures HeldOrGone(s', held, s0.deltas, tokens)
  {
  }

  /** Of the deltas listed, those not held are not stored any more. */
  predicate HeldOrGone(s: State, held: map<Token, nat>, listed: map<Token, nat>, tokens: set<Token>) {
    forall t | t in tokens && t in listed :: (t in held && held[t] == listed[t]) || NotStored(s, t, listed[t])
  }

  /** What is stored of the tokens held is what was read, or was written later. */
  predicate HeldOrNew(s: State, held: map<Token, nat>, g: nat) {
    g <= s.nextGen && forall t | t in held && t in s.deltas :: s.deltas[t] == held[t] || g <= s.deltas[t]
  }

  lemma ListedNow(s: State, p: Id)
    requires p in s.passes
    ensures var s' := Next(s, List(p));
      && s' == s.(passes := s'.passes) && Onward(s, s', p) && Compacting(s', p) && ShownOrYoung(s', p)
      && s'.passes[p].listing == Some(Listing(s.deltas.Keys, s.now))
    ensures var s' := Next(s, ListFails(p));
      && s' == s.(passes := s'.passes) && Onward(s, s', p) && Compacting(s', p)
      && s'.passes[p].listing == Some(Listing({}, s.now)) && (Timely(s, ListFails(p)) ==> ShownOrYoung(s', p))
  {
  }

  lemma NoneOld(applied: map<Token, nat>, listing: set<Token>, at: nat)
    requires Compactable(applied, listing, at) == {}
    ensures forall t | t in applied :: t in listing || at < applied[t] + Retention
  {
    forall t | t in applied ensures t in listing || at < applied[t] + Retention {
      assert t !in Compactable(applied, listing, at);
    }
  }

  lemma CompactOnward(s: State, p: Id, at: nat)
    requires Enabled(s, Compact(p, at))
    ensures Onward(s, Next(s, Compact(p, at)), p)
  {
  }

  /** p has listed the deltas, no longer than the margin ago. */
  predicate Compacting(s: State, p: Id) {
    p in s.passes && s.passes[p].listing.Some? && s.now <= s.passes[p].listing.value.at + s.margin
  }

  /** Every stored delta is in the listing, not applied, or applied not long ago. */
  predicate ShownOrYoung(s: State, p: Id) {
    && p in s.passes && s.passes[p].listing.Some?
    && forall t | t in s.deltas && t in s.once && t !in s.passes[p].listing.value.tokens ::
         s.passes[p].listing.value.at + s.margin < s.once[t] + Retention
  }

  /** What was stored at the listing is not dropped: the listing shows it, or it is too young. */
  lemma StoredStays(listed: State, s: State, p: Id, removed: set<Token>)
    requires Relied(listed, s, PassOf(p)) && ShownOrYoung(listed, p) && removed !! listed.passes[p].listing.value.tokens
    requires removed != {} ==> LeaseOf(s, p)
    requires forall t | t in removed :: t in s.once && s.once[t] + Retention <= listed.passes[p].listing.value.at + s.margin
    ensures removed !! listed.deltas.Keys
  {
    forall t | t in removed ensures t !in listed.deltas {
      assert LeaseOf(s, p) && t in s.once && t in listed.once;
    }
  }

  /** What a timely compaction drops is applied, old and not stored. */
  lemma ForgottenGone(r: Run, n: nat, l: Step)
    requires Valid(r) && AllTimely(r) && n < |r.states| && l.Compact? && Enabled(r.states[n], l) && Timely(r.states[n], l)
    ensures var s := r.states[n];
      forall t | t in Compactable(s.applied, s.passes[l.pass].listing.value.tokens, l.at) ::
        t in s.once && t !in s.deltas && s.once[t] + Retention <= s.now
  {
    ExactlyOnce(r, n);
    var s := r.states[n];
    forall t | t in Compactable(s.applied, s.passes[l.pass].listing.value.tokens, l.at)
      ensures t in s.once && t !in s.deltas && s.once[t] + Retention <= s.now
    {
      CompactGone(s, l.pass, l.at, t);
    }
  }

  lemma {:induction false} GoneIsMarked(r: Run, a: nat, b: nat, t: Token)
    requires Valid(r) && AllTimely(r) && a <= b < |r.states| && t in r.states[a].deltas
    ensures t in r.states[b].deltas || t in r.states[b].once
    decreases b
  {
    if a < b {
      GoneIsMarked(r, a, b - 1, t);
      ExactlyOnce(r, b - 1);
      assert StepAt(r, b - 1);
    }
  }

  /** Lists the tokens that are held and not applied, and adds their deltas to the stats. */
  method SumPending(held: map<Token, nat>, applied: map<Token, nat>, committed: map<Token, Stats>, stats: Stats)
    returns (order: seq<Token>, sum: Stats)
    ensures Orders(order, held.Keys - applied.Keys) && sum == AddAll(stats, order, committed)
  {
    order, sum := [], stats;
    var rest := held.Keys;
    while rest != {}
      invariant rest <= held.Keys && Orders(order, held.Keys - applied.Keys - rest)
      invariant sum == AddAll(stats, order, committed)
    {
      var t :| t in rest;
      if t !in applied {
        ghost var before := order;
        assert t !in Members(before);
        MembersMore(before, t);
        order := order + [t];
        assert order[..|order| - 1] == before;
        sum := Add(sum, DeltaOf(committed, t));
      }
      rest := rest - {t};
    }
  }

  lemma {:induction false} SameSum(stats: Stats, order: seq<Token>, deltas: map<Token, Stats>, deltas': map<Token, Stats>)
    requires forall t | t in order :: t in deltas && t in deltas' && deltas'[t] == deltas[t]
    ensures AddAll(stats, order, deltas') == AddAll(stats, order, deltas)
  {
    if order != [] {
      SameSum(stats, order[..|order| - 1], deltas, deltas');
    }
  }

  lemma AllKnown(r: Run, n: nat, p: Id)
    requires Valid(r) && AllTimely(r) && n < |r.states| && p in r.states[n].passes
    ensures r.states[n].passes[p].held.Keys <= r.states[n].committed.Keys
    ensures r.states[n].applied.Keys <= r.states[n].once.Keys
  {
    ExactlyOnce(r, n);
  }
}
