/** Where a lease ends protecting: whenever somebody who does not hold the lease commits a key
    that a leased transaction has read, that transaction may go on and overwrite the commit. */
module CommitLimits {
  import opened Wrappers
  import opened CommitModel
  import opened CommitInvariant
  import opened CommitTheorems
  import opened CommitSerial

  /** A run in which renames may decide at any time. */
  ghost predicate LooseRun(r: Run) {
    && |r.states| == |r.steps| + 1
    && Init(r.states[0])
    && forall i | 0 <= i < |r.steps| :: LooseStep(r, i)
  }

  ghost predicate LooseStep(r: Run, i: nat)
    requires |r.states| == |r.steps| + 1 && i < |r.steps|
  {
    Enabled(r.states[i], r.steps[i]) && r.states[i + 1] == Apply(r.states[i], r.steps[i])
  }

  lemma {:induction false} LooseCore(r: Run, i: nat)
    requires LooseRun(r) && i < |r.states|
    ensures CoreInv(r.states[i])
  {
    if i == 0 {
      InitInv(r.states[0]);
    } else {
      LooseCore(r, i - 1);
      assert LooseStep(r, i - 1);
      StepCore(r.states[i - 1], r.steps[i - 1]);
    }
  }

  lemma TimelyIsLoose(r: Run)
    requires FromInit(r)
    ensures LooseRun(r)
  {
    forall i | 0 <= i < |r.steps| ensures LooseStep(r, i) {
      assert StepAt(r, i);
    }
  }

  /** One more step. */
  lemma Extend(r: Run, l: Step) returns (r': Run)
    requires LooseRun(r) && Enabled(Last(r), l)
    ensures LooseRun(r') && r'.states == r.states + [Apply(Last(r), l)] && r'.steps == r.steps + [l]
    ensures FromInit(r) && TimelyRename(Last(r), l) ==> FromInit(r')
  {
    r' := Run(r.states + [Apply(Last(r), l)], r.steps + [l]);
    forall i | 0 <= i < |r'.steps| ensures LooseStep(r', i) {
      if i < |r.steps| {
        assert LooseStep(r, i);
      }
    }
    if FromInit(r) && TimelyRename(Last(r), l) {
      forall i | 0 <= i < |r'.steps| ensures StepAt(r', i) {
        if i < |r.steps| {
          assert StepAt(r, i);
        }
      }
    }
  }

  // ---- A leased reader overwrites ----

  /** t has read k under a lease that has not run out, and is still building. */
  ghost predicate Builds(s: State, t: TxId, k: Key) {
    InPhase(s, t, Building) && ActivePreparing(s, t) && k in s.clients[t].seen && InTimeOn(s, t, k)
  }

  lemma OwnPlace(s: State, u: TxId, k: Key)
    requires CoreInv(s) && CanCommit(s, u) && TimelyRename(s, Commit(u)) && k in s.clients[u].writes
    ensures EnvAt(s, k).pending == Some(Pending(u, s.clients[u].writes[k], s.clients[u].until))
  {
    assert ClientInv(s, u);
    assert Live(s, u);
  }

  /** A commit of somebody else leaves the reader as it is. */
  lemma CommitLeavesReader(s: State, u: TxId, t: TxId, k: Key)
    requires Builds(s, t, k) && u != t && CanCommit(s, u) && k in s.clients[u].writes
    requires EnvAt(s, k).pending == Some(Pending(u, s.clients[u].writes[k], s.clients[u].until))
    ensures var s' := DoCommit(s, u);
            && Builds(s', t, k) && s'.clients[t] == s.clients[t] && Visible(s', k) == s.clients[u].writes[k] && MayOverwrite(s', t, k)
  {
  }

  lemma ReaderPlans(s: State, t: TxId, k: Key, w: Option<Raw>)
    requires Builds(s, t, k)
    ensures CanPlan(s, t, map[k := w])
    ensures var s' := DoPlan(s, t, map[k := w], [k], true);
            && InPhase(s', t, Planned) && ActivePreparing(s', t) && InTimeOn(s', t, k)
            && s'.clients[t] == s.clients[t].(writes := map[k := w], phase := Planned, participants := [k])
            && Visible(s', k) == Visible(s, k) && (MayOverwrite(s, t, k) ==> MayOverwrite(s', t, k))
  {
  }

  lemma ReaderPrepares(s: State, t: TxId, k: Key)
    requires InPhase(s, t, Planned) && ActivePreparing(s, t) && InTimeOn(s, t, k) && MayOverwrite(s, t, k)
    requires s.clients[t].writes.Keys == {k} && s.clients[t].prepared == {}
    ensures CanPrepare(s, t, k, false)
    ensures var s' := DoPrepare(s, t, k, false);
            && CanCommit(s', t) && InTimeOn(s', t, k) && Visible(s', k) == Visible(s, k)
            && Visible(DoCommit(s', t), k) == s.clients[t].writes[k]
  {
  }

  /** The steps by which t replaces what u commits. */
  function Overwrite(u: TxId, t: TxId, k: Key, w: Option<Raw>): seq<Step> {
    [Commit(u), Plan(t, map[k := w], [k], true)] + [Prepare(t, k, false), Commit(t)]
  }

  lemma CommitThenPlan(r: Run, u: TxId, t: TxId, k: Key, w: Option<Raw>) returns (r': Run)
    requires FromInit(r) && LooseRun(r) && Builds(Last(r), t, k) && u != t && Last(r).clients[t].prepared == {}
    requires CanCommit(Last(r), u) && TimelyRename(Last(r), Commit(u)) && k in Last(r).clients[u].writes
    requires EnvAt(Last(r), k).pending == Some(Pending(u, Last(r).clients[u].writes[k], Last(r).clients[u].until))
    ensures FromInit(r') && LooseRun(r') && r.states <= r'.states && r'.steps == r.steps + [Commit(u), Plan(t, map[k := w], [k], true)]
    ensures Visible(r'.states[|r.steps| + 1], k) == Last(r).clients[u].writes[k] == Visible(Last(r'), k)
    ensures var s := Last(r');
            && InPhase(s, t, Planned) && ActivePreparing(s, t) && InTimeOn(s, t, k) && MayOverwrite(s, t, k)
            && !s.clients[t].rename && s.clients[t].writes == map[k := w] && s.clients[t].prepared == {}
  {
    CommitLeavesReader(Last(r), u, t, k);
    r' := Extend(r, Commit(u));
    ReaderPlans(Last(r'), t, k, w);
    r' := Extend(r', Plan(t, map[k := w], [k], true));
  }

  lemma PrepareThenCommit(r: Run, t: TxId, k: Key, w: Option<Raw>) returns (r': Run)
    requires FromInit(r) && LooseRun(r)
    requires InPhase(Last(r), t, Planned) && ActivePreparing(Last(r), t) && InTimeOn(Last(r), t, k) && MayOverwrite(Last(r), t, k)
    requires Last(r).clients[t].writes == map[k := w] && Last(r).clients[t].prepared == {}
    ensures FromInit(r') && r.states <= r'.states && r'.steps == r.steps + [Prepare(t, k, false), Commit(t)]
    ensures InTimeOn(r'.states[|r.steps| + 1], t, k) && Visible(Last(r'), k) == w
  {
    ReaderPrepares(Last(r), t, k);
    r' := Extend(r, Prepare(t, k, false));
    r' := Extend(r', Commit(t));
  }

  lemma ReadyToOverwrite(r: Run, u: TxId, t: TxId, k: Key)
    requires FromInit(r) && InPhase(Last(r), t, Building)
    requires CanCommit(Last(r), u) && TimelyRename(Last(r), Commit(u)) && k in Last(r).clients[u].writes
    ensures LooseRun(r) && Last(r).clients[t].prepared == {}
    ensures EnvAt(Last(r), k).pending == Some(Pending(u, Last(r).clients[u].writes[k], Last(r).clients[u].until))
  {
    TimelyIsLoose(r);
    LooseCore(r, |r.steps|);
    OwnPlace(Last(r), u, k);
    NothingPrepared(Last(r), t);
  }

  lemma OverwriteRuns(r: Run, u: TxId, t: TxId, k: Key, w: Option<Raw>) returns (r': Run)
    requires FromInit(r) && Builds(Last(r), t, k) && u != t
    requires CanCommit(Last(r), u) && TimelyRename(Last(r), Commit(u)) && k in Last(r).clients[u].writes
    ensures FromInit(r') && r.states <= r'.states && r'.steps == r.steps + Overwrite(u, t, k, w)
    ensures InTimeOn(r'.states[|r.steps| + 3], t, k)
    ensures Visible(r'.states[|r.steps| + 1], k) == Last(r).clients[u].writes[k] && Visible(Last(r'), k) == w
  {
    ReadyToOverwrite(r, u, t, k);
    var r1 := CommitThenPlan(r, u, t, k, w);
    r' := PrepareThenCommit(r1, t, k, w);
  }

  lemma ReadBefore(r: Run, r': Run, u: TxId, t: TxId, k: Key, w: Option<Raw>) returns (a: nat)
    requires FromInit(r) && t in Last(r).clients && k in Last(r).clients[t].seen && u in Last(r).clients && k in Last(r).clients[u].writes
    requires r.states <= r'.states && r'.steps == r.steps + Overwrite(u, t, k, w) && |r'.states| == |r'.steps| + 1
    ensures LastRead(r', a, |r.steps| + 3, t, k) && a < |r.steps| && !Unwritten(r', a, |r.steps| + 3, k)
  {
    a := ReadOf(r, |r.steps|, t, k);
    assert Writes(r', |r.steps|, k);
  }

  /** The lease protects a key only as far as everybody else leaves it to lease holders: from any
      state in which t has read k and somebody is about to commit it, t can go on to commit over
      it without having looked again, both of them in time and t inside its lease. */
  lemma StaleContinuation(r: Run, u: TxId, t: TxId, k: Key, w: Option<Raw>) returns (r': Run, a: nat)
    requires FromInit(r) && Builds(Last(r), t, k) && u != t
    requires CanCommit(Last(r), u) && TimelyRename(Last(r), Commit(u)) && k in Last(r).clients[u].writes
    ensures FromInit(r') && r.states <= r'.states && r'.steps == r.steps + Overwrite(u, t, k, w)
    ensures InTimeOn(r'.states[|r.steps| + 3], t, k) && LastRead(r', a, |r.steps| + 3, t, k) && a < |r.steps|
    ensures Visible(r'.states[|r.steps| + 1], k) == Last(r).clients[u].writes[k] && Visible(Last(r'), k) == w
    ensures !Unwritten(r', a, |r.steps| + 3, k)
  {
    r' := OverwriteRuns(r, u, t, k, w);
    a := ReadBefore(r, r', u, t, k, w);
  }

  lemma NothingPrepared(s: State, t: TxId)
    requires CoreInv(s) && InPhase(s, t, Building)
    ensures s.clients[t].prepared == {}
  {
    assert ClientInv(s, t);
  }

  // ---- and such a state can always be reached ----

  lemma LeasedReads(s: State, t: TxId, k: Key, until: nat)
    requires t !in s.clients && ResourceOf(k).Some? && s.now < until
    requires ResourceOf(k).value in s.leases ==> s.leases[ResourceOf(k).value].data.until <= s.now
    ensures var s1 := DoBegin(s, t, until);
            && CanAcquire(s1, t, ResourceOf(k).value)
            && var s2 := DoAcquire(s1, t, ResourceOf(k).value, until);
              && CanRead(s2, t, k)
              && var s3 := DoRead(s2, t, k);
                && Builds(s3, t, k) && EnvAt(s3, k) == EnvAt(s, k) && s3.now == s.now && s3.slack == s.slack
                && s3.clients.Keys == s.clients.Keys + {t}
  {
  }

  /** A rename of one shard, up to its decision. */
  function RenameSteps(u: TxId, k: Key, w: Option<Raw>, until: nat): seq<Step> {
    [BeginRename(u, until), Read(u, k), Plan(u, map[k := w], [k], true), Prepare(u, k, true)]
  }

  lemma RenamePlans(s: State, u: TxId, k: Key, w: Option<Raw>, until: nat)
    requires u !in s.clients
    ensures var s1 := DoBeginRename(s, u, until);
            && CanRead(s1, u, k)
            && var s2 := DoRead(s1, u, k);
              && CanPlan(s2, u, map[k := w])
              && var s3 := DoPlan(s2, u, map[k := w], [k], true);
                && InPhase(s3, u, Planned) && s3.clients[u] == Client(true, until, map[], map[k := Ver(s3, k)], map[k := w], {}, {}, Planned, 0, [k])
                && s3 == s.(clients := s.clients[u := s3.clients[u]], nextGen := s.nextGen + 1)
  {
  }

  lemma RenamePrepares(s: State, u: TxId, k: Key)
    requires InPhase(s, u, Planned) && EnvAt(s, k).pending.None? && Decision(s, u).None?
    requires k in s.clients[u].writes && s.clients[u].writes.Keys == {k} && s.clients[u].prepared == {} && s.clients[u].rename
    requires k in s.clients[u].seen && s.clients[u].seen[k] == Ver(s, k)
    ensures CanPrepare(s, u, k, true)
    ensures var s' := DoPrepare(s, u, k, true);
            && s'.clients[u] == s.clients[u].(prepared := {k}, checked := s.clients[u].checked + {k})
            && s' == s.(clients := s.clients[u := s'.clients[u]], nextGen := s.nextGen + 1, envelopes := s.envelopes[k := s'.envelopes[k]])
            && k in s'.envelopes && EnvAt(s', k).pending == Some(Pending(u, s.clients[u].writes[k], s.clients[u].until))
            && Visible(s', k) == Visible(s, k)
  {
  }

  lemma NoDecisionYet(r: Run, u: TxId)
    requires LooseRun(r) && u !in Last(r).clients
    ensures u !in Last(r).active && u !in Last(r).journal
  {
    LooseCore(r, |r.steps|);
  }

  lemma RenamePlansRun(r: Run, u: TxId, k: Key, w: Option<Raw>, until: nat) returns (r': Run)
    requires LooseRun(r) && u !in Last(r).clients
    ensures LooseRun(r') && (FromInit(r) ==> FromInit(r'))
    ensures r.states <= r'.states && r'.steps == r.steps + RenameSteps(u, k, w, until)[..3]
    ensures u in Last(r').clients && Last(r').clients[u] == Client(true, until, map[], map[k := Ver(Last(r'), k)], map[k := w], {}, {}, Planned, 0, [k])
    ensures Last(r') == Last(r).(clients := Last(r).clients[u := Last(r').clients[u]], nextGen := Last(r).nextGen + 1)
  {
    RenamePlans(Last(r), u, k, w, until);
    r' := Extend(r, BeginRename(u, until));
    r' := Extend(r', Read(u, k));
    r' := Extend(r', Plan(u, map[k := w], [k], true));
  }

  /** Nothing stands in the way of a rename of a shard with nothing pending. */
  lemma RenameGetsReady(r: Run, u: TxId, k: Key, w: Option<Raw>, until: nat) returns (r': Run)
    requires LooseRun(r) && u !in Last(r).clients && EnvAt(Last(r), k).pending.None?
    ensures LooseRun(r') && (FromInit(r) ==> FromInit(r'))
    ensures r.states <= r'.states && r'.steps == r.steps + RenameSteps(u, k, w, until)
    ensures u in Last(r').clients && Last(r').clients[u] == Client(true, until, map[], map[k := Ver(Last(r), k)], map[k := w], {k}, {k}, Planned, 0, [k])
    ensures EnvAt(Last(r'), k).pending == Some(Pending(u, w, until)) && Visible(Last(r'), k) == Visible(Last(r), k)
    ensures Last(r') == Last(r).(clients := Last(r).clients[u := Last(r').clients[u]], nextGen := Last(r').nextGen,
                                 envelopes := Last(r').envelopes)
  {
    NoDecisionYet(r, u);
    var r3 := RenamePlansRun(r, u, k, w, until);
    RenamePrepares(Last(r3), u, k);
    r' := Extend(r3, Prepare(u, k, true));
  }

  lemma ReaderStarts(r: Run, t: TxId, k: Key, until: nat) returns (r': Run)
    requires FromInit(r) && LooseRun(r) && t !in Last(r).clients && ResourceOf(k).Some? && Last(r).now < until
    requires ResourceOf(k).value in Last(r).leases ==> Last(r).leases[ResourceOf(k).value].data.until <= Last(r).now
    ensures FromInit(r') && LooseRun(r') && r.states <= r'.states && r'.steps[..|r.steps|] == r.steps && |r'.steps| == |r.steps| + 3
    ensures Builds(Last(r'), t, k) && EnvAt(Last(r'), k) == EnvAt(Last(r), k)
    ensures Last(r').now == Last(r).now && Last(r').slack == Last(r).slack && Last(r').clients.Keys == Last(r).clients.Keys + {t}
  {
    LeasedReads(Last(r), t, k, until);
    r' := Extend(r, Begin(t, until));
    r' := Extend(r', Acquire(t, ResourceOf(k).value, until));
    r' := Extend(r', Read(t, k));
  }

  /** A leased reader of k beside a rename of k that is ready to commit. */
  lemma MixedReady(r: Run, t: TxId, u: TxId, k: Key, w: Option<Raw>, until: nat) returns (r': Run)
    requires FromInit(r) && t !in Last(r).clients && u !in Last(r).clients && t != u
    requires EnvAt(Last(r), k).pending.None? && ResourceOf(k).Some? && Last(r).now + Last(r).slack < until
    requires ResourceOf(k).value in Last(r).leases ==> Last(r).leases[ResourceOf(k).value].data.until <= Last(r).now
    ensures FromInit(r') && r.states <= r'.states && |r'.steps| == |r.steps| + 7 && r'.steps[..|r.steps|] == r.steps
    ensures Builds(Last(r'), t, k) && CanCommit(Last(r'), u) && TimelyRename(Last(r'), Commit(u))
    ensures Last(r').clients[u].writes == map[k := w]
  {
    TimelyIsLoose(r);
    var r1 := ReaderStarts(r, t, k, until);
    NoDecisionYet(r1, u);
    r' := RenameGetsReady(r1, u, k, w, until);
    ReaderStays(Last(r1), Last(r'), u, t, k);
  }

  /** So leased transactions and renames on one shard can lose an update from any state in which
      nothing is pending on the shard and no lease on it is running, the first one included. */
  lemma MixedRunLosesUpdate(r: Run, t: TxId, u: TxId, k: Key, w: Option<Raw>, w': Option<Raw>, until: nat) returns (r': Run, a: nat)
    requires FromInit(r) && t !in Last(r).clients && u !in Last(r).clients && t != u
    requires EnvAt(Last(r), k).pending.None? && ResourceOf(k).Some? && Last(r).now + Last(r).slack < until
    requires ResourceOf(k).value in Last(r).leases ==> Last(r).leases[ResourceOf(k).value].data.until <= Last(r).now
    ensures FromInit(r') && r.states <= r'.states && |r'.steps| == |r.steps| + 11
    ensures LastRead(r', a, |r.steps| + 10, t, k) && r'.steps[|r.steps| + 7] == Commit(u) && r'.steps[|r.steps| + 10] == Commit(t)
    ensures a < |r.steps| + 7 && InTimeOn(r'.states[|r.steps| + 10], t, k)
    ensures Visible(r'.states[|r.steps| + 8], k) == w && Visible(Last(r'), k) == w'
  {
    var r2 := MixedReady(r, t, u, k, w, until);
    r', a := StaleContinuation(r2, u, t, k, w');
    OverwriteAt(r2, r', u, t, k, w', |r.steps| + 7);
  }

  lemma OverwriteAt(r: Run, r': Run, u: TxId, t: TxId, k: Key, w: Option<Raw>, n: nat)
    requires |r.steps| == n && r'.steps == r.steps + Overwrite(u, t, k, w)
    ensures |r'.steps| == n + 4 && r'.steps[n] == Commit(u) && r'.steps[n + 3] == Commit(t)
  {
  }

  lemma ReaderStays(s: State, s': State, u: TxId, t: TxId, k: Key)
    requires Builds(s, t, k) && t in s'.clients && s'.clients[t] == s.clients[t] && s'.active == s.active && s'.journal == s.journal && s'.now == s.now
    requires u !in s.active && u !in s.journal && u in s'.clients && s'.clients[u].rename
    requires s'.clients[u].phase == Planned && s'.clients[u].writes.Keys == s'.clients[u].prepared
    ensures Builds(s', t, k) && CanCommit(s', u)
  {
  }

  // ---- A commit that its client does not hear of ----

  predicate Finishing(l: Step) {
    l.Promote? || l.Mark? || l.Journal? || l.Unlist?
  }

  /** r' continues r with steps of recovery. */
  ghost predicate Finishes(r: Run, r': Run) {
    && FromInit(r') && r.states <= r'.states && r.steps <= r'.steps
    && forall i | |r.steps| <= i < |r'.steps| :: Finishing(r'.steps[i])
  }

  lemma FinishOne(r0: Run, r: Run, l: Step) returns (r': Run)
    requires Finishes(r0, r) && Enabled(Last(r), l) && Finishing(l)
    ensures Finishes(r0, r') && Last(r') == Apply(Last(r), l)
  {
    TimelyIsLoose(r);
    r' := Extend(r, l);
  }

  predicate Holds(s: State, tx: TxId, k: Key) {
    EnvAt(s, k).pending.Some? && EnvAt(s, k).pending.value.tx == tx
  }

  lemma PromoteHolds(s: State, tx: TxId, k: Key, q: Key)
    requires CanPromote(s, k) && Holds(DoPromote(s, k), tx, q)
    ensures q != k && Holds(s, tx, q)
  {
  }

  /** Recovery folds what a committed transaction has left in its participants. */
  lemma {:induction false} Folded(r: Run, tx: TxId, keys: seq<Key>) returns (r': Run)
    requires FromInit(r) && tx in Last(r).active && HasStatus(Last(r), tx, Committed)
    ensures Finishes(r, r') && Last(r').active == Last(r).active && Last(r').journal == Last(r).journal
    ensures forall k | k in keys :: !Holds(Last(r'), tx, k)
    ensures forall k :: Holds(Last(r'), tx, k) ==> Holds(Last(r), tx, k)
    decreases |keys|
  {
    r' := r;
    if keys != [] {
      r' := Folded(r, tx, keys[1..]);
      assert forall k | k in keys :: k == keys[0] || k in keys[1..];
      if Holds(Last(r'), tx, keys[0]) {
        var before := Last(r');
        r' := FinishOne(r, r', Promote(keys[0]));
        forall q | Holds(Last(r'), tx, q) ensures q != keys[0] && Holds(before, tx, q) {
          PromoteHolds(before, tx, keys[0], q);
        }
      }
    }
  }

  lemma NotArchived(r: Run, tx: TxId)
    requires FromInit(r) && ActivePreparing(Last(r), tx)
    ensures tx !in Last(r).journal
  {
    RunInv(r, |r.steps|);
  }

  /** From any state in which a leased transaction can commit, it does, and recovery finishes and
      archives it: a client that has not heard of its own decision no longer finds it listed. */
  lemma UnheardCommit(r: Run, tx: TxId, keys: seq<Key>) returns (r': Run)
    requires FromInit(r) && Enabled(Last(r), Commit(tx)) && !Last(r).clients[tx].rename
    ensures FromInit(r') && r.states <= r'.states && r.steps + [Commit(tx)] <= r'.steps
    ensures forall i | |r.steps| < i < |r'.steps| :: Finishing(r'.steps[i])
    ensures HasStatus(Last(r'), tx, Committed) && tx !in Last(r').active && forall k | k in keys :: !Holds(Last(r'), tx, k)
  {
    TimelyIsLoose(r);
    NotArchived(r, tx);
    var r1 := Extend(r, Commit(tx));
    var r2 := Folded(r1, tx, keys);
    var r3 := FinishOne(r1, r2, Mark(tx));
    var r4 := FinishOne(r1, r3, Journal(tx, Last(r3).active[tx].data));
    r' := FinishOne(r1, r4, Unlist(tx));
  }
}
