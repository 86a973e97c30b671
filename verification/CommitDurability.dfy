/** When a committed rename can be lost. The code never compares its clock with the lease again
    before it decides, so renames may decide at any time here: in time the commit is durable,
    whatever follows; too late it can be dropped by recovery, before the decision or after. */
module CommitDurability {
  import opened Wrappers
  import opened CommitModel
  import opened CommitInvariant
  import opened CommitTheorems
  import opened CommitSerial
  import opened CommitLimits

  /** More than the slack is left of the lease inside the pending values; of a leased transaction
      recovery drops nothing before it has aborted. */
  predicate DecidesInTime(s: State, tx: TxId) {
    tx in s.clients && (s.clients[tx].rename ==> s.now + s.slack < s.clients[tx].until)
  }

  // ---- In time: nothing but another commit of the key changes what was committed ----

  lemma StepInPlace(s: State, l: Step, k: Key)
    requires CoreInv(s) && Enabled(s, l) && PendingInTime(s, k)
    requires !(l.Commit? && k in s.clients[l.tx].writes)
    ensures PendingInTime(Apply(s, l), k)
  {
    var p := EnvAt(Apply(s, l), k).pending;
    if p.Some? && p.value.tx in s.clients {
      assert ClientInv(s, p.value.tx);
      StepPlace(s, l, k);
      StepStaysInTime(s, l, p.value.tx);
    }
  }

  /** A pending value was there before, or it is the one just prepared by a client at work. */
  lemma StepPlace(s: State, l: Step, k: Key)
    requires Enabled(s, l) && EnvAt(Apply(s, l), k).pending.Some?
    ensures EnvAt(s, k).pending == EnvAt(Apply(s, l), k).pending || InPhase(s, EnvAt(Apply(s, l), k).pending.value.tx, Planned)
  {
  }

  lemma StepStaysInTime(s: State, l: Step, t: TxId)
    requires ManifestsOk(s) && t in s.clients && ClientOk(s, t) && DecisionOk(s, t) && Enabled(s, l) && l != Commit(t)
    requires InTime(s, t) || s.clients[t].phase == Planned
    ensures t in Apply(s, l).clients && InTime(Apply(s, l), t)
  {
    StepCommitted(s, l, t);
    StepStamp(s, l, t);
  }

  lemma StepStamp(s: State, l: Step, t: TxId)
    requires t in s.clients && Enabled(s, l) && l != Commit(t)
    ensures t in Apply(s, l).clients && Apply(s, l).clients[t].rename == s.clients[t].rename && Apply(s, l).slack == s.slack
    ensures Apply(s, l).clients[t].decidedAt == s.clients[t].decidedAt && Apply(s, l).clients[t].until == s.clients[t].until
  {
  }

  lemma CommitInPlace(s: State, tx: TxId, k: Key)
    requires CoreInv(s) && Enabled(s, Commit(tx)) && k in s.clients[tx].writes && DecidesInTime(s, tx)
    ensures Visible(DoCommit(s, tx), k) == s.clients[tx].writes[k] && PendingInTime(DoCommit(s, tx), k)
  {
    OwnPlace(s, tx, k);
    CommitStamped(s, tx, k);
  }

  lemma CommitStamped(s: State, tx: TxId, k: Key)
    requires CanCommit(s, tx) && DecidesInTime(s, tx) && k in s.clients[tx].writes
    requires EnvAt(s, k).pending == Some(Pending(tx, s.clients[tx].writes[k], s.clients[tx].until))
    ensures Visible(DoCommit(s, tx), k) == s.clients[tx].writes[k] && PendingInTime(DoCommit(s, tx), k)
  {
  }

  /** Nobody else commits k after step i. */
  ghost predicate LastCommit(r: Run, i: nat, tx: TxId, k: Key) {
    && |r.states| == |r.steps| + 1 && i < |r.steps| && r.steps[i] == Commit(tx)
    && tx in r.states[i].clients && k in r.states[i].clients[tx].writes
    && Unwritten(r, i + 1, |r.steps|, k)
  }

  /** What commits in time stays visible until somebody commits the key again: however late other
      renames decide, and whatever recovery drops. */
  lemma {:induction false} InTimeSurvives(r: Run, i: nat, j: nat, tx: TxId, k: Key)
    requires LooseRun(r) && LastCommit(r, i, tx, k) && DecidesInTime(r.states[i], tx) && i < j < |r.states|
    ensures Visible(r.states[j], k) == r.states[i].clients[tx].writes[k] && PendingInTime(r.states[j], k)
  {
    if j == i + 1 {
      CommitAt(r, i, tx, k);
    } else {
      InTimeSurvives(r, i, j - 1, tx, k);
      assert !Writes(r, j - 1, k);
      SurvivesAt(r, j - 1, k);
    }
  }

  lemma CommitAt(r: Run, i: nat, tx: TxId, k: Key)
    requires LooseRun(r) && i < |r.steps| && r.steps[i] == Commit(tx) && DecidesInTime(r.states[i], tx)
    requires tx in r.states[i].clients && k in r.states[i].clients[tx].writes
    ensures Visible(r.states[i + 1], k) == r.states[i].clients[tx].writes[k] && PendingInTime(r.states[i + 1], k)
  {
    LooseCore(r, i);
    assert LooseStep(r, i);
    CommitInPlace(r.states[i], tx, k);
  }

  lemma SurvivesAt(r: Run, i: nat, k: Key)
    requires LooseRun(r) && i < |r.steps| && !Writes(r, i, k) && PendingInTime(r.states[i], k)
    ensures PendingInTime(r.states[i + 1], k) && Visible(r.states[i + 1], k) == Visible(r.states[i], k)
  {
    LooseCore(r, i);
    assert LooseStep(r, i);
    StepSurvives(r.states[i], r.steps[i], k);
  }

  lemma StepSurvives(s: State, l: Step, k: Key)
    requires CoreInv(s) && Enabled(s, l) && PendingInTime(s, k)
    requires !(l.Commit? && l.tx in s.clients && k in s.clients[l.tx].writes)
    ensures PendingInTime(Apply(s, l), k) && Visible(Apply(s, l), k) == Visible(s, k)
  {
    StepInPlace(s, l, k);
    VisibleStep(s, l, k);
  }

  // ---- Too late: there is a continuation in which it is lost ----

  /** What recovery needs to drop a rename that decides late. */
  lemma LateDropped(s: State, tx: TxId, k: Key, later: nat)
    requires CanCommit(s, tx) && s.clients[tx].rename && !DecidesInTime(s, tx)
    requires EnvAt(s, k).pending.Some? && EnvAt(s, k).pending.value.tx == tx && s.now <= later && s.clients[tx].until <= later
    ensures var c := Apply(DoCommit(s, tx), Tick(later));
            && CanDiscard(c, k)
            && Visible(DoDiscard(c, k), k) == Visible(s, k)
  {
  }

  /** A pending value that is no longer in place is not made visible by the commit. */
  lemma LateUnseen(s: State, tx: TxId, k: Key)
    requires CanCommit(s, tx) && (EnvAt(s, k).pending.Some? ==> EnvAt(s, k).pending.value.tx != tx)
    ensures Visible(DoCommit(s, tx), k) == Visible(s, k)
  {
  }

  predicate NotCommit(l: Step) {
    !l.Commit?
  }

  lemma CommitsLast(r: Run, r': Run, tx: TxId, k: Key)
    requires |r.states| == |r.steps| + 1 && tx in Last(r).clients && k in Last(r).clients[tx].writes
    requires r.states <= r'.states && r.steps + [Commit(tx)] <= r'.steps && |r'.states| == |r'.steps| + 1
    requires forall i | |r.steps| < i < |r'.steps| :: NotCommit(r'.steps[i])
    ensures LastCommit(r', |r.steps|, tx, k)
  {
    forall i | |r.steps| < i < |r'.steps| ensures !Writes(r', i, k) {
      assert NotCommit(r'.steps[i]);
    }
  }

  lemma LateUnseenRun(r: Run, tx: TxId, k: Key) returns (r': Run)
    requires LooseRun(r) && CanCommit(Last(r), tx) && k in Last(r).clients[tx].writes
    requires EnvAt(Last(r), k).pending.Some? ==> EnvAt(Last(r), k).pending.value.tx != tx
    ensures LooseRun(r') && r.states <= r'.states && r'.steps == r.steps + [Commit(tx)]
    ensures Visible(Last(r'), k) == Visible(Last(r), k)
  {
    LateUnseen(Last(r), tx, k);
    r' := Extend(r, Commit(tx));
  }

  lemma LateDroppedRun(r: Run, tx: TxId, k: Key, later: nat) returns (r': Run)
    requires LooseRun(r) && CanCommit(Last(r), tx) && Last(r).clients[tx].rename && !DecidesInTime(Last(r), tx)
    requires EnvAt(Last(r), k).pending.Some? && EnvAt(Last(r), k).pending.value.tx == tx
    requires Last(r).now <= later && Last(r).clients[tx].until <= later
    ensures LooseRun(r') && r.states <= r'.states && r'.steps == r.steps + [Commit(tx), Tick(later), Discard(k)]
    ensures Visible(Last(r'), k) == Visible(Last(r), k)
  {
    LateDropped(Last(r), tx, k, later);
    r' := Extend(r, Commit(tx));
    r' := Extend(r', Tick(later));
    r' := Extend(r', Discard(k));
  }

  /** A rename that is about to decide too late may commit and yet lose a value it commits. */
  lemma LateLoses(r: Run, tx: TxId, k: Key) returns (r': Run)
    requires LooseRun(r) && CanCommit(Last(r), tx) && Last(r).clients[tx].rename && k in Last(r).clients[tx].writes
    requires !DecidesInTime(Last(r), tx)
    ensures LooseRun(r') && r.states <= r'.states && r.steps <= r'.steps && LastCommit(r', |r.steps|, tx, k)
    ensures Visible(Last(r'), k) == Visible(Last(r), k)
  {
    var s := Last(r);
    if EnvAt(s, k).pending.Some? && EnvAt(s, k).pending.value.tx == tx {
      r' := LateDroppedRun(r, tx, k, if s.now <= s.clients[tx].until then s.clients[tx].until else s.now);
    } else {
      r' := LateUnseenRun(r, tx, k);
    }
    CommitsLast(r, r', tx, k);
  }

  /** r' goes on from r with the commit of tx, and nobody commits k after it. */
  ghost predicate CommitsNext(r: Run, r': Run, tx: TxId, k: Key) {
    LooseRun(r') && r.states <= r'.states && r.steps <= r'.steps && LastCommit(r', |r.steps|, tx, k)
  }

  /** The exact condition: what a rename is about to commit is durable, in every continuation,
      if and only if more than the slack is left of its lease. */
  lemma DurableIffInTime(r: Run, tx: TxId, k: Key)
    requires LooseRun(r) && CanCommit(Last(r), tx) && Last(r).clients[tx].rename && k in Last(r).clients[tx].writes
    requires Last(r).clients[tx].writes[k] != Visible(Last(r), k)
    ensures DecidesInTime(Last(r), tx) <==>
              forall r' :: CommitsNext(r, r', tx, k) ==> Visible(Last(r'), k) == Last(r).clients[tx].writes[k]
  {
    if DecidesInTime(Last(r), tx) {
      forall r' | CommitsNext(r, r', tx, k) ensures Visible(Last(r'), k) == Last(r).clients[tx].writes[k] {
        InTimeSurvives(r', |r.steps|, |r'.steps|, tx, k);
      }
    } else {
      var r' := LateLoses(r, tx, k);
      assert CommitsNext(r, r', tx, k);
    }
  }

  // ---- Both ways of being late happen ----

  /** From any state with nothing pending on k, a rename of k gets ready and the clock reaches now. */
  lemma ReadyAt(r: Run, u: TxId, k: Key, w: Option<Raw>, until: nat, now: nat) returns (r': Run)
    requires LooseRun(r) && u !in Last(r).clients && EnvAt(Last(r), k).pending.None? && Last(r).now <= now
    ensures LooseRun(r') && r.states <= r'.states && r'.steps == r.steps + RenameSteps(u, k, w, until) + [Tick(now)]
    ensures CanCommit(Last(r'), u) && Last(r').clients[u].rename && Last(r').clients[u].writes == map[k := w] && Last(r').clients[u].until == until
    ensures EnvAt(Last(r'), k).pending == Some(Pending(u, w, until)) && Visible(Last(r'), k) == Visible(Last(r), k)
    ensures Last(r').now == now && Last(r').slack == Last(r).slack
  {
    NoDecisionYet(r, u);
    r' := RenameGetsReady(r, u, k, w, until);
    assert CanCommit(Last(r'), u);
    r' := Extend(r', Tick(now));
  }

  lemma LateShows(s: State, u: TxId, k: Key, w: Option<Raw>, until: nat)
    requires CanCommit(s, u) && EnvAt(s, k).pending == Some(Pending(u, w, until))
    ensures Visible(Apply(s, Commit(u)), k) == w
  {
  }

  /** Dropped after the decision: recovery looks for it while the rename has at most the slack
      left of its lease, the rename commits and shows its value, and the value is then dropped. */
  lemma DroppedAfter(r: Run, u: TxId, k: Key, w: Option<Raw>, until: nat, now: nat) returns (r': Run)
    requires LooseRun(r) && u !in Last(r).clients && EnvAt(Last(r), k).pending.None?
    requires Last(r).now <= now < until <= now + Last(r).slack
    ensures LooseRun(r') && r.states <= r'.states
    ensures r'.steps == r.steps + RenameSteps(u, k, w, until) + [Tick(now)] + [Commit(u), Tick(until), Discard(k)]
    ensures Visible(r'.states[|r.steps| + 6], k) == w && Visible(Last(r'), k) == Visible(Last(r), k)
  {
    var r1 := ReadyAt(r, u, k, w, until, now);
    r' := LateDroppedRun(r1, u, k, until);
    LateShows(Last(r1), u, k, w, until);
    assert LooseStep(r', |r1.steps|);
  }

  /** Dropped before the decision: the lease runs out, recovery drops the value, and the rename
      commits all the same. */
  lemma DroppedBefore(r: Run, u: TxId, k: Key, w: Option<Raw>, until: nat) returns (r': Run)
    requires LooseRun(r) && u !in Last(r).clients && EnvAt(Last(r), k).pending.None? && Last(r).now <= until
    ensures LooseRun(r') && r.states <= r'.states
    ensures r'.steps == r.steps + RenameSteps(u, k, w, until) + [Tick(until)] + [Discard(k), Commit(u)]
    ensures HasStatus(Last(r'), u, Committed) && Visible(Last(r'), k) == Visible(Last(r), k)
  {
    var r1 := ReadyAt(r, u, k, w, until, until);
    var s := Last(r1);
    assert CanDiscard(s, k) && CanCommit(DoDiscard(s, k), u);
    r' := Extend(r1, Discard(k));
    r' := Extend(r', Commit(u));
  }
}
