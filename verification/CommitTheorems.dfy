/** What the commit protocol guarantees over every run: values become visible only at a
    commit and all at once, decisions are final and never missed, reads are linearizable,
    and lease holders never overlap. */
module CommitTheorems {
  import opened Wrappers
  import opened CommitModel
  import opened CommitInvariant

  /** A run: any interleaving of the steps of all clients, readers and recovery. A client
      that crashes is one that takes no further step. */
  datatype Run = Run(states: seq<State>, steps: seq<Step>)

  function Last(r: Run): State
    requires |r.states| == |r.steps| + 1
  {
    r.states[|r.steps|]
  }

  ghost predicate ValidRun(r: Run) {
    && |r.states| == |r.steps| + 1
    && Inv(r.states[0])
    && forall i | 0 <= i < |r.steps| :: StepAt(r, i)
  }

  ghost predicate StepAt(r: Run, i: nat)
    requires |r.states| == |r.steps| + 1 && i < |r.steps|
  {
    && Enabled(r.states[i], r.steps[i])
    && TimelyRename(r.states[i], r.steps[i])
    && r.states[i + 1] == Apply(r.states[i], r.steps[i])
  }

  lemma {:induction false} RunInv(r: Run, i: nat)
    requires ValidRun(r) && i < |r.states|
    ensures Inv(r.states[i])
  {
    if i > 0 {
      RunInv(r, i - 1);
      assert StepAt(r, i - 1);
      StepInv(r.states[i - 1], r.steps[i - 1]);
    }
  }

  // ---- Atomic visibility ----

  lemma CommitVisible(s: State, tx: TxId, k: Key)
    requires PendingKnown(s) && CanCommit(s, tx) && ClientInv(s, tx)
    requires s.clients[tx].rename && k in s.clients[tx].writes ==> s.now + s.slack < s.clients[tx].until
    ensures Visible(DoCommit(s, tx), k) ==
            (if k in s.clients[tx].writes then s.clients[tx].writes[k] else Visible(s, k))
  {
  }

  /** Only its own commit makes a transaction committed, and nothing undoes it. */
  lemma StepCommitted(s: State, l: Step, tx: TxId)
    requires ManifestsOk(s) && tx in s.clients && DecisionOk(s, tx) && Enabled(s, l)
    ensures HasStatus(Apply(s, l), tx, Committed) <==> HasStatus(s, tx, Committed) || l == Commit(tx)
  {
  }

  lemma StepEnvelope(s: State, l: Step, k: Key)
    requires Enabled(s, l)
    ensures !(l.Prepare? || l.Promote? || l.Discard?) || l.key != k ==> EnvAt(Apply(s, l), k) == EnvAt(s, k)
  {
  }

  lemma QuietVisible(s: State, l: Step, k: Key)
    requires CoreInv(s) && Enabled(s, l) && !l.Commit?
    requires l.Prepare? || l.Promote? || l.Discard? ==> l.key != k
    ensures Visible(Apply(s, l), k) == Visible(s, k)
  {
    StepEnvelope(s, l, k);
    var p := EnvAt(s, k).pending;
    if p.Some? {
      assert ClientInv(s, p.value.tx);
      StepCommitted(s, l, p.value.tx);
    }
  }

  lemma PrepareVisible(s: State, tx: TxId, k: Key, checked: bool)
    requires CanPrepare(s, tx, k, checked) && DecisionOk(s, tx)
    ensures Visible(DoPrepare(s, tx, k, checked), k) == Visible(s, k)
  {
  }

  lemma DiscardVisible(s: State, k: Key)
    requires CanDiscard(s, k) && DecisionOk(s, EnvAt(s, k).pending.value.tx) && InTime(s, EnvAt(s, k).pending.value.tx)
    ensures Visible(DoDiscard(s, k), k) == Visible(s, k)
  {
  }

  /** No rename that committed too late is still pending on k. */
  ghost predicate PendingInTime(s: State, k: Key) {
    var p := EnvAt(s, k).pending;
    p.Some? && p.value.tx in s.clients ==> InTime(s, p.value.tx)
  }

  /** A value changes at a commit only, and there to what that transaction planned: even when
      renames of other keys decide too late. */
  lemma VisibleStep(s: State, l: Step, k: Key)
    requires CoreInv(s) && Enabled(s, l) && PendingInTime(s, k)
    requires l.Commit? && k in s.clients[l.tx].writes ==> TimelyRename(s, l)
    ensures Visible(Apply(s, l), k) ==
            (if l.Commit? && k in s.clients[l.tx].writes then s.clients[l.tx].writes[k] else Visible(s, k))
  {
    if l.Commit? {
      assert ClientInv(s, l.tx);
      CommitVisible(s, l.tx, k);
    } else if l.Prepare? && l.key == k {
      assert ClientInv(s, l.tx);
      PrepareVisible(s, l.tx, k, l.checked);
    } else if l.Discard? && l.key == k {
      assert ClientInv(s, EnvAt(s, k).pending.value.tx);
      DiscardVisible(s, k);
    } else if !(l.Promote? && l.key == k) {
      QuietVisible(s, l, k);
    }
  }

  /** Every value changes at a commit only, and there to what that transaction planned. */
  lemma AtomicVisibility(s: State, l: Step, k: Key)
    requires Inv(s) && Enabled(s, l) && TimelyRename(s, l)
    ensures Visible(Apply(s, l), k) ==
            (if l.Commit? && k in s.clients[l.tx].writes then s.clients[l.tx].writes[k] else Visible(s, k))
  {
    VisibleStep(s, l, k);
  }

  /** One after the other: the committed writes applied to a plain map, in commit order. */
  function Write(m: map<Key, Raw>, writes: map<Key, Option<Raw>>): map<Key, Raw> {
    map k | k in m.Keys + writes.Keys && (if k in writes then writes[k].Some? else true) ::
      if k in writes then writes[k].value else m[k]
  }

  /** The visible store after a step, had the step been a whole transaction. */
  function AfterStep(s: State, l: Step): map<Key, Raw> {
    if l.Commit? && l.tx in s.clients then Write(VisibleMap(s), s.clients[l.tx].writes) else VisibleMap(s)
  }

  function Serial(r: Run, n: nat): map<Key, Raw>
    requires |r.states| == |r.steps| + 1 && n < |r.states|
  {
    if n == 0 then VisibleMap(r.states[0])
    else
      var before := Serial(r, n - 1);
      match r.steps[n - 1]
      case Commit(tx) =>
        if tx in r.states[n - 1].clients then Write(before, r.states[n - 1].clients[tx].writes) else before
      case _ => before
  }

  lemma SerialStepAt(s: State, l: Step, k: Key)
    requires Inv(s) && Enabled(s, l) && TimelyRename(s, l)
    ensures k in VisibleMap(Apply(s, l)) <==> k in AfterStep(s, l)
    ensures k in AfterStep(s, l) ==> VisibleMap(Apply(s, l))[k] == AfterStep(s, l)[k]
  {
    AtomicVisibility(s, l, k);
    VisibleMapAt(s, k);
    VisibleMapAt(Apply(s, l), k);
  }

  lemma SerialStep(r: Run, i: nat)
    requires ValidRun(r) && i < |r.steps|
    ensures VisibleMap(r.states[i + 1]) == AfterStep(r.states[i], r.steps[i])
  {
    var m, w := VisibleMap(r.states[i + 1]), AfterStep(r.states[i], r.steps[i]);
    forall k
      ensures k in m <==> k in w
      ensures k in w ==> m[k] == w[k]
    {
      RunInv(r, i);
      assert StepAt(r, i);
      SerialStepAt(r.states[i], r.steps[i], k);
    }
  }

  /** The visible store of any run is the one reached by running its committed
      transactions one at a time, each in a single step. */
  lemma {:induction false} RunIsSerial(r: Run, n: nat)
    requires ValidRun(r) && n < |r.states|
    ensures VisibleMap(r.states[n]) == Serial(r, n)
  {
    if n > 0 {
      RunIsSerial(r, n - 1);
      SerialStep(r, n - 1);
    }
  }

  lemma VisibleMapAt(s: State, k: Key)
    ensures k in VisibleMap(s) <==> Visible(s, k).Some?
    ensures k in VisibleMap(s) ==> VisibleMap(s)[k] == Visible(s, k).value
  {
  }

  // ---- Decisions are final ----

  lemma StepFinal(s: State, l: Step, tx: TxId, status: Status)
    requires ManifestsOk(s) && tx in s.clients && DecisionOk(s, tx) && Enabled(s, l)
    requires status != Preparing && HasStatus(s, tx, status)
    ensures HasStatus(Apply(s, l), tx, status)
  {
  }

  /** Once committed always committed, once aborted always aborted. */
  lemma {:induction false} DecisionFinal(r: Run, i: nat, j: nat, tx: TxId, status: Status)
    requires ValidRun(r) && i <= j < |r.states|
    requires status != Preparing && HasStatus(r.states[i], tx, status)
    ensures HasStatus(r.states[j], tx, status)
  {
    if i < j {
      DecisionFinal(r, i, j - 1, tx, status);
      RunInv(r, j - 1);
      assert StepAt(r, j - 1);
      assert ClientInv(r.states[j - 1], tx);
      StepFinal(r.states[j - 1], r.steps[j - 1], tx, status);
    }
  }

  lemma StepArchive(s: State, l: Step, tx: TxId)
    requires Enabled(s, l) && tx in s.clients
    ensures tx in s.journal ==> tx in Apply(s, l).journal && Apply(s, l).journal[tx] == s.journal[tx]
    ensures tx in s.active && tx !in Apply(s, l).active ==> tx in s.journal
    ensures tx !in s.active && tx in s.journal ==> tx !in Apply(s, l).active
  {
  }

  lemma {:induction false} JournalKept(r: Run, a: nat, b: nat, tx: TxId)
    requires ValidRun(r) && a <= b < |r.states| && tx in r.states[a].journal
    ensures tx in r.states[b].journal && r.states[b].journal[tx] == r.states[a].journal[tx]
  {
    if a < b {
      JournalKept(r, a, b - 1, tx);
      RunInv(r, b - 1);
      assert StepAt(r, b - 1);
      StepArchive(r.states[b - 1], r.steps[b - 1], tx);
    }
  }

  /** A reader that looks at the active manifest at one instant and at the journal at a
      later one: what it finds. */
  function Looked(r: Run, a: nat, b: nat, tx: TxId): Option<Manifest>
    requires a < |r.states| && b < |r.states|
  {
    if tx in r.states[a].active then Some(r.states[a].active[tx].data)
    else if tx in r.states[b].journal then Some(r.states[b].journal[tx])
    else None
  }

  /** Whatever else runs between its two looks, a reader finds every decision that had been
      made, and finds no decision that is not made by then. */
  lemma DecisionNeverMissed(r: Run, i: nat, a: nat, b: nat, tx: TxId, status: Status)
    requires ValidRun(r) && i <= a <= b < |r.states| && status != Preparing
    ensures HasStatus(r.states[i], tx, status) ==>
              Looked(r, a, b, tx).Some? && Looked(r, a, b, tx).value.status == status
    ensures Looked(r, a, b, tx).Some? && Looked(r, a, b, tx).value.status == status ==>
              HasStatus(r.states[b], tx, status)
  {
    RunInv(r, a);
    RunInv(r, b);
    if HasStatus(r.states[i], tx, status) {
      DecisionFinal(r, i, a, tx, status);
      if tx in r.states[a].journal {
        JournalKept(r, a, b, tx);
      }
    }
    if tx in r.states[a].active && r.states[a].active[tx].data.status == status {
      DecisionFinal(r, a, b, tx, status);
    }
  }

  /** A leased transaction is found at every instant, so a missing decision means a rename. */
  lemma LeasedAlwaysFound(r: Run, a: nat, b: nat, tx: TxId)
    requires ValidRun(r) && a <= b < |r.states|
    requires tx in r.states[a].clients && !r.states[a].clients[tx].rename
    ensures Looked(r, a, b, tx).Some?
  {
    RunInv(r, a);
    assert ClientInv(r.states[a], tx);
    if tx in r.states[a].journal {
      JournalKept(r, a, b, tx);
    }
  }

  // ---- Linearizable reads ----

  lemma StepWritesKept(s: State, l: Step, tx: TxId)
    requires Enabled(s, l) && tx in s.clients
    ensures tx in Apply(s, l).clients
    ensures s.clients[tx].rename == Apply(s, l).clients[tx].rename
    ensures s.clients[tx].until == Apply(s, l).clients[tx].until
    ensures s.clients[tx].phase != Building ==> Apply(s, l).clients[tx].writes == s.clients[tx].writes
    ensures s.clients[tx].phase != Building ==> Apply(s, l).clients[tx].seen == s.clients[tx].seen
    ensures s.clients[tx].phase != Building ==> Apply(s, l).clients[tx].phase != Building
    ensures s.clients[tx].phase == Done ==> Apply(s, l).clients[tx].phase == Done
  {
  }

  lemma {:induction false} WritesKept(r: Run, a: nat, b: nat, tx: TxId)
    requires ValidRun(r) && a <= b < |r.states|
    requires tx in r.states[a].clients && r.states[a].clients[tx].phase != Building
    ensures tx in r.states[b].clients && r.states[b].clients[tx].writes == r.states[a].clients[tx].writes
    ensures r.states[b].clients[tx].seen == r.states[a].clients[tx].seen
    ensures r.states[b].clients[tx].phase != Building
  {
    if a < b {
      WritesKept(r, a, b - 1, tx);
      RunInv(r, b - 1);
      assert StepAt(r, b - 1);
      StepWritesKept(r.states[b - 1], r.steps[b - 1], tx);
    }
  }

  lemma {:induction false} ClientKept(r: Run, a: nat, b: nat, tx: TxId)
    requires ValidRun(r) && a <= b < |r.states| && tx in r.states[a].clients
    ensures tx in r.states[b].clients
    ensures r.states[b].clients[tx].rename == r.states[a].clients[tx].rename
    ensures r.states[b].clients[tx].until == r.states[a].clients[tx].until
  {
    if a < b {
      ClientKept(r, a, b - 1, tx);
      assert StepAt(r, b - 1);
      StepWritesKept(r.states[b - 1], r.steps[b - 1], tx);
    }
  }

  lemma CommittedHere(r: Run, i: nat, tx: TxId)
    requires ValidRun(r) && i < |r.steps| && tx in r.states[i].clients
    requires !HasStatus(r.states[i], tx, Committed) && HasStatus(r.states[i + 1], tx, Committed)
    ensures r.steps[i] == Commit(tx)
  {
    RunInv(r, i);
    assert StepAt(r, i);
    assert ClientInv(r.states[i], tx);
    StepCommitted(r.states[i], r.steps[i], tx);
  }

  /** The commit of a transaction that is undecided at a and committed at b. */
  lemma {:induction false} CommitBetween(r: Run, a: nat, b: nat, tx: TxId) returns (i: nat)
    requires ValidRun(r) && a <= b < |r.states| && tx in r.states[a].clients
    requires !HasStatus(r.states[a], tx, Committed) && HasStatus(r.states[b], tx, Committed)
    ensures a <= i < b && r.steps[i] == Commit(tx)
  {
    i := b - 1;
    if HasStatus(r.states[i], tx, Committed) {
      i := CommitBetween(r, a, b - 1, tx);
    } else {
      ClientKept(r, a, i, tx);
      CommittedHere(r, i, tx);
    }
  }

  /** A transaction's commit makes visible what it had planned when last seen. */
  lemma CommitShows(r: Run, a: nat, n: nat, tx: TxId, k: Key)
    requires ValidRun(r) && a <= n < |r.steps| && r.steps[n] == Commit(tx)
    requires tx in r.states[a].clients && r.states[a].clients[tx].phase != Building
    requires k in r.states[a].clients[tx].writes
    ensures Visible(r.states[n + 1], k) == r.states[a].clients[tx].writes[k]
  {
    WritesKept(r, a, n, tx);
    RunInv(r, n);
    assert StepAt(r, n);
    AtomicVisibility(r.states[n], r.steps[n], k);
  }

  lemma PendingOf(r: Run, a: nat, k: Key)
    requires ValidRun(r) && a < |r.states| && EnvAt(r.states[a], k).pending.Some?
    ensures
      var p := EnvAt(r.states[a], k).pending.value;
      && p.tx in r.states[a].clients
      && r.states[a].clients[p.tx].phase != Building
      && k in r.states[a].clients[p.tx].writes
      && p.write == r.states[a].clients[p.tx].writes[k]
  {
    RunInv(r, a);
    assert ClientInv(r.states[a], EnvAt(r.states[a], k).pending.value.tx);
  }

  /** What a reader returns that loads the envelope at a, looks for the active manifest at b
      and for the journal at c. */
  function Observed(r: Run, a: nat, b: nat, c: nat, k: Key): Option<Raw>
    requires a < |r.states| && b < |r.states| && c < |r.states|
  {
    var e := EnvAt(r.states[a], k);
    if e.pending.None? then e.current
    else
      var d := Looked(r, b, c, e.pending.value.tx);
      if d.Some? && d.value.status == Committed then e.pending.value.write else e.current
  }

  /** Every read returns the value that was visible at one instant inside the read. */
  lemma ReadLinearizable(r: Run, a: nat, b: nat, c: nat, k: Key) returns (i: nat)
    requires ValidRun(r) && a <= b <= c < |r.states|
    ensures a <= i <= c && Visible(r.states[i], k) == Observed(r, a, b, c, k)
  {
    i := a;
    var p := EnvAt(r.states[a], k).pending;
    if p.Some? {
      var tx := p.value.tx;
      DecisionNeverMissed(r, a, b, c, tx, Committed);
      var d := Looked(r, b, c, tx);
      if d.Some? && d.value.status == Committed && !HasStatus(r.states[a], tx, Committed) {
        PendingOf(r, a, k);
        var n := CommitBetween(r, a, c, tx);
        CommitShows(r, a, n, tx, k);
        i := n + 1;
      }
    }
  }
}
