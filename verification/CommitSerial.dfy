/** Serializability of the commit protocol, one transaction and one key at a time: whoever
    insists on the generation of what it read, as every rename does, acts on the value that is
    visible at its commit; a lease does the same for a key that only lease holders write. */
module CommitSerial {
  import opened Wrappers
  import opened CommitModel
  import opened CommitInvariant
  import opened CommitTheorems

  ghost predicate FromInit(r: Run) {
    ValidRun(r) && Init(r.states[0])
  }

  // ---- A read that is insisted on ----

  /** While it can still decide, a client that prepared k under a generation check has read the
      value last committed. */
  ghost predicate CheckedCurrent(s: State, t: TxId, k: Key) {
    t in s.clients && k in s.clients[t].checked && Live(s, t) ==>
      k in s.clients[t].seen && s.clients[t].seen[k] == Ver(s, k)
  }

  /** Two transactions cannot both have a live pending value on a key. */
  lemma CheckedSpares(s: State, tx: TxId, t: TxId, k: Key)
    requires CanCommit(s, tx) && TimelyRename(s, Commit(tx)) && tx != t && t in s.clients
    requires ClientInv(s, tx) && ClientInv(s, t) && k in s.clients[t].checked && Live(s, t)
    ensures k !in s.clients[tx].writes
  {
    assert Live(s, tx);
  }

  lemma StepVersion(s: State, l: Step, k: Key)
    requires Enabled(s, l)
    ensures Ver(Apply(s, l), k) ==
            Ver(s, k) + (if l.Commit? && k in s.clients[l.tx].writes then 1 else 0)
  {
  }

  lemma StepLive(s: State, l: Step, t: TxId)
    requires Enabled(s, l) && ManifestsOk(s) && t in s.clients && DecisionOk(s, t)
    ensures t in Apply(s, l).clients
    ensures Live(Apply(s, l), t) ==> Live(s, t)
  {
    if l.Commit? || l.Abort? || l.Expire? || l.Mark? || l.Journal? || l.Unlist? || l.Plan? || l.Begin? {
      StepUndecided(s, l, t);
    }
  }

  lemma StepUndecided(s: State, l: Step, t: TxId)
    requires Enabled(s, l) && ManifestsOk(s) && t in s.clients && DecisionOk(s, t)
    ensures Decision(Apply(s, l), t).None? ==> Decision(s, t).None?
    ensures HasStatus(Apply(s, l), t, Preparing) ==> HasStatus(s, t, Preparing)
  {
  }

  /** No step of its own but a preparation makes a key one that is insisted on. */
  lemma StepChecked(s: State, l: Step, t: TxId, k: Key)
    requires Enabled(s, l) && t in Apply(s, l).clients && (t in s.clients ==> ClientOk(s, t))
    requires k in Apply(s, l).clients[t].checked && l != Prepare(t, k, true)
    ensures t in s.clients && k in s.clients[t].checked
    ensures l != Read(t, k) && (k in s.clients[t].seen ==> k in Apply(s, l).clients[t].seen && Apply(s, l).clients[t].seen[k] == s.clients[t].seen[k])
  {
  }

  lemma StepCheckedCurrent(s: State, l: Step, t: TxId, k: Key)
    requires CoreInv(s) && Enabled(s, l) && TimelyRename(s, l) && CheckedCurrent(s, t, k)
    ensures CheckedCurrent(Apply(s, l), t, k)
  {
    var s' := Apply(s, l);
    if t in s'.clients && k in s'.clients[t].checked && Live(s', t) && l != Prepare(t, k, true) {
      assert t in s.clients ==> ClientInv(s, t);
      StepChecked(s, l, t, k);
      StepLive(s, l, t);
      StepVersion(s, l, k);
      if l.Commit? {
        assert ClientInv(s, l.tx);
        CommitEndsLife(s, l.tx);
        CheckedSpares(s, l.tx, t, k);
      }
    }
  }

  lemma CommitEndsLife(s: State, tx: TxId)
    requires CanCommit(s, tx)
    ensures !Live(DoCommit(s, tx), tx)
  {
  }

  lemma {:induction false} RunChecked(r: Run, i: nat, t: TxId, k: Key)
    requires FromInit(r) && i < |r.states|
    ensures CheckedCurrent(r.states[i], t, k)
  {
    if i > 0 {
      RunChecked(r, i - 1, t, k);
      RunInv(r, i - 1);
      assert StepAt(r, i - 1);
      StepCheckedCurrent(r.states[i - 1], r.steps[i - 1], t, k);
    }
  }

  // ---- From version counts back to the run ----

  lemma {:induction false} VersionKept(r: Run, a: nat, b: nat, k: Key)
    requires ValidRun(r) && a <= b < |r.states|
    ensures Ver(r.states[a], k) <= Ver(r.states[b], k)
    ensures Ver(r.states[a], k) == Ver(r.states[b], k) ==>
              forall i | a <= i < b && r.steps[i].Commit? && r.steps[i].tx in r.states[i].clients ::
                k !in r.states[i].clients[r.steps[i].tx].writes
  {
    if a < b {
      VersionKept(r, a, b - 1, k);
      assert StepAt(r, b - 1);
      StepVersion(r.states[b - 1], r.steps[b - 1], k);
    }
  }

  lemma {:induction false} SameVersionSameValue(r: Run, a: nat, b: nat, k: Key)
    requires ValidRun(r) && a <= b < |r.states| && Ver(r.states[a], k) == Ver(r.states[b], k)
    ensures Visible(r.states[a], k) == Visible(r.states[b], k)
  {
    if a < b {
      VersionKept(r, a, b - 1, k);
      VersionKept(r, b - 1, b, k);
      SameVersionSameValue(r, a, b - 1, k);
      RunInv(r, b - 1);
      assert StepAt(r, b - 1);
      AtomicVisibility(r.states[b - 1], r.steps[b - 1], k);
    }
  }

  lemma StepSeen(s: State, l: Step, t: TxId, k: Key)
    requires Enabled(s, l) && t in Apply(s, l).clients && k in Apply(s, l).clients[t].seen
    ensures || l == Read(t, k)
            || (t in s.clients && k in s.clients[t].seen && s.clients[t].seen[k] == Apply(s, l).clients[t].seen[k])
    ensures l == Read(t, k) ==> Apply(s, l).clients[t].seen[k] == Ver(s, k)
  {
  }

  /** The read that a client's knowledge of k comes from. */
  lemma {:induction false} ReadOf(r: Run, i: nat, t: TxId, k: Key) returns (a: nat)
    requires ValidRun(r) && r.states[0].clients == map[] && i < |r.states|
    requires t in r.states[i].clients && k in r.states[i].clients[t].seen
    ensures a < i && r.steps[a] == Read(t, k) && Ver(r.states[a], k) == r.states[i].clients[t].seen[k]
    ensures forall j | a < j < i :: r.steps[j] != Read(t, k)
  {
    assert StepAt(r, i - 1);
    StepSeen(r.states[i - 1], r.steps[i - 1], t, k);
    a := i - 1;
    if r.steps[i - 1] != Read(t, k) {
      a := ReadOf(r, i - 1, t, k);
    }
  }

  /** The client read k at a, and not again before i. */
  ghost predicate LastRead(r: Run, a: nat, i: nat, t: TxId, k: Key) {
    a < i <= |r.steps| && r.steps[a] == Read(t, k) && forall j | a < j < i :: r.steps[j] != Read(t, k)
  }

  ghost predicate Writes(r: Run, j: nat, k: Key)
    requires |r.states| == |r.steps| + 1 && j < |r.steps|
  {
    r.steps[j].Commit? && r.steps[j].tx in r.states[j].clients && k in r.states[j].clients[r.steps[j].tx].writes
  }

  /** Nobody committed k from a up to i. */
  ghost predicate Unwritten(r: Run, a: nat, i: nat, k: Key)
    requires |r.states| == |r.steps| + 1
  {
    a <= i <= |r.steps| && forall j | a <= j < i :: !Writes(r, j, k)
  }

  lemma SameVersionUnwritten(r: Run, a: nat, i: nat, k: Key)
    requires ValidRun(r) && a <= i <= |r.steps| && Ver(r.states[a], k) == Ver(r.states[i], k)
    ensures Unwritten(r, a, i, k)
  {
    VersionKept(r, a, i, k);
  }

  lemma {:induction false} UnwrittenVersion(r: Run, a: nat, i: nat, k: Key)
    requires ValidRun(r) && Unwritten(r, a, i, k)
    ensures Ver(r.states[i], k) == Ver(r.states[a], k)
  {
    if a < i {
      assert Unwritten(r, a, i - 1, k) && !Writes(r, i - 1, k);
      UnwrittenVersion(r, a, i - 1, k);
      assert StepAt(r, i - 1);
      StepVersion(r.states[i - 1], r.steps[i - 1], k);
    }
  }

  /** A key that nobody commits shows the same value all along. */
  lemma UnwrittenVisible(r: Run, a: nat, i: nat, k: Key)
    requires ValidRun(r) && Unwritten(r, a, i, k)
    ensures forall j | a <= j <= i :: Visible(r.states[j], k) == Visible(r.states[a], k)
  {
    forall j | a <= j <= i ensures Visible(r.states[j], k) == Visible(r.states[a], k) {
      assert Unwritten(r, a, j, k);
      UnwrittenVersion(r, a, j, k);
      SameVersionSameValue(r, a, j, k);
    }
  }

  /** Whoever insists on the generation of k commits on the value it read: nobody has committed
      k since. It is enough that renames decide in time. */
  lemma CheckedActsOnCurrent(r: Run, i: nat, tx: TxId, k: Key) returns (a: nat)
    requires FromInit(r) && i < |r.steps| && r.steps[i] == Commit(tx)
    requires tx in r.states[i].clients && k in r.states[i].clients[tx].checked
    ensures LastRead(r, a, i, tx, k) && Unwritten(r, a, i, k)
  {
    RunInv(r, i);
    assert StepAt(r, i);
    assert ClientInv(r.states[i], tx);
    assert Live(r.states[i], tx);
    RunChecked(r, i, tx, k);
    a := ReadOf(r, i, tx, k);
    SameVersionUnwritten(r, a, i, k);
  }

  /** A rename insists on every key it read. */
  lemma RenameChecks(r: Run, i: nat, tx: TxId)
    requires FromInit(r) && i < |r.steps| && r.steps[i] == Commit(tx) && tx in r.states[i].clients && r.states[i].clients[tx].rename
    ensures r.states[i].clients[tx].checked == r.states[i].clients[tx].seen.Keys == r.states[i].clients[tx].writes.Keys
  {
    RunInv(r, i);
    assert StepAt(r, i);
    assert ClientInv(r.states[i], tx);
  }

  /** So renames lose no update, whatever else commits in the run. */
  lemma RenameActsOnCurrent(r: Run, i: nat, tx: TxId, k: Key) returns (a: nat)
    requires FromInit(r) && i < |r.steps| && r.steps[i] == Commit(tx)
    requires tx in r.states[i].clients && r.states[i].clients[tx].rename && k in r.states[i].clients[tx].seen
    ensures LastRead(r, a, i, tx, k) && Unwritten(r, a, i, k)
  {
    RenameChecks(r, i, tx);
    a := CheckedActsOnCurrent(r, i, tx, k);
  }

  // ---- A read that a lease protects ----

  /** t holds an unexpired lease on k. */
  ghost predicate InTimeOn(s: State, t: TxId, k: Key) {
    && t in s.clients && !s.clients[t].rename && ResourceOf(k).Some?
    && ResourceOf(k).value in s.clients[t].held && s.now < s.clients[t].held[ResourceOf(k).value].until
  }

  /** Since t has read k, only holders of an unexpired lease on k have committed it. */
  ghost predicate LeftToHolders(r: Run, i: nat, t: TxId, k: Key)
    requires |r.states| == |r.steps| + 1
  {
    i <= |r.steps| && forall j | 0 <= j < i && t in r.states[j].clients && k in r.states[j].clients[t].seen && Writes(r, j, k) ::
      InTimeOn(r.states[j], r.steps[j].tx, k)
  }

  lemma StepKeepsHeld(s: State, l: Step, t: TxId, res: Resource)
    requires Enabled(s, l) && t in s.clients && res in s.clients[t].held && t in Apply(s, l).clients
    ensures Apply(s, l).clients[t].phase != Done ==>
              res in Apply(s, l).clients[t].held && Apply(s, l).clients[t].held[res] == s.clients[t].held[res]
  {
  }

  lemma {:induction false} HeldStays(r: Run, a: nat, j: nat, t: TxId, res: Resource)
    requires ValidRun(r) && a <= j < |r.states| && t in r.states[a].clients && res in r.states[a].clients[t].held
    ensures t in r.states[j].clients
    ensures r.states[j].clients[t].phase != Done ==>
              res in r.states[j].clients[t].held && r.states[j].clients[t].held[res] == r.states[a].clients[t].held[res]
  {
    if a < j {
      HeldStays(r, a, j - 1, t, res);
      assert StepAt(r, j - 1);
      StepWritesKept(r.states[j - 1], r.steps[j - 1], t);
      if r.states[j].clients[t].phase != Done {
        StepBasics(r.states[j - 1], r.steps[j - 1], t);
        StepKeepsHeld(r.states[j - 1], r.steps[j - 1], t, res);
      }
    }
  }

  /** Two running clients never hold an unexpired lease on one key. */
  lemma OneHolder(r: Run, j: nat, t: TxId, u: TxId, k: Key)
    requires ValidRun(r) && j < |r.states| && InTimeOn(r.states[j], t, k) && InTimeOn(r.states[j], u, k)
    requires r.states[j].clients[t].phase != Done && r.states[j].clients[u].phase != Done
    ensures t == u
  {
    HolderIsStored(r, j, t, ResourceOf(k).value);
    HolderIsStored(r, j, u, ResourceOf(k).value);
  }

  lemma ReadUnderLease(r: Run, a: nat, t: TxId, k: Key)
    requires ValidRun(r) && a < |r.steps| && r.steps[a] == Read(t, k) && t in r.states[a].clients && !r.states[a].clients[t].rename
    ensures ResourceOf(k).Some? && ResourceOf(k).value in r.states[a].clients[t].held
    ensures t in r.states[a + 1].clients && k in r.states[a + 1].clients[t].seen && r.states[a + 1].clients[t].held == r.states[a].clients[t].held
  {
    assert StepAt(r, a);
  }

  lemma NotYetDone(r: Run, j: nat, i: nat, tx: TxId)
    requires ValidRun(r) && j <= i < |r.steps| && r.steps[i] == Commit(tx) && tx in r.states[j].clients
    ensures tx in r.states[i].clients && r.states[j].clients[tx].phase != Done && (j < i ==> r.steps[j] != Commit(tx))
  {
    assert StepAt(r, i) && StepAt(r, j);
    DoneStays(r, j, i, tx);
    if j < i && r.steps[j] == Commit(tx) {
      DoneStays(r, j + 1, i, tx);
    }
  }

  lemma {:induction false} SeenStays(r: Run, a: nat, j: nat, t: TxId, k: Key)
    requires ValidRun(r) && a <= j < |r.states| && t in r.states[a].clients && k in r.states[a].clients[t].seen
    ensures t in r.states[j].clients && k in r.states[j].clients[t].seen
  {
    if a < j {
      SeenStays(r, a, j - 1, t, k);
      assert StepAt(r, j - 1);
      StepKeepsSeen(r.states[j - 1], r.steps[j - 1], t, k);
    }
  }

  lemma StepKeepsSeen(s: State, l: Step, t: TxId, k: Key)
    requires Enabled(s, l) && t in s.clients && k in s.clients[t].seen
    ensures t in Apply(s, l).clients && k in Apply(s, l).clients[t].seen
  {
  }

  /** A commit by another holder in between is impossible. */
  lemma HolderKeepsOut(r: Run, a: nat, j: nat, i: nat, tx: TxId, k: Key)
    requires ValidRun(r) && a < j < i < |r.steps| && r.steps[i] == Commit(tx) && r.steps[a] == Read(tx, k)
    requires InTimeOn(r.states[i], tx, k) && tx in r.states[a].clients && !r.states[a].clients[tx].rename
    requires Writes(r, j, k)
    ensures !InTimeOn(r.states[j], r.steps[j].tx, k)
  {
    ReadUnderLease(r, a, tx, k);
    var res := ResourceOf(k).value;
    HeldStays(r, a, j, tx, res);
    HeldStays(r, a, i, tx, res);
    NotYetDone(r, j, i, tx);
    NotYetDone(r, i, i, tx);
    DoneStays(r, j, i, tx);
    ClientKept(r, a, j, tx);
    assert StepAt(r, j);
    if InTimeOn(r.states[j], r.steps[j].tx, k) {
      OneHolder(r, j, tx, r.steps[j].tx, k);
    }
  }

  /** A leased transaction that does not insist on k commits on the value it read, if its own
      lease on k has not run out and only holders of an unexpired one committed k meanwhile. */
  lemma LeasedActsOnCurrent(r: Run, i: nat, tx: TxId, k: Key) returns (a: nat)
    requires FromInit(r) && i < |r.steps| && r.steps[i] == Commit(tx)
    requires tx in r.states[i].clients && k in r.states[i].clients[tx].seen
    requires InTimeOn(r.states[i], tx, k) && LeftToHolders(r, i, tx, k)
    ensures LastRead(r, a, i, tx, k) && Unwritten(r, a, i, k)
  {
    a := ReadOf(r, i, tx, k);
    assert StepAt(r, a);
    ClientKept(r, a, i, tx);
    ReadUnderLease(r, a, tx, k);
    forall j | a <= j < i ensures !Writes(r, j, k) {
      if a < j && Writes(r, j, k) {
        SeenStays(r, a + 1, j, tx, k);
        HolderKeepsOut(r, a, j, i, tx, k);
      }
    }
  }

  // ---- Both together ----

  /** What a committing transaction can know to be safe of a key it read: it insisted on its
      generation, or its lease is unexpired and the key was left to lease holders. */
  ghost predicate Guarded(r: Run, i: nat, tx: TxId, k: Key)
    requires |r.states| == |r.steps| + 1 && i < |r.steps|
  {
    && tx in r.states[i].clients && k in r.states[i].clients[tx].seen
    && (k in r.states[i].clients[tx].checked || (InTimeOn(r.states[i], tx, k) && LeftToHolders(r, i, tx, k)))
  }

  /** The transaction that commits at i read k at a, and nobody has committed k since. */
  lemma CommitActsOnCurrent(r: Run, i: nat, tx: TxId, k: Key) returns (a: nat)
    requires FromInit(r) && i < |r.steps| && r.steps[i] == Commit(tx) && Guarded(r, i, tx, k)
    ensures LastRead(r, a, i, tx, k) && Unwritten(r, a, i, k)
    ensures forall j | a <= j <= i :: Visible(r.states[j], k) == Visible(r.states[a], k)
  {
    if k in r.states[i].clients[tx].checked {
      a := CheckedActsOnCurrent(r, i, tx, k);
    } else {
      a := LeasedActsOnCurrent(r, i, tx, k);
    }
    UnwrittenVisible(r, a, i, k);
  }

  /** No update is lost: of two commits on a key, the second read it after the first. */
  lemma NoLostUpdate(r: Run, i: nat, j: nat, first: TxId, second: TxId, k: Key) returns (a: nat)
    requires FromInit(r) && i < j < |r.steps|
    requires r.steps[i] == Commit(first) && r.steps[j] == Commit(second)
    requires first in r.states[i].clients && k in r.states[i].clients[first].writes && Guarded(r, j, second, k)
    ensures i < a < j && r.steps[a] == Read(second, k)
  {
    a := CommitActsOnCurrent(r, j, second, k);
    assert Writes(r, i, k);
  }

  // ---- Leases ----

  lemma StepHeld(s: State, l: Step, t: TxId, res: Resource)
    requires Enabled(s, l) && t in Apply(s, l).clients && res in Apply(s, l).clients[t].held
    ensures || (l.Acquire? && l.tx == t && l.resource == res)
            || (t in s.clients && res in s.clients[t].held && s.clients[t].held[res] == Apply(s, l).clients[t].held[res])
  {
  }

  /** The step that took a lease a client holds, and that it has held since. */
  lemma {:induction false} AcquireOf(r: Run, i: nat, t: TxId, res: Resource) returns (a: nat)
    requires ValidRun(r) && r.states[0].clients == map[] && i < |r.states|
    requires t in r.states[i].clients && res in r.states[i].clients[t].held
    ensures a < i && r.steps[a].Acquire? && r.steps[a].tx == t && r.steps[a].resource == res
    ensures forall j | a < j <= i :: t in r.states[j].clients && res in r.states[j].clients[t].held
                                     && r.states[j].clients[t].held[res] == r.states[i].clients[t].held[res]
  {
    assert StepAt(r, i - 1);
    StepHeld(r.states[i - 1], r.steps[i - 1], t, res);
    a := i - 1;
    if !(r.steps[i - 1].Acquire? && r.steps[i - 1].tx == t && r.steps[i - 1].resource == res) {
      a := AcquireOf(r, i - 1, t, res);
    }
  }

  lemma StepBasics(s: State, l: Step, t: TxId)
    requires Enabled(s, l)
    ensures s.now <= Apply(s, l).now
    ensures t in s.clients && s.clients[t].phase == Done ==> Apply(s, l).clients[t].phase == Done
  {
  }

  lemma {:induction false} DoneStays(r: Run, a: nat, b: nat, t: TxId)
    requires ValidRun(r) && a <= b < |r.states| && t in r.states[a].clients
    ensures t in r.states[b].clients && r.states[a].now <= r.states[b].now
    ensures r.states[a].clients[t].phase == Done ==> r.states[b].clients[t].phase == Done
  {
    if a < b {
      DoneStays(r, a, b - 1, t);
      assert StepAt(r, b - 1);
      StepWritesKept(r.states[b - 1], r.steps[b - 1], t);
      StepBasics(r.states[b - 1], r.steps[b - 1], t);
    }
  }

  /** An unexpired lease of a running client is the one lease stored for the resource. */
  lemma HolderIsStored(r: Run, i: nat, t: TxId, res: Resource)
    requires ValidRun(r) && i < |r.states| && t in r.states[i].clients
    requires res in r.states[i].clients[t].held && r.states[i].clients[t].phase != Done
    requires r.states[i].now < r.states[i].clients[t].held[res].until
    ensures res in r.states[i].leases && r.states[i].leases[res].data.owner == t
  {
    RunInv(r, i);
    assert ClientInv(r.states[i], t);
  }

  /** Leased transactions that share a resource and commit before their lease on it runs out
      follow one another: the later one to commit took its lease only after the earlier one had committed. */
  lemma LeaseholdersFollow(r: Run, i: nat, j: nat, first: TxId, second: TxId, res: Resource) returns (a: nat)
    requires FromInit(r) && i < j < |r.steps| && first != second
    requires r.steps[i] == Commit(first) && r.steps[j] == Commit(second)
    requires first in r.states[i].clients && !r.states[i].clients[first].rename && res in r.states[i].clients[first].held
    requires second in r.states[j].clients && !r.states[j].clients[second].rename && res in r.states[j].clients[second].held
    requires r.states[i].now < r.states[i].clients[first].held[res].until && r.states[j].now < r.states[j].clients[second].held[res].until
    ensures i < a < j && r.steps[a].Acquire? && r.steps[a].tx == second && r.steps[a].resource == res
  {
    a := AcquireOf(r, j, second, res);
    assert StepAt(r, i) && StepAt(r, j);
    if a < i {
      DoneStays(r, i, j, second);
      HolderIsStored(r, i, first, res);
      HolderIsStored(r, i, second, res);
    }
  }

  /** A late release leaves a lease that somebody else has taken since. */
  lemma LateRelease(s: State, t: TxId, res: Resource)
    requires CanRelease(s, t, res) && LeasesOk(s, t)
    ensures forall q | q in s.leases && (q != res || s.leases[q].data.owner != t) ::
              q in DoRelease(s, t, res).leases && DoRelease(s, t, res).leases[q] == s.leases[q]
  {
  }
}
