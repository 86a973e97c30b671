/** What one process may rely on while others run: facts about a run that stay true between
    two of its own store accesses. */
module CommitRely {
  import opened Wrappers
  import opened CommitModel
  import opened CommitInvariant
  import opened CommitTheorems
  import opened CommitSerial

  /** r1 continues r0, and no client in mine took any of the new steps. */
  ghost predicate Continues(r0: Run, r1: Run, mine: set<TxId>) {
    && r0.states <= r1.states
    && r0.steps <= r1.steps
    && forall i | |r0.steps| <= i < |r1.steps| :: NotBy(r1, i, mine)
  }

  ghost predicate NotBy(r: Run, i: nat, mine: set<TxId>)
    requires i < |r.steps|
  {
    Actor(r.steps[i]).None? || Actor(r.steps[i]).value !in mine
  }

  /** The steps by which a client settles what becomes of its transaction. */
  predicate Settles(l: Step, id: TxId) {
    (l.Plan? || l.Commit? || l.Abort?) && l.tx == id
  }

  /** Neither a read of id nor a step that settles it. */
  ghost predicate QuietStep(r: Run, i: nat, id: TxId)
    requires i < |r.steps|
  {
    !Settles(r.steps[i], id) && (r.steps[i].Read? ==> r.steps[i].tx != id)
  }

  /** r1 continues r0, in which the client id itself has neither read, planned nor decided. */
  ghost predicate Quietly(r0: Run, r1: Run, id: TxId) {
    && r0.states <= r1.states
    && r0.steps <= r1.steps
    && forall i | |r0.steps| <= i < |r1.steps| :: QuietStep(r1, i, id)
  }

  lemma QuietlyContinues(r0: Run, r1: Run, mine: set<TxId>, id: TxId)
    requires Continues(r0, r1, mine) && id in mine && |r1.states| == |r1.steps| + 1
    ensures Quietly(r0, r1, id)
  {
    forall i | |r0.steps| <= i < |r1.steps| ensures QuietStep(r1, i, id) {
      assert NotBy(r1, i, mine);
    }
  }

  lemma QuietlyAll(r0: Run, r1: Run, r2: Run, id: TxId)
    requires Quietly(r0, r1, id) && Quietly(r1, r2, id)
    ensures Quietly(r0, r2, id)
  {
    forall i | |r0.steps| <= i < |r2.steps| ensures QuietStep(r2, i, id) {
      if i < |r1.steps| {
        assert QuietStep(r1, i, id);
      }
    }
  }

  lemma QuietlyOne(r0: Run, r1: Run, r2: Run, id: TxId)
    requires Quietly(r0, r1, id) && r1.states <= r2.states && r1.steps <= r2.steps
    requires |r2.steps| == |r1.steps| + 1 && QuietStep(r2, |r1.steps|, id)
    ensures Quietly(r0, r2, id)
  {
    forall i | |r0.steps| <= i < |r2.steps| ensures QuietStep(r2, i, id) {
      if i < |r1.steps| {
        assert QuietStep(r1, i, id);
      }
    }
  }

  lemma ContinueOne(r0: Run, r1: Run, r2: Run, mine: set<TxId>)
    requires Continues(r0, r1, mine) && |r1.states| == |r1.steps| + 1
    requires r1.states <= r2.states && r1.steps <= r2.steps && |r2.steps| == |r1.steps| + 1
    requires |r2.states| == |r2.steps| + 1 && NotBy(r2, |r1.steps|, mine)
    ensures Continues(r0, r2, mine)
  {
    forall i | |r0.steps| <= i < |r2.steps| ensures NotBy(r2, i, mine) {
      if i < |r1.steps| {
        assert NotBy(r1, i, mine);
      }
    }
  }

  lemma ContinueAll(r0: Run, r1: Run, r2: Run, mine: set<TxId>)
    requires Continues(r0, r1, mine) && Continues(r1, r2, mine) && |r1.states| == |r1.steps| + 1
    ensures Continues(r0, r2, mine)
  {
    forall i | |r0.steps| <= i < |r2.steps| ensures NotBy(r2, i, mine) {
      if i < |r1.steps| {
        assert NotBy(r1, i, mine);
      }
    }
  }

  /** The client id has taken no step since a that settles its transaction. */
  ghost predicate Unsettled(r: Run, a: nat, id: TxId) {
    forall i | a <= i < |r.steps| :: !Settles(r.steps[i], id)
  }

  lemma UnsettledOn(r0: Run, r1: Run, a: nat, id: TxId)
    requires Unsettled(r0, a, id) && r0.steps <= r1.steps && Unsettled(r1, |r0.steps|, id)
    ensures Unsettled(r1, a, id)
  {
    forall i | a <= i < |r1.steps| ensures !Settles(r1.steps[i], id) {
      if i < |r0.steps| {
        assert r1.steps[i] == r0.steps[i];
      }
    }
  }

  lemma QuietlyUnsettled(r0: Run, r1: Run, a: nat, id: TxId)
    requires Unsettled(r0, a, id) && Quietly(r0, r1, id)
    ensures Unsettled(r1, a, id)
  {
    forall i | |r0.steps| <= i < |r1.steps| ensures !Settles(r1.steps[i], id) {
      assert QuietStep(r1, i, id);
    }
    UnsettledOn(r0, r1, a, id);
  }

  /** Somebody aborted the transaction between a and b, its lease having run out. */
  ghost predicate ExpiredIn(r: Run, a: nat, b: nat, id: TxId, until: nat) {
    exists e | a <= e < b && e < |r.steps| && e < |r.states| :: r.steps[e] == Expire(id) && until <= r.states[e].now
  }

  lemma StepManifestMine(s: State, l: Step, id: TxId)
    requires Enabled(s, l) && id in s.clients && ActivePreparing(s, id) && !Settles(l, id) && id !in s.journal
    ensures if l == Expire(id) then HasStatus(Apply(s, l), id, Aborted) && s.active[id].data.leaseUntil <= s.now
            else id in Apply(s, l).active && Apply(s, l).active[id] == s.active[id]
  {
  }

  /** The manifest of an undecided transaction is its own client's: as long as that does nothing
      about it, it stays as it is until its lease runs out. Only then may others abort it. */
  lemma {:induction false} ManifestMine(r: Run, a: nat, b: nat, id: TxId)
    requires ValidRun(r) && a <= b < |r.states| && ActivePreparing(r.states[a], id)
    requires forall i | a <= i < b :: !Settles(r.steps[i], id)
    ensures || (id in r.states[b].active && r.states[b].active[id] == r.states[a].active[id])
            || (HasStatus(r.states[b], id, Aborted) && ExpiredIn(r, a, b, id, r.states[a].active[id].data.leaseUntil))
  {
    if a < b {
      ManifestMine(r, a, b - 1, id);
      if HasStatus(r.states[b - 1], id, Aborted) {
        DecisionFinal(r, b - 1, b, id, Aborted);
      } else {
        ManifestMineAt(r, b - 1, id);
      }
    }
  }

  lemma ManifestMineAt(r: Run, i: nat, id: TxId)
    requires ValidRun(r) && i < |r.steps| && ActivePreparing(r.states[i], id) && !Settles(r.steps[i], id)
    ensures if r.steps[i] == Expire(id) then HasStatus(r.states[i + 1], id, Aborted) && r.states[i].active[id].data.leaseUntil <= r.states[i].now
            else id in r.states[i + 1].active && r.states[i + 1].active[id] == r.states[i].active[id]
  {
    assert StepAt(r, i);
    RunInv(r, i);
    StepManifestMine(r.states[i], r.steps[i], id);
  }

  lemma StepGeneration(s: State, l: Step, k: Key)
    requires Enabled(s, l)
    ensures s.nextGen <= Apply(s, l).nextGen
    ensures || GenAt(Apply(s, l), k) == s.nextGen
            || (GenAt(Apply(s, l), k) == GenAt(s, k) && EnvAt(Apply(s, l), k) == EnvAt(s, k))
  {
  }

  /** An object whose generation is unchanged is unchanged, and was so all along. */
  lemma {:induction false} EnvelopeFrozen(r: Run, a: nat, b: nat, k: Key)
    requires ValidRun(r) && a <= b < |r.states|
    ensures r.states[a].nextGen <= r.states[b].nextGen
    ensures || GenAt(r.states[b], k) >= r.states[a].nextGen
            || (&& GenAt(r.states[b], k) == GenAt(r.states[a], k)
                && forall j | a <= j <= b :: EnvAt(r.states[j], k) == EnvAt(r.states[a], k))
  {
    if a < b {
      EnvelopeFrozen(r, a, b - 1, k);
      assert StepAt(r, b - 1);
      StepGeneration(r.states[b - 1], r.steps[b - 1], k);
    }
  }

  lemma SameGeneration(r: Run, a: nat, b: nat, k: Key)
    requires ValidRun(r) && a <= b < |r.states| && GenAt(r.states[b], k) == GenAt(r.states[a], k)
    ensures forall j | a <= j <= b :: EnvAt(r.states[j], k) == EnvAt(r.states[a], k)
  {
    EnvelopeFrozen(r, a, b, k);
    RunInv(r, a);
  }

  lemma StepManifest(s: State, l: Step, tx: TxId)
    requires Enabled(s, l)
    ensures s.nextGen <= Apply(s, l).nextGen
    ensures tx in Apply(s, l).active ==>
              || Apply(s, l).active[tx].generation == s.nextGen
              || (tx in s.active && s.active[tx] == Apply(s, l).active[tx])
  {
  }

  lemma {:induction false} ManifestFrozen(r: Run, a: nat, b: nat, tx: TxId)
    requires ValidRun(r) && a <= b < |r.states|
    ensures r.states[a].nextGen <= r.states[b].nextGen
    ensures tx in r.states[b].active ==>
              || r.states[b].active[tx].generation >= r.states[a].nextGen
              || (tx in r.states[a].active && r.states[a].active[tx] == r.states[b].active[tx])
  {
    if a < b {
      ManifestFrozen(r, a, b - 1, tx);
      assert StepAt(r, b - 1);
      StepManifest(r.states[b - 1], r.steps[b - 1], tx);
    }
  }

  lemma SameManifest(r: Run, a: nat, b: nat, tx: TxId)
    requires ValidRun(r) && a <= b < |r.states| && tx in r.states[a].active && tx in r.states[b].active
    requires r.states[a].active[tx].generation == r.states[b].active[tx].generation
    ensures r.states[a].active[tx] == r.states[b].active[tx]
  {
    ManifestFrozen(r, a, b, tx);
    RunInv(r, a);
  }

  lemma StepMine(s: State, l: Step, t: TxId)
    requires Enabled(s, l)
    requires Actor(l).None? || Actor(l).value != t
    ensures t in Apply(s, l).clients <==> t in s.clients
    ensures t in s.clients ==> Apply(s, l).clients[t] == s.clients[t]
  {
  }

  /** What a client knows changes only by its own steps. */
  lemma {:induction false} MineKept(r: Run, a: nat, b: nat, mine: set<TxId>, t: TxId)
    requires ValidRun(r) && a <= b < |r.states| && t in mine
    requires forall i | a <= i < b :: NotBy(r, i, mine)
    ensures t in r.states[b].clients <==> t in r.states[a].clients
    ensures t in r.states[a].clients ==> r.states[b].clients[t] == r.states[a].clients[t]
  {
    if a < b {
      MineKept(r, a, b - 1, mine, t);
      assert StepAt(r, b - 1) && NotBy(r, b - 1, mine);
      StepMine(r.states[b - 1], r.steps[b - 1], t);
    }
  }

  /** A client that has not finished has not committed. */
  lemma NotYetCommitted(r: Run, i: nat, t: TxId)
    requires ValidRun(r) && i < |r.states| && t in r.states[i].clients && r.states[i].clients[t].phase != Done
    ensures !HasStatus(r.states[i], t, Committed)
  {
    RunInv(r, i);
    assert ClientInv(r.states[i], t);
  }

  lemma CommitHadPending(r: Run, i: nat, k: Key)
    requires ValidRun(r) && i < |r.steps| && r.steps[i].Commit? && r.steps[i].tx in r.states[i].clients
    requires k in r.states[i].clients[r.steps[i].tx].writes
    ensures EnvAt(r.states[i], k).pending.Some? && EnvAt(r.states[i], k).pending.value.tx == r.steps[i].tx
    ensures !Terminal(r.states[i], r.steps[i].tx)
  {
    RunInv(r, i);
    assert StepAt(r, i);
    assert ClientInv(r.states[i], r.steps[i].tx);
  }

  ghost predicate CommitsOn(r: Run, i: nat, k: Key)
    requires i < |r.states| && i < |r.steps|
  {
    r.steps[i].Commit? && r.steps[i].tx in r.states[i].clients && k in r.states[i].clients[r.steps[i].tx].writes
  }

  lemma {:induction false} UncommittedVersion(r: Run, a: nat, b: nat, k: Key)
    requires ValidRun(r) && a <= b < |r.states|
    requires forall i | a <= i < b :: !CommitsOn(r, i, k)
    ensures Ver(r.states[b], k) == Ver(r.states[a], k)
  {
    if a < b {
      UncommittedVersion(r, a, b - 1, k);
      assert StepAt(r, b - 1) && !CommitsOn(r, b - 1, k);
      StepVersion(r.states[b - 1], r.steps[b - 1], k);
    }
  }

  /** An object that stays the same, with nothing undecided in it, is written by no commit. */
  lemma FrozenVersion(r: Run, a: nat, b: nat, k: Key)
    requires ValidRun(r) && a <= b < |r.states| && GenAt(r.states[b], k) == GenAt(r.states[a], k)
    requires var p := EnvAt(r.states[a], k).pending; p.None? || Terminal(r.states[a], p.value.tx)
    ensures Ver(r.states[b], k) == Ver(r.states[a], k)
  {
    SameGeneration(r, a, b, k);
    forall i | a <= i < b ensures !CommitsOn(r, i, k) {
      if CommitsOn(r, i, k) {
        CommitHadPending(r, i, k);
        assert EnvAt(r.states[i], k) == EnvAt(r.states[a], k);
        TerminalKept(r, a, i, r.steps[i].tx);
      }
    }
    UncommittedVersion(r, a, b, k);
  }

  lemma TerminalKept(r: Run, a: nat, b: nat, tx: TxId)
    requires ValidRun(r) && a <= b < |r.states| && Terminal(r.states[a], tx)
    ensures Terminal(r.states[b], tx)
    ensures HasStatus(r.states[a], tx, Committed) <==> HasStatus(r.states[b], tx, Committed)
  {
    if HasStatus(r.states[a], tx, Committed) {
      DecisionFinal(r, a, b, tx, Committed);
    } else {
      DecisionFinal(r, a, b, tx, Aborted);
    }
  }

  lemma ClockKept(r: Run, a: nat, b: nat)
    requires ValidRun(r) && a <= b < |r.states|
    ensures r.states[a].now <= r.states[b].now && r.states[a].slack == r.states[b].slack
    decreases b
  {
    if a < b {
      ClockKept(r, a, b - 1);
      assert StepAt(r, b - 1);
      StepClock(r.states[b - 1], r.steps[b - 1]);
    }
  }

  lemma StepClock(s: State, l: Step)
    requires Enabled(s, l)
    ensures s.now <= Apply(s, l).now && s.slack == Apply(s, l).slack
  {
  }

  lemma StepDecidedAt(s: State, l: Step, t: TxId)
    requires Enabled(s, l) && t in s.clients
    ensures s.clients[t].phase == Done ==> Apply(s, l).clients[t].decidedAt == s.clients[t].decidedAt
    ensures l == Commit(t) ==> Apply(s, l).clients[t].decidedAt == s.now && Apply(s, l).clients[t].phase == Done
  {
  }

  lemma {:induction false} DecidedAtKept(r: Run, a: nat, b: nat, t: TxId)
    requires ValidRun(r) && a <= b < |r.states| && t in r.states[a].clients && r.states[a].clients[t].phase == Done
    ensures t in r.states[b].clients && r.states[b].clients[t].decidedAt == r.states[a].clients[t].decidedAt
    ensures r.states[b].clients[t].phase == Done
  {
    if a < b {
      DecidedAtKept(r, a, b - 1, t);
      assert StepAt(r, b - 1);
      StepWritesKept(r.states[b - 1], r.steps[b - 1], t);
      StepDecidedAt(r.states[b - 1], r.steps[b - 1], t);
    }
  }

  /** A transaction undecided at b and committed at p was decided no earlier than b. */
  lemma DecidedSince(r: Run, b: nat, p: nat, t: TxId)
    requires ValidRun(r) && b <= p < |r.states| && t in r.states[b].clients
    requires !HasStatus(r.states[b], t, Committed) && HasStatus(r.states[p], t, Committed)
    ensures t in r.states[p].clients && r.states[b].now <= r.states[p].clients[t].decidedAt
  {
    var n := CommitBetween(r, b, p, t);
    ClientKept(r, b, n, t);
    assert StepAt(r, n);
    StepDecidedAt(r.states[n], r.steps[n], t);
    DecidedAtKept(r, n + 1, p, t);
    ClockKept(r, b, n);
  }

  lemma PendingUntil(r: Run, a: nat, k: Key)
    requires ValidRun(r) && a < |r.states| && EnvAt(r.states[a], k).pending.Some?
    ensures
      var p := EnvAt(r.states[a], k).pending.value;
      p.tx in r.states[a].clients && p.until == r.states[a].clients[p.tx].until
  {
    RunInv(r, a);
  }

  /** What a process that read an envelope at a, and then looked for the decision, may still
      do at p, provided the object is unchanged. */
  lemma FoldJustified(r: Run, a: nat, b: nat, c: nat, p: nat, k: Key)
    requires ValidRun(r) && a <= b <= c <= p < |r.states|
    requires GenAt(r.states[p], k) == GenAt(r.states[a], k) && EnvAt(r.states[a], k).pending.Some?
    ensures var d := Looked(r, b, c, EnvAt(r.states[a], k).pending.value.tx);
            && (d.Some? && d.value.status == Committed ==> CanPromote(r.states[p], k))
            && (d.Some? && d.value.status == Aborted ==> CanDiscard(r.states[p], k))
  {
    var tx := EnvAt(r.states[a], k).pending.value.tx;
    SameGeneration(r, a, p, k);
    PendingUntil(r, a, k);
    ClientKept(r, a, p, tx);
    DecisionNeverMissed(r, a, b, c, tx, Committed);
    DecisionNeverMissed(r, a, b, c, tx, Aborted);
    if HasStatus(r.states[c], tx, Committed) || HasStatus(r.states[c], tx, Aborted) {
      DecisionFinal(r, c, p, tx, if HasStatus(r.states[c], tx, Committed) then Committed else Aborted);
    }
  }

  /** Finding no decision, and then the lease in the pending value expired, lets the value go. */
  lemma ExpiryJustified(r: Run, a: nat, b: nat, c: nat, t: nat, p: nat, k: Key)
    requires ValidRun(r) && a <= b <= c <= t <= p < |r.states|
    requires GenAt(r.states[p], k) == GenAt(r.states[a], k) && EnvAt(r.states[a], k).pending.Some?
    requires Looked(r, b, c, EnvAt(r.states[a], k).pending.value.tx).None?
    requires EnvAt(r.states[a], k).pending.value.until <= r.states[t].now <= r.states[b].now + r.states[b].slack
    ensures CanDiscard(r.states[p], k)
  {
    var tx := EnvAt(r.states[a], k).pending.value.tx;
    SameGeneration(r, a, p, k);
    PendingUntil(r, a, k);
    ClientKept(r, a, b, tx);
    ClientKept(r, b, p, tx);
    if !r.states[b].clients[tx].rename {
      LeasedAlwaysFound(r, b, c, tx);
    }
    ClockKept(r, t, p);
    ClockKept(r, b, p);
    if HasStatus(r.states[p], tx, Committed) {
      DecisionNeverMissed(r, b, b, c, tx, Committed);
      DecidedSince(r, b, p, tx);
    }
  }

  /** Only leased transactions are ever found preparing. */
  lemma PreparingLeased(r: Run, i: nat, tx: TxId)
    requires ValidRun(r) && i < |r.states| && ActivePreparing(r.states[i], tx)
    ensures CanAbort(r.states[i], tx) && !r.states[i].clients[tx].rename
  {
    RunInv(r, i);
    assert ClientInv(r.states[i], tx);
  }

  /** A process read the envelope at a, looked for the decision at b and c, and read its clock at t. */
  ghost predicate Justified(r: Run, a: nat, b: nat, c: nat, t: nat, k: Key, commits: bool) {
    && a <= b <= c <= t < |r.states|
    && EnvAt(r.states[a], k).pending.Some?
    && var p := EnvAt(r.states[a], k).pending.value;
      var d := Looked(r, b, c, p.tx);
      if commits then d.Some? && d.value.status == Committed
      else
        || (d.Some? && d.value.status == Aborted)
        || (d.None? && p.until <= r.states[t].now <= r.states[b].now + r.states[b].slack)
  }

  lemma JustifiedFold(r: Run, a: nat, b: nat, c: nat, t: nat, p: nat, k: Key, commits: bool)
    requires ValidRun(r) && Justified(r, a, b, c, t, k, commits) && t <= p < |r.states|
    requires GenAt(r.states[p], k) == GenAt(r.states[a], k)
    ensures EnvAt(r.states[p], k) == EnvAt(r.states[a], k)
    ensures commits ==> CanPromote(r.states[p], k)
    ensures !commits ==> CanDiscard(r.states[p], k)
  {
    SameGeneration(r, a, p, k);
    FoldJustified(r, a, b, c, p, k);
    if !commits && Looked(r, b, c, EnvAt(r.states[a], k).pending.value.tx).None? {
      ExpiryJustified(r, a, b, c, t, p, k);
    }
  }

  /** The object at p is the one read at a, with nothing pending, so the client may prepare. */
  lemma PrepareReady(r: Run, a: nat, p: nat, id: TxId, k: Key)
    requires ValidRun(r) && a <= p < |r.states| && GenAt(r.states[p], k) == GenAt(r.states[a], k)
    requires EnvAt(r.states[a], k).pending.None?
    ensures EnvAt(r.states[p], k) == EnvAt(r.states[a], k)
    ensures Ver(r.states[p], k) == Ver(r.states[a], k)
    ensures Visible(r.states[p], k) == EnvAt(r.states[a], k).current
    ensures MayOverwrite(r.states[p], id, k)
  {
    SameGeneration(r, a, p, k);
    FrozenVersion(r, a, p, k);
  }

  /** A client's own pending value sits only where it has prepared. */
  lemma OwnPending(r: Run, a: nat, id: TxId, k: Key)
    requires ValidRun(r) && a < |r.states| && id in r.states[a].clients && k !in r.states[a].clients[id].prepared
    ensures EnvAt(r.states[a], k).pending.Some? ==> EnvAt(r.states[a], k).pending.value.tx != id
  {
    RunInv(r, a);
  }

  /** A generation seen at g and again at p was there in between, at j. */
  lemma SeenGeneration(r: Run, g: nat, j: nat, p: nat, k: Key)
    requires ValidRun(r) && g <= j <= p < |r.states| && GenAt(r.states[p], k) == GenAt(r.states[g], k)
    ensures GenAt(r.states[j], k) == GenAt(r.states[g], k)
    ensures EnvAt(r.states[j], k) == EnvAt(r.states[g], k) == EnvAt(r.states[p], k)
  {
    SameGeneration(r, g, p, k);
    EnvelopeFrozen(r, g, j, k);
    EnvelopeFrozen(r, j, p, k);
    RunInv(r, g);
    RunInv(r, j);
  }

  lemma LeasedUntil(r: Run, i: nat, id: TxId)
    requires ValidRun(r) && i < |r.states| && id in r.states[i].clients && !r.states[i].clients[id].rename
    ensures r.states[i].clients[id].until == 0
  {
    RunInv(r, i);
    assert ClientInv(r.states[i], id);
  }

  lemma StepLease(s: State, l: Step, q: Resource)
    requires Enabled(s, l)
    ensures s.nextGen <= Apply(s, l).nextGen
    ensures q in Apply(s, l).leases ==>
              || Apply(s, l).leases[q].generation == s.nextGen
              || (q in s.leases && s.leases[q] == Apply(s, l).leases[q])
  {
  }

  lemma {:induction false} LeaseFrozen(r: Run, a: nat, b: nat, q: Resource)
    requires ValidRun(r) && a <= b < |r.states|
    ensures r.states[a].nextGen <= r.states[b].nextGen
    ensures q in r.states[b].leases ==>
              || r.states[b].leases[q].generation >= r.states[a].nextGen
              || (q in r.states[a].leases && r.states[a].leases[q] == r.states[b].leases[q])
  {
    if a < b {
      LeaseFrozen(r, a, b - 1, q);
      assert StepAt(r, b - 1);
      StepLease(r.states[b - 1], r.steps[b - 1], q);
    }
  }

  lemma SameLease(r: Run, a: nat, b: nat, q: Resource)
    requires ValidRun(r) && a <= b < |r.states| && q in r.states[a].leases && q in r.states[b].leases
    requires r.states[a].leases[q].generation == r.states[b].leases[q].generation
    ensures r.states[a].leases[q] == r.states[b].leases[q]
  {
    LeaseFrozen(r, a, b, q);
    RunInv(r, a);
  }

  /** The stored lease with the generation a client holds is the lease it took. */
  lemma StoredIsHeld(r: Run, i: nat, id: TxId, q: Resource)
    requires ValidRun(r) && i < |r.states| && id in r.states[i].clients
    requires q in r.states[i].clients[id].held && q in r.states[i].leases
    requires r.states[i].leases[q].generation == r.states[i].clients[id].held[q].generation
    ensures r.states[i].leases[q].data == Lease(id, r.states[i].clients[id].held[q].until)
  {
    RunInv(r, i);
    assert ClientInv(r.states[i], id);
  }

  /** What a build got for a key. */
  datatype Got = Got(value: Option<Raw>, generation: nat)

  /** Where in the run it came from: the last Read step j, an instant at which the value was
      visible, and an instant at which the object had the generation. */
  datatype Witness = Witness(j: nat, at: nat, g: nat)

  ghost predicate ReadFact(r: Run, c: Client, id: TxId, k: Key, got: Got, enforce: bool, w: Witness) {
    && |r.states| == |r.steps| + 1
    && w.j < |r.steps| && r.steps[w.j] == Read(id, k)
    && k in c.seen && c.seen[k] == Ver(r.states[w.j], k)
    && (forall i | w.j < i < |r.steps| :: NotReadOf(r, i, id, k))
    && (if enforce then
          && w.g <= w.j && GenAt(r.states[w.g], k) == got.generation
          && (EnvAt(r.states[w.g], k).pending.None? ==> EnvAt(r.states[w.g], k).current == got.value)
        else w.j < w.at < |r.states| && Visible(r.states[w.at], k) == got.value)
  }

  ghost predicate NotReadOf(r: Run, i: nat, id: TxId, k: Key)
    requires i < |r.steps|
  {
    r.steps[i] != Read(id, k)
  }

  lemma ReadFactKept(r0: Run, r1: Run, c0: Client, c1: Client, id: TxId, k: Key, got: Got, enforce: bool, w: Witness)
    requires ReadFact(r0, c0, id, k, got, enforce, w)
    requires r0.states <= r1.states && r0.steps <= r1.steps && |r1.states| == |r1.steps| + 1
    requires forall i | |r0.steps| <= i < |r1.steps| :: NotReadOf(r1, i, id, k)
    requires k in c1.seen && c1.seen[k] == c0.seen[k]
    ensures ReadFact(r1, c1, id, k, got, enforce, w)
  {
    forall i | w.j < i < |r1.steps| ensures NotReadOf(r1, i, id, k) {
      if i < |r0.steps| {
        assert NotReadOf(r0, i, id, k);
      }
    }
  }

  /** r1 continues r0, in which the client id has read nothing. */
  ghost predicate Readless(r0: Run, r1: Run, id: TxId) {
    && r0.states <= r1.states
    && r0.steps <= r1.steps
    && forall i | |r0.steps| <= i < |r1.steps| :: NoRead(r1, i, id)
  }

  ghost predicate NoRead(r: Run, i: nat, id: TxId)
    requires i < |r.steps|
  {
    r.steps[i].Read? ==> r.steps[i].tx != id
  }

  lemma QuietlyReadless(r0: Run, r1: Run, id: TxId)
    requires Quietly(r0, r1, id)
    ensures Readless(r0, r1, id)
  {
    forall i | |r0.steps| <= i < |r1.steps| ensures NoRead(r1, i, id) {
      assert QuietStep(r1, i, id);
    }
  }

  lemma ReadlessOne(r0: Run, r1: Run, r2: Run, id: TxId)
    requires Readless(r0, r1, id) && r1.states <= r2.states && r1.steps <= r2.steps
    requires |r2.steps| == |r1.steps| + 1 && NoRead(r2, |r1.steps|, id)
    ensures Readless(r0, r2, id)
  {
    forall i | |r0.steps| <= i < |r2.steps| ensures NoRead(r2, i, id) {
      if i < |r1.steps| {
        assert NoRead(r1, i, id);
      }
    }
  }

  lemma QuietNotRead(r0: Run, r1: Run, id: TxId, k: Key)
    requires Quietly(r0, r1, id)
    ensures forall i | |r0.steps| <= i < |r1.steps| :: NotReadOf(r1, i, id, k)
  {
    forall i | |r0.steps| <= i < |r1.steps| ensures NotReadOf(r1, i, id, k) {
      assert QuietStep(r1, i, id);
    }
  }

  /** Every step since r0 is somebody else's or a read of k by id. */
  ghost predicate OnlyReads(r0: Run, r1: Run, id: TxId, k: Key) {
    && r0.states <= r1.states
    && r0.steps <= r1.steps
    && forall i | |r0.steps| <= i < |r1.steps| :: ReadOrQuiet(r1, i, id, k)
  }

  ghost predicate ReadOrQuiet(r: Run, i: nat, id: TxId, k: Key)
    requires i < |r.steps|
  {
    r.steps[i] == Read(id, k) || QuietStep(r, i, id)
  }

  lemma OnlyReadsUnsettled(r0: Run, r1: Run, id: TxId, k: Key)
    requires OnlyReads(r0, r1, id, k)
    ensures Unsettled(r1, |r0.steps|, id)
  {
    forall i | |r0.steps| <= i < |r1.steps| ensures !Settles(r1.steps[i], id) {
      assert ReadOrQuiet(r1, i, id, k);
    }
  }

  lemma OnlyReadsOne(r0: Run, r1: Run, r2: Run, id: TxId, k: Key)
    requires OnlyReads(r0, r1, id, k) && r1.states <= r2.states
    requires r2.steps == r1.steps + [Read(id, k)]
    ensures OnlyReads(r0, r2, id, k)
  {
    forall i | |r0.steps| <= i < |r2.steps| ensures ReadOrQuiet(r2, i, id, k) {
      if i < |r1.steps| {
        assert ReadOrQuiet(r1, i, id, k);
      }
    }
  }

  lemma OnlyReadsQuiet(r0: Run, r1: Run, r2: Run, id: TxId, k: Key)
    requires OnlyReads(r0, r1, id, k) && Quietly(r1, r2, id)
    ensures OnlyReads(r0, r2, id, k)
  {
    forall i | |r0.steps| <= i < |r2.steps| ensures ReadOrQuiet(r2, i, id, k) {
      if i < |r1.steps| {
        assert ReadOrQuiet(r1, i, id, k);
      } else {
        assert QuietStep(r2, i, id);
      }
    }
  }

  lemma OnlyReadsElsewhere(r0: Run, r1: Run, id: TxId, k: Key, k': Key)
    requires OnlyReads(r0, r1, id, k) && k' != k
    ensures forall i | |r0.steps| <= i < |r1.steps| :: NotReadOf(r1, i, id, k')
  {
    forall i | |r0.steps| <= i < |r1.steps| ensures NotReadOf(r1, i, id, k') {
      assert ReadOrQuiet(r1, i, id, k);
    }
  }

  ghost predicate AllFacts(r: Run, c: Client, id: TxId, gots: map<Key, Got>, enforce: bool, ws: map<Key, Witness>) {
    && gots.Keys == ws.Keys == c.seen.Keys
    && forall k | k in gots :: ReadFact(r, c, id, k, gots[k], enforce, ws[k])
  }

  lemma AllFactsElsewhere(r0: Run, r1: Run, c0: Client, c1: Client, id: TxId, k: Key,
                          gots: map<Key, Got>, enforce: bool, ws: map<Key, Witness>)
    requires AllFacts(r0, c0, id, gots, enforce, ws) && k !in gots
    requires OnlyReads(r0, r1, id, k) && |r1.states| == |r1.steps| + 1
    requires forall k' | k' in c0.seen && k' != k :: k' in c1.seen && c1.seen[k'] == c0.seen[k']
    ensures forall k' | k' in gots :: k' in ws && ReadFact(r1, c1, id, k', gots[k'], enforce, ws[k'])
  {
    forall k' | k' in gots ensures ReadFact(r1, c1, id, k', gots[k'], enforce, ws[k']) {
      ReadFactElsewhere(r0, r1, c0, c1, id, k, k', gots[k'], enforce, ws[k']);
    }
  }

  lemma AllFactsAdd(r: Run, c: Client, id: TxId, k: Key, gots: map<Key, Got>, got: Got, enforce: bool, ws: map<Key, Witness>, w: Witness)
    requires gots.Keys == ws.Keys && c.seen.Keys == gots.Keys + {k}
    requires forall k' | k' in gots :: ReadFact(r, c, id, k', gots[k'], enforce, ws[k'])
    requires ReadFact(r, c, id, k, got, enforce, w)
    ensures AllFacts(r, c, id, gots[k := got], enforce, ws[k := w])
  {
    var gots', ws' := gots[k := got], ws[k := w];
    assert gots'.Keys == ws'.Keys == c.seen.Keys;
    forall k' | k' in gots' ensures ReadFact(r, c, id, k', gots'[k'], enforce, ws'[k']) {
      if k' != k {
        assert ReadFact(r, c, id, k', gots[k'], enforce, ws[k']);
      }
    }
  }

  lemma OneMoreKey<K, V>(m0: map<K, V>, m1: map<K, V>, k: K)
    requires k in m1 && m1 == m0[k := m1[k]]
    ensures m1.Keys == m0.Keys + {k}
    ensures forall k' | k' in m0 && k' != k :: k' in m1 && m1[k'] == m0[k']
  {
  }

  lemma AllFactsGrow(r0: Run, r1: Run, c0: Client, c1: Client, id: TxId, k: Key,
                     gots: map<Key, Got>, got: Got, enforce: bool, ws: map<Key, Witness>, w: Witness)
    requires AllFacts(r0, c0, id, gots, enforce, ws) && k !in gots
    requires OnlyReads(r0, r1, id, k) && |r1.states| == |r1.steps| + 1
    requires ReadFact(r1, c1, id, k, got, enforce, w)
    requires k in c1.seen && c1.seen == c0.seen[k := c1.seen[k]]
    ensures AllFacts(r1, c1, id, gots[k := got], enforce, ws[k := w])
  {
    OneMoreKey(c0.seen, c1.seen, k);
    AllFactsElsewhere(r0, r1, c0, c1, id, k, gots, enforce, ws);
    AllFactsAdd(r1, c1, id, k, gots, got, enforce, ws, w);
  }

  lemma ReadFactElsewhere(r0: Run, r1: Run, c0: Client, c1: Client, id: TxId, k: Key, k': Key, got: Got, enforce: bool, w: Witness)
    requires ReadFact(r0, c0, id, k', got, enforce, w) && k' != k
    requires OnlyReads(r0, r1, id, k) && |r1.states| == |r1.steps| + 1
    requires k' in c1.seen && c1.seen[k'] == c0.seen[k']
    ensures ReadFact(r1, c1, id, k', got, enforce, w)
  {
    OnlyReadsElsewhere(r0, r1, id, k, k');
    ReadFactKept(r0, r1, c0, c1, id, k', got, enforce, w);
  }

  /** What preparing under a generation check needs of a read. */
  ghost predicate Noted(r: Run, c: Client, k: Key, got: Got, w: Witness) {
    && w.g <= w.j < |r.states|
    && GenAt(r.states[w.g], k) == got.generation
    && k in c.seen && c.seen[k] == Ver(r.states[w.j], k)
  }

  lemma AllNoted(r: Run, c: Client, id: TxId, gots: map<Key, Got>, ws: map<Key, Witness>)
    requires AllFacts(r, c, id, gots, true, ws)
    ensures forall k | k in gots :: Noted(r, c, k, gots[k], ws[k])
  {
    forall k | k in gots ensures Noted(r, c, k, gots[k], ws[k]) {
      assert ReadFact(r, c, id, k, gots[k], true, ws[k]);
    }
  }

  lemma AllFactsKept(r0: Run, r1: Run, c0: Client, c1: Client, id: TxId, gots: map<Key, Got>, enforce: bool, ws: map<Key, Witness>)
    requires AllFacts(r0, c0, id, gots, enforce, ws)
    requires Readless(r0, r1, id) && |r1.states| == |r1.steps| + 1 && c1.seen == c0.seen
    ensures AllFacts(r1, c1, id, gots, enforce, ws)
  {
    forall k | k in gots ensures ReadFact(r1, c1, id, k, gots[k], enforce, ws[k]) {
      assert forall i | |r0.steps| <= i < |r1.steps| :: NoRead(r1, i, id) ==> NotReadOf(r1, i, id, k);
      ReadFactKept(r0, r1, c0, c1, id, k, gots[k], enforce, ws[k]);
    }
  }

  /** The transaction committed at n last read k at j, and got what was visible at an instant
      at since then. */
  ghost predicate Saw(r: Run, n: nat, id: TxId, k: Key, value: Option<Raw>, j: nat, at: nat) {
    && |r.states| == |r.steps| + 1
    && j <= at <= n < |r.steps|
    && r.steps[j] == Read(id, k)
    && (forall i | j < i < n :: NotReadOf(r, i, id, k))
    && Visible(r.states[at], k) == value
  }

  /** What the build saw of a guarded key is what is visible when it commits. */
  lemma SawVisible(r: Run, n: nat, id: TxId, k: Key, value: Option<Raw>, j: nat, at: nat)
    requires FromInit(r) && Saw(r, n, id, k, value, j, at) && r.steps[n] == Commit(id) && Guarded(r, n, id, k)
    ensures Visible(r.states[n], k) == value
  {
    var a := CommitActsOnCurrent(r, n, id, k);
    assert j < a ==> NotReadOf(r, a, id, k);
  }

  lemma SawKept(r0: Run, r1: Run, n: nat, id: TxId, k: Key, value: Option<Raw>, j: nat, at: nat)
    requires Saw(r0, n, id, k, value, j, at) && r0.states <= r1.states && r0.steps <= r1.steps
    requires |r1.states| == |r1.steps| + 1
    ensures Saw(r1, n, id, k, value, j, at)
  {
    forall i | j < i < n ensures NotReadOf(r1, i, id, k) {
      assert NotReadOf(r0, i, id, k);
    }
  }

  /** Turns what is known of a read just before the decision into what was seen. */
  lemma FactSeen(r: Run, r': Run, c: Client, id: TxId, k: Key, got: Got, enforce: bool, w: Witness)
    requires ReadFact(r, c, id, k, got, enforce, w)
    requires r.states <= r'.states && r'.steps == r.steps + [Commit(id)] && |r'.states| == |r'.steps| + 1
    requires enforce ==> EnvAt(r.states[w.j], k).pending.None? && EnvAt(r.states[w.j], k) == EnvAt(r.states[w.g], k)
    ensures Saw(r', |r.steps|, id, k, got.value, w.j, if enforce then w.j else w.at)
  {
    forall i | w.j < i < |r.steps| ensures NotReadOf(r', i, id, k) {
      assert NotReadOf(r, i, id, k);
    }
  }
}
