/** What happens to a transaction after its decision, in the background or after a crash:
    promotion, archival, and the recovery of every listed manifest. */
module CommitRecovery {
  import opened Wrappers
  import opened CommitModel
  import opened CommitInvariant
  import opened CommitTheorems
  import opened CommitSerial
  import opened CommitRely
  import opened CommitObstacles
  import opened CommitStore
  import opened CommitTransaction

  /** tx has nothing pending at k. */
  ghost predicate Cleared(s: State, tx: TxId, k: Key) {
    EnvAt(s, k).pending.Some? ==> EnvAt(s, k).pending.value.tx != tx
  }

  lemma StepCleared(s: State, l: Step, tx: TxId, k: Key)
    requires Enabled(s, l) && tx in s.clients && s.clients[tx].phase == Done && Cleared(s, tx, k)
    ensures Cleared(Apply(s, l), tx, k)
  {
  }

  /** A committed transaction that is cleared out of an object never comes back to it. */
  lemma {:induction false} ClearedKept(r: Run, a: nat, b: nat, tx: TxId, k: Key)
    requires ValidRun(r) && a <= b < |r.states| && HasStatus(r.states[a], tx, Committed) && Cleared(r.states[a], tx, k)
    ensures Cleared(r.states[b], tx, k)
  {
    if a < b {
      ClearedKept(r, a, b - 1, tx, k);
      DecisionFinal(r, a, b - 1, tx, Committed);
      RunInv(r, b - 1);
      assert ClientInv(r.states[b - 1], tx);
      assert StepAt(r, b - 1);
      StepCleared(r.states[b - 1], r.steps[b - 1], tx, k);
    }
  }

  lemma StepClearedForGood(s: State, l: Step, tx: TxId, k: Key)
    requires Enabled(s, l) && PreparedBy(s, tx, k) && Cleared(s, tx, k)
    ensures PreparedBy(Apply(s, l), tx, k) && Cleared(Apply(s, l), tx, k)
  {
  }

  lemma StepRewritten(s: State, l: Step, tx: TxId, k: Key)
    requires Enabled(s, l) && PendingKnown(s) && !Cleared(s, tx, k) && GenAt(Apply(s, l), k) != GenAt(s, k)
    ensures PreparedBy(Apply(s, l), tx, k) && Cleared(Apply(s, l), tx, k)
  {
  }

  /** Whoever rewrites an object with a pending value of tx clears it, for good: what has been
      prepared once is not prepared again. */
  lemma {:induction false} RewrittenAway(r: Run, a: nat, b: nat, tx: TxId, k: Key)
    requires ValidRun(r) && a <= b < |r.states| && !Cleared(r.states[a], tx, k) && GenAt(r.states[b], k) != GenAt(r.states[a], k)
    ensures PreparedBy(r.states[b], tx, k) && Cleared(r.states[b], tx, k)
    decreases b
  {
    if GenAt(r.states[b - 1], k) == GenAt(r.states[a], k) {
      SameGeneration(r, a, b - 1, k);
      RewrittenAt(r, b - 1, tx, k);
    } else {
      RewrittenAway(r, a, b - 1, tx, k);
      assert StepAt(r, b - 1);
      StepClearedForGood(r.states[b - 1], r.steps[b - 1], tx, k);
    }
  }

  lemma RewrittenAt(r: Run, i: nat, tx: TxId, k: Key)
    requires ValidRun(r) && i < |r.steps| && !Cleared(r.states[i], tx, k) && GenAt(r.states[i + 1], k) != GenAt(r.states[i], k)
    ensures PreparedBy(r.states[i + 1], tx, k) && Cleared(r.states[i + 1], tx, k)
  {
    assert StepAt(r, i);
    RunInv(r, i);
    StepRewritten(r.states[i], r.steps[i], tx, k);
  }

  /** Since start tx has been seen cleared out of the object. */
  ghost predicate ClearedSince(r: Run, start: nat, tx: TxId, k: Key) {
    exists i | start <= i < |r.states| :: Cleared(r.states[i], tx, k)
  }

  ghost predicate AllClearedSince(r: Run, start: nat, tx: TxId, ks: seq<Key>) {
    forall k | k in ks :: ClearedSince(r, start, tx, k)
  }

  lemma AllClearedStill(r0: Run, r1: Run, start: nat, start': nat, tx: TxId, ks: seq<Key>)
    requires AllClearedSince(r0, start, tx, ks) && r0.states <= r1.states && start' <= start
    ensures AllClearedSince(r1, start', tx, ks)
  {
    forall k | k in ks ensures ClearedSince(r1, start', tx, k) {
      var i :| start <= i < |r0.states| && Cleared(r0.states[i], tx, k);
      assert Cleared(r1.states[i], tx, k);
    }
  }

  /** No manifest but that of tx has come or gone. */
  ghost predicate OnlyManifest(s0: State, s1: State, tx: TxId) {
    forall t | t != tx :: t in s1.active <==> t in s0.active
  }

  ghost predicate AllCleared(s: State, tx: TxId, ks: seq<Key>) {
    forall k | k in ks :: Cleared(s, tx, k)
  }

  lemma AllClearedKept(r: Run, a: nat, b: nat, tx: TxId, ks: seq<Key>)
    requires ValidRun(r) && a <= b < |r.states| && HasStatus(r.states[a], tx, Committed) && AllCleared(r.states[a], tx, ks)
    ensures AllCleared(r.states[b], tx, ks)
  {
    forall k | k in ks ensures Cleared(r.states[b], tx, k) {
      ClearedKept(r, a, b, tx, k);
    }
  }

  lemma ListedStatus(r: Run, b: nat, i: nat, tx: TxId, m: Manifest, generation: nat)
    requires ValidRun(r) && Listed(r, b, tx, m, generation) && b <= i < |r.states| && m.status != Preparing
    ensures HasStatus(r.states[i], tx, m.status)
  {
    DecisionFinal(r, b, i, tx, m.status);
  }

  /** What is in the journal is decided, and has nothing left to apply. */
  lemma JournalTerminal(r: Run, i: nat, tx: TxId)
    requires ValidRun(r) && i < |r.states| && tx in r.states[i].journal
    ensures Terminal(r.states[i], tx) && WorkDone(r.states[i].journal[tx])
  {
    RunInv(r, i);
  }

  /** A manifest leaves the active list only for the journal. */
  lemma {:induction false} GoneIsArchived(r: Run, a: nat, b: nat, tx: TxId)
    requires ValidRun(r) && a <= b < |r.states| && tx in r.states[a].active && tx !in r.states[b].active
    ensures Archived(r.states[b], tx)
    decreases b
  {
    assert StepAt(r, b - 1);
    if tx in r.states[b - 1].active {
      RunInv(r, b - 1);
      StepArchive(r.states[b - 1], r.steps[b - 1], tx);
    } else {
      GoneIsArchived(r, a, b - 1, tx);
      ArchivedKept(r, b - 1, b, tx);
    }
  }

  method CopyToJournal(ns: Namespace, tx: TxId, m: Manifest, generation: nat, ghost b: nat)
    requires ns.Valid() && Listed(ns.run, b, tx, m, generation) && m.status != Preparing && WorkDone(m)
    modifies ns
    ensures ns.Valid() && Continues(old(ns.run), ns.run, {}) && tx in ns.s.journal
    ensures old(ns.others) <= ns.others && (ns.others == old(ns.others) ==> ns.s.active == old(ns.s.active))
  {
    ns.Interfere({}, None);
    ListedStatus(ns.run, b, |ns.run.steps|, tx, m, generation);
    ghost var before := ns.run;
    if tx !in ns.s.journal {
      ns.Take(Journal(tx, m));
      ContinueOne(old(ns.run), before, ns.run, {});
    }
  }

  /** The journal first, then the active manifest, deleted only if it is the one archived. */
  method Archive(ns: Namespace, tx: TxId, m: Manifest, generation: nat, ghost b: nat) returns (ok: bool)
    requires ns.Valid() && Listed(ns.run, b, tx, m, generation) && m.status != Preparing && WorkDone(m)
    modifies ns
    ensures ns.Valid() && Continues(old(ns.run), ns.run, {})
    ensures tx in ns.s.journal && HasStatus(ns.s, tx, m.status)
    ensures ok ==> Archived(ns.s, tx)
    ensures old(ns.others) <= ns.others
    ensures ns.others == old(ns.others) ==> OnlyManifest(old(ns.s), ns.s, tx) && (ok <==> old(ActiveGeneration(ns.s, tx)) == generation)
  {
    CopyToJournal(ns, tx, m, generation, b);
    ghost var copied := ns.run;
    ok := RemoveListed(ns, tx, m, generation, b);
    ContinueAll(old(ns.run), copied, ns.run, {});
    ListedStatus(ns.run, b, |ns.run.steps|, tx, m, generation);
  }

  method RemoveListed(ns: Namespace, tx: TxId, m: Manifest, generation: nat, ghost b: nat) returns (ok: bool)
    requires ns.Valid() && Listed(ns.run, b, tx, m, generation) && WorkDone(m) && tx in ns.s.journal
    modifies ns
    ensures ns.Valid() && Continues(old(ns.run), ns.run, {}) && tx in ns.s.journal
    ensures ok ==> tx !in ns.s.active
    ensures old(ns.others) <= ns.others
    ensures ns.others == old(ns.others) ==> OnlyManifest(old(ns.s), ns.s, tx) && (ok <==> old(ActiveGeneration(ns.s, tx)) == generation)
  {
    ns.Interfere({}, None);
    JournalKept(ns.run, old(|ns.run.steps|), |ns.run.steps|, tx);
    ghost var before := ns.run;
    ok := ActiveGeneration(ns.s, tx) == generation;
    if ok {
      UnlistReady(ns.run, b, |ns.run.steps|, tx, m, generation);
      ns.Take(Unlist(tx));
      ContinueOne(old(ns.run), before, ns.run, {});
    }
  }

  lemma UnlistReady(r: Run, b: nat, p: nat, tx: TxId, m: Manifest, generation: nat)
    requires ValidRun(r) && Listed(r, b, tx, m, generation) && WorkDone(m) && b <= p < |r.states|
    requires tx in r.states[p].journal && ActiveGeneration(r.states[p], tx) == generation
    ensures Enabled(r.states[p], Unlist(tx))
  {
    RunInv(r, b);
    SameManifest(r, b, p, tx);
  }

  /** Promotes every participant. Success means that the transaction is cleared out of all of
      them; the manifest is archived once its derived work is done. */
  method FinalizeCommitted(ns: Namespace, tx: TxId, m: Manifest, generation: nat, ghost b: nat) returns (ok: bool)
    requires ns.Valid() && Listed(ns.run, b, tx, m, generation) && m.status == Committed
    modifies ns
    ensures ns.Valid() && Continues(old(ns.run), ns.run, {}) && HasStatus(ns.s, tx, Committed)
    ensures ok ==> AllCleared(ns.s, tx, m.participants) && (m.derivedApplied ==> Archived(ns.s, tx))
    ensures old(ns.others) <= ns.others
    ensures ns.others == old(ns.others) ==> OnlyManifest(old(ns.s), ns.s, tx) && (old(ActiveGeneration(ns.s, tx)) == generation ==> ok)
  {
    ListedStatus(ns.run, b, |ns.run.steps|, tx, m, generation);
    ok := true;
    for i := 0 to |m.participants|
      invariant ns.Valid() && Continues(old(ns.run), ns.run, {}) && HasStatus(ns.s, tx, Committed) && ok
      invariant AllCleared(ns.s, tx, m.participants[..i])
      invariant old(ns.others) <= ns.others && (ns.others == old(ns.others) ==> ns.s.active == old(ns.s.active))
    {
      ghost var before := ns.run;
      ok := PromoteParticipant(ns, tx, m.participants[i]);
      ContinueAll(old(ns.run), before, ns.run, {});
      if !ok {
        return;
      }
      AllClearedKept(ns.run, |before.steps|, |ns.run.steps|, tx, m.participants[..i]);
      assert m.participants[..i + 1] == m.participants[..i] + [m.participants[i]];
    }
    assert m.participants[..|m.participants|] == m.participants;
    if m.derivedApplied {
      ghost var before := ns.run;
      ok := Archive(ns, tx, m, generation, b);
      ContinueAll(old(ns.run), before, ns.run, {});
      AllClearedKept(ns.run, |before.steps|, |ns.run.steps|, tx, m.participants);
    }
  }

  /** Clears a committed transaction out of one object. A lost race means that somebody else has. */
  method PromoteParticipant(ns: Namespace, tx: TxId, k: Key) returns (ok: bool)
    requires ns.Valid() && HasStatus(ns.s, tx, Committed)
    modifies ns
    ensures ns.Valid() && Continues(old(ns.run), ns.run, {}) && HasStatus(ns.s, tx, Committed)
    ensures Cleared(ns.s, tx, k)
    ensures old(ns.others) <= ns.others && (ns.others == old(ns.others) ==> ok && ns.s.active == old(ns.s.active))
  {
    ns.Interfere({}, None);
    DecisionFinal(ns.run, old(|ns.run.steps|), |ns.run.steps|, tx, Committed);
    var e, generation := EnvAt(ns.s, k), GenAt(ns.s, k);
    ok := true;
    if e.pending.Some? && e.pending.value.tx == tx {
      ghost var loaded := ns.run;
      var promoted;
      ok, promoted := ns.PromoteEnvelopeStrict(k, generation, e, {}, None, |ns.run.steps|);
      ContinueAll(old(ns.run), loaded, ns.run, {});
      DecisionFinal(ns.run, old(|ns.run.steps|), |ns.run.steps|, tx, Committed);
      if !ok {
        RewrittenAway(ns.run, |loaded.steps|, |ns.run.steps|, tx, k);
      }
    }
  }

  datatype Outcome = Finished | Unknown | Undecided | Conflicted

  /** Called once the derived delta of tx has been applied. Finding nothing means that tx had
      no manifest at an instant and no journal entry at a later one. */
  method MarkDerivedApplied(ns: Namespace, tx: TxId) returns (result: Outcome, ghost b: nat, ghost c: nat)
    requires ns.Valid()
    modifies ns
    ensures ns.Valid() && Continues(old(ns.run), ns.run, {})
    ensures result == Finished ==> tx in ns.s.journal && Terminal(ns.s, tx)
    ensures old(|ns.run.steps|) <= b <= c < |ns.run.states|
    ensures result == Unknown ==> Looked(ns.run, b, c, tx).None?
    ensures result == Undecided ==> tx in ns.run.states[b].active && !HasStatus(ns.run.states[b], tx, Committed)
    ensures old(ns.others) <= ns.others
    ensures ns.others == old(ns.others) ==> result == old(Marking(ns.s, tx))
  {
    ns.Interfere({}, None);
    b, c := |ns.run.steps|, |ns.run.steps|;
    ghost var loaded := ns.run;
    if tx !in ns.s.active {
      ns.Interfere({}, None);
      ContinueAll(old(ns.run), loaded, ns.run, {});
      c := |ns.run.steps|;
      result := if tx in ns.s.journal then Finished else Unknown;
      if result == Finished {
        JournalTerminal(ns.run, c, tx);
      }
      return;
    }
    var m, generation := ns.s.active[tx].data, ns.s.active[tx].generation;
    if m.status != Committed {
      return Undecided, b, c;
    }
    result := MarkAndArchive(ns, tx, m, generation, b);
    ContinueAll(old(ns.run), loaded, ns.run, {});
  }

  /** What becomes of the marking when nobody else is at work. */
  function Marking(s: State, tx: TxId): Outcome {
    if tx in s.active then (if s.active[tx].data.status == Committed then Finished else Undecided)
    else if tx in s.journal then Finished
    else Unknown
  }

  lemma MarkReady(r: Run, b: nat, p: nat, tx: TxId, m: Manifest, generation: nat)
    requires ValidRun(r) && Listed(r, b, tx, m, generation) && m.status == Committed && b <= p < |r.states|
    requires ActiveGeneration(r.states[p], tx) == generation
    ensures Enabled(r.states[p], Mark(tx))
    ensures Apply(r.states[p], Mark(tx)).active == r.states[p].active[tx := Stored(m.(derivedApplied := true), r.states[p].nextGen)]
  {
    RunInv(r, b);
    SameManifest(r, b, p, tx);
  }

  /** Notes in the manifest that its derived work is done, unless it says so. */
  method MarkManifest(ns: Namespace, tx: TxId, m: Manifest, generation: nat, ghost b: nat)
    returns (ok: bool, generation': nat, ghost b': nat)
    requires ns.Valid() && Listed(ns.run, b, tx, m, generation) && m.status == Committed
    modifies ns
    ensures ns.Valid() && Continues(old(ns.run), ns.run, {})
    ensures ok ==> Listed(ns.run, b', tx, m.(derivedApplied := true), generation')
    ensures old(ns.others) <= ns.others
    ensures ns.others == old(ns.others) && old(ActiveGeneration(ns.s, tx)) == generation ==> ok && ActiveGeneration(ns.s, tx) == generation'
  {
    ok, generation', b' := true, generation, b;
    if !m.derivedApplied {
      ns.Interfere({}, None);
      if ActiveGeneration(ns.s, tx) == generation {
        MarkReady(ns.run, b, |ns.run.steps|, tx, m, generation);
      }
      ghost var before := ns.run;
      ok, generation' := ns.PutManifest(tx, m.(derivedApplied := true), generation, Mark(tx));
      b' := |ns.run.steps|;
      if ok {
        ContinueOne(old(ns.run), before, ns.run, {});
      }
    }
  }

  method MarkAndArchive(ns: Namespace, tx: TxId, m: Manifest, generation: nat, ghost b: nat) returns (result: Outcome)
    requires ns.Valid() && Listed(ns.run, b, tx, m, generation) && m.status == Committed
    modifies ns
    ensures ns.Valid() && Continues(old(ns.run), ns.run, {})
    ensures result == Finished ==> tx in ns.s.journal && Terminal(ns.s, tx)
    ensures result == Finished || result == Conflicted
    ensures old(ns.others) <= ns.others
    ensures ns.others == old(ns.others) && old(ActiveGeneration(ns.s, tx)) == generation ==> result == Finished
  {
    var ok, generation';
    ghost var b';
    ok, generation', b' := MarkManifest(ns, tx, m, generation, b);
    if ok {
      ghost var marked := ns.run;
      ok := Archive(ns, tx, m.(derivedApplied := true), generation', b');
      ContinueAll(old(ns.run), marked, ns.run, {});
    }
    result := if ok then Finished else Conflicted;
  }

  /** What recovery leaves behind for one listed manifest: it is decided, or its lease was
      still running when recovery looked at it, or its own client was still at work and
      rewrote it in the meantime. */
  ghost predicate Attended(r: Run, a: nat, tx: TxId) {
    && |r.states| == |r.steps| + 1
    && (|| Terminal(r.states[|r.steps|], tx)
        || (exists i | a <= i < |r.states| :: StillLeased(r.states[i], tx))
        || (exists i | a <= i < |r.steps| :: PlanOf(r.steps[i], tx)))
  }

  ghost predicate StillLeased(s: State, tx: TxId) {
    ActivePreparing(s, tx) && s.now < s.active[tx].data.leaseUntil
  }

  lemma AttendedKept(r0: Run, r1: Run, a: nat, tx: TxId)
    requires Attended(r0, a, tx) && ValidRun(r1) && r0.states <= r1.states && r0.steps <= r1.steps
    ensures Attended(r1, a, tx)
  {
    if Terminal(r0.states[|r0.steps|], tx) {
      TerminalKept(r1, |r0.steps|, |r1.steps|, tx);
    } else if i :| a <= i < |r0.states| && StillLeased(r0.states[i], tx) {
      assert StillLeased(r1.states[i], tx);
    } else {
      var i :| a <= i < |r0.steps| && PlanOf(r0.steps[i], tx);
      assert PlanOf(r1.steps[i], tx);
    }
  }

  lemma DiscardReady(r: Run, a: nat, p: nat, tx: TxId, k: Key)
    requires ValidRun(r) && a <= p < |r.states| && !Cleared(r.states[a], tx, k) && GenAt(r.states[p], k) == GenAt(r.states[a], k)
    requires HasStatus(r.states[p], tx, Aborted)
    ensures CanDiscard(r.states[p], k) && EnvAt(r.states[p], k) == EnvAt(r.states[a], k)
  {
    SameGeneration(r, a, p, k);
    PendingUntil(r, a, k);
    ClientKept(r, a, p, tx);
  }

  /** Clears an aborted transaction out of one object, if that is unchanged. */
  method DiscardParticipant(ns: Namespace, tx: TxId, k: Key)
    requires ns.Valid() && HasStatus(ns.s, tx, Aborted)
    modifies ns
    ensures ns.Valid() && Continues(old(ns.run), ns.run, {}) && HasStatus(ns.s, tx, Aborted)
    ensures ClearedSince(ns.run, old(|ns.run.steps|), tx, k)
    ensures old(ns.others) <= ns.others && (ns.others == old(ns.others) ==> ns.s.active == old(ns.s.active))
  {
    ns.Interfere({}, None);
    ghost var a := |ns.run.steps|;
    var e, generation := EnvAt(ns.s, k), GenAt(ns.s, k);
    if e.pending.Some? && e.pending.value.tx == tx {
      ghost var loaded := ns.run;
      ns.Interfere({}, None);
      ContinueAll(old(ns.run), loaded, ns.run, {});
      DecisionFinal(ns.run, old(|ns.run.steps|), |ns.run.steps|, tx, Aborted);
      ghost var before := ns.run;
      if GenAt(ns.s, k) == generation {
        DiscardReady(ns.run, a, |ns.run.steps|, tx, k);
      } else {
        RewrittenAway(ns.run, a, |ns.run.steps|, tx, k);
      }
      var cleared, _ := ns.PutEnvelope(k, Envelope(e.current, None), generation, Discard(k));
      if cleared {
        ContinueOne(old(ns.run), before, ns.run, {});
      }
      assert Cleared(ns.run.states[|ns.run.steps|], tx, k);
    } else {
      assert Cleared(ns.run.states[a], tx, k);
    }
    DecisionFinal(ns.run, old(|ns.run.steps|), |ns.run.steps|, tx, Aborted);
  }

  /** Resolves the participants of a decided transaction: it is cleared out of every one of them,
      by this process or by others. */
  method ResolveParticipants(ns: Namespace, tx: TxId, m: Manifest)
    requires ns.Valid() && m.status != Preparing && HasStatus(ns.s, tx, m.status)
    modifies ns
    ensures ns.Valid() && Continues(old(ns.run), ns.run, {}) && HasStatus(ns.s, tx, m.status)
    ensures AllClearedSince(ns.run, old(|ns.run.steps|), tx, m.participants)
    ensures old(ns.others) <= ns.others && (ns.others == old(ns.others) ==> ns.s.active == old(ns.s.active))
  {
    for i := 0 to |m.participants|
      invariant ns.Valid() && Continues(old(ns.run), ns.run, {}) && HasStatus(ns.s, tx, m.status)
      invariant AllClearedSince(ns.run, old(|ns.run.steps|), tx, m.participants[..i])
      invariant old(ns.others) <= ns.others && (ns.others == old(ns.others) ==> ns.s.active == old(ns.s.active))
    {
      ghost var before := ns.run;
      if m.status == Committed {
        var promoted := PromoteParticipant(ns, tx, m.participants[i]);
        assert Cleared(ns.run.states[|ns.run.steps|], tx, m.participants[i]);
      } else {
        DiscardParticipant(ns, tx, m.participants[i]);
      }
      ContinueAll(old(ns.run), before, ns.run, {});
      AllClearedStill(before, ns.run, old(|ns.run.steps|), old(|ns.run.steps|), tx, m.participants[..i]);
      assert m.participants[..i + 1] == m.participants[..i] + [m.participants[i]];
    }
    assert m.participants[..|m.participants|] == m.participants;
  }

  lemma StepApplied(s: State, l: Step, tx: TxId)
    requires Enabled(s, l) && ManifestsOk(s) && tx in s.active && s.active[tx].data.status == Committed && tx in Apply(s, l).active
    ensures Apply(s, l).active[tx].data.status == Committed
    ensures s.active[tx].data.derivedApplied ==> Apply(s, l).active[tx].data.derivedApplied
    ensures Apply(s, l).active[tx].data.participants == s.active[tx].data.participants
    ensures l != Mark(tx) ==> Apply(s, l).active[tx] == s.active[tx]
  {
  }

  /** What a committed manifest lists stays, and so does the note that its work is done. */
  lemma {:induction false} AppliedKept(r: Run, a: nat, b: nat, tx: TxId)
    requires ValidRun(r) && a <= b < |r.states| && tx in r.states[a].active && r.states[a].active[tx].data.status == Committed
    requires tx in r.states[b].active
    ensures r.states[b].active[tx].data.status == Committed
    ensures r.states[a].active[tx].data.derivedApplied ==> r.states[b].active[tx].data.derivedApplied
    ensures r.states[b].active[tx].data.participants == r.states[a].active[tx].data.participants
    decreases b
  {
    if a < b {
      if tx !in r.states[b - 1].active {
        GoneIsArchived(r, a, b - 1, tx);
        ArchivedKept(r, b - 1, b, tx);
      }
      AppliedKept(r, a, b - 1, tx);
      RunInv(r, b - 1);
      assert StepAt(r, b - 1);
      StepApplied(r.states[b - 1], r.steps[b - 1], tx);
    }
  }

  lemma StepUnlists(s: State, l: Step, tx: TxId)
    requires Enabled(s, l) && tx in s.active && tx !in Apply(s, l).active
    ensures WorkDone(s.active[tx].data)
  {
  }

  /** A committed transaction with derived work leaves the active list only after that work has
      been marked as applied. */
  lemma {:induction false} MarkedBeforeGone(r: Run, a: nat, b: nat, tx: TxId) returns (i: nat)
    requires ValidRun(r) && a <= b < |r.states| && tx in r.states[a].active && tx !in r.states[b].active
    requires r.states[a].active[tx].data.status == Committed && !r.states[a].active[tx].data.derivedApplied
    ensures a <= i < b && r.steps[i] == Mark(tx)
    decreases b - a
  {
    RunInv(r, a);
    assert StepAt(r, a);
    i := a;
    if r.steps[a] != Mark(tx) {
      if tx !in r.states[a + 1].active {
        StepUnlists(r.states[a], r.steps[a], tx);
      }
      StepApplied(r.states[a], r.steps[a], tx);
      i := MarkedBeforeGone(r, a + 1, b, tx);
    }
  }

  /** Archived, or waiting for its derived work to be applied. */
  ghost predicate FinishedSince(r: Run, start: nat, tx: TxId) {
    && r.states != []
    && (|| Archived(r.states[|r.states| - 1], tx)
        || exists i | start <= i < |r.states| :: AwaitsWork(r.states[i], tx))
  }

  ghost predicate AwaitsWork(s: State, tx: TxId) {
    tx in s.active && !WorkDone(s.active[tx].data)
  }

  /** At j the manifest said m, and its work was done. */
  ghost predicate Read(r: Run, j: nat, tx: TxId, m: Manifest) {
    j < |r.states| && tx in r.states[j].active && r.states[j].active[tx].data == m
  }

  /** Looks at the manifest again, and finalizes or archives the one found. */
  method FinishRecovered(ns: Namespace, tx: TxId, m0: Manifest, ghost j: nat) returns (ok: bool)
    requires ns.Valid() && m0.status != Preparing && Read(ns.run, j, tx, m0)
    modifies ns
    ensures ns.Valid() && Continues(old(ns.run), ns.run, {}) && HasStatus(ns.s, tx, m0.status)
    ensures ok ==> FinishedSince(ns.run, old(|ns.run.steps|), tx)
    ensures old(ns.others) <= ns.others && (ns.others == old(ns.others) ==> ok && OnlyManifest(old(ns.s), ns.s, tx))
  {
    ns.Interfere({}, None);
    DecisionFinal(ns.run, j, |ns.run.steps|, tx, m0.status);
    ok := true;
    if tx in ns.s.active {
      ghost var b := |ns.run.steps|;
      ghost var loaded := ns.run;
      var m, generation := ns.s.active[tx].data, ns.s.active[tx].generation;
      if m0.status == Committed {
        AppliedKept(ns.run, j, b, tx);
      }
      if m0.status == Committed && !m0.derivedApplied {
        assert !m.derivedApplied ==> AwaitsWork(ns.run.states[b], tx);
        ok := FinalizeCommitted(ns, tx, m, generation, b);
      } else {
        ok := Archive(ns, tx, m, generation, b);
      }
      ContinueAll(old(ns.run), loaded, ns.run, {});
    }
    DecisionFinal(ns.run, j, |ns.run.steps|, tx, m0.status);
  }

  /** Aborts an expired manifest; a commit may win that race, and then its manifest is read
      again. None means that it is gone, or that its client is still at work. */
  method DecideExpired(ns: Namespace, tx: TxId, m: Manifest, generation: nat, ghost b: nat) returns (decided: Option<Manifest>)
    requires ns.Valid() && Listed(ns.run, b, tx, m, generation) && m.status == Preparing && m.leaseUntil <= ns.run.states[b].now
    modifies ns
    ensures ns.Valid() && Continues(old(ns.run), ns.run, {})
    ensures decided.Some? ==> decided.value.status != Preparing && Read(ns.run, |ns.run.steps|, tx, decided.value)
    ensures decided.None? ==> Attended(ns.run, b, tx)
    ensures old(ns.others) <= ns.others
    ensures ns.others == old(ns.others) ==> OnlyManifest(old(ns.s), ns.s, tx) && (old(ActiveGeneration(ns.s, tx)) == generation ==> decided.Some?)
  {
    ns.Interfere({}, None);
    if ActiveGeneration(ns.s, tx) == generation {
      ExpireReady(ns.run, b, |ns.run.steps|, tx, m, generation);
    }
    ghost var before := ns.run;
    var aborted, _ := ns.PutManifest(tx, m.(status := Aborted), generation, Expire(tx));
    if aborted {
      ContinueOne(old(ns.run), before, ns.run, {});
      return Some(m.(status := Aborted));
    }
    ns.Interfere({}, None);
    ContinueAll(old(ns.run), before, ns.run, {});
    decided := if tx in ns.s.active && ns.s.active[tx].data.status != Preparing then Some(ns.s.active[tx].data) else None;
    if decided.None? {
      LostAttended(before, ns.run, b, tx, m, generation);
    }
  }

  /** The abort lost a race: the manifest is gone, or was rewritten by its client. */
  lemma LostAttended(r0: Run, r1: Run, b: nat, tx: TxId, m: Manifest, generation: nat)
    requires ValidRun(r0) && ValidRun(r1) && Listed(r0, b, tx, m, generation)
    requires r0.states <= r1.states && r0.steps <= r1.steps
    requires ActiveGeneration(r0.states[|r0.steps|], tx) != generation
    requires tx in r1.states[|r1.steps|].active ==> r1.states[|r1.steps|].active[tx].data.status == Preparing
    ensures Attended(r1, b, tx)
  {
    var p, q := |r0.steps|, |r1.steps|;
    if tx !in r1.states[q].active {
      GoneIsArchived(r1, b, q, tx);
      JournalTerminal(r1, q, tx);
    } else {
      RewrittenByPlan(r1, b, q, tx);
      if tx !in r1.states[p].active {
        GoneIsArchived(r1, b, p, tx);
        ArchivedKept(r1, p, q, tx);
      } else {
        ManifestFrozen(r1, b, p, tx);
        ManifestFrozen(r1, p, q, tx);
        RunInv(r1, b);
        RunInv(r1, p);
      }
    }
  }

  datatype Recovered = Skipped | Resolved | Failed

  /** Since l the transaction was found decided, cleared out of all objects that its manifest
      lists, and archived unless it waits for its derived work. */
  ghost predicate ResolvedSince(r: Run, l: nat, tx: TxId) {
    && |r.states| == |r.steps| + 1 && Terminal(Last(r), tx) && FinishedSince(r, l, tx)
    && exists i, m | l <= i < |r.states| && Read(r, i, tx, m) :: AllClearedSince(r, l, tx, m.participants)
  }

  /** One listed manifest: aborted if it has expired, its participants resolved if it is
      decided, then finalized or archived. Its lease protects it, whatever else it may be. */
  method RecoverOne(ns: Namespace, tx: TxId, ghost l: nat) returns (result: Recovered)
    requires ns.Valid() && l < |ns.run.states| && tx in ns.run.states[l].active
    modifies ns
    ensures ns.Valid() && Continues(old(ns.run), ns.run, {}) && Attended(ns.run, l, tx)
    ensures result == Failed ==> Terminal(ns.s, tx)
    ensures result == Resolved ==> ResolvedSince(ns.run, l, tx)
    ensures old(ns.others) <= ns.others && (ns.others == old(ns.others) ==> OnlyManifest(old(ns.s), ns.s, tx) && result != Failed)
    ensures ns.others == old(ns.others) && tx in old(ns.s.active) && result == Skipped ==> LeasedSince(ns.run, l, tx)
  {
    ns.Interfere({}, None);
    ghost var b, loaded := |ns.run.steps|, ns.run;
    if tx !in ns.s.active {
      GoneIsArchived(ns.run, l, b, tx);
      JournalTerminal(ns.run, b, tx);
      return Skipped;
    }
    var m, generation := ns.s.active[tx].data, ns.s.active[tx].generation;
    ghost var j := b;
    if m.status == Preparing {
      if ns.s.now < m.leaseUntil {
        assert StillLeased(ns.run.states[b], tx);
        return Skipped;
      }
      var decided := DecideExpired(ns, tx, m, generation, b);
      ContinueAll(old(ns.run), loaded, ns.run, {});
      if decided.None? {
        AttendedSooner(ns.run, b, l, tx);
        return Skipped;
      }
      m, j := decided.value, |ns.run.steps|;
    }
    ghost var decided := ns.run;
    result := ResolveAndFinish(ns, tx, m, l, j);
    ContinueAll(old(ns.run), decided, ns.run, {});
  }

  ghost predicate LeasedSince(r: Run, a: nat, tx: TxId) {
    exists i | a <= i < |r.states| :: StillLeased(r.states[i], tx)
  }

  lemma AttendedSooner(r: Run, b: nat, l: nat, tx: TxId)
    requires Attended(r, b, tx) && l <= b
    ensures Attended(r, l, tx)
  {
    if i :| b <= i < |r.states| && StillLeased(r.states[i], tx) {
      assert l <= i;
    } else if i :| b <= i < |r.steps| && PlanOf(r.steps[i], tx) {
      assert l <= i;
    }
  }

  method ResolveAndFinish(ns: Namespace, tx: TxId, m: Manifest, ghost l: nat, ghost j: nat) returns (result: Recovered)
    requires ns.Valid() && m.status != Preparing && l <= j && Read(ns.run, j, tx, m)
    modifies ns
    ensures ns.Valid() && Continues(old(ns.run), ns.run, {}) && Terminal(ns.s, tx)
    ensures result != Skipped && (result == Resolved ==> ResolvedSince(ns.run, l, tx))
    ensures old(ns.others) <= ns.others && (ns.others == old(ns.others) ==> OnlyManifest(old(ns.s), ns.s, tx) && result == Resolved)
  {
    DecisionFinal(ns.run, j, |ns.run.steps|, tx, m.status);
    ResolveParticipants(ns, tx, m);
    ghost var resolved := ns.run;
    var ok := FinishRecovered(ns, tx, m, j);
    ContinueAll(old(ns.run), resolved, ns.run, {});
    AllClearedStill(resolved, ns.run, old(|ns.run.steps|), l, tx, m.participants);
    if ok {
      FinishedSooner(ns.run, |resolved.steps|, l, tx);
      assert Read(ns.run, j, tx, m);
    }
    result := if ok then Resolved else Failed;
  }

  lemma FinishedSooner(r: Run, b: nat, l: nat, tx: TxId)
    requires FinishedSince(r, b, tx) && l <= b
    ensures FinishedSince(r, l, tx)
  {
  }

  lemma ResolvedStill(r0: Run, r1: Run, l: nat, tx: TxId)
    requires ResolvedSince(r0, l, tx) && ValidRun(r1) && r0.states <= r1.states && r0.steps <= r1.steps
    ensures ResolvedSince(r1, l, tx)
  {
    TerminalKept(r1, |r0.steps|, |r1.steps|, tx);
    if Archived(Last(r0), tx) {
      ArchivedKept(r1, |r0.steps|, |r1.steps|, tx);
    } else {
      var i :| l <= i < |r0.states| && AwaitsWork(r0.states[i], tx);
      assert AwaitsWork(r1.states[i], tx);
    }
    var i, m :| l <= i < |r0.states| && Read(r0, i, tx, m) && AllClearedSince(r0, l, tx, m.participants);
    AllClearedStill(r0, r1, l, l, tx, m.participants);
    assert Read(r1, i, tx, m);
  }

  ghost predicate AllAttended(r: Run, l: nat, txs: seq<TxId>) {
    forall tx | tx in txs :: Attended(r, l, tx)
  }

  lemma AllAttendedKept(r0: Run, r1: Run, l: nat, txs: seq<TxId>)
    requires AllAttended(r0, l, txs) && ValidRun(r1) && r0.states <= r1.states && r0.steps <= r1.steps
    ensures AllAttended(r1, l, txs)
  {
    forall tx | tx in txs ensures Attended(r1, l, tx) {
      AttendedKept(r0, r1, l, tx);
    }
  }

  /** The keys of all active manifests at one instant, in some order. */
  method ListActive(ns: Namespace) returns (txs: seq<TxId>, ghost l: nat)
    requires ns.Valid()
    modifies ns
    ensures ns.Valid() && Continues(old(ns.run), ns.run, {})
    ensures old(|ns.run.steps|) <= l == |ns.run.steps| && old(ns.others) <= ns.others
    ensures forall tx :: tx in txs <==> tx in ns.s.active
    ensures forall i, j | 0 <= i < j < |txs| :: txs[i] != txs[j]
  {
    ns.Interfere({}, None);
    l := |ns.run.steps|;
    txs := [];
    var rest := ns.s.active.Keys;
    while rest != {}
      invariant forall tx :: tx in ns.s.active <==> tx in txs || tx in rest
      invariant forall tx | tx in rest :: tx !in txs
      invariant forall i, j | 0 <= i < j < |txs| :: txs[i] != txs[j]
    {
      var tx :| tx in rest;
      txs, rest := txs + [tx], rest - {tx};
    }
  }

  /** All that a pass has resolved so far; every other transaction it looked at has a lease that
      was still running, unless others were at work. */
  ghost predicate PassedOver(r: Run, l: nat, txs: seq<TxId>, resolved: seq<TxId>, calm: bool) {
    && (forall tx | tx in resolved :: tx in txs && ResolvedSince(r, l, tx))
    && (calm ==> forall tx | tx in txs :: tx in resolved || LeasedSince(r, l, tx))
  }

  lemma StillResolved(r0: Run, r1: Run, l: nat, resolved: seq<TxId>)
    requires ValidRun(r1) && r0.states <= r1.states && r0.steps <= r1.steps && forall t | t in resolved :: ResolvedSince(r0, l, t)
    ensures forall t | t in resolved :: ResolvedSince(r1, l, t)
  {
    forall t | t in resolved ensures ResolvedSince(r1, l, t) {
      ResolvedStill(r0, r1, l, t);
    }
  }

  lemma PassedOne(r0: Run, r1: Run, l: nat, txs: seq<TxId>, resolved: seq<TxId>, calm: bool, tx: TxId, done: bool)
    requires PassedOver(r0, l, txs, resolved, calm) && ValidRun(r1) && r0.states <= r1.states && r0.steps <= r1.steps
    requires if done then ResolvedSince(r1, l, tx) else calm ==> LeasedSince(r1, l, tx)
    ensures PassedOver(r1, l, txs + [tx], if done then resolved + [tx] else resolved, calm)
  {
    StillResolved(r0, r1, l, resolved);
    if calm {
      forall t | t in txs && t !in resolved ensures LeasedSince(r1, l, t) {
        var i :| l <= i < |r0.states| && StillLeased(r0.states[i], t);
        assert StillLeased(r1.states[i], t);
      }
    }
  }

  predicate AllListed(s: State, txs: seq<TxId>) {
    (forall tx | tx in txs :: tx in s.active) && forall i, j | 0 <= i < j < |txs| :: txs[i] != txs[j]
  }

  lemma RestListed(s0: State, s1: State, txs: seq<TxId>)
    requires txs != [] && AllListed(s0, txs) && OnlyManifest(s0, s1, txs[0])
    ensures AllListed(s1, txs[1..])
  {
    forall tx | tx in txs[1..] ensures tx in s1.active {
      var i :| 0 <= i < |txs| - 1 && txs[1..][i] == tx;
      assert txs[i + 1] == tx;
    }
  }

  /** Recovery over all listed manifests. A pass that does not fail leaves no listed transaction
      behind whose client has crashed and whose lease has run out; and a pass that nobody disturbs
      does not fail, and resolves all of them. */
  method RecoverTransactions(ns: Namespace) returns (ok: bool, recovered: nat, txs: seq<TxId>, ghost l: nat, ghost resolved: seq<TxId>)
    requires ns.Valid()
    modifies ns
    ensures ns.Valid() && Continues(old(ns.run), ns.run, {})
    ensures old(|ns.run.steps|) <= l < |ns.run.states| && forall tx :: tx in txs <==> tx in ns.run.states[l].active
    ensures ok ==> AllAttended(ns.run, l, txs)
    ensures recovered == |resolved|
    ensures forall tx | tx in resolved :: tx in txs && ResolvedSince(ns.run, l, tx)
    ensures old(ns.others) <= ns.others
    ensures ns.others == old(ns.others) ==> ok && PassedOver(ns.run, l, txs, resolved, true)
  {
    txs, l := ListActive(ns);
    ok, recovered, resolved := true, 0, [];
    ghost var listed, quiet := ns.run, ns.others;
    for i := 0 to |txs|
      invariant ns.Valid() && Continues(old(ns.run), ns.run, {}) && listed.states <= ns.run.states
      invariant AllAttended(ns.run, l, txs[..i])
      invariant recovered == |resolved| && PassedOver(ns.run, l, txs[..i], resolved, ns.others == quiet)
      invariant quiet <= ns.others && (ns.others == quiet ==> AllListed(ns.s, txs[i..]))
    {
      assert txs[i..][0] == txs[i] && txs[i..][1..] == txs[i + 1..];
      ghost var before, s0 := ns.run, ns.s;
      var result := RecoverOne(ns, txs[i], l);
      ContinueAll(old(ns.run), before, ns.run, {});
      AllAttendedKept(before, ns.run, l, txs[..i]);
      assert txs[..i + 1] == txs[..i] + [txs[i]];
      if ns.others == quiet {
        RestListed(s0, ns.s, txs[i..]);
      }
      if result == Failed {
        StillResolved(before, ns.run, l, resolved);
        return false, recovered, txs, l, resolved;
      }
      PassedOne(before, ns.run, l, txs[..i], resolved, ns.others == quiet, txs[i], result == Resolved);
      if result == Resolved {
        recovered, resolved := recovered + 1, resolved + [txs[i]];
      }
    }
    assert txs[..|txs|] == txs;
  }
}
