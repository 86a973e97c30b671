/** One attempt of a lease-free rename inside a directory: snapshots of the shards, pending
    values written against the generations read, and one conditional write that both creates
    and decides the transaction. */
module CommitRename {
  import opened Wrappers
  import opened CommitModel
  import opened CommitInvariant
  import opened CommitTheorems
  import opened CommitSerial
  import opened CommitRely
  import opened CommitObstacles
  import opened CommitStore
  import opened CommitTransaction

  /** value is what an envelope loaded at g stands for, its transaction being decided by j. */
  ghost predicate Resolved(r: Run, g: nat, j: nat, k: Key, value: Option<Raw>) {
    && g <= j < |r.states|
    && var e := EnvAt(r.states[g], k);
    && (e.pending.None? ==> value == e.current)
    && (e.pending.Some? ==>
          && Terminal(r.states[j], e.pending.value.tx)
          && value == if HasStatus(r.states[j], e.pending.value.tx, Committed) then e.pending.value.write else e.current)
  }

  /** If the object still has the generation that was read, then what was read is what is
      visible now, and was when it was noted. */
  lemma SnapshotReady(r: Run, g: nat, j: nat, p: nat, id: TxId, k: Key, value: Option<Raw>)
    requires ValidRun(r) && Resolved(r, g, j, k, value) && j <= p < |r.states|
    requires GenAt(r.states[p], k) == GenAt(r.states[g], k)
    ensures Ver(r.states[p], k) == Ver(r.states[j], k) && MayOverwrite(r.states[p], id, k)
    ensures Visible(r.states[p], k) == value && Visible(r.states[j], k) == value
  {
    SeenGeneration(r, g, j, p, k);
    FrozenVersion(r, j, p, k);
    var e := EnvAt(r.states[g], k);
    if e.pending.Some? {
      TerminalKept(r, j, p, e.pending.value.tx);
    }
  }

  ghost predicate Snapshotted(r: Run, c: Client, id: TxId, k: Key, got: Got, w: Witness) {
    ReadFact(r, c, id, k, got, true, w) && Resolved(r, w.g, w.j, k, got.value)
  }

  /** The read step itself, taken once the value is known. */
  method NoteRead(ns: Namespace, id: TxId, k: Key, value: Option<Raw>, generation: nat, ghost g: nat) returns (got: Got, ghost w: Witness)
    requires ns.Valid() && CanRead(ns.s, id, k)
    requires Resolved(ns.run, g, |ns.run.steps|, k, value) && GenAt(ns.run.states[g], k) == generation
    modifies ns
    ensures ns.Valid() && ns.s.now == old(ns.s.now) && ns.s.slack == old(ns.s.slack)
    ensures ns.run == Run(old(ns.run.states) + [ns.s], old(ns.run.steps) + [Read(id, k)])
    ensures id in ns.s.clients && Snapshotted(ns.run, ns.s.clients[id], id, k, got, w) && w.g == g
    ensures ns.s.clients[id] == old(ns.s.clients[id]).(seen := old(ns.s.clients[id]).seen[k := ns.s.clients[id].seen[k]])
  {
    got, w := Got(value, generation), Witness(|ns.run.steps|, |ns.run.steps|, g);
    ns.Take(Read(id, k));
  }

  /** A read insists on nothing. */
  function Reading(k: Key): Mutation {
    Mutation(k, None, false, None)
  }

  /** One look at a shard. A decided pending value is seen through, leaving the object as it
      is; an undecided one whose lease still runs is a conflict; otherwise it is cleared. */
  method SnapshotOnce(ns: Namespace, id: TxId, k: Key, deadline: nat) returns (ok: bool, again: bool, got: Got, ghost w: Witness)
    requires ns.Valid() && CanRead(ns.s, id, k) && ns.s.now < deadline
    modifies ns
    ensures ns.Valid() && OnlyReads(old(ns.run), ns.run, id, k) && id in ns.s.clients && ns.s.now < deadline
    ensures ok ==> Snapshotted(ns.run, ns.s.clients[id], id, k, got, w) && old(|ns.run.steps|) <= w.g
    ensures ok ==> ns.s.clients[id] == old(ns.s.clients[id]).(seen := old(ns.s.clients[id]).seen[k := ns.s.clients[id].seen[k]])
    ensures !ok ==> ns.s.clients[id] == old(ns.s.clients[id])
    ensures !ok && again ==> 0 < Rewrites(ns.run, old(|ns.run.steps|), |ns.run.steps|, k, id)
    ensures !ok && !again ==> Obstructed(ns.run, old(|ns.run.steps|), Reading(k), id)
  {
    ok, again, got, w := false, false, Got(None, 0), Witness(0, 0, 0);
    ns.Interfere({id}, Some(deadline));
    QuietlyContinues(old(ns.run), ns.run, {id}, id);
    MineKept(ns.run, old(|ns.run.steps|), |ns.run.steps|, {id}, id);
    ghost var a := |ns.run.steps|;
    var e, generation := EnvAt(ns.s, k), GenAt(ns.s, k);
    var value := e.current;
    ok := e.pending.None?;
    if !ok {
      ghost var loaded := ns.run;
      ok, again, value := SeeThrough(ns, id, k, e, generation, deadline, a);
      QuietlyContinues(loaded, ns.run, {id}, id);
      QuietlyAll(old(ns.run), loaded, ns.run, id);
      RewritesAdd(ns.run, old(|ns.run.steps|), a, |ns.run.steps|, k, id);
      assert !ok && !again ==> ObstructedAt(ns.run, a, Reading(k), id);
    }
    OnlyReadsQuiet(old(ns.run), old(ns.run), ns.run, id, k);
    if ok {
      ghost var decided := ns.run;
      got, w := NoteRead(ns, id, k, value, generation, a);
      OnlyReadsOne(old(ns.run), decided, ns.run, id, k);
    }
  }

  method SeeThrough(ns: Namespace, id: TxId, k: Key, e: Envelope, generation: nat, deadline: nat, ghost a: nat)
    returns (ok: bool, again: bool, value: Option<Raw>)
    requires ns.Valid() && id in ns.s.clients && ns.s.now < deadline
    requires a == |ns.run.steps| && GenAt(ns.s, k) == generation && EnvAt(ns.s, k) == e && e.pending.Some?
    modifies ns
    ensures ns.Valid() && Continues(old(ns.run), ns.run, {id}) && id in ns.s.clients && ns.s.now < deadline
    ensures ns.s.clients[id] == old(ns.s.clients[id])
    ensures ok ==> Resolved(ns.run, a, |ns.run.steps|, k, value)
    ensures Terminal(ns.run.states[a], e.pending.value.tx) ==> ok
    ensures !ok && again ==> 0 < Rewrites(ns.run, a, |ns.run.steps|, k, id)
    ensures !ok && !again ==> Stands(ns.run, a, e.pending.value) || 0 < Rewrites(ns.run, a, |ns.run.steps|, k, id)
  {
    ok, again, value := false, false, e.current;
    var tx := e.pending.value.tx;
    var m, looked, b, c := ns.ReadTransactionDecision(tx, {id}, Some(deadline));
    ghost var decided := ns.run;
    DecisionNeverMissed(ns.run, a, b, c, tx, Committed);
    DecisionNeverMissed(ns.run, a, b, c, tx, Aborted);
    if m.Some? && m.value.status != Preparing {
      ok := true;
      if m.value.status == Committed {
        value := e.pending.value.write;
      } else {
        NotBoth(ns.run, c, tx);
      }
    } else if m.Some? || e.pending.value.until <= ns.s.now {
      again := ns.NormalizeEnvelope(k, generation, e, {id}, Some(deadline), a);
      ContinueAll(old(ns.run), decided, ns.run, {id});
      if GenAt(ns.s, k) != generation {
        RewrittenSince(ns.run, a, |ns.run.steps|, k, id);
      } else {
        StandsLater(ns.run, ns.run, a, |decided.steps|, e.pending.value);
      }
    } else {
      NothingFound(ns.run, b, c, e.pending.value);
    }
    MineKept(ns.run, old(|ns.run.steps|), |ns.run.steps|, {id}, id);
  }

  /** Finding no decision means that there was none; and if the lease in the pending value runs
      when that is known, it is in doubt. */
  lemma NothingFound(r: Run, b: nat, c: nat, p: Pending)
    requires ValidRun(r) && b <= c < |r.states| && Looked(r, b, c, p.tx).None? && r.states[c].now < p.until
    ensures Stands(r, b, p)
  {
    DecisionNeverMissed(r, b, b, c, p.tx, Committed);
    DecisionNeverMissed(r, b, b, c, p.tx, Aborted);
    assert InDoubt(r.states[b], p, r.states[c].now);
  }

  lemma NotBoth(r: Run, c: nat, tx: TxId)
    requires c < |r.states| && HasStatus(r.states[c], tx, Aborted)
    ensures !HasStatus(r.states[c], tx, Committed)
  {
  }

  /** A snapshot of one shard, starting again after clearing a stale pending value. */
  method ReadSnapshot(ns: Namespace, id: TxId, k: Key, attempts: nat, deadline: nat) returns (ok: bool, got: Got, ghost w: Witness)
    requires ns.Valid() && CanRead(ns.s, id, k) && ns.s.clients[id].rename && ns.s.now < deadline
    modifies ns
    ensures ns.Valid() && OnlyReads(old(ns.run), ns.run, id, k) && id in ns.s.clients && ns.s.now < deadline
    ensures ok ==> Snapshotted(ns.run, ns.s.clients[id], id, k, got, w) && old(|ns.run.steps|) <= w.g
    ensures ok ==> ns.s.clients[id] == old(ns.s.clients[id]).(seen := old(ns.s.clients[id]).seen[k := ns.s.clients[id].seen[k]])
    ensures !ok ==> ns.s.clients[id] == old(ns.s.clients[id]) && Unprepared(ns.run, old(|ns.run.steps|), Reading(k), id, attempts)
  {
    ok, got, w := false, Got(None, 0), Witness(0, 0, 0);
    for attempt := 0 to attempts
      invariant ns.Valid() && OnlyReads(old(ns.run), ns.run, id, k) && !ok && ns.s.now < deadline
      invariant id in ns.s.clients && ns.s.clients[id] == old(ns.s.clients[id])
      invariant attempt <= Rewrites(ns.run, old(|ns.run.steps|), |ns.run.steps|, k, id)
    {
      ghost var before := ns.run;
      var again;
      ok, again, got, w := SnapshotOnce(ns, id, k, deadline);
      OnlyReadsAll(old(ns.run), before, ns.run, id, k);
      RewritesAdd(ns.run, old(|ns.run.steps|), |before.steps|, |ns.run.steps|, k, id);
      RewritesKept(before, ns.run, old(|ns.run.steps|), |before.steps|, k, id);
      if ok || !again {
        return;
      }
    }
  }

  lemma OnlyReadsAll(r0: Run, r1: Run, r2: Run, id: TxId, k: Key)
    requires OnlyReads(r0, r1, id, k) && OnlyReads(r1, r2, id, k)
    ensures OnlyReads(r0, r2, id, k)
  {
    forall i | |r0.steps| <= i < |r2.steps| ensures ReadOrQuiet(r2, i, id, k) {
      if i < |r1.steps| {
        assert ReadOrQuiet(r1, i, id, k);
      }
    }
  }

  /** Replaces the observed representation and its own pending value in one conditional write. */
  method PrepareShard(ns: Namespace, id: TxId, k: Key, got: Got, deadline: nat, ghost w: Witness) returns (ok: bool)
    requires ns.Valid() && InPhase(ns.s, id, Planned) && ns.s.clients[id].rename && ns.s.now < deadline
    requires k in ns.s.clients[id].writes && k !in ns.s.clients[id].prepared
    requires Noted(ns.run, ns.s.clients[id], k, got, w) && Resolved(ns.run, w.g, w.j, k, got.value)
    modifies ns
    ensures ns.Valid() && Quietly(old(ns.run), ns.run, id) && id in ns.s.clients && ns.s.now < deadline
    ensures ok ==> Prepared(old(ns.s.clients[id]), ns.s.clients[id], k, true) && Visible(ns.run.states[w.j], k) == got.value
    ensures !ok ==> ns.s.clients[id] == old(ns.s.clients[id]) && GenAt(ns.s, k) != got.generation
  {
    ns.Interfere({id}, Some(deadline));
    QuietlyContinues(old(ns.run), ns.run, {id}, id);
    MineKept(ns.run, old(|ns.run.steps|), |ns.run.steps|, {id}, id);
    if GenAt(ns.s, k) == got.generation {
      SnapshotReady(ns.run, w.g, w.j, |ns.run.steps|, id, k, got.value);
    }
    ghost var before := ns.run;
    var c := ns.s.clients[id];
    var generation;
    ok, generation := ns.PutEnvelope(k, Envelope(got.value, Some(Pending(id, c.writes[k], c.until))), got.generation, Prepare(id, k, true));
    if ok {
      QuietlyOne(old(ns.run), before, ns.run, id);
    }
  }

  /** The shards were loaded no earlier than at start. */
  ghost predicate AllSince(start: nat, gots: map<Key, Got>, ws: map<Key, Witness>) {
    forall k | k in gots :: k in ws && start <= ws[k].g
  }

  ghost predicate AllResolved(r: Run, gots: map<Key, Got>, ws: map<Key, Witness>) {
    gots.Keys == ws.Keys && forall k | k in gots :: Resolved(r, ws[k].g, ws[k].j, k, gots[k].value)
  }

  lemma AllResolvedKept(r0: Run, r1: Run, gots: map<Key, Got>, ws: map<Key, Witness>)
    requires AllResolved(r0, gots, ws) && r0.states <= r1.states
    ensures AllResolved(r1, gots, ws)
  {
    forall k | k in gots ensures Resolved(r1, ws[k].g, ws[k].j, k, gots[k].value) {
      assert Resolved(r0, ws[k].g, ws[k].j, k, gots[k].value);
    }
  }

  lemma AllResolvedAdd(r: Run, gots: map<Key, Got>, ws: map<Key, Witness>, k: Key, got: Got, w: Witness)
    requires AllResolved(r, gots, ws) && Resolved(r, w.g, w.j, k, got.value)
    ensures AllResolved(r, gots[k := got], ws[k := w])
  {
    var gots', ws' := gots[k := got], ws[k := w];
    assert gots'.Keys == ws'.Keys;
    forall k' | k' in gots' ensures Resolved(r, ws'[k'].g, ws'[k'].j, k', gots'[k'].value) {
      if k' != k {
        assert Resolved(r, ws[k'].g, ws[k'].j, k', gots[k'].value);
      }
    }
  }

  /** One of the shards could not be read. */
  ghost predicate SomeUnread(r: Run, start: nat, id: TxId, keys: seq<Key>, attempts: nat) {
    exists k | k in keys :: Unprepared(r, start, Reading(k), id, attempts)
  }

  lemma SomeStillUnread(r0: Run, r1: Run, start: nat, start': nat, id: TxId, keys: seq<Key>, attempts: nat)
    requires SomeUnread(r0, start, id, keys, attempts) && start' <= start
    requires r0.states <= r1.states && r0.steps <= r1.steps && |r1.states| == |r1.steps| + 1
    ensures SomeUnread(r1, start', id, keys, attempts)
  {
    var k :| k in keys && Unprepared(r0, start, Reading(k), id, attempts);
    UnpreparedKept(r0, r1, start, start', Reading(k), id, attempts);
  }

  /** The snapshots of all participants, one after the other. */
  method ReadSnapshots(ns: Namespace, id: TxId, keys: seq<Key>, attempts: nat, deadline: nat)
    returns (ok: bool, gots: map<Key, Got>, ghost ws: map<Key, Witness>)
    requires ns.Valid() && InPhase(ns.s, id, Building) && ns.s.clients[id].rename && ns.s.clients[id].seen == map[]
    requires forall i, j | 0 <= i < j < |keys| :: keys[i] != keys[j]
    requires ns.s.now < deadline
    modifies ns
    ensures ns.Valid() && old(ns.run.states) <= ns.run.states && old(ns.run.steps) <= ns.run.steps && ns.s.now < deadline
    ensures ns.Facts(id, gots, true, ws) && AllResolved(ns.run, gots, ws) && AllSince(old(|ns.run.steps|), gots, ws)
    ensures ok ==> forall k | k in keys :: k in gots
    ensures forall k | k in gots :: k in keys
    ensures ns.s.clients[id] == old(ns.s.clients[id]).(seen := ns.s.clients[id].seen)
    ensures !ok ==> SomeUnread(ns.run, old(|ns.run.steps|), id, keys, attempts)
  {
    ok, gots, ws := true, map[], map[];
    for i := 0 to |keys|
      invariant ns.Valid() && old(ns.run.states) <= ns.run.states && old(ns.run.steps) <= ns.run.steps && ns.s.now < deadline
      invariant ns.Facts(id, gots, true, ws) && AllResolved(ns.run, gots, ws) && ok
      invariant AllSince(old(|ns.run.steps|), gots, ws)
      invariant forall k :: k in gots <==> k in keys[..i]
      invariant ns.s.clients[id] == old(ns.s.clients[id]).(seen := ns.s.clients[id].seen)
    {
      NextOf(keys, i);
      var got;
      ghost var w;
      ghost var before := |ns.run.steps|;
      ok, got, w := ReadNextSnapshot(ns, id, keys[i], attempts, deadline, gots, ws);
      if !ok {
        UnpreparedKept(ns.run, ns.run, before, old(|ns.run.steps|), Reading(keys[i]), id, attempts);
        return;
      }
      gots, ws := gots[keys[i] := got], ws[keys[i] := w];
    }
    assert keys[..|keys|] == keys;
  }

  method ReadNextSnapshot(ns: Namespace, id: TxId, k: Key, attempts: nat, deadline: nat, gots: map<Key, Got>, ghost ws: map<Key, Witness>)
    returns (ok: bool, got: Got, ghost w: Witness)
    requires ns.Valid() && CanRead(ns.s, id, k) && ns.s.clients[id].rename && ns.s.now < deadline
    requires ns.Facts(id, gots, true, ws) && AllResolved(ns.run, gots, ws) && k !in gots
    modifies ns
    ensures ns.Valid() && old(ns.run.states) <= ns.run.states && old(ns.run.steps) <= ns.run.steps && ns.s.now < deadline
    ensures ok ==> ns.Facts(id, gots[k := got], true, ws[k := w]) && AllResolved(ns.run, gots[k := got], ws[k := w]) && old(|ns.run.steps|) <= w.g
    ensures !ok ==> ns.Facts(id, gots, true, ws) && AllResolved(ns.run, gots, ws)
    ensures !ok ==> Unprepared(ns.run, old(|ns.run.steps|), Reading(k), id, attempts)
    ensures ns.s.clients[id] == old(ns.s.clients[id]).(seen := ns.s.clients[id].seen)
  {
    ghost var before, client := ns.run, ns.s.clients[id];
    ok, got, w := ReadSnapshot(ns, id, k, attempts, deadline);
    if ok {
      SnapshotAdded(before, ns.run, client, ns.s.clients[id], id, k, gots, got, ws, w);
    } else {
      SnapshotMissed(before, ns.run, client, id, k, gots, ws);
    }
  }

  lemma SnapshotAdded(r0: Run, r1: Run, c0: Client, c1: Client, id: TxId, k: Key,
                      gots: map<Key, Got>, got: Got, ws: map<Key, Witness>, w: Witness)
    requires AllFacts(r0, c0, id, gots, true, ws) && AllResolved(r0, gots, ws) && k !in gots
    requires OnlyReads(r0, r1, id, k) && |r1.states| == |r1.steps| + 1 && Snapshotted(r1, c1, id, k, got, w)
    requires k in c1.seen && c1.seen == c0.seen[k := c1.seen[k]]
    ensures AllFacts(r1, c1, id, gots[k := got], true, ws[k := w]) && AllResolved(r1, gots[k := got], ws[k := w])
  {
    AllResolvedKept(r0, r1, gots, ws);
    AllFactsGrow(r0, r1, c0, c1, id, k, gots, got, true, ws, w);
    AllResolvedAdd(r1, gots, ws, k, got, w);
  }

  lemma SnapshotMissed(r0: Run, r1: Run, c: Client, id: TxId, k: Key, gots: map<Key, Got>, ws: map<Key, Witness>)
    requires AllFacts(r0, c, id, gots, true, ws) && AllResolved(r0, gots, ws) && k !in gots
    requires OnlyReads(r0, r1, id, k) && |r1.states| == |r1.steps| + 1
    ensures AllFacts(r1, c, id, gots, true, ws) && AllResolved(r1, gots, ws)
  {
    AllResolvedKept(r0, r1, gots, ws);
    assert k !in c.seen;
    AllFactsElsewhere(r0, r1, c, c, id, k, gots, true, ws);
  }

  /** What an edit must respect: it rewrites exactly the shards it read, each against the
      generation it read. */
  predicate GoodEdit(gots: map<Key, Got>, ms: seq<Mutation>) {
    && DistinctKeys(ms) && KeysOf(ms) == gots.Keys
    && forall m | m in ms :: m.key in gots && m.expected == Some(gots[m.key].generation)
  }

  lemma StillNoted(r0: Run, r: Run, c0: Client, c: Client, id: TxId, gots: map<Key, Got>, ws: map<Key, Witness>, k: Key)
    requires AllFacts(r0, c0, id, gots, true, ws) && AllResolved(r0, gots, ws) && k in gots
    requires r0.states <= r.states && c.seen == c0.seen
    ensures k in ws && Noted(r, c, k, gots[k], ws[k]) && Resolved(r, ws[k].g, ws[k].j, k, gots[k].value)
  {
    AllNoted(r0, c0, id, gots, ws);
    assert Noted(r0, c0, k, gots[k], ws[k]);
    assert Resolved(r0, ws[k].g, ws[k].j, k, gots[k].value);
  }

  /** The first i shards are prepared, or one of them has failed. */
  ghost predicate PreparedTo(r: Run, c0: Client, c: Client, ms: seq<Mutation>, i: nat, gots: map<Key, Got>, ws: map<Key, Witness>, ok: bool)
    requires i <= |ms|
  {
    && c == c0.(prepared := c.prepared, checked := c.checked) && c.prepared <= KeysOf(ms[..i])
    && (ok ==> c.prepared == KeysOf(ms[..i]) && AllFresh(r, ms[..i], gots, ws))
  }

  lemma PreparedNext(r: Run, r': Run, c0: Client, c: Client, c': Client, ms: seq<Mutation>, i: nat, gots: map<Key, Got>, ws: map<Key, Witness>,
                     ok: bool, done: bool)
    requires i < |ms| && PreparedTo(r, c0, c, ms, i, gots, ws, ok) && r.states <= r'.states && ms[i].key in gots
    requires if done then Prepared(c, c', ms[i].key, true) && Fresh(r', ms[i].key, gots[ms[i].key], ws) else c' == c
    ensures PreparedTo(r', c0, c', ms, i + 1, gots, ws, ok && done)
  {
    assert ms[..i + 1] == ms[..i] + [ms[i]];
    if ok && done {
      FreshNext(r, r', ms, i, gots, ws);
    }
  }

  /** Prepares every shard, whether or not another one fails. */
  method PrepareShards(ns: Namespace, id: TxId, ms: seq<Mutation>, gots: map<Key, Got>, deadline: nat, ghost ws: map<Key, Witness>)
    returns (ok: bool)
    requires ns.Valid() && InPhase(ns.s, id, Planned) && ns.s.clients[id].rename && ns.s.clients[id].prepared == {}
    requires GoodEdit(gots, ms) && ns.s.clients[id].writes == WritesOf(ms) && ns.s.now < deadline
    requires ns.Facts(id, gots, true, ws) && AllResolved(ns.run, gots, ws)
    modifies ns
    ensures ns.Valid() && Quietly(old(ns.run), ns.run, id) && InPhase(ns.s, id, Planned) && ns.s.now < deadline
    ensures ns.s.clients[id] == old(ns.s.clients[id]).(prepared := ns.s.clients[id].prepared, checked := ns.s.clients[id].checked)
    ensures ok ==> ns.s.clients[id].prepared == ns.s.clients[id].writes.Keys && AllFresh(ns.run, ms, gots, ws)
    ensures !ok ==> AnyOvertaken(ns.run, id, gots, ws)
  {
    ok := true;
    for i := 0 to |ms|
      invariant ns.Valid() && Quietly(old(ns.run), ns.run, id) && InPhase(ns.s, id, Planned) && ns.s.now < deadline
      invariant PreparedTo(ns.run, old(ns.s.clients[id]), ns.s.clients[id], ms, i, gots, ws, ok)
      invariant !ok ==> AnyOvertaken(ns.run, id, gots, ws)
    {
      var done := PrepareNextShard(ns, id, ms, i, gots, deadline, ws, old(ns.run), old(ns.s.clients[id]), ok);
      ok := ok && done;
    }
    assert ms[..|ms|] == ms;
    AllPlanned(ms);
  }

  method PrepareNextShard(ns: Namespace, id: TxId, ms: seq<Mutation>, i: nat, gots: map<Key, Got>, deadline: nat, ghost ws: map<Key, Witness>,
                          ghost r0: Run, ghost c0: Client, ghost ok: bool) returns (done: bool)
    requires ns.Valid() && InPhase(ns.s, id, Planned) && ns.s.clients[id].rename && ns.s.now < deadline
    requires GoodEdit(gots, ms) && ns.s.clients[id].writes == WritesOf(ms) && i < |ms|
    requires Quietly(r0, ns.run, id) && AllFacts(r0, c0, id, gots, true, ws) && AllResolved(r0, gots, ws)
    requires PreparedTo(ns.run, c0, ns.s.clients[id], ms, i, gots, ws, ok) && (!ok ==> AnyOvertaken(ns.run, id, gots, ws))
    modifies ns
    ensures ns.Valid() && Quietly(r0, ns.run, id) && InPhase(ns.s, id, Planned) && ns.s.now < deadline
    ensures PreparedTo(ns.run, c0, ns.s.clients[id], ms, i + 1, gots, ws, ok && done)
    ensures !(ok && done) ==> AnyOvertaken(ns.run, id, gots, ws)
  {
    PlannedWrite(ms, i);
    var m := ms[i];
    assert m in ms && m.key in gots;
    ghost var before, c := ns.run, ns.s.clients[id];
    StillNoted(r0, before, c0, c, id, gots, ws, m.key);
    done := PrepareShard(ns, id, m.key, gots[m.key], deadline, ws[m.key]);
    QuietlyAll(r0, before, ns.run, id);
    PreparedNext(before, ns.run, c0, c, ns.s.clients[id], ms, i, gots, ws, ok, done);
    if !(ok && done) {
      NowOvertaken(r0, before, ns.run, c0, id, m.key, gots, ws, ok);
    }
  }

  lemma NowOvertaken(r0: Run, before: Run, r: Run, c0: Client, id: TxId, k: Key, gots: map<Key, Got>, ws: map<Key, Witness>, ok: bool)
    requires ValidRun(r) && before.states <= r.states && before.steps <= r.steps && r0.states <= r.states
    requires if ok then k in gots && AllFacts(r0, c0, id, gots, true, ws) && GenAt(Last(r), k) != gots[k].generation && !PreparedBy(Last(r), id, k)
             else AnyOvertaken(before, id, gots, ws)
    ensures AnyOvertaken(r, id, gots, ws)
  {
    if ok {
      assert ReadFact(r0, c0, id, k, gots[k], true, ws[k]);
      WasOvertaken(r, id, k, gots[k], ws);
    } else {
      AnyOvertakenStill(before, r, id, gots, ws);
    }
  }

  /** Others have rewritten the shard since it was read. */
  ghost predicate Overtaken(r: Run, id: TxId, k: Key, ws: map<Key, Witness>) {
    && |r.states| == |r.steps| + 1 && k in ws && ws[k].g < |r.states|
    && 0 < Rewrites(r, ws[k].g, |r.steps|, k, id)
  }

  ghost predicate AnyOvertaken(r: Run, id: TxId, gots: map<Key, Got>, ws: map<Key, Witness>) {
    exists k | k in gots :: Overtaken(r, id, k, ws)
  }

  lemma AnyOvertakenStill(r0: Run, r1: Run, id: TxId, gots: map<Key, Got>, ws: map<Key, Witness>)
    requires AnyOvertaken(r0, id, gots, ws) && r0.states <= r1.states && r0.steps <= r1.steps && |r1.states| == |r1.steps| + 1
    ensures AnyOvertaken(r1, id, gots, ws)
  {
    var k :| k in gots && Overtaken(r0, id, k, ws);
    OvertakenStill(r0, r1, id, k, ws);
  }

  lemma WasOvertaken(r: Run, id: TxId, k: Key, got: Got, ws: map<Key, Witness>)
    requires ValidRun(r) && k in ws && ws[k].g < |r.states| && GenAt(r.states[ws[k].g], k) == got.generation != GenAt(Last(r), k)
    requires !PreparedBy(Last(r), id, k)
    ensures Overtaken(r, id, k, ws)
  {
    RewrittenByOthers(r, ws[k].g, |r.steps|, k, id);
  }

  lemma OvertakenStill(r0: Run, r1: Run, id: TxId, k: Key, ws: map<Key, Witness>)
    requires Overtaken(r0, id, k, ws) && r0.states <= r1.states && r0.steps <= r1.steps && |r1.states| == |r1.steps| + 1
    ensures Overtaken(r1, id, k, ws)
  {
    MoreRewrites(r0, r1, ws[k].g, ws[k].g, k, id);
  }

  /** Every value an edit was made from was what was visible when it was noted. */
  ghost predicate AllFresh(r: Run, ms: seq<Mutation>, gots: map<Key, Got>, ws: map<Key, Witness>) {
    forall m | m in ms :: m.key in gots && Fresh(r, m.key, gots[m.key], ws)
  }

  ghost predicate Fresh(r: Run, k: Key, got: Got, ws: map<Key, Witness>) {
    k in ws && ws[k].j < |r.states| && Visible(r.states[ws[k].j], k) == got.value
  }

  lemma FreshNext(r0: Run, r1: Run, ms: seq<Mutation>, i: nat, gots: map<Key, Got>, ws: map<Key, Witness>)
    requires i < |ms| && AllFresh(r0, ms[..i], gots, ws) && r0.states <= r1.states
    requires ms[i].key in gots && Fresh(r1, ms[i].key, gots[ms[i].key], ws)
    ensures AllFresh(r1, ms[..i + 1], gots, ws)
  {
    assert ms[..i + 1] == ms[..i] + [ms[i]];
    forall m | m in ms[..i + 1] ensures m.key in gots && Fresh(r1, m.key, gots[m.key], ws) {
      if m != ms[i] {
        assert m in ms[..i] && m.key in gots && Fresh(r0, m.key, gots[m.key], ws);
      }
    }
  }

  lemma RenameSawOne(r: Run, r': Run, c: Client, id: TxId, k: Key, got: Got, ws: map<Key, Witness>)
    requires k in ws && ReadFact(r, c, id, k, got, true, ws[k]) && Fresh(r, k, got, ws)
    requires |r.states| == |r.steps| + 1 && id in r.states[|r.steps|].clients && k in r.states[|r.steps|].clients[id].checked
    requires r.states <= r'.states && r'.steps == r.steps + [Commit(id)] && |r'.states| == |r'.steps| + 1
    ensures SawBuild(r', |r.steps|, id, k, got, true, ws[k])
  {
    forall i | ws[k].j < i < |r.steps| ensures NotReadOf(r', i, id, k) {
      assert NotReadOf(r, i, id, k);
    }
  }

  lemma RenameSaw(r: Run, r': Run, c: Client, id: TxId, ms: seq<Mutation>, gots: map<Key, Got>, ws: map<Key, Witness>)
    requires AllFacts(r, c, id, gots, true, ws) && AllFresh(r, ms, gots, ws) && GoodEdit(gots, ms)
    requires |r.states| == |r.steps| + 1 && id in r.states[|r.steps|].clients && gots.Keys <= r.states[|r.steps|].clients[id].checked
    requires r.states <= r'.states && r'.steps == r.steps + [Commit(id)] && |r'.states| == |r'.steps| + 1
    ensures forall k | k in gots :: k in ws && SawBuild(r', |r.steps|, id, k, gots[k], true, ws[k])
  {
    forall k | k in gots ensures k in ws && SawBuild(r', |r.steps|, id, k, gots[k], true, ws[k]) {
      assert k in KeysOf(ms);
      var m :| m in ms && m.key == k;
      RenameSawOne(r, r', c, id, k, gots[k], ws);
    }
  }

  lemma AllChecked(r: Run, id: TxId, ms: seq<Mutation>, gots: map<Key, Got>)
    requires ValidRun(r) && GoodEdit(gots, ms) && id in r.states[|r.steps|].clients && r.states[|r.steps|].clients[id].rename
    requires r.states[|r.steps|].clients[id].prepared == WritesOf(ms).Keys
    ensures gots.Keys <= r.states[|r.steps|].clients[id].checked
  {
    RunInv(r, |r.steps|);
    assert ClientInv(r.states[|r.steps|], id);
    AllPlanned(ms);
  }

  lemma RenameUndecided(r: Run, i: nat, id: TxId)
    requires ValidRun(r) && i < |r.states| && id in r.states[i].clients
    requires r.states[i].clients[id].rename && r.states[i].clients[id].phase != Done
    ensures Decision(r.states[i], id).None?
  {
    RunInv(r, i);
    assert ClientInv(r.states[i], id);
  }

  /** The decision of a rename creates its manifest. It succeeds, since nobody else can decide. */
  method PublishCommit(ns: Namespace, id: TxId, deadline: nat) returns (ghost before: Run)
    requires ns.Valid() && InPhase(ns.s, id, Planned) && ns.s.clients[id].rename
    requires ns.s.clients[id].prepared == ns.s.clients[id].writes.Keys
    requires ns.s.now < deadline && deadline + ns.s.slack <= ns.s.clients[id].until
    modifies ns
    ensures ns.Valid() && Quietly(old(ns.run), before, id) && ValidRun(before)
    ensures id in before.states[|before.steps|].clients && before.states[|before.steps|].clients[id] == old(ns.s.clients[id])
    ensures ns.run == Run(before.states + [ns.s], before.steps + [Commit(id)]) && HasStatus(ns.s, id, Committed)
    ensures id in ns.s.clients
  {
    ns.Interfere({id}, Some(deadline));
    before := ns.run;
    QuietlyContinues(old(ns.run), ns.run, {id}, id);
    MineKept(ns.run, old(|ns.run.steps|), |ns.run.steps|, {id}, id);
    ClockKept(ns.run, old(|ns.run.steps|), |ns.run.steps|);
    RenameUndecided(ns.run, |ns.run.steps|, id);
    var m := NewManifest.(derivedApplied := true, participants := ns.s.clients[id].participants);
    var published, _ := ns.PutManifest(id, m.(status := Committed, leaseUntil := 0), 0, Commit(id));
  }

  /** Publishes an abort in place of a commit. */
  method PublishAbort(ns: Namespace, id: TxId)
    requires ns.Valid() && id in ns.s.clients && ns.s.clients[id].rename && ns.s.clients[id].phase != Done
    modifies ns
    ensures ns.Valid() && old(ns.run.states) <= ns.run.states && old(ns.run.steps) <= ns.run.steps && HasStatus(ns.s, id, Aborted)
  {
    ns.Interfere({id}, None);
    QuietlyContinues(old(ns.run), ns.run, {id}, id);
    MineKept(ns.run, old(|ns.run.steps|), |ns.run.steps|, {id}, id);
    RenameUndecided(ns.run, |ns.run.steps|, id);
    var m := NewManifest.(derivedApplied := true, participants := ns.s.clients[id].participants);
    var published, _ := ns.PutManifest(id, m.(status := Aborted), 0, Abort(id));
  }

  /** Writes the planned shards and decides. */
  method PrepareAndPublish(ns: Namespace, id: TxId, ms: seq<Mutation>, gots: map<Key, Got>, deadline: nat, ghost ws: map<Key, Witness>)
    returns (ok: bool, ghost n: nat)
    requires ns.Valid() && InPhase(ns.s, id, Planned) && ns.s.clients[id].rename && ns.s.clients[id].prepared == {}
    requires GoodEdit(gots, ms) && ns.s.clients[id].writes == WritesOf(ms)
    requires ns.s.now < deadline && deadline + ns.s.slack <= ns.s.clients[id].until
    requires ns.Facts(id, gots, true, ws) && AllResolved(ns.run, gots, ws)
    modifies ns
    ensures ns.Valid() && old(ns.run.states) <= ns.run.states && old(ns.run.steps) <= ns.run.steps
    ensures ok ==> old(|ns.run.steps|) <= n
    ensures if ok then CommittedAs(ns.run, n, id, ms, gots, true, ws) && HasStatus(ns.s, id, Committed) else HasStatus(ns.s, id, Aborted)
    ensures !ok ==> AnyOvertaken(ns.run, id, gots, ws)
  {
    n := 0;
    ok := PrepareShards(ns, id, ms, gots, deadline, ws);
    if !ok {
      ghost var failed := ns.run;
      PublishAbort(ns, id);
      AnyOvertakenStill(failed, ns.run, id, gots, ws);
      return;
    }
    ghost var prepared := ns.run;
    ClockKept(ns.run, old(|ns.run.steps|), |ns.run.steps|);
    ghost var before := PublishCommit(ns, id, deadline);
    n := |before.steps|;
    QuietlyAll(old(ns.run), prepared, before, id);
    QuietlyReadless(old(ns.run), before, id);
    AllFactsKept(old(ns.run), before, old(ns.s.clients[id]), before.states[n].clients[id], id, gots, true, ws);
    AllFreshKept(prepared, before, ms, gots, ws);
    AllChecked(before, id, ms, gots);
    RenameSaw(before, ns.run, before.states[n].clients[id], id, ms, gots, ws);
  }

  lemma AllFreshKept(r0: Run, r1: Run, ms: seq<Mutation>, gots: map<Key, Got>, ws: map<Key, Witness>)
    requires AllFresh(r0, ms, gots, ws) && r0.states <= r1.states
    ensures AllFresh(r1, ms, gots, ws)
  {
    forall m | m in ms ensures m.key in gots && Fresh(r1, m.key, gots[m.key], ws) {
      assert Fresh(r0, m.key, gots[m.key], ws);
    }
  }

  /** From the snapshots to the decision; without a plan the client just stops. */
  method DecideRename(ns: Namespace, id: TxId, plan: Option<seq<Mutation>>, gots: map<Key, Got>, deadline: nat, ghost ws: map<Key, Witness>)
    returns (ok: bool, ghost n: nat)
    requires ns.Valid() && id in ns.s.clients && ns.s.clients[id] == NewClient.(rename := true, until := deadline + ns.s.slack, seen := ns.s.clients[id].seen)
    requires ns.s.now < deadline && (plan.Some? ==> GoodEdit(gots, plan.value))
    requires ns.Facts(id, gots, true, ws) && AllResolved(ns.run, gots, ws)
    modifies ns
    ensures ns.Valid() && old(ns.run.states) <= ns.run.states && old(ns.run.steps) <= ns.run.steps
    ensures ok <==> HasStatus(ns.s, id, Committed)
    ensures ok ==> plan.Some? && CommittedAs(ns.run, n, id, plan.value, gots, true, ws) && old(|ns.run.steps|) <= n
    ensures !ok ==> plan.None? || AnyOvertaken(ns.run, id, gots, ws)
    ensures InPhase(ns.s, id, Done)
  {
    n := 0;
    if plan.None? {
      ok := false;
      NotYetCommitted(ns.run, |ns.run.steps|, id);
      ns.Take(Quit(id));
      return;
    }
    PlanRename(ns, id, plan.value, gots, ws);
    ok, n := PrepareAndPublish(ns, id, plan.value, gots, deadline, ws);
    ClientKept(ns.run, old(|ns.run.steps|), |ns.run.steps|, id);
    DecidedIsDone(ns.run, id);
    if !ok {
      NotBoth(ns.run, |ns.run.steps|, id);
    }
  }

  /** One attempt of a rename of the entries in keys. What it commits is the edit of exactly
      what was visible, with no lease taken: CommitTransaction.ActsAtomically applies to it
      with every key checked. Its timing assumption is that it decides inside its lease. It fails
      only if the edit refuses what was read, or others get in its way. */
  method RenameOnce(ns: Namespace, id: TxId, keys: seq<Key>, edit: map<Key, Got> -> Option<seq<Mutation>>, ttl: nat, attempts: nat)
    returns (ok: bool, gots: map<Key, Got>, ghost n: nat, ghost ws: map<Key, Witness>)
    requires ns.Valid() && id !in ns.s.clients && ns.s.slack < ttl
    requires forall i, j | 0 <= i < j < |keys| :: keys[i] != keys[j]
    requires forall g :: edit(g).Some? ==> GoodEdit(g, edit(g).value)
    modifies ns
    ensures ns.Valid() && old(ns.run.states) <= ns.run.states && old(ns.run.steps) <= ns.run.steps
    ensures ok <==> HasStatus(ns.s, id, Committed)
    ensures ok ==> edit(gots).Some? && CommittedAs(ns.run, n, id, edit(gots).value, gots, true, ws) && old(|ns.run.steps|) <= n
    ensures ok ==> forall k | k in keys :: k in gots
    ensures forall k | k in gots :: k in keys
    ensures AllResolved(ns.run, gots, ws) && AllSince(old(|ns.run.steps|), gots, ws)
    ensures InPhase(ns.s, id, Done)
    ensures !ok ==> RenameFailed(ns.run, old(|ns.run.steps|), id, keys, gots, edit(gots), attempts, ws)
  {
    var deadline := StartRename(ns, id, ttl);
    ghost var begun := ns.run;
    ok, gots, ws := ReadSnapshots(ns, id, keys, attempts, deadline);
    ClockKept(ns.run, |begun.steps|, |ns.run.steps|);
    ghost var read, readable := ns.run, ok;
    var plan := if ok then edit(gots) else None;
    ok, n := DecideRename(ns, id, plan, gots, deadline, ws);
    OneAfterAnother(old(ns.run), begun, read, ns.run);
    AllResolvedKept(read, ns.run, gots, ws);
    if !ok {
      HowItFailed(read, ns.run, old(|ns.run.steps|), |begun.steps|, id, keys, readable, gots, edit(gots), attempts, ws);
    }
  }

  lemma OneAfterAnother(r0: Run, r1: Run, r2: Run, r3: Run)
    requires r0.states <= r1.states <= r2.states <= r3.states && r0.steps <= r1.steps <= r2.steps <= r3.steps
    ensures r0.states <= r3.states && r0.steps <= r3.steps
  {
  }

  lemma HowItFailed(read: Run, r: Run, start: nat, begun: nat, id: TxId, keys: seq<Key>, readable: bool, gots: map<Key, Got>,
                    plan: Option<seq<Mutation>>, attempts: nat, ws: map<Key, Witness>)
    requires |read.states| == |read.steps| + 1 && |r.states| == |r.steps| + 1 && read.states <= r.states && read.steps <= r.steps
    requires start <= begun
    requires if readable then forall k | k in keys :: k in gots else SomeUnread(read, begun, id, keys, attempts)
    requires !readable || plan.None? || AnyOvertaken(r, id, gots, ws)
    ensures RenameFailed(r, start, id, keys, gots, plan, attempts, ws)
  {
    if !readable {
      SomeStillUnread(read, r, begun, start, id, keys, attempts);
    }
  }

  /** Why a rename comes to nothing: a shard could not be read, or the edit refused what was
      read, or others have rewritten a shard since. */
  ghost predicate RenameFailed(r: Run, start: nat, id: TxId, keys: seq<Key>, gots: map<Key, Got>, plan: Option<seq<Mutation>>, attempts: nat,
                               ws: map<Key, Witness>) {
    || SomeUnread(r, start, id, keys, attempts)
    || ((forall k | k in keys :: k in gots) && plan.None?)
    || AnyOvertaken(r, id, gots, ws)
  }

  lemma DecidedIsDone(r: Run, id: TxId)
    requires ValidRun(r) && id in Last(r).clients && Last(r).clients[id].rename && Terminal(Last(r), id)
    ensures InPhase(Last(r), id, Done)
  {
    RunInv(r, |r.steps|);
    assert ClientInv(Last(r), id);
  }

  method StartRename(ns: Namespace, id: TxId, ttl: nat) returns (deadline: nat)
    requires ns.Valid() && id !in ns.s.clients && ns.s.slack < ttl
    modifies ns
    ensures ns.Valid() && old(ns.run.states) <= ns.run.states && old(ns.run.steps) <= ns.run.steps
    ensures id in ns.s.clients && ns.s.now < deadline
    ensures ns.s.clients[id] == NewClient.(rename := true, until := deadline + ns.s.slack)
  {
    ns.Interfere({id}, None);
    MineKept(ns.run, old(|ns.run.steps|), |ns.run.steps|, {id}, id);
    ClockKept(ns.run, old(|ns.run.steps|), |ns.run.steps|);
    deadline := ns.s.now + ttl - ns.s.slack;
    ns.Take(BeginRename(id, ns.s.now + ttl));
  }

  /** Fixing the writes is local: nothing is stored until they are prepared. */
  method PlanRename(ns: Namespace, id: TxId, ms: seq<Mutation>, gots: map<Key, Got>, ghost ws: map<Key, Witness>)
    requires ns.Valid() && InPhase(ns.s, id, Building) && ns.s.clients[id].rename
    requires GoodEdit(gots, ms) && ns.Facts(id, gots, true, ws) && AllResolved(ns.run, gots, ws)
    modifies ns
    ensures ns.Valid() && old(ns.run.states) <= ns.run.states && old(ns.run.steps) <= ns.run.steps
    ensures ns.s.now == old(ns.s.now) && ns.s.slack == old(ns.s.slack)
    ensures ns.Facts(id, gots, true, ws) && AllResolved(ns.run, gots, ws)
    ensures ns.s.clients[id] == old(ns.s.clients[id]).(writes := WritesOf(ms), phase := Planned, participants := ns.s.clients[id].participants)
  {
    ghost var before, client := ns.run, ns.s.clients[id];
    AllPlanned(ms);
    ns.Take(CommitModel.Step.Plan(id, WritesOf(ms), seq(|ms|, i requires 0 <= i < |ms| => ms[i].key), true));
    ReadlessRefl(before, id);
    ReadlessOne(before, before, ns.run, id);
    AllFactsKept(before, ns.run, client, ns.s.clients[id], id, gots, true, ws);
    AllResolvedKept(before, ns.run, gots, ws);
  }

  lemma ReadlessRefl(r: Run, id: TxId)
    ensures Readless(r, r, id)
  {
  }
}
