/** One attempt of a leased transaction, from its manifest to its decision. */
module CommitTransaction {
  import opened Wrappers
  import opened CommitModel
  import opened CommitInvariant
  import opened CommitTheorems
  import opened CommitSerial
  import opened CommitRely
  import opened CommitObstacles
  import opened CommitStore

  /** Why an attempt comes to nothing. */
  datatype Failure =
    | Unavailable(resource: Resource)
    | Declined
    | TimedOut
    | NotPrepared(mutation: Mutation)
    | LeaseGone(lost: Resource, at: nat)
    | NotSent

  /** The manifest of id was m, of the given generation, at instant b. */
  ghost predicate Listed(r: Run, b: nat, id: TxId, m: Manifest, generation: nat) {
    b < |r.states| && id in r.states[b].active && r.states[b].active[id] == Stored(m, generation)
  }

  /** As long as the client neither reads nor commits, it stays uncommitted. */
  lemma QuietNotCommitted(r0: Run, r1: Run, id: TxId)
    requires ValidRun(r0) && ValidRun(r1) && Quietly(r0, r1, id)
    requires id in r0.states[|r0.steps|].clients && !HasStatus(r0.states[|r0.steps|], id, Committed)
    ensures !HasStatus(r1.states[|r1.steps|], id, Committed)
  {
    assert r1.states[|r0.steps|] == r0.states[|r0.steps|];
    forall i | |r0.steps| <= i < |r1.steps| ensures r1.steps[i] != Commit(id) {
      assert QuietStep(r1, i, id);
    }
    if HasStatus(r1.states[|r1.steps|], id, Committed) {
      var i := CommitBetween(r1, |r0.steps|, |r1.steps|, id);
    }
  }

  /** Deletes the leases still held, each only if it is the very object that was taken. */
  method ReleaseLeases(ns: Namespace, id: TxId, resources: seq<Resource>)
    requires ns.Valid() && id in ns.s.clients
    modifies ns
    ensures ns.Valid() && Quietly(old(ns.run), ns.run, id) && id in ns.s.clients
    ensures forall q | q in resources :: q !in ns.s.clients[id].held
  {
    var i := |resources|;
    while 0 < i
      invariant 0 <= i <= |resources|
      invariant ns.Valid() && Quietly(old(ns.run), ns.run, id) && id in ns.s.clients
      invariant forall q | q in resources[i..] :: q !in ns.s.clients[id].held
    {
      i := i - 1;
      assert resources[i..] == [resources[i]] + resources[i + 1..];
      ghost var before := ns.run;
      ReleaseLease(ns, id, resources[i]);
      QuietlyAll(old(ns.run), before, ns.run, id);
    }
    assert resources[0..] == resources;
  }

  method ReleaseLease(ns: Namespace, id: TxId, q: Resource)
    requires ns.Valid() && id in ns.s.clients
    modifies ns
    ensures ns.Valid() && Quietly(old(ns.run), ns.run, id) && id in ns.s.clients
    ensures ns.s.clients[id].held == old(ns.s.clients[id].held) - {q}
  {
    ns.Interfere({id}, None);
    QuietlyContinues(old(ns.run), ns.run, {id}, id);
    MineKept(ns.run, old(|ns.run.steps|), |ns.run.steps|, {id}, id);
    if q in ns.s.clients[id].held {
      ghost var before := ns.run;
      ns.Take(Release(id, q));
      QuietlyOne(old(ns.run), before, ns.run, id);
    }
  }

  /** Gives up: writes the aborted manifest over the one last written, unless recovery has
      aborted it already, and releases the leases. */
  method GiveUp(ns: Namespace, id: TxId, m: Manifest, generation: nat, resources: seq<Resource>, ghost b: nat)
    requires ns.Valid() && id in ns.s.clients
    requires Listed(ns.run, b, id, m, generation) && m.status == Preparing && Unsettled(ns.run, b, id)
    modifies ns
    ensures ns.Valid() && old(ns.run.states) <= ns.run.states && old(ns.run.steps) <= ns.run.steps && id in ns.s.clients
    ensures HasStatus(ns.s, id, Aborted) && forall q | q in resources :: q !in ns.s.clients[id].held
  {
    ns.Interfere({id}, None);
    QuietlyContinues(old(ns.run), ns.run, {id}, id);
    MineKept(ns.run, old(|ns.run.steps|), |ns.run.steps|, {id}, id);
    QuietlyUnsettled(old(ns.run), ns.run, b, id);
    ManifestMine(ns.run, b, |ns.run.steps|, id);
    if ActiveGeneration(ns.s, id) == generation {
      AbortReady(ns.run, b, |ns.run.steps|, id, m, generation);
    }
    var aborted, _ := ns.PutManifest(id, m.(status := Aborted), generation, Abort(id));
    ghost var before := ns.run;
    ReleaseLeases(ns, id, resources);
    DecisionFinal(ns.run, |before.steps|, |ns.run.steps|, id, Aborted);
  }

  lemma AbortReady(r: Run, b: nat, p: nat, id: TxId, m: Manifest, generation: nat)
    requires ValidRun(r) && Listed(r, b, id, m, generation) && m.status == Preparing && b <= p < |r.states|
    requires ActiveGeneration(r.states[p], id) == generation
    ensures Enabled(r.states[p], Abort(id))
    ensures Apply(r.states[p], Abort(id)).active == r.states[p].active[id := Stored(m.(status := Aborted), r.states[p].nextGen)]
  {
    RunInv(r, b);
    SameManifest(r, b, p, id);
    PreparingLeased(r, p, id);
  }

  /** The client holds a lease for each resource, none for longer than the time to live. */
  predicate Holds(s: State, id: TxId, resources: seq<Resource>, ttl: nat) {
    id in s.clients && forall q | q in resources :: q in s.clients[id].held && s.clients[id].held[q].until <= s.now + ttl
  }

  /** Begins a transaction: its manifest first, then its leases in order. */
  method Start(ns: Namespace, id: TxId, resources: seq<Resource>, ttl: nat, attempts: nat)
    returns (ok: bool, m: Manifest, generation: nat, ghost b: nat, ghost why: Failure)
    requires ns.Valid() && id !in ns.s.clients
    requires forall i, j | 0 <= i < j < |resources| :: resources[i] != resources[j]
    modifies ns
    ensures ns.Valid() && old(ns.run.states) <= ns.run.states && old(ns.run.steps) <= ns.run.steps
    ensures id in ns.s.clients && Listed(ns.run, b, id, m, generation) && m.status == Preparing && Unsettled(ns.run, b, id)
    ensures old(|ns.run.steps|) < b && ns.run.steps[b - 1] == Begin(id, m.leaseUntil) && m.leaseUntil == ns.run.states[b].now + ttl
    ensures ok ==> ns.s.clients[id] == NewClient.(held := ns.s.clients[id].held) && Holds(ns.s, id, resources, ttl)
    ensures ok ==> forall q :: q in resources <==> q in ns.s.clients[id].held
    ensures !ok ==> NoLease(ns.run, b, id, resources, attempts, why)
  {
    ns.Interfere({id}, None);
    MineKept(ns.run, old(|ns.run.steps|), |ns.run.steps|, {id}, id);
    m, generation := NewManifest.(leaseUntil := ns.s.now + ttl), ns.s.nextGen;
    ns.Take(Begin(id, ns.s.now + ttl));
    b := |ns.run.steps|;
    ghost var begun := ns.run;
    ok, why := AcquireLeases(ns, id, resources, ttl, attempts);
    QuietlyUnsettled(begun, ns.run, b, id);
  }

  ghost predicate NoLease(r: Run, start: nat, id: TxId, resources: seq<Resource>, attempts: nat, why: Failure) {
    why.Unavailable? && why.resource in resources && Denied(r, start, id, why.resource, attempts)
  }

  method AcquireLeases(ns: Namespace, id: TxId, resources: seq<Resource>, ttl: nat, attempts: nat) returns (ok: bool, ghost why: Failure)
    requires ns.Valid() && id in ns.s.clients && ns.s.clients[id] == NewClient
    requires forall i, j | 0 <= i < j < |resources| :: resources[i] != resources[j]
    modifies ns
    ensures ns.Valid() && Quietly(old(ns.run), ns.run, id) && id in ns.s.clients
    ensures ok ==> ns.s.clients[id] == NewClient.(held := ns.s.clients[id].held) && Holds(ns.s, id, resources, ttl)
    ensures ok ==> forall q :: q in resources <==> q in ns.s.clients[id].held
    ensures !ok ==> NoLease(ns.run, old(|ns.run.steps|), id, resources, attempts, why)
  {
    ok, why := true, Declined;
    for i := 0 to |resources|
      invariant ns.Valid() && Quietly(old(ns.run), ns.run, id) && ok && id in ns.s.clients
      invariant ns.s.clients[id] == NewClient.(held := ns.s.clients[id].held) && Holds(ns.s, id, resources[..i], ttl)
      invariant forall q :: q in resources[..i] <==> q in ns.s.clients[id].held
    {
      ghost var before := ns.run;
      NextOf(resources, i);
      ok := ns.AcquireLease(id, resources[i], ttl, attempts);
      QuietlyAll(old(ns.run), before, ns.run, id);
      ClockKept(ns.run, |before.steps|, |ns.run.steps|);
      if !ok {
        ghost var denied := ns.run;
        ReleaseLeases(ns, id, resources[..i]);
        QuietlyAll(old(ns.run), denied, ns.run, id);
        why := Unavailable(resources[i]);
        DeniedKept(denied, ns.run, |before.steps|, old(|ns.run.steps|), id, resources[i], attempts);
        return;
      }
    }
    assert resources[..|resources|] == resources;
  }

  /** While its manifest is there, a client that has built can fix its plan. */
  lemma PlanReady(s: State, id: TxId, m: Manifest, generation: nat, ms: seq<Mutation>, participants: seq<Key>, work: bool)
    requires InPhase(s, id, Building) && !s.clients[id].rename && m.status == Preparing
    requires id in s.active && s.active[id] == Stored(m, generation)
    requires DistinctKeys(ms) && forall x | x in ms :: ResourceOf(x.key).Some? ==> ResourceOf(x.key).value in s.clients[id].held
    ensures Enabled(s, CommitModel.Step.Plan(id, WritesOf(ms), participants, !work))
    ensures Apply(s, CommitModel.Step.Plan(id, WritesOf(ms), participants, !work)).active
            == s.active[id := Stored(m.(participants := participants, derivedApplied := !work), s.nextGen)]
  {
  }

  lemma KeysListed(ms: seq<Mutation>, ks: seq<Key>)
    requires |ks| == |ms| && forall i | 0 <= i < |ms| :: ks[i] == ms[i].key
    ensures forall k :: k in ks <==> k in KeysOf(ms)
  {
    forall k ensures k in ks <==> k in KeysOf(ms) {
      if k in ks {
        var i :| 0 <= i < |ks| && ks[i] == k;
        assert ms[i] in ms;
      }
      if k in KeysOf(ms) {
        var i :| 0 <= i < |ms| && ms[i].key == k;
        assert ks[i] == k;
      }
    }
  }

  /** The manifest lists what the plan writes, and whether there is derived work left to apply. */
  ghost predicate Publishes(m: Manifest, ms: seq<Mutation>, work: bool) {
    m.derivedApplied == !work && forall k :: k in m.participants <==> k in KeysOf(ms)
  }

  /** The write of the plan into the manifest, if that is still the one that is known. */
  method WritePlan(ns: Namespace, id: TxId, m: Manifest, generation: nat, ms: seq<Mutation>, work: bool)
    returns (ok: bool, m': Manifest, generation': nat)
    requires ns.Valid() && InPhase(ns.s, id, Building) && !ns.s.clients[id].rename && m.status == Preparing
    requires ActiveGeneration(ns.s, id) == generation ==> id in ns.s.active && ns.s.active[id] == Stored(m, generation)
    requires DistinctKeys(ms) && forall x | x in ms :: ResourceOf(x.key).Some? ==> ResourceOf(x.key).value in ns.s.clients[id].held
    modifies ns
    ensures ns.Valid() && m' == m.(participants := m'.participants, derivedApplied := m'.derivedApplied)
    ensures ok <==> old(ActiveGeneration(ns.s, id)) == generation
    ensures !ok ==> ns.s == old(ns.s) && ns.run == old(ns.run) && m' == m && generation' == generation
    ensures ok ==> Publishes(m', ms, work)
    ensures ok ==>
      && ns.run == Run(old(ns.run.states) + [ns.s], old(ns.run.steps) + [CommitModel.Step.Plan(id, WritesOf(ms), m'.participants, !work)])
      && id in ns.s.active && ns.s.active[id] == Stored(m', generation') && id in ns.s.clients
      && ns.s.clients[id] == old(ns.s.clients[id]).(writes := WritesOf(ms), phase := Planned, participants := m'.participants)
  {
    var participants := seq(|ms|, i requires 0 <= i < |ms| => ms[i].key);
    KeysListed(ms, participants);
    if ActiveGeneration(ns.s, id) == generation {
      PlanReady(ns.s, id, m, generation, ms, participants, work);
    }
    m', generation' := m, generation;
    var written;
    ok, written := ns.PutManifest(id, m.(participants := participants, derivedApplied := !work), generation, CommitModel.Step.Plan(id, WritesOf(ms), participants, !work));
    if ok {
      m', generation' := m.(participants := participants, derivedApplied := !work), written;
    }
  }

  /** Lists the participants in the manifest, by a conditional write. It fails only if somebody
      has aborted the transaction, its time being up. */
  method PublishPlan(ns: Namespace, id: TxId, m: Manifest, generation: nat, ms: seq<Mutation>, work: bool, ghost b: nat)
    returns (ok: bool, m': Manifest, generation': nat, ghost b': nat)
    requires ns.Valid() && InPhase(ns.s, id, Building) && !ns.s.clients[id].rename
    requires Listed(ns.run, b, id, m, generation) && m.status == Preparing && Unsettled(ns.run, b, id)
    requires DistinctKeys(ms) && forall x | x in ms :: ResourceOf(x.key).Some? ==> ResourceOf(x.key).value in ns.s.clients[id].held
    modifies ns
    ensures ns.Valid() && Readless(old(ns.run), ns.run, id) && id in ns.s.clients
    ensures b <= b' && Listed(ns.run, b', id, m', generation') && m'.status == Preparing && Unsettled(ns.run, b', id)
    ensures m'.leaseUntil == m.leaseUntil && (ok ==> Publishes(m', ms, work))
    ensures ns.s.clients[id] ==
            if ok then old(ns.s.clients[id]).(writes := WritesOf(ms), phase := Planned, participants := m'.participants) else old(ns.s.clients[id])
    ensures !ok ==> ExpiredIn(ns.run, b, |ns.run.steps|, id, m.leaseUntil)
  {
    ns.Interfere({id}, None);
    QuietlyContinues(old(ns.run), ns.run, {id}, id);
    QuietlyReadless(old(ns.run), ns.run, id);
    QuietlyUnsettled(old(ns.run), ns.run, b, id);
    MineKept(ns.run, old(|ns.run.steps|), |ns.run.steps|, {id}, id);
    ManifestMine(ns.run, b, |ns.run.steps|, id);
    if ActiveGeneration(ns.s, id) == generation {
      RunInv(ns.run, b);
      SameManifest(ns.run, b, |ns.run.steps|, id);
    }
    ghost var before := ns.run;
    ok, m', generation' := WritePlan(ns, id, m, generation, ms, work);
    b' := if ok then |ns.run.steps| else b;
    if ok {
      ReadlessOne(old(ns.run), before, ns.run, id);
    }
  }

  /** While its manifest is there, a client that has prepared everything can commit. */
  lemma CommitReady(s: State, id: TxId, m: Manifest, generation: nat)
    requires InPhase(s, id, Planned) && !s.clients[id].rename && s.clients[id].prepared == s.clients[id].writes.Keys
    requires id in s.active && s.active[id] == Stored(m, generation) && m.status == Preparing
    ensures Enabled(s, Commit(id)) && HasStatus(Apply(s, Commit(id)), id, Committed)
    ensures Apply(s, Commit(id)).active == s.active[id := Stored(m.(status := Committed, leaseUntil := 0), s.nextGen)]
  {
  }

  /** The decision: one conditional write of the manifest. It fails only if somebody has aborted
      the transaction, its time being up. */
  method Decide(ns: Namespace, id: TxId, m: Manifest, generation: nat, ghost b: nat) returns (ok: bool, ghost before: Run)
    requires ns.Valid() && InPhase(ns.s, id, Planned) && !ns.s.clients[id].rename
    requires ns.s.clients[id].prepared == ns.s.clients[id].writes.Keys
    requires Listed(ns.run, b, id, m, generation) && m.status == Preparing && Unsettled(ns.run, b, id)
    modifies ns
    ensures ns.Valid() && Quietly(old(ns.run), before, id) && ValidRun(before)
    ensures id in before.states[|before.steps|].clients && before.states[|before.steps|].clients[id] == old(ns.s.clients[id])
    ensures ok ==> ns.run == Run(before.states + [ns.s], before.steps + [Commit(id)]) && HasStatus(ns.s, id, Committed)
    ensures ok ==> id in ns.s.clients && Listed(before, |before.steps|, id, m, generation)
    ensures !ok ==> ns.run == before && ns.s == before.states[|before.steps|]
    ensures !ok ==> HasStatus(ns.s, id, Aborted) && ExpiredIn(ns.run, b, |ns.run.steps|, id, m.leaseUntil)
  {
    ns.Interfere({id}, None);
    before := ns.run;
    QuietlyContinues(old(ns.run), ns.run, {id}, id);
    QuietlyUnsettled(old(ns.run), ns.run, b, id);
    MineKept(ns.run, old(|ns.run.steps|), |ns.run.steps|, {id}, id);
    ManifestMine(ns.run, b, |ns.run.steps|, id);
    if ActiveGeneration(ns.s, id) == generation {
      RunInv(ns.run, b);
      SameManifest(ns.run, b, |ns.run.steps|, id);
      CommitReady(ns.s, id, m, generation);
    }
    var written;
    ok, written := ns.PutManifest(id, m.(status := Committed, leaseUntil := 0), generation, Commit(id));
  }

  /** What becomes of the write of a decision: it is answered; it is made, and its answer lost; or
      it does not get there. */
  datatype Answer = Heard | Unheard | Unsent

  ghost predicate ListedAt(r: Run, i: nat, id: TxId) {
    i < |r.states| && id in r.states[i].active
  }

  /** The decision, and what its client learns of it. Whenever no success is reported back, the
      client looks into the active list once more: the write may have been made all the same. */
  method DecideAndAsk(ns: Namespace, id: TxId, m: Manifest, generation: nat, answer: Answer, ghost b: nat)
    returns (ok: bool, ghost before: Run, ghost done: bool, ghost decided: Run, ghost asked: nat)
    requires ns.Valid() && InPhase(ns.s, id, Planned) && !ns.s.clients[id].rename
    requires ns.s.clients[id].prepared == ns.s.clients[id].writes.Keys
    requires Listed(ns.run, b, id, m, generation) && m.status == Preparing && Unsettled(ns.run, b, id)
    modifies ns
    ensures ns.Valid() && Quietly(old(ns.run), before, id) && ValidRun(before)
    ensures id in before.states[|before.steps|].clients && before.states[|before.steps|].clients[id] == old(ns.s.clients[id])
    ensures ValidRun(decided) && Quietly(decided, ns.run, id) && id in ns.s.clients && id in decided.states[|decided.steps|].clients
    ensures done ==> before.states <= decided.states && decided.steps == before.steps + [Commit(id)] && |decided.states| == |before.states| + 1
    ensures HasStatus(decided.states[|decided.steps|], id, Committed) <==> done
    ensures !done ==> decided == before
    ensures answer.Unsent? ==> !done
    ensures done ==> Listed(before, |before.steps|, id, m, generation)
    ensures !answer.Unsent? && !done ==>
              HasStatus(decided.states[|decided.steps|], id, Aborted) && ExpiredIn(decided, b, |decided.steps|, id, m.leaseUntil)
    ensures (ok <==> done && (answer.Heard? || ListedAt(ns.run, asked, id))) && asked < |ns.run.states|
  {
    before, done := ns.run, false;
    if !answer.Unsent? {
      ok, before := Decide(ns, id, m, generation, b);
      done := ok;
    }
    decided, asked := ns.run, 0;
    if !done {
      NotYetCommitted(ns.run, |ns.run.steps|, id);
    }
    if !answer.Heard? || !ok {
      ok, asked := AskAgain(ns, id);
    }
  }

  /** The second look, at the active list only. */
  method AskAgain(ns: Namespace, id: TxId) returns (ok: bool, ghost asked: nat)
    requires ns.Valid() && id in ns.s.clients
    modifies ns
    ensures ns.Valid() && Quietly(old(ns.run), ns.run, id) && id in ns.s.clients
    ensures (ok <==> old(HasStatus(ns.s, id, Committed)) && ListedAt(ns.run, asked, id)) && asked < |ns.run.states|
  {
    ns.Interfere({id}, None);
    QuietlyContinues(old(ns.run), ns.run, {id}, id);
    MineKept(ns.run, old(|ns.run.steps|), |ns.run.steps|, {id}, id);
    asked := |ns.run.steps|;
    ok := id in ns.s.active && ns.s.active[id].data.status == Committed;
    if old(HasStatus(ns.s, id, Committed)) {
      DecisionFinal(ns.run, old(|ns.run.steps|), |ns.run.steps|, id, Committed);
    } else {
      QuietNotCommitted(old(ns.run), ns.run, id);
    }
  }

  /** What a committed attempt did. Its decision is step n of the run and makes exactly the
      plan's writes visible; and what the plan was built from, for every key whose generation
      it insisted on or whose lease it trusted, was visible at an instant after its last read
      of that key. */
  ghost predicate CommittedAs(r: Run, n: nat, id: TxId, ms: seq<Mutation>, gots: map<Key, Got>, enforce: bool, ws: map<Key, Witness>) {
    && |r.states| == |r.steps| + 1 && n < |r.steps| && r.steps[n] == Commit(id)
    && id in r.states[n].clients && DistinctKeys(ms)
    && r.states[n].clients[id].writes == WritesOf(ms)
    && r.states[n].clients[id].seen.Keys == gots.Keys
    && forall k | k in gots && (enforce ==> k in KeysOf(ms)) :: k in ws && SawBuild(r, n, id, k, gots[k], enforce, ws[k])
  }

  ghost predicate SawBuild(r: Run, n: nat, id: TxId, k: Key, got: Got, enforce: bool, w: Witness) {
    && Saw(r, n, id, k, got.value, w.j, if enforce then w.j else w.at)
    && id in r.states[n].clients
    && (enforce ==> k in r.states[n].clients[id].checked)
  }

  /** At instant v everything had been prepared, and every lease still ran; none was for longer
      than the time to live. */
  ghost predicate LeasedAt(r: Run, v: nat, id: TxId, resources: seq<Resource>, ttl: nat) {
    && v < |r.states| && InPhase(r.states[v], id, Planned)
    && var c := r.states[v].clients[id];
      && c.prepared == c.writes.Keys
      && forall q | q in resources :: q in c.held && r.states[v].now < c.held[q].until <= r.states[v].now + ttl
  }

  /** What has kept an attempt from committing that began at begun. */
  ghost predicate FailedFor(r: Run, begun: nat, id: TxId, resources: seq<Resource>, plan: Option<seq<Mutation>>, ttl: nat, attempts: nat,
                            answer: Answer, why: Failure)
    requires |r.states| == |r.steps| + 1 && begun < |r.states|
  {
    match why
    case Unavailable(q) => q in resources && Denied(r, begun, id, q, 8 * attempts)
    case Declined => plan.None?
    case TimedOut => ExpiredIn(r, begun, |r.steps|, id, r.states[begun].now + ttl)
    case NotPrepared(m) => plan.Some? && m in plan.value && Unprepared(r, begun, m, id, attempts)
    case LeaseGone(q, at) => q in resources && begun <= at && LostAt(r, at, id, q)
    case NotSent => answer.Unsent?
  }

  lemma FailedStill(r0: Run, r1: Run, begun: nat, id: TxId, resources: seq<Resource>, plan: Option<seq<Mutation>>, ttl: nat,
                    attempts: nat, answer: Answer, why: Failure)
    requires |r0.states| == |r0.steps| + 1 && |r1.states| == |r1.steps| + 1 && r0.states <= r1.states && r0.steps <= r1.steps
    requires begun < |r0.states| && FailedFor(r0, begun, id, resources, plan, ttl, attempts, answer, why)
    ensures FailedFor(r1, begun, id, resources, plan, ttl, attempts, answer, why)
  {
    match why
    case Unavailable(q) => DeniedKept(r0, r1, begun, begun, id, q, 8 * attempts);
    case TimedOut => ExpiredStill(r0, r1, begun, begun, id, r0.states[begun].now + ttl);
    case NotPrepared(m) => UnpreparedKept(r0, r1, begun, begun, m, id, attempts);
    case LeaseGone(q, at) => assert LostAt(r1, at, id, q);
    case _ =>
  }

  lemma ExpiredStill(r0: Run, r1: Run, a: nat, a': nat, id: TxId, until: nat)
    requires r0.states <= r1.states && r0.steps <= r1.steps && ExpiredIn(r0, a, |r0.steps|, id, until) && a' <= a
    ensures ExpiredIn(r1, a', |r1.steps|, id, until)
  {
    var e :| a <= e < |r0.steps| && e < |r0.states| && r0.steps[e] == Expire(id) && until <= r0.states[e].now;
    assert r1.steps[e] == Expire(id) && until <= r1.states[e].now;
  }

  lemma AllSaw(r: Run, r': Run, c: Client, id: TxId, ms: seq<Mutation>, gots: map<Key, Got>, enforce: bool, ws: map<Key, Witness>)
    requires AllFacts(r, c, id, gots, enforce, ws) && AllSettled(r, c, ms, ws)
    requires enforce ==> forall m | m in ms :: m.expected.Some?
    requires |r.states| == |r.steps| + 1 && id in r.states[|r.steps|].clients && c == r.states[|r.steps|].clients[id]
    requires r.states <= r'.states && r'.steps == r.steps + [Commit(id)] && |r'.states| == |r'.steps| + 1
    ensures forall k | k in gots && (enforce ==> k in KeysOf(ms)) :: k in ws && SawBuild(r', |r.steps|, id, k, gots[k], enforce, ws[k])
  {
    forall k | k in gots && (enforce ==> k in KeysOf(ms)) ensures SawBuild(r', |r.steps|, id, k, gots[k], enforce, ws[k]) {
      assert ReadFact(r, c, id, k, gots[k], enforce, ws[k]);
      if enforce {
        var m :| m in ms && m.key == k;
        assert Settled(r, k, ws);
      }
      FactSeen(r, r', c, id, k, gots[k], enforce, ws[k]);
    }
  }

  lemma CommittedKept(r0: Run, r1: Run, n: nat, id: TxId, ms: seq<Mutation>, gots: map<Key, Got>, enforce: bool, ws: map<Key, Witness>)
    requires CommittedAs(r0, n, id, ms, gots, enforce, ws)
    requires r0.states <= r1.states && r0.steps <= r1.steps && |r1.states| == |r1.steps| + 1
    ensures CommittedAs(r1, n, id, ms, gots, enforce, ws)
  {
    forall k | k in gots && (enforce ==> k in KeysOf(ms)) ensures SawBuild(r1, n, id, k, gots[k], enforce, ws[k]) {
      assert SawBuild(r0, n, id, k, gots[k], enforce, ws[k]);
      SawKept(r0, r1, n, id, k, gots[k].value, ws[k].j, if enforce then ws[k].j else ws[k].at);
    }
  }

  /** What the plan was built from is still what is visible when it commits: the attempt acts as
      if it had read and written in one step. This holds of every key it insisted on, whatever
      other transactions do and even when its leases have run out; of a key it trusted to its
      lease, if that has not run out and the key was left to lease holders. */
  lemma ActsAtomically(r: Run, n: nat, id: TxId, ms: seq<Mutation>, gots: map<Key, Got>, enforce: bool, ws: map<Key, Witness>, k: Key)
    requires FromInit(r) && CommittedAs(r, n, id, ms, gots, enforce, ws)
    ensures k in gots && (if enforce then k in KeysOf(ms) else InTimeOn(r.states[n], id, k) && LeftToHolders(r, n, id, k)) ==>
              Visible(r.states[n], k) == gots[k].value
    ensures Visible(r.states[n + 1], k) == if k in WritesOf(ms) then WritesOf(ms)[k] else Visible(r.states[n], k)
  {
    RunInv(r, n);
    assert StepAt(r, n);
    AtomicVisibility(r.states[n], r.steps[n], k);
    if k in gots && (if enforce then k in KeysOf(ms) else InTimeOn(r.states[n], id, k) && LeftToHolders(r, n, id, k)) {
      assert SawBuild(r, n, id, k, gots[k], enforce, ws[k]);
      SawVisible(r, n, id, k, gots[k].value, ws[k].j, if enforce then ws[k].j else ws[k].at);
    }
  }

  /** What PrepareAll asks of the plan: it insists only on what was read. */
  lemma PlanInsists(r: Run, c: Client, id: TxId, resources: seq<Resource>, ms: seq<Mutation>, gots: map<Key, Got>, enforce: bool, ws: map<Key, Witness>)
    requires AllFacts(r, c, id, gots, enforce, ws) && GoodPlan(resources, gots, enforce, ms)
    ensures forall m | m in ms :: Insists(r, c, m, gots, ws)
  {
    forall m | m in ms ensures Insists(r, c, m, gots, ws) {
      if enforce {
        AllNoted(r, c, id, gots, ws);
      }
    }
  }

  /** Prepares everything and checks the leases once more: it passes only if none of them had
      run out when everything was prepared. */
  method PrepareAndVerify(ns: Namespace, id: TxId, resources: seq<Resource>, ms: seq<Mutation>, ttl: nat, attempts: nat, answer: Answer,
                          ghost begun: nat, ghost gots: map<Key, Got>, ghost ws: map<Key, Witness>)
    returns (ok: bool, again: bool, ghost v: nat, ghost why: Failure)
    requires ns.Valid() && InPhase(ns.s, id, Planned) && !ns.s.clients[id].rename && ns.s.clients[id].prepared == {}
    requires DistinctKeys(ms) && ns.s.clients[id].writes == WritesOf(ms)
    requires forall m | m in ms :: Insists(ns.run, ns.s.clients[id], m, gots, ws)
    requires Holds(ns.s, id, resources, ttl) && begun <= |ns.run.steps|
    modifies ns
    ensures ns.Valid() && Quietly(old(ns.run), ns.run, id) && InPhase(ns.s, id, Planned)
    ensures ns.s.clients[id] == old(ns.s.clients[id]).(prepared := ns.s.clients[id].prepared, checked := ns.s.clients[id].checked)
    ensures ok ==> ns.s.clients[id].prepared == ns.s.clients[id].writes.Keys && AllSettled(ns.run, ns.s.clients[id], ms, ws)
    ensures ok ==> old(|ns.run.steps|) <= v && LeasedAt(ns.run, v, id, resources, ttl)
    ensures !ok ==> FailedFor(ns.run, begun, id, resources, Some(ms), ttl, attempts, answer, why) && Again(again, answer, why)
  {
    v, why, again := 0, Declined, true;
    ok := ns.PrepareAll(id, ms, attempts, gots, ws);
    if !ok {
      ghost var m :| m in ms && Unprepared(ns.run, old(|ns.run.steps|), m, id, attempts);
      why := NotPrepared(m);
      UnpreparedKept(ns.run, ns.run, old(|ns.run.steps|), begun, m, id, attempts);
      return;
    }
    v := |ns.run.steps|;
    ClockKept(ns.run, old(|ns.run.steps|), v);
    ghost var before := ns.run;
    ghost var lost, at;
    ok, lost, at := ns.VerifyLeases(id, resources);
    QuietlyContinues(before, ns.run, {id}, id);
    QuietlyAll(old(ns.run), before, ns.run, id);
    MineKept(ns.run, |before.steps|, |ns.run.steps|, {id}, id);
    SettledKept(before, ns.run, ns.s.clients[id], ms, ws);
    again, why := false, LeaseGone(lost, at);
  }

  lemma SettledKept(r0: Run, r1: Run, c: Client, ms: seq<Mutation>, ws: map<Key, Witness>)
    requires r0.states <= r1.states
    ensures AllSettled(r0, c, ms, ws) ==> AllSettled(r1, c, ms, ws)
  {
    if AllSettled(r0, c, ms, ws) {
      forall m | m in ms && m.expected.Some? ensures Settled(r1, m.key, ws) {
        assert Settled(r0, m.key, ws);
      }
    }
  }

  /** The manifest last written, at b, has the lease it began with, and its client has not
      settled the transaction since. */
  ghost predicate Current(r: Run, begun: nat, b: nat, id: TxId, m: Manifest, generation: nat, ttl: nat) {
    && begun <= b && Listed(r, b, id, m, generation) && m.status == Preparing && Unsettled(r, b, id)
    && m.leaseUntil == r.states[begun].now + ttl
  }

  ghost predicate ListedAs(r: Run, n: nat, id: TxId, ms: seq<Mutation>, work: bool) {
    n < |r.states| && id in r.states[n].active && Publishes(r.states[n].active[id].data, ms, work)
  }

  /** What is tried again: a lease that is not to be had, and every lost race. A lost lease, a
      refusal and a decision without an answer are not. */
  predicate Again(again: bool, answer: Answer, why: Failure) {
    && (again ==> why.Unavailable? || why.NotPrepared? || why.TimedOut?)
    && (!again ==> why.Declined? || why.LeaseGone? || !answer.Heard?)
  }

  /** How an attempt ends: committed as planned and with its leases running, or failed for a
      reason. What the client reports is the truth, unless the answer to its decision was lost. */
  ghost predicate Ends(r: Run, begun: nat, v: nat, n: nat, id: TxId, resources: seq<Resource>, plan: Option<seq<Mutation>>,
                       work: bool, ttl: nat, attempts: nat, answer: Answer, why: Failure)
    requires |r.states| == |r.steps| + 1 && begun < |r.states|
  {
    if HasStatus(Last(r), id, Committed) then
      begun <= v <= n && LeasedAt(r, v, id, resources, ttl) && plan.Some? && ListedAs(r, n, id, plan.value, work)
    else
      && (why.NotSent? || HasStatus(Last(r), id, Aborted))
      && FailedFor(r, begun, id, resources, plan, ttl, attempts, answer, why)
  }

  /** From the published plan to the decision. */
  method Complete(ns: Namespace, id: TxId, m: Manifest, generation: nat, resources: seq<Resource>, ms: seq<Mutation>, ttl: nat,
                  enforce: bool, attempts: nat, answer: Answer, ghost work: bool, ghost begun: nat, ghost b: nat, ghost gots: map<Key, Got>,
                  ghost ws: map<Key, Witness>)
    returns (ok: bool, again: bool, ghost v: nat, ghost n: nat, ghost asked: nat, ghost why: Failure)
    requires ns.Valid() && InPhase(ns.s, id, Planned) && !ns.s.clients[id].rename && ns.s.clients[id].prepared == {}
    requires Current(ns.run, begun, b, id, m, generation, ttl) && Publishes(m, ms, work)
    requires GoodPlan(resources, gots, enforce, ms) && ns.s.clients[id].writes == WritesOf(ms)
    requires ns.Facts(id, gots, enforce, ws) && Holds(ns.s, id, resources, ttl)
    modifies ns
    ensures ns.Valid() && old(ns.run.states) <= ns.run.states && old(ns.run.steps) <= ns.run.steps && id in ns.s.clients
    ensures ok <==> HasStatus(ns.s, id, Committed) && (answer.Heard? || ListedAt(ns.run, asked, id))
    ensures HasStatus(ns.s, id, Committed) ==> CommittedAs(ns.run, n, id, ms, gots, enforce, ws)
    ensures Ends(ns.run, begun, v, n, id, resources, Some(ms), work, ttl, attempts, answer, why)
    ensures if HasStatus(ns.s, id, Committed) then !again else Again(again, answer, why)
    ensures forall q | q in resources :: q !in ns.s.clients[id].held
  {
    PlanInsists(ns.run, ns.s.clients[id], id, resources, ms, gots, enforce, ws);
    n, asked := 0, 0;
    ok, again, v, why := PrepareAndVerify(ns, id, resources, ms, ttl, attempts, answer, begun, gots, ws);
    ghost var verified := ns.run;
    QuietlyUnsettled(old(ns.run), ns.run, b, id);
    if !ok {
      GiveUp(ns, id, m, generation, resources, b);
      FailedStill(verified, ns.run, begun, id, resources, Some(ms), ttl, attempts, answer, why);
      NotBothDecided(ns.s, id);
      return;
    }
    QuietlyReadless(old(ns.run), ns.run, id);
    AllFactsKept(old(ns.run), ns.run, old(ns.s.clients[id]), ns.s.clients[id], id, gots, enforce, ws);
    ok, again, n, asked, why := DecideAndRelease(ns, id, m, generation, resources, ms, ttl, enforce, attempts, answer, work, begun, b, gots, ws);
    if HasStatus(ns.s, id, Committed) {
      LeasedStill(verified, ns.run, v, id, resources, ttl);
    }
  }

  lemma NotBothDecided(s: State, id: TxId)
    requires HasStatus(s, id, Aborted)
    ensures !HasStatus(s, id, Committed)
  {
  }

  lemma LeasedStill(r0: Run, r1: Run, v: nat, id: TxId, resources: seq<Resource>, ttl: nat)
    requires LeasedAt(r0, v, id, resources, ttl) && r0.states <= r1.states
    ensures LeasedAt(r1, v, id, resources, ttl)
  {
  }

  lemma CommittedHere(r0: Run, before: Run, decided: Run, c: Client, id: TxId, resources: seq<Resource>, ms: seq<Mutation>,
                      gots: map<Key, Got>, enforce: bool, ws: map<Key, Witness>)
    requires AllFacts(r0, c, id, gots, enforce, ws) && AllSettled(r0, c, ms, ws) && Quietly(r0, before, id)
    requires |before.states| == |before.steps| + 1 && id in before.states[|before.steps|].clients && before.states[|before.steps|].clients[id] == c
    requires before.states <= decided.states && decided.steps == before.steps + [Commit(id)] && |decided.states| == |decided.steps| + 1
    requires GoodPlan(resources, gots, enforce, ms) && c.writes == WritesOf(ms)
    ensures CommittedAs(decided, |before.steps|, id, ms, gots, enforce, ws)
  {
    QuietlyReadless(r0, before, id);
    AllFactsKept(r0, before, c, c, id, gots, enforce, ws);
    SettledKept(r0, before, c, ms, ws);
    AllSaw(before, decided, c, id, ms, gots, enforce, ws);
  }

  method DecideAndRelease(ns: Namespace, id: TxId, m: Manifest, generation: nat, resources: seq<Resource>, ms: seq<Mutation>, ttl: nat,
                          enforce: bool, attempts: nat, answer: Answer, ghost work: bool, ghost begun: nat, ghost b: nat,
                          ghost gots: map<Key, Got>, ghost ws: map<Key, Witness>)
    returns (ok: bool, again: bool, ghost n: nat, ghost asked: nat, ghost why: Failure)
    requires ns.Valid() && InPhase(ns.s, id, Planned) && !ns.s.clients[id].rename
    requires ns.s.clients[id].prepared == ns.s.clients[id].writes.Keys
    requires Current(ns.run, begun, b, id, m, generation, ttl) && Publishes(m, ms, work)
    requires GoodPlan(resources, gots, enforce, ms) && ns.s.clients[id].writes == WritesOf(ms)
    requires ns.Facts(id, gots, enforce, ws) && AllSettled(ns.run, ns.s.clients[id], ms, ws)
    modifies ns
    ensures ns.Valid() && old(ns.run.states) <= ns.run.states && old(ns.run.steps) <= ns.run.steps && id in ns.s.clients
    ensures ok <==> HasStatus(ns.s, id, Committed) && (answer.Heard? || ListedAt(ns.run, asked, id))
    ensures HasStatus(ns.s, id, Committed) ==> old(|ns.run.steps|) <= n && CommittedAs(ns.run, n, id, ms, gots, enforce, ws)
    ensures HasStatus(ns.s, id, Committed) ==> ListedAs(ns.run, n, id, ms, work)
    ensures !HasStatus(ns.s, id, Committed) ==>
              && (why.NotSent? || HasStatus(ns.s, id, Aborted))
              && FailedFor(ns.run, begun, id, resources, Some(ms), ttl, attempts, answer, why)
    ensures if HasStatus(ns.s, id, Committed) then !again else Again(again, answer, why)
    ensures forall q | q in resources :: q !in ns.s.clients[id].held
  {
    ghost var before, done, decided;
    ok, before, done, decided, asked := DecideAndAsk(ns, id, m, generation, answer, b);
    n := |before.steps|;
    if done {
      CommittedHere(old(ns.run), before, decided, old(ns.s.clients[id]), id, resources, ms, gots, enforce, ws);
    }
    ghost var known := ns.run;
    ReleaseLeases(ns, id, resources);
    QuietlyAll(decided, known, ns.run, id);
    again := !ok && answer.Heard?;
    why := if answer.Unsent? then NotSent else TimedOut;
    if done {
      CommitStays(decided, ns.run, n, id, ms, gots, enforce, ws);
    } else {
      FailureStays(decided, ns.run, begun, b, id, resources, ms, ttl, attempts, answer, m.leaseUntil);
    }
  }

  lemma CommitStays(decided: Run, r: Run, n: nat, id: TxId, ms: seq<Mutation>, gots: map<Key, Got>, enforce: bool, ws: map<Key, Witness>)
    requires ValidRun(decided) && ValidRun(r) && Quietly(decided, r, id)
    requires HasStatus(Last(decided), id, Committed) && CommittedAs(decided, n, id, ms, gots, enforce, ws)
    ensures HasStatus(Last(r), id, Committed) && CommittedAs(r, n, id, ms, gots, enforce, ws)
  {
    DecisionFinal(r, |decided.steps|, |r.steps|, id, Committed);
    CommittedKept(decided, r, n, id, ms, gots, enforce, ws);
  }

  lemma FailureStays(decided: Run, r: Run, begun: nat, b: nat, id: TxId, resources: seq<Resource>, ms: seq<Mutation>, ttl: nat, attempts: nat,
                     answer: Answer, until: nat)
    requires ValidRun(decided) && ValidRun(r) && Quietly(decided, r, id) && id in Last(decided).clients
    requires !HasStatus(Last(decided), id, Committed) && begun <= b && begun < |decided.states| && until == decided.states[begun].now + ttl
    requires answer.Unsent? || (HasStatus(Last(decided), id, Aborted) && ExpiredIn(decided, b, |decided.steps|, id, until))
    ensures !HasStatus(Last(r), id, Committed) && (answer.Unsent? || HasStatus(Last(r), id, Aborted))
    ensures FailedFor(r, begun, id, resources, Some(ms), ttl, attempts, answer, if answer.Unsent? then NotSent else TimedOut)
  {
    QuietNotCommitted(decided, r, id);
    if !answer.Unsent? {
      ExpiredStill(decided, r, b, begun, id, until);
      DecisionFinal(r, |decided.steps|, |r.steps|, id, Aborted);
    }
  }

  method RunPlan(ns: Namespace, id: TxId, m: Manifest, generation: nat, resources: seq<Resource>, ms: seq<Mutation>, ttl: nat,
                 enforce: bool, work: bool, attempts: nat, answer: Answer, ghost begun: nat, ghost gots: map<Key, Got>, ghost ws: map<Key, Witness>)
    returns (ok: bool, again: bool, ghost v: nat, ghost n: nat, ghost asked: nat, ghost why: Failure)
    requires ns.Valid() && InPhase(ns.s, id, Building) && !ns.s.clients[id].rename && ns.s.clients[id].prepared == {}
    requires Current(ns.run, begun, begun, id, m, generation, ttl)
    requires GoodPlan(resources, gots, enforce, ms)
    requires ns.Facts(id, gots, enforce, ws) && Holds(ns.s, id, resources, ttl)
    modifies ns
    ensures ns.Valid() && old(ns.run.states) <= ns.run.states && old(ns.run.steps) <= ns.run.steps && id in ns.s.clients
    ensures ok <==> HasStatus(ns.s, id, Committed) && (answer.Heard? || ListedAt(ns.run, asked, id))
    ensures HasStatus(ns.s, id, Committed) ==> CommittedAs(ns.run, n, id, ms, gots, enforce, ws)
    ensures Ends(ns.run, begun, v, n, id, resources, Some(ms), work, ttl, attempts, answer, why)
    ensures if HasStatus(ns.s, id, Committed) then !again else Again(again, answer, why)
    ensures forall q | q in resources :: q !in ns.s.clients[id].held
  {
    again, v, n, asked, why := true, 0, 0, 0, TimedOut;
    var m', generation';
    ghost var b';
    ok, m', generation', b' := PublishPlan(ns, id, m, generation, ms, work, begun);
    ghost var planned := ns.run;
    if !ok {
      GiveUp(ns, id, m', generation', resources, b');
      ExpiredStill(planned, ns.run, begun, begun, id, m.leaseUntil);
      NotBothDecided(ns.s, id);
      return;
    }
    ClockKept(ns.run, old(|ns.run.steps|), |ns.run.steps|);
    AllFactsKept(old(ns.run), ns.run, old(ns.s.clients[id]), ns.s.clients[id], id, gots, enforce, ws);
    ok, again, v, n, asked, why := Complete(ns, id, m', generation', resources, ms, ttl, enforce, attempts, answer, work, begun, b', gots, ws);
  }

  /** From the leases to the decision. */
  method BuildAndRun(ns: Namespace, id: TxId, m: Manifest, generation: nat, resources: seq<Resource>, keys: seq<Key>, enforce: bool,
                     build: map<Key, Got> -> Option<seq<Mutation>>, work: bool, ttl: nat, attempts: nat, answer: Answer, ghost begun: nat)
    returns (ok: bool, again: bool, gots: map<Key, Got>, ghost v: nat, ghost n: nat, ghost ws: map<Key, Witness>, ghost asked: nat,
             ghost why: Failure)
    requires ns.Valid() && id in ns.s.clients && ns.s.clients[id] == NewClient.(held := ns.s.clients[id].held)
    requires Current(ns.run, begun, begun, id, m, generation, ttl) && Holds(ns.s, id, resources, ttl)
    requires forall i, j | 0 <= i < j < |keys| :: keys[i] != keys[j]
    requires forall k | k in keys :: ResourceOf(k).Some? && ResourceOf(k).value in resources
    requires forall g :: build(g).Some? ==> GoodPlan(resources, g, enforce, build(g).value)
    modifies ns
    ensures ns.Valid() && old(ns.run.states) <= ns.run.states && old(ns.run.steps) <= ns.run.steps
    ensures ok <==> HasStatus(ns.s, id, Committed) && (answer.Heard? || ListedAt(ns.run, asked, id))
    ensures HasStatus(ns.s, id, Committed) ==> build(gots).Some? && CommittedAs(ns.run, n, id, build(gots).value, gots, enforce, ws)
    ensures Ends(ns.run, begun, v, n, id, resources, build(gots), work, ttl, attempts, answer, why)
    ensures if HasStatus(ns.s, id, Committed) then !again else Again(again, answer, why)
    ensures forall k :: k in gots <==> k in keys
    ensures id in ns.s.clients && forall q | q in resources :: q !in ns.s.clients[id].held
  {
    again, v, n, asked, why := false, 0, 0, 0, Declined;
    gots, ws := ns.BuildReads(id, keys, enforce);
    UnsettledOn(old(ns.run), ns.run, begun, id);
    ClockKept(ns.run, old(|ns.run.steps|), |ns.run.steps|);
    var plan := build(gots);
    if plan.None? {
      ok := false;
      GiveUp(ns, id, m, generation, resources, begun);
      NotBothDecided(ns.s, id);
      return;
    }
    ok, again, v, n, asked, why := RunPlan(ns, id, m, generation, resources, plan.value, ttl, enforce, work, attempts, answer, begun, gots, ws);
  }

  /** One attempt: the manifest, the leases, the reads, the plan built from them, and the
      decision. It reports success exactly when the transaction is committed, unless the answer
      to its decision was lost and the manifest has been archived before the client asks again.
      Committed, it made the plan visible and everything had been prepared while its leases still
      ran; and it fails only for one of the reasons that Failure names. */
  method TransactOnce(ns: Namespace, id: TxId, resources: seq<Resource>, keys: seq<Key>, enforce: bool,
                      build: map<Key, Got> -> Option<seq<Mutation>>, work: bool, ttl: nat, attempts: nat, answer: Answer)
    returns (ok: bool, again: bool, gots: map<Key, Got>, ghost begun: nat, ghost v: nat, ghost n: nat, ghost ws: map<Key, Witness>,
             ghost asked: nat, ghost why: Failure)
    requires ns.Valid() && id !in ns.s.clients
    requires forall i, j | 0 <= i < j < |resources| :: resources[i] != resources[j]
    requires forall i, j | 0 <= i < j < |keys| :: keys[i] != keys[j]
    requires forall k | k in keys :: ResourceOf(k).Some? && ResourceOf(k).value in resources
    requires forall g :: build(g).Some? ==> GoodPlan(resources, g, enforce, build(g).value)
    modifies ns
    ensures ns.Valid() && old(ns.run.states) <= ns.run.states && old(ns.run.steps) <= ns.run.steps
    ensures ok <==> HasStatus(ns.s, id, Committed) && (answer.Heard? || ListedAt(ns.run, asked, id))
    ensures old(|ns.run.steps|) < begun < |ns.run.states| && ns.run.steps[begun - 1] == Begin(id, ns.run.states[begun].now + ttl)
    ensures HasStatus(ns.s, id, Committed) ==> build(gots).Some? && CommittedAs(ns.run, n, id, build(gots).value, gots, enforce, ws)
    ensures Ends(ns.run, begun, v, n, id, resources, build(gots), work, ttl, attempts, answer, why)
    ensures if HasStatus(ns.s, id, Committed) then !again else Again(again, answer, why)
    ensures !why.Unavailable? || HasStatus(ns.s, id, Committed) ==> forall k :: k in gots <==> k in keys
    ensures id in ns.s.clients && forall q | q in resources :: q !in ns.s.clients[id].held
  {
    var generation, m;
    again, gots, ws, v, n, asked := true, map[], map[], 0, 0, 0;
    ok, m, generation, begun, why := Start(ns, id, resources, ttl, 8 * attempts);
    if !ok {
      ghost var started := ns.run;
      GiveUp(ns, id, m, generation, resources, begun);
      DeniedKept(started, ns.run, begun, begun, id, why.resource, 8 * attempts);
      NotBothDecided(ns.s, id);
      return;
    }
    ok, again, gots, v, n, ws, asked, why := BuildAndRun(ns, id, m, generation, resources, keys, enforce, build, work, ttl, attempts, answer, begun);
  }

  // ---- Trying again ----

  lemma {:induction false} FreshId(ids: set<TxId>) returns (bound: TxId)
    ensures bound !in ids && forall id | id in ids :: id < bound
  {
    bound := 0;
    if ids != {} {
      var id :| id in ids;
      bound := FreshId(ids - {id});
      bound := if id < bound then bound else id + 1;
      assert forall i | i in ids :: i == id || i in ids - {id};
    }
  }

  /** All of them have been aborted, and will never commit. */
  ghost predicate AllAborted(s: State, ids: set<TxId>) {
    forall id | id in ids :: HasStatus(s, id, Aborted)
  }

  lemma AbortedStay(r: Run, a: nat, b: nat, ids: set<TxId>)
    requires ValidRun(r) && a <= b < |r.states| && AllAborted(r.states[a], ids)
    ensures AllAborted(r.states[b], ids)
  {
    forall id | id in ids ensures HasStatus(r.states[b], id, Aborted) {
      DecisionFinal(r, a, b, id, Aborted);
    }
  }

  /** None of them was known at start. */
  ghost predicate AllNew(r: Run, start: nat, ids: set<TxId>) {
    start < |r.states| && forall id | id in ids :: id !in r.states[start].clients
  }

  /** One attempt under a fresh id, all earlier ones having been aborted. */
  method Attempt(ns: Namespace, resources: seq<Resource>, keys: seq<Key>, enforce: bool, build: map<Key, Got> -> Option<seq<Mutation>>,
                 work: bool, ttl: nat, attempts: nat, answer: Answer, ghost start: nat, ghost failed: set<TxId>)
    returns (ok: bool, again: bool, id: TxId, gots: map<Key, Got>, ghost begun: nat, ghost v: nat, ghost n: nat, ghost ws: map<Key, Witness>,
             ghost asked: nat, ghost why: Failure)
    requires ns.Valid() && AllAborted(ns.s, failed) && AllNew(ns.run, start, failed)
    requires forall i, j | 0 <= i < j < |resources| :: resources[i] != resources[j]
    requires forall i, j | 0 <= i < j < |keys| :: keys[i] != keys[j]
    requires forall k | k in keys :: ResourceOf(k).Some? && ResourceOf(k).value in resources
    requires forall g :: build(g).Some? ==> GoodPlan(resources, g, enforce, build(g).value)
    modifies ns
    ensures ns.Valid() && old(ns.run.states) <= ns.run.states && old(ns.run.steps) <= ns.run.steps
    ensures AllAborted(ns.s, failed) && AllNew(ns.run, start, failed + {id}) && id !in failed
    ensures ok <==> HasStatus(ns.s, id, Committed) && (answer.Heard? || ListedAt(ns.run, asked, id))
    ensures HasStatus(ns.s, id, Committed) ==> build(gots).Some? && CommittedAs(ns.run, n, id, build(gots).value, gots, enforce, ws)
    ensures old(|ns.run.steps|) < begun < |ns.run.states|
    ensures Ends(ns.run, begun, v, n, id, resources, build(gots), work, ttl, attempts, answer, why)
    ensures if HasStatus(ns.s, id, Committed) then !again else Again(again, answer, why)
    ensures again ==> HasStatus(ns.s, id, Aborted)
  {
    ghost var unused := FreshId(ns.s.clients.Keys);
    var next: TxId :| next !in ns.s.clients;
    id := next;
    if start <= |ns.run.steps| && id in ns.run.states[start].clients {
      ClientKept(ns.run, start, |ns.run.steps|, id);
    }
    AbortedKnown(ns.run, failed);
    ok, again, gots, begun, v, n, ws, asked, why := TransactOnce(ns, id, resources, keys, enforce, build, work, ttl, attempts, answer);
    AbortedStay(ns.run, old(|ns.run.steps|), |ns.run.steps|, failed);
  }

  lemma AbortedKnown(r: Run, ids: set<TxId>)
    requires ValidRun(r) && AllAborted(Last(r), ids)
    ensures forall id | id in ids :: id in Last(r).clients
  {
    RunInv(r, |r.steps|);
  }

  /** A transaction: attempts under fresh ids as long as they lose races or find no lease, with a
      growing delay between them. Of its attempts at most one commits, and that is the last; and
      it gives up only after all of its attempts or for a reason that is not tried again. */
  method Transact(ns: Namespace, resources: seq<Resource>, keys: seq<Key>, enforce: bool, build: map<Key, Got> -> Option<seq<Mutation>>,
                  work: bool, ttl: nat, attempts: nat, answers: nat -> Answer)
    returns (ok: bool, again: bool, id: TxId, gots: map<Key, Got>, ghost failed: set<TxId>, ghost begun: nat, ghost v: nat, ghost n: nat,
             ghost ws: map<Key, Witness>, ghost asked: nat, ghost why: Failure)
    requires ns.Valid() && 0 < attempts
    requires forall i, j | 0 <= i < j < |resources| :: resources[i] != resources[j]
    requires forall i, j | 0 <= i < j < |keys| :: keys[i] != keys[j]
    requires forall k | k in keys :: ResourceOf(k).Some? && ResourceOf(k).value in resources
    requires forall g :: build(g).Some? ==> GoodPlan(resources, g, enforce, build(g).value)
    modifies ns
    ensures ns.Valid() && old(ns.run.states) <= ns.run.states && old(ns.run.steps) <= ns.run.steps
    ensures AllAborted(ns.s, failed) && AllNew(ns.run, old(|ns.run.steps|), failed + {id}) && id !in failed && |failed| < attempts
    ensures ok <==> HasStatus(ns.s, id, Committed) && (answers(|failed|).Heard? || ListedAt(ns.run, asked, id))
    ensures HasStatus(ns.s, id, Committed) ==> build(gots).Some? && CommittedAs(ns.run, n, id, build(gots).value, gots, enforce, ws)
    ensures old(|ns.run.steps|) < begun < |ns.run.states|
    ensures Ends(ns.run, begun, v, n, id, resources, build(gots), work, ttl, attempts, answers(|failed|), why)
    ensures if HasStatus(ns.s, id, Committed) then !again else Again(again, answers(|failed|), why)
    ensures again ==> |failed| + 1 == attempts
  {
    failed := {};
    for attempt := 0 to attempts - 1
      invariant ns.Valid() && old(ns.run.states) <= ns.run.states && old(ns.run.steps) <= ns.run.steps
      invariant AllAborted(ns.s, failed) && AllNew(ns.run, old(|ns.run.steps|), failed) && |failed| == attempt
    {
      ok, again, id, gots, begun, v, n, ws, asked, why :=
        Attempt(ns, resources, keys, enforce, build, work, ttl, attempts, answers(attempt), old(|ns.run.steps|), failed);
      if !again {
        return;
      }
      failed := failed + {id};
      Pause(ns, id, attempt, failed);
    }
    ok, again, id, gots, begun, v, n, ws, asked, why :=
      Attempt(ns, resources, keys, enforce, build, work, ttl, attempts, answers(attempts - 1), old(|ns.run.steps|), failed);
  }

  /** The delay after an attempt, in milliseconds: it grows, and varies by up to 24. */
  method Pause(ns: Namespace, id: TxId, attempt: nat, ghost failed: set<TxId>)
    requires ns.Valid() && AllAborted(ns.s, failed)
    modifies ns
    ensures ns.Valid() && old(ns.run.states) <= ns.run.states && old(ns.run.steps) <= ns.run.steps && AllAborted(ns.s, failed)
    ensures old(ns.s.now) + (attempt + 1) * 25 <= ns.s.now
  {
    var jitter: nat :| jitter < 25;
    ns.Sleep(id, (attempt + 1) * 25 + jitter);
    AbortedStay(ns.run, old(|ns.run.steps|), |ns.run.steps|, failed);
  }
}
