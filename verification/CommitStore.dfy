/** The V4 namespace code over the shared store. Before every access to the store other
    processes may take any steps of the protocol, so each method is proved against every
    interleaving; each conditional write it makes is one step of the protocol. */
module CommitStore {
  import opened Wrappers
  import opened CommitModel
  import opened CommitInvariant
  import opened CommitTheorems
  import opened CommitSerial
  import opened CommitRely
  import opened CommitObstacles

  function Sooner(deadline: Option<nat>, t: nat): nat {
    if deadline.Some? && deadline.value < t then deadline.value else t
  }

  /** One planned write; expected is the generation it insists on, if it insists. */
  datatype Mutation = Mutation(key: Key, write: Option<Raw>, requireAbsent: bool, expected: Option<nat>)

  lemma StillFree(r: Run, a: nat, b: nat, id: TxId, q: Resource)
    requires ValidRun(r) && a <= b < |r.states| && FreeFor(r.states[a], id, q)
    requires LeaseGeneration(r.states[a], q) == LeaseGeneration(r.states[b], q)
    ensures FreeFor(r.states[b], id, q)
  {
    RunInv(r, a);
    RunInv(r, b);
    if q in r.states[b].leases {
      SameLease(r, a, b, q);
      ClockKept(r, a, b);
    }
  }

  function WritesOf(ms: seq<Mutation>): map<Key, Option<Raw>>
    requires DistinctKeys(ms)
  {
    map i | 0 <= i < |ms| :: ms[i].key := ms[i].write
  }

  predicate DistinctKeys(ms: seq<Mutation>) {
    forall i, j | 0 <= i < j < |ms| :: ms[i].key != ms[j].key
  }

  /** What a build must respect: one write per key, only keys it has fenced, and generations
      insisted on only as they were read. */
  predicate GoodPlan(resources: seq<Resource>, gots: map<Key, Got>, enforce: bool, ms: seq<Mutation>) {
    && DistinctKeys(ms)
    && (forall m | m in ms :: ResourceOf(m.key).Some? ==> ResourceOf(m.key).value in resources)
    && (forall m | m in ms :: if enforce then m.key in gots && m.expected == Some(gots[m.key].generation) else m.expected.None?)
  }

  function KeysOf(ms: seq<Mutation>): set<Key> {
    set m | m in ms :: m.key
  }

  lemma PlannedWrite(ms: seq<Mutation>, i: nat)
    requires DistinctKeys(ms) && i < |ms|
    ensures ms[i].key in WritesOf(ms) && WritesOf(ms)[ms[i].key] == ms[i].write
    ensures ms[i].key !in KeysOf(ms[..i])
    ensures KeysOf(ms[..i + 1]) == KeysOf(ms[..i]) + {ms[i].key}
  {
    assert ms[..i + 1] == ms[..i] + [ms[i]];
    forall k | k in KeysOf(ms[..i]) + {ms[i].key} ensures k in KeysOf(ms[..i + 1]) {
      if k == ms[i].key {
        assert ms[i] in ms[..i + 1];
      } else {
        var m :| m in ms[..i] && m.key == k;
        assert m in ms[..i + 1];
      }
    }
  }

  lemma AllPlanned(ms: seq<Mutation>)
    requires DistinctKeys(ms)
    ensures KeysOf(ms) == WritesOf(ms).Keys
  {
  }

  /** The object had nothing pending when it was read, and was then what it was when its
      generation was taken. */
  ghost predicate Settled(r: Run, k: Key, ws: map<Key, Witness>) {
    && k in ws
    && var w := ws[k];
    && w.j < |r.states| && w.g < |r.states|
    && EnvAt(r.states[w.j], k).pending.None? && EnvAt(r.states[w.j], k) == EnvAt(r.states[w.g], k)
  }

  /** Whatever the plan insists on was prepared under a generation check, over the object read. */
  ghost predicate AllSettled(r: Run, c: Client, ms: seq<Mutation>, ws: map<Key, Witness>) {
    forall m | m in ms && m.expected.Some? :: m.key in c.checked && Settled(r, m.key, ws)
  }

  lemma SettledNext(r0: Run, r1: Run, c0: Client, c1: Client, ms: seq<Mutation>, i: nat, ws: map<Key, Witness>)
    requires i < |ms| && AllSettled(r0, c0, ms[..i], ws) && r0.states <= r1.states && c0.checked <= c1.checked
    requires ms[i].expected.Some? ==> ms[i].key in c1.checked && Settled(r1, ms[i].key, ws)
    ensures AllSettled(r1, c1, ms[..i + 1], ws)
  {
    assert ms[..i + 1] == ms[..i] + [ms[i]];
    forall m | m in ms[..i + 1] && m.expected.Some? ensures m.key in c1.checked && Settled(r1, m.key, ws) {
      if m != ms[i] {
        assert m in ms[..i] && Settled(r0, m.key, ws);
      }
    }
  }

  /** A mutation that insists on a generation insists on the one that was read. */
  ghost predicate Insists(r: Run, c: Client, m: Mutation, gots: map<Key, Got>, ws: map<Key, Witness>) {
    m.expected.Some? ==>
      && m.key in gots && m.key in ws && m.expected.value == gots[m.key].generation
      && Noted(r, c, m.key, gots[m.key], ws[m.key])
  }

  predicate Unfit(s: State, m: Mutation) {
    (m.expected.Some? && GenAt(s, m.key) != m.expected.value) || (m.requireAbsent && EnvAt(s, m.key).current.Some?)
  }

  /** At i the object was not what the mutation insists on, or had a pending value that stood in
      the way or that others cleared first. */
  ghost predicate ObstructedAt(r: Run, i: nat, m: Mutation, id: TxId)
    requires |r.states| == |r.steps| + 1 && i < |r.states|
  {
    var e := EnvAt(r.states[i], m.key);
    if e.pending.Some? then Stands(r, i, e.pending.value) || 0 < Rewrites(r, i, |r.steps|, m.key, id) else Unfit(r.states[i], m)
  }

  ghost predicate Obstructed(r: Run, start: nat, m: Mutation, id: TxId)
    requires |r.states| == |r.steps| + 1
  {
    exists i | start <= i < |r.states| :: ObstructedAt(r, i, m, id)
  }

  /** Why a write is not prepared: it was obstructed, or others rewrote the object as often as
      there were attempts. */
  ghost predicate Unprepared(r: Run, start: nat, m: Mutation, id: TxId, attempts: nat) {
    && |r.states| == |r.steps| + 1 && start < |r.states|
    && (Obstructed(r, start, m, id) || attempts <= Rewrites(r, start, |r.steps|, m.key, id))
  }

  lemma UnpreparedKept(r0: Run, r1: Run, start: nat, start': nat, m: Mutation, id: TxId, attempts: nat)
    requires Unprepared(r0, start, m, id, attempts) && start' <= start
    requires r0.states <= r1.states && r0.steps <= r1.steps && |r1.states| == |r1.steps| + 1
    ensures Unprepared(r1, start', m, id, attempts)
  {
    if Obstructed(r0, start, m, id) {
      var i :| start <= i < |r0.states| && ObstructedAt(r0, i, m, id);
      ObstructedKept(r0, r1, i, m, id);
    } else {
      MoreRewrites(r0, r1, start', start, m.key, id);
    }
  }

  lemma ObstructedKept(r0: Run, r1: Run, i: nat, m: Mutation, id: TxId)
    requires |r0.states| == |r0.steps| + 1 && i < |r0.states| && ObstructedAt(r0, i, m, id)
    requires r0.states <= r1.states && r0.steps <= r1.steps && |r1.states| == |r1.steps| + 1
    ensures ObstructedAt(r1, i, m, id)
  {
    MoreRewrites(r0, r1, i, i, m.key, id);
    var e := EnvAt(r0.states[i], m.key);
    if e.pending.Some? && Stands(r0, i, e.pending.value) {
      StandsLater(r0, r1, i, i, e.pending.value);
    }
  }

  predicate Prepared(c: Client, c': Client, k: Key, checked: bool) {
    c' == c.(prepared := c.prepared + {k}, checked := if checked then c.checked + {k} else c.checked)
  }

  lemma PendingReady(r: Run, a: nat, p: nat, id: TxId, k: Key, checked: bool)
    requires ValidRun(r) && a <= p < |r.states| && GenAt(r.states[p], k) == GenAt(r.states[a], k) && EnvAt(r.states[a], k).pending.None?
    requires InPhase(r.states[p], id, Planned) && !r.states[p].clients[id].rename
    requires var c := r.states[p].clients[id];
      k in c.writes && k !in c.prepared && (checked ==> k in c.seen && c.seen[k] == Ver(r.states[a], k))
    ensures Enabled(r.states[p], Prepare(id, k, checked))
    ensures var s := r.states[p];
      Apply(s, Prepare(id, k, checked)).envelopes
      == s.envelopes[k := Stored(Envelope(EnvAt(r.states[a], k).current, Some(Pending(id, s.clients[id].writes[k], 0))), s.nextGen)]
  {
    PrepareReady(r, a, p, id, k);
    LeasedUntil(r, p, id);
  }

  /** The client now holds one lease more, the one stored, for the time to live from now. */
  predicate Taken(c: Client, s: State, id: TxId, q: Resource, ttl: nat) {
    && id in s.clients && q in s.clients[id].held
    && s.clients[id] == c.(held := c.held[q := s.clients[id].held[q]])
    && q in s.leases && s.leases[q] == Stored(Lease(id, s.clients[id].held[q].until), s.clients[id].held[q].generation)
    && s.clients[id].held[q].until == s.now + ttl
  }

  /** Re-read, the lease was gone, another one or run out. */
  predicate LeaseLost(s: State, q: Resource, h: Held) {
    q !in s.leases || s.leases[q].generation != h.generation || h.until <= s.now
  }

  /** At i the lease that the client had taken was found lost. */
  ghost predicate LostAt(r: Run, i: nat, id: TxId, q: Resource) {
    && i < |r.states| && id in r.states[i].clients && q in r.states[i].clients[id].held
    && LeaseLost(r.states[i], q, r.states[i].clients[id].held[q])
  }

  /** An attempt that found the lease held is followed by its delay. */
  ghost predicate Waited(r: Run, id: TxId, q: Resource, i: nat, l: Look) {
    && l.from <= l.to < |r.states|
    && (!FreeFor(r.states[l.from], id, q) ==> r.states[l.from].now + Delay(i) <= r.states[|r.states| - 1].now)
  }

  /** So many attempts have failed, and after the last of them has been waited. */
  ghost predicate Tried(r: Run, start: nat, id: TxId, q: Resource, looks: seq<Look>) {
    AllBlocked(r, start, id, q, looks) && (looks != [] ==> Waited(r, id, q, |looks| - 1, looks[|looks| - 1]))
  }

  lemma TriedNext(r0: Run, r1: Run, start: nat, id: TxId, q: Resource, looks: seq<Look>, l: Look)
    requires ValidRun(r0) && ValidRun(r1) && Tried(r0, start, id, q, looks) && r0.states <= r1.states
    requires start <= |r0.steps| <= l.from && Blocked(r1, id, q, l)
    ensures AllBlocked(r1, start, id, q, looks + [l])
    ensures FreeFor(r1.states[l.from], id, q) ==> Tried(r1, start, id, q, looks + [l])
  {
    ClockKept(r1, |r0.steps|, l.from);
    AllBlockedNext(r0, r1, start, id, q, looks, l);
  }

  /** Seen expired and unchanged since, a manifest can be aborted by anybody. */
  lemma ExpireReady(r: Run, b: nat, p: nat, tx: TxId, m: Manifest, generation: nat)
    requires ValidRun(r) && b <= p < |r.states| && tx in r.states[b].active && r.states[b].active[tx] == Stored(m, generation)
    requires m.status == Preparing && m.leaseUntil <= r.states[b].now && ActiveGeneration(r.states[p], tx) == generation
    ensures Enabled(r.states[p], Expire(tx))
    ensures Apply(r.states[p], Expire(tx)).active == r.states[p].active[tx := Stored(m.(status := Aborted), r.states[p].nextGen)]
  {
    RunInv(r, b);
    SameManifest(r, b, p, tx);
    PreparingLeased(r, p, tx);
    ClockKept(r, b, p);
  }

  /** A manifest that expired and could not be aborted, yet is preparing at a later look. */
  lemma StillPreparing(r: Run, b0: nat, p: nat, b: nat, c: nat, tx: TxId, generation: nat)
    requires ValidRun(r) && b0 <= p <= b <= c < |r.states| && ActivePreparing(r.states[b0], tx)
    requires generation == r.states[b0].active[tx].generation != ActiveGeneration(r.states[p], tx)
    requires Looked(r, b, c, tx).Some? ==> Looked(r, b, c, tx).value.status == Preparing
    ensures exists i | b0 <= i < |r.steps| :: PlanOf(r.steps[i], tx)
  {
    PreparingLeased(r, b0, tx);
    ClientKept(r, b0, b, tx);
    LeasedAlwaysFound(r, b, c, tx);
    RunInv(r, c);
    StillListed(r, b0, p, b, tx);
  }

  lemma MoreRewrites(r0: Run, r1: Run, a0: nat, a1: nat, k: Key, id: TxId)
    requires |r0.states| == |r0.steps| + 1 && |r1.states| == |r1.steps| + 1 && a0 <= a1 < |r0.states|
    requires r0.states <= r1.states && r0.steps <= r1.steps
    ensures Rewrites(r0, a1, |r0.steps|, k, id) <= Rewrites(r1, a0, |r1.steps|, k, id)
  {
    RewritesAdd(r1, a0, a1, |r1.steps|, k, id);
    RewritesAdd(r1, a1, |r0.steps|, |r1.steps|, k, id);
    RewritesKept(r0, r1, a1, |r0.steps|, k, id);
  }

  lemma NextOf<T>(xs: seq<T>, i: nat)
    requires i < |xs| && forall a, b | 0 <= a < b < |xs| :: xs[a] != xs[b]
    ensures xs[i] in xs && xs[i] !in xs[..i]
    ensures xs[..i + 1] == xs[..i] + [xs[i]]
  {
  }

  /** n counts the steps of other processes: unless there were any, only time has passed. */
  predicate Calm(n0: nat, n1: nat, s0: State, s1: State) {
    n0 <= n1 && (n0 == n1 ==> s1 == s0.(now := s1.now))
  }

  class Namespace {
    var s: State
    ghost var run: Run
    ghost var others: nat

    ghost predicate Valid()
      reads this
    {
      ValidRun(run) && run.states[|run.steps|] == s
    }

    /** The run so far ends in the present state. */
    constructor (initial: State)
      requires Init(initial)
      ensures Valid() && s == initial && run == Run([initial], [])
    {
      s := initial;
      run := Run([initial], []);
      others := 0;
      new;
      InitInv(initial);
    }

    /** One atomic access to the store. */
    method Take(l: Step)
      requires Valid() && Enabled(s, l) && TimelyRename(s, l)
      modifies `s, `run
      ensures Valid() && s == Apply(old(s), l)
      ensures run == Run(old(run.states) + [s], old(run.steps) + [l])
    {
      s := Apply(s, l);
      ghost var r := run;
      run := Run(run.states + [s], run.steps + [l]);
      forall i | 0 <= i < |run.steps| ensures StepAt(run, i) {
        if i < |r.steps| {
          assert StepAt(r, i);
        }
      }
    }

    /** Other processes run: any number of steps of any clients but mine. A deadline is the
        timing assumption of a lease-free rename, that the clock does not reach it. */
    method Interfere(mine: set<TxId>, deadline: Option<nat>)
      requires Valid() && (deadline.Some? ==> s.now < deadline.value)
      modifies this
      ensures Valid() && Continues(old(run), run, mine)
      ensures deadline.Some? ==> s.now < deadline.value
      ensures Calm(old(others), others, old(s), s)
    {
      var n: int := *;
      while 0 < n
        invariant Valid() && Continues(old(run), run, mine)
        invariant Calm(old(others), others, old(s), s)
        invariant deadline.Some? ==> s.now < deadline.value
      {
        n := n - 1;
        var l: Step := *;
        if Enabled(s, l) && TimelyRename(s, l) && (Actor(l).None? || Actor(l).value !in mine) {
          if deadline.None? || Apply(s, l).now < deadline.value {
            ghost var before := run;
            Take(l);
            ContinueOne(old(run), before, run, mine);
            others := if l.Tick? then others else others + 1;
          }
        }
      }
    }

    /** The backend contract: a conditional put takes effect if the object still has the
        expected generation (zero for absent), and otherwise changes nothing. */
    method PutEnvelope(k: Key, e: Envelope, expected: nat, l: Step) returns (ok: bool, generation: nat)
      requires Valid()
      requires GenAt(s, k) == expected ==>
                 Enabled(s, l) && TimelyRename(s, l)
                 && Apply(s, l).envelopes == s.envelopes[k := Stored(e, s.nextGen)]
      modifies `s, `run
      ensures Valid() && ok == (old(GenAt(s, k)) == expected)
      ensures !ok ==> s == old(s) && run == old(run)
      ensures ok ==>
                && s == Apply(old(s), l) && generation == old(s.nextGen)
                && run == Run(old(run.states) + [s], old(run.steps) + [l])
    {
      ok := GenAt(s, k) == expected;
      generation := s.nextGen;
      if ok {
        Take(l);
      }
    }

    /** The same contract for manifests; only a lookup, a write or an abort of tx uses it. */
    method PutManifest(tx: TxId, m: Manifest, expected: nat, l: Step) returns (ok: bool, generation: nat)
      requires Valid()
      requires ActiveGeneration(s, tx) == expected ==>
                 Enabled(s, l) && TimelyRename(s, l)
                 && Apply(s, l).active == s.active[tx := Stored(m, s.nextGen)]
      modifies `s, `run
      ensures Valid() && ok == (old(ActiveGeneration(s, tx)) == expected)
      ensures !ok ==> s == old(s) && run == old(run)
      ensures ok ==>
                && s == Apply(old(s), l) && generation == old(s.nextGen)
                && run == Run(old(run.states) + [s], old(run.steps) + [l])
    {
      ok := ActiveGeneration(s, tx) == expected;
      generation := s.nextGen;
      if ok {
        Take(l);
      }
    }

    /** The active manifest, then the journal: two separate accesses. Finding neither takes
        no longer than the slack. */
    method ReadTransactionDecision(tx: TxId, mine: set<TxId>, deadline: Option<nat>)
      returns (m: Option<Manifest>, looked: nat, ghost b: nat, ghost c: nat)
      requires Valid() && (deadline.Some? ==> s.now < deadline.value)
      modifies this
      ensures Valid() && Continues(old(run), run, mine) && (deadline.Some? ==> s.now < deadline.value)
      ensures old(|run.steps|) <= b <= c == |run.steps|
      ensures m == Looked(run, b, c, tx)
      ensures looked == run.states[b].now && (m.None? ==> s.now <= looked + s.slack)
      ensures Calm(old(others), others, old(s), s)
    {
      Interfere(mine, deadline);
      b := |run.steps|;
      looked := s.now;
      if tx in s.active {
        c := b;
        return Some(s.active[tx].data), looked, b, c;
      }
      ghost var middle := run;
      Interfere(mine, Some(Sooner(deadline, looked + s.slack + 1)));
      c := |run.steps|;
      ContinueAll(old(run), middle, run, mine);
      ClockKept(run, b, c);
      m := if tx in s.journal then Some(s.journal[tx]) else None;
    }

    /** Folds a committed pending value into the current one, if the object is still the one read. */
    method PromoteEnvelopeStrict(k: Key, generation: nat, e: Envelope, mine: set<TxId>, deadline: Option<nat>, ghost a: nat)
      returns (ok: bool, promoted: nat)
      requires Valid() && (deadline.Some? ==> s.now < deadline.value)
      requires a < |run.states| && GenAt(run.states[a], k) == generation && EnvAt(run.states[a], k) == e
      requires e.pending.Some? && HasStatus(s, e.pending.value.tx, Committed)
      modifies this
      ensures Valid() && (deadline.Some? ==> s.now < deadline.value)
      ensures Continues(old(run), run, mine)
      ensures ok ==> GenAt(s, k) == promoted && EnvAt(s, k) == Envelope(e.pending.value.write, None)
      ensures !ok ==> GenAt(s, k) != generation
      ensures old(others) <= others && (old(others) == others ==> s.active == old(s.active) && (ok <==> old(GenAt(s, k)) == generation))
    {
      Interfere(mine, deadline);
      ghost var before := run;
      if GenAt(s, k) == generation {
        SameGeneration(run, a, |run.steps|, k);
        DecisionFinal(run, old(|run.steps|), |run.steps|, e.pending.value.tx, Committed);
      }
      ok, promoted := PutEnvelope(k, Envelope(e.pending.value.write, None), generation, Promote(k));
      if ok {
        ContinueOne(old(run), before, run, mine);
      }
    }

    /** Returns a value that was visible at one instant inside the call, named by at. The
        generation is the object's at an instant named by seen; if nothing was pending then,
        the value is what the object held. */
    method VisibleEnvelope(k: Key, mine: set<TxId>, deadline: Option<nat>)
      returns (value: Option<Raw>, generation: nat, ghost at: nat, ghost seen: nat)
      requires Valid() && (deadline.Some? ==> s.now < deadline.value)
      modifies this
      ensures Valid() && Continues(old(run), run, mine) && (deadline.Some? ==> s.now < deadline.value)
      ensures old(|run.steps|) <= at <= |run.steps| && Visible(run.states[at], k) == value
      ensures old(|run.steps|) <= seen <= |run.steps| && GenAt(run.states[seen], k) == generation
      ensures EnvAt(run.states[seen], k).pending.None? ==> EnvAt(run.states[seen], k).current == value
      ensures old(others) <= others && (old(others) == others ==> GenAt(s, k) == generation)
    {
      Interfere(mine, deadline);
      at, seen, generation := |run.steps|, |run.steps|, GenAt(s, k);
      var e := EnvAt(s, k);
      value := e.current;
      if e.pending.Some? {
        ghost var read := run;
        ghost var a := |run.steps|;
        var m, _, b, c := ReadTransactionDecision(e.pending.value.tx, mine, deadline);
        at := ReadLinearizable(run, a, b, c, k);
        ContinueAll(old(run), read, run, mine);
        if m.Some? && m.value.status == Committed {
          value := e.pending.value.write;
          DecisionNeverMissed(run, a, b, c, e.pending.value.tx, Committed);
          ghost var decided := run;
          var ok, promoted := PromoteEnvelopeStrict(k, generation, e, mine, deadline, a);
          ContinueAll(old(run), decided, run, mine);
          if ok {
            seen, generation := |run.steps|, promoted;
          }
        }
      }
    }

    /** Aborts an expired leased transaction by a conditional write on its manifest. A commit
        may have won that race; then its decision is read again. It fails only if the client
        has rewritten its manifest. */
    method AbortExpired(tx: TxId, m: Manifest, generation: nat, mine: set<TxId>, deadline: Option<nat>, ghost b0: nat)
      returns (ok: bool, decided: Option<Manifest>, ghost b: nat, ghost c: nat)
      requires Valid() && (deadline.Some? ==> s.now < deadline.value) && m.status == Preparing
      requires b0 < |run.states| && tx in run.states[b0].active && run.states[b0].active[tx] == Stored(m, generation)
      requires m.leaseUntil <= run.states[b0].now
      modifies this
      ensures Valid() && Continues(old(run), run, mine) && (deadline.Some? ==> s.now < deadline.value)
      ensures ok ==> old(|run.steps|) <= b <= c <= |run.steps| && decided == Looked(run, b, c, tx)
      ensures ok ==> decided.Some? && decided.value.status != Preparing
      ensures !ok ==> exists i | b0 <= i < |run.steps| :: PlanOf(run.steps[i], tx)
    {
      Interfere(mine, deadline);
      ghost var before := run;
      if ActiveGeneration(s, tx) == generation {
        ExpireReady(run, b0, |run.steps|, tx, m, generation);
      }
      var won, _ := PutManifest(tx, m.(status := Aborted), generation, Expire(tx));
      if won {
        ContinueOne(old(run), before, run, mine);
        return true, Some(m.(status := Aborted)), |run.steps|, |run.steps|;
      }
      ok, decided, b, c := LookAgain(tx, generation, mine, deadline, b0);
      ContinueAll(old(run), before, run, mine);
    }

    /** The decision of a transaction whose manifest is no longer the one seen at b0. */
    method LookAgain(tx: TxId, generation: nat, mine: set<TxId>, deadline: Option<nat>, ghost b0: nat)
      returns (ok: bool, decided: Option<Manifest>, ghost b: nat, ghost c: nat)
      requires Valid() && (deadline.Some? ==> s.now < deadline.value)
      requires b0 < |run.states| && ActivePreparing(run.states[b0], tx)
      requires generation == run.states[b0].active[tx].generation != ActiveGeneration(s, tx)
      modifies this
      ensures Valid() && Continues(old(run), run, mine) && (deadline.Some? ==> s.now < deadline.value)
      ensures old(|run.steps|) <= b <= c <= |run.steps| && decided == Looked(run, b, c, tx)
      ensures ok <==> decided.Some? && decided.value.status != Preparing
      ensures !ok ==> exists i | b0 <= i < |run.steps| :: PlanOf(run.steps[i], tx)
    {
      var looked: nat;
      decided, looked, b, c := ReadTransactionDecision(tx, mine, deadline);
      ok := decided.Some? && decided.value.status != Preparing;
      if !ok {
        StillPreparing(run, b0, old(|run.steps|), b, c, tx, generation);
      }
    }

    /** The transaction had no active manifest: its journalled decision, or for want of any
        decision the lease inside the pending value. */
    method DecideUnlisted(k: Key, e: Envelope, mine: set<TxId>, deadline: Option<nat>, ghost a: nat, ghost b0: nat)
      returns (ok: bool, commits: bool, ghost b: nat, ghost c: nat, ghost t: nat)
      requires Valid() && (deadline.Some? ==> s.now < deadline.value)
      requires a <= b0 < |run.states| && EnvAt(run.states[a], k) == e && e.pending.Some? && e.pending.value.tx !in run.states[b0].active
      modifies this
      ensures Valid() && Continues(old(run), run, mine) && (deadline.Some? ==> s.now < deadline.value)
      ensures ok ==> Justified(run, a, b, c, t, k, commits)
      ensures !ok ==> Stands(run, b0, e.pending.value)
    {
      PendingUntil(run, a, k);
      ClientKept(run, a, b0, e.pending.value.tx);
      var m, looked, b', c' := ReadTransactionDecision(e.pending.value.tx, mine, deadline);
      b, c, t := b', c', c';
      ok, commits := m.Some? && m.value.status != Preparing, m.Some? && m.value.status == Committed;
      if m.None? {
        ghost var before := run;
        ClockKept(run, b, c);
        Interfere(mine, Some(Sooner(deadline, looked + s.slack + 1)));
        ContinueAll(old(run), before, run, mine);
        ClockKept(run, b, |run.steps|);
        t := |run.steps|;
        ok := e.pending.value.until <= s.now;
      }
      UnlistedDecided(run, b0, b, c, e.pending.value.tx);
      assert !ok ==> InDoubt(run.states[b0], e.pending.value, run.states[t].now);
    }

    /** The transaction had an active manifest: what that says, or if it has expired, that it is
        aborted. */
    method DecideListed(k: Key, e: Envelope, mine: set<TxId>, deadline: Option<nat>, ghost a: nat)
      returns (ok: bool, commits: bool, ghost b: nat, ghost c: nat, ghost t: nat)
      requires Valid() && (deadline.Some? ==> s.now < deadline.value)
      requires a < |run.states| && EnvAt(run.states[a], k) == e && e.pending.Some? && e.pending.value.tx in s.active
      modifies this
      ensures Valid() && Continues(old(run), run, mine) && (deadline.Some? ==> s.now < deadline.value)
      ensures ok ==> Justified(run, a, b, c, t, k, commits)
      ensures !ok ==> Stands(run, old(|run.steps|), e.pending.value)
    {
      var tx := e.pending.value.tx;
      var m, generation := s.active[tx].data, s.active[tx].generation;
      b, c, t := |run.steps|, |run.steps|, |run.steps|;
      ok, commits := m.status != Preparing, m.status == Committed;
      if !ok {
        if m.leaseUntil <= s.now {
          var decided: Option<Manifest>;
          ok, decided, b, c := AbortExpired(tx, m, generation, mine, deadline, b);
          t := |run.steps|;
          commits := decided.Some? && decided.value.status == Committed;
        } else {
          assert InDoubt(run.states[b], e.pending.value, run.states[b].now);
        }
      }
    }

    /** Whether the pending value read at a may be cleared, and how: folded if its transaction
        has committed, dropped if it aborted or ran out of time. An expired leased
        transaction is aborted first, in its manifest. */
    method DecideFold(k: Key, e: Envelope, mine: set<TxId>, deadline: Option<nat>, ghost a: nat)
      returns (ok: bool, commits: bool, ghost b: nat, ghost c: nat, ghost t: nat)
      requires Valid() && (deadline.Some? ==> s.now < deadline.value)
      requires a < |run.states| && EnvAt(run.states[a], k) == e && e.pending.Some?
      modifies this
      ensures Valid() && Continues(old(run), run, mine) && (deadline.Some? ==> s.now < deadline.value)
      ensures ok ==> Justified(run, a, b, c, t, k, commits)
      ensures !ok ==> Stands(run, old(|run.steps|), e.pending.value)
    {
      Interfere(mine, deadline);
      ghost var before := run;
      if e.pending.value.tx in s.active {
        ok, commits, b, c, t := DecideListed(k, e, mine, deadline, a);
      } else {
        ok, commits, b, c, t := DecideUnlisted(k, e, mine, deadline, a, |run.steps|);
      }
      ContinueAll(old(run), before, run, mine);
      if !ok {
        StandsLater(run, run, old(|run.steps|), |before.steps|, e.pending.value);
      }
    }

    /** The conditional write that clears a pending value, its decision being justified. */
    method FoldEnvelope(k: Key, generation: nat, e: Envelope, commits: bool, mine: set<TxId>, deadline: Option<nat>,
                        ghost a: nat, ghost b: nat, ghost c: nat, ghost t: nat)
      returns (ok: bool)
      requires Valid() && (deadline.Some? ==> s.now < deadline.value)
      requires a < |run.states| && GenAt(run.states[a], k) == generation && EnvAt(run.states[a], k) == e && e.pending.Some?
      requires Justified(run, a, b, c, t, k, commits)
      modifies this
      ensures Valid() && Continues(old(run), run, mine) && (deadline.Some? ==> s.now < deadline.value)
      ensures GenAt(s, k) != generation && (ok ==> EnvAt(s, k).pending.None?)
    {
      Interfere(mine, deadline);
      ghost var before := run;
      if GenAt(s, k) == generation {
        JustifiedFold(run, a, b, c, t, |run.steps|, k, commits);
      }
      RunInv(run, |run.steps|);
      var folded := Envelope(if commits then e.pending.value.write else e.current, None);
      var newGeneration;
      ok, newGeneration := PutEnvelope(k, folded, generation, if commits then Promote(k) else Discard(k));
      if ok {
        ContinueOne(old(run), before, run, mine);
      }
    }

    /** Clears another transaction's pending value out of an envelope. It fails only if that
        stands in the way, or somebody else has rewritten the object. */
    method NormalizeEnvelope(k: Key, generation: nat, e: Envelope, mine: set<TxId>, deadline: Option<nat>, ghost a: nat)
      returns (ok: bool)
      requires Valid() && (deadline.Some? ==> s.now < deadline.value)
      requires a < |run.states| && GenAt(run.states[a], k) == generation && EnvAt(run.states[a], k) == e && e.pending.Some?
      modifies this
      ensures Valid() && Continues(old(run), run, mine) && (deadline.Some? ==> s.now < deadline.value)
      ensures ok ==> EnvAt(s, k).pending.None? && GenAt(s, k) != generation
      ensures !ok ==> Stands(run, old(|run.steps|), e.pending.value) || GenAt(s, k) != generation
    {
      var may, commits, b, c, t := DecideFold(k, e, mine, deadline, a);
      ok := may;
      if ok {
        ghost var before := run;
        ok := FoldEnvelope(k, generation, e, commits, mine, deadline, a, b, c, t);
        ContinueAll(old(run), before, run, mine);
      }
    }

    // ---- Leased transactions ----

    /** The conditional write of one pending value over an envelope read at a. */
    method PutPending(id: TxId, k: Key, e: Envelope, generation: nat, checked: bool, ghost a: nat) returns (ok: bool)
      requires Valid() && InPhase(s, id, Planned) && !s.clients[id].rename
      requires k in s.clients[id].writes && k !in s.clients[id].prepared
      requires a < |run.states| && GenAt(run.states[a], k) == generation && EnvAt(run.states[a], k) == e && e.pending.None?
      requires checked ==> k in s.clients[id].seen && s.clients[id].seen[k] == Ver(run.states[a], k)
      modifies this
      ensures Valid() && Quietly(old(run), run, id) && id in s.clients
      ensures !ok ==> Continues(old(run), run, {id}) && GenAt(s, k) != generation
      ensures ok ==> Prepared(old(s.clients[id]), s.clients[id], k, checked)
      ensures ok && checked ==> run.steps != [] && GenAt(run.states[|run.steps| - 1], k) == generation
      ensures !ok ==> s.clients[id] == old(s.clients[id])
    {
      Interfere({id}, None);
      QuietlyContinues(old(run), run, {id}, id);
      MineKept(run, old(|run.steps|), |run.steps|, {id}, id);
      if GenAt(s, k) == generation {
        PendingReady(run, a, |run.steps|, id, k, checked);
      }
      ghost var before := run;
      var newGeneration;
      ok, newGeneration := PutEnvelope(k, Envelope(e.current, Some(Pending(id, s.clients[id].writes[k], 0))),
                                       generation, Prepare(id, k, checked));
      if ok {
        QuietlyOne(old(run), before, run, id);
      }
    }

    /** Prepares one write: clears a foreign pending value out of the way, checks what the
        mutation asks for, and writes conditionally; on a lost race it starts again. */
    method PrepareMutation(id: TxId, m: Mutation, attempts: nat, ghost g: nat, ghost j: nat) returns (ok: bool)
      requires Valid() && InPhase(s, id, Planned) && !s.clients[id].rename
      requires m.key in s.clients[id].writes && s.clients[id].writes[m.key] == m.write && m.key !in s.clients[id].prepared
      requires m.expected.Some? ==>
                 && g <= j < |run.states| && GenAt(run.states[g], m.key) == m.expected.value
                 && m.key in s.clients[id].seen && s.clients[id].seen[m.key] == Ver(run.states[j], m.key)
      modifies this
      ensures Valid() && Quietly(old(run), run, id) && id in s.clients
      ensures ok ==> Prepared(old(s.clients[id]), s.clients[id], m.key, m.expected.Some?)
      ensures ok && m.expected.Some? ==>
                EnvAt(run.states[j], m.key).pending.None? && EnvAt(run.states[j], m.key) == EnvAt(run.states[g], m.key)
      ensures !ok ==> s.clients[id] == old(s.clients[id]) && Unprepared(run, old(|run.steps|), m, id, attempts)
    {
      ok := false;
      for attempt := 0 to attempts
        invariant Valid() && Quietly(old(run), run, id) && !ok
        invariant id in s.clients && s.clients[id] == old(s.clients[id])
        invariant attempt <= Rewrites(run, old(|run.steps|), |run.steps|, m.key, id)
      {
        var again;
        ghost var before := run;
        ok, again := PrepareOnce(id, m, g, j);
        QuietlyAll(old(run), before, run, id);
        RewritesAdd(run, old(|run.steps|), |before.steps|, |run.steps|, m.key, id);
        RewritesKept(before, run, old(|run.steps|), |before.steps|, m.key, id);
        if ok || !again {
          return;
        }
      }
    }

    /** One attempt; again says that the object changed under it. */
    method PrepareOnce(id: TxId, m: Mutation, ghost g: nat, ghost j: nat) returns (ok: bool, again: bool)
      requires Valid() && InPhase(s, id, Planned) && !s.clients[id].rename
      requires m.key in s.clients[id].writes && s.clients[id].writes[m.key] == m.write && m.key !in s.clients[id].prepared
      requires m.expected.Some? ==>
                 && g <= j < |run.states| && GenAt(run.states[g], m.key) == m.expected.value
                 && m.key in s.clients[id].seen && s.clients[id].seen[m.key] == Ver(run.states[j], m.key)
      modifies this
      ensures Valid() && Quietly(old(run), run, id) && id in s.clients
      ensures ok ==> Prepared(old(s.clients[id]), s.clients[id], m.key, m.expected.Some?)
      ensures ok && m.expected.Some? ==>
                EnvAt(run.states[j], m.key).pending.None? && EnvAt(run.states[j], m.key) == EnvAt(run.states[g], m.key)
      ensures !ok ==> s.clients[id] == old(s.clients[id])
      ensures !ok && again ==> 0 < Rewrites(run, old(|run.steps|), |run.steps|, m.key, id)
      ensures !ok && !again ==> Obstructed(run, old(|run.steps|), m, id)
    {
      ok, again := false, false;
      Interfere({id}, None);
      QuietlyContinues(old(run), run, {id}, id);
      MineKept(run, old(|run.steps|), |run.steps|, {id}, id);
      ghost var a := |run.steps|;
      var e, generation := EnvAt(s, m.key), GenAt(s, m.key);
      OwnPending(run, a, id, m.key);
      if e.pending.Some? {
        ghost var before := run;
        again := NormalizeEnvelope(m.key, generation, e, {id}, None, a);
        if GenAt(s, m.key) != generation {
          RewrittenSince(run, a, |run.steps|, m.key, id);
          RewritesAdd(run, old(|run.steps|), a, |run.steps|, m.key, id);
        }
        assert !again ==> ObstructedAt(run, a, m, id);
        QuietlyContinues(before, run, {id}, id);
        QuietlyAll(old(run), before, run, id);
        MineKept(run, a, |run.steps|, {id}, id);
        return;
      }
      if (m.expected.Some? && generation != m.expected.value) || (m.requireAbsent && e.current.Some?) {
        assert ObstructedAt(run, a, m, id);
        return;
      }
      if m.expected.Some? {
        SeenGeneration(run, g, j, a, m.key);
        FrozenVersion(run, j, a, m.key);
      }
      ghost var before := run;
      ok := PutPending(id, m.key, e, generation, m.expected.Some?, a);
      QuietlyAll(old(run), before, run, id);
      again := !ok;
      if again {
        RewrittenSince(run, a, |run.steps|, m.key, id);
        RewritesAdd(run, old(|run.steps|), a, |run.steps|, m.key, id);
      }
    }

    /** Lets so much time pass. */
    method Sleep(id: TxId, d: nat)
      requires Valid()
      modifies this
      ensures Valid() && Continues(old(run), run, {id}) && old(s.now) + d <= s.now
    {
      var to := s.now + d;
      Interfere({id}, None);
      if s.now < to {
        ghost var before := run;
        Take(Tick(to));
        ContinueOne(old(run), before, run, {id});
      }
    }

    /** Takes one lease when it is free or has run out, trying a bounded number of times and
        waiting while it is held. */
    method AcquireLease(id: TxId, q: Resource, ttl: nat, attempts: nat) returns (ok: bool)
      requires Valid() && InPhase(s, id, Building) && s.clients[id].seen == map[] && q !in s.clients[id].held
      modifies this
      ensures Valid() && Quietly(old(run), run, id) && id in s.clients
      ensures !ok ==> s.clients[id] == old(s.clients[id]) && Denied(run, old(|run.steps|), id, q, attempts)
      ensures ok ==> Taken(old(s.clients[id]), s, id, q, ttl)
    {
      ok := false;
      ghost var looks: seq<Look> := [];
      for attempt := 0 to attempts
        invariant Valid() && Quietly(old(run), run, id) && !ok
        invariant id in s.clients && s.clients[id] == old(s.clients[id])
        invariant |looks| == attempt && Tried(run, old(|run.steps|), id, q, looks)
      {
        ghost var before := run;
        var held;
        ghost var look;
        ok, held, look := AcquireOnce(id, q, ttl);
        QuietlyAll(old(run), before, run, id);
        if ok {
          return;
        }
        TriedNext(before, run, old(|run.steps|), id, q, looks, look);
        looks := looks + [look];
        if held {
          Wait(id, attempt, q, looks, old(|run.steps|), old(run));
        }
      }
    }

    /** The delay after an attempt that found the lease held. */
    method Wait(id: TxId, attempt: nat, q: Resource, ghost looks: seq<Look>, ghost start: nat, ghost r0: Run)
      requires Valid() && Quietly(r0, run, id) && id in s.clients
      requires |looks| == attempt + 1 && AllBlocked(run, start, id, q, looks)
      modifies this
      ensures Valid() && Quietly(r0, run, id) && id in s.clients && s.clients[id] == old(s.clients[id])
      ensures Tried(run, start, id, q, looks)
    {
      assert Blocked(run, id, q, looks[attempt]);
      Sleep(id, Delay(attempt));
      QuietlyContinues(old(run), run, {id}, id);
      QuietlyAll(r0, old(run), run, id);
      MineKept(run, old(|run.steps|), |run.steps|, {id}, id);
      ClockKept(run, looks[attempt].from, old(|run.steps|));
      AllBlockedKept(old(run), run, start, start, id, q, looks);
    }

    method AcquireOnce(id: TxId, q: Resource, ttl: nat) returns (ok: bool, held: bool, ghost look: Look)
      requires Valid() && InPhase(s, id, Building) && s.clients[id].seen == map[] && q !in s.clients[id].held
      modifies this
      ensures Valid() && Quietly(old(run), run, id) && id in s.clients
      ensures old(|run.steps|) <= look.from <= look.to <= |run.steps| && (held <==> !FreeFor(run.states[look.from], id, q))
      ensures !ok ==> s.clients[id] == old(s.clients[id]) && Blocked(run, id, q, look)
      ensures ok ==> Taken(old(s.clients[id]), s, id, q, ttl)
    {
      ok := false;
      Interfere({id}, None);
      ghost var a, read := |run.steps|, run;
      var generation := LeaseGeneration(s, q);
      held := !FreeFor(s, id, q);
      if !held {
        Interfere({id}, None);
        ContinueAll(old(run), read, run, {id});
        if LeaseGeneration(s, q) == generation {
          StillFree(run, a, |run.steps|, id, q);
          ok := true;
        }
      }
      look := Look(a, |run.steps|);
      QuietlyContinues(old(run), run, {id}, id);
      MineKept(run, old(|run.steps|), |run.steps|, {id}, id);
      if ok {
        ghost var before := run;
        Take(Acquire(id, q, s.now + ttl));
        QuietlyOne(old(run), before, run, id);
      }
    }

    /** Re-reads every lease before the decision. Passing means each was held, and unexpired,
        when the verification began; failing, that one of them was found lost. */
    method VerifyLeases(id: TxId, resources: seq<Resource>) returns (ok: bool, ghost lost: Resource, ghost at: nat)
      requires Valid() && id in s.clients && forall q | q in resources :: q in s.clients[id].held
      modifies this
      ensures Valid() && Continues(old(run), run, {id})
      ensures ok ==> forall q | q in resources :: old(s.now) < old(s.clients[id].held[q].until)
      ensures !ok ==> lost in resources && old(|run.steps|) <= at && LostAt(run, at, id, lost)
    {
      ok, lost, at := true, GlobalResource, 0;
      ghost var held := s.clients[id].held;
      for i := 0 to |resources|
        invariant Valid() && Continues(old(run), run, {id}) && ok
        invariant id in s.clients && s.clients[id].held == held
        invariant forall q | q in resources[..i] :: old(s.now) < held[q].until
      {
        ghost var before := run;
        Interfere({id}, None);
        ContinueAll(old(run), before, run, {id});
        MineKept(run, old(|run.steps|), |run.steps|, {id}, id);
        ClockKept(run, old(|run.steps|), |run.steps|);
        var q := resources[i];
        if q !in s.leases || s.leases[q].generation != s.clients[id].held[q].generation {
          return false, q, |run.steps|;
        }
        StoredIsHeld(run, |run.steps|, id, q);
        if s.leases[q].data.owner != id || s.leases[q].data.until <= s.now {
          return false, q, |run.steps|;
        }
      }
    }

    /** A read under a lease: noted first, then made. */
    method ReadFenced(id: TxId, k: Key) returns (got: Got, ghost w: Witness)
      requires Valid() && CanRead(s, id, k)
      modifies this
      ensures Valid() && id in s.clients && OnlyReads(old(run), run, id, k)
      ensures ReadFact(run, s.clients[id], id, k, got, false, w)
      ensures s.clients[id] == old(s.clients[id]).(seen := old(s.clients[id]).seen[k := s.clients[id].seen[k]])
    {
      ghost var j := |run.steps|;
      Take(Read(id, k));
      ghost var read := run;
      assert ReadOrQuiet(read, j, id, k);
      var value, generation, at, g := VisibleEnvelope(k, {id}, None);
      QuietlyContinues(read, run, {id}, id);
      OnlyReadsQuiet(old(run), read, run, id, k);
      MineKept(run, |read.steps|, |run.steps|, {id}, id);
      QuietNotRead(read, run, id, k);
      got, w := Got(value, generation), Witness(j, at, g);
    }

    /** A read whose generation will be insisted on: made first, then noted. */
    method ReadChecked(id: TxId, k: Key) returns (got: Got, ghost w: Witness)
      requires Valid() && CanRead(s, id, k)
      modifies this
      ensures Valid() && id in s.clients && OnlyReads(old(run), run, id, k)
      ensures ReadFact(run, s.clients[id], id, k, got, true, w)
      ensures s.clients[id] == old(s.clients[id]).(seen := old(s.clients[id]).seen[k := s.clients[id].seen[k]])
    {
      var value, generation, at, g := VisibleEnvelope(k, {id}, None);
      ghost var visited := run;
      QuietlyContinues(old(run), visited, {id}, id);
      MineKept(visited, old(|run.steps|), |visited.steps|, {id}, id);
      got, w := Got(value, generation), Witness(|run.steps|, at, g);
      Take(Read(id, k));
      OnlyReadsQuiet(old(run), old(run), visited, id, k);
      OnlyReadsOne(old(run), visited, run, id, k);
    }

    method ReadFor(id: TxId, k: Key, enforce: bool) returns (got: Got, ghost w: Witness)
      requires Valid() && CanRead(s, id, k)
      modifies this
      ensures Valid() && id in s.clients && OnlyReads(old(run), run, id, k)
      ensures ReadFact(run, s.clients[id], id, k, got, enforce, w)
      ensures s.clients[id] == old(s.clients[id]).(seen := old(s.clients[id]).seen[k := s.clients[id].seen[k]])
    {
      if enforce {
        got, w := ReadChecked(id, k);
      } else {
        got, w := ReadFenced(id, k);
      }
    }

    /** All that the build of id has read so far, and where it came from. */
    ghost predicate Facts(id: TxId, gots: map<Key, Got>, enforce: bool, ws: map<Key, Witness>)
      reads this
    {
      id in s.clients && AllFacts(run, s.clients[id], id, gots, enforce, ws)
    }

    method ReadNext(id: TxId, k: Key, enforce: bool, gots: map<Key, Got>, ghost ws: map<Key, Witness>)
      returns (gots': map<Key, Got>, ghost ws': map<Key, Witness>)
      requires Valid() && CanRead(s, id, k) && Facts(id, gots, enforce, ws) && k !in gots
      modifies this
      ensures Valid() && old(run.states) <= run.states && old(run.steps) <= run.steps
      ensures Facts(id, gots', enforce, ws') && gots'.Keys == gots.Keys + {k}
      ensures s.clients[id] == old(s.clients[id]).(seen := s.clients[id].seen) && Unsettled(run, old(|run.steps|), id)
    {
      ghost var before, client := run, s.clients[id];
      var got, w := ReadFor(id, k, enforce);
      OnlyReadsUnsettled(before, run, id, k);
      AllFactsGrow(before, run, client, s.clients[id], id, k, gots, got, enforce, ws, w);
      gots', ws' := gots[k := got], ws[k := w];
    }

    /** All the reads of a build, one after the other. */
    method BuildReads(id: TxId, keys: seq<Key>, enforce: bool) returns (gots: map<Key, Got>, ghost ws: map<Key, Witness>)
      requires Valid() && InPhase(s, id, Building) && !s.clients[id].rename && s.clients[id].seen == map[]
      requires forall k | k in keys :: ResourceOf(k).Some? && ResourceOf(k).value in s.clients[id].held
      requires forall i, j | 0 <= i < j < |keys| :: keys[i] != keys[j]
      modifies this
      ensures Valid() && old(run.states) <= run.states && old(run.steps) <= run.steps
      ensures Facts(id, gots, enforce, ws) && forall k :: k in gots <==> k in keys
      ensures s.clients[id] == old(s.clients[id]).(seen := s.clients[id].seen) && Unsettled(run, old(|run.steps|), id)
    {
      gots, ws := map[], map[];
      for i := 0 to |keys|
        invariant Valid() && old(run.states) <= run.states && old(run.steps) <= run.steps
        invariant Facts(id, gots, enforce, ws) && forall k :: k in gots <==> k in keys[..i]
        invariant s.clients[id] == old(s.clients[id]).(seen := s.clients[id].seen) && Unsettled(run, old(|run.steps|), id)
      {
        NextOf(keys, i);
        ghost var before := run;
        gots, ws := ReadNext(id, keys[i], enforce, gots, ws);
        UnsettledOn(before, run, old(|run.steps|), id);
      }
      assert keys[..|keys|] == keys;
    }

    /** Prepares every write of the plan, in order. */
    method PrepareAll(id: TxId, ms: seq<Mutation>, attempts: nat, ghost gots: map<Key, Got>, ghost ws: map<Key, Witness>)
      returns (ok: bool)
      requires Valid() && InPhase(s, id, Planned) && !s.clients[id].rename && s.clients[id].prepared == {}
      requires DistinctKeys(ms) && s.clients[id].writes == WritesOf(ms)
      requires forall m | m in ms :: Insists(run, s.clients[id], m, gots, ws)
      modifies this
      ensures Valid() && Quietly(old(run), run, id) && InPhase(s, id, Planned)
      ensures s.clients[id] == old(s.clients[id]).(prepared := s.clients[id].prepared, checked := s.clients[id].checked)
      ensures ok ==> s.clients[id].prepared == s.clients[id].writes.Keys
      ensures ok ==> AllSettled(run, s.clients[id], ms, ws)
      ensures !ok ==> exists m | m in ms :: Unprepared(run, old(|run.steps|), m, id, attempts)
    {
      ok := true;
      for i := 0 to |ms|
        invariant Valid() && Quietly(old(run), run, id) && ok && InPhase(s, id, Planned)
        invariant s.clients[id] == old(s.clients[id]).(prepared := s.clients[id].prepared, checked := s.clients[id].checked)
        invariant s.clients[id].prepared == KeysOf(ms[..i])
        invariant AllSettled(run, s.clients[id], ms[..i], ws)
      {
        PlannedWrite(ms, i);
        assert Insists(old(run), old(s.clients[id]), ms[i], gots, ws);
        ghost var before, mine := run, s.clients[id];
        ok := PrepareNext(id, ms[i], attempts, gots, ws, old(run), old(s.clients[id]));
        if !ok {
          UnpreparedKept(run, run, |before.steps|, old(|run.steps|), ms[i], id, attempts);
          return;
        }
        SettledNext(before, run, mine, s.clients[id], ms, i, ws);
      }
      assert ms[..|ms|] == ms;
      AllPlanned(ms);
    }

    method PrepareNext(id: TxId, m: Mutation, attempts: nat, ghost gots: map<Key, Got>, ghost ws: map<Key, Witness>,
                       ghost r0: Run, ghost c0: Client) returns (ok: bool)
      requires Valid() && InPhase(s, id, Planned) && !s.clients[id].rename
      requires m.key in s.clients[id].writes && s.clients[id].writes[m.key] == m.write && m.key !in s.clients[id].prepared
      requires Quietly(r0, run, id) && Insists(r0, c0, m, gots, ws) && c0.seen == s.clients[id].seen
      modifies this
      ensures Valid() && Quietly(r0, run, id) && InPhase(s, id, Planned) && old(run.states) <= run.states
      ensures s.clients[id] == old(s.clients[id]).(prepared := s.clients[id].prepared, checked := s.clients[id].checked)
      ensures ok ==> s.clients[id].prepared == old(s.clients[id]).prepared + {m.key}
      ensures ok ==> old(s.clients[id].checked) <= s.clients[id].checked
      ensures ok && m.expected.Some? ==> m.key in s.clients[id].checked && Settled(run, m.key, ws)
      ensures !ok ==> Unprepared(run, old(|run.steps|), m, id, attempts)
    {
      ghost var w := if m.expected.Some? then ws[m.key] else Witness(0, 0, 0);
      ok := PrepareMutation(id, m, attempts, w.g, w.j);
      QuietlyAll(r0, old(run), run, id);
    }
  }
}
