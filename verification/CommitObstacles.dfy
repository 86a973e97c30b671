/** What may keep one process from getting on while others run: another transaction's pending
    value that is undecided and in time, an object that somebody else rewrites, a lease that
    somebody else holds, a manifest whose lease has run out. */
module CommitObstacles {
  import opened Wrappers
  import opened CommitModel
  import opened CommitInvariant
  import opened CommitTheorems
  import opened CommitSerial
  import opened CommitRely

  function ActiveGeneration(s: State, tx: TxId): nat {
    if tx in s.active then s.active[tx].generation else 0
  }

  function LeaseGeneration(s: State, q: Resource): nat {
    if q in s.leases then s.leases[q].generation else 0
  }

  // ---- Manifests ----

  predicate PlanOf(l: Step, tx: TxId) {
    l.Plan? && l.tx == tx
  }

  lemma StepPreparing(s: State, l: Step, tx: TxId)
    requires Enabled(s, l) && tx in s.clients && ActivePreparing(Apply(s, l), tx)
    ensures PlanOf(l, tx) || (tx in s.active && s.active[tx] == Apply(s, l).active[tx])
  {
  }

  /** A manifest that stays undecided is rewritten only by its own client's plan. */
  lemma {:induction false} RewrittenByPlan(r: Run, b: nat, c: nat, tx: TxId)
    requires ValidRun(r) && b <= c < |r.states| && tx in r.states[b].active && ActivePreparing(r.states[c], tx)
    ensures r.states[c].active[tx] == r.states[b].active[tx] || exists i | b <= i < c :: PlanOf(r.steps[i], tx)
  {
    if b < c {
      LastRewrite(r, b, c, tx);
      if !PlanOf(r.steps[c - 1], tx) {
        RewrittenByPlan(r, b, c - 1, tx);
      }
    }
  }

  lemma LastRewrite(r: Run, b: nat, c: nat, tx: TxId)
    requires ValidRun(r) && b < c < |r.states| && tx in r.states[b].active && ActivePreparing(r.states[c], tx)
    ensures PlanOf(r.steps[c - 1], tx) || (tx in r.states[c - 1].active && r.states[c - 1].active[tx] == r.states[c].active[tx])
  {
    ListedClient(r, b, tx);
    ClientKept(r, b, c - 1, tx);
    RewriteAt(r, c - 1, tx);
  }

  lemma ListedClient(r: Run, b: nat, tx: TxId)
    requires ValidRun(r) && b < |r.states| && tx in r.states[b].active
    ensures tx in r.states[b].clients
  {
    RunInv(r, b);
  }

  lemma RewriteAt(r: Run, i: nat, tx: TxId)
    requires ValidRun(r) && i < |r.steps| && tx in r.states[i].clients && ActivePreparing(r.states[i + 1], tx)
    ensures PlanOf(r.steps[i], tx) || (tx in r.states[i].active && r.states[i].active[tx] == r.states[i + 1].active[tx])
  {
    assert StepAt(r, i);
    StepPreparing(r.states[i], r.steps[i], tx);
  }

  // ---- Pending values ----

  /** The transaction of a pending value is undecided, and at that time its lease still runs. */
  predicate InDoubt(s: State, p: Pending, now: nat) {
    !Terminal(s, p.tx) && now < if p.tx in s.active then s.active[p.tx].data.leaseUntil else p.until
  }

  /** Since i a pending value could not be cleared away: its transaction was looked for at some
      instant and the clock read at a later one, and it was in doubt; or its client was at work
      on its manifest. */
  ghost predicate Stands(r: Run, i: nat, p: Pending) {
    || (exists j: nat, t: nat | i <= j <= t < |r.states| :: InDoubt(r.states[j], p, r.states[t].now))
    || (exists j | i <= j < |r.steps| :: PlanOf(r.steps[j], p.tx))
  }

  lemma StandsLater(r0: Run, r1: Run, i0: nat, i1: nat, p: Pending)
    requires Stands(r0, i1, p) && i0 <= i1 && r0.states <= r1.states && r0.steps <= r1.steps
    ensures Stands(r1, i0, p)
  {
    if j: nat, t: nat :| i1 <= j <= t < |r0.states| && InDoubt(r0.states[j], p, r0.states[t].now) {
      assert InDoubt(r1.states[j], p, r1.states[t].now);
    } else {
      var j :| i1 <= j < |r0.steps| && PlanOf(r0.steps[j], p.tx);
      assert PlanOf(r1.steps[j], p.tx);
    }
  }

  lemma StillListed(r: Run, b: nat, c: nat, d: nat, tx: TxId)
    requires ValidRun(r) && b <= c <= d < |r.states| && ActivePreparing(r.states[b], tx) && ActivePreparing(r.states[d], tx)
    ensures ActivePreparing(r.states[c], tx)
    ensures r.states[c].active[tx] == r.states[b].active[tx] || exists i | b <= i < c :: PlanOf(r.steps[i], tx)
  {
    ListedClient(r, b, tx);
    ClientKept(r, b, c, tx);
    PreparingBefore(r, c, d, tx);
    RewrittenByPlan(r, b, c, tx);
  }

  /** Nobody begins a transaction twice: what is preparing at d was so ever since it was known. */
  lemma PreparingBefore(r: Run, c: nat, d: nat, tx: TxId)
    requires ValidRun(r) && c <= d < |r.states| && tx in r.states[c].clients && ActivePreparing(r.states[d], tx)
    ensures ActivePreparing(r.states[c], tx)
  {
    if c < d {
      ClientKept(r, c, d - 1, tx);
      RewriteAt(r, d - 1, tx);
      assert StepAt(r, d - 1);
      PreparingBefore(r, c, d - 1, tx);
    }
  }

  ghost predicate Archived(s: State, tx: TxId) {
    tx in s.journal && tx !in s.active
  }

  lemma {:induction false} ArchivedKept(r: Run, a: nat, b: nat, tx: TxId)
    requires ValidRun(r) && a <= b < |r.states| && Archived(r.states[a], tx)
    ensures Archived(r.states[b], tx)
    decreases b
  {
    if a < b {
      ArchivedKept(r, a, b - 1, tx);
      RunInv(r, b - 1);
      assert StepAt(r, b - 1);
      StepArchive(r.states[b - 1], r.steps[b - 1], tx);
    }
  }

  /** A transaction that is known and not listed is never found preparing afterwards. */
  lemma UnlistedDecided(r: Run, a: nat, b: nat, c: nat, tx: TxId)
    requires ValidRun(r) && a <= b <= c < |r.states| && tx in r.states[a].clients && tx !in r.states[a].active
    ensures Looked(r, b, c, tx).Some? ==> Looked(r, b, c, tx).value.status != Preparing
    ensures Looked(r, b, c, tx).None? ==> Decision(r.states[a], tx).None?
  {
    RunInv(r, a);
    assert ClientInv(r.states[a], tx);
    RunInv(r, c);
    if tx in r.states[a].journal {
      ArchivedKept(r, a, b, tx);
      JournalKept(r, a, c, tx);
    } else if ActivePreparing(r.states[b], tx) {
      PreparingLeased(r, b, tx);
      ClientKept(r, a, b, tx);
    }
  }

  // ---- Objects ----

  /** How often others than id have rewritten an object. */
  ghost function Rewrites(r: Run, a: nat, b: nat, k: Key, id: TxId): nat
    requires |r.states| == |r.steps| + 1 && a <= b < |r.states|
    decreases b
  {
    if a == b then 0
    else Rewrites(r, a, b - 1, k, id) + if Rewritten(r, b - 1, k, id) then 1 else 0
  }

  ghost predicate Rewritten(r: Run, i: nat, k: Key, id: TxId)
    requires |r.states| == |r.steps| + 1 && i < |r.steps|
  {
    GenAt(r.states[i + 1], k) != GenAt(r.states[i], k) && Actor(r.steps[i]) != Some(id)
  }

  lemma {:induction false} RewritesAdd(r: Run, a: nat, b: nat, c: nat, k: Key, id: TxId)
    requires |r.states| == |r.steps| + 1 && a <= b <= c < |r.states|
    ensures Rewrites(r, a, c, k, id) == Rewrites(r, a, b, k, id) + Rewrites(r, b, c, k, id)
    decreases c
  {
    if b < c {
      RewritesAdd(r, a, b, c - 1, k, id);
    }
  }

  lemma {:induction false} RewritesKept(r0: Run, r1: Run, a: nat, b: nat, k: Key, id: TxId)
    requires |r0.states| == |r0.steps| + 1 && |r1.states| == |r1.steps| + 1 && a <= b < |r0.states|
    requires r0.states <= r1.states && r0.steps <= r1.steps
    ensures Rewrites(r1, a, b, k, id) == Rewrites(r0, a, b, k, id)
    decreases b
  {
    if a < b {
      RewritesKept(r0, r1, a, b - 1, k, id);
      assert r1.states[b] == r0.states[b] && r1.states[b - 1] == r0.states[b - 1] && r1.steps[b - 1] == r0.steps[b - 1];
    }
  }

  /** An object with another generation has been rewritten. */
  lemma {:induction false} RewrittenSince(r: Run, a: nat, b: nat, k: Key, id: TxId)
    requires |r.states| == |r.steps| + 1 && a <= b < |r.states| && GenAt(r.states[a], k) != GenAt(r.states[b], k)
    requires forall i | a <= i < b :: NotBy(r, i, {id})
    ensures 0 < Rewrites(r, a, b, k, id)
    decreases b
  {
    assert NotBy(r, b - 1, {id});
    if GenAt(r.states[b - 1], k) == GenAt(r.states[b], k) {
      RewrittenSince(r, a, b - 1, k, id);
    }
  }

  predicate PreparedBy(s: State, id: TxId, k: Key) {
    id in s.clients && k in s.clients[id].prepared
  }

  lemma StepPreparedBy(s: State, l: Step, id: TxId, k: Key)
    requires Enabled(s, l) && PreparedBy(s, id, k)
    ensures PreparedBy(Apply(s, l), id, k)
  {
  }

  lemma StepMyWrite(s: State, l: Step, id: TxId, k: Key)
    requires Enabled(s, l)
    ensures GenAt(Apply(s, l), k) != GenAt(s, k) && Actor(l) == Some(id) ==> PreparedBy(Apply(s, l), id, k)
  {
  }

  /** As long as a client has not prepared an object, it is others that rewrite it. */
  lemma {:induction false} RewrittenByOthers(r: Run, a: nat, b: nat, k: Key, id: TxId)
    requires ValidRun(r) && a <= b < |r.states| && GenAt(r.states[a], k) != GenAt(r.states[b], k) && !PreparedBy(r.states[b], id, k)
    ensures 0 < Rewrites(r, a, b, k, id)
    decreases b
  {
    assert StepAt(r, b - 1);
    StepMyWrite(r.states[b - 1], r.steps[b - 1], id, k);
    if GenAt(r.states[b - 1], k) == GenAt(r.states[b], k) {
      if PreparedBy(r.states[b - 1], id, k) {
        StepPreparedBy(r.states[b - 1], r.steps[b - 1], id, k);
      }
      RewrittenByOthers(r, a, b - 1, k, id);
    }
  }

  // ---- Leases ----

  /** Nobody else holds the resource by a lease that has not run out. */
  predicate FreeFor(s: State, id: TxId, q: Resource) {
    q in s.leases ==> s.leases[q].data.owner == id || s.leases[q].data.until <= s.now
  }

  /** The wait before the next look at a lease that is held, in milliseconds. */
  function Delay(attempt: nat): nat {
    (attempt % 8 + 1) * 5
  }

  /** One attempt for a lease: looked for at from, taken or not at to. */
  datatype Look = Look(from: nat, to: nat)

  /** The lease was held by another one, or rewritten between the look and the attempt. */
  ghost predicate Blocked(r: Run, id: TxId, q: Resource, l: Look) {
    && l.from <= l.to < |r.states|
    && (!FreeFor(r.states[l.from], id, q) || LeaseGeneration(r.states[l.from], q) != LeaseGeneration(r.states[l.to], q))
  }

  /** The attempts are made one after the other, and after each that found the lease held with
      a delay. */
  ghost predicate Successive(r: Run, id: TxId, q: Resource, i: nat, l: Look, next: Look) {
    && l.to <= next.from < |r.states| && l.from < |r.states|
    && (!FreeFor(r.states[l.from], id, q) ==> r.states[l.from].now + Delay(i) <= r.states[next.from].now)
  }

  ghost predicate AllBlocked(r: Run, start: nat, id: TxId, q: Resource, looks: seq<Look>) {
    && (forall i | 0 <= i < |looks| :: start <= looks[i].from && Blocked(r, id, q, looks[i]))
    && (forall i | 0 <= i < |looks| - 1 :: Successive(r, id, q, i, looks[i], looks[i + 1]))
  }

  /** So many attempts for the lease since start have failed. */
  ghost predicate Denied(r: Run, start: nat, id: TxId, q: Resource, attempts: nat) {
    exists looks: seq<Look> :: |looks| == attempts && AllBlocked(r, start, id, q, looks)
  }

  lemma AllBlockedNext(r0: Run, r1: Run, start: nat, id: TxId, q: Resource, looks: seq<Look>, l: Look)
    requires AllBlocked(r0, start, id, q, looks) && r0.states <= r1.states && start <= l.from && Blocked(r1, id, q, l)
    requires looks != [] ==> Successive(r1, id, q, |looks| - 1, looks[|looks| - 1], l)
    ensures AllBlocked(r1, start, id, q, looks + [l])
  {
    AllBlockedKept(r0, r1, start, start, id, q, looks);
    var looks' := looks + [l];
    forall i | 0 <= i < |looks'| - 1 ensures Successive(r1, id, q, i, looks'[i], looks'[i + 1]) {
      if i < |looks| - 1 {
        assert Successive(r1, id, q, i, looks[i], looks[i + 1]);
      }
    }
  }

  lemma AllBlockedKept(r0: Run, r1: Run, start: nat, start': nat, id: TxId, q: Resource, looks: seq<Look>)
    requires AllBlocked(r0, start, id, q, looks) && r0.states <= r1.states && start' <= start
    ensures AllBlocked(r1, start', id, q, looks)
  {
    forall i | 0 <= i < |looks| ensures start' <= looks[i].from && Blocked(r1, id, q, looks[i]) {
      assert Blocked(r0, id, q, looks[i]);
    }
    forall i | 0 <= i < |looks| - 1 ensures Successive(r1, id, q, i, looks[i], looks[i + 1]) {
      assert Successive(r0, id, q, i, looks[i], looks[i + 1]);
    }
  }

  lemma DeniedKept(r0: Run, r1: Run, start: nat, start': nat, id: TxId, q: Resource, attempts: nat)
    requires Denied(r0, start, id, q, attempts) && r0.states <= r1.states && start' <= start
    ensures Denied(r1, start', id, q, attempts)
  {
    var looks: seq<Look> :| |looks| == attempts && AllBlocked(r0, start, id, q, looks);
    AllBlockedKept(r0, r1, start, start', id, q, looks);
  }

  /** A lease whose object nobody has touched, and that was free, is denied to nobody. */
  lemma FreeIsGranted(r: Run, start: nat, id: TxId, q: Resource, attempts: nat)
    requires ValidRun(r) && Denied(r, start, id, q, attempts) && 0 < attempts && start < |r.states|
    ensures exists i | start <= i < |r.states| :: !FreeFor(r.states[i], id, q) || LeaseGeneration(r.states[i], q) != LeaseGeneration(r.states[start], q)
  {
    var looks: seq<Look> :| |looks| == attempts && AllBlocked(r, start, id, q, looks);
    assert Blocked(r, id, q, looks[0]);
  }
}
