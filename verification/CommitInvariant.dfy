/** The invariant of the commit protocol, kept by every step of every client. */
module CommitInvariant {
  import opened Wrappers
  import opened CommitModel

  /** Generations are positive and below the next one. */
  ghost predicate Generations(s: State) {
    && 0 < s.nextGen
    && (forall k | k in s.envelopes :: 0 < s.envelopes[k].generation < s.nextGen)
    && (forall t | t in s.active :: 0 < s.active[t].generation < s.nextGen)
    && (forall r | r in s.leases :: 0 < s.leases[r].generation < s.nextGen)
  }

  /** A pending value is the planned write of a client that prepared it. */
  ghost predicate PendingKnown(s: State) {
    forall k | k in s.envelopes && s.envelopes[k].data.pending.Some? ::
      var p := s.envelopes[k].data.pending.value;
      && p.tx in s.clients
      && k in s.clients[p.tx].prepared
      && k in s.clients[p.tx].writes
      && p.write == s.clients[p.tx].writes[k]
      && p.until == s.clients[p.tx].until
  }

  ghost predicate ClientOk(s: State, t: TxId)
    requires t in s.clients
  {
    var c := s.clients[t];
    && c.prepared <= c.writes.Keys
    && c.checked <= c.prepared
    && (c.phase == Building ==> c.writes == map[])
    && c.decidedAt <= s.now
    && (c.rename ==> c.checked == c.prepared)
    && (c.rename && c.phase == Planned ==> c.writes.Keys == c.seen.Keys)
    && (!c.rename ==> forall k | k in c.seen :: ResourceOf(k).Some?)
    && (!c.rename ==> c.until == 0)
  }

  /** A leased client always has a manifest somewhere; a rename has one exactly once it decided. */
  ghost predicate DecisionOk(s: State, t: TxId)
    requires t in s.clients
  {
    var c := s.clients[t];
    && (!c.rename ==> Decision(s, t).Some?)
    && (c.rename && Decision(s, t).Some? ==> Terminal(s, t) && c.phase == Done)
    && (HasStatus(s, t, Committed) ==> c.phase == Done && c.prepared == c.writes.Keys)
  }

  /** A committed rename decided more than the slack before its lease ran out. */
  ghost predicate InTime(s: State, t: TxId)
    requires t in s.clients
  {
    s.clients[t].rename && HasStatus(s, t, Committed) ==> s.clients[t].decidedAt + s.slack < s.clients[t].until
  }

  ghost predicate ManifestsOk(s: State) {
    && (forall t | t in s.active :: t in s.clients)
    && (forall t | t in s.journal :: t in s.clients && s.journal[t].status != Preparing && WorkDone(s.journal[t]))
    && (forall t | t in s.journal && t in s.active :: s.journal[t].status == s.active[t].data.status)
  }

  /** Still undecided, and for a rename still inside its lease: nobody may drop its pendings. */
  ghost predicate Live(s: State, t: TxId)
    requires t in s.clients
  {
    if s.clients[t].rename then Decision(s, t).None? && s.now < s.clients[t].until
    else HasStatus(s, t, Preparing)
  }

  /** Every prepared write of a live client is still in place. */
  ghost predicate PendingHeld(s: State, t: TxId)
    requires t in s.clients
  {
    Live(s, t) ==> forall k | k in s.clients[t].prepared ::
      && k in s.clients[t].writes
      && EnvAt(s, k).pending == Some(Pending(t, s.clients[t].writes[k], s.clients[t].until))
  }

  /** An unexpired lease of a running client is the one stored; generations identify leases. */
  ghost predicate LeasesOk(s: State, t: TxId)
    requires t in s.clients
  {
    var c := s.clients[t];
    && (forall r | r in c.held :: c.held[r].generation < s.nextGen)
    && (forall r | r in c.held && c.phase != Done && s.now < c.held[r].until ::
          r in s.leases && s.leases[r] == Stored(Lease(t, c.held[r].until), c.held[r].generation))
    && (forall r | r in c.held && r in s.leases && s.leases[r].generation == c.held[r].generation ::
          s.leases[r].data == Lease(t, c.held[r].until))
  }

  ghost predicate GlobalInv(s: State) {
    Generations(s) && PendingKnown(s) && ManifestsOk(s)
  }

  ghost predicate ClientInv(s: State, t: TxId)
    requires t in s.clients
  {
    ClientOk(s, t) && DecisionOk(s, t) && PendingHeld(s, t) && LeasesOk(s, t)
  }

  /** What every step keeps, whatever the clock. */
  ghost predicate CoreInv(s: State) {
    GlobalInv(s) && forall t | t in s.clients :: ClientInv(s, t)
  }

  /** What every step keeps as long as renames decide in time. */
  ghost predicate Inv(s: State) {
    CoreInv(s) && forall t | t in s.clients :: InTime(s, t)
  }

  ghost predicate Init(s: State) {
    && 0 < s.nextGen
    && (forall k | k in s.envelopes :: 0 < s.envelopes[k].generation < s.nextGen && s.envelopes[k].data.pending.None?)
    && s.active == map[] && s.journal == map[] && s.leases == map[] && s.clients == map[] && s.versions == map[]
  }

  lemma InitInv(s: State)
    requires Init(s)
    ensures Inv(s)
  {
  }

  // One kind of step at a time: first the shared objects, then an arbitrary client t.

  lemma TickGlobal(s: State, to: nat)
    requires GlobalInv(s) && s.now <= to
    ensures GlobalInv(s.(now := to))
  {
  }

  lemma TickClient(s: State, to: nat, t: TxId)
    requires GlobalInv(s) && t in s.clients && ClientInv(s, t)
    requires s.now <= to
    ensures ClientInv(s.(now := to), t)
  {
  }

  lemma BeginGlobal(s: State, tx: TxId, until: nat)
    requires GlobalInv(s) && tx !in s.clients
    ensures GlobalInv(DoBegin(s, tx, until))
  {
  }

  lemma BeginClient(s: State, tx: TxId, until: nat, t: TxId)
    requires GlobalInv(s) && (t in s.clients ==> ClientInv(s, t))
    requires tx !in s.clients && t in DoBegin(s, tx, until).clients
    ensures ClientInv(DoBegin(s, tx, until), t)
  {
  }

  lemma BeginRenameGlobal(s: State, tx: TxId, until: nat)
    requires GlobalInv(s) && tx !in s.clients
    ensures GlobalInv(DoBeginRename(s, tx, until))
  {
  }

  lemma BeginRenameClient(s: State, tx: TxId, until: nat, t: TxId)
    requires GlobalInv(s) && (t in s.clients ==> ClientInv(s, t))
    requires tx !in s.clients && t in DoBeginRename(s, tx, until).clients
    ensures ClientInv(DoBeginRename(s, tx, until), t)
  {
  }

  lemma AcquireGlobal(s: State, tx: TxId, r: Resource, until: nat)
    requires GlobalInv(s) && (forall t | t in s.clients :: ClientOk(s, t)) && CanAcquire(s, tx, r)
    ensures GlobalInv(DoAcquire(s, tx, r, until))
  {
  }

  lemma AcquireClient(s: State, tx: TxId, r: Resource, until: nat, t: TxId)
    requires GlobalInv(s) && t in s.clients && ClientInv(s, t)
    requires CanAcquire(s, tx, r)
    ensures ClientInv(DoAcquire(s, tx, r, until), t)
  {
  }

  lemma ReleaseGlobal(s: State, tx: TxId, r: Resource)
    requires GlobalInv(s) && (forall t | t in s.clients :: ClientOk(s, t)) && CanRelease(s, tx, r)
    ensures GlobalInv(DoRelease(s, tx, r))
  {
  }

  lemma ReleaseLeases(s: State, tx: TxId, r: Resource, t: TxId)
    requires t in s.clients && LeasesOk(s, t)
    requires CanRelease(s, tx, r) && LeasesOk(s, tx)
    ensures LeasesOk(DoRelease(s, tx, r), t)
  {
  }

  lemma ReleaseClient(s: State, tx: TxId, r: Resource, t: TxId)
    requires t in s.clients && ClientInv(s, t)
    requires CanRelease(s, tx, r) && LeasesOk(s, tx)
    ensures ClientInv(DoRelease(s, tx, r), t)
  {
    ReleaseLeases(s, tx, r, t);
  }

  lemma ReadGlobal(s: State, tx: TxId, k: Key)
    requires GlobalInv(s) && (forall t | t in s.clients :: ClientOk(s, t)) && CanRead(s, tx, k)
    ensures GlobalInv(DoRead(s, tx, k))
  {
  }

  lemma ReadClient(s: State, tx: TxId, k: Key, t: TxId)
    requires GlobalInv(s) && t in s.clients && ClientInv(s, t)
    requires CanRead(s, tx, k)
    ensures ClientInv(DoRead(s, tx, k), t)
  {
  }

  lemma PlanGlobal(s: State, tx: TxId, writes: map<Key, Option<Raw>>, ps: seq<Key>, applied: bool)
    requires GlobalInv(s) && (forall t | t in s.clients :: ClientOk(s, t)) && CanPlan(s, tx, writes)
    ensures GlobalInv(DoPlan(s, tx, writes, ps, applied))
  {
  }

  lemma PlanClient(s: State, tx: TxId, writes: map<Key, Option<Raw>>, ps: seq<Key>, applied: bool, t: TxId)
    requires GlobalInv(s) && t in s.clients && ClientInv(s, t)
    requires CanPlan(s, tx, writes)
    ensures ClientInv(DoPlan(s, tx, writes, ps, applied), t)
  {
    PlanHeld(s, tx, writes, ps, applied, t);
  }

  lemma PlanHeld(s: State, tx: TxId, writes: map<Key, Option<Raw>>, ps: seq<Key>, applied: bool, t: TxId)
    requires t in s.clients && PendingHeld(s, t) && LeasesOk(s, t) && ClientOk(s, t) && CanPlan(s, tx, writes)
    ensures PendingHeld(DoPlan(s, tx, writes, ps, applied), t) && LeasesOk(DoPlan(s, tx, writes, ps, applied), t)
  {
  }

  lemma PrepareGlobal(s: State, tx: TxId, k: Key, checked: bool)
    requires GlobalInv(s) && (forall t | t in s.clients :: ClientOk(s, t)) && CanPrepare(s, tx, k, checked)
    ensures GlobalInv(DoPrepare(s, tx, k, checked))
  {
  }

  lemma PrepareClient(s: State, tx: TxId, k: Key, checked: bool, t: TxId)
    requires GlobalInv(s) && t in s.clients && ClientInv(s, t)
    requires CanPrepare(s, tx, k, checked)
    ensures ClientInv(DoPrepare(s, tx, k, checked), t)
  {
    PrepareHeld(s, tx, k, checked, t);
  }

  lemma PrepareHeld(s: State, tx: TxId, k: Key, checked: bool, t: TxId)
    requires PendingKnown(s) && t in s.clients && PendingHeld(s, t) && ClientOk(s, t)
    requires CanPrepare(s, tx, k, checked)
    ensures PendingHeld(DoPrepare(s, tx, k, checked), t)
  {
  }

  lemma CommitGlobal(s: State, tx: TxId)
    requires GlobalInv(s) && CanCommit(s, tx)
    ensures GlobalInv(DoCommit(s, tx))
  {
  }

  lemma CommitClient(s: State, tx: TxId, t: TxId)
    requires GlobalInv(s) && t in s.clients && ClientInv(s, t)
    requires CanCommit(s, tx)
    ensures ClientInv(DoCommit(s, tx), t)
  {
  }

  lemma AbortGlobal(s: State, tx: TxId)
    requires GlobalInv(s) && (forall t | t in s.clients :: ClientOk(s, t)) && CanAbort(s, tx)
    ensures GlobalInv(DoAbort(s, tx))
  {
  }

  lemma AbortClient(s: State, tx: TxId, t: TxId)
    requires GlobalInv(s) && t in s.clients && ClientInv(s, t)
    requires CanAbort(s, tx)
    ensures ClientInv(DoAbort(s, tx), t)
  {
  }

  lemma QuitGlobal(s: State, tx: TxId)
    requires GlobalInv(s) && (forall t | t in s.clients :: ClientOk(s, t)) && tx in s.clients
    ensures GlobalInv(DoQuit(s, tx))
  {
  }

  lemma QuitClient(s: State, tx: TxId, t: TxId)
    requires GlobalInv(s) && t in s.clients && ClientInv(s, t)
    requires tx in s.clients
    ensures ClientInv(DoQuit(s, tx), t)
  {
  }

  lemma PromoteGlobal(s: State, k: Key)
    requires GlobalInv(s) && CanPromote(s, k)
    ensures GlobalInv(DoPromote(s, k))
  {
  }

  lemma PromoteClient(s: State, k: Key, t: TxId)
    requires GlobalInv(s) && t in s.clients && ClientInv(s, t)
    requires CanPromote(s, k)
    ensures ClientInv(DoPromote(s, k), t)
  {
  }

  lemma DiscardGlobal(s: State, k: Key)
    requires GlobalInv(s) && CanDiscard(s, k)
    ensures GlobalInv(DoDiscard(s, k))
  {
  }

  lemma DiscardClient(s: State, k: Key, t: TxId)
    requires GlobalInv(s) && t in s.clients && ClientInv(s, t)
    requires CanDiscard(s, k)
    ensures ClientInv(DoDiscard(s, k), t)
  {
  }

  lemma MarkGlobal(s: State, tx: TxId)
    requires GlobalInv(s) && CanMark(s, tx)
    ensures GlobalInv(DoMark(s, tx))
  {
  }

  lemma MarkClient(s: State, tx: TxId, t: TxId)
    requires GlobalInv(s) && t in s.clients && ClientInv(s, t)
    requires CanMark(s, tx)
    ensures ClientInv(DoMark(s, tx), t)
  {
  }

  lemma JournalGlobal(s: State, tx: TxId, copy: Manifest)
    requires GlobalInv(s) && CanJournal(s, tx, copy)
    ensures GlobalInv(DoJournal(s, tx, copy))
  {
  }

  lemma JournalClient(s: State, tx: TxId, copy: Manifest, t: TxId)
    requires GlobalInv(s) && t in s.clients && ClientInv(s, t)
    requires CanJournal(s, tx, copy)
    ensures ClientInv(DoJournal(s, tx, copy), t)
  {
  }

  lemma UnlistGlobal(s: State, tx: TxId)
    requires GlobalInv(s) && tx in s.active && tx in s.journal
    ensures GlobalInv(DoUnlist(s, tx))
  {
  }

  lemma UnlistClient(s: State, tx: TxId, t: TxId)
    requires GlobalInv(s) && t in s.clients && ClientInv(s, t)
    requires tx in s.active && tx in s.journal
    ensures ClientInv(DoUnlist(s, tx), t)
  {
  }

  lemma StepGlobal(s: State, l: Step)
    requires GlobalInv(s) && (forall t | t in s.clients :: ClientOk(s, t)) && Enabled(s, l)
    ensures GlobalInv(Apply(s, l))
  {
    if l.Begin? || l.BeginRename? || l.Acquire? || l.Release? || l.Read? {
      BuildGlobal(s, l);
    } else if l.Plan? || l.Prepare? || l.Commit? || l.Quit? {
      DecideGlobal(s, l);
    } else {
      UpkeepGlobal(s, l);
    }
  }

  lemma DecideGlobal(s: State, l: Step)
    requires GlobalInv(s) && (forall t | t in s.clients :: ClientOk(s, t)) && Enabled(s, l)
    requires l.Plan? || l.Prepare? || l.Commit? || l.Quit?
    ensures GlobalInv(Apply(s, l))
  {
    match l
    case Plan(tx, writes, ps, applied) => PlanGlobal(s, tx, writes, ps, applied);
    case Prepare(tx, k, checked) => PrepareGlobal(s, tx, k, checked);
    case Commit(tx) => CommitGlobal(s, tx);
    case Quit(tx) => QuitGlobal(s, tx);
  }

  /** The steps before there is a plan. */
  lemma BuildGlobal(s: State, l: Step)
    requires GlobalInv(s) && (forall t | t in s.clients :: ClientOk(s, t)) && Enabled(s, l)
    requires l.Begin? || l.BeginRename? || l.Acquire? || l.Release? || l.Read?
    ensures GlobalInv(Apply(s, l))
  {
    match l
    case Begin(tx, until) => BeginGlobal(s, tx, until);
    case BeginRename(tx, until) => BeginRenameGlobal(s, tx, until);
    case Acquire(tx, r, until) => AcquireGlobal(s, tx, r, until);
    case Release(tx, r) => ReleaseGlobal(s, tx, r);
    case Read(tx, k) => ReadGlobal(s, tx, k);
  }

  /** The steps after a decision, and those that anybody may take. */
  lemma UpkeepGlobal(s: State, l: Step)
    requires GlobalInv(s) && (forall t | t in s.clients :: ClientOk(s, t)) && Enabled(s, l)
    requires l.Tick? || l.Abort? || l.Expire? || l.Promote? || l.Discard? || l.Mark? || l.Journal? || l.Unlist?
    ensures GlobalInv(Apply(s, l))
  {
    match l
    case Tick(to) => TickGlobal(s, to);
    case Abort(tx) => AbortGlobal(s, tx);
    case Expire(tx) => AbortGlobal(s, tx);
    case Promote(k) => PromoteGlobal(s, k);
    case Discard(k) => DiscardGlobal(s, k);
    case Mark(tx) => MarkGlobal(s, tx);
    case Journal(tx, copy) => JournalGlobal(s, tx, copy);
    case Unlist(tx) => UnlistGlobal(s, tx);
  }

  lemma StepClient(s: State, l: Step, t: TxId)
    requires GlobalInv(s) && (t in s.clients ==> ClientInv(s, t))
    requires Enabled(s, l) && t in Apply(s, l).clients
    requires l.Release? ==> LeasesOk(s, l.tx)
    ensures ClientInv(Apply(s, l), t)
  {
    match l
    case Tick(to) => TickClient(s, to, t);
    case Begin(tx, until) => BeginClient(s, tx, until, t);
    case BeginRename(tx, until) => BeginRenameClient(s, tx, until, t);
    case Acquire(tx, r, until) => AcquireClient(s, tx, r, until, t);
    case Release(tx, r) => ReleaseClient(s, tx, r, t);
    case Read(tx, k) => ReadClient(s, tx, k, t);
    case Plan(tx, writes, ps, applied) => PlanClient(s, tx, writes, ps, applied, t);
    case Prepare(tx, k, checked) => PrepareClient(s, tx, k, checked, t);
    case Commit(tx) => CommitClient(s, tx, t);
    case Abort(tx) => AbortClient(s, tx, t);
    case Expire(tx) => AbortClient(s, tx, t);
    case Quit(tx) => QuitClient(s, tx, t);
    case Promote(k) => PromoteClient(s, k, t);
    case Discard(k) => DiscardClient(s, k, t);
    case Mark(tx) => MarkClient(s, tx, t);
    case Journal(tx, copy) => JournalClient(s, tx, copy, t);
    case Unlist(tx) => UnlistClient(s, tx, t);
  }

  /** Every step keeps the core of the invariant, late decisions of renames included. */
  lemma StepCore(s: State, l: Step)
    requires CoreInv(s) && Enabled(s, l)
    ensures CoreInv(Apply(s, l))
  {
    assert forall t | t in s.clients :: ClientInv(s, t) ==> ClientOk(s, t);
    StepGlobal(s, l);
    forall t | t in Apply(s, l).clients ensures ClientInv(Apply(s, l), t) {
      assert t in s.clients ==> ClientInv(s, t);
      assert l.Release? ==> ClientInv(s, l.tx);
      StepClient(s, l, t);
    }
  }

  lemma StepInTime(s: State, l: Step, t: TxId)
    requires ManifestsOk(s) && Enabled(s, l) && TimelyRename(s, l) && t in Apply(s, l).clients
    requires t in s.clients ==> DecisionOk(s, t) && InTime(s, t)
    ensures InTime(Apply(s, l), t)
  {
  }

  /** Every step keeps the invariant. */
  lemma StepInv(s: State, l: Step)
    requires Inv(s) && Enabled(s, l) && TimelyRename(s, l)
    ensures Inv(Apply(s, l))
  {
    StepCore(s, l);
    forall t | t in Apply(s, l).clients ensures InTime(Apply(s, l), t) {
      assert t in s.clients ==> ClientInv(s, t) && InTime(s, t);
      StepInTime(s, l, t);
    }
  }
}
