/** The V4 metadata commit protocol as a step system over a conditional object store.

    Every metadata object is an envelope holding the last promoted value and at most one
    pending value. A transaction prepares pending values in any number of envelopes and
    then decides once, in its manifest. Readers look through a pending value at the
    decision, so the decision is the only step at which values become visible.

    There are two kinds of transaction. A leased one keeps a manifest from the start and
    fences its resources with leases; a lease-free rename writes its manifest only to decide,
    and its pending values carry a lease of their own. Both run in one step system, together
    with readers, recovery, archival, crashes (a client that takes no further step) and time. */
module CommitModel {
  import opened Wrappers

  /** What an object holds: the entries of a directory shard, or any other record. */
  datatype Raw = Entries(entries: map<string, string>) | Record(text: string)
  type TxId = nat

  datatype Key =
    | NodeKey(node: string)
    | ShardKey(dir: string, shard: nat)
    | LegacyKey(id: nat)
    | TrashKey(trash: string)

  datatype Resource =
    | DirectoryShard(dir: string, shard: nat)
    | LegacyResource(id: nat)
    | TrashResource(trash: string)
    | GlobalResource

  /** The lease that fences a key. Node objects have none: no build ever seen them. */
  function ResourceOf(k: Key): Option<Resource> {
    match k
    case NodeKey(_) => None
    case ShardKey(d, n) => Some(DirectoryShard(d, n))
    case LegacyKey(i) => Some(LegacyResource(i))
    case TrashKey(t) => Some(TrashResource(t))
  }

  /** write == None deletes the object; until is zero for a leased transaction. */
  datatype Pending = Pending(tx: TxId, write: Option<Raw>, until: nat)
  datatype Envelope = Envelope(current: Option<Raw>, pending: Option<Pending>)
  datatype Status = Preparing | Committed | Aborted
  datatype Manifest = Manifest(status: Status, leaseUntil: nat, participants: seq<Key>, derivedApplied: bool)
  datatype Lease = Lease(owner: TxId, until: nat)
  datatype Stored<T> = Stored(data: T, generation: nat)
  datatype Held = Held(generation: nat, until: nat)

  /** Building: leases are taken and values read. Planned: the writes are fixed.
      Done: the client has decided or given up, and takes no step but releasing leases. */
  datatype Phase = Building | Planned | Done

  /** What one client knows. seen maps a key to the number of commits that had written
      the key when it was read; checked holds the keys prepared under a generation check. */
  datatype Client = Client(
    rename: bool,
    until: nat,
    held: map<Resource, Held>,
    seen: map<Key, nat>,
    writes: map<Key, Option<Raw>>,
    prepared: set<Key>,
    checked: set<Key>,
    phase: Phase,
    decidedAt: nat,
    participants: seq<Key>)

  /** The clock, the stored objects and the next generation, then two history variables:
      what each client knows, and how many commits have written each key. slack bounds how
      long a recovering process takes from looking for a decision to reading its clock. */
  datatype State = State(
    now: nat,
    slack: nat,
    nextGen: nat,
    envelopes: map<Key, Stored<Envelope>>,
    active: map<TxId, Stored<Manifest>>,
    journal: map<TxId, Manifest>,
    leases: map<Resource, Stored<Lease>>,
    clients: map<TxId, Client>,
    versions: map<Key, nat>)

  const NoEnvelope := Envelope(None, None)

  function EnvAt(s: State, k: Key): Envelope {
    if k in s.envelopes then s.envelopes[k].data else NoEnvelope
  }

  function GenAt(s: State, k: Key): nat {
    if k in s.envelopes then s.envelopes[k].generation else 0
  }

  function Ver(s: State, k: Key): nat {
    if k in s.versions then s.versions[k] else 0
  }

  /** The active manifest if there is one, else the journalled one. */
  function Decision(s: State, tx: TxId): Option<Manifest> {
    if tx in s.active then Some(s.active[tx].data)
    else if tx in s.journal then Some(s.journal[tx])
    else None
  }

  predicate HasStatus(s: State, tx: TxId, status: Status) {
    Decision(s, tx).Some? && Decision(s, tx).value.status == status
  }

  predicate Terminal(s: State, tx: TxId) {
    HasStatus(s, tx, Committed) || HasStatus(s, tx, Aborted)
  }

  /** What a reader sees at one instant. */
  function Visible(s: State, k: Key): Option<Raw> {
    var e := EnvAt(s, k);
    if e.pending.Some? && HasStatus(s, e.pending.value.tx, Committed) then e.pending.value.write
    else e.current
  }

  function VisibleMap(s: State): map<Key, Raw> {
    map k | k in s.envelopes && Visible(s, k).Some? :: Visible(s, k).value
  }

  datatype Step =
    | Tick(to: nat)
    | Begin(tx: TxId, until: nat)
    | BeginRename(tx: TxId, until: nat)
    | Acquire(tx: TxId, resource: Resource, until: nat)
    | Release(tx: TxId, resource: Resource)
    | Read(tx: TxId, key: Key)
    | Plan(tx: TxId, writes: map<Key, Option<Raw>>, participants: seq<Key>, applied: bool)
    | Prepare(tx: TxId, key: Key, checked: bool)
    | Commit(tx: TxId)
    | Abort(tx: TxId)
    | Expire(tx: TxId)
    | Quit(tx: TxId)
    | Promote(key: Key)
    | Discard(key: Key)
    | Mark(tx: TxId)
    | Journal(tx: TxId, copy: Manifest)
    | Unlist(tx: TxId)

  predicate InPhase(s: State, tx: TxId, phase: Phase) {
    tx in s.clients && s.clients[tx].phase == phase
  }

  function PutEnvelope(s: State, k: Key, e: Envelope): State {
    s.(envelopes := s.envelopes[k := Stored(e, s.nextGen)], nextGen := s.nextGen + 1)
  }

  function PutManifest(s: State, tx: TxId, m: Manifest): State {
    s.(active := s.active[tx := Stored(m, s.nextGen)], nextGen := s.nextGen + 1)
  }

  function SetClient(s: State, tx: TxId, c: Client): State {
    s.(clients := s.clients[tx := c])
  }

  const NewManifest := Manifest(Preparing, 0, [], false)
  const NewClient := Client(false, 0, map[], map[], map[], {}, {}, Building, 0, [])

  predicate ActivePreparing(s: State, tx: TxId) {
    tx in s.active && s.active[tx].data.status == Preparing
  }

  function DoBegin(s: State, tx: TxId, until: nat): State {
    SetClient(PutManifest(s, tx, NewManifest.(leaseUntil := until)), tx, NewClient)
  }

  function DoBeginRename(s: State, tx: TxId, until: nat): State {
    SetClient(s, tx, NewClient.(rename := true, until := until))
  }

  /** A lease is taken when there is none, or the one there is one's own or has run out, and
      before any read. */
  predicate CanAcquire(s: State, tx: TxId, r: Resource) {
    && InPhase(s, tx, Building)
    && s.clients[tx].seen == map[]
    && r !in s.clients[tx].held
    && (r in s.leases ==> s.leases[r].data.owner == tx || s.leases[r].data.until <= s.now)
  }

  function DoAcquire(s: State, tx: TxId, r: Resource, until: nat): State
    requires tx in s.clients
  {
    var c := s.clients[tx];
    SetClient(s, tx, c.(held := c.held[r := Held(s.nextGen, until)]))
    .(leases := s.leases[r := Stored(Lease(tx, until), s.nextGen)], nextGen := s.nextGen + 1)
  }

  predicate CanRelease(s: State, tx: TxId, r: Resource) {
    tx in s.clients && r in s.clients[tx].held
  }

  /** Only the very lease object that was taken is deleted. */
  function DoRelease(s: State, tx: TxId, r: Resource): State
    requires CanRelease(s, tx, r)
  {
    var c := s.clients[tx];
    var mine := r in s.leases && s.leases[r].generation == c.held[r].generation;
    SetClient(s, tx, c.(held := c.held - {r}, phase := Done))
    .(leases := if mine then s.leases - {r} else s.leases)
  }

  predicate CanRead(s: State, tx: TxId, k: Key) {
    && InPhase(s, tx, Building)
    && (s.clients[tx].rename || (ResourceOf(k).Some? && ResourceOf(k).value in s.clients[tx].held))
  }

  function DoRead(s: State, tx: TxId, k: Key): State
    requires tx in s.clients
  {
    var c := s.clients[tx];
    SetClient(s, tx, c.(seen := c.seen[k := Ver(s, k)]))
  }

  /** A rename rewrites exactly the shards it read; a leased build writes fenced keys and nodes. */
  predicate CanPlan(s: State, tx: TxId, writes: map<Key, Option<Raw>>) {
    && InPhase(s, tx, Building)
    && var c := s.clients[tx];
      if c.rename then writes.Keys == c.seen.Keys
      else
        && ActivePreparing(s, tx)
        && forall k | k in writes :: ResourceOf(k).Some? ==> ResourceOf(k).value in c.held
  }

  /** A transaction without derived work has nothing left to apply. */
  function DoPlan(s: State, tx: TxId, writes: map<Key, Option<Raw>>, participants: seq<Key>, applied: bool): State
    requires CanPlan(s, tx, writes)
  {
    var c := s.clients[tx];
    SetClient(s, tx, c.(writes := writes, phase := Planned, participants := participants))
    .(active := if c.rename then s.active
                else s.active[tx := Stored(s.active[tx].data.(participants := participants, derivedApplied := applied), s.nextGen)],
      nextGen := s.nextGen + 1)
  }

  predicate MayOverwrite(s: State, tx: TxId, k: Key) {
    var p := EnvAt(s, k).pending;
    p.None? || p.value.tx == tx || Terminal(s, p.value.tx)
  }

  predicate CanPrepare(s: State, tx: TxId, k: Key, checked: bool) {
    && InPhase(s, tx, Planned)
    && var c := s.clients[tx];
      && k in c.writes && k !in c.prepared
      && MayOverwrite(s, tx, k)
      && (c.rename ==> checked)
      && (checked ==> k in c.seen && c.seen[k] == Ver(s, k))
  }

  function DoPrepare(s: State, tx: TxId, k: Key, checked: bool): State
    requires CanPrepare(s, tx, k, checked)
  {
    var c := s.clients[tx];
    var d := c.(prepared := c.prepared + {k}, checked := if checked then c.checked + {k} else c.checked);
    SetClient(PutEnvelope(s, k, Envelope(Visible(s, k), Some(Pending(tx, c.writes[k], c.until)))), tx, d)
  }

  predicate CanCommit(s: State, tx: TxId) {
    && InPhase(s, tx, Planned)
    && s.clients[tx].prepared == s.clients[tx].writes.Keys
    && (if s.clients[tx].rename then Decision(s, tx).None? else ActivePreparing(s, tx))
  }

  function Bump(versions: map<Key, nat>, keys: set<Key>): map<Key, nat> {
    map k | k in versions.Keys + keys ::
      (if k in versions then versions[k] else 0) + (if k in keys then 1 else 0)
  }

  function DoCommit(s: State, tx: TxId): State
    requires CanCommit(s, tx)
  {
    var c := s.clients[tx];
    var m := if c.rename then NewManifest.(derivedApplied := true, participants := c.participants) else s.active[tx].data;
    SetClient(PutManifest(s, tx, m.(status := Committed, leaseUntil := 0)), tx,
              c.(phase := Done, decidedAt := s.now))
    .(versions := Bump(s.versions, c.writes.Keys))
  }

  predicate CanAbort(s: State, tx: TxId) {
    && tx in s.clients
    && (if s.clients[tx].rename then Decision(s, tx).None? && s.clients[tx].phase != Done
        else ActivePreparing(s, tx))
  }

  function DoAbort(s: State, tx: TxId): State
    requires CanAbort(s, tx)
  {
    var c := s.clients[tx];
    var m := if c.rename then NewManifest.(derivedApplied := true, participants := c.participants) else s.active[tx].data;
    SetClient(PutManifest(s, tx, m.(status := Aborted)), tx, if c.rename then c.(phase := Done) else c)
  }

  /** Whoever finds the lease in the manifest of an undecided transaction run out may abort it. */
  predicate CanExpire(s: State, tx: TxId) {
    CanAbort(s, tx) && !s.clients[tx].rename && s.active[tx].data.leaseUntil <= s.now
  }

  predicate CanPromote(s: State, k: Key) {
    EnvAt(s, k).pending.Some? && HasStatus(s, EnvAt(s, k).pending.value.tx, Committed)
  }

  function DoPromote(s: State, k: Key): State
    requires CanPromote(s, k)
  {
    PutEnvelope(s, k, Envelope(EnvAt(s, k).pending.value.write, None))
  }

  /** A pending value may be dropped once its transaction has aborted; the pending value of a
      lease-free rename may also be dropped by whoever saw no decision and then found its lease
      expired. The rename may have decided after that look, so a commit protects the value only
      if it came more than the slack before the lease ran out. */
  predicate CanDiscard(s: State, k: Key) {
    var p := EnvAt(s, k).pending;
    && p.Some?
    && p.value.tx in s.clients
    && var c := s.clients[p.value.tx];
      || HasStatus(s, p.value.tx, Aborted)
      || (&& c.rename
          && c.until <= s.now
          && (HasStatus(s, p.value.tx, Committed) ==> c.until <= c.decidedAt + s.slack))
  }

  function DoDiscard(s: State, k: Key): State {
    PutEnvelope(s, k, Envelope(EnvAt(s, k).current, None))
  }

  /** The derived work of a committed transaction has been applied. */
  predicate WorkDone(m: Manifest) {
    m.status == Committed ==> m.derivedApplied
  }

  /** The journal copy is the archiving process's own: the manifest as that has read it. */
  predicate CanJournal(s: State, tx: TxId, copy: Manifest) {
    tx !in s.journal && Terminal(s, tx) && copy.status == Decision(s, tx).value.status && WorkDone(copy)
  }

  function DoJournal(s: State, tx: TxId, copy: Manifest): State {
    s.(journal := s.journal[tx := copy])
  }

  predicate CanMark(s: State, tx: TxId) {
    tx in s.active && s.active[tx].data.status == Committed
  }

  function DoMark(s: State, tx: TxId): State
    requires CanMark(s, tx)
  {
    PutManifest(s, tx, s.active[tx].data.(derivedApplied := true))
  }

  predicate CanUnlist(s: State, tx: TxId) {
    tx in s.active && tx in s.journal && WorkDone(s.active[tx].data)
  }

  function DoUnlist(s: State, tx: TxId): State {
    s.(active := s.active - {tx})
  }

  /** A client that gives up takes no further step. */
  function DoQuit(s: State, tx: TxId): State
    requires tx in s.clients
  {
    SetClient(s, tx, s.clients[tx].(phase := Done))
  }

  predicate Enabled(s: State, l: Step) {
    match l
    case Tick(to) => s.now <= to
    case Begin(tx, _) => tx !in s.clients
    case BeginRename(tx, _) => tx !in s.clients
    case Acquire(tx, r, _) => CanAcquire(s, tx, r)
    case Release(tx, r) => CanRelease(s, tx, r)
    case Read(tx, k) => CanRead(s, tx, k)
    case Plan(tx, writes, _, _) => CanPlan(s, tx, writes)
    case Prepare(tx, k, checked) => CanPrepare(s, tx, k, checked)
    case Commit(tx) => CanCommit(s, tx)
    case Abort(tx) => CanAbort(s, tx)
    case Expire(tx) => CanExpire(s, tx)
    case Quit(tx) => tx in s.clients
    case Promote(k) => CanPromote(s, k)
    case Discard(k) => CanDiscard(s, k)
    case Mark(tx) => CanMark(s, tx)
    case Journal(tx, copy) => CanJournal(s, tx, copy)
    case Unlist(tx) => CanUnlist(s, tx)
  }

  function Apply(s: State, l: Step): State
    requires Enabled(s, l)
  {
    match l
    case Tick(to) => s.(now := to)
    case Begin(tx, until) => DoBegin(s, tx, until)
    case BeginRename(tx, until) => DoBeginRename(s, tx, until)
    case Acquire(tx, r, until) => DoAcquire(s, tx, r, until)
    case Release(tx, r) => DoRelease(s, tx, r)
    case Read(tx, k) => DoRead(s, tx, k)
    case Plan(tx, writes, participants, applied) => DoPlan(s, tx, writes, participants, applied)
    case Prepare(tx, k, checked) => DoPrepare(s, tx, k, checked)
    case Commit(tx) => DoCommit(s, tx)
    case Abort(tx) => DoAbort(s, tx)
    case Expire(tx) => DoAbort(s, tx)
    case Quit(tx) => DoQuit(s, tx)
    case Promote(k) => DoPromote(s, k)
    case Discard(k) => DoDiscard(s, k)
    case Mark(tx) => DoMark(s, tx)
    case Journal(tx, copy) => DoJournal(s, tx, copy)
    case Unlist(tx) => DoUnlist(s, tx)
  }

  /** The client a step belongs to; a step without one may be taken by anybody. */
  function Actor(l: Step): Option<TxId> {
    match l
    case Tick(_) => None
    case Begin(tx, _) => Some(tx)
    case BeginRename(tx, _) => Some(tx)
    case Acquire(tx, _, _) => Some(tx)
    case Release(tx, _) => Some(tx)
    case Read(tx, _) => Some(tx)
    case Plan(tx, _, _, _) => Some(tx)
    case Prepare(tx, _, _) => Some(tx)
    case Commit(tx) => Some(tx)
    case Abort(tx) => Some(tx)
    case Expire(_) => None
    case Quit(tx) => Some(tx)
    case Promote(_) => None
    case Discard(_) => None
    case Mark(_) => None
    case Journal(_, _) => None
    case Unlist(_) => None
  }

  /** The one timing assumption of atomic visibility: a lease-free rename commits more than
      the slack before the lease inside its pending values runs out. */
  predicate TimelyRename(s: State, l: Step) {
    l.Commit? && l.tx in s.clients && s.clients[l.tx].rename ==> s.now + s.slack < s.clients[l.tx].until
  }
}
