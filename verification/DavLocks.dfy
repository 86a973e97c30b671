/** WebDAV write locks in the relational store: exclusive locks of depth zero or infinity, as
    sections 6 and 9.10 of RFC 4918 describe them, with claims that hold them for the time of
    one request. Each operation is one transaction, whose clock is the instant it began. */
module DavLocks {
  import opened Wrappers
  import opened Paths

  datatype Hold = Hold(claim: string, until: nat)
  datatype Lock = Lock(path: Path, infinite: bool, owner: string, expiresAt: nat, held: Option<Hold>)

  predicate Ancestor(a: Path, p: Path) {
    a < p
  }

  predicate Covers(lock: Lock, p: Path) {
    lock.path == p || (lock.infinite && Ancestor(lock.path, p))
  }

  predicate Conflict(a: Lock, b: Lock) {
    a.path == b.path || (a.infinite && Ancestor(a.path, b.path)) || (b.infinite && Ancestor(b.path, a.path))
  }

  /** Two locks conflict exactly when some path is covered by both. */
  lemma ConflictIsSharedPath(a: Lock, b: Lock)
    ensures Conflict(a, b) <==> exists p :: Covers(a, p) && Covers(b, p)
  {
    if Conflict(a, b) {
      var p := if Ancestor(a.path, b.path) then b.path else a.path;
      assert Covers(a, p) && Covers(b, p);
    }
    forall p | Covers(a, p) && Covers(b, p) ensures Conflict(a, b) {
      Comparable(a.path, b.path, p);
    }
  }

  lemma Comparable(a: Path, b: Path, p: Path)
    requires a <= p && b <= p
    ensures a <= b || b <= a
  {
  }

  predicate Unexpired(lock: Lock, asOf: nat) {
    asOf < lock.expiresAt
  }

  predicate HeldAt(lock: Lock, asOf: nat) {
    lock.held.Some? && asOf < lock.held.value.until
  }

  /** Expired locks stay active while a claim holds them. */
  predicate Active(lock: Lock, asOf: nat) {
    Unexpired(lock, asOf) || HeldAt(lock, asOf)
  }

  /** No two rows of the table conflict, active or not. */
  ghost predicate NoConflicts(rows: map<string, Lock>) {
    forall t, u | t in rows && u in rows && t != u :: !Conflict(rows[t], rows[u])
  }

  /** Invalid: the arguments make no sense. Refused: the table does not allow it. */
  datatype Outcome = Done | Refused | Invalid

  function ActiveRows(rows: map<string, Lock>, asOf: nat): map<string, Lock> {
    map t | t in rows && Active(rows[t], asOf) :: rows[t]
  }

  lemma PairExclusive(rows: map<string, Lock>, t: string, u: string, p: Path)
    requires NoConflicts(rows) && t in rows && u in rows && Covers(rows[t], p) && Covers(rows[u], p)
    ensures t == u
  {
    if t != u {
      assert !Conflict(rows[t], rows[u]);
      ConflictIsSharedPath(rows[t], rows[u]);
    }
  }

  // ---- The table as a step system ----

  datatype Table = Table(rows: map<string, Lock>, now: nat)

  /** One transaction each, that began at asOf and takes effect now; Tick lets time pass. */
  datatype Step =
    | Create(token: string, lock: Lock, asOf: nat)
    | Refresh(token: string, expiresAt: nat, asOf: nat)
    | Delete(token: string, asOf: nat)
    | Cleanup(asOf: nat)
    | Claim(paths: seq<Path>, tokens: set<string>, claim: string, until: nat, asOf: nat)
    | Release(claim: string)
    | Tick(to: nat)

  predicate Possible(s: Table, l: Step) {
    match l
    case Create(_, lock, asOf) => asOf <= s.now && lock.held.None?
    case Refresh(_, _, asOf) => asOf <= s.now
    case Delete(_, asOf) => asOf <= s.now
    case Cleanup(asOf) => asOf <= s.now
    case Claim(_, _, _, _, asOf) => asOf <= s.now
    case Release(_) => true
    case Tick(to) => s.now <= to
  }

  /** The token is new and no path of the lock is covered by an active one. */
  predicate Creatable(rows: map<string, Lock>, token: string, lock: Lock, asOf: nat) {
    forall t | t in ActiveRows(rows, asOf) :: t != token && !Conflict(rows[t], lock)
  }

  function CreateOutcome(s: Table, token: string, lock: Lock, asOf: nat): Outcome {
    if token == "" || lock.expiresAt <= s.now then Invalid else if Creatable(s.rows, token, lock, asOf) then Done else Refused
  }

  /** Every lock over the paths is provided, and held by no other claim. */
  predicate Grantable(rows: map<string, Lock>, paths: seq<Path>, tokens: set<string>, claim: string, asOf: nat) {
    forall t | t in rows && Needed(rows, paths, asOf, t) :: MayClaim(Dropped(rows, asOf), tokens, claim, t)
  }

  function ClaimOutcome(s: Table, paths: seq<Path>, tokens: set<string>, claim: string, until: nat, asOf: nat): Outcome {
    if claim == "" || until <= s.now then Invalid else if Grantable(s.rows, paths, tokens, claim, asOf) then Done else Refused
  }

  function Freed(rows: map<string, Lock>, claim: string): map<string, Lock> {
    map t | t in rows :: if rows[t].held.Some? && rows[t].held.value.claim == claim then rows[t].(held := None) else rows[t]
  }

  function RefreshOutcome(s: Table, token: string, expiresAt: nat, asOf: nat): Outcome {
    if expiresAt <= s.now then Invalid else if token in s.rows && Unexpired(s.rows[token], asOf) then Done else Refused
  }

  function Next(s: Table, l: Step): Table
    requires Possible(s, l)
  {
    match l
    case Create(token, lock, asOf) =>
      if CreateOutcome(s, token, lock, asOf) == Done then s.(rows := ActiveRows(s.rows, asOf)[token := lock]) else s
    case Refresh(token, expiresAt, asOf) =>
      if RefreshOutcome(s, token, expiresAt, asOf) == Done then s.(rows := s.rows[token := s.rows[token].(expiresAt := expiresAt)]) else s
    case Delete(token, asOf) => if token in s.rows && !HeldAt(s.rows[token], asOf) then s.(rows := s.rows - {token}) else s
    case Cleanup(asOf) => s.(rows := ActiveRows(s.rows, asOf))
    case Claim(paths, tokens, claim, until, asOf) =>
      if ClaimOutcome(s, paths, tokens, claim, until, asOf) == Done then s.(rows := Claimed(s.rows, paths, asOf, Hold(claim, until))) else s
    case Release(claim) => s.(rows := Freed(s.rows, claim))
    case Tick(to) => s.(now := to)
  }

  datatype Run = Run(states: seq<Table>, steps: seq<Step>)

  ghost predicate StepAt(r: Run, i: nat)
    requires |r.states| == |r.steps| + 1 && i < |r.steps|
  {
    Possible(r.states[i], r.steps[i]) && r.states[i + 1] == Next(r.states[i], r.steps[i])
  }

  ghost predicate Valid(r: Run) {
    && |r.states| == |r.steps| + 1 && r.states[0].rows == map[]
    && forall i | 0 <= i < |r.steps| :: StepAt(r, i)
  }

  /** Every transaction keeps the rows free of conflicts, the inactive ones included. */
  lemma StepNoConflicts(s: Table, l: Step)
    requires NoConflicts(s.rows) && Possible(s, l)
    ensures NoConflicts(Next(s, l).rows)
  {
    var rows := Next(s, l).rows;
    forall t, u | t in rows && u in rows && t != u ensures !Conflict(rows[t], rows[u]) {
      assert t in s.rows && u in s.rows ==> !Conflict(s.rows[t], s.rows[u]);
    }
  }

  lemma {:induction false} RunNoConflicts(r: Run, i: nat)
    requires Valid(r) && i < |r.states|
    ensures NoConflicts(r.states[i].rows)
  {
    if i > 0 {
      RunNoConflicts(r, i - 1);
      assert StepAt(r, i - 1);
      StepNoConflicts(r.states[i - 1], r.steps[i - 1]);
    }
  }

  /** The guarantee for clients: in no state of any run is a path covered by two locks, and least
      of all by two active ones. */
  lemma Exclusive(r: Run, i: nat, t: string, u: string, p: Path)
    requires Valid(r) && i < |r.states| && t in r.states[i].rows && u in r.states[i].rows
    requires Covers(r.states[i].rows[t], p) && Covers(r.states[i].rows[u], p)
    ensures t == u
  {
    RunNoConflicts(r, i);
    PairExclusive(r.states[i].rows, t, u, p);
  }

  // ---- What a transaction does to one row ----

  /** The paths a lock is meant for: its own, or everything from there down. */
  predicate Over(lock: Lock, p: Path) {
    if lock.infinite then lock.path <= p else lock.path == p
  }

  lemma OverIsCovers(lock: Lock, p: Path)
    ensures Over(lock, p) <==> Covers(lock, p)
  {
  }

  /** Its time is not over, or a claim holds it that has not run out. */
  predicate Standing(lock: Lock, asOf: nat) {
    asOf < lock.expiresAt || (lock.held.Some? && asOf < lock.held.value.until)
  }

  /** No path is meant for both. */
  ghost predicate NoSharedPath(a: Lock, b: Lock) {
    forall p :: !(Over(a, p) && Over(b, p))
  }

  /** A lock is created exactly when it has a token that no standing lock has, is not over yet,
      and shares no path with a standing lock. */
  lemma CreatedIff(s: Table, token: string, lock: Lock, asOf: nat)
    ensures CreateOutcome(s, token, lock, asOf) == Done <==>
            && token != "" && s.now < lock.expiresAt
            && forall t | t in s.rows && Standing(s.rows[t], asOf) :: t != token && NoSharedPath(s.rows[t], lock)
    ensures CreateOutcome(s, token, lock, asOf) == Invalid <==> token == "" || lock.expiresAt <= s.now
  {
    forall t | t in s.rows ensures Conflict(s.rows[t], lock) <==> !NoSharedPath(s.rows[t], lock) {
      ConflictIsSharedPath(s.rows[t], lock);
      forall p ensures (Over(s.rows[t], p) <==> Covers(s.rows[t], p)) && (Over(lock, p) <==> Covers(lock, p)) {
        OverIsCovers(s.rows[t], p);
        OverIsCovers(lock, p);
      }
    }
    assert forall t | t in s.rows :: t in ActiveRows(s.rows, asOf) <==> Standing(s.rows[t], asOf);
  }

  /** The lock stands over one of the paths. */
  ghost predicate InTheWay(lock: Lock, paths: seq<Path>, asOf: nat) {
    Standing(lock, asOf) && exists i | 0 <= i < |paths| :: Over(lock, paths[i])
  }

  /** The paths are claimed exactly when each lock standing over one of them is provided, and
      held by nobody else. */
  lemma ClaimedIff(s: Table, paths: seq<Path>, tokens: set<string>, claim: string, until: nat, asOf: nat)
    ensures ClaimOutcome(s, paths, tokens, claim, until, asOf) == Done <==>
            && claim != "" && s.now < until
            && forall t | t in s.rows && InTheWay(s.rows[t], paths, asOf) ::
                 t in tokens && (s.rows[t].held.Some? && asOf < s.rows[t].held.value.until ==> s.rows[t].held.value.claim == claim)
    ensures ClaimOutcome(s, paths, tokens, claim, until, asOf) == Invalid <==> claim == "" || until <= s.now
  {
    forall t | t in s.rows ensures Needed(s.rows, paths, asOf, t) <==> InTheWay(s.rows[t], paths, asOf) {
      NeededInTheWay(s.rows, paths, asOf, t);
    }
  }

  lemma NeededInTheWay(rows: map<string, Lock>, paths: seq<Path>, asOf: nat, t: string)
    requires t in rows
    ensures Needed(rows, paths, asOf, t) <==> InTheWay(rows[t], paths, asOf)
  {
    forall i | 0 <= i < |paths| ensures Over(rows[t], paths[i]) <==> Covers(rows[t], paths[i]) {
      OverIsCovers(rows[t], paths[i]);
    }
  }

  /** The row is swept with those that do not stand any more. */
  predicate Swept(s: Table, l: Step, lock: Lock) {
    match l
    case Cleanup(asOf) => !Standing(lock, asOf)
    case Create(token, wanted, asOf) => !Standing(lock, asOf) && CreateOutcome(s, token, wanted, asOf) == Done
    case _ => false
  }

  predicate Deleted(l: Step, t: string, lock: Lock) {
    l.Delete? && l.token == t && !(lock.held.Some? && l.asOf < lock.held.value.until)
  }

  predicate Created(s: Table, l: Step, t: string) {
    l.Create? && l.token == t && CreateOutcome(s, t, l.lock, l.asOf) == Done
  }

  /** A row comes with a creation, and goes only if it is deleted, or swept when it stands no more. */
  lemma RowComesAndGoes(s: Table, l: Step, t: string)
    requires Possible(s, l)
    ensures t in Next(s, l).rows <==> Created(s, l, t) || (t in s.rows && !Deleted(l, t, s.rows[t]) && !Swept(s, l, s.rows[t]))
    ensures Created(s, l, t) ==> Next(s, l).rows[t] == l.lock
  {
  }

  /** A refresh of a lock whose time is not over sets its expiry, and nothing else does. */
  lemma RowExpiry(s: Table, l: Step, t: string)
    requires Possible(s, l) && t in s.rows && t in Next(s, l).rows && !Created(s, l, t)
    ensures var lock, lock' := s.rows[t], Next(s, l).rows[t];
      && lock'.path == lock.path && lock'.infinite == lock.infinite && lock'.owner == lock.owner
      && lock'.expiresAt == if l.Refresh? && l.token == t && l.asOf < lock.expiresAt && s.now < l.expiresAt then l.expiresAt else lock.expiresAt
  {
  }

  /** A claim that is granted holds what stands over its paths, and drops what has run out; its
      release drops what it holds. */
  lemma RowHold(s: Table, l: Step, t: string)
    requires Possible(s, l) && t in s.rows && t in Next(s, l).rows && !Created(s, l, t)
    ensures var lock, hold := s.rows[t], Next(s, l).rows[t].held;
      if l.Claim? && ClaimOutcome(s, l.paths, l.tokens, l.claim, l.until, l.asOf) == Done then
        if InTheWay(lock, l.paths, l.asOf) then hold == Some(Hold(l.claim, l.until))
        else hold == if lock.held.Some? && lock.held.value.until <= l.asOf then None else lock.held
      else hold == if l.Release? && lock.held.Some? && lock.held.value.claim == l.claim then None else lock.held
  {
    if l.Claim? {
      NeededInTheWay(s.rows, l.paths, l.asOf, t);
      assert Needed(s.rows, l.paths, l.asOf, t) <==> t in AllNeeded(s.rows, l.paths, l.asOf);
    }
  }

  /** Whatever else happens, a lock is in the table, over the same paths and with the same owner,
      until it is deleted by its token or a sweep finds it standing no more. */
  lemma {:induction false} StandsUntilDeleted(r: Run, i: nat, j: nat, t: string)
    requires Valid(r) && i <= j < |r.states| && t in r.states[i].rows
    requires forall k | i <= k < j && t in r.states[k].rows ::
      && !Deleted(r.steps[k], t, r.states[k].rows[t])
      && (r.steps[k].Create? || r.steps[k].Cleanup? ==> Standing(r.states[k].rows[t], r.steps[k].asOf))
    ensures t in r.states[j].rows
    ensures var a, b := r.states[i].rows[t], r.states[j].rows[t]; b.path == a.path && b.infinite == a.infinite && b.owner == a.owner
  {
    if i < j {
      StandsUntilDeleted(r, i, j - 1, t);
      assert StepAt(r, j - 1);
      var s, l := r.states[j - 1], r.steps[j - 1];
      RowComesAndGoes(s, l, t);
      if l.Create? {
        CreatedIff(s, l.token, l.lock, l.asOf);
      }
      RowExpiry(s, l, t);
    }
  }

  // ---- What a claim is worth ----

  /** The row covers what it covered, and is held for the claim. */
  predicate StillHeld(rows: map<string, Lock>, t: string, lock: Lock, hold: Hold) {
    t in rows && rows[t].path == lock.path && rows[t].infinite == lock.infinite && rows[t].held == Some(hold)
  }

  /** The claim's own calls may end it early. */
  predicate ByClaim(l: Step, claim: string) {
    (l.Release? || l.Claim?) && l.claim == claim
  }

  lemma StepHeld(s: Table, l: Step, t: string, lock: Lock, hold: Hold)
    requires Possible(s, l) && StillHeld(s.rows, t, lock, hold) && s.now < hold.until && !ByClaim(l, hold.claim)
    ensures StillHeld(Next(s, l).rows, t, lock, hold)
  {
    if l.Claim? && ClaimOutcome(s, l.paths, l.tokens, l.claim, l.until, l.asOf) == Done {
      assert Dropped(s.rows, l.asOf)[t] == s.rows[t];
      assert !Needed(s.rows, l.paths, l.asOf, t);
    }
  }

  lemma {:induction false} HeldUntil(r: Run, i: nat, j: nat, t: string, lock: Lock, hold: Hold)
    requires Valid(r) && i <= j < |r.states| && StillHeld(r.states[i].rows, t, lock, hold)
    requires r.states[j].now < hold.until && forall k | i <= k < j :: !ByClaim(r.steps[k], hold.claim)
    ensures StillHeld(r.states[j].rows, t, lock, hold)
  {
    if i < j {
      assert StepAt(r, j - 1);
      HeldUntil(r, i, j - 1, t, lock, hold);
      StepHeld(r.states[j - 1], r.steps[j - 1], t, lock, hold);
    }
  }

  /** From a claim that is granted until it is released, renewed or runs out, whatever the others
      do, every lock over its paths stays, even if it expires meanwhile; and so no lock that
      covers one of the paths is created, none of them is deleted, and no other claim that
      needs one is granted. */
  lemma ClaimProtects(r: Run, i: nat, j: nat, t: string, p: Path)
    requires Valid(r) && i < j < |r.steps| && r.steps[i].Claim? && p in r.steps[i].paths
    requires var l := r.steps[i]; ClaimOutcome(r.states[i], l.paths, l.tokens, l.claim, l.until, l.asOf) == Done
    requires t in r.states[i].rows && Active(r.states[i].rows[t], r.steps[i].asOf) && Covers(r.states[i].rows[t], p)
    requires r.states[j].now < r.steps[i].until && forall k | i < k <= j :: !ByClaim(r.steps[k], r.steps[i].claim)
    ensures t in r.states[j + 1].rows && Covers(r.states[j + 1].rows[t], p)
    ensures r.states[j + 1].rows[t].held == Some(Hold(r.steps[i].claim, r.steps[i].until))
    ensures r.steps[j].Create? && Covers(r.steps[j].lock, p) ==> r.states[j + 1] == r.states[j]
    ensures r.steps[j].Delete? && r.steps[j].token == t ==> r.states[j + 1] == r.states[j]
    ensures r.steps[j].Claim? && p in r.steps[j].paths ==> r.states[j + 1] == r.states[j]
  {
    var l, lock := r.steps[i], r.states[i].rows[t];
    var hold := Hold(l.claim, l.until);
    assert StepAt(r, i) && StepAt(r, j);
    JustClaimed(r.states[i], l, t, p);
    HeldUntil(r, i + 1, j, t, lock, hold);
    StepHeld(r.states[j], r.steps[j], t, lock, hold);
    HeldCloses(r.states[j], r.steps[j], t, lock, hold, p);
  }

  lemma JustClaimed(s: Table, l: Step, t: string, p: Path)
    requires Possible(s, l) && l.Claim? && ClaimOutcome(s, l.paths, l.tokens, l.claim, l.until, l.asOf) == Done
    requires p in l.paths && t in s.rows && Active(s.rows[t], l.asOf) && Covers(s.rows[t], p)
    ensures StillHeld(Next(s, l).rows, t, s.rows[t], Hold(l.claim, l.until))
  {
    assert Needed(s.rows, l.paths, l.asOf, t);
  }

  lemma HeldCloses(s: Table, l: Step, t: string, lock: Lock, hold: Hold, p: Path)
    requires Possible(s, l) && StillHeld(s.rows, t, lock, hold) && s.now < hold.until && Covers(lock, p) && !ByClaim(l, hold.claim)
    ensures l.Create? && Covers(l.lock, p) ==> Next(s, l) == s
    ensures l.Delete? && l.token == t ==> Next(s, l) == s
    ensures l.Claim? && p in l.paths ==> Next(s, l) == s
  {
    if l.Create? && Covers(l.lock, p) {
      ConflictIsSharedPath(s.rows[t], l.lock);
      assert Covers(s.rows[t], p) && t in ActiveRows(s.rows, l.asOf);
    } else if l.Claim? && p in l.paths {
      assert Needed(s.rows, l.paths, l.asOf, t) && Dropped(s.rows, l.asOf)[t] == s.rows[t];
    }
  }

  // ---- The operations ----

  class LockTable {
    var rows: map<string, Lock>
    var now: nat

    ghost predicate Valid()
      reads this
    {
      NoConflicts(rows)
    }

    function State(): Table
      reads this
    {
      Table(rows, now)
    }

    constructor ()
      ensures Valid() && rows == map[]
    {
      rows, now := map[], 0;
    }

    method Tick(to: nat)
      requires Valid() && now <= to
      modifies this
      ensures Valid() && State() == Next(old(State()), Step.Tick(to))
    {
      now := to;
    }

    /** Rows that are neither unexpired nor held are removed. */
    method Cleanup(asOf: nat)
      requires Valid() && asOf <= now
      modifies this
      ensures Valid() && State() == Next(old(State()), Step.Cleanup(asOf))
    {
      StepNoConflicts(State(), Step.Cleanup(asOf));
      rows := ActiveRows(rows, asOf);
    }

    /** A lock is created exactly when its token is new and no path of it is covered by an active
        lock. Inactive rows go first, so none of them can come back in conflict. */
    method Create(token: string, lock: Lock, asOf: nat) returns (outcome: Outcome)
      requires Valid() && asOf <= now && lock.held.None?
      modifies this
      ensures Valid() && State() == Next(old(State()), Step.Create(token, lock, asOf))
      ensures outcome == CreateOutcome(old(State()), token, lock, asOf)
    {
      if token == "" || lock.expiresAt <= now {
        return Invalid;
      }
      StepNoConflicts(State(), Step.Create(token, lock, asOf));
      ghost var before := rows;
      var active := ActiveRows(rows, asOf);
      var rest := active.Keys;
      while rest != {}
        invariant rest <= active.Keys && rows == before
        invariant forall t | t in active && t !in rest :: t != token && !Conflict(active[t], lock)
      {
        var t :| t in rest;
        if t == token || Conflict(active[t], lock) {
          assert !Creatable(rows, token, lock, asOf);
          return Refused;
        }
        rest := rest - {t};
      }
      rows := active[token := lock];
      outcome := Done;
    }

    /** Only an unexpired lock can be refreshed; a held but expired one cannot. */
    method Refresh(token: string, expiresAt: nat, asOf: nat) returns (outcome: Outcome)
      requires Valid() && asOf <= now
      modifies this
      ensures Valid() && State() == Next(old(State()), Step.Refresh(token, expiresAt, asOf))
      ensures outcome == RefreshOutcome(old(State()), token, expiresAt, asOf)
    {
      if expiresAt <= now {
        return Invalid;
      }
      StepNoConflicts(State(), Step.Refresh(token, expiresAt, asOf));
      outcome := if token in rows && Unexpired(rows[token], asOf) then Done else Refused;
      if outcome == Done {
        rows := rows[token := rows[token].(expiresAt := expiresAt)];
      }
    }

    /** A lock that a claim holds cannot be deleted. */
    method Delete(token: string, asOf: nat) returns (ok: bool)
      requires Valid() && asOf <= now
      modifies this
      ensures Valid() && State() == Next(old(State()), Step.Delete(token, asOf))
      ensures ok <==> token in old(rows) && !HeldAt(old(rows)[token], asOf)
    {
      ok := token in rows && !HeldAt(rows[token], asOf);
      if ok {
        rows := rows - {token};
      }
    }

    /** The locks that must be in hand to write to the paths; None if one of them is not
        provided, or held by another claim. */
    method Claimable(paths: seq<Path>, tokens: set<string>, claim: string, asOf: nat) returns (matched: Option<set<string>>)
      ensures matched.None? <==> exists t :: Needed(rows, paths, asOf, t) && !MayClaim(rows, tokens, claim, t)
      ensures matched.Some? ==> forall t :: t in matched.value <==> Needed(rows, paths, asOf, t)
    {
      var found: set<string> := {};
      var rest := rows.Keys;
      while rest != {}
        invariant rest <= rows.Keys
        invariant forall t | t in rows && t !in rest && Needed(rows, paths, asOf, t) :: MayClaim(rows, tokens, claim, t)
        invariant forall t :: t in found <==> t in rows && t !in rest && Needed(rows, paths, asOf, t)
      {
        var t :| t in rest;
        rest := rest - {t};
        var covers := CoversSome(rows[t], paths);
        if Active(rows[t], asOf) && covers {
          if t !in tokens || (rows[t].held.Some? && rows[t].held.value.claim != claim) {
            assert Needed(rows, paths, asOf, t) && !MayClaim(rows, tokens, claim, t);
            return None;
          }
          found := found + {t};
        }
      }
      matched := Some(found);
    }

    /** Holds every active lock over the paths for the claim, or none of them. Holds that have
        run out are dropped first. */
    method Claim(paths: seq<Path>, tokens: set<string>, claim: string, until: nat, asOf: nat) returns (outcome: Outcome)
      requires Valid() && asOf <= now
      modifies this
      ensures Valid() && State() == Next(old(State()), Step.Claim(paths, tokens, claim, until, asOf))
      ensures outcome == ClaimOutcome(old(State()), paths, tokens, claim, until, asOf)
    {
      if claim == "" || until <= now {
        return Invalid;
      }
      var before := rows;
      StepNoConflicts(State(), Step.Claim(paths, tokens, claim, until, asOf));
      rows := Dropped(rows, asOf);
      SameNeeds(before, paths, asOf);
      var matched := Claimable(paths, tokens, claim, asOf);
      if matched.None? {
        rows := before;
        return Refused;
      }
      assert matched.value == AllNeeded(before, paths, asOf);
      rows := HoldAll(rows, matched.value, Hold(claim, until));
      outcome := Done;
    }

    method Release(claim: string)
      requires Valid()
      modifies this
      ensures Valid() && State() == Next(old(State()), Step.Release(claim))
    {
      StepNoConflicts(State(), Step.Release(claim));
      rows := Freed(rows, claim);
    }
  }

  method CoversSome(lock: Lock, paths: seq<Path>) returns (covers: bool)
    ensures covers <==> CoversOne(lock, paths)
  {
    for i := 0 to |paths|
      invariant forall j | 0 <= j < i :: !Covers(lock, paths[j])
    {
      if Covers(lock, paths[i]) {
        return true;
      }
    }
    covers := false;
  }

  predicate CoversOne(lock: Lock, paths: seq<Path>) {
    exists i | 0 <= i < |paths| :: Covers(lock, paths[i])
  }

  predicate Needed(rows: map<string, Lock>, paths: seq<Path>, asOf: nat, t: string) {
    t in rows && Active(rows[t], asOf) && CoversOne(rows[t], paths)
  }

  predicate MayClaim(rows: map<string, Lock>, tokens: set<string>, claim: string, t: string) {
    t in rows && t in tokens && (rows[t].held.Some? ==> rows[t].held.value.claim == claim)
  }

  function AllNeeded(rows: map<string, Lock>, paths: seq<Path>, asOf: nat): set<string> {
    set t | t in rows && Needed(rows, paths, asOf, t)
  }

  /** The rows after a claim: every lock over the paths is held. */
  function Claimed(rows: map<string, Lock>, paths: seq<Path>, asOf: nat, hold: Hold): map<string, Lock> {
    HoldAll(Dropped(rows, asOf), AllNeeded(rows, paths, asOf), hold)
  }

  /** The rows with the holds dropped that have run out. */
  function Dropped(rows: map<string, Lock>, asOf: nat): map<string, Lock> {
    map t | t in rows :: if rows[t].held.Some? && rows[t].held.value.until <= asOf then rows[t].(held := None) else rows[t]
  }

  function HoldAll(rows: map<string, Lock>, tokens: set<string>, hold: Hold): map<string, Lock> {
    map t | t in rows :: if t in tokens then rows[t].(held := Some(hold)) else rows[t]
  }

  lemma SameNeeds(rows: map<string, Lock>, paths: seq<Path>, asOf: nat)
    ensures forall t :: Needed(Dropped(rows, asOf), paths, asOf, t) <==> Needed(rows, paths, asOf, t)
  {
    forall t ensures Needed(Dropped(rows, asOf), paths, asOf, t) <==> Needed(rows, paths, asOf, t) {
      if t in rows {
        assert Covers(Dropped(rows, asOf)[t], []) == Covers(rows[t], []);
        assert forall i | 0 <= i < |paths| :: Covers(Dropped(rows, asOf)[t], paths[i]) == Covers(rows[t], paths[i]);
      }
    }
  }
}
