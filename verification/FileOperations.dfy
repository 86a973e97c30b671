/** Batch moves on the rows of the relational store: every descendant's path is rewritten in
    the array of records. */
module FileOperations {
  import opened Wrappers
  import opened Paths
  import opened FlatTree
  import opened FlatMoves

  datatype Trash = Trash(at: nat, id: string, isRoot: bool, deleting: bool)
  datatype FileRecord = FileRecord(path: Path, node: Node, updatedAt: nat, trash: Option<Trash>)

  function EntryOf(r: FileRecord): Entry {
    Entry(r.path, r.node)
  }

  function Entries(records: seq<FileRecord>): set<Entry> {
    set r | r in records :: EntryOf(r)
  }

  /** What the database's constraints say of its active rows: no two share an id or a path. */
  predicate Keyed(records: seq<FileRecord>) {
    forall i, j | 0 <= i < j < |records| ::
      records[i].node.id != records[j].node.id && records[i].path != records[j].path
  }

  /** A row after a move of roots that succeeded. */
  function MovedRecord(s: set<Entry>, roots: seq<Path>, dest: Path, now: nat, r: FileRecord): FileRecord
    requires [] !in roots
  {
    if Moving(s, roots, r.path) then r.(path := Target(s, roots, dest, r.path), updatedAt := now) else r
  }

  lemma EntryAt(records: seq<FileRecord>, i: nat)
    requires i < |records|
    ensures EntryOf(records[i]) in Entries(records)
  {
  }

  /** Index of records by path: what the code looks up is what the set of entries says. */
  ghost predicate Indexed(records: seq<FileRecord>, existing: map<Path, FileRecord>) {
    && (forall p | p in existing :: existing[p] in records && existing[p].path == p)
    && (forall i | 0 <= i < |records| :: records[i].path in existing)
  }

  lemma IndexedLookup(records: seq<FileRecord>, existing: map<Path, FileRecord>, p: Path)
    requires Keyed(records) && Indexed(records, existing)
    ensures p in existing <==> Has(Entries(records), p)
    ensures p in existing && existing[p].node.isDirectory <==> HasDir(Entries(records), p)
  {
    var s := Entries(records);
    if p in existing {
      assert EntryOf(existing[p]) in s;
    }
    if e :| e in s && e.path == p {
      var r :| r in records && EntryOf(r) == e;
      assert p in existing;
    }
    if e :| e in s && e.path == p && e.node.isDirectory {
      var r :| r in records && EntryOf(r) == e;
      assert existing[p] == r;
    }
  }

  method IndexByPath(a: array<FileRecord>) returns (existing: map<Path, FileRecord>)
    ensures Indexed(a[..], existing)
  {
    existing := map[];
    for i := 0 to a.Length
      invariant forall p | p in existing :: existing[p] in a[..] && existing[p].path == p
      invariant forall j | 0 <= j < i :: a[j].path in existing
    {
      assert a[i] in a[..];
      existing := existing[a[i].path := a[i]];
    }
  }

  /** moving maps the ids of the records that some of the roots move to their new paths. */
  ghost predicate Collected(records: seq<FileRecord>, roots: seq<Path>, dest: Path, moving: map<nat, Path>)
    requires [] !in roots
  {
    var s := Entries(records);
    && (forall id | id in moving :: exists i | 0 <= i < |records| :: records[i].node.id == id)
    && (forall i | 0 <= i < |records| :: records[i].node.id in moving <==> Moving(s, roots, records[i].path))
    && (forall i | 0 <= i < |records| && records[i].node.id in moving ::
          moving[records[i].node.id] == Target(s, roots, dest, records[i].path))
  }

  predicate Under(root: Path, isDirectory: bool, p: Path) {
    p == root || (isDirectory && root < p)
  }

  /** moving' is moving with every record under root on its way to to. */
  ghost predicate Added(records: seq<FileRecord>, root: Path, to: Path, isDirectory: bool, n: nat,
                        moving: map<nat, Path>, moving': map<nat, Path>)
    requires n <= |records|
  {
    && (forall id | id in moving' :: id in moving || exists i | 0 <= i < n :: records[i].node.id == id)
    && (forall i | 0 <= i < |records| ::
          records[i].node.id in moving' <==> records[i].node.id in moving || (i < n && Under(root, isDirectory, records[i].path)))
    && (forall i | 0 <= i < |records| && records[i].node.id in moving' ::
          moving'[records[i].node.id] ==
          if i < n && Under(root, isDirectory, records[i].path) then to + records[i].path[|root|..]
          else if records[i].node.id in moving then moving[records[i].node.id] else [])
  }

  lemma AddedNext(records: seq<FileRecord>, root: Path, to: Path, isDirectory: bool, n: nat,
                  moving: map<nat, Path>, moving': map<nat, Path>)
    requires Keyed(records) && n < |records| && Added(records, root, to, isDirectory, n, moving, moving')
    ensures Added(records, root, to, isDirectory, n + 1, moving,
                  if Under(root, isDirectory, records[n].path)
                  then moving'[records[n].node.id := to + records[n].path[|root|..]] else moving')
  {
  }

  method AddRoot(a: array<FileRecord>, root: Path, to: Path, isDirectory: bool, moving: map<nat, Path>) returns (moving': map<nat, Path>)
    requires Keyed(a[..])
    ensures Added(a[..], root, to, isDirectory, a.Length, moving, moving')
  {
    moving' := moving;
    for i := 0 to a.Length
      invariant Added(a[..], root, to, isDirectory, i, moving, moving')
    {
      AddedNext(a[..], root, to, isDirectory, i, moving, moving');
      if a[i].path == root || (isDirectory && root < a[i].path) {
        moving' := moving'[a[i].node.id := to + a[i].path[|root|..]];
      }
    }
  }

  lemma CollectedNext(records: seq<FileRecord>, roots: seq<Path>, dest: Path, k: nat, isDirectory: bool,
                      moving: map<nat, Path>, moving': map<nat, Path>)
    requires k < |roots| && [] !in roots && [] !in roots[..k] && [] !in roots[..k + 1]
    requires isDirectory <==> HasDir(Entries(records), roots[k])
    requires Collected(records, roots[..k], dest, moving)
    requires Added(records, roots[k], dest + [Base(roots[k])], isDirectory, |records|, moving, moving')
    ensures Collected(records, roots[..k + 1], dest, moving')
  {
    var s := Entries(records);
    forall i | 0 <= i < |records|
      ensures records[i].node.id in moving' <==> Moving(s, roots[..k + 1], records[i].path)
      ensures records[i].node.id in moving' ==> moving'[records[i].node.id] == Target(s, roots[..k + 1], dest, records[i].path)
    {
      OneMoreRoot(s, roots, dest, k, records[i].path);
    }
  }

  lemma OneMoreRoot(s: set<Entry>, roots: seq<Path>, dest: Path, k: nat, p: Path)
    requires k < |roots| && [] !in roots && [] !in roots[..k] && [] !in roots[..k + 1]
    ensures Moving(s, roots[..k + 1], p) <==> Moving(s, roots[..k], p) || Moves(s, roots[k], p)
    ensures Target(s, roots[..k + 1], dest, p) ==
            if Moves(s, roots[k], p) then dest + [Base(roots[k])] + p[|roots[k]|..] else Target(s, roots[..k], dest, p)
  {
    var more := roots[..k + 1];
    assert more[..k] == roots[..k] && more[k] == roots[k];
    if Moving(s, roots[..k], p) {
      var j :| 0 <= j < k && Moves(s, roots[..k][j], p);
      assert Moves(s, more[j], p);
    }
    if Moving(s, more, p) {
      var j :| 0 <= j <= k && Moves(s, more[j], p);
      assert j < k ==> Moves(s, roots[..k][j], p);
    }
    if Moves(s, roots[k], p) {
      assert Moves(s, more[k], p);
    }
  }

  ghost predicate Inverse(moving: map<nat, Path>, targets: map<Path, nat>) {
    forall id | id in moving :: moving[id] in targets && targets[moving[id]] == id
  }

  /** Inverts the collected moves, unless two of them have one target. Map iteration takes them
      in any order. */
  method InvertMoves(moving: map<nat, Path>) returns (targets: map<Path, nat>, clash: Option<(nat, nat)>)
    ensures clash.None? ==> Inverse(moving, targets)
    ensures forall p | p in targets :: targets[p] in moving && moving[targets[p]] == p
    ensures clash.Some? ==> var (id, other) := clash.value;
              id in moving && other in moving && id != other && moving[id] == moving[other]
  {
    targets, clash := map[], None;
    var rest := moving.Keys;
    while rest != {}
      invariant rest <= moving.Keys
      invariant forall id | id in moving && id !in rest :: moving[id] in targets && targets[moving[id]] == id
      invariant forall p | p in targets :: targets[p] in moving && targets[p] !in rest && moving[targets[p]] == p
    {
      var id :| id in rest;
      rest := rest - {id};
      if moving[id] in targets && targets[moving[id]] != id {
        return targets, Some((id, targets[moving[id]]));
      }
      targets := targets[moving[id] := id];
    }
  }

  /** The two collision checks: no two moved records meet, and none meets one that stays. */
  method CheckTargets(a: array<FileRecord>, roots: seq<Path>, dest: Path, moving: map<nat, Path>) returns (conflict: bool)
    requires Keyed(a[..]) && [] !in roots && Collected(a[..], roots, dest, moving)
    ensures conflict <==> Collides(Entries(a[..]), roots, dest)
  {
    var targets, clash := InvertMoves(moving);
    if clash.Some? {
      TwoMoved(a[..], roots, dest, moving, clash.value.0, clash.value.1);
      return true;
    }
    var standing := Standing(a, moving, targets);
    conflict := standing.Some?;
    if conflict {
      MovedOnto(a[..], roots, dest, moving, targets[a[standing.value].path], standing.value);
    } else {
      NoneMeet(a[..], roots, dest, moving, targets);
    }
  }

  /** A record that stays where another one is to go. */
  method Standing(a: array<FileRecord>, moving: map<nat, Path>, targets: map<Path, nat>) returns (found: Option<nat>)
    ensures found.None? ==> forall j | 0 <= j < a.Length && a[..][j].node.id !in moving :: a[..][j].path !in targets
    ensures found.Some? ==> found.value < a.Length && a[found.value].node.id !in moving && a[found.value].path in targets
  {
    for i := 0 to a.Length
      invariant forall j | 0 <= j < i && a[j].node.id !in moving :: a[j].path !in targets
    {
      if a[i].node.id !in moving && a[i].path in targets {
        return Some(i);
      }
    }
    found := None;
  }

  lemma RecordOf(records: seq<FileRecord>, roots: seq<Path>, dest: Path, moving: map<nat, Path>, id: nat) returns (i: nat)
    requires [] !in roots && Collected(records, roots, dest, moving) && id in moving
    ensures i < |records| && records[i].node.id == id && EntryOf(records[i]) in Entries(records)
    ensures Moving(Entries(records), roots, records[i].path)
    ensures moving[id] == Target(Entries(records), roots, dest, records[i].path)
  {
    i :| 0 <= i < |records| && records[i].node.id == id;
  }

  lemma TwoMoved(records: seq<FileRecord>, roots: seq<Path>, dest: Path, moving: map<nat, Path>, id: nat, other: nat)
    requires [] !in roots && Collected(records, roots, dest, moving)
    requires id in moving && other in moving && id != other && moving[id] == moving[other]
    ensures Collides(Entries(records), roots, dest)
  {
    var i := RecordOf(records, roots, dest, moving, id);
    var j := RecordOf(records, roots, dest, moving, other);
    assert EntryOf(records[i]) != EntryOf(records[j]);
  }

  lemma Stays(s: set<Entry>, roots: seq<Path>, dest: Path, p: Path)
    requires [] !in roots && !Moving(s, roots, p)
    ensures Target(s, roots, dest, p) == p
  {
    if roots != [] {
      var n := |roots| - 1;
      assert !Moves(s, roots[n], p);
      forall k | 0 <= k < n ensures !Moves(s, roots[..n][k], p) {
        assert !Moves(s, roots[k], p);
      }
      Stays(s, roots[..n], dest, p);
    }
  }

  lemma MovedOnto(records: seq<FileRecord>, roots: seq<Path>, dest: Path, moving: map<nat, Path>, id: nat, i: nat)
    requires [] !in roots && Collected(records, roots, dest, moving)
    requires id in moving && i < |records| && records[i].node.id !in moving && moving[id] == records[i].path
    ensures Collides(Entries(records), roots, dest)
  {
    var j := RecordOf(records, roots, dest, moving, id);
    Stays(Entries(records), roots, dest, records[i].path);
    assert EntryOf(records[i]) in Entries(records) && EntryOf(records[i]) != EntryOf(records[j]);
  }

  lemma NoneMeet(records: seq<FileRecord>, roots: seq<Path>, dest: Path, moving: map<nat, Path>, targets: map<Path, nat>)
    requires Keyed(records) && [] !in roots && Collected(records, roots, dest, moving)
    requires Inverse(moving, targets)
    requires forall j | 0 <= j < |records| && records[j].node.id !in moving :: records[j].path !in targets
    ensures !Collides(Entries(records), roots, dest)
  {
    var s := Entries(records);
    forall e, f | e in s && f in s && e != f && Moving(s, roots, e.path)
      ensures Target(s, roots, dest, e.path) != Target(s, roots, dest, f.path)
    {
      var i :| 0 <= i < |records| && EntryOf(records[i]) == e;
      var j :| 0 <= j < |records| && EntryOf(records[j]) == f;
      if records[j].node.id !in moving {
        Stays(s, roots, dest, f.path);
      }
    }
  }

  /** The loop over the roots: the first root with a problem decides. */
  method CollectRoots(a: array<FileRecord>, roots: seq<Path>, dest: Path, existing: map<Path, FileRecord>)
    returns (problem: Option<MoveError>, moving: map<nat, Path>)
    requires Keyed(a[..]) && Indexed(a[..], existing) && [] !in roots
    ensures problem == FirstProblem(Entries(a[..]), roots, dest)
    ensures problem.None? ==> Collected(a[..], roots, dest, moving)
  {
    ghost var s := Entries(a[..]);
    problem, moving := None, map[];
    for k := 0 to |roots|
      invariant [] !in roots[..k] && [] !in roots[k..]
      invariant problem.None? && FirstProblem(s, roots, dest) == FirstProblem(s, roots[k..], dest)
      invariant Collected(a[..], roots[..k], dest, moving)
    {
      var root := roots[k];
      assert roots[k..][0] == root && roots[k..][1..] == roots[k + 1..];
      IndexedLookup(a[..], existing, root);
      problem := CheckRoot(existing, root, dest, s);
      if problem.Some? {
        return;
      }
      var moving' := AddRoot(a, root, dest + [Base(root)], existing[root].node.isDirectory, moving);
      CollectedNext(a[..], roots, dest, k, existing[root].node.isDirectory, moving, moving');
      moving := moving';
    }
    assert roots[..|roots|] == roots;
  }

  method CheckRoot(existing: map<Path, FileRecord>, root: Path, dest: Path, ghost s: set<Entry>) returns (problem: Option<MoveError>)
    requires root != []
    requires root in existing <==> Has(s, root)
    requires root in existing && existing[root].node.isDirectory <==> HasDir(s, root)
    ensures problem == RootProblem(s, root, dest)
  {
    if root !in existing {
      return Some(Missing(root));
    }
    var to := dest + [Base(root)];
    if to == root || (existing[root].node.isDirectory && root < to) {
      return Some(InvalidMove);
    }
    problem := None;
  }

  function MovedRecords(s: set<Entry>, roots: seq<Path>, dest: Path, now: nat, records: seq<FileRecord>): seq<FileRecord>
    requires [] !in roots
  {
    seq(|records|, i requires 0 <= i < |records| => MovedRecord(s, roots, dest, now, records[i]))
  }

  /** The moved ones among the first n records, in their order. */
  function Changed(s: set<Entry>, roots: seq<Path>, dest: Path, now: nat, records: seq<FileRecord>, n: nat): seq<FileRecord>
    requires [] !in roots && n <= |records|
  {
    if n == 0 then []
    else Changed(s, roots, dest, now, records, n - 1) +
         if Moving(s, roots, records[n - 1].path) then [MovedRecord(s, roots, dest, now, records[n - 1])] else []
  }

  function Rewritten(moving: map<nat, Path>, now: nat, r: FileRecord): FileRecord {
    if r.node.id in moving then r.(path := moving[r.node.id], updatedAt := now) else r
  }

  function RewrittenOnly(moving: map<nat, Path>, now: nat, records: seq<FileRecord>, n: nat): seq<FileRecord>
    requires n <= |records|
  {
    if n == 0 then []
    else RewrittenOnly(moving, now, records, n - 1) +
         if records[n - 1].node.id in moving then [Rewritten(moving, now, records[n - 1])] else []
  }

  /** Overwrites the moved records in place, and returns them. */
  method Rewrite(a: array<FileRecord>, moving: map<nat, Path>, now: nat) returns (moved: seq<FileRecord>)
    modifies a
    ensures forall j | 0 <= j < a.Length :: a[j] == Rewritten(moving, now, old(a[j]))
    ensures moved == RewrittenOnly(moving, now, old(a[..]), a.Length)
  {
    ghost var records := a[..];
    moved := [];
    for i := 0 to a.Length
      invariant forall j | 0 <= j < i :: a[j] == Rewritten(moving, now, records[j])
      invariant forall j | i <= j < a.Length :: a[j] == records[j]
      invariant moved == RewrittenOnly(moving, now, records, i)
    {
      if a[i].node.id in moving {
        a[i] := a[i].(path := moving[a[i].node.id], updatedAt := now);
        moved := moved + [a[i]];
      }
    }
  }

  lemma RewriteMoves(records: seq<FileRecord>, roots: seq<Path>, dest: Path, moving: map<nat, Path>, now: nat, i: nat)
    requires [] !in roots && Collected(records, roots, dest, moving) && i < |records|
    ensures records[i].node.id in moving <==> Moving(Entries(records), roots, records[i].path)
    ensures Rewritten(moving, now, records[i]) == MovedRecord(Entries(records), roots, dest, now, records[i])
  {
  }

  lemma {:induction false} OnlyChanged(records: seq<FileRecord>, roots: seq<Path>, dest: Path, moving: map<nat, Path>, now: nat, n: nat)
    requires [] !in roots && Collected(records, roots, dest, moving) && n <= |records|
    ensures RewrittenOnly(moving, now, records, n) == Changed(Entries(records), roots, dest, now, records, n)
  {
    if n > 0 {
      RewriteMoves(records, roots, dest, moving, now, n - 1);
      OnlyChanged(records, roots, dest, moving, now, n - 1);
    }
  }

  /** moveRecords after normalization. */
  method MoveRoots(a: array<FileRecord>, roots: seq<Path>, dest: Path, now: nat) returns (r: Result<seq<FileRecord>, MoveError>)
    requires Keyed(a[..]) && [] !in roots
    modifies a
    ensures var records := old(a[..]); var s := Entries(records);
      match MoveVerdict(s, roots, dest)
      case Some(error) => r == Err(error) && a[..] == records
      case None =>
        && r == Ok(Changed(s, roots, dest, now, records, a.Length))
        && a[..] == MovedRecords(s, roots, dest, now, records)
  {
    var existing := IndexByPath(a);
    IndexedLookup(a[..], existing, dest);
    if dest != [] && !(dest in existing && existing[dest].node.isDirectory) {
      return Err(NoDestination);
    }
    var problem, moving := CollectRoots(a, roots, dest, existing);
    if problem.Some? {
      return Err(problem.value);
    }
    var conflict := CheckTargets(a, roots, dest, moving);
    if conflict {
      return Err(PathConflict);
    }
    ghost var records := a[..];
    var moved := Rewrite(a, moving, now);
    forall i | 0 <= i < |records| ensures a[i] == MovedRecord(Entries(records), roots, dest, now, records[i]) {
      RewriteMoves(records, roots, dest, moving, now, i);
    }
    OnlyChanged(records, roots, dest, moving, now, |records|);
    r := Ok(moved);
  }

  /** Moves the roots of the given paths, and returns the moved records in their order. On failure
      no record changes. */
  method MoveRecords(a: array<FileRecord>, paths: seq<Path>, dest: Path, now: nat) returns (r: Result<seq<FileRecord>, Failure>, ghost roots: seq<Path>)
    requires Keyed(a[..])
    modifies a
    ensures r.Err? ==> a[..] == old(a[..])
    ensures r.Err? && r.error.BadRoots? <==> paths == [] || [] in paths
    ensures paths != [] && [] !in paths ==>
              && RootsOf(roots, paths) && [] !in roots
              && var s := Entries(old(a[..]));
                match MoveVerdict(s, roots, dest)
                case Some(error) => r == Err(BadMove(error))
                case None =>
                  && r == Ok(Changed(s, roots, dest, now, old(a[..]), a.Length))
                  && a[..] == MovedRecords(s, roots, dest, now, old(a[..]))
  {
    roots := [];
    var normal := NormalizeRoots(paths);
    if normal.Err? {
      return Err(BadRoots(normal.error)), roots;
    }
    roots := normal.value;
    NoEmptyRoot(normal.value, paths);
    var moved := MoveRoots(a, normal.value, dest, now);
    r := if moved.Ok? then Ok(moved.value) else Err(BadMove(moved.error));
  }

  /** The rewritten records flatten to the moved set of entries. */
  lemma MovedEntries(records: seq<FileRecord>, roots: seq<Path>, dest: Path, now: nat)
    requires [] !in roots
    ensures Entries(MovedRecords(Entries(records), roots, dest, now, records)) == MoveAll(Entries(records), roots, dest)
  {
    var s := Entries(records);
    var moved := MovedRecords(s, roots, dest, now, records);
    forall i | 0 <= i < |records|
      ensures EntryOf(moved[i]) == Entry(Target(s, roots, dest, records[i].path), records[i].node)
    {
      if !Moving(s, roots, records[i].path) {
        Stays(s, roots, dest, records[i].path);
      }
    }
    forall e | e in Entries(moved) ensures e in MoveAll(s, roots, dest) {
      var i :| 0 <= i < |moved| && EntryOf(moved[i]) == e;
      EntryAt(records, i);
    }
    forall e | e in MoveAll(s, roots, dest) ensures e in Entries(moved) {
      var f :| f in s && e == Entry(Target(s, roots, dest, f.path), f.node);
      var i :| 0 <= i < |records| && EntryOf(records[i]) == f;
      EntryAt(moved, i);
    }
  }
}
