/** Trashing and restoring on the rows of the relational store. */
module FileTrash {
  import opened Wrappers
  import opened Paths
  import opened FlatTree
  import opened FileOperations

  datatype TrashItem = TrashItem(path: Path, id: string)
  datatype TrashError = NoId | BadPaths(roots: RootsError) | Unknown(path: Path) | Busy | Conflict(path: Path) | UnknownId

  function ActivePaths(records: seq<FileRecord>): set<Path> {
    set r | r in records && r.trash.None? :: r.path
  }

  predicate UnderOne(roots: seq<Path>, p: Path) {
    exists k | 0 <= k < |roots| :: roots[k] <= p
  }

  function RootOf(roots: seq<Path>, p: Path): (k: nat)
    requires UnderOne(roots, p)
    ensures k < |roots| && roots[k] <= p && forall j | 0 <= j < k :: !(roots[j] <= p)
  {
    if roots[0] <= p then 0
    else
      assert UnderOne(roots[1..], p) by {
        var k :| 0 <= k < |roots| && roots[k] <= p;
        assert roots[1..][k - 1] == roots[k];
      }
      1 + RootOf(roots[1..], p)
  }

  /** A row after trashing the roots. */
  function TrashedRecord(roots: seq<Path>, ids: map<Path, string>, now: nat, r: FileRecord): FileRecord
    requires forall k | 0 <= k < |roots| :: roots[k] in ids
  {
    if r.trash.None? && UnderOne(roots, r.path) then
      var root := roots[RootOf(roots, r.path)];
      r.(trash := Some(Trash(now, ids[root], r.path == root, false)), updatedAt := now)
    else r
  }

  /** The id that the last item of a path asks for. */
  function IdsOf(items: seq<TrashItem>, n: nat): map<Path, string>
    requires n <= |items|
  {
    if n == 0 then map[] else IdsOf(items, n - 1)[items[n - 1].path := items[n - 1].id]
  }

  lemma {:induction false} IdsOfPaths(items: seq<TrashItem>, n: nat)
    requires n <= |items|
    ensures forall p :: p in IdsOf(items, n) <==> exists i | 0 <= i < n :: items[i].path == p
  {
    if n > 0 {
      IdsOfPaths(items, n - 1);
    }
  }

  /** The last item of its path. */
  predicate LastFor(items: seq<TrashItem>, n: nat, j: nat) {
    j < n <= |items| && forall i | j < i < n :: items[i].path != items[j].path
  }

  lemma {:induction false} IdsOfLast(items: seq<TrashItem>, n: nat, p: Path) returns (j: nat)
    requires n <= |items| && p in IdsOf(items, n)
    ensures LastFor(items, n, j) && items[j].path == p && IdsOf(items, n)[p] == items[j].id
  {
    j := n - 1;
    if items[j].path != p {
      j := IdsOfLast(items, n - 1, p);
    }
  }

  function PathsOf(items: seq<TrashItem>): seq<Path> {
    seq(|items|, i requires 0 <= i < |items| => items[i].path)
  }

  lemma RootsHaveIds(items: seq<TrashItem>, roots: seq<Path>)
    requires RootsOf(roots, PathsOf(items))
    ensures forall k | 0 <= k < |roots| :: roots[k] in IdsOf(items, |items|)
  {
    IdsOfPaths(items, |items|);
    forall k | 0 <= k < |roots| ensures roots[k] in IdsOf(items, |items|) {
      assert roots[k] in roots && Topmost(PathsOf(items), roots[k]);
      var i :| 0 <= i < |items| && PathsOf(items)[i] == roots[k];
      assert items[i].path == roots[k];
    }
  }

  method CollectIds(items: seq<TrashItem>) returns (missing: bool, ids: map<Path, string>)
    ensures missing <==> exists i | 0 <= i < |items| :: items[i].id == ""
    ensures !missing ==> ids == IdsOf(items, |items|)
  {
    ids := map[];
    for i := 0 to |items|
      invariant ids == IdsOf(items, i) && forall j | 0 <= j < i :: items[j].id != ""
    {
      if items[i].id == "" {
        return true, ids;
      }
      ids := ids[items[i].path := items[i].id];
    }
    missing := false;
  }

  method CollectActive(a: array<FileRecord>) returns (active: set<Path>)
    ensures active == ActivePaths(a[..])
  {
    active := {};
    for i := 0 to a.Length
      invariant active == ActivePaths(a[..i])
    {
      assert a[..i + 1] == a[..i] + [a[i]];
      if a[i].trash.None? {
        active := active + {a[i].path};
      }
    }
    assert a[..a.Length] == a[..];
  }

  /** The first root that contains a path. */
  method FindRoot(roots: seq<Path>, p: Path) returns (k: Option<nat>)
    ensures k.Some? <==> UnderOne(roots, p)
    ensures k.Some? ==> k.value == RootOf(roots, p)
  {
    for j := 0 to |roots|
      invariant forall i | 0 <= i < j :: !(roots[i] <= p)
    {
      if roots[j] <= p {
        FirstRoot(roots, p, j);
        return Some(j);
      }
    }
    k := None;
  }

  lemma FirstRoot(roots: seq<Path>, p: Path, j: nat)
    requires j < |roots| && roots[j] <= p && forall i | 0 <= i < j :: !(roots[i] <= p)
    ensures UnderOne(roots, p) && RootOf(roots, p) == j
  {
    assert UnderOne(roots, p);
    var k := RootOf(roots, p);
    assert roots[k] <= p;
  }

  predicate UnderItem(items: seq<TrashItem>, p: Path) {
    exists i | 0 <= i < |items| :: items[i].path <= p
  }

  /** Item j names a root, and is the last to name it. */
  predicate NamesRoot(items: seq<TrashItem>, j: nat) {
    LastFor(items, |items|, j) && forall i | 0 <= i < |items| :: items[i].path <= items[j].path ==> items[i].path == items[j].path
  }

  /** The row is in the trash under the id of an item that names a root it lies under, and is the
      root of its group exactly if it is that item's own. */
  ghost predicate TrashedBy(items: seq<TrashItem>, now: nat, was: FileRecord, row: FileRecord) {
    exists j: nat | NamesRoot(items, j) && items[j].path <= was.path ::
      row == was.(trash := Some(Trash(now, items[j].id, was.path == items[j].path, false)), updatedAt := now)
  }

  lemma RowTrashedBy(items: seq<TrashItem>, roots: seq<Path>, now: nat, r: FileRecord)
    requires RootsOf(roots, PathsOf(items)) && forall k | 0 <= k < |roots| :: roots[k] in IdsOf(items, |items|)
    ensures UnderOne(roots, r.path) <==> UnderItem(items, r.path)
    ensures r.trash.None? && UnderItem(items, r.path) ==> TrashedBy(items, now, r, TrashedRecord(roots, IdsOf(items, |items|), now, r))
  {
    UnderEither(items, roots, r.path);
    if r.trash.None? && UnderOne(roots, r.path) {
      var k := RootOf(roots, r.path);
      var j := IdsOfLast(items, |items|, roots[k]);
      assert roots[k] in roots && Topmost(PathsOf(items), roots[k]);
      forall i | 0 <= i < |items| && items[i].path <= items[j].path ensures items[i].path == items[j].path {
        assert PathsOf(items)[i] in PathsOf(items);
      }
      assert NamesRoot(items, j);
    }
  }

  lemma UnderEither(items: seq<TrashItem>, roots: seq<Path>, p: Path)
    requires RootsOf(roots, PathsOf(items))
    ensures UnderOne(roots, p) <==> UnderItem(items, p)
  {
    if UnderOne(roots, p) {
      var k :| 0 <= k < |roots| && roots[k] <= p;
      assert roots[k] in roots && roots[k] in PathsOf(items);
      var i :| 0 <= i < |items| && PathsOf(items)[i] == roots[k];
      assert items[i].path <= p;
    }
    if UnderItem(items, p) {
      var i :| 0 <= i < |items| && items[i].path <= p;
      assert PathsOf(items)[i] in PathsOf(items);
      var root := RootsCover(roots, PathsOf(items), items[i].path);
      var k :| 0 <= k < |roots| && roots[k] == root;
    }
  }

  /** The rows that are newly in the trash, in order. */
  function NewlyTrashed(was: seq<FileRecord>, rows: seq<FileRecord>, n: nat): seq<FileRecord>
    requires n <= |was| == |rows|
  {
    if n == 0 then []
    else NewlyTrashed(was, rows, n - 1) + if was[n - 1].trash.None? && rows[n - 1].trash.Some? then [rows[n - 1]] else []
  }

  lemma {:induction false} TrashedAreNew(roots: seq<Path>, ids: map<Path, string>, now: nat, was: seq<FileRecord>, rows: seq<FileRecord>, n: nat)
    requires forall k | 0 <= k < |roots| :: roots[k] in ids
    requires n <= |was| == |rows| && forall i | 0 <= i < |was| :: rows[i] == TrashedRecord(roots, ids, now, was[i])
    ensures TrashedRows(roots, ids, now, was, n) == NewlyTrashed(was, rows, n)
  {
    if n > 0 {
      TrashedAreNew(roots, ids, now, was, rows, n - 1);
    }
  }

  /** Those of the first n rows that trashing the roots changes, as it leaves them. */
  function TrashedRows(roots: seq<Path>, ids: map<Path, string>, now: nat, records: seq<FileRecord>, n: nat): seq<FileRecord>
    requires n <= |records| && forall k | 0 <= k < |roots| :: roots[k] in ids
  {
    if n == 0 then []
    else TrashedRows(roots, ids, now, records, n - 1) +
         if records[n - 1].trash.None? && UnderOne(roots, records[n - 1].path) then [TrashedRecord(roots, ids, now, records[n - 1])] else []
  }

  /** Marks every active row inside a root, and returns those rows. */
  method MarkTrashed(a: array<FileRecord>, roots: seq<Path>, ids: map<Path, string>, now: nat) returns (rows: seq<FileRecord>)
    requires forall k | 0 <= k < |roots| :: roots[k] in ids
    modifies a
    ensures forall i | 0 <= i < a.Length :: a[i] == TrashedRecord(roots, ids, now, old(a[i]))
    ensures rows == TrashedRows(roots, ids, now, old(a[..]), a.Length)
  {
    ghost var records := a[..];
    rows := [];
    for i := 0 to a.Length
      invariant forall j | 0 <= j < i :: a[j] == TrashedRecord(roots, ids, now, records[j])
      invariant forall j | i <= j < a.Length :: a[j] == records[j]
      invariant rows == TrashedRows(roots, ids, now, records, i)
    {
      if a[i].trash.None? {
        var k := FindRoot(roots, a[i].path);
        if k.Some? {
          var root := roots[k.value];
          a[i] := a[i].(trash := Some(Trash(now, ids[root], a[i].path == root, false)), updatedAt := now);
          rows := rows + [a[i]];
        }
      }
    }
  }

  /** trashRecords: every active row inside one of the items' roots goes into that root's trash,
      and those rows are returned. It succeeds exactly if every item has an id, the paths have
      roots, and each root is active; then the first root that is not decides. */
  method TrashRecords(a: array<FileRecord>, items: seq<TrashItem>, now: nat) returns (r: Result<seq<FileRecord>, TrashError>, ghost roots: seq<Path>)
    modifies a
    ensures r.Err? ==> a[..] == old(a[..])
    ensures r == Err(NoId) <==> exists i | 0 <= i < |items| :: items[i].id == ""
    ensures r.Err? && r.error.BadPaths? <==> r != Err(NoId) && (items == [] || [] in PathsOf(items))
    ensures r.Ok? || r.error.Unknown? ==>
              && RootsOf(roots, PathsOf(items)) && (forall k | 0 <= k < |roots| :: roots[k] in IdsOf(items, |items|))
              && match FirstInactive(roots, ActivePaths(old(a[..])))
                 case Some(p) => r == Err(Unknown(p))
                 case None =>
                   && r == Ok(TrashedRows(roots, IdsOf(items, |items|), now, old(a[..]), a.Length))
                   && forall i | 0 <= i < a.Length :: a[i] == TrashedRecord(roots, IdsOf(items, |items|), now, old(a[i]))
    ensures r.Ok? || r.error.NoId? || r.error.BadPaths? || r.error.Unknown?
    ensures r.Ok? ==> forall i | 0 <= i < a.Length ::
              if old(a[i]).trash.None? && UnderItem(items, old(a[i]).path) then TrashedBy(items, now, old(a[i]), a[i]) else a[i] == old(a[i])
    ensures r.Ok? ==> r.value == NewlyTrashed(old(a[..]), a[..], a.Length)
  {
    roots := [];
    var missing, ids := CollectIds(items);
    if missing {
      return Err(NoId), roots;
    }
    var normal := NormalizeRoots(PathsOf(items));
    if normal.Err? {
      return Err(BadPaths(normal.error)), roots;
    }
    roots := normal.value;
    RootsHaveIds(items, roots);
    var active := CollectActive(a);
    for k := 0 to |normal.value|
      invariant FirstInactive(roots, active) == FirstInactive(roots[k..], active)
    {
      if normal.value[k] !in active {
        return Err(Unknown(normal.value[k])), roots;
      }
      assert roots[k..][1..] == roots[k + 1..];
    }
    ghost var was := a[..];
    var rows := MarkTrashed(a, normal.value, ids, now);
    r := Ok(rows);
    forall i | 0 <= i < a.Length
      ensures if was[i].trash.None? && UnderItem(items, was[i].path) then TrashedBy(items, now, was[i], a[i]) else a[i] == was[i]
    {
      RowTrashedBy(items, roots, now, was[i]);
    }
    TrashedAreNew(roots, ids, now, was, a[..], a.Length);
  }

  /** The first of the roots that is no active path. */
  function FirstInactive(roots: seq<Path>, active: set<Path>): (p: Option<Path>)
    ensures p.None? <==> forall k | 0 <= k < |roots| :: roots[k] in active
  {
    if roots == [] then None
    else if roots[0] !in active then Some(roots[0])
    else
      assert forall k | 1 <= k < |roots| :: roots[k] == roots[1..][k - 1];
      FirstInactive(roots[1..], active)
  }

  // ---- Restoring ----

  predicate Wanted(r: FileRecord, ids: set<string>) {
    r.trash.Some? && r.trash.value.id in ids
  }

  /** What stops the restore at row k: its cleanup has begun, its path is taken, or another
      trash id restores to the same path. */
  function ProblemAt(records: seq<FileRecord>, ids: set<string>, k: nat): Option<TrashError>
    requires k < |records|
  {
    var r := records[k];
    if !Wanted(r, ids) then None
    else if r.trash.value.deleting then Some(Busy)
    else if r.path in ActivePaths(records) then Some(Conflict(r.path))
    else if exists j | 0 <= j < k :: Wanted(records[j], ids) && records[j].path == r.path && records[j].trash.value.id != r.trash.value.id
    then Some(Conflict(r.path))
    else None
  }

  function FirstProblemFrom(records: seq<FileRecord>, ids: set<string>, k: nat): Option<TrashError>
    requires k <= |records|
    decreases |records| - k
  {
    if k == |records| then None
    else if ProblemAt(records, ids, k).Some? then ProblemAt(records, ids, k)
    else FirstProblemFrom(records, ids, k + 1)
  }

  predicate AllFound(records: seq<FileRecord>, ids: set<string>) {
    forall id | id in ids :: exists r | r in records :: r.trash.Some? && r.trash.value.id == id
  }

  function RestoreVerdict(records: seq<FileRecord>, ids: set<string>): Option<TrashError> {
    if ids == {} then Some(NoId)
    else if FirstProblemFrom(records, ids, 0).Some? then FirstProblemFrom(records, ids, 0)
    else if !AllFound(records, ids) then Some(UnknownId)
    else None
  }

  function RestoredRecord(ids: set<string>, now: nat, r: FileRecord): FileRecord {
    if Wanted(r, ids) then r.(trash := None, updatedAt := now) else r
  }

  /** The rows seen so far: the ids found, and for each path to be restored its id. */
  ghost predicate Seen(records: seq<FileRecord>, ids: set<string>, k: nat, found: set<string>, targets: map<Path, string>)
    requires k <= |records|
  {
    && (forall id :: id in found <==> exists j | 0 <= j < k :: Wanted(records[j], ids) && records[j].trash.value.id == id)
    && (forall j | 0 <= j < k && Wanted(records[j], ids) :: records[j].path in targets && targets[records[j].path] == records[j].trash.value.id)
    && (forall p | p in targets :: exists j | 0 <= j < k :: Wanted(records[j], ids) && records[j].path == p)
  }

  method CheckRestore(a: array<FileRecord>, ids: set<string>) returns (problem: Option<TrashError>, found: set<string>)
    ensures problem == FirstProblemFrom(a[..], ids, 0)
    ensures problem.None? ==> forall id :: id in found <==> exists j | 0 <= j < a.Length :: Wanted(a[..][j], ids) && a[..][j].trash.value.id == id
  {
    var active := CollectActive(a);
    var targets: map<Path, string>;
    problem, found, targets := None, {}, map[];
    for i := 0 to a.Length
      invariant problem.None? && FirstProblemFrom(a[..], ids, 0) == FirstProblemFrom(a[..], ids, i)
      invariant Seen(a[..], ids, i, found, targets)
    {
      SeenProblem(a[..], ids, i, found, targets);
      if a[i].trash.Some? && a[i].trash.value.id in ids {
        if a[i].trash.value.deleting {
          return Some(Busy), found;
        }
        found := found + {a[i].trash.value.id};
        if a[i].path in active || (a[i].path in targets && targets[a[i].path] != a[i].trash.value.id) {
          return Some(Conflict(a[i].path)), found;
        }
        targets := targets[a[i].path := a[i].trash.value.id];
      }
    }
  }

  lemma SeenProblem(records: seq<FileRecord>, ids: set<string>, k: nat, found: set<string>, targets: map<Path, string>)
    requires k < |records| && Seen(records, ids, k, found, targets)
    ensures var r := records[k];
      ProblemAt(records, ids, k) ==
      if !Wanted(r, ids) then None
      else if r.trash.value.deleting then Some(Busy)
      else if r.path in ActivePaths(records) || (r.path in targets && targets[r.path] != r.trash.value.id) then Some(Conflict(r.path))
      else None
  {
  }

  /** Those of the first n rows that restoring the ids changes, as it leaves them. */
  function RestoredRows(ids: set<string>, now: nat, records: seq<FileRecord>, n: nat): seq<FileRecord>
    requires n <= |records|
  {
    if n == 0 then []
    else RestoredRows(ids, now, records, n - 1) + if Wanted(records[n - 1], ids) then [RestoredRecord(ids, now, records[n - 1])] else []
  }

  /** The rows that are no longer in the trash, in order. */
  function NewlyRestored(was: seq<FileRecord>, rows: seq<FileRecord>, n: nat): seq<FileRecord>
    requires n <= |was| == |rows|
  {
    if n == 0 then []
    else NewlyRestored(was, rows, n - 1) + if was[n - 1].trash.Some? && rows[n - 1].trash.None? then [rows[n - 1]] else []
  }

  lemma {:induction false} RestoredAreNew(ids: set<string>, now: nat, was: seq<FileRecord>, rows: seq<FileRecord>, n: nat)
    requires n <= |was| == |rows| && forall i | 0 <= i < |was| :: rows[i] == RestoredRecord(ids, now, was[i])
    ensures RestoredRows(ids, now, was, n) == NewlyRestored(was, rows, n)
  {
    if n > 0 {
      RestoredAreNew(ids, now, was, rows, n - 1);
    }
  }

  /** The row is asked for and cannot be restored: it is being deleted, its path is taken, or an
      earlier row asked for has its path under another id. */
  predicate Troubled(records: seq<FileRecord>, ids: set<string>, k: nat)
    requires k < |records|
  {
    && records[k].trash.Some? && records[k].trash.value.id in ids
    && (|| records[k].trash.value.deleting
        || (exists j | 0 <= j < |records| :: records[j].trash.None? && records[j].path == records[k].path)
        || (exists j | 0 <= j < k :: records[j].trash.Some? && records[j].trash.value.id in ids - {records[k].trash.value.id}
                                     && records[j].path == records[k].path))
  }

  lemma TroubledIsProblem(records: seq<FileRecord>, ids: set<string>, k: nat)
    requires k < |records|
    ensures ProblemAt(records, ids, k).Some? <==> Troubled(records, ids, k)
    ensures Troubled(records, ids, k) ==>
              ProblemAt(records, ids, k) == Some(if records[k].trash.value.deleting then Busy else Conflict(records[k].path))
  {
    assert records[k].path in ActivePaths(records) <==> exists j | 0 <= j < |records| :: records[j].trash.None? && records[j].path == records[k].path by {
      if j :| 0 <= j < |records| && records[j].trash.None? && records[j].path == records[k].path {
        assert records[j] in records;
      }
    }
  }

  /** Trash can be restored exactly if something is asked for, there is a row of every id, and no
      row is in trouble; otherwise the first row in trouble decides, and without one an id is
      missing. */
  lemma RestoreVerdictIs(records: seq<FileRecord>, ids: set<string>)
    ensures RestoreVerdict(records, ids) == Some(NoId) <==> ids == {}
    ensures RestoreVerdict(records, ids) == None <==> ids != {} && AllFound(records, ids) && NoneTroubled(records, ids)
    ensures RestoreVerdict(records, ids) == Some(UnknownId) <==> ids != {} && !AllFound(records, ids) && NoneTroubled(records, ids)
    ensures ids != {} && !NoneTroubled(records, ids) ==> exists k | 0 <= k < |records| :: Decides(records, ids, k)
  {
    if FirstProblemFrom(records, ids, 0).Some? {
      var k := FirstTrouble(records, ids, 0);
      forall j | 0 <= j <= k ensures ProblemAt(records, ids, j).Some? <==> Troubled(records, ids, j) {
        TroubledIsProblem(records, ids, j);
      }
      TroubledIsProblem(records, ids, k);
      assert ids != {} ==> Decides(records, ids, k);
    } else {
      forall k | 0 <= k < |records| ensures !Troubled(records, ids, k) {
        NoProblemAt(records, ids, 0, k);
        TroubledIsProblem(records, ids, k);
      }
    }
  }

  predicate NoneTroubled(records: seq<FileRecord>, ids: set<string>) {
    forall k | 0 <= k < |records| :: !Troubled(records, ids, k)
  }

  /** The row is the first one in trouble, and the verdict says how. */
  predicate Decides(records: seq<FileRecord>, ids: set<string>, k: nat)
    requires k < |records|
  {
    && Troubled(records, ids, k) && (forall j | 0 <= j < k :: !Troubled(records, ids, j))
    && RestoreVerdict(records, ids) == Some(if records[k].trash.value.deleting then Busy else Conflict(records[k].path))
  }

  lemma {:induction false} FirstTrouble(records: seq<FileRecord>, ids: set<string>, from: nat) returns (k: nat)
    requires from <= |records| && FirstProblemFrom(records, ids, from).Some?
    ensures from <= k < |records| && FirstProblemFrom(records, ids, from) == ProblemAt(records, ids, k) && ProblemAt(records, ids, k).Some?
    ensures forall j | from <= j < k :: ProblemAt(records, ids, j).None?
    decreases |records| - from
  {
    k := from;
    if ProblemAt(records, ids, from).None? {
      k := FirstTrouble(records, ids, from + 1);
    }
  }

  method MarkRestored(a: array<FileRecord>, ids: set<string>, now: nat) returns (rows: seq<FileRecord>)
    modifies a
    ensures forall i | 0 <= i < a.Length :: a[i] == RestoredRecord(ids, now, old(a[i]))
    ensures rows == RestoredRows(ids, now, old(a[..]), a.Length)
  {
    ghost var records := a[..];
    rows := [];
    for i := 0 to a.Length
      invariant forall j | 0 <= j < i :: a[j] == RestoredRecord(ids, now, records[j])
      invariant forall j | i <= j < a.Length :: a[j] == records[j]
      invariant rows == RestoredRows(ids, now, records, i)
    {
      if a[i].trash.Some? && a[i].trash.value.id in ids {
        a[i] := a[i].(trash := None, updatedAt := now);
        rows := rows + [a[i]];
      }
    }
  }

  /** restoreRecords: all rows of the wanted trash ids, which are returned, or none. */
  method RestoreRecords(a: array<FileRecord>, ids: set<string>, now: nat) returns (r: Result<seq<FileRecord>, TrashError>)
    modifies a
    ensures match RestoreVerdict(old(a[..]), ids)
      case Some(error) => r == Err(error) && a[..] == old(a[..])
      case None =>
        && r == Ok(RestoredRows(ids, now, old(a[..]), a.Length))
        && forall i | 0 <= i < a.Length :: a[i] == RestoredRecord(ids, now, old(a[i]))
    ensures r.Ok? ==> r.value == NewlyRestored(old(a[..]), a[..], a.Length)
  {
    if ids == {} {
      return Err(NoId);
    }
    var problem, found := CheckRestore(a, ids);
    if problem.Some? {
      return Err(problem.value);
    }
    FoundAll(a[..], ids, found);
    if !(ids <= found) {
      return Err(UnknownId);
    }
    ghost var was := a[..];
    var rows := MarkRestored(a, ids, now);
    r := Ok(rows);
    RestoredAreNew(ids, now, was, a[..], a.Length);
  }

  lemma FoundAll(records: seq<FileRecord>, ids: set<string>, found: set<string>)
    requires forall id :: id in found <==> exists j | 0 <= j < |records| :: Wanted(records[j], ids) && records[j].trash.value.id == id
    ensures ids <= found <==> AllFound(records, ids)
  {
    forall id | id in ids && AllFound(records, ids) ensures id in found {
      var r :| r in records && r.trash.Some? && r.trash.value.id == id;
      var j :| 0 <= j < |records| && records[j] == r;
      assert Wanted(records[j], ids);
    }
  }

  // ---- What restoring guarantees ----

  predicate ActiveUnique(records: seq<FileRecord>) {
    forall i, j | 0 <= i < j < |records| && records[i].trash.None? && records[j].trash.None? :: records[i].path != records[j].path
  }

  /** No trash id holds two rows of one path. */
  predicate TrashUnique(records: seq<FileRecord>, ids: set<string>) {
    forall i, j | 0 <= i < j < |records| && Wanted(records[i], ids) && Wanted(records[j], ids)
                  && records[i].trash.value.id == records[j].trash.value.id :: records[i].path != records[j].path
  }

  predicate RestoredTo(records: seq<FileRecord>, records': seq<FileRecord>, ids: set<string>, now: nat) {
    |records'| == |records| && forall i | 0 <= i < |records| :: records'[i] == RestoredRecord(ids, now, records[i])
  }

  lemma {:induction false} NoProblemAt(records: seq<FileRecord>, ids: set<string>, k: nat, i: nat)
    requires k <= i < |records| && FirstProblemFrom(records, ids, k).None?
    ensures ProblemAt(records, ids, i).None?
    decreases i - k
  {
    if k < i {
      NoProblemAt(records, ids, k + 1, i);
    }
  }

  lemma RestoredPair(records: seq<FileRecord>, ids: set<string>, i: nat, j: nat)
    requires RestoreVerdict(records, ids).None? && i < j < |records| && ActiveUnique(records)
    requires TrashUnique(records, ids) && records[i].path == records[j].path
    ensures (records[i].trash.Some? && !Wanted(records[i], ids)) || (records[j].trash.Some? && !Wanted(records[j], ids))
  {
    NoProblemAt(records, ids, 0, i);
    NoProblemAt(records, ids, 0, j);
    assert records[i].trash.None? ==> records[i].path in ActivePaths(records);
    assert records[j].trash.None? ==> records[j].path in ActivePaths(records);
  }

  /** A restore that succeeds keeps active paths unique exactly when none of its trash ids
      holds two rows of one path; the check compares ids, not rows. */
  lemma RestoreKeepsUnique(records: seq<FileRecord>, records': seq<FileRecord>, ids: set<string>, now: nat)
    requires RestoreVerdict(records, ids).None? && RestoredTo(records, records', ids, now)
    ensures ActiveUnique(records') <==> ActiveUnique(records) && TrashUnique(records, ids)
  {
    if ActiveUnique(records) && TrashUnique(records, ids) {
      forall i, j | 0 <= i < j < |records'| && records'[i].trash.None? && records'[j].trash.None?
        ensures records'[i].path != records'[j].path
      {
        if records[i].path == records[j].path {
          RestoredPair(records, ids, i, j);
        }
      }
    }
    if ActiveUnique(records') {
      forall i, j | 0 <= i < j < |records| && records[i].trash.None? && records[j].trash.None?
        ensures records[i].path != records[j].path
      {
        assert records'[i] == records[i] && records'[j] == records[j];
      }
      forall i, j | 0 <= i < j < |records| && Wanted(records[i], ids) && Wanted(records[j], ids)
                    && records[i].trash.value.id == records[j].trash.value.id
        ensures records[i].path != records[j].path
      {
        assert records'[i].trash.None? && records'[j].trash.None?;
      }
    }
  }

  // ---- Trash, then restore ----

  predicate TrashedTo(records: seq<FileRecord>, records': seq<FileRecord>, roots: seq<Path>, ids: map<Path, string>, now: nat)
    requires forall k | 0 <= k < |roots| :: roots[k] in ids
  {
    |records'| == |records| && forall i | 0 <= i < |records| :: records'[i] == TrashedRecord(roots, ids, now, records[i])
  }

  /** The ids the roots are trashed under. */
  function TrashIds(roots: seq<Path>, ids: map<Path, string>): set<string>
    requires forall k | 0 <= k < |roots| :: roots[k] in ids
  {
    set k | 0 <= k < |roots| :: ids[roots[k]]
  }

  /** No row is in the trash under one of these ids yet. */
  predicate FreshIds(records: seq<FileRecord>, wanted: set<string>) {
    forall r | r in records :: !Wanted(r, wanted)
  }

  lemma TrashedWanted(records: seq<FileRecord>, records': seq<FileRecord>, roots: seq<Path>, ids: map<Path, string>, now: nat, i: nat)
    requires forall k | 0 <= k < |roots| :: roots[k] in ids
    requires TrashedTo(records, records', roots, ids, now) && FreshIds(records, TrashIds(roots, ids)) && i < |records|
    ensures Wanted(records'[i], TrashIds(roots, ids)) <==> records[i].trash.None? && UnderOne(roots, records[i].path)
    ensures Wanted(records'[i], TrashIds(roots, ids)) ==> !records'[i].trash.value.deleting
    ensures records'[i].path == records[i].path
    ensures !Wanted(records'[i], TrashIds(roots, ids)) ==> records'[i] == records[i]
  {
    assert records[i] in records;
    if records[i].trash.None? && UnderOne(roots, records[i].path) {
      var k := RootOf(roots, records[i].path);
      assert ids[roots[k]] in TrashIds(roots, ids);
    }
  }

  lemma TrashedProblem(records: seq<FileRecord>, records': seq<FileRecord>, roots: seq<Path>, ids: map<Path, string>, now: nat, i: nat)
    requires forall k | 0 <= k < |roots| :: roots[k] in ids
    requires TrashedTo(records, records', roots, ids, now) && FreshIds(records, TrashIds(roots, ids)) && i < |records|
    requires ActiveUnique(records)
    ensures ProblemAt(records', TrashIds(roots, ids), i).None?
  {
    var wanted := TrashIds(roots, ids);
    TrashedWanted(records, records', roots, ids, now, i);
    if Wanted(records'[i], wanted) {
      forall r | r in records' && r.trash.None? ensures r.path != records'[i].path {
        var j :| 0 <= j < |records'| && records'[j] == r;
        TrashedWanted(records, records', roots, ids, now, j);
      }
      forall j | 0 <= j < i && Wanted(records'[j], wanted) ensures records'[j].path != records'[i].path {
        TrashedWanted(records, records', roots, ids, now, j);
      }
    }
  }

  lemma {:induction false} NoProblemsFrom(records: seq<FileRecord>, ids: set<string>, k: nat)
    requires k <= |records| && forall i | k <= i < |records| :: ProblemAt(records, ids, i).None?
    ensures FirstProblemFrom(records, ids, k).None?
    decreases |records| - k
  {
    if k < |records| {
      NoProblemsFrom(records, ids, k + 1);
    }
  }

  lemma TrashedFound(records: seq<FileRecord>, records': seq<FileRecord>, roots: seq<Path>, ids: map<Path, string>, now: nat)
    requires forall k | 0 <= k < |roots| :: roots[k] in ids
    requires TrashedTo(records, records', roots, ids, now) && FreshIds(records, TrashIds(roots, ids)) && Antichain(roots)
    requires forall k | 0 <= k < |roots| :: roots[k] in ActivePaths(records)
    ensures AllFound(records', TrashIds(roots, ids))
  {
    forall id | id in TrashIds(roots, ids) ensures exists r | r in records' :: r.trash.Some? && r.trash.value.id == id {
      var k :| 0 <= k < |roots| && ids[roots[k]] == id;
      assert roots[k] in ActivePaths(records);
      var i :| 0 <= i < |records| && records[i].trash.None? && records[i].path == roots[k];
      FirstRoot(roots, roots[k], k);
      assert records'[i] in records';
    }
  }

  /** Restoring, right after trashing any roots under fresh ids, exactly those ids succeeds and
      gives back every row as it was, but for the time of its last change. */
  lemma TrashThenRestore(records: seq<FileRecord>, trashed: seq<FileRecord>, roots: seq<Path>, ids: map<Path, string>, now: nat, later: nat)
    requires forall k | 0 <= k < |roots| :: roots[k] in ids
    requires roots != [] && Antichain(roots) && ActiveUnique(records)
    requires forall k | 0 <= k < |roots| :: roots[k] in ActivePaths(records)
    requires TrashedTo(records, trashed, roots, ids, now) && FreshIds(records, TrashIds(roots, ids))
    ensures RestoreVerdict(trashed, TrashIds(roots, ids)).None?
    ensures forall i | 0 <= i < |records| ::
              RestoredRecord(TrashIds(roots, ids), later, trashed[i]).(updatedAt := 0) == records[i].(updatedAt := 0)
  {
    MayRestore(records, trashed, roots, ids, now);
    forall i | 0 <= i < |records|
      ensures RestoredRecord(TrashIds(roots, ids), later, trashed[i]).(updatedAt := 0) == records[i].(updatedAt := 0)
    {
      TrashedWanted(records, trashed, roots, ids, now, i);
    }
  }

  /** Nothing stands in the way of restoring what has just been trashed. */
  lemma MayRestore(records: seq<FileRecord>, trashed: seq<FileRecord>, roots: seq<Path>, ids: map<Path, string>, now: nat)
    requires forall k | 0 <= k < |roots| :: roots[k] in ids
    requires roots != [] && Antichain(roots) && ActiveUnique(records)
    requires forall k | 0 <= k < |roots| :: roots[k] in ActivePaths(records)
    requires TrashedTo(records, trashed, roots, ids, now) && FreshIds(records, TrashIds(roots, ids))
    ensures RestoreVerdict(trashed, TrashIds(roots, ids)).None?
  {
    var wanted := TrashIds(roots, ids);
    assert ids[roots[0]] in wanted;
    forall i | 0 <= i < |trashed| ensures ProblemAt(trashed, wanted, i).None? {
      TrashedProblem(records, trashed, roots, ids, now, i);
    }
    NoProblemsFrom(trashed, wanted, 0);
    TrashedFound(records, trashed, roots, ids, now);
  }

  lemma UnderSingle(p: Path, q: Path)
    ensures UnderOne([p], q) <==> p <= q
  {
    assert [p][0] == p;
  }

  /** Trashing one path. */
  lemma TrashedOne(records: seq<FileRecord>, trashed: seq<FileRecord>, p: Path, id: string, now: nat, i: nat)
    requires TrashedTo(records, trashed, [p], map[p := id], now) && i < |records|
    ensures trashed[i].path == records[i].path
    ensures trashed[i].trash.None? <==> records[i].trash.None? && !(p <= records[i].path)
    ensures trashed[i].trash.None? || records[i].trash.Some? ==> trashed[i] == records[i]
    ensures records[i].trash.None? && p <= records[i].path ==> !trashed[i].trash.value.deleting && trashed[i].trash.value.id == id
  {
    UnderSingle(p, records[i].path);
  }

  /** No row is active below the path, and those trashed under the id may be restored. */
  predicate Cleared(records: seq<FileRecord>, p: Path, id: string) {
    forall r | r in records :: (r.trash.None? ==> !(p <= r.path)) && (Wanted(r, {id}) ==> p <= r.path && !r.trash.value.deleting)
  }

  lemma ClearedOnce(records: seq<FileRecord>, trashed: seq<FileRecord>, p: Path, id: string, now: nat)
    requires forall r | r in records :: Wanted(r, {id}) ==> p <= r.path && !r.trash.value.deleting
    requires TrashedTo(records, trashed, [p], map[p := id], now)
    ensures Cleared(trashed, p, id)
  {
    forall r | r in trashed ensures (r.trash.None? ==> !(p <= r.path)) && (Wanted(r, {id}) ==> p <= r.path && !r.trash.value.deleting) {
      var i :| 0 <= i < |trashed| && trashed[i] == r;
      TrashedOne(records, trashed, p, id, now, i);
      assert records[i] in records;
    }
  }

  lemma ClearedRestores(records: seq<FileRecord>, p: Path, id: string)
    requires Cleared(records, p, id) && exists r | r in records :: Wanted(r, {id})
    ensures RestoreVerdict(records, {id}).None?
  {
    forall k | 0 <= k < |records| ensures ProblemAt(records, {id}, k).None? {
      assert records[k] in records;
    }
    NoProblemsFrom(records, {id}, 0);
    assert {id} != {};
  }

  lemma StillUnique(records: seq<FileRecord>, trashed: seq<FileRecord>, p: Path, id: string, now: nat)
    requires ActiveUnique(records) && TrashedTo(records, trashed, [p], map[p := id], now)
    ensures ActiveUnique(trashed)
  {
    forall i, j | 0 <= i < j < |trashed| && trashed[i].trash.None? && trashed[j].trash.None? ensures trashed[i].path != trashed[j].path {
      TrashedOne(records, trashed, p, id, now, i);
      TrashedOne(records, trashed, p, id, now, j);
    }
  }

  lemma UniqueWith(records: seq<FileRecord>, r: FileRecord, id: string)
    requires ActiveUnique(records) && Cleared(records, r.path, id)
    ensures ActiveUnique(records + [r])
  {
    forall i | 0 <= i < |records| && records[i].trash.None? ensures records[i].path != r.path {
      assert records[i] in records;
    }
  }

  /** The failing case: a path trashed twice under one id, with a new row at it in between. Its
      restore succeeds, and leaves two active rows of the path. */
  lemma TrashedTwice(records: seq<FileRecord>, once: seq<FileRecord>, again: FileRecord, twice: seq<FileRecord>, restored: seq<FileRecord>,
                     id: string, now: nat, later: nat)
    requires ActiveUnique(records) && FreshIds(records, {id}) && again.trash.None? && again.path in ActivePaths(records)
    requires TrashedTo(records, once, [again.path], map[again.path := id], now)
    requires TrashedTo(once + [again], twice, [again.path], map[again.path := id], later)
    requires RestoredTo(twice, restored, {id}, later)
    ensures ActiveUnique(once + [again]) && ActiveUnique(twice)
    ensures RestoreVerdict(twice, {id}).None? && !ActiveUnique(restored)
  {
    var p := again.path;
    ClearedOnce(records, once, p, id, now);
    StillUnique(records, once, p, id, now);
    UniqueWith(once, again, id);
    ClearedOnce(once + [again], twice, p, id, later);
    StillUnique(once + [again], twice, p, id, later);
    var i :| 0 <= i < |records| && records[i].trash.None? && records[i].path == p;
    TrashedOne(records, once, p, id, now, i);
    assert (once + [again])[i] == once[i];
    TrashedOne(once + [again], twice, p, id, later, i);
    TrashedOne(once + [again], twice, p, id, later, |once|);
    assert Wanted(twice[i], {id}) && Wanted(twice[|once|], {id}) && twice[i] in twice;
    ClearedRestores(twice, p, id);
    assert !TrashUnique(twice, {id});
    RestoreKeepsUnique(twice, restored, {id}, later);
  }
}
