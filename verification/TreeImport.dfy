/** The import of a snapshot into an empty V4 namespace, and the export that reads it back. */
module TreeImport {
  import opened Wrappers
  import opened Paths
  import opened FlatTree
  import opened NodeTree
  import opened NodeSpace
  import opened NodeNamespace
  import opened NodeAccounts
  import opened NodeMutations
  import opened Summaries
  import opened TreeSummaries
  import opened SummaryUpkeep

  datatype ImportError = InvalidId(id: nat) | DuplicateId(id: nat) | NoParent(path: Path) | DuplicateEntry(path: Path)

  function ItemOf(r: Entry): Item {
    Item(Loc(None, r.path), r.node)
  }

  /** The forest that a list of active records describes. */
  function ForestOf(records: seq<Entry>): set<Item> {
    set r | r in records :: ItemOf(r)
  }

  predicate IdsGood(records: seq<Entry>) {
    && (forall r | r in records :: r.node.id > 0)
    && forall i, j | 0 <= i < j < |records| :: records[i].node.id != records[j].node.id
  }

  predicate PathsGood(records: seq<Entry>) {
    forall i, j | 0 <= i < j < |records| :: records[i].path != records[j].path
  }

  predicate HasParent(records: seq<Entry>, p: Path)
    requires p != []
  {
    Parent(p) == [] || exists q | q in records :: q.path == Parent(p) && q.node.isDirectory
  }

  predicate ParentsGood(records: seq<Entry>)
    requires NoRoot(records)
  {
    forall r | r in records :: HasParent(records, r.path)
  }

  predicate NoRoot(records: seq<Entry>) {
    forall r | r in records :: r.path != []
  }

  /** The snapshots that can be imported. */
  predicate Importable(records: seq<Entry>) {
    NoRoot(records) && IdsGood(records) && PathsGood(records) && ParentsGood(records)
  }

  function Depth(r: Entry): nat {
    |r.path|
  }

  method CheckIds(records: seq<Entry>) returns (error: Option<ImportError>)
    ensures error.None? <==> IdsGood(records)
    ensures error.Some? ==> error.value.InvalidId? || error.value.DuplicateId?
  {
    var seen: set<nat> := {};
    for k := 0 to |records|
      invariant IdsGood(records[..k])
      invariant forall id :: id in seen <==> exists j | 0 <= j < k :: records[j].node.id == id
    {
      var id := records[k].node.id;
      if id == 0 {
        assert records[k] in records;
        return Some(InvalidId(id));
      }
      if id in seen {
        return Some(DuplicateId(id));
      }
      IdsNext(records, k);
      seen := seen + {id};
    }
    assert records[..|records|] == records;
    error := None;
  }

  lemma IdsNext(records: seq<Entry>, k: nat)
    requires k < |records| && IdsGood(records[..k]) && records[k].node.id > 0
    requires forall j | 0 <= j < k :: records[j].node.id != records[k].node.id
    ensures IdsGood(records[..k + 1])
  {
    forall i, j | 0 <= i < j < k + 1 ensures records[i].node.id != records[j].node.id {
      if j < k {
        assert records[..k][i].node.id != records[..k][j].node.id;
      }
    }
    forall r | r in records[..k + 1] ensures r.node.id > 0 {
      assert r in records[..k] || r == records[k];
    }
  }

  /** What the import has built after k records. */
  ghost predicate Built(t: Tree, sorted: seq<Entry>, k: nat, nodesByPath: map<Path, Node>)
    reads t
    requires k <= |sorted|
  {
    && t.Valid() && t.forest == ForestOf(sorted[..k])
    && t.graph.trash == map[]
    && PathsGood(sorted[..k]) && ByPath(sorted[..k], nodesByPath)
  }

  ghost predicate ByPath(records: seq<Entry>, nodesByPath: map<Path, Node>) {
    && [] in nodesByPath && nodesByPath[[]] == RootNode
    && (forall p | p in nodesByPath && p != [] :: Entry(p, nodesByPath[p]) in records)
    && (forall r | r in records :: r.path in nodesByPath)
  }

  /** A parent, if there is one, comes before its children. */
  lemma ParentEarlier(sorted: seq<Entry>, k: nat)
    requires k < |sorted| && ByKey(sorted, Depth) && sorted[k].path != [] && HasParent(sorted, sorted[k].path)
    ensures HasParent(sorted[..k], sorted[k].path)
  {
    var p := Parent(sorted[k].path);
    if p != [] {
      var q :| q in sorted && q.path == p && q.node.isDirectory;
      var j :| 0 <= j < |sorted| && sorted[j] == q;
      assert Depth(sorted[j]) < Depth(sorted[k]);
      assert !(k < j) && j != k;
      assert sorted[..k][j] == q;
    }
  }

  /** Inserts one record among those inserted so far. */
  method InsertRecord(t: Tree, ghost sorted: seq<Entry>, ghost k: nat, nodesByPath: map<Path, Node>, r: Entry)
    returns (error: Option<ImportError>, nodesByPath': map<Path, Node>)
    requires k < |sorted| && r == sorted[k] && NoRoot(sorted) && IdsGood(sorted) && ByKey(sorted, Depth)
    requires Built(t, sorted, k, nodesByPath)
    modifies t
    ensures error.None? ==> Built(t, sorted, k + 1, nodesByPath') && HasParent(sorted, r.path)
    ensures error.Some? ==> error == Some(NoParent(Parent(r.path))) || error == Some(DuplicateEntry(r.path))
    ensures error.Some? && error.value.NoParent? ==> !HasParent(sorted, r.path)
    ensures error.Some? && error.value.DuplicateEntry? ==> !PathsGood(sorted)
  {
    nodesByPath' := nodesByPath;
    var parentPath, name := Parent(r.path), Base(r.path);
    if parentPath !in nodesByPath || !nodesByPath[parentPath].isDirectory {
      NoParentListed(sorted, k, nodesByPath);
      return Some(NoParent(parentPath)), nodesByPath';
    }
    var parent := nodesByPath[parentPath];
    ghost var l := Loc(None, r.path);
    ParentLeads(t.forest, sorted, k, nodesByPath);
    LookupEdge(t.graph, t.forest, ShardEdge(parent.id, name), l);
    FoundIsItem(t.graph, t.forest, l);
    if Child(t.graph, parent.id, name).Some? {
      OccupiedTwice(t.forest, sorted, k);
      return Some(DuplicateEntry(r.path)), nodesByPath';
    }
    nodesByPath' := nodesByPath[r.path := r.node];
    PathsNext(sorted, k, nodesByPath, t.forest);
    PutRecord(t, parent.id, name, r.node, l);
    ForestNext(sorted, k);
    error := None;
  }

  lemma NoParentListed(sorted: seq<Entry>, k: nat, nodesByPath: map<Path, Node>)
    requires k < |sorted| && NoRoot(sorted) && ByKey(sorted, Depth)
    requires ByPath(sorted[..k], nodesByPath) && PathsGood(sorted[..k])
    requires var p := Parent(sorted[k].path); p !in nodesByPath || !nodesByPath[p].isDirectory
    ensures !HasParent(sorted, sorted[k].path)
  {
    if HasParent(sorted, sorted[k].path) {
      ParentEarlier(sorted, k);
    }
  }

  lemma SameRecord(records: seq<Entry>, q: Entry, r: Entry)
    requires PathsGood(records) && q in records && r in records && q.path == r.path
    ensures q == r
  {
  }

  lemma ParentLeads(f: set<Item>, sorted: seq<Entry>, k: nat, nodesByPath: map<Path, Node>)
    requires k < |sorted| && NoRoot(sorted) && f == ForestOf(sorted[..k]) && ByPath(sorted[..k], nodesByPath)
    requires var p := Parent(sorted[k].path); p in nodesByPath && nodesByPath[p].isDirectory
    ensures HasParent(sorted, sorted[k].path)
    ensures LeadsTo(f, ShardEdge(nodesByPath[Parent(sorted[k].path)].id, Base(sorted[k].path)), Loc(None, sorted[k].path))
  {
    var p := Parent(sorted[k].path);
    if p != [] {
      var q := Entry(p, nodesByPath[p]);
      assert q in sorted[..k] && q in sorted;
      assert ItemOf(q) in f;
    }
  }

  lemma OccupiedTwice(f: set<Item>, sorted: seq<Entry>, k: nat)
    requires k < |sorted| && f == ForestOf(sorted[..k]) && sorted[k].path != [] && Occupied(f, Loc(None, sorted[k].path))
    ensures !PathsGood(sorted)
  {
    var i :| i in f && i.loc == Loc(None, sorted[k].path);
    var r :| r in sorted[..k] && i == ItemOf(r);
    var j :| 0 <= j < k && sorted[j] == r;
    assert sorted[j].path == sorted[k].path;
  }

  lemma PathsNext(sorted: seq<Entry>, k: nat, nodesByPath: map<Path, Node>, f: set<Item>)
    requires k < |sorted| && NoRoot(sorted) && PathsGood(sorted[..k]) && ByPath(sorted[..k], nodesByPath)
    requires f == ForestOf(sorted[..k]) && !Occupied(f, Loc(None, sorted[k].path))
    ensures PathsGood(sorted[..k + 1]) && ByPath(sorted[..k + 1], nodesByPath[sorted[k].path := sorted[k].node])
  {
    assert sorted[..k + 1] == sorted[..k] + [sorted[k]];
    assert sorted[k] in sorted;
    forall i | 0 <= i < k ensures sorted[i].path != sorted[k].path {
      assert sorted[..k][i] in sorted[..k];
      assert ItemOf(sorted[i]) in f;
    }
  }

  lemma ForestNext(sorted: seq<Entry>, k: nat)
    requires k < |sorted|
    ensures ForestOf(sorted[..k + 1]) == ForestOf(sorted[..k]) + {ItemOf(sorted[k])}
  {
    assert sorted[..k + 1] == sorted[..k] + [sorted[k]];
  }

  /** One shard rewritten with a node whose id comes from the record. */
  method PutRecord(t: Tree, dir: nat, name: Name, n: Node, ghost l: Loc)
    requires t.Valid()
    requires LeadsTo(t.forest, ShardEdge(dir, name), l) && !Occupied(t.forest, l) && l.path != []
    requires n.id > 0 && forall i | i in t.forest :: i.node.id != n.id
    modifies t
    ensures t.Valid() && t.forest == old(t.forest) + {Item(l, n)}
    ensures t.graph.trash == old(t.graph.trash)
  {
    ghost var g := t.graph;
    SetEntryPatches(g, dir, name, n);
    t.graph := SetEntry(t.graph, dir, name, n);
    var next := if t.nextNode <= n.id then n.id + 1 else t.nextNode;
    LeafSpace(g, t.graph, t.forest, t.nextNode, dir, name, n, l, next);
    t.forest, t.nextNode := t.forest + {Item(l, n)}, next;
  }

  /** Builds the shards of all active records, parents first. */
  method BuildShards(t: Tree, records: seq<Entry>) returns (error: Option<ImportError>, nodesByPath: map<Path, Node>)
    requires t.Valid() && t.forest == {} && t.graph.shards == map[] && t.graph.trash == map[]
    requires NoRoot(records) && IdsGood(records)
    modifies t
    ensures error.None? <==> PathsGood(records) && ParentsGood(records)
    ensures error.Some? ==> error.value.NoParent? || error.value.DuplicateEntry?
    ensures error.None? ==> t.Valid() && t.forest == ForestOf(records) && t.graph.trash == map[]
    ensures error.None? ==> ByPath(records, nodesByPath)
  {
    var sorted := SortBy(records, Depth);
    SortedSame(records, sorted);
    error, nodesByPath := None, map[[] := RootNode];
    for k := 0 to |sorted|
      invariant error.None? && Built(t, sorted, k, nodesByPath) && ParentsUpTo(sorted, k)
    {
      error, nodesByPath := InsertRecord(t, sorted, k, nodesByPath, sorted[k]);
      if error.Some? {
        Rejected(records, sorted, k, error.value);
        return;
      }
    }
    AllInserted(records, sorted, t.forest, nodesByPath);
  }

  ghost predicate ParentsUpTo(sorted: seq<Entry>, k: nat)
    requires k <= |sorted| && NoRoot(sorted)
  {
    forall j | 0 <= j < k :: HasParent(sorted, sorted[j].path)
  }

  lemma Rejected(records: seq<Entry>, sorted: seq<Entry>, k: nat, error: ImportError)
    requires multiset(sorted) == multiset(records) && NoRoot(records) && IdsGood(records) && NoRoot(sorted) && k < |sorted|
    requires error.NoParent? || error.DuplicateEntry?
    requires error.NoParent? ==> !HasParent(sorted, sorted[k].path)
    requires error.DuplicateEntry? ==> !PathsGood(sorted)
    ensures !(PathsGood(records) && ParentsGood(records))
  {
    SortedSame(records, sorted);
    assert sorted[k] in sorted;
  }

  lemma AllInserted(records: seq<Entry>, sorted: seq<Entry>, forest: set<Item>, nodesByPath: map<Path, Node>)
    requires multiset(sorted) == multiset(records) && NoRoot(records) && IdsGood(records) && NoRoot(sorted)
    requires forest == ForestOf(sorted[..|sorted|]) && PathsGood(sorted[..|sorted|]) && ByPath(sorted[..|sorted|], nodesByPath)
    requires ParentsUpTo(sorted, |sorted|)
    ensures PathsGood(records) && ParentsGood(records) && forest == ForestOf(records) && ByPath(records, nodesByPath)
  {
    assert sorted[..|sorted|] == sorted;
    SortedSame(records, sorted);
  }

  lemma SortedSame(records: seq<Entry>, sorted: seq<Entry>)
    requires multiset(sorted) == multiset(records) && NoRoot(records) && IdsGood(records)
    ensures NoRoot(sorted) && IdsGood(sorted) && ForestOf(sorted) == ForestOf(records)
    ensures PathsGood(sorted) <==> PathsGood(records)
    ensures ParentsGood(sorted) <==> ParentsGood(records)
    ensures forall r :: r in sorted <==> r in records
  {
    SameMembers(sorted, records);
    forall i, j | 0 <= i < j < |sorted| ensures sorted[i].node.id != sorted[j].node.id {
      if sorted[i].node.id == sorted[j].node.id {
        SameId(records, sorted[i], sorted[j]);
      }
    }
    PathsAsSet(sorted);
    PathsAsSet(records);
    forall p: Path | p != [] ensures HasParent(sorted, p) <==> HasParent(records, p) {
    }
  }

  lemma SameId(records: seq<Entry>, a: Entry, b: Entry)
    requires IdsGood(records) && a in records && b in records && a.node.id == b.node.id
    ensures a == b
  {
  }

  /** Of records without repetition, whether paths repeat does not depend on the order. */
  lemma PathsAsSet(records: seq<Entry>)
    requires IdsGood(records)
    ensures PathsGood(records) <==> forall a, b | a in records && b in records && a.path == b.path :: a == b
  {
    if forall a, b | a in records && b in records && a.path == b.path :: a == b {
      forall i, j | 0 <= i < j < |records| ensures records[i].path != records[j].path {
        assert records[i].node.id != records[j].node.id;
      }
    }
  }

  // ---- The summaries that the import seeds ----

  /** What the first k records add up to strictly below a path. */
  function SumBelow(records: seq<Entry>, k: nat, p: Path): Stats
    requires k <= |records|
  {
    if k == 0 then NoStats
    else Add(SumBelow(records, k - 1, p), if p < records[k - 1].path then Weight(records[k - 1].node) else NoStats)
  }

  function Sum(sums: map<nat, Summary>, id: nat): Summary {
    if id in sums then sums[id] else Summary(0, 0, 0)
  }

  function IdsOf(nodesByPath: map<Path, Node>): set<nat> {
    set p | p in nodesByPath && nodesByPath[p].isDirectory :: nodesByPath[p].id
  }

  ghost predicate SumIs(records: seq<Entry>, s: Summary, k: nat, p: Path)
    requires k <= |records|
  {
    AsStats(s) == SumBelow(records, k, p)
  }

  /** The sums after k records, and after the ancestors longer than n of the next one. */
  ghost predicate Pushed(records: seq<Entry>, nodesByPath: map<Path, Node>, sums: map<nat, Summary>, k: nat, n: int)
    requires k <= |records|
  {
    forall p | p in nodesByPath :: SumIs(records, Sum(sums, nodesByPath[p].id), Reached(records, k, n, p), p)
  }

  function Reached(records: seq<Entry>, k: nat, n: int, p: Path): (r: nat)
    requires k <= |records|
    ensures r <= |records|
  {
    if k < |records| && n < |p| && p < records[k].path then k + 1 else k
  }

  function AddRecord(s: Summary, r: Entry): Summary {
    Plus(s, if r.node.isDirectory then Summary(0, 1, 0) else Summary(1, 0, r.node.content.size))
  }

  /** Distinct paths have distinct ids, and every path's parent is a directory. */
  ghost predicate Climbable(nodesByPath: map<Path, Node>) {
    && (forall p, q | p in nodesByPath && q in nodesByPath && nodesByPath[p].id == nodesByPath[q].id :: p == q)
    && (forall p | p in nodesByPath && p != [] :: Parent(p) in nodesByPath && nodesByPath[Parent(p)].isDirectory)
  }

  lemma CanClimb(records: seq<Entry>, nodesByPath: map<Path, Node>)
    requires Importable(records) && ByPath(records, nodesByPath)
    ensures Climbable(nodesByPath)
  {
    forall p | p in nodesByPath && p != [] ensures Parent(p) in nodesByPath && nodesByPath[Parent(p)].isDirectory {
      AncestorListed(records, nodesByPath, p);
    }
  }

  lemma SumMore(records: seq<Entry>, s: Summary, k: nat, p: Path)
    requires k < |records| && SumIs(records, s, k, p)
    ensures SumIs(records, if p < records[k].path then AddRecord(s, records[k]) else s, k + 1, p)
  {
  }

  lemma PushStep(records: seq<Entry>, nodesByPath: map<Path, Node>, sums: map<nat, Summary>, k: nat, a: Path)
    requires k < |records| && Climbable(nodesByPath) && a in nodesByPath && a < records[k].path
    requires Pushed(records, nodesByPath, sums, k, |a|)
    ensures var id := nodesByPath[a].id;
      Pushed(records, nodesByPath, sums[id := AddRecord(Sum(sums, id), records[k])], k, |a| - 1)
  {
    var id := nodesByPath[a].id;
    var sums' := sums[id := AddRecord(Sum(sums, id), records[k])];
    forall p | p in nodesByPath
      ensures SumIs(records, Sum(sums', nodesByPath[p].id), Reached(records, k, |a| - 1, p), p)
    {
      if p == a {
        SumMore(records, Sum(sums, id), k, p);
      } else {
        assert nodesByPath[p].id != id;
        assert |p| == |a| && p < records[k].path ==> p == a;
        assert Sum(sums', nodesByPath[p].id) == Sum(sums, nodesByPath[p].id);
      }
    }
  }

  lemma PushNext(records: seq<Entry>, nodesByPath: map<Path, Node>, sums: map<nat, Summary>, k: nat)
    requires k < |records| && Pushed(records, nodesByPath, sums, k, -1)
    ensures Pushed(records, nodesByPath, sums, k + 1, First(records, k + 1))
  {
    forall p | p in nodesByPath ensures SumIs(records, Sum(sums, nodesByPath[p].id), k + 1, p) {
      if !(p < records[k].path) {
        SumMore(records, Sum(sums, nodesByPath[p].id), k, p);
      }
    }
  }

  lemma AncestorListed(records: seq<Entry>, nodesByPath: map<Path, Node>, a: Path)
    requires NoRoot(records) && PathsGood(records) && ParentsGood(records) && ByPath(records, nodesByPath) && a in nodesByPath && a != []
    ensures Parent(a) in nodesByPath && nodesByPath[Parent(a)].isDirectory
  {
    assert HasParent(records, Entry(a, nodesByPath[a]).path);
    if Parent(a) != [] {
      var q :| q in records && q.path == Parent(a) && q.node.isDirectory;
      SameRecord(records, q, Entry(q.path, nodesByPath[q.path]));
    }
  }

  function First(records: seq<Entry>, k: nat): nat {
    if k < |records| then |records[k].path| else 0
  }

  /** Every record is added to the summary of every directory above it. */
  method PushSummaries(records: seq<Entry>, nodesByPath: map<Path, Node>) returns (sums: map<nat, Summary>)
    requires Importable(records) && ByPath(records, nodesByPath)
    ensures Pushed(records, nodesByPath, sums, |records|, 0) && sums.Keys <= IdsOf(nodesByPath)
  {
    sums := map[];
    PushFirst(records, nodesByPath);
    CanClimb(records, nodesByPath);
    for k := 0 to |records|
      invariant Pushed(records, nodesByPath, sums, k, First(records, k)) && sums.Keys <= IdsOf(nodesByPath)
    {
      assert records[k] in records;
      sums := PushRecord(records, nodesByPath, sums, k);
    }
  }

  method PushRecord(records: seq<Entry>, nodesByPath: map<Path, Node>, before: map<nat, Summary>, k: nat) returns (sums: map<nat, Summary>)
    requires Climbable(nodesByPath) && k < |records| && records[k].path in nodesByPath && records[k].path != []
    requires Pushed(records, nodesByPath, before, k, First(records, k)) && before.Keys <= IdsOf(nodesByPath)
    ensures Pushed(records, nodesByPath, sums, k + 1, First(records, k + 1)) && sums.Keys <= IdsOf(nodesByPath)
  {
    sums := before;
    var ancestor := Parent(records[k].path);
    PushStart(records, nodesByPath, sums, k);
    while true
      invariant ancestor in nodesByPath && nodesByPath[ancestor].isDirectory && ancestor < records[k].path
      invariant Pushed(records, nodesByPath, sums, k, |ancestor|) && sums.Keys <= IdsOf(nodesByPath)
      decreases |ancestor|
    {
      PushStep(records, nodesByPath, sums, k, ancestor);
      var id := nodesByPath[ancestor].id;
      sums := sums[id := AddRecord(Sum(sums, id), records[k])];
      if ancestor == [] {
        break;
      }
      PushUp(records[k].path, ancestor);
      ancestor := Parent(ancestor);
    }
    PushNext(records, nodesByPath, sums, k);
  }

  lemma PushUp(p: Path, ancestor: Path)
    requires ancestor < p && ancestor != []
    ensures Parent(ancestor) < p && |Parent(ancestor)| == |ancestor| - 1
  {
    assert p[..|ancestor| - 1] == ancestor[..|ancestor| - 1];
  }

  lemma PushFirst(records: seq<Entry>, nodesByPath: map<Path, Node>)
    ensures Pushed(records, nodesByPath, map[], 0, First(records, 0))
  {
  }

  lemma PushStart(records: seq<Entry>, nodesByPath: map<Path, Node>, sums: map<nat, Summary>, k: nat)
    requires k < |records| && records[k].path != [] && Pushed(records, nodesByPath, sums, k, |records[k].path|)
    ensures Pushed(records, nodesByPath, sums, k, |Parent(records[k].path)|)
  {
  }

  /** The nodes of the first k records strictly below a path. */
  function NodesFrom(records: seq<Entry>, k: nat, p: Path): set<Node>
    requires k <= |records|
  {
    set j | 0 <= j < k && p < records[j].path :: records[j].node
  }

  lemma NodesFromNext(records: seq<Entry>, k: nat, p: Path)
    requires 0 < k <= |records| && IdsGood(records)
    ensures NodesFrom(records, k, p) == NodesFrom(records, k - 1, p) + if p < records[k - 1].path then {records[k - 1].node} else {}
    ensures records[k - 1].node !in NodesFrom(records, k - 1, p)
  {
  }

  lemma NothingFrom(records: seq<Entry>, p: Path)
    ensures Count(NodesFrom(records, 0, p)) == NoStats
  {
    assert NodesFrom(records, 0, p) == {};
  }

  lemma AddNothing(a: Stats)
    ensures Add(a, NoStats) == a
  {
  }

  lemma CountNext(nodes: set<Node>, n: Node, nodes': set<Node>, below: bool, sum: Stats)
    requires nodes' == nodes + (if below then {n} else {}) && n !in nodes && sum == Count(nodes)
    ensures Add(sum, if below then Weight(n) else NoStats) == Count(nodes')
  {
    if below {
      CountMore(nodes, n, nodes', sum);
    } else {
      AddNothing(sum);
      assert nodes' == nodes;
    }
  }

  /** Adding up counts. */
  lemma {:induction false} SumBelowCounts(records: seq<Entry>, k: nat, p: Path)
    requires IdsGood(records) && k <= |records|
    ensures SumBelow(records, k, p) == Count(NodesFrom(records, k, p))
  {
    if k == 0 {
      NothingFrom(records, p);
    } else {
      SumBelowCounts(records, k - 1, p);
      NodesFromNext(records, k, p);
      CountNext(NodesFrom(records, k - 1, p), records[k - 1].node, NodesFrom(records, k, p), p < records[k - 1].path, SumBelow(records, k - 1, p));
    }
  }

  lemma ForestOfOk(records: seq<Entry>)
    requires Importable(records)
    ensures ForestOk(ForestOf(records))
  {
    var f := ForestOf(records);
    forall i | i in f ensures i.loc != LiveRoot && IsDirAt(f, Up(i.loc)) && i.node.id != RootNode.id {
      var r :| r in records && i == ItemOf(r);
      assert HasParent(records, r.path);
      if Parent(r.path) != [] {
        var q :| q in records && q.path == Parent(r.path) && q.node.isDirectory;
        assert ItemOf(q) in f;
      }
    }
    forall i, j | i in f && j in f && (i.loc == j.loc || i.node.id == j.node.id) ensures i == j {
      var r :| r in records && i == ItemOf(r);
      var q :| q in records && j == ItemOf(q);
    }
  }

  lemma UnderOfRecords(records: seq<Entry>, p: Path, id: nat)
    requires Importable(records) && DirAt(ForestOf(records), Loc(None, p), id)
    ensures Under(ForestOf(records), id) == NodesFrom(records, |records|, p)
  {
    var f, l := ForestOf(records), Loc(None, p);
    ForestOfOk(records);
    UnderAt(f, l, id);
    forall n | n in NodesUnder(f, l) ensures n in NodesFrom(records, |records|, p) {
      var i :| i in f && StrictlyBelow(i.loc, l) && i.node == n;
      var r :| r in records && i == ItemOf(r);
      var j :| 0 <= j < |records| && records[j] == r;
    }
    forall n | n in NodesFrom(records, |records|, p) ensures n in NodesUnder(f, l) {
      var j :| 0 <= j < |records| && p < records[j].path && records[j].node == n;
      assert ItemOf(records[j]) in f;
    }
  }

  /** What is seeded for a directory, or nothing where nothing is seeded, counts what is below it. */
  ghost predicate Seeded(sums: map<nat, Summary>, f: set<Item>) {
    && (forall id | id in sums :: Located(f, id))
    && (forall id | Located(f, id) :: AsStats(Sum(sums, id)) == Count(Under(f, id)))
  }

  lemma LocatedPath(records: seq<Entry>, nodesByPath: map<Path, Node>, id: nat) returns (p: Path)
    requires Importable(records) && ByPath(records, nodesByPath) && Located(ForestOf(records), id)
    ensures p in nodesByPath && nodesByPath[p].id == id && DirAt(ForestOf(records), Loc(None, p), id)
  {
    var f := ForestOf(records);
    if id == RootNode.id {
      p := [];
    } else {
      var j :| j in f && j.node.isDirectory && j.node.id == id;
      var r :| r in records && j == ItemOf(r);
      p := r.path;
      SameRecord(records, r, Entry(p, nodesByPath[p]));
    }
  }

  lemma PushedIsSeeded(records: seq<Entry>, nodesByPath: map<Path, Node>, sums: map<nat, Summary>)
    requires Importable(records) && ByPath(records, nodesByPath)
    requires Pushed(records, nodesByPath, sums, |records|, 0) && sums.Keys <= IdsOf(nodesByPath)
    ensures Seeded(sums, ForestOf(records))
  {
    var f := ForestOf(records);
    forall id | id in sums ensures Located(f, id) {
      var p :| p in nodesByPath && nodesByPath[p].isDirectory && nodesByPath[p].id == id;
      if p != [] {
        assert ItemOf(Entry(p, nodesByPath[p])) in f;
      }
    }
    forall id | Located(f, id) ensures AsStats(Sum(sums, id)) == Count(Under(f, id)) {
      var p := LocatedPath(records, nodesByPath, id);
      assert SumIs(records, Sum(sums, nodesByPath[p].id), |records|, p);
      SumBelowCounts(records, |records|, p);
      UnderOfRecords(records, p, id);
    }
  }

  /** The summaries seeded by adding each record to its ancestors are the ones that recounting
      the imported shards would give. */
  lemma PushIsPull(g: Graph, f: set<Item>, sums: map<nat, Summary>, listing: Listing, entries: map<nat, seq<ShardEntry>>, id: nat)
    requires ForestOk(f) && Represents(g, f) && NoStrays(g, f) && ListingOf(g, listing, entries) && Ranked(listing, Rank(f))
    requires Seeded(sums, f) && Located(f, id)
    ensures Sum(sums, id) == Recount(listing, Rank(f), id)
  {
    RecountIsUnder(g, f, listing, entries, id);
    SameStats(Sum(sums, id), Recount(listing, Rank(f), id));
  }

  /** The import succeeds exactly on snapshots with good ids, distinct paths and existing
      parents, and then the namespace is the forest of the records. */
  method Import(records: seq<Entry>, shardOf: Name -> nat) returns (error: Option<ImportError>, t: Tree, summaries: map<nat, Summary>)
    requires NoRoot(records)
    ensures fresh(t)
    ensures error.None? <==> Importable(records)
    ensures error.None? ==> t.Valid() && t.forest == ForestOf(records)
    ensures error.None? ==> Seeded(summaries, t.forest)
  {
    t := new Tree(shardOf);
    summaries := map[];
    error := CheckIds(records);
    if error.Some? {
      return;
    }
    var nodesByPath;
    error, nodesByPath := BuildShards(t, records);
    if error.None? {
      summaries := PushSummaries(records, nodesByPath);
      PushedIsSeeded(records, nodesByPath, summaries);
    }
  }

  // ---- Reading it back ----

  /** The records below the first k entries of the root. */
  ghost predicate ListedTo(f: set<Item>, entries: seq<ShardEntry>, k: nat, records: seq<Entry>)
    requires k <= |entries|
  {
    DistinctNodes(records) && forall e :: e in records <==> e in ChildSubtrees(f, LiveRoot, [], entries, k)
  }

  /** Walks the whole live tree, directory by directory. */
  method ListAll(t: Tree) returns (records: seq<Entry>)
    requires t.Valid()
    ensures DistinctNodes(records) && forall e :: e in records <==> e in LiveEntries(t.forest)
  {
    records := [];
    var entries := DirectoryEntries(t, RootNode.id);
    for k := 0 to |entries|
      invariant ListedTo(t.forest, entries, k, records)
    {
      ChildFound(t.graph, t.forest, LiveRoot, RootNode.id, entries[k]);
      var children := SubtreePlan(t, entries[k].node, [entries[k].name], Down(LiveRoot, entries[k].name));
      assert [] + [entries[k].name] == [entries[k].name];
      AppendChildren(t.forest, LiveRoot, [], entries, k, records, children);
      records := records + children;
    }
    forall e ensures e in ChildSubtrees(t.forest, LiveRoot, [], entries, |entries|) <==> e in LiveEntries(t.forest) {
      RootSplits(t.graph, t.forest, entries, e);
    }
  }

  lemma RootSplits(g: Graph, f: set<Item>, entries: seq<ShardEntry>, e: Entry)
    requires ForestOk(f) && Represents(g, f) && NodeMutations.Lists(g, RootNode.id, entries)
    ensures e in ChildSubtrees(f, LiveRoot, [], entries, |entries|) <==> e in LiveEntries(f)
  {
    if e in LiveEntries(f) {
      var i :| i in f && i.loc.trash.None? && e == Entry(i.loc.path, i.node);
      OneStepDown(g, f, LiveRoot, RootNode.id, i);
      assert Named(entries, i.loc.path[0]);
      InNamedChild(f, LiveRoot, [], entries, i);
      assert [] + i.loc.path[0..] == i.loc.path;
    }
    if e in ChildSubtrees(f, LiveRoot, [], entries, |entries|) {
      ToParent(f, LiveRoot, [], entries, e);
      FromRoot(f, e);
    }
  }

  lemma FromRoot(f: set<Item>, e: Entry)
    requires e in SubtreeEntries(f, LiveRoot, [])
    ensures e in LiveEntries(f)
  {
    var i :| i in f && Below(i.loc, LiveRoot) && e == Entry([] + i.loc.path[0..], i.node);
    assert [] + i.loc.path[0..] == i.loc.path;
  }

  lemma {:induction false} SameListing(a: seq<Entry>, b: seq<Entry>)
    requires DistinctNodes(a) && DistinctNodes(b) && forall e :: e in a <==> e in b
    ensures multiset(a) == multiset(b)
  {
    forall e ensures multiset(a)[e] == multiset(b)[e] {
      Once(a, e);
      Once(b, e);
      assert e in multiset(a) <==> e in a;
      assert e in multiset(b) <==> e in b;
    }
  }

  lemma LiveRecords(records: seq<Entry>)
    ensures forall e :: e in records <==> e in LiveEntries(ForestOf(records))
  {
    forall e ensures e in records <==> e in LiveEntries(ForestOf(records)) {
      if e in records {
        assert ItemOf(e) in ForestOf(records);
      }
    }
  }

  /** The round trip: whatever snapshot is imported, walking the shards gives back exactly its
      records, each once. */
  method ImportThenExport(records: seq<Entry>, shardOf: Name -> nat) returns (exported: Option<seq<Entry>>)
    requires NoRoot(records)
    ensures exported.Some? <==> Importable(records)
    ensures exported.Some? ==> multiset(exported.value) == multiset(records)
  {
    var error, t, summaries := Import(records, shardOf);
    if error.Some? {
      return None;
    }
    var listed := ListAll(t);
    LiveRecords(records);
    assert DistinctNodes(records) by {
      forall i, j | 0 <= i < j < |records| ensures records[i].node != records[j].node {
        assert records[i].node.id != records[j].node.id;
      }
    }
    SameListing(listed, records);
    exported := Some(listed);
  }
}
