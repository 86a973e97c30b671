/** The other V4 operations on the node graph, each with the change of the live counts that it
    hands to the reducer. */
module NodeMutations {
  import opened Wrappers
  import opened Paths
  import opened FlatTree
  import opened NodeTree
  import opened NodeSpace
  import opened NodeNamespace
  import opened NodeAccounts

  // ---- Listing a directory and walking a subtree ----

  /** entries are the children of dir, each once. */
  ghost predicate Lists(g: Graph, dir: nat, entries: seq<ShardEntry>) {
    && (forall i | 0 <= i < |entries| :: Child(g, dir, entries[i].name) == Some(entries[i].node))
    && (forall name | Child(g, dir, name).Some? :: Named(entries, name))
    && NamesDiffer(entries)
  }

  predicate NamesDiffer(entries: seq<ShardEntry>) {
    forall i, j | 0 <= i < j < |entries| :: entries[i].name != entries[j].name
  }

  predicate Named(entries: seq<ShardEntry>, name: Name) {
    exists i | 0 <= i < |entries| :: entries[i].name == name
  }

  /** The entries of one shard, in any order. */
  method ShardEntries(shard: map<Name, ShardEntry>) returns (entries: seq<ShardEntry>)
    requires forall name | name in shard :: shard[name].name == name
    ensures forall i | 0 <= i < |entries| :: entries[i].name in shard && entries[i] == shard[entries[i].name]
    ensures forall name | name in shard :: Named(entries, name)
    ensures NamesDiffer(entries)
  {
    entries := [];
    var rest := shard.Keys;
    while rest != {}
      invariant rest <= shard.Keys
      invariant forall i | 0 <= i < |entries| :: entries[i].name in shard && entries[i] == shard[entries[i].name]
      invariant forall i | 0 <= i < |entries| :: entries[i].name !in rest
      invariant forall name | name in shard && name !in rest :: Named(entries, name)
      invariant NamesDiffer(entries)
    {
      var name :| name in rest;
      ghost var before := entries;
      entries, rest := entries + [shard[name]], rest - {name};
      assert entries[|before|].name == name;
      NamedMore(before, [shard[name]]);
    }
  }

  lemma NamedMore(a: seq<ShardEntry>, b: seq<ShardEntry>)
    ensures forall name :: Named(a + b, name) <==> Named(a, name) || Named(b, name)
  {
    forall name ensures Named(a + b, name) <==> Named(a, name) || Named(b, name) {
      if i :| 0 <= i < |a| && a[i].name == name {
        assert (a + b)[i].name == name;
      }
      if i :| 0 <= i < |b| && b[i].name == name {
        assert (a + b)[|a| + i].name == name;
      }
      if i :| 0 <= i < |a + b| && (a + b)[i].name == name {
        assert if i < |a| then a[i].name == name else b[i - |a|].name == name;
      }
    }
  }

  /** The entries of the shards of dir that have been read. */
  ghost predicate ListsShards(g: Graph, dir: nat, entries: seq<ShardEntry>, read: set<(nat, nat)>) {
    && (forall i | 0 <= i < |entries| :: Child(g, dir, entries[i].name) == Some(entries[i].node)
                                         && (dir, g.shardOf(entries[i].name)) in read)
    && (forall k: nat, name | (dir, k) in read && name in ShardMap(g, dir, k) :: Named(entries, name))
    && NamesDiffer(entries)
  }

  lemma ReadShard(g: Graph, dir: nat, entries: seq<ShardEntry>, read: set<(nat, nat)>, key: (nat, nat), more: seq<ShardEntry>)
    requires Placed(g) && ListsShards(g, dir, entries, read) && key !in read && key.0 == dir
    requires forall i | 0 <= i < |more| :: more[i].name in ShardMap(g, dir, key.1) && more[i] == ShardMap(g, dir, key.1)[more[i].name]
    requires forall name | name in ShardMap(g, dir, key.1) :: Named(more, name)
    requires NamesDiffer(more)
    ensures ListsShards(g, dir, entries + more, read + {key})
  {
    NamedMore(entries, more);
    forall i | 0 <= i < |more| ensures Child(g, dir, more[i].name) == Some(more[i].node) && g.shardOf(more[i].name) == key.1 {
      assert WellPlaced(g, dir, key.1, more[i].name);
    }
  }

  /** Lists a directory over all its stored shards. */
  method DirectoryEntries(t: Tree, dir: nat) returns (entries: seq<ShardEntry>)
    requires t.Valid()
    ensures Lists(t.graph, dir, entries)
  {
    entries := [];
    var rest := set key | key in t.graph.shards && key.0 == dir;
    ghost var all := rest;
    ghost var read: set<(nat, nat)> := {};
    while rest != {}
      invariant read + rest == all && read !! rest
      invariant ListsShards(t.graph, dir, entries, read)
    {
      var key :| key in rest;
      ShardNames(t.graph, key);
      var more := ShardEntries(t.graph.shards[key]);
      ReadShard(t.graph, dir, entries, read, key, more);
      entries, rest, read := entries + more, rest - {key}, read + {key};
    }
    forall name | Child(t.graph, dir, name).Some? ensures Named(entries, name) {
      assert (dir, t.graph.shardOf(name)) in all;
    }
  }

  lemma ShardNames(g: Graph, key: (nat, nat))
    requires Placed(g) && key in g.shards
    ensures ShardMap(g, key.0, key.1) == g.shards[key]
    ensures forall name | name in g.shards[key] :: g.shards[key][name].name == name
  {
    forall name | name in g.shards[key] ensures g.shards[key][name].name == name {
      assert WellPlaced(g, key.0, key.1, name);
    }
  }

  function Down(l: Loc, name: Name): Loc {
    Loc(l.trash, l.path + [name])
  }

  /** The entries of the subtree at l, as seen from a root called path. */
  function SubtreeEntries(f: set<Item>, l: Loc, path: Path): set<Entry> {
    set i | i in f && Below(i.loc, l) :: Entry(path + i.loc.path[|l.path|..], i.node)
  }

  ghost predicate Covers(f: set<Item>, l: Loc, path: Path, records: seq<Entry>) {
    DistinctNodes(records) && forall e :: e in records <==> e in SubtreeEntries(f, l, path)
  }

  function ItemsBelow(f: set<Item>, l: Loc): set<Item> {
    set i | i in f && Below(i.loc, l)
  }

  /** The subtrees of the first k children. */
  function ChildSubtrees(f: set<Item>, l: Loc, path: Path, entries: seq<ShardEntry>, k: nat): set<Entry>
    requires k <= |entries|
  {
    if k == 0 then {}
    else ChildSubtrees(f, l, path, entries, k - 1) + SubtreeEntries(f, Down(l, entries[k - 1].name), path + [entries[k - 1].name])
  }

  lemma {:induction false} AboveIsDir(f: set<Item>, q: Loc, l: Loc)
    requires Grounded(f) && Occupied(f, l) && Below(l, q) && l != q
    ensures IsDirAt(f, q)
    decreases |l.path|
  {
    assert l.path != [] && l != LiveRoot;
    assert Below(Up(l), q);
    if Up(l) != q {
      assert Occupied(f, Up(l));
      AboveIsDir(f, q, Up(l));
    }
  }

  /** What is below a directory is below one of its children. */
  lemma OneStepDown(g: Graph, f: set<Item>, l: Loc, id: nat, i: Item)
    requires ForestOk(f) && Represents(g, f) && DirAt(f, l, id) && i in f && Below(i.loc, l) && i.loc != l
    ensures var name := i.loc.path[|l.path|];
      Below(i.loc, Down(l, name)) && Child(g, id, name).Some?
  {
    var name := i.loc.path[|l.path|];
    var c := Down(l, name);
    BelowNext(i.loc, l);
    assert Occupied(f, i.loc);
    if i.loc != c {
      AboveIsDir(f, c, i.loc);
    }
    FoundChild(g, f, l, id, name);
  }

  lemma BelowNext(i: Loc, l: Loc)
    requires Below(i, l) && i != l
    ensures |l.path| < |i.path| && Below(i, Down(l, i.path[|l.path|]))
  {
    assert i.path[..|l.path| + 1] == l.path + [i.path[|l.path|]];
  }

  lemma FoundChild(g: Graph, f: set<Item>, l: Loc, id: nat, name: Name)
    requires ForestOk(f) && Represents(g, f) && DirAt(f, l, id)
    ensures Occupied(f, Down(l, name)) <==> Child(g, id, name).Some?
    ensures Child(g, id, name).Some? ==> Item(Down(l, name), Child(g, id, name).value) in f
  {
    var c := Down(l, name);
    assert Parent(c.path) == l.path && Base(c.path) == name && Up(c) == l;
    LookupEdge(g, f, ShardEdge(id, name), c);
    FoundIsItem(g, f, c);
  }

  lemma ChildFound(g: Graph, f: set<Item>, l: Loc, id: nat, e: ShardEntry)
    requires ForestOk(f) && Represents(g, f) && DirAt(f, l, id) && Child(g, id, e.name) == Some(e.node)
    ensures Item(Down(l, e.name), e.node) in f
    ensures e.node.isDirectory ==> DirAt(f, Down(l, e.name), e.node.id)
  {
    FoundChild(g, f, l, id, e.name);
  }

  /** Below a location there is the node itself and what is below its children. */
  lemma ThroughChild(g: Graph, f: set<Item>, l: Loc, node: Node, i: Item)
    requires ForestOk(f) && Represents(g, f) && Item(l, node) in f && i in f && Below(i.loc, l) && i.loc != l
    ensures node.isDirectory
    ensures var name := i.loc.path[|l.path|];
      Below(i.loc, Down(l, name)) && Child(g, node.id, name).Some?
  {
    assert Occupied(f, i.loc);
    AboveIsDir(f, l, i.loc);
    ItemAt(f, l, node);
    OneStepDown(g, f, l, node.id, i);
  }

  lemma ItemAt(f: set<Item>, l: Loc, node: Node)
    requires ForestOk(f) && Item(l, node) in f && IsDirAt(f, l)
    ensures node.isDirectory && DirAt(f, l, node.id)
  {
    var i :| i in f && i.loc == l && i.node.isDirectory;
  }

  lemma ChildItem(g: Graph, f: set<Item>, l: Loc, node: Node, e: ShardEntry)
    requires ForestOk(f) && Represents(g, f) && Item(l, node) in f && node.isDirectory && Child(g, node.id, e.name) == Some(e.node)
    ensures Item(Down(l, e.name), e.node) in f
  {
    assert DirAt(f, l, node.id);
    ChildFound(g, f, l, node.id, e);
  }

  lemma {:induction false} InChildSubtrees(f: set<Item>, l: Loc, path: Path, entries: seq<ShardEntry>, k: nat, e: Entry)
    requires k <= |entries|
    ensures e in ChildSubtrees(f, l, path, entries, k) <==>
            exists j | 0 <= j < k :: e in SubtreeEntries(f, Down(l, entries[j].name), path + [entries[j].name])
  {
    if k > 0 {
      InChildSubtrees(f, l, path, entries, k - 1, e);
    }
  }

  lemma DownEntries(f: set<Item>, l: Loc, path: Path, name: Name, i: Item)
    requires Below(i.loc, Down(l, name))
    ensures Below(i.loc, l) && path + [name] + i.loc.path[|l.path| + 1..] == path + i.loc.path[|l.path|..]
  {
    assert i.loc.path[|l.path|..] == [name] + i.loc.path[|l.path| + 1..];
  }

  /** What is below a listed child is below one of the children. */
  lemma InNamedChild(f: set<Item>, l: Loc, path: Path, entries: seq<ShardEntry>, i: Item)
    requires i in f && Below(i.loc, l) && i.loc != l && Named(entries, i.loc.path[|l.path|])
    ensures Entry(path + i.loc.path[|l.path|..], i.node) in ChildSubtrees(f, l, path, entries, |entries|)
  {
    var j :| 0 <= j < |entries| && entries[j].name == i.loc.path[|l.path|];
    var c := Down(l, entries[j].name);
    assert c.path <= i.loc.path;
    DownEntries(f, l, path, entries[j].name, i);
    var e := Entry(path + i.loc.path[|l.path|..], i.node);
    assert e in SubtreeEntries(f, c, path + [entries[j].name]);
    InChildSubtrees(f, l, path, entries, |entries|, e);
  }

  lemma FromChild(g: Graph, f: set<Item>, l: Loc, node: Node, path: Path, entries: seq<ShardEntry>, e: Entry)
    requires ForestOk(f) && Represents(g, f) && Item(l, node) in f
    requires node.isDirectory ==> Lists(g, node.id, entries)
    requires e in SubtreeEntries(f, l, path)
    ensures e in ChildSubtrees(f, l, path, entries, |entries|) || e == Entry(path, node)
  {
    var i :| i in f && Below(i.loc, l) && e == Entry(path + i.loc.path[|l.path|..], i.node);
    if i.loc != l {
      ThroughChild(g, f, l, node, i);
      InNamedChild(f, l, path, entries, i);
    }
  }

  lemma ToParent(f: set<Item>, l: Loc, path: Path, entries: seq<ShardEntry>, e: Entry)
    requires e in ChildSubtrees(f, l, path, entries, |entries|)
    ensures e in SubtreeEntries(f, l, path)
  {
    InChildSubtrees(f, l, path, entries, |entries|, e);
    var j :| 0 <= j < |entries| && e in SubtreeEntries(f, Down(l, entries[j].name), path + [entries[j].name]);
    var i :| i in f && Below(i.loc, Down(l, entries[j].name))
             && e == Entry(path + [entries[j].name] + i.loc.path[|l.path| + 1..], i.node);
    DownEntries(f, l, path, entries[j].name, i);
  }

  lemma SubtreeSplits(g: Graph, f: set<Item>, l: Loc, node: Node, path: Path, entries: seq<ShardEntry>, e: Entry)
    requires ForestOk(f) && Represents(g, f) && Item(l, node) in f
    requires if node.isDirectory then Lists(g, node.id, entries) else entries == []
    ensures e in SubtreeEntries(f, l, path) <==> e in ChildSubtrees(f, l, path, entries, |entries|) || e == Entry(path, node)
  {
    if e in SubtreeEntries(f, l, path) {
      FromChild(g, f, l, node, path, entries, e);
    }
    if e in ChildSubtrees(f, l, path, entries, |entries|) {
      ToParent(f, l, path, entries, e);
    }
    ItselfBelow(f, l, node, path);
  }

  lemma ItselfBelow(f: set<Item>, l: Loc, node: Node, path: Path)
    requires Item(l, node) in f
    ensures Entry(path, node) in SubtreeEntries(f, l, path)
  {
    assert Entry(path + l.path[|l.path|..], node) == Entry(path, node);
  }

  /** Subtrees of different children share no node. */
  lemma ChildrenApart(f: set<Item>, l: Loc, path: Path, entries: seq<ShardEntry>, k: nat, e: Entry, e': Entry)
    requires IdsUnique(f) && k < |entries|
    requires NamesDiffer(entries)
    requires e in ChildSubtrees(f, l, path, entries, k)
    requires e' in SubtreeEntries(f, Down(l, entries[k].name), path + [entries[k].name])
    ensures e.node != e'.node
  {
    InChildSubtrees(f, l, path, entries, k, e);
    var j :| 0 <= j < k && e in SubtreeEntries(f, Down(l, entries[j].name), path + [entries[j].name]);
    var i :| i in f && Below(i.loc, Down(l, entries[j].name)) && i.node == e.node;
    var i' :| i' in f && Below(i'.loc, Down(l, entries[k].name)) && i'.node == e'.node;
    assert i.loc.path[|l.path|] == entries[j].name && i'.loc.path[|l.path|] == entries[k].name;
  }

  lemma AppendChildren(f: set<Item>, l: Loc, path: Path, entries: seq<ShardEntry>, k: nat, records: seq<Entry>, children: seq<Entry>)
    requires IdsUnique(f) && k < |entries|
    requires NamesDiffer(entries)
    requires DistinctNodes(records) && forall e :: e in records <==> e in ChildSubtrees(f, l, path, entries, k)
    requires Covers(f, Down(l, entries[k].name), path + [entries[k].name], children)
    ensures DistinctNodes(records + children)
    ensures forall e :: e in records + children <==> e in ChildSubtrees(f, l, path, entries, k + 1)
  {
    forall e, e' | e in records && e' in children ensures e.node != e'.node {
      ChildrenApart(f, l, path, entries, k, e, e');
    }
  }

  /** The whole subtree of a node, children first. It terminates because every child's
      subtree is smaller. */
  method SubtreePlan(t: Tree, node: Node, path: Path, ghost l: Loc) returns (records: seq<Entry>)
    requires t.Valid() && Item(l, node) in t.forest
    ensures Covers(t.forest, l, path, records)
    decreases |ItemsBelow(t.forest, l)|
  {
    records := [];
    var entries := [];
    if node.isDirectory {
      entries := DirectoryEntries(t, node.id);
      for k := 0 to |entries|
        invariant DistinctNodes(records)
        invariant forall e :: e in records <==> e in ChildSubtrees(t.forest, l, path, entries, k)
      {
        ChildItem(t.graph, t.forest, l, node, entries[k]);
        SmallerBelow(t.forest, l, node, entries[k].name);
        var children := SubtreePlan(t, entries[k].node, path + [entries[k].name], Down(l, entries[k].name));
        AppendChildren(t.forest, l, path, entries, k, records, children);
        records := records + children;
      }
    }
    forall e ensures e in SubtreeEntries(t.forest, l, path) <==> e in ChildSubtrees(t.forest, l, path, entries, |entries|) || e == Entry(path, node) {
      SubtreeSplits(t.graph, t.forest, l, node, path, entries, e);
    }
    forall e | e in records ensures e.node != node {
      NotItself(t.forest, l, node, path, entries, e);
    }
    records := records + [Entry(path, node)];
  }

  lemma SmallerBelow(f: set<Item>, l: Loc, node: Node, name: Name)
    requires Item(l, node) in f
    ensures |ItemsBelow(f, Down(l, name))| < |ItemsBelow(f, l)|
  {
    assert ItemsBelow(f, Down(l, name)) <= ItemsBelow(f, l) - {Item(l, node)};
    SmallerSet(ItemsBelow(f, Down(l, name)), ItemsBelow(f, l) - {Item(l, node)});
  }

  lemma {:induction false} SmallerSet(a: set<Item>, b: set<Item>)
    requires a <= b
    ensures |a| <= |b|
    decreases |a|
  {
    if a != {} {
      var i :| i in a;
      SmallerSet(a - {i}, b - {i});
    }
  }

  lemma NotItself(f: set<Item>, l: Loc, node: Node, path: Path, entries: seq<ShardEntry>, e: Entry)
    requires IdsUnique(f) && Item(l, node) in f && e in ChildSubtrees(f, l, path, entries, |entries|)
    ensures e.node != node
  {
    InChildSubtrees(f, l, path, entries, |entries|, e);
    var j :| 0 <= j < |entries| && e in SubtreeEntries(f, Down(l, entries[j].name), path + [entries[j].name]);
    var i :| i in f && Below(i.loc, Down(l, entries[j].name)) && i.node == e.node;
    assert i.loc != l;
  }

  // ---- The operations ----

  datatype Problem = NotFound | Taken | IsADirectory | NotEmpty | Busy | Invalid

  method SumRecords(records: seq<Entry>, adds: bool) returns (delta: Stats)
    ensures delta == if adds then SumTo(records, |records|) else Negate(SumTo(records, |records|))
  {
    delta := NoStats;
    for k := 0 to |records|
      invariant delta == if adds then SumTo(records, k) else Negate(SumTo(records, k))
    {
      NegateSum(SumTo(records, k), Weight(records[k].node));
      delta := Add(delta, if adds then Weight(records[k].node) else Negate(Weight(records[k].node)));
    }
  }

  /** Counts a subtree, as an addition or as a removal. */
  method TrashDelta(t: Tree, node: Node, adds: bool, ghost l: Loc) returns (delta: Stats)
    requires t.Valid() && Item(l, node) in t.forest
    ensures delta == if adds then Count(NodesBelow(t.forest, l)) else Negate(Count(NodesBelow(t.forest, l)))
  {
    var records := SubtreePlan(t, node, [], l);
    delta := SumRecords(records, adds);
    SumCounts(records, |records|);
    CoveredNodes(t.forest, l, records);
  }

  lemma CoveredNodes(f: set<Item>, l: Loc, records: seq<Entry>)
    requires Covers(f, l, [], records)
    ensures NodesTo(records, |records|) == NodesBelow(f, l)
  {
    forall n | n in NodesBelow(f, l) ensures n in NodesTo(records, |records|) {
      var i :| i in f && Below(i.loc, l) && i.node == n;
      var e := Entry([] + i.loc.path[|l.path|..], i.node);
      assert e in SubtreeEntries(f, l, []);
      var k :| 0 <= k < |records| && records[k] == e;
    }
    forall n | n in NodesTo(records, |records|) ensures n in NodesBelow(f, l) {
      var k :| 0 <= k < |records| && records[k].node == n;
      assert records[k] in SubtreeEntries(f, l, []);
    }
  }

  /** Resolves the parent directory of a path. */
  method ParentOf(t: Tree, path: Path) returns (dir: Option<nat>, ancestors: seq<nat>)
    requires t.Valid() && path != []
    ensures dir.Some? <==> IsDirAt(t.forest, Loc(None, Parent(path)))
    ensures dir.Some? ==> DirAt(t.forest, Loc(None, Parent(path)), dir.value) && Chained(t.forest, Parent(path), ancestors)
    ensures dir.Some? ==> LeadsTo(t.forest, ShardEdge(dir.value, Base(path)), Loc(None, path))
    ensures dir.Some? ==> Child(t.graph, dir.value, Base(path)) == Lookup(t.graph, Loc(None, path))
    ensures dir.None? ==> !Occupied(t.forest, Loc(None, path))
    ensures Occupied(t.forest, Loc(None, path)) <==> Lookup(t.graph, Loc(None, path)).Some?
    ensures Lookup(t.graph, Loc(None, path)).Some? ==> Item(Loc(None, path), Lookup(t.graph, Loc(None, path)).value) in t.forest
  {
    dir, ancestors := t.ResolveDirectoryChain(Parent(path));
    FoundIsItem(t.graph, t.forest, Loc(None, path));
    if dir.Some? {
      LookupEdge(t.graph, t.forest, ShardEdge(dir.value, Base(path)), Loc(None, path));
    }
  }

  /** Creates a file, or replaces the content of one; expected makes it conditional on the
      hash there is, absent on there being none. A condition that fails changes nothing. */
  method ReplaceFile(t: Tree, path: Path, hash: string, size: nat, expected: Option<string>, absent: bool)
    returns (problem: Option<Problem>, matched: bool, delta: Stats, ancestors: seq<nat>, ghost was: Option<Node>, ghost now: Node)
    requires t.Valid()
    modifies t
    ensures t.Valid() && SameTrash(old(t.forest), t.forest)
    ensures problem.Some? || !matched ==> t.forest == old(t.forest) && t.graph == old(t.graph) && delta == NoStats
    ensures path != [] ==> (problem == Some(NotFound) <==> !IsDirAt(old(t.forest), Loc(None, Parent(path))))
    ensures path != [] ==> (problem == Some(IsADirectory) <==> IsDirAt(old(t.forest), Loc(None, path)))
    ensures problem.None? ==> path != [] && Chained(old(t.forest), Parent(path), ancestors)
    ensures problem.None? && matched ==> Replaced(old(t.forest), t.forest, Loc(None, path), was, now, hash, size)
    ensures problem.None? && matched ==> delta == ReplaceDelta(was, now)
    ensures problem.None? ==> (matched <==> ReplaceAllowed(was, expected, absent))
  {
    problem, matched, delta, ancestors, was, now := None, false, NoStats, [], None, RootNode;
    if path == [] {
      problem := Some(Invalid);
      return;
    }
    var dir;
    dir, ancestors := ParentOf(t, path);
    var l := Loc(None, path);
    LocIsDir(t.graph, t.forest, l);
    if dir.None? {
      problem := Some(NotFound);
      return;
    }
    var found := Child(t.graph, dir.value, Base(path));
    was := found;
    if found.Some? && found.value.isDirectory {
      problem := Some(IsADirectory);
      return;
    }
    if found.None? && expected.Some? {
      return;
    }
    if found.Some? && (absent || (expected.Some? && found.value.content.hash != expected.value)) {
      return;
    }
    matched := true;
    if found.Some? {
      var n' := found.value.(content := found.value.content.(hash := hash, size := size));
      delta := Stats(0, 0, size - found.value.content.size);
      PutUpdate(t, dir.value, Base(path), found.value, n', l);
      now := n';
    } else {
      var n' := Node(t.nextNode, false, Content("", size, hash));
      delta := Stats(1, 0, size);
      PutLeaf(t, dir.value, Base(path), n', l);
      now := n';
    }
  }

  /** The conditions a caller may set on what is replaced. */
  predicate ReplaceAllowed(was: Option<Node>, expected: Option<string>, absent: bool) {
    match was
    case Some(n) => !absent && (expected.Some? ==> n.content.hash == expected.value)
    case None => expected.None?
  }

  /** f' is f with the file at l, or nothing, replaced by a file of the given content. */
  ghost predicate Replaced(f: set<Item>, f': set<Item>, l: Loc, was: Option<Node>, now: Node, hash: string, size: nat) {
    && now.content.hash == hash && now.content.size == size && !now.isDirectory
    && match was
      case Some(n) => Item(l, n) in f && now.id == n.id && f' == f - {Item(l, n)} + {Item(l, now)}
      case None => !Occupied(f, l) && f' == f + {Item(l, now)}
  }

  function ReplaceDelta(was: Option<Node>, now: Node): Stats {
    if was.Some? then Add(Weight(now), Negate(Weight(was.value))) else Weight(now)
  }

  lemma LocIsDir(g: Graph, f: set<Item>, l: Loc)
    requires Represents(g, f) && l != LiveRoot
    ensures IsDirAt(f, l) <==> Lookup(g, l).Some? && Lookup(g, l).value.isDirectory
  {
    if i :| i in f && i.loc == l && i.node.isDirectory {
      assert Item(l, i.node) in f;
    }
    FoundIsItem(g, f, l);
  }

  /** One shard rewritten with a new node under a fresh id. */
  method PutLeaf(t: Tree, dir: nat, name: Name, n: Node, ghost l: Loc)
    requires t.Valid() && LeadsTo(t.forest, ShardEdge(dir, name), l) && !Occupied(t.forest, l) && l.trash.None? && l.path != []
    requires n.id == t.nextNode
    modifies t
    ensures t.Valid() && t.forest == old(t.forest) + {Item(l, n)} && SameTrash(old(t.forest), t.forest)
  {
    ghost var g := t.graph;
    SetEntryPatches(g, dir, name, n);
    t.graph := SetEntry(t.graph, dir, name, n);
    LeafSpace(g, t.graph, t.forest, t.nextNode, dir, name, n, l, t.nextNode + 1);
    TrashUntouched(t.forest, Item(l, n), Item(l, n));
    t.forest := t.forest + {Item(l, n)};
    t.nextNode := t.nextNode + 1;
  }

  lemma TrashUntouched(f: set<Item>, lost: Item, gained: Item)
    requires lost.loc.trash.None? && gained.loc.trash.None?
    ensures SameTrash(f, f - {lost}) && SameTrash(f, f + {gained}) && SameTrash(f, f - {lost} + {gained})
  {
  }

  /** One shard rewritten with new content for a node. */
  method PutUpdate(t: Tree, dir: nat, name: Name, n: Node, n': Node, ghost l: Loc)
    requires t.Valid() && LeadsTo(t.forest, ShardEdge(dir, name), l) && Item(l, n) in t.forest && l.trash.None? && l.path != []
    requires n'.id == n.id && n'.isDirectory == n.isDirectory
    modifies t
    ensures t.Valid() && t.forest == old(t.forest) - {Item(l, n)} + {Item(l, n')} && SameTrash(old(t.forest), t.forest)
  {
    ghost var g := t.graph;
    SetEntryPatches(g, dir, name, n');
    t.graph := SetEntry(t.graph, dir, name, n');
    UpdateSpace(g, t.graph, t.forest, t.nextNode, dir, name, n, n', l);
    TrashUntouched(t.forest, Item(l, n), Item(l, n'));
    t.forest := t.forest - {Item(l, n)} + {Item(l, n')};
  }

  /** One shard rewritten without a leaf. */
  method CutLeaf(t: Tree, dir: nat, name: Name, n: Node, ghost l: Loc)
    requires t.Valid() && LeadsTo(t.forest, ShardEdge(dir, name), l) && Item(l, n) in t.forest && l.trash.None? && l.path != []
    requires !HasBelow(t.forest, l)
    modifies t
    ensures t.Valid() && t.forest == old(t.forest) - {Item(l, n)} && SameTrash(old(t.forest), t.forest)
  {
    ghost var g := t.graph;
    DropEntryPatches(g, dir, name);
    t.graph := DropEntry(t.graph, dir, name);
    CutSpace(g, t.graph, t.forest, t.nextNode, dir, name, n, l);
    t.forest := t.forest - {Item(l, n)};
  }

  /** Creates a directory; one that exists already is left alone. */
  method UpsertDirectory(t: Tree, path: Path) returns (problem: Option<Problem>, created: Option<Node>, delta: Stats, ancestors: seq<nat>)
    requires t.Valid()
    modifies t
    ensures t.Valid() && SameTrash(old(t.forest), t.forest)
    ensures problem == (if path == [] then None
                        else if !IsDirAt(old(t.forest), Loc(None, Parent(path))) then Some(NotFound)
                        else if Occupied(old(t.forest), Loc(None, path)) && !IsDirAt(old(t.forest), Loc(None, path)) then Some(Taken)
                        else None)
    ensures created.Some? <==> problem.None? && path != [] && !Occupied(old(t.forest), Loc(None, path))
    ensures created.None? ==> t.forest == old(t.forest) && t.graph == old(t.graph) && delta == NoStats
    ensures created.Some? ==>
              && created.value.isDirectory && (forall i | i in old(t.forest) :: i.node.id != created.value.id)
              && t.forest == old(t.forest) + {Item(Loc(None, path), created.value)}
              && delta == Weight(created.value) && Chained(old(t.forest), Parent(path), ancestors)
  {
    problem, created, delta, ancestors := None, None, NoStats, [];
    if path == [] {
      return;
    }
    var l, dir := Loc(None, path), None;
    LocIsDir(t.graph, t.forest, l);
    dir, ancestors := ParentOf(t, path);
    if dir.None? {
      problem := Some(NotFound);
      return;
    }
    var found := Child(t.graph, dir.value, Base(path));
    if found.Some? {
      problem := if found.value.isDirectory then None else Some(Taken);
      return;
    }
    var n := Node(t.nextNode, true, Content("", 0, ""));
    PutLeaf(t, dir.value, Base(path), n, l);
    created, delta := Some(n), Stats(0, 1, 0);
  }

  /** Removes a file or an empty directory; deleting what is not there succeeds. */
  method DeletePath(t: Tree, path: Path) returns (problem: Option<Problem>, removed: Option<Node>, delta: Stats, ancestors: seq<nat>)
    requires t.Valid()
    modifies t
    ensures t.Valid() && SameTrash(old(t.forest), t.forest)
    ensures problem.Some? <==> path != [] && HasBelow(old(t.forest), Loc(None, path))
    ensures problem.Some? ==> problem.value == NotEmpty
    ensures removed.Some? <==> problem.None? && path != [] && Occupied(old(t.forest), Loc(None, path))
    ensures removed.None? ==> t.forest == old(t.forest) && t.graph == old(t.graph) && delta == NoStats
    ensures removed.Some? ==>
              && Item(Loc(None, path), removed.value) in old(t.forest)
              && t.forest == old(t.forest) - {Item(Loc(None, path), removed.value)}
              && delta == Negate(Weight(removed.value)) && Chained(old(t.forest), Parent(path), ancestors)
  {
    problem, removed, delta, ancestors := None, None, NoStats, [];
    if path == [] {
      return;
    }
    var l, dir := Loc(None, path), None;
    dir, ancestors := ParentOf(t, path);
    var node := if dir.Some? then Child(t.graph, dir.value, Base(path)) else None;
    if node.None? {
      NothingBelowIt(t.forest, l);
      return;
    }
    var entries := [];
    if node.value.isDirectory {
      entries := DirectoryEntries(t, node.value.id);
    }
    EmptyIff(t.graph, t.forest, l, node.value, entries);
    if entries != [] {
      problem := Some(NotEmpty);
      return;
    }
    CutLeaf(t, dir.value, Base(path), node.value, l);
    removed, delta := node, Negate(Weight(node.value));
  }

  predicate HasBelow(f: set<Item>, l: Loc) {
    exists i | i in f :: Below(i.loc, l) && i.loc != l
  }

  lemma NothingBelowIt(f: set<Item>, l: Loc)
    requires Grounded(f) && !Occupied(f, l)
    ensures !HasBelow(f, l)
  {
    forall i | i in f ensures !Below(i.loc, l) {
      if Below(i.loc, l) {
        NothingUnder(f, l, i.loc);
      }
    }
  }

  /** A directory lists no entries exactly when nothing is below it. */
  lemma EmptyIff(g: Graph, f: set<Item>, l: Loc, node: Node, entries: seq<ShardEntry>)
    requires ForestOk(f) && Represents(g, f) && Item(l, node) in f
    requires if node.isDirectory then Lists(g, node.id, entries) else entries == []
    ensures entries != [] <==> HasBelow(f, l)
  {
    if entries != [] {
      ChildItem(g, f, l, node, entries[0]);
      var i := Item(Down(l, entries[0].name), entries[0].node);
      assert i in f && Below(i.loc, l) && i.loc != l;
    } else {
      forall i | i in f && Below(i.loc, l) ensures i.loc == l {
        if i.loc != l {
          ThroughChild(g, f, l, node, i);
        }
      }
    }
  }

  /** Whether and why a path cannot be renamed. */
  function RenameVerdict(f: set<Item>, from: Path, to: Path): Option<Problem> {
    if from == [] || to == [] || from <= to then Some(Invalid)
    else if !IsDirAt(f, Loc(None, Parent(from))) || !IsDirAt(f, Loc(None, Parent(to))) then Some(NotFound)
    else if !Occupied(f, Loc(None, from)) then Some(NotFound)
    else if Occupied(f, Loc(None, to)) then Some(Taken)
    else None
  }

  lemma RenameKeepsTrash(f: set<Item>, from: Loc, to: Loc)
    requires from.trash.None? && to.trash.None?
    ensures SameTrash(f, Relocated(f, from, to))
  {
    var f' := Relocated(f, from, to);
    forall i | i in TrashItems(f) ensures i in f' {
      assert Item(Shift(i.loc, from, to), i.node) == i;
    }
    forall x | x in TrashItems(f') ensures x in f {
      var i :| i in f && x == Item(Shift(i.loc, from, to), i.node);
    }
  }

  lemma OneDirectory(f: set<Item>, l: Loc, l': Loc, id: nat, id': nat)
    requires ForestOk(f) && DirAt(f, l, id) && DirAt(f, l', id')
    ensures id == id' <==> l == l'
  {
    if l == l' {
      OneId(f, l, id, id');
    }
    if id == id' {
      OnePlace(f, l, l', id);
    }
  }

  /** A rename, within a directory or across two. */
  method RenamePath(t: Tree, from: Path, to: Path) returns (problem: Option<Problem>, ancestors: seq<nat>)
    requires t.Valid()
    modifies t
    ensures t.Valid() && SameTrash(old(t.forest), t.forest)
    ensures problem == RenameVerdict(old(t.forest), from, to)
    ensures problem.Some? ==> t.forest == old(t.forest) && t.graph == old(t.graph)
    ensures problem.None? ==> t.forest == Relocated(old(t.forest), Loc(None, from), Loc(None, to))
    ensures problem.None? ==>
              if Parent(from) == Parent(to) then ancestors == []
              else Chained(old(t.forest), Parent(from), ancestors) && Chained(old(t.forest), Parent(to), ancestors)
  {
    ancestors := [];
    if from == [] || to == [] || from <= to {
      return Some(Invalid), ancestors;
    }
    var fromDir, fromChain := ParentOf(t, from);
    if fromDir.None? {
      return Some(NotFound), ancestors;
    }
    var toDir, toChain := ParentOf(t, to);
    if toDir.None? {
      return Some(NotFound), ancestors;
    }
    OneDirectory(t.forest, Loc(None, Parent(from)), Loc(None, Parent(to)), fromDir.value, toDir.value);
    if fromDir.value != toDir.value {
      ancestors := fromChain + toChain;
      ChainAppended(t.forest, Parent(from), fromChain, toChain);
      ChainAppended(t.forest, Parent(to), fromChain, toChain);
    }
    RenameKeepsTrash(t.forest, Loc(None, from), Loc(None, to));
    var node := Child(t.graph, fromDir.value, Base(from));
    if node.None? {
      return Some(NotFound), ancestors;
    }
    if Child(t.graph, toDir.value, Base(to)).Some? {
      return Some(Taken), ancestors;
    }
    MoveEdge(t, fromDir.value, toDir.value, node.value, from, to);
    problem := None;
  }

  /** Moves a node's entry from one directory to another, under a new name. */
  method MoveEdge(t: Tree, fromDir: nat, toDir: nat, n: Node, from: Path, to: Path)
    requires t.Valid() && from != [] && to != [] && CanRelink(t.forest, Loc(None, from), Loc(None, to), n)
    requires LeadsTo(t.forest, ShardEdge(fromDir, Base(from)), Loc(None, from))
    requires LeadsTo(t.forest, ShardEdge(toDir, Base(to)), Loc(None, to))
    modifies t
    ensures t.Valid() && t.forest == Relocated(old(t.forest), Loc(None, from), Loc(None, to))
  {
    ghost var g := t.graph;
    DropEntryPatches(t.graph, fromDir, Base(from));
    t.graph := DropEntry(t.graph, fromDir, Base(from));
    ghost var cut := t.graph;
    SetEntryPatches(t.graph, toDir, Base(to), n);
    t.graph := SetEntry(t.graph, toDir, Base(to), n);
    Relink(t, g, cut, Loc(None, from), Loc(None, to), ShardEdge(fromDir, Base(from)), ShardEdge(toDir, Base(to)), n);
  }

  /** The forest after a graph has lost one edge to a node and gained another. */
  ghost method Relink(t: Tree, g: Graph, cut: Graph, l: Loc, l': Loc, e: Edge, e': Edge, n: Node)
    requires SpaceOk(g, t.forest, t.nextNode) && CanRelink(t.forest, l, l', n)
    requires LeadsTo(t.forest, e, l) && LeadsTo(t.forest, e', l')
    requires Patched(g, cut, e, None) && Patched(cut, t.graph, e', Some(n)) && Placed(t.graph) && Rooted(t.graph)
    modifies t`forest
    ensures t.forest == Relocated(old(t.forest), l, l') && t.Valid()
  {
    PatchTwice(g, cut, t.graph, e, e', n);
    RelinkSpace(g, t.graph, t.forest, t.nextNode, l, l', e, e', n);
    t.forest := Relocated(t.forest, l, l');
  }

  /** Moves a subtree into the trash: its edge is dropped and a manifest takes the node. */
  method TrashOne(t: Tree, path: Path, id: string) returns (problem: Option<Problem>, delta: Stats, ancestors: seq<nat>)
    requires t.Valid()
    modifies t
    ensures t.Valid()
    ensures problem.None? <==> path != [] && id != "" && Occupied(old(t.forest), Loc(None, path)) && !Occupied(old(t.forest), Loc(Some(id), []))
    ensures problem.Some? ==> t.forest == old(t.forest) && t.graph == old(t.graph) && delta == NoStats
    ensures problem.None? ==>
              && t.forest == Relocated(old(t.forest), Loc(None, path), Loc(Some(id), []))
              && id in t.graph.trash && t.graph.trash[id].path == path && !t.graph.trash[id].deleting
              && delta == Negate(Count(NodesBelow(old(t.forest), Loc(None, path))))
              && Chained(old(t.forest), Parent(path), ancestors)
  {
    delta, ancestors := NoStats, [];
    if path == [] || id == "" {
      return Some(Invalid), delta, ancestors;
    }
    var dir;
    dir, ancestors := ParentOf(t, path);
    FoundIsItem(t.graph, t.forest, Loc(Some(id), []));
    var node := if dir.Some? then Child(t.graph, dir.value, Base(path)) else None;
    if node.None? {
      return Some(NotFound), delta, ancestors;
    }
    if id in t.graph.trash {
      return Some(Taken), delta, ancestors;
    }
    ghost var l, l' := Loc(None, path), Loc(Some(id), []);
    delta := TrashDelta(t, node.value, false, l);
    EdgeToManifest(t, dir.value, node.value, path, id);
    problem := None;
  }

  method EdgeToManifest(t: Tree, dir: nat, n: Node, path: Path, id: string)
    requires t.Valid() && path != [] && CanRelink(t.forest, Loc(None, path), Loc(Some(id), []), n)
    requires LeadsTo(t.forest, ShardEdge(dir, Base(path)), Loc(None, path))
    modifies t
    ensures t.Valid() && t.forest == Relocated(old(t.forest), Loc(None, path), Loc(Some(id), []))
    ensures t.graph.trash == old(t.graph).trash[id := TrashManifest(path, n, false)]
  {
    ghost var g := t.graph;
    DropEntryPatches(t.graph, dir, Base(path));
    t.graph := DropEntry(t.graph, dir, Base(path));
    ghost var cut := t.graph;
    PutManifestPatches(cut, id, TrashManifest(path, n, false));
    t.graph := PutManifest(t.graph, id, TrashManifest(path, n, false));
    Relink(t, g, cut, Loc(None, path), Loc(Some(id), []), ShardEdge(dir, Base(path)), TrashEdge(id), n);
  }

  /** Puts a trashed subtree back at the path in its manifest. */
  method RestoreOne(t: Tree, id: string) returns (problem: Option<Problem>, delta: Stats, ancestors: seq<nat>)
    requires t.Valid()
    modifies t
    ensures t.Valid()
    ensures problem == (if id !in old(t.graph).trash then Some(NotFound)
                        else var m := old(t.graph).trash[id];
                          if m.deleting then Some(Busy)
                          else if !IsDirAt(old(t.forest), Loc(None, Parent(m.path))) then Some(NotFound)
                          else if Occupied(old(t.forest), Loc(None, m.path)) then Some(Taken)
                          else None)
    ensures problem.Some? ==> t.forest == old(t.forest) && t.graph == old(t.graph) && delta == NoStats
    ensures problem.None? ==>
              var path := old(t.graph).trash[id].path;
              && t.forest == Relocated(old(t.forest), Loc(Some(id), []), Loc(None, path)) && id !in t.graph.trash
              && delta == Count(NodesBelow(old(t.forest), Loc(Some(id), [])))
              && Chained(old(t.forest), Parent(path), ancestors)
  {
    delta, ancestors := NoStats, [];
    if id !in t.graph.trash {
      return Some(NotFound), delta, ancestors;
    }
    var m := t.graph.trash[id];
    if m.deleting {
      return Some(Busy), delta, ancestors;
    }
    var dir;
    dir, ancestors := ParentOf(t, m.path);
    if dir.None? {
      return Some(NotFound), delta, ancestors;
    }
    if Child(t.graph, dir.value, Base(m.path)).Some? {
      return Some(Taken), delta, ancestors;
    }
    ghost var l, l' := Loc(Some(id), []), Loc(None, m.path);
    FoundIsItem(t.graph, t.forest, l);
    delta := TrashDelta(t, m.node, true, l);
    ManifestToEdge(t, dir.value, m, id);
    problem := None;
  }

  method ManifestToEdge(t: Tree, dir: nat, m: TrashManifest, id: string)
    requires t.Valid() && m.path != [] && CanRelink(t.forest, Loc(Some(id), []), Loc(None, m.path), m.node)
    requires LeadsTo(t.forest, ShardEdge(dir, Base(m.path)), Loc(None, m.path))
    modifies t
    ensures t.Valid() && t.forest == Relocated(old(t.forest), Loc(Some(id), []), Loc(None, m.path))
    ensures t.graph.trash == old(t.graph).trash - {id}
  {
    ghost var g := t.graph;
    DropManifestPatches(t.graph, id);
    t.graph := DropManifest(t.graph, id);
    ghost var cut := t.graph;
    SetEntryPatches(t.graph, dir, Base(m.path), m.node);
    t.graph := SetEntry(t.graph, dir, Base(m.path), m.node);
    Relink(t, g, cut, Loc(Some(id), []), Loc(None, m.path), TrashEdge(id), ShardEdge(dir, Base(m.path)), m.node);
  }
}
