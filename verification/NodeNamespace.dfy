/** The V4 directory operations on the node graph, one at a time: each relinks or rewrites a
    few shard entries, and is proved to do to the forest what its path-level meaning says. */
module NodeNamespace {
  import opened Wrappers
  import opened Paths
  import opened FlatTree
  import opened FlatMoves
  import opened NodeTree
  import opened NodeSpace

  /** The live tree as path entries. */
  function LiveEntries(f: set<Item>): set<Entry> {
    set i | i in f && i.loc.trash.None? :: Entry(i.loc.path, i.node)
  }

  function TrashItems(f: set<Item>): set<Item> {
    set i | i in f && i.loc.trash.Some?
  }

  predicate SameTrash(f: set<Item>, f': set<Item>) {
    TrashItems(f) == TrashItems(f')
  }

  lemma LiveHas(f: set<Item>, p: Path)
    requires p != []
    ensures Has(LiveEntries(f), p) <==> Occupied(f, Loc(None, p))
    ensures HasDir(LiveEntries(f), p) <==> IsDirAt(f, Loc(None, p))
  {
    var s := LiveEntries(f);
    if e :| e in s && e.path == p && e.node.isDirectory {
      var i :| i in f && i.loc.trash.None? && e == Entry(i.loc.path, i.node);
      assert i.loc == Loc(None, p);
    }
    if i :| i in f && i.loc == Loc(None, p) {
      assert Entry(p, i.node) in s;
    }
    if i :| i in f && i.loc == Loc(None, p) && i.node.isDirectory {
      assert Entry(p, i.node) in s;
    }
    if e :| e in s && e.path == p {
      var i :| i in f && i.loc.trash.None? && e == Entry(i.loc.path, i.node);
      assert i.loc == Loc(None, p);
    }
  }

  lemma LiveTree(f: set<Item>)
    requires ForestOk(f)
    ensures TreeOk(LiveEntries(f))
  {
    var s := LiveEntries(f);
    forall e | e in s ensures e.path != [] && (Parent(e.path) == [] || HasDir(s, Parent(e.path))) {
      var i :| i in f && i.loc.trash.None? && e == Entry(i.loc.path, i.node);
      assert i.loc == Loc(None, e.path);
      if Parent(e.path) != [] {
        LiveHas(f, Parent(e.path));
      }
    }
  }

  /** Relocating inside the live tree is the path rewriting of one root. */
  lemma RelocatedLive(f: set<Item>, root: Path, dest: Path)
    requires root != []
    ensures var f' := Relocated(f, Loc(None, root), Loc(None, dest + [Base(root)]));
            LiveEntries(f') == MoveOne(LiveEntries(f), root, dest) && SameTrash(f, f')
  {
    var from, to := Loc(None, root), Loc(None, dest + [Base(root)]);
    var s, f' := LiveEntries(f), Relocated(f, from, to);
    forall i | i in f ensures i.loc.trash == Shift(i.loc, from, to).trash
      ensures i.loc.trash.None? ==> Shift(i.loc, from, to).path == Relocate(root, dest, i.loc.path)
      ensures i.loc.trash.Some? ==> Shift(i.loc, from, to) == i.loc
    {
    }
    forall x | x in MoveOne(s, root, dest) ensures x in LiveEntries(f') {
      var e :| e in s && x == Entry(Relocate(root, dest, e.path), e.node);
      var i :| i in f && i.loc.trash.None? && e == Entry(i.loc.path, i.node);
      assert Item(Shift(i.loc, from, to), i.node) in f';
    }
    forall x | x in LiveEntries(f') ensures x in MoveOne(s, root, dest) {
      var y :| y in f' && y.loc.trash.None? && x == Entry(y.loc.path, y.node);
      var i :| i in f && y == Item(Shift(i.loc, from, to), i.node);
      assert Entry(i.loc.path, i.node) in s;
    }
    forall i | i in f && i.loc.trash.Some? ensures i in f' {
      assert Item(Shift(i.loc, from, to), i.node) == i;
    }
  }

  // ---- One step of a move of several roots ----

  lemma LiveDirAt(f: set<Item>, p: Path, id: nat)
    ensures DirAt(f, Loc(None, p), id) <==>
            if p == [] then id == RootNode.id
            else exists e | e in LiveEntries(f) :: e.path == p && e.node.isDirectory && e.node.id == id
  {
    if i :| i in f && i.loc == Loc(None, p) && i.node.isDirectory && i.node.id == id {
      assert Entry(p, i.node) in LiveEntries(f);
    }
  }

  /** A directory that no root contains is still where it was. */
  lemma DirStays(f0: set<Item>, f: set<Item>, roots: seq<Path>, dest: Path, p: Path, id: nat)
    requires ForestOk(f0) && [] !in roots && LiveEntries(f) == MoveAll(LiveEntries(f0), roots, dest)
    requires forall k | 0 <= k < |roots| :: !(roots[k] <= p)
    requires DirAt(f0, Loc(None, p), id)
    ensures DirAt(f, Loc(None, p), id)
  {
    LiveDirAt(f0, p, id);
    LiveDirAt(f, p, id);
    LiveTree(f0);
    MoveAllHas(LiveEntries(f0), roots, dest, p);
  }

  /** The state of a move after k roots: the graph h stands for the forest f, in which exactly
      the first k roots have been moved. */
  ghost predicate MovedSoFar(h: Graph, f0: set<Item>, f: set<Item>, roots: seq<Path>, dest: Path, k: nat)
    requires k <= |roots| && [] !in roots[..k]
  {
    && ForestOk(f0) && ForestOk(f) && Represents(h, f) && NoStrays(h, f) && SameTrash(f0, f)
    && NamesFree(LiveEntries(f0), roots[..k], dest)
    && LiveEntries(f) == MoveAll(LiveEntries(f0), roots[..k], dest)
  }

  lemma ParentOutside(q: Path, p: Path)
    requires !(q <= p) && p != []
    ensures !(q <= Parent(p))
  {
  }

  lemma NextDirs(h: Graph, f0: set<Item>, f: set<Item>, roots: seq<Path>, dest: Path, k: nat, fromDir: nat, toDir: nat)
    requires k < |roots| && Movable(LiveEntries(f0), roots, dest) && [] !in roots[..k] && roots[k] != []
    requires MovedSoFar(h, f0, f, roots, dest, k)
    requires DirAt(f0, Loc(None, Parent(roots[k])), fromDir) && DirAt(f0, Loc(None, dest), toDir)
    ensures DirAt(f, Loc(None, Parent(roots[k])), fromDir) && DirAt(f, Loc(None, dest), toDir)
  {
    var s, root := LiveEntries(f0), roots[k];
    forall j | 0 <= j < k ensures !(roots[..k][j] <= Parent(root)) && !(roots[..k][j] <= dest) {
      RootOutside(s, roots, dest, j);
      ParentOutside(roots[j], root);
    }
    DirStays(f0, f, roots[..k], dest, Parent(root), fromDir);
    DirStays(f0, f, roots[..k], dest, dest, toDir);
  }

  /** What the next root's two edges lead to. */
  lemma NextEdges(h: Graph, f0: set<Item>, f: set<Item>, roots: seq<Path>, dest: Path, k: nat, fromDir: nat, toDir: nat)
    requires k < |roots| && Movable(LiveEntries(f0), roots, dest) && [] !in roots[..k]
    requires MovedSoFar(h, f0, f, roots, dest, k)
    requires DirAt(f0, Loc(None, Parent(roots[k])), fromDir) && DirAt(f0, Loc(None, dest), toDir)
    ensures var name, from, to := Base(roots[k]), Loc(None, roots[k]), Loc(None, dest + [Base(roots[k])]);
      && LeadsTo(f, ShardEdge(fromDir, name), from) && LeadsTo(f, ShardEdge(toDir, name), to)
      && Child(h, fromDir, name).Some? && Item(from, Child(h, fromDir, name).value) in f
      && (Child(h, toDir, name).Some? <==> !NameFree(LiveEntries(f0), roots, dest, k))
      && (Child(h, toDir, name).None? ==> CanRelink(f, from, to, Child(h, fromDir, name).value))
  {
    var s, root := LiveEntries(f0), roots[k];
    var name, from, to := Base(root), Loc(None, root), Loc(None, dest + [Base(root)]);
    NextRoot(s, roots, dest, k);
    NextDirs(h, f0, f, roots, dest, k, fromDir, toDir);
    assert Parent(to.path) == dest && Base(to.path) == name;
    LookupEdge(h, f, ShardEdge(fromDir, name), from);
    LookupEdge(h, f, ShardEdge(toDir, name), to);
    LiveHas(f, root);
    LiveHas(f, to.path);
    FoundIsItem(h, f, from);
    FoundIsItem(h, f, to);
  }

  lemma FoundIsItem(g: Graph, f: set<Item>, l: Loc)
    requires Represents(g, f) && l != LiveRoot
    ensures Occupied(f, l) <==> Lookup(g, l).Some?
    ensures Lookup(g, l).Some? ==> Item(l, Lookup(g, l).value) in f
  {
    if i :| i in f && i.loc == l {
      assert Item(l, i.node) in f;
    }
  }

  /** Relinking the next root's edge completes the step. */
  lemma MoveStep(h: Graph, h': Graph, f0: set<Item>, f: set<Item>, roots: seq<Path>, dest: Path, k: nat, fromDir: nat, toDir: nat)
    requires k < |roots| && Movable(LiveEntries(f0), roots, dest) && [] !in roots[..k] && [] !in roots[..k + 1]
    requires MovedSoFar(h, f0, f, roots, dest, k)
    requires DirAt(f0, Loc(None, Parent(roots[k])), fromDir) && DirAt(f0, Loc(None, dest), toDir)
    requires Child(h, fromDir, Base(roots[k])).Some? && Child(h, toDir, Base(roots[k])).None?
    requires Relinked(h, h', ShardEdge(fromDir, Base(roots[k])), ShardEdge(toDir, Base(roots[k])), Child(h, fromDir, Base(roots[k])).value)
    ensures MovedSoFar(h', f0, Relocated(f, Loc(None, roots[k]), Loc(None, dest + [Base(roots[k])])), roots, dest, k + 1)
  {
    var name, from, to := Base(roots[k]), Loc(None, roots[k]), Loc(None, dest + [Base(roots[k])]);
    var n, f' := Child(h, fromDir, name).value, Relocated(f, from, to);
    NextEdges(h, f0, f, roots, dest, k, fromDir, toDir);
    RelinkRepresents(h, h', f, from, to, ShardEdge(fromDir, name), ShardEdge(toDir, name), n);
    RelinkStrays(h, h', f, from, to, ShardEdge(fromDir, name), ShardEdge(toDir, name), n);
    assert Up(to) == Loc(None, dest);
    RelocatedOk(f, from, to, n);
    RelocatedLive(f, roots[k], dest);
    NamesFreeNext(LiveEntries(f0), roots, dest, k);
    InTurnNext(LiveEntries(f0), roots, dest, k);
  }

  lemma NamesFreeNext(s: set<Entry>, roots: seq<Path>, dest: Path, k: nat)
    requires k < |roots| && [] !in roots && [] !in roots[..k] && [] !in roots[..k + 1]
    requires NamesFree(s, roots[..k], dest) && NameFree(s, roots, dest, k)
    ensures NamesFree(s, roots[..k + 1], dest)
  {
    var next := roots[..k + 1];
    forall j | 0 <= j < |next| ensures NameFree(s, next, dest, j) {
      if j < k {
        assert NameFree(s, roots[..k], dest, j);
      }
    }
  }

  lemma InTurnNext(s: set<Entry>, roots: seq<Path>, dest: Path, k: nat)
    requires k < |roots| && Movable(s, roots, dest) && [] !in roots[..k] && [] !in roots[..k + 1]
    requires NamesFree(s, roots[..k + 1], dest)
    ensures MoveOne(MoveAll(s, roots[..k], dest), roots[k], dest) == MoveAll(s, roots[..k + 1], dest)
  {
    NamesFreePrefix(s, roots, dest, k + 1);
    assert roots[..k + 1][..k] == roots[..k];
    InTurnStep(s, roots[..k + 1], dest);
  }

  /** The graph that a build sees: the stored shards under the ones it has loaded and changed. */
  function Overlay(g: Graph, loaded: map<(nat, nat), map<Name, ShardEntry>>): Graph {
    g.(shards := g.shards + loaded)
  }

  class Tree {
    var graph: Graph
    var nextNode: nat
    ghost var forest: set<Item>

    ghost predicate Valid()
      reads this
    {
      SpaceOk(graph, forest, nextNode)
    }

    constructor (shardOf: Name -> nat)
      ensures Valid() && forest == {} && graph.shards == map[] && graph.trash == map[]
    {
      graph := Graph(shardOf, map[], map[]);
      nextNode := RootNode.id + 1;
      forest := {};
      new;
      EmptyRepresents(graph);
    }

    /** Walks the shards of the path, segment by segment. */
    method Resolve(path: Path) returns (node: Option<Node>)
      ensures node == Lookup(graph, Loc(None, path))
    {
      var current := RootNode;
      for i := 0 to |path|
        invariant Walk(graph, RootNode, path) == Walk(graph, current, path[i..])
      {
        assert path[i..][0] == path[i] && path[i..][1..] == path[i + 1..];
        if !current.isDirectory {
          return None;
        }
        var child := Child(graph, current.id, path[i]);
        if child.None? {
          return None;
        }
        current := child.value;
      }
      node := Some(current);
    }

    /** The same walk through directories only, with the ids passed on the way. */
    method ResolveDirectoryChain(path: Path) returns (dir: Option<nat>, chain: seq<nat>)
      requires Valid()
      ensures dir.Some? <==> IsDirAt(forest, Loc(None, path))
      ensures dir.Some? ==> DirAt(forest, Loc(None, path), dir.value) && |chain| == |path| + 1
      ensures dir.Some? ==> Chained(forest, path, chain)
    {
      var current := RootNode;
      chain := [RootNode.id];
      assert path[..0] == [];
      for i := 0 to |path|
        invariant current.isDirectory && |chain| == i + 1
        invariant Lookup(graph, Loc(None, path[..i])) == Some(current)
        invariant forall j | 0 <= j <= i :: DirAt(forest, Loc(None, path[..j]), chain[j])
      {
        ghost var l := Loc(None, path[..i + 1]);
        assert Parent(l.path) == path[..i];
        LookupLast(graph, l);
        var child := Child(graph, current.id, path[i]);
        if child.None? || !child.value.isDirectory {
          NoDirectory(graph, forest, path, i + 1);
          return None, chain;
        }
        current := child.value;
        FoundDir(graph, forest, l, current);
        chain := chain + [current.id];
      }
      assert path[..|path|] == path;
      assert forall i | 0 <= i <= |path| :: OnTheWay(forest, path, i, chain);
      FoundDir(graph, forest, Loc(None, path), current);
      dir := Some(current.id);
    }

    /** Relinks one edge among the loaded shards, loading the two shards it touches. */
    method ApplyMove(loaded: map<(nat, nat), map<Name, ShardEntry>>, root: Path, fromDir: nat, toDir: nat)
      returns (error: Option<MoveError>, loaded': map<(nat, nat), map<Name, ShardEntry>>)
      requires root != [] && Placed(Overlay(graph, loaded))
      ensures var name, h, h' := Base(root), Overlay(graph, loaded), Overlay(graph, loaded');
        && error == (if Child(h, fromDir, name).None? then Some(Missing(root))
                     else if Child(h, toDir, name).Some? then Some(PathConflict) else None)
        && (error.None? ==> Relinked(h, h', ShardEdge(fromDir, name), ShardEdge(toDir, name), Child(h, fromDir, name).value))
        && Placed(h')
    {
      var name := Base(root);
      var fromKey, toKey := (fromDir, graph.shardOf(name)), (toDir, graph.shardOf(name));
      LoadedSame(graph, loaded, fromKey);
      loaded' := Load(graph, loaded, fromKey);
      if name !in loaded'[fromKey] {
        return Some(Missing(root)), loaded';
      }
      var entry := loaded'[fromKey][name];
      LoadedSame(graph, loaded', toKey);
      loaded' := Load(graph, loaded', toKey);
      if name in loaded'[toKey] {
        return Some(PathConflict), loaded';
      }
      ghost var both := loaded';
      loaded' := loaded'[fromKey := loaded'[fromKey] - {name}];
      loaded' := loaded'[toKey := loaded'[toKey][name := entry.(name := name)]];
      error := None;
      RelinkLoaded(graph, both, fromDir, toDir, name, entry);
    }

    /** Plans every root: what it is, and where its parent is. */
    method PlanMoves(roots: seq<Path>, dest: Path) returns (problem: Option<MoveError>, parents: seq<nat>, ancestors: seq<nat>)
      requires Valid() && [] !in roots
      ensures problem == FirstProblem(LiveEntries(forest), roots, dest)
      ensures problem.None? ==> |parents| == |roots|
      ensures problem.None? ==> forall k | 0 <= k < |roots| :: DirAt(forest, Loc(None, Parent(roots[k])), parents[k])
      ensures problem.None? ==> forall k | 0 <= k < |roots| :: Chained(forest, Parent(roots[k]), ancestors)
    {
      ghost var s := LiveEntries(forest);
      problem, parents, ancestors := None, [], [];
      for k := 0 to |roots|
        invariant [] !in roots[k..] && problem.None? && FirstProblem(s, roots, dest) == FirstProblem(s, roots[k..], dest)
        invariant PlannedTo(forest, roots, k, parents, ancestors)
      {
        assert roots[k..][0] == roots[k] && roots[k..][1..] == roots[k + 1..];
        problem := PlanRoot(roots[k], dest);
        if problem.Some? {
          return;
        }
        ParentIsDir(forest, roots[k]);
        var parent, chain := ResolveDirectoryChain(Parent(roots[k]));
        PlannedNext(forest, roots, k, parents, ancestors, parent.value, chain);
        parents, ancestors := parents + [parent.value], ancestors + chain;
      }
    }

    method PlanRoot(root: Path, dest: Path) returns (problem: Option<MoveError>)
      requires Valid() && root != []
      ensures problem == RootProblem(LiveEntries(forest), root, dest)
    {
      var node := Resolve(root);
      LiveHas(forest, root);
      FoundIsItem(graph, forest, Loc(None, root));
      if node.None? {
        return Some(Missing(root));
      }
      var to := dest + [Base(root)];
      if to == root || (node.value.isDirectory && root < to) {
        return Some(InvalidMove);
      }
      problem := None;
    }

    /** Relinks the planned roots one after the other among the loaded shards. */
    method BuildMoves(roots: seq<Path>, dest: Path, parents: seq<nat>, toDir: nat)
      returns (error: Option<MoveError>, loaded: map<(nat, nat), map<Name, ShardEntry>>, ghost f: set<Item>)
      requires Valid() && Movable(LiveEntries(forest), roots, dest)
      requires |parents| == |roots| && DirAt(forest, Loc(None, dest), toDir)
      requires forall k | 0 <= k < |roots| :: DirAt(forest, Loc(None, Parent(roots[k])), parents[k])
      ensures error.None? ==> [] !in roots[..|roots|] && MovedSoFar(Overlay(graph, loaded), forest, f, roots, dest, |roots|)
      ensures error.None? ==> Placed(Overlay(graph, loaded))
      ensures error.Some? ==> error.value == PathConflict && !NamesFree(LiveEntries(forest), roots, dest)
    {
      error, loaded, f := None, map[], forest;
      NothingMoved(graph, forest, roots, dest);
      for k := 0 to |roots|
        invariant [] !in roots[..k] && MovedSoFar(Overlay(graph, loaded), forest, f, roots, dest, k)
        invariant Placed(Overlay(graph, loaded))
        invariant error.None?
      {
        ghost var h := Overlay(graph, loaded);
        NextEdges(h, forest, f, roots, dest, k, parents[k], toDir);
        error, loaded := ApplyMove(loaded, roots[k], parents[k], toDir);
        if error.Some? {
          assert !NameFree(LiveEntries(forest), roots, dest, k);
          return;
        }
        MoveStep(h, Overlay(graph, loaded), forest, f, roots, dest, k, parents[k], toDir);
        f := Relocated(f, Loc(None, roots[k]), Loc(None, dest + [Base(roots[k])]));
      }
    }

    /** movePaths: what it does to the tree is what path rewriting does, with the same verdict. */
    method MovePaths(paths: seq<Path>, dest: Path) returns (failure: Option<Failure>, ancestors: seq<nat>, ghost roots: seq<Path>)
      requires Valid()
      modifies this
      ensures Valid() && SameTrash(old(forest), forest)
      ensures failure.Some? ==> forest == old(forest) && graph == old(graph)
      ensures failure.Some? && failure.value.BadRoots? <==> paths == [] || [] in paths
      ensures paths != [] && [] !in paths ==>
                && RootsOf(roots, paths) && [] !in roots
                && var s := LiveEntries(old(forest));
                  match MoveVerdict(s, roots, dest)
                  case Some(error) => failure == Some(BadMove(error))
                  case None => failure.None? && LiveEntries(forest) == MoveAll(s, roots, dest)
      ensures failure.None? ==> [] !in roots && Chained(old(forest), dest, ancestors)
      ensures failure.None? ==> forall k | 0 <= k < |roots| :: Chained(old(forest), Parent(roots[k]), ancestors)
    {
      ancestors, roots := [], [];
      var normal := NormalizeRoots(paths);
      if normal.Err? {
        return Some(BadRoots(normal.error)), ancestors, roots;
      }
      roots := normal.value;
      NoEmptyRoot(roots, paths);
      var error;
      error, ancestors := MoveRoots(normal.value, dest);
      failure := if error.Some? then Some(BadMove(error.value)) else None;
    }

    method MoveRoots(roots: seq<Path>, dest: Path) returns (error: Option<MoveError>, ancestors: seq<nat>)
      requires Valid() && Antichain(roots) && [] !in roots
      modifies this
      ensures Valid() && SameTrash(old(forest), forest)
      ensures error.Some? ==> forest == old(forest) && graph == old(graph)
      ensures error == MoveVerdict(LiveEntries(old(forest)), roots, dest)
      ensures error.None? ==> LiveEntries(forest) == MoveAll(LiveEntries(old(forest)), roots, dest)
      ensures error.None? ==> Chained(old(forest), dest, ancestors)
      ensures error.None? ==> forall k | 0 <= k < |roots| :: Chained(old(forest), Parent(roots[k]), ancestors)
    {
      LiveTree(forest);
      AllProblems(LiveEntries(forest), roots, dest);
      var toDir, chain := ResolveDirectoryChain(dest);
      ancestors := chain;
      if dest != [] {
        LiveHas(forest, dest);
      }
      if toDir.None? {
        return Some(NoDestination), ancestors;
      }
      var problem, parents, touched := PlanMoves(roots, dest);
      if problem.Some? {
        return problem, ancestors;
      }
      ChainAppended(forest, dest, chain, touched);
      forall k | 0 <= k < |roots| ensures Chained(forest, Parent(roots[k]), chain + touched) {
        ChainAppended(forest, Parent(roots[k]), chain, touched);
      }
      ancestors := chain + touched;
      error := ApplyPlan(roots, dest, parents, toDir.value);
    }

    method ApplyPlan(roots: seq<Path>, dest: Path, parents: seq<nat>, toDir: nat) returns (error: Option<MoveError>)
      requires Valid() && Movable(LiveEntries(forest), roots, dest)
      requires |parents| == |roots| && DirAt(forest, Loc(None, dest), toDir)
      requires forall k | 0 <= k < |roots| :: DirAt(forest, Loc(None, Parent(roots[k])), parents[k])
      modifies this
      ensures Valid() && SameTrash(old(forest), forest)
      ensures error.Some? ==> forest == old(forest) && graph == old(graph) && error.value == PathConflict
      ensures error.None? ==> LiveEntries(forest) == MoveAll(LiveEntries(old(forest)), roots, dest)
      ensures error.Some? <==> Collides(LiveEntries(old(forest)), roots, dest)
    {
      CollisionIsOccupiedName(LiveEntries(forest), roots, dest);
      var loaded;
      ghost var f;
      error, loaded, f := BuildMoves(roots, dest, parents, toDir);
      if error.None? {
        assert roots[..|roots|] == roots;
        MovedIds(forest, f, roots, dest, nextNode);
        graph := Overlay(graph, loaded);
        forest := f;
      }
    }
  }

  predicate OnTheWay(f: set<Item>, p: Path, i: nat, ids: seq<nat>)
    requires i <= |p|
  {
    exists k | 0 <= k < |ids| :: DirAt(f, Loc(None, p[..i]), ids[k])
  }

  /** ids lists every directory on the way to p. */
  predicate Chained(f: set<Item>, p: Path, ids: seq<nat>) {
    forall i | 0 <= i <= |p| :: OnTheWay(f, p, i, ids)
  }

  lemma MoreOnTheWay(f: set<Item>, p: Path, i: nat, ids: seq<nat>, chain: seq<nat>)
    requires i <= |p| && (OnTheWay(f, p, i, ids) || OnTheWay(f, p, i, chain))
    ensures OnTheWay(f, p, i, ids + chain)
  {
    if k :| 0 <= k < |ids| && DirAt(f, Loc(None, p[..i]), ids[k]) {
      assert (ids + chain)[k] == ids[k];
    } else {
      var k :| 0 <= k < |chain| && DirAt(f, Loc(None, p[..i]), chain[k]);
      assert (ids + chain)[|ids| + k] == chain[k];
    }
  }

  lemma ChainAppended(f: set<Item>, p: Path, ids: seq<nat>, chain: seq<nat>)
    requires Chained(f, p, ids) || Chained(f, p, chain)
    ensures Chained(f, p, ids + chain)
  {
    forall i | 0 <= i <= |p| ensures OnTheWay(f, p, i, ids + chain) {
      assert OnTheWay(f, p, i, ids) || OnTheWay(f, p, i, chain);
      MoreOnTheWay(f, p, i, ids, chain);
    }
  }

  /** The parents of the first k roots, and all directories on the way to them. */
  predicate PlannedTo(f: set<Item>, roots: seq<Path>, k: nat, parents: seq<nat>, ancestors: seq<nat>)
    requires k <= |roots| && [] !in roots
  {
    && |parents| == k
    && (forall j | 0 <= j < k :: DirAt(f, Loc(None, Parent(roots[j])), parents[j]))
    && (forall j | 0 <= j < k :: Chained(f, Parent(roots[j]), ancestors))
  }

  lemma PlannedNext(f: set<Item>, roots: seq<Path>, k: nat, parents: seq<nat>, ancestors: seq<nat>, parent: nat, chain: seq<nat>)
    requires k < |roots| && [] !in roots && PlannedTo(f, roots, k, parents, ancestors)
    requires DirAt(f, Loc(None, Parent(roots[k])), parent) && Chained(f, Parent(roots[k]), chain)
    ensures PlannedTo(f, roots, k + 1, parents + [parent], ancestors + chain)
  {
    forall j | 0 <= j <= k ensures Chained(f, Parent(roots[j]), ancestors + chain) {
      ChainAppended(f, Parent(roots[j]), ancestors, chain);
    }
  }

  lemma ParentIsDir(f: set<Item>, root: Path)
    requires ForestOk(f) && root != [] && Has(LiveEntries(f), root)
    ensures IsDirAt(f, Loc(None, Parent(root)))
  {
    LiveHas(f, root);
  }

  lemma NothingMoved(g: Graph, f: set<Item>, roots: seq<Path>, dest: Path)
    requires ForestOk(f) && Represents(g, f) && NoStrays(g, f)
    ensures Overlay(g, map[]) == g && [] !in roots[..0] && MovedSoFar(g, f, f, roots, dest, 0)
  {
    var s := LiveEntries(f);
    assert roots[..0] == [];
    assert forall e | e in s :: Entry(Target(s, [], dest, e.path), e.node) == e;
    assert g.shards + map[] == g.shards;
  }

  lemma MovedIds(f0: set<Item>, f: set<Item>, roots: seq<Path>, dest: Path, nextNode: nat)
    requires [] !in roots && LiveEntries(f) == MoveAll(LiveEntries(f0), roots, dest) && SameTrash(f0, f)
    requires forall i | i in f0 :: i.node.id < nextNode
    ensures forall i | i in f :: i.node.id < nextNode
  {
    var s := LiveEntries(f0);
    forall i | i in f ensures i.node.id < nextNode {
      if i.loc.trash.Some? {
        assert i in TrashItems(f) && i in TrashItems(f0);
      } else {
        assert Entry(i.loc.path, i.node) in LiveEntries(f);
        var e :| e in s && e.node == i.node;
      }
    }
  }

  /** A shard is read at most once in a build. */
  function Load(g: Graph, loaded: map<(nat, nat), map<Name, ShardEntry>>, key: (nat, nat)): map<(nat, nat), map<Name, ShardEntry>> {
    loaded[key := if key in loaded then loaded[key] else ShardMap(g, key.0, key.1)]
  }

  lemma MergeUpdate<K, V>(m: map<K, V>, l: map<K, V>, k: K, v: V)
    ensures m + l[k := v] == (m + l)[k := v]
  {
  }

  lemma LoadedShard(g: Graph, loaded: map<(nat, nat), map<Name, ShardEntry>>, key: (nat, nat))
    requires key in loaded
    ensures ShardMap(Overlay(g, loaded), key.0, key.1) == loaded[key]
  {
  }

  lemma CutLoaded(g: Graph, loaded: map<(nat, nat), map<Name, ShardEntry>>, dir: nat, name: Name)
    requires (dir, g.shardOf(name)) in loaded
    ensures var key := (dir, g.shardOf(name));
      Overlay(g, loaded[key := loaded[key] - {name}]) == DropEntry(Overlay(g, loaded), dir, name)
  {
    var key := (dir, g.shardOf(name));
    LoadedShard(g, loaded, key);
    MergeUpdate(g.shards, loaded, key, loaded[key] - {name});
  }

  lemma PutLoaded(g: Graph, loaded: map<(nat, nat), map<Name, ShardEntry>>, dir: nat, name: Name, node: Node)
    requires (dir, g.shardOf(name)) in loaded
    ensures var key := (dir, g.shardOf(name));
      Overlay(g, loaded[key := loaded[key][name := ShardEntry(name, node)]]) == SetEntry(Overlay(g, loaded), dir, name, node)
  {
    var key := (dir, g.shardOf(name));
    LoadedShard(g, loaded, key);
    MergeUpdate(g.shards, loaded, key, loaded[key][name := ShardEntry(name, node)]);
  }

  lemma RelinkLoaded(g: Graph, loaded: map<(nat, nat), map<Name, ShardEntry>>, fromDir: nat, toDir: nat, name: Name, entry: ShardEntry)
    requires var fromKey, toKey := (fromDir, g.shardOf(name)), (toDir, g.shardOf(name));
      fromKey in loaded && toKey in loaded
    ensures
      var fromKey, toKey := (fromDir, g.shardOf(name)), (toDir, g.shardOf(name));
      var cut := loaded[fromKey := loaded[fromKey] - {name}];
      var put := cut[toKey := cut[toKey][name := ShardEntry(name, entry.node)]];
      && Relinked(Overlay(g, loaded), Overlay(g, put), ShardEdge(fromDir, name), ShardEdge(toDir, name), entry.node)
      && (Placed(Overlay(g, loaded)) ==> Placed(Overlay(g, put)))
  {
    var fromKey, toKey := (fromDir, g.shardOf(name)), (toDir, g.shardOf(name));
    var cut := loaded[fromKey := loaded[fromKey] - {name}];
    var put := cut[toKey := cut[toKey][name := ShardEntry(name, entry.node)]];
    CutLoaded(g, loaded, fromDir, name);
    DropEntryPatches(Overlay(g, loaded), fromDir, name);
    PutLoaded(g, cut, toDir, name, entry.node);
    SetEntryPatches(Overlay(g, cut), toDir, name, entry.node);
    PatchTwice(Overlay(g, loaded), Overlay(g, cut), Overlay(g, put), ShardEdge(fromDir, name), ShardEdge(toDir, name), entry.node);
  }

  lemma LoadSameShard(g: Graph, loaded: map<(nat, nat), map<Name, ShardEntry>>, key: (nat, nat), d: nat, k: nat)
    ensures ShardMap(Overlay(g, Load(g, loaded, key)), d, k) == ShardMap(Overlay(g, loaded), d, k)
  {
  }

  /** Loading a shard changes nothing that can be looked up. */
  lemma LoadedSame(g: Graph, loaded: map<(nat, nat), map<Name, ShardEntry>>, key: (nat, nat))
    ensures var h, h' := Overlay(g, loaded), Overlay(g, Load(g, loaded, key));
      && (forall e :: Out(h', e) == Out(h, e))
      && (Placed(h) ==> Placed(h'))
  {
    var h, h' := Overlay(g, loaded), Overlay(g, Load(g, loaded, key));
    forall d: nat, k: nat ensures ShardMap(h', d, k) == ShardMap(h, d, k) {
      LoadSameShard(g, loaded, key, d, k);
    }
  }

  lemma EmptyRepresents(g: Graph)
    requires g.shards == map[] && g.trash == map[]
    ensures Represents(g, {})
  {
    forall l | l != LiveRoot ensures Lookup(g, l).None? {
      if l.trash.None? {
        assert Child(g, RootNode.id, l.path[0]).None?;
      }
    }
  }

  lemma NoDirectory(g: Graph, f: set<Item>, path: Path, i: nat)
    requires ForestOk(f) && Represents(g, f) && 0 < i <= |path|
    requires var n := Lookup(g, Loc(None, path[..i])); n.None? || !n.value.isDirectory
    ensures !IsDirAt(f, Loc(None, path))
    decreases |path| - i
  {
    if i == |path| {
      assert path[..i] == path;
      forall x | x in f && x.loc == Loc(None, path) ensures !x.node.isDirectory {
        assert Item(x.loc, x.node) in f;
      }
    } else {
      LookupLast(g, Loc(None, path[..i + 1]));
      assert Parent(path[..i + 1]) == path[..i];
      NoDirectory(g, f, path, i + 1);
    }
  }
}
