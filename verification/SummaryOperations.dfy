/** Each operation of the namespace together with the maintenance it asks for: rebuilding
    exactly the ancestors it returns makes every stored summary right again, and the change of
    the counts it hands to the reducer is the one that happened. */
module SummaryOperations {
  import opened Wrappers
  import opened Paths
  import opened FlatTree
  import opened FlatMoves
  import opened NodeTree
  import opened NodeSpace
  import opened NodeNamespace
  import opened NodeAccounts
  import opened NodeMutations
  import opened NodeConservation
  import opened Summaries
  import opened TreeSummaries
  import opened SummaryUpkeep

  /** Lists the tree and rebuilds the ancestors. */
  method Rebuild(t: Tree, store: SummaryStore, ancestors: seq<nat>, ghost f: set<Item>)
    requires t.Valid() && Right(store.snapshots, f) && OthersKept(f, t.forest, Listed(ancestors))
    modifies store
    ensures Right(store.snapshots, t.forest) && Listed(ancestors) <= store.snapshots.Keys
  {
    var listing, entries := BuildListing(t);
    var dirty := set k | 0 <= k < |ancestors| :: ancestors[k];
    assert dirty == Listed(ancestors);
    var ok := Upkeep(store, listing, dirty, t.graph, f, t.forest, entries);
  }

  lemma NothingChanged(f: set<Item>)
    ensures Conserves(f, f, NoStats)
  {
  }

  lemma ChainAbove(f: set<Item>, path: Path, ancestors: seq<nat>)
    requires ForestOk(f) && path != [] && Chained(f, Parent(path), ancestors)
    ensures HoldsAbove(f, Loc(None, path), Listed(ancestors))
  {
    ChainHolds(f, path, ancestors, Listed(ancestors));
  }

  method ReplaceFile(t: Tree, store: SummaryStore, path: Path, hash: string, size: nat, expected: Option<string>, absent: bool)
    returns (problem: Option<Problem>, matched: bool, delta: Stats)
    requires t.Valid() && Right(store.snapshots, t.forest)
    modifies t, store
    ensures t.Valid() && Right(store.snapshots, t.forest) && Conserves(old(t.forest), t.forest, delta)
    ensures problem.None? && matched ==> path != [] && exists was, now :: Replaced(old(t.forest), t.forest, Loc(None, path), was, now, hash, size)
    ensures problem.Some? || !matched ==> t.forest == old(t.forest)
  {
    ghost var f := t.forest;
    var ancestors;
    ghost var was, now;
    problem, matched, delta, ancestors, was, now := NodeMutations.ReplaceFile(t, path, hash, size, expected, absent);
    if problem.None? && matched {
      ReplacedKept(f, t.forest, path, was, now, hash, size, ancestors, t.nextNode);
      Rebuild(t, store, ancestors, f);
    } else {
      NothingChanged(f);
    }
  }

  lemma ReplacedKept(f: set<Item>, f': set<Item>, path: Path, was: Option<Node>, now: Node, hash: string, size: nat, ancestors: seq<nat>, next: nat)
    requires ForestOk(f) && ForestOk(f') && path != [] && Chained(f, Parent(path), ancestors)
    requires Replaced(f, f', Loc(None, path), was, now, hash, size) && !IsDirAt(f, Loc(None, path))
    ensures OthersKept(f, f', Listed(ancestors)) && Conserves(f, f', ReplaceDelta(was, now))
  {
    var l := Loc(None, path);
    ChainAbove(f, path, ancestors);
    if was.Some? {
      assert Item(l, was.value) in f && !was.value.isDirectory;
      UpdateKept(f, l, was.value, now, Listed(ancestors));
    } else {
      NewIsUnused(f, l, now);
      LeafKept(f, l, now, Listed(ancestors));
    }
    ReplaceConserves(f, f', l, was, now, hash, size);
  }

  lemma NewIsUnused(f: set<Item>, l: Loc, n: Node)
    requires ForestOk(f + {Item(l, n)}) && !Occupied(f, l)
    ensures n.id != RootNode.id && forall i | i in f :: i.node.id != n.id
  {
    assert Item(l, n) in f + {Item(l, n)};
    forall i | i in f ensures i.node.id != n.id {
      assert i in f + {Item(l, n)};
    }
  }

  method UpsertDirectory(t: Tree, store: SummaryStore, path: Path) returns (problem: Option<Problem>, created: Option<Node>, delta: Stats)
    requires t.Valid() && Right(store.snapshots, t.forest)
    modifies t, store
    ensures t.Valid() && Right(store.snapshots, t.forest) && Conserves(old(t.forest), t.forest, delta)
    ensures created.Some? <==> problem.None? && path != [] && !Occupied(old(t.forest), Loc(None, path))
    ensures t.forest == if created.Some? then old(t.forest) + {Item(Loc(None, path), created.value)} else old(t.forest)
  {
    ghost var f := t.forest;
    var ancestors;
    problem, created, delta, ancestors := NodeMutations.UpsertDirectory(t, path);
    if created.Some? {
      var n := created.value;
      ChainAbove(f, path, ancestors);
      NewIsUnused(f, Loc(None, path), n);
      LeafKept(f, Loc(None, path), n, Listed(ancestors));
      CreateConserves(f, Loc(None, path), n);
      Rebuild(t, store, ancestors, f);
    } else {
      NothingChanged(f);
    }
  }

  method DeletePath(t: Tree, store: SummaryStore, path: Path) returns (problem: Option<Problem>, removed: Option<Node>, delta: Stats)
    requires t.Valid() && Right(store.snapshots, t.forest)
    modifies t, store
    ensures t.Valid() && Right(store.snapshots, t.forest) && Conserves(old(t.forest), t.forest, delta)
    ensures removed.Some? <==> problem.None? && path != [] && Occupied(old(t.forest), Loc(None, path))
    ensures problem.Some? <==> path != [] && HasBelow(old(t.forest), Loc(None, path))
    ensures t.forest == if removed.Some? then old(t.forest) - {Item(Loc(None, path), removed.value)} else old(t.forest)
  {
    ghost var f := t.forest;
    var ancestors;
    problem, removed, delta, ancestors := NodeMutations.DeletePath(t, path);
    if removed.Some? {
      ChainAbove(f, path, ancestors);
      CutKept(f, Loc(None, path), removed.value, Listed(ancestors));
      DeleteConserves(f, Loc(None, path), removed.value);
      Rebuild(t, store, ancestors, f);
    } else {
      NothingChanged(f);
    }
  }

  lemma RenameCan(f: set<Item>, from: Path, to: Path) returns (n: Node)
    requires RenameVerdict(f, from, to).None?
    ensures from != [] && to != [] && CanRelink(f, Loc(None, from), Loc(None, to), n)
  {
    var i :| i in f && i.loc == Loc(None, from);
    n := i.node;
  }

  method RenamePath(t: Tree, store: SummaryStore, from: Path, to: Path) returns (problem: Option<Problem>)
    requires t.Valid() && Right(store.snapshots, t.forest)
    modifies t, store
    ensures t.Valid() && Right(store.snapshots, t.forest) && Conserves(old(t.forest), t.forest, NoStats)
    ensures problem == RenameVerdict(old(t.forest), from, to)
    ensures t.forest == if problem.None? then Relocated(old(t.forest), Loc(None, from), Loc(None, to)) else old(t.forest)
  {
    ghost var f := t.forest;
    var ancestors;
    problem, ancestors := NodeMutations.RenamePath(t, from, to);
    if problem.None? {
      RenamedKept(f, from, to, ancestors);
      Rebuild(t, store, ancestors, f);
    } else {
      NothingChanged(f);
    }
  }

  lemma RenamedKept(f: set<Item>, from: Path, to: Path, ancestors: seq<nat>)
    requires ForestOk(f) && RenameVerdict(f, from, to).None?
    requires if Parent(from) == Parent(to) then ancestors == []
             else Chained(f, Parent(from), ancestors) && Chained(f, Parent(to), ancestors)
    ensures OthersKept(f, Relocated(f, Loc(None, from), Loc(None, to)), Listed(ancestors))
    ensures Conserves(f, Relocated(f, Loc(None, from), Loc(None, to)), NoStats)
  {
    var l, l' := Loc(None, from), Loc(None, to);
    var n := RenameCan(f, from, to);
    RenameConserves(f, from, to);
    if Parent(from) == Parent(to) {
      RenameInPlaceKept(f, l, l', n);
      assert Listed(ancestors) == {};
    } else {
      ChainAbove(f, from, ancestors);
      ChainAbove(f, to, ancestors);
      RelocateKept(f, l, l', n, Listed(ancestors));
    }
  }

  method MovePaths(t: Tree, store: SummaryStore, paths: seq<Path>, dest: Path) returns (failure: Option<Failure>, ghost roots: seq<Path>)
    requires t.Valid() && Right(store.snapshots, t.forest)
    modifies t, store
    ensures t.Valid() && Right(store.snapshots, t.forest) && Conserves(old(t.forest), t.forest, NoStats)
    ensures failure.None? ==> RootsOf(roots, paths) && [] !in roots && LiveEntries(t.forest) == MoveAll(LiveEntries(old(t.forest)), roots, dest)
    ensures failure.Some? ==> t.forest == old(t.forest)
  {
    ghost var f := t.forest;
    var ancestors;
    failure, ancestors, roots := t.MovePaths(paths, dest);
    if failure.None? {
      MovePathsKept(f, t.forest, roots, dest, ancestors);
      MoveConserves(f, t.forest, roots, dest);
      Rebuild(t, store, ancestors, f);
    } else {
      NothingChanged(f);
    }
  }

  method TrashOne(t: Tree, store: SummaryStore, path: Path, id: string) returns (problem: Option<Problem>, delta: Stats)
    requires t.Valid() && Right(store.snapshots, t.forest)
    modifies t, store
    ensures t.Valid() && Right(store.snapshots, t.forest) && Conserves(old(t.forest), t.forest, delta)
    ensures problem.None? <==> path != [] && id != "" && Occupied(old(t.forest), Loc(None, path)) && !Occupied(old(t.forest), Loc(Some(id), []))
    ensures t.forest == if problem.None? then Relocated(old(t.forest), Loc(None, path), Loc(Some(id), [])) else old(t.forest)
  {
    ghost var f := t.forest;
    var ancestors;
    problem, delta, ancestors := NodeMutations.TrashOne(t, path, id);
    if problem.None? {
      TrashedKept(f, path, id, ancestors);
      Rebuild(t, store, ancestors, f);
    } else {
      NothingChanged(f);
    }
  }

  lemma TrashedKept(f: set<Item>, path: Path, id: string, ancestors: seq<nat>)
    requires ForestOk(f) && path != [] && Occupied(f, Loc(None, path)) && !Occupied(f, Loc(Some(id), []))
    requires Chained(f, Parent(path), ancestors)
    ensures OthersKept(f, Relocated(f, Loc(None, path), Loc(Some(id), [])), Listed(ancestors))
    ensures Conserves(f, Relocated(f, Loc(None, path), Loc(Some(id), [])), Negate(Count(NodesBelow(f, Loc(None, path)))))
  {
    var l, l' := Loc(None, path), Loc(Some(id), []);
    var i :| i in f && i.loc == l;
    ChainAbove(f, path, ancestors);
    ManifestAbove(f, id, Listed(ancestors));
    RelocateKept(f, l, l', i.node, Listed(ancestors));
    TrashConserves(f, path, id);
  }

  method RestoreOne(t: Tree, store: SummaryStore, id: string) returns (problem: Option<Problem>, delta: Stats)
    requires t.Valid() && Right(store.snapshots, t.forest)
    modifies t, store
    ensures t.Valid() && Right(store.snapshots, t.forest) && Conserves(old(t.forest), t.forest, delta)
    ensures problem.None? ==> id in old(t.graph).trash
    ensures t.forest == if problem.None? then Relocated(old(t.forest), Loc(Some(id), []), Loc(None, old(t.graph).trash[id].path)) else old(t.forest)
  {
    ghost var f, g := t.forest, t.graph;
    var ancestors;
    problem, delta, ancestors := NodeMutations.RestoreOne(t, id);
    if problem.None? {
      RestoredKept(g, f, id, g.trash[id].path, ancestors);
      Rebuild(t, store, ancestors, f);
    } else {
      NothingChanged(f);
    }
  }

  lemma RestoredKept(g: Graph, f: set<Item>, id: string, path: Path, ancestors: seq<nat>)
    requires ForestOk(f) && Represents(g, f) && id in g.trash && path != [] && !Occupied(f, Loc(None, path))
    requires Chained(f, Parent(path), ancestors)
    ensures OthersKept(f, Relocated(f, Loc(Some(id), []), Loc(None, path)), Listed(ancestors))
    ensures Conserves(f, Relocated(f, Loc(Some(id), []), Loc(None, path)), Count(NodesBelow(f, Loc(Some(id), []))))
  {
    var l, l' := Loc(Some(id), []), Loc(None, path);
    FoundItem(g, f, l, g.trash[id].node);
    ChainAbove(f, path, ancestors);
    ManifestAbove(f, id, Listed(ancestors));
    RelocateKept(f, l, l', g.trash[id].node, Listed(ancestors));
    RestoreConserves(f, id, path);
  }
}
