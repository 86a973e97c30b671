/** The conditions of the namespace runs on what a commit must find are exact: where one of them
    fails, the commit breaks the tree, or does to the counts something else than was handed over. */
module NamespaceLimits {
  import opened Wrappers
  import opened Paths
  import opened FlatTree
  import opened NodeTree
  import opened NodeSpace
  import opened NodeNamespace
  import opened NodeAccounts
  import opened NodeMutations
  import opened NodeConservation
  import opened NamespaceModel
  import opened NamespaceFrames
  import opened NamespaceRuns

  // ---- Counts ----

  lemma OneForest(g: Graph, a: set<Item>, b: set<Item>)
    requires Represents(g, a) && Represents(g, b)
    ensures a == b
  {
    forall i ensures i in a <==> i in b {
      assert i == Item(i.loc, i.node);
    }
  }

  /** A set with a node in it does not count as nothing. */
  lemma SomeCount(nodes: set<Node>, n: Node)
    requires n in nodes
    ensures Count(nodes) != NoStats
  {
    if n.isDirectory {
      assert n in DirsIn(nodes);
    } else {
      assert n in FilesIn(nodes);
    }
  }

  lemma FewerCount(a: set<Node>, b: set<Node>, n: Node)
    requires a <= b && n in b && n !in a
    ensures Count(a) != Count(b)
  {
    CountApart(a, b - a);
    assert a + (b - a) == b;
    SomeCount(b - a, n);
  }

  // ---- A subtree that is cut off ----

  lemma CutSubtree(g: Graph, g': Graph, f: set<Item>, e: Edge, l: Loc)
    requires ForestOk(f) && Represents(g, f) && LeadsTo(f, e, l) && Patched(g, g', e, None) && l != LiveRoot
    ensures Represents(g', f - ItemsBelow(f, l))
  {
    forall q, n ensures Item(q, n) in f - ItemsBelow(f, l) <==> q != LiveRoot && Lookup(g', q) == Some(n) {
      if Below(q, l) {
        CutBelow(g, g', f, e, l, q);
      } else {
        PatchedLookup(g, g', f, e, None, l, q);
      }
    }
  }

  /** An entry of a directory that is nowhere is never found. */
  lemma {:induction false} StrayLookup(g: Graph, g': Graph, f: set<Item>, d: nat, x: Name, n: Option<Node>, q: Loc)
    requires Represents(g, f) && !Located(f, d) && Patched(g, g', ShardEdge(d, x), n)
    ensures Lookup(g', q) == Lookup(g, q)
    decreases |q.path|
  {
    if q.path == [] {
      if q.trash.Some? {
        assert Out(g', TrashEdge(q.trash.value)) == Out(g, TrashEdge(q.trash.value));
      }
    } else {
      StrayLookup(g, g', f, d, x, n, Up(q));
      LookupLast(g', q);
      LookupLast(g, q);
      var m := Lookup(g, Up(q));
      if m.Some? && m.value.isDirectory {
        InPlace(g, f, Up(q), m.value);
        assert Out(g', ShardEdge(m.value.id, Base(q.path))) == Out(g, ShardEdge(m.value.id, Base(q.path)));
      }
    }
  }

  lemma InPlace(g: Graph, f: set<Item>, l: Loc, m: Node)
    requires Represents(g, f) && Lookup(g, l) == Some(m) && m.isDirectory
    ensures Located(f, m.id)
  {
    if l != LiveRoot {
      FoundItem(g, f, l, m);
    }
  }

  lemma StrayRepresents(g: Graph, g': Graph, f: set<Item>, d: nat, x: Name, n: Option<Node>)
    requires Represents(g, f) && !Located(f, d) && Patched(g, g', ShardEdge(d, x), n)
    ensures Represents(g', f)
  {
    forall q, m ensures Item(q, m) in f <==> q != LiveRoot && Lookup(g', q) == Some(m) {
      StrayLookup(g, g', f, d, x, n, q);
    }
  }

  /** A directory inside a subtree goes with it. */
  lemma InsideGone(f: set<Item>, l: Loc, dir: nat)
    requires ForestOk(f) && l != LiveRoot && (Located(f, dir) ==> Below(Where(f, dir), l))
    ensures !Located(f - ItemsBelow(f, l), dir)
  {
    if Located(f, dir) {
      var m := DirInside(f, l, dir);
      WhereIs(f, dir);
    }
  }

  /** Linking a cut subtree to one of its own directories brings nothing back. */
  lemma CutAndLost(g: Graph, g1: Graph, g2: Graph, f: set<Item>, e: Edge, l: Loc, dir: nat, x: Name, n: Node)
    requires ForestOk(f) && Represents(g, f) && LeadsTo(f, e, l) && l != LiveRoot
    requires Patched(g, g1, e, None) && Patched(g1, g2, ShardEdge(dir, x), Some(n))
    requires Located(f, dir) ==> Below(Where(f, dir), l)
    ensures Represents(g2, f - ItemsBelow(f, l))
  {
    CutSubtree(g, g1, f, e, l);
    InsideGone(f, l, dir);
    StrayRepresents(g1, g2, f - ItemsBelow(f, l), dir, x, Some(n));
  }

  // ---- Each condition, if it fails ----

  ghost predicate Breaks(g: Graph, f: set<Item>, derived: Stats) {
    forall f' :: Represents(g, f') ==> !Conserves(f, f', derived)
  }

  lemma BreaksBy(g: Graph, f: set<Item>, f1: set<Item>, derived: Stats)
    requires Represents(g, f1) && !Conserves(f, f1, derived)
    ensures Breaks(g, f, derived)
  {
    forall f' | Represents(g, f') ensures !Conserves(f, f', derived) {
      OneForest(g, f1, f');
    }
  }

  lemma TargetInside(g: Graph, f: set<Item>, l: Link)
    requires ForestOk(f) && Represents(g, f) && LinkLive(f, l) && Below(To(f, l), From(f, l))
    requires Child(g, l.dir, l.name) == Some(l.node) && Child(g, l.toDir, l.toName).None?
    ensures Below(Where(f, l.toDir), From(f, l))
  {
    EntryAt(g, f, l.dir, l.name);
    EntryAt(g, f, l.toDir, l.toName);
    assert Occupied(f, From(f, l));
    if !Below(Where(f, l.toDir), From(f, l)) {
      NextBelow(Where(f, l.toDir), l.toName, From(f, l));
    }
  }

  lemma NodeLost(f: set<Item>, f': set<Item>, l: Loc, n: Node)
    requires IdsUnique(f) && Item(l, n) in f && l.trash.None? && f' <= f - ItemsBelow(f, l)
    ensures !Conserves(f, f', NoStats)
  {
    var a, b := LiveNodes(f'), LiveNodes(f);
    forall m | m in a ensures m in b && m != n {
      var i :| i in f' && i.loc.trash.None? && i.node == m;
    }
    FewerCount(a, b, n);
  }

  /** What is not live is counted out, or in, for nothing. */
  lemma DeadCount(f: set<Item>, f': set<Item>, nodes: set<Node>, n: Node)
    requires LiveNodes(f') == LiveNodes(f) && n in nodes
    ensures !Conserves(f, f', Count(nodes)) && !Conserves(f, f', Negate(Count(nodes)))
  {
    SomeCount(nodes, n);
  }

  lemma DeadShift(f: set<Item>, from: Loc, to: Loc)
    requires from.trash.Some? && to.trash.Some?
    ensures LiveNodes(Relocated(f, from, to)) == LiveNodes(f)
  {
    var f' := Relocated(f, from, to);
    forall n | n in LiveNodes(f) ensures n in LiveNodes(f') {
      var i :| i in f && i.loc.trash.None? && i.node == n;
      assert Item(Shift(i.loc, from, to), i.node) in f';
    }
    forall n | n in LiveNodes(f') ensures n in LiveNodes(f) {
      var x :| x in f' && x.loc.trash.None? && x.node == n;
      var i :| i in f && x == Item(Shift(i.loc, from, to), i.node);
    }
  }

  /** Trashing out of a directory that has itself been trashed takes from the counts what they
      no longer contain. */
  lemma TrashedOutOfTrash(g: Graph, f: set<Item>, next: nat, dir: nat, name: Name, id: string, path: Path, node: Node)
    requires SpaceOk(g, f, next) && Located(f, dir) && !Live(f, dir) && Child(g, dir, name) == Some(node) && id !in g.trash && path != []
    ensures Breaks(PutManifest(DropEntry(g, dir, name), id, TrashManifest(path, node, false)), f, Negate(Count(NodesBelow(f, At(f, dir, name)))))
  {
    var from, to := At(f, dir, name), Loc(Some(id), []);
    TrashMoves(g, f, next, dir, name, id, path, node);
    EntryAt(g, f, dir, name);
    DeadShift(f, from, to);
    DeadCount(f, Relocated(f, from, to), NodesBelow(f, from), node);
    BreaksBy(PutManifest(DropEntry(g, dir, name), id, TrashManifest(path, node, false)), f, Relocated(f, from, to), Negate(Count(NodesBelow(f, from))));
  }

  /** Restoring into a directory that has been trashed or deleted adds to the counts what is not
      in the tree. */
  lemma RestoredIntoTrash(g: Graph, f: set<Item>, next: nat, id: string, dir: nat, name: Name, node: Node)
    requires SpaceOk(g, f, next) && !Live(f, dir) && Child(g, dir, name).None? && Out(g, TrashEdge(id)) == Some(node)
    ensures Breaks(SetEntry(DropManifest(g, id), dir, name, node), f, Count(NodesBelow(f, Loc(Some(id), []))))
  {
    var l, g1 := Loc(Some(id), []), DropManifest(g, id);
    FoundItem(g, f, l, node);
    if Located(f, dir) && !Below(Where(f, dir), l) {
      NextBelow(Where(f, dir), name, l);
      assert At(f, dir, name) != l;
      RestoreMoves(g, f, next, id, dir, name, node);
      DeadShift(f, l, At(f, dir, name));
      DeadCount(f, Relocated(f, l, At(f, dir, name)), NodesBelow(f, l), node);
      BreaksBy(SetEntry(g1, dir, name, node), f, Relocated(f, l, At(f, dir, name)), Count(NodesBelow(f, l)));
    } else {
      DropManifestPatches(g, id);
      SetEntryPatches(g1, dir, name, node);
      CutAndLost(g, g1, SetEntry(g1, dir, name, node), f, TrashEdge(id), l, dir, name, node);
      DeadCut(f, l);
      DeadCount(f, f - ItemsBelow(f, l), NodesBelow(f, l), node);
      BreaksBy(SetEntry(g1, dir, name, node), f, f - ItemsBelow(f, l), Count(NodesBelow(f, l)));
    }
  }

  lemma DeadCut(f: set<Item>, l: Loc)
    requires l.trash.Some?
    ensures LiveNodes(f - ItemsBelow(f, l)) == LiveNodes(f)
  {
    forall n | n in LiveNodes(f) ensures n in LiveNodes(f - ItemsBelow(f, l)) {
      var i :| i in f && i.loc.trash.None? && i.node == n;
      assert i in f - ItemsBelow(f, l);
    }
  }

  // ---- A move of several roots, one of which goes below itself ----

  lemma WithoutSubtree(f: set<Item>, l: Loc)
    requires ForestOk(f)
    ensures ForestOk(f - ItemsBelow(f, l))
  {
    var f' := f - ItemsBelow(f, l);
    forall i | i in f' && i.loc.path != [] && Up(i.loc) != LiveRoot ensures IsDirAt(f', Up(i.loc)) {
      assert !Below(i.loc, l);
    }
  }

  /** One more entry goes into a directory that is nowhere, and with it what was below. */
  lemma OneMoreLost(g: Graph, f: set<Item>, l: Link) returns (f1: set<Item>)
    requires ForestOk(f) && Represents(g, f) && !Located(f, l.toDir)
    ensures f1 <= f && ForestOk(f1) && Represents(LinkGraph(g, l), f1) && !Located(f1, l.toDir)
  {
    var g1 := DropEntry(g, l.dir, l.name);
    DropEntryPatches(g, l.dir, l.name);
    SetEntryPatches(g1, l.toDir, l.toName, l.node);
    if Located(f, l.dir) {
      f1 := f - ItemsBelow(f, At(f, l.dir, l.name));
      EntryAt(g, f, l.dir, l.name);
      CutSubtree(g, g1, f, ShardEdge(l.dir, l.name), At(f, l.dir, l.name));
      WithoutSubtree(f, At(f, l.dir, l.name));
    } else {
      f1 := f;
      StrayRepresents(g, g1, f, l.dir, l.name, None);
    }
    StrayRepresents(g1, LinkGraph(g, l), f1, l.toDir, l.toName, Some(l.node));
  }

  lemma {:induction false} MoreLost(g: Graph, f: set<Item>, links: seq<Link>, dir: nat) returns (f': set<Item>)
    requires ForestOk(f) && Represents(g, f) && !Located(f, dir) && forall l | l in links :: l.toDir == dir
    ensures f' <= f && Represents(LinkAll(g, links), f')
    decreases |links|
  {
    f' := f;
    if links != [] {
      assert links[0] in links;
      var f1 := OneMoreLost(g, f, links[0]);
      f' := MoreLost(LinkGraph(g, links[0]), f1, links[1..], dir);
    }
  }

  lemma LostBelowItself(g: Graph, f: set<Item>, next: nat, links: seq<Link>)
    requires SpaceOk(g, f, next) && links != [] && LinkLive(f, links[0]) && Linkable(g, links)
    requires Below(To(f, links[0]), From(f, links[0])) && forall l | l in links :: l.toDir == links[0].toDir
    ensures Breaks(LinkAll(g, links), f, NoStats)
  {
    var l := links[0];
    var from := From(f, l);
    TargetInside(g, f, l);
    EntryAt(g, f, l.dir, l.name);
    LinkPatches(g, l);
    CutAndLost(g, DropEntry(g, l.dir, l.name), LinkGraph(g, l), f, ShardEdge(l.dir, l.name), from, l.toDir, l.toName, l.node);
    InsideGone(f, from, l.toDir);
    WithoutSubtree(f, from);
    var f' := MoreLost(LinkGraph(g, l), f - ItemsBelow(f, from), links[1..], l.toDir);
    NodeLost(f, f', from, l.node);
    BreaksBy(LinkAll(g, links), f, f', NoStats);
  }

  lemma StaysLinkLive(g: Graph, f: set<Item>, next: nat, l: Link, d: nat)
    requires SpaceOk(g, f, next) && LinkLive(f, l) && !Below(To(f, l), From(f, l)) && Live(f, d)
    requires Child(g, l.dir, l.name) == Some(l.node) && Child(g, l.toDir, l.toName).None?
    ensures Live(LinkForest(f, l), d)
  {
    EntryMoves(g, f, next, l);
    DirShifts(f, From(f, l), To(f, l), l.node, d);
  }

  /** One root below itself is enough, whichever it is, and whatever the others are. */
  lemma {:induction false} MoveBreaks(g: Graph, f: set<Item>, next: nat, links: seq<Link>, dir: nat)
    requires SpaceOk(g, f, next) && Linkable(g, links) && !SafeLinks(f, links)
    requires forall l | l in links :: LinkLive(f, l) && l.toDir == dir
    ensures Breaks(LinkAll(g, links), f, NoStats)
    decreases |links|
  {
    var l, rest := links[0], links[1..];
    assert l in links && forall k | k in rest :: k in links;
    if Below(To(f, l), From(f, l)) {
      LostBelowItself(g, f, next, links);
    } else {
      LinkOk(g, f, next, l);
      forall k | k in rest ensures LinkLive(LinkForest(f, l), k) {
        StaysLinkLive(g, f, next, l, k.dir);
        StaysLinkLive(g, f, next, l, k.toDir);
      }
      MoveBreaks(LinkGraph(g, l), LinkForest(f, l), next, rest, dir);
    }
  }

  lemma OneLink(f: set<Item>, links: seq<Link>)
    requires |links| == 1 && LinkLive(f, links[0])
    ensures SafeLinks(f, links) <==> !Below(To(f, links[0]), From(f, links[0]))
    ensures SafeLinks(f, links) ==> RelocateAll(f, links) == LinkForest(f, links[0])
    ensures forall g :: LinkAll(g, links) == LinkGraph(g, links[0])
  {
    var rest := links[1..];
    assert rest == [];
    if !Below(To(f, links[0]), From(f, links[0])) {
      assert SafeLinks(LinkForest(f, links[0]), rest) && RelocateAll(LinkForest(f, links[0]), rest) == LinkForest(f, links[0]);
    }
    forall g ensures LinkAll(g, links) == LinkGraph(g, links[0]) {
      assert LinkAll(LinkGraph(g, links[0]), rest) == LinkGraph(g, links[0]);
    }
  }

  // ---- A restore whose manifest is gone ----

  function AllNodes(f: set<Item>): set<Node> {
    set i | i in f :: i.node
  }

  lemma LiveSame(g: Graph, g': Graph, f: set<Item>, f': set<Item>, e: Edge, l: Loc, n: Option<Node>)
    requires ForestOk(f) && Represents(g, f) && LeadsTo(f, e, l) && Patched(g, g', e, n) && l.trash.Some? && Represents(g', f')
    ensures LiveNodes(f') == LiveNodes(f)
  {
    forall q: Loc | q.trash.None? ensures Lookup(g', q) == Lookup(g, q) {
      PatchedLookup(g, g', f, e, n, l, q);
    }
    forall m ensures m in LiveNodes(f') <==> m in LiveNodes(f) {
      if m in LiveNodes(f') {
        var i :| i in f' && i.loc.trash.None? && i.node == m;
        assert Item(i.loc, m) in f;
      }
      if m in LiveNodes(f) {
        var i :| i in f && i.loc.trash.None? && i.node == m;
        assert Item(i.loc, m) in f';
      }
    }
  }

  lemma CountedSome(derived: Stats, node: Node)
    requires Counted(derived, node)
    ensures derived != NoStats
  {
    var nodes :| node in nodes && derived == Count(nodes);
    SomeCount(nodes, node);
  }

  lemma NotNothing(f: set<Item>, f': set<Item>, derived: Stats)
    requires LiveNodes(f') == LiveNodes(f) && derived != NoStats
    ensures !Conserves(f, f', derived)
  {
  }

  /** Nothing of it gets into the live tree, but it is counted in. */
  lemma ForgottenIntoTrash(g: Graph, f: set<Item>, f': set<Item>, dir: nat, name: Name, node: Node, derived: Stats)
    requires ForestOk(f) && Represents(g, f) && !Live(f, dir) && Counted(derived, node) && Represents(SetEntry(g, dir, name, node), f')
    ensures !Conserves(f, f', derived)
  {
    SetEntryPatches(g, dir, name, node);
    CountedSome(derived, node);
    if Located(f, dir) {
      EntryAt(g, f, dir, name);
      LiveSame(g, SetEntry(g, dir, name, node), f, f', ShardEdge(dir, name), At(f, dir, name), Some(node));
    } else {
      StrayRepresents(g, SetEntry(g, dir, name, node), f, dir, name, Some(node));
      OneForest(SetEntry(g, dir, name, node), f, f');
    }
    NotNothing(f, f', derived);
  }

  /** A node that is somewhere gets a second place. */
  lemma SetTwice(g: Graph, f: set<Item>, f': set<Item>, dir: nat, name: Name, node: Node, i: Item)
    requires ForestOk(f) && Represents(g, f) && Located(f, dir) && Child(g, dir, name).None? && i in f && i.node.id == node.id
    requires Represents(SetEntry(g, dir, name, node), f')
    ensures !ForestOk(f')
  {
    var at, g' := At(f, dir, name), SetEntry(g, dir, name, node);
    EntryAt(g, f, dir, name);
    SetEntryPatches(g, dir, name, node);
    assert Occupied(f, i.loc);
    if Below(i.loc, at) {
      NothingUnder(f, at, i.loc);
    }
    PatchedLookup(g, g', f, ShardEdge(dir, name), Some(node), at, at);
    PatchedLookup(g, g', f, ShardEdge(dir, name), Some(node), at, i.loc);
    assert Lookup(g, i.loc) == Some(i.node);
    FoundItem(g', f', at, node);
    FoundItem(g', f', i.loc, i.node);
    assert Item(at, node) != Item(i.loc, i.node);
  }

  lemma WrongWeight(f: set<Item>, f': set<Item>, a: Stats, b: Stats)
    requires Conserves(f, f', a) && Conserves(f, f', b)
    ensures a == b
  {
  }

  /** A node that is nowhere comes back alone. */
  lemma ForgottenWeight(g: Graph, f: set<Item>, f': set<Item>, next: nat, dir: nat, name: Name, node: Node, derived: Stats)
    requires SpaceOk(g, f, next) && Live(f, dir) && Child(g, dir, name).None? && RootNode.id < node.id < next
    requires (forall i | i in f :: i.node.id != node.id) && Represents(SetEntry(g, dir, name, node), f') && Conserves(f, f', derived)
    ensures derived == Weight(node)
  {
    CreateOk(g, f, next, dir, name, node);
    OneForest(SetEntry(g, dir, name, node), f', f + {Item(At(f, dir, name), node)});
    WrongWeight(f, f', derived, Weight(node));
  }

  /** If the id has been used for another node since, that node is lost with all that is in it. */
  lemma OtherLost(g: Graph, f: set<Item>, f': set<Item>, next: nat, id: string, dir: nat, name: Name, node: Node)
    requires SpaceOk(g, f, next) && id in g.trash && g.trash[id].node != node
    requires Represents(SetEntry(DropManifest(g, id), dir, name, node), f')
    ensures g.trash[id].node in AllNodes(f) && g.trash[id].node !in AllNodes(f')
  {
    var other, l, g1 := g.trash[id].node, Loc(Some(id), []), DropManifest(g, id);
    DropManifestPatches(g, id);
    SetEntryPatches(g1, dir, name, node);
    FoundItem(g, f, l, other);
    assert Item(l, other) in f;
    forall q | Item(q, other) in f' ensures false {
      OtherPlace(g, g1, SetEntry(g1, dir, name, node), f, id, dir, name, node, other, q);
    }
  }

  lemma OtherPlace(g: Graph, g1: Graph, g2: Graph, f: set<Item>, id: string, dir: nat, name: Name, node: Node, other: Node, q: Loc)
    requires ForestOk(f) && Represents(g, f) && NoStrays(g, f) && Item(Loc(Some(id), []), other) in f && other != node && q != LiveRoot
    requires Patched(g, g1, TrashEdge(id), None) && Patched(g1, g2, ShardEdge(dir, name), Some(node))
    ensures Lookup(g2, q) != Some(other)
  {
    if Lookup(g2, q) == Some(other) {
      if q.path == [] {
        var e := TrashEdge(q.trash.value);
        assert Out(g2, e) == Out(g1, e) == Out(g, e);
        FoundItem(g, f, q, other);
        OneItem(f, q, Loc(Some(id), []), other);
      } else {
        LookupLast(g2, q);
        var m := Lookup(g2, Up(q)).value;
        var e := ShardEdge(m.id, Base(q.path));
        assert Out(g2, e) == Out(g1, e) == Out(g, e);
        assert Located(f, m.id);
        EntryAt(g, f, m.id, Base(q.path));
        OneItem(f, At(f, m.id, Base(q.path)), Loc(Some(id), []), other);
      }
    }
  }

  lemma OneItem(f: set<Item>, a: Loc, b: Loc, n: Node)
    requires ForestOk(f) && Item(a, n) in f && Item(b, n) in f
    ensures a == b
  {
  }

  // ---- The conditions are exact ----

  /** The commit leaves a tree whose counts have changed by what is handed over, and a restore
      leaves nothing behind. */
  ghost predicate Outcome(g: Graph, f: set<Item>, f': set<Item>, c: Change, derived: Stats) {
    Represents(g, f') && ForestOk(f') && Conserves(f, f', derived) && (c.Restore? ==> AllNodes(f) <= AllNodes(f'))
  }

  lemma BrokenRestore(g: Graph, f: set<Item>, next: nat, c: Change, derived: Stats, f': set<Item>)
    requires SpaceOk(g, f, next) && c.Restore? && Child(g, c.dir, c.name).None? && RootNode.id < c.node.id < next
    requires Counted(derived, c.node) && derived == Delta(g, f, c, derived) && !Safe(g, f, c, derived)
    ensures !Outcome(GraphAfter(g, c), f, f', c, derived)
  {
    if Outcome(GraphAfter(g, c), f, f', c, derived) {
      if ManifestThere(g, c) {
        RestoredIntoTrash(g, f, next, c.id, c.dir, c.name, c.node);
      } else if c.id in g.trash {
        OtherLost(g, f, f', next, c.id, c.dir, c.name, c.node);
      } else {
        NoManifest(g, c.id);
        if !Live(f, c.dir) {
          ForgottenIntoTrash(g, f, f', c.dir, c.name, c.node, derived);
        } else if i :| i in f && i.node.id == c.node.id {
          SetTwice(g, f, f', c.dir, c.name, c.node, i);
        } else {
          ForgottenWeight(g, f, f', next, c.dir, c.name, c.node, derived);
        }
      }
    }
  }

  lemma UnsafeBreaks(s: State, o: OpId)
    requires Inv(s) && Current(s, o) && !s.ops[o].lapsed && !s.ops[o].plan.value.Restore?
    requires !Safe(s.graph, s.forest, s.ops[o].plan.value, s.ops[o].derived)
    ensures Breaks(GraphAfter(s.graph, s.ops[o].plan.value), s.forest, s.ops[o].derived)
  {
    var g, f, op := s.graph, s.forest, s.ops[o];
    assert OpOk(s, o);
    match op.plan.value
    case Move(links) =>
      assert links[0] in links;
      MoveBreaks(g, f, s.next, links, links[0].toDir);
    case Trash(dir, name, id, path, node) => TrashedOutOfTrash(g, f, s.next, dir, name, id, path, node);
    case _ =>
  }

  lemma UnsafeFails(s: State, o: OpId, f': set<Item>)
    requires Inv(s) && Current(s, o) && !s.ops[o].lapsed && !Safe(s.graph, s.forest, s.ops[o].plan.value, s.ops[o].derived)
    ensures !Outcome(GraphAfter(s.graph, s.ops[o].plan.value), s.forest, f', s.ops[o].plan.value, s.ops[o].derived)
  {
    var op := s.ops[o];
    assert OpOk(s, o);
    if op.plan.value.Restore? {
      BrokenRestore(s.graph, s.forest, s.next, op.plan.value, op.derived, f');
    } else {
      UnsafeBreaks(s, o);
    }
  }

  lemma RestoreKeepsNodes(g: Graph, f: set<Item>, c: Change, derived: Stats)
    requires c.Restore? && Safe(g, f, c, derived)
    ensures AllNodes(f) <= AllNodes(ForestAfter(g, f, c))
  {
    forall n | n in AllNodes(f) ensures n in AllNodes(ForestAfter(g, f, c)) {
      var i :| i in f && i.node == n;
      if ManifestThere(g, c) {
        assert Item(Shift(i.loc, Loc(Some(c.id), []), At(f, c.dir, c.name)), i.node) in ForestAfter(g, f, c);
      } else {
        assert i in ForestAfter(g, f, c);
      }
    }
  }

  lemma SafeOutcome(s: State, o: OpId)
    requires Inv(s) && Current(s, o) && !s.ops[o].lapsed && Safe(s.graph, s.forest, s.ops[o].plan.value, s.ops[o].derived)
    ensures var c := s.ops[o].plan.value; exists f' :: Outcome(GraphAfter(s.graph, c), s.forest, f', c, s.ops[o].derived)
  {
    var c := s.ops[o].plan.value;
    assert OpOk(s, o);
    CommitInv(s, o);
    if c.Restore? {
      RestoreKeepsNodes(s.graph, s.forest, c, s.ops[o].derived);
    }
    assert Outcome(GraphAfter(s.graph, c), s.forest, ForestAfter(s.graph, s.forest, c), c, s.ops[o].derived);
  }

  lemma WrittenNow(s: State, o: OpId)
    requires Inv(s) && Enabled(s, Commit(o)) && !s.ops[o].lapsed
    ensures Current(s, o) && Next(s, Commit(o)).graph == GraphAfter(s.graph, s.ops[o].plan.value)
  {
    assert OpOk(s, o);
    WrittenIsAfter(s.graph, s.ops[o].base, s.ops[o].plan.value);
  }

  /** The conditions are exact: in every state that a run can reach, a commit under leases that
      hold leaves a tree whose counts have changed by what it hands over, and a restore nothing
      behind, if and only if it is safe. */
  lemma ConservesIffSafe(s: State, o: OpId)
    requires Inv(s) && Enabled(s, Commit(o)) && !s.ops[o].lapsed
    ensures Safe(s.graph, s.forest, s.ops[o].plan.value, s.ops[o].derived) <==>
            exists f' :: Outcome(Next(s, Commit(o)).graph, s.forest, f', s.ops[o].plan.value, s.ops[o].derived)
  {
    WrittenNow(s, o);
    if Safe(s.graph, s.forest, s.ops[o].plan.value, s.ops[o].derived) {
      SafeOutcome(s, o);
    } else {
      forall f' ensures !Outcome(GraphAfter(s.graph, s.ops[o].plan.value), s.forest, f', s.ops[o].plan.value, s.ops[o].derived) {
        UnsafeFails(s, o, f');
      }
    }
  }

  /** The commit, made in this state, leaves no tree whose counts have changed by what it hands over. */
  ghost predicate CommitBreaks(s: State, o: OpId) {
    Enabled(s, Commit(o)) && Breaks(Next(s, Commit(o)).graph, s.forest, s.ops[o].derived)
  }

  lemma UnsafeCommit(s: State, o: OpId)
    requires Inv(s) && Enabled(s, Commit(o)) && !s.ops[o].lapsed && !s.ops[o].plan.value.Restore?
    requires !Safe(s.graph, s.forest, s.ops[o].plan.value, s.ops[o].derived)
    ensures CommitBreaks(s, o)
  {
    WrittenNow(s, o);
    UnsafeBreaks(s, o);
  }
}
