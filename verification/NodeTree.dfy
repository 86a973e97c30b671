/** The V4 namespace as a graph of node ids: a directory's children are split over shards by
    a hash of the name, and a trashed subtree hangs from its manifest. What the graph means is
    a forest of located nodes; relinking one edge moves a whole subtree of it. */
module NodeTree {
  import opened Wrappers
  import opened Paths
  import opened FlatTree

  /** Where a node hangs: in the live tree, or below the root of a trashed subtree. */
  datatype Loc = Loc(trash: Option<string>, path: Path)
  datatype Item = Item(loc: Loc, node: Node)

  datatype ShardEntry = ShardEntry(name: Name, node: Node)
  datatype TrashManifest = TrashManifest(path: Path, node: Node, deleting: bool)
  datatype Graph = Graph(
    shardOf: Name -> nat,
    shards: map<(nat, nat), map<Name, ShardEntry>>,
    trash: map<string, TrashManifest>)

  const RootNode := Node(0, true, Content("", 0, ""))
  const LiveRoot := Loc(None, [])

  function Up(l: Loc): Loc
    requires l.path != []
  {
    Loc(l.trash, Parent(l.path))
  }

  predicate Below(l: Loc, root: Loc) {
    l.trash == root.trash && root.path <= l.path
  }

  // ---- Edges ----

  datatype Edge = ShardEdge(dir: nat, name: Name) | TrashEdge(id: string)

  function ShardMap(g: Graph, dir: nat, shard: nat): map<Name, ShardEntry> {
    if (dir, shard) in g.shards then g.shards[(dir, shard)] else map[]
  }

  function Child(g: Graph, dir: nat, name: Name): Option<Node> {
    var shard := ShardMap(g, dir, g.shardOf(name));
    if name in shard then Some(shard[name].node) else None
  }

  function Out(g: Graph, e: Edge): Option<Node> {
    match e
    case ShardEdge(dir, name) => Child(g, dir, name)
    case TrashEdge(id) => if id in g.trash then Some(g.trash[id].node) else None
  }

  // ---- Lookups ----

  function Walk(g: Graph, node: Node, p: Path): Option<Node>
    decreases |p|
  {
    if p == [] then Some(node)
    else if !node.isDirectory then None
    else
      match Child(g, node.id, p[0])
      case None => None
      case Some(child) => Walk(g, child, p[1..])
  }

  function Lookup(g: Graph, l: Loc): Option<Node> {
    match l.trash
    case None => Walk(g, RootNode, l.path)
    case Some(id) => if id in g.trash then Walk(g, g.trash[id].node, l.path) else None
  }

  lemma {:induction false} WalkLast(g: Graph, node: Node, p: Path)
    requires p != []
    ensures Walk(g, node, p) == Below1(g, Walk(g, node, Parent(p)), Base(p))
    decreases |p|
  {
    if |p| > 1 && node.isDirectory && Child(g, node.id, p[0]).Some? {
      assert Parent(p)[1..] == Parent(p[1..]);
      WalkLast(g, Child(g, node.id, p[0]).value, p[1..]);
    }
  }

  function Below1(g: Graph, node: Option<Node>, name: Name): Option<Node> {
    if node.Some? && node.value.isDirectory then Child(g, node.value.id, name) else None
  }

  /** A lookup goes through the parent. */
  lemma LookupLast(g: Graph, l: Loc)
    requires l.path != []
    ensures Lookup(g, l) == Below1(g, Lookup(g, Up(l)), Base(l.path))
  {
    if l.trash.None? {
      WalkLast(g, RootNode, l.path);
    } else if l.trash.value in g.trash {
      WalkLast(g, g.trash[l.trash.value].node, l.path);
    }
  }

  // ---- Forests ----

  predicate IsDirAt(f: set<Item>, l: Loc) {
    l == LiveRoot || exists i | i in f :: i.loc == l && i.node.isDirectory
  }

  predicate Occupied(f: set<Item>, l: Loc) {
    l == LiveRoot || exists i | i in f :: i.loc == l
  }

  predicate LocsUnique(f: set<Item>) {
    forall i, j | i in f && j in f && i.loc == j.loc :: i == j
  }

  predicate IdsUnique(f: set<Item>) {
    && (forall i | i in f :: i.node.id != RootNode.id)
    && (forall i, j | i in f && j in f && i.node.id == j.node.id :: i == j)
  }

  predicate Grounded(f: set<Item>) {
    forall i | i in f :: i.loc != LiveRoot && (i.loc.path == [] || IsDirAt(f, Up(i.loc)))
  }

  predicate ForestOk(f: set<Item>) {
    LocsUnique(f) && IdsUnique(f) && Grounded(f)
  }

  /** The forest is exactly what lookups in the graph find. */
  ghost predicate Represents(g: Graph, f: set<Item>) {
    forall l, n :: Item(l, n) in f <==> l != LiveRoot && Lookup(g, l) == Some(n)
  }

  /** The directory id of a location. */
  predicate DirAt(f: set<Item>, l: Loc, id: nat) {
    if l == LiveRoot then id == RootNode.id
    else exists i | i in f :: i.loc == l && i.node.isDirectory && i.node.id == id
  }

  lemma FoundDir(g: Graph, f: set<Item>, l: Loc, n: Node)
    requires Represents(g, f) && Lookup(g, l) == Some(n) && n.isDirectory
    ensures DirAt(f, l, n.id)
  {
    if l != LiveRoot {
      assert Item(l, n) in f;
    }
  }

  lemma OnePlace(f: set<Item>, l: Loc, l': Loc, id: nat)
    requires ForestOk(f) && DirAt(f, l, id) && DirAt(f, l', id)
    ensures l == l'
  {
  }

  lemma DirLookup(g: Graph, f: set<Item>, l: Loc, id: nat)
    requires Represents(g, f) && DirAt(f, l, id)
    ensures Lookup(g, l).Some? && Lookup(g, l).value.isDirectory && Lookup(g, l).value.id == id
  {
    if l != LiveRoot {
      var i :| i in f && i.loc == l && i.node.isDirectory && i.node.id == id;
      assert Item(l, i.node) in f;
    }
  }

  /** The one edge that leads to a location. */
  predicate LeadsTo(f: set<Item>, e: Edge, l: Loc) {
    if l.path == [] then l.trash.Some? && e == TrashEdge(l.trash.value)
    else e.ShardEdge? && e.name == Base(l.path) && DirAt(f, Up(l), e.dir)
  }

  /** Every found location is the end of its edge. */
  lemma LookupEdge(g: Graph, f: set<Item>, e: Edge, l: Loc)
    requires ForestOk(f) && Represents(g, f) && LeadsTo(f, e, l)
    ensures Lookup(g, l) == Out(g, e)
  {
    if l.path != [] {
      DirLookup(g, f, Up(l), e.dir);
      LookupLast(g, l);
    }
  }

  lemma OneEdge(f: set<Item>, e: Edge, e': Edge, l: Loc, l': Loc)
    requires ForestOk(f) && LeadsTo(f, e, l) && LeadsTo(f, e', l')
    ensures e == e' <==> l == l'
  {
    if l.path != [] && l'.path != [] {
      if e == e' {
        OnePlace(f, Up(l), Up(l'), e.dir);
        SameUp(l, l');
      } else if l == l' {
        OneId(f, Up(l), e.dir, e'.dir);
      }
    }
  }

  lemma SameUp(l: Loc, l': Loc)
    requires l.path != [] && l'.path != [] && Up(l) == Up(l') && Base(l.path) == Base(l'.path)
    ensures l == l'
  {
    assert l.path == Parent(l.path) + [Base(l.path)] && l'.path == Parent(l'.path) + [Base(l'.path)];
  }

  lemma OneId(f: set<Item>, l: Loc, id: nat, id': nat)
    requires LocsUnique(f) && DirAt(f, l, id) && DirAt(f, l, id')
    ensures id == id'
  {
  }

  // ---- Relinking one edge ----

  function Shift(l: Loc, from: Loc, to: Loc): Loc {
    if Below(l, from) then Loc(to.trash, to.path + l.path[|from.path|..]) else l
  }

  function Relocated(f: set<Item>, from: Loc, to: Loc): set<Item> {
    set i | i in f :: Item(Shift(i.loc, from, to), i.node)
  }

  /** g' is g with one edge moved from its old place to a new one. */
  ghost predicate Relinked(g: Graph, g': Graph, from: Edge, to: Edge, n: Node) {
    forall e :: Out(g', e) == if e == to then Some(n) else if e == from then None else Out(g, e)
  }

  predicate CanRelink(f: set<Item>, from: Loc, to: Loc, n: Node) {
    Item(from, n) in f && !Occupied(f, to) && !Below(to, from)
  }

  /** Where a lookup in the relinked graph gets its answer in the old one. */
  function Before(g: Graph, l: Loc, from: Loc, to: Loc): Option<Node> {
    if Below(l, to) then Lookup(g, Shift(l, to, from))
    else if Below(l, from) then None
    else Lookup(g, l)
  }

  lemma {:induction false} NothingUnder(f: set<Item>, top: Loc, l: Loc)
    requires Grounded(f) && !Occupied(f, top) && Below(l, top)
    ensures !Occupied(f, l)
    decreases |l.path|
  {
    if i :| i in f && i.loc == l {
      if l != top {
        assert Below(Up(l), top);
        assert Occupied(f, Up(l));
        NothingUnder(f, top, Up(l));
      }
    }
  }

  lemma RelinkedAtRoot(g: Graph, g': Graph, f: set<Item>, from: Loc, to: Loc, eFrom: Edge, eTo: Edge, n: Node, l: Loc)
    requires ForestOk(f) && Represents(g, f) && CanRelink(f, from, to, n)
    requires LeadsTo(f, eFrom, from) && LeadsTo(f, eTo, to) && Relinked(g, g', eFrom, eTo, n)
    requires l.path == []
    ensures Lookup(g', l) == Before(g, l, from, to)
  {
    if l.trash.Some? {
      var e := TrashEdge(l.trash.value);
      assert Lookup(g', l) == Out(g', e) && Lookup(g, l) == Out(g, e);
      if l == to {
        assert Shift(to, to, from) == from;
        assert Item(from, n) in f;
      }
    }
  }

  /** One step down in the relinked graph. */
  lemma RelinkedChild(g: Graph, g': Graph, f: set<Item>, from: Loc, to: Loc, eFrom: Edge, eTo: Edge, n: Node, l: Loc, m: Node)
    requires ForestOk(f) && Represents(g, f) && CanRelink(f, from, to, n)
    requires LeadsTo(f, eFrom, from) && LeadsTo(f, eTo, to) && Relinked(g, g', eFrom, eTo, n)
    requires l.path != [] && Lookup(g, Up(l)) == Some(m) && m.isDirectory
    ensures Below1(g', Some(m), Base(l.path)) == if l == to then Some(n) else if l == from then None else Lookup(g, l)
  {
    var e := ShardEdge(m.id, Base(l.path));
    FoundDir(g, f, Up(l), m);
    assert LeadsTo(f, e, l);
    OneEdge(f, e, eFrom, l, from);
    OneEdge(f, e, eTo, l, to);
    LookupLast(g, l);
    assert Out(g', e) == Child(g', m.id, Base(l.path));
  }

  /** Everything below the new place is what was below the old one, nothing is left there,
      and all else is found as before. */
  lemma {:induction false} RelinkedLookup(g: Graph, g': Graph, f: set<Item>, from: Loc, to: Loc, eFrom: Edge, eTo: Edge, n: Node, l: Loc)
    requires ForestOk(f) && Represents(g, f) && CanRelink(f, from, to, n)
    requires LeadsTo(f, eFrom, from) && LeadsTo(f, eTo, to) && Relinked(g, g', eFrom, eTo, n)
    ensures Lookup(g', l) == Before(g, l, from, to)
    decreases |l.path|
  {
    if l.path == [] {
      RelinkedAtRoot(g, g', f, from, to, eFrom, eTo, n, l);
    } else {
      RelinkedLookup(g, g', f, from, to, eFrom, eTo, n, Up(l));
      LookupLast(g', l);
      LookupLast(g, l);
      if Below(Up(l), to) {
        RelinkedBelow(g, g', f, from, to, eFrom, eTo, n, l);
      } else if !Below(Up(l), from) {
        RelinkedBeside(g, g', f, from, to, eFrom, eTo, n, l);
      }
    }
  }

  lemma ShiftUp(l: Loc, from: Loc, to: Loc)
    requires l.path != [] && Below(Up(l), from)
    ensures Shift(l, from, to).path != [] && Up(Shift(l, from, to)) == Shift(Up(l), from, to)
    ensures Base(Shift(l, from, to).path) == Base(l.path)
    ensures Shift(l, from, to) != to && Below(Shift(l, from, to), to)
  {
    var rest := l.path[|from.path|..];
    assert rest == Up(l).path[|from.path|..] + [Base(l.path)];
    assert to.path + rest == (to.path + Up(l).path[|from.path|..]) + [Base(l.path)];
  }

  lemma RelinkedBelow(g: Graph, g': Graph, f: set<Item>, from: Loc, to: Loc, eFrom: Edge, eTo: Edge, n: Node, l: Loc)
    requires ForestOk(f) && Represents(g, f) && CanRelink(f, from, to, n)
    requires LeadsTo(f, eFrom, from) && LeadsTo(f, eTo, to) && Relinked(g, g', eFrom, eTo, n)
    requires l.path != [] && Below(Up(l), to) && Lookup(g', Up(l)) == Before(g, Up(l), from, to)
    ensures Below1(g', Lookup(g', Up(l)), Base(l.path)) == Before(g, l, from, to)
  {
    var was := Shift(l, to, from);
    ShiftUp(l, to, from);
    LookupLast(g, was);
    var m := Lookup(g, Up(was));
    if m.Some? && m.value.isDirectory {
      RelinkedChild(g, g', f, from, to, eFrom, eTo, n, was, m.value);
    }
  }

  lemma RelinkedBeside(g: Graph, g': Graph, f: set<Item>, from: Loc, to: Loc, eFrom: Edge, eTo: Edge, n: Node, l: Loc)
    requires ForestOk(f) && Represents(g, f) && CanRelink(f, from, to, n)
    requires LeadsTo(f, eFrom, from) && LeadsTo(f, eTo, to) && Relinked(g, g', eFrom, eTo, n)
    requires l.path != [] && !Below(Up(l), to) && !Below(Up(l), from) && Lookup(g', Up(l)) == Before(g, Up(l), from, to)
    ensures Below1(g', Lookup(g', Up(l)), Base(l.path)) == Before(g, l, from, to)
  {
    var m := Lookup(g, Up(l));
    LookupLast(g, l);
    if l == to {
      DirLookup(g, f, Up(l), eTo.dir);
      RelinkedChild(g, g', f, from, to, eFrom, eTo, n, l, m.value);
      assert Shift(to, to, from) == from;
      assert Item(from, n) in f;
    } else if m.Some? && m.value.isDirectory {
      RelinkedChild(g, g', f, from, to, eFrom, eTo, n, l, m.value);
    }
  }

  lemma ShiftBack(l: Loc, from: Loc, to: Loc)
    requires Below(l, from)
    ensures Below(Shift(l, from, to), to) && Shift(Shift(l, from, to), to, from) == l
  {
    var rest := l.path[|from.path|..];
    assert (to.path + rest)[|to.path|..] == rest;
    assert l.path == from.path + rest;
  }

  lemma RelocatedHas(g: Graph, f: set<Item>, from: Loc, to: Loc, n: Node, l: Loc, m: Node)
    requires ForestOk(f) && Represents(g, f) && CanRelink(f, from, to, n)
    ensures Item(l, m) in Relocated(f, from, to) <==> l != LiveRoot && Before(g, l, from, to) == Some(m)
  {
    if Item(l, m) in Relocated(f, from, to) {
      var i :| i in f && Item(l, m) == Item(Shift(i.loc, from, to), i.node);
      assert Item(i.loc, i.node) in f;
      if Below(i.loc, from) {
        ShiftBack(i.loc, from, to);
      } else if Below(i.loc, to) {
        NothingUnder(f, to, i.loc);
      }
    }
    if l != LiveRoot && Before(g, l, from, to) == Some(m) {
      if Below(l, to) {
        ShiftBack(l, to, from);
        assert Shift(l, to, from) != LiveRoot;
        assert Item(Shift(l, to, from), m) in f;
      } else {
        assert Item(l, m) in f;
        assert Shift(l, from, to) == l;
      }
    }
  }

  /** Relinking one edge moves one whole subtree, and nothing else. */
  lemma RelinkRepresents(g: Graph, g': Graph, f: set<Item>, from: Loc, to: Loc, eFrom: Edge, eTo: Edge, n: Node)
    requires ForestOk(f) && Represents(g, f) && CanRelink(f, from, to, n)
    requires LeadsTo(f, eFrom, from) && LeadsTo(f, eTo, to) && Relinked(g, g', eFrom, eTo, n)
    ensures Represents(g', Relocated(f, from, to))
  {
    forall l, m ensures Item(l, m) in Relocated(f, from, to) <==> l != LiveRoot && Lookup(g', l) == Some(m) {
      RelinkedLookup(g, g', f, from, to, eFrom, eTo, n, l);
      RelocatedHas(g, f, from, to, n, l, m);
    }
  }

  lemma ShiftInjective(f: set<Item>, from: Loc, to: Loc, n: Node, l: Loc, l': Loc)
    requires ForestOk(f) && CanRelink(f, from, to, n) && Occupied(f, l) && Occupied(f, l')
    requires Shift(l, from, to) == Shift(l', from, to)
    ensures l == l'
  {
    if Below(l, from) {
      ShiftBack(l, from, to);
      if !Below(l', from) {
        NothingUnder(f, to, l');
      } else {
        ShiftBack(l', from, to);
      }
    } else if Below(l', from) {
      ShiftBack(l', from, to);
      NothingUnder(f, to, l);
    }
  }

  lemma RelocatedDir(f: set<Item>, from: Loc, to: Loc, n: Node, l: Loc)
    requires CanRelink(f, from, to, n) && Grounded(f) && IsDirAt(f, l)
    ensures IsDirAt(Relocated(f, from, to), Shift(l, from, to))
  {
    if l != LiveRoot {
      var i :| i in f && i.loc == l && i.node.isDirectory;
      assert Item(Shift(l, from, to), i.node) in Relocated(f, from, to);
    } else {
      assert from != LiveRoot;
    }
  }

  lemma RelocatedGrounded(f: set<Item>, from: Loc, to: Loc, n: Node, i: Item)
    requires ForestOk(f) && CanRelink(f, from, to, n) && i in f
    requires to.path == [] || IsDirAt(f, Up(to))
    ensures var l := Shift(i.loc, from, to);
            l != LiveRoot && (l.path == [] || IsDirAt(Relocated(f, from, to), Up(l)))
  {
    var l := Shift(i.loc, from, to);
    if i.loc == from {
      assert l == to;
      if to.path != [] {
        RelocatedDir(f, from, to, n, Up(to));
      }
    } else if Below(i.loc, from) {
      assert Below(Up(i.loc), from);
      ShiftUp(i.loc, from, to);
      RelocatedDir(f, from, to, n, Up(i.loc));
    } else if l.path != [] {
      assert !Below(Up(i.loc), from);
      RelocatedDir(f, from, to, n, Up(i.loc));
    }
  }

  lemma RelocatedOk(f: set<Item>, from: Loc, to: Loc, n: Node)
    requires ForestOk(f) && CanRelink(f, from, to, n)
    requires to.path == [] || IsDirAt(f, Up(to))
    ensures ForestOk(Relocated(f, from, to))
  {
    var f' := Relocated(f, from, to);
    forall x | x in f' ensures x.loc != LiveRoot && (x.loc.path == [] || IsDirAt(f', Up(x.loc))) {
      var i :| i in f && x == Item(Shift(i.loc, from, to), i.node);
      RelocatedGrounded(f, from, to, n, i);
    }
    forall x, y | x in f' && y in f' && x.loc == y.loc ensures x == y {
      var i :| i in f && x == Item(Shift(i.loc, from, to), i.node);
      var j :| j in f && y == Item(Shift(j.loc, from, to), j.node);
      assert Occupied(f, i.loc) && Occupied(f, j.loc);
      ShiftInjective(f, from, to, n, i.loc, j.loc);
    }
  }

  // ---- Changing what one edge leads to ----

  ghost predicate Patched(g: Graph, g': Graph, e: Edge, n: Option<Node>) {
    forall x :: Out(g', x) == if x == e then n else Out(g, x)
  }

  lemma PatchedChild(g: Graph, g': Graph, f: set<Item>, e: Edge, n: Option<Node>, l: Loc, q: Loc, m: Node)
    requires ForestOk(f) && Represents(g, f) && LeadsTo(f, e, l) && Patched(g, g', e, n)
    requires q.path != [] && Lookup(g, Up(q)) == Some(m) && m.isDirectory
    ensures Below1(g', Some(m), Base(q.path)) == if q == l then n else Lookup(g, q)
  {
    var x := ShardEdge(m.id, Base(q.path));
    FoundDir(g, f, Up(q), m);
    assert LeadsTo(f, x, q);
    OneEdge(f, x, e, q, l);
    LookupLast(g, q);
    assert Out(g', x) == Child(g', m.id, Base(q.path));
  }

  /** The location itself is found changed, and whatever is not below it as before. */
  lemma {:induction false} PatchedLookup(g: Graph, g': Graph, f: set<Item>, e: Edge, n: Option<Node>, l: Loc, q: Loc)
    requires ForestOk(f) && Represents(g, f) && LeadsTo(f, e, l) && Patched(g, g', e, n)
    requires !Below(q, l) || q == l
    ensures Lookup(g', q) == if q == l then n else Lookup(g, q)
    decreases |q.path|
  {
    if q.path == [] {
      if q.trash.Some? {
        assert Out(g', TrashEdge(q.trash.value)) == if TrashEdge(q.trash.value) == e then n else Out(g, TrashEdge(q.trash.value));
      }
    } else {
      PatchedLookup(g, g', f, e, n, l, Up(q));
      LookupLast(g', q);
      LookupLast(g, q);
      var m := Lookup(g, Up(q));
      if q == l {
        DirLookup(g, f, Up(q), e.dir);
      }
      if m.Some? && m.value.isDirectory {
        PatchedChild(g, g', f, e, n, l, q, m.value);
      }
    }
  }

  /** A node nobody has heard of. */
  ghost predicate FreshNode(g: Graph, f: set<Item>, n: Node) {
    && n.id != RootNode.id
    && (forall i | i in f :: i.node.id != n.id)
    && (forall name :: Child(g, n.id, name).None?)
  }

  lemma {:induction false} FreshBelow(g: Graph, g': Graph, f: set<Item>, e: Edge, n: Node, l: Loc, q: Loc)
    requires ForestOk(f) && Represents(g, f) && LeadsTo(f, e, l) && Patched(g, g', e, Some(n)) && FreshNode(g, f, n)
    requires Below(q, l) && q != l
    ensures Lookup(g', q).None?
    decreases |q.path|
  {
    LookupLast(g', q);
    if Up(q) == l {
      PatchedLookup(g, g', f, e, Some(n), l, l);
      var x := ShardEdge(n.id, Base(q.path));
      assert x != e;
      assert Out(g', x) == Out(g, x);
    } else {
      FreshBelow(g, g', f, e, n, l, Up(q));
    }
  }

  /** A new leaf adds exactly itself. */
  lemma LeafRepresents(g: Graph, g': Graph, f: set<Item>, e: Edge, n: Node, l: Loc)
    requires ForestOk(f) && Represents(g, f) && LeadsTo(f, e, l) && !Occupied(f, l)
    requires Patched(g, g', e, Some(n)) && FreshNode(g, f, n)
    ensures Represents(g', f + {Item(l, n)})
  {
    forall q, m ensures Item(q, m) in f + {Item(l, n)} <==> q != LiveRoot && Lookup(g', q) == Some(m) {
      if Below(q, l) && q != l {
        FreshBelow(g, g', f, e, n, l, q);
        NothingUnder(f, l, q);
      } else {
        PatchedLookup(g, g', f, e, Some(n), l, q);
      }
      assert q == l ==> Item(q, m) !in f;
    }
  }

  lemma LeafOk(g: Graph, f: set<Item>, n: Node, l: Loc)
    requires ForestOk(f) && !Occupied(f, l) && FreshNode(g, f, n) && (l.path == [] || IsDirAt(f, Up(l)))
    ensures ForestOk(f + {Item(l, n)})
  {
    var f' := f + {Item(l, n)};
    forall i | i in f' ensures i.loc != LiveRoot && (i.loc.path == [] || IsDirAt(f', Up(i.loc))) {
      assert forall q | IsDirAt(f, q) :: IsDirAt(f', q);
    }
  }

  lemma {:induction false} CutBelow(g: Graph, g': Graph, f: set<Item>, e: Edge, l: Loc, q: Loc)
    requires ForestOk(f) && Represents(g, f) && LeadsTo(f, e, l) && Patched(g, g', e, None)
    requires Below(q, l)
    ensures Lookup(g', q).None?
    decreases |q.path|
  {
    if q == l {
      PatchedLookup(g, g', f, e, None, l, l);
    } else {
      LookupLast(g', q);
      CutBelow(g, g', f, e, l, Up(q));
    }
  }

  /** Dropping the edge to a leaf removes exactly the leaf. */
  lemma CutRepresents(g: Graph, g': Graph, f: set<Item>, e: Edge, n: Node, l: Loc)
    requires ForestOk(f) && Represents(g, f) && LeadsTo(f, e, l) && Item(l, n) in f
    requires forall i | i in f && Below(i.loc, l) :: i.loc == l
    requires Patched(g, g', e, None)
    ensures Represents(g', f - {Item(l, n)}) && ForestOk(f - {Item(l, n)})
  {
    var f' := f - {Item(l, n)};
    forall q, m ensures Item(q, m) in f' <==> q != LiveRoot && Lookup(g', q) == Some(m) {
      if Below(q, l) {
        CutBelow(g, g', f, e, l, q);
      } else {
        PatchedLookup(g, g', f, e, None, l, q);
      }
    }
    forall i | i in f' ensures i.loc.path == [] || IsDirAt(f', Up(i.loc)) {
      if i.loc.path != [] {
        UnderUp(i.loc);
      }
    }
  }

  lemma UnderUp(q: Loc)
    requires q.path != []
    ensures Below(q, Up(q)) && q != Up(q)
  {
    assert q.path[..|q.path| - 1] == Parent(q.path);
  }

  lemma {:induction false} SameBelow(g: Graph, g': Graph, f: set<Item>, e: Edge, n: Node, n': Node, l: Loc, q: Loc)
    requires ForestOk(f) && Represents(g, f) && LeadsTo(f, e, l) && Item(l, n) in f
    requires n'.id == n.id && n'.isDirectory == n.isDirectory && Patched(g, g', e, Some(n'))
    requires Below(q, l) && q != l
    ensures Lookup(g', q) == Lookup(g, q)
    decreases |q.path|
  {
    LookupLast(g', q);
    LookupLast(g, q);
    if Up(q) == l {
      PatchedLookup(g, g', f, e, Some(n'), l, l);
    } else {
      SameBelow(g, g', f, e, n, n', l, Up(q));
    }
    var m := Lookup(g, Up(q));
    if m.Some? && m.value.isDirectory {
      PatchedChild(g, g', f, e, Some(n'), l, q, m.value);
    }
  }

  /** New content for a node replaces exactly its item. */
  lemma UpdateRepresents(g: Graph, g': Graph, f: set<Item>, e: Edge, n: Node, n': Node, l: Loc)
    requires ForestOk(f) && Represents(g, f) && LeadsTo(f, e, l) && Item(l, n) in f
    requires n'.id == n.id && n'.isDirectory == n.isDirectory && Patched(g, g', e, Some(n'))
    ensures Represents(g', f - {Item(l, n)} + {Item(l, n')}) && ForestOk(f - {Item(l, n)} + {Item(l, n')})
  {
    var f' := f - {Item(l, n)} + {Item(l, n')};
    forall q, m ensures Item(q, m) in f' <==> q != LiveRoot && Lookup(g', q) == Some(m) {
      if Below(q, l) && q != l {
        SameBelow(g, g', f, e, n, n', l, q);
      } else {
        PatchedLookup(g, g', f, e, Some(n'), l, q);
      }
    }
    UpdatedOk(f, n, n', l);
  }

  lemma UpdatedOk(f: set<Item>, n: Node, n': Node, l: Loc)
    requires ForestOk(f) && Item(l, n) in f && n'.id == n.id && n'.isDirectory == n.isDirectory
    ensures ForestOk(f - {Item(l, n)} + {Item(l, n')})
  {
    var f' := f - {Item(l, n)} + {Item(l, n')};
    forall q | IsDirAt(f, q) ensures IsDirAt(f', q) {
      if q != LiveRoot {
        var i :| i in f && i.loc == q && i.node.isDirectory;
        assert if i == Item(l, n) then Item(l, n') in f' else i in f';
      }
    }
  }
}
