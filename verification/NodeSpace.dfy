/** What holds of the stored graph between operations, and the edits that keep it: an entry set
    or dropped in one shard, a trash manifest written or deleted. */
module NodeSpace {
  import opened Wrappers
  import opened Paths
  import opened FlatTree
  import opened NodeTree

  predicate WellPlaced(g: Graph, d: nat, k: nat, name: Name)
    requires name in ShardMap(g, d, k)
  {
    k == g.shardOf(name) && ShardMap(g, d, k)[name].name == name
  }

  /** Every entry sits in the shard its name hashes to, under its own name. */
  ghost predicate Placed(g: Graph) {
    forall d: nat, k: nat, name | name in ShardMap(g, d, k) :: WellPlaced(g, d, k, name)
  }

  predicate Located(f: set<Item>, id: nat) {
    id == RootNode.id || exists j | j in f :: j.node.isDirectory && j.node.id == id
  }

  /** A directory that is in no place lists nothing. */
  ghost predicate NoStrays(g: Graph, f: set<Item>) {
    forall id: nat, name | Child(g, id, name).Some? :: Located(f, id)
  }

  /** Only entries are trashed, never the root. */
  predicate Rooted(g: Graph) {
    forall id | id in g.trash :: g.trash[id].path != []
  }

  /** The graph stands for the forest, and ids from next on have never been used. */
  ghost predicate SpaceOk(g: Graph, f: set<Item>, next: nat) {
    && ForestOk(f) && Represents(g, f) && Placed(g) && NoStrays(g, f) && Rooted(g)
    && RootNode.id < next && forall i | i in f :: i.node.id < next
  }

  // ---- Edge updates on the shard maps ----

  function SetEntry(g: Graph, dir: nat, name: Name, node: Node): Graph {
    var key := (dir, g.shardOf(name));
    g.(shards := g.shards[key := ShardMap(g, dir, key.1)[name := ShardEntry(name, node)]])
  }

  function DropEntry(g: Graph, dir: nat, name: Name): Graph {
    var key := (dir, g.shardOf(name));
    g.(shards := g.shards[key := ShardMap(g, dir, key.1) - {name}])
  }

  lemma SetEntryShard(g: Graph, dir: nat, name: Name, node: Node, d: nat, k: nat)
    ensures ShardMap(SetEntry(g, dir, name, node), d, k) ==
            if d == dir && k == g.shardOf(name) then ShardMap(g, d, k)[name := ShardEntry(name, node)] else ShardMap(g, d, k)
  {
  }

  lemma SetEntryPatches(g: Graph, dir: nat, name: Name, node: Node)
    ensures Patched(g, SetEntry(g, dir, name, node), ShardEdge(dir, name), Some(node))
    ensures Placed(g) ==> Placed(SetEntry(g, dir, name, node))
    ensures SetEntry(g, dir, name, node).trash == g.trash
  {
    forall d: nat, k: nat
      ensures ShardMap(SetEntry(g, dir, name, node), d, k) ==
              if d == dir && k == g.shardOf(name) then ShardMap(g, d, k)[name := ShardEntry(name, node)] else ShardMap(g, d, k)
    {
      SetEntryShard(g, dir, name, node, d, k);
    }
  }

  lemma DropEntryShard(g: Graph, dir: nat, name: Name, d: nat, k: nat)
    ensures ShardMap(DropEntry(g, dir, name), d, k) ==
            if d == dir && k == g.shardOf(name) then ShardMap(g, d, k) - {name} else ShardMap(g, d, k)
  {
  }

  lemma DropEntryPatches(g: Graph, dir: nat, name: Name)
    ensures Patched(g, DropEntry(g, dir, name), ShardEdge(dir, name), None)
    ensures Placed(g) ==> Placed(DropEntry(g, dir, name))
    ensures DropEntry(g, dir, name).trash == g.trash
  {
    forall d: nat, k: nat
      ensures ShardMap(DropEntry(g, dir, name), d, k) ==
              if d == dir && k == g.shardOf(name) then ShardMap(g, d, k) - {name} else ShardMap(g, d, k)
    {
      DropEntryShard(g, dir, name, d, k);
    }
  }

  lemma PatchTwice(g: Graph, g1: Graph, g2: Graph, from: Edge, to: Edge, n: Node)
    requires Patched(g, g1, from, None) && Patched(g1, g2, to, Some(n))
    ensures Relinked(g, g2, from, to, n)
  {
    forall e ensures Out(g2, e) == if e == to then Some(n) else if e == from then None else Out(g, e) {
      assert Out(g1, e) == if e == from then None else Out(g, e);
    }
  }

  function PutManifest(g: Graph, id: string, m: TrashManifest): Graph {
    g.(trash := g.trash[id := m])
  }

  function DropManifest(g: Graph, id: string): Graph {
    g.(trash := g.trash - {id})
  }

  lemma PutManifestPatches(g: Graph, id: string, m: TrashManifest)
    ensures Patched(g, PutManifest(g, id, m), TrashEdge(id), Some(m.node))
    ensures Placed(g) ==> Placed(PutManifest(g, id, m))
    ensures Rooted(g) && m.path != [] ==> Rooted(PutManifest(g, id, m))
  {
    assert forall d: nat, k: nat :: ShardMap(PutManifest(g, id, m), d, k) == ShardMap(g, d, k);
  }

  lemma DropManifestPatches(g: Graph, id: string)
    ensures Patched(g, DropManifest(g, id), TrashEdge(id), None)
    ensures Placed(g) ==> Placed(DropManifest(g, id))
    ensures Rooted(g) ==> Rooted(DropManifest(g, id))
  {
    assert forall d: nat, k: nat :: ShardMap(DropManifest(g, id), d, k) == ShardMap(g, d, k);
  }

  lemma DirOf(f: set<Item>, e: Edge, l: Loc)
    requires LeadsTo(f, e, l)
    ensures l.path == [] || IsDirAt(f, Up(l))
  {
  }

  // ---- The edits keep the space ----

  /** A node with an unused id hangs from nowhere and lists nothing. */
  lemma UnusedIsFresh(g: Graph, f: set<Item>, n: Node)
    requires NoStrays(g, f) && n.id != RootNode.id && forall i | i in f :: i.node.id != n.id
    ensures FreshNode(g, f, n)
  {
    forall name ensures Child(g, n.id, name).None? {
      assert !Located(f, n.id);
    }
  }

  lemma LocatedAt(f: set<Item>, l: Loc, id: nat)
    requires DirAt(f, l, id)
    ensures Located(f, id)
  {
  }

  lemma LeafSpace(g: Graph, g': Graph, f: set<Item>, next: nat, dir: nat, name: Name, n: Node, l: Loc, next': nat)
    requires SpaceOk(g, f, next) && LeadsTo(f, ShardEdge(dir, name), l) && !Occupied(f, l) && l.path != []
    requires n.id != RootNode.id && (forall i | i in f :: i.node.id != n.id) && n.id < next' && next <= next'
    requires Patched(g, g', ShardEdge(dir, name), Some(n)) && Placed(g') && Rooted(g')
    ensures SpaceOk(g', f + {Item(l, n)}, next')
  {
    UnusedIsFresh(g, f, n);
    LeafRepresents(g, g', f, ShardEdge(dir, name), n, l);
    LeafOk(g, f, n, l);
    LocatedAt(f, Up(l), dir);
    LeafStrays(g, g', f, dir, name, n, l);
  }

  lemma LeafStrays(g: Graph, g': Graph, f: set<Item>, dir: nat, name: Name, n: Node, l: Loc)
    requires NoStrays(g, f) && Located(f, dir) && Patched(g, g', ShardEdge(dir, name), Some(n))
    ensures NoStrays(g', f + {Item(l, n)})
  {
    forall id: nat, x | Child(g', id, x).Some? ensures Located(f + {Item(l, n)}, id) {
      assert Out(g', ShardEdge(id, x)) == if ShardEdge(id, x) == ShardEdge(dir, name) then Some(n) else Out(g, ShardEdge(id, x));
      assert Located(f, id);
    }
  }

  lemma UpdateSpace(g: Graph, g': Graph, f: set<Item>, next: nat, dir: nat, name: Name, n: Node, n': Node, l: Loc)
    requires SpaceOk(g, f, next) && LeadsTo(f, ShardEdge(dir, name), l) && Item(l, n) in f && l.path != []
    requires n'.id == n.id && n'.isDirectory == n.isDirectory
    requires Patched(g, g', ShardEdge(dir, name), Some(n')) && Placed(g') && Rooted(g')
    ensures SpaceOk(g', f - {Item(l, n)} + {Item(l, n')}, next)
  {
    UpdateRepresents(g, g', f, ShardEdge(dir, name), n, n', l);
    LocatedAt(f, Up(l), dir);
    UpdateStrays(g, g', f, dir, name, n, n', l);
  }

  lemma UpdateStrays(g: Graph, g': Graph, f: set<Item>, dir: nat, name: Name, n: Node, n': Node, l: Loc)
    requires NoStrays(g, f) && Located(f, dir) && Item(l, n) in f && n'.id == n.id && n'.isDirectory == n.isDirectory
    requires Patched(g, g', ShardEdge(dir, name), Some(n'))
    ensures NoStrays(g', f - {Item(l, n)} + {Item(l, n')})
  {
    var f' := f - {Item(l, n)} + {Item(l, n')};
    forall id: nat | Located(f, id) ensures Located(f', id) {
      if id != RootNode.id {
        var j :| j in f && j.node.isDirectory && j.node.id == id;
        assert (if j == Item(l, n) then Item(l, n') else j) in f';
      }
    }
    forall id: nat, x | Child(g', id, x).Some? ensures Located(f', id) {
      assert Out(g', ShardEdge(id, x)) == if ShardEdge(id, x) == ShardEdge(dir, name) then Some(n') else Out(g, ShardEdge(id, x));
    }
  }

  lemma CutSpace(g: Graph, g': Graph, f: set<Item>, next: nat, dir: nat, name: Name, n: Node, l: Loc)
    requires SpaceOk(g, f, next) && LeadsTo(f, ShardEdge(dir, name), l) && Item(l, n) in f
    requires forall i | i in f && Below(i.loc, l) :: i.loc == l
    requires Patched(g, g', ShardEdge(dir, name), None) && Placed(g') && Rooted(g')
    ensures SpaceOk(g', f - {Item(l, n)}, next)
  {
    CutRepresents(g, g', f, ShardEdge(dir, name), n, l);
    CutStrays(g, g', f, dir, name, n, l);
  }

  lemma CutStrays(g: Graph, g': Graph, f: set<Item>, dir: nat, name: Name, n: Node, l: Loc)
    requires ForestOk(f) && Represents(g, f) && NoStrays(g, f) && Item(l, n) in f && forall i | i in f && Below(i.loc, l) :: i.loc == l
    requires Patched(g, g', ShardEdge(dir, name), None)
    ensures NoStrays(g', f - {Item(l, n)})
  {
    var f' := f - {Item(l, n)};
    forall id: nat, x | Child(g', id, x).Some? ensures Located(f', id) {
      assert Out(g', ShardEdge(id, x)) == if ShardEdge(id, x) == ShardEdge(dir, name) then None else Out(g, ShardEdge(id, x));
      assert Located(f, id);
      if id != RootNode.id {
        var j :| j in f && j.node.isDirectory && j.node.id == id;
        if j == Item(l, n) {
          LeafListsNothing(g, f, l, n, x);
        }
        assert j in f';
      }
    }
  }

  lemma LeafListsNothing(g: Graph, f: set<Item>, l: Loc, n: Node, name: Name)
    requires ForestOk(f) && Represents(g, f) && Item(l, n) in f && n.isDirectory && forall i | i in f && Below(i.loc, l) :: i.loc == l
    ensures Child(g, n.id, name).None?
  {
    var c := Loc(l.trash, l.path + [name]);
    assert Parent(c.path) == l.path && Base(c.path) == name && Up(c) == l;
    assert DirAt(f, l, n.id);
    LookupEdge(g, f, ShardEdge(n.id, name), c);
    if Child(g, n.id, name).Some? {
      FoundItem(g, f, c, Child(g, n.id, name).value);
    }
  }

  lemma FoundItem(g: Graph, f: set<Item>, l: Loc, n: Node)
    requires Represents(g, f) && l != LiveRoot && Lookup(g, l) == Some(n)
    ensures Item(l, n) in f
  {
  }

  lemma RelinkSpace(g: Graph, g': Graph, f: set<Item>, next: nat, l: Loc, l': Loc, e: Edge, e': Edge, n: Node)
    requires SpaceOk(g, f, next) && CanRelink(f, l, l', n) && LeadsTo(f, e, l) && LeadsTo(f, e', l')
    requires Relinked(g, g', e, e', n) && Placed(g') && Rooted(g')
    ensures SpaceOk(g', Relocated(f, l, l'), next)
  {
    RelinkRepresents(g, g', f, l, l', e, e', n);
    DirOf(f, e', l');
    RelocatedOk(f, l, l', n);
    RelinkStrays(g, g', f, l, l', e, e', n);
  }

  lemma RelinkStrays(g: Graph, g': Graph, f: set<Item>, l: Loc, l': Loc, e: Edge, e': Edge, n: Node)
    requires NoStrays(g, f) && LeadsTo(f, e', l') && Relinked(g, g', e, e', n)
    ensures NoStrays(g', Relocated(f, l, l'))
  {
    var f' := Relocated(f, l, l');
    forall id: nat | Located(f, id) ensures Located(f', id) {
      if id != RootNode.id {
        var j :| j in f && j.node.isDirectory && j.node.id == id;
        assert Item(Shift(j.loc, l, l'), j.node) in f';
      }
    }
    forall id: nat, x | Child(g', id, x).Some? ensures Located(f', id) {
      var y := ShardEdge(id, x);
      assert Out(g', y) == if y == e' then Some(n) else if y == e then None else Out(g, y);
      if y == e' {
        LocatedAt(f, Up(l'), id);
      }
    }
  }
}
