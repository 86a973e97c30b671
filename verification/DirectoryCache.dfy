/** The cache of resolved directories. A cached chain is validated link by link against the
    shards before it is used, so an answer from the cache is the answer of a fresh walk. */
module DirectoryCache {
  import opened Wrappers
  import opened Paths
  import opened FlatTree
  import opened NodeTree

  /** A link of a cached chain: where the child was found, and the generation of that shard. */
  datatype Link = Link(parent: nat, shard: nat, name: Name, child: nat, generation: nat)
  datatype Cached = Cached(node: Node, chain: seq<nat>, links: seq<Link>)
  datatype Resolved = Resolved(node: Node, chain: seq<nat>)

  const MaxEntries := 2048

  function DirChild(g: Graph, dir: nat, name: Name): Option<Node> {
    var n := Child(g, dir, name);
    if n.Some? && n.value.isDirectory then n else None
  }

  /** The fresh walk: through directories only, with the ids passed on the way. */
  function WalkChain(g: Graph, node: Node, chain: seq<nat>, p: Path): Option<Resolved>
    decreases |p|
  {
    if p == [] then Some(Resolved(node, chain))
    else
      match DirChild(g, node.id, p[0])
      case None => None
      case Some(n) => WalkChain(g, n, chain + [n.id], p[1..])
  }

  function Fresh(g: Graph, p: Path): Option<Resolved> {
    WalkChain(g, RootNode, [RootNode.id], p)
  }

  /** The i-th id of a chain is the one that a lookup of the first i segments finds. */
  predicate PassedAt(g: Graph, node: Node, p: Path, ids: seq<nat>, i: nat)
    requires i < |p| == |ids|
  {
    var w := Walk(g, node, p[..i + 1]);
    w.Some? && ids[i] == w.value.id
  }

  predicate Passed(g: Graph, node: Node, p: Path, ids: seq<nat>) {
    |ids| == |p| && forall i | 0 <= i < |p| :: PassedAt(g, node, p, ids, i)
  }

  lemma PassedNext(g: Graph, node: Node, p: Path, n: Node, ids: seq<nat>)
    requires p != [] && node.isDirectory && Child(g, node.id, p[0]) == Some(n) && Passed(g, n, p[1..], ids)
    ensures Passed(g, node, p, [n.id] + ids)
  {
    forall i | 0 <= i < |p| ensures PassedAt(g, node, p, [n.id] + ids, i) {
      var q := p[..i + 1];
      assert q[0] == p[0] && q[1..] == p[1..][..i];
      if i > 0 {
        assert PassedAt(g, n, p[1..], ids, i - 1);
      }
    }
  }

  /** The walk finds what a lookup finds, if that is a directory, and the ids of what lookups
      find on the way. */
  lemma {:induction false} WalkIsLookup(g: Graph, node: Node, chain: seq<nat>, p: Path)
    requires node.isDirectory
    ensures var w, r := Walk(g, node, p), WalkChain(g, node, chain, p);
      && (r.Some? <==> w.Some? && w.value.isDirectory)
      && (r.Some? ==> r.value.node == w.value && chain <= r.value.chain && Passed(g, node, p, r.value.chain[|chain|..]))
    decreases |p|
  {
    if p != [] {
      var n := DirChild(g, node.id, p[0]);
      if n.Some? {
        var longer := chain + [n.value.id];
        WalkIsLookup(g, n.value, longer, p[1..]);
        var r := WalkChain(g, node, chain, p);
        if r.Some? {
          PassedNext(g, node, p, n.value, r.value.chain[|longer|..]);
          assert r.value.chain[|chain|..] == [n.value.id] + r.value.chain[|longer|..];
        }
      } else {
        NotThroughDirectories(g, node, p);
      }
    }
  }

  lemma NotThroughDirectories(g: Graph, node: Node, p: Path)
    requires node.isDirectory && p != [] && DirChild(g, node.id, p[0]).None?
    ensures var w := Walk(g, node, p); !(w.Some? && w.value.isDirectory)
  {
    var n := Child(g, node.id, p[0]);
    if n.Some? && |p| > 1 {
      assert Walk(g, n.value, p[1..]).None?;
    }
  }

  // ---- What is cached ----

  predicate LinkFits(g: Graph, c: Cached, p: Path, i: nat)
    requires |c.links| == |p| && |c.chain| == |p| + 1 && i < |p|
  {
    var l := c.links[i];
    l.name == p[i] && l.shard == g.shardOf(p[i]) && l.parent == c.chain[i] && l.child == c.chain[i + 1]
  }

  /** A cached chain is linked, from the root to its node. */
  predicate Linked(g: Graph, c: Cached, p: Path) {
    && |c.links| == |p| && |c.chain| == |p| + 1 && c.chain[0] == RootNode.id
    && (forall i | 0 <= i < |p| :: LinkFits(g, c, p, i))
    && c.node.isDirectory && c.node.id == c.chain[|p|] && (p == [] ==> c.node == RootNode)
  }

  type Shard = map<Name, ShardEntry>

  /** The shard objects as a reader sees them: the visible content in the graph, the generation
      of the object, and the value that a prepared transaction will make visible if it commits. */
  datatype Objects = Objects(graph: Graph, generations: map<(nat, nat), nat>, prepared: map<(nat, nat), Shard>, last: nat)

  function Generation(o: Objects, key: (nat, nat)): nat {
    if key in o.generations then o.generations[key] else 0
  }

  function Visible(o: Objects, key: (nat, nat)): Shard {
    ShardMap(o.graph, key.0, key.1)
  }

  function At(l: Link): (nat, nat) {
    (l.parent, l.shard)
  }

  function Found(o: Objects, l: Link): Option<Node> {
    var shard := Visible(o, At(l));
    if l.name in shard then Some(shard[l.name].node) else None
  }

  predicate LinkValid(o: Objects, l: Link) {
    && At(l) in o.graph.shards && Generation(o, At(l)) == l.generation
    && Found(o, l).Some? && Found(o, l).value.isDirectory && Found(o, l).value.id == l.child
  }

  predicate AllValid(o: Objects, c: Cached) {
    forall i | 0 <= i < |c.links| :: LinkValid(o, c.links[i])
  }

  /** The last link against the objects. While its shard's generation is the one in the link, the
      name leads to the cached node if it leads to that id at all; and it does lead there while
      the shard's prepared value is undecided, because only one decision can follow a write. */
  predicate NodeCurrent(o: Objects, c: Cached, l: Link) {
    Generation(o, At(l)) == l.generation ==>
      && (Found(o, l).Some? && Found(o, l).value.id == l.child ==> Found(o, l).value == c.node)
      && (At(l) in o.prepared ==> Found(o, l) == Some(c.node))
  }

  predicate NoneNewer(o: Objects, c: Cached) {
    forall i | 0 <= i < |c.links| :: c.links[i].generation <= Generation(o, At(c.links[i]))
  }

  predicate Sound(o: Objects, c: Cached, p: Path) {
    Linked(o.graph, c, p) && NoneNewer(o, c) && (p != [] ==> NodeCurrent(o, c, c.links[|p| - 1]))
  }

  /** The walk from the i-th directory of a valid cached chain ends where the chain ends. */
  lemma {:induction false} ValidWalk(o: Objects, c: Cached, p: Path, i: nat, node: Node)
    requires Sound(o, c, p) && AllValid(o, c) && i <= |p|
    requires node.id == c.chain[i] && (i == |p| ==> node == c.node)
    ensures WalkChain(o.graph, node, c.chain[..i + 1], p[i..]) == Some(Resolved(c.node, c.chain))
    decreases |p| - i
  {
    if i < |p| {
      assert LinkFits(o.graph, c, p, i) && LinkValid(o, c.links[i]);
      var n := DirChild(o.graph, node.id, p[i]);
      assert n.Some? && n.value.id == c.chain[i + 1];
      assert p[i..][0] == p[i] && p[i..][1..] == p[i + 1..];
      assert c.chain[..i + 1] + [n.value.id] == c.chain[..i + 2];
      ValidWalk(o, c, p, i + 1, n.value);
    } else {
      assert c.chain[..i + 1] == c.chain;
    }
  }

  /** An answer from the cache is the answer of a fresh walk. */
  lemma CacheIsFresh(o: Objects, c: Cached, p: Path)
    requires Sound(o, c, p) && AllValid(o, c)
    ensures Fresh(o.graph, p) == Some(Resolved(c.node, c.chain))
  {
    assert c.chain[..1] == [RootNode.id] && p[0..] == p;
    ValidWalk(o, c, p, 0, RootNode);
  }

  // ---- What mutations do to it ----

  function SetShard(g: Graph, key: (nat, nat), shard: Shard): Graph {
    g.(shards := g.shards[key := shard])
  }

  /** A write gives a shard a new generation. It shows the given content, and may carry a value
      that only a commit will show. */
  function Written(o: Objects, key: (nat, nat), shard: Shard, prepared: Option<Shard>): Objects {
    Objects(SetShard(o.graph, key, shard), o.generations[key := o.last + 1],
            if prepared.Some? then o.prepared[key := prepared.value] else o.prepared - {key}, o.last + 1)
  }

  /** The decision about a prepared value: a commit shows it without any write to the shard. */
  function Decided(o: Objects, key: (nat, nat), commit: bool): Objects
    requires key in o.prepared
  {
    o.(graph := if commit then SetShard(o.graph, key, o.prepared[key]) else o.graph, prepared := o.prepared - {key})
  }

  /** A name that still leads to the same id leads to the same node. Every V4 operation keeps
      this: a directory's node is rewritten only under another name or in another directory. */
  predicate KeepsNodes(before: Shard, after: Shard) {
    forall name | name in before && name in after && before[name].node.id == after[name].node.id :: after[name].node == before[name].node
  }

  predicate ObjectsOk(o: Objects) {
    && (forall key | key in o.generations :: o.generations[key] <= o.last)
    && (forall key | key in o.prepared :: KeepsNodes(Visible(o, key), o.prepared[key]))
  }

  lemma StillLinked(g: Graph, g': Graph, c: Cached, p: Path)
    requires Linked(g, c, p) && g'.shardOf == g.shardOf
    ensures Linked(g', c, p)
  {
    forall i | 0 <= i < |p| ensures LinkFits(g', c, p, i) {
      assert LinkFits(g, c, p, i);
    }
  }

  /** After a write every cached link to that shard is out of date. */
  lemma WriteKeepsSound(o: Objects, key: (nat, nat), shard: Shard, prepared: Option<Shard>, c: Cached, p: Path)
    requires ObjectsOk(o) && Sound(o, c, p)
    ensures Sound(Written(o, key, shard, prepared), c, p)
  {
    var o' := Written(o, key, shard, prepared);
    StillLinked(o.graph, o'.graph, c, p);
    forall i | 0 <= i < |c.links| ensures c.links[i].generation <= Generation(o', At(c.links[i])) {
      assert c.links[i].generation <= Generation(o, At(c.links[i]));
    }
    if p != [] {
      assert c.links[|p| - 1].generation <= Generation(o, At(c.links[|p| - 1]));
    }
  }

  /** After a decision the generation says nothing, but the id still does. */
  lemma DecisionKeepsSound(o: Objects, key: (nat, nat), commit: bool, c: Cached, p: Path)
    requires ObjectsOk(o) && Sound(o, c, p) && key in o.prepared
    ensures Sound(Decided(o, key, commit), c, p)
  {
    var o' := Decided(o, key, commit);
    StillLinked(o.graph, o'.graph, c, p);
    forall i | 0 <= i < |c.links| ensures c.links[i].generation <= Generation(o', At(c.links[i])) {
      assert c.links[i].generation <= Generation(o, At(c.links[i]));
    }
    if p != [] {
      var l := c.links[|p| - 1];
      assert LinkFits(o.graph, c, p, |p| - 1);
      assert At(l) == key ==> Visible(o', key) == if commit then o.prepared[key] else Visible(o, key);
      assert At(l) != key ==> Visible(o', At(l)) == Visible(o, At(l));
    }
  }

  // ---- The cache beside the objects ----

  class Resolver {
    var objects: Objects
    var cache: map<Path, Cached>

    ghost predicate Valid()
      reads this
    {
      ObjectsOk(objects) && |cache| <= MaxEntries && forall p | p in cache :: Sound(objects, cache[p], p)
    }

    constructor (graph: Graph)
      ensures Valid() && objects.graph == graph && cache == map[]
    {
      objects, cache := Objects(graph, map[], map[], 0), map[];
    }

    /** Another process writes a shard: it prepares a value, promotes one, or puts new content. */
    method Write(key: (nat, nat), shard: Shard, prepared: Option<Shard>)
      requires Valid() && (prepared.Some? ==> KeepsNodes(shard, prepared.value))
      modifies this`objects
      ensures Valid() && objects == Written(old(objects), key, shard, prepared)
    {
      ghost var o := objects;
      objects := Written(objects, key, shard, prepared);
      forall p | p in cache ensures Sound(objects, cache[p], p) {
        WriteKeepsSound(o, key, shard, prepared, cache[p], p);
      }
    }

    /** Another process decides a transaction. */
    method Decide(key: (nat, nat), commit: bool)
      requires Valid() && key in objects.prepared
      modifies this`objects
      ensures Valid() && objects == Decided(old(objects), key, commit)
    {
      ghost var o := objects;
      objects := Decided(objects, key, commit);
      forall p | p in cache ensures Sound(objects, cache[p], p) {
        DecisionKeepsSound(o, key, commit, cache[p], p);
      }
    }

    method Evict(p: Path)
      requires Valid()
      modifies this`cache
      ensures Valid() && cache == old(cache) - {p}
    {
      cache := cache - {p};
    }

    method ValidateCached(c: Cached) returns (valid: bool)
      ensures valid <==> AllValid(objects, c)
    {
      for i := 0 to |c.links|
        invariant forall j | 0 <= j < i :: LinkValid(objects, c.links[j])
      {
        if !LinkValid(objects, c.links[i]) {
          return false;
        }
      }
      valid := true;
    }

    method CacheDirectory(p: Path, c: Cached)
      requires Valid() && Sound(objects, c, p)
      modifies this`cache
      ensures Valid() && p in cache && cache[p] == c
      ensures forall q | q != p :: q in cache <==> q in old(cache) && |old(cache)| < MaxEntries
    {
      if |cache| >= MaxEntries {
        cache := map[];
      }
      cache := cache[p := c];
    }

    /** The directory at a path and the ids on the way: from the cache if what is cached is still
        valid, from the shards otherwise. Either way the result is that of a fresh walk, and what
        is cached for the path afterwards is valid. */
    method ResolveDirectoryChain(path: Path) returns (found: Option<Resolved>)
      requires Valid()
      modifies this`cache
      ensures Valid() && found == Fresh(objects.graph, path)
      ensures path != [] ==> (path in cache <==> found.Some?) && (found.Some? ==> AllValid(objects, cache[path]))
      ensures path in old(cache) && old(AllValid(objects, cache[path])) ==> cache == old(cache)
    {
      if path == [] {
        return Some(Resolved(RootNode, [RootNode.id]));
      }
      if path in cache {
        var cached := cache[path];
        var valid := ValidateCached(cached);
        if valid {
          CacheIsFresh(objects, cached, path);
          return Some(Resolved(cached.node, cached.chain));
        }
        Evict(path);
      }
      found := WalkAndCache(path);
    }

    method WalkAndCache(path: Path) returns (found: Option<Resolved>)
      requires Valid() && path != [] && path !in cache
      modifies this`cache
      ensures Valid() && found == Fresh(objects.graph, path)
      ensures if found.Some? then path in cache && AllValid(objects, cache[path]) else cache == old(cache)
    {
      var node, chain, links := RootNode, [RootNode.id], [];
      for i := 0 to |path|
        invariant cache == old(cache) && Walked(objects, path, i, node, chain, links)
      {
        WalkedNext(objects, path, i, node, chain, links);
        var child := DirChild(objects.graph, node.id, path[i]);
        if child.None? {
          return None;
        }
        var shard := objects.graph.shardOf(path[i]);
        links := links + [Link(node.id, shard, path[i], child.value.id, Generation(objects, (node.id, shard)))];
        node, chain := child.value, chain + [child.value.id];
      }
      var c := Cached(node, chain, links);
      forall j | 0 <= j < |path| ensures LinkFits(objects.graph, c, path, j) {
      }
      CacheDirectory(path, c);
      found := Some(Resolved(node, chain));
    }
  }

  /** The walk has come so far, and every link it has noted is valid. */
  ghost predicate Walked(o: Objects, path: Path, i: nat, node: Node, chain: seq<nat>, links: seq<Link>) {
    && i <= |path| && node.isDirectory && |links| == i && |chain| == i + 1 && chain[0] == RootNode.id && node.id == chain[i]
    && Fresh(o.graph, path) == WalkChain(o.graph, node, chain, path[i..])
    && (forall j | 0 <= j < i :: links[j] == LinkNow(o, path, chain, j) && LinkValid(o, links[j]))
    && (i > 0 ==> Found(o, links[i - 1]) == Some(node))
    && (i == 0 ==> path[i..] == path)
  }

  lemma WalkedNext(o: Objects, path: Path, i: nat, node: Node, chain: seq<nat>, links: seq<Link>)
    requires i < |path| && Walked(o, path, i, node, chain, links)
    ensures var child := DirChild(o.graph, node.id, path[i]);
      if child.None? then Fresh(o.graph, path) == None
      else
        var link := Link(node.id, o.graph.shardOf(path[i]), path[i], child.value.id, Generation(o, (node.id, o.graph.shardOf(path[i]))));
        Walked(o, path, i + 1, child.value, chain + [child.value.id], links + [link])
  {
    assert path[i..][0] == path[i] && path[i..][1..] == path[i + 1..];
  }

  function LinkNow(o: Objects, path: Path, chain: seq<nat>, j: nat): Link
    requires j < |path| && j + 1 < |chain|
  {
    var shard := o.graph.shardOf(path[j]);
    Link(chain[j], shard, path[j], chain[j + 1], Generation(o, (chain[j], shard)))
  }
}
