/** The namespace under concurrent operations. Each takes leases on the shards it needs, builds
    its change from what it reads, and commits; leases may run out; attempts may be given up and
    made again; and renames inside a directory go on beside them without leases. A commit writes
    back the whole shards that its build has changed. What a build has counted is exactly what
    its commit does, as long as some conditions hold that the code does not check. */
module NamespaceModel {
  import opened Wrappers
  import opened Paths
  import opened FlatTree
  import opened NodeTree
  import opened NodeSpace
  import opened NodeNamespace
  import opened NodeAccounts
  import opened NodeMutations
  import opened NodeConservation

  /** What a lease protects: one shard of a directory, all of its shards, a trash id, or, in
      global mode, everything. */
  datatype Fence = ShardFence(dir: nat, shard: nat) | AllShards(dir: nat) | TrashFence(id: string) | GlobalFence

  predicate Clash(a: Fence, b: Fence) {
    match a
    case ShardFence(d, k) => b == ShardFence(d, k) || b == AllShards(d)
    case AllShards(d) => (b.ShardFence? || b.AllShards?) && b.dir == d
    case TrashFence(_) => b == a
    case GlobalFence => b == a
  }

  /** One root of a move or a rename across directories. */
  datatype Link = Link(dir: nat, name: Name, toDir: nat, toName: Name, node: Node)

  datatype Change =
    | Create(dir: nat, name: Name, node: Node)
    | Replace(dir: nat, name: Name, was: Node, now: Node)
    | Delete(dir: nat, name: Name, node: Node)
    | Move(links: seq<Link>)
    | Trash(dir: nat, name: Name, id: string, path: Path, node: Node)
    | Restore(id: string, dir: nat, name: Name, node: Node)

  /** An operation and its present attempt: the leases it has taken, and whether they have run
      out; the id it may give to a new node; what it is going to hand to the reducer; what it is
      going to commit, the store as the build has read it, and whether the commit insists on what
      was read; and, for a restore, the manifest it has read before its first attempt. */
  datatype Op = Op(fences: set<Fence>, lapsed: bool, spare: nat, derived: Stats, plan: Option<Change>, base: Graph, insists: bool,
                   manifest: Option<(string, Node)>)

  type OpId = nat
  datatype State = State(graph: Graph, forest: set<Item>, next: nat, ops: map<OpId, Op>)

  datatype Step =
    | Look(op: OpId, id: string)
    | Begin(op: OpId, fences: set<Fence>)
    | Build(op: OpId, change: Change, count: Stats, insists: bool)
    | Expire(op: OpId)
    | Commit(op: OpId)
    | Abort(op: OpId)
    | Rename(dir: nat, name: Name, to: Name)

  // ---- Places ----

  ghost function Where(f: set<Item>, dir: nat): Loc
    requires Located(f, dir)
  {
    if dir == RootNode.id then LiveRoot
    else
      var j :| j in f && j.node.isDirectory && j.node.id == dir;
      j.loc
  }

  ghost predicate Live(f: set<Item>, dir: nat) {
    Located(f, dir) && Where(f, dir).trash.None?
  }

  ghost function At(f: set<Item>, dir: nat, name: Name): Loc
    requires Located(f, dir)
  {
    Down(Where(f, dir), name)
  }

  // ---- What a build checks ----

  predicate HasFence(g: Graph, fences: set<Fence>, dir: nat, name: Name) {
    ShardFence(dir, g.shardOf(name)) in fences
  }

  predicate LinkFenced(g: Graph, fences: set<Fence>, l: Link) {
    HasFence(g, fences, l.dir, l.name) && HasFence(g, fences, l.toDir, l.toName)
  }

  ghost predicate LinkLive(f: set<Item>, l: Link) {
    Live(f, l.dir) && Live(f, l.toDir)
  }

  function LinkGraph(g: Graph, l: Link): Graph {
    SetEntry(DropEntry(g, l.dir, l.name), l.toDir, l.toName, l.node)
  }

  /** Every root is there and its target name is free, one after the other. */
  predicate Linkable(g: Graph, links: seq<Link>)
    decreases |links|
  {
    links == [] ||
    (&& Child(g, links[0].dir, links[0].name) == Some(links[0].node)
     && Child(g, links[0].toDir, links[0].toName).None?
     && Linkable(LinkGraph(g, links[0]), links[1..]))
  }

  ghost predicate SubtreeFenced(fences: set<Fence>, nodes: set<Node>) {
    forall m | m in nodes && m.isDirectory :: AllShards(m.id) in fences
  }

  /** All roots of a move go into one directory. */
  predicate OneTarget(links: seq<Link>) {
    forall k, l | k in links && l in links :: k.toDir == l.toDir
  }

  /** What the build of a change sees and holds. The builds of create, replace, delete, rename
      and move look up the parent directories once more; those of trash and restore do not, and
      a restore has read the manifest before it took its leases. */
  ghost predicate Buildable(g: Graph, f: set<Item>, op: Op, c: Change) {
    match c
    case Create(dir, name, node) =>
      && HasFence(g, op.fences, dir, name) && Live(f, dir) && Child(g, dir, name).None? && node.id == op.spare
    case Replace(dir, name, was, now) =>
      && HasFence(g, op.fences, dir, name) && Live(f, dir) && Child(g, dir, name) == Some(was)
      && !was.isDirectory && now.id == was.id && !now.isDirectory
    case Delete(dir, name, node) =>
      && HasFence(g, op.fences, dir, name) && Live(f, dir) && Child(g, dir, name) == Some(node)
      && (node.isDirectory ==> AllShards(node.id) in op.fences && forall x :: Child(g, node.id, x).None?)
    case Move(links) =>
      && links != [] && OneTarget(links) && (forall l | l in links :: LinkFenced(g, op.fences, l) && LinkLive(f, l)) && Linkable(g, links)
    case Trash(dir, name, id, path, node) =>
      && HasFence(g, op.fences, dir, name) && TrashFence(id) in op.fences && Child(g, dir, name) == Some(node)
      && id !in g.trash && path != [] && Located(f, dir) && SubtreeFenced(op.fences, NodesBelow(f, At(f, dir, name)))
    case Restore(id, dir, name, node) =>
      && HasFence(g, op.fences, dir, name) && TrashFence(id) in op.fences && Child(g, dir, name).None?
      && op.manifest == Some((id, node))
  }

  /** A move is refused if a directory would go below itself, as the tree is when it is built. */
  ghost predicate Refused(f: set<Item>, c: Change) {
    c.Move? && exists l | l in c.links :: LinkLive(f, l) && Below(To(f, l), From(f, l))
  }

  /** What counting the subtree of a node walks over: the node, and what its shards list. */
  ghost function Walked(f: set<Item>, node: Node): set<Node> {
    if node.isDirectory && exists i :: i in f && i.node.isDirectory && i.node.id == node.id then
      var i :| i in f && i.node.isDirectory && i.node.id == node.id;
      NodesBelow(f, i.loc) - {i.node} + {node}
    else {node}
  }

  ghost predicate ManifestThere(g: Graph, c: Change) {
    c.Restore? ==> Out(g, TrashEdge(c.id)) == Some(c.node)
  }

  /** The change of the counts that is to be handed over. */
  ghost function Delta(g: Graph, f: set<Item>, c: Change, count: Stats): Stats {
    match c
    case Create(_, _, node) => Weight(node)
    case Replace(_, _, was, now) => ReplaceDelta(Some(was), now)
    case Delete(_, _, node) => Negate(Weight(node))
    case Move(_) => NoStats
    case Trash(dir, name, _, _, _) => if Located(f, dir) then Negate(Count(NodesBelow(f, At(f, dir, name)))) else NoStats
    case Restore(id, _, _, _) => if ManifestThere(g, c) then Count(NodesBelow(f, Loc(Some(id), []))) else count
  }

  /** How the builds assign it: some set the whole record, some a single field of it. */
  ghost function Assigned(before: Stats, g: Graph, f: set<Item>, c: Change, count: Stats): Stats {
    match c
    case Create(_, _, node) => if node.isDirectory then before.(dirs := 1) else Weight(node)
    case Replace(_, _, was, now) => before.(bytes := now.content.size - was.content.size)
    case Delete(_, _, node) => if node.isDirectory then before.(dirs := -1) else Negate(Weight(node))
    case Move(_) => before
    case _ => Delta(g, f, c, count)
  }

  // ---- Steps ----

  ghost predicate Idle(s: State, o: OpId) {
    o !in s.ops || (s.ops[o].fences == {} && s.ops[o].plan.None?)
  }

  /** Only leases that have not run out keep others from taking them. */
  ghost predicate FencesFree(s: State, o: OpId, fences: set<Fence>) {
    forall q, a, b | q in s.ops && q != o && !s.ops[q].lapsed && a in fences && b in s.ops[q].fences :: !Clash(a, b)
  }

  ghost predicate RightCount(s: State, c: Change, count: Stats) {
    && (c.Trash? ==> count == Delta(s.graph, s.forest, c, count))
    && (c.Restore? ==> count == Count(Walked(s.forest, c.node)))
  }

  // ---- What a commit writes ----

  /** The shards that a change rewrites. */
  function Keys(g: Graph, c: Change): set<(nat, nat)> {
    match c
    case Create(dir, name, _) => {(dir, g.shardOf(name))}
    case Replace(dir, name, _, _) => {(dir, g.shardOf(name))}
    case Delete(dir, name, _) => {(dir, g.shardOf(name))}
    case Move(links) => LinkKeys(g, links)
    case Trash(dir, name, _, _, _) => {(dir, g.shardOf(name))}
    case Restore(_, dir, name, _) => {(dir, g.shardOf(name))}
  }

  function LinkKeys(g: Graph, links: seq<Link>): set<(nat, nat)> {
    (set l | l in links :: (l.dir, g.shardOf(l.name))) + (set l | l in links :: (l.toDir, g.shardOf(l.toName)))
  }

  function TrashAfter(g: Graph, c: Change): map<string, TrashManifest> {
    match c
    case Trash(_, _, id, path, node) => g.trash[id := TrashManifest(path, node, false)]
    case Restore(id, _, _, _) => g.trash - {id}
    case _ => g.trash
  }

  /** The shards are written back as the build has made them of what it read; the manifest is
      an object of its own. */
  function Written(g: Graph, base: Graph, c: Change): Graph {
    g.(shards := WriteBack(g, GraphAfter(base, c), Keys(base, c)), trash := TrashAfter(g, c))
  }

  function WriteBack(g: Graph, made: Graph, keys: set<(nat, nat)>): map<(nat, nat), map<Name, ShardEntry>> {
    map k | k in g.shards.Keys + keys :: if k in keys then ShardMap(made, k.0, k.1) else g.shards[k]
  }

  /** The shards are still what the build has read. */
  ghost predicate Unchanged(g: Graph, base: Graph, c: Change) {
    g.shardOf == base.shardOf && forall k | k in Keys(base, c) :: ShardMap(g, k.0, k.1) == ShardMap(base, k.0, k.1)
  }

  ghost predicate Current(s: State, o: OpId) {
    o in s.ops && s.ops[o].plan.Some? && Unchanged(s.graph, s.ops[o].base, s.ops[o].plan.value)
  }

  /** The links of a move, each safe in the tree that the ones before it leave. */
  ghost predicate SafeLinks(f: set<Item>, links: seq<Link>)
    decreases |links|
  {
    links == [] ||
    (LinkLive(f, links[0]) && !Below(To(f, links[0]), From(f, links[0])) && SafeLinks(LinkForest(f, links[0]), links[1..]))
  }

  ghost function From(f: set<Item>, l: Link): Loc
    requires LinkLive(f, l)
  {
    At(f, l.dir, l.name)
  }

  ghost function To(f: set<Item>, l: Link): Loc
    requires LinkLive(f, l)
  {
    At(f, l.toDir, l.toName)
  }

  ghost function LinkForest(f: set<Item>, l: Link): set<Item>
    requires LinkLive(f, l)
  {
    Relocated(f, From(f, l), To(f, l))
  }

  /** The manifest restored is gone, and the node is in no place any more: all it had was counted. */
  ghost predicate Forgotten(g: Graph, f: set<Item>, id: string, node: Node, derived: Stats) {
    id !in g.trash && (forall i | i in f :: i.node.id != node.id) && derived == Weight(node)
  }

  /** What the commits must find, and the builds do not check under their leases: no directory
      is moved below itself, the directory out of which something is trashed or into which it is
      restored is still in the live tree, and the manifest restored is still there, or it is gone
      with the node. */
  ghost predicate Safe(g: Graph, f: set<Item>, c: Change, derived: Stats) {
    match c
    case Move(links) => SafeLinks(f, links)
    case Trash(dir, _, _, _, _) => Live(f, dir)
    case Restore(id, dir, _, node) => Live(f, dir) && (ManifestThere(g, c) || Forgotten(g, f, id, node, derived))
    case _ => true
  }

  function LinkAll(g: Graph, links: seq<Link>): Graph
    decreases |links|
  {
    if links == [] then g else LinkAll(LinkGraph(g, links[0]), links[1..])
  }

  ghost function RelocateAll(f: set<Item>, links: seq<Link>): set<Item>
    requires SafeLinks(f, links)
    decreases |links|
  {
    if links == [] then f else RelocateAll(LinkForest(f, links[0]), links[1..])
  }

  /** What a commit writes. */
  function GraphAfter(g: Graph, c: Change): Graph {
    match c
    case Create(dir, name, node) => SetEntry(g, dir, name, node)
    case Replace(dir, name, _, now) => SetEntry(g, dir, name, now)
    case Delete(dir, name, _) => DropEntry(g, dir, name)
    case Move(links) => LinkAll(g, links)
    case Trash(dir, name, id, path, node) => PutManifest(DropEntry(g, dir, name), id, TrashManifest(path, node, false))
    case Restore(id, dir, name, node) => SetEntry(DropManifest(g, id), dir, name, node)
  }

  /** What that means for the forest. */
  ghost function ForestAfter(g: Graph, f: set<Item>, c: Change): set<Item>
    requires match c
             case Create(dir, _, _) => Live(f, dir)
             case Replace(dir, _, _, _) => Live(f, dir)
             case Delete(dir, _, _) => Live(f, dir)
             case Move(links) => SafeLinks(f, links)
             case Trash(dir, _, _, _, _) => Live(f, dir)
             case Restore(_, dir, _, _) => Live(f, dir)
  {
    match c
    case Create(dir, name, node) => f + {Item(At(f, dir, name), node)}
    case Replace(dir, name, was, now) => f - {Item(At(f, dir, name), was)} + {Item(At(f, dir, name), now)}
    case Delete(dir, name, node) => f - {Item(At(f, dir, name), node)}
    case Move(links) => RelocateAll(f, links)
    case Trash(dir, name, id, _, _) => Relocated(f, At(f, dir, name), Loc(Some(id), []))
    case Restore(id, dir, name, node) =>
      if ManifestThere(g, c) then Relocated(f, Loc(Some(id), []), At(f, dir, name)) else f + {Item(At(f, dir, name), node)}
  }

  ghost predicate CanRename(s: State, dir: nat, name: Name, to: Name) {
    Child(s.graph, dir, name).Some? && Child(s.graph, dir, to).None? && Located(s.forest, dir)
  }

  ghost predicate CanBuild(s: State, o: OpId, c: Change, count: Stats, insists: bool) {
    && o in s.ops && s.ops[o].plan.None?
    && Buildable(s.graph, s.forest, s.ops[o], c) && !Refused(s.forest, c) && RightCount(s, c, count)
    && (insists ==> c.Move? && |c.links| == 1)
  }

  /** A commit that insists fails if one of its shards has been changed; any other goes through. */
  ghost predicate Enabled(s: State, l: Step) {
    match l
    case Look(o, id) => Idle(s, o) && id in s.graph.trash
    case Begin(o, fences) => Idle(s, o) && FencesFree(s, o, fences)
    case Build(o, c, count, insists) => CanBuild(s, o, c, count, insists)
    case Expire(o) => o in s.ops && s.ops[o].fences != {}
    case Commit(o) => o in s.ops && s.ops[o].plan.Some? && (s.ops[o].insists ==> Current(s, o))
    case Abort(o) => o in s.ops
    case Rename(dir, name, to) => CanRename(s, dir, name, to)
  }

  function RenameFences(g: Graph, dir: nat, name: Name, to: Name): set<Fence> {
    {ShardFence(dir, g.shardOf(name)), ShardFence(dir, g.shardOf(to))}
  }

  /** Leases exclude each other. */
  ghost predicate Apart(mine: set<Fence>, others: set<Fence>) {
    forall a, b | a in mine && b in others :: !Clash(a, b)
  }

  /** Whoever has built on one of the two shards, under leases that still hold, insists on them. */
  ghost predicate Harmless(s: State, dir: nat, name: Name, to: Name) {
    forall q | q in s.ops && s.ops[q].plan.Some? && !s.ops[q].lapsed && !s.ops[q].insists ::
      Apart(s.ops[q].fences, RenameFences(s.graph, dir, name, to))
  }

  /** The conditions that the code leaves open: commits are safe and in time, and lease-free
      renames harmless. */
  ghost predicate SafeStep(s: State, l: Step) {
    match l
    case Commit(o) =>
      o in s.ops && s.ops[o].plan.Some? ==> !s.ops[o].lapsed && Safe(s.graph, s.forest, s.ops[o].plan.value, s.ops[o].derived)
    case Rename(dir, name, to) => Harmless(s, dir, name, to)
    case _ => true
  }

  ghost predicate Sound(s: State, o: OpId) {
    && Current(s, o)
    && Buildable(s.graph, s.forest, s.ops[o], s.ops[o].plan.value) && Safe(s.graph, s.forest, s.ops[o].plan.value, s.ops[o].derived)
  }

  /** What a sound commit comes to; leases and plan are gone with it. */
  ghost function DoCommit(s: State, o: OpId): State
    requires Sound(s, o)
  {
    var c := s.ops[o].plan.value;
    State(GraphAfter(s.graph, c), ForestAfter(s.graph, s.forest, c), s.next, s.ops - {o})
  }

  ghost function DoRename(s: State, dir: nat, name: Name, to: Name): State
    requires CanRename(s, dir, name, to)
  {
    var n := Child(s.graph, dir, name).value;
    s.(graph := LinkGraph(s.graph, Link(dir, name, dir, to, n)),
       forest := Relocated(s.forest, At(s.forest, dir, name), At(s.forest, dir, to)))
  }

  function ManifestOf(s: State, o: OpId): Option<(string, Node)> {
    if o in s.ops then s.ops[o].manifest else None
  }

  /** A commit writes in any case; where it is not sound, what that does to the tree is not a
      run's concern but NamespaceLimits'. */
  ghost function Next(s: State, l: Step): State
    requires Enabled(s, l)
  {
    match l
    case Look(o, id) =>
      s.(ops := s.ops[o := Op({}, false, s.next, NoStats, None, s.graph, false, Some((id, s.graph.trash[id].node)))], next := s.next + 1)
    case Begin(o, fences) =>
      s.(ops := s.ops[o := Op(fences, false, s.next, NoStats, None, s.graph, false, ManifestOf(s, o))], next := s.next + 1)
    case Build(o, c, count, insists) =>
      s.(ops := s.ops[o := s.ops[o].(derived := Assigned(s.ops[o].derived, s.graph, s.forest, c, count), plan := Some(c),
                                     base := s.graph, insists := insists)])
    case Expire(o) => s.(ops := s.ops[o := s.ops[o].(lapsed := true)])
    case Commit(o) =>
      s.(graph := Written(s.graph, s.ops[o].base, s.ops[o].plan.value), ops := s.ops - {o},
         forest := if Sound(s, o) then ForestAfter(s.graph, s.forest, s.ops[o].plan.value) else s.forest)
    case Abort(o) => s.(ops := s.ops[o := s.ops[o].(fences := {}, plan := None, lapsed := false)])
    case Rename(dir, name, to) => DoRename(s, dir, name, to)
  }

  // ---- The invariant ----

  /** One entry moves, and the commit insists on the shards it was read from. */
  ghost predicate InsistsOk(g: Graph, f: set<Item>, op: Op) {
    && op.plan.Some? && op.plan.value.Move? && |op.plan.value.links| == 1 && op.derived == NoStats && op.base.shardOf == g.shardOf
    && Linkable(op.base, op.plan.value.links)
    && LinkFenced(g, op.fences, op.plan.value.links[0]) && LinkLive(f, op.plan.value.links[0])
  }

  /** What a restore hands over counts at least the node. */
  ghost predicate Counted(derived: Stats, node: Node) {
    exists nodes :: node in nodes && derived == Count(nodes)
  }

  ghost predicate PlanOk(s: State, o: OpId)
    requires o in s.ops && s.ops[o].plan.Some?
  {
    var op := s.ops[o];
    && (if op.insists then InsistsOk(s.graph, s.forest, op) else Current(s, o))
    && (op.plan.value.Restore? ==> Counted(op.derived, op.plan.value.node))
    && (Current(s, o) ==>
          Buildable(s.graph, s.forest, op, op.plan.value) && op.derived == Delta(s.graph, s.forest, op.plan.value, op.derived))
  }

  /** A begun attempt has nothing to hand over yet; a built one whose leases have not run out
      finds at its commit what it saw, or insists on it. */
  ghost predicate OpOk(s: State, o: OpId)
    requires o in s.ops
  {
    var op := s.ops[o];
    (op.plan.None? && op.fences != {} ==> op.derived == NoStats) && (op.plan.Some? && !op.lapsed ==> PlanOk(s, o))
  }

  ghost predicate FencesApart(s: State) {
    forall p, q | p in s.ops && q in s.ops && p != q && !s.ops[p].lapsed && !s.ops[q].lapsed :: Apart(s.ops[p].fences, s.ops[q].fences)
  }

  ghost predicate SparesOk(s: State) {
    && (forall o | o in s.ops :: RootNode.id < s.ops[o].spare < s.next)
    && (forall o, i | o in s.ops && i in s.forest :: i.node.id != s.ops[o].spare)
    && (forall p, q | p in s.ops && q in s.ops && p != q :: s.ops[p].spare != s.ops[q].spare)
  }

  /** A node that was once in the trash has an id that nobody is about to give to a new one. */
  ghost predicate ManifestsOk(s: State) {
    forall o | o in s.ops && s.ops[o].manifest.Some? ::
      && RootNode.id < s.ops[o].manifest.value.1.id < s.next
      && forall q | q in s.ops :: s.ops[q].spare != s.ops[o].manifest.value.1.id
  }

  ghost predicate Inv(s: State) {
    && SpaceOk(s.graph, s.forest, s.next) && FencesApart(s) && SparesOk(s) && ManifestsOk(s)
    && forall o | o in s.ops :: OpOk(s, o)
  }

  // ---- Places and entries ----

  lemma WhereIs(f: set<Item>, dir: nat)
    requires ForestOk(f) && Located(f, dir)
    ensures DirAt(f, Where(f, dir), dir)
  {
  }

  lemma WhereOnly(f: set<Item>, l: Loc, dir: nat)
    requires ForestOk(f) && DirAt(f, l, dir)
    ensures Located(f, dir) && Where(f, dir) == l
  {
    LocatedAt(f, l, dir);
    WhereIs(f, dir);
    OnePlace(f, l, Where(f, dir), dir);
  }

  /** The edge of an entry, and what is found there. */
  lemma EntryAt(g: Graph, f: set<Item>, dir: nat, name: Name)
    requires ForestOk(f) && Represents(g, f) && Located(f, dir)
    ensures LeadsTo(f, ShardEdge(dir, name), At(f, dir, name)) && At(f, dir, name).path != []
    ensures Child(g, dir, name).None? <==> !Occupied(f, At(f, dir, name))
    ensures Child(g, dir, name).Some? ==> Item(At(f, dir, name), Child(g, dir, name).value) in f
  {
    WhereIs(f, dir);
    var c := At(f, dir, name);
    assert Parent(c.path) == Where(f, dir).path && Base(c.path) == name && Up(c) == Where(f, dir);
    FoundChild(g, f, Where(f, dir), dir, name);
  }

  /** Different entries are in different places. */
  lemma EntriesApart(f: set<Item>, dir: nat, name: Name, dir': nat, name': Name)
    requires ForestOk(f) && Located(f, dir) && Located(f, dir')
    ensures At(f, dir, name) == At(f, dir', name') <==> dir == dir' && name == name'
  {
    DownApart(Where(f, dir), name, Where(f, dir'), name');
    if Where(f, dir) == Where(f, dir') {
      WhereIs(f, dir);
      WhereIs(f, dir');
      OneId(f, Where(f, dir), dir, dir');
    }
  }

  lemma DownApart(a: Loc, x: Name, b: Loc, y: Name)
    ensures Down(a, x) == Down(b, y) <==> a == b && x == y
  {
    assert Base(Down(a, x).path) == x && Base(Down(b, y).path) == y;
    assert Parent(Down(a, x).path) == a.path && Parent(Down(b, y).path) == b.path;
  }

  // ---- What each commit does ----

  lemma CreateOk(g: Graph, f: set<Item>, next: nat, dir: nat, name: Name, node: Node)
    requires SpaceOk(g, f, next) && Live(f, dir) && Child(g, dir, name).None?
    requires RootNode.id < node.id < next && forall i | i in f :: i.node.id != node.id
    ensures SpaceOk(SetEntry(g, dir, name, node), f + {Item(At(f, dir, name), node)}, next)
    ensures Conserves(f, f + {Item(At(f, dir, name), node)}, Weight(node))
  {
    EntryAt(g, f, dir, name);
    SetEntryPatches(g, dir, name, node);
    LeafSpace(g, SetEntry(g, dir, name, node), f, next, dir, name, node, At(f, dir, name), next);
    CreateConserves(f, At(f, dir, name), node);
  }

  lemma ReplaceOk(g: Graph, f: set<Item>, next: nat, dir: nat, name: Name, was: Node, now: Node)
    requires SpaceOk(g, f, next) && Live(f, dir) && Child(g, dir, name) == Some(was)
    requires !was.isDirectory && now.id == was.id && !now.isDirectory
    ensures var f' := f - {Item(At(f, dir, name), was)} + {Item(At(f, dir, name), now)};
      SpaceOk(SetEntry(g, dir, name, now), f', next) && Conserves(f, f', ReplaceDelta(Some(was), now))
  {
    var l := At(f, dir, name);
    EntryAt(g, f, dir, name);
    SetEntryPatches(g, dir, name, now);
    UpdateSpace(g, SetEntry(g, dir, name, now), f, next, dir, name, was, now, l);
    ReplaceConserves(f, f - {Item(l, was)} + {Item(l, now)}, l, Some(was), now, now.content.hash, now.content.size);
  }

  lemma DeleteOk(g: Graph, f: set<Item>, next: nat, dir: nat, name: Name, node: Node)
    requires SpaceOk(g, f, next) && Live(f, dir) && Child(g, dir, name) == Some(node)
    requires node.isDirectory ==> forall x :: Child(g, node.id, x).None?
    ensures var f' := f - {Item(At(f, dir, name), node)};
      SpaceOk(DropEntry(g, dir, name), f', next) && Conserves(f, f', Negate(Weight(node)))
  {
    var l := At(f, dir, name);
    EntryAt(g, f, dir, name);
    DropEntryPatches(g, dir, name);
    forall i | i in f && Below(i.loc, l) ensures i.loc == l {
      if i.loc != l {
        ThroughChild(g, f, l, node, i);
      }
    }
    CutSpace(g, DropEntry(g, dir, name), f, next, dir, name, node, l);
    DeleteConserves(f, l, node);
  }

  lemma RootStays(f: set<Item>, from: Loc, to: Loc, n: Node)
    requires ForestOk(f) && CanRelink(f, from, to, n)
    ensures Shift(LiveRoot, from, to) == LiveRoot
  {
    assert from != LiveRoot;
  }

  /** A relocation takes a directory along if it is inside. */
  lemma DirShifts(f: set<Item>, from: Loc, to: Loc, n: Node, d: nat)
    requires ForestOk(f) && CanRelink(f, from, to, n) && ForestOk(Relocated(f, from, to)) && Located(f, d)
    ensures Located(Relocated(f, from, to), d) && Where(Relocated(f, from, to), d) == Shift(Where(f, d), from, to)
  {
    var f' := Relocated(f, from, to);
    WhereIs(f, d);
    RootStays(f, from, to, n);
    if d != RootNode.id {
      var j :| j in f && j.node.isDirectory && j.node.id == d && j.loc == Where(f, d);
      assert Item(Shift(j.loc, from, to), j.node) in f';
      assert DirAt(f', Shift(j.loc, from, to), d);
    }
    WhereOnly(f', Shift(Where(f, d), from, to), d);
  }

  lemma RelocateOk(g: Graph, g1: Graph, g2: Graph, f: set<Item>, next: nat, l: Loc, l': Loc, e: Edge, e': Edge, n: Node)
    requires SpaceOk(g, f, next) && CanRelink(f, l, l', n) && LeadsTo(f, e, l) && LeadsTo(f, e', l')
    requires Patched(g, g1, e, None) && Patched(g1, g2, e', Some(n)) && Placed(g2) && Rooted(g2)
    ensures SpaceOk(g2, Relocated(f, l, l'), next)
  {
    PatchTwice(g, g1, g2, e, e', n);
    RelinkSpace(g, g2, f, next, l, l', e, e', n);
  }

  lemma LinkPatches(g: Graph, l: Link)
    requires Placed(g) && Rooted(g)
    ensures var g1 := DropEntry(g, l.dir, l.name);
            && Patched(g, g1, ShardEdge(l.dir, l.name), None)
            && Patched(g1, LinkGraph(g, l), ShardEdge(l.toDir, l.toName), Some(l.node))
            && Placed(LinkGraph(g, l)) && Rooted(LinkGraph(g, l)) && LinkGraph(g, l).trash == g.trash
  {
    DropEntryPatches(g, l.dir, l.name);
    SetEntryPatches(DropEntry(g, l.dir, l.name), l.toDir, l.toName, l.node);
  }

  /** One entry goes to another place in the tree. */
  lemma EntryMoves(g: Graph, f: set<Item>, next: nat, l: Link)
    requires SpaceOk(g, f, next) && Located(f, l.dir) && Located(f, l.toDir)
    requires Child(g, l.dir, l.name) == Some(l.node) && Child(g, l.toDir, l.toName).None?
    requires var from, to := At(f, l.dir, l.name), At(f, l.toDir, l.toName); !Below(to, from)
    ensures var from, to := At(f, l.dir, l.name), At(f, l.toDir, l.toName);
            CanRelink(f, from, to, l.node) && SpaceOk(LinkGraph(g, l), Relocated(f, from, to), next)
  {
    EntryAt(g, f, l.dir, l.name);
    EntryAt(g, f, l.toDir, l.toName);
    LinkPatches(g, l);
    RelocateOk(g, DropEntry(g, l.dir, l.name), LinkGraph(g, l), f, next, At(f, l.dir, l.name), At(f, l.toDir, l.toName),
               ShardEdge(l.dir, l.name), ShardEdge(l.toDir, l.toName), l.node);
  }

  lemma LinkOk(g: Graph, f: set<Item>, next: nat, l: Link)
    requires SpaceOk(g, f, next) && LinkLive(f, l) && !Below(To(f, l), From(f, l))
    requires Child(g, l.dir, l.name) == Some(l.node) && Child(g, l.toDir, l.toName).None?
    ensures SpaceOk(LinkGraph(g, l), LinkForest(f, l), next) && LiveNodes(LinkForest(f, l)) == LiveNodes(f)
  {
    EntryMoves(g, f, next, l);
    StaysLive(f, From(f, l), To(f, l));
  }

  /** A move: every subtree is somewhere else, and no count has changed. */
  lemma {:induction false} MoveOk(g: Graph, f: set<Item>, next: nat, links: seq<Link>)
    requires SpaceOk(g, f, next) && Linkable(g, links) && SafeLinks(f, links)
    ensures SpaceOk(LinkAll(g, links), RelocateAll(f, links), next)
    ensures LiveNodes(RelocateAll(f, links)) == LiveNodes(f)
    decreases |links|
  {
    if links != [] {
      LinkOk(g, f, next, links[0]);
      MoveOk(LinkGraph(g, links[0]), LinkForest(f, links[0]), next, links[1..]);
    }
  }

  lemma SameNodes(f: set<Item>, f': set<Item>)
    requires LiveNodes(f') == LiveNodes(f)
    ensures Conserves(f, f', NoStats)
  {
  }

  lemma TrashOk(g: Graph, f: set<Item>, next: nat, dir: nat, name: Name, id: string, path: Path, node: Node)
    requires SpaceOk(g, f, next) && Live(f, dir) && Child(g, dir, name) == Some(node) && id !in g.trash && path != []
    ensures var f' := Relocated(f, At(f, dir, name), Loc(Some(id), []));
      && SpaceOk(PutManifest(DropEntry(g, dir, name), id, TrashManifest(path, node, false)), f', next)
      && Conserves(f, f', Negate(Count(NodesBelow(f, At(f, dir, name)))))
  {
    TrashMoves(g, f, next, dir, name, id, path, node);
    TrashConserves(f, At(f, dir, name).path, id);
  }

  lemma TrashMoves(g: Graph, f: set<Item>, next: nat, dir: nat, name: Name, id: string, path: Path, node: Node)
    requires SpaceOk(g, f, next) && Located(f, dir) && Child(g, dir, name) == Some(node) && id !in g.trash && path != []
    ensures var from, to := At(f, dir, name), Loc(Some(id), []);
      && CanRelink(f, from, to, node)
      && SpaceOk(PutManifest(DropEntry(g, dir, name), id, TrashManifest(path, node, false)), Relocated(f, from, to), next)
  {
    var g1, m := DropEntry(g, dir, name), TrashManifest(path, node, false);
    EntryAt(g, f, dir, name);
    FoundIsItem(g, f, Loc(Some(id), []));
    DropEntryPatches(g, dir, name);
    PutManifestPatches(g1, id, m);
    RelocateOk(g, g1, PutManifest(g1, id, m), f, next, At(f, dir, name), Loc(Some(id), []), ShardEdge(dir, name), TrashEdge(id), node);
  }

  lemma RestoreOk(g: Graph, f: set<Item>, next: nat, id: string, dir: nat, name: Name, node: Node)
    requires SpaceOk(g, f, next) && Live(f, dir) && Child(g, dir, name).None? && Out(g, TrashEdge(id)) == Some(node)
    ensures var f' := Relocated(f, Loc(Some(id), []), At(f, dir, name));
      && SpaceOk(SetEntry(DropManifest(g, id), dir, name, node), f', next)
      && Conserves(f, f', Count(NodesBelow(f, Loc(Some(id), []))))
  {
    RestoreMoves(g, f, next, id, dir, name, node);
    RestoreConserves(f, id, At(f, dir, name).path);
  }

  lemma RestoreMoves(g: Graph, f: set<Item>, next: nat, id: string, dir: nat, name: Name, node: Node)
    requires SpaceOk(g, f, next) && Located(f, dir) && Child(g, dir, name).None? && Out(g, TrashEdge(id)) == Some(node)
    requires !Below(At(f, dir, name), Loc(Some(id), []))
    ensures var from, to := Loc(Some(id), []), At(f, dir, name);
      && CanRelink(f, from, to, node)
      && SpaceOk(SetEntry(DropManifest(g, id), dir, name, node), Relocated(f, from, to), next)
  {
    var g1, l := DropManifest(g, id), Loc(Some(id), []);
    EntryAt(g, f, dir, name);
    FoundItem(g, f, l, node);
    DropManifestPatches(g, id);
    SetEntryPatches(g1, dir, name, node);
    RelocateOk(g, g1, SetEntry(g1, dir, name, node), f, next, l, At(f, dir, name), TrashEdge(id), ShardEdge(dir, name), node);
  }

  lemma RestoredOk(g: Graph, f: set<Item>, next: nat, c: Change, derived: Stats)
    requires SpaceOk(g, f, next) && c.Restore? && Safe(g, f, c, derived) && Child(g, c.dir, c.name).None?
    requires RootNode.id < c.node.id < next && derived == Delta(g, f, c, derived)
    ensures SpaceOk(GraphAfter(g, c), ForestAfter(g, f, c), next) && Conserves(f, ForestAfter(g, f, c), derived)
  {
    if ManifestThere(g, c) {
      RestoreOk(g, f, next, c.id, c.dir, c.name, c.node);
    } else {
      NoManifest(g, c.id);
      CreateOk(g, f, next, c.dir, c.name, c.node);
    }
  }

  /** The id of a new or a restored node is nobody else's. */
  ghost predicate IdsFree(f: set<Item>, next: nat, c: Change) {
    && (c.Create? ==> RootNode.id < c.node.id < next && forall i | i in f :: i.node.id != c.node.id)
    && (c.Restore? ==> RootNode.id < c.node.id < next)
  }

  lemma ChangeOk(g: Graph, f: set<Item>, next: nat, op: Op, c: Change)
    requires SpaceOk(g, f, next) && Buildable(g, f, op, c) && Safe(g, f, c, op.derived) && IdsFree(f, next, c)
    requires op.derived == Delta(g, f, c, op.derived)
    ensures SpaceOk(GraphAfter(g, c), ForestAfter(g, f, c), next) && Conserves(f, ForestAfter(g, f, c), op.derived)
  {
    match c
    case Create(dir, name, node) => CreateOk(g, f, next, dir, name, node);
    case Replace(dir, name, was, now) => ReplaceOk(g, f, next, dir, name, was, now);
    case Delete(dir, name, node) => DeleteOk(g, f, next, dir, name, node);
    case Move(links) =>
      MoveOk(g, f, next, links);
      SameNodes(f, RelocateAll(f, links));
    case Trash(dir, name, id, path, node) => TrashOk(g, f, next, dir, name, id, path, node);
    case Restore(_, _, _, _) => RestoredOk(g, f, next, c, op.derived);
  }

  lemma PlannedIds(s: State, o: OpId)
    requires SpaceOk(s.graph, s.forest, s.next) && SparesOk(s) && ManifestsOk(s) && Current(s, o)
    requires Buildable(s.graph, s.forest, s.ops[o], s.ops[o].plan.value)
    ensures IdsFree(s.forest, s.next, s.ops[o].plan.value)
  {
  }

  /** What a sound commit does to the counts is what was handed over for it. */
  lemma CommitConserves(s: State, o: OpId)
    requires Inv(s) && Sound(s, o) && !s.ops[o].lapsed
    ensures SpaceOk(DoCommit(s, o).graph, DoCommit(s, o).forest, s.next)
    ensures Conserves(s.forest, DoCommit(s, o).forest, s.ops[o].derived)
  {
    assert OpOk(s, o);
    PlannedIds(s, o);
    ChangeOk(s.graph, s.forest, s.next, s.ops[o], s.ops[o].plan.value);
  }

  lemma NoManifest(g: Graph, id: string)
    requires id !in g.trash
    ensures DropManifest(g, id) == g
  {
    assert g.trash - {id} == g.trash;
  }

  // ---- What is written is the change, if the shards are unchanged ----

  lemma WrittenOne(g: Graph, base: Graph, c: Change, dir: nat, name: Name)
    requires Unchanged(g, base, c) && !c.Move? && Keys(base, c) == {(dir, g.shardOf(name))}
    requires forall k | k in GraphAfter(g, c).shards.Keys :: k in g.shards.Keys || k == (dir, g.shardOf(name))
    ensures Written(g, base, c) == GraphAfter(g, c)
  {
    var k := (dir, g.shardOf(name));
    assert ShardMap(g, k.0, k.1) == ShardMap(base, k.0, k.1);
    assert Written(g, base, c).shards == GraphAfter(g, c).shards;
  }

  /** Two graphs with the same shards on some keys still have after any edit on those keys. */
  ghost predicate SameOn(g: Graph, base: Graph, keys: set<(nat, nat)>) {
    g.shardOf == base.shardOf && forall k | k in keys :: ShardMap(g, k.0, k.1) == ShardMap(base, k.0, k.1)
  }

  function OneLinkKeys(g: Graph, l: Link): set<(nat, nat)> {
    {(l.dir, g.shardOf(l.name)), (l.toDir, g.shardOf(l.toName))}
  }

  lemma SameAfterLink(g: Graph, base: Graph, keys: set<(nat, nat)>, l: Link)
    requires SameOn(g, base, keys) && OneLinkKeys(g, l) <= keys
    ensures SameOn(LinkGraph(g, l), LinkGraph(base, l), keys)
  {
    forall k | k in keys ensures ShardMap(LinkGraph(g, l), k.0, k.1) == ShardMap(LinkGraph(base, l), k.0, k.1) {
      SetEntryShard(DropEntry(g, l.dir, l.name), l.toDir, l.toName, l.node, k.0, k.1);
      SetEntryShard(DropEntry(base, l.dir, l.name), l.toDir, l.toName, l.node, k.0, k.1);
      DropEntryShard(g, l.dir, l.name, k.0, k.1);
      DropEntryShard(base, l.dir, l.name, k.0, k.1);
    }
  }

  lemma {:induction false} SameAfterLinks(g: Graph, base: Graph, keys: set<(nat, nat)>, links: seq<Link>)
    requires SameOn(g, base, keys) && LinkKeys(g, links) <= keys
    ensures SameOn(LinkAll(g, links), LinkAll(base, links), keys)
    decreases |links|
  {
    if links != [] {
      KeysSplit(g, links);
      SameAfterLink(g, base, keys, links[0]);
      SameAfterLinks(LinkGraph(g, links[0]), LinkGraph(base, links[0]), keys, links[1..]);
    }
  }

  /** Nothing but these shards is edited. */
  ghost predicate Edited(g: Graph, after: Graph, keys: set<(nat, nat)>) {
    && after.shards.Keys == g.shards.Keys + keys && after.trash == g.trash && after.shardOf == g.shardOf
    && forall k | k in g.shards && k !in keys :: after.shards[k] == g.shards[k]
  }

  lemma EditedTwice(g: Graph, g1: Graph, g2: Graph, a: set<(nat, nat)>, b: set<(nat, nat)>)
    requires Edited(g, g1, a) && Edited(g1, g2, b)
    ensures Edited(g, g2, a + b)
  {
  }

  lemma {:induction false} LinksEdit(g: Graph, links: seq<Link>)
    ensures Edited(g, LinkAll(g, links), LinkKeys(g, links))
    decreases |links|
  {
    if links != [] {
      KeysSplit(g, links);
      var g1 := LinkGraph(g, links[0]);
      assert Edited(g, g1, OneLinkKeys(g, links[0]));
      LinksEdit(g1, links[1..]);
      EditedTwice(g, g1, LinkAll(g1, links[1..]), OneLinkKeys(g, links[0]), LinkKeys(g, links[1..]));
    }
  }

  lemma KeysSplit(g: Graph, links: seq<Link>)
    requires links != []
    ensures LinkKeys(g, links) == OneLinkKeys(g, links[0]) + LinkKeys(g, links[1..])
    ensures LinkKeys(LinkGraph(g, links[0]), links[1..]) == LinkKeys(g, links[1..])
  {
    assert forall m :: m in links <==> m == links[0] || m in links[1..];
  }

  lemma WritesBack(g: Graph, after: Graph, made: Graph, keys: set<(nat, nat)>)
    requires SameOn(after, made, keys) && Edited(g, after, keys)
    ensures WriteBack(g, made, keys) == after.shards
  {
    forall k | k in after.shards ensures WriteBack(g, made, keys)[k] == after.shards[k] {
      if k in keys {
        assert ShardMap(after, k.0, k.1) == ShardMap(made, k.0, k.1);
      }
    }
  }

  lemma WrittenLinks(g: Graph, base: Graph, links: seq<Link>)
    requires Unchanged(g, base, Move(links))
    ensures Written(g, base, Move(links)) == GraphAfter(g, Move(links))
  {
    SameAfterLinks(g, base, LinkKeys(g, links), links);
    LinksEdit(g, links);
    WritesBack(g, LinkAll(g, links), LinkAll(base, links), LinkKeys(g, links));
  }

  /** What is written back whole is the change of the shards as they are, if nobody has changed
      them since they were read. */
  lemma WrittenIsAfter(g: Graph, base: Graph, c: Change)
    requires Unchanged(g, base, c)
    ensures Written(g, base, c) == GraphAfter(g, c)
  {
    match c
    case Create(dir, name, _) => WrittenOne(g, base, c, dir, name);
    case Replace(dir, name, _, _) => WrittenOne(g, base, c, dir, name);
    case Delete(dir, name, _) => WrittenOne(g, base, c, dir, name);
    case Move(links) => WrittenLinks(g, base, links);
    case Trash(dir, name, _, _, _) => WrittenOne(g, base, c, dir, name);
    case Restore(_, dir, name, _) => WrittenOne(g, base, c, dir, name);
  }
}
