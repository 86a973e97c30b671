/** How concurrent operations get to where the conditions of the namespace fail: moves into each
    other, an entry trashed out of a directory that is being trashed, and one restored into it, a
    manifest restored twice, a lease-free rename onto a shard somebody has built on, and leases
    that run out before the decision. */
module NamespaceRaces {
  import opened Wrappers
  import opened Paths
  import opened FlatTree
  import opened NodeTree
  import opened NodeSpace
  import opened NodeNamespace
  import opened NodeAccounts
  import opened NodeMutations
  import opened NodeConservation
  import opened NamespaceModel
  import opened NamespaceFrames
  import opened NamespaceRuns
  import opened NamespaceLimits

  // ---- Concurrent operations get there ----

  ghost predicate Can(s: State, l: Step) {
    Enabled(s, l) && SafeStep(s, l)
  }

  /** A run of safe steps from s to s'. */
  ghost predicate Leads(s: State, steps: seq<Step>, s': State)
    decreases |steps|
  {
    if steps == [] then s' == s else Can(s, steps[0]) && Leads(Next(s, steps[0]), steps[1..], s')
  }

  lemma {:induction false} OneStepOn(s: State, steps: seq<Step>, s': State, l: Step)
    requires Leads(s, steps, s') && Can(s', l)
    ensures Leads(s, steps + [l], Next(s', l))
    decreases |steps|
  {
    if steps == [] {
      assert ([l])[1..] == [] && Leads(Next(s, l), [], Next(s, l));
      assert steps + [l] == [l];
    } else {
      OneStepOn(Next(s, steps[0]), steps[1..], s', l);
      assert (steps + [l])[1..] == steps[1..] + [l];
    }
  }

  lemma {:induction false} LeadsOn(s: State, a: seq<Step>, s1: State, b: seq<Step>, s2: State)
    requires Leads(s, a, s1) && Leads(s1, b, s2)
    ensures Leads(s, a + b, s2)
    decreases |a|
  {
    if a == [] {
      assert a + b == b;
    } else {
      LeadsOn(Next(s, a[0]), a[1..], s1, b, s2);
      assert (a + b)[1..] == a[1..] + b;
    }
  }

  lemma {:induction false} LeadsInv(s: State, steps: seq<Step>, s': State)
    requires Inv(s) && Leads(s, steps, s')
    ensures Inv(s')
    decreases |steps|
  {
    if steps != [] {
      StepInv(s, steps[0]);
      LeadsInv(Next(s, steps[0]), steps[1..], s');
    }
  }

  lemma TwoStepsOn(s: State, l: Step, l': Step)
    requires Can(s, l) && Can(Next(s, l), l')
    ensures Leads(s, [l, l'], Next(Next(s, l), l'))
  {
    assert Leads(s, [], s);
    OneStepOn(s, [], s, l);
    OneStepOn(s, [] + [l], Next(s, l), l');
    assert [] + [l] + [l'] == [l, l'];
  }

  function LinkFences(g: Graph, l: Link): set<Fence> {
    {ShardFence(l.dir, g.shardOf(l.name)), ShardFence(l.toDir, g.shardOf(l.toName))}
  }

  /** A rename or move of one entry is planned. */
  ghost predicate Ready(g: Graph, f: set<Item>, l: Link) {
    LinkLive(f, l) && Child(g, l.dir, l.name) == Some(l.node) && Child(g, l.toDir, l.toName).None?
  }

  lemma LinkBuildable(g: Graph, f: set<Item>, op: Op, l: Link)
    requires Ready(g, f, l) && LinkFences(g, l) <= op.fences
    ensures Buildable(g, f, op, Move([l]))
  {
    assert [l][1..] == [];
    assert Linkable(LinkGraph(g, l), []);
    forall m | m in [l] ensures LinkFenced(g, op.fences, m) && LinkLive(f, m) {
    }
  }

  /** One operation takes its leases and builds; the tree is as it was. */
  lemma Builds(s: State, o: OpId, l: Link) returns (s': State)
    requires o !in s.ops && Ready(s.graph, s.forest, l) && FencesFree(s, o, LinkFences(s.graph, l))
    requires !Below(To(s.forest, l), From(s.forest, l))
    ensures Leads(s, MoveSteps(s.graph, o, l), s')
    ensures s' == s.(next := s.next + 1, ops := s.ops[o := Op(LinkFences(s.graph, l), false, s.next, NoStats, Some(Move([l])), s.graph, false, None)])
  {
    var l1, l2 := MoveSteps(s.graph, o, l)[0], MoveSteps(s.graph, o, l)[1];
    var s1 := Next(s, l1);
    LinkBuildable(s1.graph, s1.forest, s1.ops[o], l);
    s' := Next(s1, l2);
    TwoStepsOn(s, l1, l2);
    assert s'.ops == s.ops[o := Op(LinkFences(s.graph, l), false, s.next, NoStats, Some(Move([l])), s.graph, false, None)];
  }

  function MoveSteps(g: Graph, o: OpId, l: Link): seq<Step> {
    [Begin(o, LinkFences(g, l)), Build(o, Move([l]), NoStats, false)]
  }

  /** The first move goes below the node of the second. */
  lemma CrossedPlaces(g: Graph, f: set<Item>, l1: Link, l2: Link)
    requires ForestOk(f) && Represents(g, f) && Ready(g, f, l1) && Ready(g, f, l2) && !Below(To(f, l1), From(f, l1))
    requires l1.node.isDirectory && l2.node.isDirectory && l1.node.id == l2.toDir && l2.node.id == l1.toDir
    ensures Where(f, l1.node.id) == From(f, l1) && Below(To(f, l1), From(f, l2)) && !Below(From(f, l2), From(f, l1))
  {
    EntryAt(g, f, l1.dir, l1.name);
    EntryAt(g, f, l2.dir, l2.name);
    assert DirAt(f, From(f, l1), l1.node.id) && DirAt(f, From(f, l2), l2.node.id);
    WhereOnly(f, From(f, l1), l1.node.id);
    WhereOnly(f, From(f, l2), l2.node.id);
    if Below(From(f, l2), From(f, l1)) {
      BelowBelow(From(f, l1), From(f, l2), To(f, l1));
    }
  }

  /** After the first of two crossed moves, the second would go below itself. */
  lemma CrossedUnsafe(g: Graph, f: set<Item>, next: nat, l1: Link, l2: Link)
    requires SpaceOk(g, f, next) && Ready(g, f, l1) && Ready(g, f, l2) && !Below(To(f, l1), From(f, l1))
    requires l1.node.isDirectory && l2.node.isDirectory && l1.node.id == l2.toDir && l2.node.id == l1.toDir
    requires LinkLive(LinkForest(f, l1), l2)
    ensures Below(To(LinkForest(f, l1), l2), From(LinkForest(f, l1), l2))
  {
    var f', from, to := LinkForest(f, l1), From(f, l1), To(f, l1);
    CrossedPlaces(g, f, l1, l2);
    EntryMoves(g, f, next, l1);
    SecondStays(f, from, to, l1.node, l2);
    TargetGoes(f, from, to, l1.node, l2);
    BelowBelow(From(f, l2), to, To(f', l2));
  }

  lemma SecondStays(f: set<Item>, from: Loc, to: Loc, n: Node, l: Link)
    requires ForestOk(f) && CanRelink(f, from, to, n) && ForestOk(Relocated(f, from, to)) && Located(f, l.dir) && !Below(At(f, l.dir, l.name), from)
    ensures Located(Relocated(f, from, to), l.dir) && At(Relocated(f, from, to), l.dir, l.name) == At(f, l.dir, l.name)
  {
    EntryShifts(f, from, to, n, l.dir, l.name);
  }

  lemma ShiftSelf(from: Loc, to: Loc)
    ensures Shift(from, from, to) == to
  {
  }

  lemma TargetGoes(f: set<Item>, from: Loc, to: Loc, n: Node, l: Link)
    requires ForestOk(f) && CanRelink(f, from, to, n) && ForestOk(Relocated(f, from, to)) && Located(f, l.toDir) && Where(f, l.toDir) == from
    ensures Located(Relocated(f, from, to), l.toDir) && Below(At(Relocated(f, from, to), l.toDir, l.toName), to)
  {
    DirShifts(f, from, to, n, l.toDir);
    ShiftSelf(from, to);
    assert Down(to, l.toName).path[..|to.path|] == to.path;
  }

  lemma SoundOne(s: State, o: OpId, l: Link)
    requires Current(s, o) && OpOk(s, o) && s.ops[o].plan == Some(Move([l])) && !s.ops[o].lapsed && Ready(s.graph, s.forest, l)
    requires !Below(To(s.forest, l), From(s.forest, l))
    ensures Sound(s, o) && DoCommit(s, o) == State(LinkGraph(s.graph, l), LinkForest(s.forest, l), s.next, s.ops - {o})
  {
    OneLink(s.forest, [l]);
  }

  lemma CommitsOne(s: State, o: OpId, l: Link)
    requires Current(s, o) && OpOk(s, o) && s.ops[o].plan == Some(Move([l])) && !s.ops[o].lapsed && Ready(s.graph, s.forest, l)
    requires !Below(To(s.forest, l), From(s.forest, l))
    ensures Can(s, Commit(o))
    ensures Next(s, Commit(o)) == State(LinkGraph(s.graph, l), LinkForest(s.forest, l), s.next, s.ops - {o})
  {
    SoundOne(s, o, l);
    CommitNext(s, o);
  }

  function CrossedSteps(g: Graph, l1: Link, l2: Link): seq<Step> {
    MoveSteps(g, 1, l1) + MoveSteps(g, 2, l2)
  }

  lemma BothBuilt(s: State, l1: Link, l2: Link) returns (s': State)
    requires s.ops == map[] && Ready(s.graph, s.forest, l1) && Ready(s.graph, s.forest, l2)
    requires Apart(LinkFences(s.graph, l2), LinkFences(s.graph, l1)) && Allowed(s.forest, l1) && Allowed(s.forest, l2)
    ensures Leads(s, CrossedSteps(s.graph, l1, l2), s')
    ensures s'.graph == s.graph && s'.forest == s.forest && s'.ops.Keys == {1, 2}
    ensures s'.ops[1].plan == Some(Move([l1])) && Current(s', 1) && !s'.ops[1].lapsed
    ensures s'.ops[2].plan == Some(Move([l2])) && !s'.ops[2].lapsed && !s'.ops[2].insists
  {
    var s1 := Builds(s, 1, l1);
    s' := Builds(s1, 2, l2);
    LeadsOn(s, MoveSteps(s.graph, 1, l1), s1, MoveSteps(s.graph, 2, l2), s');
  }

  /** The move does not go below itself. */
  ghost predicate Allowed(f: set<Item>, l: Link) {
    LinkLive(f, l) && !Below(To(f, l), From(f, l))
  }

  lemma CrossedRun(s: State, l1: Link, l2: Link) returns (s': State)
    requires Inv(s) && s.ops == map[] && Ready(s.graph, s.forest, l1) && Ready(s.graph, s.forest, l2)
    requires Apart(LinkFences(s.graph, l2), LinkFences(s.graph, l1)) && Allowed(s.forest, l1) && Allowed(s.forest, l2)
    ensures Leads(s, CrossedSteps(s.graph, l1, l2) + [Commit(1)], s')
    ensures s'.forest == LinkForest(s.forest, l1) && 2 in s'.ops && s'.ops[2].plan == Some(Move([l2]))
    ensures !s'.ops[2].lapsed && !s'.ops[2].insists
  {
    var s1 := BothBuilt(s, l1, l2);
    LeadsInv(s, CrossedSteps(s.graph, l1, l2), s1);
    s' := FirstCommits(s, s1, l1, l2);
  }

  /** Two directories moved into each other. Neither build sees the other, and their leases do
      not meet; after the first commit the second takes both subtrees out of the tree for good,
      while nothing is handed over for it. */
  lemma CrossedMoves(s: State, l1: Link, l2: Link) returns (s': State)
    requires Inv(s) && s.ops == map[] && Ready(s.graph, s.forest, l1) && Ready(s.graph, s.forest, l2)
    requires Apart(LinkFences(s.graph, l2), LinkFences(s.graph, l1)) && Allowed(s.forest, l1) && Allowed(s.forest, l2)
    requires l1.node.isDirectory && l2.node.isDirectory && l1.node.id == l2.toDir && l2.node.id == l1.toDir
    ensures Leads(s, CrossedSteps(s.graph, l1, l2) + [Commit(1)], s')
    ensures 2 in s'.ops && s'.ops[2].plan == Some(Move([l2])) && !s'.ops[2].lapsed && CommitBreaks(s', 2)
  {
    s' := CrossedRun(s, l1, l2);
    LeadsInv(s, CrossedSteps(s.graph, l1, l2) + [Commit(1)], s');
    SecondUnsafe(s.graph, s.forest, s.next, s', l1, l2);
    UnsafeCommit(s', 2);
  }

  lemma FirstCommits(s: State, s1: State, l1: Link, l2: Link) returns (s': State)
    requires Leads(s, CrossedSteps(s.graph, l1, l2), s1) && Current(s1, 1) && OpOk(s1, 1) && s1.ops[1].plan == Some(Move([l1])) && !s1.ops[1].lapsed
    requires Ready(s1.graph, s1.forest, l1) && !Below(To(s1.forest, l1), From(s1.forest, l1))
    ensures Leads(s, CrossedSteps(s.graph, l1, l2) + [Commit(1)], s')
    ensures s' == State(LinkGraph(s1.graph, l1), LinkForest(s1.forest, l1), s1.next, s1.ops - {1})
  {
    CommitsOne(s1, 1, l1);
    s' := Next(s1, Commit(1));
    OneStepOn(s, CrossedSteps(s.graph, l1, l2), s1, Commit(1));
  }

  lemma PlannedLive(s: State, o: OpId, l: Link)
    requires o in s.ops && OpOk(s, o) && s.ops[o].plan == Some(Move([l])) && !s.ops[o].lapsed && !s.ops[o].insists
    ensures LinkLive(s.forest, l)
  {
    assert l in [l];
  }

  lemma SecondUnsafe(g: Graph, f: set<Item>, next: nat, s': State, l1: Link, l2: Link)
    requires SpaceOk(g, f, next) && Ready(g, f, l1) && Ready(g, f, l2) && !Below(To(f, l1), From(f, l1))
    requires l1.node.isDirectory && l2.node.isDirectory && l1.node.id == l2.toDir && l2.node.id == l1.toDir
    requires s'.forest == LinkForest(f, l1) && 2 in s'.ops && OpOk(s', 2) && s'.ops[2].plan == Some(Move([l2]))
    requires !s'.ops[2].lapsed && !s'.ops[2].insists
    ensures !Safe(s'.graph, s'.forest, Move([l2]), s'.ops[2].derived)
  {
    PlannedLive(s', 2, l2);
    CrossedUnsafe(g, f, next, l1, l2);
    OneLink(s'.forest, [l2]);
  }

  /** A new directory, alone. */
  function CreateSteps(g: Graph, next: nat, name: Name): seq<Step> {
    [Begin(0, {ShardFence(RootNode.id, g.shardOf(name))}),
     Build(0, Create(RootNode.id, name, Node(next, true, Content("", 0, ""))), NoStats, false)] + [Commit(0)]
  }

  lemma CreateBuilt(s: State, name: Name) returns (s': State)
    requires s.ops == map[] && Live(s.forest, RootNode.id) && Child(s.graph, RootNode.id, name).None?
    ensures Leads(s, CreateSteps(s.graph, s.next, name)[..2], s')
    ensures s' == s.(next := s.next + 1, ops := map[0 := Op({ShardFence(RootNode.id, s.graph.shardOf(name))}, false, s.next, Stats(0, 1, 0),
                                                            Some(Create(RootNode.id, name, Node(s.next, true, Content("", 0, "")))), s.graph, false, None)])
  {
    var l1, l2 := CreateSteps(s.graph, s.next, name)[0], CreateSteps(s.graph, s.next, name)[1];
    var s1 := Next(s, l1);
    s' := Next(s1, l2);
    TwoStepsOn(s, l1, l2);
    assert [l1, l2] == CreateSteps(s.graph, s.next, name)[..2];
  }

  lemma Creates(s: State, name: Name) returns (s': State)
    requires Inv(s) && s.ops == map[] && Live(s.forest, RootNode.id) && Child(s.graph, RootNode.id, name).None?
    ensures Leads(s, CreateSteps(s.graph, s.next, name), s') && Inv(s') && s'.ops == map[] && s'.next == s.next + 1
    ensures s'.graph == SetEntry(s.graph, RootNode.id, name, Node(s.next, true, Content("", 0, "")))
  {
    var s1 := CreateBuilt(s, name);
    LeadsInv(s, CreateSteps(s.graph, s.next, name)[..2], s1);
    assert OpOk(s1, 0);
    CommitNext(s1, 0);
    OneStepOn(s, CreateSteps(s.graph, s.next, name)[..2], s1, Commit(0));
    assert CreateSteps(s.graph, s.next, name)[..2] + [Commit(0)] == CreateSteps(s.graph, s.next, name);
    s' := Next(s1, Commit(0));
    CommitInv(s1, 0);
  }

  lemma RootLive(f: set<Item>)
    ensures Live(f, RootNode.id)
  {
  }

  function Empty(shardOf: Name -> nat): State {
    State(Graph(shardOf, map[], map[]), {}, RootNode.id + 1, map[])
  }

  lemma EmptyInv(shardOf: Name -> nat)
    ensures Inv(Empty(shardOf))
  {
    EmptyRepresents(Empty(shardOf).graph);
  }

  lemma ChildAfter(g: Graph, dir: nat, name: Name, n: Node, d: nat, x: Name)
    ensures Child(SetEntry(g, dir, name, n), d, x) == if d == dir && x == name then Some(n) else Child(g, d, x)
  {
    SetEntryPatches(g, dir, name, n);
    assert Out(SetEntry(g, dir, name, n), ShardEdge(d, x)) == if ShardEdge(d, x) == ShardEdge(dir, name) then Some(n) else Out(g, ShardEdge(d, x));
  }

  lemma InRoot(g: Graph, f: set<Item>, name: Name, n: Node)
    requires ForestOk(f) && Represents(g, f) && Child(g, RootNode.id, name) == Some(n) && n.isDirectory
    ensures Live(f, n.id) && Where(f, n.id) == Loc(None, [name]) && At(f, RootNode.id, name) == Loc(None, [name])
  {
    EntryAt(g, f, RootNode.id, name);
    WhereOnly(f, LiveRoot, RootNode.id);
    WhereOnly(f, Loc(None, [name]), n.id);
  }

  /** Two directories of the root, in different shards, and nothing in either. */
  lemma TwoDirectories(shardOf: Name -> nat, a: Name, b: Name) returns (steps: seq<Step>, s: State, l1: Link, l2: Link)
    requires a != b
    ensures Leads(Empty(shardOf), steps, s) && Inv(s) && s.ops == map[] && s.graph.shardOf == shardOf
    ensures l1 == Link(RootNode.id, a, l2.node.id, a, l1.node) && l2 == Link(RootNode.id, b, l1.node.id, b, l2.node)
    ensures l1.node.isDirectory && l2.node.isDirectory && l1.node.id == 1 && l2.node.id == 2
    ensures forall l | l in {l1, l2} :: Child(s.graph, l.dir, l.name) == Some(l.node) && Child(s.graph, l.toDir, l.toName).None?
  {
    EmptyInv(shardOf);
    var s0 := Empty(shardOf);
    RootLive(s0.forest);
    var s1 := Creates(s0, a);
    var n, m := Node(1, true, Content("", 0, "")), Node(2, true, Content("", 0, ""));
    RootLive(s1.forest);
    ChildAfter(s0.graph, 0, a, n, 0, b);
    s := Creates(s1, b);
    LeadsOn(s0, CreateSteps(s0.graph, s0.next, a), s1, CreateSteps(s1.graph, s1.next, b), s);
    steps := CreateSteps(s0.graph, s0.next, a) + CreateSteps(s1.graph, s1.next, b);
    l1, l2 := Link(0, a, 2, a, n), Link(0, b, 1, b, m);
    TwoChildren(s0.graph, s1.graph, s.graph, a, b, n, m);
  }

  lemma TwoChildren(g0: Graph, g1: Graph, g2: Graph, a: Name, b: Name, n: Node, m: Node)
    requires a != b && g0.shards == map[] && g1 == SetEntry(g0, 0, a, n) && g2 == SetEntry(g1, 0, b, m)
    ensures Child(g2, 0, a) == Some(n) && Child(g2, 0, b) == Some(m) && Child(g2, 2, a).None? && Child(g2, 1, b).None?
  {
    ChildAfter(g0, 0, a, n, 0, a);
    ChildAfter(g1, 0, b, m, 0, a);
    ChildAfter(g1, 0, b, m, 0, b);
    ChildAfter(g0, 0, a, n, 2, a);
    ChildAfter(g1, 0, b, m, 2, a);
    ChildAfter(g0, 0, a, n, 1, b);
    ChildAfter(g1, 0, b, m, 1, b);
  }

  lemma OneReady(g: Graph, f: set<Item>, l: Link, target: Name, n: Node)
    requires ForestOk(f) && Represents(g, f) && l.dir == RootNode.id && l.name != target && l.toDir == n.id && n.isDirectory
    requires Child(g, RootNode.id, target) == Some(n) && Child(g, l.dir, l.name) == Some(l.node) && l.node.isDirectory && Child(g, l.toDir, l.toName).None?
    ensures Ready(g, f, l) && Allowed(f, l)
  {
    InRoot(g, f, l.name, l.node);
    InRoot(g, f, target, n);
    RootLive(f);
    assert To(f, l).path[0] == target && From(f, l).path == [l.name];
  }

  lemma CrossedReady(s: State, l1: Link, l2: Link)
    requires Inv(s) && l1.dir == l2.dir == RootNode.id && l1.name != l2.name && l1.toDir == l2.node.id && l2.toDir == l1.node.id
    requires l1.node.isDirectory && l2.node.isDirectory
    requires forall l | l in {l1, l2} :: Child(s.graph, l.dir, l.name) == Some(l.node) && Child(s.graph, l.toDir, l.toName).None?
    ensures Ready(s.graph, s.forest, l1) && Ready(s.graph, s.forest, l2) && Allowed(s.forest, l1) && Allowed(s.forest, l2)
  {
    assert l1 in {l1, l2} && l2 in {l1, l2};
    OneReady(s.graph, s.forest, l1, l2.name, l2.node);
    OneReady(s.graph, s.forest, l2, l1.name, l1.node);
  }

  /** From an empty namespace: two directories are created and then moved into each other. */
  lemma CrossedFromEmpty(shardOf: Name -> nat, a: Name, b: Name) returns (steps: seq<Step>, s: State, c: Change)
    requires shardOf(a) != shardOf(b)
    ensures Leads(Empty(shardOf), steps, s) && 2 in s.ops && s.ops[2].plan == Some(c) && c.Move? && !s.ops[2].lapsed && CommitBreaks(s, 2)
  {
    var before, s1, l1, l2 := TwoDirectories(shardOf, a, b);
    CrossedReady(s1, l1, l2);
    s := CrossedMoves(s1, l1, l2);
    LeadsOn(Empty(shardOf), before, s1, CrossedSteps(s1.graph, l1, l2) + [Commit(1)], s);
    steps := before + (CrossedSteps(s1.graph, l1, l2) + [Commit(1)]);
    c := Move([l2]);
  }

  // ---- Trash and restore out of or into what has been trashed ----

  ghost function TrashFences(g: Graph, f: set<Item>, dir: nat, name: Name, id: string): set<Fence>
    requires Located(f, dir)
  {
    {ShardFence(dir, g.shardOf(name)), TrashFence(id)} + set m | m in NodesBelow(f, At(f, dir, name)) && m.isDirectory :: AllShards(m.id)
  }

  /** A whole trash of one entry, alone. */
  ghost function TrashSteps(s: State, dir: nat, name: Name, id: string, path: Path, node: Node): seq<Step>
    requires Located(s.forest, dir)
  {
    var c := Trash(dir, name, id, path, node);
    [Begin(0, TrashFences(s.graph, s.forest, dir, name, id)), Build(0, c, Delta(s.graph, s.forest, c, NoStats), false)] + [Commit(0)]
  }

  ghost predicate CanTrash(s: State, dir: nat, name: Name, id: string, path: Path, node: Node) {
    Located(s.forest, dir) && Child(s.graph, dir, name) == Some(node) && id !in s.graph.trash && path != []
  }

  lemma TrashBuildable(g: Graph, f: set<Item>, op: Op, dir: nat, name: Name, id: string, path: Path, node: Node)
    requires Located(f, dir) && Child(g, dir, name) == Some(node) && id !in g.trash && path != [] && op.fences == TrashFences(g, f, dir, name, id)
    ensures Buildable(g, f, op, Trash(dir, name, id, path, node))
  {
  }

  lemma TrashBuilt(s: State, dir: nat, name: Name, id: string, path: Path, node: Node) returns (s': State)
    requires s.ops == map[] && CanTrash(s, dir, name, id, path, node)
    ensures Leads(s, TrashSteps(s, dir, name, id, path, node)[..2], s')
    ensures s'.graph == s.graph && s'.forest == s.forest && s'.ops.Keys == {0} && s'.ops[0].plan == Some(Trash(dir, name, id, path, node))
    ensures Current(s', 0) && !s'.ops[0].lapsed && !s'.ops[0].insists
  {
    var steps := TrashSteps(s, dir, name, id, path, node);
    var l1, l2 := steps[0], steps[1];
    var s1 := Next(s, l1);
    TrashBuildable(s.graph, s.forest, s1.ops[0], dir, name, id, path, node);
    s' := Next(s1, l2);
    TwoStepsOn(s, l1, l2);
    assert [l1, l2] == steps[..2];
  }

  lemma Trashes(s: State, dir: nat, name: Name, id: string, path: Path, node: Node) returns (s': State)
    requires Inv(s) && s.ops == map[] && CanTrash(s, dir, name, id, path, node) && Live(s.forest, dir)
    ensures Leads(s, TrashSteps(s, dir, name, id, path, node), s') && Inv(s') && s'.ops == map[]
    ensures s'.graph == GraphAfter(s.graph, Trash(dir, name, id, path, node)) && s'.forest == Relocated(s.forest, At(s.forest, dir, name), Loc(Some(id), []))
  {
    var steps := TrashSteps(s, dir, name, id, path, node);
    var s1 := TrashBuilt(s, dir, name, id, path, node);
    LeadsInv(s, steps[..2], s1);
    TrashCommits(s1, dir, name, id, path, node);
    OneStepOn(s, steps[..2], s1, Commit(0));
    assert steps[..2] + [Commit(0)] == steps;
    s' := Next(s1, Commit(0));
    LeadsInv(s, steps, s');
  }

  lemma TrashCommits(s: State, dir: nat, name: Name, id: string, path: Path, node: Node)
    requires s.ops.Keys == {0} && OpOk(s, 0) && s.ops[0].plan == Some(Trash(dir, name, id, path, node)) && Live(s.forest, dir)
    requires Current(s, 0) && !s.ops[0].lapsed && !s.ops[0].insists
    ensures Can(s, Commit(0)) && Next(s, Commit(0)).ops == map[]
    ensures Next(s, Commit(0)).graph == GraphAfter(s.graph, Trash(dir, name, id, path, node))
    ensures Next(s, Commit(0)).forest == Relocated(s.forest, At(s.forest, dir, name), Loc(Some(id), []))
  {
    TrashSound(s, dir, name, id, path, node);
    CommitNext(s, 0);
    assert s.ops - {0} == map[];
  }

  lemma TrashSound(s: State, dir: nat, name: Name, id: string, path: Path, node: Node)
    requires Current(s, 0) && OpOk(s, 0) && s.ops[0].plan == Some(Trash(dir, name, id, path, node)) && Live(s.forest, dir) && !s.ops[0].lapsed
    ensures Sound(s, 0) && DoCommit(s, 0) == State(GraphAfter(s.graph, Trash(dir, name, id, path, node)),
                                                   Relocated(s.forest, At(s.forest, dir, name), Loc(Some(id), [])), s.next, s.ops - {0})
  {
  }

  /** A trashed directory keeps its entries and is no longer live. */
  lemma TrashedDirectory(g: Graph, f: set<Item>, next: nat, dir: nat, name: Name, id: string, path: Path, node: Node, x: Name)
    requires SpaceOk(g, f, next) && Live(f, dir) && Child(g, dir, name) == Some(node) && node.isDirectory && id !in g.trash && path != [] && node.id != dir
    ensures var f' := Relocated(f, At(f, dir, name), Loc(Some(id), []));
      && Child(GraphAfter(g, Trash(dir, name, id, path, node)), node.id, x) == Child(g, node.id, x)
      && Located(f', node.id) && !Live(f', node.id)
  {
    var from, to := At(f, dir, name), Loc(Some(id), []);
    TrashShifts(g, f, next, dir, name, id, path, node);
    DirectoryPlace(g, f, dir, name, node);
    DirShifts(f, from, to, node, node.id);
    ShiftSelf(from, to);
    TrashedEntry(g, dir, name, id, path, node, node.id, x);
  }

  lemma TrashedEntry(g: Graph, dir: nat, name: Name, id: string, path: Path, node: Node, d: nat, x: Name)
    requires d != dir
    ensures Child(GraphAfter(g, Trash(dir, name, id, path, node)), d, x) == Child(g, d, x)
  {
    var g1 := DropEntry(g, dir, name);
    DropEntryPatches(g, dir, name);
    PutManifestPatches(g1, id, TrashManifest(path, node, false));
    var e := ShardEdge(d, x);
    assert Out(PutManifest(g1, id, TrashManifest(path, node, false)), e) == Out(g1, e) == Out(g, e);
  }

  lemma TrashesDirectory(s: State, dir: nat, name: Name, id: string, path: Path, node: Node, x: Name) returns (s': State)
    requires Inv(s) && s.ops == map[] && CanTrash(s, dir, name, id, path, node) && Live(s.forest, dir) && node.isDirectory
    ensures Leads(s, TrashSteps(s, dir, name, id, path, node), s') && Inv(s') && s'.ops == map[]
    ensures Child(s'.graph, node.id, x) == Child(s.graph, node.id, x) && Located(s'.forest, node.id) && !Live(s'.forest, node.id)
    ensures s'.graph.trash == s.graph.trash[id := TrashManifest(path, node, false)]
  {
    NotItsOwnEntry(s.graph, s.forest, dir, name, node);
    TrashedDirectory(s.graph, s.forest, s.next, dir, name, id, path, node, x);
    TrashedGraph(s.graph, dir, name, id, path, node);
    s' := Trashes(s, dir, name, id, path, node);
  }

  lemma NotItsOwnEntry(g: Graph, f: set<Item>, dir: nat, name: Name, node: Node)
    requires ForestOk(f) && Represents(g, f) && Located(f, dir) && Child(g, dir, name) == Some(node)
    ensures node.id != dir
  {
    EntryAt(g, f, dir, name);
    WhereIs(f, dir);
  }

  /** A directory and an entry of it are trashed at the same time: the directory first, then the
      entry, whose operation had found the directory before. What was in the entry is taken from
      the counts twice. */
  lemma NestedTrash(s: State, dir: nat, name: Name, id: string, path: Path, node: Node, x: Name, id': string, inner: Node) returns (s': State, steps: seq<Step>)
    requires Inv(s) && s.ops == map[] && CanTrash(s, dir, name, id, path, node) && Live(s.forest, dir) && node.isDirectory
    requires Child(s.graph, node.id, x) == Some(inner) && id' !in s.graph.trash && id' != id
    ensures Leads(s, steps, s') && 0 in s'.ops && s'.ops[0].plan == Some(Trash(node.id, x, id', path + [x], inner))
    ensures !s'.ops[0].lapsed && CommitBreaks(s', 0)
  {
    var s1 := TrashesDirectory(s, dir, name, id, path, node, x);
    s' := TrashBuilt(s1, node.id, x, id', path + [x], inner);
    var a, b := TrashSteps(s, dir, name, id, path, node), TrashSteps(s1, node.id, x, id', path + [x], inner)[..2];
    LeadsOn(s, a, s1, b, s');
    steps := a + b;
    LeadsInv(s1, b, s');
    UnsafeCommit(s', 0);
  }

  function RestoreFences(g: Graph, id: string, dir: nat, name: Name): set<Fence> {
    {ShardFence(dir, g.shardOf(name)), TrashFence(id)}
  }

  /** A restore up to its commit: it reads the manifest, takes its leases and builds. */
  ghost function RestoreSteps(s: State, o: OpId, id: string, dir: nat, name: Name, node: Node): seq<Step> {
    [Begin(o, RestoreFences(s.graph, id, dir, name)), Build(o, Restore(id, dir, name, node), Count(Walked(s.forest, node)), false)]
  }

  lemma LooksAt(s: State, o: OpId, id: string)
    requires o !in s.ops && id in s.graph.trash
    ensures Leads(s, [Look(o, id)], Next(s, Look(o, id)))
  {
    assert Leads(s, [], s);
    OneStepOn(s, [], s, Look(o, id));
    assert [] + [Look(o, id)] == [Look(o, id)];
  }

  /** The build of a restore asks only for a free name. */
  lemma RestoreBuilt(s: State, o: OpId, id: string, dir: nat, name: Name, node: Node) returns (s': State)
    requires o in s.ops && Idle(s, o) && s.ops[o].manifest == Some((id, node)) && Child(s.graph, dir, name).None?
    requires FencesFree(s, o, RestoreFences(s.graph, id, dir, name))
    ensures Leads(s, RestoreSteps(s, o, id, dir, name, node), s')
    ensures s'.graph == s.graph && s'.forest == s.forest && o in s'.ops && s'.ops == s.ops[o := s'.ops[o]]
    ensures s'.ops[o].plan == Some(Restore(id, dir, name, node)) && Current(s', o) && !s'.ops[o].lapsed && !s'.ops[o].insists
  {
    var l1, l2 := RestoreSteps(s, o, id, dir, name, node)[0], RestoreSteps(s, o, id, dir, name, node)[1];
    s' := Next(Next(s, l1), l2);
    TwoStepsOn(s, l1, l2);
  }

  /** An entry is trashed; its directory stays. */
  lemma InnerTrash(s: State, dir: nat, name: Name, id: string, path: Path, node: Node, x: Name, id': string, inner: Node) returns (s': State)
    requires Inv(s) && s.ops == map[] && CanTrash(s, dir, name, id, path, node) && Live(s.forest, dir) && node.isDirectory
    requires Child(s.graph, node.id, x) == Some(inner) && id' !in s.graph.trash && id' != id
    ensures Located(s.forest, node.id) && Leads(s, TrashSteps(s, node.id, x, id', path + [x], inner), s') && Inv(s') && s'.ops == map[]
    ensures CanTrash(s', dir, name, id, path, node) && Live(s'.forest, dir) && node.id != dir
    ensures Child(s'.graph, node.id, x).None? && id' in s'.graph.trash && s'.graph.trash[id'].node == inner
  {
    DirectoryPlace(s.graph, s.forest, dir, name, node);
    s' := Trashes(s, node.id, x, id', path + [x], inner);
    InnerGraph(s.graph, dir, name, node, x, id', path + [x], inner);
    InnerForest(s.graph, s.forest, s.next, dir, name, node, x, id', path + [x], inner);
  }

  /** Then the directory itself. */
  lemma BothTrashed(s: State, dir: nat, name: Name, id: string, path: Path, node: Node, x: Name, id': string, inner: Node) returns (s': State, steps: seq<Step>)
    requires Inv(s) && s.ops == map[] && CanTrash(s, dir, name, id, path, node) && Live(s.forest, dir) && node.isDirectory
    requires Child(s.graph, node.id, x) == Some(inner) && id' !in s.graph.trash && id' != id
    ensures Leads(s, steps, s') && Inv(s') && s'.ops == map[]
    ensures !Live(s'.forest, node.id) && Child(s'.graph, node.id, x).None? && Out(s'.graph, TrashEdge(id')) == Some(inner)
  {
    var s1 := InnerTrash(s, dir, name, id, path, node, x, id', inner);
    s' := TrashesDirectory(s1, dir, name, id, path, node, x);
    StillInTrash(s1.graph.trash, s'.graph, id, TrashManifest(path, node, false), id', inner);
    var a, b := TrashSteps(s, node.id, x, id', path + [x], inner), TrashSteps(s1, dir, name, id, path, node);
    LeadsOn(s, a, s1, b, s');
    steps := a + b;
  }

  lemma StillInTrash(before: map<string, TrashManifest>, g: Graph, id: string, m: TrashManifest, id': string, inner: Node)
    requires g.trash == before[id := m] && id' != id && id' in before && before[id'].node == inner
    ensures Out(g, TrashEdge(id')) == Some(inner)
  {
  }

  lemma DirectoryPlace(g: Graph, f: set<Item>, dir: nat, name: Name, node: Node)
    requires ForestOk(f) && Represents(g, f) && Live(f, dir) && Child(g, dir, name) == Some(node) && node.isDirectory
    ensures Located(f, node.id) && Where(f, node.id) == At(f, dir, name) && Live(f, node.id) && node.id != dir
  {
    EntryAt(g, f, dir, name);
    WhereOnly(f, At(f, dir, name), node.id);
    NotItsOwnEntry(g, f, dir, name, node);
  }

  lemma UnsafeRestore(s: State, o: OpId)
    requires Inv(s) && Enabled(s, Commit(o)) && !s.ops[o].lapsed && s.ops[o].plan.value.Restore?
    requires ManifestThere(s.graph, s.ops[o].plan.value) && !Live(s.forest, s.ops[o].plan.value.dir)
    ensures CommitBreaks(s, o)
  {
    var c := s.ops[o].plan.value;
    WrittenNow(s, o);
    assert OpOk(s, o);
    RestoredIntoTrash(s.graph, s.forest, s.next, c.id, c.dir, c.name, c.node);
  }

  /** Restoring the entry then counts it in although it goes where nobody finds it. */
  lemma RestoreIntoTrashed(s: State, dir: nat, name: Name, id: string, path: Path, node: Node, x: Name, id': string, inner: Node) returns (s': State, steps: seq<Step>)
    requires Inv(s) && s.ops == map[] && CanTrash(s, dir, name, id, path, node) && Live(s.forest, dir) && node.isDirectory
    requires Child(s.graph, node.id, x) == Some(inner) && id' !in s.graph.trash && id' != id
    ensures Leads(s, steps, s') && 0 in s'.ops && s'.ops[0].plan == Some(Restore(id', node.id, x, inner))
    ensures !s'.ops[0].lapsed && CommitBreaks(s', 0)
  {
    var s2, before := BothTrashed(s, dir, name, id, path, node, x, id', inner);
    LooksAt(s2, 0, id');
    var s3 := Next(s2, Look(0, id'));
    s' := RestoreBuilt(s3, 0, id', node.id, x, inner);
    var last := RestoreSteps(s3, 0, id', node.id, x, inner);
    LeadsOn(s2, [Look(0, id')], s3, last, s');
    LeadsOn(s, before, s2, [Look(0, id')] + last, s');
    steps := before + ([Look(0, id')] + last);
    LeadsInv(s2, [Look(0, id')] + last, s');
    UnsafeRestore(s', 0);
  }

  /** Trashing an entry of a directory leaves the directory where it is. */
  lemma InnerGraph(g: Graph, dir: nat, name: Name, node: Node, x: Name, id: string, path: Path, inner: Node)
    requires node.id != dir && Child(g, dir, name) == Some(node)
    ensures var g' := GraphAfter(g, Trash(node.id, x, id, path, inner));
      && Child(g', dir, name) == Some(node) && Child(g', node.id, x).None? && g'.trash == g.trash[id := TrashManifest(path, inner, false)]
  {
    TrashedEntry(g, node.id, x, id, path, inner, dir, name);
    TrashedGraph(g, node.id, x, id, path, inner);
  }

  lemma InnerForest(g: Graph, f: set<Item>, next: nat, dir: nat, name: Name, node: Node, x: Name, id: string, path: Path, inner: Node)
    requires SpaceOk(g, f, next) && Live(f, dir) && Live(f, node.id) && Where(f, node.id) == At(f, dir, name)
    requires Child(g, node.id, x) == Some(inner) && id !in g.trash && path != []
    ensures Live(Relocated(f, At(f, node.id, x), Loc(Some(id), [])), dir)
  {
    TrashShifts(g, f, next, node.id, x, id, path, inner);
    Deeper(Where(f, dir), name, x);
    StillLive(f, At(f, node.id, x), Loc(Some(id), []), inner, dir);
  }

  lemma Deeper(l: Loc, a: Name, b: Name)
    ensures |l.path| < |Down(Down(l, a), b).path|
  {
  }

  lemma TrashShifts(g: Graph, f: set<Item>, next: nat, dir: nat, name: Name, id: string, path: Path, node: Node)
    requires SpaceOk(g, f, next) && Located(f, dir) && Child(g, dir, name) == Some(node) && id !in g.trash && path != []
    ensures ForestOk(f) && CanRelink(f, At(f, dir, name), Loc(Some(id), []), node) && ForestOk(Relocated(f, At(f, dir, name), Loc(Some(id), [])))
  {
    TrashMoves(g, f, next, dir, name, id, path, node);
  }

  lemma StillLive(f: set<Item>, from: Loc, to: Loc, n: Node, dir: nat)
    requires ForestOk(f) && CanRelink(f, from, to, n) && ForestOk(Relocated(f, from, to)) && Live(f, dir) && |Where(f, dir).path| < |from.path|
    ensures Live(Relocated(f, from, to), dir)
  {
    DirShifts(f, from, to, n, dir);
  }

  lemma TrashedGraph(g: Graph, dir: nat, name: Name, id: string, path: Path, node: Node)
    ensures var g' := GraphAfter(g, Trash(dir, name, id, path, node));
      Child(g', dir, name).None? && g'.trash == g.trash[id := TrashManifest(path, node, false)]
  {
    DropEntryPatches(g, dir, name);
    PutManifestPatches(DropEntry(g, dir, name), id, TrashManifest(path, node, false));
    var e := ShardEdge(dir, name);
    assert Out(PutManifest(DropEntry(g, dir, name), id, TrashManifest(path, node, false)), e) == Out(DropEntry(g, dir, name), e) == None;
  }

  // ---- One manifest restored twice ----

  ghost predicate CanRestore(s: State, id: string, dir: nat, name: Name, node: Node) {
    Live(s.forest, dir) && Child(s.graph, dir, name).None? && id in s.graph.trash && s.graph.trash[id].node == node
  }

  /** Two operations read the manifest, and the first one builds its restore. */
  lemma BothLook(s: State, id: string, dir: nat, name: Name, node: Node) returns (s': State)
    requires s.ops == map[] && CanRestore(s, id, dir, name, node)
    ensures Leads(s, [Look(1, id), Look(2, id)] + RestoreSteps(s, 1, id, dir, name, node), s')
    ensures s'.graph == s.graph && s'.forest == s.forest && s'.ops.Keys == {1, 2}
    ensures s'.ops[1].plan == Some(Restore(id, dir, name, node)) && Current(s', 1) && !s'.ops[1].lapsed && !s'.ops[1].insists
    ensures Idle(s', 2) && s'.ops[2].manifest == Some((id, node)) && s'.ops[2].plan.None? && s'.ops[2].fences == {}
  {
    TwoStepsOn(s, Look(1, id), Look(2, id));
    var s1 := Next(Next(s, Look(1, id)), Look(2, id));
    s' := RestoreBuilt(s1, 1, id, dir, name, node);
    LeadsOn(s, [Look(1, id), Look(2, id)], s1, RestoreSteps(s1, 1, id, dir, name, node), s');
  }

  /** The first restore is built, and the second has read the same manifest. */
  ghost predicate TwoRestores(s: State, id: string, dir: nat, name: Name, node: Node) {
    && s.ops.Keys == {1, 2} && s.ops[1].plan == Some(Restore(id, dir, name, node)) && Current(s, 1) && !s.ops[1].lapsed && !s.ops[1].insists
    && SecondLooked(s, id, node)
  }

  ghost predicate SecondLooked(s: State, id: string, node: Node) {
    2 in s.ops && Idle(s, 2) && s.ops[2].manifest == Some((id, node)) && s.ops[2].plan.None?
  }

  /** The node has come back under this name, and another name is free. */
  ghost predicate Restored(s: State, id: string, dir: nat, name: Name, to: Name, node: Node) {
    Child(s.graph, dir, name) == Some(node) && Child(s.graph, dir, to).None? && id !in s.graph.trash && Live(s.forest, dir)
  }

  lemma BothReach(s: State, id: string, dir: nat, name: Name, node: Node) returns (s': State, steps: seq<Step>)
    requires Inv(s) && s.ops == map[] && CanRestore(s, id, dir, name, node)
    ensures Leads(s, steps, s') && Inv(s') && s'.graph == s.graph && s'.forest == s.forest && TwoRestores(s', id, dir, name, node)
  {
    s' := BothLook(s, id, dir, name, node);
    steps := [Look(1, id), Look(2, id)] + RestoreSteps(s, 1, id, dir, name, node);
    LeadsInv(s, steps, s');
  }

  lemma RestoreSound(s: State, o: OpId, id: string, dir: nat, name: Name, node: Node)
    requires Current(s, o) && OpOk(s, o) && !s.ops[o].lapsed && s.ops[o].plan == Some(Restore(id, dir, name, node))
    requires CanRestore(s, id, dir, name, node)
    ensures Sound(s, o) && DoCommit(s, o).graph == GraphAfter(s.graph, Restore(id, dir, name, node))
    ensures DoCommit(s, o).forest == Relocated(s.forest, Loc(Some(id), []), At(s.forest, dir, name))
  {
  }

  /** The restored entry is where it was asked for, its manifest is gone, and its directory live. */
  lemma RestoredEntry(g: Graph, f: set<Item>, next: nat, id: string, dir: nat, name: Name, to: Name, node: Node)
    requires SpaceOk(g, f, next) && Live(f, dir) && Child(g, dir, name).None? && Child(g, dir, to).None? && name != to
    requires Out(g, TrashEdge(id)) == Some(node)
    ensures var g', f' := GraphAfter(g, Restore(id, dir, name, node)), Relocated(f, Loc(Some(id), []), At(f, dir, name));
            Child(g', dir, name) == Some(node) && Child(g', dir, to).None? && id !in g'.trash && Live(f', dir)
  {
    var g1, l := DropManifest(g, id), Loc(Some(id), []);
    DropManifestPatches(g, id);
    ChildAfter(g1, dir, name, node, dir, name);
    ChildAfter(g1, dir, name, node, dir, to);
    assert Out(g1, ShardEdge(dir, to)) == Out(g, ShardEdge(dir, to));
    RestoreMoves(g, f, next, id, dir, name, node);
    DirShifts(f, l, At(f, dir, name), node, dir);
  }

  lemma OneLeft(s: State, s': State, id: string, dir: nat, name: Name, node: Node)
    requires TwoRestores(s, id, dir, name, node) && s'.ops == s.ops - {1}
    ensures s'.ops.Keys == {2} && SecondLooked(s', id, node)
  {
    assert s'.ops[2] == s.ops[2];
  }

  lemma FirstRestored(s: State, id: string, dir: nat, name: Name, to: Name, node: Node)
    requires Inv(s) && CanRestore(s, id, dir, name, node) && Child(s.graph, dir, to).None? && name != to && TwoRestores(s, id, dir, name, node)
    ensures Can(s, Commit(1)) && Inv(Next(s, Commit(1))) && Next(s, Commit(1)).ops.Keys == {2}
    ensures SecondLooked(Next(s, Commit(1)), id, node) && Restored(Next(s, Commit(1)), id, dir, name, to, node)
  {
    assert OpOk(s, 1);
    RestoreSound(s, 1, id, dir, name, node);
    CommitNext(s, 1);
    CommitInv(s, 1);
    RestoredEntry(s.graph, s.forest, s.next, id, dir, name, to, node);
    OneLeft(s, Next(s, Commit(1)), id, dir, name, node);
  }

  /** A rename inside a directory moves its entry and nothing else. */
  lemma RenamedEntry(s: State, dir: nat, name: Name, to: Name, node: Node)
    requires Inv(s) && Live(s.forest, dir) && Child(s.graph, dir, name) == Some(node) && Child(s.graph, dir, to).None? && name != to
    ensures CanRename(s, dir, name, to) && Live(DoRename(s, dir, name, to).forest, dir)
    ensures var g' := DoRename(s, dir, name, to).graph;
            Child(g', dir, name).None? && Child(g', dir, to) == Some(node) && g'.trash == s.graph.trash
  {
    var s' := DoRename(s, dir, name, to);
    RenameOk(s, dir, name, to);
    var l := Link(dir, name, dir, to, node);
    LinkChild(s.graph, l, ShardEdge(dir, name));
    LinkChild(s.graph, l, ShardEdge(dir, to));
    assert Child(s'.graph, dir, name) == Out(s'.graph, ShardEdge(dir, name)) && Child(s'.graph, dir, to) == Out(s'.graph, ShardEdge(dir, to));
    assert DirKept(s.forest, s'.forest, RenameFences(s.graph, dir, name, to), dir);
  }

  lemma RenamedOn(s: State, id: string, dir: nat, name: Name, to: Name, node: Node)
    requires Inv(s) && Restored(s, id, dir, name, to, node) && name != to && s.ops.Keys == {2} && SecondLooked(s, id, node)
    ensures Can(s, Rename(dir, name, to)) && Inv(Next(s, Rename(dir, name, to))) && Next(s, Rename(dir, name, to)).ops == s.ops
    ensures Restored(Next(s, Rename(dir, name, to)), id, dir, to, name, node)
  {
    RenamedEntry(s, dir, name, to, node);
    RenameInv(s, dir, name, to);
  }

  lemma OnceRestored(s: State, id: string, dir: nat, name: Name, to: Name, node: Node) returns (s': State, steps: seq<Step>)
    requires Inv(s) && s.ops == map[] && CanRestore(s, id, dir, name, node) && Child(s.graph, dir, to).None? && name != to
    ensures Leads(s, steps, s') && Inv(s') && s'.ops.Keys == {2} && SecondLooked(s', id, node) && Restored(s', id, dir, name, to, node)
  {
    var s1, before := BothReach(s, id, dir, name, node);
    FirstRestored(s1, id, dir, name, to, node);
    s' := Next(s1, Commit(1));
    OneStepOn(s, before, s1, Commit(1));
    steps := before + [Commit(1)];
  }

  lemma ThenRenamed(s: State, id: string, dir: nat, name: Name, to: Name, node: Node) returns (s': State, steps: seq<Step>)
    requires Inv(s) && s.ops == map[] && CanRestore(s, id, dir, name, node) && Child(s.graph, dir, to).None? && name != to
    ensures Leads(s, steps, s') && Inv(s') && s'.ops.Keys == {2} && SecondLooked(s', id, node) && Restored(s', id, dir, to, name, node)
  {
    var s1, before := OnceRestored(s, id, dir, name, to, node);
    RenamedOn(s1, id, dir, name, to, node);
    s' := Next(s1, Rename(dir, name, to));
    OneStepOn(s, before, s1, Rename(dir, name, to));
    steps := before + [Rename(dir, name, to)];
  }

  lemma SecondBuilt(s: State, id: string, dir: nat, name: Name, node: Node) returns (s': State, steps: seq<Step>)
    requires Inv(s) && s.ops.Keys == {2} && SecondLooked(s, id, node) && Child(s.graph, dir, name).None?
    ensures Leads(s, steps, s') && Inv(s') && s'.graph == s.graph && s'.forest == s.forest
    ensures 2 in s'.ops && s'.ops[2].plan == Some(Restore(id, dir, name, node)) && !s'.ops[2].lapsed && Enabled(s', Commit(2))
  {
    s' := RestoreBuilt(s, 2, id, dir, name, node);
    steps := RestoreSteps(s, 2, id, dir, name, node);
    LeadsInv(s, steps, s');
  }

  /** Two restores have read one manifest. The first one commits, the node is renamed, and the
      second finds its name free: its commit puts the node into the tree a second time. */
  lemma RestoredTwice(s: State, id: string, dir: nat, name: Name, to: Name, node: Node) returns (s': State, steps: seq<Step>)
    requires Inv(s) && s.ops == map[] && CanRestore(s, id, dir, name, node) && Child(s.graph, dir, to).None? && name != to
    ensures Leads(s, steps, s') && 2 in s'.ops && s'.ops[2].plan == Some(Restore(id, dir, name, node)) && !s'.ops[2].lapsed
    ensures Enabled(s', Commit(2)) && forall f' :: Represents(Next(s', Commit(2)).graph, f') ==> !ForestOk(f')
  {
    var s1, first := ThenRenamed(s, id, dir, name, to, node);
    var s2, last := SecondBuilt(s1, id, dir, name, node);
    LeadsOn(s, first, s1, last, s2);
    s', steps := s2, first + last;
    SecondPlace(s', id, dir, name, to, node);
  }

  lemma SecondPlace(s: State, id: string, dir: nat, name: Name, to: Name, node: Node)
    requires Inv(s) && Enabled(s, Commit(2)) && !s.ops[2].lapsed && s.ops[2].plan == Some(Restore(id, dir, name, node))
    requires id !in s.graph.trash && Live(s.forest, dir) && Child(s.graph, dir, name).None? && Child(s.graph, dir, to) == Some(node)
    ensures forall f' :: Represents(Next(s, Commit(2)).graph, f') ==> !ForestOk(f')
  {
    WrittenNow(s, 2);
    NoManifest(s.graph, id);
    EntryAt(s.graph, s.forest, dir, to);
    forall f' | Represents(Next(s, Commit(2)).graph, f') ensures !ForestOk(f') {
      SetTwice(s.graph, s.forest, f', dir, name, node, Item(At(s.forest, dir, to), node));
    }
  }

  // ---- Shards written back as they no longer are ----

  /** Dropping a live entry takes from the counts what nobody hands over. */
  lemma EntryDropped(g: Graph, f: set<Item>, d: nat, y: Name, n: Node)
    requires Placed(g) && Rooted(g) && ForestOk(f) && Represents(g, f) && Live(f, d) && Child(g, d, y) == Some(n)
    ensures Breaks(DropEntry(g, d, y), f, NoStats)
  {
    var l := At(f, d, y);
    EntryAt(g, f, d, y);
    DropEntryPatches(g, d, y);
    CutSubtree(g, DropEntry(g, d, y), f, ShardEdge(d, y), l);
    NodeLost(f, f - ItemsBelow(f, l), l, n);
    BreaksBy(DropEntry(g, d, y), f, f - ItemsBelow(f, l), NoStats);
  }

  /** A file is replaced by the same content, and its shard written back without an entry that it
      has got since. */
  lemma StaleWrite(s: State, o: OpId, d: nat, x: Name, y: Name, was: Node, n: Node)
    requires SpaceOk(s.graph, s.forest, s.next) && o in s.ops && s.ops[o].plan == Some(Replace(d, x, was, was))
    requires !s.ops[o].insists && s.ops[o].derived == NoStats && Live(s.forest, d) && x != y
    requires Child(s.graph, d, x) == Some(was) && Child(s.graph, d, y) == Some(n) && s.graph.shardOf(x) == s.graph.shardOf(y)
    requires s.ops[o].base.shardOf == s.graph.shardOf
    requires ShardMap(s.ops[o].base, d, s.graph.shardOf(x)) == ShardMap(s.graph, d, s.graph.shardOf(x)) - {y}
    ensures CommitBreaks(s, o)
  {
    WrittenWithout(s.graph, s.ops[o].base, d, x, y, was);
    EntryDropped(s.graph, s.forest, d, y, n);
  }

  lemma WrittenWithout(g: Graph, base: Graph, d: nat, x: Name, y: Name, was: Node)
    requires Placed(g) && Child(g, d, x) == Some(was) && x != y && g.shardOf(x) == g.shardOf(y) && base.shardOf == g.shardOf
    requires Child(g, d, y).Some? && ShardMap(base, d, g.shardOf(x)) == ShardMap(g, d, g.shardOf(x)) - {y}
    ensures Written(g, base, Replace(d, x, was, was)) == DropEntry(g, d, y)
  {
    var k := g.shardOf(x);
    assert WellPlaced(g, d, k, x);
    assert ShardMap(base, d, k)[x := ShardEntry(x, was)] == ShardMap(base, d, k);
    assert ShardMap(SetEntry(base, d, x, was), d, k) == ShardMap(g, d, k) - {y};
    assert Written(g, base, Replace(d, x, was, was)).shards == DropEntry(g, d, y).shards;
  }

  function ReplaceSteps(g: Graph, d: nat, x: Name, was: Node): seq<Step> {
    [Begin(0, {ShardFence(d, g.shardOf(x))}), Build(0, Replace(d, x, was, was), NoStats, false)]
  }

  /** A file is about to be replaced by the same content. */
  lemma ReplaceBuilt(s: State, d: nat, x: Name, was: Node) returns (s': State)
    requires s.ops == map[] && Live(s.forest, d) && Child(s.graph, d, x) == Some(was) && !was.isDirectory
    ensures Leads(s, ReplaceSteps(s.graph, d, x, was), s')
    ensures s' == s.(next := s.next + 1, ops := map[0 := Op({ShardFence(d, s.graph.shardOf(x))}, false, s.next, NoStats,
                                                            Some(Replace(d, x, was, was)), s.graph, false, None)])
  {
    var l1, l2 := ReplaceSteps(s.graph, d, x, was)[0], ReplaceSteps(s.graph, d, x, was)[1];
    s' := Next(Next(s, l1), l2);
    TwoStepsOn(s, l1, l2);
  }

  /** A lease-free rename to a name on a shard that somebody has built on: the rename commits, the
      leased write takes the renamed entry out again, and with it all that is below. */
  lemma RenamedAway(s: State, d: nat, x: Name, was: Node, a: Name, y: Name, n: Node) returns (s1: State, s2: State)
    requires Inv(s) && s.ops == map[] && Live(s.forest, d) && Child(s.graph, d, x) == Some(was) && !was.isDirectory
    requires Child(s.graph, d, a) == Some(n) && Child(s.graph, d, y).None? && s.graph.shardOf(x) == s.graph.shardOf(y) != s.graph.shardOf(a)
    ensures Leads(s, ReplaceSteps(s.graph, d, x, was), s1) && Enabled(s1, Rename(d, a, y)) && !SafeStep(s1, Rename(d, a, y))
    ensures s2 == Next(s1, Rename(d, a, y)) && SafeStep(s2, Commit(0)) && CommitBreaks(s2, 0)
  {
    s1 := ReplaceBuilt(s, d, x, was);
    LeadsInv(s, ReplaceSteps(s.graph, d, x, was), s1);
    s2 := Next(s1, Rename(d, a, y));
    assert !Apart(s1.ops[0].fences, RenameFences(s.graph, d, a, y)) by {
      assert Clash(ShardFence(d, s.graph.shardOf(x)), ShardFence(d, s.graph.shardOf(y)));
    }
    RenameOk(s1, d, a, y);
    assert DirKept(s1.forest, s2.forest, RenameFences(s.graph, d, a, y), d);
    RenamedShard(s.graph, Link(d, a, d, y, n), x, was);
    StaleWrite(s2, 0, d, x, y, was, n);
  }

  lemma RenamedShard(g: Graph, l: Link, x: Name, was: Node)
    requires l.dir == l.toDir && g.shardOf(l.name) != g.shardOf(x) && g.shardOf(l.toName) == g.shardOf(x)
    requires Child(g, l.dir, x) == Some(was) && Child(g, l.dir, l.toName).None?
    ensures ShardMap(g, l.dir, g.shardOf(x)) == ShardMap(LinkGraph(g, l), l.dir, g.shardOf(x)) - {l.toName}
    ensures Child(LinkGraph(g, l), l.dir, x) == Some(was) && Child(LinkGraph(g, l), l.dir, l.toName) == Some(l.node)
  {
    DropEntryShard(g, l.dir, l.name, l.dir, g.shardOf(x));
    SetEntryShard(DropEntry(g, l.dir, l.name), l.dir, l.toName, l.node, l.dir, g.shardOf(x));
  }

  function LateSteps(s: State, d: nat, x: Name, was: Node, y: Name): seq<Step> {
    ReplaceSteps(s.graph, d, x, was) + [Expire(0)]
    + [Begin(1, {ShardFence(d, s.graph.shardOf(y))}), Build(1, Create(d, y, NewFile(s)), NoStats, false)] + [Commit(1)]
  }

  /** The file that the second operation creates. */
  function NewFile(s: State): Node {
    Node(s.next + 1, false, Content("", 0, ""))
  }

  lemma SecondBuilds(s: State, s1: State, d: nat, x: Name, y: Name) returns (s': State)
    requires s1.graph == s.graph && s1.forest == s.forest && s1.next == s.next + 1 && s1.ops.Keys == {0} && s1.ops[0].lapsed
    requires Live(s.forest, d) && Child(s.graph, d, y).None?
    ensures Leads(s1, [Begin(1, {ShardFence(d, s.graph.shardOf(y))}), Build(1, Create(d, y, NewFile(s)), NoStats, false)], s')
    ensures s'.graph == s.graph && s'.forest == s.forest && s'.ops.Keys == {0, 1} && s'.ops[0] == s1.ops[0]
    ensures s'.ops[1].plan == Some(Create(d, y, NewFile(s))) && !s'.ops[1].lapsed && !s'.ops[1].insists
  {
    var l1, l2 := Begin(1, {ShardFence(d, s.graph.shardOf(y))}), Build(1, Create(d, y, NewFile(s)), NoStats, false);
    s' := Next(Next(s1, l1), l2);
    TwoStepsOn(s1, l1, l2);
  }

  /** A write whose leases have run out between their last verification and the decision: another
      operation has taken them and created a file, which the late write takes out again. */
  lemma LateWrite(s: State, d: nat, x: Name, was: Node, y: Name) returns (s': State)
    requires Inv(s) && s.ops == map[] && Live(s.forest, d) && Child(s.graph, d, x) == Some(was) && !was.isDirectory
    requires Child(s.graph, d, y).None? && s.graph.shardOf(x) == s.graph.shardOf(y) && x != y
    ensures Leads(s, LateSteps(s, d, x, was, y), s')
    ensures 0 in s'.ops && s'.ops[0].lapsed && s'.ops[0].plan == Some(Replace(d, x, was, was)) && CommitBreaks(s', 0)
  {
    var s1 := ReplaceBuilt(s, d, x, was);
    OneStepOn(s, ReplaceSteps(s.graph, d, x, was), s1, Expire(0));
    var steps := ReplaceSteps(s.graph, d, x, was) + [Expire(0)];
    var s2 := Next(s1, Expire(0));
    var s3 := SecondBuilds(s, s2, d, x, y);
    var more := [Begin(1, {ShardFence(d, s.graph.shardOf(y))}), Build(1, Create(d, y, NewFile(s)), NoStats, false)];
    LeadsOn(s, steps, s2, more, s3);
    LeadsInv(s, steps + more, s3);
    s' := SecondCreates(s, s3, d, y);
    OneStepOn(s, steps + more, s3, Commit(1));
    CreatedShard(s.graph, d, x, y, was, NewFile(s));
    StaleWrite(s', 0, d, x, y, was, NewFile(s));
  }

  lemma SecondCreates(s: State, s3: State, d: nat, y: Name) returns (s': State)
    requires Inv(s3) && s3.graph == s.graph && s3.forest == s.forest && s3.ops.Keys == {0, 1} && Live(s.forest, d)
    requires s3.ops[1].plan == Some(Create(d, y, NewFile(s))) && !s3.ops[1].lapsed && !s3.ops[1].insists
    ensures Can(s3, Commit(1)) && s' == Next(s3, Commit(1)) && SpaceOk(s'.graph, s'.forest, s'.next) && s'.ops == s3.ops - {1}
    ensures s'.graph == SetEntry(s.graph, d, y, NewFile(s)) && Live(s'.forest, d)
  {
    assert OpOk(s3, 1);
    CommitNext(s3, 1);
    CommitInv(s3, 1);
    s' := Next(s3, Commit(1));
    EntryAt(s3.graph, s3.forest, d, y);
    ElsewhereLive(s3.forest, s'.forest, d, At(s3.forest, d, y), NewFile(s));
  }

  lemma ElsewhereLive(f: set<Item>, f': set<Item>, d: nat, l: Loc, n: Node)
    requires ForestOk(f) && ForestOk(f') && Live(f, d) && f' == f + {Item(l, n)}
    ensures Live(f', d)
  {
    WhereIs(f, d);
    assert DirAt(f', Where(f, d), d);
    WhereOnly(f', Where(f, d), d);
  }

  lemma CreatedShard(g: Graph, d: nat, x: Name, y: Name, was: Node, n: Node)
    requires g.shardOf(x) == g.shardOf(y) && Child(g, d, x) == Some(was) && Child(g, d, y).None?
    ensures ShardMap(g, d, g.shardOf(x)) == ShardMap(SetEntry(g, d, y, n), d, g.shardOf(x)) - {y}
    ensures Child(SetEntry(g, d, y, n), d, x) == Some(was) && Child(SetEntry(g, d, y, n), d, y) == Some(n)
  {
    SetEntryShard(g, d, y, n, d, g.shardOf(x));
  }
}
