/** Runs of concurrent operations on the namespace: every step keeps the invariant, and changes
    the counts of the tree by what it hands to the reducer. */
module NamespaceRuns {
  import opened Wrappers
  import opened Paths
  import opened FlatTree
  import opened NodeTree
  import opened NodeSpace
  import opened NodeNamespace
  import opened NodeAccounts
  import opened NodeMutations
  import opened NodeConservation
  import opened NamespaceModel
  import opened NamespaceFrames

  // ---- Every step keeps the invariant ----

  lemma PlanFencesKeys(s: State, q: OpId)
    requires q in s.ops && s.ops[q].plan.Some? && PlanOk(s, q)
    ensures s.graph.shardOf == s.ops[q].base.shardOf && KeysFenced(s.ops[q].base, s.ops[q].fences, s.ops[q].plan.value)
  {
    var op := s.ops[q];
    if op.insists {
      assert op.plan.value == Move([op.plan.value.links[0]]);
      LinkFencesKeys(op.base, op.fences, op.plan.value.links[0]);
    } else {
      BuildFencesKeys(s.graph, s.forest, op, op.plan.value);
      assert Keys(op.base, op.plan.value) == Keys(s.graph, op.plan.value);
    }
  }

  /** A change under leases that clash with nobody else's keeps everybody else's plans. */
  lemma OthersPlanOk(s: State, s': State, others: set<Fence>, q: OpId)
    requires q in s.ops && q in s'.ops && s'.ops[q] == s.ops[q] && s.ops[q].plan.Some? && PlanOk(s, q)
    requires Frame(s.graph, s.forest, s'.graph, s'.forest, others) && Apart(s.ops[q].fences, others) && Placed(s.graph) && Placed(s'.graph)
    ensures PlanOk(s', q)
  {
    var op := s.ops[q];
    PlanFencesKeys(s, q);
    UnchangedKept(s.graph, s.forest, s'.graph, s'.forest, op.fences, others, op.base, op.plan.value);
    if Current(s, q) {
      PlanKept(s.graph, s.forest, s'.graph, s'.forest, op, others, op.plan.value);
    }
    if op.insists {
      ApartWhole(op.fences, others, op.plan.value.links[0].dir, s.graph.shardOf(op.plan.value.links[0].name));
      ApartWhole(op.fences, others, op.plan.value.links[0].toDir, s.graph.shardOf(op.plan.value.links[0].toName));
      InsistsKept(s.graph, s.forest, s'.graph, s'.forest, op, others);
    }
  }

  lemma OthersOk(s: State, s': State, others: set<Fence>, q: OpId)
    requires q in s.ops && q in s'.ops && s'.ops[q] == s.ops[q] && OpOk(s, q) && Placed(s.graph) && Placed(s'.graph)
    requires Frame(s.graph, s.forest, s'.graph, s'.forest, others)
    requires s.ops[q].plan.Some? && !s.ops[q].lapsed ==> Apart(s.ops[q].fences, others)
    ensures OpOk(s', q)
  {
    if s.ops[q].plan.Some? && !s.ops[q].lapsed {
      OthersPlanOk(s, s', others, q);
    }
  }

  /** Whoever insists notices any change of what it has read. */
  lemma InsistingOk(s: State, s': State, others: set<Fence>, q: OpId)
    requires q in s.ops && q in s'.ops && s'.ops[q] == s.ops[q] && s.ops[q].plan.Some? && s.ops[q].insists && PlanOk(s, q)
    requires Frame(s.graph, s.forest, s'.graph, s'.forest, others) && forall d :: AllShards(d) !in others
    ensures PlanOk(s', q)
  {
    InsistsKept(s.graph, s.forest, s'.graph, s'.forest, s.ops[q], others);
    if Current(s', q) {
      InsistingBuildable(s'.graph, s'.forest, s.ops[q]);
    }
  }

  lemma FencesOf(s: State, p: OpId, q: OpId)
    requires FencesApart(s) && p in s.ops && q in s.ops && p != q && !s.ops[p].lapsed && !s.ops[q].lapsed
    ensures Apart(s.ops[p].fences, s.ops[q].fences)
  {
  }

  lemma {:induction false} RelocatedFrom(f: set<Item>, links: seq<Link>, x: Item) returns (i: Item)
    requires SafeLinks(f, links) && x in RelocateAll(f, links)
    ensures i in f && i.node == x.node
    decreases |links|
  {
    i := x;
    if links != [] {
      var y := RelocatedFrom(LinkForest(f, links[0]), links[1..], x);
      i :| i in f && y == Item(Shift(i.loc, From(f, links[0]), To(f, links[0])), i.node);
    }
  }

  /** A new node has the id set aside for it, a restored one an old id, and no other id comes from anywhere. */
  lemma ChangeIds(g: Graph, f: set<Item>, next: nat, op: Op, c: Change, x: Item)
    requires SpaceOk(g, f, next) && Buildable(g, f, op, c) && Safe(g, f, c, op.derived) && x in ForestAfter(g, f, c)
    ensures (c.Create? && x.node.id == op.spare) || (c.Restore? && x.node.id == c.node.id) || exists i :: i in f && i.node.id == x.node.id
  {
    match c
    case Create(dir, name, node) =>
    case Replace(dir, name, was, now) => EntryAt(g, f, dir, name);
    case Delete(dir, name, node) =>
    case Move(links) => var i := RelocatedFrom(f, links, x);
    case Trash(dir, name, id, path, node) =>
      var i :| i in f && x == Item(Shift(i.loc, At(f, dir, name), Loc(Some(id), [])), i.node);
    case Restore(id, dir, name, node) =>
      if ManifestThere(g, c) {
        var i :| i in f && x == Item(Shift(i.loc, Loc(Some(id), []), At(f, dir, name)), i.node);
      }
  }

  lemma CommitSpares(s: State, o: OpId)
    requires Inv(s) && Sound(s, o)
    ensures SparesOk(DoCommit(s, o))
  {
    var s', op := DoCommit(s, o), s.ops[o];
    forall q, x | q in s'.ops && x in s'.forest ensures x.node.id != s'.ops[q].spare {
      ChangeIds(s.graph, s.forest, s.next, op, op.plan.value, x);
      assert q in s.ops && q != o;
    }
  }

  lemma CommitInv(s: State, o: OpId)
    requires Inv(s) && Sound(s, o) && !s.ops[o].lapsed
    ensures Inv(DoCommit(s, o)) && Conserves(s.forest, DoCommit(s, o).forest, s.ops[o].derived)
  {
    var s' := DoCommit(s, o);
    CommitConserves(s, o);
    CommitFrame(s, o);
    CommitSpares(s, o);
    forall q | q in s'.ops ensures OpOk(s', q) {
      if !s.ops[q].lapsed {
        FencesOf(s, q, o);
      }
      OthersOk(s, s', s.ops[o].fences, q);
    }
  }

  /** A sound commit writes the change. */
  lemma CommitNext(s: State, o: OpId)
    requires Sound(s, o) && Enabled(s, Commit(o))
    ensures Next(s, Commit(o)) == DoCommit(s, o)
  {
    WrittenIsAfter(s.graph, s.ops[o].base, s.ops[o].plan.value);
  }

  lemma RenameIds(s: State, dir: nat, name: Name, to: Name)
    requires Inv(s) && CanRename(s, dir, name, to)
    ensures SparesOk(DoRename(s, dir, name, to))
  {
    var s' := DoRename(s, dir, name, to);
    forall q, x | q in s'.ops && x in s'.forest ensures x.node.id != s'.ops[q].spare {
      var i :| i in s.forest && x == Item(Shift(i.loc, At(s.forest, dir, name), At(s.forest, dir, to)), i.node);
    }
  }

  lemma RenameOps(s: State, s': State, dir: nat, name: Name, to: Name, q: OpId)
    requires q in s.ops && s'.ops == s.ops && OpOk(s, q) && Harmless(s, dir, name, to) && Placed(s.graph) && Placed(s'.graph)
    requires Frame(s.graph, s.forest, s'.graph, s'.forest, RenameFences(s.graph, dir, name, to))
    ensures OpOk(s', q)
  {
    if s.ops[q].plan.Some? && !s.ops[q].lapsed && s.ops[q].insists {
      InsistingOk(s, s', RenameFences(s.graph, dir, name, to), q);
    } else {
      OthersOk(s, s', RenameFences(s.graph, dir, name, to), q);
    }
  }

  lemma RenameInv(s: State, dir: nat, name: Name, to: Name)
    requires Inv(s) && CanRename(s, dir, name, to) && Harmless(s, dir, name, to)
    ensures Inv(DoRename(s, dir, name, to))
  {
    var s' := DoRename(s, dir, name, to);
    RenameOk(s, dir, name, to);
    RenameIds(s, dir, name, to);
    forall q | q in s'.ops ensures OpOk(s', q) {
      RenameOps(s, s', dir, name, to, q);
    }
  }

  lemma ClashBoth(a: Fence, b: Fence)
    ensures Clash(a, b) <==> Clash(b, a)
  {
  }

  /** Nothing but the operations changes. */
  lemma SameOk(s: State, s': State, q: OpId)
    requires q in s.ops && q in s'.ops && s'.ops[q] == s.ops[q] && s'.graph == s.graph && s'.forest == s.forest && OpOk(s, q)
    ensures OpOk(s', q)
  {
  }

  lemma ApartBoth(a: set<Fence>, b: set<Fence>)
    requires Apart(a, b)
    ensures Apart(b, a)
  {
    forall x, y | x in b && y in a ensures !Clash(x, y) {
      ClashBoth(x, y);
    }
  }

  lemma BeginFences(s: State, o: OpId, fences: set<Fence>)
    requires FencesApart(s) && Idle(s, o) && FencesFree(s, o, fences)
    ensures FencesApart(Next(s, Begin(o, fences)))
  {
    var s' := Next(s, Begin(o, fences));
    forall p, q | p in s'.ops && q in s'.ops && p != q && !s'.ops[p].lapsed && !s'.ops[q].lapsed ensures Apart(s'.ops[p].fences, s'.ops[q].fences) {
      if p == o {
        assert Apart(fences, s.ops[q].fences);
      } else if q == o {
        assert Apart(fences, s.ops[p].fences);
        ApartBoth(fences, s.ops[p].fences);
      }
    }
  }

  /** An operation that starts afresh gets an id of its own. */
  lemma AfreshInv(s: State, s': State, o: OpId)
    requires Inv(s) && o in s'.ops && s' == s.(ops := s.ops[o := s'.ops[o]], next := s.next + 1) && FencesApart(s')
    requires s'.ops[o].spare == s.next && s'.ops[o].plan.None? && s'.ops[o].derived == NoStats
    requires s'.ops[o].manifest.Some? ==> RootNode.id < s'.ops[o].manifest.value.1.id < s.next
    requires s'.ops[o].manifest.Some? ==> forall q | q in s.ops && q != o :: s.ops[q].spare != s'.ops[o].manifest.value.1.id
    ensures Inv(s')
  {
    forall q | q in s'.ops ensures OpOk(s', q) {
      if q != o {
        SameOk(s, s', q);
      }
    }
    AfreshIds(s, s', o);
  }

  lemma AfreshIds(s: State, s': State, o: OpId)
    requires SpaceOk(s.graph, s.forest, s.next) && SparesOk(s) && ManifestsOk(s)
    requires o in s'.ops && s' == s.(ops := s.ops[o := s'.ops[o]], next := s.next + 1) && s'.ops[o].spare == s.next
    requires s'.ops[o].manifest.Some? ==> RootNode.id < s'.ops[o].manifest.value.1.id < s.next
    requires s'.ops[o].manifest.Some? ==> forall q | q in s.ops && q != o :: s.ops[q].spare != s'.ops[o].manifest.value.1.id
    ensures SparesOk(s') && ManifestsOk(s')
  {
    forall q, i | q in s'.ops && i in s'.forest ensures i.node.id != s'.ops[q].spare {
    }
    forall p | p in s'.ops && s'.ops[p].manifest.Some?
      ensures RootNode.id < s'.ops[p].manifest.value.1.id < s'.next
      ensures forall q | q in s'.ops :: s'.ops[q].spare != s'.ops[p].manifest.value.1.id
    {
      assert p != o ==> s'.ops[p] == s.ops[p];
    }
  }

  lemma BeginInv(s: State, o: OpId, fences: set<Fence>)
    requires Inv(s) && Idle(s, o) && FencesFree(s, o, fences)
    ensures Inv(Next(s, Begin(o, fences)))
  {
    BeginFences(s, o, fences);
    AfreshInv(s, Next(s, Begin(o, fences)), o);
  }

  lemma LookInv(s: State, o: OpId, id: string)
    requires Inv(s) && Idle(s, o) && id in s.graph.trash
    ensures Inv(Next(s, Look(o, id)))
  {
    TrashedId(s, id);
    AfreshInv(s, Next(s, Look(o, id)), o);
  }

  lemma TrashedId(s: State, id: string)
    requires SpaceOk(s.graph, s.forest, s.next) && id in s.graph.trash
    ensures exists i :: i in s.forest && i.node == s.graph.trash[id].node
    ensures RootNode.id < s.graph.trash[id].node.id < s.next
  {
    FoundItem(s.graph, s.forest, Loc(Some(id), []), s.graph.trash[id].node);
  }

  /** Starting from nothing, as every attempt does, the assignments of the builds are the delta. */
  lemma AssignedIsDelta(g: Graph, f: set<Item>, op: Op, c: Change, count: Stats)
    requires Buildable(g, f, op, c)
    ensures op.fences != {}
    ensures Assigned(NoStats, g, f, c, count) == Delta(g, f, c, count)
    ensures Delta(g, f, c, Delta(g, f, c, count)) == Delta(g, f, c, count)
  {
    if c.Move? {
      assert LinkFenced(g, op.fences, c.links[0]);
    }
  }

  /** Counting what the shards list under the node of a manifest counts what hangs from it. */
  lemma WalkedIsBelow(g: Graph, f: set<Item>, id: string, node: Node)
    requires ForestOk(f) && Represents(g, f) && Out(g, TrashEdge(id)) == Some(node)
    ensures Walked(f, node) == NodesBelow(f, Loc(Some(id), []))
  {
    var l := Loc(Some(id), []);
    FoundItem(g, f, l, node);
    if node.isDirectory {
      var i :| i in f && i.node.isDirectory && i.node.id == node.id && Walked(f, node) == NodesBelow(f, i.loc) - {i.node} + {node};
      assert i == Item(l, node);
    } else {
      forall i | i in f && Below(i.loc, l) ensures i.loc == l {
        if i.loc != l {
          NotUnderFile(f, l, node, i);
        }
      }
    }
  }

  lemma {:induction false} NotUnderFile(f: set<Item>, l: Loc, n: Node, i: Item)
    requires ForestOk(f) && Item(l, n) in f && !n.isDirectory && i in f && Below(i.loc, l)
    ensures i.loc == l
    decreases |i.loc.path|
  {
    if i.loc != l {
      assert |l.path| < |i.loc.path| && Below(Up(i.loc), l);
      var u :| u in f && u.loc == Up(i.loc) && u.node.isDirectory;
      NotUnderFile(f, l, n, u);
    }
  }

  lemma WalkedCounted(f: set<Item>, node: Node)
    ensures Counted(Count(Walked(f, node)), node)
  {
    assert node in Walked(f, node);
  }

  lemma BuildOk(s: State, o: OpId, c: Change, count: Stats, insists: bool)
    requires SpaceOk(s.graph, s.forest, s.next) && CanBuild(s, o, c, count, insists) && OpOk(s, o)
    ensures PlanOk(Next(s, Build(o, c, count, insists)), o)
  {
    var op, s' := s.ops[o], Next(s, Build(o, c, count, insists));
    AssignedIsDelta(s.graph, s.forest, op, c, count);
    assert s'.ops[o].derived == Delta(s.graph, s.forest, c, count);
    if c.Restore? {
      WalkedCounted(s.forest, c.node);
      if ManifestThere(s.graph, c) {
        WalkedIsBelow(s.graph, s.forest, c.id, c.node);
      }
    } else if c.Move? {
      assert c.links[0] in c.links;
    }
  }

  /** A step of one operation that takes no lease keeps the invariant if its own part is right. */
  lemma OneOpInv(s: State, s': State, o: OpId)
    requires Inv(s) && o in s.ops && o in s'.ops && s' == s.(ops := s.ops[o := s'.ops[o]]) && OpOk(s', o)
    requires s'.ops[o].spare == s.ops[o].spare && s'.ops[o].manifest == s.ops[o].manifest
    requires s'.ops[o].lapsed || s'.ops[o].fences == {} || (s'.ops[o].fences == s.ops[o].fences && !s.ops[o].lapsed)
    ensures Inv(s')
  {
    OneOpIds(s, s', o);
    forall q | q in s'.ops ensures OpOk(s', q) {
      if q != o {
        SameOk(s, s', q);
      }
    }
  }

  lemma OneOpIds(s: State, s': State, o: OpId)
    requires FencesApart(s) && SparesOk(s) && ManifestsOk(s) && o in s.ops && o in s'.ops && s' == s.(ops := s.ops[o := s'.ops[o]])
    requires s'.ops[o].spare == s.ops[o].spare && s'.ops[o].manifest == s.ops[o].manifest
    requires s'.ops[o].lapsed || s'.ops[o].fences == {} || (s'.ops[o].fences == s.ops[o].fences && !s.ops[o].lapsed)
    ensures FencesApart(s') && SparesOk(s') && ManifestsOk(s')
  {
    forall p, q | p in s'.ops && q in s'.ops && p != q && !s'.ops[p].lapsed && !s'.ops[q].lapsed ensures Apart(s'.ops[p].fences, s'.ops[q].fences) {
      assert s'.ops[p].fences == {} || s'.ops[q].fences == {} || Apart(s.ops[p].fences, s.ops[q].fences);
    }
  }

  lemma BuildInv(s: State, o: OpId, c: Change, count: Stats, insists: bool)
    requires Inv(s) && CanBuild(s, o, c, count, insists)
    ensures Inv(Next(s, Build(o, c, count, insists)))
  {
    assert OpOk(s, o);
    BuildOk(s, o, c, count, insists);
    OneOpInv(s, Next(s, Build(o, c, count, insists)), o);
  }

  lemma AbortInv(s: State, o: OpId)
    requires Inv(s) && o in s.ops
    ensures Inv(Next(s, Abort(o)))
  {
    OneOpInv(s, Next(s, Abort(o)), o);
  }

  lemma ExpireInv(s: State, o: OpId)
    requires Inv(s) && Enabled(s, Expire(o))
    ensures Inv(Next(s, Expire(o)))
  {
    assert OpOk(s, o);
    OneOpInv(s, Next(s, Expire(o)), o);
  }

  /** Whatever is planned can be committed as it was built, as far as the builds check. */
  lemma SafeIsSound(s: State, l: Step)
    requires Inv(s) && Enabled(s, l) && SafeStep(s, l) && l.Commit?
    ensures Sound(s, l.op) && !s.ops[l.op].lapsed
  {
    assert OpOk(s, l.op);
  }

  lemma StepInv(s: State, l: Step)
    requires Inv(s) && Enabled(s, l) && SafeStep(s, l)
    ensures Inv(Next(s, l))
  {
    match l
    case Begin(o, fences) => BeginInv(s, o, fences);
    case Look(o, id) => LookInv(s, o, id);
    case Build(o, c, count, insists) => BuildInv(s, o, c, count, insists);
    case Expire(o) => ExpireInv(s, o);
    case Commit(o) =>
      SafeIsSound(s, l);
      CommitNext(s, o);
      CommitInv(s, o);
    case Abort(o) => AbortInv(s, o);
    case Rename(dir, name, to) => RenameInv(s, dir, name, to);
  }

  // ---- Runs ----

  /** What a step hands to the reducer: a commit hands over what its operation has set aside. */
  function Handed(s: State, l: Step): Stats {
    if l.Commit? && l.op in s.ops then s.ops[l.op].derived else NoStats
  }

  lemma StepConserves(s: State, l: Step)
    requires Inv(s) && Enabled(s, l) && SafeStep(s, l)
    ensures Conserves(s.forest, Next(s, l).forest, Handed(s, l))
  {
    if l.Commit? {
      SafeIsSound(s, l);
      CommitNext(s, l.op);
      CommitInv(s, l.op);
    } else if l.Rename? {
      RenameOk(s, l.dir, l.name, l.to);
      SameNodes(s.forest, Next(s, l).forest);
    } else {
      SameNodes(s.forest, s.forest);
    }
  }
}
