/** What an operation on the namespace leaves to the others: a commit changes nothing outside the
    leases it was made under, so what other builds have looked at and counted stays so. */
module NamespaceFrames {
  import opened Wrappers
  import opened Paths
  import opened FlatTree
  import opened NodeTree
  import opened NodeSpace
  import opened NodeNamespace
  import opened NodeAccounts
  import opened NodeMutations
  import opened NodeConservation
  import opened NamespaceModel

  // ---- What a commit leaves to the others ----

  /** Some lease in the set is on the shard of the entry. */
  ghost predicate Touched(fences: set<Fence>, g: Graph, dir: nat, name: Name) {
    exists b | b in fences :: Clash(ShardFence(dir, g.shardOf(name)), b)
  }

  ghost predicate Untouched(fences: set<Fence>, nodes: set<Node>) {
    forall m, b | m in nodes && m.isDirectory && b in fences :: !Clash(AllShards(m.id), b)
  }

  ghost predicate EntryKept(g: Graph, g': Graph, fences: set<Fence>, dir: nat, name: Name) {
    !Touched(fences, g, dir, name) ==> Child(g', dir, name) == Child(g, dir, name)
  }

  ghost predicate ManifestKept(g: Graph, g': Graph, fences: set<Fence>, id: string) {
    TrashFence(id) !in fences ==> Out(g', TrashEdge(id)) == Out(g, TrashEdge(id))
  }

  ghost predicate DirKept(f: set<Item>, f': set<Item>, fences: set<Fence>, d: nat) {
    Located(f, d) && AllShards(d) !in fences ==> Located(f', d) && (Live(f, d) ==> Live(f', d))
  }

  ghost predicate BelowKept(g: Graph, f: set<Item>, f': set<Item>, fences: set<Fence>, d: nat, name: Name) {
    Located(f, d) && Located(f', d) && Child(g, d, name).Some? && !Touched(fences, g, d, name)
    && Untouched(fences, NodesBelow(f, At(f, d, name))) ==>
      NodesBelow(f', At(f', d, name)) == NodesBelow(f, At(f, d, name))
  }

  ghost predicate TrashKept(g: Graph, f: set<Item>, f': set<Item>, fences: set<Fence>, id: string) {
    TrashFence(id) !in fences && Out(g, TrashEdge(id)).Some? ==>
      NodesBelow(f', Loc(Some(id), [])) == NodesBelow(f, Loc(Some(id), []))
  }

  /** A change under these leases: entries on other shards, other manifests, directories and
      subtrees that are not leased are as they were. */
  ghost predicate Frame(g: Graph, f: set<Item>, g': Graph, f': set<Item>, fences: set<Fence>) {
    && g'.shardOf == g.shardOf
    && (forall dir, name :: EntryKept(g, g', fences, dir, name))
    && (forall id :: ManifestKept(g, g', fences, id))
    && (forall d :: DirKept(f, f', fences, d))
    && (forall d, name :: BelowKept(g, f, f', fences, d, name))
    && (forall id :: TrashKept(g, f, f', fences, id))
  }

  lemma FrameTwice(g: Graph, f: set<Item>, g1: Graph, f1: set<Item>, g2: Graph, f2: set<Item>, fences: set<Fence>)
    requires Frame(g, f, g1, f1, fences) && Frame(g1, f1, g2, f2, fences)
    requires NoStrays(g, f) && NoStrays(g1, f1)
    ensures Frame(g, f, g2, f2, fences)
  {
    forall dir, name ensures EntryKept(g, g2, fences, dir, name) {
      assert EntryKept(g, g1, fences, dir, name) && EntryKept(g1, g2, fences, dir, name);
    }
    forall id ensures ManifestKept(g, g2, fences, id) {
      assert ManifestKept(g, g1, fences, id) && ManifestKept(g1, g2, fences, id);
    }
    forall d ensures DirKept(f, f2, fences, d) {
      assert DirKept(f, f1, fences, d) && DirKept(f1, f2, fences, d);
    }
    forall d, name ensures BelowKept(g, f, f2, fences, d, name) {
      assert EntryKept(g, g1, fences, d, name);
      assert BelowKept(g, f, f1, fences, d, name) && BelowKept(g1, f1, f2, fences, d, name);
    }
    forall id ensures TrashKept(g, f, f2, fences, id) {
      assert ManifestKept(g, g1, fences, id);
      assert TrashKept(g, f, f1, fences, id) && TrashKept(g1, f1, f2, fences, id);
    }
  }

  /** A directory that is below a place is one of the nodes there. */
  lemma DirInside(f: set<Item>, l: Loc, dir: nat) returns (m: Node)
    requires ForestOk(f) && Located(f, dir) && Below(Where(f, dir), l) && l != LiveRoot
    ensures m in NodesBelow(f, l) && m.isDirectory && m.id == dir
  {
    WhereIs(f, dir);
    var j :| j in f && j.loc == Where(f, dir) && j.node.isDirectory && j.node.id == dir;
    m := j.node;
  }

  lemma OneTouches(fences: set<Fence>, g: Graph, dir: nat, name: Name, b: Fence)
    requires b in fences && Clash(ShardFence(dir, g.shardOf(name)), b)
    ensures Touched(fences, g, dir, name)
  {
  }

  lemma OneTouchesInside(fences: set<Fence>, nodes: set<Node>, m: Node, b: Fence)
    requires m in nodes && m.isDirectory && b in fences && Clash(AllShards(m.id), b)
    ensures !Untouched(fences, nodes)
  {
  }

  /** A leased entry is not inside a subtree that the leases do not touch. */
  lemma NotInside(g: Graph, f: set<Item>, fences: set<Fence>, dir: nat, name: Name, d: nat, name': Name)
    requires ForestOk(f) && Located(f, dir) && Located(f, d) && HasFence(g, fences, dir, name)
    requires !Touched(fences, g, d, name') && Untouched(fences, NodesBelow(f, At(f, d, name')))
    ensures !Below(At(f, dir, name), At(f, d, name'))
  {
    var at, l := At(f, dir, name), At(f, d, name');
    EntriesApart(f, dir, name, d, name');
    if Below(at, l) {
      if at == l {
        OneTouches(fences, g, d, name', ShardFence(dir, g.shardOf(name)));
      } else {
        assert |l.path| <= |Where(f, dir).path| && Below(Where(f, dir), l) by {
          assert at.path[..|at.path| - 1] == Where(f, dir).path;
        }
        var m := DirInside(f, l, dir);
        OneTouchesInside(fences, NodesBelow(f, l), m, ShardFence(dir, g.shardOf(name)));
      }
    }
  }

  // ---- A change of one entry ----

  ghost predicate SameElsewhere(f: set<Item>, f': set<Item>, at: Loc) {
    forall i: Item | i.loc != at :: i in f <==> i in f'
  }

  lemma ElsewhereBelow(f: set<Item>, f': set<Item>, at: Loc, l: Loc)
    requires SameElsewhere(f, f', at) && !Below(at, l)
    ensures NodesBelow(f', l) == NodesBelow(f, l)
  {
    forall n | n in NodesBelow(f, l) ensures n in NodesBelow(f', l) {
      var i :| i in f && Below(i.loc, l) && i.node == n;
      assert i in f';
    }
    forall n | n in NodesBelow(f', l) ensures n in NodesBelow(f, l) {
      var i :| i in f' && Below(i.loc, l) && i.node == n;
      assert i in f;
    }
  }

  lemma ElsewhereDir(f: set<Item>, f': set<Item>, at: Loc, d: nat)
    requires ForestOk(f) && ForestOk(f') && SameElsewhere(f, f', at) && Located(f, d) && Where(f, d) != at
    ensures Located(f', d) && Where(f', d) == Where(f, d)
  {
    WhereIs(f, d);
    if d != RootNode.id {
      var j :| j in f && j.loc == Where(f, d) && j.node.isDirectory && j.node.id == d;
      assert j in f';
    }
    WhereOnly(f', Where(f, d), d);
  }

  /** The directory there, if there is one, is leased as a whole. */
  ghost predicate DirsFenced(f: set<Item>, fences: set<Fence>, at: Loc) {
    forall i | i in f && i.loc == at && i.node.isDirectory :: AllShards(i.node.id) in fences
  }

  lemma FencedElsewhere(f: set<Item>, fences: set<Fence>, at: Loc, d: nat)
    requires ForestOk(f) && DirsFenced(f, fences, at) && Located(f, d) && AllShards(d) !in fences && at.path != []
    ensures Where(f, d) != at
  {
    WhereIs(f, d);
  }

  lemma PatchedEntries(g: Graph, g': Graph, fences: set<Fence>, dir: nat, name: Name, n: Option<Node>)
    requires Patched(g, g', ShardEdge(dir, name), n) && HasFence(g, fences, dir, name)
    ensures forall d, x :: EntryKept(g, g', fences, d, x)
    ensures forall id :: ManifestKept(g, g', fences, id)
  {
    forall d, x ensures EntryKept(g, g', fences, d, x) {
      if d == dir && x == name {
        OneTouches(fences, g, d, x, ShardFence(dir, g.shardOf(name)));
      } else {
        assert Out(g', ShardEdge(d, x)) == Out(g, ShardEdge(d, x));
      }
    }
  }

  lemma LeafFrame(g: Graph, g': Graph, f: set<Item>, f': set<Item>, fences: set<Fence>, dir: nat, name: Name, n: Option<Node>)
    requires ForestOk(f) && ForestOk(f') && Live(f, dir) && HasFence(g, fences, dir, name)
    requires Patched(g, g', ShardEdge(dir, name), n) && g'.shardOf == g.shardOf
    requires SameElsewhere(f, f', At(f, dir, name)) && DirsFenced(f, fences, At(f, dir, name))
    ensures Frame(g, f, g', f', fences)
  {
    var at := At(f, dir, name);
    PatchedEntries(g, g', fences, dir, name, n);
    forall d ensures DirKept(f, f', fences, d) {
      if Located(f, d) && AllShards(d) !in fences {
        FencedElsewhere(f, fences, at, d);
        ElsewhereDir(f, f', at, d);
      }
    }
    forall d, x ensures BelowKept(g, f, f', fences, d, x) {
      if Located(f, d) && Located(f', d) && !Touched(fences, g, d, x) && Untouched(fences, NodesBelow(f, At(f, d, x))) {
        LeafBelow(g, f, f', fences, dir, name, d, x);
      }
    }
    forall id ensures TrashKept(g, f, f', fences, id) {
      ElsewhereBelow(f, f', at, Loc(Some(id), []));
    }
  }

  lemma LeafBelow(g: Graph, f: set<Item>, f': set<Item>, fences: set<Fence>, dir: nat, name: Name, d: nat, x: Name)
    requires ForestOk(f) && ForestOk(f') && Live(f, dir) && HasFence(g, fences, dir, name) && Located(f, d) && Located(f', d)
    requires SameElsewhere(f, f', At(f, dir, name)) && DirsFenced(f, fences, At(f, dir, name))
    requires !Touched(fences, g, d, x) && Untouched(fences, NodesBelow(f, At(f, d, x)))
    ensures NodesBelow(f', At(f', d, x)) == NodesBelow(f, At(f, d, x))
  {
    NotInside(g, f, fences, dir, name, d, x);
    ElsewhereBelow(f, f', At(f, dir, name), At(f, d, x));
    NotWhole(fences, g, d, x);
    FencedElsewhere(f, fences, At(f, dir, name), d);
    ElsewhereDir(f, f', At(f, dir, name), d);
  }

  lemma NotWhole(fences: set<Fence>, g: Graph, d: nat, x: Name)
    requires !Touched(fences, g, d, x)
    ensures AllShards(d) !in fences
  {
    if AllShards(d) in fences {
      OneTouches(fences, g, d, x, AllShards(d));
    }
  }

  // ---- A relocation ----

  /** What a relocation moves into or out of is below a place, or it changes nothing there. */
  lemma ShiftKeepsBelow(f: set<Item>, from: Loc, to: Loc, n: Node, l: Loc, i: Item)
    requires ForestOk(f) && CanRelink(f, from, to, n) && i in f && Occupied(f, l) && !Below(from, l) && !Below(to, l)
    ensures Below(Shift(i.loc, from, to), Shift(l, from, to)) <==> Below(i.loc, l)
  {
    if Below(l, from) {
      if Below(i.loc, from) {
        ShiftBelow(from, to, l, i.loc);
      } else {
        NotUnder(f, from, to, n, i.loc);
        OutsideApart(from, to, l, i.loc);
      }
    } else {
      NotUnder(f, from, to, n, l);
      if Below(i.loc, from) {
        AcrossApart(from, to, l, i.loc);
      }
    }
  }

  lemma OutsideApart(from: Loc, to: Loc, l: Loc, i: Loc)
    requires Below(l, from) && !Below(i, from) && !Below(i, to)
    ensures !Below(i, l) && !Below(i, Shift(l, from, to))
  {
    assert to.path <= Shift(l, from, to).path;
    if Below(i, l) {
      BelowBelow(from, l, i);
    }
    if Below(i, Shift(l, from, to)) {
      BelowBelow(to, Shift(l, from, to), i);
    }
  }

  lemma BelowBelow(a: Loc, b: Loc, c: Loc)
    requires Below(b, a) && Below(c, b)
    ensures Below(c, a)
  {
    assert a.path == b.path[..|a.path|] == c.path[..|a.path|];
  }

  lemma AcrossApart(from: Loc, to: Loc, l: Loc, i: Loc)
    requires Below(i, from) && !Below(l, from) && !Below(from, l) && !Below(l, to) && !Below(to, l)
    ensures !Below(i, l) && !Below(Shift(i, from, to), l)
  {
    if Below(i, l) {
      PrefixEither(from, l, i);
    }
    if Below(Shift(i, from, to), l) {
      PrefixEither(to, l, Shift(i, from, to));
    }
  }

  lemma PrefixEither(a: Loc, b: Loc, l: Loc)
    requires Below(l, a) && Below(l, b)
    ensures Below(a, b) || Below(b, a)
  {
    if |a.path| <= |b.path| {
      assert a.path == l.path[..|a.path|] == b.path[..|a.path|];
    } else {
      assert b.path == l.path[..|b.path|] == a.path[..|b.path|];
    }
  }

  lemma ShiftBelow(from: Loc, to: Loc, l: Loc, i: Loc)
    requires Below(l, from) && Below(i, from)
    ensures Below(Shift(i, from, to), Shift(l, from, to)) <==> Below(i, l)
  {
    var a, b := l.path[|from.path|..], i.path[|from.path|..];
    assert l.path == from.path + a && i.path == from.path + b;
    PrefixUnder(from.path, a, b);
    PrefixUnder(to.path, a, b);
  }

  lemma PrefixUnder(p: Path, a: Path, b: Path)
    ensures p + a <= p + b <==> a <= b
  {
    if p + a <= p + b {
      forall i | 0 <= i < |a| ensures a[i] == b[i] {
        assert (p + a)[|p| + i] == (p + b)[|p| + i];
      }
    }
  }

  lemma NotUnder(f: set<Item>, from: Loc, to: Loc, n: Node, l: Loc)
    requires ForestOk(f) && CanRelink(f, from, to, n) && Occupied(f, l)
    ensures !Below(l, to)
  {
    if Below(l, to) {
      NothingUnder(f, to, l);
    }
  }

  lemma RelocatedNodes(f: set<Item>, from: Loc, to: Loc, n: Node, l: Loc)
    requires ForestOk(f) && CanRelink(f, from, to, n) && Occupied(f, l) && !Below(from, l) && !Below(to, l)
    ensures NodesBelow(Relocated(f, from, to), Shift(l, from, to)) == NodesBelow(f, l)
  {
    var f', l' := Relocated(f, from, to), Shift(l, from, to);
    forall m | m in NodesBelow(f, l) ensures m in NodesBelow(f', l') {
      var i :| i in f && Below(i.loc, l) && i.node == m;
      ShiftKeepsBelow(f, from, to, n, l, i);
      assert Item(Shift(i.loc, from, to), i.node) in f';
    }
    forall m | m in NodesBelow(f', l') ensures m in NodesBelow(f, l) {
      var x :| x in f' && Below(x.loc, l') && x.node == m;
      var i :| i in f && x == Item(Shift(i.loc, from, to), i.node);
      ShiftKeepsBelow(f, from, to, n, l, i);
    }
  }

  /** An entry is still the entry of its directory, wherever that has gone. */
  lemma EntryShifts(f: set<Item>, from: Loc, to: Loc, n: Node, d: nat, x: Name)
    requires ForestOk(f) && CanRelink(f, from, to, n) && ForestOk(Relocated(f, from, to)) && Located(f, d) && At(f, d, x) != from
    ensures Located(Relocated(f, from, to), d) && At(Relocated(f, from, to), d, x) == Shift(At(f, d, x), from, to)
  {
    DirShifts(f, from, to, n, d);
    ShiftDown(Where(f, d), x, from, to);
  }

  lemma ShiftDown(w: Loc, x: Name, from: Loc, to: Loc)
    requires Down(w, x) != from
    ensures Shift(Down(w, x), from, to) == Down(Shift(w, from, to), x)
  {
    if Below(w, from) {
      var rest := w.path[|from.path|..];
      assert Down(w, x).path[|from.path|..] == rest + [x];
      assert to.path + (rest + [x]) == (to.path + rest) + [x];
      assert from.path == w.path[..|from.path|] == Down(w, x).path[..|from.path|];
    } else {
      NextBelow(w, x, from);
    }
  }

  lemma NextBelow(w: Loc, x: Name, top: Loc)
    requires !Below(w, top)
    ensures Below(Down(w, x), top) <==> Down(w, x) == top
  {
  }

  /** Where the leases put no subtree they do not touch. */
  ghost predicate Outside(g: Graph, f: set<Item>, fences: set<Fence>, at: Loc) {
    forall d, x | Located(f, d) && !Touched(fences, g, d, x) && Untouched(fences, NodesBelow(f, At(f, d, x))) :: !Below(at, At(f, d, x))
  }

  ghost predicate OutsideTrash(g: Graph, fences: set<Fence>, at: Loc) {
    forall id | TrashFence(id) !in fences && Out(g, TrashEdge(id)).Some? :: !Below(at, Loc(Some(id), []))
  }

  lemma LeasedOutside(g: Graph, f: set<Item>, fences: set<Fence>, dir: nat, name: Name)
    requires ForestOk(f) && Located(f, dir) && HasFence(g, fences, dir, name)
    ensures Outside(g, f, fences, At(f, dir, name))
  {
    forall d, x | Located(f, d) && !Touched(fences, g, d, x) && Untouched(fences, NodesBelow(f, At(f, d, x)))
      ensures !Below(At(f, dir, name), At(f, d, x))
    {
      NotInside(g, f, fences, dir, name, d, x);
    }
  }

  /** Directories that leave the live tree are leased as a whole. */
  ghost predicate LeavesFenced(f: set<Item>, fences: set<Fence>, from: Loc, to: Loc) {
    to.trash.None? || to.trash == from.trash || SubtreeFenced(fences, NodesBelow(f, from))
  }

  lemma RelocateDir(f: set<Item>, fences: set<Fence>, from: Loc, to: Loc, n: Node, d: nat)
    requires ForestOk(f) && CanRelink(f, from, to, n) && ForestOk(Relocated(f, from, to)) && LeavesFenced(f, fences, from, to)
    ensures DirKept(f, Relocated(f, from, to), fences, d)
  {
    if Located(f, d) && AllShards(d) !in fences {
      DirShifts(f, from, to, n, d);
      if Below(Where(f, d), from) && from != LiveRoot {
        var m := DirInside(f, from, d);
      }
    }
  }

  lemma RelocateBelowKept(g: Graph, f: set<Item>, fences: set<Fence>, from: Loc, to: Loc, n: Node, d: nat, x: Name)
    requires ForestOk(f) && Represents(g, f) && CanRelink(f, from, to, n) && ForestOk(Relocated(f, from, to))
    requires Outside(g, f, fences, from) && Outside(g, f, fences, to)
    ensures BelowKept(g, f, Relocated(f, from, to), fences, d, x)
  {
    if Located(f, d) && Child(g, d, x).Some? && !Touched(fences, g, d, x) && Untouched(fences, NodesBelow(f, At(f, d, x))) {
      EntryAt(g, f, d, x);
      assert !Below(from, At(f, d, x)) && !Below(to, At(f, d, x));
      RelocatedNodes(f, from, to, n, At(f, d, x));
      EntryShifts(f, from, to, n, d, x);
    }
  }

  lemma RelocateTrashKept(g: Graph, f: set<Item>, fences: set<Fence>, from: Loc, to: Loc, n: Node, id: string)
    requires ForestOk(f) && Represents(g, f) && CanRelink(f, from, to, n)
    requires OutsideTrash(g, fences, from) && OutsideTrash(g, fences, to)
    requires from.path == [] && from.trash.Some? ==> TrashFence(from.trash.value) in fences
    ensures TrashKept(g, f, Relocated(f, from, to), fences, id)
  {
    var l := Loc(Some(id), []);
    if TrashFence(id) !in fences && Out(g, TrashEdge(id)).Some? {
      FoundItem(g, f, l, Out(g, TrashEdge(id)).value);
      assert Occupied(f, l) && !Below(from, l) && !Below(to, l);
      RelocatedNodes(f, from, to, n, l);
    }
  }

  lemma RelocateFrame(g: Graph, g': Graph, f: set<Item>, fences: set<Fence>, from: Loc, to: Loc, n: Node)
    requires ForestOk(f) && Represents(g, f) && CanRelink(f, from, to, n) && ForestOk(Relocated(f, from, to))
    requires g'.shardOf == g.shardOf && (forall d, x :: EntryKept(g, g', fences, d, x)) && (forall id :: ManifestKept(g, g', fences, id))
    requires LeavesFenced(f, fences, from, to) && Outside(g, f, fences, from) && Outside(g, f, fences, to)
    requires OutsideTrash(g, fences, from) && OutsideTrash(g, fences, to)
    requires from.path == [] && from.trash.Some? ==> TrashFence(from.trash.value) in fences
    ensures Frame(g, f, g', Relocated(f, from, to), fences)
  {
    forall id ensures TrashKept(g, f, Relocated(f, from, to), fences, id) {
      RelocateTrashKept(g, f, fences, from, to, n, id);
    }
    RelocateRest(g, f, fences, from, to, n);
  }

  lemma RelocateRest(g: Graph, f: set<Item>, fences: set<Fence>, from: Loc, to: Loc, n: Node)
    requires ForestOk(f) && Represents(g, f) && CanRelink(f, from, to, n) && ForestOk(Relocated(f, from, to))
    requires LeavesFenced(f, fences, from, to) && Outside(g, f, fences, from) && Outside(g, f, fences, to)
    ensures forall d :: DirKept(f, Relocated(f, from, to), fences, d)
    ensures forall d, x :: BelowKept(g, f, Relocated(f, from, to), fences, d, x)
  {
    forall d ensures DirKept(f, Relocated(f, from, to), fences, d) {
      RelocateDir(f, fences, from, to, n, d);
    }
    forall d, x ensures BelowKept(g, f, Relocated(f, from, to), fences, d, x) {
      RelocateBelowKept(g, f, fences, from, to, n, d, x);
    }
  }

  /** Within one trashed subtree, or the live tree, nothing is lost from the whole. */
  lemma SameRootKept(g: Graph, f: set<Item>, fences: set<Fence>, from: Loc, to: Loc, id: string)
    requires from.trash == to.trash && from.path != [] && to.path != []
    ensures TrashKept(g, f, Relocated(f, from, to), fences, id)
  {
    var l, f' := Loc(Some(id), []), Relocated(f, from, to);
    forall m | m in NodesBelow(f, l) ensures m in NodesBelow(f', l) {
      var i :| i in f && Below(i.loc, l) && i.node == m;
      assert Item(Shift(i.loc, from, to), i.node) in f';
    }
    forall m | m in NodesBelow(f', l) ensures m in NodesBelow(f, l) {
      var x :| x in f' && Below(x.loc, l) && x.node == m;
      var i :| i in f && x == Item(Shift(i.loc, from, to), i.node);
      assert Below(i.loc, l);
    }
  }

  // ---- Each change keeps to its leases ----

  lemma LinkFrame(g: Graph, f: set<Item>, next: nat, fences: set<Fence>, l: Link)
    requires SpaceOk(g, f, next) && LinkLive(f, l) && !Below(To(f, l), From(f, l)) && LinkFenced(g, fences, l)
    requires Child(g, l.dir, l.name) == Some(l.node) && Child(g, l.toDir, l.toName).None?
    ensures Frame(g, f, LinkGraph(g, l), LinkForest(f, l), fences)
  {
    var from, to, g' := From(f, l), To(f, l), LinkGraph(g, l);
    EntryMoves(g, f, next, l);
    LinkEntries(g, fences, l);
    LeasedOutside(g, f, fences, l.dir, l.name);
    LeasedOutside(g, f, fences, l.toDir, l.toName);
    RelocateFrame(g, g', f, fences, from, to, l.node);
  }

  lemma LinkEntries(g: Graph, fences: set<Fence>, l: Link)
    requires LinkFenced(g, fences, l) && Placed(g) && Rooted(g)
    ensures forall d, x :: EntryKept(g, LinkGraph(g, l), fences, d, x)
    ensures forall id :: ManifestKept(g, LinkGraph(g, l), fences, id)
  {
    var g1, g' := DropEntry(g, l.dir, l.name), LinkGraph(g, l);
    LinkPatches(g, l);
    PatchedEntries(g, g1, fences, l.dir, l.name, None);
    PatchedEntries(g1, g', fences, l.toDir, l.toName, Some(l.node));
    forall d, x ensures EntryKept(g, g', fences, d, x) {
      assert EntryKept(g, g1, fences, d, x) && EntryKept(g1, g', fences, d, x);
    }
    forall id ensures ManifestKept(g, g', fences, id) {
      assert ManifestKept(g, g1, fences, id) && ManifestKept(g1, g', fences, id);
    }
  }

  lemma FrameNone(g: Graph, f: set<Item>, fences: set<Fence>)
    ensures Frame(g, f, g, f, fences)
  {
  }

  lemma {:induction false} MoveFrame(g: Graph, f: set<Item>, next: nat, fences: set<Fence>, links: seq<Link>)
    requires SpaceOk(g, f, next) && Linkable(g, links) && SafeLinks(f, links) && forall l | l in links :: LinkFenced(g, fences, l)
    ensures Frame(g, f, LinkAll(g, links), RelocateAll(f, links), fences)
    decreases |links|
  {
    if links == [] {
      FrameNone(g, f, fences);
    } else {
      var g1, f1 := LinkGraph(g, links[0]), LinkForest(f, links[0]);
      LinkOk(g, f, next, links[0]);
      LinkFrame(g, f, next, fences, links[0]);
      forall l | l in links[1..] ensures LinkFenced(g1, fences, l) {
        assert LinkFenced(g, fences, l);
      }
      MoveFrame(g1, f1, next, fences, links[1..]);
      MoveOk(g1, f1, next, links[1..]);
      FrameTwice(g, f, g1, f1, LinkAll(g1, links[1..]), RelocateAll(f1, links[1..]), fences);
    }
  }

  lemma RootEntries(g: Graph, g1: Graph, g2: Graph, fences: set<Fence>, dir: nat, name: Name, n: Option<Node>, id: string, m: Option<Node>)
    requires HasFence(g, fences, dir, name) && TrashFence(id) in fences && g1.shardOf == g.shardOf
    requires (Patched(g, g1, ShardEdge(dir, name), n) && Patched(g1, g2, TrashEdge(id), m))
          || (Patched(g, g1, TrashEdge(id), m) && Patched(g1, g2, ShardEdge(dir, name), n))
    ensures forall d, x :: EntryKept(g, g2, fences, d, x)
    ensures forall i :: ManifestKept(g, g2, fences, i)
  {
    forall d, x ensures EntryKept(g, g2, fences, d, x) {
      var e := ShardEdge(d, x);
      if d == dir && x == name {
        OneTouches(fences, g, d, x, ShardFence(dir, g.shardOf(name)));
      } else {
        assert Out(g2, e) == Out(g1, e) == Out(g, e);
      }
    }
    forall i ensures ManifestKept(g, g2, fences, i) {
      if i != id {
        assert Out(g2, TrashEdge(i)) == Out(g1, TrashEdge(i)) == Out(g, TrashEdge(i));
      }
    }
  }

  lemma RootOutside(g: Graph, f: set<Item>, fences: set<Fence>, id: string)
    requires TrashFence(id) in fences
    ensures Outside(g, f, fences, Loc(Some(id), [])) && OutsideTrash(g, fences, Loc(Some(id), []))
  {
    forall d, x | Located(f, d) ensures !Below(Loc(Some(id), []), At(f, d, x)) {
      assert At(f, d, x).path != [];
    }
  }

  lemma TrashFrame(g: Graph, f: set<Item>, next: nat, fences: set<Fence>, dir: nat, name: Name, id: string, path: Path, node: Node)
    requires SpaceOk(g, f, next) && Live(f, dir) && Child(g, dir, name) == Some(node) && id !in g.trash && path != []
    requires HasFence(g, fences, dir, name) && TrashFence(id) in fences && SubtreeFenced(fences, NodesBelow(f, At(f, dir, name)))
    ensures Frame(g, f, PutManifest(DropEntry(g, dir, name), id, TrashManifest(path, node, false)), Relocated(f, At(f, dir, name), Loc(Some(id), [])), fences)
  {
    var g1, m := DropEntry(g, dir, name), TrashManifest(path, node, false);
    TrashMoves(g, f, next, dir, name, id, path, node);
    DropEntryPatches(g, dir, name);
    PutManifestPatches(g1, id, m);
    RootEntries(g, g1, PutManifest(g1, id, m), fences, dir, name, None, id, Some(node));
    LeasedOutside(g, f, fences, dir, name);
    RootOutside(g, f, fences, id);
    RelocateFrame(g, PutManifest(g1, id, m), f, fences, At(f, dir, name), Loc(Some(id), []), node);
  }

  lemma RestoreFrame(g: Graph, f: set<Item>, next: nat, fences: set<Fence>, id: string, dir: nat, name: Name, node: Node)
    requires SpaceOk(g, f, next) && Live(f, dir) && Child(g, dir, name).None? && Out(g, TrashEdge(id)) == Some(node)
    requires HasFence(g, fences, dir, name) && TrashFence(id) in fences
    ensures Frame(g, f, SetEntry(DropManifest(g, id), dir, name, node), Relocated(f, Loc(Some(id), []), At(f, dir, name)), fences)
  {
    var g1 := DropManifest(g, id);
    RestoreMoves(g, f, next, id, dir, name, node);
    DropManifestPatches(g, id);
    SetEntryPatches(g1, dir, name, node);
    RootEntries(g, g1, SetEntry(g1, dir, name, node), fences, dir, name, Some(node), id, None);
    LeasedOutside(g, f, fences, dir, name);
    RootOutside(g, f, fences, id);
    RelocateFrame(g, SetEntry(g1, dir, name, node), f, fences, Loc(Some(id), []), At(f, dir, name), node);
  }

  lemma NewElsewhere(f: set<Item>, fences: set<Fence>, l: Loc, n: Node)
    requires !Occupied(f, l)
    ensures SameElsewhere(f, f + {Item(l, n)}, l) && DirsFenced(f, fences, l)
  {
  }

  lemma OldElsewhere(f: set<Item>, fences: set<Fence>, l: Loc, was: Node, now: Node)
    requires LocsUnique(f) && Item(l, was) in f && (was.isDirectory ==> AllShards(was.id) in fences)
    ensures SameElsewhere(f, f - {Item(l, was)} + {Item(l, now)}, l) && SameElsewhere(f, f - {Item(l, was)}, l) && DirsFenced(f, fences, l)
  {
    forall i | i in f && i.loc == l ensures i == Item(l, was) {
    }
  }

  lemma CreateFrame(g: Graph, f: set<Item>, next: nat, fences: set<Fence>, dir: nat, name: Name, node: Node)
    requires SpaceOk(g, f, next) && Live(f, dir) && Child(g, dir, name).None? && HasFence(g, fences, dir, name)
    requires RootNode.id < node.id < next && forall i | i in f :: i.node.id != node.id
    ensures Frame(g, f, SetEntry(g, dir, name, node), f + {Item(At(f, dir, name), node)}, fences)
  {
    EntryAt(g, f, dir, name);
    SetEntryPatches(g, dir, name, node);
    CreateOk(g, f, next, dir, name, node);
    NewElsewhere(f, fences, At(f, dir, name), node);
    LeafFrame(g, SetEntry(g, dir, name, node), f, f + {Item(At(f, dir, name), node)}, fences, dir, name, Some(node));
  }

  lemma ReplaceFrame(g: Graph, f: set<Item>, next: nat, fences: set<Fence>, dir: nat, name: Name, was: Node, now: Node)
    requires SpaceOk(g, f, next) && Live(f, dir) && Child(g, dir, name) == Some(was) && HasFence(g, fences, dir, name)
    requires !was.isDirectory && now.id == was.id && !now.isDirectory
    ensures Frame(g, f, SetEntry(g, dir, name, now), f - {Item(At(f, dir, name), was)} + {Item(At(f, dir, name), now)}, fences)
  {
    var l := At(f, dir, name);
    EntryAt(g, f, dir, name);
    SetEntryPatches(g, dir, name, now);
    ReplaceOk(g, f, next, dir, name, was, now);
    OldElsewhere(f, fences, l, was, now);
    LeafFrame(g, SetEntry(g, dir, name, now), f, f - {Item(l, was)} + {Item(l, now)}, fences, dir, name, Some(now));
  }

  lemma DeleteFrame(g: Graph, f: set<Item>, next: nat, fences: set<Fence>, dir: nat, name: Name, node: Node)
    requires SpaceOk(g, f, next) && Live(f, dir) && Child(g, dir, name) == Some(node) && HasFence(g, fences, dir, name)
    requires node.isDirectory ==> AllShards(node.id) in fences && forall x :: Child(g, node.id, x).None?
    ensures Frame(g, f, DropEntry(g, dir, name), f - {Item(At(f, dir, name), node)}, fences)
  {
    var l, f' := At(f, dir, name), f - {Item(At(f, dir, name), node)};
    EntryAt(g, f, dir, name);
    DropEntryPatches(g, dir, name);
    DeleteOk(g, f, next, dir, name, node);
    OldElsewhere(f, fences, l, node, node);
    LeafFrame(g, DropEntry(g, dir, name), f, f', fences, dir, name, None);
  }

  lemma RestoredFrame(g: Graph, f: set<Item>, next: nat, fences: set<Fence>, c: Change, derived: Stats)
    requires SpaceOk(g, f, next) && c.Restore? && Safe(g, f, c, derived) && Child(g, c.dir, c.name).None?
    requires RootNode.id < c.node.id < next && HasFence(g, fences, c.dir, c.name) && TrashFence(c.id) in fences
    ensures Frame(g, f, GraphAfter(g, c), ForestAfter(g, f, c), fences)
  {
    if ManifestThere(g, c) {
      RestoreFrame(g, f, next, fences, c.id, c.dir, c.name, c.node);
    } else {
      NoManifest(g, c.id);
      CreateFrame(g, f, next, fences, c.dir, c.name, c.node);
    }
  }

  /** A change keeps to the leases that its build has asked for. */
  lemma ChangeFrame(g: Graph, f: set<Item>, next: nat, op: Op, c: Change)
    requires SpaceOk(g, f, next) && Buildable(g, f, op, c) && Safe(g, f, c, op.derived) && IdsFree(f, next, c)
    ensures Frame(g, f, GraphAfter(g, c), ForestAfter(g, f, c), op.fences)
  {
    match c
    case Create(dir, name, node) => CreateFrame(g, f, next, op.fences, dir, name, node);
    case Replace(dir, name, was, now) => ReplaceFrame(g, f, next, op.fences, dir, name, was, now);
    case Delete(dir, name, node) => DeleteFrame(g, f, next, op.fences, dir, name, node);
    case Move(links) => MoveFrame(g, f, next, op.fences, links);
    case Trash(dir, name, id, path, node) => TrashFrame(g, f, next, op.fences, dir, name, id, path, node);
    case Restore(_, _, _, _) => RestoredFrame(g, f, next, op.fences, c, op.derived);
  }

  lemma CommitFrame(s: State, o: OpId)
    requires Inv(s) && Sound(s, o)
    ensures Frame(s.graph, s.forest, DoCommit(s, o).graph, DoCommit(s, o).forest, s.ops[o].fences)
  {
    PlannedIds(s, o);
    ChangeFrame(s.graph, s.forest, s.next, s.ops[o], s.ops[o].plan.value);
  }

  lemma SameDepth(a: Loc, b: Loc)
    requires |a.path| == |b.path| && a != b
    ensures !Below(a, b)
  {
  }

  /** A rename inside a directory, live or trashed. */
  lemma RenameOk(s: State, dir: nat, name: Name, to: Name)
    requires Inv(s) && CanRename(s, dir, name, to)
    ensures var s' := DoRename(s, dir, name, to);
      && SpaceOk(s'.graph, s'.forest, s.next) && LiveNodes(s'.forest) == LiveNodes(s.forest)
      && Frame(s.graph, s.forest, s'.graph, s'.forest, RenameFences(s.graph, dir, name, to))
  {
    var g, f := s.graph, s.forest;
    var l := Link(dir, name, dir, to, Child(g, dir, name).value);
    var from, at, fences := At(f, dir, name), At(f, dir, to), RenameFences(g, dir, name, to);
    EntriesApart(f, dir, name, dir, to);
    SameDepth(at, from);
    EntryMoves(g, f, s.next, l);
    LinkEntries(g, fences, l);
    LeasedOutside(g, f, fences, dir, name);
    LeasedOutside(g, f, fences, dir, to);
    RelocateRest(g, f, fences, from, at, l.node);
    forall id ensures TrashKept(g, f, Relocated(f, from, at), fences, id) {
      SameRootKept(g, f, fences, from, at, id);
    }
    RenameNodes(f, from, at);
  }

  lemma RenameNodes(f: set<Item>, from: Loc, to: Loc)
    requires from.trash == to.trash
    ensures LiveNodes(Relocated(f, from, to)) == LiveNodes(f)
  {
    var f' := Relocated(f, from, to);
    forall n | n in LiveNodes(f) ensures n in LiveNodes(f') {
      var i :| i in f && i.loc.trash.None? && i.node == n;
      assert Item(Shift(i.loc, from, to), i.node) in f';
    }
    forall n | n in LiveNodes(f') ensures n in LiveNodes(f) {
      var x :| x in f' && x.loc.trash.None? && x.node == n;
      var i :| i in f && x == Item(Shift(i.loc, from, to), i.node);
    }
  }

  // ---- A plan outlives the commits of others ----

  lemma LeasedEntry(g: Graph, f: set<Item>, g': Graph, f': set<Item>, mine: set<Fence>, others: set<Fence>, dir: nat, name: Name)
    requires Frame(g, f, g', f', others) && Apart(mine, others) && HasFence(g, mine, dir, name)
    ensures Child(g', dir, name) == Child(g, dir, name) && !Touched(others, g, dir, name) && HasFence(g', mine, dir, name)
    ensures Located(f, dir) ==> Located(f', dir) && (Live(f, dir) ==> Live(f', dir))
  {
    assert EntryKept(g, g', others, dir, name) && DirKept(f, f', others, dir);
    ApartWhole(mine, others, dir, g.shardOf(name));
  }

  lemma ApartWhole(mine: set<Fence>, others: set<Fence>, dir: nat, shard: nat)
    requires Apart(mine, others) && ShardFence(dir, shard) in mine
    ensures AllShards(dir) !in others
  {
    assert forall b | b in others :: !Clash(ShardFence(dir, shard), b);
  }

  lemma LeasedShards(g: Graph, f: set<Item>, g': Graph, f': set<Item>, mine: set<Fence>, others: set<Fence>, dir: nat)
    requires Frame(g, f, g', f', others) && Apart(mine, others) && AllShards(dir) in mine
    ensures forall x :: Child(g', dir, x) == Child(g, dir, x)
  {
    forall x ensures Child(g', dir, x) == Child(g, dir, x) {
      assert EntryKept(g, g', others, dir, x);
      forall b | b in others ensures !Clash(ShardFence(dir, g.shardOf(x)), b) {
        assert !Clash(AllShards(dir), b);
      }
    }
  }

  /** The two graphs agree on the entries that the links touch. */
  ghost predicate AgreeOn(g: Graph, g': Graph, links: seq<Link>) {
    g'.shardOf == g.shardOf && forall l | l in links :: AgreeAt(g, g', l.dir, l.name) && AgreeAt(g, g', l.toDir, l.toName)
  }

  ghost predicate AgreeAt(g: Graph, g': Graph, dir: nat, name: Name) {
    Child(g', dir, name) == Child(g, dir, name)
  }

  lemma AgreeAfter(g: Graph, g': Graph, l: Link, dir: nat, name: Name)
    requires AgreeAt(g, g', dir, name) && AgreeAt(g, g', l.dir, l.name) && AgreeAt(g, g', l.toDir, l.toName)
    ensures AgreeAt(LinkGraph(g, l), LinkGraph(g', l), dir, name)
  {
    var e := ShardEdge(dir, name);
    LinkChild(g, l, e);
    LinkChild(g', l, e);
  }

  lemma LinkChild(g: Graph, l: Link, e: Edge)
    ensures Out(LinkGraph(g, l), e) == if e == ShardEdge(l.toDir, l.toName) then Some(l.node)
                                       else if e == ShardEdge(l.dir, l.name) then None else Out(g, e)
  {
    DropEntryPatches(g, l.dir, l.name);
    SetEntryPatches(DropEntry(g, l.dir, l.name), l.toDir, l.toName, l.node);
    PatchTwice(g, DropEntry(g, l.dir, l.name), LinkGraph(g, l), ShardEdge(l.dir, l.name), ShardEdge(l.toDir, l.toName), l.node);
  }

  lemma {:induction false} LinkableSame(g: Graph, g': Graph, links: seq<Link>)
    requires AgreeOn(g, g', links)
    ensures Linkable(g', links) <==> Linkable(g, links)
    decreases |links|
  {
    if links != [] {
      var l := links[0];
      assert AgreeAt(g, g', l.dir, l.name) && AgreeAt(g, g', l.toDir, l.toName);
      forall m | m in links[1..]
        ensures AgreeAt(LinkGraph(g, l), LinkGraph(g', l), m.dir, m.name) && AgreeAt(LinkGraph(g, l), LinkGraph(g', l), m.toDir, m.toName)
      {
        assert m in links;
        AgreeAfter(g, g', l, m.dir, m.name);
        AgreeAfter(g, g', l, m.toDir, m.toName);
      }
      LinkableSame(LinkGraph(g, l), LinkGraph(g', l), links[1..]);
    }
  }

  lemma LeasedSubtree(g: Graph, f: set<Item>, g': Graph, f': set<Item>, mine: set<Fence>, others: set<Fence>, dir: nat, name: Name)
    requires Frame(g, f, g', f', others) && Apart(mine, others) && HasFence(g, mine, dir, name) && Located(f, dir) && Child(g, dir, name).Some?
    requires SubtreeFenced(mine, NodesBelow(f, At(f, dir, name)))
    ensures Located(f', dir) && NodesBelow(f', At(f', dir, name)) == NodesBelow(f, At(f, dir, name))
  {
    LeasedEntry(g, f, g', f', mine, others, dir, name);
    assert BelowKept(g, f, f', others, dir, name);
    forall m, b | m in NodesBelow(f, At(f, dir, name)) && m.isDirectory && b in others ensures !Clash(AllShards(m.id), b) {
      assert AllShards(m.id) in mine;
    }
  }

  lemma MoveKept(g: Graph, f: set<Item>, g': Graph, f': set<Item>, op: Op, others: set<Fence>, links: seq<Link>)
    requires Frame(g, f, g', f', others) && Apart(op.fences, others) && Buildable(g, f, op, Move(links))
    ensures Buildable(g', f', op, Move(links))
  {
    forall l | l in links
      ensures AgreeAt(g, g', l.dir, l.name) && AgreeAt(g, g', l.toDir, l.toName) && LinkFenced(g', op.fences, l) && LinkLive(f', l)
    {
      assert LinkFenced(g, op.fences, l) && LinkLive(f, l);
      LeasedEntry(g, f, g', f', op.fences, others, l.dir, l.name);
      LeasedEntry(g, f, g', f', op.fences, others, l.toDir, l.toName);
    }
    LinkableSame(g, g', links);
  }

  lemma DeleteKept(g: Graph, f: set<Item>, g': Graph, f': set<Item>, op: Op, others: set<Fence>, dir: nat, name: Name, node: Node)
    requires Frame(g, f, g', f', others) && Apart(op.fences, others) && Buildable(g, f, op, Delete(dir, name, node))
    ensures Buildable(g', f', op, Delete(dir, name, node))
  {
    LeasedEntry(g, f, g', f', op.fences, others, dir, name);
    if node.isDirectory {
      LeasedShards(g, f, g', f', op.fences, others, node.id);
    }
  }

  lemma TrashPlanKept(g: Graph, f: set<Item>, g': Graph, f': set<Item>, op: Op, others: set<Fence>, dir: nat, name: Name, id: string, path: Path, node: Node)
    requires Frame(g, f, g', f', others) && Apart(op.fences, others) && Buildable(g, f, op, Trash(dir, name, id, path, node))
    ensures Buildable(g', f', op, Trash(dir, name, id, path, node))
    ensures Delta(g', f', Trash(dir, name, id, path, node), op.derived) == Delta(g, f, Trash(dir, name, id, path, node), op.derived)
  {
    LeasedEntry(g, f, g', f', op.fences, others, dir, name);
    LeasedSubtree(g, f, g', f', op.fences, others, dir, name);
    LeasedManifest(g, f, g', f', op.fences, others, id);
  }

  lemma LeasedManifest(g: Graph, f: set<Item>, g': Graph, f': set<Item>, mine: set<Fence>, others: set<Fence>, id: string)
    requires Frame(g, f, g', f', others) && Apart(mine, others) && TrashFence(id) in mine
    ensures Out(g', TrashEdge(id)) == Out(g, TrashEdge(id)) && (id in g'.trash <==> id in g.trash)
    ensures Out(g, TrashEdge(id)).Some? ==> NodesBelow(f', Loc(Some(id), [])) == NodesBelow(f, Loc(Some(id), []))
  {
    assert ManifestKept(g, g', others, id) && TrashKept(g, f, f', others, id);
    if TrashFence(id) in others {
      assert Clash(TrashFence(id), TrashFence(id));
    }
  }

  /** What a build saw is still so, and its count still right, after a change under other leases. */
  lemma PlanKept(g: Graph, f: set<Item>, g': Graph, f': set<Item>, op: Op, others: set<Fence>, c: Change)
    requires Frame(g, f, g', f', others) && Apart(op.fences, others) && Buildable(g, f, op, c)
    ensures Buildable(g', f', op, c) && Delta(g', f', c, op.derived) == Delta(g, f, c, op.derived)
  {
    match c
    case Create(dir, name, _) => LeasedEntry(g, f, g', f', op.fences, others, dir, name);
    case Replace(dir, name, _, _) => LeasedEntry(g, f, g', f', op.fences, others, dir, name);
    case Delete(dir, name, node) => DeleteKept(g, f, g', f', op, others, dir, name, node);
    case Move(links) => MoveKept(g, f, g', f', op, others, links);
    case Trash(dir, name, id, path, node) => TrashPlanKept(g, f, g', f', op, others, dir, name, id, path, node);
    case Restore(id, dir, name, _) =>
      LeasedEntry(g, f, g', f', op.fences, others, dir, name);
      LeasedManifest(g, f, g', f', op.fences, others, id);
  }

  // ---- and so do the shards it read ----

  ghost predicate KeysFenced(g: Graph, fences: set<Fence>, c: Change) {
    forall k | k in Keys(g, c) :: ShardFence(k.0, k.1) in fences
  }

  lemma BuildFencesKeys(g: Graph, f: set<Item>, op: Op, c: Change)
    requires Buildable(g, f, op, c)
    ensures KeysFenced(g, op.fences, c)
  {
    if c.Move? {
      forall k | k in Keys(g, c) ensures ShardFence(k.0, k.1) in op.fences {
        var l :| l in c.links && (k == (l.dir, g.shardOf(l.name)) || k == (l.toDir, g.shardOf(l.toName)));
        assert LinkFenced(g, op.fences, l);
      }
    }
  }

  lemma LinkFencesKeys(g: Graph, fences: set<Fence>, l: Link)
    requires LinkFenced(g, fences, l)
    ensures KeysFenced(g, fences, Move([l]))
  {
    forall k | k in Keys(g, Move([l])) ensures ShardFence(k.0, k.1) in fences {
      var m :| m in [l] && (k == (m.dir, g.shardOf(m.name)) || k == (m.toDir, g.shardOf(m.toName)));
    }
  }

  /** A leased shard is as it was, entry by entry. */
  lemma ShardKept(g: Graph, f: set<Item>, g': Graph, f': set<Item>, mine: set<Fence>, others: set<Fence>, d: nat, k: nat)
    requires Frame(g, f, g', f', others) && Apart(mine, others) && ShardFence(d, k) in mine && Placed(g) && Placed(g')
    ensures ShardMap(g', d, k) == ShardMap(g, d, k)
  {
    forall name | name in ShardMap(g, d, k) || name in ShardMap(g', d, k)
      ensures name in ShardMap(g, d, k) && name in ShardMap(g', d, k) && ShardMap(g', d, k)[name] == ShardMap(g, d, k)[name]
    {
      ShardEntryKept(g, f, g', f', mine, others, d, k, name);
    }
  }

  lemma ShardEntryKept(g: Graph, f: set<Item>, g': Graph, f': set<Item>, mine: set<Fence>, others: set<Fence>, d: nat, k: nat, name: Name)
    requires Frame(g, f, g', f', others) && Apart(mine, others) && ShardFence(d, k) in mine && Placed(g) && Placed(g')
    requires name in ShardMap(g, d, k) || name in ShardMap(g', d, k)
    ensures name in ShardMap(g, d, k) && name in ShardMap(g', d, k) && ShardMap(g', d, k)[name] == ShardMap(g, d, k)[name]
  {
    assert name in ShardMap(g, d, k) ==> WellPlaced(g, d, k, name);
    assert name in ShardMap(g', d, k) ==> WellPlaced(g', d, k, name);
    assert HasFence(g, mine, d, name);
    LeasedEntry(g, f, g', f', mine, others, d, name);
  }

  /** What the build has read is changed after a change under other leases exactly if it was before. */
  lemma UnchangedKept(g: Graph, f: set<Item>, g': Graph, f': set<Item>, mine: set<Fence>, others: set<Fence>, base: Graph, c: Change)
    requires Frame(g, f, g', f', others) && Apart(mine, others) && Placed(g) && Placed(g') && g.shardOf == base.shardOf && KeysFenced(base, mine, c)
    ensures Unchanged(g', base, c) <==> Unchanged(g, base, c)
  {
    forall k | k in Keys(base, c) ensures ShardMap(g', k.0, k.1) == ShardMap(g, k.0, k.1) {
      ShardKept(g, f, g', f', mine, others, k.0, k.1);
    }
  }

  /** Entries of shards that are as they were. */
  lemma UnchangedEntry(g: Graph, base: Graph, c: Change, dir: nat, name: Name)
    requires Unchanged(g, base, c) && (dir, base.shardOf(name)) in Keys(base, c)
    ensures Child(g, dir, name) == Child(base, dir, name)
  {
    assert ShardMap(g, dir, base.shardOf(name)) == ShardMap(base, dir, base.shardOf(name));
  }

  /** A commit that insists finds what its build saw if the shards are as they were. */
  lemma InsistingBuildable(g: Graph, f: set<Item>, op: Op)
    requires InsistsOk(g, f, op) && Unchanged(g, op.base, op.plan.value)
    ensures Buildable(g, f, op, op.plan.value) && op.derived == Delta(g, f, op.plan.value, op.derived)
  {
    var c, l := op.plan.value, op.plan.value.links[0];
    assert c.links == [l] && l in c.links;
    UnchangedEntry(g, op.base, c, l.dir, l.name);
    UnchangedEntry(g, op.base, c, l.toDir, l.toName);
    assert AgreeOn(op.base, g, c.links) by {
      forall m | m in c.links ensures AgreeAt(op.base, g, m.dir, m.name) && AgreeAt(op.base, g, m.toDir, m.toName) {
        assert m == l;
      }
    }
    LinkableSame(op.base, g, c.links);
    forall m | m in c.links ensures LinkFenced(g, op.fences, m) && LinkLive(f, m) {
      assert m == l;
    }
  }

  /** No directory of a link goes out of the tree by a change that does not lease all its shards. */
  lemma InsistsKept(g: Graph, f: set<Item>, g': Graph, f': set<Item>, op: Op, others: set<Fence>)
    requires InsistsOk(g, f, op) && Frame(g, f, g', f', others)
    requires AllShards(op.plan.value.links[0].dir) !in others && AllShards(op.plan.value.links[0].toDir) !in others
    ensures InsistsOk(g', f', op)
  {
    var l := op.plan.value.links[0];
    assert DirKept(f, f', others, l.dir) && DirKept(f, f', others, l.toDir);
  }
}
