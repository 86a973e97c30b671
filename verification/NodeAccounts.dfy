/** Counts of files, directories and bytes over sets of nodes, and what relocating a subtree
    does to the live count. */
module NodeAccounts {
  import opened Wrappers
  import opened FlatTree
  import opened NodeTree

  datatype Stats = Stats(files: int, dirs: int, bytes: int)

  const NoStats := Stats(0, 0, 0)

  function Add(a: Stats, b: Stats): Stats {
    Stats(a.files + b.files, a.dirs + b.dirs, a.bytes + b.bytes)
  }

  function Negate(a: Stats): Stats {
    Stats(-a.files, -a.dirs, -a.bytes)
  }

  lemma NegateSum(a: Stats, b: Stats)
    ensures Negate(Add(a, b)) == Add(Negate(a), Negate(b))
  {
  }

  function Weight(n: Node): Stats {
    if n.isDirectory then Stats(0, 1, 0) else Stats(1, 0, n.content.size)
  }

  function FilesIn(nodes: set<Node>): set<Node> {
    set n | n in nodes && !n.isDirectory
  }

  function DirsIn(nodes: set<Node>): set<Node> {
    set n | n in nodes && n.isDirectory
  }

  ghost function Bytes(nodes: set<Node>): int
    decreases |nodes|
  {
    if nodes == {} then 0
    else
      var n :| n in nodes;
      Weight(n).bytes + Bytes(nodes - {n})
  }

  ghost function Count(nodes: set<Node>): Stats {
    Stats(|FilesIn(nodes)|, |DirsIn(nodes)|, Bytes(nodes))
  }

  /** Any node may be taken out first. */
  lemma {:induction false} BytesWithout(nodes: set<Node>, n: Node)
    requires n in nodes
    ensures Bytes(nodes) == Weight(n).bytes + Bytes(nodes - {n})
    decreases |nodes|
  {
    var m :| m in nodes && Bytes(nodes) == Weight(m).bytes + Bytes(nodes - {m});
    if m != n {
      BytesWithout(nodes - {m}, n);
      BytesWithout(nodes - {n}, m);
      assert nodes - {m} - {n} == nodes - {n} - {m};
    }
  }

  lemma {:induction false} BytesApart(a: set<Node>, b: set<Node>)
    requires a !! b
    ensures Bytes(a + b) == Bytes(a) + Bytes(b)
    decreases |a|
  {
    if a == {} {
      assert a + b == b;
    } else {
      var n :| n in a;
      BytesWithout(a, n);
      BytesWithout(a + b, n);
      assert a + b - {n} == (a - {n}) + b;
      BytesApart(a - {n}, b);
    }
  }

  lemma CountApart(a: set<Node>, b: set<Node>)
    requires a !! b
    ensures Count(a + b) == Add(Count(a), Count(b))
  {
    BytesApart(a, b);
    assert FilesIn(a + b) == FilesIn(a) + FilesIn(b);
    assert DirsIn(a + b) == DirsIn(a) + DirsIn(b);
  }

  lemma CountOne(n: Node)
    ensures Count({n}) == Weight(n)
  {
    BytesWithout({n}, n);
    assert FilesIn({n}) == if n.isDirectory then {} else {n};
    assert DirsIn({n}) == if n.isDirectory then {n} else {};
  }

  lemma CountMore(nodes: set<Node>, n: Node, nodes': set<Node>, sum: Stats)
    requires n !in nodes && nodes' == nodes + {n} && sum == Count(nodes)
    ensures Count(nodes') == Add(sum, Weight(n))
  {
    CountApart(nodes, {n});
    CountOne(n);
  }

  /** The sum over the first k of a list of entries. */
  function SumTo(entries: seq<Entry>, k: nat): Stats
    requires k <= |entries|
  {
    if k == 0 then NoStats else Add(SumTo(entries, k - 1), Weight(entries[k - 1].node))
  }

  function NodesTo(entries: seq<Entry>, k: nat): set<Node>
    requires k <= |entries|
  {
    set i | 0 <= i < k :: entries[i].node
  }

  predicate DistinctNodes(entries: seq<Entry>) {
    forall i, j | 0 <= i < j < |entries| :: entries[i].node != entries[j].node
  }

  lemma NodesToNext(entries: seq<Entry>, k: nat)
    requires DistinctNodes(entries) && 0 < k <= |entries|
    ensures entries[k - 1].node !in NodesTo(entries, k - 1)
    ensures NodesTo(entries, k) == NodesTo(entries, k - 1) + {entries[k - 1].node}
  {
  }

  /** Summing a list of distinct nodes counts the set of them. */
  lemma {:induction false} SumCounts(entries: seq<Entry>, k: nat)
    requires DistinctNodes(entries) && k <= |entries|
    ensures SumTo(entries, k) == Count(NodesTo(entries, k))
  {
    if k > 0 {
      SumCounts(entries, k - 1);
      NodesToNext(entries, k);
      CountMore(NodesTo(entries, k - 1), entries[k - 1].node, NodesTo(entries, k), SumTo(entries, k - 1));
    }
  }

  function LiveNodes(f: set<Item>): set<Node> {
    set i | i in f && i.loc.trash.None? :: i.node
  }

  function NodesBelow(f: set<Item>, l: Loc): set<Node> {
    set i | i in f && Below(i.loc, l) :: i.node
  }

  lemma LiveNodesOf(f: set<Item>)
    ensures forall i | i in f :: i.loc.trash.None? ==> i.node in LiveNodes(f)
  {
  }

  /** Moving a subtree out of the live tree takes exactly its nodes out of the live count. */
  lemma LeavesLive(f: set<Item>, from: Loc, to: Loc)
    requires IdsUnique(f) && from.trash.None? && to.trash.Some?
    ensures Count(LiveNodes(f)) == Add(Count(LiveNodes(Relocated(f, from, to))), Count(NodesBelow(f, from)))
  {
    var f' := Relocated(f, from, to);
    var out, live, live' := NodesBelow(f, from), LiveNodes(f), LiveNodes(f');
    forall n | n in live' ensures n in live && n !in out {
      var x :| x in f' && x.loc.trash.None? && x.node == n;
      var i :| i in f && x == Item(Shift(i.loc, from, to), i.node);
      assert !Below(i.loc, from);
    }
    forall n | n in live && n !in out ensures n in live' {
      var i :| i in f && i.loc.trash.None? && i.node == n;
      assert Item(Shift(i.loc, from, to), i.node) in f';
    }
    forall n | n in out ensures n in live {
      var i :| i in f && Below(i.loc, from) && i.node == n;
    }
    assert live == live' + out;
    CountApart(live', out);
  }

  /** And moving one into the live tree adds exactly its nodes. */
  lemma EntersLive(f: set<Item>, from: Loc, to: Loc)
    requires IdsUnique(f) && from.trash.Some? && to.trash.None?
    ensures Count(LiveNodes(Relocated(f, from, to))) == Add(Count(LiveNodes(f)), Count(NodesBelow(f, from)))
  {
    var f' := Relocated(f, from, to);
    var moved, live, live' := NodesBelow(f, from), LiveNodes(f), LiveNodes(f');
    forall n | n in live' ensures n in live || n in moved {
      var x :| x in f' && x.loc.trash.None? && x.node == n;
      var i :| i in f && x == Item(Shift(i.loc, from, to), i.node);
    }
    forall n | n in live ensures n in live' && n !in moved {
      var i :| i in f && i.loc.trash.None? && i.node == n;
      assert Item(Shift(i.loc, from, to), i.node) in f';
    }
    forall n | n in moved ensures n in live' {
      var i :| i in f && Below(i.loc, from) && i.node == n;
      assert Item(Shift(i.loc, from, to), i.node) in f';
    }
    assert live' == live + moved;
    CountApart(live, moved);
  }

  /** Relocating within the live tree changes no count. */
  lemma StaysLive(f: set<Item>, from: Loc, to: Loc)
    requires from.trash.None? && to.trash.None?
    ensures LiveNodes(Relocated(f, from, to)) == LiveNodes(f)
  {
    var f' := Relocated(f, from, to);
    forall n | n in LiveNodes(f) ensures n in LiveNodes(f') {
      var i :| i in f && i.loc.trash.None? && i.node == n;
      assert Item(Shift(i.loc, from, to), i.node) in f';
    }
    forall n | n in LiveNodes(f') ensures n in LiveNodes(f) {
      var x :| x in f' && x.loc.trash.None? && x.node == n;
      var i :| i in f && x == Item(Shift(i.loc, from, to), i.node);
    }
  }

  /** Relocating a subtree and relocating it back is the identity: restoring right after
      trashing gives back the forest there was. */
  lemma RelocateBack(f: set<Item>, from: Loc, to: Loc, n: Node)
    requires ForestOk(f) && CanRelink(f, from, to, n)
    ensures Relocated(Relocated(f, from, to), to, from) == f
  {
    var f' := Relocated(f, from, to);
    forall i | i in f ensures Item(Shift(Shift(i.loc, from, to), to, from), i.node) == i {
      if Below(i.loc, from) {
        ShiftBack(i.loc, from, to);
      } else if Below(i.loc, to) {
        NothingUnder(f, to, i.loc);
        assert Occupied(f, i.loc);
      }
    }
    forall i | i in f ensures i in Relocated(f', to, from) {
      var x := Item(Shift(i.loc, from, to), i.node);
      assert x in f';
      assert Item(Shift(x.loc, to, from), x.node) == i;
    }
    forall y | y in Relocated(f', to, from) ensures y in f {
      var x :| x in f' && y == Item(Shift(x.loc, to, from), x.node);
      var i :| i in f && x == Item(Shift(i.loc, from, to), i.node);
    }
  }
}
