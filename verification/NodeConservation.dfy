/** What an operation hands to the reducer is exactly what it does to the live counts. */
module NodeConservation {
  import opened Wrappers
  import opened Paths
  import opened FlatTree
  import opened FlatMoves
  import opened NodeTree
  import opened NodeNamespace
  import opened NodeAccounts
  import opened NodeMutations

  ghost predicate Conserves(f: set<Item>, f': set<Item>, delta: Stats) {
    Count(LiveNodes(f')) == Add(Count(LiveNodes(f)), delta)
  }

  lemma LiveWith(f: set<Item>, l: Loc, n: Node)
    requires l.trash.None?
    ensures LiveNodes(f + {Item(l, n)}) == LiveNodes(f) + {n}
  {
    var f' := f + {Item(l, n)};
    forall m | m in LiveNodes(f) + {n} ensures m in LiveNodes(f') {
      if m == n {
        assert Item(l, n) in f';
      } else {
        var i :| i in f && i.loc.trash.None? && i.node == m;
        assert i in f';
      }
    }
  }

  /** A new file or directory. */
  lemma CreateConserves(f: set<Item>, l: Loc, n: Node)
    requires l.trash.None? && forall i | i in f :: i.node.id != n.id
    ensures Conserves(f, f + {Item(l, n)}, Weight(n))
  {
    LiveWith(f, l, n);
    assert n !in LiveNodes(f);
    CountMore(LiveNodes(f), n, LiveNodes(f + {Item(l, n)}), Count(LiveNodes(f)));
  }

  lemma Cancels(a: Stats, b: Stats, w: Stats)
    requires b == Add(a, w)
    ensures a == Add(b, Negate(w))
  {
  }

  /** The removal of a file or an empty directory. */
  lemma DeleteConserves(f: set<Item>, l: Loc, n: Node)
    requires IdsUnique(f) && Item(l, n) in f && l.trash.None?
    ensures Conserves(f, f - {Item(l, n)}, Negate(Weight(n)))
  {
    var f' := f - {Item(l, n)};
    CreateConserves(f', l, n);
    assert f' + {Item(l, n)} == f;
    Cancels(Count(LiveNodes(f')), Count(LiveNodes(f)), Weight(n));
  }

  /** A replacement of a file's content. */
  lemma ReplaceConserves(f: set<Item>, f': set<Item>, l: Loc, was: Option<Node>, now: Node, hash: string, size: nat)
    requires IdsUnique(f) && l.trash.None? && Replaced(f, f', l, was, now, hash, size)
    requires was.None? ==> forall i | i in f :: i.node.id != now.id
    ensures Conserves(f, f', ReplaceDelta(was, now))
  {
    if was.Some? {
      var rest := f - {Item(l, was.value)};
      DeleteConserves(f, l, was.value);
      CreateConserves(rest, l, now);
      assert f' == rest + {Item(l, now)};
      Chain(Count(LiveNodes(f)), Count(LiveNodes(rest)), Count(LiveNodes(f')), Weight(was.value), Weight(now));
    } else {
      CreateConserves(f, l, now);
    }
  }

  lemma Chain(a: Stats, b: Stats, c: Stats, lost: Stats, gained: Stats)
    requires b == Add(a, Negate(lost)) && c == Add(b, gained)
    ensures c == Add(a, Add(gained, Negate(lost)))
  {
  }

  /** Trashing takes the whole subtree out of the count. */
  lemma TrashConserves(f: set<Item>, path: Path, id: string)
    requires IdsUnique(f)
    ensures Conserves(f, Relocated(f, Loc(None, path), Loc(Some(id), [])), Negate(Count(NodesBelow(f, Loc(None, path)))))
  {
    LeavesLive(f, Loc(None, path), Loc(Some(id), []));
    Cancels(Count(LiveNodes(Relocated(f, Loc(None, path), Loc(Some(id), [])))), Count(LiveNodes(f)), Count(NodesBelow(f, Loc(None, path))));
  }

  /** Restoring brings it back. */
  lemma RestoreConserves(f: set<Item>, id: string, path: Path)
    requires IdsUnique(f)
    ensures Conserves(f, Relocated(f, Loc(Some(id), []), Loc(None, path)), Count(NodesBelow(f, Loc(Some(id), []))))
  {
    EntersLive(f, Loc(Some(id), []), Loc(None, path));
  }

  /** A rename changes no count. */
  lemma RenameConserves(f: set<Item>, from: Path, to: Path)
    ensures Conserves(f, Relocated(f, Loc(None, from), Loc(None, to)), NoStats)
  {
    StaysLive(f, Loc(None, from), Loc(None, to));
  }

  lemma NodesAreLive(f: set<Item>)
    ensures Nodes(LiveEntries(f)) == LiveNodes(f)
  {
    forall n | n in LiveNodes(f) ensures n in Nodes(LiveEntries(f)) {
      var i :| i in f && i.loc.trash.None? && i.node == n;
      assert Entry(i.loc.path, i.node) in LiveEntries(f);
    }
  }

  /** Nor does a move of any number of roots. */
  lemma MoveConserves(f: set<Item>, f': set<Item>, roots: seq<Path>, dest: Path)
    requires [] !in roots && LiveEntries(f') == MoveAll(LiveEntries(f), roots, dest)
    ensures Conserves(f, f', NoStats)
  {
    NodesAreLive(f);
    NodesAreLive(f');
    MoveKeepsNodes(LiveEntries(f), roots, dest);
  }

  lemma NodesFollow(f: set<Item>, from: Loc, to: Loc, n: Node)
    requires ForestOk(f) && CanRelink(f, from, to, n)
    ensures NodesBelow(Relocated(f, from, to), to) == NodesBelow(f, from)
  {
    var g := Relocated(f, from, to);
    forall m | m in NodesBelow(f, from) ensures m in NodesBelow(g, to) {
      var i :| i in f && Below(i.loc, from) && i.node == m;
      ShiftBack(i.loc, from, to);
      assert Item(Shift(i.loc, from, to), i.node) in g;
    }
    forall m | m in NodesBelow(g, to) ensures m in NodesBelow(f, from) {
      var x :| x in g && Below(x.loc, to) && x.node == m;
      var i :| i in f && x == Item(Shift(i.loc, from, to), i.node);
      CameFrom(f, from, to, n, i);
    }
  }

  lemma CameFrom(f: set<Item>, from: Loc, to: Loc, n: Node, i: Item)
    requires ForestOk(f) && CanRelink(f, from, to, n) && i in f && Below(Shift(i.loc, from, to), to)
    ensures Below(i.loc, from)
  {
    if !Below(i.loc, from) {
      assert Occupied(f, i.loc);
      NothingUnder(f, to, i.loc);
    }
  }

  /** Trashing a subtree and restoring it at once is the identity on the whole forest, and
      the two changes of the counts cancel. */
  lemma TrashThenRestore(f: set<Item>, path: Path, id: string, n: Node)
    requires ForestOk(f) && Item(Loc(None, path), n) in f && !Occupied(f, Loc(Some(id), []))
    ensures var g := Relocated(f, Loc(None, path), Loc(Some(id), []));
      && Relocated(g, Loc(Some(id), []), Loc(None, path)) == f
      && NodesBelow(g, Loc(Some(id), [])) == NodesBelow(f, Loc(None, path))
  {
    RelocateBack(f, Loc(None, path), Loc(Some(id), []), n);
    NodesFollow(f, Loc(None, path), Loc(Some(id), []), n);
  }
}
