/** Moving the roots one after the other, as the V4 tree does, is moving them all at once, as
    the relational store does: with the same verdict and the same entries. */
module FlatMoves {
  import opened Wrappers
  import opened Paths
  import opened FlatTree

  /** A list of roots to be moved into a directory of the tree. */
  predicate Movable(s: set<Entry>, roots: seq<Path>, dest: Path) {
    && TreeOk(s) && Antichain(roots) && [] !in roots
    && (dest == [] || HasDir(s, dest))
    && forall k | 0 <= k < |roots| :: RootProblem(s, roots[k], dest).None?
  }

  lemma ParentOfJoin(root: Path, dest: Path)
    requires root != []
    ensures Parent(root) == dest <==> dest + [Base(root)] == root
  {
  }

  lemma IntoItself(s: set<Entry>, root: Path, dest: Path)
    requires ParentsExist(s) && root != [] && Has(s, root) && root <= dest && HasDir(s, dest)
    ensures RootProblem(s, root, dest) == Some(InvalidMove)
  {
    if root != dest {
      assert Has(s, dest);
      AncestorsAreDirs(s, dest, root);
    }
    assert root < dest + [Base(root)];
  }

  lemma RootOutside(s: set<Entry>, roots: seq<Path>, dest: Path, k: nat)
    requires Movable(s, roots, dest) && k < |roots|
    ensures Has(s, roots[k]) && !(roots[k] <= dest) && Parent(roots[k]) != dest
  {
    assert RootProblem(s, roots[k], dest).None?;
    ParentOfJoin(roots[k], dest);
    if roots[k] <= dest {
      IntoItself(s, roots[k], dest);
    }
  }

  lemma PrefixesCompare(a: Path, b: Path, p: Path)
    requires a <= p && b <= p
    ensures a <= b || b <= a
  {
  }

  lemma OneRoot(roots: seq<Path>, p: Path, j: nat, k: nat)
    requires Antichain(roots) && j < |roots| && k < |roots| && roots[j] <= p && roots[k] <= p
    ensures j == k
  {
    PrefixesCompare(roots[j], roots[k], p);
  }

  lemma {:induction false} TargetUnmoved(s: set<Entry>, roots: seq<Path>, dest: Path, p: Path)
    requires ParentsExist(s) && Has(s, p) && [] !in roots
    requires forall k | 0 <= k < |roots| :: !(roots[k] <= p)
    ensures Target(s, roots, dest, p) == p
  {
    if roots != [] {
      MovesWithin(s, roots[|roots| - 1], p);
      TargetUnmoved(s, roots[..|roots| - 1], dest, p);
    }
  }

  lemma {:induction false} TargetMoved(s: set<Entry>, roots: seq<Path>, dest: Path, p: Path, j: nat)
    requires ParentsExist(s) && Has(s, p) && [] !in roots && Antichain(roots)
    requires j < |roots| && roots[j] <= p
    ensures Target(s, roots, dest, p) == Relocate(roots[j], dest, p)
  {
    var n := |roots| - 1;
    MovesWithin(s, roots[n], p);
    if roots[n] <= p {
      OneRoot(roots, p, j, n);
    } else {
      TargetMoved(s, roots[..n], dest, p, j);
    }
  }

  lemma MovingWithin(s: set<Entry>, roots: seq<Path>, p: Path)
    requires ParentsExist(s) && Has(s, p) && [] !in roots
    ensures Moving(s, roots, p) <==> exists k | 0 <= k < |roots| :: roots[k] <= p
  {
    forall k | 0 <= k < |roots| ensures Moves(s, roots[k], p) <==> roots[k] <= p {
      MovesWithin(s, roots[k], p);
    }
  }

  // ---- Collisions ----

  predicate NameFree(s: set<Entry>, roots: seq<Path>, dest: Path, k: nat)
    requires k < |roots| && [] !in roots
  {
    && !Has(s, dest + [Base(roots[k])])
    && forall j | 0 <= j < k :: Base(roots[j]) != Base(roots[k])
  }

  predicate NamesFree(s: set<Entry>, roots: seq<Path>, dest: Path)
    requires [] !in roots
  {
    forall k | 0 <= k < |roots| :: NameFree(s, roots, dest, k)
  }

  /** A child of the destination is moved by no root. */
  lemma ChildStays(s: set<Entry>, roots: seq<Path>, dest: Path, name: Name, k: nat)
    requires Movable(s, roots, dest) && k < |roots|
    ensures !(roots[k] <= dest + [name])
  {
    RootOutside(s, roots, dest, k);
    if roots[k] <= dest + [name] {
      ChildOf(roots[k], dest, name);
    }
  }

  lemma ChildOf(root: Path, dest: Path, name: Name)
    requires root <= dest + [name] && !(root <= dest)
    ensures root != [] && Parent(root) == dest
  {
    assert root == dest + [name];
  }

  lemma OccupiedCollides(s: set<Entry>, roots: seq<Path>, dest: Path, k: nat)
    requires Movable(s, roots, dest) && k < |roots| && Has(s, dest + [Base(roots[k])])
    ensures Collides(s, roots, dest)
  {
    var root, to := roots[k], dest + [Base(roots[k])];
    RootOutside(s, roots, dest, k);
    var e :| e in s && e.path == root;
    var f :| f in s && f.path == to;
    forall j | 0 <= j < |roots| ensures !(roots[j] <= to) {
      ChildStays(s, roots, dest, Base(root), j);
    }
    TargetUnmoved(s, roots, dest, to);
    TargetMoved(s, roots, dest, root, k);
    assert Moves(s, roots[k], e.path);
    assert root[|root|..] == [];
    assert Target(s, roots, dest, e.path) == Target(s, roots, dest, f.path);
  }

  lemma SameNameCollides(s: set<Entry>, roots: seq<Path>, dest: Path, j: nat, k: nat)
    requires Movable(s, roots, dest) && j < k < |roots| && Base(roots[j]) == Base(roots[k])
    ensures Collides(s, roots, dest)
  {
    RootOutside(s, roots, dest, j);
    RootOutside(s, roots, dest, k);
    var e :| e in s && e.path == roots[j];
    var f :| f in s && f.path == roots[k];
    TargetMoved(s, roots, dest, roots[j], j);
    TargetMoved(s, roots, dest, roots[k], k);
    assert Moves(s, roots[j], e.path);
    assert e != f && Target(s, roots, dest, e.path) == Target(s, roots, dest, f.path);
  }

  /** With free names no two entries meet: e has moved under root j, f is any other. */
  lemma FreeApart(s: set<Entry>, roots: seq<Path>, dest: Path, e: Entry, f: Entry, j: nat)
    requires Movable(s, roots, dest) && NamesFree(s, roots, dest)
    requires e in s && f in s && j < |roots| && roots[j] <= e.path
    requires Target(s, roots, dest, e.path) == Target(s, roots, dest, f.path)
    ensures e == f
  {
    var to := dest + [Base(roots[j])];
    assert Has(s, e.path) && Has(s, f.path);
    TargetMoved(s, roots, dest, e.path, j);
    assert NameFree(s, roots, dest, j);
    if k :| 0 <= k < |roots| && roots[k] <= f.path {
      TargetMoved(s, roots, dest, f.path, k);
      assert NameFree(s, roots, dest, k);
      assert Target(s, roots, dest, e.path)[|dest|] == Base(roots[j]);
      assert Target(s, roots, dest, f.path)[|dest|] == Base(roots[k]);
      assert j == k;
      assert e.path[|roots[j]|..] == Target(s, roots, dest, e.path)[|to|..] == f.path[|roots[j]|..];
      assert e.path == roots[j] + e.path[|roots[j]|..] && f.path == roots[j] + f.path[|roots[j]|..];
    } else {
      TargetUnmoved(s, roots, dest, f.path);
      NothingBelow(s, to, f.path);
    }
  }

  /** The collision check on all moved paths comes down to the names of the roots. */
  lemma CollisionIsOccupiedName(s: set<Entry>, roots: seq<Path>, dest: Path)
    requires Movable(s, roots, dest)
    ensures Collides(s, roots, dest) <==> !NamesFree(s, roots, dest)
  {
    if !NamesFree(s, roots, dest) {
      var k :| 0 <= k < |roots| && !NameFree(s, roots, dest, k);
      if Has(s, dest + [Base(roots[k])]) {
        OccupiedCollides(s, roots, dest, k);
      } else {
        var j :| 0 <= j < k && Base(roots[j]) == Base(roots[k]);
        SameNameCollides(s, roots, dest, j, k);
      }
    } else {
      forall e, f | e in s && f in s && e != f && Moving(s, roots, e.path)
        ensures Target(s, roots, dest, e.path) != Target(s, roots, dest, f.path)
      {
        assert Has(s, e.path);
        MovingWithin(s, roots, e.path);
        var j :| 0 <= j < |roots| && roots[j] <= e.path;
        if Target(s, roots, dest, e.path) == Target(s, roots, dest, f.path) {
          FreeApart(s, roots, dest, e, f, j);
        }
      }
    }
  }

  // ---- In turn ----

  lemma NamesFreePrefix(s: set<Entry>, roots: seq<Path>, dest: Path, k: nat)
    requires Movable(s, roots, dest) && k <= |roots|
    ensures Movable(s, roots[..k], dest)
    ensures NamesFree(s, roots, dest) ==> NamesFree(s, roots[..k], dest)
  {
    forall j | 0 <= j < k && NamesFree(s, roots, dest) ensures NameFree(s, roots[..k], dest, j) {
      assert NameFree(s, roots, dest, j);
    }
    forall j | 0 <= j < k ensures RootProblem(s, roots[..k][j], dest).None? {
      assert RootProblem(s, roots[j], dest).None?;
    }
  }

  /** What has been moved already is not moved again. */
  lemma MovedStays(s: set<Entry>, roots: seq<Path>, dest: Path, p: Path, j: nat, n: nat)
    requires Movable(s, roots, dest) && NamesFree(s, roots, dest) && j < n < |roots|
    requires roots[j] <= p
    ensures !(roots[n] <= Relocate(roots[j], dest, p))
  {
    var to := dest + [Base(roots[j])];
    assert to <= Relocate(roots[j], dest, p);
    if roots[n] <= Relocate(roots[j], dest, p) {
      RootOutside(s, roots, dest, n);
      ChildStays(s, roots, dest, Base(roots[j]), n);
      PrefixesCompare(to, roots[n], Relocate(roots[j], dest, p));
      assert NameFree(s, roots, dest, j);
      NothingBelow(s, to, roots[n]);
    }
  }

  lemma OthersStay(s: set<Entry>, roots: seq<Path>, dest: Path, p: Path, n: nat)
    requires Movable(s, roots, dest) && NamesFree(s, roots, dest) && n < |roots| && Has(s, p)
    requires !(roots[n] <= p)
    ensures [] !in roots[..n] && !(roots[n] <= Target(s, roots[..n], dest, p))
  {
    NamesFreePrefix(s, roots, dest, n);
    if j :| 0 <= j < n && roots[..n][j] <= p {
      TargetMoved(s, roots[..n], dest, p, j);
      MovedStays(s, roots, dest, p, j, n);
    } else {
      TargetUnmoved(s, roots[..n], dest, p);
    }
  }

  lemma FirstTime(s: set<Entry>, roots: seq<Path>, dest: Path, p: Path, n: nat)
    requires Movable(s, roots, dest) && n < |roots| && Has(s, p) && roots[n] <= p
    ensures [] !in roots[..n] && Target(s, roots[..n], dest, p) == p
  {
    NamesFreePrefix(s, roots, dest, n);
    forall j | 0 <= j < n ensures !(roots[..n][j] <= p) {
      if roots[j] <= p {
        OneRoot(roots, p, j, n);
      }
    }
    TargetUnmoved(s, roots[..n], dest, p);
  }

  lemma NextRelocates(s: set<Entry>, roots: seq<Path>, dest: Path, p: Path)
    requires Movable(s, roots, dest) && NamesFree(s, roots, dest) && roots != [] && Has(s, p)
    ensures var n := |roots| - 1;
            [] !in roots[..n] && Relocate(roots[n], dest, Target(s, roots[..n], dest, p)) == Target(s, roots, dest, p)
  {
    var n := |roots| - 1;
    MovesWithin(s, roots[n], p);
    if roots[n] <= p {
      FirstTime(s, roots, dest, p, n);
    } else {
      OthersStay(s, roots, dest, p, n);
    }
  }

  /** One after the other is all at once. */
  lemma {:induction false} InTurnIsAtOnce(s: set<Entry>, roots: seq<Path>, dest: Path)
    requires Movable(s, roots, dest) && NamesFree(s, roots, dest)
    ensures MoveInTurn(s, roots, dest) == MoveAll(s, roots, dest)
  {
    if roots == [] {
      assert forall e | e in s :: Entry(Target(s, roots, dest, e.path), e.node) == e;
    } else {
      var n := |roots| - 1;
      NamesFreePrefix(s, roots, dest, n);
      InTurnIsAtOnce(s, roots[..n], dest);
      InTurnStep(s, roots, dest);
    }
  }

  lemma InTurnStep(s: set<Entry>, roots: seq<Path>, dest: Path)
    requires Movable(s, roots, dest) && NamesFree(s, roots, dest) && roots != []
    ensures [] !in roots[..|roots| - 1]
    ensures MoveOne(MoveAll(s, roots[..|roots| - 1], dest), roots[|roots| - 1], dest) == MoveAll(s, roots, dest)
  {
    var n := |roots| - 1;
    var before := MoveAll(s, roots[..n], dest);
    forall e | e in s
      ensures Entry(Target(s, roots, dest, e.path), e.node) ==
              Entry(Relocate(roots[n], dest, Target(s, roots[..n], dest, e.path)), e.node)
    {
      assert Has(s, e.path);
      NextRelocates(s, roots, dest, e.path);
    }
    forall x | x in MoveOne(before, roots[n], dest) ensures x in MoveAll(s, roots, dest) {
      var y :| y in before && x == Entry(Relocate(roots[n], dest, y.path), y.node);
      var e :| e in s && y == Entry(Target(s, roots[..n], dest, e.path), e.node);
    }
    forall x | x in MoveAll(s, roots, dest) ensures x in MoveOne(before, roots[n], dest) {
      var e :| e in s && x == Entry(Target(s, roots, dest, e.path), e.node);
      var y := Entry(Target(s, roots[..n], dest, e.path), e.node);
      assert y in before;
    }
  }

  lemma MoveAllHas(s: set<Entry>, roots: seq<Path>, dest: Path, p: Path)
    requires ParentsExist(s) && [] !in roots && forall k | 0 <= k < |roots| :: !(roots[k] <= p)
    ensures forall e | e in s && e.path == p :: e in MoveAll(s, roots, dest)
  {
    forall e | e in s && e.path == p ensures e in MoveAll(s, roots, dest) {
      assert Has(s, p);
      TargetUnmoved(s, roots, dest, p);
      assert Entry(Target(s, roots, dest, e.path), e.node) == e;
    }
  }

  /** A path outside the destination's new children holds after the move what it held before. */
  lemma MoveAllFrom(s: set<Entry>, roots: seq<Path>, dest: Path, x: Entry) returns (e: Entry)
    requires ParentsExist(s) && [] !in roots && Antichain(roots) && x in MoveAll(s, roots, dest)
    ensures e in s && e.node == x.node
    ensures || (e.path == x.path && forall k | 0 <= k < |roots| :: !(roots[k] <= e.path))
            || exists k | 0 <= k < |roots| :: roots[k] <= e.path && x.path == Relocate(roots[k], dest, e.path)
  {
    e :| e in s && x == Entry(Target(s, roots, dest, e.path), e.node);
    assert Has(s, e.path);
    if k :| 0 <= k < |roots| && roots[k] <= e.path {
      TargetMoved(s, roots, dest, e.path, k);
    } else {
      TargetUnmoved(s, roots, dest, e.path);
    }
  }

  /** When the first k roots have been moved, the next one and the destination are where they
      were, and the next one's name is taken exactly when it collides. */
  lemma NextRoot(s: set<Entry>, roots: seq<Path>, dest: Path, k: nat)
    requires Movable(s, roots, dest) && k < |roots| && NamesFree(s, roots[..k], dest)
    ensures var t := MoveAll(s, roots[..k], dest);
            && Has(t, roots[k]) && (dest == [] || HasDir(t, dest))
            && !(roots[k] <= dest) && Parent(roots[k]) != dest
            && (Has(t, dest + [Base(roots[k])]) <==> !NameFree(s, roots, dest, k))
  {
    var before, t := roots[..k], MoveAll(s, roots[..k], dest);
    RootOutside(s, roots, dest, k);
    NamesFreePrefix(s, roots, dest, k);
    forall j | 0 <= j < k ensures !(before[j] <= roots[k]) && !(before[j] <= dest) {
      RootOutside(s, roots, dest, j);
    }
    MoveAllHas(s, before, dest, roots[k]);
    MoveAllHas(s, before, dest, dest);
    NextName(s, roots, dest, k);
  }

  lemma NextName(s: set<Entry>, roots: seq<Path>, dest: Path, k: nat)
    requires Movable(s, roots, dest) && k < |roots| && NamesFree(s, roots[..k], dest)
    ensures Has(MoveAll(s, roots[..k], dest), dest + [Base(roots[k])]) <==> !NameFree(s, roots, dest, k)
  {
    var before, t, to := roots[..k], MoveAll(s, roots[..k], dest), dest + [Base(roots[k])];
    NamesFreePrefix(s, roots, dest, k);
    forall j | 0 <= j < k ensures !(before[j] <= to) {
      ChildStays(s, roots, dest, Base(roots[k]), j);
    }
    MoveAllHas(s, before, dest, to);
    if j :| 0 <= j < k && Base(roots[j]) == Base(roots[k]) {
      RootOutside(s, roots, dest, j);
      var e :| e in s && e.path == roots[j];
      TargetMoved(s, before, dest, roots[j], j);
      assert Entry(Target(s, before, dest, e.path), e.node) in t;
    }
    if x :| x in t && x.path == to && NameFree(s, roots, dest, k) {
      NameTakenBy(s, roots, dest, k, x);
    }
  }

  lemma NameTakenBy(s: set<Entry>, roots: seq<Path>, dest: Path, k: nat, x: Entry)
    requires Movable(s, roots, dest) && k < |roots| && [] !in roots[..k]
    requires x in MoveAll(s, roots[..k], dest) && x.path == dest + [Base(roots[k])]
    ensures !NameFree(s, roots, dest, k)
  {
    NamesFreePrefix(s, roots, dest, k);
    var e := MoveAllFrom(s, roots[..k], dest, x);
    if e.path != x.path {
      var j :| 0 <= j < k && roots[..k][j] <= e.path && x.path == Relocate(roots[j], dest, e.path);
      assert x.path[|dest|] == Base(roots[j]);
    }
  }

  /** A move of any number of roots keeps the tree a tree: unique paths, unique nodes, and
      every parent an existing directory. */
  lemma {:induction false} MoveKeepsTree(s: set<Entry>, roots: seq<Path>, dest: Path)
    requires Movable(s, roots, dest) && NamesFree(s, roots, dest)
    ensures TreeOk(MoveAll(s, roots, dest))
  {
    if roots == [] {
      assert forall e | e in s :: Entry(Target(s, roots, dest, e.path), e.node) == e;
      assert MoveAll(s, roots, dest) == s;
    } else {
      var n := |roots| - 1;
      NamesFreePrefix(s, roots, dest, n);
      MoveKeepsTree(s, roots[..n], dest);
      NextRoot(s, roots, dest, n);
      assert NameFree(s, roots, dest, n);
      MoveOneKeepsTree(MoveAll(s, roots[..n], dest), roots[n], dest);
      InTurnStep(s, roots, dest);
    }
  }

  /** The nodes of a tree: identities, physical keys, sizes. */
  function Nodes(s: set<Entry>): set<Node> {
    set e | e in s :: e.node
  }

  /** A move loses no node and changes none. */
  lemma MoveKeepsNodes(s: set<Entry>, roots: seq<Path>, dest: Path)
    requires [] !in roots
    ensures Nodes(MoveAll(s, roots, dest)) == Nodes(s)
  {
    forall n | n in Nodes(s) ensures n in Nodes(MoveAll(s, roots, dest)) {
      var e :| e in s && e.node == n;
      assert Entry(Target(s, roots, dest, e.path), e.node) in MoveAll(s, roots, dest);
    }
  }

  // ---- The order of the roots does not matter ----

  lemma VerdictNone(s: set<Entry>, roots: seq<Path>, dest: Path)
    requires TreeOk(s) && Antichain(roots) && [] !in roots
    ensures MoveVerdict(s, roots, dest).None? <==> Movable(s, roots, dest) && NamesFree(s, roots, dest)
  {
    AllProblems(s, roots, dest);
    if Movable(s, roots, dest) {
      CollisionIsOccupiedName(s, roots, dest);
    }
  }

  lemma {:induction false} AllProblems(s: set<Entry>, roots: seq<Path>, dest: Path)
    requires [] !in roots
    ensures FirstProblem(s, roots, dest).None? <==> forall k | 0 <= k < |roots| :: RootProblem(s, roots[k], dest).None?
  {
    if roots != [] {
      AllProblems(s, roots[1..], dest);
      assert forall k | 0 <= k < |roots| - 1 :: roots[1..][k] == roots[k + 1];
      assert forall k | 1 <= k < |roots| :: roots[k] == roots[1..][k - 1];
    }
  }

  lemma TargetBySet(s: set<Entry>, roots: seq<Path>, roots': seq<Path>, dest: Path, p: Path)
    requires ParentsExist(s) && Has(s, p) && [] !in roots && Antichain(roots) && [] !in roots' && Antichain(roots')
    requires forall q :: q in roots <==> q in roots'
    ensures Target(s, roots, dest, p) == Target(s, roots', dest, p)
  {
    if j :| 0 <= j < |roots| && roots[j] <= p {
      assert roots[j] in roots';
      var k :| 0 <= k < |roots'| && roots'[k] == roots[j];
      TargetMoved(s, roots, dest, p, j);
      TargetMoved(s, roots', dest, p, k);
    } else {
      forall k | 0 <= k < |roots'| ensures !(roots'[k] <= p) {
        assert roots'[k] in roots;
      }
      TargetUnmoved(s, roots, dest, p);
      TargetUnmoved(s, roots', dest, p);
    }
  }

  /** The order in which equally long roots were sorted decides neither whether a move
      succeeds nor what it does. */
  lemma MoveBySet(s: set<Entry>, roots: seq<Path>, roots': seq<Path>, dest: Path)
    requires TreeOk(s) && [] !in roots && Antichain(roots) && [] !in roots' && Antichain(roots')
    requires forall q :: q in roots <==> q in roots'
    ensures MoveVerdict(s, roots, dest).None? <==> MoveVerdict(s, roots', dest).None?
    ensures MoveAll(s, roots, dest) == MoveAll(s, roots', dest)
  {
    forall e | e in s ensures Target(s, roots, dest, e.path) == Target(s, roots', dest, e.path) {
      assert Has(s, e.path);
      TargetBySet(s, roots, roots', dest, e.path);
    }
    if MoveVerdict(s, roots, dest).None? {
      VerdictBySet(s, roots, roots', dest);
    }
    if MoveVerdict(s, roots', dest).None? {
      VerdictBySet(s, roots', roots, dest);
    }
  }

  lemma VerdictBySet(s: set<Entry>, roots: seq<Path>, roots': seq<Path>, dest: Path)
    requires TreeOk(s) && [] !in roots && Antichain(roots) && [] !in roots' && Antichain(roots')
    requires forall q :: q in roots <==> q in roots'
    requires MoveVerdict(s, roots, dest).None?
    ensures MoveVerdict(s, roots', dest).None?
  {
    VerdictNone(s, roots, dest);
    forall k | 0 <= k < |roots'| ensures RootProblem(s, roots'[k], dest).None? {
      assert roots'[k] in roots;
      var j :| 0 <= j < |roots| && roots[j] == roots'[k];
    }
    forall k | 0 <= k < |roots'| ensures NameFree(s, roots', dest, k) {
      NameFreeBySet(s, roots, roots', dest, k);
    }
    VerdictNone(s, roots', dest);
  }

  lemma NameFreeBySet(s: set<Entry>, roots: seq<Path>, roots': seq<Path>, dest: Path, k: nat)
    requires [] !in roots && [] !in roots' && Antichain(roots') && k < |roots'|
    requires forall q :: q in roots <==> q in roots'
    requires NamesFree(s, roots, dest)
    ensures NameFree(s, roots', dest, k)
  {
    assert roots'[k] in roots;
    var a :| 0 <= a < |roots| && roots[a] == roots'[k];
    assert NameFree(s, roots, dest, a);
    forall j | 0 <= j < k ensures Base(roots'[j]) != Base(roots'[k]) {
      assert roots'[j] in roots && !(roots'[j] <= roots'[k]);
      var b :| 0 <= b < |roots| && roots[b] == roots'[j];
      assert NameFree(s, roots, dest, b);
    }
  }
}
