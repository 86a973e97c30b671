/** The namespace as a flat set of entries: the one specification of moves that both the path
    rewriting of the relational store and the edge relinking of the V4 tree are proved against. */
module FlatTree {
  import opened Wrappers
  import opened Paths

  datatype Content = Content(physicalKey: string, size: nat, hash: string)
  datatype Node = Node(id: nat, isDirectory: bool, content: Content)
  datatype Entry = Entry(path: Path, node: Node)

  predicate Has(s: set<Entry>, p: Path) {
    exists e | e in s :: e.path == p
  }

  predicate HasDir(s: set<Entry>, p: Path) {
    exists e | e in s :: e.path == p && e.node.isDirectory
  }

  predicate UniquePaths(s: set<Entry>) {
    forall e, f | e in s && f in s && e.path == f.path :: e == f
  }

  predicate UniqueIds(s: set<Entry>) {
    forall e, f | e in s && f in s && e.node.id == f.node.id :: e == f
  }

  predicate ParentsExist(s: set<Entry>) {
    forall e | e in s :: e.path != [] && (Parent(e.path) == [] || HasDir(s, Parent(e.path)))
  }

  /** The entries form a tree: one entry a path, one path a node, and every parent a directory. */
  predicate TreeOk(s: set<Entry>) {
    UniquePaths(s) && UniqueIds(s) && ParentsExist(s)
  }

  // ---- A move of several roots at once ----

  datatype MoveError = NoDestination | Missing(path: Path) | InvalidMove | PathConflict
  datatype Failure = BadRoots(roots: RootsError) | BadMove(move: MoveError)

  predicate Moves(s: set<Entry>, root: Path, p: Path) {
    p == root || (HasDir(s, root) && root < p)
  }

  predicate Moving(s: set<Entry>, roots: seq<Path>, p: Path) {
    exists k | 0 <= k < |roots| :: Moves(s, roots[k], p)
  }

  /** Where a path goes: the last root that moves it decides. */
  function Target(s: set<Entry>, roots: seq<Path>, dest: Path, p: Path): Path
    requires [] !in roots
  {
    if roots == [] then p
    else
      var root := roots[|roots| - 1];
      if Moves(s, root, p) then dest + [Base(root)] + p[|root|..]
      else Target(s, roots[..|roots| - 1], dest, p)
  }

  function MoveAll(s: set<Entry>, roots: seq<Path>, dest: Path): set<Entry>
    requires [] !in roots
  {
    set e | e in s :: Entry(Target(s, roots, dest, e.path), e.node)
  }

  /** What is wrong with moving one root, whatever the others. */
  function RootProblem(s: set<Entry>, root: Path, dest: Path): Option<MoveError>
    requires root != []
  {
    var to := dest + [Base(root)];
    if !Has(s, root) then Some(Missing(root))
    else if to == root || (HasDir(s, root) && root < to) then Some(InvalidMove)
    else None
  }

  function FirstProblem(s: set<Entry>, roots: seq<Path>, dest: Path): Option<MoveError>
    requires [] !in roots
  {
    if roots == [] then None
    else
      var first := RootProblem(s, roots[0], dest);
      if first.Some? then first else FirstProblem(s, roots[1..], dest)
  }

  /** Two entries would end up at one path, at least one of them moved there. */
  predicate Collides(s: set<Entry>, roots: seq<Path>, dest: Path)
    requires [] !in roots
  {
    exists e, f | e in s && f in s && e != f ::
      Moving(s, roots, e.path) && Target(s, roots, dest, e.path) == Target(s, roots, dest, f.path)
  }

  function MoveVerdict(s: set<Entry>, roots: seq<Path>, dest: Path): Option<MoveError>
    requires [] !in roots
  {
    if dest != [] && !HasDir(s, dest) then Some(NoDestination)
    else
      var problem := FirstProblem(s, roots, dest);
      if problem.Some? then problem
      else if Collides(s, roots, dest) then Some(PathConflict)
      else None
  }

  lemma {:induction false} NoProblem(s: set<Entry>, roots: seq<Path>, dest: Path, k: nat)
    requires [] !in roots && FirstProblem(s, roots, dest).None? && k < |roots|
    ensures RootProblem(s, roots[k], dest).None?
  {
    if k > 0 {
      NoProblem(s, roots[1..], dest, k - 1);
    }
  }

  // ---- What a tree knows about ancestors ----

  lemma {:induction false} AncestorsAreDirs(s: set<Entry>, p: Path, q: Path)
    requires ParentsExist(s) && Has(s, p) && q < p && q != []
    ensures HasDir(s, q)
    decreases |p|
  {
    var e :| e in s && e.path == p;
    var parent := Parent(p);
    assert q <= parent;
    if q != parent {
      assert HasDir(s, parent);
      assert Has(s, parent);
      AncestorsAreDirs(s, parent, q);
    }
  }

  lemma MovesWithin(s: set<Entry>, root: Path, p: Path)
    requires ParentsExist(s) && Has(s, p) && root != []
    ensures Moves(s, root, p) <==> root <= p
  {
    if root < p {
      AncestorsAreDirs(s, p, root);
    }
  }

  // ---- One root at a time ----

  function Relocate(root: Path, dest: Path, p: Path): Path
    requires root != []
  {
    if root <= p then dest + [Base(root)] + p[|root|..] else p
  }

  function MoveOne(s: set<Entry>, root: Path, dest: Path): set<Entry>
    requires root != []
  {
    set e | e in s :: Entry(Relocate(root, dest, e.path), e.node)
  }

  /** One root may be moved: it exists, the destination is a directory outside it and not its
      parent, and nothing there has its name. */
  predicate CanMoveOne(s: set<Entry>, root: Path, dest: Path)
    requires root != []
  {
    && Has(s, root)
    && (dest == [] || HasDir(s, dest))
    && !(root <= dest)
    && Parent(root) != dest
    && !Has(s, dest + [Base(root)])
  }

  lemma NothingBelow(s: set<Entry>, q: Path, p: Path)
    requires ParentsExist(s) && !Has(s, q) && q != [] && q <= p
    ensures !Has(s, p)
  {
    if Has(s, p) && q < p {
      AncestorsAreDirs(s, p, q);
    }
  }

  lemma RelocateInjective(s: set<Entry>, root: Path, dest: Path, p: Path, q: Path)
    requires ParentsExist(s) && root != [] && CanMoveOne(s, root, dest) && Has(s, p) && Has(s, q)
    requires Relocate(root, dest, p) == Relocate(root, dest, q)
    ensures p == q
  {
    var to := dest + [Base(root)];
    if root <= p && root <= q {
      assert p[|root|..] == Relocate(root, dest, p)[|to|..] == q[|root|..];
      assert p == root + p[|root|..] && q == root + q[|root|..];
    } else if root <= p {
      NothingBelow(s, to, q);
    } else if root <= q {
      NothingBelow(s, to, p);
    }
  }

  lemma RelocateParent(s: set<Entry>, root: Path, dest: Path, p: Path)
    requires root != [] && p != []
    ensures Relocate(root, dest, p) != []
    ensures Parent(Relocate(root, dest, p)) == if p == root then dest else Relocate(root, dest, Parent(p))
  {
    if root < p {
      assert p[|root|..] == Parent(p)[|root|..] + [Base(p)];
    } else if p != root {
      assert !(root <= Parent(p));
    }
  }

  lemma RelocateDir(s: set<Entry>, root: Path, dest: Path, q: Path)
    requires root != [] && HasDir(s, q)
    ensures HasDir(MoveOne(s, root, dest), Relocate(root, dest, q))
  {
    var e :| e in s && e.path == q && e.node.isDirectory;
    assert Entry(Relocate(root, dest, q), e.node) in MoveOne(s, root, dest);
  }

  /** A move keeps the tree a tree. */
  lemma MoveOneKeepsTree(s: set<Entry>, root: Path, dest: Path)
    requires TreeOk(s) && root != [] && CanMoveOne(s, root, dest)
    ensures TreeOk(MoveOne(s, root, dest))
  {
    var t := MoveOne(s, root, dest);
    forall x | x in t ensures x.path != [] && (Parent(x.path) == [] || HasDir(t, Parent(x.path))) {
      var e :| e in s && x == Entry(Relocate(root, dest, e.path), e.node);
      RelocateParent(s, root, dest, e.path);
      if e.path == root {
        if dest != [] {
          RelocateDir(s, root, dest, dest);
        }
      } else if Parent(e.path) != [] {
        RelocateDir(s, root, dest, Parent(e.path));
      }
    }
    forall x, y | x in t && y in t && x.path == y.path ensures x == y {
      var e :| e in s && x == Entry(Relocate(root, dest, e.path), e.node);
      var f :| f in s && y == Entry(Relocate(root, dest, f.path), f.node);
      assert Has(s, e.path) && Has(s, f.path);
      RelocateInjective(s, root, dest, e.path, f.path);
    }
  }

  /** The roots moved one after the other. */
  function MoveInTurn(s: set<Entry>, roots: seq<Path>, dest: Path): set<Entry>
    requires [] !in roots
  {
    if roots == [] then s
    else MoveOne(MoveInTurn(s, roots[..|roots| - 1], dest), roots[|roots| - 1], dest)
  }
}
