/** Directory summaries across the operations of the namespace: if every stored summary was
    right before an operation, rebuilding only the directories that the operation names as
    ancestors makes every summary equal to a full recount after it. */
module SummaryUpkeep {
  import opened Wrappers
  import opened Paths
  import opened FlatTree
  import opened FlatMoves
  import opened NodeTree
  import opened NodeSpace
  import opened NodeNamespace
  import opened NodeAccounts
  import opened NodeMutations
  import opened Summaries
  import opened TreeSummaries

  predicate StrictlyBelow(l: Loc, top: Loc) {
    Below(l, top) && l != top
  }

  /** i hangs below the directory id, wherever that is. */
  predicate HangsUnder(f: set<Item>, id: nat, i: Item) {
    if id == RootNode.id then i.loc.trash.None?
    else exists j | j in f :: j.node.isDirectory && j.node.id == id && StrictlyBelow(i.loc, j.loc)
  }

  /** The nodes below the directory id; none if there is no such directory. */
  function Under(f: set<Item>, id: nat): set<Node> {
    set i | i in f && HangsUnder(f, id, i) :: i.node
  }

  /** Every stored summary counts what is below its directory. */
  ghost predicate Right(snapshots: map<nat, Summary>, f: set<Item>) {
    forall id | id in snapshots :: AsStats(snapshots[id]) == Count(Under(f, id))
  }

  /** An operation changed what is below no directory outside the dirty set. */
  ghost predicate OthersKept(f: set<Item>, f': set<Item>, dirty: set<nat>) {
    forall id | id !in dirty :: Under(f', id) == Under(f, id)
  }

  lemma UnderAt(f: set<Item>, l: Loc, id: nat)
    requires ForestOk(f) && DirAt(f, l, id)
    ensures Under(f, id) == NodesUnder(f, l)
  {
    forall i | i in f ensures HangsUnder(f, id, i) <==> StrictlyBelow(i.loc, l) {
    }
  }

  lemma LocatedSomewhere(f: set<Item>, id: nat) returns (l: Loc)
    requires Located(f, id) && ForestOk(f)
    ensures DirAt(f, l, id)
  {
    if id == RootNode.id {
      l := LiveRoot;
    } else {
      var j :| j in f && j.node.isDirectory && j.node.id == id;
      l := j.loc;
    }
  }

  // ---- A listing of a forest has no cycle ----

  ghost function Rank(f: set<Item>): nat -> nat {
    id => |Under(f, id)|
  }

  lemma {:induction false} FewerNodes(a: set<Node>, b: set<Node>)
    requires a <= b
    ensures |a| <= |b|
    decreases |a|
  {
    if a != {} {
      var n :| n in a;
      FewerNodes(a - {n}, b - {n});
    }
  }

  lemma ChildRanksBelow(f: set<Item>, l: Loc, id: nat, name: Name, n: Node)
    requires ForestOk(f) && DirAt(f, l, id) && Item(Down(l, name), n) in f && n.isDirectory
    ensures Rank(f)(n.id) < Rank(f)(id)
  {
    UnderAt(f, l, id);
    UnderAt(f, Down(l, name), n.id);
    BelowIsSelfAndUnder(f, Down(l, name), n);
    ChildUnder(f, l, name, n);
    FewerNodes(NodesUnder(f, Down(l, name)), NodesUnder(f, l) - {n});
  }

  lemma ChildUnder(f: set<Item>, l: Loc, name: Name, n: Node)
    requires Item(Down(l, name), n) in f && n !in NodesUnder(f, Down(l, name))
    ensures n in NodesUnder(f, l) && NodesUnder(f, Down(l, name)) <= NodesUnder(f, l) - {n}
  {
    assert StrictlyBelow(Item(Down(l, name), n).loc, l);
    forall m | m in NodesUnder(f, Down(l, name)) ensures m in NodesUnder(f, l) - {n} {
      var i :| i in f && StrictlyBelow(i.loc, Down(l, name)) && i.node == m;
      DeeperStill(i.loc, l, name);
    }
  }

  lemma DeeperStill(q: Loc, l: Loc, name: Name)
    requires StrictlyBelow(q, Down(l, name))
    ensures StrictlyBelow(q, l)
  {
    assert Down(l, name).path[..|l.path|] == l.path;
    assert q.path[..|l.path|] == Down(l, name).path[..|l.path|];
  }

  /** The recursion over a forest terminates: every child ranks below its parent. */
  lemma ForestRanked(g: Graph, f: set<Item>, listing: Listing, entries: map<nat, seq<ShardEntry>>)
    requires ForestOk(f) && Represents(g, f) && NoStrays(g, f) && ListingOf(g, listing, entries)
    ensures Ranked(listing, Rank(f))
  {
    forall id, k | id in listing && 0 <= k < |listing[id]| && listing[id][k].Dir? ensures Rank(f)(listing[id][k].id) < Rank(f)(id) {
      var e := EntriesAt(entries, id)[k];
      assert NodeMutations.Lists(g, id, EntriesAt(entries, id)) && Child(g, id, e.name) == Some(e.node);
      var l := LocatedSomewhere(f, id);
      ChildFound(g, f, l, id, e);
      ChildRanksBelow(f, l, id, e.name, e.node);
    }
  }

  lemma StrayListsNothing(g: Graph, f: set<Item>, listing: Listing, entries: map<nat, seq<ShardEntry>>, id: nat)
    requires NoStrays(g, f) && ListingOf(g, listing, entries) && !Located(f, id)
    ensures Kids(listing, id) == []
  {
    var es := EntriesAt(entries, id);
    assert NodeMutations.Lists(g, id, es);
    if es != [] {
      ListsInPlace(g, f, es, id);
    }
  }

  lemma ListsInPlace(g: Graph, f: set<Item>, es: seq<ShardEntry>, id: nat)
    requires NoStrays(g, f) && NodeMutations.Lists(g, id, es) && es != []
    ensures Located(f, id)
  {
    assert Child(g, id, es[0].name) == Some(es[0].node);
  }

  /** Of every directory, in place or not, the recount counts what is below it. */
  lemma RecountIsUnder(g: Graph, f: set<Item>, listing: Listing, entries: map<nat, seq<ShardEntry>>, id: nat)
    requires ForestOk(f) && Represents(g, f) && NoStrays(g, f) && ListingOf(g, listing, entries) && Ranked(listing, Rank(f))
    ensures AsStats(Recount(listing, Rank(f), id)) == Count(Under(f, id))
  {
    if Located(f, id) {
      var l := LocatedSomewhere(f, id);
      UnderAt(f, l, id);
      RecountIsCount(g, f, listing, entries, Rank(f), l, id);
    } else {
      EmptyCounts();
      StrayListsNothing(g, f, listing, entries, id);
      assert Under(f, id) == {};
    }
  }

  lemma SameStats(a: Summary, b: Summary)
    requires AsStats(a) == AsStats(b)
    ensures a == b
  {
  }

  /** Reads all shards into one listing. */
  method BuildListing(t: Tree) returns (listing: Listing, ghost entries: map<nat, seq<ShardEntry>>)
    requires t.Valid()
    ensures ListingOf(t.graph, listing, entries)
  {
    listing, entries := map[], map[];
    var rest := set key | key in t.graph.shards :: key.0;
    ghost var all := rest;
    while rest != {}
      invariant rest <= all && listing.Keys == entries.Keys == all - rest
      invariant forall id | id in entries :: NodeMutations.Lists(t.graph, id, entries[id]) && listing[id] == KidsOf(entries[id])
    {
      var id :| id in rest;
      var es := DirectoryEntries(t, id);
      listing, entries := listing[id := KidsOf(es)], entries[id := es];
      rest := rest - {id};
    }
    forall id: nat ensures NodeMutations.Lists(t.graph, id, EntriesAt(entries, id)) && Kids(listing, id) == KidsOf(EntriesAt(entries, id)) {
      if id !in entries {
        forall name ensures Child(t.graph, id, name).None? {
          assert (id, t.graph.shardOf(name)) !in t.graph.shards;
        }
      }
    }
  }

  /** After an operation that kept what is below the directories it does not name, rebuilding
      the ones it names succeeds and makes every stored summary right. */
  method Upkeep(store: SummaryStore, listing: Listing, dirty: set<nat>,
                ghost g: Graph, ghost f: set<Item>, ghost f': set<Item>, ghost entries: map<nat, seq<ShardEntry>>)
    returns (ok: bool)
    requires ForestOk(f') && Represents(g, f') && NoStrays(g, f') && ListingOf(g, listing, entries)
    requires Right(store.snapshots, f) && OthersKept(f, f', dirty)
    modifies store
    ensures ok && dirty <= store.snapshots.Keys && old(store.snapshots).Keys <= store.snapshots.Keys
    ensures Right(store.snapshots, f')
  {
    ForestRanked(g, f', listing, entries);
    forall id | id in store.snapshots && id !in dirty ensures store.snapshots[id] == Recount(listing, Rank(f'), id) {
      RecountIsUnder(g, f', listing, entries, id);
      SameStats(store.snapshots[id], Recount(listing, Rank(f'), id));
    }
    ok := store.RebuildSummaries(listing, dirty, Rank(f'));
    forall id | id in store.snapshots ensures AsStats(store.snapshots[id]) == Count(Under(f', id)) {
      RecountIsUnder(g, f', listing, entries, id);
    }
  }

  // ---- What the operations keep ----

  /** ids holds every directory above l. */
  predicate HoldsAbove(f: set<Item>, l: Loc, ids: set<nat>) {
    && (l.trash.None? ==> RootNode.id in ids)
    && forall j | j in f && j.node.isDirectory && StrictlyBelow(l, j.loc) :: j.node.id in ids
  }

  /** The ids that resolving the parent passes are such a set. */
  lemma ChainHolds(f: set<Item>, path: Path, chain: seq<nat>, ids: set<nat>)
    requires ForestOk(f) && path != [] && Chained(f, Parent(path), chain) && forall k | 0 <= k < |chain| :: chain[k] in ids
    ensures HoldsAbove(f, Loc(None, path), ids)
  {
    assert OnTheWay(f, Parent(path), 0, chain);
    forall j | j in f && j.node.isDirectory && StrictlyBelow(Loc(None, path), j.loc) ensures j.node.id in ids {
      var i := |j.loc.path|;
      assert j.loc.path == Parent(path)[..i];
      assert OnTheWay(f, Parent(path), i, chain);
      var k :| 0 <= k < |chain| && DirAt(f, Loc(None, Parent(path)[..i]), chain[k]);
      OneId(f, j.loc, j.node.id, chain[k]);
    }
  }

  lemma ManifestAbove(f: set<Item>, id: string, ids: set<nat>)
    requires ForestOk(f)
    ensures HoldsAbove(f, Loc(Some(id), []), ids)
  {
  }

  /** A new leaf is below the directories above it only. */
  lemma LeafKept(f: set<Item>, l: Loc, n: Node, ids: set<nat>)
    requires ForestOk(f) && !Occupied(f, l) && HoldsAbove(f, l, ids) && forall i | i in f :: i.node.id != n.id
    requires n.id != RootNode.id
    ensures OthersKept(f, f + {Item(l, n)}, ids)
  {
    var f', x := f + {Item(l, n)}, Item(l, n);
    forall id | id !in ids ensures Under(f', id) == Under(f, id) {
      forall i | i in f ensures HangsUnder(f', id, i) <==> HangsUnder(f, id, i) {
        LeafHangs(f, l, n, id, i);
      }
      assert !HangsUnder(f', id, x);
    }
  }

  lemma LeafHangs(f: set<Item>, l: Loc, n: Node, id: nat, i: Item)
    requires ForestOk(f) && !Occupied(f, l) && i in f
    ensures HangsUnder(f + {Item(l, n)}, id, i) <==> HangsUnder(f, id, i)
  {
    if StrictlyBelow(i.loc, l) {
      NothingUnder(f, l, i.loc);
    }
  }

  /** So is a removed one. */
  lemma CutKept(f: set<Item>, l: Loc, n: Node, ids: set<nat>)
    requires ForestOk(f) && Item(l, n) in f && ForestOk(f - {Item(l, n)}) && HoldsAbove(f, l, ids)
    ensures OthersKept(f, f - {Item(l, n)}, ids)
  {
    var rest := f - {Item(l, n)};
    LeafKept(rest, l, n, ids);
    assert rest + {Item(l, n)} == f;
  }

  /** And a file whose content changes. */
  lemma UpdateKept(f: set<Item>, l: Loc, n: Node, n': Node, ids: set<nat>)
    requires ForestOk(f) && Item(l, n) in f && !n.isDirectory && n'.id == n.id && HoldsAbove(f, l, ids)
    ensures OthersKept(f, f - {Item(l, n)} + {Item(l, n')}, ids)
  {
    var rest := f - {Item(l, n)};
    forall i | i in rest ensures i.loc != LiveRoot && (i.loc.path == [] || IsDirAt(rest, Up(i.loc))) {
      assert i.loc.path == [] || IsDirAt(f, Up(i.loc));
    }
    CutKept(f, l, n, ids);
    LeafKept(rest, l, n', ids);
  }

  /** Every directory outside ids is above both places or above neither. */
  predicate AboveAlike(f: set<Item>, from: Loc, to: Loc, ids: set<nat>) {
    && (RootNode.id !in ids ==> (from.trash.None? <==> to.trash.None?))
    && forall j | j in f && j.node.isDirectory && j.node.id !in ids :: StrictlyBelow(from, j.loc) <==> StrictlyBelow(to, j.loc)
  }

  /** A relocation keeps what is below what, of every directory that is above both places or
      above neither. */
  lemma RelocatedBelow(f: set<Item>, from: Loc, to: Loc, n: Node, ids: set<nat>, j: Item, i: Item)
    requires ForestOk(f) && CanRelink(f, from, to, n) && AboveAlike(f, from, to, ids)
    requires j in f && i in f && j.node.isDirectory && j.node.id !in ids
    ensures StrictlyBelow(Shift(i.loc, from, to), Shift(j.loc, from, to)) <==> StrictlyBelow(i.loc, j.loc)
  {
    if Below(j.loc, from) {
      if Below(i.loc, from) {
        ShiftedBelow(from, to, j.loc, i.loc);
      } else {
        NotIntoNew(f, from, to, n, i);
      }
    } else if Below(i.loc, from) {
      NotIntoNew(f, from, to, n, j);
      OutOrOver(j.loc, from, i.loc);
      OutOrOver(j.loc, to, Shift(i.loc, from, to));
    }
  }

  /** What is below l is below a place that l is not inside exactly if l is. */
  lemma OutOrOver(top: Loc, l: Loc, below: Loc)
    requires Below(below, l) && !Below(top, l)
    ensures StrictlyBelow(below, top) <==> StrictlyBelow(l, top)
  {
    if StrictlyBelow(below, top) {
      PrefixesCompare(top.path, l.path, below.path);
    }
  }

  lemma NotIntoNew(f: set<Item>, from: Loc, to: Loc, n: Node, i: Item)
    requires ForestOk(f) && CanRelink(f, from, to, n) && i in f && !Below(i.loc, from)
    ensures !Below(i.loc, to)
  {
    if Below(i.loc, to) {
      NothingUnder(f, to, i.loc);
      assert Occupied(f, i.loc);
    }
  }

  lemma ShiftedBelow(from: Loc, to: Loc, l: Loc, l': Loc)
    requires Below(l, from) && Below(l', from)
    ensures StrictlyBelow(Shift(l', from, to), Shift(l, from, to)) <==> StrictlyBelow(l', l)
  {
    ShiftBack(l, from, to);
    ShiftBack(l', from, to);
    var a, b := l.path[|from.path|..], l'.path[|from.path|..];
    assert l.path == from.path + a && l'.path == from.path + b;
    SamePrefix(from.path, a, b);
    SamePrefix(to.path, a, b);
  }

  lemma SamePrefix(p: Path, a: Path, b: Path)
    ensures p + a <= p + b <==> a <= b
    ensures p + a == p + b <==> a == b
  {
    if p + a <= p + b {
      assert forall k | 0 <= k < |a| :: a[k] == (p + a)[|p| + k] == (p + b)[|p| + k] == b[k];
    }
  }

  lemma AlikeKept(f: set<Item>, from: Loc, to: Loc, n: Node, ids: set<nat>)
    requires ForestOk(f) && CanRelink(f, from, to, n) && AboveAlike(f, from, to, ids)
    ensures OthersKept(f, Relocated(f, from, to), ids)
  {
    forall id | id !in ids ensures Under(Relocated(f, from, to), id) == Under(f, id) {
      forall m | m in Under(f, id) ensures m in Under(Relocated(f, from, to), id) {
        RelocatedStays(f, from, to, n, ids, id, m);
      }
      forall m | m in Under(Relocated(f, from, to), id) ensures m in Under(f, id) {
        RelocatedWas(f, from, to, n, ids, id, m);
      }
    }
  }

  /** Renames, trashing and restoring change only what is below the directories above the old
      place and the new one. */
  lemma RelocateKept(f: set<Item>, from: Loc, to: Loc, n: Node, ids: set<nat>)
    requires ForestOk(f) && CanRelink(f, from, to, n) && HoldsAbove(f, from, ids) && HoldsAbove(f, to, ids)
    ensures OthersKept(f, Relocated(f, from, to), ids)
  {
    AlikeKept(f, from, to, n, ids);
  }

  lemma AboveSibling(l: Loc, top: Loc)
    requires l.path != []
    ensures StrictlyBelow(l, top) <==> Below(Up(l), top)
  {
    if StrictlyBelow(l, top) {
      assert |top.path| < |l.path|;
      assert top.path == l.path[..|top.path|];
    }
    if Below(Up(l), top) {
      assert Up(l).path <= l.path;
    }
  }

  /** A rename inside one directory leaves every summary right. */
  lemma RenameInPlaceKept(f: set<Item>, from: Loc, to: Loc, n: Node)
    requires ForestOk(f) && CanRelink(f, from, to, n) && from.path != [] && to.path != [] && Up(from) == Up(to)
    ensures OthersKept(f, Relocated(f, from, to), {})
  {
    forall j | j in f ensures StrictlyBelow(from, j.loc) <==> StrictlyBelow(to, j.loc) {
      AboveSibling(from, j.loc);
      AboveSibling(to, j.loc);
    }
    AlikeKept(f, from, to, n, {});
  }

  lemma RelocatedStays(f: set<Item>, from: Loc, to: Loc, n: Node, ids: set<nat>, id: nat, m: Node)
    requires ForestOk(f) && CanRelink(f, from, to, n) && AboveAlike(f, from, to, ids)
    requires id !in ids && m in Under(f, id)
    ensures m in Under(Relocated(f, from, to), id)
  {
    var f' := Relocated(f, from, to);
    var i :| i in f && HangsUnder(f, id, i) && i.node == m;
    var i' := Item(Shift(i.loc, from, to), i.node);
    assert i' in f';
    if id != RootNode.id {
      var j :| j in f && j.node.isDirectory && j.node.id == id && StrictlyBelow(i.loc, j.loc);
      assert Item(Shift(j.loc, from, to), j.node) in f';
      RelocatedBelow(f, from, to, n, ids, j, i);
      assert HangsUnder(f', id, i');
    }
  }

  lemma RelocatedWas(f: set<Item>, from: Loc, to: Loc, n: Node, ids: set<nat>, id: nat, m: Node)
    requires ForestOk(f) && CanRelink(f, from, to, n) && AboveAlike(f, from, to, ids)
    requires id !in ids && m in Under(Relocated(f, from, to), id)
    ensures m in Under(f, id)
  {
    var f' := Relocated(f, from, to);
    var i' :| i' in f' && HangsUnder(f', id, i') && i'.node == m;
    var i :| i in f && i' == Item(Shift(i.loc, from, to), i.node);
    if id != RootNode.id {
      var j' :| j' in f' && j'.node.isDirectory && j'.node.id == id && StrictlyBelow(i'.loc, j'.loc);
      var j :| j in f && j' == Item(Shift(j.loc, from, to), j.node);
      RelocatedBelow(f, from, to, n, ids, j, i);
      assert HangsUnder(f, id, i);
    }
  }

  // ---- Moves of several roots ----

  /** The directory at p is on the way to no root and not on the way to the destination. */
  predicate OffTheWay(roots: seq<Path>, dest: Path, p: Path) {
    !(p <= dest) && forall k | 0 <= k < |roots| :: !(p < roots[k])
  }

  lemma ChainsMissed(f: set<Item>, roots: seq<Path>, dest: Path, chain: seq<nat>, ids: set<nat>, j: Item)
    requires ForestOk(f) && [] !in roots && forall k | 0 <= k < |chain| :: chain[k] in ids
    requires Chained(f, dest, chain) && forall k | 0 <= k < |roots| :: Chained(f, Parent(roots[k]), chain)
    requires j in f && j.node.isDirectory && j.loc.trash.None? && j.node.id !in ids
    ensures OffTheWay(roots, dest, j.loc.path)
  {
    if j.loc.path <= dest {
      OnChain(f, dest, chain, j);
    }
    forall k | 0 <= k < |roots| ensures !(j.loc.path < roots[k]) {
      if j.loc.path < roots[k] {
        OnChain(f, Parent(roots[k]), chain, j);
      }
    }
  }

  lemma OnChain(f: set<Item>, p: Path, chain: seq<nat>, j: Item)
    requires ForestOk(f) && Chained(f, p, chain) && j in f && j.node.isDirectory && j.loc.trash.None? && j.loc.path <= p
    ensures exists k | 0 <= k < |chain| :: chain[k] == j.node.id
  {
    var i := |j.loc.path|;
    assert j.loc.path == p[..i] && j.loc == Loc(None, p[..i]);
    assert OnTheWay(f, p, i, chain);
    var k :| 0 <= k < |chain| && DirAt(f, Loc(None, p[..i]), chain[k]);
    OneId(f, j.loc, j.node.id, chain[k]);
  }

  /** A move keeps what is below what, of every directory that is not on the way to a root or
      to the destination. */
  lemma TargetBelow(s: set<Entry>, roots: seq<Path>, dest: Path, p: Path, q: Path)
    requires Movable(s, roots, dest) && NamesFree(s, roots, dest) && Has(s, p) && Has(s, q) && OffTheWay(roots, dest, p)
    ensures p < q <==> Target(s, roots, dest, p) < Target(s, roots, dest, q)
  {
    if k :| 0 <= k < |roots| && roots[k] <= p {
      TargetMoved(s, roots, dest, p, k);
      if roots[k] <= q {
        TargetMoved(s, roots, dest, q, k);
        RelocatedTogether(roots[k], dest, p, q);
      } else {
        NotAmongMoved(s, roots, dest, q, k);
      }
    } else {
      TargetUnmoved(s, roots, dest, p);
      if k :| 0 <= k < |roots| && roots[k] <= q {
        TargetMoved(s, roots, dest, q, k);
        MovedElsewhere(s, roots, dest, p, q, k);
      } else {
        TargetUnmoved(s, roots, dest, q);
      }
    }
  }

  lemma RelocatedTogether(root: Path, dest: Path, p: Path, q: Path)
    requires root != [] && root <= p && root <= q
    ensures p < q <==> Relocate(root, dest, p) < Relocate(root, dest, q)
  {
    assert p == root + p[|root|..] && q == root + q[|root|..];
    SamePrefix(root, p[|root|..], q[|root|..]);
    SamePrefix(dest + [Base(root)], p[|root|..], q[|root|..]);
  }

  /** What the k-th root does not contain is not under its new place afterwards. */
  lemma NotAmongMoved(s: set<Entry>, roots: seq<Path>, dest: Path, q: Path, k: nat)
    requires Movable(s, roots, dest) && NamesFree(s, roots, dest) && Has(s, q) && k < |roots| && !(roots[k] <= q)
    ensures !(dest + [Base(roots[k])] <= Target(s, roots, dest, q))
  {
    assert NameFree(s, roots, dest, k);
    if j :| 0 <= j < |roots| && roots[j] <= q {
      assert NameFree(s, roots, dest, j);
      TargetMoved(s, roots, dest, q, j);
      assert Target(s, roots, dest, q)[|dest|] == Base(roots[j]) != Base(roots[k]);
    } else {
      TargetUnmoved(s, roots, dest, q);
      if dest + [Base(roots[k])] <= q {
        NothingBelow(s, dest + [Base(roots[k])], q);
      }
    }
  }

  /** A directory that did not move has gained nothing and lost nothing to the k-th root. */
  lemma MovedElsewhere(s: set<Entry>, roots: seq<Path>, dest: Path, p: Path, q: Path, k: nat)
    requires Movable(s, roots, dest) && NamesFree(s, roots, dest) && Has(s, p) && OffTheWay(roots, dest, p)
    requires k < |roots| && roots[k] <= q && !(roots[k] <= p)
    ensures !(p < q) && !(p < Relocate(roots[k], dest, q))
  {
    var to := dest + [Base(roots[k])];
    if p < q {
      PrefixesCompare(p, roots[k], q);
    }
    if p < Relocate(roots[k], dest, q) {
      PrefixesCompare(p, to, Relocate(roots[k], dest, q));
      assert NameFree(s, roots, dest, k);
      if to <= p {
        NothingBelow(s, to, p);
      }
    }
  }

  /** The pair of a directory and a node below it, before a move and after it. */
  lemma MovedUnder(f: set<Item>, f': set<Item>, roots: seq<Path>, dest: Path, j: Item, i: Item, j': Item, i': Item)
    requires var s := LiveEntries(f); Movable(s, roots, dest) && NamesFree(s, roots, dest)
    requires j in f && i in f && j.loc.trash.None? && i.loc.trash.None? && OffTheWay(roots, dest, j.loc.path)
    requires var s := LiveEntries(f);
      && j'.loc == Loc(None, Target(s, roots, dest, j.loc.path)) && i'.loc == Loc(None, Target(s, roots, dest, i.loc.path))
    ensures StrictlyBelow(i'.loc, j'.loc) <==> StrictlyBelow(i.loc, j.loc)
  {
    var s := LiveEntries(f);
    assert Entry(j.loc.path, j.node) in s && Entry(i.loc.path, i.node) in s;
    TargetBelow(s, roots, dest, j.loc.path, i.loc.path);
  }

  ghost predicate Moved(f: set<Item>, f': set<Item>, roots: seq<Path>, dest: Path) {
    && Movable(LiveEntries(f), roots, dest) && NamesFree(LiveEntries(f), roots, dest)
    && SameTrash(f, f') && LiveEntries(f') == MoveAll(LiveEntries(f), roots, dest)
  }

  function MovedItem(s: set<Entry>, roots: seq<Path>, dest: Path, i: Item): Item
    requires [] !in roots
  {
    if i.loc.trash.None? then Item(Loc(None, Target(s, roots, dest, i.loc.path)), i.node) else i
  }

  lemma MovedTo(f: set<Item>, f': set<Item>, roots: seq<Path>, dest: Path, i: Item)
    requires Moved(f, f', roots, dest) && i in f
    ensures MovedItem(LiveEntries(f), roots, dest, i) in f'
  {
    var s := LiveEntries(f);
    if i.loc.trash.None? {
      assert Entry(i.loc.path, i.node) in s;
      var x := Entry(Target(s, roots, dest, i.loc.path), i.node);
      assert x in LiveEntries(f');
      var i' :| i' in f' && i'.loc.trash.None? && x == Entry(i'.loc.path, i'.node);
      assert i' == MovedItem(s, roots, dest, i);
    } else {
      assert i in TrashItems(f) && i in TrashItems(f');
    }
  }

  lemma MovedFrom(f: set<Item>, f': set<Item>, roots: seq<Path>, dest: Path, i': Item) returns (i: Item)
    requires Moved(f, f', roots, dest) && i' in f'
    ensures i in f && MovedItem(LiveEntries(f), roots, dest, i) == i'
  {
    var s := LiveEntries(f);
    if i'.loc.trash.None? {
      assert Entry(i'.loc.path, i'.node) in LiveEntries(f');
      var e :| e in s && Entry(i'.loc.path, i'.node) == Entry(Target(s, roots, dest, e.path), e.node);
      i :| i in f && i.loc.trash.None? && e == Entry(i.loc.path, i.node);
    } else {
      assert i' in TrashItems(f') && i' in TrashItems(f);
      i := i';
    }
  }

  lemma MovedHangs(f: set<Item>, f': set<Item>, roots: seq<Path>, dest: Path, chain: seq<nat>, ids: set<nat>, j: Item, i: Item)
    requires ForestOk(f) && Moved(f, f', roots, dest) && forall k | 0 <= k < |chain| :: chain[k] in ids
    requires Chained(f, dest, chain) && forall k | 0 <= k < |roots| :: Chained(f, Parent(roots[k]), chain)
    requires j in f && i in f && j.node.isDirectory && j.node.id !in ids
    ensures var s := LiveEntries(f);
      StrictlyBelow(MovedItem(s, roots, dest, i).loc, MovedItem(s, roots, dest, j).loc) <==> StrictlyBelow(i.loc, j.loc)
  {
    var s := LiveEntries(f);
    if i.loc.trash.None? && j.loc.trash.None? {
      ChainsMissed(f, roots, dest, chain, ids, j);
      MovedUnder(f, f', roots, dest, j, i, MovedItem(s, roots, dest, j), MovedItem(s, roots, dest, i));
    }
  }

  /** A move of any number of roots changes only what is below the directories on the way to
      the roots and to the destination: the ancestors that movePaths reports. */
  lemma MoveKept(f: set<Item>, f': set<Item>, roots: seq<Path>, dest: Path, chain: seq<nat>, ids: set<nat>)
    requires ForestOk(f) && Moved(f, f', roots, dest) && forall k | 0 <= k < |chain| :: chain[k] in ids
    requires Chained(f, dest, chain) && forall k | 0 <= k < |roots| :: Chained(f, Parent(roots[k]), chain)
    ensures OthersKept(f, f', ids)
  {
    forall id | id !in ids ensures Under(f', id) == Under(f, id) {
      assert OnTheWay(f, dest, 0, chain);
      assert id != RootNode.id;
      forall m | m in Under(f, id) ensures m in Under(f', id) {
        MovedStaysUnder(f, f', roots, dest, chain, ids, id, m);
      }
      forall m | m in Under(f', id) ensures m in Under(f, id) {
        MovedWasUnder(f, f', roots, dest, chain, ids, id, m);
      }
    }
  }

  function Listed(ids: seq<nat>): set<nat> {
    set k | 0 <= k < |ids| :: ids[k]
  }

  /** So after a successful movePaths the ancestors it returns are all that has to be rebuilt. */
  lemma MovePathsKept(f: set<Item>, f': set<Item>, roots: seq<Path>, dest: Path, ancestors: seq<nat>)
    requires ForestOk(f) && Antichain(roots) && [] !in roots && MoveVerdict(LiveEntries(f), roots, dest).None?
    requires SameTrash(f, f') && LiveEntries(f') == MoveAll(LiveEntries(f), roots, dest)
    requires Chained(f, dest, ancestors) && forall k | 0 <= k < |roots| :: Chained(f, Parent(roots[k]), ancestors)
    ensures OthersKept(f, f', Listed(ancestors))
  {
    LiveTree(f);
    VerdictNone(LiveEntries(f), roots, dest);
    MoveKept(f, f', roots, dest, ancestors, Listed(ancestors));
  }

  lemma MovedStaysUnder(f: set<Item>, f': set<Item>, roots: seq<Path>, dest: Path, chain: seq<nat>, ids: set<nat>, id: nat, m: Node)
    requires ForestOk(f) && Moved(f, f', roots, dest) && forall k | 0 <= k < |chain| :: chain[k] in ids
    requires Chained(f, dest, chain) && forall k | 0 <= k < |roots| :: Chained(f, Parent(roots[k]), chain)
    requires id !in ids && id != RootNode.id && m in Under(f, id)
    ensures m in Under(f', id)
  {
    var i :| i in f && HangsUnder(f, id, i) && i.node == m;
    var j :| j in f && j.node.isDirectory && j.node.id == id && StrictlyBelow(i.loc, j.loc);
    MovedTo(f, f', roots, dest, i);
    MovedTo(f, f', roots, dest, j);
    MovedHangs(f, f', roots, dest, chain, ids, j, i);
    assert HangsUnder(f', id, MovedItem(LiveEntries(f), roots, dest, i));
  }

  lemma MovedWasUnder(f: set<Item>, f': set<Item>, roots: seq<Path>, dest: Path, chain: seq<nat>, ids: set<nat>, id: nat, m: Node)
    requires ForestOk(f) && Moved(f, f', roots, dest) && forall k | 0 <= k < |chain| :: chain[k] in ids
    requires Chained(f, dest, chain) && forall k | 0 <= k < |roots| :: Chained(f, Parent(roots[k]), chain)
    requires id !in ids && id != RootNode.id && m in Under(f', id)
    ensures m in Under(f, id)
  {
    var i' :| i' in f' && HangsUnder(f', id, i') && i'.node == m;
    var j' :| j' in f' && j'.node.isDirectory && j'.node.id == id && StrictlyBelow(i'.loc, j'.loc);
    var i := MovedFrom(f, f', roots, dest, i');
    var j := MovedFrom(f, f', roots, dest, j');
    MovedHangs(f, f', roots, dest, chain, ids, j, i);
    assert HangsUnder(f, id, i);
  }
}
