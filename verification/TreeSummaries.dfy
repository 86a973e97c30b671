/** What directory summaries mean in the namespace: a full recount of the shards counts exactly
    the nodes below the directory, and an operation changes that count only for the directories
    it names as ancestors. */
module TreeSummaries {
  import opened Wrappers
  import opened Paths
  import opened FlatTree
  import opened FlatMoves
  import opened NodeTree
  import opened NodeSpace
  import opened NodeNamespace
  import opened NodeAccounts
  import opened NodeMutations
  import opened Summaries

  /** The nodes strictly below a location. */
  function NodesUnder(f: set<Item>, l: Loc): set<Node> {
    set i | i in f && Below(i.loc, l) && i.loc != l :: i.node
  }

  function AsStats(s: Summary): Stats {
    Stats(s.files, s.directories, s.bytes)
  }

  function KidOf(e: ShardEntry): Kid {
    if e.node.isDirectory then Dir(e.node.id) else File(e.node.content.size)
  }

  /** A listing of the graph: for each directory id its entries, in any order. */
  ghost predicate ListingOf(g: Graph, listing: Listing, entries: map<nat, seq<ShardEntry>>) {
    forall id: nat :: NodeMutations.Lists(g, id, EntriesAt(entries, id)) && Kids(listing, id) == KidsOf(EntriesAt(entries, id))
  }

  function EntriesAt(entries: map<nat, seq<ShardEntry>>, id: nat): seq<ShardEntry> {
    if id in entries then entries[id] else []
  }

  function KidsOf(entries: seq<ShardEntry>): seq<Kid> {
    seq(|entries|, i requires 0 <= i < |entries| => KidOf(entries[i]))
  }

  /** The nodes below the first k children of a directory, the children included. */
  function NodesUpTo(f: set<Item>, l: Loc, entries: seq<ShardEntry>, k: nat): set<Node>
    requires k <= |entries|
  {
    if k == 0 then {} else NodesUpTo(f, l, entries, k - 1) + NodesBelow(f, Down(l, entries[k - 1].name))
  }

  lemma {:induction false} InNodesUpTo(f: set<Item>, l: Loc, entries: seq<ShardEntry>, k: nat, n: Node)
    requires k <= |entries|
    ensures n in NodesUpTo(f, l, entries, k) <==> exists j | 0 <= j < k :: n in NodesBelow(f, Down(l, entries[j].name))
  {
    if k > 0 {
      InNodesUpTo(f, l, entries, k - 1, n);
    }
  }

  lemma ChildNodesApart(f: set<Item>, l: Loc, entries: seq<ShardEntry>, k: nat, n: Node)
    requires IdsUnique(f) && k < |entries| && NamesDiffer(entries)
    requires n in NodesUpTo(f, l, entries, k)
    ensures n !in NodesBelow(f, Down(l, entries[k].name))
  {
    InNodesUpTo(f, l, entries, k, n);
    var j :| 0 <= j < k && n in NodesBelow(f, Down(l, entries[j].name));
    var i :| i in f && Below(i.loc, Down(l, entries[j].name)) && i.node == n;
    forall i' | i' in f && Below(i'.loc, Down(l, entries[k].name)) ensures i'.node != n {
      assert i'.loc.path[|l.path|] == entries[k].name && i.loc.path[|l.path|] == entries[j].name;
    }
  }

  /** Below a directory, each node is below one of its children. */
  lemma UnderIsUpTo(g: Graph, f: set<Item>, l: Loc, id: nat, entries: seq<ShardEntry>)
    requires ForestOk(f) && Represents(g, f) && DirAt(f, l, id) && NodeMutations.Lists(g, id, entries)
    ensures NodesUnder(f, l) == NodesUpTo(f, l, entries, |entries|)
  {
    forall n | n in NodesUnder(f, l) ensures n in NodesUpTo(f, l, entries, |entries|) {
      var i :| i in f && Below(i.loc, l) && i.loc != l && i.node == n;
      OneStepDown(g, f, l, id, i);
      assert Named(entries, i.loc.path[|l.path|]);
      var j :| 0 <= j < |entries| && entries[j].name == i.loc.path[|l.path|];
      assert n in NodesBelow(f, Down(l, entries[j].name));
      InNodesUpTo(f, l, entries, |entries|, n);
    }
    forall n | n in NodesUpTo(f, l, entries, |entries|) ensures n in NodesUnder(f, l) {
      InNodesUpTo(f, l, entries, |entries|, n);
      var j :| 0 <= j < |entries| && n in NodesBelow(f, Down(l, entries[j].name));
      var i :| i in f && Below(i.loc, Down(l, entries[j].name)) && i.node == n;
      assert Below(i.loc, l) && i.loc != l;
    }
  }

  /** A child's subtree is the child and what is under it. */
  lemma BelowIsSelfAndUnder(f: set<Item>, c: Loc, n: Node)
    requires ForestOk(f) && Item(c, n) in f
    ensures NodesBelow(f, c) == NodesUnder(f, c) + {n} && n !in NodesUnder(f, c)
  {
    forall m | m in NodesBelow(f, c) ensures m in NodesUnder(f, c) || m == n {
      var i :| i in f && Below(i.loc, c) && i.node == m;
    }
  }

  lemma AddFile(s: Summary, nodes: set<Node>, n: Node, all: set<Node>)
    requires AsStats(s) == Count(nodes) && !n.isDirectory && all == {n} && nodes !! all
    ensures AsStats(Plus(s, Summary(1, 0, n.content.size))) == Count(nodes + all)
  {
    CountMore(nodes, n, nodes + all, AsStats(s));
  }

  lemma KidAt(g: Graph, f: set<Item>, listing: Listing, entries: map<nat, seq<ShardEntry>>, rank: nat -> nat, l: Loc, id: nat, k: nat)
    requires ForestOk(f) && Represents(g, f) && ListingOf(g, listing, entries) && Ranked(listing, rank) && DirAt(f, l, id)
    requires k < |EntriesAt(entries, id)|
    ensures k < |Kids(listing, id)| && Kids(listing, id)[k] == KidOf(EntriesAt(entries, id)[k])
    ensures NamesDiffer(EntriesAt(entries, id))
    ensures var e := EntriesAt(entries, id)[k];
      && Item(Down(l, e.name), e.node) in f
      && (e.node.isDirectory ==> DirAt(f, Down(l, e.name), e.node.id) && rank(e.node.id) < rank(id))
  {
    ChildFound(g, f, l, id, EntriesAt(entries, id)[k]);
  }

  lemma DirSums(s: Summary, below: Summary, a: Stats, b: Stats, c: Stats, d: Stats)
    requires AsStats(s) == a && AsStats(below) == b && c == Add(b, Stats(0, 1, 0)) && d == Add(a, c)
    ensures AsStats(Plus(Plus(s, Summary(0, 1, 0)), below)) == d
  {
  }

  lemma AddDir(s: Summary, nodes: set<Node>, n: Node, below: Summary, under: set<Node>, all: set<Node>)
    requires AsStats(s) == Count(nodes) && AsStats(below) == Count(under) && n.isDirectory
    requires n !in under && all == under + {n} && nodes !! all
    ensures AsStats(Plus(Plus(s, Summary(0, 1, 0)), below)) == Count(nodes + all)
  {
    CountMore(under, n, all, AsStats(below));
    CountApart(nodes, all);
    DirSums(s, below, AsStats(s), AsStats(below), Count(all), Count(nodes + all));
  }

  lemma EmptyCounts()
    ensures AsStats(Summary(0, 0, 0)) == Count({})
  {
  }

  /** The full recount of a directory is the count of the nodes below it. */
  lemma {:induction false} RecountIsCount(g: Graph, f: set<Item>, listing: Listing, entries: map<nat, seq<ShardEntry>>,
                                          rank: nat -> nat, l: Loc, id: nat)
    requires ForestOk(f) && Represents(g, f) && ListingOf(g, listing, entries) && Ranked(listing, rank) && DirAt(f, l, id)
    ensures AsStats(Recount(listing, rank, id)) == Count(NodesUnder(f, l))
    decreases rank(id), |Kids(listing, id)| + 1
  {
    UnderIsUpTo(g, f, l, id, EntriesAt(entries, id));
    RecountKidsCount(g, f, listing, entries, rank, l, id, |EntriesAt(entries, id)|);
  }

  lemma {:induction false} RecountKidsCount(g: Graph, f: set<Item>, listing: Listing, entries: map<nat, seq<ShardEntry>>,
                                            rank: nat -> nat, l: Loc, id: nat, k: nat)
    requires ForestOk(f) && Represents(g, f) && ListingOf(g, listing, entries) && Ranked(listing, rank) && DirAt(f, l, id)
    requires k <= |EntriesAt(entries, id)|
    ensures AsStats(RecountKids(listing, rank, id, k)) == Count(NodesUpTo(f, l, EntriesAt(entries, id), k))
    decreases rank(id), k
  {
    if k == 0 {
      EmptyCounts();
    } else {
      RecountKidsCount(g, f, listing, entries, rank, l, id, k - 1);
      var e := EntriesAt(entries, id)[k - 1];
      KidAt(g, f, listing, entries, rank, l, id, k - 1);
      if e.node.isDirectory {
        RecountIsCount(g, f, listing, entries, rank, Down(l, e.name), e.node.id);
      }
      KidIsSplit(f, Down(l, e.name), e.node);
      KidCounts(f, listing, EntriesAt(entries, id), rank, l, id, k);
    }
  }

  lemma KidCounts(f: set<Item>, listing: Listing, entries: seq<ShardEntry>, rank: nat -> nat, l: Loc, id: nat, k: nat)
    requires IdsUnique(f) && Ranked(listing, rank) && 0 < k <= |entries| && k <= |Kids(listing, id)|
    requires Kids(listing, id)[k - 1] == KidOf(entries[k - 1]) && KidSplit(f, Down(l, entries[k - 1].name), entries[k - 1].node)
    requires NamesDiffer(entries)
    requires AsStats(RecountKids(listing, rank, id, k - 1)) == Count(NodesUpTo(f, l, entries, k - 1))
    requires var n := entries[k - 1].node;
      n.isDirectory ==> AsStats(Recount(listing, rank, n.id)) == Count(NodesUnder(f, Down(l, entries[k - 1].name)))
    ensures AsStats(RecountKids(listing, rank, id, k)) == Count(NodesUpTo(f, l, entries, k))
  {
    var n := entries[k - 1].node;
    KidStep(listing, rank, id, k);
    var below := if n.isDirectory then Recount(listing, rank, n.id) else Summary(0, 0, 0);
    CombineKid(f, l, entries, k, n, RecountKids(listing, rank, id, k - 1), below);
  }

  /** A child's subtree is the child and what is under it, which is nothing in case of a file. */
  predicate KidSplit(f: set<Item>, c: Loc, n: Node) {
    && NodesBelow(f, c) == NodesUnder(f, c) + {n} && n !in NodesUnder(f, c)
    && (!n.isDirectory ==> NodesUnder(f, c) == {})
  }

  lemma KidIsSplit(f: set<Item>, c: Loc, n: Node)
    requires ForestOk(f) && Item(c, n) in f
    ensures KidSplit(f, c, n)
  {
    BelowIsSelfAndUnder(f, c, n);
    if !n.isDirectory {
      NothingUnderFile(f, c, n);
    }
  }

  /** The nodes of the children before it are others than the child's own. */
  lemma EarlierApart(f: set<Item>, l: Loc, entries: seq<ShardEntry>, k: nat)
    requires IdsUnique(f) && k < |entries| && NamesDiffer(entries)
    ensures NodesUpTo(f, l, entries, k) !! NodesBelow(f, Down(l, entries[k].name))
  {
    forall m | m in NodesUpTo(f, l, entries, k) ensures m !in NodesBelow(f, Down(l, entries[k].name)) {
      ChildNodesApart(f, l, entries, k, m);
    }
  }

  /** The k-th child adds itself and what is below it. */
  lemma CombineKid(f: set<Item>, l: Loc, entries: seq<ShardEntry>, k: nat, n: Node, sum: Summary, below: Summary)
    requires IdsUnique(f) && NamesDiffer(entries) && 0 < k <= |entries| && KidSplit(f, Down(l, entries[k - 1].name), n)
    requires AsStats(sum) == Count(NodesUpTo(f, l, entries, k - 1))
    requires n.isDirectory ==> AsStats(below) == Count(NodesUnder(f, Down(l, entries[k - 1].name)))
    ensures AsStats(if n.isDirectory then Plus(Plus(sum, Summary(0, 1, 0)), below) else Plus(sum, Summary(1, 0, n.content.size))) == Count(NodesUpTo(f, l, entries, k))
  {
    var c := Down(l, entries[k - 1].name);
    EarlierApart(f, l, entries, k - 1);
    AddKid(sum, NodesUpTo(f, l, entries, k - 1), n, below, NodesUnder(f, c), NodesBelow(f, c));
    LastKid(f, l, entries, k);
  }

  lemma AddKid(sum: Summary, before: set<Node>, n: Node, below: Summary, under: set<Node>, all: set<Node>)
    requires AsStats(sum) == Count(before) && all == under + {n} && n !in under && before !! all
    requires if n.isDirectory then AsStats(below) == Count(under) else under == {}
    ensures AsStats(if n.isDirectory then Plus(Plus(sum, Summary(0, 1, 0)), below) else Plus(sum, Summary(1, 0, n.content.size))) == Count(before + all)
  {
    if n.isDirectory {
      AddDir(sum, before, n, below, under, all);
    } else {
      AddFile(sum, before, n, all);
    }
  }

  lemma LastKid(f: set<Item>, l: Loc, entries: seq<ShardEntry>, k: nat)
    requires 0 < k <= |entries|
    ensures NodesUpTo(f, l, entries, k) == NodesUpTo(f, l, entries, k - 1) + NodesBelow(f, Down(l, entries[k - 1].name))
  {
  }

  lemma KidStep(listing: Listing, rank: nat -> nat, id: nat, k: nat)
    requires Ranked(listing, rank) && 0 < k <= |Kids(listing, id)|
    ensures match Kids(listing, id)[k - 1]
            case File(size) => RecountKids(listing, rank, id, k) == Plus(RecountKids(listing, rank, id, k - 1), Summary(1, 0, size))
            case Dir(c) =>
              && rank(c) < rank(id)
              && RecountKids(listing, rank, id, k) ==
                 Plus(Plus(RecountKids(listing, rank, id, k - 1), Summary(0, 1, 0)), Recount(listing, rank, c))
  {
  }

  lemma NothingUnderFile(f: set<Item>, c: Loc, n: Node)
    requires ForestOk(f) && Item(c, n) in f && !n.isDirectory
    ensures NodesUnder(f, c) == {}
  {
    forall i | i in f && Below(i.loc, c) ensures i.loc == c {
      if i.loc != c {
        assert Occupied(f, i.loc);
        AboveIsDir(f, c, i.loc);
      }
    }
  }
}
