/** Directory summaries: the incremental rebuild of a dirty set agrees with a full recount. */
module Summaries {
  import opened Wrappers

  /** What a directory's shards list: files with their sizes, and directories by node id. */
  datatype Kid = File(size: nat) | Dir(id: nat)
  datatype Summary = Summary(files: nat, directories: nat, bytes: nat)
  type Listing = map<nat, seq<Kid>>

  function Kids(g: Listing, id: nat): seq<Kid> {
    if id in g then g[id] else []
  }

  function Plus(a: Summary, b: Summary): Summary {
    Summary(a.files + b.files, a.directories + b.directories, a.bytes + b.bytes)
  }

  /** A ranking shows that the listing has no cycle: every child ranks below its parent. */
  ghost predicate Ranked(g: Listing, rank: nat -> nat) {
    forall id, k | id in g && 0 <= k < |g[id]| && g[id][k].Dir? :: rank(g[id][k].id) < rank(id)
  }

  /** The full recount: everything below a directory, counted recursively. */
  ghost function Recount(g: Listing, rank: nat -> nat, id: nat): Summary
    requires Ranked(g, rank)
    decreases rank(id), |Kids(g, id)| + 1
  {
    RecountKids(g, rank, id, |Kids(g, id)|)
  }

  ghost function RecountKids(g: Listing, rank: nat -> nat, id: nat, n: nat): Summary
    requires Ranked(g, rank) && n <= |Kids(g, id)|
    decreases rank(id), n
  {
    if n == 0 then Summary(0, 0, 0)
    else
      match Kids(g, id)[n - 1]
      case File(size) => Plus(RecountKids(g, rank, id, n - 1), Summary(1, 0, size))
      case Dir(c) => Plus(Plus(RecountKids(g, rank, id, n - 1), Summary(0, 1, 0)), Recount(g, rank, c))
  }

  /** Every stored summary outside the dirty set is right, and every one already rebuilt. */
  ghost predicate RightSoFar(g: Listing, rank: nat -> nat, dirty: set<nat>, memo: map<nat, Summary>, snapshots: map<nat, Summary>)
    requires Ranked(g, rank)
  {
    && (forall id | id in snapshots && id !in dirty :: snapshots[id] == Recount(g, rank, id))
    && (forall id | id in memo :: id in snapshots && memo[id] == snapshots[id] == Recount(g, rank, id))
  }

  /** Above are directories whose summary is being computed: all rank above id. */
  ghost predicate RanksBelow(rank: nat -> nat, id: nat, above: set<nat>) {
    forall v | v in above :: rank(id) < rank(v)
  }

  /** Summaries were only added or rebuilt, and every one that changed is remembered. */
  ghost predicate Grew(memo: map<nat, Summary>, snapshots: map<nat, Summary>, memo': map<nat, Summary>, snapshots': map<nat, Summary>) {
    && memo.Keys <= memo'.Keys && snapshots.Keys <= snapshots'.Keys
    && forall x | x in snapshots' && x !in memo' :: x in snapshots && snapshots'[x] == snapshots[x]
  }

  lemma GrewTwice(m0: map<nat, Summary>, s0: map<nat, Summary>, m1: map<nat, Summary>, s1: map<nat, Summary>,
                  m2: map<nat, Summary>, s2: map<nat, Summary>)
    requires Grew(m0, s0, m1, s1) && Grew(m1, s1, m2, s2)
    ensures Grew(m0, s0, m2, s2)
  {
  }

  class SummaryStore {
    var snapshots: map<nat, Summary>
    var memo: map<nat, Summary>
    var visiting: set<nat>

    constructor ()
      ensures snapshots == map[]
    {
      snapshots, memo, visiting := map[], map[], {};
    }

    /** The premises under which a rebuild is right: the listing has no cycle, so far all is
        right, and whatever is being computed ranks above id. */
    ghost predicate Sound(g: Listing, dirty: set<nat>, id: nat, rank: nat -> nat)
      reads this
    {
      Ranked(g, rank) && RanksBelow(rank, id, visiting) && RightSoFar(g, rank, dirty, memo, snapshots)
    }

    /** The summary of a directory, computed once, published and remembered. It terminates on
        every listing; None reports a cycle. */
    method Summarize(g: Listing, dirty: set<nat>, id: nat, ghost rank: nat -> nat) returns (r: Option<Summary>)
      modifies this
      ensures visiting == old(visiting)
      ensures old(Sound(g, dirty, id, rank)) ==>
                && r == Some(Recount(g, rank, id)) && id in memo && RightSoFar(g, rank, dirty, memo, snapshots)
                && Grew(old(memo), old(snapshots), memo, snapshots)
      ensures old(memo).Keys <= memo.Keys && (r.Some? ==> id in memo && memo[id] == r.value)
      decreases |g.Keys - visiting|, 0
    {
      if id in memo {
        return Some(memo[id]);
      }
      if id in visiting {
        return None;
      }
      visiting := visiting + {id};
      r := Some(Summary(0, 0, 0));
      if Kids(g, id) != [] {
        FewerLeft(g, old(visiting), id);
        r := SumChildren(g, dirty, id, rank);
      }
      visiting := visiting - {id};
      assert visiting == old(visiting);
      if r.Some? {
        memo := memo[id := r.value];
        snapshots := snapshots[id := r.value];
      }
    }

    /** Adds up the children of a directory, recursing into the dirty ones and into those that
        have no summary yet. */
    method SumChildren(g: Listing, dirty: set<nat>, id: nat, ghost rank: nat -> nat) returns (r: Option<Summary>)
      requires id in visiting
      modifies this
      ensures visiting == old(visiting)
      ensures old(Ranked(g, rank) && RanksBelow(rank, id, visiting - {id}) && RightSoFar(g, rank, dirty, memo, snapshots)) ==>
                && r == Some(Recount(g, rank, id)) && RightSoFar(g, rank, dirty, memo, snapshots)
                && Grew(old(memo), old(snapshots), memo, snapshots)
      ensures old(memo).Keys <= memo.Keys
      decreases |g.Keys - visiting|, 2
    {
      var children := Kids(g, id);
      var sum := Summary(0, 0, 0);
      ghost var sound := Ranked(g, rank) && RanksBelow(rank, id, visiting - {id}) && RightSoFar(g, rank, dirty, memo, snapshots);
      for n := 0 to |children|
        invariant visiting == old(visiting)
        invariant sound ==>
                    && RightSoFar(g, rank, dirty, memo, snapshots) && sum == RecountKids(g, rank, id, n)
                    && Grew(old(memo), old(snapshots), memo, snapshots)
        invariant old(memo).Keys <= memo.Keys
      {
        match children[n]
        case File(size) =>
          sum := Plus(sum, Summary(1, 0, size));
        case Dir(c) =>
          ghost var memo0, snapshots0 := memo, snapshots;
          var below := ChildSummary(g, dirty, c, rank);
          if below.None? {
            return None;
          }
          sum := Plus(Plus(sum, Summary(0, 1, 0)), below.value);
          if sound {
            GrewTwice(old(memo), old(snapshots), memo0, snapshots0, memo, snapshots);
          }
      }
      r := Some(sum);
    }

    /** A clean child's stored summary is used as it is. */
    method ChildSummary(g: Listing, dirty: set<nat>, c: nat, ghost rank: nat -> nat) returns (r: Option<Summary>)
      modifies this
      ensures visiting == old(visiting)
      ensures old(Sound(g, dirty, c, rank)) ==>
                && r == Some(Recount(g, rank, c)) && RightSoFar(g, rank, dirty, memo, snapshots)
                && Grew(old(memo), old(snapshots), memo, snapshots)
      ensures old(memo).Keys <= memo.Keys
      decreases |g.Keys - visiting|, 1
    {
      if c !in dirty && c in snapshots {
        return Some(snapshots[c]);
      }
      r := Summarize(g, dirty, c, rank);
    }

    /** Rebuilds the dirty directories; success means that each has been summed up. On a listing
        without cycles it succeeds, and then every stored summary is right. */
    method RebuildSummaries(g: Listing, dirty: set<nat>, ghost rank: nat -> nat) returns (ok: bool)
      modifies this
      ensures Ranked(g, rank) && (forall id | id in old(snapshots) && id !in dirty :: old(snapshots)[id] == Recount(g, rank, id)) ==>
                && ok && dirty <= snapshots.Keys && old(snapshots).Keys <= snapshots.Keys
                && forall id | id in snapshots :: snapshots[id] == Recount(g, rank, id)
      ensures ok ==> dirty <= memo.Keys
    {
      memo, visiting := map[], {};
      var rest := dirty;
      ghost var sound := Ranked(g, rank) && RightSoFar(g, rank, dirty, memo, snapshots);
      while rest != {}
        invariant visiting == {} && rest <= dirty && dirty - rest <= memo.Keys
        invariant sound ==> RightSoFar(g, rank, dirty, memo, snapshots) && old(snapshots).Keys <= snapshots.Keys
      {
        var id :| id in rest;
        var r := Summarize(g, dirty, id, rank);
        if r.None? {
          return false;
        }
        rest := rest - {id};
      }
      ok := true;
    }
  }

  lemma FewerLeft(g: Listing, visiting: set<nat>, id: nat)
    requires id in g && id !in visiting
    ensures |g.Keys - (visiting + {id})| < |g.Keys - visiting|
  {
    var before, now := g.Keys - visiting, g.Keys - (visiting + {id});
    assert before == now + {id};
  }

  /** What an operation may change of a listing: only dirty directories list anything else, and
      no clean directory lists a dirty one. Chains of ancestors up to the root are such sets. */
  ghost predicate OnlyDirtyChanged(g: Listing, g': Listing, dirty: set<nat>) {
    && (forall id | id !in dirty :: Kids(g', id) == Kids(g, id))
    && (forall id, k | id !in dirty && 0 <= k < |Kids(g', id)| && Kids(g', id)[k].Dir? :: Kids(g', id)[k].id !in dirty)
  }

  lemma {:induction false} CleanRecount(g: Listing, g': Listing, dirty: set<nat>, rank: nat -> nat, rank': nat -> nat, id: nat)
    requires Ranked(g, rank) && Ranked(g', rank') && OnlyDirtyChanged(g, g', dirty) && id !in dirty
    ensures Recount(g', rank', id) == Recount(g, rank, id)
    decreases rank'(id), |Kids(g', id)| + 1
  {
    CleanKids(g, g', dirty, rank, rank', id, |Kids(g', id)|);
  }

  lemma {:induction false} CleanKids(g: Listing, g': Listing, dirty: set<nat>, rank: nat -> nat, rank': nat -> nat, id: nat, n: nat)
    requires Ranked(g, rank) && Ranked(g', rank') && OnlyDirtyChanged(g, g', dirty) && id !in dirty
    requires n <= |Kids(g', id)|
    ensures RecountKids(g', rank', id, n) == RecountKids(g, rank, id, n)
    decreases rank'(id), n
  {
    if n > 0 {
      CleanKids(g, g', dirty, rank, rank', id, n - 1);
      if Kids(g', id)[n - 1].Dir? {
        CleanRecount(g, g', dirty, rank, rank', Kids(g', id)[n - 1].id);
      }
    }
  }

  /** Incremental is full: if every stored summary was right before an operation, rebuilding
      the dirty directories alone makes every one right after it. */
  method RebuildAfter(store: SummaryStore, g': Listing, dirty: set<nat>, ghost g: Listing, ghost rank: nat -> nat, ghost rank': nat -> nat)
    returns (ok: bool)
    requires Ranked(g, rank) && Ranked(g', rank') && OnlyDirtyChanged(g, g', dirty)
    requires forall id | id in store.snapshots :: store.snapshots[id] == Recount(g, rank, id)
    modifies store
    ensures ok && dirty <= store.snapshots.Keys && old(store.snapshots).Keys <= store.snapshots.Keys
    ensures forall id | id in store.snapshots :: store.snapshots[id] == Recount(g', rank', id)
  {
    forall id | id in store.snapshots && id !in dirty ensures store.snapshots[id] == Recount(g', rank', id) {
      CleanRecount(g, g', dirty, rank, rank', id);
    }
    ok := store.RebuildSummaries(g', dirty, rank');
  }
}
