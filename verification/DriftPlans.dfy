/** How plans are made from one snapshot of the records and the objects. */
module DriftPlans {
  import opened Wrappers
  import opened Drift
  import Paths

  /** A record of the snapshot; trashed ones are listed but never actionable. */
  datatype Record = Record(path: PathId, hash: string, size: nat, uploaded: bool)
  datatype Found = Found(generation: nat, content: string, size: nat)
  datatype Status = Aligned | Drifted | SharedObject | TargetConflict | ObjectMissing | SizeMismatch | BadPath

  /** One scan of the records and one listing of the objects; targetOf has no key for a path that
      cannot be made into one. */
  datatype Snapshot = Snapshot(records: seq<Record>, objects: map<string, Found>, refs: map<string, nat>, targetOf: PathId -> Option<string>)

  /** How a record is classified against one listing of the objects. */
  function Classify(sn: Snapshot, r: Record): Status {
    if sn.targetOf(r.path).None? then BadPath
    else if r.hash !in sn.objects then ObjectMissing
    else if sn.objects[r.hash].size != r.size then SizeMismatch
    else if r.hash == sn.targetOf(r.path).value || r.uploaded then Aligned
    else if sn.targetOf(r.path).value in sn.objects then TargetConflict
    else if RefOf(sn.refs, r.hash) > 1 then SharedObject
    else Drifted
  }

  predicate Actionable(sn: Snapshot, r: Record) {
    r.path.Live? && (Classify(sn, r) == Drifted || Classify(sn, r) == SharedObject)
  }

  /** What the plan may move: a live record of an object that is there in the recorded size, under
      a key that is neither the record's own nor an upload's, while its own key is free. */
  predicate Movable(sn: Snapshot, r: Record) {
    && r.path.Live? && !r.uploaded && r.hash in sn.objects && sn.objects[r.hash].size == r.size
    && match sn.targetOf(r.path)
       case None => false
       case Some(target) => target != r.hash && target !in sn.objects
  }

  /** Exactly these are actionable, whether their object is shared or not. */
  lemma ActionableIsMovable(sn: Snapshot, r: Record)
    ensures Actionable(sn, r) <==> Movable(sn, r)
    ensures Actionable(sn, r) ==> (Classify(sn, r) == SharedObject <==> RefOf(sn.refs, r.hash) > 1)
  {
  }

  /** A record keeps its place exactly if its object is there in the recorded size and under its
      own key or an upload's; and one whose own key is taken by another object is in conflict. */
  lemma NotMovable(sn: Snapshot, r: Record)
    requires sn.targetOf(r.path).Some?
    ensures var target, here := sn.targetOf(r.path).value, r.hash in sn.objects && sn.objects[r.hash].size == r.size;
      && (Classify(sn, r) == Aligned <==> here && (r.hash == target || r.uploaded))
      && (Classify(sn, r) == TargetConflict <==> here && r.hash != target && !r.uploaded && target in sn.objects)
      && (Classify(sn, r) in {ObjectMissing, SizeMismatch} <==> !here)
      && (Classify(sn, r) == ObjectMissing <==> r.hash !in sn.objects)
  {
  }

  /** The record decides for its path: it is the first one of it. */
  predicate First(records: seq<Record>, k: nat) {
    k < |records| && forall j | 0 <= j < k :: records[j].path != records[k].path
  }

  predicate Listed(records: seq<Record>, p: PathId) {
    exists k | 0 <= k < |records| :: records[k].path == p
  }

  /** Something is wanted, every wanted path is in the snapshot and actionable, and no two of them
      go to one key. */
  predicate Plannable(sn: Snapshot, wanted: set<PathId>) {
    && wanted != {} && (forall p | p in wanted :: Listed(sn.records, p))
    && (forall k | 0 <= k < |sn.records| && First(sn.records, k) && sn.records[k].path in wanted :: Movable(sn, sn.records[k]))
    && (forall p, q | p in wanted && q in wanted && p != q :: sn.targetOf(p) != sn.targetOf(q))
  }

  /** The entry moves its record from the object listed to the record's own key, which is free. */
  predicate EntryOfRecord(sn: Snapshot, e: PlanEntry, r: Record) {
    && e.path == r.path && e.source == r.hash && r.hash in sn.objects && e.generation == sn.objects[r.hash].generation
    && e.content == sn.objects[r.hash].content && sn.targetOf(r.path) == Some(e.target) && e.target !in sn.objects
  }

  predicate EntryGood(sn: Snapshot, e: PlanEntry) {
    exists k | 0 <= k < |sn.records| :: First(sn.records, k) && Movable(sn, sn.records[k]) && EntryOfRecord(sn, e, sn.records[k])
  }

  predicate DistinctTargets(plan: seq<PlanEntry>) {
    forall i, j | 0 <= i < j < |plan| :: plan[i].target != plan[j].target && plan[i].path != plan[j].path
  }

  function PathsOf(plan: seq<PlanEntry>): set<PathId> {
    set e | e in plan :: e.path
  }

  predicate PlanGood(sn: Snapshot, plan: seq<PlanEntry>) {
    (forall i | 0 <= i < |plan| :: EntryGood(sn, plan[i])) && DistinctTargets(plan)
  }

  /** Targets were free when every source was there, so no target is a source. */
  lemma GoodPlanApart(sn: Snapshot, plan: seq<PlanEntry>)
    requires PlanGood(sn, plan)
    ensures PlansApart(plan, plan)
  {
    forall i, j | 0 <= i < |plan| && 0 <= j < |plan| ensures plan[i].target != plan[j].source {
      assert EntryGood(sn, plan[i]) && EntryGood(sn, plan[j]);
    }
  }

  /** What the plan made so far takes from the first k records. */
  predicate Planned(sn: Snapshot, wanted: set<PathId>, k: nat, plan: seq<PlanEntry>)
    requires k <= |sn.records|
  {
    && PlanGood(sn, plan) && PathsOf(plan) <= wanted
    && (forall j | 0 <= j < k && sn.records[j].path in wanted :: sn.records[j].path in PathsOf(plan))
    && (forall j | 0 <= j < k && First(sn.records, j) && sn.records[j].path in wanted :: Movable(sn, sn.records[j]))
    && (forall e | e in plan :: exists j | 0 <= j < k :: sn.records[j].path == e.path)
  }

  lemma NotActionable(sn: Snapshot, wanted: set<PathId>, k: nat, plan: seq<PlanEntry>)
    requires k < |sn.records| && Planned(sn, wanted, k, plan) && sn.records[k].path in wanted - PathsOf(plan)
    ensures First(sn.records, k)
    ensures !Actionable(sn, sn.records[k]) ==> !Plannable(sn, wanted)
  {
    ActionableIsMovable(sn, sn.records[k]);
  }

  lemma Collides(sn: Snapshot, wanted: set<PathId>, plan: seq<PlanEntry>, e: PlanEntry, p: PathId)
    requires PlanGood(sn, plan) && PathsOf(plan) <= wanted && e in plan && p in wanted && p != e.path && sn.targetOf(p) == Some(e.target)
    ensures !Plannable(sn, wanted)
  {
    assert e.path in PathsOf(plan) && EntryGood(sn, e);
  }

  lemma PlannedAll(sn: Snapshot, wanted: set<PathId>, plan: seq<PlanEntry>)
    requires Planned(sn, wanted, |sn.records|, plan)
    ensures Plannable(sn, wanted) <==> PathsOf(plan) == wanted && plan != []
  {
    if PathsOf(plan) == wanted && plan != [] {
      assert plan[0].path in wanted;
      forall p | p in wanted ensures Listed(sn.records, p) {
        var e :| e in plan && e.path == p;
      }
      forall p, q | p in wanted && q in wanted && p != q ensures sn.targetOf(p) != sn.targetOf(q) {
        OwnTargets(sn, plan, p, q);
      }
    } else if Plannable(sn, wanted) {
      forall p | p in wanted ensures p in PathsOf(plan) {
        assert Listed(sn.records, p);
      }
    }
  }

  lemma OwnTargets(sn: Snapshot, plan: seq<PlanEntry>, p: PathId, q: PathId)
    requires PlanGood(sn, plan) && p in PathsOf(plan) && q in PathsOf(plan) && p != q
    ensures sn.targetOf(p) != sn.targetOf(q)
  {
    var i :| 0 <= i < |plan| && plan[i].path == p;
    var j :| 0 <= j < |plan| && plan[j].path == q;
    assert EntryGood(sn, plan[i]) && EntryGood(sn, plan[j]);
  }

  /** The entry made of the k-th record. */
  function MadeOf(sn: Snapshot, r: Record): PlanEntry
    requires Actionable(sn, r)
  {
    PlanEntry(r.path, r.hash, sn.objects[r.hash].generation, sn.objects[r.hash].content, sn.targetOf(r.path).value)
  }

  lemma AddGood(sn: Snapshot, k: nat, plan: seq<PlanEntry>)
    requires PlanGood(sn, plan) && First(sn.records, k) && Actionable(sn, sn.records[k]) && sn.records[k].path !in PathsOf(plan)
    requires forall e | e in plan :: Some(e.target) != sn.targetOf(sn.records[k].path)
    ensures PlanGood(sn, plan + [MadeOf(sn, sn.records[k])])
  {
    var plan' := plan + [MadeOf(sn, sn.records[k])];
    ActionableIsMovable(sn, sn.records[k]);
    assert EntryOfRecord(sn, MadeOf(sn, sn.records[k]), sn.records[k]);
    forall i | 0 <= i < |plan| ensures plan[i].path in PathsOf(plan) && plan'[i] == plan[i] && plan[i] in plan {
    }
  }

  lemma AddEntry(sn: Snapshot, wanted: set<PathId>, k: nat, plan: seq<PlanEntry>)
    requires k < |sn.records| && Planned(sn, wanted, k, plan) && sn.records[k].path in wanted - PathsOf(plan) && Actionable(sn, sn.records[k])
    requires forall e | e in plan :: Some(e.target) != sn.targetOf(sn.records[k].path)
    ensures Planned(sn, wanted, k + 1, plan + [MadeOf(sn, sn.records[k])])
    ensures PathsOf(plan + [MadeOf(sn, sn.records[k])]) == PathsOf(plan) + {sn.records[k].path}
  {
    NotActionable(sn, wanted, k, plan);
    ActionableIsMovable(sn, sn.records[k]);
    AddPath(plan, MadeOf(sn, sn.records[k]));
    AddGood(sn, k, plan);
  }

  lemma AddPath(plan: seq<PlanEntry>, e: PlanEntry)
    ensures PathsOf(plan + [e]) == PathsOf(plan) + {e.path}
  {
    assert forall x :: x in plan + [e] <==> x in plan || x == e;
    assert e in plan + [e];
  }

  lemma NoneMissing(have: set<PathId>, wanted: set<PathId>)
    requires have <= wanted
    ensures wanted - have == {} <==> have == wanted
  {
    if wanted - have == {} {
      assert forall p | p in wanted :: p in have || p in wanted - have;
    }
  }

  lemma AllOf(plan: seq<PlanEntry>, sorted: seq<PlanEntry>, e: PlanEntry)
    requires multiset(sorted) == multiset(plan)
    ensures e in plan <==> e in sorted
  {
    assert e in plan <==> e in multiset(plan);
    assert e in sorted <==> e in multiset(sorted);
  }

  /** In a plan every entry is there once. */
  lemma {:induction false} OnceEach(plan: seq<PlanEntry>, e: PlanEntry)
    requires forall i, j | 0 <= i < j < |plan| :: plan[i] != plan[j]
    ensures multiset(plan)[e] <= 1
  {
    if plan != [] {
      var rest := plan[..|plan| - 1];
      assert plan == rest + [plan[|plan| - 1]];
      OnceEach(rest, e);
      if e == plan[|plan| - 1] {
        assert e !in rest;
      }
    }
  }

  lemma TwicePlaced(s: seq<PlanEntry>, i: nat, j: nat)
    requires i < j < |s| && s[i] == s[j]
    ensures multiset(s)[s[i]] >= 2
  {
    assert s == s[..j] + [s[j]] + s[j + 1..];
    assert s[i] in s[..j];
  }

  /** Putting the entries in order changes nothing else. */
  lemma SortedGood(sn: Snapshot, plan: seq<PlanEntry>, sorted: seq<PlanEntry>)
    requires PlanGood(sn, plan) && multiset(sorted) == multiset(plan)
    ensures PlanGood(sn, sorted) && PathsOf(sorted) == PathsOf(plan)
  {
    forall e ensures e in plan <==> e in sorted {
      AllOf(plan, sorted, e);
    }
    forall i, j | 0 <= i < j < |sorted| ensures sorted[i].target != sorted[j].target && sorted[i].path != sorted[j].path {
      OnceEach(plan, sorted[i]);
      if sorted[i] == sorted[j] {
        TwicePlaced(sorted, i, j);
      }
      assert sorted[i] in plan && sorted[j] in plan;
    }
    forall i | 0 <= i < |sorted| ensures EntryGood(sn, sorted[i]) {
      assert sorted[i] in plan;
    }
  }

  /** A plan is made exactly if the wanted paths can be planned, and then holds one entry for
      each in the order of their paths, no two with one target and none with a target that is a
      source. */
  method CreatePlan(sn: Snapshot, wanted: set<PathId>) returns (plan: Option<seq<PlanEntry>>)
    ensures plan.Some? <==> Plannable(sn, wanted)
    ensures plan.Some? ==> plan.value != [] && PlanGood(sn, plan.value) && PathsOf(plan.value) == wanted
    ensures plan.Some? ==> Paths.ByKey(plan.value, (e: PlanEntry) => e.path.n) && PlansApart(plan.value, plan.value)
  {
    var entries: seq<PlanEntry> := [];
    var targets: map<string, PathId> := map[];
    var missing := wanted;
    for k := 0 to |sn.records|
      invariant Planned(sn, wanted, k, entries) && missing == wanted - PathsOf(entries)
      invariant forall e | e in entries :: e.target in targets
      invariant forall t | t in targets :: exists e | e in entries :: e.target == t && e.path == targets[t]
    {
      var r := sn.records[k];
      if r.path in missing {
        if !Actionable(sn, r) {
          NotActionable(sn, wanted, k, entries);
          return None;
        }
        var target := sn.targetOf(r.path).value;
        if target in targets && targets[target] != r.path {
          ghost var e :| e in entries && e.target == target && e.path == targets[target];
          Collides(sn, wanted, entries, e, r.path);
          return None;
        }
        AddEntry(sn, wanted, k, entries);
        targets := targets[target := r.path];
        entries := entries + [MadeOf(sn, r)];
        missing := missing - {r.path};
      }
    }
    PlannedAll(sn, wanted, entries);
    NoneMissing(PathsOf(entries), wanted);
    if missing != {} || entries == [] {
      return None;
    }
    var sorted := Paths.SortBy(entries, (e: PlanEntry) => e.path.n);
    SortedGood(sn, entries, sorted);
    GoodPlanApart(sn, sorted);
    assert sorted == [] ==> multiset(entries) == multiset{};
    plan := Some(sorted);
  }
}
