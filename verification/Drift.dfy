/** The drift executor as a step system: actions are created from plans, objects are copied to
    their canonical keys, records relinked, and sources deleted, with a checkpoint saved after
    each. Any number of actions may be under way, and any number of executors may work on one,
    stale ones among them; each may stop between any two steps, and users move, remove and add
    records meanwhile. */
module Drift {
  import opened Wrappers

  /** Where a record is: at a path of the tree, or in the trash. */
  datatype PathId = Live(n: nat) | Trashed(n: nat)
  type Id = nat

  datatype Obj = Obj(generation: nat, content: string, marker: Option<Id>)
  datatype PlanEntry = PlanEntry(path: PathId, source: string, generation: nat, content: string, target: string)
  datatype Checkpoint = Pending | Copied | Verified | MetadataUpdated | SourceHandled

  /** The persisted state of an action, and each executor's own copy of it. */
  datatype Action = Action(version: nat, index: nat, checkpoint: Checkpoint, target: Option<nat>, completed: bool)

  /** A scan of all records: the live and the trashed ones are listed at two moments, and each
      listed record is read at a moment of its own; one that is gone by then is skipped. */
  datatype Scan = Scan(live: bool, trashed: bool, todo: set<PathId>, found: map<PathId, string>)

  /** refs counts, from the executor's own scan, the records that map to each object; checked
      says that the target has just been revalidated; unsaved that a checkpoint is to be saved. */
  datatype Executor = Executor(action: Id, local: Action, scan: Scan, refs: Option<map<string, nat>>, checked: bool, unsaved: bool)

  /** Records of active and trashed paths, objects by name, plans and actions by id, executors,
      and, as history, the plan entries whose record has been relinked. */
  datatype State = State(
    records: map<PathId, string>,
    objects: map<string, Obj>,
    nextGen: nat,
    plans: map<Id, seq<PlanEntry>>,
    actions: map<Id, Action>,
    executors: map<Id, Executor>,
    moved: set<(Id, nat)>)

  datatype Step =
    | NewAction(id: Id, plan: seq<PlanEntry>)
    | Resume(e: Id, id: Id)
    | ListLive(e: Id)
    | ListTrashed(e: Id)
    | ReadOne(e: Id, path: PathId)
    | Count(e: Id)
    | Copy(e: Id)
    | Verify(e: Id)
    | Check(e: Id)
    | Relink(e: Id)
    | HandleSource(e: Id)
    | Advance(e: Id)
    | Finish(e: Id)
    | Save(e: Id)
    | Stop(e: Id)
    | PutObject(name: string, content: string)
    | RemoveObject(name: string)
    | MapRecord(path: PathId, name: string)
    | MoveRecord(path: PathId, to: PathId)
    | UnmapRecord(path: PathId)

  function Of(records: map<PathId, string>, name: string): set<PathId> {
    set p | p in records && records[p] == name
  }

  function Mapped(s: State, name: string): set<PathId> {
    Of(s.records, name)
  }

  /** The action is not completed, or an executor is still at it, if only a stale one. */
  predicate Active(s: State, id: Id) {
    id in s.plans && ((id in s.actions && !s.actions[id].completed) || exists e | e in s.executors :: s.executors[e].action == id)
  }

  predicate HasSource(plan: seq<PlanEntry>, name: string) {
    exists i | 0 <= i < |plan| :: plan[i].source == name
  }

  predicate HasTarget(plan: seq<PlanEntry>, name: string) {
    exists i | 0 <= i < |plan| :: plan[i].target == name
  }

  predicate IsSource(s: State, name: string) {
    exists id | id in s.plans :: Active(s, id) && HasSource(s.plans[id], name)
  }

  predicate IsTarget(s: State, name: string) {
    exists id | id in s.plans :: Active(s, id) && HasTarget(s.plans[id], name)
  }

  /** No target of the one is a source of the other. */
  predicate PlansApart(a: seq<PlanEntry>, b: seq<PlanEntry>) {
    forall i, j | 0 <= i < |a| && 0 <= j < |b| :: a[i].target != b[j].source
  }

  predicate Known(s: State, e: Id) {
    && e in s.executors && s.executors[e].action in s.plans
    && s.executors[e].local.index <= |s.plans[s.executors[e].action]|
  }

  /** The executor is at work on an entry, with everything saved so far. */
  predicate At(s: State, e: Id, c: Checkpoint) {
    && Known(s, e) && !s.executors[e].unsaved && s.executors[e].refs.Some?
    && s.executors[e].local.index < |s.plans[s.executors[e].action]| && s.executors[e].local.checkpoint == c
  }

  function EntryOf(s: State, e: Id): PlanEntry
    requires Known(s, e) && s.executors[e].local.index < |s.plans[s.executors[e].action]|
  {
    s.plans[s.executors[e].action][s.executors[e].local.index]
  }

  /** The source is the very object that was planned. */
  predicate SourceAsPlanned(s: State, p: PlanEntry) {
    p.source in s.objects && s.objects[p.source].generation == p.generation && s.objects[p.source].content == p.content
  }

  /** The copy is there, or was made by this action before; a foreign object is a conflict. */
  predicate CanCopy(s: State, e: Id) {
    && At(s, e, Pending)
    && var p := EntryOf(s, e);
      && SourceAsPlanned(s, p)
      && (p.target in s.objects ==> s.objects[p.target].marker == Some(s.executors[e].action))
  }

  predicate CopyGood(s: State, p: PlanEntry) {
    p.target in s.objects && s.objects[p.target].content == p.content
  }

  predicate CanCheck(s: State, e: Id) {
    && At(s, e, Verified) && !s.executors[e].checked
    && var p := EntryOf(s, e);
      && CopyGood(s, p) && s.executors[e].local.target == Some(s.objects[p.target].generation)
      && (s.objects[p.target].marker.Some? ==> s.objects[p.target].marker == Some(s.executors[e].action))
  }

  predicate CanRelink(s: State, e: Id) {
    && At(s, e, Verified) && s.executors[e].checked
    && var p := EntryOf(s, e);
      p.path in s.records && (s.records[p.path] == p.source || s.records[p.path] == p.target)
  }

  /** An executor is scanning for an action that has this source. */
  predicate Scanned(s: State, name: string) {
    exists e | e in s.executors :: Scanning(s, e) && s.executors[e].action in s.plans && HasSource(s.plans[s.executors[e].action], name)
  }

  predicate Enabled(s: State, l: Step) {
    match l
    case NewAction(id, plan) => id !in s.plans && id !in s.actions && plan != [] && PlansApart(plan, plan)
    case Resume(e, id) => e !in s.executors && id in s.actions && id in s.plans && !s.actions[id].completed
    case ListLive(e) => Scanning(s, e) && !s.executors[e].scan.live
    case ListTrashed(e) => Scanning(s, e) && !s.executors[e].scan.trashed
    case ReadOne(e, p) => Scanning(s, e) && p in s.executors[e].scan.todo
    case Count(e) => Scanning(s, e) && s.executors[e].scan.live && s.executors[e].scan.trashed && s.executors[e].scan.todo == {}
    case Copy(e) => CanCopy(s, e)
    case Verify(e) => At(s, e, Copied) && CopyGood(s, EntryOf(s, e))
    case Check(e) => CanCheck(s, e)
    case Relink(e) => CanRelink(s, e)
    case HandleSource(e) => At(s, e, MetadataUpdated)
    case Advance(e) => At(s, e, SourceHandled)
    case Finish(e) =>
      Known(s, e) && !s.executors[e].unsaved && !s.executors[e].local.completed
      && s.executors[e].local.index == |s.plans[s.executors[e].action]|
    case Save(e) =>
      && e in s.executors && s.executors[e].unsaved && s.executors[e].action in s.actions
      && s.actions[s.executors[e].action].version == s.executors[e].local.version
    case Stop(e) => e in s.executors
    case PutObject(n, _) => n !in s.objects
    case RemoveObject(n) => n in s.objects
    case MapRecord(p, n) => n in s.objects
    case MoveRecord(p, q) => p in s.records && q !in s.records
    case UnmapRecord(p) => p in s.records
  }

  /** The executor whose step it is. */
  function Actor(l: Step): Option<Id> {
    match l
    case Resume(e, _) => Some(e)
    case ListLive(e) => Some(e)
    case ListTrashed(e) => Some(e)
    case ReadOne(e, _) => Some(e)
    case Count(e) => Some(e)
    case Copy(e) => Some(e)
    case Verify(e) => Some(e)
    case Check(e) => Some(e)
    case Relink(e) => Some(e)
    case HandleSource(e) => Some(e)
    case Advance(e) => Some(e)
    case Finish(e) => Some(e)
    case Save(e) => Some(e)
    case Stop(e) => Some(e)
    case _ => None
  }

  function RefOf(refs: map<string, nat>, name: string): nat {
    if name in refs then refs[name] else 0
  }

  /** How many of the records found map to each object. */
  function CountRefs(records: map<PathId, string>): map<string, nat> {
    map p | p in records :: records[p] := |Of(records, records[p])|
  }

  const NotScanned := Scan(false, false, {}, map[])

  predicate Scanning(s: State, e: Id) {
    e in s.executors && s.executors[e].refs.None?
  }

  function DoRead(s: State, e: Id, p: PathId): State
    requires e in s.executors
  {
    var x := s.executors[e];
    var found := if p in s.records then x.scan.found[p := s.records[p]] else x.scan.found;
    SetExecutor(s, e, x.(scan := x.scan.(todo := x.scan.todo - {p}, found := found)))
  }

  function SetExecutor(s: State, e: Id, x: Executor): State {
    s.(executors := s.executors[e := x])
  }

  function DoCopy(s: State, e: Id): State
    requires CanCopy(s, e)
  {
    var x, p := s.executors[e], EntryOf(s, e);
    var s' := if p.target in s.objects then s
              else s.(objects := s.objects[p.target := Obj(s.nextGen, p.content, Some(x.action))], nextGen := s.nextGen + 1);
    SetExecutor(s', e, x.(local := x.local.(checkpoint := Copied, target := Some(s'.objects[p.target].generation)), unsaved := true))
  }

  function DoRelink(s: State, e: Id): State
    requires CanRelink(s, e)
  {
    var x, p := s.executors[e], EntryOf(s, e);
    var matched := s.records[p.path] == p.source;
    var n := RefOf(x.refs.value, p.source);
    var refs := if matched && n > 0 then x.refs.value[p.source := n - 1] else x.refs.value;
    SetExecutor(s, e, x.(local := x.local.(checkpoint := MetadataUpdated), refs := Some(refs), checked := false, unsaved := true)).(
      records := if matched then s.records[p.path := p.target] else s.records,
      moved := s.moved + {(x.action, x.local.index)})
  }

  /** The source goes if this executor's count is down to zero, and only that generation of it. */
  function DoHandleSource(s: State, e: Id): State
    requires At(s, e, MetadataUpdated)
  {
    var x, p := s.executors[e], EntryOf(s, e);
    var delete := RefOf(x.refs.value, p.source) == 0 && p.source in s.objects && s.objects[p.source].generation == p.generation;
    SetExecutor(s, e, x.(local := x.local.(checkpoint := SourceHandled), unsaved := true)).(
      objects := if delete then s.objects - {p.source} else s.objects)
  }

  const NewlyCreated := Action(1, 0, Pending, None, false)

  function Next(s: State, l: Step): State
    requires Enabled(s, l)
  {
    match l
    case NewAction(id, plan) => s.(plans := s.plans[id := plan], actions := s.actions[id := NewlyCreated])
    case Resume(e, id) =>
      var a := s.actions[id].(version := s.actions[id].version + 1);
      SetExecutor(s, e, Executor(id, a, NotScanned, None, false, false)).(actions := s.actions[id := a])
    case ListLive(e) =>
      var x := s.executors[e];
      SetExecutor(s, e, x.(scan := x.scan.(live := true, todo := x.scan.todo + (set p | p in s.records && p.Live?))))
    case ListTrashed(e) =>
      var x := s.executors[e];
      SetExecutor(s, e, x.(scan := x.scan.(trashed := true, todo := x.scan.todo + (set p | p in s.records && p.Trashed?))))
    case ReadOne(e, p) => DoRead(s, e, p)
    case Count(e) => SetExecutor(s, e, s.executors[e].(refs := Some(CountRefs(s.executors[e].scan.found))))
    case Copy(e) => DoCopy(s, e)
    case Verify(e) =>
      var x := s.executors[e];
      SetExecutor(s, e, x.(local := x.local.(checkpoint := Verified, target := Some(s.objects[EntryOf(s, e).target].generation)), unsaved := true))
    case Check(e) => SetExecutor(s, e, s.executors[e].(checked := true))
    case Relink(e) => DoRelink(s, e)
    case HandleSource(e) => DoHandleSource(s, e)
    case Advance(e) =>
      var x := s.executors[e];
      var i := x.local.index + 1;
      SetExecutor(s, e, x.(local := x.local.(index := i, checkpoint := Pending, target := None), unsaved := i < |s.plans[x.action]|))
    case Finish(e) =>
      var x := s.executors[e];
      SetExecutor(s, e, x.(local := x.local.(completed := true), unsaved := true))
    case Save(e) =>
      var x := s.executors[e];
      var a := x.local.(version := x.local.version + 1);
      SetExecutor(s, e, x.(local := a, unsaved := false)).(actions := s.actions[x.action := a])
    case Stop(e) => s.(executors := s.executors - {e})
    case PutObject(n, c) => s.(objects := s.objects[n := Obj(s.nextGen, c, None)], nextGen := s.nextGen + 1)
    case RemoveObject(n) => s.(objects := s.objects - {n})
    case MapRecord(p, n) => s.(records := s.records[p := n])
    case MoveRecord(p, q) => s.(records := (s.records - {p})[q := s.records[p]])
    case UnmapRecord(p) => s.(records := s.records - {p})
  }

  // ---- What the service does not check ----

  /** Four things are left to its callers, only as long as an action is under way: a new action
      has no source that another one copies to and no target that another one copies from; users
      do not map further records to a source; they do not remove a target, nor any object that a
      record maps to; and they do not rename, trash or restore a record that maps to a source
      while an executor of that action scans. */
  predicate Respects(s: State, l: Step) {
    match l
    case NewAction(id, plan) =>
      forall q | q in s.plans && Active(s, q) :: PlansApart(plan, s.plans[q]) && PlansApart(s.plans[q], plan)
    case MapRecord(_, n) => !IsSource(s, n)
    case RemoveObject(n) => Mapped(s, n) == {} && !IsTarget(s, n)
    case MoveRecord(p, _) => p in s.records ==> !Scanned(s, s.records[p])
    case _ => true
  }

  // ---- The invariant ----

  /** No target of an action under way is a source of another, or of itself. */
  predicate Apart(s: State) {
    forall id, id' | id in s.plans && id' in s.plans && Active(s, id) && Active(s, id') :: PlansApart(s.plans[id], s.plans[id'])
  }

  /** Every record has its object. */
  predicate Intact(s: State) {
    forall p | p in s.records :: s.records[p] in s.objects
  }

  /** Records that still map to a source still read the planned content. */
  predicate SourceKept(s: State, p: PlanEntry) {
    Mapped(s, p.source) == {} || SourceAsPlanned(s, p)
  }

  /** What a checkpoint says about the world. */
  predicate Facts(s: State, id: Id, a: Action)
    requires id in s.plans
  {
    && a.index <= |s.plans[id]|
    && (forall i | 0 <= i < a.index :: (id, i) in s.moved)
    && (a.index < |s.plans[id]| && (a.checkpoint == Copied || a.checkpoint == Verified) ==> SourceKept(s, s.plans[id][a.index]))
    && (a.index < |s.plans[id]| && (a.checkpoint == MetadataUpdated || a.checkpoint == SourceHandled) ==> (id, a.index) in s.moved)
    && (a.completed ==> a.index == |s.plans[id]|)
  }

  /** An executor's counts are never below the number of records left at a source of its action. */
  ghost predicate RefsBound(s: State, x: Executor) {
    x.refs.Some? && x.action in s.plans ==> forall n | HasSource(s.plans[x.action], n) :: |Mapped(s, n)| <= RefOf(x.refs.value, n)
  }

  /** Neither read nor to be read any more. */
  predicate Passed(scan: Scan, p: PathId) {
    p !in scan.todo && (if p.Live? then scan.live else scan.trashed)
  }

  /** A scan misses no record of a source of its action. */
  predicate ScanOk(s: State, x: Executor) {
    x.refs.None? && x.action in s.plans ==>
      forall p | p in s.records && HasSource(s.plans[x.action], s.records[p]) && Passed(x.scan, p) ::
        p in x.scan.found && x.scan.found[p] == s.records[p]
  }

  ghost predicate ExecutorOk(s: State, e: Id)
    requires e in s.executors
  {
    var x := s.executors[e];
    && x.action in s.plans && Facts(s, x.action, x.local) && RefsBound(s, x) && ScanOk(s, x)
    && CheckedOk(s, x)
  }

  ghost predicate Inv(s: State) {
    && Apart(s) && Intact(s)
    && (forall id | id in s.actions :: id in s.plans && Facts(s, id, s.actions[id]))
    && (forall e | e in s.executors :: ExecutorOk(s, e))
  }

  // ---- Counting records ----

  lemma {:induction false} NoneLeft(s: set<PathId>)
    requires |s| == 0
    ensures s == {}
  {
  }

  lemma {:induction false} FewerOrSame(a: set<PathId>, b: set<PathId>)
    requires a <= b
    ensures |a| <= |b|
    decreases |a|
  {
    if a != {} {
      var x :| x in a;
      FewerOrSame(a - {x}, b - {x});
    }
  }

  /** A record that leaves a name is counted there no more. */
  lemma MappedWithout(s: State, s': State, p: PathId, name: string)
    requires p in s.records && s.records[p] == name && p in s'.records && s'.records[p] != name
    requires s'.records == s.records[p := s'.records[p]]
    ensures |Mapped(s', name)| == |Mapped(s, name)| - 1
  {
    assert Mapped(s, name) == Mapped(s', name) + {p};
  }

  lemma RenamedMapped(s: State, p: PathId, q: PathId, name: string)
    requires Enabled(s, MoveRecord(p, q))
    ensures |Mapped(Next(s, MoveRecord(p, q)), name)| == |Mapped(s, name)|
  {
    var s' := Next(s, MoveRecord(p, q));
    if s.records[p] == name {
      assert Mapped(s', name) == Mapped(s, name) - {p} + {q};
    } else {
      assert Mapped(s', name) == Mapped(s, name);
    }
  }

  lemma OtherMapped(s: State, l: Step, name: string)
    requires Apart(s) && Enabled(s, l) && Respects(s, l) && IsSource(s, name) && !l.MoveRecord?
    ensures Mapped(Next(s, l), name) <= Mapped(s, name)
  {
    if l.Relink? {
      TargetNoSource(s, l.e, name);
    }
  }

  /** No step adds a record to a source: a rename keeps the count, all others shrink the set. */
  lemma StepMapped(s: State, l: Step, name: string)
    requires Apart(s) && Enabled(s, l) && Respects(s, l) && IsSource(s, name)
    ensures |Mapped(Next(s, l), name)| <= |Mapped(s, name)|
    ensures Mapped(s, name) == {} ==> Mapped(Next(s, l), name) == {}
  {
    if l.MoveRecord? {
      RenamedMapped(s, l.path, l.to, name);
      if Mapped(s, name) == {} {
        NoneLeft(Mapped(Next(s, l), name));
      }
    } else {
      OtherMapped(s, l, name);
      FewerOrSame(Mapped(Next(s, l), name), Mapped(s, name));
    }
  }

  lemma ExecutorActive(s: State, e: Id)
    requires e in s.executors && s.executors[e].action in s.plans
    ensures Active(s, s.executors[e].action)
  {
  }

  lemma TargetNoSource(s: State, e: Id, name: string)
    requires Apart(s) && IsSource(s, name) && Known(s, e) && s.executors[e].local.index < |s.plans[s.executors[e].action]|
    ensures EntryOf(s, e).target != name
  {
    ExecutorActive(s, e);
  }

  lemma OwnSource(s: State, e: Id, i: nat)
    requires e in s.executors && s.executors[e].action in s.plans && i < |s.plans[s.executors[e].action]|
    ensures HasSource(s.plans[s.executors[e].action], s.plans[s.executors[e].action][i].source)
    ensures IsSource(s, s.plans[s.executors[e].action][i].source)
  {
    ExecutorActive(s, e);
  }

  // ---- Every step keeps the invariant ----

  /** A source is deleted only when no record maps to it, shared ones included. */
  lemma DeletedUnreferenced(s: State, e: Id)
    requires Inv(s) && At(s, e, MetadataUpdated)
    requires EntryOf(s, e).source in s.objects && EntryOf(s, e).source !in Next(s, HandleSource(e)).objects
    ensures Mapped(s, EntryOf(s, e).source) == {}
  {
    assert ExecutorOk(s, e);
    OwnSource(s, e, s.executors[e].local.index);
    NoRefs(s, s.executors[e], EntryOf(s, e).source);
  }

  /** Where no reference is counted, there is no record. */
  lemma NoRefs(s: State, x: Executor, n: string)
    requires RefsBound(s, x) && x.refs.Some? && x.action in s.plans && HasSource(s.plans[x.action], n) && RefOf(x.refs.value, n) == 0
    ensures Mapped(s, n) == {}
  {
    NoneLeft(Mapped(s, n));
  }

  lemma NotPointedTo(s: State, n: string, p: PathId)
    requires Mapped(s, n) == {} && p in s.records
    ensures s.records[p] != n
  {
    assert p in Mapped(s, s.records[p]);
  }

  lemma StepIntact(s: State, l: Step)
    requires Inv(s) && Enabled(s, l) && Respects(s, l)
    ensures Intact(Next(s, l))
  {
    if l.HandleSource? {
      HandleIntact(s, l.e);
    } else if l.Relink? {
      assert ExecutorOk(s, l.e);
      RelinkIntact(s, l.e);
    } else {
      OthersIntact(s, l);
    }
  }

  lemma HandleIntact(s: State, e: Id)
    requires Inv(s) && At(s, e, MetadataUpdated)
    ensures Intact(DoHandleSource(s, e))
  {
    var s' := DoHandleSource(s, e);
    if EntryOf(s, e).source in s.objects && EntryOf(s, e).source !in s'.objects {
      DeletedUnreferenced(s, e);
      forall p | p in s'.records ensures s'.records[p] in s'.objects {
        NotPointedTo(s, EntryOf(s, e).source, p);
      }
    }
  }

  lemma RelinkIntact(s: State, e: Id)
    requires Intact(s) && CanRelink(s, e) && CheckedOk(s, s.executors[e])
    ensures Intact(DoRelink(s, e))
  {
  }

  lemma OthersIntact(s: State, l: Step)
    requires Intact(s) && Enabled(s, l) && Respects(s, l) && !l.HandleSource? && !l.Relink?
    ensures Intact(Next(s, l))
  {
    var s' := Next(s, l);
    forall p | p in s'.records ensures s'.records[p] in s'.objects {
      if l.RemoveObject? {
        NotPointedTo(s, l.name, p);
      }
    }
  }

  /** An object changes or goes only by two kinds of steps. */
  lemma StepObject(s: State, l: Step, n: string)
    requires Enabled(s, l) && n in s.objects && !l.HandleSource? && !(l.RemoveObject? && l.name == n)
    ensures n in Next(s, l).objects && Next(s, l).objects[n] == s.objects[n]
  {
  }

  lemma StepSourceKept(s: State, l: Step, p: PlanEntry)
    requires Inv(s) && Enabled(s, l) && Respects(s, l) && IsSource(s, p.source) && SourceKept(s, p)
    ensures SourceKept(Next(s, l), p)
  {
    StepMapped(s, l, p.source);
    if l.HandleSource? {
      if p.source in s.objects && p.source !in Next(s, l).objects {
        DeletedUnreferenced(s, l.e);
      }
    } else if p.source in s.objects && !(l.RemoveObject? && l.name == p.source) {
      StepObject(s, l, p.source);
    }
  }

  lemma StepPlans(s: State, l: Step, id: Id)
    requires Enabled(s, l) && id in s.plans
    ensures id in Next(s, l).plans && Next(s, l).plans[id] == s.plans[id] && s.moved <= Next(s, l).moved
  {
  }

  lemma StepFacts(s: State, l: Step, id: Id, a: Action)
    requires Inv(s) && Enabled(s, l) && Respects(s, l) && id in s.plans && Facts(s, id, a) && (a.index < |s.plans[id]| ==> Active(s, id))
    ensures id in Next(s, l).plans && Next(s, l).plans[id] == s.plans[id] && Facts(Next(s, l), id, a)
  {
    StepPlans(s, l, id);
    if a.index < |s.plans[id]| {
      assert HasSource(s.plans[id], s.plans[id][a.index].source);
      if SourceKept(s, s.plans[id][a.index]) {
        StepSourceKept(s, l, s.plans[id][a.index]);
      }
    }
  }

  /** An executor's own copy changes only by its own steps, and never its action. */
  lemma StepOwn(s: State, l: Step, e: Id)
    requires Enabled(s, l) && e in s.executors && e in Next(s, l).executors
    ensures Actor(l) != Some(e) ==> Next(s, l).executors[e] == s.executors[e]
    ensures Next(s, l).executors[e].action == s.executors[e].action
  {
  }

  lemma StepStop(s: State, l: Step, e: Id)
    requires Enabled(s, l)
    ensures e in Next(s, l).executors ==> e in s.executors || (l.Resume? && l.e == e)
    ensures e in s.executors && Actor(l) != Some(e) ==> e in Next(s, l).executors
    ensures e in s.executors && e in Next(s, l).executors && Actor(l) == Some(e) ==> !l.Resume? && !l.Stop?
  {
  }

  lemma CopyFacts(s: State, e: Id)
    requires CanCopy(s, e) && Facts(s, s.executors[e].action, s.executors[e].local)
    ensures Facts(DoCopy(s, e), s.executors[e].action, DoCopy(s, e).executors[e].local)
  {
  }

  lemma RelinkFacts(s: State, e: Id)
    requires CanRelink(s, e) && Facts(s, s.executors[e].action, s.executors[e].local)
    ensures Facts(DoRelink(s, e), s.executors[e].action, DoRelink(s, e).executors[e].local)
  {
  }

  lemma HandleFacts(s: State, e: Id)
    requires At(s, e, MetadataUpdated) && Facts(s, s.executors[e].action, s.executors[e].local)
    ensures Facts(DoHandleSource(s, e), s.executors[e].action, DoHandleSource(s, e).executors[e].local)
  {
  }

  predicate Bookkeeping(l: Step) {
    l.Verify? || l.Advance? || l.Finish? || l.Save?
  }

  lemma BookFacts(s: State, l: Step)
    requires Enabled(s, l) && Bookkeeping(l) && s.executors[l.e].action in s.plans && Facts(s, s.executors[l.e].action, s.executors[l.e].local)
    ensures Facts(Next(s, l), s.executors[l.e].action, Next(s, l).executors[l.e].local)
  {
  }

  predicate LocalKept(l: Step) {
    l.Check? || l.ListLive? || l.ListTrashed? || l.ReadOne? || l.Count?
  }

  lemma KeptLocal(s: State, l: Step)
    requires Enabled(s, l) && LocalKept(l)
    ensures Next(s, l) == s.(executors := Next(s, l).executors)
    ensures l.e in s.executors && l.e in Next(s, l).executors && Next(s, l).executors[l.e].local == s.executors[l.e].local
  {
  }

  /** Facts are not about executors. */
  lemma FactsKept(s: State, s': State, id: Id, a: Action)
    requires id in s.plans && Facts(s, id, a) && s' == s.(executors := s'.executors)
    ensures Facts(s', id, a)
  {
  }

  /** The new facts an executor's own step establishes. */
  lemma NewFacts(s: State, l: Step, e: Id)
    requires Enabled(s, l) && Actor(l) == Some(e) && !l.Resume? && !l.Stop? && e in s.executors && s.executors[e].action in s.plans
    requires e in Next(s, l).executors && Facts(s, s.executors[e].action, s.executors[e].local)
    ensures s.executors[e].action in Next(s, l).plans && Facts(Next(s, l), s.executors[e].action, Next(s, l).executors[e].local)
  {
    if Bookkeeping(l) {
      BookFacts(s, l);
    } else if LocalKept(l) {
      KeptLocal(s, l);
      FactsKept(s, Next(s, l), s.executors[e].action, s.executors[e].local);
    } else if l.Copy? {
      CopyFacts(s, e);
    } else if l.Relink? {
      RelinkFacts(s, e);
    } else {
      HandleFacts(s, e);
    }
  }

  lemma OwnFacts(s: State, l: Step, e: Id)
    requires Inv(s) && Enabled(s, l) && Respects(s, l) && e in s.executors && e in Next(s, l).executors
    ensures s.executors[e].action in Next(s, l).plans && Facts(Next(s, l), s.executors[e].action, Next(s, l).executors[e].local)
  {
    assert ExecutorOk(s, e);
    StepOwn(s, l, e);
    StepStop(s, l, e);
    if Actor(l) == Some(e) {
      NewFacts(s, l, e);
    } else {
      ExecutorActive(s, e);
      StepFacts(s, l, s.executors[e].action, s.executors[e].local);
    }
  }

  lemma StepRefs(s: State, l: Step, e: Id)
    requires Inv(s) && Enabled(s, l) && Respects(s, l) && e in s.executors && e in Next(s, l).executors
    ensures RefsBound(Next(s, l), Next(s, l).executors[e])
  {
    var s' := Next(s, l);
    assert ExecutorOk(s, e);
    var plan := s.plans[s.executors[e].action];
    StepOwn(s, l, e);
    StepPlans(s, l, s.executors[e].action);
    forall n | HasSource(plan, n) && s'.executors[e].refs.Some? ensures |Mapped(s', n)| <= RefOf(s'.executors[e].refs.value, n) {
      RefsAt(s, l, e, n);
    }
  }

  predicate Listing(l: Step) {
    l.ListLive? || l.ListTrashed? || l.ReadOne?
  }

  predicate Working(l: Step) {
    l.Copy? || l.Check? || l.HandleSource?
  }

  lemma BookKept(s: State, l: Step)
    requires Enabled(s, l) && Bookkeeping(l)
    ensures l.e in s.executors && l.e in Next(s, l).executors
    ensures Next(s, l).executors[l.e].refs == s.executors[l.e].refs && Next(s, l).executors[l.e].scan == s.executors[l.e].scan
  {
  }

  lemma WorkKept(s: State, l: Step)
    requires Enabled(s, l) && Working(l)
    ensures l.e in s.executors && l.e in Next(s, l).executors && s.executors[l.e].refs.Some?
    ensures Next(s, l).executors[l.e].refs == s.executors[l.e].refs
  {
  }

  lemma ListKept(s: State, l: Step)
    requires Enabled(s, l) && Listing(l)
    ensures l.e in s.executors && l.e in Next(s, l).executors && s.executors[l.e].refs.None?
    ensures Next(s, l).executors[l.e].refs == s.executors[l.e].refs
  {
  }

  /** Counts are made once, and change only with the executor's own relinking. */
  lemma RefsKept(s: State, l: Step, e: Id)
    requires Enabled(s, l) && e in s.executors && e in Next(s, l).executors && l != Count(e) && l != Relink(e)
    ensures Next(s, l).executors[e].refs == s.executors[e].refs
  {
    StepOwn(s, l, e);
    if Actor(l) == Some(e) {
      StepStop(s, l, e);
      if Bookkeeping(l) {
        BookKept(s, l);
      } else if Listing(l) {
        ListKept(s, l);
      } else {
        WorkKept(s, l);
      }
    }
  }

  lemma RefsAt(s: State, l: Step, e: Id, n: string)
    requires Inv(s) && Enabled(s, l) && Respects(s, l) && e in s.executors && e in Next(s, l).executors && Next(s, l).executors[e].refs.Some?
    requires s.executors[e].action in s.plans && HasSource(s.plans[s.executors[e].action], n)
    ensures |Mapped(Next(s, l), n)| <= RefOf(Next(s, l).executors[e].refs.value, n)
  {
    assert ExecutorOk(s, e);
    ExecutorActive(s, e);
    if l == Count(e) {
      Counted(s, e, n);
    } else if l == Relink(e) {
      RelinkRefs(s, e, n);
    } else {
      RefsKept(s, l, e);
      StepMapped(s, l, n);
    }
  }

  lemma CountOf(records: map<PathId, string>, n: string)
    ensures RefOf(CountRefs(records), n) == |Of(records, n)|
  {
    if p :| p in records && records[p] == n {
      assert n in CountRefs(records);
    } else {
      assert Of(records, n) == {};
    }
  }

  /** What a scan has found is never less than what is there. */
  lemma Counted(s: State, e: Id, n: string)
    requires Enabled(s, Count(e)) && s.executors[e].action in s.plans && HasSource(s.plans[s.executors[e].action], n) && ScanOk(s, s.executors[e])
    ensures |Mapped(s, n)| <= RefOf(CountRefs(s.executors[e].scan.found), n)
  {
    var found := s.executors[e].scan.found;
    forall p | p in Mapped(s, n) ensures p in Of(found, n) {
      assert Passed(s.executors[e].scan, p);
    }
    FewerOrSame(Mapped(s, n), Of(found, n));
    CountOf(found, n);
  }

  /** No step brings a record of a source to where a scan has passed. */
  lemma StepScan(s: State, l: Step, e: Id)
    requires Inv(s) && Enabled(s, l) && Respects(s, l) && e in s.executors && e in Next(s, l).executors
    ensures ScanOk(Next(s, l), Next(s, l).executors[e])
  {
    var s', x' := Next(s, l), Next(s, l).executors[e];
    assert ExecutorOk(s, e);
    StepPlans(s, l, s.executors[e].action);
    StepOwn(s, l, e);
    if x'.refs.None? {
      forall p | p in s'.records && HasSource(s'.plans[x'.action], s'.records[p]) && Passed(x'.scan, p)
        ensures p in x'.scan.found && x'.scan.found[p] == s'.records[p]
      {
        ScanAt(s, l, e, p);
      }
    }
  }

  lemma ScanAt(s: State, l: Step, e: Id, p: PathId)
    requires Apart(s) && Enabled(s, l) && Respects(s, l) && e in s.executors && e in Next(s, l).executors && Next(s, l).executors[e].refs.None?
    requires s.executors[e].action in s.plans && ScanOk(s, s.executors[e]) && Passed(Next(s, l).executors[e].scan, p)
    requires p in Next(s, l).records && HasSource(s.plans[s.executors[e].action], Next(s, l).records[p])
    ensures p in Next(s, l).executors[e].scan.found && Next(s, l).executors[e].scan.found[p] == Next(s, l).records[p]
  {
    ScanGrows(s, l, e, p);
    StepRecord(s, l, e, p);
  }

  /** A scan that has passed a record has read what was there, or had passed it before. */
  lemma ScanGrows(s: State, l: Step, e: Id, p: PathId)
    requires Enabled(s, l) && e in s.executors && e in Next(s, l).executors && Next(s, l).executors[e].refs.None?
    requires Passed(Next(s, l).executors[e].scan, p)
    ensures Grown(s, s.executors[e], Next(s, l).executors[e], l == ReadOne(e, p), p)
  {
    StepOwn(s, l, e);
    if Actor(l) == Some(e) {
      StepStop(s, l, e);
      if Bookkeeping(l) {
        BookKept(s, l);
      } else if Listing(l) {
        ListGrows(s, l, p);
      } else {
        CountsStay(s, l);
      }
    }
  }

  predicate Grown(s: State, x: Executor, x': Executor, read: bool, p: PathId) {
    && x.refs.None?
    && (read && p in s.records ==> p in x'.scan.found && x'.scan.found[p] == s.records[p])
    && (!read ==> (Passed(x.scan, p) || p !in s.records) && (p in x.scan.found ==> p in x'.scan.found && x'.scan.found[p] == x.scan.found[p]))
  }

  lemma ListGrows(s: State, l: Step, p: PathId)
    requires Enabled(s, l) && Listing(l) && Passed(Next(s, l).executors[l.e].scan, p)
    ensures Grown(s, s.executors[l.e], Next(s, l).executors[l.e], l == ReadOne(l.e, p), p)
  {
  }

  lemma CountsStay(s: State, l: Step)
    requires Enabled(s, l) && (Working(l) || l.Relink? || l.Count?)
    ensures l.e in Next(s, l).executors && Next(s, l).executors[l.e].refs.Some?
  {
  }

  lemma ScansSource(s: State, e: Id, name: string)
    requires Scanning(s, e) && s.executors[e].action in s.plans && HasSource(s.plans[s.executors[e].action], name)
    ensures Active(s, s.executors[e].action) && IsSource(s, name) && Scanned(s, name)
  {
  }

  lemma StepRecord(s: State, l: Step, e: Id, p: PathId)
    requires Apart(s) && Enabled(s, l) && Respects(s, l) && Scanning(s, e) && s.executors[e].action in s.plans
    requires p in Next(s, l).records && HasSource(s.plans[s.executors[e].action], Next(s, l).records[p])
    ensures p in s.records && s.records[p] == Next(s, l).records[p]
  {
    var name := Next(s, l).records[p];
    ScansSource(s, e, name);
    if l.Relink? {
      TargetNoSource(s, l.e, name);
    }
  }

  lemma RelinkRefs(s: State, e: Id, n: string)
    requires Inv(s) && CanRelink(s, e) && HasSource(s.plans[s.executors[e].action], n)
    ensures |Mapped(DoRelink(s, e), n)| <= RefOf(DoRelink(s, e).executors[e].refs.value, n)
  {
    var s', p := DoRelink(s, e), EntryOf(s, e);
    assert ExecutorOk(s, e);
    ExecutorActive(s, e);
    StepMapped(s, Relink(e), n);
    if s.records[p.path] == p.source && n == p.source {
      TargetNoSource(s, e, n);
      MappedWithout(s, s', p.path, n);
    }
  }

  /** The target of an executor's entry, once checked, stays as it is. */
  lemma TargetStays(s: State, l: Step, e: Id)
    requires Apart(s) && Enabled(s, l) && Respects(s, l) && Known(s, e) && s.executors[e].local.index < |s.plans[s.executors[e].action]|
    requires CopyGood(s, EntryOf(s, e))
    ensures CopyGood(Next(s, l), EntryOf(s, e))
  {
    var n := EntryOf(s, e).target;
    ExecutorActive(s, e);
    assert HasTarget(s.plans[s.executors[e].action], n);
    if l.HandleSource? {
      HandledElsewhere(s, l.e, n);
    } else {
      StepObject(s, l, n);
    }
  }

  lemma HandledElsewhere(s: State, e: Id, name: string)
    requires Apart(s) && At(s, e, MetadataUpdated) && IsTarget(s, name)
    ensures EntryOf(s, e).source != name
  {
    ExecutorActive(s, e);
  }

  predicate CheckedOk(s: State, x: Executor) {
    x.checked ==> x.action in s.plans && x.local.checkpoint == Verified && x.local.index < |s.plans[x.action]|
                  && CopyGood(s, s.plans[x.action][x.local.index])
  }

  lemma OwnChecked(s: State, l: Step, e: Id)
    requires Enabled(s, l) && Actor(l) == Some(e) && e in s.executors && e in Next(s, l).executors && CheckedOk(s, s.executors[e])
    ensures CheckedOk(Next(s, l), Next(s, l).executors[e])
  {
  }

  lemma StepChecked(s: State, l: Step, e: Id)
    requires Inv(s) && Enabled(s, l) && Respects(s, l) && e in s.executors && e in Next(s, l).executors
    ensures CheckedOk(Next(s, l), Next(s, l).executors[e])
  {
    assert ExecutorOk(s, e);
    StepPlans(s, l, s.executors[e].action);
    StepOwn(s, l, e);
    if Actor(l) == Some(e) {
      OwnChecked(s, l, e);
    } else if s.executors[e].checked {
      TargetStays(s, l, e);
    }
  }

  lemma ResumedOk(s: State, e: Id, id: Id)
    requires Inv(s) && Enabled(s, Resume(e, id))
    ensures ExecutorOk(Next(s, Resume(e, id)), e)
  {
    StepFacts(s, Resume(e, id), id, s.actions[id]);
  }

  lemma StepExecutor(s: State, l: Step, e: Id)
    requires Inv(s) && Enabled(s, l) && Respects(s, l) && e in Next(s, l).executors
    ensures ExecutorOk(Next(s, l), e)
  {
    StepStop(s, l, e);
    if e in s.executors {
      StepOwn(s, l, e);
      StepRefs(s, l, e);
      StepScan(s, l, e);
      StepChecked(s, l, e);
      OwnFacts(s, l, e);
    } else {
      ResumedOk(s, e, l.id);
    }
  }

  /** An action that is not completed after a step was not, or an executor was at it. */
  lemma StepUncompleted(s: State, l: Step, id: Id)
    requires Enabled(s, l) && id in s.plans && (forall q | q in s.actions :: q in s.plans)
    requires id in Next(s, l).actions && !Next(s, l).actions[id].completed
    ensures Active(s, id)
  {
  }

  lemma StepActive(s: State, l: Step, id: Id)
    requires Enabled(s, l) && id in s.plans && Active(Next(s, l), id) && forall q | q in s.actions :: q in s.plans
    ensures Active(s, id)
  {
    var s' := Next(s, l);
    if e :| e in s'.executors && s'.executors[e].action == id {
      StepStop(s, l, e);
      if e in s.executors {
        StepOwn(s, l, e);
      }
    } else {
      StepUncompleted(s, l, id);
    }
  }

  lemma StepApart(s: State, l: Step)
    requires Apart(s) && Enabled(s, l) && Respects(s, l) && forall q | q in s.actions :: q in s.plans
    ensures Apart(Next(s, l))
  {
    var s' := Next(s, l);
    forall id, id' | id in s'.plans && id' in s'.plans && Active(s', id) && Active(s', id') ensures PlansApart(s'.plans[id], s'.plans[id']) {
      if id in s.plans {
        StepActive(s, l, id);
      }
      if id' in s.plans {
        StepActive(s, l, id');
      }
    }
  }

  lemma StepActions(s: State, l: Step, id: Id)
    requires Inv(s) && Enabled(s, l) && Respects(s, l) && id in Next(s, l).actions
    ensures id in Next(s, l).plans && Facts(Next(s, l), id, Next(s, l).actions[id])
  {
    if id in s.actions {
      StepFacts(s, l, id, s.actions[id]);
      if l.Save? {
        OwnFacts(s, l, l.e);
      }
    }
  }

  lemma StepInv(s: State, l: Step)
    requires Inv(s) && Enabled(s, l) && Respects(s, l)
    ensures Inv(Next(s, l))
  {
    var s' := Next(s, l);
    StepApart(s, l);
    StepIntact(s, l);
    forall id | id in s'.actions ensures id in s'.plans && Facts(s', id, s'.actions[id]) {
      StepActions(s, l, id);
    }
    forall e | e in s'.executors ensures ExecutorOk(s', e) {
      StepExecutor(s, l, e);
    }
  }

  /** What a path reads. */
  function Reads(s: State, p: PathId): Option<string> {
    if p in s.records && s.records[p] in s.objects then Some(s.objects[s.records[p]].content) else None
  }

  predicate ByUser(l: Step) {
    l.PutObject? || l.RemoveObject? || l.MapRecord? || l.MoveRecord? || l.UnmapRecord?
  }

  lemma RelinkKeepsMeaning(s: State, e: Id, p: PathId)
    requires Inv(s) && CanRelink(s, e)
    ensures Reads(DoRelink(s, e), p) == Reads(s, p)
  {
    var entry := EntryOf(s, e);
    assert ExecutorOk(s, e);
    if p == entry.path && s.records[p] == entry.source {
      assert p in Mapped(s, entry.source);
    }
  }

  lemma CopyKeepsMeaning(s: State, e: Id, p: PathId)
    requires Intact(s) && CanCopy(s, e)
    ensures Reads(DoCopy(s, e), p) == Reads(s, p)
  {
  }

  lemma HandleKeepsMeaning(s: State, e: Id, p: PathId)
    requires Inv(s) && At(s, e, MetadataUpdated)
    ensures Reads(DoHandleSource(s, e), p) == Reads(s, p)
  {
    var source := EntryOf(s, e).source;
    if source in s.objects && source !in Next(s, HandleSource(e)).objects && p in s.records {
      DeletedUnreferenced(s, e);
      NotPointedTo(s, source, p);
    }
  }

  lemma OthersKeepMeaning(s: State, l: Step, p: PathId)
    requires Enabled(s, l) && !ByUser(l) && !l.Relink? && !l.Copy? && !l.HandleSource?
    ensures Reads(Next(s, l), p) == Reads(s, p)
  {
  }

  /** No step of any executor, fresh or stale, changes what any path reads, and no path ever
      points to a missing object. */
  lemma ExecutionKeepsMeaning(s: State, l: Step, p: PathId)
    requires Inv(s) && Enabled(s, l) && !ByUser(l)
    ensures Reads(Next(s, l), p) == Reads(s, p)
    ensures p in s.records ==> Reads(s, p).Some?
  {
    if l.Relink? {
      RelinkKeepsMeaning(s, l.e, p);
    } else if l.Copy? {
      CopyKeepsMeaning(s, l.e, p);
    } else if l.HandleSource? {
      HandleKeepsMeaning(s, l.e, p);
    } else {
      OthersKeepMeaning(s, l, p);
    }
  }

  // ---- Runs ----

  /** Records with their objects, and no action yet. */
  ghost predicate Init(s: State) {
    Intact(s) && s.plans == map[] && s.actions == map[] && s.executors == map[] && s.moved == {}
  }

  datatype Run = Run(states: seq<State>, steps: seq<Step>)

  ghost predicate Valid(r: Run) {
    && |r.states| == |r.steps| + 1 && Init(r.states[0])
    && forall i | 0 <= i < |r.steps| :: StepAt(r, i)
  }

  ghost predicate StepAt(r: Run, i: nat)
    requires |r.states| == |r.steps| + 1 && i < |r.steps|
  {
    Enabled(r.states[i], r.steps[i]) && Respects(r.states[i], r.steps[i]) && r.states[i + 1] == Next(r.states[i], r.steps[i])
  }

  lemma {:induction false} RunInv(r: Run, n: nat)
    requires Valid(r) && n < |r.states|
    ensures Inv(r.states[n])
  {
    if n == 0 {
      assert Inv(r.states[0]);
    } else {
      RunInv(r, n - 1);
      assert StepAt(r, n - 1);
      StepInv(r.states[n - 1], r.steps[n - 1]);
    }
  }

  /** Over a stretch of any run in which users leave the records alone, whatever the executors
      do, crash or repeat, every path reads the same at the end as at the start. */
  lemma {:induction false} MeaningKept(r: Run, a: nat, b: nat, p: PathId)
    requires Valid(r) && a <= b < |r.states| && forall i | a <= i < b :: !ByUser(r.steps[i])
    ensures Reads(r.states[b], p) == Reads(r.states[a], p)
    ensures p in r.states[b].records ==> Reads(r.states[b], p).Some?
  {
    for i := a to b
      invariant Reads(r.states[i], p) == Reads(r.states[a], p)
    {
      RunInv(r, i);
      assert StepAt(r, i);
      ExecutionKeepsMeaning(r.states[i], r.steps[i], p);
    }
    RunInv(r, b);
  }

  /** A completed action has relinked the record of every entry of its plan. */
  lemma CompletedMovedAll(r: Run, n: nat, id: Id, i: nat)
    requires Valid(r) && n < |r.states| && id in r.states[n].actions && r.states[n].actions[id].completed
    ensures id in r.states[n].plans
    ensures i < |r.states[n].plans[id]| ==> (id, i) in r.states[n].moved
  {
    RunInv(r, n);
  }
}
