/** What becomes of the records when one of the four things the drift service leaves to its
    callers is disregarded: each time a run in which a single step does so, and at whose end a
    record points to no object. */
module DriftLimits {
  import opened Wrappers
  import opened Drift

  /** All steps are possible, and all but those like the given one respect what is left to the
      callers. */
  ghost predicate Runs(s: State, steps: seq<Step>, s': State, but: Step) {
    if steps == [] then s' == s
    else
      && var l := steps[|steps| - 1];
      exists m :: Runs(s, steps[..|steps| - 1], m, but) && Goes(m, l, s', but)
  }

  predicate Goes(m: State, l: Step, s': State, but: Step) {
    Enabled(m, l) && (Respects(m, l) || l == but) && s' == Next(m, l)
  }

  ghost predicate Reaches(s: State, s': State, but: Step) {
    exists steps :: Runs(s, steps, s', but)
  }

  lemma Start(s: State, but: Step)
    ensures Reaches(s, s, but)
  {
    assert Runs(s, [], s, but);
  }

  lemma Extend(s: State, m: State, l: Step, but: Step)
    requires Reaches(s, m, but) && Enabled(m, l) && (Respects(m, l) || l == but)
    ensures Reaches(s, Next(m, l), but)
  {
    var steps :| Runs(s, steps, m, but);
    assert Goes(m, l, Next(m, l), but);
    OneMore(s, steps, m, l, Next(m, l), but);
  }

  lemma OneMore(s: State, steps: seq<Step>, m: State, l: Step, s': State, but: Step)
    requires Runs(s, steps, m, but) && Goes(m, l, s', but)
    ensures Runs(s, steps + [l], s', but)
  {
    var more := steps + [l];
    assert more[..|more| - 1] == steps;
    assert Runs(s, more[..|more| - 1], m, but) && more[|more| - 1] == l;
  }

  /** A state of a run in which nothing is disregarded keeps the invariant. */
  lemma {:induction false} RunsInv(s: State, steps: seq<Step>, s': State, but: Step)
    requires Inv(s) && Runs(s, steps, s', but) && but !in steps
    ensures Inv(s')
    decreases |steps|
  {
    if steps != [] {
      var l := steps[|steps| - 1];
      var m :| Runs(s, steps[..|steps| - 1], m, but) && Goes(m, l, s', but);
      RunsInv(s, steps[..|steps| - 1], m, but);
      StepInv(m, l);
    }
  }

  // ---- One executor up to the moment before it relinks ----

  /** An action of one entry, ready to run. */
  predicate Ready(s: State, id: Id, p: PlanEntry) {
    && id in s.plans && s.plans[id] == [p] && id in s.actions && s.actions[id] == NewlyCreated
    && SourceAsPlanned(s, p) && p.target !in s.objects && p.path in s.records && s.records[p.path] == p.source
  }

  /** The state with this executor and this saved action. */
  function Stage(s: State, e: Id, x: Executor, saved: Action): State {
    s.(actions := s.actions[x.action := saved], executors := s.executors[e := x])
  }

  function WithCopy(s: State, id: Id, p: PlanEntry): State {
    s.(objects := s.objects[p.target := Obj(s.nextGen, p.content, Some(id))], nextGen := s.nextGen + 1)
  }

  function Local(version: nat, c: Checkpoint, target: Option<nat>): Action {
    Action(version, 0, c, target, false)
  }

  /** Copied, verified and checked by an executor that has scanned, with nothing else touched. */
  function CheckedBy(s: State, e: Id, x: Executor, p: PlanEntry): State {
    var a := Local(4, Verified, Some(s.nextGen));
    Stage(WithCopy(s, x.action, p), e, x.(local := a, checked := true), a)
  }

  /** An executor that has taken over an action and read all records as they are. */
  function ReadAll(s: State, id: Id, a: Action): Executor {
    Executor(id, a, Scan(true, true, {}, s.records), Some(CountRefs(s.records)), false, false)
  }

  function Checked(s: State, e: Id, id: Id, p: PlanEntry): State {
    CheckedBy(s, e, ReadAll(s, id, Local(2, Pending, None)), p)
  }

  lemma Twice<K, V>(m: map<K, V>, k: K, v: V, w: V)
    ensures m[k := v][k := w] == m[k := w]
  {
  }

  lemma StageTwice(s: State, e: Id, x: Executor, saved: Action, x': Executor, saved': Action)
    requires x.action == x'.action
    ensures Stage(Stage(s, e, x, saved), e, x', saved') == Stage(s, e, x', saved')
  {
    Twice(s.actions, x.action, saved, saved');
    Twice(s.executors, e, x, x');
  }

  lemma StageSelf(s: State, e: Id, x: Executor)
    requires x.action in s.actions
    ensures SetExecutor(s, e, x) == Stage(s, e, x, s.actions[x.action])
  {
    assert s.actions[x.action := s.actions[x.action]] == s.actions;
  }

  lemma ResumeStage(s: State, e: Id, id: Id)
    requires e !in s.executors && id in s.plans && id in s.actions && !s.actions[id].completed
    ensures var a := s.actions[id].(version := s.actions[id].version + 1);
            Enabled(s, Resume(e, id)) && Next(s, Resume(e, id)) == Stage(s, e, Executor(id, a, NotScanned, None, false, false), a)
  {
  }

  function LiveKeys(s: State): set<PathId> {
    set p | p in s.records && p.Live?
  }

  function TrashedKeys(s: State): set<PathId> {
    set p | p in s.records && p.Trashed?
  }

  lemma ListLiveStage(s: State, e: Id, x: Executor)
    requires x.refs.None? && x.scan == NotScanned
    ensures Enabled(Stage(s, e, x, x.local), ListLive(e))
    ensures Next(Stage(s, e, x, x.local), ListLive(e)) == Stage(s, e, x.(scan := Scan(true, false, LiveKeys(s), map[])), x.local)
  {
    assert {} + LiveKeys(s) == LiveKeys(s);
    StageTwice(s, e, x, x.local, x.(scan := Scan(true, false, LiveKeys(s), map[])), x.local);
  }

  lemma ListTrashedStage(s: State, e: Id, x: Executor)
    requires x.refs.None? && x.scan == Scan(true, false, LiveKeys(s), map[])
    ensures Enabled(Stage(s, e, x, x.local), ListTrashed(e))
    ensures Next(Stage(s, e, x, x.local), ListTrashed(e)) == Stage(s, e, x.(scan := Scan(true, true, s.records.Keys, map[])), x.local)
  {
    assert LiveKeys(s) + TrashedKeys(s) == s.records.Keys;
    StageTwice(s, e, x, x.local, x.(scan := Scan(true, true, s.records.Keys, map[])), x.local);
  }

  /** What reading all that is listed will have found. */
  function Reading(scan: Scan, records: map<PathId, string>): map<PathId, string> {
    map p | p in scan.found.Keys + (scan.todo * records.Keys) :: if p in scan.todo && p in records then records[p] else scan.found[p]
  }

  function AfterRead(s: State, x: Executor, p: PathId): Executor {
    x.(scan := x.scan.(todo := x.scan.todo - {p}, found := if p in s.records then x.scan.found[p := s.records[p]] else x.scan.found))
  }

  lemma ReadStage(s: State, e: Id, x: Executor, p: PathId)
    requires x.refs.None? && p in x.scan.todo
    ensures Enabled(Stage(s, e, x, x.local), ReadOne(e, p))
    ensures Next(Stage(s, e, x, x.local), ReadOne(e, p)) == Stage(s, e, AfterRead(s, x, p), x.local)
    ensures Reading(AfterRead(s, x, p).scan, s.records) == Reading(x.scan, s.records)
  {
    StageTwice(s, e, x, x.local, AfterRead(s, x, p), x.local);
  }

  lemma {:induction false} ReadsAll(s0: State, s: State, e: Id, x: Executor, but: Step)
    requires Reaches(s0, Stage(s, e, x, x.local), but) && x.refs.None?
    ensures Reaches(s0, Stage(s, e, x.(scan := x.scan.(todo := {}, found := Reading(x.scan, s.records))), x.local), but)
    decreases |x.scan.todo|
  {
    if x.scan.todo == {} {
      assert Reading(x.scan, s.records) == x.scan.found;
    } else {
      var p :| p in x.scan.todo;
      ReadStage(s, e, x, p);
      Extend(s0, Stage(s, e, x, x.local), ReadOne(e, p), but);
      ReadsAll(s0, s, e, AfterRead(s, x, p), but);
    }
  }

  lemma CountStage(s: State, e: Id, x: Executor)
    requires x.refs.None? && x.scan.live && x.scan.trashed && x.scan.todo == {}
    ensures Enabled(Stage(s, e, x, x.local), Count(e))
    ensures Next(Stage(s, e, x, x.local), Count(e)) == Stage(s, e, x.(refs := Some(CountRefs(x.scan.found))), x.local)
  {
    StageTwice(s, e, x, x.local, x.(refs := Some(CountRefs(x.scan.found))), x.local);
  }

  function Listed(s: State, id: Id, a: Action): Executor {
    Executor(id, a, Scan(true, true, s.records.Keys, map[]), None, false, false)
  }

  lemma ReachListed(s0: State, s: State, e: Id, id: Id, but: Step)
    requires Reaches(s0, s, but) && e !in s.executors && id in s.plans && id in s.actions && !s.actions[id].completed
    ensures var a := s.actions[id].(version := s.actions[id].version + 1);
            Reaches(s0, Stage(s, e, Listed(s, id, a), a), but)
  {
    var a := s.actions[id].(version := s.actions[id].version + 1);
    var x := Executor(id, a, NotScanned, None, false, false);
    ResumeStage(s, e, id);
    Extend(s0, s, Resume(e, id), but);
    ListLiveStage(s, e, x);
    Extend(s0, Stage(s, e, x, a), ListLive(e), but);
    var x' := x.(scan := Scan(true, false, LiveKeys(s), map[]));
    ListTrashedStage(s, e, x');
    Extend(s0, Stage(s, e, x', a), ListTrashed(e), but);
  }

  lemma ReadsAndCounts(s0: State, s: State, e: Id, x: Executor, but: Step)
    requires Reaches(s0, Stage(s, e, x, x.local), but) && x.refs.None? && x.scan.live && x.scan.trashed
    ensures var found := Reading(x.scan, s.records);
            Reaches(s0, Stage(s, e, x.(scan := x.scan.(todo := {}, found := found), refs := Some(CountRefs(found))), x.local), but)
  {
    ReadsAll(s0, s, e, x, but);
    var x' := x.(scan := x.scan.(todo := {}, found := Reading(x.scan, s.records)));
    CountStage(s, e, x');
    Extend(s0, Stage(s, e, x', x.local), Count(e), but);
  }

  lemma ResumedAt(s0: State, s: State, e: Id, id: Id, but: Step)
    requires Reaches(s0, s, but) && e !in s.executors && id in s.plans && id in s.actions && !s.actions[id].completed
    ensures var a := s.actions[id].(version := s.actions[id].version + 1);
            Reaches(s0, Stage(s, e, ReadAll(s, id, a), a), but)
  {
    var a := s.actions[id].(version := s.actions[id].version + 1);
    ReachListed(s0, s, e, id, but);
    assert Reading(Listed(s, id, a).scan, s.records) == s.records;
    ReadsAndCounts(s0, s, e, Listed(s, id, a), but);
  }

  lemma SaveStage(s: State, e: Id, x: Executor, saved: Action)
    requires x.unsaved && x.local.version == saved.version
    ensures Enabled(Stage(s, e, x, saved), Save(e))
    ensures var a := x.local.(version := saved.version + 1);
            Next(Stage(s, e, x, saved), Save(e)) == Stage(s, e, x.(local := a, unsaved := false), a)
  {
    var a := x.local.(version := saved.version + 1);
    StageTwice(s, e, x, saved, x.(local := a, unsaved := false), a);
  }

  lemma CopyStage(s: State, e: Id, x: Executor, p: PlanEntry)
    requires x.action in s.plans && s.plans[x.action] == [p] && SourceAsPlanned(s, p) && p.target !in s.objects
    requires x.refs.Some? && !x.unsaved && x.local.index == 0 && x.local.checkpoint == Pending
    ensures Enabled(Stage(s, e, x, x.local), Copy(e))
    ensures Next(Stage(s, e, x, x.local), Copy(e))
         == Stage(WithCopy(s, x.action, p), e, x.(local := x.local.(checkpoint := Copied, target := Some(s.nextGen)), unsaved := true), x.local)
  {
    var s1 := Stage(s, e, x, x.local);
    assert EntryOf(s1, e) == p;
    StageTwice(s, e, x, x.local, x.(local := x.local.(checkpoint := Copied, target := Some(s.nextGen)), unsaved := true), x.local);
  }

  lemma VerifyStage(s: State, e: Id, x: Executor, p: PlanEntry)
    requires x.action in s.plans && s.plans[x.action] == [p] && CopyGood(s, p)
    requires x.refs.Some? && !x.unsaved && x.local.index == 0 && x.local.checkpoint == Copied
    ensures Enabled(Stage(s, e, x, x.local), Verify(e))
    ensures Next(Stage(s, e, x, x.local), Verify(e))
         == Stage(s, e, x.(local := x.local.(checkpoint := Verified, target := Some(s.objects[p.target].generation)), unsaved := true), x.local)
  {
    var s1 := Stage(s, e, x, x.local);
    assert EntryOf(s1, e) == p;
    StageTwice(s, e, x, x.local, x.(local := x.local.(checkpoint := Verified, target := Some(s.objects[p.target].generation)), unsaved := true), x.local);
  }

  lemma CheckStage(s: State, e: Id, x: Executor, p: PlanEntry)
    requires x.action in s.plans && s.plans[x.action] == [p] && CopyGood(s, p)
    requires x.refs.Some? && !x.unsaved && !x.checked && x.local.index == 0 && x.local.checkpoint == Verified
    requires x.local.target == Some(s.objects[p.target].generation) && s.objects[p.target].marker == Some(x.action)
    ensures Enabled(Stage(s, e, x, x.local), Check(e))
    ensures Next(Stage(s, e, x, x.local), Check(e)) == Stage(s, e, x.(checked := true), x.local)
  {
    var s1 := Stage(s, e, x, x.local);
    assert EntryOf(s1, e) == p;
    StageTwice(s, e, x, x.local, x.(checked := true), x.local);
  }

  /** An executor about to copy. */
  predicate Scanner(s: State, x: Executor, p: PlanEntry) {
    && x.action in s.plans && s.plans[x.action] == [p] && SourceAsPlanned(s, p) && p.target !in s.objects
    && x.refs.Some? && !x.checked && !x.unsaved && x.local == Local(2, Pending, None)
  }

  lemma ReachCopied(s0: State, s: State, e: Id, x: Executor, p: PlanEntry, but: Step)
    requires Reaches(s0, Stage(s, e, x, x.local), but) && Scanner(s, x, p)
    ensures var a := Local(3, Copied, Some(s.nextGen));
            Reaches(s0, Stage(WithCopy(s, x.action, p), e, x.(local := a), a), but)
  {
    CopyStage(s, e, x, p);
    Extend(s0, Stage(s, e, x, x.local), Copy(e), but);
    var x' := x.(local := x.local.(checkpoint := Copied, target := Some(s.nextGen)), unsaved := true);
    SaveStage(WithCopy(s, x.action, p), e, x', x.local);
    Extend(s0, Stage(WithCopy(s, x.action, p), e, x', x.local), Save(e), but);
  }

  lemma ReachCheckedBy(s0: State, s: State, e: Id, x0: Executor, p: PlanEntry, but: Step)
    requires Reaches(s0, Stage(s, e, x0, x0.local), but) && Scanner(s, x0, p)
    ensures Reaches(s0, CheckedBy(s, e, x0, p), but)
  {
    ReachCopied(s0, s, e, x0, p, but);
    var s1 := WithCopy(s, x0.action, p);
    var x := x0.(local := Local(3, Copied, Some(s.nextGen)));
    VerifyStage(s1, e, x, p);
    Extend(s0, Stage(s1, e, x, x.local), Verify(e), but);
    var x' := x.(local := Local(3, Verified, Some(s.nextGen)), unsaved := true);
    SaveStage(s1, e, x', x.local);
    Extend(s0, Stage(s1, e, x', x.local), Save(e), but);
    var x'' := x.(local := Local(4, Verified, Some(s.nextGen)));
    CheckStage(s1, e, x'', p);
    Extend(s0, Stage(s1, e, x'', x''.local), Check(e), but);
  }

  lemma ReachChecked(s0: State, s: State, e: Id, id: Id, p: PlanEntry, but: Step)
    requires Reaches(s0, s, but) && Ready(s, id, p) && e !in s.executors
    ensures Reaches(s0, Checked(s, e, id, p), but)
  {
    ResumedAt(s0, s, e, id, but);
    ReachCheckedBy(s0, s, e, ReadAll(s, id, Local(2, Pending, None)), p, but);
  }

  // ---- The four failures ----

  /** An executor about to relink the record of its only entry. */
  predicate Relinks(s: State, e: Id, p: PlanEntry) {
    && e in s.executors && s.executors[e].action in s.plans && s.plans[s.executors[e].action] == [p]
    && s.executors[e].checked && !s.executors[e].unsaved && s.executors[e].refs.Some?
    && s.executors[e].local.index == 0 && s.executors[e].local.checkpoint == Verified
    && p.path in s.records && s.records[p.path] == p.source
  }

  lemma Relinked(s: State, e: Id, p: PlanEntry)
    requires Relinks(s, e, p)
    ensures Enabled(s, Relink(e)) && Next(s, Relink(e)).records == s.records[p.path := p.target]
    ensures Next(s, Relink(e)).objects == s.objects && Next(s, Relink(e)).plans == s.plans && Next(s, Relink(e)).actions == s.actions
    ensures Next(s, Relink(e)).executors == s.executors[e := Next(s, Relink(e)).executors[e]]
    ensures var x := Next(s, Relink(e)).executors[e];
            && x.unsaved && x.action == s.executors[e].action && x.refs.Some? && x.local == s.executors[e].local.(checkpoint := MetadataUpdated)
            && (RefOf(s.executors[e].refs.value, p.source) == 1 ==> RefOf(x.refs.value, p.source) == 0)
  {
    assert EntryOf(s, e) == p;
  }

  lemma Saved(s: State, e: Id)
    requires e in s.executors && s.executors[e].unsaved && s.executors[e].action in s.actions
    requires s.executors[e].local.version == s.actions[s.executors[e].action].version
    ensures var l := Save(e); Enabled(s, l) && Next(s, l).records == s.records && Next(s, l).objects == s.objects && Next(s, l).plans == s.plans
    ensures var x := Next(s, Save(e)).executors[e];
            && Next(s, Save(e)).executors == s.executors[e := x]
            && !x.unsaved && x.action == s.executors[e].action && x.refs == s.executors[e].refs
            && x.local == s.executors[e].local.(version := x.local.version)
  {
  }

  /** An executor that has relinked its only entry and counts no further record at the source. */
  predicate Deletes(s: State, e: Id, p: PlanEntry) {
    && e in s.executors && s.executors[e].action in s.plans && s.plans[s.executors[e].action] == [p]
    && !s.executors[e].unsaved && s.executors[e].refs.Some? && RefOf(s.executors[e].refs.value, p.source) == 0
    && s.executors[e].local.index == 0 && s.executors[e].local.checkpoint == MetadataUpdated
    && p.source in s.objects && s.objects[p.source].generation == p.generation
  }

  lemma Dangles(s: State, e: Id, p: PlanEntry, b: PathId)
    requires Deletes(s, e, p) && b in s.records && s.records[b] == p.source
    ensures Enabled(s, HandleSource(e)) && !Intact(Next(s, HandleSource(e)))
  {
    assert EntryOf(s, e) == p;
  }

  ghost predicate Loses(s: State, but: Step) {
    exists s' :: Reaches(s, s', but) && !Intact(s')
  }

  lemma RelinkAndSave(s0: State, s: State, e: Id, p: PlanEntry, but: Step) returns (s': State)
    requires Reaches(s0, s, but) && Relinks(s, e, p) && s.executors[e].action in s.actions && s.actions[s.executors[e].action] == s.executors[e].local
    requires RefOf(s.executors[e].refs.value, p.source) == 1 && p.source in s.objects && s.objects[p.source].generation == p.generation
    ensures Reaches(s0, s', but) && Deletes(s', e, p) && s'.records == s.records[p.path := p.target]
    ensures s'.objects == s.objects && s'.plans == s.plans && s'.executors == s.executors[e := s'.executors[e]]
  {
    Relinked(s, e, p);
    Extend(s0, s, Relink(e), but);
    var m := Next(s, Relink(e));
    Saved(m, e);
    Extend(s0, m, Save(e), but);
    s' := Next(m, Save(e));
    Twice(s.executors, e, m.executors[e], s'.executors[e]);
  }

  /** A record to move from where it is to a free name. */
  ghost predicate Movable(s: State, p: PlanEntry) {
    Init(s) && SourceAsPlanned(s, p) && p.target !in s.objects && p.path in s.records && s.records[p.path] == p.source
  }

  lemma CheckedRelinks(s: State, e: Id, id: Id, p: PlanEntry)
    requires Ready(s, id, p)
    ensures Relinks(Checked(s, e, id, p), e, p)
  {
  }

  function Begun(s: State, id: Id, p: PlanEntry): State {
    s.(plans := s.plans[id := [p]], actions := s.actions[id := NewlyCreated])
  }

  lemma Begin(s0: State, s: State, id: Id, p: PlanEntry, but: Step)
    requires Reaches(s0, s, but) && id !in s.plans && id !in s.actions && p.target != p.source
    requires Respects(s, NewAction(id, [p])) || but == NewAction(id, [p])
    ensures Reaches(s0, Begun(s, id, p), but)
  {
    Extend(s0, s, NewAction(id, [p]), but);
  }

  lemma ReachFirst(s: State, p: PlanEntry, but: Step)
    requires Movable(s, p)
    ensures Ready(Begun(s, 1, p), 1, p) && Reaches(s, Checked(Begun(s, 1, p), 1, 1, p), but)
  {
    Start(s, but);
    Begin(s, s, 1, p, but);
    ReachChecked(s, Begun(s, 1, p), 1, 1, p, but);
  }

  /** A target removed between its revalidation and the relinking. */
  lemma RemovedTarget(s: State, p: PlanEntry)
    requires Movable(s, p)
    ensures Loses(s, RemoveObject(p.target))
  {
    var but := RemoveObject(p.target);
    ReachFirst(s, p, but);
    var c := Checked(Begun(s, 1, p), 1, 1, p);
    CheckedRelinks(Begun(s, 1, p), 1, 1, p);
    Extend(s, c, but, but);
    var m := Next(c, but);
    Relinked(m, 1, p);
    Extend(s, m, Relink(1), but);
    assert Next(m, Relink(1)).records[p.path] == p.target;
  }

  /** A further record mapped to the source after the executor's scan. */
  lemma MappedToSource(s: State, p: PlanEntry, b: PathId)
    requires Movable(s, p) && Mapped(s, p.source) == {p.path} && b != p.path
    ensures Loses(s, MapRecord(b, p.source))
  {
    var but := MapRecord(b, p.source);
    ReachFirst(s, p, but);
    var c := Checked(Begun(s, 1, p), 1, 1, p);
    CheckedRelinks(Begun(s, 1, p), 1, 1, p);
    Extend(s, c, but, but);
    var m := Next(c, but);
    CountOf(s.records, p.source);
    assert Mapped(Begun(s, 1, p), p.source) == {p.path};
    var d := RelinkAndSave(s, m, 1, p, but);
    Dangles(d, 1, p, b);
    Extend(s, d, HandleSource(1), but);
  }

  /** A second executor takes the action over where the first stopped, and relinks. */
  lemma TakenOver(s0: State, c: State, id: Id, e: Id, p: PlanEntry, but: Step) returns (s': State)
    requires Reaches(s0, c, but) && e !in c.executors && id in c.plans && c.plans[id] == [p] && id in c.actions && CopyGood(c, p)
    requires c.actions[id] == Local(4, Verified, Some(c.objects[p.target].generation)) && c.objects[p.target].marker == Some(id)
    requires p.path in c.records && c.records[p.path] == p.source
    ensures Reaches(s0, s', but) && s'.records == c.records[p.path := p.target] && s'.objects == c.objects && s'.plans == c.plans
    ensures s'.actions.Keys == c.actions.Keys && e in s'.executors && s'.executors == c.executors[e := s'.executors[e]]
    ensures s'.executors[e].refs.Some?
  {
    var a := c.actions[id].(version := 5);
    var x := ReadAll(c, id, a);
    ResumedAt(s0, c, e, id, but);
    CheckStage(c, e, x, p);
    Extend(s0, Stage(c, e, x, a), Check(e), but);
    var c2 := Stage(c, e, x.(checked := true), a);
    Relinked(c2, e, p);
    Extend(s0, c2, Relink(e), but);
    s' := Next(c2, Relink(e));
    Twice(c.executors, e, c2.executors[e], s'.executors[e]);
  }

  /** The relinked record is renamed, and another one that shares the source takes its path. */
  lemma Renamed(s0: State, d: State, p: PathId, q: PathId, r: PathId, but: Step) returns (s': State)
    requires Reaches(s0, d, but) && p in d.records && r in d.records && q !in d.records && p != r
    requires forall e | e in d.executors :: d.executors[e].refs.Some?
    ensures Reaches(s0, s', but) && s' == d.(records := s'.records)
    ensures s'.records == ((d.records - {p})[q := d.records[p]] - {r})[p := d.records[r]]
  {
    Extend(s0, d, MoveRecord(p, q), but);
    var d1 := Next(d, MoveRecord(p, q));
    Extend(s0, d1, MoveRecord(r, p), but);
    s' := Next(d1, MoveRecord(r, p));
  }

  /** The renamed record is the only one at the target, and the other has its path. */
  lemma RenamedRecords(s: State, records: map<PathId, string>, p: PathId, q: PathId, r: PathId, target: string)
    requires p in records && r in records && q !in records && p != r && forall x | x in records :: records[x] != target
    requires s.records == ((records[p := target] - {p})[q := target] - {r})[p := records[r]]
    ensures p in s.records && q in s.records && s.records[q] == target && s.records[p] == records[r]
    ensures RefOf(CountRefs(s.records), target) == 1
  {
    OnlyOne(s, q, target);
  }

  lemma OnlyOne(s: State, q: PathId, name: string)
    requires q in s.records && s.records[q] == name && forall p | p in s.records && s.records[p] == name :: p == q
    ensures RefOf(CountRefs(s.records), name) == 1
  {
    CountOf(s.records, name);
    assert Mapped(s, name) == {q};
  }

  /** One executor relinks what the other is about to move on, which then deletes it. */
  lemma Crossed(s0: State, d: State, first: PlanEntry, second: PlanEntry, but: Step)
    requires Reaches(s0, d, but) && but == NewAction(2, [second]) && 2 !in d.plans && 2 !in d.actions && 3 !in d.executors
    requires Relinks(d, 1, first) && second.source == first.target && second.path != first.path
    requires SourceAsPlanned(d, second) && second.target !in d.objects && RefOf(CountRefs(d.records), second.source) == 1
    requires second.path in d.records && d.records[second.path] == second.source
    ensures Loses(s0, but)
  {
    Begin(s0, d, 2, second, but);
    var b := Begun(d, 2, second);
    ReachChecked(s0, b, 3, 2, second, but);
    CheckedRelinks(b, 3, 2, second);
    var g := RelinkAndSave(s0, Checked(b, 3, 2, second), 3, second, but);
    StillRelinks(d, g, first);
    Relinked(g, 1, first);
    Extend(s0, g, Relink(1), but);
    var h := Next(g, Relink(1));
    Dangles(h, 3, second, first.path);
    Extend(s0, h, HandleSource(3), but);
  }

  lemma StillRelinks(d: State, g: State, p: PlanEntry)
    requires Relinks(d, 1, p) && 1 in g.executors && g.executors[1] == d.executors[1]
    requires d.executors[1].action in g.plans && g.plans[d.executors[1].action] == d.plans[d.executors[1].action]
    requires p.path in g.records && g.records[p.path] == d.records[p.path]
    ensures Relinks(g, 1, p)
  {
  }

  /** The first action's record has been relinked by a second executor and renamed, and another
      one has taken its path; the first executor is still about to relink. */
  lemma Overtaken(s: State, p: PlanEntry, q: PathId, r: PathId, but: Step) returns (d: State)
    requires Movable(s, p) && r in s.records && r != p.path && s.records[r] == p.source && q !in s.records
    ensures Reaches(s, d, but) && Relinks(d, 1, p) && RefOf(CountRefs(d.records), p.target) == 1
    ensures d.plans == map[1 := [p]] && d.actions.Keys == {1} && d.executors.Keys == {1, 2}
    ensures d.objects == s.objects[p.target := Obj(s.nextGen, p.content, Some(1))] && q in d.records && d.records[q] == p.target
  {
    ReachFirst(s, p, but);
    var c := Checked(Begun(s, 1, p), 1, 1, p);
    CheckedRelinks(Begun(s, 1, p), 1, 1, p);
    var d1 := TakenOver(s, c, 1, 2, p, but);
    d := Renamed(s, d1, p.path, q, r, but);
    RenamedRecords(d, s.records, p.path, q, r, p.target);
    StillRelinks(c, d, p);
  }

  /** A new action whose source is the target of one under way: the renamed record is drifted, and
      the target is a source of the next plan. */
  lemma OverlappingPlans(s: State, p: PlanEntry, q: PathId, r: PathId, target: string)
    requires Movable(s, p) && r in s.records && r != p.path && s.records[r] == p.source && q !in s.records
    requires target !in s.objects && target != p.target
    ensures Loses(s, NewAction(2, [PlanEntry(q, p.target, s.nextGen, p.content, target)]))
  {
    var second := PlanEntry(q, p.target, s.nextGen, p.content, target);
    var d := Overtaken(s, p, q, r, NewAction(2, [second]));
    Crossed(s, d, p, second, NewAction(2, [second]));
  }

  lemma CheckedByRelinks(s: State, e: Id, x: Executor, p: PlanEntry)
    requires Scanner(s, x, p) && p.path in s.records && s.records[p.path] == p.source
    ensures Relinks(CheckedBy(s, e, x, p), e, p)
  {
  }

  /** A record renamed between the listing and its own reading. Neither of its paths is found, so
      a source that two records share is counted once, and is deleted with the other record. */
  lemma TornScan(s: State, p: PlanEntry, b: PathId, to: PathId)
    requires Movable(s, p) && Mapped(s, p.source) == {p.path, b} && b != p.path && to !in s.records
    ensures Loses(s, MoveRecord(b, to))
  {
    var but, x := MoveRecord(b, to), Listed(s, 1, Local(2, Pending, None));
    Start(s, but);
    Begin(s, s, 1, p, but);
    ReachListed(s, Begun(s, 1, p), 1, 1, but);
    var d := Begun(s, 1, p);
    assert b in Mapped(s, p.source);
    Extend(s, Stage(d, 1, x, x.local), but, but);
    var d' := d.(records := (s.records - {b})[to := s.records[b]]);
    assert Next(Stage(d, 1, x, x.local), but) == Stage(d', 1, x, x.local);
    TornCount(s.records, d'.records, x.scan, p, b, to);
    ReadsAndCounts(s, d', 1, x, but);
    var found := Reading(x.scan, d'.records);
    var x' := x.(scan := x.scan.(todo := {}, found := found), refs := Some(CountRefs(found)));
    ReachCheckedBy(s, d', 1, x', p, but);
    CheckedByRelinks(d', 1, x', p);
    var g := RelinkAndSave(s, CheckedBy(d', 1, x', p), 1, p, but);
    Dangles(g, 1, p, to);
    Extend(s, g, HandleSource(1), but);
  }

  lemma TornCount(records: map<PathId, string>, records': map<PathId, string>, scan: Scan, p: PlanEntry, b: PathId, to: PathId)
    requires b in records && to !in records && records' == (records - {b})[to := records[b]]
    requires scan.todo == records.Keys && scan.found == map[] && Of(records, p.source) == {p.path, b} && b != p.path
    ensures RefOf(CountRefs(Reading(scan, records')), p.source) == 1
    ensures p.path in records' && records'[p.path] == p.source && to in records' && records'[to] == p.source && to != p.path
  {
    var found := Reading(scan, records');
    assert p.path in Of(records, p.source) && b in Of(records, p.source);
    forall q ensures q in Of(found, p.source) <==> q == p.path {
      assert q in found ==> q in records && q != b && found[q] == records[q];
      assert q in records && records[q] == p.source ==> q in Of(records, p.source);
    }
    assert Of(found, p.source) == {p.path};
    CountOf(found, p.source);
  }
}
