/** The executor's code over the shared store. */
module DriftExecutor {
  import opened Wrappers
  import opened Drift

  /** Plans never change and relinked entries are not forgotten. */
  ghost predicate Lasting(s: State, s': State) {
    (forall id | id in s.plans :: id in s'.plans && s'.plans[id] == s.plans[id]) && s.moved <= s'.moved
  }

  /** And an executor's own copy changes only by its own steps. */
  ghost predicate Undisturbed(s: State, s': State, e: Id) {
    Lasting(s, s') && (e in s.executors <==> e in s'.executors) && (e in s.executors ==> s'.executors[e] == s.executors[e])
  }

  lemma StepLasting(s: State, l: Step, e: Id)
    requires Enabled(s, l)
    ensures Lasting(s, Next(s, l))
    ensures Actor(l) != Some(e) ==> Undisturbed(s, Next(s, l), e)
  {
    forall id | id in s.plans ensures id in Next(s, l).plans && Next(s, l).plans[id] == s.plans[id] {
      StepPlans(s, l, id);
    }
    StepMoved(s, l);
    StepStop(s, l, e);
    if e in s.executors && e in Next(s, l).executors {
      StepOwn(s, l, e);
    }
  }

  lemma StepMoved(s: State, l: Step)
    requires Enabled(s, l)
    ensures s.moved <= Next(s, l).moved
  {
  }

  /** The executor cannot go on with its action: its checkpoint cannot be saved, because somebody
      else has saved one; or the objects and records are not, or no longer, as its plan has them. */
  ghost predicate Stuck(s: State, e: Id, id: Id) {
    && Known(s, e) && s.executors[e].action == id
    && var x := s.executors[e];
      if x.unsaved then !(id in s.actions && s.actions[id].version == x.local.version)
      else
        && x.local.index < |s.plans[id]|
        && var p := s.plans[id][x.local.index];
          match x.local.checkpoint
          case Pending => !SourceAsPlanned(s, p) || (p.target in s.objects && s.objects[p.target].marker != Some(id))
          case Copied => !CopyGood(s, p)
          case Verified => if x.checked then !MapsTo(s, p) else !StillVerified(s, p, x.local.target, id)
          case _ => false
  }

  predicate MapsTo(s: State, p: PlanEntry) {
    p.path in s.records && s.records[p.path] in {p.source, p.target}
  }

  /** The target is the object that was verified, with the planned content, and not marked by
      another action. */
  predicate StillVerified(s: State, p: PlanEntry, target: Option<nat>, id: Id) {
    && p.target in s.objects && s.objects[p.target].content == p.content
    && target == Some(s.objects[p.target].generation) && s.objects[p.target].marker in {None, Some(id)}
  }

  class DriftStore {
    var s: State

    ghost predicate Consistent()
      reads this
    {
      Inv(s)
    }

    constructor (initial: State)
      requires Init(initial)
      ensures Consistent() && s == initial
    {
      s := initial;
    }

    method Take(l: Step)
      requires Consistent() && Enabled(s, l) && Respects(s, l)
      modifies this
      ensures Consistent() && s == Next(old(s), l) && Lasting(old(s), s)
    {
      StepInv(s, l);
      StepLasting(s, l, 0);
      s := Next(s, l);
    }

    /** Users, new actions and other executors, for any number of steps. */
    method Interfere(e: Id)
      requires Consistent()
      modifies this
      ensures Consistent() && Undisturbed(old(s), s, e)
    {
      var n: int := *;
      while 0 < n
        invariant Consistent() && Undisturbed(old(s), s, e)
      {
        n := n - 1;
        var l: Step := *;
        if Enabled(s, l) && Respects(s, l) && Actor(l) != Some(e) {
          StepLasting(s, l, e);
          Take(l);
        }
      }
    }

    /** Saves the executor's checkpoint if the action still has the version it last saw. */
    method SaveCheckpoint(e: Id) returns (ok: bool)
      requires Consistent() && Known(s, e) && s.executors[e].unsaved
      modifies this
      ensures Consistent() && Lasting(old(s), s) && e in s.executors
      ensures ok ==> s.executors[e] == old(s.executors[e]).(unsaved := false, local := old(s.executors[e]).local.(version := s.executors[e].local.version))
      ensures ok ==> old(s.executors[e]).action in s.actions && s.actions[old(s.executors[e]).action] == s.executors[e].local
      ensures !ok ==> s.executors[e] == old(s.executors[e]) && Stuck(s, e, old(s.executors[e]).action)
    {
      Interfere(e);
      ok := s.executors[e].action in s.actions && s.actions[s.executors[e].action].version == s.executors[e].local.version;
      if ok {
        Take(Save(e));
      }
    }

    /** Where the executor stands after a checkpoint: the entry is the same, or the next. */
    ghost predicate Standing(e: Id, id: Id, index: nat, c: Checkpoint)
      reads this
    {
      && e in s.executors && s.executors[e].action == id && s.executors[e].refs.Some? && !s.executors[e].local.completed
      && id in s.plans && s.executors[e].local.index == index && s.executors[e].local.checkpoint == c
      && index <= |s.plans[id]|
    }

    method CopyEntry(e: Id, id: Id, index: nat) returns (ok: bool)
      requires Consistent() && Standing(e, id, index, Pending) && !s.executors[e].unsaved && index < |s.plans[id]|
      modifies this
      ensures Consistent() && Lasting(old(s), s) && e in s.executors
      ensures ok ==> Standing(e, id, index, Copied) && !s.executors[e].unsaved
      ensures !ok ==> Stuck(s, e, id)
    {
      Interfere(e);
      var p := s.plans[id][index];
      ok := SourceAsPlanned(s, p) && (p.target in s.objects ==> s.objects[p.target].marker == Some(id));
      if ok {
        Take(Copy(e));
        ok := SaveCheckpoint(e);
      }
    }

    method VerifyEntry(e: Id, id: Id, index: nat) returns (ok: bool)
      requires Consistent() && Standing(e, id, index, Copied) && !s.executors[e].unsaved && index < |s.plans[id]|
      modifies this
      ensures Consistent() && Lasting(old(s), s) && e in s.executors
      ensures ok ==> Standing(e, id, index, Verified) && !s.executors[e].unsaved
      ensures !ok ==> Stuck(s, e, id)
    {
      Interfere(e);
      ok := CopyGood(s, s.plans[id][index]);
      if ok {
        Take(Verify(e));
        ok := SaveCheckpoint(e);
      }
    }

    /** The target is still the object verified, and no other action's copy. */
    method RevalidateTarget(e: Id, id: Id, index: nat) returns (ok: bool)
      requires Consistent() && Standing(e, id, index, Verified) && !s.executors[e].unsaved && index < |s.plans[id]|
      modifies this
      ensures Consistent() && Lasting(old(s), s) && e in s.executors
      ensures ok ==> Standing(e, id, index, Verified) && !s.executors[e].unsaved && s.executors[e].checked
      ensures !ok ==> Stuck(s, e, id)
    {
      Interfere(e);
      var p := s.plans[id][index];
      ok := s.executors[e].checked;
      if !ok && CopyGood(s, p) && s.executors[e].local.target == Some(s.objects[p.target].generation) {
        ok := s.objects[p.target].marker.Some? ==> s.objects[p.target].marker == Some(id);
        if ok {
          Take(Check(e));
        }
      }
    }

    /** Revalidates the target and then, in a second access, relinks the record if it still maps
        to the source. */
    method RelinkEntry(e: Id, id: Id, index: nat) returns (ok: bool)
      requires Consistent() && Standing(e, id, index, Verified) && !s.executors[e].unsaved && index < |s.plans[id]|
      modifies this
      ensures Consistent() && Lasting(old(s), s) && e in s.executors
      ensures ok ==> Standing(e, id, index, MetadataUpdated) && !s.executors[e].unsaved && (id, index) in s.moved
      ensures !ok ==> Stuck(s, e, id)
    {
      ok := RevalidateTarget(e, id, index);
      if ok {
        ok := RelinkRecord(e, id, index);
      }
    }

    method RelinkRecord(e: Id, id: Id, index: nat) returns (ok: bool)
      requires Consistent() && Standing(e, id, index, Verified) && !s.executors[e].unsaved && s.executors[e].checked && index < |s.plans[id]|
      modifies this
      ensures Consistent() && Lasting(old(s), s) && e in s.executors
      ensures ok ==> Standing(e, id, index, MetadataUpdated) && !s.executors[e].unsaved && (id, index) in s.moved
      ensures !ok ==> Stuck(s, e, id)
    {
      Interfere(e);
      var p := s.plans[id][index];
      ok := p.path in s.records && (s.records[p.path] == p.source || s.records[p.path] == p.target);
      if ok {
        Take(Relink(e));
        ok := SaveCheckpoint(e);
      }
    }

    method HandleEntry(e: Id, id: Id, index: nat) returns (ok: bool)
      requires Consistent() && Standing(e, id, index, MetadataUpdated) && !s.executors[e].unsaved && index < |s.plans[id]|
      modifies this
      ensures Consistent() && Lasting(old(s), s) && e in s.executors
      ensures ok ==> Standing(e, id, index, SourceHandled) && !s.executors[e].unsaved
      ensures !ok ==> Stuck(s, e, id)
    {
      Interfere(e);
      Take(HandleSource(e));
      ok := SaveCheckpoint(e);
    }

    method AdvanceEntry(e: Id, id: Id, index: nat) returns (ok: bool)
      requires Consistent() && Standing(e, id, index, SourceHandled) && !s.executors[e].unsaved && index < |s.plans[id]|
      modifies this
      ensures Consistent() && Lasting(old(s), s) && e in s.executors
      ensures ok ==> Standing(e, id, index + 1, Pending) && !s.executors[e].unsaved
      ensures !ok ==> Stuck(s, e, id)
    {
      Interfere(e);
      Take(Advance(e));
      ok := true;
      if s.executors[e].unsaved {
        ok := SaveCheckpoint(e);
      }
    }

    /** One entry, from whatever checkpoint it is at. */
    method ExecuteEntry(e: Id, id: Id, index: nat) returns (ok: bool)
      requires Consistent() && e in s.executors && Standing(e, id, index, s.executors[e].local.checkpoint) && !s.executors[e].unsaved
      requires index < |s.plans[id]|
      modifies this
      ensures Consistent() && Lasting(old(s), s) && e in s.executors
      ensures ok ==> Standing(e, id, index + 1, Pending) && !s.executors[e].unsaved
      ensures !ok ==> Stuck(s, e, id)
    {
      ok := true;
      if s.executors[e].local.checkpoint == Pending {
        ok := CopyEntry(e, id, index);
      }
      if ok && s.executors[e].local.checkpoint == Copied {
        ok := VerifyEntry(e, id, index);
      }
      if ok && s.executors[e].local.checkpoint == Verified {
        ok := RelinkEntry(e, id, index);
      }
      if ok && s.executors[e].local.checkpoint == MetadataUpdated {
        ok := HandleEntry(e, id, index);
      }
      if ok {
        ok := AdvanceEntry(e, id, index);
      }
    }

    /** Runs an action to its end from any checkpoint. Success means that every entry's record
        has been relinked, by this executor or an earlier one. */
    method Execute(e: Id, id: Id) returns (ok: bool)
      requires Consistent() && e in s.executors && Standing(e, id, s.executors[e].local.index, s.executors[e].local.checkpoint)
      requires !s.executors[e].unsaved
      modifies this
      ensures Consistent() && Lasting(old(s), s)
      ensures ok ==> id in s.actions && s.actions[id].completed
      ensures ok ==> forall i | 0 <= i < |s.plans[id]| :: (id, i) in s.moved
      ensures !ok ==> Stuck(s, e, id)
    {
      var plan := s.plans[id];
      while s.executors[e].local.index < |plan|
        invariant Consistent() && Lasting(old(s), s) && e in s.executors && !s.executors[e].unsaved
        invariant Standing(e, id, s.executors[e].local.index, s.executors[e].local.checkpoint)
        decreases |plan| - s.executors[e].local.index
      {
        ok := ExecuteEntry(e, id, s.executors[e].local.index);
        if !ok {
          return;
        }
      }
      Interfere(e);
      Take(Finish(e));
      ok := SaveCheckpoint(e);
      assert ok ==> Facts(s, id, s.actions[id]);
    }

    /** Lists the live records, then the trashed ones, then reads each of them; others go on
        meanwhile. */
    method ScanRecords(e: Id)
      requires Consistent() && e in s.executors && s.executors[e].refs.None? && s.executors[e].scan == NotScanned
      modifies this
      ensures Consistent() && Lasting(old(s), s) && e in s.executors && s.executors[e].refs.Some?
      ensures s.executors[e] == old(s.executors[e]).(scan := s.executors[e].scan, refs := s.executors[e].refs)
    {
      Take(ListLive(e));
      Interfere(e);
      Take(ListTrashed(e));
      Interfere(e);
      while s.executors[e].scan.todo != {}
        invariant Consistent() && Lasting(old(s), s) && e in s.executors && s.executors[e].refs.None?
        invariant s.executors[e] == old(s.executors[e]).(scan := s.executors[e].scan) && s.executors[e].scan.live && s.executors[e].scan.trashed
        decreases s.executors[e].scan.todo
      {
        var p :| p in s.executors[e].scan.todo;
        Take(ReadOne(e, p));
        Interfere(e);
      }
      Take(Count(e));
    }

    /** Takes over an action: its version is bumped by a conditional write, and the records are
        scanned to count what maps to each object. */
    method ResumeAction(e: Id, id: Id) returns (ok: bool)
      requires Consistent() && e !in s.executors && id in s.actions
      modifies this
      ensures Consistent() && Lasting(old(s), s)
      ensures ok ==> id in s.actions && s.actions[id].completed && forall i | 0 <= i < |s.plans[id]| :: (id, i) in s.moved
      ensures !ok ==> Stuck(s, e, id)
    {
      if s.actions[id].completed {
        assert Facts(s, id, s.actions[id]);
        return true;
      }
      assert Facts(s, id, s.actions[id]);
      Take(Resume(e, id));
      Interfere(e);
      ScanRecords(e);
      Interfere(e);
      ok := Execute(e, id);
    }
  }
}
