/** The rename of one directory entry: the edit of its two shards, the attempts that commit it,
    and why of any number of concurrent renames of one entry only one takes place. */
module CommitRenameEntry {
  import opened Wrappers
  import opened CommitModel
  import opened CommitInvariant
  import opened CommitTheorems
  import opened CommitSerial
  import opened CommitRely
  import opened CommitObstacles
  import opened CommitStore
  import opened CommitTransaction
  import opened CommitRename

  // ---- The edit ----

  /** The entries of a stored shard; a shard that is absent has none, and another record is
      not a shard. */
  function EntriesOf(v: Option<Raw>): Option<map<string, string>> {
    match v
    case None => Some(map[])
    case Some(Entries(m)) => Some(m)
    case Some(Record(_)) => None
  }

  predicate HasEntry(v: Option<Raw>, name: string) {
    EntriesOf(v).Some? && name in EntriesOf(v).value
  }

  datatype RenameError = Unreadable | NotFound | PathConflict

  /** The checks of a rename, in the order in which it makes them. */
  function Verdict(source: Option<Raw>, target: Option<Raw>, name: string, to: string): Option<RenameError> {
    if EntriesOf(source).None? || EntriesOf(target).None? then Some(Unreadable)
    else if !HasEntry(source, name) then Some(NotFound)
    else if HasEntry(target, to) then Some(PathConflict)
    else None
  }

  /** What each verdict means for what is stored. */
  lemma VerdictIs(source: Option<Raw>, target: Option<Raw>, name: string, to: string)
    ensures Verdict(source, target, name, to) == Some(Unreadable) <==> (source.Some? && source.value.Record?) || (target.Some? && target.value.Record?)
    ensures Verdict(source, target, name, to) != Some(Unreadable) ==>
              var there := source.Some? && name in source.value.entries;
              && (Verdict(source, target, name, to) == Some(NotFound) <==> !there)
              && (Verdict(source, target, name, to) == Some(PathConflict) <==> there && target.Some? && to in target.value.entries)
  {
  }

  /** The entry leaves its shard under the old name and enters the target under the new one;
      both may be the same shard. */
  function Edited(gots: map<Key, Got>, source: Key, target: Key, name: string, to: string): seq<Mutation>
    requires source in gots && target in gots && Verdict(gots[source].value, gots[target].value, name, to).None?
  {
    var a, b := EntriesOf(gots[source].value).value, EntriesOf(gots[target].value).value;
    if source == target then
      [Mutation(source, Some(Entries((a - {name})[to := a[name]])), false, Some(gots[source].generation))]
    else
      [Mutation(source, Some(Entries(a - {name})), false, Some(gots[source].generation)),
       Mutation(target, Some(Entries(b[to := a[name]])), false, Some(gots[target].generation))]
  }

  function Shards(source: Key, target: Key): seq<Key> {
    if source == target then [source] else [source, target]
  }

  function RenameEdit(source: Key, target: Key, name: string, to: string): map<Key, Got> -> Option<seq<Mutation>> {
    (gots: map<Key, Got>) =>
      if gots.Keys == {source, target} && Verdict(gots[source].value, gots[target].value, name, to).None?
      then Some(Edited(gots, source, target, name, to)) else None
  }

  lemma EditIsGood(gots: map<Key, Got>, source: Key, target: Key, name: string, to: string)
    requires RenameEdit(source, target, name, to)(gots).Some?
    ensures GoodEdit(gots, RenameEdit(source, target, name, to)(gots).value)
  {
    var ms := RenameEdit(source, target, name, to)(gots).value;
    assert source != target ==> ms[0] in ms && ms[1] in ms;
    assert source == target ==> ms[0] in ms;
  }

  // ---- What one commit does to the directory ----

  function Listing(s: State, k: Key): map<string, string> {
    if EntriesOf(Visible(s, k)).Some? then EntriesOf(Visible(s, k)).value else map[]
  }

  /** Step n of the run moved the entry, which was there, to a name that was free, and touched
      no other entry. */
  ghost predicate EntryMoved(r: Run, n: nat, id: TxId, source: Key, target: Key, name: string, to: string) {
    && |r.states| == |r.steps| + 1 && n < |r.steps| && r.steps[n] == Commit(id)
    && var before, after := r.states[n], r.states[n + 1];
      && name in Listing(before, source) && to !in Listing(before, target)
      && (if source == target then Listing(after, source) == (Listing(before, source) - {name})[to := Listing(before, source)[name]]
          else
            && Listing(after, source) == Listing(before, source) - {name}
            && Listing(after, target) == Listing(before, target)[to := Listing(before, source)[name]])
      && forall k | k != source && k != target :: Visible(after, k) == Visible(before, k)
  }

  lemma MovedVisible(r: Run, n: nat, id: TxId, gots: map<Key, Got>, source: Key, target: Key, name: string, to: string)
    requires |r.states| == |r.steps| + 1 && n < |r.steps| && r.steps[n] == Commit(id)
    requires RenameEdit(source, target, name, to)(gots).Some?
    requires var ms := RenameEdit(source, target, name, to)(gots).value;
             && DistinctKeys(ms)
             && (forall k | k in gots :: Visible(r.states[n], k) == gots[k].value)
             && forall k :: Visible(r.states[n + 1], k) == if k in WritesOf(ms) then WritesOf(ms)[k] else Visible(r.states[n], k)
    ensures EntryMoved(r, n, id, source, target, name, to)
  {
    var ms := RenameEdit(source, target, name, to)(gots).value;
    PlannedWrite(ms, 0);
    if source != target {
      PlannedWrite(ms, 1);
    }
    assert source in gots && target in gots;
  }

  lemma CommittedMoves(r: Run, n: nat, id: TxId, gots: map<Key, Got>, ws: map<Key, Witness>, source: Key, target: Key, name: string, to: string)
    requires FromInit(r) && RenameEdit(source, target, name, to)(gots).Some?
    requires CommittedAs(r, n, id, RenameEdit(source, target, name, to)(gots).value, gots, true, ws)
    ensures EntryMoved(r, n, id, source, target, name, to)
  {
    var ms := RenameEdit(source, target, name, to)(gots).value;
    EditIsGood(gots, source, target, name, to);
    forall k
      ensures k in gots ==> Visible(r.states[n], k) == gots[k].value
      ensures Visible(r.states[n + 1], k) == if k in WritesOf(ms) then WritesOf(ms)[k] else Visible(r.states[n], k)
    {
      ActsAtomically(r, n, id, ms, gots, true, ws, k);
    }
    MovedVisible(r, n, id, gots, source, target, name, to);
  }

  // ---- Of concurrent renames of one entry only one takes place ----

  /** Step n commits a transaction that insists on k, found the entry there and drops it. */
  ghost predicate RenamesAway(r: Run, n: nat, k: Key, name: string) {
    && |r.states| == |r.steps| + 1 && n < |r.steps| && r.steps[n].Commit?
    && var tx := r.steps[n].tx;
      && tx in r.states[n].clients && k in r.states[n].clients[tx].checked
      && k in r.states[n].clients[tx].writes && !HasEntry(r.states[n].clients[tx].writes[k], name)
      && exists a: nat :: LastRead(r, a, n, tx, k) && HasEntry(Visible(r.states[a], k), name)
  }

  /** Step n makes an entry appear that was not there. */
  ghost predicate PutsBack(r: Run, n: nat, k: Key, name: string)
    requires |r.states| == |r.steps| + 1 && n < |r.steps|
  {
    r.steps[n].Commit? && !HasEntry(Visible(r.states[n], k), name) && HasEntry(Visible(r.states[n + 1], k), name)
  }

  /** An entry that is gone at i and there at j was put back by a commit in between. */
  lemma {:induction false} EntryPutBack(r: Run, i: nat, j: nat, k: Key, name: string) returns (p: nat)
    requires ValidRun(r) && i <= j < |r.states|
    requires !HasEntry(Visible(r.states[i], k), name) && HasEntry(Visible(r.states[j], k), name)
    ensures i <= p < j && PutsBack(r, p, k, name)
  {
    p := j - 1;
    if HasEntry(Visible(r.states[p], k), name) {
      p := EntryPutBack(r, i, j - 1, k, name);
    } else {
      OnlyCommitShows(r, p, k, name);
    }
  }

  lemma OnlyCommitShows(r: Run, p: nat, k: Key, name: string)
    requires ValidRun(r) && p < |r.steps|
    requires !HasEntry(Visible(r.states[p], k), name) && HasEntry(Visible(r.states[p + 1], k), name)
    ensures PutsBack(r, p, k, name)
  {
    RunInv(r, p);
    assert StepAt(r, p);
    AtomicVisibility(r.states[p], r.steps[p], k);
  }

  lemma GoneAfter(r: Run, i: nat, k: Key, name: string)
    requires FromInit(r) && RenamesAway(r, i, k, name)
    ensures HasEntry(Visible(r.states[i], k), name) && !HasEntry(Visible(r.states[i + 1], k), name)
  {
    var tx := r.steps[i].tx;
    var a := CheckedActsOnCurrent(r, i, tx, k);
    UnwrittenVisible(r, a, i, k);
    RunInv(r, i);
    assert StepAt(r, i);
    AtomicVisibility(r.states[i], r.steps[i], k);
  }

  /** Two commits that rename one entry away have a third between them that put it back. */
  lemma RenamedTwicePutBack(r: Run, i: nat, j: nat, k: Key, name: string) returns (p: nat)
    requires FromInit(r) && i < j && RenamesAway(r, i, k, name) && RenamesAway(r, j, k, name)
    ensures i < p < j && PutsBack(r, p, k, name)
  {
    GoneAfter(r, i, k, name);
    GoneAfter(r, j, k, name);
    p := EntryPutBack(r, i + 1, j, k, name);
  }

  /** Of any number of concurrent renames of one source entry at most one commits, however they
      interleave and whatever else commits, unless somebody puts the entry back. */
  lemma OneRenameWins(r: Run, k: Key, name: string)
    requires FromInit(r) && forall p | 0 <= p < |r.steps| :: !PutsBack(r, p, k, name)
    ensures forall i: nat, j: nat :: RenamesAway(r, i, k, name) && RenamesAway(r, j, k, name) ==> i == j
  {
    forall i: nat, j: nat | RenamesAway(r, i, k, name) && RenamesAway(r, j, k, name) ensures i == j {
      if i < j {
        var p := RenamedTwicePutBack(r, i, j, k, name);
      } else if j < i {
        var p := RenamedTwicePutBack(r, j, i, k, name);
      }
    }
  }

  /** What a rename of an entry commits is such a step. */
  lemma MovedAway(r: Run, n: nat, id: TxId, ms: seq<Mutation>, gots: map<Key, Got>, ws: map<Key, Witness>,
                  source: Key, target: Key, name: string, to: string)
    requires FromInit(r) && RenameEdit(source, target, name, to)(gots) == Some(ms) && name != to
    requires CommittedAs(r, n, id, ms, gots, true, ws)
    ensures RenamesAway(r, n, source, name)
  {
    EditIsGood(gots, source, target, name, to);
    PlannedWrite(ms, 0);
    assert source in gots && source in KeysOf(ms);
    assert SawBuild(r, n, id, source, gots[source], true, ws[source]);
    ActsAtomically(r, n, id, ms, gots, true, ws, source);
    var a := CheckedActsOnCurrent(r, n, id, source);
    UnwrittenVisible(r, a, n, source);
  }

  // ---- The attempts ----

  /** A snapshot shows what was visible at an instant while it was taken. */
  lemma ResolvedVisible(r: Run, g: nat, j: nat, k: Key, value: Option<Raw>) returns (i: nat)
    requires ValidRun(r) && Resolved(r, g, j, k, value)
    ensures g <= i <= j && Visible(r.states[i], k) == value
  {
    i := g;
    var p := EnvAt(r.states[g], k).pending;
    if p.Some? {
      var tx := p.value.tx;
      PendingOf(r, g, k);
      if HasStatus(r.states[g], tx, Committed) {
        DecisionFinal(r, g, j, tx, Committed);
      } else if HasStatus(r.states[j], tx, Committed) {
        var c := CommitBetween(r, g, j, tx);
        CommitShows(r, g, c, tx, k);
        i := c + 1;
      }
    }
  }

  datatype Outcome = Renamed | Refused(error: RenameError) | Conflicted

  /** At some instant since start the shards justified the error; the two shards may have been
      looked at one after the other. */
  ghost predicate Justifies(r: Run, start: nat, source: Key, target: Key, name: string, to: string, error: RenameError) {
    exists i: nat, j: nat :: start <= i < |r.states| && start <= j < |r.states|
                             && Verdict(Visible(r.states[i], source), Visible(r.states[j], target), name, to) == Some(error)
  }

  lemma VerdictJustified(r: Run, start: nat, gots: map<Key, Got>, ws: map<Key, Witness>, source: Key, target: Key, name: string, to: string)
    requires ValidRun(r) && AllResolved(r, gots, ws) && AllSince(start, gots, ws) && source in gots && target in gots
    requires Verdict(gots[source].value, gots[target].value, name, to).Some?
    ensures Justifies(r, start, source, target, name, to, Verdict(gots[source].value, gots[target].value, name, to).value)
  {
    var i := ResolvedVisible(r, ws[source].g, ws[source].j, source, gots[source].value);
    var j := ResolvedVisible(r, ws[target].g, ws[target].j, target, gots[target].value);
    assert Verdict(Visible(r.states[i], source), Visible(r.states[j], target), name, to) ==
           Some(Verdict(gots[source].value, gots[target].value, name, to).value);
  }

  /** Since start the shard had a pending value that stood in the way of id, or others have
      rewritten it. */
  ghost predicate Hindered(r: Run, start: nat, id: TxId, k: Key, attempts: nat) {
    && |r.states| == |r.steps| + 1 && start < |r.states|
    && (Unprepared(r, start, Reading(k), id, attempts) || 0 < Rewrites(r, start, |r.steps|, k, id))
  }

  ghost predicate Contended(r: Run, start: nat, id: TxId, source: Key, target: Key, attempts: nat) {
    Hindered(r, start, id, source, attempts) || Hindered(r, start, id, target, attempts)
  }

  lemma HinderedStill(r0: Run, r1: Run, start: nat, start': nat, id: TxId, k: Key, attempts: nat)
    requires Hindered(r0, start, id, k, attempts) && start' <= start
    requires r0.states <= r1.states && r0.steps <= r1.steps && |r1.states| == |r1.steps| + 1
    ensures Hindered(r1, start', id, k, attempts)
  {
    if Unprepared(r0, start, Reading(k), id, attempts) {
      UnpreparedKept(r0, r1, start, start', Reading(k), id, attempts);
    } else {
      MoreRewrites(r0, r1, start', start, k, id);
    }
  }

  lemma ContendedStill(r0: Run, r1: Run, start: nat, start': nat, id: TxId, source: Key, target: Key, attempts: nat)
    requires Contended(r0, start, id, source, target, attempts) && start' <= start
    requires r0.states <= r1.states && r0.steps <= r1.steps && |r1.states| == |r1.steps| + 1
    ensures Contended(r1, start', id, source, target, attempts)
  {
    HinderedStill(r0, r1, start, start', id, if Hindered(r0, start, id, source, attempts) then source else target, attempts);
  }

  /** A rename that failed and whose edit was not refused has been hindered. */
  lemma FailedContended(r: Run, start: nat, id: TxId, source: Key, target: Key, name: string, to: string, gots: map<Key, Got>, attempts: nat,
                        ws: map<Key, Witness>)
    requires |r.states| == |r.steps| + 1 && start < |r.states| && AllSince(start, gots, ws) && forall k | k in gots :: k in Shards(source, target)
    requires RenameFailed(r, start, id, Shards(source, target), gots, RenameEdit(source, target, name, to)(gots), attempts, ws)
    requires !(source in gots && target in gots && Verdict(gots[source].value, gots[target].value, name, to).Some?)
    ensures Contended(r, start, id, source, target, attempts)
  {
    assert (forall k | k in Shards(source, target) :: k in gots) ==> source in gots && target in gots && gots.Keys == {source, target} by {
      assert source in Shards(source, target) && target in Shards(source, target);
    }
    if SomeUnread(r, start, id, Shards(source, target), attempts) {
      var k :| k in Shards(source, target) && Unprepared(r, start, Reading(k), id, attempts);
      assert Hindered(r, start, id, k, attempts);
    } else if AnyOvertaken(r, id, gots, ws) {
      var k :| k in gots && Overtaken(r, id, k, ws);
      MoreRewrites(r, r, start, ws[k].g, k, id);
      assert Hindered(r, start, id, k, attempts);
    }
  }

  /** One attempt under a fresh transaction id. */
  method RenameEntryOnce(ns: Namespace, id: TxId, source: Key, target: Key, name: string, to: string, ttl: nat, attempts: nat)
    returns (outcome: Outcome, ghost n: nat)
    requires ns.Valid() && FromInit(ns.run) && id !in ns.s.clients && ns.s.slack < ttl && name != to
    modifies ns
    ensures ns.Valid() && FromInit(ns.run) && old(ns.run.states) <= ns.run.states && old(ns.run.steps) <= ns.run.steps
    ensures outcome.Renamed? <==> HasStatus(ns.s, id, Committed)
    ensures outcome.Renamed? ==> old(|ns.run.steps|) <= n && EntryMoved(ns.run, n, id, source, target, name, to) && RenamesAway(ns.run, n, source, name)
    ensures outcome.Refused? ==> Justifies(ns.run, old(|ns.run.steps|), source, target, name, to, outcome.error)
    ensures outcome.Conflicted? ==> Contended(ns.run, old(|ns.run.steps|), id, source, target, attempts)
    ensures InPhase(ns.s, id, Done)
  {
    forall g | RenameEdit(source, target, name, to)(g).Some? ensures GoodEdit(g, RenameEdit(source, target, name, to)(g).value) {
      EditIsGood(g, source, target, name, to);
    }
    var ok, gots;
    ghost var ws;
    ok, gots, n, ws := RenameOnce(ns, id, Shards(source, target), RenameEdit(source, target, name, to), ttl, attempts);
    if ok {
      CommittedMoves(ns.run, n, id, gots, ws, source, target, name, to);
      MovedAway(ns.run, n, id, RenameEdit(source, target, name, to)(gots).value, gots, ws, source, target, name, to);
      return Renamed, n;
    }
    outcome := Conflicted;
    if source in gots && target in gots && Verdict(gots[source].value, gots[target].value, name, to).Some? {
      VerdictJustified(ns.run, old(|ns.run.steps|), gots, ws, source, target, name, to);
      outcome := Refused(Verdict(gots[source].value, gots[target].value, name, to).value);
    } else {
      FailedContended(ns.run, old(|ns.run.steps|), id, source, target, name, to, gots, attempts, ws);
    }
  }

  lemma DoneNeverCommits(r: Run, a: nat, b: nat, id: TxId)
    requires ValidRun(r) && a <= b < |r.states| && InPhase(r.states[a], id, Done)
    ensures id in r.states[b].clients && (HasStatus(r.states[b], id, Committed) <==> HasStatus(r.states[a], id, Committed))
  {
    ClientKept(r, a, b, id);
    if HasStatus(r.states[a], id, Committed) {
      DecisionFinal(r, a, b, id, Committed);
    } else if HasStatus(r.states[b], id, Committed) {
      var i := CommitBetween(r, a, b, id);
      assert StepAt(r, i);
      DoneStays(r, a, i, id);
    }
  }

  /** None of these transactions has committed, nor ever will. */
  ghost predicate AllGivenUp(s: State, ids: set<TxId>) {
    forall id | id in ids :: InPhase(s, id, Done) && !HasStatus(s, id, Committed)
  }

  lemma GivenUpStays(r: Run, a: nat, b: nat, ids: set<TxId>)
    requires ValidRun(r) && a <= b < |r.states| && AllGivenUp(r.states[a], ids)
    ensures AllGivenUp(r.states[b], ids)
  {
    forall id | id in ids ensures InPhase(r.states[b], id, Done) && !HasStatus(r.states[b], id, Committed) {
      DoneNeverCommits(r, a, b, id);
      DoneStays(r, a, b, id);
    }
  }

  /** An attempt under a new id; the attempts before it stay without effect. */
  method Attempt(ns: Namespace, source: Key, target: Key, name: string, to: string, ttl: nat, attempts: nat, ghost failed: set<TxId>)
    returns (outcome: Outcome, id: TxId, ghost n: nat)
    requires ns.Valid() && FromInit(ns.run) && ns.s.slack < ttl && name != to && AllGivenUp(ns.s, failed)
    modifies ns
    ensures ns.Valid() && FromInit(ns.run) && old(ns.run.states) <= ns.run.states && old(ns.run.steps) <= ns.run.steps
    ensures ns.s.slack == old(ns.s.slack) && id !in failed && id !in old(ns.s.clients)
    ensures outcome.Conflicted? ==> Contended(ns.run, old(|ns.run.steps|), id, source, target, attempts)
    ensures AllGivenUp(ns.s, if outcome.Renamed? then failed else failed + {id})
    ensures outcome.Renamed? ==>
              && old(|ns.run.steps|) <= n && HasStatus(ns.s, id, Committed)
              && EntryMoved(ns.run, n, id, source, target, name, to) && RenamesAway(ns.run, n, source, name)
    ensures outcome.Refused? ==> Justifies(ns.run, old(|ns.run.steps|), source, target, name, to, outcome.error)
  {
    ghost var unused := FreshId(ns.s.clients.Keys);
    var next: TxId :| next !in ns.s.clients;
    id := next;
    outcome, n := RenameEntryOnce(ns, id, source, target, name, to, ttl, attempts);
    GivenUpStays(ns.run, old(|ns.run.steps|), |ns.run.steps|, failed);
    ClockKept(ns.run, old(|ns.run.steps|), |ns.run.steps|);
  }

  /** All these attempts were begun since start, and hindered. */
  ghost predicate AllContended(r: Run, start: nat, ids: set<TxId>, source: Key, target: Key, attempts: nat) {
    && start < |r.states|
    && forall id | id in ids :: id !in r.states[start].clients && Contended(r, start, id, source, target, attempts)
  }

  lemma OneMoreContended(r0: Run, r1: Run, start: nat, ids: set<TxId>, id: TxId, source: Key, target: Key, attempts: nat)
    requires AllContended(r0, start, ids, source, target, attempts) && ValidRun(r0) && ValidRun(r1)
    requires r0.states <= r1.states && r0.steps <= r1.steps
    requires id !in Last(r0).clients && Contended(r1, |r0.steps|, id, source, target, attempts)
    ensures AllContended(r1, start, ids + {id}, source, target, attempts)
  {
    if id in r0.states[start].clients {
      ClientKept(r0, start, |r0.steps|, id);
    }
    ContendedStill(r1, r1, |r0.steps|, start, id, source, target, attempts);
    forall i | i in ids ensures Contended(r1, start, i, source, target, attempts) {
      ContendedStill(r0, r1, start, start, i, source, target, attempts);
    }
  }

  /** A rename inside a directory: attempts under fresh ids until one commits, one is refused or
      there have been enough. Of its attempts at most one commits, and that is the last; it gives
      up only after every attempt has been hindered. */
  method RenameEntry(ns: Namespace, source: Key, target: Key, name: string, to: string, ttl: nat, attempts: nat)
    returns (outcome: Outcome, ghost n: nat, ghost id: TxId, ghost failed: set<TxId>)
    requires ns.Valid() && FromInit(ns.run) && ns.s.slack < ttl && name != to
    modifies ns
    ensures ns.Valid() && FromInit(ns.run) && old(ns.run.states) <= ns.run.states && old(ns.run.steps) <= ns.run.steps
    ensures AllGivenUp(ns.s, failed)
    ensures outcome.Renamed? ==>
              && old(|ns.run.steps|) <= n && id !in failed && HasStatus(ns.s, id, Committed)
              && EntryMoved(ns.run, n, id, source, target, name, to) && RenamesAway(ns.run, n, source, name)
    ensures outcome.Refused? ==> Justifies(ns.run, old(|ns.run.steps|), source, target, name, to, outcome.error)
    ensures outcome.Conflicted? ==>
              |failed| == attempts && AllContended(ns.run, old(|ns.run.steps|), failed, source, target, attempts)
  {
    outcome, n, id, failed := Conflicted, 0, 0, {};
    for attempt := 0 to attempts
      invariant ns.Valid() && FromInit(ns.run) && old(ns.run.states) <= ns.run.states && old(ns.run.steps) <= ns.run.steps
      invariant AllGivenUp(ns.s, failed) && outcome.Conflicted? && ns.s.slack < ttl
      invariant |failed| == attempt && AllContended(ns.run, old(|ns.run.steps|), failed, source, target, attempts)
    {
      ghost var before, begun := |ns.run.steps|, ns.run;
      outcome, id, n := Attempt(ns, source, target, name, to, ttl, attempts, failed);
      if outcome.Renamed? {
        return;
      }
      if outcome.Refused? {
        failed := failed + {id};
        JustifiesEarlier(ns.run, old(|ns.run.steps|), before, source, target, name, to, outcome.error);
        return;
      }
      OneMoreContended(begun, ns.run, old(|ns.run.steps|), failed, id, source, target, attempts);
      failed := failed + {id};
    }
  }

  lemma JustifiesEarlier(r: Run, start: nat, later: nat, source: Key, target: Key, name: string, to: string, error: RenameError)
    requires start <= later && Justifies(r, later, source, target, name, to, error)
    ensures Justifies(r, start, source, target, name, to, error)
  {
  }
}
