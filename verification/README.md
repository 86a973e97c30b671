# Metadata namespace: model and proofs

The file server keeps its namespace as JSON objects in a store that offers nothing but
conditional puts and deletes. Everything above that, from transactions over many objects to
folder sizes, is a protocol over such objects. This project states what those protocols promise
and proves it for every input, every interleaving and every run. `dafny verify dfyconfig.toml`
checks the whole project.

## What is modelled

**The V4 commit protocol** (`Commit*.dfy`). A state holds the stored envelopes, active and
journalled manifests, leases, the clock and what each client knows. Begin, lease, read, plan,
prepare, decide, expire, promote, discard, mark, journal, unlist, crash and clock steps of any
number of leased transactions, lease-free renames, readers and recovery passes interleave freely.
`CommitInvariant` proves the invariant of every step, `CommitTheorems` and `CommitSerial` what
follows for whole runs, `CommitDurability` and `CommitLimits` where the promises end. The code
itself is in `CommitStore`, `CommitTransaction`, `CommitRename`, `CommitRenameEntry` and
`CommitRecovery`: methods over a class holding the store, where `Interfere` runs any steps of
others before every access, and every conditional write is proved to be a step of the protocol.
`CommitRely` says what a client may rely on meanwhile, and `CommitObstacles` what may keep it from
getting on: every method that can fail says what in the run has made it fail.

**The directory tree** (`Paths`, `Flat*`, `File*`, `Node*`). `FlatTree` is the one specification
of moves, on a set of path entries. `FileOperations` and `FileTrash` are the path-rewriting
operations, in place on an array. `NodeTree` is the V4 graph of node ids with hash-sharded child
maps; what a graph means is a forest of located nodes, and relinking one edge relocates one
subtree of it; `NodeSpace` is what every operation keeps of the graph as stored. `NodeNamespace`
and `NodeMutations` are the V4 operations on a class whose ghost field is that forest,
`NodeConservation` what they do to the file, directory and byte counts, and `TreeImport` the
import of a snapshot and the export that reads it back. `NamespaceModel`, `NamespaceFrames`
and `NamespaceRuns` let any number of these operations run at once, each under its leases, with
attempts that are given up and made again, leases that run out and lease-free renames beside
them; `NamespaceLimits` and `NamespaceRaces` are where that goes wrong, and `NamespaceGlobal` is
what the global mutation mode spares.

**Derived metadata** (`Reducer*`, `Ledger`, `Summaries`, `TreeSummaries`, `Summary*`). The
reducer as a step system of emitters, leased passes and compactions that stop and overlap at
will; a joint run of it with the concurrent namespace, in which the published counts are those of
the tree; and the incremental rebuild of folder summaries against a full recount of the forest,
composed with every operation in `SummaryOperations`.

**Supporting machines.** `Drift*` (plans made from a snapshot, and their checkpointed copy,
relink and delete by any number of executors), `Uploads` (upload completion), `DavLocks` (RFC 4918
locks in the relational store), `DirectoryCache` (validated directory chains) and `PagedIndex`
(the V3 directory index).

## What the proofs found

Eight promises hold only under a condition. Each condition is stated, proved to be enough for all
runs, and shown to be needed by a general statement with the failing inputs or runs.

- A lease-free rename that commits can lose one of its values if it decides when no more than the
  slack is left of its own lease, since nothing compares the clock with the lease before the
  decision. `CommitDurability.DurableIffInTime` is the exact condition; `DroppedAfter` and
  `DroppedBefore` are the two ways it happens, from any state.
- A transaction acts on current values of every key whose generation it insists on, whatever the
  others do (`CommitSerial.CheckedActsOnCurrent`); a rename does so for all its keys. A leased
  transaction that does not insist is protected by its lease from lease holders only: from every
  state in which a rename is about to commit what it has read it can go on to overwrite it
  (`CommitLimits.StaleContinuation`), and such a state is always reachable
  (`CommitLimits.MixedRunLosesUpdate`).
- A leased transaction reports what became of it, unless the answer to the write of its decision
  is lost: it then looks at the active list only, and takes a commit that recovery has archived
  meanwhile for a failure. `CommitTransaction.TransactOnce` has the exact condition, and
  `CommitLimits.UnheardCommit` the run.
- Exactly-once application needs four things to be in time: no delta is written again later than
  the retention window less a margin after it was applied, passes write only under their lease,
  they compact within the margin of their listing, and no listing fails while a delta is stored
  that was applied that long ago, since the pass then compacts without a listing
  (`Reducer.ExactlyOnce`). Each is needed: `Reducer.EmissionSafeIffInTime`, `StalePassReapplies`,
  `SlowCompactionReapplies`, `FailedListingSafeIffInTime`, with runs from any first state in
  `LateEmitterRun` and `FailedListingRun`.
- Leases alone do not keep concurrent directory operations apart. Five things must not happen.
  (1) A move puts a directory below itself: moves lease the two shards they relink, so two
  directories can be moved into each other and be lost. (2) The directory out of which something
  is trashed, or into which it is restored, has itself been trashed: its lookup is not repeated
  under the leases. (3) The manifest of a restore, which is read before the leases are taken, is
  gone while its node is still somewhere, or was counted with more than itself. (4) A lease-free
  rename commits on a shard on which somebody has built who does not insist on its generation.
  (5) An operation commits after its leases have run out. Where none of this happens, trees stay
  trees and every commit changes the counts by what it hands to the reducer
  (`NamespaceRuns.StepConserves`). The first three are exact: a commit under leases that hold
  goes right if and only if none of them is the case (`NamespaceLimits.ConservesIffSafe`). For
  each there is a run in `NamespaceRaces`: `CrossedFromEmpty`, `NestedTrash` and
  `RestoreIntoTrashed`, `RestoredTwice`, `RenamedAway`, `LateWrite`. With one global lease for
  everybody the first cannot happen (`NamespaceGlobal.GlobalRun`).
- The drift executor relies on its callers while an action is under way: actions under way do not
  share a name as target and source, users map no further record to a source, remove no target,
  and rename, trash or restore no record of a source while an executor of its action scans, since
  the scan lists keys and reads them one by one. With that no path ever changes what it reads
  (`Drift.MeaningKept`). Each is needed: `DriftLimits.OverlappingPlans`, which takes no more than
  a stale executor and two renames by a user, `MappedToSource`, `RemovedTarget` and `TornScan`.
- A restore in the relational store checks trash ids against each other, not rows, so it keeps
  active paths unique exactly when no trash id holds two rows of one path
  (`FileTrash.RestoreKeepsUnique`); trashing a path twice under one id is enough to break it
  (`FileTrash.TrashedTwice`).
- An update of the paged index cuts an overfull page before sorting it, so a new record that
  belongs into the middle of a full page gets a page of its own behind it. From then on updates of
  that record go to the page in front: it is still listed after its removal, exactly in that case
  (`PagedIndex.InsertThenRemove`).

## What the statements assume

- The clock is monotone, and generations are never reused.
- Accesses to the store answer, but for the write of a decision in `CommitTransaction`.
- Theorems about whole runs of the commit protocol assume that each rename decides with more than a
  fixed slack of its lease left, and nothing of the kind of leased transactions.
  `CommitDurability` does without, and says what is lost otherwise.
- The operations of `NodeMutations` run one at a time. The `Namespace*` modules have them at once,
  each build seeing one state of the store and each commit one step, as the commit protocol
  provides.
- Objects of the drift executor are immutable under their generation.
- No V4 operation rewrites a directory's node under the same name in the same directory, so a
  cached directory whose id is still the one found there is up to date.
- An upload record is changed by callers only as the upload service does it: from the record read
  at the expected revision, and without touching the completion fields.

## Model

| member | source | states |
|---|---|---|
| CommitInvariant.StepInv | apps/file-server/internal/db/tree_v4.go:919-1004 | every step of every leased transaction, lease-free rename, reader, recovery, archival and of the clock keeps the protocol invariant, whatever the interleaving; others abort a transaction only when the lease in its manifest has run out, and archive it only when its derived work is done |
| CommitTheorems.AtomicVisibility | apps/file-server/internal/db/tree_v4.go:272-304 | the visible value of a key changes only at the commit write of a manifest, and there to exactly what that transaction planned; preparing, promoting, discarding, aborting, journalling and unlisting change nothing that is visible |
| CommitTheorems.RunIsSerial | apps/file-server/internal/db/tree_v4.go:757-764 | the visible store of any run is the one reached by running its committed transactions one at a time, each in one step |
| CommitTheorems.DecisionFinal | apps/file-server/internal/db/tree_v4.go:757-764 | over a whole run a committed transaction stays committed and an aborted one aborted, also while its manifest moves to the journal |
| CommitTheorems.DecisionNeverMissed | apps/file-server/internal/db/tree_v4.go:257-270 | a reader that looks at the active manifest and later at the journal finds every decision made before it looked, and never one that is not made by its second look |
| CommitTheorems.LeasedAlwaysFound | apps/file-server/internal/db/tree_v4.go:1038-1045 | because archiving writes the journal before it deletes the active manifest, the two looks always find a leased transaction |
| CommitTheorems.ReadLinearizable | apps/file-server/internal/db/tree_v4.go:272-304 | a read of envelope, manifest and journal at three different moments returns the value that was visible at one moment in between |
| CommitTheorems.CommitShows | apps/file-server/internal/db/tree_v4.go:987-989 | at its commit a transaction makes visible exactly what it had planned before, however long ago |
| CommitSerial.CheckedActsOnCurrent | apps/file-server/internal/db/tree_v4.go:766-809 | in every run, a committing transaction read each key whose generation it insists on at its latest committed value, whatever other transactions, checked or not, in time or not, do |
| CommitSerial.RenameActsOnCurrent | apps/file-server/internal/db/tree_v4.go:1432-1530 | in every run, a committing rename insists on every key it has read, and so acted on the latest committed values |
| CommitSerial.LeasedActsOnCurrent | apps/file-server/internal/db/tree_v4.go:737-755 | without a generation check the lease has to do: if it is unexpired at the commit and nobody without a lease committed the key meanwhile, the value read is the latest committed one |
| CommitSerial.CommitActsOnCurrent | apps/file-server/internal/db/tree_v4.go:766-809 | a transaction that commits read each key it insists on, or holds in time and among lease holders, after its last commit, and the key has looked the same ever since |
| CommitSerial.NoLostUpdate | apps/file-server/internal/db/tree_v4.go:1432-1530 | of two commits on one key, the second, if it insists on the key or holds it in time, read it after the first had committed |
| CommitSerial.HolderIsStored | apps/file-server/internal/db/tree_v4.go:664-697 | an unexpired lease of a running transaction is the one lease stored for its resource, so no two running transactions hold one resource |
| CommitSerial.LeaseholdersFollow | apps/file-server/internal/db/tree_v4.go:651-703 | of two committed leased transactions that share a resource, the later one took its lease only after the earlier one had committed |
| CommitSerial.LateRelease | apps/file-server/internal/db/tree_v4.go:699-703 | a late release removes no lease that another transaction has taken since |
| CommitDurability.DurableIffInTime | apps/file-server/internal/db/tree_v4.go:1522-1530 | the exact condition, over all continuations of any run, renames that decide at any time among them: what a rename is about to commit stays until the next commit of the key if and only if more than the slack is left of its lease |
| CommitDurability.InTimeSurvives | apps/file-server/internal/db/tree_v4.go:811-867 | what is committed in time is visible until the next commit of the key, whatever recovery and others do |
| CommitDurability.DroppedAfter | apps/file-server/internal/db/tree_v4.go:826-831 | a run from any state: recovery looks for the decision, the rename commits and shows its value, the value is dropped |
| CommitDurability.DroppedBefore | apps/file-server/internal/db/tree_v4.go:1680-1682 | a run from any state: the lease runs out, recovery drops the pending value, and the rename commits all the same, since nothing compares the clock with its lease again |
| CommitLimits.StaleContinuation | apps/file-server/internal/db/tree_v4.go:1283 | from any state in which a lease holder has read a key without insisting on it and somebody is about to commit that key, the holder can go on, in time and inside its lease, to commit over it without having looked again |
| CommitLimits.MixedRunLosesUpdate | apps/file-server/internal/db/tree_v4.go:1283 | such a state is reached from any state in which the shard has no pending value and no running lease, the first one included: a leased transaction and a rename of one shard, all deadlines kept, lose an update |
| CommitLimits.UnheardCommit | apps/file-server/internal/db/tree_v4.go:987-998 | from any state in which a leased transaction can commit: it commits, recovery finishes and archives it, and a client without an answer no longer finds it in the list it looks at |
| CommitRenameEntry.OneRenameWins | apps/file-server/internal/db/tree_v4.go:1566-1706 | of any number of concurrent renames of one source entry, and of all transactions that insist on its shard and drop it, at most one commits in any run in which no commit puts the entry back |
| CommitRenameEntry.RenamedTwicePutBack | apps/file-server/internal/db/tree_v4.go:1566-1706 | two commits that rename one entry away have a third between them that put it back |
| CommitRenameEntry.VerdictIs | apps/file-server/internal/db/tree_v4.go:1631-1637 | an entry is missing or its name taken exactly as the shards say; a shard that is no shard is neither |
| CommitRenameEntry.RenameEntryOnce | apps/file-server/internal/db/tree_v4.go:1566-1706 | one attempt: a commit moves exactly the one entry from the visible source shard to the visible target shard, and leaves every other entry; a refusal was justified by both shards as they were visible during the call, and a conflict means that one of them had a pending value in the way or was rewritten |
| CommitRenameEntry.RenameEntry | apps/file-server/internal/db/tree_v4.go:1532-1564 | the retry loop: attempts under fresh ids, of which at most one, the last, commits; it gives up only after as many attempts as it has, each of them hindered |
| CommitRely.SameGeneration | apps/file-server/internal/db/tree_backend.go:75-81 | as long as the generation of an object is the one read, the object is the one read |
| CommitRely.ManifestMine | apps/file-server/internal/db/tree_v4.go:838-855 | the manifest of an undecided transaction is its own: as long as its client does nothing about it, it stays as it is until its lease runs out, and only then may others abort it |
| CommitObstacles.RewrittenByPlan | apps/file-server/internal/db/tree_v4.go:1103-1193 | a manifest that stays undecided is rewritten only by its own client |
| CommitObstacles.UnlistedDecided | apps/file-server/internal/db/tree_v4.go:257-270 | a transaction that is known and not listed is never found undecided afterwards, and finding nothing means that there was no decision |
| CommitObstacles.RewrittenByOthers | apps/file-server/internal/db/tree_v4.go:792-806 | as long as a client has not prepared an object, a changed generation means that others have rewritten it |
| CommitObstacles.FreeIsGranted | apps/file-server/internal/db/tree_v4.go:664-697 | a lease is denied only if it was held by another one, or its object touched, meanwhile |
| CommitStore.Namespace.PutEnvelope | apps/file-server/internal/db/tree_backend.go:75-81 | a conditional put takes effect if and only if the object still has the expected generation, and is then one step of the protocol; otherwise nothing changes |
| CommitStore.Namespace.PutManifest | apps/file-server/internal/db/tree_v4.go:757-764 | the same for a manifest |
| CommitStore.Namespace.Interfere | apps/file-server/internal/db/tree_v4.go:811-867 | between any two accesses other processes take any steps of the protocol but those of the caller |
| CommitStore.Namespace.ReadTransactionDecision | apps/file-server/internal/db/tree_v4.go:257-270 | against every interleaving, the result is what the active list held at one moment or, failing that, the journal at a later one |
| CommitStore.Namespace.PromoteEnvelopeStrict | apps/file-server/internal/db/tree_v4.go:310-322 | folds a committed pending value into the current one only over the very object that was read |
| CommitStore.Namespace.VisibleEnvelope | apps/file-server/internal/db/tree_v4.go:272-304 | returns the value visible at one moment inside the call, against every interleaving; the generation is that of the object afterwards, unless others were at work |
| CommitStore.Namespace.AbortExpired | apps/file-server/internal/db/tree_v4.go:838-855 | an expired transaction is aborted by a conditional write on its manifest; if a commit won the race, its decision is what is returned; it fails only if the client has rewritten its manifest meanwhile |
| CommitStore.Namespace.DecideFold | apps/file-server/internal/db/tree_v4.go:811-867 | decides whether a foreign pending value may be folded or dropped, and only with the justification the invariant needs: committed, aborted, or a lease-free rename without decision whose lease has run out; it fails only if the transaction was undecided while its lease was running, or its client at work |
| CommitStore.Namespace.NormalizeEnvelope | apps/file-server/internal/db/tree_v4.go:811-867 | clears a foreign pending value by one conditional write that is a legal step of the protocol; it fails only for the same reasons, or if somebody else has rewritten the object |
| CommitStore.Namespace.PrepareMutation | apps/file-server/internal/db/tree_v4.go:766-809 | on success the pending value is in place over the object the mutation insisted on, and the expected generation was still that of an object without pending value; it fails only if the object was not what the mutation insists on, or had a pending value in the way, or others rewrote it as often as there were attempts |
| CommitStore.Namespace.AcquireLease | apps/file-server/internal/db/tree_v4.go:664-697 | on success the lease stored is the one taken, with an expiry of now plus the time to live; it fails only if each attempt found the lease held, and then waited, or rewritten |
| CommitStore.Namespace.VerifyLeases | apps/file-server/internal/db/tree_v4.go:737-755 | success means every lease was unexpired when the verification began; failure, that one of them was gone, another one or run out when it was read again |
| CommitStore.Namespace.BuildReads | apps/file-server/internal/db/tree_v4.go:339-352 | what a build read of each key was visible at a moment after the read was noted, or carries the generation that is insisted on later |
| CommitStore.Namespace.PrepareAll | apps/file-server/internal/db/tree_v4.go:969-978 | prepares all planned keys, or fails at one that could not be prepared; success means each expected generation still held |
| CommitTransaction.TransactOnce | apps/file-server/internal/db/tree_v4.go:919-1004 | one attempt against every interleaving: what commits wrote exactly the plan built from the values read, at a moment before its decision everything was prepared and every lease still ran, and the manifest lists what was written; what does not commit is aborted, and for one of six reasons, each of which is shown in the run: a lease was not to be had, the build declined, the manifest had run out and was aborted, a key could not be prepared, a lease was lost, or the decision was never sent; all leases are released either way, and success is reported if and only if the transaction is committed and, should the answer to its decision have been lost, its manifest is still listed when the client asks again |
| CommitTransaction.Transact | apps/file-server/internal/db/tree_v4.go:877-911 | the retry loop: attempts under fresh ids as long as they find no lease or lose a race; of all attempts at most the last commits, every other one is aborted for good, and it gives up only after all of them or for a reason that is not tried again |
| CommitTransaction.ActsAtomically | apps/file-server/internal/db/tree_v4.go:919-1004 | what a committed plan was built from is still visible at its commit, and the commit makes exactly the plan visible: for the keys it enforces in every run, for the others if leases were kept in time and the key left to lease holders |
| CommitTransaction.Decide | apps/file-server/internal/db/tree_v4.go:987-997 | the decision is one conditional write; it fails only if somebody has aborted the transaction, its time being up |
| CommitTransaction.DecideAndAsk | apps/file-server/internal/db/tree_v4.go:987-998 | a decision whose write fails, or whose answer is lost, is looked for in the active list once more: it is found if and only if it was made and is still listed |
| CommitTransaction.GiveUp | apps/file-server/internal/db/tree_v4.go:982-986 | a failed attempt is aborted, and holds no lease |
| CommitTransaction.ReleaseLeases | apps/file-server/internal/db/tree_v4.go:699-703 | deletes only the lease objects this transaction took |
| CommitRename.RenameOnce | apps/file-server/internal/db/tree_v4.go:1566-1706 | one attempt of the lease-free rename with any edit, against every interleaving: success if and only if committed, the edit then made from exactly what was visible for every shard it rewrote; it fails only if a shard could not be read, the edit refuses what was read, every shard being visible as read at one moment of the call, or others have rewritten a shard since |
| CommitRename.ReadSnapshot | apps/file-server/internal/db/tree_v4.go:1432-1506 | the snapshot read for a rename has no undecided pending value hidden under it; it fails only if such a value stands in the way, or others rewrote the shard as often as there were attempts |
| CommitRename.PrepareShard | apps/file-server/internal/db/tree_v4.go:1508-1520 | replaces the observed representation by one conditional write; success means the value read was visible, failure that the shard has been rewritten |
| CommitRename.PublishCommit | apps/file-server/internal/db/tree_v4.go:1522-1530 | the decision of a rename creates its manifest |
| CommitRecovery.GoneIsArchived | apps/file-server/internal/db/tree_v4.go:1038-1045 | a manifest leaves the active list only for the journal |
| CommitRecovery.ClearedKept | apps/file-server/internal/db/tree_v4.go:1006-1036 | a committed transaction that is cleared out of an object never comes back to it |
| CommitRecovery.RewrittenAway | apps/file-server/internal/db/tree_v4.go:1137-1162 | whoever rewrites an object with a pending value of a transaction clears it out of there for good |
| CommitRecovery.JournalTerminal | apps/file-server/internal/db/tree_v4.go:1038-1045 | what is in the journal is decided, and has no derived work left to apply |
| CommitRecovery.MarkedBeforeGone | apps/file-server/internal/db/tree_v4.go:1030-1035 | a committed transaction with derived work leaves the active list only after that work has been marked as applied |
| CommitRecovery.FinalizeCommitted | apps/file-server/internal/db/tree_v4.go:1006-1036 | success means that every participant is cleared of the transaction, and that it is archived once its derived work is done; undisturbed it succeeds |
| CommitRecovery.Archive | apps/file-server/internal/db/tree_v4.go:1038-1045 | afterwards the journal holds the decision, and success means the active manifest is gone; undisturbed it succeeds exactly if the manifest is still the one read |
| CommitRecovery.MarkDerivedApplied | apps/file-server/internal/db/tree_v4.go:1050-1077 | finished means the transaction is decided and journalled; undisturbed the result is that of its manifest |
| CommitRecovery.RecoverOne | apps/file-server/internal/db/tree_v4.go:1103-1193 | one listed manifest is aborted if it has expired and not before, its participants cleared if it is decided, and it is archived unless it waits for derived work; it is never left behind if its client has crashed and its lease has run out |
| CommitRecovery.RecoverTransactions | apps/file-server/internal/db/tree_v4.go:1103-1193 | a recovery pass that does not fail leaves no listed transaction behind whose client has crashed and whose lease has run out; one that nobody disturbs does not fail, and resolves all but those whose lease still runs |
| Paths.NormalizeRoots | apps/file-server/internal/db/file_operations.go:15-49 | the result is exactly the topmost paths of the input, each once, none inside another, shortest first; it fails if and only if the input is empty or names the root |
| Paths.RootsCover | apps/file-server/internal/db/file_operations.go:15-49 | every input path is inside exactly one of the roots |
| FlatMoves.CollisionIsOccupiedName | apps/file-server/internal/db/file_operations.go:109-122 | the check of every moved path against every other comes down to the names of the roots: a move collides if and only if a name is taken in the destination or two roots have one name |
| FlatMoves.InTurnIsAtOnce | apps/file-server/internal/db/tree_v4.go:1863-1893 | moving the roots one after the other gives what moving them all at once gives |
| FlatMoves.NextRoot | apps/file-server/internal/db/tree_v4.go:1863-1893 | when the first roots have been moved, the next one and the destination are still where they were, and the name is taken if and only if the collision check of the path rewriting refuses it |
| FlatMoves.MoveKeepsTree | apps/file-server/internal/db/file_operations.go:73-132 | a successful move keeps active paths unique, ids unique, and every parent an existing directory |
| FlatMoves.MoveKeepsNodes | apps/file-server/internal/db/file_operations.go:126-131 | a move changes no id, physical key, hash or size, and loses no record |
| FlatMoves.MoveBySet | apps/file-server/internal/db/file_operations.go:15-49 | neither the verdict nor the result of a move depends on the order in which equally long roots were sorted |
| FileOperations.MoveRecords | apps/file-server/internal/db/file_operations.go:73-132 | on an array of records, in place: the verdict is that of the flat specification, on failure nothing changes, on success every record is at its target, and exactly the moved ones are returned, in order |
| FileOperations.CheckTargets | apps/file-server/internal/db/file_operations.go:109-122 | the two loops over targets report a conflict if and only if two records would meet, one of them moved |
| FileOperations.MovedEntries | apps/file-server/internal/db/file_operations.go:73-132 | the rewritten records flatten to the moved entries |
| FileTrash.TrashRecords | apps/file-server/internal/db/file_operations.go:134-177 | the exact verdict, first problem first; on success every active row under an item goes to the trash under the id of the last item that names its root, as the root of its group exactly if it is that item's own path, all others stay, and exactly the rows that went are returned; on failure nothing changes |
| FileTrash.RestoreRecords | apps/file-server/internal/db/file_operations.go:179-229 | restores all rows of the wanted ids, and returns exactly those, or none, with the verdict of the specification |
| FileTrash.RestoreVerdictIs | apps/file-server/internal/db/file_operations.go:179-217 | trash can be restored if and only if something is asked for, every id has a row, and no row is being deleted, has its path taken or shares it with an earlier row of another id; otherwise the first such row decides, and without one an id is missing |
| FileTrash.RestoreKeepsUnique | apps/file-server/internal/db/file_operations.go:179-229 | a successful restore keeps active paths unique if and only if no trash id holds two rows of one path: the check compares ids, not rows |
| FileTrash.TrashedTwice | apps/file-server/internal/db/file_operations.go:206-209 | the failing case: whenever a path is trashed twice under one id with a new row in between, the restore of that id succeeds and leaves two active rows of the path |
| FileTrash.TrashThenRestore | apps/file-server/internal/db/file_operations.go:134-229 | restoring right after trashing under fresh ids succeeds and gives back every row but for its time of change |
| NodeTree.RelinkRepresents | apps/file-server/internal/db/tree_v4.go:1887-1889 | relinking one edge of the node graph moves one whole subtree of the forest it stands for, and nothing else |
| NodeTree.RelocatedOk | apps/file-server/internal/db/tree_v4.go:1887-1889 | the relocated forest is again a forest: unique places, unique ids, no node without a parent |
| NodeTree.LeafRepresents | apps/file-server/internal/db/tree_v4.go:1341-1343 | a new entry adds exactly one node to the forest |
| NodeTree.CutRepresents | apps/file-server/internal/db/tree_v4.go:1409-1414 | dropping the entry of a leaf removes exactly that node |
| NodeTree.UpdateRepresents | apps/file-server/internal/db/tree_v4.go:1270-1281 | rewriting an entry changes exactly that node |
| NodeNamespace.Tree.Resolve | apps/file-server/internal/db/tree_v4.go:354-385 | the segment-by-segment walk over the shards finds what the lookup in the graph finds |
| NodeNamespace.Tree.ResolveDirectoryChain | apps/file-server/internal/db/tree_v4.go:387-436 | it succeeds if and only if the path is a directory of the forest, and lists the ids of all directories on the way |
| NodeNamespace.Tree.ApplyMove | apps/file-server/internal/db/tree_v4.go:1872-1891 | one root is relinked among the loaded shards, or fails exactly if its entry is missing or its name taken |
| NodeNamespace.Tree.MovePaths | apps/file-server/internal/db/tree_v4.go:1787-1906 | the edge move refines path rewriting: for any number of paths the verdict is that of moveRecords, and the flattened tree afterwards is the moved set of entries; it also returns every directory on the way to the roots and to the destination |
| NodeNamespace.Tree.MoveRoots | apps/file-server/internal/db/tree_v4.go:1796-1906 | the same after normalization, with the error of the first check that fails |
| NodeMutations.DirectoryEntries | apps/file-server/internal/db/tree_delta.go:437-468 | lists every child of a directory over all its shards, each once |
| NodeMutations.SubtreePlan | apps/file-server/internal/db/tree_v4_trash.go:57-83 | collects exactly the subtree of a node, each node once, and terminates |
| NodeMutations.TrashDelta | apps/file-server/internal/db/tree_v4_trash.go:38-55 | the delta handed to the reducer is the count of the subtree |
| NodeMutations.ReplaceFile | apps/file-server/internal/db/tree_v4.go:1220-1306 | creates or replaces one file under the caller's conditions; a condition that fails changes nothing; the delta is the difference of the weights |
| NodeMutations.UpsertDirectory | apps/file-server/internal/db/tree_v4.go:1308-1354 | the exact verdict, and either nothing or one new directory under a fresh id |
| NodeMutations.DeletePath | apps/file-server/internal/db/tree_v4.go:1356-1430 | fails if and only if something is below the path; otherwise removes at most that one node; deleting what is not there succeeds |
| NodeMutations.RenamePath | apps/file-server/internal/db/tree_v4.go:1708-1785 | the exact verdict, and on success the subtree is at the new path and nothing else has changed |
| NodeMutations.TrashOne | apps/file-server/internal/db/tree_v4_trash.go:100-164 | on success the subtree hangs from the manifest and the delta is minus its count |
| NodeMutations.RestoreOne | apps/file-server/internal/db/tree_v4_trash.go:251-300 | the exact verdict, and on success the subtree is back at its path and the delta is its count |
| NodeAccounts.SumCounts | apps/file-server/internal/db/tree_v4_trash.go:38-55 | summing a list of distinct nodes counts the set of them |
| NodeConservation.CreateConserves | apps/file-server/internal/db/tree_v4.go:1342-1342 | a created file or directory changes the live counts by the delta recorded |
| NodeConservation.DeleteConserves | apps/file-server/internal/db/tree_v4.go:1409-1413 | so does a deletion |
| NodeConservation.ReplaceConserves | apps/file-server/internal/db/tree_v4.go:1270-1280 | so does a replacement |
| NodeConservation.TrashConserves | apps/file-server/internal/db/tree_v4_trash.go:145-149 | trashing changes the live counts by minus the count of the subtree |
| NodeConservation.RestoreConserves | apps/file-server/internal/db/tree_v4_trash.go:282-286 | restoring by plus the count of the subtree |
| NodeConservation.RenameConserves | apps/file-server/internal/db/tree_v4.go:1708-1785 | a rename changes no count |
| NodeConservation.MoveConserves | apps/file-server/internal/db/tree_v4.go:1787-1906 | nor does a move of any number of roots |
| NodeConservation.TrashThenRestore | apps/file-server/internal/db/tree_v4_trash.go:100-300 | restoring right after trashing gives back the whole forest, and the two deltas cancel |
| NamespaceRuns.StepInv | apps/file-server/internal/db/tree_v4.go:869-911 | concurrent operations: leases taken and run out, builds, commits that write back whole shards, given-up attempts and lease-free renames keep the tree a tree, and keep for every operation whose leases hold that what it saw is still so and what it has counted still right; the commits and renames have to be safe in the five respects named above |
| NamespaceFrames.PlanKept | apps/file-server/internal/db/tree_v4.go:1205-1210 | a commit under other leases changes nothing that a build has looked at, nor the count of the subtree it has counted |
| NamespaceRuns.StepConserves | apps/file-server/internal/db/tree_v4.go:882-894 | under the same five conditions every step changes the counts of the live tree by exactly what it hands to the reducer: a commit by the delta of its last attempt, everything else by nothing |
| NamespaceLimits.ConservesIffSafe | apps/file-server/internal/db/tree_v4_trash.go:100-164 | the conditions on what a commit finds are exact: in every reachable state a planned commit under leases that hold leaves a tree whose counts have changed by what is handed over, and a restore nothing behind, if and only if no directory goes below itself, the directory trashed out of or restored into is still live, and the manifest restored is still there, or it is gone, the node in no place and nothing else counted with it |
| NamespaceRaces.CrossedFromEmpty | apps/file-server/internal/db/tree_v4.go:1787-1906 | a run from the empty namespace: two directories are created and moved into each other, under leases that do not meet; both subtrees leave the tree and nothing is handed over for it |
| NamespaceRaces.NestedTrash | apps/file-server/internal/db/tree_v4_trash.go:100-164 | a run from any state: a directory and an entry of it are trashed at one time, and the entry is taken from the counts twice |
| NamespaceRaces.RestoreIntoTrashed | apps/file-server/internal/db/tree_v4_trash.go:251-300 | a run from any state: an entry is restored into a directory that has been trashed, and is counted though nobody can find it |
| NamespaceRaces.RestoredTwice | apps/file-server/internal/db/tree_v4_trash.go:251-300 | a run from any state: two operations read one manifest, the first restores it, the node is renamed, and the commit of the second puts the node into the tree a second time |
| NamespaceRaces.RenamedAway | apps/file-server/internal/db/tree_v4.go:1532-1706 | a run from any state: a file is about to be replaced under leases, a lease-free rename moves another entry onto its shard, and the commit takes that entry out of the tree |
| NamespaceRaces.LateWrite | apps/file-server/internal/db/tree_v4.go:979-989 | a run from any state: leases run out between their last verification and the decision, another operation creates a file on the shard, and the late commit takes it out again |
| NamespaceModel.WrittenIsAfter | apps/file-server/internal/db/tree_v4.go:1894-1898 | writing back whole shards as they were built is the change of the shards as they are, if nobody has changed them since they were read |
| NamespaceFrames.InsistingBuildable | apps/file-server/internal/db/tree_v4.go:1775-1781 | a rename across directories that finds both its shards as it has read them can be made now as it was built, whatever others did meanwhile |
| NamespaceGlobal.GlobalStep | apps/file-server/internal/db/tree_v4.go:625-632 | with the global lease in every attempt, a move that was not refused when it was built is safe at its commit, and stays so beside lease-free renames: no directory is ever moved below itself |
| NamespaceGlobal.GlobalRun | apps/file-server/internal/db/tree_v4.go:625-632 | over whole runs in global mode, moves need no condition but leases that hold, and every step changes the counts by what it hands over |
| NamespaceGlobal.BuiltClear | apps/file-server/internal/db/tree_v4.go:1819-1821 | if no root is moved below itself as the tree is at the build, which is what is refused, then the directory they all go to is in none of the nodes that are moved one after the other |
| Reducer.ExactlyOnce | apps/file-server/internal/db/tree_delta.go:253-342 | in every run in which no delta is written again later than the retention window less a margin, passes write only under their lease and compact within the margin of their listing, and no listing fails while a delta is stored that was applied as long ago: however passes and emitters stop, overlap and resume, no delta is applied twice, and the stats are the baseline plus the deltas of the distinct tokens applied |
| Reducer.NothingLost | apps/file-server/internal/db/tree_delta.go:253-342 | in such a run what has been published and what is still to be applied add up to everything committed |
| Reducer.LeaseStays | apps/file-server/internal/db/tree_recovery.go:26-97 | the reducer lease is taken by a pass only if it is free, has run out or is its own; while it runs only its owner renews it or gives it back |
| Reducer.EmissionSafeIffInTime | apps/file-server/internal/db/tree_recovery.go:99-155 | the exact condition on writing a delta again: with everything else in time, no continuation counts it twice if and only if less than the retention window less the margin has passed since it was applied |
| Reducer.LateEmitterRun | apps/file-server/internal/db/tree_recovery.go:99-155 | a run from any first state: an emitter stalls before its write until its token has been compacted, and its delta is counted twice |
| Reducer.StalePassReapplies | apps/file-server/internal/db/tree_delta.go:253-342 | a pass that goes on after another has taken its lease may count a delta twice |
| Reducer.SlowCompactionReapplies | apps/file-server/internal/db/tree_recovery.go:99-155 | so may a compaction that reads its clock long after its listing |
| Reducer.FailedListingSafeIffInTime | apps/file-server/internal/db/tree_recovery.go:281-291 | the exact condition on a pass that compacts although its second listing has failed: with everything else in time, no continuation counts a delta twice if and only if no delta is still stored that was applied as long ago as the window less the margin |
| Reducer.FailedListingRun | apps/file-server/internal/db/tree_recovery.go:281-291 | a run from any first state: a delta whose marking keeps failing for the retention window is counted again after one failed listing |
| Reducer.LingeringReached | apps/file-server/internal/db/tree_delta.go:161-215 | where those two lemmas start is reached from any first state |
| Reducer.AddAllTotal | apps/file-server/internal/db/tree_delta.go:309-316 | the order in which a batch is added does not matter |
| ReducerStore.DerivedStore.EmitDerivedDelta | apps/file-server/internal/db/tree_delta.go:161-215 | success means the delta was stored at a moment of the call; it is refused only if the transaction is unknown or marked |
| ReducerStore.DerivedStore.ApplyBatch | apps/file-server/internal/db/tree_delta.go:253-342 | success means that every delta the pass holds has been applied, by it or by another pass, against every interleaving; it fails only if the lease is lost or the state object has been written by others during each attempt |
| ReducerStore.DerivedStore.FinishPass | apps/file-server/internal/db/tree_recovery.go:256-281 | afterwards every transaction of the pass is marked but those that cannot be, and the delta of each is gone as it was read, but for those it reports as failed: unmarkable, or written once more meanwhile |
| ReducerStore.DerivedStore.ReducePass | apps/file-server/internal/db/tree_recovery.go:161-310 | a pass takes the lease, for its time to live, or finds it taken; what it reports is what it has listed, applied, marked, deleted and dropped: if it applies, no delta is left unapplied that was stored when it listed them, and it fails to apply only if it loses the lease or the state object is written during each of its attempts; the lease is given back |
| ReducerStore.DerivedStore.CompactTokens | apps/file-server/internal/db/tree_recovery.go:99-155 | drops only tokens that were applied at least the retention window ago and whose delta is not stored, against every interleaving, and all of them that its listing does not show, unless the lease is lost or the state object written during each attempt; the listing may fail, and is then taken as empty |
| ReducerStore.ForgottenGone | apps/file-server/internal/db/tree_recovery.go:99-155 | a compaction in time drops no token whose delta is stored, and none too early |
| ReducerStore.SumPending | apps/file-server/internal/db/tree_delta.go:290-316 | the loop adds the deltas of the tokens held and not yet applied, each once |
| Ledger.Conservation | apps/file-server/internal/db/tree_delta.go:309-316 | in every state of every joint run of namespace and reducer in which both keep their conditions, with concurrent creates, replacements, deletions, renames, moves, trashings and restores that retry, the published stats plus the deltas committed and not yet applied are the file, directory and byte counts of the live tree |
| Summaries.SummaryStore.Summarize | apps/file-server/internal/db/tree_delta.go:491-536 | the memoized recursion terminates on every listing, and on one without cycles returns the full recount of the directory |
| Summaries.SummaryStore.RebuildSummaries | apps/file-server/internal/db/tree_delta.go:474-545 | success means that every dirty directory has been summed up; if every clean summary is right and the listing without cycles it succeeds, and makes every summary right |
| Summaries.CleanRecount | apps/file-server/internal/db/tree_delta.go:474-545 | if only dirty directories list anything else and no clean one lists a dirty one, the recount of a clean directory is unchanged |
| Summaries.RebuildAfter | apps/file-server/internal/db/tree_delta.go:474-545 | incremental is full: right summaries before an operation and a rebuild of the dirty directories alone give right summaries after it |
| TreeSummaries.RecountIsCount | apps/file-server/internal/db/tree_delta.go:491-536 | the recount over the shards is the count of the nodes below the directory |
| SummaryUpkeep.ForestRanked | apps/file-server/internal/db/tree_delta.go:491-510 | the recursion over any forest terminates: every child ranks below its parent |
| SummaryUpkeep.Upkeep | apps/file-server/internal/db/tree_delta.go:474-545 | after an operation that kept what is below all directories it does not name, rebuilding the named ones makes every stored summary the count of what is below its directory |
| SummaryUpkeep.BuildListing | apps/file-server/internal/db/tree_delta.go:437-468 | the listing that the rebuild works on is read from the shards; directories that are in no place list nothing, which every operation keeps |
| SummaryUpkeep.ChainHolds | apps/file-server/internal/db/tree_v4.go:387-436 | the ids that resolving a parent passes are all the directories above the path |
| SummaryUpkeep.LeafKept | apps/file-server/internal/db/tree_v4.go:1240-1240 | creating an entry changes what is below its ancestors only |
| SummaryUpkeep.CutKept | apps/file-server/internal/db/tree_v4.go:1356-1430 | so does deleting one |
| SummaryUpkeep.UpdateKept | apps/file-server/internal/db/tree_v4.go:1220-1306 | so does replacing a file |
| SummaryUpkeep.RelocateKept | apps/file-server/internal/db/tree_v4.go:1735-1735 | renaming, trashing and restoring change only what is below the directories above the old place and the new one |
| SummaryUpkeep.RenameInPlaceKept | apps/file-server/internal/db/tree_v4.go:1733-1735 | a rename inside one directory names no ancestors, and leaves what is below every directory as it was |
| SummaryUpkeep.MovePathsKept | apps/file-server/internal/db/tree_v4.go:1835-1838 | after a move the ancestors it reports are all that has to be rebuilt |
| SummaryOperations.ReplaceFile | apps/file-server/internal/db/tree_v4.go:1220-1306 | the operation followed by the rebuild of exactly the ancestors it returns: every stored summary is right again, the counts have changed by the delta returned, and the forest as the operation says |
| SummaryOperations.UpsertDirectory | apps/file-server/internal/db/tree_v4.go:1308-1354 | the same for creating a directory |
| SummaryOperations.DeletePath | apps/file-server/internal/db/tree_v4.go:1356-1430 | the same for a deletion |
| SummaryOperations.RenamePath | apps/file-server/internal/db/tree_v4.go:1708-1785 | the same for a rename |
| SummaryOperations.MovePaths | apps/file-server/internal/db/tree_v4.go:1787-1906 | the same for a move of any number of paths |
| SummaryOperations.TrashOne | apps/file-server/internal/db/tree_v4_trash.go:100-164 | the same for trashing |
| SummaryOperations.RestoreOne | apps/file-server/internal/db/tree_v4_trash.go:251-300 | the same for restoring |
| TreeImport.Import | apps/file-server/internal/db/tree_v4_migration.go:24-131 | the import succeeds if and only if ids are positive and distinct, paths distinct and parents existing directories; then the shards stand for exactly the records, and the seeded summaries are right |
| TreeImport.InsertRecord | apps/file-server/internal/db/tree_v4_migration.go:90-118 | one record: the parent is missing only if no record is that directory, the entry is a duplicate only if two records have one path |
| TreeImport.PushSummaries | apps/file-server/internal/db/tree_v4_migration.go:240-257 | adds every record to every directory above it, and to nothing else |
| TreeImport.PushIsPull | apps/file-server/internal/db/tree_v4_migration.go:240-257 | the summaries pushed to the ancestors are the ones that the recursive recount of the imported shards gives |
| TreeImport.ListAll | apps/file-server/internal/db/tree_v4.go:583-623 | the walk returns exactly the active records, each once |
| TreeImport.ImportThenExport | apps/file-server/internal/db/tree_v4_migration.go:279-337 | the round trip: whatever snapshot is imported, the export gives back exactly its active records |
| Drift.ExecutionKeepsMeaning | apps/file-server/internal/drift/action.go:241-350 | no step of any executor, fresh or stale, changes what any active or trashed path reads, and no path ever points to a missing object; the scan it counts by reads live keys, trashed keys and each record at different moments |
| Drift.MeaningKept | apps/file-server/internal/drift/action.go:241-350 | over any stretch of any run from no action at all, with actions created meanwhile, crashes, resumes and stale executors, in which users leave the records alone, every path reads the same |
| Drift.DeletedUnreferenced | apps/file-server/internal/drift/action.go:319-330 | a source is deleted only when no record maps to it, shared sources included, although the scan is made in steps beside users who rename and restore other records |
| Drift.StepMapped | apps/file-server/internal/drift/action.go:289-318 | no step adds a record to a source of an action under way |
| Drift.CompletedMovedAll | apps/file-server/internal/drift/action.go:343-350 | a completed action has relinked the record of every entry of its plan |
| DriftLimits.OverlappingPlans | apps/file-server/internal/drift/action.go:289-330 | from any state with a shared object, a run with one action created on the target of another that a stale executor is still about to relink: a record is left without its object |
| DriftLimits.MappedToSource | apps/file-server/internal/drift/action.go:122-136 | a run in which a record is mapped to a source after the scan: it is left without its object |
| DriftLimits.RemovedTarget | apps/file-server/internal/drift/action.go:289-302 | a run in which the target is removed between its revalidation and the relinking |
| DriftLimits.TornScan | apps/file-server/internal/db/drift_scanner.go:33-90 | a run in which a record is renamed after the scan has listed the keys and before it reads this one: a source that two records share is counted once, and the renamed record is left without its object |
| DriftExecutor.DriftStore.SaveCheckpoint | apps/file-server/internal/drift/action.go:191-212 | a checkpoint is saved exactly if the action has the version last seen |
| DriftExecutor.DriftStore.CopyEntry | apps/file-server/internal/drift/action.go:244-275 | on success the target exists as this action's copy and the checkpoint is saved; it fails only if the source is not as planned, the target is another's, or the checkpoint cannot be saved |
| DriftExecutor.DriftStore.RelinkEntry | apps/file-server/internal/drift/action.go:289-318 | on success the target had been revalidated and the record of the entry has been relinked, by this executor or an earlier one; it fails only if the target is no longer the one verified, the record maps elsewhere, or the checkpoint cannot be saved |
| DriftExecutor.DriftStore.Execute | apps/file-server/internal/drift/action.go:241-350 | success means every entry's record has been relinked and the action is completed, from any checkpoint; failure, that the executor cannot go on: an object or record is not as planned, or somebody else has saved a checkpoint |
| DriftExecutor.DriftStore.ScanRecords | apps/file-server/internal/db/drift_scanner.go:18-90 | lists the live keys, then the trashed ones, then reads each record, others going on meanwhile; afterwards the references are counted from above |
| DriftExecutor.DriftStore.ResumeAction | apps/file-server/internal/drift/action.go:96-137 | taking over an action keeps the invariant, and success and failure mean the same |
| DriftPlans.CreatePlan | apps/file-server/internal/drift/service.go:327-372 | a plan is made if and only if something is wanted, every wanted path is listed and movable, and no two go to one target; it holds one entry for each, as listed, in the order of their paths, and no target is a source |
| DriftPlans.ActionableIsMovable | apps/file-server/internal/drift/service.go:267-294 | a record is actionable if and only if it is live, its object is there in the recorded size, neither under the record's own key nor an upload's, and its own key is free |
| DriftPlans.NotMovable | apps/file-server/internal/drift/service.go:267-294 | every other record with a key is aligned, in conflict or broken, exactly for the reason its status names |
| DavLocks.ConflictIsSharedPath | apps/file-server/internal/db/postgres_dav_locks.go:301-326 | two locks conflict if and only if some path is covered by both (section 6.2 of RFC 4918) |
| DavLocks.Exclusive | apps/file-server/internal/db/postgres_dav_locks.go:301-326 | in every state of every run of creates, refreshes, deletions, cleanups, claims, releases and the clock, no path is covered by two locks |
| DavLocks.StepNoConflicts | apps/file-server/internal/db/postgres_dav_locks.go:16-75 | every transaction keeps the rows free of conflicts, the inactive ones included |
| DavLocks.CreatedIff | apps/file-server/internal/db/postgres_dav_locks.go:16-75 | a lock is created if and only if it has a new token, is not over yet, and no path is meant for it and for a lock that stands |
| DavLocks.ClaimedIff | apps/file-server/internal/db/postgres_dav_locks.go:158-228 | paths are claimed if and only if each lock that stands over one of them is provided and held by no other claim |
| DavLocks.RowComesAndGoes | apps/file-server/internal/db/postgres_dav_locks.go:40-46 | a row comes with a creation, and goes only if it is deleted, or swept when it stands no more |
| DavLocks.RowExpiry | apps/file-server/internal/db/postgres_dav_locks.go:112-132 | a refresh of a lock that is not over sets its expiry, and nothing else changes it, its path, depth or owner |
| DavLocks.RowHold | apps/file-server/internal/db/postgres_dav_locks.go:158-265 | a claim holds what stands over its paths and drops what has run out, its release drops what it holds, and nothing else changes a hold |
| DavLocks.StandsUntilDeleted | apps/file-server/internal/db/postgres_dav_locks.go:16-265 | over any run a lock that stands at every sweep stays in the table, with its path, depth and owner, unless it is deleted |
| DavLocks.LockTable.Create | apps/file-server/internal/db/postgres_dav_locks.go:16-75 | a lock is created if and only if its token is new and it conflicts with no active lock; inactive rows go first |
| DavLocks.LockTable.Refresh | apps/file-server/internal/db/postgres_dav_locks.go:112-132 | only an unexpired lock can be refreshed, so no inactive one comes back in conflict |
| DavLocks.LockTable.Delete | apps/file-server/internal/db/postgres_dav_locks.go:134-144 | a lock that a claim holds cannot be deleted |
| DavLocks.LockTable.Claimable | apps/file-server/internal/db/postgres_dav_locks.go:230-252 | the locks found are exactly the active ones covering one of the paths, and none if one of them is not provided or held by another claim |
| DavLocks.LockTable.Claim | apps/file-server/internal/db/postgres_dav_locks.go:158-228 | all active locks over the paths are held for the claim, or none |
| DavLocks.LockTable.Release | apps/file-server/internal/db/postgres_dav_locks.go:254-265 | drops exactly the holds of the claim |
| DavLocks.ClaimProtects | apps/file-server/internal/db/postgres_dav_locks.go:158-252 | from its grant until it is released, renewed or runs out, over any run of others, the locks over the paths of a claim stay, even if they expire meanwhile, and no lock that covers one of the paths is created, none of them deleted, and no other claim that needs one is granted |
| Uploads.RunKeeps | apps/file-server/internal/db/tree_entities.go:594-876 | in every state of every run, status and completion are one of ten pairs, and an owner is set if and only if the upload is finalizing |
| Uploads.RevisionCounts | apps/file-server/internal/db/tree_entities.go:594-620 | every change raises the revision by one |
| Uploads.TerminalAbsorbs | apps/file-server/internal/db/tree_entities.go:715-860 | a complete, conflicting or cancelled upload stays as it is, up to its cleanup fields |
| Uploads.SupersededFails | apps/file-server/internal/db/tree_entities.go:794-804 | every mark, retry or conflict of an owner fails once another owner has claimed the upload |
| Uploads.LeaseProtects | apps/file-server/internal/db/tree_entities.go:658-684 | as long as nothing ends a claim, another owner can claim the upload if and only if the lease of that claim has run out and its time has come |
| Uploads.ClaimWaits | apps/file-server/internal/db/tree_entities.go:658-684 | of two claims of different owners with nothing in between that ends the first, the second is made when the first has run out |
| Uploads.FinalizerIsLast | apps/file-server/internal/db/tree_entities.go:658-684 | in every run owner and lease are those of the last claim that nothing has ended |
| Uploads.RecordIsLog | apps/file-server/internal/db/tree_entities.go:594-876 | in every run status, checkpoint, messages, times and hashes of the record are what the last call has said that has anything to say about them |
| Uploads.StampsAreFirst | apps/file-server/internal/db/tree_entities.go:686-860 | every stamp is the time of the first call of its kind |
| Uploads.AllowedIff | apps/file-server/internal/db/tree_entities.go:570-876 | a transition takes effect if and only if the log of the calls before permits it |
| Uploads.CanComplete | apps/file-server/internal/db/tree_entities.go:658-735 | an upload whose completion is under way can still be completed by any owner, whatever has happened to it; all that may be needed is to wait |
| Uploads.AttemptsCount | apps/file-server/internal/db/tree_entities.go:658-684 | every claim that takes effect is counted as an attempt, and nothing else is |
| Uploads.RetryHoldsOff | apps/file-server/internal/db/tree_entities.go:760-775 | after a retry no claim takes effect before the time it set |
| Uploads.CompletedInOrder | apps/file-server/internal/db/tree_entities.go:686-735 | a complete upload was marked ready, then published, then complete, with no retry in between, was completed once, names the object its publication replaced, and has that cleaned up unless there is nothing to clean |
| Uploads.CancelledInTime | apps/file-server/internal/db/tree_entities.go:816-860 | a cancelled upload was asked to be cancelled before, and never completed |
| Uploads.CompleteInTime | apps/file-server/internal/db/tree_entities.go:686-735 | with a monotone clock a complete upload has its three stamps, in order |
| Uploads.UploadEntity.UpdateUploadIf | apps/file-server/internal/db/tree_entities.go:594-620 | against every interleaving a change is made once and to the record as it is at that moment, a refusal was right of a record that was there during the call, and it gives up only after others have changed the record as often as it has tried; neither a refusal nor giving up has changed anything |
| DirectoryCache.CacheIsFresh | apps/file-server/internal/db/tree_v4.go:454-478 | a cached chain whose links are all valid is what a fresh walk of the shards returns |
| DirectoryCache.WriteKeepsSound | apps/file-server/internal/db/tree_v4.go:339-352 | a write to a shard leaves every cached chain sound: its generation is out of date |
| DirectoryCache.DecisionKeepsSound | apps/file-server/internal/db/tree_v4.go:272-304 | so does the commit of a prepared value, which changes what is visible without a new generation: the child id is what is left to tell |
| DirectoryCache.Resolver.ResolveDirectoryChain | apps/file-server/internal/db/tree_v4.go:387-436 | from the cache or not, the result is that of a fresh walk, after any history of writes, decisions and evictions; afterwards the path is cached if and only if it was found, and with valid links |
| DirectoryCache.Resolver.CacheDirectory | apps/file-server/internal/db/tree_v4.go:445-452 | at most 2048 entries are kept: a full cache is emptied first |
| DirectoryCache.WalkIsLookup | apps/file-server/internal/db/tree_v4.go:387-436 | the walk succeeds if and only if the path leads to a directory, and the ids are those of what lookups find on the way |
| PagedIndex.DirectoryIndex.UpdateRecord | apps/file-server/internal/db/tree_store.go:471-547 | every page keeps between one and 256 records, the manifest keeps the totals of all stored records, and one page is replaced by the chunks of its changed records |
| PagedIndex.DirectoryIndex.WriteIndex | apps/file-server/internal/db/tree_store.go:548-586 | all given records are stored, in order across the pages, with the same invariant |
| PagedIndex.DirectoryIndex.PutPage | apps/file-server/internal/db/tree_store.go:446-462 | a page is a sorted permutation of the records, and its descriptor says what it holds |
| PagedIndex.DirectoryIndex.SummarizeManifest | apps/file-server/internal/db/tree_aggregates.go:46-61 | the totals summed over the descriptors are the sums over all stored records |
| PagedIndex.SubtreeIsCensus | apps/file-server/internal/db/tree_aggregates.go:17-61 | if every directory record carries the totals of its own index, the totals of an index are the numbers of files and directories and the size of everything below, at any depth |
| PagedIndex.DirectoryIndex.List | apps/file-server/internal/db/tree_store.go:656-694 | an offset and limit listing is the slice of the concatenated pages |
| PagedIndex.UpsertRecord | apps/file-server/internal/db/tree_store.go:593-601 | the loop replaces the first record of the path, or appends |
| PagedIndex.RemoveRecord | apps/file-server/internal/db/tree_store.go:602-611 | the loop drops every record of the path |
| PagedIndex.UpdateExact | apps/file-server/internal/db/tree_store.go:471-547 | in an index in order an update adds, replaces or removes exactly the record it is about |
| PagedIndex.UpdateKeepsOrder | apps/file-server/internal/db/tree_store.go:504-519 | an update keeps the index in order if and only if it does not put a new record into the middle of a full page |
| PagedIndex.InsertThenRemove | apps/file-server/internal/db/tree_store.go:504-519 | a new record is still listed after its removal if and only if it was put into the middle of a full page |
| PagedIndex.OverflowHappens | apps/file-server/internal/db/tree_store.go:504-519 | an index and a record with which this happens |
| Paths.Distinct | apps/file-server/internal/db/file_operations.go:16-30 | the distinct paths of the input; it fails if and only if one of them is the root |
| Paths.KeepTopmost | apps/file-server/internal/db/file_operations.go:34-48 | of paths sorted by length, exactly those are kept that no kept one contains |
| FileOperations.IndexByPath | apps/file-server/internal/db/file_operations.go:82-85 | the index finds every record by its path |
| FileOperations.CheckRoot | apps/file-server/internal/db/file_operations.go:94-101 | the verdict on one root is that of the specification |
| FileOperations.AddRoot | apps/file-server/internal/db/file_operations.go:102-107 | one root adds exactly the records it moves, with their targets |
| FileOperations.CollectRoots | apps/file-server/internal/db/file_operations.go:92-108 | the first root with a problem decides; without one, every moved record has its target |
| FileOperations.InvertMoves | apps/file-server/internal/db/file_operations.go:109-115 | the targets are inverted exactly, unless two moved records have one target |
| FileOperations.Standing | apps/file-server/internal/db/file_operations.go:116-122 | finds a record that stays where another one is to go, if there is one |
| FileOperations.Rewrite | apps/file-server/internal/db/file_operations.go:123-131 | overwrites exactly the moved records, and returns them in order |
| FileTrash.FindRoot | apps/file-server/internal/db/file_operations.go:134-177 | finds the first root that contains a path |
| FileTrash.MarkTrashed | apps/file-server/internal/db/file_operations.go:134-177 | marks exactly the active rows inside a root |
| FileTrash.CheckRestore | apps/file-server/internal/db/file_operations.go:179-229 | the first row with a problem decides, and the ids found are exactly those that hold rows |
| FileTrash.MarkRestored | apps/file-server/internal/db/file_operations.go:179-229 | restores exactly the wanted rows |
| NodeNamespace.Tree.PlanRoot | apps/file-server/internal/db/tree_v4.go:1813-1820 | the verdict on one root is that of the path specification |
| NodeNamespace.Tree.PlanMoves | apps/file-server/internal/db/tree_v4.go:1810-1838 | the first root with a problem decides; the directories on the way to every root are collected |
| NodeNamespace.Tree.BuildMoves | apps/file-server/internal/db/tree_v4.go:1862-1893 | relinks all planned roots among the loaded shards, or fails if and only if a name is taken |
| NodeMutations.ShardEntries | apps/file-server/internal/db/tree_delta.go:461-466 | lists every entry of a shard, each once |
| NodeMutations.ParentOf | apps/file-server/internal/db/tree_v4.go:1228-1235 | resolves the parent of a path and finds the entry that leads to the path |
| NodeMutations.SumRecords | apps/file-server/internal/db/tree_v4_trash.go:38-55 | adds up the weights of a list, as an addition or as a removal |
| CommitStore.Namespace.DecideUnlisted | apps/file-server/internal/db/tree_v4.go:820-831 | without an active manifest, the journalled decision or, for want of any, the lease inside the pending value decides |
| CommitStore.Namespace.PutPending | apps/file-server/internal/db/tree_v4.go:792-803 | one conditional write of a pending value over the object read |
| CommitStore.Namespace.ReadFenced | apps/file-server/internal/db/tree_v4.go:339-352 | a read under a lease returns a value visible after it was noted |
| CommitStore.Namespace.ReadChecked | apps/file-server/internal/db/tree_v4.go:339-352 | a read whose generation is insisted on later; if the generation still holds, the value is what was visible |
| CommitTransaction.Start | apps/file-server/internal/db/tree_v4.go:919-947 | the manifest is written first, with a lease of the time to live, then the leases are taken in order, none for longer; it fails only for a lease that is not to be had |
| CommitTransaction.PublishPlan | apps/file-server/internal/db/tree_v4.go:948-968 | the participants are listed by a conditional write, before anything is prepared: exactly the keys of the plan, and whether there is derived work; it fails only if somebody has aborted the transaction, its time being up |
| CommitTransaction.PrepareAndVerify | apps/file-server/internal/db/tree_v4.go:969-981 | success means that everything is prepared and that every lease ran at a moment after that; failure, that a key could not be prepared or a lease was found lost |
| CommitRename.SnapshotReady | apps/file-server/internal/db/tree_v4.go:1432-1506 | if the object is unchanged since the snapshot, what was read is still what is visible |
| CommitRename.PublishAbort | apps/file-server/internal/db/tree_v4.go:1522-1530 | an abort published in place of a commit |
| CommitRecovery.DecideExpired | apps/file-server/internal/db/tree_v4.go:1121-1136 | an expired manifest is aborted by a conditional write; a commit that won is read again; None means that its client was at work, or that it is decided and gone |
| CommitRecovery.ResolveParticipants | apps/file-server/internal/db/tree_v4.go:1137-1170 | every participant of a decided transaction is cleared of it, by this process or by others |
| Reducer.StepInv | apps/file-server/internal/db/tree_recovery.go:99-155 | every step of every emitter, pass and compaction that is in time, with a listing or without one, keeps the reducer invariant: a token dropped from the list can never come back |
| ReducerStore.DerivedStore.ReadListed | apps/file-server/internal/db/tree_recovery.go:209-246 | a listed delta that is no longer there has been applied |
| Summaries.SummaryStore.SumChildren | apps/file-server/internal/db/tree_delta.go:506-528 | adds up the children of a directory, recursing into dirty ones and into those without a summary |
| TreeSummaries.UnderIsUpTo | apps/file-server/internal/db/tree_delta.go:506-528 | below a directory is exactly what is below its children |
| TreeImport.CheckIds | apps/file-server/internal/db/tree_v4_migration.go:46-56 | accepts exactly positive, distinct ids |
| TreeImport.BuildShards | apps/file-server/internal/db/tree_v4_migration.go:59-131 | succeeds if and only if paths are distinct and parents existing directories, and then the shards stand for the records |
| Drift.StepInv | apps/file-server/internal/drift/action.go:241-350 | every step of every executor and its scan, of new actions and of the users keeps the invariant: targets verified, references counted from above, no record without its object, no record of a source missed by a scan |
| DriftExecutor.DriftStore.VerifyEntry | apps/file-server/internal/drift/action.go:276-288 | on success the target is a verified copy of the planned source; it fails only if the target has another content or the checkpoint cannot be saved |
| DriftExecutor.DriftStore.HandleEntry | apps/file-server/internal/drift/action.go:319-330 | on success the source has been handled and the checkpoint is saved; it fails only if the checkpoint cannot be saved |
| Uploads.StepKeeps | apps/file-server/internal/db/tree_entities.go:594-876 | every transition keeps the record well formed |
| Uploads.UploadEntity.Put | apps/file-server/internal/db/tree_backend.go:75-81 | a conditional put takes effect if and only if nobody has written since the read |
| PagedIndex.DirectoryIndex.PutPages | apps/file-server/internal/db/tree_store.go:509-521 | stores a list in chunks of 256, each sorted |
| PagedIndex.DirectoryIndex.ChoosePage | apps/file-server/internal/db/tree_store.go:477-483 | finds the first page whose last key is not below the key, or else the last page |
| PagedIndex.SummarizePage | apps/file-server/internal/db/tree_aggregates.go:32-44 | sums a page record by record |

## Left out

- CommitTransaction.TransactOnce: a build that names one key twice; of failing accesses only the write of the decision is modelled; the derived payload of a transaction is in NamespaceModel and Ledger, here it is whether there is any.
- CommitTransaction.Transact: cancellation by the caller, which can end any wait.
- CommitRename.RenameOnce: a commit whose answer is lost, after which the client publishes an abort if it no longer finds the commit listed; prepares run one after another; the clock lets the decision come in time, which the code does not check.
- CommitRenameEntry.RenameEntry: the fallback to a leased rename after too many conflicts; a shard value is its map of names, and the renamed node keeps its id and content.
- CommitDurability.DurableIffInTime: the time recovery takes from looking for a decision to reading its clock is one fixed bound, the slack.
- CommitStore.Namespace.PutEnvelope: generations are fresh numbers; the local backend derives them from a content hash, so there a value written back is not told apart.
- CommitStore.Namespace.PrepareMutation: the absence check on fresh legacy ids, which can only make it fail, and the fences stored with a pending value, which nothing compares.
- CommitRecovery.RecoverTransactions: the resource list of a recovered transaction, the archival entry point for operators, and the emission of the derived delta, which Reducer has as steps of its own.
- NodeNamespace.Tree.MovePaths: modification times, and the re-resolution of both parents inside the build, which cannot fail in a serial run.
- NodeMutations.ReplaceFile: the condition on a whole expected record, and the counters of physical objects, which the code counts per file here and per distinct hash elsewhere.
- NodeMutations.RestoreOne: the manifest is read outside the transaction; here it is read at the build, in NamespaceModel before it.
- TreeImport.Import: the trash groups of a snapshot, which the code does not check for collisions, and the side entities; records never name the root, and node ids are the record ids.
- NamespaceRuns.StepConserves: commits and lease-free renames are safe in the five respects named above; the lookups that a build makes of its parent directories see one state of the tree with the rest of the build; the fallback of a rename inside a directory to a leased one, and operations on physical objects.
- NamespaceGlobal.GlobalRun: a move below itself is refused on the tree of its build; the code compares the paths once, and its build looks up both parents under these paths again.
- ReducerStore.DerivedStore.EmitDerivedDelta: the comparison with a delta that is already stored, whose content a transaction determines; the code does not bound the time of its write, the model requires it.
- ReducerStore.DerivedStore.ReducePass: reading errors of single deltas; applied tokens without a time, as older states have them; the copy of the stats to the object that readers use, and the rebuild of directories before the write, which is in Summaries. Which transactions cannot be marked, and whether the second listing fails, are up to the environment.
- DriftExecutor.DriftStore.ResumeAction: the lease, the failed status and the dismissal of an action, which only keep executors apart that the model lets run together.
- DriftPlans.CreatePlan: the fingerprint and the cost estimate.
- DavLocks.LockTable.Create: the statements of one database transaction run as one step.
- Uploads.UploadEntity.UpdateUploadIf: creation under a taken id and deletion of a record.
- DirectoryCache.Resolver.ResolveDirectoryChain: the shard reads of one call see one state of the store.
- PagedIndex.DirectoryIndex.UpdateRecord: the summary of a directory record is read before the update, and lost races of the manifest write are retried from the start.
- Path strings: cleaning, Unicode and escaping; a path is a sequence of non-empty segments.
- JSON, hashes, ids and key layout; sharding is an arbitrary function of the name.
- Cloud clients, hedged writes and the classification of their errors.
- V4 deletion of trashed subtrees, which removes objects outside the commit protocol.
- V3 durable operations, whose checkpoints do not carry the counter change.
- The tree version of DAV locks; its refresh does not look at the expiry.
- Filtered listings, thumbnails, shares, pricing estimates, HTTP, WebDAV and FTP handlers.
