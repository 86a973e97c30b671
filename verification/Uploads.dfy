/** The upload-completion machine: the transitions of one upload record, what every run of them
    keeps, and the optimistic update that makes each transition take effect at once. */
module Uploads {
  import opened Wrappers

  datatype Status = Pending | Uploading | Uploaded | Failed | Expired | Finalizing | Completed | Conflicted | Cancelling | Cancelled
  datatype Completion = NotRequested | RetryRequested | AwaitingObject | ObjectReady | Published
                      | CompletionDone | CompletionConflict | CancelRequested | CancelDone
  datatype Cleanup = NoCleanup | CleanupDue | CleanupDone

  datatype Upload = Upload(
    revision: int, status: Status, uploadedSize: nat, error: string, expiresAt: int,
    completion: Completion, owner: Option<string>, leaseUntil: Option<int>, nextAttempt: Option<int>, attempts: nat,
    completionError: string, finalizedAt: Option<int>, publishedAt: Option<int>, completedAt: Option<int>,
    cancelRequestedAt: Option<int>, cancelledAt: Option<int>,
    cleanup: Cleanup, previousHash: string, cleanupError: string)

  datatype Operation =
    | Update(next: Upload, expectedRevision: int)
    | RequestCompletion
    | Claim(owner: string, until: int)
    | MarkObjectReady(owner: string)
    | MarkPublished(owner: string, previousHash: string, cleanup: Cleanup, cleanupError: string)
    | MarkComplete(owner: string)
    | MarkCleanupComplete
    | RetryCleanup(message: string)
    | Retry(owner: string, message: string, nextAttemptAt: int)
    | MarkConflict(owner: string, message: string)
    | RequestCancel
    | MarkCancelled
    | Expire(expectedRevision: int)

  /** An operation with the caller's clock reading. */
  datatype Call = Call(op: Operation, now: int)

  // ---- The transitions ----

  predicate TerminalOrTransitioning(s: Status) {
    s in {Completed, Conflicted, Cancelling, Cancelled, Expired, Finalizing}
  }

  predicate OwnedAt(r: Upload, owner: string, checkpoints: set<Completion>) {
    r.status == Finalizing && r.owner == Some(owner) && r.completion in checkpoints
  }

  function FirstTime(stamp: Option<int>, now: int): Option<int> {
    if stamp.Some? then stamp else Some(now)
  }

  /** Whether a claim may take the record: the claim is valid, the record is due, and no other
      owner's lease is running. */
  predicate ClaimAllowed(r: Upload, owner: string, now: int, until: int) {
    && owner != "" && now < until
    && r.status in {Uploaded, Finalizing} && r.completion in {AwaitingObject, ObjectReady, Published}
    && !(r.nextAttempt.Some? && r.nextAttempt.value > now)
    && !(r.leaseUntil.Some? && r.leaseUntil.value > now && r.owner != Some(owner))
  }

  predicate Allowed(r: Upload, c: Call) {
    match c.op
    case Update(next, expectedRevision) =>
      r.revision == expectedRevision && r.completion == NotRequested && !TerminalOrTransitioning(r.status)
    case RequestCompletion => r.status == Uploaded && r.completion in {NotRequested, RetryRequested}
    case Claim(owner, until) => ClaimAllowed(r, owner, c.now, until)
    case MarkObjectReady(owner) => OwnedAt(r, owner, {AwaitingObject, ObjectReady})
    case MarkPublished(owner, _, _, _) => OwnedAt(r, owner, {ObjectReady, Published})
    case MarkComplete(owner) => OwnedAt(r, owner, {Published})
    case MarkCleanupComplete => r.status == Completed && r.completion == CompletionDone && r.cleanup == CleanupDue
    case RetryCleanup(_) => r.status == Completed && r.completion == CompletionDone && r.cleanup == CleanupDue
    case Retry(owner, _, _) => r.status == Finalizing && r.owner == Some(owner)
    case MarkConflict(owner, _) => r.status == Finalizing && r.owner == Some(owner) && r.completion != CompletionDone
    case RequestCancel =>
      r.status in {Pending, Uploading, Uploaded, Failed, Expired} && r.completion in {NotRequested, AwaitingObject} && r.owner.None?
    case MarkCancelled => r.status == Cancelling && r.completion == CancelRequested
    case Expire(expectedRevision) =>
      r.revision == expectedRevision && !(r.expiresAt > c.now) && r.completion == NotRequested
      && r.status in {Pending, Uploading, Uploaded, Failed}
  }

  function Effect(r: Upload, c: Call): Upload {
    match c.op
    case Update(next, _) => next
    case RequestCompletion => r.(completion := AwaitingObject, nextAttempt := Some(c.now), completionError := "")
    case Claim(owner, until) =>
      r.(status := Finalizing, owner := Some(owner), leaseUntil := Some(until), attempts := r.attempts + 1)
    case MarkObjectReady(_) => r.(completion := ObjectReady, finalizedAt := FirstTime(r.finalizedAt, c.now))
    case MarkPublished(_, previousHash, cleanup, cleanupError) =>
      r.(completion := Published, previousHash := previousHash, cleanup := cleanup, cleanupError := cleanupError,
         publishedAt := FirstTime(r.publishedAt, c.now))
    case MarkComplete(_) =>
      r.(status := Completed, error := "", completion := CompletionDone, owner := None, leaseUntil := None, nextAttempt := None,
         completionError := "", completedAt := FirstTime(r.completedAt, c.now),
         cleanup := if r.cleanup == NoCleanup then CleanupDue else r.cleanup)
    case MarkCleanupComplete => r.(cleanup := CleanupDone, cleanupError := "")
    case RetryCleanup(message) => r.(cleanupError := message)
    case Retry(_, message, nextAttemptAt) =>
      r.(status := Uploaded, completion := AwaitingObject, owner := None, leaseUntil := None,
         nextAttempt := Some(nextAttemptAt), completionError := message, error := message)
    case MarkConflict(_, message) =>
      r.(status := Conflicted, completion := CompletionConflict, owner := None, leaseUntil := None, nextAttempt := None,
         completionError := message, error := message)
    case RequestCancel =>
      r.(status := Cancelling, completion := CancelRequested, cancelRequestedAt := FirstTime(r.cancelRequestedAt, c.now))
    case MarkCancelled =>
      r.(status := Cancelled, completion := CancelDone, error := "", owner := None, leaseUntil := None,
         cancelledAt := FirstTime(r.cancelledAt, c.now))
    case Expire(_) => r.(status := Expired, error := "upload session expired")
  }

  function Next(r: Upload, c: Call): Upload {
    var r' := Effect(r, c);
    r'.(revision := r'.revision + 1)
  }

  // ---- Runs ----

  datatype Run = Run(states: seq<Upload>, calls: seq<Call>)

  /** A record as it was before its completion was ever requested. */
  predicate Unrequested(r: Upload) {
    && r.completion == NotRequested && r.owner.None? && r.leaseUntil.None? && r.attempts == 0
    && r.finalizedAt.None? && r.publishedAt.None? && r.completedAt.None? && r.cancelRequestedAt.None? && r.cancelledAt.None?
  }

  /** What the callers of an update see to: it is made from the record they read at the
      revision they expect, and touches no field of the completion. */
  predicate LegalUpdate(next: Upload, expectedRevision: int) {
    Unrequested(next) && next.revision == expectedRevision && next.status in {Pending, Uploading, Uploaded, Failed}
  }

  predicate Legal(c: Call) {
    c.op.Update? ==> LegalUpdate(c.op.next, c.op.expectedRevision)
  }

  predicate StepAt(run: Run, i: nat)
    requires |run.states| == |run.calls| + 1 && i < |run.calls|
  {
    Legal(run.calls[i]) && Allowed(run.states[i], run.calls[i]) && run.states[i + 1] == Next(run.states[i], run.calls[i])
  }

  ghost predicate Valid(run: Run) {
    && |run.states| == |run.calls| + 1
    && Unrequested(run.states[0]) && run.states[0].status in {Pending, Uploading, Uploaded, Failed}
    && forall i | 0 <= i < |run.calls| :: StepAt(run, i)
  }

  /** The calls took effect in the order of their clock readings. */
  ghost predicate Clocked(run: Run) {
    forall i, j | 0 <= i < j < |run.calls| :: run.calls[i].now <= run.calls[j].now
  }

  /** The pairs of status and completion that occur. */
  predicate Paired(r: Upload) {
    match r.status
    case Pending => r.completion == NotRequested
    case Uploading => r.completion == NotRequested
    case Failed => r.completion == NotRequested
    case Expired => r.completion == NotRequested
    case Uploaded => r.completion in {NotRequested, AwaitingObject}
    case Finalizing => r.completion in {AwaitingObject, ObjectReady, Published}
    case Completed => r.completion == CompletionDone
    case Conflicted => r.completion == CompletionConflict
    case Cancelling => r.completion == CancelRequested
    case Cancelled => r.completion == CancelDone
  }

  /** The checkpoints passed have their stamps, and a lease belongs to an owner. */
  predicate Stamped(r: Upload) {
    && (r.completion == NotRequested ==> Unrequested(r))
    && (r.leaseUntil.Some? ==> r.owner.Some?)
    && (r.completion in {ObjectReady, Published, CompletionDone} ==> r.finalizedAt.Some?)
    && (r.completion in {Published, CompletionDone} ==> r.publishedAt.Some?)
    && (r.publishedAt.Some? ==> r.finalizedAt.Some?)
    && (r.completedAt.Some? <==> r.status == Completed)
    && (r.cancelRequestedAt.Some? <==> r.status in {Cancelling, Cancelled})
    && (r.cancelledAt.Some? <==> r.status == Cancelled)
  }

  /** An owner is set exactly while finalizing. */
  predicate OwnedIffFinalizing(r: Upload) {
    r.owner.Some? <==> r.status == Finalizing
  }

  lemma StepKeeps(r: Upload, c: Call)
    requires Paired(r) && Stamped(r) && OwnedIffFinalizing(r) && Legal(c) && Allowed(r, c)
    ensures var r' := Next(r, c); Paired(r') && Stamped(r') && OwnedIffFinalizing(r')
  {
  }

  /** In every state of every run the record is well formed: its status and completion are one
      of the pairs above, and it has an owner exactly while it is finalizing. */
  lemma {:induction false} RunKeeps(run: Run, n: nat)
    requires Valid(run) && n < |run.states|
    ensures Paired(run.states[n]) && Stamped(run.states[n]) && OwnedIffFinalizing(run.states[n])
  {
    if n > 0 {
      RunKeeps(run, n - 1);
      assert StepAt(run, n - 1);
      StepKeeps(run.states[n - 1], run.calls[n - 1]);
    }
  }

  /** Every call that takes effect raises the revision by one, whatever it does. */
  lemma {:induction false} RevisionCounts(run: Run, n: nat)
    requires Valid(run) && n < |run.states|
    ensures run.states[n].revision == run.states[0].revision + n
  {
    if n > 0 {
      RevisionCounts(run, n - 1);
      assert StepAt(run, n - 1);
    }
  }

  // ---- The record and the log of its calls ----

  /** The last word of a log on something, or what it was at first. */
  function LastSaid<T>(calls: seq<Call>, says: Call -> Option<T>, first: T): T {
    if calls == [] then first
    else
      var last := says(calls[|calls| - 1]);
      if last.Some? then last.value else LastSaid(calls[..|calls| - 1], says, first)
  }

  /** The time of the first call of a kind. */
  function FirstAt(calls: seq<Call>, kind: Operation -> bool): Option<int> {
    if calls == [] then None
    else
      var before := FirstAt(calls[..|calls| - 1], kind);
      if before.Some? then before else if kind(calls[|calls| - 1].op) then Some(calls[|calls| - 1].now) else None
  }

  lemma LastSaidNext<T>(run: Run, n: nat, says: Call -> Option<T>, first: T)
    requires n < |run.calls|
    ensures LastSaid(run.calls[..n + 1], says, first) ==
            if says(run.calls[n]).Some? then says(run.calls[n]).value else LastSaid(run.calls[..n], says, first)
  {
    assert run.calls[..n + 1][..n] == run.calls[..n];
  }

  lemma FirstAtNext(run: Run, n: nat, kind: Operation -> bool)
    requires n < |run.calls|
    ensures var before := FirstAt(run.calls[..n], kind);
      FirstAt(run.calls[..n + 1], kind) == if before.Some? then before else if kind(run.calls[n].op) then Some(run.calls[n].now) else None
  {
    assert run.calls[..n + 1][..n] == run.calls[..n];
  }

  /** Who finalizes, and until when: the last claim, unless it has been ended since. */
  function Finalizer(c: Call): Option<Option<(string, int)>> {
    match c.op
    case Claim(owner, until) => Some(Some((owner, until)))
    case Retry(_, _, _) => Some(None)
    case MarkComplete(_) => Some(None)
    case MarkConflict(_, _) => Some(None)
    case _ => None
  }

  predicate FinalizedBy(r: Upload, f: Option<(string, int)>) {
    && r.owner == (if f.Some? then Some(f.value.0) else None)
    && r.leaseUntil == (if f.Some? then Some(f.value.1) else None)
  }

  lemma StepFinalizer(r: Upload, c: Call, f: Option<(string, int)>)
    requires Paired(r) && Stamped(r) && OwnedIffFinalizing(r) && Legal(c) && Allowed(r, c) && FinalizedBy(r, f)
    ensures FinalizedBy(Next(r, c), if Finalizer(c).Some? then Finalizer(c).value else f)
  {
  }

  /** Owner and lease are those of the last claim that nothing has ended. */
  lemma {:induction false} FinalizerIsLast(run: Run, n: nat)
    requires Valid(run) && n < |run.states|
    ensures FinalizedBy(run.states[n], LastSaid(run.calls[..n], Finalizer, None))
  {
    for i := 0 to n
      invariant FinalizedBy(run.states[i], LastSaid(run.calls[..i], Finalizer, None))
    {
      assert StepAt(run, i);
      RunKeeps(run, i);
      LastSaidNext(run, i, Finalizer, None);
      StepFinalizer(run.states[i], run.calls[i], LastSaid(run.calls[..i], Finalizer, None));
    }
  }

  /** What has become of the upload, as the calls say that change it. */
  function StatusSaid(c: Call): Option<Status> {
    match c.op
    case Update(next, _) => Some(next.status)
    case Claim(_, _) => Some(Finalizing)
    case MarkComplete(_) => Some(Completed)
    case Retry(_, _, _) => Some(Uploaded)
    case MarkConflict(_, _) => Some(Conflicted)
    case RequestCancel => Some(Cancelling)
    case MarkCancelled => Some(Cancelled)
    case Expire(_) => Some(Status.Expired)
    case _ => None
  }

  function CompletionSaid(c: Call): Option<Completion> {
    match c.op
    case RequestCompletion => Some(AwaitingObject)
    case MarkObjectReady(_) => Some(ObjectReady)
    case MarkPublished(_, _, _, _) => Some(Published)
    case MarkComplete(_) => Some(CompletionDone)
    case Retry(_, _, _) => Some(AwaitingObject)
    case MarkConflict(_, _) => Some(CompletionConflict)
    case RequestCancel => Some(CancelRequested)
    case MarkCancelled => Some(CancelDone)
    case _ => None
  }

  /** What is shown as the reason of a failure. */
  function ErrorSaid(c: Call): Option<string> {
    match c.op
    case Update(next, _) => Some(next.error)
    case MarkComplete(_) => Some("")
    case Retry(_, message, _) => Some(message)
    case MarkConflict(_, message) => Some(message)
    case MarkCancelled => Some("")
    case Expire(_) => Some("upload session expired")
    case _ => None
  }

  function CompletionErrorSaid(c: Call): Option<string> {
    match c.op
    case Update(next, _) => Some(next.completionError)
    case RequestCompletion => Some("")
    case MarkComplete(_) => Some("")
    case Retry(_, message, _) => Some(message)
    case MarkConflict(_, message) => Some(message)
    case _ => None
  }

  /** Before when no claim is made. */
  function NextAttemptSaid(c: Call): Option<Option<int>> {
    match c.op
    case Update(next, _) => Some(next.nextAttempt)
    case RequestCompletion => Some(Some(c.now))
    case Retry(_, _, nextAttemptAt) => Some(Some(nextAttemptAt))
    case MarkComplete(_) => Some(None)
    case MarkConflict(_, _) => Some(None)
    case _ => None
  }

  function PreviousHashSaid(c: Call): Option<string> {
    match c.op
    case Update(next, _) => Some(next.previousHash)
    case MarkPublished(_, previousHash, _, _) => Some(previousHash)
    case _ => None
  }

  function CleanupErrorSaid(c: Call): Option<string> {
    match c.op
    case Update(next, _) => Some(next.cleanupError)
    case MarkPublished(_, _, _, cleanupError) => Some(cleanupError)
    case MarkCleanupComplete => Some("")
    case RetryCleanup(message) => Some(message)
    case _ => None
  }

  function ExpiresAtSaid(c: Call): Option<int> {
    match c.op
    case Update(next, _) => Some(next.expiresAt)
    case _ => None
  }

  /** The record is the last word of its log. */
  ghost predicate Logged(run: Run, n: nat)
    requires |run.states| == |run.calls| + 1 && n < |run.states|
  {
    var r, r0, calls := run.states[n], run.states[0], run.calls[..n];
    && r.status == LastSaid(calls, StatusSaid, r0.status)
    && r.completion == LastSaid(calls, CompletionSaid, NotRequested)
    && r.error == LastSaid(calls, ErrorSaid, r0.error)
    && r.completionError == LastSaid(calls, CompletionErrorSaid, r0.completionError)
    && r.nextAttempt == LastSaid(calls, NextAttemptSaid, r0.nextAttempt)
    && r.previousHash == LastSaid(calls, PreviousHashSaid, r0.previousHash)
    && r.cleanupError == LastSaid(calls, CleanupErrorSaid, r0.cleanupError)
    && r.expiresAt == LastSaid(calls, ExpiresAtSaid, r0.expiresAt)
  }

  predicate Says<T(==)>(said: Option<T>, before: T, after: T) {
    after == if said.Some? then said.value else before
  }

  lemma StepSays(r: Upload, c: Call)
    requires Paired(r) && Stamped(r) && Legal(c) && Allowed(r, c)
    ensures var r' := Next(r, c);
      && Says(StatusSaid(c), r.status, r'.status) && Says(CompletionSaid(c), r.completion, r'.completion)
      && Says(NextAttemptSaid(c), r.nextAttempt, r'.nextAttempt) && Says(ExpiresAtSaid(c), r.expiresAt, r'.expiresAt)
  {
  }

  lemma StepSaysTexts(r: Upload, c: Call)
    requires Paired(r) && Stamped(r) && Legal(c) && Allowed(r, c)
    ensures var r' := Next(r, c);
      && Says(ErrorSaid(c), r.error, r'.error) && Says(CompletionErrorSaid(c), r.completionError, r'.completionError)
      && Says(PreviousHashSaid(c), r.previousHash, r'.previousHash) && Says(CleanupErrorSaid(c), r.cleanupError, r'.cleanupError)
  {
  }

  /** Over every run: status, completion, messages, times and hashes are what the last call said
      that has anything to say about them, however many calls of others lie between. */
  lemma {:induction false} RecordIsLog(run: Run, n: nat)
    requires Valid(run) && n < |run.states|
    ensures Logged(run, n)
  {
    if n > 0 {
      RecordIsLog(run, n - 1);
      assert StepAt(run, n - 1);
      RunKeeps(run, n - 1);
      StepSays(run.states[n - 1], run.calls[n - 1]);
      StepSaysTexts(run.states[n - 1], run.calls[n - 1]);
      var r0 := run.states[0];
      LastSaidNext(run, n - 1, StatusSaid, r0.status);
      LastSaidNext(run, n - 1, CompletionSaid, NotRequested);
      LastSaidNext(run, n - 1, ErrorSaid, r0.error);
      LastSaidNext(run, n - 1, CompletionErrorSaid, r0.completionError);
      LastSaidNext(run, n - 1, NextAttemptSaid, r0.nextAttempt);
      LastSaidNext(run, n - 1, PreviousHashSaid, r0.previousHash);
      LastSaidNext(run, n - 1, CleanupErrorSaid, r0.cleanupError);
      LastSaidNext(run, n - 1, ExpiresAtSaid, r0.expiresAt);
    }
  }

  /** Every stamp is the time of the first call of its kind. */
  ghost predicate StampedFirst(run: Run, n: nat)
    requires |run.states| == |run.calls| + 1 && n < |run.states|
  {
    var r, calls := run.states[n], run.calls[..n];
    && r.finalizedAt == FirstAt(calls, (op: Operation) => op.MarkObjectReady?)
    && r.publishedAt == FirstAt(calls, (op: Operation) => op.MarkPublished?)
    && r.completedAt == FirstAt(calls, (op: Operation) => op.MarkComplete?)
    && r.cancelRequestedAt == FirstAt(calls, (op: Operation) => op.RequestCancel?)
    && r.cancelledAt == FirstAt(calls, (op: Operation) => op.MarkCancelled?)
  }

  lemma {:induction false} StampsAreFirst(run: Run, n: nat)
    requires Valid(run) && n < |run.states|
    ensures StampedFirst(run, n)
  {
    if n > 0 {
      StampsAreFirst(run, n - 1);
      assert StepAt(run, n - 1);
      RunKeeps(run, n - 1);
      FirstAtNext(run, n - 1, (op: Operation) => op.MarkObjectReady?);
      FirstAtNext(run, n - 1, (op: Operation) => op.MarkPublished?);
      FirstAtNext(run, n - 1, (op: Operation) => op.MarkComplete?);
      FirstAtNext(run, n - 1, (op: Operation) => op.RequestCancel?);
      FirstAtNext(run, n - 1, (op: Operation) => op.MarkCancelled?);
    }
  }

  /** The time set by the request or the last retry has come. */
  ghost predicate DueAt(run: Run, n: nat, now: int)
    requires |run.states| == |run.calls| + 1 && n <= |run.calls|
  {
    var due := LastSaid(run.calls[..n], NextAttemptSaid, run.states[0].nextAttempt);
    due.Some? ==> due.value <= now
  }

  /** The last claim, nothing having ended it, is of the owner. */
  ghost predicate HeldBy(run: Run, n: nat, owner: string)
    requires n <= |run.calls|
  {
    var f := LastSaid(run.calls[..n], Finalizer, None);
    f.Some? && f.value.0 == owner
  }

  ghost predicate FreeFor(run: Run, n: nat, owner: string, now: int)
    requires n <= |run.calls|
  {
    var f := LastSaid(run.calls[..n], Finalizer, None);
    f.Some? && f.value.0 != owner ==> f.value.1 <= now
  }

  /** What the log of an upload permits. */
  ghost predicate Permitted(run: Run, n: nat, c: Call)
    requires |run.states| == |run.calls| + 1 && n <= |run.calls|
  {
    var reached := LastSaid(run.calls[..n], CompletionSaid, NotRequested);
    var status := LastSaid(run.calls[..n], StatusSaid, run.states[0].status);
    var expiresAt := LastSaid(run.calls[..n], ExpiresAtSaid, run.states[0].expiresAt);
    var revision := run.states[0].revision + n;
    match c.op
    case Update(_, expected) => expected == revision && reached == NotRequested && status != Status.Expired
    case RequestCompletion => reached == NotRequested && status == Uploaded
    case Claim(owner, until) =>
      && owner != "" && c.now < until && reached in {AwaitingObject, ObjectReady, Published}
      && DueAt(run, n, c.now) && FreeFor(run, n, owner, c.now)
    case MarkObjectReady(owner) => HeldBy(run, n, owner) && reached in {AwaitingObject, ObjectReady}
    case MarkPublished(owner, _, _, _) => HeldBy(run, n, owner) && reached in {ObjectReady, Published}
    case MarkComplete(owner) => HeldBy(run, n, owner) && reached == Published
    case MarkCleanupComplete => reached == CompletionDone && run.states[n].cleanup == CleanupDue
    case RetryCleanup(_) => reached == CompletionDone && run.states[n].cleanup == CleanupDue
    case Retry(owner, _, _) => HeldBy(run, n, owner)
    case MarkConflict(owner, _) => HeldBy(run, n, owner)
    case RequestCancel => reached == NotRequested || (reached == AwaitingObject && LastSaid(run.calls[..n], Finalizer, None).None?)
    case MarkCancelled => reached == CancelRequested
    case Expire(expected) => expected == revision && expiresAt <= c.now && reached == NotRequested && status != Status.Expired
  }

  /** A transition takes effect exactly if the log of the calls before permits it. */
  lemma AllowedIff(run: Run, n: nat, c: Call)
    requires Valid(run) && n < |run.states|
    ensures Allowed(run.states[n], c) <==> Permitted(run, n, c)
  {
    RunKeeps(run, n);
    RevisionCounts(run, n);
    FinalizerIsLast(run, n);
    RecordIsLog(run, n);
  }

  function Extended(run: Run, c: Call): Run
    requires |run.states| == |run.calls| + 1
  {
    Run(run.states + [Next(run.states[|run.calls|], c)], run.calls + [c])
  }

  lemma ExtendedValid(run: Run, c: Call)
    requires Valid(run) && Legal(c) && Allowed(run.states[|run.calls|], c)
    ensures Valid(Extended(run, c))
  {
    var run' := Extended(run, c);
    forall i | 0 <= i < |run'.calls| ensures StepAt(run', i) {
      assert i < |run.calls| ==> StepAt(run, i);
    }
  }

  function LaterThan(t: int, stamp: Option<int>): int {
    if stamp.Some? && stamp.value > t then stamp.value else t
  }

  predicate MadeBy(c: Call, owner: string, from: int) {
    from <= c.now && (OwnerCall(c.op, owner) || (c.op.Claim? && c.op.owner == owner))
  }

  /** An upload whose completion is under way can always still be completed, by any owner and
      whatever has happened to it so far; all that a new owner may have to do is wait. */
  lemma CanComplete(run: Run, owner: string, now: int, previousHash: string, cleanup: Cleanup) returns (run': Run)
    requires Valid(run) && owner != "" && run.states[|run.calls|].completion in {AwaitingObject, ObjectReady, Published}
    ensures Valid(run') && run.states <= run'.states && run.calls <= run'.calls
    ensures forall i | |run.calls| <= i < |run'.calls| :: MadeBy(run'.calls[i], owner, now)
    ensures run'.states[|run'.calls|].status == Completed && run'.states[|run'.calls|].previousHash == previousHash
  {
    var r := run.states[|run.calls|];
    RunKeeps(run, |run.calls|);
    var t := LaterThan(LaterThan(now, r.leaseUntil), r.nextAttempt);
    run' := run;
    for k := 0 to 4
      invariant Valid(run') && run.states <= run'.states && run.calls <= run'.calls
      invariant var last := run'.states[|run'.calls|]; if k == 0 then last == r else Underway(last, owner, k, r.completion)
      invariant k == 3 ==> run'.states[|run'.calls|].previousHash == previousHash
      invariant forall i | |run.calls| <= i < |run'.calls| :: MadeBy(run'.calls[i], owner, now)
      invariant k == 4 ==> run'.states[|run'.calls|].status == Completed && run'.states[|run'.calls|].previousHash == previousHash
    {
      if !(k == 1 && r.completion == Published) {
        var op := match k case 0 => Claim(owner, t + 1) case 1 => MarkObjectReady(owner)
                          case 2 => MarkPublished(owner, previousHash, cleanup, "") case _ => MarkComplete(owner);
        ExtendedValid(run', Call(op, t));
        run' := Extended(run', Call(op, t));
      }
    }
  }

  predicate Underway(r: Upload, owner: string, k: nat, at: Completion) {
    k <= 3 ==>
      && r.status == Finalizing && r.owner == Some(owner)
      && (k == 1 ==> r.completion == at)
      && (k == 2 ==> r.completion in {ObjectReady, Published})
      && (k == 3 ==> r.completion == Published)
  }

  // ---- Terminal states ----

  predicate Terminal(r: Upload) {
    r.status in {Completed, Conflicted, Cancelled}
  }

  /** The record without its revision and its cleanup fields. */
  function Settled(r: Upload): Upload {
    r.(revision := 0, cleanup := NoCleanup, cleanupError := "")
  }

  lemma TerminalStep(r: Upload, c: Call)
    requires Paired(r) && Terminal(r) && Allowed(r, c)
    ensures Settled(Next(r, c)) == Settled(r) && Terminal(Next(r, c)) && (c.op.MarkCleanupComplete? || c.op.RetryCleanup?)
  {
  }

  /** A complete, conflicting or cancelled upload stays as it is, up to its cleanup. */
  lemma {:induction false} TerminalAbsorbs(run: Run, i: nat, n: nat)
    requires Valid(run) && i <= n < |run.states| && Terminal(run.states[i])
    ensures Settled(run.states[n]) == Settled(run.states[i]) && Terminal(run.states[n])
  {
    if i < n {
      TerminalAbsorbs(run, i, n - 1);
      assert StepAt(run, n - 1);
      RunKeeps(run, n - 1);
      TerminalStep(run.states[n - 1], run.calls[n - 1]);
    }
  }

  // ---- Owners ----

  /** The calls that only the owner of the completion may make. */
  predicate OwnerCall(op: Operation, owner: string) {
    match op
    case MarkObjectReady(o) => o == owner
    case MarkPublished(o, _, _, _) => o == owner
    case MarkComplete(o) => o == owner
    case Retry(o, _, _) => o == owner
    case MarkConflict(o, _) => o == owner
    case _ => false
  }

  /** A superseded owner: another one has claimed the upload, and this one not again since. */
  ghost predicate Superseded(run: Run, owner: string, i: nat, n: nat)
    requires i < n <= |run.calls|
  {
    && run.calls[i].op.Claim? && run.calls[i].op.owner != owner
    && forall j | i < j < n :: !(run.calls[j].op.Claim? && run.calls[j].op.owner == owner)
  }

  lemma {:induction false} NotOwner(run: Run, owner: string, i: nat, n: nat)
    requires Valid(run) && i < n <= |run.calls| && Superseded(run, owner, i, n)
    ensures run.states[n].owner != Some(owner)
  {
    assert StepAt(run, n - 1);
    if i + 1 < n {
      NotOwner(run, owner, i, n - 1);
    }
  }

  /** Every mark, retry or conflict of a superseded owner fails. */
  lemma SupersededFails(run: Run, owner: string, i: nat, n: nat, c: Call)
    requires Valid(run) && i < n <= |run.calls| && Superseded(run, owner, i, n) && OwnerCall(c.op, owner)
    ensures !Allowed(run.states[n], c)
  {
    NotOwner(run, owner, i, n);
  }

  /** The claim of calls[i] is the last one, and nothing has ended it. */
  ghost predicate Holding(run: Run, i: nat, n: nat)
    requires i < n <= |run.calls|
  {
    run.calls[i].op.Claim? && forall j | i < j < n :: Finalizer(run.calls[j]).None?
  }

  lemma {:induction false} HoldingIsLast(run: Run, i: nat, n: nat)
    requires i < n <= |run.calls| && Holding(run, i, n)
    ensures LastSaid(run.calls[..n], Finalizer, None) == Some((run.calls[i].op.owner, run.calls[i].op.until))
  {
    LastSaidNext(run, n - 1, Finalizer, None);
    if i + 1 < n {
      HoldingIsLast(run, i, n - 1);
    }
  }

  /** A claim keeps every other owner from claiming until it runs out, unless its own owner ends
      it before; and it keeps nobody any longer. */
  lemma LeaseProtects(run: Run, i: nat, n: nat, c: Call)
    requires Valid(run) && i < n <= |run.calls| && Holding(run, i, n) && c.op.Claim? && c.op.owner != run.calls[i].op.owner
    ensures Allowed(run.states[n], c) <==> c.op.owner != "" && c.now < c.op.until && c.now >= run.calls[i].op.until && DueAt(run, n, c.now)
  {
    HoldingIsLast(run, i, n);
    FinalizerIsLast(run, n);
    RunKeeps(run, n);
    RecordIsLog(run, n);
  }

  /** Of two claims of different owners with nothing in between that ends the first, the second
      is made when the first has run out. */
  lemma ClaimWaits(run: Run, i: nat, n: nat)
    requires Valid(run) && i < n < |run.calls| && Holding(run, i, n)
    requires run.calls[n].op.Claim? && run.calls[n].op.owner != run.calls[i].op.owner
    ensures run.calls[i].op.until <= run.calls[n].now
  {
    assert StepAt(run, n);
    LeaseProtects(run, i, n, run.calls[n]);
  }

  function Claims(calls: seq<Call>): nat {
    if calls == [] then 0 else Claims(calls[..|calls| - 1]) + if calls[|calls| - 1].op.Claim? then 1 else 0
  }

  /** Every claim that takes effect is counted as an attempt, and nothing else is. */
  lemma {:induction false} AttemptsCount(run: Run, n: nat)
    requires Valid(run) && n < |run.states|
    ensures run.states[n].attempts == Claims(run.calls[..n])
  {
    if n > 0 {
      AttemptsCount(run, n - 1);
      assert StepAt(run, n - 1);
      RunKeeps(run, n - 1);
      assert run.calls[..n][..n - 1] == run.calls[..n - 1];
      if run.calls[n - 1].op.Update? {
        NeverClaimed(run, n - 1);
      }
    }
  }

  lemma NeverClaimed(run: Run, n: nat)
    requires Valid(run) && n < |run.states| && run.states[n].completion == NotRequested
    ensures run.states[n].attempts == 0
  {
    RunKeeps(run, n);
  }

  /** Between a retry and the next one, no claim takes effect before the time it set. */
  lemma {:induction false} RetryHoldsOff(run: Run, i: nat, n: nat)
    requires Valid(run) && i < n < |run.calls| && run.calls[i].op.Retry? && NoRetryIn(run, i + 1, n) && run.calls[n].op.Claim?
    ensures run.calls[n].now >= run.calls[i].op.nextAttemptAt
  {
    HeldOff(run, i, n);
    assert StepAt(run, n);
  }

  lemma {:induction false} HeldOff(run: Run, i: nat, n: nat)
    requires Valid(run) && i < n < |run.states| && run.calls[i].op.Retry? && NoRetryIn(run, i + 1, n)
    ensures var r := run.states[n];
      && r.completion != NotRequested
      && (r.status in {Uploaded, Finalizing} ==> r.nextAttempt == Some(run.calls[i].op.nextAttemptAt))
  {
    assert StepAt(run, n - 1);
    RunKeeps(run, n - 1);
    if i + 1 < n {
      HeldOff(run, i, n - 1);
    }
  }

  // ---- Checkpoints ----

  predicate NoRetryIn(run: Run, i: nat, n: nat)
    requires i <= n <= |run.calls|
  {
    forall j | i <= j < n :: !run.calls[j].op.Retry?
  }

  /** How an upload comes to be ready, published or complete: by the mark, or it was so before. */
  lemma IntoReady(run: Run, n: nat)
    requires Valid(run) && n < |run.states| && run.states[n].completion == ObjectReady
    ensures 0 < n && var op := run.calls[n - 1].op; !op.Retry? && (op.MarkObjectReady? || run.states[n - 1].completion == ObjectReady)
  {
    if n > 0 {
      assert StepAt(run, n - 1);
    }
  }

  lemma IntoPublished(run: Run, n: nat)
    requires Valid(run) && n < |run.states| && run.states[n].completion == Published
    ensures 0 < n && var r, op := run.states[n - 1], run.calls[n - 1].op;
      && !op.Retry?
      && if op.MarkPublished? then r.completion in {ObjectReady, Published} && PublishedAs(run.states[n], op)
         else r.completion == Published && SamePublication(r, run.states[n])
  {
    if n > 0 {
      assert StepAt(run, n - 1);
    }
  }

  lemma IntoComplete(run: Run, n: nat)
    requires Valid(run) && n < |run.states| && run.states[n].status == Completed
    ensures 0 < n && var r, r', op := run.states[n - 1], run.states[n], run.calls[n - 1].op;
      && !op.Retry? && !op.MarkPublished? && r'.previousHash == r.previousHash
      && if op.MarkComplete? then r.completion == Published && r.status == Finalizing && r'.error == ""
         else r.status == Completed && r'.error == r.error && (op.MarkCleanupComplete? || op.RetryCleanup?)
  {
    if n > 0 {
      assert StepAt(run, n - 1);
      RunKeeps(run, n - 1);
    }
  }

  predicate PublishedAs(r: Upload, op: Operation)
    requires op.MarkPublished?
  {
    r.previousHash == op.previousHash && r.cleanup == op.cleanup && r.cleanupError == op.cleanupError
  }

  predicate SamePublication(r: Upload, r': Upload) {
    r'.previousHash == r.previousHash && r'.cleanup == r.cleanup && r'.cleanupError == r.cleanupError
  }

  /** An upload whose object is ready was marked so, and has not been retried since. */
  lemma {:induction false} WasReady(run: Run, n: nat) returns (i: nat)
    requires Valid(run) && n < |run.states| && run.states[n].completion == ObjectReady
    ensures i < n && run.calls[i].op.MarkObjectReady? && NoRetryIn(run, i, n)
  {
    IntoReady(run, n);
    if run.calls[n - 1].op.MarkObjectReady? {
      i := n - 1;
    } else {
      i := WasReady(run, n - 1);
    }
  }

  predicate NotPublishedIn(run: Run, i: nat, n: nat)
    requires i <= n <= |run.calls|
  {
    forall j | i <= j < n :: !run.calls[j].op.MarkPublished?
  }

  /** A published upload was marked ready before, and carries what the last publication said. */
  lemma {:induction false} WasPublished(run: Run, n: nat) returns (i: nat, j: nat)
    requires Valid(run) && n < |run.states| && run.states[n].completion == Published
    ensures i < j < n && run.calls[i].op.MarkObjectReady? && run.calls[j].op.MarkPublished? && NoRetryIn(run, i, n)
    ensures NotPublishedIn(run, j + 1, n) && PublishedAs(run.states[n], run.calls[j].op)
  {
    IntoPublished(run, n);
    if run.states[n - 1].completion == ObjectReady {
      i := WasReady(run, n - 1);
    } else {
      i, j := WasPublished(run, n - 1);
    }
    if run.calls[n - 1].op.MarkPublished? {
      j := n - 1;
    }
  }

  /** Every complete upload passed its checkpoints in order, with no retry in between, was
      completed once, and names the object that its publication replaced. */
  lemma {:induction false} CompletedInOrder(run: Run, n: nat) returns (i: nat, j: nat, k: nat)
    requires Valid(run) && n < |run.states| && run.states[n].status == Completed
    ensures i < j < k < n
    ensures run.calls[i].op.MarkObjectReady? && run.calls[j].op.MarkPublished? && run.calls[k].op.MarkComplete?
    ensures NoRetryIn(run, i, n) && forall m | 0 <= m < n && run.calls[m].op.MarkComplete? :: m == k
    ensures NotPublishedIn(run, j + 1, n) && run.states[n].previousHash == run.calls[j].op.previousHash
    ensures run.states[n].error == "" && run.states[n].cleanup == CleanupAfter(run.calls[j].op, run.calls[k..n])
  {
    IntoComplete(run, n);
    assert StepAt(run, n - 1);
    if run.calls[n - 1].op.MarkComplete? {
      i, j := WasPublished(run, n - 1);
      k := n - 1;
      FirstCompletion(run, n - 1);
    } else {
      i, j, k := CompletedInOrder(run, n - 1);
      assert run.calls[k..n] == run.calls[k..n - 1] + [run.calls[n - 1]];
    }
  }

  /** The object replaced has to be cleaned up, unless the publication has seen to it, until the
      clean-up is reported. */
  function CleanupAfter(published: Operation, since: seq<Call>): Cleanup
    requires published.MarkPublished?
  {
    if exists c | c in since :: c.op.MarkCleanupComplete? then CleanupDone
    else if published.cleanup == NoCleanup then CleanupDue
    else published.cleanup
  }

  lemma FirstCompletion(run: Run, n: nat)
    requires Valid(run) && n < |run.states| && !Terminal(run.states[n])
    ensures forall m | 0 <= m < n :: !run.calls[m].op.MarkComplete?
  {
    forall m | 0 <= m < n ensures !run.calls[m].op.MarkComplete? {
      if run.calls[m].op.MarkComplete? {
        assert StepAt(run, m);
        TerminalAbsorbs(run, m + 1, n);
      }
    }
  }

  // ---- Times ----

  predicate AtMost(stamp: Option<int>, t: int) {
    stamp.Some? ==> stamp.value <= t
  }

  /** The stamps are in order, and none is later than t. */
  predicate InOrder(r: Upload, t: int) {
    && AtMost(r.finalizedAt, t) && AtMost(r.publishedAt, t) && AtMost(r.completedAt, t) && AtMost(r.cancelRequestedAt, t)
    && (r.cancelledAt.Some? ==> AtMost(r.cancelRequestedAt, r.cancelledAt.value))
    && (r.publishedAt.Some? ==> AtMost(r.finalizedAt, r.publishedAt.value))
    && (r.completedAt.Some? ==> AtMost(r.publishedAt, r.completedAt.value))
  }

  lemma InOrderLater(r: Upload, t: int, t': int)
    requires InOrder(r, t) && t <= t'
    ensures InOrder(r, t')
  {
  }

  lemma StepInOrder(r: Upload, c: Call)
    requires Paired(r) && Stamped(r) && OwnedIffFinalizing(r) && Legal(c) && Allowed(r, c) && InOrder(r, c.now)
    ensures InOrder(Next(r, c), c.now)
  {
  }

  lemma {:induction false} RunInOrder(run: Run, n: nat, t: int)
    requires Valid(run) && Clocked(run) && n < |run.states|
    requires forall i | 0 <= i < n :: run.calls[i].now <= t
    ensures InOrder(run.states[n], t)
  {
    if n > 0 {
      var c := run.calls[n - 1];
      RunInOrder(run, n - 1, c.now);
      assert StepAt(run, n - 1);
      RunKeeps(run, n - 1);
      StepInOrder(run.states[n - 1], c);
      InOrderLater(run.states[n], c.now, t);
    }
  }

  /** And a cancelled one was asked to be cancelled first, and never published as complete. */
  lemma CancelledInTime(run: Run, n: nat)
    requires Valid(run) && Clocked(run) && n < |run.states| && run.states[n].status == Cancelled
    ensures var r := run.states[n];
      r.cancelRequestedAt.Some? && r.cancelledAt.Some? && r.cancelRequestedAt.value <= r.cancelledAt.value && r.completedAt.None?
  {
    RunKeeps(run, n);
    RunInOrder(run, n, if n > 0 then run.calls[n - 1].now else 0);
  }

  /** With a monotone clock, a complete upload was finalized, published and completed in that order. */
  lemma CompleteInTime(run: Run, n: nat)
    requires Valid(run) && Clocked(run) && n < |run.states| && run.states[n].status == Completed
    ensures var r := run.states[n];
      r.finalizedAt.Some? && r.publishedAt.Some? && r.completedAt.Some?
      && r.finalizedAt.value <= r.publishedAt.value <= r.completedAt.value
  {
    RunKeeps(run, n);
    RunInOrder(run, n, if n > 0 then run.calls[n - 1].now else 0);
  }

  // ---- The optimistic update ----

  const CasAttempts := 8

  datatype Outcome = Changed(record: Upload) | Unchanged(record: Upload) | Contended

  ghost predicate Extends(before: Run, run: Run) {
    && |before.states| == |before.calls| + 1 && |run.states| == |run.calls| + 1
    && before.states <= run.states && before.calls <= run.calls
  }

  class UploadEntity {
    var record: Upload
    var generation: nat
    ghost var run: Run
    ghost var own: set<nat>

    /** own are the calls in the run that this process has made. */
    ghost predicate Good()
      reads this
    {
      Valid(run) && record == run.states[|run.calls|] && generation == |run.calls| + 1
    }

    constructor (created: Upload)
      requires Unrequested(created) && created.status in {Pending, Uploading, Uploaded, Failed}
      ensures Good() && record == created && own == {}
    {
      record, generation, run, own := created, 1, Run([created], []), {};
    }

    /** A conditional put: it takes effect if nobody has written since the read. */
    method Put(next: Upload, expected: nat, c: Call) returns (ok: bool)
      requires Good() && Legal(c) && expected <= generation
      requires expected == generation ==> Allowed(record, c) && next == Next(record, c)
      modifies this
      ensures Good() && ok == (expected == old(generation))
      ensures ok ==> record == next && run == Run(old(run).states + [next], old(run).calls + [c]) && own == old(own) + {old(|run.calls|)}
      ensures !ok ==> run == old(run) && record == old(record) && own == old(own)
    {
      ok := expected == generation;
      if ok {
        ghost var before := run;
        record, generation, own := next, generation + 1, own + {|run.calls|};
        run := Run(run.states + [next], run.calls + [c]);
        forall i | 0 <= i < |run.calls| ensures StepAt(run, i) {
          assert i < |before.calls| ==> StepAt(before, i);
        }
      }
    }

    /** Any number of transitions by other processes. */
    method Interfere()
      requires Good()
      modifies this
      ensures Good() && Extends(old(run), run) && own == old(own)
    {
      var n: int := *;
      while 0 < n
        invariant Good() && Extends(old(run), run) && own == old(own)
      {
        n := n - 1;
        var c: Call := *;
        if Legal(c) && Allowed(record, c) {
          var _ := Put(Next(record, c), generation, c);
          own := old(own);
        }
      }
    }

    /** Reads the record, decides, and writes it back unless somebody else did: so a change is
        made once and to the record as it is at that moment, a refusal was right of a record that
        was there during the call, and neither a refusal nor giving up has changed anything. */
    method UpdateUploadIf(c: Call) returns (outcome: Outcome)
      requires Good() && Legal(c)
      modifies this
      ensures Good() && Extends(old(run), run)
      ensures outcome.Changed? ==>
                && |run.calls| > |old(run).calls| && run.calls[|run.calls| - 1] == c
                && record == outcome.record == run.states[|run.calls|] && own == old(own) + {|run.calls| - 1}
      ensures !outcome.Changed? ==> own == old(own)
      ensures outcome.Contended? ==> |old(run).calls| + CasAttempts <= |run.calls|
      ensures outcome.Unchanged? ==>
                exists i | |old(run).calls| <= i < |run.states| :: run.states[i] == outcome.record && !Allowed(run.states[i], c)
    {
      for attempt := 0 to CasAttempts
        invariant Good() && Extends(old(run), run) && |old(run).calls| + attempt <= |run.calls| && own == old(own)
      {
        Interfere();
        var read, expected := record, generation;
        ghost var at := |run.calls|;
        Interfere();
        if !Allowed(read, c) {
          assert run.states[at] == read;
          return Unchanged(read);
        }
        assert expected == generation ==> read == record;
        var ok := Put(Next(read, c), expected, c);
        if ok {
          return Changed(Next(read, c));
        }
      }
      outcome := Contended;
    }
  }
}
