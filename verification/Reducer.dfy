/** The derived-metadata reducer as a step system. Committed transactions leave deltas; reducer
    passes read them, apply them to one state object by a conditional write, mark their
    transactions, delete them, and compact the list of applied tokens. A lease keeps passes
    apart as long as nobody overruns it. Emitters and passes may stop between any two steps. */
module Reducer {
  import opened Wrappers
  import opened NodeAccounts

  type Token = nat
  type Id = nat

  const Retention: nat := 300

  /** A listing of the stored deltas, and when it was taken. */
  datatype Listing = Listing(tokens: set<Token>, at: nat)

  /** One pass: the delta objects it has read, with their generations, whether it has applied
      them, and the listing it took after that; one that failed shows no delta. */
  datatype Pass = Pass(held: map<Token, nat>, applied: bool, listing: Option<Listing>)

  datatype ReducerLease = ReducerLease(owner: Id, until: nat)

  /** The clock; committed transactions with the deltas they ask for; those marked as applied;
      stored delta objects by generation; emitters that have seen an unmarked manifest and not
      yet written; the reducer lease; the reducer state object with its generation; the passes at
      work. once is history: every token ever applied, with the time first recorded for it; so is
      twice: those applied more than once, and begun: how often the lease has been taken. margin is
      the time a pass may take from its listing to its compaction. */
  datatype State = State(
    now: nat,
    margin: nat,
    nextGen: nat,
    baseline: Stats,
    committed: map<Token, Stats>,
    marked: set<Token>,
    deltas: map<Token, nat>,
    emitters: map<Id, Token>,
    lease: Option<ReducerLease>,
    generation: nat,
    stats: Stats,
    applied: map<Token, nat>,
    passes: map<Id, Pass>,
    once: map<Token, nat>,
    twice: set<Token>,
    begun: nat)

  datatype Step =
    | Tick(to: nat)
    | Commit(token: Token, delta: Stats)
    | StartEmit(emitter: Id, token: Token)
    | Emit(emitter: Id)
    | StopEmit(emitter: Id)
    | StartPass(pass: Id, until: nat)
    | Renew(owner: Id, until: nat)
    | Release(owner: Id)
    | Read(pass: Id, token: Token)
    | Apply(pass: Id, order: seq<Token>, at: nat)
    | Mark(pass: Id, token: Token)
    | Delete(pass: Id, token: Token)
    | List(pass: Id)
    | ListFails(pass: Id)
    | Compact(pass: Id, at: nat)
    | StopPass(pass: Id)

  /** What a pass has read and finds not applied yet. */
  function Pending(s: State, pass: Id): set<Token>
    requires pass in s.passes
  {
    s.passes[pass].held.Keys - s.applied.Keys
  }

  /** Tokens whose delta the listing did not show and that were applied long enough ago. */
  function Compactable(applied: map<Token, nat>, listing: set<Token>, at: nat): set<Token> {
    set t | t in applied && t !in listing && applied[t] + Retention <= at
  }

  predicate LeaseOf(s: State, p: Id) {
    s.lease.Some? && s.lease.value.owner == p
  }

  /** A pass begins by taking the lease, if there is none, or it has run out, or is its own. */
  predicate CanStart(s: State, p: Id) {
    p !in s.passes && (s.lease.None? || s.lease.value.until <= s.now || s.lease.value.owner == p)
  }

  predicate Enabled(s: State, l: Step) {
    match l
    case Tick(to) => s.now <= to
    case Commit(t, _) => t !in s.committed
    case StartEmit(e, t) => e !in s.emitters && t in s.committed && t !in s.marked
    case Emit(e) => e in s.emitters
    case StopEmit(e) => e in s.emitters
    case StartPass(p, _) => CanStart(s, p)
    case Renew(p, _) => LeaseOf(s, p)
    case Release(p) => LeaseOf(s, p)
    case Read(p, t) => p in s.passes && t in s.deltas && !s.passes[p].applied && s.passes[p].listing.None?
    case Apply(p, order, at) =>
      && p in s.passes && !s.passes[p].applied && s.passes[p].listing.None?
      && Orders(order, Pending(s, p)) && at <= s.now
    case Mark(p, t) => p in s.passes && s.passes[p].applied && t in s.passes[p].held
    case Delete(p, t) => p in s.passes && t in s.passes[p].held && t in s.marked && t in s.deltas && s.deltas[t] == s.passes[p].held[t]
    case List(p) => p in s.passes
    case ListFails(p) => p in s.passes
    case Compact(p, at) => p in s.passes && s.passes[p].listing.Some? && at <= s.now
    case StopPass(p) => p in s.passes
  }

  datatype Component = Files | Dirs | Bytes

  function Part(s: Stats, i: Component): int {
    match i
    case Files => s.files
    case Dirs => s.dirs
    case Bytes => s.bytes
  }

  /** The sum of one component over a set of tokens. */
  ghost function Total(tokens: set<Token>, deltas: map<Token, Stats>, i: Component): int
    decreases |tokens|
  {
    if tokens == {} then 0
    else
      var t :| t in tokens;
      Part(DeltaOf(deltas, t), i) + Total(tokens - {t}, deltas, i)
  }

  function DeltaOf(deltas: map<Token, Stats>, t: Token): Stats {
    if t in deltas then deltas[t] else NoStats
  }

  /** The stats with the deltas of a list of tokens added, one after the other. */
  function AddAll(stats: Stats, order: seq<Token>, deltas: map<Token, Stats>): Stats {
    if order == [] then stats
    else Add(AddAll(stats, order[..|order| - 1], deltas), DeltaOf(deltas, order[|order| - 1]))
  }

  function Members(order: seq<Token>): set<Token> {
    set t | t in order
  }

  /** A list of the tokens of a set, each once. */
  predicate Orders(order: seq<Token>, tokens: set<Token>) {
    Members(order) == tokens && forall i, j | 0 <= i < j < |order| :: order[i] != order[j]
  }

  function SetPass(s: State, p: Id, pass: Pass): State {
    s.(passes := s.passes[p := pass])
  }

  /** Nothing is written when there is nothing to apply. */
  function DoApply(s: State, p: Id, order: seq<Token>, at: nat): State
    requires Enabled(s, Apply(p, order, at))
  {
    var tokens := Pending(s, p);
    SetPass(s, p, s.passes[p].(applied := true)).(
      stats := AddAll(s.stats, order, s.committed),
      applied := Stamped(s.applied, tokens, at),
      generation := if tokens == {} then s.generation else s.generation + 1,
      once := Stamped(s.once, tokens, at),
      twice := s.twice + (s.once.Keys * tokens))
  }

  /** Tokens that have no time yet get this one. */
  function Stamped(times: map<Token, nat>, tokens: set<Token>, at: nat): map<Token, nat> {
    map t | t in times.Keys + tokens :: if t in times then times[t] else at
  }

  function DoCompact(s: State, dropped: set<Token>): State {
    s.(applied := s.applied - dropped, generation := if dropped == {} then s.generation else s.generation + 1)
  }

  function Next(s: State, l: Step): State
    requires Enabled(s, l)
  {
    match l
    case Tick(to) => s.(now := to)
    case Commit(t, delta) => s.(committed := s.committed[t := delta])
    case StartEmit(e, t) => s.(emitters := s.emitters[e := t])
    case Emit(e) =>
      var t := s.emitters[e];
      s.(emitters := s.emitters - {e}, nextGen := s.nextGen + 1,
         deltas := if t in s.deltas then s.deltas else s.deltas[t := s.nextGen])
    case StopEmit(e) => s.(emitters := s.emitters - {e})
    case StartPass(p, until) => SetPass(s, p, Pass(map[], false, None)).(lease := Some(ReducerLease(p, until)), begun := s.begun + 1)
    case Renew(p, until) => s.(lease := Some(ReducerLease(p, until)))
    case Release(p) => s.(lease := None)
    case Read(p, t) => SetPass(s, p, s.passes[p].(held := s.passes[p].held[t := s.deltas[t]]))
    case Apply(p, order, at) => DoApply(s, p, order, at)
    case Mark(p, t) => s.(marked := s.marked + {t})
    case Delete(p, t) => s.(deltas := s.deltas - {t})
    case List(p) => SetPass(s, p, s.passes[p].(listing := Some(Listing(s.deltas.Keys, s.now))))
    case ListFails(p) => SetPass(s, p, s.passes[p].(listing := Some(Listing({}, s.now))))
    case Compact(p, at) => DoCompact(s, Compactable(s.applied, s.passes[p].listing.value.tokens, at))
    case StopPass(p) => s.(passes := s.passes - {p})
  }

  // ---- The four timing assumptions ----

  /** No delta is written again later than the retention window, less the margin, after it was
      applied. */
  predicate EmitInTime(s: State, l: Step) {
    l.Emit? && l.emitter in s.emitters && s.emitters[l.emitter] !in s.deltas && s.emitters[l.emitter] in s.once ==>
      s.now + s.margin < s.once[s.emitters[l.emitter]] + Retention
  }

  /** The lease is taken by a pass only if it is free, has run out or is its own, and while it runs
      only its owner renews it or gives it back. */
  lemma LeaseStays(s: State, l: Step)
    requires Enabled(s, l) && s.lease.Some? && s.now < s.lease.value.until
    ensures var owner, lease := s.lease.value.owner, Next(s, l).lease;
      && (lease.Some? ==> lease.value.owner == owner)
      && (lease != s.lease ==> (l.StartPass? && l.pass == owner) || (l.Renew? && l.owner == owner) || (l.Release? && l.owner == owner))
      && (lease.None? ==> l.Release?)
  {
  }

  /** A pass writes the state object only while nobody else has taken the lease. */
  predicate LeaseKept(s: State, l: Step) {
    (l.Apply? || l.Compact?) ==> LeaseOf(s, l.pass)
  }

  /** A pass reads its clock for the compaction within the margin after its listing. */
  predicate CompactInTime(s: State, l: Step) {
    l.Compact? && l.pass in s.passes && s.passes[l.pass].listing.Some? ==> l.at <= s.passes[l.pass].listing.value.at + s.margin
  }

  /** A pass whose listing fails compacts all the same, as if no delta were stored: no delta is
      still stored then that was applied as long ago as the retention window, less the margin. */
  predicate ListInTime(s: State, l: Step) {
    l.ListFails? ==> forall t | t in s.deltas && t in s.once :: s.now + s.margin < s.once[t] + Retention
  }

  predicate Timely(s: State, l: Step) {
    EmitInTime(s, l) && LeaseKept(s, l) && CompactInTime(s, l) && ListInTime(s, l)
  }

  // ---- The invariant ----

  predicate KnownTokens(s: State) {
    && (forall t | t in s.deltas :: t in s.committed)
    && (forall e | e in s.emitters :: s.emitters[e] in s.committed)
    && (forall p, t | p in s.passes && t in s.passes[p].held :: t in s.committed)
    && s.once.Keys <= s.committed.Keys && s.marked <= s.once.Keys
    && (forall t | t in s.applied :: t in s.once && s.applied[t] == s.once[t])
  }

  /** A delta that a pass has read is still stored or its transaction is marked. */
  predicate StoredOrMarked(s: State) {
    && (forall p, t | p in s.passes && t in s.passes[p].held && t !in s.deltas :: t in s.marked)
    && (forall t | t in s.once && t !in s.deltas :: t in s.marked)
  }

  predicate AppliedHeld(s: State) {
    forall p, t | p in s.passes && s.passes[p].applied && t in s.passes[p].held :: t in s.once
  }

  predicate HeldOrMarked(s: State) {
    StoredOrMarked(s) && AppliedHeld(s)
  }

  /** The pass that holds the lease and may still apply. */
  predicate MayApply(s: State, p: Id) {
    LeaseOf(s, p) && p in s.passes && !s.passes[p].applied && s.passes[p].listing.None?
  }

  /** Nothing brings a token back that has been applied and dropped from the list: its delta is
      not stored, it is too late to write it again, and no pass that may apply holds it. */
  predicate Gone(s: State, t: Token) {
    && t in s.marked && t !in s.deltas
    && (t in s.once ==> s.once[t] + Retention <= s.now)
    && forall p | p in s.passes && MayApply(s, p) :: t !in s.passes[p].held
  }

  predicate Forgotten(s: State) {
    forall t | t in s.once && t !in s.applied :: Gone(s, t)
  }

  /** What the lease holder's listing does not show and is stored now was written after it, in time. */
  predicate ListingOk(s: State, p: Id) {
    LeaseOf(s, p) && p in s.passes && s.passes[p].listing.Some? ==>
      forall t | t in s.deltas && t in s.once && t !in s.passes[p].listing.value.tokens ::
        s.passes[p].listing.value.at + s.margin < s.once[t] + Retention
  }

  predicate ListingTimed(s: State, p: Id) {
    p in s.passes && s.passes[p].listing.Some? ==> s.passes[p].listing.value.at <= s.now
  }

  ghost predicate Accounted(s: State) {
    forall i :: Part(s.stats, i) == Part(s.baseline, i) + Total(s.once.Keys, s.committed, i)
  }

  ghost predicate Inv(s: State) {
    && KnownTokens(s) && HeldOrMarked(s) && Forgotten(s) && Accounted(s) && s.twice == {}
    && forall p :: ListingOk(s, p) && ListingTimed(s, p)
  }

  ghost predicate Init(s: State) {
    && s.committed == map[] && s.marked == {} && s.deltas == map[] && s.emitters == map[] && s.applied == map[]
    && s.passes == map[] && s.once == map[] && s.twice == {} && s.stats == s.baseline && s.lease == None
  }

  lemma InitInv(s: State)
    requires Init(s)
    ensures Inv(s)
  {
  }

  // ---- Sums ----

  lemma {:induction false} TotalWithout(tokens: set<Token>, deltas: map<Token, Stats>, i: Component, t: Token)
    requires t in tokens
    ensures Total(tokens, deltas, i) == Part(DeltaOf(deltas, t), i) + Total(tokens - {t}, deltas, i)
    decreases |tokens|
  {
    var u :| u in tokens && Total(tokens, deltas, i) == Part(DeltaOf(deltas, u), i) + Total(tokens - {u}, deltas, i);
    if u != t {
      TotalWithout(tokens - {u}, deltas, i, t);
      TotalWithout(tokens - {t}, deltas, i, u);
      assert tokens - {u} - {t} == tokens - {t} - {u};
    }
  }

  lemma {:induction false} TotalApart(a: set<Token>, b: set<Token>, deltas: map<Token, Stats>, i: Component)
    requires a !! b
    ensures Total(a + b, deltas, i) == Total(a, deltas, i) + Total(b, deltas, i)
    decreases |a|
  {
    if a == {} {
      assert a + b == b;
    } else {
      var t :| t in a;
      TotalWithout(a, deltas, i, t);
      TotalWithout(a + b, deltas, i, t);
      assert a + b - {t} == (a - {t}) + b;
      TotalApart(a - {t}, b, deltas, i);
    }
  }

  lemma {:induction false} TotalSame(tokens: set<Token>, deltas: map<Token, Stats>, deltas': map<Token, Stats>, i: Component)
    requires forall t | t in tokens :: DeltaOf(deltas', t) == DeltaOf(deltas, t)
    ensures Total(tokens, deltas, i) == Total(tokens, deltas', i)
    decreases |tokens|
  {
    if tokens != {} {
      var t :| t in tokens;
      TotalWithout(tokens, deltas, i, t);
      TotalWithout(tokens, deltas', i, t);
      TotalSame(tokens - {t}, deltas, deltas', i);
    }
  }

  /** Adding a list adds the sum over its tokens, whatever the order. */
  lemma {:induction false} AddAllTotal(stats: Stats, order: seq<Token>, deltas: map<Token, Stats>, i: Component)
    requires forall j, k | 0 <= j < k < |order| :: order[j] != order[k]
    ensures Part(AddAll(stats, order, deltas), i) == Part(stats, i) + Total(Members(order), deltas, i)
  {
    if order != [] {
      var before, last := order[..|order| - 1], order[|order| - 1];
      AddAllTotal(stats, before, deltas, i);
      assert order == before + [last] && last !in before;
      TotalWithout(Members(order), deltas, i, last);
      assert Members(order) - {last} == Members(before);
    }
  }

  // ---- Every step keeps the invariant ----

  /** What a pass applies has never been applied before. */
  lemma PendingIsNew(s: State, p: Id)
    requires KnownTokens(s) && Forgotten(s) && MayApply(s, p)
    ensures Pending(s, p) !! s.once.Keys
  {
    forall t | t in Pending(s, p) ensures t !in s.once {
      assert t in s.once && t !in s.applied ==> Gone(s, t);
    }
  }

  lemma ApplyAccounted(s: State, p: Id, order: seq<Token>, at: nat)
    requires Inv(s) && Enabled(s, Apply(p, order, at)) && LeaseOf(s, p)
    ensures Accounted(DoApply(s, p, order, at)) && DoApply(s, p, order, at).twice == {}
  {
    PendingIsNew(s, p);
    var tokens, s' := Pending(s, p), DoApply(s, p, order, at);
    assert s'.once.Keys == s.once.Keys + tokens;
    forall i ensures Part(s'.stats, i) == Part(s.baseline, i) + Total(s.once.Keys + tokens, s.committed, i) {
      AddAllTotal(s.stats, order, s.committed, i);
      TotalApart(s.once.Keys, tokens, s.committed, i);
    }
    assert s.once.Keys * tokens == {};
  }

  lemma StepAccounted(s: State, l: Step)
    requires Inv(s) && Enabled(s, l) && Timely(s, l)
    ensures Accounted(Next(s, l)) && Next(s, l).twice == {}
  {
    if l.Apply? {
      ApplyAccounted(s, l.pass, l.order, l.at);
    } else if l.Commit? {
      forall i ensures Total(s.once.Keys, s.committed[l.token := l.delta], i) == Total(s.once.Keys, s.committed, i) {
        TotalSame(s.once.Keys, s.committed, s.committed[l.token := l.delta], i);
      }
    }
  }

  lemma StepKnown(s: State, l: Step)
    requires KnownTokens(s) && HeldOrMarked(s) && Forgotten(s) && Enabled(s, l) && LeaseKept(s, l)
    ensures KnownTokens(Next(s, l))
  {
    if l.Apply? {
      PendingIsNew(s, l.pass);
    }
  }

  lemma StepHeld(s: State, l: Step)
    requires KnownTokens(s) && HeldOrMarked(s) && Enabled(s, l)
    ensures HeldOrMarked(Next(s, l))
  {
    StepStored(s, l);
    StepApplied(s, l);
  }

  lemma StepStored(s: State, l: Step)
    requires KnownTokens(s) && StoredOrMarked(s) && Enabled(s, l)
    ensures StoredOrMarked(Next(s, l))
  {
  }

  lemma StepApplied(s: State, l: Step)
    requires KnownTokens(s) && AppliedHeld(s) && Enabled(s, l)
    ensures AppliedHeld(Next(s, l))
  {
  }

  /** What has been forgotten stays out of reach. */
  lemma StepGone(s: State, l: Step, t: Token)
    requires Gone(s, t) && t in s.once && Enabled(s, l) && EmitInTime(s, l)
    ensures Gone(Next(s, l), t)
  {
  }

  /** What a compaction forgets is out of reach. */
  lemma CompactGone(s: State, p: Id, at: nat, t: Token)
    requires KnownTokens(s) && HeldOrMarked(s) && ListingOk(s, p) && Enabled(s, Compact(p, at)) && Timely(s, Compact(p, at))
    requires t in Compactable(s.applied, s.passes[p].listing.value.tokens, at)
    ensures Gone(Next(s, Compact(p, at)), t)
  {
    assert t in s.once && s.once[t] == s.applied[t];
  }

  lemma StepForgotten(s: State, l: Step)
    requires KnownTokens(s) && HeldOrMarked(s) && Forgotten(s) && Enabled(s, l) && Timely(s, l)
    requires forall p :: ListingOk(s, p)
    ensures Forgotten(Next(s, l))
  {
    var s' := Next(s, l);
    forall t | t in s'.once && t !in s'.applied ensures Gone(s', t) {
      if t in s.applied {
        CompactGone(s, l.pass, l.at, t);
      } else {
        assert t in s.once && Gone(s, t);
        StepGone(s, l, t);
      }
    }
  }

  lemma StepListing(s: State, l: Step, p: Id)
    requires ListingOk(s, p) && ListingTimed(s, p) && Enabled(s, l) && Timely(s, l)
    ensures ListingOk(Next(s, l), p) && ListingTimed(Next(s, l), p)
  {
  }

  lemma StepInv(s: State, l: Step)
    requires Inv(s) && Enabled(s, l) && Timely(s, l)
    ensures Inv(Next(s, l))
  {
    StepKnown(s, l);
    StepHeld(s, l);
    StepForgotten(s, l);
    StepAccounted(s, l);
    forall p ensures ListingOk(Next(s, l), p) && ListingTimed(Next(s, l), p) {
      StepListing(s, l, p);
    }
  }

  // ---- Runs ----

  datatype Run = Run(states: seq<State>, steps: seq<Step>)

  ghost predicate Valid(r: Run) {
    && |r.states| == |r.steps| + 1 && Init(r.states[0])
    && forall i | 0 <= i < |r.steps| :: StepAt(r, i)
  }

  ghost predicate StepAt(r: Run, i: nat)
    requires |r.states| == |r.steps| + 1 && i < |r.steps|
  {
    Enabled(r.states[i], r.steps[i]) && r.states[i + 1] == Next(r.states[i], r.steps[i])
  }

  ghost predicate AllTimely(r: Run)
    requires |r.states| == |r.steps| + 1
  {
    forall i | 0 <= i < |r.steps| :: Timely(r.states[i], r.steps[i])
  }

  /** Exactly once: in every run that keeps to the four times, however passes and emitters stop,
      overlap and resume, no delta is ever applied twice, and the published stats are the
      baseline plus the deltas of the tokens applied. */
  lemma {:induction false} ExactlyOnce(r: Run, n: nat)
    requires Valid(r) && AllTimely(r) && n < |r.states|
    ensures Inv(r.states[n]) && r.states[n].twice == {}
    ensures forall i :: Part(r.states[n].stats, i) ==
                        Part(r.states[n].baseline, i) + Total(r.states[n].once.Keys, r.states[n].committed, i)
  {
    if n == 0 {
      InitInv(r.states[0]);
    } else {
      ExactlyOnce(r, n - 1);
      assert StepAt(r, n - 1) && Timely(r.states[n - 1], r.steps[n - 1]);
      StepInv(r.states[n - 1], r.steps[n - 1]);
    }
  }

  /** Nothing is lost on the way either: what has been published and what is still to be
      applied add up to everything committed. */
  lemma NothingLost(r: Run, n: nat, i: Component)
    requires Valid(r) && AllTimely(r) && n < |r.states|
    ensures var s := r.states[n];
      Part(s.stats, i) + Total(s.committed.Keys - s.once.Keys, s.committed, i) == Part(s.baseline, i) + Total(s.committed.Keys, s.committed, i)
  {
    ExactlyOnce(r, n);
    var s := r.states[n];
    TotalApart(s.once.Keys, s.committed.Keys - s.once.Keys, s.committed, i);
    assert s.once.Keys + (s.committed.Keys - s.once.Keys) == s.committed.Keys;
  }

  // ---- Each of the four times is needed ----

  ghost predicate TimelySteps(s: State, steps: seq<Step>)
    decreases |steps|
  {
    steps == [] || (Enabled(s, steps[0]) && Timely(s, steps[0]) && TimelySteps(Next(s, steps[0]), steps[1..]))
  }

  ghost function After(s: State, steps: seq<Step>): State
    requires TimelySteps(s, steps)
    decreases |steps|
  {
    if steps == [] then s else After(Next(s, steps[0]), steps[1..])
  }

  lemma {:induction false} OneMore(s: State, steps: seq<Step>, l: Step)
    requires TimelySteps(s, steps) && Enabled(After(s, steps), l) && Timely(After(s, steps), l)
    ensures TimelySteps(s, steps + [l]) && After(s, steps + [l]) == Next(After(s, steps), l)
    decreases |steps|
  {
    if steps == [] {
      assert ([l])[1..] == [];
    } else {
      OneMore(Next(s, steps[0]), steps[1..], l);
      assert (steps + [l])[1..] == steps[1..] + [l];
    }
  }

  lemma {:induction false} TimelyInv(s: State, steps: seq<Step>)
    requires Inv(s) && TimelySteps(s, steps)
    ensures Inv(After(s, steps)) && s.now <= After(s, steps).now && s.margin == After(s, steps).margin
    ensures forall t | t in s.once :: t in After(s, steps).once && After(s, steps).once[t] == s.once[t]
    decreases |steps|
  {
    if steps != [] {
      StepInv(s, steps[0]);
      TimelyInv(Next(s, steps[0]), steps[1..]);
    }
  }

  /** A continuation in time but for one step: before it, the step, and after it. */
  ghost predicate But(s: State, before: seq<Step>, l: Step, rest: seq<Step>) {
    TimelySteps(s, before) && Enabled(After(s, before), l) && TimelySteps(Next(After(s, before), l), rest)
  }

  ghost function End(s: State, before: seq<Step>, l: Step, rest: seq<Step>): State
    requires But(s, before, l, rest)
  {
    After(Next(After(s, before), l), rest)
  }

  lemma MembersMore(before: seq<Token>, t: Token)
    ensures Members(before + [t]) == Members(before) + {t}
  {
  }

  lemma {:induction false} SomeOrder(tokens: set<Token>) returns (order: seq<Token>)
    ensures Orders(order, tokens)
    decreases |tokens|
  {
    if tokens == {} {
      order := [];
    } else {
      var t :| t in tokens;
      var before := SomeOrder(tokens - {t});
      assert t !in Members(before);
      MembersMore(before, t);
      order := before + [t];
    }
  }

  /** The lease can be taken. */
  predicate LeaseFree(s: State) {
    s.lease.None? || s.lease.value.until <= s.now
  }

  /** A new pass takes the lease and reads a delta. */
  lemma ReadFirst(s: State, q: Id, t: Token) returns (s': State)
    requires t in s.deltas && q !in s.passes && LeaseFree(s)
    ensures TimelySteps(s, [StartPass(q, s.now), Read(q, t)]) && s' == After(s, [StartPass(q, s.now), Read(q, t)])
    ensures s' == s.(passes := s.passes[q := Pass(map[t := s.deltas[t]], false, None)], lease := Some(ReducerLease(q, s.now)), begun := s.begun + 1)
  {
    ReadState(s, q, t);
    TwoSteps(s, StartPass(q, s.now), Read(q, t));
    s' := After(s, [StartPass(q, s.now), Read(q, t)]);
  }

  /** A stored delta of a token that has been dropped from the list is applied again by the next pass. */
  lemma StoredReapplies(s: State, t: Token, q: Id) returns (steps: seq<Step>)
    requires t in s.deltas && t in s.once && t !in s.applied && q !in s.passes && LeaseFree(s)
    ensures TimelySteps(s, steps) && t in After(s, steps).twice
  {
    var s2 := ReadFirst(s, q, t);
    var order := SomeOrder(Pending(s2, q));
    steps := [StartPass(q, s.now), Read(q, t)];
    OneMore(s, steps, Apply(q, order, s2.now));
    steps := steps + [Apply(q, order, s2.now)];
  }

  /** t was applied and its delta deleted, while e has yet to write it once more. */
  ghost predicate Lingers(s: State, e: Id, t: Token) {
    e in s.emitters && s.emitters[e] == t && t in s.once && t !in s.deltas
  }

  lemma TwoSteps(s: State, l: Step, l': Step)
    requires Enabled(s, l) && Timely(s, l) && Enabled(Next(s, l), l') && Timely(Next(s, l), l')
    ensures TimelySteps(s, [l, l']) && After(s, [l, l']) == Next(Next(s, l), l')
  {
    OneMore(s, [], l);
    OneMore(s, [l], l');
    assert [l] + [l'] == [l, l'];
  }

  lemma MapTwice<K, V>(m: map<K, V>, k: K, a: V, b: V)
    ensures m[k := a][k := b] == m[k := b]
  {
  }

  lemma ListState(s: State, p: Id)
    requires CanStart(s, p)
    ensures Next(Next(s, StartPass(p, s.now)), List(p)) ==
            s.(passes := s.passes[p := Pass(map[], false, Some(Listing(s.deltas.Keys, s.now)))], lease := Some(ReducerLease(p, s.now)), begun := s.begun + 1)
  {
    MapTwice(s.passes, p, Pass(map[], false, None), Pass(map[], false, Some(Listing(s.deltas.Keys, s.now))));
  }

  lemma ReadState(s: State, p: Id, t: Token)
    requires CanStart(s, p) && t in s.deltas
    ensures Next(Next(s, StartPass(p, s.now)), Read(p, t)) ==
            s.(passes := s.passes[p := Pass(map[t := s.deltas[t]], false, None)], lease := Some(ReducerLease(p, s.now)), begun := s.begun + 1)
  {
    MapTwice(s.passes, p, Pass(map[], false, None), Pass(map[t := s.deltas[t]], false, None));
  }

  /** A new pass takes its listing. */
  lemma ListFirst(s: State, p: Id) returns (s': State)
    requires p !in s.passes && LeaseFree(s)
    ensures TimelySteps(s, [StartPass(p, s.now), List(p)]) && s' == After(s, [StartPass(p, s.now), List(p)])
    ensures s' == s.(passes := s.passes[p := Pass(map[], false, Some(Listing(s.deltas.Keys, s.now)))], lease := Some(ReducerLease(p, s.now)), begun := s.begun + 1)
  {
    ListState(s, p);
    TwoSteps(s, StartPass(p, s.now), List(p));
    s' := After(s, [StartPass(p, s.now), List(p)]);
  }

  /** A delta written again after the listing is applied again once its token has been compacted. */
  lemma CompactedReapplies(s: State, p: Id, t: Token, q: Id, to: nat) returns (steps: seq<Step>)
    requires p in s.passes && s.passes[p].listing.Some? && LeaseOf(s, p) && q !in s.passes && t !in s.passes[p].listing.value.tokens
    requires t in s.deltas && t in s.once && t in s.applied && s.applied[t] + Retention <= to
    requires s.now <= to <= s.passes[p].listing.value.at + s.margin
    ensures TimelySteps(s, steps) && t in After(s, steps).twice
  {
    OneMore(s, [], Tick(to));
    var s1 := Next(s, Tick(to));
    OneMore(s, [Tick(to)], Compact(p, to));
    var s2 := Next(s1, Compact(p, to));
    assert t in Compactable(s1.applied, s1.passes[p].listing.value.tokens, to);
    OneMore(s, [Tick(to)] + [Compact(p, to)], Release(p));
    var s3 := Next(s2, Release(p));
    var rest := StoredReapplies(s3, t, q);
    steps := [Tick(to)] + [Compact(p, to)] + [Release(p)];
    Joined(s, steps, rest);
    steps := steps + rest;
  }

  lemma {:induction false} Joined(s: State, a: seq<Step>, b: seq<Step>)
    requires TimelySteps(s, a) && TimelySteps(After(s, a), b)
    ensures TimelySteps(s, a + b) && After(s, a + b) == After(After(s, a), b)
    decreases |a|
  {
    if a == [] {
      assert a + b == b;
    } else {
      Joined(Next(s, a[0]), a[1..], b);
      assert (a + b)[1..] == a[1..] + b;
    }
  }

  /** One delta written too late is enough for it to be counted twice. */
  lemma LateEmissionReapplies(s: State, e: Id, t: Token, p: Id, q: Id) returns (before: seq<Step>, rest: seq<Step>)
    requires Inv(s) && Lingers(s, e, t) && !EmitInTime(s, Emit(e)) && LeaseFree(s) && p !in s.passes && q !in s.passes && p != q
    ensures But(s, before, Emit(e), rest) && After(s, before).now == s.now && Lingers(After(s, before), e, t)
    ensures t in End(s, before, Emit(e), rest).twice
  {
    if t in s.applied {
      before := [StartPass(p, s.now), List(p)];
      var s1 := ListFirst(s, p);
      rest := CompactedReapplies(Next(s1, Emit(e)), p, t, q, s.now + s.margin);
    } else {
      before := [];
      rest := StoredReapplies(Next(s, Emit(e)), t, q);
    }
  }

  /** e writes t at the present moment, everything else is in time. */
  ghost predicate WritesNow(s: State, before: seq<Step>, e: Id, t: Token, rest: seq<Step>) {
    But(s, before, Emit(e), rest) && After(s, before).now == s.now && e in After(s, before).emitters && After(s, before).emitters[e] == t
  }

  /** The exact condition on writing a delta again, for whoever knows when it was applied: with
      everything else in time no continuation counts it twice if and only if less than the
      retention window minus the margin has passed. */
  lemma EmissionSafeIffInTime(s: State, e: Id, t: Token, p: Id, q: Id)
    requires Inv(s) && Lingers(s, e, t) && LeaseFree(s) && p !in s.passes && q !in s.passes && p != q
    ensures s.now + s.margin < s.once[t] + Retention <==>
            forall before, rest :: WritesNow(s, before, e, t, rest) ==> End(s, before, Emit(e), rest).twice == {}
  {
    if s.now + s.margin < s.once[t] + Retention {
      forall before, rest | WritesNow(s, before, e, t, rest) ensures End(s, before, Emit(e), rest).twice == {} {
        TimelyInv(s, before);
        StepInv(After(s, before), Emit(e));
        TimelyInv(Next(After(s, before), Emit(e)), rest);
      }
    } else {
      var before, rest := LateEmissionReapplies(s, e, t, p, q);
      assert WritesNow(s, before, e, t, rest);
    }
  }

  /** A pass that goes on after another one has taken its lease may count a delta twice. */
  lemma StalePassReapplies(s: State, h: Id, t: Token, p: Id) returns (before: seq<Step>, order: seq<Token>)
    requires Inv(s) && h in s.passes && !s.passes[h].applied && s.passes[h].listing.None? && t in s.passes[h].held
    requires t in s.applied && t !in s.deltas && LeaseFree(s) && p !in s.passes
    ensures TimelySteps(s, before) && Enabled(After(s, before), Apply(h, order, s.now)) && !LeaseKept(After(s, before), Apply(h, order, s.now))
    ensures t in Next(After(s, before), Apply(h, order, s.now)).twice
  {
    var to := s.now + s.applied[t] + Retention;
    OneMore(s, [], Tick(to));
    var s1 := Next(s, Tick(to));
    var s2 := ListFirst(s1, p);
    before := [Tick(to)];
    Joined(s, before, [StartPass(p, to), List(p)]);
    before := before + [StartPass(p, to), List(p)];
    OneMore(s, before, Compact(p, to));
    assert t in Compactable(s2.applied, s2.passes[p].listing.value.tokens, to);
    before := before + [Compact(p, to)];
    order := SomeOrder(Pending(After(s, before), h));
  }

  /** A compaction long after its listing may forget a token whose delta was written in between. */
  lemma SlowCompactionReapplies(s: State, e: Id, t: Token, p: Id, q: Id) returns (before: seq<Step>, rest: seq<Step>)
    requires Inv(s) && Lingers(s, e, t) && EmitInTime(s, Emit(e)) && t in s.applied && LeaseFree(s)
    requires p !in s.passes && q !in s.passes && p != q
    ensures var l := Compact(p, s.once[t] + Retention);
            But(s, before, l, rest) && !CompactInTime(After(s, before), l) && t in End(s, before, l, rest).twice
  {
    var to := s.once[t] + Retention;
    var s1 := ListFirst(s, p);
    before := [StartPass(p, s.now), List(p)];
    OneMore(s, before, Emit(e));
    before := before + [Emit(e)];
    OneMore(s, before, Tick(to));
    before := before + [Tick(to)];
    var s2 := After(s, before);
    assert t in Compactable(s2.applied, s2.passes[p].listing.value.tokens, to);
    var s3 := Next(s2, Compact(p, to));
    OneMore(s3, [], Release(p));
    var s4 := Next(s3, Release(p));
    rest := StoredReapplies(s4, t, q);
    Joined(s3, [Release(p)], rest);
    rest := [Release(p)] + rest;
  }

  /** p's listing fails now, everything else is in time. */
  ghost predicate Blind(s: State, p: Id, rest: seq<Step>) {
    But(s, [], ListFails(p), rest)
  }

  lemma BlindCompactionReapplies(s: State, t: Token, p: Id, q: Id) returns (rest: seq<Step>)
    requires Inv(s) && p in s.passes && LeaseOf(s, p) && q !in s.passes
    requires t in s.deltas && t in s.once && s.once[t] + Retention <= s.now + s.margin
    ensures Blind(s, p, rest) && t in End(s, [], ListFails(p), rest).twice
  {
    assert t in s.applied;
    var s1 := Next(s, ListFails(p));
    rest := CompactedReapplies(s1, p, t, q, if s.now < s.once[t] + Retention then s.once[t] + Retention else s.now);
  }

  /** The exact condition on a listing that fails: with everything else in time no continuation
      counts a delta twice if and only if no delta is still stored that was applied as long ago
      as the retention window less the margin. */
  lemma FailedListingSafeIffInTime(s: State, p: Id, q: Id)
    requires Inv(s) && p in s.passes && LeaseOf(s, p) && q !in s.passes
    ensures ListInTime(s, ListFails(p)) <==> forall rest :: Blind(s, p, rest) ==> End(s, [], ListFails(p), rest).twice == {}
  {
    if ListInTime(s, ListFails(p)) {
      forall rest | Blind(s, p, rest) ensures End(s, [], ListFails(p), rest).twice == {} {
        StepInv(s, ListFails(p));
        TimelyInv(Next(s, ListFails(p)), rest);
      }
    } else {
      var t :| t in s.deltas && t in s.once && s.once[t] + Retention <= s.now + s.margin;
      var rest := BlindCompactionReapplies(s, t, p, q);
      assert Blind(s, p, rest);
    }
  }

  // ---- and such states are reached from the start ----

  lemma Emitted(s: State, t: Token, d: Stats) returns (steps: seq<Step>)
    requires Init(s)
    ensures TimelySteps(s, steps)
    ensures var s' := After(s, steps);
            s'.deltas.Keys == {t} && s'.passes == map[] && s'.once == map[] && s'.applied == map[] && LeaseFree(s')
  {
    OneMore(s, [], Commit(t, d));
    steps := [Commit(t, d)];
    OneMore(s, steps, StartEmit(0, t));
    steps := steps + [StartEmit(0, t)];
    OneMore(s, steps, Emit(0));
    steps := steps + [Emit(0)];
  }

  /** A delta is applied and neither marked nor deleted, since marking fails, until its pass goes on. */
  lemma Unmarked(s: State, t: Token, d: Stats) returns (steps: seq<Step>)
    requires Init(s)
    ensures TimelySteps(s, steps) && Inv(After(s, steps))
    ensures var s' := After(s, steps);
            && s'.passes.Keys == {0} && LeaseOf(s', 0) && t in s'.deltas && t in s'.once && s'.once[t] + Retention <= s'.now
  {
    InitInv(s);
    var first := Emitted(s, t, d);
    var s1 := After(s, first);
    var s2 := ReadFirst(s1, 0, t);
    Joined(s, first, [StartPass(0, s1.now), Read(0, t)]);
    first := first + [StartPass(0, s1.now), Read(0, t)];
    AppliedWaits(s, first, t);
    steps := first + [Apply(0, [t], s2.now)] + [Tick(s2.now + Retention)];
    TimelyInv(s, steps);
  }

  lemma AppliedWaits(s: State, steps: seq<Step>, t: Token)
    requires TimelySteps(s, steps)
    requires var s2 := After(s, steps); t in s2.deltas && s2.once == map[] && s2.applied == map[] && s2.passes == map[0 := Pass(map[t := s2.deltas[t]], false, None)] && LeaseOf(s2, 0)
    ensures var s2 := After(s, steps); var more := steps + [Apply(0, [t], s2.now)] + [Tick(s2.now + Retention)];
            && TimelySteps(s, more)
            && var s' := After(s, more);
              s'.passes.Keys == {0} && LeaseOf(s', 0) && t in s'.deltas && t in s'.once && s'.once[t] + Retention <= s'.now
  {
    var s2 := After(s, steps);
    assert Pending(s2, 0) == {t} && Members([t]) == {t};
    OneMore(s, steps, Apply(0, [t], s2.now));
    OneMore(s, steps + [Apply(0, [t], s2.now)], Tick(s2.now + Retention));
  }

  /** The whole run: a delta whose marking keeps failing for the retention window is counted again
      after one listing has failed. */
  lemma FailedListingRun(s: State, t: Token, d: Stats) returns (before: seq<Step>, rest: seq<Step>)
    requires Init(s)
    ensures But(s, before, ListFails(0), rest) && t in End(s, before, ListFails(0), rest).twice
  {
    before := Unmarked(s, t, d);
    rest := BlindCompactionReapplies(After(s, before), t, 0, 1);
  }

  /** One emitter has written the delta, a second one and one pass are lingering. */
  lemma Lingering(s: State, t: Token, d: Stats) returns (steps: seq<Step>)
    requires Init(s)
    ensures TimelySteps(s, steps)
    ensures var s' := After(s, steps);
            && s'.committed == map[t := d] && s'.emitters == map[1 := t] && s'.deltas.Keys == {t} && s'.marked == {}
            && s'.passes == map[1 := Pass(s'.deltas, false, None)] && s'.lease == Some(ReducerLease(1, s.now))
            && s'.applied == map[] && s'.once == map[] && s'.now == s.now && s'.margin == s.margin
  {
    steps := [];
    OneMore(s, steps, Commit(t, d));
    steps := steps + [Commit(t, d)];
    OneMore(s, steps, StartEmit(0, t));
    steps := steps + [StartEmit(0, t)];
    OneMore(s, steps, StartEmit(1, t));
    steps := steps + [StartEmit(1, t)];
    OneMore(s, steps, Emit(0));
    steps := steps + [Emit(0)];
    OneMore(s, steps, StartPass(1, s.now));
    steps := steps + [StartPass(1, s.now)];
    OneMore(s, steps, Read(1, t));
    steps := steps + [Read(1, t)];
  }

  /** A second pass applies, marks and deletes it. */
  lemma Overtaken(s: State, t: Token) returns (steps: seq<Step>)
    requires s.deltas.Keys == {t} && t in s.committed && s.applied == map[] && s.once == map[] && LeaseFree(s) && 0 !in s.passes
    ensures TimelySteps(s, steps)
    ensures var s' := After(s, steps);
            && s'.emitters == s.emitters && s'.deltas == map[] && s'.applied == s'.once == map[t := s.now] && s'.now == s.now && s'.margin == s.margin
            && 0 in s'.passes && s'.passes == s.passes[0 := s'.passes[0]] && LeaseFree(s')
  {
    var s1 := ReadFirst(s, 0, t);
    var rest := Finishes(s1, t);
    Joined(s, [StartPass(0, s.now), Read(0, t)], rest);
    steps := [StartPass(0, s.now), Read(0, t)] + rest;
  }

  lemma Finishes(s: State, t: Token) returns (steps: seq<Step>)
    requires s.deltas.Keys == {t} && s.applied == map[] && s.once == map[] && s.lease == Some(ReducerLease(0, s.now))
    requires 0 in s.passes && s.passes[0] == Pass(s.deltas, false, None)
    ensures TimelySteps(s, steps)
    ensures var s' := After(s, steps);
            && s'.emitters == s.emitters && s'.deltas == map[] && s'.applied == s'.once == map[t := s.now] && s'.now == s.now && s'.margin == s.margin
            && 0 in s'.passes && s'.passes == s.passes[0 := s'.passes[0]] && s'.lease == s.lease
  {
    assert Pending(s, 0) == {t} && Members([t]) == {t};
    OneMore(s, [], Apply(0, [t], s.now));
    steps := [Apply(0, [t], s.now)];
    OneMore(s, steps, Mark(0, t));
    steps := steps + [Mark(0, t)];
    OneMore(s, steps, Delete(0, t));
    steps := steps + [Delete(0, t)];
    assert After(s, steps).deltas == map[];
  }

  /** From any first state the system can come, in time, to where an emitter and a pass linger
      over a delta that has been applied and deleted: from there each of the three lemmas above
      goes on to count it twice. */
  lemma LingeringReached(s: State, t: Token, d: Stats) returns (steps: seq<Step>)
    requires Init(s)
    ensures TimelySteps(s, steps) && Inv(After(s, steps)) && LeaseFree(After(s, steps))
    ensures var s' := After(s, steps);
            && Lingers(s', 1, t) && t in s'.applied && s'.once[t] == s.now == s'.now && s'.margin == s.margin
            && s'.passes.Keys == {0, 1} && !s'.passes[1].applied && s'.passes[1].listing.None? && t in s'.passes[1].held
  {
    InitInv(s);
    var first := Lingering(s, t, d);
    var second := Overtaken(After(s, first), t);
    Joined(s, first, second);
    steps := first + second;
    TimelyInv(s, steps);
  }

  /** The whole run of a late emitter: it starts before the delta is applied, stalls for the
      retention window, and writes it again after its token has been compacted. */
  lemma LateEmitterRun(s: State, t: Token, d: Stats) returns (before: seq<Step>, rest: seq<Step>)
    requires Init(s)
    ensures But(s, before, Emit(1), rest) && t in End(s, before, Emit(1), rest).twice
  {
    var first := LingeringReached(s, t, d);
    var s1 := After(s, first);
    OneMore(s, first, Tick(s.now + Retention));
    first := first + [Tick(s.now + Retention)];
    TimelyInv(s1, []);
    StepInv(s1, Tick(s.now + Retention));
    var second;
    second, rest := LateEmissionReapplies(Next(s1, Tick(s.now + Retention)), 1, t, 2, 3);
    Joined(s, first, second);
    before := first + second;
  }
}
