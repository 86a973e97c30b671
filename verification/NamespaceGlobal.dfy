/** Global mode: every attempt takes one more lease, the same for all. No two operations are then
    under way at once, and a move that was not refused when it was built is safe when it commits:
    of what the commits must find, moves need nothing. */
module NamespaceGlobal {
  import opened Wrappers
  import opened Paths
  import opened FlatTree
  import opened NodeTree
  import opened NodeSpace
  import opened NodeNamespace
  import opened NodeAccounts
  import opened NodeMutations
  import opened NodeConservation
  import opened NamespaceModel
  import opened NamespaceFrames
  import opened NamespaceRuns
  import opened NamespaceLimits

  /** The directory that the entry goes to is not the entry, nor anywhere in it. */
  ghost predicate Clear(f: set<Item>, l: Link) {
    Located(f, l.toDir) && (l.node.isDirectory ==> Located(f, l.node.id) && !Below(Where(f, l.toDir), Where(f, l.node.id)))
  }

  ghost predicate AllClear(f: set<Item>, links: seq<Link>) {
    forall l | l in links :: Clear(f, l)
  }

  /** The same, told by places. */
  ghost predicate Free(f: set<Item>, l: Link) {
    LinkLive(f, l) && !Below(Where(f, l.toDir), From(f, l))
  }

  // ---- A directory and what is above it ----

  lemma PlaceFree(f: set<Item>, d: nat, to: Loc)
    requires ForestOk(f) && Located(f, d) && !Occupied(f, to)
    ensures !Below(Where(f, d), to)
  {
    WhereIs(f, d);
    assert Occupied(f, Where(f, d));
    if Below(Where(f, d), to) {
      NothingUnder(f, to, Where(f, d));
    }
  }

  /** Giving a subtree another name in its directory puts nothing below anything. */
  lemma ShiftOrder(w: Loc, v: Loc, from: Loc, to: Loc)
    requires from.path != [] && to.path != [] && Up(from) == Up(to)
    requires !Below(w, to) && !Below(v, to) && !Below(w, v)
    ensures !Below(Shift(w, from, to), Shift(v, from, to))
  {
    var w', v' := Shift(w, from, to), Shift(v, from, to);
    if Below(w', v') {
      if Below(v, from) {
        ShiftedUnder(v, from, to);
        BelowBelow(to, v', w');
        if Below(w, from) {
          SameUnder(w, v, from, to);
        }
      } else if Below(w, from) {
        ShiftedUnder(w, from, to);
        BesideUnder(w, v, from, to);
      }
    }
  }

  lemma ShiftedUnder(l: Loc, from: Loc, to: Loc)
    requires Below(l, from)
    ensures Below(Shift(l, from, to), to)
  {
    assert Shift(l, from, to).path[..|to.path|] == to.path;
  }

  lemma SameUnder(w: Loc, v: Loc, from: Loc, to: Loc)
    requires Below(w, from) && Below(v, from) && Below(Shift(w, from, to), Shift(v, from, to))
    ensures Below(w, v)
  {
    ShiftBack(w, from, to);
    ShiftBack(v, from, to);
    var w', v' := Shift(w, from, to), Shift(v, from, to);
    assert v'.path == w'.path[..|v'.path|];
    assert w.path == from.path + w'.path[|to.path|..] && v.path == from.path + v'.path[|to.path|..];
    assert w.path[..|v.path|] == v.path;
  }

  /** What is above the new place and not in it is above the old one. */
  lemma BesideUnder(w: Loc, v: Loc, from: Loc, to: Loc)
    requires from.path != [] && to.path != [] && Up(from) == Up(to) && Below(w, from) && !Below(v, to)
    requires Below(Shift(w, from, to), v)
    ensures Below(w, v)
  {
    var w' := Shift(w, from, to);
    assert w'.path[..|to.path|] == to.path && w.path[..|from.path|] == from.path;
    assert Below(to, v) by {
      PrefixEither(to, v, w');
    }
    assert v.path == to.path[..|v.path|] == Parent(to.path)[..|v.path|];
    assert from.path[..|v.path|] == Parent(from.path)[..|v.path|];
  }

  /** A rename inside a directory keeps every directory out of what it is not in. */
  lemma RenameClear(f: set<Item>, from: Loc, to: Loc, n: Node, l: Link)
    requires ForestOk(f) && CanRelink(f, from, to, n) && ForestOk(Relocated(f, from, to)) && Clear(f, l)
    requires from.path != [] && to.path != [] && Up(from) == Up(to)
    ensures Clear(Relocated(f, from, to), l)
  {
    DirShifts(f, from, to, n, l.toDir);
    PlaceFree(f, l.toDir, to);
    if l.node.isDirectory {
      DirShifts(f, from, to, n, l.node.id);
      PlaceFree(f, l.node.id, to);
      ShiftOrder(Where(f, l.toDir), Where(f, l.node.id), from, to);
    }
  }

  lemma RenameKeepsClear(s: State, dir: nat, name: Name, to: Name, links: seq<Link>)
    requires Inv(s) && CanRename(s, dir, name, to) && AllClear(s.forest, links)
    ensures AllClear(DoRename(s, dir, name, to).forest, links)
  {
    var g, f, n := s.graph, s.forest, Child(s.graph, dir, name).value;
    RenameOk(s, dir, name, to);
    EntryAt(g, f, dir, name);
    EntryAt(g, f, dir, to);
    SameDepth(At(f, dir, to), At(f, dir, name));
    forall l | l in links ensures Clear(DoRename(s, dir, name, to).forest, l) {
      RenameClear(f, At(f, dir, name), At(f, dir, to), n, l);
    }
  }

  // ---- The links of one move, one after the other ----

  lemma Downwards(w: Loc, x: Name)
    ensures Below(Down(w, x), w) && |Down(w, x).path| == |w.path| + 1
  {
    assert Down(w, x).path[..|w.path|] == w.path;
  }

  /** What is not in the subtree that goes there stays, and the subtree is not above it. */
  lemma AwayOrder(w: Loc, v: Loc, from: Loc, to: Loc)
    requires |w.path| < |to.path| && !Below(w, from)
    ensures Below(Shift(w, from, to), Shift(v, from, to)) <==> Below(w, v)
  {
    if Below(v, from) {
      ShiftedUnder(v, from, to);
      assert !Below(w, Shift(v, from, to));
      if Below(w, v) {
        BelowBelow(from, v, w);
      }
    }
  }

  lemma NothingInFile(f: set<Item>, l: Loc, n: Node, d: nat)
    requires ForestOk(f) && Item(l, n) in f && !n.isDirectory && Located(f, d) && l.path != []
    ensures !Below(Where(f, d), l)
  {
    WhereIs(f, d);
    if Below(Where(f, d), l) {
      var i :| i in f && i.loc == Where(f, d) && i.node.isDirectory;
      NotUnderFile(f, l, n, i);
    }
  }

  lemma FreeIsClear(g: Graph, f: set<Item>, l: Link)
    requires ForestOk(f) && Represents(g, f) && Free(f, l) && Child(g, l.dir, l.name) == Some(l.node)
    ensures Clear(f, l)
  {
    EntryAt(g, f, l.dir, l.name);
    if l.node.isDirectory {
      WhereOnly(f, From(f, l), l.node.id);
    }
  }

  lemma ClearIsFree(g: Graph, f: set<Item>, l: Link)
    requires ForestOk(f) && Represents(g, f) && Clear(f, l) && LinkLive(f, l) && Child(g, l.dir, l.name) == Some(l.node)
    ensures Free(f, l)
  {
    EntryAt(g, f, l.dir, l.name);
    if l.node.isDirectory {
      WhereOnly(f, From(f, l), l.node.id);
    } else {
      NothingInFile(f, From(f, l), l.node, l.toDir);
    }
  }

  lemma FreeNotBelow(g: Graph, f: set<Item>, l: Link)
    requires ForestOk(f) && Represents(g, f) && Free(f, l)
    requires Child(g, l.dir, l.name) == Some(l.node) && Child(g, l.toDir, l.toName).None?
    ensures !Below(To(f, l), From(f, l))
  {
    NextBelow(Where(f, l.toDir), l.toName, From(f, l));
    EntriesApart(f, l.dir, l.name, l.toDir, l.toName);
  }

  /** A link that is about to be made, in a tree where it may be. */
  ghost predicate Ready(g: Graph, f: set<Item>, next: nat, l: Link) {
    SpaceOk(g, f, next) && Free(f, l) && Child(g, l.dir, l.name) == Some(l.node) && Child(g, l.toDir, l.toName).None?
  }

  lemma Linked(g: Graph, f: set<Item>, next: nat, l: Link)
    requires Ready(g, f, next, l)
    ensures CanRelink(f, From(f, l), To(f, l), l.node) && !Below(To(f, l), From(f, l)) && |Where(f, l.toDir).path| < |To(f, l).path|
    ensures SpaceOk(LinkGraph(g, l), LinkForest(f, l), next)
  {
    FreeNotBelow(g, f, l);
    EntryMoves(g, f, next, l);
    Downwards(Where(f, l.toDir), l.toName);
  }

  /** One link changes nothing about whether another one to the same directory is clear. */
  lemma LinkClear(g: Graph, f: set<Item>, next: nat, l: Link, k: Link)
    requires Ready(g, f, next, l) && k.toDir == l.toDir && (k.node.isDirectory ==> Located(f, k.node.id))
    ensures Clear(LinkForest(f, l), k) <==> Clear(f, k)
  {
    var from, to := From(f, l), To(f, l);
    Linked(g, f, next, l);
    DirShifts(f, from, to, l.node, l.toDir);
    if k.node.isDirectory {
      DirShifts(f, from, to, l.node, k.node.id);
      AwayOrder(Where(f, l.toDir), Where(f, k.node.id), from, to);
    }
  }

  lemma LocatedBack(f: set<Item>, from: Loc, to: Loc, d: nat)
    requires Located(Relocated(f, from, to), d)
    ensures Located(f, d)
  {
    if d != RootNode.id {
      var j :| j in Relocated(f, from, to) && j.node.isDirectory && j.node.id == d;
      var i :| i in f && j == Item(Shift(i.loc, from, to), i.node);
    }
  }

  lemma LinkFree(g: Graph, f: set<Item>, next: nat, l: Link, k: Link)
    requires Ready(g, f, next, l) && k.toDir == l.toDir && Free(f, k)
    ensures Free(LinkForest(f, l), k)
  {
    var from, to := From(f, l), To(f, l);
    Linked(g, f, next, l);
    StaysLinkLive(g, f, next, l, k.dir);
    StaysLinkLive(g, f, next, l, k.toDir);
    DirShifts(f, from, to, l.node, l.toDir);
    DirShifts(f, from, to, l.node, k.dir);
    Downwards(Shift(Where(f, k.dir), from, to), k.name);
    if Below(Where(f, k.dir), from) {
      ShiftedUnder(Where(f, k.dir), from, to);
    }
  }

  /** A move that is not refused is clear when it is built. */
  lemma {:induction false} BuiltClear(g: Graph, f: set<Item>, next: nat, links: seq<Link>, dir: nat)
    requires SpaceOk(g, f, next) && Linkable(g, links) && forall l | l in links :: Free(f, l) && l.toDir == dir
    ensures AllClear(f, links)
    decreases |links|
  {
    if links != [] {
      var l, rest := links[0], links[1..];
      assert l in links && forall k | k in rest :: k in links;
      FreeIsClear(g, f, l);
      Linked(g, f, next, l);
      forall k | k in rest ensures Free(LinkForest(f, l), k) {
        LinkFree(g, f, next, l, k);
      }
      BuiltClear(LinkGraph(g, l), LinkForest(f, l), next, rest, dir);
      forall k | k in links ensures Clear(f, k) {
        if k != l {
          RestClear(g, f, next, l, k);
        }
      }
    }
  }

  lemma RestClear(g: Graph, f: set<Item>, next: nat, l: Link, k: Link)
    requires Ready(g, f, next, l) && k.toDir == l.toDir && Clear(LinkForest(f, l), k)
    ensures Clear(f, k)
  {
    if k.node.isDirectory {
      LocatedBack(f, From(f, l), To(f, l), k.node.id);
    }
    LinkClear(g, f, next, l, k);
  }

  /** What is clear when it commits is safe. */
  lemma {:induction false} ClearIsSafe(g: Graph, f: set<Item>, next: nat, links: seq<Link>, dir: nat)
    requires SpaceOk(g, f, next) && Linkable(g, links) && AllClear(f, links) && forall l | l in links :: LinkLive(f, l) && l.toDir == dir
    ensures SafeLinks(f, links)
    decreases |links|
  {
    if links != [] {
      var l, rest := links[0], links[1..];
      assert l in links && forall k | k in rest :: k in links;
      ClearIsFree(g, f, l);
      Linked(g, f, next, l);
      forall k | k in rest ensures Clear(LinkForest(f, l), k) && LinkLive(LinkForest(f, l), k) {
        LinkClear(g, f, next, l, k);
        StaysLinkLive(g, f, next, l, k.dir);
        StaysLinkLive(g, f, next, l, k.toDir);
      }
      ClearIsSafe(LinkGraph(g, l), LinkForest(f, l), next, rest, dir);
    }
  }

  // ---- Runs in global mode ----

  ghost predicate Global(l: Step) {
    l.Begin? ==> GlobalFence in l.fences
  }

  /** The conditions that are left: of a move it is only asked that its leases have not run out. */
  ghost predicate GoodStep(s: State, l: Step) {
    if l.Commit? && l.op in s.ops && s.ops[l.op].plan.Some? && s.ops[l.op].plan.value.Move? then !s.ops[l.op].lapsed else SafeStep(s, l)
  }

  ghost predicate GlobalOk(f: set<Item>, op: Op) {
    && (op.fences != {} || op.plan.Some? ==> GlobalFence in op.fences)
    && (op.plan.Some? && op.plan.value.Move? && !op.lapsed ==> AllClear(f, op.plan.value.links))
  }

  ghost predicate GlobalInv(s: State) {
    Inv(s) && forall o | o in s.ops :: GlobalOk(s.forest, s.ops[o])
  }

  lemma MoveBuilt(s: State, o: OpId, c: Change, count: Stats, insists: bool)
    requires Inv(s) && CanBuild(s, o, c, count, insists) && c.Move?
    ensures AllClear(s.forest, c.links)
  {
    forall l | l in c.links ensures Free(s.forest, l) && l.toDir == c.links[0].toDir {
      assert LinkLive(s.forest, l) && !Below(To(s.forest, l), From(s.forest, l));
      Downwards(Where(s.forest, l.toDir), l.toName);
      if Below(Where(s.forest, l.toDir), From(s.forest, l)) {
        BelowBelow(From(s.forest, l), Where(s.forest, l.toDir), To(s.forest, l));
      }
    }
    BuiltClear(s.graph, s.forest, s.next, c.links, c.links[0].toDir);
  }

  lemma MoveSafe(s: State, o: OpId)
    requires GlobalInv(s) && Enabled(s, Commit(o)) && s.ops[o].plan.value.Move? && !s.ops[o].lapsed
    ensures Safe(s.graph, s.forest, s.ops[o].plan.value, s.ops[o].derived)
  {
    var links := s.ops[o].plan.value.links;
    assert OpOk(s, o) && GlobalOk(s.forest, s.ops[o]);
    ClearIsSafe(s.graph, s.forest, s.next, links, links[0].toDir);
  }

  /** While one operation commits under leases that hold, nobody else's have not run out. */
  lemma OneAtATime(s: State, o: OpId, q: OpId)
    requires GlobalInv(s) && o in s.ops && q in s.ops && q != o && !s.ops[o].lapsed && s.ops[o].plan.Some?
    ensures s.ops[q].lapsed || s.ops[q].plan.None?
  {
    assert GlobalOk(s.forest, s.ops[o]) && GlobalOk(s.forest, s.ops[q]);
    if !s.ops[q].lapsed {
      FencesOf(s, o, q);
      assert Clash(GlobalFence, GlobalFence);
    }
  }

  lemma OthersGlobal(s: State, l: Step, q: OpId)
    requires GlobalInv(s) && Enabled(s, l) && SafeStep(s, l) && q in s.ops && q in Next(s, l).ops && Next(s, l).ops[q] == s.ops[q]
    ensures GlobalOk(Next(s, l).forest, s.ops[q])
  {
    assert GlobalOk(s.forest, s.ops[q]);
    if s.ops[q].plan.Some? && s.ops[q].plan.value.Move? && !s.ops[q].lapsed {
      if l.Commit? {
        OneAtATime(s, l.op, q);
      } else if l.Rename? {
        RenameKeepsClear(s, l.dir, l.name, l.to, s.ops[q].plan.value.links);
      }
    }
  }

  lemma OwnGlobal(s: State, l: Step, q: OpId)
    requires GlobalInv(s) && Enabled(s, l) && Global(l) && q in Next(s, l).ops && (q in s.ops ==> Next(s, l).ops[q] != s.ops[q])
    ensures GlobalOk(Next(s, l).forest, Next(s, l).ops[q])
  {
    if q in s.ops {
      assert GlobalOk(s.forest, s.ops[q]);
    }
    if l.Build? {
      AssignedIsDelta(s.graph, s.forest, s.ops[l.op], l.change, l.count);
      if l.change.Move? {
        MoveBuilt(s, l.op, l.change, l.count, l.insists);
      }
    }
  }

  /** With the same lease for everybody, moves are safe of themselves, and stay so. */
  lemma GlobalStep(s: State, l: Step)
    requires GlobalInv(s) && Enabled(s, l) && Global(l) && GoodStep(s, l)
    ensures SafeStep(s, l) && GlobalInv(Next(s, l))
  {
    if l.Commit? && s.ops[l.op].plan.value.Move? {
      MoveSafe(s, l.op);
    }
    StepInv(s, l);
    forall q | q in Next(s, l).ops ensures GlobalOk(Next(s, l).forest, Next(s, l).ops[q]) {
      if q in s.ops && Next(s, l).ops[q] == s.ops[q] {
        OthersGlobal(s, l, q);
      } else {
        OwnGlobal(s, l, q);
      }
    }
  }

  datatype Run = Run(states: seq<State>, steps: seq<Step>)

  ghost predicate StepAt(r: Run, i: nat)
    requires i < |r.steps| < |r.states|
  {
    && Enabled(r.states[i], r.steps[i]) && Global(r.steps[i]) && GoodStep(r.states[i], r.steps[i])
    && r.states[i + 1] == Next(r.states[i], r.steps[i])
  }

  ghost predicate Valid(r: Run) {
    |r.states| == |r.steps| + 1 && Inv(r.states[0]) && r.states[0].ops == map[] && forall i: nat | i < |r.steps| :: StepAt(r, i)
  }

  /** Over whole runs in global mode, from any tree: all counts change by what is handed over, and
      no move ever puts a directory below itself, without anybody having to see to it. */
  lemma GlobalRun(r: Run, n: nat)
    requires Valid(r) && n < |r.steps|
    ensures SafeStep(r.states[n], r.steps[n]) && Inv(r.states[n + 1])
    ensures Conserves(r.states[n].forest, r.states[n + 1].forest, Handed(r.states[n], r.steps[n]))
  {
    for i := 0 to n
      invariant GlobalInv(r.states[i])
    {
      assert StepAt(r, i);
      GlobalStep(r.states[i], r.steps[i]);
    }
    assert StepAt(r, n);
    GlobalStep(r.states[n], r.steps[n]);
    StepConserves(r.states[n], r.steps[n]);
  }
}
