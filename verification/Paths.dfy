/** Logical paths as sequences of non-empty segments, and the normalization of a set of paths
    to the roots that cover them. */
module Paths {
  import opened Wrappers

  type Name = string
  type Path = seq<Name>

  function Parent(p: Path): Path
    requires p != []
  {
    p[..|p| - 1]
  }

  function Base(p: Path): Name
    requires p != []
  {
    p[|p| - 1]
  }

  /** The number of characters of the joined path. */
  function Length(p: Path): nat {
    if p == [] then 0 else |p[0]| + (if |p| == 1 then 0 else 1 + Length(p[1..]))
  }

  lemma {:induction false} LengthOfJoin(a: Path, b: Path)
    requires a != [] && b != []
    ensures Length(a + b) == Length(a) + 1 + Length(b)
  {
    assert (a + b)[1..] == a[1..] + b;
    if |a| > 1 {
      LengthOfJoin(a[1..], b);
    } else {
      assert a[1..] + b == b;
    }
  }

  lemma ShorterThanBelow(root: Path, p: Path)
    requires root < p && root != []
    ensures Length(root) < Length(p)
  {
    assert p == root + p[|root|..];
    LengthOfJoin(root, p[|root|..]);
  }

  /** No path of the list is inside another, and none is listed twice. */
  predicate Antichain(roots: seq<Path>) {
    forall i, j | 0 <= i < |roots| && 0 <= j < |roots| && i != j :: !(roots[i] <= roots[j])
  }

  predicate Topmost(paths: seq<Path>, p: Path) {
    p in paths && forall q | q in paths :: !(q < p)
  }

  predicate ByKey<T>(items: seq<T>, key: T -> nat) {
    forall i, j | 0 <= i < j < |items| :: key(items[i]) <= key(items[j])
  }

  predicate ByLength(paths: seq<Path>) {
    forall i, j | 0 <= i < j < |paths| :: Length(paths[i]) <= Length(paths[j])
  }

  lemma LengthIsKey(paths: seq<Path>)
    requires ByKey(paths, Length)
    ensures ByLength(paths)
  {
    forall i, j | 0 <= i < j < |paths| ensures Length(paths[i]) <= Length(paths[j]) {
      assert Length.requires(paths[i]) && Length(paths[i]) <= Length(paths[j]);
    }
  }

  /** The roots of a list of paths: its topmost paths, each once, shortest first. */
  ghost predicate RootsOf(roots: seq<Path>, paths: seq<Path>) {
    && Antichain(roots)
    && ByLength(roots)
    && (forall p :: p in roots <==> Topmost(paths, p))
  }

  datatype RootsError = RootPath | NoPaths

  /** Sorts by a key; nothing is promised about items of equal keys. */
  method SortBy<T>(items: seq<T>, key: T -> nat) returns (sorted: seq<T>)
    ensures ByKey(sorted, key) && multiset(sorted) == multiset(items)
  {
    sorted := [];
    for i := 0 to |items|
      invariant ByKey(sorted, key) && multiset(sorted) == multiset(items[..i])
    {
      var k := |sorted|;
      while 0 < k && key(items[i]) < key(sorted[k - 1])
        invariant 0 <= k <= |sorted|
        invariant forall j | k <= j < |sorted| :: key(items[i]) <= key(sorted[j])
      {
        k := k - 1;
      }
      InsertSorted(sorted, k, items[i], key);
      sorted := Insert(sorted, k, items[i]);
      assert items[..i + 1] == items[..i] + [items[i]];
    }
    assert items[..|items|] == items;
  }

  function Insert<T>(s: seq<T>, k: nat, x: T): seq<T>
    requires k <= |s|
  {
    s[..k] + [x] + s[k..]
  }

  lemma InsertAt<T>(s: seq<T>, k: nat, x: T, j: nat)
    requires k <= |s| && j <= |s|
    ensures |Insert(s, k, x)| == |s| + 1
    ensures Insert(s, k, x)[j] == if j < k then s[j] else if j == k then x else s[j - 1]
  {
  }

  lemma InsertSorted<T>(s: seq<T>, k: nat, x: T, key: T -> nat)
    requires k <= |s| && ByKey(s, key)
    requires forall j | k <= j < |s| :: key(x) <= key(s[j])
    requires 0 < k ==> key(s[k - 1]) <= key(x)
    ensures ByKey(Insert(s, k, x), key) && multiset(Insert(s, k, x)) == multiset(s) + multiset{x}
  {
    var r := Insert(s, k, x);
    forall i, j | 0 <= i < j < |r| ensures key(r[i]) <= key(r[j]) {
      InsertAt(s, k, x, i);
      InsertAt(s, k, x, j);
    }
    InsertMembers(s, k, x);
  }

  lemma InsertMembers<T>(s: seq<T>, k: nat, x: T)
    requires k <= |s|
    ensures multiset(Insert(s, k, x)) == multiset(s) + multiset{x}
  {
    assert s == s[..k] + s[k..];
  }

  method Distinct(paths: seq<Path>) returns (r: Result<seq<Path>, RootsError>)
    ensures r.Err? <==> [] in paths
    ensures r.Err? ==> r.error == RootPath
    ensures r.Ok? ==> (r.value == [] <==> paths == []) && forall p :: p in r.value <==> p in paths
    ensures r.Ok? ==> forall i, j | 0 <= i < j < |r.value| :: r.value[i] != r.value[j]
  {
    var seen: set<Path>, roots: seq<Path> := {}, [];
    for i := 0 to |paths|
      invariant [] !in paths[..i] && (roots == [] <==> i == 0)
      invariant forall p :: p in seen <==> p in paths[..i]
      invariant forall p :: p in roots <==> p in paths[..i]
      invariant forall j, k | 0 <= j < k < |roots| :: roots[j] != roots[k]
    {
      var path := paths[i];
      assert paths[..i + 1] == paths[..i] + [path];
      if path == [] {
        return Err(RootPath);
      }
      if path !in seen {
        seen, roots := seen + {path}, roots + [path];
      }
    }
    assert paths[..|paths|] == paths;
    r := Ok(roots);
  }

  method Nested(roots: seq<Path>, p: Path) returns (nested: bool)
    ensures nested <==> exists k | 0 <= k < |roots| :: roots[k] < p
  {
    for j := 0 to |roots|
      invariant forall k | 0 <= k < j :: !(roots[k] < p)
    {
      if roots[j] < p {
        return true;
      }
    }
    nested := false;
  }

  /** Shortest first, a path is dropped when a root already kept contains it. */
  method NormalizeRoots(paths: seq<Path>) returns (r: Result<seq<Path>, RootsError>)
    ensures r.Err? <==> paths == [] || [] in paths
    ensures r == Err(NoPaths) <==> paths == []
    ensures r.Ok? ==> r.value != [] && RootsOf(r.value, paths)
  {
    var distinct := Distinct(paths);
    if distinct.Err? {
      return distinct;
    }
    if distinct.value == [] {
      return Err(NoPaths);
    }
    assert distinct.value[0] in paths;
    var sorted := SortBy(distinct.value, Length);
    LengthIsKey(sorted);
    SameMembers(sorted, distinct.value);
    assert sorted != [] by {
      assert distinct.value[0] in sorted;
    }
    var roots := KeepTopmost(sorted);
    KeptAreRoots(roots, sorted, paths);
    r := Ok(roots);
  }

  method KeepTopmost(sorted: seq<Path>) returns (roots: seq<Path>)
    requires ByLength(sorted) && forall j, k | 0 <= j < k < |sorted| :: sorted[j] != sorted[k]
    ensures Kept(roots, sorted, |sorted|) && (sorted != [] ==> roots != [])
  {
    roots := [];
    for i := 0 to |sorted|
      invariant Kept(roots, sorted, i) && (i > 0 ==> roots != [])
    {
      var nested := Nested(roots, sorted[i]);
      if nested {
        KeepNested(roots, sorted, i);
      } else {
        KeepFresh(roots, sorted, i);
        roots := roots + [sorted[i]];
      }
    }
  }

  lemma SameMembers<T>(a: seq<T>, b: seq<T>)
    requires multiset(a) == multiset(b)
    requires forall i, j | 0 <= i < j < |b| :: b[i] != b[j]
    ensures forall p :: p in a <==> p in b
    ensures forall i, j | 0 <= i < j < |a| :: a[i] != a[j]
  {
    forall p ensures p in a <==> p in b {
      assert p in multiset(a) <==> p in multiset(b);
    }
    forall i, j | 0 <= i < j < |a| ensures a[i] != a[j] {
      Once(b, a[i]);
      Twice(a, i, j);
    }
  }

  lemma Twice<T>(a: seq<T>, i: nat, j: nat)
    requires i < j < |a|
    ensures a[i] == a[j] ==> multiset(a)[a[i]] >= 2
  {
    assert a == a[..j] + a[j..];
    assert a[i] in a[..j] && a[j] in a[j..];
  }

  lemma {:induction false} Once<T>(b: seq<T>, p: T)
    requires forall i, j | 0 <= i < j < |b| :: b[i] != b[j]
    ensures multiset(b)[p] <= 1
  {
    if b != [] {
      Once(b[1..], p);
      assert b == [b[0]] + b[1..];
      if b[0] == p {
        assert p !in b[1..];
      }
    }
  }

  predicate Covered(roots: seq<Path>, p: Path) {
    exists k | 0 <= k < |roots| :: roots[k] <= p
  }

  predicate Among(sorted: seq<Path>, i: nat, p: Path)
    requires i <= |sorted|
  {
    exists j | 0 <= j < i :: sorted[j] == p
  }

  /** After i paths: those kept are in order, none is inside an earlier one, and every path so
      far is inside one of them. */
  predicate Kept(roots: seq<Path>, sorted: seq<Path>, i: nat)
    requires i <= |sorted|
  {
    && ByLength(roots)
    && (forall k | 0 <= k < |roots| :: Among(sorted, i, roots[k]))
    && NoneInsideEarlier(roots)
    && (forall k | 0 <= k < i :: Covered(roots, sorted[k]))
  }

  predicate NoneInsideEarlier(roots: seq<Path>) {
    forall j, k | 0 <= j < k < |roots| :: !(roots[j] <= roots[k])
  }

  lemma CoveredMore(roots: seq<Path>, p: Path, q: Path)
    requires Covered(roots, q) || p <= q
    ensures Covered(roots + [p], q)
  {
    if p <= q {
      assert (roots + [p])[|roots|] <= q;
    } else {
      var k :| 0 <= k < |roots| && roots[k] <= q;
      assert (roots + [p])[k] <= q;
    }
  }

  lemma AmongMore(sorted: seq<Path>, i: nat, p: Path)
    requires i < |sorted| && Among(sorted, i, p)
    ensures Among(sorted, i + 1, p)
  {
  }

  lemma KeepNested(roots: seq<Path>, sorted: seq<Path>, i: nat)
    requires i < |sorted| && Kept(roots, sorted, i)
    requires exists k | 0 <= k < |roots| :: roots[k] < sorted[i]
    ensures Kept(roots, sorted, i + 1)
  {
    forall k | 0 <= k < |roots| ensures Among(sorted, i + 1, roots[k]) {
      AmongMore(sorted, i, roots[k]);
    }
    forall k | 0 <= k < i + 1 ensures Covered(roots, sorted[k]) {
      if k == i {
        CoveredInside(roots, sorted[i]);
      }
    }
  }

  lemma CoveredInside(roots: seq<Path>, p: Path)
    requires exists k | 0 <= k < |roots| :: roots[k] < p
    ensures Covered(roots, p)
  {
    var k :| 0 <= k < |roots| && roots[k] < p;
    assert roots[k] <= p;
  }

  lemma EarlierOutside(roots: seq<Path>, sorted: seq<Path>, i: nat, k: nat)
    requires i < |sorted| && k < |roots| && Among(sorted, i, roots[k]) && ByLength(sorted)
    requires forall a, b | 0 <= a < b < |sorted| :: sorted[a] != sorted[b]
    requires !(roots[k] < sorted[i])
    ensures Length(roots[k]) <= Length(sorted[i]) && !(roots[k] <= sorted[i])
  {
    var j :| 0 <= j < i && sorted[j] == roots[k];
  }

  lemma KeepFresh(roots: seq<Path>, sorted: seq<Path>, i: nat)
    requires i < |sorted| && Kept(roots, sorted, i) && ByLength(sorted)
    requires forall j, k | 0 <= j < k < |sorted| :: sorted[j] != sorted[k]
    requires forall k | 0 <= k < |roots| :: !(roots[k] < sorted[i])
    ensures Kept(roots + [sorted[i]], sorted, i + 1)
  {
    var p := sorted[i];
    forall k | 0 <= k < |roots| ensures Length(roots[k]) <= Length(p) && !(roots[k] <= p) {
      EarlierOutside(roots, sorted, i, k);
    }
    Append(roots, p);
    var roots' := roots + [p];
    forall k | 0 <= k < |roots'| ensures Among(sorted, i + 1, roots'[k]) {
      if k < |roots| {
        AmongMore(sorted, i, roots[k]);
      }
    }
    forall k | 0 <= k < i + 1 ensures Covered(roots', sorted[k]) {
      CoveredMore(roots, p, sorted[k]);
    }
  }

  lemma Append(roots: seq<Path>, p: Path)
    requires ByLength(roots) && NoneInsideEarlier(roots)
    requires forall k | 0 <= k < |roots| :: Length(roots[k]) <= Length(p) && !(roots[k] <= p)
    ensures ByLength(roots + [p]) && NoneInsideEarlier(roots + [p])
  {
  }

  lemma KeptAntichain(roots: seq<Path>, sorted: seq<Path>)
    requires Kept(roots, sorted, |sorted|) && [] !in sorted
    ensures Antichain(roots)
  {
    forall i, j | 0 <= i < |roots| && 0 <= j < |roots| && i != j ensures !(roots[i] <= roots[j]) {
      if j < i && roots[i] <= roots[j] {
        assert Among(sorted, |sorted|, roots[i]);
        assert roots[i] != roots[j];
        ShorterThanBelow(roots[i], roots[j]);
      }
    }
  }

  lemma KeptTopmost(roots: seq<Path>, sorted: seq<Path>, paths: seq<Path>, p: Path)
    requires Kept(roots, sorted, |sorted|) && Antichain(roots)
    requires forall q :: q in sorted <==> q in paths
    ensures p in roots <==> Topmost(paths, p)
  {
    if j :| 0 <= j < |roots| && roots[j] == p {
      assert Among(sorted, |sorted|, roots[j]);
      forall q | q in paths ensures !(q < p) {
        var i :| 0 <= i < |sorted| && sorted[i] == q;
        assert Covered(roots, sorted[i]);
        var k :| 0 <= k < |roots| && roots[k] <= q;
        assert k == j || !(roots[k] <= roots[j]);
      }
    }
    if Topmost(paths, p) {
      var i :| 0 <= i < |sorted| && sorted[i] == p;
      assert Covered(roots, sorted[i]);
      var k :| 0 <= k < |roots| && roots[k] <= p;
      assert Among(sorted, |sorted|, roots[k]);
      assert roots[k] in paths && !(roots[k] < p);
      assert roots[k] == p;
    }
  }

  lemma KeptAreRoots(roots: seq<Path>, sorted: seq<Path>, paths: seq<Path>)
    requires Kept(roots, sorted, |sorted|) && [] !in sorted
    requires forall p :: p in sorted <==> p in paths
    ensures RootsOf(roots, paths)
  {
    KeptAntichain(roots, sorted);
    forall p ensures p in roots <==> Topmost(paths, p) {
      KeptTopmost(roots, sorted, paths, p);
    }
  }

  lemma NoEmptyRoot(roots: seq<Path>, paths: seq<Path>)
    requires RootsOf(roots, paths) && [] !in paths
    ensures [] !in roots
  {
    assert !Topmost(paths, []);
  }

  /** Every path is inside exactly the root that a caller would expect. */
  lemma {:induction false} RootsCover(roots: seq<Path>, paths: seq<Path>, p: Path) returns (root: Path)
    requires RootsOf(roots, paths) && p in paths
    ensures root in roots && root <= p
    ensures forall other | other in roots && other <= p :: other == root
    decreases |p|
  {
    if Topmost(paths, p) {
      root := p;
    } else {
      var q :| q in paths && q < p;
      root := RootsCover(roots, paths, q);
    }
    forall other | other in roots && other <= p ensures other == root {
      var i :| 0 <= i < |roots| && roots[i] == root;
      var j :| 0 <= j < |roots| && roots[j] == other;
      assert root <= other || other <= root;
    }
  }
}
