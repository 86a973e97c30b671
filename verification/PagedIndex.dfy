/** The V3 directory index: immutable pages of at most 256 records under a manifest of page
    descriptors whose totals stand for all stored records. */
module PagedIndex {
  import opened Paths
  import opened Summaries

  /** A child record; key is its position in the order that pages are sorted by. */
  datatype Record = Record(path: Path, key: nat, isDirectory: bool, size: nat, below: Summary)
  datatype Descriptor = Descriptor(page: nat, count: nat, first: nat, last: nat, directBytes: nat, subtree: Summary)
  datatype Manifest = Manifest(pages: seq<Descriptor>, total: int, directBytes: int, subtree: Summary)

  const PageSize := 256

  function Key(r: Record): nat {
    r.key
  }

  // ---- Sums over records ----

  function RecordSummary(r: Record): Summary {
    if r.isDirectory then Plus(Summary(0, 1, 0), r.below) else Summary(1, 0, r.size)
  }

  function Subtree(records: seq<Record>): Summary {
    if records == [] then Summary(0, 0, 0)
    else Plus(Subtree(records[..|records| - 1]), RecordSummary(records[|records| - 1]))
  }

  function DirectBytes(records: seq<Record>): nat {
    if records == [] then 0
    else DirectBytes(records[..|records| - 1]) + if records[|records| - 1].isDirectory then 0 else records[|records| - 1].size
  }

  lemma PlusAssociates(a: Summary, b: Summary, c: Summary)
    ensures Plus(Plus(a, b), c) == Plus(a, Plus(b, c)) && Plus(a, Summary(0, 0, 0)) == a
  {
  }

  lemma LastOfJoin(a: seq<Record>, b: seq<Record>)
    requires b != []
    ensures a + b != [] && (a + b)[..|a + b| - 1] == a + b[..|b| - 1] && (a + b)[|a + b| - 1] == b[|b| - 1]
  {
  }

  lemma {:induction false} SubtreeJoin(a: seq<Record>, b: seq<Record>)
    ensures Subtree(a + b) == Plus(Subtree(a), Subtree(b))
    decreases |b|
  {
    if b == [] {
      assert a + b == a;
      PlusAssociates(Subtree(a), Subtree(b), Subtree(b));
    } else {
      LastOfJoin(a, b);
      SubtreeJoin(a, b[..|b| - 1]);
      PlusAssociates(Subtree(a), Subtree(b[..|b| - 1]), RecordSummary(b[|b| - 1]));
    }
  }

  lemma {:induction false} DirectJoin(a: seq<Record>, b: seq<Record>)
    ensures DirectBytes(a + b) == DirectBytes(a) + DirectBytes(b)
    decreases |b|
  {
    if b == [] {
      assert a + b == a;
    } else {
      LastOfJoin(a, b);
      DirectJoin(a, b[..|b| - 1]);
    }
  }

  // ---- What the sums count ----

  /** A record together with what is below it. */
  datatype Branch = Branch(record: Record, children: seq<Branch>)

  function Records(bs: seq<Branch>): seq<Record> {
    seq(|bs|, i requires 0 <= i < |bs| => bs[i].record)
  }

  /** Everything in the branches, at every depth. */
  function Flat(bs: seq<Branch>): seq<Record> {
    if bs == [] then []
    else
      var b := bs[|bs| - 1];
      Flat(bs[..|bs| - 1]) + [b.record] + Flat(b.children)
  }

  /** Every directory record carries the totals of the index of that directory; files have none. */
  predicate Carried(bs: seq<Branch>) {
    forall b | b in bs :: CarriedBelow(b)
  }

  predicate CarriedBelow(b: Branch) {
    && (if b.record.isDirectory then b.record.below == Subtree(Records(b.children)) else b.children == [])
    && forall c | c in b.children :: CarriedBelow(c)
  }

  /** What one record is: a directory, or a file of its size. */
  function One(r: Record): Summary {
    if r.isDirectory then Summary(0, 1, 0) else Summary(1, 0, r.size)
  }

  /** The files and directories of a list one by one, and the size of the files. */
  function Census(records: seq<Record>): Summary {
    if records == [] then Summary(0, 0, 0)
    else Plus(Census(records[..|records| - 1]), One(records[|records| - 1]))
  }

  lemma {:induction false} CensusJoin(a: seq<Record>, b: seq<Record>)
    ensures Census(a + b) == Plus(Census(a), Census(b))
    decreases |b|
  {
    if b == [] {
      assert a + b == a;
      PlusAssociates(Census(a), Census(b), Census(b));
    } else {
      LastOfJoin(a, b);
      CensusJoin(a, b[..|b| - 1]);
      PlusAssociates(Census(a), Census(b[..|b| - 1]), One(b[|b| - 1]));
    }
  }

  /** If every directory record carries the totals of its own index, the totals of an index are
      the census of everything below, at any depth. */
  lemma {:induction false} SubtreeIsCensus(bs: seq<Branch>)
    requires Carried(bs)
    ensures Subtree(Records(bs)) == Census(Flat(bs))
  {
    if bs == [] {
      assert Records(bs) == [];
    } else {
      var front, b := bs[..|bs| - 1], bs[|bs| - 1];
      assert b in bs && CarriedBelow(b);
      SubtreeIsCensus(front);
      SubtreeIsCensus(b.children);
      assert Records(bs)[..|bs| - 1] == Records(front);
      CensusOfBranch(Flat(front), b.record, Flat(b.children));
    }
  }

  lemma CensusOfBranch(front: seq<Record>, r: Record, below: seq<Record>)
    requires if r.isDirectory then r.below == Census(below) else below == []
    ensures Census(front + [r] + below) == Plus(Census(front), RecordSummary(r))
  {
    var all := front + [r];
    CensusAdd(front, r);
    if r.isDirectory {
      CensusJoin(all, below);
      PlusAssociates(Census(front), One(r), r.below);
    } else {
      assert all + below == all;
    }
  }

  lemma CensusAdd(records: seq<Record>, r: Record)
    ensures Census(records + [r]) == Plus(Census(records), One(r))
  {
    assert (records + [r])[..|records|] == records;
  }

  /** All stored records, page after page. */
  function Concat(pages: seq<seq<Record>>): seq<Record> {
    if pages == [] then [] else Concat(pages[..|pages| - 1]) + pages[|pages| - 1]
  }

  lemma {:induction false} ConcatJoin(a: seq<seq<Record>>, b: seq<seq<Record>>)
    ensures Concat(a + b) == Concat(a) + Concat(b)
    decreases |b|
  {
    if b == [] {
      assert a + b == a;
    } else {
      var front := b[..|b| - 1];
      ConcatJoin(a, front);
      LastPage(a, b);
      Associates(Concat(a), Concat(front), b[|b| - 1]);
    }
  }

  lemma LastPage(a: seq<seq<Record>>, b: seq<seq<Record>>)
    requires b != []
    ensures Concat(a + b) == Concat(a + b[..|b| - 1]) + b[|b| - 1]
  {
    assert (a + b)[..|a + b| - 1] == a + b[..|b| - 1];
  }

  lemma Associates(a: seq<Record>, b: seq<Record>, c: seq<Record>)
    ensures (a + b) + c == a + (b + c)
  {
  }

  lemma {:induction false} InConcat(pages: seq<seq<Record>>, r: Record)
    ensures r in Concat(pages) <==> exists i | 0 <= i < |pages| :: r in pages[i]
  {
    if pages != [] {
      InConcat(pages[..|pages| - 1], r);
      assert r in Concat(pages) ==> r in Concat(pages[..|pages| - 1]) || r in pages[|pages| - 1];
      if i :| 0 <= i < |pages| && r in pages[i] {
        assert i < |pages| - 1 ==> pages[..|pages| - 1][i] == pages[i];
      }
    }
  }

  // ---- Pages and descriptors ----

  predicate Sized(page: seq<Record>) {
    0 < |page| <= PageSize && ByKey(page, Key)
  }

  predicate Describes(d: Descriptor, page: seq<Record>) {
    && Sized(page) && d.count == |page| && d.first == page[0].key && d.last == page[|page| - 1].key
    && d.directBytes == DirectBytes(page) && d.subtree == Subtree(page)
  }

  ghost predicate AllDescribed(objects: map<nat, seq<Record>>, ds: seq<Descriptor>, pages: seq<seq<Record>>) {
    |ds| == |pages| && forall i | 0 <= i < |ds| :: ds[i].page in objects && objects[ds[i].page] == pages[i] && Describes(ds[i], pages[i])
  }

  /** The chunks of a list: 256 records each in the order given, and each chunk sorted. */
  ghost predicate ChunksOf(records: seq<Record>, chunks: seq<seq<Record>>) {
    && |chunks| == (|records| + PageSize - 1) / PageSize
    && forall i | 0 <= i < |chunks| :: Sized(chunks[i]) && multiset(chunks[i]) == multiset(ChunkAt(records, i))
  }

  function ChunkAt(records: seq<Record>, i: nat): seq<Record>
    requires i < (|records| + PageSize - 1) / PageSize
  {
    records[i * PageSize..if (i + 1) * PageSize < |records| then (i + 1) * PageSize else |records|]
  }

  // ---- Changing one page ----

  function Upsert(records: seq<Record>, r: Record): seq<Record> {
    if records == [] then [r]
    else if records[0].path == r.path then [r] + records[1..]
    else [records[0]] + Upsert(records[1..], r)
  }

  function Without(records: seq<Record>, p: Path): seq<Record> {
    if records == [] then []
    else Without(records[..|records| - 1], p) + if records[|records| - 1].path == p then [] else [records[|records| - 1]]
  }

  method UpsertRecord(records: seq<Record>, r: Record) returns (out: seq<Record>)
    ensures out == Upsert(records, r)
  {
    for i := 0 to |records|
      invariant Upsert(records, r) == records[..i] + Upsert(records[i..], r)
    {
      assert records[i..][0] == records[i] && records[i..][1..] == records[i + 1..];
      if records[i].path == r.path {
        assert records[..i] + ([r] + records[i + 1..]) == records[i := r];
        return records[i := r];
      }
      assert records[..i] + ([records[i]] + Upsert(records[i + 1..], r)) == records[..i + 1] + Upsert(records[i + 1..], r);
    }
    out := records + [r];
    assert records[..|records|] == records;
  }

  method RemoveRecord(records: seq<Record>, p: Path) returns (out: seq<Record>)
    ensures out == Without(records, p)
  {
    out := [];
    for i := 0 to |records|
      invariant out == Without(records[..i], p)
    {
      assert records[..i + 1][..i] == records[..i];
      if records[i].path != p {
        out := out + [records[i]];
      }
    }
    assert records[..|records|] == records;
  }

  /** The page a key belongs to: the first one whose last key is not below it, or the last page. */
  function Chosen(pages: seq<seq<Record>>, key: nat): int
    requires forall i | 0 <= i < |pages| :: pages[i] != []
  {
    FirstFrom(pages, key, 0)
  }

  function FirstFrom(pages: seq<seq<Record>>, key: nat, i: nat): int
    requires i <= |pages| && forall j | 0 <= j < |pages| :: pages[j] != []
    decreases |pages| - i
  {
    if i == |pages| then |pages| - 1
    else if key <= pages[i][|pages[i]| - 1].key then i
    else FirstFrom(pages, key, i + 1)
  }

  function Changed(page: seq<Record>, r: Record, remove: bool): seq<Record> {
    if remove then Without(page, r.path) else Upsert(page, r)
  }

  /** One update of the index: the chosen page is replaced by the chunks of its changed records. */
  ghost predicate Updated(pages: seq<seq<Record>>, r: Record, remove: bool, pages': seq<seq<Record>>)
    requires forall i | 0 <= i < |pages| :: pages[i] != []
  {
    var pi := Chosen(pages, r.key);
    if pages == [] then ChunksOf(Changed([], r, remove), pages')
    else 0 <= pi < |pages| && exists chunks :: ChunksOf(Changed(pages[pi], r, remove), chunks) && pages' == pages[..pi] + chunks + pages[pi + 1..]
  }

  class DirectoryIndex {
    var objects: map<nat, seq<Record>>
    var nextPage: nat
    var manifest: Manifest
    ghost var pages: seq<seq<Record>>

    /** Every page has between one and 256 records, sorted; descriptors say what their pages
        hold; and the totals of the manifest are the sums over all stored records. */
    ghost predicate Valid()
      reads this
    {
      && AllDescribed(objects, manifest.pages, pages) && (forall id | id in objects :: id < nextPage)
      && manifest.total == |Concat(pages)| && manifest.directBytes == DirectBytes(Concat(pages))
      && manifest.subtree == Subtree(Concat(pages))
    }

    constructor ()
      ensures Valid() && pages == []
    {
      objects, nextPage, manifest, pages := map[], 0, Manifest([], 0, 0, Summary(0, 0, 0)), [];
    }

    /** Sorts the records and stores them as a new page. */
    method PutPage(records: seq<Record>) returns (d: Descriptor, ghost page: seq<Record>)
      requires 0 < |records| <= PageSize && forall id | id in objects :: id < nextPage
      modifies this`objects, this`nextPage
      ensures multiset(page) == multiset(records) && Describes(d, page)
      ensures d.page == old(nextPage) && nextPage == old(nextPage) + 1 && objects == old(objects)[d.page := page]
    {
      var sorted := SortBy(records, Key);
      SameLength(sorted, records);
      page := sorted;
      var directBytes, subtree := SummarizePage(sorted);
      d := Descriptor(nextPage, |sorted|, sorted[0].key, sorted[|sorted| - 1].key, directBytes, subtree);
      objects, nextPage := objects[nextPage := sorted], nextPage + 1;
    }

    /** Stores a list as pages of at most 256 records. */
    method PutPages(records: seq<Record>) returns (ds: seq<Descriptor>, ghost chunks: seq<seq<Record>>)
      requires forall id | id in objects :: id < nextPage
      modifies this`objects, this`nextPage
      ensures ChunksOf(records, chunks) && AllDescribed(objects, ds, chunks)
      ensures (forall id | id in objects :: id < nextPage) && forall id | id in old(objects) :: id in objects && objects[id] == old(objects)[id]
    {
      ds, chunks := [], [];
      var start := 0;
      while start < |records|
        invariant start == |chunks| * PageSize || (start == |records| && |chunks| == (|records| + PageSize - 1) / PageSize)
        invariant |chunks| <= (|records| + PageSize - 1) / PageSize
        invariant forall i | 0 <= i < |chunks| :: Sized(chunks[i]) && multiset(chunks[i]) == multiset(ChunkAt(records, i))
        invariant AllDescribed(objects, ds, chunks) && (forall id | id in objects :: id < nextPage)
        invariant forall id | id in old(objects) :: id in objects && objects[id] == old(objects)[id]
        decreases |records| - start
      {
        var end := if start + PageSize < |records| then start + PageSize else |records|;
        assert records[start..end] == ChunkAt(records, |chunks|);
        ghost var before := objects;
        var d;
        ghost var page;
        d, page := PutPage(records[start..end]);
        ds, chunks := ds + [d], chunks + [page];
        start := end;
      }
    }

    /** The totals of the manifest, summed over its descriptors. */
    method SummarizeManifest(ds: seq<Descriptor>, ghost contents: seq<seq<Record>>) returns (directBytes: nat, subtree: Summary)
      requires AllDescribed(objects, ds, contents)
      ensures directBytes == DirectBytes(Concat(contents)) && subtree == Subtree(Concat(contents))
    {
      directBytes, subtree := 0, Summary(0, 0, 0);
      for i := 0 to |ds|
        invariant directBytes == DirectBytes(Concat(contents[..i])) && subtree == Subtree(Concat(contents[..i]))
      {
        directBytes, subtree := directBytes + ds[i].directBytes, Plus(subtree, ds[i].subtree);
        assert contents[..i + 1][..i] == contents[..i];
        SubtreeJoin(Concat(contents[..i]), contents[i]);
        DirectJoin(Concat(contents[..i]), contents[i]);
      }
      assert contents[..|ds|] == contents;
    }

    /** Finds the page a key belongs to. */
    method ChoosePage(key: nat) returns (pi: int)
      requires Valid()
      ensures pi == Chosen(pages, key)
    {
      for i := 0 to |manifest.pages|
        invariant Chosen(pages, key) == FirstFrom(pages, key, i)
      {
        if key <= manifest.pages[i].last {
          return i;
        }
      }
      pi := |manifest.pages| - 1;
    }

    /** Publishes a manifest over stored pages. */
    method PutManifest(ds: seq<Descriptor>, ghost contents: seq<seq<Record>>, total: int)
      requires AllDescribed(objects, ds, contents) && total == |Concat(contents)| && forall id | id in objects :: id < nextPage
      modifies this`manifest, this`pages
      ensures Valid() && pages == contents
    {
      var directBytes, subtree := SummarizeManifest(ds, contents);
      manifest := Manifest(ds, total, directBytes, subtree);
      pages := contents;
    }

    /** The records of the page a key belongs to; none if there is no page yet. */
    method LoadChosen(key: nat) returns (pi: int, records: seq<Record>)
      requires Valid()
      ensures pi == Chosen(pages, key) && (if pages == [] then pi == -1 && records == [] else 0 <= pi < |pages| && records == pages[pi])
    {
      pi := ChoosePage(key);
      ChosenBounds(pages, key);
      records := if pi >= 0 then objects[manifest.pages[pi].page] else [];
    }

    /** Stores the changed records of a page as chunks in its place. */
    method ReplacePage(pi: int, changed: seq<Record>, was: nat) returns (ghost chunks: seq<seq<Record>>)
      requires Valid() && (if pages == [] then pi == -1 && was == 0 else 0 <= pi < |pages| && was == |pages[pi]|)
      modifies this
      ensures Valid() && ChunksOf(changed, chunks)
      ensures pages == if old(pages) == [] then chunks else old(pages)[..pi] + chunks + old(pages)[pi + 1..]
    {
      var ds;
      ghost var before := objects;
      ds, chunks := PutPages(changed);
      if pi >= 0 {
        ReplacedTotal(pages, pi, chunks, changed);
        SplicedDescribed(before, objects, manifest.pages, pages, pi, ds, chunks);
        PutManifest(manifest.pages[..pi] + ds + manifest.pages[pi + 1..], pages[..pi] + chunks + pages[pi + 1..], manifest.total + |changed| - was);
      } else {
        ChunksTotal(changed, chunks);
        PutManifest(ds, chunks, manifest.total + |changed| - was);
      }
    }

    /** Adds, replaces or removes one record: its page is rewritten as one, two or no pages, and
        all other pages stay as they are. */
    method UpdateRecord(r: Record, remove: bool)
      requires Valid()
      modifies this
      ensures Valid() && Updated(old(pages), r, remove, pages)
    {
      var pi, records := LoadChosen(r.key);
      var changed;
      if remove {
        changed := RemoveRecord(records, r.path);
      } else {
        changed := UpsertRecord(records, r);
      }
      ghost var chunks;
      chunks := ReplacePage(pi, changed, |records|);
    }

    /** Rewrites the index from scratch: the records are sorted before they are cut into pages. */
    method WriteIndex(records: seq<Record>)
      requires Valid()
      modifies this
      ensures Valid() && multiset(Concat(pages)) == multiset(records) && ByKey(Concat(pages), Key)
    {
      var sorted := SortBy(records, Key);
      var ds;
      ghost var chunks;
      ds, chunks := PutPages(sorted);
      ChunksTotal(sorted, chunks);
      ChunksSorted(sorted, chunks);
      PutManifest(ds, chunks, |sorted|);
    }

    /** What one stored page adds to a listing. */
    method TakeFrom(i: nat, cursor: nat, start: nat, need: int) returns (more: seq<Record>)
      requires Valid() && i < |pages| && cursor + |pages[i]| > start
      ensures more == FromPage(pages[i], cursor, start, need)
    {
      var page := objects[manifest.pages[i].page];
      var from := if start > cursor then start - cursor else 0;
      var take := if |page| - from > need then need else |page| - from;
      more := if take > 0 then page[from..from + take] else [];
    }

    /** A page of the listing, from the stored pages that overlap it only; no limit means to the
        end. It is the slice of the concatenated pages. */
    method List(offset: int, limit: int) returns (records: seq<Record>)
      requires Valid()
      ensures records == Slice(Concat(pages), offset, limit)
    {
      var start := if offset < 0 then 0 else offset;
      var need := if limit <= 0 then manifest.total - start else limit;
      records := CollectPages(start, need);
      SliceIsTaken(Concat(pages), offset, limit);
    }

    method CollectPages(start: nat, wanted: int) returns (records: seq<Record>)
      requires Valid()
      ensures records == Taken(Concat(pages), start, wanted)
    {
      records := [];
      var need, i := wanted, 0;
      var cursor: nat := 0;
      while i < |manifest.pages|
        invariant i <= |manifest.pages| && Collected(pages, i, start, wanted, cursor, records) && need == wanted - |records|
      {
        var count := manifest.pages[i].count;
        CollectNext(pages, i, start, wanted, cursor, records);
        if cursor + count > start {
          var more := TakeFrom(i, cursor, start, need);
          records, need := records + more, need - |more|;
        }
        cursor, i := cursor + count, i + 1;
        if cursor > start && need <= 0 {
          break;
        }
      }
      CollectedAll(pages, i, start, wanted, cursor, records);
    }
  }

  /** What has been listed from the first i pages. */
  ghost predicate Collected(pages: seq<seq<Record>>, i: nat, start: nat, wanted: int, cursor: nat, records: seq<Record>)
    requires i <= |pages|
  {
    cursor == |Concat(pages[..i])| && records == Taken(Concat(pages[..i]), start, wanted)
  }

  lemma CollectNext(pages: seq<seq<Record>>, i: nat, start: nat, wanted: int, cursor: nat, records: seq<Record>)
    requires i < |pages| && Collected(pages, i, start, wanted, cursor, records)
    ensures var more := if cursor + |pages[i]| > start then FromPage(pages[i], cursor, start, wanted - |records|) else [];
      Collected(pages, i + 1, start, wanted, cursor + |pages[i]|, records + more)
  {
    NextPage(pages, i);
    TakenNext(Concat(pages[..i]), pages[i], start, wanted);
  }

  lemma CollectedAll(pages: seq<seq<Record>>, i: nat, start: nat, wanted: int, cursor: nat, records: seq<Record>)
    requires i <= |pages| && Collected(pages, i, start, wanted, cursor, records)
    requires i == |pages| || wanted - |records| <= 0
    ensures records == Taken(Concat(pages), start, wanted)
  {
    if i == |pages| {
      assert pages[..i] == pages;
    } else {
      TakenAll(pages, i, start, wanted);
    }
  }

  lemma NextPage(pages: seq<seq<Record>>, i: nat)
    requires i < |pages|
    ensures Concat(pages[..i + 1]) == Concat(pages[..i]) + pages[i]
  {
    assert pages[..i + 1][..i] == pages[..i];
  }

  function FromPage(page: seq<Record>, cursor: nat, start: nat, need: int): seq<Record> {
    var from := if start > cursor then start - cursor else 0;
    var take := if |page| - from > need then need else |page| - from;
    if take > 0 then page[from..from + take] else []
  }

  /** The records from start on, at most wanted of them. */
  function Taken(records: seq<Record>, start: nat, wanted: int): seq<Record> {
    if wanted <= 0 || start >= |records| then []
    else records[start..if start + wanted > |records| then |records| else start + wanted]
  }

  lemma TakenNext(records: seq<Record>, page: seq<Record>, start: nat, wanted: int)
    ensures var before := Taken(records, start, wanted);
      Taken(records + page, start, wanted) == before + FromPage(page, |records|, start, wanted - |before|)
  {
  }

  lemma TakenAll(pages: seq<seq<Record>>, i: nat, start: nat, wanted: int)
    requires i <= |pages| && wanted - |Taken(Concat(pages[..i]), start, wanted)| <= 0
    ensures Taken(Concat(pages), start, wanted) == Taken(Concat(pages[..i]), start, wanted)
  {
    assert pages == pages[..i] + pages[i..];
    ConcatJoin(pages[..i], pages[i..]);
  }

  lemma SliceIsTaken(records: seq<Record>, offset: int, limit: int)
    ensures
      var start := if offset < 0 then 0 else offset;
      Slice(records, offset, limit) == Taken(records, start, if limit <= 0 then |records| - start else limit)
  {
  }

  /** The records from offset on, at most limit of them. */
  function Slice(records: seq<Record>, offset: int, limit: int): seq<Record> {
    var start := if offset < 0 then 0 else if offset > |records| then |records| else offset;
    var end := if limit <= 0 || start + limit > |records| then |records| else start + limit;
    records[start..end]
  }

  lemma {:induction false} ChosenFrom(pages: seq<seq<Record>>, key: nat, i: nat)
    requires i <= |pages| && forall j | 0 <= j < |pages| :: pages[j] != []
    ensures var pi := FirstFrom(pages, key, i);
      && (i < |pages| ==> i <= pi)
      && (if pages == [] then pi == -1 else 0 <= pi < |pages|)
      && (forall j | i <= j < pi :: pages[j][|pages[j]| - 1].key < key)
      && (i <= pi < |pages| - 1 ==> key <= pages[pi][|pages[pi]| - 1].key)
    decreases |pages| - i
  {
    if i < |pages| && key > pages[i][|pages[i]| - 1].key {
      ChosenFrom(pages, key, i + 1);
    }
  }

  lemma ChosenBounds(pages: seq<seq<Record>>, key: nat)
    requires forall j | 0 <= j < |pages| :: pages[j] != []
    ensures if pages == [] then Chosen(pages, key) == -1 else 0 <= Chosen(pages, key) < |pages|
  {
    ChosenFrom(pages, key, 0);
  }

  // ---- Chunks ----

  lemma ChunkLast(records: seq<Record>, n: nat)
    requires 0 < n == (|records| + PageSize - 1) / PageSize
    ensures var cut := (n - 1) * PageSize;
      && 0 <= cut < |records| && records == records[..cut] + ChunkAt(records, n - 1)
      && (|records[..cut]| + PageSize - 1) / PageSize == n - 1
  {
  }

  lemma ChunksFront(records: seq<Record>, chunks: seq<seq<Record>>)
    requires ChunksOf(records, chunks) && chunks != []
    ensures var cut := (|chunks| - 1) * PageSize;
      0 <= cut < |records| && ChunksOf(records[..cut], chunks[..|chunks| - 1])
  {
    var n := |chunks|;
    var cut := (n - 1) * PageSize;
    ChunkLast(records, n);
    forall i | 0 <= i < n - 1 ensures ChunkAt(records[..cut], i) == ChunkAt(records, i) {
    }
  }

  lemma {:induction false} ChunksTotal(records: seq<Record>, chunks: seq<seq<Record>>)
    requires ChunksOf(records, chunks)
    ensures multiset(Concat(chunks)) == multiset(records) && |Concat(chunks)| == |records|
    decreases |chunks|
  {
    var n := |chunks|;
    if n > 0 {
      var front, last := records[..(n - 1) * PageSize], ChunkAt(records, n - 1);
      ChunkLast(records, n);
      ChunksFront(records, chunks);
      ChunksTotal(front, chunks[..n - 1]);
      assert multiset(front + last) == multiset(front) + multiset(last);
      SameLength(chunks[n - 1], ChunkAt(records, n - 1));
    }
  }

  lemma SameLength<T>(a: seq<T>, b: seq<T>)
    requires multiset(a) == multiset(b)
    ensures |a| == |b|
  {
    assert |multiset(a)| == |a| && |multiset(b)| == |b|;
  }

  method SummarizePage(records: seq<Record>) returns (directBytes: nat, subtree: Summary)
    ensures directBytes == DirectBytes(records) && subtree == Subtree(records)
  {
    directBytes, subtree := 0, Summary(0, 0, 0);
    for i := 0 to |records|
      invariant directBytes == DirectBytes(records[..i]) && subtree == Subtree(records[..i])
    {
      assert records[..i + 1][..i] == records[..i];
      if !records[i].isDirectory {
        directBytes := directBytes + records[i].size;
      }
      subtree := Plus(subtree, RecordSummary(records[i]));
    }
    assert records[..|records|] == records;
  }

  lemma ReplacedTotal(pages: seq<seq<Record>>, pi: nat, chunks: seq<seq<Record>>, changed: seq<Record>)
    requires pi < |pages| && ChunksOf(changed, chunks)
    ensures |Concat(pages[..pi] + chunks + pages[pi + 1..])| == |Concat(pages)| - |pages[pi]| + |changed|
  {
    ChunksTotal(changed, chunks);
    ConcatJoin(pages[..pi], chunks);
    ConcatJoin(pages[..pi] + chunks, pages[pi + 1..]);
    SplitAt(pages, pi);
  }

  lemma SplitAt(pages: seq<seq<Record>>, pi: nat)
    requires pi < |pages|
    ensures Concat(pages) == Concat(pages[..pi]) + pages[pi] + Concat(pages[pi + 1..])
  {
    assert pages == pages[..pi + 1] + pages[pi + 1..];
    ConcatJoin(pages[..pi + 1], pages[pi + 1..]);
    NextPage(pages, pi);
  }

  lemma SplicedDescribed(before: map<nat, seq<Record>>, objects: map<nat, seq<Record>>, ds: seq<Descriptor>, pages: seq<seq<Record>>,
                         pi: nat, more: seq<Descriptor>, chunks: seq<seq<Record>>)
    requires AllDescribed(before, ds, pages) && AllDescribed(objects, more, chunks) && pi < |ds|
    requires forall id | id in before :: id in objects && objects[id] == before[id]
    ensures AllDescribed(objects, ds[..pi] + more + ds[pi + 1..], pages[..pi] + chunks + pages[pi + 1..])
  {
  }

  /** Chunks of a sorted list follow each other in order. */
  lemma {:induction false} ChunksSorted(records: seq<Record>, chunks: seq<seq<Record>>)
    requires ChunksOf(records, chunks) && ByKey(records, Key)
    ensures ByKey(Concat(chunks), Key)
    decreases |chunks|
  {
    var n := |chunks|;
    if n > 0 {
      ChunkLast(records, n);
      ChunksFront(records, chunks);
      var cut := (n - 1) * PageSize;
      ChunksSorted(records[..cut], chunks[..n - 1]);
      ChunksTotal(records[..cut], chunks[..n - 1]);
      InOrder(records, cut, Concat(chunks[..n - 1]), chunks[n - 1]);
    }
  }

  lemma InOrder(records: seq<Record>, cut: nat, a: seq<Record>, b: seq<Record>)
    requires cut <= |records| && ByKey(records, Key) && ByKey(a, Key) && ByKey(b, Key)
    requires multiset(a) == multiset(records[..cut]) && multiset(b) == multiset(records[cut..])
    ensures ByKey(a + b, Key)
  {
    forall i, j | 0 <= i < |a| && 0 <= j < |b| ensures Key(a[i]) <= Key(b[j]) {
      assert a[i] in multiset(a) && b[j] in multiset(b);
      assert a[i] in records[..cut] && b[j] in records[cut..];
      var k :| 0 <= k < cut && records[k] == a[i];
      var m :| cut <= m < |records| && records[m] == b[j];
    }
  }

  // ---- When an update finds the record it is about ----

  predicate Rising(records: seq<Record>) {
    forall i, j | 0 <= i < j < |records| :: records[i].key < records[j].key
  }

  /** The index in order: keys rise through the pages. */
  ghost predicate Tidy(pages: seq<seq<Record>>) {
    (forall i | 0 <= i < |pages| :: Sized(pages[i])) && Rising(Concat(pages))
  }

  function Last(page: seq<Record>): nat
    requires page != []
  {
    page[|page| - 1].key
  }

  /** Within one directory a path and its position in the order determine each other. */
  predicate KeysMatch(records: seq<Record>, r: Record) {
    forall x | x in records :: x.path == r.path <==> x.key == r.key
  }

  predicate Absent(records: seq<Record>, r: Record) {
    forall x | x in records :: x.path != r.path
  }

  /** A new record that belongs inside a full page. */
  ghost predicate MidPageOverflow(pages: seq<seq<Record>>, r: Record)
    requires forall i | 0 <= i < |pages| :: pages[i] != []
  {
    var pi := Chosen(pages, r.key);
    0 <= pi < |pages| && |pages[pi]| == PageSize && r.key < Last(pages[pi]) && Absent(pages[pi], r)
  }

  lemma AllBelow(pages: seq<seq<Record>>, key: nat)
    requires forall j | 0 <= j < |pages| :: Sized(pages[j]) && Last(pages[j]) < key
    ensures forall x | x in Concat(pages) :: x.key < key
  {
    forall x | x in Concat(pages) ensures x.key < key {
      InConcat(pages, x);
      var j :| 0 <= j < |pages| && x in pages[j];
      UpToLast(pages[j], x);
    }
  }

  lemma UpToLast(page: seq<Record>, x: Record)
    requires Sized(page) && x in page
    ensures x.key <= Last(page)
  {
    var m :| 0 <= m < |page| && page[m] == x;
    assert Key(page[m]) <= Key(page[|page| - 1]);
  }

  lemma ChosenAmong(pages: seq<seq<Record>>, key: nat)
    requires pages != [] && forall i | 0 <= i < |pages| :: pages[i] != [] && Sized(pages[i])
    ensures var pi := Chosen(pages, key);
      && 0 <= pi < |pages| && (pi + 1 < |pages| ==> key <= Last(pages[pi]))
      && (forall x | x in Concat(pages[..pi]) :: x.key < key)
  {
    ChosenFrom(pages, key, 0);
    AllBelow(pages[..Chosen(pages, key)], key);
  }

  /** The pages before the chosen one end below the key, and those after it start above. */
  lemma AroundChosen(pages: seq<seq<Record>>, key: nat)
    requires Tidy(pages) && pages != []
    ensures var pi := Chosen(pages, key);
      && 0 <= pi < |pages| && Concat(pages) == Concat(pages[..pi]) + pages[pi] + Concat(pages[pi + 1..])
      && (forall x | x in Concat(pages[..pi]) :: x.key < key && x.key < pages[pi][0].key)
      && (forall x | x in Concat(pages[pi + 1..]) :: key < x.key && Last(pages[pi]) < x.key)
      && Rising(Concat(pages[..pi])) && Rising(pages[pi]) && Rising(Concat(pages[pi + 1..]))
  {
    ChosenAmong(pages, key);
    var pi := Chosen(pages, key);
    SplitAt(pages, pi);
    RisingParts(Concat(pages[..pi]), pages[pi], Concat(pages[pi + 1..]));
    if pi + 1 == |pages| {
      assert pages[pi + 1..] == [];
    }
  }

  lemma RisingParts(a: seq<Record>, b: seq<Record>, c: seq<Record>)
    requires Rising(a + b + c) && b != []
    ensures Rising(a) && Rising(b) && Rising(c)
    ensures (forall x | x in a :: x.key < b[0].key) && (forall x | x in c :: Last(b) < x.key)
  {
    var s := a + b + c;
    assert forall i | 0 <= i < |a| :: s[i] == a[i];
    assert forall i | 0 <= i < |b| :: s[|a| + i] == b[i];
    assert forall i | 0 <= i < |c| :: s[|a| + |b| + i] == c[i];
  }

  lemma {:induction false} UpsertMembers(page: seq<Record>, r: Record, x: Record)
    requires forall i, j | 0 <= i < j < |page| :: page[i].path == r.path ==> page[j].path != r.path
    ensures x in Upsert(page, r) <==> (x in page && x.path != r.path) || x == r
  {
    if page != [] && page[0].path != r.path {
      UpsertMembers(page[1..], r, x);
    }
  }

  lemma {:induction false} WithoutMembers(page: seq<Record>, p: Path, x: Record)
    ensures x in Without(page, p) <==> x in page && x.path != p
  {
    if page != [] {
      WithoutMembers(page[..|page| - 1], p, x);
      assert page == page[..|page| - 1] + [page[|page| - 1]];
    }
  }

  lemma OncePerPage(page: seq<Record>, r: Record)
    requires Rising(page) && KeysMatch(page, r)
    ensures forall i, j | 0 <= i < j < |page| :: page[i].path == r.path ==> page[j].path != r.path
  {
    forall i, j | 0 <= i < j < |page| && page[i].path == r.path ensures page[j].path != r.path {
      assert page[i] in page && page[j] in page;
    }
  }

  lemma ChangedMembers(page: seq<Record>, r: Record, remove: bool, x: Record)
    requires Rising(page) && KeysMatch(page, r)
    ensures x in Changed(page, r, remove) <==> (x in page && x.path != r.path) || (!remove && x == r)
  {
    OncePerPage(page, r);
    if remove {
      WithoutMembers(page, r.path, x);
    } else {
      UpsertMembers(page, r, x);
    }
  }

  lemma ChunkMembers(records: seq<Record>, chunks: seq<seq<Record>>, x: Record)
    requires ChunksOf(records, chunks)
    ensures x in Concat(chunks) <==> x in records
  {
    ChunksTotal(records, chunks);
    assert x in multiset(Concat(chunks)) <==> x in multiset(records);
  }

  /** In an index in order, an update changes exactly the record it is about: it is added,
      replaced or removed, and every other record stays. */
  lemma UpdateExact(pages: seq<seq<Record>>, r: Record, remove: bool, pages': seq<seq<Record>>, x: Record)
    requires Tidy(pages) && KeysMatch(Concat(pages), r) && Updated(pages, r, remove, pages')
    ensures x in Concat(pages') <==> (x in Concat(pages) && x.path != r.path) || (!remove && x == r)
  {
    if pages == [] {
      ChangedMembers([], r, remove, x);
      ChunkMembers(Changed([], r, remove), pages', x);
    } else {
      var pi := Chosen(pages, r.key);
      AroundChosen(pages, r.key);
      var chunks :| ChunksOf(Changed(pages[pi], r, remove), chunks) && pages' == pages[..pi] + chunks + pages[pi + 1..];
      ConcatJoin(pages[..pi], chunks);
      ConcatJoin(pages[..pi] + chunks, pages[pi + 1..]);
      ChangedMembers(pages[pi], r, remove, x);
      ChunkMembers(Changed(pages[pi], r, remove), chunks, x);
    }
  }

  lemma ChunksSized(records: seq<Record>, chunks: seq<seq<Record>>)
    requires ChunksOf(records, chunks)
    ensures forall i | 0 <= i < |chunks| :: Sized(chunks[i])
  {
  }

  /** At most a page of records is one chunk: the records sorted. */
  lemma OneChunk(records: seq<Record>, chunks: seq<seq<Record>>)
    requires ChunksOf(records, chunks) && |records| <= PageSize
    ensures if records == [] then chunks == [] else |chunks| == 1 && chunks[0] == Concat(chunks)
    ensures ByKey(Concat(chunks), Key) && multiset(Concat(chunks)) == multiset(records)
  {
    ChunksTotal(records, chunks);
    if records != [] {
      assert chunks[..0] == [] && Concat(chunks) == Concat(chunks[..0]) + chunks[0];
    }
  }

  /** One record too many becomes a chunk of its own, unsorted with the others. */
  lemma TwoChunks(page: seq<Record>, r: Record, chunks: seq<seq<Record>>)
    requires ChunksOf(page + [r], chunks) && |page| == PageSize && Rising(page)
    ensures chunks == [page, [r]] && Concat(chunks) == page + [r]
  {
    var records := page + [r];
    assert ChunkAt(records, 0) == page && ChunkAt(records, 1) == [r];
    SameSorted(page, chunks[0]);
    Single(chunks[1], r);
    NextPage(chunks, 0);
    NextPage(chunks, 1);
    assert chunks[..0] == [] && chunks[..2] == chunks;
  }

  lemma Single(chunk: seq<Record>, r: Record)
    requires multiset(chunk) == multiset([r])
    ensures chunk == [r]
  {
    SameLength(chunk, [r]);
    assert chunk[0] in multiset(chunk);
  }

  lemma SameLast(a: seq<Record>, b: seq<Record>)
    requires Rising(a) && ByKey(b, Key) && multiset(a) == multiset(b) && |a| == |b| > 0
    ensures a[|a| - 1] == b[|a| - 1]
  {
    var n := |a| - 1;
    assert b[n] in multiset(b) && a[n] in multiset(a);
    var i :| 0 <= i < |b| && b[i] == a[n];
    var j :| 0 <= j < |a| && a[j] == b[n];
    assert Key(b[i]) <= Key(b[n]);
  }

  lemma SameFront<T>(a: seq<T>, b: seq<T>)
    requires multiset(a) == multiset(b) && |a| == |b| > 0 && a[|a| - 1] == b[|a| - 1]
    ensures multiset(a[..|a| - 1]) == multiset(b[..|a| - 1])
  {
    var n := |a| - 1;
    assert a == a[..n] + [a[n]] && b == b[..n] + [b[n]];
    assert multiset(a[..n]) == multiset(a) - multiset{a[n]};
    assert multiset(b[..n]) == multiset(b) - multiset{b[n]};
  }

  /** There is one way to sort records with distinct keys. */
  lemma {:induction false} SameSorted(a: seq<Record>, b: seq<Record>)
    requires Rising(a) && ByKey(b, Key) && multiset(a) == multiset(b)
    ensures a == b
    decreases |a|
  {
    SameLength(a, b);
    if a != [] {
      SameLast(a, b);
      SameFront(a, b);
      SameSorted(a[..|a| - 1], b[..|a| - 1]);
    }
  }

  lemma SortedRises(records: seq<Record>, sorted: seq<Record>)
    requires multiset(sorted) == multiset(records) && ByKey(sorted, Key)
    requires forall i, j | 0 <= i < j < |records| :: records[i].key != records[j].key
    ensures Rising(sorted)
  {
    forall i, j | 0 <= i < j < |sorted| ensures sorted[i].key < sorted[j].key {
      assert Key(sorted[i]) <= Key(sorted[j]);
      if sorted[i].key == sorted[j].key {
        TwoOfOne(records, sorted, i, j);
      }
    }
  }

  lemma TwoOfOne(records: seq<Record>, sorted: seq<Record>, i: nat, j: nat)
    requires multiset(sorted) == multiset(records) && i < j < |sorted| && sorted[i].key == sorted[j].key
    ensures exists k, m | 0 <= k < m < |records| :: records[k].key == records[m].key
  {
    assert sorted[i] in multiset(sorted) && sorted[j] in multiset(sorted);
    if sorted[i] == sorted[j] {
      Twice(sorted, i, j);
      if forall k, m | 0 <= k < m < |records| :: records[k] != records[m] {
        Once(records, sorted[i]);
      }
    } else {
      var k :| 0 <= k < |records| && records[k] == sorted[i];
      var m :| 0 <= m < |records| && records[m] == sorted[j];
      assert k < m || m < k;
    }
  }

  lemma {:induction false} ChangedKeys(page: seq<Record>, r: Record, remove: bool)
    requires Rising(page) && KeysMatch(page, r)
    ensures var changed := Changed(page, r, remove);
      forall i, j | 0 <= i < j < |changed| :: changed[i].key != changed[j].key
  {
    if remove {
      WithoutRises(page, r.path);
    } else {
      UpsertShape(page, r);
    }
  }

  lemma {:induction false} WithoutRises(page: seq<Record>, p: Path)
    requires Rising(page)
    ensures Rising(Without(page, p)) && |Without(page, p)| <= |page|
  {
    if page != [] {
      var front := page[..|page| - 1];
      WithoutRises(front, p);
      forall x | x in Without(front, p) ensures x.key < page[|page| - 1].key {
        WithoutMembers(front, p, x);
      }
    }
  }

  /** An upsert replaces the first record of the path in place, or appends. */
  lemma {:induction false} UpsertAt(page: seq<Record>, r: Record) returns (i: nat)
    ensures Absent(page, r) ==> Upsert(page, r) == page + [r]
    ensures !Absent(page, r) ==> i < |page| && page[i].path == r.path && Upsert(page, r) == page[i := r]
  {
    i := 0;
    if page != [] && page[0].path != r.path {
      i := UpsertAt(page[1..], r);
      i := i + 1;
      assert page == [page[0]] + page[1..];
      assert Absent(page, r) <==> Absent(page[1..], r);
    }
  }

  lemma UpsertShape(page: seq<Record>, r: Record)
    requires Rising(page) && KeysMatch(page, r)
    ensures Absent(page, r) ==> Upsert(page, r) == page + [r]
    ensures !Absent(page, r) ==> |Upsert(page, r)| == |page|
    ensures var changed := Upsert(page, r); forall i, j | 0 <= i < j < |changed| :: changed[i].key != changed[j].key
  {
    var i := UpsertAt(page, r);
    forall j | 0 <= j < |page| ensures page[j].path == r.path <==> page[j].key == r.key {
      assert page[j] in page;
    }
  }

  lemma RisingJoin(a: seq<Record>, b: seq<Record>, c: seq<Record>)
    requires Rising(a) && Rising(b) && Rising(c)
    requires (forall x, y | x in a && y in b :: x.key < y.key) && (forall x, y | x in b && y in c :: x.key < y.key)
    requires forall x, y | x in a && y in c :: x.key < y.key
    ensures Rising(a + b + c)
  {
    var s := a + b + c;
    forall i, j | 0 <= i < j < |s| ensures s[i].key < s[j].key {
      assert s[i] == if i < |a| then a[i] else if i < |a| + |b| then b[i - |a|] else c[i - |a| - |b|];
      assert s[j] == if j < |a| then a[j] else if j < |a| + |b| then b[j - |a|] else c[j - |a| - |b|];
    }
  }

  lemma SplicedSized(pages: seq<seq<Record>>, pi: nat, chunks: seq<seq<Record>>)
    requires pi < |pages| && (forall i | 0 <= i < |pages| :: Sized(pages[i])) && forall i | 0 <= i < |chunks| :: Sized(chunks[i])
    ensures var pages' := pages[..pi] + chunks + pages[pi + 1..]; forall i | 0 <= i < |pages'| :: Sized(pages'[i])
  {
  }

  lemma SplicedConcat(pages: seq<seq<Record>>, pi: nat, chunks: seq<seq<Record>>)
    requires pi < |pages|
    ensures Concat(pages[..pi] + chunks + pages[pi + 1..]) == Concat(pages[..pi]) + Concat(chunks) + Concat(pages[pi + 1..])
  {
    ConcatJoin(pages[..pi], chunks);
    ConcatJoin(pages[..pi] + chunks, pages[pi + 1..]);
  }

  /** Every record of a rising page lies between its ends. */
  lemma WithinPage(page: seq<Record>, x: Record)
    requires Rising(page) && x in page
    ensures page[0].key <= x.key <= Last(page)
  {
    var i :| 0 <= i < |page| && page[i] == x;
  }

  /** Where the changed records of the chosen page lie. */
  lemma BetweenParts(a: seq<Record>, page: seq<Record>, c: seq<Record>, r: Record, remove: bool, x: Record)
    requires page != [] && Rising(page) && KeysMatch(page, r) && x in Changed(page, r, remove)
    requires forall y | y in a :: y.key < r.key && y.key < page[0].key
    requires forall y | y in c :: r.key < y.key && Last(page) < y.key
    ensures forall y | y in a :: y.key < x.key
    ensures forall y | y in c :: x.key < y.key
  {
    ChangedWithin(page, r, remove, x);
  }

  lemma ChangedWithin(page: seq<Record>, r: Record, remove: bool, x: Record)
    requires page != [] && Rising(page) && KeysMatch(page, r) && x in Changed(page, r, remove)
    ensures x == r || page[0].key <= x.key <= Last(page)
  {
    ChangedMembers(page, r, remove, x);
    if x in page {
      WithinPage(page, x);
    }
  }

  lemma MatchInPage(pages: seq<seq<Record>>, pi: nat, r: Record)
    requires pi < |pages| && KeysMatch(Concat(pages), r) && Concat(pages) == Concat(pages[..pi]) + pages[pi] + Concat(pages[pi + 1..])
    ensures KeysMatch(pages[pi], r)
  {
    forall x | x in pages[pi] ensures x in Concat(pages) {
    }
  }

  /** The chunks of the changed page rise, unless the new record overflows it in the middle. */
  lemma ChunksRise(pages: seq<seq<Record>>, r: Record, remove: bool, chunks: seq<seq<Record>>)
    requires Tidy(pages) && pages != [] && KeysMatch(Concat(pages), r)
    requires var pi := Chosen(pages, r.key); 0 <= pi < |pages| && ChunksOf(Changed(pages[pi], r, remove), chunks)
    ensures Rising(Concat(chunks)) <==> remove || !MidPageOverflow(pages, r)
  {
    ChosenPage(pages, r);
    PageRises(pages[Chosen(pages, r.key)], r, remove, chunks);
  }

  lemma ChosenPage(pages: seq<seq<Record>>, r: Record)
    requires Tidy(pages) && pages != [] && KeysMatch(Concat(pages), r)
    ensures var pi := Chosen(pages, r.key); 0 <= pi < |pages| && Sized(pages[pi]) && Rising(pages[pi]) && KeysMatch(pages[pi], r)
  {
    AroundChosen(pages, r.key);
    MatchInPage(pages, Chosen(pages, r.key), r);
  }

  lemma PageRises(page: seq<Record>, r: Record, remove: bool, chunks: seq<seq<Record>>)
    requires Sized(page) && Rising(page) && KeysMatch(page, r) && ChunksOf(Changed(page, r, remove), chunks)
    ensures Rising(Concat(chunks)) <==> remove || !(|page| == PageSize && r.key < Last(page) && Absent(page, r))
  {
    ChangedKeys(page, r, remove);
    if remove {
      WithoutRises(page, r.path);
    } else {
      UpsertShape(page, r);
    }
    var changed := Changed(page, r, remove);
    if |changed| <= PageSize {
      OneChunk(changed, chunks);
      SortedRises(changed, Concat(chunks));
    } else {
      TwoChunks(page, r, chunks);
      OverflowRises(page, r);
    }
  }

  lemma OverflowRises(page: seq<Record>, r: Record)
    requires Rising(page) && page != [] && KeysMatch(page, r) && Absent(page, r)
    ensures Rising(page + [r]) <==> !(r.key < Last(page))
  {
    var s := page + [r];
    assert s[|page| - 1] == page[|page| - 1] && s[|page|] == r;
    assert page[|page| - 1] in page;
    if !(r.key < Last(page)) {
      forall x | x in page ensures x.key < r.key {
        WithinPage(page, x);
      }
    }
  }

  /** An update keeps the index in order exactly when it does not put a new record into the
      middle of a full page: then the record is stored on a page of its own, after that page. */
  lemma UpdateKeepsOrder(pages: seq<seq<Record>>, r: Record, remove: bool, pages': seq<seq<Record>>)
    requires Tidy(pages) && KeysMatch(Concat(pages), r) && Updated(pages, r, remove, pages')
    ensures Tidy(pages') <==> remove || !MidPageOverflow(pages, r)
  {
    if pages == [] {
      ChosenBounds(pages, r.key);
      ChangedKeys([], r, remove);
      ChunksSized(Changed([], r, remove), pages');
      OneChunk(Changed([], r, remove), pages');
      SortedRises(Changed([], r, remove), Concat(pages'));
    } else {
      var pi := Chosen(pages, r.key);
      AroundChosen(pages, r.key);
      var chunks :| ChunksOf(Changed(pages[pi], r, remove), chunks) && pages' == pages[..pi] + chunks + pages[pi + 1..];
      ChunksSized(Changed(pages[pi], r, remove), chunks);
      SplicedSized(pages, pi, chunks);
      SplicedConcat(pages, pi, chunks);
      ChunksRise(pages, r, remove, chunks);
      if Rising(Concat(chunks)) {
        PartsRise(pages, r, remove, pi, chunks);
      } else {
        MiddleRises(Concat(pages[..pi]), Concat(chunks), Concat(pages[pi + 1..]));
      }
    }
  }

  lemma MiddleRises(a: seq<Record>, b: seq<Record>, c: seq<Record>)
    requires !Rising(b)
    ensures !Rising(a + b + c)
  {
    var i, j :| 0 <= i < j < |b| && b[i].key >= b[j].key;
    var s := a + b + c;
    assert s[|a| + i] == b[i] && s[|a| + j] == b[j];
  }

  lemma PartsRise(pages: seq<seq<Record>>, r: Record, remove: bool, pi: nat, chunks: seq<seq<Record>>)
    requires Tidy(pages) && pages != [] && KeysMatch(Concat(pages), r) && pi == Chosen(pages, r.key) && pi < |pages|
    requires ChunksOf(Changed(pages[pi], r, remove), chunks) && Rising(Concat(chunks))
    ensures Rising(Concat(pages[..pi]) + Concat(chunks) + Concat(pages[pi + 1..]))
  {
    var a, b, c := Concat(pages[..pi]), Concat(chunks), Concat(pages[pi + 1..]);
    AroundChosen(pages, r.key);
    MatchInPage(pages, pi, r);
    forall x | x in b ensures (forall y | y in a :: y.key < x.key) && (forall y | y in c :: x.key < y.key) {
      ChunkMembers(Changed(pages[pi], r, remove), chunks, x);
      BetweenParts(a, pages[pi], c, r, remove, x);
    }
    RisingJoin(a, b, c);
  }

  /** And then the index loses track of it: a new record is still listed after its removal
      exactly when it was put into the middle of a full page. */
  lemma InsertThenRemove(pages: seq<seq<Record>>, r: Record, inserted: seq<seq<Record>>, removed: seq<seq<Record>>)
    requires Tidy(pages) && KeysMatch(Concat(pages), r) && Absent(Concat(pages), r)
    requires Updated(pages, r, false, inserted) && (forall i | 0 <= i < |inserted| :: inserted[i] != []) && Updated(inserted, r, true, removed)
    ensures r in Concat(removed) <==> MidPageOverflow(pages, r)
  {
    UpdateKeepsOrder(pages, r, false, inserted);
    if MidPageOverflow(pages, r) {
      LosesTrack(pages, r, inserted, removed);
    } else {
      forall x | x in Concat(inserted) ensures x.path == r.path <==> x.key == r.key {
        UpdateExact(pages, r, false, inserted, x);
      }
      UpdateExact(inserted, r, true, removed, r);
    }
  }

  lemma LosesTrack(pages: seq<seq<Record>>, r: Record, inserted: seq<seq<Record>>, removed: seq<seq<Record>>)
    requires Tidy(pages) && KeysMatch(Concat(pages), r) && Absent(Concat(pages), r) && MidPageOverflow(pages, r)
    requires Updated(pages, r, false, inserted) && (forall i | 0 <= i < |inserted| :: inserted[i] != []) && Updated(inserted, r, true, removed)
    ensures r in Concat(removed)
  {
    var pi := Chosen(pages, r.key);
    AroundChosen(pages, r.key);
    OwnPage(pages, r, pi, inserted);
    ChosenAgain(pages, r.key, pi, inserted);
    Overlooked(inserted, r, pi, removed);
  }

  /** The new record gets a page of its own behind the full one. */
  lemma OwnPage(pages: seq<seq<Record>>, r: Record, pi: nat, inserted: seq<seq<Record>>)
    requires (forall i | 0 <= i < |pages| :: pages[i] != []) && Updated(pages, r, false, inserted)
    requires pi == Chosen(pages, r.key) && pi < |pages|
    requires |pages[pi]| == PageSize && Rising(pages[pi]) && KeysMatch(pages[pi], r) && Absent(pages[pi], r)
    ensures pi + 1 < |inserted| && inserted[..pi] == pages[..pi] && inserted[pi] == pages[pi] && inserted[pi + 1] == [r]
  {
    var chunks :| ChunksOf(Changed(pages[pi], r, false), chunks) && inserted == pages[..pi] + chunks + pages[pi + 1..];
    UpsertShape(pages[pi], r);
    TwoChunks(pages[pi], r, chunks);
    TwoSpliced(pages[..pi], pages[pi], [r], pages[pi + 1..]);
  }

  lemma TwoSpliced(a: seq<seq<Record>>, p: seq<Record>, q: seq<Record>, c: seq<seq<Record>>)
    ensures var s := a + [p, q] + c; |a| + 1 < |s| && s[..|a|] == a && s[|a|] == p && s[|a| + 1] == q
  {
  }

  lemma Overlooked(inserted: seq<seq<Record>>, r: Record, pi: nat, removed: seq<seq<Record>>)
    requires (forall i | 0 <= i < |inserted| :: inserted[i] != []) && Updated(inserted, r, true, removed)
    requires pi + 1 < |inserted| && inserted[pi + 1] == [r] && Chosen(inserted, r.key) == pi
    ensures r in Concat(removed)
  {
    var chunks :| ChunksOf(Changed(inserted[pi], r, true), chunks) && removed == inserted[..pi] + chunks + inserted[pi + 1..];
    StillThere(inserted, pi, chunks, r);
  }

  lemma StillThere(inserted: seq<seq<Record>>, pi: nat, chunks: seq<seq<Record>>, r: Record)
    requires pi + 1 < |inserted| && inserted[pi + 1] == [r]
    ensures r in Concat(inserted[..pi] + chunks + inserted[pi + 1..])
  {
    SplicedConcat(inserted, pi, chunks);
    assert inserted[pi + 1..][0] == [r];
    InConcat(inserted[pi + 1..], r);
  }

  /** The record belongs to the page in front of its own. */
  lemma ChosenAgain(pages: seq<seq<Record>>, key: nat, pi: nat, inserted: seq<seq<Record>>)
    requires Tidy(pages) && pages != [] && pi == Chosen(pages, key) && pi < |pages| && key <= Last(pages[pi])
    requires (forall i | 0 <= i < |inserted| :: inserted[i] != []) && pi < |inserted|
    requires inserted[..pi] == pages[..pi] && inserted[pi] == pages[pi]
    ensures Chosen(inserted, key) == pi
  {
    ChosenFrom(pages, key, 0);
    forall j | 0 <= j < pi ensures Last(inserted[j]) < key {
      assert inserted[j] == inserted[..pi][j] == pages[j];
    }
    SkipsTo(inserted, key, 0, pi);
  }

  lemma {:induction false} SkipsTo(pages: seq<seq<Record>>, key: nat, i: nat, pi: nat)
    requires (forall j | 0 <= j < |pages| :: pages[j] != []) && i <= pi < |pages|
    requires (forall j | i <= j < pi :: Last(pages[j]) < key) && key <= Last(pages[pi])
    ensures FirstFrom(pages, key, i) == pi
    decreases pi - i
  {
    if i < pi {
      SkipsTo(pages, key, i + 1, pi);
    }
  }

  function Numbered(key: nat): Record {
    Record([seq(key, i requires 0 <= i < key => 'a')], key, false, 1, Summary(0, 0, 0))
  }

  /** It happens: one full page of the even keys, and a new record between two of them. */
  lemma OverflowHappens() returns (pages: seq<seq<Record>>, r: Record)
    ensures Tidy(pages) && KeysMatch(Concat(pages), r) && Absent(Concat(pages), r) && MidPageOverflow(pages, r)
  {
    var page := seq(PageSize, i requires 0 <= i < PageSize => Numbered(2 * i));
    pages, r := [page], Numbered(1);
    assert pages[..0] == [] && Concat(pages) == Concat(pages[..0]) + page;
    forall x | x in page ensures x.path != r.path && x.key != r.key {
      var i :| 0 <= i < |page| && page[i] == x;
      assert |x.path[0]| == 2 * i && |r.path[0]| == 1;
    }
    assert Last(page) == 510;
  }
}
