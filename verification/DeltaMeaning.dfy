/** What the delta list says about the cards of the two bundles, stated without
    lineage texts and fingerprints. */
module DeltaMeaning {
  import opened Identity
  import opened Ordering
  import opened Seqs
  import opened Cards
  import opened Bundles
  import opened Deltas
  import opened LineageComparison
  import opened Renames
  import opened BundleDeltas

  // ------------------------------------------------------------ small lineages

  lemma {:induction false} FilterSingle<A>(p: A -> bool, s: seq<A>, i: nat)
    requires i < |s| && p(s[i]) && forall j :: 0 <= j < |s| && j != i ==> !p(s[j])
    ensures Filter(p, s) == [s[i]]
  {
    if i == 0 {
      assert forall x :: x in s[1..] ==> !p(x) by {
        forall x | x in s[1..] ensures !p(x) { var j :| 0 <= j < |s[1..]| && s[1..][j] == x; assert s[j+1] == x; }
      }
      FilterNone(p, s[1..]);
    } else {
      assert forall j :: 0 <= j < |s[1..]| && j != i - 1 ==> s[1..][j] == s[j+1];
      FilterSingle(p, s[1..], i - 1);
    }
  }

  lemma SortShort<T>(less: (T, T) -> bool, s: seq<T>)
    requires |s| <= 1
    ensures Sort(less, s) == s
  {
    if s != [] { assert s[1..] == []; }
  }

  /** The deltas of a lineage with at most one version on either side. */
  function SmallDeltas(kind: string, before: seq<Version>, after: seq<Version>): seq<Delta>
    requires |before| <= 1 && |after| <= 1
  {
    if before == [] && after == [] then []
    else if before == [] then [Delta(0, "added", kind, after[0].id, None)]
    else if after == [] then [Delta(0, "deleted", kind, before[0].id, None)]
    else [Delta(0, if before[0].fingerprint == after[0].fingerprint then "reused" else "modified", kind, after[0].id, Some(before[0].id))]
  }

  lemma MergeOne(v: Version, w: Version)
    ensures Merge([v], [w]) == if v.fingerprint == w.fingerprint then Matched([(v, w)], [], []) else Matched([], [v], [w])
  {
    assert [v][1..] == [] && [w][1..] == [];
    assert Merge([], []) == Matched([], [], []) && Merge([], [w]) == Matched([], [], [w]) && Merge([v], []) == Matched([], [v], []);
  }

  lemma SmallLineage(kind: string, before: seq<Version>, after: seq<Version>)
    requires |before| <= 1 && |after| <= 1
    ensures LineageDeltas(kind, before, after) == SmallDeltas(kind, before, after)
  {
    SortShort(VersionLess, before);
    SortShort(VersionLess, after);
    var m := MatchSorted(before, after);
    if before != [] && after != [] {
      assert before == [before[0]] && after == [after[0]];
      MergeOne(before[0], after[0]);
    }
    SortShort(IdLess, m.left);
    SortShort(IdLess, m.right);
  }

  // ------------------------------------------------------------------- files

  /** The same file of the same repository on both sides. */
  predicate SameFile(f: FileCard, g: FileCard) { f.repositoryId == g.repositoryId && f.path == g.path }

  ghost predicate Lost(b: Bundle, t: Bundle, f: FileCard) { f in b.files && forall g :: g in t.files ==> !SameFile(f, g) }
  ghost predicate Gained(b: Bundle, t: Bundle, g: FileCard) { g in t.files && forall f :: f in b.files ==> !SameFile(f, g) }

  /** A lost and a gained file with the same bytes, which no other file on either side has. */
  ghost predicate Moved(b: Bundle, t: Bundle, f: FileCard, g: FileCard) {
    && Lost(b, t, f) && Gained(b, t, g) && f.sourceHash == g.sourceHash && f.path != g.path
    && (forall x :: x in b.files && x.sourceHash == f.sourceHash ==> x == f)
    && (forall y :: y in t.files && y.sourceHash == f.sourceHash ==> y == g)
  }

  function FileDelta(change: string, g: FileCard, previous: Option<FileCard>): Delta {
    Delta(0, change, "file", RenderEntity(g.fileId), if previous.Some? then Some(RenderEntity(previous.value.fileId)) else None)
  }

  /** A file on both sides: reused if its bytes are the same, modified if not. */
  ghost predicate Paired(b: Bundle, t: Bundle, f: FileCard, g: FileCard, d: Delta) {
    f in b.files && g in t.files && SameFile(f, g) && d == FileDelta(if f.sourceHash == g.sourceHash then "reused" else "modified", g, Some(f))
  }

  /** The comparison before renames are inferred. */
  ghost predicate Compared(b: Bundle, t: Bundle, d: Delta) {
    || (exists f, g :: Paired(b, t, f, g, d))
    || (exists g :: Gained(b, t, g) && d == FileDelta("added", g, None))
    || (exists f :: Lost(b, t, f) && d == FileDelta("deleted", f, None))
  }

  ghost predicate SaysMoved(b: Bundle, t: Bundle, d: Delta) { exists f, g :: Moved(b, t, f, g) && d == FileDelta("renamed", g, Some(f)) }
  ghost predicate SaysPair(b: Bundle, t: Bundle, d: Delta) { exists f, g :: Paired(b, t, f, g, d) }

  ghost predicate SaysGained(b: Bundle, t: Bundle, d: Delta) {
    exists g :: Gained(b, t, g) && (forall f :: !Moved(b, t, f, g)) && d == FileDelta("added", g, None)
  }

  ghost predicate SaysLost(b: Bundle, t: Bundle, d: Delta) {
    exists f :: Lost(b, t, f) && (forall g :: !Moved(b, t, f, g)) && d == FileDelta("deleted", f, None)
  }

  /** What each file delta of the list says. */
  ghost predicate FileSays(b: Bundle, t: Bundle, d: Delta) {
    SaysPair(b, t, d) || SaysMoved(b, t, d) || SaysGained(b, t, d) || SaysLost(b, t, d)
  }

  /** File lineages are the repository and the path, and no two files of a bundle share one. */
  ghost predicate Filed(b: Bundle) {
    && (forall f :: f in b.files ==> f.lineageId == FileLineage(f.repositoryId, f.path))
    && (forall i, j :: 0 <= i < j < |b.files| ==> !SameFile(b.files[i], b.files[j]))
    && (forall i, j :: 0 <= i < j < |b.files| ==> b.files[i].fileId != b.files[j].fileId)
  }

  lemma ValidIsFiled(b: Bundle)
    requires BundleValid(b)
    ensures Filed(b)
  {
    forall f | f in b.files ensures f.lineageId == FileLineage(f.repositoryId, f.path) { assert FileInSnapshot(b.snapshot, f); }
  }

  lemma LineageTexts(f: FileCard, g: FileCard)
    requires f.lineageId == FileLineage(f.repositoryId, f.path) && g.lineageId == FileLineage(g.repositoryId, g.path)
    ensures RenderLineage(f.lineageId) == RenderLineage(g.lineageId) <==> SameFile(f, g)
  {
    if RenderLineage(f.lineageId) == RenderLineage(g.lineageId) { LineageInjective(f.lineageId, g.lineageId); }
  }

  lemma InFileLineage(b: Bundle, f: FileCard, i: nat)
    requires Filed(b) && f.lineageId == FileLineage(f.repositoryId, f.path) && i < |b.files|
    ensures InLineage(RenderLineage(f.lineageId))(FileCards(b)[i]) <==> SameFile(b.files[i], f)
  {
    assert b.files[i] in b.files;
    LineageTexts(b.files[i], f);
  }

  /** The lineage of a file the bundle does not hold has no version there. */
  lemma NoVersions(b: Bundle, f: FileCard)
    requires Filed(b) && f.lineageId == FileLineage(f.repositoryId, f.path) && forall g :: g in b.files ==> !SameFile(g, f)
    ensures Versions(FileCards(b), RenderLineage(f.lineageId)) == []
  {
    var cards, of := FileCards(b), InLineage(RenderLineage(f.lineageId));
    forall c | c in cards ensures !of(c) {
      var i :| 0 <= i < |cards| && cards[i] == c;
      InFileLineage(b, f, i);
      assert b.files[i] in b.files;
    }
    FilterNone(of, cards);
  }

  /** The lineage of a file the bundle holds has that one version. */
  lemma OneVersion(b: Bundle, f: FileCard, g: FileCard)
    requires Filed(b) && f.lineageId == FileLineage(f.repositoryId, f.path) && g in b.files && SameFile(g, f)
    ensures Versions(FileCards(b), RenderLineage(f.lineageId)) == [FileVersion(g).version]
  {
    var cards, of := FileCards(b), InLineage(RenderLineage(f.lineageId));
    var i :| 0 <= i < |b.files| && b.files[i] == g;
    InFileLineage(b, f, i);
    forall j | 0 <= j < |cards| && j != i ensures !of(cards[j]) {
      InFileLineage(b, f, j);
      if j < i { assert !SameFile(b.files[j], b.files[i]); } else { assert !SameFile(b.files[i], b.files[j]); }
    }
    FilterSingle(of, cards, i);
  }

  /** The comparison of one lineage yields just this delta; unfolded only where a proof mentions `Open`. */
  ghost predicate Yields(b: Bundle, t: Bundle, l: string, d: Delta) {
    forall k: int {:trigger Open(k)} :: Open(k) ==> Comparer("file", FileCards(b), FileCards(t))(l) == [d]
  }

  lemma YieldsPair(b: Bundle, t: Bundle, l: string, v: Version, w: Version)
    requires Versions(FileCards(b), l) == [v] && Versions(FileCards(t), l) == [w]
    ensures Yields(b, t, l, Delta(0, if v.fingerprint == w.fingerprint then "reused" else "modified", "file", w.id, Some(v.id)))
  {
    SmallLineage("file", [v], [w]);
  }

  lemma YieldsDeleted(b: Bundle, t: Bundle, l: string, v: Version)
    requires Versions(FileCards(b), l) == [v] && Versions(FileCards(t), l) == []
    ensures Yields(b, t, l, Delta(0, "deleted", "file", v.id, None))
  {
    SmallLineage("file", [v], []);
  }

  lemma YieldsAdded(b: Bundle, t: Bundle, l: string, w: Version)
    requires Versions(FileCards(b), l) == [] && Versions(FileCards(t), l) == [w]
    ensures Yields(b, t, l, Delta(0, "added", "file", w.id, None))
  {
    SmallLineage("file", [], [w]);
  }

  function PairDelta(f: FileCard, g: FileCard): Delta {
    FileDelta(if f.sourceHash == g.sourceHash then "reused" else "modified", g, Some(f))
  }

  lemma PairDeltas(b: Bundle, t: Bundle, f: FileCard, g: FileCard)
    requires Filed(b) && Filed(t) && f in b.files && g in t.files && SameFile(f, g)
    ensures Yields(b, t, RenderLineage(f.lineageId), PairDelta(f, g))
  {
    OneVersion(b, f, f);
    OneVersion(t, f, g);
    YieldsPair(b, t, RenderLineage(f.lineageId), FileVersion(f).version, FileVersion(g).version);
  }

  lemma LostVersions(b: Bundle, t: Bundle, f: FileCard)
    requires Filed(t) && Lost(b, t, f) && f.lineageId == FileLineage(f.repositoryId, f.path)
    ensures Versions(FileCards(t), RenderLineage(f.lineageId)) == []
  {
    forall g | g in t.files ensures !SameFile(g, f) { assert !SameFile(f, g); }
    NoVersions(t, f);
  }

  lemma LostDeltas(b: Bundle, t: Bundle, f: FileCard)
    requires Filed(b) && Filed(t) && f in b.files && Lost(b, t, f)
    ensures Yields(b, t, RenderLineage(f.lineageId), FileDelta("deleted", f, None))
  {
    OneVersion(b, f, f);
    LostVersions(b, t, f);
    var l, v := RenderLineage(f.lineageId), FileVersion(f).version;
    YieldsDeleted(b, t, l, v);
    assert FileDelta("deleted", f, None) == Delta(0, "deleted", "file", v.id, None);
  }

  lemma GainedDeltas(b: Bundle, t: Bundle, g: FileCard)
    requires Filed(b) && Filed(t) && Gained(b, t, g)
    ensures Yields(b, t, RenderLineage(g.lineageId), FileDelta("added", g, None))
  {
    NoVersions(b, g);
    OneVersion(t, g, g);
    YieldsAdded(b, t, RenderLineage(g.lineageId), FileVersion(g).version);
  }

  lemma AtBaseline(b: Bundle, t: Bundle, f: FileCard) returns (d: Delta)
    requires Filed(b) && Filed(t) && f in b.files
    ensures Compared(b, t, d) && Yields(b, t, RenderLineage(f.lineageId), d)
  {
    if g :| g in t.files && SameFile(f, g) {
      PairDeltas(b, t, f, g);
      d := PairDelta(f, g);
      assert Paired(b, t, f, g, d);
    } else {
      assert Lost(b, t, f);
      LostDeltas(b, t, f);
      d := FileDelta("deleted", f, None);
    }
  }

  lemma AtTarget(b: Bundle, t: Bundle, g: FileCard) returns (d: Delta)
    requires Filed(b) && Filed(t) && g in t.files
    ensures Compared(b, t, d) && Yields(b, t, RenderLineage(g.lineageId), d)
  {
    if f :| f in b.files && SameFile(f, g) {
      assert f.lineageId == g.lineageId;
      PairDeltas(b, t, f, g);
      d := PairDelta(f, g);
      assert Paired(b, t, f, g, d);
    } else {
      assert Gained(b, t, g);
      GainedDeltas(b, t, g);
      d := FileDelta("added", g, None);
    }
  }

  lemma HomeLineage(b: Bundle, l: string) returns (h: FileCard)
    requires l in Lineages(FileCards(b))
    ensures h in b.files && RenderLineage(h.lineageId) == l
  {
    var c :| c in FileCards(b) && c.lineage == l;
    var i :| 0 <= i < |FileCards(b)| && FileCards(b)[i] == c;
    h := b.files[i];
  }

  lemma LineageListed(b: Bundle, f: FileCard)
    requires f in b.files
    ensures RenderLineage(f.lineageId) in Lineages(FileCards(b))
  {
    var i :| 0 <= i < |b.files| && b.files[i] == f;
    assert FileCards(b)[i] in FileCards(b);
  }

  lemma YieldedIs(b: Bundle, t: Bundle, order: seq<string>, d: Delta) returns (l: string)
    requires d in KindDeltas("file", FileCards(b), FileCards(t), order)
    ensures l in order && d in Comparer("file", FileCards(b), FileCards(t))(l)
  {
    var compare := Comparer("file", FileCards(b), FileCards(t));
    FlatMapMember(compare, order, d);
    l :| l in order && d in compare(l);
  }

  lemma YieldsOne(b: Bundle, t: Bundle, l: string, d: Delta, e: Delta)
    requires Yields(b, t, l, e) && d in Comparer("file", FileCards(b), FileCards(t))(l)
    ensures d == e
  {
    assert Open(0);
  }

  lemma YieldedListed(b: Bundle, t: Bundle, order: seq<string>, l: string, d: Delta)
    requires l in order && Yields(b, t, l, d)
    ensures d in KindDeltas("file", FileCards(b), FileCards(t), order)
  {
    assert Open(0);
    FlatMapHolds(Comparer("file", FileCards(b), FileCards(t)), order, l, d);
  }

  lemma LineageIsCompared(b: Bundle, t: Bundle, l: string) returns (d: Delta)
    requires Filed(b) && Filed(t) && l in Lineages(FileCards(b)) + Lineages(FileCards(t))
    ensures Compared(b, t, d) && Yields(b, t, l, d)
  {
    if l in Lineages(FileCards(b)) {
      var h := HomeLineage(b, l);
      d := AtBaseline(b, t, h);
    } else {
      var h := HomeLineage(t, l);
      d := AtTarget(b, t, h);
    }
  }

  lemma ListedIsCompared(b: Bundle, t: Bundle, order: seq<string>, d: Delta)
    requires Filed(b) && Filed(t) && ListsOnce(order, Lineages(FileCards(b)) + Lineages(FileCards(t)))
    requires d in KindDeltas("file", FileCards(b), FileCards(t), order)
    ensures Compared(b, t, d)
  {
    ListedOnce(order, Lineages(FileCards(b)) + Lineages(FileCards(t)));
    var l := YieldedIs(b, t, order, d);
    var e := LineageIsCompared(b, t, l);
    YieldsOne(b, t, l, d, e);
  }

  lemma ComparedIsListed(b: Bundle, t: Bundle, order: seq<string>, d: Delta)
    requires Filed(b) && Filed(t) && ListsOnce(order, Lineages(FileCards(b)) + Lineages(FileCards(t)))
    requires Compared(b, t, d)
    ensures d in KindDeltas("file", FileCards(b), FileCards(t), order)
  {
    ListedOnce(order, Lineages(FileCards(b)) + Lineages(FileCards(t)));
    var l := ComparedAt(b, t, d);
    YieldedListed(b, t, order, l, d);
  }

  lemma ComparedAt(b: Bundle, t: Bundle, d: Delta) returns (l: string)
    requires Filed(b) && Filed(t) && Compared(b, t, d)
    ensures Yields(b, t, l, d) && l in Lineages(FileCards(b)) + Lineages(FileCards(t))
  {
    if f, g :| Paired(b, t, f, g, d) {
      l := RenderLineage(f.lineageId);
      PairDeltas(b, t, f, g);
      LineageListed(b, f);
    } else if g :| Gained(b, t, g) && d == FileDelta("added", g, None) {
      l := RenderLineage(g.lineageId);
      GainedDeltas(b, t, g);
      LineageListed(t, g);
    } else {
      var f :| Lost(b, t, f) && d == FileDelta("deleted", f, None);
      l := RenderLineage(f.lineageId);
      LostDeltas(b, t, f);
      LineageListed(b, f);
    }
  }

  // ----------------------------------------------------------------- renames

  lemma RewrittenExactly(ds: seq<Delta>, base: seq<FileRow>, target: seq<FileRow>, d: Delta)
    ensures var s := SceneOf(ds, base, target);
      d in WithRenames(ds, base, target) <==>
        || (d in ds && !Dropped(s, d) && !Turned(s, d))
        || exists e :: e in ds && Turned(s, e) && !Dropped(s, e) && d == RenamedDelta(s, e)
  {
    var s := SceneOf(ds, base, target);
    if d in WithRenames(ds, base, target) {
      FlatMapMember(Rewriter(s), ds, d);
      var e :| e in ds && d in Rewriter(s)(e);
    }
    if d in ds && !Dropped(s, d) && !Turned(s, d) { FlatMapHolds(Rewriter(s), ds, d, d); }
    if e :| e in ds && Turned(s, e) && !Dropped(s, e) && d == RenamedDelta(s, e) { FlatMapHolds(Rewriter(s), ds, e, d); }
  }

  lemma OnlyHashed(rows: seq<FileRow>, x: FileRow)
    requires DistinctRows(rows) && x in rows && forall f :: f in rows && f.hash == x.hash ==> f == x
    ensures Filter(Hashed(x.hash), rows) == [x]
  {
    var i :| 0 <= i < |rows| && rows[i] == x;
    forall j | 0 <= j < |rows| && j != i ensures !Hashed(x.hash)(rows[j]) {
      if j < i { assert rows[j].id != rows[i].id; } else { assert rows[i].id != rows[j].id; }
      assert rows[j] in rows;
    }
    FilterSingle(Hashed(x.hash), rows, i);
  }

  /** An exact rename is inferred. */
  lemma RenameFound(s: Renames.Scene, x: FileRow, y: FileRow)
    requires DistinctRows(s.base) && DistinctRows(s.target) && ExactRename(s, x, y)
    ensures SourceOf(s, y.id) == Some(x.id) && RenamedAway(s, x.id)
  {
    OnlyHashed(s.base, x);
    OnlyHashed(s.target, y);
    RowFound(s.base, x);
    RowFound(s.target, y);
  }

  /** The scene the renames of two bundles are inferred from. */
  ghost predicate SceneFor(b: Bundle, t: Bundle, s: Renames.Scene) {
    && s.base == Rows(b) && s.target == Rows(t)
    && (forall id :: id in s.deleted <==> exists f :: Lost(b, t, f) && RenderEntity(f.fileId) == id)
    && (forall id :: id in s.added <==> exists g :: Gained(b, t, g) && RenderEntity(g.fileId) == id)
  }

  lemma RowIn(b: Bundle, f: FileCard)
    requires f in b.files
    ensures RowOf(f) in Rows(b)
  {
    var i :| 0 <= i < |b.files| && b.files[i] == f;
    assert Rows(b)[i] == RowOf(f);
  }

  lemma SameRow(b: Bundle, f: FileCard, g: FileCard)
    requires Filed(b) && f in b.files && g in b.files && RenderEntity(f.fileId) == RenderEntity(g.fileId)
    ensures f == g
  {
    EntityInjective(f.fileId, g.fileId);
    var i :| 0 <= i < |b.files| && b.files[i] == f;
    var j :| 0 <= j < |b.files| && b.files[j] == g;
  }

  lemma RowsDistinct(b: Bundle)
    requires Filed(b)
    ensures DistinctRows(Rows(b))
  {
    var rows := Rows(b);
    forall i, j | 0 <= i < j < |rows| ensures rows[i].id != rows[j].id {
      if rows[i].id == rows[j].id { EntityInjective(b.files[i].fileId, b.files[j].fileId); }
    }
  }

  lemma MovedIsRename(b: Bundle, t: Bundle, s: Renames.Scene, f: FileCard, g: FileCard)
    requires SceneFor(b, t, s) && Moved(b, t, f, g)
    ensures ExactRename(s, RowOf(f), RowOf(g))
  {
    RowIn(b, f);
    RowIn(t, g);
    forall x | x in s.base && x.hash == f.sourceHash ensures x == RowOf(f) { MapMember(RowOf, b.files, x); }
    forall y | y in s.target && y.hash == f.sourceHash ensures y == RowOf(g) { MapMember(RowOf, t.files, y); }
  }

  lemma RenameIsMoved(b: Bundle, t: Bundle, s: Renames.Scene, x: FileRow, y: FileRow) returns (f: FileCard, g: FileCard)
    requires Filed(b) && Filed(t) && SceneFor(b, t, s) && ExactRename(s, x, y)
    ensures Moved(b, t, f, g) && RowOf(f) == x && RowOf(g) == y
  {
    f := RenamedFrom(b, t, s, x);
    g := RenamedTo(b, t, s, y);
    forall h | h in b.files && h.sourceHash == f.sourceHash ensures h == f { RowIn(b, h); SameRow(b, h, f); }
    forall h | h in t.files && h.sourceHash == f.sourceHash ensures h == g { RowIn(t, h); SameRow(t, h, g); }
  }

  lemma RenamedFrom(b: Bundle, t: Bundle, s: Renames.Scene, x: FileRow) returns (f: FileCard)
    requires Filed(b) && SceneFor(b, t, s) && x in s.base && x.id in s.deleted
    ensures Lost(b, t, f) && RowOf(f) == x
  {
    f :| Lost(b, t, f) && RenderEntity(f.fileId) == x.id;
    MapMember(RowOf, b.files, x);
    var h :| h in b.files && RowOf(h) == x;
    SameRow(b, f, h);
  }

  lemma RenamedTo(b: Bundle, t: Bundle, s: Renames.Scene, y: FileRow) returns (g: FileCard)
    requires Filed(t) && SceneFor(b, t, s) && y in s.target && y.id in s.added
    ensures Gained(b, t, g) && RowOf(g) == y
  {
    g :| Gained(b, t, g) && RenderEntity(g.fileId) == y.id;
    MapMember(RowOf, t.files, y);
    var h :| h in t.files && RowOf(h) == y;
    SameRow(t, g, h);
  }

  // ------------------------------------------------- the file deltas, exactly

  lemma SourceIs(b: Bundle, t: Bundle, s: Renames.Scene, g: FileCard)
    requires Filed(b) && Filed(t) && SceneFor(b, t, s) && g in t.files
    ensures SourceOf(s, RenderEntity(g.fileId)).Some? ==>
      exists f :: Moved(b, t, f, g) && SourceOf(s, RenderEntity(g.fileId)) == Some(RenderEntity(f.fileId))
    ensures forall f :: Moved(b, t, f, g) ==> SourceOf(s, RenderEntity(g.fileId)) == Some(RenderEntity(f.fileId))
  {
    RowsDistinct(b);
    RowsDistinct(t);
    var id := RenderEntity(g.fileId);
    if SourceOf(s, id).Some? {
      var h := SourceMeans(s, id);
      var x, y := PairMeans(s, h);
      var f, g2 := RenameIsMoved(b, t, s, x, y);
      SameRow(t, g, g2);
    }
    forall f | Moved(b, t, f, g) ensures SourceOf(s, id) == Some(RenderEntity(f.fileId)) {
      MovedIsRename(b, t, s, f, g);
      RenameFound(s, RowOf(f), RowOf(g));
    }
  }

  lemma AwayIs(b: Bundle, t: Bundle, s: Renames.Scene, f: FileCard)
    requires Filed(b) && Filed(t) && SceneFor(b, t, s) && f in b.files
    ensures RenamedAway(s, RenderEntity(f.fileId)) <==> exists g :: Moved(b, t, f, g)
  {
    RowsDistinct(b);
    RowsDistinct(t);
    if RenamedAway(s, RenderEntity(f.fileId)) {
      var h := AwayMeans(s, RenderEntity(f.fileId));
      var x, y := PairMeans(s, h);
      var f2, g := RenameIsMoved(b, t, s, x, y);
      SameRow(b, f, f2);
    }
    if g :| Moved(b, t, f, g) {
      MovedIsRename(b, t, s, f, g);
      RenameFound(s, RowOf(f), RowOf(g));
    }
  }

  /** The list of the comparison, as the renames see it. */
  ghost predicate ListsCompared(b: Bundle, t: Bundle, ds: seq<Delta>) { forall d :: d in ds <==> Compared(b, t, d) }

  lemma ChangesApart()
    ensures "added" != "deleted" && "added" != "reused" && "added" != "modified" && "deleted" != "reused" && "deleted" != "modified"
  {
    assert "added"[0] == 'a' && "reused"[0] == 'r' && "modified"[0] == 'm' && "deleted"[0] == 'd';
  }

  lemma ComparedDeleted(b: Bundle, t: Bundle, d: Delta) returns (f: FileCard)
    requires Compared(b, t, d) && d.change == "deleted"
    ensures Lost(b, t, f) && d == FileDelta("deleted", f, None)
  {
    ChangesApart();
    f :| Lost(b, t, f) && d == FileDelta("deleted", f, None);
  }

  lemma ComparedAdded(b: Bundle, t: Bundle, d: Delta) returns (g: FileCard)
    requires Compared(b, t, d) && d.change == "added"
    ensures Gained(b, t, g) && d == FileDelta("added", g, None)
  {
    ChangesApart();
    g :| Gained(b, t, g) && d == FileDelta("added", g, None);
  }

  lemma DeletedIds(b: Bundle, t: Bundle, ds: seq<Delta>, id: string)
    requires ListsCompared(b, t, ds)
    ensures id in IdsWith(ds, "deleted") <==> exists f :: Lost(b, t, f) && RenderEntity(f.fileId) == id
  {
    if id in IdsWith(ds, "deleted") {
      var d :| d in ds && IsFile(d, "deleted") && d.id == id;
      var f := ComparedDeleted(b, t, d);
    }
    if f :| Lost(b, t, f) && RenderEntity(f.fileId) == id { assert FileDelta("deleted", f, None) in ds; }
  }

  lemma AddedIds(b: Bundle, t: Bundle, ds: seq<Delta>, id: string)
    requires ListsCompared(b, t, ds)
    ensures id in IdsWith(ds, "added") <==> exists g :: Gained(b, t, g) && RenderEntity(g.fileId) == id
  {
    if id in IdsWith(ds, "added") {
      var d :| d in ds && IsFile(d, "added") && d.id == id;
      var g := ComparedAdded(b, t, d);
    }
    if g :| Gained(b, t, g) && RenderEntity(g.fileId) == id { assert FileDelta("added", g, None) in ds; }
  }

  lemma ListGivesScene(b: Bundle, t: Bundle, ds: seq<Delta>)
    requires ListsCompared(b, t, ds)
    ensures SceneFor(b, t, SceneOf(ds, Rows(b), Rows(t)))
  {
    var s := SceneOf(ds, Rows(b), Rows(t));
    forall id ensures id in s.deleted <==> exists f :: Lost(b, t, f) && RenderEntity(f.fileId) == id { DeletedIds(b, t, ds, id); }
    forall id ensures id in s.added <==> exists g :: Gained(b, t, g) && RenderEntity(g.fileId) == id { AddedIds(b, t, ds, id); }
  }

  lemma PairKept(b: Bundle, t: Bundle, s: Renames.Scene, f: FileCard, g: FileCard, d: Delta)
    requires Paired(b, t, f, g, d)
    ensures !Dropped(s, d) && !Turned(s, d)
  {
    ChangesApart();
  }

  lemma AddedKept(b: Bundle, t: Bundle, s: Renames.Scene, g: FileCard)
    requires Filed(b) && Filed(t) && SceneFor(b, t, s) && Gained(b, t, g)
    ensures var d := FileDelta("added", g, None); !Dropped(s, d) && (!Turned(s, d) <==> forall f :: !Moved(b, t, f, g))
  {
    ChangesApart();
    SourceIs(b, t, s, g);
  }

  lemma DeletedKept(b: Bundle, t: Bundle, s: Renames.Scene, f: FileCard)
    requires Filed(b) && Filed(t) && SceneFor(b, t, s) && Lost(b, t, f)
    ensures var d := FileDelta("deleted", f, None); !Turned(s, d) && (!Dropped(s, d) <==> forall g :: !Moved(b, t, f, g))
  {
    ChangesApart();
    AwayIs(b, t, s, f);
  }

  /** A delta the renames leave alone. */
  lemma KeptSays(b: Bundle, t: Bundle, s: Renames.Scene, d: Delta)
    requires Filed(b) && Filed(t) && SceneFor(b, t, s) && Compared(b, t, d) && !Dropped(s, d) && !Turned(s, d)
    ensures FileSays(b, t, d)
  {
    if f, g :| Paired(b, t, f, g, d) {
    } else if g :| Gained(b, t, g) && d == FileDelta("added", g, None) {
      AddedKept(b, t, s, g);
      assert SaysGained(b, t, d);
    } else {
      var f :| Lost(b, t, f) && d == FileDelta("deleted", f, None);
      DeletedKept(b, t, s, f);
      assert SaysLost(b, t, d);
    }
  }

  lemma SaysKept(b: Bundle, t: Bundle, s: Renames.Scene, d: Delta)
    requires Filed(b) && Filed(t) && SceneFor(b, t, s) && FileSays(b, t, d) && !SaysMoved(b, t, d)
    ensures Compared(b, t, d) && !Dropped(s, d) && !Turned(s, d)
  {
    if SaysPair(b, t, d) {
      var f, g :| Paired(b, t, f, g, d);
      PairKept(b, t, s, f, g, d);
    } else if SaysGained(b, t, d) {
      var g :| Gained(b, t, g) && (forall f :: !Moved(b, t, f, g)) && d == FileDelta("added", g, None);
      AddedKept(b, t, s, g);
    } else {
      var f :| Lost(b, t, f) && (forall g :: !Moved(b, t, f, g)) && d == FileDelta("deleted", f, None);
      DeletedKept(b, t, s, f);
    }
  }

  /** A delta the renames make. */
  lemma TurnedSays(b: Bundle, t: Bundle, s: Renames.Scene, e: Delta)
    requires Filed(b) && Filed(t) && SceneFor(b, t, s) && Compared(b, t, e) && Turned(s, e)
    ensures SaysMoved(b, t, RenamedDelta(s, e))
  {
    var g := ComparedAdded(b, t, e);
    SourceIs(b, t, s, g);
    var f :| Moved(b, t, f, g) && SourceOf(s, RenderEntity(g.fileId)) == Some(RenderEntity(f.fileId));
  }

  lemma MovedTurns(b: Bundle, t: Bundle, s: Renames.Scene, f: FileCard, g: FileCard)
    requires Filed(b) && Filed(t) && SceneFor(b, t, s) && Moved(b, t, f, g)
    ensures var e := FileDelta("added", g, None); Turned(s, e) && !Dropped(s, e) && RenamedDelta(s, e) == FileDelta("renamed", g, Some(f))
  {
    ChangesApart();
    SourceIs(b, t, s, g);
  }

  lemma RewrittenSays(b: Bundle, t: Bundle, ds: seq<Delta>, d: Delta)
    requires Filed(b) && Filed(t) && ListsCompared(b, t, ds)
    ensures d in WithRenames(ds, Rows(b), Rows(t)) <==> FileSays(b, t, d)
  {
    var s := SceneOf(ds, Rows(b), Rows(t));
    ListGivesScene(b, t, ds);
    RewrittenExactly(ds, Rows(b), Rows(t), d);
    if d in WithRenames(ds, Rows(b), Rows(t)) {
      if d in ds && !Dropped(s, d) && !Turned(s, d) {
        KeptSays(b, t, s, d);
      } else {
        var e :| e in ds && Turned(s, e) && !Dropped(s, e) && d == RenamedDelta(s, e);
        TurnedSays(b, t, s, e);
      }
    }
    if SaysMoved(b, t, d) {
      var f, g :| Moved(b, t, f, g) && d == FileDelta("renamed", g, Some(f));
      MovedTurns(b, t, s, f, g);
      assert FileDelta("added", g, None) in ds;
    } else if FileSays(b, t, d) {
      SaysKept(b, t, s, d);
    }
  }

  // ------------------------------------------------------------ the whole list

  lemma ListedParts(b: Bundle, t: Bundle, d: Delta)
    ensures d in Listed(b, t) <==>
      || d in FileDeltas(b, t, SomeOrder(FileCards(b), FileCards(t)))
      || d in SymbolDeltas(b, t, SomeOrder(SymbolCards(b), SymbolCards(t)))
      || d in RelationDeltas(b, t, SomeOrder(RelationCards(b), RelationCards(t)))
  {
    var all := FileDeltas(b, t, SomeOrder(FileCards(b), FileCards(t)))
      + SymbolDeltas(b, t, SomeOrder(SymbolCards(b), SymbolCards(t)))
      + RelationDeltas(b, t, SomeOrder(RelationCards(b), RelationCards(t)));
    SortPermutes(DeltaLess, all);
    MemberPermutes(Listed(b, t), all, d);
  }

  lemma OtherKinds(b: Bundle, t: Bundle, d: Delta)
    ensures d in SymbolDeltas(b, t, SomeOrder(SymbolCards(b), SymbolCards(t))) ==> d.kind == "symbol"
    ensures d in RelationDeltas(b, t, SomeOrder(RelationCards(b), RelationCards(t))) ==> d.kind == "relation"
  {
    var x, y := SomeOrder(SymbolCards(b), SymbolCards(t)), SomeOrder(RelationCards(b), RelationCards(t));
    if d in SymbolDeltas(b, t, x) { KindPlain("symbol", SymbolCards(b), SymbolCards(t), x, d); }
    if d in RelationDeltas(b, t, y) { KindPlain("relation", RelationCards(b), RelationCards(t), y, d); }
  }

  lemma KindsDiffer()
    ensures "file" != "symbol" && "file" != "relation" && "symbol" != "relation"
  {
    assert "file"[0] == 'f' && "symbol"[0] == 's' && "relation"[0] == 'r';
  }

  lemma ListsAllCompared(b: Bundle, t: Bundle, order: seq<string>)
    requires Filed(b) && Filed(t) && ListsOnce(order, Lineages(FileCards(b)) + Lineages(FileCards(t)))
    ensures ListsCompared(b, t, KindDeltas("file", FileCards(b), FileCards(t), order))
  {
    forall e ensures e in KindDeltas("file", FileCards(b), FileCards(t), order) <==> Compared(b, t, e) {
      if e in KindDeltas("file", FileCards(b), FileCards(t), order) { ListedIsCompared(b, t, order, e); }
      if Compared(b, t, e) { ComparedIsListed(b, t, order, e); }
    }
  }

  lemma FileListExactly(b: Bundle, t: Bundle, d: Delta)
    requires Filed(b) && Filed(t)
    ensures d in FileDeltas(b, t, SomeOrder(FileCards(b), FileCards(t))) <==> FileSays(b, t, d)
  {
    var order := SomeOrder(FileCards(b), FileCards(t));
    SomeOrderLists(FileCards(b), FileCards(t));
    ListsAllCompared(b, t, order);
    RewrittenSays(b, t, KindDeltas("file", FileCards(b), FileCards(t), order), d);
  }

  lemma SaysKind(b: Bundle, t: Bundle, d: Delta)
    requires FileSays(b, t, d)
    ensures d.kind == "file"
  {}

  lemma ListedFiles(b: Bundle, t: Bundle, d: Delta)
    requires Filed(b) && Filed(t)
    ensures d in Listed(b, t) && d.kind == "file" <==> FileSays(b, t, d)
  {
    FileListExactly(b, t, d);
    ListedParts(b, t, d);
    OtherKinds(b, t, d);
    KindsDiffer();
    if FileSays(b, t, d) { SaysKind(b, t, d); }
  }

  /** The file deltas of the list are exactly what the cards of the two bundles
      call for: reused or modified by the bytes of a file on both sides, renamed,
      added and deleted by the files on one side only. */
  lemma FileDeltasExactly(b: Bundle, t: Bundle, d: Delta)
    requires BundleValid(b) && BundleValid(t)
    ensures d in Listed(b, t) && d.kind == "file" <==> FileSays(b, t, d)
  {
    ValidIsFiled(b);
    ValidIsFiled(t);
    ListedFiles(b, t, d);
  }
}
