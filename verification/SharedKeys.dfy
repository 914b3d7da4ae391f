/** Rebinding where a run from scratch fails: two adapters that emit one symbol
    key, one of them carried over. The shipped adapters begin every key with
    their language and never do this. */
module SharedKeys {
  import opened Ordering
  import opened Seqs
  import opened Cards
  import opened Bundles
  import opened Normalization
  import opened NormalizationProofs
  import opened Reuse
  import opened ReuseProofs
  import opened IncrementalIndexing

  // ------------------------------------------------------------ one symbol

  function OnlyHash(): RawRelation -> string { (r: RawRelation) => "hash" }

  ghost predicate GoodDocument(d: Document) { forall k: int {:trigger Open(k)} :: Open(k) ==> DocumentOk(d) }

  predicate DocumentOk(d: Document) {
    && 0 <= d.sizeBytes <= 0x100_0000 && NormalizedPath(d.path)
    && d.language in ["go", "typescript", "javascript", "python", "json", "yaml", "markdown", "other"]
  }

  /** A symbol an adapter may emit for a document. */
  ghost predicate GoodSymbol(s: Snapshot, d: Document, x: RawSymbol, a: AdapterDescriptor) {
    && x.path == d.path && x.language == d.language && RangeWithin(x.declaration, |d.body|) && Owns(a, x.language)
    && forall k: int {:trigger Open(k)} :: Open(k) ==>
         ValidRange(x.declaration) && ValidSymbolCard(CardOf(s, d, x)) && !Blank(x.key) && ValidAdapter(a)
  }

  function DeclaredBy(s: Snapshot, d: Document, x: RawSymbol, a: AdapterDescriptor): RelationEvidence {
    MakeRelation(s.snapshotId, FileIdFor(s, d), "declares", Some(CardOf(s, d, x).symbolId), None, "confirmed_static",
      FileIdFor(s, d), x.declaration, "hash", a)
  }

  /** The card of a document without diagnostics. */
  function PlainFile(s: Snapshot, d: Document, ids: seq<EntityId>): FileCard { FileCardFor(s, d, ids, []) }

  function IdsIn(s: Snapshot, d: Document, e: Document, x: RawSymbol): seq<EntityId> {
    if FileIdFor(s, e) == FileIdFor(s, d) then [CardOf(s, d, x).symbolId] else []
  }

  lemma PlainFileValid(s: Snapshot, d: Document, ids: seq<EntityId>)
    requires GoodDocument(d) && |ids| <= 1 && forall e :: e in ids ==> e.SymbolId?
    ensures ValidFileCard(PlainFile(s, d, ids))
  {
    assert Open(0);
  }

  lemma DeclaredValid(s: Snapshot, d: Document, x: RawSymbol, a: AdapterDescriptor)
    requires GoodSymbol(s, d, x, a)
    ensures ValidRelation(DeclaredBy(s, d, x, a))
  {
    assert Open(0);
  }

  /** Results that hold one symbol and nothing else. */
  ghost predicate Single(docs: seq<Document>, rs: seq<RawResult>, d: Document, x: RawSymbol, a: AdapterDescriptor) {
    && DistinctPaths(docs) && (forall e :: e in docs ==> GoodDocument(e)) && d in docs
    && TaggedSymbols(rs) == [Tagged(x, a)] && TaggedRelations(rs) == [] && AllDiagnostics(rs) == []
  }

  lemma SingleSymbols(s: Snapshot, docs: seq<Document>, rs: seq<RawResult>, d: Document, x: RawSymbol, a: AdapterDescriptor)
    requires Single(docs, rs, d, x, a) && GoodSymbol(s, d, x, a)
    ensures SortedSymbols(rs) == [Tagged(x, a)] && Symbols(s, docs, rs) == [CardOf(s, d, x)]
    ensures SymbolsAccepted(s, docs, rs)
  {
    DocAtUnique(docs, d);
    SortOne(SymbolBefore, [Tagged(x, a)]);
    assert Open(0);
  }

  lemma KeyMapOne(card: Tagged<RawSymbol> -> SymbolCard, t: Tagged<RawSymbol>)
    ensures KeyMap(card, [t]) == map[t.raw.key := card(t).symbolId]
  {
    assert [t][..0] == [] && KeyMap(card, []) == map[];
  }

  lemma SymbolsOfOne(card: SymbolCard, id: EntityId)
    ensures SymbolsOf([card], id) == if card.fileId == id then [card.symbolId] else []
  {
    assert [card][1..] == [] && SymbolsOf([], id) == [];
  }

  lemma SortOne<T>(less: (T, T) -> bool, s: seq<T>)
    requires |s| <= 1
    ensures Sort(less, s) == s
  {
    if s != [] { assert s[1..] == []; }
  }

  lemma SingleKeys(s: Snapshot, docs: seq<Document>, rs: seq<RawResult>, d: Document, x: RawSymbol, a: AdapterDescriptor)
    requires Single(docs, rs, d, x, a) && GoodSymbol(s, d, x, a)
    ensures Keys(s, docs, rs) == map[x.key := CardOf(s, d, x).symbolId] && RawRelations(rs) == [DeclareOf(Tagged(x, a))]
  {
    SingleSymbols(s, docs, rs, d, x, a);
    DocAtUnique(docs, d);
    KeyMapOne(Carder(s, docs), Tagged(x, a));
  }

  lemma SingleRelations(s: Snapshot, docs: seq<Document>, rs: seq<RawResult>, d: Document, x: RawSymbol, a: AdapterDescriptor)
    requires Single(docs, rs, d, x, a) && GoodSymbol(s, d, x, a)
    ensures UnsortedRelations(OnlyHash(), s, docs, rs) == [DeclaredBy(s, d, x, a)]
    ensures RelationsAccepted(OnlyHash(), s, docs, rs)
  {
    SingleKeys(s, docs, rs, d, x, a);
    DocAtUnique(docs, d);
    DeclaredValid(s, d, x, a);
    var t, keys := DeclareOf(Tagged(x, a)), Keys(s, docs, rs);
    assert RelationOf(OnlyHash(), s, docs, keys, t) == DeclaredBy(s, d, x, a);
    assert Bindable(s, docs, keys, t.raw);
    assert Map(Binder(OnlyHash(), s, docs, keys), [t]) == [DeclaredBy(s, d, x, a)];
  }

  lemma SingleFile(s: Snapshot, docs: seq<Document>, rs: seq<RawResult>, d: Document, x: RawSymbol, a: AdapterDescriptor, e: Document)
    requires Single(docs, rs, d, x, a) && GoodSymbol(s, d, x, a)
    ensures Filer(s, Symbols(s, docs, rs), AllDiagnostics(rs))(e) == PlainFile(s, e, IdsIn(s, d, e, x))
  {
    SingleSymbols(s, docs, rs, d, x, a);
    var card := CardOf(s, d, x);
    SymbolsOfOne(card, FileIdFor(s, e));
    SortOne(EntityLess, IdsIn(s, d, e, x));
    assert Summaries(KindsAt([], e.path)) == [];
  }

  lemma SingleFilesValid(s: Snapshot, docs: seq<Document>, rs: seq<RawResult>, d: Document, x: RawSymbol, a: AdapterDescriptor, f: FileCard)
    requires Single(docs, rs, d, x, a) && GoodSymbol(s, d, x, a) && f in Files(s, docs, rs)
    ensures ValidFileCard(f)
  {
    var filer := Filer(s, Symbols(s, docs, rs), AllDiagnostics(rs));
    MapMember(filer, docs, f);
    var e :| e in docs && filer(e) == f;
    SingleFile(s, docs, rs, d, x, a, e);
    PlainFileValid(s, e, IdsIn(s, d, e, x));
  }

  lemma SingleAccepted(s: Snapshot, docs: seq<Document>, rs: seq<RawResult>, d: Document, x: RawSymbol, a: AdapterDescriptor)
    requires Single(docs, rs, d, x, a) && GoodSymbol(s, d, x, a)
    ensures Accepted(OnlyHash(), s, docs, rs)
  {
    SingleSymbols(s, docs, rs, d, x, a);
    SingleRelations(s, docs, rs, d, x, a);
    forall f | f in Files(s, docs, rs) ensures ValidFileCard(f) { SingleFilesValid(s, docs, rs, d, x, a, f); }
  }

  lemma {:induction false} NoDiagnosticsTotal(files: seq<FileCard>)
    requires forall f :: f in files ==> f.diagnostics == []
    ensures DiagnosticTotal(files) == 0
  {
    if files != [] {
      assert files[0] in files;
      NoDiagnosticsTotal(files[1..]);
    }
  }

  /** The bundle of one symbol, spelled out. */
  ghost predicate Spelled(b: Bundle, s: Snapshot, docs: seq<Document>, d: Document, x: RawSymbol, a: AdapterDescriptor) {
    && b.symbols == [CardOf(s, d, x)] && b.relations == [DeclaredBy(s, d, x, a)]
    && |b.files| == |docs| && (forall i :: 0 <= i < |docs| ==> b.files[i] == PlainFile(s, docs[i], IdsIn(s, d, docs[i], x)))
    && b.snapshot == s.(counts := b.snapshot.counts)
  }

  lemma SingleSpelled(s: Snapshot, docs: seq<Document>, rs: seq<RawResult>, d: Document, x: RawSymbol, a: AdapterDescriptor)
    requires Single(docs, rs, d, x, a) && GoodSymbol(s, d, x, a)
    ensures Spelled(BundleOf(OnlyHash(), s, docs, rs), s, docs, d, x, a)
  {
    var b := BundleOf(OnlyHash(), s, docs, rs);
    SingleSymbols(s, docs, rs, d, x, a);
    SingleRelations(s, docs, rs, d, x, a);
    SortOne(RelationLess, [DeclaredBy(s, d, x, a)]);
    forall i | 0 <= i < |docs| ensures b.files[i] == PlainFile(s, docs[i], IdsIn(s, d, docs[i], x)) {
      SingleFile(s, docs, rs, d, x, a, docs[i]);
    }
  }

  lemma SpelledCounts(b: Bundle, s: Snapshot, docs: seq<Document>, d: Document, x: RawSymbol, a: AdapterDescriptor)
    requires Spelled(b, s, docs, d, x, a) && |docs| <= 2 && b == WithCounts(s, b.files, b.symbols, b.relations)
    ensures CountsWithinLimits(b.snapshot.counts)
  {
    forall f | f in b.files ensures f.diagnostics == [] { var i :| 0 <= i < |b.files| && b.files[i] == f; }
    NoDiagnosticsTotal(b.files);
  }

  lemma SingleBundle(s: Snapshot, docs: seq<Document>, rs: seq<RawResult>, d: Document, x: RawSymbol, a: AdapterDescriptor)
    requires Single(docs, rs, d, x, a) && GoodSymbol(s, d, x, a) && ValidSnapshotIdentity(s) && |docs| <= 2
    ensures var b := BundleOf(OnlyHash(), s, docs, rs); Spelled(b, s, docs, d, x, a) && BundleValid(b)
  {
    SingleSpelled(s, docs, rs, d, x, a);
    SpelledCounts(BundleOf(OnlyHash(), s, docs, rs), s, docs, d, x, a);
    SingleAccepted(s, docs, rs, d, x, a);
    AcceptedBundleValid(OnlyHash(), s, docs, rs);
  }

  // ------------------------------------------------------------- the scene

  /** Two documents, two adapters, one symbol each, and one key for both. */
  datatype Scene = Scene(s: Snapshot, g: Document, p: Document, x: RawSymbol, y: RawSymbol, go: AdapterDescriptor, py: AdapterDescriptor)

  ghost predicate Shared(w: Scene) {
    && ValidSnapshotIdentity(w.s) && w.s.adapters == [w.go, w.py] && w.go.name != w.py.name
    && GoodDocument(w.g) && GoodDocument(w.p) && w.g.path != w.p.path
    && GoodSymbol(w.s, w.g, w.x, w.go) && GoodSymbol(w.s, w.p, w.y, w.py) && !Owns(w.go, w.p.language) && w.x.key == w.y.key
  }

  function Said(a: AdapterDescriptor, x: RawSymbol): RawResult { RawResult(a, [x], [], []) }

  /** The second document is new in the target; the first adapter is carried over. */
  function SceneCase(w: Scene): Case {
    Case(OnlyHash(), w.s, [w.g], [Said(w.go, w.x), EmptyResult(w.py)], w.s, [w.g, w.p], [Said(w.go, w.x), Said(w.py, w.y)], [w.go])
  }

  lemma TwoResults(r: RawResult, q: RawResult)
    ensures TaggedSymbols([r, q]) == TagSymbols(r) + TagSymbols(q) && TaggedRelations([r, q]) == TagRelations(r) + TagRelations(q)
    ensures AllDiagnostics([r, q]) == r.diagnostics + q.diagnostics
  {
    assert [r, q][1..] == [q] && [q][1..] == [];
    assert TaggedSymbols([q]) == TagSymbols(q) && TaggedRelations([q]) == TagRelations(q) && AllDiagnostics([q]) == q.diagnostics;
  }

  lemma SceneResults(w: Scene)
    requires Shared(w)
    ensures Skipped(SceneCase(w)) == [EmptyResult(w.go), Said(w.py, w.y)]
    ensures Single([w.g], [Said(w.go, w.x), EmptyResult(w.py)], w.g, w.x, w.go)
    ensures Single([w.g, w.p], [EmptyResult(w.go), Said(w.py, w.y)], w.p, w.y, w.py)
  {
    assert w.go != w.py;
    TwoResults(Said(w.go, w.x), EmptyResult(w.py));
    TwoResults(EmptyResult(w.go), Said(w.py, w.y));
  }

  lemma SceneSurroundings(w: Scene)
    requires Shared(w)
    ensures Surroundings(SceneCase(w)) && CarriedUnchanged(SceneCase(w))
  {
    SceneDisciplined([w.g], w.go, w.x, w.py, w.y);
    SceneDisciplined([w.g, w.p], w.go, w.x, w.py, w.y);
    SceneUnchanged(w.g, w.p, w.go);
  }

  lemma SceneDisciplined(docs: seq<Document>, go: AdapterDescriptor, x: RawSymbol, py: AdapterDescriptor, y: RawSymbol)
    requires Owns(go, x.language) && Owns(py, y.language)
    ensures Disciplined(docs, Said(go, x)) && Disciplined(docs, Said(py, y)) && Disciplined(docs, EmptyResult(py))
  {}

  lemma SceneUnchanged(g: Document, p: Document, go: AdapterDescriptor)
    requires !Owns(go, p.language) && g.path != p.path
    ensures forall e :: e in [g, p] && OwnsLanguage([go], e.language) ==> HasDoc([g], e.path)
    ensures DocsAgree([g], [g, p])
  {
    assert g in [g];
  }

  lemma SceneKeysShared(w: Scene)
    requires Shared(w)
    ensures !KeysSeparate(SceneCase(w).nextResults)
  {
    var rs := SceneCase(w).nextResults;
    TwoResults(Said(w.go, w.x), Said(w.py, w.y));
    var t, u := Tagged(w.x, w.go), Tagged(w.y, w.py);
    assert TaggedSymbols(rs) == [t, u] && t in TaggedSymbols(rs) && u in TaggedSymbols(rs);
  }

  function CardX(w: Scene): SymbolCard { CardOf(w.s, w.g, w.x) }
  function CardY(w: Scene): SymbolCard { CardOf(w.s, w.p, w.y) }
  function RelX(w: Scene): RelationEvidence { DeclaredBy(w.s, w.g, w.x, w.go) }
  function RelY(w: Scene): RelationEvidence { DeclaredBy(w.s, w.p, w.y, w.py) }

  function FileX(w: Scene): FileCard { PlainFile(w.s, w.g, [CardX(w).symbolId]) }
  function FileY(w: Scene): FileCard { PlainFile(w.s, w.p, [CardY(w).symbolId]) }

  /** The baseline and the target without the carried adapter, spelled out. */
  ghost predicate Laid(w: Scene, b: Bundle, t: Bundle) {
    && b.files == [FileX(w)] && b.symbols == [CardX(w)] && b.relations == [RelX(w)]
    && t.files == [PlainFile(w.s, w.g, []), FileY(w)] && t.symbols == [CardY(w)] && t.relations == [RelY(w)]
    && t.snapshot == w.s.(counts := t.snapshot.counts)
  }

  lemma SpelledIsLaid(w: Scene, b: Bundle, t: Bundle)
    requires w.g.path != w.p.path
    requires Spelled(b, w.s, [w.g], w.g, w.x, w.go) && Spelled(t, w.s, [w.g, w.p], w.p, w.y, w.py)
    ensures Laid(w, b, t)
  {
    assert b.files[0] == FileX(w) && t.files[0] == PlainFile(w.s, w.g, []) && t.files[1] == FileY(w);
  }

  lemma SceneBundles(w: Scene)
    requires Shared(w)
    ensures Laid(w, Baseline(SceneCase(w)), Partial(SceneCase(w)))
    ensures BundleValid(Baseline(SceneCase(w))) && BundleValid(Partial(SceneCase(w)))
    ensures Accepted(OnlyHash(), w.s, [w.g], SceneCase(w).baseResults) && Accepted(OnlyHash(), w.s, [w.g, w.p], Skipped(SceneCase(w)))
  {
    SceneResults(w);
    var r, q := [Said(w.go, w.x), EmptyResult(w.py)], [EmptyResult(w.go), Said(w.py, w.y)];
    SingleBundle(w.s, [w.g], r, w.g, w.x, w.go);
    SingleBundle(w.s, [w.g, w.p], q, w.p, w.y, w.py);
    SingleAccepted(w.s, [w.g], r, w.g, w.x, w.go);
    SingleAccepted(w.s, [w.g, w.p], q, w.p, w.y, w.py);
    SpelledIsLaid(w, BundleOf(OnlyHash(), w.s, [w.g], r), BundleOf(OnlyHash(), w.s, [w.g, w.p], q));
  }

  // ------------------------------------------------------------- rebinding

  lemma BuildMapOne<T>(x: T, key: T -> EntityId, value: T -> Option<EntityId>)
    ensures BuildMap([x], key, value) == if value(x).Some? then map[key(x) := value(x).value] else map[]
  {
    assert [x][..0] == [] && BuildMap([], key, value) == map[];
  }

  lemma LaidFileMap(w: Scene, b: Bundle, t: Bundle)
    requires Laid(w, b, t)
    ensures FileMap(t, b) == map[FileIdFor(w.s, w.g) := FileIdFor(w.s, w.g)]
  {
    BuildMapOne(FileX(w), FileIdOf, Counterpart(t.files));
    assert FileAt(t.files, w.g.path) == Some(t.files[0]);
  }

  lemma LaidCarried(w: Scene, b: Bundle, t: Bundle)
    requires Laid(w, b, t) && Owns(w.go, w.x.language)
    ensures Carried(t, FileMap(t, b), [w.go])(CardX(w)) == Some(CardX(w))
  {
    LaidFileMap(w, b, t);
    assert w.go in [w.go];
    assert FileById(t.files, FileIdFor(w.s, w.g)) == Some(t.files[0]);
  }

  lemma LaidSymbols(w: Scene, b: Bundle, t: Bundle)
    requires Laid(w, b, t) && Owns(w.go, w.x.language)
    ensures CarriedSymbols(t, b, [w.go]) == [CardX(w)]
  {
    LaidCarried(w, b, t);
    var files := FileMap(t, b);
    var keep := IsCarried(t, files, [w.go]);
    assert keep(CardX(w));
    assert [CardX(w)][1..] == [] && Filter(keep, []) == [];
    assert Filter(keep, [CardX(w)]) == [CardX(w)];
  }

  lemma LaidEntities(w: Scene, b: Bundle, t: Bundle)
    requires Laid(w, b, t) && Owns(w.go, w.x.language) && w.g.path != w.p.path
    ensures EntityMap(t, b, [w.go]) == map[FileIdFor(w.s, w.g) := FileIdFor(w.s, w.g), CardX(w).symbolId := CardX(w).symbolId]
  {
    LaidFileMap(w, b, t);
    LaidCarried(w, b, t);
    BuildMapOne(CardX(w), SymbolIdOf, ByLineage(t.symbols));
    BuildMapOne(CardX(w), SymbolIdOf, CarriedId(t, FileMap(t, b), [w.go]));
    assert [CardY(w)][..0] == [] && LastOfLineage([], CardX(w).lineageId) == None;
    assert LastOfLineage(t.symbols, CardX(w).lineageId) == None;
  }

  lemma LaidRelations(w: Scene, b: Bundle, t: Bundle)
    requires Laid(w, b, t) && Owns(w.go, w.x.language) && w.g.path != w.p.path
    ensures ReusedRelations(b, [w.go]) == [RelX(w)] && CarriedRelations(t, b, [w.go]) == [RelX(w)]
    ensures RelationMapped(EntityMap(t, b, [w.go]), RelX(w))
    ensures RebasedRelation(t.snapshot, EntityMap(t, b, [w.go]), RelX(w)) == RelX(w)
  {
    LaidEntities(w, b, t);
    assert w.go in [w.go] && FromReused([w.go])(RelX(w));
    assert [RelX(w)][1..] == [] && Filter(FromReused([w.go]), []) == [];
    assert Filter(FromReused([w.go]), [RelX(w)]) == [RelX(w)];
  }

  // ----------------------------------------------------- the rebound bundle

  lemma TwoSorted<T>(less: (T, T) -> bool, a: T, b: T)
    ensures Sort(less, [a, b]) == [a, b] || Sort(less, [a, b]) == [b, a]
  {
    assert [a, b][1..] == [b];
    SortOne(less, [b]);
    assert [b][1..] == [] && Insert(less, a, []) == [a];
  }

  lemma SymbolsOfTwo(a: SymbolCard, b: SymbolCard, id: EntityId)
    ensures SymbolsOf([a, b], id) == (if a.fileId == id then [a.symbolId] else []) + (if b.fileId == id then [b.symbolId] else [])
  {
    assert [a, b][1..] == [b];
    SymbolsOfOne(b, id);
  }

  /** The two items in one order or the other. */
  predicate Both<T(==)>(s: seq<T>, a: T, b: T) { s == [a, b] || s == [b, a] }

  lemma CardsByFile(w: Scene, cards: seq<SymbolCard>)
    requires w.g.path != w.p.path && Both(cards, CardX(w), CardY(w))
    ensures Sort(EntityLess, SymbolsOf(cards, FileIdFor(w.s, w.g))) == [CardX(w).symbolId]
    ensures Sort(EntityLess, SymbolsOf(cards, FileIdFor(w.s, w.p))) == [CardY(w).symbolId]
  {
    forall id ensures SymbolsOf(cards, id) ==
      if id == CardX(w).fileId then [CardX(w).symbolId] else if id == CardY(w).fileId then [CardY(w).symbolId] else [] {
      SymbolsOfTwo(CardX(w), CardY(w), id);
      SymbolsOfTwo(CardY(w), CardX(w), id);
    }
    SortOne(EntityLess, [CardX(w).symbolId]);
    SortOne(EntityLess, [CardY(w).symbolId]);
  }

  lemma MovedX(w: Scene, b: Bundle, cards: seq<SymbolCard>)
    requires b.files == [FileX(w)] && w.g.path != w.p.path && Both(cards, CardX(w), CardY(w))
    ensures FileMover(b, [w.go], cards)(PlainFile(w.s, w.g, [])) == FileX(w)
  {
    CardsByFile(w, cards);
    assert FileAt(b.files, w.g.path) == Some(FileX(w));
  }

  lemma MovedY(w: Scene, b: Bundle, cards: seq<SymbolCard>)
    requires b.files == [FileX(w)] && w.g.path != w.p.path && Both(cards, CardX(w), CardY(w))
    ensures FileMover(b, [w.go], cards)(FileY(w)) == FileY(w)
  {
    CardsByFile(w, cards);
    FileAtOther(FileX(w), w.p.path);
  }

  lemma FileAtOther(f: FileCard, path: string)
    requires f.path != path
    ensures FileAt([f], path) == None
  {
    assert [f][1..] == [] && FileAt([], path) == None;
  }

  lemma MapTwo<A, B>(f: A -> B, a: A, b: A)
    ensures Map(f, [a, b]) == [f(a), f(b)]
  {}

  lemma MovedFiles(w: Scene, b: Bundle, t: Bundle, cards: seq<SymbolCard>)
    requires Laid(w, b, t) && w.g.path != w.p.path && Both(cards, CardX(w), CardY(w))
    ensures Map(FileMover(b, [w.go], cards), t.files) == [FileX(w), FileY(w)]
  {
    MovedX(w, b, cards);
    MovedY(w, b, cards);
    MapTwo(FileMover(b, [w.go], cards), PlainFile(w.s, w.g, []), FileY(w));
  }

  lemma ReboundParts(t: Bundle, b: Bundle, descs: seq<AdapterDescriptor>, s: Snapshot, files: seq<FileCard>, cards: seq<SymbolCard>,
                     relations: seq<RelationEvidence>)
    requires cards == Sort(SymbolCardLess, t.symbols + CarriedSymbols(t, b, descs))
    requires relations == Sort(RelationLess, t.relations + CarriedRelations(t, b, descs))
    requires files == Map(FileMover(b, descs, cards), t.files) && t.snapshot == s.(counts := t.snapshot.counts)
    ensures ReboundBundle(t, b, descs) == WithCounts(s, files, cards, relations)
  {}

  lemma SceneFilesOk(w: Scene, cards: seq<SymbolCard>)
    requires Shared(w) && Both(cards, CardX(w), CardY(w))
    ensures FilesOk(w.s, [FileX(w), FileY(w)]) && ClosureOk([FileX(w), FileY(w)], cards)
  {
    PlainFileValid(w.s, w.g, [CardX(w).symbolId]);
    PlainFileValid(w.s, w.p, [CardY(w).symbolId]);
    CardsByFile(w, cards);
  }

  lemma SceneSymbolsOk(w: Scene, cards: seq<SymbolCard>)
    requires Shared(w) && Both(cards, CardX(w), CardY(w))
    ensures SymbolsOk(w.s, [FileX(w), FileY(w)], cards)
  {
    var files := [FileX(w), FileY(w)];
    assert files[0] in files && files[1] in files;
    assert Open(0);
    assert SymbolInFiles(w.s, files, CardX(w)) && SymbolInFiles(w.s, files, CardY(w));
  }

  /** A declaration whose file and symbol are at hand. */
  lemma DeclaredInBundle(s: Snapshot, files: seq<FileCard>, cards: seq<SymbolCard>, d: Document, x: RawSymbol, a: AdapterDescriptor, f: FileCard)
    requires ValidRelation(DeclaredBy(s, d, x, a)) && f in files && f.fileId == FileIdFor(s, d) && CardOf(s, d, x) in cards
    requires forall y :: y in cards ==> y.symbolId.SymbolId?
    ensures RelationInBundle(s, files, cards, DeclaredBy(s, d, x, a))
  {}

  lemma SceneRelationX(w: Scene, cards: seq<SymbolCard>)
    requires Shared(w) && Both(cards, CardX(w), CardY(w))
    ensures RelationInBundle(w.s, [FileX(w), FileY(w)], cards, RelX(w))
  {
    var files := [FileX(w), FileY(w)];
    assert files[0] in files && cards[0] in cards && cards[1] in cards;
    DeclaredValid(w.s, w.g, w.x, w.go);
    DeclaredInBundle(w.s, files, cards, w.g, w.x, w.go, FileX(w));
  }

  lemma SceneRelationY(w: Scene, cards: seq<SymbolCard>)
    requires Shared(w) && Both(cards, CardX(w), CardY(w))
    ensures RelationInBundle(w.s, [FileX(w), FileY(w)], cards, RelY(w))
  {
    var files := [FileX(w), FileY(w)];
    assert files[1] in files && cards[0] in cards && cards[1] in cards;
    DeclaredValid(w.s, w.p, w.y, w.py);
    DeclaredInBundle(w.s, files, cards, w.p, w.y, w.py, FileY(w));
  }

  lemma SceneCounts(w: Scene, cards: seq<SymbolCard>, relations: seq<RelationEvidence>)
    requires |cards| == 2 && |relations| == 2
    ensures CountsWithinLimits(WithCounts(w.s, [FileX(w), FileY(w)], cards, relations).snapshot.counts)
  {
    NoDiagnosticsTotal([FileX(w), FileY(w)]);
  }

  lemma BothDistinct(w: Scene, relations: seq<RelationEvidence>)
    requires w.g.path != w.p.path && Both(relations, RelX(w), RelY(w))
    ensures DistinctBy(relations, RelationIdOf)
  {
    assert RelationIdOf(RelX(w)).sourceFile != RelationIdOf(RelY(w)).sourceFile;
  }

  lemma SceneReboundValid(w: Scene, cards: seq<SymbolCard>, relations: seq<RelationEvidence>)
    requires Shared(w) && Both(cards, CardX(w), CardY(w)) && Both(relations, RelX(w), RelY(w))
    ensures BundleValid(WithCounts(w.s, [FileX(w), FileY(w)], cards, relations))
  {
    SceneFilesOk(w, cards);
    SceneSymbolsOk(w, cards);
    SceneRelationX(w, cards);
    SceneRelationY(w, cards);
    BothDistinct(w, relations);
    SceneCounts(w, cards, relations);
    BundleFromParts(w.s, [FileX(w), FileY(w)], cards, relations, RelX(w), RelY(w));
  }

  lemma BundleFromParts(s: Snapshot, files: seq<FileCard>, cards: seq<SymbolCard>, relations: seq<RelationEvidence>,
                        r: RelationEvidence, q: RelationEvidence)
    requires ValidSnapshotIdentity(s) && FilesOk(s, files) && SymbolsOk(s, files, cards) && ClosureOk(files, cards)
    requires Both(relations, r, q) && RelationInBundle(s, files, cards, r) && RelationInBundle(s, files, cards, q)
    requires DistinctBy(relations, RelationIdOf) && CountsWithinLimits(WithCounts(s, files, cards, relations).snapshot.counts)
    ensures BundleValid(WithCounts(s, files, cards, relations))
  {
    forall x | x in relations ensures RelationInBundle(s, files, cards, x) { assert x == r || x == q; }
    PartsMakeBundle(s, files, cards, relations);
  }

  lemma SceneRebound(w: Scene, b: Bundle, t: Bundle)
    requires Shared(w) && Laid(w, b, t)
    ensures BundleValid(ReboundBundle(t, b, [w.go]))
  {
    LaidSymbols(w, b, t);
    LaidRelations(w, b, t);
    var cards := Sort(SymbolCardLess, t.symbols + CarriedSymbols(t, b, [w.go]));
    var relations := Sort(RelationLess, t.relations + CarriedRelations(t, b, [w.go]));
    assert t.symbols + [CardX(w)] == [CardY(w), CardX(w)] && t.relations + [RelX(w)] == [RelY(w), RelX(w)];
    TwoSorted(SymbolCardLess, CardY(w), CardX(w));
    TwoSorted(RelationLess, RelY(w), RelX(w));
    MovedFiles(w, b, t, cards);
    ReboundParts(t, b, [w.go], w.s, [FileX(w), FileY(w)], cards, relations);
    SceneReboundValid(w, cards, relations);
  }

  lemma SceneFilesExact(w: Scene, b: Bundle, t: Bundle)
    requires Laid(w, b, t)
    ensures CarriedFilesExact(t, b, [w.go])
  {
    assert FileAt(t.files, w.g.path) == Some(t.files[0]);
  }

  lemma SceneRelationsValid(w: Scene, b: Bundle, t: Bundle)
    requires Shared(w) && Laid(w, b, t)
    ensures CarriedRelationsValid(t, b, [w.go])
  {
    LaidRelations(w, b, t);
    DeclaredValid(w.s, w.g, w.x, w.go);
  }

  lemma SceneSymbolsValid(w: Scene, b: Bundle, t: Bundle)
    requires Shared(w) && Laid(w, b, t)
    ensures CarriedSymbolsValid(t, b, [w.go])
  {
    LaidSymbols(w, b, t);
    assert Open(0);
  }

  lemma SceneRebinds(w: Scene, b: Bundle, t: Bundle)
    requires Shared(w) && Laid(w, b, t)
    ensures Rebindable(t, b, [w.go])
  {
    SceneFilesExact(w, b, t);
    SceneSymbolsValid(w, b, t);
    SceneRelationsValid(w, b, t);
    SceneRebound(w, b, t);
  }

  /** Rebinding succeeds although two adapters share a key, and a run from scratch fails. */
  lemma SharedKeyCarries(w: Scene)
    requires Shared(w)
    ensures Carrying(SceneCase(w)) && !KeysSeparate(SceneCase(w).nextResults)
    ensures !Accepted(OnlyHash(), w.s, [w.g, w.p], SceneCase(w).nextResults)
  {
    SceneSurroundings(w);
    SceneBundles(w);
    SceneRebinds(w, Baseline(SceneCase(w)), Partial(SceneCase(w)));
    SceneKeysShared(w);
    FreshRunSucceedsIff(SceneCase(w));
  }

  // ------------------------------------------------------------ an instance

  function Adapter(name: string): AdapterDescriptor { AdapterDescriptor(name, "v", "c", "k") }
  function OneRange(): SourceRange { SourceRange(Position(1, 1, 0), Position(1, 1, 0)) }
  function Source(path: string, language: string): Document { Document(path, "blob", "hash", 0, language, false, "") }

  function Symbol(path: string, language: string): RawSymbol {
    RawSymbol("key", path, language, "function", "f", "f", "", OneRange(), false, false, false, false, None)
  }

  /** A snapshot whose two hashes are the computed ones. */
  function Hashed(adapters: seq<AdapterDescriptor>): Snapshot {
    var s := Snapshot("", "tenant", "repository", "commit", "tree", "configuration", AdapterSetHash(adapters), adapters, Counts(0, 0, 0, 0));
    s.(snapshotId := ComputeSnapshotID(s))
  }

  function Example(): Scene {
    Scene(Hashed([Adapter("go"), Adapter("python")]), Source("a", "go"), Source("b", "python"),
          Symbol("a", "go"), Symbol("b", "python"), Adapter("go"), Adapter("python"))
  }

  lemma NotBlank(s: string)
    requires s != "" && (s[0] == 'v' || s[0] == 'f' || s[0] == 'k')
    ensures !Blank(s)
  {
    assert s[0] in s;
  }

  lemma ShortPath(path: string)
    requires |path| == 1 && (path[0] == 'a' || path[0] == 'b')
    ensures NormalizedPath(path)
  {
    assert path[1..] == "" && Segments("") == [""];
    assert [path[0]] + "" == path;
    assert Segments(path) == [path];
  }

  lemma AdapterValid(name: string)
    requires name in ["go", "typescript", "python"]
    ensures ValidAdapter(Adapter(name))
  {
    NotBlank("v");
  }

  lemma ExampleSymbol(s: Snapshot, path: string, language: string)
    requires language == "go" || language == "python"
    ensures GoodSymbol(s, Source(path, language), Symbol(path, language), Adapter(language))
  {
    NotBlank("f");
    NotBlank("key");
    AdapterValid(language);
  }

  lemma ExampleSnapshot()
    ensures ValidSnapshotIdentity(Example().s)
  {
    AdapterValid("go");
    AdapterValid("python");
    AdaptersClimb(Adapter("go"), Adapter("python"));
    HashedPair(Adapter("go"), Adapter("python"));
  }

  lemma HashedPair(a: AdapterDescriptor, b: AdapterDescriptor)
    requires ValidAdapter(a) && ValidAdapter(b) && Less(AdapterKey(a), AdapterKey(b))
    ensures ValidSnapshotIdentity(Hashed([a, b]))
  {
    HashedIsHashed([a, b]);
  }

  lemma AdaptersClimb(a: AdapterDescriptor, b: AdapterDescriptor)
    requires a.name != "" && b.name != "" && a.name[0] < b.name[0]
    ensures Less(AdapterKey(a), AdapterKey(b))
  {
    assert AdapterKey(a)[0] == a.name[0] && AdapterKey(b)[0] == b.name[0];
  }

  lemma HashedIsHashed(adapters: seq<AdapterDescriptor>)
    ensures SnapshotHashed(Hashed(adapters)) && Hashed(adapters).adapters == adapters
  {
    var s := Hashed(adapters);
    assert ComputeSnapshotID(s) == s.snapshotId;
  }

  /** The premises of `SharedKeyCarries` can be met. */
  lemma ExampleShared()
    ensures Shared(Example())
  {
    ExampleSnapshot();
    ExampleDocument("a", "go");
    ExampleDocument("b", "python");
    ExampleSymbol(Example().s, "a", "go");
    ExampleSymbol(Example().s, "b", "python");
    NamesApart();
  }

  lemma ExampleDocument(path: string, language: string)
    requires |path| == 1 && (path[0] == 'a' || path[0] == 'b') && (language == "go" || language == "python")
    ensures GoodDocument(Source(path, language))
  {
    ShortPath(path);
  }

  lemma NamesApart()
    ensures Adapter("go").name != Adapter("python").name && Source("a", "go").path != Source("b", "python").path
    ensures !Owns(Adapter("go"), "python")
  {
    assert "go"[0] != "python"[0] && "a"[0] != "b"[0] && "go"[0] != "typescript"[0];
  }
}
