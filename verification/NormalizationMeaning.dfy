/** What a normalized bundle says about the documents and the adapters' output,
    stated on the raw items and the cards alone. */
module NormalizationMeaning {
  import opened Ordering
  import opened Seqs
  import opened Cards
  import opened Bundles
  import opened Normalization
  import opened NormalizationProofs

  // ------------------------------------------------------------ what is told

  /** The adapter emitted the symbol. */
  ghost predicate Emits(results: set<RawResult>, raw: RawSymbol, adapter: AdapterDescriptor) {
    exists r :: r in results && r.descriptor == adapter && raw in r.symbols
  }

  /** The adapter claims the relation, or emitted the symbol the relation declares. */
  ghost predicate Claims(results: set<RawResult>, raw: RawRelation, adapter: AdapterDescriptor) {
    || (exists r :: r in results && r.descriptor == adapter && raw in r.relations)
    || (exists x :: Emits(results, x, adapter) && Declares(raw, x))
  }

  /** The file at the symbol's path declares the symbol where it stands. */
  predicate Declares(raw: RawRelation, x: RawSymbol) {
    && raw.kind == "declares" && raw.sourcePath == x.path && raw.targetKey == Some(x.key) && raw.evidenceClass == "confirmed_static"
    && raw.locator == x.declaration
    && raw.sourceKey.None? && raw.targetPath.None? && raw.externalName.None? && raw.unresolvedName.None?
  }

  /** The card of a document. */
  predicate FileTells(s: Snapshot, f: FileCard, d: Document) {
    && f.path == d.path && f.gitBlobId == d.gitBlobId && f.sourceHash == d.sourceHash && f.sizeBytes == d.sizeBytes
    && f.language == d.language && f.generated == d.generated
    && f.snapshotId == s.snapshotId && f.repositoryId == s.repositoryId && f.sourceCommit == s.sourceCommit
  }

  /** The card of a raw symbol: all it says, in the file at its path. */
  ghost predicate SymbolTells(b: Bundle, x: SymbolCard, raw: RawSymbol) {
    && x in b.symbols && x.language == raw.language && x.kind == raw.kind && x.name == raw.name
    && x.qualifiedName == raw.qualifiedName && x.signature == raw.signature && x.declaration == raw.declaration
    && x.exported == raw.exported && x.test == raw.test && x.route == raw.route && x.schema == raw.schema
    && x.documentationHash == raw.documentationHash
    && exists f :: f in b.files && f.path == raw.path && x.fileId == f.fileId && x.fileLineageId == f.lineageId && x.symbolId in f.symbolIds
  }

  /** A key names the card of the symbol emitted under it. */
  ghost predicate KeyNames(results: set<RawResult>, b: Bundle, k: string, id: EntityId) {
    exists raw, a, x :: Emits(results, raw, a) && raw.key == k && SymbolTells(b, x, raw) && x.symbolId == id
  }

  ghost predicate PathNames(b: Bundle, path: string, id: EntityId) { exists f :: f in b.files && f.path == path && f.fileId == id }

  ghost predicate TargetTells(results: set<RawResult>, b: Bundle, y: RelationEvidence, raw: RawRelation) {
    if raw.externalName.Some? then y.targetEntityId == Some(ExternalId(raw.externalName.value))
    else if raw.targetPath.Some? then y.targetEntityId.Some? && PathNames(b, raw.targetPath.value, y.targetEntityId.value)
    else if raw.targetKey.Some? then y.targetEntityId.Some? && KeyNames(results, b, raw.targetKey.value, y.targetEntityId.value)
    else y.targetEntityId.None?
  }

  ghost predicate SourceTells(results: set<RawResult>, b: Bundle, y: RelationEvidence, raw: RawRelation) {
    && PathNames(b, raw.sourcePath, y.sourceFileId)
    && (if raw.sourceKey.Some? then KeyNames(results, b, raw.sourceKey.value, y.sourceEntityId) else y.sourceEntityId == y.sourceFileId)
  }

  /** The relation of a raw claim. */
  ghost predicate RelationTells(evidence: RawRelation -> string, results: set<RawResult>, b: Bundle, y: RelationEvidence,
                                raw: RawRelation, adapter: AdapterDescriptor) {
    && y in b.relations && y.kind == raw.kind && y.evidenceClass == raw.evidenceClass && y.locator == raw.locator
    && y.evidenceHash == evidence(raw) && y.adapter == adapter
    && SourceTells(results, b, y, raw) && TargetTells(results, b, y, raw)
    && y.resolution == (if y.targetEntityId.Some? then "resolved" else "unresolved")
    && y.unresolvedName == (if y.targetEntityId.Some? then None else raw.unresolvedName)
  }

  /** How often the adapters report a diagnostic. */
  function Reported(results: seq<RawResult>, d: RawDiagnostic): nat {
    if results == [] then 0 else multiset(results[0].diagnostics)[d] + Reported(results[1..], d)
  }

  function Elements<T>(s: seq<T>): set<T> { set x | x in s }

  // ---------------------------------------------------------- matched results

  lemma {:induction false} Emitted(rs: seq<RawResult>, t: Tagged<RawSymbol>)
    ensures t in TaggedSymbols(rs) <==> Emits(Elements(rs), t.raw, t.adapter)
  {
    if rs != [] {
      Emitted(rs[1..], t);
      assert rs == [rs[0]] + rs[1..];
      if t in TagSymbols(rs[0]) { MapMember(Tagger(rs[0].descriptor), rs[0].symbols, t); }
      if rs[0].descriptor == t.adapter && t.raw in rs[0].symbols {
        var i :| 0 <= i < |rs[0].symbols| && rs[0].symbols[i] == t.raw;
        assert TagSymbols(rs[0])[i] == t;
      }
    }
  }

  lemma {:induction false} Claimed(rs: seq<RawResult>, t: Tagged<RawRelation>)
    ensures t in TaggedRelations(rs) <==> exists r :: r in Elements(rs) && r.descriptor == t.adapter && t.raw in r.relations
  {
    if rs != [] {
      Claimed(rs[1..], t);
      assert rs == [rs[0]] + rs[1..];
      if t in TagRelations(rs[0]) { MapMember(Tagger(rs[0].descriptor), rs[0].relations, t); }
      if rs[0].descriptor == t.adapter && t.raw in rs[0].relations {
        var i :| 0 <= i < |rs[0].relations| && rs[0].relations[i] == t.raw;
        assert TagRelations(rs[0])[i] == t;
      }
    }
  }

  /** Matching results to adapters neither drops nor invents one. */
  lemma AlignedPermutes(s: Snapshot, results: seq<RawResult>)
    requires ValidAdapters(s.adapters) && ResultsMatch(s, results)
    ensures multiset(Aligned(s, results)) == multiset(results) && Elements(Aligned(s, results)) == Elements(results)
  {
    var rs := Aligned(s, results);
    forall i | 0 <= i < |rs| ensures rs[i] in results && rs[i].descriptor == s.adapters[i] {
      assert s.adapters[i] in s.adapters;
      LookupIsMember(results, AdapterKey(s.adapters[i]));
    }
    forall i, j | 0 <= i < j < |rs| ensures rs[i] != rs[j] {
      assert Less(AdapterKey(s.adapters[i]), AdapterKey(s.adapters[j]));
      StringOrder();
    }
    FillsUp(rs, results);
    assert NoRepeat(results) by {
      forall i, j | 0 <= i < j < |results| ensures results[i] != results[j] { assert ResultKey(results[i]) != ResultKey(results[j]); }
    }
    SameElements(rs, results);
  }

  // ------------------------------------------------------------------- files

  lemma FileAt(s: Snapshot, docs: seq<Document>, rs: seq<RawResult>, i: nat)
    requires i < |docs|
    ensures FileTells(s, Files(s, docs, rs)[i], docs[i]) && Files(s, docs, rs)[i].fileId == FileIdFor(s, docs[i])
    ensures Files(s, docs, rs)[i].lineageId == FileLineage(s.repositoryId, docs[i].path)
    ensures Files(s, docs, rs)[i].symbolIds == Sort(EntityLess, SymbolsOf(Symbols(s, docs, rs), FileIdFor(s, docs[i])))
    ensures Files(s, docs, rs)[i].diagnostics == Summaries(KindsAt(AllDiagnostics(rs), docs[i].path))
  {}

  /** The file card at a path is the card of the document there. */
  lemma FileAtPath(s: Snapshot, docs: seq<Document>, rs: seq<RawResult>, f: FileCard)
    requires DistinctPaths(docs) && f in Files(s, docs, rs)
    ensures HasDoc(docs, f.path) && f.fileId == FileIdFor(s, DocAt(docs, f.path)) && f.lineageId == FileLineage(s.repositoryId, f.path)
  {
    var i :| 0 <= i < |docs| && Files(s, docs, rs)[i] == f;
    FileAt(s, docs, rs, i);
    assert docs[i] in docs;
    DocAtUnique(docs, docs[i]);
  }

  lemma FileOf(s: Snapshot, docs: seq<Document>, rs: seq<RawResult>, path: string) returns (f: FileCard)
    requires HasDoc(docs, path)
    ensures f in Files(s, docs, rs) && f.path == path && f.fileId == FileIdFor(s, DocAt(docs, path))
    ensures f.lineageId == FileLineage(s.repositoryId, path)
    ensures f.symbolIds == Sort(EntityLess, SymbolsOf(Symbols(s, docs, rs), f.fileId))
  {
    DocAtFound(docs, path);
    var i :| 0 <= i < |docs| && docs[i] == DocAt(docs, path);
    FileAt(s, docs, rs, i);
    f := Files(s, docs, rs)[i];
  }

  // ----------------------------------------------------------------- symbols

  /** What the symbols of an accepted bundle are. */
  ghost predicate Drawn(s: Snapshot, docs: seq<Document>, rs: seq<RawResult>, b: Bundle) {
    && DistinctPaths(docs) && SymbolsAccepted(s, docs, rs) && DistinctBy(Symbols(s, docs, rs), SymbolIdOf)
    && b.files == Files(s, docs, rs) && b.symbols == Symbols(s, docs, rs)
  }

  lemma ListedInFile(symbols: seq<SymbolCard>, f: FileCard, i: nat)
    requires i < |symbols| && symbols[i].fileId == f.fileId && f.symbolIds == Sort(EntityLess, SymbolsOf(symbols, f.fileId))
    ensures symbols[i].symbolId in f.symbolIds
  {
    SymbolsOfMember(symbols, f.fileId, i);
    SortPermutes(EntityLess, SymbolsOf(symbols, f.fileId));
    MemberPermutes(f.symbolIds, SymbolsOf(symbols, f.fileId), symbols[i].symbolId);
  }

  lemma DrawnAt(s: Snapshot, docs: seq<Document>, rs: seq<RawResult>, b: Bundle, t: Tagged<RawSymbol>) returns (i: nat)
    requires Drawn(s, docs, rs, b) && t in TaggedSymbols(rs)
    ensures i < |b.symbols| && b.symbols[i] == Carder(s, docs)(t) && HasDoc(docs, t.raw.path)
  {
    SortedSymbolsFacts(rs);
    i :| 0 <= i < |SortedSymbols(rs)| && SortedSymbols(rs)[i] == t;
  }

  /** The card the code draws from a raw symbol tells it. */
  lemma CardTells(s: Snapshot, docs: seq<Document>, rs: seq<RawResult>, b: Bundle, t: Tagged<RawSymbol>)
    requires Drawn(s, docs, rs, b) && t in TaggedSymbols(rs)
    ensures SymbolTells(b, Carder(s, docs)(t), t.raw)
  {
    var i := DrawnAt(s, docs, rs, b, t);
    var f := FileOf(s, docs, rs, t.raw.path);
    ListedInFile(b.symbols, f, i);
    InItsFile(s, DocAt(docs, t.raw.path), b, f, b.symbols[i], t.raw);
  }

  lemma InItsFile(s: Snapshot, d: Document, b: Bundle, f: FileCard, x: SymbolCard, raw: RawSymbol)
    requires x in b.symbols && x == CardOf(s, d, raw) && d.path == raw.path
    requires f in b.files && f.path == raw.path && f.fileId == FileIdFor(s, d) && f.lineageId == FileLineage(s.repositoryId, raw.path)
    requires x.symbolId in f.symbolIds
    ensures SymbolTells(b, x, raw)
  {}

  lemma CardBehind(s: Snapshot, docs: seq<Document>, rs: seq<RawResult>, b: Bundle, x: SymbolCard) returns (t: Tagged<RawSymbol>)
    requires Drawn(s, docs, rs, b) && x in b.symbols
    ensures t in TaggedSymbols(rs) && Carder(s, docs)(t) == x
  {
    SortedSymbolsFacts(rs);
    MapMember(Carder(s, docs), SortedSymbols(rs), x);
    t :| t in SortedSymbols(rs) && Carder(s, docs)(t) == x;
  }

  /** A card that tells a raw symbol is the one drawn from it. */
  lemma TellingIsDrawn(s: Snapshot, docs: seq<Document>, rs: seq<RawResult>, b: Bundle, x: SymbolCard, t: Tagged<RawSymbol>)
    requires Drawn(s, docs, rs, b) && SymbolTells(b, x, t.raw)
    ensures x == Carder(s, docs)(t)
  {
    var u := CardBehind(s, docs, rs, b, x);
    var f :| f in b.files && f.path == t.raw.path && x.fileId == f.fileId && x.fileLineageId == f.lineageId && x.symbolId in f.symbolIds;
    FileAtPath(s, docs, rs, f);
  }

  /** Different raw symbols have different cards. */
  lemma DrawnApart(s: Snapshot, docs: seq<Document>, rs: seq<RawResult>, b: Bundle, t: Tagged<RawSymbol>, u: Tagged<RawSymbol>)
    requires Drawn(s, docs, rs, b) && t in TaggedSymbols(rs) && u in TaggedSymbols(rs) && Carder(s, docs)(t) == Carder(s, docs)(u)
    ensures t == u
  {
    SortedSymbolsFacts(rs);
    var ts := SortedSymbols(rs);
    var i :| 0 <= i < |ts| && ts[i] == t;
    var j :| 0 <= j < |ts| && ts[j] == u;
    KeyedOnce(Symbols(s, docs, rs), SymbolIdOf, i, j);
  }

  /** Every raw symbol has a card, and every card a raw symbol. */
  ghost predicate AllDrawn(results: set<RawResult>, b: Bundle) {
    && (forall raw, a :: Emits(results, raw, a) ==> exists x :: SymbolTells(b, x, raw))
    && (forall x :: x in b.symbols ==> exists raw, a :: Emits(results, raw, a) && SymbolTells(b, x, raw))
  }

  /** No raw symbol has two cards, no card two raw symbols, and no card is listed twice. */
  ghost predicate DrawnOnce(results: set<RawResult>, b: Bundle) {
    && (forall raw, x, y :: SymbolTells(b, x, raw) && SymbolTells(b, y, raw) ==> x == y)
    && (forall raw, a, other, o, x :: EmitsBoth(results, raw, a, other, o) && SymbolTells(b, x, raw) && SymbolTells(b, x, other) ==>
          raw == other && a == o)
    && (forall i, j :: 0 <= i < j < |b.symbols| ==> b.symbols[i] != b.symbols[j])
  }

  ghost predicate EmitsBoth(results: set<RawResult>, raw: RawSymbol, a: AdapterDescriptor, other: RawSymbol, o: AdapterDescriptor) {
    Emits(results, raw, a) && Emits(results, other, o)
  }

  lemma EachEmitted(s: Snapshot, docs: seq<Document>, rs: seq<RawResult>, b: Bundle, raw: RawSymbol, a: AdapterDescriptor)
    requires Drawn(s, docs, rs, b) && Emits(Elements(rs), raw, a)
    ensures exists x :: SymbolTells(b, x, raw)
  {
    Emitted(rs, Tagged(raw, a));
    CardTells(s, docs, rs, b, Tagged(raw, a));
  }

  lemma EachCard(s: Snapshot, docs: seq<Document>, rs: seq<RawResult>, b: Bundle, x: SymbolCard)
    requires Drawn(s, docs, rs, b) && x in b.symbols
    ensures exists raw, a :: Emits(Elements(rs), raw, a) && SymbolTells(b, x, raw)
  {
    var t := CardBehind(s, docs, rs, b, x);
    Emitted(rs, t);
    CardTells(s, docs, rs, b, t);
  }

  lemma OneCard(s: Snapshot, docs: seq<Document>, rs: seq<RawResult>, b: Bundle, raw: RawSymbol, x: SymbolCard, y: SymbolCard)
    requires Drawn(s, docs, rs, b) && SymbolTells(b, x, raw) && SymbolTells(b, y, raw)
    ensures x == y
  {
    var t := CardBehind(s, docs, rs, b, x);
    TellingIsDrawn(s, docs, rs, b, x, t.(raw := raw));
    TellingIsDrawn(s, docs, rs, b, y, t.(raw := raw));
  }

  lemma OneRaw(s: Snapshot, docs: seq<Document>, rs: seq<RawResult>, b: Bundle, raw: RawSymbol, a: AdapterDescriptor,
               other: RawSymbol, o: AdapterDescriptor, x: SymbolCard)
    requires Drawn(s, docs, rs, b) && Emits(Elements(rs), raw, a) && Emits(Elements(rs), other, o) && SymbolTells(b, x, raw) && SymbolTells(b, x, other)
    ensures raw == other && a == o
  {
    Emitted(rs, Tagged(raw, a));
    Emitted(rs, Tagged(other, o));
    TellingIsDrawn(s, docs, rs, b, x, Tagged(raw, a));
    TellingIsDrawn(s, docs, rs, b, x, Tagged(other, o));
    DrawnApart(s, docs, rs, b, Tagged(raw, a), Tagged(other, o));
  }

  lemma DrawnAll(s: Snapshot, docs: seq<Document>, rs: seq<RawResult>, b: Bundle)
    requires Drawn(s, docs, rs, b)
    ensures AllDrawn(Elements(rs), b)
  {
    forall raw, a | Emits(Elements(rs), raw, a) ensures exists x :: SymbolTells(b, x, raw) { EachEmitted(s, docs, rs, b, raw, a); }
    forall x | x in b.symbols ensures exists raw, a :: Emits(Elements(rs), raw, a) && SymbolTells(b, x, raw) { EachCard(s, docs, rs, b, x); }
  }

  lemma DrawnOneToOne(s: Snapshot, docs: seq<Document>, rs: seq<RawResult>, b: Bundle)
    requires Drawn(s, docs, rs, b)
    ensures DrawnOnce(Elements(rs), b)
  {
    forall raw, x, y | SymbolTells(b, x, raw) && SymbolTells(b, y, raw) ensures x == y { OneCard(s, docs, rs, b, raw, x, y); }
    forall raw, a, other, o, x | EmitsBoth(Elements(rs), raw, a, other, o) && SymbolTells(b, x, raw) && SymbolTells(b, x, other)
      ensures raw == other && a == o {
      OneRaw(s, docs, rs, b, raw, a, other, o, x);
    }
    forall i, j | 0 <= i < j < |b.symbols| ensures b.symbols[i] != b.symbols[j] { assert SymbolIdOf(b.symbols[i]) != SymbolIdOf(b.symbols[j]); }
  }

  // --------------------------------------------------------------- relations

  lemma PathNamesIs(s: Snapshot, docs: seq<Document>, rs: seq<RawResult>, b: Bundle, path: string, id: EntityId)
    requires Drawn(s, docs, rs, b)
    ensures PathNames(b, path, id) <==> HasDoc(docs, path) && id == FileIdFor(s, DocAt(docs, path))
  {
    if PathNames(b, path, id) {
      var f :| f in b.files && f.path == path && f.fileId == id;
      FileAtPath(s, docs, rs, f);
    }
    if HasDoc(docs, path) { var f := FileOf(s, docs, rs, path); }
  }

  lemma KeyNamesIs(s: Snapshot, docs: seq<Document>, rs: seq<RawResult>, b: Bundle, k: string, id: EntityId)
    requires Drawn(s, docs, rs, b)
    ensures KeyNames(Elements(rs), b, k, id) <==> k in Keys(s, docs, rs) && Keys(s, docs, rs)[k] == id
  {
    if KeyNames(Elements(rs), b, k, id) {
      var raw, a, x :| Emits(Elements(rs), raw, a) && raw.key == k && SymbolTells(b, x, raw) && x.symbolId == id;
      Emitted(rs, Tagged(raw, a));
      TellingIsDrawn(s, docs, rs, b, x, Tagged(raw, a));
      KeyPresent(s, docs, rs, Tagged(raw, a));
    }
    if k in Keys(s, docs, rs) {
      KeyFound(s, docs, rs, k);
      var t :| t in TaggedSymbols(rs) && t.raw.key == k && Keys(s, docs, rs)[k] == CardOf(s, DocAt(docs, t.raw.path), t.raw).symbolId;
      Emitted(rs, t);
      CardTells(s, docs, rs, b, t);
    }
  }

  lemma DeclaredExactly(rs: seq<RawResult>, t: Tagged<RawRelation>)
    requires DistinctKeys(TaggedSymbols(rs))
    ensures t in Map(DeclareOf, SortedSymbols(rs)) <==> exists x :: Emits(Elements(rs), x, t.adapter) && Declares(t.raw, x)
  {
    var ts := SortedSymbols(rs);
    SortedSymbolsFacts(rs);
    if t in Map(DeclareOf, ts) {
      MapMember(DeclareOf, ts, t);
      var u :| u in ts && DeclareOf(u) == t;
      Emitted(rs, u);
      assert Declares(t.raw, u.raw);
    }
    if x :| Emits(Elements(rs), x, t.adapter) && Declares(t.raw, x) {
      var u := Tagged(x, t.adapter);
      Emitted(rs, u);
      DeclareIs(u, t);
      var i :| 0 <= i < |ts| && ts[i] == u;
      assert Map(DeclareOf, ts)[i] == t;
    }
  }

  lemma DeclareIs(u: Tagged<RawSymbol>, t: Tagged<RawRelation>)
    requires Declares(t.raw, u.raw) && t.adapter == u.adapter
    ensures DeclareOf(u) == t
  {}

  lemma ClaimedExactly(rs: seq<RawResult>, t: Tagged<RawRelation>)
    requires DistinctKeys(TaggedSymbols(rs))
    ensures t in RawRelations(rs) <==> Claims(Elements(rs), t.raw, t.adapter)
  {
    Claimed(rs, t);
    DeclaredExactly(rs, t);
  }

  /** What the relations of an accepted bundle are. */
  ghost predicate Bound(evidence: RawRelation -> string, s: Snapshot, docs: seq<Document>, rs: seq<RawResult>, b: Bundle) {
    && Drawn(s, docs, rs, b) && RelationsAccepted(evidence, s, docs, rs)
    && b.relations == Sort(RelationLess, UnsortedRelations(evidence, s, docs, rs))
  }

  lemma SourceIs(s: Snapshot, docs: seq<Document>, rs: seq<RawResult>, b: Bundle, y: RelationEvidence, raw: RawRelation)
    requires Drawn(s, docs, rs, b) && Bindable(s, docs, Keys(s, docs, rs), raw)
    ensures SourceTells(Elements(rs), b, y, raw) <==>
      y.sourceEntityId == SourceOf(s, docs, Keys(s, docs, rs), raw) && y.sourceFileId == FileIdFor(s, DocAt(docs, raw.sourcePath))
  {
    PathNamesIs(s, docs, rs, b, raw.sourcePath, y.sourceFileId);
    if raw.sourceKey.Some? { KeyNamesIs(s, docs, rs, b, raw.sourceKey.value, y.sourceEntityId); }
  }

  lemma TargetIs(s: Snapshot, docs: seq<Document>, rs: seq<RawResult>, b: Bundle, y: RelationEvidence, raw: RawRelation)
    requires Drawn(s, docs, rs, b) && Bindable(s, docs, Keys(s, docs, rs), raw)
    ensures TargetTells(Elements(rs), b, y, raw) <==> y.targetEntityId == TargetOf(s, docs, Keys(s, docs, rs), raw)
  {
    if y.targetEntityId.Some? {
      if raw.targetPath.Some? { PathNamesIs(s, docs, rs, b, raw.targetPath.value, y.targetEntityId.value); }
      if raw.targetKey.Some? { KeyNamesIs(s, docs, rs, b, raw.targetKey.value, y.targetEntityId.value); }
    }
  }

  lemma BoundMembers(evidence: RawRelation -> string, s: Snapshot, docs: seq<Document>, rs: seq<RawResult>, b: Bundle, y: RelationEvidence)
    requires Bound(evidence, s, docs, rs, b)
    ensures y in b.relations <==> y in UnsortedRelations(evidence, s, docs, rs)
  {
    SortPermutes(RelationLess, UnsortedRelations(evidence, s, docs, rs));
    MemberPermutes(b.relations, UnsortedRelations(evidence, s, docs, rs), y);
  }

  lemma BoundFrom(evidence: RawRelation -> string, s: Snapshot, docs: seq<Document>, rs: seq<RawResult>, b: Bundle, t: Tagged<RawRelation>)
    requires Bound(evidence, s, docs, rs, b) && t in RawRelations(rs)
    ensures RelationOf(evidence, s, docs, Keys(s, docs, rs), t) in b.relations && Bindable(s, docs, Keys(s, docs, rs), t.raw)
  {
    var i :| 0 <= i < |RawRelations(rs)| && RawRelations(rs)[i] == t;
    var y := RelationOf(evidence, s, docs, Keys(s, docs, rs), t);
    assert UnsortedRelations(evidence, s, docs, rs)[i] == y;
    BoundMembers(evidence, s, docs, rs, b, y);
  }

  lemma BoundBehind(evidence: RawRelation -> string, s: Snapshot, docs: seq<Document>, rs: seq<RawResult>, b: Bundle, y: RelationEvidence)
    returns (t: Tagged<RawRelation>)
    requires Bound(evidence, s, docs, rs, b) && y in b.relations
    ensures t in RawRelations(rs) && RelationOf(evidence, s, docs, Keys(s, docs, rs), t) == y
  {
    BoundMembers(evidence, s, docs, rs, b, y);
    var i :| 0 <= i < |RawRelations(rs)| && UnsortedRelations(evidence, s, docs, rs)[i] == y;
    t := RawRelations(rs)[i];
  }

  /** The relation the code binds tells its claim. */
  lemma BindingTells(evidence: RawRelation -> string, s: Snapshot, docs: seq<Document>, rs: seq<RawResult>, b: Bundle, t: Tagged<RawRelation>)
    requires Bound(evidence, s, docs, rs, b) && t in RawRelations(rs)
    ensures RelationTells(evidence, Elements(rs), b, RelationOf(evidence, s, docs, Keys(s, docs, rs), t), t.raw, t.adapter)
  {
    var y := RelationOf(evidence, s, docs, Keys(s, docs, rs), t);
    BoundFrom(evidence, s, docs, rs, b, t);
    SourceIs(s, docs, rs, b, y, t.raw);
    TargetIs(s, docs, rs, b, y, t.raw);
  }

  /** A relation that tells a claim is the one bound from it. */
  lemma TellingIsBound(evidence: RawRelation -> string, s: Snapshot, docs: seq<Document>, rs: seq<RawResult>, b: Bundle,
                       y: RelationEvidence, t: Tagged<RawRelation>)
    requires Bound(evidence, s, docs, rs, b) && t in RawRelations(rs) && RelationTells(evidence, Elements(rs), b, y, t.raw, t.adapter)
    ensures y == RelationOf(evidence, s, docs, Keys(s, docs, rs), t)
  {
    BoundFrom(evidence, s, docs, rs, b, t);
    SourceIs(s, docs, rs, b, y, t.raw);
    TargetIs(s, docs, rs, b, y, t.raw);
    var u := BoundBehind(evidence, s, docs, rs, b, y);
    assert y.relationId == ComputeRelationID(y) && y.snapshotId == s.snapshotId;
  }

  lemma KeyedApart<V, K>(s: seq<V>, key: V -> K, i: nat, j: nat)
    requires DistinctBy(s, key) && i < j < |s|
    ensures s[i] != s[j]
  {
    assert key(s[i]) != key(s[j]);
  }

  lemma KeyedOnce<V, K>(s: seq<V>, key: V -> K, i: nat, j: nat)
    requires DistinctBy(s, key) && i < |s| && j < |s| && s[i] == s[j]
    ensures i == j
  {
    if i < j { KeyedApart(s, key, i, j); }
    if j < i { KeyedApart(s, key, j, i); }
  }

  lemma BoundApart(evidence: RawRelation -> string, s: Snapshot, docs: seq<Document>, rs: seq<RawResult>, b: Bundle,
                   t: Tagged<RawRelation>, u: Tagged<RawRelation>)
    requires Bound(evidence, s, docs, rs, b) && t in RawRelations(rs) && u in RawRelations(rs)
    requires RelationOf(evidence, s, docs, Keys(s, docs, rs), t) == RelationOf(evidence, s, docs, Keys(s, docs, rs), u)
    ensures t == u
  {
    var i :| 0 <= i < |RawRelations(rs)| && RawRelations(rs)[i] == t;
    var j :| 0 <= j < |RawRelations(rs)| && RawRelations(rs)[j] == u;
    KeyedOnce(UnsortedRelations(evidence, s, docs, rs), RelationIdOf, i, j);
  }

  /** Every claim has a relation, and every relation a claim. */
  ghost predicate AllBound(evidence: RawRelation -> string, results: set<RawResult>, b: Bundle) {
    && (forall raw, a :: Claims(results, raw, a) ==> exists y :: RelationTells(evidence, results, b, y, raw, a))
    && (forall y :: y in b.relations ==> exists raw, a :: Claims(results, raw, a) && RelationTells(evidence, results, b, y, raw, a))
  }

  ghost predicate Makes(evidence: RawRelation -> string, results: set<RawResult>, b: Bundle, raw: RawRelation, a: AdapterDescriptor,
                        y: RelationEvidence) {
    Claims(results, raw, a) && RelationTells(evidence, results, b, y, raw, a)
  }

  /** No claim has two relations, no relation two claims, and no relation is listed twice. */
  ghost predicate BoundOnce(evidence: RawRelation -> string, results: set<RawResult>, b: Bundle) {
    && (forall raw, a, x, y :: Makes(evidence, results, b, raw, a, x) && Makes(evidence, results, b, raw, a, y) ==> x == y)
    && (forall raw, a, other, o, y :: Makes(evidence, results, b, raw, a, y) && Makes(evidence, results, b, other, o, y) ==>
          raw == other && a == o)
    && (forall i, j :: 0 <= i < j < |b.relations| ==> b.relations[i] != b.relations[j])
  }

  lemma BoundAll(evidence: RawRelation -> string, s: Snapshot, docs: seq<Document>, rs: seq<RawResult>, b: Bundle)
    requires Bound(evidence, s, docs, rs, b)
    ensures AllBound(evidence, Elements(rs), b)
  {
    forall raw, a | Claims(Elements(rs), raw, a) ensures exists y :: RelationTells(evidence, Elements(rs), b, y, raw, a) {
      ClaimedExactly(rs, Tagged(raw, a));
      BindingTells(evidence, s, docs, rs, b, Tagged(raw, a));
    }
    forall y | y in b.relations ensures exists raw, a :: Claims(Elements(rs), raw, a) && RelationTells(evidence, Elements(rs), b, y, raw, a) {
      var t := BoundBehind(evidence, s, docs, rs, b, y);
      ClaimedExactly(rs, t);
      BindingTells(evidence, s, docs, rs, b, t);
    }
  }

  lemma MadeFrom(evidence: RawRelation -> string, s: Snapshot, docs: seq<Document>, rs: seq<RawResult>, b: Bundle,
                 raw: RawRelation, a: AdapterDescriptor, y: RelationEvidence)
    requires Bound(evidence, s, docs, rs, b) && Makes(evidence, Elements(rs), b, raw, a, y)
    ensures Tagged(raw, a) in RawRelations(rs) && y == RelationOf(evidence, s, docs, Keys(s, docs, rs), Tagged(raw, a))
  {
    ClaimedExactly(rs, Tagged(raw, a));
    TellingIsBound(evidence, s, docs, rs, b, y, Tagged(raw, a));
  }

  lemma BoundOneToOne(evidence: RawRelation -> string, s: Snapshot, docs: seq<Document>, rs: seq<RawResult>, b: Bundle)
    requires Bound(evidence, s, docs, rs, b)
    ensures BoundOnce(evidence, Elements(rs), b)
  {
    forall raw, a, x, y | Makes(evidence, Elements(rs), b, raw, a, x) && Makes(evidence, Elements(rs), b, raw, a, y) ensures x == y {
      MadeFrom(evidence, s, docs, rs, b, raw, a, x);
      MadeFrom(evidence, s, docs, rs, b, raw, a, y);
    }
    forall raw, a, other, o, y | Makes(evidence, Elements(rs), b, raw, a, y) && Makes(evidence, Elements(rs), b, other, o, y) ensures raw == other && a == o {
      MadeFrom(evidence, s, docs, rs, b, raw, a, y);
      MadeFrom(evidence, s, docs, rs, b, other, o, y);
      BoundApart(evidence, s, docs, rs, b, Tagged(raw, a), Tagged(other, o));
    }
    SortPermutes(RelationLess, UnsortedRelations(evidence, s, docs, rs));
    DistinctByPermutes(RelationIdOf, UnsortedRelations(evidence, s, docs, rs), b.relations);
    forall i, j | 0 <= i < j < |b.relations| ensures b.relations[i] != b.relations[j] {
      assert RelationIdOf(b.relations[i]) != RelationIdOf(b.relations[j]);
    }
  }

  // ------------------------------------------------------------------- order

  /** By path, then by start offset, then by key. */
  predicate Precedes(a: RawSymbol, c: RawSymbol) {
    || Less(a.path, c.path)
    || (a.path == c.path && a.declaration.start.offset < c.declaration.start.offset)
    || (a.path == c.path && a.declaration.start.offset == c.declaration.start.offset && Less(a.key, c.key))
  }

  /** The emitted symbol the card at this place tells. */
  ghost predicate ToldAt(results: set<RawResult>, b: Bundle, i: nat, raw: RawSymbol)
    requires i < |b.symbols|
  {
    SymbolTells(b, b.symbols[i], raw) && exists a :: Emits(results, raw, a)
  }

  ghost predicate SymbolsInOrder(results: set<RawResult>, b: Bundle) {
    forall i, j, raw, other :: 0 <= i < j < |b.symbols| && ToldAt(results, b, i, raw) && ToldAt(results, b, j, other) ==> Precedes(raw, other)
  }

  ghost predicate RelationsInOrder(b: Bundle) {
    forall i, j :: 0 <= i < j < |b.relations| ==> Less(RenderRelation(b.relations[i].relationId), RenderRelation(b.relations[j].relationId))
  }

  lemma ToldIsSorted(s: Snapshot, docs: seq<Document>, rs: seq<RawResult>, b: Bundle, i: nat, raw: RawSymbol)
    requires Drawn(s, docs, rs, b) && i < |b.symbols| && ToldAt(Elements(rs), b, i, raw)
    ensures |SortedSymbols(rs)| == |b.symbols| && SortedSymbols(rs)[i].raw == raw
  {
    var a :| Emits(Elements(rs), raw, a);
    var t := SortedSymbols(rs)[i];
    SortedSymbolsFacts(rs);
    assert t in SortedSymbols(rs);
    CardTells(s, docs, rs, b, t);
    Emitted(rs, t);
    OneRaw(s, docs, rs, b, raw, a, t.raw, t.adapter, b.symbols[i]);
  }

  lemma SortedPrecede(rs: seq<RawResult>, i: nat, j: nat)
    requires DistinctKeys(TaggedSymbols(rs)) && i < j < |SortedSymbols(rs)|
    ensures Precedes(SortedSymbols(rs)[i].raw, SortedSymbols(rs)[j].raw)
  {
    var ts := SortedSymbols(rs);
    SortedSymbolsFacts(rs);
    SymbolOrder();
    SortSorts(SymbolBefore, TaggedSymbols(rs));
    assert ts[i].raw.key != ts[j].raw.key;
    LessTotal(ts[i].raw.path, ts[j].raw.path);
    LessTotal(ts[i].raw.key, ts[j].raw.key);
  }

  lemma DrawnInOrder(s: Snapshot, docs: seq<Document>, rs: seq<RawResult>, b: Bundle)
    requires Drawn(s, docs, rs, b)
    ensures SymbolsInOrder(Elements(rs), b)
  {
    forall i, j, raw, other | 0 <= i < j < |b.symbols| && ToldAt(Elements(rs), b, i, raw) && ToldAt(Elements(rs), b, j, other)
      ensures Precedes(raw, other) {
      ToldIsSorted(s, docs, rs, b, i, raw);
      ToldIsSorted(s, docs, rs, b, j, other);
      SortedPrecede(rs, i, j);
    }
  }

  lemma BoundInOrder(evidence: RawRelation -> string, s: Snapshot, docs: seq<Document>, rs: seq<RawResult>, b: Bundle)
    requires Bound(evidence, s, docs, rs, b)
    ensures RelationsInOrder(b)
  {
    var unsorted := UnsortedRelations(evidence, s, docs, rs);
    CardOrders();
    SortSorts(RelationLess, unsorted);
    SortPermutes(RelationLess, unsorted);
    DistinctByPermutes(RelationIdOf, unsorted, b.relations);
    forall i, j | 0 <= i < j < |b.relations|
      ensures Less(RenderRelation(b.relations[i].relationId), RenderRelation(b.relations[j].relationId)) {
      assert RelationIdOf(b.relations[i]) != RelationIdOf(b.relations[j]);
      RelationsOrdered(b.relations[i], b.relations[j]);
    }
  }

  lemma RelationsOrdered(x: RelationEvidence, y: RelationEvidence)
    requires x.relationId != y.relationId && !RelationLess(y, x)
    ensures Less(RenderRelation(x.relationId), RenderRelation(y.relationId))
  {
    LessTotal(RenderRelation(x.relationId), RenderRelation(y.relationId));
    if RenderRelation(x.relationId) == RenderRelation(y.relationId) { RelationInjective(x.relationId, y.relationId); }
  }

  // ------------------------------------------------------------- diagnostics

  /** A file lists a diagnostic exactly as often as the adapters report it there. */
  ghost predicate DiagnosticsTell(results: seq<RawResult>, f: FileCard) {
    forall severity, code, n :: Diagnostic(severity, code, n) in f.diagnostics <==>
      n >= 1 && n == Reported(results, RawDiagnostic(f.path, severity, code))
  }

  function DiagnosticsOf(): RawResult -> seq<RawDiagnostic> { (r: RawResult) => r.diagnostics }

  lemma {:induction false} ReportedIs(rs: seq<RawResult>, d: RawDiagnostic)
    ensures Reported(rs, d) == multiset(AllDiagnostics(rs))[d] && AllDiagnostics(rs) == FlatMap(DiagnosticsOf(), rs)
  {
    if rs != [] { ReportedIs(rs[1..], d); }
  }

  lemma ReportedForgetsOrder(a: seq<RawResult>, b: seq<RawResult>, d: RawDiagnostic)
    requires multiset(a) == multiset(b)
    ensures Reported(a, d) == Reported(b, d)
  {
    ReportedIs(a, d);
    ReportedIs(b, d);
    FlatMapPermutes(DiagnosticsOf(), a, b);
  }

  lemma {:induction false} KindsCounted(ds: seq<RawDiagnostic>, path: string, k: DiagnosticKind)
    ensures multiset(KindsAt(ds, path))[k] == multiset(ds)[RawDiagnostic(path, k.severity, k.code)]
  {
    if ds != [] {
      KindsCounted(ds[1..], path, k);
      assert ds == [ds[0]] + ds[1..];
      var first := if ds[0].path == path then [ds[0]] else [];
      MapAppend(KindOf, first, Filter(At(path), ds[1..]));
      assert Map(KindOf, first) == if ds[0].path == path then [KindOf(ds[0])] else [];
    }
  }

  lemma SummarizedKinds(ks: seq<DiagnosticKind>, k: DiagnosticKind)
    ensures k in Sort(KindBefore, Distinct(ks)) <==> multiset(ks)[k] >= 1
  {
    SortPermutes(KindBefore, Distinct(ks));
    DistinctElements(ks);
    MemberPermutes(Sort(KindBefore, Distinct(ks)), Distinct(ks), k);
    assert k in Distinct(ks) <==> k in multiset(Distinct(ks));
    assert k in ks <==> k in multiset(ks);
  }

  lemma SummariesTell(ks: seq<DiagnosticKind>, d: Diagnostic)
    ensures d in Summaries(ks) <==> d.count >= 1 && d.count == multiset(ks)[DiagnosticKind(d.severity, d.code)]
  {
    var kinds, k := Sort(KindBefore, Distinct(ks)), DiagnosticKind(d.severity, d.code);
    SummarizedKinds(ks, k);
    if d in Summaries(ks) {
      MapMember(Counter(ks), kinds, d);
      assert k in kinds;
    }
    if d.count >= 1 && d.count == multiset(ks)[k] {
      var i :| 0 <= i < |kinds| && kinds[i] == k;
      assert Summaries(ks)[i] == d;
    }
  }

  lemma FileDiagnosed(s: Snapshot, docs: seq<Document>, rs: seq<RawResult>, i: nat)
    requires i < |docs|
    ensures DiagnosticsTell(rs, Files(s, docs, rs)[i])
  {
    FileAt(s, docs, rs, i);
    var f := Files(s, docs, rs)[i];
    forall severity, code, n ensures Diagnostic(severity, code, n) in f.diagnostics <==>
        n >= 1 && n == Reported(rs, RawDiagnostic(f.path, severity, code)) {
      SummariesTell(KindsAt(AllDiagnostics(rs), f.path), Diagnostic(severity, code, n));
      KindsCounted(AllDiagnostics(rs), f.path, DiagnosticKind(severity, code));
      ReportedIs(rs, RawDiagnostic(f.path, severity, code));
    }
  }

  lemma DiagnosedForgetsOrder(a: seq<RawResult>, b: seq<RawResult>, f: FileCard)
    requires multiset(a) == multiset(b) && DiagnosticsTell(a, f)
    ensures DiagnosticsTell(b, f)
  {
    forall severity, code, n ensures Diagnostic(severity, code, n) in f.diagnostics <==>
        n >= 1 && n == Reported(b, RawDiagnostic(f.path, severity, code)) {
      ReportedForgetsOrder(a, b, RawDiagnostic(f.path, severity, code));
    }
  }

  // ------------------------------------------------------------- the theorem

  /** One card per document, in order, with its diagnostics. */
  ghost predicate FilesExact(s: Snapshot, docs: seq<Document>, results: seq<RawResult>, b: Bundle) {
    |b.files| == |docs| && forall i :: 0 <= i < |docs| ==> FileTells(s, b.files[i], docs[i]) && DiagnosticsTell(results, b.files[i])
  }

  lemma FilesTold(s: Snapshot, docs: seq<Document>, results: seq<RawResult>, rs: seq<RawResult>, b: Bundle)
    requires b.files == Files(s, docs, rs) && multiset(rs) == multiset(results)
    ensures FilesExact(s, docs, results, b)
  {
    forall i | 0 <= i < |docs| ensures FileTells(s, b.files[i], docs[i]) && DiagnosticsTell(results, b.files[i]) {
      FileAt(s, docs, rs, i);
      FileDiagnosed(s, docs, rs, i);
      DiagnosedForgetsOrder(rs, results, b.files[i]);
    }
  }

  lemma AcceptedIsBound(evidence: RawRelation -> string, s: Snapshot, docs: seq<Document>, rs: seq<RawResult>, b: Bundle)
    requires Accepted(evidence, s, docs, rs) && b == BundleOf(evidence, s, docs, rs)
    ensures Bound(evidence, s, docs, rs, b)
  {
    SymbolsOfBundle(s, docs, rs);
    var x := Symbols(s, docs, rs);
    assert forall i, j :: 0 <= i < j < |x| ==> SymbolIdOf(x[i]) != SymbolIdOf(x[j]);
  }

  /** A normalized bundle holds exactly what the documents and the adapters' output
      say: one file card per document, one symbol card per raw symbol, one relation
      per raw relation and per symbol, and nothing else. */
  lemma NormalizationSays(evidence: RawRelation -> string, s: Snapshot, docs: seq<Document>, results: seq<RawResult>, b: Bundle)
    requires Normalized(evidence, s, docs, results) == Ok(b)
    ensures FilesExact(s, docs, results, b)
    ensures AllDrawn(Elements(results), b) && DrawnOnce(Elements(results), b)
    ensures AllBound(evidence, Elements(results), b) && BoundOnce(evidence, Elements(results), b)
    ensures SymbolsInOrder(Elements(results), b) && RelationsInOrder(b)
  {
    var rs := Aligned(s, results);
    AlignedPermutes(s, results);
    AcceptedIsBound(evidence, s, docs, rs, b);
    FilesTold(s, docs, results, rs, b);
    DrawnAll(s, docs, rs, b);
    DrawnOneToOne(s, docs, rs, b);
    BoundAll(evidence, s, docs, rs, b);
    BoundOneToOne(evidence, s, docs, rs, b);
    DrawnInOrder(s, docs, rs, b);
    BoundInOrder(evidence, s, docs, rs, b);
  }
}
