/** From adapter output to a bundle: `NormalizeResults` and `bindRelation`.
    `Normalized` says what the code returns; `NormalizeResults` is its loop form.
    An error is `Err`; which error it was is not modelled. */
module Normalization {
  import opened Ordering
  import opened Seqs
  import opened Cards
  import opened Bundles

  datatype Document = Document(
    path: string, gitBlobId: string, sourceHash: string, sizeBytes: int, language: string, generated: bool,
    body: string)

  datatype RawSymbol = RawSymbol(
    key: string, path: string, language: string, kind: string, name: string, qualifiedName: string,
    signature: string, declaration: SourceRange, exported: bool, test: bool, route: bool, schema: bool,
    documentationHash: Option<string>)

  datatype RawRelation = RawRelation(
    sourceKey: Option<string>, sourcePath: string, kind: string, targetKey: Option<string>,
    targetPath: Option<string>, externalName: Option<string>, unresolvedName: Option<string>,
    evidenceClass: string, locator: SourceRange)

  datatype RawDiagnostic = RawDiagnostic(path: string, severity: string, code: string)

  datatype RawResult = RawResult(
    descriptor: AdapterDescriptor, symbols: seq<RawSymbol>, relations: seq<RawRelation>,
    diagnostics: seq<RawDiagnostic>)

  /** A raw item with the adapter that emitted it. */
  datatype Tagged<T> = Tagged(raw: T, adapter: AdapterDescriptor)

  // -------------------------------------------------------------- documents

  predicate HasDoc(docs: seq<Document>, path: string) { exists d :: d in docs && d.path == path }

  function DocAt(docs: seq<Document>, path: string): Document {
    if docs == [] then Document(path, "", "", 0, "", false, "")
    else if docs[0].path == path then docs[0] else DocAt(docs[1..], path)
  }

  ghost predicate DistinctPaths(docs: seq<Document>) {
    forall i, j :: 0 <= i < j < |docs| ==> docs[i].path != docs[j].path
  }

  lemma {:induction false} DocAtFound(docs: seq<Document>, path: string)
    requires HasDoc(docs, path)
    ensures DocAt(docs, path) in docs && DocAt(docs, path).path == path
  {
    if docs[0].path != path {
      var d :| d in docs && d.path == path;
      assert d in docs[1..];
      DocAtFound(docs[1..], path);
    }
  }

  lemma DocAtUnique(docs: seq<Document>, d: Document)
    requires DistinctPaths(docs) && d in docs
    ensures DocAt(docs, d.path) == d
  {
    DocAtFound(docs, d.path);
  }

  function FileIdFor(s: Snapshot, d: Document): EntityId {
    FileId(s.repositoryId, s.sourceCommit, d.path, d.gitBlobId, d.sourceHash)
  }

  function FileCardFor(s: Snapshot, d: Document, symbols: seq<EntityId>, diagnostics: seq<Diagnostic>): FileCard {
    FileCard(FileIdFor(s, d), FileLineage(s.repositoryId, d.path), s.snapshotId, s.repositoryId, s.sourceCommit,
      d.path, d.gitBlobId, d.sourceHash, d.sizeBytes, d.language, d.generated, symbols, diagnostics)
  }

  predicate RangeWithin(r: SourceRange, size: int) {
    && r.start.line >= 1 && r.start.column >= 1 && r.start.offset >= 0
    && r.end.line >= r.start.line && r.end.column >= 1
    && r.end.offset >= r.start.offset && r.end.offset <= size
  }

  // --------------------------------------------------------------- symbols

  function CardOf(s: Snapshot, d: Document, raw: RawSymbol): SymbolCard {
    var file, lineage := FileIdFor(s, d), FileLineage(s.repositoryId, d.path);
    SymbolCard(
      SymbolId(file, raw.language, raw.kind, raw.qualifiedName, raw.signature, raw.declaration),
      SymbolLineage(lineage, raw.language, raw.kind, raw.qualifiedName),
      lineage, s.snapshotId, file, raw.language, raw.kind, raw.name, raw.qualifiedName, raw.signature,
      raw.declaration, raw.exported, raw.test, raw.route, raw.schema, raw.documentationHash)
  }

  function Carder(s: Snapshot, docs: seq<Document>): Tagged<RawSymbol> -> SymbolCard {
    (t: Tagged<RawSymbol>) => CardOf(s, DocAt(docs, t.raw.path), t.raw)
  }

  function Tagger<T>(d: AdapterDescriptor): T -> Tagged<T> { (x: T) => Tagged(x, d) }

  function TagSymbols(r: RawResult): seq<Tagged<RawSymbol>> {
    Map(Tagger(r.descriptor), r.symbols)
  }

  function TagRelations(r: RawResult): seq<Tagged<RawRelation>> {
    Map(Tagger(r.descriptor), r.relations)
  }

  function TaggedSymbols(rs: seq<RawResult>): seq<Tagged<RawSymbol>> {
    if rs == [] then [] else TagSymbols(rs[0]) + TaggedSymbols(rs[1..])
  }

  function TaggedRelations(rs: seq<RawResult>): seq<Tagged<RawRelation>> {
    if rs == [] then [] else TagRelations(rs[0]) + TaggedRelations(rs[1..])
  }

  function AllDiagnostics(rs: seq<RawResult>): seq<RawDiagnostic> {
    if rs == [] then [] else rs[0].diagnostics + AllDiagnostics(rs[1..])
  }

  predicate SymbolInScope(s: Snapshot, docs: seq<Document>, t: Tagged<RawSymbol>) {
    && HasDoc(docs, t.raw.path)
    && t.raw.language == DocAt(docs, t.raw.path).language
    && RangeWithin(t.raw.declaration, |DocAt(docs, t.raw.path).body|)
    && ValidSymbolCard(CardOf(s, DocAt(docs, t.raw.path), t.raw))
  }

  /** The order the bound symbols are sorted in: path, start offset, key. */
  predicate SymbolBefore(a: Tagged<RawSymbol>, b: Tagged<RawSymbol>) {
    Less(a.raw.path, b.raw.path)
    || (a.raw.path == b.raw.path
        && (a.raw.declaration.start.offset < b.raw.declaration.start.offset
            || (a.raw.declaration.start.offset == b.raw.declaration.start.offset && Less(a.raw.key, b.raw.key))))
  }

  lemma SymbolOrder()
    ensures WeakOrder(SymbolBefore)
  {
    StringOrder();
  }

  ghost predicate DistinctKeys(ts: seq<Tagged<RawSymbol>>) {
    forall i, j :: 0 <= i < j < |ts| ==> ts[i].raw.key != ts[j].raw.key
  }

  function SortedSymbols(rs: seq<RawResult>): seq<Tagged<RawSymbol>> { Sort(SymbolBefore, TaggedSymbols(rs)) }

  function Symbols(s: Snapshot, docs: seq<Document>, rs: seq<RawResult>): seq<SymbolCard> {
    Map(Carder(s, docs), SortedSymbols(rs))
  }

  /** `symbolByKey`. */
  function KeyMap(card: Tagged<RawSymbol> -> SymbolCard, ts: seq<Tagged<RawSymbol>>): map<string, EntityId> {
    if ts == [] then map[]
    else KeyMap(card, ts[..|ts|-1])[ts[|ts|-1].raw.key := card(ts[|ts|-1]).symbolId]
  }

  lemma {:induction false} KeyMapDomain(card: Tagged<RawSymbol> -> SymbolCard, ts: seq<Tagged<RawSymbol>>, k: string)
    ensures k in KeyMap(card, ts) <==> exists t :: t in ts && t.raw.key == k
  {
    if ts != [] {
      var n := |ts| - 1;
      assert ts == ts[..n] + [ts[n]];
      KeyMapDomain(card, ts[..n], k);
    }
  }

  lemma {:induction false} KeyMapValue(card: Tagged<RawSymbol> -> SymbolCard, ts: seq<Tagged<RawSymbol>>, i: nat)
    requires DistinctKeys(ts) && i < |ts|
    ensures ts[i].raw.key in KeyMap(card, ts) && KeyMap(card, ts)[ts[i].raw.key] == card(ts[i]).symbolId
  {
    var n := |ts| - 1;
    if i < n {
      KeyMapValue(card, ts[..n], i);
      assert ts[..n][i] == ts[i];
      assert ts[i].raw.key != ts[n].raw.key;
    }
  }

  // ------------------------------------------------------------- relations

  function MakeRelation(snapshot: string, source: EntityId, kind: string, target: Option<EntityId>,
                        unresolved: Option<string>, evidenceClass: string, file: EntityId, locator: SourceRange,
                        hash: string, adapter: AdapterDescriptor): (r: RelationEvidence)
    ensures r.relationId == ComputeRelationID(r)
  {
    var resolution := if target.Some? then "resolved" else "unresolved";
    var gap := if target.Some? then None else unresolved;
    RelationEvidence(
      RelationId(snapshot, source, kind, resolution, target, if gap.Some? then gap.value else "", evidenceClass,
        file, locator, hash, adapter),
      snapshot, source, kind, resolution, target, gap, evidenceClass, file, locator, hash, adapter)
  }

  function KeyId(keys: map<string, EntityId>, k: string): EntityId { if k in keys then keys[k] else ExternalId(k) }

  function SourceOf(s: Snapshot, docs: seq<Document>, keys: map<string, EntityId>, raw: RawRelation): EntityId {
    if raw.sourceKey.Some? then KeyId(keys, raw.sourceKey.value) else FileIdFor(s, DocAt(docs, raw.sourcePath))
  }

  function TargetOf(s: Snapshot, docs: seq<Document>, keys: map<string, EntityId>, raw: RawRelation): Option<EntityId> {
    if raw.externalName.Some? then Some(ExternalId(raw.externalName.value))
    else if raw.targetPath.Some? then Some(FileIdFor(s, DocAt(docs, raw.targetPath.value)))
    else if raw.targetKey.Some? then Some(KeyId(keys, raw.targetKey.value))
    else None
  }

  function RelationOf(evidence: RawRelation -> string, s: Snapshot, docs: seq<Document>,
                      keys: map<string, EntityId>, t: Tagged<RawRelation>): RelationEvidence {
    MakeRelation(s.snapshotId, SourceOf(s, docs, keys, t.raw), t.raw.kind, TargetOf(s, docs, keys, t.raw),
      t.raw.unresolvedName, t.raw.evidenceClass, FileIdFor(s, DocAt(docs, t.raw.sourcePath)), t.raw.locator,
      evidence(t.raw), t.adapter)
  }

  function Binder(evidence: RawRelation -> string, s: Snapshot, docs: seq<Document>,
                  keys: map<string, EntityId>): Tagged<RawRelation> -> RelationEvidence {
    (t: Tagged<RawRelation>) => RelationOf(evidence, s, docs, keys, t)
  }

  function TargetCount(raw: RawRelation): nat {
    (if raw.targetKey.Some? then 1 else 0) + (if raw.targetPath.Some? then 1 else 0)
    + (if raw.externalName.Some? then 1 else 0)
  }

  /** The conditions under which `bindRelation` returns a relation. */
  predicate Bindable(s: Snapshot, docs: seq<Document>, keys: map<string, EntityId>, raw: RawRelation) {
    && HasDoc(docs, raw.sourcePath)
    && RangeWithin(raw.locator, |DocAt(docs, raw.sourcePath).body|)
    && (raw.sourceKey.Some? ==>
          raw.sourceKey.value in keys && keys[raw.sourceKey.value].SymbolId?
          && keys[raw.sourceKey.value].file == FileIdFor(s, DocAt(docs, raw.sourcePath)))
    && (raw.targetKey.Some? ==> raw.targetKey.value in keys)
    && (raw.targetPath.Some? ==> HasDoc(docs, raw.targetPath.value))
    && TargetCount(raw) <= 1
    && (TargetCount(raw) == 1 ==> raw.unresolvedName.None?)
    && (TargetCount(raw) == 0 ==> raw.unresolvedName.Some?)
  }

  /** Every symbol yields a `declares` relation from its file. */
  function DeclareOf(t: Tagged<RawSymbol>): Tagged<RawRelation> {
    Tagged(RawRelation(None, t.raw.path, "declares", Some(t.raw.key), None, None, None, "confirmed_static",
                       t.raw.declaration), t.adapter)
  }

  function RawRelations(rs: seq<RawResult>): seq<Tagged<RawRelation>> {
    Map(DeclareOf, SortedSymbols(rs)) + TaggedRelations(rs)
  }

  function Keys(s: Snapshot, docs: seq<Document>, rs: seq<RawResult>): map<string, EntityId> {
    KeyMap(Carder(s, docs), SortedSymbols(rs))
  }

  function UnsortedRelations(evidence: RawRelation -> string, s: Snapshot, docs: seq<Document>, rs: seq<RawResult>)
    : seq<RelationEvidence> {
    Map(Binder(evidence, s, docs, Keys(s, docs, rs)), RawRelations(rs))
  }

  // ----------------------------------------------------------- diagnostics

  datatype DiagnosticKind = DiagnosticKind(severity: string, code: string)

  function KindOf(d: RawDiagnostic): DiagnosticKind { DiagnosticKind(d.severity, d.code) }
  function KindKey(k: DiagnosticKind): string { k.severity + "\0" + k.code }
  predicate KindBefore(a: DiagnosticKind, b: DiagnosticKind) { Less(KindKey(a), KindKey(b)) }

  function At(path: string): RawDiagnostic -> bool { (d: RawDiagnostic) => d.path == path }

  function KindsAt(ds: seq<RawDiagnostic>, path: string): seq<DiagnosticKind> { Map(KindOf, Filter(At(path), ds)) }

  function Distinct<T(==)>(s: seq<T>): seq<T> {
    if s == [] then [] else (if s[0] in s[1..] then [] else [s[0]]) + Distinct(s[1..])
  }

  function Counter(ks: seq<DiagnosticKind>): DiagnosticKind -> Diagnostic {
    (k: DiagnosticKind) => Diagnostic(k.severity, k.code, multiset(ks)[k])
  }

  /** One summary per kind, in key order, with its number of occurrences. */
  function Summaries(ks: seq<DiagnosticKind>): seq<Diagnostic> {
    Map(Counter(ks), Sort(KindBefore, Distinct(ks)))
  }

  predicate ValidRawDiagnostic(docs: seq<Document>, d: RawDiagnostic) {
    HasDoc(docs, d.path) && ValidSeverity(d.severity) && !Blank(d.code) && |d.code| <= 160
  }

  // ---------------------------------------------------------------- bundle

  function FinalFile(s: Snapshot, symbols: seq<SymbolCard>, ds: seq<RawDiagnostic>, d: Document): FileCard {
    FileCardFor(s, d, Sort(EntityLess, SymbolsOf(symbols, FileIdFor(s, d))), Summaries(KindsAt(ds, d.path)))
  }

  function Filer(s: Snapshot, symbols: seq<SymbolCard>, ds: seq<RawDiagnostic>): Document -> FileCard {
    (d: Document) => FinalFile(s, symbols, ds, d)
  }

  function Files(s: Snapshot, docs: seq<Document>, rs: seq<RawResult>): seq<FileCard> {
    Map(Filer(s, Symbols(s, docs, rs), AllDiagnostics(rs)), docs)
  }

  function WithCounts(s: Snapshot, files: seq<FileCard>, symbols: seq<SymbolCard>, relations: seq<RelationEvidence>)
    : Bundle {
    Bundle(s.(counts := Counts(|files|, |symbols|, |relations|, DiagnosticTotal(files))), files, symbols, relations)
  }

  function BundleOf(evidence: RawRelation -> string, s: Snapshot, docs: seq<Document>, rs: seq<RawResult>): Bundle {
    WithCounts(s, Files(s, docs, rs), Symbols(s, docs, rs),
      Sort(RelationLess, UnsortedRelations(evidence, s, docs, rs)))
  }

  ghost predicate SymbolsAccepted(s: Snapshot, docs: seq<Document>, rs: seq<RawResult>) {
    && (forall t :: t in TaggedSymbols(rs) ==> SymbolInScope(s, docs, t) && !Blank(t.raw.key))
    && DistinctKeys(TaggedSymbols(rs))
  }

  ghost predicate RelationsAccepted(evidence: RawRelation -> string, s: Snapshot, docs: seq<Document>,
                                    rs: seq<RawResult>) {
    && (forall t :: t in RawRelations(rs) ==>
          Bindable(s, docs, Keys(s, docs, rs), t.raw)
          && ValidRelation(RelationOf(evidence, s, docs, Keys(s, docs, rs), t)))
    && DistinctBy(UnsortedRelations(evidence, s, docs, rs), RelationIdOf)
  }

  /** Everything the code checks once results are matched to adapters. */
  ghost predicate Accepted(evidence: RawRelation -> string, s: Snapshot, docs: seq<Document>, rs: seq<RawResult>) {
    && DistinctPaths(docs)
    && SymbolsAccepted(s, docs, rs)
    && (forall d :: d in AllDiagnostics(rs) ==> ValidRawDiagnostic(docs, d))
    && (forall f :: f in Files(s, docs, rs) ==> ValidFileCard(f))
    && RelationsAccepted(evidence, s, docs, rs)
  }

  function ResultFor(results: seq<RawResult>, key: string): Option<RawResult> {
    if results == [] then None
    else if AdapterKey(results[0].descriptor) == key then Some(results[0])
    else ResultFor(results[1..], key)
  }

  /** One result per authorized adapter, and no other. */
  ghost predicate ResultsMatch(s: Snapshot, results: seq<RawResult>) {
    && DistinctBy(results, ResultKey)
    && |results| == |s.adapters|
    && forall d :: d in s.adapters ==>
         ResultFor(results, AdapterKey(d)).Some? && ResultFor(results, AdapterKey(d)).value.descriptor == d
  }

  function ResultKey(r: RawResult): string { AdapterKey(r.descriptor) }

  function Aligner(results: seq<RawResult>): AdapterDescriptor -> RawResult {
    (d: AdapterDescriptor) =>
      var r := ResultFor(results, AdapterKey(d)); if r.Some? then r.value else RawResult(d, [], [], [])
  }

  /** The results in the order of the snapshot's adapters. */
  function Aligned(s: Snapshot, results: seq<RawResult>): seq<RawResult> { Map(Aligner(results), s.adapters) }

  ghost function Normalized(evidence: RawRelation -> string, s: Snapshot, docs: seq<Document>,
                            results: seq<RawResult>): Outcome<Bundle> {
    if ValidSnapshot(s) && ResultsMatch(s, results) && Accepted(evidence, s, docs, Aligned(s, results))
    then Ok(BundleOf(evidence, s, docs, Aligned(s, results)))
    else Err
  }
}
