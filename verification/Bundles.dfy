/** Snapshots, cards, bundles and the closure invariant `ValidateBundle` checks. */
module Bundles {
  import opened Identity
  import opened Ordering
  import opened Cards
  import Seqs

  datatype Counts = Counts(files: int, symbols: int, relations: int, diagnostics: int)

  datatype Snapshot = Snapshot(
    snapshotId: string, tenantId: string, repositoryId: string, sourceCommit: string, sourceTree: string,
    configurationHash: string, adapterSetHash: string, adapters: seq<AdapterDescriptor>, counts: Counts)

  datatype Diagnostic = Diagnostic(severity: string, code: string, count: int)

  datatype FileCard = FileCard(
    fileId: EntityId, lineageId: LineageId, snapshotId: string, repositoryId: string, sourceCommit: string,
    path: string, gitBlobId: string, sourceHash: string, sizeBytes: int, language: string, generated: bool,
    symbolIds: seq<EntityId>, diagnostics: seq<Diagnostic>)

  datatype SymbolCard = SymbolCard(
    symbolId: EntityId, lineageId: LineageId, fileLineageId: LineageId, snapshotId: string, fileId: EntityId,
    language: string, kind: string, name: string, qualifiedName: string, signature: string,
    declaration: SourceRange, exported: bool, test: bool, route: bool, schema: bool,
    documentationHash: Option<string>)

  datatype RelationEvidence = RelationEvidence(
    relationId: RelationId, snapshotId: string, sourceEntityId: EntityId, kind: string, resolution: string,
    targetEntityId: Option<EntityId>, unresolvedName: Option<string>, evidenceClass: string,
    sourceFileId: EntityId, locator: SourceRange, evidenceHash: string, adapter: AdapterDescriptor)

  datatype Bundle = Bundle(
    snapshot: Snapshot, files: seq<FileCard>, symbols: seq<SymbolCard>, relations: seq<RelationEvidence>)

  // ------------------------------------------------------------- identity

  function ComputeFileID(f: FileCard): EntityId {
    FileId(f.repositoryId, f.sourceCommit, f.path, f.gitBlobId, f.sourceHash)
  }

  function ComputeFileLineageID(f: FileCard): LineageId { FileLineage(f.repositoryId, f.path) }

  function ComputeSymbolID(s: SymbolCard): EntityId {
    SymbolId(s.fileId, s.language, s.kind, s.qualifiedName, s.signature, s.declaration)
  }

  function ComputeSymbolLineageID(s: SymbolCard): LineageId {
    SymbolLineage(s.fileLineageId, s.language, s.kind, s.qualifiedName)
  }

  function ComputeRelationID(r: RelationEvidence): RelationId {
    RelationId(r.snapshotId, r.sourceEntityId, r.kind, r.resolution, r.targetEntityId,
      if r.unresolvedName.Some? then r.unresolvedName.value else "",
      r.evidenceClass, r.sourceFileId, r.locator, r.evidenceHash, r.adapter)
  }

  function ComputeSnapshotID(s: Snapshot): string {
    StableIndexID("snapshot",
      [s.tenantId, s.repositoryId, s.sourceCommit, s.sourceTree, s.configurationHash, s.adapterSetHash])
  }

  function AdapterFields(adapters: seq<AdapterDescriptor>): seq<string> {
    if adapters == [] then []
    else [adapters[0].name, adapters[0].version, adapters[0].configurationHash, adapters[0].capabilityHash]
         + AdapterFields(adapters[1..])
  }

  /** The hash of the adapter list; the framing of its fields stands for the JSON. */
  function AdapterSetHash(adapters: seq<AdapterDescriptor>): string {
    "sha256:" + Digest(Frames(AdapterFields(adapters)))
  }

  lemma {:induction false} AdapterFieldsInjective(a: seq<AdapterDescriptor>, b: seq<AdapterDescriptor>)
    requires AdapterFields(a) == AdapterFields(b)
    ensures a == b
  {
    if a != [] && b != [] {
      var x, y := AdapterFields(a), AdapterFields(b);
      assert x[0] == y[0] && x[1] == y[1] && x[2] == y[2] && x[3] == y[3];
      assert x[4..] == AdapterFields(a[1..]) && y[4..] == AdapterFields(b[1..]);
      AdapterFieldsInjective(a[1..], b[1..]);
      assert a == [a[0]] + a[1..] && b == [b[0]] + b[1..];
    }
  }

  lemma AdapterSetHashInjective(a: seq<AdapterDescriptor>, b: seq<AdapterDescriptor>)
    requires AdapterSetHash(a) == AdapterSetHash(b)
    ensures a == b
  {
    var x, y := AdapterFields(a), AdapterFields(b);
    assert AdapterSetHash(a)[7..] == Digest(Frames(x)) && AdapterSetHash(b)[7..] == Digest(Frames(y));
    DigestInjective(Frames(x), Frames(y));
    FramesInjective(x, y);
    AdapterFieldsInjective(a, b);
  }

  function AdapterKey(d: AdapterDescriptor): string {
    d.name + "\0" + d.version + "\0" + d.configurationHash + "\0" + d.capabilityHash
  }

  // ----------------------------------------------------------- field rules

  predicate Blank(s: string) { forall c :: c in s ==> c in " \t\n\r\U{000b}\U{000c}\U{0085}\U{00a0}" }

  predicate ValidRange(r: SourceRange) {
    && r.start.line >= 1 && r.start.column >= 1 && r.start.offset >= 0
    && r.end.line >= 1 && r.end.column >= 1 && r.end.offset >= r.start.offset
    && r.end.line >= r.start.line
    && (r.end.line == r.start.line ==> r.end.column >= r.start.column)
    && (r.end.offset == r.start.offset ==> r.end.line == r.start.line && r.end.column == r.start.column)
  }

  predicate ValidAdapter(d: AdapterDescriptor) {
    d.name in ["go", "typescript", "python"] && !Blank(d.version) && |d.version| <= 80
  }

  predicate ValidAdapters(adapters: seq<AdapterDescriptor>) {
    && 1 <= |adapters| <= 16
    && (forall d :: d in adapters ==> ValidAdapter(d))
    && (forall i, j :: 0 <= i < j < |adapters| ==> Less(AdapterKey(adapters[i]), AdapterKey(adapters[j])))
  }

  predicate CountsWithinLimits(c: Counts) {
    && 0 <= c.files <= 1_000_000 && 0 <= c.symbols <= 10_000_000
    && 0 <= c.relations <= 50_000_000 && 0 <= c.diagnostics <= 10_000_000
  }

  /** Both hashes of a snapshot are the computed ones. The idle variable keeps the
      digests out of the proofs that do not ask for them with `Open`. */
  predicate SnapshotHashed(s: Snapshot) {
    forall k: bool {:trigger Seqs.Open(k)} :: Seqs.Open(k) ==>
      s.adapterSetHash == AdapterSetHash(s.adapters) && s.snapshotId == ComputeSnapshotID(s)
  }

  /** The rules of `ValidateRepositorySnapshot` apart from its counts. */
  predicate ValidSnapshotIdentity(s: Snapshot) { ValidAdapters(s.adapters) && SnapshotHashed(s) }

  predicate ValidSnapshot(s: Snapshot) { ValidSnapshotIdentity(s) && CountsWithinLimits(s.counts) }

  function DiagnosticKey(d: Diagnostic): string { d.severity + "\0" + d.code }

  predicate ValidSeverity(s: string) { s in ["info", "warning", "error"] }

  predicate ValidDiagnostics(ds: seq<Diagnostic>) {
    && |ds| <= 4096
    && (forall d :: d in ds ==> ValidSeverity(d.severity) && !Blank(d.code) && |d.code| <= 160 && d.count >= 1)
    && (forall i, j :: 0 <= i < j < |ds| ==> Less(DiagnosticKey(ds[i]), DiagnosticKey(ds[j])))
  }

  /** Split on '/'. */
  function Segments(p: string): (r: seq<string>)
    ensures |r| >= 1
  {
    if p == "" then [""]
    else if p[0] == '/' then [""] + Segments(p[1..])
    else var rest := Segments(p[1..]); [[p[0]] + rest[0]] + rest[1..]
  }

  predicate NormalizedPath(p: string) {
    && p != "" && |p| <= 4096 && '\\' !in p && '\0' !in p
    && forall g :: g in Segments(p) ==> g != "" && g != "." && g != ".."
  }

  predicate ValidFileCard(f: FileCard) {
    && 0 <= f.sizeBytes <= 0x100_0000
    && NormalizedPath(f.path)
    && f.language in ["go", "typescript", "javascript", "python", "json", "yaml", "markdown", "other"]
    && f.fileId == ComputeFileID(f) && f.lineageId == ComputeFileLineageID(f)
    && |f.symbolIds| <= 100_000
    && (forall i, j :: 0 <= i < j < |f.symbolIds| ==> EntityLess(f.symbolIds[i], f.symbolIds[j]))
    && (forall e :: e in f.symbolIds ==> e.SymbolId?)
    && ValidDiagnostics(f.diagnostics)
  }

  predicate ValidSymbolKind(k: string) {
    k in ["package", "module", "namespace", "class", "interface", "type", "struct", "enum", "function", "method",
          "constructor", "variable", "constant", "field", "property", "parameter", "import", "export", "route",
          "schema", "test"]
  }

  predicate ValidSymbolCard(s: SymbolCard) {
    && s.fileId.FileId? && s.fileLineageId.FileLineage?
    && s.language in ["go", "typescript", "javascript", "python"]
    && ValidSymbolKind(s.kind)
    && !Blank(s.name) && |s.name| <= 512 && !Blank(s.qualifiedName) && |s.qualifiedName| <= 2048
    && |s.signature| <= 8192 && ValidRange(s.declaration)
    && s.symbolId == ComputeSymbolID(s) && s.lineageId == ComputeSymbolLineageID(s)
  }

  predicate ValidRelationKind(k: string) {
    k in ["contains", "imports", "exports", "declares", "references", "calls", "implements", "extends", "reads",
          "writes", "tests", "routes_to", "validates", "uses_schema"]
  }

  predicate ValidEvidenceClass(c: string) {
    c in ["candidate_static", "confirmed_static", "confirmed_behavioral", "runtime_observed"]
  }

  predicate ValidRelation(r: RelationEvidence) {
    && r.sourceFileId.FileId? && ValidRelationKind(r.kind) && ValidEvidenceClass(r.evidenceClass)
    && ValidRange(r.locator) && ValidAdapter(r.adapter)
    && ((r.resolution == "resolved" && r.targetEntityId.Some? && r.unresolvedName.None?)
        || (r.resolution == "unresolved" && r.targetEntityId.None? && r.unresolvedName.Some?
            && !Blank(r.unresolvedName.value) && |r.unresolvedName.value| <= 2048))
    && r.relationId == ComputeRelationID(r)
  }

  // -------------------------------------------------------- bundle closure

  function Total(ds: seq<Diagnostic>): int { if ds == [] then 0 else ds[0].count + Total(ds[1..]) }

  function DiagnosticTotal(files: seq<FileCard>): int {
    if files == [] then 0 else Total(files[0].diagnostics) + DiagnosticTotal(files[1..])
  }

  /** Identifiers of the symbols declared in one file, in list order. */
  function SymbolsOf(symbols: seq<SymbolCard>, file: EntityId): seq<EntityId> {
    if symbols == [] then []
    else (if symbols[0].fileId == file then [symbols[0].symbolId] else []) + SymbolsOf(symbols[1..], file)
  }

  predicate FileInSnapshot(s: Snapshot, f: FileCard) {
    && ValidFileCard(f)
    && f.snapshotId == s.snapshotId && f.repositoryId == s.repositoryId && f.sourceCommit == s.sourceCommit
  }

  predicate FilesOk(s: Snapshot, files: seq<FileCard>) {
    && (forall f :: f in files ==> FileInSnapshot(s, f))
    && (forall i, j :: 0 <= i < j < |files| ==> files[i].fileId != files[j].fileId && files[i].path != files[j].path)
  }

  predicate HasFile(files: seq<FileCard>, id: EntityId) { exists f :: f in files && f.fileId == id }

  predicate HasSymbol(symbols: seq<SymbolCard>, id: EntityId) { exists s :: s in symbols && s.symbolId == id }

  predicate SymbolInFiles(s: Snapshot, files: seq<FileCard>, symbol: SymbolCard) {
    && ValidSymbolCard(symbol) && symbol.snapshotId == s.snapshotId
    && exists f :: f in files && f.fileId == symbol.fileId && f.lineageId == symbol.fileLineageId
  }

  predicate SymbolsOk(s: Snapshot, files: seq<FileCard>, symbols: seq<SymbolCard>) {
    && (forall x :: x in symbols ==> SymbolInFiles(s, files, x))
    && (forall i, j :: 0 <= i < j < |symbols| ==> symbols[i].symbolId != symbols[j].symbolId)
  }

  predicate ClosureOk(files: seq<FileCard>, symbols: seq<SymbolCard>) {
    forall f :: f in files ==> f.symbolIds == Sort(EntityLess, SymbolsOf(symbols, f.fileId))
  }

  predicate RelationInBundle(s: Snapshot, files: seq<FileCard>, symbols: seq<SymbolCard>, r: RelationEvidence) {
    && ValidRelation(r) && r.snapshotId == s.snapshotId
    && HasFile(files, r.sourceFileId)
    && (HasFile(files, r.sourceEntityId) || HasSymbol(symbols, r.sourceEntityId))
    && (forall x :: x in symbols && x.symbolId == r.sourceEntityId ==> x.fileId == r.sourceFileId)
    && (HasFile(files, r.sourceEntityId) ==> r.sourceEntityId == r.sourceFileId)
    && (r.targetEntityId.Some? ==>
          r.targetEntityId.value.ExternalId? || HasFile(files, r.targetEntityId.value)
          || HasSymbol(symbols, r.targetEntityId.value))
  }

  predicate RelationsOk(b: Bundle) {
    && (forall r :: r in b.relations ==> RelationInBundle(b.snapshot, b.files, b.symbols, r))
    && (forall i, j :: 0 <= i < j < |b.relations| ==> b.relations[i].relationId != b.relations[j].relationId)
  }

  predicate CountsMatch(b: Bundle) {
    && b.snapshot.counts.files == |b.files| && b.snapshot.counts.symbols == |b.symbols|
    && b.snapshot.counts.relations == |b.relations|
    && b.snapshot.counts.diagnostics == DiagnosticTotal(b.files)
  }

  /** What a bundle accepted by `ValidateBundle` satisfies. */
  predicate BundleValid(b: Bundle) {
    && ValidSnapshot(b.snapshot) && CountsMatch(b)
    && FilesOk(b.snapshot, b.files)
    && SymbolsOk(b.snapshot, b.files, b.symbols)
    && ClosureOk(b.files, b.symbols)
    && RelationsOk(b)
  }

  // ------------------------------------------------------- the validator

  method ValidateBundle(b: Bundle) returns (ok: bool)
    ensures ok <==> BundleValid(b)
  {
    if !ValidSnapshot(b.snapshot) || b.snapshot.counts.files != |b.files|
       || b.snapshot.counts.symbols != |b.symbols| || b.snapshot.counts.relations != |b.relations| {
      return false;
    }
    var files, total, filesOk := CollectFiles(b.snapshot, b.files);
    if !filesOk || total != b.snapshot.counts.diagnostics { return false; }
    var symbols, grouped, symbolsOk := CollectSymbols(b.snapshot, b.files, files, b.symbols);
    if !symbolsOk { return false; }
    var closed := CheckClosure(b.files, b.symbols, grouped);
    if !closed { return false; }
    ok := CheckRelations(b, files, symbols);
  }

  ghost predicate IndexedBy<K, V>(items: seq<V>, key: V -> K, byKey: map<K, V>) {
    && (forall x :: x in items ==> key(x) in byKey && byKey[key(x)] == x)
    && (forall k :: k in byKey ==> byKey[k] in items && key(byKey[k]) == k)
  }

  ghost predicate DistinctBy<K, V>(items: seq<V>, key: V -> K) {
    forall i, j :: 0 <= i < j < |items| ==> key(items[i]) != key(items[j])
  }

  function FileIdOf(f: FileCard): EntityId { f.fileId }
  function PathOf(f: FileCard): string { f.path }
  function SymbolIdOf(x: SymbolCard): EntityId { x.symbolId }
  function RelationIdOf(r: RelationEvidence): RelationId { r.relationId }

  /** The validator's loops: check each card, refuse a repeated key, fill a map. */
  method Collect<K(==), V(==)>(items: seq<V>, valid: V -> bool, key: V -> K) returns (byKey: map<K, V>, ok: bool)
    ensures ok <==> (forall x :: x in items ==> valid(x)) && DistinctBy(items, key)
    ensures ok ==> IndexedBy(items, key, byKey)
  {
    byKey, ok := map[], true;
    for i := 0 to |items|
      invariant ok && DistinctBy(items[..i], key) && IndexedBy(items[..i], key, byKey)
      invariant forall k :: 0 <= k < i ==> valid(items[k])
    {
      var x := items[i];
      if !valid(x) { return byKey, false; }
      if key(x) in byKey {
        var k :| 0 <= k < i && items[..i][k] == byKey[key(x)];
        assert key(items[k]) == key(items[i]);
        return byKey, false;
      }
      byKey := byKey[key(x) := x];
      assert items[..i+1] == items[..i] + [x];
    }
    assert items[..|items|] == items;
  }

  method CollectFiles(s: Snapshot, files: seq<FileCard>)
    returns (byId: map<EntityId, FileCard>, total: int, ok: bool)
    ensures ok <==> FilesOk(s, files)
    ensures ok ==> total == DiagnosticTotal(files)
    ensures ok ==> IndexedBy(files, FileIdOf, byId)
  {
    total := 0;
    byId, ok := Collect(files, f => FileInSnapshot(s, f), FileIdOf);
    var _, pathsOk := Collect(files, f => FileInSnapshot(s, f), PathOf);
    assert pathsOk && ok ==> FilesOk(s, files);
    ok := ok && pathsOk;
    for i := 0 to |files|
      invariant total + DiagnosticTotal(files[i..]) == DiagnosticTotal(files)
    {
      total := total + Total(files[i].diagnostics);
      assert files[i..][1..] == files[i+1..];
    }
  }

  method CollectSymbols(s: Snapshot, files: seq<FileCard>, byId: map<EntityId, FileCard>, symbols: seq<SymbolCard>)
    returns (seen: map<EntityId, SymbolCard>, grouped: map<EntityId, seq<EntityId>>, ok: bool)
    requires IndexedBy(files, FileIdOf, byId)
    ensures ok <==> SymbolsOk(s, files, symbols)
    ensures ok ==> IndexedBy(symbols, SymbolIdOf, seen)
    ensures Groups(symbols, grouped)
  {
    var valid := (x: SymbolCard) =>
      && ValidSymbolCard(x) && x.snapshotId == s.snapshotId
      && x.fileId in byId && byId[x.fileId].lineageId == x.fileLineageId;
    forall x ensures valid(x) == SymbolInFiles(s, files, x) { FileLookup(files, byId, x); }
    seen, ok := Collect(symbols, valid, SymbolIdOf);
    grouped := map[];
    for i := 0 to |symbols|
      invariant Groups(symbols[..i], grouped)
    {
      var x := symbols[i];
      GroupsGrow(symbols[..i], grouped, x);
      grouped := grouped[x.fileId := (if x.fileId in grouped then grouped[x.fileId] else []) + [x.symbolId]];
      assert symbols[..i+1] == symbols[..i] + [x];
    }
    assert symbols[..|symbols|] == symbols;
  }

  lemma FileLookup(files: seq<FileCard>, byId: map<EntityId, FileCard>, x: SymbolCard)
    requires IndexedBy(files, FileIdOf, byId)
    ensures (x.fileId in byId && byId[x.fileId].lineageId == x.fileLineageId)
            == exists f :: f in files && f.fileId == x.fileId && f.lineageId == x.fileLineageId
  {
    if x.fileId in byId { assert byId[x.fileId] in files && FileIdOf(byId[x.fileId]) == x.fileId; }
    assert forall f :: f in files ==> FileIdOf(f) in byId;
  }

  ghost predicate Groups(symbols: seq<SymbolCard>, grouped: map<EntityId, seq<EntityId>>) {
    forall id :: SymbolsOf(symbols, id) == (if id in grouped then grouped[id] else [])
  }

  lemma GroupsGrow(symbols: seq<SymbolCard>, grouped: map<EntityId, seq<EntityId>>, x: SymbolCard)
    requires Groups(symbols, grouped)
    ensures Groups(symbols + [x],
      grouped[x.fileId := (if x.fileId in grouped then grouped[x.fileId] else []) + [x.symbolId]])
  {
    forall id ensures SymbolsOf(symbols + [x], id)
                      == SymbolsOf(symbols, id) + (if x.fileId == id then [x.symbolId] else []) {
      SymbolsOfAppend(symbols, [x], id);
      assert SymbolsOf([x], id) == (if x.fileId == id then [x.symbolId] else []);
    }
  }

  method CheckClosure(files: seq<FileCard>, ghost symbols: seq<SymbolCard>, grouped: map<EntityId, seq<EntityId>>)
    returns (ok: bool)
    requires Groups(symbols, grouped)
    ensures ok <==> ClosureOk(files, symbols)
  {
    for i := 0 to |files|
      invariant forall k :: 0 <= k < i ==> files[k].symbolIds == Sort(EntityLess, SymbolsOf(symbols, files[k].fileId))
    {
      var id := files[i].fileId;
      var ids := if id in grouped then grouped[id] else [];
      assert ids == SymbolsOf(symbols, id);
      var sorted := Sort(EntityLess, ids);
      if sorted != files[i].symbolIds {
        assert files[i] in files;
        return false;
      }
    }
    ok := true;
  }

  lemma {:induction false} SymbolsOfAppend(a: seq<SymbolCard>, b: seq<SymbolCard>, id: EntityId)
    ensures SymbolsOf(a + b, id) == SymbolsOf(a, id) + SymbolsOf(b, id)
  {
    if a == [] {
      assert a + b == b;
    } else {
      var first := if a[0].fileId == id then [a[0].symbolId] else [];
      assert (a + b)[0] == a[0] && (a + b)[1..] == a[1..] + b;
      SymbolsOfAppend(a[1..], b, id);
      assert SymbolsOf(a + b, id) == first + SymbolsOf(a[1..] + b, id);
    }
  }

  method CheckRelations(b: Bundle, files: map<EntityId, FileCard>, symbols: map<EntityId, SymbolCard>)
    returns (ok: bool)
    requires IndexedBy(b.files, FileIdOf, files) && IndexedBy(b.symbols, SymbolIdOf, symbols)
    ensures ok <==> RelationsOk(b)
  {
    var here := (r: RelationEvidence) =>
      && ValidRelation(r) && r.snapshotId == b.snapshot.snapshotId && r.sourceFileId in files
      && (r.sourceEntityId in files || r.sourceEntityId in symbols)
      && (r.sourceEntityId in symbols ==> symbols[r.sourceEntityId].fileId == r.sourceFileId)
      && (r.sourceEntityId in files ==> r.sourceEntityId == r.sourceFileId)
      && (r.targetEntityId.None? || r.targetEntityId.value.ExternalId?
          || r.targetEntityId.value in files || r.targetEntityId.value in symbols);
    forall r ensures here(r) == RelationInBundle(b.snapshot, b.files, b.symbols, r) {
      EntityLookup(b, files, symbols, r.sourceFileId);
      EntityLookup(b, files, symbols, r.sourceEntityId);
      if r.targetEntityId.Some? { EntityLookup(b, files, symbols, r.targetEntityId.value); }
    }
    var _, collected := Collect(b.relations, here, RelationIdOf);
    ok := collected;
  }

  lemma EntityLookup(b: Bundle, files: map<EntityId, FileCard>, symbols: map<EntityId, SymbolCard>, id: EntityId)
    requires IndexedBy(b.files, FileIdOf, files) && IndexedBy(b.symbols, SymbolIdOf, symbols)
    ensures HasFile(b.files, id) <==> id in files
    ensures HasSymbol(b.symbols, id) <==> id in symbols
    ensures id in symbols ==> forall x :: x in b.symbols && x.symbolId == id ==> x == symbols[id]
  {
    assert forall f :: f in b.files ==> FileIdOf(f) in files;
    assert forall x :: x in b.symbols ==> SymbolIdOf(x) in symbols;
    if id in files { assert files[id] in b.files && FileIdOf(files[id]) == id; }
    if id in symbols { assert symbols[id] in b.symbols && SymbolIdOf(symbols[id]) == id; }
  }

  // ----------------------------------------------------- canonical form

  predicate FileCardLess(a: FileCard, b: FileCard) { EntityLess(a.fileId, b.fileId) }
  predicate SymbolCardLess(a: SymbolCard, b: SymbolCard) { EntityLess(a.symbolId, b.symbolId) }
  predicate RelationLess(a: RelationEvidence, b: RelationEvidence) { RelationIdLess(a.relationId, b.relationId) }

  function Canonical(b: Bundle): Bundle {
    Bundle(b.snapshot, Sort(FileCardLess, b.files), Sort(SymbolCardLess, b.symbols), Sort(RelationLess, b.relations))
  }

  function CanonicalizeBundle(b: Bundle): Outcome<Bundle> {
    if BundleValid(b) then Ok(Canonical(b)) else Err
  }

  lemma CardOrders()
    ensures WeakOrder(FileCardLess) && WeakOrder(SymbolCardLess) && WeakOrder(RelationLess)
  {
    EntityOrder();
    RelationIdOrder();
  }

  ghost predicate DistinctIds(b: Bundle) {
    && (forall i, j :: 0 <= i < j < |b.files| ==> b.files[i].fileId != b.files[j].fileId)
    && (forall i, j :: 0 <= i < j < |b.symbols| ==> b.symbols[i].symbolId != b.symbols[j].symbolId)
    && (forall i, j :: 0 <= i < j < |b.relations| ==> b.relations[i].relationId != b.relations[j].relationId)
  }

  ghost predicate SameCards(a: Bundle, b: Bundle) {
    && a.snapshot == b.snapshot && multiset(a.files) == multiset(b.files)
    && multiset(a.symbols) == multiset(b.symbols) && multiset(a.relations) == multiset(b.relations)
  }

  /** Bundles have one canonical form exactly when they hold the same cards. */
  lemma CanonicalFormUnique(a: Bundle, b: Bundle)
    requires DistinctIds(a)
    ensures Canonical(a) == Canonical(b) <==> SameCards(a, b)
  {
    CardOrders();
    EntityOrder();
    RelationIdOrder();
    SortPermutes(FileCardLess, a.files);
    SortPermutes(FileCardLess, b.files);
    SortPermutes(SymbolCardLess, a.symbols);
    SortPermutes(SymbolCardLess, b.symbols);
    SortPermutes(RelationLess, a.relations);
    SortPermutes(RelationLess, b.relations);
    if SameCards(a, b) {
      SortForgetsOrder(FileCardLess, a.files, b.files);
      SortForgetsOrder(SymbolCardLess, a.symbols, b.symbols);
      SortForgetsOrder(RelationLess, a.relations, b.relations);
    }
  }
}
