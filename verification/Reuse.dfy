/** `RebindReusableAdapters`: carrying adapter evidence into a new snapshot. */
module Reuse {
  import opened Ordering
  import opened Seqs
  import opened Cards
  import opened Bundles

  predicate Owns(d: AdapterDescriptor, language: string) {
    d.name == language || (d.name == "typescript" && language == "javascript")
  }

  predicate OwnsLanguage(descs: seq<AdapterDescriptor>, language: string) {
    exists d :: d in descs && Owns(d, language)
  }

  // ------------------------------------------------------------ entity map

  /** A map filled by a loop over `items`; later entries win. */
  function BuildMap<T>(items: seq<T>, key: T -> EntityId, value: T -> Option<EntityId>): map<EntityId, EntityId> {
    if items == [] then map[]
    else
      var m, x := BuildMap(items[..|items|-1], key, value), items[|items|-1];
      if value(x).Some? then m[key(x) := value(x).value] else m
  }

  lemma {:induction false} BuildMapDomain<T>(items: seq<T>, key: T -> EntityId, value: T -> Option<EntityId>, k: EntityId)
    ensures k in BuildMap(items, key, value) <==> exists x :: x in items && key(x) == k && value(x).Some?
  {
    if items != [] {
      var n := |items| - 1;
      assert items == items[..n] + [items[n]];
      BuildMapDomain(items[..n], key, value, k);
    }
  }

  lemma {:induction false} BuildMapAt<T>(items: seq<T>, key: T -> EntityId, value: T -> Option<EntityId>, i: nat)
    requires DistinctBy(items, key) && i < |items|
    ensures key(items[i]) in BuildMap(items, key, value) <==> value(items[i]).Some?
    ensures value(items[i]).Some? ==> BuildMap(items, key, value)[key(items[i])] == value(items[i]).value
  {
    var n := |items| - 1;
    if i < n {
      BuildMapAt(items[..n], key, value, i);
      assert items[..n][i] == items[i];
      assert key(items[i]) != key(items[n]);
    } else {
      BuildMapDomain(items[..n], key, value, key(items[n]));
      assert forall x :: x in items[..n] ==> key(x) != key(items[n]);
    }
  }

  function FileAt(files: seq<FileCard>, path: string): Option<FileCard> {
    if files == [] then None else if files[0].path == path then Some(files[0]) else FileAt(files[1..], path)
  }

  /** The target's file with the same path and the same bytes. */
  function Counterpart(target: seq<FileCard>): FileCard -> Option<EntityId> {
    (f: FileCard) =>
      var c := FileAt(target, f.path);
      if c.Some? && c.value.sourceHash == f.sourceHash then Some(c.value.fileId) else None
  }

  function FileMap(target: Bundle, baseline: Bundle): map<EntityId, EntityId> {
    BuildMap(baseline.files, FileIdOf, Counterpart(target.files))
  }

  function LastOfLineage(symbols: seq<SymbolCard>, lineage: LineageId): Option<EntityId> {
    if symbols == [] then None
    else if symbols[|symbols|-1].lineageId == lineage then Some(symbols[|symbols|-1].symbolId)
    else LastOfLineage(symbols[..|symbols|-1], lineage)
  }

  function ByLineage(target: seq<SymbolCard>): SymbolCard -> Option<EntityId> {
    (x: SymbolCard) => LastOfLineage(target, x.lineageId)
  }

  function LineageMap(target: Bundle, baseline: Bundle): map<EntityId, EntityId> {
    BuildMap(baseline.symbols, SymbolIdOf, ByLineage(target.symbols))
  }

  function FileById(files: seq<FileCard>, id: EntityId): Option<FileCard> {
    if files == [] then None else if files[0].fileId == id then Some(files[0]) else FileById(files[1..], id)
  }

  /** A symbol card moved to another snapshot's file. */
  function RebasedSymbol(s: Snapshot, file: FileCard, x: SymbolCard): SymbolCard {
    SymbolCard(
      SymbolId(file.fileId, x.language, x.kind, x.qualifiedName, x.signature, x.declaration),
      SymbolLineage(file.lineageId, x.language, x.kind, x.qualifiedName),
      file.lineageId, s.snapshotId, file.fileId, x.language, x.kind, x.name, x.qualifiedName, x.signature,
      x.declaration, x.exported, x.test, x.route, x.schema, x.documentationHash)
  }

  /** The rebased card, when the symbol's file is present and its language is carried. */
  function Carried(target: Bundle, files: map<EntityId, EntityId>, descs: seq<AdapterDescriptor>)
    : SymbolCard -> Option<SymbolCard> {
    (x: SymbolCard) =>
      if x.fileId !in files || !OwnsLanguage(descs, x.language) then None
      else
        var file := FileById(target.files, files[x.fileId]);
        if file.None? then None else Some(RebasedSymbol(target.snapshot, file.value, x))
  }

  function CarriedId(target: Bundle, files: map<EntityId, EntityId>, descs: seq<AdapterDescriptor>)
    : SymbolCard -> Option<EntityId> {
    (x: SymbolCard) =>
      var c := Carried(target, files, descs)(x); if c.Some? then Some(c.value.symbolId) else None
  }

  function CarriedMap(target: Bundle, baseline: Bundle, descs: seq<AdapterDescriptor>): map<EntityId, EntityId> {
    BuildMap(baseline.symbols, SymbolIdOf, CarriedId(target, FileMap(target, baseline), descs))
  }

  function EntityMap(target: Bundle, baseline: Bundle, descs: seq<AdapterDescriptor>): map<EntityId, EntityId> {
    FileMap(target, baseline) + LineageMap(target, baseline) + CarriedMap(target, baseline, descs)
  }

  // -------------------------------------------------------- carried evidence

  function IsCarried(target: Bundle, files: map<EntityId, EntityId>, descs: seq<AdapterDescriptor>)
    : SymbolCard -> bool {
    (x: SymbolCard) => Carried(target, files, descs)(x).Some?
  }

  function Rebaser(target: Bundle, files: map<EntityId, EntityId>, descs: seq<AdapterDescriptor>)
    : SymbolCard -> SymbolCard {
    (x: SymbolCard) => var c := Carried(target, files, descs)(x); if c.Some? then c.value else x
  }

  function CarriedSymbols(target: Bundle, baseline: Bundle, descs: seq<AdapterDescriptor>): seq<SymbolCard> {
    var files := FileMap(target, baseline);
    Map(Rebaser(target, files, descs), Filter(IsCarried(target, files, descs), baseline.symbols))
  }

  predicate RelationMapped(m: map<EntityId, EntityId>, r: RelationEvidence) {
    && r.sourceFileId in m && r.sourceEntityId in m
    && (r.targetEntityId.Some? && !r.targetEntityId.value.ExternalId? ==> r.targetEntityId.value in m)
  }

  function Moved(m: map<EntityId, EntityId>, id: EntityId): EntityId { if id in m then m[id] else id }

  function MovedTarget(m: map<EntityId, EntityId>, target: Option<EntityId>): Option<EntityId> {
    if target.Some? && !target.value.ExternalId? then Some(Moved(m, target.value)) else target
  }

  function RebasedRelation(s: Snapshot, m: map<EntityId, EntityId>, r: RelationEvidence): (n: RelationEvidence)
    ensures n.relationId == ComputeRelationID(n)
  {
    RelationEvidence(
      RelationId(s.snapshotId, Moved(m, r.sourceEntityId), r.kind, r.resolution, MovedTarget(m, r.targetEntityId),
        if r.unresolvedName.Some? then r.unresolvedName.value else "", r.evidenceClass, Moved(m, r.sourceFileId),
        r.locator, r.evidenceHash, r.adapter),
      s.snapshotId, Moved(m, r.sourceEntityId), r.kind, r.resolution, MovedTarget(m, r.targetEntityId),
      r.unresolvedName, r.evidenceClass, Moved(m, r.sourceFileId), r.locator, r.evidenceHash, r.adapter)
  }

  function FromReused(descs: seq<AdapterDescriptor>): RelationEvidence -> bool {
    (r: RelationEvidence) => exists d :: d in descs && AdapterKey(d) == AdapterKey(r.adapter)
  }

  function RelationMover(s: Snapshot, m: map<EntityId, EntityId>): RelationEvidence -> RelationEvidence {
    (r: RelationEvidence) => RebasedRelation(s, m, r)
  }

  function ReusedRelations(baseline: Bundle, descs: seq<AdapterDescriptor>): seq<RelationEvidence> {
    Filter(FromReused(descs), baseline.relations)
  }

  function CarriedRelations(target: Bundle, baseline: Bundle, descs: seq<AdapterDescriptor>): seq<RelationEvidence> {
    Map(RelationMover(target.snapshot, EntityMap(target, baseline, descs)), ReusedRelations(baseline, descs))
  }

  /** Files of a carried language keep the diagnostics of their baseline card. */
  function WithCarriedDiagnostics(baseline: Bundle, descs: seq<AdapterDescriptor>, f: FileCard): FileCard {
    var previous := FileAt(baseline.files, f.path);
    if previous.Some? && OwnsLanguage(descs, previous.value.language)
    then f.(diagnostics := previous.value.diagnostics) else f
  }

  function FileMover(baseline: Bundle, descs: seq<AdapterDescriptor>, symbols: seq<SymbolCard>): FileCard -> FileCard {
    (f: FileCard) =>
      WithCarriedDiagnostics(baseline, descs, f).(symbolIds := Sort(EntityLess, SymbolsOf(symbols, f.fileId)))
  }

  // ------------------------------------------------------------------ rebind

  predicate FileExact(target: Bundle, f: FileCard) {
    var c := FileAt(target.files, f.path);
    c.Some? && c.value.sourceHash == f.sourceHash && c.value.lineageId == f.lineageId
  }

  predicate CarriedFilesExact(target: Bundle, baseline: Bundle, descs: seq<AdapterDescriptor>) {
    forall f :: f in baseline.files && OwnsLanguage(descs, f.language) ==> FileExact(target, f)
  }

  predicate CarriedSymbolsValid(target: Bundle, baseline: Bundle, descs: seq<AdapterDescriptor>) {
    forall x :: x in CarriedSymbols(target, baseline, descs) ==> ValidSymbolCard(x)
  }

  predicate CarriedRelationsValid(target: Bundle, baseline: Bundle, descs: seq<AdapterDescriptor>) {
    var m := EntityMap(target, baseline, descs);
    forall r :: r in ReusedRelations(baseline, descs) ==>
      RelationMapped(m, r) && ValidRelation(RebasedRelation(target.snapshot, m, r))
  }

  function ReboundBundle(target: Bundle, baseline: Bundle, descs: seq<AdapterDescriptor>): Bundle {
    var symbols := Sort(SymbolCardLess, target.symbols + CarriedSymbols(target, baseline, descs));
    var relations := Sort(RelationLess, target.relations + CarriedRelations(target, baseline, descs));
    var files := Map(FileMover(baseline, descs, symbols), target.files);
    Bundle(target.snapshot.(counts := Counts(|files|, |symbols|, |relations|, DiagnosticTotal(files))),
           files, symbols, relations)
  }

  predicate Rebindable(target: Bundle, baseline: Bundle, descs: seq<AdapterDescriptor>) {
    && (forall d :: d in descs ==> d in target.snapshot.adapters)
    && CarriedFilesExact(target, baseline, descs)
    && CarriedSymbolsValid(target, baseline, descs)
    && CarriedRelationsValid(target, baseline, descs)
    && BundleValid(ReboundBundle(target, baseline, descs))
  }

  /** What `RebindReusableAdapters` returns. */
  function Rebound(target: Bundle, baseline: Bundle, descs: seq<AdapterDescriptor>): Outcome<Bundle> {
    if !BundleValid(target) then Err
    else if descs == [] then Ok(target)
    else if BundleValid(baseline) && Rebindable(target, baseline, descs) then Ok(ReboundBundle(target, baseline, descs))
    else Err
  }
}
