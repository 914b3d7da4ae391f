/** What `NormalizeResults` guarantees: its bundles pass `ValidateBundle`, and
    they do not depend on the order adapters report in. */
module NormalizationProofs {
  import opened Ordering
  import opened Seqs
  import opened Cards
  import opened Bundles
  import opened Normalization

  // ------------------------------------------------------- shared small facts

  function DifferentKeys<K(==), V>(key: V -> K): (V, V) -> bool { (x: V, y: V) => key(x) != key(y) }

  lemma DistinctByPermutes<K, V>(key: V -> K, a: seq<V>, b: seq<V>)
    requires DistinctBy(a, key) && multiset(a) == multiset(b)
    ensures DistinctBy(b, key)
  {
    NoTiesTransfers(DifferentKeys(key), a, b);
  }

  lemma SymbolKeysPermute(a: seq<Tagged<RawSymbol>>, b: seq<Tagged<RawSymbol>>)
    requires DistinctKeys(a) && multiset(a) == multiset(b)
    ensures DistinctKeys(b)
  {
    var key := (t: Tagged<RawSymbol>) => t.raw.key;
    DistinctByPermutes(key, a, b);
    assert forall i, j :: 0 <= i < j < |b| ==> key(b[i]) != key(b[j]);
  }

  lemma SymbolNoTies(ts: seq<Tagged<RawSymbol>>)
    requires DistinctKeys(ts)
    ensures NoTies(SymbolBefore, ts)
  {
    StringOrder();
  }

  /** The sorted symbols are the emitted ones, so their keys stay distinct. */
  lemma SortedSymbolsFacts(rs: seq<RawResult>)
    requires DistinctKeys(TaggedSymbols(rs))
    ensures multiset(SortedSymbols(rs)) == multiset(TaggedSymbols(rs))
    ensures DistinctKeys(SortedSymbols(rs))
    ensures forall t :: t in SortedSymbols(rs) <==> t in TaggedSymbols(rs)
  {
    SortPermutes(SymbolBefore, TaggedSymbols(rs));
    SymbolKeysPermute(TaggedSymbols(rs), SortedSymbols(rs));
    forall t ensures t in SortedSymbols(rs) <==> t in TaggedSymbols(rs) {
      MemberPermutes(SortedSymbols(rs), TaggedSymbols(rs), t);
    }
  }

  lemma KeyFound(s: Snapshot, docs: seq<Document>, rs: seq<RawResult>, k: string)
    requires DistinctKeys(TaggedSymbols(rs)) && k in Keys(s, docs, rs)
    ensures exists t :: t in TaggedSymbols(rs) && t.raw.key == k
                        && Keys(s, docs, rs)[k] == CardOf(s, DocAt(docs, t.raw.path), t.raw).symbolId
  {
    var ts := SortedSymbols(rs);
    SortedSymbolsFacts(rs);
    KeyMapDomain(Carder(s, docs), ts, k);
    var t :| t in ts && t.raw.key == k;
    var i :| 0 <= i < |ts| && ts[i] == t;
    KeyMapValue(Carder(s, docs), ts, i);
  }

  lemma KeyPresent(s: Snapshot, docs: seq<Document>, rs: seq<RawResult>, t: Tagged<RawSymbol>)
    requires DistinctKeys(TaggedSymbols(rs)) && t in TaggedSymbols(rs)
    ensures t.raw.key in Keys(s, docs, rs)
    ensures Keys(s, docs, rs)[t.raw.key] == CardOf(s, DocAt(docs, t.raw.path), t.raw).symbolId
  {
    var ts := SortedSymbols(rs);
    SortedSymbolsFacts(rs);
    var i :| 0 <= i < |ts| && ts[i] == t;
    KeyMapValue(Carder(s, docs), ts, i);
  }

  lemma FileForDoc(s: Snapshot, docs: seq<Document>, rs: seq<RawResult>, d: Document)
    requires d in docs
    ensures FinalFile(s, Symbols(s, docs, rs), AllDiagnostics(rs), d) in Files(s, docs, rs)
    ensures HasFile(Files(s, docs, rs), FileIdFor(s, d))
  {
    var i :| 0 <= i < |docs| && docs[i] == d;
    assert Files(s, docs, rs)[i] == FinalFile(s, Symbols(s, docs, rs), AllDiagnostics(rs), d);
  }

  // -------------------------------------------------------------- validity

  lemma FilesOfBundle(s: Snapshot, docs: seq<Document>, rs: seq<RawResult>)
    requires DistinctPaths(docs) && forall f :: f in Files(s, docs, rs) ==> ValidFileCard(f)
    ensures FilesOk(s, Files(s, docs, rs))
  {
    var files := Files(s, docs, rs);
    forall i, j | 0 <= i < j < |files| ensures files[i].fileId != files[j].fileId && files[i].path != files[j].path {
      assert docs[i].path != docs[j].path;
    }
    forall f | f in files ensures FileInSnapshot(s, f) {
      var i :| 0 <= i < |files| && files[i] == f;
    }
  }

  lemma {:induction false} SymbolsOfMember(symbols: seq<SymbolCard>, file: EntityId, i: nat)
    requires i < |symbols| && symbols[i].fileId == file
    ensures symbols[i].symbolId in SymbolsOf(symbols, file)
  {
    if i > 0 { SymbolsOfMember(symbols[1..], file, i - 1); }
  }

  /** Two cards with one identifier would repeat it in their file's list. */
  lemma RepeatedSymbol(symbols: seq<SymbolCard>, i: nat, j: nat)
    requires i < j < |symbols| && symbols[i].symbolId == symbols[j].symbolId
    requires symbols[i].fileId == symbols[j].fileId
    ensures multiset(SymbolsOf(symbols, symbols[i].fileId))[symbols[i].symbolId] >= 2
  {
    var file, id := symbols[i].fileId, symbols[i].symbolId;
    var head, tail := symbols[..j], symbols[j..];
    assert symbols == head + tail;
    SymbolsOfAppend(head, tail, file);
    SymbolsOfMember(head, file, i);
    SymbolsOfMember(tail, file, 0);
    assert id in multiset(SymbolsOf(head, file)) && id in multiset(SymbolsOf(tail, file));
  }

  lemma StrictListsAreDistinct(ids: seq<EntityId>)
    requires forall i, j :: 0 <= i < j < |ids| ==> EntityLess(ids[i], ids[j])
    ensures forall id :: multiset(ids)[id] <= 1
  {
    EntityOrder();
    forall id ensures multiset(ids)[id] <= 1 {
      if multiset(ids)[id] >= 2 { RepeatedAt(ids, id); }
    }
  }

  lemma SymbolsOfBundle(s: Snapshot, docs: seq<Document>, rs: seq<RawResult>)
    requires SymbolsAccepted(s, docs, rs)
    requires forall f :: f in Files(s, docs, rs) ==> ValidFileCard(f)
    ensures SymbolsOk(s, Files(s, docs, rs), Symbols(s, docs, rs))
  {
    var files, symbols := Files(s, docs, rs), Symbols(s, docs, rs);
    var ts := SortedSymbols(rs);
    SortedSymbolsFacts(rs);
    forall k | 0 <= k < |symbols|
      ensures SymbolInFiles(s, files, symbols[k])
      ensures symbols[k].symbolId == ComputeSymbolID(symbols[k])
    {
      var t := ts[k];
      assert t in ts;
      DocAtFound(docs, t.raw.path);
      FileForDoc(s, docs, rs, DocAt(docs, t.raw.path));
    }
    forall i, j | 0 <= i < j < |symbols| ensures symbols[i].symbolId != symbols[j].symbolId {
      if symbols[i].symbolId == symbols[j].symbolId {
        RepeatedSymbol(symbols, i, j);
        var f :| f in files && f.fileId == symbols[i].fileId && f.lineageId == symbols[i].fileLineageId;
        FileListOf(s, docs, rs, f);
        SortPermutes(EntityLess, SymbolsOf(symbols, f.fileId));
        StrictListsAreDistinct(f.symbolIds);
      }
    }
  }

  lemma FileListOf(s: Snapshot, docs: seq<Document>, rs: seq<RawResult>, f: FileCard)
    requires f in Files(s, docs, rs)
    ensures f.symbolIds == Sort(EntityLess, SymbolsOf(Symbols(s, docs, rs), f.fileId))
  {
    var i :| 0 <= i < |docs| && Files(s, docs, rs)[i] == f;
  }

  lemma RelationOfBundle(evidence: RawRelation -> string, s: Snapshot, docs: seq<Document>, rs: seq<RawResult>,
                         t: Tagged<RawRelation>)
    requires SymbolsAccepted(s, docs, rs)
    requires Bindable(s, docs, Keys(s, docs, rs), t.raw)
    requires ValidRelation(RelationOf(evidence, s, docs, Keys(s, docs, rs), t))
    ensures RelationInBundle(s, Files(s, docs, rs), Symbols(s, docs, rs),
              RelationOf(evidence, s, docs, Keys(s, docs, rs), t))
  {
    var files, symbols, keys := Files(s, docs, rs), Symbols(s, docs, rs), Keys(s, docs, rs);
    var r := RelationOf(evidence, s, docs, keys, t);
    DocAtFound(docs, t.raw.sourcePath);
    FileForDoc(s, docs, rs, DocAt(docs, t.raw.sourcePath));
    assert forall f :: f in files ==> f.fileId.FileId? by { FileIdsAreFileIds(s, docs, rs); }
    assert forall x :: x in symbols ==> x.symbolId.SymbolId? && x.symbolId.file == x.fileId by {
      SymbolIdsNameFiles(s, docs, rs);
    }
    if t.raw.sourceKey.Some? { KeyNamesSymbol(s, docs, rs, t.raw.sourceKey.value); }
    if t.raw.targetKey.Some? { KeyNamesSymbol(s, docs, rs, t.raw.targetKey.value); }
    if t.raw.targetPath.Some? {
      DocAtFound(docs, t.raw.targetPath.value);
      FileForDoc(s, docs, rs, DocAt(docs, t.raw.targetPath.value));
    }
  }

  lemma FileIdsAreFileIds(s: Snapshot, docs: seq<Document>, rs: seq<RawResult>)
    ensures forall f :: f in Files(s, docs, rs) ==> f.fileId.FileId?
  {
    forall f | f in Files(s, docs, rs) ensures f.fileId.FileId? {
      var i :| 0 <= i < |docs| && Files(s, docs, rs)[i] == f;
    }
  }

  lemma SymbolIdsNameFiles(s: Snapshot, docs: seq<Document>, rs: seq<RawResult>)
    ensures forall x :: x in Symbols(s, docs, rs) ==> x.symbolId.SymbolId? && x.symbolId.file == x.fileId
  {
    forall x | x in Symbols(s, docs, rs) ensures x.symbolId.SymbolId? && x.symbolId.file == x.fileId {
      var i :| 0 <= i < |SortedSymbols(rs)| && Symbols(s, docs, rs)[i] == x;
    }
  }

  lemma KeyNamesSymbol(s: Snapshot, docs: seq<Document>, rs: seq<RawResult>, k: string)
    requires DistinctKeys(TaggedSymbols(rs)) && k in Keys(s, docs, rs)
    ensures HasSymbol(Symbols(s, docs, rs), Keys(s, docs, rs)[k])
  {
    KeyFound(s, docs, rs, k);
    var t :| t in TaggedSymbols(rs) && t.raw.key == k
             && Keys(s, docs, rs)[k] == CardOf(s, DocAt(docs, t.raw.path), t.raw).symbolId;
    SortedSymbolsFacts(rs);
    var i :| 0 <= i < |SortedSymbols(rs)| && SortedSymbols(rs)[i] == t;
    assert Symbols(s, docs, rs)[i].symbolId == Keys(s, docs, rs)[k];
  }

  lemma RelationsOfBundle(evidence: RawRelation -> string, s: Snapshot, docs: seq<Document>, rs: seq<RawResult>)
    requires SymbolsAccepted(s, docs, rs) && RelationsAccepted(evidence, s, docs, rs)
    ensures forall r :: r in Sort(RelationLess, UnsortedRelations(evidence, s, docs, rs)) ==>
              RelationInBundle(s, Files(s, docs, rs), Symbols(s, docs, rs), r)
    ensures DistinctBy(Sort(RelationLess, UnsortedRelations(evidence, s, docs, rs)), RelationIdOf)
  {
    var unsorted := UnsortedRelations(evidence, s, docs, rs);
    var sorted := Sort(RelationLess, unsorted);
    SortPermutes(RelationLess, unsorted);
    DistinctByPermutes(RelationIdOf, unsorted, sorted);
    forall r | r in sorted ensures RelationInBundle(s, Files(s, docs, rs), Symbols(s, docs, rs), r) {
      MemberPermutes(sorted, unsorted, r);
      MapMember(Binder(evidence, s, docs, Keys(s, docs, rs)), RawRelations(rs), r);
      var t :| t in RawRelations(rs) && Binder(evidence, s, docs, Keys(s, docs, rs))(t) == r;
      RelationOfBundle(evidence, s, docs, rs, t);
    }
  }

  lemma SnapshotIgnoresCounts(s: Snapshot, c: Counts)
    ensures ValidSnapshotIdentity(s.(counts := c)) == ValidSnapshotIdentity(s)
  {
    assert ComputeSnapshotID(s.(counts := c)) == ComputeSnapshotID(s);
  }

  lemma FilesIgnoreCounts(s: Snapshot, c: Counts, files: seq<FileCard>)
    requires FilesOk(s, files)
    ensures FilesOk(s.(counts := c), files)
  {
    forall f | f in files ensures FileInSnapshot(s.(counts := c), f) { assert FileInSnapshot(s, f); }
  }

  lemma SymbolsIgnoreCounts(s: Snapshot, c: Counts, files: seq<FileCard>, symbols: seq<SymbolCard>)
    requires SymbolsOk(s, files, symbols)
    ensures SymbolsOk(s.(counts := c), files, symbols)
  {
    forall x | x in symbols ensures SymbolInFiles(s.(counts := c), files, x) { assert SymbolInFiles(s, files, x); }
  }

  lemma RelationsIgnoreCounts(s: Snapshot, c: Counts, files: seq<FileCard>, symbols: seq<SymbolCard>,
                              relations: seq<RelationEvidence>)
    requires forall r :: r in relations ==> RelationInBundle(s, files, symbols, r)
    requires DistinctBy(relations, RelationIdOf)
    ensures RelationsOk(Bundle(s.(counts := c), files, symbols, relations))
  {
    forall r | r in relations ensures RelationInBundle(s.(counts := c), files, symbols, r) {
      assert RelationInBundle(s, files, symbols, r);
    }
    assert forall i, j :: 0 <= i < j < |relations| ==> RelationIdOf(relations[i]) != RelationIdOf(relations[j]);
  }

  lemma PartsMakeBundle(s: Snapshot, files: seq<FileCard>, symbols: seq<SymbolCard>, relations: seq<RelationEvidence>)
    requires ValidSnapshotIdentity(s) && FilesOk(s, files) && SymbolsOk(s, files, symbols) && ClosureOk(files, symbols)
    requires forall r :: r in relations ==> RelationInBundle(s, files, symbols, r)
    requires DistinctBy(relations, RelationIdOf)
    ensures var b := WithCounts(s, files, symbols, relations);
            DistinctIds(b) && (BundleValid(b) <==> CountsWithinLimits(b.snapshot.counts))
  {
    var b := WithCounts(s, files, symbols, relations);
    SnapshotIgnoresCounts(s, b.snapshot.counts);
    FilesIgnoreCounts(s, b.snapshot.counts, files);
    SymbolsIgnoreCounts(s, b.snapshot.counts, files, symbols);
    RelationsIgnoreCounts(s, b.snapshot.counts, files, symbols, relations);
  }

  lemma AcceptedBundleValid(evidence: RawRelation -> string, s: Snapshot, docs: seq<Document>, rs: seq<RawResult>)
    requires ValidSnapshotIdentity(s) && Accepted(evidence, s, docs, rs)
    ensures var b := BundleOf(evidence, s, docs, rs);
            DistinctIds(b) && (BundleValid(b) <==> CountsWithinLimits(b.snapshot.counts))
  {
    FilesOfBundle(s, docs, rs);
    SymbolsOfBundle(s, docs, rs);
    RelationsOfBundle(evidence, s, docs, rs);
    assert ClosureOk(Files(s, docs, rs), Symbols(s, docs, rs)) by {
      forall f | f in Files(s, docs, rs)
        ensures f.symbolIds == Sort(EntityLess, SymbolsOf(Symbols(s, docs, rs), f.fileId)) {
        FileListOf(s, docs, rs, f);
      }
    }
    PartsMakeBundle(s, Files(s, docs, rs), Symbols(s, docs, rs),
      Sort(RelationLess, UnsortedRelations(evidence, s, docs, rs)));
  }

  /** Within the snapshot count limits, whatever `NormalizeResults` returns
      passes `ValidateBundle`; beyond them it never does. */
  lemma NormalizedBundleValid(evidence: RawRelation -> string, s: Snapshot, docs: seq<Document>, results: seq<RawResult>)
    requires Normalized(evidence, s, docs, results).Ok?
    ensures var b := Normalized(evidence, s, docs, results).value;
            BundleValid(b) <==> CountsWithinLimits(b.snapshot.counts)
  {
    AcceptedBundleValid(evidence, s, docs, Aligned(s, results));
  }

  // ---------------------------------------------------- order independence

  /** One adapter's output up to the order of its items. */
  ghost predicate SameOutput(a: RawResult, b: RawResult) {
    && a.descriptor == b.descriptor && multiset(a.symbols) == multiset(b.symbols)
    && multiset(a.relations) == multiset(b.relations) && multiset(a.diagnostics) == multiset(b.diagnostics)
  }

  ghost predicate SameOutputs(a: seq<RawResult>, b: seq<RawResult>) {
    |a| == |b| && forall i :: 0 <= i < |a| ==> SameOutput(a[i], b[i])
  }

  lemma {:induction false} ItemsPermute(a: seq<RawResult>, b: seq<RawResult>)
    requires SameOutputs(a, b)
    ensures multiset(TaggedSymbols(a)) == multiset(TaggedSymbols(b))
    ensures multiset(TaggedRelations(a)) == multiset(TaggedRelations(b))
    ensures multiset(AllDiagnostics(a)) == multiset(AllDiagnostics(b))
  {
    if a != [] {
      assert SameOutput(a[0], b[0]);
      MapPermutes(Tagger(a[0].descriptor), a[0].symbols, b[0].symbols);
      MapPermutes(Tagger(a[0].descriptor), a[0].relations, b[0].relations);
      ItemsPermute(a[1..], b[1..]);
    }
  }

  lemma {:induction false} DistinctElements<T>(s: seq<T>)
    ensures multiset(Distinct(s)) == multiset(set x | x in s)
  {
    if s != [] {
      DistinctElements(s[1..]);
      assert (set x | x in s) == (set x | x in s[1..]) + {s[0]};
      if s[0] in s[1..] {
        assert (set x | x in s) == (set x | x in s[1..]);
      }
    }
  }

  lemma KindKeyInjective(a: DiagnosticKind, b: DiagnosticKind)
    requires ValidSeverity(a.severity) && ValidSeverity(b.severity) && KindKey(a) == KindKey(b)
    ensures a == b
  {
    FieldRecovered(a.severity, b.severity, '\0', a.code, b.code);
  }

  lemma KindNoTies(ks: seq<DiagnosticKind>)
    requires forall k :: k in ks ==> ValidSeverity(k.severity)
    ensures NoTies(KindBefore, Distinct(ks))
  {
    StringOrder();
    DistinctElements(ks);
    var ds := Distinct(ks);
    forall i, j | 0 <= i < j < |ds| ensures KindBefore(ds[i], ds[j]) || KindBefore(ds[j], ds[i]) {
      if ds[i] == ds[j] { PairCount(ds, i, j); }
      assert ds[i] in multiset(ds) && ds[j] in multiset(ds);
      if KindKey(ds[i]) == KindKey(ds[j]) { KindKeyInjective(ds[i], ds[j]); }
    }
  }

  lemma KindOrder()
    ensures WeakOrder(KindBefore)
  {
    StringOrder();
  }

  lemma SummariesPermute(a: seq<DiagnosticKind>, b: seq<DiagnosticKind>)
    requires multiset(a) == multiset(b) && forall k :: k in a ==> ValidSeverity(k.severity)
    ensures Summaries(a) == Summaries(b)
  {
    KindOrder();
    KindNoTies(a);
    DistinctElements(a);
    DistinctElements(b);
    forall x ensures x in a <==> x in b { MemberPermutes(a, b, x); }
    assert (set x | x in a) == (set x | x in b);
    SortForgetsOrder(KindBefore, Distinct(a), Distinct(b));
  }

  lemma KindsAtPermute(a: seq<RawDiagnostic>, b: seq<RawDiagnostic>, path: string)
    requires multiset(a) == multiset(b)
    ensures multiset(KindsAt(a, path)) == multiset(KindsAt(b, path))
  {
    FilterPermutes(At(path), a, b);
    MapPermutes(KindOf, Filter(At(path), a), Filter(At(path), b));
  }

  lemma KindsAtValid(docs: seq<Document>, ds: seq<RawDiagnostic>, path: string)
    requires forall d :: d in ds ==> ValidRawDiagnostic(docs, d)
    ensures forall k :: k in KindsAt(ds, path) ==> ValidSeverity(k.severity)
  {
    forall k | k in KindsAt(ds, path) ensures ValidSeverity(k.severity) {
      MapMember(KindOf, Filter(At(path), ds), k);
      var d :| d in Filter(At(path), ds) && KindOf(d) == k;
      FilterMember(At(path), ds, d);
    }
  }

  lemma SymbolsForgetOrder(a: seq<RawResult>, b: seq<RawResult>)
    requires SameOutputs(a, b) && DistinctKeys(TaggedSymbols(a))
    ensures SortedSymbols(a) == SortedSymbols(b)
  {
    ItemsPermute(a, b);
    SymbolOrder();
    SymbolNoTies(TaggedSymbols(a));
    SortForgetsOrder(SymbolBefore, TaggedSymbols(a), TaggedSymbols(b));
  }

  lemma FilesForgetOrder(s: Snapshot, docs: seq<Document>, a: seq<RawResult>, b: seq<RawResult>)
    requires SameOutputs(a, b) && DistinctKeys(TaggedSymbols(a))
    requires forall d :: d in AllDiagnostics(a) ==> ValidRawDiagnostic(docs, d)
    ensures Files(s, docs, a) == Files(s, docs, b)
  {
    SymbolsForgetOrder(a, b);
    ItemsPermute(a, b);
    forall d | d in docs ensures Summaries(KindsAt(AllDiagnostics(a), d.path)) == Summaries(KindsAt(AllDiagnostics(b), d.path)) {
      KindsAtPermute(AllDiagnostics(a), AllDiagnostics(b), d.path);
      KindsAtValid(docs, AllDiagnostics(a), d.path);
      SummariesPermute(KindsAt(AllDiagnostics(a), d.path), KindsAt(AllDiagnostics(b), d.path));
    }
  }

  lemma RelationsForgetOrder(evidence: RawRelation -> string, s: Snapshot, docs: seq<Document>,
                             a: seq<RawResult>, b: seq<RawResult>)
    requires SameOutputs(a, b) && DistinctKeys(TaggedSymbols(a))
    ensures Keys(s, docs, a) == Keys(s, docs, b)
    ensures multiset(RawRelations(a)) == multiset(RawRelations(b))
    ensures multiset(UnsortedRelations(evidence, s, docs, a)) == multiset(UnsortedRelations(evidence, s, docs, b))
  {
    SymbolsForgetOrder(a, b);
    ItemsPermute(a, b);
    MapPermutes(Binder(evidence, s, docs, Keys(s, docs, a)), RawRelations(a), RawRelations(b));
  }

  lemma RelationNoTies(rs: seq<RelationEvidence>)
    requires DistinctBy(rs, RelationIdOf)
    ensures NoTies(RelationLess, rs)
  {
    RelationIdOrder();
    assert forall i, j :: 0 <= i < j < |rs| ==> RelationIdOf(rs[i]) != RelationIdOf(rs[j]);
  }

  lemma AcceptedForgetsOrder(evidence: RawRelation -> string, s: Snapshot, docs: seq<Document>,
                             a: seq<RawResult>, b: seq<RawResult>)
    requires SameOutputs(a, b) && Accepted(evidence, s, docs, a)
    ensures Accepted(evidence, s, docs, b)
    ensures BundleOf(evidence, s, docs, a) == BundleOf(evidence, s, docs, b)
  {
    ItemsPermute(a, b);
    SymbolsForgetOrder(a, b);
    FilesForgetOrder(s, docs, a, b);
    RelationsForgetOrder(evidence, s, docs, a, b);
    SymbolKeysPermute(TaggedSymbols(a), TaggedSymbols(b));
    forall t | t in TaggedSymbols(b) ensures t in TaggedSymbols(a) { MemberPermutes(TaggedSymbols(a), TaggedSymbols(b), t); }
    forall d | d in AllDiagnostics(b) ensures d in AllDiagnostics(a) { MemberPermutes(AllDiagnostics(a), AllDiagnostics(b), d); }
    forall t | t in RawRelations(b) ensures t in RawRelations(a) { MemberPermutes(RawRelations(a), RawRelations(b), t); }
    var x, y := UnsortedRelations(evidence, s, docs, a), UnsortedRelations(evidence, s, docs, b);
    DistinctByPermutes(RelationIdOf, x, y);
    CardOrders();
    RelationNoTies(x);
    SortForgetsOrder(RelationLess, x, y);
  }

  lemma {:induction false} LookupSameOutput(a: seq<RawResult>, b: seq<RawResult>, key: string)
    requires SameOutputs(a, b)
    ensures ResultFor(a, key).Some? == ResultFor(b, key).Some?
    ensures ResultFor(a, key).Some? ==> SameOutput(ResultFor(a, key).value, ResultFor(b, key).value)
  {
    if a != [] {
      assert SameOutput(a[0], b[0]);
      LookupSameOutput(a[1..], b[1..], key);
    }
  }

  lemma AlignedSameOutput(s: Snapshot, a: seq<RawResult>, b: seq<RawResult>)
    requires SameOutputs(a, b)
    ensures SameOutputs(Aligned(s, a), Aligned(s, b))
    ensures ResultsMatch(s, a) ==> ResultsMatch(s, b)
  {
    forall d: AdapterDescriptor
      ensures ResultFor(a, AdapterKey(d)).Some? == ResultFor(b, AdapterKey(d)).Some?
      ensures ResultFor(a, AdapterKey(d)).Some? ==>
                SameOutput(ResultFor(a, AdapterKey(d)).value, ResultFor(b, AdapterKey(d)).value) {
      LookupSameOutput(a, b, AdapterKey(d));
    }
    if ResultsMatch(s, a) {
      forall i, j | 0 <= i < j < |b| ensures ResultKey(b[i]) != ResultKey(b[j]) {
        assert ResultKey(a[i]) != ResultKey(a[j]) && SameOutput(a[i], b[i]) && SameOutput(a[j], b[j]);
      }
    }
  }

  /** Reordering the raw items inside the results changes nothing, success or failure. */
  lemma NormalizationForgetsItemOrder(evidence: RawRelation -> string, s: Snapshot, docs: seq<Document>,
                                      a: seq<RawResult>, b: seq<RawResult>)
    requires SameOutputs(a, b)
    ensures Normalized(evidence, s, docs, a) == Normalized(evidence, s, docs, b)
  {
    AlignedSameOutput(s, a, b);
    AlignedSameOutput(s, b, a);
    if Accepted(evidence, s, docs, Aligned(s, a)) {
      AcceptedForgetsOrder(evidence, s, docs, Aligned(s, a), Aligned(s, b));
    }
    if Accepted(evidence, s, docs, Aligned(s, b)) {
      AcceptedForgetsOrder(evidence, s, docs, Aligned(s, b), Aligned(s, a));
    }
  }

  lemma {:induction false} LookupByMember(results: seq<RawResult>, r: RawResult)
    requires DistinctBy(results, ResultKey) && r in results
    ensures ResultFor(results, ResultKey(r)) == Some(r)
  {
    if results[0] != r {
      var i :| 0 <= i < |results| && results[i] == r;
      assert ResultKey(results[0]) != ResultKey(results[i]);
      assert DistinctBy(results[1..], ResultKey) by {
        assert forall i, j :: 0 <= i < j < |results[1..]| ==>
          results[1..][i] == results[i+1] && results[1..][j] == results[j+1] && ResultKey(results[i+1]) != ResultKey(results[j+1]);
      }
      LookupByMember(results[1..], r);
    }
  }

  lemma {:induction false} LookupIsMember(results: seq<RawResult>, key: string)
    requires ResultFor(results, key).Some?
    ensures ResultFor(results, key).value in results && ResultKey(ResultFor(results, key).value) == key
  {
    if AdapterKey(results[0].descriptor) != key { LookupIsMember(results[1..], key); }
  }

  lemma LookupForgetsOrder(a: seq<RawResult>, b: seq<RawResult>, key: string)
    requires multiset(a) == multiset(b) && DistinctBy(a, ResultKey)
    ensures ResultFor(a, key) == ResultFor(b, key)
  {
    DistinctByPermutes(ResultKey, a, b);
    if ResultFor(a, key).Some? {
      LookupIsMember(a, key);
      MemberPermutes(a, b, ResultFor(a, key).value);
      LookupByMember(b, ResultFor(a, key).value);
    } else if ResultFor(b, key).Some? {
      LookupIsMember(b, key);
      MemberPermutes(a, b, ResultFor(b, key).value);
      LookupByMember(a, ResultFor(b, key).value);
    }
  }

  /** So does reordering the results themselves. */
  lemma NormalizationForgetsResultOrder(evidence: RawRelation -> string, s: Snapshot, docs: seq<Document>,
                                        a: seq<RawResult>, b: seq<RawResult>)
    requires multiset(a) == multiset(b)
    ensures Normalized(evidence, s, docs, a) == Normalized(evidence, s, docs, b)
  {
    MultisetSize(a, b);
    if DistinctBy(a, ResultKey) || DistinctBy(b, ResultKey) {
      if DistinctBy(a, ResultKey) { DistinctByPermutes(ResultKey, a, b); } else { DistinctByPermutes(ResultKey, b, a); }
      forall key: string ensures ResultFor(a, key) == ResultFor(b, key) { LookupForgetsOrder(a, b, key); }
      assert Aligned(s, a) == Aligned(s, b);
    }
  }
}
