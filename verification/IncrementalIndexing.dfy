/** Incremental equals full, and what each side of the equation needs. */
module IncrementalIndexing {
  import opened Ordering
  import opened Seqs
  import opened Cards
  import opened Bundles
  import opened Normalization
  import opened NormalizationProofs
  import opened Reuse
  import opened ReuseProofs
  import opened ReuseTheorem

  // ------------------------------------------------------------- relations

  /** What the relation proofs start from, opened with `Open` where it is needed. */
  ghost predicate RelationsChecked(c: Case) {
    RelationsReady(c) && forall k: int {:trigger Open(k)} :: Open(k) ==> RelationsOpen(c)
  }

  ghost predicate RelationsOpen(c: Case) {
    && RelationsAccepted(c.evidence, c.base, c.baseDocs, c.baseResults)
    && RelationsAccepted(c.evidence, c.next, c.nextDocs, Skipped(c))
    && CarriedRelationsValid(Partial(c), Baseline(c), c.descs)
  }

  function BaseBinder(c: Case): Tagged<RawRelation> -> RelationEvidence {
    Binder(c.evidence, c.base, c.baseDocs, BaseKeys(c))
  }

  function SkippedBinder(c: Case): Tagged<RawRelation> -> RelationEvidence {
    Binder(c.evidence, c.next, c.nextDocs, SkippedKeys(c))
  }

  function FullBinder(c: Case): Tagged<RawRelation> -> RelationEvidence {
    Binder(c.evidence, c.next, c.nextDocs, FullKeys(c))
  }

  lemma KeysTellAdapters(adapters: seq<AdapterDescriptor>, d: AdapterDescriptor, e: AdapterDescriptor)
    requires ValidAdapters(adapters) && d in adapters && e in adapters && AdapterKey(d) == AdapterKey(e)
    ensures d == e
  {
    LessIrreflexive(AdapterKey(d));
  }

  lemma RelationAdapter(c: Case, t: Tagged<RawRelation>)
    requires Environment(c) && t in RawBag(c.baseResults)
    ensures t.adapter in c.next.adapters
  {
    if t in Map(DeclareOf, TaggedSymbols(c.baseResults)) {
      MapMember(DeclareOf, TaggedSymbols(c.baseResults), t);
      var u :| u in TaggedSymbols(c.baseResults) && DeclareOf(u) == t;
      SymbolOrigin(c.baseResults, u);
    } else {
      RelationOrigin(c.baseResults, t);
    }
    var r :| r in c.baseResults && r.descriptor == t.adapter;
    AdapterOf(c, r);
  }

  lemma FromReusedMeans(c: Case, t: Tagged<RawRelation>)
    requires Setting(c) && t in RawBag(c.baseResults)
    ensures FromReused(c.descs)(BaseBinder(c)(t)) <==> t.adapter in c.descs
  {
    RelationAdapter(c, t);
    if FromReused(c.descs)(BaseBinder(c)(t)) {
      var d :| d in c.descs && AdapterKey(d) == AdapterKey(t.adapter);
      KeysTellAdapters(c.next.adapters, d, t.adapter);
    }
  }

  lemma BaseRelationsAre(c: Case)
    ensures multiset(Baseline(c).relations) == multiset(Map(BaseBinder(c), RawBag(c.baseResults)))
  {
    RawBagOf(c.baseResults);
    SortPermutes(RelationLess, UnsortedRelations(c.evidence, c.base, c.baseDocs, c.baseResults));
    MapPermutes(BaseBinder(c), RawRelations(c.baseResults), RawBag(c.baseResults));
  }

  lemma ReusedRelationListed(c: Case, t: Tagged<RawRelation>)
    requires Setting(c) && t in RawBag(c.baseResults) && t.adapter in c.descs
    ensures BaseBinder(c)(t) in ReusedRelations(Baseline(c), c.descs)
  {
    BaseRelationsAre(c);
    MappedMember(BaseBinder(c), RawBag(c.baseResults), t);
    MemberPermutes(Baseline(c).relations, Map(BaseBinder(c), RawBag(c.baseResults)), BaseBinder(c)(t));
    FromReusedMeans(c, t);
    FilterMember(FromReused(c.descs), Baseline(c).relations, BaseBinder(c)(t));
  }

  lemma CarriedRelation(c: Case, t: Tagged<RawRelation>)
    requires RelationsChecked(c) && t in RawBag(c.baseResults) && t.adapter in c.descs
    ensures RelationMover(Partial(c).snapshot, Entities(c))(BaseBinder(c)(t)) == FullBinder(c)(t)
    ensures Bindable(c.next, c.nextDocs, FullKeys(c), t.raw) && ValidRelation(FullBinder(c)(t))
  {
    assert Open(0);
    ReusedRelationListed(c, t);
    RawBagOf(c.baseResults);
    MemberPermutes(RawRelations(c.baseResults), RawBag(c.baseResults), t);
    MovedRelation(c, t);
  }

  lemma CarriedRelationsAre(c: Case)
    requires RelationsChecked(c)
    ensures multiset(CarriedRelations(Partial(c), Baseline(c), c.descs))
            == multiset(Map(FullBinder(c), RawBag(Reused(c))))
  {
    assert Open(0);
    var p, f := FromReused(c.descs), RelationMover(Partial(c).snapshot, Entities(c));
    var ts := RawBag(c.baseResults);
    BaseRelationsAre(c);
    forall t | t in ts
      ensures p(BaseBinder(c)(t)) == TagIn(c.descs)(t)
      ensures TagIn(c.descs)(t) ==> f(BaseBinder(c)(t)) == FullBinder(c)(t) {
      FromReusedMeans(c, t);
      if t.adapter in c.descs { CarriedRelation(c, t); }
    }
    CarryImage(p, f, BaseBinder(c), TagIn(c.descs), FullBinder(c), Baseline(c).relations, ts);
    RawBagFilters(c);
  }

  lemma KeptRelations(c: Case, t: Tagged<RawRelation>)
    requires RelationsChecked(c) && t in RawBag(Skipped(c))
    ensures FullBinder(c)(t) == SkippedBinder(c)(t)
    ensures Bindable(c.next, c.nextDocs, FullKeys(c), t.raw) && ValidRelation(FullBinder(c)(t))
  {
    assert Open(0);
    RawBagOf(Skipped(c));
    MemberPermutes(RawRelations(Skipped(c)), RawBag(Skipped(c)), t);
    KeptRelation(c, t.raw);
  }

  lemma FullRelationsBindable(c: Case)
    requires RelationsChecked(c)
    ensures forall t :: t in RawRelations(c.nextResults) ==>
              Bindable(c.next, c.nextDocs, FullKeys(c), t.raw) && ValidRelation(FullBinder(c)(t))
  {
    assert Open(0);
    forall t | t in RawRelations(c.nextResults)
      ensures Bindable(c.next, c.nextDocs, FullKeys(c), t.raw) && ValidRelation(FullBinder(c)(t)) {
      RawBagOf(c.nextResults);
      RawBagSplits(c);
      var all := RawBag(Skipped(c)) + RawBag(Reused(c));
      MemberPermutes(RawRelations(c.nextResults), all, t);
      if t in RawBag(Skipped(c)) {
        KeptRelations(c, t);
      } else {
        RawBagFilters(c);
        FilterMember(TagIn(c.descs), RawBag(c.baseResults), t);
        CarriedRelation(c, t);
      }
    }
  }

  lemma PartialRelationsAre(c: Case)
    ensures multiset(Partial(c).relations) == multiset(Map(SkippedBinder(c), RawBag(Skipped(c))))
  {
    SortPermutes(RelationLess, UnsortedRelations(c.evidence, c.next, c.nextDocs, Skipped(c)));
    RawBagOf(Skipped(c));
    MapPermutes(SkippedBinder(c), RawRelations(Skipped(c)), RawBag(Skipped(c)));
  }

  lemma SkippedRelationsAre(c: Case)
    requires RelationsChecked(c)
    ensures multiset(Partial(c).relations) == multiset(Map(FullBinder(c), RawBag(Skipped(c))))
  {
    PartialRelationsAre(c);
    forall t | t in RawBag(Skipped(c)) ensures FullBinder(c)(t) == SkippedBinder(c)(t) { KeptRelations(c, t); }
    MapSame(FullBinder(c), SkippedBinder(c), RawBag(Skipped(c)));
  }

  function FullUnsorted(c: Case): seq<RelationEvidence> {
    UnsortedRelations(c.evidence, c.next, c.nextDocs, c.nextResults)
  }

  lemma FullRelationsAre(c: Case)
    requires RelationsChecked(c)
    ensures multiset(FullUnsorted(c))
            == multiset(Partial(c).relations + CarriedRelations(Partial(c), Baseline(c), c.descs))
  {
    var a, b := RawBag(Skipped(c)), RawBag(Reused(c));
    RawBagOf(c.nextResults);
    RawBagSplits(c);
    MapPermutes(FullBinder(c), RawRelations(c.nextResults), a + b);
    MapAppend(FullBinder(c), a, b);
    SkippedRelationsAre(c);
    CarriedRelationsAre(c);
  }

  // ----------------------------------------------------------- diagnostics

  ghost predicate SameAt(a: seq<RawResult>, b: seq<RawResult>, path: string) {
    |a| == |b| && forall i :: 0 <= i < |a| ==> Filter(At(path), a[i].diagnostics) == Filter(At(path), b[i].diagnostics)
  }

  lemma {:induction false} DiagnosticsAgree(a: seq<RawResult>, b: seq<RawResult>, path: string)
    requires SameAt(a, b, path)
    ensures KindsAt(AllDiagnostics(a), path) == KindsAt(AllDiagnostics(b), path)
  {
    FilteredAgree(a, b, path);
  }

  lemma {:induction false} FilteredAgree(a: seq<RawResult>, b: seq<RawResult>, path: string)
    requires SameAt(a, b, path)
    ensures Filter(At(path), AllDiagnostics(a)) == Filter(At(path), AllDiagnostics(b))
  {
    if a != [] {
      FilterAppend(At(path), a[0].diagnostics, AllDiagnostics(a[1..]));
      FilterAppend(At(path), b[0].diagnostics, AllDiagnostics(b[1..]));
      FilteredAgree(a[1..], b[1..], path);
    }
  }

  lemma SilentElsewhere(docs: seq<Document>, r: RawResult, path: string)
    requires Disciplined(docs, r) && HasDoc(docs, path) && !Owns(r.descriptor, DocAt(docs, path).language)
    ensures Filter(At(path), r.diagnostics) == []
  {
    FilterNone(At(path), r.diagnostics);
  }

  lemma OwnedDiagnostics(c: Case, path: string)
    requires Setting(c) && HasDoc(c.baseDocs, path) && HasDoc(c.nextDocs, path)
    requires DocAt(c.baseDocs, path).language == DocAt(c.nextDocs, path).language
    requires OwnsLanguage(c.descs, DocAt(c.nextDocs, path).language)
    ensures KindsAt(AllDiagnostics(c.baseResults), path) == KindsAt(AllDiagnostics(c.nextResults), path)
  {
    var language := DocAt(c.nextDocs, path).language;
    forall i | 0 <= i < |c.nextResults|
      ensures Filter(At(path), c.baseResults[i].diagnostics) == Filter(At(path), c.nextResults[i].diagnostics) {
      var d := c.nextResults[i].descriptor;
      if d !in c.descs {
        AdapterOf(c, c.nextResults[i]);
        if Owns(d, language) { OwnerUnique(c, d, language); }
        assert c.baseResults[i].descriptor == d;
        assert Disciplined(c.baseDocs, c.baseResults[i]) && Disciplined(c.nextDocs, c.nextResults[i]);
        SilentElsewhere(c.baseDocs, c.baseResults[i], path);
        SilentElsewhere(c.nextDocs, c.nextResults[i], path);
      }
    }
    DiagnosticsAgree(c.baseResults, c.nextResults, path);
  }

  lemma ForeignDiagnostics(c: Case, path: string)
    requires Setting(c) && HasDoc(c.nextDocs, path)
    requires !OwnsLanguage(c.descs, DocAt(c.nextDocs, path).language)
    ensures KindsAt(AllDiagnostics(Skipped(c)), path) == KindsAt(AllDiagnostics(c.nextResults), path)
  {
    forall i | 0 <= i < |c.nextResults|
      ensures Filter(At(path), Skipped(c)[i].diagnostics) == Filter(At(path), c.nextResults[i].diagnostics) {
      var d := c.nextResults[i].descriptor;
      if d in c.descs {
        assert Disciplined(c.nextDocs, c.nextResults[i]);
        SilentElsewhere(c.nextDocs, c.nextResults[i], path);
      }
    }
    DiagnosticsAgree(Skipped(c), c.nextResults, path);
  }

  // ----------------------------------------------------------------- files

  function InFile(id: EntityId): SymbolCard -> bool { (x: SymbolCard) => x.fileId == id }

  lemma {:induction false} SymbolsOfIsFilter(symbols: seq<SymbolCard>, id: EntityId)
    ensures SymbolsOf(symbols, id) == Map(SymbolIdOf, Filter(InFile(id), symbols))
  {
    if symbols != [] { SymbolsOfIsFilter(symbols[1..], id); }
  }

  lemma FileListsAgree(a: seq<SymbolCard>, b: seq<SymbolCard>, id: EntityId)
    requires multiset(a) == multiset(b)
    requires var ids := Sort(EntityLess, SymbolsOf(a, id)); forall i, j :: 0 <= i < j < |ids| ==> EntityLess(ids[i], ids[j])
    ensures Sort(EntityLess, SymbolsOf(a, id)) == Sort(EntityLess, SymbolsOf(b, id))
  {
    SymbolsOfIsFilter(a, id);
    SymbolsOfIsFilter(b, id);
    FilterPermutes(InFile(id), a, b);
    MapPermutes(SymbolIdOf, Filter(InFile(id), a), Filter(InFile(id), b));
    EntityOrder();
    SortPermutes(EntityLess, SymbolsOf(a, id));
    NoTiesTransfers(EntityLess, Sort(EntityLess, SymbolsOf(a, id)), SymbolsOf(a, id));
    SortForgetsOrder(EntityLess, SymbolsOf(a, id), SymbolsOf(b, id));
  }

  function ReboundSymbols(c: Case): seq<SymbolCard> {
    Sort(SymbolCardLess, Partial(c).symbols + CarriedSymbols(Partial(c), Baseline(c), c.descs))
  }

  function PartialFile(c: Case, d: Document): FileCard {
    FinalFile(c.next, Symbols(c.next, c.nextDocs, Skipped(c)), AllDiagnostics(Skipped(c)), d)
  }

  function FullFile(c: Case, d: Document): FileCard {
    FinalFile(c.next, NextSymbols(c), AllDiagnostics(c.nextResults), d)
  }

  lemma PreviousDiagnostics(c: Case, f: FileCard)
    ensures WithCarriedDiagnostics(Baseline(c), c.descs, f).diagnostics
      == if HasDoc(c.baseDocs, f.path) && OwnsLanguage(c.descs, DocAt(c.baseDocs, f.path).language)
         then Summaries(KindsAt(AllDiagnostics(c.baseResults), f.path)) else f.diagnostics
  {
    FileAtDoc(c.base, c.baseDocs, c.baseResults, f.path);
    if HasDoc(c.baseDocs, f.path) { DocAtFound(c.baseDocs, f.path); }
  }

  lemma CarriedSummaries(c: Case, d: Document)
    requires Setting(c) && FilesExact(c) && d in c.nextDocs
    ensures WithCarriedDiagnostics(Baseline(c), c.descs, PartialFile(c, d)).diagnostics == FullFile(c, d).diagnostics
  {
    PreviousDiagnostics(c, PartialFile(c, d));
    DocAtUnique(c.nextDocs, d);
    SameLanguage(c, d);
    if OwnsLanguage(c.descs, d.language) { OwnedDiagnostics(c, d.path); } else { ForeignDiagnostics(c, d.path); }
  }

  lemma SameLanguage(c: Case, d: Document)
    requires Setting(c) && d in c.nextDocs
    ensures HasDoc(c.baseDocs, d.path) ==> DocAt(c.baseDocs, d.path).language == d.language
    ensures OwnsLanguage(c.descs, d.language) ==> HasDoc(c.baseDocs, d.path)
  {
    if HasDoc(c.baseDocs, d.path) { DocAtFound(c.baseDocs, d.path); }
  }

  function MoverOf(c: Case): FileCard -> FileCard { FileMover(Baseline(c), c.descs, ReboundSymbols(c)) }

  /** The rebuilt symbol list of one file. */
  lemma FileSymbols(c: Case, d: Document)
    requires multiset(ReboundSymbols(c)) == multiset(NextSymbols(c)) && ValidFileCard(MoverOf(c)(PartialFile(c, d)))
    ensures MoverOf(c)(PartialFile(c, d)).symbolIds == FullFile(c, d).symbolIds
  {
    assert MoverOf(c)(PartialFile(c, d)).symbolIds == Sort(EntityLess, SymbolsOf(ReboundSymbols(c), FileIdFor(c.next, d)));
    FileListsAgree(ReboundSymbols(c), NextSymbols(c), FileIdFor(c.next, d));
  }

  lemma MovedFields(c: Case, f: FileCard)
    ensures var moved := MoverOf(c)(f);
      moved == f.(diagnostics := WithCarriedDiagnostics(Baseline(c), c.descs, f).diagnostics, symbolIds := moved.symbolIds)
  {}

  lemma FileAgrees(c: Case, d: Document)
    requires Setting(c) && FilesExact(c) && d in c.nextDocs
    requires multiset(ReboundSymbols(c)) == multiset(NextSymbols(c))
    requires ValidFileCard(MoverOf(c)(PartialFile(c, d)))
    ensures MoverOf(c)(PartialFile(c, d)) == FullFile(c, d)
  {
    CarriedSummaries(c, d);
    MovedFields(c, PartialFile(c, d));
    FileSymbols(c, d);
  }

  lemma ReboundSymbolsAre(c: Case)
    requires SymbolsReady(c)
    ensures multiset(ReboundSymbols(c)) == multiset(NextSymbols(c))
  {
    FullSymbolsAre(c);
    SortPermutes(SymbolCardLess, Partial(c).symbols + CarriedSymbols(Partial(c), Baseline(c), c.descs));
  }

  /** The two runs agree on the card of every document. */
  lemma FilesAgree(c: Case)
    requires Setting(c) && FilesExact(c)
    requires multiset(ReboundSymbols(c)) == multiset(NextSymbols(c))
    requires forall f :: f in Map(MoverOf(c), Partial(c).files) ==> ValidFileCard(f)
    ensures Map(MoverOf(c), Partial(c).files) == Files(c.next, c.nextDocs, c.nextResults)
  {
    var filer := Filer(c.next, Symbols(c.next, c.nextDocs, Skipped(c)), AllDiagnostics(Skipped(c)));
    forall d | d in c.nextDocs
      ensures MoverOf(c)(filer(d)) == Filer(c.next, NextSymbols(c), AllDiagnostics(c.nextResults))(d) {
      MappedMember(filer, c.nextDocs, d);
      MappedMember(MoverOf(c), Map(filer, c.nextDocs), filer(d));
      FileAgrees(c, d);
    }
    MapTwice(filer, MoverOf(c), Filer(c.next, NextSymbols(c), AllDiagnostics(c.nextResults)), c.nextDocs);
  }

  lemma MapTwice<A, B, D>(f: A -> B, g: B -> D, h: A -> D, s: seq<A>)
    requires forall x :: x in s ==> g(f(x)) == h(x)
    ensures Map(g, Map(f, s)) == Map(h, s)
  {
    assert forall i :: 0 <= i < |s| ==> g(f(s[i])) == h(s[i]);
  }

  // ------------------------------------------------------------ the theorem

  lemma FullDiagnosticsValid(c: Case)
    requires Setting(c) && FilesExact(c)
    requires forall d :: d in AllDiagnostics(Skipped(c)) ==> ValidRawDiagnostic(c.nextDocs, d)
    requires forall d :: d in AllDiagnostics(c.baseResults) ==> ValidRawDiagnostic(c.baseDocs, d)
    ensures forall d :: d in AllDiagnostics(c.nextResults) ==> ValidRawDiagnostic(c.nextDocs, d)
  {
    forall d | d in AllDiagnostics(c.nextResults) ensures ValidRawDiagnostic(c.nextDocs, d) {
      var i := DiagnosticOrigin(c.nextResults, d);
      if c.nextResults[i].descriptor in c.descs {
        DiagnosticListed(c.baseResults, i, d);
        assert c.baseResults[i] in c.baseResults && Disciplined(c.baseDocs, c.baseResults[i]);
        assert Owns(c.nextResults[i].descriptor, DocAt(c.baseDocs, d.path).language);
        OwnedTwin(c, d.path);
      } else {
        assert Skipped(c)[i] == c.nextResults[i];
        DiagnosticListed(Skipped(c), i, d);
      }
    }
  }

  lemma {:induction false} DiagnosticOrigin(rs: seq<RawResult>, d: RawDiagnostic) returns (i: nat)
    requires d in AllDiagnostics(rs)
    ensures i < |rs| && d in rs[i].diagnostics
  {
    if d in rs[0].diagnostics { i := 0; } else { var j := DiagnosticOrigin(rs[1..], d); i := j + 1; }
  }

  lemma {:induction false} DiagnosticListed(rs: seq<RawResult>, i: nat, d: RawDiagnostic)
    requires i < |rs| && d in rs[i].diagnostics
    ensures d in AllDiagnostics(rs)
  {
    if i > 0 { DiagnosticListed(rs[1..], i - 1, d); }
  }

  lemma SituationSymbolsReady(c: Case)
    requires Situation(c)
    ensures SymbolsReady(c)
  {
    SettingOf(c);
    FilesDistinctOf(c);
  }

  lemma SituationRelationsChecked(c: Case)
    requires Situation(c)
    ensures RelationsChecked(c)
  {
    SituationSymbolsReady(c);
    var b := Baseline(c).symbols;
    assert forall i, j :: 0 <= i < j < |b| ==> SymbolIdOf(b[i]) != SymbolIdOf(b[j]);
  }

  lemma ReboundFilesValid(c: Case)
    requires BundleValid(ReboundBundle(Partial(c), Baseline(c), c.descs))
    ensures forall f :: f in Map(MoverOf(c), Partial(c).files) ==> ValidFileCard(f)
    ensures DistinctBy(ReboundBundle(Partial(c), Baseline(c), c.descs).relations, RelationIdOf)
  {
    var b := ReboundBundle(Partial(c), Baseline(c), c.descs);
    assert b.files == Map(MoverOf(c), Partial(c).files);
    forall f | f in b.files ensures ValidFileCard(f) { assert FileInSnapshot(b.snapshot, f); }
    assert forall i, j :: 0 <= i < j < |b.relations| ==> RelationIdOf(b.relations[i]) != RelationIdOf(b.relations[j]);
  }

  lemma FullRelationsDistinct(c: Case)
    requires RelationsChecked(c)
    requires DistinctBy(ReboundBundle(Partial(c), Baseline(c), c.descs).relations, RelationIdOf)
    ensures DistinctBy(FullUnsorted(c), RelationIdOf)
    ensures multiset(ReboundBundle(Partial(c), Baseline(c), c.descs).relations)
            == multiset(Sort(RelationLess, FullUnsorted(c)))
  {
    var joined := Partial(c).relations + CarriedRelations(Partial(c), Baseline(c), c.descs);
    FullRelationsAre(c);
    SortPermutes(RelationLess, joined);
    SortPermutes(RelationLess, FullUnsorted(c));
    DistinctByPermutes(RelationIdOf, ReboundBundle(Partial(c), Baseline(c), c.descs).relations, FullUnsorted(c));
  }

  lemma FreshRelationsAccepted(c: Case)
    requires RelationsChecked(c)
    requires DistinctBy(ReboundBundle(Partial(c), Baseline(c), c.descs).relations, RelationIdOf)
    ensures RelationsAccepted(c.evidence, c.next, c.nextDocs, c.nextResults)
  {
    FullRelationsBindable(c);
    FullRelationsDistinct(c);
  }

  lemma AcceptedParts(evidence: RawRelation -> string, s: Snapshot, docs: seq<Document>, rs: seq<RawResult>)
    requires DistinctPaths(docs) && SymbolsAccepted(s, docs, rs) && RelationsAccepted(evidence, s, docs, rs)
    requires forall d :: d in AllDiagnostics(rs) ==> ValidRawDiagnostic(docs, d)
    requires forall f :: f in Files(s, docs, rs) ==> ValidFileCard(f)
    ensures Accepted(evidence, s, docs, rs)
  {}

  lemma FreshSymbols(c: Case)
    requires Situation(c)
    ensures SymbolsAccepted(c.next, c.nextDocs, c.nextResults) && DistinctPaths(c.nextDocs)
  {
    SituationSymbolsReady(c);
    FullSymbolsAccepted(c);
  }

  lemma FreshDiagnostics(c: Case)
    requires Situation(c)
    ensures forall d :: d in AllDiagnostics(c.nextResults) ==> ValidRawDiagnostic(c.nextDocs, d)
  {
    SettingOf(c);
    FullDiagnosticsValid(c);
  }

  lemma FreshRelations(c: Case)
    requires Situation(c)
    ensures RelationsAccepted(c.evidence, c.next, c.nextDocs, c.nextResults)
  {
    SituationRelationsChecked(c);
    ReboundFilesValid(c);
    FreshRelationsAccepted(c);
  }

  lemma FreshRunAccepted(c: Case)
    requires Situation(c)
    ensures Accepted(c.evidence, c.next, c.nextDocs, c.nextResults)
    ensures Map(MoverOf(c), Partial(c).files) == Files(c.next, c.nextDocs, c.nextResults)
  {
    FreshFiles(c);
    FreshSymbols(c);
    FreshDiagnostics(c);
    FreshRelations(c);
    AcceptedParts(c.evidence, c.next, c.nextDocs, c.nextResults);
  }

  lemma FilesOnceReady(c: Case)
    requires SymbolsReady(c) && forall f :: f in Map(MoverOf(c), Partial(c).files) ==> ValidFileCard(f)
    ensures Map(MoverOf(c), Partial(c).files) == Files(c.next, c.nextDocs, c.nextResults)
  {
    ReboundSymbolsAre(c);
    assert Open(0);
    FilesAgree(c);
  }

  lemma FreshFiles(c: Case)
    requires Situation(c)
    ensures Map(MoverOf(c), Partial(c).files) == Files(c.next, c.nextDocs, c.nextResults)
    ensures forall f :: f in Files(c.next, c.nextDocs, c.nextResults) ==> ValidFileCard(f)
  {
    SituationSymbolsReady(c);
    ReboundFilesValid(c);
    FilesOnceReady(c);
  }

  lemma FreshRunSameCards(c: Case)
    requires RelationsChecked(c)
    requires Map(MoverOf(c), Partial(c).files) == Files(c.next, c.nextDocs, c.nextResults)
    requires DistinctBy(ReboundBundle(Partial(c), Baseline(c), c.descs).relations, RelationIdOf)
    ensures SameCards(ReboundBundle(Partial(c), Baseline(c), c.descs), Full(c))
  {
    var r, f := ReboundBundle(Partial(c), Baseline(c), c.descs), Full(c);
    ReboundSymbolsAre(c);
    FullRelationsDistinct(c);
    MultisetSize(r.symbols, f.symbols);
    MultisetSize(r.relations, f.relations);
    assert r.files == f.files;
  }

  /** Whenever rebinding onto the target with the carried adapters skipped
      succeeds, running those adapters afresh succeeds too, and both give the
      same canonical bundle. */
  lemma IncrementalEqualsFull(c: Case)
    requires Situation(c)
    ensures Accepted(c.evidence, c.next, c.nextDocs, c.nextResults)
    ensures BundleValid(Full(c))
    ensures CanonicalizeBundle(ReboundBundle(Partial(c), Baseline(c), c.descs)) == CanonicalizeBundle(Full(c))
  {
    FreshRunAccepted(c);
    SituationRelationsChecked(c);
    ReboundFilesValid(c);
    FreshRunSameCards(c);
    AcceptedBundleValid(c.evidence, c.next, c.nextDocs, c.nextResults);
    var r := ReboundBundle(Partial(c), Baseline(c), c.descs);
    assert r.snapshot == Full(c).snapshot && CountsWithinLimits(r.snapshot.counts);
    CanonicalFormUnique(Full(c), r);
  }

  lemma AcceptedKeysSeparate(rs: seq<RawResult>)
    requires DistinctKeys(TaggedSymbols(rs))
    ensures KeysSeparate(rs)
  {
    var ts := TaggedSymbols(rs);
    forall t, u | t in ts && u in ts && t.adapter != u.adapter ensures t.raw.key != u.raw.key {
      var i :| 0 <= i < |ts| && ts[i] == t;
      var j :| 0 <= j < |ts| && ts[j] == u;
      assert i != j;
    }
  }

  /** When rebinding succeeds, the fresh run succeeds too exactly when no two
      adapters emit the same symbol key. */
  lemma FreshRunSucceedsIff(c: Case)
    requires Carrying(c)
    ensures Accepted(c.evidence, c.next, c.nextDocs, c.nextResults) <==> KeysSeparate(c.nextResults)
  {
    if KeysSeparate(c.nextResults) {
      FreshRunAccepted(c);
    } else if Accepted(c.evidence, c.next, c.nextDocs, c.nextResults) {
      AcceptedKeysSeparate(c.nextResults);
    }
  }
}
