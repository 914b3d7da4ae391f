/** Incremental equals full: rebinding yields the bundle a fresh run would. */
module ReuseProofs {
  import opened Ordering
  import opened Seqs
  import opened Cards
  import opened Bundles
  import opened Normalization
  import opened NormalizationProofs
  import opened Reuse

  /** A baseline run, a target, and the adapters whose evidence is carried over. */
  datatype Case = Case(
    evidence: RawRelation -> string,
    base: Snapshot, baseDocs: seq<Document>, baseResults: seq<RawResult>,
    next: Snapshot, nextDocs: seq<Document>, nextResults: seq<RawResult>,
    descs: seq<AdapterDescriptor>)

  function EmptyResult(d: AdapterDescriptor): RawResult { RawResult(d, [], [], []) }

  function Masker(descs: seq<AdapterDescriptor>, keep: bool): RawResult -> RawResult {
    (r: RawResult) => if (r.descriptor in descs) == keep then r else EmptyResult(r.descriptor)
  }

  /** The results with either the carried adapters or all others emptied. */
  function Masked(rs: seq<RawResult>, descs: seq<AdapterDescriptor>, keep: bool): seq<RawResult> {
    Map(Masker(descs, keep), rs)
  }

  function Skipped(c: Case): seq<RawResult> { Masked(c.nextResults, c.descs, false) }
  function Reused(c: Case): seq<RawResult> { Masked(c.nextResults, c.descs, true) }

  function Baseline(c: Case): Bundle { BundleOf(c.evidence, c.base, c.baseDocs, c.baseResults) }
  function Partial(c: Case): Bundle { BundleOf(c.evidence, c.next, c.nextDocs, Skipped(c)) }
  function Full(c: Case): Bundle { BundleOf(c.evidence, c.next, c.nextDocs, c.nextResults) }

  // ------------------------------------------------------ what is assumed

  ghost predicate OwnKey(r: RawResult, key: Option<string>) {
    key.Some? ==> exists x :: x in r.symbols && x.key == key.value
  }

  /** An adapter speaks only about files of its languages and names only its own symbols. */
  ghost predicate Disciplined(docs: seq<Document>, r: RawResult) {
    && (forall x :: x in r.symbols ==> Owns(r.descriptor, x.language))
    && (forall d :: d in r.diagnostics && HasDoc(docs, d.path) ==> Owns(r.descriptor, DocAt(docs, d.path).language))
    && (forall x :: x in r.relations ==> OwnKey(r, x.sourceKey) && OwnKey(r, x.targetKey))
  }

  ghost predicate AlignedTo(s: Snapshot, rs: seq<RawResult>) {
    |rs| == |s.adapters| && forall i :: 0 <= i < |rs| ==> rs[i].descriptor == s.adapters[i]
  }

  ghost predicate DistinctNames(adapters: seq<AdapterDescriptor>) {
    forall i, j :: 0 <= i < j < |adapters| ==> adapters[i].name != adapters[j].name
  }

  ghost predicate KeysSeparate(rs: seq<RawResult>) {
    forall t, u :: t in TaggedSymbols(rs) && u in TaggedSymbols(rs) && t.adapter != u.adapter ==> t.raw.key != u.raw.key
  }

  /** Language is read off the path, and equal source hashes mean equal bytes. */
  ghost predicate DocsAgree(a: seq<Document>, b: seq<Document>) {
    forall d, e :: d in a && e in b && d.path == e.path ==>
      d.language == e.language && (d.sourceHash == e.sourceHash ==> d.body == e.body)
  }

  ghost predicate Surroundings(c: Case) {
    && c.base.adapters == c.next.adapters && DistinctNames(c.next.adapters)
    && AlignedTo(c.base, c.baseResults) && AlignedTo(c.next, c.nextResults)
    && (forall r :: r in c.baseResults ==> Disciplined(c.baseDocs, r))
    && (forall r :: r in c.nextResults ==> Disciplined(c.nextDocs, r))
    && DocsAgree(c.baseDocs, c.nextDocs)
  }

  ghost predicate Environment(c: Case) { Surroundings(c) && KeysSeparate(c.nextResults) }

  /** A carried adapter read the same owned documents, so it said the same thing. */
  ghost predicate CarriedUnchanged(c: Case) {
    && |c.baseResults| == |c.nextResults|
    && (forall i :: 0 <= i < |c.nextResults| && c.nextResults[i].descriptor in c.descs ==>
          c.baseResults[i] == c.nextResults[i])
    && (forall e :: e in c.nextDocs && OwnsLanguage(c.descs, e.language) ==> HasDoc(c.baseDocs, e.path))
  }

  /** Rebinding succeeded. */
  ghost predicate Carrying(c: Case) {
    && Surroundings(c) && CarriedUnchanged(c)
    && ValidSnapshotIdentity(c.base) && ValidSnapshotIdentity(c.next)
    && Accepted(c.evidence, c.base, c.baseDocs, c.baseResults)
    && Accepted(c.evidence, c.next, c.nextDocs, Skipped(c))
    && BundleValid(Partial(c)) && BundleValid(Baseline(c))
    && Rebindable(Partial(c), Baseline(c), c.descs)
  }

  ghost predicate Situation(c: Case) { Carrying(c) && KeysSeparate(c.nextResults) }

  /** The part of a situation most proof steps need. */
  ghost predicate Setting(c: Case) {
    && Environment(c) && CarriedUnchanged(c)
    && ValidAdapters(c.next.adapters) && (forall d :: d in c.descs ==> d in c.next.adapters)
    && DistinctPaths(c.baseDocs) && DistinctPaths(c.nextDocs)
  }

  ghost predicate FilesDistinct(c: Case) {
    DistinctBy(Baseline(c).files, FileIdOf) && DistinctBy(Partial(c).files, FileIdOf)
  }

  ghost predicate FilesExact(c: Case) { CarriedFilesExact(Partial(c), Baseline(c), c.descs) }

  lemma SettingOf(c: Case)
    requires Situation(c)
    ensures Setting(c) && FilesExact(c)
  {}

  lemma FilesDistinctOf(c: Case)
    requires BundleValid(Partial(c)) && BundleValid(Baseline(c))
    ensures FilesDistinct(c)
  {
    var b, p := Baseline(c).files, Partial(c).files;
    assert forall i, j :: 0 <= i < j < |b| ==> FileIdOf(b[i]) != FileIdOf(b[j]);
    assert forall i, j :: 0 <= i < j < |p| ==> FileIdOf(p[i]) != FileIdOf(p[j]);
  }

  // ------------------------------------------------------------- masking

  function TagIn<T>(descs: seq<AdapterDescriptor>): Tagged<T> -> bool { (t: Tagged<T>) => t.adapter in descs }

  lemma {:induction false} MaskSplitsSymbols(rs: seq<RawResult>, descs: seq<AdapterDescriptor>)
    ensures multiset(TaggedSymbols(rs))
            == multiset(TaggedSymbols(Masked(rs, descs, false))) + multiset(TaggedSymbols(Masked(rs, descs, true)))
  {
    if rs != [] {
      MaskSplitsSymbols(rs[1..], descs);
      MaskHead(rs, descs, false);
      MaskHead(rs, descs, true);
    }
  }

  lemma {:induction false} MaskSplitsRelations(rs: seq<RawResult>, descs: seq<AdapterDescriptor>)
    ensures multiset(TaggedRelations(rs))
            == multiset(TaggedRelations(Masked(rs, descs, false))) + multiset(TaggedRelations(Masked(rs, descs, true)))
  {
    if rs != [] {
      MaskSplitsRelations(rs[1..], descs);
      MaskHead(rs, descs, false);
      MaskHead(rs, descs, true);
    }
  }

  lemma MaskHead(rs: seq<RawResult>, descs: seq<AdapterDescriptor>, keep: bool)
    requires rs != []
    ensures Masked(rs, descs, keep)[0] == Masker(descs, keep)(rs[0])
    ensures Masked(rs, descs, keep)[1..] == Masked(rs[1..], descs, keep)
  {}

  lemma FilterTagged<T>(descs: seq<AdapterDescriptor>, d: AdapterDescriptor, xs: seq<T>)
    ensures Filter(TagIn(descs), Map(Tagger(d), xs)) == if d in descs then Map(Tagger(d), xs) else []
  {
    if d in descs {
      FilterAll(TagIn(descs), Map(Tagger(d), xs));
    } else {
      FilterNone(TagIn(descs), Map(Tagger(d), xs));
    }
  }

  lemma {:induction false} MaskFilters(rs: seq<RawResult>, descs: seq<AdapterDescriptor>)
    ensures Filter(TagIn(descs), TaggedSymbols(rs)) == TaggedSymbols(Masked(rs, descs, true))
    ensures Filter(TagIn(descs), TaggedRelations(rs)) == TaggedRelations(Masked(rs, descs, true))
  {
    if rs != [] {
      MaskFilters(rs[1..], descs);
      MaskHead(rs, descs, true);
      FilterAppend(TagIn(descs), TagSymbols(rs[0]), TaggedSymbols(rs[1..]));
      FilterAppend(TagIn(descs), TagRelations(rs[0]), TaggedRelations(rs[1..]));
      FilterTagged(descs, rs[0].descriptor, rs[0].symbols);
      FilterTagged(descs, rs[0].descriptor, rs[0].relations);
    }
  }

  lemma ReusedAgree(c: Case)
    requires Environment(c) && CarriedUnchanged(c)
    ensures Masked(c.baseResults, c.descs, true) == Reused(c)
  {
    var a, b := Masked(c.baseResults, c.descs, true), Reused(c);
    forall i | 0 <= i < |a| ensures a[i] == b[i] {
      assert c.baseResults[i].descriptor == c.nextResults[i].descriptor;
    }
  }

  // -------------------------------------------------------------- origins

  lemma {:induction false} SymbolOrigin(rs: seq<RawResult>, t: Tagged<RawSymbol>)
    requires t in TaggedSymbols(rs)
    ensures exists r :: r in rs && r.descriptor == t.adapter && t.raw in r.symbols
  {
    if t in TagSymbols(rs[0]) {
      MapMember(Tagger<RawSymbol>(rs[0].descriptor), rs[0].symbols, t);
    } else {
      SymbolOrigin(rs[1..], t);
    }
  }

  lemma {:induction false} RelationOrigin(rs: seq<RawResult>, t: Tagged<RawRelation>)
    requires t in TaggedRelations(rs)
    ensures exists r :: r in rs && r.descriptor == t.adapter && t.raw in r.relations
  {
    if t in TagRelations(rs[0]) {
      MapMember(Tagger<RawRelation>(rs[0].descriptor), rs[0].relations, t);
    } else {
      RelationOrigin(rs[1..], t);
    }
  }

  lemma {:induction false} SymbolTagged(rs: seq<RawResult>, r: RawResult, x: RawSymbol)
    requires r in rs && x in r.symbols
    ensures Tagged(x, r.descriptor) in TaggedSymbols(rs)
  {
    if rs[0] == r {
      var i :| 0 <= i < |r.symbols| && r.symbols[i] == x;
      assert TagSymbols(r)[i] == Tagged(x, r.descriptor);
    } else {
      SymbolTagged(rs[1..], r, x);
    }
  }

  lemma SameNameSameAdapter(adapters: seq<AdapterDescriptor>, d: AdapterDescriptor, e: AdapterDescriptor)
    requires DistinctNames(adapters) && d in adapters && e in adapters && d.name == e.name
    ensures d == e
  {}

  lemma AdapterOf(c: Case, r: RawResult)
    requires Environment(c) && (r in c.baseResults || r in c.nextResults)
    ensures r.descriptor in c.next.adapters
  {
    if r in c.baseResults {
      var i :| 0 <= i < |c.baseResults| && c.baseResults[i] == r;
    } else {
      var i :| 0 <= i < |c.nextResults| && c.nextResults[i] == r;
    }
  }

  /** Ownership of a language is exclusive. */
  lemma OwnerUnique(c: Case, d: AdapterDescriptor, language: string)
    requires Setting(c) && d in c.next.adapters && Owns(d, language)
    ensures OwnsLanguage(c.descs, language) <==> d in c.descs
  {
    if OwnsLanguage(c.descs, language) {
      var e :| e in c.descs && Owns(e, language);
      assert ValidAdapter(d) && ValidAdapter(e);
      SameNameSameAdapter(c.next.adapters, d, e);
    }
  }

  lemma SymbolOwner(c: Case, t: Tagged<RawSymbol>)
    requires Setting(c) && t in TaggedSymbols(c.baseResults)
    ensures OwnsLanguage(c.descs, t.raw.language) <==> t.adapter in c.descs
  {
    SymbolOrigin(c.baseResults, t);
    var r :| r in c.baseResults && r.descriptor == t.adapter && t.raw in r.symbols;
    AdapterOf(c, r);
    assert Disciplined(c.baseDocs, r);
    OwnerUnique(c, t.adapter, t.raw.language);
  }

  // ---------------------------------------------------------------- files

  lemma {:induction false} FileAtMap(f: Document -> FileCard, docs: seq<Document>, path: string)
    requires forall d :: f(d).path == d.path
    ensures FileAt(Map(f, docs), path) == if HasDoc(docs, path) then Some(f(DocAt(docs, path))) else None
  {
    if docs != [] {
      assert Map(f, docs)[1..] == Map(f, docs[1..]);
      FileAtMap(f, docs[1..], path);
      if docs[0].path != path {
        assert HasDoc(docs, path) == HasDoc(docs[1..], path) by {
          if HasDoc(docs, path) { var d :| d in docs && d.path == path; assert d in docs[1..]; }
        }
      } else {
        assert docs[0] in docs;
      }
    }
  }

  lemma FileAtDoc(s: Snapshot, docs: seq<Document>, rs: seq<RawResult>, path: string)
    ensures FileAt(Files(s, docs, rs), path)
            == if HasDoc(docs, path) then Some(FinalFile(s, Symbols(s, docs, rs), AllDiagnostics(rs), DocAt(docs, path)))
               else None
  {
    FileAtMap(Filer(s, Symbols(s, docs, rs), AllDiagnostics(rs)), docs, path);
  }

  /** Both sides hold the path, with the same bytes. */
  ghost predicate Twin(c: Case, path: string) {
    && HasDoc(c.baseDocs, path) && HasDoc(c.nextDocs, path)
    && DocAt(c.baseDocs, path).sourceHash == DocAt(c.nextDocs, path).sourceHash
  }

  function BaseFile(c: Case, path: string): EntityId { FileIdFor(c.base, DocAt(c.baseDocs, path)) }
  function NextFile(c: Case, path: string): EntityId { FileIdFor(c.next, DocAt(c.nextDocs, path)) }

  lemma BaselineFile(c: Case, path: string) returns (i: nat)
    requires HasDoc(c.baseDocs, path)
    ensures i < |Baseline(c).files|
    ensures var f := Baseline(c).files[i];
            f.fileId == BaseFile(c, path) && f.path == path && f.sourceHash == DocAt(c.baseDocs, path).sourceHash
  {
    DocAtFound(c.baseDocs, path);
    i :| 0 <= i < |c.baseDocs| && c.baseDocs[i] == DocAt(c.baseDocs, path);
  }

  lemma CounterpartOf(c: Case, f: FileCard)
    requires HasDoc(c.baseDocs, f.path) && f.sourceHash == DocAt(c.baseDocs, f.path).sourceHash
    ensures Counterpart(Partial(c).files)(f) == if Twin(c, f.path) then Some(NextFile(c, f.path)) else None
  {
    FileAtDoc(c.next, c.nextDocs, Skipped(c), f.path);
  }

  lemma FileMapAt(c: Case, path: string)
    requires FilesDistinct(c) && HasDoc(c.baseDocs, path)
    ensures BaseFile(c, path) in FileMap(Partial(c), Baseline(c)) <==> Twin(c, path)
    ensures Twin(c, path) ==> FileMap(Partial(c), Baseline(c))[BaseFile(c, path)] == NextFile(c, path)
  {
    var i := BaselineFile(c, path);
    CounterpartOf(c, Baseline(c).files[i]);
    BuildMapAt(Baseline(c).files, FileIdOf, Counterpart(Partial(c).files), i);
  }

  /** Where the baseline card's language is carried, the target has the same bytes. */
  lemma OwnedTwin(c: Case, path: string)
    requires FilesExact(c) && HasDoc(c.baseDocs, path)
    requires OwnsLanguage(c.descs, DocAt(c.baseDocs, path).language)
    ensures Twin(c, path)
    ensures FileLineage(c.next.repositoryId, path) == FileLineage(c.base.repositoryId, path)
  {
    DocAtFound(c.baseDocs, path);
    var d := DocAt(c.baseDocs, path);
    FileForDoc(c.base, c.baseDocs, c.baseResults, d);
    var f := FinalFile(c.base, Symbols(c.base, c.baseDocs, c.baseResults), AllDiagnostics(c.baseResults), d);
    assert f in Baseline(c).files;
    assert FileExact(Partial(c), f);
    FileAtDoc(c.next, c.nextDocs, Skipped(c), path);
    if HasDoc(c.nextDocs, path) { DocAtFound(c.nextDocs, path); }
  }

  lemma {:induction false} FileByIdFound(files: seq<FileCard>, f: FileCard)
    requires DistinctBy(files, FileIdOf) && f in files
    ensures FileById(files, f.fileId) == Some(f)
  {
    if files[0] != f {
      var i :| 0 <= i < |files| && files[i] == f;
      assert FileIdOf(files[0]) != FileIdOf(files[i]);
      DistinctTail(files, FileIdOf);
      FileByIdFound(files[1..], f);
    }
  }

  lemma DistinctTail<K, V>(s: seq<V>, key: V -> K)
    requires DistinctBy(s, key) && s != []
    ensures DistinctBy(s[1..], key)
  {
    forall i, j | 0 <= i < j < |s[1..]| ensures key(s[1..][i]) != key(s[1..][j]) {
      assert key(s[i+1]) != key(s[j+1]);
    }
  }

  lemma NextFileCard(c: Case, path: string)
    requires FilesDistinct(c) && HasDoc(c.nextDocs, path)
    ensures FileById(Partial(c).files, NextFile(c, path)).Some?
    ensures var f := FileById(Partial(c).files, NextFile(c, path)).value;
            f.fileId == NextFile(c, path) && f.lineageId == FileLineage(c.next.repositoryId, path)
  {
    DocAtFound(c.nextDocs, path);
    FileForDoc(c.next, c.nextDocs, Skipped(c), DocAt(c.nextDocs, path));
    var f := FinalFile(c.next, Symbols(c.next, c.nextDocs, Skipped(c)), AllDiagnostics(Skipped(c)), DocAt(c.nextDocs, path));
    FileByIdFound(Partial(c).files, f);
  }

  // -------------------------------------------------------------- symbols

  function Files0(c: Case): map<EntityId, EntityId> { FileMap(Partial(c), Baseline(c)) }

  /** Rebasing a baseline card onto the target's file is making the card afresh there. */
  lemma RebasedCard(base: Snapshot, next: Snapshot, d: Document, e: Document, f: FileCard, raw: RawSymbol)
    requires f.fileId == FileIdFor(next, e) && f.lineageId == FileLineage(next.repositoryId, e.path)
    ensures RebasedSymbol(next, f, CardOf(base, d, raw)) == CardOf(next, e, raw)
  {}

  lemma CarriedWhen(target: Bundle, files: map<EntityId, EntityId>, descs: seq<AdapterDescriptor>, x: SymbolCard)
    requires x.fileId in files ==> FileById(target.files, files[x.fileId]).Some?
    ensures Carried(target, files, descs)(x)
      == if x.fileId in files && OwnsLanguage(descs, x.language)
         then Some(RebasedSymbol(target.snapshot, FileById(target.files, files[x.fileId]).value, x)) else None
  {}

  lemma MappedFile(c: Case, path: string)
    requires FilesDistinct(c) && HasDoc(c.baseDocs, path)
    ensures BaseFile(c, path) in Files0(c) <==> Twin(c, path)
    ensures Twin(c, path) ==> var f := FileById(Partial(c).files, Files0(c)[BaseFile(c, path)]);
      f.Some? && f.value.fileId == NextFile(c, path) && f.value.lineageId == FileLineage(c.next.repositoryId, path)
  {
    FileMapAt(c, path);
    if Twin(c, path) { NextFileCard(c, path); }
  }

  lemma TwinDocPaths(c: Case, path: string)
    requires Twin(c, path)
    ensures DocAt(c.nextDocs, path).path == path
  {
    DocAtFound(c.nextDocs, path);
  }

  lemma CarriedOnto(c: Case, path: string, raw: RawSymbol)
    requires FilesDistinct(c) && HasDoc(c.baseDocs, path) && Twin(c, path) && OwnsLanguage(c.descs, raw.language)
    ensures Carried(Partial(c), Files0(c), c.descs)(CardOf(c.base, DocAt(c.baseDocs, path), raw))
      == Some(CardOf(c.next, DocAt(c.nextDocs, path), raw))
  {
    MappedFile(c, path);
    TwinDocPaths(c, path);
    var f := FileById(Partial(c).files, Files0(c)[BaseFile(c, path)]).value;
    CarriedWhen(Partial(c), Files0(c), c.descs, CardOf(c.base, DocAt(c.baseDocs, path), raw));
    RebasedCard(c.base, c.next, DocAt(c.baseDocs, path), DocAt(c.nextDocs, path), f, raw);
  }

  lemma NotCarried(c: Case, path: string, raw: RawSymbol)
    requires FilesDistinct(c) && HasDoc(c.baseDocs, path) && !OwnsLanguage(c.descs, raw.language)
    ensures Carried(Partial(c), Files0(c), c.descs)(CardOf(c.base, DocAt(c.baseDocs, path), raw)) == None
  {
    MappedFile(c, path);
    CarriedWhen(Partial(c), Files0(c), c.descs, CardOf(c.base, DocAt(c.baseDocs, path), raw));
  }

  /** A baseline symbol is carried exactly when its adapter is, and then it
      becomes the card a fresh run would have made. */
  lemma CarriedSymbol(c: Case, t: Tagged<RawSymbol>)
    requires Setting(c) && FilesDistinct(c) && FilesExact(c)
    requires t in TaggedSymbols(c.baseResults) && SymbolInScope(c.base, c.baseDocs, t)
    ensures t.adapter in c.descs ==> Twin(c, t.raw.path)
    ensures Carried(Partial(c), Files0(c), c.descs)(Carder(c.base, c.baseDocs)(t))
            == if t.adapter in c.descs then Some(Carder(c.next, c.nextDocs)(t)) else None
  {
    SymbolOwner(c, t);
    if t.adapter in c.descs {
      OwnedTwin(c, t.raw.path);
      CarriedOnto(c, t.raw.path, t.raw);
    } else {
      NotCarried(c, t.raw.path, t.raw);
    }
  }

  ghost predicate BaseInScope(c: Case) {
    && DistinctKeys(TaggedSymbols(c.baseResults))
    && forall t :: t in TaggedSymbols(c.baseResults) ==> SymbolInScope(c.base, c.baseDocs, t)
  }

  /** Filtering a permuted image and moving what is kept. */
  lemma CarryImage<A(!new), B(!new), D>(p: B -> bool, f: B -> D, card: A -> B, keep: A -> bool, anew: A -> D,
                                  items: seq<B>, ts: seq<A>)
    requires multiset(items) == multiset(Map(card, ts))
    requires forall t :: t in ts ==> p(card(t)) == keep(t) && (keep(t) ==> f(card(t)) == anew(t))
    ensures multiset(Map(f, Filter(p, items))) == multiset(Map(anew, Filter(keep, ts)))
  {
    FilterPermutes(p, items, Map(card, ts));
    MapPermutes(f, Filter(p, items), Filter(p, Map(card, ts)));
    FilterMap(p, card, ts);
    FilterSame(x => p(card(x)), keep, ts);
    var us := Filter(keep, ts);
    forall i | 0 <= i < |us| ensures f(card(us[i])) == anew(us[i]) { FilterMember(keep, ts, us[i]); }
    assert Map(f, Map(card, us)) == Map(anew, us);
  }

  lemma CarriedSymbolsAre(c: Case)
    requires Setting(c) && FilesDistinct(c) && FilesExact(c) && BaseInScope(c)
    ensures multiset(CarriedSymbols(Partial(c), Baseline(c), c.descs))
            == multiset(Map(Carder(c.next, c.nextDocs), TaggedSymbols(Reused(c))))
  {
    var p, f := IsCarried(Partial(c), Files0(c), c.descs), Rebaser(Partial(c), Files0(c), c.descs);
    var card, anew, ts := Carder(c.base, c.baseDocs), Carder(c.next, c.nextDocs), TaggedSymbols(c.baseResults);
    SortedSymbolsFacts(c.baseResults);
    MapPermutes(card, SortedSymbols(c.baseResults), ts);
    forall t | t in ts ensures p(card(t)) == TagIn(c.descs)(t) && (TagIn(c.descs)(t) ==> f(card(t)) == anew(t)) {
      CarriedSymbol(c, t);
    }
    CarryImage(p, f, card, TagIn(c.descs), anew, Baseline(c).symbols, ts);
    MaskFilters(c.baseResults, c.descs);
    ReusedAgree(c);
  }
}
