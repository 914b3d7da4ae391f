/** `forja-index` over a whole history of commits: however many runs skip
    however many adapters, every stored bundle is the one a run from scratch
    would have produced. */
module IncrementalHistory {
  import opened Ordering
  import opened Seqs
  import opened Cards
  import opened Bundles
  import opened Normalization
  import opened NormalizationProofs
  import opened Reuse
  import opened ReuseProofs
  import opened IncrementalIndexing
  import opened BaselineOrder
  import Invalidation
  import Planning
  import opened Selection
  import opened OwnedDocuments

  /** The adapters and the surroundings they run in. */
  datatype Indexer = Indexer(
    extract: (AdapterDescriptor, set<Source>) -> RawResult, evidence: RawRelation -> string,
    configures: Configures, language: string -> string)

  /** A commit as proposed for indexing. */
  datatype Commit = Commit(snapshot: Snapshot, docs: seq<Document>)

  function Extractor(ix: Indexer, docs: seq<Document>): AdapterDescriptor -> RawResult {
    (a: AdapterDescriptor) => ix.extract(a, ViewOf(ix.configures, a, docs))
  }

  function Results(ix: Indexer, c: Commit): seq<RawResult> { Map(Extractor(ix, c.docs), c.snapshot.adapters) }

  /** What is asked of the adapters: each answers under its own name, speaks only
      of its own files and symbols, and shares no symbol key with an adapter of
      another name that reads the same documents. */
  ghost predicate WellBehaved(ix: Indexer) {
    && (forall a, v :: ix.extract(a, v).descriptor == a)
    && (forall a, docs: seq<Document> :: Disciplined(docs, Extractor(ix, docs)(a)))
    && (forall a: AdapterDescriptor, b: AdapterDescriptor, docs: seq<Document> :: a.name != b.name ==>
          NoSharedKey(Extractor(ix, docs)(a), Extractor(ix, docs)(b)))
  }

  ghost predicate NoSharedKey(r: RawResult, q: RawResult) {
    forall x, y :: x in r.symbols && y in q.symbols ==> x.key != y.key
  }

  ghost predicate Indexable(ix: Indexer, c: Commit) {
    Loaded(ix.language, c.docs) && DistinctNames(c.snapshot.adapters)
  }

  ghost function FullRun(ix: Indexer, c: Commit): Outcome<Bundle> {
    Normalized(ix.evidence, c.snapshot, c.docs, Results(ix, c))
  }

  /** Skip the given adapters, normalize the rest, carry the baseline's evidence over. */
  ghost function SkippingRun(ix: Indexer, c: Commit, baseline: Bundle, descs: seq<AdapterDescriptor>): Outcome<Bundle> {
    var partial := Normalized(ix.evidence, c.snapshot, c.docs, Masked(Results(ix, c), descs, false));
    if partial.Err? then Err else Rebound(partial.value, baseline, descs)
  }

  /** One indexing run after the first. */
  datatype Run = Run(commit: Commit, baseline: Bundle, changes: Invalidation.ChangeSet, plan: Planning.Plan, result: Bundle)

  ghost predicate RunOk(ix: Indexer, r: Run) {
    && Indexable(ix, r.commit)
    && Planning.ReturnedPlan(r.baseline, r.commit.snapshot, r.commit.docs, r.changes, r.plan)
    && SkippingRun(ix, r.commit, r.baseline, SkippedIn(ix, r)) == Ok(r.result)
  }

  ghost function SkippedIn(ix: Indexer, r: Run): seq<AdapterDescriptor> {
    Selected(ix.configures, r.commit.snapshot.adapters, r.baseline, r.plan, r.changes.changes, r.commit.docs)
  }

  /** The stored bundle is a run from scratch, up to the order of its cards. */
  ghost predicate Agrees(ix: Indexer, c: Commit, b: Bundle) {
    && Indexable(ix, c) && BundleValid(b)
    && FullRun(ix, c).Ok? && BundleValid(FullRun(ix, c).value) && SameCards(b, FullRun(ix, c).value)
  }

  // -------------------------------------------------------------- alignment

  lemma {:induction false} ResultsAligned(s: Snapshot, rs: seq<RawResult>)
    requires AlignedTo(s, rs) && DistinctNames(s.adapters)
    ensures DistinctBy(rs, ResultKey) ==> ResultsMatch(s, rs) && Aligned(s, rs) == rs
  {
    if DistinctBy(rs, ResultKey) {
      forall i | 0 <= i < |rs| ensures ResultFor(rs, AdapterKey(s.adapters[i])) == Some(rs[i]) {
        LookupByMember(rs, rs[i]);
      }
      assert forall i :: 0 <= i < |rs| ==> Aligner(rs)(s.adapters[i]) == rs[i];
    }
  }

  lemma MatchedResults(evidence: RawRelation -> string, s: Snapshot, docs: seq<Document>, rs: seq<RawResult>)
    requires AlignedTo(s, rs) && DistinctNames(s.adapters) && Normalized(evidence, s, docs, rs).Ok?
    ensures ValidSnapshot(s) && Accepted(evidence, s, docs, rs)
    ensures Normalized(evidence, s, docs, rs) == Ok(BundleOf(evidence, s, docs, rs))
  {
    ResultsAligned(s, rs);
  }

  lemma AcceptedNormalizes(evidence: RawRelation -> string, s: Snapshot, docs: seq<Document>, rs: seq<RawResult>)
    requires AlignedTo(s, rs) && DistinctNames(s.adapters) && ValidSnapshot(s) && Accepted(evidence, s, docs, rs)
    ensures Normalized(evidence, s, docs, rs) == Ok(BundleOf(evidence, s, docs, rs))
  {
    KeysFromValid(s, rs);
    ResultsAligned(s, rs);
  }

  lemma KeysFromValid(s: Snapshot, rs: seq<RawResult>)
    requires AlignedTo(s, rs) && ValidAdapters(s.adapters)
    ensures DistinctBy(rs, ResultKey)
  {
    StringOrder();
    forall i, j | 0 <= i < j < |rs| ensures ResultKey(rs[i]) != ResultKey(rs[j]) {
      assert Less(AdapterKey(s.adapters[i]), AdapterKey(s.adapters[j]));
    }
  }

  lemma RunAligned(ix: Indexer, c: Commit, descs: seq<AdapterDescriptor>)
    requires WellBehaved(ix)
    ensures AlignedTo(c.snapshot, Results(ix, c)) && AlignedTo(c.snapshot, Masked(Results(ix, c), descs, false))
  {
    forall i | 0 <= i < |c.snapshot.adapters| ensures Results(ix, c)[i].descriptor == c.snapshot.adapters[i] {
      assert Results(ix, c)[i] == ix.extract(c.snapshot.adapters[i], ViewOf(ix.configures, c.snapshot.adapters[i], c.docs));
    }
  }

  // ------------------------------------------------------ one run, as a case

  function CaseOf(ix: Indexer, before: Commit, after: Commit, descs: seq<AdapterDescriptor>): Case {
    Case(ix.evidence, before.snapshot, before.docs, Results(ix, before), after.snapshot, after.docs, Results(ix, after), descs)
  }

  lemma KeysKeptApart(ix: Indexer, c: Commit)
    requires WellBehaved(ix) && DistinctNames(c.snapshot.adapters)
    ensures KeysSeparate(Results(ix, c))
  {
    var rs := Results(ix, c);
    forall t, u | t in TaggedSymbols(rs) && u in TaggedSymbols(rs) && t.adapter != u.adapter ensures t.raw.key != u.raw.key {
      TaggedBy(ix, c, t);
      TaggedBy(ix, c, u);
      assert NoSharedKey(Extractor(ix, c.docs)(t.adapter), Extractor(ix, c.docs)(u.adapter));
    }
  }

  lemma TaggedBy(ix: Indexer, c: Commit, t: Tagged<RawSymbol>)
    requires WellBehaved(ix) && t in TaggedSymbols(Results(ix, c))
    ensures t.adapter in c.snapshot.adapters && t.raw in Extractor(ix, c.docs)(t.adapter).symbols
  {
    var rs := Results(ix, c);
    SymbolOrigin(rs, t);
    var r :| r in rs && r.descriptor == t.adapter && t.raw in r.symbols;
    MapMember(Extractor(ix, c.docs), c.snapshot.adapters, r);
    var a :| a in c.snapshot.adapters && Extractor(ix, c.docs)(a) == r;
    assert ix.extract(a, ViewOf(ix.configures, a, c.docs)).descriptor == a;
  }

  lemma ResultsDisciplined(ix: Indexer, c: Commit)
    requires WellBehaved(ix)
    ensures forall r :: r in Results(ix, c) ==> Disciplined(c.docs, r)
  {
    forall r | r in Results(ix, c) ensures Disciplined(c.docs, r) {
      MapMember(Extractor(ix, c.docs), c.snapshot.adapters, r);
    }
  }

  lemma LoadedAgree(language: string -> string, a: seq<Document>, b: seq<Document>)
    requires Loaded(language, a) && Loaded(language, b)
    ensures DocsAgree(a, b)
  {
    forall d, e | d in a && e in b && d.path == e.path
      ensures d.language == e.language && (d.sourceHash == e.sourceHash ==> d.body == e.body) {
      if d.sourceHash == e.sourceHash { SameHashSameSource(language, a, b, d, e); }
    }
  }

  lemma RunEnvironment(ix: Indexer, before: Commit, after: Commit, descs: seq<AdapterDescriptor>)
    requires WellBehaved(ix) && Indexable(ix, before) && Indexable(ix, after)
    requires before.snapshot.adapters == after.snapshot.adapters
    ensures Environment(CaseOf(ix, before, after, descs))
  {
    RunAligned(ix, before, descs);
    RunAligned(ix, after, descs);
    ResultsDisciplined(ix, before);
    ResultsDisciplined(ix, after);
    KeysKeptApart(ix, after);
    LoadedAgree(ix.language, before.docs, after.docs);
  }

  lemma ListedRepresents(files: seq<FileCard>, listed: seq<FileCard>, docs: seq<Document>)
    requires DistinctPaths(docs) && DistinctBy(files, PathOf) && multiset(files) == multiset(listed)
    requires |listed| == |docs| && forall i :: 0 <= i < |docs| ==> Pictures(listed[i], docs[i])
    ensures Represents(files, docs)
  {
    forall f | f in files ensures DocAt(docs, f.path) in docs && Pictures(f, DocAt(docs, f.path)) {
      MemberPermutes(files, listed, f);
      var i :| 0 <= i < |listed| && listed[i] == f;
      DocAtUnique(docs, docs[i]);
    }
    forall d | d in docs ensures FileAt(files, d.path).Some? && Pictures(FileAt(files, d.path).value, d) {
      var i :| 0 <= i < |docs| && docs[i] == d;
      MemberPermutes(files, listed, listed[i]);
      FileAtOf(files, listed[i]);
    }
  }

  lemma BundleRepresents(ix: Indexer, c: Commit, b: Bundle)
    requires Loaded(ix.language, c.docs) && multiset(b.files) == multiset(Files(c.snapshot, c.docs, Results(ix, c)))
    requires DistinctBy(b.files, PathOf)
    ensures Represents(b.files, c.docs)
  {
    ListedRepresents(b.files, Files(c.snapshot, c.docs, Results(ix, c)), c.docs);
  }

  lemma SelectedMember(ix: Indexer, r: Run, a: AdapterDescriptor)
    requires a in SkippedIn(ix, r)
    ensures !r.plan.fullReindex
    ensures Selectable(ix.configures, a, r.baseline, r.plan, r.changes.changes, r.commit.docs)
  {
    FilterMember(Selector(ix.configures, r.baseline, r.plan, r.changes.changes, r.commit.docs), r.commit.snapshot.adapters, a);
  }

  ghost predicate PlannedFrom(ix: Indexer, before: Commit, r: Run, affected: set<string>) {
    && Loaded(ix.language, before.docs) && Loaded(ix.language, r.commit.docs) && Represents(r.baseline.files, before.docs)
    && Planning.Incremental(r.baseline, r.commit.docs, r.changes.changes, r.plan, affected)
  }

  lemma SkippedSaidTheSame(ix: Indexer, before: Commit, r: Run, affected: set<string>, a: AdapterDescriptor)
    requires PlannedFrom(ix, before, r, affected) && a in SkippedIn(ix, r)
    ensures Extractor(ix, before.docs)(a) == Extractor(ix, r.commit.docs)(a)
  {
    SelectedMember(ix, r, a);
    ViewsAgree(ix.configures, ix.language, a, r.baseline, before.docs, r.commit.docs, r.changes.changes, r.plan, affected);
  }

  lemma SkippedUnchanged(ix: Indexer, before: Commit, r: Run, affected: set<string>)
    requires WellBehaved(ix) && before.snapshot.adapters == r.commit.snapshot.adapters
    requires PlannedFrom(ix, before, r, affected)
    ensures CarriedUnchanged(CaseOf(ix, before, r.commit, SkippedIn(ix, r)))
  {
    var c := CaseOf(ix, before, r.commit, SkippedIn(ix, r));
    RunAligned(ix, r.commit, []);
    forall i | 0 <= i < |c.nextResults| && c.nextResults[i].descriptor in c.descs ensures c.baseResults[i] == c.nextResults[i] {
      SkippedSaidTheSame(ix, before, r, affected, r.commit.snapshot.adapters[i]);
    }
    forall e | e in c.nextDocs && OwnsLanguage(c.descs, e.language) ensures HasDoc(c.baseDocs, e.path) {
      var a :| a in c.descs && Owns(a, e.language);
      SelectedMember(ix, r, a);
      OwnedWasThere(ix.configures, a, r.baseline, before.docs, r.commit.docs, r.changes.changes, r.plan, affected, e);
    }
  }

  // -------------------------------------------------------------- one step

  lemma NothingMasked(rs: seq<RawResult>)
    ensures Masked(rs, [], false) == rs
  {
    assert forall r :: Masker([], false)(r) == r;
  }

  lemma SameAdapters(b: Bundle, s: Snapshot, t: Snapshot)
    requires ValidSnapshotIdentity(s) && ValidSnapshotIdentity(t)
    requires b.snapshot.adapterSetHash == s.adapterSetHash && b.snapshot.adapterSetHash == t.adapterSetHash
    ensures s.adapters == t.adapters
  {
    assert Open(true);
    AdapterSetHashInjective(s.adapters, t.adapters);
  }

  lemma FullRunFacts(ix: Indexer, c: Commit)
    requires WellBehaved(ix) && Indexable(ix, c) && FullRun(ix, c).Ok?
    ensures ValidSnapshot(c.snapshot) && Accepted(ix.evidence, c.snapshot, c.docs, Results(ix, c))
    ensures FullRun(ix, c) == Ok(BundleOf(ix.evidence, c.snapshot, c.docs, Results(ix, c)))
  {
    RunAligned(ix, c, []);
    MatchedResults(ix.evidence, c.snapshot, c.docs, Results(ix, c));
  }

  lemma ValidPathsDistinct(b: Bundle)
    requires BundleValid(b)
    ensures DistinctBy(b.files, PathOf)
  {
    assert forall i, j :: 0 <= i < j < |b.files| ==> PathOf(b.files[i]) != PathOf(b.files[j]);
  }

  lemma StepPlanned(ix: Indexer, before: Commit, r: Run)
    requires WellBehaved(ix) && Agrees(ix, before, r.baseline) && RunOk(ix, r) && SkippedIn(ix, r) != []
    ensures PlannedFrom(ix, before, r, Planning.Elements(r.plan.affectedPaths))
  {
    SelectedMember(ix, r, SkippedIn(ix, r)[0]);
    FullRunFacts(ix, before);
    ValidPathsDistinct(r.baseline);
    BundleRepresents(ix, before, r.baseline);
    Planning.AcceptedIsIncremental(r.baseline, r.commit.snapshot, r.commit.docs, r.changes, r.plan);
  }

  lemma StepAdapters(ix: Indexer, before: Commit, r: Run)
    requires WellBehaved(ix) && Agrees(ix, before, r.baseline) && RunOk(ix, r) && SkippedIn(ix, r) != []
    ensures before.snapshot.adapters == r.commit.snapshot.adapters
  {
    SelectedMember(ix, r, SkippedIn(ix, r)[0]);
    FullRunFacts(ix, before);
    var affected, reason :|
      Planning.PlanFor(r.baseline, r.commit.snapshot, r.commit.docs, r.changes.changes, r.plan, affected, reason);
    SameAdapters(r.baseline, before.snapshot, r.commit.snapshot);
  }

  lemma ReboundMeans(target: Bundle, baseline: Bundle, descs: seq<AdapterDescriptor>, result: Bundle)
    requires Rebound(target, baseline, descs) == Ok(result) && descs != []
    ensures BundleValid(target) && Rebindable(target, baseline, descs) && result == ReboundBundle(target, baseline, descs)
  {}

  lemma SkippingPartial(ix: Indexer, before: Commit, r: Run)
    requires WellBehaved(ix) && RunOk(ix, r)
    ensures var c := CaseOf(ix, before, r.commit, SkippedIn(ix, r));
      && ValidSnapshot(r.commit.snapshot) && Accepted(ix.evidence, c.next, c.nextDocs, Skipped(c))
      && Rebound(Partial(c), r.baseline, c.descs) == Ok(r.result)
  {
    var c := CaseOf(ix, before, r.commit, SkippedIn(ix, r));
    RunAligned(ix, r.commit, c.descs);
    MatchedResults(ix.evidence, c.next, c.nextDocs, Skipped(c));
  }

  lemma StepRebinds(ix: Indexer, before: Commit, r: Run)
    requires WellBehaved(ix) && Agrees(ix, before, r.baseline) && RunOk(ix, r) && SkippedIn(ix, r) != []
    ensures var c := CaseOf(ix, before, r.commit, SkippedIn(ix, r));
      && ValidSnapshot(r.commit.snapshot) && Accepted(ix.evidence, c.next, c.nextDocs, Skipped(c))
      && BundleValid(Partial(c)) && Rebindable(Partial(c), Baseline(c), c.descs)
      && r.result == ReboundBundle(Partial(c), Baseline(c), c.descs)
  {
    var c := CaseOf(ix, before, r.commit, SkippedIn(ix, r));
    SkippingPartial(ix, before, r);
    assert Rebound(Partial(c), r.baseline, c.descs) == Rebound(Partial(c), Baseline(c), c.descs) by {
      FullRunFacts(ix, before);
      ReboundIgnoresBaselineOrder(Partial(c), r.baseline, Baseline(c), c.descs);
    }
    ReboundMeans(Partial(c), Baseline(c), c.descs, r.result);
  }

  lemma StepSituation(ix: Indexer, before: Commit, r: Run)
    requires WellBehaved(ix) && Agrees(ix, before, r.baseline) && RunOk(ix, r) && SkippedIn(ix, r) != []
    ensures Situation(CaseOf(ix, before, r.commit, SkippedIn(ix, r)))
  {
    var c := CaseOf(ix, before, r.commit, SkippedIn(ix, r));
    StepPlanned(ix, before, r);
    StepAdapters(ix, before, r);
    RunEnvironment(ix, before, r.commit, c.descs);
    SkippedUnchanged(ix, before, r, Planning.Elements(r.plan.affectedPaths));
    StepRebinds(ix, before, r);
    FullRunFacts(ix, before);
  }

  lemma SameCanonical(a: Bundle, b: Bundle)
    requires BundleValid(b) && CanonicalizeBundle(a) == CanonicalizeBundle(b)
    ensures BundleValid(a) && SameCards(a, b)
  {
    assert DistinctIds(a);
    CanonicalFormUnique(a, b);
  }

  lemma SkippingStep(ix: Indexer, before: Commit, r: Run)
    requires WellBehaved(ix) && Agrees(ix, before, r.baseline) && RunOk(ix, r) && SkippedIn(ix, r) != []
    ensures Agrees(ix, r.commit, r.result)
  {
    var c := CaseOf(ix, before, r.commit, SkippedIn(ix, r));
    StepSituation(ix, before, r);
    StepRebinds(ix, before, r);
    IncrementalEqualsFull(c);
    RunAligned(ix, r.commit, []);
    AcceptedNormalizes(ix.evidence, c.next, c.nextDocs, c.nextResults);
    SameCanonical(r.result, Full(c));
  }

  /** A run that skips nothing is a run from scratch. */
  lemma PlainStep(ix: Indexer, c: Commit, baseline: Bundle, result: Bundle)
    requires Indexable(ix, c) && SkippingRun(ix, c, baseline, []) == Ok(result)
    ensures Agrees(ix, c, result)
  {
    NothingMasked(Results(ix, c));
  }

  lemma StepAgrees(ix: Indexer, before: Commit, r: Run)
    requires WellBehaved(ix) && Agrees(ix, before, r.baseline) && RunOk(ix, r)
    ensures Agrees(ix, r.commit, r.result)
  {
    if SkippedIn(ix, r) == [] { PlainStep(ix, r.commit, r.baseline, r.result); } else { SkippingStep(ix, before, r); }
  }

  // --------------------------------------------------------------- histories

  function CommitAt(first: Commit, runs: seq<Run>, n: nat): Commit
    requires n <= |runs|
  {
    if n == 0 then first else runs[n-1].commit
  }

  /** The bundle stored after `n` runs. */
  function StoredAt(stored: Bundle, runs: seq<Run>, n: nat): Bundle
    requires n <= |runs|
  {
    if n == 0 then stored else runs[n-1].result
  }

  /** A run that starts from the stored bundle, its cards read back in any order. */
  ghost predicate RunFrom(ix: Indexer, stored: Bundle, r: Run) {
    RunOk(ix, r) && BundleValid(r.baseline) && SameCards(r.baseline, stored)
  }

  /** A first run from scratch, then runs each starting from what the one before stored. */
  ghost predicate History(ix: Indexer, first: Commit, stored: Bundle, runs: seq<Run>) {
    && Indexable(ix, first) && SkippingRun(ix, first, stored, []) == Ok(stored)
    && forall i :: 0 <= i < |runs| ==> RunFrom(ix, StoredAt(stored, runs, i), runs[i])
  }

  lemma RunFromAgrees(ix: Indexer, c: Commit, stored: Bundle, r: Run)
    requires WellBehaved(ix) && Agrees(ix, c, stored) && RunFrom(ix, stored, r)
    ensures Agrees(ix, r.commit, r.result)
  {
    assert Agrees(ix, c, r.baseline);
    StepAgrees(ix, c, r);
  }

  /** What one run preserves, every history preserves. */
  lemma {:induction false} AlongHistory(kept: (Commit, Bundle) -> bool, follows: (Bundle, Run) -> bool,
                                        first: Commit, stored: Bundle, runs: seq<Run>, n: nat)
    requires kept(first, stored) && n <= |runs|
    requires forall i :: 0 <= i < |runs| ==> follows(StoredAt(stored, runs, i), runs[i])
    requires forall c, b, r :: kept(c, b) && follows(b, r) ==> kept(r.commit, r.result)
    ensures kept(CommitAt(first, runs, n), StoredAt(stored, runs, n))
  {
    if n > 0 { AlongHistory(kept, follows, first, stored, runs, n - 1); }
  }

  lemma HistoryAgrees(ix: Indexer, first: Commit, stored: Bundle, runs: seq<Run>, n: nat)
    requires WellBehaved(ix) && History(ix, first, stored, runs) && n <= |runs|
    ensures Agrees(ix, CommitAt(first, runs, n), StoredAt(stored, runs, n))
  {
    var kept, follows := (c, b) => Agrees(ix, c, b), (b, r) => RunFrom(ix, b, r);
    assert kept(first, stored) by { PlainStep(ix, first, stored, stored); }
    forall c, b, r | kept(c, b) && follows(b, r) ensures kept(r.commit, r.result) { RunFromAgrees(ix, c, b, r); }
    AlongHistory(kept, follows, first, stored, runs, n);
  }

  /** Whatever was skipped along the way, each run's bundle has the canonical
      form of a run from scratch on its commit. */
  lemma EveryRunEqualsFull(ix: Indexer, first: Commit, stored: Bundle, runs: seq<Run>, n: nat)
    requires WellBehaved(ix) && History(ix, first, stored, runs) && n < |runs|
    ensures FullRun(ix, runs[n].commit).Ok? && BundleValid(runs[n].result)
    ensures CanonicalizeBundle(runs[n].result) == CanonicalizeBundle(FullRun(ix, runs[n].commit).value)
  {
    HistoryAgrees(ix, first, stored, runs, n + 1);
    var r, f := runs[n].result, FullRun(ix, runs[n].commit).value;
    CanonicalFormUnique(r, f);
  }
}
