/** The loops of `NormalizeResults`, proved to compute `Normalized`. */
module NormalizeLoops {
  import opened Ordering
  import opened Seqs
  import opened Cards
  import opened Bundles
  import opened Normalization
  import opened NormalizationProofs

  function DocPath(d: Document): string { d.path }

  lemma DocLookup(docs: seq<Document>, byPath: map<string, Document>, path: string)
    requires IndexedBy(docs, DocPath, byPath) && DistinctPaths(docs)
    ensures HasDoc(docs, path) <==> path in byPath
    ensures path in byPath ==> DocAt(docs, path) == byPath[path]
  {
    assert forall d :: d in docs ==> DocPath(d) in byPath;
    if path in byPath {
      assert byPath[path] in docs && DocPath(byPath[path]) == path;
      DocAtUnique(docs, byPath[path]);
    }
  }

  method IndexDocuments(docs: seq<Document>) returns (byPath: map<string, Document>, ok: bool)
    ensures ok <==> DistinctPaths(docs)
    ensures ok ==> IndexedBy(docs, DocPath, byPath)
  {
    byPath, ok := Collect(docs, (d: Document) => true, DocPath);
    assert DistinctBy(docs, DocPath) <==> DistinctPaths(docs) by {
      assert forall d: Document :: DocPath(d) == d.path;
    }
  }

  ghost predicate Answered(results: seq<RawResult>, d: AdapterDescriptor) {
    var found := ResultFor(results, AdapterKey(d)); found.Some? && found.value.descriptor == d
  }

  /** Match every authorized adapter with exactly one result. */
  method MatchResults(s: Snapshot, results: seq<RawResult>) returns (rs: seq<RawResult>, ok: bool)
    ensures ok <==> ResultsMatch(s, results)
    ensures ok ==> rs == Aligned(s, results)
  {
    rs := [];
    var byKey, distinct := Collect(results, (r: RawResult) => true, ResultKey);
    if !distinct || |results| != |s.adapters| { return rs, false; }
    for i := 0 to |s.adapters|
      invariant rs == Aligned(s, results)[..i]
      invariant forall k :: 0 <= k < i ==> Answered(results, s.adapters[k])
    {
      var d := s.adapters[i];
      ResultLookup(results, byKey, AdapterKey(d));
      if AdapterKey(d) !in byKey || byKey[AdapterKey(d)].descriptor != d {
        assert d in s.adapters && !Answered(results, d);
        return rs, false;
      }
      rs := rs + [byKey[AdapterKey(d)]];
    }
    ok := true;
  }

  lemma ResultLookup(results: seq<RawResult>, byKey: map<string, RawResult>, key: string)
    requires IndexedBy(results, ResultKey, byKey) && DistinctBy(results, ResultKey)
    ensures ResultFor(results, key).Some? <==> key in byKey
    ensures key in byKey ==> ResultFor(results, key) == Some(byKey[key])
  {
    if key in byKey {
      LookupByMember(results, byKey[key]);
    } else if ResultFor(results, key).Some? {
      LookupIsMember(results, key);
    }
  }

  /** Convert items one by one, stopping at the first that is refused. */
  method TryMap<A, B>(items: seq<A>, convert: A -> Outcome<B>) returns (r: Outcome<seq<B>>)
    ensures r.Ok? <==> forall x :: x in items ==> convert(x).Ok?
    ensures r.Ok? ==> |r.value| == |items| && forall i :: 0 <= i < |items| ==> convert(items[i]) == Ok(r.value[i])
  {
    var out: seq<B> := [];
    for i := 0 to |items|
      invariant |out| == i && forall k :: 0 <= k < i ==> convert(items[k]) == Ok(out[k])
    {
      var c := convert(items[i]);
      if c.Err? { return Err; }
      out := out + [c.value];
    }
    return Ok(out);
  }

  function SymbolBinder(s: Snapshot, byPath: map<string, Document>): Tagged<RawSymbol> -> Outcome<SymbolCard> {
    (t: Tagged<RawSymbol>) =>
      if t.raw.path in byPath && t.raw.language == byPath[t.raw.path].language
         && RangeWithin(t.raw.declaration, |byPath[t.raw.path].body|)
         && ValidSymbolCard(CardOf(s, byPath[t.raw.path], t.raw))
      then Ok(CardOf(s, byPath[t.raw.path], t.raw)) else Err
  }

  lemma SymbolBinderMeans(s: Snapshot, docs: seq<Document>, byPath: map<string, Document>, t: Tagged<RawSymbol>)
    requires IndexedBy(docs, DocPath, byPath) && DistinctPaths(docs)
    ensures SymbolBinder(s, byPath)(t).Ok? <==> SymbolInScope(s, docs, t)
  {
    DocLookup(docs, byPath, t.raw.path);
  }

  /** Check every emitted symbol, adapter by adapter. */
  method BindSymbols(s: Snapshot, docs: seq<Document>, byPath: map<string, Document>, rs: seq<RawResult>)
    returns (ok: bool)
    requires IndexedBy(docs, DocPath, byPath) && DistinctPaths(docs)
    ensures ok <==> forall t :: t in TaggedSymbols(rs) ==> SymbolInScope(s, docs, t)
  {
    var bound := TryMap(TaggedSymbols(rs), SymbolBinder(s, byPath));
    forall t ensures SymbolBinder(s, byPath)(t).Ok? <==> SymbolInScope(s, docs, t) {
      SymbolBinderMeans(s, docs, byPath, t);
    }
    ok := bound.Ok?;
  }

  // ------------------------------------------------------------ diagnostics

  ghost predicate TallyOf(m: map<DiagnosticKind, nat>, ks: seq<DiagnosticKind>) {
    && (forall k :: k in m <==> k in ks)
    && (forall k :: k in m ==> m[k] == multiset(ks)[k])
  }

  function Inner(counts: map<string, map<DiagnosticKind, nat>>, path: string): map<DiagnosticKind, nat> {
    if path in counts then counts[path] else map[]
  }

  ghost predicate Tallies(counts: map<string, map<DiagnosticKind, nat>>, ds: seq<RawDiagnostic>) {
    forall path :: TallyOf(Inner(counts, path), KindsAt(ds, path))
  }

  lemma KindsGrow(ds: seq<RawDiagnostic>, d: RawDiagnostic, path: string)
    ensures KindsAt(ds + [d], path) == KindsAt(ds, path) + if d.path == path then [KindOf(d)] else []
  {
    FilterAppend(At(path), ds, [d]);
    assert Filter(At(path), [d]) == if d.path == path then [d] else [];
  }

  lemma OneMore(m: map<DiagnosticKind, nat>, ks: seq<DiagnosticKind>, k: DiagnosticKind)
    requires TallyOf(m, ks)
    ensures TallyOf(m[k := (if k in m then m[k] else 0) + 1], ks + [k])
  {
    assert multiset(ks + [k]) == multiset(ks) + multiset{k};
    assert k !in ks ==> multiset(ks)[k] == 0;
  }

  lemma TallyGrows(counts: map<string, map<DiagnosticKind, nat>>, ds: seq<RawDiagnostic>, d: RawDiagnostic)
    requires Tallies(counts, ds)
    ensures var m, k := Inner(counts, d.path), KindOf(d);
            Tallies(counts[d.path := m[k := (if k in m then m[k] else 0) + 1]], ds + [d])
  {
    var m, k := Inner(counts, d.path), KindOf(d);
    var grown := counts[d.path := m[k := (if k in m then m[k] else 0) + 1]];
    assert TallyOf(m, KindsAt(ds, d.path));
    OneMore(m, KindsAt(ds, d.path), k);
    forall path ensures TallyOf(Inner(grown, path), KindsAt(ds + [d], path)) {
      KindsGrow(ds, d, path);
      assert TallyOf(Inner(counts, path), KindsAt(ds, path));
      if path != d.path { assert KindsAt(ds, path) + [] == KindsAt(ds, path); }
    }
  }

  method CountOne(before: map<string, map<DiagnosticKind, nat>>, ghost ds: seq<RawDiagnostic>, d: RawDiagnostic)
    returns (counts: map<string, map<DiagnosticKind, nat>>)
    requires Tallies(before, ds)
    ensures Tallies(counts, ds + [d])
  {
    TallyGrows(before, ds, d);
    var m, k := Inner(before, d.path), KindOf(d);
    counts := before[d.path := m[k := (if k in m then m[k] else 0) + 1]];
  }

  /** The tally loop, for any test of a diagnostic. */
  method TallyAll(ds: seq<RawDiagnostic>, good: RawDiagnostic -> bool)
    returns (counts: map<string, map<DiagnosticKind, nat>>, ok: bool)
    ensures ok <==> forall d :: d in ds ==> good(d)
    ensures ok ==> Tallies(counts, ds)
  {
    counts, ok := map[], true;
    for i := 0 to |ds|
      invariant ok && Tallies(counts, ds[..i])
      invariant forall k :: 0 <= k < i ==> good(ds[k])
    {
      if !good(ds[i]) { return counts, false; }
      counts := CountOne(counts, ds[..i], ds[i]);
      assert ds[..i+1] == ds[..i] + [ds[i]];
    }
    assert ds[..|ds|] == ds;
  }

  method TallyDiagnostics(docs: seq<Document>, byPath: map<string, Document>, rs: seq<RawResult>)
    returns (counts: map<string, map<DiagnosticKind, nat>>, ok: bool)
    requires IndexedBy(docs, DocPath, byPath) && DistinctPaths(docs)
    ensures ok <==> forall d :: d in AllDiagnostics(rs) ==> ValidRawDiagnostic(docs, d)
    ensures ok ==> Tallies(counts, AllDiagnostics(rs))
  {
    var good := (d: RawDiagnostic) => d.path in byPath && ValidSeverity(d.severity) && !Blank(d.code) && |d.code| <= 160;
    forall d ensures good(d) == ValidRawDiagnostic(docs, d) { DocLookup(docs, byPath, d.path); }
    counts, ok := TallyAll(AllDiagnostics(rs), good);
  }

  /** Read a tally in whatever order the map yields its keys, then sort. */
  method SortedKinds(tally: map<DiagnosticKind, nat>, ghost ks: seq<DiagnosticKind>) returns (kinds: seq<DiagnosticKind>)
    requires TallyOf(tally, ks) && forall k :: k in ks ==> ValidSeverity(k.severity)
    ensures kinds == Sort(KindBefore, Distinct(ks))
  {
    var left := tally.Keys;
    kinds := [];
    while left != {}
      invariant left <= tally.Keys && multiset(kinds) + multiset(left) == multiset(tally.Keys)
      decreases |left|
    {
      var k :| k in left;
      left, kinds := left - {k}, kinds + [k];
    }
    DistinctElements(ks);
    assert tally.Keys == set k | k in ks;
    KindOrder();
    KindNoTies(ks);
    SortForgetsOrder(KindBefore, Distinct(ks), kinds);
    kinds := Sort(KindBefore, kinds);
  }

  method MapLoop<A, B>(items: seq<A>, f: A -> B) returns (out: seq<B>)
    ensures out == Map(f, items)
  {
    out := [];
    for i := 0 to |items|
      invariant |out| == i && forall k :: 0 <= k < i ==> out[k] == f(items[k])
    {
      out := out + [f(items[i])];
    }
  }

  function TallyReader(tally: map<DiagnosticKind, nat>): DiagnosticKind -> Diagnostic {
    (k: DiagnosticKind) => Diagnostic(k.severity, k.code, if k in tally then tally[k] else 0)
  }

  lemma TallyReads(tally: map<DiagnosticKind, nat>, ks: seq<DiagnosticKind>, kinds: seq<DiagnosticKind>)
    requires TallyOf(tally, ks) && forall k :: k in kinds ==> k in ks
    ensures Map(TallyReader(tally), kinds) == Map(Counter(ks), kinds)
  {
    assert forall i :: 0 <= i < |kinds| ==> kinds[i] in tally;
  }

  method Summarize(tally: map<DiagnosticKind, nat>, ghost ks: seq<DiagnosticKind>) returns (ds: seq<Diagnostic>)
    requires TallyOf(tally, ks) && forall k :: k in ks ==> ValidSeverity(k.severity)
    ensures ds == Summaries(ks)
  {
    var kinds := SortedKinds(tally, ks);
    assert forall k :: k in kinds ==> k in ks by {
      SortPermutes(KindBefore, Distinct(ks));
      DistinctElements(ks);
      forall k | k in kinds ensures k in ks { assert k in multiset(kinds); }
    }
    TallyReads(tally, ks, kinds);
    ds := MapLoop(kinds, TallyReader(tally));
  }

  // ------------------------------------------------------------------ files

  ghost predicate SummariesFor(docs: seq<Document>, ds: seq<RawDiagnostic>, all: seq<seq<Diagnostic>>) {
    |all| == |docs| && forall k :: 0 <= k < |docs| ==> SummaryOf(ds, docs[k], all[k])
  }

  /** Unfolded, like `Diagnosed`, only where a proof mentions `Open`. */
  ghost predicate SummaryOf(ds: seq<RawDiagnostic>, d: Document, summary: seq<Diagnostic>) {
    forall k: int {:trigger Open(k)} :: Open(k) ==> summary == Summaries(KindsAt(ds, d.path))
  }

  ghost predicate Diagnosed(docs: seq<Document>, ds: seq<RawDiagnostic>) {
    forall k: int {:trigger Open(k)} :: Open(k) ==> forall d :: d in ds ==> ValidRawDiagnostic(docs, d)
  }

  method SummarizeOne(docs: seq<Document>, ghost ds: seq<RawDiagnostic>, counts: map<string, map<DiagnosticKind, nat>>,
                      d: Document)
    returns (summary: seq<Diagnostic>)
    requires Tallies(counts, ds) && Diagnosed(docs, ds)
    ensures SummaryOf(ds, d, summary)
  {
    assert Open(0);
    KindsAtValid(docs, ds, d.path);
    assert TallyOf(Inner(counts, d.path), KindsAt(ds, d.path));
    summary := Summarize(Inner(counts, d.path), KindsAt(ds, d.path));
  }

  method SummarizeAll(docs: seq<Document>, ghost ds: seq<RawDiagnostic>, counts: map<string, map<DiagnosticKind, nat>>)
    returns (all: seq<seq<Diagnostic>>)
    requires Tallies(counts, ds) && Diagnosed(docs, ds)
    ensures SummariesFor(docs, ds, all)
  {
    all := [];
    for i := 0 to |docs|
      invariant |all| == i && forall k :: 0 <= k < i ==> SummaryOf(ds, docs[k], all[k])
    {
      var summary := SummarizeOne(docs, ds, counts, docs[i]);
      all := all + [summary];
    }
  }

  function CheckedFile(s: Snapshot, symbols: seq<SymbolCard>): ((Document, seq<Diagnostic>)) -> Outcome<FileCard> {
    (p: (Document, seq<Diagnostic>)) =>
      var f := FileCardFor(s, p.0, Sort(EntityLess, SymbolsOf(symbols, FileIdFor(s, p.0))), p.1);
      if ValidFileCard(f) then Ok(f) else Err
  }

  function Zip<A, B>(a: seq<A>, b: seq<B>): (r: seq<(A, B)>)
    requires |a| == |b|
    ensures |r| == |a| && forall i :: 0 <= i < |a| ==> r[i] == (a[i], b[i])
  {
    if a == [] then [] else [(a[0], b[0])] + Zip(a[1..], b[1..])
  }

  method FillFiles(s: Snapshot, docs: seq<Document>, symbols: seq<SymbolCard>, ghost ds: seq<RawDiagnostic>,
                   counts: map<string, map<DiagnosticKind, nat>>)
    returns (r: Outcome<seq<FileCard>>)
    requires Tallies(counts, ds) && Diagnosed(docs, ds)
    ensures r.Ok? <==> forall f :: f in Map(Filer(s, symbols, ds), docs) ==> ValidFileCard(f)
    ensures r.Ok? ==> r.value == Map(Filer(s, symbols, ds), docs)
  {
    var all := SummarizeAll(docs, ds, counts);
    r := TryMap(Zip(docs, all), CheckedFile(s, symbols));
    CheckedFilesMean(s, docs, symbols, ds, all);
  }

  lemma CheckedFilesMean(s: Snapshot, docs: seq<Document>, symbols: seq<SymbolCard>, ds: seq<RawDiagnostic>,
                         all: seq<seq<Diagnostic>>)
    requires SummariesFor(docs, ds, all)
    ensures var files, pairs := Map(Filer(s, symbols, ds), docs), Zip(docs, all);
      && ((forall f :: f in files ==> ValidFileCard(f)) <==> forall p :: p in pairs ==> CheckedFile(s, symbols)(p).Ok?)
      && forall i :: 0 <= i < |pairs| && CheckedFile(s, symbols)(pairs[i]).Ok? ==>
           CheckedFile(s, symbols)(pairs[i]).value == files[i]
  {
    var files, pairs := Map(Filer(s, symbols, ds), docs), Zip(docs, all);
    forall i | 0 <= i < |docs|
      ensures CheckedFile(s, symbols)(pairs[i]) == if ValidFileCard(files[i]) then Ok(files[i]) else Err {
      assert Open(0) && SummaryOf(ds, docs[i], all[i]);
    }
    CheckedAll(pairs, CheckedFile(s, symbols), files, ValidFileCard);
  }

  lemma CheckedAll<A, B>(items: seq<A>, check: A -> Outcome<B>, out: seq<B>, valid: B -> bool)
    requires |items| == |out|
    requires forall i :: 0 <= i < |items| ==> check(items[i]) == if valid(out[i]) then Ok(out[i]) else Err
    ensures (forall y :: y in out ==> valid(y)) <==> (forall x :: x in items ==> check(x).Ok?)
    ensures forall i :: 0 <= i < |items| && check(items[i]).Ok? ==> check(items[i]).value == out[i]
  {
    if y :| y in out && !valid(y) {
      var i :| 0 <= i < |out| && out[i] == y;
      assert items[i] in items;
    }
    if x :| x in items && check(x).Err? {
      var i :| 0 <= i < |items| && items[i] == x;
      assert out[i] in out;
    }
  }

  // -------------------------------------------------------------- relations

  /** `bindRelation`, looking documents and symbols up in the maps. */
  function BindRelation(evidence: RawRelation -> string, s: Snapshot, byPath: map<string, Document>,
                        keys: map<string, EntityId>, t: Tagged<RawRelation>): Outcome<RelationEvidence> {
    var raw := t.raw;
    if raw.sourcePath !in byPath || !RangeWithin(raw.locator, |byPath[raw.sourcePath].body|) then Err
    else
      var file := FileIdFor(s, byPath[raw.sourcePath]);
      if raw.sourceKey.Some? && raw.sourceKey.value !in keys then Err
      else
        var source := if raw.sourceKey.Some? then keys[raw.sourceKey.value] else file;
        if raw.sourceKey.Some? && !(source.SymbolId? && source.file == file) then Err
        else if raw.targetKey.Some? && raw.targetKey.value !in keys then Err
        else if raw.targetPath.Some? && raw.targetPath.value !in byPath then Err
        else if TargetCount(raw) > 1 || (TargetCount(raw) == 1 && raw.unresolvedName.Some?)
                || (TargetCount(raw) == 0 && raw.unresolvedName.None?) then Err
        else
          var target := if raw.externalName.Some? then Some(ExternalId(raw.externalName.value))
                        else if raw.targetPath.Some? then Some(FileIdFor(s, byPath[raw.targetPath.value]))
                        else if raw.targetKey.Some? then Some(keys[raw.targetKey.value]) else None;
          var r := MakeRelation(s.snapshotId, source, raw.kind, target, raw.unresolvedName, raw.evidenceClass, file,
                     raw.locator, evidence(raw), t.adapter);
          if ValidRelation(r) then Ok(r) else Err
  }

  lemma BindRelationMeans(evidence: RawRelation -> string, s: Snapshot, docs: seq<Document>,
                          byPath: map<string, Document>, keys: map<string, EntityId>, t: Tagged<RawRelation>)
    requires IndexedBy(docs, DocPath, byPath) && DistinctPaths(docs)
    ensures BindRelation(evidence, s, byPath, keys, t)
            == if Bindable(s, docs, keys, t.raw) && ValidRelation(RelationOf(evidence, s, docs, keys, t))
               then Ok(RelationOf(evidence, s, docs, keys, t)) else Err
  {
    DocLookup(docs, byPath, t.raw.sourcePath);
    if t.raw.targetPath.Some? { DocLookup(docs, byPath, t.raw.targetPath.value); }
  }

  method BindRelations(evidence: RawRelation -> string, s: Snapshot, docs: seq<Document>,
                       byPath: map<string, Document>, keys: map<string, EntityId>, raws: seq<Tagged<RawRelation>>)
    returns (r: Outcome<seq<RelationEvidence>>)
    requires IndexedBy(docs, DocPath, byPath) && DistinctPaths(docs)
    ensures r.Ok? <==> forall t :: t in raws ==>
              Bindable(s, docs, keys, t.raw) && ValidRelation(RelationOf(evidence, s, docs, keys, t))
    ensures r.Ok? ==> r.value == Map(Binder(evidence, s, docs, keys), raws)
  {
    var bind := (t: Tagged<RawRelation>) => BindRelation(evidence, s, byPath, keys, t);
    r := TryMap(raws, bind);
    forall t ensures bind(t).Ok? <==>
        Bindable(s, docs, keys, t.raw) && ValidRelation(RelationOf(evidence, s, docs, keys, t))
      ensures bind(t).Ok? ==> bind(t).value == Binder(evidence, s, docs, keys)(t) {
      BindRelationMeans(evidence, s, docs, byPath, keys, t);
    }
  }

  /** Once sorted, equal keys stand next to each other. */
  lemma SortedApart<T(!new), K(!new)>(less: (T, T) -> bool, key: T -> K, s: seq<T>)
    requires WeakOrder(less) && Sorted(less, s)
    requires forall x, y :: key(x) != key(y) <==> less(x, y) || less(y, x)
    ensures DistinctBy(s, key) <==> forall k :: 0 < k < |s| ==> key(s[k]) != key(s[k-1])
  {
    if forall k :: 0 < k < |s| ==> key(s[k]) != key(s[k-1]) {
      forall i, j | 0 <= i < j < |s| ensures key(s[i]) != key(s[j]) {
        assert less(s[i], s[i+1]) && (i + 1 == j || !less(s[j], s[i+1]));
      }
    }
  }

  lemma RelationKeyOrder()
    ensures WeakOrder(RelationLess)
    ensures forall x, y :: RelationIdOf(x) != RelationIdOf(y) <==> RelationLess(x, y) || RelationLess(y, x)
  {
    RelationIdOrder();
  }

  lemma NeighboursSuffice(sorted: seq<RelationEvidence>)
    requires Sorted(RelationLess, sorted)
    ensures NeighboursApart(sorted) <==> DistinctBy(sorted, RelationIdOf)
  {
    RelationKeyOrder();
    SortedApart(RelationLess, RelationIdOf, sorted);
  }

  ghost predicate NeighboursApart(sorted: seq<RelationEvidence>) {
    forall k :: 0 < k < |sorted| ==> RelationIdOf(sorted[k]) != RelationIdOf(sorted[k-1])
  }

  method CompareNeighbours(sorted: seq<RelationEvidence>) returns (ok: bool)
    ensures ok <==> NeighboursApart(sorted)
  {
    var i := 1;
    while i < |sorted|
      invariant forall k :: 0 < k < i && k < |sorted| ==> sorted[k].relationId != sorted[k-1].relationId
    {
      if sorted[i].relationId == sorted[i-1].relationId { return false; }
      i := i + 1;
    }
    ok := true;
  }

  /** Neighbours suffice: equal identifiers are adjacent once sorted. */
  method AdjacentDistinct(sorted: seq<RelationEvidence>) returns (ok: bool)
    requires Sorted(RelationLess, sorted)
    ensures ok <==> DistinctBy(sorted, RelationIdOf)
  {
    ok := CompareNeighbours(sorted);
    NeighboursSuffice(sorted);
  }

  method NormalizeResults(evidence: RawRelation -> string, s: Snapshot, docs: seq<Document>, results: seq<RawResult>)
    returns (r: Outcome<Bundle>)
    ensures r == Normalized(evidence, s, docs, results)
  {
    if !ValidSnapshot(s) { return Err; }
    var byPath, pathsOk := IndexDocuments(docs);
    if !pathsOk { return Err; }
    var rs, matched := MatchResults(s, results);
    if !matched { return Err; }
    r := Assemble(evidence, s, docs, byPath, rs);
  }

  method Assemble(evidence: RawRelation -> string, s: Snapshot, docs: seq<Document>, byPath: map<string, Document>,
                  rs: seq<RawResult>)
    returns (r: Outcome<Bundle>)
    requires IndexedBy(docs, DocPath, byPath) && DistinctPaths(docs)
    ensures r == if Accepted(evidence, s, docs, rs) then Ok(BundleOf(evidence, s, docs, rs)) else Err
  {
    var front := AssembleFront(s, docs, byPath, rs);
    if front.Err? { return Err; }
    var relations := FinishRelations(evidence, s, docs, byPath, front.value.keys, front.value.sorted, rs);
    if relations.Err? { return Err; }
    return Ok(WithCounts(s, front.value.files, front.value.symbols, relations.value));
  }

  datatype Front = Front(sorted: seq<Tagged<RawSymbol>>, keys: map<string, EntityId>, symbols: seq<SymbolCard>,
                         files: seq<FileCard>)

  ghost predicate FrontAccepted(s: Snapshot, docs: seq<Document>, rs: seq<RawResult>) {
    && SymbolsAccepted(s, docs, rs)
    && (forall d :: d in AllDiagnostics(rs) ==> ValidRawDiagnostic(docs, d))
    && (forall f :: f in Files(s, docs, rs) ==> ValidFileCard(f))
  }

  ghost function FrontOf(s: Snapshot, docs: seq<Document>, rs: seq<RawResult>): Front {
    Front(SortedSymbols(rs), Keys(s, docs, rs), Symbols(s, docs, rs), Files(s, docs, rs))
  }

  /** Everything before the relations: symbols, diagnostics, keys and files. */
  method AssembleFront(s: Snapshot, docs: seq<Document>, byPath: map<string, Document>, rs: seq<RawResult>)
    returns (r: Outcome<Front>)
    requires IndexedBy(docs, DocPath, byPath) && DistinctPaths(docs)
    ensures r == if FrontAccepted(s, docs, rs) then Ok(FrontOf(s, docs, rs)) else Err
  {
    r := Err;
    var scoped := BindSymbols(s, docs, byPath, rs);
    var counts, tallied := TallyDiagnostics(docs, byPath, rs);
    var sorted, keys, symbols, keyed := KeySymbols(s, docs, rs, TaggedSymbols(rs));
    if scoped && tallied && keyed {
      var files := FillFiles(s, docs, symbols, AllDiagnostics(rs), counts);
      if files.Ok? { r := Ok(Front(sorted, keys, symbols, files.value)); }
    }
  }

  function TagKey(t: Tagged<RawSymbol>): string { t.raw.key }

  /** Index the sorted symbols by key, refusing blank and repeated keys. */
  method KeySymbols(s: Snapshot, docs: seq<Document>, ghost rs: seq<RawResult>, bound: seq<Tagged<RawSymbol>>)
    returns (sorted: seq<Tagged<RawSymbol>>, keys: map<string, EntityId>, symbols: seq<SymbolCard>, ok: bool)
    requires bound == TaggedSymbols(rs)
    ensures ok <==> DistinctKeys(bound) && forall t :: t in bound ==> !Blank(t.raw.key)
    ensures ok ==> sorted == SortedSymbols(rs) && keys == Keys(s, docs, rs) && symbols == Symbols(s, docs, rs)
  {
    sorted, keys, symbols := Sort(SymbolBefore, bound), map[], [];
    var byKey, collected := Collect(sorted, (t: Tagged<RawSymbol>) => !Blank(t.raw.key), TagKey);
    KeysCheckedAfterSorting(bound);
    ok := collected;
    if ok {
      symbols := MapLoop(sorted, Carder(s, docs));
      keys := IndexKeys(sorted, Carder(s, docs));
    }
  }

  method IndexKeys(sorted: seq<Tagged<RawSymbol>>, card: Tagged<RawSymbol> -> SymbolCard)
    returns (keys: map<string, EntityId>)
    ensures keys == KeyMap(card, sorted)
  {
    keys := map[];
    for i := 0 to |sorted|
      invariant keys == KeyMap(card, sorted[..i])
    {
      keys := keys[sorted[i].raw.key := card(sorted[i]).symbolId];
      assert sorted[..i+1][..i] == sorted[..i];
    }
    assert sorted[..|sorted|] == sorted;
  }

  lemma KeysCheckedAfterSorting(bound: seq<Tagged<RawSymbol>>)
    ensures var sorted := Sort(SymbolBefore, bound);
      (DistinctBy(sorted, TagKey) && forall t :: t in sorted ==> !Blank(t.raw.key))
      <==> (DistinctKeys(bound) && forall t :: t in bound ==> !Blank(t.raw.key))
  {
    var sorted := Sort(SymbolBefore, bound);
    SortPermutes(SymbolBefore, bound);
    forall t ensures t in sorted <==> t in bound { MemberPermutes(sorted, bound, t); }
    assert DistinctBy(bound, TagKey) <==> DistinctKeys(bound) by { assert forall t :: TagKey(t) == t.raw.key; }
    if DistinctBy(sorted, TagKey) { DistinctByPermutes(TagKey, sorted, bound); }
    if DistinctBy(bound, TagKey) { DistinctByPermutes(TagKey, bound, sorted); }
  }

  method FinishRelations(evidence: RawRelation -> string, s: Snapshot, docs: seq<Document>,
                         byPath: map<string, Document>, keys: map<string, EntityId>, sorted: seq<Tagged<RawSymbol>>,
                         rs: seq<RawResult>)
    returns (r: Outcome<seq<RelationEvidence>>)
    requires IndexedBy(docs, DocPath, byPath) && DistinctPaths(docs)
    requires sorted == SortedSymbols(rs) && keys == Keys(s, docs, rs)
    ensures r.Ok? <==> RelationsAccepted(evidence, s, docs, rs)
    ensures r.Ok? ==> r.value == Sort(RelationLess, UnsortedRelations(evidence, s, docs, rs))
  {
    var bound := BindRelations(evidence, s, docs, byPath, keys, RawRelations(rs));
    if bound.Err? { return Err; }
    assert bound.value == UnsortedRelations(evidence, s, docs, rs);
    var distinct, relations := SortDistinct(bound.value);
    r := if distinct then Ok(relations) else Err;
  }

  method SortDistinct(unsorted: seq<RelationEvidence>) returns (distinct: bool, relations: seq<RelationEvidence>)
    ensures relations == Sort(RelationLess, unsorted)
    ensures distinct <==> DistinctBy(unsorted, RelationIdOf)
  {
    relations := Sort(RelationLess, unsorted);
    CardOrders();
    SortSorts(RelationLess, unsorted);
    SortPermutes(RelationLess, unsorted);
    distinct := AdjacentDistinct(relations);
    if distinct { DistinctByPermutes(RelationIdOf, relations, unsorted); }
    if DistinctBy(unsorted, RelationIdOf) { DistinctByPermutes(RelationIdOf, unsorted, relations); }
  }
}
