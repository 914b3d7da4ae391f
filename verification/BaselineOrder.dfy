/** Rebinding reads the baseline's cards but never their order, so a baseline
    read back from storage in any order gives the same result. */
module BaselineOrder {
  import opened Ordering
  import opened Seqs
  import opened Cards
  import opened Bundles
  import opened NormalizationProofs
  import opened Reuse

  lemma {:induction false} FileAtOf(files: seq<FileCard>, f: FileCard)
    requires DistinctBy(files, PathOf) && f in files
    ensures FileAt(files, f.path) == Some(f)
  {
    if files[0] != f {
      var i :| 0 <= i < |files| && files[i] == f;
      assert PathOf(files[0]) != PathOf(files[i]);
      assert DistinctBy(files[1..], PathOf) by {
        forall i, j | 0 <= i < j < |files[1..]| ensures PathOf(files[1..][i]) != PathOf(files[1..][j]) {
          assert PathOf(files[i+1]) != PathOf(files[j+1]);
        }
      }
      FileAtOf(files[1..], f);
    }
  }

  lemma {:induction false} FileAtNone(files: seq<FileCard>, path: string)
    requires FileAt(files, path).None?
    ensures forall f :: f in files ==> f.path != path
  {
    if files != [] { FileAtNone(files[1..], path); }
  }

  lemma {:induction false} FileAtSome(files: seq<FileCard>, path: string)
    requires FileAt(files, path).Some?
    ensures FileAt(files, path).value in files && FileAt(files, path).value.path == path
  {
    if files[0].path != path { FileAtSome(files[1..], path); }
  }

  lemma FileAtIgnoresOrder(a: seq<FileCard>, b: seq<FileCard>, path: string)
    requires DistinctBy(a, PathOf) && multiset(a) == multiset(b)
    ensures FileAt(a, path) == FileAt(b, path)
  {
    if FileAt(b, path).Some? {
      FileAtSome(b, path);
      MemberPermutes(a, b, FileAt(b, path).value);
      FileAtOf(a, FileAt(b, path).value);
    } else if FileAt(a, path).Some? {
      FileAtSome(a, path);
      FileAtNone(b, path);
      MemberPermutes(a, b, FileAt(a, path).value);
    }
  }

  lemma BuildMapIgnoresOrder<T>(a: seq<T>, b: seq<T>, key: T -> EntityId, value: T -> Option<EntityId>)
    requires DistinctBy(a, key) && DistinctBy(b, key) && multiset(a) == multiset(b)
    ensures BuildMap(a, key, value) == BuildMap(b, key, value)
  {
    var m, n := BuildMap(a, key, value), BuildMap(b, key, value);
    forall k ensures k in m <==> k in n {
      BuildMapDomain(a, key, value, k);
      BuildMapDomain(b, key, value, k);
      if x :| x in a && key(x) == k && value(x).Some? { MemberPermutes(a, b, x); }
      if x :| x in b && key(x) == k && value(x).Some? { MemberPermutes(a, b, x); }
    }
    forall k | k in m ensures m[k] == n[k] {
      BuildMapDomain(a, key, value, k);
      var x :| x in a && key(x) == k && value(x).Some?;
      MemberPermutes(a, b, x);
      var i :| 0 <= i < |a| && a[i] == x;
      var j :| 0 <= j < |b| && b[j] == x;
      BuildMapAt(a, key, value, i);
      BuildMapAt(b, key, value, j);
    }
  }

  /** Two listings of one valid baseline. */
  ghost predicate Relisted(a: Bundle, b: Bundle) {
    && SameCards(a, b)
    && DistinctBy(a.files, FileIdOf) && DistinctBy(b.files, FileIdOf)
    && DistinctBy(a.files, PathOf) && DistinctBy(b.files, PathOf)
    && DistinctBy(a.symbols, SymbolIdOf) && DistinctBy(b.symbols, SymbolIdOf)
  }

  lemma ValidRelisted(a: Bundle, b: Bundle)
    requires SameCards(a, b) && BundleValid(a)
    ensures Relisted(a, b) && Relisted(b, a)
  {
    assert forall i, j :: 0 <= i < j < |a.files| ==> FileIdOf(a.files[i]) != FileIdOf(a.files[j]) && PathOf(a.files[i]) != PathOf(a.files[j]);
    assert forall i, j :: 0 <= i < j < |a.symbols| ==> SymbolIdOf(a.symbols[i]) != SymbolIdOf(a.symbols[j]);
    DistinctByPermutes(FileIdOf, a.files, b.files);
    DistinctByPermutes(PathOf, a.files, b.files);
    DistinctByPermutes(SymbolIdOf, a.symbols, b.symbols);
  }

  lemma MapsIgnoreOrder(target: Bundle, a: Bundle, b: Bundle, descs: seq<AdapterDescriptor>)
    requires Relisted(a, b)
    ensures FileMap(target, a) == FileMap(target, b)
    ensures EntityMap(target, a, descs) == EntityMap(target, b, descs)
  {
    BuildMapIgnoresOrder(a.files, b.files, FileIdOf, Counterpart(target.files));
    BuildMapIgnoresOrder(a.symbols, b.symbols, SymbolIdOf, ByLineage(target.symbols));
    BuildMapIgnoresOrder(a.symbols, b.symbols, SymbolIdOf, CarriedId(target, FileMap(target, a), descs));
  }

  lemma CarriedIgnoreOrder(target: Bundle, a: Bundle, b: Bundle, descs: seq<AdapterDescriptor>)
    requires Relisted(a, b)
    ensures multiset(CarriedSymbols(target, a, descs)) == multiset(CarriedSymbols(target, b, descs))
    ensures multiset(ReusedRelations(a, descs)) == multiset(ReusedRelations(b, descs))
    ensures multiset(CarriedRelations(target, a, descs)) == multiset(CarriedRelations(target, b, descs))
  {
    MapsIgnoreOrder(target, a, b, descs);
    var files := FileMap(target, a);
    FilterPermutes(IsCarried(target, files, descs), a.symbols, b.symbols);
    MapPermutes(Rebaser(target, files, descs), Filter(IsCarried(target, files, descs), a.symbols),
      Filter(IsCarried(target, files, descs), b.symbols));
    FilterPermutes(FromReused(descs), a.relations, b.relations);
    MapPermutes(RelationMover(target.snapshot, EntityMap(target, a, descs)), ReusedRelations(a, descs), ReusedRelations(b, descs));
  }

  lemma DiagnosticsAgree(a: Bundle, b: Bundle, descs: seq<AdapterDescriptor>, f: FileCard)
    requires FileAt(a.files, f.path) == FileAt(b.files, f.path)
    ensures WithCarriedDiagnostics(a, descs, f) == WithCarriedDiagnostics(b, descs, f)
  {}

  lemma MoversAgree(a: Bundle, b: Bundle, descs: seq<AdapterDescriptor>, symbols: seq<SymbolCard>, files: seq<FileCard>)
    requires DistinctBy(a.files, PathOf) && multiset(a.files) == multiset(b.files)
    ensures Map(FileMover(a, descs, symbols), files) == Map(FileMover(b, descs, symbols), files)
  {
    var m, n := FileMover(a, descs, symbols), FileMover(b, descs, symbols);
    forall f | f in files ensures m(f) == n(f) {
      FileAtIgnoresOrder(a.files, b.files, f.path);
      DiagnosticsAgree(a, b, descs, f);
    }
    MapSame(m, n, files);
  }

  function JoinedSymbols(target: Bundle, baseline: Bundle, descs: seq<AdapterDescriptor>): seq<SymbolCard> {
    target.symbols + CarriedSymbols(target, baseline, descs)
  }

  function JoinedRelations(target: Bundle, baseline: Bundle, descs: seq<AdapterDescriptor>): seq<RelationEvidence> {
    target.relations + CarriedRelations(target, baseline, descs)
  }

  lemma ValidHasNoTies(b: Bundle)
    requires BundleValid(b)
    ensures NoTies(SymbolCardLess, b.symbols) && NoTies(RelationLess, b.relations)
  {
    EntityOrder();
    RelationIdOrder();
    var s, r := b.symbols, b.relations;
    assert forall i, j :: 0 <= i < j < |s| ==> s[i].symbolId != s[j].symbolId;
    assert forall i, j :: 0 <= i < j < |r| ==> r[i].relationId != r[j].relationId;
  }

  lemma ReboundNoTies(target: Bundle, a: Bundle, descs: seq<AdapterDescriptor>)
    requires BundleValid(ReboundBundle(target, a, descs))
    ensures NoTies(SymbolCardLess, JoinedSymbols(target, a, descs)) && NoTies(RelationLess, JoinedRelations(target, a, descs))
  {
    var r, x, y := ReboundBundle(target, a, descs), JoinedSymbols(target, a, descs), JoinedRelations(target, a, descs);
    assert r.symbols == Sort(SymbolCardLess, x) && r.relations == Sort(RelationLess, y);
    ValidHasNoTies(r);
    CardOrders();
    SortPermutes(SymbolCardLess, x);
    SortPermutes(RelationLess, y);
    NoTiesTransfers(SymbolCardLess, r.symbols, x);
    NoTiesTransfers(RelationLess, r.relations, y);
  }

  lemma ReboundBundleIgnoresOrder(target: Bundle, a: Bundle, b: Bundle, descs: seq<AdapterDescriptor>)
    requires Relisted(a, b) && BundleValid(ReboundBundle(target, a, descs))
    ensures ReboundBundle(target, b, descs) == ReboundBundle(target, a, descs)
  {
    CarriedIgnoreOrder(target, a, b, descs);
    ReboundNoTies(target, a, descs);
    CardOrders();
    SortForgetsOrder(SymbolCardLess, JoinedSymbols(target, a, descs), JoinedSymbols(target, b, descs));
    SortForgetsOrder(RelationLess, JoinedRelations(target, a, descs), JoinedRelations(target, b, descs));
    MoversAgree(a, b, descs, Sort(SymbolCardLess, JoinedSymbols(target, a, descs)), target.files);
  }

  lemma ChecksIgnoreOrder(target: Bundle, a: Bundle, b: Bundle, descs: seq<AdapterDescriptor>)
    requires Relisted(a, b)
    requires CarriedFilesExact(target, a, descs) && CarriedSymbolsValid(target, a, descs) && CarriedRelationsValid(target, a, descs)
    ensures CarriedFilesExact(target, b, descs) && CarriedSymbolsValid(target, b, descs) && CarriedRelationsValid(target, b, descs)
  {
    CarriedIgnoreOrder(target, a, b, descs);
    MapsIgnoreOrder(target, a, b, descs);
    forall f | f in b.files && OwnsLanguage(descs, f.language) ensures FileExact(target, f) { MemberPermutes(a.files, b.files, f); }
    forall x | x in CarriedSymbols(target, b, descs) ensures ValidSymbolCard(x) {
      MemberPermutes(CarriedSymbols(target, a, descs), CarriedSymbols(target, b, descs), x);
    }
    var m := EntityMap(target, b, descs);
    forall r | r in ReusedRelations(b, descs) ensures RelationMapped(m, r) && ValidRelation(RebasedRelation(target.snapshot, m, r)) {
      MemberPermutes(ReusedRelations(a, descs), ReusedRelations(b, descs), r);
    }
  }

  lemma RebindableIgnoresOrder(target: Bundle, a: Bundle, b: Bundle, descs: seq<AdapterDescriptor>)
    requires Relisted(a, b) && Rebindable(target, a, descs)
    ensures Rebindable(target, b, descs) && ReboundBundle(target, b, descs) == ReboundBundle(target, a, descs)
  {
    ReboundBundleIgnoresOrder(target, a, b, descs);
    ChecksIgnoreOrder(target, a, b, descs);
  }

  lemma RelistedRebound(target: Bundle, a: Bundle, b: Bundle, descs: seq<AdapterDescriptor>)
    requires Relisted(a, b) && Relisted(b, a)
    ensures Rebindable(target, a, descs) <==> Rebindable(target, b, descs)
    ensures Rebindable(target, a, descs) ==> ReboundBundle(target, b, descs) == ReboundBundle(target, a, descs)
  {
    if Rebindable(target, a, descs) {
      RebindableIgnoresOrder(target, a, b, descs);
    } else if Rebindable(target, b, descs) {
      RebindableIgnoresOrder(target, b, a, descs);
    }
  }

  lemma ReboundDecided(target: Bundle, a: Bundle, b: Bundle, descs: seq<AdapterDescriptor>)
    requires BundleValid(a) <==> BundleValid(b)
    requires Rebindable(target, a, descs) <==> Rebindable(target, b, descs)
    requires Rebindable(target, a, descs) ==> ReboundBundle(target, b, descs) == ReboundBundle(target, a, descs)
    ensures Rebound(target, a, descs) == Rebound(target, b, descs)
  {}

  /** Rebinding gives the same bundle whatever order the baseline's cards come in. */
  lemma ReboundIgnoresBaselineOrder(target: Bundle, a: Bundle, b: Bundle, descs: seq<AdapterDescriptor>)
    requires BundleValid(a) && BundleValid(b) && SameCards(a, b)
    ensures Rebound(target, a, descs) == Rebound(target, b, descs)
  {
    ValidRelisted(a, b);
    RelistedRebound(target, a, b, descs);
    ReboundDecided(target, a, b, descs);
  }
}
