/** The loops of `RebindReusableAdapters`, proved to compute `Rebound`. */
module RebindLoops {
  import opened Ordering
  import opened Seqs
  import opened Cards
  import opened Bundles
  import opened Reuse

  /** The loops that fill `entityMap`. */
  method FillMap<T>(items: seq<T>, key: T -> EntityId, value: T -> Option<EntityId>) returns (m: map<EntityId, EntityId>)
    ensures m == BuildMap(items, key, value)
  {
    m := map[];
    for i := 0 to |items|
      invariant m == BuildMap(items[..i], key, value)
    {
      var v := value(items[i]);
      if v.Some? { m := m[key(items[i]) := v.value]; }
      assert items[..i+1][..i] == items[..i];
    }
    assert items[..|items|] == items;
  }

  /** Walk a list, convert the items that qualify, stop at one that is refused. */
  method CarryItems<A, B>(items: seq<A>, keep: A -> bool, convert: A -> B, accept: A -> bool)
    returns (out: seq<B>, ok: bool)
    ensures ok <==> forall x :: x in Filter(keep, items) ==> accept(x)
    ensures ok ==> out == Map(convert, Filter(keep, items))
  {
    out, ok := [], true;
    for i := 0 to |items|
      invariant ok && out == Map(convert, Filter(keep, items[..i]))
      invariant forall x :: x in Filter(keep, items[..i]) ==> accept(x)
    {
      assert items[..i+1] == items[..i] + [items[i]];
      FilterAppend(keep, items[..i], [items[i]]);
      if keep(items[i]) {
        if !accept(items[i]) {
          FilterMember(keep, items, items[i]);
          return out, false;
        }
        out := out + [convert(items[i])];
        assert Filter(keep, items[..i+1]) == Filter(keep, items[..i]) + [items[i]];
      } else {
        assert Filter(keep, items[..i+1]) == Filter(keep, items[..i]);
      }
    }
    assert items[..|items|] == items;
  }

  method All<A>(items: seq<A>, accept: A -> bool) returns (ok: bool)
    ensures ok <==> forall x :: x in items ==> accept(x)
  {
    for i := 0 to |items|
      invariant forall k :: 0 <= k < i ==> accept(items[k])
    {
      if !accept(items[i]) { return false; }
    }
    ok := true;
  }

  method CheckFiles(target: Bundle, baseline: Bundle, descs: seq<AdapterDescriptor>) returns (ok: bool)
    ensures ok <==> CarriedFilesExact(target, baseline, descs)
  {
    var accept := (f: FileCard) => !OwnsLanguage(descs, f.language) || FileExact(target, f);
    ok := All(baseline.files, accept);
    assert ok <==> forall f :: f in baseline.files ==> accept(f);
  }

  method CarrySymbols(target: Bundle, baseline: Bundle, descs: seq<AdapterDescriptor>, files: map<EntityId, EntityId>)
    returns (symbols: seq<SymbolCard>, ok: bool)
    requires files == FileMap(target, baseline)
    ensures ok <==> CarriedSymbolsValid(target, baseline, descs)
    ensures ok ==> symbols == CarriedSymbols(target, baseline, descs)
  {
    var keep, convert := IsCarried(target, files, descs), Rebaser(target, files, descs);
    var accept := (x: SymbolCard) => ValidSymbolCard(convert(x));
    symbols, ok := CarryItems(baseline.symbols, keep, convert, accept);
    ImageAccepted(Filter(keep, baseline.symbols), convert, ValidSymbolCard);
    assert (forall x :: x in Filter(keep, baseline.symbols) ==> accept(x))
      <==> forall x :: x in Filter(keep, baseline.symbols) ==> ValidSymbolCard(convert(x));
  }

  lemma ImageAccepted<A, B>(s: seq<A>, f: A -> B, valid: B -> bool)
    ensures (forall y :: y in Map(f, s) ==> valid(y)) <==> (forall x :: x in s ==> valid(f(x)))
  {
    if forall y :: y in Map(f, s) ==> valid(y) {
      forall x | x in s ensures valid(f(x)) {
        var i :| 0 <= i < |s| && s[i] == x;
        assert Map(f, s)[i] in Map(f, s);
      }
    } else {
      var y :| y in Map(f, s) && !valid(y);
      MapMember(f, s, y);
    }
  }

  method CarryRelations(target: Bundle, baseline: Bundle, descs: seq<AdapterDescriptor>, m: map<EntityId, EntityId>)
    returns (relations: seq<RelationEvidence>, ok: bool)
    requires m == EntityMap(target, baseline, descs)
    ensures ok <==> CarriedRelationsValid(target, baseline, descs)
    ensures ok ==> relations == CarriedRelations(target, baseline, descs)
  {
    var s := target.snapshot;
    var accept := (r: RelationEvidence) => RelationMapped(m, r) && ValidRelation(RebasedRelation(s, m, r));
    relations, ok := CarryItems(baseline.relations, FromReused(descs), RelationMover(s, m), accept);
    assert (forall r :: r in ReusedRelations(baseline, descs) ==> accept(r))
      <==> forall r :: r in ReusedRelations(baseline, descs) ==>
             RelationMapped(m, r) && ValidRelation(RebasedRelation(s, m, r));
  }

  /** Sort, rebuild the symbol lists of every file, and recount. */
  method Finish(target: Bundle, baseline: Bundle, descs: seq<AdapterDescriptor>, carried: seq<SymbolCard>,
                moved: seq<RelationEvidence>)
    returns (b: Bundle)
    requires carried == CarriedSymbols(target, baseline, descs) && moved == CarriedRelations(target, baseline, descs)
    ensures b == ReboundBundle(target, baseline, descs)
  {
    var symbols := Sort(SymbolCardLess, target.symbols + carried);
    var relations := Sort(RelationLess, target.relations + moved);
    var files, _ := CarryItems(target.files, (f: FileCard) => true, FileMover(baseline, descs, symbols), (f: FileCard) => true);
    FilterAll((f: FileCard) => true, target.files);
    var total := 0;
    for i := 0 to |files|
      invariant total + DiagnosticTotal(files[i..]) == DiagnosticTotal(files)
    {
      total := total + Total(files[i].diagnostics);
      assert files[i..][1..] == files[i+1..];
    }
    b := Bundle(target.snapshot.(counts := Counts(|files|, |symbols|, |relations|, total)), files, symbols, relations);
  }

  method RebindReusableAdapters(target: Bundle, baseline: Bundle, descs: seq<AdapterDescriptor>)
    returns (r: Outcome<Bundle>)
    ensures r == Rebound(target, baseline, descs)
  {
    var targetOk := ValidateBundle(target);
    if !targetOk { return Err; }
    if descs == [] { return Ok(target); }
    var baselineOk := ValidateBundle(baseline);
    if !baselineOk { return Err; }
    r := Rebind(target, baseline, descs);
  }

  method Rebind(target: Bundle, baseline: Bundle, descs: seq<AdapterDescriptor>) returns (r: Outcome<Bundle>)
    ensures r == if Rebindable(target, baseline, descs) then Ok(ReboundBundle(target, baseline, descs)) else Err
  {
    r := Err;
    var authorized := All(descs, (d: AdapterDescriptor) => d in target.snapshot.adapters);
    var exact := CheckFiles(target, baseline, descs);
    var files := FillMap(baseline.files, FileIdOf, Counterpart(target.files));
    var lineages := FillMap(baseline.symbols, SymbolIdOf, ByLineage(target.symbols));
    var owned := FillMap(baseline.symbols, SymbolIdOf, CarriedId(target, files, descs));
    var carried, symbolsOk := CarrySymbols(target, baseline, descs, files);
    var moved, relationsOk := CarryRelations(target, baseline, descs, files + lineages + owned);
    if authorized && exact && symbolsOk && relationsOk {
      var b := Finish(target, baseline, descs, carried, moved);
      var valid := ValidateBundle(b);
      if valid { r := Ok(b); }
    }
  }
}
