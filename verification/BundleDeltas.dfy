/** `ComputeBundleDeltas`: the delta list between two bundles. */
module BundleDeltas {
  import opened Identity
  import opened Ordering
  import opened Seqs
  import opened Cards
  import opened Bundles
  import opened Deltas
  import opened LineageComparison
  import opened Renames
  import Normalization
  import NormalizationProofs
  import Reuse
  import Invalidation

  // ------------------------------------------------------- cards to compare

  /** Go's `%v` of a source range: `{{line column offset} {line column offset}}`. */
  function RangeText(r: SourceRange): string {
    "{{" + (FormatInt(r.start.line) + " " + (FormatInt(r.start.column) + " " + (FormatInt(r.start.offset) + "}" + (" {" + EndText(r)))))
  }

  function EndText(r: SourceRange): string {
    FormatInt(r.end.line) + " " + (FormatInt(r.end.column) + " " + (FormatInt(r.end.offset) + "}" + "}"))
  }

  lemma IntRecovered(n: int, m: int, mark: char, x: string, y: string)
    requires mark in " }" && FormatInt(n) + [mark] + x == FormatInt(m) + [mark] + y
    ensures n == m && x == y
  {
    FieldRecovered(FormatInt(n), FormatInt(m), mark, x, y);
    FormatIntInjective(n, m);
  }

  lemma EndTextInjective(r: SourceRange, s: SourceRange)
    requires EndText(r) == EndText(s)
    ensures r.end == s.end
  {
    var x, y := FormatInt(r.end.offset) + "}" + "}", FormatInt(s.end.offset) + "}" + "}";
    IntRecovered(r.end.line, s.end.line, ' ', FormatInt(r.end.column) + " " + x, FormatInt(s.end.column) + " " + y);
    IntRecovered(r.end.column, s.end.column, ' ', x, y);
    IntRecovered(r.end.offset, s.end.offset, '}', "}", "}");
  }

  lemma RangeTextInjective(r: SourceRange, s: SourceRange)
    requires RangeText(r) == RangeText(s)
    ensures r == s
  {
    var x, y := FormatInt(r.start.offset) + "}" + (" {" + EndText(r)), FormatInt(s.start.offset) + "}" + (" {" + EndText(s));
    var z, w := FormatInt(r.start.column) + " " + x, FormatInt(s.start.column) + " " + y;
    assert RangeText(r)[2..] == FormatInt(r.start.line) + " " + z && RangeText(s)[2..] == FormatInt(s.start.line) + " " + w;
    IntRecovered(r.start.line, s.start.line, ' ', z, w);
    IntRecovered(r.start.column, s.start.column, ' ', x, y);
    IntRecovered(r.start.offset, s.start.offset, '}', " {" + EndText(r), " {" + EndText(s));
    assert (" {" + EndText(r))[2..] == EndText(r) && (" {" + EndText(s))[2..] == EndText(s);
    EndTextInjective(r, s);
  }

  /** Go's `%t`. */
  function BoolText(b: bool): string { if b then "true" else "false" }

  function FileVersion(f: FileCard): Card {
    Card(RenderLineage(f.lineageId), Version(RenderEntity(f.fileId), f.sourceHash))
  }

  function SymbolFields(x: SymbolCard): seq<string> {
    [x.signature, RangeText(x.declaration), BoolText(x.exported), BoolText(x.test), BoolText(x.route), BoolText(x.schema),
     if x.documentationHash.Some? then x.documentationHash.value else ""]
  }

  function SymbolVersion(x: SymbolCard): Card {
    Card(RenderLineage(x.lineageId),
         Version(RenderEntity(x.symbolId), StableIndexID("symbol_fingerprint", SymbolFields(x))))
  }

  /** The lineage of a file or symbol of the bundle; empty for anything else. */
  function LineageText(b: Bundle, id: EntityId): string {
    var x, f := Invalidation.SymbolById(b.symbols, id), Reuse.FileById(b.files, id);
    if x.Some? then RenderLineage(x.value.lineageId)
    else if f.Some? then RenderLineage(f.value.lineageId) else ""
  }

  function EntityText(b: Bundle, id: EntityId): string {
    if LineageText(b, id) == "" then RenderEntity(id) else LineageText(b, id)
  }

  function RelationVersion(b: Bundle): RelationEvidence -> Card {
    (r: RelationEvidence) =>
      var target := if r.targetEntityId.Some? then EntityText(b, r.targetEntityId.value)
                    else if r.unresolvedName.Some? then "unresolved:" + r.unresolvedName.value else "";
      Card(StableIndexID("relation_lineage",
             [EntityText(b, r.sourceEntityId), r.kind, r.resolution, target, LineageText(b, r.sourceFileId), RangeText(r.locator)]),
           Version(RenderRelation(r.relationId), StableIndexID("relation_fingerprint",
             [r.evidenceClass, r.evidenceHash, r.adapter.name, r.adapter.version, r.adapter.configurationHash, r.adapter.capabilityHash])))
  }

  function FileCards(b: Bundle): seq<Card> { Map(FileVersion, b.files) }
  function SymbolCards(b: Bundle): seq<Card> { Map(SymbolVersion, b.symbols) }
  function RelationCards(b: Bundle): seq<Card> { Map(RelationVersion(b), b.relations) }

  function RowOf(f: FileCard): FileRow { FileRow(RenderEntity(f.fileId), f.path, f.sourceHash) }
  function Rows(b: Bundle): seq<FileRow> { Map(RowOf, b.files) }

  // ------------------------------------------------------- map iteration orders

  /** The order each map of the comparison is read in. */
  datatype Orders = Orders(files: seq<string>, hashes: seq<string>, symbols: seq<string>, relations: seq<string>)

  ghost predicate OrdersFor(b: Bundle, t: Bundle, o: Orders) {
    && ListsOnce(o.files, Lineages(FileCards(b)) + Lineages(FileCards(t)))
    && ListsOnce(o.hashes, set f | f in Rows(b) :: f.hash)
    && ListsOnce(o.symbols, Lineages(SymbolCards(b)) + Lineages(SymbolCards(t)))
    && ListsOnce(o.relations, Lineages(RelationCards(b)) + Lineages(RelationCards(t)))
  }

  function LineageOf(c: Card): string { c.lineage }
  function SomeOrder(b: seq<Card>, t: seq<Card>): seq<string> { Normalization.Distinct(Map(LineageOf, b + t)) }

  lemma SomeOrderLists(b: seq<Card>, t: seq<Card>)
    ensures ListsOnce(SomeOrder(b, t), Lineages(b) + Lineages(t))
  {
    var s := Map(LineageOf, b + t);
    NormalizationProofs.DistinctElements(s);
    forall l ensures l in s <==> l in Lineages(b) + Lineages(t) {
      if l in s { MapMember(LineageOf, b + t, l); }
      if l in Lineages(b) + Lineages(t) {
        var c :| c in b + t && c.lineage == l;
        var i :| 0 <= i < |b + t| && (b + t)[i] == c;
        assert s[i] == l;
      }
    }
    assert (set x | x in s) == Lineages(b) + Lineages(t);
  }

  // --------------------------------------------------------------- the list

  function FileDeltas(b: Bundle, t: Bundle, order: seq<string>): seq<Delta> {
    WithRenames(KindDeltas("file", FileCards(b), FileCards(t), order), Rows(b), Rows(t))
  }
  function SymbolDeltas(b: Bundle, t: Bundle, order: seq<string>): seq<Delta> {
    KindDeltas("symbol", SymbolCards(b), SymbolCards(t), order)
  }
  function RelationDeltas(b: Bundle, t: Bundle, order: seq<string>): seq<Delta> {
    KindDeltas("relation", RelationCards(b), RelationCards(t), order)
  }

  function DeltaKey(d: Delta): string { d.kind + "\0" + (d.id + "\0" + d.change) }
  predicate DeltaLess(a: Delta, b: Delta) { Less(DeltaKey(a), DeltaKey(b)) }

  /** The sorted list, the same for every iteration order; see `DeltasForgetOrder`. */
  function Listed(b: Bundle, t: Bundle): seq<Delta> {
    Sort(DeltaLess, FileDeltas(b, t, SomeOrder(FileCards(b), FileCards(t)))
      + SymbolDeltas(b, t, SomeOrder(SymbolCards(b), SymbolCards(t)))
      + RelationDeltas(b, t, SomeOrder(RelationCards(b), RelationCards(t))))
  }

  ghost predicate NumberedAs(result: seq<Delta>, sorted: seq<Delta>) {
    |result| == |sorted| && forall i :: 0 <= i < |result| ==> result[i] == sorted[i].(ordinal := i)
  }

  // ------------------------------------------------------------ identifiers

  lemma EntityClean(e: EntityId)
    ensures '\0' !in RenderEntity(e)
  {
    StableClean(Kind(e), Parts(e));
  }

  lemma StableClean(prefix: string, components: seq<string>)
    requires '\0' !in prefix
    ensures '\0' !in StableIndexID(prefix, components)
  {}

  ghost predicate CleanIds(cards: seq<Card>) {
    NoRepeat(Map(CardId, cards)) && forall c :: c in cards ==> '\0' !in c.version.id
  }

  lemma CleanOf<A>(card: A -> Card, id: A -> string, s: seq<A>)
    requires forall x :: x in s ==> card(x).version.id == id(x) && '\0' !in id(x)
    requires forall i, j :: 0 <= i < j < |s| ==> id(s[i]) != id(s[j])
    ensures CleanIds(Map(card, s))
  {
    var cards := Map(card, s);
    forall i | 0 <= i < |s| ensures Map(CardId, cards)[i] == id(s[i]) { assert s[i] in s; }
    forall c | c in cards ensures '\0' !in c.version.id {
      MapMember(card, s, c);
      var x :| x in s && card(x) == c;
      assert c.version.id == id(x);
    }
  }

  function FileText(f: FileCard): string { RenderEntity(f.fileId) }
  function SymbolText(x: SymbolCard): string { RenderEntity(x.symbolId) }
  function RelationText(r: RelationEvidence): string { RenderRelation(r.relationId) }

  lemma FileTextsDistinct(files: seq<FileCard>)
    requires forall i, j :: 0 <= i < j < |files| ==> files[i].fileId != files[j].fileId
    ensures forall i, j :: 0 <= i < j < |files| ==> FileText(files[i]) != FileText(files[j])
  {
    forall i, j | 0 <= i < j < |files| && FileText(files[i]) == FileText(files[j]) ensures false {
      EntityInjective(files[i].fileId, files[j].fileId);
    }
  }

  lemma SymbolTextsDistinct(symbols: seq<SymbolCard>)
    requires forall i, j :: 0 <= i < j < |symbols| ==> symbols[i].symbolId != symbols[j].symbolId
    ensures forall i, j :: 0 <= i < j < |symbols| ==> SymbolText(symbols[i]) != SymbolText(symbols[j])
  {
    forall i, j | 0 <= i < j < |symbols| && SymbolText(symbols[i]) == SymbolText(symbols[j]) ensures false {
      EntityInjective(symbols[i].symbolId, symbols[j].symbolId);
    }
  }

  lemma RelationTextsDistinct(relations: seq<RelationEvidence>)
    requires forall i, j :: 0 <= i < j < |relations| ==> relations[i].relationId != relations[j].relationId
    ensures forall i, j :: 0 <= i < j < |relations| ==> RelationText(relations[i]) != RelationText(relations[j])
  {
    forall i, j | 0 <= i < j < |relations| && RelationText(relations[i]) == RelationText(relations[j]) ensures false {
      RelationInjective(relations[i].relationId, relations[j].relationId);
    }
  }

  lemma FileCardsClean(b: Bundle)
    requires forall i, j :: 0 <= i < j < |b.files| ==> b.files[i].fileId != b.files[j].fileId
    ensures CleanIds(FileCards(b)) && DistinctRows(Rows(b))
  {
    FileTextsDistinct(b.files);
    forall f | f in b.files ensures '\0' !in FileText(f) { EntityClean(f.fileId); }
    CleanOf(FileVersion, FileText, b.files);
    assert forall i :: 0 <= i < |b.files| ==> Rows(b)[i].id == FileText(b.files[i]);
  }

  lemma SymbolCardsClean(b: Bundle)
    requires forall i, j :: 0 <= i < j < |b.symbols| ==> b.symbols[i].symbolId != b.symbols[j].symbolId
    ensures CleanIds(SymbolCards(b))
  {
    SymbolTextsDistinct(b.symbols);
    forall x | x in b.symbols ensures '\0' !in SymbolText(x) { EntityClean(x.symbolId); }
    CleanOf(SymbolVersion, SymbolText, b.symbols);
  }

  lemma RelationCardsClean(b: Bundle)
    requires forall i, j :: 0 <= i < j < |b.relations| ==> b.relations[i].relationId != b.relations[j].relationId
    ensures CleanIds(RelationCards(b))
  {
    RelationTextsDistinct(b.relations);
    forall r | r in b.relations ensures '\0' !in RelationText(r) { StableClean("relation", RelationComponents(r.relationId)); }
    CleanOf(RelationVersion(b), RelationText, b.relations);
  }

  ghost predicate FilesComparable(b: Bundle) { CleanIds(FileCards(b)) && DistinctRows(Rows(b)) }

  /** What the comparison needs of a bundle. */
  ghost predicate Comparable(b: Bundle) {
    FilesComparable(b) && CleanIds(SymbolCards(b)) && CleanIds(RelationCards(b))
  }

  lemma ValidIsComparable(b: Bundle)
    requires BundleValid(b)
    ensures Comparable(b)
  {
    assert DistinctIds(b);
    FileCardsClean(b);
    SymbolCardsClean(b);
    RelationCardsClean(b);
  }

  // ------------------------------------------------------------ one kind's list

  /** A list whose deltas are all of one kind, consume `base` and produce `target`. */
  ghost predicate Exact(kind: string, base: seq<Card>, target: seq<Card>, ds: seq<Delta>) {
    && Consumed(ds) == multiset(Map(CardId, base)) && Produced(ds) == multiset(Map(CardId, target))
    && forall d :: d in ds ==> d.kind == kind
  }

  lemma KindPlain(kind: string, base: seq<Card>, target: seq<Card>, order: seq<string>, d: Delta)
    requires d in KindDeltas(kind, base, target, order)
    ensures d.kind == kind && (d.change == "added" ==> d.previous.None?)
  {
    KindMeant(kind, base, target, order, d);
    var l :| Explained(Versions(base, l), Versions(target, l), d);
    if d.change == "added" { AddedIsPlain(Versions(base, l), Versions(target, l), d); }
  }

  lemma KindExact(kind: string, base: seq<Card>, target: seq<Card>, order: seq<string>)
    requires ListsOnce(order, Lineages(base) + Lineages(target))
    ensures Exact(kind, base, target, KindDeltas(kind, base, target, order))
    ensures Plain(KindDeltas(kind, base, target, order))
  {
    var ds := KindDeltas(kind, base, target, order);
    KindConserves(kind, base, target, order);
    forall d | d in ds ensures d.kind == kind && (d.change == "added" ==> d.previous.None?) { KindPlain(kind, base, target, order, d); }
  }

  lemma ExactIsSparing(kind: string, base: seq<Card>, target: seq<Card>, ds: seq<Delta>)
    requires Exact(kind, base, target, ds) && CleanIds(base) && CleanIds(target)
    ensures Sparing(ds)
  {
    forall x ensures Consumed(ds)[x] <= 1 && Produced(ds)[x] <= 1 {
      NoRepeatCounts(Map(CardId, base), x);
      NoRepeatCounts(Map(CardId, target), x);
    }
  }

  lemma CardOfId(cards: seq<Card>, id: string)
    requires CleanIds(cards) && id in multiset(Map(CardId, cards))
    ensures '\0' !in id
  {
    MapMember(CardId, cards, id);
  }

  lemma CountedMember<A>(p: A -> bool, f: A -> string, s: seq<A>, x: A)
    requires x in s && p(x)
    ensures f(x) in multiset(Map(f, Filter(p, s)))
  {
    FilterMember(p, s, x);
    var kept := Filter(p, s);
    var i :| 0 <= i < |kept| && kept[i] == x;
    assert Map(f, kept)[i] == f(x);
  }

  lemma ExactIsClean(kind: string, base: seq<Card>, target: seq<Card>, ds: seq<Delta>, d: Delta)
    requires Exact(kind, base, target, ds) && CleanIds(base) && CleanIds(target) && d in ds
    ensures '\0' !in d.id
  {
    if d.change == "deleted" {
      CountedMember(Consumes, ConsumedId, ds, d);
      CardOfId(base, d.id);
    } else {
      CountedMember(Produces, ProducedId, ds, d);
      CardOfId(target, d.id);
    }
  }

  lemma FilesExact(b: Bundle, t: Bundle, order: seq<string>)
    requires FilesComparable(b) && FilesComparable(t) && ListsOnce(order, Lineages(FileCards(b)) + Lineages(FileCards(t)))
    ensures Exact("file", FileCards(b), FileCards(t), FileDeltas(b, t, order))
  {
    var ds := KindDeltas("file", FileCards(b), FileCards(t), order);
    KindExact("file", FileCards(b), FileCards(t), order);
    ExactIsSparing("file", FileCards(b), FileCards(t), ds);
    RenamesConserve(ds, Rows(b), Rows(t));
    forall d | d in FileDeltas(b, t, order) ensures d.kind == "file" { RenamesExact(ds, Rows(b), Rows(t), d); }
  }

  // ------------------------------------------------------------------ no ties

  lemma KeyInjective(d: Delta, e: Delta)
    requires '\0' !in d.kind && '\0' !in e.kind && '\0' !in d.id && '\0' !in e.id && DeltaKey(d) == DeltaKey(e)
    ensures d.kind == e.kind && d.id == e.id && d.change == e.change
  {
    FieldRecovered(d.kind, e.kind, '\0', d.id + "\0" + d.change, e.id + "\0" + e.change);
    FieldRecovered(d.id, e.id, '\0', d.change, e.change);
  }

  /** A list of one kind without repeated identifiers. */
  ghost predicate Tidy(kind: string, ds: seq<Delta>) {
    && Sparing(ds) && '\0' !in kind && forall d :: d in ds ==> d.kind == kind && '\0' !in d.id
  }

  lemma ExactIsTidy(kind: string, base: seq<Card>, target: seq<Card>, ds: seq<Delta>)
    requires Exact(kind, base, target, ds) && CleanIds(base) && CleanIds(target) && '\0' !in kind
    ensures Tidy(kind, ds)
  {
    ExactIsSparing(kind, base, target, ds);
    forall d | d in ds ensures '\0' !in d.id { ExactIsClean(kind, base, target, ds, d); }
  }

  lemma Ordered(d: Delta, e: Delta)
    requires '\0' !in d.kind && '\0' !in e.kind && '\0' !in d.id && '\0' !in e.id
    requires d.kind != e.kind || d.id != e.id || d.change != e.change
    ensures DeltaLess(d, e) || DeltaLess(e, d)
  {
    LessTotal(DeltaKey(d), DeltaKey(e));
    if DeltaKey(d) == DeltaKey(e) { KeyInjective(d, e); }
  }

  lemma TidyNoTies(kind: string, ds: seq<Delta>)
    requires Tidy(kind, ds)
    ensures NoTies(DeltaLess, ds)
  {
    forall i, j | 0 <= i < j < |ds| ensures DeltaLess(ds[i], ds[j]) || DeltaLess(ds[j], ds[i]) {
      SparingIsDistinct(ds, i, j);
      Ordered(ds[i], ds[j]);
    }
  }

  lemma NoTiesJoin(x: seq<Delta>, y: seq<Delta>)
    requires NoTies(DeltaLess, x) && NoTies(DeltaLess, y)
    requires forall d, e :: d in x && e in y ==> DeltaLess(d, e) || DeltaLess(e, d)
    ensures NoTies(DeltaLess, x + y)
  {
    var z := x + y;
    forall i, j | 0 <= i < j < |z| ensures DeltaLess(z[i], z[j]) || DeltaLess(z[j], z[i]) {
      if i < |x| && j >= |x| { assert z[i] in x && z[j] in y; }
    }
  }

  lemma KindsApart(kind: string, other: string, x: seq<Delta>, y: seq<Delta>)
    requires Tidy(kind, x) && Tidy(other, y) && kind != other
    ensures forall d, e :: d in x && e in y ==> DeltaLess(d, e) || DeltaLess(e, d)
  {
    forall d, e | d in x && e in y ensures DeltaLess(d, e) || DeltaLess(e, d) { Ordered(d, e); }
  }

  lemma ThreeKindsNoTies(x: seq<Delta>, y: seq<Delta>, z: seq<Delta>)
    requires Tidy("file", x) && Tidy("symbol", y) && Tidy("relation", z)
    ensures NoTies(DeltaLess, x + y + z)
  {
    TidyNoTies("file", x);
    TidyNoTies("symbol", y);
    TidyNoTies("relation", z);
    assert "file"[0] != "symbol"[0] && "file"[0] != "relation"[0] && "symbol"[0] != "relation"[0];
    KindsApart("file", "symbol", x, y);
    NoTiesJoin(x, y);
    KindsApart("file", "relation", x, z);
    KindsApart("symbol", "relation", y, z);
    NoTiesJoin(x + y, z);
  }

  lemma DeltaOrder()
    ensures WeakOrder(DeltaLess)
  {
    StringOrder();
  }

  // -------------------------------------------------------- order independence

  lemma RenamesForgetOrder(a: seq<Delta>, b: seq<Delta>, base: seq<FileRow>, target: seq<FileRow>)
    requires multiset(a) == multiset(b)
    ensures multiset(WithRenames(a, base, target)) == multiset(WithRenames(b, base, target))
  {
    forall d ensures d in a <==> d in b { MemberPermutes(a, b, d); }
    assert SceneOf(a, base, target) == SceneOf(b, base, target);
    FlatMapPermutes(Rewriter(SceneOf(a, base, target)), a, b);
  }

  function Unsorted(b: Bundle, t: Bundle, o: Orders): seq<Delta> {
    FileDeltas(b, t, o.files) + SymbolDeltas(b, t, o.symbols) + RelationDeltas(b, t, o.relations)
  }

  function Usual(b: Bundle, t: Bundle): Orders {
    Orders(SomeOrder(FileCards(b), FileCards(t)), Normalization.Distinct(Map((f: FileRow) => f.hash, Rows(b))),
      SomeOrder(SymbolCards(b), SymbolCards(t)), SomeOrder(RelationCards(b), RelationCards(t)))
  }

  lemma UnsortedForgetsOrder(b: Bundle, t: Bundle, o: Orders)
    requires OrdersFor(b, t, o)
    ensures multiset(Unsorted(b, t, o)) == multiset(Unsorted(b, t, Usual(b, t)))
  {
    var u := Usual(b, t);
    SomeOrderLists(FileCards(b), FileCards(t));
    SomeOrderLists(SymbolCards(b), SymbolCards(t));
    SomeOrderLists(RelationCards(b), RelationCards(t));
    KindForgetsOrder("file", FileCards(b), FileCards(t), o.files, u.files);
    KindForgetsOrder("symbol", SymbolCards(b), SymbolCards(t), o.symbols, u.symbols);
    KindForgetsOrder("relation", RelationCards(b), RelationCards(t), o.relations, u.relations);
    RenamesForgetOrder(KindDeltas("file", FileCards(b), FileCards(t), o.files),
      KindDeltas("file", FileCards(b), FileCards(t), u.files), Rows(b), Rows(t));
  }

  /** The three parts of the unsorted list account for their own kind. */
  lemma PartsExact(b: Bundle, t: Bundle, o: Orders)
    requires Comparable(b) && Comparable(t)
    requires ListsOnce(o.files, Lineages(FileCards(b)) + Lineages(FileCards(t)))
    requires ListsOnce(o.symbols, Lineages(SymbolCards(b)) + Lineages(SymbolCards(t)))
    requires ListsOnce(o.relations, Lineages(RelationCards(b)) + Lineages(RelationCards(t)))
    ensures Exact("file", FileCards(b), FileCards(t), FileDeltas(b, t, o.files))
    ensures Exact("symbol", SymbolCards(b), SymbolCards(t), SymbolDeltas(b, t, o.symbols))
    ensures Exact("relation", RelationCards(b), RelationCards(t), RelationDeltas(b, t, o.relations))
  {
    FilesExact(b, t, o.files);
    KindExact("symbol", SymbolCards(b), SymbolCards(t), o.symbols);
    KindExact("relation", RelationCards(b), RelationCards(t), o.relations);
  }

  lemma KindNamesClean()
    ensures '\0' !in "file" && '\0' !in "symbol" && '\0' !in "relation"
  {}

  lemma FilesTidy(kind: string, b: Bundle, t: Bundle, order: seq<string>)
    requires FilesComparable(b) && FilesComparable(t) && ListsOnce(order, Lineages(FileCards(b)) + Lineages(FileCards(t)))
    requires kind == "file" && '\0' !in kind
    ensures Tidy(kind, FileDeltas(b, t, order))
  {
    FilesExact(b, t, order);
    ExactIsTidy(kind, FileCards(b), FileCards(t), FileDeltas(b, t, order));
  }

  lemma KindTidy(kind: string, base: seq<Card>, target: seq<Card>, order: seq<string>)
    requires CleanIds(base) && CleanIds(target) && '\0' !in kind && ListsOnce(order, Lineages(base) + Lineages(target))
    ensures Tidy(kind, KindDeltas(kind, base, target, order))
  {
    KindExact(kind, base, target, order);
    ExactIsTidy(kind, base, target, KindDeltas(kind, base, target, order));
  }

  lemma PartsTidy(b: Bundle, t: Bundle, o: Orders)
    requires Comparable(b) && Comparable(t) && OrdersFor(b, t, o)
    ensures Tidy("file", FileDeltas(b, t, o.files)) && Tidy("symbol", SymbolDeltas(b, t, o.symbols))
    ensures Tidy("relation", RelationDeltas(b, t, o.relations))
  {
    KindNamesClean();
    assert Tidy("file", FileDeltas(b, t, o.files)) by { FilesTidy("file", b, t, o.files); }
    assert Tidy("symbol", SymbolDeltas(b, t, o.symbols)) by { KindTidy("symbol", SymbolCards(b), SymbolCards(t), o.symbols); }
    assert Tidy("relation", RelationDeltas(b, t, o.relations)) by { KindTidy("relation", RelationCards(b), RelationCards(t), o.relations); }
  }

  lemma UnsortedNoTies(b: Bundle, t: Bundle, o: Orders)
    requires Comparable(b) && Comparable(t) && OrdersFor(b, t, o)
    ensures NoTies(DeltaLess, Unsorted(b, t, o))
  {
    PartsTidy(b, t, o);
    ThreeKindsNoTies(FileDeltas(b, t, o.files), SymbolDeltas(b, t, o.symbols), RelationDeltas(b, t, o.relations));
  }

  /** The sorted list does not depend on the order any map was read in. */
  lemma DeltasForgetOrder(b: Bundle, t: Bundle, o: Orders)
    requires Comparable(b) && Comparable(t) && OrdersFor(b, t, o)
    ensures Sort(DeltaLess, Unsorted(b, t, o)) == Listed(b, t)
  {
    UnsortedNoTies(b, t, o);
    UnsortedForgetsOrder(b, t, o);
    DeltaOrder();
    SortForgetsOrder(DeltaLess, Unsorted(b, t, o), Unsorted(b, t, Usual(b, t)));
  }

  // ------------------------------------------------------------- the operation

  method ComputeBundleDeltas(b: Bundle, t: Bundle, o: Orders) returns (r: Outcome<seq<Delta>>)
    requires OrdersFor(b, t, o)
    ensures r.Ok? <==> BundleValid(b) && BundleValid(t)
    ensures r.Ok? ==> NumberedAs(r.value, Listed(b, t))
  {
    r := Err;
    var baselineOk := ValidateBundle(b);
    var targetOk := ValidateBundle(t);
    if baselineOk && targetOk {
      ValidIsComparable(b);
      ValidIsComparable(t);
      var deltas := ListDeltas(b, t, o);
      r := Ok(deltas);
    }
  }

  method ListDeltas(b: Bundle, t: Bundle, o: Orders) returns (result: seq<Delta>)
    requires Comparable(b) && Comparable(t) && OrdersFor(b, t, o)
    ensures NumberedAs(result, Listed(b, t))
  {
    var deltas := CompareLineages("file", FileCards(b), FileCards(t), o.files);
    deltas := InferExactFileRenames(deltas, Rows(b), Rows(t), o.hashes);
    var symbols := CompareLineages("symbol", SymbolCards(b), SymbolCards(t), o.symbols);
    var relations := CompareLineages("relation", RelationCards(b), RelationCards(t), o.relations);
    deltas := deltas + symbols + relations;
    DeltasForgetOrder(b, t, o);
    result := Number(Sort(DeltaLess, deltas));
  }

  method Number(sorted: seq<Delta>) returns (result: seq<Delta>)
    ensures NumberedAs(result, sorted)
  {
    result := sorted;
    for i := 0 to |sorted|
      invariant |result| == |sorted|
      invariant forall k :: 0 <= k < |sorted| ==> result[k] == if k < i then sorted[k].(ordinal := k) else sorted[k]
    {
      result := result[i := result[i].(ordinal := i)];
    }
  }

  // -------------------------------------------------------------- what it means

  function OfKind(kind: string): Delta -> bool { (d: Delta) => d.kind == kind }

  lemma KindPart(kind: string, x: seq<Delta>, y: seq<Delta>, z: seq<Delta>)
    requires forall d :: d in x + z ==> d.kind != kind
    requires forall d :: d in y ==> d.kind == kind
    ensures Filter(OfKind(kind), x + y + z) == y
  {
    FilterAppend(OfKind(kind), x + y, z);
    FilterAppend(OfKind(kind), x, y);
    FilterNone(OfKind(kind), x);
    FilterAll(OfKind(kind), y);
    FilterNone(OfKind(kind), z);
    assert [] + y + [] == y;
  }

  ghost predicate AccountsFor(kind: string, base: seq<Card>, target: seq<Card>, ds: seq<Delta>) {
    && Consumed(Filter(OfKind(kind), ds)) == multiset(Map(CardId, base))
    && Produced(Filter(OfKind(kind), ds)) == multiset(Map(CardId, target))
  }

  lemma UsualOrders(b: Bundle, t: Bundle)
    ensures var u := Usual(b, t);
      && ListsOnce(u.files, Lineages(FileCards(b)) + Lineages(FileCards(t)))
      && ListsOnce(u.symbols, Lineages(SymbolCards(b)) + Lineages(SymbolCards(t)))
      && ListsOnce(u.relations, Lineages(RelationCards(b)) + Lineages(RelationCards(t)))
  {
    SomeOrderLists(FileCards(b), FileCards(t));
    SomeOrderLists(SymbolCards(b), SymbolCards(t));
    SomeOrderLists(RelationCards(b), RelationCards(t));
  }

  ghost predicate AllOf(kind: string, ds: seq<Delta>) { forall d :: d in ds ==> d.kind == kind }

  lemma FilePart(x: seq<Delta>, y: seq<Delta>, z: seq<Delta>)
    requires AllOf("file", x) && AllOf("symbol", y) && AllOf("relation", z)
    ensures Filter(OfKind("file"), x + y + z) == x
  {
    assert "file"[0] != "symbol"[0] && "file"[0] != "relation"[0];
    KindPart("file", [], x, y + z);
    assert [] + x + (y + z) == x + y + z;
  }

  lemma SymbolPart(x: seq<Delta>, y: seq<Delta>, z: seq<Delta>)
    requires AllOf("file", x) && AllOf("symbol", y) && AllOf("relation", z)
    ensures Filter(OfKind("symbol"), x + y + z) == y
  {
    assert "file"[0] != "symbol"[0] && "symbol"[0] != "relation"[0];
    KindPart("symbol", x, y, z);
  }

  lemma RelationPart(x: seq<Delta>, y: seq<Delta>, z: seq<Delta>)
    requires AllOf("file", x) && AllOf("symbol", y) && AllOf("relation", z)
    ensures Filter(OfKind("relation"), x + y + z) == z
  {
    assert "file"[0] != "relation"[0] && "symbol"[0] != "relation"[0];
    KindPart("relation", x + y, z, []);
    assert (x + y) + z + [] == x + y + z;
  }

  lemma PartAccounts(kind: string, base: seq<Card>, target: seq<Card>, part: seq<Delta>, all: seq<Delta>)
    requires Filter(OfKind(kind), all) == part && Exact(kind, base, target, part)
    ensures AccountsFor(kind, base, target, Sort(DeltaLess, all))
  {
    SortPermutes(DeltaLess, all);
    FilterPermutes(OfKind(kind), Sort(DeltaLess, all), all);
    ConsumedPermutes(Filter(OfKind(kind), Sort(DeltaLess, all)), part);
  }

  /** The delta list is conservative: for every kind, each baseline identifier
      is consumed exactly once and each target identifier produced exactly once. */
  lemma DeltasConserve(b: Bundle, t: Bundle)
    requires BundleValid(b) && BundleValid(t)
    ensures AccountsFor("file", FileCards(b), FileCards(t), Listed(b, t))
    ensures AccountsFor("symbol", SymbolCards(b), SymbolCards(t), Listed(b, t))
    ensures AccountsFor("relation", RelationCards(b), RelationCards(t), Listed(b, t))
  {
    ValidIsComparable(b);
    ValidIsComparable(t);
    ListedAccounts(b, t);
  }

  /** One kind's list joined with lists of the other kinds. */
  lemma ThreeAccount(b: (seq<Card>, seq<Card>, seq<Card>), t: (seq<Card>, seq<Card>, seq<Card>),
                     x: seq<Delta>, y: seq<Delta>, z: seq<Delta>)
    requires Exact("file", b.0, t.0, x) && Exact("symbol", b.1, t.1, y) && Exact("relation", b.2, t.2, z)
    ensures AccountsFor("file", b.0, t.0, Sort(DeltaLess, x + y + z))
    ensures AccountsFor("symbol", b.1, t.1, Sort(DeltaLess, x + y + z))
    ensures AccountsFor("relation", b.2, t.2, Sort(DeltaLess, x + y + z))
  {
    assert AllOf("file", x) && AllOf("symbol", y) && AllOf("relation", z);
    var all := x + y + z;
    assert AccountsFor("file", b.0, t.0, Sort(DeltaLess, all)) by { FilePart(x, y, z); PartAccounts("file", b.0, t.0, x, all); }
    assert AccountsFor("symbol", b.1, t.1, Sort(DeltaLess, all)) by { SymbolPart(x, y, z); PartAccounts("symbol", b.1, t.1, y, all); }
    assert AccountsFor("relation", b.2, t.2, Sort(DeltaLess, all)) by { RelationPart(x, y, z); PartAccounts("relation", b.2, t.2, z, all); }
  }

  lemma ListedAccounts(b: Bundle, t: Bundle)
    requires Comparable(b) && Comparable(t)
    ensures AccountsFor("file", FileCards(b), FileCards(t), Listed(b, t))
    ensures AccountsFor("symbol", SymbolCards(b), SymbolCards(t), Listed(b, t))
    ensures AccountsFor("relation", RelationCards(b), RelationCards(t), Listed(b, t))
  {
    var u := Usual(b, t);
    UsualOrders(b, t);
    PartsExact(b, t, u);
    ThreeAccount((FileCards(b), SymbolCards(b), RelationCards(b)), (FileCards(t), SymbolCards(t), RelationCards(t)),
      FileDeltas(b, t, u.files), SymbolDeltas(b, t, u.symbols), RelationDeltas(b, t, u.relations));
  }

  /** Symbols whose fingerprints agree agree on everything the index keeps about
      them beyond their lineage, so a reused symbol really is unchanged. */
  lemma SymbolFingerprintTells(x: SymbolCard, y: SymbolCard)
    requires SymbolVersion(x).version.fingerprint == SymbolVersion(y).version.fingerprint
    ensures x.signature == y.signature && x.declaration == y.declaration && x.exported == y.exported
    ensures x.test == y.test && x.route == y.route && x.schema == y.schema
  {
    var p, q := SymbolFields(x), SymbolFields(y);
    StableIndexIDInjective("symbol_fingerprint", p, "symbol_fingerprint", q);
    assert p[0] == q[0] && p[1] == q[1] && p[2] == q[2] && p[3] == q[3] && p[4] == q[4] && p[5] == q[5];
    RangeTextInjective(x.declaration, y.declaration);
    BoolTextInjective(x.exported, y.exported);
    BoolTextInjective(x.test, y.test);
    BoolTextInjective(x.route, y.route);
    BoolTextInjective(x.schema, y.schema);
  }

  lemma BoolTextInjective(a: bool, b: bool)
    requires BoolText(a) == BoolText(b)
    ensures a == b
  {
    assert "true"[0] != "false"[0];
  }

  /** A delta on files: a comparison within one lineage, or an exact rename. */
  ghost predicate FileDeltaMeans(b: Bundle, t: Bundle, d: Delta) {
    || Meant(FileCards(b), FileCards(t), d)
    || exists x, y :: x in Rows(b) && y in Rows(t) && d == Delta(0, "renamed", "file", y.id, Some(x.id))
         && UniqueBytes(Rows(b), Rows(t), x, y)
  }

  /** Two differently named files with the same bytes, which nothing else has on either side. */
  ghost predicate UniqueBytes(base: seq<FileRow>, target: seq<FileRow>, x: FileRow, y: FileRow) {
    && x.hash == y.hash && x.path != y.path
    && (forall f :: f in base && f.hash == x.hash ==> f == x) && (forall g :: g in target && g.hash == x.hash ==> g == y)
  }

  lemma FileDeltaMeant(b: Bundle, t: Bundle, order: seq<string>, d: Delta)
    requires d in FileDeltas(b, t, order)
    ensures d.kind == "file" && FileDeltaMeans(b, t, d)
  {
    var ds := KindDeltas("file", FileCards(b), FileCards(t), order);
    RenamesExact(ds, Rows(b), Rows(t), d);
    if d in ds {
      KindMeant("file", FileCards(b), FileCards(t), order, d);
      KindPlain("file", FileCards(b), FileCards(t), order, d);
    } else {
      var x, y :| ExactRename(SceneOf(ds, Rows(b), Rows(t)), x, y) && d == Delta(0, "renamed", "file", y.id, Some(x.id));
      assert UniqueBytes(Rows(b), Rows(t), x, y);
    }
  }

  /** Every delta of the list is what its kind and its name say. */
  lemma DeltasMeant(b: Bundle, t: Bundle, d: Delta)
    requires d in Listed(b, t)
    ensures || (d.kind == "file" && FileDeltaMeans(b, t, d))
      || (d.kind == "symbol" && Meant(SymbolCards(b), SymbolCards(t), d))
      || (d.kind == "relation" && Meant(RelationCards(b), RelationCards(t), d))
  {
    var u := Usual(b, t);
    SortPermutes(DeltaLess, Unsorted(b, t, u));
    MemberPermutes(Listed(b, t), Unsorted(b, t, u), d);
    if d in FileDeltas(b, t, u.files) {
      FileDeltaMeant(b, t, u.files, d);
    } else if d in SymbolDeltas(b, t, u.symbols) {
      KindMeant("symbol", SymbolCards(b), SymbolCards(t), u.symbols, d);
      KindPlain("symbol", SymbolCards(b), SymbolCards(t), u.symbols, d);
    } else {
      KindMeant("relation", RelationCards(b), RelationCards(t), u.relations, d);
      KindPlain("relation", RelationCards(b), RelationCards(t), u.relations, d);
    }
  }
}
