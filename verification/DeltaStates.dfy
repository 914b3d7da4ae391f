/** What symbol and relation deltas say about the cards of the two bundles. */
module DeltaStates {
  import opened Identity
  import opened Ordering
  import opened Seqs
  import opened Cards
  import opened Bundles
  import opened Deltas
  import opened LineageComparison
  import opened BundleDeltas
  import opened DeltaMeaning
  import Planning
  import PlanMeaning

  // -------------------------------------------------------- comparing cards

  /** A card of either side with the same lineage, called reused or modified by their fingerprints. */
  ghost predicate Joins(base: seq<Card>, target: seq<Card>, c: Card, e: Card, d: Delta) {
    && c in base && e in target && c.lineage == e.lineage && d.id == e.version.id && d.previous == Some(c.version.id)
    && ((d.change == "reused" && c.version.fingerprint == e.version.fingerprint)
        || (d.change == "modified" && c.version.fingerprint != e.version.fingerprint))
  }

  /** A delta between two lists of cards: one on either side joined, or one gained, or one lost. */
  ghost predicate SaysOf(base: seq<Card>, target: seq<Card>, d: Delta) {
    || (exists c, e :: Joins(base, target, c, e, d))
    || (exists e :: e in target && d.change == "added" && d.id == e.version.id && d.previous == None)
    || (exists c :: c in base && d.change == "deleted" && d.id == c.version.id && d.previous == None)
  }

  lemma VersionIsCard(cards: seq<Card>, l: string, v: Version)
    requires v in Versions(cards, l)
    ensures Card(l, v) in cards
  {
    MapMember(VersionOf, Filter(InLineage(l), cards), v);
    var c :| c in Filter(InLineage(l), cards) && VersionOf(c) == v;
    FilterMember(InLineage(l), cards, c);
  }

  ghost predicate LinksAs(before: seq<Version>, after: seq<Version>, d: Delta, v: Version, w: Version) {
    && Links(before, after, d, v, w)
    && ((d.change == "reused" && v.fingerprint == w.fingerprint) || (d.change == "modified" && v.fingerprint != w.fingerprint))
  }

  lemma ExplainedWays(before: seq<Version>, after: seq<Version>, d: Delta)
    requires Explained(before, after, d)
    ensures || (exists v, w :: LinksAs(before, after, d, v, w))
      || (d.change == "added" && d.previous.None? && exists w :: w in after && w.id == d.id)
      || (d.change == "deleted" && d.previous.None? && exists v :: v in before && v.id == d.id)
  {
    if v, w :| Links(before, after, d, v, w) && d.change == "reused" && v.fingerprint == w.fingerprint {
      assert LinksAs(before, after, d, v, w);
    } else if v, w :| Links(before, after, d, v, w) && d.change == "modified" && v.fingerprint != w.fingerprint {
      assert LinksAs(before, after, d, v, w);
    }
  }

  lemma MeantSays(base: seq<Card>, target: seq<Card>, d: Delta)
    requires Meant(base, target, d)
    ensures SaysOf(base, target, d)
  {
    var l :| Explained(Versions(base, l), Versions(target, l), d);
    ExplainedWays(Versions(base, l), Versions(target, l), d);
    if v, w :| LinksAs(Versions(base, l), Versions(target, l), d, v, w) {
      VersionIsCard(base, l, v);
      VersionIsCard(target, l, w);
      assert Joins(base, target, Card(l, v), Card(l, w), d);
    } else if w :| w in Versions(target, l) && w.id == d.id && d.change == "added" && d.previous.None? {
      VersionIsCard(target, l, w);
    } else {
      var v :| v in Versions(base, l) && v.id == d.id;
      VersionIsCard(base, l, v);
    }
  }

  // ------------------------------------------------------- reuse is maximal

  /** The delta gives up the version with this identifier, or brings it in, without reusing it. */
  predicate GivesUp(d: Delta, id: string) { (d.change == "modified" && d.previous == Some(id)) || (d.change == "deleted" && d.id == id) }
  predicate BringsIn(d: Delta, id: string) { (d.change == "modified" || d.change == "added") && d.id == id }

  lemma LeftoverSides(kind: string, left: seq<Version>, right: seq<Version>, d: Delta, id: string)
    requires d in LeftoverDeltas(kind, left, right)
    ensures GivesUp(d, id) ==> exists v :: v in left && v.id == id
    ensures BringsIn(d, id) ==> exists w :: w in right && w.id == id
  {
    ChangesApart();
    var n := Least(|left|, |right|);
    var z := Zip(left[..n], right[..n]);
    if d in Map(ModifiedDelta(kind), z) {
      var i :| 0 <= i < |z| && Map(ModifiedDelta(kind), z)[i] == d;
      assert left[i] in left && right[i] in right;
    } else if d in Map(AddedDelta(kind), right[n..]) {
      MapMember(AddedDelta(kind), right[n..], d);
    } else {
      MapMember(DeletedDelta(kind), left[n..], d);
    }
  }

  lemma NotReused(kind: string, before: seq<Version>, after: seq<Version>, d: Delta)
    requires d in LineageDeltas(kind, before, after) && d.change != "reused"
    ensures var m := MatchSorted(before, after); d in LeftoverDeltas(kind, Sort(IdLess, m.left), Sort(IdLess, m.right))
  {
    var m := MatchSorted(before, after);
    if d in Map(ReusedDelta(kind), m.reused) { MapMember(ReusedDelta(kind), m.reused, d); }
  }

  lemma LineageSides(kind: string, before: seq<Version>, after: seq<Version>, d: Delta, id: string)
    requires d in LineageDeltas(kind, before, after)
    ensures GivesUp(d, id) ==> exists v :: v in MatchSorted(before, after).left && v.id == id
    ensures BringsIn(d, id) ==> exists w :: w in MatchSorted(before, after).right && w.id == id
  {
    ChangesApart();
    var m := MatchSorted(before, after);
    if GivesUp(d, id) || BringsIn(d, id) {
      ReusedApart();
      NotReused(kind, before, after, d);
      LeftoverSides(kind, Sort(IdLess, m.left), Sort(IdLess, m.right), d, id);
      SortPermutes(IdLess, m.left);
      SortPermutes(IdLess, m.right);
      forall v ensures v in Sort(IdLess, m.left) <==> v in m.left { MemberPermutes(Sort(IdLess, m.left), m.left, v); }
      forall w ensures w in Sort(IdLess, m.right) <==> w in m.right { MemberPermutes(Sort(IdLess, m.right), m.right, w); }
    }
  }

  lemma ReusedApart()
    ensures "reused" != "modified" && "reused" != "added" && "reused" != "deleted"
  {
    assert "added"[0] == 'a' && "reused"[0] == 'r' && "modified"[0] == 'm' && "deleted"[0] == 'd';
  }

  ghost predicate DistinctCards(cards: seq<Card>) {
    forall c, e :: c in cards && e in cards && c.version.id == e.version.id ==> c == e
  }

  /** The lineage a delta that gives a card up belongs to is the card's. */
  lemma GivenUpIn(kind: string, base: seq<Card>, target: seq<Card>, order: seq<string>, d: Delta, c: Card)
    requires d in KindDeltas(kind, base, target, order) && DistinctCards(base) && c in base && GivesUp(d, c.version.id)
    ensures d in LineageDeltas(kind, Versions(base, c.lineage), Versions(target, c.lineage))
    ensures c.version in MatchSorted(Versions(base, c.lineage), Versions(target, c.lineage)).left
  {
    FlatMapMember(Comparer(kind, base, target), order, d);
    var l :| l in order && d in Comparer(kind, base, target)(l);
    var before, after := Versions(base, l), Versions(target, l);
    LineageSides(kind, before, after, d, c.version.id);
    var v :| v in MatchSorted(before, after).left && v.id == c.version.id;
    MatchedMembers(before, after);
    VersionIsCard(base, l, v);
    assert Card(l, v) == c;
  }

  lemma BroughtInto(kind: string, base: seq<Card>, target: seq<Card>, order: seq<string>, d: Delta, e: Card)
    requires d in KindDeltas(kind, base, target, order) && DistinctCards(target) && e in target && BringsIn(d, e.version.id)
    ensures d in LineageDeltas(kind, Versions(base, e.lineage), Versions(target, e.lineage))
    ensures e.version in MatchSorted(Versions(base, e.lineage), Versions(target, e.lineage)).right
  {
    FlatMapMember(Comparer(kind, base, target), order, d);
    var l :| l in order && d in Comparer(kind, base, target)(l);
    var before, after := Versions(base, l), Versions(target, l);
    LineageSides(kind, before, after, d, e.version.id);
    var w :| w in MatchSorted(before, after).right && w.id == e.version.id;
    MatchedMembers(before, after);
    VersionIsCard(target, l, w);
    assert Card(l, w) == e;
  }

  /** Nothing reusable is left over: a card given up and a card brought in within one
      lineage differ, and no lineage both loses and gains one. */
  lemma LeftoversDiffer(kind: string, base: seq<Card>, target: seq<Card>, order: seq<string>, d: Delta, x: Delta, c: Card, e: Card)
    requires d in KindDeltas(kind, base, target, order) && x in KindDeltas(kind, base, target, order)
    requires DistinctCards(base) && DistinctCards(target) && c in base && e in target && c.lineage == e.lineage
    requires GivesUp(d, c.version.id) && BringsIn(x, e.version.id)
    ensures c.version.fingerprint != e.version.fingerprint && !(d.change == "deleted" && x.change == "added")
  {
    GivenUpIn(kind, base, target, order, d, c);
    BroughtInto(kind, base, target, order, x, e);
    MatchedMembers(Versions(base, c.lineage), Versions(target, c.lineage));
    LineageExplained(kind, Versions(base, c.lineage), Versions(target, c.lineage));
  }

  // ------------------------------------------------- pairs in identifier order

  /** Earlier of two modified deltas, or a modified one before one gained or lost, by identifier. */
  ghost predicate InOrder(d: Delta, e: Delta) {
    && (d.change == "modified" && e.change == "modified" && d.previous.Some? && e.previous.Some? && Less(d.previous.value, e.previous.value) ==>
          !Less(e.id, d.id))
    && (d.change == "modified" && e.change == "added" ==> !Less(e.id, d.id))
    && (d.change == "modified" && d.previous.Some? && e.change == "deleted" ==> !Less(e.id, d.previous.value))
  }

  ghost predicate Rising(s: seq<Version>) { forall i, j :: 0 <= i < j < |s| ==> !Less(s[j].id, s[i].id) }

  /** Which part of the leftovers a delta is in, by its name. */
  lemma LeftoverPart(kind: string, left: seq<Version>, right: seq<Version>, d: Delta)
    requires d in LeftoverDeltas(kind, left, right)
    ensures var n := Least(|left|, |right|);
      && (d.change == "modified" ==> d in Map(ModifiedDelta(kind), Zip(left[..n], right[..n])))
      && (d.change == "added" ==> d in Map(AddedDelta(kind), right[n..]))
      && (d.change == "deleted" ==> d in Map(DeletedDelta(kind), left[n..]))
  {
    ChangesApart();
    var n := Least(|left|, |right|);
    var pairs, gained, lost := Zip(left[..n], right[..n]), right[n..], left[n..];
    forall x | x in Map(ModifiedDelta(kind), pairs) ensures x.change == "modified" { MapMember(ModifiedDelta(kind), pairs, x); }
    forall x | x in Map(AddedDelta(kind), gained) ensures x.change == "added" { MapMember(AddedDelta(kind), gained, x); }
    forall x | x in Map(DeletedDelta(kind), lost) ensures x.change == "deleted" { MapMember(DeletedDelta(kind), lost, x); }
  }

  lemma ModifiedAt(kind: string, left: seq<Version>, right: seq<Version>, d: Delta) returns (i: nat)
    requires d in LeftoverDeltas(kind, left, right) && d.change == "modified"
    ensures i < Least(|left|, |right|) && d.id == right[i].id && d.previous == Some(left[i].id)
  {
    LeftoverPart(kind, left, right, d);
    var n := Least(|left|, |right|);
    var z := Zip(left[..n], right[..n]);
    i :| 0 <= i < |z| && Map(ModifiedDelta(kind), z)[i] == d;
  }

  lemma AddedAt(kind: string, left: seq<Version>, right: seq<Version>, d: Delta) returns (i: nat)
    requires d in LeftoverDeltas(kind, left, right) && d.change == "added"
    ensures Least(|left|, |right|) <= i < |right| && d.id == right[i].id
  {
    LeftoverPart(kind, left, right, d);
    var n := Least(|left|, |right|);
    var k :| 0 <= k < |right[n..]| && Map(AddedDelta(kind), right[n..])[k] == d;
    i := n + k;
  }

  lemma DeletedAt(kind: string, left: seq<Version>, right: seq<Version>, d: Delta) returns (i: nat)
    requires d in LeftoverDeltas(kind, left, right) && d.change == "deleted"
    ensures Least(|left|, |right|) <= i < |left| && d.id == left[i].id
  {
    LeftoverPart(kind, left, right, d);
    var n := Least(|left|, |right|);
    var k :| 0 <= k < |left[n..]| && Map(DeletedDelta(kind), left[n..])[k] == d;
    i := n + k;
  }

  lemma LeftoversInOrder(kind: string, left: seq<Version>, right: seq<Version>, d: Delta, e: Delta)
    requires Rising(left) && Rising(right) && d in LeftoverDeltas(kind, left, right) && e in LeftoverDeltas(kind, left, right)
    ensures InOrder(d, e)
  {
    ChangesApart();
    StringOrder();
    if d.change == "modified" {
      var i := ModifiedAt(kind, left, right, d);
      if e.change == "modified" {
        var j := ModifiedAt(kind, left, right, e);
      } else if e.change == "added" {
        var j := AddedAt(kind, left, right, e);
      } else if e.change == "deleted" {
        var j := DeletedAt(kind, left, right, e);
      }
    }
  }

  lemma SortRises(s: seq<Version>)
    ensures Rising(Sort(IdLess, s))
  {
    VersionOrders();
    SortSorts(IdLess, s);
  }

  /** The leftovers of a lineage are paired in the order of their identifiers, and
      what has no partner comes after what has one. */
  lemma LineageInOrder(kind: string, before: seq<Version>, after: seq<Version>, d: Delta, e: Delta)
    requires d in LineageDeltas(kind, before, after) && e in LineageDeltas(kind, before, after)
    ensures InOrder(d, e)
  {
    ReusedApart();
    var m := MatchSorted(before, after);
    if d.change != "reused" && e.change != "reused" {
      NotReused(kind, before, after, d);
      NotReused(kind, before, after, e);
      SortRises(m.left);
      SortRises(m.right);
      LeftoversInOrder(kind, Sort(IdLess, m.left), Sort(IdLess, m.right), d, e);
    }
  }

  lemma GivenUpInOrder(kind: string, base: seq<Card>, target: seq<Card>, order: seq<string>, d: Delta, e: Delta, c: Card, o: Card)
    requires d in KindDeltas(kind, base, target, order) && e in KindDeltas(kind, base, target, order) && DistinctCards(base)
    requires c in base && o in base && c.lineage == o.lineage && GivesUp(d, c.version.id) && GivesUp(e, o.version.id)
    ensures InOrder(d, e)
  {
    GivenUpIn(kind, base, target, order, d, c);
    GivenUpIn(kind, base, target, order, e, o);
    LineageInOrder(kind, Versions(base, c.lineage), Versions(target, c.lineage), d, e);
  }

  lemma BroughtInLast(kind: string, base: seq<Card>, target: seq<Card>, order: seq<string>, d: Delta, e: Delta, c: Card, o: Card)
    requires d in KindDeltas(kind, base, target, order) && e in KindDeltas(kind, base, target, order)
    requires DistinctCards(base) && DistinctCards(target)
    requires c in base && o in target && c.lineage == o.lineage && GivesUp(d, c.version.id) && BringsIn(e, o.version.id)
    ensures InOrder(d, e)
  {
    GivenUpIn(kind, base, target, order, d, c);
    BroughtInto(kind, base, target, order, e, o);
    LineageInOrder(kind, Versions(base, c.lineage), Versions(target, c.lineage), d, e);
  }

  lemma CleanIsDistinct(cards: seq<Card>)
    requires CleanIds(cards)
    ensures DistinctCards(cards)
  {
    var ids := Map(CardId, cards);
    forall c, e | c in cards && e in cards && c.version.id == e.version.id ensures c == e {
      var i :| 0 <= i < |cards| && cards[i] == c;
      var j :| 0 <= j < |cards| && cards[j] == e;
      assert ids[i] == ids[j];
    }
  }

  /** The one card of its lineage. */
  ghost predicate Sole(cards: seq<Card>, c: Card) { c in cards && forall x :: x in cards && x.lineage == c.lineage ==> x == c }

  lemma SoleVersion(cards: seq<Card>, c: Card)
    requires CleanIds(cards) && Sole(cards, c)
    ensures Versions(cards, c.lineage) == [c.version]
  {
    var i :| 0 <= i < |cards| && cards[i] == c;
    var of, ids := InLineage(c.lineage), Map(CardId, cards);
    forall j | 0 <= j < |cards| && j != i ensures !of(cards[j]) {
      assert cards[j] in cards;
      if j < i { assert ids[j] != ids[i]; } else { assert ids[i] != ids[j]; }
    }
    FilterSingle(of, cards, i);
  }

  /** The delta the fingerprints of two versions call for. */
  function PairedDelta(kind: string, v: Version, w: Version): Delta {
    Delta(0, if v.fingerprint == w.fingerprint then "reused" else "modified", kind, w.id, Some(v.id))
  }

  lemma SolesCompared(kind: string, base: seq<Card>, target: seq<Card>, c: Card, e: Card)
    requires CleanIds(base) && CleanIds(target) && Sole(base, c) && Sole(target, e) && c.lineage == e.lineage
    ensures Comparer(kind, base, target)(c.lineage) == [PairedDelta(kind, c.version, e.version)]
  {
    SoleVersion(base, c);
    SoleVersion(target, e);
    SmallLineage(kind, [c.version], [e.version]);
  }

  lemma ComparedListed(kind: string, base: seq<Card>, target: seq<Card>, order: seq<string>, l: string, d: Delta)
    requires l in order && Comparer(kind, base, target)(l) == [d]
    ensures d in KindDeltas(kind, base, target, order)
  {
    FlatMapHolds(Comparer(kind, base, target), order, l, d);
  }

  /** A lineage with one card on either side yields the delta their fingerprints call for. */
  lemma SolesListed(kind: string, base: seq<Card>, target: seq<Card>, c: Card, e: Card, d: Delta)
    requires CleanIds(base) && CleanIds(target) && Sole(base, c) && Sole(target, e) && c.lineage == e.lineage
    requires d == PairedDelta(kind, c.version, e.version)
    ensures d in KindDeltas(kind, base, target, SomeOrder(base, target))
  {
    var order := SomeOrder(base, target);
    assert c.lineage in order by {
      SomeOrderLists(base, target);
      ListedOnce(order, Lineages(base) + Lineages(target));
    }
    assert Comparer(kind, base, target)(c.lineage) == [d] by { SolesCompared(kind, base, target, c, e); }
    ComparedListed(kind, base, target, order, c.lineage, d);
  }

  // ----------------------------------------------------------------- symbols

  /** The same symbol of the same file on both sides. */
  predicate SameSymbol(x: SymbolCard, y: SymbolCard) {
    x.fileLineageId == y.fileLineageId && x.language == y.language && x.kind == y.kind && x.qualifiedName == y.qualifiedName
  }

  function TextOf(s: Option<string>): string { if s.Some? then s.value else "" }

  /** Nothing the index keeps about the symbol has changed. */
  predicate SymbolUnchanged(x: SymbolCard, y: SymbolCard) {
    && x.signature == y.signature && x.declaration == y.declaration
    && x.exported == y.exported && x.test == y.test && x.route == y.route && x.schema == y.schema
    && TextOf(x.documentationHash) == TextOf(y.documentationHash)
  }

  lemma SymbolLineageTells(x: SymbolCard, y: SymbolCard)
    requires x.lineageId == ComputeSymbolLineageID(x) && y.lineageId == ComputeSymbolLineageID(y)
    ensures SymbolVersion(x).lineage == SymbolVersion(y).lineage <==> SameSymbol(x, y)
  {
    if SymbolVersion(x).lineage == SymbolVersion(y).lineage { LineageInjective(x.lineageId, y.lineageId); }
  }

  lemma SymbolPrintTells(x: SymbolCard, y: SymbolCard)
    ensures SymbolVersion(x).version.fingerprint == SymbolVersion(y).version.fingerprint <==> SymbolUnchanged(x, y)
  {
    var p, q := SymbolFields(x), SymbolFields(y);
    StableIndexIDInjective("symbol_fingerprint", p, "symbol_fingerprint", q);
    if p == q {
      SymbolFingerprintTells(x, y);
      assert p[6] == q[6];
    }
  }

  function SymbolDelta(change: string, y: SymbolCard, previous: Option<SymbolCard>): Delta {
    Delta(0, change, "symbol", RenderEntity(y.symbolId), if previous.Some? then Some(RenderEntity(previous.value.symbolId)) else None)
  }

  /** Reused when nothing about the symbol has changed, modified when something has. */
  function PairedSymbols(x: SymbolCard, y: SymbolCard): Delta {
    SymbolDelta(if SymbolUnchanged(x, y) then "reused" else "modified", y, Some(x))
  }

  ghost predicate SymbolPair(b: Bundle, t: Bundle, x: SymbolCard, y: SymbolCard, d: Delta) {
    && x in b.symbols && y in t.symbols && SameSymbol(x, y)
    && d == PairedSymbols(x, y)
  }

  /** What a symbol delta says about the cards of the two bundles. */
  ghost predicate SymbolSays(b: Bundle, t: Bundle, d: Delta) {
    || (exists x, y :: SymbolPair(b, t, x, y, d))
    || (exists y :: y in t.symbols && d == SymbolDelta("added", y, None))
    || (exists x :: x in b.symbols && d == SymbolDelta("deleted", x, None))
  }

  ghost predicate SymbolsLined(b: Bundle) { forall x :: x in b.symbols ==> x.lineageId == ComputeSymbolLineageID(x) }

  lemma ValidIsLined(b: Bundle)
    requires BundleValid(b)
    ensures SymbolsLined(b)
  {
    forall x | x in b.symbols ensures x.lineageId == ComputeSymbolLineageID(x) { assert SymbolInFiles(b.snapshot, b.files, x); }
  }

  lemma SymbolBehind(b: Bundle, c: Card) returns (x: SymbolCard)
    requires c in SymbolCards(b)
    ensures x in b.symbols && SymbolVersion(x) == c
  {
    MapMember(SymbolVersion, b.symbols, c);
    x :| x in b.symbols && SymbolVersion(x) == c;
  }

  lemma SymbolSaid(b: Bundle, t: Bundle, d: Delta)
    requires SymbolsLined(b) && SymbolsLined(t)
    requires SaysOf(SymbolCards(b), SymbolCards(t), d) && d.kind == "symbol" && d.ordinal == 0
    ensures SymbolSays(b, t, d)
  {
    if c, e :| Joins(SymbolCards(b), SymbolCards(t), c, e, d) {
      var x := SymbolBehind(b, c);
      var y := SymbolBehind(t, e);
      SymbolLineageTells(x, y);
      SymbolPrintTells(x, y);
      assert SymbolPair(b, t, x, y, d);
    } else if e :| e in SymbolCards(t) && d.change == "added" && d.id == e.version.id && d.previous == None {
      var y := SymbolBehind(t, e);
      assert d == SymbolDelta("added", y, None);
    } else {
      var c :| c in SymbolCards(b) && d.change == "deleted" && d.id == c.version.id && d.previous == None;
      var x := SymbolBehind(b, c);
      assert d == SymbolDelta("deleted", x, None);
    }
  }

  lemma ListedSymbol(b: Bundle, t: Bundle, d: Delta)
    requires FilesComparable(b) && FilesComparable(t)
    requires d in Listed(b, t) && d.kind == "symbol"
    ensures d in SymbolDeltas(b, t, SomeOrder(SymbolCards(b), SymbolCards(t)))
  {
    KindsDiffer();
    ListedParts(b, t, d);
    OtherKinds(b, t, d);
    FilesOnly(b, t, d);
  }

  lemma FilesOnly(b: Bundle, t: Bundle, d: Delta)
    requires FilesComparable(b) && FilesComparable(t)
    ensures d in FileDeltas(b, t, SomeOrder(FileCards(b), FileCards(t))) ==> d.kind == "file"
  {
    SomeOrderLists(FileCards(b), FileCards(t));
    FilesExact(b, t, SomeOrder(FileCards(b), FileCards(t)));
  }

  /** A symbol delta joins the cards of one symbol on both sides, reused when
      everything kept about it agrees and modified when something differs, or it
      names a symbol gained or lost. */
  lemma SymbolDeltasSay(b: Bundle, t: Bundle, d: Delta)
    requires BundleValid(b) && BundleValid(t) && d in Listed(b, t) && d.kind == "symbol"
    ensures SymbolSays(b, t, d)
  {
    ValidIsComparable(b);
    ValidIsComparable(t);
    ValidIsLined(b);
    ValidIsLined(t);
    ListedSymbol(b, t, d);
    var order := SomeOrder(SymbolCards(b), SymbolCards(t));
    KindMeant("symbol", SymbolCards(b), SymbolCards(t), order, d);
    MeantSays(SymbolCards(b), SymbolCards(t), d);
    SymbolSaid(b, t, d);
  }

  lemma SymbolCardIn(b: Bundle, x: SymbolCard)
    requires x in b.symbols
    ensures SymbolVersion(x) in SymbolCards(b)
  {
    var i :| 0 <= i < |b.symbols| && b.symbols[i] == x;
    assert SymbolCards(b)[i] == SymbolVersion(x);
  }

  /** Reuse misses nothing: a symbol given up and the same symbol brought in differ,
      and the same symbol is never both lost and gained. */
  lemma SymbolReuseIsComplete(b: Bundle, t: Bundle, d: Delta, e: Delta, x: SymbolCard, y: SymbolCard)
    requires BundleValid(b) && BundleValid(t) && x in b.symbols && y in t.symbols && SameSymbol(x, y)
    requires d in Listed(b, t) && d.kind == "symbol" && GivesUp(d, RenderEntity(x.symbolId))
    requires e in Listed(b, t) && e.kind == "symbol" && BringsIn(e, RenderEntity(y.symbolId))
    ensures !SymbolUnchanged(x, y) && !(d.change == "deleted" && e.change == "added")
  {
    ValidIsComparable(b);
    ValidIsComparable(t);
    ValidIsLined(b);
    ValidIsLined(t);
    ListedSymbol(b, t, d);
    ListedSymbol(b, t, e);
    SymbolCardIn(b, x);
    SymbolCardIn(t, y);
    SymbolLineageTells(x, y);
    SymbolPrintTells(x, y);
    CleanIsDistinct(SymbolCards(b));
    CleanIsDistinct(SymbolCards(t));
    LeftoversDiffer("symbol", SymbolCards(b), SymbolCards(t), SomeOrder(SymbolCards(b), SymbolCards(t)), d, e, SymbolVersion(x), SymbolVersion(y));
  }

  /** The cards given up for one symbol are paired in the order of their identifiers,
      and those without a partner come last. */
  lemma SymbolPairsInOrder(b: Bundle, t: Bundle, d: Delta, e: Delta, x: SymbolCard, o: SymbolCard)
    requires BundleValid(b) && BundleValid(t) && x in b.symbols && o in b.symbols && SameSymbol(x, o)
    requires d in Listed(b, t) && d.kind == "symbol" && GivesUp(d, RenderEntity(x.symbolId))
    requires e in Listed(b, t) && e.kind == "symbol" && GivesUp(e, RenderEntity(o.symbolId))
    ensures InOrder(d, e)
  {
    ValidSymbolListed(b, t, d);
    ValidSymbolListed(b, t, e);
    ValidIsLined(b);
    SymbolsGivenUp(b, t, SomeOrder(SymbolCards(b), SymbolCards(t)), d, e, x, o);
  }

  lemma SymbolsGivenUp(b: Bundle, t: Bundle, order: seq<string>, d: Delta, e: Delta, x: SymbolCard, o: SymbolCard)
    requires SymbolsLined(b) && DistinctCards(SymbolCards(b)) && x in b.symbols && o in b.symbols && SameSymbol(x, o)
    requires d in SymbolDeltas(b, t, order) && GivesUp(d, RenderEntity(x.symbolId))
    requires e in SymbolDeltas(b, t, order) && GivesUp(e, RenderEntity(o.symbolId))
    ensures InOrder(d, e)
  {
    SymbolLineageTells(x, o);
    SymbolCardIn(b, x);
    SymbolCardIn(b, o);
    GivenUpInOrder("symbol", SymbolCards(b), SymbolCards(t), order, d, e, SymbolVersion(x), SymbolVersion(o));
  }

  /** A card gained for a symbol comes after those its modified cards turned into. */
  lemma SymbolGainsLast(b: Bundle, t: Bundle, d: Delta, e: Delta, x: SymbolCard, y: SymbolCard)
    requires BundleValid(b) && BundleValid(t) && x in b.symbols && y in t.symbols && SameSymbol(x, y)
    requires d in Listed(b, t) && d.kind == "symbol" && GivesUp(d, RenderEntity(x.symbolId))
    requires e in Listed(b, t) && e.kind == "symbol" && BringsIn(e, RenderEntity(y.symbolId))
    ensures InOrder(d, e)
  {
    ValidSymbolListed(b, t, d);
    ValidSymbolListed(b, t, e);
    ValidIsLined(b);
    ValidIsLined(t);
    SymbolsBroughtIn(b, t, SomeOrder(SymbolCards(b), SymbolCards(t)), d, e, x, y);
  }

  lemma SymbolsBroughtIn(b: Bundle, t: Bundle, order: seq<string>, d: Delta, e: Delta, x: SymbolCard, y: SymbolCard)
    requires SymbolsLined(b) && SymbolsLined(t) && DistinctCards(SymbolCards(b)) && DistinctCards(SymbolCards(t))
    requires x in b.symbols && y in t.symbols && SameSymbol(x, y)
    requires d in SymbolDeltas(b, t, order) && GivesUp(d, RenderEntity(x.symbolId))
    requires e in SymbolDeltas(b, t, order) && BringsIn(e, RenderEntity(y.symbolId))
    ensures InOrder(d, e)
  {
    SymbolLineageTells(x, y);
    SymbolCardIn(b, x);
    SymbolCardIn(t, y);
    BroughtInLast("symbol", SymbolCards(b), SymbolCards(t), order, d, e, SymbolVersion(x), SymbolVersion(y));
  }

  lemma ValidSymbolListed(b: Bundle, t: Bundle, d: Delta)
    requires BundleValid(b) && BundleValid(t) && d in Listed(b, t) && d.kind == "symbol"
    ensures d in SymbolDeltas(b, t, SomeOrder(SymbolCards(b), SymbolCards(t)))
    ensures DistinctCards(SymbolCards(b)) && DistinctCards(SymbolCards(t))
  {
    ValidIsComparable(b);
    ValidIsComparable(t);
    ListedSymbol(b, t, d);
    CleanIsDistinct(SymbolCards(b));
    CleanIsDistinct(SymbolCards(t));
  }

  ghost predicate OnlySymbol(b: Bundle, x: SymbolCard) { x in b.symbols && forall y :: y in b.symbols && SameSymbol(y, x) ==> y == x }

  lemma OnlySymbolIsSole(b: Bundle, x: SymbolCard)
    requires SymbolsLined(b) && OnlySymbol(b, x)
    ensures Sole(SymbolCards(b), SymbolVersion(x))
  {
    SymbolCardIn(b, x);
    forall c | c in SymbolCards(b) && c.lineage == SymbolVersion(x).lineage ensures c == SymbolVersion(x) {
      var y := SymbolBehind(b, c);
      SymbolLineageTells(y, x);
    }
  }

  lemma SoleSymbols(b: Bundle, t: Bundle, x: SymbolCard, y: SymbolCard)
    requires CleanIds(SymbolCards(b)) && CleanIds(SymbolCards(t)) && SymbolsLined(b) && SymbolsLined(t)
    requires OnlySymbol(b, x) && OnlySymbol(t, y) && SameSymbol(x, y)
    ensures PairedSymbols(x, y) in SymbolDeltas(b, t, SomeOrder(SymbolCards(b), SymbolCards(t)))
  {
    OnlySymbolIsSole(b, x);
    OnlySymbolIsSole(t, y);
    SymbolLineageTells(x, y);
    SymbolPrintTells(x, y);
    SolesListed("symbol", SymbolCards(b), SymbolCards(t), SymbolVersion(x), SymbolVersion(y), PairedSymbols(x, y));
  }

  /** A symbol with one card on either side yields exactly what its cards call for. */
  lemma SymbolOnBothSides(b: Bundle, t: Bundle, x: SymbolCard, y: SymbolCard)
    requires BundleValid(b) && BundleValid(t) && OnlySymbol(b, x) && OnlySymbol(t, y) && SameSymbol(x, y)
    ensures PairedSymbols(x, y) in Listed(b, t)
  {
    assert CleanIds(SymbolCards(b)) && CleanIds(SymbolCards(t)) by { ValidIsComparable(b); ValidIsComparable(t); }
    assert SymbolsLined(b) && SymbolsLined(t) by { ValidIsLined(b); ValidIsLined(t); }
    SoleSymbols(b, t, x, y);
    ListedParts(b, t, PairedSymbols(x, y));
  }

  // --------------------------------------------------------------- relations

  /** What of an entity outlives a commit: the name of a file or symbol of the
      repository, or the whole identifier of an entity outside it. */
  datatype Place = Within(lineage: LineageId) | Outside(id: EntityId)

  ghost predicate FileStands(b: Bundle, id: EntityId, p: Place) {
    exists f :: f in b.files && f.fileId == id && p == Within(FileLineage(f.repositoryId, f.path))
  }

  ghost predicate SymbolStands(b: Bundle, id: EntityId, p: Place) {
    exists x :: x in b.symbols && x.symbolId == id && p == Within(SymbolLineage(x.fileLineageId, x.language, x.kind, x.qualifiedName))
  }

  ghost predicate Stands(b: Bundle, id: EntityId, p: Place) {
    FileStands(b, id, p) || SymbolStands(b, id, p) || (id.ExternalId? && p == Outside(id))
  }

  /** The same file, the same symbol or the same outside entity on both sides. */
  ghost predicate SameEntity(b: Bundle, t: Bundle, x: EntityId, y: EntityId) { exists p :: Stands(b, x, p) && Stands(t, y, p) }

  function PlaceText(p: Place): string { if p.Within? then RenderLineage(p.lineage) else RenderEntity(p.id) }

  ghost predicate Placed(b: Bundle) {
    && Filed(b) && SymbolsLined(b) && PlanMeaning.Indexed(b)
  }

  lemma LineageIsNoEntity(l: LineageId, e: EntityId)
    requires e.ExternalId?
    ensures RenderLineage(l) != RenderEntity(e)
  {
    assert "file_lineage"[0] == 'f' && "symbol_lineage"[0] == 's' && "external"[0] == 'e';
    match l
    case FileLineage(repository, path) => StableIndexIDInjective("file_lineage", [repository, path], "external", [e.name]);
    case SymbolLineage(file, language, kind, name) =>
      StableIndexIDInjective("symbol_lineage", [RenderLineage(file), language, kind, name], "external", [e.name]);
  }

  ghost predicate RealPlace(p: Place) { p.Outside? ==> p.id.ExternalId? }

  lemma PlaceTextTells(p: Place, q: Place)
    requires RealPlace(p) && RealPlace(q)
    ensures PlaceText(p) == PlaceText(q) <==> p == q
  {
    if PlaceText(p) == PlaceText(q) {
      if p.Within? && q.Within? { LineageInjective(p.lineage, q.lineage); }
      else if p.Outside? && q.Outside? { EntityInjective(p.id, q.id); }
      else if p.Within? { LineageIsNoEntity(p.lineage, q.id); }
      else { LineageIsNoEntity(q.lineage, p.id); }
    }
  }

  lemma LineageTextShown(l: LineageId)
    ensures RenderLineage(l) != ""
  {
    match l
    case FileLineage(repository, path) => StableStarts("file_lineage", [repository, path]);
    case SymbolLineage(file, language, kind, name) => StableStarts("symbol_lineage", [RenderLineage(file), language, kind, name]);
  }

  lemma FilePlace(b: Bundle, f: FileCard)
    requires Placed(b) && f in b.files
    ensures LineageText(b, f.fileId) == RenderLineage(FileLineage(f.repositoryId, f.path))
    ensures EntityText(b, f.fileId) == LineageText(b, f.fileId)
  {
    PlanMeaning.SymbolFoundIs(b.symbols, f.fileId);
    Planning.FileByIdOf(b.files, f);
    LineageTextShown(f.lineageId);
  }

  lemma SymbolPlace(b: Bundle, x: SymbolCard)
    requires Placed(b) && x in b.symbols
    ensures EntityText(b, x.symbolId) == RenderLineage(SymbolLineage(x.fileLineageId, x.language, x.kind, x.qualifiedName))
  {
    PlanMeaning.SymbolFound(b.symbols, x);
    LineageTextShown(x.lineageId);
  }

  lemma OutsidePlace(b: Bundle, id: EntityId)
    requires Placed(b) && id.ExternalId?
    ensures EntityText(b, id) == RenderEntity(id)
  {
    PlanMeaning.SymbolFoundIs(b.symbols, id);
    PlanMeaning.FileFoundIs(b.files, id);
  }

  lemma StandsText(b: Bundle, id: EntityId, p: Place)
    requires Placed(b) && Stands(b, id, p)
    ensures EntityText(b, id) == PlaceText(p) && RealPlace(p)
  {
    if FileStands(b, id, p) {
      var f :| f in b.files && f.fileId == id && p == Within(FileLineage(f.repositoryId, f.path));
      FilePlace(b, f);
    } else if SymbolStands(b, id, p) {
      var x :| x in b.symbols && x.symbolId == id && p == Within(SymbolLineage(x.fileLineageId, x.language, x.kind, x.qualifiedName));
      SymbolPlace(b, x);
    } else {
      OutsidePlace(b, id);
    }
  }

  lemma StandsSomewhere(b: Bundle, id: EntityId) returns (p: Place)
    requires HasFile(b.files, id) || HasSymbol(b.symbols, id) || id.ExternalId?
    ensures Stands(b, id, p)
  {
    if f :| f in b.files && f.fileId == id {
      p := Within(FileLineage(f.repositoryId, f.path));
      assert FileStands(b, id, p);
    } else if x :| x in b.symbols && x.symbolId == id {
      p := Within(SymbolLineage(x.fileLineageId, x.language, x.kind, x.qualifiedName));
      assert SymbolStands(b, id, p);
    } else {
      p := Outside(id);
    }
  }

  ghost predicate Known(b: Bundle, id: EntityId) { HasFile(b.files, id) || HasSymbol(b.symbols, id) || id.ExternalId? }

  lemma EntityTextTells(b: Bundle, t: Bundle, x: EntityId, y: EntityId)
    requires Placed(b) && Placed(t) && Known(b, x) && Known(t, y)
    ensures EntityText(b, x) == EntityText(t, y) <==> SameEntity(b, t, x, y)
  {
    var p := StandsSomewhere(b, x);
    var q := StandsSomewhere(t, y);
    StandsText(b, x, p);
    StandsText(t, y, q);
    PlaceTextTells(p, q);
    if r :| Stands(b, x, r) && Stands(t, y, r) {
      StandsText(b, x, r);
      StandsText(t, y, r);
    }
  }

  lemma FileTextTells(b: Bundle, t: Bundle, x: EntityId, y: EntityId)
    requires Placed(b) && Placed(t) && HasFile(b.files, x) && HasFile(t.files, y)
    ensures LineageText(b, x) == LineageText(t, y) <==> SameEntity(b, t, x, y)
  {
    var f :| f in b.files && f.fileId == x;
    var g :| g in t.files && g.fileId == y;
    FilePlace(b, f);
    FilePlace(t, g);
    EntityTextTells(b, t, x, y);
  }

  /** The targets of two relations are one entity, or one name that was not found. */
  ghost predicate SameTarget(b: Bundle, t: Bundle, r: RelationEvidence, s: RelationEvidence) {
    || (r.targetEntityId.Some? && s.targetEntityId.Some? && SameEntity(b, t, r.targetEntityId.value, s.targetEntityId.value))
    || (r.targetEntityId.None? && s.targetEntityId.None? && r.unresolvedName == s.unresolvedName)
  }

  /** The same claim at the same spot of the same file on both sides. */
  ghost predicate SameRelation(b: Bundle, t: Bundle, r: RelationEvidence, s: RelationEvidence) {
    && r.kind == s.kind && r.resolution == s.resolution && r.locator == s.locator
    && SameEntity(b, t, r.sourceEntityId, s.sourceEntityId) && SameEntity(b, t, r.sourceFileId, s.sourceFileId)
    && SameTarget(b, t, r, s)
  }

  /** The claim rests on the same evidence from the same adapter. */
  predicate RelationUnchanged(r: RelationEvidence, s: RelationEvidence) {
    r.evidenceClass == s.evidenceClass && r.evidenceHash == s.evidenceHash && r.adapter == s.adapter
  }

  function RelationPrint(r: RelationEvidence): seq<string> {
    [r.evidenceClass, r.evidenceHash, r.adapter.name, r.adapter.version, r.adapter.configurationHash, r.adapter.capabilityHash]
  }

  lemma RelationPrintTells(b: Bundle, t: Bundle, r: RelationEvidence, s: RelationEvidence)
    ensures RelationVersion(b)(r).version.fingerprint == RelationVersion(t)(s).version.fingerprint <==> RelationUnchanged(r, s)
  {
    var p, q := RelationPrint(r), RelationPrint(s);
    StableIndexIDInjective("relation_fingerprint", p, "relation_fingerprint", q);
    if p == q { assert p[0] == q[0] && p[1] == q[1] && p[2] == q[2] && p[3] == q[3] && p[4] == q[4] && p[5] == q[5]; }
  }

  function TargetText(b: Bundle, r: RelationEvidence): string {
    if r.targetEntityId.Some? then EntityText(b, r.targetEntityId.value)
    else if r.unresolvedName.Some? then "unresolved:" + r.unresolvedName.value else ""
  }

  /** What a valid bundle says of a relation. */
  ghost predicate RelationKnown(b: Bundle, r: RelationEvidence) {
    && Known(b, r.sourceEntityId) && HasFile(b.files, r.sourceFileId)
    && (r.targetEntityId.Some? ==> Known(b, r.targetEntityId.value))
    && (r.resolution == "resolved" <==> r.targetEntityId.Some?) && (r.targetEntityId.None? <==> r.unresolvedName.Some?)
  }

  lemma TargetTextTells(b: Bundle, t: Bundle, r: RelationEvidence, s: RelationEvidence)
    requires Placed(b) && Placed(t) && RelationKnown(b, r) && RelationKnown(t, s) && r.resolution == s.resolution
    ensures TargetText(b, r) == TargetText(t, s) <==> SameTarget(b, t, r, s)
  {
    if r.targetEntityId.Some? {
      EntityTextTells(b, t, r.targetEntityId.value, s.targetEntityId.value);
    } else {
      var m, n := r.unresolvedName.value, s.unresolvedName.value;
      assert ("unresolved:" + m)[11..] == m && ("unresolved:" + n)[11..] == n;
    }
  }

  function ClaimParts(b: Bundle, r: RelationEvidence): seq<string> {
    [EntityText(b, r.sourceEntityId), r.kind, r.resolution, TargetText(b, r), LineageText(b, r.sourceFileId), RangeText(r.locator)]
  }

  lemma RelationLineageIs(b: Bundle, r: RelationEvidence)
    ensures RelationVersion(b)(r).lineage == StableIndexID("relation_lineage", ClaimParts(b, r))
  {}

  lemma ClaimTells(b: Bundle, t: Bundle, r: RelationEvidence, s: RelationEvidence)
    requires Placed(b) && Placed(t) && RelationKnown(b, r) && RelationKnown(t, s)
    ensures ClaimParts(b, r) == ClaimParts(t, s) <==> SameRelation(b, t, r, s)
  {
    var p, q := ClaimParts(b, r), ClaimParts(t, s);
    EntityTextTells(b, t, r.sourceEntityId, s.sourceEntityId);
    FileTextTells(b, t, r.sourceFileId, s.sourceFileId);
    if r.resolution == s.resolution { TargetTextTells(b, t, r, s); }
    if p == q {
      assert p[0] == q[0] && p[1] == q[1] && p[2] == q[2] && p[3] == q[3] && p[4] == q[4] && p[5] == q[5];
      RangeTextInjective(r.locator, s.locator);
    }
  }

  lemma RelationLineageTells(b: Bundle, t: Bundle, r: RelationEvidence, s: RelationEvidence)
    requires Placed(b) && Placed(t) && RelationKnown(b, r) && RelationKnown(t, s)
    ensures RelationVersion(b)(r).lineage == RelationVersion(t)(s).lineage <==> SameRelation(b, t, r, s)
  {
    RelationLineageIs(b, r);
    RelationLineageIs(t, s);
    StableIndexIDInjective("relation_lineage", ClaimParts(b, r), "relation_lineage", ClaimParts(t, s));
    ClaimTells(b, t, r, s);
  }

  function RelationDelta(change: string, s: RelationEvidence, previous: Option<RelationEvidence>): Delta {
    Delta(0, change, "relation", RenderRelation(s.relationId), if previous.Some? then Some(RenderRelation(previous.value.relationId)) else None)
  }

  /** Reused when the claim rests on the same evidence, modified when not. */
  function PairedRelations(r: RelationEvidence, s: RelationEvidence): Delta {
    RelationDelta(if RelationUnchanged(r, s) then "reused" else "modified", s, Some(r))
  }

  ghost predicate RelationPair(b: Bundle, t: Bundle, r: RelationEvidence, s: RelationEvidence, d: Delta) {
    && r in b.relations && s in t.relations && SameRelation(b, t, r, s)
    && d == PairedRelations(r, s)
  }

  /** What a relation delta says about the cards of the two bundles. */
  ghost predicate RelationSays(b: Bundle, t: Bundle, d: Delta) {
    || (exists r, s :: RelationPair(b, t, r, s, d))
    || (exists s :: s in t.relations && d == RelationDelta("added", s, None))
    || (exists r :: r in b.relations && d == RelationDelta("deleted", r, None))
  }

  ghost predicate RelationsKnown(b: Bundle) { Placed(b) && forall r :: r in b.relations ==> RelationKnown(b, r) }

  lemma ValidIsKnown(b: Bundle)
    requires BundleValid(b)
    ensures RelationsKnown(b)
  {
    ValidIsFiled(b);
    ValidIsLined(b);
    PlanMeaning.ValidIsIndexed(b);
    forall r | r in b.relations ensures RelationKnown(b, r) {
      assert RelationInBundle(b.snapshot, b.files, b.symbols, r);
      assert "resolved"[0] != "unresolved"[0];
    }
  }

  lemma RelationBehind(b: Bundle, c: Card) returns (r: RelationEvidence)
    requires c in RelationCards(b)
    ensures r in b.relations && RelationVersion(b)(r) == c && c.version.id == RenderRelation(r.relationId)
  {
    MapMember(RelationVersion(b), b.relations, c);
    r :| r in b.relations && RelationVersion(b)(r) == c;
  }

  lemma RelationJoined(b: Bundle, t: Bundle, c: Card, e: Card, d: Delta)
    requires RelationsKnown(b) && RelationsKnown(t) && d.kind == "relation" && d.ordinal == 0
    requires Joins(RelationCards(b), RelationCards(t), c, e, d)
    ensures exists r, s :: RelationPair(b, t, r, s, d)
  {
    var r := RelationBehind(b, c);
    var s := RelationBehind(t, e);
    RelationLineageTells(b, t, r, s);
    RelationPrintTells(b, t, r, s);
    assert RelationPair(b, t, r, s, d);
  }

  lemma RelationSaid(b: Bundle, t: Bundle, d: Delta)
    requires RelationsKnown(b) && RelationsKnown(t)
    requires SaysOf(RelationCards(b), RelationCards(t), d) && d.kind == "relation" && d.ordinal == 0
    ensures RelationSays(b, t, d)
  {
    if c, e :| Joins(RelationCards(b), RelationCards(t), c, e, d) {
      RelationJoined(b, t, c, e, d);
    } else if e :| e in RelationCards(t) && d.change == "added" && d.id == e.version.id && d.previous == None {
      var s := RelationBehind(t, e);
      assert d == RelationDelta("added", s, None);
    } else {
      var c :| c in RelationCards(b) && d.change == "deleted" && d.id == c.version.id && d.previous == None;
      var r := RelationBehind(b, c);
      assert d == RelationDelta("deleted", r, None);
    }
  }

  lemma ListedRelation(b: Bundle, t: Bundle, d: Delta)
    requires FilesComparable(b) && FilesComparable(t)
    requires d in Listed(b, t) && d.kind == "relation"
    ensures d in RelationDeltas(b, t, SomeOrder(RelationCards(b), RelationCards(t)))
  {
    KindsDiffer();
    ListedParts(b, t, d);
    OtherKinds(b, t, d);
    FilesOnly(b, t, d);
  }

  /** A relation delta joins one claim on both sides, reused when it rests on the
      same evidence and modified when not, or it names a claim gained or lost. */
  lemma RelationDeltasSay(b: Bundle, t: Bundle, d: Delta)
    requires BundleValid(b) && BundleValid(t) && d in Listed(b, t) && d.kind == "relation"
    ensures RelationSays(b, t, d)
  {
    ValidIsComparable(b);
    ValidIsComparable(t);
    ValidIsKnown(b);
    ValidIsKnown(t);
    ListedRelation(b, t, d);
    var order := SomeOrder(RelationCards(b), RelationCards(t));
    KindMeant("relation", RelationCards(b), RelationCards(t), order, d);
    MeantSays(RelationCards(b), RelationCards(t), d);
    RelationSaid(b, t, d);
  }

  lemma RelationCardIn(b: Bundle, r: RelationEvidence)
    requires r in b.relations
    ensures RelationVersion(b)(r) in RelationCards(b) && RelationVersion(b)(r).version.id == RenderRelation(r.relationId)
  {
    var i :| 0 <= i < |b.relations| && b.relations[i] == r;
    assert RelationCards(b)[i] == RelationVersion(b)(r);
  }

  /** Reuse misses nothing: a claim given up and the same claim brought in rest on
      different evidence, and the same claim is never both lost and gained. */
  lemma RelationReuseIsComplete(b: Bundle, t: Bundle, d: Delta, e: Delta, r: RelationEvidence, s: RelationEvidence)
    requires BundleValid(b) && BundleValid(t) && r in b.relations && s in t.relations && SameRelation(b, t, r, s)
    requires d in Listed(b, t) && d.kind == "relation" && GivesUp(d, RenderRelation(r.relationId))
    requires e in Listed(b, t) && e.kind == "relation" && BringsIn(e, RenderRelation(s.relationId))
    ensures !RelationUnchanged(r, s) && !(d.change == "deleted" && e.change == "added")
  {
    ValidRelationListed(b, t, d);
    ValidRelationListed(b, t, e);
    ValidIsKnown(b);
    ValidIsKnown(t);
    RelationLeftovers(b, t, SomeOrder(RelationCards(b), RelationCards(t)), d, e, r, s);
  }

  lemma ValidRelationListed(b: Bundle, t: Bundle, d: Delta)
    requires BundleValid(b) && BundleValid(t) && d in Listed(b, t) && d.kind == "relation"
    ensures d in RelationDeltas(b, t, SomeOrder(RelationCards(b), RelationCards(t)))
    ensures DistinctCards(RelationCards(b)) && DistinctCards(RelationCards(t))
  {
    ValidIsComparable(b);
    ValidIsComparable(t);
    ListedRelation(b, t, d);
    CleanIsDistinct(RelationCards(b));
    CleanIsDistinct(RelationCards(t));
  }

  lemma RelationLeftovers(b: Bundle, t: Bundle, order: seq<string>, d: Delta, e: Delta, r: RelationEvidence, s: RelationEvidence)
    requires RelationsKnown(b) && RelationsKnown(t) && r in b.relations && s in t.relations && SameRelation(b, t, r, s)
    requires DistinctCards(RelationCards(b)) && DistinctCards(RelationCards(t))
    requires d in RelationDeltas(b, t, order) && GivesUp(d, RenderRelation(r.relationId))
    requires e in RelationDeltas(b, t, order) && BringsIn(e, RenderRelation(s.relationId))
    ensures !RelationUnchanged(r, s) && !(d.change == "deleted" && e.change == "added")
  {
    RelationCardIn(b, r);
    RelationCardIn(t, s);
    RelationLineageTells(b, t, r, s);
    RelationPrintTells(b, t, r, s);
    LeftoversDiffer("relation", RelationCards(b), RelationCards(t), order, d, e, RelationVersion(b)(r), RelationVersion(t)(s));
  }

  /** The relations given up for one claim are paired in the order of their identifiers,
      and those without a partner come last. */
  lemma RelationPairsInOrder(b: Bundle, t: Bundle, d: Delta, e: Delta, r: RelationEvidence, o: RelationEvidence)
    requires BundleValid(b) && BundleValid(t) && r in b.relations && o in b.relations && SameRelation(b, b, r, o)
    requires d in Listed(b, t) && d.kind == "relation" && GivesUp(d, RenderRelation(r.relationId))
    requires e in Listed(b, t) && e.kind == "relation" && GivesUp(e, RenderRelation(o.relationId))
    ensures InOrder(d, e)
  {
    ValidRelationListed(b, t, d);
    ValidRelationListed(b, t, e);
    ValidIsKnown(b);
    ClaimsGivenUp(b, t, SomeOrder(RelationCards(b), RelationCards(t)), d, e, r, o);
  }

  lemma ClaimsGivenUp(b: Bundle, t: Bundle, order: seq<string>, d: Delta, e: Delta, r: RelationEvidence, o: RelationEvidence)
    requires RelationsKnown(b) && DistinctCards(RelationCards(b)) && r in b.relations && o in b.relations && SameRelation(b, b, r, o)
    requires d in RelationDeltas(b, t, order) && GivesUp(d, RenderRelation(r.relationId))
    requires e in RelationDeltas(b, t, order) && GivesUp(e, RenderRelation(o.relationId))
    ensures InOrder(d, e)
  {
    RelationCardIn(b, r);
    RelationCardIn(b, o);
    RelationLineageTells(b, b, r, o);
    GivenUpInOrder("relation", RelationCards(b), RelationCards(t), order, d, e, RelationVersion(b)(r), RelationVersion(b)(o));
  }

  ghost predicate OnlyRelation(b: Bundle, r: RelationEvidence) { r in b.relations && forall s :: s in b.relations && SameRelation(b, b, s, r) ==> s == r }

  lemma OnlyRelationIsSole(b: Bundle, r: RelationEvidence)
    requires RelationsKnown(b) && OnlyRelation(b, r)
    ensures Sole(RelationCards(b), RelationVersion(b)(r))
  {
    RelationCardIn(b, r);
    forall c | c in RelationCards(b) && c.lineage == RelationVersion(b)(r).lineage ensures c == RelationVersion(b)(r) {
      var s := RelationBehind(b, c);
      RelationLineageTells(b, b, s, r);
    }
  }

  /** A claim made once on either side yields exactly what its evidence calls for. */
  lemma RelationOnBothSides(b: Bundle, t: Bundle, r: RelationEvidence, s: RelationEvidence)
    requires BundleValid(b) && BundleValid(t) && OnlyRelation(b, r) && OnlyRelation(t, s) && SameRelation(b, t, r, s)
    ensures PairedRelations(r, s) in Listed(b, t)
  {
    ValidIsReady(b);
    ValidIsReady(t);
    SoleRelationsListed(b, t, r, s);
  }

  lemma ValidIsReady(b: Bundle)
    requires BundleValid(b)
    ensures CleanIds(RelationCards(b)) && RelationsKnown(b)
  {
    ValidIsComparable(b);
    ValidIsKnown(b);
  }

  lemma SoleRelationsListed(b: Bundle, t: Bundle, r: RelationEvidence, s: RelationEvidence)
    requires CleanIds(RelationCards(b)) && CleanIds(RelationCards(t)) && RelationsKnown(b) && RelationsKnown(t)
    requires OnlyRelation(b, r) && OnlyRelation(t, s) && SameRelation(b, t, r, s)
    ensures PairedRelations(r, s) in Listed(b, t)
  {
    SoleRelations(b, t, r, s);
    ListedParts(b, t, PairedRelations(r, s));
  }

  lemma RelationsMeet(b: Bundle, t: Bundle, r: RelationEvidence, s: RelationEvidence)
    requires RelationsKnown(b) && RelationsKnown(t) && r in b.relations && s in t.relations && SameRelation(b, t, r, s)
    ensures RelationVersion(b)(r).lineage == RelationVersion(t)(s).lineage
    ensures PairedDelta("relation", RelationVersion(b)(r).version, RelationVersion(t)(s).version) == PairedRelations(r, s)
  {
    RelationCardIn(b, r);
    RelationCardIn(t, s);
    RelationLineageTells(b, t, r, s);
    RelationPrintTells(b, t, r, s);
  }

  lemma SoleRelations(b: Bundle, t: Bundle, r: RelationEvidence, s: RelationEvidence)
    requires CleanIds(RelationCards(b)) && CleanIds(RelationCards(t)) && RelationsKnown(b) && RelationsKnown(t)
    requires OnlyRelation(b, r) && OnlyRelation(t, s) && SameRelation(b, t, r, s)
    ensures PairedRelations(r, s) in RelationDeltas(b, t, SomeOrder(RelationCards(b), RelationCards(t)))
  {
    OnlyRelationIsSole(b, r);
    OnlyRelationIsSole(t, s);
    RelationsMeet(b, t, r, s);
    SolesListed("relation", RelationCards(b), RelationCards(t), RelationVersion(b)(r), RelationVersion(t)(s), PairedRelations(r, s));
  }
}
