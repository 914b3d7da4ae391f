/** Comparing all lineages of one kind of entity; map iteration order is a parameter. */
module LineageComparison {
  import opened Ordering
  import opened Seqs
  import opened Cards
  import opened Deltas

  /** One entity as the comparison sees it. */
  datatype Card = Card(lineage: string, version: Version)

  function VersionOf(c: Card): Version { c.version }
  function CardId(c: Card): string { c.version.id }
  function InLineage(l: string): Card -> bool { (c: Card) => c.lineage == l }
  function InLineages(ls: seq<string>): Card -> bool { (c: Card) => c.lineage in ls }

  function Versions(cards: seq<Card>, l: string): seq<Version> { Map(VersionOf, Filter(InLineage(l), cards)) }

  function Lineages(cards: seq<Card>): set<string> { set c | c in cards :: c.lineage }

  /** A map whose keys `order` lists, each once, in some order. */
  ghost predicate ListsOnce<K>(order: seq<K>, keys: set<K>) { multiset(order) == multiset(keys) }

  function Comparer(kind: string, base: seq<Card>, target: seq<Card>): string -> seq<Delta> {
    (l: string) => LineageDeltas(kind, Versions(base, l), Versions(target, l))
  }

  function KindDeltas(kind: string, base: seq<Card>, target: seq<Card>, order: seq<string>): seq<Delta> {
    FlatMap(Comparer(kind, base, target), order)
  }

  // ------------------------------------------------------------ loop forms

  /** The versions a map of lineages holds; a missing key reads as empty. */
  function HeldIn(m: map<string, seq<Version>>, l: string): seq<Version> { if l in m then m[l] else [] }

  function WithVersion(m: map<string, seq<Version>>, c: Card): map<string, seq<Version>> {
    m[c.lineage := HeldIn(m, c.lineage) + [c.version]]
  }

  lemma GroupStep(m: map<string, seq<Version>>, cards: seq<Card>, c: Card, l: string)
    requires HeldIn(m, l) == Versions(cards, l) && (l in m <==> l in Lineages(cards))
    ensures HeldIn(WithVersion(m, c), l) == Versions(cards + [c], l)
    ensures l in WithVersion(m, c) <==> l in Lineages(cards + [c])
  {
    VersionsAppend(cards, c, l);
    assert Lineages(cards + [c]) == Lineages(cards) + {c.lineage};
  }

  method GroupByLineage(cards: seq<Card>) returns (m: map<string, seq<Version>>)
    ensures m.Keys == Lineages(cards)
    ensures forall l :: l in m ==> m[l] == Versions(cards, l)
  {
    m := map[];
    for i := 0 to |cards|
      invariant forall l :: HeldIn(m, l) == Versions(cards[..i], l) && (l in m <==> l in Lineages(cards[..i]))
    {
      assert cards[..i+1] == cards[..i] + [cards[i]];
      var next := WithVersion(m, cards[i]);
      forall l ensures HeldIn(next, l) == Versions(cards[..i+1], l) && (l in next <==> l in Lineages(cards[..i+1])) {
        GroupStep(m, cards[..i], cards[i], l);
      }
      m := next;
    }
    assert cards[..|cards|] == cards;
    forall l | l in m ensures m[l] == Versions(cards, l) { assert HeldIn(m, l) == Versions(cards, l); }
  }

  lemma VersionsAppend(cards: seq<Card>, c: Card, l: string)
    ensures Versions(cards + [c], l) == Versions(cards, l) + (if c.lineage == l then [c.version] else [])
  {
    FilterAppend(InLineage(l), cards, [c]);
    MapAppend(VersionOf, Filter(InLineage(l), cards), Filter(InLineage(l), [c]));
  }

  lemma {:induction false} NoVersions(cards: seq<Card>, l: string)
    requires l !in Lineages(cards)
    ensures Versions(cards, l) == []
  {
    FilterNone(InLineage(l), cards);
  }

  lemma HeldVersions(cards: seq<Card>, m: map<string, seq<Version>>, l: string)
    requires m.Keys == Lineages(cards) && forall k :: k in m ==> m[k] == Versions(cards, k)
    ensures HeldIn(m, l) == Versions(cards, l)
  {
    if l !in m { NoVersions(cards, l); }
  }

  method CompareLineages(kind: string, base: seq<Card>, target: seq<Card>, order: seq<string>) returns (result: seq<Delta>)
    requires ListsOnce(order, Lineages(base) + Lineages(target))
    ensures result == KindDeltas(kind, base, target, order)
  {
    var before := GroupByLineage(base);
    var after := GroupByLineage(target);
    ghost var compare := Comparer(kind, base, target);
    forall l ensures LineageDeltas(kind, HeldIn(before, l), HeldIn(after, l)) == compare(l) {
      HeldVersions(base, before, l);
      HeldVersions(target, after, l);
    }
    result := CompareEach(kind, before, after, order, compare);
  }

  method CompareEach(kind: string, before: map<string, seq<Version>>, after: map<string, seq<Version>>,
                     order: seq<string>, ghost compare: string -> seq<Delta>) returns (result: seq<Delta>)
    requires forall l :: LineageDeltas(kind, HeldIn(before, l), HeldIn(after, l)) == compare(l)
    ensures result == FlatMap(compare, order)
  {
    result := [];
    for i := 0 to |order|
      invariant result == FlatMap(compare, order[..i])
    {
      assert order[..i+1] == order[..i] + [order[i]];
      FlatMapAppend(compare, order[..i], [order[i]]);
      assert FlatMap(compare, [order[i]]) == compare(order[i]);
      var deltas := CompareLineage(kind, HeldIn(before, order[i]), HeldIn(after, order[i]));
      result := result + deltas;
    }
    assert order[..|order|] == order;
  }

  // ----------------------------------------------------------- conservation

  lemma IdsOfLineage(cards: seq<Card>, l: string)
    ensures Ids(Versions(cards, l)) == multiset(Map(CardId, Filter(InLineage(l), cards)))
  {
    assert Map(IdOf, Versions(cards, l)) == Map(CardId, Filter(InLineage(l), cards));
  }

  function IdsAmong(cards: seq<Card>, ls: seq<string>): multiset<string> {
    multiset(Map(CardId, Filter(InLineages(ls), cards)))
  }

  lemma IdsGrow(cards: seq<Card>, ls: seq<string>, l: string)
    requires l !in ls
    ensures IdsAmong(cards, [l] + ls) == multiset(Map(CardId, Filter(InLineage(l), cards))) + IdsAmong(cards, ls)
  {
    FilterMapDisjoint(CardId, InLineage(l), InLineages(ls), InLineages([l] + ls), cards);
  }

  /** The comparisons of distinct lineages consume and produce each of their entities once. */
  lemma {:induction false} LineagesConserve(kind: string, base: seq<Card>, target: seq<Card>, order: seq<string>)
    requires NoRepeat(order)
    ensures Consumed(KindDeltas(kind, base, target, order)) == IdsAmong(base, order)
    ensures Produced(KindDeltas(kind, base, target, order)) == IdsAmong(target, order)
  {
    if order == [] {
      FilterNone(InLineages([]), base);
      FilterNone(InLineages([]), target);
    } else {
      var l, rest := order[0], order[1..];
      assert NoRepeat(rest) && l !in rest by { RestFresh(order); }
      LineagesConserve(kind, base, target, rest);
      LineageConserves(kind, Versions(base, l), Versions(target, l));
      IdsOfLineage(base, l);
      IdsOfLineage(target, l);
      ConsumedAppend(Comparer(kind, base, target)(l), KindDeltas(kind, base, target, rest));
      assert order == [l] + rest;
      IdsGrow(base, rest, l);
      IdsGrow(target, rest, l);
    }
  }

  lemma RestFresh<A>(s: seq<A>)
    requires NoRepeat(s) && s != []
    ensures NoRepeat(s[1..]) && s[0] !in s[1..]
  {
    forall i, j | 0 <= i < j < |s[1..]| ensures s[1..][i] != s[1..][j] { assert s[i+1] != s[j+1]; }
    forall i | 0 <= i < |s[1..]| ensures s[1..][i] != s[0] { assert s[0] != s[i+1]; }
  }

  lemma ListedOnce<K>(order: seq<K>, keys: set<K>)
    requires ListsOnce(order, keys)
    ensures NoRepeat(order) && forall k :: k in order <==> k in keys
  {
    forall i, j | 0 <= i < j < |order| && order[i] == order[j] ensures false { TwiceCounted(order, i, j); }
    forall k ensures k in order <==> k in keys { assert k in order <==> k in multiset(order); }
  }

  lemma AllIds(cards: seq<Card>, order: seq<string>)
    requires forall l :: l in Lineages(cards) ==> l in order
    ensures IdsAmong(cards, order) == multiset(Map(CardId, cards))
  {
    forall c | c in cards ensures InLineages(order)(c) { assert c.lineage in Lineages(cards); }
    FilterAll(InLineages(order), cards);
  }

  /** Every baseline identifier is consumed exactly once and every target
      identifier produced exactly once, whatever the order of the lineages. */
  lemma KindConserves(kind: string, base: seq<Card>, target: seq<Card>, order: seq<string>)
    requires ListsOnce(order, Lineages(base) + Lineages(target))
    ensures Consumed(KindDeltas(kind, base, target, order)) == multiset(Map(CardId, base))
    ensures Produced(KindDeltas(kind, base, target, order)) == multiset(Map(CardId, target))
  {
    ListedOnce(order, Lineages(base) + Lineages(target));
    AllIds(base, order);
    AllIds(target, order);
    LineagesConserve(kind, base, target, order);
  }

  lemma KindForgetsOrder(kind: string, base: seq<Card>, target: seq<Card>, a: seq<string>, b: seq<string>)
    requires ListsOnce(a, Lineages(base) + Lineages(target)) && ListsOnce(b, Lineages(base) + Lineages(target))
    ensures multiset(KindDeltas(kind, base, target, a)) == multiset(KindDeltas(kind, base, target, b))
  {
    FlatMapPermutes(Comparer(kind, base, target), a, b);
  }

  /** A reused delta joins two cards of one lineage with equal fingerprints, a
      modified one two of one lineage with different fingerprints. */
  ghost predicate Meant(base: seq<Card>, target: seq<Card>, d: Delta) {
    exists l :: Explained(Versions(base, l), Versions(target, l), d)
  }

  lemma KindMeant(kind: string, base: seq<Card>, target: seq<Card>, order: seq<string>, d: Delta)
    requires d in KindDeltas(kind, base, target, order)
    ensures Meant(base, target, d) && d.kind == kind && d.ordinal == 0
  {
    FlatMapMember(Comparer(kind, base, target), order, d);
    var l :| l in order && d in Comparer(kind, base, target)(l);
    LineageExplained(kind, Versions(base, l), Versions(target, l));
    LineageKind(kind, Versions(base, l), Versions(target, l), d);
  }

  lemma LineageKind(kind: string, before: seq<Version>, after: seq<Version>, d: Delta)
    requires d in LineageDeltas(kind, before, after)
    ensures d.kind == kind && d.ordinal == 0
  {
    var m := MatchSorted(before, after);
    var left, right := Sort(IdLess, m.left), Sort(IdLess, m.right);
    var n := Least(|left|, |right|);
    if d in Map(ReusedDelta(kind), m.reused) {
      MapMember(ReusedDelta(kind), m.reused, d);
    } else if d in Map(ModifiedDelta(kind), Zip(left[..n], right[..n])) {
      MapMember(ModifiedDelta(kind), Zip(left[..n], right[..n]), d);
    } else if d in Map(AddedDelta(kind), right[n..]) {
      MapMember(AddedDelta(kind), right[n..], d);
    } else {
      MapMember(DeletedDelta(kind), left[n..], d);
    }
  }

  // ---------------------------------------------------------------- no ties

  lemma {:induction false} CountedTwice<A>(p: A -> bool, f: A -> string, s: seq<A>, i: nat, j: nat)
    requires i < j < |s| && p(s[i]) && p(s[j]) && f(s[i]) == f(s[j])
    ensures multiset(Map(f, Filter(p, s)))[f(s[i])] >= 2
  {
    if i == 0 {
      FilterMember(p, s[1..], s[j]);
      assert s[1..][j-1] == s[j];
      var rest := Filter(p, s[1..]);
      var k :| 0 <= k < |rest| && rest[k] == s[j];
      assert Filter(p, s) == [s[0]] + rest;
      assert Map(f, Filter(p, s))[0] == Map(f, Filter(p, s))[k+1];
      TwiceCounted(Map(f, Filter(p, s)), 0, k + 1);
    } else {
      CountedTwice(p, f, s[1..], i - 1, j - 1);
      var first := if p(s[0]) then [s[0]] else [];
      MapAppend(f, first, Filter(p, s[1..]));
    }
  }

  /** No identifier is consumed or produced twice. */
  ghost predicate Sparing(ds: seq<Delta>) {
    forall x :: Consumed(ds)[x] <= 1 && Produced(ds)[x] <= 1
  }

  lemma SparingIsDistinct(ds: seq<Delta>, i: nat, j: nat)
    requires Sparing(ds) && i < j < |ds|
    ensures ds[i].id != ds[j].id || ds[i].change != ds[j].change
  {
    assert Consumed(ds)[ds[i].id] <= 1 && Produced(ds)[ds[i].id] <= 1;
    if ds[i].id == ds[j].id && ds[i].change == ds[j].change {
      if ds[i].change == "deleted" {
        CountedTwice(Consumes, ConsumedId, ds, i, j);
      } else {
        CountedTwice(Produces, ProducedId, ds, i, j);
      }
    }
  }
}
