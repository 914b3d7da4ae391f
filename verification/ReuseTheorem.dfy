/** The main theorem on reuse, from symbols through relations to files. */
module ReuseTheorem {
  import opened Ordering
  import opened Seqs
  import opened Cards
  import opened Bundles
  import opened Normalization
  import opened NormalizationProofs
  import opened Reuse
  import opened ReuseProofs

  // -------------------------------------------------------------- symbols

  lemma SplitMember(c: Case, t: Tagged<RawSymbol>)
    ensures t in TaggedSymbols(c.nextResults) <==> t in TaggedSymbols(Skipped(c)) || t in TaggedSymbols(Reused(c))
  {
    MaskSplitsSymbols(c.nextResults, c.descs);
    assert t in multiset(TaggedSymbols(c.nextResults)) <==> t in TaggedSymbols(c.nextResults);
    assert t in multiset(TaggedSymbols(Skipped(c))) <==> t in TaggedSymbols(Skipped(c));
    assert t in multiset(TaggedSymbols(Reused(c))) <==> t in TaggedSymbols(Reused(c));
  }

  lemma ReusedMember(c: Case, t: Tagged<RawSymbol>)
    requires Environment(c) && CarriedUnchanged(c)
    ensures t in TaggedSymbols(Reused(c)) <==> t in TaggedSymbols(c.baseResults) && t.adapter in c.descs
  {
    MaskFilters(c.baseResults, c.descs);
    ReusedAgree(c);
    FilterMember(TagIn(c.descs), TaggedSymbols(c.baseResults), t);
  }

  lemma SkippedMember(c: Case, t: Tagged<RawSymbol>)
    requires t in TaggedSymbols(Skipped(c))
    ensures t.adapter !in c.descs
  {
    SymbolOrigin(Skipped(c), t);
    var r :| r in Skipped(c) && r.descriptor == t.adapter && t.raw in r.symbols;
    MapMember(Masker(c.descs, false), c.nextResults, r);
  }

  /** What the symbol proofs start from, opened with `Open` where it is needed. */
  ghost predicate SymbolsReady(c: Case) {
    forall k: int {:trigger Open(k)} :: Open(k) ==> SymbolsOpen(c)
  }

  ghost predicate SymbolsOpen(c: Case) {
    && Setting(c) && FilesDistinct(c) && FilesExact(c)
    && SymbolsAccepted(c.base, c.baseDocs, c.baseResults)
    && SymbolsAccepted(c.next, c.nextDocs, Skipped(c))
    && CarriedSymbolsValid(Partial(c), Baseline(c), c.descs)
  }

  lemma TwinDocs(c: Case, path: string)
    requires DocsAgree(c.baseDocs, c.nextDocs) && Twin(c, path)
    ensures DocAt(c.nextDocs, path).language == DocAt(c.baseDocs, path).language
    ensures DocAt(c.nextDocs, path).body == DocAt(c.baseDocs, path).body
  {
    DocAtFound(c.baseDocs, path);
    DocAtFound(c.nextDocs, path);
  }

  lemma MappedMember<A, B>(f: A -> B, s: seq<A>, x: A)
    requires x in s
    ensures f(x) in Map(f, s)
  {
    var i :| 0 <= i < |s| && s[i] == x;
    assert Map(f, s)[i] == f(x);
  }

  lemma CarriedCardValid(c: Case, t: Tagged<RawSymbol>)
    requires SymbolsReady(c) && t in TaggedSymbols(Reused(c))
    ensures ValidSymbolCard(Carder(c.next, c.nextDocs)(t))
  {
    assert Open(0);
    CarriedSymbolsAre(c);
    var card := Carder(c.next, c.nextDocs);
    var ts := TaggedSymbols(Reused(c));
    MappedMember(card, ts, t);
    MemberPermutes(Map(card, ts), CarriedSymbols(Partial(c), Baseline(c), c.descs), card(t));
  }

  lemma ReusedSymbolInScope(c: Case, t: Tagged<RawSymbol>)
    requires SymbolsReady(c) && t in TaggedSymbols(c.baseResults) && t.adapter in c.descs
    ensures SymbolInScope(c.next, c.nextDocs, t)
  {
    assert Open(0);
    assert SymbolInScope(c.base, c.baseDocs, t);
    CarriedSymbol(c, t);
    TwinDocs(c, t.raw.path);
    ReusedMember(c, t);
    CarriedCardValid(c, t);
  }

  lemma DistinctConcat<K, V>(key: V -> K, a: seq<V>, b: seq<V>)
    requires DistinctBy(a, key) && DistinctBy(b, key)
    requires forall x, y :: x in a && y in b ==> key(x) != key(y)
    ensures DistinctBy(a + b, key)
  {
    var s := a + b;
    forall i, j | 0 <= i < j < |s| ensures key(s[i]) != key(s[j]) {
      if i < |a| && |a| <= j { assert s[i] in a && s[j] in b; }
    }
  }

  lemma DistinctFilter<K, V>(key: V -> K, p: V -> bool, s: seq<V>)
    requires DistinctBy(s, key)
    ensures DistinctBy(Filter(p, s), key)
  {
    if s != [] {
      DistinctTail(s, key);
      DistinctFilter(key, p, s[1..]);
      forall x | x in Filter(p, s[1..]) ensures key(x) != key(s[0]) {
        FilterMember(p, s[1..], x);
        var i :| 0 <= i < |s[1..]| && s[1..][i] == x;
        assert key(s[0]) != key(s[i+1]);
      }
      if p(s[0]) { DistinctConcat(key, [s[0]], Filter(p, s[1..])); }
    }
  }

  function RawKey(t: Tagged<RawSymbol>): string { t.raw.key }

  lemma KeysAsDistinctBy(ts: seq<Tagged<RawSymbol>>)
    ensures DistinctKeys(ts) <==> DistinctBy(ts, RawKey)
  {
    assert forall t :: RawKey(t) == t.raw.key;
  }

  lemma FullKeysDistinct(c: Case)
    requires SymbolsReady(c)
    ensures DistinctKeys(TaggedSymbols(c.nextResults))
  {
    assert Open(0);
    var a, b, all := TaggedSymbols(Skipped(c)), TaggedSymbols(Reused(c)), TaggedSymbols(c.nextResults);
    KeysAsDistinctBy(a);
    KeysAsDistinctBy(TaggedSymbols(c.baseResults));
    DistinctFilter(RawKey, TagIn(c.descs), TaggedSymbols(c.baseResults));
    MaskFilters(c.baseResults, c.descs);
    ReusedAgree(c);
    forall x, y | x in a && y in b ensures RawKey(x) != RawKey(y) {
      SplitMember(c, x);
      SplitMember(c, y);
      SkippedMember(c, x);
      ReusedMember(c, y);
    }
    DistinctConcat(RawKey, a, b);
    MaskSplitsSymbols(c.nextResults, c.descs);
    DistinctByPermutes(RawKey, a + b, all);
    KeysAsDistinctBy(all);
  }

  lemma FullSymbolsAccepted(c: Case)
    requires SymbolsReady(c)
    ensures SymbolsAccepted(c.next, c.nextDocs, c.nextResults)
  {
    assert Open(0);
    FullKeysDistinct(c);
    forall t | t in TaggedSymbols(c.nextResults) ensures SymbolInScope(c.next, c.nextDocs, t) && !Blank(t.raw.key) {
      SplitMember(c, t);
      if t !in TaggedSymbols(Skipped(c)) {
        ReusedMember(c, t);
        ReusedSymbolInScope(c, t);
      }
    }
  }

  function NextSymbols(c: Case): seq<SymbolCard> { Symbols(c.next, c.nextDocs, c.nextResults) }

  lemma FullSymbolsAre(c: Case)
    requires SymbolsReady(c)
    ensures multiset(NextSymbols(c))
            == multiset(Partial(c).symbols + CarriedSymbols(Partial(c), Baseline(c), c.descs))
  {
    assert Open(0);
    var card := Carder(c.next, c.nextDocs);
    var a, b, all := TaggedSymbols(Skipped(c)), TaggedSymbols(Reused(c)), TaggedSymbols(c.nextResults);
    FullKeysDistinct(c);
    SortedSymbolsFacts(c.nextResults);
    SortedSymbolsFacts(Skipped(c));
    MaskSplitsSymbols(c.nextResults, c.descs);
    MapPermutes(card, SortedSymbols(c.nextResults), a + b);
    MapAppend(card, a, b);
    MapPermutes(card, SortedSymbols(Skipped(c)), a);
    CarriedSymbolsAre(c);
  }

  // ------------------------------------------------------------- key maps

  function BaseKeys(c: Case): map<string, EntityId> { Keys(c.base, c.baseDocs, c.baseResults) }
  function SkippedKeys(c: Case): map<string, EntityId> { Keys(c.next, c.nextDocs, Skipped(c)) }
  function FullKeys(c: Case): map<string, EntityId> { Keys(c.next, c.nextDocs, c.nextResults) }

  lemma KeysExtend(c: Case, k: string)
    requires SymbolsReady(c) && k in SkippedKeys(c)
    ensures k in FullKeys(c) && FullKeys(c)[k] == SkippedKeys(c)[k]
  {
    assert Open(0);
    KeyFound(c.next, c.nextDocs, Skipped(c), k);
    var t :| t in TaggedSymbols(Skipped(c)) && t.raw.key == k
             && SkippedKeys(c)[k] == CardOf(c.next, DocAt(c.nextDocs, t.raw.path), t.raw).symbolId;
    SplitMember(c, t);
    FullKeysDistinct(c);
    KeyPresent(c.next, c.nextDocs, c.nextResults, t);
  }

  /** A key of a carried adapter names the same symbol on both sides. */
  lemma KeyCarried(c: Case, u: Tagged<RawSymbol>)
    requires SymbolsReady(c) && u in TaggedSymbols(c.baseResults) && u.adapter in c.descs
    ensures u.raw.key in BaseKeys(c) && BaseKeys(c)[u.raw.key] == Carder(c.base, c.baseDocs)(u).symbolId
    ensures u.raw.key in FullKeys(c) && FullKeys(c)[u.raw.key] == Carder(c.next, c.nextDocs)(u).symbolId
  {
    assert Open(0);
    KeyPresent(c.base, c.baseDocs, c.baseResults, u);
    ReusedMember(c, u);
    SplitMember(c, u);
    FullKeysDistinct(c);
    KeyPresent(c.next, c.nextDocs, c.nextResults, u);
  }

  // ------------------------------------------------------------ entity map

  function Entities(c: Case): map<EntityId, EntityId> { EntityMap(Partial(c), Baseline(c), c.descs) }

  lemma SymbolMapsHoldSymbols(c: Case, id: EntityId, value: SymbolCard -> Option<EntityId>)
    requires id in BuildMap(Baseline(c).symbols, SymbolIdOf, value)
    ensures id.SymbolId?
  {
    BuildMapDomain(Baseline(c).symbols, SymbolIdOf, value, id);
    SymbolIdsNameFiles(c.base, c.baseDocs, c.baseResults);
  }

  lemma EntityOfFile(c: Case, path: string)
    requires FilesDistinct(c) && HasDoc(c.baseDocs, path)
    ensures BaseFile(c, path) in Entities(c) <==> Twin(c, path)
    ensures Twin(c, path) ==> Entities(c)[BaseFile(c, path)] == NextFile(c, path)
  {
    FileMapAt(c, path);
    var id := BaseFile(c, path);
    if id in LineageMap(Partial(c), Baseline(c)) { SymbolMapsHoldSymbols(c, id, ByLineage(Partial(c).symbols)); }
    if id in CarriedMap(Partial(c), Baseline(c), c.descs) {
      SymbolMapsHoldSymbols(c, id, CarriedId(Partial(c), Files0(c), c.descs));
    }
  }

  lemma BaselineSymbol(c: Case, u: Tagged<RawSymbol>) returns (i: nat)
    requires DistinctKeys(TaggedSymbols(c.baseResults)) && u in TaggedSymbols(c.baseResults)
    ensures i < |Baseline(c).symbols| && Baseline(c).symbols[i] == Carder(c.base, c.baseDocs)(u)
  {
    SortedSymbolsFacts(c.baseResults);
    i :| 0 <= i < |SortedSymbols(c.baseResults)| && SortedSymbols(c.baseResults)[i] == u;
  }

  lemma EntityOfSymbol(c: Case, u: Tagged<RawSymbol>)
    requires SymbolsReady(c) && DistinctBy(Baseline(c).symbols, SymbolIdOf)
    requires u in TaggedSymbols(c.baseResults) && u.adapter in c.descs
    ensures var id := Carder(c.base, c.baseDocs)(u).symbolId;
            id in Entities(c) && Entities(c)[id] == Carder(c.next, c.nextDocs)(u).symbolId
  {
    assert Open(0);
    var i := BaselineSymbol(c, u);
    CarriedSymbol(c, u);
    BuildMapAt(Baseline(c).symbols, SymbolIdOf, CarriedId(Partial(c), Files0(c), c.descs), i);
  }

  // ------------------------------------------------------------- relations

  /** `RawRelations` before the symbols are sorted. */
  function RawBag(rs: seq<RawResult>): seq<Tagged<RawRelation>> {
    Map(DeclareOf, TaggedSymbols(rs)) + TaggedRelations(rs)
  }

  lemma RawBagOf(rs: seq<RawResult>)
    ensures multiset(RawRelations(rs)) == multiset(RawBag(rs))
  {
    SortPermutes(SymbolBefore, TaggedSymbols(rs));
    MapPermutes(DeclareOf, SortedSymbols(rs), TaggedSymbols(rs));
  }

  lemma RawBagSplits(c: Case)
    ensures multiset(RawBag(c.nextResults)) == multiset(RawBag(Skipped(c))) + multiset(RawBag(Reused(c)))
  {
    MaskSplitsSymbols(c.nextResults, c.descs);
    MaskSplitsRelations(c.nextResults, c.descs);
    var a, b := TaggedSymbols(Skipped(c)), TaggedSymbols(Reused(c));
    MapPermutes(DeclareOf, TaggedSymbols(c.nextResults), a + b);
    MapAppend(DeclareOf, a, b);
  }

  lemma {:induction false} DeclaresFilter(descs: seq<AdapterDescriptor>, ts: seq<Tagged<RawSymbol>>)
    ensures Filter(TagIn(descs), Map(DeclareOf, ts)) == Map(DeclareOf, Filter(TagIn(descs), ts))
  {
    if ts != [] {
      assert Map(DeclareOf, ts)[1..] == Map(DeclareOf, ts[1..]);
      DeclaresFilter(descs, ts[1..]);
    }
  }

  lemma RawBagFilters(c: Case)
    requires Environment(c) && CarriedUnchanged(c)
    ensures Filter(TagIn(c.descs), RawBag(c.baseResults)) == RawBag(Reused(c))
  {
    FilterAppend(TagIn(c.descs), Map(DeclareOf, TaggedSymbols(c.baseResults)), TaggedRelations(c.baseResults));
    DeclaresFilter(c.descs, TaggedSymbols(c.baseResults));
    MaskFilters(c.baseResults, c.descs);
    ReusedAgree(c);
  }

  /** The symbol a carried relation's key stands for. */
  lemma NamedSymbol(c: Case, t: Tagged<RawRelation>, key: Option<string>) returns (u: Tagged<RawSymbol>)
    requires Environment(c) && t in RawBag(c.baseResults) && key.Some?
    requires key == t.raw.sourceKey || key == t.raw.targetKey
    ensures u in TaggedSymbols(c.baseResults) && u.adapter == t.adapter && u.raw.key == key.value
  {
    if t in Map(DeclareOf, TaggedSymbols(c.baseResults)) {
      MapMember(DeclareOf, TaggedSymbols(c.baseResults), t);
      u :| u in TaggedSymbols(c.baseResults) && DeclareOf(u) == t;
    } else {
      RelationOrigin(c.baseResults, t);
      var r :| r in c.baseResults && r.descriptor == t.adapter && t.raw in r.relations;
      assert Disciplined(c.baseDocs, r);
      var x :| x in r.symbols && x.key == key.value;
      SymbolTagged(c.baseResults, r, x);
      u := Tagged(x, r.descriptor);
    }
  }

  ghost predicate RelationsReady(c: Case) {
    SymbolsReady(c) && forall k: int {:trigger Open(k)} :: Open(k) ==> DistinctBy(Baseline(c).symbols, SymbolIdOf)
  }

  lemma MovedKey(c: Case, t: Tagged<RawRelation>, key: Option<string>) returns (u: Tagged<RawSymbol>)
    requires RelationsReady(c) && t in RawBag(c.baseResults) && t.adapter in c.descs && key.Some?
    requires key == t.raw.sourceKey || key == t.raw.targetKey
    ensures key.value in BaseKeys(c) && key.value in FullKeys(c) && BaseKeys(c)[key.value] in Entities(c)
    ensures Entities(c)[BaseKeys(c)[key.value]] == FullKeys(c)[key.value]
    ensures u in TaggedSymbols(c.baseResults) && u.adapter in c.descs && u.raw.key == key.value
  {
    assert Open(0);
    u := NamedSymbol(c, t, key);
    KeyCarried(c, u);
    EntityOfSymbol(c, u);
  }

  lemma KeyFile(c: Case, u: Tagged<RawSymbol>)
    requires SymbolsReady(c) && u in TaggedSymbols(c.baseResults) && u.adapter in c.descs
    ensures Twin(c, u.raw.path) && u.raw.key in BaseKeys(c) && u.raw.key in FullKeys(c)
    ensures BaseKeys(c)[u.raw.key].SymbolId? && BaseKeys(c)[u.raw.key].file == BaseFile(c, u.raw.path)
    ensures FullKeys(c)[u.raw.key].SymbolId? && FullKeys(c)[u.raw.key].file == NextFile(c, u.raw.path)
  {
    assert Open(0);
    assert SymbolInScope(c.base, c.baseDocs, u);
    CarriedSymbol(c, u);
    KeyCarried(c, u);
  }

  lemma SamePathFromBaseFile(c: Case, p: string, q: string)
    requires HasDoc(c.baseDocs, p) && HasDoc(c.baseDocs, q) && BaseFile(c, p) == BaseFile(c, q)
    ensures p == q
  {
    DocAtFound(c.baseDocs, p);
    DocAtFound(c.baseDocs, q);
  }

  lemma MovedSource(c: Case, t: Tagged<RawRelation>)
    requires RelationsReady(c) && t in RawBag(c.baseResults) && t.adapter in c.descs
    requires Bindable(c.base, c.baseDocs, BaseKeys(c), t.raw) && Twin(c, t.raw.sourcePath)
    ensures var id := SourceOf(c.base, c.baseDocs, BaseKeys(c), t.raw);
            id in Entities(c) && Entities(c)[id] == SourceOf(c.next, c.nextDocs, FullKeys(c), t.raw)
    ensures t.raw.sourceKey.Some? ==>
      && t.raw.sourceKey.value in FullKeys(c) && FullKeys(c)[t.raw.sourceKey.value].SymbolId?
      && FullKeys(c)[t.raw.sourceKey.value].file == NextFile(c, t.raw.sourcePath)
  {
    assert Open(0);
    if t.raw.sourceKey.Some? {
      var u := MovedKey(c, t, t.raw.sourceKey);
      KeyFile(c, u);
      SamePathFromBaseFile(c, u.raw.path, t.raw.sourcePath);
    } else {
      EntityOfFile(c, t.raw.sourcePath);
    }
  }

  lemma MovedTargetPath(c: Case, raw: RawRelation)
    requires FilesDistinct(c) && TargetCount(raw) <= 1 && raw.targetPath.Some?
    requires HasDoc(c.baseDocs, raw.targetPath.value) && BaseFile(c, raw.targetPath.value) in Entities(c)
    ensures HasDoc(c.nextDocs, raw.targetPath.value)
    ensures MovedTarget(Entities(c), TargetOf(c.base, c.baseDocs, BaseKeys(c), raw))
            == TargetOf(c.next, c.nextDocs, FullKeys(c), raw)
  {
    EntityOfFile(c, raw.targetPath.value);
  }

  lemma MovedTargetKey(c: Case, raw: RawRelation)
    requires TargetCount(raw) <= 1 && raw.targetKey.Some?
    requires var k := raw.targetKey.value;
      && k in BaseKeys(c) && k in FullKeys(c) && BaseKeys(c)[k] in Entities(c) && BaseKeys(c)[k].SymbolId?
      && Entities(c)[BaseKeys(c)[k]] == FullKeys(c)[k]
    ensures MovedTarget(Entities(c), TargetOf(c.base, c.baseDocs, BaseKeys(c), raw))
            == TargetOf(c.next, c.nextDocs, FullKeys(c), raw)
  {}

  lemma MovedTargets(c: Case, t: Tagged<RawRelation>)
    requires RelationsReady(c) && t in RawBag(c.baseResults) && t.adapter in c.descs
    requires Bindable(c.base, c.baseDocs, BaseKeys(c), t.raw)
    requires var id := TargetOf(c.base, c.baseDocs, BaseKeys(c), t.raw);
             id.Some? && !id.value.ExternalId? ==> id.value in Entities(c)
    ensures MovedTarget(Entities(c), TargetOf(c.base, c.baseDocs, BaseKeys(c), t.raw))
            == TargetOf(c.next, c.nextDocs, FullKeys(c), t.raw)
    ensures t.raw.targetKey.Some? ==> t.raw.targetKey.value in FullKeys(c)
    ensures t.raw.targetPath.Some? ==> HasDoc(c.nextDocs, t.raw.targetPath.value)
  {
    assert Open(0);
    if t.raw.targetKey.Some? {
      var u := MovedKey(c, t, t.raw.targetKey);
      KeyFile(c, u);
      MovedTargetKey(c, t.raw);
    } else if t.raw.targetPath.Some? {
      MovedTargetPath(c, t.raw);
    }
  }

  /** A carried relation becomes the relation a fresh run would have bound. */
  lemma MovedRelation(c: Case, t: Tagged<RawRelation>)
    requires RelationsReady(c) && t in RawBag(c.baseResults) && t.adapter in c.descs
    requires Bindable(c.base, c.baseDocs, BaseKeys(c), t.raw)
    requires RelationMapped(Entities(c), RelationOf(c.evidence, c.base, c.baseDocs, BaseKeys(c), t))
    ensures RebasedRelation(Partial(c).snapshot, Entities(c), RelationOf(c.evidence, c.base, c.baseDocs, BaseKeys(c), t))
            == RelationOf(c.evidence, c.next, c.nextDocs, FullKeys(c), t)
    ensures Bindable(c.next, c.nextDocs, FullKeys(c), t.raw)
  {
    assert Open(0);
    EntityOfFile(c, t.raw.sourcePath);
    TwinDocs(c, t.raw.sourcePath);
    MovedSource(c, t);
    MovedTargets(c, t);
  }

  lemma KeptRelation(c: Case, raw: RawRelation)
    requires SymbolsReady(c) && Bindable(c.next, c.nextDocs, SkippedKeys(c), raw)
    ensures Bindable(c.next, c.nextDocs, FullKeys(c), raw)
    ensures SourceOf(c.next, c.nextDocs, FullKeys(c), raw) == SourceOf(c.next, c.nextDocs, SkippedKeys(c), raw)
    ensures TargetOf(c.next, c.nextDocs, FullKeys(c), raw) == TargetOf(c.next, c.nextDocs, SkippedKeys(c), raw)
  {
    if raw.sourceKey.Some? { KeysExtend(c, raw.sourceKey.value); }
    if raw.targetKey.Some? { KeysExtend(c, raw.targetKey.value); }
  }
}
