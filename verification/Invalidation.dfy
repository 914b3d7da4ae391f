/** `PlanInvalidation`: which files a change set affects and which stay reusable. */
module Invalidation {
  import opened Ordering
  import opened Seqs
  import opened Cards
  import opened Bundles
  import opened Normalization
  import opened Reuse

  datatype Change = Change(kind: string, path: string, fromPath: Option<string>)
  datatype ChangeSet = ChangeSet(baseCommit: string, targetCommit: string, changes: seq<Change>)

  // ----------------------------------------------------------- dependencies

  predicate Propagates(kind: string) {
    kind in ["imports", "references", "calls", "implements", "extends", "tests", "routes_to", "validates", "uses_schema"]
  }

  function SymbolById(symbols: seq<SymbolCard>, id: EntityId): Option<SymbolCard> {
    if symbols == [] then None else if symbols[0].symbolId == id then Some(symbols[0]) else SymbolById(symbols[1..], id)
  }

  /** The file an entity lives in: a symbol's file, or the file itself. */
  function HomeOf(b: Bundle, id: EntityId): EntityId {
    var s := SymbolById(b.symbols, id); if s.Some? then s.value.fileId else id
  }

  /** The edge a relation contributes: (dependent path, path depended on). */
  function EdgeOf(b: Bundle, r: RelationEvidence): Option<(string, string)> {
    if r.resolution != "resolved" || r.targetEntityId.None? || !Propagates(r.kind) then None
    else
      var source, target := FileById(b.files, r.sourceFileId), FileById(b.files, HomeOf(b, r.targetEntityId.value));
      if source.Some? && target.Some? && source.value.path != target.value.path
      then Some((source.value.path, target.value.path)) else None
  }

  /** Path `p` depends on path `q` through proven evidence. */
  ghost predicate DependsOn(b: Bundle, p: string, q: string) {
    exists r :: r in b.relations && EdgeOf(b, r) == Some((p, q))
  }

  ghost function Dependency(b: Bundle): (string, string) -> bool { (p: string, q: string) => DependsOn(b, p, q) }

  /** Closed under reverse dependencies, where `dep(p, q)` reads "p depends on q". */
  ghost predicate Closed(dep: (string, string) -> bool, paths: set<string>) {
    forall p, q :: q in paths && dep(p, q) ==> p in paths
  }

  /** `paths` is the least set that holds the seeds and is closed under reverse dependencies. */
  ghost predicate IsLeastClosure(dep: (string, string) -> bool, seeds: set<string>, paths: set<string>) {
    && seeds <= paths && Closed(dep, paths)
    && forall other: set<string> :: seeds <= other && Closed(dep, other) ==> paths <= other
  }

  ghost predicate Edge(reverse: map<string, seq<string>>, p: string, q: string) { q in reverse && p in reverse[q] }

  function AppendUnique(values: seq<string>, value: string): seq<string> {
    if value in values then values else values + [value]
  }

  method ReverseFileDependencies(b: Bundle) returns (reverse: map<string, seq<string>>)
    ensures forall p, q :: Edge(reverse, p, q) <==> DependsOn(b, p, q)
  {
    reverse := map[];
    for i := 0 to |b.relations|
      invariant forall p, q :: Edge(reverse, p, q) <==> exists k :: 0 <= k < i && EdgeOf(b, b.relations[k]) == Some((p, q))
    {
      var e := EdgeOf(b, b.relations[i]);
      if e.Some? {
        var p, q := e.value.0, e.value.1;
        reverse := reverse[q := AppendUnique(if q in reverse then reverse[q] else [], p)];
      }
    }
    var unsorted := reverse;
    reverse := map q | q in unsorted :: Sort(Less, unsorted[q]);
    forall p, q ensures Edge(reverse, p, q) <==> Edge(unsorted, p, q) {
      if q in unsorted {
        SortPermutes(Less, unsorted[q]);
        MemberPermutes(Sort(Less, unsorted[q]), unsorted[q], p);
      }
    }
  }

  // --------------------------------------------------------------- worklist

  ghost predicate StrictlySorted(s: seq<string>) { forall i, j :: 0 <= i < j < |s| ==> Less(s[i], s[j]) }

  /** Map keys in whatever order the map yields them, then sorted. */
  method SortedKeys(m: map<string, string>) returns (keys: seq<string>)
    ensures (set k | k in keys) == m.Keys
    ensures StrictlySorted(keys)
  {
    var left := m.Keys;
    keys := [];
    while left != {}
      invariant left <= m.Keys && multiset(keys) + multiset(left) == multiset(m.Keys)
      decreases |left|
    {
      var k :| k in left;
      left, keys := left - {k}, keys + [k];
    }
    var unsorted := keys;
    keys := Sort(Less, unsorted);
    StringOrder();
    SortPermutes(Less, unsorted);
    SortSorts(Less, unsorted);
    assert multiset(keys) == multiset(m.Keys);
    forall k ensures k in keys <==> k in m.Keys { assert k in keys <==> k in multiset(keys); }
    forall i, j | 0 <= i < j < |keys| ensures Less(keys[i], keys[j]) {
      if keys[i] == keys[j] { PairCount(keys, i, j); }
    }
  }

  function AllPaths(b: Bundle): set<string> { set f | f in b.files :: f.path }

  lemma {:induction false} FileByIdMember(files: seq<FileCard>, id: EntityId)
    requires FileById(files, id).Some?
    ensures FileById(files, id).value in files && FileById(files, id).value.fileId == id
  {
    if files[0].fileId != id { FileByIdMember(files[1..], id); }
  }

  lemma DependentsAreFiles(b: Bundle, p: string, q: string)
    requires DependsOn(b, p, q)
    ensures p in AllPaths(b) && q in AllPaths(b)
  {
    var r :| r in b.relations && EdgeOf(b, r) == Some((p, q));
    FileByIdMember(b.files, r.sourceFileId);
    FileByIdMember(b.files, HomeOf(b, r.targetEntityId.value));
  }

  ghost predicate Inside(dep: (string, string) -> bool, seeds: set<string>, keys: set<string>) {
    forall other: set<string> :: seeds <= other && Closed(dep, other) ==> keys <= other
  }

  lemma InsideGrows(dep: (string, string) -> bool, seeds: set<string>, keys: set<string>, p: string, q: string)
    requires Inside(dep, seeds, keys) && q in keys && dep(p, q)
    ensures Inside(dep, seeds, keys + {p})
  {}

  ghost predicate Lists(queue: seq<string>, keys: set<string>) { forall p :: p in queue <==> p in keys }

  /** Reasons only ever gain `dependency_changed` entries. */
  ghost predicate Extends(before: map<string, string>, after: map<string, string>) {
    && before.Keys <= after.Keys
    && (forall p :: p in before ==> after[p] == before[p])
    && (forall p :: p in after && p !in before ==> after[p] == "dependency_changed")
  }

  /** Mark the dependents of one path; the inner loop of the worklist. */
  method MarkDependents(ghost dep: (string, string) -> bool, ghost seeds: set<string>, dependents: seq<string>, path: string,
                        before: map<string, string>, waiting: seq<string>)
    returns (reasons: map<string, string>, queue: seq<string>)
    requires path in before && Inside(dep, seeds, before.Keys) && Lists(waiting, before.Keys)
    requires forall p :: p in dependents ==> dep(p, path)
    ensures Inside(dep, seeds, reasons.Keys) && Extends(before, reasons) && Lists(queue, reasons.Keys)
    ensures forall p :: p in dependents ==> p in reasons
    ensures forall p :: p in reasons ==> p in before || p in dependents
    ensures waiting <= queue && (reasons.Keys == before.Keys ==> queue == waiting)
  {
    reasons, queue := before, waiting;
    for i := 0 to |dependents|
      invariant Inside(dep, seeds, reasons.Keys) && Extends(before, reasons) && Lists(queue, reasons.Keys)
      invariant forall k :: 0 <= k < i ==> dependents[k] in reasons
      invariant forall p :: p in reasons ==> p in before || p in dependents
      invariant waiting <= queue && (reasons.Keys == before.Keys ==> queue == waiting)
    {
      var p := dependents[i];
      if p !in reasons {
        InsideGrows(dep, seeds, reasons.Keys, p, path);
        reasons, queue := reasons[p := "dependency_changed"], queue + [p];
        assert reasons.Keys != before.Keys;
      }
    }
  }

  /** What holds between two visits: everything before `index` has been expanded. */
  ghost predicate Work(dep: (string, string) -> bool, universe: set<string>, start: map<string, string>, reasons: map<string, string>, queue: seq<string>, index: nat) {
    && index <= |queue| && Lists(queue, reasons.Keys)
    && Extends(start, reasons) && reasons.Keys <= universe
    && Inside(dep, start.Keys, reasons.Keys)
    && forall k, p :: 0 <= k < index && dep(p, queue[k]) ==> p in reasons
  }

  method Visit(ghost dep: (string, string) -> bool, ghost universe: set<string>, reverse: map<string, seq<string>>, ghost start: map<string, string>,
               before: map<string, string>, waiting: seq<string>, index: nat)
    returns (reasons: map<string, string>, queue: seq<string>)
    requires forall p, q :: Edge(reverse, p, q) <==> dep(p, q)
    requires forall p, q :: dep(p, q) ==> p in universe
    requires Work(dep, universe, start, before, waiting, index) && index < |waiting|
    ensures Work(dep, universe, start, reasons, queue, index + 1)
    ensures before.Keys <= reasons.Keys && (reasons.Keys == before.Keys ==> |queue| == |waiting|)
  {
    var path := waiting[index];
    var dependents := Dependents(dep, reverse, path);
    var longer;
    reasons, longer := MarkDependents(dep, start.Keys, dependents, path, before, waiting);
    PrefixCut(waiting, longer, index + 1);
    queue := SortTail(longer, index + 1, reasons.Keys);
    WithinUniverse(dep, universe, before.Keys, reasons.Keys, dependents, path);
    ExtendsTwice(start, before, reasons);
    ExpandedPrefix(dep, before, reasons, waiting, queue, index);
  }

  method Dependents(ghost dep: (string, string) -> bool, reverse: map<string, seq<string>>, path: string) returns (ds: seq<string>)
    requires forall p, q :: Edge(reverse, p, q) <==> dep(p, q)
    ensures forall p :: p in ds <==> dep(p, path)
  {
    ds := if path in reverse then reverse[path] else [];
    forall p ensures p in ds <==> dep(p, path) { assert Edge(reverse, p, path) <==> dep(p, path); }
  }

  lemma PrefixCut(a: seq<string>, b: seq<string>, n: nat)
    requires a <= b && n <= |a|
    ensures b[..n] == a[..n]
  {}

  lemma WithinUniverse(dep: (string, string) -> bool, universe: set<string>, before: set<string>, after: set<string>,
                       dependents: seq<string>, path: string)
    requires before <= universe && (forall p, q :: dep(p, q) ==> p in universe)
    requires (forall p :: p in dependents ==> dep(p, path)) && forall p :: p in after ==> p in before || p in dependents
    ensures after <= universe
  {}

  /** Re-sort what is still waiting. */
  method SortTail(queue: seq<string>, n: nat, ghost keys: set<string>) returns (sorted: seq<string>)
    requires n <= |queue| && Lists(queue, keys)
    ensures |sorted| == |queue| && sorted[..n] == queue[..n] && Lists(sorted, keys)
  {
    sorted := queue[..n] + Sort(Less, queue[n..]);
    ReorderedTail(queue, n, keys);
  }

  lemma ExtendsTwice(a: map<string, string>, b: map<string, string>, c: map<string, string>)
    requires Extends(a, b) && Extends(b, c)
    ensures Extends(a, c)
  {}

  lemma ExpandedPrefix(dep: (string, string) -> bool, before: map<string, string>, after: map<string, string>,
                       waiting: seq<string>, queue: seq<string>, index: nat)
    requires index < |waiting| && index < |queue| && before.Keys <= after.Keys
    requires waiting[..index+1] == queue[..index+1]
    requires forall k, p :: 0 <= k < index && dep(p, waiting[k]) ==> p in before
    requires forall p :: dep(p, waiting[index]) ==> p in after
    ensures forall k, p :: 0 <= k < index + 1 && dep(p, queue[k]) ==> p in after
  {
    forall k, p | 0 <= k < index + 1 && dep(p, queue[k]) ensures p in after {
      assert queue[k] == queue[..index+1][k] == waiting[..index+1][k] == waiting[k];
    }
  }

  lemma ReorderedTail(queue: seq<string>, n: nat, keys: set<string>)
    requires n <= |queue| && Lists(queue, keys)
    ensures |queue[..n] + Sort(Less, queue[n..])| == |queue|
    ensures Lists(queue[..n] + Sort(Less, queue[n..]), keys)
  {
    var tail := queue[n..];
    SortPermutes(Less, tail);
    assert queue == queue[..n] + tail;
    forall p ensures p in Sort(Less, tail) <==> p in tail { MemberPermutes(Sort(Less, tail), tail, p); }
  }

  /** The worklist. Its tail is re-sorted after every step, which changes the
      order of visits but neither termination nor the set reached. */
  method Propagate(ghost dep: (string, string) -> bool, ghost universe: set<string>, reverse: map<string, seq<string>>, start: map<string, string>)
    returns (reasons: map<string, string>)
    requires forall p, q :: Edge(reverse, p, q) <==> dep(p, q)
    requires start.Keys <= universe && forall p, q :: dep(p, q) ==> p in universe
    ensures IsLeastClosure(dep, start.Keys, reasons.Keys) && Extends(start, reasons)
  {
    reasons := start;
    var queue := SortedKeys(reasons);
    assert Lists(queue, reasons.Keys) by { forall p ensures p in queue <==> p in reasons.Keys { assert p in (set k | k in queue) <==> p in queue; } }
    var index := 0;
    while index < |queue|
      invariant Work(dep, universe, start, reasons, queue, index)
      decreases |universe - reasons.Keys|, |queue| - index
    {
      var grown, longer := Visit(dep, universe, reverse, start, reasons, queue, index);
      if grown.Keys != reasons.Keys { SmallerRest(universe, reasons.Keys, grown.Keys); }
      reasons, queue, index := grown, longer, index + 1;
    }
    forall p, q | q in reasons.Keys && dep(p, q) ensures p in reasons.Keys {
      var k :| 0 <= k < |queue| && queue[k] == q;
    }
  }

  lemma SmallerRest(universe: set<string>, before: set<string>, after: set<string>)
    requires before <= after <= universe && before != after
    ensures |universe - after| < |universe - before|
  {
    var p :| p in after && p !in before;
    var x, y := universe - after, universe - before;
    assert x <= y - {p};
    SubsetSize(x, y - {p});
  }
}
