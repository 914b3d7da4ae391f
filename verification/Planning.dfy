/** The invalidation plan and what it promises. */
module Planning {
  import opened Ordering
  import opened Seqs
  import opened Cards
  import opened Bundles
  import opened Normalization
  import opened Reuse
  import opened Invalidation

  // --------------------------------------------------------------- coverage

  predicate Had(b: Bundle, path: string) { FileAt(b.files, path).Some? }

  predicate ChangeFits(b: Bundle, docs: seq<Document>, c: Change) {
    NormalizedPath(c.path)
    && (var had, has := Had(b, c.path), HasDoc(docs, c.path);
        if c.kind == "added" then !had && has && c.fromPath.None?
        else if c.kind == "modified" then had && has && c.fromPath.None?
        else if c.kind == "deleted" then had && !has && c.fromPath.None?
        else
          c.kind == "renamed" && c.fromPath.Some? && NormalizedPath(c.fromPath.value)
          && !had && has && Had(b, c.fromPath.value) && !HasDoc(docs, c.fromPath.value)
          && c.fromPath.value != c.path)
  }

  function MentionsOf(c: Change): seq<string> {
    [c.path] + (if c.kind == "renamed" && c.fromPath.Some? then [c.fromPath.value] else [])
  }

  function Mentions(changes: seq<Change>): seq<string> {
    if changes == [] then [] else MentionsOf(changes[0]) + Mentions(changes[1..])
  }

  ghost predicate NoRepeats(s: seq<string>) { forall i, j :: 0 <= i < j < |s| ==> s[i] != s[j] }

  predicate Changed(b: Bundle, docs: seq<Document>, path: string) {
    || Had(b, path) != HasDoc(docs, path)
    || (Had(b, path) && FileAt(b.files, path).value.sourceHash != DocAt(docs, path).sourceHash)
  }

  function DocPaths(docs: seq<Document>): set<string> { set d | d in docs :: d.path }

  /** What `validateChangeSetCoverage` accepts: every change agrees with both
      states, no path is mentioned twice, and no changed path is left out. */
  ghost predicate CoverageOk(b: Bundle, docs: seq<Document>, changes: seq<Change>) {
    && (forall c :: c in changes ==> ChangeFits(b, docs, c))
    && NoRepeats(Mentions(changes))
    && forall p :: p in AllPaths(b) + DocPaths(docs) && Changed(b, docs, p) ==> p in Mentions(changes)
  }

  lemma {:induction false} MentionsAppend(a: seq<Change>, c: Change)
    ensures Mentions(a + [c]) == Mentions(a) + MentionsOf(c)
  {
    if a == [] {
      assert a + [c] == [c] && [c][1..] == [];
      assert Mentions([]) == [];
    } else {
      assert (a + [c])[1..] == a[1..] + [c];
      MentionsAppend(a[1..], c);
    }
  }

  lemma {:induction false} MentionsPrefix(changes: seq<Change>, i: nat)
    requires i <= |changes|
    ensures Mentions(changes[..i]) + Mentions(changes[i..]) == Mentions(changes)
  {
    if i == 0 {
      assert changes[..0] == [] && changes[0..] == changes;
    } else {
      assert changes[..i][1..] == changes[1..][..i-1] && changes[i..] == changes[1..][i-1..];
      MentionsPrefix(changes[1..], i - 1);
    }
  }

  ghost predicate Indexes(mentioned: set<string>, s: seq<string>) { forall p :: p in mentioned <==> p in s }

  lemma NoRepeatsInPrefix(a: seq<string>, b: seq<string>)
    requires NoRepeats(a + b)
    ensures NoRepeats(a)
  {
    forall i, j | 0 <= i < j < |a| ensures a[i] != a[j] { assert (a + b)[i] != (a + b)[j]; }
  }

  lemma Regroup(head: seq<string>, a: seq<string>, b: seq<string>, c: seq<string>)
    ensures head + ((a + b) + c) == ((head + a) + b) + c
  {}

  lemma {:induction false} MentionsThrough(changes: seq<Change>, i: nat)
    requires i < |changes|
    ensures Mentions(changes) == (Mentions(changes[..i]) + MentionsOf(changes[i])) + Mentions(changes[i+1..])
  {
    if i == 0 {
      assert Mentions(changes[..0]) == [];
    } else {
      var tail, head := changes[1..], changes[..i];
      MentionsThrough(tail, i - 1);
      assert head[0] == changes[0] && head[1..] == tail[..i-1] && tail[i..] == changes[i+1..] && tail[i-1] == changes[i];
      Regroup(MentionsOf(changes[0]), Mentions(tail[..i-1]), MentionsOf(changes[i]), Mentions(changes[i+1..]));
    }
  }

  lemma NoRepeatsPrefix(changes: seq<Change>, i: nat)
    requires i < |changes| && NoRepeats(Mentions(changes))
    ensures NoRepeats(Mentions(changes[..i]) + MentionsOf(changes[i]))
  {
    var head, rest := Mentions(changes[..i]) + MentionsOf(changes[i]), Mentions(changes[i+1..]);
    assert NoRepeats(head + rest) by { MentionsThrough(changes, i); }
    NoRepeatsInPrefix(head, rest);
  }

  predicate Renamed(c: Change) { c.kind == "renamed" && c.fromPath.Some? }

  /** Whether a change mentions only paths not mentioned yet. */
  predicate MentionsNew(mentioned: set<string>, c: Change) {
    c.path !in mentioned && (Renamed(c) ==> c.fromPath.value !in mentioned && c.fromPath.value != c.path)
  }

  lemma NewMentions(head: seq<string>, c: Change, mentioned: set<string>)
    requires NoRepeats(head) && Indexes(mentioned, head)
    ensures NoRepeats(head + MentionsOf(c)) <==> MentionsNew(mentioned, c)
  {
    var all := head + MentionsOf(c);
    assert all[|head|] == c.path && (Renamed(c) ==> all[|head| + 1] == c.fromPath.value);
    forall k | 0 <= k < |head| ensures all[k] == head[k] && head[k] in mentioned {}
  }

  lemma RepeatRefused(changes: seq<Change>, i: nat, mentioned: set<string>)
    requires i < |changes| && NoRepeats(Mentions(changes[..i])) && Indexes(mentioned, Mentions(changes[..i]))
    requires !MentionsNew(mentioned, changes[i])
    ensures !NoRepeats(Mentions(changes))
  {
    NewMentions(Mentions(changes[..i]), changes[i], mentioned);
    if NoRepeats(Mentions(changes)) { NoRepeatsPrefix(changes, i); }
  }

  method CheckChanges(b: Bundle, docs: seq<Document>, changes: seq<Change>) returns (mentioned: set<string>, ok: bool)
    ensures ok <==> (forall c :: c in changes ==> ChangeFits(b, docs, c)) && NoRepeats(Mentions(changes))
    ensures ok ==> Indexes(mentioned, Mentions(changes))
  {
    mentioned, ok := {}, true;
    for i := 0 to |changes|
      invariant ok && Indexes(mentioned, Mentions(changes[..i])) && NoRepeats(Mentions(changes[..i]))
      invariant forall k :: 0 <= k < i ==> ChangeFits(b, docs, changes[k])
    {
      var c := changes[i];
      if !ChangeFits(b, docs, c) { return mentioned, false; }
      if !MentionsNew(mentioned, c) {
        RepeatRefused(changes, i, mentioned);
        return mentioned, false;
      }
      NewMentions(Mentions(changes[..i]), c, mentioned);
      IndexesGrow(mentioned, Mentions(changes[..i]), c);
      MentionsAppend(changes[..i], c);
      assert changes[..i+1] == changes[..i] + [c];
      mentioned := WithMentions(mentioned, c);
    }
    assert changes[..|changes|] == changes;
  }

  lemma IndexesGrow(mentioned: set<string>, head: seq<string>, c: Change)
    requires Indexes(mentioned, head)
    ensures Indexes(WithMentions(mentioned, c), head + MentionsOf(c))
  {}

  function WithMentions(mentioned: set<string>, c: Change): set<string> {
    mentioned + {c.path} + (if Renamed(c) then {c.fromPath.value} else {})
  }

  method ValidateChangeSetCoverage(b: Bundle, docs: seq<Document>, changes: seq<Change>) returns (ok: bool)
    ensures ok <==> CoverageOk(b, docs, changes)
  {
    var mentioned, fits := CheckChanges(b, docs, changes);
    if !fits { return false; }
    var paths := AllPaths(b) + DocPaths(docs);
    var left := paths;
    while left != {}
      invariant left <= paths
      invariant forall p :: p in paths && p !in left && Changed(b, docs, p) ==> p in mentioned
      decreases |left|
    {
      var p :| p in left;
      if Changed(b, docs, p) && p !in mentioned { return false; }
      left := left - {p};
    }
    ok := true;
  }

  // ------------------------------------------------------------------ seeds

  predicate Structural(changes: seq<Change>) { exists c :: c in changes && MovesFiles(c) }

  /** Files with an unresolved relation: a new or vanished file may resolve it differently. */
  ghost function UnresolvedSources(b: Bundle): set<string> {
    set r | r in b.relations && r.resolution == "unresolved" && FileById(b.files, r.sourceFileId).Some?
      :: FileById(b.files, r.sourceFileId).value.path
  }

  ghost function Seeds(b: Bundle, changes: seq<Change>): set<string> {
    (set p | p in Mentions(changes)) + (if Structural(changes) then UnresolvedSources(b) else {})
  }

  /** A deleted path, or the old name of a renamed one. */
  ghost predicate Vanished(changes: seq<Change>, p: string) {
    exists c :: c in changes && ((c.kind == "deleted" && c.path == p) || c.fromPath == Some(p))
  }

  ghost function MentionReason(changes: seq<Change>, p: string): string {
    if Vanished(changes, p) then "deleted" else "source_changed"
  }

  lemma {:induction false} VanishedMentioned(changes: seq<Change>, p: string)
    requires forall c :: c in changes && c.fromPath.Some? ==> c.kind == "renamed"
    requires Vanished(changes, p)
    ensures p in Mentions(changes)
  {
    var c :| c in changes && ((c.kind == "deleted" && c.path == p) || c.fromPath == Some(p));
    if changes[0] != c {
      assert c in changes[1..];
      VanishedMentioned(changes[1..], p);
    }
  }

  lemma ListsApart(a: seq<string>, b: seq<string>, x: string)
    requires NoRepeats(a + b) && x in a
    ensures x !in b
  {
    var i :| 0 <= i < |a| && a[i] == x;
    assert (a + b)[i] == x;
    forall j | 0 <= j < |b| ensures b[j] != x { assert (a + b)[|a| + j] == b[j]; }
  }

  /** Recording one more change leaves earlier reasons alone. */
  lemma ReasonsKept(changes: seq<Change>, c: Change, p: string)
    requires forall x :: x in changes + [c] && x.fromPath.Some? ==> x.kind == "renamed"
    requires NoRepeats(Mentions(changes) + MentionsOf(c))
    ensures p in Mentions(changes) ==> MentionReason(changes + [c], p) == MentionReason(changes, p)
    ensures MentionReason(changes + [c], c.path) == if c.kind == "deleted" then "deleted" else "source_changed"
    ensures c.fromPath.Some? ==> MentionReason(changes + [c], c.fromPath.value) == "deleted"
  {
    var head, here := Mentions(changes), MentionsOf(c);
    forall q | q in head ensures q !in here { ListsApart(head, here, q); }
    assert c.fromPath.Some? ==> c.fromPath.value != c.path by {
      if c.fromPath.Some? { assert (head + here)[|head|] != (head + here)[|head| + 1]; }
    }
    assert forall q :: Vanished(changes, q) ==> q in head by {
      forall q | Vanished(changes, q) ensures q in head { VanishedMentioned(changes, q); }
    }
    if c.fromPath.Some? { assert c in changes + [c]; }
    if c.kind == "deleted" { assert c in changes + [c]; }
    if Vanished(changes, p) {
      var x :| x in changes && ((x.kind == "deleted" && x.path == p) || x.fromPath == Some(p));
      assert x in changes + [c];
    }
    assert c.path in here;
    assert c.fromPath.Some? ==> c.fromPath.value in here;
  }

  /** The reasons recorded for one more change. */
  function Recorded(reasons: map<string, string>, c: Change): map<string, string> {
    var own := reasons[c.path := if c.kind == "deleted" then "deleted" else "source_changed"];
    if c.fromPath.Some? then own[c.fromPath.value := "deleted"] else own
  }

  ghost predicate ReasonsFor(reasons: map<string, string>, changes: seq<Change>) {
    forall p :: (p in reasons <==> p in Mentions(changes)) && (p in reasons ==> reasons[p] == MentionReason(changes, p))
  }

  lemma RecordKeeps(reasons: map<string, string>, changes: seq<Change>, c: Change)
    requires ReasonsFor(reasons, changes) && NoRepeats(Mentions(changes) + MentionsOf(c))
    requires forall x :: x in changes + [c] && x.fromPath.Some? ==> x.kind == "renamed"
    ensures ReasonsFor(Recorded(reasons, c), changes + [c])
  {
    var after := Recorded(reasons, c);
    assert c in changes + [c];
    forall p ensures (p in after <==> p in Mentions(changes + [c])) && (p in after ==> after[p] == MentionReason(changes + [c], p)) {
      MentionsAppend(changes, c);
      ReasonsKept(changes, c, p);
      PathsApart(changes, c, p);
    }
  }

  predicate MovesFiles(c: Change) { c.kind in ["added", "deleted", "renamed"] }

  lemma StructuralStep(changes: seq<Change>, c: Change)
    ensures Structural(changes + [c]) <==> Structural(changes) || MovesFiles(c)
  {
    if MovesFiles(c) { assert c in changes + [c]; }
    if x :| x in changes && MovesFiles(x) { assert x in changes + [c]; }
  }

  method MentionedReasons(changes: seq<Change>) returns (reasons: map<string, string>, structural: bool)
    requires forall c :: c in changes && c.fromPath.Some? ==> c.kind == "renamed"
    requires NoRepeats(Mentions(changes))
    ensures ReasonsFor(reasons, changes) && structural == Structural(changes)
  {
    reasons, structural := map[], false;
    for i := 0 to |changes|
      invariant ReasonsFor(reasons, changes[..i]) && structural == Structural(changes[..i])
    {
      var c := changes[i];
      NoRepeatsPrefix(changes, i);
      assert forall x :: x in changes[..i] + [c] ==> x in changes;
      RecordKeeps(reasons, changes[..i], c);
      StructuralStep(changes[..i], c);
      assert changes[..i+1] == changes[..i] + [c];
      reasons, structural := Recorded(reasons, c), structural || MovesFiles(c);
    }
    assert changes[..|changes|] == changes;
  }

  lemma PathsApart(changes: seq<Change>, c: Change, p: string)
    requires NoRepeats(Mentions(changes) + MentionsOf(c)) && (c.fromPath.Some? ==> c.kind == "renamed")
    ensures c.fromPath.Some? ==> c.fromPath.value != c.path
  {
    var head, here := Mentions(changes), MentionsOf(c);
    if c.fromPath.Some? { assert (head + here)[|head|] != (head + here)[|head| + 1]; }
  }

  method SeedReasons(b: Bundle, changes: seq<Change>) returns (reasons: map<string, string>)
    requires forall c :: c in changes && c.fromPath.Some? ==> c.kind == "renamed"
    requires NoRepeats(Mentions(changes))
    ensures reasons.Keys == Seeds(b, changes)
    ensures forall p :: p in reasons ==>
      reasons[p] == if p in Mentions(changes) then MentionReason(changes, p) else "dependency_changed"
  {
    var structural;
    reasons, structural := MentionedReasons(changes);
    assert reasons.Keys == set p | p in Mentions(changes);
    ghost var mentioned := reasons;
    assert forall p :: p in mentioned ==> mentioned[p] == MentionReason(changes, p);
    if structural { reasons := SeedUnresolved(b, reasons); }
  }

  function Unresolved(b: Bundle, r: RelationEvidence): Option<string> {
    var f := FileById(b.files, r.sourceFileId);
    if r.resolution == "unresolved" && f.Some? then Some(f.value.path) else None
  }

  /** Record a path as affected through a dependency, unless it already has a reason. */
  function SetReason(reasons: map<string, string>, path: string): map<string, string> {
    if path in reasons then reasons else reasons[path := "dependency_changed"]
  }

  method SeedUnresolved(b: Bundle, before: map<string, string>) returns (reasons: map<string, string>)
    ensures reasons.Keys == before.Keys + UnresolvedSources(b) && Extends(before, reasons)
  {
    reasons := before;
    for i := 0 to |b.relations|
      invariant Extends(before, reasons)
      invariant forall p :: p in reasons <==> p in before || exists k :: 0 <= k < i && Unresolved(b, b.relations[k]) == Some(p)
    {
      var path := Unresolved(b, b.relations[i]);
      if path.Some? { reasons := SetReason(reasons, path.value); }
    }
    forall p ensures p in UnresolvedSources(b) <==> exists k :: 0 <= k < |b.relations| && Unresolved(b, b.relations[k]) == Some(p) {
      if p in UnresolvedSources(b) {
        var r :| r in b.relations && Unresolved(b, r) == Some(p);
        var k :| 0 <= k < |b.relations| && b.relations[k] == r;
      }
    }
  }

  // ---------------------------------------------------------------- the plan

  datatype ReuseCandidate = ReuseCandidate(path: string, lineage: LineageId, previousFileId: EntityId, sourceHash: string)

  /** The reuse candidate for a target document, given the affected paths. */
  function CandidateFor(b: Bundle, affected: set<string>, d: Document): Option<ReuseCandidate> {
    var base := FileAt(b.files, d.path);
    if base.None? || d.path in affected || base.value.sourceHash != d.sourceHash then None
    else Some(ReuseCandidate(d.path, base.value.lineageId, base.value.fileId, base.value.sourceHash))
  }

  ghost predicate ReusableFor(b: Bundle, docs: seq<Document>, affected: set<string>, files: seq<ReuseCandidate>) {
    && (forall i, j :: 0 <= i < j < |files| ==> Less(files[i].path, files[j].path))
    && (forall c :: c in files <==> exists d :: d in docs && CandidateFor(b, affected, d) == Some(c))
  }

  predicate CandidateLess(x: ReuseCandidate, y: ReuseCandidate) { Less(x.path, y.path) }

  /** Read the target documents in whatever order the map yields them, then sort. */
  method CollectReusable(b: Bundle, docs: seq<Document>, order: seq<Document>, affected: set<string>)
    returns (files: seq<ReuseCandidate>)
    requires DistinctPaths(docs) && multiset(order) == multiset(docs)
    ensures ReusableFor(b, docs, affected, files)
  {
    files := [];
    forall d ensures d in order <==> d in docs { MemberPermutes(order, docs, d); }
    DistinctOrder(docs, order);
    for i := 0 to |order|
      invariant forall c :: c in files <==> exists k :: 0 <= k < i && CandidateFor(b, affected, order[k]) == Some(c)
      invariant forall j, k :: 0 <= j < k < |files| ==> files[j].path != files[k].path
    {
      var c := CandidateFor(b, affected, order[i]);
      if c.Some? {
        forall k | 0 <= k < |files| ensures files[k].path != c.value.path {
          assert files[k] in files;
          var j :| 0 <= j < i && CandidateFor(b, affected, order[j]) == Some(files[k]);
        }
        files := files + [c.value];
      }
    }
    assert forall c :: c in files <==> exists d :: d in docs && CandidateFor(b, affected, d) == Some(c) by {
      forall c ensures c in files <==> exists d :: d in docs && CandidateFor(b, affected, d) == Some(c) {
        if d :| d in docs && CandidateFor(b, affected, d) == Some(c) { assert d in order; }
        if k :| 0 <= k < |order| && CandidateFor(b, affected, order[k]) == Some(c) { assert order[k] in docs; }
      }
    }
    files := SortCandidates(files);
  }

  lemma DistinctOrder(docs: seq<Document>, order: seq<Document>)
    requires DistinctPaths(docs) && multiset(order) == multiset(docs)
    ensures DistinctPaths(order)
  {
    var differ := (x: Document, y: Document) => x.path != y.path;
    NoTiesTransfers(differ, docs, order);
    assert forall i, j :: 0 <= i < j < |order| ==> differ(order[i], order[j]) || differ(order[j], order[i]);
  }

  method SortCandidates(files: seq<ReuseCandidate>) returns (sorted: seq<ReuseCandidate>)
    requires forall j, k :: 0 <= j < k < |files| ==> files[j].path != files[k].path
    ensures forall c :: c in sorted <==> c in files
    ensures forall i, j :: 0 <= i < j < |sorted| ==> Less(sorted[i].path, sorted[j].path)
  {
    sorted := Sort(CandidateLess, files);
    StringOrder();
    SortPermutes(CandidateLess, files);
    SortSorts(CandidateLess, files);
    NoTiesTransfers(CandidateLess, files, sorted);
    forall c ensures c in sorted <==> c in files { MemberPermutes(sorted, files, c); }
    assert forall i, j :: 0 <= i < j < |sorted| ==> CandidateLess(sorted[i], sorted[j]);
  }

  // ---------------------------------------------------------- invalidations

  datatype AnyId = Entity(entity: EntityId) | Relation(relation: RelationId)
  datatype Invalidated = Invalidated(id: AnyId, lineage: Option<LineageId>, reason: string, sourceHash: string)

  function RenderAny(id: AnyId): string {
    match id case Entity(e) => RenderEntity(e) case Relation(r) => RenderRelation(r)
  }

  predicate InvalidatedLess(x: Invalidated, y: Invalidated) {
    Less(RenderAny(x.id), RenderAny(y.id)) || (RenderAny(x.id) == RenderAny(y.id) && Less(x.reason, y.reason))
  }

  lemma InvalidatedOrder()
    ensures WeakOrder(InvalidatedLess)
  {
    StringOrder();
  }

  function PathOfFile(b: Bundle, id: EntityId): string {
    var f := FileById(b.files, id); if f.Some? then f.value.path else ""
  }

  function FileEntry(reason: string -> string): FileCard -> Invalidated {
    (f: FileCard) => Invalidated(Entity(f.fileId), Some(f.lineageId), reason(f.path), f.sourceHash)
  }

  function SymbolEntry(b: Bundle, reason: string -> string): SymbolCard -> Invalidated {
    (x: SymbolCard) => Invalidated(Entity(x.symbolId), Some(x.lineageId), reason(PathOfFile(b, x.fileId)), "")
  }

  function RelationEntry(b: Bundle, reason: string -> string): RelationEvidence -> Invalidated {
    (r: RelationEvidence) => Invalidated(Relation(r.relationId), None, reason(PathOfFile(b, r.sourceFileId)), "")
  }

  function FileIn(paths: set<string>): FileCard -> bool { (f: FileCard) => f.path in paths }
  function SymbolIn(b: Bundle, paths: set<string>): SymbolCard -> bool {
    (x: SymbolCard) => PathOfFile(b, x.fileId) in paths
  }
  function RelationIn(b: Bundle, paths: set<string>): RelationEvidence -> bool {
    (r: RelationEvidence) => PathOfFile(b, r.sourceFileId) in paths
  }

  /** Every file, symbol and relation living in one of the paths, once each. */
  function FileEntries(b: Bundle, reason: string -> string, paths: set<string>): seq<Invalidated> {
    Map(FileEntry(reason), Filter(FileIn(paths), b.files))
  }

  function SymbolEntries(b: Bundle, reason: string -> string, paths: set<string>): seq<Invalidated> {
    Map(SymbolEntry(b, reason), Filter(SymbolIn(b, paths), b.symbols))
  }

  function RelationEntries(b: Bundle, reason: string -> string, paths: set<string>): seq<Invalidated> {
    Map(RelationEntry(b, reason), Filter(RelationIn(b, paths), b.relations))
  }

  function EntriesIn(b: Bundle, reason: string -> string, paths: set<string>): seq<Invalidated> {
    FileEntries(b, reason, paths) + SymbolEntries(b, reason, paths) + RelationEntries(b, reason, paths)
  }

  lemma ThreeBags(x: seq<Invalidated>, y: seq<Invalidated>, z: seq<Invalidated>)
    ensures multiset(x + y + z) == multiset(x) + multiset(y) + multiset(z)
  {}

  lemma FileEntriesGrow(b: Bundle, reason: string -> string, paths: set<string>, p: string)
    requires p !in paths
    ensures multiset(FileEntries(b, reason, paths + {p}))
            == multiset(FileEntries(b, reason, paths)) + multiset(FileEntries(b, reason, {p}))
  {
    FilterMapDisjoint(FileEntry(reason), FileIn(paths), FileIn({p}), FileIn(paths + {p}), b.files);
  }

  lemma SymbolEntriesGrow(b: Bundle, reason: string -> string, paths: set<string>, p: string)
    requires p !in paths
    ensures multiset(SymbolEntries(b, reason, paths + {p}))
            == multiset(SymbolEntries(b, reason, paths)) + multiset(SymbolEntries(b, reason, {p}))
  {
    FilterMapDisjoint(SymbolEntry(b, reason), SymbolIn(b, paths), SymbolIn(b, {p}), SymbolIn(b, paths + {p}), b.symbols);
  }

  lemma RelationEntriesGrow(b: Bundle, reason: string -> string, paths: set<string>, p: string)
    requires p !in paths
    ensures multiset(RelationEntries(b, reason, paths + {p}))
            == multiset(RelationEntries(b, reason, paths)) + multiset(RelationEntries(b, reason, {p}))
  {
    FilterMapDisjoint(RelationEntry(b, reason), RelationIn(b, paths), RelationIn(b, {p}), RelationIn(b, paths + {p}), b.relations);
  }


  lemma EntriesGrow(b: Bundle, reason: string -> string, paths: set<string>, p: string)
    requires p !in paths
    ensures multiset(EntriesIn(b, reason, paths + {p}))
            == multiset(EntriesIn(b, reason, paths)) + multiset(EntriesIn(b, reason, {p}))
  {
    FileEntriesGrow(b, reason, paths, p);
    SymbolEntriesGrow(b, reason, paths, p);
    RelationEntriesGrow(b, reason, paths, p);
    ThreeBags(FileEntries(b, reason, paths), SymbolEntries(b, reason, paths), RelationEntries(b, reason, paths));
    ThreeBags(FileEntries(b, reason, {p}), SymbolEntries(b, reason, {p}), RelationEntries(b, reason, {p}));
    ThreeBags(FileEntries(b, reason, paths + {p}), SymbolEntries(b, reason, paths + {p}), RelationEntries(b, reason, paths + {p}));
  }

  // --------------------------------------------------- entries of one path

  lemma {:induction false} FileByIdOf(files: seq<FileCard>, f: FileCard)
    requires DistinctBy(files, FileIdOf) && f in files
    ensures FileById(files, f.fileId) == Some(f)
  {
    if files[0] != f {
      var i :| 0 <= i < |files| && files[i] == f;
      assert FileIdOf(files[0]) != FileIdOf(files[i]);
      assert DistinctBy(files[1..], FileIdOf) by {
        forall i, j | 0 <= i < j < |files[1..]| ensures FileIdOf(files[1..][i]) != FileIdOf(files[1..][j]) {
          assert FileIdOf(files[i+1]) != FileIdOf(files[j+1]);
        }
      }
      FileByIdOf(files[1..], f);
    }
  }

  lemma {:induction false} FileAtMember(files: seq<FileCard>, path: string)
    ensures FileAt(files, path).Some? ==> FileAt(files, path).value in files && FileAt(files, path).value.path == path
    ensures FileAt(files, path).None? ==> forall f :: f in files ==> f.path != path
  {
    if files != [] && files[0].path != path { FileAtMember(files[1..], path); }
  }

  function InFile(id: EntityId): SymbolCard -> bool { (x: SymbolCard) => x.fileId == id }
  function FromFile(id: EntityId): RelationEvidence -> bool { (r: RelationEvidence) => r.sourceFileId == id }

  /** A bundle whose references resolve, as `ValidateBundle` guarantees. */
  ghost predicate Rooted(b: Bundle) {
    && DistinctBy(b.files, FileIdOf) && DistinctBy(b.files, PathOf)
    && (forall x :: x in b.symbols ==> HasFile(b.files, x.fileId))
    && (forall r :: r in b.relations ==> HasFile(b.files, r.sourceFileId))
  }

  lemma ValidBundlesAreRooted(b: Bundle)
    requires BundleValid(b)
    ensures Rooted(b)
  {
    assert forall i, j :: 0 <= i < j < |b.files| ==> FileIdOf(b.files[i]) != FileIdOf(b.files[j]) && PathOf(b.files[i]) != PathOf(b.files[j]);
    forall x | x in b.symbols ensures HasFile(b.files, x.fileId) { assert SymbolInFiles(b.snapshot, b.files, x); }
    forall r | r in b.relations ensures HasFile(b.files, r.sourceFileId) { assert RelationInBundle(b.snapshot, b.files, b.symbols, r); }
  }

  /** Living in a file and living at its path are the same thing. */
  lemma SamePathSameFile(b: Bundle, f: FileCard, id: EntityId)
    requires Rooted(b) && f in b.files && HasFile(b.files, id)
    ensures PathOfFile(b, id) == f.path <==> id == f.fileId
  {
    var g :| g in b.files && g.fileId == id;
    FileByIdOf(b.files, g);
    FileByIdOf(b.files, f);
    if g.path == f.path { PathTells(b.files, f, g); }
  }

  lemma PathTells(files: seq<FileCard>, f: FileCard, g: FileCard)
    requires DistinctBy(files, PathOf) && f in files && g in files && f.path == g.path
    ensures f == g
  {
    var i :| 0 <= i < |files| && files[i] == g;
    var j :| 0 <= j < |files| && files[j] == f;
    assert PathOf(files[i]) == PathOf(files[j]);
  }

  /** What the loop appends for one affected path that the baseline holds. */
  function EntriesOfFile(b: Bundle, reason: string -> string, f: FileCard): seq<Invalidated> {
    [FileEntry(reason)(f)]
    + Map(SymbolEntry(b, reason), Filter(InFile(f.fileId), b.symbols))
    + Map(RelationEntry(b, reason), Filter(FromFile(f.fileId), b.relations))
  }

  lemma {:induction false} OnlyFileAtPath(files: seq<FileCard>, f: FileCard)
    requires DistinctBy(files, PathOf) && f in files
    ensures Filter(FileIn({f.path}), files) == [f]
  {
    assert DistinctBy(files[1..], PathOf) by {
      forall i, j | 0 <= i < j < |files[1..]| ensures PathOf(files[1..][i]) != PathOf(files[1..][j]) {
        assert PathOf(files[i+1]) != PathOf(files[j+1]);
      }
    }
    if files[0] == f {
      forall g | g in files[1..] ensures !FileIn({f.path})(g) {
        var i :| 0 <= i < |files[1..]| && files[1..][i] == g;
        assert PathOf(files[0]) != PathOf(files[i+1]);
      }
      FilterNone(FileIn({f.path}), files[1..]);
    } else {
      var i :| 0 <= i < |files| && files[i] == f;
      assert PathOf(files[0]) != PathOf(files[i]);
      OnlyFileAtPath(files[1..], f);
    }
  }

  lemma EntriesAtPath(b: Bundle, reason: string -> string, f: FileCard)
    requires Rooted(b) && f in b.files
    ensures EntriesIn(b, reason, {f.path}) == EntriesOfFile(b, reason, f)
  {
    OnlyFileAtPath(b.files, f);
    forall x | x in b.symbols ensures SymbolIn(b, {f.path})(x) == InFile(f.fileId)(x) { SamePathSameFile(b, f, x.fileId); }
    FilterSame(SymbolIn(b, {f.path}), InFile(f.fileId), b.symbols);
    forall r | r in b.relations ensures RelationIn(b, {f.path})(r) == FromFile(f.fileId)(r) { SamePathSameFile(b, f, r.sourceFileId); }
    FilterSame(RelationIn(b, {f.path}), FromFile(f.fileId), b.relations);
  }

  lemma EntriesElsewhere(b: Bundle, reason: string -> string, path: string)
    requires Rooted(b) && forall f :: f in b.files ==> f.path != path
    ensures EntriesIn(b, reason, {path}) == []
  {
    FilterNone(FileIn({path}), b.files);
    forall x | x in b.symbols ensures PathOfFile(b, x.fileId) != path { KnownPath(b, x.fileId); }
    FilterNone(SymbolIn(b, {path}), b.symbols);
    forall r | r in b.relations ensures PathOfFile(b, r.sourceFileId) != path { KnownPath(b, r.sourceFileId); }
    FilterNone(RelationIn(b, {path}), b.relations);
  }

  lemma KnownPath(b: Bundle, id: EntityId)
    requires Rooted(b) && HasFile(b.files, id)
    ensures exists f :: f in b.files && f.path == PathOfFile(b, id)
  {
    var g :| g in b.files && g.fileId == id;
    FileByIdOf(b.files, g);
  }

  function Elements(s: seq<string>): set<string> { set p | p in s }

  /** The nested loops over affected paths, symbols and relations. */
  method ListInvalidations(b: Bundle, paths: seq<string>, reason: string -> string) returns (list: seq<Invalidated>)
    requires Rooted(b) && StrictlySorted(paths)
    ensures multiset(list) == multiset(EntriesIn(b, reason, Elements(paths))) && Sorted(InvalidatedLess, list)
  {
    list := [];
    NoEntries(b, reason);
    assert Elements(paths[..0]) == {};
    for i := 0 to |paths|
      invariant multiset(list) == multiset(EntriesIn(b, reason, Elements(paths[..i])))
    {
      StringOrder();
      assert paths[i] !in paths[..i];
      assert Elements(paths[..i+1]) == Elements(paths[..i]) + {paths[i]} by {
        assert paths[..i+1] == paths[..i] + [paths[i]];
      }
      EntriesGrow(b, reason, Elements(paths[..i]), paths[i]);
      var f := FileAt(b.files, paths[i]);
      FileAtMember(b.files, paths[i]);
      if f.Some? {
        EntriesAtPath(b, reason, f.value);
        list := list + EntriesOfFile(b, reason, f.value);
      } else {
        EntriesElsewhere(b, reason, paths[i]);
      }
    }
    assert paths[..|paths|] == paths;
    SortPermutes(InvalidatedLess, list);
    InvalidatedOrder();
    SortSorts(InvalidatedLess, list);
    list := Sort(InvalidatedLess, list);
  }

  lemma NoEntries(b: Bundle, reason: string -> string)
    ensures EntriesIn(b, reason, {}) == []
  {
    FilterNone(FileIn({}), b.files);
    FilterNone(SymbolIn(b, {}), b.symbols);
    FilterNone(RelationIn(b, {}), b.relations);
  }

  // -------------------------------------------------------------- the plan

  datatype Plan = Plan(fullReindex: bool, affectedPaths: seq<string>, reusableFiles: seq<ReuseCandidate>,
                       invalidations: seq<Invalidated>)

  predicate NeedsFullReindex(b: Bundle, target: Snapshot) {
    || b.snapshot.configurationHash != target.configurationHash
    || b.snapshot.adapterSetHash != target.adapterSetHash
  }

  /** The affected paths: everything on a full reindex, the least closure otherwise. */
  ghost predicate AffectedIs(b: Bundle, target: Snapshot, docs: seq<Document>, changes: seq<Change>, affected: set<string>) {
    if NeedsFullReindex(b, target) then affected == AllPaths(b) + DocPaths(docs)
    else IsLeastClosure(Dependency(b), Seeds(b, changes), affected)
  }

  /** The inputs `PlanInvalidation` accepts. */
  ghost predicate Plannable(b: Bundle, target: Snapshot, docs: seq<Document>, changes: ChangeSet) {
    && BundleValid(b) && ValidSnapshot(target)
    && b.snapshot.repositoryId == target.repositoryId && b.snapshot.tenantId == target.tenantId
    && b.snapshot.sourceCommit == changes.baseCommit && target.sourceCommit == changes.targetCommit
    && (forall d :: d in docs ==> NormalizedPath(d.path)) && DistinctPaths(docs)
    && CoverageOk(b, docs, changes.changes)
  }

  ghost predicate PlanFor(b: Bundle, target: Snapshot, docs: seq<Document>, changes: seq<Change>, plan: Plan,
                          affected: set<string>, reason: string -> string) {
    && plan.fullReindex == NeedsFullReindex(b, target)
    && AffectedIs(b, target, docs, changes, affected)
    && StrictlySorted(plan.affectedPaths) && Elements(plan.affectedPaths) == affected
    && ReusableFor(b, docs, affected, plan.reusableFiles)
    && multiset(plan.invalidations) == multiset(EntriesIn(b, reason, affected)) && Sorted(InvalidatedLess, plan.invalidations)
    && forall p :: p in affected ==> reason(p) == ReasonFor(b, target, changes, p)
  }

  /** Why a path is affected. */
  ghost function ReasonFor(b: Bundle, target: Snapshot, changes: seq<Change>, p: string): string {
    if b.snapshot.configurationHash != target.configurationHash then "configuration_changed"
    else if b.snapshot.adapterSetHash != target.adapterSetHash then "adapter_changed"
    else if p in Mentions(changes) then MentionReason(changes, p)
    else "dependency_changed"
  }

  method FullReasons(b: Bundle, target: Snapshot, docs: seq<Document>) returns (reasons: map<string, string>)
    requires NeedsFullReindex(b, target)
    ensures reasons.Keys == AllPaths(b) + DocPaths(docs)
    ensures forall p :: p in reasons ==> reasons[p] == ReasonFor(b, target, [], p)
  {
    var reason := if b.snapshot.configurationHash == target.configurationHash then "adapter_changed"
                  else "configuration_changed";
    reasons := map p | p in AllPaths(b) + DocPaths(docs) :: reason;
  }

  method IncrementalReasons(b: Bundle, changes: seq<Change>) returns (reasons: map<string, string>)
    requires forall c :: c in changes && c.fromPath.Some? ==> c.kind == "renamed"
    requires NoRepeats(Mentions(changes))
    ensures IsLeastClosure(Dependency(b), Seeds(b, changes), reasons.Keys)
    ensures forall p :: p in reasons ==>
      reasons[p] == if p in Mentions(changes) then MentionReason(changes, p) else "dependency_changed"
  {
    var start := SeedReasons(b, changes);
    var reverse := ReverseFileDependencies(b);
    ghost var dep := Dependency(b);
    ghost var universe := start.Keys + AllPaths(b);
    forall p, q ensures dep(p, q) ==> p in universe {
      if dep(p, q) { DependentsAreFiles(b, p, q); }
    }
    assert forall p, q :: Edge(reverse, p, q) <==> dep(p, q);
    reasons := Propagate(dep, universe, reverse, start);
  }

  function ReasonIn(reasons: map<string, string>): string -> string {
    (p: string) => if p in reasons then reasons[p] else ""
  }

  method CheckDocuments(docs: seq<Document>) returns (ok: bool)
    ensures ok <==> (forall d :: d in docs ==> NormalizedPath(d.path)) && DistinctPaths(docs)
  {
    var path := (d: Document) => d.path;
    var _, collected := Collect(docs, (d: Document) => NormalizedPath(d.path), path);
    assert DistinctBy(docs, path) <==> DistinctPaths(docs) by { assert forall d :: path(d) == d.path; }
    ok := collected;
  }

  /** `PlanInvalidation`; `order` is the order its map of documents is read in. */
  method PlanInvalidation(b: Bundle, target: Snapshot, docs: seq<Document>, changes: ChangeSet, order: seq<Document>)
    returns (r: Outcome<Plan>, ghost affected: set<string>, ghost reason: string -> string)
    requires multiset(order) == multiset(docs)
    ensures r.Ok? <==> Plannable(b, target, docs, changes)
    ensures r.Ok? ==> PlanFor(b, target, docs, changes.changes, r.value, affected, reason)
  {
    r, affected, reason := Err, {}, (p: string) => "";
    var ok := CheckInputs(b, target, docs, changes);
    if ok {
      assert forall c :: c in changes.changes && c.fromPath.Some? ==> c.kind == "renamed" by {
        forall c | c in changes.changes && c.fromPath.Some? ensures c.kind == "renamed" { assert ChangeFits(b, docs, c); }
      }
      ValidBundlesAreRooted(b);
      var plan, reasons := BuildPlan(b, target, docs, changes.changes, order);
      r, affected, reason := Ok(plan), reasons.Keys, ReasonIn(reasons);
    }
  }

  method CheckInputs(b: Bundle, target: Snapshot, docs: seq<Document>, changes: ChangeSet) returns (ok: bool)
    ensures ok <==> Plannable(b, target, docs, changes)
  {
    ok := false;
    var baselineOk := ValidateBundle(b);
    var docsOk := CheckDocuments(docs);
    var covered := ValidateChangeSetCoverage(b, docs, changes.changes);
    if baselineOk && ValidSnapshot(target)
       && b.snapshot.repositoryId == target.repositoryId && b.snapshot.tenantId == target.tenantId
       && b.snapshot.sourceCommit == changes.baseCommit && target.sourceCommit == changes.targetCommit
       && docsOk && covered {
      ok := true;
    }
  }

  method BuildPlan(b: Bundle, target: Snapshot, docs: seq<Document>, changes: seq<Change>, order: seq<Document>)
    returns (plan: Plan, reasons: map<string, string>)
    requires Rooted(b) && DistinctPaths(docs) && multiset(order) == multiset(docs)
    requires forall c :: c in changes && c.fromPath.Some? ==> c.kind == "renamed"
    requires NoRepeats(Mentions(changes))
    ensures PlanFor(b, target, docs, changes, plan, reasons.Keys, ReasonIn(reasons))
  {
    var full := NeedsFullReindex(b, target);
    if full { reasons := FullReasons(b, target, docs); } else { reasons := IncrementalReasons(b, changes); }
    var paths := SortedKeys(reasons);
    var reusable := CollectReusable(b, docs, order, reasons.Keys);
    var invalidations := ListInvalidations(b, paths, ReasonIn(reasons));
    plan := Plan(full, paths, reusable, invalidations);
  }

  // ------------------------------------------------------------ properties

  ghost predicate Reusable(plan: Plan, path: string) { exists c :: c in plan.reusableFiles && c.path == path }

  lemma UntouchedIsSame(b: Bundle, docs: seq<Document>, changes: seq<Change>, affected: set<string>, p: string)
    requires CoverageOk(b, docs, changes) && Seeds(b, changes) <= affected
    requires p in AllPaths(b) + DocPaths(docs) && p !in affected
    ensures Had(b, p) && HasDoc(docs, p) && FileAt(b.files, p).value.sourceHash == DocAt(docs, p).sourceHash
  {
    assert p !in Mentions(changes);
    if Had(b, p) || HasDoc(docs, p) {
    } else {
      FileAtMember(b.files, p);
      assert false;
    }
  }

  /** The parts of an accepted, incremental plan the closure results rest on. */
  ghost predicate Incremental(b: Bundle, docs: seq<Document>, changes: seq<Change>, plan: Plan, affected: set<string>) {
    && CoverageOk(b, docs, changes) && DistinctPaths(docs)
    && IsLeastClosure(Dependency(b), Seeds(b, changes), affected)
    && Elements(plan.affectedPaths) == affected
    && ReusableFor(b, docs, affected, plan.reusableFiles)
  }

  /** A plan `PlanInvalidation` returned. */
  ghost predicate ReturnedPlan(b: Bundle, target: Snapshot, docs: seq<Document>, changes: ChangeSet, plan: Plan) {
    Plannable(b, target, docs, changes)
    && exists affected, reason :: PlanFor(b, target, docs, changes.changes, plan, affected, reason)
  }

  ghost predicate AcceptedPlan(b: Bundle, target: Snapshot, docs: seq<Document>, changes: ChangeSet, plan: Plan) {
    ReturnedPlan(b, target, docs, changes, plan) && !plan.fullReindex
  }

  lemma AcceptedIsIncremental(b: Bundle, target: Snapshot, docs: seq<Document>, changes: ChangeSet, plan: Plan)
    requires AcceptedPlan(b, target, docs, changes, plan)
    ensures Incremental(b, docs, changes.changes, plan, Elements(plan.affectedPaths))
  {
    var affected, reason :| PlanFor(b, target, docs, changes.changes, plan, affected, reason);
  }

  lemma SplitDocument(b: Bundle, docs: seq<Document>, changes: seq<Change>, plan: Plan, affected: set<string>, d: Document)
    requires Incremental(b, docs, changes, plan, affected) && d in docs
    ensures d.path in affected <==> !Reusable(plan, d.path)
  {
    if d.path !in affected {
      assert d.path in DocPaths(docs);
      UntouchedIsSame(b, docs, changes, affected, d.path);
      DocAtUnique(docs, d);
      assert CandidateFor(b, affected, d).value in plan.reusableFiles;
    } else {
      forall c | c in plan.reusableFiles ensures c.path != d.path {
        var e :| e in docs && CandidateFor(b, affected, e) == Some(c);
      }
    }
  }

  /** Without a full reindex every target document is affected or reusable, never both. */
  lemma AffectedOrReusable(b: Bundle, target: Snapshot, docs: seq<Document>, changes: ChangeSet, plan: Plan, d: Document)
    requires AcceptedPlan(b, target, docs, changes, plan) && d in docs
    ensures d.path in plan.affectedPaths <==> !Reusable(plan, d.path)
  {
    AcceptedIsIncremental(b, target, docs, changes, plan);
    SplitDocument(b, docs, changes.changes, plan, Elements(plan.affectedPaths), d);
    assert d.path in Elements(plan.affectedPaths) <==> d.path in plan.affectedPaths;
  }

  /** Consecutive paths, each depending on the next. */
  ghost predicate Chain(b: Bundle, paths: seq<string>) {
    |paths| >= 1 && forall i :: 0 <= i < |paths| - 1 ==> DependsOn(b, paths[i], paths[i+1])
  }

  ghost predicate Unchanged(b: Bundle, docs: seq<Document>, path: string) {
    Had(b, path) && HasDoc(docs, path) && DocAt(docs, path).sourceHash == FileAt(b.files, path).value.sourceHash
  }

  lemma ReusableIsUnaffected(b: Bundle, docs: seq<Document>, changes: seq<Change>, plan: Plan, affected: set<string>, p: string)
    requires Incremental(b, docs, changes, plan, affected) && Reusable(plan, p)
    ensures p !in affected
  {
    var c :| c in plan.reusableFiles && c.path == p;
    var e :| e in docs && CandidateFor(b, affected, e) == Some(c);
  }

  lemma DependencyIsReusable(b: Bundle, docs: seq<Document>, changes: seq<Change>, plan: Plan, affected: set<string>,
                             p: string, q: string)
    requires Incremental(b, docs, changes, plan, affected) && Reusable(plan, p) && DependsOn(b, p, q)
    ensures Reusable(plan, q) && Unchanged(b, docs, q)
  {
    ReusableIsUnaffected(b, docs, changes, plan, affected, p);
    DependentsAreFiles(b, p, q);
    assert Dependency(b)(p, q);
    UntouchedIsSame(b, docs, changes, affected, q);
    DocAtFound(docs, q);
    SplitDocument(b, docs, changes, plan, affected, DocAt(docs, q));
  }

  lemma {:induction false} ChainIsReusable(b: Bundle, docs: seq<Document>, changes: seq<Change>, plan: Plan,
                                           affected: set<string>, chain: seq<string>, n: nat)
    requires Incremental(b, docs, changes, plan, affected) && Chain(b, chain) && Reusable(plan, chain[0]) && n < |chain|
    ensures Reusable(plan, chain[n]) && (n > 0 ==> Unchanged(b, docs, chain[n]))
  {
    if n > 0 {
      ChainIsReusable(b, docs, changes, plan, affected, chain, n - 1);
      assert DependsOn(b, chain[n-1], chain[n-1+1]);
      DependencyIsReusable(b, docs, changes, plan, affected, chain[n-1], chain[n]);
    }
  }

  /** Everything a reusable file depends on, however indirectly, is reusable and
      present in the target with identical bytes. */
  lemma ReusableSetClosed(b: Bundle, target: Snapshot, docs: seq<Document>, changes: ChangeSet, plan: Plan,
                          chain: seq<string>)
    requires AcceptedPlan(b, target, docs, changes, plan) && Chain(b, chain) && Reusable(plan, chain[0])
    ensures forall n :: 0 < n < |chain| ==> Reusable(plan, chain[n]) && Unchanged(b, docs, chain[n])
  {
    AcceptedIsIncremental(b, target, docs, changes, plan);
    forall n | 0 < n < |chain| ensures Reusable(plan, chain[n]) && Unchanged(b, docs, chain[n]) {
      ChainIsReusable(b, docs, changes.changes, plan, Elements(plan.affectedPaths), chain, n);
    }
  }

  function IdOf(x: Invalidated): AnyId { x.id }
  function FileAny(f: FileCard): AnyId { Entity(f.fileId) }
  function SymbolAny(x: SymbolCard): AnyId { Entity(x.symbolId) }
  function RelationAny(r: RelationEvidence): AnyId { Relation(r.relationId) }

  /** The identifiers living in a set of paths. */
  function IdsIn(b: Bundle, paths: set<string>): seq<AnyId> {
    Map(FileAny, Filter(FileIn(paths), b.files)) + Map(SymbolAny, Filter(SymbolIn(b, paths), b.symbols))
    + Map(RelationAny, Filter(RelationIn(b, paths), b.relations))
  }

  lemma MapOfMap<A, B, D>(f: A -> B, g: B -> D, h: A -> D, s: seq<A>)
    requires forall x :: g(f(x)) == h(x)
    ensures Map(g, Map(f, s)) == Map(h, s)
  {}

  lemma EntryIds(b: Bundle, reason: string -> string, paths: set<string>)
    ensures Map(IdOf, EntriesIn(b, reason, paths)) == IdsIn(b, paths)
  {
    var x, y, z := Filter(FileIn(paths), b.files), Filter(SymbolIn(b, paths), b.symbols), Filter(RelationIn(b, paths), b.relations);
    MapOfMap(FileEntry(reason), IdOf, FileAny, x);
    MapOfMap(SymbolEntry(b, reason), IdOf, SymbolAny, y);
    MapOfMap(RelationEntry(b, reason), IdOf, RelationAny, z);
    MapAppend(IdOf, Map(FileEntry(reason), x), Map(SymbolEntry(b, reason), y));
    MapAppend(IdOf, Map(FileEntry(reason), x) + Map(SymbolEntry(b, reason), y), Map(RelationEntry(b, reason), z));
  }

  lemma DistinctTail<A(!new)>(f: A -> AnyId, s: seq<A>)
    requires s != [] && DistinctBy(s, f)
    ensures DistinctBy(s[1..], f)
    ensures forall x :: x in s[1..] ==> f(x) != f(s[0])
  {
    forall i, j | 0 <= i < j < |s[1..]| ensures f(s[1..][i]) != f(s[1..][j]) { assert f(s[i+1]) != f(s[j+1]); }
  }

  lemma CountAbsent<A(!new)>(f: A -> AnyId, p: A -> bool, s: seq<A>, id: AnyId)
    requires forall x :: x in s ==> f(x) != id
    ensures multiset(Map(f, Filter(p, s)))[id] == 0
  {
    var kept := Filter(p, s);
    if id in multiset(Map(f, kept)) {
      MapMember(f, kept, id);
      var x :| x in kept && f(x) == id;
      FilterMember(p, s, x);
    }
  }

  lemma CountStep<A>(f: A -> AnyId, p: A -> bool, s: seq<A>, id: AnyId)
    requires s != []
    ensures multiset(Map(f, Filter(p, s)))[id]
            == (if p(s[0]) && f(s[0]) == id then 1 else 0) + multiset(Map(f, Filter(p, s[1..])))[id]
  {
    var first := if p(s[0]) then [s[0]] else [];
    MapAppend(f, first, Filter(p, s[1..]));
  }

  lemma {:induction false} CountOnce<A(!new)>(f: A -> AnyId, p: A -> bool, s: seq<A>, x: A)
    requires x in s && DistinctBy(s, f)
    ensures multiset(Map(f, Filter(p, s)))[f(x)] == if p(x) then 1 else 0
  {
    DistinctTail(f, s);
    CountStep(f, p, s, f(x));
    if x == s[0] { CountAbsent(f, p, s[1..], f(x)); } else { CountOnce(f, p, s[1..], x); }
  }

  /** Identifiers never repeat across a valid bundle, and the three kinds never meet. */
  ghost predicate IdsDistinct(b: Bundle) {
    && DistinctBy(b.files, FileAny) && DistinctBy(b.symbols, SymbolAny) && DistinctBy(b.relations, RelationAny)
    && (forall f :: f in b.files ==> f.fileId.FileId?) && (forall x :: x in b.symbols ==> x.symbolId.SymbolId?)
  }

  lemma ValidBundleIds(b: Bundle)
    requires BundleValid(b)
    ensures IdsDistinct(b)
  {
    assert forall i, j :: 0 <= i < j < |b.files| ==> FileAny(b.files[i]) != FileAny(b.files[j]);
    assert forall i, j :: 0 <= i < j < |b.symbols| ==> SymbolAny(b.symbols[i]) != SymbolAny(b.symbols[j]);
    assert forall i, j :: 0 <= i < j < |b.relations| ==> RelationAny(b.relations[i]) != RelationAny(b.relations[j]);
    forall f | f in b.files ensures f.fileId.FileId? { assert FileInSnapshot(b.snapshot, f); }
    forall x | x in b.symbols ensures x.symbolId.SymbolId? { assert SymbolInFiles(b.snapshot, b.files, x); }
  }

  function InvalidatedIds(plan: Plan): multiset<AnyId> { multiset(Map(IdOf, plan.invalidations)) }

  lemma PlanIds(b: Bundle, target: Snapshot, docs: seq<Document>, changes: ChangeSet, plan: Plan)
    requires ReturnedPlan(b, target, docs, changes, plan)
    ensures InvalidatedIds(plan) == multiset(IdsIn(b, Elements(plan.affectedPaths)))
  {
    var affected, reason :| PlanFor(b, target, docs, changes.changes, plan, affected, reason);
    EntryIds(b, reason, affected);
    MapPermutes(IdOf, plan.invalidations, EntriesIn(b, reason, affected));
  }

  lemma IdsSplit(b: Bundle, paths: set<string>, id: AnyId)
    ensures multiset(IdsIn(b, paths))[id]
            == multiset(Map(FileAny, Filter(FileIn(paths), b.files)))[id]
             + multiset(Map(SymbolAny, Filter(SymbolIn(b, paths), b.symbols)))[id]
             + multiset(Map(RelationAny, Filter(RelationIn(b, paths), b.relations)))[id]
  {}

  lemma FileCount(b: Bundle, paths: set<string>, f: FileCard)
    requires IdsDistinct(b) && f in b.files
    ensures multiset(IdsIn(b, paths))[FileAny(f)] == if f.path in paths then 1 else 0
  {
    IdsSplit(b, paths, FileAny(f));
    CountOnce(FileAny, FileIn(paths), b.files, f);
    CountAbsent(SymbolAny, SymbolIn(b, paths), b.symbols, FileAny(f));
    CountAbsent(RelationAny, RelationIn(b, paths), b.relations, FileAny(f));
  }

  lemma SymbolCount(b: Bundle, paths: set<string>, x: SymbolCard)
    requires IdsDistinct(b) && x in b.symbols
    ensures multiset(IdsIn(b, paths))[SymbolAny(x)] == if PathOfFile(b, x.fileId) in paths then 1 else 0
  {
    IdsSplit(b, paths, SymbolAny(x));
    CountOnce(SymbolAny, SymbolIn(b, paths), b.symbols, x);
    CountAbsent(FileAny, FileIn(paths), b.files, SymbolAny(x));
    CountAbsent(RelationAny, RelationIn(b, paths), b.relations, SymbolAny(x));
  }

  lemma RelationCount(b: Bundle, paths: set<string>, r: RelationEvidence)
    requires IdsDistinct(b) && r in b.relations
    ensures multiset(IdsIn(b, paths))[RelationAny(r)] == if PathOfFile(b, r.sourceFileId) in paths then 1 else 0
  {
    IdsSplit(b, paths, RelationAny(r));
    CountOnce(RelationAny, RelationIn(b, paths), b.relations, r);
    CountAbsent(FileAny, FileIn(paths), b.files, RelationAny(r));
    CountAbsent(SymbolAny, SymbolIn(b, paths), b.symbols, RelationAny(r));
  }

  /** Each baseline file, symbol and relation is invalidated once if its file
      is affected and never otherwise; nothing else is invalidated. */
  lemma InvalidatedExactlyOnce(b: Bundle, target: Snapshot, docs: seq<Document>, changes: ChangeSet, plan: Plan)
    requires ReturnedPlan(b, target, docs, changes, plan)
    ensures forall f :: f in b.files ==>
      InvalidatedIds(plan)[Entity(f.fileId)] == if f.path in plan.affectedPaths then 1 else 0
    ensures forall x :: x in b.symbols ==>
      InvalidatedIds(plan)[Entity(x.symbolId)] == if PathOfFile(b, x.fileId) in plan.affectedPaths then 1 else 0
    ensures forall r :: r in b.relations ==>
      InvalidatedIds(plan)[Relation(r.relationId)] == if PathOfFile(b, r.sourceFileId) in plan.affectedPaths then 1 else 0
    ensures forall id :: id in InvalidatedIds(plan) ==> Holds(b, id)
  {
    PlanIds(b, target, docs, changes, plan);
    ValidBundleIds(b);
    var paths := Elements(plan.affectedPaths);
    assert forall p :: p in paths <==> p in plan.affectedPaths;
    forall f | f in b.files ensures InvalidatedIds(plan)[Entity(f.fileId)] == if f.path in paths then 1 else 0 {
      FileCount(b, paths, f);
    }
    forall x | x in b.symbols
      ensures InvalidatedIds(plan)[Entity(x.symbolId)] == if PathOfFile(b, x.fileId) in paths then 1 else 0 {
      SymbolCount(b, paths, x);
    }
    forall r | r in b.relations
      ensures InvalidatedIds(plan)[Relation(r.relationId)] == if PathOfFile(b, r.sourceFileId) in paths then 1 else 0 {
      RelationCount(b, paths, r);
    }
    forall id | id in multiset(IdsIn(b, paths)) ensures Holds(b, id) { OnlyHeldIds(b, paths, id); }
  }

  ghost predicate Holds(b: Bundle, id: AnyId) {
    || (exists f :: f in b.files && FileAny(f) == id)
    || (exists x :: x in b.symbols && SymbolAny(x) == id)
    || (exists r :: r in b.relations && RelationAny(r) == id)
  }

  lemma OnlyHeldIds(b: Bundle, paths: set<string>, id: AnyId)
    requires id in multiset(IdsIn(b, paths))
    ensures Holds(b, id)
  {
    if !Holds(b, id) {
      IdsSplit(b, paths, id);
      CountAbsent(FileAny, FileIn(paths), b.files, id);
      CountAbsent(SymbolAny, SymbolIn(b, paths), b.symbols, id);
      CountAbsent(RelationAny, RelationIn(b, paths), b.relations, id);
    }
  }
}
