/** What an invalidation plan says about the baseline's cards, stated on the cards
    and the change set alone. */
module PlanMeaning {
  import opened Ordering
  import opened Seqs
  import opened Cards
  import opened Bundles
  import opened Normalization
  import opened Reuse
  import opened Invalidation
  import opened Planning

  // --------------------------------------------------------------- evidence

  /** The kinds of relation through which a change spreads. */
  predicate Spreading(kind: string) {
    || kind == "imports" || kind == "references" || kind == "calls" || kind == "implements" || kind == "extends"
    || kind == "tests" || kind == "routes_to" || kind == "validates" || kind == "uses_schema"
  }

  /** The relation says that file `f` uses file `g`, or a symbol that lives in `g`. */
  ghost predicate Uses(b: Bundle, r: RelationEvidence, f: FileCard, g: FileCard) {
    && r in b.relations && f in b.files && g in b.files && r.resolution == "resolved" && Spreading(r.kind)
    && r.sourceFileId == f.fileId && r.targetEntityId.Some?
    && (r.targetEntityId.value == g.fileId || exists x :: x in b.symbols && x.symbolId == r.targetEntityId.value && x.fileId == g.fileId)
  }

  /** Some relation says that the file at `p` uses the file at `q`. */
  ghost predicate UsesPath(b: Bundle, p: string, q: string) {
    exists r, f, g :: Uses(b, r, f, g) && f.path == p && g.path == q
  }

  lemma SpreadingIs(kind: string)
    ensures Spreading(kind) <==> Propagates(kind)
  {}

  lemma {:induction false} SymbolFound(symbols: seq<SymbolCard>, x: SymbolCard)
    requires DistinctBy(symbols, SymbolIdOf) && x in symbols
    ensures SymbolById(symbols, x.symbolId) == Some(x)
  {
    if symbols[0] != x {
      var i :| 0 <= i < |symbols| && symbols[i] == x;
      assert SymbolIdOf(symbols[0]) != SymbolIdOf(symbols[i]);
      assert DistinctBy(symbols[1..], SymbolIdOf) by {
        forall i, j | 0 <= i < j < |symbols[1..]| ensures SymbolIdOf(symbols[1..][i]) != SymbolIdOf(symbols[1..][j]) {
          assert SymbolIdOf(symbols[i+1]) != SymbolIdOf(symbols[j+1]);
        }
      }
      SymbolFound(symbols[1..], x);
    }
  }

  lemma {:induction false} SymbolFoundIs(symbols: seq<SymbolCard>, id: EntityId)
    ensures SymbolById(symbols, id).Some? ==> SymbolById(symbols, id).value in symbols && SymbolById(symbols, id).value.symbolId == id
  {
    if symbols != [] && symbols[0].symbolId != id { SymbolFoundIs(symbols[1..], id); }
  }

  lemma {:induction false} FileFoundIs(files: seq<FileCard>, id: EntityId)
    ensures FileById(files, id).Some? ==> FileById(files, id).value in files && FileById(files, id).value.fileId == id
  {
    if files != [] && files[0].fileId != id { FileFoundIs(files[1..], id); }
  }

  /** What the lookups below need of a valid baseline. */
  ghost predicate Indexed(b: Bundle) {
    && Rooted(b) && DistinctBy(b.symbols, SymbolIdOf)
    && (forall x :: x in b.symbols ==> x.symbolId.SymbolId?) && (forall f :: f in b.files ==> f.fileId.FileId?)
  }

  lemma ValidIsIndexed(b: Bundle)
    requires BundleValid(b)
    ensures Indexed(b)
  {
    ValidBundlesAreRooted(b);
    var s := b.symbols;
    assert forall i, j :: 0 <= i < j < |s| ==> SymbolIdOf(s[i]) != SymbolIdOf(s[j]);
    forall x | x in b.symbols ensures x.symbolId.SymbolId? { assert SymbolInFiles(b.snapshot, b.files, x); }
    forall f | f in b.files ensures f.fileId.FileId? { assert FileInSnapshot(b.snapshot, f); }
  }

  lemma HomeIs(b: Bundle, target: EntityId, g: FileCard)
    requires Indexed(b) && g in b.files
    requires target == g.fileId || exists x :: x in b.symbols && x.symbolId == target && x.fileId == g.fileId
    ensures HomeOf(b, target) == g.fileId
  {
    if target == g.fileId {
      SymbolFoundIs(b.symbols, target);
    } else {
      var x :| x in b.symbols && x.symbolId == target && x.fileId == g.fileId;
      SymbolFound(b.symbols, x);
    }
  }

  lemma UsesIsEdge(b: Bundle, r: RelationEvidence, f: FileCard, g: FileCard)
    requires Indexed(b) && Uses(b, r, f, g) && f.path != g.path
    ensures EdgeOf(b, r) == Some((f.path, g.path))
  {
    SpreadingIs(r.kind);
    FileByIdOf(b.files, f);
    FileByIdOf(b.files, g);
    HomeIs(b, r.targetEntityId.value, g);
  }

  lemma EdgeIsUse(b: Bundle, r: RelationEvidence, p: string, q: string)
    requires Indexed(b) && r in b.relations && EdgeOf(b, r) == Some((p, q))
    ensures UsesPath(b, p, q) && p != q
  {
    SpreadingIs(r.kind);
    var target := r.targetEntityId.value;
    FileFoundIs(b.files, r.sourceFileId);
    FileFoundIs(b.files, HomeOf(b, target));
    SymbolFoundIs(b.symbols, target);
    var f, g := FileById(b.files, r.sourceFileId).value, FileById(b.files, HomeOf(b, target)).value;
    assert Uses(b, r, f, g);
  }

  /** The dependencies the plan follows are the uses the relations prove. */
  lemma DependsExactly(b: Bundle, p: string, q: string)
    requires Indexed(b)
    ensures DependsOn(b, p, q) <==> UsesPath(b, p, q) && p != q
  {
    if DependsOn(b, p, q) {
      var r :| r in b.relations && EdgeOf(b, r) == Some((p, q));
      EdgeIsUse(b, r, p, q);
    }
    if UsesPath(b, p, q) && p != q {
      var r, f, g :| Uses(b, r, f, g) && f.path == p && g.path == q;
      UsesIsEdge(b, r, f, g);
    }
  }

  // ------------------------------------------------------------------- seeds

  /** A change names the path, as its own or as the old name of a renamed file. */
  ghost predicate Named(changes: seq<Change>, p: string) {
    exists c :: c in changes && (c.path == p || (c.kind == "renamed" && c.fromPath == Some(p)))
  }

  /** A relation of the file at `p` found no target. */
  ghost predicate Dangling(b: Bundle, p: string) {
    exists r, f :: r in b.relations && f in b.files && r.resolution == "unresolved" && r.sourceFileId == f.fileId && f.path == p
  }

  /** Files appear or vanish. */
  ghost predicate Reshapes(changes: seq<Change>) {
    exists c :: c in changes && (c.kind == "added" || c.kind == "deleted" || c.kind == "renamed")
  }

  ghost predicate Seeded(b: Bundle, changes: seq<Change>, p: string) {
    Named(changes, p) || (Reshapes(changes) && Dangling(b, p))
  }

  lemma {:induction false} NamedIsMentioned(changes: seq<Change>, p: string)
    ensures Named(changes, p) <==> p in Mentions(changes)
  {
    if changes != [] {
      NamedIsMentioned(changes[1..], p);
      assert Mentions(changes) == MentionsOf(changes[0]) + Mentions(changes[1..]);
      if Named(changes, p) && !Named(changes[1..], p) {
        var c :| c in changes && (c.path == p || (c.kind == "renamed" && c.fromPath == Some(p)));
        assert c == changes[0];
      }
    }
  }

  lemma DanglingIs(b: Bundle, p: string)
    requires Indexed(b)
    ensures Dangling(b, p) <==> p in UnresolvedSources(b)
  {
    if Dangling(b, p) {
      var r, f :| r in b.relations && f in b.files && r.resolution == "unresolved" && r.sourceFileId == f.fileId && f.path == p;
      FileByIdOf(b.files, f);
    }
    if p in UnresolvedSources(b) {
      var r :| r in b.relations && r.resolution == "unresolved" && FileById(b.files, r.sourceFileId).Some?
        && FileById(b.files, r.sourceFileId).value.path == p;
      FileFoundIs(b.files, r.sourceFileId);
    }
  }

  lemma SeededExactly(b: Bundle, changes: seq<Change>, p: string)
    requires Indexed(b)
    ensures Seeded(b, changes, p) <==> p in Seeds(b, changes)
  {
    NamedIsMentioned(changes, p);
    DanglingIs(b, p);
    assert Reshapes(changes) <==> Structural(changes) by {
      forall c: Change ensures MovesFiles(c) <==> c.kind == "added" || c.kind == "deleted" || c.kind == "renamed" {}
    }
  }

  // ------------------------------------------------------------------ chains

  /** Each path of the chain uses the next, and the last one is a seed. */
  ghost predicate LeadsToSeed(b: Bundle, changes: seq<Change>, chain: seq<string>) {
    && |chain| >= 1 && Seeded(b, changes, chain[|chain| - 1])
    && forall i :: 0 <= i < |chain| - 1 ==> UsesPath(b, chain[i], chain[i+1])
  }

  ghost predicate Reaches(b: Bundle, changes: seq<Change>, p: string) {
    exists chain :: LeadsToSeed(b, changes, chain) && chain[0] == p
  }

  lemma {:induction false} ChainIsAffected(b: Bundle, changes: seq<Change>, affected: set<string>, chain: seq<string>)
    requires Indexed(b) && IsLeastClosure(Dependency(b), Seeds(b, changes), affected) && LeadsToSeed(b, changes, chain)
    ensures chain[0] in affected
  {
    if |chain| == 1 {
      SeededExactly(b, changes, chain[0]);
    } else {
      var rest := chain[1..];
      assert LeadsToSeed(b, changes, rest) by {
        forall i | 0 <= i < |rest| - 1 ensures UsesPath(b, rest[i], rest[i+1]) { assert UsesPath(b, chain[i+1], chain[i+1+1]); }
      }
      ChainIsAffected(b, changes, affected, rest);
      assert UsesPath(b, chain[0], chain[0+1]);
      DependsExactly(b, chain[0], chain[1]);
      assert chain[0] != chain[1] ==> Dependency(b)(chain[0], chain[1]);
    }
  }

  lemma ChainGrows(b: Bundle, changes: seq<Change>, p: string, q: string)
    requires Reaches(b, changes, q) && UsesPath(b, p, q)
    ensures Reaches(b, changes, p)
  {
    var chain :| LeadsToSeed(b, changes, chain) && chain[0] == q;
    var longer := [p] + chain;
    assert longer[|longer| - 1] == chain[|chain| - 1];
    forall i | 0 <= i < |longer| - 1 ensures UsesPath(b, longer[i], longer[i+1]) {
      if i > 0 { assert longer[i] == chain[i-1] && longer[i+1] == chain[i-1+1]; }
    }
    assert LeadsToSeed(b, changes, longer);
  }

  lemma AffectedReaches(b: Bundle, changes: seq<Change>, affected: set<string>, p: string)
    requires Indexed(b) && IsLeastClosure(Dependency(b), Seeds(b, changes), affected) && p in affected
    ensures Reaches(b, changes, p)
  {
    var reached := set q | q in affected && Reaches(b, changes, q);
    forall q | q in Seeds(b, changes) ensures q in reached {
      SeededExactly(b, changes, q);
      assert LeadsToSeed(b, changes, [q]);
    }
    forall x, q | q in reached && Dependency(b)(x, q) ensures x in reached {
      DependsExactly(b, x, q);
      ChainGrows(b, changes, x, q);
    }
    assert Closed(Dependency(b), reached) && Seeds(b, changes) <= reached;
  }

  lemma NextInChain(b: Bundle, changes: seq<Change>, p: string) returns (q: string)
    requires Reaches(b, changes, p) && !Seeded(b, changes, p)
    ensures UsesPath(b, p, q) && Reaches(b, changes, q)
  {
    var chain :| LeadsToSeed(b, changes, chain) && chain[0] == p;
    q := chain[1];
    assert UsesPath(b, chain[0], chain[0+1]);
    var rest := chain[1..];
    assert LeadsToSeed(b, changes, rest) by {
      forall i | 0 <= i < |rest| - 1 ensures UsesPath(b, rest[i], rest[i+1]) { assert UsesPath(b, chain[i+1], chain[i+1+1]); }
    }
  }

  /** A path is affected exactly when a chain of uses leads from it to a seed. */
  lemma AffectedExactly(b: Bundle, target: Snapshot, docs: seq<Document>, changes: ChangeSet, plan: Plan, p: string)
    requires AcceptedPlan(b, target, docs, changes, plan)
    ensures p in plan.affectedPaths <==> Reaches(b, changes.changes, p)
  {
    ValidIsIndexed(b);
    AcceptedIsIncremental(b, target, docs, changes, plan);
    var affected := Elements(plan.affectedPaths);
    assert p in affected <==> p in plan.affectedPaths;
    if p in affected { AffectedReaches(b, changes.changes, affected, p); }
    if Reaches(b, changes.changes, p) {
      var chain :| LeadsToSeed(b, changes.changes, chain) && chain[0] == p;
      ChainIsAffected(b, changes.changes, affected, chain);
    }
  }

  /** A file that uses an affected file is affected, and what a reusable file uses is reusable. */
  lemma UsersFollow(b: Bundle, target: Snapshot, docs: seq<Document>, changes: ChangeSet, plan: Plan, r: RelationEvidence, f: FileCard, g: FileCard)
    requires AcceptedPlan(b, target, docs, changes, plan) && Uses(b, r, f, g)
    ensures g.path in plan.affectedPaths ==> f.path in plan.affectedPaths
    ensures Reusable(plan, f.path) ==> Reusable(plan, g.path) && (f.path != g.path ==> Unchanged(b, docs, g.path))
  {
    ValidIsIndexed(b);
    assert UsesPath(b, f.path, g.path);
    if g.path in plan.affectedPaths {
      AffectedExactly(b, target, docs, changes, plan, g.path);
      ChainGrows(b, changes.changes, f.path, g.path);
      AffectedExactly(b, target, docs, changes, plan, f.path);
    }
    if Reusable(plan, f.path) && f.path != g.path {
      DependsExactly(b, f.path, g.path);
      AcceptedIsIncremental(b, target, docs, changes, plan);
      DependencyIsReusable(b, docs, changes.changes, plan, Elements(plan.affectedPaths), f.path, g.path);
    }
  }

  /** An affected path that is no seed uses another affected path. */
  lemma AffectedForAReason(b: Bundle, target: Snapshot, docs: seq<Document>, changes: ChangeSet, plan: Plan, p: string)
    requires AcceptedPlan(b, target, docs, changes, plan) && p in plan.affectedPaths && !Seeded(b, changes.changes, p)
    ensures exists q :: UsesPath(b, p, q) && q in plan.affectedPaths
  {
    AffectedExactly(b, target, docs, changes, plan, p);
    var q := NextInChain(b, changes.changes, p);
    AffectedExactly(b, target, docs, changes, plan, q);
  }

  // ------------------------------------------------------------------ reasons

  /** Why a path is affected, read off the snapshots and the change set. */
  ghost function WhyAffected(b: Bundle, target: Snapshot, changes: seq<Change>, p: string): string {
    if b.snapshot.configurationHash != target.configurationHash then "configuration_changed"
    else if b.snapshot.adapterSetHash != target.adapterSetHash then "adapter_changed"
    else if exists c :: c in changes && ((c.kind == "deleted" && c.path == p) || (c.kind == "renamed" && c.fromPath == Some(p))) then "deleted"
    else if Named(changes, p) then "source_changed"
    else "dependency_changed"
  }

  lemma WhyIs(b: Bundle, target: Snapshot, docs: seq<Document>, changes: seq<Change>, p: string)
    requires CoverageOk(b, docs, changes)
    ensures ReasonFor(b, target, changes, p) == WhyAffected(b, target, changes, p)
  {
    NamedIsMentioned(changes, p);
    forall c | c in changes && c.fromPath.Some? ensures c.kind == "renamed" { assert ChangeFits(b, docs, c); }
    if Vanished(changes, p) { VanishedMentioned(changes, p); }
  }

  /** The entries of an invalidation list that concern file `f`. */
  ghost predicate Concerns(b: Bundle, f: FileCard, reason: string, x: Invalidated) {
    || x == Invalidated(Entity(f.fileId), Some(f.lineageId), reason, f.sourceHash)
    || (exists s :: s in b.symbols && s.fileId == f.fileId && x == Invalidated(Entity(s.symbolId), Some(s.lineageId), reason, ""))
    || (exists r :: r in b.relations && r.sourceFileId == f.fileId && x == Invalidated(Relation(r.relationId), None, reason, ""))
  }

  lemma FileEntryConcerns(b: Bundle, reason: string -> string, paths: set<string>, x: Invalidated)
    requires x in FileEntries(b, reason, paths)
    ensures exists f :: f in b.files && f.path in paths && Concerns(b, f, reason(f.path), x)
  {
    MapMember(FileEntry(reason), Filter(FileIn(paths), b.files), x);
    var f :| f in Filter(FileIn(paths), b.files) && FileEntry(reason)(f) == x;
    FilterMember(FileIn(paths), b.files, f);
    assert Concerns(b, f, reason(f.path), x);
  }

  lemma SymbolEntryConcerns(b: Bundle, reason: string -> string, paths: set<string>, x: Invalidated)
    requires Indexed(b) && x in SymbolEntries(b, reason, paths)
    ensures exists f :: f in b.files && f.path in paths && Concerns(b, f, reason(f.path), x)
  {
    MapMember(SymbolEntry(b, reason), Filter(SymbolIn(b, paths), b.symbols), x);
    var s :| s in Filter(SymbolIn(b, paths), b.symbols) && SymbolEntry(b, reason)(s) == x;
    FilterMember(SymbolIn(b, paths), b.symbols, s);
    var f :| f in b.files && f.fileId == s.fileId;
    FileByIdOf(b.files, f);
    assert Concerns(b, f, reason(f.path), x);
  }

  lemma RelationEntryConcerns(b: Bundle, reason: string -> string, paths: set<string>, x: Invalidated)
    requires Indexed(b) && x in RelationEntries(b, reason, paths)
    ensures exists f :: f in b.files && f.path in paths && Concerns(b, f, reason(f.path), x)
  {
    MapMember(RelationEntry(b, reason), Filter(RelationIn(b, paths), b.relations), x);
    var r :| r in Filter(RelationIn(b, paths), b.relations) && RelationEntry(b, reason)(r) == x;
    FilterMember(RelationIn(b, paths), b.relations, r);
    var f :| f in b.files && f.fileId == r.sourceFileId;
    FileByIdOf(b.files, f);
    assert Concerns(b, f, reason(f.path), x);
  }

  /** `x` concerns a file of an affected path, for the reason the change set gives. */
  ghost predicate Explained(b: Bundle, target: Snapshot, changes: seq<Change>, plan: Plan, x: Invalidated) {
    exists f :: f in b.files && f.path in plan.affectedPaths && Concerns(b, f, WhyAffected(b, target, changes, f.path), x)
  }

  lemma PlanExplained(b: Bundle, target: Snapshot, docs: seq<Document>, changes: seq<Change>, plan: Plan, affected: set<string>,
                      reason: string -> string, x: Invalidated)
    requires Indexed(b) && CoverageOk(b, docs, changes) && Elements(plan.affectedPaths) == affected
    requires multiset(plan.invalidations) == multiset(EntriesIn(b, reason, affected)) && x in plan.invalidations
    requires forall p :: p in affected ==> reason(p) == ReasonFor(b, target, changes, p)
    ensures Explained(b, target, changes, plan, x)
  {
    MemberPermutes(plan.invalidations, EntriesIn(b, reason, affected), x);
    EntryConcerns(b, reason, affected, x);
    var f :| f in b.files && f.path in affected && Concerns(b, f, reason(f.path), x);
    WhyIs(b, target, docs, changes, f.path);
    assert f.path in plan.affectedPaths;
  }

  /** Every invalidation carries the identifiers of a card in an affected file and
      the reason the change set gives. */
  lemma InvalidationsSay(b: Bundle, target: Snapshot, docs: seq<Document>, changes: ChangeSet, plan: Plan, x: Invalidated)
    requires ReturnedPlan(b, target, docs, changes, plan) && x in plan.invalidations
    ensures Explained(b, target, changes.changes, plan, x)
  {
    ValidIsIndexed(b);
    var affected, reason :| PlanFor(b, target, docs, changes.changes, plan, affected, reason);
    PlanExplained(b, target, docs, changes.changes, plan, affected, reason, x);
  }

  /** A full reindex is exactly a changed configuration or adapter set, and then everything is affected. */
  lemma FullReindexExactly(b: Bundle, target: Snapshot, docs: seq<Document>, changes: ChangeSet, plan: Plan)
    requires ReturnedPlan(b, target, docs, changes, plan)
    ensures plan.fullReindex <==>
      b.snapshot.configurationHash != target.configurationHash || b.snapshot.adapterSetHash != target.adapterSetHash
    ensures plan.fullReindex ==> forall p :: p in plan.affectedPaths <==>
      (exists f :: f in b.files && f.path == p) || exists d :: d in docs && d.path == p
  {
    var affected, reason :| PlanFor(b, target, docs, changes.changes, plan, affected, reason);
    FullIs(b, target, docs, changes.changes, plan, affected);
  }

  lemma FullIs(b: Bundle, target: Snapshot, docs: seq<Document>, changes: seq<Change>, plan: Plan, affected: set<string>)
    requires plan.fullReindex == NeedsFullReindex(b, target) && AffectedIs(b, target, docs, changes, affected)
    requires Elements(plan.affectedPaths) == affected
    ensures plan.fullReindex <==>
      b.snapshot.configurationHash != target.configurationHash || b.snapshot.adapterSetHash != target.adapterSetHash
    ensures plan.fullReindex ==> forall p :: p in plan.affectedPaths <==>
      (exists f :: f in b.files && f.path == p) || exists d :: d in docs && d.path == p
  {
    assert forall p :: p in affected <==> p in plan.affectedPaths;
  }

  lemma EntryConcerns(b: Bundle, reason: string -> string, paths: set<string>, x: Invalidated)
    requires Indexed(b) && x in EntriesIn(b, reason, paths)
    ensures exists f :: f in b.files && f.path in paths && Concerns(b, f, reason(f.path), x)
  {
    if x in FileEntries(b, reason, paths) {
      FileEntryConcerns(b, reason, paths, x);
    } else if x in SymbolEntries(b, reason, paths) {
      SymbolEntryConcerns(b, reason, paths, x);
    } else {
      RelationEntryConcerns(b, reason, paths, x);
    }
  }

  // ---------------------------------------------------------------- coverage

  ghost predicate InFiles(b: Bundle, p: string) { exists f :: f in b.files && f.path == p }
  ghost predicate InDocs(docs: seq<Document>, p: string) { exists d :: d in docs && d.path == p }

  predicate NamedBy(c: Change, p: string) { c.path == p || (c.kind == "renamed" && c.fromPath == Some(p)) }

  /** A rename frees the old path and fills the new one. */
  ghost predicate RenameTells(b: Bundle, docs: seq<Document>, c: Change) {
    && c.fromPath.Some? && NormalizedPath(c.fromPath.value) && c.fromPath.value != c.path
    && InFiles(b, c.fromPath.value) && !InDocs(docs, c.fromPath.value) && !InFiles(b, c.path) && InDocs(docs, c.path)
  }

  /** A change says of its paths what the baseline and the target show. */
  ghost predicate ChangeTells(b: Bundle, docs: seq<Document>, c: Change) {
    && NormalizedPath(c.path)
    && (|| (c.kind == "added" && c.fromPath.None? && !InFiles(b, c.path) && InDocs(docs, c.path))
        || (c.kind == "modified" && c.fromPath.None? && InFiles(b, c.path) && InDocs(docs, c.path))
        || (c.kind == "deleted" && c.fromPath.None? && InFiles(b, c.path) && !InDocs(docs, c.path))
        || (c.kind == "renamed" && RenameTells(b, docs, c)))
  }

  /** The two sides differ at a path: a file without document, a document without file, or other bytes. */
  ghost predicate Differs(b: Bundle, docs: seq<Document>, p: string) {
    || InFiles(b, p) != InDocs(docs, p)
    || exists f, d :: f in b.files && d in docs && f.path == p && d.path == p && f.sourceHash != d.sourceHash
  }

  /** No path is named by two changes. */
  ghost predicate NamedOnce(changes: seq<Change>) {
    forall i, j, p :: 0 <= i < j < |changes| && NamedBy(changes[i], p) ==> !NamedBy(changes[j], p)
  }

  ghost predicate MovesApart(changes: seq<Change>) { forall c :: c in changes && c.kind == "renamed" ==> c.fromPath != Some(c.path) }

  lemma ChangeTellsIs(b: Bundle, docs: seq<Document>, c: Change)
    ensures ChangeFits(b, docs, c) <==> ChangeTells(b, docs, c)
  {
    FileAtMember(b.files, c.path);
    if c.fromPath.Some? { FileAtMember(b.files, c.fromPath.value); }
  }

  lemma DiffersIs(b: Bundle, docs: seq<Document>, p: string)
    requires DistinctBy(b.files, PathOf) && DistinctPaths(docs)
    ensures Differs(b, docs, p) <==> p in AllPaths(b) + DocPaths(docs) && Changed(b, docs, p)
  {
    FileAtMember(b.files, p);
    if HasDoc(docs, p) { DocAtFound(docs, p); }
    if f, d :| f in b.files && d in docs && f.path == p && d.path == p && f.sourceHash != d.sourceHash {
      DocAtUnique(docs, d);
      PathTells(b.files, f, FileAt(b.files, p).value);
    }
  }

  lemma NoRepeatsJoin(a: seq<string>, b: seq<string>)
    ensures NoRepeats(a + b) <==> NoRepeats(a) && NoRepeats(b) && forall p :: p in a ==> p !in b
  {
    var s := a + b;
    if NoRepeats(s) {
      forall i, j | 0 <= i < j < |a| ensures a[i] != a[j] { assert s[i] != s[j]; }
      forall i, j | 0 <= i < j < |b| ensures b[i] != b[j] { assert s[|a| + i] != s[|a| + j]; }
      forall i, j | 0 <= i < |a| && 0 <= j < |b| ensures a[i] != b[j] { assert s[i] != s[|a| + j]; }
    }
    if NoRepeats(a) && NoRepeats(b) && forall p :: p in a ==> p !in b {
      forall i, j | 0 <= i < j < |s| ensures s[i] != s[j] {
        assert (i < |a| ==> s[i] in a) && (j >= |a| ==> s[j] in b);
      }
    }
  }

  lemma FirstNamedOnce(changes: seq<Change>)
    requires changes != []
    ensures NamedOnce(changes) <==> NamedOnce(changes[1..]) && forall p :: NamedBy(changes[0], p) ==> !Named(changes[1..], p)
  {
    var rest := changes[1..];
    if NamedOnce(changes) {
      forall i, j, p | 0 <= i < j < |rest| && NamedBy(rest[i], p) ensures !NamedBy(rest[j], p) { assert NamedBy(changes[i+1], p); }
      forall p | NamedBy(changes[0], p) ensures !Named(rest, p) {
        forall c | c in rest ensures !NamedBy(c, p) { var j :| 0 <= j < |rest| && rest[j] == c; assert changes[j+1] == c; }
      }
    }
    if NamedOnce(rest) && forall p :: NamedBy(changes[0], p) ==> !Named(rest, p) {
      forall i, j, p | 0 <= i < j < |changes| && NamedBy(changes[i], p) ensures !NamedBy(changes[j], p) {
        assert changes[j] == rest[j-1];
        if i == 0 { assert rest[j-1] in rest; } else { assert NamedBy(rest[i-1], p); }
      }
    }
  }

  lemma MentionedApart(c: Change)
    ensures NoRepeats(MentionsOf(c)) <==> !(c.kind == "renamed" && c.fromPath == Some(c.path))
  {
    var s := MentionsOf(c);
    if c.kind == "renamed" && c.fromPath.Some? { assert s[0] == c.path && s[1] == c.fromPath.value; }
  }

  lemma {:induction false} NamedOnceIs(changes: seq<Change>)
    ensures NoRepeats(Mentions(changes)) <==> NamedOnce(changes) && MovesApart(changes)
  {
    if changes != [] {
      var first, rest := MentionsOf(changes[0]), changes[1..];
      NamedOnceIs(rest);
      NoRepeatsJoin(first, Mentions(rest));
      FirstNamedOnce(changes);
      forall p ensures p in first <==> NamedBy(changes[0], p) {}
      MentionedApart(changes[0]);
      forall p ensures Named(rest, p) <==> p in Mentions(rest) { NamedIsMentioned(rest, p); }
      assert changes == [changes[0]] + rest;
    }
  }

  /** The change sets accepted for a baseline and a target: each change says what both
      sides show, no path is named twice, and no difference is left out. */
  lemma CoverageExactly(b: Bundle, docs: seq<Document>, changes: seq<Change>)
    requires DistinctBy(b.files, PathOf) && DistinctPaths(docs)
    ensures CoverageOk(b, docs, changes) <==>
      && (forall c :: c in changes ==> ChangeTells(b, docs, c)) && NamedOnce(changes)
      && (forall p :: Differs(b, docs, p) ==> Named(changes, p))
  {
    forall c ensures ChangeFits(b, docs, c) <==> ChangeTells(b, docs, c) { ChangeTellsIs(b, docs, c); }
    NamedOnceIs(changes);
    forall p ensures Differs(b, docs, p) <==> p in AllPaths(b) + DocPaths(docs) && Changed(b, docs, p) { DiffersIs(b, docs, p); }
    forall p ensures Named(changes, p) <==> p in Mentions(changes) { NamedIsMentioned(changes, p); }
  }
}
