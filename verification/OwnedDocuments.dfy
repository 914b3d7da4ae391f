/** An adapter the planner lets a run skip would have read the very documents it
    read for the baseline. */
module OwnedDocuments {
  import opened Identity
  import opened Seqs
  import opened Cards
  import opened Bundles
  import opened Normalization
  import opened Reuse
  import opened Invalidation
  import opened Planning
  import opened Selection

  /** What an adapter reads of a document. */
  datatype Source = Source(path: string, language: string, body: string)

  function SourceOf(d: Document): Source { Source(d.path, d.language, d.body) }

  predicate Reads(configures: Configures, a: AdapterDescriptor, d: Document) {
    Owns(a, d.language) || configures(a.name, d.path)
  }

  /** Everything an adapter's output may depend on: its own files and its configuration files. */
  function ViewOf(configures: Configures, a: AdapterDescriptor, docs: seq<Document>): set<Source> {
    set d | d in docs && Reads(configures, a, d) :: SourceOf(d)
  }

  /** Documents as read from a commit: language is told by the path, and the hash is of the bytes. */
  ghost predicate Loaded(language: string -> string, docs: seq<Document>) {
    DistinctPaths(docs)
    && forall d :: d in docs ==> d.language == language(d.path) && d.sourceHash == "sha256:" + Digest(d.body)
  }

  lemma SameHashSameSource(language: string -> string, a: seq<Document>, b: seq<Document>, x: Document, y: Document)
    requires Loaded(language, a) && Loaded(language, b) && x in a && y in b
    requires x.path == y.path && x.sourceHash == y.sourceHash
    ensures SourceOf(x) == SourceOf(y)
  {
    assert x.sourceHash[7..] == Digest(x.body) && y.sourceHash[7..] == Digest(y.body);
    DigestInjective(x.body, y.body);
  }

  predicate Pictures(f: FileCard, d: Document) {
    f.path == d.path && f.language == d.language && f.sourceHash == d.sourceHash
  }

  /** A file list that stands for these documents, in any order. */
  ghost predicate Represents(files: seq<FileCard>, docs: seq<Document>) {
    && DistinctBy(files, PathOf)
    && (forall f :: f in files ==> DocAt(docs, f.path) in docs && Pictures(f, DocAt(docs, f.path)))
    && (forall d :: d in docs ==> FileAt(files, d.path).Some? && Pictures(FileAt(files, d.path).value, d))
  }

  lemma ReusableUnchanged(b: Bundle, docs: seq<Document>, changes: seq<Change>, plan: Plan, affected: set<string>, p: string)
    requires Incremental(b, docs, changes, plan, affected) && Reusable(plan, p)
    ensures Unchanged(b, docs, p)
  {
    var c :| c in plan.reusableFiles && c.path == p;
    var e :| e in docs && CandidateFor(b, affected, e) == Some(c);
    DocAtUnique(docs, e);
  }

  lemma {:induction false} MentionIsTouched(configures: Configures, a: AdapterDescriptor, changes: seq<Change>, p: string)
    requires p in Mentions(changes) && configures(a.name, p)
    ensures ConfigurationTouched(configures, a, changes)
  {
    if p in MentionsOf(changes[0]) {
      assert changes[0] in changes;
    } else {
      MentionIsTouched(configures, a, changes[1..], p);
      var c :| c in changes[1..] && (configures(a.name, c.path) || (c.fromPath.Some? && configures(a.name, c.fromPath.value)));
      assert c in changes;
    }
  }

  lemma UnmentionedUnchanged(b: Bundle, docs: seq<Document>, changes: seq<Change>, p: string)
    requires CoverageOk(b, docs, changes) && p !in Mentions(changes) && (Had(b, p) || HasDoc(docs, p))
    ensures Unchanged(b, docs, p)
  {
    FileAtMember(b.files, p);
    assert p in AllPaths(b) + DocPaths(docs);
  }

  lemma HadWhenHeld(b: Bundle, f: FileCard)
    requires f in b.files
    ensures Had(b, f.path)
  {
    FileAtMember(b.files, f.path);
  }

  ghost predicate Skippable(configures: Configures, a: AdapterDescriptor, b: Bundle, docs: seq<Document>,
                            changes: seq<Change>, plan: Plan, affected: set<string>) {
    Incremental(b, docs, changes, plan, affected) && Selectable(configures, a, b, plan, changes, docs)
  }

  lemma OwnedUnchanged(configures: Configures, a: AdapterDescriptor, b: Bundle, docs: seq<Document>,
                       changes: seq<Change>, plan: Plan, affected: set<string>, p: string)
    requires Skippable(configures, a, b, docs, changes, plan, affected) && p in OwnedPaths(a, docs)
    ensures Unchanged(b, docs, p)
  {
    assert p in ReusablePaths(plan);
    ReusableUnchanged(b, docs, changes, plan, affected, p);
  }

  lemma ConfigurationUnchanged(configures: Configures, a: AdapterDescriptor, b: Bundle, docs: seq<Document>,
                               changes: seq<Change>, plan: Plan, affected: set<string>, p: string)
    requires Skippable(configures, a, b, docs, changes, plan, affected)
    requires configures(a.name, p) && (Had(b, p) || HasDoc(docs, p))
    ensures Unchanged(b, docs, p)
  {
    if p in Mentions(changes) { MentionIsTouched(configures, a, changes, p); }
    UnmentionedUnchanged(b, docs, changes, p);
  }

  /** Every document the adapter reads in the target is unchanged. */
  lemma TargetReadUnchanged(configures: Configures, a: AdapterDescriptor, b: Bundle, docs: seq<Document>,
                            changes: seq<Change>, plan: Plan, affected: set<string>, d: Document)
    requires Skippable(configures, a, b, docs, changes, plan, affected) && d in docs && Reads(configures, a, d)
    ensures Unchanged(b, docs, d.path)
  {
    if Owns(a, d.language) {
      OwnedUnchanged(configures, a, b, docs, changes, plan, affected, d.path);
    } else {
      ConfigurationUnchanged(configures, a, b, docs, changes, plan, affected, d.path);
    }
  }

  /** So is every document it read for the baseline. */
  lemma BaselineReadUnchanged(configures: Configures, a: AdapterDescriptor, b: Bundle, docs: seq<Document>,
                              changes: seq<Change>, plan: Plan, affected: set<string>, f: FileCard)
    requires Skippable(configures, a, b, docs, changes, plan, affected)
    requires f in b.files && (Owns(a, f.language) || configures(a.name, f.path))
    ensures Unchanged(b, docs, f.path)
  {
    HadWhenHeld(b, f);
    if Owns(a, f.language) {
      OwnedUnchanged(configures, a, b, docs, changes, plan, affected, f.path);
    } else {
      ConfigurationUnchanged(configures, a, b, docs, changes, plan, affected, f.path);
    }
  }

  /** An unchanged path reads the same on both sides. */
  lemma SameSourceAt(language: string -> string, b: Bundle, before: seq<Document>, after: seq<Document>, x: Document)
    requires Loaded(language, before) && Loaded(language, after) && Represents(b.files, before)
    requires x in before && Unchanged(b, after, x.path)
    ensures DocAt(after, x.path) in after && SourceOf(DocAt(after, x.path)) == SourceOf(x)
  {
    DocAtFound(after, x.path);
    SameHashSameSource(language, before, after, x, DocAt(after, x.path));
  }

  lemma DocumentBehind(b: Bundle, before: seq<Document>, after: seq<Document>, p: string)
    requires Represents(b.files, before) && Unchanged(b, after, p)
    ensures DocAt(before, p) in before && DocAt(before, p).path == p
  {
    FileAtMember(b.files, p);
  }

  lemma BaselineSeen(configures: Configures, language: string -> string, a: AdapterDescriptor, b: Bundle,
                     before: seq<Document>, after: seq<Document>, changes: seq<Change>, plan: Plan, affected: set<string>,
                     x: Document)
    requires Loaded(language, before) && Loaded(language, after) && Represents(b.files, before)
    requires Skippable(configures, a, b, after, changes, plan, affected) && x in before && Reads(configures, a, x)
    ensures SourceOf(x) in ViewOf(configures, a, after)
  {
    assert FileAt(b.files, x.path).Some? && Pictures(FileAt(b.files, x.path).value, x);
    FileAtMember(b.files, x.path);
    BaselineReadUnchanged(configures, a, b, after, changes, plan, affected, FileAt(b.files, x.path).value);
    SameSourceAt(language, b, before, after, x);
    var y := DocAt(after, x.path);
    assert Reads(configures, a, y) && y in after;
  }

  lemma TargetSeen(configures: Configures, language: string -> string, a: AdapterDescriptor, b: Bundle,
                   before: seq<Document>, after: seq<Document>, changes: seq<Change>, plan: Plan, affected: set<string>,
                   y: Document)
    requires Loaded(language, before) && Loaded(language, after) && Represents(b.files, before)
    requires Skippable(configures, a, b, after, changes, plan, affected) && y in after && Reads(configures, a, y)
    ensures SourceOf(y) in ViewOf(configures, a, before)
  {
    TargetReadUnchanged(configures, a, b, after, changes, plan, affected, y);
    DocumentBehind(b, before, after, y.path);
    var x := DocAt(before, y.path);
    SameSourceAt(language, b, before, after, x);
    DocAtUnique(after, y);
    assert Reads(configures, a, x) && x in before;
  }

  /** A skipped adapter would have read exactly what it read for the baseline. */
  lemma ViewsAgree(configures: Configures, language: string -> string, a: AdapterDescriptor, b: Bundle,
                   before: seq<Document>, after: seq<Document>, changes: seq<Change>, plan: Plan, affected: set<string>)
    requires Loaded(language, before) && Loaded(language, after) && Represents(b.files, before)
    requires Skippable(configures, a, b, after, changes, plan, affected)
    ensures ViewOf(configures, a, before) == ViewOf(configures, a, after)
  {
    forall x | x in before && Reads(configures, a, x) ensures SourceOf(x) in ViewOf(configures, a, after) {
      BaselineSeen(configures, language, a, b, before, after, changes, plan, affected, x);
    }
    forall y | y in after && Reads(configures, a, y) ensures SourceOf(y) in ViewOf(configures, a, before) {
      TargetSeen(configures, language, a, b, before, after, changes, plan, affected, y);
    }
    SubViews(configures, a, before, after);
    SubViews(configures, a, after, before);
  }

  lemma SubViews(configures: Configures, a: AdapterDescriptor, before: seq<Document>, after: seq<Document>)
    requires forall x :: x in before && Reads(configures, a, x) ==> SourceOf(x) in ViewOf(configures, a, after)
    ensures ViewOf(configures, a, before) <= ViewOf(configures, a, after)
  {}

  /** A target document of a skipped adapter was already there for the baseline. */
  lemma OwnedWasThere(configures: Configures, a: AdapterDescriptor, b: Bundle, before: seq<Document>, after: seq<Document>,
                      changes: seq<Change>, plan: Plan, affected: set<string>, d: Document)
    requires Represents(b.files, before) && Skippable(configures, a, b, after, changes, plan, affected)
    requires d in after && Owns(a, d.language)
    ensures HasDoc(before, d.path)
  {
    TargetReadUnchanged(configures, a, b, after, changes, plan, affected, d);
    DocumentBehind(b, before, after, d.path);
  }
}
