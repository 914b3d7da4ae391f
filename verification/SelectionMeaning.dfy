/** Which adapters a run skips, stated on the cards, the documents and the change set alone. */
module SelectionMeaning {
  import opened Seqs
  import opened Cards
  import opened Bundles
  import opened Normalization
  import opened Reuse
  import opened Invalidation
  import opened Planning
  import opened PlanMeaning
  import opened Selection

  /** The languages an adapter reads: its own, and JavaScript for the TypeScript adapter. */
  predicate Reads(d: AdapterDescriptor, language: string) {
    if language == "javascript" then d.name == "javascript" || d.name == "typescript" else d.name == language
  }

  lemma ReadsIs(d: AdapterDescriptor, language: string)
    ensures Reads(d, language) <==> Owns(d, language)
  {}

  /** No change touches the adapter's configuration. */
  ghost predicate Undisturbed(configures: Configures, d: AdapterDescriptor, changes: seq<Change>) {
    forall c :: c in changes ==> !configures(d.name, c.path) && (c.fromPath.Some? ==> !configures(d.name, c.fromPath.value))
  }

  /** A document the adapter reads: untouched by any change, directly or through what
      it uses, and known to the baseline as one of the adapter's files. */
  ghost predicate Settled(b: Bundle, changes: seq<Change>, d: AdapterDescriptor, x: Document) {
    !Reaches(b, changes, x.path) && exists f :: f in b.files && f.path == x.path && Reads(d, f.language)
  }

  /** A baseline file of the adapter that is still there as one of its documents. */
  ghost predicate StillRead(docs: seq<Document>, d: AdapterDescriptor, f: FileCard) {
    exists x :: x in docs && x.path == f.path && Reads(d, x.language)
  }

  /** The adapter would only repeat what the baseline already holds. */
  ghost predicate Skippable(configures: Configures, d: AdapterDescriptor, b: Bundle, changes: seq<Change>, docs: seq<Document>) {
    && KnownTo(b, d) && Undisturbed(configures, d, changes)
    && ReadsSome(d, docs) && AllSettled(b, changes, d, docs) && AllStillRead(b, d, docs)
  }

  /** The baseline was made with this adapter. */
  ghost predicate KnownTo(b: Bundle, d: AdapterDescriptor) { exists e :: e in b.snapshot.adapters && AdapterKey(e) == AdapterKey(d) }

  ghost predicate ReadsSome(d: AdapterDescriptor, docs: seq<Document>) { exists x :: x in docs && Reads(d, x.language) }

  ghost predicate AllSettled(b: Bundle, changes: seq<Change>, d: AdapterDescriptor, docs: seq<Document>) {
    forall x :: x in docs && Reads(d, x.language) ==> Settled(b, changes, d, x)
  }

  ghost predicate AllStillRead(b: Bundle, d: AdapterDescriptor, docs: seq<Document>) {
    forall f :: f in b.files && Reads(d, f.language) ==> StillRead(docs, d, f)
  }

  function OwnedBefore(d: AdapterDescriptor, files: seq<FileCard>): set<string> {
    set f | f in files && Owns(d, f.language) :: f.path
  }

  lemma {:induction false} OwnedCount(d: AdapterDescriptor, files: seq<FileCard>)
    requires DistinctBy(files, PathOf)
    ensures |Filter(OwnedFile(d), files)| == |OwnedBefore(d, files)|
  {
    if files == [] {
      assert OwnedBefore(d, files) == {};
    } else {
      var first, rest := files[0], files[1..];
      assert files == [first] + rest;
      assert DistinctBy(rest, PathOf) by {
        forall i, j | 0 <= i < j < |rest| ensures PathOf(rest[i]) != PathOf(rest[j]) { assert PathOf(files[i+1]) != PathOf(files[j+1]); }
      }
      OwnedCount(d, rest);
      forall f | f in rest ensures f.path != first.path {
        var i :| 0 <= i < |rest| && rest[i] == f;
        assert PathOf(files[0]) != PathOf(files[i+1]);
      }
      assert OwnedBefore(d, files) == OwnedBefore(d, rest) + if Owns(d, first.language) then {first.path} else {};
      assert first.path !in OwnedBefore(d, rest);
    }
  }

  /** The counts agree exactly when no document of the adapter is new. */
  lemma CountsAgree(d: AdapterDescriptor, b: Bundle, docs: seq<Document>)
    requires DistinctBy(b.files, PathOf) && forall f :: f in b.files && Owns(d, f.language) ==> f.path in OwnedPaths(d, docs)
    ensures |Filter(OwnedFile(d), b.files)| == |OwnedPaths(d, docs)| <==> OwnedPaths(d, docs) <= OwnedBefore(d, b.files)
  {
    OwnedCount(d, b.files);
    var before, now := OwnedBefore(d, b.files), OwnedPaths(d, docs);
    assert before <= now;
    if |before| == |now| { NotLarger(before, now); }
    if now <= before { assert now == before; }
  }

  lemma ReusableIs(b: Bundle, target: Snapshot, docs: seq<Document>, changes: ChangeSet, plan: Plan, x: Document)
    requires AcceptedPlan(b, target, docs, changes, plan) && x in docs
    ensures x.path in ReusablePaths(plan) <==> !Reaches(b, changes.changes, x.path)
  {
    AffectedOrReusable(b, target, docs, changes, plan, x);
    AffectedExactly(b, target, docs, changes, plan, x.path);
    assert Reusable(plan, x.path) <==> x.path in ReusablePaths(plan);
  }

  lemma OwnedSettled(b: Bundle, target: Snapshot, docs: seq<Document>, changes: ChangeSet, plan: Plan, d: AdapterDescriptor)
    requires AcceptedPlan(b, target, docs, changes, plan)
    ensures OwnedPaths(d, docs) <= ReusablePaths(plan) && OwnedPaths(d, docs) <= OwnedBefore(d, b.files) <==>
      AllSettled(b, changes.changes, d, docs)
  {
    forall x | x in docs ensures x.path in ReusablePaths(plan) <==> !Reaches(b, changes.changes, x.path) {
      ReusableIs(b, target, docs, changes, plan, x);
    }
    forall l ensures Reads(d, l) <==> Owns(d, l) { ReadsIs(d, l); }
    if OwnedPaths(d, docs) <= ReusablePaths(plan) && OwnedPaths(d, docs) <= OwnedBefore(d, b.files) {
      forall x | x in docs && Reads(d, x.language) ensures Settled(b, changes.changes, d, x) { assert x.path in OwnedPaths(d, docs); }
    }
    if AllSettled(b, changes.changes, d, docs) {
      forall p | p in OwnedPaths(d, docs) ensures p in ReusablePaths(plan) && p in OwnedBefore(d, b.files) {
        var x :| x in docs && Owns(d, x.language) && x.path == p;
        assert Settled(b, changes.changes, d, x);
      }
    }
  }

  lemma StillReadIs(d: AdapterDescriptor, docs: seq<Document>, f: FileCard)
    ensures StillRead(docs, d, f) <==> f.path in OwnedPaths(d, docs)
  {
    forall l ensures Reads(d, l) <==> Owns(d, l) { ReadsIs(d, l); }
  }

  lemma ReadsSomeIs(d: AdapterDescriptor, docs: seq<Document>)
    ensures OwnedPaths(d, docs) != {} <==> ReadsSome(d, docs)
  {
    if x :| x in docs && Reads(d, x.language) {
      ReadsIs(d, x.language);
      assert x.path in OwnedPaths(d, docs);
    }
    if p :| p in OwnedPaths(d, docs) {
      var x :| x in docs && Owns(d, x.language) && x.path == p;
      ReadsIs(d, x.language);
    }
  }

  lemma AllStillReadIs(d: AdapterDescriptor, b: Bundle, docs: seq<Document>)
    ensures AllStillRead(b, d, docs) <==> (forall f :: f in b.files && Owns(d, f.language) ==> f.path in OwnedPaths(d, docs))
  {
    forall f | f in b.files ensures (Reads(d, f.language) <==> Owns(d, f.language)) && (StillRead(docs, d, f) <==> f.path in OwnedPaths(d, docs)) {
      ReadsIs(d, f.language);
      StillReadIs(d, docs, f);
    }
  }

  lemma UndisturbedIs(configures: Configures, d: AdapterDescriptor, changes: seq<Change>)
    ensures Undisturbed(configures, d, changes) <==> !ConfigurationTouched(configures, d, changes)
  {}

  /** The files of the adapter are the same on both sides and none of them is affected. */
  ghost predicate SameFiles(b: Bundle, docs: seq<Document>, plan: Plan, d: AdapterDescriptor) {
    && OwnedPaths(d, docs) <= ReusablePaths(plan)
    && (forall f :: f in b.files && Owns(d, f.language) ==> f.path in OwnedPaths(d, docs))
    && OwnedPaths(d, docs) != {}
    && |Filter(OwnedFile(d), b.files)| == |OwnedPaths(d, docs)|
  }

  lemma SameFilesIs(b: Bundle, docs: seq<Document>, changes: seq<Change>, plan: Plan, d: AdapterDescriptor)
    requires DistinctBy(b.files, PathOf)
    requires OwnedPaths(d, docs) <= ReusablePaths(plan) && OwnedPaths(d, docs) <= OwnedBefore(d, b.files) <==>
      AllSettled(b, changes, d, docs)
    ensures SameFiles(b, docs, plan, d) <==> ReadsSome(d, docs) && AllSettled(b, changes, d, docs) && AllStillRead(b, d, docs)
  {
    ReadsSomeIs(d, docs);
    AllStillReadIs(d, b, docs);
    if AllStillRead(b, d, docs) { CountsAgree(d, b, docs); }
  }

  lemma SelectableParts(configures: Configures, d: AdapterDescriptor, b: Bundle, plan: Plan, changes: seq<Change>, docs: seq<Document>)
    ensures Selectable(configures, d, b, plan, changes, docs) <==>
      KnownTo(b, d) && !ConfigurationTouched(configures, d, changes) && SameFiles(b, docs, plan, d)
  {}

  lemma SelectableIs(configures: Configures, b: Bundle, target: Snapshot, docs: seq<Document>, changes: ChangeSet, plan: Plan,
                     d: AdapterDescriptor)
    requires AcceptedPlan(b, target, docs, changes, plan)
    ensures Selectable(configures, d, b, plan, changes.changes, docs) <==> Skippable(configures, d, b, changes.changes, docs)
  {
    OwnedSettled(b, target, docs, changes, plan, d);
    assert DistinctBy(b.files, PathOf) by { ValidBundlesAreRooted(b); }
    SameFilesIs(b, docs, changes.changes, plan, d);
    UndisturbedIs(configures, d, changes.changes);
    SelectableParts(configures, d, b, plan, changes.changes, docs);
  }

  /** Under an accepted plan, exactly the adapters that would only repeat the baseline are skipped. */
  lemma SelectedExactly(configures: Configures, adapters: seq<AdapterDescriptor>, b: Bundle, target: Snapshot, docs: seq<Document>,
                        changes: ChangeSet, plan: Plan, d: AdapterDescriptor)
    requires AcceptedPlan(b, target, docs, changes, plan)
    ensures d in Selected(configures, adapters, b, plan, changes.changes, docs) <==>
      d in adapters && Skippable(configures, d, b, changes.changes, docs)
  {
    FilterMember(Selector(configures, b, plan, changes.changes, docs), adapters, d);
    SelectableIs(configures, b, target, docs, changes, plan, d);
  }

  /** When nothing changed, every adapter with something to read is skipped. */
  lemma NothingChanged(configures: Configures, b: Bundle, target: Snapshot, docs: seq<Document>, changes: ChangeSet, plan: Plan,
                       d: AdapterDescriptor)
    requires AcceptedPlan(b, target, docs, changes, plan) && changes.changes == []
    requires forall x :: x in docs ==> exists f :: f in b.files && f.path == x.path && f.language == x.language
    requires forall f :: f in b.files ==> exists x :: x in docs && x.path == f.path && x.language == f.language
    requires d in b.snapshot.adapters && ReadsSome(d, docs)
    ensures d in Selected(configures, b.snapshot.adapters, b, plan, [], docs)
  {
    UnchangedSettles(b, docs, d);
    UnchangedStays(b, docs, d);
    UnchangedIsSkippable(configures, b, docs, d);
    SelectedExactly(configures, b.snapshot.adapters, b, target, docs, changes, plan, d);
  }

  lemma UnchangedIsSkippable(configures: Configures, b: Bundle, docs: seq<Document>, d: AdapterDescriptor)
    requires AllSettled(b, [], d, docs) && AllStillRead(b, d, docs) && d in b.snapshot.adapters && ReadsSome(d, docs)
    ensures Skippable(configures, d, b, [], docs)
  {}

  lemma UnchangedSettles(b: Bundle, docs: seq<Document>, d: AdapterDescriptor)
    requires forall x :: x in docs ==> exists f :: f in b.files && f.path == x.path && f.language == x.language
    ensures AllSettled(b, [], d, docs)
  {
    forall x | x in docs && Reads(d, x.language) ensures Settled(b, [], d, x) {
      NothingReaches(b, x.path);
      var f :| f in b.files && f.path == x.path && f.language == x.language;
    }
  }

  lemma UnchangedStays(b: Bundle, docs: seq<Document>, d: AdapterDescriptor)
    requires forall f :: f in b.files ==> exists x :: x in docs && x.path == f.path && x.language == f.language
    ensures AllStillRead(b, d, docs)
  {
    forall f | f in b.files && Reads(d, f.language) ensures StillRead(docs, d, f) {
      var x :| x in docs && x.path == f.path && x.language == f.language;
    }
  }

  lemma NothingReaches(b: Bundle, p: string)
    ensures !Reaches(b, [], p)
  {
    forall chain ensures !LeadsToSeed(b, [], chain) {}
  }
}
