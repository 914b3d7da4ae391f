/** `reusableAdapterDescriptors`: which adapters a run may skip. */
module Selection {
  import opened Seqs
  import opened Cards
  import opened Bundles
  import opened Normalization
  import opened Reuse
  import opened Invalidation
  import opened Planning

  /** `configures(name, path)` is `adapterConfigurationPath`. */
  type Configures = (string, string) -> bool

  predicate ConfigurationTouched(configures: Configures, d: AdapterDescriptor, changes: seq<Change>) {
    exists c :: c in changes
      && (configures(d.name, c.path) || (c.fromPath.Some? && configures(d.name, c.fromPath.value)))
  }

  function OwnedPaths(d: AdapterDescriptor, docs: seq<Document>): set<string> {
    set x | x in docs && Owns(d, x.language) :: x.path
  }

  function OwnedFile(d: AdapterDescriptor): FileCard -> bool { (f: FileCard) => Owns(d, f.language) }

  function ReusablePaths(plan: Plan): set<string> { set c | c in plan.reusableFiles :: c.path }

  ghost predicate Selectable(configures: Configures, d: AdapterDescriptor, baseline: Bundle, plan: Plan,
                             changes: seq<Change>, docs: seq<Document>) {
    && (exists e :: e in baseline.snapshot.adapters && AdapterKey(e) == AdapterKey(d))
    && !ConfigurationTouched(configures, d, changes)
    && OwnedPaths(d, docs) <= ReusablePaths(plan)
    && (forall f :: f in baseline.files && Owns(d, f.language) ==> f.path in OwnedPaths(d, docs))
    && OwnedPaths(d, docs) != {}
    && |Filter(OwnedFile(d), baseline.files)| == |OwnedPaths(d, docs)|
  }

  ghost function Selector(configures: Configures, baseline: Bundle, plan: Plan, changes: seq<Change>,
                          docs: seq<Document>): AdapterDescriptor -> bool {
    (d: AdapterDescriptor) => Selectable(configures, d, baseline, plan, changes, docs)
  }

  ghost function Selected(configures: Configures, adapters: seq<AdapterDescriptor>, baseline: Bundle, plan: Plan,
                          changes: seq<Change>, docs: seq<Document>): seq<AdapterDescriptor> {
    if plan.fullReindex then [] else Filter(Selector(configures, baseline, plan, changes, docs), adapters)
  }

  /** The loop over target documents. */
  method OwnedTargets(d: AdapterDescriptor, docs: seq<Document>, reusable: set<string>)
    returns (paths: set<string>, all: bool)
    ensures paths == OwnedPaths(d, docs) && (all <==> paths <= reusable)
  {
    paths, all := {}, true;
    for i := 0 to |docs|
      invariant paths == OwnedPaths(d, docs[..i]) && (all <==> paths <= reusable)
    {
      assert docs[..i+1] == docs[..i] + [docs[i]];
      if Owns(d, docs[i].language) {
        paths := paths + {docs[i].path};
        if docs[i].path !in reusable { all := false; }
      }
    }
    assert docs[..|docs|] == docs;
  }

  /** The loop over baseline files. */
  method OwnedBaseline(d: AdapterDescriptor, files: seq<FileCard>, paths: set<string>) returns (count: nat, all: bool)
    ensures count == |Filter(OwnedFile(d), files)|
    ensures all <==> forall f :: f in files && Owns(d, f.language) ==> f.path in paths
  {
    count, all := 0, true;
    for i := 0 to |files|
      invariant count == |Filter(OwnedFile(d), files[..i])|
      invariant all <==> forall k :: 0 <= k < i && Owns(d, files[k].language) ==> files[k].path in paths
    {
      assert files[..i+1] == files[..i] + [files[i]];
      FilterAppend(OwnedFile(d), files[..i], [files[i]]);
      if Owns(d, files[i].language) {
        count := count + 1;
        if files[i].path !in paths { all := false; }
      }
    }
    assert files[..|files|] == files;
    assert forall k :: 0 <= k < |files| ==> files[k] in files;
  }

  method MaySkip(configures: Configures, d: AdapterDescriptor, baseline: Bundle, plan: Plan, changes: seq<Change>,
                 docs: seq<Document>) returns (skip: bool)
    ensures skip <==> Selectable(configures, d, baseline, plan, changes, docs)
  {
    var known := (exists e :: e in baseline.snapshot.adapters && AdapterKey(e) == AdapterKey(d));
    skip := false;
    if known && !ConfigurationTouched(configures, d, changes) {
      var paths, reusable := OwnedTargets(d, docs, ReusablePaths(plan));
      var count, present := OwnedBaseline(d, baseline.files, paths);
      skip := reusable && present && |paths| > 0 && count == |paths|;
    }
  }

  method ReusableAdapterDescriptors(configures: Configures, adapters: seq<AdapterDescriptor>, baseline: Bundle,
                                    plan: Plan, changes: seq<Change>, docs: seq<Document>)
    returns (descs: seq<AdapterDescriptor>)
    ensures descs == Selected(configures, adapters, baseline, plan, changes, docs)
  {
    descs := [];
    if !plan.fullReindex {
      ghost var select := Selector(configures, baseline, plan, changes, docs);
      for i := 0 to |adapters|
        invariant descs == Filter(select, adapters[..i])
      {
        assert adapters[..i+1] == adapters[..i] + [adapters[i]];
        FilterAppend(select, adapters[..i], [adapters[i]]);
        var skip := MaySkip(configures, adapters[i], baseline, plan, changes, docs);
        if skip { descs := descs + [adapters[i]]; }
      }
      assert adapters[..|adapters|] == adapters;
    }
  }
}
