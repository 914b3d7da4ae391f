/** Matching the versions of one lineage across two bundles: `compareLineages`. */
module Deltas {
  import opened Ordering
  import opened Seqs
  import opened Cards

  datatype Version = Version(id: string, fingerprint: string)

  datatype Delta = Delta(ordinal: int, change: string, kind: string, id: string, previous: Option<string>)

  predicate VersionLess(a: Version, b: Version) {
    if a.fingerprint == b.fingerprint then Less(a.id, b.id) else Less(a.fingerprint, b.fingerprint)
  }

  predicate IdLess(a: Version, b: Version) { Less(a.id, b.id) }

  lemma VersionOrders()
    ensures WeakOrder(VersionLess) && WeakOrder(IdLess)
  {
    StringOrder();
  }

  // ------------------------------------------------------------------ merge

  datatype Matched = Matched(reused: seq<(Version, Version)>, left: seq<Version>, right: seq<Version>)

  /** Match equal fingerprints of two sorted lists; what is over stays on its side. */
  function Merge(before: seq<Version>, after: seq<Version>): Matched {
    if before == [] || after == [] then Matched([], before, after)
    else if before[0].fingerprint == after[0].fingerprint then
      var m := Merge(before[1..], after[1..]);
      m.(reused := [(before[0], after[0])] + m.reused)
    else if Less(before[0].fingerprint, after[0].fingerprint) then
      var m := Merge(before[1..], after);
      m.(left := [before[0]] + m.left)
    else
      var m := Merge(before, after[1..]);
      m.(right := [after[0]] + m.right)
  }

  function Join(a: Matched, b: Matched): Matched { Matched(a.reused + b.reused, a.left + b.left, a.right + b.right) }

  lemma JoinReused(m: Matched, p: (Version, Version), rest: Matched)
    ensures Join(m, rest.(reused := [p] + rest.reused)) == Join(m.(reused := m.reused + [p]), rest)
  {}

  lemma JoinLeft(m: Matched, v: Version, rest: Matched)
    ensures Join(m, rest.(left := [v] + rest.left)) == Join(m.(left := m.left + [v]), rest)
  {}

  lemma JoinRight(m: Matched, w: Version, rest: Matched)
    ensures Join(m, rest.(right := [w] + rest.right)) == Join(m.(right := m.right + [w]), rest)
  {}

  /** The loop that consumes both lists. */
  method MergeVersions(versions: seq<Version>, others: seq<Version>) returns (m: Matched)
    ensures m == Merge(versions, others)
  {
    var before, after := versions, others;
    m := Matched([], [], []);
    while |before| > 0 && |after| > 0
      invariant Join(m, Merge(before, after)) == Merge(versions, others)
      decreases |before| + |after|
    {
      if before[0].fingerprint == after[0].fingerprint {
        JoinReused(m, (before[0], after[0]), Merge(before[1..], after[1..]));
        m := m.(reused := m.reused + [(before[0], after[0])]);
        before, after := before[1..], after[1..];
      } else if Less(before[0].fingerprint, after[0].fingerprint) {
        JoinLeft(m, before[0], Merge(before[1..], after));
        m := m.(left := m.left + [before[0]]);
        before := before[1..];
      } else {
        JoinRight(m, after[0], Merge(before, after[1..]));
        m := m.(right := m.right + [after[0]]);
        after := after[1..];
      }
    }
    m := m.(left := m.left + before, right := m.right + after);
  }

  function First(p: (Version, Version)): Version { p.0 }
  function Second(p: (Version, Version)): Version { p.1 }

  /** Nothing is lost: each version is matched once or left over once. */
  ghost predicate Splits(before: seq<Version>, after: seq<Version>, m: Matched) {
    && multiset(before) == multiset(Map(First, m.reused)) + multiset(m.left)
    && multiset(after) == multiset(Map(Second, m.reused)) + multiset(m.right)
    && forall p :: p in m.reused ==> p.0.fingerprint == p.1.fingerprint
  }

  lemma SplitMatch(before: seq<Version>, after: seq<Version>, m: Matched, v: Version, w: Version)
    requires Splits(before, after, m) && v.fingerprint == w.fingerprint
    ensures Splits([v] + before, [w] + after, m.(reused := [(v, w)] + m.reused))
  {
    MapAppend(First, [(v, w)], m.reused);
    MapAppend(Second, [(v, w)], m.reused);
  }

  lemma {:induction false} MergeConserves(before: seq<Version>, after: seq<Version>)
    ensures Splits(before, after, Merge(before, after))
  {
    if before != [] && after != [] {
      assert before == [before[0]] + before[1..] && after == [after[0]] + after[1..];
      if before[0].fingerprint == after[0].fingerprint {
        MergeConserves(before[1..], after[1..]);
        SplitMatch(before[1..], after[1..], Merge(before[1..], after[1..]), before[0], after[0]);
      } else if Less(before[0].fingerprint, after[0].fingerprint) {
        MergeConserves(before[1..], after);
        SplitLeft(before[1..], after, Merge(before[1..], after), before[0]);
      } else {
        MergeConserves(before, after[1..]);
        SplitRight(before, after[1..], Merge(before, after[1..]), after[0]);
      }
    }
  }

  lemma SplitLeft(before: seq<Version>, after: seq<Version>, m: Matched, v: Version)
    requires Splits(before, after, m)
    ensures Splits([v] + before, after, m.(left := [v] + m.left))
  {}

  lemma SplitRight(before: seq<Version>, after: seq<Version>, m: Matched, w: Version)
    requires Splits(before, after, m)
    ensures Splits(before, [w] + after, m.(right := [w] + m.right))
  {}

  /** Sorted by fingerprint. */
  ghost predicate Ascending(s: seq<Version>) {
    forall i, j :: 0 <= i < j < |s| ==> !Less(s[j].fingerprint, s[i].fingerprint)
  }

  ghost predicate Apart(x: seq<Version>, y: seq<Version>) {
    forall a, b :: a in x && b in y ==> a.fingerprint != b.fingerprint
  }

  lemma HeadApart(s: seq<Version>, a: Version)
    requires Ascending(s) && s != [] && Less(a.fingerprint, s[0].fingerprint)
    ensures forall b :: b in s ==> b.fingerprint != a.fingerprint
  {
    StringOrder();
  }

  lemma {:induction false} LeftoversComeFrom(before: seq<Version>, after: seq<Version>)
    ensures forall x :: x in Merge(before, after).left ==> x in before
    ensures forall x :: x in Merge(before, after).right ==> x in after
  {
    if before != [] && after != [] {
      if before[0].fingerprint == after[0].fingerprint {
        LeftoversComeFrom(before[1..], after[1..]);
      } else if Less(before[0].fingerprint, after[0].fingerprint) {
        LeftoversComeFrom(before[1..], after);
      } else {
        LeftoversComeFrom(before, after[1..]);
      }
    }
  }

  lemma AscendingTail(s: seq<Version>)
    requires Ascending(s) && s != []
    ensures Ascending(s[1..])
  {
    forall i, j | 0 <= i < j < |s[1..]| ensures !Less(s[1..][j].fingerprint, s[1..][i].fingerprint) {
      assert !Less(s[j+1].fingerprint, s[i+1].fingerprint);
    }
  }

  /** No fingerprint is left over on both sides. */
  lemma {:induction false} LeftoversApart(before: seq<Version>, after: seq<Version>)
    requires Ascending(before) && Ascending(after)
    ensures Apart(Merge(before, after).left, Merge(before, after).right)
  {
    if before != [] && after != [] {
      AscendingTail(before);
      AscendingTail(after);
      if before[0].fingerprint == after[0].fingerprint {
        LeftoversApart(before[1..], after[1..]);
      } else if Less(before[0].fingerprint, after[0].fingerprint) {
        LeftoversApart(before[1..], after);
        HeadApart(after, before[0]);
        LeftoversComeFrom(before[1..], after);
      } else {
        LeftoversApart(before, after[1..]);
        LessTotal(before[0].fingerprint, after[0].fingerprint);
        HeadApart(before, after[0]);
        LeftoversComeFrom(before, after[1..]);
      }
    }
  }

  function Print(v: Version): string { v.fingerprint }

  lemma AbsentPrint(s: seq<Version>, f: string)
    requires forall v :: v in s ==> v.fingerprint != f
    ensures multiset(Map(Print, s))[f] == 0
  {
    if f in multiset(Map(Print, s)) { MapMember(Print, s, f); }
  }

  lemma SamePrints(pairs: seq<(Version, Version)>)
    requires forall p :: p in pairs ==> p.0.fingerprint == p.1.fingerprint
    ensures Map(Print, Map(First, pairs)) == Map(Print, Map(Second, pairs))
  {
    assert forall i :: 0 <= i < |pairs| ==> pairs[i] in pairs;
  }

  function Prints(s: seq<Version>): multiset<string> { multiset(Map(Print, s)) }

  lemma PrintsSplit(all: seq<Version>, a: seq<Version>, b: seq<Version>)
    requires multiset(all) == multiset(a) + multiset(b)
    ensures Prints(all) == Prints(a) + Prints(b)
  {
    MapPermutes(Print, all, a + b);
    MapAppend(Print, a, b);
  }

  lemma Common(x: multiset<string>, y: multiset<string>, both: multiset<string>, l: multiset<string>, r: multiset<string>)
    requires x == both + l && y == both + r && forall f :: l[f] == 0 || r[f] == 0
    ensures both == x * y
  {
    forall f ensures both[f] == (x * y)[f] { assert l[f] == 0 || r[f] == 0; }
  }

  lemma PrintsApart(left: seq<Version>, right: seq<Version>, f: string)
    requires Apart(left, right)
    ensures Prints(left)[f] == 0 || Prints(right)[f] == 0
  {
    if v :| v in left && v.fingerprint == f { AbsentPrint(right, f); } else { AbsentPrint(left, f); }
  }

  /** Exactly the common fingerprints are reused, with multiplicity: no matching could reuse more. */
  lemma ReuseIsIntersection(before: seq<Version>, after: seq<Version>, m: Matched)
    requires Splits(before, after, m) && Apart(m.left, m.right)
    ensures Prints(Map(First, m.reused)) == Prints(before) * Prints(after)
    ensures Prints(Map(Second, m.reused)) == Prints(before) * Prints(after)
  {
    PrintsSplit(before, Map(First, m.reused), m.left);
    PrintsSplit(after, Map(Second, m.reused), m.right);
    SamePrints(m.reused);
    forall f ensures Prints(m.left)[f] == 0 || Prints(m.right)[f] == 0 { PrintsApart(m.left, m.right, f); }
    Common(Prints(before), Prints(after), Prints(Map(First, m.reused)), Prints(m.left), Prints(m.right));
  }

  // ------------------------------------------------------ one lineage's deltas

  function ReusedDelta(kind: string): ((Version, Version)) -> Delta {
    (p: (Version, Version)) => Delta(0, "reused", kind, p.1.id, Some(p.0.id))
  }

  function ModifiedDelta(kind: string): ((Version, Version)) -> Delta {
    (p: (Version, Version)) => Delta(0, "modified", kind, p.1.id, Some(p.0.id))
  }

  function AddedDelta(kind: string): Version -> Delta { (v: Version) => Delta(0, "added", kind, v.id, None) }
  function DeletedDelta(kind: string): Version -> Delta { (v: Version) => Delta(0, "deleted", kind, v.id, None) }

  function Zip(a: seq<Version>, b: seq<Version>): (z: seq<(Version, Version)>)
    requires |a| == |b|
    ensures |z| == |a| && forall i :: 0 <= i < |z| ==> z[i] == (a[i], b[i])
  {
    if a == [] then [] else [(a[0], b[0])] + Zip(a[1..], b[1..])
  }

  function MatchSorted(before: seq<Version>, after: seq<Version>): Matched {
    Merge(Sort(VersionLess, before), Sort(VersionLess, after))
  }

  function Least(a: nat, b: nat): nat { if a < b then a else b }

  /** The deltas for what the merge left over, paired in identifier order. */
  function LeftoverDeltas(kind: string, left: seq<Version>, right: seq<Version>): seq<Delta> {
    var n := Least(|left|, |right|);
    Map(ModifiedDelta(kind), Zip(left[..n], right[..n]))
    + Map(AddedDelta(kind), right[n..]) + Map(DeletedDelta(kind), left[n..])
  }

  function LineageDeltas(kind: string, before: seq<Version>, after: seq<Version>): seq<Delta> {
    var m := MatchSorted(before, after);
    Map(ReusedDelta(kind), m.reused) + LeftoverDeltas(kind, Sort(IdLess, m.left), Sort(IdLess, m.right))
  }

  method CompareLineage(kind: string, before: seq<Version>, after: seq<Version>) returns (result: seq<Delta>)
    ensures result == LineageDeltas(kind, before, after)
  {
    var m := MergeVersions(Sort(VersionLess, before), Sort(VersionLess, after));
    result := Map(ReusedDelta(kind), m.reused);
    var rest := PairLeftovers(kind, Sort(IdLess, m.left), Sort(IdLess, m.right));
    result := result + rest;
  }

  method PairLeftovers(kind: string, left: seq<Version>, right: seq<Version>) returns (result: seq<Delta>)
    ensures result == LeftoverDeltas(kind, left, right)
  {
    var paired := Least(|left|, |right|);
    result := PairUp(kind, left[..paired], right[..paired]);
    assert result == Map(ModifiedDelta(kind), Zip(left[..paired], right[..paired]));
    result := result + Map(AddedDelta(kind), right[paired..]);
    result := result + Map(DeletedDelta(kind), left[paired..]);
  }

  method PairUp(kind: string, left: seq<Version>, right: seq<Version>) returns (result: seq<Delta>)
    requires |left| == |right|
    ensures |result| == |left|
    ensures forall k :: 0 <= k < |left| ==> result[k] == Delta(0, "modified", kind, right[k].id, Some(left[k].id))
  {
    result := [];
    for i := 0 to |left|
      invariant |result| == i && forall k :: 0 <= k < i ==> result[k] == Delta(0, "modified", kind, right[k].id, Some(left[k].id))
    {
      result := result + [Delta(0, "modified", kind, right[i].id, Some(left[i].id))];
    }
  }

  // ----------------------------------------------------------- conservation

  predicate Consumes(d: Delta) { d.change == "deleted" || d.previous.Some? }
  function ConsumedId(d: Delta): string { if d.change != "deleted" && d.previous.Some? then d.previous.value else d.id }
  predicate Produces(d: Delta) { d.change != "deleted" }
  function ProducedId(d: Delta): string { d.id }

  /** Baseline identifiers a delta list accounts for: previous ones and deleted ones. */
  function Consumed(ds: seq<Delta>): multiset<string> { multiset(Map(ConsumedId, Filter(Consumes, ds))) }

  /** Target identifiers a delta list accounts for. */
  function Produced(ds: seq<Delta>): multiset<string> { multiset(Map(ProducedId, Filter(Produces, ds))) }

  lemma ConsumedAppend(a: seq<Delta>, b: seq<Delta>)
    ensures Consumed(a + b) == Consumed(a) + Consumed(b) && Produced(a + b) == Produced(a) + Produced(b)
  {
    FilterAppend(Consumes, a, b);
    FilterAppend(Produces, a, b);
    MapAppend(ConsumedId, Filter(Consumes, a), Filter(Consumes, b));
    MapAppend(ProducedId, Filter(Produces, a), Filter(Produces, b));
  }

  lemma ConsumedPermutes(a: seq<Delta>, b: seq<Delta>)
    requires multiset(a) == multiset(b)
    ensures Consumed(a) == Consumed(b) && Produced(a) == Produced(b)
  {
    FilterPermutes(Consumes, a, b);
    FilterPermutes(Produces, a, b);
    MapPermutes(ConsumedId, Filter(Consumes, a), Filter(Consumes, b));
    MapPermutes(ProducedId, Filter(Produces, a), Filter(Produces, b));
  }

  function IdOf(v: Version): string { v.id }
  function Ids(s: seq<Version>): multiset<string> { multiset(Map(IdOf, s)) }

  lemma PairsConsume(ds: seq<Delta>, pairs: seq<(Version, Version)>)
    requires |ds| == |pairs|
    requires forall i :: 0 <= i < |ds| ==>
      ds[i].change != "deleted" && ds[i].id == pairs[i].1.id && ds[i].previous == Some(pairs[i].0.id)
    ensures Consumed(ds) == Ids(Map(First, pairs)) && Produced(ds) == Ids(Map(Second, pairs))
  {
    FilterAll(Consumes, ds);
    FilterAll(Produces, ds);
    assert Map(ConsumedId, ds) == Map(IdOf, Map(First, pairs));
    assert Map(ProducedId, ds) == Map(IdOf, Map(Second, pairs));
  }

  lemma SinglesConsume(ds: seq<Delta>, s: seq<Version>, change: string)
    requires |ds| == |s|
    requires forall i :: 0 <= i < |ds| ==> ds[i].change == change && ds[i].id == s[i].id && ds[i].previous.None?
    ensures Consumed(ds) == if change == "deleted" then Ids(s) else multiset{}
    ensures Produced(ds) == if change == "deleted" then multiset{} else Ids(s)
  {
    if change == "deleted" {
      FilterAll(Consumes, ds);
      FilterNone(Produces, ds);
      assert Map(ConsumedId, ds) == Map(IdOf, s);
    } else {
      FilterNone(Consumes, ds);
      FilterAll(Produces, ds);
      assert Map(ProducedId, ds) == Map(IdOf, s);
    }
  }

  lemma IdsSplit(all: seq<Version>, a: seq<Version>, b: seq<Version>)
    requires multiset(all) == multiset(a) + multiset(b)
    ensures Ids(all) == Ids(a) + Ids(b)
  {
    MapPermutes(IdOf, all, a + b);
    MapAppend(IdOf, a, b);
  }

  lemma ConsumedThree(x: seq<Delta>, y: seq<Delta>, z: seq<Delta>)
    ensures Consumed(x + y + z) == Consumed(x) + Consumed(y) + Consumed(z)
    ensures Produced(x + y + z) == Produced(x) + Produced(y) + Produced(z)
  {
    ConsumedAppend(x, y);
    ConsumedAppend(x + y, z);
  }

  lemma IdsCut(s: seq<Version>, n: nat)
    requires n <= |s|
    ensures Ids(s) == Ids(s[..n]) + Ids(s[n..])
  {
    assert s == s[..n] + s[n..];
    IdsSplit(s, s[..n], s[n..]);
  }

  lemma ZipSides(a: seq<Version>, b: seq<Version>)
    requires |a| == |b|
    ensures Map(First, Zip(a, b)) == a && Map(Second, Zip(a, b)) == b
  {}

  lemma ModifiedConserves(kind: string, a: seq<Version>, b: seq<Version>)
    requires |a| == |b|
    ensures Consumed(Map(ModifiedDelta(kind), Zip(a, b))) == Ids(a) && Produced(Map(ModifiedDelta(kind), Zip(a, b))) == Ids(b)
  {
    ZipSides(a, b);
    PairsConsume(Map(ModifiedDelta(kind), Zip(a, b)), Zip(a, b));
  }

  lemma AddedConserves(kind: string, s: seq<Version>)
    ensures Consumed(Map(AddedDelta(kind), s)) == multiset{} && Produced(Map(AddedDelta(kind), s)) == Ids(s)
  {
    SinglesConsume(Map(AddedDelta(kind), s), s, "added");
  }

  lemma DeletedConserves(kind: string, s: seq<Version>)
    ensures Consumed(Map(DeletedDelta(kind), s)) == Ids(s) && Produced(Map(DeletedDelta(kind), s)) == multiset{}
  {
    SinglesConsume(Map(DeletedDelta(kind), s), s, "deleted");
  }

  lemma LeftoverConserves(kind: string, left: seq<Version>, right: seq<Version>)
    ensures Consumed(LeftoverDeltas(kind, left, right)) == Ids(left)
    ensures Produced(LeftoverDeltas(kind, left, right)) == Ids(right)
  {
    var n := Least(|left|, |right|);
    var a, b, c, d := left[..n], left[n..], right[..n], right[n..];
    ModifiedConserves(kind, a, c);
    AddedConserves(kind, d);
    DeletedConserves(kind, b);
    ConsumedThree(Map(ModifiedDelta(kind), Zip(a, c)), Map(AddedDelta(kind), d), Map(DeletedDelta(kind), b));
    IdsCut(left, n);
    IdsCut(right, n);
  }

  lemma MatchConserves(before: seq<Version>, after: seq<Version>)
    ensures var m := MatchSorted(before, after);
      && Ids(before) == Ids(Map(First, m.reused)) + Ids(m.left)
      && Ids(after) == Ids(Map(Second, m.reused)) + Ids(m.right)
  {
    var m := MatchSorted(before, after);
    SortPermutes(VersionLess, before);
    SortPermutes(VersionLess, after);
    MergeConserves(Sort(VersionLess, before), Sort(VersionLess, after));
    IdsSplit(before, Map(First, m.reused), m.left);
    IdsSplit(after, Map(Second, m.reused), m.right);
  }

  /** Each baseline version is consumed once and each target version produced once. */
  lemma LineageConserves(kind: string, before: seq<Version>, after: seq<Version>)
    ensures Consumed(LineageDeltas(kind, before, after)) == Ids(before)
    ensures Produced(LineageDeltas(kind, before, after)) == Ids(after)
  {
    var m := MatchSorted(before, after);
    var x, y := Map(ReusedDelta(kind), m.reused), LeftoverDeltas(kind, Sort(IdLess, m.left), Sort(IdLess, m.right));
    MatchConserves(before, after);
    PairsConsume(x, m.reused);
    LeftoverConserves(kind, Sort(IdLess, m.left), Sort(IdLess, m.right));
    SortPermutes(IdLess, m.left);
    SortPermutes(IdLess, m.right);
    MapPermutes(IdOf, Sort(IdLess, m.left), m.left);
    MapPermutes(IdOf, Sort(IdLess, m.right), m.right);
    ConsumedAppend(x, y);
  }

  // ---------------------------------------------------------- what deltas mean

  /** The version pair behind a reused or modified delta. */
  ghost predicate Links(before: seq<Version>, after: seq<Version>, d: Delta, v: Version, w: Version) {
    v in before && w in after && d.previous == Some(v.id) && d.id == w.id
  }

  ghost predicate Explained(before: seq<Version>, after: seq<Version>, d: Delta) {
    || (d.change == "reused" && exists v, w :: Links(before, after, d, v, w) && v.fingerprint == w.fingerprint)
    || (d.change == "modified" && exists v, w :: Links(before, after, d, v, w) && v.fingerprint != w.fingerprint)
    || (d.change == "added" && d.previous.None? && exists w :: w in after && w.id == d.id)
    || (d.change == "deleted" && d.previous.None? && exists v :: v in before && v.id == d.id)
  }

  /** An added delta names no previous version. */
  lemma AddedIsPlain(before: seq<Version>, after: seq<Version>, d: Delta)
    requires Explained(before, after, d) && d.change == "added"
    ensures d.previous.None?
  {
    assert "added"[0] == 'a' && "reused"[0] == 'r' && "modified"[0] == 'm' && "deleted"[0] == 'd';
  }

  lemma SortedAscending(s: seq<Version>)
    ensures Ascending(Sort(VersionLess, s))
  {
    VersionOrders();
    SortSorts(VersionLess, s);
    var r := Sort(VersionLess, s);
    StringOrder();
    forall i, j | 0 <= i < j < |r| ensures !Less(r[j].fingerprint, r[i].fingerprint) { assert !VersionLess(r[j], r[i]); }
  }

  lemma SplitMembers(before: seq<Version>, after: seq<Version>, m: Matched)
    requires Splits(before, after, m)
    ensures forall p :: p in m.reused ==> p.0 in before && p.1 in after
    ensures (forall v :: v in m.left ==> v in before) && (forall w :: w in m.right ==> w in after)
  {
    forall p | p in m.reused ensures p.0 in before && p.1 in after {
      var i :| 0 <= i < |m.reused| && m.reused[i] == p;
      assert Map(First, m.reused)[i] in multiset(before) && Map(Second, m.reused)[i] in multiset(after);
    }
    forall v | v in m.left ensures v in before { assert v in multiset(before); }
    forall w | w in m.right ensures w in after { assert w in multiset(after); }
  }

  lemma MatchedMembers(before: seq<Version>, after: seq<Version>)
    ensures var m := MatchSorted(before, after);
      && Splits(before, after, m) && Apart(m.left, m.right)
      && (forall p :: p in m.reused ==> p.0 in before && p.1 in after && p.0.fingerprint == p.1.fingerprint)
      && (forall v :: v in m.left ==> v in before) && (forall w :: w in m.right ==> w in after)
  {
    var m, b, a := MatchSorted(before, after), Sort(VersionLess, before), Sort(VersionLess, after);
    assert Splits(before, after, m) by {
      SortPermutes(VersionLess, before);
      SortPermutes(VersionLess, after);
      MergeConserves(b, a);
    }
    assert Apart(m.left, m.right) by {
      SortedAscending(before);
      SortedAscending(after);
      LeftoversApart(b, a);
    }
    SplitMembers(before, after, m);
  }

  lemma ModifiedExplained(kind: string, before: seq<Version>, after: seq<Version>, left: seq<Version>, right: seq<Version>, d: Delta)
    requires |left| == |right| && Apart(left, right)
    requires (forall v :: v in left ==> v in before) && (forall w :: w in right ==> w in after)
    requires d in Map(ModifiedDelta(kind), Zip(left, right))
    ensures Explained(before, after, d) && d.change == "modified"
  {
    var z := Zip(left, right);
    var i :| 0 <= i < |z| && Map(ModifiedDelta(kind), z)[i] == d;
    assert left[i] in left && right[i] in right && Links(before, after, d, left[i], right[i]);
  }

  lemma LeftoverExplained(kind: string, before: seq<Version>, after: seq<Version>, left: seq<Version>, right: seq<Version>, d: Delta)
    requires Apart(left, right)
    requires (forall v :: v in left ==> v in before) && (forall w :: w in right ==> w in after)
    requires d in LeftoverDeltas(kind, left, right)
    ensures Explained(before, after, d) && d.change != "reused"
    ensures d.change == "added" ==> |left| < |right|
    ensures d.change == "deleted" ==> |right| < |left|
  {
    var n := Least(|left|, |right|);
    if d in Map(ModifiedDelta(kind), Zip(left[..n], right[..n])) {
      ModifiedExplained(kind, before, after, left[..n], right[..n], d);
    } else if d in Map(AddedDelta(kind), right[n..]) {
      MapMember(AddedDelta(kind), right[n..], d);
    } else {
      MapMember(DeletedDelta(kind), left[n..], d);
    }
  }

  /** Reused deltas join equal fingerprints, modified ones never do, and a
      lineage never both gains and loses an entity. */
  lemma LineageExplained(kind: string, before: seq<Version>, after: seq<Version>)
    ensures forall d :: d in LineageDeltas(kind, before, after) ==> Explained(before, after, d)
    ensures forall d, e :: d in LineageDeltas(kind, before, after) && e in LineageDeltas(kind, before, after) ==>
      !(d.change == "added" && e.change == "deleted")
  {
    var m := MatchSorted(before, after);
    var left, right := Sort(IdLess, m.left), Sort(IdLess, m.right);
    MatchedMembers(before, after);
    SortPermutes(IdLess, m.left);
    SortPermutes(IdLess, m.right);
    forall v ensures v in left <==> v in m.left { MemberPermutes(left, m.left, v); }
    forall w ensures w in right <==> w in m.right { MemberPermutes(right, m.right, w); }
    forall d | d in LineageDeltas(kind, before, after)
      ensures Explained(before, after, d)
      ensures d.change == "added" ==> |left| < |right|
      ensures d.change == "deleted" ==> |right| < |left| {
      if d in Map(ReusedDelta(kind), m.reused) {
        MapMember(ReusedDelta(kind), m.reused, d);
        var p :| p in m.reused && ReusedDelta(kind)(p) == d;
        assert Links(before, after, d, p.0, p.1);
      } else {
        LeftoverExplained(kind, before, after, left, right, d);
      }
    }
  }

  /** The reused deltas of a lineage cover the multiset intersection of its fingerprints. */
  lemma LineageReuse(before: seq<Version>, after: seq<Version>)
    ensures var m := MatchSorted(before, after);
      && Prints(Map(First, m.reused)) == Prints(before) * Prints(after)
      && Prints(Map(Second, m.reused)) == Prints(before) * Prints(after)
  {
    MatchedMembers(before, after);
    ReuseIsIntersection(before, after, MatchSorted(before, after));
  }
}
