/** Lease fences derived from scopes, and the leases a receipt accepts for them. */
module Fences {
  import opened Ordering
  import opened Seqs
  import opened Cards
  import opened Bundles
  import opened Scopes

  // --------------------------------------------------------------- ancestors

  function Join(parts: seq<string>): string {
    if parts == [] then "" else if |parts| == 1 then parts[0] else parts[0] + "/" + Join(parts[1..])
  }

  /** `scopeAndAncestors`: every leading part of the path, shortest first. */
  function ScopeAndAncestors(scope: string): seq<string> {
    var parts := Segments(scope);
    seq(|parts|, i requires 0 <= i < |parts| => Join(parts[..i+1]))
  }

  function FirstSegment(path: string): string { Segments(path)[0] }

  lemma {:induction false} SegmentsPlain(path: string)
    ensures forall g :: g in Segments(path) ==> '/' !in g
  {
    if path != "" { SegmentsPlain(path[1..]); }
  }

  lemma {:induction false} FirstIsWhole(a: string)
    requires '/' !in a
    ensures FirstSegment(a) == a
  {
    if a != "" {
      FirstIsWhole(a[1..]);
      assert a == [a[0]] + a[1..];
    }
  }

  /** Going deeper keeps the first segment. */
  lemma {:induction false} FirstSegmentBelow(s: string, rest: string)
    ensures FirstSegment(s + "/" + rest) == FirstSegment(s)
  {
    var longer := s + "/" + rest;
    if s == "" {
      assert longer[0] == '/';
    } else {
      assert longer[0] == s[0] && longer[1..] == s[1..] + "/" + rest;
      FirstSegmentBelow(s[1..], rest);
    }
  }

  lemma JoinFirst(parts: seq<string>)
    requires parts != [] && '/' !in parts[0]
    ensures FirstSegment(Join(parts)) == parts[0]
  {
    FirstIsWhole(parts[0]);
    if |parts| > 1 { FirstSegmentBelow(parts[0], Join(parts[1..])); }
  }

  lemma AncestorFirst(scope: string, i: nat)
    requires i < |Segments(scope)|
    ensures FirstSegment(ScopeAndAncestors(scope)[i]) == FirstSegment(scope)
  {
    var parts := Segments(scope);
    SegmentsPlain(scope);
    assert parts[0] in parts && parts[..i+1][0] == parts[0];
    JoinFirst(parts[..i+1]);
  }

  lemma FirstAncestor(scope: string)
    ensures ScopeAndAncestors(scope)[0] == FirstSegment(scope)
  {
    var parts := Segments(scope);
    assert parts[..0+1] == [parts[0]];
    assert ScopeAndAncestors(scope)[0] == Join(parts[..0+1]);
  }

  lemma CoverKeepsFirst(scope: string, path: string)
    requires Covers(scope, path)
    ensures FirstSegment(scope) == FirstSegment(path)
  {
    if path != scope {
      assert path == scope + "/" + path[|scope| + 1..] by { assert path == path[..|scope| + 1] + path[|scope| + 1..]; }
      FirstSegmentBelow(scope, path[|scope| + 1..]);
    }
  }

  // ---------------------------------------------------- covering by segments

  lemma {:induction false} SegmentsBelow(s: string, rest: string)
    ensures Segments(s + "/" + rest) == Segments(s) + Segments(rest)
  {
    var longer := s + "/" + rest;
    if s == "" {
      assert longer[0] == '/' && longer[1..] == rest;
    } else {
      assert longer[0] == s[0] && longer[1..] == s[1..] + "/" + rest;
      SegmentsBelow(s[1..], rest);
    }
  }

  lemma {:induction false} JoinSegments(p: string)
    ensures Join(Segments(p)) == p
  {
    if p != "" {
      JoinSegments(p[1..]);
      var rest := Segments(p[1..]);
      assert p == [p[0]] + p[1..];
      if p[0] == '/' {
        assert ([""] + rest)[1..] == rest;
      } else {
        var all := [[p[0]] + rest[0]] + rest[1..];
        assert all[1..] == rest[1..];
      }
    }
  }

  lemma {:induction false} JoinAppend(a: seq<string>, b: seq<string>)
    requires a != [] && b != []
    ensures Join(a + b) == Join(a) + "/" + Join(b)
  {
    if |a| == 1 {
      assert (a + b)[1..] == b;
    } else {
      assert (a + b)[1..] == a[1..] + b;
      JoinAppend(a[1..], b);
    }
  }

  /** A scope covers exactly the paths whose segments begin with its own. */
  lemma CoversExactly(scope: string, path: string)
    ensures Covers(scope, path) <==> Segments(scope) <= Segments(path)
  {
    var a, b := Segments(scope), Segments(path);
    if Covers(scope, path) && path != scope {
      assert path == scope + "/" + path[|scope| + 1..] by { assert path == path[..|scope| + 1] + path[|scope| + 1..]; }
      SegmentsBelow(scope, path[|scope| + 1..]);
    }
    if a <= b {
      JoinSegments(scope);
      JoinSegments(path);
      var tail := b[|a|..];
      assert b == a + tail;
      if tail != [] { JoinAppend(a, tail); } else { assert a == b; }
    }
  }

  lemma AncestorCovers(scope: string, i: nat)
    requires i < |Segments(scope)|
    ensures Covers(Join(Segments(scope)[..i+1]), scope)
  {
    var parts := Segments(scope);
    var head, tail := parts[..i+1], parts[i+1..];
    assert parts == head + tail;
    JoinSegments(scope);
    if tail == [] { assert parts == head; } else { CoversBelow(Join(head), Join(tail), head, tail); }
  }

  lemma CoverIsAncestor(scope: string, a: string) returns (i: nat)
    requires Covers(a, scope)
    ensures i < |Segments(scope)| && a == Join(Segments(scope)[..i+1])
  {
    CoversExactly(a, scope);
    JoinSegments(a);
    i := |Segments(a)| - 1;
    assert Segments(scope)[..i+1] == Segments(a);
  }

  lemma AncestorAt(scope: string, i: nat, a: string)
    requires i < |Segments(scope)| && a == Join(Segments(scope)[..i+1])
    ensures a in ScopeAndAncestors(scope)
  {
    assert ScopeAndAncestors(scope)[i] == a;
  }

  lemma AncestorIs(scope: string, a: string) returns (i: nat)
    requires a in ScopeAndAncestors(scope)
    ensures i < |Segments(scope)| && a == Join(Segments(scope)[..i+1])
  {
    i :| 0 <= i < |ScopeAndAncestors(scope)| && ScopeAndAncestors(scope)[i] == a;
  }

  /** A scope and its ancestors are exactly the scopes that cover it. */
  lemma AncestorsExactly(scope: string, a: string)
    ensures a in ScopeAndAncestors(scope) <==> Covers(a, scope)
  {
    if a in ScopeAndAncestors(scope) {
      var i := AncestorIs(scope, a);
      AncestorCovers(scope, i);
    }
    if Covers(a, scope) {
      var i := CoverIsAncestor(scope, a);
      AncestorAt(scope, i, a);
    }
  }

  lemma CoversBelow(a: string, rest: string, head: seq<string>, tail: seq<string>)
    requires head != [] && tail != [] && a == Join(head) && rest == Join(tail)
    ensures Covers(a, Join(head + tail))
  {
    JoinAppend(head, tail);
    var whole := a + "/" + rest;
    assert whole[..|a| + 1] == a + "/";
  }

  // -------------------------------------------------------------- fence keys

  function KeyOf(kind: string, id: string): string { kind + "\0" + id }

  ghost predicate ScopeKey(kind: string, scopes: seq<string>, key: string) {
    exists s, i :: s in scopes && 0 <= i < |Segments(s)| && key == KeyOf(kind, ScopeAndAncestors(s)[i])
  }

  /** The keys a request must hold, as a property of one key. */
  ghost predicate ExpectedKey(q: Request, key: string) {
    key == KeyOf("worktree", q.deliveryId) || ScopeKey("file", q.writeScopes, key) || ScopeKey("artifact", q.artifactScopes, key)
  }

  method AppendScopeKeys(kind: string, scopes: seq<string>, before: seq<string>) returns (keys: seq<string>)
    ensures forall k :: k in keys <==> k in before || ScopeKey(kind, scopes, k)
  {
    keys := before;
    for i := 0 to |scopes|
      invariant forall k :: k in keys <==> k in before || ScopeKey(kind, scopes[..i], k)
    {
      var more := ScopeKeys(kind, scopes[i]);
      assert scopes[..i+1] == scopes[..i] + [scopes[i]];
      forall k ensures ScopeKey(kind, scopes[..i+1], k) <==> ScopeKey(kind, scopes[..i], k) || k in more {
        ScopeKeyGrows(kind, scopes[..i], scopes[i], more, k);
      }
      keys := keys + more;
    }
    assert scopes[..|scopes|] == scopes;
  }

  method ScopeKeys(kind: string, scope: string) returns (keys: seq<string>)
    ensures |keys| == |Segments(scope)| && forall i :: 0 <= i < |keys| ==> keys[i] == KeyOf(kind, ScopeAndAncestors(scope)[i])
  {
    keys := [];
    var values := ScopeAndAncestors(scope);
    for i := 0 to |values|
      invariant |keys| == i && forall k :: 0 <= k < i ==> keys[k] == KeyOf(kind, values[k])
    {
      keys := keys + [KeyOf(kind, values[i])];
    }
  }

  lemma ScopeKeyGrows(kind: string, scopes: seq<string>, scope: string, more: seq<string>, k: string)
    requires |more| == |Segments(scope)| && forall i :: 0 <= i < |more| ==> more[i] == KeyOf(kind, ScopeAndAncestors(scope)[i])
    ensures ScopeKey(kind, scopes + [scope], k) <==> ScopeKey(kind, scopes, k) || k in more
  {
    if ScopeKey(kind, scopes + [scope], k) {
      var s, i :| s in scopes + [scope] && 0 <= i < |Segments(s)| && k == KeyOf(kind, ScopeAndAncestors(s)[i]);
      if s !in scopes { assert more[i] == k; }
    }
    if ScopeKey(kind, scopes, k) {
      var s, i :| s in scopes && 0 <= i < |Segments(s)| && k == KeyOf(kind, ScopeAndAncestors(s)[i]);
      assert s in scopes + [scope];
    }
    if k in more {
      var i :| 0 <= i < |more| && more[i] == k;
      assert scope in scopes + [scope];
    }
  }

  lemma ClimbingAppend(s: seq<string>, x: string)
    requires Climbing(s) && (s != [] ==> Less(s[|s|-1], x))
    ensures Climbing(s + [x])
  {
    forall j | 0 <= j < |s| ensures Less(s[j], x) {
      if j < |s| - 1 { LessTransitive(s[j], s[|s|-1], x); }
    }
  }

  /** `slices.Compact` on a sorted list: no repetition is left. */
  method Compact(sorted: seq<string>) returns (unique: seq<string>)
    requires Sorted(Less, sorted)
    ensures Climbing(unique) && forall k :: k in unique <==> k in sorted
  {
    unique := [];
    for i := 0 to |sorted|
      invariant Climbing(unique) && forall k :: k in unique <==> k in sorted[..i]
      invariant if i == 0 then unique == [] else |unique| > 0 && unique[|unique|-1] == sorted[i-1]
    {
      assert sorted[..i+1] == sorted[..i] + [sorted[i]];
      if unique == [] || unique[|unique|-1] != sorted[i] {
        if i > 0 {
          assert !Less(sorted[i], sorted[i-1]);
          LessTotal(sorted[i-1], sorted[i]);
        }
        ClimbingAppend(unique, sorted[i]);
        unique := unique + [sorted[i]];
      }
    }
    assert sorted[..|sorted|] == sorted;
  }

  method ExpectedDeliveryFenceKeys(q: Request) returns (keys: seq<string>)
    ensures Climbing(keys) && forall k :: k in keys <==> ExpectedKey(q, k)
  {
    keys := [KeyOf("worktree", q.deliveryId)];
    keys := AppendScopeKeys("file", q.writeScopes, keys);
    keys := AppendScopeKeys("artifact", q.artifactScopes, keys);
    var unsorted := keys;
    StringOrder();
    SortPermutes(Less, unsorted);
    SortSorts(Less, unsorted);
    forall k ensures k in Sort(Less, unsorted) <==> k in unsorted { MemberPermutes(Sort(Less, unsorted), unsorted, k); }
    keys := Compact(Sort(Less, unsorted));
  }

  lemma {:induction false} SegmentsClean(path: string)
    requires '\0' !in path
    ensures forall g :: g in Segments(path) ==> '\0' !in g
  {
    if path != "" { SegmentsClean(path[1..]); }
  }

  lemma {:induction false} JoinClean(parts: seq<string>)
    requires forall g :: g in parts ==> '\0' !in g
    ensures '\0' !in Join(parts)
  {
    if |parts| > 1 { JoinClean(parts[1..]); }
  }

  lemma AncestorsClean(scope: string, i: nat)
    requires '\0' !in scope && i < |Segments(scope)|
    ensures '\0' !in ScopeAndAncestors(scope)[i]
  {
    SegmentsClean(scope);
    JoinClean(Segments(scope)[..i+1]);
  }

  lemma ScopeKeysWell(kind: string, scopes: seq<string>, k: string)
    requires '\0' !in kind && (forall s :: s in scopes ==> '\0' !in s) && ScopeKey(kind, scopes, k)
    ensures WellKeyed(k)
  {
    var s, i :| s in scopes && 0 <= i < |Segments(s)| && k == KeyOf(kind, ScopeAndAncestors(s)[i]);
    AncestorsClean(s, i);
  }

  lemma KindsClean()
    ensures '\0' !in "worktree" && '\0' !in "file" && '\0' !in "artifact"
  {}

  /** Every key expected of an accepted request has exactly one separator. */
  lemma ExpectedKeysWell(q: Request, k: string)
    requires '\0' !in q.deliveryId && (forall s :: s in q.writeScopes + q.artifactScopes ==> '\0' !in s) && ExpectedKey(q, k)
    ensures WellKeyed(k)
  {
    KindsClean();
    if ScopeKey("file", q.writeScopes, k) {
      ScopeKeysWell("file", q.writeScopes, k);
    } else if ScopeKey("artifact", q.artifactScopes, k) {
      ScopeKeysWell("artifact", q.artifactScopes, k);
    }
  }

  // --------------------------------------------------------------- contention

  lemma KeyRecovered(kind: string, a: string, b: string)
    requires KeyOf(kind, a) == KeyOf(kind, b)
    ensures a == b
  {
    assert KeyOf(kind, a)[|kind| + 1..] == a && KeyOf(kind, b)[|kind| + 1..] == b;
  }

  /** Two requests contend for a file fence exactly when some of their write scopes start alike. */
  lemma FencesMeetExactly(p: Request, q: Request)
    ensures (exists k :: ScopeKey("file", p.writeScopes, k) && ScopeKey("file", q.writeScopes, k))
      <==> exists s, t :: s in p.writeScopes && t in q.writeScopes && FirstSegment(s) == FirstSegment(t)
  {
    if k :| ScopeKey("file", p.writeScopes, k) && ScopeKey("file", q.writeScopes, k) {
      var s, i :| s in p.writeScopes && 0 <= i < |Segments(s)| && k == KeyOf("file", ScopeAndAncestors(s)[i]);
      var t, j :| t in q.writeScopes && 0 <= j < |Segments(t)| && k == KeyOf("file", ScopeAndAncestors(t)[j]);
      KeyRecovered("file", ScopeAndAncestors(s)[i], ScopeAndAncestors(t)[j]);
      AncestorFirst(s, i);
      AncestorFirst(t, j);
    }
    if s, t :| s in p.writeScopes && t in q.writeScopes && FirstSegment(s) == FirstSegment(t) {
      FirstAncestor(s);
      FirstAncestor(t);
      var k := KeyOf("file", FirstSegment(s));
      assert ScopeKey("file", p.writeScopes, k) && ScopeKey("file", q.writeScopes, k);
    }
  }

  /** Requests that could write a common path always contend. */
  lemma CommonWriterContends(p: Request, q: Request, path: string)
    requires Covered(path, p.writeScopes) && Covered(path, q.writeScopes)
    ensures exists k :: ScopeKey("file", p.writeScopes, k) && ScopeKey("file", q.writeScopes, k)
  {
    var s :| s in p.writeScopes && Covers(s, path);
    var t :| t in q.writeScopes && Covers(t, path);
    CoverKeepsFirst(s, path);
    CoverKeepsFirst(t, path);
    FencesMeetExactly(p, q);
  }

  // ------------------------------------------------------------ receipt fences

  datatype LeaseRow = LeaseRow(kind: string, id: string, owner: string, token: int, tenant: string, repository: string)
  datatype Fence = Fence(kind: string, id: string, owner: string, token: int)

  function FenceOf(l: LeaseRow): Fence { Fence(l.kind, l.id, l.owner, l.token) }
  function FenceKey(f: Fence): string { KeyOf(f.kind, f.id) }
  function RowKey(l: LeaseRow): string { KeyOf(l.kind, l.id) }

  predicate FenceLess(a: Fence, b: Fence) { Less(a.kind, b.kind) || (a.kind == b.kind && Less(a.id, b.id)) }

  lemma FenceOrder()
    ensures WeakOrder(FenceLess)
  {
    StringOrder();
  }

  /** Type first, then identifier, is the byte order of the joined keys: the
      separator is smaller than any byte of a type. */
  lemma {:induction false} JoinedOrder(t: string, x: string, u: string, y: string)
    requires '\0' !in t && '\0' !in u
    ensures Less(KeyOf(t, x), KeyOf(u, y)) <==> Less(t, u) || (t == u && Less(x, y))
  {
    var a, b := KeyOf(t, x), KeyOf(u, y);
    if t == "" && u == "" {
      assert a[0] == b[0] && a[1..] == x && b[1..] == y;
    } else if t == "" {
      assert a[0] == '\0' && b[0] == u[0] && u[0] in u;
    } else if u == "" {
      assert b[0] == '\0' && a[0] == t[0] && t[0] in t;
    } else {
      assert a[0] == t[0] && b[0] == u[0] && a[1..] == KeyOf(t[1..], x) && b[1..] == KeyOf(u[1..], y);
      JoinedOrder(t[1..], x, u[1..], y);
      assert t == u <==> t[0] == u[0] && t[1..] == u[1..] by { assert t == [t[0]] + t[1..] && u == [u[0]] + u[1..]; }
    }
  }

  predicate Consistent(l: LeaseRow, owner: string, tenant: string, repository: string) {
    l.owner == owner && l.token >= 1 && l.tenant == tenant && l.repository == repository
  }

  /** A key with one separator, as every expected key has. */
  ghost predicate WellKeyed(k: string) { exists t, x :: '\0' !in t && '\0' !in x && k == KeyOf(t, x) }

  lemma WellKeyedKind(kind: string, id: string)
    requires WellKeyed(KeyOf(kind, id))
    ensures '\0' !in kind
  {
    var t, x :| '\0' !in t && '\0' !in x && KeyOf(kind, id) == KeyOf(t, x);
    var k := KeyOf(kind, id);
    assert k[|kind|] == '\0';
    assert forall i :: 0 <= i < |k| && i != |t| ==> k[i] == if i < |t| then t[i] else x[i - |t| - 1];
    assert |kind| == |t|;
    assert k[..|kind|] == kind && k[..|t|] == t;
  }

  lemma SortedKeysClimb(fences: seq<Fence>)
    requires forall f :: f in fences ==> '\0' !in f.kind
    ensures var sorted := Sort(FenceLess, fences); Sorted(Less, Map(FenceKey, sorted))
  {
    var sorted := Sort(FenceLess, fences);
    FenceOrder();
    SortSorts(FenceLess, fences);
    SortPermutes(FenceLess, fences);
    var keys := Map(FenceKey, sorted);
    forall i, j | 0 <= i < j < |keys| ensures !Less(keys[j], keys[i]) {
      MemberPermutes(sorted, fences, sorted[i]);
      MemberPermutes(sorted, fences, sorted[j]);
      JoinedOrder(sorted[j].kind, sorted[j].id, sorted[i].kind, sorted[i].id);
      assert !FenceLess(sorted[j], sorted[i]);
    }
  }

  lemma RowKeysAre(leases: seq<LeaseRow>)
    ensures Map(FenceKey, Map(FenceOf, leases)) == Map(RowKey, leases)
  {}

  lemma PlainKinds(leases: seq<LeaseRow>, expected: seq<string>)
    requires multiset(Map(RowKey, leases)) == multiset(expected) && forall k :: k in expected ==> WellKeyed(k)
    ensures forall f :: f in Map(FenceOf, leases) ==> '\0' !in f.kind
  {
    forall f | f in Map(FenceOf, leases) ensures '\0' !in f.kind {
      MapMember(FenceOf, leases, f);
      var l :| l in leases && FenceOf(l) == f;
      var i :| 0 <= i < |leases| && leases[i] == l;
      assert Map(RowKey, leases)[i] == RowKey(l);
      MemberPermutes(Map(RowKey, leases), expected, RowKey(l));
      WellKeyedKind(l.kind, l.id);
    }
  }

  lemma ClimbingMeets(keys: seq<string>, expected: seq<string>)
    requires Climbing(expected) && Sorted(Less, keys) && multiset(keys) == multiset(expected)
    ensures keys == expected
  {
    assert Sorted(Less, expected) by {
      forall i, j | 0 <= i < j < |expected| ensures !Less(expected[j], expected[i]) {
        if Less(expected[j], expected[i]) {
          LessTransitive(expected[i], expected[j], expected[i]);
          LessIrreflexive(expected[i]);
        }
      }
    }
    assert NoTies(Less, expected);
    SortedUnique(Less, expected, keys);
  }

  lemma SortedKeysAre(leases: seq<LeaseRow>)
    ensures multiset(Map(FenceKey, Sort(FenceLess, Map(FenceOf, leases)))) == multiset(Map(RowKey, leases))
  {
    var fences := Map(FenceOf, leases);
    SortPermutes(FenceLess, fences);
    MapPermutes(FenceKey, Sort(FenceLess, fences), fences);
    RowKeysAre(leases);
  }

  /** Sorting by type and identifier meets the expected list exactly when the leases are the expected ones. */
  lemma SortedMeetsExpected(leases: seq<LeaseRow>, expected: seq<string>)
    requires Climbing(expected) && forall k :: k in expected ==> WellKeyed(k)
    ensures Map(FenceKey, Sort(FenceLess, Map(FenceOf, leases))) == expected <==> multiset(Map(RowKey, leases)) == multiset(expected)
  {
    var keys := Map(FenceKey, Sort(FenceLess, Map(FenceOf, leases)));
    SortedKeysAre(leases);
    if multiset(Map(RowKey, leases)) == multiset(expected) {
      assert Sorted(Less, keys) by {
        PlainKinds(leases, expected);
        SortedKeysClimb(Map(FenceOf, leases));
      }
      ClimbingMeets(keys, expected);
    }
  }

  /** The body of `receiptFences` for a given list of expected keys. */
  method MatchFences(leases: seq<LeaseRow>, owner: string, tenant: string, repository: string, expected: seq<string>)
    returns (r: Outcome<seq<Fence>>)
    requires Climbing(expected) && forall k :: k in expected ==> WellKeyed(k)
    ensures r.Ok? <==>
      owner != "" && leases != [] && multiset(Map(RowKey, leases)) == multiset(expected)
      && forall l :: l in leases ==> Consistent(l, owner, tenant, repository)
    ensures r.Ok? ==> r.value == Sort(FenceLess, Map(FenceOf, leases)) && Map(FenceKey, r.value) == expected
  {
    if owner == "" || leases == [] { return Err; }
    var fences := [];
    for i := 0 to |leases|
      invariant fences == Map(FenceOf, leases[..i])
      invariant forall k :: 0 <= k < i ==> Consistent(leases[k], owner, tenant, repository)
    {
      if !Consistent(leases[i], owner, tenant, repository) { return Err; }
      assert leases[..i+1] == leases[..i] + [leases[i]];
      MapAppend(FenceOf, leases[..i], [leases[i]]);
      fences := fences + [FenceOf(leases[i])];
    }
    assert leases[..|leases|] == leases;
    SortedMeetsExpected(leases, expected);
    fences := Sort(FenceLess, fences);
    if Map(FenceKey, fences) == expected { r := Ok(fences); } else { r := Err; }
  }

  /** Leases carry exactly the expected keys, each once. */
  ghost predicate LeasesMatch(q: Request, leases: seq<LeaseRow>) {
    NoRepeat(Map(RowKey, leases)) && forall k :: k in Map(RowKey, leases) <==> ExpectedKey(q, k)
  }

  lemma MatchesExpected(q: Request, leases: seq<LeaseRow>, expected: seq<string>)
    requires Climbing(expected) && forall k :: k in expected <==> ExpectedKey(q, k)
    ensures multiset(Map(RowKey, leases)) == multiset(expected) <==> LeasesMatch(q, leases)
  {
    var keys := Map(RowKey, leases);
    assert NoRepeat(expected) by {
      forall i, j | 0 <= i < j < |expected| ensures expected[i] != expected[j] { LessIrreflexive(expected[i]); }
    }
    if multiset(keys) == multiset(expected) {
      forall k ensures multiset(expected)[k] <= 1 { NoRepeatCounts(expected, k); }
      NoRepeatWithin(keys, multiset(expected));
      forall k ensures k in keys <==> k in expected { MemberPermutes(keys, expected, k); }
    } else if LeasesMatch(q, leases) {
      SameElements(keys, expected);
    }
  }

  /** `receiptFences`: exactly the leases the request calls for, in any order. */
  method ReceiptFences(q: Request, leases: seq<LeaseRow>, owner: string, tenant: string, repository: string)
    returns (r: Outcome<seq<Fence>>)
    requires RequestScopes(q) && '\0' !in q.deliveryId
    ensures r.Ok? <==>
      owner != "" && leases != [] && LeasesMatch(q, leases) && forall l :: l in leases ==> Consistent(l, owner, tenant, repository)
    ensures r.Ok? ==> r.value == Sort(FenceLess, Map(FenceOf, leases)) && Climbing(Map(FenceKey, r.value))
  {
    var expected := ExpectedDeliveryFenceKeys(q);
    forall k | k in expected ensures WellKeyed(k) { ExpectedKeysWell(q, k); }
    MatchesExpected(q, leases, expected);
    r := MatchFences(leases, owner, tenant, repository, expected);
  }

  lemma KeysDecideFences(a: seq<LeaseRow>, expected: seq<string>)
    requires Climbing(expected) && multiset(Map(RowKey, a)) == multiset(expected)
    ensures NoTies(FenceLess, Map(FenceOf, a))
  {
    var keys := Map(RowKey, a);
    StringOrder();
    assert NoTies(Less, expected);
    NoTiesTransfers(Less, expected, keys);
    var fences := Map(FenceOf, a);
    forall i, j | 0 <= i < j < |fences| ensures FenceLess(fences[i], fences[j]) || FenceLess(fences[j], fences[i]) {
      assert Less(keys[i], keys[j]) || Less(keys[j], keys[i]);
      LessTotal(fences[i].kind, fences[j].kind);
      LessTotal(fences[i].id, fences[j].id);
    }
  }

  /** Whatever order the leases come in, the receipt carries the same fences. */
  lemma FencesForgetOrder(a: seq<LeaseRow>, b: seq<LeaseRow>, expected: seq<string>)
    requires Climbing(expected) && multiset(a) == multiset(b) && multiset(Map(RowKey, a)) == multiset(expected)
    ensures Sort(FenceLess, Map(FenceOf, a)) == Sort(FenceLess, Map(FenceOf, b))
  {
    KeysDecideFences(a, expected);
    MapPermutes(FenceOf, a, b);
    FenceOrder();
    SortForgetsOrder(FenceLess, Map(FenceOf, a), Map(FenceOf, b));
  }
}
