/** The scope and fence algebra of delivery requests. */
module Scopes {
  import opened Ordering
  import opened Seqs
  import opened Cards
  import opened Bundles

  /** `coveredByScope` for one scope: the scope itself or anything below it. */
  predicate Covers(scope: string, path: string) { path == scope || HasPrefix(path, scope + "/") }

  predicate Covered(path: string, scopes: seq<string>) { exists s :: s in scopes && Covers(s, path) }

  method CoveredByScope(path: string, scopes: seq<string>) returns (covered: bool)
    ensures covered <==> Covered(path, scopes)
  {
    for i := 0 to |scopes|
      invariant forall k :: 0 <= k < i ==> !Covers(scopes[k], path)
    {
      if Covers(scopes[i], path) { return true; }
    }
    covered := false;
  }

  // --------------------------------------------------------------- covering

  lemma CoversTransitive(a: string, b: string, c: string)
    requires Covers(a, b) && Covers(b, c)
    ensures Covers(a, c)
  {
    if a != b && b != c {
      assert c[..|b|] == b;
      assert c[..|a|+1] == c[..|b|][..|a|+1];
    }
  }

  /** Of two scopes over one path, the shorter covers the longer. */
  lemma CoversComparable(a: string, b: string, path: string)
    requires Covers(a, path) && Covers(b, path) && |a| <= |b|
    ensures Covers(a, b)
  {
    assert path[..|b|] == b;
    if |a| == |b| {
      assert path[..|a|] == a;
    } else {
      assert path[..|a|+1] == a + "/";
      assert b[..|a|+1] == path[..|b|][..|a|+1];
    }
  }

  lemma {:induction false} PrefixLess(p: string, s: string)
    requires HasPrefix(s, p) && |p| < |s|
    ensures Less(p, s)
  {
    if p != "" {
      assert s[0] == p[0] && s[1..][..|p|-1] == p[1..];
      PrefixLess(p[1..], s[1..]);
    }
  }

  lemma CoverLess(a: string, b: string)
    requires Covers(a, b) && a != b
    ensures Less(a, b)
  {
    assert HasPrefix(b, a) by { assert b[..|a|] == (a + "/")[..|a|]; }
    PrefixLess(a, b);
  }

  // ------------------------------------------------------------- scope lists

  predicate CanonicalScope(v: string, allowRoot: bool) {
    && '\\' !in v && '\0' !in v
    && ((allowRoot && v == ".") || forall g :: g in Segments(v) ==> g != "" && g != "." && g != "..")
  }

  ghost predicate Climbing(s: seq<string>) { forall i, j :: 0 <= i < j < |s| ==> Less(s[i], s[j]) }

  /** No scope covers another. */
  ghost predicate Antichain(s: seq<string>) { forall i, j :: 0 <= i < |s| && 0 <= j < |s| && i != j ==> !Covers(s[i], s[j]) }

  /** The scope lists `validateCanonicalScopes` accepts. */
  ghost predicate ScopeList(s: seq<string>, allowRoot: bool) {
    && s != [] && Climbing(s) && (forall v :: v in s ==> CanonicalScope(v, allowRoot))
    && (allowRoot && "." in s ==> |s| == 1)
    && Antichain(s)
  }

  lemma {:induction false} AdjacentClimb(s: seq<string>, i: nat, j: nat)
    requires i < j < |s| && forall k :: 0 < k < |s| ==> Less(s[k-1], s[k])
    ensures Less(s[i], s[j])
    decreases j
  {
    if i < j - 1 {
      AdjacentClimb(s, i, j - 1);
      LessTransitive(s[i], s[j-1], s[j]);
    }
  }

  /** `sortedUnique`: neighbours are enough. */
  method CheckClimbing(s: seq<string>) returns (ok: bool)
    ensures ok <==> Climbing(s)
  {
    if s == [] { return true; }
    for i := 1 to |s|
      invariant forall k :: 0 < k < i ==> Less(s[k-1], s[k])
    {
      if !Less(s[i-1], s[i]) { return false; }
    }
    ok := true;
    forall i, j | 0 <= i < j < |s| ensures Less(s[i], s[j]) { AdjacentClimb(s, i, j); }
  }

  /** A later scope never covers an earlier one, so checking against the earlier ones suffices. */
  lemma EarlierSuffices(s: seq<string>)
    requires Climbing(s) && forall i :: 0 <= i < |s| ==> !Covered(s[i], s[..i])
    ensures Antichain(s)
  {
    forall i, j | 0 <= i < |s| && 0 <= j < |s| && i != j ensures !Covers(s[i], s[j]) {
      if i < j { assert s[..j][i] == s[i]; } else { LaterNeverCovers(s[j], s[i]); }
    }
  }

  lemma LaterNeverCovers(a: string, b: string)
    requires Less(a, b)
    ensures !Covers(b, a)
  {
    StringOrder();
    if Covers(b, a) && a != b { CoverLess(b, a); }
  }

  lemma OverlapRefused(s: seq<string>, i: nat)
    requires i < |s| && Covered(s[i], s[..i])
    ensures !Antichain(s)
  {
    var p :| p in s[..i] && Covers(p, s[i]);
    var k :| 0 <= k < i && s[..i][k] == p;
    assert Covers(s[k], s[i]);
  }

  method ValidateCanonicalScopes(s: seq<string>, allowRoot: bool) returns (ok: bool)
    ensures ok <==> ScopeList(s, allowRoot)
  {
    var climbing := CheckClimbing(s);
    if s == [] || !climbing { return false; }
    if exists v :: v in s && !CanonicalScope(v, allowRoot) { return false; }
    if allowRoot && "." in s && |s| != 1 { return false; }
    for i := 0 to |s|
      invariant forall k :: 0 <= k < i ==> !Covered(s[k], s[..k])
    {
      var covered := CoveredByScope(s[i], s[..i]);
      if covered {
        OverlapRefused(s, i);
        return false;
      }
    }
    EarlierSuffices(s);
    ok := true;
  }

  // --------------------------------------------------------------- requests

  datatype Request = Request(
    deliveryId: string, readScopes: seq<string>, writeScopes: seq<string>, artifactScopes: seq<string>, evidenceScope: string)

  /** The scope part of `ValidateDeliveryRequest`. */
  ghost predicate RequestScopes(q: Request) {
    && ScopeList(q.readScopes, true) && ScopeList(q.writeScopes, false) && ScopeList(q.artifactScopes, false)
    && ScopeList(Sort(Less, q.writeScopes + q.artifactScopes), false)
    && CanonicalScope(q.evidenceScope, false) && Covered(q.evidenceScope, q.artifactScopes)
  }

  method ValidateRequestScopes(q: Request) returns (ok: bool)
    ensures ok <==> RequestScopes(q)
  {
    ok := ValidateCanonicalScopes(q.readScopes, true);
    if !ok { return; }
    ok := ValidateCanonicalScopes(q.writeScopes, false);
    if !ok { return; }
    ok := ValidateCanonicalScopes(q.artifactScopes, false);
    if !ok { return; }
    ok := ValidateCanonicalScopes(Sort(Less, q.writeScopes + q.artifactScopes), false);
    if !ok || !CanonicalScope(q.evidenceScope, false) { return false; }
    ok := CoveredByScope(q.evidenceScope, q.artifactScopes);
  }

  /** Every path lies in at most one scope of an accepted list. */
  lemma OneScopePerPath(s: seq<string>, path: string, i: nat, j: nat)
    requires Antichain(s) && i < |s| && j < |s| && Covers(s[i], path) && Covers(s[j], path)
    ensures i == j
  {
    if |s[i]| <= |s[j]| { CoversComparable(s[i], s[j], path); } else { CoversComparable(s[j], s[i], path); }
  }

  lemma AntichainPermutes(a: seq<string>, b: seq<string>)
    requires Antichain(a) && multiset(a) == multiset(b)
    ensures Antichain(b)
  {
    var apart := (x: string, y: string) => !Covers(x, y) && !Covers(y, x);
    assert NoTies(apart, a) by { assert forall i, j :: 0 <= i < j < |a| ==> !Covers(a[i], a[j]) && !Covers(a[j], a[i]); }
    NoTiesTransfers(apart, a, b);
    assert forall i, j :: 0 <= i < j < |b| ==> !Covers(b[i], b[j]) && !Covers(b[j], b[i]) by {
      assert forall i, j :: 0 <= i < j < |b| ==> apart(b[i], b[j]) || apart(b[j], b[i]);
    }
  }

  lemma ListsApart(w: seq<string>, a: seq<string>, path: string)
    requires Antichain(w + a) && Covered(path, w)
    ensures !Covered(path, a)
  {
    var all := w + a;
    var i :| 0 <= i < |w| && Covers(w[i], path);
    forall j | 0 <= j < |a| ensures !Covers(a[j], path) {
      assert all[i] == w[i] && all[|w| + j] == a[j];
      if Covers(a[j], path) { OneScopePerPath(all, path, i, |w| + j); }
    }
  }

  /** A path of an accepted request is never both written and an artifact. */
  lemma WritesAndArtifactsApart(q: Request, path: string)
    requires RequestScopes(q)
    ensures !(Covered(path, q.writeScopes) && Covered(path, q.artifactScopes))
  {
    var all := q.writeScopes + q.artifactScopes;
    assert Antichain(all) by {
      SortPermutes(Less, all);
      AntichainPermutes(Sort(Less, all), all);
    }
    if Covered(path, q.writeScopes) { ListsApart(q.writeScopes, q.artifactScopes, path); }
  }

  /** What `ValidateDeliveryPublication` asks of the paths it is shown. */
  ghost predicate PathsApproved(q: Request, changed: seq<string>, evidence: seq<string>) {
    && (forall p :: p in changed ==> Covered(p, q.writeScopes))
    && (forall p :: p in evidence ==> Covered(p, [q.evidenceScope]))
  }

  /** The changed paths and the evidence entries of an accepted publication are disjoint. */
  lemma EvidenceApartFromChanges(q: Request, changed: seq<string>, evidence: seq<string>)
    requires RequestScopes(q) && PathsApproved(q, changed, evidence)
    ensures forall p :: p in changed ==> p !in evidence
  {
    forall p | p in changed && p in evidence ensures false {
      assert Covers(q.evidenceScope, p);
      var a :| a in q.artifactScopes && Covers(a, q.evidenceScope);
      CoversTransitive(a, q.evidenceScope, p);
      WritesAndArtifactsApart(q, p);
    }
  }

  /** The path checks of `ValidateDeliveryPublication`. */
  method ApprovePaths(q: Request, changed: seq<string>, evidence: seq<string>) returns (ok: bool)
    ensures ok <==> PathsApproved(q, changed, evidence)
    ensures ok && RequestScopes(q) ==> forall p :: p in changed ==> p !in evidence
  {
    for i := 0 to |changed|
      invariant forall k :: 0 <= k < i ==> Covered(changed[k], q.writeScopes)
    {
      var covered := CoveredByScope(changed[i], q.writeScopes);
      if !covered { return false; }
    }
    for i := 0 to |evidence|
      invariant forall k :: 0 <= k < i ==> Covered(evidence[k], [q.evidenceScope])
    {
      var covered := CoveredByScope(evidence[i], [q.evidenceScope]);
      if !covered { return false; }
    }
    ok := true;
    if RequestScopes(q) { EvidenceApartFromChanges(q, changed, evidence); }
  }
}
