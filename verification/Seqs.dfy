/** Mapping and filtering lists, up to the order of their elements. */
module Seqs {

  /** Always true. A predicate that would burden proofs which merely pass it on
      stands under a quantifier whose only trigger is `Open`; a proof that needs its
      content says `assert Open(0)`, or names the value it wants it for. */
  predicate Open<T>(x: T) { true }

  function Map<A, B>(f: A -> B, s: seq<A>): (r: seq<B>)
    ensures |r| == |s| && forall i :: 0 <= i < |s| ==> r[i] == f(s[i])
  {
    if s == [] then [] else [f(s[0])] + Map(f, s[1..])
  }

  function Filter<A>(p: A -> bool, s: seq<A>): seq<A> {
    if s == [] then [] else (if p(s[0]) then [s[0]] else []) + Filter(p, s[1..])
  }

  lemma MapAppend<A, B>(f: A -> B, a: seq<A>, b: seq<A>)
    ensures Map(f, a + b) == Map(f, a) + Map(f, b)
  {}

  lemma {:induction false} FilterAppend<A>(p: A -> bool, a: seq<A>, b: seq<A>)
    ensures Filter(p, a + b) == Filter(p, a) + Filter(p, b)
  {
    if a == [] {
      assert a + b == b;
    } else {
      var first := if p(a[0]) then [a[0]] else [];
      assert (a + b)[0] == a[0] && (a + b)[1..] == a[1..] + b;
      FilterAppend(p, a[1..], b);
      assert Filter(p, a + b) == first + Filter(p, a[1..] + b);
      assert first + (Filter(p, a[1..]) + Filter(p, b)) == (first + Filter(p, a[1..])) + Filter(p, b);
    }
  }

  lemma {:induction false} FilterMember<A>(p: A -> bool, s: seq<A>, x: A)
    ensures x in Filter(p, s) <==> x in s && p(x)
  {
    if s != [] {
      assert s == [s[0]] + s[1..];
      FilterMember(p, s[1..], x);
    }
  }

  lemma {:induction false} FilterSame<A>(p: A -> bool, q: A -> bool, s: seq<A>)
    requires forall x :: x in s ==> p(x) == q(x)
    ensures Filter(p, s) == Filter(q, s)
  {
    if s != [] { FilterSame(p, q, s[1..]); }
  }

  lemma {:induction false} FilterNone<A>(p: A -> bool, s: seq<A>)
    requires forall x :: x in s ==> !p(x)
    ensures Filter(p, s) == []
  {
    if s != [] { FilterNone(p, s[1..]); }
  }

  lemma {:induction false} FilterAll<A>(p: A -> bool, s: seq<A>)
    requires forall x :: x in s ==> p(x)
    ensures Filter(p, s) == s
  {
    if s != [] { FilterAll(p, s[1..]); }
  }

  /** Filtering after mapping is mapping what the composed test keeps. */
  lemma {:induction false} FilterMap<A, B>(p: B -> bool, f: A -> B, s: seq<A>)
    ensures Filter(p, Map(f, s)) == Map(f, Filter(x => p(f(x)), s))
  {
    if s != [] {
      assert Map(f, s)[1..] == Map(f, s[1..]);
      FilterMap(p, f, s[1..]);
    }
  }

  lemma MapSame<A, B>(f: A -> B, g: A -> B, s: seq<A>)
    requires forall x :: x in s ==> f(x) == g(x)
    ensures Map(f, s) == Map(g, s)
  {
    assert forall i :: 0 <= i < |s| ==> f(s[i]) == g(s[i]);
  }

  lemma MapMember<A, B>(f: A -> B, s: seq<A>, y: B)
    requires y in Map(f, s)
    ensures exists x :: x in s && f(x) == y
  {
    var i :| 0 <= i < |s| && Map(f, s)[i] == y;
    assert s[i] in s;
  }

  /** Taking one element out of a list, wherever it is. */
  lemma Removed<A>(s: seq<A>, k: nat)
    requires k < |s|
    ensures multiset(s[..k] + s[k+1..]) == multiset(s) - multiset{s[k]}
    ensures multiset(s) == multiset(s[..k] + s[k+1..]) + multiset{s[k]}
  {
    assert s == s[..k] + [s[k]] + s[k+1..];
  }

  lemma MapWithout<A, B>(f: A -> B, s: seq<A>, k: nat)
    requires k < |s|
    ensures Map(f, s[..k] + s[k+1..]) == Map(f, s)[..k] + Map(f, s)[k+1..]
  {
    var rest, image := s[..k] + s[k+1..], Map(f, s);
    var cut := image[..k] + image[k+1..];
    assert |Map(f, rest)| == |cut|;
    forall i | 0 <= i < |rest| ensures Map(f, rest)[i] == cut[i] {
      if i >= k { assert rest[i] == s[i+1] && cut[i] == image[i+1]; }
    }
  }

  lemma MapRemoved<A, B>(f: A -> B, s: seq<A>, k: nat)
    requires k < |s|
    ensures multiset(Map(f, s)) == multiset(Map(f, s[..k] + s[k+1..])) + multiset{f(s[k])}
  {
    var image := Map(f, s);
    MapWithout(f, s, k);
    Removed(image, k);
  }

  /** Permutations stay permutations when the first element of one is taken out of both. */
  lemma PermutedTail<A>(a: seq<A>, b: seq<A>) returns (k: nat)
    requires a != [] && multiset(a) == multiset(b)
    ensures k < |b| && b[k] == a[0] && multiset(a[1..]) == multiset(b[..k] + b[k+1..])
  {
    assert a[0] in multiset(b);
    k :| 0 <= k < |b| && b[k] == a[0];
    Removed(b, k);
    assert a == [a[0]] + a[1..];
  }

  lemma {:induction false} MapPermutes<A, B>(f: A -> B, a: seq<A>, b: seq<A>)
    requires multiset(a) == multiset(b)
    ensures multiset(Map(f, a)) == multiset(Map(f, b))
  {
    if a == [] {
      assert |multiset(b)| == 0;
    } else {
      var k := PermutedTail(a, b);
      MapPermutes(f, a[1..], b[..k] + b[k+1..]);
      MapRemoved(f, b, k);
      assert Map(f, a) == [f(a[0])] + Map(f, a[1..]);
    }
  }

  lemma FilterPermutes<A(!new)>(p: A -> bool, a: seq<A>, b: seq<A>)
    requires multiset(a) == multiset(b)
    ensures multiset(Filter(p, a)) == multiset(Filter(p, b))
  {
    forall x ensures multiset(Filter(p, a))[x] == multiset(Filter(p, b))[x] {
      FilterCount(p, a, x);
      FilterCount(p, b, x);
    }
  }

  lemma {:induction false} FilterCount<A>(p: A -> bool, s: seq<A>, x: A)
    ensures multiset(Filter(p, s))[x] == if p(x) then multiset(s)[x] else 0
  {
    if s != [] {
      assert s == [s[0]] + s[1..];
      FilterCount(p, s[1..], x);
    }
  }

  lemma MemberPermutes<A>(a: seq<A>, b: seq<A>, x: A)
    requires multiset(a) == multiset(b)
    ensures x in a <==> x in b
  {
    assert x in a <==> x in multiset(a);
    assert x in b <==> x in multiset(b);
  }

  lemma {:induction false} FilterDisjoint<A(!new)>(p: A -> bool, q: A -> bool, r: A -> bool, s: seq<A>)
    requires forall x :: x in s ==> (r(x) <==> p(x) || q(x)) && !(p(x) && q(x))
    ensures multiset(Filter(r, s)) == multiset(Filter(p, s)) + multiset(Filter(q, s))
  {
    if s != [] { FilterDisjoint(p, q, r, s[1..]); }
  }

  lemma FilterMapDisjoint<A(!new), B>(f: A -> B, p: A -> bool, q: A -> bool, r: A -> bool, s: seq<A>)
    requires forall x :: x in s ==> (r(x) <==> p(x) || q(x)) && !(p(x) && q(x))
    ensures multiset(Map(f, Filter(r, s))) == multiset(Map(f, Filter(p, s))) + multiset(Map(f, Filter(q, s)))
  {
    FilterDisjoint(p, q, r, s);
    MapPermutes(f, Filter(r, s), Filter(p, s) + Filter(q, s));
    MapAppend(f, Filter(p, s), Filter(q, s));
  }

  /** The lists `f` gives for each element, end to end. */
  function FlatMap<A, B>(f: A -> seq<B>, s: seq<A>): seq<B> {
    if s == [] then [] else f(s[0]) + FlatMap(f, s[1..])
  }

  lemma {:induction false} FlatMapAppend<A, B>(f: A -> seq<B>, a: seq<A>, b: seq<A>)
    ensures FlatMap(f, a + b) == FlatMap(f, a) + FlatMap(f, b)
  {
    if a == [] {
      assert a + b == b;
    } else {
      assert (a + b)[1..] == a[1..] + b;
      FlatMapAppend(f, a[1..], b);
    }
  }

  lemma {:induction false} FlatMapMember<A, B>(f: A -> seq<B>, s: seq<A>, y: B)
    requires y in FlatMap(f, s)
    ensures exists x :: x in s && y in f(x)
  {
    if y !in f(s[0]) { FlatMapMember(f, s[1..], y); }
  }

  lemma {:induction false} FlatMapHolds<A, B>(f: A -> seq<B>, s: seq<A>, x: A, y: B)
    requires x in s && y in f(x)
    ensures y in FlatMap(f, s)
  {
    if x != s[0] { FlatMapHolds(f, s[1..], x, y); }
  }

  lemma FlatMapRemoved<A, B>(f: A -> seq<B>, s: seq<A>, k: nat)
    requires k < |s|
    ensures multiset(FlatMap(f, s)) == multiset(FlatMap(f, s[..k] + s[k+1..])) + multiset(f(s[k]))
  {
    var x, y := s[..k], s[k+1..];
    assert s == x + [s[k]] + y;
    FlatMapAppend(f, x + [s[k]], y);
    FlatMapAppend(f, x, [s[k]]);
    FlatMapAppend(f, x, y);
    assert FlatMap(f, [s[k]]) == f(s[k]);
  }

  lemma {:induction false} FlatMapPermutes<A, B>(f: A -> seq<B>, a: seq<A>, b: seq<A>)
    requires multiset(a) == multiset(b)
    ensures multiset(FlatMap(f, a)) == multiset(FlatMap(f, b))
  {
    if a == [] {
      assert |multiset(b)| == 0;
    } else {
      var k := PermutedTail(a, b);
      FlatMapPermutes(f, a[1..], b[..k] + b[k+1..]);
      FlatMapRemoved(f, b, k);
      assert FlatMap(f, a) == f(a[0]) + FlatMap(f, a[1..]);
    }
  }

  ghost predicate NoRepeat<A>(s: seq<A>) { forall i, j :: 0 <= i < j < |s| ==> s[i] != s[j] }

  lemma {:induction false} NoRepeatCounts<A>(s: seq<A>, x: A)
    requires NoRepeat(s)
    ensures multiset(s)[x] <= 1
  {
    if s != [] {
      assert s == [s[0]] + s[1..];
      assert NoRepeat(s[1..]) by {
        forall i, j | 0 <= i < j < |s[1..]| ensures s[1..][i] != s[1..][j] { assert s[i+1] != s[j+1]; }
      }
      NoRepeatCounts(s[1..], x);
      if x == s[0] { assert x !in s[1..]; }
    }
  }

  /** Repetition-free lists with the same elements are permutations of each other. */
  lemma SameElements<A(!new)>(a: seq<A>, b: seq<A>)
    requires NoRepeat(a) && NoRepeat(b) && forall x :: x in a <==> x in b
    ensures multiset(a) == multiset(b)
  {
    forall x ensures multiset(a)[x] == multiset(b)[x] {
      NoRepeatCounts(a, x);
      NoRepeatCounts(b, x);
      assert x in a <==> x in multiset(a);
      assert x in b <==> x in multiset(b);
    }
  }

  /** A list within a repetition-free bag has no repetition. */
  lemma NoRepeatWithin<A(!new)>(s: seq<A>, all: multiset<A>)
    requires multiset(s) <= all && forall x :: all[x] <= 1
    ensures NoRepeat(s)
  {
    forall i, j | 0 <= i < j < |s| && s[i] == s[j] ensures false { TwiceCounted(s, i, j); }
  }

  lemma TwiceCounted<A>(s: seq<A>, i: nat, j: nat)
    requires i < j < |s| && s[i] == s[j]
    ensures multiset(s)[s[i]] >= 2
  {
    assert s == s[..i] + [s[i]] + s[i+1..j] + [s[j]] + s[j+1..];
  }

  // ------------------------------------------------------------------- sizes

  lemma {:induction false} ElementsBound<A>(s: seq<A>)
    ensures |set x | x in s| <= |s|
  {
    if s != [] {
      ElementsBound(s[1..]);
      assert (set x | x in s) == {s[0]} + set x | x in s[1..];
    }
  }

  lemma {:induction false} ElementsCounted<A>(s: seq<A>)
    requires NoRepeat(s)
    ensures |set x | x in s| == |s|
  {
    if s != [] {
      assert s[0] !in s[1..];
      assert forall i, j :: 0 <= i < j < |s[1..]| ==> s[1..][i] == s[i+1] && s[1..][j] == s[j+1];
      ElementsCounted(s[1..]);
      assert (set x | x in s) == {s[0]} + set x | x in s[1..];
    }
  }

  lemma NotLarger<A>(x: set<A>, y: set<A>)
    requires x <= y && |y| <= |x|
    ensures x == y
  {
    if e :| e in y && e !in x {
      assert x + {e} <= y;
      SubsetSize(x + {e}, y);
    }
  }

  lemma SubsetSize<A>(x: set<A>, y: set<A>)
    requires x <= y
    ensures |x| <= |y|
  {
    assert y == x + (y - x);
  }

  /** A list without repetition that stays within a list no longer than itself has all its elements. */
  lemma FillsUp<A(!new)>(a: seq<A>, b: seq<A>)
    requires NoRepeat(a) && |b| <= |a| && forall x :: x in a ==> x in b
    ensures forall x :: x in a <==> x in b
  {
    ElementsCounted(a);
    ElementsBound(b);
    var p, q := set x | x in a, set x | x in b;
    assert p <= q;
    NotLarger(p, q);
    forall x ensures x in a <==> x in b { assert x in a <==> x in p; assert x in b <==> x in q; }
  }
}
