/** Byte order on strings, and sorting under an arbitrary comparator.
    Go's `sort.Slice` is unstable: it promises only some sorted permutation.
    `SortedUnique` shows that without ties there is exactly one, so the
    insertion sort below stands for whatever the library returns. */
module Ordering {

  /** Go's `<` on strings. */
  predicate Less(a: string, b: string) {
    if b == "" then false
    else if a == "" then true
    else a[0] < b[0] || (a[0] == b[0] && Less(a[1..], b[1..]))
  }

  lemma LessIrreflexive(a: string)
    ensures !Less(a, a)
  {
    if a != "" { LessIrreflexive(a[1..]); }
  }

  lemma {:induction false} LessTransitive(a: string, b: string, c: string)
    requires Less(a, b) && Less(b, c)
    ensures Less(a, c)
  {
    if a != "" && a[0] == b[0] && b[0] == c[0] {
      LessTransitive(a[1..], b[1..], c[1..]);
    }
  }

  lemma {:induction false} LessTotal(a: string, b: string)
    ensures Less(a, b) || Less(b, a) || a == b
  {
    if a == "" || b == "" {
    } else if a[0] == b[0] {
      LessTotal(a[1..], b[1..]);
      assert a == [a[0]] + a[1..] && b == [b[0]] + b[1..];
    }
  }

  /** A comparator whose ties form an equivalence, as `sort.Slice` requires. */
  ghost predicate WeakOrder<T(!new)>(less: (T, T) -> bool) {
    && (forall x :: !less(x, x))
    && (forall x, y, z :: less(x, y) && less(y, z) ==> less(x, z))
    && (forall x, y, z :: less(x, z) ==> less(x, y) || less(y, z))
  }

  ghost predicate Sorted<T>(less: (T, T) -> bool, s: seq<T>) {
    forall i, j :: 0 <= i < j < |s| ==> !less(s[j], s[i])
  }

  /** No two positions compare equal. */
  ghost predicate NoTies<T>(less: (T, T) -> bool, s: seq<T>) {
    forall i, j :: 0 <= i < j < |s| ==> less(s[i], s[j]) || less(s[j], s[i])
  }

  lemma StringOrder()
    ensures WeakOrder(Less)
    ensures forall a, b :: a == b || Less(a, b) || Less(b, a)
  {
    forall a, b ensures a == b || Less(a, b) || Less(b, a) { LessTotal(a, b); }
    forall a ensures !Less(a, a) { LessIrreflexive(a); }
    forall a, b, c | Less(a, b) && Less(b, c) ensures Less(a, c) { LessTransitive(a, b, c); }
    forall a, b, c | Less(a, c) ensures Less(a, b) || Less(b, c) {
      LessTotal(a, b);
      if Less(b, a) { LessTransitive(b, a, c); }
    }
  }

  function Insert<T>(less: (T, T) -> bool, x: T, s: seq<T>): seq<T> {
    if s == [] then [x]
    else if less(x, s[0]) then [x] + s
    else [s[0]] + Insert(less, x, s[1..])
  }

  function Sort<T>(less: (T, T) -> bool, s: seq<T>): seq<T> {
    if s == [] then [] else Insert(less, s[0], Sort(less, s[1..]))
  }

  lemma {:induction false} InsertPermutes<T>(less: (T, T) -> bool, x: T, s: seq<T>)
    ensures multiset(Insert(less, x, s)) == multiset{x} + multiset(s)
  {
    if s != [] {
      assert s == [s[0]] + s[1..];
      if !less(x, s[0]) { InsertPermutes(less, x, s[1..]); }
    }
  }

  lemma {:induction false} SortPermutes<T>(less: (T, T) -> bool, s: seq<T>)
    ensures multiset(Sort(less, s)) == multiset(s)
    ensures |Sort(less, s)| == |s|
  {
    if s != [] {
      assert s == [s[0]] + s[1..];
      SortPermutes(less, s[1..]);
      InsertPermutes(less, s[0], Sort(less, s[1..]));
    }
    MultisetSize(Sort(less, s), s);
  }

  lemma MultisetSize<T>(a: seq<T>, b: seq<T>)
    requires multiset(a) == multiset(b)
    ensures |a| == |b|
  {
    assert |multiset(a)| == |a| && |multiset(b)| == |b|;
  }

  lemma {:induction false} InsertSorts<T(!new)>(less: (T, T) -> bool, x: T, s: seq<T>)
    requires WeakOrder(less) && Sorted(less, s)
    ensures Sorted(less, Insert(less, x, s))
  {
    if s != [] {
      var r := Insert(less, x, s);
      if less(x, s[0]) {
        assert forall j :: 0 <= j < |s| ==> !less(s[j], x);
      } else {
        var rest := Insert(less, x, s[1..]);
        InsertSorts(less, x, s[1..]);
        InsertPermutes(less, x, s[1..]);
        forall i, j | 0 <= i < j < |r| ensures !less(r[j], r[i]) {
          if i == 0 {
            assert r[j] == rest[j-1] && rest[j-1] in multiset(rest);
            assert r[j] == x || r[j] in s[1..];
          } else {
            assert r[i] == rest[i-1] && r[j] == rest[j-1];
          }
        }
      }
    }
  }

  lemma {:induction false} SortSorts<T(!new)>(less: (T, T) -> bool, s: seq<T>)
    requires WeakOrder(less)
    ensures Sorted(less, Sort(less, s))
  {
    if s != [] {
      SortSorts(less, s[1..]);
      InsertSorts(less, s[0], Sort(less, s[1..]));
    }
  }

  /** Only one sorted arrangement exists when nothing ties. */
  lemma {:induction false} SortedUnique<T>(less: (T, T) -> bool, a: seq<T>, b: seq<T>)
    requires Sorted(less, a) && Sorted(less, b) && NoTies(less, a)
    requires multiset(a) == multiset(b)
    ensures a == b
  {
    MultisetSize(a, b);
    if a != [] {
      FirstsAgree(less, a, b);
      TailMultiset(a);
      TailMultiset(b);
      SortedUnique(less, a[1..], b[1..]);
      assert a == [a[0]] + a[1..] && b == [b[0]] + b[1..];
    }
  }

  lemma TailMultiset<T>(s: seq<T>)
    requires s != []
    ensures multiset(s[1..]) == multiset(s) - multiset{s[0]}
  {
    assert s == [s[0]] + s[1..];
  }

  lemma FirstsAgree<T>(less: (T, T) -> bool, a: seq<T>, b: seq<T>)
    requires Sorted(less, a) && Sorted(less, b) && NoTies(less, a)
    requires a != [] && b != [] && multiset(a) == multiset(b)
    ensures a[0] == b[0]
  {
    assert a[0] in multiset(a) && b[0] in multiset(b);
    assert a[0] in b && b[0] in a;
    var m :| 0 <= m < |a| && a[m] == b[0];
    var k :| 0 <= k < |b| && b[k] == a[0];
    assert m == 0 || k == 0;
  }

  lemma NoTiesTransfers<T>(less: (T, T) -> bool, a: seq<T>, b: seq<T>)
    requires NoTies(less, a) && multiset(a) == multiset(b)
    requires forall x :: x in a ==> !less(x, x)
    ensures NoTies(less, b)
  {
    forall i, j | 0 <= i < j < |b| ensures less(b[i], b[j]) || less(b[j], b[i]) {
      if b[i] == b[j] {
        PairCount(b, i, j);
        RepeatedAt(a, b[i]);
      } else {
        assert b[i] in multiset(b) && b[j] in multiset(b);
        var p :| 0 <= p < |a| && a[p] == b[i];
        var q :| 0 <= q < |a| && a[q] == b[j];
      }
    }
  }

  lemma PairCount<T>(s: seq<T>, i: nat, j: nat)
    requires i < j < |s| && s[i] == s[j]
    ensures multiset(s)[s[i]] >= 2
  {
    assert s == s[..i] + [s[i]] + s[i+1..j] + [s[j]] + s[j+1..];
  }

  lemma RepeatedAt<T>(s: seq<T>, x: T)
    requires multiset(s)[x] >= 2
    ensures exists i, j :: 0 <= i < j < |s| && s[i] == x && s[j] == x
  {
    assert x in multiset(s);
    var i :| 0 <= i < |s| && s[i] == x;
    assert s == s[..i] + [s[i]] + s[i+1..];
    assert x in multiset(s[..i]) || x in multiset(s[i+1..]);
    if x in s[..i] {
      var k :| 0 <= k < i && s[..i][k] == x;
      assert s[k] == x;
    } else {
      var k :| 0 <= k < |s[i+1..]| && s[i+1..][k] == x;
      assert s[i+1+k] == x;
    }
  }

  /** Sorting forgets the order its input came in. */
  lemma SortForgetsOrder<T(!new)>(less: (T, T) -> bool, a: seq<T>, b: seq<T>)
    requires WeakOrder(less) && NoTies(less, a) && multiset(a) == multiset(b)
    ensures Sort(less, a) == Sort(less, b)
  {
    SortSorts(less, a);
    SortSorts(less, b);
    SortPermutes(less, a);
    SortPermutes(less, b);
    NoTiesTransfers(less, a, Sort(less, a));
    SortedUnique(less, Sort(less, a), Sort(less, b));
  }

  function Members<A>(s: seq<A>): set<A> { set x | x in s }

  lemma {:induction false} PrefixSize<A>(s: seq<A>, i: nat)
    requires (forall k, l :: 0 <= k < l < |s| ==> s[k] != s[l]) && i <= |s|
    ensures |Members(s[..i])| == i
  {
    if i > 0 {
      PrefixSize(s, i - 1);
      var last := s[i - 1];
      assert s[..i] == s[..i - 1] + [last];
      assert Members(s[..i]) == Members(s[..i - 1]) + {last};
      assert last !in s[..i - 1];
    }
  }

  /** The members whose image comes before `c`. */
  ghost function Predecessors<A, B>(f: A -> B, less: (B, B) -> bool, ids: set<A>, c: B): set<A> {
    set x | x in ids && less(f(x), c)
  }

  /** In a strictly sorted list of images each element has as many predecessors as its index says. */
  lemma StrictRank<A(!new), B(!new)>(f: A -> B, g: B -> A, less: (B, B) -> bool, ids: set<A>, sorted: seq<B>, i: nat)
    requires i < |sorted| && forall x, y :: less(x, y) ==> !less(y, x)
    requires forall k, l :: 0 <= k < l < |sorted| ==> less(sorted[k], sorted[l])
    requires forall x :: x in ids ==> f(x) in sorted && g(f(x)) == x
    requires forall c :: c in sorted ==> g(c) in ids && f(g(c)) == c
    ensures |Predecessors(f, less, ids, sorted[i])| == i
  {
    var names := seq(|sorted|, k requires 0 <= k < |sorted| => g(sorted[k]));
    forall k | 0 <= k < |sorted| ensures names[k] in ids && f(names[k]) == sorted[k] { assert sorted[k] in sorted; }
    forall k, l | 0 <= k < l < |names| ensures names[k] != names[l] { assert less(sorted[k], sorted[l]); }
    PrefixSize(names, i);
    forall x ensures x in Members(names[..i]) <==> x in ids && less(f(x), sorted[i]) {
      if x in names[..i] {
        var k :| 0 <= k < i && names[..i][k] == x;
        assert less(sorted[k], sorted[i]);
      }
      if x in ids && less(f(x), sorted[i]) {
        var k :| 0 <= k < |sorted| && sorted[k] == f(x);
        assert k < i;
        assert names[..i][k] == x;
      }
    }
    assert Members(names[..i]) == Predecessors(f, less, ids, sorted[i]);
  }
}
