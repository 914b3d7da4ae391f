/** `FuseRetrievalRanks`: weighted reciprocal rank fusion of two bounded lists,
    with scores as reals. */
module Fusion {
  import opened Ordering
  import opened Seqs
  import opened Cards
  import opened LineageComparison

  /** `payload` stands for the fields copied from a point but not compared. */
  datatype Point = Point(id: string, entity: string, hash: string, payload: string)

  datatype Policy = Policy(limit: int, denseLimit: int, sparseLimit: int, denseWeight: real, sparseWeight: real, k: int)

  datatype Candidate = Candidate(
    id: string, entity: string, hash: string, payload: string, score: real, dense: Option<int>, sparse: Option<int>)

  /** `validateRetrievalPolicy`. */
  predicate ValidPolicy(p: Policy) {
    && 1 <= p.limit <= 100 && p.limit <= p.denseLimit <= 200 && p.limit <= p.sparseLimit <= 200 && 1 <= p.k <= 1000
    && 0.0 <= p.denseWeight <= 10.0 && 0.0 <= p.sparseWeight <= 10.0 && !(p.denseWeight == 0.0 && p.sparseWeight == 0.0)
  }

  // -------------------------------------------------------------- what it computes

  /** Position of a point in a rank list. */
  function Find(points: seq<Point>, id: string): (r: Option<nat>)
    ensures r.Some? ==> r.value < |points| && points[r.value].id == id
  {
    if points == [] then None
    else
      var n := |points| - 1;
      var r := Find(points[..n], id);
      if r.Some? then r else if points[n].id == id then Some(n) else None
  }

  /** A list of weight zero is ignored altogether. */
  function Counted(points: seq<Point>, weight: real): seq<Point> { if weight == 0.0 then [] else points }

  /** Weight over rank, damped by the constant of the policy. */
  function Portion(weight: real, k: int, rank: int): real
    requires k >= 1 && rank >= 1
  {
    weight / (k + rank) as real
  }

  /** The share a list contributes to a point. */
  function Share(points: seq<Point>, weight: real, k: int, id: string): real
    requires k >= 1
  {
    var i := Find(points, id); if i.Some? then Portion(weight, k, i.value + 1) else 0.0
  }

  function RankIn(points: seq<Point>, id: string): Option<int> { RankAt(Find(points, id)) }

  function RankAt(i: Option<nat>): Option<int> { if i.Some? then Some(i.value + 1) else None }

  /** The fused candidate of a point in one list or both; the dense list's copy of it wins. */
  function Fused(dense: seq<Point>, sparse: seq<Point>, p: Policy, id: string): Candidate
    requires p.k >= 1
  {
    var point := Origin(dense, sparse, id);
    Candidate(id, point.entity, point.hash, point.payload,
      Share(dense, p.denseWeight, p.k, id) + Share(sparse, p.sparseWeight, p.k, id), RankIn(dense, id), RankIn(sparse, id))
  }

  function Ids(points: seq<Point>): set<string> { set p | p in points :: p.id }

  ghost predicate DistinctIds(points: seq<Point>) { forall i, j :: 0 <= i < j < |points| ==> points[i].id != points[j].id }

  ghost predicate SameIdentity(dense: seq<Point>, sparse: seq<Point>) {
    forall a, b :: a in dense && b in sparse && a.id == b.id ==> a.entity == b.entity && a.hash == b.hash
  }

  ghost predicate Fusable(valid: Point -> bool, dense: seq<Point>, sparse: seq<Point>, p: Policy) {
    && ValidPolicy(p) && |dense| <= p.denseLimit && |sparse| <= p.sparseLimit
    && (var d, s := Counted(dense, p.denseWeight), Counted(sparse, p.sparseWeight);
        && (forall x :: x in d + s ==> valid(x)) && DistinctIds(d) && DistinctIds(s) && SameIdentity(d, s))
  }

  /** Best score first; entity, then point, break ties. */
  predicate Before(a: Candidate, b: Candidate) {
    || a.score > b.score
    || (a.score == b.score && (Less(a.entity, b.entity) || (a.entity == b.entity && Less(a.id, b.id))))
  }

  lemma BeforeOrder()
    ensures WeakOrder(Before)
  {
    StringOrder();
  }

  function Fuser(dense: seq<Point>, sparse: seq<Point>, p: Policy): string -> Candidate {
    (id: string) => if p.k >= 1 then Fused(dense, sparse, p, id) else Candidate(id, "", "", "", 0.0, None, None)
  }

  /** The candidates of the given identifiers, best first, cut at the limit. */
  function Top(dense: seq<Point>, sparse: seq<Point>, p: Policy, ids: seq<string>): seq<Candidate> {
    var all := Sort(Before, Map(Fuser(Counted(dense, p.denseWeight), Counted(sparse, p.sparseWeight), p), ids));
    if 0 <= p.limit < |all| then all[..p.limit] else all
  }

  // ----------------------------------------------------------------- loop form

  ghost predicate Tabulates(scores: map<string, Candidate>, dense: seq<Point>, sparse: seq<Point>, p: Policy)
    requires p.k >= 1
  {
    && scores.Keys == Ids(dense) + Ids(sparse)
    && forall id :: id in scores ==> scores[id] == Fused(dense, sparse, p, id)
  }

  lemma FindAppend(points: seq<Point>, x: Point, id: string)
    ensures Find(points + [x], id) == if Find(points, id).Some? then Find(points, id) else if x.id == id then Some(|points|) else None
  {
    assert (points + [x])[..|points|] == points;
  }

  function DenseOnly(x: Point, share: real, rank: int): Candidate {
    Candidate(x.id, x.entity, x.hash, x.payload, share, Some(rank), None)
  }

  /** What a sparse point makes of the entry it meets. */
  function Joined(entry: Candidate, share: real, rank: int): Candidate { entry.(score := entry.score + share, sparse := Some(rank)) }

  function SparseOnly(x: Point, share: real, rank: int): Candidate {
    Candidate(x.id, x.entity, x.hash, x.payload, share, None, Some(rank))
  }

  lemma ShareAppend(points: seq<Point>, x: Point, weight: real, k: int, id: string)
    requires k >= 1 && Find(points, x.id).None?
    ensures Share(points + [x], weight, k, id)
      == if id == x.id then Portion(weight, k, |points| + 1) else Share(points, weight, k, id)
  {
    FindAppend(points, x, id);
  }

  lemma RankAppend(points: seq<Point>, x: Point, id: string)
    requires Find(points, x.id).None?
    ensures RankIn(points + [x], id) == if id == x.id then Some(|points| + 1) else RankIn(points, id)
  {
    var f, g := Find(points, id), Find(points + [x], id);
    assert g == if id == x.id then Some(|points|) else f by { FindAppend(points, x, id); }
    assert RankIn(points + [x], id) == RankAt(g) && RankIn(points, id) == RankAt(f);
  }

  /** The point a candidate copies its fields from. */
  function Origin(dense: seq<Point>, sparse: seq<Point>, id: string): Point {
    var d, s := Find(dense, id), Find(sparse, id);
    if d.Some? then dense[d.value] else if s.Some? then sparse[s.value] else Point(id, "", "", "")
  }

  lemma OriginDense(dense: seq<Point>, x: Point, id: string)
    requires Find(dense, x.id).None?
    ensures Origin(dense + [x], [], id) == if id == x.id then x else Origin(dense, [], id)
  {
    FindAppend(dense, x, id);
  }

  lemma OriginSparse(dense: seq<Point>, sparse: seq<Point>, x: Point, id: string)
    requires Find(sparse, x.id).None?
    ensures Origin(dense, sparse + [x], id) == if id == x.id && Find(dense, id).None? then x else Origin(dense, sparse, id)
  {
    FindAppend(sparse, x, id);
  }

  lemma FusedDense(dense: seq<Point>, p: Policy, x: Point, id: string)
    requires p.k >= 1 && Find(dense, x.id).None?
    ensures Fused(dense + [x], [], p, id)
      == if id == x.id then DenseOnly(x, Portion(p.denseWeight, p.k, |dense| + 1), |dense| + 1) else Fused(dense, [], p, id)
  {
    ShareAppend(dense, x, p.denseWeight, p.k, id);
    RankAppend(dense, x, id);
    OriginDense(dense, x, id);
  }

  lemma FusedSparse(dense: seq<Point>, sparse: seq<Point>, p: Policy, x: Point, id: string)
    requires p.k >= 1 && Find(sparse, x.id).None?
    ensures var share, rank := Portion(p.sparseWeight, p.k, |sparse| + 1), |sparse| + 1;
      Fused(dense, sparse + [x], p, id)
      == if id != x.id then Fused(dense, sparse, p, id)
         else if Find(dense, id).Some? then Joined(Fused(dense, sparse, p, id), share, rank)
         else SparseOnly(x, share, rank)
  {
    ShareAppend(sparse, x, p.sparseWeight, p.k, id);
    RankAppend(sparse, x, id);
    OriginSparse(dense, sparse, x, id);
  }

  lemma {:induction false} FindIds(points: seq<Point>, id: string)
    ensures Find(points, id).Some? <==> id in Ids(points)
  {
    if points != [] {
      var n := |points| - 1;
      assert points == points[..n] + [points[n]];
      FindIds(points[..n], id);
    }
  }

  /** One more point of the dense list. */
  lemma DenseStep(scores: map<string, Candidate>, dense: seq<Point>, p: Policy, x: Point, entry: Candidate)
    requires p.k >= 1 && Tabulates(scores, dense, [], p) && x.id !in scores
    requires entry == DenseOnly(x, Portion(p.denseWeight, p.k, |dense| + 1), |dense| + 1)
    ensures Tabulates(scores[x.id := entry], dense + [x], [], p)
  {
    var next := scores[x.id := entry];
    FindIds(dense, x.id);
    assert Ids(dense + [x]) == Ids(dense) + {x.id};
    forall id | id in next ensures next[id] == Fused(dense + [x], [], p, id) { FusedDense(dense, p, x, id); }
  }

  lemma SparseStep(scores: map<string, Candidate>, dense: seq<Point>, sparse: seq<Point>, p: Policy, x: Point, entry: Candidate)
    requires p.k >= 1 && Tabulates(scores, dense, sparse, p) && x.id !in Ids(sparse)
    requires var share, rank := Portion(p.sparseWeight, p.k, |sparse| + 1), |sparse| + 1;
      entry == if x.id in scores then Joined(scores[x.id], share, rank) else SparseOnly(x, share, rank)
    ensures Tabulates(scores[x.id := entry], dense, sparse + [x], p)
  {
    var next := scores[x.id := entry];
    FindIds(sparse, x.id);
    FindIds(dense, x.id);
    assert Ids(sparse + [x]) == Ids(sparse) + {x.id};
    forall id | id in next ensures next[id] == Fused(dense, sparse + [x], p, id) { FusedSparse(dense, sparse, p, x, id); }
  }

  /** `Tabulates`, which a proof unfolds only where it mentions `Open`. */
  ghost predicate Tallied(scores: map<string, Candidate>, dense: seq<Point>, sparse: seq<Point>, p: Policy) {
    forall k: int {:trigger Open(k)} :: Open(k) ==> p.k >= 1 && Tabulates(scores, dense, sparse, p)
  }

  lemma Tally(scores: map<string, Candidate>, dense: seq<Point>, sparse: seq<Point>, p: Policy)
    requires p.k >= 1
    ensures Tallied(scores, dense, sparse, p) <==> Tabulates(scores, dense, sparse, p)
  {
    assert Open(0);
  }

  lemma TallyEmpty(p: Policy)
    requires p.k >= 1
    ensures Tallied(map[], [], [], p)
  {}

  /** The first `i` points pass a test and repeat no identifier; unfolded only where a proof mentions `Open`. */
  ghost predicate Good(test: Point -> bool, points: seq<Point>, i: nat)
    requires i <= |points|
  {
    forall k: int {:trigger Open(k)} :: Open(k) ==>
      (forall j :: 0 <= j < i ==> test(points[j])) && (forall j, l :: 0 <= j < l < i ==> points[j].id != points[l].id)
  }

  lemma GoodNext(test: Point -> bool, points: seq<Point>, i: nat)
    requires i < |points| && Good(test, points, i)
    ensures Good(test, points, i + 1) <==> test(points[i]) && points[i].id !in Ids(points[..i])
    ensures Good(test, points, |points|) ==> Good(test, points, i + 1)
  {
    assert Open(0);
    if points[i].id in Ids(points[..i]) {
      var j :| 0 <= j < i && points[..i][j].id == points[i].id;
      assert points[j].id == points[i].id;
    } else {
      forall j | 0 <= j < i ensures points[j].id != points[i].id { assert points[..i][j] in points[..i]; }
    }
  }

  lemma GoodAll(test: Point -> bool, points: seq<Point>)
    ensures Good(test, points, |points|) <==> (forall x :: x in points ==> test(x)) && DistinctIds(points)
  {
    assert Open(0);
    if Good(test, points, |points|) {
      forall x | x in points ensures test(x) { var j :| 0 <= j < |points| && points[j] == x; }
    }
  }

  lemma NothingBad(test: Point -> bool, points: seq<Point>)
    ensures Good(test, points, 0)
  {}

  lemma NextPrefix(points: seq<Point>, i: nat)
    requires i < |points|
    ensures points[..i+1] == points[..i] + [points[i]] && Ids(points[..i+1]) == Ids(points[..i]) + {points[i].id}
  {
    assert points[..i+1] == points[..i] + [points[i]];
  }

  method AddPoint(valid: Point -> bool, ghost dense: seq<Point>, p: Policy, x: Point, rank: int, seen: set<string>,
                  before: map<string, Candidate>) returns (ok: bool, scores: map<string, Candidate>)
    requires p.k >= 1 && Tallied(before, dense, [], p) && seen == Ids(dense) && rank == |dense| + 1
    ensures ok <==> valid(x) && x.id !in seen
    ensures ok ==> Tallied(scores, dense + [x], [], p)
  {
    ok, scores := valid(x) && x.id !in seen, before;
    if ok {
      Tally(before, dense, [], p);
      var entry := DenseOnly(x, Portion(p.denseWeight, p.k, rank), rank);
      DenseStep(before, dense, p, x, entry);
      scores := before[x.id := entry];
      Tally(scores, dense + [x], [], p);
    }
  }

  /** The first call of the closure `apply`: the score map is still empty. */
  method ApplyDense(valid: Point -> bool, points: seq<Point>, p: Policy) returns (ok: bool, scores: map<string, Candidate>)
    requires p.k >= 1
    ensures ok <==> (forall x :: x in points ==> valid(x)) && DistinctIds(points)
    ensures ok ==> Tallied(scores, points, [], p)
  {
    ok, scores := true, map[];
    TallyEmpty(p);
    NothingBad(valid, points);
    var seen: set<string> := {};
    var i := 0;
    while i < |points| && ok
      invariant 0 <= i <= |points|
      invariant ok ==> Tallied(scores, points[..i], [], p) && seen == Ids(points[..i]) && Good(valid, points, i)
      invariant !ok ==> !Good(valid, points, |points|)
      decreases |points| - i, ok
    {
      GoodNext(valid, points, i);
      NextPrefix(points, i);
      ok, scores := AddPoint(valid, points[..i], p, points[i], i + 1, seen, scores);
      if ok { seen, i := seen + {points[i].id}, i + 1; }
    }
    assert ok ==> points[..i] == points;
    GoodAll(valid, points);
  }

  ghost predicate Meets(dense: seq<Point>, x: Point) {
    forall a :: a in dense && a.id == x.id ==> a.entity == x.entity && a.hash == x.hash
  }

  /** One step of the second call: a point seen before is joined, and must agree on identity. */
  method JoinPoint(dense: seq<Point>, ghost sparse: seq<Point>, p: Policy, x: Point, rank: int, before: map<string, Candidate>)
    returns (ok: bool, scores: map<string, Candidate>)
    requires p.k >= 1 && Tabulates(before, dense, sparse, p) && DistinctIds(dense) && x.id !in Ids(sparse) && rank == |sparse| + 1
    ensures ok <==> Meets(dense, x)
    ensures ok ==> Tabulates(scores, dense, sparse + [x], p)
  {
    EntryIdentity(dense, sparse, p, before, x);
    ok, scores := AgreesWith(before, x), before;
    if ok {
      var share := Portion(p.sparseWeight, p.k, rank);
      var entry := if x.id in before then Joined(before[x.id], share, rank) else SparseOnly(x, share, rank);
      SparseStep(before, dense, sparse, p, x, entry);
      scores := before[x.id := entry];
    }
  }

  ghost predicate SparseOk(valid: Point -> bool, dense: seq<Point>, x: Point) { valid(x) && Meets(dense, x) }

  ghost function SparseTest(valid: Point -> bool, dense: seq<Point>): Point -> bool { (x: Point) => SparseOk(valid, dense, x) }

  lemma AllMet(valid: Point -> bool, dense: seq<Point>, points: seq<Point>)
    ensures Good(SparseTest(valid, dense), points, |points|)
      <==> (forall x :: x in points ==> SparseOk(valid, dense, x)) && DistinctIds(points)
  {
    GoodAll(SparseTest(valid, dense), points);
    assert forall x :: SparseTest(valid, dense)(x) == SparseOk(valid, dense, x);
  }

  method MeetPoint(valid: Point -> bool, dense: seq<Point>, ghost sparse: seq<Point>, p: Policy, x: Point, rank: int,
                   seen: set<string>, before: map<string, Candidate>) returns (ok: bool, scores: map<string, Candidate>)
    requires p.k >= 1 && Tallied(before, dense, sparse, p) && DistinctIds(dense) && seen == Ids(sparse) && rank == |sparse| + 1
    ensures ok <==> SparseOk(valid, dense, x) && x.id !in seen
    ensures ok ==> Tallied(scores, dense, sparse + [x], p)
  {
    ok, scores := false, before;
    if valid(x) && x.id !in seen {
      Tally(before, dense, sparse, p);
      ok, scores := JoinPoint(dense, sparse, p, x, rank, before);
      Tally(scores, dense, sparse + [x], p);
    }
  }

  /** The second call of `apply`. */
  method ApplySparse(valid: Point -> bool, dense: seq<Point>, points: seq<Point>, p: Policy, before: map<string, Candidate>)
    returns (ok: bool, scores: map<string, Candidate>)
    requires p.k >= 1 && Tallied(before, dense, [], p) && DistinctIds(dense)
    ensures ok <==> (forall x :: x in points ==> SparseOk(valid, dense, x)) && DistinctIds(points)
    ensures ok ==> Tallied(scores, dense, points, p)
  {
    ok, scores := true, before;
    ghost var test := SparseTest(valid, dense);
    NothingBad(test, points);
    var seen: set<string> := {};
    var i := 0;
    while i < |points| && ok
      invariant 0 <= i <= |points|
      invariant ok ==> Tallied(scores, dense, points[..i], p) && seen == Ids(points[..i]) && Good(test, points, i)
      invariant !ok ==> !Good(test, points, |points|)
      decreases |points| - i, ok
    {
      GoodNext(test, points, i);
      NextPrefix(points, i);
      ok, scores := MeetPoint(valid, dense, points[..i], p, points[i], i + 1, seen, scores);
      if ok { seen, i := seen + {points[i].id}, i + 1; }
    }
    assert ok ==> points[..i] == points;
    AllMet(valid, dense, points);
  }

  predicate AgreesWith(scores: map<string, Candidate>, x: Point) {
    x.id in scores ==> scores[x.id].entity == x.entity && scores[x.id].hash == x.hash
  }

  lemma DenseEntry(dense: seq<Point>, a: Point)
    requires DistinctIds(dense) && a in dense
    ensures Find(dense, a.id).Some? && dense[Find(dense, a.id).value] == a
  {
    FindIds(dense, a.id);
    var i :| 0 <= i < |dense| && dense[i] == a;
    assert dense[Find(dense, a.id).value].id == dense[i].id;
  }

  /** The entry of a point not yet met in the sparse list is the dense point's. */
  lemma EntryIdentity(dense: seq<Point>, sparse: seq<Point>, p: Policy, scores: map<string, Candidate>, x: Point)
    requires p.k >= 1 && Tabulates(scores, dense, sparse, p) && DistinctIds(dense) && x.id !in Ids(sparse)
    ensures AgreesWith(scores, x) <==> forall a :: a in dense && a.id == x.id ==> a.entity == x.entity && a.hash == x.hash
  {
    forall a | a in dense && a.id == x.id ensures scores[x.id].entity == a.entity && scores[x.id].hash == a.hash { DenseEntry(dense, a); }
    if x.id in scores { var a :| a in dense && a.id == x.id; }
  }

  // ------------------------------------------------------------ the operation

  lemma FusableParts(valid: Point -> bool, d: seq<Point>, s: seq<Point>)
    ensures (forall x :: x in d + s ==> valid(x)) && SameIdentity(d, s)
      <==> (forall x :: x in d ==> valid(x)) && (forall x :: x in s ==> SparseOk(valid, d, x))
  {
    if (forall x :: x in d ==> valid(x)) && (forall x :: x in s ==> SparseOk(valid, d, x)) {
      forall a, b | a in d && b in s && a.id == b.id ensures a.entity == b.entity && a.hash == b.hash { assert SparseOk(valid, d, b); }
      forall x | x in d + s ensures valid(x) { if x in s { assert SparseOk(valid, d, x); } }
    }
  }

  /** `order` is the order the score map is read in. */
  method FuseRetrievalRanks(valid: Point -> bool, dense: seq<Point>, sparse: seq<Point>, p: Policy, order: seq<string>)
    returns (r: Outcome<seq<Candidate>>)
    requires ListsOnce(order, Ids(Counted(dense, p.denseWeight)) + Ids(Counted(sparse, p.sparseWeight)))
    ensures r.Ok? <==> Fusable(valid, dense, sparse, p)
    ensures r.Ok? ==> r.value == Top(dense, sparse, p, order)
  {
    r := Err;
    if !ValidPolicy(p) || |dense| > p.denseLimit || |sparse| > p.sparseLimit { return; }
    var d, s := Counted(dense, p.denseWeight), Counted(sparse, p.sparseWeight);
    FusableParts(valid, d, s);
    var ok, scores := ApplyDense(valid, d, p);
    if !ok { return; }
    ok, scores := ApplySparse(valid, d, s, p, scores);
    if !ok { return; }
    Tally(scores, d, s, p);
    var result := Collect(d, s, p, scores, order);
    result := Sort(Before, result);
    if |result| > p.limit { result := result[..p.limit]; }
    r := Ok(result);
  }

  method Collect(ghost d: seq<Point>, ghost s: seq<Point>, p: Policy, scores: map<string, Candidate>, order: seq<string>)
    returns (result: seq<Candidate>)
    requires p.k >= 1 && Tabulates(scores, d, s, p) && ListsOnce(order, scores.Keys)
    ensures result == Map(Fuser(d, s, p), order)
  {
    ListedOnce(order, scores.Keys);
    result := [];
    ghost var fuse := Fuser(d, s, p);
    for i := 0 to |order|
      invariant result == Map(fuse, order[..i])
    {
      assert order[i] in order;
      assert order[..i+1] == order[..i] + [order[i]];
      MapAppend(fuse, order[..i], [order[i]]);
      result := result + [scores[order[i]]];
    }
    assert order[..|order|] == order;
  }

  // ----------------------------------------------------------------- properties

  lemma FusedNoTies(d: seq<Point>, s: seq<Point>, p: Policy, ids: seq<string>)
    requires NoRepeat(ids)
    ensures NoTies(Before, Map(Fuser(d, s, p), ids))
  {
    StringOrder();
    var all := Map(Fuser(d, s, p), ids);
    forall i, j | 0 <= i < j < |all| ensures Before(all[i], all[j]) || Before(all[j], all[i]) {
      assert all[i].id == ids[i] && all[j].id == ids[j];
      assert ids[i] != ids[j];
    }
  }

  /** The fused list does not depend on the order the score map is read in. */
  lemma FusionForgetsOrder(dense: seq<Point>, sparse: seq<Point>, p: Policy, a: seq<string>, b: seq<string>)
    requires NoRepeat(a) && multiset(a) == multiset(b)
    ensures Top(dense, sparse, p, a) == Top(dense, sparse, p, b)
  {
    var fuse := Fuser(Counted(dense, p.denseWeight), Counted(sparse, p.sparseWeight), p);
    FusedNoTies(Counted(dense, p.denseWeight), Counted(sparse, p.sparseWeight), p, a);
    MapPermutes(fuse, a, b);
    BeforeOrder();
    SortForgetsOrder(Before, Map(fuse, a), Map(fuse, b));
  }

  /** A list that holds the best `limit` of `all`, best first. */
  ghost predicate BestOf(top: seq<Candidate>, all: seq<Candidate>, limit: int) {
    && |top| == (if |all| <= limit then |all| else limit)
    && (forall i, j :: 0 <= i < j < |top| ==> Before(top[i], top[j]))
    && (forall c :: c in top ==> c in all)
    && (forall c, t :: c in all && c !in top && t in top ==> Before(t, c))
  }

  lemma SortedStrictly(all: seq<Candidate>)
    requires NoTies(Before, all)
    ensures var sorted := Sort(Before, all);
      (forall i, j :: 0 <= i < j < |sorted| ==> Before(sorted[i], sorted[j])) && |sorted| == |all| && forall c :: c in sorted <==> c in all
  {
    var sorted := Sort(Before, all);
    BeforeOrder();
    SortPermutes(Before, all);
    SortSorts(Before, all);
    NoTiesTransfers(Before, all, sorted);
    forall c ensures c in sorted <==> c in all { MemberPermutes(sorted, all, c); }
    forall i, j | 0 <= i < j < |sorted| ensures Before(sorted[i], sorted[j]) { assert !Before(sorted[j], sorted[i]); }
  }

  lemma CutIsBest(sorted: seq<Candidate>, all: seq<Candidate>, limit: int)
    requires (forall i, j :: 0 <= i < j < |sorted| ==> Before(sorted[i], sorted[j])) && |sorted| == |all| && limit >= 0
    requires forall c :: c in sorted <==> c in all
    ensures BestOf(if limit < |sorted| then sorted[..limit] else sorted, all, limit)
  {
    if limit < |sorted| {
      var top := sorted[..limit];
      forall c, t | c in all && c !in top && t in top ensures Before(t, c) {
        var i :| 0 <= i < |sorted| && sorted[i] == c;
        var j :| 0 <= j < limit && top[j] == t;
        assert forall k :: 0 <= k < limit ==> sorted[k] == top[k] && top[k] in top;
        assert sorted[j] == t;
      }
    }
  }

  /** The fused list is the true top of the union of the counted lists. */
  lemma TopIsBest(dense: seq<Point>, sparse: seq<Point>, p: Policy, ids: seq<string>)
    requires ValidPolicy(p) && NoRepeat(ids)
    ensures BestOf(Top(dense, sparse, p, ids),
                   Map(Fuser(Counted(dense, p.denseWeight), Counted(sparse, p.sparseWeight), p), ids), p.limit)
  {
    var d, s := Counted(dense, p.denseWeight), Counted(sparse, p.sparseWeight);
    var all := Map(Fuser(d, s, p), ids);
    FusedNoTies(d, s, p, ids);
    SortedStrictly(all);
    CutIsBest(Sort(Before, all), all, p.limit);
  }

  // ----------------------------------------------------------------- symmetry

  function Exchanged(p: Policy): Policy { Policy(p.limit, p.sparseLimit, p.denseLimit, p.sparseWeight, p.denseWeight, p.k) }

  /** The candidate with its ranks exchanged. */
  function Mirrored(c: Candidate): Candidate { c.(dense := c.sparse, sparse := c.dense) }

  /** ... and with the copied fields of the other list's point, where there are two. */
  function Twin(dense: seq<Point>, sparse: seq<Point>): Candidate -> Candidate {
    (c: Candidate) => Mirrored(c).(payload := Origin(sparse, dense, c.id).payload)
  }

  lemma FindMember(points: seq<Point>, id: string)
    requires Find(points, id).Some?
    ensures points[Find(points, id).value] in points
  {}

  lemma FusedTwin(d: seq<Point>, s: seq<Point>, p: Policy, id: string)
    requires p.k >= 1 && SameIdentity(d, s)
    ensures Fused(s, d, Exchanged(p), id) == Twin(d, s)(Fused(d, s, p, id))
  {
    if Find(d, id).Some? && Find(s, id).Some? {
      FindMember(d, id);
      FindMember(s, id);
    }
  }

  lemma {:induction false} InsertCommutes(f: Candidate -> Candidate, x: Candidate, s: seq<Candidate>)
    requires forall a, b :: Before(f(a), f(b)) == Before(a, b)
    ensures Insert(Before, f(x), Map(f, s)) == Map(f, Insert(Before, x, s))
  {
    if s != [] && !Before(x, s[0]) {
      assert Map(f, s)[1..] == Map(f, s[1..]);
      InsertCommutes(f, x, s[1..]);
      assert Map(f, [s[0]] + Insert(Before, x, s[1..])) == [f(s[0])] + Map(f, Insert(Before, x, s[1..]));
    }
  }

  lemma {:induction false} SortCommutes(f: Candidate -> Candidate, s: seq<Candidate>)
    requires forall a, b :: Before(f(a), f(b)) == Before(a, b)
    ensures Sort(Before, Map(f, s)) == Map(f, Sort(Before, s))
  {
    if s != [] {
      assert Map(f, s)[1..] == Map(f, s[1..]);
      SortCommutes(f, s[1..]);
      InsertCommutes(f, s[0], Sort(Before, s[1..]));
    }
  }

  lemma TopTwin(dense: seq<Point>, sparse: seq<Point>, p: Policy, ids: seq<string>)
    requires ValidPolicy(p) && SameIdentity(Counted(dense, p.denseWeight), Counted(sparse, p.sparseWeight))
    ensures Top(sparse, dense, Exchanged(p), ids)
      == Map(Twin(Counted(dense, p.denseWeight), Counted(sparse, p.sparseWeight)), Top(dense, sparse, p, ids))
  {
    var d, s := Counted(dense, p.denseWeight), Counted(sparse, p.sparseWeight);
    var twin, fuse, other := Twin(d, s), Fuser(d, s, p), Fuser(s, d, Exchanged(p));
    forall id ensures other(id) == twin(fuse(id)) { FusedTwin(d, s, p, id); }
    assert Map(other, ids) == Map(twin, Map(fuse, ids));
    TwinKeepsOrder(d, s);
    SortCommutes(twin, Map(fuse, ids));
    CutCommutes(twin, Sort(Before, Map(fuse, ids)), p.limit);
  }

  lemma TwinKeepsOrder(d: seq<Point>, s: seq<Point>)
    ensures forall a, b :: Before(Twin(d, s)(a), Twin(d, s)(b)) == Before(a, b)
  {}

  lemma CutCommutes(f: Candidate -> Candidate, s: seq<Candidate>, limit: int)
    ensures (if 0 <= limit < |s| then Map(f, s)[..limit] else Map(f, s)) == Map(f, if 0 <= limit < |s| then s[..limit] else s)
  {}

  /** The exchange changes only rank fields when the returned candidates carry the other list's copied fields. */
  lemma ExchangeOnReturned(dense: seq<Point>, sparse: seq<Point>, p: Policy, ids: seq<string>)
    requires ValidPolicy(p) && SameIdentity(Counted(dense, p.denseWeight), Counted(sparse, p.sparseWeight))
    ensures var d, s := Counted(dense, p.denseWeight), Counted(sparse, p.sparseWeight);
      var top := Top(dense, sparse, p, ids);
      Top(sparse, dense, Exchanged(p), ids) == Map(Mirrored, top)
      <==> forall c :: c in top ==> c.payload == Origin(s, d, c.id).payload
  {
    var d, s := Counted(dense, p.denseWeight), Counted(sparse, p.sparseWeight);
    var top := Top(dense, sparse, p, ids);
    TopTwin(dense, sparse, p, ids);
    if forall c :: c in top ==> c.payload == Origin(s, d, c.id).payload {
      MapSame(Twin(d, s), Mirrored, top);
    } else {
      var c :| c in top && c.payload != Origin(s, d, c.id).payload;
      var i :| 0 <= i < |top| && top[i] == c;
      assert Map(Twin(d, s), top)[i].payload != Map(Mirrored, top)[i].payload;
    }
  }

  /** The points that come before a point, by score, entity and identifier. */
  ghost function Ahead(d: seq<Point>, s: seq<Point>, p: Policy, id: string): set<string> {
    Predecessors(Fuser(d, s, p), Before, Ids(d) + Ids(s), Fuser(d, s, p)(id))
  }

  function NameOf(c: Candidate): string { c.id }

  /** The fused candidates, best first, before the cut. */
  ghost function Ranked(d: seq<Point>, s: seq<Point>, p: Policy, ids: seq<string>): seq<Candidate> {
    Sort(Before, Map(Fuser(d, s, p), ids))
  }

  ghost predicate Strict(all: seq<Candidate>) { forall i, j :: 0 <= i < j < |all| ==> Before(all[i], all[j]) }

  /** `all` holds the candidate of each of the identifiers and nothing else. */
  ghost predicate Covers(all: seq<Candidate>, f: string -> Candidate, ids: seq<string>) {
    && (forall c :: c in all ==> NameOf(c) in ids && f(NameOf(c)) == c)
    && (forall id :: id in ids ==> f(id) in all && NameOf(f(id)) == id)
  }

  lemma MapCovers(f: string -> Candidate, ids: seq<string>)
    requires forall id :: f(id).id == id
    ensures Covers(Map(f, ids), f, ids)
  {
    var all := Map(f, ids);
    forall c | c in all ensures NameOf(c) in ids && f(NameOf(c)) == c { MapMember(f, ids, c); }
    forall id | id in ids ensures f(id) in all && NameOf(f(id)) == id {
      var i :| 0 <= i < |ids| && ids[i] == id;
      assert all[i] == f(id);
    }
  }

  lemma RankedIsStrict(d: seq<Point>, s: seq<Point>, p: Policy, ids: seq<string>)
    requires NoRepeat(ids)
    ensures var all := Ranked(d, s, p, ids); |all| == |ids| && Strict(all) && Covers(all, Fuser(d, s, p), ids)
  {
    FusedNoTies(d, s, p, ids);
    SortedStrictly(Map(Fuser(d, s, p), ids));
    MapCovers(Fuser(d, s, p), ids);
  }

  lemma BeforeOneWay()
    ensures forall a, b :: Before(a, b) ==> !Before(b, a)
  {
    BeforeOrder();
    forall a, b | Before(a, b) ensures !Before(b, a) { assert !Before(a, a); }
  }

  /** A candidate stands behind exactly the points that come before it. */
  lemma PlaceCounts(f: string -> Candidate, all: seq<Candidate>, ids: seq<string>, names: set<string>, i: nat)
    requires Strict(all) && Covers(all, f, ids) && (forall x :: x in ids <==> x in names) && i < |all|
    ensures |Predecessors(f, Before, names, all[i])| == i
  {
    BeforeOneWay();
    StrictRank(f, NameOf, Before, names, all, i);
  }

  lemma CutKeeps(all: seq<Candidate>, limit: int, i: nat)
    requires Strict(all) && limit >= 0 && i < |all|
    ensures all[i] in (if limit < |all| then all[..limit] else all) <==> i < limit || |all| <= limit
  {
    BeforeOneWay();
    if limit < |all| && i < limit { assert all[..limit][i] == all[i]; }
  }

  /** A point is returned exactly when fewer than `limit` points come before it. */
  lemma ReturnedExactly(dense: seq<Point>, sparse: seq<Point>, p: Policy, ids: seq<string>, id: string)
    requires ValidPolicy(p)
    requires ListsOnce(ids, Ids(Counted(dense, p.denseWeight)) + Ids(Counted(sparse, p.sparseWeight))) && id in ids
    ensures var d, s := Counted(dense, p.denseWeight), Counted(sparse, p.sparseWeight);
      Fuser(d, s, p)(id) in Top(dense, sparse, p, ids) <==> |Ahead(d, s, p, id)| < p.limit
  {
    var d, s := Counted(dense, p.denseWeight), Counted(sparse, p.sparseWeight);
    var all, fuse := Ranked(d, s, p, ids), Fuser(d, s, p);
    ListedOnce(ids, Ids(d) + Ids(s));
    RankedIsStrict(d, s, p, ids);
    var i :| 0 <= i < |all| && all[i] == fuse(id);
    PlaceCounts(fuse, all, ids, Ids(d) + Ids(s), i);
    CutKeeps(all, p.limit, i);
  }

  /** The two copies of a point that both lists hold agree on the fields the fusion copies but never compares. */
  ghost predicate SamePayload(d: seq<Point>, s: seq<Point>) {
    forall a, b :: a in d && b in s && a.id == b.id ==> a.payload == b.payload
  }

  /** ... or at least the copies of the points that the limit lets through. */
  ghost predicate SamePayloadWithin(d: seq<Point>, s: seq<Point>, p: Policy) {
    forall a, b :: a in d && b in s && a.id == b.id && |Ahead(d, s, p, a.id)| < p.limit ==> a.payload == b.payload
  }

  /** Lists and policy as an accepted call has them, and the identifiers in any order. */
  ghost predicate FusableLists(dense: seq<Point>, sparse: seq<Point>, p: Policy, ids: seq<string>) {
    && ValidPolicy(p)
    && var d, s := Counted(dense, p.denseWeight), Counted(sparse, p.sparseWeight);
       DistinctIds(d) && DistinctIds(s) && SameIdentity(d, s) && ListsOnce(ids, Ids(d) + Ids(s))
  }

  lemma CopiesAgree(d: seq<Point>, s: seq<Point>, a: Point, b: Point)
    requires DistinctIds(d) && DistinctIds(s) && a in d && b in s && a.id == b.id
    ensures Origin(d, s, a.id) == a && Origin(s, d, a.id) == b
  {
    DenseEntry(d, a);
    DenseEntry(s, b);
  }

  lemma ReturnedCopies(dense: seq<Point>, sparse: seq<Point>, p: Policy, ids: seq<string>, c: Candidate)
    requires FusableLists(dense, sparse, p, ids) && c in Top(dense, sparse, p, ids)
    ensures var d, s := Counted(dense, p.denseWeight), Counted(sparse, p.sparseWeight);
      SamePayloadWithin(d, s, p) ==> c.payload == Origin(s, d, c.id).payload
  {
    var d, s := Counted(dense, p.denseWeight), Counted(sparse, p.sparseWeight);
    ListedOnce(ids, Ids(d) + Ids(s));
    RankedIsStrict(d, s, p, ids);
    assert c in Ranked(d, s, p, ids) && Fuser(d, s, p)(NameOf(c)) == c;
    ReturnedExactly(dense, sparse, p, ids, c.id);
    var x, y := Find(d, c.id), Find(s, c.id);
    if SamePayloadWithin(d, s, p) && x.Some? && y.Some? {
      assert d[x.value] in d && s[y.value] in s;
    }
  }

  lemma DifferingCopies(dense: seq<Point>, sparse: seq<Point>, p: Policy, ids: seq<string>, a: Point, b: Point)
    requires FusableLists(dense, sparse, p, ids)
    requires var d, s := Counted(dense, p.denseWeight), Counted(sparse, p.sparseWeight);
      a in d && b in s && a.id == b.id && |Ahead(d, s, p, a.id)| < p.limit
    ensures var d, s := Counted(dense, p.denseWeight), Counted(sparse, p.sparseWeight);
      var c := Fuser(d, s, p)(a.id);
      c in Top(dense, sparse, p, ids) && c.id == a.id && c.payload == a.payload && Origin(s, d, c.id).payload == b.payload
  {
    var d, s := Counted(dense, p.denseWeight), Counted(sparse, p.sparseWeight);
    ListedOnce(ids, Ids(d) + Ids(s));
    ReturnedExactly(dense, sparse, p, ids, a.id);
    CopiesAgree(d, s, a, b);
  }

  /** Exchanging the lists with their weights and limits exchanges exactly the rank
      fields if and only if the copies of every point the limit lets through agree. */
  lemma ExchangeExactly(dense: seq<Point>, sparse: seq<Point>, p: Policy, ids: seq<string>)
    requires FusableLists(dense, sparse, p, ids)
    ensures Top(sparse, dense, Exchanged(p), ids) == Map(Mirrored, Top(dense, sparse, p, ids))
      <==> SamePayloadWithin(Counted(dense, p.denseWeight), Counted(sparse, p.sparseWeight), p)
  {
    var d, s := Counted(dense, p.denseWeight), Counted(sparse, p.sparseWeight);
    var top := Top(dense, sparse, p, ids);
    ExchangeOnReturned(dense, sparse, p, ids);
    if SamePayloadWithin(d, s, p) {
      forall c | c in top ensures c.payload == Origin(s, d, c.id).payload { ReturnedCopies(dense, sparse, p, ids, c); }
    } else {
      var a, b :| a in d && b in s && a.id == b.id && |Ahead(d, s, p, a.id)| < p.limit && a.payload != b.payload;
      DifferingCopies(dense, sparse, p, ids, a, b);
    }
  }

  lemma NothingCut(d: seq<Point>, s: seq<Point>, p: Policy, ids: seq<string>, id: string)
    requires ListsOnce(ids, Ids(d) + Ids(s)) && id in ids && |ids| <= p.limit
    ensures |Ahead(d, s, p, id)| < p.limit
  {
    ListedOnce(ids, Ids(d) + Ids(s));
    RankedIsStrict(d, s, p, ids);
    var all := Ranked(d, s, p, ids);
    var i :| 0 <= i < |all| && all[i] == Fuser(d, s, p)(id);
    PlaceCounts(Fuser(d, s, p), all, ids, Ids(d) + Ids(s), i);
  }

  /** Agreeing copies are enough whatever the policy cuts, and needed when it cuts nothing. */
  lemma ExchangeUncut(dense: seq<Point>, sparse: seq<Point>, p: Policy, ids: seq<string>)
    requires FusableLists(dense, sparse, p, ids)
    ensures var d, s := Counted(dense, p.denseWeight), Counted(sparse, p.sparseWeight);
      var symmetric := Top(sparse, dense, Exchanged(p), ids) == Map(Mirrored, Top(dense, sparse, p, ids));
      && (SamePayload(d, s) ==> symmetric)
      && (|ids| <= p.limit ==> (symmetric <==> SamePayload(d, s)))
  {
    var d, s := Counted(dense, p.denseWeight), Counted(sparse, p.sparseWeight);
    ExchangeExactly(dense, sparse, p, ids);
    if |ids| <= p.limit {
      ListedOnce(ids, Ids(d) + Ids(s));
      forall a | a in d ensures |Ahead(d, s, p, a.id)| < p.limit { NothingCut(d, s, p, ids, a.id); }
    }
  }

  /** Two lists holding one point with different copied fields: the exchange shows. */
  lemma ExchangeShows(p: Policy, a: Point, b: Point)
    requires ValidPolicy(p) && p.denseWeight > 0.0 && p.sparseWeight > 0.0
    requires a == b.(payload := a.payload) && a.payload != b.payload
    ensures Top([b], [a], Exchanged(p), [a.id]) != Map(Mirrored, Top([a], [b], p, [a.id]))
  {
    assert Ids([a]) + Ids([b]) == {a.id};
    assert a in [a] && b in [b];
    ExchangeUncut([a], [b], p, [a.id]);
  }

  lemma ExchangeCanShow(p: Policy)
    requires ValidPolicy(p) && p.denseWeight > 0.0 && p.sparseWeight > 0.0
    ensures Top([Point("p", "e", "h", "y")], [Point("p", "e", "h", "x")], Exchanged(p), ["p"])
      != Map(Mirrored, Top([Point("p", "e", "h", "x")], [Point("p", "e", "h", "y")], p, ["p"]))
  {
    assert "x"[0] != "y"[0];
    ExchangeShows(p, Point("p", "e", "h", "x"), Point("p", "e", "h", "y"));
  }

  /** Every returned score is the weighted sum over the ranks it shows, and those
      are the true positions of the point in the counted lists. */
  lemma ScoreExact(dense: seq<Point>, sparse: seq<Point>, p: Policy, ids: seq<string>, c: Candidate)
    requires ValidPolicy(p) && c in Top(dense, sparse, p, ids)
    requires DistinctIds(Counted(dense, p.denseWeight)) && DistinctIds(Counted(sparse, p.sparseWeight))
    ensures c.dense.Some? ==> c.dense.value >= 1
    ensures c.sparse.Some? ==> c.sparse.value >= 1
    ensures c.score == (if c.dense.Some? then Portion(p.denseWeight, p.k, c.dense.value) else 0.0)
                     + (if c.sparse.Some? then Portion(p.sparseWeight, p.k, c.sparse.value) else 0.0)
    ensures forall i :: 0 <= i < |Counted(dense, p.denseWeight)| ==>
      (Counted(dense, p.denseWeight)[i].id == c.id <==> c.dense == Some(i + 1))
    ensures forall i :: 0 <= i < |Counted(sparse, p.sparseWeight)| ==>
      (Counted(sparse, p.sparseWeight)[i].id == c.id <==> c.sparse == Some(i + 1))
  {
    var d, s := Counted(dense, p.denseWeight), Counted(sparse, p.sparseWeight);
    var id := TopFrom(d, s, p, ids, c, Top(dense, sparse, p, ids));
    FusedFields(d, s, p, id);
    forall i | 0 <= i < |d| ensures d[i].id == c.id <==> c.dense == Some(i + 1) { PositionFound(d, i, c.id); }
    forall i | 0 <= i < |s| ensures s[i].id == c.id <==> c.sparse == Some(i + 1) { PositionFound(s, i, c.id); }
  }

  lemma TopFrom(d: seq<Point>, s: seq<Point>, p: Policy, ids: seq<string>, c: Candidate, top: seq<Candidate>) returns (id: string)
    requires ValidPolicy(p) && c in top
    requires var all := Sort(Before, Map(Fuser(d, s, p), ids)); top == if 0 <= p.limit < |all| then all[..p.limit] else all
    ensures c == Fused(d, s, p, id)
  {
    var all := Map(Fuser(d, s, p), ids);
    SortPermutes(Before, all);
    MemberPermutes(Sort(Before, all), all, c);
    MapMember(Fuser(d, s, p), ids, c);
    id :| id in ids && Fuser(d, s, p)(id) == c;
  }

  lemma FusedFields(d: seq<Point>, s: seq<Point>, p: Policy, id: string)
    requires p.k >= 1
    ensures var c := Fused(d, s, p, id);
      && c.id == id && c.dense == RankIn(d, id) && c.sparse == RankIn(s, id)
      && (c.dense.Some? ==> c.dense.value >= 1) && (c.sparse.Some? ==> c.sparse.value >= 1)
      && c.score == (if c.dense.Some? then Portion(p.denseWeight, p.k, c.dense.value) else 0.0)
                  + (if c.sparse.Some? then Portion(p.sparseWeight, p.k, c.sparse.value) else 0.0)
  {}

  lemma PositionFound(points: seq<Point>, i: nat, id: string)
    requires DistinctIds(points) && i < |points|
    ensures points[i].id == id <==> RankIn(points, id) == Some(i + 1)
  {
    if points[i].id == id { DenseEntry(points, points[i]); }
  }
}
