/** What the fused list says about the two rank lists, stated on the lists, the
    weights and the arithmetic of reciprocal ranks alone. */
module FusionMeaning {
  import opened Ordering
  import opened Seqs
  import opened Cards
  import opened LineageComparison
  import opened Fusion

  /** The rank of a point in a list; a list of weight zero ranks nothing. */
  ghost predicate Placed(points: seq<Point>, weight: real, id: string, rank: Option<int>) {
    match rank
    case Some(n) => weight != 0.0 && 1 <= n <= |points| && points[n - 1].id == id
    case None => weight == 0.0 || forall x :: x in points ==> x.id != id
  }

  predicate Copies(c: Candidate, x: Point) { c.entity == x.entity && c.hash == x.hash && c.payload == x.payload }

  /** The candidate of a point that is ranked somewhere: its ranks, the sum of its
      weighted reciprocal ranks, and the fields of the dense list's copy if there is one. */
  ghost predicate CandidateTells(dense: seq<Point>, sparse: seq<Point>, p: Policy, c: Candidate)
    requires p.k >= 1
  {
    && Placed(dense, p.denseWeight, c.id, c.dense) && Placed(sparse, p.sparseWeight, c.id, c.sparse)
    && (c.dense.Some? || c.sparse.Some?)
    && c.score == (if c.dense.Some? then p.denseWeight / (p.k + c.dense.value) as real else 0.0)
                + (if c.sparse.Some? then p.sparseWeight / (p.k + c.sparse.value) as real else 0.0)
    && Copies(c, if c.dense.Some? then dense[c.dense.value - 1] else sparse[c.sparse.value - 1])
  }

  /** Higher score first; entity, then point, break ties. */
  predicate Better(a: Candidate, b: Candidate) {
    || a.score > b.score
    || (a.score == b.score && Less(a.entity, b.entity))
    || (a.score == b.score && a.entity == b.entity && Less(a.id, b.id))
  }

  ghost predicate Ordered(points: seq<Point>, weight: real) { weight == 0.0 || DistinctIds(points) }

  lemma PlacedIs(points: seq<Point>, weight: real, id: string, rank: Option<int>)
    requires Ordered(points, weight)
    ensures Placed(points, weight, id, rank) <==> RankIn(Counted(points, weight), id) == rank
  {
    var d := Counted(points, weight);
    FindIds(d, id);
    if rank.Some? && weight != 0.0 && 1 <= rank.value <= |points| { PositionFound(points, rank.value - 1, id); }
  }

  lemma OriginTells(d: seq<Point>, s: seq<Point>, id: string)
    ensures RankIn(d, id).Some? ==> 1 <= RankIn(d, id).value <= |d| && Origin(d, s, id) == d[RankIn(d, id).value - 1]
    ensures RankIn(d, id).None? && RankIn(s, id).Some? ==> 1 <= RankIn(s, id).value <= |s| && Origin(d, s, id) == s[RankIn(s, id).value - 1]
  {}

  lemma RankedIsId(points: seq<Point>, id: string)
    ensures RankIn(points, id).Some? <==> id in Ids(points)
  {
    FindIds(points, id);
  }

  /** A candidate tells a point exactly when it is the fused one of a ranked point. */
  lemma TellingIsFused(dense: seq<Point>, sparse: seq<Point>, p: Policy, c: Candidate)
    requires p.k >= 1 && Ordered(dense, p.denseWeight) && Ordered(sparse, p.sparseWeight)
    ensures var d, s := Counted(dense, p.denseWeight), Counted(sparse, p.sparseWeight);
      CandidateTells(dense, sparse, p, c) <==> c == Fused(d, s, p, c.id) && c.id in Ids(d) + Ids(s)
  {
    var d, s := Counted(dense, p.denseWeight), Counted(sparse, p.sparseWeight);
    PlacedIs(dense, p.denseWeight, c.id, c.dense);
    PlacedIs(sparse, p.sparseWeight, c.id, c.sparse);
    RankedIsId(d, c.id);
    RankedIsId(s, c.id);
    OriginTells(d, s, c.id);
    FusedFields(d, s, p, c.id);
  }

  lemma BetterIs(a: Candidate, b: Candidate)
    ensures Better(a, b) <==> Before(a, b)
  {}

  /** The returned list: candidates that tell ranked points, best first, as many as
      there are up to the limit, and each better than every candidate left out. */
  ghost predicate TopTells(dense: seq<Point>, sparse: seq<Point>, p: Policy, top: seq<Candidate>)
    requires p.k >= 1
  {
    && (forall c :: c in top ==> CandidateTells(dense, sparse, p, c))
    && (forall i, j :: 0 <= i < j < |top| ==> Better(top[i], top[j]))
    && |top| <= p.limit
    && (forall c :: CandidateTells(dense, sparse, p, c) && c !in top ==> |top| == p.limit && forall t :: t in top ==> Better(t, c))
  }

  lemma FusedIsListed(d: seq<Point>, s: seq<Point>, p: Policy, ids: seq<string>, c: Candidate)
    requires p.k >= 1 && c == Fused(d, s, p, c.id) && c.id in ids
    ensures c in Map(Fuser(d, s, p), ids)
  {
    var i :| 0 <= i < |ids| && ids[i] == c.id;
    assert Map(Fuser(d, s, p), ids)[i] == c;
  }

  lemma ListedIsFused(d: seq<Point>, s: seq<Point>, p: Policy, ids: seq<string>, c: Candidate)
    requires p.k >= 1 && c in Map(Fuser(d, s, p), ids)
    ensures c == Fused(d, s, p, c.id) && c.id in ids
  {
    MapMember(Fuser(d, s, p), ids, c);
    var id :| id in ids && Fuser(d, s, p)(id) == c;
    FusedFields(d, s, p, id);
  }

  lemma ListedIsTelling(dense: seq<Point>, sparse: seq<Point>, p: Policy, ids: seq<string>, c: Candidate)
    requires p.k >= 1 && Ordered(dense, p.denseWeight) && Ordered(sparse, p.sparseWeight)
    requires ListsOnce(ids, Ids(Counted(dense, p.denseWeight)) + Ids(Counted(sparse, p.sparseWeight)))
    ensures var d, s := Counted(dense, p.denseWeight), Counted(sparse, p.sparseWeight);
      CandidateTells(dense, sparse, p, c) <==> c in Map(Fuser(d, s, p), ids)
  {
    var d, s := Counted(dense, p.denseWeight), Counted(sparse, p.sparseWeight);
    ListedOnce(ids, Ids(d) + Ids(s));
    TellingIsFused(dense, sparse, p, c);
    if c in Map(Fuser(d, s, p), ids) { ListedIsFused(d, s, p, ids, c); }
    if CandidateTells(dense, sparse, p, c) { FusedIsListed(d, s, p, ids, c); }
  }

  lemma BestTells(dense: seq<Point>, sparse: seq<Point>, p: Policy, top: seq<Candidate>, all: seq<Candidate>)
    requires p.k >= 1 && p.limit >= 0 && BestOf(top, all, p.limit)
    requires forall c :: CandidateTells(dense, sparse, p, c) <==> c in all
    ensures TopTells(dense, sparse, p, top)
  {
    forall a, b ensures Better(a, b) <==> Before(a, b) { BetterIs(a, b); }
    forall c | CandidateTells(dense, sparse, p, c) && c !in top ensures |top| == p.limit {
      if |all| <= p.limit { SameLength(top, all, c); }
    }
  }

  /** A strictly ordered list within another of the same length misses nothing. */
  lemma SameLength(top: seq<Candidate>, all: seq<Candidate>, c: Candidate)
    requires |top| == |all| && (forall i, j :: 0 <= i < j < |top| ==> Before(top[i], top[j])) && forall x :: x in top ==> x in all
    requires c in all
    ensures c in top
  {
    BeforeOneWay();
    assert NoRepeat(top) by {
      forall i, j | 0 <= i < j < |top| ensures top[i] != top[j] { assert Before(top[i], top[j]); }
    }
    FillsUp(top, all);
  }

  /** The fused list, for whatever order the score map is read in. */
  lemma FusionSays(valid: Point -> bool, dense: seq<Point>, sparse: seq<Point>, p: Policy, ids: seq<string>)
    requires Fusable(valid, dense, sparse, p)
    requires ListsOnce(ids, Ids(Counted(dense, p.denseWeight)) + Ids(Counted(sparse, p.sparseWeight)))
    ensures TopTells(dense, sparse, p, Top(dense, sparse, p, ids))
  {
    var d, s := Counted(dense, p.denseWeight), Counted(sparse, p.sparseWeight);
    ListedOnce(ids, Ids(d) + Ids(s));
    TopIsBest(dense, sparse, p, ids);
    forall c ensures CandidateTells(dense, sparse, p, c) <==> c in Map(Fuser(d, s, p), ids) {
      ListedIsTelling(dense, sparse, p, ids, c);
    }
    BestTells(dense, sparse, p, Top(dense, sparse, p, ids), Map(Fuser(d, s, p), ids));
  }

  /** Nothing else than the returned list tells so. */
  lemma OneTop(dense: seq<Point>, sparse: seq<Point>, p: Policy, a: seq<Candidate>, b: seq<Candidate>)
    requires p.k >= 1 && TopTells(dense, sparse, p, a) && TopTells(dense, sparse, p, b)
    ensures forall c :: c in a <==> c in b
  {
    forall c ensures c in a <==> c in b {
      if c in a { Shared(dense, sparse, p, a, b, c); }
      if c in b { Shared(dense, sparse, p, b, a, c); }
    }
  }

  lemma BetterOneWay(x: Candidate, y: Candidate)
    ensures !(Better(x, y) && Better(y, x))
  {
    BeforeOneWay();
    BetterIs(x, y);
    BetterIs(y, x);
  }

  lemma Shared(dense: seq<Point>, sparse: seq<Point>, p: Policy, a: seq<Candidate>, b: seq<Candidate>, c: Candidate)
    requires p.k >= 1 && TopTells(dense, sparse, p, a) && TopTells(dense, sparse, p, b) && c in a
    ensures c in b
  {
    if c !in b {
      forall t | t in b ensures t in a { BetterOneWay(c, t); }
      assert NoRepeat(b) by {
        forall i, j | 0 <= i < j < |b| ensures b[i] != b[j] { BetterOneWay(b[i], b[j]); }
      }
      FillsUp(b, a);
    }
  }
}
