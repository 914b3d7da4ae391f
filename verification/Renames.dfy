/** `inferExactFileRenames`: a deleted and an added file with the same, otherwise
    unused bytes become one rename. */
module Renames {
  import opened Ordering
  import opened Seqs
  import opened Cards
  import opened Deltas
  import opened LineageComparison

  datatype FileRow = FileRow(id: string, path: string, hash: string)

  function RowId(f: FileRow): string { f.id }
  function Hashed(h: string): FileRow -> bool { (f: FileRow) => f.hash == h }

  predicate IsFile(d: Delta, change: string) { d.kind == "file" && d.change == change }

  function IdsWith(ds: seq<Delta>, change: string): set<string> { set d | d in ds && IsFile(d, change) :: d.id }

  /** What a rename is inferred from. */
  datatype Scene = Scene(base: seq<FileRow>, target: seq<FileRow>, added: set<string>, deleted: set<string>)

  /** (deleted identifier, added identifier) of the rename one hash gives. */
  function PairFor(s: Scene, h: string): Option<(string, string)> {
    var x, y := Filter(Hashed(h), s.base), Filter(Hashed(h), s.target);
    if |x| == 1 && |y| == 1 && x[0].path != y[0].path && x[0].id in s.deleted && y[0].id in s.added
    then Some((x[0].id, y[0].id)) else None
  }

  function RowById(rows: seq<FileRow>, id: string): Option<FileRow> {
    if rows == [] then None else if rows[0].id == id then Some(rows[0]) else RowById(rows[1..], id)
  }

  /** The file an added file was renamed from. */
  function SourceOf(s: Scene, id: string): Option<string> {
    var f := RowById(s.target, id);
    if f.None? then None
    else
      var p := PairFor(s, f.value.hash);
      if p.Some? && p.value.1 == id then Some(p.value.0) else None
  }

  /** A deleted file that was renamed. */
  predicate RenamedAway(s: Scene, id: string) {
    var f := RowById(s.base, id);
    f.Some? && (var p := PairFor(s, f.value.hash); p.Some? && p.value.0 == id)
  }

  predicate Dropped(s: Scene, d: Delta) { IsFile(d, "deleted") && RenamedAway(s, d.id) }
  predicate Turned(s: Scene, d: Delta) { IsFile(d, "added") && SourceOf(s, d.id).Some? }

  function RenamedDelta(s: Scene, d: Delta): Delta { Delta(0, "renamed", "file", d.id, SourceOf(s, d.id)) }

  function Rewriter(s: Scene): Delta -> seq<Delta> {
    (d: Delta) => if Dropped(s, d) then [] else if Turned(s, d) then [RenamedDelta(s, d)] else [d]
  }

  function SceneOf(ds: seq<Delta>, base: seq<FileRow>, target: seq<FileRow>): Scene {
    Scene(base, target, IdsWith(ds, "added"), IdsWith(ds, "deleted"))
  }

  function WithRenames(ds: seq<Delta>, base: seq<FileRow>, target: seq<FileRow>): seq<Delta> {
    FlatMap(Rewriter(SceneOf(ds, base, target)), ds)
  }

  // ---------------------------------------------------------------- lookups

  ghost predicate DistinctRows(rows: seq<FileRow>) { forall i, j :: 0 <= i < j < |rows| ==> rows[i].id != rows[j].id }

  lemma {:induction false} RowFound(rows: seq<FileRow>, f: FileRow)
    requires DistinctRows(rows) && f in rows
    ensures RowById(rows, f.id) == Some(f)
  {
    if rows[0] != f {
      var i :| 0 <= i < |rows| && rows[i] == f;
      assert rows[0].id != rows[i].id;
      assert DistinctRows(rows[1..]) by {
        forall i, j | 0 <= i < j < |rows[1..]| ensures rows[1..][i].id != rows[1..][j].id { assert rows[i+1].id != rows[j+1].id; }
      }
      RowFound(rows[1..], f);
    }
  }

  lemma {:induction false} RowMember(rows: seq<FileRow>, id: string)
    requires RowById(rows, id).Some?
    ensures RowById(rows, id).value in rows && RowById(rows, id).value.id == id
  {
    if rows[0].id != id { RowMember(rows[1..], id); }
  }

  /** A rename joins two files with the same bytes, which no other file on either side has. */
  ghost predicate ExactRename(s: Scene, x: FileRow, y: FileRow) {
    && x in s.base && y in s.target && x.hash == y.hash && x.path != y.path
    && (forall f :: f in s.base && f.hash == x.hash ==> f == x)
    && (forall g :: g in s.target && g.hash == x.hash ==> g == y)
    && x.id in s.deleted && y.id in s.added
  }

  lemma OnlyOne(rows: seq<FileRow>, h: string)
    requires |Filter(Hashed(h), rows)| == 1
    ensures var x := Filter(Hashed(h), rows)[0]; x in rows && x.hash == h && forall f :: f in rows && f.hash == h ==> f == x
  {
    var kept := Filter(Hashed(h), rows);
    FilterMember(Hashed(h), rows, kept[0]);
    forall f | f in rows && f.hash == h ensures f == kept[0] { FilterMember(Hashed(h), rows, f); }
  }

  lemma PairMeans(s: Scene, h: string) returns (x: FileRow, y: FileRow)
    requires PairFor(s, h).Some?
    ensures ExactRename(s, x, y) && x.hash == h && PairFor(s, h) == Some((x.id, y.id))
  {
    OnlyOne(s.base, h);
    OnlyOne(s.target, h);
    x, y := Filter(Hashed(h), s.base)[0], Filter(Hashed(h), s.target)[0];
  }

  ghost predicate Distinct(s: Scene) { DistinctRows(s.base) && DistinctRows(s.target) }

  /** Both lookups see the pair of a hash. */
  lemma PairSeen(s: Scene, h: string)
    requires Distinct(s) && PairFor(s, h).Some?
    ensures SourceOf(s, PairFor(s, h).value.1) == Some(PairFor(s, h).value.0)
    ensures RenamedAway(s, PairFor(s, h).value.0)
    ensures exists x :: x in s.base && x.hash == h
  {
    var x, y := PairMeans(s, h);
    RowFound(s.base, x);
    RowFound(s.target, y);
  }

  lemma SourceMeans(s: Scene, id: string) returns (h: string)
    requires SourceOf(s, id).Some?
    ensures PairFor(s, h) == Some((SourceOf(s, id).value, id))
  {
    h := RowById(s.target, id).value.hash;
  }

  lemma AwayMeans(s: Scene, id: string) returns (h: string)
    requires RenamedAway(s, id)
    ensures PairFor(s, h).Some? && PairFor(s, h).value.0 == id
  {
    h := RowById(s.base, id).value.hash;
  }

  // -------------------------------------------------------------- loop form

  /** The loop over the baseline's hashes, in whatever order the map yields them. */
  method InferPairs(s: Scene, hashes: seq<string>) returns (renamed: map<string, string>, gone: set<string>)
    requires Distinct(s) && ListsOnce(hashes, set f | f in s.base :: f.hash)
    ensures forall id :: id in renamed <==> SourceOf(s, id).Some?
    ensures forall id :: id in renamed ==> SourceOf(s, id) == Some(renamed[id])
    ensures forall id :: id in gone <==> RenamedAway(s, id)
  {
    renamed, gone := map[], {};
    for i := 0 to |hashes|
      invariant forall id :: id in renamed ==> SourceOf(s, id) == Some(renamed[id])
      invariant forall id :: id in gone ==> RenamedAway(s, id)
      invariant forall k :: 0 <= k < i && PairFor(s, hashes[k]).Some? ==>
        PairFor(s, hashes[k]).value.1 in renamed && PairFor(s, hashes[k]).value.0 in gone
    {
      var p := PairFor(s, hashes[i]);
      if p.Some? {
        PairSeen(s, hashes[i]);
        renamed, gone := renamed[p.value.1 := p.value.0], gone + {p.value.0};
      }
    }
    ListedOnce(hashes, set f | f in s.base :: f.hash);
    forall id | SourceOf(s, id).Some? ensures id in renamed {
      var h := SourceMeans(s, id);
      PairSeen(s, h);
      assert h in hashes;
    }
    forall id | RenamedAway(s, id) ensures id in gone {
      var h := AwayMeans(s, id);
      PairSeen(s, h);
      assert h in hashes;
    }
  }

  method InferExactFileRenames(ds: seq<Delta>, base: seq<FileRow>, target: seq<FileRow>, hashes: seq<string>)
    returns (result: seq<Delta>)
    requires DistinctRows(base) && DistinctRows(target) && ListsOnce(hashes, set f | f in base :: f.hash)
    ensures result == WithRenames(ds, base, target)
  {
    var s := SceneOf(ds, base, target);
    var renamed, gone := InferPairs(s, hashes);
    ghost var rewrite := Rewriter(s);
    result := [];
    for i := 0 to |ds|
      invariant result == FlatMap(rewrite, ds[..i])
    {
      var d := ds[i];
      assert ds[..i+1] == ds[..i] + [d];
      FlatMapAppend(rewrite, ds[..i], [d]);
      assert FlatMap(rewrite, [d]) == rewrite(d);
      if IsFile(d, "deleted") && d.id in gone {
      } else if IsFile(d, "added") && d.id in renamed {
        result := result + [Delta(0, "renamed", "file", d.id, Some(renamed[d.id]))];
      } else {
        result := result + [d];
      }
    }
    assert ds[..|ds|] == ds;
  }

  // ----------------------------------------------------------- conservation

  function DropTest(s: Scene): Delta -> bool { (d: Delta) => Dropped(s, d) }
  function TurnTest(s: Scene): Delta -> bool { (d: Delta) => Turned(s, d) && !Dropped(s, d) }
  function KeepTest(s: Scene): Delta -> bool { (d: Delta) => !Turned(s, d) && !Dropped(s, d) }
  function Turner(s: Scene): Delta -> Delta { (d: Delta) => RenamedDelta(s, d) }

  lemma {:induction false} RewrittenParts(s: Scene, ds: seq<Delta>)
    ensures multiset(FlatMap(Rewriter(s), ds))
            == multiset(Filter(KeepTest(s), ds)) + multiset(Map(Turner(s), Filter(TurnTest(s), ds)))
  {
    if ds != [] {
      RewrittenParts(s, ds[1..]);
      var first := if TurnTest(s)(ds[0]) then [ds[0]] else [];
      MapAppend(Turner(s), first, Filter(TurnTest(s), ds[1..]));
    }
  }

  lemma {:induction false} ThreeParts(s: Scene, ds: seq<Delta>)
    ensures multiset(ds) == multiset(Filter(KeepTest(s), ds)) + multiset(Filter(TurnTest(s), ds)) + multiset(Filter(DropTest(s), ds))
  {
    if ds != [] {
      assert ds == [ds[0]] + ds[1..];
      ThreeParts(s, ds[1..]);
    }
  }

  function TurnedIds(s: Scene, ds: seq<Delta>): seq<string> { Map(ProducedId, Filter(TurnTest(s), ds)) }
  function DroppedIds(s: Scene, ds: seq<Delta>): seq<string> { Map(ProducedId, Filter(DropTest(s), ds)) }

  function SourceIn(s: Scene): string -> string { (id: string) => var p := SourceOf(s, id); if p.Some? then p.value else "" }

  lemma TurnedMember(s: Scene, ds: seq<Delta>, id: string)
    ensures id in TurnedIds(s, ds) <==> exists d :: d in ds && d.id == id && Turned(s, d)
  {
    var kept := Filter(TurnTest(s), ds);
    if id in TurnedIds(s, ds) {
      MapMember(ProducedId, kept, id);
      var d :| d in kept && ProducedId(d) == id;
      FilterMember(TurnTest(s), ds, d);
    }
    if d :| d in ds && d.id == id && Turned(s, d) {
      FilterMember(TurnTest(s), ds, d);
      var i :| 0 <= i < |kept| && kept[i] == d;
      assert Map(ProducedId, kept)[i] == id;
    }
  }

  lemma DroppedMember(s: Scene, ds: seq<Delta>, id: string)
    ensures id in DroppedIds(s, ds) <==> exists d :: d in ds && d.id == id && Dropped(s, d)
  {
    var kept := Filter(DropTest(s), ds);
    if id in DroppedIds(s, ds) {
      MapMember(ProducedId, kept, id);
      var d :| d in kept && ProducedId(d) == id;
      FilterMember(DropTest(s), ds, d);
    }
    if d :| d in ds && d.id == id && Dropped(s, d) {
      FilterMember(DropTest(s), ds, d);
      var i :| 0 <= i < |kept| && kept[i] == d;
      assert Map(ProducedId, kept)[i] == id;
    }
  }

  /** Every rename's source is a dropped deletion, and the other way round. */
  lemma SourcesAreDropped(ds: seq<Delta>, s: Scene, id: string)
    requires Distinct(s) && s.added == IdsWith(ds, "added") && s.deleted == IdsWith(ds, "deleted")
    ensures id in DroppedIds(s, ds) <==> exists a :: a in TurnedIds(s, ds) && SourceIn(s)(a) == id
  {
    DroppedMember(s, ds, id);
    if id in DroppedIds(s, ds) {
      var h := AwayMeans(s, id);
      var x, y := PairMeans(s, h);
      PairSeen(s, h);
      var d :| d in ds && IsFile(d, "added") && d.id == y.id;
      TurnedMember(s, ds, y.id);
      assert SourceIn(s)(y.id) == id;
    }
    if a :| a in TurnedIds(s, ds) && SourceIn(s)(a) == id {
      TurnedMember(s, ds, a);
      var h := SourceMeans(s, a);
      var x, y := PairMeans(s, h);
      PairSeen(s, h);
      var d :| d in ds && IsFile(d, "deleted") && d.id == x.id;
      assert Dropped(s, d);
    }
  }

  lemma SourceInjective(s: Scene, a: string, b: string)
    requires Distinct(s) && SourceOf(s, a).Some? && SourceOf(s, a) == SourceOf(s, b)
    ensures a == b
  {
    var h := SourceMeans(s, a);
    var k := SourceMeans(s, b);
    var x, y := PairMeans(s, h);
    var z, w := PairMeans(s, k);
    RowFound(s.base, x);
    RowFound(s.base, z);
  }

  /** An added delta names no previous entity, as the comparison produces them. */
  ghost predicate Plain(ds: seq<Delta>) { forall d :: d in ds && d.change == "added" ==> d.previous.None? }

  lemma TurnedCounts(s: Scene, ds: seq<Delta>)
    requires Plain(ds)
    ensures var t := Filter(TurnTest(s), ds);
      Consumed(t) == multiset{} && Produced(t) == multiset(TurnedIds(s, ds))
  {
    var t := Filter(TurnTest(s), ds);
    forall d | d in t ensures !Consumes(d) && Produces(d) { FilterMember(TurnTest(s), ds, d); }
    FilterNone(Consumes, t);
    FilterAll(Produces, t);
  }

  lemma DroppedCounts(s: Scene, ds: seq<Delta>)
    ensures var t := Filter(DropTest(s), ds);
      Consumed(t) == multiset(DroppedIds(s, ds)) && Produced(t) == multiset{}
  {
    var t := Filter(DropTest(s), ds);
    forall d | d in t ensures Consumes(d) && !Produces(d) && ConsumedId(d) == ProducedId(d) { FilterMember(DropTest(s), ds, d); }
    FilterAll(Consumes, t);
    FilterNone(Produces, t);
    MapSame(ConsumedId, ProducedId, t);
  }

  lemma RenamedCounts(s: Scene, ds: seq<Delta>)
    ensures var t := Map(Turner(s), Filter(TurnTest(s), ds));
      Consumed(t) == multiset(Map(SourceIn(s), TurnedIds(s, ds))) && Produced(t) == multiset(TurnedIds(s, ds))
  {
    var kept := Filter(TurnTest(s), ds);
    var t := Map(Turner(s), kept);
    forall i | 0 <= i < |kept|
      ensures Consumes(t[i]) && Produces(t[i]) && ConsumedId(t[i]) == SourceIn(s)(kept[i].id) && t[i].id == kept[i].id {
      FilterMember(TurnTest(s), ds, kept[i]);
    }
    FilterAll(Consumes, t);
    FilterAll(Produces, t);
    assert Map(ConsumedId, t) == Map(SourceIn(s), TurnedIds(s, ds));
    assert Map(ProducedId, t) == TurnedIds(s, ds);
  }

  lemma ThreeCounts(ds: seq<Delta>, k: seq<Delta>, t: seq<Delta>, d: seq<Delta>)
    requires multiset(ds) == multiset(k) + multiset(t) + multiset(d)
    ensures Consumed(ds) == Consumed(k) + Consumed(t) + Consumed(d) && Produced(ds) == Produced(k) + Produced(t) + Produced(d)
  {
    ConsumedPermutes(ds, k + t + d);
    ConsumedThree(k, t, d);
  }

  lemma AddUp(all: multiset<string>, x: multiset<string>, y: multiset<string>, z: multiset<string>, w: multiset<string>)
    requires all == x + y + z && ((y == multiset{} && z == w) || (z == multiset{} && y == w))
    ensures all == x + w
  {}

  lemma PartsCount(s: Scene, ds: seq<Delta>)
    requires Plain(ds)
    ensures Consumed(ds) == Consumed(Filter(KeepTest(s), ds)) + multiset(DroppedIds(s, ds))
    ensures Produced(ds) == Produced(Filter(KeepTest(s), ds)) + multiset(TurnedIds(s, ds))
  {
    var k, t, d := Filter(KeepTest(s), ds), Filter(TurnTest(s), ds), Filter(DropTest(s), ds);
    var kc, tc, dc, kp, tp, dp := Consumed(k), Consumed(t), Consumed(d), Produced(k), Produced(t), Produced(d);
    assert Consumed(ds) == kc + tc + dc && Produced(ds) == kp + tp + dp by { ThreeParts(s, ds); ThreeCounts(ds, k, t, d); }
    assert tc == multiset{} && tp == multiset(TurnedIds(s, ds)) by { TurnedCounts(s, ds); }
    assert dp == multiset{} && dc == multiset(DroppedIds(s, ds)) by { DroppedCounts(s, ds); }
    AddUp(Consumed(ds), kc, tc, dc, multiset(DroppedIds(s, ds)));
    AddUp(Produced(ds), kp, tp, dp, multiset(TurnedIds(s, ds)));
  }

  lemma RewrittenCount(s: Scene, ds: seq<Delta>)
    ensures var k, after := Filter(KeepTest(s), ds), FlatMap(Rewriter(s), ds);
      && Consumed(after) == Consumed(k) + multiset(Map(SourceIn(s), TurnedIds(s, ds)))
      && Produced(after) == Produced(k) + multiset(TurnedIds(s, ds))
  {
    var k, t, after := Filter(KeepTest(s), ds), Map(Turner(s), Filter(TurnTest(s), ds)), FlatMap(Rewriter(s), ds);
    RewrittenParts(s, ds);
    ConsumedPermutes(after, k + t);
    ConsumedAppend(k, t);
    RenamedCounts(s, ds);
  }

  lemma SourcesDistinct(s: Scene, ds: seq<Delta>)
    requires Distinct(s) && NoRepeat(TurnedIds(s, ds))
    ensures NoRepeat(Map(SourceIn(s), TurnedIds(s, ds)))
  {
    var ids := TurnedIds(s, ds);
    var from := Map(SourceIn(s), ids);
    forall i, j | 0 <= i < j < |from| ensures from[i] != from[j] {
      TurnedMember(s, ds, ids[i]);
      TurnedMember(s, ds, ids[j]);
      if from[i] == from[j] { SourceInjective(s, ids[i], ids[j]); }
    }
  }

  /** Renames take the place of exactly the deletions they drop. */
  lemma SourcesReplaceDropped(s: Scene, ds: seq<Delta>)
    requires Distinct(s) && s.added == IdsWith(ds, "added") && s.deleted == IdsWith(ds, "deleted")
    requires NoRepeat(TurnedIds(s, ds)) && NoRepeat(DroppedIds(s, ds))
    ensures multiset(Map(SourceIn(s), TurnedIds(s, ds))) == multiset(DroppedIds(s, ds))
  {
    var ids := TurnedIds(s, ds);
    SourcesDistinct(s, ds);
    forall id ensures id in Map(SourceIn(s), ids) <==> id in DroppedIds(s, ds) {
      SourcesAreDropped(ds, s, id);
      if id in Map(SourceIn(s), ids) { MapMember(SourceIn(s), ids, id); }
      if a :| a in ids && SourceIn(s)(a) == id {
        var i :| 0 <= i < |ids| && ids[i] == a;
        assert Map(SourceIn(s), ids)[i] == id;
      }
    }
    SameElements(Map(SourceIn(s), ids), DroppedIds(s, ds));
  }

  /** Inferring renames neither loses nor repeats an identifier. */
  lemma RenamesConserve(ds: seq<Delta>, base: seq<FileRow>, target: seq<FileRow>)
    requires DistinctRows(base) && DistinctRows(target) && Plain(ds) && Sparing(ds)
    ensures Consumed(WithRenames(ds, base, target)) == Consumed(ds)
    ensures Produced(WithRenames(ds, base, target)) == Produced(ds)
  {
    var s := SceneOf(ds, base, target);
    PartsCount(s, ds);
    RewrittenCount(s, ds);
    NoRepeatWithin(TurnedIds(s, ds), Produced(ds));
    NoRepeatWithin(DroppedIds(s, ds), Consumed(ds));
    SourcesReplaceDropped(s, ds);
  }

  /** Renames join only byte-identical files whose bytes are unique on both
      sides, one deleted and one added; every other delta is an original one. */
  lemma RenamesExact(ds: seq<Delta>, base: seq<FileRow>, target: seq<FileRow>, d: Delta)
    requires d in WithRenames(ds, base, target)
    ensures d in ds || exists x, y :: ExactRename(SceneOf(ds, base, target), x, y)
                          && d == Delta(0, "renamed", "file", y.id, Some(x.id))
  {
    var s := SceneOf(ds, base, target);
    FlatMapMember(Rewriter(s), ds, d);
    var e :| e in ds && d in Rewriter(s)(e);
    if Turned(s, e) && !Dropped(s, e) {
      var h := SourceMeans(s, e.id);
      var x, y := PairMeans(s, h);
      assert d == Delta(0, "renamed", "file", y.id, Some(x.id));
    }
  }
}
