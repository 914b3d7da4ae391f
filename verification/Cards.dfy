/** Index cards and the identifiers derived from them.
    An identifier is kept as the value it is computed from; `RenderEntity`,
    `RenderLineage` and `RenderRelation` give the strings the code stores, and
    `EntityInjective`, `LineageInjective` and `RelationInjective` show that the
    two views agree. */
module Cards {
  import opened Identity
  import opened Ordering

  datatype Option<+T> = None | Some(value: T)
  datatype Outcome<+T> = Ok(value: T) | Err

  datatype AdapterDescriptor = AdapterDescriptor(
    name: string, version: string, configurationHash: string, capabilityHash: string)

  datatype Position = Position(line: int, column: int, offset: int)
  datatype SourceRange = SourceRange(start: Position, end: Position)

  datatype EntityId =
    | FileId(repository: string, commit: string, path: string, blob: string, sourceHash: string)
    | SymbolId(file: EntityId, language: string, kind: string, qualifiedName: string,
               signature: string, declaration: SourceRange)
    | ExternalId(name: string)

  datatype LineageId =
    | FileLineage(repository: string, path: string)
    | SymbolLineage(file: LineageId, language: string, kind: string, qualifiedName: string)

  datatype RelationId = RelationId(
    snapshot: string, source: EntityId, kind: string, resolution: string,
    target: Option<EntityId>, unresolved: string, evidenceClass: string,
    sourceFile: EntityId, locator: SourceRange, evidenceHash: string, adapter: AdapterDescriptor)

  // ---------------------------------------------------------------- rendering

  function Decimal(n: nat): (s: string)
    ensures |s| > 0
    ensures forall c :: c in s ==> '0' <= c <= '9'
  {
    if n < 10 then [(n + 48) as char] else Decimal(n / 10) + [(n % 10 + 48) as char]
  }

  lemma {:induction false} DecimalInjective(n: nat, m: nat)
    requires Decimal(n) == Decimal(m)
    ensures n == m
  {
    var s, t := Decimal(n), Decimal(m);
    assert s[|s|-1] == t[|t|-1];
    if n >= 10 && m >= 10 {
      assert s[..|s|-1] == Decimal(n / 10) && t[..|t|-1] == Decimal(m / 10);
      DecimalInjective(n / 10, m / 10);
    }
  }

  /** Go's `%d`. */
  function FormatInt(n: int): string {
    if n < 0 then "-" + Decimal(-n) else Decimal(n)
  }

  function SourceRangeKey(r: SourceRange): string {
    FormatInt(r.start.line) + ":" + (FormatInt(r.start.column) + ":" + (FormatInt(r.start.offset) + "-" +
    (FormatInt(r.end.line) + ":" + (FormatInt(r.end.column) + ":" + FormatInt(r.end.offset)))))
  }

  lemma FieldRecovered(a: string, b: string, mark: char, x: string, y: string)
    requires mark !in a && mark !in b && a + [mark] + x == b + [mark] + y
    ensures a == b && x == y
  {
    var s, t := a + [mark] + x, b + [mark] + y;
    assert s[|a|] == mark && t[|b|] == mark;
    assert forall i :: 0 <= i < |a| ==> s[i] == a[i];
    assert forall i :: 0 <= i < |b| ==> t[i] == b[i];
    assert |a| == |b|;
    assert s[..|a|] == a && t[..|b|] == b;
    assert s[|a|+1..] == x && t[|b|+1..] == y;
  }

  lemma SignShown(n: int)
    ensures FormatInt(n) != "" && (FormatInt(n)[0] == '-' <==> n < 0)
  {
    if n >= 0 { assert Decimal(n)[0] in Decimal(n); }
  }

  lemma FormatIntInjective(n: int, m: int)
    requires FormatInt(n) == FormatInt(m)
    ensures n == m
  {
    SignShown(n);
    SignShown(m);
    if n < 0 {
      assert FormatInt(n)[1..] == Decimal(-n) && FormatInt(m)[1..] == Decimal(-m);
      DecimalInjective(-n, -m);
    } else {
      DecimalInjective(n, m);
    }
  }

  lemma NumberRecovered(n: int, m: int, x: string, y: string)
    requires FormatInt(n) + ":" + x == FormatInt(m) + ":" + y
    ensures n == m && x == y
  {
    FieldRecovered(FormatInt(n), FormatInt(m), ':', x, y);
    FormatIntInjective(n, m);
  }

  lemma SignsAgree(a: string, b: string, x: string, y: string, n: int, m: int)
    requires a == FormatInt(n) && b == FormatInt(m) && a + "-" + x == b + "-" + y
    ensures n < 0 <==> m < 0
  {
    SignShown(n);
    SignShown(m);
    assert (a + "-" + x)[0] == a[0] && (b + "-" + y)[0] == b[0];
  }

  lemma DigitsOnly(n: nat)
    ensures '-' !in Decimal(n)
  {}

  lemma NaturalRecovered(n: nat, m: nat, x: string, y: string)
    requires Decimal(n) + "-" + x == Decimal(m) + "-" + y
    ensures n == m && x == y
  {
    DigitsOnly(n);
    DigitsOnly(m);
    FieldRecovered(Decimal(n), Decimal(m), '-', x, y);
    DecimalInjective(n, m);
  }

  lemma NegativeRecovered(n: nat, m: nat, x: string, y: string)
    requires "-" + Decimal(n) + "-" + x == "-" + Decimal(m) + "-" + y
    ensures n == m && x == y
  {
    var s, t := "-" + Decimal(n) + "-" + x, "-" + Decimal(m) + "-" + y;
    assert s[1..] == Decimal(n) + "-" + x && t[1..] == Decimal(m) + "-" + y;
    NaturalRecovered(n, m, x, y);
  }

  lemma OffsetRecovered(n: int, m: int, x: string, y: string)
    requires FormatInt(n) + "-" + x == FormatInt(m) + "-" + y
    ensures n == m && x == y
  {
    SignsAgree(FormatInt(n), FormatInt(m), x, y, n, m);
    if n < 0 { NegativeRecovered(-n, -m, x, y); } else { NaturalRecovered(n, m, x, y); }
  }

  function RangeTail3(r: SourceRange): string {
    FormatInt(r.end.line) + ":" + (FormatInt(r.end.column) + ":" + FormatInt(r.end.offset))
  }

  lemma SourceRangeKeyInjective(r: SourceRange, s: SourceRange)
    requires SourceRangeKey(r) == SourceRangeKey(s)
    ensures r == s
  {
    var r3, s3 := RangeTail3(r), RangeTail3(s);
    var r2, s2 := FormatInt(r.start.offset) + "-" + r3, FormatInt(s.start.offset) + "-" + s3;
    var r1, s1 := FormatInt(r.start.column) + ":" + r2, FormatInt(s.start.column) + ":" + s2;
    NumberRecovered(r.start.line, s.start.line, r1, s1);
    NumberRecovered(r.start.column, s.start.column, r2, s2);
    OffsetRecovered(r.start.offset, s.start.offset, r3, s3);
    NumberRecovered(r.end.line, s.end.line,
      FormatInt(r.end.column) + ":" + FormatInt(r.end.offset),
      FormatInt(s.end.column) + ":" + FormatInt(s.end.offset));
    NumberRecovered(r.end.column, s.end.column, FormatInt(r.end.offset), FormatInt(s.end.offset));
    FormatIntInjective(r.end.offset, s.end.offset);
  }

  function RenderEntity(e: EntityId): string {
    match e
    case FileId(repository, commit, path, blob, sourceHash) =>
      StableIndexID("file", [repository, commit, path, blob, sourceHash])
    case SymbolId(file, language, kind, name, signature, declaration) =>
      StableIndexID("symbol", [RenderEntity(file), language, kind, name, signature, SourceRangeKey(declaration)])
    case ExternalId(name) => StableIndexID("external", [name])
  }

  function RenderLineage(l: LineageId): string {
    match l
    case FileLineage(repository, path) => StableIndexID("file_lineage", [repository, path])
    case SymbolLineage(file, language, kind, name) =>
      StableIndexID("symbol_lineage", [RenderLineage(file), language, kind, name])
  }

  function RelationComponents(r: RelationId): seq<string> {
    [r.snapshot, RenderEntity(r.source), r.kind, r.resolution,
     if r.target.Some? then RenderEntity(r.target.value) else "", r.unresolved, r.evidenceClass,
     RenderEntity(r.sourceFile), SourceRangeKey(r.locator), r.evidenceHash,
     r.adapter.name, r.adapter.version, r.adapter.configurationHash, r.adapter.capabilityHash]
  }

  function RenderRelation(r: RelationId): string {
    StableIndexID("relation", RelationComponents(r))
  }

  function Kind(e: EntityId): string {
    match e case FileId(_, _, _, _, _) => "file" case SymbolId(_, _, _, _, _, _) => "symbol" case ExternalId(_) => "external"
  }

  function Parts(e: EntityId): seq<string> {
    match e
    case FileId(repository, commit, path, blob, sourceHash) => [repository, commit, path, blob, sourceHash]
    case SymbolId(file, language, kind, name, signature, declaration) =>
      [RenderEntity(file), language, kind, name, signature, SourceRangeKey(declaration)]
    case ExternalId(name) => [name]
  }

  lemma {:induction false} EntityInjective(a: EntityId, b: EntityId)
    requires RenderEntity(a) == RenderEntity(b)
    ensures a == b
  {
    var x, y := Parts(a), Parts(b);
    StableIndexIDInjective(Kind(a), x, Kind(b), y);
    assert Kind(a) == Kind(b) && x == y;
    assert Kind(a)[0] == Kind(b)[0];
    match a
    case FileId(_, _, _, _, _) =>
      assert x[0] == y[0] && x[1] == y[1] && x[2] == y[2] && x[3] == y[3] && x[4] == y[4];
    case SymbolId(file, _, _, _, _, declaration) =>
      assert x[0] == y[0] && x[1] == y[1] && x[2] == y[2] && x[3] == y[3] && x[4] == y[4] && x[5] == y[5];
      EntityInjective(file, b.file);
      SourceRangeKeyInjective(declaration, b.declaration);
    case ExternalId(_) =>
      assert x[0] == y[0];
  }

  lemma {:induction false} LineageInjective(a: LineageId, b: LineageId)
    requires RenderLineage(a) == RenderLineage(b)
    ensures a == b
  {
    var p, q := if a.FileLineage? then "file_lineage" else "symbol_lineage",
                if b.FileLineage? then "file_lineage" else "symbol_lineage";
    var x := if a.FileLineage? then [a.repository, a.path] else [RenderLineage(a.file), a.language, a.kind, a.qualifiedName];
    var y := if b.FileLineage? then [b.repository, b.path] else [RenderLineage(b.file), b.language, b.kind, b.qualifiedName];
    StableIndexIDInjective(p, x, q, y);
    assert p[0] == q[0];
    if a.FileLineage? {
      assert x[0] == y[0] && x[1] == y[1];
    } else {
      assert x[0] == y[0] && x[1] == y[1] && x[2] == y[2] && x[3] == y[3];
      LineageInjective(a.file, b.file);
    }
  }

  lemma RelationInjective(a: RelationId, b: RelationId)
    requires RenderRelation(a) == RenderRelation(b)
    ensures a == b
  {
    var x, y := RelationComponents(a), RelationComponents(b);
    StableIndexIDInjective("relation", x, "relation", y);
    assert x[0] == y[0] && x[1] == y[1] && x[2] == y[2] && x[3] == y[3] && x[4] == y[4] && x[5] == y[5] && x[6] == y[6];
    assert x[7] == y[7] && x[8] == y[8] && x[9] == y[9] && x[10] == y[10] && x[11] == y[11] && x[12] == y[12] && x[13] == y[13];
    EntityInjective(a.source, b.source);
    EntityInjective(a.sourceFile, b.sourceFile);
    SourceRangeKeyInjective(a.locator, b.locator);
    if a.target.Some? && b.target.Some? { EntityInjective(a.target.value, b.target.value); }
  }

  predicate HasPrefix(s: string, p: string) { |p| <= |s| && s[..|p|] == p }

  lemma StableStarts(prefix: string, components: seq<string>)
    requires prefix != ""
    ensures HasPrefix(StableIndexID(prefix, components), prefix + "_") && StableIndexID(prefix, components)[0] == prefix[0]
  {
    var s := StableIndexID(prefix, components);
    assert s[..|prefix| + 1] == prefix + "_";
  }

  lemma OtherInitial(s: string, c: char)
    requires s != "" && s[0] == c && c != 'e'
    ensures !HasPrefix(s, "external_")
  {
    assert "external_"[0] == 'e' && (|s| >= 9 ==> s[..9][0] == c);
  }

  /** The code's string test for an external target is the constructor test. */
  lemma ExternalByPrefix(e: EntityId)
    ensures HasPrefix(RenderEntity(e), "external_") <==> e.ExternalId?
  {
    match e
    case FileId(repository, commit, path, blob, sourceHash) =>
      StableStarts("file", [repository, commit, path, blob, sourceHash]);
      OtherInitial(RenderEntity(e), 'f');
    case SymbolId(file, language, kind, name, signature, declaration) =>
      StableStarts("symbol", [RenderEntity(file), language, kind, name, signature, SourceRangeKey(declaration)]);
      OtherInitial(RenderEntity(e), 's');
    case ExternalId(name) =>
      StableStarts("external", [name]);
      assert "external" + "_" == "external_";
  }

  predicate EntityLess(a: EntityId, b: EntityId) { Less(RenderEntity(a), RenderEntity(b)) }
  predicate RelationIdLess(a: RelationId, b: RelationId) { Less(RenderRelation(a), RenderRelation(b)) }

  lemma EntityOrder()
    ensures WeakOrder(EntityLess)
    ensures forall a, b :: a == b || EntityLess(a, b) || EntityLess(b, a)
  {
    StringOrder();
    forall a, b ensures a == b || EntityLess(a, b) || EntityLess(b, a) {
      if RenderEntity(a) == RenderEntity(b) { EntityInjective(a, b); }
    }
  }

  lemma RelationIdOrder()
    ensures WeakOrder(RelationIdLess)
    ensures forall a, b :: a == b || RelationIdLess(a, b) || RelationIdLess(b, a)
  {
    StringOrder();
    forall a, b ensures a == b || RelationIdLess(a, b) || RelationIdLess(b, a) {
      if RenderRelation(a) == RenderRelation(b) { RelationInjective(a, b); }
    }
  }
}
