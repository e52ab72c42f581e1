/** The laws asked of the libraries can be met: a codec that meets all of them, with a digest
    that is injective. Values are written as prefix codes, and read back by the uniqueness of
    what was written. */
module CodecWitness {
  import opened Common
  import opened BackupValues
  import opened PS = ParquetSerializer
  import opened BackupEngine

  /** No code word continues another: what follows a word is determined with it. */
  ghost predicate PrefixCode<T(!new)>(code: T -> Bytes) {
    forall x, y, r, s :: code(x) + r == code(y) + s ==> x == y && r == s
  }

  lemma Peel(a: byte, x: Bytes, b: byte, y: Bytes)
    requires [a] + x == [b] + y
    ensures a == b && x == y
  {
    assert ([a] + x)[0] == a && ([b] + y)[0] == b;
    assert ([a] + x)[1..] == x && ([b] + y)[1..] == y;
  }

  lemma Assoc(a: Bytes, b: Bytes, c: Bytes)
    ensures (a + b) + c == a + (b + c)
  {
  }

  // ---------------------------------------------------------------- the codes

  function NatCode(n: nat): Bytes { if n == 0 then [0] else [1] + NatCode(n - 1) }

  function IntCode(i: int): Bytes { if i >= 0 then [0] + NatCode(i) else [1] + NatCode(-i) }

  function ListCode<T>(code: T -> Bytes, xs: seq<T>): Bytes {
    if xs == [] then [0] else [1] + (code(xs[0]) + ListCode(code, xs[1..]))
  }

  function CharCode(c: char): Bytes { NatCode(c as int) }

  function TextCode(s: string): Bytes { ListCode(CharCode, s) }

  function CellCode(c: Cell): Bytes {
    match c
    case Null => [0]
    case I64(i) => [1] + IntCode(i)
    case Text(s) => [2] + TextCode(s)
    case F64(bits) => [3] + IntCode(bits)
    case B(b) => [4] + NatCode(if b then 1 else 0)
    case Micros(us) => [5] + IntCode(us)
  }

  function CellsCode(cells: Cells): Bytes { ListCode(CellCode, cells) }

  function ColumnCode(c: Column): Bytes { TextCode(c.name) + TextCode(c.typ) }

  function BatchCode(b: RecordBatch): Bytes { NatCode(b.numRows) + ListCode(CellsCode, b.columns) }

  function SchemaCode(schema: seq<Column>): Bytes { ListCode(ColumnCode, schema) }

  function FileCode(schema: seq<Column>, groups: seq<RecordBatch>): Bytes {
    SchemaCode(schema) + ListCode(BatchCode, groups)
  }

  function ChunkCode(c: Chunk): Bytes {
    NatCode(c.index) + (TextCode(c.file) + (NatCode(c.rowCount) + TextCode(c.sha256)))
  }

  function ManifestCode(m: Manifest): Bytes {
    TextCode(m.operationID) + (TextCode(m.table) + (IntCode(m.chunkSizeBytes) + (NatCode(m.rowCount)
      + (SchemaCode(m.schema) + ListCode(ChunkCode, m.chunks)))))
  }

  // ---------------------------------------------------------------- they are prefix codes

  lemma {:induction false} NatIsPrefixCode(x: nat, y: nat, r: Bytes, s: Bytes)
    requires NatCode(x) + r == NatCode(y) + s
    ensures x == y && r == s
  {
    if x == 0 || y == 0 {
      assert (NatCode(x) + r)[0] == NatCode(x)[0] && (NatCode(y) + s)[0] == NatCode(y)[0];
      Peel(0, r, 0, s);
    } else {
      Assoc([1], NatCode(x - 1), r);
      Assoc([1], NatCode(y - 1), s);
      Peel(1, NatCode(x - 1) + r, 1, NatCode(y - 1) + s);
      NatIsPrefixCode(x - 1, y - 1, r, s);
    }
  }

  lemma IntIsPrefixCode(x: int, y: int, r: Bytes, s: Bytes)
    requires IntCode(x) + r == IntCode(y) + s
    ensures x == y && r == s
  {
    var a, b := if x >= 0 then x else -x, if y >= 0 then y else -y;
    var i: byte, j: byte := if x >= 0 then 0 else 1, if y >= 0 then 0 else 1;
    Assoc([i], NatCode(a), r);
    Assoc([j], NatCode(b), s);
    Peel(i, NatCode(a) + r, j, NatCode(b) + s);
    NatIsPrefixCode(a, b, r, s);
  }

  lemma {:induction false} ListIsPrefixCode<T(!new)>(code: T -> Bytes, xs: seq<T>, ys: seq<T>, r: Bytes, s: Bytes)
    requires PrefixCode(code) && ListCode(code, xs) + r == ListCode(code, ys) + s
    ensures xs == ys && r == s
    decreases |xs|
  {
    if xs == [] || ys == [] {
      assert (ListCode(code, xs) + r)[0] == ListCode(code, xs)[0];
      assert (ListCode(code, ys) + s)[0] == ListCode(code, ys)[0];
      Peel(0, r, 0, s);
    } else {
      var x, y := ListCode(code, xs[1..]), ListCode(code, ys[1..]);
      Assoc([1], code(xs[0]) + x, r);
      Assoc([1], code(ys[0]) + y, s);
      Peel(1, code(xs[0]) + x + r, 1, code(ys[0]) + y + s);
      Assoc(code(xs[0]), x, r);
      Assoc(code(ys[0]), y, s);
      assert code(xs[0]) + (x + r) == code(ys[0]) + (y + s);
      ListIsPrefixCode(code, xs[1..], ys[1..], r, s);
      assert xs == [xs[0]] + xs[1..] && ys == [ys[0]] + ys[1..];
    }
  }

  lemma TextIsPrefixCode(x: string, y: string, r: Bytes, s: Bytes)
    requires TextCode(x) + r == TextCode(y) + s
    ensures x == y && r == s
  {
    forall c, d, t, u | CharCode(c) + t == CharCode(d) + u ensures c == d && t == u {
      NatIsPrefixCode(c as int, d as int, t, u);
    }
    ListIsPrefixCode(CharCode, x, y, r, s);
  }

  function Tag(c: Cell): byte {
    match c
    case Null => 0
    case I64(_) => 1
    case Text(_) => 2
    case F64(_) => 3
    case B(_) => 4
    case Micros(_) => 5
  }

  function Payload(c: Cell): Bytes {
    match c
    case Null => []
    case I64(i) => IntCode(i)
    case Text(s) => TextCode(s)
    case F64(bits) => IntCode(bits)
    case B(b) => NatCode(if b then 1 else 0)
    case Micros(us) => IntCode(us)
  }

  lemma CellIsPrefixCode(x: Cell, y: Cell, r: Bytes, s: Bytes)
    requires CellCode(x) + r == CellCode(y) + s
    ensures x == y && r == s
  {
    assert CellCode(x) == [Tag(x)] + Payload(x) && CellCode(y) == [Tag(y)] + Payload(y);
    Assoc([Tag(x)], Payload(x), r);
    Assoc([Tag(y)], Payload(y), s);
    Peel(Tag(x), Payload(x) + r, Tag(y), Payload(y) + s);
    SamePayload(x, y, r, s);
  }

  lemma SamePayload(x: Cell, y: Cell, r: Bytes, s: Bytes)
    requires Tag(x) == Tag(y) && Payload(x) + r == Payload(y) + s
    ensures x == y && r == s
  {
    match x
    case Null => assert Payload(x) + r == r && Payload(y) + s == s;
    case I64(i) => IntIsPrefixCode(i, y.i, r, s);
    case Text(t) => TextIsPrefixCode(t, y.s, r, s);
    case F64(bits) => IntIsPrefixCode(bits, y.bits, r, s);
    case B(b) => NatIsPrefixCode(if b then 1 else 0, if y.b then 1 else 0, r, s);
    case Micros(us) => IntIsPrefixCode(us, y.us, r, s);
  }

  lemma CellsArePrefixCode()
    ensures PrefixCode(CellsCode)
  {
    forall c, d, t, u | CellCode(c) + t == CellCode(d) + u ensures c == d && t == u {
      CellIsPrefixCode(c, d, t, u);
    }
    forall x, y, r, s | CellsCode(x) + r == CellsCode(y) + s ensures x == y && r == s {
      ListIsPrefixCode(CellCode, x, y, r, s);
    }
  }

  lemma BatchIsPrefixCode(x: RecordBatch, y: RecordBatch, r: Bytes, s: Bytes)
    requires BatchCode(x) + r == BatchCode(y) + s
    ensures x == y && r == s
  {
    var a, b := ListCode(CellsCode, x.columns), ListCode(CellsCode, y.columns);
    Assoc(NatCode(x.numRows), a, r);
    Assoc(NatCode(y.numRows), b, s);
    NatIsPrefixCode(x.numRows, y.numRows, a + r, b + s);
    CellsArePrefixCode();
    ListIsPrefixCode(CellsCode, x.columns, y.columns, r, s);
  }

  lemma ColumnIsPrefixCode(x: Column, y: Column, r: Bytes, s: Bytes)
    requires ColumnCode(x) + r == ColumnCode(y) + s
    ensures x == y && r == s
  {
    Assoc(TextCode(x.name), TextCode(x.typ), r);
    Assoc(TextCode(y.name), TextCode(y.typ), s);
    TextIsPrefixCode(x.name, y.name, TextCode(x.typ) + r, TextCode(y.typ) + s);
    TextIsPrefixCode(x.typ, y.typ, r, s);
  }

  lemma SchemaIsPrefixCode(x: seq<Column>, y: seq<Column>, r: Bytes, s: Bytes)
    requires SchemaCode(x) + r == SchemaCode(y) + s
    ensures x == y && r == s
  {
    forall c, d, t, u | ColumnCode(c) + t == ColumnCode(d) + u ensures c == d && t == u {
      ColumnIsPrefixCode(c, d, t, u);
    }
    ListIsPrefixCode(ColumnCode, x, y, r, s);
  }

  lemma FileCodeInjective(schema1: seq<Column>, groups1: seq<RecordBatch>, schema2: seq<Column>,
                          groups2: seq<RecordBatch>)
    requires FileCode(schema1, groups1) == FileCode(schema2, groups2)
    ensures schema1 == schema2 && groups1 == groups2
  {
    var a, b := ListCode(BatchCode, groups1), ListCode(BatchCode, groups2);
    SchemaIsPrefixCode(schema1, schema2, a, b);
    forall c, d, t, u | BatchCode(c) + t == BatchCode(d) + u ensures c == d && t == u {
      BatchIsPrefixCode(c, d, t, u);
    }
    assert a + [] == b + [];
    ListIsPrefixCode(BatchCode, groups1, groups2, [], []);
  }

  lemma ChunkIsPrefixCode(x: Chunk, y: Chunk, r: Bytes, s: Bytes)
    requires ChunkCode(x) + r == ChunkCode(y) + s
    ensures x == y && r == s
  {
    var a, b := NatCode(x.rowCount) + TextCode(x.sha256), NatCode(y.rowCount) + TextCode(y.sha256);
    Assoc(NatCode(x.index), TextCode(x.file) + a, r);
    Assoc(NatCode(y.index), TextCode(y.file) + b, s);
    NatIsPrefixCode(x.index, y.index, TextCode(x.file) + a + r, TextCode(y.file) + b + s);
    Assoc(TextCode(x.file), a, r);
    Assoc(TextCode(y.file), b, s);
    TextIsPrefixCode(x.file, y.file, a + r, b + s);
    Assoc(NatCode(x.rowCount), TextCode(x.sha256), r);
    Assoc(NatCode(y.rowCount), TextCode(y.sha256), s);
    NatIsPrefixCode(x.rowCount, y.rowCount, TextCode(x.sha256) + r, TextCode(y.sha256) + s);
    TextIsPrefixCode(x.sha256, y.sha256, r, s);
  }

  /** The last three fields of a manifest. */
  function ManifestTail(m: Manifest): Bytes {
    NatCode(m.rowCount) + (SchemaCode(m.schema) + ListCode(ChunkCode, m.chunks))
  }

  lemma TailIsPrefixCode(x: Manifest, y: Manifest, r: Bytes, s: Bytes)
    requires ManifestTail(x) + r == ManifestTail(y) + s
    ensures x.rowCount == y.rowCount && x.schema == y.schema && x.chunks == y.chunks && r == s
  {
    var a, b := ListCode(ChunkCode, x.chunks), ListCode(ChunkCode, y.chunks);
    Assoc(NatCode(x.rowCount), SchemaCode(x.schema) + a, r);
    Assoc(NatCode(y.rowCount), SchemaCode(y.schema) + b, s);
    NatIsPrefixCode(x.rowCount, y.rowCount, SchemaCode(x.schema) + a + r, SchemaCode(y.schema) + b + s);
    Assoc(SchemaCode(x.schema), a, r);
    Assoc(SchemaCode(y.schema), b, s);
    SchemaIsPrefixCode(x.schema, y.schema, a + r, b + s);
    forall c, d, t, u | ChunkCode(c) + t == ChunkCode(d) + u ensures c == d && t == u {
      ChunkIsPrefixCode(c, d, t, u);
    }
    ListIsPrefixCode(ChunkCode, x.chunks, y.chunks, r, s);
  }

  lemma ManifestIsPrefixCode(x: Manifest, y: Manifest, r: Bytes, s: Bytes)
    requires ManifestCode(x) + r == ManifestCode(y) + s
    ensures x == y && r == s
  {
    var a, b := IntCode(x.chunkSizeBytes) + ManifestTail(x), IntCode(y.chunkSizeBytes) + ManifestTail(y);
    Assoc(TextCode(x.operationID), TextCode(x.table) + a, r);
    Assoc(TextCode(y.operationID), TextCode(y.table) + b, s);
    TextIsPrefixCode(x.operationID, y.operationID, TextCode(x.table) + a + r, TextCode(y.table) + b + s);
    Assoc(TextCode(x.table), a, r);
    Assoc(TextCode(y.table), b, s);
    TextIsPrefixCode(x.table, y.table, a + r, b + s);
    Assoc(IntCode(x.chunkSizeBytes), ManifestTail(x), r);
    Assoc(IntCode(y.chunkSizeBytes), ManifestTail(y), s);
    IntIsPrefixCode(x.chunkSizeBytes, y.chunkSizeBytes, ManifestTail(x) + r, ManifestTail(y) + s);
    TailIsPrefixCode(x, y, r, s);
  }

  // ---------------------------------------------------------------- the codec

  ghost predicate WrittenAs(b: Bytes, schema: seq<Column>, groups: seq<RecordBatch>) {
    AllValid(groups, |schema|) && FileCode(schema, groups) == b
  }

  ghost function ReadFile(b: Bytes): Option<ParquetFile> {
    if exists schema, groups :: WrittenAs(b, schema, groups) then
      var schema, groups :| WrittenAs(b, schema, groups);
      Some(ParquetFile(Names(schema), groups, false))
    else None
  }

  ghost function ReadManifest(b: Bytes): Option<Manifest> {
    if exists m :: ManifestCode(m) == b then (var m :| ManifestCode(m) == b; Some(m)) else None
  }

  function Spelled(b: Bytes): (s: string)
    ensures |s| == |b| && forall i :: 0 <= i < |b| ==> s[i] as int == b[i] as int
  {
    seq(|b|, i requires 0 <= i < |b| => b[i] as char)
  }

  ghost function Witness(): Codec {
    Codec(b => b, b => Some(b), FileCode, ReadFile, b => ([], false), Spelled, ManifestCode, ReadManifest)
  }

  lemma FileReadsBack(schema: seq<Column>, groups: seq<RecordBatch>)
    requires AllValid(groups, |schema|)
    ensures ReadsBack(Witness(), schema, groups)
  {
    var b := FileCode(schema, groups);
    assert WrittenAs(b, schema, groups);
    forall s, g | WrittenAs(b, s, g) ensures s == schema && g == groups {
      FileCodeInjective(s, g, schema, groups);
    }
  }

  lemma ManifestReadsBack(m: Manifest)
    ensures ReadManifest(ManifestCode(m)) == Some(m)
  {
    forall x | ManifestCode(x) == ManifestCode(m) ensures x == m {
      assert ManifestCode(x) + [] == ManifestCode(m) + [];
      ManifestIsPrefixCode(x, m, [], []);
    }
  }

  lemma CutManifestIsNone(m: Manifest, n: nat)
    requires n < |ManifestCode(m)|
    ensures ReadManifest(ManifestCode(m)[..n]) == None
  {
    forall x | ManifestCode(x) == ManifestCode(m)[..n] ensures false {
      assert ManifestCode(x) + ManifestCode(m)[n..] == ManifestCode(m) + [];
      ManifestIsPrefixCode(x, m, ManifestCode(m)[n..], []);
    }
  }

  /** So the theorems that assume lawful libraries are about something. */
  lemma LawfulCodecExists()
    ensures Lawful(Witness())
    ensures forall a, b :: Witness().digest(a) == Witness().digest(b) ==> a == b
  {
    forall schema, groups | AllValid(groups, |schema|) ensures ReadsBack(Witness(), schema, groups) {
      FileReadsBack(schema, groups);
    }
    forall m ensures ReadManifest(ManifestCode(m)) == Some(m) {
      ManifestReadsBack(m);
    }
    forall m, n | 0 <= n < |ManifestCode(m)| ensures ReadManifest(ManifestCode(m)[..n]) == None {
      CutManifestIsNone(m, n);
    }
    forall a, b | Spelled(a) == Spelled(b) ensures a == b {
      assert forall i :: 0 <= i < |a| ==> a[i] as int == Spelled(a)[i] as int == Spelled(b)[i] as int == b[i] as int;
    }
  }
}
