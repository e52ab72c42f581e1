/** What restoring a backup gives: the rows of the source, each projected on the schema and
    normalised, and nothing else even from a damaged storage. */
module BackupRoundTrip {
  import opened Common
  import opened BackupValues
  import opened PS = ParquetSerializer
  import opened BackupEngine
  import opened RestoreEngine

  /** A row as it comes back. */
  function NormalisedRow(num: Numerics, schema: seq<Column>, row: Row): Row
    requires Encodes(num, schema, row)
  {
    RestoredRow(Names(schema), Encoded(num, schema, row), |schema|)
  }

  function NormalisedRows(num: Numerics, schema: seq<Column>, rows: seq<Row>): (r: seq<Row>)
    requires AllEncode(num, schema, rows)
    ensures |r| == |rows| && forall i :: 0 <= i < |r| ==> r[i] == NormalisedRow(num, schema, rows[i])
  {
    seq(|rows|, i requires 0 <= i < |rows| => NormalisedRow(num, schema, rows[i]))
  }

  // ---------------------------------------------------------------- one chunk

  lemma ChunkNameIsParquet(i: nat)
    ensures Contains(ChunkName(i), ".parquet")
  {
    var name := ChunkName(i);
    var at := |name| - |".parquet.zst"|;
    assert name[at..at + |".parquet"|] == ".parquet";
    assert ContainsAt(name, ".parquet", at);
  }

  lemma {:induction false} PackedRowsReadBack(codec: Codec, num: Numerics, schema: seq<Column>,
                                              groups: seq<RecordBatch>, rows: seq<Row>)
    requires WellFormedFiles(codec) && FileLaws(codec) && AllValid(groups, |schema|) && AllEncode(num, schema, rows)
    requires AllRows(groups, |schema|) == EncodedRows(num, schema, rows)
    ensures ReadParquet(codec, codec.writeFile(schema, groups)) == (NormalisedRows(num, schema, rows), true)
  {
    assert ReadsBack(codec, schema, groups);
    var f := codec.readFile(codec.writeFile(schema, groups)).value;
    FileRowsAre(f, num, schema, rows);
  }

  lemma {:induction false} FileRowsAre(f: ParquetFile, num: Numerics, schema: seq<Column>, rows: seq<Row>)
    requires f.columns == Names(schema) && AllValid(f.batches, |schema|) && AllEncode(num, schema, rows)
    requires AllRows(f.batches, |schema|) == EncodedRows(num, schema, rows)
    ensures FileRows(f) == NormalisedRows(num, schema, rows)
  {
    var read := FileRows(f);
    forall i | 0 <= i < |rows| ensures read[i] == NormalisedRow(num, schema, rows[i]) {
      assert AllRows(f.batches, |schema|)[i] == Encoded(num, schema, rows[i]);
    }
  }

  lemma ChunkReadsBack(codec: Codec, num: Numerics, schema: seq<Column>, objects: Objects, c: Chunk, i: nat,
                       rows: seq<Row>)
    requires WellFormedFiles(codec) && FileLaws(codec) && ChunkOk(codec, num, schema, objects, c, i, rows)
    ensures AllEncode(num, schema, rows) && ReadChunk(codec, objects, c) == (NormalisedRows(num, schema, rows), true)
  {
    var groups: seq<RecordBatch> :| AllValid(groups, |schema|)
      && objects[c.file] == codec.compress(codec.writeFile(schema, groups))
      && AllRows(groups, |schema|) == EncodedRows(num, schema, rows);
    PackedRowsReadBack(codec, num, schema, groups, rows);
    ChunkNameIsParquet(i);
  }

  // ---------------------------------------------------------------- a whole backup

  lemma {:induction false} FlatEncodes(codec: Codec, num: Numerics, schema: seq<Column>, objects: Objects,
                                       chunks: seq<Chunk>, flushed: seq<seq<Row>>, k: nat)
    requires ChunksOk(codec, num, schema, objects, chunks, flushed) && k <= |chunks|
    ensures AllEncode(num, schema, Flat(flushed[k..]))
    decreases |chunks| - k
  {
    if k < |chunks| {
      assert ChunkOk(codec, num, schema, objects, chunks[k], k, flushed[k]);
      FlatEncodes(codec, num, schema, objects, chunks, flushed, k + 1);
      assert flushed[k..][0] == flushed[k] && flushed[k..][1..] == flushed[k + 1..];
      EncodedConcat(num, schema, flushed[k], Flat(flushed[k + 1..]));
    }
  }

  lemma NormalisedConcat(num: Numerics, schema: seq<Column>, a: seq<Row>, b: seq<Row>)
    requires AllEncode(num, schema, a) && AllEncode(num, schema, b)
    ensures AllEncode(num, schema, a + b)
    ensures NormalisedRows(num, schema, a + b) == NormalisedRows(num, schema, a) + NormalisedRows(num, schema, b)
  {
    EncodedConcat(num, schema, a, b);
  }

  lemma {:induction false} ChunksReadBack(codec: Codec, num: Numerics, schema: seq<Column>, objects: Objects,
                                          chunks: seq<Chunk>,
                                          flushed: seq<seq<Row>>, k: nat)
    requires WellFormedFiles(codec) && FileLaws(codec) && ChunksOk(codec, num, schema, objects, chunks, flushed)
    requires k <= |chunks|
    ensures AllEncode(num, schema, Flat(flushed[k..]))
    ensures ReadChunks(codec, objects, chunks[k..]) == (NormalisedRows(num, schema, Flat(flushed[k..])), true)
    decreases |chunks| - k
  {
    FlatEncodes(codec, num, schema, objects, chunks, flushed, k);
    if k < |chunks| {
      assert ChunkOk(codec, num, schema, objects, chunks[k], k, flushed[k]);
      ChunkReadsBack(codec, num, schema, objects, chunks[k], k, flushed[k]);
      ChunksReadBack(codec, num, schema, objects, chunks, flushed, k + 1);
      assert chunks[k..][0] == chunks[k] && chunks[k..][1..] == chunks[k + 1..];
      assert flushed[k..][0] == flushed[k] && flushed[k..][1..] == flushed[k + 1..];
      NormalisedConcat(num, schema, flushed[k], Flat(flushed[k + 1..]));
    }
  }

  /** A complete backup reads back whole: all rows in source order, normalised, as many as the
      manifest says, whatever the row-group size and the chunk threshold were. */
  lemma {:induction false} BackupReadsBack(codec: Codec, num: Numerics, schema: seq<Column>, objects: Objects,
                                           m: Manifest, rows: seq<Row>,
                        reading: nat -> int, maxSize: int)
    requires Lawful(codec) && Complete(codec, num, schema, objects, m, AllChunks(reading, maxSize, rows))
    ensures StoredManifest(codec, objects, MANIFEST) == Some(m) && m.rowCount == |rows|
    ensures AllEncode(num, schema, rows)
    ensures ReadChunks(codec, objects, m.chunks) == (NormalisedRows(num, schema, rows), true)
  {
    var flushed := AllChunks(reading, maxSize, rows);
    AllChunksKeepRows(reading, maxSize, rows);
    ChunksReadBack(codec, num, schema, objects, m.chunks, flushed, 0);
    assert m.chunks[0..] == m.chunks && flushed[0..] == flushed;
  }

  /** Back up, then restore into a target that accepts its writes: the target gets exactly the
      rows of the source, normalised, in order and in batches of 1 to 1000. */
  method BackupThenRestore(codec: Codec, ser: Serializer, storage: Storage, target: Target, opID: string,
                           table: string, src: Source,
                           chunkSize: int, reading: nat -> int, puts: nat -> PutOutcome, manifestPut: PutOutcome)
    returns (manifest: Option<Manifest>, restored: nat, ok: bool)
    requires Lawful(codec) && ser.Valid()
    modifies ser, storage, target
    ensures manifest.Some? ==> StoredManifest(codec, storage.objects, MANIFEST) == manifest
    ensures manifest.Some? ==> manifest.value.operationID == opID && manifest.value.table == table
    ensures manifest.Some? ==> target.schema == src.schema
    ensures manifest.Some? && AlwaysAccepts(target) ==> ok
    ensures manifest.Some? ==> src.partitions.Some? && AllEncode(ser.num, ser.schema, Delivered(src.partitions.value))
    ensures manifest.Some? && ok ==> restored == manifest.value.rowCount == |Delivered(src.partitions.value)|
    ensures manifest.Some? && ok ==>
        DeliversAll(old(target.batches), target.batches,
                    NormalisedRows(ser.num, ser.schema, Delivered(src.partitions.value)))
    ensures manifest.Some? && ok && DistinctNames(ser.schema) ==> exists back ::
        && RowsMean(ser.num, ser.schema, Delivered(src.partitions.value), back)
        && DeliversAll(old(target.batches), target.batches, back)
  {
    restored, ok := 0, false;
    manifest := Backup(codec, ser, storage, opID, table, src, chunkSize, reading, puts, manifestPut);
    if manifest.Some? {
      BackupReadsBack(codec, ser.num, ser.schema, storage.objects, manifest.value,
                      Delivered(src.partitions.value), reading, Limit(chunkSize));
      restored, ok := Restore(codec, storage, target, MANIFEST, true);
      if DistinctNames(ser.schema) {
        RowsComeBack(ser.num, ser.schema, Delivered(src.partitions.value));
      }
    }
  }

  // ---------------------------------------------------------------- damage

  /** No object that replaced a chunk's has the digest of the genuine one. */
  ghost predicate NoForgery(codec: Codec, objects: Objects, chunks: seq<Chunk>, later: Objects) {
    forall c :: c in chunks && c.file in objects && c.file in later ==> Authentic(codec, objects[c.file], later[c.file])
  }

  predicate Authentic(codec: Codec, genuine: Bytes, found: Bytes) {
    codec.digest(found) == codec.digest(genuine) ==> found == genuine
  }

  /** Whatever has happened to a chunk's object, reading it under its genuine digest gives all
      of its rows or none. */
  lemma DamagedChunk(codec: Codec, num: Numerics, schema: seq<Column>, objects: Objects, c: Chunk, i: nat,
                     rows: seq<Row>, later: Objects)
    requires WellFormedFiles(codec) && FileLaws(codec) && ChunkOk(codec, num, schema, objects, c, i, rows)
    requires c.file in later ==> Authentic(codec, objects[c.file], later[c.file])
    ensures AllEncode(num, schema, rows)
    ensures ReadChunk(codec, later, c) == (NormalisedRows(num, schema, rows), true)
      || ReadChunk(codec, later, c) == ([], false)
  {
    if c.file in later && codec.digest(later[c.file]) == c.sha256 {
      assert later[c.file] == objects[c.file];
      ChunkReadsBack(codec, num, schema, later, c, i, rows);
    }
  }

  /** From a storage damaged in any way, with the genuine list of chunks, what can be read is
      a first part of the backed-up rows, and all of them if nothing is reported missing. */
  lemma {:induction false} DamagedBackup(codec: Codec, num: Numerics, schema: seq<Column>, objects: Objects,
                                         chunks: seq<Chunk>,
                                         flushed: seq<seq<Row>>, later: Objects, k: nat)
    requires WellFormedFiles(codec) && FileLaws(codec) && NoForgery(codec, objects, chunks, later)
    requires ChunksOk(codec, num, schema, objects, chunks, flushed) && k <= |chunks|
    ensures AllEncode(num, schema, Flat(flushed[k..]))
    ensures ReadChunks(codec, later, chunks[k..]).0 <= NormalisedRows(num, schema, Flat(flushed[k..]))
    ensures ReadChunks(codec, later, chunks[k..]).1 ==>
      ReadChunks(codec, later, chunks[k..]).0 == NormalisedRows(num, schema, Flat(flushed[k..]))
    decreases |chunks| - k
  {
    FlatEncodes(codec, num, schema, objects, chunks, flushed, k);
    if k < |chunks| {
      assert ChunkOk(codec, num, schema, objects, chunks[k], k, flushed[k]);
      DamagedChunk(codec, num, schema, objects, chunks[k], k, flushed[k], later);
      DamagedBackup(codec, num, schema, objects, chunks, flushed, later, k + 1);
      assert chunks[k..][0] == chunks[k] && chunks[k..][1..] == chunks[k + 1..];
      assert flushed[k..][0] == flushed[k] && flushed[k..][1..] == flushed[k + 1..];
      NormalisedConcat(num, schema, flushed[k], Flat(flushed[k + 1..]));
      PrefixAfter(NormalisedRows(num, schema, flushed[k]), ReadChunks(codec, later, chunks[k + 1..]).0,
                  NormalisedRows(num, schema, Flat(flushed[k + 1..])));
    }
  }

  lemma PrefixAfter(a: seq<Row>, b: seq<Row>, c: seq<Row>)
    requires b <= c
    ensures a + b <= a + c
  {
  }

  /** A chunk file never takes the JSON path, so a chunk of any other format cannot be restored. */
  lemma OnlyParquetRestores(codec: Codec, objects: Objects, c: Chunk, i: nat)
    requires WellFormedFiles(codec) && c.file == ChunkName(i) && ReadChunk(codec, objects, c).1
    ensures c.file in objects && codec.decompress(objects[c.file]).Some?
    ensures codec.readFile(codec.decompress(objects[c.file]).value).Some?
  {
    ChunkNameIsParquet(i);
  }

  // ---------------------------------------------------------------- the rows themselves

  predicate DistinctNames(schema: seq<Column>) {
    forall c, d :: 0 <= c < d < |schema| ==> schema[c].name != schema[d].name
  }

  lemma {:induction false} RestoredNames(num: Numerics, schema: seq<Column>, row: Row, n: nat)
    requires Encodes(num, schema, row) && n <= |schema|
    ensures forall name :: name in RestoredRow(Names(schema), Encoded(num, schema, row), n) <==>
        exists c :: 0 <= c < n && schema[c].name == name
  {
    if n > 0 {
      RestoredNames(num, schema, row, n - 1);
    }
  }

  lemma {:induction false} RestoredColumn(num: Numerics, schema: seq<Column>, row: Row, n: nat, c: nat)
    requires Encodes(num, schema, row) && DistinctNames(schema) && c < n <= |schema|
    ensures schema[c].name in RestoredRow(Names(schema), Encoded(num, schema, row), n)
    ensures RestoredRow(Names(schema), Encoded(num, schema, row), n)[schema[c].name]
        == GetVal(AppendField(num, schema[c], row).value)
  {
    if c < n - 1 {
      RestoredColumn(num, schema, row, n - 1, c);
    }
  }

  /** The row is projected on the schema, a missing column becoming nil, and each value is
      what appending and reading make of it. */
  lemma NormalisedColumns(num: Numerics, schema: seq<Column>, row: Row)
    requires Encodes(num, schema, row) && DistinctNames(schema)
    ensures forall name :: name in NormalisedRow(num, schema, row) <==>
        exists c :: 0 <= c < |schema| && schema[c].name == name
    ensures forall c :: 0 <= c < |schema| ==>
      Normalised(num, GetArrowType(schema[c].typ), Field(row, schema[c].name))
        == Ok(NormalisedRow(num, schema, row)[schema[c].name])
  {
    RestoredNames(num, schema, row, |schema|);
    forall c | 0 <= c < |schema|
      ensures Normalised(num, GetArrowType(schema[c].typ), Field(row, schema[c].name))
          == Ok(NormalisedRow(num, schema, row)[schema[c].name])
    {
      RestoredColumn(num, schema, row, |schema|, c);
    }
  }

  /** A row encodes exactly when each column takes its value. */
  lemma EncodesIff(num: Numerics, schema: seq<Column>, row: Row)
    ensures Encodes(num, schema, row) <==>
        forall c :: 0 <= c < |schema| ==> !Refuses(schema[c].typ, Field(row, schema[c].name))
  {
    forall c | 0 <= c < |schema|
      ensures AppendField(num, schema[c], row).Ok? <==> !Refuses(schema[c].typ, Field(row, schema[c].name))
    {
      ComesBackIff(num, schema[c].typ, Field(row, schema[c].name), Nil);
    }
  }

  /** A row with exactly the columns of the schema, each value what the other row's means. */
  ghost predicate RowMeans(num: Numerics, schema: seq<Column>, row: Row, back: Row) {
    && (forall name :: name in back <==> exists c :: 0 <= c < |schema| && schema[c].name == name)
    && (forall c :: 0 <= c < |schema| ==> ColumnMeans(num, schema[c], row, back))
  }

  predicate ColumnMeans(num: Numerics, col: Column, row: Row, back: Row) {
    col.name in back && Means(num, col.typ, Field(row, col.name), back[col.name])
  }

  /** What a row comes back as, by the meaning of its values alone. */
  lemma RowComesBackIff(num: Numerics, schema: seq<Column>, row: Row, back: Row)
    requires Encodes(num, schema, row) && DistinctNames(schema)
    ensures back == NormalisedRow(num, schema, row) <==> RowMeans(num, schema, row, back)
  {
    var once := NormalisedRow(num, schema, row);
    NormalisedColumns(num, schema, row);
    forall c | 0 <= c < |schema|
      ensures ColumnMeans(num, schema[c], row, once)
      ensures forall w :: Means(num, schema[c].typ, Field(row, schema[c].name), w) ==> w == once[schema[c].name]
    {
      ComesBackIff(num, schema[c].typ, Field(row, schema[c].name), once[schema[c].name]);
      forall w | Means(num, schema[c].typ, Field(row, schema[c].name), w) ensures w == once[schema[c].name] {
        ComesBackIff(num, schema[c].typ, Field(row, schema[c].name), w);
      }
    }
    if RowMeans(num, schema, row, back) {
      forall name | name in back ensures name in once && back[name] == once[name] {
        var c :| 0 <= c < |schema| && schema[c].name == name;
        assert ColumnMeans(num, schema[c], row, back);
      }
      assert back.Keys == once.Keys;
    }
  }

  ghost predicate RowsMean(num: Numerics, schema: seq<Column>, rows: seq<Row>, back: seq<Row>) {
    |back| == |rows| && forall i :: 0 <= i < |rows| ==> RowMeans(num, schema, rows[i], back[i])
  }

  lemma RowsComeBack(num: Numerics, schema: seq<Column>, rows: seq<Row>)
    requires AllEncode(num, schema, rows) && DistinctNames(schema)
    ensures RowsMean(num, schema, rows, NormalisedRows(num, schema, rows))
  {
    forall i | 0 <= i < |rows| ensures RowMeans(num, schema, rows[i], NormalisedRow(num, schema, rows[i])) {
      RowComesBackIff(num, schema, rows[i], NormalisedRow(num, schema, rows[i]));
    }
  }

  /** Backing up what was restored changes nothing any more. */
  lemma NormalisedTwice(num: Numerics, schema: seq<Column>, row: Row)
    requires Encodes(num, schema, row) && DistinctNames(schema)
    ensures Encodes(num, schema, NormalisedRow(num, schema, row))
    ensures NormalisedRow(num, schema, NormalisedRow(num, schema, row)) == NormalisedRow(num, schema, row)
  {
    var once := NormalisedRow(num, schema, row);
    NormalisedColumns(num, schema, row);
    forall c | 0 <= c < |schema|
      ensures Normalised(num, GetArrowType(schema[c].typ), Field(once, schema[c].name)) == Ok(once[schema[c].name])
      ensures AppendField(num, schema[c], once).Ok?
    {
      assert schema[c].name in once;
      NormalisedIsNative(num, GetArrowType(schema[c].typ), Field(row, schema[c].name));
    }
    NormalisedColumns(num, schema, once);
  }

  /** A row comes back exactly as it was if and only if it has the columns of the schema, no
      more and no fewer, with values native to them. */
  lemma RowLosslessIff(num: Numerics, schema: seq<Column>, row: Row)
    requires Encodes(num, schema, row) && DistinctNames(schema)
    ensures NormalisedRow(num, schema, row) == row <==>
      && (forall name :: name in row <==> exists c :: 0 <= c < |schema| && schema[c].name == name)
      && (forall c :: 0 <= c < |schema| ==> Native(GetArrowType(schema[c].typ), Field(row, schema[c].name)))
  {
    var back := NormalisedRow(num, schema, row);
    NormalisedColumns(num, schema, row);
    forall c | 0 <= c < |schema|
      ensures Native(GetArrowType(schema[c].typ), Field(row, schema[c].name)) <==>
          back[schema[c].name] == Field(row, schema[c].name)
    {
      LosslessIff(num, GetArrowType(schema[c].typ), Field(row, schema[c].name));
    }
  }
}
