/** Backing up a table: rotating chunks, uploading them, and the manifest that goes last. */
module BackupEngine {
  import opened Common
  import opened BackupValues
  import opened PS = ParquetSerializer
  import Decimal

  newtype byte = x: int | 0 <= x < 0x100

  type Bytes = seq<byte>

  type Objects = map<string, Bytes>

  datatype Chunk = Chunk(index: nat, file: string, rowCount: nat, sha256: string)

  datatype Manifest = Manifest(operationID: string, table: string, chunkSizeBytes: int, rowCount: nat,
                               schema: seq<Column>, chunks: seq<Chunk>)

  /** What the Parquet reader finds: column names, record batches, and whether it then failed. */
  datatype ParquetFile = ParquetFile(columns: seq<string>, batches: seq<RecordBatch>, failed: bool)

  /** Zstandard, Parquet, newline-delimited JSON, SHA-256 and the manifest's JSON. The JSON
      reader gives the rows up to the first one that does not decode, and whether there is one. */
  datatype Codec = Codec(compress: Bytes -> Bytes, decompress: Bytes -> Option<Bytes>,
                         writeFile: (seq<Column>, seq<RecordBatch>) -> Bytes, readFile: Bytes -> Option<ParquetFile>,
                         readJSON: Bytes -> (seq<Row>, bool),
                         digest: Bytes -> string,
                         printManifest: Manifest -> Bytes, parseManifest: Bytes -> Option<Manifest>)

  function Names(schema: seq<Column>): (ns: seq<string>)
    ensures |ns| == |schema| && forall c :: 0 <= c < |ns| ==> ns[c] == schema[c].name
  {
    seq(|schema|, c requires 0 <= c < |schema| => schema[c].name)
  }

  /** The file reader gives back the columns and rows, perhaps in other batches. */
  ghost predicate ReadsBack(codec: Codec, schema: seq<Column>, groups: seq<RecordBatch>)
    requires AllValid(groups, |schema|)
  {
    var f := codec.readFile(codec.writeFile(schema, groups));
    && f.Some? && f.value.columns == Names(schema) && !f.value.failed
    && AllValid(f.value.batches, |schema|) && AllRows(f.value.batches, |schema|) == AllRows(groups, |schema|)
  }

  /** A manifest reads back, and a JSON object cut short does not parse. */
  ghost predicate ManifestLaws(codec: Codec) {
    && (forall m :: codec.parseManifest(codec.printManifest(m)) == Some(m))
    && (forall m, n :: 0 <= n < |codec.printManifest(m)| ==>
          codec.parseManifest(codec.printManifest(m)[..n]) == None)
  }

  /** Whatever the Parquet reader accepts has record batches as wide as its columns. */
  ghost predicate WellFormedFiles(codec: Codec) {
    forall b :: codec.readFile(b).Some? ==>
      AllValid(codec.readFile(b).value.batches, |codec.readFile(b).value.columns|)
  }

  /** What was compressed decompresses, and what was written as a file reads back. */
  ghost predicate FileLaws(codec: Codec) {
    && (forall b :: codec.decompress(codec.compress(b)) == Some(b))
    && (forall schema, groups :: AllValid(groups, |schema|) ==> ReadsBack(codec, schema, groups))
  }

  /** What the round trip assumes of the libraries. */
  ghost predicate Lawful(codec: Codec) {
    ManifestLaws(codec) && WellFormedFiles(codec) && FileLaws(codec)
  }

  // ---------------------------------------------------------------- storage

  const MANIFEST := "manifest.json"

  function ChunkName(i: nat): string { "chunk-" + Decimal.Print4(i) + ".parquet.zst" }

  /** A chunk's file name: the index in decimal, in at least four digits and no more than needed. */
  lemma ChunkNameIs(i: nat)
    ensures var name := ChunkName(i);
      && |name| >= 22 && name[..6] == "chunk-" && name[|name| - 12..] == ".parquet.zst"
      && Decimal.Value(name[6..|name| - 12]) == i
      && (|name| > 22 ==> name[6] != '0') && forall k :: 6 <= k < |name| - 12 ==> '0' <= name[k] <= '9'
  {
    var name, digits := ChunkName(i), Decimal.Print4(i);
    Decimal.Print4Form(i);
    assert name[6..|name| - 12] == digits;
    assert forall k :: 6 <= k < |name| - 12 ==> name[k] == digits[k - 6];
  }

  /** The zero-padded names are injective in the index, and none is the manifest's. */
  lemma ChunkNamesDistinct(i: nat, j: nat)
    ensures ChunkName(i) == ChunkName(j) <==> i == j
    ensures ChunkName(i) != MANIFEST
  {
    var a, b := ChunkName(i), ChunkName(j);
    assert a[|"chunk-"|..|a| - |".parquet.zst"|] == Decimal.Print4(i);
    assert b[|"chunk-"|..|b| - |".parquet.zst"|] == Decimal.Print4(j);
    assert a[0] == 'c' && MANIFEST[0] == 'm';
  }

  /** A Put that fails may leave the object as it was or cut short. */
  datatype PutOutcome = Stored | Failed(torn: Option<nat>)

  /** The states storage passes through while an object is written byte by byte. */
  function Writing(objects: Objects, path: string, data: Bytes, upTo: nat): (states: seq<Objects>)
    requires upTo <= |data|
    ensures |states| == upTo + 1 && forall n :: 0 <= n <= upTo ==> states[n] == objects[path := data[..n]]
  {
    seq(upTo + 1, n requires 0 <= n <= upTo => objects[path := data[..n]])
  }

  predicate NoManifest(states: seq<Objects>) {
    forall n :: 0 <= n < |states| ==> MANIFEST !in states[n]
  }

  ghost predicate Torn(before: Objects, history: seq<Objects>, path: string, data: Bytes, after: Objects,
                       newHistory: seq<Objects>) {
    || (after == before && newHistory == history)
    || (exists n :: 0 <= n <= |data| && after == before[path := data[..n]]
          && newHistory == history + Writing(before, path, data, n))
  }

  class Storage {
    var objects: Objects
    ghost var history: seq<Objects>

    constructor (objects: Objects)
      ensures this.objects == objects && history == [objects]
    {
      this.objects := objects;
      history := [objects];
    }

    /** No manifest is stored, nor has one ever been. */
    ghost predicate Clean()
      reads this
    {
      NoManifest(history) && MANIFEST !in objects
    }

    method Put(path: string, data: Bytes, o: PutOutcome) returns (ok: bool)
      modifies this
      ensures ok == o.Stored?
      ensures ok ==>
          objects == old(objects)[path := data] && history == old(history) + Writing(old(objects), path, data, |data|)
      ensures !ok ==> Torn(old(objects), old(history), path, data, objects, history)
    {
      ok := o.Stored?;
      if ok {
        history := history + Writing(objects, path, data, |data|);
        objects := objects[path := data];
      } else if o.torn.Some? {
        var n := if o.torn.value <= |data| then o.torn.value else |data|;
        history := history + Writing(objects, path, data, n);
        objects := objects[path := data[..n]];
      }
    }

    method Get(path: string) returns (r: Option<Bytes>)
      ensures r == if path in objects then Some(objects[path]) else None
    {
      r := if path in objects then Some(objects[path]) else None;
    }
  }

  // ---------------------------------------------------------------- rotation

  /** The chunks of a run of records: the finished ones and the open one. `reading` gives the
      bytes the compressor has written to the open chunk after the n-th record of the run. */
  function Rotate(reading: nat -> int, maxSize: int, rows: seq<Row>): (seq<seq<Row>>, seq<Row>)
    decreases |rows|
  {
    if rows == [] then ([], [])
    else
      var (done, open) := Rotate(reading, maxSize, rows[..|rows| - 1]);
      var grown := open + [rows[|rows| - 1]];
      if reading(|rows|) >= maxSize then (done + [grown], []) else (done, grown)
  }

  lemma {:induction false} RotateOneMore(reading: nat -> int, maxSize: int, rows: seq<Row>, rec: Row)
    ensures var (done, open) := Rotate(reading, maxSize, rows);
      Rotate(reading, maxSize, rows + [rec])
        == if reading(|rows| + 1) >= maxSize then (done + [open + [rec]], []) else (done, open + [rec])
  {
    assert (rows + [rec])[..|rows|] == rows;
  }

  /** Rotation loses, repeats and reorders nothing, and leaves no empty chunk. */
  lemma {:induction false} RotateKeepsRows(reading: nat -> int, maxSize: int, rows: seq<Row>)
    ensures var (done, open) := Rotate(reading, maxSize, rows);
      && Flat(done) + open == rows
      && forall i :: 0 <= i < |done| ==> done[i] != []
    decreases |rows|
  {
    if rows != [] {
      var front, last := rows[..|rows| - 1], rows[|rows| - 1];
      RotateKeepsRows(reading, maxSize, front);
      var (done, open) := Rotate(reading, maxSize, front);
      FlatSnoc(done, open + [last]);
      assert rows == Flat(done) + open + [last];
    }
  }

  /** The number of records in the first i chunks. */
  function EndOf(chunks: seq<seq<Row>>, i: nat): nat
    requires i <= |chunks|
  {
    if i == 0 then 0 else EndOf(chunks, i - 1) + |chunks[i - 1]|
  }

  lemma {:induction false} EndOfPrefix(chunks: seq<seq<Row>>, more: seq<seq<Row>>, i: nat)
    requires i <= |chunks|
    ensures EndOf(chunks + more, i) == EndOf(chunks, i)
  {
    if i > 0 {
      EndOfPrefix(chunks, more, i - 1);
    }
  }

  /** Chunk i ends at the first of its records after which the reading is at the limit. */
  ghost predicate EndsAtLimit(reading: nat -> int, maxSize: int, done: seq<seq<Row>>, i: nat)
    requires i < |done|
  {
    && reading(EndOf(done, i + 1)) >= maxSize
    && forall p :: EndOf(done, i) < p < EndOf(done, i + 1) ==> reading(p) < maxSize
  }

  /** Every finished chunk ends at the limit, and the open one has not reached it. */
  lemma {:induction false} RotatesAtTheLimit(reading: nat -> int, maxSize: int, rows: seq<Row>)
    ensures var (done, open) := Rotate(reading, maxSize, rows);
      && EndOf(done, |done|) + |open| == |rows|
      && (forall i :: 0 <= i < |done| ==> EndsAtLimit(reading, maxSize, done, i))
      && (forall p :: EndOf(done, |done|) < p <= |rows| ==> reading(p) < maxSize)
    decreases |rows|
  {
    if rows != [] {
      var front, last := rows[..|rows| - 1], rows[|rows| - 1];
      RotatesAtTheLimit(reading, maxSize, front);
      var (done, open) := Rotate(reading, maxSize, front);
      if reading(|rows|) >= maxSize {
        var grown := done + [open + [last]];
        forall i | 0 <= i <= |done| ensures EndOf(grown, i) == EndOf(done, i) {
          EndOfPrefix(done, [open + [last]], i);
        }
        forall i | 0 <= i < |grown| ensures EndsAtLimit(reading, maxSize, grown, i) {
          assert i < |done| ==> EndsAtLimit(reading, maxSize, done, i);
        }
      }
    }
  }

  // ---------------------------------------------------------------- chunks in storage

  /** Bytes that are a compressed Parquet file of the given rows. */
  ghost predicate Packs(codec: Codec, num: Numerics, schema: seq<Column>, data: Bytes, rows: seq<Row>) {
    AllEncode(num, schema, rows) &&
    exists groups: seq<RecordBatch> :: AllValid(groups, |schema|)
          && data == codec.compress(codec.writeFile(schema, groups))
      && AllRows(groups, |schema|) == EncodedRows(num, schema, rows)
  }

  ghost predicate ChunkOk(codec: Codec, num: Numerics, schema: seq<Column>, objects: Objects, c: Chunk, i: nat,
                          rows: seq<Row>) {
    && c.index == i && c.file == ChunkName(i) && c.rowCount == |rows|
    && c.file in objects && c.sha256 == codec.digest(objects[c.file])
    && Packs(codec, num, schema, objects[c.file], rows)
  }

  ghost predicate ChunksOk(codec: Codec, num: Numerics, schema: seq<Column>, objects: Objects, chunks: seq<Chunk>,
                           flushed: seq<seq<Row>>) {
    && |chunks| == |flushed|
    && (forall i :: 0 <= i < |chunks| ==> ChunkOk(codec, num, schema, objects, chunks[i], i, flushed[i]))
  }

  /** A stored manifest vouches for chunks that are there. */
  ghost predicate RootOfTrust(codec: Codec, objects: Objects) {
    MANIFEST in objects && codec.parseManifest(objects[MANIFEST]).Some? ==>
      forall c :: c in codec.parseManifest(objects[MANIFEST]).value.chunks ==>
        c.file in objects && codec.digest(objects[c.file]) == c.sha256
  }

  lemma ChunkPutKeepsChunks(codec: Codec, num: Numerics, schema: seq<Column>, objects: Objects, chunks: seq<Chunk>,
                            flushed: seq<seq<Row>>, data: Bytes)
    requires ChunksOk(codec, num, schema, objects, chunks, flushed)
    ensures ChunksOk(codec, num, schema, objects[ChunkName(|chunks|) := data], chunks, flushed)
  {
    forall i | 0 <= i < |chunks|
      ensures ChunkOk(codec, num, schema, objects[ChunkName(|chunks|) := data], chunks[i], i, flushed[i])
    {
      ChunkNamesDistinct(i, |chunks|);
    }
  }

  lemma OneMoreChunk(codec: Codec, num: Numerics, schema: seq<Column>, objects: Objects, chunks: seq<Chunk>,
                     flushed: seq<seq<Row>>, data: Bytes, c: Chunk, rows: seq<Row>)
    requires ChunksOk(codec, num, schema, objects, chunks, flushed) && Packs(codec, num, schema, data, rows)
    requires c == Chunk(|chunks|, ChunkName(|chunks|), |rows|, codec.digest(data))
    ensures ChunksOk(codec, num, schema, objects[ChunkName(|chunks|) := data], chunks + [c], flushed + [rows])
  {
    ChunkPutKeepsChunks(codec, num, schema, objects, chunks, flushed, data);
  }

  ghost predicate AlwaysStores(puts: nat -> PutOutcome) { forall i :: puts(i).Stored? }

  predicate EndsWith(rows: seq<Row>, tail: seq<Row>) {
    |tail| <= |rows| && rows[|rows| - |tail|..] == tail
  }

  lemma TailEncodes(num: Numerics, schema: seq<Column>, rows: seq<Row>, tail: seq<Row>)
    requires EndsWith(rows, tail)
    ensures AllEncode(num, schema, rows) ==> AllEncode(num, schema, tail)
  {
    if AllEncode(num, schema, rows) {
      forall i | 0 <= i < |tail| ensures Encodes(num, schema, tail[i]) {
        assert tail[i] == rows[|rows| - |tail| + i];
      }
    }
  }

  /** If the rows so far and some more encode, so do the open chunk's and the more. */
  lemma {:induction false} OpenEncodes(num: Numerics, schema: seq<Column>, reading: nat -> int, maxSize: int,
                                       rows: seq<Row>, more: seq<Row>)
    ensures AllEncode(num, schema, rows + more) ==> AllEncode(num, schema, Rotate(reading, maxSize, rows).1 + more)
  {
    RotateKeepsRows(reading, maxSize, rows);
    var (done, open) := Rotate(reading, maxSize, rows);
    assert rows + more == Flat(done) + (open + more);
    TailEncodes(num, schema, rows + more, open + more);
  }

  lemma BufferEncodes(num: Numerics, schema: seq<Column>, open: seq<Row>, buffered: seq<Row>, more: seq<Row>)
    requires |buffered| <= |open| && buffered == open[|open| - |buffered|..]
    ensures AllEncode(num, schema, open + more) ==> AllEncode(num, schema, buffered + more)
  {
    assert open + more == open[..|open| - |buffered|] + (buffered + more);
    TailEncodes(num, schema, open + more, buffered + more);
  }

  /** Overwriting a chunk under a manifest of an earlier backup keeps the trust exactly when
      the manifest does not list the file, or lists the new digest: hence the condition that
      a backup starts without one. */
  lemma StaleManifestIff(codec: Codec, objects: Objects, path: string, data: Bytes)
    requires RootOfTrust(codec, objects) && path != MANIFEST
    requires MANIFEST in objects && codec.parseManifest(objects[MANIFEST]).Some?
    ensures RootOfTrust(codec, objects[path := data]) <==>
      forall c :: c in codec.parseManifest(objects[MANIFEST]).value.chunks && c.file == path ==>
          c.sha256 == codec.digest(data)
  {
    var after := objects[path := data];
    assert after[MANIFEST] == objects[MANIFEST];
    forall c | c in codec.parseManifest(objects[MANIFEST]).value.chunks && c.file != path
      ensures c.file in after && codec.digest(after[c.file]) == c.sha256
    {
    }
  }

  // ---------------------------------------------------------------- the chunk manager

  class ChunkManager {
    const codec: Codec
    const ser: Serializer
    const storage: Storage
    const maxSize: int
    const reading: nat -> int
    const puts: nat -> PutOutcome
    var chunkIndex: nat
    var totalRows: nat
    var chunks: seq<Chunk>
    var chunkFile: string
    var chunkRows: nat
    ghost var added: seq<Row>

    /** The finished chunks are uploaded and recorded. */
    ghost predicate Uploaded(flushed: seq<seq<Row>>)
      reads this, storage
    {
      chunkIndex == |chunks| && ChunksOk(codec, ser.num, ser.schema, storage.objects, chunks, flushed)
    }

    /** The open chunk, in the serializer and the counters. */
    ghost predicate Holding(flushed: seq<seq<Row>>, open: seq<Row>)
      reads this, ser, storage
    {
      Uploaded(flushed) && ser.Holds(open) && chunkFile == ChunkName(chunkIndex) && chunkRows == |open|
    }

    /** The invariant: uploaded chunks and open chunk are the rotation of all records added, in
        order, and the serializer holds no row of an earlier chunk. */
    ghost predicate Valid()
      reads this, ser, storage
    {
      var (flushed, open) := Rotate(reading, maxSize, added);
      Holding(flushed, open) && totalRows == |added|
    }

    constructor (codec: Codec, ser: Serializer, storage: Storage, maxSize: int, reading: nat -> int,
                 puts: nat -> PutOutcome)
      ensures this.codec == codec && this.ser == ser && this.storage == storage && this.maxSize == maxSize
      ensures this.reading == reading && this.puts == puts
      ensures chunkIndex == 0 && totalRows == 0 && chunks == [] && chunkRows == 0 && added == []
    {
      this.codec, this.ser, this.storage, this.maxSize, this.reading, this.puts :=
        codec, ser, storage, maxSize, reading, puts;
      chunkIndex, totalRows, chunks, chunkRows, chunkFile := 0, 0, [], 0, "";
      added := [];
    }

    method OpenChunk() returns (ok: bool)
      requires ser.Valid()
      modifies this`chunkFile, ser
      ensures chunkFile == ChunkName(chunkIndex)
      ensures ok == !old(ser.open) && (ok ==> ser.Holds([]))
    {
      chunkFile := ChunkName(chunkIndex);
      ok := ser.Open();
    }

    method FlushChunk(ghost flushed: seq<seq<Row>>, ghost open: seq<Row>) returns (ok: bool)
      requires Holding(flushed, open)
      modifies this`chunks, this`chunkIndex, ser, storage
      ensures ok ==> Uploaded(flushed + [open]) && ser.Valid() && !ser.open
      ensures ok <==> AllEncode(ser.num, ser.schema, open) && puts(old(chunkIndex)).Stored?
      ensures old(storage.Clean()) ==> storage.Clean()
    {
      ok := ser.Close(open);
      if !ok {
        return;
      }
      var data := codec.compress(codec.writeFile(ser.schema, ser.groups));
      var checksum := codec.digest(data);
      assert Packs(codec, ser.num, ser.schema, data, open);
      ok := Upload(data, checksum, flushed, open);
    }

    method Upload(data: Bytes, checksum: string, ghost flushed: seq<seq<Row>>, ghost rows: seq<Row>) returns (ok: bool)
      requires Uploaded(flushed) && chunkFile == ChunkName(chunkIndex) && chunkRows == |rows|
      requires Packs(codec, ser.num, ser.schema, data, rows) && checksum == codec.digest(data)
      modifies this`chunks, this`chunkIndex, storage
      ensures ok ==> Uploaded(flushed + [rows])
      ensures ok <==> puts(old(chunkIndex)).Stored?
      ensures old(storage.Clean()) ==> storage.Clean()
    {
      ChunkNamesDistinct(chunkIndex, chunkIndex);
      ok := storage.Put(chunkFile, data, puts(chunkIndex));
      if !ok {
        return;
      }
      var c := Chunk(chunkIndex, chunkFile, chunkRows, checksum);
      OneMoreChunk(codec, ser.num, ser.schema, old(storage.objects), chunks, flushed, data, c, rows);
      chunks := chunks + [c];
      chunkIndex := chunkIndex + 1;
    }

    /** What addRecord does when the chunk has reached the limit. */
    method RotateChunk(ghost flushed: seq<seq<Row>>, ghost open: seq<Row>) returns (ok: bool)
      requires Holding(flushed, open)
      modifies this`chunks, this`chunkIndex, this`chunkRows, this`chunkFile, ser, storage
      ensures ok ==> Holding(flushed + [open], [])
      ensures ok <==> AllEncode(ser.num, ser.schema, open) && puts(old(chunkIndex)).Stored?
      ensures old(storage.Clean()) ==> storage.Clean()
    {
      ok := FlushChunk(flushed, open);
      if !ok {
        return;
      }
      chunkRows := 0;
      ok := OpenChunk();
    }

    method AddRecord(rec: Row) returns (ok: bool)
      requires Valid()
      modifies this, ser, storage
      ensures ok ==> Valid() && added == old(added) + [rec]
      ensures AllEncode(ser.num, ser.schema, old(added) + [rec]) && AlwaysStores(puts) ==> ok
      ensures old(storage.Clean()) ==> storage.Clean()
    {
      ghost var (flushed, open) := Rotate(reading, maxSize, added);
      OpenEncodes(ser.num, ser.schema, reading, maxSize, added, [rec]);
      ok := SerializeOne(rec, flushed, open);
      if ok {
        ok := CountRecord(rec, flushed, open);
      }
    }

    /** The second half of addRecord: the totals, and the size check. */
    method CountRecord(ghost rec: Row, ghost flushed: seq<seq<Row>>, ghost open: seq<Row>) returns (ok: bool)
      requires Holding(flushed, open + [rec]) && totalRows == |added|
      requires flushed == Rotate(reading, maxSize, added).0 && open == Rotate(reading, maxSize, added).1
      modifies this, ser, storage
      ensures ok ==> Valid() && added == old(added) + [rec]
      ensures AllEncode(ser.num, ser.schema, open + [rec]) && AlwaysStores(puts) ==> ok
      ensures old(storage.Clean()) ==> storage.Clean()
    {
      ghost var next := Rotate(reading, maxSize, added + [rec]);
      RotateOneMore(reading, maxSize, added, rec);
      assert next == if reading(totalRows + 1) >= maxSize then (flushed + [open + [rec]], [])
                     else (flushed, open + [rec]);
      added := added + [rec];
      totalRows := totalRows + 1;
      ok := true;
      if reading(totalRows) >= maxSize {
        ok := RotateChunk(flushed, open + [rec]);
      }
      assert ok ==> Holding(next.0, next.1);
    }

    method SerializeOne(rec: Row, ghost flushed: seq<seq<Row>>, ghost open: seq<Row>) returns (ok: bool)
      requires Holding(flushed, open)
      modifies this`chunkRows, ser
      ensures ok ==> Holding(flushed, open + [rec])
      ensures AllEncode(ser.num, ser.schema, open + [rec]) ==> ok
    {
      BufferEncodes(ser.num, ser.schema, open, ser.rows, [rec]);
      ok := ser.Serialize(rec, open);
      if ok {
        chunkRows := chunkRows + 1;
      }
    }

    /** The last chunk is uploaded only if it has rows. */
    method FlushFinalChunk() returns (ok: bool)
      requires Valid()
      modifies this`chunks, this`chunkIndex, ser, storage
      ensures ok ==> Uploaded(AllChunks(reading, maxSize, added))
      ensures AllEncode(ser.num, ser.schema, added) && AlwaysStores(puts) ==> ok
      ensures old(storage.Clean()) ==> storage.Clean()
    {
      ghost var (flushed, open) := Rotate(reading, maxSize, added);
      OpenEncodes(ser.num, ser.schema, reading, maxSize, added, []);
      assert added + [] == added && open + [] == open;
      if chunkRows > 0 {
        ok := FlushChunk(flushed, open);
        return;
      }
      var _ := ser.Close(open);
      ok := true;
    }
  }

  /** The finished chunks of a whole run. */
  function AllChunks(reading: nat -> int, maxSize: int, rows: seq<Row>): seq<seq<Row>> {
    var (done, open) := Rotate(reading, maxSize, rows);
    if open == [] then done else done + [open]
  }

  lemma AllChunksKeepRows(reading: nat -> int, maxSize: int, rows: seq<Row>)
    ensures Flat(AllChunks(reading, maxSize, rows)) == rows
    ensures forall i :: 0 <= i < |AllChunks(reading, maxSize, rows)| ==> AllChunks(reading, maxSize, rows)[i] != []
  {
    RotateKeepsRows(reading, maxSize, rows);
    var (done, open) := Rotate(reading, maxSize, rows);
    FlatSnoc(done, open);
  }

  // ---------------------------------------------------------------- the backup

  /** What ReadPartition sends before it returns, and whether it returns an error. */
  datatype Delivery = Delivery(rows: seq<Row>, failed: bool)

  /** A source: its schema and its partitions, either of which may fail to be read. */
  datatype Source = Source(schema: Option<seq<Column>>, partitions: Option<seq<Delivery>>)

  function Delivered(ds: seq<Delivery>): seq<Row> {
    if ds == [] then [] else ds[0].rows + Delivered(ds[1..])
  }

  predicate AllDelivered(ds: seq<Delivery>) {
    forall i :: 0 <= i < |ds| ==> !ds[i].failed
  }

  function Limit(chunkSize: int): int { if chunkSize <= 0 then 512 * 1024 * 1024 else chunkSize }

  /** The manifest describes all rows of the source, chunk by chunk, and is stored. */
  ghost predicate Complete(codec: Codec, num: Numerics, schema: seq<Column>, objects: Objects, m: Manifest,
                           flushed: seq<seq<Row>>) {
    && ChunksOk(codec, num, schema, objects, m.chunks, flushed) && m.rowCount == |Flat(flushed)|
    && MANIFEST in objects && objects[MANIFEST] == codec.printManifest(m)
  }

  lemma OneMoreRow(before: seq<Row>, rows: seq<Row>, i: nat)
    requires i < |rows|
    ensures before + rows[..i] + [rows[i]] == before + rows[..i + 1]
  {
  }

  lemma HeadEncodes(num: Numerics, schema: seq<Column>, rows: seq<Row>, head: seq<Row>)
    requires head <= rows
    ensures AllEncode(num, schema, rows) ==> AllEncode(num, schema, head)
  {
  }

  lemma OneMoreDelivery(before: seq<Row>, ds: seq<Delivery>, i: nat)
    requires i < |ds|
    ensures before + Delivered(ds[i..]) == (before + ds[i].rows) + Delivered(ds[i + 1..])
  {
    assert ds[i..][0] == ds[i] && ds[i..][1..] == ds[i + 1..];
  }

  method BackupPartition(cm: ChunkManager, d: Delivery) returns (ok: bool)
    requires cm.Valid()
    modifies cm, cm.ser, cm.storage
    ensures ok ==> cm.Valid() && cm.added == old(cm.added) + d.rows && !d.failed
    ensures !d.failed && AllEncode(cm.ser.num, cm.ser.schema, old(cm.added) + d.rows) && AlwaysStores(cm.puts) ==> ok
    ensures old(cm.storage.Clean()) ==> cm.storage.Clean()
  {
    for i := 0 to |d.rows|
      invariant cm.Valid() && cm.added == old(cm.added) + d.rows[..i]
      invariant old(cm.storage.Clean()) ==> cm.storage.Clean()
    {
      OneMoreRow(old(cm.added), d.rows, i);
      HeadEncodes(cm.ser.num, cm.ser.schema, old(cm.added) + d.rows, old(cm.added) + d.rows[..i + 1]);
      ok := cm.AddRecord(d.rows[i]);
      if !ok {
        return;
      }
    }
    ok := !d.failed;
  }

  method BackupPartitions(cm: ChunkManager, ds: seq<Delivery>) returns (ok: bool)
    requires cm.Valid()
    modifies cm, cm.ser, cm.storage
    ensures ok ==> cm.Valid() && cm.added == old(cm.added) + Delivered(ds) && AllDelivered(ds)
    ensures AllDelivered(ds) && AlwaysStores(cm.puts) ==>
        AllEncode(cm.ser.num, cm.ser.schema, old(cm.added) + Delivered(ds)) ==> ok
    ensures old(cm.storage.Clean()) ==> cm.storage.Clean()
  {
    for i := 0 to |ds|
      invariant cm.Valid() && cm.added + Delivered(ds[i..]) == old(cm.added) + Delivered(ds)
      invariant forall j :: 0 <= j < i ==> !ds[j].failed
      invariant old(cm.storage.Clean()) ==> cm.storage.Clean()
    {
      OneMoreDelivery(cm.added, ds, i);
      HeadEncodes(cm.ser.num, cm.ser.schema, old(cm.added) + Delivered(ds), cm.added + ds[i].rows);
      ok := BackupPartition(cm, ds[i]);
      if !ok {
        return;
      }
    }
    ok := true;
  }

  /** Drain the partitions and flush the last chunk. */
  method DrainChunks(cm: ChunkManager, ds: seq<Delivery>) returns (ok: bool)
    requires cm.Valid() && cm.added == []
    modifies cm, cm.ser, cm.storage
    ensures ok ==> AllDelivered(ds) && cm.totalRows == |Delivered(ds)|
    ensures AllDelivered(ds) && AllEncode(cm.ser.num, cm.ser.schema, Delivered(ds)) && AlwaysStores(cm.puts) ==> ok
    ensures ok ==> cm.Uploaded(AllChunks(cm.reading, cm.maxSize, Delivered(ds)))
    ensures old(cm.storage.Clean()) ==> cm.storage.Clean()
  {
    assert cm.added + Delivered(ds) == Delivered(ds);
    ok := BackupPartitions(cm, ds);
    if ok {
      ok := cm.FlushFinalChunk();
    }
  }

  /** Everything before the manifest: open a chunk, drain the partitions, flush the last chunk. */
  method UploadChunks(codec: Codec, ser: Serializer, storage: Storage, ds: seq<Delivery>, limit: int,
                      reading: nat -> int, puts: nat -> PutOutcome)
    returns (ok: bool, chunks: seq<Chunk>, totalRows: nat)
    requires ser.Valid()
    modifies ser, storage
    ensures ok ==> AllDelivered(ds) && totalRows == |Delivered(ds)|
    ensures !old(ser.open) && AllDelivered(ds) && AlwaysStores(puts) ==>
        AllEncode(ser.num, ser.schema, Delivered(ds)) ==> ok
    ensures ok ==>
        ChunksOk(codec, ser.num, ser.schema, storage.objects, chunks, AllChunks(reading, limit, Delivered(ds)))
    ensures old(storage.Clean()) ==> storage.Clean()
  {
    var cm := new ChunkManager(codec, ser, storage, limit, reading, puts);
    ok := cm.OpenChunk();
    if ok {
      ok := DrainChunks(cm, ds);
    }
    chunks, totalRows := cm.chunks, cm.totalRows;
  }

  /** Writing the manifest of uploaded chunks: at every byte of it, a manifest that parses
      vouches for chunks that are there. */
  lemma ManifestPutSafe(codec: Codec, num: Numerics, schema: seq<Column>, objects: Objects, m: Manifest,
                        flushed: seq<seq<Row>>, n: nat)
    requires ManifestLaws(codec) && ChunksOk(codec, num, schema, objects, m.chunks, flushed)
    requires n <= |codec.printManifest(m)|
    ensures RootOfTrust(codec, objects[MANIFEST := codec.printManifest(m)[..n]])
    ensures ChunksOk(codec, num, schema, objects[MANIFEST := codec.printManifest(m)[..n]], m.chunks, flushed)
  {
    var after := objects[MANIFEST := codec.printManifest(m)[..n]];
    forall i | 0 <= i < |m.chunks| ensures ChunkOk(codec, num, schema, after, m.chunks[i], i, flushed[i]) {
      assert ChunkOk(codec, num, schema, objects, m.chunks[i], i, flushed[i]);
      ChunkNamesDistinct(i, i);
    }
    if n == |codec.printManifest(m)| {
      assert codec.printManifest(m)[..n] == codec.printManifest(m);
    } else {
      assert codec.parseManifest(codec.printManifest(m)[..n]) == None;
    }
  }

  lemma HistorySafe(codec: Codec, num: Numerics, schema: seq<Column>, objects: Objects, history: seq<Objects>,
                    m: Manifest,
                    flushed: seq<seq<Row>>, upTo: nat)
    requires ManifestLaws(codec) && ChunksOk(codec, num, schema, objects, m.chunks, flushed)
    requires upTo <= |codec.printManifest(m)|
    requires NoManifest(history)
    ensures var all := history + Writing(objects, MANIFEST, codec.printManifest(m), upTo);
      forall k :: 0 <= k < |all| ==> RootOfTrust(codec, all[k])
  {
    forall n | 0 <= n <= upTo ensures RootOfTrust(codec, objects[MANIFEST := codec.printManifest(m)[..n]]) {
      ManifestPutSafe(codec, num, schema, objects, m, flushed, n);
    }
  }

  method SaveManifest(codec: Codec, storage: Storage, m: Manifest, put: PutOutcome,
                      ghost num: Numerics, ghost schema: seq<Column>, ghost flushed: seq<seq<Row>>) returns (ok: bool)
    requires ManifestLaws(codec) && ChunksOk(codec, num, schema, storage.objects, m.chunks, flushed)
    modifies storage
    ensures ok == put.Stored?
    ensures ok ==> ChunksOk(codec, num, schema, storage.objects, m.chunks, flushed)
    ensures ok ==> MANIFEST in storage.objects && storage.objects[MANIFEST] == codec.printManifest(m)
    ensures old(storage.Clean()) ==> forall k :: 0 <= k < |storage.history| ==> RootOfTrust(codec, storage.history[k])
  {
    var data := codec.printManifest(m);
    ghost var before, history := storage.objects, storage.history;
    ok := storage.Put(MANIFEST, data, put);
    assert data[..|data|] == data;
    ManifestPutSafe(codec, num, schema, before, m, flushed, |data|);
    if NoManifest(history) {
      forall n | 0 <= n <= |data|
        ensures var all := history + Writing(before, MANIFEST, data, n);
          forall k :: 0 <= k < |all| ==> RootOfTrust(codec, all[k])
      {
        HistorySafe(codec, num, schema, before, history, m, flushed, n);
      }
    }
  }

  /** Nothing on the way fails: the source can be read, its rows encode, and uploads succeed. */
  ghost predicate CanBackUp(src: Source, num: Numerics, schema: seq<Column>, puts: nat -> PutOutcome) {
    && src.schema.Some? && src.partitions.Some? && AllDelivered(src.partitions.value)
    && AllEncode(num, schema, Delivered(src.partitions.value)) && AlwaysStores(puts)
  }

  /** The outcome of each upload, of the manifest's, and the sizes the compressor reports are
      parameters. A nil error means a complete backup; and whatever happens, at no instant of
      the history does a manifest that parses vouch for a chunk that is not there. */
  method Backup(codec: Codec, ser: Serializer, storage: Storage, opID: string, table: string, src: Source,
                chunkSize: int,
                reading: nat -> int, puts: nat -> PutOutcome, manifestPut: PutOutcome)
    returns (manifest: Option<Manifest>)
    requires ManifestLaws(codec) && ser.Valid()
    modifies ser, storage
    ensures manifest.Some? ==> src.schema.Some? && src.partitions.Some? && AllDelivered(src.partitions.value)
    ensures manifest.Some? ==>
        && manifest.value.operationID == opID && manifest.value.table == table
        && manifest.value.schema == src.schema.value
        && manifest.value.chunkSizeBytes == (if chunkSize <= 0 then 536870912 else chunkSize)
    ensures manifest.Some? ==> Complete(codec, ser.num, ser.schema, storage.objects, manifest.value,
                                        AllChunks(reading, Limit(chunkSize), Delivered(src.partitions.value)))
    ensures CanBackUp(src, ser.num, ser.schema, puts) && !old(ser.open) && manifestPut.Stored? ==> manifest.Some?
    ensures old(storage.Clean()) ==> forall k :: 0 <= k < |storage.history| ==> RootOfTrust(codec, storage.history[k])
  {
    var limit := if chunkSize <= 0 then 512 * 1024 * 1024 else chunkSize;
    if src.schema.None? || src.partitions.None? {
      return None;
    }
    var ok, chunks, totalRows := UploadChunks(codec, ser, storage, src.partitions.value, limit, reading, puts);
    if !ok {
      return None;
    }
    ghost var flushed := AllChunks(reading, limit, Delivered(src.partitions.value));
    AllChunksKeepRows(reading, limit, Delivered(src.partitions.value));
    var m := Manifest(opID, table, limit, totalRows, src.schema.value, chunks);
    ok := SaveManifest(codec, storage, m, manifestPut, ser.num, ser.schema, flushed);
    if !ok {
      return None;
    }
    manifest := Some(m);
  }
}
