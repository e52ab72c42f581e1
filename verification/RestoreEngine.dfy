/** Restoring a backup: verify each chunk, decode it, and write its rows in batches. */
module RestoreEngine {
  import opened Common
  import opened BackupValues
  import opened PS = ParquetSerializer
  import opened BackupEngine

  const BATCH_CAPACITY := 1000

  // ---------------------------------------------------------------- rows

  /** The first n columns of a row, set one after another. */
  function RestoredRow(columns: seq<string>, cells: Cells, n: nat): Row
    requires n <= |columns| == |cells|
  {
    if n == 0 then map[] else RestoredRow(columns, cells, n - 1)[columns[n - 1] := GetVal(cells[n - 1])]
  }

  function RestoredRows(columns: seq<string>, rows: seq<Cells>): (r: seq<Row>)
    requires forall i :: 0 <= i < |rows| ==> |rows[i]| == |columns|
    ensures |r| == |rows| && forall i :: 0 <= i < |r| ==> r[i] == RestoredRow(columns, rows[i], |columns|)
  {
    seq(|rows|, i requires 0 <= i < |rows| => RestoredRow(columns, rows[i], |columns|))
  }

  lemma {:induction false} AllRowsWidth(groups: seq<RecordBatch>, width: nat)
    requires AllValid(groups, width)
    ensures forall i :: 0 <= i < |AllRows(groups, width)| ==> |AllRows(groups, width)[i]| == width
  {
    if groups != [] {
      AllRowsWidth(groups[1..], width);
    }
  }

  function FileRows(f: ParquetFile): seq<Row>
    requires AllValid(f.batches, |f.columns|)
  {
    AllRowsWidth(f.batches, |f.columns|);
    RestoredRows(f.columns, AllRows(f.batches, |f.columns|))
  }

  // ---------------------------------------------------------------- the target

  datatype WriteOutcome = Accepted | Refused(landed: nat)

  /** Restored records carry no id, so the target is a log. */
  class Target {
    const outcomes: nat -> WriteOutcome
    var schema: Option<seq<Column>>
    var batches: seq<seq<Row>>

    constructor (outcomes: nat -> WriteOutcome)
      ensures this.outcomes == outcomes && schema == None && batches == []
    {
      this.outcomes := outcomes;
      schema, batches := None, [];
    }

    /** `applied` says whether the target takes the schema. */
    method ApplySchema(s: seq<Column>, applied: bool) returns (ok: bool)
      modifies this`schema
      ensures ok == applied && schema == if ok then Some(s) else old(schema)
    {
      ok := applied;
      if ok {
        schema := Some(s);
      }
    }

    /** A failing write may have applied a first part of the batch. */
    method WriteBatch(batch: seq<Row>) returns (n: nat, ok: bool)
      modifies this`batches
      ensures ok == outcomes(|old(batches)|).Accepted?
      ensures ok ==> n == |batch| && batches == old(batches) + [batch]
      ensures !ok ==> exists landed :: landed <= batch && batches == old(batches) + [landed]
    {
      match outcomes(|batches|) {
        case Accepted =>
          batches := batches + [batch];
          n, ok := |batch|, true;
        case Refused(landed) =>
          n, ok := if landed <= |batch| then landed else |batch|, false;
          batches := batches + [batch[..n]];
      }
    }
  }

  /** Batches of exactly 1000, except that the last one may be smaller. */
  predicate WellBatched(batches: seq<seq<Row>>) {
    && (forall i :: 0 <= i < |batches| - 1 ==> |batches[i]| == 1000)
    && (batches != [] ==> 1 <= |batches[|batches| - 1]| <= 1000)
  }

  predicate AllFull(batches: seq<seq<Row>>) {
    forall i :: 0 <= i < |batches| ==> |batches[i]| == BATCH_CAPACITY
  }

  /** Between two rows: full batches are with the target, the rest waits. */
  ghost predicate Feeding(start: seq<seq<Row>>, done: seq<seq<Row>>, now: seq<seq<Row>>, batch: seq<Row>,
                          fed: seq<Row>, total: nat) {
    now == start + done && AllFull(done) && |batch| < BATCH_CAPACITY
    && Flat(done) + batch == fed && total == |Flat(done)|
  }

  /** The end of a chunk that could not be written: a first part of its rows is in the target. */
  ghost predicate CutShort(start: seq<seq<Row>>, now: seq<seq<Row>>, rows: seq<Row>) {
    exists part :: part <= rows && Flat(now) == Flat(start) + part
  }

  lemma {:induction false} FeedingCutShort(start: seq<seq<Row>>, done: seq<seq<Row>>, batch: seq<Row>,
                                           landed: seq<Row>, rows: seq<Row>)
    requires landed <= batch && Flat(done) + batch <= rows
    ensures CutShort(start, start + done + [landed], rows) && CutShort(start, start + done, rows)
  {
    FlatConcat(start, done);
    FlatSnoc(start + done, landed);
    assert Flat(start + done + [landed]) == Flat(start) + (Flat(done) + landed);
    assert batch[..|landed|] == landed;
    assert Flat(done) + landed <= Flat(done) + batch;
    assert Flat(done) <= Flat(done) + batch;
  }

  method Feed(target: Target, batch: seq<Row>, rec: Row, total: nat, ghost start: seq<seq<Row>>,
              ghost done: seq<seq<Row>>,
              ghost fed: seq<Row>, ghost rows: seq<Row>)
    returns (next: seq<Row>, newTotal: nat, ok: bool, ghost newDone: seq<seq<Row>>)
    requires Feeding(start, done, target.batches, batch, fed, total) && fed + [rec] <= rows
    modifies target`batches
    ensures ok ==> Feeding(start, newDone, target.batches, next, fed + [rec], newTotal)
    ensures !ok ==> CutShort(start, target.batches, rows)
    ensures (forall i :: target.outcomes(i).Accepted?) ==> ok
  {
    next, newTotal, ok, newDone := batch + [rec], total, true, done;
    assert Flat(done) + next == fed + [rec];
    if |next| >= BATCH_CAPACITY {
      var n;
      n, ok := target.WriteBatch(next);
      if !ok {
        ghost var landed :| landed <= next && target.batches == start + done + [landed];
        FeedingCutShort(start, done, next, landed, rows);
        return;
      }
      newTotal := total + n;
      newDone := done + [next];
      FlatSnoc(done, next);
      next := [];
      assert Flat(newDone) + [] == fed + [rec];
    }
  }

  /** The last, partial batch. */
  method FeedLast(target: Target, batch: seq<Row>, total: nat, ghost start: seq<seq<Row>>, ghost done: seq<seq<Row>>,
                  ghost rows: seq<Row>)
    returns (newTotal: nat, ok: bool)
    requires Feeding(start, done, target.batches, batch, rows, total)
    modifies target`batches
    ensures ok ==> newTotal == |rows| && Delivers(start, target.batches, rows)
    ensures !ok ==> CutShort(start, target.batches, rows)
    ensures (forall i :: target.outcomes(i).Accepted?) ==> ok
  {
    newTotal, ok := total, true;
    ghost var sent := done;
    if |batch| > 0 {
      var n;
      n, ok := target.WriteBatch(batch);
      if !ok {
        ghost var landed :| landed <= batch && target.batches == start + done + [landed];
        FeedingCutShort(start, done, batch, landed, rows);
        return;
      }
      newTotal := total + n;
      sent := done + [batch];
      FlatSnoc(done, batch);
    }
    assert Flat(sent) == rows;
    assert target.batches == start + sent;
  }

  /** The rows went to the target in order, in batches of 1 to 1000. */
  ghost predicate Delivers(start: seq<seq<Row>>, now: seq<seq<Row>>, rows: seq<Row>) {
    exists sent :: now == start + sent && WellBatched(sent) && Flat(sent) == rows
  }

  // ---------------------------------------------------------------- one chunk

  method BuildRow(columns: seq<string>, b: RecordBatch, i: nat) returns (rec: Row)
    requires b.Valid(|columns|) && i < b.numRows
    ensures rec == RestoredRow(columns, RowAt(b, |columns|, i), |columns|)
  {
    rec := map[];
    for c := 0 to |columns|
      invariant rec == RestoredRow(columns, RowAt(b, |columns|, i), c)
    {
      rec := rec[columns[c] := GetVal(b.columns[c][i])];
    }
  }

  lemma NextRow(f: ParquetFile, k: nat, i: nat)
    requires AllValid(f.batches, |f.columns|) && k < |f.batches| && i < f.batches[k].numRows
    ensures AllValid(f.batches[..k], |f.columns|)
    ensures var before := |AllRows(f.batches[..k], |f.columns|)|;
      before + i < |FileRows(f)|
      && FileRows(f)[before + i] == RestoredRow(f.columns, RowAt(f.batches[k], |f.columns|, i), |f.columns|)
  {
    var w := |f.columns|;
    assert f.batches == f.batches[..k] + ([f.batches[k]] + f.batches[k + 1..]);
    AllRowsConcat(f.batches[..k], [f.batches[k]] + f.batches[k + 1..], w);
    assert ([f.batches[k]] + f.batches[k + 1..])[1..] == f.batches[k + 1..];
    AllRowsWidth(f.batches, w);
    assert AllRows(f.batches, w)[|AllRows(f.batches[..k], w)| + i] == RowsOf(f.batches[k], w)[i];
  }

  lemma NextBatch(f: ParquetFile, k: nat)
    requires AllValid(f.batches, |f.columns|) && k < |f.batches|
    ensures AllValid(f.batches[..k], |f.columns|) && AllValid(f.batches[..k + 1], |f.columns|)
    ensures |AllRows(f.batches[..k + 1], |f.columns|)|
        == |AllRows(f.batches[..k], |f.columns|)| + f.batches[k].numRows <= |FileRows(f)|
  {
    var w := |f.columns|;
    assert f.batches[..k + 1] == f.batches[..k] + [f.batches[k]];
    AllRowsConcat(f.batches[..k], [f.batches[k]], w);
    assert [f.batches[k]][1..] == [];
    assert AllRows([f.batches[k]], w) == RowsOf(f.batches[k], w) + [];
    assert f.batches == f.batches[..k + 1] + f.batches[k + 1..];
    AllRowsConcat(f.batches[..k + 1], f.batches[k + 1..], w);
  }

  ghost predicate AlwaysAccepts(target: Target) { forall i :: target.outcomes(i).Accepted? }

  /** The inner loop: the rows of one record batch. */
  method RestoreBatch(target: Target, f: ParquetFile, k: nat, batch: seq<Row>, total: nat,
                      ghost start: seq<seq<Row>>, ghost done: seq<seq<Row>>)
    returns (next: seq<Row>, newTotal: nat, ok: bool, ghost newDone: seq<seq<Row>>)
    requires AllValid(f.batches, |f.columns|) && k < |f.batches| && Fed(f, k) <= |FileRows(f)|
    requires Feeding(start, done, target.batches, batch, FileRows(f)[..Fed(f, k)], total)
    modifies target`batches
    ensures Fed(f, k + 1) <= |FileRows(f)|
    ensures ok ==> Feeding(start, newDone, target.batches, next, FileRows(f)[..Fed(f, k + 1)], newTotal)
    ensures !ok ==> CutShort(start, target.batches, FileRows(f))
    ensures AlwaysAccepts(target) ==> ok
  {
    NextBatch(f, k);
    next, newTotal, ok, newDone := batch, total, true, done;
    ghost var rows := FileRows(f);
    for i := 0 to f.batches[k].numRows
      invariant ok && Feeding(start, newDone, target.batches, next, rows[..Fed(f, k) + i], newTotal)
    {
      NextRow(f, k, i);
      var rec := BuildRow(f.columns, f.batches[k], i);
      Longer(rows, Fed(f, k) + i);
      next, newTotal, ok, newDone := Feed(target, next, rec, newTotal, start, newDone, rows[..Fed(f, k) + i], rows);
      if !ok {
        return;
      }
    }
  }

  lemma Longer(rows: seq<Row>, i: nat)
    requires i < |rows|
    ensures rows[..i] + [rows[i]] == rows[..i + 1] <= rows
  {
  }

  /** The number of rows in the first k record batches. */
  function Fed(f: ParquetFile, k: nat): nat
    requires AllValid(f.batches, |f.columns|) && k <= |f.batches|
  {
    |AllRows(f.batches[..k], |f.columns|)|
  }

  method RestoreParquetChunk(codec: Codec, target: Target, data: Bytes) returns (total: nat, ok: bool)
    requires WellFormedFiles(codec)
    modifies target`batches
    ensures var r := ReadParquet(codec, data);
      && (ok ==> r.1 && total == |r.0| && Delivers(old(target.batches), target.batches, r.0))
      && (!ok ==> CutShort(old(target.batches), target.batches, r.0))
      && (r.1 && AlwaysAccepts(target) ==> ok)
  {
    var pr := codec.readFile(data);
    if pr.None? {
      assert old(target.batches) + [] == target.batches;
      CutNothing(target.batches, []);
      return 0, false;
    }
    var f := pr.value;
    var batch: seq<Row> := [];
    total, ok := 0, true;
    ghost var start, done := target.batches, [];
    assert f.batches[..0] == [] && FileRows(f)[..0] == [];
    for k := 0 to |f.batches|
      invariant ok && Fed(f, k) <= |FileRows(f)|
      invariant Feeding(start, done, target.batches, batch, FileRows(f)[..Fed(f, k)], total)
    {
      batch, total, ok, done := RestoreBatch(target, f, k, batch, total, start, done);
      if !ok {
        return;
      }
    }
    assert f.batches[..|f.batches|] == f.batches;
    assert FileRows(f)[..|FileRows(f)|] == FileRows(f);
    total, ok := FeedLast(target, batch, total, start, done, FileRows(f));
    if ok && f.failed {
      DeliveredIsCut(start, target.batches, FileRows(f));
      ok := false;
    }
  }

  lemma CutNothing(batches: seq<seq<Row>>, rows: seq<Row>)
    ensures CutShort(batches, batches, rows)
  {
    assert [] <= rows && Flat(batches) == Flat(batches) + [];
  }

  lemma {:induction false} DeliveredIsCut(start: seq<seq<Row>>, now: seq<seq<Row>>, rows: seq<Row>)
    requires Delivers(start, now, rows)
    ensures CutShort(start, now, rows) && Flat(now) == Flat(start) + rows
  {
    var sent :| now == start + sent && WellBatched(sent) && Flat(sent) == rows;
    FlatConcat(start, sent);
    assert rows <= rows;
  }

  /** The rows up to the first that does not decode; the partial batch before it is dropped. */
  method RestoreJSONChunk(codec: Codec, target: Target, data: Bytes) returns (total: nat, ok: bool)
    modifies target`batches
    ensures var r := codec.readJSON(data);
      && (ok ==> r.1 && total == |r.0| && Delivers(old(target.batches), target.batches, r.0))
      && (!ok ==> CutShort(old(target.batches), target.batches, r.0))
      && (r.1 && AlwaysAccepts(target) ==> ok)
  {
    var (rows, whole) := codec.readJSON(data);
    var batch: seq<Row> := [];
    total, ok := 0, true;
    ghost var start, done := target.batches, [];
    for i := 0 to |rows|
      invariant ok && Feeding(start, done, target.batches, batch, rows[..i], total)
    {
      Longer(rows, i);
      batch, total, ok, done := Feed(target, batch, rows[i], total, start, done, rows[..i], rows);
      if !ok {
        return;
      }
    }
    assert rows[..|rows|] == rows;
    if !whole {
      assert [] <= batch;
      FeedingCutShort(start, done, batch, [], rows);
      ok := false;
      return;
    }
    total, ok := FeedLast(target, batch, total, start, done, rows);
  }

  // ---------------------------------------------------------------- what a chunk says

  /** The rows a Parquet file gives, and whether all of it could be read. */
  function ReadParquet(codec: Codec, data: Bytes): (seq<Row>, bool)
    requires WellFormedFiles(codec)
  {
    var f := codec.readFile(data);
    if f.None? then ([], false) else (FileRows(f.value), !f.value.failed)
  }

  predicate ContainsAt(s: string, part: string, i: nat) { i + |part| <= |s| && s[i..i + |part|] == part }

  predicate Contains(s: string, part: string) { exists i :: 0 <= i <= |s| && ContainsAt(s, part, i) }

  const PAR1: Bytes := [0x50, 0x41, 0x52, 0x31]

  predicate IsParquet(file: string, data: Bytes) { Contains(file, ".parquet") || PAR1 <= data }

  /** The rows a stored chunk gives, and whether it is whole: present, decompressible, with
      the listed digest, and readable to the end. Without the digest it gives none. */
  function ReadChunk(codec: Codec, objects: Objects, c: Chunk): (seq<Row>, bool)
    requires WellFormedFiles(codec)
  {
    if c.file !in objects then ([], false)
    else
      var data := codec.decompress(objects[c.file]);
      if data.None? || codec.digest(objects[c.file]) != c.sha256 then ([], false)
      else if IsParquet(c.file, data.value) then ReadParquet(codec, data.value)
      else codec.readJSON(data.value)
  }

  /** An object is read only if it is there, decompresses and has the digest of the manifest; then
      as Parquet if its name has the extension or its content begins with "PAR1", and otherwise
      as lines of JSON. */
  lemma FormatOfChunk(codec: Codec, objects: Objects, c: Chunk)
    requires WellFormedFiles(codec)
    ensures c.file !in objects ==> ReadChunk(codec, objects, c) == ([], false)
    ensures c.file in objects ==>
      var data := codec.decompress(objects[c.file]);
      if data.None? || codec.digest(objects[c.file]) != c.sha256 then ReadChunk(codec, objects, c) == ([], false)
      else
        var named := Contains(c.file, ".parquet");
        var marked := |data.value| >= 4 && data.value[0] == 80 && data.value[1] == 65 && data.value[2] == 82
                      && data.value[3] == 49;
        ReadChunk(codec, objects, c)
          == if named || marked then ReadParquet(codec, data.value) else codec.readJSON(data.value)
  {
  }

  /** The rows of a list of chunks, up to the first that is not whole. */
  function ReadChunks(codec: Codec, objects: Objects, chunks: seq<Chunk>): (seq<Row>, bool)
    requires WellFormedFiles(codec)
  {
    if chunks == [] then ([], true)
    else
      var (rows, whole) := ReadChunk(codec, objects, chunks[0]);
      if !whole then (rows, false)
      else
        var (rest, restWhole) := ReadChunks(codec, objects, chunks[1..]);
        (rows + rest, restWhole)
  }

  method RestoreChunk(codec: Codec, storage: Storage, target: Target, c: Chunk) returns (total: nat, ok: bool)
    requires WellFormedFiles(codec)
    modifies target`batches
    ensures var r := ReadChunk(codec, storage.objects, c);
      && (ok ==> r.1 && total == |r.0| && Delivers(old(target.batches), target.batches, r.0))
      && (!ok ==> CutShort(old(target.batches), target.batches, r.0))
      && (r.1 && AlwaysAccepts(target) ==> ok)
  {
    CutNothing(target.batches, []);
    var reader := storage.Get(c.file);
    if reader.None? {
      return 0, false;
    }
    var data := codec.decompress(reader.value);
    if data.None? {
      return 0, false;
    }
    if codec.digest(reader.value) != c.sha256 {
      return 0, false;
    }
    if IsParquet(c.file, data.value) {
      total, ok := RestoreParquetChunk(codec, target, data.value);
    } else {
      total, ok := RestoreJSONChunk(codec, target, data.value);
    }
  }

  /** The rows went to the target in order, no batch empty or above the capacity. */
  ghost predicate DeliversAll(start: seq<seq<Row>>, now: seq<seq<Row>>, rows: seq<Row>) {
    exists sent :: now == start + sent && Flat(sent) == rows && Sized(sent)
  }

  /** Batches as the target gets them, from any number of chunks. */
  predicate Sized(batches: seq<seq<Row>>) {
    forall i :: 0 <= i < |batches| ==> 1 <= |batches[i]| <= 1000
  }

  lemma WellBatchedIsSized(batches: seq<seq<Row>>)
    ensures WellBatched(batches) ==> Sized(batches)
  {
  }

  lemma SizedConcat(a: seq<seq<Row>>, b: seq<seq<Row>>)
    requires Sized(a) && Sized(b)
    ensures Sized(a + b)
  {
    var ab := a + b;
    forall i | 0 <= i < |ab| ensures 1 <= |ab[i]| <= 1000 {
      assert ab[i] == if i < |a| then a[i] else b[i - |a|];
    }
  }

  lemma Regroup(start: seq<seq<Row>>, a: seq<seq<Row>>, b: seq<seq<Row>>)
    ensures (start + a) + b == start + (a + b)
  {
  }

  lemma DeliverChunk(start: seq<seq<Row>>, mid: seq<seq<Row>>, now: seq<seq<Row>>, before: seq<Row>, rows: seq<Row>)
    requires DeliversAll(start, mid, before) && Delivers(mid, now, rows)
    ensures DeliversAll(start, now, before + rows)
  {
    var a :| mid == start + a && Flat(a) == before && Sized(a);
    var b :| now == mid + b && WellBatched(b) && Flat(b) == rows;
    WellBatchedIsSized(b);
    SizedConcat(a, b);
    FlatConcat(a, b);
    Regroup(start, a, b);
  }

  lemma CutLater(start: seq<seq<Row>>, mid: seq<seq<Row>>, now: seq<seq<Row>>, before: seq<Row>, rows: seq<Row>,
                 all: seq<Row>)
    requires DeliversAll(start, mid, before) && CutShort(mid, now, rows) && before + rows <= all
    ensures CutShort(start, now, all)
  {
    var a :| mid == start + a && Flat(a) == before && Sized(a);
    var part :| part <= rows && Flat(now) == Flat(mid) + part;
    FlatConcat(start, a);
    assert Flat(now) == Flat(start) + (before + part);
    assert before + part <= before + rows;
  }

  /** What is left to read, from a chunk on. */
  lemma {:induction false} ReadNext(codec: Codec, objects: Objects, chunks: seq<Chunk>, i: nat, before: seq<Row>)
    requires WellFormedFiles(codec) && i < |chunks|
    requires before + ReadChunks(codec, objects, chunks[i..]).0 == ReadChunks(codec, objects, chunks).0
    ensures var r := ReadChunk(codec, objects, chunks[i]);
      && before + r.0 <= ReadChunks(codec, objects, chunks).0
      && (!r.1 ==> !ReadChunks(codec, objects, chunks[i..]).1)
      && (r.1 ==>
            (before + r.0) + ReadChunks(codec, objects, chunks[i + 1..]).0 == ReadChunks(codec, objects, chunks).0)
      && (r.1 ==> ReadChunks(codec, objects, chunks[i..]).1 == ReadChunks(codec, objects, chunks[i + 1..]).1)
  {
    assert chunks[i..][0] == chunks[i] && chunks[i..][1..] == chunks[i + 1..];
  }

  /** A restore writes everything the chunks say, or a first part of it. */
  method RestoreChunks(codec: Codec, storage: Storage, target: Target, chunks: seq<Chunk>)
    returns (totalRows: nat, ok: bool)
    requires WellFormedFiles(codec)
    modifies target`batches
    ensures var r := ReadChunks(codec, storage.objects, chunks);
      && (ok ==> r.1 && totalRows == |r.0| && DeliversAll(old(target.batches), target.batches, r.0))
      && (!ok ==> CutShort(old(target.batches), target.batches, r.0))
      && (r.1 && AlwaysAccepts(target) ==> ok)
  {
    ghost var r, start, before := ReadChunks(codec, storage.objects, chunks), target.batches, [];
    totalRows, ok := 0, true;
    assert start == start + [] && chunks[0..] == chunks;
    for i := 0 to |chunks|
      invariant ok && DeliversAll(start, target.batches, before) && totalRows == |before|
      invariant before + ReadChunks(codec, storage.objects, chunks[i..]).0 == r.0
      invariant ReadChunks(codec, storage.objects, chunks[i..]).1 == r.1
    {
      ReadNext(codec, storage.objects, chunks, i, before);
      ghost var mid, rows := target.batches, ReadChunk(codec, storage.objects, chunks[i]).0;
      var n;
      n, ok := RestoreChunk(codec, storage, target, chunks[i]);
      if !ok {
        CutLater(start, mid, target.batches, before, rows, r.0);
        return;
      }
      DeliverChunk(start, mid, target.batches, before, rows);
      before := before + rows;
      totalRows := totalRows + n;
    }
    assert before + [] == before;
  }

  /** The manifest to restore from, if it is there and parses. */
  function StoredManifest(codec: Codec, objects: Objects, path: string): Option<Manifest> {
    if path in objects then codec.parseManifest(objects[path]) else None
  }

  /** The schema of the manifest first, then its chunks. */
  method Restore(codec: Codec, storage: Storage, target: Target, path: string, applied: bool)
    returns (totalRows: nat, ok: bool)
    requires WellFormedFiles(codec)
    modifies target
    ensures StoredManifest(codec, storage.objects, path).None? || !applied ==>
        !ok && target.batches == old(target.batches) && target.schema == old(target.schema)
    ensures StoredManifest(codec, storage.objects, path).Some? && applied ==>
      var m := StoredManifest(codec, storage.objects, path).value;
      var r := ReadChunks(codec, storage.objects, m.chunks);
      && target.schema == Some(m.schema)
      && (ok ==> r.1 && totalRows == |r.0| && DeliversAll(old(target.batches), target.batches, r.0))
      && (!ok ==> CutShort(old(target.batches), target.batches, r.0))
      && (r.1 && AlwaysAccepts(target) ==> ok)
  {
    var mReader := storage.Get(path);
    if mReader.None? {
      return 0, false;
    }
    var manifest := codec.parseManifest(mReader.value);
    if manifest.None? {
      return 0, false;
    }
    ok := target.ApplySchema(manifest.value.schema, applied);
    if !ok {
      return 0, false;
    }
    totalRows, ok := RestoreChunks(codec, storage, target, manifest.value.chunks);
  }
}
