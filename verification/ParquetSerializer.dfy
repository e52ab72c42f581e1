/** Buffering records and writing them as row groups. */
module ParquetSerializer {
  import opened Common
  import opened BackupValues

  /** A record batch: column arrays of equal length. */
  datatype RecordBatch = RecordBatch(numRows: nat, columns: seq<seq<Cell>>)
  {
    predicate Valid(width: nat) {
      |columns| == width && forall c :: 0 <= c < width ==> |columns[c]| == numRows
    }
  }

  type Cells = seq<Cell>

  /** Row i of a batch, read across its columns. */
  function RowAt(b: RecordBatch, width: nat, i: nat): (cells: Cells)
    requires b.Valid(width) && i < b.numRows
    ensures |cells| == width && forall c :: 0 <= c < width ==> cells[c] == b.columns[c][i]
  {
    seq(width, c requires 0 <= c < width => b.columns[c][i])
  }

  function RowsOf(b: RecordBatch, width: nat): (rows: seq<Cells>)
    requires b.Valid(width)
    ensures |rows| == b.numRows && forall i :: 0 <= i < |rows| ==> rows[i] == RowAt(b, width, i)
  {
    seq(b.numRows, i requires 0 <= i < b.numRows => RowAt(b, width, i))
  }

  predicate AllValid(groups: seq<RecordBatch>, width: nat) {
    forall g :: 0 <= g < |groups| ==> groups[g].Valid(width)
  }

  /** All rows of a file's row groups. */
  function AllRows(groups: seq<RecordBatch>, width: nat): seq<Cells>
    requires AllValid(groups, width)
  {
    if groups == [] then [] else RowsOf(groups[0], width) + AllRows(groups[1..], width)
  }

  lemma {:induction false} AllRowsConcat(a: seq<RecordBatch>, b: seq<RecordBatch>, width: nat)
    requires AllValid(a, width) && AllValid(b, width)
    ensures AllValid(a + b, width) && AllRows(a + b, width) == AllRows(a, width) + AllRows(b, width)
  {
    if a == [] {
      assert a + b == b;
    } else {
      assert (a + b)[1..] == a[1..] + b;
      AllRowsConcat(a[1..], b, width);
    }
  }

  // ---------------------------------------------------------------- encoding

  predicate Encodes(num: Numerics, schema: seq<Column>, row: Row) {
    forall c :: 0 <= c < |schema| ==> AppendField(num, schema[c], row).Ok?
  }

  predicate AllEncode(num: Numerics, schema: seq<Column>, rows: seq<Row>) {
    forall i :: 0 <= i < |rows| ==> Encodes(num, schema, rows[i])
  }

  function Encoded(num: Numerics, schema: seq<Column>, row: Row): (cells: Cells)
    requires Encodes(num, schema, row)
    ensures |cells| == |schema|
    ensures forall c :: 0 <= c < |schema| ==> cells[c] == AppendField(num, schema[c], row).value
  {
    seq(|schema|, c requires 0 <= c < |schema| => AppendField(num, schema[c], row).value)
  }

  function EncodedRows(num: Numerics, schema: seq<Column>, rows: seq<Row>): (r: seq<Cells>)
    requires AllEncode(num, schema, rows)
    ensures |r| == |rows| && forall i :: 0 <= i < |r| ==> r[i] == Encoded(num, schema, rows[i])
  {
    seq(|rows|, i requires 0 <= i < |rows| => Encoded(num, schema, rows[i]))
  }

  lemma EncodedConcat(num: Numerics, schema: seq<Column>, a: seq<Row>, b: seq<Row>)
    requires AllEncode(num, schema, a) && AllEncode(num, schema, b)
    ensures AllEncode(num, schema, a + b)
    ensures EncodedRows(num, schema, a + b) == EncodedRows(num, schema, a) + EncodedRows(num, schema, b)
  {
    forall i | 0 <= i < |a + b| ensures Encodes(num, schema, (a + b)[i]) {
      assert (a + b)[i] == if i < |a| then a[i] else b[i - |a|];
    }
  }

  /** One column of a batch. */
  method AppendColumn(num: Numerics, col: Column, rows: seq<Row>) returns (r: Result<seq<Cell>>)
    ensures r.Ok? <==> forall i :: 0 <= i < |rows| ==> AppendField(num, col, rows[i]).Ok?
    ensures r.Ok? ==> |r.value| == |rows|
    ensures r.Ok? ==> forall i :: 0 <= i < |rows| ==> r.value[i] == AppendField(num, col, rows[i]).value
  {
    var cells: seq<Cell> := [];
    for i := 0 to |rows|
      invariant |cells| == i
      invariant forall j :: 0 <= j < i ==> AppendField(num, col, rows[j]) == Ok(cells[j])
    {
      var val := if col.name in rows[i] then rows[i][col.name] else Nil;
      if val.Nil? {
        cells := cells + [Null];
      } else {
        var cell := AppendValue(num, GetArrowType(col.typ), val);
        if cell.Err? {
          return Err(cell.reason);
        }
        cells := cells + [cell.value];
      }
    }
    r := Ok(cells);
  }

  /** The record batch is built column by column and holds the rows. */
  method BuildBatch(num: Numerics, schema: seq<Column>, rows: seq<Row>) returns (r: Result<RecordBatch>)
    ensures r.Ok? <==> AllEncode(num, schema, rows)
    ensures r.Ok? ==> r.value.Valid(|schema|) && RowsOf(r.value, |schema|) == EncodedRows(num, schema, rows)
  {
    var fields: seq<seq<Cell>> := [];
    for c := 0 to |schema|
      invariant |fields| == c
      invariant forall d :: 0 <= d < c ==> |fields[d]| == |rows|
      invariant forall d, i :: 0 <= d < c && 0 <= i < |rows| ==>
          AppendField(num, schema[d], rows[i]) == Ok(fields[d][i])
    {
      var column := AppendColumn(num, schema[c], rows);
      if column.Err? {
        ghost var i :| 0 <= i < |rows| && AppendField(num, schema[c], rows[i]).Err?;
        assert !Encodes(num, schema, rows[i]);
        return Err(column.reason);
      }
      fields := fields + [column.value];
    }
    forall i | 0 <= i < |rows| ensures Encodes(num, schema, rows[i]) {
    }
    var batch := RecordBatch(|rows|, fields);
    forall i | 0 <= i < |rows| ensures RowsOf(batch, |schema|)[i] == EncodedRows(num, schema, rows)[i] {
      assert RowAt(batch, |schema|, i) == Encoded(num, schema, rows[i]);
    }
    r := Ok(batch);
  }

  // ---------------------------------------------------------------- the serializer

  /** Between Open and Close, `groups` are the row groups written to the bound stream. */
  class Serializer {
    const num: Numerics
    const schema: seq<Column>
    const batchSize: nat
    var open: bool
    var rows: seq<Row>
    var groups: seq<RecordBatch>

    /** Written row groups are well formed, and nothing is buffered between streams. */
    ghost predicate Valid()
      reads this
    {
      batchSize > 0 && AllValid(groups, |schema|) && (!open ==> rows == [])
    }

    /** The rows written to the stream so far. */
    ghost function Written(): seq<Cells>
      requires AllValid(groups, |schema|)
      reads this
    {
      AllRows(groups, |schema|)
    }

    /** The serializer is at work on a stream that stands for these rows so far: the encoded
        ones written, the rest, fewer than make a row group, still buffered. */
    ghost predicate Holds(done: seq<Row>)
      reads this
    {
      && Valid() && open && |rows| < batchSize && |rows| <= |done| && rows == done[|done| - |rows|..]
      && AllEncode(num, schema, done[..|done| - |rows|])
      && Written() == EncodedRows(num, schema, done[..|done| - |rows|])
      && (forall g :: 0 <= g < |groups| ==> groups[g].numRows == batchSize)
    }

    constructor (num: Numerics, schema: seq<Column>, batchSize: int)
      ensures Valid() && !open && rows == []
      ensures this.num == num && this.schema == schema
      ensures this.batchSize == if batchSize <= 0 then 1000 else batchSize
    {
      this.num, this.schema := num, schema;
      this.batchSize := if batchSize <= 0 then 1000 else batchSize;
      open, rows, groups := false, [], [];
    }

    method Open() returns (ok: bool)
      requires Valid()
      modifies this
      ensures ok == !old(open)
      ensures ok ==> Holds([])
      ensures !ok ==> unchanged(this)
    {
      if open {
        return false;
      }
      open := true;
      groups := [];
      ok := true;
    }

    /** Row groups are cut every batchSize rows; one that does not encode stays buffered. */
    method Flush() returns (ok: bool)
      requires batchSize > 0 && AllValid(groups, |schema|) && open
      modifies this
      ensures open && AllValid(groups, |schema|)
      ensures ok == AllEncode(num, schema, old(rows))
      ensures ok ==> rows == [] && Written() == old(Written()) + EncodedRows(num, schema, old(rows))
      ensures ok ==> |groups| >= |old(groups)| && groups[..|old(groups)|] == old(groups)
      ensures ok ==> if old(rows) == [] then groups == old(groups)
                     else |groups| == |old(groups)| + 1 && groups[|old(groups)|].numRows == |old(rows)|
      ensures !ok ==> unchanged(this)
    {
      if |rows| == 0 {
        assert Written() == Written() + EncodedRows(num, schema, []);
        return true;
      }
      var batch := BuildBatch(num, schema, rows);
      if batch.Err? {
        return false;
      }
      AllRowsConcat(groups, [batch.value], |schema|);
      assert [batch.value][1..] == [];
      assert AllRows([batch.value], |schema|) == RowsOf(batch.value, |schema|) + [];
      groups := groups + [batch.value];
      rows := [];
      ok := true;
    }

    /** A row that completes a row group which does not encode stays in the buffer with it. */
    method Serialize(rec: Row, ghost done: seq<Row>) returns (ok: bool)
      requires Valid()
      modifies this
      ensures Valid() && open == old(open)
      ensures ok <==> open && (|old(rows)| + 1 < batchSize || AllEncode(num, schema, old(rows) + [rec]))
      ensures !open ==> unchanged(this)
      ensures open && (!ok || |old(rows)| + 1 < batchSize) ==> rows == old(rows) + [rec] && groups == old(groups)
      ensures ok && |old(rows)| + 1 >= batchSize ==>
          rows == [] && Written() == old(Written()) + EncodedRows(num, schema, old(rows) + [rec])
      ensures ok && old(Holds(done)) ==> Holds(done + [rec])
    {
      if !open {
        return false;
      }
      ghost var holds, before, next := Holds(done), if Holds(done) then done[..|done| - |rows|] else [], done + [rec];
      rows := rows + [rec];
      if |rows| >= batchSize {
        ok := FlushGroup(holds, before, next);
      } else {
        assert holds ==> next[..|next| - |rows|] == before;
        ok := true;
      }
    }

    /** A full row group leaves the buffer. */
    method FlushGroup(ghost holds: bool, ghost before: seq<Row>, ghost next: seq<Row>) returns (ok: bool)
      requires Valid() && open
      requires holds ==>
          && |rows| == batchSize && next == before + rows
          && AllEncode(num, schema, before) && Written() == EncodedRows(num, schema, before)
          && (forall g :: 0 <= g < |groups| ==> groups[g].numRows == batchSize)
      modifies this
      ensures Valid() && open && ok == AllEncode(num, schema, old(rows))
      ensures ok ==> rows == [] && Written() == old(Written()) + EncodedRows(num, schema, old(rows))
      ensures ok && holds ==> Holds(next)
      ensures !ok ==> unchanged(this)
    {
      ghost var buffered := rows;
      ok := Flush();
      if ok && holds {
        assert forall g :: 0 <= g < |old(groups)| ==> groups[g] == old(groups)[g];
        EncodedConcat(num, schema, before, buffered);
        assert next[..|next|] == next;
      }
    }

    /** Closing writes what is buffered: afterwards the stream holds every row. */
    method Close(ghost done: seq<Row>) returns (ok: bool)
      requires Valid()
      modifies this
      ensures !old(open) ==> ok && unchanged(this)
      ensures old(open) ==> ok == AllEncode(num, schema, old(rows))
      ensures old(open) && ok ==>
          Valid() && !open && rows == [] && Written() == old(Written()) + EncodedRows(num, schema, old(rows))
      ensures old(Holds(done)) ==> ok == AllEncode(num, schema, done)
      ensures old(Holds(done)) && ok ==> Written() == EncodedRows(num, schema, done)
      ensures !ok ==> unchanged(this)
    {
      if !open {
        return true;
      }
      ghost var holds, buffered := Holds(done), rows;
      ok := Flush();
      if holds {
        CloseEncodes(num, schema, done, buffered);
      }
      if ok {
        open := false;
      }
    }
  }

  /** All rows of a stream encode if and only if the buffered ones do. */
  lemma CloseEncodes(num: Numerics, schema: seq<Column>, done: seq<Row>, buffered: seq<Row>)
    requires |buffered| <= |done| && buffered == done[|done| - |buffered|..]
    requires AllEncode(num, schema, done[..|done| - |buffered|])
    ensures AllEncode(num, schema, done) <==> AllEncode(num, schema, buffered)
    ensures AllEncode(num, schema, done) ==>
        EncodedRows(num, schema, done)
        == EncodedRows(num, schema, done[..|done| - |buffered|]) + EncodedRows(num, schema, buffered)
  {
    var before := done[..|done| - |buffered|];
    assert done == before + buffered;
    if AllEncode(num, schema, buffered) {
      EncodedConcat(num, schema, before, buffered);
    } else {
      var i :| 0 <= i < |buffered| && !Encodes(num, schema, buffered[i]);
      assert done[|before| + i] == buffered[i];
    }
  }
}
