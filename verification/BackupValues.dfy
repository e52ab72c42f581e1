/** How values travel through a Parquet chunk: what can be appended to a column of a given
    type, and what comes back. */
module BackupValues {
  import opened Common

  /** A Go value in a record. Floating-point numbers are their bit patterns; a time.Time is
      its instant in nanoseconds since the epoch and its location. */
  datatype GoValue =
    | Nil
    | Int64(i: int)
    | Int(i: int)
    | Int32(i: int)
    | Float64(bits: int)
    | Float32(bits: int)
    | Str(s: string)
    | Bool(b: bool)
    | Time(nanos: int, location: string)
    | Other(tag: int)

  const UTC := "UTC"

  /** int64 of a float64, float64 of an int64 and of a float32, and fmt's %v. */
  datatype Numerics = Numerics(truncate: int -> int, nearest: int -> int, widen: int -> int, format: GoValue -> string)

  datatype ArrowType = Int64Type | StringType | Float64Type | BoolType | TimestampType

  /** One slot of a column. Timestamps are microseconds. */
  datatype Cell = Null | I64(i: int) | Text(s: string) | F64(bits: int) | B(b: bool) | Micros(us: int)

  datatype Column = Column(name: string, typ: string)

  type Row = map<string, GoValue>

  function GetArrowType(t: string): ArrowType {
    if t in ["int64", "integer", "bigint"] then Int64Type
    else if t in ["string", "text", "varchar"] then StringType
    else if t in ["float64", "double"] then Float64Type
    else if t in ["bool", "boolean"] then BoolType
    else if t in ["timestamp", "datetime", "timestamptz"] then TimestampType
    else StringType
  }

  /** Appending a value that is not nil. */
  function AppendValue(num: Numerics, t: ArrowType, v: GoValue): Result<Cell> {
    match t
    case Int64Type => (
      match v
      case Int64(i) => Ok(I64(i))
      case Int(i) => Ok(I64(i))
      case Int32(i) => Ok(I64(i))
      case Float64(bits) => Ok(I64(num.truncate(bits)))
      case _ => Err("cannot coerce to int64"))
    case StringType => (
      match v
      case Str(s) => Ok(Text(s))
      case _ => Ok(Text(num.format(v))))
    case Float64Type => (
      match v
      case Float64(bits) => Ok(F64(bits))
      case Float32(bits) => Ok(F64(num.widen(bits)))
      case Int64(i) => Ok(F64(num.nearest(i)))
      case _ => Err("cannot coerce to float64"))
    case BoolType => (
      match v
      case Bool(b) => Ok(B(b))
      case _ => Err("expected bool"))
    case TimestampType => (
      match v
      case Time(nanos, _) => Ok(Micros(nanos / 1000))
      case Int64(i) => Ok(Micros(i))
      case _ => Err("cannot coerce to timestamp"))
  }

  /** What a record has in a column; a missing one reads as nil. */
  function Field(row: Row, name: string): GoValue { if name in row then row[name] else Nil }

  /** A nil value, and a column the record does not have, become a null slot. */
  function AppendField(num: Numerics, col: Column, row: Row): Result<Cell> {
    var val := Field(row, col.name);
    if val.Nil? then Ok(Null) else AppendValue(num, GetArrowType(col.typ), val)
  }

  function GetVal(cell: Cell): GoValue {
    match cell
    case Null => Nil
    case I64(i) => Int64(i)
    case Text(s) => Str(s)
    case F64(bits) => Float64(bits)
    case B(b) => Bool(b)
    case Micros(us) => Time(us * 1000, UTC)
  }

  /** Append, then read. */
  function Normalised(num: Numerics, t: ArrowType, v: GoValue): Result<GoValue> {
    if v.Nil? then Ok(Nil)
    else match AppendValue(num, t, v)
      case Ok(cell) => Ok(GetVal(cell))
      case Err(reason) => Err(reason)
  }

  // ---------------------------------------------------------------- what a value means

  predicate IntegerColumn(typ: string) { typ == "int64" || typ == "integer" || typ == "bigint" }

  predicate FloatColumn(typ: string) { typ == "float64" || typ == "double" }

  predicate BoolColumn(typ: string) { typ == "bool" || typ == "boolean" }

  predicate TimeColumn(typ: string) { typ == "timestamp" || typ == "datetime" || typ == "timestamptz" }

  predicate IsInteger(v: GoValue) { v.Int64? || v.Int? || v.Int32? }

  /** What is read from a column of a declared type for what was written to it. An integer of
      any width keeps its number, and a float64 loses its fraction; a number becomes its
      float64; an instant is cut down to the microsecond, in UTC, and an int64 counts
      microseconds; every other column is text and holds the printed value. */
  predicate Means(num: Numerics, typ: string, v: GoValue, w: GoValue) {
    if v.Nil? then w.Nil?
    else if IntegerColumn(typ) then
      w.Int64? && ((IsInteger(v) && w.i == v.i) || (v.Float64? && w.i == num.truncate(v.bits)))
    else if FloatColumn(typ) then
      w.Float64? && ((v.Float64? && w.bits == v.bits) || (v.Float32? && w.bits == num.widen(v.bits))
                     || (v.Int64? && w.bits == num.nearest(v.i)))
    else if BoolColumn(typ) then w.Bool? && v.Bool? && w.b == v.b
    else if TimeColumn(typ) then
      w.Time? && w.location == "UTC"
      && ((v.Time? && w.nanos % 1000 == 0 && w.nanos <= v.nanos < w.nanos + 1000)
          || (v.Int64? && w.nanos == 1000 * v.i))
    else w.Str? && w.s == if v.Str? then v.s else num.format(v)
  }

  /** The values a column of a declared type does not take. */
  predicate Refuses(typ: string, v: GoValue) {
    if v.Nil? then false
    else if IntegerColumn(typ) then !IsInteger(v) && !v.Float64?
    else if FloatColumn(typ) then !v.Float64? && !v.Float32? && !v.Int64?
    else if BoolColumn(typ) then !v.Bool?
    else TimeColumn(typ) && !v.Time? && !v.Int64?
  }

  lemma ColumnTypes(typ: string)
    ensures IntegerColumn(typ) <==> GetArrowType(typ).Int64Type?
    ensures FloatColumn(typ) <==> GetArrowType(typ).Float64Type?
    ensures BoolColumn(typ) <==> GetArrowType(typ).BoolType?
    ensures TimeColumn(typ) <==> GetArrowType(typ).TimestampType?
  {
  }

  /** Appending and reading back gives exactly what the value means in the column, and fails
      exactly for a value the column does not take. */
  lemma ComesBackIff(num: Numerics, typ: string, v: GoValue, w: GoValue)
    ensures Normalised(num, GetArrowType(typ), v) == Ok(w) <==> Means(num, typ, v, w)
    ensures Normalised(num, GetArrowType(typ), v).Err? <==> Refuses(typ, v)
  {
    ColumnTypes(typ);
    var t := GetArrowType(typ);
    if v.Time? && t.TimestampType? {
      Microseconds(v.nanos, if w.Time? then w.nanos else 0);
    }
  }

  lemma Microseconds(n: int, m: int)
    ensures m == n / 1000 * 1000 <==> m % 1000 == 0 && m <= n < m + 1000
  {
  }

  /** The values a column of a type gives back as they were. */
  predicate Native(t: ArrowType, v: GoValue) {
    match v
    case Nil => true
    case Int64(_) => t.Int64Type?
    case Float64(_) => t.Float64Type?
    case Str(_) => t.StringType?
    case Bool(_) => t.BoolType?
    case Time(nanos, location) => t.TimestampType? && nanos % 1000 == 0 && location == UTC
    case _ => false
  }

  /** A backup changes a value exactly when it is not native to its column. */
  lemma LosslessIff(num: Numerics, t: ArrowType, v: GoValue)
    ensures Normalised(num, t, v) == Ok(v) <==> Native(t, v)
  {
    if v.Time? {
      assert v.nanos == 1000 * (v.nanos / 1000) + v.nanos % 1000;
    }
  }

  /** Whatever encodes at all comes back native, so a second backup changes nothing. */
  lemma NormalisedIsNative(num: Numerics, t: ArrowType, v: GoValue)
    requires Normalised(num, t, v).Ok?
    ensures Native(t, Normalised(num, t, v).value)
    ensures Normalised(num, t, Normalised(num, t, v).value) == Normalised(num, t, v)
  {
    var w := Normalised(num, t, v).value;
    assert w.Time? ==> w.nanos % 1000 == 0;
    LosslessIff(num, t, w);
  }
}
