/**
 * An abstract SQLite prepared statement: the part of the engine the bridge
 * talks to. A statement is a fixed program (its result columns, the rows it
 * yields in cursor order and the code its last step returns) plus a cursor.
 */
module Sqlite {
  import opened ArrowStatus

  // Result codes
  const SQLITE_OK: int := 0
  const SQLITE_ERROR: int := 1
  const SQLITE_CONSTRAINT: int := 19
  const SQLITE_ROW: int := 100
  const SQLITE_DONE: int := 101

  // Fundamental datatypes reported by sqlite3_column_type
  const SQLITE_INTEGER: int := 1
  const SQLITE_FLOAT: int := 2
  const SQLITE_TEXT: int := 3
  const SQLITE_BLOB: int := 4
  const SQLITE_NULL: int := 5

  newtype byte = x: int | 0 <= x < 256
  type Bytes = seq<byte>
  type int64 = x: int | -0x8000_0000_0000_0000 <= x < 0x8000_0000_0000_0000

  /** A double, kept as its bit pattern and never interpreted. */
  datatype Double = Double(bits: bv64)

  /** A value stored in one cell of a result row. */
  datatype Cell = Null | Integer(i: int64) | Real(d: Double) | Text(text: Bytes) | Blob(blob: Bytes)

  type Row = seq<Cell>

  /** sqlite3_column_type of a cell. */
  function TypeOf(c: Cell): int {
    match c
    case Null => SQLITE_NULL
    case Integer(_) => SQLITE_INTEGER
    case Real(_) => SQLITE_FLOAT
    case Text(_) => SQLITE_TEXT
    case Blob(_) => SQLITE_BLOB
  }

  /**
   * The engine's conversions of a cell to the representation an accessor
   * asks for (sqlite3_column_int64, _double, _text and _blob). A `None`
   * stands for a null pointer.
   */
  datatype Coercions = Coercions(
    int64Of: Cell -> int64,
    doubleOf: Cell -> Double,
    textOf: Cell -> Option<Bytes>,
    blobOf: Cell -> Option<Bytes>)

  /**
   * The conversions SQLite documents for a cell read with the accessor of
   * its own type; sqlite3_column_blob of a zero-length blob is a null pointer.
   */
  ghost predicate Documented(co: Coercions) {
    && (forall i: int64 {:trigger Integer(i)} :: co.int64Of(Integer(i)) == i)
    && (forall d: Double {:trigger Real(d)} :: co.doubleOf(Real(d)) == d)
    && (forall t: Bytes {:trigger Text(t)} :: co.textOf(Text(t)) == Some(t))
    && (forall b: Bytes {:trigger Blob(b)} :: b != [] ==> co.blobOf(Blob(b)) == Some(b))
    && co.blobOf(Blob([])) == None
  }

  /** What the engine reports about one result column, independent of the cursor. */
  datatype ColumnInfo = ColumnInfo(name: string, declType: Option<string>, tableName: Option<string>)

  /**
   * A prepared query: its result columns, the rows a step yields one after
   * the other, the code the step after the last row returns (SQLITE_DONE, or
   * an error code when evaluation fails there) and sqlite3_errmsg of its
   * connection.
   */
  datatype Program = Program(columns: seq<ColumnInfo>, rows: seq<Row>, endCode: int, errmsg: string)

  /**
   * The cursor: `stepped` counts the steps since the last reset, so row
   * `stepped - 1` is current while 1 <= stepped <= |rows|; `lastCode` is the
   * code of the most recent step (SQLITE_OK after a reset).
   */
  datatype Engine = Engine(program: Program, stepped: nat, lastCode: int)

  predicate HasRow(e: Engine) {
    1 <= e.stepped <= |e.program.rows|
  }

  /** The cell column i shows; with no current row every column reads as NULL. */
  function CurrentCell(e: Engine, i: nat): Cell {
    if HasRow(e) && i < |e.program.rows[e.stepped - 1]| then e.program.rows[e.stepped - 1][i] else Null
  }

  /** The cells of the first n columns of the current row. */
  function CurrentCells(e: Engine, n: nat): (cells: seq<Cell>)
    ensures |cells| == n
  {
    seq(n, i requires 0 <= i < n => CurrentCell(e, i))
  }

  /** The first n cells of a stored row, padded with NULL. */
  function RowCells(row: Row, n: nat): (cells: seq<Cell>)
    ensures |cells| == n
  {
    seq(n, i requires 0 <= i < n => if i < |row| then row[i] else Null)
  }

  /** Whether a result code reports an error (anything but OK, ROW and DONE). */
  predicate IsErrorCode(code: int) {
    code != SQLITE_OK && code != SQLITE_ROW && code != SQLITE_DONE
  }

  /**
   * sqlite3_step: the next row, or the end code once the rows are used up; a
   * step after the end code has been returned starts the query again.
   */
  function StepEngine(e: Engine): (Engine, int) {
    var s := if e.stepped > |e.program.rows| then 1 else e.stepped + 1;
    var code := if s <= |e.program.rows| then SQLITE_ROW else e.program.endCode;
    (Engine(e.program, s, code), code)
  }

  /** sqlite3_reset: rewinds the cursor and reports the error of the most recent step, if any. */
  function ResetEngine(e: Engine): (Engine, int) {
    (Engine(e.program, 0, SQLITE_OK), if IsErrorCode(e.lastCode) then e.lastCode else SQLITE_OK)
  }

  /** The native statement handle (sqlite3_stmt*). */
  class NativeStmt {
    const program: Program
    const coerce: Coercions
    var stepped: nat
    var lastCode: int
    var finalized: bool

    function State(): Engine
      reads this
    {
      Engine(program, stepped, lastCode)
    }

    constructor (program: Program, coerce: Coercions)
      ensures State() == Engine(program, 0, SQLITE_OK) && !finalized
    {
      this.program := program;
      this.coerce := coerce;
      stepped := 0;
      lastCode := SQLITE_OK;
      finalized := false;
    }

    function ColumnCount(): nat {
      |program.columns|
    }

    function ColumnName(i: nat): string
      requires i < ColumnCount()
    {
      program.columns[i].name
    }

    function ColumnDecltype(i: nat): Option<string>
      requires i < ColumnCount()
    {
      program.columns[i].declType
    }

    function ColumnTableName(i: nat): Option<string>
      requires i < ColumnCount()
    {
      program.columns[i].tableName
    }

    function ColumnType(i: nat): int
      reads this
    {
      TypeOf(CurrentCell(State(), i))
    }

    function ColumnInt64(i: nat): int64
      reads this
    {
      coerce.int64Of(CurrentCell(State(), i))
    }

    function ColumnDouble(i: nat): Double
      reads this
    {
      coerce.doubleOf(CurrentCell(State(), i))
    }

    function ColumnText(i: nat): Option<Bytes>
      reads this
    {
      coerce.textOf(CurrentCell(State(), i))
    }

    function ColumnBlob(i: nat): Option<Bytes>
      reads this
    {
      coerce.blobOf(CurrentCell(State(), i))
    }

    method Step() returns (code: int)
      requires !finalized
      modifies this
      ensures (State(), code) == StepEngine(old(State()))
      ensures !finalized
    {
      var next := StepEngine(State());
      stepped, lastCode := next.0.stepped, next.0.lastCode;
      code := next.1;
    }

    method Reset() returns (code: int)
      requires !finalized
      modifies this
      ensures (State(), code) == ResetEngine(old(State()))
      ensures !finalized
    {
      code := if IsErrorCode(lastCode) then lastCode else SQLITE_OK;
      stepped, lastCode := 0, SQLITE_OK;
    }

    /** sqlite3_finalize: releases the handle and reports the error of the most recent step, if any. */
    method Finalize() returns (code: int)
      requires !finalized
      modifies this
      ensures finalized && State() == old(State())
      ensures code == ResetEngine(old(State())).1
    {
      code := if IsErrorCode(lastCode) then lastCode else SQLITE_OK;
      finalized := true;
    }
  }
}
