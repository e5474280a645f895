/**
 * arrow_sql_bridge::statement_batch_reader (src/bridge/statement_batch_reader.cpp):
 * turns the rows of a statement into record batches of at most
 * MaxBatchSize rows, one call of ReadNext at a time.
 */
module BatchReading {
  import opened ArrowStatus
  import opened Sqlite
  import opened ArrowTypes
  import opened TypeMapping
  import opened Statements

  /** kMaxBatchSize */
  const MaxBatchSize: nat := 16384

  /** One entry appended to a column builder. */
  datatype Value = NullValue | IntValue(i: int64) | RealValue(d: Double) | BytesValue(bytes: Bytes)

  /** A record batch: the reader's schema, its row count and one array per field. */
  datatype Batch = Batch(schema: Schema, numRows: nat, columns: seq<seq<Value>>)

  /** The message of an unsupported field type. */
  function ConversionMessage(t: DataType): string {
    "Not implemented SQLite data conversion to " + TypeName(t)
  }

  /**
   * The entry one cell adds to the builder of a field of type t: a null for
   * a NULL cell whatever t is; otherwise the value the append helper for t
   * reads (a null when the text or blob pointer is null); NotImplemented
   * for a type no helper handles.
   */
  function AppendValue(t: DataType, cell: Cell, co: Coercions): Result<Value> {
    if TypeOf(cell) == SQLITE_NULL then Ok(NullValue)
    else match t
      case Int64 => Ok(IntValue(co.int64Of(cell)))
      case Float64 => Ok(RealValue(co.doubleOf(cell)))
      case Binary => (match co.blobOf(cell) case None => Ok(NullValue) case Some(b) => Ok(BytesValue(b)))
      case Utf8 => (match co.textOf(cell) case None => Ok(NullValue) case Some(s) => Ok(BytesValue(s)))
      case _ => Err(NotImplemented(ConversionMessage(t)))
  }

  /**
   * A NULL cell is appended as a null whatever the field's type; any other
   * cell converts exactly when the field's type is one the helpers handle,
   * and otherwise fails with NotImplemented naming the type. A text or blob
   * accessor that yields a null pointer appends a null too.
   */
  lemma AppendValueFails(t: DataType, cell: Cell, co: Coercions)
    ensures cell.Null? ==> AppendValue(t, cell, co) == Ok(NullValue)
    ensures !cell.Null? && t == Binary && co.blobOf(cell).None? ==> AppendValue(t, cell, co) == Ok(NullValue)
    ensures !cell.Null? && t == Utf8 && co.textOf(cell).None? ==> AppendValue(t, cell, co) == Ok(NullValue)
    ensures AppendValue(t, cell, co).Err? <==> !cell.Null? && t !in {Int64, Float64, Binary, Utf8}
    ensures AppendValue(t, cell, co).Err? ==> AppendValue(t, cell, co).status == NotImplemented(ConversionMessage(t))
  {
  }

  /**
   * Under the documented coercions a non-NULL cell keeps its value: an
   * integer in an Int64 field, a real in a Float64 field, text in a Utf8
   * field and a non-empty blob in a Binary field.
   */
  lemma AppendValueKeepsStoredValue(t: DataType, cell: Cell, co: Coercions)
    requires Documented(co)
    ensures cell.Integer? && t == Int64 ==> AppendValue(t, cell, co) == Ok(IntValue(cell.i))
    ensures cell.Real? && t == Float64 ==> AppendValue(t, cell, co) == Ok(RealValue(cell.d))
    ensures cell.Text? && t == Utf8 ==> AppendValue(t, cell, co) == Ok(BytesValue(cell.text))
    ensures cell.Blob? && |cell.blob| > 0 && t == Binary ==> AppendValue(t, cell, co) == Ok(BytesValue(cell.blob))
  {
  }

  /** An empty blob reads as a null pointer, so it is appended as a null rather than as an empty value. */
  lemma EmptyBlobAppendsNull(co: Coercions)
    requires Documented(co)
    ensures AppendValue(Binary, Blob([]), co) == Ok(NullValue)
  {
  }

  /**
   * The entries the first k fields take from one row, or the status of the
   * first cell that cannot be converted.
   */
  function ConvertPrefix(schema: Schema, cells: seq<Cell>, co: Coercions, k: nat): Result<seq<Value>>
    requires k <= |schema| && k <= |cells|
  {
    if k == 0 then Ok([])
    else match ConvertPrefix(schema, cells, co, k - 1)
      case Err(s) => Err(s)
      case Ok(vs) =>
        match AppendValue(schema[k - 1].fieldType, cells[k - 1], co)
        case Err(s) => Err(s)
        case Ok(v) => Ok(vs + [v])
  }

  /** The prefix converts exactly when each of its cells does, into one entry per cell, in field order. */
  lemma {:induction false} ConvertPrefixValues(schema: Schema, cells: seq<Cell>, co: Coercions, k: nat)
    requires k <= |schema| && k <= |cells|
    ensures var r := ConvertPrefix(schema, cells, co, k);
      && (r.Ok? ==> |r.value| == k)
      && (r.Ok? ==> forall j :: 0 <= j < k ==> AppendValue(schema[j].fieldType, cells[j], co) == Ok(r.value[j]))
      && (r.Ok? <==> forall j :: 0 <= j < k ==> AppendValue(schema[j].fieldType, cells[j], co).Ok?)
  {
    if k > 0 {
      ConvertPrefixValues(schema, cells, co, k - 1);
    }
  }

  /** A failed conversion reports the status of the first cell that cannot be converted. */
  lemma {:induction false} ConvertPrefixFirstError(schema: Schema, cells: seq<Cell>, co: Coercions, k: nat)
    requires k <= |schema| && k <= |cells|
    ensures var r := ConvertPrefix(schema, cells, co, k);
      r.Err? ==> exists j :: (0 <= j < k && ConvertPrefix(schema, cells, co, j).Ok? &&
                              AppendValue(schema[j].fieldType, cells[j], co) == Err(r.status))
  {
    if k > 0 && ConvertPrefix(schema, cells, co, k - 1).Err? {
      ConvertPrefixFirstError(schema, cells, co, k - 1);
    }
  }

  /** Once cell i fails, with every cell before it converted, every longer prefix fails with its status. */
  lemma {:induction false} ConvertPrefixFailsAt(schema: Schema, cells: seq<Cell>, co: Coercions, i: nat, k: nat)
    requires i < k <= |schema| && k <= |cells|
    requires ConvertPrefix(schema, cells, co, i).Ok?
    requires AppendValue(schema[i].fieldType, cells[i], co).Err?
    ensures ConvertPrefix(schema, cells, co, k) == Err(AppendValue(schema[i].fieldType, cells[i], co).status)
    decreases k
  {
    if k > i + 1 {
      ConvertPrefixFailsAt(schema, cells, co, i, k - 1);
    }
  }

  /** A conversion can fail only with NotImplemented: the helpers' appends themselves do not fail. */
  lemma {:induction false} ConvertPrefixFailsNotImplemented(schema: Schema, cells: seq<Cell>, co: Coercions, k: nat)
    requires k <= |schema| && k <= |cells|
    ensures ConvertPrefix(schema, cells, co, k).Err? ==> ConvertPrefix(schema, cells, co, k).status.NotImplemented?
  {
    if k > 0 {
      ConvertPrefixFailsNotImplemented(schema, cells, co, k - 1);
      AppendValueFails(schema[k - 1].fieldType, cells[k - 1], co);
    }
  }

  /** The entries one row adds to the builders, one per field. */
  function ConvertRow(schema: Schema, cells: seq<Cell>, co: Coercions): Result<seq<Value>>
    requires |cells| == |schema|
  {
    ConvertPrefix(schema, cells, co, |schema|)
  }

  /** The builders' contents after the rows in acc: column j holds entry j of every row, in row order. */
  function Columns(acc: seq<seq<Value>>, n: nat): (cols: seq<seq<Value>>)
    ensures |cols| == n
    ensures forall j :: 0 <= j < n ==> |cols[j]| == |acc|
  {
    seq(n, j requires 0 <= j < n =>
      seq(|acc|, k requires 0 <= k < |acc| => if j < |acc[k]| then acc[k][j] else NullValue))
  }

  /** The rows of a batch, read back from its columns. */
  function RowsOf(b: Batch): seq<seq<Value>> {
    seq(b.numRows, k requires 0 <= k < b.numRows =>
      seq(|b.columns|, j requires 0 <= j < |b.columns| =>
        if k < |b.columns[j]| then b.columns[j][k] else NullValue))
  }

  /** The batch that holds the given rows. */
  function BatchOf(schema: Schema, acc: seq<seq<Value>>): Batch {
    Batch(schema, |acc|, Columns(acc, |schema|))
  }

  /** Columns and RowsOf are inverse: a batch gives back exactly the rows it was built from. */
  lemma RowsOfBatchOf(schema: Schema, acc: seq<seq<Value>>)
    requires forall k :: 0 <= k < |acc| ==> |acc[k]| == |schema|
    ensures RowsOf(BatchOf(schema, acc)) == acc
  {
    var rows := RowsOf(BatchOf(schema, acc));
    assert |rows| == |acc|;
    forall k | 0 <= k < |acc|
      ensures rows[k] == acc[k]
    {
      assert |rows[k]| == |acc[k]|;
    }
  }

  /** The outcome of the row loop of one ReadNext call. */
  datatype Fill =
    | Filled(engine: Engine, rc: int, acc: seq<seq<Value>>)
    | FillFailed(status: Status, engine: Engine, rc: int)

  /** n steps of the engine. */
  function StepN(e: Engine, n: nat): Engine
    decreases n
  {
    if n == 0 then e else StepN(StepEngine(e).0, n - 1)
  }

  /**
   * The row loop: while fewer than MaxBatchSize rows are taken and rc is
   * SQLITE_ROW, convert the current row, then step. The loop stops with
   * the rows taken, or fails on a cell it cannot convert or on a step
   * error; rc keeps the code of the last successful step.
   */
  function FillBatch(schema: Schema, co: Coercions, e: Engine, rc: int, acc: seq<seq<Value>>): Fill
    requires |acc| <= MaxBatchSize
    decreases MaxBatchSize - |acc|
  {
    if |acc| < MaxBatchSize && rc == SQLITE_ROW then
      match ConvertRow(schema, CurrentCells(e, |schema|), co)
      case Err(s) => FillFailed(s, e, rc)
      case Ok(vals) =>
        var next := StepEngine(e);
        if next.1 == SQLITE_ERROR then FillFailed(ExecutionError(RuntimeErrorMessage(e.program.errmsg)), next.0, rc)
        else FillBatch(schema, co, next.0, next.1, acc + [vals])
    else Filled(e, rc, acc)
  }

  /**
   * The row loop keeps the rows it already had, takes at most MaxBatchSize
   * in all, stops only when the batch is full or the cursor is no longer on
   * a row, has stepped the cursor once per row it took, and every row it
   * took has one entry per field.
   */
  lemma {:induction false} FillBatchStops(schema: Schema, co: Coercions, e: Engine, rc: int, acc: seq<seq<Value>>)
    requires |acc| <= MaxBatchSize
    ensures var r := FillBatch(schema, co, e, rc, acc);
      r.Filled? ==>
        && |acc| <= |r.acc| <= MaxBatchSize && r.acc[..|acc|] == acc
        && (|r.acc| == MaxBatchSize || r.rc != SQLITE_ROW)
        && r.engine == StepN(e, |r.acc| - |acc|)
        && (forall k :: |acc| <= k < |r.acc| ==> |r.acc[k]| == |schema|)
    decreases MaxBatchSize - |acc|
  {
    if |acc| < MaxBatchSize && rc == SQLITE_ROW {
      match ConvertRow(schema, CurrentCells(e, |schema|), co)
      case Err(_) =>
      case Ok(vals) =>
        ConvertPrefixValues(schema, CurrentCells(e, |schema|), co, |schema|);
        var next := StepEngine(e);
        if next.1 != SQLITE_ERROR {
          FillBatchStops(schema, co, next.0, next.1, acc + [vals]);
          var r := FillBatch(schema, co, next.0, next.1, acc + [vals]);
          if r.Filled? {
            assert r.acc[..|acc|] == (r.acc[..|acc| + 1])[..|acc|];
            assert StepN(e, |r.acc| - |acc|) == StepN(next.0, |r.acc| - |acc| - 1);
          }
        }
    }
  }

  /** The reader's state between calls: is_executed, rc and the statement's cursor. */
  datatype ReaderState = ReaderState(executed: bool, rc: int, engine: Engine)

  /** What ReadNext returns and leaves behind once the cursor is started: a batch of the rows taken, or no batch (end of stream) when none were. */
  function Finish(schema: Schema, co: Coercions, e: Engine, rc: int): (Result<Option<Batch>>, ReaderState) {
    match FillBatch(schema, co, e, rc, [])
    case FillFailed(s, e', rc') => (Err(s), ReaderState(true, rc', e'))
    case Filled(e', rc', acc) =>
      (Ok(if |acc| > 0 then Some(BatchOf(schema, acc)) else None), ReaderState(true, rc', e'))
  }

  /**
   * statement_batch_reader::ReadNext: the first call resets and steps the
   * statement and records that it did; every call then runs the row loop.
   */
  function ReadNextSpec(schema: Schema, co: Coercions, s: ReaderState): (Result<Option<Batch>>, ReaderState) {
    if s.executed then Finish(schema, co, s.engine, s.rc)
    else
      var msg := RuntimeErrorMessage(s.engine.program.errmsg);
      var reset := ResetEngine(s.engine);
      if reset.1 == SQLITE_ERROR then (Err(ExecutionError(msg)), ReaderState(false, s.rc, reset.0))
      else
        var step := StepEngine(reset.0);
        if step.1 == SQLITE_ERROR then (Err(ExecutionError(msg)), ReaderState(false, reset.1, step.0))
        else Finish(schema, co, step.0, step.1)
  }

  /** Each call returns at most MaxBatchSize rows, as a batch with the reader's schema whose every column holds one entry per row. */
  lemma ReadNextBatchShape(schema: Schema, co: Coercions, s: ReaderState)
    ensures var (out, _) := ReadNextSpec(schema, co, s);
      out.Ok? && out.value.Some? ==>
        var b := out.value.value;
        && b.schema == schema
        && 0 < b.numRows <= MaxBatchSize
        && |b.columns| == |schema|
        && (forall j :: 0 <= j < |schema| ==> |b.columns[j]| == b.numRows)
  {
    if s.executed {
      FillBatchStops(schema, co, s.engine, s.rc, []);
    } else {
      var step := StepEngine(ResetEngine(s.engine).0);
      FillBatchStops(schema, co, step.0, step.1, []);
    }
  }

  /** Only the first call starts the cursor; a later call never resets, and when rc is no longer SQLITE_ROW it returns end-of-stream and changes nothing. */
  lemma ExhaustedReaderStaysExhausted(schema: Schema, co: Coercions, s: ReaderState)
    requires s.executed && s.rc != SQLITE_ROW
    ensures ReadNextSpec(schema, co, s) == (Ok(None), s)
  {
  }

  /**
   * The row loop fails only while the cursor is on a row, so rc is still
   * SQLITE_ROW: either the step reported SQLITE_ERROR, and the status
   * carries the connection's error message, or a cell could not be
   * converted. A failure carries no rows: those taken before it are dropped.
   */
  lemma {:induction false} FillBatchFailure(schema: Schema, co: Coercions, e: Engine, rc: int, acc: seq<seq<Value>>)
    requires |acc| <= MaxBatchSize
    ensures var r := FillBatch(schema, co, e, rc, acc);
      r.FillFailed? ==>
        && r.rc == SQLITE_ROW && r.engine.program == e.program
        && (r.status == ExecutionError(RuntimeErrorMessage(e.program.errmsg)) || r.status.NotImplemented?)
    decreases MaxBatchSize - |acc|
  {
    if |acc| < MaxBatchSize && rc == SQLITE_ROW {
      ConvertPrefixFailsNotImplemented(schema, CurrentCells(e, |schema|), co, |schema|);
      match ConvertRow(schema, CurrentCells(e, |schema|), co)
      case Err(_) =>
      case Ok(vals) =>
        var next := StepEngine(e);
        if next.1 != SQLITE_ERROR {
          FillBatchFailure(schema, co, next.0, next.1, acc + [vals]);
        }
    }
  }

  /**
   * A failing call returns no batch, and its status is the connection's
   * runtime error or a NotImplemented conversion. When the row loop
   * failed, the reader stays started with rc SQLITE_ROW.
   */
  lemma ReadNextFailure(schema: Schema, co: Coercions, s: ReaderState)
    ensures var (out, s') := ReadNextSpec(schema, co, s);
      out.Err? ==>
        && (out.status == ExecutionError(RuntimeErrorMessage(s.engine.program.errmsg)) || out.status.NotImplemented?)
        && s'.engine.program == s.engine.program
        && (s'.executed ==> s'.rc == SQLITE_ROW)
  {
    if s.executed {
      FillBatchFailure(schema, co, s.engine, s.rc, []);
    } else {
      var step := StepEngine(ResetEngine(s.engine).0);
      FillBatchFailure(schema, co, step.0, step.1, []);
    }
  }

  /**
   * The first call fails before the row loop exactly when the reset reports
   * the SQLITE_ERROR of an earlier step, or the first step does. The reader
   * is then left unstarted, so the next call resets and steps again.
   */
  lemma FirstCallFailureLeavesReaderUnstarted(schema: Schema, co: Coercions, s: ReaderState)
    requires !s.executed
    ensures var (out, s') := ReadNextSpec(schema, co, s);
      var p := s.engine.program;
      var stepFails := |p.rows| == 0 && p.endCode == SQLITE_ERROR;
      && (!s'.executed <==> s.engine.lastCode == SQLITE_ERROR || stepFails)
      && (!s'.executed ==> out == Err(ExecutionError(RuntimeErrorMessage(p.errmsg))))
      && (s.engine.lastCode == SQLITE_ERROR ==> s' == ReaderState(false, s.rc, Engine(p, 0, SQLITE_OK)))
      && (s.engine.lastCode != SQLITE_ERROR && stepFails ==>
            s' == ReaderState(false, ResetEngine(s.engine).1, Engine(p, 1, SQLITE_ERROR)))
  {
  }

  class BatchReader {
    const stmt: Statement
    const schema: Schema
    var isExecuted: bool
    var rc: int

    function State(): ReaderState
      reads this, stmt.native
    {
      ReaderState(isExecuted, rc, stmt.native.State())
    }

    constructor (stmt: Statement, schema: Schema)
      ensures this.stmt == stmt && this.schema == schema
      ensures !isExecuted && rc == SQLITE_OK
    {
      this.stmt := stmt;
      this.schema := schema;
      isExecuted := false;
      rc := SQLITE_OK;
    }

    /**
     * statement_batch_reader::make: resets the statement and derives the
     * schema once; schema() is that constant field.
     */
    static method Make(stmt: Statement) returns (r: Result<BatchReader>)
      requires !stmt.native.finalized
      modifies stmt.native
      ensures stmt.native.State() == ResetEngine(old(stmt.native.State())).0 && !stmt.native.finalized
      ensures var after := ResetEngine(old(stmt.native.State()));
        r.Ok? <==> after.1 != SQLITE_ERROR && DeriveSchema(ColumnViews(after.0)).Ok?
      ensures var after := ResetEngine(old(stmt.native.State()));
        r.Err? && after.1 == SQLITE_ERROR ==> r.status == ExecutionError(RuntimeErrorMessage(stmt.native.program.errmsg))
      ensures var after := ResetEngine(old(stmt.native.State()));
        r.Err? && after.1 != SQLITE_ERROR ==> r == Err(DeriveSchema(ColumnViews(after.0)).status)
      ensures r.Ok? ==> fresh(r.value) && r.value.stmt == stmt && !r.value.isExecuted && r.value.rc == SQLITE_OK
      ensures r.Ok? ==> r.value.schema == DeriveSchema(ColumnViews(stmt.native.State())).value
    {
      var _ :- stmt.Reset();
      var schema :- stmt.GetSchema();
      var reader := new BatchReader(stmt, schema);
      r := Ok(reader);
    }

    /**
     * The inner loop of ReadNext: appends the current row's entries to the
     * builders, field by field, or stops at the first cell it cannot convert.
     */
    method AppendRow(builders: seq<seq<Value>>) returns (r: Result<seq<seq<Value>>>)
      requires |builders| == |schema|
      ensures var row := ConvertRow(schema, CurrentCells(stmt.native.State(), |schema|), stmt.native.coerce);
        && (r.Err? <==> row.Err?)
        && (r.Err? ==> r.status == row.status)
        && (r.Ok? ==> |r.value| == |schema| && |row.value| == |schema|)
        && (r.Ok? ==> forall j :: 0 <= j < |schema| ==> r.value[j] == builders[j] + [row.value[j]])
    {
      var native := stmt.native;
      var co := native.coerce;
      var n := |schema|;
      ghost var cells := CurrentCells(native.State(), n);
      ghost var vals: seq<Value> := [];
      var out := builders;
      var i := 0;
      while i < n
        invariant 0 <= i <= n && |out| == n
        invariant ConvertPrefix(schema, cells, co, i) == Ok(vals) && |vals| == i
        invariant forall j :: 0 <= j < i ==> out[j] == builders[j] + [vals[j]]
        invariant forall j :: i <= j < n ==> out[j] == builders[j]
      {
        var fieldType := schema[i].fieldType;
        var v: Value;
        if native.ColumnType(i) == SQLITE_NULL {
          v := NullValue;
        } else {
          match fieldType
          case Int64 =>
            v := IntValue(native.ColumnInt64(i));
          case Float64 =>
            v := RealValue(native.ColumnDouble(i));
          case Binary =>
            var blob := native.ColumnBlob(i);
            v := if blob.Some? then BytesValue(blob.value) else NullValue;
          case Utf8 =>
            var text := native.ColumnText(i);
            v := if text.Some? then BytesValue(text.value) else NullValue;
          case _ =>
            ConvertPrefixFailsAt(schema, cells, co, i, n);
            return Err(NotImplemented(ConversionMessage(fieldType)));
        }
        assert AppendValue(fieldType, cells[i], co) == Ok(v);
        out := out[i := out[i] + [v]];
        vals := vals + [v];
        i := i + 1;
      }
      r := Ok(out);
    }

    /** statement_batch_reader::ReadNext: the next batch, None at end of stream. */
    method ReadNext() returns (r: Result<Option<Batch>>)
      requires !stmt.native.finalized
      modifies this, stmt.native
      ensures (r, State()) == ReadNextSpec(schema, stmt.native.coerce, old(State()))
      ensures !stmt.native.finalized
    {
      var native := stmt.native;
      var co := native.coerce;
      var n := |schema|;
      var builders: seq<seq<Value>> := seq(n, _ => []);
      var rows := 0;
      if !isExecuted {
        rc :- stmt.Reset();
        rc :- stmt.Step();
        isExecuted := true;
      }
      ghost var e0, rc0 := native.State(), rc;
      ghost var acc: seq<seq<Value>> := [];
      assert builders == Columns(acc, n);
      while rows < MaxBatchSize && rc == SQLITE_ROW
        invariant rows == |acc| <= MaxBatchSize
        invariant isExecuted && !native.finalized
        invariant forall k :: 0 <= k < |acc| ==> |acc[k]| == n
        invariant builders == Columns(acc, n)
        invariant FillBatch(schema, co, native.State(), rc, acc) == FillBatch(schema, co, e0, rc0, [])
        decreases MaxBatchSize - rows
      {
        rows := rows + 1;
        builders :- AppendRow(builders);
        ghost var vals := ConvertRow(schema, CurrentCells(native.State(), n), co).value;
        ColumnsSnoc(acc, vals, n);
        rc :- stmt.Step();
        acc := acc + [vals];
      }
      if rows > 0 {
        r := Ok(Some(Batch(schema, rows, builders)));
      } else {
        r := Ok(None);
      }
    }
  }

  /** Appending a row adds its entries at the end of each column. */
  lemma ColumnsSnoc(acc: seq<seq<Value>>, vals: seq<Value>, n: nat)
    requires |vals| == n
    ensures forall j :: 0 <= j < n ==> Columns(acc + [vals], n)[j] == Columns(acc, n)[j] + [vals[j]]
  {
  }

  /**
   * A query such as SELECT 1: its one column has no declared type and no
   * table, so with no row current after the reset in make it is typed as
   * the dense union.
   */
  lemma UntypedColumnGetsUnion()
    ensures DeriveSchema(ColumnViews(Engine(Program([ColumnInfo("1", None, None)], [[Integer(1)]], SQLITE_DONE, ""), 0, SQLITE_OK))) ==
      Ok([Field("1", UnknownDenseUnion(), BuildColumnMeta(SQLITE_NULL, None))])
  {
    var e := Engine(Program([ColumnInfo("1", None, None)], [[Integer(1)]], SQLITE_DONE, ""), 0, SQLITE_OK);
    var views := ColumnViews(e);
    assert views == [ColumnView("1", SQLITE_NULL, None, None)];
    assert ColumnToArrowType(SQLITE_NULL) == NullType;
    assert FieldFor(views[0]) == Ok(Field("1", UnknownDenseUnion(), BuildColumnMeta(SQLITE_NULL, None)));
    assert views[..|views| - 1] == [];
    assert DeriveSchema([]) == Ok([]);
    assert DeriveSchema(views) == Ok([] + [Field("1", UnknownDenseUnion(), BuildColumnMeta(SQLITE_NULL, None))]);
    assert [] + [Field("1", UnknownDenseUnion(), BuildColumnMeta(SQLITE_NULL, None))] == [Field("1", UnknownDenseUnion(), BuildColumnMeta(SQLITE_NULL, None))];
  }

  /**
   * The first ReadNext of that reader then steps onto the row and rejects
   * its integer, because no append helper handles the dense union: the
   * query's rows can never be read.
   */
  lemma UntypedColumnCannotBeRead(co: Coercions)
    ensures ReadNextSpec([Field("1", UnknownDenseUnion(), BuildColumnMeta(SQLITE_NULL, None))], co,
                         ReaderState(false, SQLITE_OK,
                                     Engine(Program([ColumnInfo("1", None, None)], [[Integer(1)]], SQLITE_DONE, ""), 0, SQLITE_OK))).0 ==
      Err(NotImplemented(ConversionMessage(UnknownDenseUnion())))
  {
    var schema := [Field("1", UnknownDenseUnion(), BuildColumnMeta(SQLITE_NULL, None))];
    var p := Program([ColumnInfo("1", None, None)], [[Integer(1)]], SQLITE_DONE, "");
    var e := Engine(p, 1, SQLITE_ROW);
    assert StepEngine(ResetEngine(Engine(p, 0, SQLITE_OK)).0) == (e, SQLITE_ROW);
    assert CurrentCells(e, 1) == [Integer(1)];
    assert ConvertPrefix(schema, [Integer(1)], co, 0) == Ok([]);
    assert AppendValue(UnknownDenseUnion(), Integer(1), co) == Err(NotImplemented(ConversionMessage(UnknownDenseUnion())));
    assert ConvertRow(schema, [Integer(1)], co) == Err(NotImplemented(ConversionMessage(UnknownDenseUnion())));
  }
}
