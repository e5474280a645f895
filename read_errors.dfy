/**
 * How a ReadNext call part-way through a result set fails: on a row that
 * cannot be converted, or on a step that reports SQLITE_ERROR. Either way
 * the rows the call had already taken are dropped.
 */
module ReadErrors {
  import opened ArrowStatus
  import opened Sqlite
  import opened ArrowTypes
  import opened Statements
  import opened BatchReading
  import opened BatchStream

  /** Rows j to j + |conv| - 1 of the result set all convert, row j + d giving conv[d]. */
  ghost predicate ConvertsFrom(schema: Schema, co: Coercions, rows: seq<Row>, j: nat, conv: seq<seq<Value>>) {
    j + |conv| <= |rows| &&
    forall d {:trigger conv[d]} :: 0 <= d < |conv| ==> ConvertRow(schema, RowCells(rows[j + d], |schema|), co) == Ok(conv[d])
  }

  /** Dropping the first converted row moves the range on by one row. */
  lemma ConvertsFromTail(schema: Schema, co: Coercions, rows: seq<Row>, j: nat, conv: seq<seq<Value>>)
    requires ConvertsFrom(schema, co, rows, j, conv) && 0 < |conv|
    ensures ConvertsFrom(schema, co, rows, j + 1, conv[1..])
  {
    forall d | 0 <= d < |conv[1..]|
      ensures ConvertRow(schema, RowCells(rows[j + 1 + d], |schema|), co) == Ok(conv[1..][d])
    {
      assert conv[1..][d] == conv[d + 1];
      assert j + 1 + d == j + (d + 1);
    }
  }

  /** On row j, with room for the rows of conv and a row after them, the row loop takes them and moves on to that row. */
  lemma {:induction false} FillSkipsRows(schema: Schema, co: Coercions, p: Program, j: nat, conv: seq<seq<Value>>, acc: seq<seq<Value>>)
    requires ConvertsFrom(schema, co, p.rows, j, conv)
    requires j + |conv| < |p.rows| && |acc| + |conv| <= MaxBatchSize
    ensures FillBatch(schema, co, Engine(p, j + 1, SQLITE_ROW), SQLITE_ROW, acc) ==
      FillBatch(schema, co, Engine(p, j + 1 + |conv|, SQLITE_ROW), SQLITE_ROW, acc + conv)
    decreases |conv|
  {
    if |conv| == 0 {
      assert acc + conv == acc;
    } else {
      var e := Engine(p, j + 1, SQLITE_ROW);
      CurrentRowIsStored(p, j, SQLITE_ROW, |schema|);
      assert ConvertRow(schema, RowCells(p.rows[j + 0], |schema|), co) == Ok(conv[0]);
      assert StepEngine(e) == (Engine(p, j + 2, SQLITE_ROW), SQLITE_ROW);
      FillOneRow(schema, co, e, acc, conv[0]);
      ConvertsFromTail(schema, co, p.rows, j, conv);
      FillSkipsRows(schema, co, p, j + 1, conv[1..], acc + [conv[0]]);
      assert acc + [conv[0]] + conv[1..] == acc + conv;
    }
  }

  /** On row k, whose first cell that cannot be converted is cell i, the row loop stops where it is with that cell's status. */
  lemma FillStopsOnFailingRow(schema: Schema, co: Coercions, p: Program, k: nat, i: nat, acc: seq<seq<Value>>)
    requires k < |p.rows| && |acc| < MaxBatchSize && i < |schema|
    requires ConvertPrefix(schema, RowCells(p.rows[k], |schema|), co, i).Ok?
    requires AppendValue(schema[i].fieldType, RowCells(p.rows[k], |schema|)[i], co).Err?
    ensures FillBatch(schema, co, Engine(p, k + 1, SQLITE_ROW), SQLITE_ROW, acc) ==
      FillFailed(NotImplemented(ConversionMessage(schema[i].fieldType)), Engine(p, k + 1, SQLITE_ROW), SQLITE_ROW)
  {
    var cells := RowCells(p.rows[k], |schema|);
    ConvertPrefixFailsAt(schema, cells, co, i, |schema|);
    AppendValueFails(schema[i].fieldType, cells[i], co);
    CurrentRowIsStored(p, k, SQLITE_ROW, |schema|);
  }

  /**
   * A call on row j whose rows convert up to row j + |conv|, where cell i
   * is the first that cannot be converted, fails with that cell's
   * NotImplemented status. The rows before it are dropped, and the reader
   * stays on the failing row with rc SQLITE_ROW, so every later call fails
   * on that row again.
   */
  lemma ConversionFailureDropsRows(schema: Schema, co: Coercions, p: Program, j: nat, conv: seq<seq<Value>>, i: nat)
    requires ConvertsFrom(schema, co, p.rows, j, conv)
    requires j + |conv| < |p.rows| && |conv| < MaxBatchSize
    requires i < |schema|
    requires ConvertPrefix(schema, RowCells(p.rows[j + |conv|], |schema|), co, i).Ok?
    requires AppendValue(schema[i].fieldType, RowCells(p.rows[j + |conv|], |schema|)[i], co).Err?
    ensures ReadNextSpec(schema, co, Reading(p, j)) ==
      (Err(NotImplemented(ConversionMessage(schema[i].fieldType))), Reading(p, j + |conv|))
    ensures ReadNextSpec(schema, co, Reading(p, j + |conv|)) ==
      (Err(NotImplemented(ConversionMessage(schema[i].fieldType))), Reading(p, j + |conv|))
  {
    FillSkipsRows(schema, co, p, j, conv, []);
    assert [] + conv == conv;
    FillStopsOnFailingRow(schema, co, p, j + |conv|, i, conv);
    FillStopsOnFailingRow(schema, co, p, j + |conv|, i, []);
  }

  /**
   * A call on row j whose remaining rows all convert and fit in one batch,
   * in a result set whose final step reports SQLITE_ERROR, fails with the
   * connection's runtime error. The rows are dropped, rc stays SQLITE_ROW
   * and the cursor is past the last row.
   */
  lemma StepErrorDropsRows(schema: Schema, co: Coercions, p: Program, j: nat, conv: seq<seq<Value>>)
    requires ConvertsFrom(schema, co, p.rows, j, conv)
    requires j + |conv| == |p.rows| && 0 < |conv| <= MaxBatchSize
    requires p.endCode == SQLITE_ERROR
    ensures ReadNextSpec(schema, co, Reading(p, j)) ==
      (Err(ExecutionError(RuntimeErrorMessage(p.errmsg))),
       ReaderState(true, SQLITE_ROW, Engine(p, |p.rows| + 1, SQLITE_ERROR)))
  {
    var t := |conv| - 1;
    var last := |p.rows| - 1;
    assert ConvertsFrom(schema, co, p.rows, j, conv[..t]) by {
      forall d | 0 <= d < t
        ensures ConvertRow(schema, RowCells(p.rows[j + d], |schema|), co) == Ok(conv[..t][d])
      {
        assert conv[..t][d] == conv[d];
      }
    }
    FillSkipsRows(schema, co, p, j, conv[..t], []);
    assert ConvertRow(schema, RowCells(p.rows[j + t], |schema|), co) == Ok(conv[t]);
    CurrentRowIsStored(p, last, SQLITE_ROW, |schema|);
    assert StepEngine(Engine(p, last + 1, SQLITE_ROW)) == (Engine(p, last + 2, SQLITE_ERROR), SQLITE_ERROR);
  }
}
