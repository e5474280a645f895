/**
 * What successive ReadNext calls deliver over a whole result set: the rows
 * in cursor order, each exactly once, in batches of MaxBatchSize rows except
 * the last, followed by end-of-stream on every later call.
 */
module BatchStream {
  import opened ArrowStatus
  import opened Sqlite
  import opened ArrowTypes
  import opened BatchReading

  /** conv holds the builder entries of every row, in cursor order: every row converts, and row k gives conv[k]. */
  ghost predicate ConvertsTo(schema: Schema, co: Coercions, rows: seq<Row>, conv: seq<seq<Value>>) {
    |conv| == |rows| &&
    forall k {:trigger rows[k]} :: 0 <= k < |rows| ==> ConvertRow(schema, RowCells(rows[k], |schema|), co) == Ok(conv[k])
  }

  /** The reference chunking: consecutive slices of MaxBatchSize rows, the last one possibly shorter. */
  function Chunks<T>(rows: seq<T>): seq<seq<T>>
    decreases |rows|
  {
    if |rows| == 0 then []
    else if |rows| <= MaxBatchSize then [rows]
    else [rows[..MaxBatchSize]] + Chunks(rows[MaxBatchSize..])
  }

  function Flatten<T>(chunks: seq<seq<T>>): seq<T> {
    if |chunks| == 0 then [] else chunks[0] + Flatten(chunks[1..])
  }

  /** ceil(N / MaxBatchSize) non-empty chunks, all full but the last, which put back together give the rows. */
  lemma {:induction false} ChunksShape<T>(rows: seq<T>)
    ensures |Chunks(rows)| == (|rows| + MaxBatchSize - 1) / MaxBatchSize
    ensures forall i :: 0 <= i < |Chunks(rows)| ==> 0 < |Chunks(rows)[i]| <= MaxBatchSize
    ensures forall i :: 0 <= i < |Chunks(rows)| - 1 ==> |Chunks(rows)[i]| == MaxBatchSize
    ensures Flatten(Chunks(rows)) == rows
    decreases |rows|
  {
    if |rows| == 0 {
    } else if |rows| <= MaxBatchSize {
      assert Flatten(Chunks(rows)) == rows + Flatten([]);
    } else {
      var rest := rows[MaxBatchSize..];
      ChunksShape(rest);
      var cs := Chunks(rows);
      assert cs == [rows[..MaxBatchSize]] + Chunks(rest);
      assert cs[1..] == Chunks(rest);
      assert forall i :: 1 <= i < |cs| ==> cs[i] == Chunks(rest)[i - 1];
      assert rows == rows[..MaxBatchSize] + rest;
    }
  }

  /** The results of `calls` successive ReadNext calls from state s. */
  function Run(schema: Schema, co: Coercions, s: ReaderState, calls: nat): seq<Result<Option<Batch>>>
    decreases calls
  {
    if calls == 0 then []
    else
      var (out, s') := ReadNextSpec(schema, co, s);
      [out] + Run(schema, co, s', calls - 1)
  }

  /** One batch per chunk. */
  function Batches(schema: Schema, chunks: seq<seq<seq<Value>>>): seq<Result<Option<Batch>>> {
    if |chunks| == 0 then [] else [Ok(Some(BatchOf(schema, chunks[0])))] + Batches(schema, chunks[1..])
  }

  function EndOfStream(m: nat): seq<Result<Option<Batch>>> {
    seq(m, _ => Ok(None))
  }

  function Min(a: int, b: int): int {
    if a <= b then a else b
  }

  /**
   * A result set whose steps give ROW and then an end code that is neither
   * ROW nor SQLITE_ERROR. Only SQLITE_ERROR is reported by the step wrapper,
   * so any other end code, SQLITE_DONE or an error code such as
   * SQLITE_BUSY or SQLITE_CONSTRAINT, ends the stream alike.
   */
  predicate CleanEnd(p: Program) {
    p.endCode != SQLITE_ROW && p.endCode != SQLITE_ERROR
  }

  /** On row j of the result set, the current cells are the stored cells of row j. */
  lemma CurrentRowIsStored(p: Program, j: nat, code: int, n: nat)
    requires j < |p.rows|
    ensures CurrentCells(Engine(p, j + 1, code), n) == RowCells(p.rows[j], n)
  {
  }

  lemma SliceCons<T>(s: seq<T>, i: nat, k: nat)
    requires i < k <= |s|
    ensures forall a: seq<T> :: (a + [s[i]]) + s[i + 1..k] == a + s[i..k]
  {
    assert s[i..k] == [s[i]] + s[i + 1..k];
  }

  /** One turn of the row loop on a row that converts and a step that does not fail. */
  lemma FillOneRow(schema: Schema, co: Coercions, e: Engine, acc: seq<seq<Value>>, vals: seq<Value>)
    requires |acc| < MaxBatchSize
    requires ConvertRow(schema, CurrentCells(e, |schema|), co) == Ok(vals)
    requires StepEngine(e).1 != SQLITE_ERROR
    ensures FillBatch(schema, co, e, SQLITE_ROW, acc) ==
      FillBatch(schema, co, StepEngine(e).0, StepEngine(e).1, acc + [vals])
  {
  }

  /** On the last row with room in the batch, the row loop takes it and stops on the end code. */
  lemma FillTakesLastRow(schema: Schema, co: Coercions, p: Program, conv: seq<seq<Value>>, acc: seq<seq<Value>>)
    requires ConvertsTo(schema, co, p.rows, conv) && CleanEnd(p)
    requires 0 < |p.rows| && |acc| < MaxBatchSize
    ensures var j := |p.rows| - 1;
      FillBatch(schema, co, Engine(p, j + 1, SQLITE_ROW), SQLITE_ROW, acc) ==
        Filled(Engine(p, j + 2, p.endCode), p.endCode, acc + conv[j..j + 1])
  {
    var j := |p.rows| - 1;
    var e := Engine(p, j + 1, SQLITE_ROW);
    CurrentRowIsStored(p, j, SQLITE_ROW, |schema|);
    assert StepEngine(e) == (Engine(p, j + 2, p.endCode), p.endCode);
    FillOneRow(schema, co, e, acc, conv[j]);
    assert conv[j..j + 1] == [conv[j]];
  }

  /**
   * The row loop started on row j takes the next min(room, N - j) rows in
   * order and stops on the row after them, or on the end code.
   */
  ghost predicate TakesNextRows(schema: Schema, co: Coercions, p: Program, conv: seq<seq<Value>>, j: nat, acc: seq<seq<Value>>)
    requires j < |p.rows| && |acc| <= MaxBatchSize && |conv| == |p.rows|
  {
    var t := Min(MaxBatchSize - |acc|, |p.rows| - j);
    var rc := if j + t < |p.rows| then SQLITE_ROW else p.endCode;
    FillBatch(schema, co, Engine(p, j + 1, SQLITE_ROW), SQLITE_ROW, acc) ==
      Filled(Engine(p, j + 1 + t, rc), rc, acc + conv[j..j + t])
  }

  /** Taking row j in front of the rows taken from j + 1 on. */
  lemma TakeOneMoreRow(schema: Schema, co: Coercions, p: Program, conv: seq<seq<Value>>, j: nat, acc: seq<seq<Value>>)
    requires ConvertsTo(schema, co, p.rows, conv) && CleanEnd(p)
    requires j + 1 < |p.rows| && |acc| < MaxBatchSize
    requires TakesNextRows(schema, co, p, conv, j + 1, acc + [conv[j]])
    ensures TakesNextRows(schema, co, p, conv, j, acc)
  {
    var e := Engine(p, j + 1, SQLITE_ROW);
    CurrentRowIsStored(p, j, SQLITE_ROW, |schema|);
    assert StepEngine(e) == (Engine(p, j + 2, SQLITE_ROW), SQLITE_ROW);
    FillOneRow(schema, co, e, acc, conv[j]);
    var t := Min(MaxBatchSize - |acc|, |p.rows| - j);
    assert Min(MaxBatchSize - |acc + [conv[j]]|, |p.rows| - (j + 1)) == t - 1;
    SliceCons(conv, j, j + t);
  }

  lemma {:induction false} FillTakesNextRows(schema: Schema, co: Coercions, p: Program, conv: seq<seq<Value>>, j: nat, acc: seq<seq<Value>>)
    requires ConvertsTo(schema, co, p.rows, conv) && CleanEnd(p)
    requires j < |p.rows| && |acc| <= MaxBatchSize
    ensures TakesNextRows(schema, co, p, conv, j, acc)
    decreases MaxBatchSize - |acc|
  {
    if |acc| == MaxBatchSize {
      assert conv[j..j] == [];
    } else if j + 1 < |p.rows| {
      FillTakesNextRows(schema, co, p, conv, j + 1, acc + [conv[j]]);
      TakeOneMoreRow(schema, co, p, conv, j, acc);
    } else {
      FillTakesLastRow(schema, co, p, conv, acc);
    }
  }

  /** The reader positioned on row j of a result set, having returned the rows before it. */
  function Reading(p: Program, j: nat): ReaderState {
    ReaderState(true, SQLITE_ROW, Engine(p, j + 1, SQLITE_ROW))
  }

  /** The reader after the end code was returned. */
  function Exhausted(p: Program): ReaderState {
    ReaderState(true, p.endCode, Engine(p, |p.rows| + 1, p.endCode))
  }

  lemma {:induction false} RunExhausted(schema: Schema, co: Coercions, p: Program, m: nat)
    requires CleanEnd(p)
    ensures Run(schema, co, Exhausted(p), m) == EndOfStream(m)
    decreases m
  {
    if m > 0 {
      ExhaustedReaderStaysExhausted(schema, co, Exhausted(p));
      RunExhausted(schema, co, p, m - 1);
    }
  }

  /**
   * A call on row j returns the next MaxBatchSize rows as one batch and
   * stops on the row after them, or, when no more than that remain, returns
   * them all and leaves the reader exhausted.
   */
  lemma ReadFromRow(schema: Schema, co: Coercions, p: Program, conv: seq<seq<Value>>, j: nat)
    requires ConvertsTo(schema, co, p.rows, conv) && CleanEnd(p)
    requires j < |p.rows|
    ensures |p.rows| - j > MaxBatchSize ==>
      ReadNextSpec(schema, co, Reading(p, j)) ==
        (Ok(Some(BatchOf(schema, conv[j..j + MaxBatchSize]))), Reading(p, j + MaxBatchSize))
    ensures |p.rows| - j <= MaxBatchSize ==>
      ReadNextSpec(schema, co, Reading(p, j)) == (Ok(Some(BatchOf(schema, conv[j..]))), Exhausted(p))
  {
    FillTakesNextRows(schema, co, p, conv, j, []);
    var t := Min(MaxBatchSize, |p.rows| - j);
    assert [] + conv[j..j + t] == conv[j..j + t];
    assert conv[j..j + (|p.rows| - j)] == conv[j..];
  }

  /** The chunks of rows from j on: the next full chunk first while more than a chunk remains. */
  lemma ChunksFrom<T>(rows: seq<T>, j: nat)
    requires j < |rows|
    ensures |rows| - j > MaxBatchSize ==>
      Chunks(rows[j..]) == [rows[j..j + MaxBatchSize]] + Chunks(rows[j + MaxBatchSize..])
    ensures |rows| - j <= MaxBatchSize ==> Chunks(rows[j..]) == [rows[j..]]
  {
    if |rows| - j > MaxBatchSize {
      assert rows[j..][..MaxBatchSize] == rows[j..j + MaxBatchSize];
      assert rows[j..][MaxBatchSize..] == rows[j + MaxBatchSize..];
    }
  }

  /** A call that returns out and leaves s' puts out in front of the calls from s'. */
  lemma RunCons(schema: Schema, co: Coercions, s: ReaderState, out: Result<Option<Batch>>, s': ReaderState,
                rest: seq<Result<Option<Batch>>>, calls: nat)
    requires calls > 0 && ReadNextSpec(schema, co, s) == (out, s')
    requires Run(schema, co, s', calls - 1) == rest
    ensures Run(schema, co, s, calls) == [out] + rest
  {
  }

  /** The calls from row j, as chunks of the rows from j on, then end-of-stream. */
  ghost predicate StreamFrom(schema: Schema, co: Coercions, p: Program, conv: seq<seq<Value>>, j: nat, m: nat)
    requires j <= |conv|
  {
    var chunks := Chunks(conv[j..]);
    Run(schema, co, Reading(p, j), |chunks| + m) == Batches(schema, chunks) + EndOfStream(m)
  }

  /** A full chunk in front of the stream from row j + MaxBatchSize gives the stream from row j. */
  lemma FullChunkThenRest(schema: Schema, co: Coercions, p: Program, conv: seq<seq<Value>>, j: nat, m: nat)
    requires ConvertsTo(schema, co, p.rows, conv) && CleanEnd(p)
    requires j + MaxBatchSize < |p.rows|
    requires StreamFrom(schema, co, p, conv, j + MaxBatchSize, m)
    ensures StreamFrom(schema, co, p, conv, j, m)
  {
    ReadFromRow(schema, co, p, conv, j);
    ChunksFrom(conv, j);
    var chunks := Chunks(conv[j..]);
    var first := conv[j..j + MaxBatchSize];
    var tail := Chunks(conv[j + MaxBatchSize..]);
    RunCons(schema, co, Reading(p, j), Ok(Some(BatchOf(schema, first))), Reading(p, j + MaxBatchSize),
            Batches(schema, tail) + EndOfStream(m), |chunks| + m);
    assert chunks[0] == first && chunks[1..] == tail;
  }

  /** From row j with no more than MaxBatchSize rows left: one batch of them all, then end-of-stream. */
  lemma LastChunk(schema: Schema, co: Coercions, p: Program, conv: seq<seq<Value>>, j: nat, m: nat)
    requires ConvertsTo(schema, co, p.rows, conv) && CleanEnd(p)
    requires j < |p.rows| <= j + MaxBatchSize
    ensures StreamFrom(schema, co, p, conv, j, m)
  {
    ReadFromRow(schema, co, p, conv, j);
    ChunksFrom(conv, j);
    RunExhausted(schema, co, p, m);
    RunCons(schema, co, Reading(p, j), Ok(Some(BatchOf(schema, conv[j..]))), Exhausted(p),
            EndOfStream(m), 1 + m);
  }

  /** From row j on, each call returns the next chunk, and every call after the last chunk returns end-of-stream. */
  lemma {:induction false} RunFromRow(schema: Schema, co: Coercions, p: Program, conv: seq<seq<Value>>, j: nat, m: nat)
    requires ConvertsTo(schema, co, p.rows, conv) && CleanEnd(p)
    requires j < |p.rows|
    ensures StreamFrom(schema, co, p, conv, j, m)
    decreases |p.rows| - j
  {
    if j + MaxBatchSize < |p.rows| {
      RunFromRow(schema, co, p, conv, j + MaxBatchSize, m);
      FullChunkThenRest(schema, co, p, conv, j, m);
    } else {
      LastChunk(schema, co, p, conv, j, m);
    }
  }

  /**
   * From a fresh reader (whatever its cursor, as long as the last step did
   * not fail with SQLITE_ERROR), the calls return one batch per chunk of
   * the converted rows and then end-of-stream, however often they are
   * repeated.
   */
  lemma StreamDeliversChunks(schema: Schema, co: Coercions, p: Program, conv: seq<seq<Value>>, stepped: nat, lastCode: int, rc: int, m: nat)
    requires ConvertsTo(schema, co, p.rows, conv) && CleanEnd(p)
    requires lastCode != SQLITE_ERROR
    ensures var chunks := Chunks(conv);
      Run(schema, co, ReaderState(false, rc, Engine(p, stepped, lastCode)), |chunks| + m) ==
        Batches(schema, chunks) + EndOfStream(m)
  {
    var start := ReaderState(false, rc, Engine(p, stepped, lastCode));
    if |p.rows| == 0 {
      assert ReadNextSpec(schema, co, start) == (Ok(None), Exhausted(p));
      if m > 0 {
        RunExhausted(schema, co, p, m - 1);
      }
    } else {
      assert ReadNextSpec(schema, co, start) == ReadNextSpec(schema, co, Reading(p, 0));
      assert conv[0..] == conv;
      RunFromRow(schema, co, p, conv, 0, m);
    }
  }

  /**
   * A query that stops with SQLITE_CONSTRAINT after its rows delivers
   * exactly what the same rows followed by SQLITE_DONE deliver: the rows,
   * then end-of-stream, and no error.
   */
  lemma ConstraintFailureEndsStreamQuietly(schema: Schema, co: Coercions, p: Program, conv: seq<seq<Value>>, m: nat)
    requires ConvertsTo(schema, co, p.rows, conv) && p.endCode == SQLITE_CONSTRAINT
    ensures var calls := |Chunks(conv)| + m;
      Run(schema, co, ReaderState(false, SQLITE_OK, Engine(p, 0, SQLITE_OK)), calls) ==
        Run(schema, co, ReaderState(false, SQLITE_OK, Engine(p.(endCode := SQLITE_DONE), 0, SQLITE_OK)), calls)
  {
    StreamDeliversChunks(schema, co, p, conv, 0, SQLITE_OK, SQLITE_OK, m);
    StreamDeliversChunks(schema, co, p.(endCode := SQLITE_DONE), conv, 0, SQLITE_OK, SQLITE_OK, m);
  }

  /**
   * Every row exactly once, in cursor order: reading the rows back out of
   * the batches, in order, gives the converted rows of the result set.
   */
  lemma BatchesHoldEveryRowOnce(schema: Schema, co: Coercions, rows: seq<Row>, conv: seq<seq<Value>>)
    requires ConvertsTo(schema, co, rows, conv)
    ensures var chunks := Chunks(conv);
      Flatten(seq(|chunks|, i requires 0 <= i < |chunks| => RowsOf(BatchOf(schema, chunks[i])))) ==
        conv
  {
    var chunks := Chunks(conv);
    ChunksShape(conv);
    forall k | 0 <= k < |conv|
      ensures |conv[k]| == |schema|
    {
      assert ConvertRow(schema, RowCells(rows[k], |schema|), co) == Ok(conv[k]);
      ConvertPrefixValues(schema, RowCells(rows[k], |schema|), co, |schema|);
    }
    ChunkRowsHaveWidth(conv, |schema|);
    var read := seq(|chunks|, i requires 0 <= i < |chunks| => RowsOf(BatchOf(schema, chunks[i])));
    forall i | 0 <= i < |chunks|
      ensures read[i] == chunks[i]
    {
      RowsOfBatchOf(schema, chunks[i]);
    }
    assert read == chunks;
  }

  lemma {:induction false} ChunkRowsHaveWidth(rows: seq<seq<Value>>, n: nat)
    requires forall k :: 0 <= k < |rows| ==> |rows[k]| == n
    ensures forall i, k :: 0 <= i < |Chunks(rows)| && 0 <= k < |Chunks(rows)[i]| ==> |Chunks(rows)[i][k]| == n
    decreases |rows|
  {
    if |rows| > MaxBatchSize {
      ChunkRowsHaveWidth(rows[MaxBatchSize..], n);
      assert Chunks(rows) == [rows[..MaxBatchSize]] + Chunks(rows[MaxBatchSize..]);
    }
  }

  /** A NULL cell becomes a null entry whatever its field's type. */
  lemma NullCellsStayNull(schema: Schema, co: Coercions, rows: seq<Row>, conv: seq<seq<Value>>, k: nat, j: nat)
    requires ConvertsTo(schema, co, rows, conv)
    requires k < |rows| && j < |schema| && j < |rows[k]| && rows[k][j].Null?
    ensures |conv[k]| == |schema| && conv[k][j] == NullValue
  {
    var cells := RowCells(rows[k], |schema|);
    assert ConvertRow(schema, cells, co) == Ok(conv[k]);
    ConvertPrefixValues(schema, cells, co, |schema|);
    AppendValueFails(schema[j].fieldType, cells[j], co);
  }
}
